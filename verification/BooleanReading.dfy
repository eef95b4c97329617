/** How the database reads the boolean structure of a clause.

    The printed clause is a list of boolean tokens around opaque conditions.  It is parsed by
    the grammar of section 8.12 of ISO/IEC 9075:1992 (NOT binds tighter than AND, AND tighter
    than OR) and evaluated in three-valued logic. */
module BooleanReading {
  import opened Outcomes
  import opened SqlText
  import opened Expressions
  import opened Sequences

  datatype Truth = True | False | Unknown

  function Neg(a: Truth): Truth {
    match a case True => False case False => True case Unknown => Unknown
  }

  function Conj(a: Truth, b: Truth): Truth {
    if a.False? || b.False? then False else if a.True? && b.True? then True else Unknown
  }

  function Disj(a: Truth, b: Truth): Truth {
    if a.True? || b.True? then True else if a.False? && b.False? then False else Unknown
  }

  /** The truth value of each elementary condition. */
  type Assignment = Expr -> Truth

  // ----- what a clause means -----

  function Combine(join: BoolOp, vs: seq<Truth>): Truth
    requires vs != []
  {
    if |vs| == 1 then vs[0]
    else if join == OpOr then Disj(vs[0], Combine(join, vs[1..]))
    else Conj(vs[0], Combine(join, vs[1..]))
  }

  /** A condition is an expression without its own negation. */
  function Condition(e: Expr): Expr {
    if e.Node? then Node(false, e.field, e.lookup, e.args) else e
  }

  function Eval(asg: Assignment, e: Expr): Truth
    decreases e, 1
  {
    match e
    case Node(not, _, _, _) => if not then Neg(asg(Condition(e))) else asg(e)
    case Group(children, join, not) =>
      if children == [] then Unknown
      else
        var v := Combine(join, EvalAll(asg, children));
        if not then Neg(v) else v
    case _ => asg(e)
  }

  function EvalAll(asg: Assignment, es: seq<Expr>): (vs: seq<Truth>)
    ensures |vs| == |es|
    decreases es, 0
  {
    if es == [] then [] else [Eval(asg, es[0])] + EvalAll(asg, es[1..])
  }

  // ----- the printed boolean tokens -----

  datatype BoolToken = NOT | LP | RP | AND | OR | Atom(e: Expr)

  function JoinToken(join: BoolOp): BoolToken {
    if join == OpOr then OR else AND
  }

  function Skeleton(e: Expr): seq<BoolToken>
    decreases e, 1
  {
    match e
    case Node(not, _, _, _) => if not then [NOT, LP, Atom(Condition(e)), RP] else [Atom(e)]
    case Group(children, join, not) =>
      (if not then [NOT] else [])
      + (if |children| > 1 then [LP] + SkeletonAll(children, join) + [RP] else SkeletonAll(children, join))
    case _ => [Atom(e)]
  }

  function SkeletonAll(es: seq<Expr>, join: BoolOp): seq<BoolToken>
    decreases es, 0
  {
    if es == [] then []
    else if |es| == 1 then Skeleton(es[0])
    else Skeleton(es[0]) + [JoinToken(join)] + SkeletonAll(es[1..], join)
  }

  // ----- the grammar -----

  datatype Tree = Leaf(e: Expr) | Not(t: Tree) | And(l: Tree, r: Tree) | Or(l: Tree, r: Tree)

  function TruthOf(asg: Assignment, t: Tree): Truth {
    match t
    case Leaf(e) => asg(e)
    case Not(u) => Neg(TruthOf(asg, u))
    case And(l, r) => Conj(TruthOf(asg, l), TruthOf(asg, r))
    case Or(l, r) => Disj(TruthOf(asg, l), TruthOf(asg, r))
  }

  type Parse = Option<(Tree, seq<BoolToken>)>

  /** boolean factor.  The standard allows a single NOT; `lenient` readers allow any number. */
  function Factor(lenient: bool, ts: seq<BoolToken>): (p: Parse)
    ensures p.Some? ==> |p.value.1| < |ts|
    decreases |ts|, 0
  {
    if ts != [] && ts[0] == NOT then
      if lenient || (|ts| > 1 && ts[1] != NOT) then
        match Factor(lenient, ts[1..])
        case None => None
        case Some(p) => Some((Not(p.0), p.1))
      else None
    else Primary(lenient, ts)
  }

  /** boolean primary: a condition, or a search condition in parentheses. */
  function Primary(lenient: bool, ts: seq<BoolToken>): (p: Parse)
    ensures p.Some? ==> |p.value.1| < |ts|
    decreases |ts|, 0, 0
  {
    if ts == [] then None
    else if ts[0].Atom? then Some((Leaf(ts[0].e), ts[1..]))
    else if ts[0] == LP then
      match SearchCondition(lenient, ts[1..])
      case None => None
      case Some(p) => if p.1 != [] && p.1[0] == RP then Some((p.0, p.1[1..])) else None
    else None
  }

  /** boolean term: factors joined by AND, the tree so far on the left. */
  function Term(lenient: bool, ts: seq<BoolToken>): (p: Parse)
    ensures p.Some? ==> |p.value.1| < |ts|
    decreases |ts|, 2
  {
    match Factor(lenient, ts)
    case None => None
    case Some(p) => TermTail(lenient, p.0, p.1)
  }

  function TermTail(lenient: bool, left: Tree, ts: seq<BoolToken>): (p: Parse)
    ensures p.Some? ==> |p.value.1| <= |ts|
    decreases |ts|, 1
  {
    if ts != [] && ts[0] == AND then
      match Factor(lenient, ts[1..])
      case None => None
      case Some(p) => TermTail(lenient, And(left, p.0), p.1)
    else Some((left, ts))
  }

  function SearchCondition(lenient: bool, ts: seq<BoolToken>): (p: Parse)
    ensures p.Some? ==> |p.value.1| < |ts|
    decreases |ts|, 4
  {
    match Term(lenient, ts)
    case None => None
    case Some(p) => ConditionTail(lenient, p.0, p.1)
  }

  function ConditionTail(lenient: bool, left: Tree, ts: seq<BoolToken>): (p: Parse)
    ensures p.Some? ==> |p.value.1| <= |ts|
    decreases |ts|, 3
  {
    if ts != [] && ts[0] == OR then
      match Term(lenient, ts[1..])
      case None => None
      case Some(p) => ConditionTail(lenient, Or(left, p.0), p.1)
    else Some((left, ts))
  }

  /** The whole text is one search condition. */
  function ParseAll(lenient: bool, ts: seq<BoolToken>): Option<Tree> {
    match SearchCondition(lenient, ts)
    case None => None
    case Some(p) => if p.1 == [] then Some(p.0) else None
  }

  // ----- which clauses can be read -----

  predicate StartsWithNot(e: Expr)
    decreases e
  {
    match e
    case Node(not, _, _, _) => not
    case Group(children, _, not) => not || (|children| == 1 && StartsWithNot(children[0]))
    case _ => false
  }

  /** No group is empty and, for a strict reader, no negated one-child group wraps something
      that prints a NOT of its own. */
  predicate Readable(lenient: bool, e: Expr)
    decreases e
  {
    e.Group? ==>
      && e.children != []
      && (forall c :: c in e.children ==> Readable(lenient, c))
      && (e.not && |e.children| == 1 && !lenient ==> !StartsWithNot(e.children[0]))
  }

  /** Groups with more than one child name their connective, as And and Or do. */
  predicate Connected(e: Expr)
    decreases e
  {
    e.Group? ==>
      && (|e.children| > 1 ==> e.join != OpNone)
      && forall c :: c in e.children ==> Connected(c)
  }

  /** What may follow a factor. */
  predicate Follows(ts: seq<BoolToken>) {
    ts == [] || ts[0] == AND || ts[0] == OR || ts[0] == RP
  }

  /** `p` is a tree whose value under `asg` is `v`, leaving `rest`. */
  predicate ParsesTo(p: Parse, asg: Assignment, v: Truth, rest: seq<BoolToken>) {
    p.Some? && p.value.1 == rest && TruthOf(asg, p.value.0) == v
  }

  lemma {:induction false} Associative(a: Truth, b: Truth, c: Truth)
    ensures Conj(Conj(a, b), c) == Conj(a, Conj(b, c))
    ensures Disj(Disj(a, b), c) == Disj(a, Disj(b, c))
  {
  }

  lemma NotToken(e: Expr)
    requires Readable(true, e)
    ensures Skeleton(e) != []
    ensures Skeleton(e)[0] == NOT <==> StartsWithNot(e)
    ensures Skeleton(e)[0] == NOT || Skeleton(e)[0] == LP || Skeleton(e)[0].Atom?
    decreases e
  {
    if e.Group? && |e.children| == 1 {
      NotToken(e.children[0]);
    }
  }

  lemma StrictIsLenient(e: Expr)
    requires Readable(false, e)
    ensures Readable(true, e)
    decreases e
  {
    if e.Group? {
      forall c | c in e.children ensures Readable(true, c) {
        StrictIsLenient(c);
      }
    }
  }

  /** A readable clause is one factor with the clause's own meaning. */
  lemma {:induction false} ReadsFactor(lenient: bool, asg: Assignment, e: Expr, rest: seq<BoolToken>)
    requires Readable(lenient, e) && Connected(e)
    ensures ParsesTo(Factor(lenient, Skeleton(e) + rest), asg, Eval(asg, e), rest)
    decreases e, 2
  {
    match e
    case Node(_, _, _, _) => ReadsNode(lenient, asg, e, rest);
    case Group(_, _, _) => ReadsGroup(lenient, asg, e, rest);
    case _ =>
      assert (Skeleton(e) + rest)[1..] == rest;
  }

  lemma {:induction false} ReadsNode(lenient: bool, asg: Assignment, e: Expr, rest: seq<BoolToken>)
    requires e.Node?
    ensures ParsesTo(Factor(lenient, Skeleton(e) + rest), asg, Eval(asg, e), rest)
  {
    var ts := Skeleton(e) + rest;
    if e.not {
      var leaf := Leaf(Condition(e));
      ParenthesizedCondition(lenient, Condition(e), rest);
      assert ts[1..] == [LP, Atom(Condition(e)), RP] + rest;
      assert Factor(lenient, ts) == Some((Not(leaf), rest));
    } else {
      assert ts[1..] == rest;
    }
  }

  lemma {:induction false} ParenthesizedCondition(lenient: bool, e: Expr, rest: seq<BoolToken>)
    ensures Factor(lenient, [LP, Atom(e), RP] + rest) == Some((Leaf(e), rest))
  {
    var after := [RP] + rest;
    var inner := [Atom(e)] + after;
    var ts := [LP, Atom(e), RP] + rest;
    assert after[1..] == rest && inner[1..] == after && ts[1..] == inner;
    assert Factor(lenient, inner) == Some((Leaf(e), after));
    assert TermTail(lenient, Leaf(e), after) == Some((Leaf(e), after));
    assert Term(lenient, inner) == Some((Leaf(e), after));
    assert ConditionTail(lenient, Leaf(e), after) == Some((Leaf(e), after));
    assert SearchCondition(lenient, inner) == Some((Leaf(e), after));
  }

  /** The group without its NOT. */
  function Body(e: Expr): seq<BoolToken>
    requires e.Group?
  {
    if |e.children| > 1 then [LP] + SkeletonAll(e.children, e.join) + [RP] else SkeletonAll(e.children, e.join)
  }

  lemma {:induction false} NotBeforeBody(e: Expr, rest: seq<BoolToken>)
    requires e.Group?
    ensures Skeleton(e) + rest == if e.not then [NOT] + (Body(e) + rest) else Body(e) + rest
    ensures e.not ==> (Skeleton(e) + rest)[0] == NOT && (Skeleton(e) + rest)[1..] == Body(e) + rest
  {
  }

  lemma {:induction false} ReadsGroup(lenient: bool, asg: Assignment, e: Expr, rest: seq<BoolToken>)
    requires e.Group? && Readable(lenient, e) && Connected(e)
    ensures ParsesTo(Factor(lenient, Skeleton(e) + rest), asg, Eval(asg, e), rest)
    decreases e, 1
  {
    ReadsBody(lenient, asg, e, rest);
    NotBeforeBody(e, rest);
    if e.not && !lenient {
      BodyStart(e, rest);
    }
  }

  /** For a strict reader the body of a readable negated group does not start with NOT. */
  lemma {:induction false} BodyStart(e: Expr, rest: seq<BoolToken>)
    requires e.Group? && e.children != [] && forall c :: c in e.children ==> Readable(true, c) || Readable(false, c)
    ensures (Body(e) + rest) != []
    ensures (Body(e) + rest)[0] == NOT <==> |e.children| == 1 && StartsWithNot(e.children[0])
  {
    if |e.children| == 1 {
      if !Readable(true, e.children[0]) {
        StrictIsLenient(e.children[0]);
      }
      NotToken(e.children[0]);
    }
  }

  lemma {:induction false} ReadsBody(lenient: bool, asg: Assignment, e: Expr, rest: seq<BoolToken>)
    requires e.Group? && Readable(lenient, e) && Connected(e)
    ensures ParsesTo(Factor(lenient, Body(e) + rest), asg, Combine(e.join, EvalAll(asg, e.children)), rest)
    decreases e, 0
  {
    if |e.children| == 1 {
      ReadsFactor(lenient, asg, e.children[0], rest);
    } else {
      var inner := SkeletonAll(e.children, e.join) + ([RP] + rest);
      assert (Body(e) + rest)[1..] == inner;
      ReadsList(lenient, asg, e.children, e.join, [RP] + rest);
      assert ([RP] + rest)[1..] == rest;
    }
  }

  /** The tokens after the first clause of a list. */
  function More(es: seq<Expr>, join: BoolOp, rest: seq<BoolToken>): seq<BoolToken> {
    if |es| <= 1 then rest else [JoinToken(join)] + SkeletonAll(es[1..], join) + rest
  }

  lemma {:induction false} FirstClause(es: seq<Expr>, join: BoolOp, rest: seq<BoolToken>)
    requires es != []
    ensures SkeletonAll(es, join) + rest == Skeleton(es[0]) + More(es, join, rest)
    ensures ([JoinToken(join)] + SkeletonAll(es, join) + rest)[1..] == Skeleton(es[0]) + More(es, join, rest)
  {
    var all := SkeletonAll(es, join);
    if |es| > 1 {
      RegroupFour(Skeleton(es[0]), [JoinToken(join)], SkeletonAll(es[1..], join), rest);
    }
    Behind(JoinToken(join), all, rest);
  }

  lemma {:induction false} Behind(t: BoolToken, a: seq<BoolToken>, b: seq<BoolToken>)
    ensures ([t] + a + b)[1..] == a + b
  {
  }

  /** Clauses joined by one connective, up to something that does not continue the list. */
  lemma {:induction false} ReadsList(lenient: bool, asg: Assignment, es: seq<Expr>, join: BoolOp, rest: seq<BoolToken>)
    requires es != [] && join != OpNone
    requires forall c :: c in es ==> Readable(lenient, c) && Connected(c)
    requires rest == [] || rest[0] == RP
    ensures ParsesTo(SearchCondition(lenient, SkeletonAll(es, join) + rest), asg, Combine(join, EvalAll(asg, es)), rest)
    decreases es, 0
  {
    var more := More(es, join, rest);
    FirstClause(es, join, rest);
    ReadsFactor(lenient, asg, es[0], more);
    var ts := Skeleton(es[0]) + more;
    var t := Factor(lenient, ts).value.0;
    assert Term(lenient, ts) == TermTail(lenient, t, more);
    if |es| == 1 {
      assert Term(lenient, ts) == Some((t, rest));
      assert EvalAll(asg, es) == [Eval(asg, es[0])];
    } else if join == OpAnd {
      ReadsAnds(lenient, asg, t, es[1..], rest);
      assert EvalAll(asg, es)[1..] == EvalAll(asg, es[1..]);
    } else {
      assert Term(lenient, ts) == Some((t, more));
      ReadsOrs(lenient, asg, t, es[1..], rest);
      assert EvalAll(asg, es)[1..] == EvalAll(asg, es[1..]);
    }
  }

  lemma {:induction false} ReadsAnds(lenient: bool, asg: Assignment, left: Tree, es: seq<Expr>, rest: seq<BoolToken>)
    requires es != []
    requires forall c :: c in es ==> Readable(lenient, c) && Connected(c)
    requires rest == [] || rest[0] == RP
    ensures ParsesTo(TermTail(lenient, left, [AND] + SkeletonAll(es, OpAnd) + rest), asg,
                     Conj(TruthOf(asg, left), Combine(OpAnd, EvalAll(asg, es))), rest)
    decreases es, 0
  {
    var more := More(es, OpAnd, rest);
    FirstClause(es, OpAnd, rest);
    ReadsFactor(lenient, asg, es[0], more);
    var t := Factor(lenient, Skeleton(es[0]) + more).value.0;
    if |es| > 1 {
      ReadsAnds(lenient, asg, And(left, t), es[1..], rest);
      Associative(TruthOf(asg, left), Eval(asg, es[0]), Combine(OpAnd, EvalAll(asg, es[1..])));
    }
  }

  lemma {:induction false} ReadsOrs(lenient: bool, asg: Assignment, left: Tree, es: seq<Expr>, rest: seq<BoolToken>)
    requires es != []
    requires forall c :: c in es ==> Readable(lenient, c) && Connected(c)
    requires rest == [] || rest[0] == RP
    ensures ParsesTo(ConditionTail(lenient, left, [OR] + SkeletonAll(es, OpOr) + rest), asg,
                     Disj(TruthOf(asg, left), Combine(OpOr, EvalAll(asg, es))), rest)
    decreases es, 0
  {
    var more := More(es, OpOr, rest);
    FirstClause(es, OpOr, rest);
    ReadsFactor(lenient, asg, es[0], more);
    var t := Factor(lenient, Skeleton(es[0]) + more).value.0;
    assert Term(lenient, Skeleton(es[0]) + more) == Some((t, more));
    if |es| > 1 {
      ReadsOrs(lenient, asg, Or(left, t), es[1..], rest);
      Associative(TruthOf(asg, left), Eval(asg, es[0]), Combine(OpOr, EvalAll(asg, es[1..])));
    }
  }

  // ----- what is not readable does not parse -----

  /** Any assignment will do where only the shape of the parse matters. */
  const ANY_ASSIGNMENT: Assignment := (e: Expr) => Unknown

  lemma {:induction false} UnreadableFails(lenient: bool, e: Expr, rest: seq<BoolToken>)
    requires Connected(e) && !Readable(lenient, e) && Follows(rest)
    ensures Factor(lenient, Skeleton(e) + rest) == None
    decreases e, 1
  {
    NotBeforeBody(e, rest);
    if e.children != [] && (forall c :: c in e.children ==> Readable(lenient, c)) {
      BodyStart(e, rest);
    } else {
      UnreadableBodyFails(lenient, e, rest);
    }
  }

  lemma {:induction false} BodyShape(e: Expr, rest: seq<BoolToken>)
    requires e.Group?
    ensures Body(e) + rest ==
            if e.children == [] then rest
            else if |e.children| == 1 then Skeleton(e.children[0]) + rest
            else [LP] + (SkeletonAll(e.children, e.join) + ([RP] + rest))
  {
  }

  lemma {:induction false} UnreadableBodyFails(lenient: bool, e: Expr, rest: seq<BoolToken>)
    requires e.Group? && Connected(e) && Follows(rest)
    requires e.children == [] || exists c :: c in e.children && !Readable(lenient, c)
    ensures Factor(lenient, Body(e) + rest) == None
    decreases e, 0
  {
    hide Readable, Skeleton, SkeletonAll;
    BodyShape(e, rest);
    if e.children == [] {
    } else if |e.children| == 1 {
      UnreadableFails(lenient, e.children[0], rest);
    } else {
      var list := SkeletonAll(e.children, e.join) + ([RP] + rest);
      UnreadableListFails(lenient, e.children, e.join, [RP] + rest);
      assert ([LP] + list)[1..] == list;
    }
  }

  lemma {:induction false} UnreadableListFails(lenient: bool, es: seq<Expr>, join: BoolOp, rest: seq<BoolToken>)
    requires es != [] && join != OpNone
    requires forall c :: c in es ==> Connected(c)
    requires exists c :: c in es && !Readable(lenient, c)
    requires rest == [] || rest[0] == RP
    ensures SearchCondition(lenient, SkeletonAll(es, join) + rest) == None
    decreases es, 0
  {
    var more := More(es, join, rest);
    FirstClause(es, join, rest);
    if !Readable(lenient, es[0]) {
      UnreadableFails(lenient, es[0], more);
    } else {
      ReadsFactor(lenient, ANY_ASSIGNMENT, es[0], more);
      var t := Factor(lenient, Skeleton(es[0]) + more).value.0;
      if join == OpAnd {
        UnreadableAndsFail(lenient, t, es[1..], rest);
      } else {
        assert Term(lenient, Skeleton(es[0]) + more) == Some((t, more));
        UnreadableOrsFail(lenient, t, es[1..], rest);
      }
    }
  }

  lemma {:induction false} UnreadableAndsFail(lenient: bool, left: Tree, es: seq<Expr>, rest: seq<BoolToken>)
    requires forall c :: c in es ==> Connected(c)
    requires exists c :: c in es && !Readable(lenient, c)
    requires rest == [] || rest[0] == RP
    ensures TermTail(lenient, left, [AND] + SkeletonAll(es, OpAnd) + rest) == None
    decreases es, 0
  {
    var more := More(es, OpAnd, rest);
    FirstClause(es, OpAnd, rest);
    if !Readable(lenient, es[0]) {
      UnreadableFails(lenient, es[0], more);
    } else {
      ReadsFactor(lenient, ANY_ASSIGNMENT, es[0], more);
      UnreadableAndsFail(lenient, And(left, Factor(lenient, Skeleton(es[0]) + more).value.0), es[1..], rest);
    }
  }

  lemma {:induction false} UnreadableOrsFail(lenient: bool, left: Tree, es: seq<Expr>, rest: seq<BoolToken>)
    requires forall c :: c in es ==> Connected(c)
    requires exists c :: c in es && !Readable(lenient, c)
    requires rest == [] || rest[0] == RP
    ensures ConditionTail(lenient, left, [OR] + SkeletonAll(es, OpOr) + rest) == None
    decreases es, 0
  {
    var more := More(es, OpOr, rest);
    FirstClause(es, OpOr, rest);
    if !Readable(lenient, es[0]) {
      UnreadableFails(lenient, es[0], more);
    } else {
      ReadsFactor(lenient, ANY_ASSIGNMENT, es[0], more);
      var t := Factor(lenient, Skeleton(es[0]) + more).value.0;
      assert Term(lenient, Skeleton(es[0]) + more) == Some((t, more));
      UnreadableOrsFail(lenient, Or(left, t), es[1..], rest);
    }
  }

  // ----- the main results -----

  /** The clauses of a WHERE or HAVING list, joined by AND as the clause writer joins them, are
      one search condition exactly when each can be read, and then its truth value is the
      conjunction of theirs, under every assignment of truth values to the conditions. */
  lemma {:induction false} ClauseListReads(lenient: bool, clauses: seq<Expr>)
    requires clauses != [] && forall c :: c in clauses ==> Connected(c)
    ensures var p := ParseAll(lenient, SkeletonAll(clauses, OpAnd));
            && (p.Some? <==> forall c :: c in clauses ==> Readable(lenient, c))
            && (p.Some? ==> forall asg: Assignment ::
                  TruthOf(asg, p.value) == Combine(OpAnd, EvalAll(asg, clauses)))
  {
    assert SkeletonAll(clauses, OpAnd) + [] == SkeletonAll(clauses, OpAnd);
    if forall c :: c in clauses ==> Readable(lenient, c) {
      ReadsList(lenient, ANY_ASSIGNMENT, clauses, OpAnd, []);
      forall asg: Assignment
        ensures TruthOf(asg, ParseAll(lenient, SkeletonAll(clauses, OpAnd)).value) == Combine(OpAnd, EvalAll(asg, clauses))
      {
        ReadsList(lenient, asg, clauses, OpAnd, []);
      }
    } else {
      UnreadableListFails(lenient, clauses, OpAnd, []);
    }
  }

  // ----- the tokens are the printed text -----

  /** Text character by character, so that it does not matter in how many writes it came. */
  datatype Glyph = Ch(c: char) | Mark

  function Chars(s: string): seq<Glyph> {
    if s == "" then [] else [Ch(s[0])] + Chars(s[1..])
  }

  function Glyphs(text: seq<Token>): seq<Glyph> {
    if text == [] then []
    else (if text[0].Hole? then [Mark] else Chars(text[0].s)) + Glyphs(text[1..])
  }

  /** How conditions are printed. */
  type AtomPrinter = Expr -> Code

  function TokenCode(printer: AtomPrinter, t: BoolToken): Code {
    match t
    case NOT => Txt("NOT ")
    case LP => Txt("(")
    case RP => Txt(")")
    case AND => Txt(" AND ")
    case OR => Txt(" OR ")
    case Atom(e) => printer(e)
  }

  function Render(printer: AtomPrinter, ts: seq<BoolToken>): Code {
    if ts == [] then Code([], []) else Then(TokenCode(printer, ts[0]), Render(printer, ts[1..]))
  }

  /** The same characters and the same arguments. */
  predicate SameText(a: Code, b: Code) {
    Glyphs(a.text) == Glyphs(b.text) && a.args == b.args
  }

  lemma {:induction false} GlyphsOfConcat(a: seq<Token>, b: seq<Token>)
    ensures Glyphs(a + b) == Glyphs(a) + Glyphs(b)
  {
    if a == [] {
      assert a + b == b;
    } else {
      assert (a + b)[1..] == a[1..] + b;
      GlyphsOfConcat(a[1..], b);
    }
  }

  lemma {:induction false} RenderOfConcat(printer: AtomPrinter, a: seq<BoolToken>, b: seq<BoolToken>)
    ensures Render(printer, a + b) == Then(Render(printer, a), Render(printer, b))
  {
    if a == [] {
      assert a + b == b;
    } else {
      assert (a + b)[1..] == a[1..] + b;
      RenderOfConcat(printer, a[1..], b);
    }
  }

  lemma {:induction false} RenderOne(printer: AtomPrinter, t: BoolToken)
    ensures Render(printer, [t]) == TokenCode(printer, t)
  {
    assert [t][1..] == [];
  }

  lemma {:induction false} SameThen(a: Code, x: Code, b: Code, y: Code)
    requires SameText(a, x) && SameText(b, y)
    ensures SameText(Then(a, b), Then(x, y))
  {
    GlyphsOfConcat(a.text, b.text);
    GlyphsOfConcat(x.text, y.text);
  }

  lemma {:induction false} CharsOfConcat(s: string, t: string)
    ensures Chars(s + t) == Chars(s) + Chars(t)
  {
    if s == "" {
      assert s + t == t;
    } else {
      assert (s + t)[1..] == s[1..] + t;
      CharsOfConcat(s[1..], t);
    }
  }

  lemma {:induction false} OneGlyphs(s: string)
    ensures Glyphs(Txt(s).text) == Chars(s)
  {
    if s != "" {
      var none: seq<Token> := [];
      assert [Text(s)][1..] == none;
      assert Glyphs(none) == [];
    }
  }

  /** One write or two: the same text. */
  lemma {:induction false} SplitWrite(s: string, t: string)
    ensures SameText(Txt(s + t), Then(Txt(s), Txt(t)))
  {
    CharsOfConcat(s, t);
    OneGlyphs(s);
    OneGlyphs(t);
    OneGlyphs(s + t);
    GlyphsOfConcat(Txt(s).text, Txt(t).text);
  }

  /** Each clause compiled by itself. */
  function CompileAll(env: Env, es: seq<Expr>): Result<seq<Code>> {
    if es == [] then Ok([])
    else
      var c :- Compile(env, es[0]);
      var cs :- CompileAll(env, es[1..]);
      Ok([c] + cs)
  }

  lemma {:induction false} CompileEach(env: Env, es: seq<Expr>)
    requires ResolveAll(env, es).Ok? && SqlAll(env.driver, ResolveAll(env, es).value).Ok?
    ensures CompileAll(env, es) == SqlAll(env.driver, ResolveAll(env, es).value)
  {
    if es != [] {
      var rs := ResolveAll(env, es).value;
      assert rs[0] == Resolve(env, es[0]).value && rs[1..] == ResolveAll(env, es[1..]).value;
      CompileEach(env, es[1..]);
    }
  }

  lemma {:induction false} CompileGroup(env: Env, e: Expr)
    requires e.Group? && Compile(env, e).Ok?
    ensures CompileAll(env, e.children).Ok? && |CompileAll(env, e.children).value| == |e.children|
    ensures Compile(env, e).value == GroupCode(CompileAll(env, e.children).value, e.join, e.not)
  {
    CompileEach(env, e.children);
  }

  lemma {:induction false} CompileNegatedNode(env: Env, e: Expr)
    requires e.Node? && e.not && Compile(env, e).Ok?
    ensures Compile(env, Condition(e)).Ok?
    ensures Compile(env, e).value == NotWrap(true, Compile(env, Condition(e)).value)
  {
    var lhs := Resolve(env, e.field).value;
    var transforms, name := SplitLookup(e.lookup).0, SplitLookup(e.lookup).1;
    var r := ResolveLookup(env, true, transforms, name, lhs, e.args).value;
    assert Resolve(env, e) == Ok(r);
    assert ResolveLookup(env, false, transforms, name, lhs, e.args) == Ok(RLookup(false, r.lookup, r.lhs, r.operand));
    assert Resolve(env, Condition(e)) == Ok(RLookup(false, r.lookup, r.lhs, r.operand));
  }

  /** `printer` prints each of the conditions of `e` as the compiler does. */
  predicate PrintsConditions(env: Env, printer: AtomPrinter, e: Expr)
    decreases e
  {
    if e.Group? then forall c :: c in e.children ==> PrintsConditions(env, printer, c)
    else Compile(env, Condition(e)) == Ok(printer(Condition(e)))
  }

  lemma {:induction false} NegatedPrints(printer: AtomPrinter, atom: Expr)
    ensures SameText(NotWrap(true, printer(atom)), Render(printer, [NOT, LP, Atom(atom), RP]))
  {
    hide Render, Glyphs, Then, Txt;
    var c, one := printer(atom), [Atom(atom)];
    var tail := Then(c, Txt(")"));
    RenderOne(printer, Atom(atom));
    ParenthesesPrint(printer, c, one);
    NotPrints(printer, Then(Txt("("), tail), [LP] + one + [RP]);
    OpeningSplits(tail);
    assert [NOT] + ([LP] + one + [RP]) == [NOT, LP, Atom(atom), RP];
  }

  lemma {:induction false} OpeningSplits(tail: Code)
    ensures SameText(Then(Txt("NOT ("), tail), Then(Txt("NOT "), Then(Txt("("), tail)))
  {
    hide Glyphs, Then, Txt;
    SplitWrite("NOT ", "(");
    assert "NOT " + "(" == "NOT (";
    SameThen(Txt("NOT ("), Then(Txt("NOT "), Txt("(")), tail, tail);
    ThenRegroups(Txt("NOT "), Txt("("), tail);
  }

  /** Printing a clause writes its boolean tokens with each condition compiled on its own. */
  lemma {:induction false} ClausePrintsSkeleton(env: Env, printer: AtomPrinter, e: Expr)
    requires Connected(e) && Compile(env, e).Ok? && PrintsConditions(env, printer, e)
    ensures SameText(Compile(env, e).value, Render(printer, Skeleton(e)))
    decreases e, 1
  {
    if e.Group? {
      CompileGroup(env, e);
      ListPrintsSkeleton(env, printer, e.children, e.join);
      GroupPrints(printer, CompileAll(env, e.children).value, e);
    } else if e.Node? && e.not {
      CompileNegatedNode(env, e);
      NegatedPrints(printer, Condition(e));
    } else {
      RenderOne(printer, Atom(e));
    }
  }

  lemma {:induction false} ListPrintsSkeleton(env: Env, printer: AtomPrinter, es: seq<Expr>, join: BoolOp)
    requires forall c :: c in es ==> Connected(c) && PrintsConditions(env, printer, c)
    requires |es| > 1 ==> join != OpNone
    requires CompileAll(env, es).Ok?
    ensures |CompileAll(env, es).value| == |es|
    ensures SameText(Join(CompileAll(env, es).value, Separator(join)),
                     Render(printer, SkeletonAll(es, join)))
    decreases es, 0
  {
    if es != [] {
      ClausePrintsSkeleton(env, printer, es[0]);
      ListPrintsSkeleton(env, printer, es[1..], join);
      var cs := CompileAll(env, es).value;
      assert cs[0] == Compile(env, es[0]).value && cs[1..] == CompileAll(env, es[1..]).value;
      if |es| > 1 {
        JoinPrints(printer, cs, es, join);
      }
    }
  }

  lemma {:induction false} RenderList(printer: AtomPrinter, first: seq<BoolToken>, join: BoolOp, rest: seq<BoolToken>)
    requires join != OpNone
    ensures Render(printer, first + [JoinToken(join)] + rest)
         == Then(Render(printer, first), Then(Txt(Separator(join)), Render(printer, rest)))
  {
    var op := JoinToken(join);
    RenderOfConcat(printer, [op], rest);
    RenderOfConcat(printer, first, [op] + rest);
    RenderOne(printer, op);
    assert first + [op] + rest == first + ([op] + rest);
  }

  lemma {:induction false} JoinPrints(printer: AtomPrinter, cs: seq<Code>, es: seq<Expr>, join: BoolOp)
    requires |cs| == |es| > 1 && join != OpNone
    requires SameText(cs[0], Render(printer, Skeleton(es[0])))
    requires SameText(Join(cs[1..], Separator(join)), Render(printer, SkeletonAll(es[1..], join)))
    ensures SameText(Join(cs, Separator(join)), Render(printer, SkeletonAll(es, join)))
  {
    var sep := Separator(join);
    var rest := SkeletonAll(es[1..], join);
    RenderList(printer, Skeleton(es[0]), join, rest);
    RegroupFour(Skeleton(es[0]), [JoinToken(join)], rest, []);
    SameThen(Txt(sep), Txt(sep), Join(cs[1..], sep), Render(printer, rest));
    SameThen(cs[0], Render(printer, Skeleton(es[0])), Then(Txt(sep), Join(cs[1..], sep)), Then(Txt(sep), Render(printer, rest)));
  }

  lemma {:induction false} GroupPrints(printer: AtomPrinter, cs: seq<Code>, e: Expr)
    requires e.Group? && |cs| == |e.children|
    requires SameText(Join(cs, Separator(e.join)),
                      Render(printer, SkeletonAll(e.children, e.join)))
    ensures SameText(GroupCode(cs, e.join, e.not), Render(printer, Skeleton(e)))
  {
    var body := Join(cs, Separator(e.join));
    var all := SkeletonAll(e.children, e.join);
    if |cs| > 1 {
      ParenthesesPrint(printer, body, all);
    }
    var inner := if |cs| > 1 then Then(Txt("("), Then(body, Txt(")"))) else body;
    if e.not {
      NotPrints(printer, inner, Body(e));
      assert Skeleton(e) == [NOT] + Body(e);
    } else {
      assert Skeleton(e) == Body(e);
    }
  }

  lemma {:induction false} ParenthesesPrint(printer: AtomPrinter, c: Code, ts: seq<BoolToken>)
    requires SameText(c, Render(printer, ts))
    ensures SameText(Then(Txt("("), Then(c, Txt(")"))), Render(printer, [LP] + ts + [RP]))
  {
    RenderOne(printer, LP);
    RenderOne(printer, RP);
    RenderOfConcat(printer, ts, [RP]);
    RenderOfConcat(printer, [LP], ts + [RP]);
    assert [LP] + ts + [RP] == [LP] + (ts + [RP]);
    SameThen(c, Render(printer, ts), Txt(")"), Txt(")"));
    SameThen(Txt("("), Txt("("), Then(c, Txt(")")), Then(Render(printer, ts), Txt(")")));
  }

  lemma {:induction false} NotPrints(printer: AtomPrinter, c: Code, ts: seq<BoolToken>)
    requires SameText(c, Render(printer, ts))
    ensures SameText(Then(Txt("NOT "), c), Render(printer, [NOT] + ts))
  {
    RenderOne(printer, NOT);
    RenderOfConcat(printer, [NOT], ts);
    SameThen(Txt("NOT "), Txt("NOT "), c, Render(printer, ts));
  }

  // ----- the printed WHERE clause, read back -----

  function ConditionCode(env: Env, e: Expr): Code {
    match Compile(env, e) case Ok(c) => c case Panic => Code([], [])
  }

  function CompilerPrinter(env: Env): AtomPrinter {
    (e: Expr) => ConditionCode(env, e)
  }

  lemma {:induction false} CompilerPrintsConditions(env: Env, e: Expr)
    requires Compile(env, e).Ok?
    ensures PrintsConditions(env, CompilerPrinter(env), e)
    decreases e, 1
  {
    if e.Group? {
      CompileGroup(env, e);
      CompilerPrintsAll(env, e.children);
    } else if e.Node? && e.not {
      CompileNegatedNode(env, e);
    }
  }

  lemma {:induction false} CompilerPrintsAll(env: Env, es: seq<Expr>)
    requires CompileAll(env, es).Ok?
    ensures forall c :: c in es ==> PrintsConditions(env, CompilerPrinter(env), c)
    decreases es, 0
  {
    if es != [] {
      CompilerPrintsConditions(env, es[0]);
      CompilerPrintsAll(env, es[1..]);
    }
  }

  /** The text the clause writer produces for a list of clauses, with each condition taken as
      printed, parses back to the conjunction of the clauses; it parses at all exactly when
      every clause is readable. */
  lemma {:induction false} WhereTextReadsBack(env: Env, lenient: bool, clauses: seq<Expr>)
    requires clauses != [] && forall c :: c in clauses ==> Connected(c)
    requires CompileAll(env, clauses).Ok?
    ensures SameText(Join(CompileAll(env, clauses).value, " AND "),
                     Render(CompilerPrinter(env), SkeletonAll(clauses, OpAnd)))
    ensures var p := ParseAll(lenient, SkeletonAll(clauses, OpAnd));
            && (p.Some? <==> forall c :: c in clauses ==> Readable(lenient, c))
            && (p.Some? ==> forall asg: Assignment ::
                  TruthOf(asg, p.value) == Combine(OpAnd, EvalAll(asg, clauses)))
  {
    CompilerPrintsAll(env, clauses);
    ListPrintsSkeleton(env, CompilerPrinter(env), clauses, OpAnd);
    ClauseListReads(lenient, clauses);
  }
}
