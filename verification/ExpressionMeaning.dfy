/** What compiled expressions mean: which placeholders survive, and that the surviving ones
    receive the values the expression names. */
module ExpressionMeaning {
  import opened Outcomes
  import opened SqlText
  import opened LikePattern
  import opened Expressions
  import opened Sequences

  // ----- the reference reading: one pass over the source tree, values written inline -----

  function Words(text: seq<Token>): seq<Piece>
    requires Holes(text) == 0
  {
    Fill(text, [])
  }

  function ConcatPieces(ps: seq<seq<Piece>>): seq<Piece> {
    if ps == [] then [] else ps[0] + ConcatPieces(ps[1..])
  }

  function JoinPieces(ps: seq<seq<Piece>>, sep: string): seq<Piece> {
    if ps == [] then []
    else if |ps| == 1 then ps[0]
    else ps[0] + (LitOf(sep) + JoinPieces(ps[1..], sep))
  }

  function GroupPieces(ps: seq<seq<Piece>>, join: BoolOp, not: bool): seq<Piece> {
    var body := JoinPieces(ps, Separator(join));
    var inner := if |ps| > 1 then LitOf("(") + (body + LitOf(")")) else body;
    if not then LitOf("NOT ") + inner else inner
  }

  function FuncPieces(d: Driver, f: FuncName, inner: seq<seq<Piece>>, params: seq<seq<Piece>>): seq<Piece> {
    match f
    case NOW =>
      LitOf(match d case MySQL => "NOW()" case Postgres => "CURRENT_TIMESTAMP" case SQLite => "DATETIME('now')")
    case COALESCE => LitOf("COALESCE(") + (JoinPieces(inner, ", ") + LitOf(")"))
    case CONCAT =>
      if d.SQLite? then LitOf("(") + (JoinPieces(inner, " || ") + LitOf(")"))
      else LitOf("CONCAT(") + (JoinPieces(inner, ", ") + LitOf(")"))
    case SUBSTR =>
      if |inner| != 1 || |params| != 2 then []
      else
        var w := SubstrWords(d);
        if params[1] == [] then [Lit(w.0)] + inner[0] + [Lit(w.1)] + params[0] + [Lit(")")]
        else [Lit(w.0)] + inner[0] + [Lit(w.1)] + params[0] + [Lit(w.2)] + params[1] + [Lit(")")]
    case _ => if |inner| != 1 then [] else LitOf(UnaryName(f)) + (inner[0] + LitOf(")"))
  }

  function ColPieces(l: Lookup, p: seq<Piece>): seq<Piece> {
    if l.Pattern? && FoldsColumn(l.name) then [Lit("LOWER(")] + p + [Lit(")")] else p
  }

  function TransformPieces(transforms: seq<string>, p: seq<Piece>): seq<Piece> {
    if transforms == [] then p
    else match TransformNamed(transforms[0])
      case None => []
      case Some(f) => TransformPieces(transforms[1..], LitOf(UnaryName(f)) + (p + LitOf(")")))
  }

  /** `op operand`, or `op operand = operand` for the bitwise operators. */
  function LogicalPieces(op: LogicalOp, operand: seq<Piece>): seq<Piece> {
    [Lit(OpText(op) + " ")] + operand + if IsBitwise(op) then [Lit(" = ")] + operand else []
  }

  function ListPieces(vs: seq<Value>): seq<Piece> {
    if vs == [] then [] else if |vs| == 1 then [Bound(vs[0])] else [Bound(vs[0]), Lit(", ")] + ListPieces(vs[1..])
  }

  /** A lookup on a left-hand side that reads `lhs`; `operand` is the reading of its argument
      when that is an expression. */
  function LookupPieces(d: Driver, l: Lookup, lhs: seq<Piece>, args: seq<Arg>, operand: seq<Piece>): seq<Piece>
    requires ArityOk(l, |args|)
  {
    var col := ColPieces(l, lhs);
    match l
    case Logical(op) =>
      col + [Lit(" ")] + LogicalPieces(op, if args[0].ArgValue? then [Bound(args[0].v)] else operand)
    case Pattern(p) => (
      match args[0]
      case ArgValue(v) =>
        var (pre, post) := OperatorAffixes(OperatorRhs(d, p));
        if !v.Str? then []
        else col + [Lit(" ")] + LitOf(pre) + ColPieces(l, [Bound(Str(PatternArgument(p, v.s)))]) + LitOf(post)
      case ArgExpr(_) =>
        match PatternOpAffixes(d, p)
        case Panic => []
        case Ok(a) => col + [Lit(" ")] + LitOf(a.0) + operand + LitOf(a.1))
    case In =>
      col + [Lit(" IN (")] + (if args[0].ArgValue? then ListPieces(Flatten(PlainValues(args))) else operand) + [Lit(")")]
    case IsNull =>
      var isNull := if args == [] then true
                    else if args[0].ArgExpr? then false
                    else match IsNullFlag(args[0].v) case Ok(b) => b case Panic => false;
      col + [Lit(if isNull then " IS NULL" else " IS NOT NULL")]
  }

  function NotPieces(not: bool, p: seq<Piece>): seq<Piece> {
    if not then LitOf("NOT (") + (p + LitOf(")")) else p
  }

  function FieldPieces(env: Env, name: string): seq<Piece> {
    match ResolveField(env, name)
    case Ok(code) => Fill(code.text, code.args)
    case Panic => []
  }

  /** The statement an expression stands for, with its values in place. */
  function Inline(env: Env, e: Expr): seq<Piece>
    decreases e, 1
  {
    match e
    case Verbatim(s) => LitOf(s)
    case Op(op) => LitOf(" " + OpText(op) + " ")
    case Val(v, inline) =>
      if inline then LitOf(match InlineText(v) case Ok(s) => s case Panic => "")
      else [Bound(v)] + LitOf(match Cast(env.driver, v) case Ok(s) => s case Panic => "")
    case Field(name) => FieldPieces(env, name)
    case Named(name, inner) =>
      var p := Inline(env.(forUpdate := false), inner);
      if env.forUpdate then FieldPieces(env, name) + (LitOf(" = ") + p) else p
    case Chain(fieldName, parts) =>
      var p := ConcatPieces(InlineAll(env, parts));
      if fieldName == "" then p
      else
        var f := FieldPieces(env, fieldName);
        f + (LitOf(if env.forUpdate && f != [] then " = " else "") + p)
    case Node(not, field, lookup, args) =>
      var (transforms, name) := SplitLookup(lookup);
      (match LookupNamed(name)
       case None => []
       case Some(l) =>
         if !ArityOk(l, |args|) then []
         else
           var lhs := TransformPieces(transforms, Inline(env, field));
           NotPieces(not, LookupPieces(env.driver, l, lhs, args, InlineOperand(env, l, args))))
    case Group(children, op, not) => GroupPieces(InlineAll(env, children), op, not)
    case Case(arms, dflt) =>
      var head := LitOf("CASE ") + JoinPieces(InlineAll(env, arms), " ");
      (match dflt
       case None => head + LitOf(" END")
       case Some(x) => (head + (LitOf(" ELSE ") + Inline(env, x))) + LitOf(" END"))
    case When(lhs, rhs, thn) =>
      (match rhs
       case None => (LitOf("WHEN ") + Inline(env, lhs)) + (LitOf(" THEN ") + Inline(env, thn))
       case Some(x) =>
         ([Lit("WHEN ")] + Inline(env, lhs) + [Lit(" ")] + LogicalPieces(EQ, Inline(env, x)))
         + (LitOf(" THEN ") + Inline(env, thn)))
    case Func(name, inner, params) => FuncPieces(env.driver, name, InlineAll(env, inner), InlineAll(env, params))
    case Raw(code, _) => Fill(code.text, code.args)
  }

  function InlineAll(env: Env, es: seq<Expr>): (ps: seq<seq<Piece>>)
    ensures |ps| == |es|
    decreases es, 0
  {
    if es == [] then [] else [Inline(env, es[0])] + InlineAll(env, es[1..])
  }

  function InlineOperand(env: Env, l: Lookup, args: seq<Arg>): seq<Piece>
    decreases args, 0
  {
    if args == [] then [] else InlineArg(env, l, args[0])
  }

  function InlineArg(env: Env, l: Lookup, a: Arg): seq<Piece>
    decreases a, 0
  {
    match a
    case ArgValue(_) => []
    case ArgExpr(e) => if l.In? then InlineBare(e) else Inline(env, e)
  }

  /** The reading of an expression given to IN. */
  function InlineBare(e: Expr): seq<Piece>
    decreases e, 1
  {
    match e
    case Verbatim(s) => LitOf(s)
    case Op(op) => LitOf(" " + OpText(op) + " ")
    case Val(v, inline) => if inline then LitOf(GoText(v)) else [Bound(v)]
    case Named(_, inner) => InlineBare(inner)
    case Chain(_, parts) => ConcatPieces(InlineBareAll(parts))
    case Group(children, op, not) => GroupPieces(InlineBareAll(children), op, not)
    case Raw(code, _) => Fill(code.text, code.args)
    case _ => []
  }

  function InlineBareAll(es: seq<Expr>): (ps: seq<seq<Piece>>)
    ensures |ps| == |es|
    decreases es, 0
  {
    if es == [] then [] else [InlineBare(es[0])] + InlineBareAll(es[1..])
  }

  // ----- which bound values lose their placeholder -----

  function Sum(ns: seq<nat>): nat {
    if ns == [] then 0 else ns[0] + Sum(ns[1..])
  }

  /** The bound values of `e` that are printed without a placeholder: those under the
      left-hand side of a lookup with a transform, and those inside an expression given to IN. */
  function Lost(e: Expr): nat
    decreases e, 1
  {
    match e
    case Named(_, inner) => Lost(inner)
    case Chain(_, parts) => Sum(LostAll(parts))
    case Node(_, field, lookup, args) =>
      (if SplitLookup(lookup).0 != [] then LostByClone(field) else Lost(field))
      + (match LookupNamed(SplitLookup(lookup).1) case None => 0 case Some(l) => LostArgs(l, args))
    case Group(children, _, _) => Sum(LostAll(children))
    case Case(arms, dflt) => Sum(LostAll(arms)) + (match dflt case None => 0 case Some(x) => Lost(x))
    case When(lhs, rhs, thn) => Lost(lhs) + (match rhs case None => 0 case Some(x) => Lost(x)) + Lost(thn)
    case Func(name, inner, params) =>
      FuncLost(name, Sum(LostAll(inner)), Sum(LostAll(params)))
    case _ => 0
  }

  function LostAll(es: seq<Expr>): (ns: seq<nat>)
    ensures |ns| == |es|
    decreases es, 0
  {
    if es == [] then [] else [Lost(es[0])] + LostAll(es[1..])
  }

  /** Only SUBSTR prints its parameters, and NOW prints nothing it is given. */
  function FuncLost(f: FuncName, inner: nat, params: nat): nat {
    (if f.NOW? then 0 else inner) + (if f.SUBSTR? then params else 0)
  }

  function LostArgs(l: Lookup, args: seq<Arg>): nat
    decreases args, 0
  {
    if args == [] then 0 else LostArg(l, args[0])
  }

  function LostArg(l: Lookup, a: Arg): nat
    decreases a, 0
  {
    match a
    case ArgValue(_) => 0
    case ArgExpr(e) => if l.In? then LostBare(e) else if l.IsNull? then 0 else Lost(e)
  }

  /** The same once the resolved `e` has been cloned: every bound value a clone reaches. */
  function LostByClone(e: Expr): nat
    decreases e, 2
  {
    match e
    case Val(_, inline) => if inline then 0 else 1
    case Named(_, inner) => LostByClone(inner)
    case Chain(_, parts) => Sum(LostByCloneAll(parts))
    case Node(_, _, _, _) => Lost(e)
    case Group(children, _, _) => Sum(LostByCloneAll(children))
    case Case(arms, dflt) => Sum(LostByCloneAll(arms)) + (match dflt case None => 0 case Some(x) => LostByClone(x))
    case When(lhs, rhs, thn) =>
      LostByClone(lhs) + (match rhs case None => 0 case Some(x) => LostByClone(x)) + LostByClone(thn)
    case Func(name, inner, params) =>
      FuncLost(name, Sum(LostByCloneAll(inner)), Sum(LostAll(params)))
    case _ => 0
  }

  function LostByCloneAll(es: seq<Expr>): (ns: seq<nat>)
    ensures |ns| == |es|
    decreases es, 2
  {
    if es == [] then [] else [LostByClone(es[0])] + LostByCloneAll(es[1..])
  }

  /** The bound values of an expression nobody resolved. */
  function LostBare(e: Expr): nat
    decreases e, 1
  {
    match e
    case Val(_, inline) => if inline then 0 else 1
    case Named(_, inner) => LostBare(inner)
    case Chain(_, parts) => Sum(LostBareAll(parts))
    case Group(children, _, _) => Sum(LostBareAll(children))
    case _ => 0
  }

  function LostBareAll(es: seq<Expr>): (ns: seq<nat>)
    ensures |ns| == |es|
    decreases es, 0
  {
    if es == [] then [] else [LostBare(es[0])] + LostBareAll(es[1..])
  }

  // ----- composing codes that may have lost placeholders -----

  /** `c` has `lost` arguments too many; when there are none, it reads `ps`. */
  predicate Means(c: Code, lost: nat, ps: seq<Piece>) {
    Holes(c.text) + lost == |c.args| && (lost == 0 ==> Reads(c, ps))
  }

  predicate AllMean(cs: seq<Code>, ns: seq<nat>, ps: seq<seq<Piece>>) {
    |cs| == |ns| == |ps| && forall i :: 0 <= i < |cs| ==> Means(cs[i], ns[i], ps[i])
  }

  lemma {:induction false} MeansThen(a: Code, m: nat, p: seq<Piece>, b: Code, n: nat, q: seq<Piece>)
    requires Means(a, m, p) && Means(b, n, q)
    ensures Means(Then(a, b), m + n, p + q)
  {
    HolesOfConcat(a.text, b.text);
    if m + n == 0 {
      ReadsThen(a, p, b, q);
    }
  }

  lemma {:induction false} TxtMeans(s: string)
    ensures Means(Txt(s), 0, LitOf(s))
  {
    TxtReads(s);
    assert Reads(Txt(s), LitOf(s));
    assert Balanced(Txt(s));
  }

  lemma {:induction false} BindMeans(v: Value)
    ensures Means(Bind(v), 0, [Bound(v)])
  {
    BindReads(v);
  }

  /** Words around a code: `before c after`. */
  lemma {:induction false} MeansWrapped(before: string, c: Code, n: nat, p: seq<Piece>, after: string)
    requires Means(c, n, p)
    ensures Means(Then(c, Txt(after)), n, p + LitOf(after))
    ensures Means(Then(Txt(before), Then(c, Txt(after))), n, LitOf(before) + (p + LitOf(after)))
    ensures Means(Then(Txt(before), c), n, LitOf(before) + p)
  {
    TxtMeans(before);
    TxtMeans(after);
    MeansThen(c, n, p, Txt(after), 0, LitOf(after));
    MeansThen(Txt(before), 0, LitOf(before), Then(c, Txt(after)), n, p + LitOf(after));
    MeansThen(Txt(before), 0, LitOf(before), c, n, p);
  }

  lemma {:induction false} ConcatMeans(cs: seq<Code>, ns: seq<nat>, ps: seq<seq<Piece>>)
    requires AllMean(cs, ns, ps)
    ensures Means(Concat(cs), Sum(ns), ConcatPieces(ps))
  {
    if cs != [] {
      ConcatMeans(cs[1..], ns[1..], ps[1..]);
      MeansThen(cs[0], ns[0], ps[0], Concat(cs[1..]), Sum(ns[1..]), ConcatPieces(ps[1..]));
    }
  }

  lemma {:induction false} JoinMeans(cs: seq<Code>, ns: seq<nat>, ps: seq<seq<Piece>>, sep: string)
    requires AllMean(cs, ns, ps)
    ensures Means(Join(cs, sep), Sum(ns), JoinPieces(ps, sep))
  {
    if |cs| == 1 {
      assert ns[1..] == [];
    } else if |cs| > 1 {
      JoinMeans(cs[1..], ns[1..], ps[1..], sep);
      MeansWrapped(sep, Join(cs[1..], sep), Sum(ns[1..]), JoinPieces(ps[1..], sep), "");
      MeansThen(cs[0], ns[0], ps[0], Then(Txt(sep), Join(cs[1..], sep)), Sum(ns[1..]), LitOf(sep) + JoinPieces(ps[1..], sep));
    }
  }

  lemma {:induction false} GroupMeans(cs: seq<Code>, ns: seq<nat>, ps: seq<seq<Piece>>, join: BoolOp, not: bool)
    requires AllMean(cs, ns, ps)
    ensures Means(GroupCode(cs, join, not), Sum(ns), GroupPieces(ps, join, not))
  {
    var sep := Separator(join);
    JoinMeans(cs, ns, ps, sep);
    var body, bodyP := Join(cs, sep), JoinPieces(ps, sep);
    MeansWrapped("(", body, Sum(ns), bodyP, ")");
    var inner := if |cs| > 1 then Then(Txt("("), Then(body, Txt(")"))) else body;
    var innerP := if |ps| > 1 then LitOf("(") + (bodyP + LitOf(")")) else bodyP;
    MeansWrapped("NOT ", inner, Sum(ns), innerP, "");
  }

  // ----- text assembled from parts whose arguments were collected separately -----

  lemma {:induction false} WordsMean(text: seq<Token>)
    requires Holes(text) == 0
    ensures Means(Code(text, []), 0, Words(text))
  {
    assert Reads(Code(text, []), Words(text));
  }

  lemma {:induction false} MeansText(before: seq<Token>, c: Code, n: nat, p: seq<Piece>, after: seq<Token>)
    requires Means(c, n, p) && Holes(before) == 0 && Holes(after) == 0
    ensures Means(Code(before + c.text + after, c.args), n, Words(before) + p + Words(after))
  {
    WordsMean(before);
    WordsMean(after);
    MeansThen(Code(before, []), 0, Words(before), c, n, p);
    var front := Then(Code(before, []), c);
    assert front == Code(before + c.text, c.args);
    MeansThen(front, n, Words(before) + p, Code(after, []), 0, Words(after));
    assert Then(front, Code(after, [])) == Code(before + c.text + after, c.args);
  }

  lemma {:induction false} OneWord(s: string)
    ensures Holes([Text(s)]) == 0 && Words([Text(s)]) == [Lit(s)]
  {
    var none: seq<Token> := [];
    assert [Text(s)][1..] == none;
    assert Fill(none, []) == [];
  }

  lemma {:induction false} ColMeans(l: Lookup, c: Code, n: nat, p: seq<Piece>)
    requires Means(c, n, p)
    ensures Means(Code(LookupCol(l, c.text), c.args), n, ColPieces(l, p))
  {
    OneWord("LOWER(");
    OneWord(")");
    MeansText([Text("LOWER(")], c, n, p, [Text(")")]);
    assert c == Code(c.text, c.args);
  }

  /** `op operand` over an operand code. */
  lemma {:induction false} LogicalMeans(op: LogicalOp, c: Code, n: nat, p: seq<Piece>)
    requires Means(c, n, p) && IsComparison(op)
    ensures LogicalRhs(op, c.text, []).Ok?
    ensures Means(Code(LogicalRhs(op, c.text, []).value.text, c.args), n, LogicalPieces(op, p))
  {
    OneWord(OpText(op) + " ");
    MeansText([Text(OpText(op) + " ")], c, n, p, []);
    assert [Text(OpText(op) + " ")] + c.text + [] == [Text(OpText(op) + " ")] + c.text;
    assert [Lit(OpText(op) + " ")] + p + Words([]) == LogicalPieces(op, p);
  }

  lemma {:induction false} OperatorMeans(word: string, v: Value)
    ensures Means(Code([Text(word)] + [Hole], [v]), 0, [Lit(word)] + [Bound(v)])
  {
    OneWord(word);
    BindMeans(v);
    MeansThen(Code([Text(word)], []), 0, [Lit(word)], Bind(v), 0, [Bound(v)]);
    assert Then(Code([Text(word)], []), Bind(v)) == Code([Text(word)] + [Hole], [v]);
  }

  /** `op ?`, or `op ? = ?` with the value bound twice. */
  lemma {:induction false} LogicalValueMeans(op: LogicalOp, v: Value)
    requires LogicalRhs(op, [Hole], [v]).Ok?
    ensures Means(LogicalRhs(op, [Hole], [v]).value, 0, LogicalPieces(op, [Bound(v)]))
  {
    var word := OpText(op) + " ";
    OperatorMeans(word, v);
    OperatorMeans(" = ", v);
    var a, b := Code([Text(word)] + [Hole], [v]), Code([Text(" = ")] + [Hole], [v]);
    var p, q := [Lit(word)] + [Bound(v)], [Lit(" = ")] + [Bound(v)];
    if IsBitwise(op) {
      MeansThen(a, 0, p, b, 0, q);
      assert LogicalRhs(op, [Hole], [v]).value == Then(a, b);
      assert LogicalPieces(op, [Bound(v)]) == p + q;
    } else {
      assert LogicalRhs(op, [Hole], [v]).value == a;
      assert LogicalPieces(op, [Bound(v)]) == p;
    }
  }

  lemma {:induction false} ListMeans(vs: seq<Value>)
    ensures Means(Code(Placeholders(|vs|), vs), 0, ListPieces(vs))
  {
    if |vs| == 1 {
      assert vs == [vs[0]];
      BindMeans(vs[0]);
    } else if |vs| > 1 {
      ListMeans(vs[1..]);
      var head := Code([Hole, Text(", ")], [vs[0]]);
      BindMeans(vs[0]);
      MeansWrapped("", Bind(vs[0]), 0, [Bound(vs[0])], ", ");
      assert Then(Bind(vs[0]), Txt(", ")) == head;
      MeansThen(head, 0, [Bound(vs[0]), Lit(", ")], Code(Placeholders(|vs| - 1), vs[1..]), 0, ListPieces(vs[1..]));
      assert [vs[0]] + vs[1..] == vs;
    }
  }

  /** A left-hand side, a space, and what follows. */
  lemma {:induction false} MeansBeside(a: Code, m: nat, p: seq<Piece>, word: string, b: Code, n: nat, q: seq<Piece>)
    requires Means(a, m, p) && Means(b, n, q)
    ensures Means(Code(a.text + [Text(word)] + b.text, a.args + b.args), m + n, p + [Lit(word)] + q)
  {
    OneWord(word);
    MeansText([], a, m, p, [Text(word)]);
    assert [] + a.text + [Text(word)] == a.text + [Text(word)];
    assert Words([]) + p + Words([Text(word)]) == p + [Lit(word)];
    MeansThen(Code(a.text + [Text(word)], a.args), m, p + [Lit(word)], b, n, q);
  }

  // ----- lookups -----

  /** The code of a lookup, for any argument it accepts. */
  lemma {:induction false} LookupCodeMeans(env: Env, l: Lookup, lhs: Code, m: nat, p: seq<Piece>, args: seq<Arg>, rhs: Rhs, operand: Result<Code>)
    requires Means(lhs, m, p)
    requires ArityOk(l, |args|) && NormalizeArgs(env, l, args) == Ok(rhs)
    requires args != [] && args[0].ArgExpr? && operand.Ok? ==>
               Means(operand.value, LostArg(l, args[0]), InlineArg(env, l, args[0]))
    requires LookupCode(env.driver, l, lhs, rhs, operand).Ok?
    ensures Means(LookupCode(env.driver, l, lhs, rhs, operand).value, m + LostArgs(l, args),
                  LookupPieces(env.driver, l, p, args, InlineOperand(env, l, args)))
  {
    ColMeans(l, lhs, m, p);
    var col, colP := Code(LookupCol(l, lhs.text), lhs.args), ColPieces(l, p);
    var c := LookupCode(env.driver, l, lhs, rhs, operand).value;
    match l
    case Logical(op) =>
      if args[0].ArgValue? {
        var v := args[0].v;
        LogicalValueMeans(op, v);
        var r := LogicalRhs(op, [Hole], [v]).value;
        MeansBeside(col, m, colP, " ", r, 0, LogicalPieces(op, [Bound(v)]));
      } else {
        var inner, k, q := operand.value, LostArg(l, args[0]), InlineArg(env, l, args[0]);
        LogicalMeans(op, inner, k, q);
        var r := LogicalRhs(op, inner.text, []).value;
        MeansBeside(col, m, colP, " ", Code(r.text, inner.args), k, LogicalPieces(op, q));
        assert lhs.args + inner.args + r.args == lhs.args + inner.args;
      }
    case Pattern(_) => PatternMeans(env, l, lhs, m, p, args, rhs, operand);
    case In =>
      OneWord(")");
      if args[0].ArgValue? {
        var vs := Flatten(PlainValues(args));
        ListMeans(vs);
        InListMeans(col, m, colP, Code(Placeholders(|vs|), vs), 0, ListPieces(vs));
      } else {
        InListMeans(col, m, colP, operand.value, LostArg(l, args[0]), InlineArg(env, l, args[0]));
      }
    case IsNull =>
      var word := if rhs.vs[0].b then " IS NULL" else " IS NOT NULL";
      OneWord(word);
      MeansText([], col, m, colP, [Text(word)]);
      assert [] + col.text + [Text(word)] == c.text;
      assert Words([]) + colP + Words([Text(word)]) == colP + [Lit(word)];
  }

  lemma {:induction false} InListMeans(col: Code, m: nat, p: seq<Piece>, list: Code, k: nat, q: seq<Piece>)
    requires Means(col, m, p) && Means(list, k, q)
    ensures Means(Code(col.text + [Text(" IN (")] + list.text + [Text(")")], col.args + list.args), m + k,
                  p + [Lit(" IN (")] + q + [Lit(")")])
  {
    OneWord(")");
    MeansBeside(col, m, p, " IN (", list, k, q);
    var c := Code(col.text + [Text(" IN (")] + list.text, col.args + list.args);
    MeansText([], c, m + k, p + [Lit(" IN (")] + q, [Text(")")]);
    assert [] + c.text + [Text(")")] == c.text + [Text(")")];
    assert Words([]) + (p + [Lit(" IN (")] + q) + Words([Text(")")]) == p + [Lit(" IN (")] + q + [Lit(")")];
  }

  /** `col pre operand post`. */
  lemma {:induction false} AffixMeans(col: Code, m: nat, p: seq<Piece>, pre: string, inner: Code, k: nat, q: seq<Piece>, post: string)
    requires Means(col, m, p) && Means(inner, k, q)
    ensures Means(Code(col.text + [Text(" ")] + Txt(pre).text + inner.text + Txt(post).text, col.args + inner.args),
                  m + k, p + [Lit(" ")] + LitOf(pre) + q + LitOf(post))
  {
    TxtMeans(pre);
    TxtMeans(post);
    MeansText(Txt(pre).text, inner, k, q, Txt(post).text);
    var b := Code(Txt(pre).text + inner.text + Txt(post).text, inner.args);
    var bp := LitOf(pre) + q + LitOf(post);
    MeansBeside(col, m, p, " ", b, k, bp);
    RegroupFour(col.text + [Text(" ")], Txt(pre).text, inner.text, Txt(post).text);
    RegroupFour(p + [Lit(" ")], LitOf(pre), q, LitOf(post));
  }

  lemma {:induction false} PatternMeans(env: Env, l: Lookup, lhs: Code, m: nat, p: seq<Piece>, args: seq<Arg>, rhs: Rhs, operand: Result<Code>)
    requires l.Pattern? && Means(lhs, m, p)
    requires ArityOk(l, |args|) && NormalizeArgs(env, l, args) == Ok(rhs)
    requires args[0].ArgExpr? && operand.Ok? ==>
               Means(operand.value, LostArg(l, args[0]), InlineArg(env, l, args[0]))
    requires LookupCode(env.driver, l, lhs, rhs, operand).Ok?
    ensures Means(LookupCode(env.driver, l, lhs, rhs, operand).value, m + LostArgs(l, args),
                  LookupPieces(env.driver, l, p, args, InlineOperand(env, l, args)))
  {
    ColMeans(l, lhs, m, p);
    var col, colP := Code(LookupCol(l, lhs.text), lhs.args), ColPieces(l, p);
    if args[0].ArgValue? {
      var v := rhs.vs[0];
      var (pre, post) := OperatorAffixes(OperatorRhs(env.driver, l.name));
      BindMeans(v);
      ColMeans(l, Bind(v), 0, [Bound(v)]);
      AffixMeans(col, m, colP, pre, Code(LookupCol(l, [Hole]), [v]), 0, ColPieces(l, [Bound(v)]), post);
    } else {
      var a := PatternOpAffixes(env.driver, l.name).value;
      AffixMeans(col, m, colP, a.0, operand.value, LostArg(l, args[0]), InlineArg(env, l, args[0]), a.1);
    }
  }

  // ----- functions -----

  /** A call whose arguments are joined: COALESCE and CONCAT. */
  lemma {:induction false} CallMeans(open: string, cs: seq<Code>, ns: seq<nat>, ps: seq<seq<Piece>>, sep: string)
    requires AllMean(cs, ns, ps)
    ensures Means(Then(Txt(open), Then(Join(cs, sep), Txt(")"))), Sum(ns), LitOf(open) + (JoinPieces(ps, sep) + LitOf(")")))
  {
    JoinMeans(cs, ns, ps, sep);
    MeansWrapped(open, Join(cs, sep), Sum(ns), JoinPieces(ps, sep), ")");
  }

  lemma {:induction false} FuncMeans(d: Driver, f: FuncName, cs: seq<Code>, ns: seq<nat>, ps: seq<seq<Piece>>,
                  params: seq<Code>, ms: seq<nat>, qs: seq<seq<Piece>>)
    requires AllMean(cs, ns, ps) && AllMean(params, ms, qs)
    requires FuncCode(d, f, cs, params).Ok?
    ensures Means(FuncCode(d, f, cs, params).value, FuncLost(f, Sum(ns), Sum(ms)), FuncPieces(d, f, ps, qs))
  {
    hide Fill, Holes;
    match f
    case NOW =>
      TxtMeans(match d case MySQL => "NOW()" case Postgres => "CURRENT_TIMESTAMP" case SQLite => "DATETIME('now')");
    case COALESCE => CallMeans("COALESCE(", cs, ns, ps, ", ");
    case CONCAT => CallMeans(if d.SQLite? then "(" else "CONCAT(", cs, ns, ps, if d.SQLite? then " || " else ", ");
    case SUBSTR =>
      SumOfOne(ns);
      SumOfTwo(ms);
      SubstrMeans(d, cs, ns[0], ps, params, ms[0], ms[1], qs);
    case _ =>
      SumOfOne(ns);
      MeansWrapped(UnaryName(f), cs[0], ns[0], ps[0], ")");
  }

  lemma {:induction false} SumOfOne(ns: seq<nat>)
    requires |ns| == 1
    ensures Sum(ns) == ns[0]
  {
    assert ns[1..] == [];
  }

  lemma {:induction false} SumOfTwo(ns: seq<nat>)
    requires |ns| == 2
    ensures Sum(ns) == ns[0] + ns[1]
  {
    SumOfOne(ns[1..]);
  }

  lemma {:induction false} SubstrMeans(d: Driver, cs: seq<Code>, n: nat, ps: seq<seq<Piece>>,
                                       params: seq<Code>, i: nat, j: nat, qs: seq<seq<Piece>>)
    requires |cs| == |ps| == 1 && |params| == |qs| == 2
    requires Means(cs[0], n, ps[0]) && Means(params[0], i, qs[0]) && Means(params[1], j, qs[1])
    requires params[0].text != []
    ensures var r := FuncCode(d, SUBSTR, cs, params);
            r.Ok? && Means(r.value, n + i + j, FuncPieces(d, SUBSTR, ps, qs))
  {
    var w := SubstrWords(d);
    if params[1].text == [] {
      SubstrToEndMeans(w.0, cs[0], n, ps[0], w.1, params[0], i, qs[0], params[1], j, qs[1]);
    } else {
      SubstrLengthMeans(w.0, cs[0], n, ps[0], w.1, params[0], i, qs[0], w.2, params[1], j, qs[1]);
      if j == 0 {
        FillLength(params[1].text, params[1].args);
      }
    }
  }

  /** `OPEN text W start`. */
  lemma {:induction false} SubstrStartMeans(open: string, c: Code, n: nat, p: seq<Piece>, w: string, start: Code, i: nat, sp: seq<Piece>)
    requires Means(c, n, p) && Means(start, i, sp)
    ensures Means(Code([Text(open)] + c.text + [Text(w)] + start.text, c.args + start.args), n + i,
                  [Lit(open)] + p + [Lit(w)] + sp)
  {
    OneWord(open);
    MeansThen(Code([Text(open)], []), 0, [Lit(open)], c, n, p);
    var a := Then(Code([Text(open)], []), c);
    assert a == Code([Text(open)] + c.text, c.args);
    MeansBeside(a, n, [Lit(open)] + p, w, start, i, sp);
  }

  lemma {:induction false} CloseMeans(c: Code, n: nat, p: seq<Piece>)
    requires Means(c, n, p)
    ensures Means(Code(c.text + [Text(")")], c.args), n, p + [Lit(")")])
  {
    OneWord(")");
    MeansThen(c, n, p, Code([Text(")")], []), 0, [Lit(")")]);
    assert Then(c, Code([Text(")")], [])) == Code(c.text + [Text(")")], c.args);
  }

  lemma {:induction false} SubstrToEndMeans(open: string, c: Code, n: nat, p: seq<Piece>, w: string,
                                            start: Code, i: nat, sp: seq<Piece>, len: Code, j: nat, lp: seq<Piece>)
    requires Means(c, n, p) && Means(start, i, sp) && Means(len, j, lp) && len.text == []
    ensures Means(Code([Text(open)] + c.text + [Text(w)] + start.text + [Text(")")], c.args + start.args + len.args),
                  n + i + j, [Lit(open)] + p + [Lit(w)] + sp + [Lit(")")])
    ensures j == 0 ==> lp == []
  {
    SubstrStartMeans(open, c, n, p, w, start, i, sp);
    var b := Code([Text(open)] + c.text + [Text(w)] + start.text, c.args + start.args);
    MeansThen(b, n + i, [Lit(open)] + p + [Lit(w)] + sp, len, j, lp);
    assert Then(b, len) == Code(b.text, b.args + len.args);
    CloseMeans(Then(b, len), n + i + j, [Lit(open)] + p + [Lit(w)] + sp + lp);
  }

  lemma {:induction false} SubstrLengthMeans(open: string, c: Code, n: nat, p: seq<Piece>, w: string,
                                             start: Code, i: nat, sp: seq<Piece>, between: string, len: Code, j: nat, lp: seq<Piece>)
    requires Means(c, n, p) && Means(start, i, sp) && Means(len, j, lp)
    ensures Means(Code([Text(open)] + c.text + [Text(w)] + start.text + [Text(between)] + len.text + [Text(")")],
                       c.args + start.args + len.args),
                  n + i + j, [Lit(open)] + p + [Lit(w)] + sp + [Lit(between)] + lp + [Lit(")")])
  {
    SubstrStartMeans(open, c, n, p, w, start, i, sp);
    var b := Code([Text(open)] + c.text + [Text(w)] + start.text, c.args + start.args);
    var bp := [Lit(open)] + p + [Lit(w)] + sp;
    MeansBeside(b, n + i, bp, between, len, j, lp);
    CloseMeans(Code(b.text + [Text(between)] + len.text, b.args + len.args), n + i + j, bp + [Lit(between)] + lp);
  }
}
