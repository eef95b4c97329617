/** Every compiled expression lines up with its arguments, except for the bound values that
    sit in two identifiable places. */
module Placeholders {
  import opened Outcomes
  import opened SqlText
  import opened LikePattern
  import opened Expressions
  import opened ExpressionMeaning

  /** If `r` renders, its code has `n` arguments too many and reads `ps` when there are none. */
  predicate Renders(d: Driver, r: Resolved, n: nat, ps: seq<Piece>) {
    Sql(d, r).Ok? ==> Means(Sql(d, r).value, n, ps)
  }

  predicate AllRender(d: Driver, rs: seq<Resolved>, ns: seq<nat>, ps: seq<seq<Piece>>) {
    SqlAll(d, rs).Ok? ==> AllMean(SqlAll(d, rs).value, ns, ps)
  }

  // ----- cloning -----

  /** A second clone loses nothing more. */
  lemma {:induction false} CloneTwice(r: Resolved)
    ensures Clone(Clone(r)) == Clone(r)
    decreases r, 1
  {
    match r
    case RNamed(_, inner) => CloneTwice(inner);
    case RChain(_, _, parts) => CloneAllTwice(parts);
    case RGroup(children, _, _) => CloneAllTwice(children);
    case RCase(arms, dflt) =>
      CloneAllTwice(arms);
      if dflt.Some? { CloneTwice(dflt.value); }
    case RWhen(lhs, rhs, thn, _) =>
      CloneTwice(lhs);
      CloneTwice(thn);
      if rhs.Some? { CloneTwice(rhs.value); }
    case RFunc(_, inner, _) => CloneAllTwice(inner);
    case RVerbatim(_) =>
    case RVal(_, _) =>
    case RField(_) =>
    case RLookup(_, _, _, _) =>
    case RRaw(_) =>
  }

  lemma {:induction false} CloneAllTwice(rs: seq<Resolved>)
    ensures CloneAll(CloneAll(rs)) == CloneAll(rs)
    decreases rs, 0
  {
    if rs != [] {
      CloneTwice(rs[0]);
      CloneAllTwice(rs[1..]);
      assert CloneAll(rs)[1..] == CloneAll(rs[1..]);
    }
  }

  /** Applying transforms wraps the clone, whatever the number of transforms. */
  lemma {:induction false} TransformsRender(d: Driver, transforms: seq<string>, lhs: Resolved, n: nat, p: seq<Piece>)
    requires transforms != [] && ApplyTransforms(transforms, lhs).Ok?
    requires Renders(d, Clone(lhs), n, p)
    ensures Renders(d, ApplyTransforms(transforms, lhs).value, n, TransformPieces(transforms, p))
  {
    var f := TransformNamed(transforms[0]).value;
    var wrapped := RFunc(f, [Clone(lhs)], []);
    var q := LitOf(UnaryName(f)) + (p + LitOf(")"));
    WrapRenders(d, f, Clone(lhs), n, p);
    CloneTwice(lhs);
    assert CloneAll([Clone(lhs)]) == [Clone(Clone(lhs))];
    assert Clone(wrapped) == wrapped;
    if transforms[1..] != [] {
      TransformsRender(d, transforms[1..], wrapped, n, q);
    }
  }

  lemma {:induction false} WrapRenders(d: Driver, f: FuncName, x: Resolved, n: nat, p: seq<Piece>)
    requires f.LOWER? || f.UPPER? || f.LENGTH? || f.COUNT? || f.AVG? || f.SUM? || f.MIN? || f.MAX?
    requires Renders(d, x, n, p)
    ensures Renders(d, RFunc(f, [x], []), n, LitOf(UnaryName(f)) + (p + LitOf(")")))
  {
    if Sql(d, RFunc(f, [x], [])).Ok? {
      assert SqlAll(d, [x]).Ok?;
      assert [x][1..] == [];
      var c := Sql(d, x).value;
      assert SqlAll(d, [x]).value == [c];
      MeansWrapped(UnaryName(f), c, n, p, ")");
    }
  }

  // ----- expressions nobody resolved -----

  lemma {:induction false} BareMeans(e: Expr)
    requires BareSql(e).Ok?
    ensures Means(BareSql(e).value, LostBare(e), InlineBare(e))
    decreases e, 1
  {
    match e
    case Verbatim(s) => TxtMeans(s);
    case Op(op) => TxtMeans(" " + OpText(op) + " ");
    case Val(v, inline) => if inline { TxtMeans(GoText(v)); }
    case Named(_, inner) => BareMeans(inner);
    case Chain(_, parts) =>
      BareAllMean(parts);
      ConcatMeans(BareSqlAll(parts).value, LostBareAll(parts), InlineBareAll(parts));
    case Group(children, op, not) =>
      BareAllMean(children);
      GroupMeans(BareSqlAll(children).value, LostBareAll(children), InlineBareAll(children), op, not);
    case Raw(_, _) =>
  }

  lemma {:induction false} BareAllMean(es: seq<Expr>)
    requires BareSqlAll(es).Ok?
    ensures AllMean(BareSqlAll(es).value, LostBareAll(es), InlineBareAll(es))
    decreases es, 0
  {
    if es != [] {
      BareMeans(es[0]);
      BareAllMean(es[1..]);
    }
  }

  // ----- the induction over source trees -----

  /** What resolving `e` gives renders as `e` reads, both as it is and after a clone. */
  predicate Faithful(env: Env, e: Expr, r: Resolved) {
    && Renders(env.driver, r, Lost(e), Inline(env, e))
    && Renders(env.driver, Clone(r), LostByClone(e), Inline(env, e))
  }

  predicate AllFaithful(env: Env, es: seq<Expr>, rs: seq<Resolved>) {
    && AllRender(env.driver, rs, LostAll(es), InlineAll(env, es))
    && AllRender(env.driver, CloneAll(rs), LostByCloneAll(es), InlineAll(env, es))
  }

  lemma {:induction false} ResolveFaithful(env: Env, e: Expr)
    requires Resolve(env, e).Ok?
    ensures Faithful(env, e, Resolve(env, e).value)
    decreases e, 1
  {
    hide Sql, Clone, Fill, Holes;
    match e
    case Verbatim(_) => LeafFaithful(env, e);
    case Op(_) => LeafFaithful(env, e);
    case Val(v, inline) => ValFaithful(env, v, inline);
    case Field(_) => LeafFaithful(env, e);
    case Named(name, inner) =>
      ResolveFaithful(env.(forUpdate := false), inner);
      NamedFaithful(env, name, inner);
    case Chain(fieldName, parts) =>
      ResolveAllFaithful(env, parts);
      ChainFaithful(env, fieldName, parts);
    case Node(not, field, lookup, args) =>
      ResolveFaithful(env, field);
      var l := LookupNamed(SplitLookup(lookup).1).value;
      if args != [] {
        ArgFaithful(env, l, args[0]);
      }
      OperandMeans(env, l, args);
      NodeFaithful(env, not, field, lookup, args, l);
    case Group(children, op, not) =>
      ResolveAllFaithful(env, children);
      GroupFaithful(env, children, ResolveAll(env, children).value, op, not);
    case Case(arms, dflt) =>
      ResolveAllFaithful(env, arms);
      if dflt.Some? { ResolveFaithful(env, dflt.value); }
      CaseFaithful(env, arms, dflt);
    case When(lhs, rhs, thn) =>
      ResolveFaithful(env, lhs);
      ResolveFaithful(env, thn);
      if rhs.Some? { ResolveFaithful(env, rhs.value); }
      WhenFaithful(env, lhs, rhs, thn);
    case Func(name, inner, params) =>
      ResolveAllFaithful(env, inner);
      ResolveAllFaithful(env, params);
      FuncFaithful(env, name, inner, params);
    case Raw(_, _) => LeafFaithful(env, e);
  }

  lemma {:induction false} LeafFaithful(env: Env, e: Expr)
    requires Resolve(env, e).Ok? && (e.Verbatim? || e.Op? || e.Field? || e.Raw?)
    ensures Faithful(env, e, Resolve(env, e).value)
  {
    match e
    case Verbatim(s) => TxtMeans(s);
    case Op(op) => TxtMeans(" " + OpText(op) + " ");
    case _ =>
  }

  lemma {:induction false} ResolveAllFaithful(env: Env, es: seq<Expr>)
    requires ResolveAll(env, es).Ok?
    ensures AllFaithful(env, es, ResolveAll(env, es).value)
    decreases es, 0
  {
    if es != [] {
      ResolveFaithful(env, es[0]);
      ResolveAllFaithful(env, es[1..]);
      var d, r, rs := env.driver, Resolve(env, es[0]).value, ResolveAll(env, es[1..]).value;
      var p, ps := Inline(env, es[0]), InlineAll(env, es[1..]);
      ConsRenders(d, r, rs, Lost(es[0]), LostAll(es[1..]), p, ps);
      ConsRenders(d, Clone(r), CloneAll(rs), LostByClone(es[0]), LostByCloneAll(es[1..]), p, ps);
      CloneCons(r, rs);
      assert ResolveAll(env, es).value == [r] + rs;
    }
  }

  lemma {:induction false} ConsRenders(d: Driver, r: Resolved, rs: seq<Resolved>, n: nat, ns: seq<nat>, p: seq<Piece>, ps: seq<seq<Piece>>)
    requires Renders(d, r, n, p) && AllRender(d, rs, ns, ps)
    ensures AllRender(d, [r] + rs, [n] + ns, [p] + ps)
  {
    assert ([r] + rs)[1..] == rs;
  }

  lemma {:induction false} CloneCons(r: Resolved, rs: seq<Resolved>)
    ensures CloneAll([r] + rs) == [Clone(r)] + CloneAll(rs)
  {
    assert ([r] + rs)[1..] == rs;
  }

  /** The operand of a lookup, resolved or not. */
  lemma {:induction false} ArgFaithful(env: Env, l: Lookup, a: Arg)
    ensures a.ArgExpr? && l.In? && BareSql(a.e).Ok? ==> Means(BareSql(a.e).value, LostArg(l, a), InlineArg(env, l, a))
    ensures a.ArgExpr? && !l.In? && !l.IsNull? && Resolve(env, a.e).Ok? ==>
              Renders(env.driver, Resolve(env, a.e).value, LostArg(l, a), InlineArg(env, l, a))
    decreases a, 0
  {
    if a.ArgExpr? {
      if l.In? {
        if BareSql(a.e).Ok? { BareMeans(a.e); }
      } else if Resolve(env, a.e).Ok? {
        ResolveFaithful(env, a.e);
      }
    }
  }

  lemma {:induction false} ValFaithful(env: Env, v: Value, inline: bool)
    requires Resolve(env, Val(v, inline)).Ok?
    ensures Faithful(env, Val(v, inline), Resolve(env, Val(v, inline)).value)
  {
    if inline {
      TxtMeans(InlineText(v).value);
    } else if Cast(env.driver, v).Ok? {
      BindMeans(v);
      TxtMeans(Cast(env.driver, v).value);
      MeansThen(Bind(v), 0, [Bound(v)], Txt(Cast(env.driver, v).value), 0, LitOf(Cast(env.driver, v).value));
    }
  }

  lemma {:induction false} NamedFaithful(env: Env, name: string, inner: Expr)
    requires Resolve(env, Named(name, inner)).Ok?
    requires Faithful(env.(forUpdate := false), inner, Resolve(env.(forUpdate := false), inner).value)
    ensures Faithful(env, Named(name, inner), Resolve(env, Named(name, inner)).value)
  {
    var r := Resolve(env.(forUpdate := false), inner).value;
    var p := Inline(env.(forUpdate := false), inner);
    if env.forUpdate {
      var text := NamedTarget(env, name).value.value;
      AssignRenders(env.driver, text, r, Lost(inner), p);
      AssignRenders(env.driver, text, Clone(r), LostByClone(inner), p);
    }
  }

  lemma {:induction false} AssignRenders(d: Driver, text: Plain, r: Resolved, n: nat, p: seq<Piece>)
    requires Renders(d, r, n, p)
    ensures Renders(d, RNamed(Some(text), r), n, Words(text) + (LitOf(" = ") + p))
  {
    if Sql(d, r).Ok? {
      AssignMeans(text, Sql(d, r).value, n, p);
    }
  }

  lemma {:induction false} AssignMeans(text: Plain, c: Code, n: nat, p: seq<Piece>)
    requires Means(c, n, p)
    ensures Means(Then(Code(text, []), Then(Txt(" = "), c)), n, Words(text) + (LitOf(" = ") + p))
  {
    MeansWrapped(" = ", c, n, p, "");
    MeansThen(Code(text, []), 0, Words(text), Then(Txt(" = "), c), n, LitOf(" = ") + p);
  }

  lemma {:induction false} ChainFaithful(env: Env, fieldName: string, parts: seq<Expr>)
    requires Resolve(env, Chain(fieldName, parts)).Ok?
    requires AllFaithful(env, parts, ResolveAll(env, parts).value)
    ensures Faithful(env, Chain(fieldName, parts), Resolve(env, Chain(fieldName, parts)).value)
  {
    var rs := ResolveAll(env, parts).value;
    var field := ChainField(env, fieldName).value;
    var ps := InlineAll(env, parts);
    ChainRenders(env.driver, field, env.forUpdate, rs, LostAll(parts), ps);
    ChainRenders(env.driver, field, env.forUpdate, CloneAll(rs), LostByCloneAll(parts), ps);
    ChainReads(env, fieldName, parts, field);
    assert Resolve(env, Chain(fieldName, parts)).value == RChain(field, env.forUpdate, rs);
  }

  function ChainPieces(field: Option<Aligned>, forUpdate: bool, ps: seq<seq<Piece>>): seq<Piece> {
    match field
    case None => ConcatPieces(ps)
    case Some(f) => Fill(f.text, f.args) + (LitOf(if forUpdate && f.text != [] then " = " else "") + ConcatPieces(ps))
  }

  lemma {:induction false} ChainReads(env: Env, fieldName: string, parts: seq<Expr>, field: Option<Aligned>)
    requires ChainField(env, fieldName) == Ok(field)
    ensures Inline(env, Chain(fieldName, parts)) == ChainPieces(field, env.forUpdate, InlineAll(env, parts))
  {
    if field.Some? {
      FillLength(field.value.text, field.value.args);
    }
  }

  lemma {:induction false} ChainRenders(d: Driver, field: Option<Aligned>, forUpdate: bool, rs: seq<Resolved>, ns: seq<nat>, ps: seq<seq<Piece>>)
    requires AllRender(d, rs, ns, ps)
    ensures Renders(d, RChain(field, forUpdate, rs), Sum(ns), ChainPieces(field, forUpdate, ps))
  {
    if rs != [] && SqlAll(d, rs).Ok? {
      var cs := SqlAll(d, rs).value;
      ConcatMeans(cs, ns, ps);
      if field.Some? {
        var f := field.value;
        var eq := if forUpdate && f.text != [] then " = " else "";
        MeansWrapped(eq, Concat(cs), Sum(ns), ConcatPieces(ps), "");
        MeansThen(f, 0, Fill(f.text, f.args), Then(Txt(eq), Concat(cs)), Sum(ns), LitOf(eq) + ConcatPieces(ps));
      }
    }
  }

  lemma {:induction false} GroupFaithful(env: Env, children: seq<Expr>, rs: seq<Resolved>, op: BoolOp, not: bool)
    requires AllFaithful(env, children, rs)
    ensures Faithful(env, Group(children, op, not), RGroup(rs, op, not))
  {
    var ps := InlineAll(env, children);
    GroupRenders(env.driver, rs, LostAll(children), ps, op, not);
    GroupRenders(env.driver, CloneAll(rs), LostByCloneAll(children), ps, op, not);
  }

  lemma {:induction false} GroupRenders(d: Driver, rs: seq<Resolved>, ns: seq<nat>, ps: seq<seq<Piece>>, op: BoolOp, not: bool)
    requires AllRender(d, rs, ns, ps)
    ensures Renders(d, RGroup(rs, op, not), Sum(ns), GroupPieces(ps, op, not))
  {
    if SqlAll(d, rs).Ok? {
      GroupMeans(SqlAll(d, rs).value, ns, ps, op, not);
    }
  }

  lemma {:induction false} CaseFaithful(env: Env, arms: seq<Expr>, dflt: Option<Expr>)
    requires Resolve(env, Case(arms, dflt)).Ok?
    requires AllFaithful(env, arms, ResolveAll(env, arms).value)
    requires dflt.Some? ==> Faithful(env, dflt.value, Resolve(env, dflt.value).value)
    ensures Faithful(env, Case(arms, dflt), Resolve(env, Case(arms, dflt)).value)
  {
    if dflt == None {
      CaseWithoutElse(env, arms, ResolveAll(env, arms).value);
    } else {
      CaseWithElse(env, arms, ResolveAll(env, arms).value, dflt.value, Resolve(env, dflt.value).value);
    }
  }

  lemma {:induction false} CaseWithoutElse(env: Env, arms: seq<Expr>, rs: seq<Resolved>)
    requires AllFaithful(env, arms, rs)
    ensures Faithful(env, Case(arms, None), RCase(rs, None))
  {
    var ps := InlineAll(env, arms);
    CaseRenders(env.driver, rs, LostAll(arms), ps, None, 0, []);
    CaseRenders(env.driver, CloneAll(rs), LostByCloneAll(arms), ps, None, 0, []);
  }

  lemma {:induction false} CaseWithElse(env: Env, arms: seq<Expr>, rs: seq<Resolved>, x: Expr, r: Resolved)
    requires AllFaithful(env, arms, rs) && Faithful(env, x, r)
    ensures Faithful(env, Case(arms, Some(x)), RCase(rs, Some(r)))
  {
    CaseElseRenders(env, arms, rs, x, r);
    CaseElseCloneRenders(env, arms, rs, x, r);
    assert Clone(RCase(rs, Some(r))) == RCase(CloneAll(rs), Some(Clone(r)));
  }

  lemma {:induction false} CaseElseRenders(env: Env, arms: seq<Expr>, rs: seq<Resolved>, x: Expr, r: Resolved)
    requires AllFaithful(env, arms, rs) && Faithful(env, x, r)
    ensures Renders(env.driver, RCase(rs, Some(r)), Lost(Case(arms, Some(x))), Inline(env, Case(arms, Some(x))))
  {
    CaseRenders(env.driver, rs, LostAll(arms), InlineAll(env, arms), Some(r), Lost(x), Inline(env, x));
  }

  lemma {:induction false} CaseElseCloneRenders(env: Env, arms: seq<Expr>, rs: seq<Resolved>, x: Expr, r: Resolved)
    requires AllFaithful(env, arms, rs) && Faithful(env, x, r)
    ensures Renders(env.driver, RCase(CloneAll(rs), Some(Clone(r))), LostByClone(Case(arms, Some(x))), Inline(env, Case(arms, Some(x))))
  {
    var crs, cr := CloneAll(rs), Clone(r);
    CaseRenders(env.driver, crs, LostByCloneAll(arms), InlineAll(env, arms), Some(cr), LostByClone(x), Inline(env, x));
  }

  lemma {:induction false} CaseRenders(d: Driver, rs: seq<Resolved>, ns: seq<nat>, ps: seq<seq<Piece>>, dflt: Option<Resolved>, k: nat, q: seq<Piece>)
    requires AllRender(d, rs, ns, ps)
    requires dflt.Some? ==> Renders(d, dflt.value, k, q)
    ensures Renders(d, RCase(rs, dflt), Sum(ns) + (if dflt.Some? then k else 0),
                    if dflt.Some? then ((LitOf("CASE ") + JoinPieces(ps, " ")) + (LitOf(" ELSE ") + q)) + LitOf(" END")
                    else (LitOf("CASE ") + JoinPieces(ps, " ")) + LitOf(" END"))
  {
    if Sql(d, RCase(rs, dflt)).Ok? {
      var cs := SqlAll(d, rs).value;
      JoinMeans(cs, ns, ps, " ");
      MeansWrapped("CASE ", Join(cs, " "), Sum(ns), JoinPieces(ps, " "), "");
      var head, headP := Then(Txt("CASE "), Join(cs, " ")), LitOf("CASE ") + JoinPieces(ps, " ");
      if dflt.Some? {
        var c := Sql(d, dflt.value).value;
        MeansWrapped(" ELSE ", c, k, q, "");
        MeansThen(head, Sum(ns), headP, Then(Txt(" ELSE "), c), k, LitOf(" ELSE ") + q);
        MeansWrapped("", Then(head, Then(Txt(" ELSE "), c)), Sum(ns) + k, headP + (LitOf(" ELSE ") + q), " END");
      } else {
        MeansWrapped("", head, Sum(ns), headP, " END");
      }
    }
  }

  lemma {:induction false} WhenFaithful(env: Env, lhs: Expr, rhs: Option<Expr>, thn: Expr)
    requires Resolve(env, When(lhs, rhs, thn)).Ok?
    requires Faithful(env, lhs, Resolve(env, lhs).value) && Faithful(env, thn, Resolve(env, thn).value)
    requires rhs.Some? ==> Faithful(env, rhs.value, Resolve(env, rhs.value).value)
    ensures Faithful(env, When(lhs, rhs, thn), Resolve(env, When(lhs, rhs, thn)).value)
  {
    hide Faithful, Inline, Lost;
    var l, t := Resolve(env, lhs).value, Resolve(env, thn).value;
    if rhs == None {
      PlainArm(env, lhs, l, thn, t);
    } else {
      ComparedArm(env, lhs, l, rhs.value, Resolve(env, rhs.value).value, thn, t);
    }
  }

  lemma {:induction false} PlainArm(env: Env, lhs: Expr, l: Resolved, thn: Expr, t: Resolved)
    requires Faithful(env, lhs, l) && Faithful(env, thn, t)
    ensures Faithful(env, When(lhs, None, thn), RWhen(l, None, t, true))
  {
    PlainArmRenders(env, lhs, l, thn, t);
    PlainArmCloneRenders(env, lhs, l, thn, t);
    assert Clone(RWhen(l, None, t, true)) == RWhen(Clone(l), None, Clone(t), false);
  }

  lemma {:induction false} WhenReads(env: Env, lhs: Expr, rhs: Option<Expr>, thn: Expr)
    ensures Lost(When(lhs, rhs, thn)) == Lost(lhs) + (if rhs.Some? then Lost(rhs.value) else 0) + Lost(thn)
    ensures Inline(env, When(lhs, rhs, thn))
         == (if rhs.Some? then [Lit("WHEN ")] + Inline(env, lhs) + [Lit(" ")] + LogicalPieces(EQ, Inline(env, rhs.value))
             else LitOf("WHEN ") + Inline(env, lhs))
            + (LitOf(" THEN ") + Inline(env, thn))
  {
    hide LogicalPieces, LitOf;
  }

  lemma {:induction false} PlainArmRenders(env: Env, lhs: Expr, l: Resolved, thn: Expr, t: Resolved)
    requires Faithful(env, lhs, l) && Faithful(env, thn, t)
    ensures Renders(env.driver, RWhen(l, None, t, true), Lost(When(lhs, None, thn)), Inline(env, When(lhs, None, thn)))
  {
    hide Sql, Clone, Renders, LostByClone, Lost, Inline, LogicalPieces, LitOf;
    WhenReads(env, lhs, None, thn);
    WhenRenders(env.driver, l, Lost(lhs), Inline(env, lhs), None, 0, [], t, Lost(thn), Inline(env, thn), true);
  }

  lemma {:induction false} PlainArmCloneRenders(env: Env, lhs: Expr, l: Resolved, thn: Expr, t: Resolved)
    requires Faithful(env, lhs, l) && Faithful(env, thn, t)
    ensures Renders(env.driver, RWhen(Clone(l), None, Clone(t), false), LostByClone(When(lhs, None, thn)),
                    Inline(env, When(lhs, None, thn)))
  {
    hide Sql, Clone;
    var cl, ct := Clone(l), Clone(t);
    var i, k := LostByClone(lhs), LostByClone(thn);
    assert LostByClone(When(lhs, None, thn)) == i + 0 + k;
    WhenRenders(env.driver, cl, i, Inline(env, lhs), None, 0, [], ct, k, Inline(env, thn), false);
  }

  lemma {:induction false} ComparedArm(env: Env, lhs: Expr, l: Resolved, rhs: Expr, x: Resolved, thn: Expr, t: Resolved)
    requires Faithful(env, lhs, l) && Faithful(env, rhs, x) && Faithful(env, thn, t)
    ensures Faithful(env, When(lhs, Some(rhs), thn), RWhen(l, Some(x), t, true))
  {
    ComparedArmRenders(env, lhs, l, rhs, x, thn, t);
    ComparedArmCloneRenders(env, lhs, l, rhs, x, thn, t);
    assert Clone(RWhen(l, Some(x), t, true)) == RWhen(Clone(l), Some(Clone(x)), Clone(t), false);
  }

  lemma {:induction false} ComparedArmRenders(env: Env, lhs: Expr, l: Resolved, rhs: Expr, x: Resolved, thn: Expr, t: Resolved)
    requires Faithful(env, lhs, l) && Faithful(env, rhs, x) && Faithful(env, thn, t)
    ensures Renders(env.driver, RWhen(l, Some(x), t, true), Lost(When(lhs, Some(rhs), thn)),
                    Inline(env, When(lhs, Some(rhs), thn)))
  {
    hide Sql, Clone, Renders, LostByClone, Lost, Inline, LogicalPieces, LitOf;
    WhenReads(env, lhs, Some(rhs), thn);
    WhenRenders(env.driver, l, Lost(lhs), Inline(env, lhs), Some(x), Lost(rhs), Inline(env, rhs),
                t, Lost(thn), Inline(env, thn), true);
  }

  lemma {:induction false} ComparedArmCloneRenders(env: Env, lhs: Expr, l: Resolved, rhs: Expr, x: Resolved, thn: Expr, t: Resolved)
    requires Faithful(env, lhs, l) && Faithful(env, rhs, x) && Faithful(env, thn, t)
    ensures Renders(env.driver, RWhen(Clone(l), Some(Clone(x)), Clone(t), false), LostByClone(When(lhs, Some(rhs), thn)),
                    Inline(env, When(lhs, Some(rhs), thn)))
  {
    hide Sql, Clone;
    WhenRenders(env.driver, Clone(l), LostByClone(lhs), Inline(env, lhs), Some(Clone(x)), LostByClone(rhs), Inline(env, rhs),
                Clone(t), LostByClone(thn), Inline(env, thn), false);
  }

  lemma {:induction false} WhenRenders(d: Driver, l: Resolved, i: nat, lp: seq<Piece>, rhs: Option<Resolved>, j: nat, rp: seq<Piece>,
                    t: Resolved, k: nat, tp: seq<Piece>, hasInfo: bool)
    requires Renders(d, l, i, lp) && Renders(d, t, k, tp)
    requires rhs.Some? ==> Renders(d, rhs.value, j, rp)
    ensures Renders(d, RWhen(l, rhs, t, hasInfo), i + (if rhs.Some? then j else 0) + k,
                    (if rhs.Some? then [Lit("WHEN ")] + lp + [Lit(" ")] + LogicalPieces(EQ, rp) else LitOf("WHEN ") + lp)
                    + (LitOf(" THEN ") + tp))
  {
    hide Fill, Holes, Resolve, Inline, Lost, LostByClone;
    if Sql(d, RWhen(l, rhs, t, hasInfo)).Ok? {
      var lc, tc := Sql(d, l).value, Sql(d, t).value;
      MeansWrapped("WHEN ", lc, i, lp, "");
      MeansWrapped(" THEN ", tc, k, tp, "");
      var tail, tailP := Then(Txt(" THEN "), tc), LitOf(" THEN ") + tp;
      if rhs.Some? {
        var xc := Sql(d, rhs.value).value;
        LogicalMeans(EQ, xc, j, rp);
        var op := LogicalRhs(EQ, xc.text, []).value;
        MeansBeside(Then(Txt("WHEN "), lc), i, LitOf("WHEN ") + lp, " ", Code(op.text, xc.args), j, LogicalPieces(EQ, rp));
        var head := Code([Text("WHEN ")] + lc.text + [Text(" ")] + op.text, lc.args + xc.args);
        assert Then(Txt("WHEN "), lc) == Code([Text("WHEN ")] + lc.text, lc.args);
        MeansThen(head, i + j, [Lit("WHEN ")] + lp + [Lit(" ")] + LogicalPieces(EQ, rp), tail, k, tailP);
      } else {
        MeansThen(Then(Txt("WHEN "), lc), i, LitOf("WHEN ") + lp, tail, k, tailP);
      }
    }
  }

  lemma {:induction false} FuncFaithful(env: Env, f: FuncName, inner: seq<Expr>, params: seq<Expr>)
    requires Resolve(env, Func(f, inner, params)).Ok?
    requires AllFaithful(env, inner, ResolveAll(env, inner).value)
    requires AllFaithful(env, params, ResolveAll(env, params).value)
    ensures Faithful(env, Func(f, inner, params), Resolve(env, Func(f, inner, params)).value)
  {
    var rs, qs := ResolveAll(env, inner).value, ResolveAll(env, params).value;
    var ps, ts := InlineAll(env, inner), InlineAll(env, params);
    FuncRenders(env.driver, f, rs, LostAll(inner), ps, qs, LostAll(params), ts);
    FuncRenders(env.driver, f, CloneAll(rs), LostByCloneAll(inner), ps, qs, LostAll(params), ts);
  }

  lemma {:induction false} FuncRenders(d: Driver, f: FuncName, rs: seq<Resolved>, ns: seq<nat>, ps: seq<seq<Piece>>,
                                       qs: seq<Resolved>, ms: seq<nat>, ts: seq<seq<Piece>>)
    requires AllRender(d, rs, ns, ps) && AllRender(d, qs, ms, ts)
    ensures Renders(d, RFunc(f, rs, qs), FuncLost(f, Sum(ns), Sum(ms)), FuncPieces(d, f, ps, ts))
  {
    if Sql(d, RFunc(f, rs, qs)).Ok? {
      FuncMeans(d, f, SqlAll(d, rs).value, ns, ps, SqlAll(d, qs).value, ms, ts);
    }
  }

  /** A resolved lookup is its own clone. */
  lemma {:induction false} NodeFaithful(env: Env, not: bool, field: Expr, lookup: seq<string>, args: seq<Arg>, l: Lookup)
    requires Resolve(env, Node(not, field, lookup, args)).Ok?
    requires Resolve(env, field).Ok? && Faithful(env, field, Resolve(env, field).value)
    requires LookupNamed(SplitLookup(lookup).1) == Some(l)
    requires ArityOk(l, |args|) && NormalizeArgs(env, l, args).Ok?
    requires OperandReads(env, l, args, OperandSql(env.driver, NormalizeArgs(env, l, args).value))
    ensures Faithful(env, Node(not, field, lookup, args), Resolve(env, Node(not, field, lookup, args)).value)
  {
    hide Sql, Renders, NormalizeArgs, ApplyTransforms, LookupNamed, OperandReads, ArityOk, Inline;
    var e := Node(not, field, lookup, args);
    var lhs := Resolve(env, field).value;
    var tl := ApplyTransforms(SplitLookup(lookup).0, lhs).value;
    var r := RLookup(not, l, tl, NormalizeArgs(env, l, args).value);
    NodeRenders(env, not, field, lookup, args, l, lhs);
    assert Resolve(env, e).value == r;
    assert Clone(r) == r && LostByClone(e) == Lost(e);
  }

  lemma {:induction false} NodeRenders(env: Env, not: bool, field: Expr, lookup: seq<string>, args: seq<Arg>, l: Lookup, lhs: Resolved)
    requires Faithful(env, field, lhs)
    requires LookupNamed(SplitLookup(lookup).1) == Some(l)
    requires ArityOk(l, |args|) && NormalizeArgs(env, l, args).Ok?
    requires ApplyTransforms(SplitLookup(lookup).0, lhs).Ok?
    requires OperandReads(env, l, args, OperandSql(env.driver, NormalizeArgs(env, l, args).value))
    ensures Renders(env.driver,
                    RLookup(not, l, ApplyTransforms(SplitLookup(lookup).0, lhs).value, NormalizeArgs(env, l, args).value),
                    Lost(Node(not, field, lookup, args)), Inline(env, Node(not, field, lookup, args)))
  {
    var transforms := SplitLookup(lookup).0;
    TransformedRenders(env, field, lhs, transforms);
    var tl := ApplyTransforms(transforms, lhs).value;
    var n := if transforms != [] then LostByClone(field) else Lost(field);
    LookupRenders(env, not, l, tl, n, TransformPieces(transforms, Inline(env, field)), args);
    NodeReads(env, not, field, lookup, args, l);
  }

  lemma {:induction false} NodeReads(env: Env, not: bool, field: Expr, lookup: seq<string>, args: seq<Arg>, l: Lookup)
    requires LookupNamed(SplitLookup(lookup).1) == Some(l) && ArityOk(l, |args|)
    ensures var e := Node(not, field, lookup, args);
            var transforms := SplitLookup(lookup).0;
            && Lost(e) == (if transforms != [] then LostByClone(field) else Lost(field)) + LostArgs(l, args)
            && Inline(env, e)
               == NotPieces(not, LookupPieces(env.driver, l, TransformPieces(transforms, Inline(env, field)), args,
                                              InlineOperand(env, l, args)))
  {
  }

  lemma {:induction false} TransformedRenders(env: Env, field: Expr, lhs: Resolved, transforms: seq<string>)
    requires Faithful(env, field, lhs) && ApplyTransforms(transforms, lhs).Ok?
    ensures Renders(env.driver, ApplyTransforms(transforms, lhs).value,
                    if transforms != [] then LostByClone(field) else Lost(field),
                    TransformPieces(transforms, Inline(env, field)))
  {
    if transforms != [] {
      TransformsRender(env.driver, transforms, lhs, LostByClone(field), Inline(env, field));
    }
  }

  /** The operand's own code, when the lookup was given an expression. */
  predicate OperandReads(env: Env, l: Lookup, args: seq<Arg>, operand: Result<Code>) {
    args != [] && args[0].ArgExpr? && operand.Ok? ==>
      Means(operand.value, LostArg(l, args[0]), InlineArg(env, l, args[0]))
  }

  lemma {:induction false} OperandMeans(env: Env, l: Lookup, args: seq<Arg>)
    requires ArityOk(l, |args|) && NormalizeArgs(env, l, args).Ok?
    requires args != [] && args[0].ArgExpr? && l.In? && BareSql(args[0].e).Ok? ==>
               Means(BareSql(args[0].e).value, LostArg(l, args[0]), InlineArg(env, l, args[0]))
    requires args != [] && args[0].ArgExpr? && !l.In? && !l.IsNull? && Resolve(env, args[0].e).Ok? ==>
               Renders(env.driver, Resolve(env, args[0].e).value, LostArg(l, args[0]), InlineArg(env, l, args[0]))
    ensures OperandReads(env, l, args, OperandSql(env.driver, NormalizeArgs(env, l, args).value))
  {
    var rhs := NormalizeArgs(env, l, args).value;
    if args != [] && args[0].ArgExpr? {
      match l
      case Logical(_) => assert rhs == RhsExpr(Resolve(env, args[0].e).value);
      case Pattern(_) => assert rhs == RhsExpr(Resolve(env, args[0].e).value);
      case In => assert rhs == Unresolved(args[0].e);
      case IsNull => assert rhs.Values?;
    }
  }

  lemma {:induction false} LookupRenders(env: Env, not: bool, l: Lookup, tl: Resolved, n: nat, p: seq<Piece>, args: seq<Arg>)
    requires ArityOk(l, |args|) && NormalizeArgs(env, l, args).Ok?
    requires Renders(env.driver, tl, n, p)
    requires OperandReads(env, l, args, OperandSql(env.driver, NormalizeArgs(env, l, args).value))
    ensures Renders(env.driver, RLookup(not, l, tl, NormalizeArgs(env, l, args).value), n + LostArgs(l, args),
                    NotPieces(not, LookupPieces(env.driver, l, p, args, InlineOperand(env, l, args))))
  {
    var d, rhs := env.driver, NormalizeArgs(env, l, args).value;
    var operand := OperandSql(d, rhs);
    if Sql(d, RLookup(not, l, tl, rhs)).Ok? {
      LookupCodeMeans(env, l, Sql(d, tl).value, n, p, args, rhs, operand);
      var c := LookupCode(d, l, Sql(d, tl).value, rhs, operand).value;
      MeansWrapped("NOT (", c, n + LostArgs(l, args), LookupPieces(d, l, p, args, InlineOperand(env, l, args)), ")");
    }
  }

  // ----- the main results -----

  /** Compiling any expression that compiles at all: the arguments outnumber the placeholders
      by exactly the bound values that sit under a transformed left-hand side or inside an
      expression given to IN, and the code is the intended statement exactly when there are
      no such values. */
  lemma {:induction false} CompiledExpressionLinesUp(env: Env, e: Expr)
    requires Compile(env, e).Ok?
    ensures var c := Compile(env, e).value;
            && |c.args| == Holes(c.text) + Lost(e)
            && (Reads(c, Inline(env, e)) <==> Lost(e) == 0)
  {
    ResolveFaithful(env, e);
  }

  // ----- both losses happen -----

  /** An environment with one column, for the two examples. */
  function OneColumn(d: Driver): Env {
    Env(d, map["Age" := Code([Text("`t`.`age`")], [])], false, map[])
  }

  lemma {:induction false} LowerIsTransform()
    ensures SplitLookup(["lower"]) == (["lower"], "exact")
    ensures TransformNamed("lower") == Some(LOWER)
    ensures LookupNamed("exact") == Some(Logical(EQ))
  {
    assert "lower"[0] == 'l' && "exact"[0] == 'e' && "bitor"[0] == 'b';
    assert LookupNamed("lower") == None;
  }

  /** A named bound value under the transform `lower`: the clone the transform wraps has lost
      the placeholder of the value, whose argument is still collected. */
  lemma {:induction false} TransformLosesPlaceholder(d: Driver)
    ensures var e := Node(false, Named("Age", Val(Int(1), false)), ["lower"], [ArgValue(Str("x"))]);
            Lost(e) == 1 && Compile(OneColumn(d), e).Ok? && !Balanced(Compile(OneColumn(d), e).value)
  {
    var f := Named("Age", Val(Int(1), false));
    var e := Node(false, f, ["lower"], [ArgValue(Str("x"))]);
    var x := RLookup(false, Logical(EQ), RFunc(LOWER, [RNamed(None, RVal(Int(1), None))], []), Values([Str("x")]));
    TransformResolves(d);
    UnaryRenders(d, x.lhs);
    assert Sql(d, x).Ok?;
    TransformLost();
    CompiledExpressionLinesUp(OneColumn(d), e);
  }

  lemma {:induction false} TransformLost()
    ensures Lost(Node(false, Named("Age", Val(Int(1), false)), ["lower"], [ArgValue(Str("x"))])) == 1
  {
    LowerIsTransform();
    assert LostByClone(Named("Age", Val(Int(1), false))) == 1;
    assert LostArgs(Logical(EQ), [ArgValue(Str("x"))]) == 0;
  }

  lemma {:induction false} TransformResolves(d: Driver)
    ensures Resolve(OneColumn(d), Node(false, Named("Age", Val(Int(1), false)), ["lower"], [ArgValue(Str("x"))]))
         == Ok(RLookup(false, Logical(EQ), RFunc(LOWER, [RNamed(None, RVal(Int(1), None))], []), Values([Str("x")])))
  {
    var env := OneColumn(d);
    var f := Named("Age", Val(Int(1), false));
    LowerIsTransform();
    var r := RNamed(None, RVal(Int(1), Some(d)));
    assert Resolve(env, f) == Ok(r);
    TransformedOnce("lower", LOWER, r);
    assert NormalizeArgs(env, Logical(EQ), [ArgValue(Str("x"))]) == Ok(Values([Str("x")]));
    assert ResolveLookup(env, false, ["lower"], "exact", r, [ArgValue(Str("x"))]).Ok?;
  }

  lemma {:induction false} TransformedOnce(t: string, f: FuncName, r: Resolved)
    requires TransformNamed(t) == Some(f)
    ensures ApplyTransforms([t], r) == Ok(RFunc(f, [Clone(r)], []))
  {
    var none: seq<string> := [];
    assert [t][1..] == none;
    assert ApplyTransforms(none, RFunc(f, [Clone(r)], [])) == Ok(RFunc(f, [Clone(r)], []));
  }

  lemma {:induction false} UnaryRenders(d: Driver, lhs: Resolved)
    requires lhs == RFunc(LOWER, [RNamed(None, RVal(Int(1), None))], [])
    ensures Sql(d, lhs).Ok?
  {
    var inner := RNamed(None, RVal(Int(1), None));
    var none: seq<Resolved> := [];
    assert Sql(d, inner) == Ok(Code([], [Int(1)]));
    assert [inner][1..] == none;
    assert SqlAll(d, none) == Ok([]);
    assert SqlAll(d, [inner]).Ok?;
  }

  /** Age IN (an unresolved value): the value prints nothing and its argument remains. */
  lemma {:induction false} InLosesPlaceholder(d: Driver)
    ensures var e := Node(false, Field("Age"), ["in"], [ArgExpr(Val(Int(1), false))]);
            Lost(e) == 1 && Compile(OneColumn(d), e).Ok? && !Balanced(Compile(OneColumn(d), e).value)
  {
    var v := Val(Int(1), false);
    var e := Node(false, Field("Age"), ["in"], [ArgExpr(v)]);
    hide Resolve, Sql, Inline, Lost;
    InIsNotResolved(d, v, e);
    InPrints(d, v);
    InLosesOne(v, e);
    CompiledExpressionLinesUp(OneColumn(d), e);
  }

  lemma {:induction false} InPrints(d: Driver, v: Expr)
    requires v == Val(Int(1), false)
    ensures var col: Aligned := Code([Text("`t`.`age`")], []);
            Sql(d, RLookup(false, In, RField(col), Unresolved(v))).Ok?
  {
    assert OperandSql(d, Unresolved(v)) == Ok(Code([], [Int(1)]));
  }

  lemma {:induction false} InLosesOne(v: Expr, e: Expr)
    requires v == Val(Int(1), false) && e == Node(false, Field("Age"), ["in"], [ArgExpr(v)])
    ensures Lost(e) == 1
  {
    assert "in"[0] == 'i';
    assert LookupNamed("in") == Some(In) && SplitLookup(["in"]) == ([], "in");
    assert LostArgs(In, [ArgExpr(v)]) == 1;
  }

  lemma {:induction false} InIsNotResolved(d: Driver, v: Expr, e: Expr)
    requires v == Val(Int(1), false) && e == Node(false, Field("Age"), ["in"], [ArgExpr(v)])
    ensures var col: Aligned := Code([Text("`t`.`age`")], []);
            Resolve(OneColumn(d), e) == Ok(RLookup(false, In, RField(col), Unresolved(v)))
  {
    var env := OneColumn(d);
    assert "in"[0] == 'i';
    assert LookupNamed("in") == Some(In);
    assert SplitLookup(["in"]) == ([], "in");
    var col: Aligned := Code([Text("`t`.`age`")], []);
    assert "Age" in env.columns && env.columns["Age"] == col;
    var x := RLookup(false, In, RField(col), Unresolved(v));
    assert NormalizeArgs(env, In, [ArgExpr(v)]) == Ok(Unresolved(v));
    assert ApplyTransforms([], RField(col)) == Ok(RField(col));
    assert ResolveLookup(env, false, [], "in", RField(col), [ArgExpr(v)]) == Ok(x);
    assert Resolve(env, Field("Age")) == Ok(RField(col));
    assert Resolve(env, e) == Ok(x);
  }

  // ----- operands that cannot be compiled -----

  /** An operand no lookup of its kind can print: an expression for a bitwise operator or for
      `iexact`, and only empty lists for IN. */
  predicate Unsupported(l: Lookup, args: seq<Arg>) {
    && args != []
    && match l
       case Logical(op) => IsBitwise(op) && args[0].ArgExpr?
       case Pattern(p) => p.IExact? && args[0].ArgExpr?
       case In => args[0].ArgValue? && Flatten(PlainValues(args)) == []
       case IsNull => false
  }

  lemma {:induction false} UnsupportedLookupPanics(env: Env, l: Lookup, lhs: Code, args: seq<Arg>)
    requires ArityOk(l, |args|) && Unsupported(l, args) && NormalizeArgs(env, l, args).Ok?
    ensures var rhs := NormalizeArgs(env, l, args).value;
            LookupCode(env.driver, l, lhs, rhs, OperandSql(env.driver, rhs)) == Panic
  {
    var rhs := NormalizeArgs(env, l, args).value;
    match l
    case Logical(op) =>
      assert rhs.RhsExpr?;
    case Pattern(p) =>
      assert rhs.RhsExpr?;
      assert PatternOpAffixes(env.driver, p) == Panic;
    case In =>
      assert rhs == Values([]);
  }

  /** Whatever the rest of the expression is, such an operand panics. */
  lemma {:induction false} UnsupportedOperandsPanic(env: Env, not: bool, field: Expr, lookup: seq<string>, args: seq<Arg>)
    requires LookupNamed(SplitLookup(lookup).1).Some?
    requires Unsupported(LookupNamed(SplitLookup(lookup).1).value, args)
    ensures Compile(env, Node(not, field, lookup, args)) == Panic
  {
    var e := Node(not, field, lookup, args);
    var l := LookupNamed(SplitLookup(lookup).1).value;
    if Resolve(env, e).Ok? {
      var lhs := Resolve(env, field).value;
      var r := ResolveLookup(env, not, SplitLookup(lookup).0, SplitLookup(lookup).1, lhs, args).value;
      assert Resolve(env, e) == Ok(r);
      assert r.RLookup? && r.lookup == l && r.operand == NormalizeArgs(env, l, args).value;
      if Sql(env.driver, r.lhs).Ok? {
        UnsupportedLookupPanics(env, l, Sql(env.driver, r.lhs).value, args);
      }
      assert Sql(env.driver, r) == Panic;
    }
  }
}
