/** Joins as they are planned: what each mentions and introduces, their deduplication by condition
    text, and when a list of them is in scope. */
module JoinPlans {
  import opened AliasGenerator
  import opened Outcomes
  import Projection
  import opened Sequences

  // ----- fields, relations and joins -----

  datatype RelType = ManyToOne | OneToMany | OneToOne | ManyToMany

  /** The table between the two sides of a relation, and the column of the far side. */
  datatype Between = Between(table: string, source: string, target: string, column: string)

  datatype Relation = Relation(kind: RelType, model: Model, table: string, column: string, through: Option<Between>)

  /** How a field makes its own join condition, if it does. */
  datatype Clause = NoClause | RelationClause(many: bool) | ProxyClause(source: string, linked: string, contentType: string, typeName: string)

  datatype Detail = Detail(column: string, nullable: bool, clause: Clause, target: string, rel: Option<Relation>)

  datatype JoinType = Left | Inner

  /** A column of a table or a bound value. */
  datatype Col = Col(alias: string, column: string) | Bound(value: string)

  datatype Pair = Pair(a: Col, b: Col)

  datatype JoinDef = JoinDef(table: string, alias: string, kind: JoinType, condition: seq<Pair>)

  // ----- where joins come from -----

  /** A relation is joined directly, as a proxy of its model, or in two steps through a table. */
  datatype Kind = Direct | Proxied | Through | Target

  /** A relation on a path, with the fields selected over it. */
  datatype Origin = Origin(path: seq<string>, field: Detail, rel: Relation, kind: Kind, picked: seq<Projection.FieldDef>)

  /** What a join introduces or mentions: the alias of a path, or of the table before it. */
  datatype Name = Own(path: seq<string>) | Before(path: seq<string>)

  function Gives(o: Origin): Name {
    if o.kind == Through then Before(o.path) else Own(o.path)
  }

  /** What a join needs besides the base table. */
  function Needs(o: Origin): Option<Name> {
    if o.kind == Target then Some(Before(o.path))
    else if |o.path| <= 1 then None
    else Some(Own(o.path[..|o.path| - 1]))
  }

  function Alias(g: Gen, path: seq<string>): string {
    if Join(path) in g.mapping then g.mapping[Join(path)] else ""
  }

  function NameText(g: Gen, n: Name): string {
    match n case Own(p) => Alias(g, p) case Before(p) => Alias(g, p) + "_through"
  }

  function LeftText(base: string, g: Gen, o: Origin): string {
    match Needs(o) case None => base case Some(n) => NameText(g, n)
  }

  function JoinKind(field: Detail, rel: Relation): JoinType {
    match rel.kind
    case ManyToOne => if field.nullable then Left else Inner
    case OneToOne => if rel.through.None? && field.nullable then Left else Inner
    case OneToMany => Left
    case ManyToMany => Inner
  }

  function ClauseKind(field: Detail, rel: Relation): JoinType {
    match field.clause
    case NoClause => JoinKind(field, rel)
    case RelationClause(many) => if field.nullable || many then Left else Inner
    case ProxyClause(_, _, _, _) => Inner
  }

  function Condition(field: Detail, left: string, own: string, column: string): seq<Pair> {
    match field.clause
    case ProxyClause(source, linked, contentType, typeName) =>
      [Pair(Col(left, source), Col(own, linked)), Pair(Col(own, contentType), Bound(typeName))]
    case _ => [Pair(Col(left, field.column), Col(own, column))]
  }

  function JoinAt(base: string, g: Gen, o: Origin): JoinDef {
    var left, own := LeftText(base, g, o), NameText(g, Gives(o));
    match o.kind
    case Direct => JoinDef(o.rel.table, own, ClauseKind(o.field, o.rel), Condition(o.field, left, own, o.rel.column))
    case Proxied => JoinDef(o.rel.table, own, ClauseKind(o.field, o.rel), Condition(o.field, left, own, o.field.target))
    case Through =>
      var t := TableBetween(o.rel);
      JoinDef(t.table, own, ThroughKind(o.field), [Pair(Col(left, o.field.column), Col(own, t.source))])
    case Target =>
      var t := TableBetween(o.rel);
      JoinDef(o.rel.table, own, ThroughKind(o.field), [Pair(Col(left, t.target), Col(own, t.column))])
  }

  function ThroughKind(field: Detail): JoinType {
    if field.clause.RelationClause? && (field.nullable || field.clause.many) then Left else Inner
  }

  function TableBetween(rel: Relation): Between {
    if rel.through.Some? then rel.through.value else Between("", "", "", "")
  }

  function JoinsOf(base: string, g: Gen, os: seq<Origin>): seq<JoinDef> {
    seq(|os|, i requires 0 <= i < |os| => JoinAt(base, g, os[i]))
  }

  // ----- condition text -----

  /** A column that binds no value still writes its missing value. */
  function ColText(c: Col): string {
    match c
    case Col(alias, column) =>
      var name := column + ":<nil>";
      if alias == "" then name else alias + (":" + name)
    case Bound(value) => if value == "" then "?" else "?:" + value
  }

  function ConditionText(ps: seq<Pair>): string {
    if ps == [] then "" else ColText(ps[0].a) + ("=" + (ColText(ps[0].b) + ConditionText(ps[1..])))
  }

  /** The text of a condition, by which joins are told apart. */
  datatype KeyText = KeyText(text: string)

  function Key(j: JoinDef): KeyText {
    KeyText(ConditionText(j.condition))
  }

  predicate Without(s: string, c: char) {
    forall i :: 0 <= i < |s| ==> s[i] != c
  }

  /** The names that condition text is made of do not contain what separates them. */
  predicate Clean(s: string) {
    Without(s, ':') && Without(s, '=')
  }

  predicate CleanDetail(d: Detail) {
    Clean(d.column) && (d.clause.ProxyClause? ==> Clean(d.clause.source))
  }

  predicate CleanOrigin(o: Origin) {
    CleanDetail(o.field) && (o.rel.through.Some? ==> Clean(o.rel.through.value.target))
  }

  lemma {:induction false} CutAt(c: char, a: string, b: string, a2: string, b2: string)
    requires Without(a, c) && Without(a2, c) && a + ([c] + b) == a2 + ([c] + b2)
    ensures a == a2 && b == b2
  {
    var s, s2 := a + ([c] + b), a2 + ([c] + b2);
    assert s[|a|] == c && s2[|a2|] == c;
    assert forall i :: 0 <= i < |a| ==> s[i] == a[i];
    assert forall i :: 0 <= i < |a2| ==> s2[i] == a2[i];
    assert a == s[..|a|] && a2 == s2[..|a2|];
    assert b == s[|a| + 1..] && b2 == s2[|a2| + 1..];
  }

  /** The first pair of a condition is between what the join needs and what it gives. */
  lemma {:induction false} FirstPair(base: string, g: Gen, o: Origin) returns (x: string, y: string)
    requires CleanOrigin(o)
    ensures Clean(x)
    ensures var j := JoinAt(base, g, o);
            && j.alias == NameText(g, Gives(o)) && |j.condition| > 0
            && j.condition[0] == Pair(Col(LeftText(base, g, o), x), Col(j.alias, y))
            && forall i :: 0 < i < |j.condition| ==> j.condition[i].a.Col? && j.condition[i].a.alias == j.alias && j.condition[i].b.Bound?
  {
    var c := JoinAt(base, g, o).condition;
    assert Clean("");
    x, y := c[0].a.column, c[0].b.column;
  }

  /** A condition's text up to the alias of its second column. */
  function Spelled(a: string, x: string, b: string, rest: string): string {
    a + (":" + (x + ("=" + (b + (":" + rest)))))
  }

  lemma {:induction false} TextOf(a: string, x: string, b: string, y: string, rest: seq<Pair>)
    requires a != "" && b != ""
    ensures ConditionText([Pair(Col(a, x), Col(b, y))] + rest) == Spelled(a, x + ":<nil>", b, y + ":<nil>" + ConditionText(rest))
  {
    var left, right := x + ":<nil>", y + ":<nil>";
    var ps := [Pair(Col(a, x), Col(b, y))] + rest;
    assert ps[1..] == rest;
    var t := ConditionText(rest);
    Regroup(b, ":" + right, t);
    Regroup(":", right, t);
    var u := "=" + (b + (":" + (right + t)));
    Regroup(a, ":" + left, u);
    Regroup(":", left, u);
  }

  lemma {:induction false} SameText(a: string, x: string, b: string, t: string, a2: string, x2: string, b2: string, t2: string)
    requires Clean(a) && Without(x, '=') && Clean(b) && Clean(a2) && Without(x2, '=') && Clean(b2)
    requires Spelled(a, x, b, t) == Spelled(a2, x2, b2, t2)
    ensures a == a2 && b == b2
  {
    CutAt(':', a, x + ("=" + (b + (":" + t))), a2, x2 + ("=" + (b2 + (":" + t2))));
    CutAt('=', x, b + (":" + t), x2, b2 + (":" + t2));
    CutAt(':', b, t, b2, t2);
  }

  /** Joins with the same condition text need and give the same names. */
  lemma {:induction false} KeyTellsNames(base: string, g: Gen, o: Origin, p: Origin)
    requires CleanOrigin(o) && CleanOrigin(p) && Key(JoinAt(base, g, o)) == Key(JoinAt(base, g, p))
    requires forall q :: q in [o, p] ==> NamedText(LeftText(base, g, q)) && NamedText(NameText(g, Gives(q)))
    ensures LeftText(base, g, o) == LeftText(base, g, p) && JoinAt(base, g, o).alias == JoinAt(base, g, p).alias
  {
    hide JoinAt, ConditionText, Spelled, LeftText, NameText, CleanOrigin;
    assert o in [o, p] && p in [o, p];
    var x, y := FirstPair(base, g, o);
    var x2, y2 := FirstPair(base, g, p);
    var c, c2 := JoinAt(base, g, o).condition, JoinAt(base, g, p).condition;
    assert c == [c[0]] + c[1..] && c2 == [c2[0]] + c2[1..];
    var a, b, a2, b2 := LeftText(base, g, o), NameText(g, Gives(o)), LeftText(base, g, p), NameText(g, Gives(p));
    TextOf(a, x, b, y, c[1..]);
    TextOf(a2, x2, b2, y2, c2[1..]);
    SameText(a, x + ":<nil>", b, y + ":<nil>" + ConditionText(c[1..]), a2, x2 + ":<nil>", b2, y2 + ":<nil>" + ConditionText(c2[1..]));
  }

  predicate NamedText(s: string) {
    s != "" && Clean(s)
  }

  // ----- deduplication -----

  function KeysOf(js: seq<JoinDef>): set<KeyText> {
    set i | 0 <= i < |js| :: Key(js[i])
  }

  /** The joins whose key is new, each once. */
  function Fresh(keys: set<KeyText>, js: seq<JoinDef>): seq<JoinDef>
    decreases |js|
  {
    if js == [] then []
    else
      var init, last := js[..|js| - 1], js[|js| - 1];
      if Key(last) in keys + KeysOf(init) then Fresh(keys, init) else Fresh(keys, init) + [last]
  }

  function Dedup(js: seq<JoinDef>): seq<JoinDef> {
    Fresh({}, js)
  }

  lemma {:induction false} KeysThen(a: seq<JoinDef>, b: seq<JoinDef>)
    ensures KeysOf(a + b) == KeysOf(a) + KeysOf(b)
  {
    forall k ensures k in KeysOf(a + b) <==> k in KeysOf(a) + KeysOf(b) {
      if k in KeysOf(a) {
        var i :| 0 <= i < |a| && Key(a[i]) == k;
        assert Key((a + b)[i]) == k;
      }
      if k in KeysOf(b) {
        var i :| 0 <= i < |b| && Key(b[i]) == k;
        assert Key((a + b)[|a| + i]) == k;
      }
    }
  }

  lemma {:induction false} FreshThen(keys: set<KeyText>, a: seq<JoinDef>, b: seq<JoinDef>)
    ensures Fresh(keys, a + b) == Fresh(keys, a) + Fresh(keys + KeysOf(a), b)
    decreases |b|
  {
    if b == [] {
      assert a + b == a;
    } else {
      var init, last := b[..|b| - 1], b[|b| - 1];
      FreshThen(keys, a, init);
      KeysTogether(keys, a, init);
      assert (a + b)[..|a + b| - 1] == a + init && (a + b)[|a + b| - 1] == last;
    }
  }

  lemma {:induction false} KeysTogether(keys: set<KeyText>, a: seq<JoinDef>, b: seq<JoinDef>)
    ensures keys + KeysOf(a + b) == keys + KeysOf(a) + KeysOf(b)
  {
    KeysThen(a, b);
  }

  predicate NoKeyTwice(js: seq<JoinDef>) {
    forall i, j :: 0 <= i < j < |js| ==> Key(js[i]) != Key(js[j])
  }

  /** Deduplicated joins have each key once, and all the keys there were. */
  lemma {:induction false} DedupKeys(js: seq<JoinDef>)
    ensures NoKeyTwice(Dedup(js)) && KeysOf(Dedup(js)) == KeysOf(js)
    decreases |js|
  {
    if js != [] {
      var init, last := js[..|js| - 1], js[|js| - 1];
      DedupKeys(init);
      assert js == init + [last];
      KeysThen(init, [last]);
      KeysThen(Dedup(init), [last]);
      assert KeysOf([last]) == {Key(last)} by {
        assert Key([last][0]) == Key(last);
      }
      if Key(last) !in KeysOf(init) {
        var d := Dedup(init);
        forall i | 0 <= i < |d| ensures Key(d[i]) != Key(last) {
          assert Key(d[i]) in KeysOf(d);
        }
      }
    }
  }

  /** What was joined before is not joined again. */
  lemma {:induction false} NothingNew(js: seq<JoinDef>, more: seq<JoinDef>)
    requires forall i :: 0 <= i < |more| ==> Key(more[i]) in KeysOf(js)
    ensures Dedup(js + more) == Dedup(js)
    decreases |more|
  {
    if more == [] {
      assert js + more == js;
    } else {
      var init := more[..|more| - 1];
      NothingNew(js, init);
      KeysThen(js, init);
      assert (js + more)[..|js + more| - 1] == js + init;
    }
  }

  // ----- aliases -----

  function AliasesIn(js: seq<JoinDef>): set<string> {
    set i | 0 <= i < |js| :: js[i].alias
  }

  predicate Mentions(base: string, j: JoinDef, before: set<string>) {
    forall i :: 0 <= i < |j.condition| ==> Known(base, j, before, j.condition[i].a) && Known(base, j, before, j.condition[i].b)
  }

  predicate Known(base: string, j: JoinDef, before: set<string>, c: Col) {
    c.Col? ==> c.alias == base || c.alias == j.alias || c.alias in before
  }

  /** Every condition mentions only the base table, its own alias or an alias joined before. */
  predicate InScope(base: string, js: seq<JoinDef>) {
    forall i :: 0 <= i < |js| ==> Mentions(base, js[i], AliasesIn(js[..i]))
  }

  /** What a join needs is given by an earlier one. */
  predicate Covered(os: seq<Origin>, k: nat)
    requires k < |os|
  {
    Needs(os[k]).None? || exists j :: 0 <= j < k && Gives(os[j]) == Needs(os[k]).value
  }

  predicate AllCovered(os: seq<Origin>) {
    forall k :: 0 <= k < |os| ==> Covered(os, k)
  }

  /** Every path has an alias, names are clean, and the base table is called like none of them. */
  ghost predicate Ready(base: string, g: Gen, os: seq<Origin>) {
    && Sound(g) && NamedText(base)
    && (forall k :: k in g.mapping ==> NamedText(g.mapping[k]) && base != g.mapping[k] && base != g.mapping[k] + "_through")
    && (forall i :: 0 <= i < |os| ==> CleanOrigin(os[i]) && PathKnown(g, os[i].path))
  }

  ghost predicate PathKnown(g: Gen, p: seq<string>) {
    && p != [] && Dotless(p) && Join(p) in g.mapping
    && (|p| > 1 ==> Join(p[..|p| - 1]) in g.mapping)
  }

  ghost predicate NameKnown(g: Gen, n: Name) {
    n.path != [] && Dotless(n.path) && Join(n.path) in g.mapping
  }

  lemma {:induction false} ThroughIsNumbered(prefix: string, n: nat, table: string) returns (u: string)
    ensures Numbered(prefix, n, table) + "_through" == Numbered(prefix, n, u)
  {
    if table == "" {
      u := "through";
    } else {
      u := table + "_through";
      assert "_" + table + "_through" == "_" + (table + "_through");
    }
    assert TableText(table) + "_through" == TableText(u);
    RegroupFour(Front(prefix), "T", CounterText(n), TableText(u));
    var t := TableText(table);
    assert Front(prefix) + ("T" + (CounterText(n) + t)) + "_through" == Front(prefix) + ("T" + (CounterText(n) + (t + "_through")));
  }

  /** The alias of a table before a relation is no other alias. */
  lemma {:induction false} ThroughApart(g: Gen, k: string, l: string)
    requires Sound(g) && k in g.mapping && l in g.mapping
    ensures g.mapping[k] + "_through" != g.mapping[l]
  {
    var origin: map<string, Making> :| From(g, origin);
    var u := ThroughIsNumbered(g.prefix, origin[k].number, origin[k].table);
    if g.mapping[k] + "_through" == g.mapping[l] {
      NumbersTellApart(g.prefix, origin[k].number, u, origin[l].number, origin[l].table);
    }
  }

  /** Different names have different texts. */
  lemma {:induction false} NamesApart(g: Gen, m: Name, n: Name)
    requires Sound(g) && NameKnown(g, m) && NameKnown(g, n)
    ensures NameText(g, m) == NameText(g, n) <==> m == n
  {
    var k, l := Join(m.path), Join(n.path);
    if NameText(g, m) == NameText(g, n) {
      ThroughApart(g, k, l);
      ThroughApart(g, l, k);
      if m.Before? && n.Before? {
        CutAlikeEnd(g.mapping[k], g.mapping[l], "_through");
      }
      AliasesDiffer(g, k, l);
      SplitJoin(m.path);
      SplitJoin(n.path);
    }
  }

  lemma {:induction false} CutAlikeEnd(a: string, b: string, end: string)
    requires a + end == b + end
    ensures a == b
  {
    assert |a| == |b|;
    assert a == (a + end)[..|a|] && b == (b + end)[..|b|];
  }

  // ----- what a plan amounts to -----

  lemma {:induction false} NamesKnown(base: string, g: Gen, o: Origin)
    requires PathKnown(g, o.path)
    ensures NameKnown(g, Gives(o)) && (Needs(o).Some? ==> NameKnown(g, Needs(o).value))
  {
    if |o.path| > 1 {
      assert o.path[..|o.path| - 1] != [];
    }
  }

  lemma {:induction false} CleanThrough(s: string)
    requires NamedText(s)
    ensures NamedText(s + "_through")
  {
  }

  lemma {:induction false} TextsNamed(base: string, g: Gen, os: seq<Origin>, i: nat)
    requires Ready(base, g, os) && i < |os|
    ensures NamedText(LeftText(base, g, os[i])) && NamedText(NameText(g, Gives(os[i])))
    ensures Needs(os[i]).Some? ==> LeftText(base, g, os[i]) != base
  {
    var o := os[i];
    NamesKnown(base, g, o);
    CleanThrough(Alias(g, o.path));
  }

  /** Joins with the same key need and give the same. */
  lemma {:induction false} KeyTells(base: string, g: Gen, os: seq<Origin>, i: nat, j: nat)
    requires Ready(base, g, os) && i < |os| && j < |os| && Key(JoinAt(base, g, os[i])) == Key(JoinAt(base, g, os[j]))
    ensures Gives(os[i]) == Gives(os[j]) && Needs(os[i]) == Needs(os[j])
  {
    TextsNamed(base, g, os, i);
    TextsNamed(base, g, os, j);
    KeyTellsNames(base, g, os[i], os[j]);
    AliasIsGiven(base, g, os[i]);
    AliasIsGiven(base, g, os[j]);
    NamesKnown(base, g, os[i]);
    NamesKnown(base, g, os[j]);
    NamesApart(g, Gives(os[i]), Gives(os[j]));
    if Needs(os[i]).Some? && Needs(os[j]).Some? {
      NamesApart(g, Needs(os[i]).value, Needs(os[j]).value);
    }
  }

  lemma {:induction false} AliasIsGiven(base: string, g: Gen, o: Origin)
    ensures JoinAt(base, g, o).alias == NameText(g, Gives(o))
  {
  }

  ghost predicate GivenBy(os: seq<Origin>, n: Name) {
    exists j :: 0 <= j < |os| && Gives(os[j]) == n
  }

  lemma {:induction false} ReadyBefore(base: string, g: Gen, os: seq<Origin>)
    requires Ready(base, g, os) && os != []
    ensures Ready(base, g, os[..|os| - 1])
  {
  }

  lemma {:induction false} JoinsLast(base: string, g: Gen, os: seq<Origin>)
    requires os != []
    ensures var init := os[..|os| - 1];
            JoinsOf(base, g, os) == JoinsOf(base, g, init) + [JoinAt(base, g, os[|os| - 1])]
            && JoinsOf(base, g, os)[..|os| - 1] == JoinsOf(base, g, init)
  {
  }

  lemma {:induction false} KeyThere(base: string, g: Gen, os: seq<Origin>, k: KeyText) returns (i: nat)
    requires k in KeysOf(JoinsOf(base, g, os))
    ensures i < |os| && Key(JoinAt(base, g, os[i])) == k
  {
    i :| 0 <= i < |os| && Key(JoinsOf(base, g, os)[i]) == k;
  }

  lemma {:induction false} AliasesMoreBy(js: seq<JoinDef>, j: JoinDef)
    ensures AliasesIn(js + [j]) == AliasesIn(js) + {j.alias}
  {
    forall a ensures a in AliasesIn(js + [j]) <==> a in AliasesIn(js) + {j.alias} {
      if a in AliasesIn(js) {
        var i :| 0 <= i < |js| && js[i].alias == a;
        assert (js + [j])[i].alias == a;
      }
      assert (js + [j])[|js|].alias == j.alias;
    }
  }

  lemma {:induction false} AddedAliases(js: seq<JoinDef>, j: JoinDef, a: string)
    ensures a in AliasesIn(Dedup(js + [j])) <==> a in AliasesIn(Dedup(js)) || (Key(j) !in KeysOf(js) && a == j.alias)
  {
    assert (js + [j])[..|js|] == js;
    if Key(j) !in KeysOf(js) {
      AliasesMoreBy(Dedup(js), j);
    }
  }

  lemma {:induction false} GivesAlias(base: string, g: Gen, os: seq<Origin>, i: nat, n: Name)
    requires Ready(base, g, os) && i < |os| && NameKnown(g, n)
    ensures JoinAt(base, g, os[i]).alias == NameText(g, n) <==> Gives(os[i]) == n
  {
    AliasIsGiven(base, g, os[i]);
    NamesKnown(base, g, os[i]);
    NamesApart(g, Gives(os[i]), n);
  }

  /** A join with a key that is there already gives what an earlier one gave. */
  lemma {:induction false} GivenAgain(base: string, g: Gen, os: seq<Origin>) returns (i: nat)
    requires Ready(base, g, os) && os != []
    requires Key(JoinAt(base, g, os[|os| - 1])) in KeysOf(JoinsOf(base, g, os[..|os| - 1]))
    ensures i < |os| - 1 && Gives(os[i]) == Gives(os[|os| - 1]) && Needs(os[i]) == Needs(os[|os| - 1])
    ensures Key(JoinAt(base, g, os[i])) == Key(JoinAt(base, g, os[|os| - 1])) && GivenBy(os[..|os| - 1], Gives(os[|os| - 1]))
  {
    var n := |os| - 1;
    i := KeyBefore(base, g, os, Key(JoinAt(base, g, os[n])));
    assert Key(JoinAt(base, g, os[i])) == Key(JoinAt(base, g, os[n]));
    KeyTells(base, g, os, i, n);
    GivenAt(os, i);
  }

  lemma {:induction false} KeyBefore(base: string, g: Gen, os: seq<Origin>, k: KeyText) returns (i: nat)
    requires os != [] && k in KeysOf(JoinsOf(base, g, os[..|os| - 1]))
    ensures i < |os| - 1 && Key(JoinAt(base, g, os[i])) == k
  {
    i := KeyThere(base, g, os[..|os| - 1], k);
  }

  lemma {:induction false} GivenAt(os: seq<Origin>, i: nat)
    requires i < |os| - 1
    ensures GivenBy(os[..|os| - 1], Gives(os[i]))
  {
    assert os[..|os| - 1][i] == os[i];
  }

  lemma {:induction false} GivenLast(os: seq<Origin>, n: Name)
    requires os != []
    ensures GivenBy(os, n) <==> GivenBy(os[..|os| - 1], n) || Gives(os[|os| - 1]) == n
  {
    if GivenBy(os[..|os| - 1], n) {
      var j :| 0 <= j < |os| - 1 && Gives(os[..|os| - 1][j]) == n;
      assert Gives(os[j]) == n;
    }
  }

  /** The aliases of a plan are those its origins give. */
  lemma {:induction false} AliasesGiven(base: string, g: Gen, os: seq<Origin>, n: Name)
    requires Ready(base, g, os) && NameKnown(g, n)
    ensures NameText(g, n) in AliasesIn(Dedup(JoinsOf(base, g, os))) <==> GivenBy(os, n)
    decreases |os|
  {
    if os != [] {
      hide Ready, NameText, Dedup, AliasesIn, NameKnown, Key, JoinAt;
      var init, last := os[..|os| - 1], os[|os| - 1];
      ReadyBefore(base, g, os);
      AliasesGiven(base, g, init, n);
      JoinsLast(base, g, os);
      AddedAliases(JoinsOf(base, g, init), JoinAt(base, g, last), NameText(g, n));
      GivesAlias(base, g, os, |os| - 1, n);
      GivenLast(os, n);
      if Key(JoinAt(base, g, last)) in KeysOf(JoinsOf(base, g, init)) {
        var i := GivenAgain(base, g, os);
      }
    }
  }

  lemma {:induction false} ScopeLast(base: string, js: seq<JoinDef>, j: JoinDef)
    ensures InScope(base, js + [j]) <==> InScope(base, js) && Mentions(base, j, AliasesIn(js))
  {
    var all := js + [j];
    assert all[..|js|] == js && forall i :: 0 <= i < |js| ==> all[i] == js[i] && all[..i] == js[..i];
    if InScope(base, all) {
      assert Mentions(base, all[|js|], AliasesIn(all[..|js|]));
      forall i | 0 <= i < |js| ensures Mentions(base, js[i], AliasesIn(js[..i])) {
        assert Mentions(base, all[i], AliasesIn(all[..i]));
      }
    }
  }

  lemma {:induction false} MentionsLeft(base: string, g: Gen, o: Origin, before: set<string>)
    requires CleanOrigin(o)
    ensures var j, left := JoinAt(base, g, o), LeftText(base, g, o);
            Mentions(base, j, before) <==> left == base || left == j.alias || left in before
  {
    var j, left := JoinAt(base, g, o), LeftText(base, g, o);
    var x, y := FirstPair(base, g, o);
    assert Known(base, j, before, j.condition[0].a) <==> left == base || left == j.alias || left in before;
  }

  lemma {:induction false} CoveredIsGiven(os: seq<Origin>)
    requires os != []
    ensures Covered(os, |os| - 1) <==> Needs(os[|os| - 1]).None? || GivenBy(os[..|os| - 1], Needs(os[|os| - 1]).value)
  {
    var init := os[..|os| - 1];
    if Needs(os[|os| - 1]).Some? && GivenBy(init, Needs(os[|os| - 1]).value) {
      var j :| 0 <= j < |init| && Gives(init[j]) == Needs(os[|os| - 1]).value;
      assert Gives(os[j]) == Needs(os[|os| - 1]).value;
    }
  }

  /** A join mentions only what is known exactly when what it needs is given before. */
  lemma {:induction false} ReadyAt(base: string, g: Gen, os: seq<Origin>, i: nat)
    requires Ready(base, g, os) && i < |os|
    ensures CleanOrigin(os[i]) && PathKnown(g, os[i].path)
  {
  }

  lemma {:induction false} MentionsExactly(base: string, g: Gen, os: seq<Origin>)
    requires Ready(base, g, os) && os != []
    ensures var init := os[..|os| - 1];
            Mentions(base, JoinAt(base, g, os[|os| - 1]), AliasesIn(Dedup(JoinsOf(base, g, init)))) <==> Covered(os, |os| - 1)
  {
    hide JoinsOf, Dedup, Mentions, Covered, Ready, NameText, GivenBy, CleanOrigin;
    var init, o := os[..|os| - 1], os[|os| - 1];
    ReadyAt(base, g, os, |os| - 1);
    MentionsLeft(base, g, o, AliasesIn(Dedup(JoinsOf(base, g, init))));
    CoveredIsGiven(os);
    TextsNamed(base, g, os, |os| - 1);
    if Needs(o).Some? {
      NamesKnown(base, g, o);
      ReadyBefore(base, g, os);
      AliasesGiven(base, g, init, Needs(o).value);
      GivesAlias(base, g, os, |os| - 1, Needs(o).value);
      NeedsNotGiven(o);
    }
  }

  lemma {:induction false} NeedsNotGiven(o: Origin)
    requires Needs(o).Some? && o.path != []
    ensures Gives(o) != Needs(o).value
  {
    assert |o.path[..|o.path| - 1]| < |o.path|;
  }

  lemma {:induction false} CoveredBefore(os: seq<Origin>, k: nat)
    requires k < |os| - 1
    ensures Covered(os[..|os| - 1], k) <==> Covered(os, k)
  {
  }

  lemma {:induction false} CoveredLast(os: seq<Origin>)
    requires os != []
    ensures AllCovered(os) <==> AllCovered(os[..|os| - 1]) && Covered(os, |os| - 1)
  {
    var init := os[..|os| - 1];
    if AllCovered(os) {
      forall k | 0 <= k < |init| ensures Covered(init, k) {
        CoveredBefore(os, k);
      }
    }
    if AllCovered(init) && Covered(os, |os| - 1) {
      forall k | 0 <= k < |os| ensures Covered(os, k) {
        if k < |init| {
          CoveredBefore(os, k);
        }
      }
    }
  }

  /** A plan is in scope exactly when everything a join needs is given by an earlier one. */
  lemma {:induction false} ScopeExactly(base: string, g: Gen, os: seq<Origin>)
    requires Ready(base, g, os)
    ensures InScope(base, Dedup(JoinsOf(base, g, os))) <==> AllCovered(os)
    decreases |os|
  {
    if os != [] {
      var init, last := os[..|os| - 1], os[|os| - 1];
      var js, j := JoinsOf(base, g, init), JoinAt(base, g, last);
      ReadyBefore(base, g, os);
      ScopeExactly(base, g, init);
      JoinsLast(base, g, os);
      CoveredLast(os);
      if Key(j) in KeysOf(js) {
        var i := GivenAgain(base, g, os);
        if AllCovered(init) {
          assert Covered(init, i);
          assert Covered(os, |os| - 1);
        }
      } else {
        ScopeLast(base, Dedup(js), j);
        MentionsExactly(base, g, os);
      }
    }
  }

  predicate NoAliasTwice(js: seq<JoinDef>) {
    forall i, j :: 0 <= i < j < |js| ==> js[i].alias != js[j].alias
  }

  /** Whatever is given twice is given by the same condition. */
  predicate Settled(js: seq<JoinDef>, os: seq<Origin>)
    requires |js| == |os|
  {
    forall i, j :: 0 <= i < |os| && 0 <= j < |os| && Gives(os[i]) == Gives(os[j]) ==> Key(js[i]) == Key(js[j])
  }

  lemma {:induction false} OneMoreAlias(js: seq<JoinDef>, j: JoinDef)
    ensures NoAliasTwice(js + [j]) <==> NoAliasTwice(js) && j.alias !in AliasesIn(js)
  {
    var all := js + [j];
    if NoAliasTwice(all) {
      forall a, b | 0 <= a < b < |js| ensures js[a].alias != js[b].alias {
        assert all[a].alias != all[b].alias;
      }
      forall a | 0 <= a < |js| ensures js[a].alias != j.alias {
        assert all[a].alias != all[|js|].alias;
      }
    } else {
      var a, b :| 0 <= a < b < |all| && all[a].alias == all[b].alias;
      assert b < |js| ==> js[a].alias == js[b].alias;
    }
  }

  lemma {:induction false} AddedTwice(js: seq<JoinDef>, j: JoinDef)
    ensures NoAliasTwice(Dedup(js + [j])) <==>
              NoAliasTwice(Dedup(js)) && (Key(j) in KeysOf(js) || j.alias !in AliasesIn(Dedup(js)))
  {
    assert (js + [j])[..|js|] == js;
    if Key(j) !in KeysOf(js) {
      OneMoreAlias(Dedup(js), j);
    }
  }

  lemma {:induction false} SettledBefore(js: seq<JoinDef>, os: seq<Origin>, n: nat)
    requires |js| == |os| == n + 1 && Settled(js, os)
    ensures Settled(js[..n], os[..n])
  {
  }

  lemma {:induction false} NotSettled(js: seq<JoinDef>, os: seq<Origin>, n: nat)
    requires |js| == |os| == n + 1 && Key(js[n]) !in KeysOf(js[..n]) && GivenBy(os[..n], Gives(os[n]))
    ensures !Settled(js, os)
  {
    var init := os[..n];
    var i :| 0 <= i < |init| && Gives(init[i]) == Gives(os[n]);
    assert Key(js[..n][i]) in KeysOf(js[..n]);
    assert Gives(os[i]) == Gives(os[n]);
  }

  lemma {:induction false} SettledByCopy(js: seq<JoinDef>, os: seq<Origin>, n: nat, i: nat)
    requires |js| == |os| == n + 1 && i < n && Settled(js[..n], os[..n])
    requires Gives(os[i]) == Gives(os[n]) && Key(js[i]) == Key(js[n])
    ensures Settled(js, os)
  {
    forall a, b | 0 <= a < |os| && 0 <= b < |os| && Gives(os[a]) == Gives(os[b]) ensures Key(js[a]) == Key(js[b]) {
      var a2, b2 := if a == n then i else a, if b == n then i else b;
      SettledPair(js, os, n, a2, b2);
    }
  }

  lemma {:induction false} SettledPair(js: seq<JoinDef>, os: seq<Origin>, n: nat, a: nat, b: nat)
    requires |js| == |os| == n + 1 && Settled(js[..n], os[..n]) && a < n && b < n && Gives(os[a]) == Gives(os[b])
    ensures Key(js[a]) == Key(js[b])
  {
    assert Gives(os[..n][a]) == Gives(os[..n][b]);
    assert js[..n][a] == js[a] && js[..n][b] == js[b];
  }

  lemma {:induction false} SettledByNew(js: seq<JoinDef>, os: seq<Origin>, n: nat)
    requires |js| == |os| == n + 1 && Settled(js[..n], os[..n]) && !GivenBy(os[..n], Gives(os[n]))
    ensures Settled(js, os)
  {
    forall a, b | 0 <= a < |os| && 0 <= b < |os| && Gives(os[a]) == Gives(os[b]) ensures Key(js[a]) == Key(js[b]) {
      if a != b {
        BothEarlier(os, n, a, b);
        SettledPair(js, os, n, a, b);
      }
    }
  }

  lemma {:induction false} NotGiven(os: seq<Origin>, n: Name)
    requires !GivenBy(os, n)
    ensures forall i :: 0 <= i < |os| ==> Gives(os[i]) != n
  {
  }

  lemma {:induction false} BothEarlier(os: seq<Origin>, n: nat, a: nat, b: nat)
    requires |os| == n + 1 && a <= n && b <= n && a != b && Gives(os[a]) == Gives(os[b]) && !GivenBy(os[..n], Gives(os[n]))
    ensures a < n && b < n
  {
    NotGiven(os[..n], Gives(os[n]));
    assert forall i :: 0 <= i < n ==> os[..n][i] == os[i];
  }

  /** No alias is joined twice exactly when every path is always joined by the same condition. */
  lemma {:induction false} AliasesOnce(base: string, g: Gen, os: seq<Origin>)
    requires Ready(base, g, os)
    ensures NoAliasTwice(Dedup(JoinsOf(base, g, os))) <==> Settled(JoinsOf(base, g, os), os)
    decreases |os|
  {
    if os != [] {
      var n := |os| - 1;
      ReadyBefore(base, g, os);
      AliasesOnce(base, g, os[..n]);
      JoinsLast(base, g, os);
      AliasesOnceStep(base, g, os, n);
    }
  }

  lemma {:induction false} AliasesOnceStep(base: string, g: Gen, os: seq<Origin>, n: nat)
    requires Ready(base, g, os) && |os| == n + 1
    requires NoAliasTwice(Dedup(JoinsOf(base, g, os[..n]))) <==> Settled(JoinsOf(base, g, os[..n]), os[..n])
    ensures NoAliasTwice(Dedup(JoinsOf(base, g, os))) <==> Settled(JoinsOf(base, g, os), os)
  {
    var js, init := JoinsOf(base, g, os), os[..n];
    var before, last := js[..n], js[n];
    JoinsLast(base, g, os);
    assert before == JoinsOf(base, g, init) && js == before + [last];
    AddedTwice(before, last);
    if Settled(js, os) {
      SettledBefore(js, os, n);
    }
    LastAlias(base, g, os, n, js);
    if Key(last) in KeysOf(before) {
      if Settled(before, init) {
        var i := LastAgain(base, g, os, n, js);
        SettledByCopy(js, os, n, i);
      }
    } else if GivenBy(init, Gives(os[n])) {
      NotSettled(js, os, n);
    } else if Settled(before, init) {
      SettledByNew(js, os, n);
    }
  }

  lemma {:induction false} LastAgain(base: string, g: Gen, os: seq<Origin>, n: nat, js: seq<JoinDef>) returns (i: nat)
    requires Ready(base, g, os) && |os| == n + 1 && js == JoinsOf(base, g, os) && Key(js[n]) in KeysOf(js[..n])
    ensures i < n && Gives(os[i]) == Gives(os[n]) && Key(js[i]) == Key(js[n])
  {
    i :| 0 <= i < n && Key(js[..n][i]) == Key(js[n]);
    assert Key(JoinAt(base, g, os[i])) == Key(JoinAt(base, g, os[n]));
    KeyTells(base, g, os, i, n);
  }

  lemma {:induction false} LastAlias(base: string, g: Gen, os: seq<Origin>, n: nat, js: seq<JoinDef>)
    requires Ready(base, g, os) && |os| == n + 1 && js == JoinsOf(base, g, os)
    ensures js[n].alias in AliasesIn(Dedup(js[..n])) <==> GivenBy(os[..n], Gives(os[n]))
  {
    ReadyBefore(base, g, os);
    AliasIsGiven(base, g, os[n]);
    NamesKnown(base, g, os[n]);
    AliasesGiven(base, g, os[..n], Gives(os[n]));
    assert js[..n] == JoinsOf(base, g, os[..n]);
  }
}
