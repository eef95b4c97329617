/** Table aliases: numbered names handed out per relation chain, and the walk along a path that
    asks for them. */
module AliasGenerator {
  import opened Numerals
  import opened Outcomes
  import opened Sequences

  // ----- paths as text -----

  function Join(parts: seq<string>): string
    decreases |parts|
  {
    if parts == [] then ""
    else if |parts| == 1 then parts[0]
    else parts[0] + ("." + Join(parts[1..]))
  }

  /** Where the first dot is, or the length. */
  function FirstDot(s: string): (n: nat)
    ensures n <= |s| && NoDot(s[..n]) && (n < |s| ==> s[n] == '.')
    decreases |s|
  {
    if s == "" || s[0] == '.' then 0
    else
      assert forall i :: 0 < i < |s| ==> s[i] == s[1..][i - 1];
      1 + FirstDot(s[1..])
  }

  function Split(s: string): (parts: seq<string>)
    ensures |parts| > 0
    decreases |s|
  {
    var n := FirstDot(s);
    if n == |s| then [s] else [s[..n]] + Split(s[n + 1..])
  }

  predicate NoDot(s: string) {
    forall i :: 0 <= i < |s| ==> s[i] != '.'
  }

  predicate Dotless(parts: seq<string>) {
    forall i :: 0 <= i < |parts| ==> NoDot(parts[i])
  }

  lemma {:induction false} FirstDotAt(p: string, rest: string)
    requires NoDot(p)
    ensures FirstDot(p + ("." + rest)) == |p|
  {
    var s := p + ("." + rest);
    assert s[|p|] == '.' && forall i :: 0 <= i < |p| ==> s[i] == p[i];
  }

  lemma {:induction false} SplitAfter(p: string, rest: string)
    requires NoDot(p)
    ensures Split(p + ("." + rest)) == [p] + Split(rest)
  {
    var s := p + ("." + rest);
    FirstDotAt(p, rest);
    assert s[..|p|] == p && s[|p| + 1..] == rest;
  }

  /** Names without dots come back from the text of their path. */
  lemma {:induction false} SplitJoin(parts: seq<string>)
    requires parts != [] && Dotless(parts)
    ensures Split(Join(parts)) == parts
    decreases |parts|
  {
    if |parts| == 1 {
      var n := FirstDot(parts[0]);
      assert n == |parts[0]| && parts == [parts[0]];
    } else {
      SplitJoin(parts[1..]);
      SplitAfter(parts[0], Join(parts[1..]));
      assert parts == [parts[0]] + parts[1..];
    }
  }

  lemma {:induction false} AtDot(s: string, n: nat)
    requires n < |s| && s[n] == '.'
    ensures s == s[..n] + ("." + s[n + 1..])
  {
  }

  lemma {:induction false} JoinAfter(p: string, rest: seq<string>)
    requires rest != []
    ensures Join([p] + rest) == p + ("." + Join(rest))
    ensures NoDot(p) && Dotless(rest) ==> Dotless([p] + rest)
  {
    var all := [p] + rest;
    assert all[0] == p && all[1..] == rest;
  }

  lemma {:induction false} SplitHere(s: string, n: nat)
    requires n == FirstDot(s)
    ensures n == |s| ==> Split(s) == [s] && NoDot(s)
    ensures n < |s| ==> Split(s) == [s[..n]] + Split(s[n + 1..]) && NoDot(s[..n])
  {
    hide FirstDot;
    assert n == |s| ==> s[..n] == s;
  }

  /** A path's parts make up its text, and none has a dot. */
  lemma {:induction false} JoinSplit(s: string)
    ensures Dotless(Split(s)) && Join(Split(s)) == s
    decreases |s|
  {
    var n := FirstDot(s);
    SplitHere(s, n);
    if n < |s| {
      JoinSplit(s[n + 1..]);
      JoinAfter(s[..n], Split(s[n + 1..]));
      AtDot(s, n);
    }
  }

  // ----- the generator as a value -----

  /** The prefix, the next number, and the aliases handed out by chain key. */
  datatype Gen = Gen(prefix: string, counter: nat, mapping: map<string, string>)

  function Front(prefix: string): string {
    if prefix == "" then "" else prefix + "_"
  }

  function CounterText(n: nat): string {
    if n > 0 then Digits(n) else ""
  }

  function TableText(table: string): string {
    if table != "" then "_" + table else ""
  }

  function Numbered(prefix: string, counter: nat, table: string): string {
    Front(prefix) + ("T" + (CounterText(counter) + TableText(table)))
  }

  /** The number and the table an alias was made of. */
  datatype Making = Making(number: nat, table: string)

  /** A request without a chain is answered with the table itself. */
  predicate Rooted(table: string, key: string) {
    key == "" && table != ""
  }

  function Answer(g: Gen, table: string, key: string): (Gen, string) {
    if Rooted(table, key) then (g, Front(g.prefix) + table)
    else if key in g.mapping then (g, g.mapping[key])
    else (With(g, key, Numbered(g.prefix, g.counter, table)), Numbered(g.prefix, g.counter, table))
  }

  /** One alias more. */
  function With(g: Gen, key: string, alias: string): Gen {
    Gen(g.prefix, g.counter + 1, g.mapping[key := alias])
  }

  /** Every alias handed out is a numbered one, and the numbers tell the keys apart. */
  ghost predicate Sound(g: Gen) {
    exists origin: map<string, Making> :: From(g, origin)
  }

  ghost predicate From(g: Gen, origin: map<string, Making>) {
    && (forall k :: k in origin <==> k in g.mapping)
    && (forall k :: k in origin ==> g.mapping[k] == Numbered(g.prefix, origin[k].number, origin[k].table) && origin[k].number < g.counter)
    && (forall k, l :: k in origin && l in origin && origin[k].number == origin[l].number ==> k == l)
  }

  /** How many leading digits. */
  function Run(s: string): (n: nat)
    ensures n <= |s| && (forall i :: 0 <= i < n ==> IsDigit(s[i])) && (n < |s| ==> !IsDigit(s[n]))
    decreases |s|
  {
    if s == "" || !IsDigit(s[0]) then 0 else 1 + Run(s[1..])
  }

  lemma {:induction false} RunOf(d: string, rest: string)
    requires (forall i :: 0 <= i < |d| ==> IsDigit(d[i])) && (rest == "" || !IsDigit(rest[0]))
    ensures Run(d + rest) == |d|
  {
    var s := d + rest;
    assert forall i :: 0 <= i < |d| ==> s[i] == d[i];
    assert rest != "" ==> s[|d|] == rest[0];
  }

  lemma {:induction false} CutAlike(a: string, b: string, c: string, d: string)
    requires a + b == c + d && |a| == |c|
    ensures a == c && b == d
  {
    assert a == (a + b)[..|a|] && c == (c + d)[..|c|];
    assert b == (a + b)[|a|..] && d == (c + d)[|c|..];
  }

  lemma {:induction false} CounterRuns(n: nat, table: string)
    ensures Run(CounterText(n) + TableText(table)) == |CounterText(n)|
  {
    DigitsParse(n);
    var d := CounterText(n);
    forall i | 0 <= i < |d| ensures IsDigit(d[i]) {
      assert d[i] in Digits(n);
    }
    RunOf(d, TableText(table));
  }

  lemma {:induction false} CounterTold(m: nat, n: nat)
    requires CounterText(m) == CounterText(n)
    ensures m == n
  {
    DigitsParse(m);
    DigitsParse(n);
  }

  lemma {:induction false} TableTold(t: string, u: string)
    requires TableText(t) == TableText(u)
    ensures t == u
  {
    if t != "" && u != "" {
      CutAlike("_", t, "_", u);
    }
  }

  /** Aliases under one prefix with different numbers differ, whatever the tables are called. */
  lemma {:induction false} NumbersTellApart(prefix: string, m: nat, t: string, n: nat, u: string)
    requires Numbered(prefix, m, t) == Numbered(prefix, n, u)
    ensures m == n && t == u
  {
    var a, b := CounterText(m) + TableText(t), CounterText(n) + TableText(u);
    CutAlike(Front(prefix), "T" + a, Front(prefix), "T" + b);
    CutAlike("T", a, "T", b);
    CounterRuns(m, t);
    CounterRuns(n, u);
    CutAlike(CounterText(m), TableText(t), CounterText(n), TableText(u));
    CounterTold(m, n);
    TableTold(t, u);
  }

  /** What was handed out stays. */
  ghost predicate Extends(g: Gen, h: Gen) {
    h.prefix == g.prefix && forall k :: k in g.mapping ==> k in h.mapping && h.mapping[k] == g.mapping[k]
  }

  lemma {:induction false} FromNext(g: Gen, origin: map<string, Making>, table: string, key: string)
    requires From(g, origin) && key !in g.mapping
    ensures From(With(g, key, Numbered(g.prefix, g.counter, table)), origin[key := Making(g.counter, table)])
  {
  }

  lemma {:induction false} AnswerKeeps(g: Gen, table: string, key: string)
    requires Sound(g)
    ensures Sound(Answer(g, table, key).0) && Extends(g, Answer(g, table, key).0)
  {
    if !Rooted(table, key) && key !in g.mapping {
      WithIsSound(g, table, key);
      WithExtends(g, key, Numbered(g.prefix, g.counter, table));
    }
  }

  lemma {:induction false} WithIsSound(g: Gen, table: string, key: string)
    requires Sound(g) && key !in g.mapping
    ensures Sound(With(g, key, Numbered(g.prefix, g.counter, table)))
  {
    var origin: map<string, Making> :| From(g, origin);
    FromNext(g, origin, table, key);
  }

  lemma {:induction false} WithExtends(g: Gen, key: string, alias: string)
    requires key !in g.mapping
    ensures Extends(g, With(g, key, alias))
  {
  }

  /** Different keys have different aliases. */
  lemma {:induction false} AliasesDiffer(g: Gen, k: string, l: string)
    requires Sound(g) && k in g.mapping && l in g.mapping
    ensures g.mapping[k] == g.mapping[l] <==> k == l
  {
    var origin: map<string, Making> :| From(g, origin);
    if g.mapping[k] == g.mapping[l] {
      NumbersTellApart(g.prefix, origin[k].number, origin[k].table, origin[l].number, origin[l].table);
    }
  }

  // ----- any run of requests -----

  datatype Ask = Ask(table: string, key: string)

  function After(g: Gen, asks: seq<Ask>): Gen
    decreases |asks|
  {
    if asks == [] then g else Answer(After(g, asks[..|asks| - 1]), asks[|asks| - 1].table, asks[|asks| - 1].key).0
  }

  /** The answer to request `i` of a run. */
  function Nth(g: Gen, asks: seq<Ask>, i: nat): string
    requires i < |asks|
  {
    Answer(After(g, asks[..i]), asks[i].table, asks[i].key).1
  }

  lemma {:induction false} AfterKeeps(g: Gen, asks: seq<Ask>, i: nat)
    requires Sound(g) && i <= |asks|
    ensures Sound(After(g, asks)) && Extends(After(g, asks[..i]), After(g, asks))
    decreases |asks|
  {
    if i == |asks| {
      assert asks[..i] == asks;
    }
    if asks != [] {
      var before, ask := asks[..|asks| - 1], asks[|asks| - 1];
      AfterKeeps(g, before, if i < |asks| then i else 0);
      AnswerKeeps(After(g, before), ask.table, ask.key);
      assert i < |asks| ==> before[..i] == asks[..i];
    }
  }

  lemma {:induction false} NthIsKept(g: Gen, asks: seq<Ask>, i: nat)
    requires Sound(g) && i < |asks| && !Rooted(asks[i].table, asks[i].key)
    ensures asks[i].key in After(g, asks).mapping && After(g, asks).mapping[asks[i].key] == Nth(g, asks, i)
  {
    assert asks[..i + 1][..i] == asks[..i] && asks[..i + 1][i] == asks[i];
    AfterKeeps(g, asks, i + 1);
    assert After(g, asks[..i + 1]) == Answer(After(g, asks[..i]), asks[i].table, asks[i].key).0;
  }

  /** Over any run of requests two answers are the same exactly when the chain keys are. */
  lemma {:induction false} StableAndUnique(g: Gen, asks: seq<Ask>, i: nat, j: nat)
    requires Sound(g) && i < |asks| && j < |asks|
    requires !Rooted(asks[i].table, asks[i].key) && !Rooted(asks[j].table, asks[j].key)
    ensures Nth(g, asks, i) == Nth(g, asks, j) <==> asks[i].key == asks[j].key
  {
    AfterKeeps(g, asks, |asks|);
    NthIsKept(g, asks, i);
    NthIsKept(g, asks, j);
    AliasesDiffer(After(g, asks), asks[i].key, asks[j].key);
  }

  /** A request without a chain gets an alias of some chain exactly when its table is itself
      called like a numbered alias without prefix. */
  lemma {:induction false} RootCollides(g: Gen, table: string, key: string, origin: map<string, Making>)
    requires From(g, origin) && key in g.mapping && table != ""
    ensures Answer(g, table, "").1 == g.mapping[key] <==> table == Numbered("", origin[key].number, origin[key].table)
  {
    var o := origin[key];
    NoFront(o.number, o.table);
    if Front(g.prefix) + table == g.mapping[key] {
      CutAlike(Front(g.prefix), table, Front(g.prefix), Numbered("", o.number, o.table));
    }
  }

  lemma {:induction false} NoFront(n: nat, table: string)
    ensures forall prefix :: Numbered(prefix, n, table) == Front(prefix) + Numbered("", n, table)
  {
    var rest := "T" + (CounterText(n) + TableText(table));
    assert "" + rest == rest;
  }

  /** With another prefix an alias can come up again for another key. */
  lemma {:induction false} PrefixMatters()
    ensures var g := Answer(Gen("", 0, map[]), "T1", "a").0;
            Answer(g.(prefix := "T"), "", "b").1 == g.mapping["a"]
  {
    assert Digits(1) == "1";
    assert Numbered("", 0, "T1") == "T_T1" && Numbered("T", 1, "") == "T_T1";
  }

  // ----- the generator -----

  class Generator {
    const prefix: string
    var counter: nat
    var mapping: map<string, string>

    ghost function Now(): Gen
      reads this
    {
      Gen(prefix, counter, mapping)
    }

    constructor (prefix: string)
      ensures Now() == Gen(prefix, 0, map[]) && Sound(Now())
    {
      this.prefix, counter, mapping := prefix, 0, map[];
      new;
      assert From(Now(), map[]);
    }

    constructor Clone(from: Generator)
      ensures Now() == from.Now()
    {
      prefix, counter, mapping := from.prefix, from.counter, from.mapping;
    }

    method GetTableAlias(table: string, key: string) returns (alias: string)
      modifies this
      ensures (Now(), alias) == Answer(old(Now()), table, key)
    {
      alias := if prefix != "" then prefix + "_" else "";
      if key == "" && table != "" {
        alias := alias + table;
        return;
      }
      if key in mapping {
        alias := mapping[key];
        return;
      }
      alias := NumberedFrom(alias, table);
      mapping := mapping[key := alias];
      counter := counter + 1;
    }

    method NumberedFrom(front: string, table: string) returns (alias: string)
      requires front == Front(prefix)
      ensures alias == Numbered(prefix, counter, table)
    {
      alias := front + "T" + CounterText(counter) + TableText(table);
      RegroupFour(front, "T", CounterText(counter), TableText(table));
    }
  }

  // ----- walking a path -----

  type Model = int

  /** A field of a model; a relation leads to another model. */
  datatype Field = Field(related: Option<Model>)

  datatype Schema = Schema(fields: map<(Model, string), Field>, tables: Model -> string)

  /** No field is called by the empty name. */
  ghost predicate WellNamed(s: Schema) {
    forall k :: k in s.fields ==> k.1 != ""
  }

  datatype Walked = Walked(definer: Model, parent: Option<Model>, field: Field, chain: seq<string>, aliases: seq<string>)

  /** The model a chain of relations leads to. */
  function Reach(s: Schema, m: Model, chain: seq<string>): Option<Model>
    decreases |chain|
  {
    if chain == [] then Some(m)
    else match Reach(s, m, chain[..|chain| - 1])
      case None => None
      case Some(at) =>
        var key := (at, chain[|chain| - 1]);
        if key in s.fields then s.fields[key].related else None
  }

  /** The path leads over relations to a field. */
  predicate Leads(s: Schema, m: Model, parts: seq<string>)
    requires parts != []
  {
    var at := Reach(s, m, parts[..|parts| - 1]);
    at.Some? && (at.value, parts[|parts| - 1]) in s.fields
  }

  /** The key of relation `i` of a chain. */
  function KeyAt(chain: seq<string>, i: nat): string
    requires i < |chain|
  {
    Join(chain[..i + 1])
  }

  /** The aliases of the chain prefixes. */
  ghost predicate AliasesOf(g: Gen, chain: seq<string>, aliases: seq<string>) {
    |aliases| == |chain| && forall i :: 0 <= i < |chain| ==> KeyAt(chain, i) in g.mapping && aliases[i] == g.mapping[KeyAt(chain, i)]
  }

  lemma {:induction false} AliasesKept(g: Gen, h: Gen, chain: seq<string>, aliases: seq<string>)
    requires AliasesOf(g, chain, aliases) && Extends(g, h)
    ensures AliasesOf(h, chain, aliases)
  {
  }

  lemma {:induction false} JoinNotEmpty(parts: seq<string>)
    requires parts != [] && parts[0] != ""
    ensures Join(parts) != ""
  {
  }

  lemma {:induction false} NoReach(s: Schema, m: Model, chain: seq<string>, n: nat)
    requires n <= |chain| && Reach(s, m, chain[..n]).None?
    ensures Reach(s, m, chain).None?
    decreases |chain|
  {
    if n < |chain| {
      assert chain[..|chain| - 1][..n] == chain[..n];
      NoReach(s, m, chain[..|chain| - 1], n);
    } else {
      assert chain[..n] == chain;
    }
  }

  lemma {:induction false} KeysAt(chain: seq<string>, part: string)
    ensures KeyAt(chain + [part], |chain|) == Join(chain + [part])
    ensures forall i :: 0 <= i < |chain| ==> KeyAt(chain + [part], i) == KeyAt(chain, i)
  {
    var all := chain + [part];
    assert all[..|chain| + 1] == all;
    forall i | 0 <= i < |chain| ensures KeyAt(all, i) == KeyAt(chain, i) {
      assert all[..i + 1] == chain[..i + 1];
    }
  }

  lemma {:induction false} AliasesMore(g: Gen, chain: seq<string>, aliases: seq<string>, part: string, alias: string)
    requires AliasesOf(g, chain, aliases) && Join(chain + [part]) in g.mapping && alias == g.mapping[Join(chain + [part])]
    ensures AliasesOf(g, chain + [part], aliases + [alias])
  {
    KeysAt(chain, part);
  }

  lemma {:induction false} OneAlias(before: Gen, now: Gen, chain: seq<string>, aliases: seq<string>, table: string, part: string, alias: string)
    requires Sound(before) && AliasesOf(before, chain, aliases) && (chain + [part])[0] != ""
    requires (now, alias) == Answer(before, table, Join(chain + [part]))
    ensures Sound(now) && Extends(before, now) && AliasesOf(now, chain + [part], aliases + [alias])
  {
    AnswerKeeps(before, table, Join(chain + [part]));
    AliasesKept(before, now, chain, aliases);
    JoinNotEmpty(chain + [part]);
    AliasesMore(now, chain, aliases, part, alias);
  }

  /** Walk to a field and ask for an alias at every relation on the way. */
  method WalkFields(s: Schema, m: Model, column: string, gen: Generator) returns (r: Result<Walked>)
    requires WellNamed(s) && Sound(gen.Now())
    modifies gen
    ensures Sound(gen.Now()) && Extends(old(gen.Now()), gen.Now())
    ensures r.Ok? <==> Leads(s, m, Split(column))
    ensures r.Ok? ==> r.value.chain == Split(column)[..|Split(column)| - 1] && AliasesOf(gen.Now(), r.value.chain, r.value.aliases)
    ensures r.Ok? ==> Reach(s, m, r.value.chain) == Some(r.value.definer)
                      && s.fields[(r.value.definer, Split(column)[|Split(column)| - 1])] == r.value.field
    ensures r.Ok? && r.value.chain != [] ==> r.value.parent == Reach(s, m, r.value.chain[..|r.value.chain| - 1])
  {
    var parts := Split(column);
    var chain, aliases, current: Model, parent: Option<Model> := [], [], m, None;
    for i := 0 to |parts|
      invariant i < |parts| && chain == parts[..i] && Reach(s, m, chain) == Some(current)
      invariant i > 0 ==> parts[0] != "" && parent == Reach(s, m, chain[..i - 1])
      invariant Sound(gen.Now()) && Extends(old(gen.Now()), gen.Now()) && AliasesOf(gen.Now(), chain, aliases)
    {
      var part := parts[i];
      if (current, part) !in s.fields {
        Stuck(s, m, parts, i);
        return Panic;
      }
      var f := s.fields[(current, part)];
      if i == |parts| - 1 {
        return Ok(Walked(current, parent, f, chain, aliases));
      }
      if f.related.None? {
        Stuck(s, m, parts, i);
        return Panic;
      }
      Further(s, m, parts, i);
      parent, current := Some(current), f.related.value;
      chain, aliases := Extend(s, current, chain, aliases, part, gen);
    }
    assert false;
  }

  /** One relation more, with its alias. */
  method Extend(s: Schema, current: Model, chain: seq<string>, aliases: seq<string>, part: string, gen: Generator)
      returns (longer: seq<string>, withOwn: seq<string>)
    requires Sound(gen.Now()) && AliasesOf(gen.Now(), chain, aliases) && (chain + [part])[0] != ""
    modifies gen
    ensures longer == chain + [part]
    ensures Sound(gen.Now()) && Extends(old(gen.Now()), gen.Now()) && AliasesOf(gen.Now(), longer, withOwn)
  {
    ghost var before := gen.Now();
    longer := chain + [part];
    var alias := gen.GetTableAlias(s.tables(current), Join(longer));
    OneAlias(before, gen.Now(), chain, aliases, s.tables(current), part, alias);
    withOwn := aliases + [alias];
  }

  lemma {:induction false} Further(s: Schema, m: Model, parts: seq<string>, i: nat)
    requires WellNamed(s) && i < |parts| && Reach(s, m, parts[..i]).Some? && (Reach(s, m, parts[..i]).value, parts[i]) in s.fields
    ensures parts[i] != "" && parts[..i + 1] == parts[..i] + [parts[i]] && parts[..i + 1][..i] == parts[..i]
    ensures Reach(s, m, parts[..i + 1]) == s.fields[(Reach(s, m, parts[..i]).value, parts[i])].related
  {
    var c := parts[..i + 1];
    assert |c| == i + 1 && c[i] == parts[i];
    assert c[..|c| - 1] == parts[..i];
  }

  /** Where the walk stops the path leads nowhere. */
  lemma {:induction false} Stuck(s: Schema, m: Model, parts: seq<string>, i: nat)
    requires i < |parts| && Reach(s, m, parts[..i]).Some?
    requires var key := (Reach(s, m, parts[..i]).value, parts[i]);
             key !in s.fields || (i < |parts| - 1 && s.fields[key].related.None?)
    ensures !Leads(s, m, parts)
  {
    if i < |parts| - 1 {
      assert parts[..i + 1][..i] == parts[..i];
      assert parts[..|parts| - 1][..i + 1] == parts[..i + 1];
      NoReach(s, m, parts[..|parts| - 1], i + 1);
    }
  }

  // ----- selecting and resolving agree -----

  lemma {:induction false} SameKeys(a: seq<string>, i: nat, b: seq<string>, j: nat)
    requires Dotless(a) && Dotless(b) && i < |a| && j < |b|
    ensures KeyAt(a, i) == KeyAt(b, j) <==> a[..i + 1] == b[..j + 1]
  {
    SplitJoin(a[..i + 1]);
    SplitJoin(b[..j + 1]);
  }

  /** Two walks in one generator give the same alias exactly where their paths are the same so
      far. */
  lemma {:induction false} SharedPrefixes(g: Gen, a: seq<string>, x: seq<string>, b: seq<string>, y: seq<string>, i: nat, j: nat)
    requires Sound(g) && AliasesOf(g, a, x) && AliasesOf(g, b, y) && Dotless(a) && Dotless(b) && i < |a| && j < |b|
    ensures x[i] == y[j] <==> a[..i + 1] == b[..j + 1]
  {
    AliasesDiffer(g, KeyAt(a, i), KeyAt(b, j));
    SameKeys(a, i, b, j);
  }

  lemma {:induction false} LeadsFurther(s: Schema, m: Model, parts: seq<string>)
    requires WellNamed(s) && parts != [] && Leads(s, m, parts)
    ensures var n := |parts| - 1;
            && parts[..n] + [parts[n]] == parts && parts[0] != ""
            && Reach(s, m, parts) == s.fields[(Reach(s, m, parts[..n]).value, parts[n])].related
  {
    var n := |parts| - 1;
    Further(s, m, parts, n);
    assert parts[..n + 1] == parts;
    if n > 0 {
      FirstNamed(s, m, parts[..n]);
    }
  }

  lemma {:induction false} FirstNamed(s: Schema, m: Model, chain: seq<string>)
    requires WellNamed(s) && chain != [] && Reach(s, m, chain).Some?
    ensures chain[0] != ""
    decreases |chain|
  {
    if |chain| > 1 {
      FirstNamed(s, m, chain[..|chain| - 1]);
    }
  }

  /** Selecting all fields of a relation: the path leads to the relation, which then joins the
      chain with an alias of its own. */
  method SelectRelation(s: Schema, m: Model, column: string, gen: Generator) returns (r: Result<(seq<string>, seq<string>)>)
    requires WellNamed(s) && Sound(gen.Now())
    modifies gen
    ensures Sound(gen.Now()) && Extends(old(gen.Now()), gen.Now())
    ensures r.Ok? <==> Leads(s, m, Split(column)) && Reach(s, m, Split(column)).Some?
    ensures r.Ok? ==> r.value.0 == Split(column) && AliasesOf(gen.Now(), r.value.0, r.value.1)
  {
    var parts := Split(column);
    var w := WalkFields(s, m, column, gen);
    if w.Panic? || w.value.field.related.None? {
      return Panic;
    }
    LeadsFurther(s, m, parts);
    var chain, aliases := Extend(s, w.value.field.related.value, w.value.chain, w.value.aliases, parts[|parts| - 1], gen);
    return Ok((chain, aliases));
  }

  /** So an expression that names a field below a selected relation resolves to the alias the
      selection joined it under, and two relations are joined under different aliases. */
  method SelectThenResolve(s: Schema, m: Model, selected: string, named: string, gen: Generator)
      returns (sel: Result<(seq<string>, seq<string>)>, res: Result<Walked>)
    requires WellNamed(s) && Sound(gen.Now())
    modifies gen
    ensures sel.Ok? && res.Ok? ==>
              && |sel.value.1| == |sel.value.0| && |res.value.aliases| == |res.value.chain|
              && forall i, j :: 0 <= i < |sel.value.1| && 0 <= j < |res.value.aliases| ==>
                   (sel.value.1[i] == res.value.aliases[j] <==> sel.value.0[..i + 1] == res.value.chain[..j + 1])
  {
    hide Split, Join, Sound, Extends, AliasesOf;
    sel := SelectRelation(s, m, selected, gen);
    ghost var before := gen.Now();
    res := WalkFields(s, m, named, gen);
    if sel.Ok? && res.Ok? {
      AliasesKept(before, gen.Now(), sel.value.0, sel.value.1);
      JoinSplit(selected);
      JoinSplit(named);
      forall i, j | 0 <= i < |sel.value.1| && 0 <= j < |res.value.aliases|
        ensures sel.value.1[i] == res.value.aliases[j] <==> sel.value.0[..i + 1] == res.value.chain[..j + 1]
      {
        SharedPrefixes(gen.Now(), sel.value.0, sel.value.1, res.value.chain, res.value.aliases, i, j);
      }
    }
  }
}
