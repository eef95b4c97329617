/** Select: paths are walked, joins planned for their relations and for the proxies of the models
    they reach, and every join added once. */
module JoinPlanner {
  import opened AliasGenerator
  import opened JoinPlans
  import opened Outcomes
  import Projection
  import DedupeForest
  import opened Sequences

  type FieldDef = Projection.FieldDef
  type Info = Projection.Info

  /** The proxy fields of a model and, below them, those of the models they lead to. */
  datatype Proxies = NoProxies | Proxy(name: string, field: Detail, rel: Relation, picked: seq<FieldDef>, below: Proxies, rest: Proxies)

  /** The models with the details of their fields and their proxies; the fields that selecting all
      of a model selects, each field by itself, and the model and fields of a table between. */
  datatype Catalog = Catalog(
    walk: Schema,
    details: map<(Model, string), Detail>,
    proxies: Model -> Proxies,
    select: Model -> seq<FieldDef>,
    field: (Model, string) -> FieldDef,
    between: string -> (Model, seq<FieldDef>))

  /** Every field has its details, and they say the same of its relation. */
  ghost predicate Consistent(c: Catalog) {
    && WellNamed(c.walk)
    && (forall k :: k in c.walk.fields <==> k in c.details)
    && (forall k :: k in c.details ==>
          c.walk.fields[k].related == (if c.details[k].rel.Some? then Some(c.details[k].rel.value.model) else None))
    && (forall m :: ProxiesNamed(c.proxies(m)))
  }

  /** Proxies have names, without dots. */
  predicate ProxiesNamed(ps: Proxies) {
    match ps
    case NoProxies => true
    case Proxy(name, _, _, _, below, rest) => name != "" && NoDot(name) && ProxiesNamed(below) && ProxiesNamed(rest)
  }

  // ----- what a selection asks for -----

  /** The proxies of a model reached by a chain, each before those below it. */
  function ProxyOrigins(ps: Proxies, chain: seq<string>): seq<Origin> {
    match ps
    case NoProxies => []
    case Proxy(name, field, rel, picked, below, rest) =>
      [Origin(chain + [name], field, rel, Proxied, picked)] + ProxyOrigins(below, chain + [name]) + ProxyOrigins(rest, chain)
  }

  /** The joins of one relation: directly, or over the table between. */
  function RelationOrigins(c: Catalog, path: seq<string>, field: Detail, rel: Relation, picked: seq<FieldDef>): Result<seq<Origin>> {
    var after := ProxyOrigins(c.proxies(rel.model), path);
    if rel.kind == ManyToMany || (rel.kind == OneToOne && rel.through.Some?) then
      if rel.through.None? then Panic
      else Ok([Origin(path, field, rel, Through, []), Origin(path, field, rel, Target, picked)] + after)
    else Ok([Origin(path, field, rel, Direct, picked)] + after)
  }

  /** A trailing star asks for all fields; the dot before it goes too. */
  function ParseItem(s: string): (string, bool) {
    if s == "" || s[|s| - 1] != '*' then (s, false)
    else
      var t := s[..|s| - 1];
      if t != "" && t[|t| - 1] == '.' then (t[..|t| - 1], true) else (t, true)
  }

  /** The relation a path is joined by: its own, when all fields of it are asked for; else that
      of the last relation before the field, unless the field is a relation itself. */
  function PathOrigins(c: Catalog, root: Model, parts: seq<string>, all: bool): Result<seq<Origin>>
    requires Consistent(c) && parts != [] && Leads(c.walk, root, parts)
  {
    var n := |parts| - 1;
    var d := c.details[(Reach(c.walk, root, parts[..n]).value, parts[n])];
    if d.rel.Some? && all then RelationOrigins(c, parts, d, d.rel.value, c.select(d.rel.value.model))
    else if n == 0 then Ok(ProxyOrigins(c.proxies(root), []))
    else
      var up := UpTo(c, root, parts[..n]);
      var rel := if d.rel.Some? then d.rel.value else up.rel.value;
      RelationOrigins(c, parts[..n], up, rel, PickedOf(c, rel.model, Reach(c.walk, root, parts[..n]).value, parts[n], all))
  }

  /** The fields selected over a relation: all of the model it leads to, or the one named. */
  function PickedOf(c: Catalog, model: Model, definer: Model, name: string, all: bool): seq<FieldDef> {
    if all then c.select(model) else [c.field(definer, name)]
  }

  /** The last field of a chain of relations. */
  function UpTo(c: Catalog, root: Model, chain: seq<string>): (d: Detail)
    requires Consistent(c) && chain != [] && Reach(c.walk, root, chain).Some?
    ensures d.rel.Some? && d.rel.value.model == Reach(c.walk, root, chain).value
  {
    var n := |chain| - 1;
    assert chain[..|chain| - 1] == chain[..n];
    c.details[(Reach(c.walk, root, chain[..n]).value, chain[n])]
  }

  predicate Annotated(annotations: seq<FieldDef>, name: string) {
    annotations != [] && (annotations[0].name == name || Annotated(annotations[1..], name))
  }

  function AnnotationNamed(annotations: seq<FieldDef>, name: string): FieldDef
    requires Annotated(annotations, name)
  {
    if annotations[0].name == name then annotations[0] else AnnotationNamed(annotations[1..], name)
  }

  /** What a path asks for; one that leads nowhere may be an annotation. */
  function NamedOrigins(c: Catalog, root: Model, annotations: seq<FieldDef>, path: string, all: bool): Result<seq<Origin>>
    requires Consistent(c)
  {
    if Leads(c.walk, root, Split(path)) then PathOrigins(c, root, Split(path), all)
    else if Annotated(annotations, path) then Ok([]) else Panic
  }

  function ItemOrigins(c: Catalog, root: Model, annotations: seq<FieldDef>, item: string): Result<seq<Origin>>
    requires Consistent(c)
  {
    var (path, all) := ParseItem(item);
    if path == "" then if all then Ok(ProxyOrigins(c.proxies(root), [])) else Panic
    else NamedOrigins(c, root, annotations, path, all)
  }

  function AllOrigins(c: Catalog, root: Model, annotations: seq<FieldDef>, items: seq<string>): Result<seq<Origin>>
    requires Consistent(c)
    decreases |items|
  {
    if items == [] then Ok([])
    else
      var n := |items| - 1;
      var before :- AllOrigins(c, root, annotations, items[..n]);
      var last :- ItemOrigins(c, root, annotations, items[n]);
      Ok(before + last)
  }

  // ----- selecting in order -----

  /** What a selection asks for needs at most the parent of its path. */
  lemma {:induction false} ProxiesCovered(before: seq<Origin>, ps: Proxies, chain: seq<string>)
    requires AllCovered(before) && (chain != [] ==> GivenBy(before, Own(chain)))
    ensures AllCovered(before + ProxyOrigins(ps, chain))
    decreases ps
  {
    match ps
    case NoProxies =>
      assert before + ProxyOrigins(ps, chain) == before;
    case Proxy(name, field, rel, picked, below, rest) =>
      var o, path := Origin(chain + [name], field, rel, Proxied, picked), chain + [name];
      assert path[..|path| - 1] == chain;
      CoveredOne(before, o);
      GivenMore(before, o, Own(chain));
      ProxiesCovered(before + [o], below, path);
      var mid := before + [o] + ProxyOrigins(below, path);
      GivenLater(before + [o], ProxyOrigins(below, path), Own(chain));
      ProxiesCovered(mid, rest, chain);
      assert before + ProxyOrigins(ps, chain) == mid + ProxyOrigins(rest, chain);
  }

  lemma {:induction false} CoveredOne(before: seq<Origin>, o: Origin)
    requires AllCovered(before) && (Needs(o).Some? ==> GivenBy(before, Needs(o).value))
    ensures AllCovered(before + [o]) && GivenBy(before + [o], Gives(o))
  {
    var all, n := before + [o], |before|;
    assert all[n] == o && all[..n] == before;
    forall k | 0 <= k < |all| ensures Covered(all, k) {
      if k < n {
        assert Covered(before, k) && all[k] == before[k];
        if Needs(all[k]).Some? {
          var j :| 0 <= j < k && Gives(before[j]) == Needs(before[k]).value;
          assert Gives(all[j]) == Needs(all[k]).value;
        }
      } else if Needs(o).Some? {
        var j :| 0 <= j < n && Gives(before[j]) == Needs(o).value;
        assert Gives(all[j]) == Needs(all[k]).value;
      }
    }
  }

  lemma {:induction false} GivenMore(before: seq<Origin>, o: Origin, name: Name)
    ensures GivenBy(before, name) ==> GivenBy(before + [o], name)
  {
    GivenLater(before, [o], name);
  }

  lemma {:induction false} GivenLater(before: seq<Origin>, more: seq<Origin>, name: Name)
    ensures GivenBy(before, name) ==> GivenBy(before + more, name)
  {
    if GivenBy(before, name) {
      var j :| 0 <= j < |before| && Gives(before[j]) == name;
      assert Gives((before + more)[j]) == name;
    }
  }

  /** A relation whose parent path was joined before brings only joins in scope. */
  lemma {:induction false} RelationCovered(c: Catalog, before: seq<Origin>, path: seq<string>, field: Detail, rel: Relation, picked: seq<FieldDef>)
    requires AllCovered(before) && path != [] && RelationOrigins(c, path, field, rel, picked).Ok?
    requires |path| > 1 ==> GivenBy(before, Own(path[..|path| - 1]))
    ensures AllCovered(before + RelationOrigins(c, path, field, rel, picked).value)
    ensures GivenBy(before + RelationOrigins(c, path, field, rel, picked).value, Own(path))
  {
    var after := ProxyOrigins(c.proxies(rel.model), path);
    var mid: seq<Origin>;
    if rel.kind == ManyToMany || (rel.kind == OneToOne && rel.through.Some?) {
      var a, b := Origin(path, field, rel, Through, []), Origin(path, field, rel, Target, picked);
      CoveredOne(before, a);
      CoveredOne(before + [a], b);
      mid := before + [a] + [b];
    } else {
      var o := Origin(path, field, rel, Direct, picked);
      CoveredOne(before, o);
      mid := before + [o];
    }
    ProxiesCovered(mid, c.proxies(rel.model), path);
    assert before + RelationOrigins(c, path, field, rel, picked).value == mid + after;
    GivenLater(mid, after, Own(path));
  }

  /** The chain of relations an item joins. */
  function ChainOf(c: Catalog, root: Model, item: string): seq<string>
    requires Consistent(c)
  {
    var (path, all) := ParseItem(item);
    var parts := Split(path);
    if path == "" || !Leads(c.walk, root, parts) then []
    else
      var n := |parts| - 1;
      if c.details[(Reach(c.walk, root, parts[..n]).value, parts[n])].rel.Some? && all then parts else parts[..n]
  }

  lemma {:induction false} ItemCovered(c: Catalog, root: Model, annotations: seq<FieldDef>, before: seq<Origin>, item: string)
    requires Consistent(c) && AllCovered(before) && ItemOrigins(c, root, annotations, item).Ok?
    requires var p := ChainOf(c, root, item); |p| > 1 ==> GivenBy(before, Own(p[..|p| - 1]))
    ensures var p, after := ChainOf(c, root, item), before + ItemOrigins(c, root, annotations, item).value;
            AllCovered(after) && (p != [] ==> GivenBy(after, Own(p)))
  {
    var (path, all) := ParseItem(item);
    var parts, p := Split(path), ChainOf(c, root, item);
    if path == "" || !Leads(c.walk, root, parts) {
      ProxiesCovered(before, c.proxies(root), []);
      assert before + [] == before;
    } else {
      var n := |parts| - 1;
      var d := c.details[(Reach(c.walk, root, parts[..n]).value, parts[n])];
      if d.rel.Some? && all {
        RelationCovered(c, before, p, d, d.rel.value, c.select(d.rel.value.model));
      } else if n == 0 {
        ProxiesCovered(before, c.proxies(root), []);
      } else {
        var up := UpTo(c, root, parts[..n]);
        var rel := if d.rel.Some? then d.rel.value else up.rel.value;
        RelationCovered(c, before, p, up, rel, PickedOf(c, rel.model, Reach(c.walk, root, parts[..n]).value, parts[n], all));
      }
    }
  }

  // ----- aliases of chains and the joins made with them -----

  /** A chain of named relations with its aliases. */
  ghost predicate ChainKnown(g: Gen, chain: seq<string>, aliases: seq<string>) {
    AliasesOf(g, chain, aliases) && Dotless(chain) && (chain != [] ==> chain[0] != "")
  }

  ghost predicate PathsKnown(g: Gen, os: seq<JoinPlans.Origin>) {
    forall i :: 0 <= i < |os| ==> PathKnown(g, os[i].path)
  }

  /** The alias of the table a chain hangs on. */
  function LeftAlias(base: string, aliases: seq<string>): string {
    if |aliases| > 1 then aliases[|aliases| - 2] else base
  }

  lemma {:induction false} ChainPath(base: string, g: Gen, chain: seq<string>, aliases: seq<string>, o: JoinPlans.Origin)
    requires ChainKnown(g, chain, aliases) && chain != [] && o.path == chain
    ensures PathKnown(g, chain) && Alias(g, chain) == aliases[|chain| - 1]
    ensures o.kind != Target ==> LeftText(base, g, o) == LeftAlias(base, aliases)
  {
    var n := |chain| - 1;
    assert chain[..n + 1] == chain;
    assert KeyAt(chain, n) in g.mapping && aliases[n] == g.mapping[KeyAt(chain, n)];
    if n > 0 {
      assert KeyAt(chain, n - 1) in g.mapping && aliases[n - 1] == g.mapping[KeyAt(chain, n - 1)];
    }
  }

  lemma {:induction false} JoinKept(base: string, g: Gen, h: Gen, o: JoinPlans.Origin)
    requires PathKnown(g, o.path) && Extends(g, h)
    ensures PathKnown(h, o.path) && JoinAt(base, g, o) == JoinAt(base, h, o)
  {
    assert Alias(g, o.path) == Alias(h, o.path);
    assert LeftText(base, g, o) == LeftText(base, h, o);
  }

  lemma {:induction false} JoinsKept(base: string, g: Gen, h: Gen, os: seq<JoinPlans.Origin>)
    requires PathsKnown(g, os) && Extends(g, h)
    ensures PathsKnown(h, os) && JoinsOf(base, g, os) == JoinsOf(base, h, os)
  {
    forall i | 0 <= i < |os| ensures PathKnown(h, os[i].path) && JoinAt(base, g, os[i]) == JoinAt(base, h, os[i]) {
      JoinKept(base, g, h, os[i]);
    }
  }

  lemma {:induction false} JoinsThen(base: string, g: Gen, a: seq<JoinPlans.Origin>, b: seq<JoinPlans.Origin>)
    ensures JoinsOf(base, g, a + b) == JoinsOf(base, g, a) + JoinsOf(base, g, b)
    ensures PathsKnown(g, a) && PathsKnown(g, b) ==> PathsKnown(g, a + b)
  {
  }

  lemma {:induction false} ChainKept(g: Gen, h: Gen, chain: seq<string>, aliases: seq<string>)
    requires ChainKnown(g, chain, aliases) && Extends(g, h)
    ensures ChainKnown(h, chain, aliases)
  {
    AliasesKept(g, h, chain, aliases);
  }

  /** One join of a chain. */
  function ChainJoin(base: string, aliases: seq<string>, field: Detail, rel: Relation, column: string): JoinDef
    requires aliases != []
  {
    var own := aliases[|aliases| - 1];
    JoinDef(rel.table, own, ClauseKind(field, rel), Condition(field, LeftAlias(base, aliases), own, column))
  }

  lemma {:induction false} ChainJoinIs(base: string, g: Gen, chain: seq<string>, aliases: seq<string>, o: JoinPlans.Origin)
    requires ChainKnown(g, chain, aliases) && chain != [] && o.path == chain && (o.kind == Direct || o.kind == Proxied)
    ensures PathKnown(g, chain)
    ensures JoinAt(base, g, o) == ChainJoin(base, aliases, o.field, o.rel, if o.kind == Direct then o.rel.column else o.field.target)
  {
    ChainPath(base, g, chain, aliases, o);
  }

  /** Some joins are what some origins make of them. */
  ghost predicate Made(base: string, g: Gen, os: seq<JoinPlans.Origin>, js: seq<JoinDef>) {
    PathsKnown(g, os) && js == JoinsOf(base, g, os)
  }

  lemma {:induction false} MadeThen(base: string, g: Gen, a: seq<JoinPlans.Origin>, js: seq<JoinDef>,
                                    h: Gen, b: seq<JoinPlans.Origin>, more: seq<JoinDef>)
    requires Made(base, g, a, js) && Made(base, h, b, more) && Extends(g, h)
    ensures Made(base, h, a + b, js + more)
  {
    JoinsKept(base, g, h, a);
    JoinsThen(base, h, a, b);
  }

  lemma {:induction false} MadeOne(base: string, g: Gen, o: JoinPlans.Origin, j: JoinDef)
    requires PathKnown(g, o.path) && j == JoinAt(base, g, o)
    ensures Made(base, g, [o], [j])
  {
  }

  // ----- the fields that joins select -----

  function ScanType(kind: RelType): DedupeForest.RelType {
    match kind
    case ManyToOne => DedupeForest.ManyToOne
    case OneToMany => DedupeForest.OneToMany
    case OneToOne => DedupeForest.OneToOne
    case ManyToMany => DedupeForest.ManyToMany
  }

  /** What is selected over the table between. */
  function ThroughInfo(c: Catalog, rel: Relation, between: string): Projection.Through {
    var (model, fields) := c.between(TableBetween(rel).table);
    Projection.Through(model, between, fields)
  }

  function InfoFor(c: Catalog, g: Gen, o: JoinPlans.Origin): Info {
    Projection.Info(Some(o.rel.model), ScanType(o.rel.kind), true, NameText(g, Own(o.path)), o.path, o.picked,
                    if o.kind == Target then Some(ThroughInfo(c, o.rel, NameText(g, Before(o.path)))) else None)
  }

  /** One info for every relation; a table between belongs to the info of its target. */
  function InfosFor(c: Catalog, g: Gen, os: seq<JoinPlans.Origin>): seq<Info>
    decreases |os|
  {
    if os == [] then []
    else
      var n := |os| - 1;
      InfosFor(c, g, os[..n]) + (if os[n].kind == Through then [] else [InfoFor(c, g, os[n])])
  }

  lemma {:induction false} InfosThen(c: Catalog, g: Gen, a: seq<JoinPlans.Origin>, b: seq<JoinPlans.Origin>)
    ensures InfosFor(c, g, a + b) == InfosFor(c, g, a) + InfosFor(c, g, b)
    decreases |b|
  {
    hide InfoFor;
    if b == [] {
      assert a + b == a;
    } else {
      var n, all := |b| - 1, a + b;
      InfosThen(c, g, a, b[..n]);
      assert all[..|all| - 1] == a + b[..n] && all[|all| - 1] == b[n];
      var last := if b[n].kind == Through then [] else [InfoFor(c, g, b[n])];
      assert InfosFor(c, g, all) == InfosFor(c, g, a + b[..n]) + last;
      Regroup(InfosFor(c, g, a), InfosFor(c, g, b[..n]), last);
    }
  }

  lemma {:induction false} InfosKept(c: Catalog, g: Gen, h: Gen, os: seq<JoinPlans.Origin>)
    requires PathsKnown(g, os) && Extends(g, h)
    ensures PathsKnown(h, os) && InfosFor(c, g, os) == InfosFor(c, h, os)
    decreases |os|
  {
    JoinsKept("", g, h, os);
    if os != [] {
      var n := |os| - 1;
      InfosKept(c, g, h, os[..n]);
      assert PathKnown(g, os[n].path) && Alias(g, os[n].path) == Alias(h, os[n].path);
    }
  }

  /** Some infos are those of some origins. */
  ghost predicate Listed(c: Catalog, g: Gen, os: seq<JoinPlans.Origin>, infos: seq<Info>) {
    PathsKnown(g, os) && infos == InfosFor(c, g, os)
  }

  lemma {:induction false} ListedThen(c: Catalog, g: Gen, a: seq<JoinPlans.Origin>, infos: seq<Info>,
                                      h: Gen, b: seq<JoinPlans.Origin>, more: seq<Info>)
    requires Listed(c, g, a, infos) && Listed(c, h, b, more) && Extends(g, h)
    ensures Listed(c, h, a + b, infos + more)
  {
    InfosKept(c, g, h, a);
    InfosThen(c, h, a, b);
  }

  lemma {:induction false} ListedOne(c: Catalog, g: Gen, o: JoinPlans.Origin, info: Info)
    requires PathKnown(g, o.path) && o.kind != Through && info == InfoFor(c, g, o)
    ensures Listed(c, g, [o], [info])
  {
    assert [o][..0] == [];
  }

  /** The info of the last relation of a chain. */
  function ChainInfo(chain: seq<string>, aliases: seq<string>, rel: Relation, picked: seq<FieldDef>): Info
    requires aliases != []
  {
    Projection.Info(Some(rel.model), ScanType(rel.kind), true, aliases[|aliases| - 1], chain, picked, None)
  }

  lemma {:induction false} ChainListed(base: string, c: Catalog, g: Gen, chain: seq<string>, aliases: seq<string>, o: JoinPlans.Origin)
    requires ChainKnown(g, chain, aliases) && chain != [] && o.path == chain && (o.kind == Direct || o.kind == Proxied)
    ensures Listed(c, g, [o], [ChainInfo(chain, aliases, o.rel, o.picked)])
  {
    ChainPath(base, g, chain, aliases, o);
    ListedOne(c, g, o, ChainInfo(chain, aliases, o.rel, o.picked));
  }

  // ----- proxies -----

  /** One proxy and those below it. */
  function OneProxy(p: Proxies, chain: seq<string>): seq<JoinPlans.Origin>
    requires p.Proxy?
  {
    [JoinPlans.Origin(chain + [p.name], p.field, p.rel, Proxied, p.picked)] + ProxyOrigins(p.below, chain + [p.name])
  }

  lemma {:induction false} NextProxy(c: Catalog, base: string, start: Gen, g: Gen, h: Gen, chain: seq<string>, aliases: seq<string>,
                                     done: seq<JoinPlans.Origin>, js: seq<JoinDef>, infos: seq<Info>,
                                     p: Proxies, more: seq<JoinDef>, moreInfos: seq<Info>)
    requires ChainKnown(g, chain, aliases) && Made(base, g, done, js) && p.Proxy? && Made(base, h, OneProxy(p, chain), more)
    requires Listed(c, g, done, infos) && Listed(c, h, OneProxy(p, chain), moreInfos)
    requires Extends(start, g) && Extends(g, h)
    ensures Listed(c, h, done + OneProxy(p, chain), infos + moreInfos)
    ensures ChainKnown(h, chain, aliases) && Made(base, h, done + OneProxy(p, chain), js + more) && Extends(start, h)
    ensures done + ProxyOrigins(p, chain) == done + OneProxy(p, chain) + ProxyOrigins(p.rest, chain)
  {
    ChainKept(g, h, chain, aliases);
    MadeThen(base, g, done, js, h, OneProxy(p, chain), more);
    ListedThen(c, g, done, infos, h, OneProxy(p, chain), moreInfos);
  }

  /** The joins and infos of all proxies of a model, in the order of its fields. */
  method AddSubProxies(c: Catalog, base: string, ps: Proxies, chain: seq<string>, aliases: seq<string>, gen: Generator)
      returns (js: seq<JoinDef>, infos: seq<Info>)
    requires ProxiesNamed(ps) && Sound(gen.Now()) && ChainKnown(gen.Now(), chain, aliases)
    modifies gen
    ensures Sound(gen.Now()) && Extends(old(gen.Now()), gen.Now())
    ensures Made(base, gen.Now(), ProxyOrigins(ps, chain), js) && Listed(c, gen.Now(), ProxyOrigins(ps, chain), infos)
    decreases ps
  {
    var cur := ps;
    js, infos := [], [];
    ghost var done: seq<JoinPlans.Origin>, start := [], gen.Now();
    while cur.Proxy?
      invariant done + ProxyOrigins(cur, chain) == ProxyOrigins(ps, chain)
      invariant ProxiesNamed(cur) && Sound(gen.Now()) && Extends(start, gen.Now())
      invariant ChainKnown(gen.Now(), chain, aliases) && Made(base, gen.Now(), done, js) && Listed(c, gen.Now(), done, infos)
      invariant cur == ps || cur < ps
      decreases cur
    {
      ghost var before := gen.Now();
      var more, moreInfos := AddProxy(c, base, cur, chain, aliases, gen);
      NextProxy(c, base, start, before, gen.Now(), chain, aliases, done, js, infos, cur, more, moreInfos);
      js, infos, done, cur := js + more, infos + moreInfos, done + OneProxy(cur, chain), cur.rest;
    }
    assert done + [] == done;
  }

  method AddProxy(c: Catalog, base: string, p: Proxies, chain: seq<string>, aliases: seq<string>, gen: Generator)
      returns (js: seq<JoinDef>, infos: seq<Info>)
    requires p.Proxy? && ProxiesNamed(p) && Sound(gen.Now()) && ChainKnown(gen.Now(), chain, aliases)
    modifies gen
    ensures Sound(gen.Now()) && Extends(old(gen.Now()), gen.Now())
    ensures Made(base, gen.Now(), OneProxy(p, chain), js) && Listed(c, gen.Now(), OneProxy(p, chain), infos)
    decreases p, 0
  {
    var longer, named := Extend(c.walk, p.rel.model, chain, aliases, p.name, gen);
    ghost var o, g := JoinPlans.Origin(longer, p.field, p.rel, Proxied, p.picked), gen.Now();
    ChainJoinIs(base, g, longer, named, o);
    ChainListed(base, c, g, longer, named, o);
    var join, info := ChainJoin(base, named, p.field, p.rel, p.field.target), ChainInfo(longer, named, p.rel, p.picked);
    MadeOne(base, g, o, join);
    var below, belowInfos := AddSubProxies(c, base, p.below, longer, named, gen);
    MadeThen(base, g, [o], [join], gen.Now(), ProxyOrigins(p.below, longer), below);
    ListedThen(c, g, [o], [info], gen.Now(), ProxyOrigins(p.below, longer), belowInfos);
    js, infos := [join] + below, [info] + belowInfos;
  }

  /** A relation over a table between. */
  function OverTable(chain: seq<string>, field: Detail, rel: Relation, picked: seq<FieldDef>): seq<JoinPlans.Origin> {
    [JoinPlans.Origin(chain, field, rel, Through, []), JoinPlans.Origin(chain, field, rel, Target, picked)]
  }

  lemma {:induction false} BothListed(base: string, c: Catalog, g: Gen, chain: seq<string>, aliases: seq<string>, field: Detail,
                                      rel: Relation, picked: seq<FieldDef>)
    requires ChainKnown(g, chain, aliases) && chain != []
    ensures Listed(c, g, OverTable(chain, field, rel, picked),
                   [ChainInfo(chain, aliases, rel, picked).(through := Some(ThroughInfo(c, rel, aliases[|aliases| - 1] + "_through")))])
  {
    var a, b := JoinPlans.Origin(chain, field, rel, Through, []), JoinPlans.Origin(chain, field, rel, Target, picked);
    ChainPath(base, g, chain, aliases, a);
    ChainPath(base, g, chain, aliases, b);
    ListedOne(c, g, b, InfoFor(c, g, b));
    assert [a][..0] == [] && [a] + [b] == OverTable(chain, field, rel, picked);
    InfosThen(c, g, [a], [b]);
  }

  /** The two joins of a relation over a table. */
  lemma {:induction false} BothMade(base: string, g: Gen, chain: seq<string>, aliases: seq<string>, field: Detail, rel: Relation,
                                    picked: seq<FieldDef>, join1: JoinDef, join2: JoinDef)
    requires ChainKnown(g, chain, aliases) && chain != [] && rel.through.Some?
    requires var own := aliases[|aliases| - 1];
             var between, t := own + "_through", rel.through.value;
             && join1 == JoinDef(t.table, between, ThroughKind(field), [Pair(Col(LeftAlias(base, aliases), field.column), Col(between, t.source))])
             && join2 == JoinDef(rel.table, own, ThroughKind(field), [Pair(Col(between, t.target), Col(own, t.column))])
    ensures Made(base, g, OverTable(chain, field, rel, picked), [join1, join2])
  {
    var a, b := JoinPlans.Origin(chain, field, rel, Through, []), JoinPlans.Origin(chain, field, rel, Target, picked);
    ChainPath(base, g, chain, aliases, a);
    ChainPath(base, g, chain, aliases, b);
    MadeOne(base, g, a, join1);
    MadeOne(base, g, b, join2);
    MadeThen(base, g, [a], [join1], g, [b], [join2]);
    assert [a] + [b] == [a, b] && [join1] + [join2] == [join1, join2];
  }

  // ----- adding joins once -----

  /** The joins that are new among those of some origins, and the keys after them. */
  ghost predicate Added(base: string, g: Gen, os: seq<JoinPlans.Origin>, keys: set<KeyText>, after: set<KeyText>, js: seq<JoinDef>) {
    PathsKnown(g, os) && js == Fresh(keys, JoinsOf(base, g, os)) && after == keys + KeysOf(JoinsOf(base, g, os))
  }

  lemma {:induction false} AddedThen(base: string, g: Gen, a: seq<JoinPlans.Origin>, k0: set<KeyText>, k1: set<KeyText>, js: seq<JoinDef>,
                                     h: Gen, b: seq<JoinPlans.Origin>, k2: set<KeyText>, more: seq<JoinDef>)
    requires Added(base, g, a, k0, k1, js) && Added(base, h, b, k1, k2, more) && Extends(g, h)
    ensures Added(base, h, a + b, k0, k2, js + more)
  {
    JoinsKept(base, g, h, a);
    JoinsThen(base, h, a, b);
    FreshThen(k0, JoinsOf(base, h, a), JoinsOf(base, h, b));
    KeysTogether(k0, JoinsOf(base, h, a), JoinsOf(base, h, b));
  }

  lemma {:induction false} AddedMade(base: string, g: Gen, os: seq<JoinPlans.Origin>, keys: set<KeyText>, js: seq<JoinDef>)
    requires Made(base, g, os, js)
    ensures Added(base, g, os, keys, keys + KeysOf(js), Fresh(keys, js))
  {
  }

  lemma {:induction false} AddedNothing(base: string, g: Gen, keys: set<KeyText>)
    ensures Added(base, g, [], keys, keys, [])
  {
    assert KeysOf([]) == {};
  }

  /** The joins of a list that are not there yet; the keys of all of them are noted. */
  method Unjoined(keys: set<KeyText>, all: seq<JoinDef>) returns (js: seq<JoinDef>, after: set<KeyText>)
    ensures js == Fresh(keys, all) && after == keys + KeysOf(all)
  {
    js, after := [], keys;
    assert KeysOf(all[..0]) == {};
    for i := 0 to |all|
      invariant js == Fresh(keys, all[..i]) && after == keys + KeysOf(all[..i])
    {
      NextKey(keys, all, i);
      if Key(all[i]) !in after {
        js, after := js + [all[i]], after + {Key(all[i])};
      }
    }
    assert all[..|all|] == all;
  }

  lemma {:induction false} NextKey(keys: set<KeyText>, all: seq<JoinDef>, i: nat)
    requires i < |all|
    ensures KeysOf(all[..i + 1]) == KeysOf(all[..i]) + {Key(all[i])}
    ensures Fresh(keys, all[..i + 1]) == Fresh(keys, all[..i]) + (if Key(all[i]) in keys + KeysOf(all[..i]) then [] else [all[i]])
  {
    var next := all[..i + 1];
    assert next[..i] == all[..i] && next == all[..i] + [all[i]];
    KeysThen(all[..i], [all[i]]);
    assert KeysOf([all[i]]) == {Key(all[i])} by {
      assert Key([all[i]][0]) == Key(all[i]);
    }
  }

  // ----- what an item selects -----

  /** Fields of the root. */
  function RootInfo(base: string, root: Model, fields: seq<FieldDef>): Info {
    Projection.Info(Some(root), DedupeForest.NoRelation, false, base, [], fields, None)
  }

  /** Annotations belong to no model. */
  function AnnotationInfo(base: string, fields: seq<FieldDef>): Info {
    Projection.Info(None, DedupeForest.NoRelation, false, base, [], fields, None)
  }

  /** What a path selects from the root itself: its field, unless it leads to a relation's. */
  function PathHead(c: Catalog, base: string, root: Model, parts: seq<string>, all: bool): seq<Info>
    requires Consistent(c) && parts != [] && Leads(c.walk, root, parts)
  {
    var n := |parts| - 1;
    var d := c.details[(Reach(c.walk, root, parts[..n]).value, parts[n])];
    if (d.rel.Some? && all) || n > 0 then [] else [RootInfo(base, root, [c.field(root, parts[0])])]
  }

  function NamedHead(c: Catalog, base: string, root: Model, annotations: seq<FieldDef>, path: string, all: bool): seq<Info>
    requires Consistent(c) && NamedOrigins(c, root, annotations, path, all).Ok?
  {
    if Leads(c.walk, root, Split(path)) then PathHead(c, base, root, Split(path), all)
    else [AnnotationInfo(base, [AnnotationNamed(annotations, path)])]
  }

  /** What an item selects besides fields of joined tables, before and after those. */
  function Head(c: Catalog, base: string, root: Model, annotations: seq<FieldDef>, item: string): seq<Info>
    requires Consistent(c) && ItemOrigins(c, root, annotations, item).Ok?
  {
    var (path, all) := ParseItem(item);
    if path == "" then [RootInfo(base, root, c.select(root))] else NamedHead(c, base, root, annotations, path, all)
  }

  /** Selecting all fields of the root selects all annotations too. */
  function Rest(base: string, annotations: seq<FieldDef>, item: string): seq<Info> {
    if ParseItem(item).0 == "" && annotations != [] then [AnnotationInfo(base, annotations)] else []
  }

  function ItemInfos(c: Catalog, base: string, g: Gen, root: Model, annotations: seq<FieldDef>, item: string): seq<Info>
    requires Consistent(c) && ItemOrigins(c, root, annotations, item).Ok?
  {
    Head(c, base, root, annotations, item) + InfosFor(c, g, ItemOrigins(c, root, annotations, item).value) + Rest(base, annotations, item)
  }

  function AllInfos(c: Catalog, base: string, g: Gen, root: Model, annotations: seq<FieldDef>, items: seq<string>): seq<Info>
    requires Consistent(c) && AllOrigins(c, root, annotations, items).Ok?
    decreases |items|
  {
    if items == [] then []
    else
      var n := |items| - 1;
      AllInfos(c, base, g, root, annotations, items[..n]) + ItemInfos(c, base, g, root, annotations, items[n])
  }

  lemma {:induction false} AllInfosKept(c: Catalog, base: string, g: Gen, h: Gen, root: Model, annotations: seq<FieldDef>, items: seq<string>)
    requires Consistent(c) && AllOrigins(c, root, annotations, items).Ok? && Extends(g, h)
    requires PathsKnown(g, AllOrigins(c, root, annotations, items).value)
    ensures AllInfos(c, base, g, root, annotations, items) == AllInfos(c, base, h, root, annotations, items)
    decreases |items|
  {
    if items != [] {
      var n := |items| - 1;
      var before, last := AllOrigins(c, root, annotations, items[..n]).value, ItemOrigins(c, root, annotations, items[n]).value;
      PartsKnown(g, before, last);
      AllInfosKept(c, base, g, h, root, annotations, items[..n]);
      InfosKept(c, g, h, last);
    }
  }

  lemma {:induction false} NextInfos(c: Catalog, base: string, g: Gen, root: Model, annotations: seq<FieldDef>, items: seq<string>, n: nat)
    requires Consistent(c) && n < |items| && AllOrigins(c, root, annotations, items[..n + 1]).Ok?
    ensures AllOrigins(c, root, annotations, items[..n]).Ok? && ItemOrigins(c, root, annotations, items[n]).Ok?
    ensures AllInfos(c, base, g, root, annotations, items[..n + 1])
         == AllInfos(c, base, g, root, annotations, items[..n]) + ItemInfos(c, base, g, root, annotations, items[n])
  {
    var next := items[..n + 1];
    assert next[..n] == items[..n] && next[n] == items[n];
  }

  lemma {:induction false} PartsKnown(g: Gen, a: seq<JoinPlans.Origin>, b: seq<JoinPlans.Origin>)
    requires PathsKnown(g, a + b)
    ensures PathsKnown(g, a) && PathsKnown(g, b)
  {
    assert forall i :: 0 <= i < |a| ==> (a + b)[i] == a[i];
    assert forall i :: 0 <= i < |b| ==> (a + b)[|a| + i] == b[i];
  }

  // ----- the query -----

  /** Joins that are new, and selected fields. */
  type Plan = (seq<JoinDef>, seq<Info>)

  class Query {
    const catalog: Catalog
    const root: Model
    const annotations: seq<FieldDef>
    const gen: Generator
    var fields: seq<Info>
    var joins: seq<JoinDef>
    var joinsMap: set<KeyText>
    ghost var asked: seq<JoinPlans.Origin>

    function Base(): string {
      catalog.walk.tables(root)
    }

    /** The joins are those asked for, each once, and the map has their keys. */
    ghost predicate Valid()
      reads this, gen
    {
      Consistent(catalog) && Sound(gen.Now()) && Added(Base(), gen.Now(), asked, {}, joinsMap, joins)
    }

    constructor (catalog: Catalog, root: Model, annotations: seq<FieldDef>, prefix: string)
      requires Consistent(catalog)
      ensures Valid() && fresh(gen) && asked == [] && fields == [] && gen.Now() == Gen(prefix, 0, map[])
      ensures this.catalog == catalog && this.root == root && this.annotations == annotations
    {
      this.catalog, this.root, this.annotations := catalog, root, annotations;
      gen := new Generator(prefix);
      fields, joins, joinsMap, asked := [], [], {}, [];
      new;
      AddedNothing(Base(), gen.Now(), {});
    }

    constructor CloneOf(from: Query)
      requires from.Valid()
      ensures Valid() && fresh(gen) && catalog == from.catalog && root == from.root && annotations == from.annotations
      ensures gen.Now() == from.gen.Now() && joins == from.joins && joinsMap == from.joinsMap && asked == from.asked
      ensures fields == from.fields
    {
      catalog, root, annotations := from.catalog, from.root, from.annotations;
      fields, joins, joinsMap, asked := from.fields, from.joins, from.joinsMap, from.asked;
      var g := new Generator.Clone(from.gen);
      gen := g;
    }

    /** The joins and infos of the proxies of a model; the map of proxies seen stays empty, so they
        are always walked. */
    method AddProxyChain(ps: Proxies, chain: seq<string>, aliases: seq<string>) returns (r: Plan)
      requires ProxiesNamed(ps) && Sound(gen.Now()) && ChainKnown(gen.Now(), chain, aliases)
      modifies gen, `joinsMap
      ensures Sound(gen.Now()) && Extends(old(gen.Now()), gen.Now())
      ensures Added(Base(), gen.Now(), ProxyOrigins(ps, chain), old(joinsMap), joinsMap, r.0)
      ensures Listed(catalog, gen.Now(), ProxyOrigins(ps, chain), r.1)
    {
      var all, infos := AddSubProxies(catalog, Base(), ps, chain, aliases, gen);
      AddedMade(Base(), gen.Now(), ProxyOrigins(ps, chain), joinsMap, all);
      var js: seq<JoinDef>;
      js, joinsMap := Unjoined(joinsMap, all);
      return (js, infos);
    }

    /** A relation joined directly. */
    method AddJoinForFK(chain: seq<string>, aliases: seq<string>, field: Detail, rel: Relation, picked: seq<FieldDef>) returns (r: Plan)
      requires Consistent(catalog) && Sound(gen.Now()) && ChainKnown(gen.Now(), chain, aliases) && chain != []
      modifies gen, `joinsMap
      ensures Sound(gen.Now()) && Extends(old(gen.Now()), gen.Now())
      ensures var os := [JoinPlans.Origin(chain, field, rel, Direct, picked)] + ProxyOrigins(catalog.proxies(rel.model), chain);
              Added(Base(), gen.Now(), os, old(joinsMap), joinsMap, r.0) && Listed(catalog, gen.Now(), os, r.1)
    {
      ghost var g, keys, o := gen.Now(), joinsMap, JoinPlans.Origin(chain, field, rel, Direct, picked);
      var join, info := ChainJoin(Base(), aliases, field, rel, rel.column), ChainInfo(chain, aliases, rel, picked);
      ChainJoinIs(Base(), g, chain, aliases, o);
      ChainListed(Base(), catalog, g, chain, aliases, o);
      MadeOne(Base(), g, o, join);
      AddedMade(Base(), g, [o], joinsMap, [join]);
      var js: seq<JoinDef>;
      js, joinsMap := Unjoined(joinsMap, [join]);
      r := WithProxies(chain, aliases, rel, js, [info], g, [o], keys);
    }

    /** A relation joined over the table between. */
    method AddJoinForM2M(chain: seq<string>, aliases: seq<string>, field: Detail, rel: Relation, picked: seq<FieldDef>) returns (r: Plan)
      requires Consistent(catalog) && Sound(gen.Now()) && ChainKnown(gen.Now(), chain, aliases) && chain != [] && rel.through.Some?
      modifies gen, `joinsMap
      ensures Sound(gen.Now()) && Extends(old(gen.Now()), gen.Now())
      ensures var os := OverTable(chain, field, rel, picked) + ProxyOrigins(catalog.proxies(rel.model), chain);
              Added(Base(), gen.Now(), os, old(joinsMap), joinsMap, r.0) && Listed(catalog, gen.Now(), os, r.1)
    {
      ghost var g, keys, both := gen.Now(), joinsMap, OverTable(chain, field, rel, picked);
      var own := aliases[|aliases| - 1];
      var between := own + "_through";
      var join1 := JoinDef(rel.through.value.table, between, ThroughKind(field),
                           [Pair(Col(LeftAlias(Base(), aliases), field.column), Col(between, rel.through.value.source))]);
      var join2 := JoinDef(rel.table, own, ThroughKind(field),
                           [Pair(Col(between, rel.through.value.target), Col(own, rel.through.value.column))]);
      var info := ChainInfo(chain, aliases, rel, picked).(through := Some(ThroughInfo(catalog, rel, between)));
      BothMade(Base(), g, chain, aliases, field, rel, picked, join1, join2);
      BothListed(Base(), catalog, g, chain, aliases, field, rel, picked);
      AddedMade(Base(), g, both, joinsMap, [join1, join2]);
      var js: seq<JoinDef>;
      js, joinsMap := Unjoined(joinsMap, [join1, join2]);
      r := WithProxies(chain, aliases, rel, js, [info], g, both, keys);
    }

    /** After a relation, the proxies of the model it leads to. */
    method WithProxies(chain: seq<string>, aliases: seq<string>, rel: Relation, js: seq<JoinDef>, infos: seq<Info>,
                       ghost g: Gen, ghost os: seq<JoinPlans.Origin>, ghost keys: set<KeyText>) returns (r: Plan)
      requires Consistent(catalog) && Sound(gen.Now()) && ChainKnown(gen.Now(), chain, aliases) && g == gen.Now()
      requires Added(Base(), g, os, keys, joinsMap, js) && Listed(catalog, g, os, infos)
      modifies gen, `joinsMap
      ensures Sound(gen.Now()) && Extends(old(gen.Now()), gen.Now())
      ensures var all := os + ProxyOrigins(catalog.proxies(rel.model), chain);
              Added(Base(), gen.Now(), all, keys, joinsMap, r.0) && Listed(catalog, gen.Now(), all, r.1)
    {
      hide Added, Listed, ChainKnown, Sound;
      ghost var mid := joinsMap;
      var sub := AddProxyChain(catalog.proxies(rel.model), chain, aliases);
      ghost var ps := ProxyOrigins(catalog.proxies(rel.model), chain);
      AddedThen(Base(), g, os, keys, mid, js, gen.Now(), ps, joinsMap, sub.0);
      ListedThen(catalog, g, os, infos, gen.Now(), ps, sub.1);
      return (js + sub.0, infos + sub.1);
    }

    method Relate(chain: seq<string>, aliases: seq<string>, field: Detail, rel: Relation, picked: seq<FieldDef>) returns (r: Result<Plan>)
      requires Consistent(catalog) && Sound(gen.Now()) && ChainKnown(gen.Now(), chain, aliases) && chain != []
      modifies gen, `joinsMap
      ensures Sound(gen.Now()) && Extends(old(gen.Now()), gen.Now())
      ensures r.Ok? <==> RelationOrigins(catalog, chain, field, rel, picked).Ok?
      ensures r.Ok? ==> var os := RelationOrigins(catalog, chain, field, rel, picked).value;
                        Added(Base(), gen.Now(), os, old(joinsMap), joinsMap, r.value.0) && Listed(catalog, gen.Now(), os, r.value.1)
    {
      if rel.kind == ManyToMany && rel.through.None? {
        return Panic;
      }
      var plan: Plan;
      if rel.through.Some? && (rel.kind == ManyToMany || rel.kind == OneToOne) {
        plan := AddJoinForM2M(chain, aliases, field, rel, picked);
      } else {
        plan := AddJoinForFK(chain, aliases, field, rel, picked);
      }
      return Ok(plan);
    }

    /** The joins and infos of a path that leads to a field. */
    method SelectField(parts: seq<string>, all: bool, walked: Walked) returns (r: Result<Plan>)
      requires Consistent(catalog) && Sound(gen.Now()) && parts != [] && Leads(catalog.walk, root, parts)
      requires Dotless(parts) && parts[0] != ""
      requires walked.chain == parts[..|parts| - 1] && ChainKnown(gen.Now(), walked.chain, walked.aliases)
      requires Reach(catalog.walk, root, walked.chain) == Some(walked.definer)
      modifies gen, `joinsMap
      ensures Sound(gen.Now()) && Extends(old(gen.Now()), gen.Now())
      ensures r.Ok? <==> PathOrigins(catalog, root, parts, all).Ok?
      ensures r.Ok? ==> var os := PathOrigins(catalog, root, parts, all).value;
                        && Added(Base(), gen.Now(), os, old(joinsMap), joinsMap, r.value.0)
                        && PathsKnown(gen.Now(), os)
                        && r.value.1 == PathHead(catalog, Base(), root, parts, all) + InfosFor(catalog, gen.Now(), os)
    {
      hide Added, Sound, ProxyOrigins, RelationOrigins, InfosFor, RootInfo, PathsKnown, PickedOf;
      var n := |parts| - 1;
      LeadsFurther(catalog.walk, root, parts);
      var field := catalog.details[(walked.definer, parts[n])];
      if field.rel.Some? && all {
        var chain, aliases := Extend(catalog.walk, field.rel.value.model, walked.chain, walked.aliases, parts[n], gen);
        assert chain == parts;
        r := Relate(chain, aliases, field, field.rel.value, catalog.select(field.rel.value.model));
      } else if n == 0 {
        NoChain(gen.Now());
        var plan := AddProxyChain(catalog.proxies(root), [], []);
        r := Ok((plan.0, [RootInfo(Base(), root, [catalog.field(root, parts[0])])] + plan.1));
      } else {
        var up := UpTo(catalog, root, walked.chain);
        var rel := if field.rel.Some? then field.rel.value else up.rel.value;
        r := Relate(walked.chain, walked.aliases, up, rel, PickedOf(catalog, rel.model, walked.definer, parts[n], all));
      }
    }

    /** The joins and infos of one path, not added yet. */
    method SelectPath(path: string, all: bool) returns (r: Result<Plan>)
      requires Consistent(catalog) && Sound(gen.Now())
      modifies gen, `joinsMap
      ensures Sound(gen.Now()) && Extends(old(gen.Now()), gen.Now())
      ensures r.Ok? <==> NamedOrigins(catalog, root, annotations, path, all).Ok?
      ensures r.Ok? ==> var os := NamedOrigins(catalog, root, annotations, path, all).value;
                        && Added(Base(), gen.Now(), os, old(joinsMap), joinsMap, r.value.0)
                        && r.value.1 == NamedHead(catalog, Base(), root, annotations, path, all) + InfosFor(catalog, gen.Now(), os)
    {
      var w := WalkFields(catalog.walk, root, path, gen);
      if w.Panic? {
        AddedNothing(Base(), gen.Now(), joinsMap);
        return if Annotated(annotations, path) then Ok(([], [AnnotationInfo(Base(), [AnnotationNamed(annotations, path)])])) else Panic;
      }
      PathWalks(catalog, root, path, |Split(path)| - 1, gen.Now(), w.value);
      JoinSplit(path);
      r := SelectField(Split(path), all, w.value);
    }

    /** The joins and infos of one selected name, not added yet. */
    method ItemPlan(item: string) returns (r: Result<Plan>)
      requires Consistent(catalog) && Sound(gen.Now())
      modifies gen, `joinsMap
      ensures Sound(gen.Now()) && Extends(old(gen.Now()), gen.Now())
      ensures r.Ok? <==> ItemOrigins(catalog, root, annotations, item).Ok?
      ensures r.Ok? ==> Added(Base(), gen.Now(), ItemOrigins(catalog, root, annotations, item).value, old(joinsMap), joinsMap, r.value.0)
      ensures r.Ok? ==> r.value.1 == ItemInfos(catalog, Base(), gen.Now(), root, annotations, item)
    {
      var (path, all) := ParseItem(item);
      if path != "" {
        r := SelectPath(path, all);
        assert r.Ok? ==> r.value.1 + [] == r.value.1;
      } else if all {
        NoChain(gen.Now());
        var plan := AddProxyChain(catalog.proxies(root), [], []);
        var annotated := if annotations != [] then [AnnotationInfo(Base(), annotations)] else [];
        r := Ok((plan.0, [RootInfo(Base(), root, catalog.select(root))] + plan.1 + annotated));
      } else {
        r := Panic;
      }
    }

    /** One selected name. */
    method SelectItem(item: string) returns (ok: bool)
      requires Valid()
      modifies this, gen
      ensures ok <==> ItemOrigins(catalog, root, annotations, item).Ok?
      ensures ok ==> Valid() && asked == old(asked) + ItemOrigins(catalog, root, annotations, item).value
      ensures ok ==> fields == old(fields) + ItemInfos(catalog, Base(), gen.Now(), root, annotations, item)
      ensures ok ==> Extends(old(gen.Now()), gen.Now())
    {
      hide Added, ItemOrigins, ItemInfos, Consistent, Sound;
      ghost var before, keys := gen.Now(), joinsMap;
      var r := ItemPlan(item);
      if r.Panic? {
        return false;
      }
      ghost var os := ItemOrigins(catalog, root, annotations, item).value;
      AddedThen(Base(), before, asked, {}, keys, joins, gen.Now(), os, joinsMap, r.value.0);
      joins, fields, asked := joins + r.value.0, fields + r.value.1, asked + os;
      return true;
    }

    lemma {:induction false} AskedKnown()
      requires Valid()
      ensures PathsKnown(gen.Now(), asked)
    {
    }

    /** What the first `n` items select is selected. */
    ghost predicate Selected(items: seq<string>, n: nat, start: Gen, before: seq<JoinPlans.Origin>)
      requires n <= |items|
      reads this, gen
    {
      && Valid() && Extends(start, gen.Now()) && AllOrigins(catalog, root, annotations, items[..n]).Ok?
      && asked == before + AllOrigins(catalog, root, annotations, items[..n]).value
      && fields == AllInfos(catalog, Base(), gen.Now(), root, annotations, items[..n])
    }

    method SelectNth(items: seq<string>, n: nat, ghost start: Gen, ghost before: seq<JoinPlans.Origin>) returns (ok: bool)
      requires n < |items| && Selected(items, n, start, before)
      modifies this, gen
      ensures ok ==> Selected(items, n + 1, start, before)
      ensures !ok ==> AllOrigins(catalog, root, annotations, items).Panic?
    {
      NextItem(catalog, root, annotations, items, n);
      hide Added, Extends, ItemInfos, ItemOrigins, AllInfos, AllOrigins, Consistent, Sound, PathsKnown;
      ghost var g, a := gen.Now(), AllOrigins(catalog, root, annotations, items[..n]).value;
      AskedKnown();
      PartsKnown(g, before, a);
      ok := SelectItem(items[n]);
      if ok {
        AllInfosKept(catalog, Base(), g, gen.Now(), root, annotations, items[..n]);
        NextInfos(catalog, Base(), gen.Now(), root, annotations, items, n);
        Regroup(before, a, ItemOrigins(catalog, root, annotations, items[n]).value);
      }
    }

    /** All selected names, in order; what was selected before is not. */
    method SelectInto(items: seq<string>) returns (ok: bool)
      requires Valid()
      modifies this, gen
      ensures ok <==> AllOrigins(catalog, root, annotations, items).Ok?
      ensures ok ==> Selected(items, |items|, old(gen.Now()), old(asked))
    {
      ghost var start, before := gen.Now(), asked;
      assert items[..0] == [] && asked + [] == asked;
      fields := [];
      for n := 0 to |items|
        invariant Selected(items, n, start, before)
      {
        ok := SelectNth(items, n, start, before);
        if !ok {
          return false;
        }
      }
      assert items[..|items|] == items;
      return true;
    }

    /** A new query with the selection; this one stays as it is. */
    method Select(items: seq<string>) returns (r: Result<Query>)
      requires Valid()
      ensures r.Ok? <==> AllOrigins(catalog, root, annotations, Named(items)).Ok?
      ensures r.Ok? ==>
                && fresh(r.value) && fresh(r.value.gen) && r.value.Valid()
                && r.value.asked == asked + AllOrigins(catalog, root, annotations, Named(items)).value
                && r.value.fields == AllInfos(catalog, Base(), r.value.gen.Now(), root, annotations, Named(items))
                && r.value.catalog == catalog && r.value.root == root && r.value.annotations == annotations
                && Extends(gen.Now(), r.value.gen.Now())
    {
      var q := new Query.CloneOf(this);
      var names := Named(items);
      var ok := q.SelectInto(names);
      assert names[..|names|] == names;
      return if ok then Ok(q) else Panic;
    }
  }

  /** Selecting nothing is selecting everything. */
  function Named(items: seq<string>): seq<string> {
    if items == [] then ["*"] else items
  }

  lemma {:induction false} NextItem(c: Catalog, root: Model, annotations: seq<FieldDef>, items: seq<string>, n: nat)
    requires Consistent(c) && n < |items|
    ensures var before, last := AllOrigins(c, root, annotations, items[..n]), ItemOrigins(c, root, annotations, items[n]);
            && (AllOrigins(c, root, annotations, items[..n + 1]).Ok? <==> before.Ok? && last.Ok?)
            && (before.Ok? && last.Ok? ==> AllOrigins(c, root, annotations, items[..n + 1]).value == before.value + last.value)
            && (before.Panic? || last.Panic? ==> AllOrigins(c, root, annotations, items).Panic?)
  {
    var next := items[..n + 1];
    assert next[..n] == items[..n] && next[n] == items[n];
    if AllOrigins(c, root, annotations, next).Panic? {
      PanicsForGood(c, root, annotations, items, n + 1);
    }
  }

  lemma {:induction false} PanicsForGood(c: Catalog, root: Model, annotations: seq<FieldDef>, items: seq<string>, n: nat)
    requires Consistent(c) && n <= |items| && AllOrigins(c, root, annotations, items[..n]).Panic?
    ensures AllOrigins(c, root, annotations, items).Panic?
    decreases |items|
  {
    var m := |items| - 1;
    if n <= m {
      assert items[..m][..n] == items[..n];
      PanicsForGood(c, root, annotations, items[..m], n);
    } else {
      assert items[..n] == items;
    }
  }

  lemma {:induction false} NoChain(g: Gen)
    ensures ChainKnown(g, [], [])
  {
  }

  /** What a walk to a field found out. */
  lemma {:induction false} PathWalks(c: Catalog, root: Model, path: string, n: nat, g: Gen, w: Walked)
    requires Consistent(c) && n == |Split(path)| - 1 && Leads(c.walk, root, Split(path))
    requires w.chain == Split(path)[..n] && AliasesOf(g, w.chain, w.aliases) && Reach(c.walk, root, w.chain) == Some(w.definer)
    ensures (w.definer, Split(path)[n]) in c.details && ChainKnown(g, w.chain, w.aliases)
    ensures w.chain + [Split(path)[n]] == Split(path) && Split(path)[0] != ""
  {
    JoinSplit(path);
    LeadsFurther(c.walk, root, Split(path));
    assert Split(path)[..n + 1] == Split(path);
  }

  // ----- what a plan keeps -----

  /** Over any number of selections the joins have every key once and the map has exactly their
      keys. */
  lemma {:induction false} JoinsOnce(base: string, g: Gen, os: seq<JoinPlans.Origin>, joinsMap: set<KeyText>, joins: seq<JoinDef>)
    requires Added(base, g, os, {}, joinsMap, joins)
    ensures NoKeyTwice(joins) && joinsMap == KeysOf(joins) && joins == Dedup(JoinsOf(base, g, os))
  {
    DedupKeys(JoinsOf(base, g, os));
  }

  /** Selecting again what was selected adds no join. */
  lemma {:induction false} SelectAgain(base: string, g: Gen, asked: seq<JoinPlans.Origin>, again: seq<JoinPlans.Origin>)
    requires forall i :: 0 <= i < |again| ==> again[i] in asked
    ensures Dedup(JoinsOf(base, g, asked + again)) == Dedup(JoinsOf(base, g, asked))
  {
    var js, more := JoinsOf(base, g, asked), JoinsOf(base, g, again);
    JoinsThen(base, g, asked, again);
    forall i | 0 <= i < |more| ensures Key(more[i]) in KeysOf(js) {
      var k :| 0 <= k < |asked| && asked[k] == again[i];
      assert Key(js[k]) == Key(more[i]);
    }
    NothingNew(js, more);
  }

  /** The relation paths of some items. */
  function Chains(c: Catalog, root: Model, items: seq<string>): set<seq<string>>
    requires Consistent(c)
  {
    set i | 0 <= i < |items| && ChainOf(c, root, items[i]) != [] :: ChainOf(c, root, items[i])
  }

  /** The relation path of an item has no parent path, or comes after it. */
  predicate AfterParent(c: Catalog, root: Model, before: set<seq<string>>, items: seq<string>, k: nat)
    requires Consistent(c) && k < |items|
  {
    var p := ChainOf(c, root, items[k]);
    |p| > 1 ==> p[..|p| - 1] in before + Chains(c, root, items[..k])
  }

  /** Every relation path comes after its parent path. */
  predicate ParentsFirst(c: Catalog, root: Model, before: set<seq<string>>, items: seq<string>)
    requires Consistent(c)
  {
    forall k :: 0 <= k < |items| ==> AfterParent(c, root, before, items, k)
  }

  ghost predicate AllGiven(os: seq<JoinPlans.Origin>, paths: set<seq<string>>) {
    forall p :: p in paths ==> GivenBy(os, Own(p))
  }

  lemma {:induction false} AllGivenLater(os: seq<JoinPlans.Origin>, more: seq<JoinPlans.Origin>, paths: set<seq<string>>)
    requires AllGiven(os, paths)
    ensures AllGiven(os + more, paths)
  {
    forall p | p in paths ensures GivenBy(os + more, Own(p)) {
      GivenLater(os, more, Own(p));
    }
  }

  lemma {:induction false} ChainsLast(c: Catalog, root: Model, items: seq<string>, n: nat)
    requires Consistent(c) && |items| == n + 1
    ensures Chains(c, root, items) == Chains(c, root, items[..n]) + (if ChainOf(c, root, items[n]) != [] then {ChainOf(c, root, items[n])} else {})
  {
    assert items == items[..n] + [items[n]];
  }

  lemma {:induction false} ParentGiven(c: Catalog, root: Model, before: set<seq<string>>, items: seq<string>, n: nat)
    requires Consistent(c) && |items| == n + 1 && ParentsFirst(c, root, before, items)
    ensures ParentsFirst(c, root, before, items[..n]) && AfterParent(c, root, before, items, n)
  {
    var init := items[..n];
    forall k | 0 <= k < n ensures AfterParent(c, root, before, init, k) {
      assert AfterParent(c, root, before, items, k) && init[k] == items[k] && init[..k] == items[..k];
    }
  }

  lemma {:induction false} SelectionCovered(c: Catalog, root: Model, annotations: seq<FieldDef>, before: set<seq<string>>,
                                            asked: seq<JoinPlans.Origin>, items: seq<string>)
    requires Consistent(c) && AllCovered(asked) && AllGiven(asked, before)
    requires AllOrigins(c, root, annotations, items).Ok? && ParentsFirst(c, root, before, items)
    ensures var after := asked + AllOrigins(c, root, annotations, items).value;
            AllCovered(after) && AllGiven(after, before + Chains(c, root, items))
    decreases |items|
  {
    if items == [] {
      assert asked + [] == asked;
    } else {
      hide AllCovered, AllGiven, Chains, ParentsFirst, Consistent, ItemOrigins, ChainOf;
      var n := |items| - 1;
      var init, last := items[..n], items[n];
      ParentGiven(c, root, before, items, n);
      SelectionCovered(c, root, annotations, before, asked, init);
      var mid, os := asked + AllOrigins(c, root, annotations, init).value, ItemOrigins(c, root, annotations, last).value;
      assert asked + AllOrigins(c, root, annotations, items).value == mid + os;
      ItemCovered(c, root, annotations, mid, last);
      AllGivenLater(mid, os, before + Chains(c, root, init));
      ChainsLast(c, root, items, n);
    }
  }

  /** Selecting paths after their parents leaves every join in scope. */
  lemma {:induction false} SelectionInScope(c: Catalog, root: Model, annotations: seq<FieldDef>, before: set<seq<string>>,
                                            asked: seq<JoinPlans.Origin>, items: seq<string>, base: string, g: Gen)
    requires Consistent(c) && AllOrigins(c, root, annotations, items).Ok? && ParentsFirst(c, root, before, items)
    requires AllCovered(asked) && AllGiven(asked, before)
    requires Ready(base, g, asked + AllOrigins(c, root, annotations, items).value)
    ensures InScope(base, Dedup(JoinsOf(base, g, asked + AllOrigins(c, root, annotations, items).value)))
  {
    SelectionCovered(c, root, annotations, before, asked, items);
    ScopeExactly(base, g, asked + AllOrigins(c, root, annotations, items).value);
  }

  // ----- any number of selections -----

  /** The relation paths of some selections. */
  function ChainsOf(c: Catalog, root: Model, runs: seq<seq<string>>): set<seq<string>>
    requires Consistent(c)
    decreases |runs|
  {
    if runs == [] then {} else ChainsOf(c, root, runs[..|runs| - 1]) + Chains(c, root, Named(runs[|runs| - 1]))
  }

  /** Every relation path comes after its parent path, in the same selection or an earlier one. */
  predicate InOrder(c: Catalog, root: Model, runs: seq<seq<string>>)
    requires Consistent(c)
    decreases |runs|
  {
    runs == []
    || (InOrder(c, root, runs[..|runs| - 1])
        && ParentsFirst(c, root, ChainsOf(c, root, runs[..|runs| - 1]), Named(runs[|runs| - 1])))
  }

  lemma {:induction false} InOrderBefore(c: Catalog, root: Model, runs: seq<seq<string>>, n: nat)
    requires Consistent(c) && n <= |runs| && InOrder(c, root, runs)
    ensures InOrder(c, root, runs[..n])
    decreases |runs|
  {
    if n < |runs| {
      assert runs[..|runs| - 1][..n] == runs[..n];
      InOrderBefore(c, root, runs[..|runs| - 1], n);
    } else {
      assert runs[..n] == runs;
    }
  }

  ghost predicate Given(c: Catalog, root: Model, asked: seq<JoinPlans.Origin>, runs: seq<seq<string>>)
    requires Consistent(c)
  {
    AllCovered(asked) && AllGiven(asked, ChainsOf(c, root, runs))
  }

  lemma {:induction false} NextRun(c: Catalog, root: Model, annotations: seq<FieldDef>, asked: seq<JoinPlans.Origin>,
                                   runs: seq<seq<string>>, k: nat)
    requires Consistent(c) && k < |runs| && InOrder(c, root, runs) && Given(c, root, asked, runs[..k])
    requires AllOrigins(c, root, annotations, Named(runs[k])).Ok?
    ensures Given(c, root, asked + AllOrigins(c, root, annotations, Named(runs[k])).value, runs[..k + 1])
  {
    hide AllCovered, AllGiven, AllOrigins, Chains, ParentsFirst, Consistent, Named;
    var next := runs[..k + 1];
    InOrderBefore(c, root, runs, k + 1);
    assert next[..|next| - 1] == runs[..k] && next[|next| - 1] == runs[k];
    SelectionCovered(c, root, annotations, ChainsOf(c, root, runs[..k]), asked, Named(runs[k]));
  }

  /** Any number of selections, one after the other: the joins of the query they end in have
      every key once, and when relation paths come after their parents every condition mentions
      only the base table and tables joined before it. */
  method SelectAll(q: Query, runs: seq<seq<string>>) returns (r: Result<Query>)
    requires q.Valid() && q.asked == []
    ensures r.Ok? ==> r.value.Valid() && NoKeyTwice(r.value.joins) && r.value.joinsMap == KeysOf(r.value.joins)
    ensures r.Ok? && InOrder(q.catalog, q.root, runs) && Ready(q.Base(), r.value.gen.Now(), r.value.asked) ==>
              InScope(q.Base(), r.value.joins)
  {
    var cur := q;
    assert runs[..0] == [];
    for k := 0 to |runs|
      invariant cur.Valid() && cur.catalog == q.catalog && cur.root == q.root
      invariant InOrder(q.catalog, q.root, runs) ==> Given(q.catalog, q.root, cur.asked, runs[..k])
    {
      ghost var asked, annotations := cur.asked, cur.annotations;
      var next := cur.Select(runs[k]);
      if next.Panic? {
        return Panic;
      }
      if InOrder(q.catalog, q.root, runs) {
        NextRun(q.catalog, q.root, annotations, asked, runs, k);
      }
      cur := next.value;
    }
    assert runs[..|runs|] == runs;
    JoinsOnce(q.Base(), cur.gen.Now(), cur.asked, cur.joinsMap, cur.joins);
    if InOrder(q.catalog, q.root, runs) && Ready(q.Base(), cur.gen.Now(), cur.asked) {
      ScopeExactly(q.Base(), cur.gen.Now(), cur.asked);
    }
    return Ok(cur);
  }

  // ----- the columns name the joins -----

  predicate AliasNamed(base: string, aliases: set<string>, alias: string) {
    alias == base || alias in aliases
  }

  predicate InfoNamed(base: string, aliases: set<string>, info: Info) {
    AliasNamed(base, aliases, info.alias) && (info.through.Some? ==> AliasNamed(base, aliases, info.through.value.alias))
  }

  predicate InfosNamed(base: string, aliases: set<string>, infos: seq<Info>) {
    forall i :: 0 <= i < |infos| ==> InfoNamed(base, aliases, infos[i])
  }

  /** The target of a relation over a table is asked for together with that table. */
  ghost predicate TargetsPaired(os: seq<JoinPlans.Origin>) {
    forall i :: 0 <= i < |os| && os[i].kind == Target ==> GivenBy(os, Before(os[i].path))
  }

  lemma {:induction false} PairedThen(a: seq<JoinPlans.Origin>, b: seq<JoinPlans.Origin>)
    requires TargetsPaired(a) && TargetsPaired(b)
    ensures TargetsPaired(a + b)
  {
    var all := a + b;
    forall i | 0 <= i < |all| && all[i].kind == Target ensures GivenBy(all, Before(all[i].path)) {
      if i < |a| {
        GivenLater(a, b, Before(a[i].path));
      } else {
        var j :| 0 <= j < |b| && Gives(b[j]) == Before(b[i - |a|].path);
        assert Gives(all[|a| + j]) == Before(all[i].path);
      }
    }
  }

  lemma {:induction false} ProxiesPaired(ps: Proxies, chain: seq<string>)
    ensures TargetsPaired(ProxyOrigins(ps, chain))
  {
    match ps
    case NoProxies =>
    case Proxy(name, field, rel, picked, below, rest) =>
      var o := JoinPlans.Origin(chain + [name], field, rel, Proxied, picked);
      ProxiesPaired(below, chain + [name]);
      ProxiesPaired(rest, chain);
      PairedThen([o], ProxyOrigins(below, chain + [name]));
      PairedThen([o] + ProxyOrigins(below, chain + [name]), ProxyOrigins(rest, chain));
  }

  lemma {:induction false} RelationPaired(c: Catalog, path: seq<string>, field: Detail, rel: Relation, picked: seq<FieldDef>)
    requires RelationOrigins(c, path, field, rel, picked).Ok?
    ensures TargetsPaired(RelationOrigins(c, path, field, rel, picked).value)
  {
    var os, after := RelationOrigins(c, path, field, rel, picked).value, ProxyOrigins(c.proxies(rel.model), path);
    var first := os[..|os| - |after|];
    ProxiesPaired(c.proxies(rel.model), path);
    assert TargetsPaired(first) by {
      assert |first| == 2 ==> Gives(first[0]) == Before(path);
    }
    PairedThen(first, after);
    assert first + after == os;
  }

  lemma {:induction false} ItemPaired(c: Catalog, root: Model, annotations: seq<FieldDef>, item: string)
    requires Consistent(c) && ItemOrigins(c, root, annotations, item).Ok?
    ensures TargetsPaired(ItemOrigins(c, root, annotations, item).value)
  {
    var (path, all) := ParseItem(item);
    var parts := Split(path);
    ProxiesPaired(c.proxies(root), []);
    if path != "" && Leads(c.walk, root, parts) {
      var n := |parts| - 1;
      var d := c.details[(Reach(c.walk, root, parts[..n]).value, parts[n])];
      if d.rel.Some? && all {
        RelationPaired(c, parts, d, d.rel.value, c.select(d.rel.value.model));
      } else if n > 0 {
        var up := UpTo(c, root, parts[..n]);
        var rel := if d.rel.Some? then d.rel.value else up.rel.value;
        RelationPaired(c, parts[..n], up, rel, PickedOf(c, rel.model, Reach(c.walk, root, parts[..n]).value, parts[n], all));
      }
    }
  }

  /** Every one of some origins is asked for. */
  ghost predicate Among(os: seq<JoinPlans.Origin>, asked: seq<JoinPlans.Origin>) {
    forall i :: 0 <= i < |os| ==> GivenBy(asked, Gives(os[i])) && PathAsked(asked, os[i].path)
  }

  ghost predicate PathAsked(asked: seq<JoinPlans.Origin>, path: seq<string>) {
    exists j :: 0 <= j < |asked| && asked[j].path == path
  }

  lemma {:induction false} OriginNamed(c: Catalog, base: string, g: Gen, asked: seq<JoinPlans.Origin>, o: JoinPlans.Origin)
    requires Ready(base, g, asked) && o.kind != Through && PathAsked(asked, o.path) && GivenBy(asked, Own(o.path))
    requires o.kind == Target ==> GivenBy(asked, Before(o.path))
    ensures InfoNamed(base, AliasesIn(Dedup(JoinsOf(base, g, asked))), InfoFor(c, g, o))
  {
    AliasesGiven(base, g, asked, Own(o.path));
    AliasesGiven(base, g, asked, Before(o.path));
  }

  lemma {:induction false} BetweenGiven(asked: seq<JoinPlans.Origin>, os: seq<JoinPlans.Origin>, path: seq<string>)
    requires Among(os, asked) && GivenBy(os, Before(path))
    ensures GivenBy(asked, Before(path))
  {
    var j :| 0 <= j < |os| && Gives(os[j]) == Before(path);
    assert GivenBy(asked, Gives(os[j]));
  }

  lemma {:induction false} OriginsNamed(c: Catalog, base: string, g: Gen, asked: seq<JoinPlans.Origin>, os: seq<JoinPlans.Origin>, n: nat)
    requires Ready(base, g, asked) && n <= |os| && Among(os, asked) && TargetsPaired(os)
    ensures InfosNamed(base, AliasesIn(Dedup(JoinsOf(base, g, asked))), InfosFor(c, g, os[..n]))
    decreases n
  {
    hide InfoFor, InfoNamed, Ready, JoinsOf, Dedup, AliasesIn, PathAsked;
    if n > 0 {
      var o := os[n - 1];
      OriginsNamed(c, base, g, asked, os, n - 1);
      assert os[..n][..n - 1] == os[..n - 1];
      if o.kind != Through {
        if o.kind == Target {
          BetweenGiven(asked, os, o.path);
        }
        OriginNamed(c, base, g, asked, o);
      }
    }
  }

  lemma {:induction false} ItemNamed(c: Catalog, base: string, g: Gen, root: Model, annotations: seq<FieldDef>,
                                     asked: seq<JoinPlans.Origin>, item: string)
    requires Consistent(c) && ItemOrigins(c, root, annotations, item).Ok? && Ready(base, g, asked)
    requires Among(ItemOrigins(c, root, annotations, item).value, asked)
    ensures InfosNamed(base, AliasesIn(Dedup(JoinsOf(base, g, asked))), ItemInfos(c, base, g, root, annotations, item))
  {
    hide Ready, JoinsOf, Dedup, AliasesIn, Among, InfosNamed, InfosFor, Head, Rest, ItemOrigins, TargetsPaired, Consistent;
    var os, aliases := ItemOrigins(c, root, annotations, item).value, AliasesIn(Dedup(JoinsOf(base, g, asked)));
    ItemPaired(c, root, annotations, item);
    OriginsNamed(c, base, g, asked, os, |os|);
    assert os[..|os|] == os;
    HeadNamed(c, base, root, annotations, item, aliases);
    NamedThen(base, aliases, Head(c, base, root, annotations, item), InfosFor(c, g, os));
    NamedThen(base, aliases, Head(c, base, root, annotations, item) + InfosFor(c, g, os), Rest(base, annotations, item));
  }

  lemma {:induction false} HeadNamed(c: Catalog, base: string, root: Model, annotations: seq<FieldDef>, item: string, aliases: set<string>)
    requires Consistent(c) && ItemOrigins(c, root, annotations, item).Ok?
    ensures InfosNamed(base, aliases, Head(c, base, root, annotations, item)) && InfosNamed(base, aliases, Rest(base, annotations, item))
  {
  }

  lemma {:induction false} NamedThen(base: string, aliases: set<string>, a: seq<Info>, b: seq<Info>)
    requires InfosNamed(base, aliases, a) && InfosNamed(base, aliases, b)
    ensures InfosNamed(base, aliases, a + b)
  {
  }

  lemma {:induction false} PartAmong(before: seq<JoinPlans.Origin>, os: seq<JoinPlans.Origin>, after: seq<JoinPlans.Origin>)
    ensures Among(os, before + os + after)
  {
    var all := before + os + after;
    forall i | 0 <= i < |os| ensures GivenBy(all, Gives(os[i])) && PathAsked(all, os[i].path) {
      assert all[|before| + i] == os[i];
    }
  }

  lemma {:induction false} SelectionNamed(c: Catalog, base: string, g: Gen, root: Model, annotations: seq<FieldDef>,
                                          before: seq<JoinPlans.Origin>, items: seq<string>, after: seq<JoinPlans.Origin>)
    requires Consistent(c) && AllOrigins(c, root, annotations, items).Ok?
    requires Ready(base, g, before + AllOrigins(c, root, annotations, items).value + after)
    ensures var asked := before + AllOrigins(c, root, annotations, items).value + after;
            InfosNamed(base, AliasesIn(Dedup(JoinsOf(base, g, asked))), AllInfos(c, base, g, root, annotations, items))
    decreases |items|
  {
    hide Ready, InfosNamed, Among, JoinsOf, Dedup, AliasesIn, ItemInfos, ItemOrigins, Consistent;
    if items == [] {
      NothingNamed(base, AliasesIn(Dedup(JoinsOf(base, g, before + AllOrigins(c, root, annotations, items).value + after))));
    } else {
      var n := |items| - 1;
      var init, last := AllOrigins(c, root, annotations, items[..n]).value, ItemOrigins(c, root, annotations, items[n]).value;
      var asked := before + (init + last) + after;
      RegroupFour(before, init, last, after);
      SelectionNamed(c, base, g, root, annotations, before, items[..n], last + after);
      PartAmong(before + init, last, after);
      ItemNamed(c, base, g, root, annotations, asked, items[n]);
      NamedThen(base, AliasesIn(Dedup(JoinsOf(base, g, asked))), AllInfos(c, base, g, root, annotations, items[..n]),
                ItemInfos(c, base, g, root, annotations, items[n]));
    }
  }

  lemma {:induction false} NothingNamed(base: string, aliases: set<string>)
    ensures InfosNamed(base, aliases, [])
  {
  }

  lemma {:induction false} CellsNamed(base: string, aliases: set<string>, infos: seq<Info>, i: nat)
    requires InfosNamed(base, aliases, infos) && i < |Projection.AllCells(infos)|
    ensures AliasNamed(base, aliases, Projection.AllCells(infos)[i].alias)
    decreases |infos|
  {
    var n := |infos| - 1;
    var before := |Projection.AllCells(infos[..n])|;
    assert InfoNamed(base, aliases, infos[n]);
    if i < before {
      CellsNamed(base, aliases, infos[..n], i);
    } else {
      assert Projection.AllCells(infos)[i] == Projection.CellsOf(infos[n])[i - before];
    }
  }

  /** Every column that a selection writes is a column of the base table or of a table that the
      query joins, and, when the selection is complete, the k-th value of a row is scanned into
      the field of the k-th such column. */
  lemma {:induction false} SelectedColumns(c: Catalog, g: Gen, root: Model, annotations: seq<FieldDef>,
                                           before: seq<JoinPlans.Origin>, items: seq<string>, scans: seq<Projection.Scan>)
    requires Consistent(c) && AllOrigins(c, root, annotations, items).Ok?
    requires Ready(c.walk.tables(root), g, before + AllOrigins(c, root, annotations, items).value)
    requires Projection.ScansCells(scans, Projection.AllCells(AllInfos(c, c.walk.tables(root), g, root, annotations, items)))
    ensures var base, asked := c.walk.tables(root), before + AllOrigins(c, root, annotations, items).value;
            var infos := AllInfos(c, base, g, root, annotations, items);
            var cells, columns := Projection.AllCells(infos), Projection.ReadColumns(Projection.SelectList(infos));
            && (forall i :: 0 <= i < |cells| ==> AliasNamed(base, AliasesIn(Dedup(JoinsOf(base, g, asked))), cells[i].alias))
            && (Projection.Complete(infos) ==>
                  columns == Some(cells) && forall i :: 0 <= i < |scans| ==> scans[i].idx == i && scans[i].name == cells[i].field.name)
  {
    var base, os := c.walk.tables(root), AllOrigins(c, root, annotations, items).value;
    var infos := AllInfos(c, base, g, root, annotations, items);
    assert before + os + [] == before + os;
    SelectionNamed(c, base, g, root, annotations, before, items, []);
    forall i | 0 <= i < |Projection.AllCells(infos)|
      ensures AliasNamed(base, AliasesIn(Dedup(JoinsOf(base, g, before + os))), Projection.AllCells(infos)[i].alias)
    {
      CellsNamed(base, AliasesIn(Dedup(JoinsOf(base, g, before + os))), infos, i);
    }
    Projection.ListReadsExactly(infos);
  }

  lemma {:induction false} ProxiesAreDeeper(ps: Proxies, chain: seq<string>)
    ensures forall i :: 0 <= i < |ProxyOrigins(ps, chain)| ==> |ProxyOrigins(ps, chain)[i].path| > |chain|
  {
    match ps
    case NoProxies =>
    case Proxy(name, field, rel, picked, below, rest) =>
      ProxiesAreDeeper(below, chain + [name]);
      ProxiesAreDeeper(rest, chain);
  }

  /** The joins for a path, not for the proxies below it. */
  ghost predicate JoinsModel(os: seq<JoinPlans.Origin>, path: seq<string>, m: Model) {
    forall i :: 0 <= i < |os| && os[i].path == path ==> os[i].rel.model == m
  }

  lemma {:induction false} RelationJoins(c: Catalog, path: seq<string>, field: Detail, rel: Relation, picked: seq<FieldDef>, m: Model)
    requires RelationOrigins(c, path, field, rel, picked).Ok?
    ensures JoinsModel(RelationOrigins(c, path, field, rel, picked).value, path, m) <==> rel.model == m
  {
    var os := RelationOrigins(c, path, field, rel, picked).value;
    ProxiesAreDeeper(c.proxies(rel.model), path);
    assert os[0].path == path && os[0].rel == rel;
  }

  /** A path's alias stands for the model the path leads to, unless the selected field is itself
      a relation to another model and not all of its fields are selected: then the alias is given
      to the table of that other model. */
  lemma {:induction false} AliasStandsForModel(c: Catalog, root: Model, parts: seq<string>, all: bool)
    requires Consistent(c) && parts != [] && Leads(c.walk, root, parts) && PathOrigins(c, root, parts, all).Ok?
    ensures var n := |parts| - 1;
            var last := c.details[(Reach(c.walk, root, parts[..n]).value, parts[n])].rel;
            var os := PathOrigins(c, root, parts, all).value;
            && (last.Some? && all ==> JoinsModel(os, parts, last.value.model))
            && (n > 0 && !(last.Some? && all) ==>
                  (JoinsModel(os, parts[..n], Reach(c.walk, root, parts[..n]).value) <==>
                     last.None? || last.value.model == Reach(c.walk, root, parts[..n]).value))
  {
    var n := |parts| - 1;
    var d := c.details[(Reach(c.walk, root, parts[..n]).value, parts[n])];
    if d.rel.Some? && all {
      RelationJoins(c, parts, d, d.rel.value, c.select(d.rel.value.model), d.rel.value.model);
    } else if n > 0 {
      var up := UpTo(c, root, parts[..n]);
      var rel, m := if d.rel.Some? then d.rel.value else up.rel.value, Reach(c.walk, root, parts[..n]).value;
      RelationJoins(c, parts[..n], up, rel, PickedOf(c, rel.model, m, parts[n], all), m);
    }
  }

  lemma {:induction false} SpelledApart(a: string, x: string, b: string, t: string, u: string)
    requires Spelled(a, x, b, t) == Spelled(a, x, b, u)
    ensures t == u
  {
    CutAlike(a, ":" + (x + ("=" + (b + (":" + t)))), a, ":" + (x + ("=" + (b + (":" + u)))));
    CutAlike(":", x + ("=" + (b + (":" + t))), ":", x + ("=" + (b + (":" + u))));
    CutAlike(x, "=" + (b + (":" + t)), x, "=" + (b + (":" + u)));
    CutAlike("=", b + (":" + t), "=", b + (":" + u));
    CutAlike(b, ":" + t, b, ":" + u);
    CutAlike(":", t, ":", u);
  }

  /** Conditions that end on different columns have different texts. */
  lemma {:induction false} ColumnsApart(left: string, x: string, own: string, y: string, z: string)
    requires left != "" && own != "" && y != z
    ensures ConditionText([Pair(Col(left, x), Col(own, y))]) != ConditionText([Pair(Col(left, x), Col(own, z))])
  {
    var p, q := [Pair(Col(left, x), Col(own, y))], [Pair(Col(left, x), Col(own, z))];
    TextOf(left, x, own, y, []);
    TextOf(left, x, own, z, []);
    assert p + [] == p && q + [] == q;
    var t, u := y + ":<nil>" + "", z + ":<nil>" + "";
    if ConditionText(p) == ConditionText(q) {
      SpelledApart(left, x + ":<nil>", own, t, u);
      assert t == y + ":<nil>" && u == z + ":<nil>";
      CutAlikeEnd(y, z, ":<nil>");
    }
  }

  /** So selecting a relation and then a relation field of it joins the alias a second time, when
      the two relations end on different columns. */
  lemma {:induction false} JoinedTwice(base: string, g: Gen, os: seq<JoinPlans.Origin>, i: nat, j: nat)
    requires Ready(base, g, os) && i < |os| && j < |os| && os[i].path == os[j].path && os[i].field == os[j].field
    requires os[i].kind == Direct && os[j].kind == Direct && !os[i].field.clause.ProxyClause?
    requires os[i].rel.column != os[j].rel.column
    ensures !NoAliasTwice(Dedup(JoinsOf(base, g, os)))
  {
    var left, own, x := LeftText(base, g, os[i]), NameText(g, Own(os[i].path)), os[i].field.column;
    TextsNamed(base, g, os, i);
    ColumnsApart(left, x, own, os[i].rel.column, os[j].rel.column);
    AliasesOnce(base, g, os);
    var js := JoinsOf(base, g, os);
    assert Gives(os[i]) == Gives(os[j]) && Key(js[i]) != Key(js[j]);
  }

  // ----- an alias joined twice -----

  /** Authors have a book, found by its id; books have a shop, found by its code. */
  function Library(): Catalog {
    var book := JoinPlans.Relation(ManyToOne, 2, "books", "id", None);
    var shop := JoinPlans.Relation(ManyToOne, 3, "shops", "code", None);
    Catalog(Schema(map[(1, "Book") := Field(Some(2)), (2, "Shop") := Field(Some(3))],
                   m => if m == 1 then "authors" else if m == 2 then "books" else "shops"),
            map[(1, "Book") := Detail("book_id", false, NoClause, "id", Some(book)),
                (2, "Shop") := Detail("shop_code", false, NoClause, "code", Some(shop))],
            m => NoProxies, m => [], (m, name) => Projection.FieldDef(name, name, None), table => (0, []))
  }

  lemma {:induction false} LibraryIsConsistent()
    ensures Consistent(Library())
  {
  }

  function BookOrigin(): JoinPlans.Origin {
    var d := Library().details[(1, "Book")];
    JoinPlans.Origin(["Book"], d, d.rel.value, Direct, [])
  }

  /** The join of the book's path to the table of the shop. */
  function ShopOrigin(): JoinPlans.Origin {
    JoinPlans.Origin(["Book"], Library().details[(1, "Book")], Library().details[(2, "Shop")].rel.value, Direct,
                     [Projection.FieldDef("Shop", "Shop", None)])
  }

  lemma {:induction false} StarParses(path: string)
    ensures ParseItem(path + ".*") == (path, true)
  {
    var s := path + ".*";
    var t := s[..|s| - 1];
    assert t == path + "." && t[..|t| - 1] == path;
  }

  lemma {:induction false} TwoSplit(a: string, b: string)
    requires NoDot(a) && NoDot(b)
    ensures Split(a) == [a] && Split(a + ("." + b)) == [a, b]
  {
    var one, two := [a], [a, b];
    assert two[1..] == [b] && Join(one) == a && Join(two) == a + ("." + b);
    SplitJoin(one);
    SplitJoin(two);
  }

  lemma {:induction false} ItemsParse()
    ensures ParseItem("Book.*") == ("Book", true) && Split("Book") == ["Book"]
    ensures ParseItem("Book.Shop") == ("Book.Shop", false) && Split("Book.Shop") == ["Book", "Shop"]
  {
    hide Split;
    StarParses("Book");
    TwoSplit("Book", "Shop");
    assert "Book" + ".*" == "Book.*" && "Book" + ("." + "Shop") == "Book.Shop";
  }

  lemma {:induction false} LibraryWalks()
    ensures var w := Library().walk;
            && Reach(w, 1, []) == Some(1) && Reach(w, 1, ["Book"]) == Some(2)
            && Leads(w, 1, ["Book"]) && Leads(w, 1, ["Book", "Shop"])
  {
    assert ["Book"][..0] == [] && ["Book", "Shop"][..1] == ["Book"];
  }

  lemma {:induction false} BookItem()
    ensures Consistent(Library()) && ItemOrigins(Library(), 1, [], "Book.*") == Ok([BookOrigin()])
  {
    LibraryIsConsistent();
    ItemsParse();
    LibraryWalks();
    hide ParseItem, Split, Reach, Leads, Consistent;
    assert ["Book"][..0] == [];
    assert PathOrigins(Library(), 1, ["Book"], true) == Ok([BookOrigin()] + ProxyOrigins(NoProxies, ["Book"]));
    assert [BookOrigin()] + ProxyOrigins(NoProxies, ["Book"]) == [BookOrigin()];
  }

  lemma {:induction false} ShopItem()
    ensures Consistent(Library()) && ItemOrigins(Library(), 1, [], "Book.Shop") == Ok([ShopOrigin()])
  {
    LibraryIsConsistent();
    ItemsParse();
    LibraryWalks();
    hide ParseItem, Split, Reach, Leads, Consistent;
    assert ["Book"][..0] == [] && ["Book", "Shop"][..1] == ["Book"];
    assert UpTo(Library(), 1, ["Book"]) == BookOrigin().field;
    assert PathOrigins(Library(), 1, ["Book", "Shop"], false) == Ok([ShopOrigin()] + ProxyOrigins(NoProxies, ["Book"]));
    assert [ShopOrigin()] + ProxyOrigins(NoProxies, ["Book"]) == [ShopOrigin()];
  }

  /** `Book.*` joins the book; `Book.Shop` joins the shop, on the book's path. */
  lemma {:induction false} BookAndShop()
    ensures Consistent(Library()) && AllOrigins(Library(), 1, [], ["Book.*", "Book.Shop"]) == Ok([BookOrigin(), ShopOrigin()])
  {
    BookItem();
    ShopItem();
    hide ItemOrigins, Consistent, Library, BookOrigin, ShopOrigin;
    var items := ["Book.*", "Book.Shop"];
    var none: seq<JoinPlans.Origin>, nothing: seq<string> := [], [];
    assert items[..1] == ["Book.*"] && items[..1][..0] == nothing;
    assert AllOrigins(Library(), 1, [], nothing) == Ok(none);
    assert AllOrigins(Library(), 1, [], items[..1]) == Ok(none + [BookOrigin()]);
    assert AllOrigins(Library(), 1, [], items) == Ok(none + [BookOrigin()] + [ShopOrigin()]);
    assert none + [BookOrigin()] + [ShopOrigin()] == [BookOrigin(), ShopOrigin()];
  }

  lemma {:induction false} AliasNotEmpty(g: Gen, key: string)
    requires Sound(g) && key in g.mapping
    ensures g.mapping[key] != ""
  {
    var origin: map<string, Making> :| From(g, origin);
    assert |Numbered(g.prefix, origin[key].number, origin[key].table)| > 0;
  }

  /** Two joins with different keys are both kept. */
  lemma {:induction false} BothKept(a: JoinDef, b: JoinDef)
    requires Key(a) != Key(b)
    ensures Dedup([a, b]) == [a, b]
  {
    var none: seq<JoinDef> := [];
    assert [a, b][..1] == [a] && [a][..0] == none;
    assert KeysOf(none) == {};
    assert KeysOf([a]) == {Key(a)} by {
      assert Key([a][0]) == Key(a);
    }
    assert Fresh({}, [a]) == [a];
  }

  lemma {:induction false} BookAndShopJoins(g: Gen)
    requires Sound(g) && PathKnown(g, ["Book"])
    ensures var js := Dedup(JoinsOf("authors", g, [BookOrigin(), ShopOrigin()]));
            |js| == 2 && js[0].table == "books" && js[1].table == "shops" && js[0].alias == js[1].alias
  {
    var js := JoinsOf("authors", g, [BookOrigin(), ShopOrigin()]);
    var own := Alias(g, ["Book"]);
    assert Join(["Book"]) == "Book";
    AliasNotEmpty(g, "Book");
    hide Sound, ConditionText, Join, Dotless;
    ColumnsApart("authors", "book_id", own, "id", "code");
    assert js[0].condition == [Pair(Col("authors", "book_id"), Col(own, "id"))];
    assert js[1].condition == [Pair(Col("authors", "book_id"), Col(own, "code"))];
    assert js == [js[0], js[1]];
    BothKept(js[0], js[1]);
  }

  /** The selection ends with two tables joined under one alias. */
  method SelectBookAndShop() returns (q: Query)
    ensures |q.joins| == 2 && q.joins[0].table == "books" && q.joins[1].table == "shops" && q.joins[0].alias == q.joins[1].alias
    ensures !NoAliasTwice(q.joins)
  {
    BookAndShop();
    hide AllOrigins, AllInfos, Consistent, Sound, ItemOrigins, BookOrigin, ShopOrigin;
    var start := new Query(Library(), 1, [], "");
    var r := start.Select(["Book.*", "Book.Shop"]);
    q := r.value;
    ghost var none: seq<JoinPlans.Origin>, os := [], [BookOrigin(), ShopOrigin()];
    assert Named(["Book.*", "Book.Shop"]) == ["Book.*", "Book.Shop"] && q.asked == none + os == os;
    BookKnown(q.gen.Now());
    JoinsOnce(q.Base(), q.gen.Now(), os, q.joinsMap, q.joins);
    BookAndShopJoins(q.gen.Now());
  }

  lemma {:induction false} BookKnown(g: Gen)
    ensures PathsKnown(g, [BookOrigin(), ShopOrigin()]) ==> PathKnown(g, ["Book"])
  {
    assert [BookOrigin(), ShopOrigin()][0].path == ["Book"];
  }
}
