/** The migration planner: from a set of migrations that name their dependencies to an order in
    which every migration comes after the ones it depends on. */
module MigrationGraph {
  import opened Outcomes

  datatype Dependency = Dependency(app: string, model: string, name: string)

  datatype Mig = Mig(app: string, model: string, fileName: string, deps: seq<Dependency>)

  function KeyOf(app: string, model: string, name: string): string {
    app + ":" + model + ":" + name
  }

  function Key(m: Mig): string {
    KeyOf(m.app, m.model, m.fileName)
  }

  function DepKeys(ds: seq<Dependency>): seq<string> {
    seq(|ds|, i requires 0 <= i < |ds| => KeyOf(ds[i].app, ds[i].model, ds[i].name))
  }

  // ----- what a plan is -----

  /** What each migration depends on, by key. */
  type Graph = map<string, seq<string>>

  /** Migrations by key; a later one replaces an earlier one with the same key. */
  function Latest(migs: seq<Mig>): (ms: map<string, Mig>)
    ensures forall k :: k in ms ==> Key(ms[k]) == k
  {
    if migs == [] then map[]
    else Latest(migs[..|migs| - 1])[Key(migs[|migs| - 1]) := migs[|migs| - 1]]
  }

  function GraphOf(ms: map<string, Mig>): Graph {
    map k | k in ms :: DepKeys(ms[k].deps)
  }

  ghost predicate Closed(g: Graph) {
    forall k, d :: k in g && d in g[k] ==> d in g
  }

  /** Each key depends on the next. */
  ghost predicate Chain(g: Graph, c: seq<string>) {
    && (forall i :: 0 <= i < |c| ==> c[i] in g)
    && (forall i :: 0 < i < |c| ==> c[i] in g[c[i - 1]])
  }

  ghost predicate Cycle(g: Graph, c: seq<string>) {
    c != [] && Chain(g, c) && c[0] in g[c[|c| - 1]]
  }

  ghost predicate Cyclic(g: Graph) {
    exists c :: Cycle(g, c)
  }

  ghost predicate Distinct(s: seq<string>) {
    forall i, j :: 0 <= i < j < |s| ==> s[i] != s[j]
  }

  ghost predicate DepsBefore(g: Graph, order: seq<string>) {
    forall i :: 0 <= i < |order| ==> order[i] in g && forall d :: d in g[order[i]] ==> d in order[..i]
  }

  /** Every key exactly once, after everything it depends on. */
  ghost predicate IsPlan(g: Graph, order: seq<string>) {
    Distinct(order) && (forall k :: k in g <==> k in order) && DepsBefore(g, order)
  }

  lemma {:induction false} ChainDescends(g: Graph, order: seq<string>, c: seq<string>, j: nat, i: nat) returns (m: nat)
    requires DepsBefore(g, order) && Chain(g, c) && j < |c| && i < |order| && order[i] == c[0]
    ensures m <= i && m < |order| && order[m] == c[j]
  {
    if j == 0 {
      m := i;
    } else {
      var n := ChainDescends(g, order, c, j - 1, i);
      assert c[j] in g[order[n]];
      m :| 0 <= m < n && order[m] == c[j];
    }
  }

  /** Only an acyclic graph has a plan. */
  lemma {:induction false} PlanMeansNoCycle(g: Graph, order: seq<string>)
    requires IsPlan(g, order)
    ensures Closed(g) && !Cyclic(g)
  {
    forall k, d | k in g && d in g[k] ensures d in g {
      var i :| 0 <= i < |order| && order[i] == k;
      assert d in order[..i];
    }
    forall c | c != [] && Chain(g, c) ensures !Cycle(g, c) {
      var i :| 0 <= i < |order| && order[i] == c[0];
      var m := ChainDescends(g, order, c, |c| - 1, i);
      assert forall d :: d in g[order[m]] ==> d in order[..m];
      assert order[i] !in order[..m];
    }
  }

  /** A plan under way, from its last migration backwards; `done` are its keys. */
  ghost predicate Listed(g: Graph, order: seq<string>, done: set<string>) {
    if order == [] then done == {}
    else
      var k := order[|order| - 1];
      && Listed(g, order[..|order| - 1], done - {k})
      && k in done && k in g && forall j :: 0 <= j < |g[k]| ==> g[k][j] in done - {k}
  }

  /** The same for a chain of visits under way. */
  ghost predicate Path(g: Graph, c: seq<string>, open: set<string>) {
    if c == [] then open == {}
    else
      var k := c[|c| - 1];
      && Path(g, c[..|c| - 1], open - {k})
      && k in open && k in g && (|c| > 1 ==> k in g[c[|c| - 2]])
  }

  lemma {:induction false} ListedIsPlan(g: Graph, order: seq<string>, done: set<string>)
    requires Listed(g, order, done)
    ensures Distinct(order) && DepsBefore(g, order) && forall k :: k in done <==> k in order
  {
    if order != [] {
      var k, before := order[|order| - 1], order[..|order| - 1];
      ListedIsPlan(g, before, done - {k});
      forall i | 0 <= i < |order| ensures order[i] in g && forall d :: d in g[order[i]] ==> d in order[..i] {
        assert i < |before| ==> order[..i] == before[..i];
      }
      assert order == before + [k];
      assert forall x :: x in order <==> x in before || x == k;
    }
  }

  lemma {:induction false} PathIsChain(g: Graph, c: seq<string>, open: set<string>)
    requires Path(g, c, open)
    ensures Chain(g, c) && forall k :: k in open <==> k in c
  {
    if c != [] {
      var k, before := c[|c| - 1], c[..|c| - 1];
      PathIsChain(g, before, open - {k});
      assert c == before + [k];
      assert forall x :: x in c <==> x in before || x == k;
    }
  }

  lemma {:induction false} ClosesCycle(g: Graph, stack: seq<string>, open: set<string>, k: string)
    requires Path(g, stack, open) && stack != [] && k in g[stack[|stack| - 1]] && k in open
    ensures Cyclic(g)
  {
    PathIsChain(g, stack, open);
    var i :| 0 <= i < |stack| && stack[i] == k;
    assert Cycle(g, stack[i..]);
  }

  lemma {:induction false} ListedLast(g: Graph, order: seq<string>, done: set<string>, k: string)
    requires Listed(g, order, done) && k in g && k !in done && forall j :: 0 <= j < |g[k]| ==> g[k][j] in done
    ensures Listed(g, order + [k], done + {k})
  {
    assert (order + [k])[..|order|] == order;
    assert done + {k} - {k} == done;
  }

  lemma {:induction false} PathLast(g: Graph, c: seq<string>, open: set<string>, k: string)
    requires Path(g, c, open) && k in g && k !in open && (c != [] ==> k in g[c[|c| - 1]])
    ensures Path(g, c + [k], open + {k})
  {
    assert (c + [k])[..|c|] == c;
    assert open + {k} - {k} == open;
  }

  lemma {:induction false} NotClosed(g: Graph, k: string, d: string)
    requires k in g && d in g[k] && d !in g
    ensures !Closed(g)
  {
  }

  // ----- the depth-first sort -----

  class Node {
    const mig: Mig
    var deps: seq<Node>
    var visited: bool
    var visiting: bool

    constructor (m: Mig)
      ensures mig == m && deps == [] && !visited && !visiting
    {
      mig, deps, visited, visiting := m, [], false, false;
    }
  }

  class Planner {
    var nodes: map<string, Node>
    var ordered: seq<Node>
    ghost var listed: seq<string>    // the keys of `ordered`
    ghost var done: set<string>      // the same, as a set
    ghost var repr: set<Node>        // every node

    constructor ()
      ensures nodes == map[] && ordered == [] && listed == [] && done == {} && repr == {}
    {
      nodes, ordered, listed, done, repr := map[], [], [], {}, {};
    }

    /** Each node is filed under its own key and linked to the nodes of its dependencies. */
    ghost predicate Linked(g: Graph)
      reads this`nodes, this`repr, repr`deps
    {
      && g.Keys == nodes.Keys
      && (forall k :: k in nodes ==> nodes[k] in repr && Key(nodes[k].mig) == k && |nodes[k].deps| == |g[k]|)
      && (forall k, j :: k in nodes && 0 <= j < |g[k]| ==> g[k][j] in nodes && nodes[k].deps[j] == nodes[g[k][j]])
    }

    /** The marks tell what is listed and what is under way. */
    ghost predicate Marked(open: set<string>)
      reads this`nodes, this`done, this`repr, repr`visited, repr`visiting
    {
      && done !! open
      && forall k :: k in nodes ==> nodes[k] in repr && (nodes[k].visited <==> k in done) && (nodes[k].visiting <==> k in open)
    }

    ghost predicate Recorded()
      reads this`nodes, this`ordered, this`listed
    {
      && |ordered| == |listed|
      && (forall i :: 0 <= i < |listed| ==> listed[i] in nodes && ordered[i] == nodes[listed[i]])
    }

    /** `open` are the migrations whose visit is under way. */
    ghost predicate Valid(g: Graph, open: set<string>)
      reads this, repr
    {
      Linked(g) && Marked(open) && Recorded() && Listed(g, listed, done)
    }

    /** Migrations not yet reached. */
    ghost function Unseen(open: set<string>): set<string>
      reads this`nodes, this`done
    {
      nodes.Keys - done - open
    }

    /** The beginning of a visit: `n` is under way, and one migration less is unseen. */
    method Enter(n: Node, ghost g: Graph, ghost stack: seq<string>, ghost open: set<string>)
      requires Valid(g, open) && Path(g, stack, open)
      requires Key(n.mig) in nodes && nodes[Key(n.mig)] == n && !n.visited && !n.visiting
      requires stack != [] ==> Key(n.mig) in g[stack[|stack| - 1]]
      modifies n`visiting
      ensures Key(n.mig) !in open && Key(n.mig) !in done
      ensures Valid(g, open + {Key(n.mig)}) && Path(g, stack + [Key(n.mig)], open + {Key(n.mig)})
      ensures Unseen(open + {Key(n.mig)}) < Unseen(open)
    {
      PathLast(g, stack, open, Key(n.mig));
      n.visiting := true;
      assert Key(n.mig) in Unseen(open);
    }

    /** The end of a visit: everything `n` depends on is listed, and now `n` is. */
    method Append(n: Node, ghost g: Graph, ghost open: set<string>)
      requires Valid(g, open + {Key(n.mig)}) && Key(n.mig) !in open
      requires Key(n.mig) in nodes && nodes[Key(n.mig)] == n
      requires forall d :: d in g[Key(n.mig)] ==> d in done
      modifies this`ordered, this`listed, this`done, n`visited, n`visiting
      ensures Valid(g, open) && n.visited && done == old(done) + {Key(n.mig)} && ordered == old(ordered) + [n]
    {
      ListedLast(g, listed, done, Key(n.mig));
      Leave(n, open);
      Record(n);
    }

    method Leave(n: Node, ghost open: set<string>)
      requires Marked(open + {Key(n.mig)}) && Key(n.mig) !in open
      requires Key(n.mig) in nodes && nodes[Key(n.mig)] == n && forall k :: k in nodes ==> Key(nodes[k].mig) == k
      modifies this`done, n`visited, n`visiting
      ensures Marked(open) && n.visited && done == old(done) + {Key(n.mig)}
    {
      n.visited := true;
      n.visiting := false;
      done := done + {Key(n.mig)};
    }

    method Record(n: Node)
      requires Recorded() && Key(n.mig) in nodes && nodes[Key(n.mig)] == n
      modifies this`ordered, this`listed
      ensures Recorded() && listed == old(listed) + [Key(n.mig)] && ordered == old(ordered) + [n]
    {
      ordered := ordered + [n];
      listed := listed + [Key(n.mig)];
    }

    /** Visit a migration: it is listed after everything it depends on, or its dependencies
        lead back to it. `stack` holds the visits under way, outermost first. */
    method Visit(n: Node, ghost g: Graph, ghost stack: seq<string>, ghost open: set<string>) returns (ok: bool)
      requires Valid(g, open) && Path(g, stack, open)
      requires Key(n.mig) in nodes && nodes[Key(n.mig)] == n
      requires stack != [] ==> Key(n.mig) in g[stack[|stack| - 1]]
      modifies this`ordered, this`listed, this`done, repr`visited, repr`visiting
      decreases Unseen(open), 1
      ensures ok ==> Valid(g, open) && Key(n.mig) in done && old(done) <= done
      ensures !ok ==> Cyclic(g)
    {
      if n.visited {
        return true;
      }
      if n.visiting {
        ClosesCycle(g, stack, open, Key(n.mig));
        return false;
      }
      ok := VisitNew(n, g, stack, open);
    }

    /** A migration met for the first time: its dependencies, and then itself. */
    method VisitNew(n: Node, ghost g: Graph, ghost stack: seq<string>, ghost open: set<string>) returns (ok: bool)
      requires Valid(g, open) && Path(g, stack, open)
      requires Key(n.mig) in nodes && nodes[Key(n.mig)] == n && !n.visited && !n.visiting
      requires stack != [] ==> Key(n.mig) in g[stack[|stack| - 1]]
      modifies this`ordered, this`listed, this`done, repr`visited, repr`visiting
      decreases Unseen(open), 0
      ensures ok ==> Valid(g, open) && Key(n.mig) in done && old(done) <= done
      ensures !ok ==> Cyclic(g)
    {
      Enter(n, g, stack, open);
      ok := VisitDependencies(n, g, stack + [Key(n.mig)], open + {Key(n.mig)});
      if ok {
        Append(n, g, open);
      }
    }

    /** The loop of a visit, over the dependencies of the innermost migration. */
    method VisitDependencies(n: Node, ghost g: Graph, ghost stack: seq<string>, ghost open: set<string>) returns (ok: bool)
      requires Valid(g, open) && Path(g, stack, open)
      requires Key(n.mig) in nodes && nodes[Key(n.mig)] == n
      requires stack != [] && stack[|stack| - 1] == Key(n.mig)
      modifies this`ordered, this`listed, this`done, repr`visited, repr`visiting
      decreases Unseen(open), 2
      ensures ok ==> Valid(g, open) && old(done) <= done && forall d :: d in g[Key(n.mig)] ==> d in done
      ensures !ok ==> Cyclic(g)
    {
      ghost var names := g[Key(n.mig)];
      for i := 0 to |n.deps|
        invariant Valid(g, open) && old(done) <= done
        invariant forall j :: 0 <= j < i ==> names[j] in done
      {
        assert n.deps[i] == nodes[names[i]];
        ok := Visit(n.deps[i], g, stack, open);
        if !ok {
          return;
        }
      }
      ok := true;
    }

    /** The nodes are those of `migs`. */
    ghost predicate Holds(migs: map<string, Mig>)
      reads this`nodes, this`repr
    {
      && nodes.Keys == migs.Keys
      && forall k :: k in nodes ==> nodes[k] in repr && nodes[k].mig == migs[k] && Key(migs[k]) == k
    }

    ghost predicate Untouched()
      reads this, repr`visited, repr`visiting
    {
      && ordered == [] && listed == [] && done == {}
      && forall k :: k in nodes ==> nodes[k] in repr && !nodes[k].visited && !nodes[k].visiting
    }

    /** A node for each migration; a later one takes the place of an earlier one with its key. */
    method CreateNodes(migs: seq<Mig>)
      requires nodes == map[] && ordered == [] && listed == [] && done == {} && repr == {}
      modifies this
      ensures Holds(Latest(migs)) && Untouched() && fresh(repr)
      ensures forall k :: k in nodes ==> nodes[k].deps == []
    {
      assert migs[..0] == [];
      for i := 0 to |migs|
        invariant Holds(Latest(migs[..i])) && Untouched() && fresh(repr)
        invariant forall k :: k in nodes ==> nodes[k].deps == []
      {
        assert migs[..i + 1][..i] == migs[..i];
        AddNode(migs[i], Latest(migs[..i]));
      }
      assert migs[..|migs|] == migs;
    }

    method AddNode(m: Mig, ghost migs: map<string, Mig>)
      requires Holds(migs) && Untouched() && forall k :: k in nodes ==> nodes[k].deps == []
      modifies this`nodes, this`repr
      ensures Holds(migs[Key(m) := m]) && Untouched() && fresh(repr - old(repr)) && old(repr) <= repr
      ensures forall k :: k in nodes ==> nodes[k].deps == []
    {
      var n := new Node(m);
      nodes := nodes[Key(m) := n];
      repr := repr + {n};
    }

    /** The nodes of the first `m` dependencies of `n` are linked. */
    ghost predicate LinkedUpTo(n: Node, names: seq<string>, m: nat)
      reads this`nodes, n`deps
    {
      m <= |names| && |n.deps| == m && forall j :: 0 <= j < m ==> names[j] in nodes && n.deps[j] == nodes[names[j]]
    }

    method LinkNode(n: Node, ghost names: seq<string>) returns (missing: Option<string>)
      requires names == DepKeys(n.mig.deps) && LinkedUpTo(n, names, 0)
      modifies n`deps
      ensures missing.None? ==> LinkedUpTo(n, names, |names|)
      ensures missing.Some? ==> missing.value in names && missing.value !in nodes
    {
      for i := 0 to |n.mig.deps|
        invariant LinkedUpTo(n, names, i)
      {
        var dep := n.mig.deps[i];
        var key := KeyOf(dep.app, dep.model, dep.name);
        assert names[i] == key;
        if key !in nodes {
          return Some(key);
        }
        n.deps := n.deps + [nodes[key]];
      }
      return None;
    }

    lemma {:induction false} AllLinked(g: Graph)
      requires g.Keys == nodes.Keys
      requires forall k :: k in nodes ==> LinkedUpTo(nodes[k], g[k], |g[k]|)
      ensures Closed(g)
    {
      forall k, d | k in g && d in g[k] ensures d in g {
        var j :| 0 <= j < |g[k]| && g[k][j] == d;
        assert LinkedUpTo(nodes[k], g[k], |g[k]|);
      }
    }

    /** `g` is the dependencies of the nodes. */
    ghost predicate Describes(g: Graph)
      reads this`nodes, this`repr
    {
      g.Keys == nodes.Keys
      && forall k :: k in nodes ==> nodes[k] in repr && Key(nodes[k].mig) == k && g[k] == DepKeys(nodes[k].mig.deps)
    }

    lemma {:induction false} Described(migs: map<string, Mig>)
      requires Holds(migs)
      ensures Describes(GraphOf(migs))
    {
    }

    lemma {:induction false} NothingVisited(g: Graph)
      requires Untouched() && Linked(g)
      ensures Valid(g, {})
    {
    }

    /** Link every node, in any order. */
    method LinkNodes(ghost g: Graph) returns (missing: Option<string>)
      requires Describes(g)
      requires forall k :: k in nodes ==> nodes[k].deps == []
      modifies repr`deps
      ensures missing.None? ==> Linked(g)
      ensures missing.None? <==> Closed(g)
    {
      var todo := nodes.Keys;
      while todo != {}
        invariant todo <= nodes.Keys
        invariant forall k :: k in nodes ==> LinkedUpTo(nodes[k], g[k], if k in todo then 0 else |g[k]|)
        decreases |todo|
      {
        var k :| k in todo;
        var n := nodes[k];
        assert forall other :: other in nodes && other != k ==> nodes[other] != n;
        missing := LinkNode(n, g[k]);
        if missing.Some? {
          NotClosed(g, k, missing.value);
          return;
        }
        todo := todo - {k};
      }
      AllLinked(g);
      return None;
    }

    lemma {:induction false} OrderIsPlan(g: Graph, migs: map<string, Mig>)
      requires Holds(migs) && Recorded() && IsPlan(g, listed)
      ensures IsPlan(g, MigKeys(MigsOf(ordered)))
      ensures forall m :: m in MigsOf(ordered) ==> Key(m) in migs && migs[Key(m)] == m
    {
      var ms := MigsOf(ordered);
      forall i | 0 <= i < |ms| ensures Key(ms[i]) == listed[i] && listed[i] in migs && migs[listed[i]] == ms[i] {
        assert ordered[i] == nodes[listed[i]];
      }
      assert MigKeys(ms) == listed;
    }

    /** Visit every node, in any order. */
    method Sort(ghost g: Graph) returns (ok: bool)
      requires Valid(g, {})
      modifies this`ordered, this`listed, this`done, repr`visited, repr`visiting
      ensures ok ==> Recorded() && Linked(g) && IsPlan(g, listed)
      ensures !ok ==> Cyclic(g)
    {
      var todo := nodes.Keys;
      while todo != {}
        invariant Valid(g, {}) && todo <= nodes.Keys
        invariant nodes.Keys - todo <= done
        decreases |todo|
      {
        var k :| k in todo;
        if !nodes[k].visited {
          ok := Visit(nodes[k], g, [], {});
          if !ok {
            return;
          }
        }
        todo := todo - {k};
      }
      ListedIsPlan(g, listed, done);
      ok := true;
    }
  }

  function MigKeys(ms: seq<Mig>): seq<string> {
    seq(|ms|, i requires 0 <= i < |ms| => Key(ms[i]))
  }

  function MigsOf(ns: seq<Node>): seq<Mig> {
    seq(|ns|, i requires 0 <= i < |ns| => ns[i].mig)
  }

  // ----- the planner -----

  datatype Outcome = Planned(order: seq<Mig>) | NotFound(key: string) | CyclicDependency

  /** No migration is lost as long as no two share a key. */
  lemma {:induction false} EveryMigrationHasANode(migs: seq<Mig>)
    ensures forall m :: m in migs ==> Key(m) in Latest(migs)
    ensures forall k :: k in Latest(migs) ==> Latest(migs)[k] in migs
    ensures (forall i, j :: 0 <= i < j < |migs| ==> Key(migs[i]) != Key(migs[j])) ==>
              forall m :: m in migs ==> Latest(migs)[Key(m)] == m
  {
    if migs != [] {
      var before := migs[..|migs| - 1];
      EveryMigrationHasANode(before);
      assert migs == before + [migs[|migs| - 1]];
    }
  }

  /** The planner succeeds exactly when every dependency names a migration of the set and there
      is no cycle, whatever order the maps are walked in; and then it lists every migration
      exactly once, after everything it depends on. */
  method BuildDependencyGraph(migs: seq<Mig>) returns (r: Outcome)
    ensures r.NotFound? <==> !Closed(GraphOf(Latest(migs)))
    ensures r.CyclicDependency? <==> Closed(GraphOf(Latest(migs))) && Cyclic(GraphOf(Latest(migs)))
    ensures r.Planned? ==> IsPlan(GraphOf(Latest(migs)), MigKeys(r.order))
    ensures r.Planned? ==> forall m :: m in r.order ==> Key(m) in Latest(migs) && Latest(migs)[Key(m)] == m
  {
    ghost var g := GraphOf(Latest(migs));
    var p, missing := Prepare(migs, g);
    if missing.Some? {
      return NotFound(missing.value);
    }
    var ok := p.Sort(g);
    if !ok {
      return CyclicDependency;
    }
    PlanMeansNoCycle(g, p.listed);
    p.OrderIsPlan(g, Latest(migs));
    return Planned(MigsOf(p.ordered));
  }

  /** A node for each migration, linked to the nodes of its dependencies. */
  method Prepare(migs: seq<Mig>, ghost g: Graph) returns (p: Planner, missing: Option<string>)
    requires g == GraphOf(Latest(migs))
    ensures fresh(p) && fresh(p.repr) && p.Holds(Latest(migs))
    ensures missing.None? <==> Closed(g)
    ensures missing.None? ==> p.Valid(g, {})
  {
    p := new Planner();
    p.CreateNodes(migs);
    p.Described(Latest(migs));
    missing := p.LinkNodes(g);
    if missing.None? {
      p.NothingVisited(g);
    }
  }

  // ----- applying only what has not been applied -----

  function Unapplied(migs: seq<Mig>, applied: set<string>): seq<Mig> {
    if migs == [] then []
    else Unapplied(migs[..|migs| - 1], applied) + if Key(migs[|migs| - 1]) in applied then [] else [migs[|migs| - 1]]
  }

  lemma {:induction false} UpdateMinus<V>(m: map<string, V>, k: string, v: V, s: set<string>)
    ensures m[k := v] - s == if k in s then m - s else (m - s)[k := v]
  {
  }

  lemma {:induction false} LatestSnoc(migs: seq<Mig>, m: Mig)
    ensures Latest(migs + [m]) == Latest(migs)[Key(m) := m]
  {
    assert (migs + [m])[..|migs|] == migs;
  }

  lemma {:induction false} LatestUnapplied(migs: seq<Mig>, applied: set<string>)
    ensures Latest(Unapplied(migs, applied)) == Latest(migs) - applied
  {
    if migs != [] {
      var before, m := migs[..|migs| - 1], migs[|migs| - 1];
      var rest := Unapplied(before, applied);
      LatestUnapplied(before, applied);
      UpdateMinus(Latest(before), Key(m), m, applied);
      LatestSnoc(rest, m);
      assert rest + [] == rest;
    }
  }

  /** The migration command plans only the migrations that are not yet applied.  When the whole
      set can be planned, that succeeds exactly when no migration still to be applied depends
      on one that already is. */
  lemma {:induction false} IncrementalPlan(migs: seq<Mig>, applied: set<string>)
    requires Closed(GraphOf(Latest(migs))) && !Cyclic(GraphOf(Latest(migs)))
    ensures var g, left := GraphOf(Latest(migs)), GraphOf(Latest(Unapplied(migs, applied)));
            && !Cyclic(left)
            && (Closed(left) <==> forall k, d :: k in g && k !in applied && d in g[k] ==> d !in applied)
  {
    LatestUnapplied(migs, applied);
    var g, left := GraphOf(Latest(migs)), GraphOf(Latest(Unapplied(migs, applied)));
    assert forall k :: k in left <==> k in g && k !in applied;
    forall c | c != [] && Chain(left, c) ensures !Cycle(left, c) {
      assert Chain(g, c);
      assert !Cycle(g, c);
    }
  }

  /** A plan lost that way: one migration depends on another.  Both together are
      planned; once the first is applied, the second is not found a place. */
  lemma {:induction false} SecondMigrationIsStuck()
    ensures var first, second := Mig("shop", "Book", "0001", []), Mig("shop", "Book", "0002", [Dependency("shop", "Book", "0001")]);
            && Closed(GraphOf(Latest([first, second]))) && !Cyclic(GraphOf(Latest([first, second])))
            && !Closed(GraphOf(Latest(Unapplied([first, second], {Key(first)}))))
  {
    var first, second := Mig("shop", "Book", "0001", []), Mig("shop", "Book", "0002", [Dependency("shop", "Book", "0001")]);
    assert |Key(first)| == |Key(second)| == 14 && Key(first)[13] != Key(second)[13];
    PairOfMigrations(first, second);
    PairIsPlanned(GraphOf(Latest([first, second])), Key(first), Key(second));
    IncrementalPlan([first, second], {Key(first)});
  }

  lemma {:induction false} PairOfMigrations(first: Mig, second: Mig)
    requires Key(first) != Key(second) && first.deps == []
    requires second.deps == [Dependency(first.app, first.model, first.fileName)]
    ensures GraphOf(Latest([first, second])) == map[Key(first) := [], Key(second) := [Key(first)]]
  {
    LatestSnoc([first], second);
    LatestSnoc([], first);
    assert [] + [first] == [first] && [first] + [second] == [first, second];
    assert DepKeys(first.deps) == [] && DepKeys(second.deps) == [Key(first)];
    assert Latest([first, second]) == map[Key(first) := first, Key(second) := second];
  }

  lemma {:induction false} PairIsPlanned(g: Graph, a: string, b: string)
    requires a != b && g == map[a := [], b := [a]]
    ensures Closed(g) && !Cyclic(g) && b in g && b !in {a} && a in g[b]
  {
    var order := [a, b];
    assert order[..1] == [a];
    forall i | 0 <= i < |order| ensures order[i] in g && forall d :: d in g[order[i]] ==> d in order[..i] {
    }
    PlanMeansNoCycle(g, order);
  }
}
