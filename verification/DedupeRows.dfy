/** The row deduplicator: linked objects with ordered relation lists, filled row by row.

    Objects and relations live in a store and refer to each other by their place in it. */
module DedupeRows {
  import opened Outcomes
  import opened DedupeForest
  import opened Keys
  import opened OrderedMaps

  /** Objects by key, in order. */
  type Objects = OrderedMap<Key, nat>

  const NO_OBJECTS: Objects := OrderedMap([], map[])

  /** An object and, by name, its relations. */
  datatype Node = Node(key: Key, definer: Option<Object>, through: Option<Object>, relations: map<string, nat>)

  /** A relation and its objects, by key. */
  datatype Relation = Relation(relType: RelType, objects: Objects)

  /** Every object and every relation, by number, and the root objects. */
  datatype Store = Store(nodes: seq<Node>, relations: seq<Relation>, roots: Objects)

  const NOTHING := Store([], [], NO_OBJECTS)

  function NewNode(k: Key, info: Info): Node {
    Node(k, info.definer, info.through, map[])
  }

  // ----- what each operation does to the store -----

  function Related(ns: seq<Node>, i: nat, chain: string, r: nat): seq<Node>
    requires i < |ns|
  {
    ns[i := ns[i].(relations := ns[i].relations[chain := r])]
  }

  function Listing(rs: seq<Relation>, r: nat, k: Key, i: nat): seq<Relation>
    requires r < |rs|
  {
    rs[r := rs[r].(objects := Set(rs[r].objects, k, i))]
  }

  function PutRoot(st: Store, key: Key, info: Info): Store {
    if key in st.roots.at then st
    else st.(nodes := st.nodes + [NewNode(key, info)], roots := Set(st.roots, key, |st.nodes|))
  }

  /** The relation of an object that a part belongs to, made when it is not there yet. */
  function PutRelation(st: Store, i: nat, part: Part): (Store, nat)
    requires i < |st.nodes|
  {
    if part.chain in st.nodes[i].relations then (st, st.nodes[i].relations[part.chain])
    else
      (st.(nodes := Related(st.nodes, i, part.chain, |st.relations|), relations := st.relations + [Relation(part.relType, NO_OBJECTS)]),
       |st.relations|)
  }

  /** The object of a relation with the part's key, made when it is not there yet. */
  function PutChild(st: Store, r: nat, part: Part): (Store, nat)
    requires r < |st.relations|
  {
    if part.key in st.relations[r].objects.at then (st, st.relations[r].objects.at[part.key])
    else
      (st.(nodes := st.nodes + [NewNode(part.key, Info(Some(part.definer), part.through))],
           relations := Listing(st.relations, r, part.key, |st.nodes|)),
       |st.nodes|)
  }

  /** A chain, from the object it hangs on; None where a number is used that was never given. */
  function PutChain(st: Store, i: nat, parts: seq<Part>): Option<Store>
    decreases |parts|
  {
    if i >= |st.nodes| then None
    else if parts == [] || Ends(parts[0]) then Some(st)
    else
      var (st1, r) := PutRelation(st, i, parts[0]);
      if r >= |st1.relations| then None
      else
        var (st2, j) := PutChild(st1, r, parts[0]);
        PutChain(st2, j, parts[1..])
  }

  // ----- the store against the forest -----

  /** Where the nodes and slots of the forest are stored, and what is stored where. */
  datatype Places = Places(nodes: map<Path, nat>, slots: map<Slot, nat>, paths: seq<Path>, slotAt: seq<Slot>)

  predicate Holds(n: Node, p: Path, info: Info) {
    n.key == p.key && n.definer == info.definer && n.through == info.through
  }

  ghost predicate NodesFit(ns: seq<Node>, at: map<Path, nat>, paths: seq<Path>, info: map<Path, Info>) {
    && at.Keys == info.Keys && |paths| == |ns|
    && forall p :: p in at ==> at[p] < |ns| && paths[at[p]] == p && Holds(ns[at[p]], p, info[p])
  }

  ghost predicate SlotsFit(rs: seq<Relation>, at: map<Slot, nat>, slots: seq<Slot>, kids: map<Slot, seq<Key>>, types: map<Slot, RelType>) {
    && at.Keys == kids.Keys && types.Keys == kids.Keys && |slots| == |rs|
    && forall s :: s in at ==> at[s] < |rs| && slots[at[s]] == s && rs[at[s]].relType == types[s] && rs[at[s]].objects.keys == kids[s]
  }

  /** A node links to the relations of its slots. */
  ghost predicate NodeLinks(ns: seq<Node>, at: map<Path, nat>, slots: map<Slot, nat>) {
    && (forall p :: p in at ==> at[p] < |ns|)
    && (forall p, c :: p in at ==> (c in ns[at[p]].relations <==> Slot(p, c) in slots))
    && (forall p, c :: p in at && c in ns[at[p]].relations ==> ns[at[p]].relations[c] == slots[Slot(p, c)])
  }

  /** A relation links to the nodes below it. */
  ghost predicate SlotLinks(rs: seq<Relation>, at: map<Slot, nat>, nodes: map<Path, nat>) {
    && (forall s :: s in at ==> at[s] < |rs|)
    && (forall s, k :: s in at ==> (k in rs[at[s]].objects.at <==> Child(s, k) in nodes))
    && (forall s, k :: s in at && k in rs[at[s]].objects.at ==> rs[at[s]].objects.at[k] == nodes[Child(s, k)])
  }

  /** The root objects are those of the roots. */
  ghost predicate RootsFit(m: Objects, at: map<Path, nat>, roots: seq<Key>) {
    && m.keys == roots && (forall k :: k in m.at <==> RootOf(k) in at)
    && (forall k :: k in m.at ==> RootOf(k) in at && m.at[k] == at[RootOf(k)])
  }

  /** The store is exactly the forest. */
  ghost predicate Fits(st: Store, v: Places, f: Forest) {
    && NodesFit(st.nodes, v.nodes, v.paths, f.info) && SlotsFit(st.relations, v.slots, v.slotAt, f.kids, f.types)
    && NodeLinks(st.nodes, v.nodes, v.slots) && SlotLinks(st.relations, v.slots, v.nodes)
    && RootsFit(st.roots, v.nodes, f.roots)
  }

  // ----- a new node -----

  lemma {:induction false} NodeAdded(ns: seq<Node>, at: map<Path, nat>, paths: seq<Path>, info: map<Path, Info>, p: Path, n: Node, i: Info)
    requires NodesFit(ns, at, paths, info) && p !in info && Holds(n, p, i)
    ensures NodesFit(ns + [n], at[p := |ns|], paths + [p], info[p := i])
  {
  }

  lemma {:induction false} NodeLinked(ns: seq<Node>, at: map<Path, nat>, slots: map<Slot, nat>, p: Path, n: Node)
    requires NodeLinks(ns, at, slots) && n.relations == map[] && forall c :: Slot(p, c) !in slots
    ensures NodeLinks(ns + [n], at[p := |ns|], slots)
  {
  }

  lemma {:induction false} RootBelowNothing(rs: seq<Relation>, at: map<Slot, nat>, nodes: map<Path, nat>, key: Key, i: nat)
    requires SlotLinks(rs, at, nodes)
    ensures SlotLinks(rs, at, nodes[RootOf(key) := i])
  {
  }

  lemma {:induction false} RootListed(m: Objects, at: map<Path, nat>, roots: seq<Key>, key: Key, i: nat)
    requires RootsFit(m, at, roots) && key !in m.at
    ensures RootsFit(Set(m, key, i), at[RootOf(key) := i], roots + [key])
  {
  }

  lemma {:induction false} ChildIsNoRoot(m: Objects, at: map<Path, nat>, roots: seq<Key>, p: Path, i: nat)
    requires RootsFit(m, at, roots) && p.Under?
    ensures RootsFit(m, at[p := i], roots)
  {
  }

  // ----- a new relation -----

  lemma {:induction false} NodesRelated(ns: seq<Node>, at: map<Path, nat>, paths: seq<Path>, info: map<Path, Info>, i: nat, chain: string, r: nat)
    requires NodesFit(ns, at, paths, info) && i < |ns|
    ensures NodesFit(Related(ns, i, chain, r), at, paths, info)
  {
  }

  lemma {:induction false} RelationLinked(ns: seq<Node>, at: map<Path, nat>, paths: seq<Path>, slots: map<Slot, nat>, s: Slot, r: nat)
    requires NodeLinks(ns, at, slots) && s.parent in at && s !in slots
    requires |paths| == |ns| && forall p :: p in at ==> at[p] < |ns| && paths[at[p]] == p
    ensures NodeLinks(Related(ns, at[s.parent], s.chain, r), at, slots[s := r])
  {
    assert forall p :: p in at && at[p] == at[s.parent] ==> p == s.parent;
    assert s == Slot(s.parent, s.chain);
  }

  lemma {:induction false} RelationAdded(rs: seq<Relation>, at: map<Slot, nat>, slots: seq<Slot>, kids: map<Slot, seq<Key>>,
                                         types: map<Slot, RelType>, s: Slot, t: RelType)
    requires SlotsFit(rs, at, slots, kids, types) && s !in kids
    ensures SlotsFit(rs + [Relation(t, NO_OBJECTS)], at[s := |rs|], slots + [s], kids[s := []], types[s := t])
  {
  }

  lemma {:induction false} RelationEmpty(rs: seq<Relation>, at: map<Slot, nat>, nodes: map<Path, nat>, s: Slot, t: RelType)
    requires SlotLinks(rs, at, nodes) && s !in at && forall k :: Child(s, k) !in nodes
    ensures SlotLinks(rs + [Relation(t, NO_OBJECTS)], at[s := |rs|], nodes)
  {
  }

  // ----- a new child -----

  lemma {:induction false} ChildListed(rs: seq<Relation>, at: map<Slot, nat>, slots: seq<Slot>, kids: map<Slot, seq<Key>>,
                                       types: map<Slot, RelType>, s: Slot, k: Key, i: nat)
    requires SlotsFit(rs, at, slots, kids, types) && s in at && k !in rs[at[s]].objects.at
    ensures SlotsFit(Listing(rs, at[s], k, i), at, slots, kids[s := kids[s] + [k]], types)
  {
    assert forall t :: t in at && at[t] == at[s] ==> t == s;
  }

  lemma {:induction false} ChildLinked(rs: seq<Relation>, at: map<Slot, nat>, slots: seq<Slot>, nodes: map<Path, nat>, s: Slot, k: Key, i: nat)
    requires SlotLinks(rs, at, nodes) && s in at && Child(s, k) !in nodes
    requires |slots| == |rs| && forall t :: t in at ==> at[t] < |rs| && slots[at[t]] == t
    ensures SlotLinks(Listing(rs, at[s], k, i), at, nodes[Child(s, k) := i])
  {
    assert forall t :: t in at && at[t] == at[s] ==> t == s;
  }

  // ----- each against the forest -----

  function RootPlaced(st: Store, v: Places, key: Key): Places {
    v.(nodes := v.nodes[RootOf(key) := |st.nodes|], paths := v.paths + [RootOf(key)])
  }

  function SlotPlaced(st: Store, v: Places, s: Slot): Places {
    v.(slots := v.slots[s := |st.relations|], slotAt := v.slotAt + [s])
  }

  function ChildPlaced(st: Store, v: Places, p: Path): Places {
    v.(nodes := v.nodes[p := |st.nodes|], paths := v.paths + [p])
  }

  lemma {:induction false} RootFits(st: Store, v: Places, f: Forest, key: Key, info: Info)
    requires Fits(st, v, f) && Grown(f) && key !in f.roots
    ensures Fits(PutRoot(st, key, info), RootPlaced(st, v, key), AddRoot(f, key, info))
  {
    assert RootOf(key) !in f.info;
    NothingBelow(f, RootOf(key));
    NodeAdded(st.nodes, v.nodes, v.paths, f.info, RootOf(key), NewNode(key, info), info);
    NodeLinked(st.nodes, v.nodes, v.slots, RootOf(key), NewNode(key, info));
    RootBelowNothing(st.relations, v.slots, v.nodes, key, |st.nodes|);
    RootListed(st.roots, v.nodes, f.roots, key, |st.nodes|);
  }

  lemma {:induction false} RelationFits(st: Store, v: Places, f: Forest, s: Slot, t: RelType)
    requires Fits(st, v, f) && Grown(f) && s.parent in f.info && s !in f.kids
    ensures Fits(Store(Related(st.nodes, v.nodes[s.parent], s.chain, |st.relations|), st.relations + [Relation(t, NO_OBJECTS)], st.roots),
                 SlotPlaced(st, v, s), AddSlot(f, s, t))
  {
    NotListed(f, s);
    NodesRelated(st.nodes, v.nodes, v.paths, f.info, v.nodes[s.parent], s.chain, |st.relations|);
    RelationLinked(st.nodes, v.nodes, v.paths, v.slots, s, |st.relations|);
    RelationAdded(st.relations, v.slots, v.slotAt, f.kids, f.types, s, t);
    RelationEmpty(st.relations, v.slots, v.nodes, s, t);
  }

  lemma {:induction false} ChildFits(st: Store, v: Places, f: Forest, s: Slot, k: Key, info: Info)
    requires Fits(st, v, f) && Grown(f) && s in f.kids && k !in f.kids[s]
    ensures Fits(Store(st.nodes + [NewNode(k, info)], Listing(st.relations, v.slots[s], k, |st.nodes|), st.roots),
                 ChildPlaced(st, v, Child(s, k)), AddChild(f, s, k, info))
  {
    Listed(f, s, k);
    NothingBelow(f, Child(s, k));
    NodeAdded(st.nodes, v.nodes, v.paths, f.info, Child(s, k), NewNode(k, info), info);
    NodeLinked(st.nodes, v.nodes, v.slots, Child(s, k), NewNode(k, info));
    ChildListed(st.relations, v.slots, v.slotAt, f.kids, f.types, s, k, |st.nodes|);
    ChildLinked(st.relations, v.slots, v.slotAt, v.nodes, s, k, |st.nodes|);
    ChildIsNoRoot(st.roots, v.nodes, f.roots, Child(s, k), |st.nodes|);
  }

  /** What a node says of a relation, the forest says. */
  lemma {:induction false} KnownSlot(st: Store, v: Places, f: Forest, at: Path, c: string)
    requires Fits(st, v, f) && at in f.info
    ensures c in st.nodes[v.nodes[at]].relations <==> Slot(at, c) in f.kids
    ensures c in st.nodes[v.nodes[at]].relations ==> st.nodes[v.nodes[at]].relations[c] == v.slots[Slot(at, c)]
  {
  }

  /** What a relation says of a key, the forest says. */
  lemma {:induction false} KnownChild(st: Store, v: Places, f: Forest, s: Slot, k: Key)
    requires Fits(st, v, f) && Grown(f) && s in f.kids
    ensures k in st.relations[v.slots[s]].objects.at <==> k in f.kids[s]
    ensures k in st.relations[v.slots[s]].objects.at ==>
              Child(s, k) in f.info && st.relations[v.slots[s]].objects.at[k] == v.nodes[Child(s, k)]
  {
    Listed(f, s, k);
  }

  // ----- each operation against the forest -----

  /** The store is exactly the forest, wherever things are. */
  ghost predicate Shows(st: Store, f: Forest) {
    Grown(f) && exists v :: Fits(st, v, f)
  }

  lemma {:induction false} PutRootFits(st: Store, v: Places, f: Forest, key: Key, info: Info) returns (w: Places)
    requires Fits(st, v, f) && Grown(f)
    ensures Fits(PutRoot(st, key, info), w, AddRoot(f, key, info))
  {
    assert key in f.roots <==> key in st.roots.at;
    if key in f.roots {
      w := v;
    } else {
      w := RootPlaced(st, v, key);
      RootFits(st, v, f, key, info);
    }
  }

  lemma {:induction false} PutRelationFits(st: Store, v: Places, f: Forest, at: Path, part: Part) returns (w: Places)
    requires Fits(st, v, f) && Grown(f) && at in f.info
    ensures v.nodes[at] < |st.nodes|
    ensures var s := Slot(at, part.chain);
            var (st1, r) := PutRelation(st, v.nodes[at], part);
            Fits(st1, w, AddSlot(f, s, part.relType)) && s in w.slots && w.slots[s] == r && r < |st1.relations|
  {
    var s := Slot(at, part.chain);
    KnownSlot(st, v, f, at, part.chain);
    if s in f.kids {
      w := v;
    } else {
      w := SlotPlaced(st, v, s);
      RelationFits(st, v, f, s, part.relType);
    }
  }

  lemma {:induction false} PutChildFits(st: Store, v: Places, f: Forest, s: Slot, part: Part) returns (w: Places)
    requires Fits(st, v, f) && Grown(f) && s in f.kids
    ensures v.slots[s] < |st.relations|
    ensures var p := Child(s, part.key);
            var (st1, i) := PutChild(st, v.slots[s], part);
            && Fits(st1, w, AddChild(f, s, part.key, Info(Some(part.definer), part.through)))
            && p in w.nodes && w.nodes[p] == i
  {
    var info := Info(Some(part.definer), part.through);
    KnownChild(st, v, f, s, part.key);
    if part.key in f.kids[s] {
      w := v;
    } else {
      w := ChildPlaced(st, v, Child(s, part.key));
      ChildFits(st, v, f, s, part.key, info);
    }
  }

  /** Inserting a chain never runs into a number that was not given out, and does to the store
      what it does to the forest. */
  lemma {:induction false} PutChainFits(st: Store, v: Places, f: Forest, at: Path, parts: seq<Part>) returns (w: Places)
    requires Fits(st, v, f) && Grown(f) && at in f.info
    ensures PutChain(st, v.nodes[at], parts).Some?
    ensures Fits(PutChain(st, v.nodes[at], parts).value, w, AddParts(f, at, parts))
    decreases |parts|
  {
    w := v;
    assert at in v.nodes && v.nodes[at] < |st.nodes|;
    if parts != [] && !Ends(parts[0]) {
      hide Fits, Grown;
      var s, next := Slot(at, parts[0].chain), Under(at, parts[0].chain, parts[0].key);
      var v1 := PutRelationFits(st, v, f, at, parts[0]);
      var (st1, r) := PutRelation(st, v.nodes[at], parts[0]);
      SlotGrows(f, s, parts[0].relType);
      var g := AddSlot(f, s, parts[0].relType);
      var v2 := PutChildFits(st1, v1, g, s, parts[0]);
      var (st2, j) := PutChild(st1, r, parts[0]);
      PartGrows(f, at, parts[0]);
      w := PutChainFits(st2, v2, AddPart(f, at, parts[0]), next, parts[1..]);
    }
  }

  lemma {:induction false} RootFollows(st: Store, v: Places, f: Forest, key: Key, info: Info)
    requires Fits(st, v, f) && Grown(f)
    ensures Shows(PutRoot(st, key, info), DedupeForest.AddRoot(f, key, info))
  {
    RootGrows(f, key, info);
    var w := PutRootFits(st, v, f, key, info);
  }

  lemma {:induction false} ChainFollows(st: Store, v: Places, f: Forest, root: Key, parts: seq<Part>)
    requires Fits(st, v, f) && Grown(f)
    ensures root in f.roots <==> root in st.roots.at
    ensures root in f.roots ==>
              var after := PutChain(st, st.roots.at[root], parts);
              after.Some? && Shows(after.value, AddParts(f, RootOf(root), parts))
  {
    assert root in f.roots <==> RootOf(root) in f.info;
    assert root in st.roots.at <==> RootOf(root) in v.nodes;
    if root in f.roots {
      PartsGrow(f, RootOf(root), parts);
      var w := PutChainFits(st, v, f, RootOf(root), parts);
    }
  }

  /** A root does to the store what it does to the forest. */
  lemma {:induction false} RootShown(st: Store, f: Forest, key: Key, info: Info)
    requires Shows(st, f)
    ensures Shows(PutRoot(st, key, info), DedupeForest.AddRoot(f, key, info))
  {
    var v :| Fits(st, v, f);
    RootFollows(st, v, f, key, info);
  }

  /** So does a chain, and it never runs into a number that was not given out. */
  lemma {:induction false} ChainShown(st: Store, f: Forest, root: Key, parts: seq<Part>)
    requires Shows(st, f)
    ensures root in f.roots <==> root in st.roots.at
    ensures root in f.roots ==>
              var after := PutChain(st, st.roots.at[root], parts);
              after.Some? && Shows(after.value, AddParts(f, RootOf(root), parts))
  {
    var v :| Fits(st, v, f);
    ChainFollows(st, v, f, root, parts);
  }

  /** A chain with its root's link in front. */
  type Links = c: seq<Part> | c != [] witness [Part(ManyToOne, "", NilKey, 0, None)]

  function ChainOf(c: Links): Op {
    Chain(c[0].key, c[1..])
  }

  /** The chains of one row, from a forest that has its root. */
  function ApplyChains(f: Forest, chains: seq<Links>): Result<Forest>
    decreases |chains|
  {
    if chains == [] then Ok(f)
    else
      var g :- Apply(f, ChainOf(chains[0]));
      ApplyChains(g, chains[1..])
  }

  /** What one result row does: its root, then a chain for every selected column of a relation. */
  function ApplyRow(f: Forest, key: Key, info: Info, chains: seq<Links>): Result<Forest> {
    var g :- Apply(f, Root(key, info));
    ApplyChains(g, chains)
  }

  // ----- the deduplicator -----

  class Rows {
    var nodes: seq<Node>
    var relations: seq<Relation>
    var roots: Objects

    constructor ()
      ensures Now() == NOTHING
    {
      nodes, relations, roots := [], [], NO_OBJECTS;
    }

    ghost function Now(): Store
      reads this
    {
      Store(nodes, relations, roots)
    }

    /** Add the top-level object of a row, unless its key is there already. */
    method AddRoot(key: Key, info: Info) returns (r: Result<nat>)
      modifies this
      ensures r.Panic? <==> key.NilKey?
      ensures Now() == if key.NilKey? then old(Now()) else PutRoot(old(Now()), key, info)
      ensures r.Ok? ==> key in roots.at && r.value == roots.at[key]
    {
      if key.NilKey? {
        return Panic;
      }
      if key in roots.at {
        return Ok(roots.at[key]);
      }
      roots := Set(roots, key, |nodes|);
      nodes := nodes + [NewNode(key, info)];
      return Ok(|nodes| - 1);
    }

    /** One link of a chain: the relation and the object are made when they are not there yet. */
    method Descend(current: nat, part: Part) returns (next: nat)
      requires current < |nodes| && PutRelation(Now(), current, part).1 < |PutRelation(Now(), current, part).0.relations|
      modifies this
      ensures var (st, r) := PutRelation(old(Now()), current, part);
              (Now(), next) == PutChild(st, r, part)
    {
      if part.chain !in nodes[current].relations {
        nodes := Related(nodes, current, part.chain, |relations|);
        relations := relations + [Relation(part.relType, NO_OBJECTS)];
      }
      var rel := nodes[current].relations[part.chain];
      if part.key !in relations[rel].objects.at {
        relations := Listing(relations, rel, part.key, |nodes|);
        nodes := nodes + [NewNode(part.key, Info(Some(part.definer), part.through))];
      }
      next := relations[rel].objects.at[part.key];
    }

    /** Add a chain of related objects under a root that is there; its first link only names the
        root. */
    method AddRelationChain(chain: seq<Part>) returns (r: Result<()>)
      requires chain != []
      requires chain[0].key in roots.at ==> PutChain(Now(), roots.at[chain[0].key], chain[1..]).Some?
      modifies this
      ensures r.Panic? <==> chain[0].key !in old(roots).at
      ensures r.Panic? ==> Now() == old(Now())
      ensures r.Ok? ==> PutChain(old(Now()), old(roots).at[chain[0].key], chain[1..]) == Some(Now())
    {
      if chain[0].key !in roots.at {
        return Panic;
      }
      var current, idx := roots.at[chain[0].key], 1;
      while idx < |chain|
        invariant 1 <= idx <= |chain|
        invariant PutChain(Now(), current, chain[idx..]).Some?
        invariant PutChain(Now(), current, chain[idx..]) == PutChain(old(Now()), old(roots).at[chain[0].key], chain[1..])
        decreases |chain| - idx
      {
        var part := chain[idx];
        assert chain[idx..][0] == part && chain[idx..][1..] == chain[idx + 1..];
        if Ends(part) {
          break;
        }
        current := Descend(current, part);
        idx := idx + 1;
      }
      return Ok(());
    }

    method AddChains(chains: seq<Links>, ghost f: Forest) returns (ok: bool)
      requires Shows(Now(), f)
      modifies this
      ensures ok <==> ApplyChains(f, chains).Ok?
      ensures ok ==> Shows(Now(), ApplyChains(f, chains).value)
    {
      ghost var g := f;
      for i := 0 to |chains|
        invariant Shows(Now(), g) && ApplyChains(g, chains[i..]) == ApplyChains(f, chains)
      {
        assert chains[i..][0] == chains[i] && chains[i..][1..] == chains[i + 1..];
        ChainShown(Now(), g, chains[i][0].key, chains[i][1..]);
        var added := AddRelationChain(chains[i]);
        if added.Panic? {
          return false;
        }
        g := AddParts(g, RootOf(chains[i][0].key), chains[i][1..]);
      }
      return true;
    }

    /** One result row: its root, then a chain for every selected column of a relation. */
    method AddRow(key: Key, info: Info, chains: seq<Links>, ghost f: Forest) returns (ok: bool)
      requires Shows(Now(), f)
      modifies this
      ensures ok <==> ApplyRow(f, key, info, chains).Ok?
      ensures ok ==> Shows(Now(), ApplyRow(f, key, info, chains).value)
    {
      RootShown(Now(), f, key, info);
      var r := AddRoot(key, info);
      if r.Panic? {
        return false;
      }
      ok := AddChains(chains, DedupeForest.AddRoot(f, key, info));
    }
  }

  // ----- a row is a run of operations -----

  function ChainOps(chains: seq<Links>): seq<Op> {
    seq(|chains|, i requires 0 <= i < |chains| => ChainOf(chains[i]))
  }

  lemma {:induction false} RunLast(ops: seq<Op>, op: Op)
    ensures Run(ops + [op]) == match Run(ops) case Panic => Panic case Ok(f) => Apply(f, op)
  {
    assert (ops + [op])[..|ops|] == ops;
  }

  lemma {:induction false} PanicStays(ops: seq<Op>, more: seq<Op>)
    requires Run(ops).Panic?
    ensures Run(ops + more).Panic?
    decreases |more|
  {
    if more == [] {
      assert ops + more == ops;
    } else {
      var rest := more[..|more| - 1];
      PanicStays(ops, rest);
      RunLast(ops + rest, more[|more| - 1]);
      assert ops + rest + [more[|more| - 1]] == ops + more;
    }
  }

  lemma {:induction false} ChainsRun(ops: seq<Op>, f: Forest, chains: seq<Links>)
    requires Run(ops) == Ok(f)
    ensures Run(ops + ChainOps(chains)) == ApplyChains(f, chains)
    decreases |chains|
  {
    if chains == [] {
      assert ops + ChainOps(chains) == ops;
    } else {
      var op, rest := ChainOf(chains[0]), ChainOps(chains[1..]);
      RunLast(ops, op);
      assert ops + ChainOps(chains) == ops + [op] + rest;
      if Run(ops + [op]).Ok? {
        ChainsRun(ops + [op], Run(ops + [op]).value, chains[1..]);
      } else {
        PanicStays(ops + [op], rest);
      }
    }
  }

  /** Adding rows one after the other is the run of all their roots and chains. */
  lemma {:induction false} RowsRun(ops: seq<Op>, f: Forest, key: Key, info: Info, chains: seq<Links>)
    requires Run(ops) == Ok(f)
    ensures Run((ops + [Root(key, info)]) + ChainOps(chains)) == ApplyRow(f, key, info, chains)
  {
    var op := Root(key, info);
    RunLast(ops, op);
    if Run(ops + [op]).Ok? {
      ChainsRun(ops + [op], Run(ops + [op]).value, chains);
    } else {
      PanicStays(ops + [op], ChainOps(chains));
    }
  }
}
