/** Folding flat joined rows into a forest: the forest as a value, and what any sequence of rows
    makes of it. */
module DedupeForest {
  import opened Keys
  import opened Outcomes

  /** A model instance, by identity. */
  type Object = int

  datatype RelType = NoRelation | ManyToOne | OneToOne | ManyToMany | OneToMany

  predicate MultiValued(r: RelType) {
    r != ManyToOne && r != OneToOne
  }

  /** One link of a relation chain. */
  datatype Part = Part(relType: RelType, chain: string, key: Key, definer: Object, through: Option<Object>)

  /** A node of the forest, by the way to it. */
  datatype Path = RootOf(key: Key) | Under(parent: Path, chain: string, key: Key)

  /** A relation of a node. */
  datatype Slot = Slot(parent: Path, chain: string)

  datatype Info = Info(definer: Option<Object>, through: Option<Object>)

  /** The forest: its nodes, the children of each relation in order, and the roots in order. */
  datatype Forest = Forest(info: map<Path, Info>, kids: map<Slot, seq<Key>>, types: map<Slot, RelType>, roots: seq<Key>)

  const EMPTY: Forest := Forest(map[], map[], map[], [])

  function Child(s: Slot, k: Key): Path {
    Under(s.parent, s.chain, k)
  }

  /** A multi-valued relation without data ends the chain. */
  predicate Ends(p: Part) {
    IsZero(p.key) && MultiValued(p.relType)
  }

  // ----- inserting -----

  function AddRoot(f: Forest, key: Key, info: Info): Forest {
    if key in f.roots then f else f.(roots := f.roots + [key], info := f.info[RootOf(key) := info])
  }

  function AddSlot(f: Forest, s: Slot, t: RelType): Forest {
    if s in f.kids then f else f.(kids := f.kids[s := []], types := f.types[s := t])
  }

  function AddChild(f: Forest, s: Slot, k: Key, info: Info): Forest
    requires s in f.kids
  {
    if k in f.kids[s] then f else f.(kids := f.kids[s := f.kids[s] + [k]], info := f.info[Child(s, k) := info])
  }

  function AddPart(f: Forest, at: Path, p: Part): Forest {
    AddChild(AddSlot(f, Slot(at, p.chain), p.relType), Slot(at, p.chain), p.key, Info(Some(p.definer), p.through))
  }

  function AddParts(f: Forest, at: Path, parts: seq<Part>): Forest
    decreases |parts|
  {
    if parts == [] || Ends(parts[0]) then f
    else AddParts(AddPart(f, at, parts[0]), Under(at, parts[0].chain, parts[0].key), parts[1..])
  }

  /** A node is in the forest exactly when its relation lists it; relations belong to nodes. */
  ghost predicate Grown(f: Forest) {
    && (forall k :: k in f.roots <==> RootOf(k) in f.info)
    && (forall p, c, k :: Under(p, c, k) in f.info <==> Slot(p, c) in f.kids && k in f.kids[Slot(p, c)])
    && (forall s :: s in f.kids ==> s.parent in f.info)
    && f.kids.Keys == f.types.Keys
    && Distinct(f.roots) && (forall s :: s in f.kids ==> Distinct(f.kids[s]))
  }

  predicate Distinct(ks: seq<Key>) {
    forall i, j :: 0 <= i < j < |ks| ==> ks[i] != ks[j]
  }

  /** What is not in the forest has nothing below it. */
  lemma {:induction false} NothingBelow(f: Forest, p: Path)
    requires Grown(f) && p !in f.info
    ensures forall c :: Slot(p, c) !in f.kids
  {
  }

  lemma {:induction false} Listed(f: Forest, s: Slot, k: Key)
    requires Grown(f) && s in f.kids
    ensures k in f.kids[s] <==> Child(s, k) in f.info
  {
    assert Under(s.parent, s.chain, k) in f.info <==>
             Slot(s.parent, s.chain) in f.kids && k in f.kids[Slot(s.parent, s.chain)];
  }

  lemma {:induction false} NotListed(f: Forest, s: Slot)
    requires Grown(f) && s !in f.kids
    ensures forall k :: Child(s, k) !in f.info
  {
    assert s == Slot(s.parent, s.chain);
  }

  lemma {:induction false} RootGrows(f: Forest, key: Key, info: Info)
    requires Grown(f)
    ensures Grown(AddRoot(f, key, info)) && RootOf(key) in AddRoot(f, key, info).info
  {
  }

  lemma {:induction false} SlotGrows(f: Forest, s: Slot, t: RelType)
    requires Grown(f) && s.parent in f.info
    ensures Grown(AddSlot(f, s, t)) && s in AddSlot(f, s, t).kids
  {
  }

  lemma {:induction false} ChildGrows(f: Forest, s: Slot, k: Key, info: Info)
    requires Grown(f) && s in f.kids
    ensures Grown(AddChild(f, s, k, info)) && Child(s, k) in AddChild(f, s, k, info).info
  {
    assert Child(s, k) in f.info <==> k in f.kids[Slot(s.parent, s.chain)];
  }

  lemma {:induction false} PartGrows(f: Forest, at: Path, p: Part)
    requires Grown(f) && at in f.info
    ensures var g := AddPart(f, at, p);
            Grown(g) && Under(at, p.chain, p.key) in g.info && forall q :: q in f.info ==> q in g.info
  {
    var s := Slot(at, p.chain);
    SlotGrows(f, s, p.relType);
    ChildGrows(AddSlot(f, s, p.relType), s, p.key, Info(Some(p.definer), p.through));
  }

  lemma {:induction false} PartsGrow(f: Forest, at: Path, parts: seq<Part>)
    requires Grown(f) && at in f.info
    ensures Grown(AddParts(f, at, parts)) && forall q :: q in f.info ==> q in AddParts(f, at, parts).info
    decreases |parts|
  {
    if parts != [] && !Ends(parts[0]) {
      PartGrows(f, at, parts[0]);
      PartsGrow(AddPart(f, at, parts[0]), Under(at, parts[0].chain, parts[0].key), parts[1..]);
    }
  }

  // ----- any sequence of rows -----

  /** A root added for a row, or a chain inserted under one; the first link of a chain only
      names its root. */
  datatype Op = Root(key: Key, info: Info) | Chain(root: Key, parts: seq<Part>)

  /** A root without a key and a chain without its root panic. */
  function Apply(f: Forest, op: Op): Result<Forest> {
    match op
    case Root(key, info) => if key.NilKey? then Panic else Ok(AddRoot(f, key, info))
    case Chain(root, parts) => if root in f.roots then Ok(AddParts(f, RootOf(root), parts)) else Panic
  }

  function Run(ops: seq<Op>): Result<Forest>
    decreases |ops|
  {
    if ops == [] then Ok(EMPTY)
    else
      var f :- Run(ops[..|ops| - 1]);
      Apply(f, ops[|ops| - 1])
  }

  /** Where a chain ends that starts at `at`: before its first empty multi-valued link. */
  function EndOf(at: Path, parts: seq<Part>): Path
    decreases |parts|
  {
    if parts == [] || Ends(parts[0]) then at else EndOf(Under(at, parts[0].chain, parts[0].key), parts[1..])
  }

  predicate AtOrAbove(p: Path, q: Path) {
    p == q || (q.Under? && AtOrAbove(p, q.parent))
  }

  /** The objects a chain brings for node `p`, if it passes there. */
  function InfoAlong(at: Path, parts: seq<Part>, p: Path): Option<Info>
    decreases |parts|
  {
    if parts == [] || Ends(parts[0]) then None
    else
      var next := Under(at, parts[0].chain, parts[0].key);
      if p == next then Some(Info(Some(parts[0].definer), parts[0].through)) else InfoAlong(next, parts[1..], p)
  }

  function InfoOf(op: Op, p: Path): Option<Info> {
    match op
    case Root(key, info) => if p == RootOf(key) then Some(info) else None
    case Chain(root, parts) => InfoAlong(RootOf(root), parts, p)
  }

  /** The objects of the first row that passes there. */
  function FirstInfo(ops: seq<Op>, p: Path): Option<Info>
    decreases |ops|
  {
    if ops == [] then None
    else
      var before := FirstInfo(ops[..|ops| - 1], p);
      if before.Some? then before else InfoOf(ops[|ops| - 1], p)
  }

  /** The key a chain puts under the slot `s`, if it passes there. */
  function KeyAlong(at: Path, parts: seq<Part>, s: Slot): Option<Key>
    decreases |parts|
  {
    if parts == [] || Ends(parts[0]) then None
    else if s == Slot(at, parts[0].chain) then Some(parts[0].key)
    else KeyAlong(Under(at, parts[0].chain, parts[0].key), parts[1..], s)
  }

  function KeyUnder(op: Op, s: Slot): Option<Key> {
    match op
    case Root(_, _) => None
    case Chain(root, parts) => KeyAlong(RootOf(root), parts, s)
  }

  function Put(ks: seq<Key>, k: Option<Key>): seq<Key> {
    if k.None? || k.value in ks then ks else ks + [k.value]
  }

  /** The keys that rows put under a slot, each where it was first seen. */
  function FirstSeen(ops: seq<Op>, s: Slot): seq<Key>
    decreases |ops|
  {
    if ops == [] then [] else Put(FirstSeen(ops[..|ops| - 1], s), KeyUnder(ops[|ops| - 1], s))
  }

  function FirstRoots(ops: seq<Op>): seq<Key>
    decreases |ops|
  {
    if ops == [] then []
    else Put(FirstRoots(ops[..|ops| - 1]), match ops[|ops| - 1] case Root(k, _) => Some(k) case Chain(_, _) => None)
  }

  function Kids(f: Forest, s: Slot): seq<Key> {
    if s in f.kids then f.kids[s] else []
  }

  function Depth(p: Path): nat {
    match p case RootOf(_) => 0 case Under(q, _, _) => Depth(q) + 1
  }

  lemma {:induction false} AboveIsShallower(p: Path, q: Path)
    requires AtOrAbove(p, q)
    ensures Depth(p) <= Depth(q) && (Depth(p) == Depth(q) ==> p == q)
  {
    if p != q {
      AboveIsShallower(p, q.parent);
    }
  }

  lemma {:induction false} AboveTransitive(p: Path, q: Path, r: Path)
    requires AtOrAbove(p, q) && AtOrAbove(q, r)
    ensures AtOrAbove(p, r)
  {
    if q != r {
      AboveTransitive(p, q, r.parent);
    }
  }

  lemma {:induction false} EndIsBelow(at: Path, parts: seq<Part>)
    ensures AtOrAbove(at, EndOf(at, parts))
    decreases |parts|
  {
    if parts != [] && !Ends(parts[0]) {
      var next := Under(at, parts[0].chain, parts[0].key);
      EndIsBelow(next, parts[1..]);
      assert AtOrAbove(at, next);
      AboveTransitive(at, next, EndOf(at, parts));
    }
  }

  /** A chain passes the node `p` exactly when `p` lies on the way from where it starts to where
      it ends. */
  lemma {:induction false} ChainPasses(at: Path, parts: seq<Part>, p: Path)
    ensures InfoAlong(at, parts, p).Some? <==> AtOrAbove(p, EndOf(at, parts)) && !AtOrAbove(p, at)
    decreases |parts|
  {
    if parts != [] && !Ends(parts[0]) {
      var next := Under(at, parts[0].chain, parts[0].key);
      ChainPasses(next, parts[1..], p);
      EndIsBelow(next, parts[1..]);
      if AtOrAbove(next, at) {
        AboveIsShallower(next, at);
      }
    }
  }

  lemma {:induction false} LaterSlots(at: Path, parts: seq<Part>, s: Slot)
    ensures KeyAlong(at, parts, s).Some? ==> Depth(s.parent) >= Depth(at)
    ensures forall p :: InfoAlong(at, parts, p).Some? ==> Depth(p) > Depth(at)
    decreases |parts|
  {
    if parts != [] && !Ends(parts[0]) {
      LaterSlots(Under(at, parts[0].chain, parts[0].key), parts[1..], s);
    }
  }

  lemma {:induction false} AddedPart(f: Forest, at: Path, part: Part, p: Path, s: Slot)
    requires Grown(f) && at in f.info
    ensures var g, first := AddPart(f, at, part), Slot(at, part.chain);
            && (p in g.info <==> p in f.info || p == Child(first, part.key))
            && (p in f.info ==> g.info[p] == f.info[p])
            && (p in g.info && p !in f.info ==> g.info[p] == Info(Some(part.definer), part.through))
            && Kids(g, s) == Put(Kids(f, s), if s == first then Some(part.key) else None)
            && g.roots == f.roots
  {
    assert Under(at, part.chain, part.key) in f.info <==>
             Slot(at, part.chain) in f.kids && part.key in f.kids[Slot(at, part.chain)];
  }

  lemma {:induction false} AddedParts(f: Forest, at: Path, parts: seq<Part>, p: Path, s: Slot)
    requires Grown(f) && at in f.info
    ensures var g := AddParts(f, at, parts);
            && (p in g.info <==> p in f.info || InfoAlong(at, parts, p).Some?)
            && (p in f.info ==> g.info[p] == f.info[p])
            && (p in g.info && p !in f.info ==> g.info[p] == InfoAlong(at, parts, p).value)
            && Kids(g, s) == Put(Kids(f, s), KeyAlong(at, parts, s))
            && g.roots == f.roots
    decreases |parts|
  {
    if parts != [] && !Ends(parts[0]) {
      var next, g := Under(at, parts[0].chain, parts[0].key), AddPart(f, at, parts[0]);
      PartGrows(f, at, parts[0]);
      AddedPart(f, at, parts[0], p, s);
      AddedParts(g, next, parts[1..], p, s);
      LaterSlots(next, parts[1..], s);
    }
  }

  /** After any sequence of rows that does not panic: the nodes are those the inserted chains
      pass, each chain cut at its first empty multi-valued link, with the objects of the row
      that first had them; and siblings are unique and in the order first seen. */
  lemma {:induction false} RunIsPrefixTree(ops: seq<Op>)
    requires Run(ops).Ok?
    ensures var f := Run(ops).value;
            && Grown(f)
            && (forall p :: (p in f.info <==> FirstInfo(ops, p).Some?) && (p in f.info ==> f.info[p] == FirstInfo(ops, p).value))
            && (forall s :: Kids(f, s) == FirstSeen(ops, s))
            && f.roots == FirstRoots(ops)
    decreases |ops|
  {
    if ops != [] {
      var before, op := ops[..|ops| - 1], ops[|ops| - 1];
      RunIsPrefixTree(before);
      var f, g := Run(before).value, Run(ops).value;
      match op
      case Root(key, info) =>
        RootGrows(f, key, info);
        forall p ensures p in g.info <==> p in f.info || p == RootOf(key) {
          assert key in f.roots <==> RootOf(key) in f.info;
        }
      case Chain(root, parts) =>
        var at, any := RootOf(root), Slot(RootOf(root), "");
        PartsGrow(f, at, parts);
        AddedParts(f, at, parts, at, any);
        forall p ensures (p in g.info <==> FirstInfo(ops, p).Some?) && (p in g.info ==> g.info[p] == FirstInfo(ops, p).value) {
          AddedParts(f, at, parts, p, any);
        }
        forall s ensures Kids(g, s) == FirstSeen(ops, s) {
          AddedParts(f, at, parts, at, s);
        }
    }
  }

  // ----- inserting again -----

  lemma {:induction false} AddedAgain(f: Forest, at: Path, parts: seq<Part>)
    requires Grown(f) && at in f.info
    requires forall p :: InfoAlong(at, parts, p).Some? ==> p in f.info
    ensures AddParts(f, at, parts) == f
    decreases |parts|
  {
    if parts != [] && !Ends(parts[0]) {
      var next := Under(at, parts[0].chain, parts[0].key);
      assert InfoAlong(at, parts, next).Some? && next in f.info;
      assert Slot(at, parts[0].chain) in f.kids && parts[0].key in f.kids[Slot(at, parts[0].chain)];
      assert AddPart(f, at, parts[0]) == f;
      forall p | InfoAlong(next, parts[1..], p).Some? ensures p in f.info {
        assert InfoAlong(at, parts, p).Some?;
      }
      AddedAgain(f, next, parts[1..]);
    }
  }

  lemma {:induction false} StaysIn(ops: seq<Op>, op: Op, p: Path)
    requires op in ops && InfoOf(op, p).Some?
    ensures FirstInfo(ops, p).Some?
    decreases |ops|
  {
    if ops[|ops| - 1] != op {
      StaysIn(ops[..|ops| - 1], op, p);
    }
  }

  lemma {:induction false} RootStays(ops: seq<Op>, op: Op)
    requires Run(ops).Ok? && op in ops
    ensures match op case Root(k, _) => !k.NilKey? && k in Run(ops).value.roots case Chain(k, _) => k in Run(ops).value.roots
    decreases |ops|
  {
    var before := ops[..|ops| - 1];
    RunIsPrefixTree(before);
    RunIsPrefixTree(ops);
    if ops[|ops| - 1] != op {
      RootStays(before, op);
    } else if op.Chain? {
      assert op.root in FirstRoots(before);
    }
  }

  /** A row's root and chains, inserted again at any later time, change nothing: this happens
      once for every selected column of a relation. */
  lemma {:induction false} ReinsertionChangesNothing(ops: seq<Op>, op: Op)
    requires Run(ops).Ok? && op in ops
    ensures Apply(Run(ops).value, op) == Run(ops)
  {
    var f := Run(ops).value;
    RunIsPrefixTree(ops);
    RootStays(ops, op);
    match op
    case Root(key, info) =>
    case Chain(root, parts) =>
      forall p | InfoAlong(RootOf(root), parts, p).Some? ensures p in f.info {
        StaysIn(ops, op, p);
      }
      assert RootOf(root) in f.info;
      AddedAgain(f, RootOf(root), parts);
  }
}
