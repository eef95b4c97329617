/** From scanned rows to the rows of a query: chains are built, rows folded, the forest compiled. */
module DedupeQuery {
  import opened Outcomes
  import opened DedupeForest
  import opened Keys
  import opened DedupeRows
  import opened DedupeCompile

  type NonZero = k: Key | !IsZero(k) witness KeyOf(1)

  /** What the unique fields of an object give when its primary key is empty. */
  datatype Unique = Found(key: NonZero) | NoUniqueKey | Unreadable

  /** A scanned object with the relation it was reached by. */
  datatype Scanned = Scanned(relType: RelType, chain: string, primary: Key, unique: Unique, definer: Object, through: Option<Object>)

  /** The objects from a column's own up to where its way ends. */
  type Way = w: seq<Scanned> | w != [] witness [Scanned(NoRelation, "", NilKey, NoUniqueKey, 0, None)]

  /** A result row: its root, and the way up of every column that may repeat.  A way need not end
      in the root. */
  datatype Joined = Joined(root: Scanned, chains: seq<Way>)

  /** What the query selects of its root: nothing, its primary key, or other fields only. */
  datatype RootField = NoRoot | KeyField | OtherField

  // ----- building chains -----

  /** The key of an object in a chain: its primary key, or else its unique key, or else again its
      empty primary key. */
  function ChainKey(s: Scanned): Result<Key> {
    if !IsZero(s.primary) then Ok(s.primary)
    else match s.unique
      case Found(k) => Ok(k)
      case NoUniqueKey => Ok(s.primary)
      case Unreadable => Panic
  }

  predicate OfMany(r: RelType) {
    r == ManyToMany || r == OneToMany
  }

  function PartOf(s: Scanned): Result<Part> {
    var k :- ChainKey(s);
    if OfMany(s.relType) && IsZero(k) then Panic else Ok(Part(s.relType, s.chain, k, s.definer, s.through))
  }

  predicate Builds(fields: seq<Scanned>) {
    forall i :: 0 <= i < |fields| ==> PartOf(fields[i]).Ok?
  }

  /** The parts of a chain, from the root down. */
  function PartsOf(fields: seq<Scanned>): seq<Part>
    requires Builds(fields)
  {
    seq(|fields|, i requires 0 <= i < |fields| => PartOf(fields[|fields| - 1 - i]).value)
  }

  /** The parts from the column's object up to the root. */
  method StackParts(fields: seq<Scanned>) returns (r: Result<seq<Part>>)
    ensures r.Ok? <==> Builds(fields)
    ensures r.Ok? ==> |r.value| == |fields| && forall i :: 0 <= i < |fields| ==> PartOf(fields[i]) == Ok(r.value[i])
  {
    var stack: seq<Part> := [];
    for n := 0 to |fields|
      invariant |stack| == n && forall i :: 0 <= i < n ==> PartOf(fields[i]) == Ok(stack[i])
    {
      var part := PartOf(fields[n]);
      if part.Panic? {
        return Panic;
      }
      stack := stack + [part.value];
    }
    return Ok(stack);
  }

  /** Turn a list around by swapping its ends. */
  method Reverse<T>(built: seq<T>) returns (stack: seq<T>)
    ensures |stack| == |built| && forall k :: 0 <= k < |built| ==> stack[k] == built[|built| - 1 - k]
  {
    stack := built;
    var i, j := 0, |stack| - 1;
    while i < j
      invariant 0 <= i <= j + 1 && j == |built| - 1 - i && |stack| == |built|
      invariant forall k :: 0 <= k < |built| ==> stack[k] == built[if i <= k <= j then k else |built| - 1 - k]
    {
      stack := stack[i := stack[j]][j := stack[i]];
      i, j := i + 1, j - 1;
    }
  }

  method BuildChainParts(fields: seq<Scanned>) returns (r: Result<seq<Part>>)
    ensures r.Ok? <==> Builds(fields)
    ensures r.Ok? ==> r.value == PartsOf(fields)
  {
    r := StackParts(fields);
    if r.Ok? {
      var stack := Reverse(r.value);
      r := Ok(stack);
    }
  }

  /** A chain that could be built is never cut: every multi-valued link of it has a key. */
  lemma {:induction false} BuiltChainsAreWhole(fields: seq<Scanned>, i: nat)
    requires Builds(fields) && i < |fields| && !fields[|fields| - 1 - i].relType.NoRelation?
    ensures !Ends(PartsOf(fields)[i])
  {
    assert PartOf(fields[|fields| - 1 - i]).Ok?;
  }

  // ----- one row -----

  /** What comes of looking for the key of a root. */
  datatype Filed = FiledUnder(key: Key) | Unfiled | KeyPanics

  /** The key a root is filed under: its own, or else its place in the result.  Asking a primary
      field that is empty for its key runs into a nil. */
  function RootKey(root: Scanned, field: RootField, multi: bool, index: nat): (k: Filed)
    ensures k.FiledUnder? ==> !IsZero(k.key)
  {
    match field
    case NoRoot => FiledUnder(KeyOf(index + 1))
    case KeyField => if IsZero(root.primary) then KeyPanics else FiledUnder(root.primary)
    case OtherField =>
      if !IsZero(root.primary) then FiledUnder(root.primary)
      else match root.unique
        case Found(k) => FiledUnder(k)
        case NoUniqueKey => if multi then Unfiled else FiledUnder(KeyOf(index + 1))
        case Unreadable => FiledUnder(KeyOf(index + 1))
  }

  function RootInfo(row: Joined): Info {
    Info(Some(row.root.definer), row.root.through)
  }

  predicate RowBuilds(row: Joined) {
    forall c :: 0 <= c < |row.chains| ==> Builds(row.chains[c])
  }

  function LinksOf(row: Joined): seq<Links>
    requires RowBuilds(row)
  {
    seq(|row.chains|, c requires 0 <= c < |row.chains| => PartsOf(row.chains[c]))
  }

  /** A query over rows ends in an error, panics, or goes on with a forest. */
  datatype Folded = Forested(forest: Forest) | Error | Panicked

  function FoldRow(f: Forest, row: Joined, field: RootField, multi: bool, index: nat): Folded {
    match RootKey(row.root, field, multi, index)
    case Unfiled => Error
    case KeyPanics => Panicked
    case FiledUnder(key) =>
      if !RowBuilds(row) then Panicked
      else match ApplyRow(f, key, RootInfo(row), LinksOf(row))
        case Ok(g) => Forested(g)
        case Panic => Panicked
  }

  function FoldRows(rows: seq<Joined>, field: RootField, multi: bool): Folded
    decreases |rows|
  {
    if rows == [] then Forested(EMPTY)
    else match FoldRows(rows[..|rows| - 1], field, multi)
      case Forested(f) => FoldRow(f, rows[|rows| - 1], field, multi, |rows| - 1)
      case stopped => stopped
  }

  // ----- what rows amount to -----

  function RowOps(row: Joined, key: Key): seq<Op>
    requires RowBuilds(row)
  {
    [Root(key, RootInfo(row))] + ChainOps(LinksOf(row))
  }

  /** The roots and chains of all rows, in order. */
  function AllOps(rows: seq<Joined>, field: RootField, multi: bool): seq<Op>
    decreases |rows|
  {
    if rows == [] then []
    else
      var row, before := rows[|rows| - 1], AllOps(rows[..|rows| - 1], field, multi);
      match RootKey(row.root, field, multi, |rows| - 1)
      case Unfiled => before
      case KeyPanics => before
      case FiledUnder(key) => if RowBuilds(row) then before + RowOps(row, key) else before
  }

  /** Folding rows is running all their roots and chains, so the forest is their prefix tree. */
  lemma {:induction false} FoldedIsPrefixTree(rows: seq<Joined>, field: RootField, multi: bool)
    requires FoldRows(rows, field, multi).Forested?
    ensures Run(AllOps(rows, field, multi)) == Ok(FoldRows(rows, field, multi).forest)
    decreases |rows|
  {
    if rows != [] {
      var before, row := rows[..|rows| - 1], rows[|rows| - 1];
      FoldedIsPrefixTree(before, field, multi);
      var ops, f := AllOps(before, field, multi), FoldRows(before, field, multi).forest;
      RowRuns(ops, f, row, RootKey(row.root, field, multi, |rows| - 1).key);
    }
  }

  lemma {:induction false} RowRuns(ops: seq<Op>, f: Forest, row: Joined, key: Key)
    requires Run(ops) == Ok(f) && RowBuilds(row)
    ensures Run(ops + RowOps(row, key)) == ApplyRow(f, key, RootInfo(row), LinksOf(row))
  {
    RowsRun(ops, f, key, RootInfo(row), LinksOf(row));
    assert ops + RowOps(row, key) == (ops + [Root(key, RootInfo(row))]) + ChainOps(LinksOf(row));
  }

  lemma {:induction false} ChainsFind(f: Forest, chains: seq<Links>)
    ensures ApplyChains(f, chains).Ok? <==> forall c :: 0 <= c < |chains| ==> chains[c][0].key in f.roots
    ensures ApplyChains(f, chains).Ok? ==> ApplyChains(f, chains).value.roots == f.roots
    decreases |chains|
  {
    if chains != [] && chains[0][0].key in f.roots {
      PartsKeepRoots(f, RootOf(chains[0][0].key), chains[0][1..]);
      ChainsFind(AddParts(f, RootOf(chains[0][0].key), chains[0][1..]), chains[1..]);
      assert forall c :: 1 <= c < |chains| ==> chains[c] == chains[1..][c - 1];
    }
  }

  lemma {:induction false} PartsKeepRoots(f: Forest, at: Path, parts: seq<Part>)
    ensures AddParts(f, at, parts).roots == f.roots
    decreases |parts|
  {
    if parts != [] && !Ends(parts[0]) {
      PartsKeepRoots(AddPart(f, at, parts[0]), Under(at, parts[0].chain, parts[0].key), parts[1..]);
    }
  }

  /** The key of the object a way ends in, by which the way looks for its root. */
  function HeadKey(w: Way): Key {
    match ChainKey(w[|w| - 1]) case Ok(k) => k case Panic => NilKey
  }

  lemma {:induction false} HeadOfLinks(w: Way)
    requires Builds(w)
    ensures PartsOf(w)[0].key == HeadKey(w)
  {
    assert PartOf(w[|w| - 1]).Ok?;
  }

  /** A row goes through exactly when its root can be filed, its chains can be built, and every
      chain begins with an object whose key a root is filed under. */
  lemma {:induction false} RowGoesThrough(f: Forest, row: Joined, field: RootField, multi: bool, index: nat)
    ensures var after, key := FoldRow(f, row, field, multi, index), RootKey(row.root, field, multi, index);
            && (after.Error? <==> key.Unfiled?)
            && (after.Forested? <==> (
                  && key.FiledUnder? && RowBuilds(row)
                  && forall c :: 0 <= c < |row.chains| ==> HeadKey(row.chains[c]) in f.roots || HeadKey(row.chains[c]) == key.key))
            && (after.Forested? ==> after.forest.roots == DedupeForest.AddRoot(f, key.key, RootInfo(row)).roots)
  {
    hide RootKey, PartsOf, PartOf, ChainKey, HeadKey, Builds;
    var key := RootKey(row.root, field, multi, index);
    if key.FiledUnder? && RowBuilds(row) {
      var links, g := LinksOf(row), DedupeForest.AddRoot(f, key.key, RootInfo(row));
      ChainsFind(g, links);
      forall c | 0 <= c < |links| ensures links[c][0].key == HeadKey(row.chains[c]) {
        HeadOfLinks(row.chains[c]);
      }
      assert forall k :: k in g.roots <==> k in f.roots || k == key.key;
    }
  }

  // ----- the query -----

  /** A row of the result. */
  datatype RowOut = RowOut(item: Object, through: Option<Object>)

  /** One row per root, in order. */
  function RowsOf(f: Forest, keys: seq<Key>): seq<RowOut>
    decreases |keys|
  {
    if keys == [] then []
    else
      var k, before := keys[|keys| - 1], RowsOf(f, keys[..|keys| - 1]);
      if RootOf(k) in f.info && f.info[RootOf(k)].definer.Some?
      then before + [RowOut(f.info[RootOf(k)].definer.value, f.info[RootOf(k)].through)]
      else before
  }

  /** Every root of the store shows a root of the forest, in order. */
  ghost predicate RootsShape(st: Store, f: Forest, n: nat) {
    && st.roots.keys == f.roots
    && (forall j :: 0 <= j < |f.roots| ==> f.roots[j] in st.roots.at)
    && (forall j :: 0 <= j < |f.roots| ==> NodeShape(st, st.roots.at[f.roots[j]], RootOf(f.roots[j]), f, n))
  }

  lemma {:induction false} RootsHaveShape(st: Store, f: Forest) returns (n: nat)
    requires Shows(st, f)
    ensures RootsShape(st, f, n)
  {
    var v :| Fits(st, v, f);
    var d := Deepest(f.info.Keys);
    n := d + 1;
    forall j | 0 <= j < |f.roots|
      ensures f.roots[j] in st.roots.at && NodeShape(st, st.roots.at[f.roots[j]], RootOf(f.roots[j]), f, n)
    {
      RootHasShape(st, v, f, d, f.roots[j]);
    }
  }

  lemma {:induction false} RootHasShape(st: Store, v: Places, f: Forest, d: nat, k: Key)
    requires Fits(st, v, f) && Grown(f) && NoDeeper(f, d) && k in f.roots
    ensures k in st.roots.at && NodeShape(st, st.roots.at[k], RootOf(k), f, d + 1)
  {
    assert RootOf(k) in f.info;
    NodeFits(st, v, f, d, RootOf(k), d + 1);
  }

  ghost predicate RootsKeyed(f: Forest, n: nat)
    requires n <= |f.roots|
  {
    forall j :: 0 <= j < n ==> !HasKeyless(f, RootOf(f.roots[j]))
  }

  /** Every object has a key. */
  ghost predicate EveryKeyed(f: Forest) {
    forall p :: p in f.info ==> !p.key.NilKey?
  }

  /** Every hook works. */
  ghost predicate EveryHookWorks(f: Forest, fails: Object -> bool) {
    forall p :: p in f.info ==> HookWorks(fails, f.info[p].definer) && HookWorks(fails, f.info[p].through)
  }

  /** A walk that stopped had a reason. */
  ghost predicate Blamed(f: Forest, fails: Object -> bool, o: Verdict) {
    match o case Compiled => true case NoKey => !EveryKeyed(f) case HookFailed => !EveryHookWorks(f, fails)
  }

  lemma {:induction false} TroubleBlamed(f: Forest, fails: Object -> bool, p: Path, o: Verdict)
    requires Trouble(f, fails, p, o)
    ensures Blamed(f, fails, o)
  {
  }

  lemma {:induction false} Finished(f: Forest, fails: Object -> bool, log: seq<Event>)
    requires Grown(f) && RootsDone(f, |f.roots|, log) && RootsKeyed(f, |f.roots|) && NoneBad(f, fails, log)
    ensures AllDone(f, log) && EveryKeyed(f) && EveryHookWorks(f, fails)
  {
    forall p | p in f.info ensures HookWorks(fails, f.info[p].definer) && HookWorks(fails, f.info[p].through) {
      RootsAreAll(f, log);
      assert Genuine(f, Hook(p));
      NoneBadAt(f, fails, log, Hook(p));
      if f.info[p].through.Some? {
        assert Genuine(f, ThroughHook(p));
        NoneBadAt(f, fails, log, ThroughHook(p));
      }
    }
    RootsAreAll(f, log);
    forall p | p in f.info ensures !p.key.NilKey? {
      NoKeylessAtAll(f, p);
    }
  }

  lemma {:induction false} RowsOfNext(f: Forest, keys: seq<Key>, j: nat)
    requires j < |keys| && RootOf(keys[j]) in f.info
    ensures var info := f.info[RootOf(keys[j])];
            RowsOf(f, keys[..j + 1]) ==
              if info.definer.Some? then RowsOf(f, keys[..j]) + [RowOut(info.definer.value, info.through)] else RowsOf(f, keys[..j])
  {
    assert keys[..j + 1][..j] == keys[..j];
  }

  method CompileRoot(st: Store, j: nat, fails: Object -> bool, sofar: seq<RowOut>, ghost f: Forest, ghost n: nat, ghost before: seq<Event>)
      returns (o: Verdict, out: seq<RowOut>, ghost log: seq<Event>)
    requires RootsShape(st, f, n) && Grown(f) && j < |f.roots| && RootsDone(f, j, before) && RootsKeyed(f, j)
    requires sofar == RowsOf(f, f.roots[..j]) && NoneBad(f, fails, before)
    ensures o.Compiled? ==> RootsDone(f, j + 1, log) && NoneBad(f, fails, log) && RootsKeyed(f, j + 1) && out == RowsOf(f, f.roots[..j + 1])
    ensures Blamed(f, fails, o)
  {
    var i := st.roots.at[st.roots.keys[j]];
    out, log := sofar, before;
    ghost var more;
    o, more := CompileNode(st, i, fails, RootOf(f.roots[j]), f, n);
    if o.Compiled? {
      RootDone(f, j, before, more);
      NoneBadThen(f, fails, before, more);
      log := before + more;
      RowsOfNext(f, f.roots, j);
      if st.nodes[i].definer.Some? {
        out := out + [RowOut(st.nodes[i].definer.value, st.nodes[i].through)];
      }
    } else {
      TroubleBlamed(f, fails, RootOf(f.roots[j]), o);
    }
  }

  /** Compile the roots in order; roots without an object are left out of the result. */
  method Compile(rows: Rows, fails: Object -> bool, ghost f: Forest) returns (o: Verdict, out: seq<RowOut>, ghost log: seq<Event>)
    requires Shows(rows.Now(), f)
    ensures o.Compiled? ==> out == RowsOf(f, f.roots) && AllDone(f, log) && EveryKeyed(f) && EveryHookWorks(f, fails)
    ensures Blamed(f, fails, o)
  {
    var st := Store(rows.nodes, rows.relations, rows.roots);
    ghost var n := RootsHaveShape(st, f);
    o, out, log := CompileRoots(st, fails, f, n);
    if o.Compiled? {
      Finished(f, fails, log);
    }
  }

  method CompileRoots(st: Store, fails: Object -> bool, ghost f: Forest, ghost n: nat)
      returns (o: Verdict, out: seq<RowOut>, ghost log: seq<Event>)
    requires RootsShape(st, f, n) && Grown(f)
    ensures o.Compiled? ==> out == RowsOf(f, f.roots) && RootsDone(f, |f.roots|, log) && NoneBad(f, fails, log) && RootsKeyed(f, |f.roots|)
    ensures Blamed(f, fails, o)
  {
    out, log := [], [];
    for j := 0 to |st.roots.keys|
      invariant RootsDone(f, j, log) && NoneBad(f, fails, log) && RootsKeyed(f, j) && out == RowsOf(f, f.roots[..j])
    {
      o, out, log := CompileRoot(st, j, fails, out, f, n, log);
      if !o.Compiled? {
        return;
      }
    }
    assert f.roots[..|f.roots|] == f.roots;
    o := Compiled;
  }

  // ----- the whole query -----

  datatype Answer = Answered(rows: seq<RowOut>) | Failed | Panics

  lemma {:induction false} NothingShows(st: Store, f: Forest)
    requires st == NOTHING && f == EMPTY
    ensures Shows(st, f)
  {
    var v := Places(map[], map[], [], []);
    assert Grown(EMPTY);
    assert NodesFit([], v.nodes, v.paths, EMPTY.info) && SlotsFit([], v.slots, v.slotAt, EMPTY.kids, EMPTY.types);
    assert NodeLinks([], v.nodes, v.slots) && SlotLinks([], v.slots, v.nodes) && RootsFit(NO_OBJECTS, v.nodes, EMPTY.roots);
    ShownBy(st, v, f);
  }

  lemma {:induction false} ShownBy(st: Store, v: Places, f: Forest)
    requires Grown(f) && Fits(st, v, f)
    ensures Shows(st, f)
  {
  }

  /** Build the chains of a row; None when one cannot be built. */
  method BuildRow(row: Joined) returns (r: Option<seq<Links>>)
    ensures r == if RowBuilds(row) then Some(LinksOf(row)) else None
  {
    var links: seq<Links> := [];
    for c := 0 to |row.chains|
      invariant |links| == c
      invariant forall k :: 0 <= k < c ==> Builds(row.chains[k]) && links[k] == PartsOf(row.chains[k])
    {
      var parts := BuildChainParts(row.chains[c]);
      if parts.Panic? {
        assert !Builds(row.chains[c]);
        return None;
      }
      links := links + [parts.value];
    }
    assert RowBuilds(row) && links == LinksOf(row);
    r := Some(links);
  }

  /** One row of the result. */
  method AddJoined(r: Rows, row: Joined, index: nat, field: RootField, multi: bool, ghost f: Forest) returns (stop: Option<Answer>)
    requires Shows(r.Now(), f)
    modifies r
    ensures match FoldRow(f, row, field, multi, index)
            case Forested(g) => stop == None && Shows(r.Now(), g)
            case Error => stop == Some(Failed)
            case Panicked => stop == Some(Panics)
  {
    var key := RootKey(row.root, field, multi, index);
    if key.Unfiled? {
      return Some(Failed);
    }
    if key.KeyPanics? {
      return Some(Panics);
    }
    var links := BuildRow(row);
    if links.None? {
      return Some(Panics);
    }
    var ok := r.AddRow(key.key, RootInfo(row), links.value, f);
    stop := if ok then None else Some(Panics);
  }

  /** Fold the rows and compile: an answer has one row per root, every relation of every object
      set once, after the hooks of its objects ran, and every hook run once. */
  method FoldAndCompile(rows: seq<Joined>, field: RootField, multi: bool, fails: Object -> bool) returns (a: Answer, ghost log: seq<Event>)
    ensures var after := FoldRows(rows, field, multi);
            && (a.Answered? <==> after.Forested? && EveryKeyed(after.forest) && EveryHookWorks(after.forest, fails))
            && (a.Answered? ==> a.rows == RowsOf(after.forest, after.forest.roots) && AllDone(after.forest, log))
            && (a.Panics? ==> after.Panicked? || (after.Forested? && !EveryKeyed(after.forest)))
            && (a.Failed? ==> after.Error? || (after.Forested? && !EveryHookWorks(after.forest, fails)))
  {
    var r, stop;
    ghost var f;
    r, stop, f := FoldAll(rows, field, multi);
    log := [];
    if stop.Some? {
      return stop.value, log;
    }
    var o, out;
    o, out, log := Compile(r, fails, f);
    a := match o case Compiled => Answered(out) case HookFailed => Failed case NoKey => Panics;
  }

  method AddNext(r: Rows, rows: seq<Joined>, index: nat, field: RootField, multi: bool, ghost f: Forest) returns (stop: Option<Answer>)
    requires index < |rows| && Shows(r.Now(), f) && FoldRows(rows[..index], field, multi) == Forested(f)
    modifies r
    ensures match FoldRows(rows[..index + 1], field, multi)
            case Forested(g) => stop == None && Shows(r.Now(), g)
            case Error => stop == Some(Failed)
            case Panicked => stop == Some(Panics)
  {
    assert rows[..index + 1][..index] == rows[..index];
    stop := AddJoined(r, rows[index], index, field, multi, f);
  }

  method FoldAll(rows: seq<Joined>, field: RootField, multi: bool) returns (r: Rows, stop: Option<Answer>, ghost f: Forest)
    ensures match FoldRows(rows, field, multi)
            case Forested(g) => stop == None && f == g && Shows(r.Now(), g)
            case Error => stop == Some(Failed)
            case Panicked => stop == Some(Panics)
  {
    r := new Rows();
    f, stop := EMPTY, None;
    NothingShows(r.Now(), f);
    for index := 0 to |rows|
      invariant fresh(r) && Shows(r.Now(), f) && FoldRows(rows[..index], field, multi) == Forested(f)
    {
      stop := AddNext(r, rows, index, field, multi, f);
      if stop.Some? {
        StopsForGood(rows, index + 1, field, multi);
        return;
      }
      f := FoldRows(rows[..index + 1], field, multi).forest;
    }
    assert rows[..|rows|] == rows;
    stop := None;
  }

  lemma {:induction false} StopsForGood(rows: seq<Joined>, n: nat, field: RootField, multi: bool)
    requires n <= |rows| && !FoldRows(rows[..n], field, multi).Forested?
    ensures FoldRows(rows, field, multi) == FoldRows(rows[..n], field, multi)
    decreases |rows|
  {
    if n == |rows| {
      assert rows[..n] == rows;
    } else {
      assert rows[..|rows| - 1][..n] == rows[..n];
      StopsForGood(rows[..|rows| - 1], n, field, multi);
    }
  }
}
