/** Compiling the forest: related objects are set and hooks called from the leaves up. */
module DedupeCompile {
  import opened Outcomes
  import opened DedupeForest
  import opened Keys
  import opened DedupeRows

  /** A related object as it is handed to its parent. */
  datatype RelatedObject = RelatedObject(key: Key, definer: Option<Object>, through: Option<Object>)

  /** What compiling does: set the related objects of a relation, or call the hook for a node's
      through object or for its own. */
  datatype Event =
    | SetRelated(slot: Slot, relType: RelType, related: seq<RelatedObject>)
    | ThroughHook(path: Path)
    | Hook(path: Path)

  function Where(e: Event): Path {
    match e case SetRelated(s, _, _) => s.parent case ThroughHook(p) => p case Hook(p) => p
  }

  function RelatedAt(f: Forest, s: Slot, k: Key): RelatedObject {
    var p := Child(s, k);
    if p in f.info then RelatedObject(k, f.info[p].definer, f.info[p].through) else RelatedObject(k, None, None)
  }

  /** The related objects of a slot, in order. */
  function RelatedOf(f: Forest, s: Slot, keys: seq<Key>): seq<RelatedObject> {
    seq(|keys|, i requires 0 <= i < |keys| => RelatedAt(f, s, keys[i]))
  }

  function SetFor(f: Forest, s: Slot): Event
    requires s in f.kids && s in f.types
  {
    SetRelated(s, f.types[s], RelatedOf(f, s, f.kids[s]))
  }

  /** The events there are to be. */
  predicate Genuine(f: Forest, e: Event) {
    match e
    case SetRelated(s, _, _) => s in f.kids && s in f.types && e == SetFor(f, s)
    case ThroughHook(p) => p in f.info && f.info[p].through.Some?
    case Hook(p) => p in f.info
  }

  /** What must have happened before an event: for the hooks of a node that all its relations
      are set, through object first; for a relation that the hooks of its objects ran. */
  predicate Needs(f: Forest, e: Event, d: Event) {
    match e
    case SetRelated(s, _, _) => d.Hook? && d.path.Under? && Slot(d.path.parent, d.path.chain) == s && d.path in f.info
    case ThroughHook(p) => d.SetRelated? && d.slot.parent == p && Genuine(f, d)
    case Hook(p) => ((d.SetRelated? && d.slot.parent == p) || d == ThroughHook(p)) && Genuine(f, d)
  }

  ghost predicate Ordered(f: Forest, log: seq<Event>) {
    forall i, d :: 0 <= i < |log| && Needs(f, log[i], d) ==> d in log[..i]
  }

  predicate Once(log: seq<Event>) {
    forall i, j :: 0 <= i < j < |log| ==> log[i] != log[j]
  }

  lemma {:induction false} OrderedThen(f: Forest, a: seq<Event>, b: seq<Event>)
    requires Ordered(f, a) && Ordered(f, b)
    ensures Ordered(f, a + b)
  {
    var log := a + b;
    forall i, d | 0 <= i < |log| && Needs(f, log[i], d) ensures d in log[..i] {
      if i < |a| {
        assert log[..i] == a[..i];
      } else {
        assert log[i] == b[i - |a|] && d in b[..i - |a|];
        assert log[..i] == a + b[..i - |a|];
      }
    }
  }

  lemma {:induction false} OrderedLast(f: Forest, a: seq<Event>, e: Event)
    requires Ordered(f, a) && forall d :: Needs(f, e, d) ==> d in a
    ensures Ordered(f, a + [e])
  {
    var log := a + [e];
    forall i, d | 0 <= i < |log| && Needs(f, log[i], d) ensures d in log[..i] {
      assert i < |a| ==> log[..i] == a[..i];
      assert i == |a| ==> log[..i] == a;
    }
  }

  lemma {:induction false} OnceThen(a: seq<Event>, b: seq<Event>)
    requires Once(a) && Once(b) && forall e :: e in a ==> e !in b
    ensures Once(a + b)
  {
    var log := a + b;
    forall i, j | 0 <= i < j < |log| ensures log[i] != log[j] {
      if i < |a| <= j {
        assert log[i] in a && log[j] in b;
      }
    }
  }

  // ----- subtrees -----

  lemma {:induction false} Disjoint(p: Path, c: string, k: Key, d: string, l: Key, q: Path)
    requires AtOrAbove(Under(p, c, k), q) && AtOrAbove(Under(p, d, l), q)
    ensures c == d && k == l
  {
    var a, b := Under(p, c, k), Under(p, d, l);
    AboveIsShallower(a, q);
    AboveIsShallower(b, q);
    if a != q && b != q {
      Disjoint(p, c, k, d, l, q.parent);
    }
  }

  lemma {:induction false} NotAboveItself(p: Path, c: string, k: Key)
    ensures !AtOrAbove(Under(p, c, k), p)
  {
    if AtOrAbove(Under(p, c, k), p) {
      AboveIsShallower(Under(p, c, k), p);
    }
  }

  /** A node strictly below `p` is below a child of `p` that is in the forest. */
  lemma {:induction false} ThroughChild(f: Forest, p: Path, q: Path) returns (c: string, k: Key)
    requires Grown(f) && q in f.info && AtOrAbove(p, q) && p != q
    ensures AtOrAbove(Under(p, c, k), q) && Slot(p, c) in f.kids && k in f.kids[Slot(p, c)]
  {
    assert Slot(q.parent, q.chain) in f.kids && q.key in f.kids[Slot(q.parent, q.chain)];
    if q.parent == p {
      c, k := q.chain, q.key;
    } else {
      c, k := ThroughChild(f, p, q.parent);
    }
  }

  // ----- what has been done, at each point of the walk -----

  /** Everything at and below `p`, each event once and none before what it needs. */
  ghost predicate NodeDone(f: Forest, p: Path, log: seq<Event>) {
    Ordered(f, log) && Once(log) && forall e :: e in log <==> Genuine(f, e) && AtOrAbove(p, Where(e))
  }

  predicate BelowFirst(f: Forest, s: Slot, n: nat, q: Path)
    requires s in f.kids && n <= |f.kids[s]|
  {
    exists j :: 0 <= j < n && AtOrAbove(Child(s, f.kids[s][j]), q)
  }

  /** Everything below the first `n` objects of a relation. */
  ghost predicate KidsDone(f: Forest, s: Slot, n: nat, log: seq<Event>)
    requires s in f.kids && n <= |f.kids[s]|
  {
    Ordered(f, log) && Once(log) && forall e :: e in log <==> Genuine(f, e) && BelowFirst(f, s, n, Where(e))
  }

  predicate BelowSome(f: Forest, p: Path, done: set<string>, e: Event) {
    exists c :: c in done && Slot(p, c) in f.kids
                && ((e.SetRelated? && e.slot == Slot(p, c)) || BelowFirst(f, Slot(p, c), |f.kids[Slot(p, c)]|, Where(e)))
  }

  /** Everything below the relations `done` of a node, and those relations set. */
  ghost predicate SlotsDone(f: Forest, p: Path, done: set<string>, log: seq<Event>) {
    Ordered(f, log) && Once(log) && forall e :: e in log <==> Genuine(f, e) && BelowSome(f, p, done, e)
  }

  lemma {:induction false} KidDone(f: Forest, s: Slot, n: nat, log: seq<Event>, more: seq<Event>)
    requires Grown(f) && s in f.kids && n < |f.kids[s]|
    requires KidsDone(f, s, n, log) && NodeDone(f, Child(s, f.kids[s][n]), more)
    ensures KidsDone(f, s, n + 1, log + more)
  {
    var ks := f.kids[s];
    forall e | e in log ensures e !in more {
      var j :| 0 <= j < n && AtOrAbove(Child(s, ks[j]), Where(e));
      assert ks[j] != ks[n];
      if e in more {
        Disjoint(s.parent, s.chain, ks[j], s.chain, ks[n], Where(e));
      }
    }
    OnceThen(log, more);
    OrderedThen(f, log, more);
    forall e ensures e in log + more <==> Genuine(f, e) && BelowFirst(f, s, n + 1, Where(e)) {
      assert BelowFirst(f, s, n + 1, Where(e)) <==> BelowFirst(f, s, n, Where(e)) || AtOrAbove(Child(s, ks[n]), Where(e));
    }
  }

  lemma {:induction false} SlotDone(f: Forest, p: Path, done: set<string>, c: string, log: seq<Event>, more: seq<Event>)
    requires Grown(f) && Slot(p, c) in f.kids && c !in done
    requires SlotsDone(f, p, done, log) && KidsDone(f, Slot(p, c), |f.kids[Slot(p, c)]|, more)
    ensures SlotsDone(f, p, done + {c}, log + (more + [SetFor(f, Slot(p, c))]))
  {
    var s := Slot(p, c);
    var setter := SetFor(f, s);
    SetAfterKids(f, s, more);
    var block := more + [setter];
    forall e | e in log ensures e !in block {
      Apart(f, p, done, c, e);
    }
    OnceThen(log, block);
    OrderedThen(f, log, block);
    forall e ensures e in log + block <==> Genuine(f, e) && BelowSome(f, p, done + {c}, e) {
      BelowOneMore(f, p, done, c, e);
      assert e in block <==> e in more || e == setter;
      assert Genuine(f, e) && e.SetRelated? && e.slot == s <==> e == setter;
    }
  }

  lemma {:induction false} SetAfterKids(f: Forest, s: Slot, more: seq<Event>)
    requires Grown(f) && s in f.kids && KidsDone(f, s, |f.kids[s]|, more)
    ensures Ordered(f, more + [SetFor(f, s)]) && Once(more + [SetFor(f, s)])
  {
    var setter, ks := SetFor(f, s), f.kids[s];
    forall d | Needs(f, setter, d) ensures d in more {
      assert Under(d.path.parent, d.path.chain, d.path.key) in f.info;
      var j :| 0 <= j < |ks| && ks[j] == d.path.key;
      assert AtOrAbove(Child(s, ks[j]), Where(d));
      assert BelowFirst(f, s, |ks|, Where(d));
    }
    OrderedLast(f, more, setter);
    if setter in more {
      var j :| 0 <= j < |ks| && AtOrAbove(Child(s, ks[j]), s.parent);
      NotAboveItself(s.parent, s.chain, ks[j]);
    }
  }

  /** What belongs to other relations of the node is not below this one. */
  lemma {:induction false} Apart(f: Forest, p: Path, done: set<string>, c: string, e: Event)
    requires c !in done && Slot(p, c) in f.kids && BelowSome(f, p, done, e)
    ensures !(e.SetRelated? && e.slot == Slot(p, c)) && !BelowFirst(f, Slot(p, c), |f.kids[Slot(p, c)]|, Where(e))
  {
    var d :| d in done && Slot(p, d) in f.kids
             && ((e.SetRelated? && e.slot == Slot(p, d)) || BelowFirst(f, Slot(p, d), |f.kids[Slot(p, d)]|, Where(e)));
    var q := Where(e);
    if BelowFirst(f, Slot(p, c), |f.kids[Slot(p, c)]|, q) {
      var j :| 0 <= j < |f.kids[Slot(p, c)]| && AtOrAbove(Child(Slot(p, c), f.kids[Slot(p, c)][j]), q);
      if BelowFirst(f, Slot(p, d), |f.kids[Slot(p, d)]|, q) {
        var i :| 0 <= i < |f.kids[Slot(p, d)]| && AtOrAbove(Child(Slot(p, d), f.kids[Slot(p, d)][i]), q);
        Disjoint(p, c, f.kids[Slot(p, c)][j], d, f.kids[Slot(p, d)][i], q);
      } else {
        NotAboveItself(p, c, f.kids[Slot(p, c)][j]);
      }
    }
    if e.SetRelated? && e.slot == Slot(p, c) {
      var i :| 0 <= i < |f.kids[Slot(p, d)]| && AtOrAbove(Child(Slot(p, d), f.kids[Slot(p, d)][i]), q);
      NotAboveItself(p, d, f.kids[Slot(p, d)][i]);
    }
  }

  lemma {:induction false} BelowOneMore(f: Forest, p: Path, done: set<string>, c: string, e: Event)
    requires Slot(p, c) in f.kids
    ensures BelowSome(f, p, done + {c}, e) <==>
              BelowSome(f, p, done, e)
              || (e.SetRelated? && e.slot == Slot(p, c)) || BelowFirst(f, Slot(p, c), |f.kids[Slot(p, c)]|, Where(e))
  {
    assert c in done + {c};
  }

  /** With all relations of a node done, its hooks are all that is left. */
  lemma {:induction false} NodeIsDone(f: Forest, p: Path, done: set<string>, log: seq<Event>)
    requires Grown(f) && p in f.info && SlotsDone(f, p, done, log)
    requires forall c :: c in done <==> Slot(p, c) in f.kids
    ensures NodeDone(f, p, log + (if f.info[p].through.Some? then [ThroughHook(p)] else []) + [Hook(p)])
  {
    var hooks := if f.info[p].through.Some? then [ThroughHook(p)] else [];
    var log1 := log + hooks;
    forall e ensures BelowSome(f, p, done, e) ==> AtOrAbove(p, Where(e)) && e != Hook(p) && e != ThroughHook(p) {
      if BelowSome(f, p, done, e) {
        BelowIsBelow(f, p, done, e);
      }
    }
    forall d: Event | d.SetRelated? && d.slot.parent == p && Genuine(f, d) ensures d in log {
      assert d.slot == Slot(p, d.slot.chain);
      assert BelowSome(f, p, done, d);
    }
    if hooks != [] {
      OrderedLast(f, log, ThroughHook(p));
    } else {
      assert log1 == log;
    }
    OrderedLast(f, log1, Hook(p));
    OnceThen(log, hooks);
    OnceThen(log1, [Hook(p)]);
    forall e ensures e in log1 + [Hook(p)] <==> Genuine(f, e) && AtOrAbove(p, Where(e)) {
      if Genuine(f, e) && AtOrAbove(p, Where(e)) {
        BelowIsSome(f, p, done, e);
      }
    }
  }

  lemma {:induction false} BelowIsBelow(f: Forest, p: Path, done: set<string>, e: Event)
    requires BelowSome(f, p, done, e)
    ensures AtOrAbove(p, Where(e)) && e != Hook(p) && e != ThroughHook(p)
  {
    var c :| c in done && Slot(p, c) in f.kids
             && ((e.SetRelated? && e.slot == Slot(p, c)) || BelowFirst(f, Slot(p, c), |f.kids[Slot(p, c)]|, Where(e)));
    if !(e.SetRelated? && e.slot == Slot(p, c)) {
      var j :| 0 <= j < |f.kids[Slot(p, c)]| && AtOrAbove(Child(Slot(p, c), f.kids[Slot(p, c)][j]), Where(e));
      var child := Child(Slot(p, c), f.kids[Slot(p, c)][j]);
      assert AtOrAbove(p, child);
      AboveTransitive(p, child, Where(e));
      NotAboveItself(p, c, f.kids[Slot(p, c)][j]);
    }
  }

  lemma {:induction false} BelowIsSome(f: Forest, p: Path, done: set<string>, e: Event)
    requires Grown(f) && p in f.info && Genuine(f, e) && AtOrAbove(p, Where(e))
    requires forall c :: c in done <==> Slot(p, c) in f.kids
    ensures BelowSome(f, p, done, e) || e == Hook(p) || e == ThroughHook(p)
  {
    if Where(e) == p {
      if e.SetRelated? {
        assert e.slot == Slot(p, e.slot.chain);
      }
    } else {
      assert Where(e) in f.info;
      var c, k := ThroughChild(f, p, Where(e));
      var j :| 0 <= j < |f.kids[Slot(p, c)]| && f.kids[Slot(p, c)][j] == k;
      assert AtOrAbove(Child(Slot(p, c), f.kids[Slot(p, c)][j]), Where(e));
      assert BelowFirst(f, Slot(p, c), |f.kids[Slot(p, c)]|, Where(e));
    }
  }

  // ----- the walk -----

  /** A hook that fails, or an object without a key, stops the walk. */
  datatype Verdict = Compiled | HookFailed | NoKey

  /** Object `i` of the store shows node `p`, down to `n` levels of nodes. */
  ghost predicate NodeShape(st: Store, i: nat, p: Path, f: Forest, n: nat)
    decreases n, 1
  {
    && n > 0 && i < |st.nodes| && p in f.info && Holds(st.nodes[i], p, f.info[p])
    && (forall c :: c in st.nodes[i].relations <==> Slot(p, c) in f.kids)
    && (forall c :: c in st.nodes[i].relations ==> SlotShape(st, st.nodes[i].relations[c], Slot(p, c), f, n - 1))
  }

  ghost predicate SlotShape(st: Store, r: nat, s: Slot, f: Forest, n: nat)
    decreases n, 2
  {
    && r < |st.relations| && s in f.kids && s in f.types
    && st.relations[r].relType == f.types[s] && st.relations[r].objects.keys == f.kids[s]
    && (forall j :: 0 <= j < |f.kids[s]| ==> f.kids[s][j] in st.relations[r].objects.at)
    && (forall j :: 0 <= j < |f.kids[s]| ==>
          NodeShape(st, st.relations[r].objects.at[f.kids[s][j]], Child(s, f.kids[s][j]), f, n))
  }

  ghost predicate HasKeyless(f: Forest, p: Path) {
    exists q :: q in f.info && AtOrAbove(p, q) && q.key.NilKey?
  }

  lemma {:induction false} KeylessItself(f: Forest, p: Path)
    requires p in f.info && p.key.NilKey?
    ensures HasKeyless(f, p)
  {
    assert AtOrAbove(p, p);
  }

  lemma {:induction false} KeylessBelow(f: Forest, p: Path, c: string, k: Key)
    ensures HasKeyless(f, Under(p, c, k)) ==> HasKeyless(f, p)
  {
    assert AtOrAbove(p, Under(p, c, k));
    if HasKeyless(f, Under(p, c, k)) {
      var q :| q in f.info && AtOrAbove(Under(p, c, k), q) && q.key.NilKey?;
      AboveTransitive(p, Under(p, c, k), q);
    }
  }

  /** No object below the relations `done` is without a key. */
  ghost predicate Keyed(f: Forest, p: Path, done: set<string>) {
    forall c, k :: c in done && Slot(p, c) in f.kids && k in f.kids[Slot(p, c)] ==> !HasKeyless(f, Under(p, c, k))
  }

  lemma {:induction false} KeyedOneMore(f: Forest, p: Path, done: set<string>, c: string)
    requires Keyed(f, p, done) && Slot(p, c) in f.kids
    requires KidsKeyed(f, Slot(p, c), |f.kids[Slot(p, c)]|)
    ensures Keyed(f, p, done + {c})
  {
    var ks := f.kids[Slot(p, c)];
    forall k | k in ks ensures !HasKeyless(f, Under(p, c, k)) {
      var l :| 0 <= l < |ks| && ks[l] == k;
      assert Child(Slot(p, c), ks[l]) == Under(p, c, k);
    }
  }

  lemma {:induction false} AllKeyed(f: Forest, p: Path, done: set<string>)
    requires Grown(f) && !p.key.NilKey? && Keyed(f, p, done) && forall c :: c in done <==> Slot(p, c) in f.kids
    ensures !HasKeyless(f, p)
  {
    if HasKeyless(f, p) {
      var q :| q in f.info && AtOrAbove(p, q) && q.key.NilKey?;
      var c, k := ThroughChild(f, p, q);
    }
  }

  /** The hook is not run for an object that is not there. */
  predicate HookWorks(fails: Object -> bool, o: Option<Object>) {
    o.None? || !fails(o.value)
  }

  /** A hook event that fails. */
  predicate Bad(f: Forest, fails: Object -> bool, e: Event) {
    match e
    case SetRelated(_, _, _) => false
    case ThroughHook(p) => p in f.info && !HookWorks(fails, f.info[p].through)
    case Hook(p) => p in f.info && !HookWorks(fails, f.info[p].definer)
  }

  predicate NoneBad(f: Forest, fails: Object -> bool, log: seq<Event>)
    decreases |log|
  {
    log == [] || (!Bad(f, fails, log[|log| - 1]) && NoneBad(f, fails, log[..|log| - 1]))
  }

  lemma {:induction false} NoneBadOne(f: Forest, fails: Object -> bool, a: seq<Event>, e: Event)
    requires NoneBad(f, fails, a) && !Bad(f, fails, e)
    ensures NoneBad(f, fails, a + [e])
  {
    assert (a + [e])[..|a|] == a;
  }

  lemma {:induction false} NoneBadThen(f: Forest, fails: Object -> bool, a: seq<Event>, b: seq<Event>)
    requires NoneBad(f, fails, a) && NoneBad(f, fails, b)
    ensures NoneBad(f, fails, a + b)
    decreases |b|
  {
    if b == [] {
      assert a + b == a;
    } else {
      NoneBadThen(f, fails, a, b[..|b| - 1]);
      assert (a + b)[..|a + b| - 1] == a + b[..|b| - 1];
    }
  }

  lemma {:induction false} NoneBadAt(f: Forest, fails: Object -> bool, log: seq<Event>, e: Event)
    requires NoneBad(f, fails, log) && e in log
    ensures !Bad(f, fails, e)
    decreases |log|
  {
    if log[|log| - 1] != e {
      NoneBadAt(f, fails, log[..|log| - 1], e);
    }
  }

  ghost predicate HasBad(f: Forest, fails: Object -> bool, p: Path) {
    exists e :: Bad(f, fails, e) && AtOrAbove(p, Where(e))
  }

  /** Why the walk below `p` stopped. */
  ghost predicate Trouble(f: Forest, fails: Object -> bool, p: Path, o: Verdict) {
    match o case Compiled => false case NoKey => HasKeyless(f, p) case HookFailed => HasBad(f, fails, p)
  }

  lemma {:induction false} TroubleBelow(f: Forest, fails: Object -> bool, p: Path, c: string, k: Key, o: Verdict)
    requires Trouble(f, fails, Under(p, c, k), o)
    ensures Trouble(f, fails, p, o)
  {
    assert AtOrAbove(p, Under(p, c, k));
    if o.NoKey? {
      KeylessBelow(f, p, c, k);
    } else {
      var e :| Bad(f, fails, e) && AtOrAbove(Under(p, c, k), Where(e));
      AboveTransitive(p, Under(p, c, k), Where(e));
    }
  }

  lemma {:induction false} TroubleHere(f: Forest, fails: Object -> bool, p: Path, e: Event)
    requires Bad(f, fails, e) && Where(e) == p
    ensures Trouble(f, fails, p, HookFailed)
  {
    assert AtOrAbove(p, Where(e));
  }

  /** An object, after everything below it; its relations are walked in any order. */
  method CompileNode(st: Store, i: nat, fails: Object -> bool, ghost p: Path, ghost f: Forest, ghost n: nat)
      returns (o: Verdict, ghost log: seq<Event>)
    requires NodeShape(st, i, p, f, n) && Grown(f)
    decreases n, 1
    ensures o.Compiled? ==> NodeDone(f, p, log) && NoneBad(f, fails, log) && !HasKeyless(f, p)
    ensures !o.Compiled? ==> Trouble(f, fails, p, o)
  {
    log := [];
    if st.nodes[i].key.NilKey? {
      KeylessItself(f, p);
      return NoKey, log;
    }
    ghost var done;
    o, log, done := CompileRelations(st, st.nodes[i].relations, fails, p, f, n - 1);
    if !o.Compiled? {
      return;
    }
    AllKeyed(f, p, done);
    NodeIsDone(f, p, done, log);
    if st.nodes[i].through.Some? {
      if fails(st.nodes[i].through.value) {
        TroubleHere(f, fails, p, ThroughHook(p));
        return HookFailed, log;
      }
      NoneBadOne(f, fails, log, ThroughHook(p));
      log := log + [ThroughHook(p)];
    }
    if st.nodes[i].definer.Some? && fails(st.nodes[i].definer.value) {
      TroubleHere(f, fails, p, Hook(p));
      return HookFailed, log;
    }
    assert log + [] == log;
    NoneBadOne(f, fails, log, Hook(p));
    log := log + [Hook(p)];
  }

  lemma {:induction false} NothingDone(f: Forest, fails: Object -> bool, p: Path)
    ensures SlotsDone(f, p, {}, []) && NoneBad(f, fails, []) && Keyed(f, p, {})
  {
  }

  method CompileRelations(st: Store, relations: map<string, nat>, fails: Object -> bool, ghost p: Path, ghost f: Forest, ghost n: nat)
      returns (o: Verdict, ghost log: seq<Event>, ghost done: set<string>)
    requires Grown(f)
    requires forall c :: c in relations <==> Slot(p, c) in f.kids
    requires forall c :: c in relations ==> SlotShape(st, relations[c], Slot(p, c), f, n)
    decreases n, 5
    ensures o.Compiled? ==> SlotsDone(f, p, done, log) && NoneBad(f, fails, log) && Keyed(f, p, done) && forall c :: c in done <==> Slot(p, c) in f.kids
    ensures !o.Compiled? ==> Trouble(f, fails, p, o)
  {
    hide *;
    log, done := [], {};
    NothingDone(f, fails, p);
    var todo := relations.Keys;
    while todo != {}
      invariant todo <= relations.Keys && done == relations.Keys - todo
      invariant SlotsDone(f, p, done, log) && NoneBad(f, fails, log) && Keyed(f, p, done)
      decreases |todo|
    {
      var c :| c in todo;
      o, log := CompileNamed(st, relations[c], fails, c, p, f, n, done, log);
      if !o.Compiled? {
        return;
      }
      todo, done := todo - {c}, done + {c};
    }
    o := Compiled;
  }

  method CompileNamed(st: Store, r: nat, fails: Object -> bool, ghost c: string, ghost p: Path, ghost f: Forest, ghost n: nat, ghost done: set<string>,
                      ghost before: seq<Event>)
      returns (o: Verdict, ghost log: seq<Event>)
    requires Grown(f) && SlotShape(st, r, Slot(p, c), f, n)
    requires c !in done && SlotsDone(f, p, done, before) && NoneBad(f, fails, before) && Keyed(f, p, done)
    decreases n, 4
    ensures o.Compiled? ==> SlotsDone(f, p, done + {c}, log) && NoneBad(f, fails, log) && Keyed(f, p, done + {c})
    ensures !o.Compiled? ==> Trouble(f, fails, p, o)
  {
    ghost var more;
    o, more := CompileRelation(st, r, fails, Slot(p, c), f, n);
    log := before;
    if o.Compiled? {
      SlotDone(f, p, done, c, before, more);
      KeyedOneMore(f, p, done, c);
      NoneBadOne(f, fails, more, SetFor(f, Slot(p, c)));
      NoneBadThen(f, fails, before, more + [SetFor(f, Slot(p, c))]);
      log := before + (more + [SetFor(f, Slot(p, c))]);
    }
  }

  ghost predicate KidsKeyed(f: Forest, s: Slot, n: nat)
    requires s in f.kids && n <= |f.kids[s]|
  {
    forall l :: 0 <= l < n ==> !HasKeyless(f, Child(s, f.kids[s][l]))
  }

  /** The objects of a relation in their order, and then the relation itself. */
  method CompileRelation(st: Store, r: nat, fails: Object -> bool, ghost s: Slot, ghost f: Forest, ghost n: nat)
      returns (o: Verdict, ghost log: seq<Event>)
    requires SlotShape(st, r, s, f, n) && Grown(f)
    decreases n, 3
    ensures o.Compiled? ==> KidsDone(f, s, |f.kids[s]|, log) && NoneBad(f, fails, log) && KidsKeyed(f, s, |f.kids[s]|)
    ensures !o.Compiled? ==> Trouble(f, fails, s.parent, o)
  {
    var related: seq<RelatedObject> := [];
    log := [];
    for j := 0 to |st.relations[r].objects.keys|
      invariant KidsDone(f, s, j, log) && NoneBad(f, fails, log) && KidsKeyed(f, s, j)
      invariant related == RelatedOf(f, s, f.kids[s][..j])
    {
      var one;
      o, log, one := CompileOne(st, r, j, fails, s, f, n, log);
      if !o.Compiled? {
        return;
      }
      RelatedOneMore(f, s, f.kids[s], j);
      related := related + [one];
    }
    assert f.kids[s][..|f.kids[s]|] == f.kids[s];
    assert SetRelated(s, st.relations[r].relType, related) == SetFor(f, s);
    o := Compiled;
  }

  lemma {:induction false} RelatedOneMore(f: Forest, s: Slot, keys: seq<Key>, j: nat)
    requires j < |keys|
    ensures RelatedOf(f, s, keys[..j + 1]) == RelatedOf(f, s, keys[..j]) + [RelatedAt(f, s, keys[j])]
  {
  }

  method CompileOne(st: Store, r: nat, j: nat, fails: Object -> bool, ghost s: Slot, ghost f: Forest, ghost n: nat, ghost before: seq<Event>)
      returns (o: Verdict, ghost log: seq<Event>, one: RelatedObject)
    requires SlotShape(st, r, s, f, n) && Grown(f) && j < |f.kids[s]| && KidsDone(f, s, j, before) && NoneBad(f, fails, before)
    requires KidsKeyed(f, s, j)
    decreases n, 2
    ensures o.Compiled? ==> KidsDone(f, s, j + 1, log) && NoneBad(f, fails, log) && KidsKeyed(f, s, j + 1) && one == RelatedAt(f, s, f.kids[s][j])
    ensures !o.Compiled? ==> Trouble(f, fails, s.parent, o)
  {
    var k := st.relations[r].objects.keys[j];
    var i := st.relations[r].objects.at[k];
    one := RelatedObject(st.nodes[i].key, st.nodes[i].definer, st.nodes[i].through);
    log := before;
    ghost var more;
    o, more := CompileNode(st, i, fails, Child(s, k), f, n);
    if o.Compiled? {
      KidDone(f, s, j, before, more);
      NoneBadThen(f, fails, before, more);
      log := before + more;
    } else {
      TroubleBelow(f, fails, s.parent, s.chain, k, o);
    }
  }

  // ----- every root -----

  predicate BelowRoots(f: Forest, n: nat, q: Path)
    requires n <= |f.roots|
  {
    exists j :: 0 <= j < n && AtOrAbove(RootOf(f.roots[j]), q)
  }

  /** Everything at and below the first `n` roots. */
  ghost predicate RootsDone(f: Forest, n: nat, log: seq<Event>)
    requires n <= |f.roots|
  {
    Ordered(f, log) && Once(log) && forall e :: e in log <==> Genuine(f, e) && BelowRoots(f, n, Where(e))
  }

  /** Every event there is to be, once, and none before what it needs. */
  ghost predicate AllDone(f: Forest, log: seq<Event>) {
    Ordered(f, log) && Once(log) && forall e :: e in log <==> Genuine(f, e)
  }

  lemma {:induction false} OneRoot(a: Key, b: Key, q: Path)
    requires AtOrAbove(RootOf(a), q) && AtOrAbove(RootOf(b), q)
    ensures a == b
  {
    if q.Under? {
      OneRoot(a, b, q.parent);
    }
  }

  lemma {:induction false} SomeRoot(f: Forest, q: Path) returns (j: nat)
    requires Grown(f) && q in f.info
    ensures j < |f.roots| && AtOrAbove(RootOf(f.roots[j]), q)
  {
    match q
    case RootOf(k) => j :| 0 <= j < |f.roots| && f.roots[j] == k;
    case Under(p, c, k) =>
      assert Slot(p, c) in f.kids;
      j := SomeRoot(f, p);
  }

  lemma {:induction false} RootDone(f: Forest, n: nat, log: seq<Event>, more: seq<Event>)
    requires Grown(f) && n < |f.roots| && RootsDone(f, n, log) && NodeDone(f, RootOf(f.roots[n]), more)
    ensures RootsDone(f, n + 1, log + more)
  {
    forall e | e in log ensures e !in more {
      var j :| 0 <= j < n && AtOrAbove(RootOf(f.roots[j]), Where(e));
      if e in more {
        OneRoot(f.roots[j], f.roots[n], Where(e));
      }
    }
    OnceThen(log, more);
    OrderedThen(f, log, more);
    forall e ensures e in log + more <==> Genuine(f, e) && BelowRoots(f, n + 1, Where(e)) {
      assert BelowRoots(f, n + 1, Where(e)) <==> BelowRoots(f, n, Where(e)) || AtOrAbove(RootOf(f.roots[n]), Where(e));
    }
  }

  lemma {:induction false} RootsAreAll(f: Forest, log: seq<Event>)
    requires Grown(f) && RootsDone(f, |f.roots|, log)
    ensures AllDone(f, log)
  {
    forall e | Genuine(f, e) ensures BelowRoots(f, |f.roots|, Where(e)) {
      var j := SomeRoot(f, Where(e));
    }
  }

  lemma {:induction false} NoKeylessAtAll(f: Forest, q: Path)
    requires Grown(f) && q in f.info && forall j :: 0 <= j < |f.roots| ==> !HasKeyless(f, RootOf(f.roots[j]))
    ensures !q.key.NilKey?
  {
    var j := SomeRoot(f, q);
  }

  // ----- the store has the shape of the forest -----

  ghost predicate NoDeeper(f: Forest, d: nat) {
    forall p :: p in f.info ==> Depth(p) <= d
  }

  lemma {:induction false} Deepest(ps: set<Path>) returns (d: nat)
    ensures forall p :: p in ps ==> Depth(p) <= d
    decreases |ps|
  {
    if ps == {} {
      d := 0;
    } else {
      var p :| p in ps;
      d := Deepest(ps - {p});
      d := if d < Depth(p) then Depth(p) else d;
    }
  }

  lemma {:induction false} NodeFits(st: Store, v: Places, f: Forest, d: nat, p: Path, n: nat)
    requires Fits(st, v, f) && Grown(f) && NoDeeper(f, d) && p in f.info && n == d - Depth(p) + 1
    ensures NodeShape(st, v.nodes[p], p, f, n)
    decreases n, 1
  {
    var i, m := v.nodes[p], n - 1;
    forall c ensures c in st.nodes[i].relations <==> Slot(p, c) in f.kids {
      KnownSlot(st, v, f, p, c);
    }
    forall c | c in st.nodes[i].relations ensures SlotShape(st, st.nodes[i].relations[c], Slot(p, c), f, m) {
      KnownSlot(st, v, f, p, c);
      SlotFits(st, v, f, d, Slot(p, c), m);
    }
    NodeOf(st, i, p, f, n);
  }

  lemma {:induction false} NodeOf(st: Store, i: nat, p: Path, f: Forest, n: nat)
    requires n > 0 && i < |st.nodes| && p in f.info && Holds(st.nodes[i], p, f.info[p])
    requires forall c :: c in st.nodes[i].relations <==> Slot(p, c) in f.kids
    requires forall c :: c in st.nodes[i].relations ==> SlotShape(st, st.nodes[i].relations[c], Slot(p, c), f, n - 1)
    ensures NodeShape(st, i, p, f, n)
  {
  }

  lemma {:induction false} SlotOf(st: Store, r: nat, s: Slot, f: Forest, n: nat)
    requires r < |st.relations| && s in f.kids && s in f.types
    requires st.relations[r].relType == f.types[s] && st.relations[r].objects.keys == f.kids[s]
    requires forall j :: 0 <= j < |f.kids[s]| ==> f.kids[s][j] in st.relations[r].objects.at
    requires forall j :: 0 <= j < |f.kids[s]| ==>
               NodeShape(st, st.relations[r].objects.at[f.kids[s][j]], Child(s, f.kids[s][j]), f, n)
    ensures SlotShape(st, r, s, f, n)
  {
  }

  lemma {:induction false} KidFits(st: Store, v: Places, f: Forest, d: nat, s: Slot, k: Key, n: nat)
    requires Fits(st, v, f) && Grown(f) && NoDeeper(f, d) && s in f.kids && k in f.kids[s] && n == d - Depth(s.parent)
    ensures k in st.relations[v.slots[s]].objects.at && NodeShape(st, st.relations[v.slots[s]].objects.at[k], Child(s, k), f, n)
    decreases n, 2
  {
    KnownChild(st, v, f, s, k);
    NodeFits(st, v, f, d, Child(s, k), n);
  }

  lemma {:induction false} SlotFits(st: Store, v: Places, f: Forest, d: nat, s: Slot, n: nat)
    requires Fits(st, v, f) && Grown(f) && NoDeeper(f, d) && s in f.kids && n == d - Depth(s.parent)
    ensures SlotShape(st, v.slots[s], s, f, n)
    decreases n, 3
  {
    var r := v.slots[s];
    forall j | 0 <= j < |f.kids[s]|
      ensures f.kids[s][j] in st.relations[r].objects.at
              && NodeShape(st, st.relations[r].objects.at[f.kids[s][j]], Child(s, f.kids[s][j]), f, n)
    {
      KidFits(st, v, f, d, s, f.kids[s][j], n);
    }
    SlotOf(st, r, s, f, n);
  }
}
