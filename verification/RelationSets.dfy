/** Many-to-many relation sets: adding and removing targets, and the ordered map behind them. */
module RelationSets {
  import opened Keys
  import opened OrderedMaps
  import opened Outcomes

  /** An object with its primary key as the field holds it and as it goes to the database, and the
      key its unique fields give, if any. */
  datatype Obj = Obj(id: int, held: Key, stored: Key, unique: Option<Key>)

  /** The unique key: the stored primary key, or else what the unique fields give. */
  function UniqueKey(o: Obj): Option<Key> {
    if !IsZero(o.stored) then Some(o.stored) else o.unique
  }

  /** A related object with its through object, if it has one; some carry a key of their own. */
  datatype Relation = Relation(own: Option<Key>, obj: Obj, through: Option<int>)

  function KeyIn(r: Relation): Option<Key> {
    if r.own.Some? && !r.own.value.NilKey? then r.own else UniqueKey(r.obj)
  }

  /** What a set keeps of a relation. */
  datatype Link = Link(obj: Obj, through: Option<int>)

  function LinkOf(r: Relation): Link {
    Link(r.obj, r.through)
  }

  type Links = OrderedMap<Key, Link>

  const NO_LINKS: Links := OrderedMap([], map[])

  ghost predicate Ordered(m: Links) {
    && (forall k :: k in m.at <==> k in m.keys)
    && (forall i, j :: 0 <= i < j < |m.keys| ==> m.keys[i] != m.keys[j])
  }

  function ListOf(m: Links): seq<Link> {
    seq(|m.keys|, i requires 0 <= i < |m.keys| => if m.keys[i] in m.at then m.at[m.keys[i]] else Link(Obj(0, NilKey, NilKey, None), None))
  }

  predicate AllKeyed(rs: seq<Relation>) {
    forall i :: 0 <= i < |rs| ==> KeyIn(rs[i]).Some?
  }

  /** Setting a many-to-many set also panics at a relation without a through object. */
  predicate AllSettable(rs: seq<Relation>) {
    forall i :: 0 <= i < |rs| ==> Settable(rs[i])
  }

  predicate Settable(r: Relation) {
    KeyIn(r).Some? && r.through.Some?
  }

  function KeyAt(r: Relation): Key {
    if KeyIn(r).Some? then KeyIn(r).value else NilKey
  }

  /** Relations put into a map that may have some already. */
  function CollectInto(m: Links, rs: seq<Relation>): Links
    decreases |rs|
  {
    if rs == [] then m
    else
      var n := |rs| - 1;
      Set(CollectInto(m, rs[..n]), KeyAt(rs[n]), LinkOf(rs[n]))
  }

  function Collect(rs: seq<Relation>): Links {
    CollectInto(NO_LINKS, rs)
  }

  /** A relation as a set hands it out: without a key of its own. */
  function HandedOut(l: Link): Relation {
    Relation(None, l.obj, l.through)
  }

  function Relations(m: Links): seq<Relation> {
    seq(|m.keys|, i requires 0 <= i < |m.keys| => HandedOut(ListOf(m)[i]))
  }

  // ----- what collecting keeps -----

  lemma {:induction false} CollectOrdered(rs: seq<Relation>)
    ensures Ordered(Collect(rs)) && forall k :: k in Collect(rs).at <==> exists i :: 0 <= i < |rs| && KeyAt(rs[i]) == k
    decreases |rs|
  {
    if rs != [] {
      var n := |rs| - 1;
      CollectOrdered(rs[..n]);
      assert rs == rs[..n] + [rs[n]];
    }
  }

  predicate DistinctKeys(rs: seq<Relation>) {
    forall i, j :: 0 <= i < j < |rs| ==> KeyAt(rs[i]) != KeyAt(rs[j])
  }

  function LinksOf(rs: seq<Relation>): seq<Link> {
    seq(|rs|, i requires 0 <= i < |rs| => LinkOf(rs[i]))
  }

  function KeysOf(rs: seq<Relation>): seq<Key> {
    seq(|rs|, i requires 0 <= i < |rs| => KeyAt(rs[i]))
  }

  lemma {:induction false} SetNew(m: Links, k: Key, l: Link)
    requires Ordered(m) && k !in m.at
    ensures Set(m, k, l).keys == m.keys + [k] && ListOf(Set(m, k, l)) == ListOf(m) + [l]
  {
    assert forall i :: 0 <= i < |m.keys| ==> m.keys[i] != k;
  }

  /** Relations with different keys are collected as they are. */
  lemma {:induction false} CollectDistinct(rs: seq<Relation>)
    requires DistinctKeys(rs)
    ensures Collect(rs).keys == KeysOf(rs) && ListOf(Collect(rs)) == LinksOf(rs)
    decreases |rs|
  {
    if rs != [] {
      var n := |rs| - 1;
      CollectDistinct(rs[..n]);
      CollectOrdered(rs[..n]);
      assert KeyAt(rs[n]) !in Collect(rs[..n]).at;
      SetNew(Collect(rs[..n]), KeyAt(rs[n]), LinkOf(rs[n]));
      assert KeysOf(rs) == KeysOf(rs[..n]) + [KeyAt(rs[n])] && LinksOf(rs) == LinksOf(rs[..n]) + [LinkOf(rs[n])];
    }
  }

  // ----- removing -----

  /** The first test keeps a relation by the key its field holds, if it holds one. */
  predicate KeptByHeld(r: Relation, removed: set<Key>) {
    !IsZero(r.obj.held) && r.obj.held !in removed
  }

  /** The second keeps it by its unique key. */
  predicate KeptByUnique(r: Relation, removed: set<Key>) {
    UniqueKey(r.obj).Some? && UniqueKey(r.obj).value !in removed
  }

  /** Both tests are made of every relation, so one that passes both is there twice. */
  function Survivors(rs: seq<Relation>, removed: set<Key>): seq<Relation>
    decreases |rs|
  {
    if rs == [] then []
    else
      var n := |rs| - 1;
      Survivors(rs[..n], removed)
      + (if KeptByHeld(rs[n], removed) then [rs[n]] else []) + (if KeptByUnique(rs[n], removed) then [rs[n]] else [])
  }

  /** The relations that pass either test, once each. */
  function Kept(rs: seq<Relation>, removed: set<Key>): seq<Relation>
    decreases |rs|
  {
    if rs == [] then []
    else
      var n := |rs| - 1;
      Kept(rs[..n], removed) + (if KeptByHeld(rs[n], removed) || KeptByUnique(rs[n], removed) then [rs[n]] else [])
  }

  /** The relations whose unique key was not removed. */
  function Others(rs: seq<Relation>, removed: set<Key>): seq<Relation>
    decreases |rs|
  {
    if rs == [] then []
    else
      var n := |rs| - 1;
      Others(rs[..n], removed) + (if KeptByUnique(rs[n], removed) then [rs[n]] else [])
  }

  lemma {:induction false} KeptFrom(rs: seq<Relation>, removed: set<Key>)
    ensures forall i :: 0 <= i < |Kept(rs, removed)| ==> Kept(rs, removed)[i] in rs
    decreases |rs|
  {
    if rs != [] {
      KeptFrom(rs[..|rs| - 1], removed);
    }
  }

  lemma {:induction false} KeptDistinct(rs: seq<Relation>, removed: set<Key>)
    requires DistinctKeys(rs)
    ensures DistinctKeys(Kept(rs, removed))
    decreases |rs|
  {
    if rs != [] {
      var n := |rs| - 1;
      KeptDistinct(rs[..n], removed);
      KeptFrom(rs[..n], removed);
    }
  }

  lemma {:induction false} CollectedTwice(rs: seq<Relation>, r: Relation)
    ensures Collect(rs + [r] + [r]) == Collect(rs + [r])
  {
    var one, two := rs + [r], rs + [r] + [r];
    assert two[..|one|] == one && one[..|rs|] == rs;
    CollectOrdered(one);
  }

  lemma {:induction false} CollectOne(a: seq<Relation>, b: seq<Relation>, r: Relation)
    requires Collect(a) == Collect(b)
    ensures Collect(a + [r]) == Collect(b + [r])
  {
    assert (a + [r])[..|a|] == a && (b + [r])[..|b|] == b;
  }

  lemma {:induction false} SurvivorsLast(rs: seq<Relation>, removed: set<Key>, n: nat)
    requires |rs| == n + 1
    ensures var a, r := Survivors(rs[..n], removed), rs[n];
            Survivors(rs, removed) == if KeptByHeld(r, removed) && KeptByUnique(r, removed) then a + [r] + [r]
                                      else if KeptByHeld(r, removed) || KeptByUnique(r, removed) then a + [r] else a
  {
  }

  lemma {:induction false} KeptLast(rs: seq<Relation>, removed: set<Key>, n: nat)
    requires |rs| == n + 1
    ensures var b, r := Kept(rs[..n], removed), rs[n];
            Kept(rs, removed) == if KeptByHeld(r, removed) || KeptByUnique(r, removed) then b + [r] else b
  {
  }

  /** Collecting what survived gives each kept relation once, although the loop may have put it in
      twice. */
  lemma {:induction false} TwiceIsOnce(rs: seq<Relation>, removed: set<Key>)
    ensures Collect(Survivors(rs, removed)) == Collect(Kept(rs, removed))
    decreases |rs|
  {
    if rs != [] {
      var n := |rs| - 1;
      TwiceIsOnce(rs[..n], removed);
      SurvivorsLast(rs, removed, n);
      KeptLast(rs, removed, n);
      CollectOne(Survivors(rs[..n], removed), Kept(rs[..n], removed), rs[n]);
      CollectedTwice(Survivors(rs[..n], removed), rs[n]);
    }
  }

  /** A relation whose unique key was removed is not kept by the key its field holds. */
  predicate HeldAgrees(r: Relation, removed: set<Key>) {
    KeptByHeld(r, removed) ==> KeptByUnique(r, removed)
  }

  predicate AllAgree(rs: seq<Relation>, removed: set<Key>) {
    forall i :: 0 <= i < |rs| ==> HeldAgrees(rs[i], removed)
  }

  lemma {:induction false} KeptLengths(rs: seq<Relation>, removed: set<Key>)
    ensures |Kept(rs, removed)| >= |Others(rs, removed)|
    ensures AllAgree(rs, removed) ==> Kept(rs, removed) == Others(rs, removed)
    ensures !AllAgree(rs, removed) ==> |Kept(rs, removed)| > |Others(rs, removed)|
    decreases |rs|
  {
    if rs != [] {
      var n := |rs| - 1;
      KeptLengths(rs[..n], removed);
      assert AllAgree(rs, removed) <==> AllAgree(rs[..n], removed) && HeldAgrees(rs[n], removed) by {
        assert rs == rs[..n] + [rs[n]];
      }
    }
  }

  /** After removing, the set holds exactly the relations whose unique key was not removed, once
      each and in order, if and only if no removed relation is kept by the key its field holds:
      that happens when the field holds the key in another form than the database. */
  lemma {:induction false} RemovesExactly(rs: seq<Relation>, removed: set<Key>)
    requires DistinctKeys(rs)
    ensures ListOf(Collect(Survivors(rs, removed))) == LinksOf(Kept(rs, removed))
    ensures ListOf(Collect(Survivors(rs, removed))) == LinksOf(Others(rs, removed)) <==> AllAgree(rs, removed)
  {
    TwiceIsOnce(rs, removed);
    KeptDistinct(rs, removed);
    CollectDistinct(Kept(rs, removed));
    KeptLengths(rs, removed);
    if !AllAgree(rs, removed) {
      assert |LinksOf(Kept(rs, removed))| != |LinksOf(Others(rs, removed))|;
    }
  }

  /** An object whose field holds the key 7 that the database stores as 8: removing it by the
      stored key leaves it in the set. */
  lemma {:induction false} RemovedYetKept()
    ensures var rs, removed := [Relation(None, Obj(1, KeyOf(7), KeyOf(8), None), Some(2))], {KeyOf(8)};
            && DistinctKeys(rs) && !AllAgree(rs, removed) && Others(rs, removed) == []
            && ListOf(Collect(Survivors(rs, removed))) == LinksOf(rs)
  {
    var r, removed := Relation(None, Obj(1, KeyOf(7), KeyOf(8), None), Some(2)), {KeyOf(8)};
    var rs := [r];
    assert rs[..0] == [] && KeptByHeld(r, removed) && !KeptByUnique(r, removed);
    assert Kept(rs, removed) == Kept(rs[..0], removed) + [r] == rs;
    assert Others(rs, removed) == Others(rs[..0], removed) == [];
    assert !HeldAgrees(rs[0], removed);
    RemovesExactly(rs, removed);
  }

  /** The relations a set hands out have unique keys, all different. */
  ghost predicate Settled(m: Links) {
    AllKeyed(Relations(m)) && DistinctKeys(Relations(m))
  }

  /** Whatever is in a set has its through object. */
  predicate AllThrough(m: Links) {
    forall i :: 0 <= i < |m.keys| ==> ListOf(m)[i].through.Some?
  }

  lemma {:induction false} CollectThrough(rs: seq<Relation>)
    requires AllSettable(rs)
    ensures AllThrough(Collect(rs))
    decreases |rs|
  {
    if rs != [] {
      var n := |rs| - 1;
      CollectThrough(rs[..n]);
      CollectOrdered(rs[..n]);
      SetThrough(Collect(rs[..n]), KeyAt(rs[n]), LinkOf(rs[n]));
      assert Settable(rs[n]);
    }
  }

  lemma {:induction false} SetThrough(m: Links, k: Key, l: Link)
    requires AllThrough(m) && Ordered(m)
    ensures l.through.Some? ==> AllThrough(Set(m, k, l))
  {
    forall i | 0 <= i < |m.keys| ensures m.keys[i] in m.at && m.at[m.keys[i]].through.Some? {
      assert ListOf(m)[i].through.Some? && m.keys[i] in m.keys;
    }
  }

  // ----- the relation set -----

  class RelM2M {
    var relations: Option<Links>

    constructor ()
      ensures relations == None
    {
      relations := None;
    }

    predicate Valid()
      reads this
    {
      relations.Some? ==> AllThrough(relations.value)
    }

    function Values(): seq<Relation>
      reads this
    {
      if relations.None? then [] else Relations(relations.value)
    }

    /** The set is made anew; a relation without a through object or without any key panics. Nil
        relations are skipped. */
    method SetValues(rs: seq<Option<Relation>>) returns (ok: bool)
      modifies this
      ensures Valid() && (ok <==> AllSettable(NonNil(rs)))
      ensures ok ==> relations == Some(Collect(NonNil(rs)))
    {
      var m := NO_LINKS;
      for k := 0 to |rs|
        invariant AllSettable(NonNil(rs[..k])) && m == Collect(NonNil(rs[..k]))
      {
        NextNonNil(rs, k);
        if rs[k].None? {
          continue;
        }
        var r := rs[k].value;
        CollectLast(NonNil(rs[..k]), r);
        if r.through.None? || KeyIn(r).None? {
          NotSettable(rs, k);
          CollectThrough(NonNil(rs[..k]));
          relations := Some(m);
          return false;
        }
        m := Set(m, KeyIn(r).value, LinkOf(r));
      }
      assert rs[..|rs|] == rs;
      CollectThrough(NonNil(rs));
      relations := Some(m);
      return true;
    }

    /** The relations in order. */
    method GetValues() returns (rs: seq<Relation>)
      ensures rs == Values()
    {
      rs := [];
      if relations.Some? {
        for k := 0 to |relations.value.keys|
          invariant rs == Relations(relations.value)[..k]
        {
          rs := rs + [HandedOut(ListOf(relations.value)[k])];
        }
        assert Relations(relations.value)[..|relations.value.keys|] == Relations(relations.value);
      }
    }
  }

  function NonNil(rs: seq<Option<Relation>>): seq<Relation>
    decreases |rs|
  {
    if rs == [] then []
    else
      var n := |rs| - 1;
      NonNil(rs[..n]) + (if rs[n].Some? then [rs[n].value] else [])
  }

  lemma {:induction false} NextNonNil(rs: seq<Option<Relation>>, k: nat)
    requires k < |rs|
    ensures rs[k].None? ==> NonNil(rs[..k + 1]) == NonNil(rs[..k])
    ensures rs[k].Some? ==> NonNil(rs[..k + 1]) == NonNil(rs[..k]) + [rs[k].value]
  {
    assert rs[..k + 1][..k] == rs[..k];
    assert NonNil(rs[..k]) + [] == NonNil(rs[..k]);
  }

  lemma {:induction false} CollectLast(rs: seq<Relation>, r: Relation)
    ensures AllSettable(rs + [r]) <==> AllSettable(rs) && Settable(r)
    ensures Collect(rs + [r]) == Set(Collect(rs), KeyAt(r), LinkOf(r))
  {
    var all, n := rs + [r], |rs|;
    assert all[..n] == rs && all[n] == r;
    if AllSettable(all) {
      assert forall i :: 0 <= i < n ==> rs[i] == all[i];
    }
  }

  lemma {:induction false} NotSettable(rs: seq<Option<Relation>>, k: nat)
    requires k < |rs| && rs[k].Some? && !Settable(rs[k].value)
    ensures !AllSettable(NonNil(rs))
    decreases |rs|
  {
    var n := |rs| - 1;
    if k < n {
      NotSettable(rs[..n], k);
      var i :| 0 <= i < |NonNil(rs[..n])| && !Settable(NonNil(rs[..n])[i]);
      assert NonNil(rs)[i] == NonNil(rs[..n])[i];
    } else {
      assert NonNil(rs)[|NonNil(rs)| - 1] == rs[k].value;
    }
  }

  function Present(rs: seq<Relation>): seq<Option<Relation>> {
    seq(|rs|, i requires 0 <= i < |rs| => Some(rs[i]))
  }

  lemma {:induction false} PresentNonNil(rs: seq<Relation>)
    ensures NonNil(Present(rs)) == rs
    decreases |rs|
  {
    if rs != [] {
      var n := |rs| - 1;
      PresentNonNil(rs[..n]);
      assert Present(rs)[..n] == Present(rs[..n]);
      assert rs == rs[..n] + [rs[n]];
    }
  }

  // ----- the query set of the relation -----

  /** What to remove: something that knows its key, or an object. */
  datatype Target = Keyed(key: Key) | Object(obj: Obj)

  function TargetKey(t: Target): Option<Key> {
    match t
    case Keyed(k) => if k.NilKey? then None else Some(k)
    case Object(o) => UniqueKey(o)
  }

  function TargetKeys(ts: seq<Target>): set<Key> {
    set i | 0 <= i < |ts| && TargetKey(ts[i]).Some? :: TargetKey(ts[i]).value
  }

  /** Remove targets; the database says how many rows it deleted, or fails. */
  method RemoveTargets(links: RelM2M, targets: seq<Target>, database: Option<nat>) returns (r: Option<nat>)
    requires links.Valid()
    modifies links
    ensures links.Valid()
    ensures r.Some? <==>
              && (forall i :: 0 <= i < |targets| ==> TargetKey(targets[i]).Some?) && database.Some? && database.value > 0
              && forall i :: 0 <= i < |old(links.Values())| ==> UniqueKey(old(links.Values())[i].obj).Some?
    ensures r.Some? ==> r == database
    ensures r.Some? && old(links.Values()) != [] ==> links.relations == Some(Collect(Survivors(old(links.Values()), TargetKeys(targets))))
    ensures r.None? || old(links.Values()) == [] ==> links.relations == old(links.relations)
  {
    var keys := {};
    for k := 0 to |targets|
      invariant links.relations == old(links.relations)
      invariant keys == TargetKeys(targets[..k]) && forall i :: 0 <= i < k ==> TargetKey(targets[i]).Some?
    {
      if TargetKey(targets[k]).None? {
        return None;
      }
      OneKeyMore(targets, k);
      keys := keys + {TargetKey(targets[k]).value};
    }
    assert targets[..|targets|] == targets;
    if database.None? || database.value == 0 {
      return None;
    }
    var relList := links.GetValues();
    assert relList == old(links.Values());
    if relList == [] {
      return database;
    }
    var newRels := LoopSurvivors(relList, keys);
    if newRels.None? {
      return None;
    }
    SurvivorsSettable(relList, keys);
    PresentNonNil(newRels.value);
    var ok := links.SetValues(Present(newRels.value));
    return database;
  }

  lemma {:induction false} OneKeyMore(ts: seq<Target>, k: nat)
    requires k < |ts| && TargetKey(ts[k]).Some?
    ensures TargetKeys(ts[..k + 1]) == TargetKeys(ts[..k]) + {TargetKey(ts[k]).value}
  {
    var next := ts[..k + 1];
    assert next == ts[..k] + [ts[k]];
    forall key ensures key in TargetKeys(next) <==> key in TargetKeys(ts[..k]) + {TargetKey(ts[k]).value} {
      if key in TargetKeys(ts[..k]) {
        var i :| 0 <= i < k && TargetKey(ts[..k][i]) == Some(key);
        assert TargetKey(next[i]) == Some(key);
      }
      assert TargetKey(next[k]) == TargetKey(ts[k]);
    }
  }

  /** The loop over the old relations. */
  method LoopSurvivors(relList: seq<Relation>, removed: set<Key>) returns (r: Option<seq<Relation>>)
    ensures r.Some? <==> forall i :: 0 <= i < |relList| ==> UniqueKey(relList[i].obj).Some?
    ensures r.Some? ==> r.value == Survivors(relList, removed)
  {
    var newRels: seq<Relation> := [];
    for k := 0 to |relList|
      invariant newRels == Survivors(relList[..k], removed) && forall i :: 0 <= i < k ==> UniqueKey(relList[i].obj).Some?
    {
      var rel := relList[k];
      assert relList[..k + 1][..k] == relList[..k];
      if !IsZero(rel.obj.held) {
        if rel.obj.held !in removed {
          newRels := newRels + [rel];
        }
      }
      if UniqueKey(rel.obj).None? {
        return None;
      }
      if UniqueKey(rel.obj).value !in removed {
        newRels := newRels + [rel];
      }
    }
    assert relList[..|relList|] == relList;
    return Some(newRels);
  }

  lemma {:induction false} SurvivorsSettable(rs: seq<Relation>, removed: set<Key>)
    requires AllSettable(rs)
    ensures AllSettable(Survivors(rs, removed))
    decreases |rs|
  {
    if rs != [] {
      var n := |rs| - 1;
      SurvivorsSettable(rs[..n], removed);
      assert Settable(rs[n]);
    }
  }

  /** Add targets, already saved and linked: they come after the relations that are there. */
  method AddTargets(links: RelM2M, added: seq<Relation>) returns (ok: bool)
    requires links.Valid()
    modifies links
    ensures links.Valid()
    ensures added == [] ==> !ok && links.relations == old(links.relations)
    ensures added != [] ==> (ok <==> AllSettable(old(links.Values()) + added))
    ensures ok ==> links.relations == Some(Collect(old(links.Values()) + added))
  {
    if added == [] {
      return false;
    }
    var relList := links.GetValues();
    PresentNonNil(relList + added);
    ok := links.SetValues(Present(relList + added));
  }

  // ----- adding and removing again -----

  lemma {:induction false} OthersAll(rs: seq<Relation>, removed: set<Key>)
    requires forall i :: 0 <= i < |rs| ==> KeptByUnique(rs[i], removed)
    ensures Others(rs, removed) == rs
    decreases |rs|
  {
    if rs != [] {
      var n := |rs| - 1;
      OthersAll(rs[..n], removed);
      assert rs == rs[..n] + [rs[n]];
    }
  }

  /** Removing a target that was just added gives back the relations that were there before, when
      its key was not among theirs and its field holds the key it is filed under. */
  method AddThenRemove(links: RelM2M, added: Relation, database: nat) returns (r: Option<nat>)
    requires links.Valid() && links.relations.Some? && Settled(links.relations.value) && database > 0
    requires added.through.Some? && UniqueKey(added.obj).Some? && KeyIn(added) == UniqueKey(added.obj)
    requires forall i :: 0 <= i < |links.Values()| ==> KeyAt(links.Values()[i]) != KeyAt(added)
    requires added.obj.held == UniqueKey(added.obj).value || IsZero(added.obj.held)
    modifies links
    ensures r == Some(database) && links.Values() == old(links.Values())
  {
    var before := links.Values();
    assert DistinctKeys(before + [added]) && AllKeyed(before + [added]) && AllSettable(before + [added]);
    var ok := AddTargets(links, [added]);
    CollectDistinct(before + [added]);
    var after := links.Values();
    HandedBack(before, added, after);
    var key := UniqueKey(added.obj).value;
    r := RemoveTargets(links, [Object(added.obj)], Some(database));
    assert TargetKeys([Object(added.obj)]) == {key} by {
      assert TargetKey([Object(added.obj)][0]) == Some(key);
    }
    OthersButLast(after, |before|, key);
    RemovesExactly(after, {key});
    assert LinksOf(before) == ListOf(links.relations.value);
    assert links.Values() == before;
  }

  lemma {:induction false} HandedBack(before: seq<Relation>, added: Relation, after: seq<Relation>)
    requires DistinctKeys(before + [added]) && AllKeyed(before + [added]) && KeyIn(added) == UniqueKey(added.obj)
    requires forall i :: 0 <= i < |before| ==> before[i].own.None?
    requires after == Relations(Collect(before + [added])) && ListOf(Collect(before + [added])) == LinksOf(before + [added])
    ensures |after| == |before| + 1 && after[..|before|] == before && after[|before|] == HandedOut(LinkOf(added))
    ensures DistinctKeys(after) && forall i :: 0 <= i < |after| ==> after[i].own.None? && UniqueKey(after[i].obj).Some?
  {
    var all := before + [added];
    assert forall i :: 0 <= i < |all| ==> ListOf(Collect(all))[i] == LinkOf(all[i]);
    forall i | 0 <= i < |after| ensures after[i].obj == all[i].obj && after[i].own.None? && KeyAt(after[i]) == KeyAt(all[i]) {
      assert after[i] == HandedOut(LinkOf(all[i]));
    }
    forall i | 0 <= i < |before| ensures after[i] == before[i] {
      assert all[i] == before[i];
    }
  }

  lemma {:induction false} OthersButLast(after: seq<Relation>, n: nat, key: Key)
    requires |after| == n + 1 && DistinctKeys(after) && forall i :: 0 <= i < |after| ==> after[i].own.None? && UniqueKey(after[i].obj).Some?
    requires UniqueKey(after[n].obj) == Some(key) && (after[n].obj.held == key || IsZero(after[n].obj.held))
    ensures Others(after, {key}) == after[..n] && AllAgree(after, {key})
  {
    forall i | 0 <= i < n ensures KeptByUnique(after[i], {key}) {
      assert KeyAt(after[i]) != KeyAt(after[n]);
    }
    OthersAll(after[..n], {key});
  }

  // ----- reverse foreign keys -----

  class RelRevFK {
    var relations: Links

    constructor ()
      ensures relations == NO_LINKS
    {
      relations := NO_LINKS;
    }

    /** Unlike the many-to-many set this one keeps what it has; an object without a key panics,
        after those before it were put in. Nil objects are skipped. */
    method SetValues(os: seq<Option<Relation>>) returns (ok: bool)
      modifies this
      ensures ok <==> AllKeyed(NonNil(os))
      ensures ok ==> relations == CollectInto(old(relations), NonNil(os))
    {
      for k := 0 to |os|
        invariant relations == CollectInto(old(relations), NonNil(os[..k])) && AllKeyed(NonNil(os[..k]))
      {
        NextNonNil(os, k);
        if os[k].None? {
          continue;
        }
        var o := os[k].value;
        IntoLast(old(relations), NonNil(os[..k]), o);
        if KeyIn(o).None? {
          NotKeyed(os, k);
          return false;
        }
        relations := Set(relations, KeyIn(o).value, LinkOf(o));
      }
      assert os[..|os|] == os;
      return true;
    }
  }

  lemma {:induction false} IntoLast(m: Links, rs: seq<Relation>, r: Relation)
    ensures AllKeyed(rs + [r]) <==> AllKeyed(rs) && KeyIn(r).Some?
    ensures CollectInto(m, rs + [r]) == Set(CollectInto(m, rs), KeyAt(r), LinkOf(r))
  {
    var all, n := rs + [r], |rs|;
    assert all[..n] == rs && all[n] == r;
    if AllKeyed(all) {
      assert forall i :: 0 <= i < n ==> rs[i] == all[i];
    }
  }

  lemma {:induction false} NotKeyed(rs: seq<Option<Relation>>, k: nat)
    requires k < |rs| && rs[k].Some? && KeyIn(rs[k].value).None?
    ensures !AllKeyed(NonNil(rs))
    decreases |rs|
  {
    var n := |rs| - 1;
    if k < n {
      NotKeyed(rs[..n], k);
      var i :| 0 <= i < |NonNil(rs[..n])| && KeyIn(NonNil(rs[..n])[i]).None?;
      assert NonNil(rs)[i] == NonNil(rs[..n])[i];
    } else {
      assert NonNil(rs)[|NonNil(rs)| - 1] == rs[k].value;
    }
  }

  lemma {:induction false} SetKeeps(m: Links, k: Key, l: Link)
    requires Ordered(m)
    ensures Ordered(Set(m, k, l)) && m.keys <= Set(m, k, l).keys
  {
  }

  /** What was there keeps its place. */
  lemma {:induction false} IntoKeeps(m: Links, rs: seq<Relation>)
    requires Ordered(m)
    ensures Ordered(CollectInto(m, rs)) && m.keys <= CollectInto(m, rs).keys
    decreases |rs|
  {
    if rs != [] {
      var n := |rs| - 1;
      IntoKeeps(m, rs[..n]);
      SetKeeps(CollectInto(m, rs[..n]), KeyAt(rs[n]), LinkOf(rs[n]));
    }
  }

  /** The keys are those that were there and the objects' own. */
  lemma {:induction false} IntoHas(m: Links, rs: seq<Relation>, k: Key)
    ensures k in CollectInto(m, rs).at <==> k in m.at || k in KeysOf(rs)
    decreases |rs|
  {
    if rs != [] {
      var n := |rs| - 1;
      IntoHas(m, rs[..n], k);
      assert KeysOf(rs) == KeysOf(rs[..n]) + [KeyAt(rs[n])];
    }
  }
}
