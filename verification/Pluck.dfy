/** Plucking a path of fields out of rows of linked objects. */
module Pluck {
  import opened Outcomes

  /** What a field holds: nothing of any type, a plain value, one related object or none, many, one
      over a table between or none, or a list with gaps. An unset relation field is given an empty
      relation before it is looked at, so it holds that. */
  datatype Value =
    | Unset
    | Plain(value: int)
    | One(target: Option<Obj>)
    | Many(targets: seq<Obj>)
    | OneThrough(linked: Option<Obj>)
    | Elements(elements: seq<Option<Obj>>)

  datatype Obj = Obj(id: int, fields: map<string, Value>)

  /** A field found at the end of a path. */
  datatype Item = Item(obj: int, name: string, value: Value)

  /** How a walk ends: at its end, at a nil, at an error, or because the consumer had enough. */
  datatype End = Done | NilPointer | Failed | Stopped

  // ----- what a walk finds -----

  datatype Found = Found(items: seq<Item>, end: End)

  function NonNil(os: seq<Option<Obj>>): seq<Obj>
    decreases |os|
  {
    if os == [] then []
    else
      var n := |os| - 1;
      NonNil(os[..n]) + (if os[n].Some? then [os[n].value] else [])
  }

  /** The objects a field leads to. */
  function Targets(v: Value): seq<Obj> {
    match v
    case Unset => []
    case Plain(_) => []
    case One(t) => if t.Some? then [t.value] else []
    case Many(ts) => ts
    case OneThrough(t) => if t.Some? then [t.value] else []
    case Elements(es) => NonNil(es)
  }

  /** How the walk ends at a field that leads on. */
  function Blocked(v: Value): End {
    match v
    case Unset => NilPointer
    case Plain(_) => Failed
    case OneThrough(None) => NilPointer
    case _ => Done
  }

  /** A nil below is skipped. */
  function Skip(e: End): End {
    if e == NilPointer then Done else e
  }

  function Walk(obj: Obj, chain: seq<string>): Found
    requires chain != []
    decreases |chain|, 1, 0
  {
    if chain[0] !in obj.fields then Found([], Failed)
    else
      var v := obj.fields[chain[0]];
      if |chain| == 1 then Found([Item(obj.id, chain[0], v)], Done)
      else if Blocked(v) != Done then Found([], Blocked(v))
      else WalkAll(Targets(v), chain[1..])
  }

  /** All objects in turn, up to the first error. */
  function WalkAll(objs: seq<Obj>, chain: seq<string>): Found
    requires chain != []
    decreases |chain|, 2, |objs|
  {
    if objs == [] then Found([], Done)
    else
      var n := |objs| - 1;
      var before := WalkAll(objs[..n], chain);
      if before.end != Done then before
      else
        var last := Walk(objs[n], chain);
        Found(before.items + last.items, Skip(last.end))
  }

  // ----- the routes of a path -----

  /** A choice of one object at every relation of the path. */
  type Route = seq<nat>

  predicate Leads(obj: Obj, chain: seq<string>, route: Route)
    requires chain != []
    decreases |chain|
  {
    |route| == |chain| - 1 && chain[0] in obj.fields &&
    (|chain| > 1 ==>
       var ts := Targets(obj.fields[chain[0]]);
       route[0] < |ts| && Leads(ts[route[0]], chain[1..], route[1..]))
  }

  function At(obj: Obj, chain: seq<string>, route: Route): Item
    requires chain != [] && Leads(obj, chain, route)
    decreases |chain|
  {
    var v := obj.fields[chain[0]];
    if |chain| == 1 then Item(obj.id, chain[0], v) else At(Targets(v)[route[0]], chain[1..], route[1..])
  }

  /** Depth-first order: the first different choice decides. */
  predicate Before(a: Route, b: Route)
    decreases |a|
  {
    a != [] && b != [] && (a[0] < b[0] || (a[0] == b[0] && Before(a[1..], b[1..])))
  }

  /** A route over a list of objects starts with a place in the list. */
  predicate LeadsFrom(objs: seq<Obj>, chain: seq<string>, route: Route)
    requires chain != []
  {
    |route| == |chain| && route[0] < |objs| && Leads(objs[route[0]], chain, route[1..])
  }

  /** Some routes in depth-first order, the objects found on them, and no other routes. */
  ghost predicate Exactly(objs: seq<Obj>, chain: seq<string>, items: seq<Item>, routes: seq<Route>)
    requires chain != []
  {
    && |routes| == |items|
    && (forall i, j :: 0 <= i < j < |routes| ==> Before(routes[i], routes[j]))
    && (forall i :: 0 <= i < |routes| ==> LeadsFrom(objs, chain, routes[i]) && items[i] == At(objs[routes[i][0]], chain, routes[i][1..]))
    && (forall r :: LeadsFrom(objs, chain, r) ==> r in routes)
  }

  /** The same for one object. */
  ghost predicate ExactlyOne(obj: Obj, chain: seq<string>, items: seq<Item>, routes: seq<Route>)
    requires chain != []
  {
    && |routes| == |items|
    && (forall i, j :: 0 <= i < j < |routes| ==> Before(routes[i], routes[j]))
    && (forall i :: 0 <= i < |routes| ==> Leads(obj, chain, routes[i]) && items[i] == At(obj, chain, routes[i]))
    && (forall r :: Leads(obj, chain, r) ==> r in routes)
  }

  function Under(n: nat, routes: seq<Route>): seq<Route> {
    seq(|routes|, i requires 0 <= i < |routes| => [n] + routes[i])
  }

  lemma {:induction false} UnderTail(n: nat, r: Route)
    ensures ([n] + r)[1..] == r
  {
  }

  lemma {:induction false} MoreInOrder(objs: seq<Obj>, n: nat, chain: seq<string>, routes: seq<Route>, last: seq<Route>)
    requires chain != [] && n <= |objs| && forall i :: 0 <= i < |routes| ==> LeadsFrom(objs[..n], chain, routes[i])
    requires forall i, j :: 0 <= i < j < |routes| ==> Before(routes[i], routes[j])
    requires forall i, j :: 0 <= i < j < |last| ==> Before(last[i], last[j])
    ensures var all := routes + Under(n, last); forall i, j :: 0 <= i < j < |all| ==> Before(all[i], all[j])
  {
    var all := routes + Under(n, last);
    forall i, j | 0 <= i < j < |all| ensures Before(all[i], all[j]) {
      if i >= |routes| {
        UnderTail(n, last[i - |routes|]);
        UnderTail(n, last[j - |routes|]);
      } else if j >= |routes| {
        assert LeadsFrom(objs[..n], chain, routes[i]);
      }
    }
  }

  lemma {:induction false} MoreIsAll(objs: seq<Obj>, n: nat, chain: seq<string>, routes: seq<Route>, last: seq<Route>)
    requires chain != [] && |objs| == n + 1
    requires forall r :: LeadsFrom(objs[..n], chain, r) ==> r in routes
    requires forall r :: Leads(objs[n], chain, r) ==> r in last
    ensures forall r :: LeadsFrom(objs, chain, r) ==> r in routes + Under(n, last)
  {
    var all := routes + Under(n, last);
    forall r | LeadsFrom(objs, chain, r) ensures r in all {
      if r[0] == n {
        assert Leads(objs[n], chain, r[1..]);
        var k :| 0 <= k < |last| && last[k] == r[1..];
        assert all[|routes| + k] == r;
      } else {
        assert LeadsFrom(objs[..n], chain, r);
        var k :| 0 <= k < |routes| && routes[k] == r;
        assert all[k] == r;
      }
    }
  }

  /** A list with one object more has the routes over that object after all others. */
  lemma {:induction false} OneObjectMore(objs: seq<Obj>, n: nat, chain: seq<string>, items: seq<Item>, routes: seq<Route>,
                                         more: seq<Item>, last: seq<Route>)
    requires chain != [] && |objs| == n + 1 && Exactly(objs[..n], chain, items, routes) && ExactlyOne(objs[n], chain, more, last)
    ensures Exactly(objs, chain, items + more, routes + Under(n, last))
  {
    var all := routes + Under(n, last);
    forall i | 0 <= i < |all|
      ensures LeadsFrom(objs, chain, all[i]) && (items + more)[i] == At(objs[all[i][0]], chain, all[i][1..])
    {
      if i >= |routes| {
        UnderTail(n, last[i - |routes|]);
      } else {
        assert LeadsFrom(objs[..n], chain, routes[i]);
      }
    }
    MoreInOrder(objs, n, chain, routes, last);
    MoreIsAll(objs, n, chain, routes, last);
  }

  lemma {:induction false} WalkFindsRoutes(obj: Obj, chain: seq<string>) returns (routes: seq<Route>)
    requires chain != [] && Walk(obj, chain).end != Failed
    ensures ExactlyOne(obj, chain, Walk(obj, chain).items, routes)
    decreases |chain|, 1, 0
  {
    var v := obj.fields[chain[0]];
    if |chain| == 1 {
      routes := [[]];
    } else if Blocked(v) != Done {
      routes := [];
      assert Targets(v) == [];
    } else {
      routes := WalkAllFindsRoutes(Targets(v), chain[1..]);
      OneStep(obj, chain, Walk(obj, chain).items, routes);
    }
  }

  lemma {:induction false} OneStep(obj: Obj, chain: seq<string>, items: seq<Item>, routes: seq<Route>)
    requires |chain| > 1 && chain[0] in obj.fields && Exactly(Targets(obj.fields[chain[0]]), chain[1..], items, routes)
    ensures ExactlyOne(obj, chain, items, routes)
  {
    var ts := Targets(obj.fields[chain[0]]);
    forall r ensures Leads(obj, chain, r) <==> LeadsFrom(ts, chain[1..], r) {
    }
  }

  /** A walk that does not fail finds exactly the objects at the end of all routes, in depth-first
      order. */
  lemma {:induction false} WalkAllFindsRoutes(objs: seq<Obj>, chain: seq<string>) returns (routes: seq<Route>)
    requires chain != [] && WalkAll(objs, chain).end != Failed
    ensures Exactly(objs, chain, WalkAll(objs, chain).items, routes)
    decreases |chain|, 2, |objs|
  {
    if objs == [] {
      routes := [];
    } else {
      var n := |objs| - 1;
      WalkAllEnds(objs[..n], chain);
      routes := WalkAllFindsRoutes(objs[..n], chain);
      var last := WalkFindsRoutes(objs[n], chain);
      OneObjectMore(objs, n, chain, WalkAll(objs[..n], chain).items, routes, Walk(objs[n], chain).items, last);
      routes := routes + Under(n, last);
    }
  }

  lemma {:induction false} WalkEnds(obj: Obj, chain: seq<string>)
    requires chain != []
    ensures Walk(obj, chain).end != Stopped
    decreases |chain|, 1, 0
  {
    if chain[0] in obj.fields && |chain| > 1 {
      WalkAllEnds(Targets(obj.fields[chain[0]]), chain[1..]);
    }
  }

  lemma {:induction false} WalkAllEnds(objs: seq<Obj>, chain: seq<string>)
    requires chain != []
    ensures WalkAll(objs, chain).end == Done || WalkAll(objs, chain).end == Failed
    decreases |chain|, 2, |objs|
  {
    if objs != [] {
      var n := |objs| - 1;
      WalkAllEnds(objs[..n], chain);
      WalkEnds(objs[n], chain);
    }
  }

  // ----- the consumer -----

  /** The shared index and what the consumer was given so far. */
  datatype State = State(idx: nat, seen: seq<(nat, Item)>)

  /** The consumer that wants `limit` items has had enough. */
  predicate Full(limit: Option<nat>, st: State) {
    limit.Some? && |st.seen| >= limit.value
  }

  /** Give items one by one until the consumer has had enough; the index moves on after every
      item but the last of those. */
  function Feed(limit: Option<nat>, st: State, items: seq<Item>): (State, bool)
    decreases |items|
  {
    if items == [] then (st, false)
    else
      var n := |items| - 1;
      var (before, stopped) := Feed(limit, st, items[..n]);
      if stopped then (before, true)
      else
        var after := State(before.idx, before.seen + [(before.idx, items[n])]);
        if Full(limit, after) then (after, true) else (State(before.idx + 1, after.seen), false)
  }

  lemma {:induction false} FeedThen(limit: Option<nat>, st: State, a: seq<Item>, b: seq<Item>)
    ensures Feed(limit, st, a + b) == if Feed(limit, st, a).1 then Feed(limit, st, a) else Feed(limit, Feed(limit, st, a).0, b)
    decreases |b|
  {
    if b == [] {
      assert a + b == a;
    } else {
      var init := b[..|b| - 1];
      FeedThen(limit, st, a, init);
      assert (a + b)[..|a + b| - 1] == a + init;
    }
  }

  /** Items with consecutive indexes. */
  function Numbered(from: nat, items: seq<Item>): seq<(nat, Item)> {
    seq(|items|, i requires 0 <= i < |items| => (from + i, items[i]))
  }

  /** The consumer sees the items in order with consecutive indexes: all of them, or exactly as
      many as it wanted. */
  lemma {:induction false} ConsumerSees(limit: Option<nat>, st: State, items: seq<Item>)
    requires !Full(limit, st)
    ensures var (after, stopped) := Feed(limit, st, items);
            && (stopped <==> limit.Some? && |st.seen| + |items| >= limit.value)
            && (!stopped ==> after == State(st.idx + |items|, st.seen + Numbered(st.idx, items)))
            && (stopped ==> var n := limit.value - |st.seen|;
                            after == State(st.idx + n - 1, st.seen + Numbered(st.idx, items[..n])))
    decreases |items|
  {
    if items == [] {
      assert st.seen + Numbered(st.idx, items) == st.seen;
    } else {
      var n := |items| - 1;
      ConsumerSees(limit, st, items[..n]);
      assert Numbered(st.idx, items) == Numbered(st.idx, items[..n]) + [(st.idx + n, items[n])];
      if Feed(limit, st, items[..n]).1 {
        var m := limit.value - |st.seen|;
        assert items[..n][..m] == items[..m];
      } else {
        assert items[..n + 1] == items;
      }
    }
  }

  // ----- walking -----

  class Plucker {
    var idx: nat
    var seen: seq<(nat, Item)>
    const limit: Option<nat>

    constructor (limit: Option<nat>)
      ensures this.limit == limit && Now() == State(0, [])
    {
      this.limit, idx, seen := limit, 0, [];
    }

    function Now(): State
      reads this
    {
      State(idx, seen)
    }

    /** How a walk over `found` ends for this consumer. */
    function Ended(st: State, found: Found): End {
      if Feed(limit, st, found.items).1 then Stopped else found.end
    }

    /** Hand an item over; false when the consumer has had enough. */
    method Yield(item: Item) returns (more: bool)
      requires !Full(limit, Now())
      modifies this
      ensures Now() == State(old(idx), old(seen) + [(old(idx), item)]) && (more <==> !Full(limit, Now()))
    {
      seen := seen + [(idx, item)];
      more := limit.None? || |seen| < limit.value;
    }

    method WalkFieldValues(obj: Obj, chain: seq<string>, depth: nat) returns (e: End)
      requires depth < |chain| && !Full(limit, Now())
      modifies this
      ensures Now() == Feed(limit, old(Now()), Walk(obj, chain[depth..]).items).0
      ensures e == Ended(old(Now()), Walk(obj, chain[depth..]))
      ensures e != Stopped ==> !Full(limit, Now())
      decreases |chain| - depth, 1, 0
    {
      var name := chain[depth];
      if name !in obj.fields {
        return Failed;
      }
      var value := obj.fields[name];
      if depth == |chain| - 1 {
        OneItem(limit, Now(), Item(obj.id, name, value));
        var more := Yield(Item(obj.id, name, value));
        if !more {
          return Stopped;
        }
        idx := idx + 1;
        return Done;
      }
      if Blocked(value) != Done {
        return Blocked(value);
      }
      assert chain[depth..][1..] == chain[depth + 1..];
      e := WalkEach(Targets(value), chain, depth + 1);
    }

    /** The objects of a relation in turn; nil below them is skipped. */
    method WalkEach(objs: seq<Obj>, chain: seq<string>, depth: nat) returns (e: End)
      requires depth < |chain| && !Full(limit, Now())
      modifies this
      ensures Now() == Feed(limit, old(Now()), WalkAll(objs, chain[depth..]).items).0
      ensures e == Ended(old(Now()), WalkAll(objs, chain[depth..]))
      ensures e != Stopped ==> !Full(limit, Now())
      decreases |chain| - depth, 2, |objs|
    {
      ghost var start := Now();
      for k := 0 to |objs|
        invariant !Full(limit, Now())
        invariant WalkAll(objs[..k], chain[depth..]).end == Done
        invariant (Now(), false) == Feed(limit, start, WalkAll(objs[..k], chain[depth..]).items)
      {
        assert objs[..k + 1][..k] == objs[..k];
        FeedThen(limit, start, WalkAll(objs[..k], chain[depth..]).items, Walk(objs[k], chain[depth..]).items);
        var ended := WalkFieldValues(objs[k], chain, depth);
        if ended != Done && ended != NilPointer {
          StopsThere(objs, k + 1, chain[depth..], limit, start, ended);
          return ended;
        }
      }
      assert objs[..|objs|] == objs;
      return Done;
    }

    /** Walk every row. The index is shared by all iterations; a nil at the root of a row is an
        error. */
    method Iterate(rows: seq<Obj>, chain: seq<string>) returns (e: End)
      requires chain != [] && !Full(limit, Now())
      modifies this
      ensures Now() == Feed(limit, old(Now()), WalkRows(rows, chain).items).0
      ensures e == Ended(old(Now()), WalkRows(rows, chain))
    {
      ghost var start := Now();
      assert chain[0..] == chain;
      for k := 0 to |rows|
        invariant !Full(limit, Now())
        invariant WalkRows(rows[..k], chain).end == Done
        invariant (Now(), false) == Feed(limit, start, WalkRows(rows[..k], chain).items)
      {
        assert rows[..k + 1][..k] == rows[..k];
        FeedThen(limit, start, WalkRows(rows[..k], chain).items, Walk(rows[k], chain).items);
        WalkEnds(rows[k], chain);
        var ended := WalkFieldValues(rows[k], chain, 0);
        if ended != Done {
          RowStops(rows, k + 1, chain, limit, start, if ended == Stopped then Stopped else Failed);
          return if ended == Stopped then Stopped else Failed;
        }
      }
      assert rows[..|rows|] == rows;
      return Done;
    }
  }

  /** All rows, up to the first that does not end well. */
  function WalkRows(rows: seq<Obj>, chain: seq<string>): Found
    requires chain != []
    decreases |rows|
  {
    if rows == [] then Found([], Done)
    else
      var n := |rows| - 1;
      var before := WalkRows(rows[..n], chain);
      if before.end != Done then before
      else
        var last := Walk(rows[n], chain);
        Found(before.items + last.items, if last.end == Done then Done else Failed)
  }

  lemma {:induction false} RowStops(rows: seq<Obj>, k: nat, chain: seq<string>, limit: Option<nat>, st: State, e: End)
    requires chain != [] && k <= |rows| && (e == Failed || e == Stopped)
    requires var found := WalkRows(rows[..k], chain); (if Feed(limit, st, found.items).1 then Stopped else found.end) == e
    ensures var found := WalkRows(rows, chain);
            && (if Feed(limit, st, found.items).1 then Stopped else found.end) == e
            && Feed(limit, st, found.items) == Feed(limit, st, WalkRows(rows[..k], chain).items)
    decreases |rows|
  {
    var n := |rows| - 1;
    if k <= n {
      assert rows[..n][..k] == rows[..k];
      RowStops(rows[..n], k, chain, limit, st, e);
      if WalkRows(rows[..n], chain).end == Done {
        FeedThen(limit, st, WalkRows(rows[..n], chain).items, Walk(rows[n], chain).items);
      }
    } else {
      assert rows[..k] == rows;
    }
  }

  // ----- plucking -----

  /** The path's first relation is unset, or a nil over a table between. */
  predicate NilAtRoot(row: Obj, chain: seq<string>)
    requires chain != []
  {
    |chain| > 1 && chain[0] in row.fields && Blocked(row.fields[chain[0]]) == NilPointer
  }

  lemma {:induction false} NilOnlyAtRoot(row: Obj, chain: seq<string>)
    requires chain != []
    ensures Walk(row, chain).end == NilPointer <==> NilAtRoot(row, chain)
  {
    if chain[0] in row.fields && |chain| > 1 && Blocked(row.fields[chain[0]]) == Done {
      WalkAllEnds(Targets(row.fields[chain[0]]), chain[1..]);
    }
  }

  predicate NoNilAtRoot(rows: seq<Obj>, chain: seq<string>)
    requires chain != []
  {
    forall i :: 0 <= i < |rows| ==> !NilAtRoot(rows[i], chain)
  }

  lemma {:induction false} NoNilLast(rows: seq<Obj>, n: nat, chain: seq<string>)
    requires chain != [] && |rows| == n + 1
    ensures NoNilAtRoot(rows, chain) <==> NoNilAtRoot(rows[..n], chain) && !NilAtRoot(rows[n], chain)
  {
    assert rows == rows[..n] + [rows[n]];
  }

  /** Plucking goes through exactly when no walk fails and no row has a nil at its root; nil
      further down is skipped. */
  lemma {:induction false} PluckGoesThrough(rows: seq<Obj>, chain: seq<string>)
    requires chain != []
    ensures WalkRows(rows, chain).end == Done <==> WalkAll(rows, chain).end == Done && NoNilAtRoot(rows, chain)
    ensures WalkRows(rows, chain).end == Done ==> WalkRows(rows, chain) == WalkAll(rows, chain)
    decreases |rows|
  {
    if rows != [] {
      var n := |rows| - 1;
      PluckGoesThrough(rows[..n], chain);
      NoNilLast(rows, n, chain);
      NilOnlyAtRoot(rows[n], chain);
      WalkEnds(rows[n], chain);
      WalkAllEnds(rows[..n], chain);
    }
  }

  /** A pluck that fails for a nil at its root, and the same nil skipped further
      down. */
  lemma {:induction false} NilStopsPlucking()
    ensures var row := Obj(1, map["between" := OneThrough(None)]);
            var above := Obj(2, map["up" := One(Some(row))]);
            && WalkAll([row], ["between", "name"]) == Found([], Done)
            && WalkRows([row], ["between", "name"]) == Found([], Failed)
            && WalkRows([above], ["up", "between", "name"]) == Found([], Done)
  {
    var row := Obj(1, map["between" := OneThrough(None)]);
    var above := Obj(2, map["up" := One(Some(row))]);
    var short, long := ["between", "name"], ["up", "between", "name"];
    var none: seq<Obj> := [];
    assert long[1..] == short;
    assert [row][..0] == none && [above][..0] == none;
    assert Walk(row, short) == Found([], NilPointer);
    assert WalkAll([row], short) == Found([], Done);
    assert Targets(above.fields["up"]) == [row];
    assert Walk(above, long) == Found([], Done);
  }

  /** A path over rows yields every route's end once, depth first, with consecutive indexes from
      zero, or the first ones the consumer wanted. */
  method PluckRows(rows: seq<Obj>, chain: seq<string>, limit: Option<nat>) returns (e: End, seen: seq<(nat, Item)>, ghost routes: seq<Route>)
    requires chain != [] && limit != Some(0)
    ensures var items := WalkRows(rows, chain).items;
            seen == Numbered(0, if limit.Some? && limit.value <= |items| then items[..limit.value] else items)
    ensures e == Stopped <==> limit.Some? && limit.value <= |WalkRows(rows, chain).items|
    ensures e == Done ==> Exactly(rows, chain, WalkRows(rows, chain).items, routes)
    ensures e == Failed ==> WalkAll(rows, chain).end == Failed || !NoNilAtRoot(rows, chain)
  {
    var p := new Plucker(limit);
    e := p.Iterate(rows, chain);
    seen := p.seen;
    routes := [];
    ConsumerSees(limit, State(0, []), WalkRows(rows, chain).items);
    PluckGoesThrough(rows, chain);
    WalkAllEnds(rows, chain);
    RowsEnd(rows, chain);
    if e == Done {
      routes := WalkAllFindsRoutes(rows, chain);
    }
  }

  lemma {:induction false} RowsEnd(rows: seq<Obj>, chain: seq<string>)
    requires chain != []
    ensures WalkRows(rows, chain).end == Done || WalkRows(rows, chain).end == Failed
    decreases |rows|
  {
    if rows != [] {
      RowsEnd(rows[..|rows| - 1], chain);
    }
  }

  /** Iterating the same sequence again goes on counting where the first iteration ended. */
  method PluckAgain(rows: seq<Obj>, chain: seq<string>) returns (first: seq<(nat, Item)>, both: seq<(nat, Item)>)
    requires chain != [] && WalkRows(rows, chain).end == Done
    ensures var items := WalkRows(rows, chain).items;
            first == Numbered(0, items) && both == first + Numbered(|items|, items)
  {
    var p := new Plucker(None);
    var e := p.Iterate(rows, chain);
    ConsumerSees(None, State(0, []), WalkRows(rows, chain).items);
    first := p.seen;
    ghost var mid := p.Now();
    e := p.Iterate(rows, chain);
    ConsumerSees(None, mid, WalkRows(rows, chain).items);
    both := p.seen;
  }

  lemma {:induction false} OneItem(limit: Option<nat>, st: State, item: Item)
    ensures var after := State(st.idx, st.seen + [(st.idx, item)]);
            Feed(limit, st, [item]) == if Full(limit, after) then (after, true) else (State(st.idx + 1, after.seen), false)
  {
    assert [item][..0] == [];
  }

  /** Once a walk failed or the consumer stopped, the objects that follow do not matter. */
  lemma {:induction false} StopsThere(objs: seq<Obj>, k: nat, chain: seq<string>, limit: Option<nat>, st: State, e: End)
    requires chain != [] && k <= |objs| && (e == Failed || e == Stopped)
    requires var found := WalkAll(objs[..k], chain); (if Feed(limit, st, found.items).1 then Stopped else found.end) == e
    ensures var found := WalkAll(objs, chain);
            && (if Feed(limit, st, found.items).1 then Stopped else found.end) == e
            && Feed(limit, st, found.items) == Feed(limit, st, WalkAll(objs[..k], chain).items)
    decreases |objs|
  {
    var n := |objs| - 1;
    if k <= n {
      assert objs[..n][..k] == objs[..k];
      StopsThere(objs[..n], k, chain, limit, st, e);
      if WalkAll(objs[..n], chain).end == Done {
        FeedThen(limit, st, WalkAll(objs[..n], chain).items, Walk(objs[n], chain).items);
      }
    } else {
      assert objs[..k] == objs;
    }
  }
}
