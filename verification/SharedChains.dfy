/** The chains of proxies as the slices they are: a proxy's chain is appended to that of its model,
    in the same array as long as there is room. */
module SharedChains {
  import opened JoinPlanner
  import JoinPlans

  /** The first names of an array. */
  datatype Slice = Slice(data: array<string>, len: nat)

  predicate Valid(s: Slice) {
    s.len <= s.data.Length
  }

  predicate HasRoom(s: Slice) {
    s.len < s.data.Length
  }

  function Names(s: Slice): seq<string>
    requires Valid(s)
    reads s.data
  {
    s.data[..s.len]
  }

  /** The capacity after one more name is appended: an array that is full is replaced by one of
      twice its size. */
  function Capacity(len: nat, cap: nat): nat {
    if len < cap then cap else if cap == 0 then 1 else 2 * cap
  }

  method Append(s: Slice, name: string) returns (t: Slice)
    requires Valid(s)
    modifies s.data
    ensures Valid(t) && t.len == s.len + 1 && t.data.Length == Capacity(s.len, s.data.Length)
    ensures Names(t) == old(Names(s)) + [name] && Names(s) == old(Names(s))
    ensures if HasRoom(s) then t.data == s.data else fresh(t.data) && s.data[..] == old(s.data[..])
  {
    if HasRoom(s) {
      s.data[s.len] := name;
      t := Slice(s.data, s.len + 1);
    } else {
      var data := new string[Capacity(s.len, s.data.Length)](i requires 0 <= i reads s.data => if i < s.data.Length then s.data[i] else "");
      data[s.len] := name;
      t := Slice(data, s.len + 1);
    }
  }

  // ----- which chains come out right -----

  predicate NameAmong(name: string, ps: Proxies) {
    ps.Proxy? && (ps.name == name || NameAmong(name, ps.rest))
  }

  /** The proxies of one model have names of their own. */
  predicate NamesDiffer(ps: Proxies) {
    ps.Proxy? ==> !NameAmong(ps.name, ps.rest) && NamesDiffer(ps.below) && NamesDiffer(ps.rest)
  }

  function LastName(ps: Proxies): string
    requires ps.Proxy?
  {
    if ps.rest.Proxy? then LastName(ps.rest) else ps.name
  }

  /** Some model has two proxies or more while its own chain has room. */
  predicate Crowded(ps: Proxies, len: nat, cap: nat) {
    ps.Proxy? && ((len < cap && ps.rest.Proxy?) || Crowded(ps.below, len + 1, Capacity(len, cap)) || Crowded(ps.rest, len, cap))
  }

  /** Slices that show the chains they were made for. */
  ghost predicate Right(chains: seq<Slice>, os: seq<JoinPlans.Origin>)
    requires forall i :: 0 <= i < |chains| ==> Valid(chains[i])
    reads set i | 0 <= i < |chains| :: chains[i].data
  {
    |chains| == |os| && forall i :: 0 <= i < |chains| ==> Names(chains[i]) == os[i].path
  }

  lemma {:induction false} RightThen(a: seq<Slice>, os: seq<JoinPlans.Origin>, b: seq<Slice>, more: seq<JoinPlans.Origin>)
    requires forall i :: 0 <= i < |a| ==> Valid(a[i])
    requires forall i :: 0 <= i < |b| ==> Valid(b[i])
    requires |a| == |os|
    ensures Right(a + b, os + more) <==> Right(a, os) && Right(b, more)
  {
    var both, all := a + b, os + more;
    if Right(both, all) {
      forall i | 0 <= i < |a| ensures Names(a[i]) == os[i].path {
        assert both[i] == a[i] && all[i] == os[i];
      }
      forall i | 0 <= i < |b| ensures Names(b[i]) == more[i].path {
        assert both[|a| + i] == b[i] && all[|a| + i] == more[i];
      }
    }
  }

  lemma RightNothing()
    ensures Right([], [])
  {
  }

  lemma RightFirst(chains: seq<Slice>, os: seq<JoinPlans.Origin>)
    requires forall i :: 0 <= i < |chains| ==> Valid(chains[i])
    requires chains != [] && os != []
    ensures Right(chains, os) ==> Names(chains[0]) == os[0].path
  {
  }

  lemma {:induction false} NextSibling(cur: Proxies, len: nat, cap: nat, chain: seq<string>, first: Proxies)
    requires cur.Proxy? && NamesDiffer(cur)
    ensures ProxyOrigins(cur, chain) == OneProxy(cur, chain) + ProxyOrigins(cur.rest, chain)
    ensures OneProxy(cur, chain) != [] && OneProxy(cur, chain)[0].path == chain + [cur.name]
    ensures Crowded(cur, len, cap) <==>
              (len < cap && cur.rest.Proxy?) || Crowded(cur.below, len + 1, Capacity(len, cap)) || Crowded(cur.rest, len, cap)
    ensures NamesDiffer(cur.rest) && !NameAmong(cur.name, cur.rest)
    ensures LastName(cur) == if cur.rest.Proxy? then LastName(cur.rest) else cur.name
    ensures first.Proxy? && !NameAmong(first.name, cur) ==> cur.name != first.name && !NameAmong(first.name, cur.rest)
  {
  }

  lemma {:induction false} NoMore(cur: Proxies, len: nat, cap: nat, chain: seq<string>)
    requires cur.NoProxies?
    ensures ProxyOrigins(cur, chain) == [] && !Crowded(cur, len, cap)
  {
  }

  // ----- appending proxies -----

  /** The chain of one proxy and, after it, those of the proxies below it. */
  method AddProxy(p: Proxies, s: Slice) returns (chains: seq<Slice>)
    requires p.Proxy? && Valid(s) && NamesDiffer(p)
    modifies s.data
    ensures Names(s) == old(Names(s)) && (!HasRoom(s) ==> s.data[..] == old(s.data[..]))
    ensures |chains| == |OneProxy(p, old(Names(s)))|
    ensures forall i :: 0 <= i < |chains| ==> Valid(chains[i]) && (fresh(chains[i].data) || (HasRoom(s) && chains[i].data == s.data))
    ensures Right(chains, OneProxy(p, old(Names(s)))) <==> !Crowded(p.below, s.len + 1, Capacity(s.len, s.data.Length))
    ensures chains[0].len == s.len + 1 && Names(chains[0]) == old(Names(s)) + [p.name]
    ensures HasRoom(s) ==> chains[0].data == s.data
    decreases p, 0
  {
    var t := Append(s, p.name);
    ghost var os := ProxyOrigins(p.below, Names(t));
    var below := AddSubProxies(p.below, t);
    chains := [t] + below;
    RightThen([t], [OneProxy(p, old(Names(s)))[0]], below, os);
    assert [OneProxy(p, old(Names(s)))[0]] + os == OneProxy(p, old(Names(s)));
  }

  /** The chains of all proxies of a model are right exactly when none of the models they belong to
      is crowded; where the model itself has room, its first proxy ends up with the name of its last. */
  method AddSubProxies(ps: Proxies, s: Slice) returns (chains: seq<Slice>)
    requires Valid(s) && NamesDiffer(ps)
    modifies s.data
    ensures Names(s) == old(Names(s)) && (!HasRoom(s) ==> s.data[..] == old(s.data[..]))
    ensures |chains| == |ProxyOrigins(ps, old(Names(s)))|
    ensures forall i :: 0 <= i < |chains| ==> Valid(chains[i]) && (fresh(chains[i].data) || (HasRoom(s) && chains[i].data == s.data))
    ensures Right(chains, ProxyOrigins(ps, old(Names(s)))) <==> !Crowded(ps, s.len, s.data.Length)
    ensures ps.Proxy? ==> chains != [] && Names(chains[0]) == old(Names(s)) + [if HasRoom(s) then LastName(ps) else ps.name]
    decreases ps
  {
    hide Right, Crowded, ProxyOrigins, OneProxy, NamesDiffer, NameAmong, LastName, Capacity;
    chains := [];
    var cur := ps;
    RightNothing();
    ghost var done: seq<JoinPlans.Origin>, n, names, last := [], 0, Names(s), "";
    while cur.Proxy?
      invariant Names(s) == names && (!HasRoom(s) ==> s.data[..] == old(s.data[..]))
      invariant |chains| == |done| && done + ProxyOrigins(cur, names) == ProxyOrigins(ps, names)
      invariant forall i :: 0 <= i < |chains| ==> Valid(chains[i]) && (fresh(chains[i].data) || (HasRoom(s) && chains[i].data == s.data))
      invariant NamesDiffer(cur) && (cur == ps || cur < ps)
      invariant n == 0 ==> cur == ps && chains == []
      invariant n > 0 ==> ps.Proxy? && !NameAmong(ps.name, cur) && chains != [] && chains[0].len == s.len + 1
      invariant n == 1 ==> cur == ps.rest
      invariant n > 1 ==> ps.rest.Proxy?
      invariant n > 0 ==> (last == ps.name <==> n == 1) && LastName(ps) == if cur.Proxy? then LastName(cur) else last
      invariant n > 0 ==> done[0].path == names + [ps.name]
      invariant n > 0 && HasRoom(s) ==> chains[0].data == s.data && s.data[s.len] == last
      invariant n > 0 && !HasRoom(s) ==> Names(chains[0]) == names + [ps.name]
      invariant n == 1 && HasRoom(s) ==> (Right(chains, done) <==> !Crowded(ps.below, s.len + 1, Capacity(s.len, s.data.Length)))
      invariant !HasRoom(s) ==> (Right(chains, done) && !Crowded(cur, s.len, s.data.Length) <==> !Crowded(ps, s.len, s.data.Length))
      decreases cur
    {
      label before:
      ghost var one := OneProxy(cur, names);
      var more := AddProxy(cur, s);
      assert !HasRoom(s) ==> Right(chains, done) == old@before(Right(chains, done));
      RightThen(chains, done, more, one);
      NextSibling(cur, s.len, s.data.Length, names, ps);
      assert more[0].len == s.len + 1 && Names(more[0])[s.len] == cur.name;
      assert n == 0 ==> chains + more == more && done + one == one && Right([], []);
      chains, done, n, last, cur := chains + more, done + one, n + 1, cur.name, cur.rest;
    }
    NoMore(cur, s.len, s.data.Length, names);
    assert done + [] == done;
    if n > 0 {
      RightFirst(chains, done);
      NextSibling(ps, s.len, s.data.Length, names, ps);
    }
  }

  // ----- a selected path -----

  /** The capacity of a list made with room for some names, once more have been appended. */
  function CapacityAt(made: nat, len: nat): (cap: nat)
    ensures len <= cap && made <= cap
  {
    if len <= made then made else Capacity(len - 1, CapacityAt(made, len - 1))
  }

  /** The chain of a selected path: a list made with room for all parts but the last, to which the
      last is appended when a star follows it. */
  method PathChain(parts: seq<string>, all: bool) returns (s: Slice)
    requires parts != []
    ensures Valid(s) && fresh(s.data)
    ensures Names(s) == if all then parts else parts[..|parts| - 1]
    ensures s.data.Length == CapacityAt(|parts| - 1, s.len)
  {
    var n := |parts| - 1;
    var data := new string[n](_ => "");
    s := Slice(data, 0);
    for i := 0 to n
      invariant Valid(s) && s.len == i && fresh(s.data) && s.data.Length == n && Names(s) == parts[..i]
    {
      s := Append(s, parts[i]);
    }
    if all {
      s := Append(s, parts[n]);
      assert parts == parts[..n] + [parts[n]];
    }
  }

  /** A length at which a list made with some room is full: that room, doubled any number of
      times; a list made with no room is full at one, too. */
  predicate Doubled(made: nat, len: nat)
    decreases len
  {
    len == made || (made == 0 && len == 1) || (made < len && len % 2 == 0 && Doubled(made, len / 2))
  }

  lemma {:induction false} DoubledApart(made: nat, a: nat, b: nat)
    requires Doubled(made, a) && Doubled(made, b) && a < b
    ensures 2 * a <= b
    decreases b
  {
    if a != made && !(made == 0 && a == 1) && !(made == 0 && b == 1) {
      DoubledApart(made, a / 2, b / 2);
    }
  }

  lemma {:induction false} CapacityDoubles(made: nat, len: nat)
    requires made <= len
    ensures var cap := CapacityAt(made, len); Doubled(made, cap) && (made < len ==> cap <= 2 * (len - 1) || cap == 1)
    decreases len
  {
    if made < len {
      CapacityDoubles(made, len - 1);
    }
  }

  lemma {:induction false} FullWhenDoubled(made: nat, len: nat)
    requires made <= len
    ensures CapacityAt(made, len) == len <==> Doubled(made, len)
  {
    CapacityDoubles(made, len);
    if Doubled(made, len) && len < CapacityAt(made, len) {
      DoubledApart(made, len, CapacityAt(made, len));
    }
  }

  /** Some model has two proxies or more at the end of a chain that is no doubling long. */
  predicate Branches(ps: Proxies, made: nat, len: nat) {
    ps.Proxy? && ((!Doubled(made, len) && ps.rest.Proxy?) || Branches(ps.below, made, len + 1) || Branches(ps.rest, made, len))
  }

  lemma {:induction false} CrowdedBranches(ps: Proxies, made: nat, len: nat)
    requires made <= len
    ensures Crowded(ps, len, CapacityAt(made, len)) <==> Branches(ps, made, len)
    decreases ps
  {
    if ps.Proxy? {
      FullWhenDoubled(made, len);
      CrowdedBranches(ps.below, made, len + 1);
      CrowdedBranches(ps.rest, made, len);
    }
  }

  method ReadAll(slices: seq<Slice>) returns (chains: seq<seq<string>>)
    requires forall i :: 0 <= i < |slices| ==> Valid(slices[i])
    ensures |chains| == |slices| && forall i :: 0 <= i < |slices| ==> chains[i] == Names(slices[i])
  {
    chains := [];
    for n := 0 to |slices|
      invariant |chains| == n && forall i :: 0 <= i < n ==> chains[i] == Names(slices[i])
    {
      chains := chains + [Names(slices[n])];
    }
  }

  /** The chains of a selected relation and of the proxies of its model, as they are read when all
      of them were made. */
  method SelectChains(parts: seq<string>, all: bool, ps: Proxies) returns (own: seq<string>, chains: seq<seq<string>>)
    requires parts != [] && NamesDiffer(ps)
    ensures own == if all then parts else parts[..|parts| - 1]
    ensures |chains| == |ProxyOrigins(ps, own)|
    ensures (forall i :: 0 <= i < |chains| ==> chains[i] == ProxyOrigins(ps, own)[i].path)
              <==> !Branches(ps, |parts| - 1, |own|)
    ensures ps.Proxy? ==> chains != [] && chains[0] == own + [if all && |parts| > 2 then LastName(ps) else ps.name]
  {
    var s := PathChain(parts, all);
    own := Names(s);
    CrowdedBranches(ps, |parts| - 1, |own|);
    FullWhenDoubled(|parts| - 1, |own|);
    var slices := AddSubProxies(ps, s);
    chains := ReadAll(slices);
  }
}
