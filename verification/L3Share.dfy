/** Several kharej servers behind one Iran server: sorting a new tunnel's ports
    into those it keeps, those an existing tunnel will share with it, and those
    that clash; and rewriting the existing tunnels accordingly. */
module L3Share {
  import opened Text
  import opened PortMap

  datatype Tunnel = Tunnel(name: string, peer: string, ports: seq<string>)

  /** One spec of an existing tunnel; single is its mapping when it maps one port. */
  datatype Owner = Owner(tunnel: Tunnel, spec: string, single: Option<Mapping>)

  datatype Share = Share(tunnel: Tunnel, oldSpec: string, newSpec: string)

  function HostOnly(addr: string): string { Cut(TrimSpace(addr), '/').0 }

  /** An address with or without a mask, blanks around it or not, gives its host. */
  lemma HostOnlyMeans(host: string, mask: string)
    requires '/' !in host && Trimmed(host)
    ensures HostOnly(host) == host && HostOnly(" " + host) == host
    ensures Trimmed(mask) && host != "" && mask != "" ==> HostOnly(host + "/" + mask) == host
  {
    TrimSpaceShape(host);
    NotCut(host, '/');
    assert (" " + host)[1..] == host;
    var s := host + "/" + mask;
    if Trimmed(mask) && host != "" && mask != "" {
      assert s[0] == host[0] && s[|s| - 1] == mask[|mask| - 1];
      TrimSpaceShape(s);
      CutJoined(host, '/', mask);
      assert s == host + ['/'] + mask;
    }
  }

  lemma NotCut(s: string, c: char)
    requires c !in s
    ensures Cut(s, c) == (s, "", false)
  {
  }

  // ---- who listens where ----

  function SpecOwners(t: Tunnel, spec: string): seq<(string, Owner)>
  {
    var ms := Expand(spec, HostOnly(t.peer));
    if ms.None? then []
    else
      var o := Owner(t, spec, if |ms.value| == 1 then Some(ms.value[0]) else None);
      seq(|ms.value|, i requires 0 <= i < |ms.value| => (ms.value[i].listen, o))
  }

  function PortOwners(t: Tunnel, ports: seq<string>): seq<(string, Owner)>
  {
    if ports == [] then [] else PortOwners(t, ports[..|ports| - 1]) + SpecOwners(t, ports[|ports| - 1])
  }

  function AllOwners(existing: seq<Tunnel>): seq<(string, Owner)>
  {
    if existing == [] then []
    else AllOwners(existing[..|existing| - 1]) + PortOwners(existing[|existing| - 1], existing[|existing| - 1].ports)
  }

  /** The owners of one address, in order. */
  function At(all: seq<(string, Owner)>, listen: string): seq<Owner>
  {
    if all == [] then []
    else At(all[..|all| - 1], listen) + if all[|all| - 1].0 == listen then [all[|all| - 1].1] else []
  }

  function OwnersOf(all: seq<(string, Owner)>, ms: seq<Mapping>): seq<Owner>
  {
    if ms == [] then [] else OwnersOf(all, ms[..|ms| - 1]) + At(all, ms[|ms| - 1].listen)
  }

  // ---- the plan, spec by spec ----

  datatype Fate = Kept | Clash | Shared(owner: Owner, mapping: Mapping)

  function FateOf(all: seq<(string, Owner)>, peer: string, spec: string): Fate
  {
    var ms := Expand(spec, peer);
    if ms.None? then Kept
    else
      var owners := OwnersOf(all, ms.value);
      if owners == [] then Kept
      else if |ms.value| != 1 || |owners| != 1 || owners[0].single.None? then Clash
      else Shared(owners[0], ms.value[0])
  }

  /** Backends added in order, none twice. */
  function AddMissing(targets: seq<string>, more: seq<string>): seq<string>
  {
    if more == [] then targets
    else
      var acc := AddMissing(targets, more[..|more| - 1]);
      var t := more[|more| - 1];
      if t in acc then acc else acc + [t]
  }

  datatype Plan = Plan(keep: seq<string>, shares: seq<Share>, clash: seq<string>, at: map<string, nat>)

  function Key(o: Owner): string { o.tunnel.name + "\U{0}" + o.spec }

  predicate Indexed(p: Plan) { forall k :: k in p.at ==> p.at[k] < |p.shares| }

  /** The share a spec's owner has, created from its own backends the first time. */
  function WithShare(p: Plan, o: Owner): (q: Plan)
    requires Indexed(p) && o.single.Some?
    ensures Indexed(q) && Key(o) in q.at
  {
    if Key(o) in p.at then p
    else p.(shares := p.shares + [Share(o.tunnel, o.spec, JoinSpec(o.spec, o.single.value.targets))],
            at := p.at[Key(o) := |p.shares|])
  }

  /** The shared spec with the new backends added to what its text lists now. */
  function Extend(share: Share, spec: string, more: seq<string>): Share
  {
    share.(newSpec := JoinSpec(spec, AddMissing(Split(Cut(share.newSpec, '=').1, '|'), more)))
  }

  function PlanOne(p: Plan, all: seq<(string, Owner)>, peer: string, spec: string): (q: Plan)
    requires Indexed(p)
    ensures Indexed(q)
  {
    match FateOf(all, peer, spec)
    case Kept => p.(keep := p.keep + [spec])
    case Clash => p.(clash := p.clash + [spec])
    case Shared(o, m) =>
      if o.single.None? then p
      else
        var q := WithShare(p, o);
        var i := q.at[Key(o)];
        q.(shares := q.shares[i := Extend(q.shares[i], o.spec, m.targets)])
  }

  function PlanAll(all: seq<(string, Owner)>, peer: string, specs: seq<string>): (p: Plan)
    ensures Indexed(p)
  {
    if specs == [] then Plan([], [], [], map[])
    else PlanOne(PlanAll(all, peer, specs[..|specs| - 1]), all, peer, specs[|specs| - 1])
  }

  // ---- where a spec belongs, from the existing mappings alone ----

  /** How many mappings listen on l. */
  function Listening(ms: seq<Mapping>, l: string): nat
  {
    if ms == [] then 0 else Listening(ms[..|ms| - 1], l) + if ms[|ms| - 1].listen == l then 1 else 0
  }

  /** How often a tunnel's specs take the address; of these, how often by a spec of one port. */
  function Taken(t: Tunnel, ports: seq<string>, l: string): nat
  {
    if ports == [] then 0
    else
      var ms := Expand(ports[|ports| - 1], HostOnly(t.peer));
      Taken(t, ports[..|ports| - 1], l) + if ms.Some? then Listening(ms.value, l) else 0
  }

  function TakenAlone(t: Tunnel, ports: seq<string>, l: string): nat
  {
    if ports == [] then 0
    else
      var ms := Expand(ports[|ports| - 1], HostOnly(t.peer));
      TakenAlone(t, ports[..|ports| - 1], l)
      + if ms.Some? && |ms.value| == 1 && ms.value[0].listen == l then 1 else 0
  }

  function TakenByAll(existing: seq<Tunnel>, l: string): nat
  {
    if existing == [] then 0
    else
      var last := existing[|existing| - 1];
      TakenByAll(existing[..|existing| - 1], l) + Taken(last, last.ports, l)
  }

  function TakenAloneByAll(existing: seq<Tunnel>, l: string): nat
  {
    if existing == [] then 0
    else
      var last := existing[|existing| - 1];
      TakenAloneByAll(existing[..|existing| - 1], l) + TakenAlone(last, last.ports, l)
  }

  /** It cannot be read, or none of its addresses is taken. */
  ghost predicate IsFree(existing: seq<Tunnel>, peer: string, spec: string)
  {
    var ms := Expand(spec, peer);
    ms.Some? ==> forall k :: 0 <= k < |ms.value| ==> TakenByAll(existing, ms.value[k].listen) == 0
  }

  /** It maps one port, and its address is taken once, by a spec of one port. */
  ghost predicate IsShareable(existing: seq<Tunnel>, peer: string, spec: string)
  {
    var ms := Expand(spec, peer);
    && ms.Some? && |ms.value| == 1
    && TakenByAll(existing, ms.value[0].listen) == 1 && TakenAloneByAll(existing, ms.value[0].listen) == 1
  }

  ghost predicate IsClash(existing: seq<Tunnel>, peer: string, spec: string)
  {
    !IsFree(existing, peer, spec) && !IsShareable(existing, peer, spec)
  }

  ghost function Filter(specs: seq<string>, p: string -> bool): seq<string>
  {
    if specs == [] then []
    else
      var last := specs[|specs| - 1];
      Filter(specs[..|specs| - 1], p) + if p(last) then [last] else []
  }

  lemma {:induction false} FilterNone(specs: seq<string>, p: string -> bool)
    ensures Filter(specs, p) == [] <==> forall n :: 0 <= n < |specs| ==> !p(specs[n])
  {
    if specs != [] {
      var front, last := specs[..|specs| - 1], specs[|specs| - 1];
      FilterNone(front, p);
      if Filter(specs, p) == [] {
        assert Filter(front, p) == [] && !p(last);
        forall n | 0 <= n < |specs| ensures !p(specs[n]) {
          if n < |front| { assert front[n] == specs[n]; }
        }
      } else if Filter(front, p) != [] {
        var n :| 0 <= n < |front| && p(front[n]);
        assert p(specs[n]);
      } else {
        assert p(specs[|specs| - 1]);
      }
    }
  }

  /** Of these owners, how many map one port. */
  function Alone(owners: seq<Owner>): nat
  {
    if owners == [] then 0
    else Alone(owners[..|owners| - 1]) + if owners[|owners| - 1].single.Some? then 1 else 0
  }

  lemma {:induction false} AloneJoins(a: seq<Owner>, b: seq<Owner>)
    ensures Alone(a + b) == Alone(a) + Alone(b)
    decreases |b|
  {
    if b == [] {
      assert a + b == a;
    } else {
      AloneJoins(a, b[..|b| - 1]);
      assert (a + b)[..|a + b| - 1] == a + b[..|b| - 1];
    }
  }

  lemma {:induction false} AtJoins(a: seq<(string, Owner)>, b: seq<(string, Owner)>, l: string)
    ensures At(a + b, l) == At(a, l) + At(b, l)
    decreases |b|
  {
    if b == [] {
      assert a + b == a;
    } else {
      AtJoins(a, b[..|b| - 1], l);
      assert (a + b)[..|a + b| - 1] == a + b[..|b| - 1];
    }
  }

  lemma {:induction false} AtOfMappings(ms: seq<Mapping>, o: Owner, l: string)
    ensures var all := seq(|ms|, i requires 0 <= i < |ms| => (ms[i].listen, o));
            |At(all, l)| == Listening(ms, l) && forall k :: 0 <= k < |At(all, l)| ==> At(all, l)[k] == o
  {
    if ms != [] {
      var front := ms[..|ms| - 1];
      AtOfMappings(front, o, l);
      var all := seq(|ms|, i requires 0 <= i < |ms| => (ms[i].listen, o));
      assert all[..|ms| - 1] == seq(|front|, i requires 0 <= i < |front| => (front[i].listen, o));
    }
  }

  lemma AtOfSpec(t: Tunnel, spec: string, l: string)
    ensures var owners := At(SpecOwners(t, spec), l); var ms := Expand(spec, HostOnly(t.peer));
      && |owners| == (if ms.Some? then Listening(ms.value, l) else 0)
      && Alone(owners) == if ms.Some? && |ms.value| == 1 && ms.value[0].listen == l then 1 else 0
  {
    hide Expand, HostOnly;
    var ms := Expand(spec, HostOnly(t.peer));
    if ms.Some? {
      var o := Owner(t, spec, if |ms.value| == 1 then Some(ms.value[0]) else None);
      AtOfMappings(ms.value, o, l);
      var owners := At(SpecOwners(t, spec), l);
      if |ms.value| == 1 {
        assert ms.value[..0] == [];
        assert Listening(ms.value, l) == Listening([], l) + if ms.value[0].listen == l then 1 else 0;
        if |owners| == 1 { assert owners == [o] && owners[..0] == []; }
      } else {
        NoneAlone(owners);
      }
    }
  }

  lemma {:induction false} NoneAlone(owners: seq<Owner>)
    requires forall k :: 0 <= k < |owners| ==> owners[k].single.None?
    ensures Alone(owners) == 0
  {
    if owners != [] { NoneAlone(owners[..|owners| - 1]); }
  }

  lemma {:induction false} AtOfPorts(t: Tunnel, ports: seq<string>, l: string)
    ensures |At(PortOwners(t, ports), l)| == Taken(t, ports, l)
    ensures Alone(At(PortOwners(t, ports), l)) == TakenAlone(t, ports, l)
  {
    hide Expand, HostOnly, SpecOwners, At, Alone;
    if ports == [] {
      AtNothing(l);
    } else {
      var front, last := ports[..|ports| - 1], ports[|ports| - 1];
      AtOfPorts(t, front, l);
      AtOfSpec(t, last, l);
      AtJoins(PortOwners(t, front), SpecOwners(t, last), l);
      AloneJoins(At(PortOwners(t, front), l), At(SpecOwners(t, last), l));
    }
  }

  lemma AtNothing(l: string)
    ensures At([], l) == [] && Alone([]) == 0
  {
  }

  /** The map of listeners counts what the existing specs take. */
  lemma {:induction false} AtCounts(existing: seq<Tunnel>, l: string)
    ensures |At(AllOwners(existing), l)| == TakenByAll(existing, l)
    ensures Alone(At(AllOwners(existing), l)) == TakenAloneByAll(existing, l)
  {
    hide Taken, TakenAlone, PortOwners, At, Alone;
    if existing == [] {
      AtNothing(l);
    } else {
      var front, last := existing[..|existing| - 1], existing[|existing| - 1];
      AtCounts(front, l);
      AtOfPorts(last, last.ports, l);
      AtJoins(AllOwners(front), PortOwners(last, last.ports), l);
      AloneJoins(At(AllOwners(front), l), At(PortOwners(last, last.ports), l));
    }
  }

  lemma {:induction false} NoOwnersIff(all: seq<(string, Owner)>, ms: seq<Mapping>)
    ensures OwnersOf(all, ms) == [] <==> forall k :: 0 <= k < |ms| ==> At(all, ms[k].listen) == []
  {
    hide At;
    if ms != [] {
      var front, last := ms[..|ms| - 1], ms[|ms| - 1];
      NoOwnersIff(all, front);
      assert OwnersOf(all, ms) == OwnersOf(all, front) + At(all, last.listen);
      assert forall k :: 0 <= k < |front| ==> ms[k] == front[k];
    }
  }

  /** A spec is kept, or clashes, exactly when it is free, or cannot be shared. */
  lemma FateMeans(existing: seq<Tunnel>, peer: string, spec: string)
    ensures FateOf(AllOwners(existing), peer, spec).Kept? <==> IsFree(existing, peer, spec)
    ensures FateOf(AllOwners(existing), peer, spec).Clash? <==> IsClash(existing, peer, spec)
  {
    hide Expand, AllOwners, At, OwnersOf, TakenByAll, TakenAloneByAll, Alone;
    var ms := Expand(spec, peer);
    if ms.Some? {
      var all := AllOwners(existing);
      NoOwnersIff(all, ms.value);
      forall k | 0 <= k < |ms.value|
        ensures At(all, ms.value[k].listen) == [] <==> TakenByAll(existing, ms.value[k].listen) == 0
      {
        AtCounts(existing, ms.value[k].listen);
      }
      if |ms.value| == 1 {
        assert ms.value == [ms.value[0]];
        OwnersOfOne(all, ms.value[0]);
        AtCounts(existing, ms.value[0].listen);
        if |OwnersOf(all, ms.value)| == 1 { AloneOfOne(OwnersOf(all, ms.value)); }
      }
    }
  }

  lemma AloneOfOne(owners: seq<Owner>)
    requires |owners| == 1
    ensures Alone(owners) == if owners[0].single.Some? then 1 else 0
  {
    assert owners[..0] == [];
  }

  lemma {:induction false} SelectIsFilter(all: seq<(string, Owner)>, peer: string, specs: seq<string>, kept: bool,
                                          p: string -> bool)
    requires forall s :: p(s) <==> if kept then FateOf(all, peer, s).Kept? else FateOf(all, peer, s).Clash?
    ensures Select(all, peer, specs, kept) == Filter(specs, p)
  {
    hide FateOf;
    if specs != [] { SelectIsFilter(all, peer, specs[..|specs| - 1], kept, p); }
  }

  lemma PlanPlaces(specs: seq<string>, peer: string, existing: seq<Tunnel>)
    ensures PlanAll(AllOwners(existing), peer, specs).keep == Filter(specs, s => IsFree(existing, peer, s))
    ensures PlanAll(AllOwners(existing), peer, specs).clash == Filter(specs, s => IsClash(existing, peer, s))
  {
    hide FateOf, AllOwners, IsFree, IsClash, PlanAll;
    var all := AllOwners(existing);
    forall s
      ensures FateOf(all, peer, s).Kept? <==> IsFree(existing, peer, s)
      ensures FateOf(all, peer, s).Clash? <==> IsClash(existing, peer, s)
    {
      FateMeans(existing, peer, s);
    }
    PlanSorts(all, peer, specs);
    SelectIsFilter(all, peer, specs, true, s => IsFree(existing, peer, s));
    SelectIsFilter(all, peer, specs, false, s => IsClash(existing, peer, s));
  }

  // ---- the loops ----

  function Lookup(listens: map<string, seq<Owner>>, listen: string): seq<Owner>
  {
    if listen in listens then listens[listen] else []
  }

  /** The map holds exactly the owners listed so far. */
  ghost predicate Holds(listens: map<string, seq<Owner>>, all: seq<(string, Owner)>)
  {
    forall l :: Lookup(listens, l) == At(all, l)
  }

  lemma HoldsNext(listens: map<string, seq<Owner>>, all: seq<(string, Owner)>, l: string, o: Owner)
    requires Holds(listens, all)
    ensures Holds(listens[l := Lookup(listens, l) + [o]], all + [(l, o)])
  {
    var next := all + [(l, o)];
    assert next[..|next| - 1] == all;
    forall x ensures Lookup(listens[l := Lookup(listens, l) + [o]], x) == At(next, x) {
      assert Lookup(listens, x) == At(all, x);
    }
  }

  method Collect(existing: seq<Tunnel>) returns (listens: map<string, seq<Owner>>)
    ensures Holds(listens, AllOwners(existing))
  {
    hide PortOwners, Holds;
    listens := map[];
    assert Holds(listens, AllOwners(existing[..0])) by { HoldsNothing(); }
    for i := 0 to |existing|
      invariant Holds(listens, AllOwners(existing[..i]))
    {
      assert existing[..i + 1][..i] == existing[..i];
      listens := CollectTunnel(listens, AllOwners(existing[..i]), existing[i]);
    }
    assert existing[..|existing|] == existing;
  }

  lemma HoldsNothing()
    ensures Holds(map[], [])
  {
  }

  method CollectTunnel(start: map<string, seq<Owner>>, ghost base: seq<(string, Owner)>, e: Tunnel)
    returns (listens: map<string, seq<Owner>>)
    requires Holds(start, base)
    ensures Holds(listens, base + PortOwners(e, e.ports))
  {
    hide SpecOwners, Holds;
    listens := start;
    assert base + PortOwners(e, e.ports[..0]) == base;
    for j := 0 to |e.ports|
      invariant Holds(listens, base + PortOwners(e, e.ports[..j]))
    {
      ghost var now := base + PortOwners(e, e.ports[..j]);
      assert e.ports[..j + 1][..j] == e.ports[..j];
      listens := CollectSpec(listens, now, e, e.ports[j]);
      assert now + SpecOwners(e, e.ports[j]) == base + PortOwners(e, e.ports[..j + 1]);
    }
    assert e.ports[..|e.ports|] == e.ports;
  }

  method CollectSpec(start: map<string, seq<Owner>>, ghost base: seq<(string, Owner)>, e: Tunnel, spec: string)
    returns (listens: map<string, seq<Owner>>)
    requires Holds(start, base)
    ensures Holds(listens, base + SpecOwners(e, spec))
  {
    hide Expand, Holds, HostOnly;
    listens := start;
    var ms := Expand(spec, HostOnly(e.peer));
    if ms.None? {
      assert base + SpecOwners(e, spec) == base;
      return;
    }
    var o := Owner(e, spec, if |ms.value| == 1 then Some(ms.value[0]) else None);
    ghost var added := SpecOwners(e, spec);
    assert base + added[..0] == base;
    for k := 0 to |ms.value|
      invariant Holds(listens, base + added[..k])
    {
      var l := ms.value[k].listen;
      HoldsNext(listens, base + added[..k], l, o);
      assert base + added[..k + 1] == base + added[..k] + [(l, o)];
      listens := listens[l := Lookup(listens, l) + [o]];
    }
    assert added[..|ms.value|] == added;
  }

  method OwnersFor(listens: map<string, seq<Owner>>, ghost all: seq<(string, Owner)>, ms: seq<Mapping>)
    returns (owners: seq<Owner>)
    requires Holds(listens, all)
    ensures owners == OwnersOf(all, ms)
  {
    hide At;
    owners := [];
    for k := 0 to |ms|
      invariant owners == OwnersOf(all, ms[..k])
    {
      assert ms[..k + 1][..k] == ms[..k];
      assert Lookup(listens, ms[k].listen) == At(all, ms[k].listen);
      owners := owners + Lookup(listens, ms[k].listen);
    }
    assert ms[..|ms|] == ms;
  }

  /** planL3Sharing. */
  method PlanSharing(specs: seq<string>, newPeer: string, existing: seq<Tunnel>)
    returns (keep: seq<string>, shares: seq<Share>, clash: seq<string>)
    ensures var p := PlanAll(AllOwners(existing), HostOnly(newPeer), specs);
            keep == p.keep && shares == p.shares && clash == p.clash
    ensures keep == Filter(specs, s => IsFree(existing, HostOnly(newPeer), s))
    ensures clash == Filter(specs, s => IsClash(existing, HostOnly(newPeer), s))
  {
    hide Expand, HostOnly, AllOwners, OwnersOf, JoinSpec, Split, Cut, Key, Holds, AddMissing, IsFree, IsClash, Filter;
    PlanPlaces(specs, HostOnly(newPeer), existing);
    var peer := HostOnly(newPeer);
    var listens := Collect(existing);
    ghost var all := AllOwners(existing);
    keep, shares, clash := [], [], [];
    var at: map<string, nat> := map[];
    for n := 0 to |specs|
      invariant Plan(keep, shares, clash, at) == PlanAll(all, peer, specs[..n])
    {
      var spec := specs[n];
      assert specs[..n + 1][..n] == specs[..n];
      var ms := Expand(spec, peer);
      if ms.None? {
        keep := keep + [spec];
        continue;
      }
      var owners := OwnersFor(listens, all, ms.value);
      if |owners| == 0 {
        keep := keep + [spec];
        continue;
      }
      if |ms.value| != 1 || |owners| != 1 || owners[0].single.None? {
        clash := clash + [spec];
        continue;
      }
      var o := owners[0];
      if Key(o) !in at {
        at := at[Key(o) := |shares|];
        shares := shares + [Share(o.tunnel, o.spec, JoinSpec(o.spec, o.single.value.targets))];
      }
      var i := at[Key(o)];
      var targets := Split(Cut(shares[i].newSpec, '=').1, '|');
      targets := AddAll(targets, ms.value[0].targets);
      shares := shares[i := shares[i].(newSpec := JoinSpec(o.spec, targets))];
    }
    assert specs[..|specs|] == specs;
  }

  method AddAll(targets: seq<string>, more: seq<string>) returns (r: seq<string>)
    ensures r == AddMissing(targets, more)
  {
    r := targets;
    for k := 0 to |more|
      invariant r == AddMissing(targets, more[..k])
    {
      assert more[..k + 1][..k] == more[..k];
      if more[k] !in r {
        r := r + [more[k]];
      }
    }
    assert more[..|more|] == more;
  }

  // ---- what the planner may rely on ----

  ghost predicate DistinctListens(all: seq<(string, Owner)>)
  {
    forall a, b :: 0 <= a < b < |all| ==> all[a].0 != all[b].0
  }

  ghost predicate PlainTargets(targets: seq<string>)
  {
    |targets| >= 1 && forall k :: 0 <= k < |targets| ==> PlainTarget(targets[k])
  }

  /** An owner listed under an address really maps that address. */
  ghost predicate OwnerOk(l: string, o: Owner)
  {
    o.single.Some? ==>
      && o.single.value.listen == l
      && Expand(o.spec, HostOnly(o.tunnel.peer)) == Some([o.single.value])
      && PlainTargets(o.single.value.targets)
  }

  /** No two owners share a key unless they are the same spec of the same tunnel. */
  ghost predicate KeysTell(all: seq<(string, Owner)>)
  {
    forall a, b :: 0 <= a < |all| && 0 <= b < |all| && Key(all[a].1) == Key(all[b].1) ==> all[a].1 == all[b].1
  }

  ghost predicate Sound(all: seq<(string, Owner)>)
  {
    DistinctListens(all) && KeysTell(all) && forall a :: 0 <= a < |all| ==> OwnerOk(all[a].0, all[a].1)
  }

  lemma {:induction false} AtListed(all: seq<(string, Owner)>, l: string)
    requires DistinctListens(all)
    ensures forall a :: 0 <= a < |all| && all[a].0 == l ==> At(all, l) == [all[a].1]
    ensures (forall a :: 0 <= a < |all| ==> all[a].0 != l) ==> At(all, l) == []
    ensures |At(all, l)| <= 1
    ensures At(all, l) != [] ==> exists a :: 0 <= a < |all| && all[a].0 == l && At(all, l) == [all[a].1]
  {
    if all != [] {
      var front := all[..|all| - 1];
      AtListed(front, l);
      if all[|all| - 1].0 == l {
        assert forall a :: 0 <= a < |front| ==> front[a] == all[a] && front[a].0 != l;
      } else if At(front, l) != [] {
        var a :| 0 <= a < |front| && front[a].0 == l && At(front, l) == [front[a].1];
        assert all[a] == front[a];
      }
    }
  }

  lemma OwnersOfOne(all: seq<(string, Owner)>, m: Mapping)
    ensures OwnersOf(all, [m]) == At(all, m.listen)
  {
    hide At;
    assert [m][..0] == [];
    assert OwnersOf(all, [m][..0]) == [];
  }

  lemma SharedWhenOwned(all: seq<(string, Owner)>, peer: string, spec: string, m: Mapping, a: nat)
    requires Sound(all) && a < |all| && Expand(spec, peer) == Some([m]) && all[a].0 == m.listen && all[a].1.single.Some?
    ensures FateOf(all, peer, spec) == Shared(all[a].1, m)
  {
    hide Expand, OwnerOk, Key;
    OwnersOfOne(all, m);
    AtListed(all, m.listen);
  }

  lemma SharedHasOwner(all: seq<(string, Owner)>, peer: string, spec: string) returns (a: nat)
    requires Sound(all) && FateOf(all, peer, spec).Shared?
    ensures var f := FateOf(all, peer, spec);
            a < |all| && all[a] == (f.mapping.listen, f.owner) && f.owner.single.Some? &&
              Expand(spec, peer) == Some([f.mapping])
  {
    hide Expand, OwnerOk, Key;
    var f := FateOf(all, peer, spec);
    assert Expand(spec, peer).value == [f.mapping];
    OwnersOfOne(all, f.mapping);
    AtListed(all, f.mapping.listen);
    a :| 0 <= a < |all| && all[a].0 == f.mapping.listen && At(all, f.mapping.listen) == [all[a].1];
  }

  /** A spec is shared with a listed mapping if and only if both map one port and it
      is the same address. */
  lemma SharedIffOwned(all: seq<(string, Owner)>, peer: string, spec: string, m: Mapping, a: nat)
    requires Sound(all) && a < |all|
    ensures FateOf(all, peer, spec) == Shared(all[a].1, m)
       <==> Expand(spec, peer) == Some([m]) && all[a].0 == m.listen && all[a].1.single.Some?
  {
    hide Expand, FateOf, Key, DistinctListens;
    if FateOf(all, peer, spec) == Shared(all[a].1, m) {
      var b := SharedHasOwner(all, peer, spec);
      assert OwnerOk(all[a].0, all[a].1) && OwnerOk(all[b].0, all[b].1);
    }
    if Expand(spec, peer) == Some([m]) && all[a].0 == m.listen && all[a].1.single.Some? {
      SharedWhenOwned(all, peer, spec, m, a);
    }
  }

  // ---- adding backends ----

  lemma {:induction false} AddMissingShape(targets: seq<string>, more: seq<string>)
    ensures var r := AddMissing(targets, more);
            && targets <= r
            && (forall t :: t in r <==> t in targets || t in more)
            && (forall i, j :: |targets| <= i < |r| && 0 <= j < i ==> r[j] != r[i])
  {
    if more != [] {
      AddMissingShape(targets, more[..|more| - 1]);
      assert more == more[..|more| - 1] + [more[|more| - 1]];
    }
  }

  /** The backends of the address l once every new spec for it has been added. */
  function Merged(targets: seq<string>, peer: string, specs: seq<string>, l: string): seq<string>
  {
    if specs == [] then targets
    else
      var acc := Merged(targets, peer, specs[..|specs| - 1], l);
      var ms := Expand(specs[|specs| - 1], peer);
      if ms.Some? && |ms.value| == 1 && ms.value[0].listen == l then AddMissing(acc, ms.value[0].targets) else acc
  }

  /** The new backends for l, as the specs list them. */
  ghost predicate Offered(peer: string, specs: seq<string>, l: string, t: string)
  {
    exists n :: 0 <= n < |specs| && OffersAt(peer, specs[n], l, t)
  }

  ghost predicate OffersAt(peer: string, spec: string, l: string, t: string)
  {
    var ms := Expand(spec, peer);
    ms.Some? && |ms.value| == 1 && ms.value[0].listen == l && t in ms.value[0].targets
  }

  /** Where x comes first in a list that has it. */
  function First(xs: seq<string>, x: string): (k: nat)
    requires x in xs
    ensures k < |xs| && xs[k] == x && forall j :: 0 <= j < k ==> xs[j] != x
  {
    if xs[0] == x then 0 else 1 + First(xs[1..], x)
  }

  /** What is added keeps the order in which it was first offered. */
  lemma {:induction false} AddedInOrder(targets: seq<string>, more: seq<string>, a: nat, b: nat)
    requires |targets| <= a < b < |AddMissing(targets, more)|
    ensures var r := AddMissing(targets, more); r[a] in more && r[b] in more && First(more, r[a]) < First(more, r[b])
  {
    var r := AddMissing(targets, more);
    if more == [] {
      assert false;
    } else {
      var front, acc := more[..|more| - 1], AddMissing(targets, more[..|more| - 1]);
      AddedFrom(targets, front);
      FirstStays(more, acc[a]);
      if b < |acc| {
        AddedInOrder(targets, front, a, b);
        FirstStays(more, acc[b]);
      } else {
        assert r[b] !in front;
        FirstLast(more);
      }
    }
  }

  lemma FirstStays(xs: seq<string>, x: string)
    requires xs != [] && x in xs[..|xs| - 1]
    ensures x in xs && First(xs, x) == First(xs[..|xs| - 1], x)
  {
    var k := First(xs[..|xs| - 1], x);
    assert xs[k] == x && forall j :: 0 <= j < k ==> xs[j] == xs[..|xs| - 1][j];
  }

  lemma FirstLast(xs: seq<string>)
    requires xs != [] && xs[|xs| - 1] !in xs[..|xs| - 1]
    ensures First(xs, xs[|xs| - 1]) == |xs| - 1
  {
  }

  lemma {:induction false} AddedFrom(targets: seq<string>, more: seq<string>)
    ensures var r := AddMissing(targets, more);
      && |r| >= |targets| && (forall k :: |targets| <= k < |r| ==> r[k] in more)
      && (forall k :: 0 <= k < |more| ==> more[k] in r)
  {
    if more != [] { AddedFrom(targets, more[..|more| - 1]); }
  }

  /** Merged says what it should: the old list as a prefix, then every offered
      backend, nothing else, and none of the added ones a repetition. */
  lemma {:induction false} MergedShape(targets: seq<string>, peer: string, specs: seq<string>, l: string)
    ensures var r := Merged(targets, peer, specs, l);
            && targets <= r
            && (forall t :: t in r <==> t in targets || Offered(peer, specs, l, t))
            && (forall i, j :: |targets| <= i < |r| && 0 <= j < i ==> r[j] != r[i])
  {
    hide Expand;
    if specs != [] {
      var front, last := specs[..|specs| - 1], specs[|specs| - 1];
      MergedShape(targets, peer, front, l);
      var acc := Merged(targets, peer, front, l);
      forall t ensures Offered(peer, specs, l, t) <==> Offered(peer, front, l, t) || OffersAt(peer, last, l, t) {
        if Offered(peer, front, l, t) {
          var n :| 0 <= n < |front| && OffersAt(peer, front[n], l, t);
          assert OffersAt(peer, specs[n], l, t);
        }
        if Offered(peer, specs, l, t) {
          var n :| 0 <= n < |specs| && OffersAt(peer, specs[n], l, t);
          assert n < |front| ==> OffersAt(peer, front[n], l, t);
        }
      }
      var ms := Expand(last, peer);
      if ms.Some? && |ms.value| == 1 && ms.value[0].listen == l { AddMissingShape(acc, ms.value[0].targets); }
    }
  }

  lemma {:induction false} MergedPlain(targets: seq<string>, peer: string, specs: seq<string>, l: string)
    requires PlainTargets(targets) && DefaultHost(peer) && forall n :: 0 <= n < |specs| ==> OrdinarySpec(specs[n])
    ensures PlainTargets(Merged(targets, peer, specs, l))
  {
    hide Expand, OrdinarySpec, PlainHost, PlainTarget;
    if specs != [] {
      var front, last := specs[..|specs| - 1], specs[|specs| - 1];
      MergedPlain(targets, peer, front, l);
      var ms := Expand(last, peer);
      if ms.Some? && |ms.value| == 1 && ms.value[0].listen == l {
        ExpandPlain(last, peer);
        var acc, more := Merged(targets, peer, front, l), ms.value[0].targets;
        assert ms.value[0] in ms.value;
        AddMissingShape(acc, more);
        var r := AddMissing(acc, more);
        forall k | 0 <= k < |r| ensures PlainTarget(r[k]) {
          if r[k] in acc {
            var j :| 0 <= j < |acc| && acc[j] == r[k];
          } else {
            assert r[k] in r;
            var j :| 0 <= j < |more| && more[j] == r[k];
          }
        }
      }
    }
  }

  // ---- the planner's invariant ----

  /** Where owner a stands after the specs done so far. */
  ghost predicate Tracks(p: Plan, peer: string, done: seq<string>, l: string, o: Owner)
  {
    o.single.Some? ==>
      var merged := Merged(o.single.value.targets, peer, done, l);
      if Key(o) in p.at
      then p.at[Key(o)] < |p.shares| && p.shares[p.at[Key(o)]] == Share(o.tunnel, o.spec, JoinSpec(o.spec, merged))
      else merged == o.single.value.targets
  }

  /** Share i was made for owner a. */
  ghost predicate MadeFor(p: Plan, i: nat, o: Owner)
  {
    o.single.Some? && Key(o) in p.at && p.at[Key(o)] == i
  }

  ghost predicate HasMaker(p: Plan, all: seq<(string, Owner)>, i: nat)
  {
    exists a :: 0 <= a < |all| && MadeFor(p, i, all[a].1)
  }

  ghost predicate Good(p: Plan, all: seq<(string, Owner)>, peer: string, done: seq<string>)
  {
    && Indexed(p)
    && (forall a :: 0 <= a < |all| ==> Tracks(p, peer, done, all[a].0, all[a].1))
    && (forall i :: 0 <= i < |p.shares| ==> HasMaker(p, all, i))
  }

  /** What the planner is given: plain hosts and ordinary specs. */
  ghost predicate Plain(peer: string, specs: seq<string>)
  {
    DefaultHost(peer) && forall n :: 0 <= n < |specs| ==> OrdinarySpec(specs[n])
  }

  lemma MergedSnoc(targets: seq<string>, peer: string, done: seq<string>, spec: string, l: string)
    ensures var acc := Merged(targets, peer, done, l); var ms := Expand(spec, peer);
            Merged(targets, peer, done + [spec], l)
            == if ms.Some? && |ms.value| == 1 && ms.value[0].listen == l then AddMissing(acc, ms.value[0].targets)
              else acc
  {
    hide Expand, AddMissing;
    assert (done + [spec])[..|done|] == done;
  }

  /** A spec that is not shared with owner a leaves its backends alone. */
  lemma UnsharedLeaves(all: seq<(string, Owner)>, peer: string, done: seq<string>, spec: string, a: nat)
    requires Sound(all) && a < |all| && all[a].1.single.Some?
    requires FateOf(all, peer, spec).Shared? ==> FateOf(all, peer, spec).mapping.listen != all[a].0
    ensures var ts := all[a].1.single.value.targets;
            Merged(ts, peer, done + [spec], all[a].0) == Merged(ts, peer, done, all[a].0)
  {
    hide Expand, AddMissing, Merged, Sound, FateOf;
    MergedSnoc(all[a].1.single.value.targets, peer, done, spec, all[a].0);
    var ms := Expand(spec, peer);
    if ms.Some? && |ms.value| == 1 && ms.value[0].listen == all[a].0 {
      assert ms.value == [ms.value[0]];
      SharedWhenOwned(all, peer, spec, ms.value[0], a);
    }
  }

  lemma OtherFateKeepsGood(p: Plan, all: seq<(string, Owner)>, peer: string, done: seq<string>, spec: string)
    requires Good(p, all, peer, done) && Sound(all) && !FateOf(all, peer, spec).Shared?
    ensures Good(PlanOne(p, all, peer, spec), all, peer, done + [spec])
  {
    hide Expand, FateOf, Merged, Sound, Key, JoinSpec;
    var q := PlanOne(p, all, peer, spec);
    forall a | 0 <= a < |all| ensures Tracks(q, peer, done + [spec], all[a].0, all[a].1) {
      assert Tracks(p, peer, done, all[a].0, all[a].1);
      if all[a].1.single.Some? { UnsharedLeaves(all, peer, done, spec, a); }
    }
    forall i | 0 <= i < |q.shares| ensures HasMaker(q, all, i) {
      assert HasMaker(p, all, i);
      var a :| 0 <= a < |all| && MadeFor(p, i, all[a].1);
      assert MadeFor(q, i, all[a].1);
    }
  }

  lemma WithShareKeepsGood(p: Plan, all: seq<(string, Owner)>, peer: string, done: seq<string>, a0: nat)
    requires Good(p, all, peer, done) && KeysTell(all) && a0 < |all| && all[a0].1.single.Some?
    ensures Good(WithShare(p, all[a0].1), all, peer, done)
  {
    hide Merged, Key, JoinSpec;
    var o := all[a0].1;
    var q := WithShare(p, o);
    if Key(o) !in p.at {
      forall a | 0 <= a < |all| ensures Tracks(q, peer, done, all[a].0, all[a].1) {
        assert Tracks(p, peer, done, all[a].0, all[a].1);
        if Key(all[a].1) == Key(o) { assert all[a].1 == o; }
      }
      forall i | 0 <= i < |q.shares| ensures HasMaker(q, all, i) {
        if i < |p.shares| {
          assert HasMaker(p, all, i);
          var a :| 0 <= a < |all| && MadeFor(p, i, all[a].1);
          assert MadeFor(q, i, all[a].1);
        } else {
          assert MadeFor(q, i, all[a0].1);
        }
      }
    }
  }

  /** The text of a share lists its merged backends, so extending the text
      extends them. */
  lemma ExtendMerges(o: Owner, peer: string, done: seq<string>, l: string, more: seq<string>)
    requires o.single.Some? && PlainTargets(o.single.value.targets) && Plain(peer, done)
    ensures var merged := Merged(o.single.value.targets, peer, done, l);
            Extend(Share(o.tunnel, o.spec, JoinSpec(o.spec, merged)), o.spec, more)
            == Share(o.tunnel, o.spec, JoinSpec(o.spec, AddMissing(merged, more)))
  {
    hide Expand, Merged, AddMissing, OrdinarySpec, PlainHost, PlainTarget, Trimmed, ParseBackend, ParseEndpoint,
      JoinHostPort, JoinSpec;
    var merged := Merged(o.single.value.targets, peer, done, l);
    MergedPlain(o.single.value.targets, peer, done, l);
    forall k | 0 <= k < |merged| ensures '|' !in merged[k] { PlainTargetReadsBack(merged[k], peer); }
    BackendsReadBack(o.spec, merged);
  }

  lemma ExtendKeepsTracks(q: Plan, all: seq<(string, Owner)>, peer: string, done: seq<string>, spec: string, a0: nat,
                          a: nat)
    requires Good(q, all, peer, done) && Sound(all) && Plain(peer, done) && a < |all| && a0 < |all|
    requires FateOf(all, peer, spec).Shared? &&
        all[a0] == (FateOf(all, peer, spec).mapping.listen, FateOf(all, peer, spec).owner)
    requires all[a0].1.single.Some? && Key(all[a0].1) in q.at &&
        Expand(spec, peer) == Some([FateOf(all, peer, spec).mapping])
    ensures var o := all[a0].1; var i := q.at[Key(o)];
            Tracks(q.(shares := q.shares[i := Extend(q.shares[i], o.spec, FateOf(all, peer, spec).mapping.targets)]),
                   peer, done + [spec], all[a].0, all[a].1)
  {
    hide Expand, Merged, AddMissing, FateOf, JoinSpec, Extend, OrdinarySpec, PlainHost, PlainTarget;
    var o, m := all[a0].1, FateOf(all, peer, spec).mapping;
    assert OwnerOk(all[a0].0, o);
    assert Tracks(q, peer, done, all[a0].0, o);
    assert Tracks(q, peer, done, all[a].0, all[a].1);
    if a == a0 {
      MergedSnoc(o.single.value.targets, peer, done, spec, m.listen);
      ExtendMerges(o, peer, done, m.listen, m.targets);
    } else if all[a].1.single.Some? {
      UnsharedLeaves(all, peer, done, spec, a);
      assert OwnerOk(all[a].0, all[a].1);
      assert all[a].1 != o;
      assert Key(all[a].1) != Key(o);
      if Key(all[a].1) in q.at {
        assert q.at[Key(all[a].1)] != q.at[Key(o)];
      }
    }
  }

  lemma SharedKeepsGood(p: Plan, all: seq<(string, Owner)>, peer: string, done: seq<string>, spec: string)
    requires Good(p, all, peer, done) && Sound(all) && Plain(peer, done) && FateOf(all, peer, spec).Shared?
    ensures Good(PlanOne(p, all, peer, spec), all, peer, done + [spec])
  {
    hide Expand, Merged, FateOf, JoinSpec, Extend, OrdinarySpec, PlainHost, Tracks, Key, OwnerOk;
    var a0 := SharedHasOwner(all, peer, spec);
    var o, m := all[a0].1, FateOf(all, peer, spec).mapping;
    WithShareKeepsGood(p, all, peer, done, a0);
    var q := WithShare(p, o);
    var i0 := q.at[Key(o)];
    var r := PlanOne(p, all, peer, spec);
    assert r == q.(shares := q.shares[i0 := Extend(q.shares[i0], o.spec, m.targets)]);
    forall a | 0 <= a < |all| ensures Tracks(r, peer, done + [spec], all[a].0, all[a].1) {
      ExtendKeepsTracks(q, all, peer, done, spec, a0, a);
    }
    forall i | 0 <= i < |r.shares| ensures HasMaker(r, all, i) {
      assert HasMaker(q, all, i);
      var a :| 0 <= a < |all| && MadeFor(q, i, all[a].1);
      assert MadeFor(r, i, all[a].1);
    }
  }

  lemma {:induction false} PlanIsGood(all: seq<(string, Owner)>, peer: string, specs: seq<string>)
    requires Sound(all) && Plain(peer, specs)
    ensures Good(PlanAll(all, peer, specs), all, peer, specs)
  {
    hide Expand, FateOf, PlanOne, OrdinarySpec, PlainHost, Sound;
    if specs != [] {
      var front, last := specs[..|specs| - 1], specs[|specs| - 1];
      assert Plain(peer, front);
      PlanIsGood(all, peer, front);
      assert front + [last] == specs;
      if FateOf(all, peer, last).Shared? {
        SharedKeepsGood(PlanAll(all, peer, front), all, peer, front, last);
      } else {
        OtherFateKeepsGood(PlanAll(all, peer, front), all, peer, front, last);
      }
    }
  }

  // ---- applying the shares to the existing tunnels ----

  /** What a port spec of the named tunnel has become after the shares, in order. */
  function Rewritten(text: string, shares: seq<Share>, name: string): string
  {
    if shares == [] then text
    else
      var t := Rewritten(text, shares[..|shares| - 1], name);
      var s := shares[|shares| - 1];
      if s.tunnel.name == name && t == s.oldSpec then s.newSpec else t
  }

  function RewrittenPorts(ports: seq<string>, shares: seq<Share>, name: string): (r: seq<string>)
    ensures |r| == |ports| && forall j :: 0 <= j < |ports| ==> r[j] == Rewritten(ports[j], shares, name)
  {
    seq(|ports|, j requires 0 <= j < |ports| => Rewritten(ports[j], shares, name))
  }

  predicate Names(s: Share, name: string, text: string) { s.tunnel.name == name && s.oldSpec == text }

  lemma {:induction false} UnnamedStays(shares: seq<Share>, name: string, text: string)
    requires forall i :: 0 <= i < |shares| ==> !Names(shares[i], name, text)
    ensures Rewritten(text, shares, name) == text
  {
    if shares != [] {
      UnnamedStays(shares[..|shares| - 1], name, text);
      assert !Names(shares[|shares| - 1], name, text);
    }
  }

  /** A spec named by one share only becomes that share's text, provided no later
      share names the new text in turn. */
  lemma {:induction false} NamedOnce(shares: seq<Share>, name: string, text: string, i: nat)
    requires i < |shares| && Names(shares[i], name, text)
    requires forall k :: 0 <= k < |shares| && k != i ==>
        !Names(shares[k], name, text) && !Names(shares[k], name, shares[i].newSpec)
    ensures Rewritten(text, shares, name) == shares[i].newSpec
  {
    var front := shares[..|shares| - 1];
    if i == |shares| - 1 {
      UnnamedStays(front, name, text);
    } else {
      NamedOnce(front, name, text, i);
      assert !Names(shares[|shares| - 1], name, shares[i].newSpec);
    }
  }

  datatype SharedTunnel = SharedTunnel(tunnel: Tunnel, ports: seq<string>)

  /** A group as the first n shares leave it; the tunnel may come from the next. */
  ghost predicate Prepared(g: SharedTunnel, shares: seq<Share>, n: nat)
    requires n <= |shares|
  {
    && g.ports == RewrittenPorts(g.tunnel.ports, shares[..n], g.tunnel.name)
    && exists m :: 0 <= m <= n && m < |shares| && shares[m].tunnel == g.tunnel
  }

  ghost predicate Covers(out: seq<SharedTunnel>, name: string)
  {
    exists g :: 0 <= g < |out| && out[g].tunnel.name == name
  }

  /** Share m is the first to name its tunnel. */
  ghost predicate FirstToName(shares: seq<Share>, m: nat)
  {
    m < |shares| && forall k :: 0 <= k < m ==> shares[k].tunnel.name != shares[m].tunnel.name
  }

  /** The groups come in the order of the shares that first named their tunnels. */
  ghost predicate InOrder(shares: seq<Share>, out: seq<SharedTunnel>, firsts: seq<nat>, n: nat)
  {
    && |firsts| == |out|
    && (forall g, h :: 0 <= g < h < |firsts| ==> firsts[g] < firsts[h])
    && forall g :: 0 <= g < |out| ==>
        firsts[g] < n && FirstToName(shares, firsts[g]) && out[g].tunnel == shares[firsts[g]].tunnel
  }

  /** The groups and their index once n shares are applied and m have been named. */
  ghost predicate Grouped(shares: seq<Share>, out: seq<SharedTunnel>, firsts: seq<nat>, at: map<string, nat>, n: nat,
                          m: nat)
    requires n <= |shares|
  {
    && InOrder(shares, out, firsts, m)
    && (forall g :: 0 <= g < |out| ==> Prepared(out[g], shares, n))
    && (forall name :: name in at ==> at[name] < |out| && out[at[name]].tunnel.name == name)
    && (forall g :: 0 <= g < |out| ==> out[g].tunnel.name in at && at[out[g].tunnel.name] == g)
    && (forall k :: 0 <= k < m && k < |shares| ==> shares[k].tunnel.name in at)
  }

  lemma NoneGrouped(shares: seq<Share>)
    ensures Grouped(shares, [], [], map[], 0, 0)
  {
  }

  lemma EntryAdded(shares: seq<Share>, out: seq<SharedTunnel>, firsts: seq<nat>, at: map<string, nat>, n: nat)
    requires n < |shares| && Grouped(shares, out, firsts, at, n, n) && shares[n].tunnel.name !in at
    ensures var t := shares[n].tunnel;
            Grouped(shares, out + [SharedTunnel(t, t.ports)], firsts + [n], at[t.name := |out|], n, n + 1)
  {
    hide Prepared;
    NewGroup(shares, n);
  }

  lemma EntryKept(shares: seq<Share>, out: seq<SharedTunnel>, firsts: seq<nat>, at: map<string, nat>, n: nat)
    requires n < |shares| && Grouped(shares, out, firsts, at, n, n) && shares[n].tunnel.name in at
    ensures Grouped(shares, out, firsts, at, n, n + 1)
  {
    hide Prepared, FirstToName;
  }

  lemma EntryRewritten(shares: seq<Share>, out: seq<SharedTunnel>, firsts: seq<nat>, at: map<string, nat>, n: nat,
                       ports: seq<string>)
    requires n < |shares| && Grouped(shares, out, firsts, at, n, n + 1) && shares[n].tunnel.name in at
    requires var was := out[at[shares[n].tunnel.name]].ports; |ports| == |was| && forall j :: 0 <= j < |was| ==>
               ports[j] == if was[j] == shares[n].oldSpec then shares[n].newSpec else was[j]
    ensures var i := at[shares[n].tunnel.name];
            Grouped(shares, out[i := out[i].(ports := ports)], firsts, at, n + 1, n + 1)
  {
    hide Prepared, FirstToName;
    var i := at[shares[n].tunnel.name];
    var after := out[i := out[i].(ports := ports)];
    forall g | 0 <= g < |after| ensures Prepared(after[g], shares, n + 1) {
      assert Prepared(out[g], shares, n);
      NextGroup(out[g], after[g], shares, n, g == i);
    }
  }

  lemma GroupedSays(shares: seq<Share>, out: seq<SharedTunnel>, firsts: seq<nat>, at: map<string, nat>)
    requires Grouped(shares, out, firsts, at, |shares|, |shares|)
    ensures InOrder(shares, out, firsts, |shares|)
    ensures forall g :: 0 <= g < |out| ==> Prepared(out[g], shares, |shares|)
    ensures forall g, h :: 0 <= g < h < |out| ==> out[g].tunnel.name != out[h].tunnel.name
    ensures forall n :: 0 <= n < |shares| ==> Covers(out, shares[n].tunnel.name)
  {
    hide Prepared, InOrder;
    forall n | 0 <= n < |shares| ensures Covers(out, shares[n].tunnel.name) {
      var g := at[shares[n].tunnel.name];
      assert out[g].tunnel.name == shares[n].tunnel.name;
    }
  }

  /** groupShares: one entry per tunnel named, in the order first named, holding
      its rewritten ports. firsts says which share named each first. */
  method GroupShares(shares: seq<Share>) returns (out: seq<SharedTunnel>, ghost firsts: seq<nat>)
    ensures InOrder(shares, out, firsts, |shares|)
    ensures forall g :: 0 <= g < |out| ==> Prepared(out[g], shares, |shares|)
    ensures forall g, h :: 0 <= g < h < |out| ==> out[g].tunnel.name != out[h].tunnel.name
    ensures forall n :: 0 <= n < |shares| ==> Covers(out, shares[n].tunnel.name)
  {
    hide Prepared, InOrder, Covers;
    out, firsts := [], [];
    var at: map<string, nat> := map[];
    NoneGrouped(shares);
    for n := 0 to |shares|
      invariant Grouped(shares, out, firsts, at, n, n)
    {
      var s := shares[n];
      if s.tunnel.name !in at {
        EntryAdded(shares, out, firsts, at, n);
        at := at[s.tunnel.name := |out|];
        out, firsts := out + [SharedTunnel(s.tunnel, s.tunnel.ports)], firsts + [n];
      } else {
        EntryKept(shares, out, firsts, at, n);
      }
      var i := at[s.tunnel.name];
      var ports := RewriteOnce(out[i].ports, s.oldSpec, s.newSpec);
      EntryRewritten(shares, out, firsts, at, n, ports);
      out := out[i := out[i].(ports := ports)];
    }
    GroupedSays(shares, out, firsts, at);
  }

  method RewriteOnce(ports: seq<string>, was: string, becomes: string) returns (r: seq<string>)
    ensures |r| == |ports|
    ensures forall j :: 0 <= j < |ports| ==> r[j] == if ports[j] == was then becomes else ports[j]
  {
    r := ports;
    for j := 0 to |ports|
      invariant |r| == |ports|
      invariant forall k :: 0 <= k < |ports| ==> r[k] == if k < j && ports[k] == was then becomes else ports[k]
    {
      if r[j] == was {
        r := r[j := becomes];
      }
    }
  }

  /** A tunnel no earlier share named starts from its own ports. */
  lemma NewGroup(shares: seq<Share>, n: nat)
    requires n < |shares| && forall m :: 0 <= m < n ==> shares[m].tunnel.name != shares[n].tunnel.name
    ensures Prepared(SharedTunnel(shares[n].tunnel, shares[n].tunnel.ports), shares, n)
  {
    var t := shares[n].tunnel;
    forall j | 0 <= j < |t.ports| ensures Rewritten(t.ports[j], shares[..n], t.name) == t.ports[j] {
      UnnamedStays(shares[..n], t.name, t.ports[j]);
    }
  }

  lemma NextGroup(g: SharedTunnel, g': SharedTunnel, shares: seq<Share>, n: nat, named: bool)
    requires n < |shares| && g'.tunnel == g.tunnel && named == (shares[n].tunnel.name == g.tunnel.name)
    requires Prepared(g, shares, n)
    requires if named then |g'.ports| == |g.ports| && forall j :: 0 <= j < |g.ports| ==>
                             g'.ports[j] == if g.ports[j] == shares[n].oldSpec then shares[n].newSpec else g.ports[j]
             else g'.ports == g.ports
    ensures Prepared(g', shares, n + 1)
  {
    var next := shares[..n + 1];
    assert next[..n] == shares[..n] && next[n] == shares[n];
    var r := RewrittenPorts(g.tunnel.ports, next, g.tunnel.name);
    forall j | 0 <= j < |r| ensures r[j] == g'.ports[j] { }
    assert g'.ports == r;
  }

  // ---- the planner's premises, from the configuration ----

  ghost predicate Ready(specs: seq<string>, newPeer: string, existing: seq<Tunnel>)
  {
    && Plain(HostOnly(newPeer), specs)
    && (forall e :: 0 <= e < |existing| ==> ReadyTunnel(existing[e]))
    && (forall e, f :: 0 <= e < f < |existing| ==> existing[e].name != existing[f].name)
    && DistinctListens(AllOwners(existing))
  }

  ghost predicate ReadyTunnel(t: Tunnel)
  {
    '\U{0}' !in t.name && Plain(HostOnly(t.peer), t.ports)
  }

  /** The entry is a mapping of a spec of this tunnel. */
  ghost predicate OfTunnel(t: Tunnel, l: string, o: Owner)
  {
    && o.tunnel == t && o.spec in t.ports
    && var ms := Expand(o.spec, HostOnly(t.peer));
       && ms.Some? && o.single == (if |ms.value| == 1 then Some(ms.value[0]) else None)
       && (|ms.value| == 1 ==> l == ms.value[0].listen)
  }

  lemma {:induction false} PortOwnersOfTunnel(t: Tunnel, ports: seq<string>, a: nat)
    requires a < |PortOwners(t, ports)| && forall p :: p in ports ==> p in t.ports
    ensures OfTunnel(t, PortOwners(t, ports)[a].0, PortOwners(t, ports)[a].1)
  {
    hide Expand, HostOnly;
    var front := ports[..|ports| - 1];
    if a < |PortOwners(t, front)| {
      PortOwnersOfTunnel(t, front, a);
    } else {
      var k := a - |PortOwners(t, front)|;
      assert PortOwners(t, ports)[a] == SpecOwners(t, ports[|ports| - 1])[k];
    }
  }

  lemma {:induction false} OwnersOfTunnels(existing: seq<Tunnel>, a: nat) returns (e: nat)
    requires a < |AllOwners(existing)|
    ensures e < |existing| && OfTunnel(existing[e], AllOwners(existing)[a].0, AllOwners(existing)[a].1)
  {
    hide PortOwners, OfTunnel;
    var front, last := existing[..|existing| - 1], existing[|existing| - 1];
    if a < |AllOwners(front)| {
      e := OwnersOfTunnels(front, a);
    } else {
      PortOwnersOfTunnel(last, last.ports, a - |AllOwners(front)|);
      e := |existing| - 1;
    }
  }

  lemma {:induction false} SpecIsListed(t: Tunnel, ports: seq<string>, j: nat) returns (a: nat)
    requires j < |ports| && Expand(ports[j], HostOnly(t.peer)).Some? && |Expand(ports[j], HostOnly(t.peer)).value| == 1
    ensures var m := Expand(ports[j], HostOnly(t.peer)).value[0];
            a < |PortOwners(t, ports)| && PortOwners(t, ports)[a] == (m.listen, Owner(t, ports[j], Some(m)))
  {
    hide Expand, HostOnly;
    if j < |ports| - 1 {
      a := SpecIsListed(t, ports[..|ports| - 1], j);
    } else {
      a := |PortOwners(t, ports[..|ports| - 1])|;
      assert SpecOwners(t, ports[j])[0] == PortOwners(t, ports)[a];
    }
  }

  lemma {:induction false} PortIsListed(existing: seq<Tunnel>, e: nat, j: nat) returns (a: nat)
    requires e < |existing| && j < |existing[e].ports|
    requires var ms := Expand(existing[e].ports[j], HostOnly(existing[e].peer)); ms.Some? && |ms.value| == 1
    ensures var m := Expand(existing[e].ports[j], HostOnly(existing[e].peer)).value[0];
            a < |AllOwners(existing)| && AllOwners(existing)[a]
              == (m.listen, Owner(existing[e], existing[e].ports[j], Some(m)))
  {
    hide Expand, HostOnly, PortOwners;
    var front := existing[..|existing| - 1];
    if e < |front| {
      a := PortIsListed(front, e, j);
    } else {
      a := SpecIsListed(existing[e], existing[e].ports, j);
      a := |AllOwners(front)| + a;
    }
  }

  lemma KeyParts(o: Owner, p: Owner)
    requires '\U{0}' !in o.tunnel.name && '\U{0}' !in p.tunnel.name && Key(o) == Key(p)
    ensures o.tunnel.name == p.tunnel.name && o.spec == p.spec
  {
    CutJoined(o.tunnel.name, '\U{0}', o.spec);
    CutJoined(p.tunnel.name, '\U{0}', p.spec);
  }

  lemma ReadyOwnerOk(t: Tunnel, l: string, o: Owner)
    requires ReadyTunnel(t) && OfTunnel(t, l, o)
    ensures OwnerOk(l, o)
  {
    hide Expand, HostOnly, OrdinarySpec, PlainHost, PlainTarget;
    if o.single.Some? {
      var ms := Expand(o.spec, HostOnly(t.peer)).value;
      assert ms == [ms[0]];
      var n :| 0 <= n < |t.ports| && t.ports[n] == o.spec;
      assert OrdinarySpec(t.ports[n]);
      ExpandPlain(o.spec, HostOnly(t.peer));
      assert ms[0] in ms;
    }
  }

  lemma ReadyIsSound(specs: seq<string>, newPeer: string, existing: seq<Tunnel>)
    requires Ready(specs, newPeer, existing)
    ensures Sound(AllOwners(existing))
  {
    hide AllOwners, OwnerOk, OfTunnel, Key, Plain;
    var all := AllOwners(existing);
    forall a | 0 <= a < |all| ensures OwnerOk(all[a].0, all[a].1) {
      var e := OwnersOfTunnels(existing, a);
      ReadyOwnerOk(existing[e], all[a].0, all[a].1);
    }
    forall a, b | 0 <= a < |all| && 0 <= b < |all| && Key(all[a].1) == Key(all[b].1) ensures all[a].1 == all[b].1 {
      var e := OwnersOfTunnels(existing, a);
      var f := OwnersOfTunnels(existing, b);
      SameKeySameOwner(existing[e], all[a], existing[f], all[b]);
    }
  }

  lemma SameKeySameOwner(t: Tunnel, x: (string, Owner), u: Tunnel, y: (string, Owner))
    requires ReadyTunnel(t) && ReadyTunnel(u) && OfTunnel(t, x.0, x.1) && OfTunnel(u, y.0, y.1)
    requires Key(x.1) == Key(y.1) && (t.name == u.name ==> t == u)
    ensures x.1 == y.1
  {
    hide Expand, HostOnly, Plain;
    KeyParts(x.1, y.1);
  }

  // ---- the theorems ----

  /** The specs with one fate, in order. */
  function Select(all: seq<(string, Owner)>, peer: string, specs: seq<string>, kept: bool): seq<string>
  {
    if specs == [] then []
    else
      var rest, last := Select(all, peer, specs[..|specs| - 1], kept), specs[|specs| - 1];
      var f := FateOf(all, peer, last);
      if (if kept then f.Kept? else f.Clash?) then rest + [last] else rest
  }

  /** Every new spec lands in exactly one place: the kept and the clashing ones
      are listed in order, each once per occurrence, and the rest are shared. */
  lemma {:induction false} PlanSorts(all: seq<(string, Owner)>, peer: string, specs: seq<string>)
    ensures PlanAll(all, peer, specs).keep == Select(all, peer, specs, true)
    ensures PlanAll(all, peer, specs).clash == Select(all, peer, specs, false)
  {
    hide FateOf, Extend, JoinSpec, Key;
    if specs != [] { PlanSorts(all, peer, specs[..|specs| - 1]); }
  }

  /** The remaining specs are the shared ones: the plan has a share for each, and
      it names the very mapping that has the address. */
  lemma {:induction false} SharedIsPlanned(all: seq<(string, Owner)>, peer: string, specs: seq<string>, n: nat)
    requires n < |specs| && FateOf(all, peer, specs[n]).Shared? && FateOf(all, peer, specs[n]).owner.single.Some?
    ensures Key(FateOf(all, peer, specs[n]).owner) in PlanAll(all, peer, specs).at
  {
    hide FateOf, Extend, JoinSpec, Key;
    if n < |specs| - 1 { SharedIsPlanned(all, peer, specs[..|specs| - 1], n); }
  }

  lemma SharedIsCarried(all: seq<(string, Owner)>, peer: string, specs: seq<string>, n: nat) returns (i: nat)
    requires Sound(all) && Plain(peer, specs) && n < |specs| && FateOf(all, peer, specs[n]).Shared?
    ensures var p := PlanAll(all, peer, specs); var f := FateOf(all, peer, specs[n]);
            && i < |p.shares| && p.shares[i].tunnel == f.owner.tunnel && p.shares[i].oldSpec == f.owner.spec
            && f.owner.single.Some? && Expand(specs[n], peer) == Some([f.mapping])
            && p.shares[i].newSpec == JoinSpec(f.owner.spec,
                Merged(f.owner.single.value.targets, peer, specs, f.mapping.listen))
  {
    hide Expand, FateOf, JoinSpec, Merged, Key, PlanAll, Plain, OwnerOk, KeysTell, DistinctListens;
    var a := SharedHasOwner(all, peer, specs[n]);
    SharedIsPlanned(all, peer, specs, n);
    PlanIsGood(all, peer, specs);
    assert Tracks(PlanAll(all, peer, specs), peer, specs, all[a].0, all[a].1);
    i := PlanAll(all, peer, specs).at[Key(all[a].1)];
  }

  lemma {:induction false} NoOwners(all: seq<(string, Owner)>, ms: seq<Mapping>, k: nat, a: nat)
    requires k < |ms| && a < |all| && DistinctListens(all) && OwnersOf(all, ms) == []
    ensures ms[k].listen != all[a].0
  {
    hide At;
    if k < |ms| - 1 {
      NoOwners(all, ms[..|ms| - 1], k, a);
    } else {
      AtListed(all, ms[k].listen);
    }
  }

  /** A kept spec listens on no address an existing tunnel listens on. */
  lemma KeptListensAlone(all: seq<(string, Owner)>, peer: string, spec: string, k: nat, a: nat)
    requires DistinctListens(all) && FateOf(all, peer, spec).Kept? && Expand(spec, peer).Some?
    requires k < |Expand(spec, peer).value| && a < |all|
    ensures Expand(spec, peer).value[k].listen != all[a].0
  {
    hide Expand, DistinctListens;
    NoOwners(all, Expand(spec, peer).value, k, a);
  }

  lemma ShareMaker(p: Plan, all: seq<(string, Owner)>, peer: string, done: seq<string>, i: nat) returns (a: nat)
    requires Good(p, all, peer, done) && i < |p.shares|
    ensures a < |all| && MadeFor(p, i, all[a].1)
    ensures p.shares[i].tunnel == all[a].1.tunnel && p.shares[i].oldSpec == all[a].1.spec
    ensures p.shares[i].newSpec == JoinSpec(all[a].1.spec, Merged(all[a].1.single.value.targets, peer, done, all[a].0))
  {
    hide Key, JoinSpec, Merged;
    assert HasMaker(p, all, i);
    a :| 0 <= a < |all| && MadeFor(p, i, all[a].1);
    assert Tracks(p, peer, done, all[a].0, all[a].1);
  }

  /** What a share's new text means to the tunnel that holds it. */
  lemma ShareMeans(all: seq<(string, Owner)>, peer: string, specs: seq<string>, a: nat, anyHost: string)
    requires Sound(all) && Plain(peer, specs) && a < |all| && all[a].1.single.Some?
    ensures var o := all[a].1; var merged := Merged(o.single.value.targets, peer, specs, all[a].0);
            Expand(JoinSpec(o.spec, merged), anyHost) == Some([Mapping(all[a].0, merged)])
  {
    hide Expand, JoinSpec, Merged, HostOnly, OrdinarySpec, PlainHost, PlainTarget, Key;
    var o := all[a].1;
    assert OwnerOk(all[a].0, o);
    MergedPlain(o.single.value.targets, peer, specs, all[a].0);
    RewriteMeans(o.spec, HostOnly(o.tunnel.peer), Merged(o.single.value.targets, peer, specs, all[a].0), anyHost);
  }

  /** Two shares of one tunnel never name each other's text, old or new. */
  lemma SharesStayApart(all: seq<(string, Owner)>, peer: string, specs: seq<string>, i: nat, k: nat)
    requires Sound(all) && Plain(peer, specs)
    requires var p := PlanAll(all, peer, specs); i < |p.shares| && k < |p.shares| && i != k
    requires var p := PlanAll(all, peer, specs);
             p.shares[i].tunnel.name == p.shares[k].tunnel.name ==> p.shares[i].tunnel == p.shares[k].tunnel
    ensures var p := PlanAll(all, peer, specs);
            p.shares[i].tunnel.name == p.shares[k].tunnel.name ==>
              p.shares[k].oldSpec != p.shares[i].oldSpec && p.shares[k].oldSpec != p.shares[i].newSpec
  {
    hide Expand, JoinSpec, Merged, HostOnly, PlainTargets, PlanAll, Plain;
    PlanIsGood(all, peer, specs);
    var p := PlanAll(all, peer, specs);
    var a := ShareMaker(p, all, peer, specs, i);
    var b := ShareMaker(p, all, peer, specs, k);
    if p.shares[i].tunnel.name == p.shares[k].tunnel.name {
      var host := HostOnly(all[b].1.tunnel.peer);
      ShareMeans(all, peer, specs, a, host);
      assert OwnerOk(all[b].0, all[b].1);
      assert OwnerOk(all[a].0, all[a].1);
      assert all[a].1 != all[b].1;
      assert all[a].0 != all[b].0;
    }
  }

  /** The main theorem. After sharing, every one-port mapping of every existing
      tunnel still listens where it did, and its backends are its own followed by
      the new ones asked for at that address; every other spec is untouched. */
  lemma SharingPreserves(specs: seq<string>, newPeer: string, existing: seq<Tunnel>, e: nat, j: nat)
    requires Ready(specs, newPeer, existing) && e < |existing| && j < |existing[e].ports|
    ensures var t := existing[e]; var host := HostOnly(t.peer); var peer := HostOnly(newPeer);
            var after := Rewritten(t.ports[j], PlanAll(AllOwners(existing), peer, specs).shares, t.name);
            var was := Expand(t.ports[j], host);
            if was.Some? && |was.value| == 1
            then Expand(after, host)
                == Some([Mapping(was.value[0].listen, Merged(was.value[0].targets, peer, specs, was.value[0].listen))])
            else after == t.ports[j]
  {
    hide Expand, JoinSpec, Merged, HostOnly, AllOwners, PlanAll, Sound, Plain, Rewritten, Good, OwnerOk;
    ReadyIsSound(specs, newPeer, existing);
    var all, peer := AllOwners(existing), HostOnly(newPeer);
    PlanIsGood(all, peer, specs);
    var p := PlanAll(all, peer, specs);
    var t := existing[e];
    var was := Expand(t.ports[j], HostOnly(t.peer));
    if was.Some? && |was.value| == 1 {
      var a := PortIsListed(existing, e, j);
      SinglePreserved(specs, newPeer, existing, e, j, a);
    } else {
      forall i | 0 <= i < |p.shares| ensures !Names(p.shares[i], t.name, t.ports[j]) {
        ShareOfTunnel(specs, newPeer, existing, i, e, j);
      }
      UnnamedStays(p.shares, t.name, t.ports[j]);
    }
  }

  /** A share that names a spec of tunnel e was made for that very spec. */
  lemma ShareOfTunnel(specs: seq<string>, newPeer: string, existing: seq<Tunnel>, i: nat, e: nat, j: nat)
    requires Ready(specs, newPeer, existing) && Sound(AllOwners(existing))
    requires var p := PlanAll(AllOwners(existing), HostOnly(newPeer), specs);
             Good(p, AllOwners(existing), HostOnly(newPeer), specs) && i < |p.shares|
    requires e < |existing| && j < |existing[e].ports|
    ensures var s := PlanAll(AllOwners(existing), HostOnly(newPeer), specs).shares[i];
            && (s.tunnel.name == existing[e].name ==> s.tunnel == existing[e])
            && (Names(s, existing[e].name, existing[e].ports[j]) ==>
                  var was := Expand(existing[e].ports[j], HostOnly(existing[e].peer)); was.Some? && |was.value| == 1)
  {
    hide Expand, JoinSpec, Merged, HostOnly, AllOwners, PlanAll, Plain, Key, Good;
    var all := AllOwners(existing);
    var p := PlanAll(all, HostOnly(newPeer), specs);
    var a := ShareMaker(p, all, HostOnly(newPeer), specs, i);
    var f := OwnersOfTunnels(existing, a);
    assert OwnerOk(all[a].0, all[a].1);
  }

  lemma SinglePreserved(specs: seq<string>, newPeer: string, existing: seq<Tunnel>, e: nat, j: nat, a: nat)
    requires Ready(specs, newPeer, existing) && Sound(AllOwners(existing)) && e < |existing| && j < |existing[e].ports|
    requires var p := PlanAll(AllOwners(existing), HostOnly(newPeer), specs);
             Good(p, AllOwners(existing), HostOnly(newPeer), specs)
    requires var was := Expand(existing[e].ports[j], HostOnly(existing[e].peer));
             && was.Some? && |was.value| == 1
             && a < |AllOwners(existing)|
             && AllOwners(existing)[a] == (was.value[0].listen,
                 Owner(existing[e], existing[e].ports[j], Some(was.value[0])))
    ensures var t := existing[e]; var host := HostOnly(t.peer); var peer := HostOnly(newPeer);
            var after := Rewritten(t.ports[j], PlanAll(AllOwners(existing), peer, specs).shares, t.name);
            var m := Expand(t.ports[j], host).value[0];
            Expand(after, host) == Some([Mapping(m.listen, Merged(m.targets, peer, specs, m.listen))])
  {
    hide Expand, JoinSpec, Merged, HostOnly, AllOwners, PlanAll, Plain, Rewritten, Key, OwnerOk, Sound;
    var all, peer := AllOwners(existing), HostOnly(newPeer);
    var p := PlanAll(all, peer, specs);
    var t := existing[e];
    var o := all[a].1;
    assert Tracks(p, peer, specs, all[a].0, o);
    ShareMeans(all, peer, specs, a, HostOnly(t.peer));
    if Key(o) in p.at {
      var i := p.at[Key(o)];
      forall k | 0 <= k < |p.shares| && k != i
        ensures !Names(p.shares[k], t.name, t.ports[j]) && !Names(p.shares[k], t.name, p.shares[i].newSpec)
      {
        ShareOfTunnel(specs, newPeer, existing, k, e, j);
        SharesStayApart(all, peer, specs, i, k);
      }
      NamedOnce(p.shares, t.name, t.ports[j], i);
    } else {
      forall k | 0 <= k < |p.shares| ensures !Names(p.shares[k], t.name, t.ports[j]) {
        var b := ShareMaker(p, all, peer, specs, k);
        SameText(all[b].1, o);
      }
      UnnamedStays(p.shares, t.name, t.ports[j]);
      var was := Expand(t.ports[j], HostOnly(t.peer));
      assert was.value == [was.value[0]];
    }
  }

  lemma SameText(o: Owner, p: Owner)
    ensures o.tunnel.name == p.tunnel.name && o.spec == p.spec ==> Key(o) == Key(p)
  {
  }

  // ---- the plan carried out ----

  /** Spec text after does for tunnel t what spec text was should do once the new
      tunnel's backends are added. */
  ghost predicate ServesAs(t: Tunnel, was: string, after: string, peer: string, specs: seq<string>)
  {
    var host := HostOnly(t.peer);
    var before := Expand(was, host);
    if before.Some? && |before.value| == 1
    then Expand(after, host)
        == Some([Mapping(before.value[0].listen, Merged(before.value[0].targets, peer, specs, before.value[0].listen))])
    else after == was
  }

  ghost predicate ServesAll(t: Tunnel, ports: seq<string>, peer: string, specs: seq<string>)
  {
    |ports| == |t.ports| && forall j :: 0 <= j < |ports| ==> ServesAs(t, t.ports[j], ports[j], peer, specs)
  }

  /** Whatever becomes of tunnel t: its group's ports if it is written, its own if not. */
  ghost predicate Served(t: Tunnel, written: seq<SharedTunnel>, peer: string, specs: seq<string>)
  {
    && (forall g :: 0 <= g < |written| && written[g].tunnel.name == t.name ==>
          written[g].tunnel == t && ServesAll(t, written[g].ports, peer, specs))
    && (!Covers(written, t.name) ==> ServesAll(t, t.ports, peer, specs))
  }

  lemma RewrittenServes(specs: seq<string>, newPeer: string, existing: seq<Tunnel>, e: nat)
    requires Ready(specs, newPeer, existing) && e < |existing|
    ensures ServesAll(existing[e], RewrittenPorts(existing[e].ports,
        PlanAll(AllOwners(existing), HostOnly(newPeer), specs).shares, existing[e].name),
                      HostOnly(newPeer), specs)
  {
    hide Expand, HostOnly, AllOwners, PlanAll, Ready, Merged, Rewritten;
    var t := existing[e];
    var ports := RewrittenPorts(t.ports, PlanAll(AllOwners(existing), HostOnly(newPeer), specs).shares, t.name);
    forall j | 0 <= j < |ports| ensures ServesAs(t, t.ports[j], ports[j], HostOnly(newPeer), specs) {
      SharingPreserves(specs, newPeer, existing, e, j);
    }
  }

  /** A tunnel that shares a name with an existing one is that one. */
  lemma SharesExisting(specs: seq<string>, newPeer: string, existing: seq<Tunnel>, i: nat, e: nat)
    requires Ready(specs, newPeer, existing) && e < |existing|
    requires i < |PlanAll(AllOwners(existing), HostOnly(newPeer), specs).shares|
    ensures var s := PlanAll(AllOwners(existing), HostOnly(newPeer), specs).shares[i];
            s.tunnel.name == existing[e].name ==> s.tunnel == existing[e]
  {
    hide Expand, HostOnly, AllOwners, PlanAll, Plain, Good, Sound;
    ReadyIsSound(specs, newPeer, existing);
    PlanIsGood(AllOwners(existing), HostOnly(newPeer), specs);
    var a := ShareMaker(PlanAll(AllOwners(existing), HostOnly(newPeer), specs), AllOwners(existing), HostOnly(newPeer),
      specs, i);
    var f := OwnersOfTunnels(existing, a);
  }

  lemma GroupServes(specs: seq<string>, newPeer: string, existing: seq<Tunnel>, written: seq<SharedTunnel>, e: nat)
    requires Ready(specs, newPeer, existing) && e < |existing|
    requires var shares := PlanAll(AllOwners(existing), HostOnly(newPeer), specs).shares;
      && (forall g :: 0 <= g < |written| ==> Prepared(written[g], shares, |shares|))
      && (forall n :: 0 <= n < |shares| ==> Covers(written, shares[n].tunnel.name))
    ensures Served(existing[e], written, HostOnly(newPeer), specs)
  {
    hide Expand, HostOnly, AllOwners, PlanAll, Ready, ServesAll, Rewritten;
    var shares := PlanAll(AllOwners(existing), HostOnly(newPeer), specs).shares;
    var t := existing[e];
    RewrittenServes(specs, newPeer, existing, e);
    assert shares[..|shares|] == shares;
    forall g | 0 <= g < |written| && written[g].tunnel.name == t.name
      ensures written[g].tunnel == t && ServesAll(t, written[g].ports, HostOnly(newPeer), specs)
    {
      assert Prepared(written[g], shares, |shares|);
      var m :| 0 <= m <= |shares| && m < |shares| && shares[m].tunnel == written[g].tunnel;
      SharesExisting(specs, newPeer, existing, m, e);
    }
    if !Covers(written, t.name) {
      forall j | 0 <= j < |t.ports| ensures Rewritten(t.ports[j], shares, t.name) == t.ports[j] {
        UnnamedStays(shares, t.name, t.ports[j]);
      }
      assert RewrittenPorts(t.ports, shares, t.name) == t.ports;
    }
  }

  /** shareL3PortsQuietly up to the writing: an overlap that cannot be shared writes
      nothing; otherwise each tunnel named is written once, and every existing
      tunnel, written or not, listens where it did with the new backends added. */
  method ShareQuietly(specs: seq<string>, newPeer: string, existing: seq<Tunnel>)
    returns (ok: bool, keep: seq<string>, written: seq<SharedTunnel>)
    ensures var p := PlanAll(AllOwners(existing), HostOnly(newPeer), specs);
      ok == (p.clash == []) && (ok ==> keep == p.keep) && (!ok ==> written == [])
    ensures ok <==> forall n :: 0 <= n < |specs| ==> !IsClash(existing, HostOnly(newPeer), specs[n])
    ensures ok ==> keep == Filter(specs, s => IsFree(existing, HostOnly(newPeer), s))
    ensures forall g, h :: 0 <= g < h < |written| ==> written[g].tunnel.name != written[h].tunnel.name
    ensures ok && Ready(specs, newPeer, existing) ==>
      forall e :: 0 <= e < |existing| ==> Served(existing[e], written, HostOnly(newPeer), specs)
  {
    hide AllOwners, PlanAll, HostOnly, Ready, Served, Prepared, Covers, InOrder, IsFree, IsClash;
    var shares, clash;
    keep, shares, clash := PlanSharing(specs, newPeer, existing);
    FilterNone(specs, s => IsClash(existing, HostOnly(newPeer), s));
    if clash != [] { return false, [], []; }
    ghost var firsts;
    written, firsts := GroupShares(shares);
    ok := true;
    forall e | Ready(specs, newPeer, existing) && 0 <= e < |existing|
      ensures Served(existing[e], written, HostOnly(newPeer), specs)
    {
      GroupServes(specs, newPeer, existing, written, e);
    }
  }
}
