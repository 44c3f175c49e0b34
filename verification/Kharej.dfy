/** The other side of the connection test: the kharej checks every route, reports
    the unreachable ones through the coordinators it can reach, and then measures
    the reachable ones in order. What the network answers, and when the walk is
    cancelled, is a parameter. */
module Kharej {
  import opened Paths

  /** What asking a coordinator for its test comes to. */
  datatype Fetch = Linked | Failed | ToldStopped

  /** How one path's test comes back. */
  datatype Outcome = Completed | Broke | Ended

  datatype Act =
    | Check(path: nat, got: Fetch)
    | Notify(via: nat, path: nat, accepted: bool)
    | Refresh(path: nat, got: Fetch)
    | Measure(path: nat, out: Outcome)

  /** The answers of the network, and whether the t-th look at the context finds
      it cancelled. A route whose address is an error fails its check unasked. */
  datatype Env = Env(
    check: nat -> Fetch,
    refresh: nat -> Fetch,
    measure: nat -> Outcome,
    accepts: (nat, nat, nat) -> bool,
    cancelled: nat -> bool)

  datatype Ending = Finished | Halted | NoneReachable | NoneCompleted

  // ---- what the network makes of it ----

  /** The state path k ends in when nobody stops the walk. */
  function Settled(env: Env, k: nat): PathState
  {
    if !env.check(k).Linked? then Unavailable
    else if k > 0 && !env.refresh(k).Linked? then Unavailable
    else if env.measure(k).Completed? then Done
    else Unavailable
  }

  /** The act says what the network answered. */
  ghost predicate Honest(env: Env, act: Act)
  {
    match act
    case Check(k, got) => got == env.check(k)
    case Refresh(k, got) => got == env.refresh(k)
    case Measure(k, out) => out == env.measure(k)
    case Notify(via, k, accepted) => accepted == env.accepts(via, k, 0) || accepted == env.accepts(via, k, 1)
  }

  /** No look so far found the walk cancelled. */
  ghost predicate Quiet(env: Env, looks: nat) { forall t :: 0 <= t < looks ==> !env.cancelled(t) }

  /** A coordinator has said that the test is over. */
  predicate Stops(act: Act)
  {
    match act
    case Check(_, got) => got.ToldStopped?
    case Refresh(_, got) => got.ToldStopped?
    case Measure(_, out) => out.Ended?
    case _ => false
  }

  // ---- when the walk looks at its context ----

  /** How many of the first looks found the walk going on. */
  function Clear(env: Env, looks: nat): nat
  {
    if looks == 0 then 0 else Clear(env, looks - 1) + if env.cancelled(looks - 1) then 0 else 1
  }

  /** The looks that go with an act: one before each report, one when an answer was
      an error, one after a route's check and after its measurement. */
  function Weight(act: Act): nat
  {
    match act
    case Check(_, got) => if got.Linked? then 1 else if got.Failed? then 2 else 0
    case Notify(_, _, _) => 1
    case Refresh(_, got) => if got.Failed? then 1 else 0
    case Measure(_, out) => if out.Completed? then 1 else if out.Broke? then 2 else 0
  }

  function Due(acts: seq<Act>): nat
  {
    if acts == [] then 0 else Due(acts[..|acts| - 1]) + Weight(acts[|acts| - 1])
  }

  function Tally(acts: seq<Act>, p: Act -> bool): nat
  {
    if acts == [] then 0 else Tally(acts[..|acts| - 1], p) + if p(acts[|acts| - 1]) then 1 else 0
  }

  /** In all: one look for every answered check, report and completed measurement, two
      for every check and measurement that came to an error, one for an error when a
      route was asked again, and none for a stop. */
  lemma {:induction false} DueMeans(acts: seq<Act>)
    ensures Due(acts) ==
      Tally(acts, (a: Act) => a.Check? && a.got.Linked?) + Tally(acts, (a: Act) => a.Notify?)
      + Tally(acts, (a: Act) => a.Measure? && a.out.Completed?) + Tally(acts, (a: Act) => a.Refresh? && a.got.Failed?)
      + 2 * Tally(acts, (a: Act) => a.Check? && a.got.Failed?) + 2 * Tally(acts, (a: Act) => a.Measure? && a.out.Broke?)
  {
    if acts != [] { DueMeans(acts[..|acts| - 1]); }
  }

  /** The acts call for exactly the looks that found the walk going on, but for
      those still owed; while no path is unreachable, nothing else was looked at:
      only a report is given up on a look and the walk goes on. */
  ghost predicate Kept(env: Env, paths: seq<PathState>, acts: seq<Act>, looks: nat, owed: nat)
  {
    && Clear(env, looks) + owed == Due(acts)
    && ((forall k :: 0 <= k < |paths| ==> !paths[k].Unavailable?) ==> Quiet(env, looks))
  }

  /** What the walk was doing last is what cut it short: an answer that the test is
      over, or the very look due next, which found it cancelled. */
  ghost predicate CutShort(env: Env, paths: seq<PathState>, acts: seq<Act>, looks: nat)
  {
    || (acts != [] && Stops(acts[|acts| - 1]) && Kept(env, paths, acts, looks, 0))
    || (looks > 0 && env.cancelled(looks - 1) && Kept(env, paths, acts, looks - 1, 1))
    || (looks > 0 && env.cancelled(looks - 1) && acts != [] && Weight(acts[|acts| - 1]) == 2
        && Kept(env, paths, acts, looks - 1, 2))
  }

  lemma KeptAtFirst(env: Env, n: nat)
    ensures Kept(env, seq(n, _ => Waiting), [], 0, 0)
  {
  }

  /** One more act, and the looks it calls for. */
  lemma KeptAct(env: Env, paths: seq<PathState>, acts: seq<Act>, looks: nat, act: Act, paths': seq<PathState>)
    requires Kept(env, paths, acts, looks, 0) && |paths'| == |paths|
    requires forall k :: 0 <= k < |paths| && paths[k].Unavailable? ==> paths'[k].Unavailable?
    ensures Kept(env, paths', acts + [act], looks, Weight(act))
  {
    assert (acts + [act])[..|acts|] == acts;
  }

  lemma KeptLook(env: Env, paths: seq<PathState>, acts: seq<Act>, looks: nat, owed: nat)
    requires Kept(env, paths, acts, looks, owed) && owed > 0 && !env.cancelled(looks)
    ensures Kept(env, paths, acts, looks + 1, owed - 1)
  {
  }

  /** Reports, each after a look, and looks at which a report was given up. */
  lemma KeptTold(env: Env, paths: seq<PathState>, acts: seq<Act>, looks: nat, owed: nat,
                 asked: seq<Act>, looks': nat, i: nat)
    requires Kept(env, paths, acts, looks, owed) && i < |paths| && paths[i].Unavailable?
    requires forall a :: 0 <= a < |asked| ==> asked[a].Notify?
    requires Clear(env, looks') == Clear(env, looks) + |asked|
    ensures Kept(env, paths, acts + asked, looks', owed)
  {
    DueOfReports(acts, asked);
  }

  lemma {:induction false} DueOfReports(acts: seq<Act>, asked: seq<Act>)
    requires forall a :: 0 <= a < |asked| ==> asked[a].Notify?
    ensures Due(acts + asked) == Due(acts) + |asked|
    decreases |asked|
  {
    if asked == [] {
      assert acts + asked == acts;
    } else {
      var front := asked[..|asked| - 1];
      DueOfReports(acts, front);
      assert (acts + asked)[..|acts + asked| - 1] == acts + front;
    }
  }

  // ---- what a walk may do ----

  /** A path reported as unreachable is not measured afterwards. */
  ghost predicate ReportedIsFinal(acts: seq<Act>)
  {
    forall a, b :: 0 <= a < b < |acts| && acts[a].Notify? && acts[b].Measure? ==> acts[a].path != acts[b].path
  }

  /** Paths are measured once each, in order. */
  ghost predicate InOrder(acts: seq<Act>)
  {
    forall a, b :: 0 <= a < b < |acts| && acts[a].Measure? && acts[b].Measure? ==> acts[a].path < acts[b].path
  }

  /** Only a path whose coordinator answered its check is measured, after any but
      the first was asked again, and only such a coordinator is told about another.
      The first is not asked again. */
  ghost predicate OnlyReached(acts: seq<Act>)
  {
    && (forall b :: 0 <= b < |acts| && acts[b].Measure? ==>
          Check(acts[b].path, Linked) in acts[..b] && (acts[b].path > 0 ==> Refresh(acts[b].path, Linked) in acts[..b]))
    && (forall b :: 0 <= b < |acts| && acts[b].Notify? ==>
        Check(acts[b].via, Linked) in acts[..b] && acts[b].via != acts[b].path)
    && (forall b :: 0 <= b < |acts| && acts[b].Refresh? ==>
        acts[b].path > 0 && Check(acts[b].path, Linked) in acts[..b])
  }

  ghost predicate Proper(acts: seq<Act>) { ReportedIsFinal(acts) && InOrder(acts) && OnlyReached(acts) }

  lemma ProperSnoc(acts: seq<Act>, act: Act)
    requires Proper(acts)
    requires act.Measure? ==>
      && Check(act.path, Linked) in acts && (act.path > 0 ==> Refresh(act.path, Linked) in acts)
      && (forall a :: 0 <= a < |acts| && acts[a].Notify? ==> acts[a].path != act.path)
      && (forall a :: 0 <= a < |acts| && acts[a].Measure? ==> acts[a].path < act.path)
    requires act.Notify? ==> Check(act.via, Linked) in acts && act.via != act.path
    requires act.Refresh? ==> act.path > 0 && Check(act.path, Linked) in acts
    ensures Proper(acts + [act])
  {
    hide OnlyReached;
    ReachedSnoc(acts, act);
  }

  lemma ReachedSnoc(acts: seq<Act>, act: Act)
    requires OnlyReached(acts)
    requires act.Measure? ==> Check(act.path, Linked) in acts && (act.path > 0 ==> Refresh(act.path, Linked) in acts)
    requires act.Notify? ==> Check(act.via, Linked) in acts && act.via != act.path
    requires act.Refresh? ==> act.path > 0 && Check(act.path, Linked) in acts
    ensures OnlyReached(acts + [act])
  {
    var all := acts + [act];
    forall b | 0 <= b < |acts| ensures all[..b] == acts[..b] {}
    assert all[..|acts|] == acts;
  }

  // ---- the state between two acts ----

  ghost predicate Sound(env: Env, paths: seq<PathState>, linked: seq<bool>, acts: seq<Act>)
  {
    && |paths| == |linked| && Proper(acts)
    && (forall a :: 0 <= a < |acts| ==> Honest(env, acts[a]))
    && (forall k :: 0 <= k < |paths| ==> !paths[k].Running?)
    && (forall k :: 0 <= k < |linked| && linked[k] ==> Check(k, Linked) in acts)
    && (forall a :: 0 <= a < |acts| && acts[a].Notify? ==> acts[a].path < |paths| && paths[acts[a].path].Unavailable?)
    && (forall k: nat :: k < |paths| ==> (paths[k].Done? <==> Measure(k, Completed) in acts))
    && (forall a :: 0 <= a < |acts| && acts[a].Measure? ==> acts[a].path < |paths|)
  }

  lemma SoundAtFirst(env: Env, n: nat)
    ensures Sound(env, seq(n, _ => Waiting), seq(n, _ => false), [])
  {
  }

  lemma SoundSays(env: Env, paths: seq<PathState>, linked: seq<bool>, acts: seq<Act>)
    requires Sound(env, paths, linked, acts)
    ensures Proper(acts) && forall a :: 0 <= a < |acts| ==> Honest(env, acts[a])
    ensures forall k :: 0 <= k < |paths| ==> !paths[k].Running? && (paths[k].Done? <==> Measure(k, Completed) in acts)
  {
    hide Proper, Honest;
  }

  lemma Checks(env: Env, paths: seq<PathState>, linked: seq<bool>, acts: seq<Act>, i: nat, to: PathState)
    requires Sound(env, paths, linked, acts) && i < |paths| && paths[i].Waiting? && !linked[i]
    requires forall a :: 0 <= a < |acts| ==> acts[a].Check?
    requires !to.Running? && !to.Done?
    ensures Sound(env, paths[i := to], linked[i := env.check(i).Linked?], acts + [Check(i, env.check(i))])
  {
    hide Proper;
    ProperSnoc(acts, Check(i, env.check(i)));
  }

  lemma Settles(env: Env, paths: seq<PathState>, linked: seq<bool>, acts: seq<Act>, i: nat, to: PathState)
    requires Sound(env, paths, linked, acts) && i < |paths| && paths[i].Waiting? && linked[i]
    requires i > 0 ==> Refresh(i, Linked) in acts
    requires forall a :: 0 <= a < |acts| && acts[a].Measure? ==> acts[a].path < i
    requires !to.Running? && (to.Done? <==> env.measure(i).Completed?)
    ensures Sound(env, paths[i := to], linked, acts + [Measure(i, env.measure(i))])
  {
    hide Honest, Proper;
    Truthful(env, i);
    MeasureIsProper(env, paths, linked, acts, i);
    assert Measure(i, Completed) !in acts;
  }

  lemma MeasureIsProper(env: Env, paths: seq<PathState>, linked: seq<bool>, acts: seq<Act>, i: nat)
    requires Sound(env, paths, linked, acts) && i < |paths| && paths[i].Waiting? && linked[i]
    requires i > 0 ==> Refresh(i, Linked) in acts
    requires forall a :: 0 <= a < |acts| && acts[a].Measure? ==> acts[a].path < i
    ensures Proper(acts + [Measure(i, env.measure(i))])
  {
    hide Honest, Proper;
    ProperSnoc(acts, Measure(i, env.measure(i)));
  }

  lemma Truthful(env: Env, i: nat)
    ensures Honest(env, Measure(i, env.measure(i))) && Honest(env, Refresh(i, env.refresh(i)))
  {
  }

  lemma Refreshes(env: Env, paths: seq<PathState>, linked: seq<bool>, acts: seq<Act>, i: nat, to: PathState)
    requires Sound(env, paths, linked, acts) && 0 < i < |paths| && paths[i].Waiting? && linked[i]
    requires to.Unavailable? || to.Stopped? || to.Waiting?
    ensures Sound(env, paths[i := to], linked, acts + [Refresh(i, env.refresh(i))])
  {
    hide Proper, Honest;
    Truthful(env, i);
    ProperSnoc(acts, Refresh(i, env.refresh(i)));
  }

  // ---- reports ----

  predicate CanTell(paths: seq<PathState>, linked: seq<bool>, index: nat, j: nat)
    requires |paths| == |linked|
  {
    j < |linked| && linked[j] && j != index && !paths[j].Done?
  }

  /** Coordinator j was asked twice about the path and accepted neither time. */
  ghost predicate AskedTwice(asked: seq<Act>, j: nat, index: nat)
  {
    exists a :: 0 < a < |asked| && asked[a - 1] == asked[a] == Notify(j, index, false)
  }

  ghost predicate Accepted(acts: seq<Act>, index: nat)
  {
    exists a :: 0 <= a < |acts| && acts[a].Notify? && acts[a].path == index && acts[a].accepted
  }

  /** Asked twice, as often as the source asks, and it would accept neither time. */
  ghost predicate Refused(env: Env, acts: seq<Act>, j: nat, index: nat)
  {
    AskedTwice(acts, j, index) && !env.accepts(j, index, 0) && !env.accepts(j, index, 1)
  }

  /** The path was reported: somebody took the report, or everybody who could have
      was asked twice and refused. */
  ghost predicate Reported(env: Env, acts: seq<Act>, paths: seq<PathState>, index: nat)
  {
    || Accepted(acts, index)
    || forall j: nat :: j < |paths| && env.check(j).Linked? && j != index && !paths[j].Done? ==>
        Refused(env, acts, j, index)
  }

  ghost predicate AllReported(env: Env, acts: seq<Act>, paths: seq<PathState>)
  {
    forall k :: 0 <= k < |paths| && paths[k].Unavailable? ==> Reported(env, acts, paths, k)
  }

  lemma ReportStands(env: Env, acts: seq<Act>, paths: seq<PathState>, acts': seq<Act>, paths': seq<PathState>,
                     index: nat)
    requires Reported(env, acts, paths, index) && acts <= acts' && |paths| == |paths'|
    requires forall k :: 0 <= k < |paths| && paths[k].Done? ==> paths'[k].Done?
    ensures Reported(env, acts', paths', index)
  {
    if Accepted(acts, index) {
      var a :| 0 <= a < |acts| && acts[a].Notify? && acts[a].path == index && acts[a].accepted;
      assert acts'[a] == acts[a];
    } else {
      forall j: nat | j < |paths'| && env.check(j).Linked? && j != index && !paths'[j].Done?
        ensures Refused(env, acts', j, index)
      {
        assert Refused(env, acts, j, index);
        StaysAsked(acts, acts', j, index);
      }
    }
  }

  lemma StaysAsked(before: seq<Act>, asked: seq<Act>, k: nat, index: nat)
    requires before <= asked && AskedTwice(before, k, index)
    ensures AskedTwice(asked, k, index)
  {
    var a :| 0 < a < |before| && before[a - 1] == before[a] == Notify(k, index, false);
    assert asked[a - 1] == asked[a] == Notify(k, index, false);
  }

  /** Reports stand when more is done and no path that needs one is added. */
  lemma ReportsStand(env: Env, acts: seq<Act>, paths: seq<PathState>, acts': seq<Act>, paths': seq<PathState>)
    requires AllReported(env, acts, paths) && acts <= acts' && |paths| == |paths'|
    requires forall k :: 0 <= k < |paths| && paths[k].Done? ==> paths'[k].Done?
    requires forall k :: 0 <= k < |paths| && paths'[k].Unavailable? ==> paths[k].Unavailable?
    ensures AllReported(env, acts', paths')
  {
    hide Reported;
    forall k | 0 <= k < |paths'| && paths'[k].Unavailable? ensures Reported(env, acts', paths', k) {
      ReportStands(env, acts, paths, acts', paths', k);
    }
  }

  // ---- the walk ----

  /** The first loop: every route is asked before any is joined. */
  method CheckAll(env: Env, n: nat)
    returns (paths: seq<PathState>, linked: seq<bool>, halted: bool, acts: seq<Act>, looks: nat)
    ensures |paths| == |linked| == n && Sound(env, paths, linked, acts)
    ensures forall a :: 0 <= a < |acts| ==> acts[a].Check?
    ensures forall k :: 0 <= k < n ==>
        paths[k].Waiting? || (paths[k].Unavailable? && !env.check(k).Linked?) || (halted && paths[k].Stopped?)
    ensures !halted ==> forall k :: 0 <= k < n ==>
      linked[k] == env.check(k).Linked? && paths[k] == if env.check(k).Linked? then Waiting else Unavailable
    ensures if halted then CutShort(env, paths, acts, looks) && (looks > 0 ==> Quiet(env, looks - 1))
        else Quiet(env, looks) && |acts| == n && Kept(env, paths, acts, looks, 0)
    ensures looks <= 2 * |acts| <= 2 * n
  {
    hide Proper, Honest, Kept;
    paths, linked, acts, looks := seq(n, _ => Waiting), seq(n, _ => false), [], 0;
    SoundAtFirst(env, n);
    KeptAtFirst(env, n);
    for i := 0 to n
      invariant |paths| == n && Sound(env, paths, linked, acts)
      invariant forall a :: 0 <= a < |acts| ==> acts[a].Check?
      invariant forall k :: 0 <= k < i ==>
          linked[k] == env.check(k).Linked? && paths[k] == if env.check(k).Linked? then Waiting else Unavailable
      invariant forall k :: i <= k < n ==> paths[k].Waiting? && !linked[k]
      invariant |acts| == i && looks <= 2 * i && Quiet(env, looks) && Kept(env, paths, acts, looks, 0)
    {
      var got := env.check(i);
      var stopping := got.ToldStopped?;
      ghost var before := looks;
      if got.Failed? {
        stopping := env.cancelled(looks);
        looks := looks + 1;
      }
      var to := if got.Linked? then Waiting else if stopping then Stopped else Unavailable;
      Checks(env, paths, linked, acts, i, to);
      KeptAct(env, paths, acts, before, Check(i, got), paths[i := to]);
      if got.Failed? && !stopping { KeptLook(env, paths[i := to], acts + [Check(i, got)], before, 2); }
      acts := acts + [Check(i, got)];
      linked := linked[i := got.Linked?];
      paths := paths[i := to];
      if stopping { return paths, linked, true, acts, looks; }
      if env.cancelled(looks) { return paths, linked, true, acts, looks + 1; }
      KeptLook(env, paths, acts, looks, 1);
      looks := looks + 1;
    }
    halted := false;
  }

  /** notify: through the coordinators that answered and are not done, each asked
      up to twice, until one accepts. */
  method Tell(env: Env, paths: seq<PathState>, linked: seq<bool>, index: nat, first: nat)
    returns (asked: seq<Act>, looks: nat)
    requires |paths| == |linked|
    ensures first <= looks <= first + 2 * |linked| && Clear(env, looks) == Clear(env, first) + |asked|
    ensures forall a :: 0 <= a < |asked| ==>
        asked[a].Notify? && asked[a].path == index && CanTell(paths, linked, index, asked[a].via)
    ensures forall a :: 0 <= a < |asked| ==> Honest(env, asked[a])
    ensures forall a :: 0 <= a < |asked| - 1 ==> !asked[a].accepted
    ensures Quiet(env, looks) ==>
      Accepted(asked, index) || forall j: nat :: CanTell(paths, linked, index, j) ==> Refused(env, asked, j, index)
  {
    asked, looks := [], first;
    for j := 0 to |linked|
      invariant first <= looks <= first + 2 * j && Clear(env, looks) == Clear(env, first) + |asked|
      invariant forall a :: 0 <= a < |asked| ==>
          asked[a].Notify? && asked[a].path == index && CanTell(paths, linked, index, asked[a].via)
      invariant forall a :: 0 <= a < |asked| ==> !asked[a].accepted && Honest(env, asked[a])
      invariant Quiet(env, looks) ==> forall k: nat :: k < j && CanTell(paths, linked, index, k) ==>
          Refused(env, asked, k, index)
    {
      if !linked[j] || j == index || paths[j].Done? { continue; }
      var more, done;
      more, looks, done := AskOne(env, j, index, looks);
      ghost var before := asked;
      asked := asked + more;
      if done {
        assert asked[|asked| - 1] == more[|more| - 1];
        return;
      }
      forall k: nat | k < j && Refused(env, before, k, index)
        ensures Refused(env, asked, k, index)
      {
        StaysAsked(before, asked, k, index);
      }
      if AskedTwice(more, j, index) { AskedLast(before, more, j, index); }
    }
  }

  lemma AskedLast(before: seq<Act>, more: seq<Act>, j: nat, index: nat)
    requires AskedTwice(more, j, index)
    ensures AskedTwice(before + more, j, index)
  {
    var a :| 0 < a < |more| && more[a - 1] == more[a] == Notify(j, index, false);
    var b := |before| + a;
    assert (before + more)[b - 1] == (before + more)[b] == Notify(j, index, false);
  }

  /** The two attempts at one coordinator. */
  method AskOne(env: Env, j: nat, index: nat, first: nat) returns (asked: seq<Act>, looks: nat, done: bool)
    ensures first < looks <= first + 2 && Clear(env, looks) == Clear(env, first) + |asked|
    ensures forall a :: 0 <= a < |asked| ==>
        asked[a].Notify? && asked[a].path == index && asked[a].via == j && Honest(env, asked[a])
    ensures forall a :: 0 <= a < |asked| ==> (asked[a].accepted <==> done && a == |asked| - 1)
    ensures done ==> asked != []
    ensures !done && Quiet(env, looks) ==> Refused(env, asked, j, index)
  {
    asked, looks, done := [], first, false;
    if env.cancelled(looks) { return asked, looks + 1, false; }
    var accepted := env.accepts(j, index, 0);
    asked, looks := [Notify(j, index, accepted)], looks + 1;
    if accepted { return asked, looks, true; }
    if env.cancelled(looks) { return asked, looks + 1, false; }
    accepted := env.accepts(j, index, 1);
    asked, looks := asked + [Notify(j, index, accepted)], looks + 1;
    if accepted { return asked, looks, true; }
    assert asked[0] == asked[1] == Notify(j, index, false);
    done := false;
  }

  /** Reports about an unreachable path leave the state sound. */
  lemma {:induction false} TellingIsSound(env: Env, paths: seq<PathState>, linked: seq<bool>, acts: seq<Act>,
                                          asked: seq<Act>, index: nat)
    requires Sound(env, paths, linked, acts) && index < |paths| && paths[index].Unavailable?
    requires forall a :: 0 <= a < |asked| ==>
        asked[a].Notify? && asked[a].path == index && CanTell(paths, linked, index, asked[a].via)
    requires forall a :: 0 <= a < |asked| ==> Honest(env, asked[a])
    ensures Sound(env, paths, linked, acts + asked)
    decreases |asked|
  {
    hide Honest, Proper;
    if asked == [] {
      assert acts + asked == acts;
    } else {
      var front, last := asked[..|asked| - 1], asked[|asked| - 1];
      TellingIsSound(env, paths, linked, acts, front, index);
      assert asked[|asked| - 1] == last && linked[last.via];
      assert Check(last.via, Linked) in acts + front;
      ProperSnoc(acts + front, last);
      assert acts + asked == acts + front + [last];
    }
  }

  /** What Tell comes back with makes the path a reported one. */
  lemma TellingReports(env: Env, paths: seq<PathState>, linked: seq<bool>, acts: seq<Act>, asked: seq<Act>, index: nat)
    requires |paths| == |linked| && forall k :: 0 <= k < |linked| ==> linked[k] == env.check(k).Linked?
    requires Accepted(asked, index) || forall j: nat :: CanTell(paths, linked, index, j) ==>
        Refused(env, asked, j, index)
    ensures Reported(env, acts + asked, paths, index)
  {
    if Accepted(asked, index) {
      var a :| 0 <= a < |asked| && asked[a].Notify? && asked[a].path == index && asked[a].accepted;
      assert (acts + asked)[|acts| + a] == asked[a];
    } else {
      forall j: nat | j < |paths| && env.check(j).Linked? && j != index && !paths[j].Done?
        ensures Refused(env, acts + asked, j, index)
      {
        assert CanTell(paths, linked, index, j);
        AskedLast(acts, asked, j, index);
      }
    }
  }

  /** The second loop: what was found unreachable is reported. */
  method TellAll(env: Env, paths: seq<PathState>, linked: seq<bool>, acts: seq<Act>, first: nat)
    returns (more: seq<Act>, looks: nat, available: nat)
    requires Sound(env, paths, linked, acts) && forall k :: 0 <= k < |linked| ==> linked[k] == env.check(k).Linked?
    requires forall a :: 0 <= a < |acts| ==> !acts[a].Measure?
    requires Kept(env, paths, acts, first, 0)
    ensures Kept(env, paths, more, looks, 0)
    ensures Sound(env, paths, linked, more) && forall a :: 0 <= a < |more| ==> !more[a].Measure?
    ensures first <= looks <= first + 2 * |linked| * |linked| && acts <= more
    ensures Quiet(env, looks) ==> AllReported(env, more, paths)
    ensures available == 0 <==> forall k :: 0 <= k < |paths| ==> paths[k].Unavailable?
  {
    hide Sound, Reported, Honest, CanTell, Kept, Clear;
    more, looks, available := acts, first, 0;
    assert |paths| == |linked| by { SoundLengths(env, paths, linked, acts); }
    var most := 2 * |linked|;
    for i := 0 to |paths|
      invariant Sound(env, paths, linked, more) && forall a :: 0 <= a < |more| ==> !more[a].Measure?
      invariant first <= looks <= first + most * i && acts <= more && Kept(env, paths, more, looks, 0)
      invariant Quiet(env, looks) ==> forall k :: 0 <= k < i && paths[k].Unavailable? ==> Reported(env, more, paths, k)
      invariant available == 0 <==> forall k :: 0 <= k < i ==> paths[k].Unavailable?
    {
      assert most * (i + 1) == most * i + most;
      if paths[i].Unavailable? {
        ghost var before, was := more, looks;
        var asked;
        asked, looks := Tell(env, paths, linked, i, looks);
        TellingIsSound(env, paths, linked, more, asked, i);
        KeptTold(env, paths, more, was, 0, asked, looks, i);
        more := more + asked;
        if Quiet(env, looks) {
          TellingReports(env, paths, linked, before, asked, i);
          forall k | 0 <= k < i && paths[k].Unavailable? ensures Reported(env, more, paths, k) {
            ReportStands(env, before, paths, more, paths, k);
          }
        }
      } else {
        available := available + 1;
      }
    }
  }

  lemma SoundLengths(env: Env, paths: seq<PathState>, linked: seq<bool>, acts: seq<Act>)
    requires Sound(env, paths, linked, acts)
    ensures |paths| == |linked|
  {
  }

  /** Giving up on path i after the others' reports: it is told, and all stand. */
  method GiveUp(env: Env, paths: seq<PathState>, linked: seq<bool>, acts: seq<Act>, i: nat, first: nat,
                ghost was: seq<PathState>, ghost before: seq<Act>, ghost owed: nat)
    returns (more: seq<Act>, looks: nat)
    requires Sound(env, paths, linked, acts) && forall k :: 0 <= k < |linked| ==> linked[k] == env.check(k).Linked?
    requires i < |paths| && |was| == |paths| && paths == was[i := Unavailable] && !was[i].Done? && before <= acts
    requires Quiet(env, first) ==> AllReported(env, before, was)
    requires Kept(env, paths, acts, first, owed)
    ensures Sound(env, paths, linked, more) && acts <= more && Kept(env, paths, more, looks, owed)
    ensures first <= looks <= first + 2 * |linked| && (Quiet(env, looks) ==> AllReported(env, more, paths))
    ensures forall a :: |acts| <= a < |more| ==> more[a].Notify?
  {
    hide Sound, Reported, Honest, Kept, Clear;
    SoundLengths(env, paths, linked, acts);
    var asked;
    asked, looks := Tell(env, paths, linked, i, first);
    TellingIsSound(env, paths, linked, acts, asked, i);
    KeptTold(env, paths, acts, first, owed, asked, looks, i);
    more := acts + asked;
    if Quiet(env, looks) {
      TellingReports(env, paths, linked, acts, asked, i);
      forall k | 0 <= k < |paths| && paths[k].Unavailable? ensures Reported(env, more, paths, k) {
        if k != i { ReportStands(env, before, was, more, paths, k); }
      }
    }
  }

  /** The body of the last loop for a path whose coordinator answered its check:
      it is asked again, measured, and given up if either comes to nothing. */
  method Visit(env: Env, start: seq<PathState>, linked: seq<bool>, done: seq<Act>, i: nat, first: nat)
    returns (paths: seq<PathState>, acts: seq<Act>, looks: nat, halted: bool, measured: bool)
    requires Sound(env, start, linked, done) && |start| == |linked| && forall k :: 0 <= k < |linked| ==>
        linked[k] == env.check(k).Linked?
    requires i < |start| && start[i].Waiting? && linked[i] && (Quiet(env, first) ==> AllReported(env, done, start))
    requires forall a :: 0 <= a < |done| && done[a].Measure? ==> done[a].path < i
    requires Kept(env, start, done, first, 0)
    ensures |paths| == |start| && (forall k :: 0 <= k < |paths| && k != i ==> paths[k] == start[k]) &&
        Sound(env, paths, linked, acts)
    ensures first <= looks <= first + 2 * |linked| + 2 && |acts| > |done|
    ensures forall a :: 0 <= a < |acts| && acts[a].Measure? ==> acts[a].path <= i
    ensures measured <==> i == 0 || env.refresh(i).Linked?
    ensures halted ==> paths[i].Stopped? && CutShort(env, paths, acts, looks)
    ensures !halted ==> paths[i] == Settled(env, i) && (Quiet(env, looks) ==> AllReported(env, acts, paths))
    ensures !halted ==> Kept(env, paths, acts, looks, if measured then 1 else 0)
  {
    hide Sound, Proper, Honest, Reported, AllReported, Kept, Clear;
    paths, acts, looks := start, done, first;
    if i > 0 {
      var got := env.refresh(i);
      var stopping := got.ToldStopped?;
      if got.Failed? {
        stopping := env.cancelled(looks);
        looks := looks + 1;
      }
      var to := if got.Linked? then Waiting else if stopping then Stopped else Unavailable;
      Refreshes(env, paths, linked, acts, i, to);
      KeptAct(env, paths, acts, first, Refresh(i, got), paths[i := to]);
      if got.Failed? && !stopping { KeptLook(env, paths[i := to], acts + [Refresh(i, got)], first, 1); }
      acts := acts + [Refresh(i, got)];
      paths := paths[i := to];
      if stopping { return paths, acts, looks, true, false; }
      if !got.Linked? {
        acts, looks := GiveUp(env, paths, linked, acts, i, looks, start, done, 0);
        return paths, acts, looks, false, false;
      }
      assert acts[|acts| - 1] == Refresh(i, Linked);
      assert paths == start;
    }
    var out := env.measure(i);
    var stopping := out.Ended?;
    ghost var before := looks;
    if out.Broke? {
      stopping := env.cancelled(looks);
      looks := looks + 1;
    }
    var to := if out.Completed? then Done else if stopping then Stopped else Unavailable;
    Settles(env, paths, linked, acts, i, to);
    KeptAct(env, paths, acts, before, Measure(i, out), paths[i := to]);
    if out.Broke? && !stopping { KeptLook(env, paths[i := to], acts + [Measure(i, out)], before, 2); }
    acts := acts + [Measure(i, out)];
    paths := paths[i := to];
    if stopping { return paths, acts, looks, true, true; }
    if out.Completed? {
      if Quiet(env, looks) { ReportsStand(env, done, start, acts, paths); }
    } else {
      acts, looks := GiveUp(env, paths, linked, acts, i, looks, start, done, 1);
    }
    halted, measured := false, true;
  }

  /** So many looks at most, for so many acts and on so many routes: whoever cancels
      later cannot have cut the walk short. */
  ghost predicate Bounded(n: nat, acts: nat, looks: nat)
  {
    looks <= (2 * n + 5) * acts && looks <= n * (4 * n + 5)
  }

  /** The same before route i of the last loop. */
  ghost predicate BoundedAt(n: nat, i: nat, acts: nat, looks: nat)
  {
    looks <= (2 * n + 5) * acts && looks <= 2 * n + 2 * n * n + (2 * n + 3) * i
  }

  lemma BoundedByChecks(n: nat, acts: nat, looks: nat)
    requires looks <= 2 * acts <= 2 * n
    ensures Bounded(n, acts, looks)
  {
    assert (2 * n + 3) * acts >= 0;
    assert (2 * n + 5) * acts == 2 * acts + (2 * n + 3) * acts;
    assert n * (4 * n + 5) == 2 * n + n * (4 * n + 3);
  }

  lemma BoundedByReports(n: nat, acts: nat, looks: nat)
    requires looks <= 2 * n + 2 * n * n && n <= acts
    ensures BoundedAt(n, 0, acts, looks)
  {
    assert (2 * n + 5) * (acts - n) >= 0;
    assert (2 * n + 5) * acts == (2 * n + 5) * n + (2 * n + 5) * (acts - n);
    assert (2 * n + 5) * n == 2 * n * n + 5 * n;
  }

  lemma BoundedNext(n: nat, i: nat, acts: nat, looks: nat, acts': nat, looks': nat)
    requires BoundedAt(n, i, acts, looks) && (looks' == looks || acts' > acts) && acts' >= acts &&
        looks' <= looks + 2 * n + 3
    ensures BoundedAt(n, i + 1, acts', looks')
  {
    var most := 2 * n + 5;
    assert (2 * n + 3) * (i + 1) == (2 * n + 3) * i + (2 * n + 3);
    assert most * (acts' - acts) >= 0 && (acts' > acts ==> most * (acts' - acts) >= most) by {
      if acts' > acts { MoreOf(most, acts' - acts); }
    }
    assert most * acts' == most * acts + most * (acts' - acts) by { Split(most, acts, acts' - acts); }
  }

  lemma MoreOf(most: nat, times: nat)
    requires times > 0
    ensures most * times >= most
  {
  }

  lemma Split(most: nat, a: nat, b: nat)
    ensures most * (a + b) == most * a + most * b
  {
  }

  lemma BoundedInAll(n: nat, i: nat, acts: nat, looks: nat)
    requires BoundedAt(n, i, acts, looks) && i <= n
    ensures Bounded(n, acts, looks)
  {
    Split(2 * n + 3, i, n - i);
    assert (2 * n + 3) * (n - i) >= 0;
    assert n * (4 * n + 5) == 4 * (n * n) + 5 * n;
    assert (2 * n + 3) * n == 2 * (n * n) + 3 * n;
  }

  lemma CancelledCuts(env: Env, paths: seq<PathState>, acts: seq<Act>, looks: nat)
    requires env.cancelled(looks) && Kept(env, paths, acts, looks, 1)
    ensures CutShort(env, paths, acts, looks + 1)
  {
  }

  /** The last loop, over every path whose coordinator answered. */
  method MeasureAll(env: Env, start: seq<PathState>, linked: seq<bool>, told: seq<Act>, first: nat)
    returns (paths: seq<PathState>, acts: seq<Act>, looks: nat, halted: bool, completed: nat)
    requires Sound(env, start, linked, told) && |start| == |linked|
    requires forall k :: 0 <= k < |start| ==>
      linked[k] == env.check(k).Linked? && start[k] == if env.check(k).Linked? then Waiting else Unavailable
    requires BoundedAt(|start|, 0, |told|, first) && (Quiet(env, first) ==> AllReported(env, told, start))
    requires forall a :: 0 <= a < |told| ==> !told[a].Measure?
    requires Kept(env, start, told, first, 0)
    ensures |paths| == |start| && Sound(env, paths, linked, acts) && Bounded(|start|, |acts|, looks)
    ensures forall k :: 0 <= k < |paths| ==>
        paths[k].Waiting? || (halted && paths[k].Stopped?) || paths[k] == Settled(env, k)
    ensures if halted then CutShort(env, paths, acts, looks) else Kept(env, paths, acts, looks, 0)
    ensures !halted ==> forall k :: 0 <= k < |paths| ==> paths[k] == Settled(env, k)
    ensures !halted && Quiet(env, looks) ==> AllReported(env, acts, paths)
    ensures !halted && completed == 0 ==> forall k :: 0 <= k < |paths| ==> paths[k].Unavailable?
    ensures !halted && completed > 0 ==> exists k :: 0 <= k < |paths| && paths[k].Done?
  {
    hide Sound, Proper, Honest, Reported, AllReported, Bounded, BoundedAt, CutShort, Quiet, Kept;
    var n := |start|;
    paths, acts, looks, halted, completed := start, told, first, false, 0;
    ghost var winner := 0;
    for i := 0 to n
      invariant |paths| == n && Sound(env, paths, linked, acts)
      invariant BoundedAt(n, i, |acts|, looks)
      invariant Quiet(env, looks) ==> AllReported(env, acts, paths)
      invariant forall k :: 0 <= k < i ==> paths[k] == Settled(env, k)
      invariant forall k :: i <= k < n ==> paths[k] == if env.check(k).Linked? then Waiting else Unavailable
      invariant forall a :: 0 <= a < |acts| && acts[a].Measure? ==> acts[a].path < i
      invariant completed == 0 ==> forall k :: 0 <= k < i ==> paths[k].Unavailable?
      invariant completed > 0 ==> winner < i && paths[winner].Done?
      invariant !halted && Kept(env, paths, acts, looks, 0)
    {
      ghost var was, before := looks, |acts|;
      BoundedNext(n, i, |acts|, looks, |acts|, looks);
      if paths[i].Unavailable? { continue; }
      var measured;
      paths, acts, looks, halted, measured := Visit(env, paths, linked, acts, i, looks);
      BoundedNext(n, i, before, was, |acts|, looks);
      BoundedInAll(n, i + 1, |acts|, looks);
      if halted { return; }
      if !measured { continue; }
      if paths[i].Done? {
        completed := completed + 1;
        winner := i;
      }
      BoundedNext(n, i, before, was, |acts|, looks + 1);
      BoundedInAll(n, i + 1, |acts|, looks + 1);
      if env.cancelled(looks) {
        CancelledCuts(env, paths, acts, looks);
        return paths, acts, looks + 1, true, completed;
      }
      KeptLook(env, paths, acts, looks, 1);
      QuietStill(env, looks);
      looks := looks + 1;
    }
    BoundedInAll(n, n, |acts|, looks);
  }

  lemma QuietStill(env: Env, looks: nat)
    requires !env.cancelled(looks)
    ensures Quiet(env, looks + 1) ==> Quiet(env, looks)
  {
  }

  /** runConnTestSuiteKharej. Unless somebody stops it, every path ends in the state
      the network's answers call for, every unreachable one was reported, and the
      result says which of the three cases it is. */
  method Walk(env: Env, n: nat) returns (paths: seq<PathState>, ending: Ending, acts: seq<Act>, looks: nat)
    ensures |paths| == n && Proper(acts) && forall a :: 0 <= a < |acts| ==> Honest(env, acts[a])
    ensures forall k :: 0 <= k < n ==> (paths[k].Done? <==> Measure(k, Completed) in acts)
    ensures forall k :: 0 <= k < n ==> paths[k].Waiting? || paths[k].Stopped? || paths[k] == Settled(env, k)
    ensures if ending.Halted? then CutShort(env, paths, acts, looks) else Kept(env, paths, acts, looks, 0)
    ensures Bounded(n, |acts|, looks)
    ensures !ending.Halted? ==> forall k :: 0 <= k < n ==> paths[k] == Settled(env, k)
    ensures !ending.Halted? && Quiet(env, looks) ==> AllReported(env, acts, paths)
    ensures ending.NoneReachable? ==> forall k :: 0 <= k < n ==> !env.check(k).Linked?
    ensures ending.NoneCompleted? ==> exists k :: 0 <= k < n && env.check(k).Linked?
    ensures ending.NoneCompleted? ==> forall k :: 0 <= k < n ==> paths[k].Unavailable?
    ensures ending.Finished? ==> exists k :: 0 <= k < n && paths[k].Done?
    ensures !ending.Halted? ==> forall k :: 0 <= k < n ==>
        if env.check(k).Linked? && (k == 0 || env.refresh(k).Linked?) && env.measure(k).Completed?
        then paths[k].Done? else paths[k].Unavailable?
  {
    hide Sound, Proper, Honest, Reported, AllReported, Bounded, BoundedAt, CutShort, Quiet, Kept;
    var linked, halted, available, completed;
    paths, linked, halted, acts, looks := CheckAll(env, n);
    SoundSays(env, paths, linked, acts);
    BoundedByChecks(n, |acts|, looks);
    if halted { return paths, Halted, acts, looks; }
    acts, looks, available := TellAll(env, paths, linked, acts, looks);
    BoundedByReports(n, |acts|, looks);
    BoundedInAll(n, 0, |acts|, looks);
    SoundSays(env, paths, linked, acts);
    if available == 0 { return paths, NoneReachable, acts, looks; }
    ghost var reachable :| 0 <= reachable < n && env.check(reachable).Linked?;
    paths, acts, looks, halted, completed := MeasureAll(env, paths, linked, acts, looks);
    SoundSays(env, paths, linked, acts);
    ending := if halted then Halted else if completed == 0 then NoneCompleted else Finished;
  }
}
