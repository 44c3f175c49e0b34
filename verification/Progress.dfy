/** What a connection test does to its paths, seen from the requests and the steps
    that come in: who makes a path unreachable, what a joined path goes through,
    and that every path whose peer says hello can be measured to the end. */
module Progress {
  import opened Text
  import opened Paths
  import opened Suite
  import C = Coordinator
  import Q = Requests

  // ---- requests put to the running suite ----

  /** A request that nothing else gets between is answered as the coordinator alone
      would answer it, and touches no other coordinator and no position. */
  lemma AdmittedIsAnswered(w: World, at: nat, line: string, from: string, rows: string)
    requires Enabled(w, Arrive(at, line, from))
    requires var f := Fields(line); |f| >= 2 && f[1] == w.coords[at].tok && !w.coords[at].stopped
    ensures var f, n, e := Fields(line), |w.calls|, Arrive(at, line, from);
      var w1 := Step(w, e);
      && w1.calls == w.calls + [Admitted(at, f, from)] && Enabled(w1, Serve(n, rows))
      && var w2 := Step(w1, Serve(n, rows));
      && (C.IsHello(f) ==> Enabled(w2, SignalJoin(n)))
      && var w3 := if C.IsHello(f) then Step(w2, SignalJoin(n)) else w2;
      var (paths, accepted) := Report(w, f);
      var (c, reply) := C.Answered(w.coords[at], line, from, rows, accepted);
      w3 == w.(coords := w.coords[at := c], calls := w.calls + [Replying(at, f, reply)],
               paths := paths, changed := w.changed || paths != w.paths)
  {
    hide C.Serve, C.IsHello, C.ReportedPath, Fields, Mark;
    var f := Fields(line);
    var n := |w.calls|;
    var w1 := Step(w, Arrive(at, line, from));
    assert w1.calls[n] == Admitted(at, f, from);
    var w2 := Step(w1, Serve(n, rows));
    assert w1.calls[n := w2.calls[n]] == w.calls + [w2.calls[n]];
    if C.IsHello(f) {
      HelloIsOk(w.coords[at], f, from, rows, Report(w, f).1);
      var w3 := Step(w2, SignalJoin(n));
      assert w3.calls == w.calls + [Replying(at, f, C.Ok)];
      assert w3.coords == w.coords[at := w3.coords[at]];
    }
  }

  lemma HelloIsOk(c: C.Coord, f: C.Request, from: string, rows: string, accepted: bool)
    requires C.IsHello(f)
    ensures C.Serve(c, f, from, rows, accepted).1 == C.Ok
  {
  }

  /** A report is accepted for a path of the suite that is neither running nor done. */
  lemma ReportMeans(w: World, f: C.Request)
    ensures var named := |f| == 3 && f[0] == "unavailable" && Atoi(f[2]).Some?;
      var i := if named then Atoi(f[2]).value else -1;
      Report(w, f) == if 0 <= i < |w.paths| && !w.paths[i].Running? && !w.paths[i].Done?
                      then (w.paths[i := Unavailable], true) else (w.paths, false)
  {
    hide Atoi;
  }

  /** What arrives without the token is dropped, what arrives after the stop is
      answered so, and what has been served is delivered: the suite is released
      exactly by a whole verdict, or a whole "stopped" to one of the worker's own. */
  lemma DeliveryReleases(w: World, j: nat, whole: bool)
    requires Enabled(w, Deliver(j, whole))
    ensures var call := w.calls[j]; var c := w.coords[call.at];
      var heard := whole && (call.reply.DoneReply? ||
        (call.reply.StoppedReply? && |call.f| >= 2 && call.f[0] in {"config", "hello", "result"}));
      Step(w, Deliver(j, whole)) == w.(calls := w.calls[..j] + w.calls[j + 1..],
        coords := if heard && !c.fetched.fired
                  then w.coords[call.at := c.(fetched := C.Signal(true, c.fetched.closes + 1))] else w.coords)
  {
    var call := w.calls[j];
    var c := w.coords[call.at];
    if c.fetched.fired { assert w.coords[call.at := c.(fetched := c.fetched)] == w.coords; }
  }

  // ---- who makes a path unreachable ----

  /** An admitted report of path j is being served. */
  predicate ServesReport(w: World, e: Event, j: nat)
  {
    && e.Serve? && e.call < |w.calls| && w.calls[e.call].Admitted?
    && var f := w.calls[e.call].f; |f| == 3 && f[0] == "unavailable" && Atoi(f[2]) == Some(j as int)
  }

  /** The loop has waited for path j as long as it will. */
  predicate GivesUpOn(w: World, e: Event, j: nat) { e == Advance(TimedOut) && w.pc == Select(j) }

  lemma StepMakesUnavailable(w: World, e: Event, j: nat)
    requires Enabled(w, e) && |w.paths| == |w.coords| == |w.tests| && j < |w.paths| && !w.paths[j].Unavailable?
    requires PcOk(w) && PathOk(w, j)
    ensures |Step(w, e).paths| == |w.paths|
    ensures Step(w, e).paths[j].Unavailable? <==>
      GivesUpOn(w, e, j) || (ServesReport(w, e, j) && !w.paths[j].Running? && !w.paths[j].Done?)
  {
    hide C.Serve, Fields, Atoi, C.Admit;
    match e
    case Serve(i, rows) =>
      hide AdvanceStep;
      ReportMeans(w, w.calls[i].f);
    case Advance(choice) => AdvanceMakesUnavailable(w, choice, j);
    case _ =>
  }

  lemma AdvanceMakesUnavailable(w: World, choice: Choice, j: nat)
    requires AdvanceEnabled(w, choice) && |w.paths| == |w.coords| == |w.tests|
    requires j < |w.paths| && !w.paths[j].Unavailable? && PcOk(w) && PathOk(w, j)
    ensures |AdvanceStep(w, choice).paths| == |w.paths|
    ensures AdvanceStep(w, choice).paths[j].Unavailable? <==> choice == TimedOut && w.pc == Select(j)
  {
  }

  /** A path becomes unreachable at a step exactly when that step serves a report of
      it, and it is neither running nor done, or the loop gives up waiting for it. */
  lemma UnavailableIff(ws: seq<World>, es: seq<Event>, n: nat, j: nat)
    requires Run(ws, es) && n < |es| && j < |ws[n].paths| && !ws[n].paths[j].Unavailable?
    ensures |ws[n + 1].paths| == |ws[n].paths|
    ensures ws[n + 1].paths[j].Unavailable? <==>
      GivesUpOn(ws[n], es[n], j) || (ServesReport(ws[n], es[n], j) && !ws[n].paths[j].Running? && !ws[n].paths[j].Done?)
  {
    hide Step, Enabled, CoordOk, CallOk;
    RunKeepsInv(ws, es, n);
    RunStep(ws, es, n);
    StepMakesUnavailable(ws[n], es[n], j);
  }

  // ---- the wait for a peer ----

  /** The loop waits only while the path may still be joined, and what wakes it is
      used up: a change of the paths is looked at once. */
  lemma WaitGoesOn(ws: seq<World>, es: seq<Event>, n: nat, i: nat)
    requires Run(ws, es) && n < |es| && es[n].Advance? && i < |ws[n].paths|
    ensures ws[n].pc == Loop(i) ==>
      ws[n + 1] == ws[n].(pc := if ws[n].cancelled || ws[n].paths[i].Unavailable? then Left(i, false) else Select(i))
    ensures ws[n].pc == Select(i) && es[n].choice == SawChanged ==> ws[n + 1] == ws[n].(pc := Loop(i), changed := false)
    ensures ws[n].pc == Select(i) && es[n].choice == SawCancel ==> ws[n + 1] == ws[n].(pc := Loop(i))
    ensures ws[n].pc == Select(i) && es[n].choice == TimedOut ==>
      ws[n + 1].pc == Loop(i) && ws[n + 1].paths == ws[n].paths[i := Unavailable]
  {
    RunKeepsInv(ws, es, n);
    RunStep(ws, es, n);
    assert PathOk(ws[n], i);
  }

  /** While the loop is blocked on an unreachable path, its wake-up is pending. */
  predicate Awake(w: World)
  {
    w.pc.Select? && w.pc.i < |w.paths| && w.paths[w.pc.i].Unavailable? ==> w.changed
  }

  lemma StepStaysAwake(w: World, e: Event)
    requires Enabled(w, e) && Awake(w)
    ensures Awake(Step(w, e))
  {
    hide C.Serve, C.ReportedPath, C.Admit, Fields;
  }

  /** No report is slept through: whenever the loop waits for a path that has been
      reported unreachable, it is about to be woken. */
  lemma {:induction false} NoReportSleptThrough(ws: seq<World>, es: seq<Event>, n: nat)
    requires Run(ws, es) && n < |ws|
    ensures Awake(ws[n])
    decreases n
  {
    if n > 0 {
      NoReportSleptThrough(ws, es, n - 1);
      assert Follows(ws[n - 1], es[n - 1], ws[n]);
      hide Step, Enabled, Awake;
      StepStaysAwake(ws[n - 1], es[n - 1]);
    }
  }

  // ---- what a joined path goes through ----

  /** How many steps of its own the loop has taken. */
  function Own(es: seq<Event>, a: nat, b: nat): nat
    requires a <= b <= |es|
  {
    if a == b then 0 else Own(es, a, b - 1) + if es[b - 1].Advance? then 1 else 0
  }

  /** Out of the wait with the join seen and no cancellation, the loop claims the
      path; unless it was reported meanwhile, it is then being measured. */
  lemma JoinedIsMeasured(ws: seq<World>, es: seq<Event>, a: nat, i: nat)
    requires Run(ws, es) && a < |es| && es[a].Advance? && i < |ws[a].paths|
    ensures (ws[a].pc == Select(i) && es[a].choice == SawJoined ==> ws[a + 1].pc == Left(i, true))
    ensures ws[a].pc.Left? && ws[a].pc.i == i && !ws[a].cancelled ==>
      ws[a + 1].pc == Enter(i) && ws[a + 1].paths == ws[a].paths
    ensures ws[a].pc == Enter(i) && !ws[a].paths[i].Unavailable? ==>
      ws[a + 1].pc == Measure(i) && ws[a + 1].paths == ws[a].paths[i := Running]
  {
    RunStep(ws, es, a);
  }

  /** The stages of a test, in the order the loop goes through them. */
  predicate AtStage(w: World, i: nat, k: nat)
  {
    if k == 0 then w.pc == Measure(i)
    else if k == 1 then w.pc == Collect(i)
    else if k == 2 then w.pc == Tell(i)
    else w.pc == Finish(i)
  }

  /** What holds of path i at stage k of its test: it is running, its coordinator is
      live once the test is, and its verdict is out before it is recorded. */
  predicate Tested(w: World, i: nat, k: nat)
  {
    && i < |w.paths| && i < |w.coords| && AtStage(w, i, k) && w.paths[i].Running?
    && (k >= 1 ==> w.coords[i].live) && (k >= 3 ==> w.coords[i].verdict != "")
  }

  lemma StepTests(w: World, e: Event, i: nat, k: nat)
    requires Enabled(w, e) && |w.paths| == |w.coords| == |w.tests| && k <= 3 && Tested(w, i, k)
    requires CoordOk(w, i) && (e.Advance? ==> k < 3)
    ensures Tested(Step(w, e), i, if e.Advance? then k + 1 else k)
  {
    if e.Advance? {
      AdvanceTests(w, e.choice, i, k);
    } else {
      OtherTests(w, e, i, k);
    }
  }

  lemma AdvanceTests(w: World, choice: Choice, i: nat, k: nat)
    requires AdvanceEnabled(w, choice) && k < 3 && Tested(w, i, k)
    ensures Tested(AdvanceStep(w, choice), i, k + 1)
  {
  }

  lemma OtherTests(w: World, e: Event, i: nat, k: nat)
    requires Enabled(w, e) && !e.Advance? && |w.paths| == |w.coords| == |w.tests| && Tested(w, i, k) && CoordOk(w, i)
    ensures Tested(Step(w, e), i, k)
  {
    hide Step, Enabled, CoordOk;
    RequestStepMoves(w, e, i);
    StepEvolves(w, e, i);
  }

  /** Whatever comes in meanwhile, the loop's own steps take a measured path through
      the stages of its test, in order: live, path MTU, verdict, and then recorded. */
  lemma {:induction false} MeasuredToTheEnd(ws: seq<World>, es: seq<Event>, a: nat, b: nat, i: nat)
    requires Run(ws, es) && a <= b <= |es| && Tested(ws[a], i, 0) && Own(es, a, b) <= 3
    ensures Tested(ws[b], i, Own(es, a, b))
    decreases b - a
  {
    hide *;
    RunLength(ws, es);
    OwnNext(es, a, b);
    if a < b {
      MeasuredToTheEnd(ws, es, a, b - 1, i);
      RunStep(ws, es, b - 1);
      RunCoords(ws, es, b - 1);
      StageOf(ws[b - 1], i, Own(es, a, b - 1));
      StepTests(ws[b - 1], es[b - 1], i, Own(es, a, b - 1));
    }
  }

  lemma OwnNext(es: seq<Event>, a: nat, b: nat)
    requires a <= b <= |es|
    ensures Own(es, a, b) == if a == b then 0 else Own(es, a, b - 1) + if es[b - 1].Advance? then 1 else 0
  {
  }

  lemma StageOf(w: World, i: nat, k: nat)
    requires Tested(w, i, k)
    ensures i < |w.coords|
  {
  }

  /** The fourth step records it: done if no cancellation has been seen by then. */
  lemma RecordedAsSeen(ws: seq<World>, es: seq<Event>, a: nat, b: nat, i: nat)
    requires Run(ws, es) && a <= b < |es| && Tested(ws[a], i, 0) && Own(es, a, b) == 3 && es[b].Advance?
    ensures i < |ws[b].paths| == |ws[b + 1].paths| == |ws[b + 1].coords|
    ensures ws[b + 1].paths[i] == if ws[b].cancelled then Stopped else Done
    ensures ws[b + 1].pc == AwaitFetch(i) && ws[b + 1].coords[i].verdict != ""
  {
    hide Run, Step, Enabled, Tested, CoordOk;
    MeasuredToTheEnd(ws, es, a, b, i);
    RunStep(ws, es, b);
    RunCoords(ws, es, b);
    FourthStepRecords(ws[b], es[b], i);
    RunCoords(ws, es, b + 1);
  }

  lemma FourthStepRecords(w: World, e: Event, i: nat)
    requires Enabled(w, e) && e.Advance? && Tested(w, i, 3) && |w.paths| == |w.coords|
    ensures var v := Step(w, e);
      && i < |w.paths| == |v.paths| == |v.coords| && v.paths[i] == (if w.cancelled then Stopped else Done)
      && v.pc == AwaitFetch(i) && v.coords[i].verdict != ""
  {
  }

  // ---- runs in which paths are measured ----

  lemma Extend(ws: seq<World>, es: seq<Event>, e: Event) returns (vs: seq<World>, fs: seq<Event>)
    requires Run(ws, es) && Enabled(ws[|es|], e)
    ensures Run(vs, fs) && |fs| == |es| + 1 && vs[|fs|] == Step(ws[|es|], e) && ws <= vs && es <= fs
  {
    hide Step, Enabled, Init;
    vs, fs := ws + [Step(ws[|es|], e)], es + [e];
    forall n | 0 <= n < |fs| ensures Follows(vs[n], fs[n], vs[n + 1]) {
      if n < |es| { assert Follows(ws[n], es[n], ws[n + 1]); }
    }
  }

  /** Coordinator c once a hello from this host has been served. */
  function Greeted(c: C.Coord, from: string): C.Coord
  {
    c.(joined := C.Signal(true, if c.joined.fired then c.joined.closes else c.joined.closes + 1),
       peer := if c.peer != "" then c.peer else if HasPrefix(from, "::ffff:") then from[7..] else from)
  }

  lemma HelloLine(tok: string)
    requires Word(tok)
    ensures Fields("hello " + tok) == ["hello", tok]
  {
    hide Fields;
    assert Word("hello");
    WordThenRest("hello", ' ', tok);
    LastWord(tok);
    assert "hello " + tok == "hello" + [' '] + tok;
  }

  /** A hello with the token of an open coordinator joins it. */
  lemma HelloJoins(ws: seq<World>, es: seq<Event>, k: nat, from: string) returns (vs: seq<World>, fs: seq<Event>)
    requires Run(ws, es)
    requires var w := ws[|es|];
      k < |w.coords| == |w.tests| && w.tests[k] && !w.coords[k].stopped && Word(w.coords[k].tok)
    ensures Run(vs, fs) && ws <= vs && es <= fs
    ensures var w := ws[|es|]; vs[|fs|] == w.(coords := w.coords[k := Greeted(w.coords[k], from)])
  {
    var w := ws[|es|];
    var line, n := "hello " + w.coords[k].tok, |w.calls|;
    HelloLine(w.coords[k].tok);
    hide Fields, Word, Step, Init;
    vs, fs := Extend(ws, es, Arrive(k, line, from));
    AdmittedIsAnswered(w, k, line, from, "");
    HelloAnswered(w, k, line, from);
    vs, fs := Extend(vs, fs, Serve(n, ""));
    vs, fs := Extend(vs, fs, SignalJoin(n));
    var v := vs[|fs|];
    HelloDelivered(w, v, k, Fields(line));
    vs, fs := Extend(vs, fs, Deliver(n, true));
  }

  lemma HelloAnswered(w: World, k: nat, line: string, from: string)
    requires k < |w.coords| && !w.coords[k].stopped && Fields(line) == ["hello", w.coords[k].tok]
    ensures C.IsHello(Fields(line)) && Report(w, Fields(line)) == (w.paths, false)
    ensures C.Answered(w.coords[k], line, from, "", false) == (Greeted(w.coords[k], from), C.Ok)
  {
    hide Fields, C.Answered;
    Q.HelloRequest(w.coords[k], line, from, "", false);
    ReportMeans(w, Fields(line));
    var c := w.coords[k];
    if c.joined.fired { assert C.Signal(true, c.joined.closes) == c.joined; }
  }

  lemma HelloDelivered(w: World, v: World, k: nat, f: C.Request)
    requires k < |w.coords| == |v.coords| && v.calls == w.calls + [Replying(k, f, C.Ok)]
    ensures Enabled(v, Deliver(|w.calls|, true))
    ensures Step(v, Deliver(|w.calls|, true)) == v.(calls := w.calls)
  {
    DeliveryReleases(v, |w.calls|, true);
  }

  /** A joined path the loop comes to is measured to the end and done. */
  lemma JoinedIsDone(ws: seq<World>, es: seq<Event>, i: nat, verdict: string) returns (vs: seq<World>, fs: seq<Event>)
    requires Run(ws, es) && verdict != ""
    requires var w := ws[|es|]; w.pc == Loop(i) && i < |w.paths| == |w.coords| && w.paths[i].Waiting? && !w.cancelled
    requires ws[|es|].coords[i].joined.fired
    ensures Run(vs, fs) && ws <= vs && es <= fs
    ensures var w, v := ws[|es|], vs[|fs|];
      && v.pc == Pick(i + 1) && v.paths == w.paths[i := Done] && |v.coords| == |w.coords|
      && v.coords == w.coords[i := v.coords[i]] && v.coords[i].verdict == verdict && v.coords[i].live
      && v.calls == w.calls && !v.cancelled && v.tests == w.tests
  {
    hide Init, Run, Enabled, Step;
    vs, fs := JoinedIsClaimed(ws, es, i);
    vs, fs := TestRuns(vs, fs, i, verdict);
    vs, fs := FinishedIsDone(vs, fs, i);
  }

  lemma JoinedIsClaimed(ws: seq<World>, es: seq<Event>, i: nat) returns (vs: seq<World>, fs: seq<Event>)
    requires Run(ws, es)
    requires var w := ws[|es|]; w.pc == Loop(i) && i < |w.paths| == |w.coords| && w.paths[i].Waiting? && !w.cancelled
    requires ws[|es|].coords[i].joined.fired
    ensures Run(vs, fs) && ws <= vs && es <= fs
    ensures var w := ws[|es|]; vs[|fs|] == w.(pc := Measure(i), paths := w.paths[i := Running])
  {
    hide Init, Run;
    vs, fs := Extend(ws, es, Advance(Proceed));
    vs, fs := Extend(vs, fs, Advance(SawJoined));
    vs, fs := Extend(vs, fs, Advance(Proceed));
    vs, fs := Extend(vs, fs, Advance(Proceed));
  }

  lemma FinishedIsDone(ws: seq<World>, es: seq<Event>, i: nat) returns (vs: seq<World>, fs: seq<Event>)
    requires Run(ws, es)
    requires var w := ws[|es|]; w.pc == Finish(i) && i < |w.paths| && !w.cancelled && w.paths[i].Running?
    ensures Run(vs, fs) && ws <= vs && es <= fs
    ensures var w := ws[|es|]; vs[|fs|] == w.(pc := Pick(i + 1), paths := w.paths[i := Done])
  {
    hide Init, Run;
    vs, fs := Extend(ws, es, Advance(Proceed));
    vs, fs := Extend(vs, fs, Advance(Proceed));
  }

  lemma TestRuns(ws: seq<World>, es: seq<Event>, i: nat, verdict: string) returns (vs: seq<World>, fs: seq<Event>)
    requires Run(ws, es) && verdict != "" && ws[|es|].pc == Measure(i) && i < |ws[|es|].coords|
    ensures Run(vs, fs) && ws <= vs && es <= fs
    ensures var w, v := ws[|es|], vs[|fs|];
      && |v.coords| == |w.coords| && v.coords[i].verdict == verdict && v.coords[i].live
      && v == w.(pc := Finish(i), coords := w.coords[i := v.coords[i]])
  {
    hide Init, Run;
    vs, fs := Extend(ws, es, Advance(Proceed));
    vs, fs := Extend(vs, fs, Advance(Proceed));
    vs, fs := Extend(vs, fs, Advance(Publish(verdict)));
  }

  /** A path nobody joins is given up and the loop goes on. */
  lemma UnjoinedIsGivenUp(ws: seq<World>, es: seq<Event>, i: nat) returns (vs: seq<World>, fs: seq<Event>)
    requires Run(ws, es)
    requires var w := ws[|es|]; w.pc == Loop(i) && i < |w.paths| == |w.coords| && w.paths[i].Waiting? && !w.cancelled
    ensures Run(vs, fs) && ws <= vs && es <= fs
    ensures var w, v := ws[|es|], vs[|fs|];
      v == w.(pc := Pick(i + 1), paths := w.paths[i := Unavailable], changed := true)
  {
    hide Init, Run;
    vs, fs := Extend(ws, es, Advance(Proceed));
    vs, fs := Extend(vs, fs, Advance(TimedOut));
    vs, fs := Extend(vs, fs, Advance(Proceed));
    vs, fs := Extend(vs, fs, Advance(Proceed));
    vs, fs := Extend(vs, fs, Advance(Proceed));
  }

  /** The suite before its first n paths: done where they could be prepared. */
  ghost predicate DoneTo(w0: World, w: World, n: nat, verdict: string)
  {
    && |w0.paths| == |w0.coords| == |w0.tests| == |w.paths| == |w.coords| && w.tests == w0.tests && n <= |w0.tests|
    && w.pc == Pick(n) && !w.cancelled
    && forall j :: 0 <= j < |w0.tests| ==> PathDoneTo(w0, w, j, n, verdict)
  }

  ghost predicate PathDoneTo(w0: World, w: World, j: nat, n: nat, verdict: string)
    requires j < |w0.tests| && |w0.coords| == |w.paths| == |w.coords| == |w0.tests|
  {
    && w.paths[j] == (if !w0.tests[j] then Unavailable else if j < n then Done else Waiting)
    && (j >= n ==> w.coords[j] == w0.coords[j])
    && (j < n && w0.tests[j] ==> w.coords[j].verdict == verdict)
  }

  ghost predicate Tokens(w: World)
  {
    forall j :: 0 <= j < |w.coords| ==> Word(w.coords[j].tok)
  }

  lemma {:induction false} DoneOneByOne(w0: World, n: nat, from: string, verdict: string)
    returns (ws: seq<World>, es: seq<Event>)
    requires Init(w0) && Tokens(w0) && n <= |w0.tests| && verdict != ""
    ensures Run(ws, es) && ws[0] == w0 && DoneTo(w0, ws[|es|], n, verdict)
    decreases n
  {
    if n == 0 {
      ws, es := [w0], [];
      assert forall j :: 0 <= j < |w0.tests| ==> PathDoneTo(w0, w0, j, 0, verdict);
    } else {
      hide Run, Init, Greeted, Step, Enabled;
      ws, es := DoneOneByOne(w0, n - 1, from, verdict);
      ghost var w := ws[|es|];
      assert PathDoneTo(w0, w, n - 1, n - 1, verdict);
      PickStep(w, n - 1);
      FreshOpen(w0, n - 1);
      ws, es := Extend(ws, es, Advance(Proceed));
      if w0.tests[n - 1] {
        ws, es := HelloJoins(ws, es, n - 1, from);
        GreetedJoined(w0.coords[n - 1], from);
        ws, es := JoinedIsDone(ws, es, n - 1, verdict);
      }
      DoneNext(w0, w, ws[|es|], n - 1, verdict);
    }
  }

  lemma PickStep(w: World, i: nat)
    requires w.pc == Pick(i) && i < |w.tests|
    ensures Enabled(w, Advance(Proceed))
    ensures Step(w, Advance(Proceed)) == w.(pc := if w.tests[i] then Loop(i) else Pick(i + 1))
  {
  }

  lemma FreshOpen(w: World, k: nat)
    requires Init(w) && Tokens(w) && k < |w.coords|
    ensures !w.coords[k].stopped && Word(w.coords[k].tok)
  {
    assert FreshCoord(w.coords[k]);
  }

  lemma GreetedJoined(c: C.Coord, from: string)
    ensures Greeted(c, from).joined.fired
  {
  }

  lemma DoneNext(w0: World, w: World, v: World, i: nat, verdict: string)
    requires DoneTo(w0, w, i, verdict) && i < |w0.tests| && v.pc == Pick(i + 1) && !v.cancelled && v.tests == w.tests
    requires |v.coords| == |w.coords|
    requires v.coords == w.coords[i := v.coords[i]]
    requires if w0.tests[i] then v.paths == w.paths[i := Done] && v.coords[i].verdict == verdict
             else v.paths == w.paths && v.coords == w.coords
    ensures DoneTo(w0, v, i + 1, verdict)
  {
    var n := i + 1;
    forall j | 0 <= j < |w0.tests| ensures PathDoneTo(w0, v, j, n, verdict) {
      assert PathDoneTo(w0, w, j, i, verdict);
    }
  }

  /** However many paths there are: when their peers say hello in turn, the suite
      measures every path it could prepare, and returns with all of them done. */
  lemma EveryPathCanBeDone(w0: World, from: string, verdict: string) returns (ws: seq<World>, es: seq<Event>)
    requires Init(w0) && Tokens(w0) && verdict != ""
    ensures Run(ws, es) && ws[0] == w0
    ensures var v := ws[|es|];
      && v.pc == Returned(false) && |v.paths| == |v.coords| == |w0.tests|
      && forall j :: 0 <= j < |w0.tests| ==>
           if w0.tests[j] then v.paths[j].Done? && v.coords[j].verdict == verdict else v.paths[j].Unavailable?
  {
    ws, es := DoneOneByOne(w0, |w0.tests|, from, verdict);
    ghost var w := ws[|es|];
    hide Run, Init;
    ws, es := Extend(ws, es, Advance(Proceed));
    ws, es := Extend(ws, es, Advance(Proceed));
    forall j | 0 <= j < |w0.tests|
      ensures if w0.tests[j] then w.paths[j].Done? && w.coords[j].verdict == verdict else w.paths[j].Unavailable?
    {
      assert PathDoneTo(w0, w, j, |w0.tests|, verdict);
    }
  }

  // ---- a cancelled suite ends ----

  /** The coordinators of the first k prepared paths have been told to stop. */
  ghost predicate ToldTo(w: World, v: World, k: nat)
  {
    && |w.tests| == |w.coords| == |v.coords| && v == w.(pc := v.pc, coords := v.coords)
    && forall j :: 0 <= j < |w.tests| ==>
         v.coords[j] == if j < k && w.tests[j] then w.coords[j].(stopped := true) else w.coords[j]
  }

  lemma {:induction false} StopsOneByOne(ws: seq<World>, es: seq<Event>, k: nat)
    returns (vs: seq<World>, fs: seq<Event>)
    requires Run(ws, es) && ws[|es|].pc == StopPeer(0) && |ws[|es|].tests| == |ws[|es|].coords|
    requires k <= |ws[|es|].tests|
    ensures Run(vs, fs) && ws <= vs && es <= fs && vs[|fs|].pc == StopPeer(k) && ToldTo(ws[|es|], vs[|fs|], k)
    decreases k
  {
    if k == 0 {
      vs, fs := ws, es;
    } else {
      hide Run, Init;
      vs, fs := StopsOneByOne(ws, es, k - 1);
      vs, fs := Extend(vs, fs, Advance(Proceed));
    }
  }

  /** A loop that sees the cancellation tells every prepared coordinator to stop,
      leaves what is done or unreachable and stops every other path. */
  lemma CancelledCanEnd(ws: seq<World>, es: seq<Event>) returns (vs: seq<World>, fs: seq<Event>)
    requires Run(ws, es) && ws[|es|].pc == LastCheck && ws[|es|].cancelled && |ws[|es|].tests| == |ws[|es|].coords|
    ensures Run(vs, fs) && ws <= vs && es <= fs && vs[|fs|].pc == Returned(true)
    ensures var w, v := ws[|es|], vs[|fs|];
      && |v.coords| == |w.coords| && |v.paths| == |w.paths|
      && (forall j :: 0 <= j < |w.tests| ==>
            v.coords[j] == if w.tests[j] then w.coords[j].(stopped := true) else w.coords[j])
      && (forall j :: 0 <= j < |w.paths| ==>
            v.paths[j] == if w.paths[j].Waiting? || w.paths[j].Running? then Stopped else w.paths[j])
  {
    hide Run, Init;
    vs, fs := Extend(ws, es, Advance(Proceed));
    RunLength(vs, fs);
    ghost var w := vs[|fs|];
    vs, fs := StopsOneByOne(vs, fs, |w.tests|);
    vs, fs := ToldReturns(vs, fs);
  }

  lemma ToldReturns(ws: seq<World>, es: seq<Event>) returns (vs: seq<World>, fs: seq<Event>)
    requires Run(ws, es) && ws[|es|].pc == StopPeer(|ws[|es|].tests|) && |ws[|es|].tests| == |ws[|es|].coords|
    ensures Run(vs, fs) && ws <= vs && es <= fs && vs[|fs|].pc == Returned(true)
    ensures var w, v := ws[|es|], vs[|fs|];
      && v.coords == w.coords && |v.paths| == |w.paths|
      && (forall j :: 0 <= j < |w.paths| ==>
            v.paths[j] == if w.paths[j].Waiting? || w.paths[j].Running? then Stopped else w.paths[j])
  {
    hide Run, Init;
    vs, fs := Extend(ws, es, Advance(Proceed));
    vs, fs := Extend(vs, fs, Advance(Proceed));
    vs, fs := Extend(vs, fs, Advance(Proceed));
  }

  // ---- whose path MTU a test takes ----

  /** A first accepted report of the path MTU to coordinator k is being served. */
  predicate ServesSize(w: World, e: Event, k: nat, size: int)
  {
    && e.Serve? && e.call < |w.calls| && w.calls[e.call].Admitted? && w.calls[e.call].at == k < |w.coords|
    && !w.coords[k].pmtu.sent && size >= 0
    && var f := w.calls[e.call].f; |f| == 3 && f[0] == "pmtu" && Atoi(f[2]) == Some(size)
  }

  lemma StepFillsSlot(w: World, e: Event, k: nat)
    requires Enabled(w, e) && |w.coords| == |w.paths| == |w.tests| && k < |w.coords| && CoordOk(w, k)
    ensures |Step(w, e).coords| == |w.coords|
    ensures var p, q := w.coords[k].pmtu, Step(w, e).coords[k].pmtu;
      q.buffer != [] ==> q.buffer == p.buffer || (|q.buffer| == 1 && ServesSize(w, e, k, q.buffer[0]))
  {
    hide Fields, Atoi, C.Admit, C.Serve, Mark, AdvanceStep, AdvanceEnabled, C.Evolves;
    match e
    case Serve(j, rows) =>
      var call := w.calls[j];
      if call.at == k { ServeFillsSlot(w.coords[k], call.f, call.from, rows, Report(w, call.f).1); }
    case Advance(choice) => AdvanceFillsNoSlot(w, choice, k);
    case _ =>
  }

  lemma AdvanceFillsNoSlot(w: World, choice: Choice, k: nat)
    requires AdvanceEnabled(w, choice) && |w.coords| == |w.paths| == |w.tests| && k < |w.coords|
    requires w.coords[k].pmtu.Valid()
    ensures |AdvanceStep(w, choice).coords| == |w.coords|
    ensures var q := AdvanceStep(w, choice).coords[k].pmtu; q.buffer == w.coords[k].pmtu.buffer || q.buffer == []
  {
    hide TestStep, EndStep;
    if Ending(w.pc) {
      EndFillsNoSlot(w, k);
    } else if !w.pc.Select? && !w.pc.Pick? && !Seeking(w.pc) {
      TestFillsNoSlot(w, if choice.Publish? then choice.verdict else "", k);
    }
  }

  lemma EndFillsNoSlot(w: World, k: nat)
    requires Ending(w.pc) && |w.coords| == |w.tests| && k < |w.coords|
    ensures |EndStep(w).coords| == |w.coords| && EndStep(w).coords[k].pmtu == w.coords[k].pmtu
  {
  }

  lemma TestFillsNoSlot(w: World, verdict: string, k: nat)
    requires Claimed(w.pc) || w.pc.AwaitFetch?
    requires w.pc.Measure? || w.pc.Collect? || w.pc.Tell? ==> w.pc.i < |w.coords|
    requires w.pc.Finish? ==> w.pc.i < |w.paths|
    requires k < |w.coords| && w.coords[k].pmtu.Valid()
    ensures |TestStep(w, verdict).coords| == |w.coords|
    ensures var q := TestStep(w, verdict).coords[k].pmtu; q.buffer == w.coords[k].pmtu.buffer || q.buffer == []
  {
  }

  lemma ServeFillsSlot(c: C.Coord, f: C.Request, from: string, rows: string, accepted: bool)
    requires c.pmtu.Valid()
    ensures var d := C.Serve(c, f, from, rows, accepted).0;
      d.pmtu == c.pmtu || (!c.pmtu.sent && |f| == 3 && f[0] == "pmtu" && Atoi(f[2]).Some? && Atoi(f[2]).value >= 0
                           && d.pmtu.buffer == [Atoi(f[2]).value])
  {
    hide Atoi, Cut, C.ServeThree, C.ServeResult, C.PeerHost;
    if |f| == 3 { ThreeFillsSlot(c, C.VerbOf(f[0]), f[2], accepted); }
  }

  lemma ThreeFillsSlot(c: C.Coord, verb: C.Verb, text: string, accepted: bool)
    requires c.pmtu.Valid()
    ensures var d := C.ServeThree(c, verb, text, accepted).0;
      d.pmtu == c.pmtu || (!c.pmtu.sent && verb.Pmtu? && Atoi(text).Some? && Atoi(text).value >= 0
                           && d.pmtu.buffer == [Atoi(text).value])
  {
    hide Atoi, Cut, C.SkippableCase, C.ValidHTTPSProbe, C.PortCarrier;
  }

  lemma NothingSentAtFirst(ws: seq<World>, es: seq<Event>, k: nat)
    requires Run(ws, es) && k < |ws[0].coords|
    ensures ws[0].coords[k].pmtu.buffer == []
  {
    assert FreshCoord(ws[0].coords[k]);
  }

  /** What lies in the path-MTU slot, for the test to take, is the count of the first
      accepted "pmtu" report to that coordinator. */
  lemma {:induction false} SizeWasReported(ws: seq<World>, es: seq<Event>, n: nat, k: nat) returns (m: nat)
    requires Run(ws, es) && n < |ws| && k < |ws[n].coords| && ws[n].coords[k].pmtu.buffer != []
    ensures m < n && |ws[n].coords[k].pmtu.buffer| == 1 && ServesSize(ws[m], es[m], k, ws[n].coords[k].pmtu.buffer[0])
    decreases n
  {
    hide Step, Enabled, Inv, ServesSize;
    RunCoords(ws, es, n);
    NothingSentAtFirst(ws, es, k);
    if n > 0 {
      RunCoords(ws, es, n - 1);
      RunStep(ws, es, n - 1);
      StepFillsSlot(ws[n - 1], es[n - 1], k);
      if ServesSize(ws[n - 1], es[n - 1], k, ws[n].coords[k].pmtu.buffer[0]) && |ws[n].coords[k].pmtu.buffer| == 1 {
        m := n - 1;
      } else {
        m := SizeWasReported(ws, es, n - 1, k);
      }
    }
  }
}
