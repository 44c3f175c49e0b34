/** Both sides of a connection test together: a walk of the kharej whose answers are
    drawn from a run of the Iran side's suite. */
module Session {
  import opened Paths
  import opened Text
  import C = Coordinator
  import K = Kharej
  import S = Suite

  // ---- what the answers of a run are ----

  /** In the run coordinator k answered "result" with a verdict. */
  ghost predicate VerdictGiven(ws: seq<S.World>, es: seq<S.Event>, k: nat)
    requires |ws| == |es| + 1
  {
    exists n :: 0 <= n < |es| && S.AnswersResult(ws[n], es[n], k) && k < |ws[n].coords|
      && C.ServeResult(ws[n].coords[k], es[n].rows).DoneReply?
  }

  /** In the run coordinator via took the report that path i is unreachable. */
  ghost predicate ReportTaken(ws: seq<S.World>, es: seq<S.Event>, via: nat, i: nat)
    requires |ws| == |es| + 1
  {
    exists n :: 0 <= n < |es| && TakesReport(ws[n], es[n], via, i)
  }

  predicate TakesReport(w: S.World, e: S.Event, via: nat, i: nat)
  {
    && e.Serve? && S.Enabled(w, e) && w.calls[e.call].at == via
    && C.ReportedPath(w.calls[e.call].f) == Some(i as int) && S.Report(w, w.calls[e.call].f).1
  }

  /** In the run coordinator k was answering every request with "stopped". */
  ghost predicate StopSaid(ws: seq<S.World>, k: nat)
  {
    exists n :: 0 <= n < |ws| && k < |ws[n].coords| && ws[n].coords[k].stopped
  }

  /** What this act came to was answered in the run: a verdict, a report taken, a
      "stopped". */
  ghost predicate Given(ws: seq<S.World>, es: seq<S.Event>, act: K.Act)
    requires |ws| == |es| + 1
  {
    && (act.Measure? && act.out.Completed? ==> VerdictGiven(ws, es, act.path))
    && (act.Notify? && act.accepted ==> ReportTaken(ws, es, act.via, act.path))
    && (K.Stops(act) ==> StopSaid(ws, act.path))
  }

  /** Every answer a walk acted on was given in the run. */
  ghost predicate Drawn(ws: seq<S.World>, es: seq<S.Event>, acts: seq<K.Act>)
    requires |ws| == |es| + 1
  {
    forall a :: 0 <= a < |acts| ==> Given(ws, es, acts[a])
  }

  // ---- what the suite's side keeps ----

  /** A published verdict belongs to a path that was measured, and "stopped" to a
      cancelled suite. */
  ghost predicate Agreed(w: S.World, k: nat)
    requires k < |w.coords| == |w.paths| == |w.tests|
  {
    && (w.coords[k].verdict != "" ==> Measured(w, k))
    && (w.coords[k].stopped ==> w.cancelled)
  }

  /** Done, or about to be recorded, or cut short by the cancellation. */
  predicate Measured(w: S.World, k: nat)
    requires k < |w.paths|
  {
    || w.paths[k].Done?
    || (w.paths[k].Running? && w.pc == S.Finish(k))
    || (w.cancelled && (w.paths[k].Stopped? || w.paths[k].Unavailable?))
  }

  lemma SelectAgrees(w: S.World, choice: S.Choice, k: nat)
    requires w.pc.Select? && S.SelectEnabled(w, w.pc.i, choice) && k < |w.coords| == |w.paths| == |w.tests| &&
        Agreed(w, k)
    ensures var w' := S.SelectStep(w, w.pc.i, choice);
            |w'.coords| == |w'.paths| == |w'.tests| == |w.tests| && Agreed(w', k)
  {
  }

  lemma SeekAgrees(w: S.World, k: nat)
    requires (w.pc.Pick? || S.Seeking(w.pc)) && !w.pc.Select? && S.AdvanceEnabled(w, S.Proceed)
    requires k < |w.coords| == |w.paths| == |w.tests| && S.PathOk(w, k) && Agreed(w, k)
    ensures var w' := S.SeekStep(w);
            |w'.coords| == |w'.paths| == |w'.tests| == |w.tests| && Agreed(w', k)
  {
  }

  lemma TestAgrees(w: S.World, verdict: string, k: nat)
    requires (S.Claimed(w.pc) || w.pc.AwaitFetch?) && S.PcOk'(w) && k < |w.coords| && S.PathOk(w, k) && Agreed(w, k)
    ensures var w' := S.TestStep(w, verdict);
            |w'.coords| == |w'.paths| == |w'.tests| == |w.tests| && Agreed(w', k)
  {
  }

  lemma EndAgrees(w: S.World, k: nat)
    requires S.Ending(w.pc) && S.PcOk'(w) && k < |w.coords| && Agreed(w, k)
    ensures var w' := S.EndStep(w);
            |w'.coords| == |w'.paths| == |w'.tests| == |w.tests| && Agreed(w', k)
  {
  }

  lemma RequestAgrees(w: S.World, e: S.Event, k: nat)
    requires S.Enabled(w, e) && !e.Advance? && k < |w.coords| == |w.paths| == |w.tests| && Agreed(w, k)
    ensures var w' := S.Step(w, e);
            |w'.coords| == |w'.paths| == |w'.tests| == |w.tests| && Agreed(w', k)
  {
    hide S.Step;
    S.RequestStepMoves(w, e, k);
  }

  lemma StepAgrees(w: S.World, e: S.Event, k: nat)
    requires S.Enabled(w, e) && S.PcOk'(w) && k < |w.coords| && S.PathOk(w, k) && Agreed(w, k)
    ensures var w' := S.Step(w, e);
            |w'.coords| == |w'.paths| == |w'.tests| == |w.tests| && Agreed(w', k)
  {
    hide Agreed, S.PcOk, S.PathOk, S.SelectStep, S.SeekStep, S.TestStep, S.EndStep;
    if !e.Advance? {
      RequestAgrees(w, e, k);
    } else if w.pc.Select? {
      SelectAgrees(w, e.choice, k);
    } else if w.pc.Pick? || S.Seeking(w.pc) {
      SeekAgrees(w, k);
    } else if S.Ending(w.pc) {
      EndAgrees(w, k);
    } else {
      TestAgrees(w, if e.choice.Publish? then e.choice.verdict else "", k);
    }
  }

  lemma {:induction false} RunAgrees(ws: seq<S.World>, es: seq<S.Event>, n: nat, k: nat)
    requires S.Run(ws, es) && n < |ws| && k < |ws[0].paths|
    ensures |ws[n].coords| == |ws[n].paths| == |ws[n].tests| == |ws[0].paths| && Agreed(ws[n], k)
    decreases n
  {
    assert |ws| == |es| + 1;
    hide *;
    PartsAt(ws, es, n, k);
    if n > 0 {
      RunAgrees(ws, es, n - 1, k);
      PartsAt(ws, es, n - 1, k);
      S.RunStep(ws, es, n - 1);
      StepAgrees(ws[n - 1], es[n - 1], k);
    } else {
      FreshAgrees(ws, es, k);
    }
  }

  lemma PartsAt(ws: seq<S.World>, es: seq<S.Event>, n: nat, k: nat)
    requires S.Run(ws, es) && n < |ws| && k < |ws[0].paths|
    ensures |ws[n].coords| == |ws[n].paths| == |ws[n].tests| == |ws[0].paths| && S.PcOk'(ws[n]) && S.PathOk(ws[n], k)
  {
    hide S.PathOk, S.PcOk, S.CoordOk, S.CallOk, S.Step;
    S.RunKeepsInv(ws, es, n);
  }

  lemma FreshAgrees(ws: seq<S.World>, es: seq<S.Event>, k: nat)
    requires S.Run(ws, es) && k < |ws[0].coords| == |ws[0].paths| == |ws[0].tests|
    ensures Agreed(ws[0], k)
  {
    hide S.Step;
    assert S.FreshCoord(ws[0].coords[k]);
  }

  // ---- a verdict, a report and a stop, from the moment they are given ----

  lemma VerdictStands(ws: seq<S.World>, es: seq<S.Event>, k: nat)
    requires S.Run(ws, es) && VerdictGiven(ws, es, k)
    ensures var w := ws[|es|];
            k < |w.coords| == |w.paths| == |w.tests| && w.coords[k].verdict != "" && Measured(w, k)
  {
    var n :| 0 <= n < |es| && S.AnswersResult(ws[n], es[n], k) && k < |ws[n].coords|
      && C.ServeResult(ws[n].coords[k], es[n].rows).DoneReply?;
    S.RunKeepsInv(ws, es, n);
    S.RunEvolves(ws, es, n, |es|, k);
    RunAgrees(ws, es, |es|, k);
  }

  lemma ReportTakes(w: S.World, e: S.Event, via: nat, i: nat)
    requires TakesReport(w, e, via, i)
    ensures i < |w.paths| && |S.Step(w, e).paths| == |w.paths| && S.Step(w, e).paths[i].Unavailable?
  {
    hide C.Serve, C.ReportedPath;
  }

  lemma ReportLeavesOut(ws: seq<S.World>, es: seq<S.Event>, via: nat, i: nat) returns (m: nat)
    requires S.Run(ws, es) && ReportTaken(ws, es, via, i)
    ensures m < |ws| && i < |ws[m].paths| == |ws[0].paths| && ws[m].paths[i].Unavailable?
  {
    hide S.Step, S.Enabled, S.PathOk, S.PcOk, S.CoordOk, S.CallOk, TakesReport;
    var n :| 0 <= n < |es| && TakesReport(ws[n], es[n], via, i);
    m := n + 1;
    S.RunStep(ws, es, n);
    S.RunCoords(ws, es, n);
    S.RunKeepsInv(ws, es, n + 1);
    ReportTakes(ws[n], es[n], via, i);
  }

  /** From moment m on path i is unreachable for the suite, so it is not running. */
  ghost predicate OutFrom(ws: seq<S.World>, m: nat, i: nat)
  {
    m < |ws| && forall b :: m <= b < |ws| ==> i < |ws[b].paths| && ws[b].paths[i].Unavailable?
  }

  lemma ReportStands(ws: seq<S.World>, es: seq<S.Event>, via: nat, i: nat) returns (m: nat)
    requires S.Run(ws, es) && ReportTaken(ws, es, via, i)
    ensures OutFrom(ws, m, i)
  {
    hide S.Run, ReportTaken;
    m := ReportLeavesOut(ws, es, via, i);
    forall b | m <= b < |ws| ensures i < |ws[b].paths| && ws[b].paths[i].Unavailable? {
      S.FinishedPathsStay(ws, es, m, b, i);
    }
  }

  lemma StopStands(ws: seq<S.World>, es: seq<S.Event>, k: nat)
    requires S.Run(ws, es) && StopSaid(ws, k)
    ensures ws[|es|].cancelled
  {
    var n :| 0 <= n < |ws| && k < |ws[n].coords| && ws[n].coords[k].stopped;
    S.RunKeepsInv(ws, es, n);
    RunAgrees(ws, es, n, k);
    StaysCancelled(ws, es, n, |es|);
  }

  lemma {:induction false} StaysCancelled(ws: seq<S.World>, es: seq<S.Event>, a: nat, b: nat)
    requires S.Run(ws, es) && a <= b < |ws| && ws[a].cancelled
    ensures ws[b].cancelled
    decreases b - a
  {
    if a < b {
      StaysCancelled(ws, es, a, b - 1);
      assert S.Follows(ws[b - 1], es[b - 1], ws[b]);
      hide C.Serve, C.Admit, Fields, S.PcOk;
    }
  }

  // ---- the two sides agree ----

  /** When the walk's answers come from the suite's run: a path the kharej calls done
      has its verdict published, and is done for the suite too, or about to be, or
      was cut short there by a cancellation. */
  lemma DoneIsMeasured(ws: seq<S.World>, es: seq<S.Event>, acts: seq<K.Act>, k: nat)
    requires S.Run(ws, es) && Drawn(ws, es, acts) && K.Measure(k, K.Completed) in acts
    ensures var w := ws[|es|];
            k < |w.coords| == |w.paths| == |w.tests| && w.coords[k].verdict != "" && Measured(w, k)
  {
    hide S.Run;
    var a :| 0 <= a < |acts| && acts[a] == K.Measure(k, K.Completed);
    S.RunLength(ws, es);
    assert Given(ws, es, acts[a]);
    VerdictStands(ws, es, k);
  }

  /** A report that was accepted leaves its path out of the suite's run for good. */
  lemma AcceptedIsOut(ws: seq<S.World>, es: seq<S.Event>, acts: seq<K.Act>, i: nat) returns (m: nat)
    requires S.Run(ws, es) && Drawn(ws, es, acts) && K.Accepted(acts, i)
    ensures OutFrom(ws, m, i)
  {
    hide S.Run;
    var a :| 0 <= a < |acts| && acts[a].Notify? && acts[a].path == i && acts[a].accepted;
    S.RunLength(ws, es);
    assert Given(ws, es, acts[a]);
    m := ReportStands(ws, es, acts[a].via, i);
  }

  /** A walk that a coordinator stopped belongs to a cancelled suite. */
  lemma StopIsCancelled(ws: seq<S.World>, es: seq<S.Event>, acts: seq<K.Act>, a: nat)
    requires S.Run(ws, es) && Drawn(ws, es, acts) && a < |acts| && K.Stops(acts[a])
    ensures ws[|es|].cancelled
  {
    hide S.Run;
    S.RunLength(ws, es);
    assert Given(ws, es, acts[a]);
    StopStands(ws, es, acts[a].path);
  }

  /** Path by path, what a walk comes back with agrees with the suite. */
  ghost predicate AgreesWith(w: S.World, paths: seq<PathState>)
  {
    forall k :: 0 <= k < |paths| && paths[k].Done? ==>
      k < |w.coords| && w.coords[k].verdict != "" && k < |w.paths| && Measured(w, k)
  }

  lemma WalkAgrees(ws: seq<S.World>, es: seq<S.Event>, acts: seq<K.Act>, paths: seq<PathState>)
    requires S.Run(ws, es) && Drawn(ws, es, acts)
    requires forall k :: 0 <= k < |paths| && paths[k].Done? ==> K.Measure(k, K.Completed) in acts
    ensures ws != [] && |ws| == |es| + 1 && AgreesWith(ws[|es|], paths)
  {
    S.RunLength(ws, es);
    hide S.Run, Drawn, Measured;
    forall k | 0 <= k < |paths| && paths[k].Done?
      ensures k < |ws[|es|].coords| && ws[|es|].coords[k].verdict != "" && k < |ws[|es|].paths| && Measured(ws[|es|], k)
    {
      DoneIsMeasured(ws, es, acts, k);
    }
  }

  lemma AcceptedAreOut(ws: seq<S.World>, es: seq<S.Event>, acts: seq<K.Act>)
    requires S.Run(ws, es) && Drawn(ws, es, acts)
    ensures forall i: nat :: K.Accepted(acts, i) ==> exists m: nat :: OutFrom(ws, m, i)
  {
    hide S.Run, Drawn, K.Accepted, OutFrom;
    forall i: nat | K.Accepted(acts, i) ensures exists m: nat :: OutFrom(ws, m, i) {
      var m := AcceptedIsOut(ws, es, acts, i);
    }
  }

  /** The walk itself, against a run of the suite: if the answers it acted on were
      given there, what it comes back with agrees with the suite. */
  method WalkWith(ghost ws: seq<S.World>, ghost es: seq<S.Event>, env: K.Env, n: nat)
    returns (paths: seq<PathState>, ending: K.Ending, acts: seq<K.Act>, looks: nat)
    requires S.Run(ws, es)
    ensures |paths| == n && K.Proper(acts) && forall a :: 0 <= a < |acts| ==> K.Honest(env, acts[a])
    ensures forall k :: 0 <= k < n ==> (paths[k].Done? <==> K.Measure(k, K.Completed) in acts)
    ensures Drawn(ws, es, acts) ==> AgreesWith(ws[|es|], paths)
    ensures Drawn(ws, es, acts) ==> forall i: nat :: K.Accepted(acts, i) ==> exists m: nat :: OutFrom(ws, m, i)
    ensures Drawn(ws, es, acts) && ending.Halted? && !ws[|es|].cancelled ==> looks > 0 && env.cancelled(looks - 1)
  {
    hide S.Run, Drawn, AgreesWith, OutFrom;
    hide K.Proper, K.Honest, K.Accepted, K.Bounded, K.AllReported, K.Quiet, K.Kept, K.Settled, K.Stops;
    S.RunLength(ws, es);
    paths, ending, acts, looks := K.Walk(env, n);
    if Drawn(ws, es, acts) {
      WalkAgrees(ws, es, acts, paths);
      AcceptedAreOut(ws, es, acts);
      if ending.Halted? && acts != [] && K.Stops(acts[|acts| - 1]) { StopIsCancelled(ws, es, acts, |acts| - 1); }
    }
  }
}
