/** The whole connection test on the Iran side: the suite's loop over its paths,
    interleaved in every order with requests to the paths' coordinators, with
    lost and replayed requests, with timers and with cancellation. */
module Suite {
  import opened Text
  import opened Paths
  import C = Coordinator

  // ---- state ----

  /** Where the suite's loop stands. */
  datatype Pc =
    | Pick(i: nat)                      // top of the loop over the tests
    | Loop(i: nat)                      // head of the wait for path i
    | Select(i: nat)                    // blocked in the wait's select
    | Left(i: nat, sawJoin: bool)       // out of the wait
    | Enter(i: nat)                     // not cancelled: claim the path
    | Measure(i: nat)                   // claimed; the test has not gone live
    | Collect(i: nat)                   // live; waiting for the path MTU
    | Tell(i: nat)                      // about to publish
    | Finish(i: nat)                    // published; about to record the state
    | AwaitFetch(i: nat)                // waiting for the peer to take its result
    | LastCheck
    | StopPeer(k: nat)                  // telling coordinator k to say "stopped"
    | Grace
    | MarkStopped
    | Returned(sawCancel: bool)

  /** A request some serving goroutine is working on. */
  datatype Call =
    | Admitted(at: nat, f: C.Request, from: string) // past the stop check
    | Joining(at: nat, f: C.Request)                // hello noted, signal pending
    | Replying(at: nat, f: C.Request, reply: C.Reply)

  datatype World = World(
    tests: seq<bool>,     // false where the path could not be prepared
    paths: seq<PathState>,
    changed: bool,
    coords: seq<C.Coord>,
    calls: seq<Call>,
    cancelled: bool,
    pc: Pc)

  /** How a blocked select, or the test itself, lets the loop go on. */
  datatype Choice = Proceed | SawJoined | SawChanged | SawCancel | TimedOut | Publish(verdict: string)

  datatype Event =
    | Cancel
    | Arrive(at: nat, line: string, from: string)
    | Serve(call: nat, rows: string)
    | SignalJoin(call: nat)
    | Deliver(call: nat, whole: bool)
    | Advance(choice: Choice)

  // ---- steps ----

  predicate Enabled(w: World, e: Event)
  {
    match e
    case Cancel => true
    case Arrive(at, _, _) => at < |w.coords| && at < |w.tests| && w.tests[at]
    case Serve(j, _) => j < |w.calls| && w.calls[j].Admitted? && w.calls[j].at < |w.coords|
    case SignalJoin(j) => j < |w.calls| && w.calls[j].Joining? && w.calls[j].at < |w.coords|
    case Deliver(j, _) => j < |w.calls| && w.calls[j].Replying? && w.calls[j].at < |w.coords|
    case Advance(choice) => AdvanceEnabled(w, choice)
  }

  predicate AdvanceEnabled(w: World, choice: Choice)
  {
    if w.pc.Select? then SelectEnabled(w, w.pc.i, choice)
    else if w.pc.Tell? then choice.Publish? && choice.verdict != "" && w.pc.i < |w.coords|
    else
      choice.Proceed? &&
      match w.pc
      case Pick(i) => i <= |w.tests|
      case Loop(i) => i < |w.paths|
      case Enter(i) => i < |w.paths|
      case Measure(i) => i < |w.coords|
      case Collect(i) => i < |w.coords|
      case Finish(i) => i < |w.paths|
      case StopPeer(k) => |w.tests| == |w.coords|
      case Returned(_) => false
      case _ => true
  }

  predicate SelectEnabled(w: World, i: nat, choice: Choice)
  {
    && i < |w.paths| && i < |w.coords|
    && (match choice
        case TimedOut => true
        case SawJoined => w.coords[i].joined.fired
        case SawChanged => w.changed
        case SawCancel => w.cancelled
        case _ => false)
  }

  function SetCoord(w: World, k: nat, c: C.Coord): World
    requires k < |w.coords|
  {
    w.(coords := w.coords[k := c])
  }

  function Drop(calls: seq<Call>, j: nat): seq<Call>
    requires j < |calls|
  {
    calls[..j] + calls[j + 1..]
  }

  function Step(w: World, e: Event): World
    requires Enabled(w, e)
  {
    match e
    case Cancel => w.(cancelled := true)
    case Arrive(at, line, from) => ArriveStep(w, at, Fields(line), from)
    case Serve(j, rows) => ServeStep(w, j, rows)
    case SignalJoin(j) =>
      var call := w.calls[j];
      SetCoord(w, call.at, w.coords[call.at].(joined := w.coords[call.at].joined.Fire()))
        .(calls := w.calls[j := Replying(call.at, call.f, C.Ok)])
    case Deliver(j, whole) =>
      var call := w.calls[j];
      var c := w.coords[call.at];
      (if whole && C.Releases(call.f, call.reply) then SetCoord(w, call.at, c.(fetched := c.fetched.Fire())) else w)
        .(calls := Drop(w.calls, j))
    case Advance(choice) => AdvanceStep(w, choice)
  }

  function ArriveStep(w: World, at: nat, f: seq<string>, from: string): World
    requires at < |w.coords|
  {
    match C.Admit(w.coords[at], f)
    case Ignored => w
    case ToldStopped => w.(calls := w.calls + [Replying(at, f, C.StoppedReply)])
    case Admitted => w.(calls := w.calls + [Admitted(at, f, from)])
  }

  /** The path table and the answer once an admitted request's report, if it is
      one, has been put to the suite. */
  function Report(w: World, f: C.Request): (seq<PathState>, bool)
  {
    var i := C.ReportedPath(f);
    if i.None? then (w.paths, false) else Mark(w.paths, i.value)
  }

  function ServeStep(w: World, j: nat, rows: string): World
    requires j < |w.calls| && w.calls[j].Admitted? && w.calls[j].at < |w.coords|
  {
    var call := w.calls[j];
    var (paths, accepted) := Report(w, call.f);
    var (c, reply) := C.Serve(w.coords[call.at], call.f, call.from, rows, accepted);
    w.(paths := paths,
       changed := w.changed || paths != w.paths,
       coords := w.coords[call.at := c],
       calls := w.calls[j := if C.IsHello(call.f) then Joining(call.at, call.f) else Replying(call.at, call.f, reply)])
  }

  predicate Claimed(pc: Pc) { pc.Measure? || pc.Collect? || pc.Tell? || pc.Finish? }
  predicate Seeking(pc: Pc) { pc.Loop? || pc.Select? || pc.Left? || pc.Enter? }
  predicate Ending(pc: Pc) { pc.LastCheck? || pc.StopPeer? || pc.Grace? || pc.MarkStopped? || pc.Returned? }

  function AdvanceStep(w: World, choice: Choice): World
    requires AdvanceEnabled(w, choice)
  {
    if w.pc.Select? then SelectStep(w, w.pc.i, choice)
    else if w.pc.Pick? || Seeking(w.pc) then SeekStep(w)
    else if Ending(w.pc) then EndStep(w)
    else TestStep(w, if choice.Publish? then choice.verdict else "")
  }

  function SelectStep(w: World, i: nat, choice: Choice): World
    requires SelectEnabled(w, i, choice)
  {
    match choice
    case SawJoined => w.(pc := Left(i, true))
    case SawChanged => w.(pc := Loop(i), changed := false)
    case TimedOut =>
      var (paths, _) := Mark(w.paths, i);
      w.(pc := Loop(i), paths := paths, changed := w.changed || paths != w.paths)
    case _ => w.(pc := Loop(i))
  }

  function SeekStep(w: World): World
    requires (w.pc.Pick? || Seeking(w.pc)) && !w.pc.Select? && AdvanceEnabled(w, Proceed)
  {
    match w.pc
    case Pick(i) =>
      if i == |w.tests| then w.(pc := LastCheck)
      else if !w.tests[i] then w.(pc := Pick(i + 1))
      else w.(pc := Loop(i))
    case Loop(i) =>
      if w.cancelled || w.paths[i].Unavailable? then w.(pc := Left(i, false)) else w.(pc := Select(i))
    case Left(i, _) => w.(pc := if w.cancelled then LastCheck else Enter(i))
    case Enter(i) =>
      if w.paths[i].Unavailable? then w.(pc := Pick(i + 1))
      else w.(pc := Measure(i), paths := w.paths[i := Running])
  }

  /** The path's test: go live, take the path MTU if it came, publish, record. */
  function TestStep(w: World, verdict: string): World
    requires Claimed(w.pc) || w.pc.AwaitFetch?
    requires w.pc.Measure? || w.pc.Collect? || w.pc.Tell? ==> w.pc.i < |w.coords|
    requires w.pc.Finish? ==> w.pc.i < |w.paths|
  {
    match w.pc
    case Measure(i) => SetCoord(w, i, w.coords[i].(live := true)).(pc := Collect(i))
    case Collect(i) => SetCoord(w, i, w.coords[i].(pmtu := w.coords[i].pmtu.Take())).(pc := Tell(i))
    case Tell(i) => SetCoord(w, i, w.coords[i].(verdict := verdict)).(pc := Finish(i))
    case Finish(i) => w.(pc := AwaitFetch(i), paths := w.paths[i := if w.cancelled then Stopped else Done])
    case AwaitFetch(i) => w.(pc := Pick(i + 1))
  }

  function EndStep(w: World): World
    requires Ending(w.pc) && (w.pc.StopPeer? ==> |w.tests| == |w.coords|)
  {
    match w.pc
    case LastCheck => w.(pc := if w.cancelled then StopPeer(0) else Returned(false))
    case StopPeer(k) =>
      if k >= |w.tests| then w.(pc := Grace)
      else if !w.tests[k] then w.(pc := StopPeer(k + 1))
      else SetCoord(w, k, w.coords[k].(stopped := true)).(pc := StopPeer(k + 1))
    case Grace => w.(pc := MarkStopped)
    case MarkStopped => w.(pc := Returned(true), paths := StopOpen(w.paths))
    case Returned(_) => w
  }

  function StopOpen(paths: seq<PathState>): (r: seq<PathState>)
    ensures |r| == |paths|
    ensures forall j :: 0 <= j < |paths| ==>
            r[j] == if paths[j].Waiting? || paths[j].Running? then Stopped else paths[j]
  {
    seq(|paths|, j requires 0 <= j < |paths| => if paths[j].Waiting? || paths[j].Running? then Stopped else paths[j])
  }

  // ---- runs ----

  ghost predicate Init(w: World)
  {
    && |w.paths| == |w.coords| == |w.tests|
    && (forall i :: 0 <= i < |w.paths| ==> w.paths[i] == if w.tests[i] then Waiting else Unavailable)
    && (forall i :: 0 <= i < |w.coords| ==> FreshCoord(w.coords[i]))
    && w.calls == [] && !w.changed && !w.cancelled && w.pc == Pick(0)
  }

  ghost predicate FreshCoord(c: C.Coord) { c == C.Fresh(c.tok, c.config, c.carriers) }

  ghost predicate Run(ws: seq<World>, es: seq<Event>)
  {
    && |ws| == |es| + 1
    && Init(ws[0])
    && forall n {:trigger es[n]} :: 0 <= n < |es| ==> Follows(ws[n], es[n], ws[n + 1])
  }

  ghost predicate Follows(w: World, e: Event, w': World) { Enabled(w, e) && w' == Step(w, e) }

  // ---- the invariant ----

  predicate Open(p: PathState) { p.Waiting? || p.Unavailable? }
  predicate Settled(p: PathState) { p.Done? || p.Unavailable? || p.Stopped? }

  /** The path the loop is working on; beyond every path once it is done looping. */
  function Cursor(w: World): nat
  {
    match w.pc
    case Pick(i) => i case Loop(i) => i case Select(i) => i case Left(i, _) => i case Enter(i) => i
    case Measure(i) => i case Collect(i) => i case Tell(i) => i case Finish(i) => i case AwaitFetch(i) => i
    case _ => |w.tests|
  }

  /** What holds of path j, given where the loop stands. */
  ghost predicate PathOk(w: World, j: nat)
    requires j < |w.paths| && |w.paths| == |w.coords| == |w.tests|
  {
    var p := w.paths[j];
    && (!w.tests[j] ==> p.Unavailable?)
    && (p.Stopped? ==> w.cancelled)
    && (p.Running? ==> w.coords[j].joined.fired)
    && (if Ending(w.pc) then !p.Running? && (EndsSettled(w) ==> Settled(p)) && (w.pc == Returned(false) ==> !p.Stopped?)
        else if j < Cursor(w) then Settled(p)
        else if j > Cursor(w) || w.pc.Pick? || Seeking(w.pc) then Open(p)
        else if Claimed(w.pc) then p.Running?
        else Settled(p))
  }

  /** The points at which the loop has accounted for every path. */
  predicate EndsSettled(w: World) { w.pc.Returned? || (w.pc.LastCheck? && !w.cancelled) }

  /** What holds of the loop's own position. */
  ghost predicate PcOk(w: World)
    requires |w.paths| == |w.coords| == |w.tests|
  {
    && Cursor(w) <= |w.tests|
    && (Seeking(w.pc) || Claimed(w.pc) || w.pc.AwaitFetch? ==> Cursor(w) < |w.tests| && w.tests[Cursor(w)])
    && (w.pc.Left? ==> (if w.pc.sawJoin then w.coords[w.pc.i].joined.fired
        else w.cancelled || w.paths[w.pc.i].Unavailable?))
    && (w.pc.Enter? ==> w.coords[w.pc.i].joined.fired || w.paths[w.pc.i].Unavailable?)
    && (w.pc.StopPeer? || w.pc.Grace? || w.pc.MarkStopped? || w.pc == Returned(true) ==> w.cancelled)
  }

  /** What holds of coordinator k: its signals are sound, and a verdict stands
      only once the loop has published it. */
  ghost predicate CoordOk(w: World, k: nat)
    requires k < |w.coords| == |w.tests|
  {
    var c := w.coords[k];
    && C.CoordValid(c)
    && (c.verdict != "" ==> k < Cursor(w) || (k == Cursor(w) && (w.pc.Finish? || w.pc.AwaitFetch?)))
    && (c.fetched.fired ==> c.verdict != "" || c.stopped)
  }

  /** A verdict on its way out is the published one, and "stopped" is true. */
  ghost predicate CallOk(w: World, call: Call)
  {
    && call.at < |w.coords|
    && (call.Replying? && call.reply.DoneReply? ==> call.reply.verdict == w.coords[call.at].verdict != "")
    && (call.Replying? && call.reply.StoppedReply? ==> w.coords[call.at].stopped)
  }

  ghost predicate PcOk'(w: World) { |w.paths| == |w.coords| == |w.tests| && PcOk(w) }

  ghost predicate Inv(w: World)
  {
    && |w.paths| == |w.coords| == |w.tests|
    && PcOk(w)
    && (forall j :: 0 <= j < |w.paths| ==> PathOk(w, j))
    && (forall k :: 0 <= k < |w.coords| ==> CoordOk(w, k))
    && (forall n :: 0 <= n < |w.calls| ==> CallOk(w, w.calls[n]))
  }

  // ---- how coordinators move in one step ----

  lemma TestStepEvolves(w: World, verdict: string, k: nat)
    requires Claimed(w.pc) && w.pc.i < |w.coords| == |w.paths| == |w.tests| && k < |w.coords| && CoordOk(w, k)
    ensures |TestStep(w, verdict).coords| == |w.coords|
    ensures C.Evolves(w.coords[k], TestStep(w, verdict).coords[k])
  {
    hide C.Evolves, C.CoordValid;
    C.OwnMovesEvolve(w.coords[k], verdict);
  }

  lemma AdvanceEvolves(w: World, choice: Choice, k: nat)
    requires AdvanceEnabled(w, choice) && k < |w.coords| == |w.paths| == |w.tests| && CoordOk(w, k)
    ensures |AdvanceStep(w, choice).coords| == |w.coords|
    ensures C.Evolves(w.coords[k], AdvanceStep(w, choice).coords[k])
  {
    hide C.Evolves, EndStep, C.CoordValid;
    C.OwnMovesEvolve(w.coords[k], "");
    if Claimed(w.pc) {
      TestStepEvolves(w, if choice.Publish? then choice.verdict else "", k);
    } else if Ending(w.pc) {
      EndStepEvolves(w, k);
    }
  }

  lemma EndStepEvolves(w: World, k: nat)
    requires Ending(w.pc) && k < |w.coords| == |w.tests|
    ensures |EndStep(w).coords| == |w.coords|
    ensures C.Evolves(w.coords[k], EndStep(w).coords[k])
  {
    hide C.Evolves, C.CoordValid;
    C.OwnMovesEvolve(w.coords[k], "");
  }

  lemma ServeStepEvolves(w: World, j: nat, rows: string, k: nat)
    requires j < |w.calls| && w.calls[j].Admitted? && w.calls[j].at < |w.coords| && k < |w.coords|
    ensures var w' := ServeStep(w, j, rows);
            |w'.coords| == |w.coords| && C.Evolves(w.coords[k], w'.coords[k])
            && C.LeavesRunAlone(w.coords[k], w'.coords[k])
  {
    var call := w.calls[j];
    C.ServeEvolves(w.coords[call.at], call.f, call.from, rows, Report(w, call.f).1);
  }

  lemma StepEvolves(w: World, e: Event, k: nat)
    requires Enabled(w, e) && k < |w.coords| == |w.paths| == |w.tests| && CoordOk(w, k)
    ensures |Step(w, e).coords| == |w.coords|
    ensures C.Evolves(w.coords[k], Step(w, e).coords[k])
  {
    hide C.Evolves, C.CoordValid, C.Admit, ServeStep, AdvanceStep, AdvanceEnabled, CoordOk, Fields, Atoi, Mark;
    C.OwnMovesEvolve(w.coords[k], "");
    match e
    case Serve(j, rows) => ServeStepEvolves(w, j, rows, k);
    case Advance(choice) => AdvanceEvolves(w, choice, k);
    case _ =>
  }

  // ---- how paths move in one step ----

  /** The moves a path may make from world w. */
  ghost predicate Allowed(w: World, j: nat, p: PathState, q: PathState)
    requires j < |w.coords|
  {
    || p == q
    || (p.Waiting? && q.Running? && w.pc == Enter(j) && w.coords[j].joined.fired)
    || (p.Waiting? && q.Unavailable?)
    || (p.Waiting? && q.Stopped? && w.pc.MarkStopped?)
    || (p.Running? && q.Done? && w.pc == Finish(j) && !w.cancelled)
    || (p.Running? && q.Stopped? && w.cancelled)
    || (p.Stopped? && q.Unavailable?)
  }

  lemma StepMovesPaths(w: World, e: Event, j: nat)
    requires Enabled(w, e) && |w.paths| == |w.coords| == |w.tests| && PcOk(w)
    requires j < |w.paths| && PathOk(w, j)
    ensures |Step(w, e).paths| == |w.paths|
    ensures Allowed(w, j, w.paths[j], Step(w, e).paths[j])
  {
    if e.Advance? {
      AdvanceMovesPath(w, e.choice, j);
    } else {
      hide Step, Enabled, PcOk, PathOk;
      RequestStepMoves(w, e, j);
    }
  }

  lemma AdvanceMovesPath(w: World, choice: Choice, j: nat)
    requires AdvanceEnabled(w, choice) && |w.paths| == |w.coords| == |w.tests| && PcOk(w)
    requires j < |w.paths| && PathOk(w, j)
    ensures |AdvanceStep(w, choice).paths| == |w.paths|
    ensures Allowed(w, j, w.paths[j], AdvanceStep(w, choice).paths[j])
  {
    if w.pc.Finish? || w.pc.Enter? { hide EndStep, SelectStep, EndsSettled; }
  }

  // ---- the invariant is kept ----

  /** The parts of the invariant a path's own obligation rests on. */
  ghost predicate Around(w: World, j: nat)
  {
    && |w.paths| == |w.coords| == |w.tests| && j < |w.paths|
    && PcOk(w) && PathOk(w, j) && CoordOk(w, j)
  }

  lemma SelectKeepsPath(w: World, choice: Choice, j: nat)
    requires w.pc.Select? && SelectEnabled(w, w.pc.i, choice) && Around(w, j)
    ensures var w' := SelectStep(w, w.pc.i, choice);
            |w'.paths| == |w'.coords| == |w'.tests| == |w.paths| && PathOk(w', j)
  {
  }

  lemma SeekKeepsPath(w: World, j: nat)
    requires (w.pc.Pick? || Seeking(w.pc)) && !w.pc.Select? && AdvanceEnabled(w, Proceed) && Around(w, j)
    ensures var w' := SeekStep(w);
            |w'.paths| == |w'.coords| == |w'.tests| == |w.paths| && PathOk(w', j)
  {
    if w.pc.Enter? { EnterKeepsPath(w, j); } else if w.pc.Pick? { PickKeepsPath(w, j); }
  }

  lemma PickKeepsPath(w: World, j: nat)
    requires w.pc.Pick? && AdvanceEnabled(w, Proceed) && Around(w, j)
    ensures var w' := SeekStep(w);
            |w'.paths| == |w'.coords| == |w'.tests| == |w.paths| && PathOk(w', j)
  {
    hide C.CoordValid;
  }

  lemma EnterKeepsPath(w: World, j: nat)
    requires w.pc.Enter? && AdvanceEnabled(w, Proceed) && Around(w, j)
    ensures var w' := SeekStep(w);
            |w'.paths| == |w'.coords| == |w'.tests| == |w.paths| && PathOk(w', j)
  {
    hide C.CoordValid;
  }

  lemma TestKeepsPath(w: World, verdict: string, j: nat)
    requires (Claimed(w.pc) || w.pc.AwaitFetch?) && Around(w, j)
    ensures var w' := TestStep(w, verdict);
            |w'.paths| == |w'.coords| == |w'.tests| == |w.paths| && PathOk(w', j)
  {
    hide C.CoordValid, EndsSettled;
    if w.pc.Finish? || w.pc.AwaitFetch? {
    } else {
      assert TestStep(w, verdict).paths == w.paths;
    }
  }

  lemma EndKeepsPath(w: World, j: nat)
    requires Ending(w.pc) && Around(w, j)
    ensures var w' := EndStep(w);
            |w'.paths| == |w'.coords| == |w'.tests| == |w.paths| && PathOk(w', j)
  {
  }

  lemma AdvanceKeepsPath(w: World, choice: Choice, j: nat)
    requires AdvanceEnabled(w, choice) && Around(w, j)
    ensures var w' := AdvanceStep(w, choice);
            |w'.paths| == |w'.coords| == |w'.tests| == |w.paths| && PathOk(w', j)
  {
    if w.pc.Select? {
      SelectKeepsPath(w, choice, j);
    } else if w.pc.Pick? || Seeking(w.pc) {
      SeekKeepsPath(w, j);
    } else if Ending(w.pc) {
      EndKeepsPath(w, j);
    } else {
      TestKeepsPath(w, if choice.Publish? then choice.verdict else "", j);
    }
  }

  /** What every step but the loop's own leaves alone: a request can move a path
      nowhere but to unavailable, and join or release a coordinator. */
  ghost predicate RequestMoves(w: World, w': World, k: nat)
  {
    && |w.paths| == |w.coords| == |w.tests| && |w'.paths| == |w'.coords| == |w.tests| && w'.tests == w.tests
    && w'.pc == w.pc && (w.cancelled ==> w'.cancelled)
    && (k < |w.paths| ==>
        && (w'.paths[k] == w.paths[k] || ((w.paths[k].Waiting? || w.paths[k].Stopped?) && w'.paths[k].Unavailable?))
        && w'.coords[k].verdict == w.coords[k].verdict && w'.coords[k].stopped == w.coords[k].stopped
        && (w.coords[k].joined.fired ==> w'.coords[k].joined.fired))
  }

  lemma RequestStepMoves(w: World, e: Event, k: nat)
    requires Enabled(w, e) && !e.Advance? && |w.paths| == |w.coords| == |w.tests|
    ensures RequestMoves(w, Step(w, e), k)
  {
    hide C.Serve, C.Admit, Fields, Atoi, C.Evolves;
    if e.Serve? && k < |w.coords| { ServeStepEvolves(w, e.call, e.rows, k); }
  }

  lemma StepKeepsPath(w: World, e: Event, j: nat)
    requires Enabled(w, e) && Around(w, j)
    ensures var w' := Step(w, e);
            |w'.paths| == |w'.coords| == |w'.tests| == |w.paths| && PathOk(w', j)
  {
    if e.Advance? {
      AdvanceKeepsPath(w, e.choice, j);
    } else {
      hide Step;
      RequestStepMoves(w, e, j);
    }
  }

  lemma SelectKeepsPc(w: World, choice: Choice)
    requires w.pc.Select? && SelectEnabled(w, w.pc.i, choice) && |w.paths| == |w.coords| == |w.tests| && PcOk(w)
    requires Cursor(w) < |w.paths| ==> PathOk(w, Cursor(w))
    ensures var w' := SelectStep(w, w.pc.i, choice);
            |w'.paths| == |w'.coords| == |w'.tests| == |w.paths| && PcOk(w')
  {
  }

  lemma SeekKeepsPc(w: World)
    requires (w.pc.Pick? || Seeking(w.pc)) && !w.pc.Select? && AdvanceEnabled(w, Proceed) &&
        |w.paths| == |w.coords| == |w.tests| && PcOk(w)
    requires Cursor(w) < |w.paths| ==> PathOk(w, Cursor(w))
    ensures var w' := SeekStep(w);
            |w'.paths| == |w'.coords| == |w'.tests| == |w.paths| && PcOk(w')
  {
  }

  lemma TestKeepsPc(w: World, verdict: string)
    requires (Claimed(w.pc) || w.pc.AwaitFetch?) && |w.paths| == |w.coords| == |w.tests| && PcOk(w)
    requires Cursor(w) < |w.paths| ==> PathOk(w, Cursor(w))
    ensures var w' := TestStep(w, verdict);
            |w'.paths| == |w'.coords| == |w'.tests| == |w.paths| && PcOk(w')
  {
  }

  lemma EndKeepsPc(w: World)
    requires Ending(w.pc) && |w.paths| == |w.coords| == |w.tests| && PcOk(w)
    requires Cursor(w) < |w.paths| ==> PathOk(w, Cursor(w))
    ensures var w' := EndStep(w);
            |w'.paths| == |w'.coords| == |w'.tests| == |w.paths| && PcOk(w')
  {
  }

  lemma AdvanceKeepsPc(w: World, choice: Choice)
    requires AdvanceEnabled(w, choice) && |w.paths| == |w.coords| == |w.tests| && PcOk(w)
    requires Cursor(w) < |w.paths| ==> PathOk(w, Cursor(w))
    ensures var w' := AdvanceStep(w, choice);
            |w'.paths| == |w'.coords| == |w'.tests| == |w.paths| && PcOk(w')
  {
    hide SelectStep, SeekStep, TestStep, EndStep, PathOk, PcOk;
    if w.pc.Select? {
      SelectKeepsPc(w, choice);
    } else if w.pc.Pick? || Seeking(w.pc) {
      SeekKeepsPc(w);
    } else if Ending(w.pc) {
      EndKeepsPc(w);
    } else {
      TestKeepsPc(w, if choice.Publish? then choice.verdict else "");
    }
  }

  lemma StepKeepsPc(w: World, e: Event)
    requires Enabled(w, e) && |w.paths| == |w.coords| == |w.tests| && PcOk(w)
    requires Cursor(w) < |w.paths| ==> PathOk(w, Cursor(w)) && CoordOk(w, Cursor(w))
    ensures var w' := Step(w, e);
            |w'.paths| == |w'.coords| == |w'.tests| == |w.paths| && PcOk(w')
  {
    if e.Advance? {
      AdvanceKeepsPc(w, e.choice);
    } else {
      hide Step;
      RequestStepMoves(w, e, Cursor(w));
    }
  }

  lemma TestKeepsCoord(w: World, verdict: string, k: nat)
    requires (Claimed(w.pc) || w.pc.AwaitFetch?) && PcOk'(w) && k < |w.coords| && CoordOk(w, k)
    ensures var w' := TestStep(w, verdict);
            |w'.coords| == |w'.tests| == |w.coords| && CoordOk(w', k)
  {
    hide C.CoordValid;
    if w.pc.Finish? || w.pc.AwaitFetch? {
      assert TestStep(w, verdict).coords == w.coords;
    } else {
      TestTouches(w, verdict, k);
    }
  }

  lemma TestTouches(w: World, verdict: string, k: nat)
    requires (w.pc.Measure? || w.pc.Collect? || w.pc.Tell?) && PcOk'(w) && k < |w.coords| && CoordOk(w, k)
    ensures var w' := TestStep(w, verdict);
            |w'.coords| == |w'.tests| == |w.coords| && CoordOk(w', k)
  {
    hide C.CoordValid;
    if k == w.pc.i {
      C.TestingKeepsValid(w.coords[k], verdict);
      assert w.coords[k].verdict == "";
    }
  }

  lemma EndKeepsCoord(w: World, k: nat)
    requires Ending(w.pc) && PcOk'(w) && k < |w.coords| && CoordOk(w, k)
    ensures var w' := EndStep(w);
            |w'.coords| == |w'.tests| == |w.coords| && CoordOk(w', k)
  {
  }

  lemma SeekKeepsCoord(w: World, k: nat)
    requires (w.pc.Pick? || Seeking(w.pc)) && !w.pc.Select? && AdvanceEnabled(w, Proceed)
    requires PcOk'(w) && k < |w.coords| && CoordOk(w, k)
    ensures var w' := SeekStep(w);
            |w'.coords| == |w'.tests| == |w.coords| && CoordOk(w', k)
  {
  }

  lemma AdvanceKeepsCoord(w: World, choice: Choice, k: nat)
    requires AdvanceEnabled(w, choice) && PcOk'(w) && k < |w.coords| && CoordOk(w, k)
    ensures var w' := AdvanceStep(w, choice);
            |w'.coords| == |w'.tests| == |w.coords| && CoordOk(w', k)
  {
    if w.pc.Select? {
    } else if w.pc.Pick? || Seeking(w.pc) {
      SeekKeepsCoord(w, k);
    } else if Ending(w.pc) {
      EndKeepsCoord(w, k);
    } else {
      TestKeepsCoord(w, if choice.Publish? then choice.verdict else "", k);
    }
  }

  lemma StepKeepsCoord(w: World, e: Event, k: nat)
    requires Enabled(w, e) && |w.paths| == |w.coords| == |w.tests| && k < |w.coords| && CoordOk(w, k) && PcOk(w)
    requires e.Deliver? ==> CallOk(w, w.calls[e.call])
    ensures |Step(w, e).coords| == |Step(w, e).tests| == |w.coords|
    ensures CoordOk(Step(w, e), k)
  {
    if e.Advance? {
      AdvanceKeepsCoord(w, e.choice, k);
    } else {
      RequestStepMoves(w, e, k);
      RequestKeepsSignals(w, e, k);
    }
  }

  /** A request leaves a coordinator's signals sound, and releases only what is
      published or stopped. */
  lemma RequestKeepsSignals(w: World, e: Event, k: nat)
    requires Enabled(w, e) && !e.Advance? && |w.paths| == |w.coords| == |w.tests| && k < |w.coords| && CoordOk(w, k)
    requires e.Deliver? ==> CallOk(w, w.calls[e.call])
    ensures |Step(w, e).coords| == |w.coords| && C.CoordValid(Step(w, e).coords[k])
    ensures Step(w, e).coords[k].fetched.fired ==> w.coords[k].verdict != "" || w.coords[k].stopped
  {
    hide C.Serve, C.Admit, Fields, Atoi, Mark;
    if e.Serve? { ServeStepEvolves(w, e.call, e.rows, k); }
  }

  /** A call that was already there is still sound. */
  lemma OldCallStays(w: World, e: Event, call: Call)
    requires Enabled(w, e) && |w.coords| == |w.paths| == |w.tests| && CallOk(w, call) && CoordOk(w, call.at)
    ensures CallOk(Step(w, e), call)
  {
    StepEvolves(w, e, call.at);
  }

  /** The call a step creates or moves on, if it does, is sound. */
  lemma NewCallSound(w: World, e: Event, n: nat)
    requires Enabled(w, e) && |w.coords| == |w.paths| == |w.tests| && n < |Step(w, e).calls|
    requires if e.Arrive? then n == |w.calls|
        else (e.Serve? || e.SignalJoin?) && n == e.call && CoordOk(w, w.calls[n].at)
    ensures CallOk(Step(w, e), Step(w, e).calls[n])
  {
    if e.Serve? {
      var call := w.calls[e.call];
      ServeStepEvolves(w, e.call, e.rows, call.at);
    }
  }

  lemma StepKeepsInv(w: World, e: Event)
    requires Inv(w) && Enabled(w, e)
    ensures Inv(Step(w, e))
  {
    var w' := Step(w, e);
    StepKeepsPc(w, e);
    forall j | 0 <= j < |w'.paths| ensures PathOk(w', j) { assert CoordOk(w, j); StepKeepsPath(w, e, j); }
    forall k | 0 <= k < |w'.coords| ensures CoordOk(w', k) { StepKeepsCoord(w, e, k); }
    forall n | 0 <= n < |w'.calls| ensures CallOk(w', w'.calls[n]) { StepKeepsCall(w, e, n); }
  }

  /** The call at place n after a step, if the step neither made nor answered it. */
  lemma CallKept(w: World, e: Event, n: nat) returns (m: nat)
    requires Enabled(w, e) && n < |Step(w, e).calls|
    requires !(e.Arrive? && n == |w.calls|) && !((e.Serve? || e.SignalJoin?) && n == e.call)
    ensures m < |w.calls| && Step(w, e).calls[n] == w.calls[m]
  {
    hide AdvanceStep, C.Serve, Report, Fields;
    m := if e.Deliver? && n >= e.call then n + 1 else n;
    match e
    case Advance(choice) => AdvanceKeepsCalls(w, choice);
    case _ =>
  }

  lemma AdvanceKeepsCalls(w: World, choice: Choice)
    requires AdvanceEnabled(w, choice)
    ensures AdvanceStep(w, choice).calls == w.calls
  {
  }

  lemma StepKeepsCall(w: World, e: Event, n: nat)
    requires Enabled(w, e) && n < |Step(w, e).calls| && |w.coords| == |w.paths| == |w.tests|
    requires forall m :: 0 <= m < |w.calls| ==> CallOk(w, w.calls[m])
    requires forall k :: 0 <= k < |w.coords| ==> CoordOk(w, k)
    ensures CallOk(Step(w, e), Step(w, e).calls[n])
  {
    hide CoordOk, Step;
    if (e.Arrive? && n == |w.calls|) || ((e.Serve? || e.SignalJoin?) && n == e.call) {
      NewCallSound(w, e, n);
    } else {
      var m := CallKept(w, e, n);
      OldCallStays(w, e, w.calls[m]);
    }
  }

  lemma {:induction false} RunKeepsInv(ws: seq<World>, es: seq<Event>, n: nat)
    requires Run(ws, es) && n < |ws|
    ensures Inv(ws[n]) && |ws[n].paths| == |ws[0].paths|
    decreases n
  {
    if n > 0 {
      RunKeepsInv(ws, es, n - 1);
      assert Follows(ws[n - 1], es[n - 1], ws[n]);
      StepKeepsInv(ws[n - 1], es[n - 1]);
      StepKeepsPc(ws[n - 1], es[n - 1]);
    } else {
      forall j | 0 <= j < |ws[0].paths| ensures PathOk(ws[0], j) { }
      forall k | 0 <= k < |ws[0].coords| ensures CoordOk(ws[0], k) { assert FreshCoord(ws[0].coords[k]); }
    }
  }

  // ---- theorems about whole runs: the paths ----

  /** At most one path is ever being measured. */
  lemma OnePathAtATime(ws: seq<World>, es: seq<Event>, n: nat, i: nat, j: nat)
    requires Run(ws, es) && n < |ws| && i < |ws[n].paths| && j < |ws[n].paths|
    requires ws[n].paths[i].Running? && ws[n].paths[j].Running?
    ensures i == j
  {
    RunKeepsInv(ws, es, n);
    assert PathOk(ws[n], i) && PathOk(ws[n], j);
  }

  lemma RunMovesPath(ws: seq<World>, es: seq<Event>, n: nat, j: nat)
    requires Run(ws, es) && n < |es| && j < |ws[0].paths|
    ensures Inv(ws[n]) && |ws[n].paths| == |ws[n + 1].paths| == |ws[0].paths|
    ensures Allowed(ws[n], j, ws[n].paths[j], ws[n + 1].paths[j])
  {
    RunKeepsInv(ws, es, n);
    RunKeepsInv(ws, es, n + 1);
    assert Follows(ws[n], es[n], ws[n + 1]);
    assert PathOk(ws[n], j);
    StepMovesPaths(ws[n], es[n], j);
  }

  /** A finished or unreachable path stays as it is for the rest of the run. */
  lemma {:induction false} FinishedPathsStay(ws: seq<World>, es: seq<Event>, a: nat, b: nat, j: nat)
    requires Run(ws, es) && a <= b < |ws| && j < |ws[0].paths|
    requires |ws[a].paths| == |ws[0].paths| && (ws[a].paths[j].Done? || ws[a].paths[j].Unavailable?)
    ensures |ws[b].paths| == |ws[0].paths| && ws[b].paths[j] == ws[a].paths[j]
    decreases b - a
  {
    hide Run, Inv;
    if a < b {
      RunLength(ws, es);
      FinishedPathsStay(ws, es, a, b - 1, j);
      RunMovesPath(ws, es, b - 1, j);
    }
  }

  /** A path being measured was claimed from waiting, at a moment when its own
      coordinator had been joined, and has been running ever since. */
  lemma {:induction false} RunningWasClaimed(ws: seq<World>, es: seq<Event>, n: nat, j: nat) returns (a: nat)
    requires Run(ws, es) && n < |ws| && j < |ws[0].paths|
    requires |ws[n].paths| == |ws[0].paths| && ws[n].paths[j].Running?
    ensures a < n && |ws[a].paths| == |ws[0].paths| == |ws[a].coords|
    ensures ws[a].paths[j].Waiting? && ws[a].pc == Enter(j) && ws[a].coords[j].joined.fired
    ensures forall m :: a < m <= n ==> |ws[m].paths| == |ws[0].paths| && ws[m].paths[j].Running?
    decreases n
  {
    RunKeepsInv(ws, es, 0);
    assert PathOk(ws[0], j);
    RunMovesPath(ws, es, n - 1, j);
    if ws[n - 1].paths[j].Running? {
      a := RunningWasClaimed(ws, es, n - 1, j);
    } else {
      a := n - 1;
    }
  }

  /** How the loop ends: with no cancellation seen, every path is done or
      unreachable; with one, every path is done, unreachable or stopped. It
      stays so whatever still arrives. */
  lemma RunEndsSettled(ws: seq<World>, es: seq<Event>, n: nat, j: nat)
    requires Run(ws, es) && n < |ws| && ws[n].pc.Returned? && j < |ws[n].paths|
    ensures !ws[n].pc.sawCancel ==> ws[n].paths[j].Done? || ws[n].paths[j].Unavailable?
    ensures ws[n].pc.sawCancel ==> ws[n].paths[j].Done? || ws[n].paths[j].Unavailable? || ws[n].paths[j].Stopped?
    ensures ws[n].pc.sawCancel ==> ws[n].cancelled
  {
    RunKeepsInv(ws, es, n);
    assert PathOk(ws[n], j);
  }

  // ---- theorems about whole runs: the coordinators ----

  lemma RunCoords(ws: seq<World>, es: seq<Event>, n: nat)
    requires Run(ws, es) && n < |ws|
    ensures |ws[n].coords| == |ws[n].paths| == |ws[n].tests| == |ws[0].coords|
  {
    hide Run;
    RunKeepsInv(ws, es, n);
    RunKeepsInv(ws, es, 0);
  }

  lemma {:induction false} RunEvolves(ws: seq<World>, es: seq<Event>, a: nat, b: nat, k: nat)
    requires Run(ws, es) && a <= b < |ws| && k < |ws[0].coords|
    ensures |ws[a].coords| == |ws[b].coords| == |ws[0].coords|
    ensures C.Evolves(ws[a].coords[k], ws[b].coords[k])
    decreases b - a
  {
    hide Run, Inv, Step, Enabled, CoordOk, C.Evolves;
    RunCoords(ws, es, a);
    if a < b {
      RunLength(ws, es);
      RunEvolves(ws, es, a, b - 1, k);
      RunStep(ws, es, b - 1);
      RunCoords(ws, es, b - 1);
      StepEvolves(ws[b - 1], es[b - 1], k);
      C.EvolvesTransitive(ws[a].coords[k], ws[b - 1].coords[k], ws[b].coords[k]);
    } else {
      C.OwnMovesEvolve(ws[a].coords[k], "");
    }
  }

  /** From the moment a peer is noted, the address the test dials, the ports it
      dials there and the preflight codes it reports are fixed. */
  lemma EndpointFixedAtJoin(ws: seq<World>, es: seq<Event>, a: nat, b: nat, k: nat)
    requires Run(ws, es) && a <= b < |ws| && k < |ws[0].coords|
    requires |ws[a].coords| == |ws[0].coords| && ws[a].coords[k].peer != ""
    ensures |ws[b].coords| == |ws[0].coords|
    ensures ws[b].coords[k].peer == ws[a].coords[k].peer
    ensures ws[b].coords[k].directPorts == ws[a].coords[k].directPorts
    ensures ws[b].coords[k].httpsProbes == ws[a].coords[k].httpsProbes
  {
    RunEvolves(ws, es, a, b, k);
  }

  /** So a case is never dialled at two places, whenever its test asks. */
  lemma DialFixedAtJoin(ws: seq<World>, es: seq<Event>, a: nat, b: nat, k: nat, case': C.Case)
    requires Run(ws, es) && a <= b < |ws| && k < |ws[0].coords|
    requires |ws[a].coords| == |ws[0].coords| && ws[a].coords[k].peer != ""
    ensures |ws[b].coords| == |ws[0].coords|
    ensures var before, after := C.Dial(ws[a].coords[k], case'), C.Dial(ws[b].coords[k], case');
            before.Some? && after.Some? ==> before == after
  {
    hide Run;
    EndpointFixedAtJoin(ws, es, a, b, k);
  }

  /** The loop's three steps with a claimed path's coordinator are what a test does. */
  lemma TestIsThreeSteps(w: World, i: nat, verdict: string)
    requires w.pc == Measure(i) && i < |w.coords| == |w.paths| == |w.tests|
    ensures var w' := TestStep(TestStep(TestStep(w, verdict), verdict), verdict);
            w'.pc == Finish(i) && w'.coords == w.coords[i := C.Tested(w.coords[i], verdict)] && w'.paths == w.paths
  {
  }

  /** Every request comes from a host the kernel could name. */
  ghost predicate NamedHosts(es: seq<Event>)
  {
    forall n :: 0 <= n < |es| && es[n].Arrive? ==> C.PeerHost(es[n].from) != ""
  }

  /** A joined coordinator has a peer, and so does the source of a noted hello. */
  ghost predicate PeersKnown(w: World)
  {
    && (forall k :: 0 <= k < |w.coords| ==> w.coords[k].joined.fired ==> w.coords[k].peer != "")
    && (forall n :: 0 <= n < |w.calls| ==> CallKnowsPeer(w, w.calls[n]))
  }

  lemma StepKeepsJoinedPeers(w: World, e: Event, k: nat)
    requires Inv(w) && Enabled(w, e) && PeersKnown(w) && k < |w.coords|
    ensures |Step(w, e).coords| == |w.coords|
    ensures Step(w, e).coords[k].joined.fired ==> Step(w, e).coords[k].peer != ""
  {
    hide Step, C.Admit, AdvanceEnabled, PathOk, PcOk, CallOk;
    assert e.SignalJoin? ==> CallKnowsPeer(w, w.calls[e.call]);
    assert CoordOk(w, k);
    StepEvolves(w, e, k);
    StepSignals(w, e, k);
  }

  lemma AdvanceKeepsSignals(w: World, choice: Choice, k: nat)
    requires AdvanceEnabled(w, choice) && |w.coords| == |w.paths| == |w.tests| && k < |w.coords|
    ensures |AdvanceStep(w, choice).coords| == |w.coords|
    ensures var c, c' := w.coords[k], AdvanceStep(w, choice).coords[k];
            c'.joined == c.joined && c'.fetched == c.fetched
  {
  }

  /** A coordinator is joined and released nowhere but in these two steps. */
  lemma StepSignals(w: World, e: Event, k: nat)
    requires Enabled(w, e) && |w.coords| == |w.paths| == |w.tests| && k < |w.coords|
    ensures |Step(w, e).coords| == |w.coords|
    ensures var c, c' := w.coords[k], Step(w, e).coords[k];
            && (c'.joined != c.joined ==> e.SignalJoin? && w.calls[e.call].at == k)
            && (c'.fetched != c.fetched ==>
                e.Deliver? && e.whole && w.calls[e.call].at == k &&
                  C.Releases(w.calls[e.call].f, w.calls[e.call].reply))
  {
    hide AdvanceStep, AdvanceEnabled, ServeStep, C.Releases, C.Admit, Fields;
    match e
    case Serve(j, rows) =>
      hide C.Evolves;
      ServeStepEvolves(w, j, rows, k);
    case Advance(choice) => AdvanceKeepsSignals(w, choice, k);
    case _ =>
  }

  lemma StepKeepsPeers(w: World, e: Event)
    requires Inv(w) && Enabled(w, e) && PeersKnown(w) && (e.Arrive? ==> C.PeerHost(e.from) != "")
    ensures PeersKnown(Step(w, e))
  {
    var w' := Step(w, e);
    StepKeepsInv(w, e);
    forall k | 0 <= k < |w'.coords| ensures w'.coords[k].joined.fired ==> w'.coords[k].peer != "" {
      StepKeepsPc(w, e);
      StepKeepsJoinedPeers(w, e, k);
    }
    forall n | 0 <= n < |w'.calls| ensures CallKnowsPeer(w', w'.calls[n]) { StepKeepsCallPeer(w, e, n); }
  }

  /** What a call must know about its peer. */
  ghost predicate CallKnowsPeer(w: World, call: Call)
  {
    && call.at < |w.coords|
    && (call.Joining? ==> w.coords[call.at].peer != "")
    && (call.Admitted? ==> C.PeerHost(call.from) != "")
  }

  lemma OldCallKnowsPeer(w: World, e: Event, call: Call)
    requires Enabled(w, e) && |w.coords| == |w.paths| == |w.tests| && CallKnowsPeer(w, call) && CoordOk(w, call.at)
    ensures CallKnowsPeer(Step(w, e), call)
  {
    StepEvolves(w, e, call.at);
  }

  lemma ServedCallKnowsPeer(w: World, j: nat, rows: string)
    requires Enabled(w, Serve(j, rows)) && CallKnowsPeer(w, w.calls[j])
    ensures CallKnowsPeer(ServeStep(w, j, rows), ServeStep(w, j, rows).calls[j])
  {
    var call := w.calls[j];
    if C.IsHello(call.f) {
      C.HelloSettlesPeer(w.coords[call.at], call.f, call.from, rows, Report(w, call.f).1);
    }
  }

  lemma NewCallKnowsPeer(w: World, e: Event, n: nat)
    requires Enabled(w, e) && n < |Step(w, e).calls|
    requires if e.Arrive? then n == |w.calls| && C.PeerHost(e.from) != ""
             else (e.Serve? || e.SignalJoin?) && n == e.call && CallKnowsPeer(w, w.calls[n])
    ensures CallKnowsPeer(Step(w, e), Step(w, e).calls[n])
  {
    if e.Serve? { ServedCallKnowsPeer(w, n, e.rows); }
  }

  lemma StepKeepsCallPeer(w: World, e: Event, n: nat)
    requires Enabled(w, e) && n < |Step(w, e).calls| && |w.coords| == |w.paths| == |w.tests|
    requires forall m :: 0 <= m < |w.calls| ==> CallKnowsPeer(w, w.calls[m]) && CoordOk(w, w.calls[m].at)
    requires e.Arrive? ==> C.PeerHost(e.from) != ""
    ensures CallKnowsPeer(Step(w, e), Step(w, e).calls[n])
  {
    hide CallKnowsPeer, CoordOk, Step;
    if (e.Arrive? && n == |w.calls|) || ((e.Serve? || e.SignalJoin?) && n == e.call) {
      NewCallKnowsPeer(w, e, n);
    } else {
      var m := CallKept(w, e, n);
      OldCallKnowsPeer(w, e, w.calls[m]);
    }
  }

  /** The peer a measured path dials is known, so by EndpointFixedAtJoin it is
      the one that was there when the path was claimed. */
  lemma {:induction false} RunningPathHasPeer(ws: seq<World>, es: seq<Event>, n: nat)
    requires Run(ws, es) && NamedHosts(es) && n < |ws|
    ensures Inv(ws[n]) && PeersKnown(ws[n])
    ensures forall j :: 0 <= j < |ws[n].paths| && ws[n].paths[j].Running? ==> ws[n].coords[j].peer != ""
    decreases n
  {
    if n > 0 {
      RunningPathHasPeer(ws, es, n - 1);
      assert Follows(ws[n - 1], es[n - 1], ws[n]);
      StepKeepsPeers(ws[n - 1], es[n - 1]);
    } else {
      forall k | 0 <= k < |ws[0].coords| ensures !ws[0].coords[k].joined.fired { assert FreshCoord(ws[0].coords[k]); }
    }
    RunKeepsInv(ws, es, n);
    forall j | 0 <= j < |ws[n].paths| && ws[n].paths[j].Running? ensures ws[n].coords[j].peer != "" {
      assert PathOk(ws[n], j);
    }
  }

  /** The event answers a "result" request put to coordinator k. */
  ghost predicate AnswersResult(w: World, e: Event, k: nat)
  {
    e.Serve? && Enabled(w, e) && w.calls[e.call].at == k
    && |w.calls[e.call].f| == 2 && C.VerbOf(w.calls[e.call].f[0]) == C.Result
  }

  /** Successive answers to "result" only move from wait to live rows to the
      verdict, and the verdict never changes. */
  lemma ResultsOnlyAdvance(ws: seq<World>, es: seq<Event>, a: nat, b: nat, k: nat)
    requires Run(ws, es) && a <= b < |es| && k < |ws[0].coords|
    requires AnswersResult(ws[a], es[a], k) && AnswersResult(ws[b], es[b], k)
    ensures var ra := ws[a + 1].calls; var rb := ws[b + 1].calls;
            es[a].call < |ra| && es[b].call < |rb|
            && ra[es[a].call].Replying? && rb[es[b].call].Replying?
            && C.ResultRank(ra[es[a].call].reply) <= C.ResultRank(rb[es[b].call].reply)
            && (ra[es[a].call].reply.DoneReply? ==> rb[es[b].call].reply == ra[es[a].call].reply)
  {
    RunEvolves(ws, es, a, b, k);
    assert Follows(ws[a], es[a], ws[a + 1]) && Follows(ws[b], es[b], ws[b + 1]);
    C.ResultsOnlyAdvance(ws[a].coords[k], ws[b].coords[k], es[a].rows, es[b].rows);
  }

  /** Once a coordinator has been told to stop, every later request that carries
      the token is answered "stopped" and touches nothing; one without the token
      touches nothing at any time. */
  lemma StoppedForGood(ws: seq<World>, es: seq<Event>, a: nat, b: nat, k: nat)
    requires Run(ws, es) && a <= b < |es| && k < |ws[0].coords|
    requires |ws[a].coords| == |ws[0].coords| && ws[a].coords[k].stopped
    requires es[b].Arrive? && es[b].at == k
    ensures var f := Fields(es[b].line);
            ws[b + 1] == if |f| < 2 || f[1] != ws[0].coords[k].tok then ws[b]
                         else ws[b].(calls := ws[b].calls + [Replying(k, f, C.StoppedReply)])
  {
    RunEvolves(ws, es, a, b, k);
    RunEvolves(ws, es, 0, b, k);
    assert Follows(ws[b], es[b], ws[b + 1]);
  }

  lemma TokenlessChangesNothing(ws: seq<World>, es: seq<Event>, n: nat)
    requires Run(ws, es) && n < |es| && es[n].Arrive? && es[n].at < |ws[0].coords|
    requires var f := Fields(es[n].line); |f| < 2 || f[1] != ws[0].coords[es[n].at].tok
    ensures ws[n + 1] == ws[n]
  {
    RunEvolves(ws, es, 0, n, es[n].at);
    assert Follows(ws[n], es[n], ws[n + 1]);
  }

  /** What sets off the release signal of coordinator k. */
  ghost predicate ReleaseCause(w: World, e: Event, k: nat)
  {
    && e.Deliver? && e.whole && Enabled(w, e) && w.calls[e.call].at == k
    && var call := w.calls[e.call];
       || (call.reply.DoneReply? && call.reply.verdict == w.coords[k].verdict != "")
       || (call.reply.StoppedReply? && w.coords[k].stopped && C.StopAcknowledged(call.f))
  }

  lemma StepReleases(w: World, e: Event, k: nat)
    requires Enabled(w, e) && |w.coords| == |w.paths| == |w.tests| && k < |w.coords|
    requires e.Deliver? ==> CallOk(w, w.calls[e.call])
    ensures |Step(w, e).coords| == |w.coords|
    ensures Step(w, e).coords[k].fetched != w.coords[k].fetched ==> ReleaseCause(w, e, k)
  {
    hide Step;
    StepSignals(w, e, k);
  }

  /** The release signal: never closed twice; set off only by the complete
      delivery of the published verdict, or of "stopped" to a request whose
      sender acts on it. The join signal is never closed twice either. */
  lemma ReleasedOnce(ws: seq<World>, es: seq<Event>, n: nat, k: nat)
    requires Run(ws, es) && n < |es| && k < |ws[0].coords|
    ensures |ws[n].coords| == |ws[n + 1].coords| == |ws[0].coords|
    ensures ws[n + 1].coords[k].fetched.closes <= 1 && ws[n + 1].coords[k].joined.closes <= 1
    ensures ws[n + 1].coords[k].fetched != ws[n].coords[k].fetched ==> ReleaseCause(ws[n], es[n], k)
  {
    RunKeepsInv(ws, es, n);
    RunKeepsInv(ws, es, n + 1);
    assert Follows(ws[n], es[n], ws[n + 1]);
    assert CoordOk(ws[n + 1], k);
    if es[n].Deliver? { assert CallOk(ws[n], ws[n].calls[es[n].call]); }
    StepReleases(ws[n], es[n], k);
  }

  /** The peer's measurements are taken once: nothing is sent while the slot is
      full, and once one was sent no later report replaces it. */
  lemma FirstReportsStand(ws: seq<World>, es: seq<Event>, a: nat, b: nat, k: nat)
    requires Run(ws, es) && a <= b < |ws| && k < |ws[0].coords|
    ensures |ws[a].coords| == |ws[b].coords| == |ws[0].coords|
    ensures var p, q := ws[a].coords[k].pmtu, ws[b].coords[k].pmtu;
            (!p.sent ==> p.buffer == []) && (p.sent ==> q.sent && (q.buffer == p.buffer || q.buffer == []))
    ensures var p, q := ws[a].coords[k].spoof, ws[b].coords[k].spoof;
            (!p.sent ==> p.buffer == []) && (p.sent ==> q.sent && (q.buffer == p.buffer || q.buffer == []))
  {
    RunEvolves(ws, es, a, b, k);
    RunKeepsInv(ws, es, a);
    assert CoordOk(ws[a], k);
  }

  // ---- what the loop leaves behind ----

  /** Coordinator k has been told to stop as far as the loop has come with it, and
      a path that is done has its verdict out. */
  ghost predicate Handled(w: World, k: nat)
    requires k < |w.coords| == |w.paths| == |w.tests|
  {
    && (w.tests[k] && (w.pc.Grace? || w.pc.MarkStopped? || w.pc == Returned(true) || (w.pc.StopPeer? && k < w.pc.k))
        ==> w.coords[k].stopped)
    && (w.paths[k].Done? || w.pc == Finish(k) ==> w.coords[k].verdict != "")
  }

  lemma SelectHandles(w: World, choice: Choice, k: nat)
    requires w.pc.Select? && SelectEnabled(w, w.pc.i, choice) && k < |w.coords| == |w.paths| == |w.tests| &&
        Handled(w, k)
    ensures var w' := SelectStep(w, w.pc.i, choice);
            |w'.coords| == |w'.paths| == |w'.tests| == |w.tests| && Handled(w', k)
  {
  }

  lemma SeekHandles(w: World, k: nat)
    requires (w.pc.Pick? || Seeking(w.pc)) && !w.pc.Select? && AdvanceEnabled(w, Proceed) &&
        k < |w.coords| == |w.paths| == |w.tests| && Handled(w, k)
    ensures var w' := SeekStep(w);
            |w'.coords| == |w'.paths| == |w'.tests| == |w.tests| && Handled(w', k)
  {
  }

  lemma TestHandles(w: World, verdict: string, k: nat)
    requires (w.pc.Tell? ==> verdict != "") && (Claimed(w.pc) || w.pc.AwaitFetch?) && PcOk'(w) &&
        k < |w.coords| == |w.paths| == |w.tests| && Handled(w, k)
    ensures var w' := TestStep(w, verdict);
            |w'.coords| == |w'.paths| == |w'.tests| == |w.tests| && Handled(w', k)
  {
  }

  lemma EndHandles(w: World, k: nat)
    requires Ending(w.pc) && k < |w.coords| == |w.paths| == |w.tests| && Handled(w, k)
    ensures var w' := EndStep(w);
            |w'.coords| == |w'.paths| == |w'.tests| == |w.tests| && Handled(w', k)
  {
  }

  lemma StepHandles(w: World, e: Event, k: nat)
    requires Enabled(w, e) && PcOk'(w) && k < |w.coords| && Handled(w, k)
    ensures var w' := Step(w, e);
            |w'.coords| == |w'.paths| == |w'.tests| == |w.tests| && Handled(w', k)
  {
    hide Handled, PcOk, SelectStep, SeekStep, TestStep, EndStep;
    if !e.Advance? {
      RequestHandles(w, e, k);
    } else if w.pc.Select? {
      SelectHandles(w, e.choice, k);
    } else if w.pc.Pick? || Seeking(w.pc) {
      SeekHandles(w, k);
    } else if Ending(w.pc) {
      EndHandles(w, k);
    } else {
      TestHandles(w, if e.choice.Publish? then e.choice.verdict else "", k);
    }
  }

  lemma RequestHandles(w: World, e: Event, k: nat)
    requires Enabled(w, e) && !e.Advance? && k < |w.coords| == |w.paths| == |w.tests| && Handled(w, k)
    ensures var w' := Step(w, e);
            |w'.coords| == |w'.paths| == |w'.tests| == |w.tests| && Handled(w', k)
  {
    hide Step;
    RequestStepMoves(w, e, k);
  }

  lemma {:induction false} RunHandles(ws: seq<World>, es: seq<Event>, n: nat, k: nat)
    requires Run(ws, es) && n < |ws| && k < |ws[0].paths|
    ensures |ws[n].coords| == |ws[n].paths| == |ws[n].tests| == |ws[0].paths| && Handled(ws[n], k)
    decreases n
  {
    hide Step, PathOk, CoordOk, CallOk, PcOk;
    RunKeepsInv(ws, es, n);
    if n > 0 {
      RunHandles(ws, es, n - 1, k);
      RunKeepsInv(ws, es, n - 1);
      assert Follows(ws[n - 1], es[n - 1], ws[n]);
      StepHandles(ws[n - 1], es[n - 1], k);
    }
  }

  /** A done path's verdict is out, so a "result" request past the stop check is
      answered with it; and a cancelled run that has returned has told every
      prepared coordinator to say "stopped". */
  lemma PeersAreTold(ws: seq<World>, es: seq<Event>, n: nat, k: nat, rows: string)
    requires Run(ws, es) && n < |ws| && k < |ws[0].paths|
    ensures |ws[n].coords| == |ws[n].paths| == |ws[n].tests| == |ws[0].paths|
    ensures ws[n].paths[k].Done? ==> C.ServeResult(ws[n].coords[k], rows).DoneReply?
    ensures ws[n].pc == Returned(true) && ws[n].tests[k] ==> ws[n].coords[k].stopped
  {
    hide Run;
    RunHandles(ws, es, n, k);
  }

  // ---- when a stopped path stays stopped ----

  /** A request past the stop check that will report path j as unreachable. */
  predicate Reporting(call: Call, j: nat) { call.Admitted? && C.ReportedPath(call.f) == Some(j as int) }

  ghost predicate NoneReporting(w: World, j: nat) { forall c :: 0 <= c < |w.calls| ==> !Reporting(w.calls[c], j) }

  /** The loop has returned from a cancelled run. */
  ghost predicate Over(w: World)
  {
    && |w.coords| == |w.paths| == |w.tests| && w.pc == Returned(true)
    && forall k :: 0 <= k < |w.tests| && w.tests[k] ==> w.coords[k].stopped
  }

  lemma StepAfterReturn(w: World, e: Event)
    requires Over(w) && Enabled(w, e) && forall k :: 0 <= k < |w.coords| ==> CoordOk(w, k)
    ensures Over(Step(w, e)) && |Step(w, e).paths| == |w.paths|
  {
    var w' := Step(w, e);
    hide Step, CoordOk;
    RequestStepMoves(w, e, 0);
    forall k | 0 <= k < |w'.tests| && w'.tests[k] ensures w'.coords[k].stopped { RequestStepMoves(w, e, k); }
  }

  /** After the return no request is admitted, so none that reports j comes up. */
  lemma NoneComesUp(w: World, e: Event, j: nat)
    requires Over(w) && Enabled(w, e) && NoneReporting(w, j)
    ensures NoneReporting(Step(w, e), j)
  {
    hide C.Serve, C.ReportedPath, Fields, Mark;
    var w' := Step(w, e);
    forall c | 0 <= c < |w'.calls| ensures !Reporting(w'.calls[c], j) {
      if e.Arrive? {
        if c < |w.calls| { assert !Reporting(w.calls[c], j); }
      } else {
        var d := if e.Deliver? && c >= e.call then c + 1 else c;
        assert !Reporting(w.calls[d], j);
      }
    }
  }

  lemma StaysUnlessReported(w: World, e: Event, j: nat)
    requires Over(w) && Enabled(w, e) && NoneReporting(w, j) && j < |w.paths|
    ensures |Step(w, e).paths| == |w.paths| && Step(w, e).paths[j] == w.paths[j]
  {
    hide C.Serve, C.ReportedPath, C.Admit, Fields;
    if e.Serve? { assert !Reporting(w.calls[e.call], j); }
  }

  /** One run goes on where another stands. */
  ghost predicate Continues(ws: seq<World>, es: seq<Event>, vs: seq<World>, fs: seq<Event>)
  {
    Run(vs, fs) && ws <= vs && es <= fs
  }

  lemma {:induction false} UnreportedStays(vs: seq<World>, fs: seq<Event>, a: nat, b: nat, j: nat)
    requires Run(vs, fs) && a <= b < |vs| && Over(vs[a]) && NoneReporting(vs[a], j) && j < |vs[a].paths|
    ensures Over(vs[b]) && NoneReporting(vs[b], j) && |vs[b].paths| == |vs[a].paths| && vs[b].paths[j] == vs[a].paths[j]
    decreases b - a
  {
    hide *;
    if a < b {
      RunLength(vs, fs);
      UnreportedStays(vs, fs, a, b - 1, j);
      RunStep(vs, fs, b - 1);
      StepStill(vs[b - 1], fs[b - 1], j);
    }
  }

  lemma RunLength(ws: seq<World>, es: seq<Event>)
    requires Run(ws, es)
    ensures |ws| == |es| + 1
  {
  }

  lemma RunStep(ws: seq<World>, es: seq<Event>, n: nat)
    requires Run(ws, es) && n < |es|
    ensures |ws| == |es| + 1 && Enabled(ws[n], es[n]) && ws[n + 1] == Step(ws[n], es[n])
    ensures |ws[n].coords| == |ws[n].tests| && forall k :: 0 <= k < |ws[n].coords| ==> CoordOk(ws[n], k)
  {
    hide Step, Enabled, PathOk, CallOk, PcOk, CoordOk;
    RunKeepsInv(ws, es, n);
    assert Follows(ws[n], es[n], ws[n + 1]);
  }

  lemma StepStill(w: World, e: Event, j: nat)
    requires |w.coords| == |w.tests| && Over(w) && Enabled(w, e) && NoneReporting(w, j) && j < |w.paths|
    requires forall k :: 0 <= k < |w.coords| ==> CoordOk(w, k)
    ensures Over(Step(w, e)) && NoneReporting(Step(w, e), j)
    ensures |Step(w, e).paths| == |w.paths| && Step(w, e).paths[j] == w.paths[j]
  {
    hide Step, Enabled, Over, NoneReporting, CoordOk;
    StaysUnlessReported(w, e, j);
    NoneComesUp(w, e, j);
    StepAfterReturn(w, e);
  }

  lemma ReportLands(w: World, c: nat, j: nat)
    requires |w.coords| == |w.paths| && c < |w.calls| && Reporting(w.calls[c], j) && w.calls[c].at < |w.coords|
    requires j < |w.paths| && w.paths[j].Stopped?
    ensures Enabled(w, Serve(c, "")) && |Step(w, Serve(c, "")).paths| == |w.paths| &&
        Step(w, Serve(c, "")).paths[j].Unavailable?
  {
    hide C.Serve, C.ReportedPath;
  }

  /** Everything the run can still come to leaves path j stopped. */
  ghost predicate StoppedForEver(ws: seq<World>, es: seq<Event>, j: nat)
  {
    forall vs: seq<World>, fs: seq<Event> :: Continues(ws, es, vs, fs) ==>
      j < |vs[|fs|].paths| && vs[|fs|].paths[j].Stopped?
  }

  lemma ReturnIsOver(ws: seq<World>, es: seq<Event>)
    requires Run(ws, es) && ws[|es|].pc == Returned(true)
    ensures Over(ws[|es|]) && |ws[|es|].paths| == |ws[0].paths|
  {
    var n := |es|;
    RunKeepsInv(ws, es, n);
    forall k | 0 <= k < |ws[n].tests| && ws[n].tests[k] ensures ws[n].coords[k].stopped { RunHandles(ws, es, n, k); }
  }

  /** Once a cancelled run has returned, a stopped path is final if and only if no
      request past the stop check is about to report it. */
  lemma StoppedIsFinalIff(ws: seq<World>, es: seq<Event>, j: nat)
    requires Run(ws, es) && ws[|es|].pc == Returned(true) && j < |ws[|es|].paths| && ws[|es|].paths[j].Stopped?
    ensures StoppedForEver(ws, es, j) <==> NoneReporting(ws[|es|], j)
  {
    var n := |es|;
    ReturnIsOver(ws, es);
    if NoneReporting(ws[n], j) {
      forall vs: seq<World>, fs: seq<Event> | Continues(ws, es, vs, fs)
        ensures j < |vs[|fs|].paths| && vs[|fs|].paths[j].Stopped?
      {
        assert vs[n] == ws[n];
        UnreportedStays(vs, fs, n, |fs|, j);
      }
    } else {
      var c: nat :| c < |ws[n].calls| && Reporting(ws[n].calls[c], j);
      RunKeepsInv(ws, es, n);
      assert CallOk(ws[n], ws[n].calls[c]);
      ReportLands(ws[n], c, j);
      NotForEver(ws, es, j, Serve(c, ""));
    }
  }

  lemma NotForEver(ws: seq<World>, es: seq<Event>, j: nat, e: Event)
    requires Run(ws, es) && Enabled(ws[|es|], e)
    requires var w := Step(ws[|es|], e); j < |w.paths| && w.paths[j].Unavailable?
    ensures !StoppedForEver(ws, es, j)
  {
    hide Step, Enabled;
    var vs, fs := ws + [Step(ws[|es|], e)], es + [e];
    forall n | 0 <= n < |fs| ensures Follows(vs[n], fs[n], vs[n + 1]) {
      if n < |es| { assert Follows(ws[n], es[n], ws[n + 1]); }
    }
    assert Continues(ws, es, vs, fs);
  }

  // ---- a stopped path is not final ----

  /** A suite of one path, cancelled before anyone joined, with a report that the
      path is unreachable already past the stop check. */
  function LateReport(tok: string): World
  {
    World([true], [Waiting], false, [C.Fresh(tok, "x", map[])],
          [Admitted(0, ["unavailable", tok, "0"], "10.0.0.9")], true, Pick(0))
  }

  function AdvanceTimes(w: World, n: nat): World
    decreases n
  {
    if n == 0 || !AdvanceEnabled(w, Proceed) then w else AdvanceTimes(AdvanceStep(w, Proceed), n - 1)
  }

  /** The cancelled run returns with its path stopped, and the report that was
      in flight then turns "stopped" into "unavailable". */
  lemma StoppedIsNotFinal(tok: string)
    ensures var w := AdvanceTimes(LateReport(tok), 8);
            && w.pc == Returned(true) && w.paths == [Stopped]
            && Enabled(w, Serve(0, "")) && Step(w, Serve(0, "")).paths == [Unavailable]
  {
    hide C.Serve, C.ReportedPath, Atoi, Fields, Mark;
    var w0 := LateReport(tok);
    var w1 := AdvanceStep(w0, Proceed);
    var w2 := AdvanceStep(w1, Proceed);
    var w3 := AdvanceStep(w2, Proceed);
    var w4 := AdvanceStep(w3, Proceed);
    assert w4.pc == StopPeer(0);
    var w5 := AdvanceStep(w4, Proceed);
    var w6 := AdvanceStep(w5, Proceed);
    var w7 := AdvanceStep(w6, Proceed);
    var w8 := AdvanceStep(w7, Proceed);
    assert w8.pc == Returned(true) && w8.paths == [Stopped];
    assert AdvanceTimes(w4, 4) == w8 by {
      assert AdvanceTimes(w7, 1) == w8;
      assert AdvanceTimes(w6, 2) == w8;
      assert AdvanceTimes(w5, 3) == w8;
    }
    assert AdvanceTimes(w0, 8) == w8 by {
      assert AdvanceTimes(w3, 5) == w8;
      assert AdvanceTimes(w2, 6) == w8;
      assert AdvanceTimes(w1, 7) == w8;
    }
    LateReportLands(w8, tok);
  }

  lemma LateReportLands(w: World, tok: string)
    requires w.paths == [Stopped] && |w.coords| == 1 && w.calls == LateReport(tok).calls
    ensures Enabled(w, Serve(0, "")) && Step(w, Serve(0, "")).paths == [Unavailable]
  {
    hide C.Serve, Fields;
    assert Atoi("0") == Some(0) by { assert DigitsValue("0") == 10 * DigitsValue("") + 0; }
    assert C.ReportedPath(["unavailable", tok, "0"]) == Some(0);
  }

  /** The same suite before the report arrives and before it is cancelled. */
  function BeforeReport(tok: string): World { LateReport(tok).(calls := [], cancelled := false) }

  lemma ReportArrives(tok: string, line: string)
    requires Fields(line) == ["unavailable", tok, "0"]
    ensures Follows(BeforeReport(tok), Arrive(0, line, "10.0.0.9"), LateReport(tok).(cancelled := false))
  {
    var w := BeforeReport(tok);
    assert C.Admit(w.coords[0], Fields(line)) == C.Admitted;
    assert w.calls + LateReport(tok).calls == LateReport(tok).calls;
  }

  lemma TwoStepRun(w0: World, e0: Event, w1: World, e1: Event, w2: World)
    requires Init(w0) && Follows(w0, e0, w1) && Follows(w1, e1, w2)
    ensures exists ws, es :: Run(ws, es) && ws[|es|] == w2
  {
    var ws, es := [w0, w1, w2], [e0, e1];
    assert Run(ws, es) && ws[|es|] == w2;
  }

  lemma BeforeReportIsInitial(tok: string)
    ensures Init(BeforeReport(tok))
    ensures Follows(LateReport(tok).(cancelled := false), Cancel, LateReport(tok))
  {
    assert FreshCoord(BeforeReport(tok).coords[0]);
  }

  lemma ReportLine(tok: string)
    requires Word(tok)
    ensures Fields("unavailable " + tok + " 0") == ["unavailable", tok, "0"]
  {
    hide Fields;
    assert Word("unavailable") && Word("0");
    WordThenRest("unavailable", ' ', tok + " 0");
    WordThenRest(tok, ' ', "0");
    assert "unavailable " + tok + " 0" == "unavailable" + [' '] + (tok + " 0");
    assert tok + " 0" == tok + [' '] + "0";
    LastWord("0");
  }

  /** That starting point is reached by a real run, whatever the token, as long as a
      request can carry it: the report arrives, then the suite is cancelled. */
  lemma LateReportIsReachable(tok: string)
    requires Word(tok)
    ensures exists ws, es :: Run(ws, es) && ws[|es|] == LateReport(tok)
  {
    hide Run, Init, Follows, Fields, Word;
    var line := "unavailable " + tok + " 0";
    ReportLine(tok);
    ReportArrives(tok, line);
    BeforeReportIsInitial(tok);
    TwoStepRun(BeforeReport(tok), Arrive(0, line, "10.0.0.9"), LateReport(tok).(cancelled := false), Cancel,
      LateReport(tok));
  }
}
