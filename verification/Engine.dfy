/** The engine's generation loop: one process starting, ending and restarting a
    tunnel, interleaved with its own goroutines, the quota watchers, the control
    socket and whoever edits the configuration file. Generations are numbered from
    one; a cancel function is modelled by the number of the generation whose
    context it ends. */
module Engine {
  import opened Text
  import Quota
  import R = Reload

  // ---- the control socket's object ----

  /** What a configuration says about the generation that runs it. */
  datatype Identity = Identity(role: string, transport: string, hasHelper: bool)

  datatype Control = Control(restart: Option<nat>, role: string, transport: string, helperReady: Option<bool>,
    generation: nat)

  const NO_CONTROL := Control(None, "", "", None, 0)

  /** What setGeneration does under the lock, and then outside it. */
  function Registered(c: Control, stop: nat, id: Identity): Control
  {
    Control(Some(stop), id.role, id.transport, if id.hasHelper then Some(false) else None, c.generation)
  }

  function Counted(c: Control): Control { c.(generation := c.generation + 1) }

  function Readied(c: Control, ready: bool): Control
  {
    if c.helperReady.Some? then c.(helperReady := Some(ready)) else c
  }

  class EngineControl {
    var restart: Option<nat>
    var role: string
    var transport: string
    var helperReady: Option<bool>
    var generation: nat

    ghost function Value(): Control
      reads this
    {
      Control(restart, role, transport, helperReady, generation)
    }

    constructor ()
      ensures Value() == NO_CONTROL
    {
      restart, role, transport, helperReady, generation := None, "", "", None, 0;
    }

    /** Everything a generation is known by is replaced when it starts. */
    method SetGeneration(stop: nat, id: Identity)
      modifies this
      ensures Value() == Counted(Registered(old(Value()), stop, id))
      ensures restart == Some(stop) && role == id.role && transport == id.transport
      ensures helperReady == (if id.hasHelper then Some(false) else None) && generation == old(generation) + 1
    {
      restart := Some(stop);
      role, transport := id.role, id.transport;
      helperReady := None;
      if id.hasHelper {
        helperReady := Some(false);
      }
      generation := generation + 1;
    }

    /** The helper's readiness callback; without a helper it changes nothing. */
    method Ready(ready: bool)
      modifies `helperReady
      ensures Value() == Readied(old(Value()), ready)
      ensures helperReady == if old(helperReady).Some? then Some(ready) else None
    {
      if helperReady.Some? {
        helperReady := Some(ready);
      }
    }

    /** Which generation a restart request will end, or none to end. */
    method RestartTransport() returns (stop: Option<nat>)
      ensures stop == Value().restart
    {
      stop := restart;
    }
  }

  // ---- the limit's watchers and the live total ----

  /** The watchers that run, each with the limit it goes by once it has loaded one,
      and the total of the collector that is live. */
  datatype Meter = Meter(watchers: map<nat, Option<nat>>, collector: Option<nat>)

  datatype MeterEvent =
    | Loads(g: nat, limit: Option<nat>)      // absent when the limit cannot be read
    | Rereads(g: nat, limit: Option<nat>)
    | Checks(g: nat)
    | Leaves(g: nat)
    | Starts(total: nat)                     // the engine's collector goes live
    | Traffic(n: nat)

  predicate Loaded(m: Meter, g: nat) { g in m.watchers && m.watchers[g].Some? }

  predicate OverLimit(m: Meter, g: nat)
    requires Loaded(m, g)
  {
    m.watchers[g].value > 0 && m.collector.Some? && m.collector.value >= m.watchers[g].value
  }

  predicate MeterEnabled(m: Meter, e: MeterEvent)
  {
    match e
    case Loads(g, _) => g in m.watchers && m.watchers[g].None?
    case Rereads(g, _) => Loaded(m, g)
    case Checks(g) => Loaded(m, g)
    case Leaves(g) => g in m.watchers
    case Starts(_) => true
    case Traffic(_) => m.collector.Some?
  }

  /** The generation the event ends: watchQuota's two reasons. */
  function Trips(m: Meter, e: MeterEvent): Option<nat>
    requires MeterEnabled(m, e)
  {
    if e.Loads? && e.limit.None? then Some(e.g)
    else if e.Checks? && OverLimit(m, e.g) then Some(e.g)
    else None
  }

  function MeterStep(m: Meter, e: MeterEvent): Meter
    requires MeterEnabled(m, e)
  {
    match e
    case Loads(g, limit) => m.(watchers := if limit.Some? then m.watchers[g := limit] else m.watchers - {g})
    case Rereads(g, limit) => if limit.Some? then m.(watchers := m.watchers[g := limit]) else m
    case Checks(g) => if OverLimit(m, g) then m.(watchers := m.watchers - {g}) else m
    case Leaves(g) => m.(watchers := m.watchers - {g})
    case Starts(total) => m.(collector := Some(total))
    case Traffic(n) => m.(collector := Some(m.collector.value + n))
  }

  // ---- the process ----

  datatype Pc =
    | Top           // about to look at the quota
    | Held          // out of quota, waiting
    | Refresh       // held for a while: read the file again
    | Prepare       // decide on tuning, create the context
    | Register      // hand the cancel function to the control object
    | Count         // bump the generation counter
    | Spawn         // start the engine and its quota watcher
    | Begin         // awaitConfigChange takes its first look
    | Await         // in its select
    | Reading(fp: Option<R.Fingerprint>, tls: R.Tls) // a tick saw a change; about to load the file
    | Stop(why: R.Wake)
    | Join(why: R.Wake)
    | AfterRestart
    | Exited

  /** One start of the engine: the configuration handed to it, whether it was
      asked to tune the kernel, and the quota look that let it start. */
  datatype Launch = Launch(config: R.Config, tuning: bool, reading: Quota.Reading)

  /** What is on disk: the file's fingerprint, the certificates it leads to, and
      what it holds. */
  datatype Disk = Disk(fp: Option<R.Fingerprint>, tls: R.Tls, file: R.File)

  datatype World = World(
    pc: Pc,
    config: R.Config,
    tuned: bool,
    tuning: bool,
    control: Control,
    reading: Quota.Reading,      // the loop's latest quota look
    launches: seq<Launch>,
    live: set<nat>,              // generations whose engine has not returned
    meter: Meter,                // the quota watchers and what they watch
    cancelled: set<nat>,         // generations whose own context was cancelled
    requests: seq<nat>,          // socket requests between reading and calling
    shutdown: bool,
    disk: Disk,
    start: R.Start,              // the current call of the watch: what it began with
    obs: seq<R.Observation>)     // ...and what it has been woken by so far

  datatype Event =
    | Look(reading: Quota.Reading)          // the loop reads the quota
    | LoadFile                              // the loop reads the file after a wait
    | Advance
    | TickLooks                             // the watch examines the file
    | TickReads                             // ...and loads it
    | SeesShutdown
    | SeesOver                              // the watch finds the generation's context done
    | EngineReturns(g: nat)
    | Meters(m: MeterEvent)                 // a watcher, the collector, or traffic
    | SocketReads                           // RestartTransport reads the function
    | SocketCalls(j: nat)                   // ...and calls it
    | HelperReports(ready: bool)
    | ShutdownSignal
    | Edit(disk: Disk)

  /** The parts of the program the loop only calls. */
  datatype Setup = Setup(rules: R.Rules, identify: R.Config -> Identity)

  /** The number of the newest generation that has a context. */
  function Newest(w: World): nat
  {
    if w.pc.Register? || w.pc.Count? || w.pc.Spawn? then |w.launches| + 1 else |w.launches|
  }

  predicate Enabled(w: World, e: Event)
  {
    match e
    case Look(_) => w.pc.Top? || w.pc.Held? || w.pc.AfterRestart?
    case LoadFile => w.pc.Refresh?
    case Advance =>
      w.pc.Prepare? || w.pc.Register? || w.pc.Count? || w.pc.Spawn? || w.pc.Begin? || w.pc.Stop?
      || (w.pc.Join? && |w.launches| !in w.live) || (w.pc.Held? && w.shutdown)
    case TickLooks => w.pc.Await?
    case TickReads => w.pc.Reading?
    case SeesShutdown => w.pc.Await? && w.shutdown
    case SeesOver => w.pc.Await? && (w.shutdown || |w.launches| in w.cancelled)
    case EngineReturns(g) => g in w.live
    case Meters(m) =>
      MeterEnabled(w.meter, m) && (m.Leaves? ==> w.shutdown || m.g in w.cancelled) && (m.Starts? ==> w.live != {})
    case SocketReads => w.control.restart.Some?
    case SocketCalls(j) => j < |w.requests|
    case HelperReports(_) => w.live != {}
    case ShutdownSignal => true
    case Edit(_) => true
  }

  function Step(u: Setup, w: World, e: Event): World
    requires Enabled(w, e)
  {
    match e
    case Look(r) =>
      if w.pc.AfterRestart? then w.(pc := Top, reading := r)
      else w.(reading := r, pc := if r.Under() then (if w.pc.Top? then Prepare else Refresh) else Held)
    case LoadFile =>
      var next := R.Usable(u.rules, w.disk.file);
      w.(pc := Prepare, config := if next.Some? then next.value else w.config)
    case Advance => AdvanceStep(u, w)
    case TickLooks => TickStep(w)
    case TickReads => ReadStep(u, w)
    case SeesShutdown => w.(pc := Stop(R.WakeShutdown), obs := w.obs + [R.Shutdown])
    case SeesOver => w.(pc := Stop(R.WakeRestart), obs := w.obs + [R.GenerationOver])
    case EngineReturns(g) => w.(live := w.live - {g}, meter := w.meter.(collector := None))
    case Meters(m) => MetersStep(w, m)
    case SocketReads => w.(requests := w.requests + [w.control.restart.value])
    case SocketCalls(j) => w.(requests := w.requests[..j] + w.requests[j + 1..],
        cancelled := w.cancelled + {w.requests[j]})
    case HelperReports(ready) => w.(control := Readied(w.control, ready))
    case ShutdownSignal => w.(shutdown := true)
    case Edit(disk) => w.(disk := disk)
  }

  function MetersStep(w: World, m: MeterEvent): World
    requires MeterEnabled(w.meter, m)
  {
    var trips := Trips(w.meter, m);
    w.(meter := MeterStep(w.meter, m), cancelled := if trips.Some? then w.cancelled + {trips.value} else w.cancelled)
  }

  /** A tick that finds nothing changed goes back to waiting without loading. */
  function TickStep(w: World): World
    requires w.pc.Await?
  {
    if R.Looks(w.start, w.obs, |w.obs|, w.disk.fp, w.disk.tls) then w.(pc := Reading(w.disk.fp, w.disk.tls))
    else w.(obs := w.obs + [R.Tick(w.disk.fp, w.disk.tls, w.disk.file)])
  }

  function ReadStep(u: Setup, w: World): World
    requires w.pc.Reading?
  {
    var obs := w.obs + [R.Tick(w.pc.fp, w.pc.tls, w.disk.file)];
    w.(obs := obs,
       pc := if R.Fires(u.rules, w.start, obs, |w.obs|) then Stop(R.WakeConfig(R.Usable(u.rules, w.disk.file).value))
         else Await)
  }

  function AdvanceStep(u: Setup, w: World): World
    requires Enabled(w, Advance)
  {
    var g := |w.launches| + 1;
    match w.pc
    case Held => w.(pc := Exited)
    case Prepare => w.(pc := Register, tuning := !w.tuned, tuned := true)
    case Register => w.(pc := Count, control := Registered(w.control, g, u.identify(w.config)))
    case Count => w.(pc := Spawn, control := Counted(w.control))
    case Spawn =>
      w.(pc := Begin, launches := w.launches + [Launch(w.config, w.tuning, w.reading)],
         live := w.live + {g}, meter := w.meter.(watchers := w.meter.watchers[g := None]))
    case Begin => w.(pc := Await, start := R.Start(w.disk.fp, w.disk.tls, w.config), obs := [])
    case Stop(why) => w.(pc := Join(why), cancelled := w.cancelled + {|w.launches|})
    case Join(why) =>
      if why.WakeShutdown? then w.(pc := Exited)
      else if why.WakeRestart? then w.(pc := AfterRestart)
      else w.(pc := Top, config := if why.WakeConfig? then why.next else w.config)
    case _ => w
  }

  /** The process once its first file has loaded, defaulted and validated. */
  ghost predicate Init(u: Setup, w: World)
  {
    && w == World(Top, w.config, false, false, NO_CONTROL, w.reading, [], {}, Meter(map[], None), {}, [], false, w.disk,
        w.start, [])
    && R.Usable(u.rules, w.disk.file) == Some(w.config)
  }

  ghost predicate Run(u: Setup, ws: seq<World>, es: seq<Event>)
  {
    && |ws| == |es| + 1
    && Init(u, ws[0])
    && forall n {:trigger es[n]} :: 0 <= n < |es| ==> Follows(u, ws[n], es[n], ws[n + 1])
  }

  ghost predicate Follows(u: Setup, w: World, e: Event, w': World) { Enabled(w, e) && w' == Step(u, w, e) }

  /** What goes on beside the loop. */
  predicate Outside(e: Event)
  {
    || e.EngineReturns? || e.Meters? || e.SocketReads? || e.SocketCalls?
    || e.HelperReports? || e.ShutdownSignal? || e.Edit?
  }

  /** It leaves the loop where it stands, with what it holds and has started. */
  lemma OutsideLeavesLoop(u: Setup, w: World, e: Event)
    requires Enabled(w, e) && Outside(e)
    ensures var w' := Step(u, w, e);
      && w'.pc == w.pc && w'.config == w.config && w'.tuned == w.tuned && w'.tuning == w.tuning
      && w'.reading == w.reading && w'.launches == w.launches && w'.start == w.start && w'.obs == w.obs
      && (!e.Edit? ==> w'.disk == w.disk)
  {
    hide MeterEnabled, MetersStep;
    if e.Meters? { MetersLeaveLoop(w, e.m); }
  }

  lemma MetersLeaveLoop(w: World, m: MeterEvent)
    requires MeterEnabled(w.meter, m)
    ensures MetersStep(w, m) == w.(meter := MetersStep(w, m).meter, cancelled := MetersStep(w, m).cancelled)
  {
    hide MeterEnabled, Trips, MeterStep;
  }

  // ---- the invariant ----

  ghost predicate LaunchesOk(u: Setup, launches: seq<Launch>)
  {
    forall n :: 0 <= n < |launches| ==>
      u.rules.valid(launches[n].config) && launches[n].reading.Under() && launches[n].tuning == (n == 0)
  }

  predicate Cleared(pc: Pc) { pc.Refresh? || pc.Prepare? || pc.Register? || pc.Count? || pc.Spawn? }
  predicate Launching(pc: Pc) { pc.Register? || pc.Count? || pc.Spawn? }
  predicate Watching(pc: Pc) { pc.Begin? || pc.Await? || pc.Reading? }
  predicate Engaged(pc: Pc) { Watching(pc) || pc.Stop? || pc.Join? }

  ghost predicate Inv(u: Setup, w: World)
  {
    // one engine at a time
    && (forall g :: g in w.live ==> g == |w.launches| && Engaged(w.pc))
    && (w.meter.collector.Some? ==> w.live != {})
    // only valid configurations
    && u.rules.valid(w.config)
    && ((w.pc.Stop? || w.pc.Join?) && w.pc.why.WakeConfig? ==> u.rules.valid(w.pc.why.next))
    // only under the limit
    && (Cleared(w.pc) ==> w.reading.Under())
    // tuning once
    && (w.tuned <==> |w.launches| > 0 || Launching(w.pc))
    && (Launching(w.pc) ==> w.tuning == (|w.launches| == 0))
    && (Engaged(w.pc) || w.pc.AfterRestart? ==> |w.launches| > 0)
    && LaunchesOk(u, w.launches)
    && Counters(w)
  }

  /** The counter, the registered function, and that nothing refers to a generation
      that does not exist yet. */
  ghost predicate Counters(w: World)
  {
    && w.control.generation == |w.launches| + (if w.pc.Spawn? then 1 else 0)
    && w.control.restart == (if w.pc.Count? || w.pc.Spawn? then Some(|w.launches| + 1)
                             else if |w.launches| == 0 then None else Some(|w.launches|))
    && (forall g :: g in w.cancelled ==> 1 <= g <= Newest(w))
    && (forall g :: g in w.meter.watchers ==> 1 <= g <= |w.launches|)
    && (forall j :: 0 <= j < |w.requests| ==> 1 <= w.requests[j] <= Newest(w))
  }

  lemma AdvanceKeepsInv(u: Setup, w: World)
    requires Inv(u, w) && Enabled(w, Advance)
    ensures Inv(u, AdvanceStep(u, w))
  {
    hide Counters, LaunchesOk, AdvanceStep;
    AdvanceKeepsCounters(u, w);
    if w.pc.Spawn? {
      SpawnKeepsInv(u, w);
    } else if Launching(w.pc) || w.pc.Prepare? {
      LaunchKeepsInv(u, w);
    } else {
      TurnKeepsInv(u, w);
    }
  }

  lemma SpawnKeepsInv(u: Setup, w: World)
    requires Inv(u, w) && w.pc.Spawn? && Counters(AdvanceStep(u, w))
    ensures Inv(u, AdvanceStep(u, w))
  {
    hide Counters;
  }

  lemma LaunchKeepsInv(u: Setup, w: World)
    requires Inv(u, w) && (w.pc.Prepare? || w.pc.Register? || w.pc.Count?) && Counters(AdvanceStep(u, w))
    ensures Inv(u, AdvanceStep(u, w))
  {
    hide Counters, LaunchesOk, Registered, Counted;
  }

  lemma TurnKeepsInv(u: Setup, w: World)
    requires Inv(u, w) && Enabled(w, Advance) && !Launching(w.pc) && !w.pc.Prepare? && Counters(AdvanceStep(u, w))
    ensures Inv(u, AdvanceStep(u, w))
  {
    hide Counters, LaunchesOk, Registered, Counted;
  }

  lemma AdvanceKeepsCounters(u: Setup, w: World)
    requires Counters(w) && Enabled(w, Advance) && (Engaged(w.pc) || w.pc.AfterRestart? ==> |w.launches| > 0)
    ensures Counters(AdvanceStep(u, w))
  {
    hide Counters, AdvanceStep;
    if w.pc.Spawn? {
      SpawnKeepsCounters(u, w);
    } else if w.pc.Register? || w.pc.Count? {
      CountKeepsCounters(u, w);
    } else if w.pc.Stop? {
      StopKeepsCounters(u, w);
    } else {
      TurnKeepsCounters(u, w);
    }
  }

  lemma StopKeepsCounters(u: Setup, w: World)
    requires Counters(w) && w.pc.Stop? && |w.launches| > 0
    ensures Counters(AdvanceStep(u, w))
  {
    hide Registered, Counted;
  }

  lemma CountKeepsCounters(u: Setup, w: World)
    requires Counters(w) && (w.pc.Register? || w.pc.Count?)
    ensures Counters(AdvanceStep(u, w))
  {
  }

  lemma TurnKeepsCounters(u: Setup, w: World)
    requires Counters(w) && Enabled(w, Advance) && (Engaged(w.pc) || w.pc.AfterRestart? ==> |w.launches| > 0)
    requires !w.pc.Register? && !w.pc.Count? && !w.pc.Spawn? && !w.pc.Stop?
    ensures Counters(AdvanceStep(u, w))
  {
    hide Registered, Counted;
  }

  lemma SpawnKeepsCounters(u: Setup, w: World)
    requires Counters(w) && w.pc.Spawn?
    ensures Counters(AdvanceStep(u, w))
  {
    hide Registered, Counted;
  }

  lemma StepKeepsCounters(u: Setup, w: World, e: Event)
    requires Counters(w) && Enabled(w, e) && (Engaged(w.pc) || w.pc.AfterRestart? ==> |w.launches| > 0)
    ensures Counters(Step(u, w, e))
  {
    if e.Advance? {
      hide Counters, AdvanceStep;
      AdvanceKeepsCounters(u, w);
    } else if e.SocketReads? || e.SocketCalls? || e.Meters? {
      OutsideKeepsCounters(u, w, e);
    } else {
      hide R.Usable, R.Looks, R.Fires;
    }
  }

  lemma OutsideKeepsCounters(u: Setup, w: World, e: Event)
    requires Counters(w) && Enabled(w, e) && (e.SocketReads? || e.SocketCalls? || e.Meters?)
    ensures Counters(Step(u, w, e))
  {
  }

  lemma StepKeepsInv(u: Setup, w: World, e: Event)
    requires Inv(u, w) && Enabled(w, e)
    ensures Inv(u, Step(u, w, e))
  {
    hide Inv, AdvanceStep, Enabled;
    if e.Advance? {
      AdvanceKeepsInv(u, w);
    } else if Outside(e) {
      OutsideKeepsInv(u, w, e);
    } else {
      LoopKeepsInv(u, w, e);
    }
  }

  lemma LoopKeepsInv(u: Setup, w: World, e: Event)
    requires Inv(u, w) && Enabled(w, e) && !e.Advance? && !Outside(e)
    ensures Inv(u, Step(u, w, e))
  {
    hide Counters, LaunchesOk, R.Looks;
    StepKeepsCounters(u, w, e);
  }

  lemma OutsideKeepsInv(u: Setup, w: World, e: Event)
    requires Inv(u, w) && Enabled(w, e) && Outside(e)
    ensures Inv(u, Step(u, w, e))
  {
    hide Counters, LaunchesOk, Step;
    StepKeepsCounters(u, w, e);
    OutsideLeavesLoop(u, w, e);
    OutsideLeavesLive(u, w, e);
  }

  lemma OutsideLeavesLive(u: Setup, w: World, e: Event)
    requires Enabled(w, e) && Outside(e)
    ensures Step(u, w, e).live == if e.EngineReturns? then w.live - {e.g} else w.live
    ensures Step(u, w, e).meter.collector.Some? ==>
      !e.EngineReturns? && (w.meter.collector.Some? || (e.Meters? && w.live != {}))
  {
    hide Trips;
  }

  lemma {:induction false} RunKeepsInv(u: Setup, ws: seq<World>, es: seq<Event>, n: nat)
    requires Run(u, ws, es) && n < |ws|
    ensures Inv(u, ws[n])
    decreases n
  {
    if n > 0 {
      RunKeepsInv(u, ws, es, n - 1);
      assert Follows(u, ws[n - 1], es[n - 1], ws[n]);
      hide Inv, Step;
      StepKeepsInv(u, ws[n - 1], es[n - 1]);
    }
  }

  // ---- theorems about whole runs: generations ----

  /** At most one generation's engine is running, whatever the socket, the
      watchers and the file do; and it is the newest. */
  lemma OneGenerationAtATime(u: Setup, ws: seq<World>, es: seq<Event>, n: nat, g: nat, h: nat)
    requires Run(u, ws, es) && n < |ws| && g in ws[n].live && h in ws[n].live
    ensures g == h == |ws[n].launches|
  {
    RunKeepsInv(u, ws, es, n);
  }

  /** The configuration is what defaulting made of a text that the loop or the watch
      read off the disk at some moment up to n, and validation let it through. */
  ghost predicate WasRead(u: Setup, ws: seq<World>, es: seq<Event>, n: nat, config: R.Config)
    requires n < |ws| == |es| + 1
  {
    exists c :: 0 <= c <= n && Reads(es, c, n) && R.Usable(u.rules, ws[c].disk.file) == Some(config)
  }

  /** The process reads the file at moment c: at its start, after a wait, or at a tick. */
  predicate Reads(es: seq<Event>, c: nat, n: nat)
  {
    c == 0 || (c < n && c < |es| && (es[c].LoadFile? || es[c].TickReads?))
  }

  lemma ReadEarlier(u: Setup, ws: seq<World>, es: seq<Event>, m: nat, n: nat, config: R.Config)
    requires m <= n < |ws| == |es| + 1 && WasRead(u, ws, es, m, config)
    ensures WasRead(u, ws, es, n, config)
  {
    hide R.Usable;
    var c :| 0 <= c <= m && Reads(es, c, m) && R.Usable(u.rules, ws[c].disk.file) == Some(config);
    assert Reads(es, c, n);
  }

  /** Everything the loop deals with was read. */
  ghost predicate AllRead(u: Setup, ws: seq<World>, es: seq<Event>, n: nat)
    requires n < |ws| == |es| + 1
  {
    forall config :: Has(ws[n], config) ==> WasRead(u, ws, es, n, config)
  }

  lemma {:induction false} RunReads(u: Setup, ws: seq<World>, es: seq<Event>, n: nat)
    requires Run(u, ws, es) && n < |ws|
    ensures AllRead(u, ws, es, n)
    decreases n
  {
    if n == 0 {
      assert Reads(es, 0, 0);
    } else {
      RunReads(u, ws, es, n - 1);
      assert Follows(u, ws[n - 1], es[n - 1], ws[n]);
      StepReads(u, ws, es, n - 1);
    }
  }

  /** The configurations the loop deals with: the one it holds, the one it is about
      to take up, and those it has started. */
  ghost predicate Has(w: World, config: R.Config)
  {
    || config == w.config
    || ((w.pc.Stop? || w.pc.Join?) && w.pc.why.WakeConfig? && config == w.pc.why.next)
    || exists k :: 0 <= k < |w.launches| && config == w.launches[k].config
  }

  /** A step brings in no configuration but one it reads off the disk. */
  lemma NothingElse(u: Setup, w: World, e: Event, config: R.Config)
    requires Enabled(w, e) && Has(Step(u, w, e), config)
    ensures Has(w, config) || ((e.LoadFile? || e.TickReads?) && R.Usable(u.rules, w.disk.file) == Some(config))
  {
    hide R.Usable, R.Looks, Registered, Counted, Readied;
    if Outside(e) {
      OutsideLeavesLoop(u, w, e);
      hide Step, Enabled;
    } else if e.Advance? {
      AdvanceBringsNothing(u, w, config);
    }
  }

  lemma AdvanceBringsNothing(u: Setup, w: World, config: R.Config)
    requires Enabled(w, Advance) && Has(AdvanceStep(u, w), config)
    ensures Has(w, config)
  {
    hide AdvanceStep;
    AdvanceLaunches(u, w);
    AdvanceTurns(u, w);
    var w' := AdvanceStep(u, w);
    if k :| 0 <= k < |w'.launches| && config == w'.launches[k].config {
      if k < |w.launches| { assert w.launches[k] == w'.launches[k]; }
    }
  }

  /** What the loop's own advance does to what it holds and has started. */
  lemma AdvanceLaunches(u: Setup, w: World)
    requires Enabled(w, Advance)
    ensures var w' := AdvanceStep(u, w);
      && w'.launches == (if w.pc.Spawn? then w.launches + [Launch(w.config, w.tuning, w.reading)] else w.launches)
      && w'.config == (if w.pc.Join? && w.pc.why.WakeConfig? then w.pc.why.next else w.config)
      && w'.disk == w.disk
  {
    hide Registered, Counted;
  }

  /** ...and to where it stands and to the call of the watch. */
  lemma AdvanceTurns(u: Setup, w: World)
    requires Enabled(w, Advance)
    ensures var w' := AdvanceStep(u, w);
      && (if w.pc.Stop? then w'.pc == Join(w.pc.why) else !w'.pc.Stop? && !w'.pc.Join?)
      && (w.pc.Begin? ==> w'.pc.Await? && w'.obs == [] && w'.start == R.Start(w.disk.fp, w.disk.tls, w.config))
      && (!w.pc.Begin? ==> !w'.pc.Await? && w'.obs == w.obs && w'.start == w.start) && !w'.pc.Reading?
      && (Watching(w'.pc) ==> w.pc.Spawn? || w.pc.Begin?)
      && (w'.pc.Count? <==> w.pc.Register?) && (w'.pc.Spawn? <==> w.pc.Count?)
  {
    hide Registered, Counted;
  }

  lemma StepReads(u: Setup, ws: seq<World>, es: seq<Event>, n: nat)
    requires n < |es| && |ws| == |es| + 1 && Follows(u, ws[n], es[n], ws[n + 1]) && AllRead(u, ws, es, n)
    ensures AllRead(u, ws, es, n + 1)
  {
    hide WasRead, R.Usable, Has, Step;
    var w', m := ws[n + 1], n + 1;
    forall config | Has(w', config) ensures WasRead(u, ws, es, m, config) {
      NothingElse(u, ws[n], es[n], config);
      if Has(ws[n], config) { ReadEarlier(u, ws, es, n, n + 1, config); } else { ReadNow(u, ws, es, n); }
    }
  }

  lemma ReadNow(u: Setup, ws: seq<World>, es: seq<Event>, n: nat)
    requires n < |es| && |ws| == |es| + 1 && (es[n].LoadFile? || es[n].TickReads?)
    ensures var next := R.Usable(u.rules, ws[n].disk.file); next.Some? ==> WasRead(u, ws, es, n + 1, next.value)
  {
    hide R.Usable;
    assert Reads(es, n, n + 1);
  }

  /** Every configuration started was read off the disk by then, defaulted and found
      valid; each start followed a quota look that was readable and under the limit;
      only the first asked for tuning. */
  lemma EveryStartIsSound(u: Setup, ws: seq<World>, es: seq<Event>, n: nat, k: nat)
    requires Run(u, ws, es) && n < |ws| && k < |ws[n].launches|
    ensures WasRead(u, ws, es, n, ws[n].launches[k].config) && u.rules.valid(ws[n].launches[k].config)
    ensures var r := ws[n].launches[k].reading; r.Read? && (r.limit == 0 || r.used < r.limit)
    ensures ws[n].launches[k].tuning <==> k == 0
  {
    RunKeepsInv(u, ws, es, n);
    RunReads(u, ws, es, n);
    hide WasRead;
    assert Has(ws[n], ws[n].launches[k].config);
  }

  /** The configuration a step makes the loop take up: one read after waiting for
      the limit, or the one a firing tick loaded. */
  function TakenUp(u: Setup, w: World, e: Event): Option<R.Config>
    requires Enabled(w, e)
  {
    if e.LoadFile? then R.Usable(u.rules, w.disk.file)
    else if e.TickReads? && ReadStep(u, w).pc.Stop? then R.Usable(u.rules, w.disk.file)
    else None
  }

  /** The newest configuration taken up before event n, else the first one. */
  function NewestConfig(u: Setup, ws: seq<World>, es: seq<Event>, n: nat): R.Config
    requires n <= |es| && |ws| == |es| + 1 && forall k :: 0 <= k < |es| ==> Enabled(ws[k], es[k])
  {
    if n == 0 then ws[0].config
    else
      var c := TakenUp(u, ws[n - 1], es[n - 1]);
      if c.Some? then c.value else NewestConfig(u, ws, es, n - 1)
  }

  /** The loop holds the newest configuration, or is about to take it up. */
  predicate Holds(w: World, newest: R.Config)
  {
    if (w.pc.Stop? || w.pc.Join?) && w.pc.why.WakeConfig? then w.pc.why.next == newest else w.config == newest
  }

  lemma StepHolds(u: Setup, w: World, e: Event, newest: R.Config)
    requires Enabled(w, e) && Holds(w, newest)
    ensures Holds(Step(u, w, e), if TakenUp(u, w, e).Some? then TakenUp(u, w, e).value else newest)
  {
    hide Step, Enabled, R.Usable, ReadStep;
    if Outside(e) {
      OutsideLeavesLoop(u, w, e);
    } else if e.Advance? {
      AdvanceHolds(u, w, newest);
    } else {
      LoopHolds(u, w, e, newest);
    }
  }

  lemma AdvanceHolds(u: Setup, w: World, newest: R.Config)
    requires Enabled(w, Advance) && Holds(w, newest)
    ensures Holds(Step(u, w, Advance), newest)
  {
    hide AdvanceStep;
    AdvanceLaunches(u, w);
    AdvanceTurns(u, w);
  }

  lemma LoopHolds(u: Setup, w: World, e: Event, newest: R.Config)
    requires Enabled(w, e) && !Outside(e) && !e.Advance? && Holds(w, newest)
    ensures Holds(Step(u, w, e), if TakenUp(u, w, e).Some? then TakenUp(u, w, e).value else newest)
  {
    hide R.Looks, R.Seen, AdvanceStep;
  }

  ghost predicate AllEnabled(ws: seq<World>, es: seq<Event>)
  {
    |ws| == |es| + 1 && forall k :: 0 <= k < |es| ==> Enabled(ws[k], es[k])
  }

  lemma RunEnabled(u: Setup, ws: seq<World>, es: seq<Event>)
    requires Run(u, ws, es)
    ensures AllEnabled(ws, es)
  {
    hide Step, Enabled;
    forall k | 0 <= k < |es| ensures Enabled(ws[k], es[k]) { assert Follows(u, ws[k], es[k], ws[k + 1]); }
  }

  lemma {:induction false} HoldsNewest(u: Setup, ws: seq<World>, es: seq<Event>, n: nat)
    requires Run(u, ws, es) && AllEnabled(ws, es) && n < |ws|
    ensures Holds(ws[n], NewestConfig(u, ws, es, n))
    decreases n
  {
    hide Step, TakenUp, Enabled;
    if n > 0 {
      HoldsNewest(u, ws, es, n - 1);
      assert Follows(u, ws[n - 1], es[n - 1], ws[n]);
      StepHolds(u, ws[n - 1], es[n - 1], NewestConfig(u, ws, es, n - 1));
    }
  }

  /** Every start runs the newest configuration taken up so far, never an older one. */
  lemma StartsNewest(u: Setup, ws: seq<World>, es: seq<Event>, n: nat)
    requires Run(u, ws, es) && n < |es| && |ws[n + 1].launches| > |ws[n].launches|
    ensures AllEnabled(ws, es) && ws[n + 1].launches[|ws[n].launches|].config == NewestConfig(u, ws, es, n)
  {
    hide Inv, Step, NewestConfig, Enabled;
    RunEnabled(u, ws, es);
    HoldsNewest(u, ws, es, n);
    RunKeepsInv(u, ws, es, n);
    assert Follows(u, ws[n], es[n], ws[n + 1]);
    StartStep(u, ws[n], es[n]);
  }

  /** A step that starts a generation. */
  lemma StartStep(u: Setup, w: World, e: Event)
    requires Inv(u, w) && Enabled(w, e) && |Step(u, w, e).launches| > |w.launches|
    ensures w.pc.Spawn? && w.reading.Under() && w.live == {}
    ensures Step(u, w, e).launches == w.launches + [Launch(w.config, w.tuning, w.reading)]
  {
    hide Counters, R.Usable, R.Looks, R.Fires;
    assert w.pc.Spawn?;
    assert w.live == {};
  }

  /** While the loop's latest look is at or over the limit, or could not be made,
      no generation starts: between a start and the look that is not under, there
      is another look that is. */
  lemma NoStartOverTheLimit(u: Setup, ws: seq<World>, es: seq<Event>, n: nat)
    requires Run(u, ws, es) && n < |es| && |ws[n + 1].launches| > |ws[n].launches|
    ensures var r := ws[n].reading; r.Read? && (r.limit == 0 || r.used < r.limit)
    ensures ws[n + 1].launches[|ws[n].launches|].reading == ws[n].reading
    ensures ws[n].live == {}
  {
    hide Inv, Step;
    RunKeepsInv(u, ws, es, n);
    assert Follows(u, ws[n], es[n], ws[n + 1]);
    StartStep(u, ws[n], es[n]);
  }

  /** The generation number the socket reports is the number of starts, but for
      the instant between counting a generation and starting it. */
  lemma GenerationCountsStarts(u: Setup, ws: seq<World>, es: seq<Event>, n: nat)
    requires Run(u, ws, es) && n < |ws|
    ensures ws[n].control.generation == |ws[n].launches| + (if ws[n].pc.Spawn? then 1 else 0)
    ensures ws[n].control.restart.None? <==> |ws[n].launches| == 0 && !ws[n].pc.Count? && !ws[n].pc.Spawn?
  {
    RunKeepsInv(u, ws, es, n);
  }

  /** The socket describes the generation that was registered last. */
  ghost predicate Describes(u: Setup, w: World)
  {
    var config := if w.pc.Count? || w.pc.Spawn? then Some(w.config)
                  else if |w.launches| > 0 then Some(w.launches[|w.launches| - 1].config) else None;
    config.Some? ==>
      && w.control.role == u.identify(config.value).role && w.control.transport == u.identify(config.value).transport
      && (w.control.helperReady.Some? <==> u.identify(config.value).hasHelper)
  }

  lemma AdvanceDescribes(u: Setup, w: World)
    requires Enabled(w, Advance) && Describes(u, w)
    ensures Describes(u, AdvanceStep(u, w))
  {
    hide AdvanceStep;
    AdvanceLaunches(u, w);
    AdvanceTurns(u, w);
    AdvanceControl(u, w);
  }

  lemma AdvanceControl(u: Setup, w: World)
    requires Enabled(w, Advance)
    ensures var w' := AdvanceStep(u, w);
      w'.control == if w.pc.Register? then Registered(w.control, |w.launches| + 1, u.identify(w.config))
                       else if w.pc.Count? then Counted(w.control) else w.control
  {
    hide Registered, Counted;
  }

  lemma StepDescribes(u: Setup, w: World, e: Event)
    requires Enabled(w, e) && Describes(u, w)
    ensures Describes(u, Step(u, w, e))
  {
    if e.Advance? {
      hide Describes, AdvanceStep;
      AdvanceDescribes(u, w);
    } else {
      hide R.Usable, R.Looks, R.Fires;
      SameLaunches(u, w, e);
      hide Step, Enabled;
    }
  }

  /** What a step of anybody but the loop's own advance leaves to be described. */
  lemma SameLaunches(u: Setup, w: World, e: Event)
    requires Enabled(w, e) && !e.Advance?
    ensures var w' := Step(u, w, e);
      && w'.launches == w.launches
      && (w'.control == w.control || exists ready :: w'.control == Readied(w.control, ready))
      && (w'.pc.Count? || w'.pc.Spawn? <==> w.pc.Count? || w.pc.Spawn?)
      && (w.pc.Count? || w.pc.Spawn? ==> w'.config == w.config)
  {
    hide R.Usable, R.Looks, R.Fires;
    if Outside(e) { OutsideLeavesLoop(u, w, e); }
    if e.HelperReports? { assert Step(u, w, e).control == Readied(w.control, e.ready); }
  }

  /** The role and transport the socket reports, and whether it reports readiness,
      are those of the newest generation, whatever helpers have reported since. */
  lemma {:induction false} StatusIsNewest(u: Setup, ws: seq<World>, es: seq<Event>, n: nat)
    requires Run(u, ws, es) && n < |ws|
    ensures Describes(u, ws[n])
    decreases n
  {
    if n > 0 {
      StatusIsNewest(u, ws, es, n - 1);
      assert Follows(u, ws[n - 1], es[n - 1], ws[n]);
      hide Step, Describes;
      StepDescribes(u, ws[n - 1], es[n - 1]);
    }
  }

  // ---- the overshoot of a run ----

  /** The moment generation g has just started: its watcher has loaded nothing yet
      and no collector is live. */
  ghost predicate JustStarted(w: World, g: nat)
  {
    && 0 < g == |w.launches| && w.pc.Begin? && w.launches[g - 1].reading.Under()
    && g in w.meter.watchers && w.meter.watchers[g].None? && w.meter.collector.None?
  }

  lemma EveryStartIsFresh(u: Setup, ws: seq<World>, es: seq<Event>, n: nat)
    requires Run(u, ws, es) && n < |es| && |ws[n + 1].launches| > |ws[n].launches|
    ensures JustStarted(ws[n + 1], |ws[n + 1].launches|)
  {
    RunKeepsInv(u, ws, es, n);
    assert Follows(u, ws[n], es[n], ws[n + 1]);
    StartStep(u, ws[n], es[n]);
    hide Counters, LaunchesOk, R.Usable, R.Looks, R.Fires, Registered, Counted, Readied, TickStep, ReadStep;
    assert es[n].Advance? && ws[n].pc.Spawn?;
  }

  /** The bytes counted since generation g's watcher last checked, or since its
      collector went live, in the run from moment a. */
  function Since(es: seq<Event>, g: nat, a: nat, n: nat): nat
    requires a <= n <= |es|
  {
    if n == a then 0
    else
      var before := Since(es, g, a, n - 1);
      match es[n - 1]
      case Meters(Traffic(k)) => before + k
      case Meters(Checks(h)) => if h == g then 0 else before
      case Meters(Starts(_)) => 0
      case _ => before
  }

  /** From moment a on generation g goes by one limit, its collector begins with the
      total the starting look found, and no interval carries more than rate bytes. */
  ghost predicate SteadyFlow(es: seq<Event>, g: nat, a: nat, b: nat, limit: nat, used: nat, rate: nat)
    requires a <= b <= |es|
  {
    && (forall k :: a <= k < b && es[k].Meters? ==> SteadyMeter(es[k].m, g, limit, used))
    && forall k :: a <= k <= b ==> Since(es, g, a, k) <= rate
  }

  predicate SteadyMeter(m: MeterEvent, g: nat, limit: nat, used: nat)
  {
    match m
    case Loads(h, l) => h == g ==> l == Some(limit)
    case Rereads(h, l) => h == g && l.Some? ==> l.value == limit
    case Starts(total) => total == used
    case _ => true
  }

  /** What holds while g is watched: the total was below the limit at the last check. */
  ghost predicate Below(m: Meter, g: nat, limit: nat, since: nat)
  {
    && (g in m.watchers && m.watchers[g].Some? ==> m.watchers[g].value == limit)
    && (m.collector.Some? ==> m.collector.value < limit + since)
  }

  lemma MeterStaysBelow(m: Meter, e: MeterEvent, g: nat, limit: nat, used: nat, since: nat)
    requires MeterEnabled(m, e) && SteadyMeter(e, g, limit, used) && 0 < limit && used < limit &&
        Below(m, g, limit, since)
    requires g in MeterStep(m, e).watchers
    ensures Below(MeterStep(m, e), g, limit,
                  match e
                  case Traffic(k) => since + k
                  case Checks(h) => if h == g then 0 else since
                  case Starts(_) => 0
                  case _ => since)
  {
  }

  /** A watched generation's total is below the limit and what has come since. */
  lemma {:induction false} WatchedStaysBelow(u: Setup, ws: seq<World>, es: seq<Event>, g: nat, a: nat, n: nat,
                                             rate: nat)
    requires Run(u, ws, es) && a <= n < |ws| && JustStarted(ws[a], g) && ws[a].launches[g - 1].reading.limit > 0
    requires var r := ws[a].launches[g - 1].reading; SteadyFlow(es, g, a, n, r.limit, r.used, rate)
    requires forall k :: a <= k <= n ==> g in ws[k].meter.watchers
    ensures Below(ws[n].meter, g, ws[a].launches[g - 1].reading.limit, Since(es, g, a, n))
    decreases n - a
  {
    hide Inv;
    if a < n {
      WatchedStaysBelow(u, ws, es, g, a, n - 1, rate);
      assert Follows(u, ws[n - 1], es[n - 1], ws[n]);
      BelowStep(u, ws[n - 1], es[n - 1]);
      if es[n - 1].Meters? {
        var r := ws[a].launches[g - 1].reading;
        hide Step, Enabled;
        MeterStaysBelow(ws[n - 1].meter, es[n - 1].m, g, r.limit, r.used, Since(es, g, a, n - 1));
      } else {
        hide Step, Enabled;
      }
    }
  }

  /** Who changes the meter: meter events, a start, which adds a watcher that has
      loaded nothing, and an engine's return, which ends the collector. */
  lemma BelowStep(u: Setup, w: World, e: Event)
    requires Enabled(w, e)
    ensures e.Meters? ==> MeterEnabled(w.meter, e.m) && Step(u, w, e).meter == MeterStep(w.meter, e.m)
    ensures !e.Meters? ==> var m := Step(u, w, e).meter;
      && (forall g :: g in m.watchers && m.watchers[g].Some? ==>
          g in w.meter.watchers && m.watchers[g] == w.meter.watchers[g])
      && (m.collector == w.meter.collector || m.collector.None?)
  {
    hide R.Usable, R.Looks, R.Fires, Registered, Counted, Readied;
  }

  /** So when its watcher ends a generation over the limit, the total is below the
      limit and one interval's traffic more: of every run, with a fixed limit and a
      bounded flow, for every generation from its start. */
  lemma OvershootInRuns(u: Setup, ws: seq<World>, es: seq<Event>, g: nat, a: nat, n: nat, rate: nat)
    requires Run(u, ws, es) && a <= n < |es| && JustStarted(ws[a], g)
    requires var r := ws[a].launches[g - 1].reading; SteadyFlow(es, g, a, n, r.limit, r.used, rate)
    requires forall k :: a <= k <= n ==> g in ws[k].meter.watchers
    requires es[n] == Meters(Checks(g)) && ws[n].meter.watchers[g].Some?
    requires var limit, total := ws[n].meter.watchers[g].value, ws[n].meter.collector;
      limit > 0 && total.Some? && total.value >= limit
    ensures var limit := ws[a].launches[g - 1].reading.limit;
      limit > 0 ==> g in ws[n + 1].cancelled && limit <= ws[n].meter.collector.value < limit + rate
  {
    hide Inv, SteadyMeter;
    assert Follows(u, ws[n], es[n], ws[n + 1]);
    if ws[a].launches[g - 1].reading.limit > 0 {
      WatchedStaysBelow(u, ws, es, g, a, n, rate);
      assert Since(es, g, a, n) <= rate;
    }
  }

  // ---- what ends a generation ----

  /** What can cancel a generation's own context, and only that generation's. */
  ghost predicate Cause(w: World, e: Event, g: nat)
  {
    || (e.Advance? && w.pc.Stop? && g == |w.launches|)
    || (e.Meters? && MeterEnabled(w.meter, e.m) && Trips(w.meter, e.m) == Some(g))
    || (e.SocketCalls? && e.j < |w.requests| && w.requests[e.j] == g)
  }

  lemma StepCancels(u: Setup, w: World, e: Event, g: nat)
    requires Enabled(w, e) && g in Step(u, w, e).cancelled
    ensures g in w.cancelled || Cause(w, e, g)
  {
    hide R.Usable, R.Looks, R.Fires, Registered, Counted, Readied, MeterStep, Trips, MeterEnabled;
  }

  lemma {:induction false} CancelledHasCause(u: Setup, ws: seq<World>, es: seq<Event>, n: nat, g: nat) returns (c: nat)
    requires Run(u, ws, es) && n < |ws| && g in ws[n].cancelled
    ensures c < n && Cause(ws[c], es[c], g) && g !in ws[c].cancelled
    decreases n
  {
    assert n > 0;
    assert Follows(u, ws[n - 1], es[n - 1], ws[n]);
    hide Step, Enabled, Cause;
    StepCancels(u, ws[n - 1], es[n - 1], g);
    if g in ws[n - 1].cancelled {
      c := CancelledHasCause(u, ws, es, n - 1, g);
    } else {
      c := n - 1;
    }
  }

  lemma StepRequests(u: Setup, w: World, e: Event, j: nat)
    requires Enabled(w, e) && j < |Step(u, w, e).requests|
    ensures if e.SocketReads? && j == |w.requests| then w.control.restart == Some(Step(u, w, e).requests[j])
            else var k := if e.SocketCalls? && j >= e.j then j + 1 else j;
                 k < |w.requests| && Step(u, w, e).requests[j] == w.requests[k]
  {
    hide R.Usable, R.Looks, R.Fires, Registered, Counted, Readied, MeterStep, Trips;
  }

  /** A waiting request read its generation while that one was the registered one. */
  lemma {:induction false} RequestWasRead(u: Setup, ws: seq<World>, es: seq<Event>, n: nat, j: nat) returns (a: nat)
    requires Run(u, ws, es) && n < |ws| && j < |ws[n].requests|
    ensures a < n && es[a].SocketReads? && ws[a].control.restart == Some(ws[n].requests[j])
    decreases n
  {
    assert n > 0;
    assert Follows(u, ws[n - 1], es[n - 1], ws[n]);
    hide Step;
    var w, e := ws[n - 1], es[n - 1];
    StepRequests(u, w, e, j);
    if e.SocketReads? && j == |w.requests| {
      a := n - 1;
    } else {
      a := RequestWasRead(u, ws, es, n - 1, if e.SocketCalls? && j >= e.j then j + 1 else j);
    }
  }

  /** A restart request ends the generation whose function it read and no other:
      if a later one is running by the time it calls, that one is left alone. */
  lemma RestartEndsOnlyWhatItRead(u: Setup, ws: seq<World>, es: seq<Event>, n: nat) returns (a: nat)
    requires Run(u, ws, es) && n < |es| && es[n].SocketCalls? && es[n].j < |ws[n].requests|
    ensures var g := ws[n].requests[es[n].j];
            && a < n && es[a].SocketReads? && ws[a].control.restart == Some(g)
            && ws[n + 1].cancelled == ws[n].cancelled + {g} && ws[n + 1].live == ws[n].live
            && (forall h :: h in ws[n].live && h != g ==> (h in ws[n + 1].cancelled <==> h in ws[n].cancelled))
  {
    a := RequestWasRead(u, ws, es, n, es[n].j);
    assert Follows(u, ws[n], es[n], ws[n + 1]);
  }

  /** The function is never taken back: after the first generation a request
      between generations is accepted, although it names one that is over. */
  lemma BetweenGenerationsAccepted(u: Setup, ws: seq<World>, es: seq<Event>, n: nat)
    requires Run(u, ws, es) && n < |ws| && |ws[n].launches| > 0 && !Launching(ws[n].pc) && !Engaged(ws[n].pc)
    ensures ws[n].live == {} && ws[n].control.restart == Some(|ws[n].launches|) && Enabled(ws[n], SocketReads)
  {
    RunKeepsInv(u, ws, es, n);
    assert ws[n].live == {};
  }

  /** A generation the watch found ended without shutdown was cancelled by its own
      quota watcher or by a request that named it. */
  lemma RestartWakeHasCause(u: Setup, ws: seq<World>, es: seq<Event>, n: nat) returns (c: nat)
    requires Run(u, ws, es) && n < |es| && es[n].SeesOver? && !ws[n].shutdown
    ensures var g := |ws[n].launches|;
            c < n && ((es[c].Meters? && MeterEnabled(ws[c].meter, es[c].m) && Trips(ws[c].meter, es[c].m) == Some(g))
                      || (es[c].SocketCalls? && es[c].j < |ws[c].requests| && ws[c].requests[es[c].j] == g))
  {
    hide R.Usable, R.Looks, R.Fires;
    assert Follows(u, ws[n], es[n], ws[n + 1]);
    var g := |ws[n].launches|;
    c := CancelledHasCause(u, ws, es, n, g);
    if es[c].Advance? && ws[c].pc.Stop? {
      assert Follows(u, ws[c], es[c], ws[c + 1]);
      StoppedMeansNext(u, ws, es, c + 1, n);
    }
  }

  /** From the moment the loop stops a generation it does not wait on it again. */
  ghost predicate PastStop(w: World, g: nat)
  {
    |w.launches| > g || (|w.launches| == g && !Watching(w.pc) && !w.pc.Stop?)
  }

  lemma {:induction false} StoppedMeansNext(u: Setup, ws: seq<World>, es: seq<Event>, a: nat, n: nat)
    requires Run(u, ws, es) && a <= n < |ws| && PastStop(ws[a], |ws[a].launches|)
    ensures PastStop(ws[n], |ws[a].launches|)
    decreases n - a
  {
    hide PastStop, Step, Enabled;
    if a < n {
      StoppedMeansNext(u, ws, es, a, n - 1);
      assert Follows(u, ws[n - 1], es[n - 1], ws[n]);
      StepStaysPast(u, ws[n - 1], es[n - 1], |ws[a].launches|);
    }
  }

  lemma StepStaysPast(u: Setup, w: World, e: Event, g: nat)
    requires Enabled(w, e) && PastStop(w, g)
    ensures PastStop(Step(u, w, e), g)
  {
    hide R.Usable, R.Looks, R.Fires, AdvanceStep;
    if Outside(e) {
      OutsideLeavesLoop(u, w, e);
    } else if e.Advance? {
      AdvanceLaunches(u, w);
      AdvanceTurns(u, w);
    }
  }

  // ---- the watch, call by call ----

  /** A call in progress has been woken by nothing that ends it; one that is over
      came back with what the watch must come back with. */
  ghost predicate WatchOk(u: Setup, w: World)
  {
    && (w.pc.Await? || w.pc.Reading? ==>
        w.start.current == w.config && R.Outcome(u.rules, w.start, w.obs, R.StillWaiting, |w.obs|))
    && (w.pc.Reading? ==> R.Looks(w.start, w.obs, |w.obs|, w.pc.fp, w.pc.tls))
    && (w.pc.Stop? || w.pc.Join? ==>
          |w.obs| > 0 && w.start.current == w.config && R.Outcome(u.rules, w.start, w.obs, w.pc.why, |w.obs| - 1))
  }

  lemma OneMore(u: Setup, s: R.Start, obs: seq<R.Observation>, o: R.Observation, wake: R.Wake)
    requires R.Outcome(u.rules, s, obs, R.StillWaiting, |obs|)
    requires var all := obs + [o];
      match wake
      case StillWaiting => !R.Ends(u.rules, s, all, |obs|)
      case WakeShutdown => o.Shutdown?
      case WakeRestart => o.GenerationOver?
      case WakeConfig(next) => R.Fires(u.rules, s, all, |obs|) && R.Usable(u.rules, o.file) == Some(next)
    ensures R.Outcome(u.rules, s, obs + [o], wake, if wake.StillWaiting? then |obs| + 1 else |obs|)
  {
    hide R.Fires, R.Usable;
    var all := obs + [o];
    forall n | 0 <= n < |obs| ensures !R.Ends(u.rules, s, all, n) { R.EndsPrefix(u.rules, s, obs, [o], n); }
  }

  lemma TickWatch(u: Setup, w: World)
    requires WatchOk(u, w) && w.pc.Await?
    ensures WatchOk(u, TickStep(w))
  {
    hide R.Outcome, R.Usable;
    var o := R.Tick(w.disk.fp, w.disk.tls, w.disk.file);
    if !R.Looks(w.start, w.obs, |w.obs|, w.disk.fp, w.disk.tls) {
      R.SeenPrefix(w.start, w.obs, [o], |w.obs|);
      OneMore(u, w.start, w.obs, o, R.StillWaiting);
    }
  }

  lemma ReadWatch(u: Setup, w: World)
    requires WatchOk(u, w) && w.pc.Reading?
    ensures WatchOk(u, ReadStep(u, w))
  {
    hide R.Outcome, R.Looks, R.Seen;
    var o := R.Tick(w.pc.fp, w.pc.tls, w.disk.file);
    var obs := w.obs + [o];
    if R.Fires(u.rules, w.start, obs, |w.obs|) {
      assert R.Usable(u.rules, o.file).Some?;
      hide R.Fires, R.Usable;
      OneMore(u, w.start, w.obs, o, R.WakeConfig(R.Usable(u.rules, w.disk.file).value));
    } else {
      hide R.Fires, R.Usable;
      OneMore(u, w.start, w.obs, o, R.StillWaiting);
    }
  }

  lemma StepWatch(u: Setup, w: World, e: Event)
    requires WatchOk(u, w) && Enabled(w, e)
    ensures WatchOk(u, Step(u, w, e))
  {
    match e
    case TickLooks => TickWatch(u, w);
    case TickReads => ReadWatch(u, w);
    case SeesShutdown => hide R.Fires, R.Usable, R.Looks; OneMore(u, w.start, w.obs, R.Shutdown, R.WakeShutdown);
    case SeesOver => hide R.Fires, R.Usable, R.Looks; OneMore(u, w.start, w.obs, R.GenerationOver, R.WakeRestart);
    case _ => OtherWatch(u, w, e);
  }

  lemma OtherWatch(u: Setup, w: World, e: Event)
    requires WatchOk(u, w) && Enabled(w, e) && !e.TickLooks? && !e.TickReads? && !e.SeesShutdown? && !e.SeesOver?
    ensures WatchOk(u, Step(u, w, e))
  {
    hide R.Fires, R.Usable, R.Looks, R.Outcome, Step;
    if Outside(e) {
      OutsideLeavesLoop(u, w, e);
    } else if e.Advance? {
      AdvanceWatch(u, w);
    } else {
      LookWatch(u, w, e);
    }
  }

  lemma AdvanceWatch(u: Setup, w: World)
    requires WatchOk(u, w) && Enabled(w, Advance)
    ensures WatchOk(u, Step(u, w, Advance))
  {
    hide R.Fires, R.Usable, R.Looks, R.Outcome, AdvanceStep;
    AdvanceLaunches(u, w);
    AdvanceTurns(u, w);
    if w.pc.Begin? { NothingSeen(u, R.Start(w.disk.fp, w.disk.tls, w.config)); }
  }

  lemma NothingSeen(u: Setup, s: R.Start)
    ensures R.Outcome(u.rules, s, [], R.StillWaiting, 0)
  {
  }

  lemma LookWatch(u: Setup, w: World, e: Event)
    requires WatchOk(u, w) && Enabled(w, e) && (e.Look? || e.LoadFile?)
    ensures WatchOk(u, Step(u, w, e))
  {
    hide R.Fires, R.Looks, R.Outcome;
  }

  /** Every call of the watch in every run has the outcome AwaitConfigChange has on
      what it was woken by. */
  lemma {:induction false} EveryCallIsAwait(u: Setup, ws: seq<World>, es: seq<Event>, n: nat)
    requires Run(u, ws, es) && n < |ws|
    ensures WatchOk(u, ws[n])
    decreases n
  {
    hide WatchOk, Step;
    if n == 0 {
      AtFirst(u, ws[0]);
    } else {
      EveryCallIsAwait(u, ws, es, n - 1);
      assert Follows(u, ws[n - 1], es[n - 1], ws[n]);
      StepWatch(u, ws[n - 1], es[n - 1]);
    }
  }

  lemma AtFirst(u: Setup, w: World)
    requires Init(u, w)
    ensures WatchOk(u, w)
  {
  }

  // ---- when an edit is picked up ----

  /** What is on disk must replace what runs: it may run, and the certificates are
      others or the call has not seen this fingerprint and the file means something
      else. */
  predicate Due(u: Setup, w: World)
  {
    var next := R.Usable(u.rules, w.disk.file);
    && w.disk.fp.Some? && next.Some?
    && (R.TlsChanged(w.start, w.disk.tls) || (w.disk.fp.value != R.Seen(w.start, w.obs, |w.obs|).0 &&
        next.value != w.config))
  }

  /** A tick that nobody edits under ends the call with what is on disk if and only
      if it is due. */
  lemma TickPicksUpIff(u: Setup, ws: seq<World>, es: seq<Event>, n: nat)
    requires Run(u, ws, es) && n + 1 < |es| && es[n].TickLooks?
    requires ws[n + 1].pc.Reading? ==> es[n + 1].TickReads?
    ensures var m := if ws[n + 1].pc.Reading? then n + 2 else n + 1;
            if Due(u, ws[n]) then ws[m].pc == Stop(R.WakeConfig(R.Usable(u.rules, ws[n].disk.file).value))
                else ws[m].pc.Await?
  {
    assert Follows(u, ws[n], es[n], ws[n + 1]);
    EveryCallIsAwait(u, ws, es, n);
    if ws[n + 1].pc.Reading? { assert Follows(u, ws[n + 1], es[n + 1], ws[n + 2]); }
    var o := R.Tick(ws[n].disk.fp, ws[n].disk.tls, ws[n].disk.file);
    R.SeenPrefix(ws[n].start, ws[n].obs, [o], |ws[n].obs|);
    hide R.Outcome, R.Usable, R.Seen;
  }

  /** The watch has looked at what is on disk, or will begin with it: nothing there
      can end this call or, while nobody edits, any later one. */
  predicate Blind(w: World)
  {
    && !w.pc.Reading?
    && (w.pc.Await? ==>
        (w.disk.fp.None? || w.disk.fp.value == R.Seen(w.start, w.obs, |w.obs|).0) && !R.TlsChanged(w.start, w.disk.tls))
    && (w.pc.Stop? || w.pc.Join? ==> !w.pc.why.WakeConfig?)
  }

  lemma StepStaysBlind(u: Setup, w: World, e: Event)
    requires Blind(w) && Enabled(w, e) && !e.Edit? && !e.LoadFile?
    ensures Blind(Step(u, w, e)) && Step(u, w, e).config == w.config && Step(u, w, e).disk == w.disk
    ensures |Step(u, w, e).launches| > |w.launches| ==> Step(u, w, e).launches[|w.launches|].config == w.config
  {
    hide R.Seen, R.TlsChanged, R.Usable, R.Looks, R.Fires, Step, Enabled;
    if Outside(e) {
      OutsideLeavesLoop(u, w, e);
    } else if e.Advance? {
      AdvanceStaysBlind(u, w);
    } else {
      LoopStaysBlind(u, w, e);
    }
  }

  lemma AdvanceStaysBlind(u: Setup, w: World)
    requires Blind(w) && Enabled(w, Advance)
    ensures var w' := Step(u, w, Advance);
            && Blind(w') && w'.config == w.config && w'.disk == w.disk
            && (|w'.launches| > |w.launches| ==> w'.launches[|w.launches|].config == w.config)
  {
    hide AdvanceStep;
    AdvanceLaunches(u, w);
    AdvanceTurns(u, w);
  }

  lemma LoopStaysBlind(u: Setup, w: World, e: Event)
    requires Blind(w) && Enabled(w, e) && !Outside(e) && !e.Advance? && !e.LoadFile?
    ensures var w' := Step(u, w, e);
            Blind(w') && w'.config == w.config && w'.disk == w.disk && w'.launches == w.launches
  {
    hide R.Usable, R.Fires, AdvanceStep;
    if e.TickLooks? {
      R.SeenPrefix(w.start, w.obs, [R.Tick(w.disk.fp, w.disk.tls, w.disk.file)], |w.obs|);
    }
  }

  /** So an edit the watch is blind to stays lost across every call and restart,
      until the next edit or until the loop itself reads the file after a wait. */
  lemma {:induction false} LostUntilEdited(u: Setup, ws: seq<World>, es: seq<Event>, a: nat, b: nat)
    requires Run(u, ws, es) && a <= b < |ws| && Blind(ws[a])
    requires forall k :: a <= k < b ==> !es[k].Edit? && !es[k].LoadFile?
    ensures Blind(ws[b]) && ws[b].config == ws[a].config && ws[b].disk == ws[a].disk
    decreases b - a
  {
    hide Blind, Step;
    if a < b {
      LostUntilEdited(u, ws, es, a, b - 1);
      assert Follows(u, ws[b - 1], es[b - 1], ws[b]);
      StepStaysBlind(u, ws[b - 1], es[b - 1]);
    }
  }

  // ---- a run that loses an edit ----

  lemma Extend(u: Setup, ws: seq<World>, es: seq<Event>, e: Event) returns (vs: seq<World>, fs: seq<Event>)
    requires Run(u, ws, es) && Enabled(ws[|es|], e)
    ensures Run(u, vs, fs) && |fs| == |es| + 1 && vs[|fs|] == Step(u, ws[|es|], e) && ws <= vs && es <= fs
  {
    hide Step, Enabled, Init;
    vs, fs := ws + [Step(u, ws[|es|], e)], es + [e];
    forall n | 0 <= n < |fs| ensures Follows(u, vs[n], fs[n], vs[n + 1]) {
      if n < |es| { assert Follows(u, ws[n], es[n], ws[n + 1]); }
    }
  }

  /** A restart asked for over the socket ends the generation that runs. */
  lemma RestartRun(u: Setup, ws: seq<World>, es: seq<Event>) returns (vs: seq<World>, fs: seq<Event>)
    requires Run(u, ws, es) && ws[|es|].pc.Await? && !ws[|es|].shutdown
    ensures Run(u, vs, fs) && ws <= vs && es <= fs
    ensures var w, v := ws[|es|], vs[|fs|];
            && v.pc == Join(R.WakeRestart) && !v.shutdown
            && v.config == w.config && v.disk == w.disk && v.launches == w.launches && v.live == w.live
  {
    vs, fs := CancelRun(u, ws, es);
    vs, fs := Extend(u, vs, fs, SeesOver);
    vs, fs := Extend(u, vs, fs, Advance);
  }

  lemma CancelRun(u: Setup, ws: seq<World>, es: seq<Event>) returns (vs: seq<World>, fs: seq<Event>)
    requires Run(u, ws, es) && ws[|es|].pc.Await?
    ensures Run(u, vs, fs) && ws <= vs && es <= fs
    ensures var w, v := ws[|es|], vs[|fs|];
            |w.launches| in v.cancelled && v == w.(requests := v.requests, cancelled := v.cancelled)
  {
    var w := ws[|es|];
    RunKeepsInv(u, ws, es, |es|);
    vs, fs := Extend(u, ws, es, SocketReads);
    assert vs[|fs|].requests[|w.requests|] == |w.launches|;
    vs, fs := Extend(u, vs, fs, SocketCalls(|w.requests|));
  }

  /** The loop comes round and a new call of the watch begins, the file as it is. */
  lemma RoundRun(u: Setup, ws: seq<World>, es: seq<Event>, reading: Quota.Reading)
    returns (vs: seq<World>, fs: seq<Event>)
    requires Run(u, ws, es) && ws[|es|].pc == Join(R.WakeRestart) && ws[|es|].live == {} && reading.Under()
    ensures Run(u, vs, fs) && ws <= vs && es <= fs
    ensures var w, v := ws[|es|], vs[|fs|];
            && v.pc == Begin && v.config == w.config && v.disk == w.disk && v.shutdown == w.shutdown
            && |v.launches| == |w.launches| + 1
  {
    hide Registered, Counted, R.Usable;
    vs, fs := Extend(u, ws, es, Advance);
    vs, fs := Extend(u, vs, fs, Look(reading));
    vs, fs := Extend(u, vs, fs, Look(reading));
    vs, fs := StartRun(u, vs, fs);
  }

  /** A prepared generation starts. */
  lemma StartRun(u: Setup, ws: seq<World>, es: seq<Event>) returns (vs: seq<World>, fs: seq<Event>)
    requires Run(u, ws, es) && ws[|es|].pc == Prepare
    ensures Run(u, vs, fs) && ws <= vs && es <= fs
    ensures var w, v := ws[|es|], vs[|fs|];
            && v.pc == Begin && v.config == w.config && v.disk == w.disk && v.shutdown == w.shutdown
            && |v.launches| == |w.launches| + 1
  {
    hide Registered, Counted, R.Usable;
    vs, fs := Extend(u, ws, es, Advance);
    vs, fs := Extend(u, vs, fs, Advance);
    vs, fs := Extend(u, vs, fs, Advance);
    vs, fs := Extend(u, vs, fs, Advance);
  }

  /** From any moment at which a generation is being watched, a restart with an edit
      behind it can leave the new generation running the old configuration, and the
      watch blind to the new one although it may run and means something else. */
  lemma EditCanBeLost(u: Setup, ws: seq<World>, es: seq<Event>, disk: Disk, reading: Quota.Reading)
    returns (vs: seq<World>, fs: seq<Event>)
    requires Run(u, ws, es) && ws[|es|].pc.Await? && !ws[|es|].shutdown && reading.Under()
    ensures Run(u, vs, fs) && ws <= vs && es <= fs
    ensures var w, v := ws[|es|], vs[|fs|];
            v.pc.Await? && v.disk == disk && v.config == w.config && |v.launches| == |w.launches| + 1 && Blind(v)
  {
    hide Inv, Step, Enabled, Blind;
    var g := |ws[|es|].launches|;
    vs, fs := RestartRun(u, ws, es);
    LiveIsNewest(u, vs, fs);
    if g in vs[|fs|].live { vs, fs := ReturnRun(u, vs, fs, g); }
    vs, fs := EditRun(u, vs, fs, disk);
    vs, fs := RoundRun(u, vs, fs, reading);
    vs, fs := BeginRun(u, vs, fs);
  }

  lemma LiveIsNewest(u: Setup, ws: seq<World>, es: seq<Event>)
    requires Run(u, ws, es)
    ensures ws[|es|].live <= {|ws[|es|].launches|}
  {
    RunKeepsInv(u, ws, es, |es|);
  }

  lemma ReturnRun(u: Setup, ws: seq<World>, es: seq<Event>, g: nat) returns (vs: seq<World>, fs: seq<Event>)
    requires Run(u, ws, es) && g in ws[|es|].live
    ensures Run(u, vs, fs) && ws <= vs && es <= fs && vs[|fs|].live == ws[|es|].live - {g}
    ensures vs[|fs|] == ws[|es|].(live := vs[|fs|].live, meter := vs[|fs|].meter)
  {
    vs, fs := Extend(u, ws, es, EngineReturns(g));
  }

  lemma EditRun(u: Setup, ws: seq<World>, es: seq<Event>, disk: Disk) returns (vs: seq<World>, fs: seq<Event>)
    requires Run(u, ws, es)
    ensures Run(u, vs, fs) && ws <= vs && es <= fs && vs[|fs|] == ws[|es|].(disk := disk)
  {
    vs, fs := Extend(u, ws, es, Edit(disk));
  }

  lemma BeginRun(u: Setup, ws: seq<World>, es: seq<Event>) returns (vs: seq<World>, fs: seq<Event>)
    requires Run(u, ws, es) && ws[|es|].pc.Begin?
    ensures Run(u, vs, fs) && ws <= vs && es <= fs
    ensures var w, v := ws[|es|], vs[|fs|];
            v.pc.Await? && v.disk == w.disk && v.config == w.config && v.launches == w.launches && Blind(v)
  {
    vs, fs := Extend(u, ws, es, Advance);
  }
}
