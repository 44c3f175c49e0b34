/** What an edit, a restart, a raised limit and a shutdown come to in the engine's
    loop: runs that go on to a start, and when the process may end. */
module Generations {
  import opened Text
  import opened Engine
  import Quota
  import R = Reload

  // ---- when the process ends ----

  /** Nothing but a shutdown brings the loop to its end. */
  ghost predicate EndsOnShutdown(w: World)
  {
    w.pc.Exited? || ((w.pc.Stop? || w.pc.Join?) && w.pc.why.WakeShutdown?) ==> w.shutdown
  }

  lemma StepEndsOnShutdown(u: Setup, w: World, e: Event)
    requires Enabled(w, e) && EndsOnShutdown(w)
    ensures EndsOnShutdown(Step(u, w, e)) && (w.shutdown ==> Step(u, w, e).shutdown)
  {
    hide R.Usable, R.Looks, R.Fires, MeterEnabled, MeterStep, Trips, Registered, Counted, Readied;
  }

  /** The process never ends without a shutdown, whatever is edited, restarted or
      over its limit. */
  lemma {:induction false} ExitedAfterShutdown(u: Setup, ws: seq<World>, es: seq<Event>, n: nat)
    requires Run(u, ws, es) && n < |ws|
    ensures EndsOnShutdown(ws[n]) && (ws[n].pc.Exited? ==> ws[n].shutdown)
    decreases n
  {
    if n > 0 {
      ExitedAfterShutdown(u, ws, es, n - 1);
      assert Follows(u, ws[n - 1], es[n - 1], ws[n]);
      hide Step, Enabled, EndsOnShutdown;
      StepEndsOnShutdown(u, ws[n - 1], es[n - 1]);
    }
  }

  /** A look is what the loop goes by from then on; before a start it goes on exactly
      when the traffic is below the limit, and waits otherwise. */
  lemma LookDecides(u: Setup, ws: seq<World>, es: seq<Event>, n: nat)
    requires Run(u, ws, es) && n < |es| && es[n].Look?
    ensures var r := es[n].reading; var pc := ws[n].pc;
      && ws[n + 1].reading == r
      && ws[n + 1].pc ==
           if pc.AfterRestart? then Top else if !HasRoom(r) then Held else if pc.Top? then Prepare else Refresh
  {
    assert Follows(u, ws[n], es[n], ws[n + 1]);
  }

  // ---- runs that go on to a start ----

  /** The limit could be read, and there is none or the traffic is below it. */
  predicate HasRoom(r: Quota.Reading) { r.Read? && (r.limit == 0 || r.used < r.limit) }

  /** Another generation has begun, with this configuration. */
  predicate Begun(w: World, v: World, config: R.Config)
  {
    && v.pc == Begin && v.config == config && v.shutdown == w.shutdown && v.disk == w.disk
    && |v.launches| == |w.launches| + 1 && v.launches[..|w.launches|] == w.launches
    && v.launches[|w.launches|].config == config
  }

  lemma PreparedStarts(u: Setup, ws: seq<World>, es: seq<Event>) returns (vs: seq<World>, fs: seq<Event>)
    requires Run(u, ws, es) && ws[|es|].pc == Prepare
    ensures Run(u, vs, fs) && ws <= vs && es <= fs && Begun(ws[|es|], vs[|fs|], ws[|es|].config)
  {
    hide Run, Init, Registered, Counted;
    vs, fs := Extend(u, ws, es, Advance);
    vs, fs := Extend(u, vs, fs, Advance);
    vs, fs := Extend(u, vs, fs, Advance);
    vs, fs := Extend(u, vs, fs, Advance);
  }

  /** Whatever still runs of the generation that is being stopped returns. */
  lemma StoppedJoins(u: Setup, ws: seq<World>, es: seq<Event>) returns (vs: seq<World>, fs: seq<Event>)
    requires Run(u, ws, es) && ws[|es|].pc.Stop?
    ensures Run(u, vs, fs) && ws <= vs && es <= fs
    ensures var w, v := ws[|es|], vs[|fs|];
      && v.pc == Join(w.pc.why) && v.live == {} && v.config == w.config && v.disk == w.disk
      && v.shutdown == w.shutdown && v.launches == w.launches
  {
    hide Run, Init;
    vs, fs := Extend(u, ws, es, Advance);
    LiveIsNewest(u, vs, fs);
    RunSize(u, vs, fs);
    RunSize(u, ws, es);
    ghost var g := |ws[|es|].launches|;
    if g in vs[|fs|].live { vs, fs := Extend(u, vs, fs, EngineReturns(g)); }
  }

  lemma RunSize(u: Setup, ws: seq<World>, es: seq<Event>)
    requires Run(u, ws, es)
    ensures |ws| == |es| + 1
  {
  }

  /** A configuration the watch came back with is what the next generation runs, as
      soon as a look finds the traffic under its limit. */
  lemma TakenUpStarts(u: Setup, ws: seq<World>, es: seq<Event>, c: R.Config, reading: Quota.Reading)
    returns (vs: seq<World>, fs: seq<Event>)
    requires Run(u, ws, es) && ws[|es|].pc == Stop(R.WakeConfig(c)) && HasRoom(reading)
    ensures Run(u, vs, fs) && ws <= vs && es <= fs && Begun(ws[|es|], vs[|fs|], c)
  {
    hide Run, Init;
    vs, fs := StoppedJoins(u, ws, es);
    vs, fs := Extend(u, vs, fs, Advance);
    vs, fs := Extend(u, vs, fs, Look(reading));
    vs, fs := PreparedStarts(u, vs, fs);
  }

  /** A generation that was ended is followed by one with the same configuration. */
  lemma EndedStartsAgain(u: Setup, ws: seq<World>, es: seq<Event>, reading: Quota.Reading)
    returns (vs: seq<World>, fs: seq<Event>)
    requires Run(u, ws, es) && ws[|es|].pc == Stop(R.WakeRestart) && HasRoom(reading)
    ensures Run(u, vs, fs) && ws <= vs && es <= fs && Begun(ws[|es|], vs[|fs|], ws[|es|].config)
  {
    hide Run, Init;
    vs, fs := StoppedJoins(u, ws, es);
    vs, fs := Extend(u, vs, fs, Advance);
    vs, fs := Extend(u, vs, fs, Look(reading));
    vs, fs := Extend(u, vs, fs, Look(reading));
    vs, fs := PreparedStarts(u, vs, fs);
  }

  /** Once the limit is raised, a loop that was held starts what is on disk, or what
      it had when that cannot run. */
  lemma HeldStarts(u: Setup, ws: seq<World>, es: seq<Event>, reading: Quota.Reading)
    returns (vs: seq<World>, fs: seq<Event>)
    requires Run(u, ws, es) && ws[|es|].pc == Held && HasRoom(reading)
    ensures Run(u, vs, fs) && ws <= vs && es <= fs
    ensures var w := ws[|es|]; var next := R.Usable(u.rules, w.disk.file);
      Begun(w, vs[|fs|], if next.Some? then next.value else w.config)
  {
    hide Run, Init, R.Usable;
    vs, fs := Extend(u, ws, es, Look(reading));
    vs, fs := Extend(u, vs, fs, LoadFile);
    vs, fs := PreparedStarts(u, vs, fs);
  }

  /** What must end the generation that started with s: a file the watch has not seen
      that means something else, or certificates with other digests than at its
      start, which the file still leads to. */
  predicate MustReplace(w: World, disk: Disk, c: R.Config)
  {
    && disk.fp.Some?
    && ((disk.fp.value != R.Seen(w.start, w.obs, |w.obs|).0 && c != w.config)
        || (disk.tls.ok && disk.tls.digests != w.start.tls.digests))
  }

  /** An edit to another configuration that may run, or a renewal of the helper's
      certificates, is picked up by the next tick and becomes the next generation. */
  lemma EditIsApplied(u: Setup, ws: seq<World>, es: seq<Event>, disk: Disk, c: R.Config, reading: Quota.Reading)
    returns (vs: seq<World>, fs: seq<Event>)
    requires Run(u, ws, es) && ws[|es|].pc.Await? && HasRoom(reading)
    requires disk.file.Parsed? && c == u.rules.defaults(disk.file.raw) && u.rules.valid(c)
    requires MustReplace(ws[|es|], disk, c)
    ensures Run(u, vs, fs) && ws <= vs && es <= fs
    ensures Begun(ws[|es|].(disk := disk), vs[|fs|], c)
  {
    vs, fs := EditFires(u, ws, es, disk, c);
    vs, fs := TakenUpStarts(u, vs, fs, c, reading);
  }

  lemma EditFires(u: Setup, ws: seq<World>, es: seq<Event>, disk: Disk, c: R.Config)
    returns (vs: seq<World>, fs: seq<Event>)
    requires Run(u, ws, es) && ws[|es|].pc.Await?
    requires disk.file.Parsed? && c == u.rules.defaults(disk.file.raw) && u.rules.valid(c)
    requires MustReplace(ws[|es|], disk, c)
    ensures Run(u, vs, fs) && ws <= vs && es <= fs && vs[|fs|].pc == Stop(R.WakeConfig(c))
    ensures var w, v := ws[|es|], vs[|fs|];
      v.disk == disk && v.config == w.config && v.launches == w.launches && v.shutdown == w.shutdown
  {
    var w := ws[|es|];
    EveryCallIsAwait(u, ws, es, |es|);
    vs, fs := Extend(u, ws, es, Edit(disk));
    vs, fs := Extend(u, vs, fs, TickLooks);
    R.SeenPrefix(w.start, w.obs, [R.Tick(disk.fp, disk.tls, disk.file)], |w.obs|);
    vs, fs := Extend(u, vs, fs, TickReads);
  }

  // ---- a shutdown can always be followed ----

  lemma ShutdownEnds(u: Setup, ws: seq<World>, es: seq<Event>) returns (vs: seq<World>, fs: seq<Event>)
    requires Run(u, ws, es) && ws[|es|].shutdown && (ws[|es|].pc.Await? || ws[|es|].pc.Held?)
    ensures Run(u, vs, fs) && ws <= vs && es <= fs && vs[|fs|].pc == Exited && vs[|fs|].launches == ws[|es|].launches
  {
    hide Run, Init;
    RunSize(u, ws, es);
    if ws[|es|].pc.Held? {
      vs, fs := Extend(u, ws, es, Advance);
    } else {
      vs, fs := Extend(u, ws, es, SeesShutdown);
      vs, fs := StoppedJoins(u, vs, fs);
      vs, fs := Extend(u, vs, fs, Advance);
    }
  }

  // ---- what the watchers and the helper do to a generation ----

  /** A watcher's check ends its generation exactly when a limit is set, a collector
      is live and its total has reached the limit; a limit that cannot be read at the
      start of the watch ends it too, and nothing else a watcher does. */
  lemma WatcherEndsIff(u: Setup, w: World, m: MeterEvent, g: nat)
    requires Enabled(w, Meters(m)) && g !in w.cancelled
    ensures g in Step(u, w, Meters(m)).cancelled <==>
      || (m == Loads(g, None))
      || (m == Checks(g) && var limit := w.meter.watchers[g].value; var total := w.meter.collector;
          limit > 0 && total.Some? && total.value >= limit)
  {
  }

  /** From every run about to start a generation: its watcher reads the limit, the
      collector reaches it, and the loop ends up held, with nothing running. */
  lemma LimitHolds(u: Setup, ws: seq<World>, es: seq<Event>, limit: nat, total: nat, reading: Quota.Reading)
    returns (vs: seq<World>, fs: seq<Event>)
    requires Run(u, ws, es) && ws[|es|].pc == Spawn && 0 < limit <= total && !HasRoom(reading)
    ensures Run(u, vs, fs) && ws <= vs && es <= fs
    ensures var w, v := ws[|es|], vs[|fs|];
      && v.pc == Held && v.live == {} && v.config == w.config && v.shutdown == w.shutdown
      && v.launches == w.launches + [Launch(w.config, w.tuning, w.reading)]
  {
    hide Run, Init;
    RunSize(u, ws, es);
    ghost var g := |ws[|es|].launches| + 1;
    vs, fs := WatcherTrips(u, ws, es, g, limit, total);
    vs, fs := Extend(u, vs, fs, Advance);
    vs, fs := Extend(u, vs, fs, SeesOver);
    vs, fs := StoppedJoins(u, vs, fs);
    vs, fs := Extend(u, vs, fs, Advance);
    vs, fs := Extend(u, vs, fs, Look(reading));
    vs, fs := Extend(u, vs, fs, Look(reading));
  }

  lemma WatcherTrips(u: Setup, ws: seq<World>, es: seq<Event>, g: nat, limit: nat, total: nat)
    returns (vs: seq<World>, fs: seq<Event>)
    requires Run(u, ws, es) && ws[|es|].pc == Spawn && 0 < limit <= total && g == |ws[|es|].launches| + 1
    ensures Run(u, vs, fs) && ws <= vs && es <= fs
    ensures var w, v := ws[|es|], vs[|fs|];
      && v.pc == Begin && g in v.cancelled && v.config == w.config && v.shutdown == w.shutdown
      && v.launches == w.launches + [Launch(w.config, w.tuning, w.reading)]
  {
    hide Run, Init, TickStep, ReadStep, Registered, Counted, Readied;
    vs, fs := Extend(u, ws, es, Advance);
    vs, fs := Extend(u, vs, fs, Meters(Loads(g, Some(limit))));
    vs, fs := Extend(u, vs, fs, Meters(Starts(0)));
    vs, fs := Extend(u, vs, fs, Meters(Traffic(total)));
    vs, fs := Extend(u, vs, fs, Meters(Checks(g)));
  }

  /** The limit a watcher goes by is the one it read last; the total starts with what
      the collector starts with and grows by the traffic. */
  lemma MeterKeepsBooks(u: Setup, w: World, m: MeterEvent)
    requires Enabled(w, Meters(m))
    ensures var v := Step(u, w, Meters(m)).meter;
      match m
      case Loads(g, limit) => limit.Some? ==> v == w.meter.(watchers := w.meter.watchers[g := limit])
      case Rereads(g, limit) => v == if limit.Some? then w.meter.(watchers := w.meter.watchers[g := limit]) else w.meter
      case Starts(total) => v == w.meter.(collector := Some(total))
      case Traffic(n) => v == w.meter.(collector := Some(w.meter.collector.value + n))
      case Leaves(g) => v == w.meter.(watchers := w.meter.watchers - {g})
      case Checks(g) => v.collector == w.meter.collector
  {
  }

  /** The socket reports the helper ready as it last said, and a generation begins
      with a helper that is not. */
  lemma ReadinessIsReported(u: Setup, ws: seq<World>, es: seq<Event>, n: nat)
    requires Run(u, ws, es) && n < |es|
    ensures es[n].HelperReports? && ws[n].control.helperReady.Some? ==>
      ws[n + 1].control.helperReady == Some(es[n].ready)
    ensures es[n].Advance? && ws[n].pc.Register? ==>
      ws[n + 1].control.helperReady == if u.identify(ws[n].config).hasHelper then Some(false) else None
  {
    assert Follows(u, ws[n], es[n], ws[n + 1]);
  }
}
