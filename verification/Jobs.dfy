/** The job registry: one running job per kind, a bounded memory of finished
    ones, and every operation callable from any goroutine. */
module Jobs {
  import opened Text

  // ---- values ----

  datatype State = Running | Succeeded | Failed | Cancelled

  datatype Job = Job(
    id: string, kind: string, target: string, state: State, step: string,
    started: int, ended: Option<int>, result: Option<string>, err: string)

  /** What a job's work came back with, and whether its context had been
      cancelled when the goroutine looked. */
  datatype Outcome = Outcome(result: Option<string>, err: Option<string>, cancelled: bool)

  datatype Registry = Registry(
    live: map<string, Job>, byKind: map<string, string>, history: seq<Job>, keep: nat, count: nat)

  // ---- identifiers ----

  function JobId(kind: string, n: nat): string { kind + "-" + Decimal(n) }

  /** The number in an identifier is what follows its last dash, whatever the
      kind itself contains, so identifiers of different jobs differ. */
  lemma JobIdInjective(k1: string, n1: nat, k2: string, n2: nat)
    requires JobId(k1, n1) == JobId(k2, n2)
    ensures n1 == n2 && k1 == k2
  {
    var d1, d2 := Decimal(n1), Decimal(n2);
    var id := JobId(k1, n1);
    assert id[|k1|] == '-' && id[|k2|] == '-';
    assert forall i :: |k1| < i < |id| ==> id[i] == d1[i - |k1| - 1];
    assert forall i :: |k2| < i < |id| ==> id[i] == d2[i - |k2| - 1];
    assert |k1| == |k2|;
    assert d1 == id[|k1| + 1..] && d2 == id[|k2| + 1..];
    assert k1 == id[..|k1|] && k2 == id[..|k2|];
    DecimalReadsBack(n1);
    DecimalReadsBack(n2);
  }

  ghost predicate Issued(id: string, kind: string, count: nat) { exists n: nat :: n <= count && id == JobId(kind, n) }

  lemma IssuedIsOld(id: string, kind: string, newKind: string, count: nat)
    requires Issued(id, kind, count)
    ensures id != JobId(newKind, count + 1)
  {
    var n: nat :| n <= count && id == JobId(kind, n);
    if id == JobId(newKind, count + 1) { JobIdInjective(kind, n, newKind, count + 1); }
  }

  // ---- the registry's operations as functions ----

  function NewJob(r: Registry, kind: string, target: string, now: int): Job
  {
    Job(JobId(kind, r.count + 1), kind, target, Running, "", now, None, None, "")
  }

  function Started(r: Registry, kind: string, target: string, now: int): Registry
  {
    var job := NewJob(r, kind, target, now);
    r.(count := r.count + 1, live := r.live[job.id := job], byKind := r.byKind[kind := job.id])
  }

  function Ended(job: Job, o: Outcome, now: int): Job
  {
    var j := job.(ended := Some(now), result := o.result);
    if o.cancelled then j.(state := Cancelled, err := "")
    else if o.err.Some? then j.(state := Failed, err := o.err.value)
    else j.(state := Succeeded)
  }

  /** The last keep elements. */
  function Recent<T>(s: seq<T>, keep: nat): seq<T> { if |s| > keep then s[|s| - keep..] else s }

  function Finished(r: Registry, id: string, o: Outcome, now: int): Registry
  {
    if id !in r.live then r
    else
      var job := Ended(r.live[id], o, now);
      r.(live := r.live - {id},
         byKind := if job.kind in r.byKind && r.byKind[job.kind] == id then r.byKind - {job.kind} else r.byKind,
         history := Recent(r.history + [job], r.keep))
  }

  function Stepped(r: Registry, id: string, text: string): Registry
  {
    if id in r.live then r.(live := r.live[id := r.live[id].(step := text)]) else r
  }

  /** The most recently finished remembered job of a kind. */
  function LastOfKind(h: seq<Job>, kind: string): Option<Job>
  {
    if h == [] then None
    else if h[|h| - 1].kind == kind then Some(h[|h| - 1])
    else LastOfKind(h[..|h| - 1], kind)
  }

  function LastWithId(h: seq<Job>, id: string): Option<Job>
  {
    if h == [] then None
    else if h[|h| - 1].id == id then Some(h[|h| - 1])
    else LastWithId(h[..|h| - 1], id)
  }

  /** Remembered jobs of a kind, newest first; an empty kind means every kind. */
  function Newest(h: seq<Job>, kind: string): seq<Job>
  {
    if h == [] then []
    else
      var rest := Newest(h[..|h| - 1], kind);
      if kind == "" || h[|h| - 1].kind == kind then [h[|h| - 1]] + rest else rest
  }

  lemma NewestOfNone(kind: string)
    ensures Newest([], kind) == []
  {
  }

  lemma NewestSnoc(h: seq<Job>, i: nat, kind: string)
    requires i < |h|
    ensures Newest(h[..i + 1], kind) == (if kind == "" || h[i].kind == kind then [h[i]] else []) + Newest(h[..i], kind)
  {
    assert h[..i + 1][..i] == h[..i];
  }

  ghost predicate NewestWithId(h: seq<Job>, i: nat, id: string)
  {
    i < |h| && h[i].id == id && forall k :: i < k < |h| ==> h[k].id != id
  }

  ghost predicate NewestOfKind(h: seq<Job>, i: nat, kind: string)
  {
    i < |h| && h[i].kind == kind && forall k :: i < k < |h| ==> h[k].kind != kind
  }

  /** "What is happening, or what just happened", asked in one locked section. */
  function Latest(r: Registry, kind: string): Option<Job>
  {
    if RunningJob(r, kind).Some? then RunningJob(r, kind) else LastOfKind(r.history, kind)
  }

  /** The running job of a kind; OneJobPerKind and Linked say the lookups agree. */
  function RunningJob(r: Registry, kind: string): Option<Job>
  {
    if kind in r.byKind && r.byKind[kind] in r.live then Some(r.live[r.byKind[kind]]) else None
  }

  /** byKind and live are inverse to each other on running jobs. */
  ghost predicate Linked(r: Registry)
  {
    && (forall k :: k in r.byKind ==> r.byKind[k] in r.live && r.live[r.byKind[k]].kind == k)
    && (forall id :: id in r.live ==> LiveOk(r, id))
  }

  ghost predicate LiveOk(r: Registry, id: string)
    requires id in r.live
  {
    var job := r.live[id];
    && job.id == id && job.state == Running && job.ended.None? && job.err == ""
    && job.kind in r.byKind && r.byKind[job.kind] == id
  }

  // ---- the object ----

  class Registrar {
    var live: map<string, Job>
    var byKind: map<string, string>
    var history: seq<Job>
    var keep: nat
    var count: nat
    var cancelled: set<string> // the jobs whose contexts were cancelled here

    ghost function Value(): Registry
      reads this
    {
      Registry(live, byKind, history, keep, count)
    }

    /** The maps agree, and every live identifier was issued by this registry. */
    ghost predicate Valid()
      reads this
    {
      Linked(Value()) && forall id :: id in live ==> Issued(id, live[id].kind, count)
    }

    constructor ()
      ensures Value() == Registry(map[], map[], [], 50, 0) && Valid() && cancelled == {}
    {
      live, byKind, history, keep, count, cancelled := map[], map[], [], 50, 0, {};
    }

    /** A second job of a running kind is refused with the running one. */
    method Start(kind: string, target: string, now: int) returns (job: Job, busy: bool)
      requires Valid()
      modifies `live, `byKind, `count
      ensures Valid() && busy == (kind in old(byKind)) && job.kind == kind && job.state == Running
      ensures busy ==> Value() == old(Value()) && job == live[byKind[kind]]
      ensures !busy ==>
          && job == Job(kind + "-" + Decimal(count), kind, target, Running, "", now, None, None, "")
          && count == old(count) + 1 && live == old(live)[job.id := job] && byKind == old(byKind)[kind := job.id]
      ensures !busy ==>
          Value() == Started(old(Value()), kind, target, now) && job == NewJob(old(Value()), kind, target, now)
    {
      if kind in byKind {
        return live[byKind[kind]], true;
      }
      if JobId(kind, count + 1) in live {
        IssuedIsOld(JobId(kind, count + 1), live[JobId(kind, count + 1)].kind, kind, count);
      }
      StartKeepsLinked(Value(), kind, target, now);
      count := count + 1;
      var id := JobId(kind, count);
      job := Job(id, kind, target, Running, "", now, None, None, "");
      live := live[id := job];
      byKind := byKind[kind := id];
      return job, false;
    }

    /** A running job leaves the maps with how it ended and becomes the newest
        remembered one; the oldest is forgotten when there are too many. */
    method Finish(id: string, o: Outcome, now: int)
      requires Valid()
      modifies this
      ensures keep == old(keep) && count == old(count) && live == old(live) - {id}
      ensures id !in old(live) ==> byKind == old(byKind) && history == old(history)
      ensures id in old(live) ==>
          var was := old(live[id]);
          var state := if o.cancelled then Cancelled else if o.err.None? then Succeeded else Failed;
          var err := if state.Failed? then o.err.value else "";
          var job := Job(id, was.kind, was.target, state, was.step, was.started, Some(now), o.result, err);
          var all := old(history) + [job];
          && byKind == old(byKind) - {was.kind}
          && history == if |all| <= keep then all else all[|all| - keep..]
      ensures Value() == Finished(old(Value()), id, o, now) && Valid()
      ensures cancelled == if id in old(live) then old(cancelled) + {id} else old(cancelled)
    {
      hide Linked, LiveOk, Issued, Finished, Recent, Ended;
      if id !in live {
        FinishedNothing(Value(), id, o, now);
        return;
      }
      FinishKeepsLinked(Value(), id, o, now);
      LiveIsPlain(Value(), id);
      FinishedMeans(Value(), id, o, now);
      var job := live[id].(ended := Some(now), result := o.result);
      if o.cancelled {
        job := job.(state := Cancelled, err := "");
      } else if o.err.Some? {
        job := job.(state := Failed, err := o.err.value);
      } else {
        job := job.(state := Succeeded);
      }
      cancelled := cancelled + {id};
      history := history + [job];
      if |history| > keep {
        history := history[|history| - keep..];
      }
      live := live - {id};
      if job.kind in byKind && byKind[job.kind] == id {
        byKind := byKind - {job.kind};
      }
    }

    method SetStep(id: string, text: string)
      requires Valid()
      modifies `live
      ensures live == if id in old(live) then old(live)[id := old(live[id]).(step := text)] else old(live)
      ensures Value() == Stepped(old(Value()), id, text) && Valid()
    {
      if id in live {
        live := live[id := live[id].(step := text)];
      }
      assert forall i :: i in live ==> LiveOk(old(Value()), i) && live[i].kind == old(live)[i].kind;
    }

    /** Running first, then the newest remembered one. */
    method Get(id: string) returns (job: Option<Job>)
      requires Valid()
      ensures job == if id in live then Some(live[id]) else LastWithId(history, id)
      ensures job.None? <==> id !in live && forall k :: 0 <= k < |history| ==> history[k].id != id
      ensures id !in live && job.Some? ==> exists i: nat :: NewestWithId(history, i, id) && history[i] == job.value
    {
      if id in live {
        return Some(live[id]);
      }
      var i := |history|;
      assert history[..i] == history;
      while i > 0
        invariant 0 <= i <= |history|
        invariant LastWithId(history[..i], id) == LastWithId(history, id)
        invariant forall k :: i <= k < |history| ==> history[k].id != id
      {
        i := i - 1;
        assert history[..i + 1][..i] == history[..i];
        if history[i].id == id {
          assert NewestWithId(history, i, id);
          return Some(history[i]);
        }
      }
      return None;
    }

    method Current(kind: string) returns (job: Option<Job>)
      requires Valid()
      ensures job == if kind in byKind then Some(live[byKind[kind]]) else None
      ensures job.Some? ==> job.value.kind == kind && job.value.state == Running
    {
      if kind !in byKind {
        return None;
      }
      return Some(live[byKind[kind]]);
    }

    /** The second locked section of Latest. */
    method LatestFinished(kind: string) returns (job: Option<Job>)
      ensures job == LastOfKind(history, kind)
      ensures job.None? <==> forall k :: 0 <= k < |history| ==> history[k].kind != kind
      ensures job.Some? ==> exists i: nat :: NewestOfKind(history, i, kind) && history[i] == job.value
    {
      var i := |history|;
      assert history[..i] == history;
      while i > 0
        invariant 0 <= i <= |history|
        invariant LastOfKind(history[..i], kind) == LastOfKind(history, kind)
        invariant forall k :: i <= k < |history| ==> history[k].kind != kind
      {
        i := i - 1;
        assert history[..i + 1][..i] == history[..i];
        if history[i].kind == kind {
          assert NewestOfKind(history, i, kind);
          return Some(history[i]);
        }
      }
      return None;
    }

    /** Both sections of Latest with nothing in between. */
    method LatestOf(kind: string) returns (job: Option<Job>)
      requires Valid()
      ensures job == Latest(Value(), kind)
      ensures kind in byKind ==> job == Some(live[byKind[kind]])
      ensures kind !in byKind ==> job == LastOfKind(history, kind)
    {
      job := Current(kind);
      if job.None? {
        job := LatestFinished(kind);
      }
    }

    /** Stops a running job; losing the race with its end is not an error. */
    method Cancel(id: string) returns (found: bool)
      modifies `cancelled
      ensures found == (id in live)
      ensures cancelled == if found then old(cancelled) + {id} else old(cancelled)
    {
      if id !in live {
        return false;
      }
      cancelled := cancelled + {id};
      return true;
    }

    /** Newest first, at most limit of them when limit is positive. */
    method History(kind: string, limit: int) returns (out: seq<Job>)
      ensures limit <= 0 ==> out == Newest(history, kind)
      ensures limit > 0 ==> out <= Newest(history, kind) && |out| <= limit
      ensures limit > 0 && |out| < limit ==> out == Newest(history, kind)
    {
      hide Newest;
      out := [];
      var i := |history|;
      assert history[..i] == history;
      NewestOfNone(kind);
      while i > 0
        invariant 0 <= i <= |history|
        invariant out + Newest(history[..i], kind) == Newest(history, kind)
        invariant limit > 0 ==> |out| < limit
      {
        i := i - 1;
        NewestSnoc(history, i, kind);
        if kind != "" && history[i].kind != kind {
          continue;
        }
        out := out + [history[i]];
        if limit > 0 && |out| >= limit {
          return;
        }
      }
    }
  }

  lemma StartKeepsLinked(r: Registry, kind: string, target: string, now: int)
    requires Linked(r) && kind !in r.byKind && JobId(kind, r.count + 1) !in r.live
    ensures Linked(Started(r, kind, target, now))
  {
    var r' := Started(r, kind, target, now);
    forall id | id in r'.live ensures LiveOk(r', id) {
      if id in r.live { assert LiveOk(r, id); }
    }
  }

  lemma FinishedMeans(r: Registry, id: string, o: Outcome, now: int)
    requires id in r.live && r.live[id].id == id && r.live[id].err == ""
    requires r.live[id].kind in r.byKind && r.byKind[r.live[id].kind] == id
    ensures var was := r.live[id];
      var state := if o.cancelled then Cancelled else if o.err.None? then Succeeded else Failed;
      var err := if state.Failed? then o.err.value else "";
      var all := r.history + [Job(id, was.kind, was.target, state, was.step, was.started, Some(now), o.result, err)];
      Finished(r, id, o, now)
        == Registry(r.live - {id}, r.byKind - {was.kind}, if |all| <= r.keep then all else all[|all| - r.keep..],
                    r.keep, r.count)
  {
  }

  lemma FinishedNothing(r: Registry, id: string, o: Outcome, now: int)
    requires id !in r.live
    ensures Finished(r, id, o, now) == r
  {
  }

  lemma LiveIsPlain(r: Registry, id: string)
    requires Linked(r) && id in r.live
    ensures var job := r.live[id];
            job.id == id && job.err == "" && job.kind in r.byKind && r.byKind[job.kind] == id
  {
    assert LiveOk(r, id);
  }

  lemma FinishKeepsLinked(r: Registry, id: string, o: Outcome, now: int)
    requires Linked(r)
    ensures Linked(Finished(r, id, o, now))
    ensures id in r.live ==> r.live[id].kind !in Finished(r, id, o, now).byKind
  {
    var r' := Finished(r, id, o, now);
    if id in r.live {
      assert LiveOk(r, id);
      forall i | i in r'.live ensures LiveOk(r', i) { assert LiveOk(r, i); }
    }
  }

  // ---- every interleaving of jobs, cancellations and callers ----

  datatype System = System(
    reg: Registry,
    cancelled: set<string>,          // contexts that have been cancelled
    working: set<string>,            // goroutines still in their work
    returned: map<string, Outcome>,  // work done, finish not yet called
    begun: seq<Job>,                 // every job ever started, in order
    ended: seq<Job>)                 // every job ever finished, in order

  datatype Event =
    | StartJob(kind: string, target: string, now: int)
    | CancelContext(id: string)      // Cancel, or the parent context ending
    | Return(id: string, result: Option<string>, err: Option<string>)
    | FinishJob(id: string, now: int)
    | Report(id: string, text: string)

  predicate Enabled(s: System, e: Event)
  {
    match e
    case Return(id, _, _) => id in s.working
    case FinishJob(id, _) => id in s.returned
    case _ => true
  }

  function Step(s: System, e: Event): System
    requires Enabled(s, e)
  {
    match e
    case StartJob(kind, target, now) =>
      if kind in s.reg.byKind then s
      else
        var job := NewJob(s.reg, kind, target, now);
        s.(reg := Started(s.reg, kind, target, now), working := s.working + {job.id}, begun := s.begun + [job])
    case CancelContext(id) => s.(cancelled := s.cancelled + {id})
    case Return(id, result, err) =>
      s.(working := s.working - {id}, returned := s.returned[id := Outcome(result, err, id in s.cancelled)])
    case FinishJob(id, now) => FinishStep(s, id, now)
    case Report(id, text) => s.(reg := Stepped(s.reg, id, text))
  }

  function FinishStep(s: System, id: string, now: int): System
    requires id in s.returned
  {
    s.(reg := Finished(s.reg, id, s.returned[id], now),
       returned := s.returned - {id},
       cancelled := s.cancelled + {id},
       ended := if id in s.reg.live then s.ended + [Ended(s.reg.live[id], s.returned[id], now)] else s.ended)
  }

  function Initial(keep: nat): System
  {
    System(Registry(map[], map[], [], keep, 0), {}, {}, map[], [], [])
  }

  ghost predicate Run(ss: seq<System>, es: seq<Event>)
  {
    && |ss| == |es| + 1 && ss[0] == Initial(ss[0].reg.keep) && ss[0].reg.keep >= 1
    && forall n {:trigger es[n]} :: 0 <= n < |es| ==> Follows(ss[n], es[n], ss[n + 1])
  }

  ghost predicate Follows(s: System, e: Event, s': System) { Enabled(s, e) && s' == Step(s, e) }

  // ---- the invariant ----

  function Ids(jobs: seq<Job>): set<string> { set n | 0 <= n < |jobs| :: jobs[n].id }

  ghost predicate Distinct(jobs: seq<Job>)
  {
    forall m, n :: 0 <= m < n < |jobs| ==> jobs[m].id != jobs[n].id
  }

  ghost predicate Numbered(begun: seq<Job>)
  {
    forall n :: 0 <= n < |begun| ==> begun[n].id == JobId(begun[n].kind, n + 1)
  }

  /** How a finished job reads. */
  ghost predicate ReadsFinished(job: Job)
  {
    && job.state != Running && job.ended.Some?
    && (job.err != "" ==> job.state == Failed)
  }

  ghost predicate Inv(s: System)
  {
    && Linked(s.reg) && s.reg.keep >= 1
    && s.reg.count == |s.begun| && Numbered(s.begun)
    && Ids(s.begun) == s.reg.live.Keys + Ids(s.ended)
    && s.reg.live.Keys !! Ids(s.ended) && Distinct(s.ended)
    && s.working + s.returned.Keys == s.reg.live.Keys && s.working !! s.returned.Keys
    && s.reg.history == Recent(s.ended, s.reg.keep)
    && forall n :: 0 <= n < |s.ended| ==> ReadsFinished(s.ended[n])
  }

  lemma FreshId(begun: seq<Job>, kind: string)
    requires Numbered(begun)
    ensures JobId(kind, |begun| + 1) !in Ids(begun)
  {
    forall n | 0 <= n < |begun| ensures begun[n].id != JobId(kind, |begun| + 1) {
      if begun[n].id == JobId(kind, |begun| + 1) {
        JobIdInjective(begun[n].kind, n + 1, kind, |begun| + 1);
      }
    }
  }

  lemma IdsAppend(jobs: seq<Job>, job: Job)
    ensures Ids(jobs + [job]) == Ids(jobs) + {job.id}
  {
    var all := jobs + [job];
    assert all[|jobs|] == job;
    forall id | id in Ids(jobs) ensures id in Ids(all) {
      var n :| 0 <= n < |jobs| && jobs[n].id == id;
      assert all[n].id == id;
    }
  }

  lemma RecentAppend<T>(s: seq<T>, keep: nat, x: T)
    requires keep >= 1
    ensures Recent(Recent(s, keep) + [x], keep) == Recent(s + [x], keep)
  {
  }

  lemma StartKeepsInv(s: System, kind: string, target: string, now: int)
    requires Inv(s) && kind !in s.reg.byKind
    ensures Inv(Step(s, StartJob(kind, target, now)))
  {
    hide Linked, LiveOk, Recent, ReadsFinished, Distinct, JobId, Ids, Numbered;
    var job := NewJob(s.reg, kind, target, now);
    FreshId(s.begun, kind);
    StartKeepsLinked(s.reg, kind, target, now);
    IdsAppend(s.begun, job);
    NumberedAppend(s.begun, job);
  }

  lemma NumberedAppend(begun: seq<Job>, job: Job)
    requires Numbered(begun) && job.id == JobId(job.kind, |begun| + 1)
    ensures Numbered(begun + [job])
  {
    hide JobId;
  }

  lemma DistinctAppend(jobs: seq<Job>, job: Job)
    requires Distinct(jobs) && job.id !in Ids(jobs)
    ensures Distinct(jobs + [job])
  {
    var all := jobs + [job];
    forall m, n | 0 <= m < n < |all| ensures all[m].id != all[n].id {
      assert all[m].id in Ids(jobs);
    }
  }

  lemma FinishKeepsInv(s: System, id: string, now: int)
    requires Inv(s) && id in s.returned
    ensures Inv(FinishStep(s, id, now))
  {
    hide Linked, LiveOk, JobId, Ids, Distinct, Recent, ReadsFinished, Ended;
    assert id in s.reg.live.Keys;
    FinishKeepsLinked(s.reg, id, s.returned[id], now);
    FinishKeepsSets(s, id, now);
    FinishKeepsEnded(s, id, now);
  }

  /** ...and its job becomes the last of the finished ones. */
  lemma FinishKeepsEnded(s: System, id: string, now: int)
    requires Inv(s) && id in s.returned
    ensures var s' := FinishStep(s, id, now);
            && Ids(s'.ended) == Ids(s.ended) + {id} && Distinct(s'.ended)
            && s'.reg.history == Recent(s'.ended, s.reg.keep)
            && forall n :: 0 <= n < |s'.ended| ==> ReadsFinished(s'.ended[n])
  {
    hide JobId, Numbered, Recent, Ids, Distinct;
    assert id in s.reg.live.Keys;
    assert LiveOk(s.reg, id);
    var job := Ended(s.reg.live[id], s.returned[id], now);
    IdsAppend(s.ended, job);
    DistinctAppend(s.ended, job);
    RecentAppend(s.ended, s.reg.keep, job);
    var s' := FinishStep(s, id, now);
    assert s'.ended == s.ended + [job];
    forall n | 0 <= n < |s'.ended| ensures ReadsFinished(s'.ended[n]) {
      if n < |s.ended| { assert s'.ended[n] == s.ended[n]; }
    }
  }

  /** Finishing moves exactly one identifier out of the live set. */
  lemma FinishKeepsSets(s: System, id: string, now: int)
    requires s.working + s.returned.Keys == s.reg.live.Keys && s.working !! s.returned.Keys && id in s.returned
    ensures var s' := FinishStep(s, id, now);
            && s'.reg.live.Keys == s.reg.live.Keys - {id}
            && s'.working + s'.returned.Keys == s'.reg.live.Keys && s'.working !! s'.returned.Keys
  {
    assert id in s.reg.live.Keys;
    var s' := FinishStep(s, id, now);
    assert s'.returned.Keys == s.returned.Keys - {id};
  }

  lemma ReportKeepsInv(s: System, id: string, text: string)
    requires Inv(s)
    ensures Inv(s.(reg := Stepped(s.reg, id, text)))
  {
    var r' := Stepped(s.reg, id, text);
    assert r'.live.Keys == s.reg.live.Keys;
    forall i | i in r'.live ensures LiveOk(r', i) { assert LiveOk(s.reg, i); }
  }

  lemma StepKeepsInv(s: System, e: Event)
    requires Inv(s) && Enabled(s, e)
    ensures Inv(Step(s, e))
  {
    match e
    case StartJob(kind, target, now) => if kind !in s.reg.byKind { StartKeepsInv(s, kind, target, now); }
    case FinishJob(id, now) => FinishKeepsInv(s, id, now);
    case Report(id, text) => ReportKeepsInv(s, id, text);
    case _ =>
  }

  lemma {:induction false} RunKeepsInv(ss: seq<System>, es: seq<Event>, n: nat)
    requires Run(ss, es) && n < |ss|
    ensures Inv(ss[n]) && ss[n].reg.keep == ss[0].reg.keep
    decreases n
  {
    if n > 0 {
      RunKeepsInv(ss, es, n - 1);
      assert Follows(ss[n - 1], es[n - 1], ss[n]);
      StepKeepsInv(ss[n - 1], es[n - 1]);
    }
  }

  // ---- theorems about whole runs ----

  /** At any moment at most one job of a kind runs, and the kind's entry finds it. */
  lemma OneJobPerKind(ss: seq<System>, es: seq<Event>, n: nat, a: string, b: string)
    requires Run(ss, es) && n < |ss| && a in ss[n].reg.live && b in ss[n].reg.live
    requires ss[n].reg.live[a].kind == ss[n].reg.live[b].kind
    ensures a == b
  {
    RunKeepsInv(ss, es, n);
    assert LiveOk(ss[n].reg, a) && LiveOk(ss[n].reg, b);
  }

  /** Every job ever started is either running or finished, never both; it
      finished at most once; its identifier was used for it alone. */
  lemma EveryJobAccountedFor(ss: seq<System>, es: seq<Event>, n: nat, i: nat)
    requires Run(ss, es) && n < |ss| && i < |ss[n].begun|
    ensures var s := ss[n]; var id := s.begun[i].id;
            && (id in s.reg.live) != (exists f :: 0 <= f < |s.ended| && s.ended[f].id == id)
            && (forall f, g :: 0 <= f < g < |s.ended| ==> s.ended[f].id != s.ended[g].id)
            && (forall m :: 0 <= m < |s.begun| && m != i ==> s.begun[m].id != id)
  {
    RunKeepsInv(ss, es, n);
    var s := ss[n];
    var id := s.begun[i].id;
    assert id in Ids(s.begun);
    assert id in Ids(s.ended) <==> exists f :: 0 <= f < |s.ended| && s.ended[f].id == id;
    forall m | 0 <= m < |s.begun| && m != i ensures s.begun[m].id != id {
      if s.begun[m].id == id { JobIdInjective(s.begun[m].kind, m + 1, s.begun[i].kind, i + 1); }
    }
  }

  /** What the registry remembers is exactly the end of the finish sequence, and
      a job that is not a failure carries no error text. */
  lemma HistoryIsTheRecentPast(ss: seq<System>, es: seq<Event>, n: nat)
    requires Run(ss, es) && n < |ss|
    ensures ss[n].reg.history == Recent(ss[n].ended, ss[0].reg.keep)
    ensures forall f :: 0 <= f < |ss[n].ended| ==>
              ss[n].ended[f].state != Running && (ss[n].ended[f].err != "" ==> ss[n].ended[f].state == Failed)
  {
    RunKeepsInv(ss, es, n);
    forall f | 0 <= f < |ss[n].ended|
      ensures ss[n].ended[f].state != Running && (ss[n].ended[f].err != "" ==> ss[n].ended[f].state == Failed)
    {
      assert ReadsFinished(ss[n].ended[f]);
    }
  }

  /** A job ends as its work came back: cancelled exactly when its context had been
      cancelled by then, and not by the time it is recorded; else failed with the
      error's text, or succeeded, and in every case with the work's result. */
  lemma CancelledAsSeenOnReturn(ss: seq<System>, es: seq<Event>, a: nat, b: nat, id: string)
    requires Run(ss, es) && a < b < |es| && es[a].Return? && es[a].id == id && es[b].FinishJob? && es[b].id == id
    requires forall m :: a < m < b ==> !(es[m].FinishJob? && es[m].id == id)
    ensures |ss[b + 1].ended| > 0
    ensures var job := ss[b + 1].ended[|ss[b + 1].ended| - 1];
            && job.id == id && job.result == es[a].result && job.ended == Some(es[b].now)
            && (job.state == Cancelled <==> id in ss[a].cancelled)
            && (job.state == Failed <==> id !in ss[a].cancelled && es[a].err.Some?)
            && (job.state == Succeeded <==> id !in ss[a].cancelled && es[a].err.None?)
            && job.err == if job.state == Failed then es[a].err.value else ""
  {
    assert Follows(ss[a], es[a], ss[a + 1]);
    OutcomeKept(ss, es, a + 1, b, id);
    RunKeepsInv(ss, es, b);
    assert Follows(ss[b], es[b], ss[b + 1]);
    assert id in ss[b].reg.live.Keys;
    assert LiveOk(ss[b].reg, id);
  }

  /** A started job keeps what it was started with while it runs. */
  lemma {:induction false} LiveAsStarted(ss: seq<System>, es: seq<Event>, s: nat, n: nat, id: string)
    requires Run(ss, es) && s < n < |ss| && es[s].StartJob? && es[s].kind !in ss[s].reg.byKind
    requires id == es[s].kind + "-" + Decimal(|ss[s].begun| + 1)
    ensures id in Ids(ss[n].begun)
    ensures id in ss[n].reg.live ==>
      var job := ss[n].reg.live[id];
      job.kind == es[s].kind && job.target == es[s].target && job.started == es[s].now
    decreases n
  {
    hide Inv, Distinct, Linked;
    assert Follows(ss[n - 1], es[n - 1], ss[n]);
    RunKeepsCount(ss, es, n - 1);
    if s + 1 == n {
      JobStarts(ss[s], es[s], id);
    } else {
      LiveAsStarted(ss, es, s, n - 1, id);
      StartedStays(ss[n - 1], es[n - 1], id);
    }
  }

  lemma RunKeepsCount(ss: seq<System>, es: seq<Event>, n: nat)
    requires Run(ss, es) && n < |ss|
    ensures ss[n].reg.count == |ss[n].begun| && Numbered(ss[n].begun)
  {
    RunKeepsInv(ss, es, n);
  }

  /** A start of an idle kind is what a later look finds running under its number. */
  lemma JobStarts(s: System, e: Event, id: string)
    requires e.StartJob? && e.kind !in s.reg.byKind && s.reg.count == |s.begun|
    requires id == e.kind + "-" + Decimal(|s.begun| + 1)
    ensures var s' := Step(s, e); id in s'.reg.live && id in Ids(s'.begun)
    ensures Step(s, e).reg.live[id] == Job(id, e.kind, e.target, Running, "", e.now, None, None, "")
  {
    IdsAppend(s.begun, NewJob(s.reg, e.kind, e.target, e.now));
  }

  lemma StartedStays(s: System, e: Event, id: string)
    requires Enabled(s, e) && id in Ids(s.begun) && s.reg.count == |s.begun| && Numbered(s.begun)
    ensures var s' := Step(s, e);
      && id in Ids(s'.begun)
      && (id in s'.reg.live ==>
          && id in s.reg.live && s'.reg.live[id].kind == s.reg.live[id].kind
          && s'.reg.live[id].target == s.reg.live[id].target && s'.reg.live[id].started == s.reg.live[id].started)
  {
    hide Numbered, Ids, JobId, Recent, Ended;
    if e.StartJob? {
      FreshId(s.begun, e.kind);
      IdsAppend(s.begun, NewJob(s.reg, e.kind, e.target, e.now));
    }
  }

  /** And it is recorded with it: kind, target and time of the start. */
  lemma RecordedAsStarted(ss: seq<System>, es: seq<Event>, s: nat, b: nat, id: string)
    requires Run(ss, es) && s < b < |es| && es[s].StartJob? && es[s].kind !in ss[s].reg.byKind
    requires id == es[s].kind + "-" + Decimal(|ss[s].begun| + 1)
    requires es[b].FinishJob? && es[b].id == id
    ensures |ss[b + 1].ended| > 0
    ensures var job := ss[b + 1].ended[|ss[b + 1].ended| - 1];
            job.id == id && job.kind == es[s].kind && job.target == es[s].target && job.started == es[s].now
  {
    hide Inv, Finished, Ids, Recent;
    LiveAsStarted(ss, es, s, b, id);
    assert Follows(ss[b], es[b], ss[b + 1]);
    FinishesLive(ss, es, b, id);
  }

  lemma FinishesLive(ss: seq<System>, es: seq<Event>, b: nat, id: string)
    requires Run(ss, es) && b < |es| && es[b].FinishJob? && es[b].id == id
    ensures id in ss[b].reg.live && id in ss[b].returned && ss[b].reg.live[id].id == id
  {
    RunKeepsInv(ss, es, b);
    assert Follows(ss[b], es[b], ss[b + 1]);
    assert id in ss[b].reg.live.Keys;
    assert LiveOk(ss[b].reg, id);
  }

  /** A job's context is cancelled by whoever asks for it, and by its end. */
  lemma {:induction false} CancelledIff(ss: seq<System>, es: seq<Event>, n: nat, id: string)
    requires Run(ss, es) && n < |ss|
    ensures id in ss[n].cancelled <==>
      exists m :: 0 <= m < n && (es[m] == CancelContext(id) || (es[m].FinishJob? && es[m].id == id))
    decreases n
  {
    if n > 0 {
      CancelledIff(ss, es, n - 1, id);
      assert Follows(ss[n - 1], es[n - 1], ss[n]);
      hide Started, Finished, Stepped;
    }
  }

  lemma {:induction false} OutcomeKept(ss: seq<System>, es: seq<Event>, a: nat, b: nat, id: string)
    requires Run(ss, es) && a <= b < |ss| && id in ss[a].returned
    requires forall m :: a <= m < b ==> !(es[m].FinishJob? && es[m].id == id)
    ensures id in ss[b].returned && ss[b].returned[id] == ss[a].returned[id]
    decreases b - a
  {
    hide Inv;
    if a < b {
      OutcomeKept(ss, es, a, b - 1, id);
      RunKeepsInv(ss, es, b - 1);
      assert Follows(ss[b - 1], es[b - 1], ss[b]);
      OutcomeStep(ss[b - 1], es[b - 1], id);
    }
  }

  lemma OutcomeStep(s: System, e: Event, id: string)
    requires Enabled(s, e) && Inv(s) && id in s.returned && !(e.FinishJob? && e.id == id)
    ensures id in Step(s, e).returned && Step(s, e).returned[id] == s.returned[id]
  {
    hide Linked, Numbered, Distinct, Ids, Recent, Started, Finished, Stepped;
  }

  // ---- Latest, which takes the lock twice ----

  lemma {:induction false} LastOfKindSuffix(h: seq<Job>, i: nat, kind: string)
    requires i <= |h|
    ensures LastOfKind(h[i..], kind).Some? ==> LastOfKind(h, kind) == LastOfKind(h[i..], kind)
  {
    if i < |h| {
      assert h[i..][|h| - i - 1] == h[|h| - 1];
      assert h[i..][..|h| - i - 1] == h[..|h| - 1][i..];
      LastOfKindSuffix(h[..|h| - 1], i, kind);
    }
  }

  /** Finishing a job of another kind can only forget, never replace. */
  lemma OtherFinishOnlyForgets(h: seq<Job>, keep: nat, job: Job, kind: string)
    requires keep >= 1
    ensures job.kind == kind ==> LastOfKind(Recent(h + [job], keep), kind) == Some(job)
    ensures job.kind != kind && LastOfKind(Recent(h + [job], keep), kind).Some?
            ==> LastOfKind(h, kind) == LastOfKind(Recent(h + [job], keep), kind)
  {
    var all := h + [job];
    assert all[..|h|] == h;
    if |all| > keep { LastOfKindSuffix(all, |all| - keep, kind); }
  }

  /** What Latest answers when its two locked sections see the registry in these
      two states. */
  function LatestAnswer(first: Registry, second: Registry, kind: string): Option<Job>
  {
    if RunningJob(first, kind).Some? then RunningJob(first, kind) else LastOfKind(second.history, kind)
  }

  /** One step either leaves the newest remembered job of the kind in place or
      makes the atomic answer the one that is newest now. */
  ghost predicate NewestMoves(r: Registry, r': Registry, kind: string)
  {
    LastOfKind(r'.history, kind).Some? ==>
      LastOfKind(r.history, kind) == LastOfKind(r'.history, kind) || Latest(r', kind) == LastOfKind(r'.history, kind)
  }

  lemma FinishMovesNewest(r: Registry, id: string, o: Outcome, now: int, kind: string)
    requires Linked(r) && r.keep >= 1
    ensures NewestMoves(r, Finished(r, id, o, now), kind)
  {
    if id in r.live {
      OtherFinishOnlyForgets(r.history, r.keep, Ended(r.live[id], o, now), kind);
      FinishKeepsLinked(r, id, o, now);
    }
  }

  lemma RunMovesNewest(ss: seq<System>, es: seq<Event>, n: nat, kind: string)
    requires Run(ss, es) && n < |es|
    ensures NewestMoves(ss[n].reg, ss[n + 1].reg, kind)
  {
    RunKeepsInv(ss, es, n);
    assert Follows(ss[n], es[n], ss[n + 1]);
    if es[n].FinishJob? {
      FinishMovesNewest(ss[n].reg, es[n].id, ss[n].returned[es[n].id], es[n].now, kind);
    }
  }

  /** When Latest returns a job, there was one moment between its two sections
      at which asking in a single section would have given that very job. */
  lemma {:induction false} LatestLinearizable(ss: seq<System>, es: seq<Event>, a: nat, b: nat, kind: string)
    returns (m: nat)
    requires Run(ss, es) && a <= b < |ss| && LatestAnswer(ss[a].reg, ss[b].reg, kind).Some?
    ensures a <= m <= b && Latest(ss[m].reg, kind) == LatestAnswer(ss[a].reg, ss[b].reg, kind)
    decreases b - a
  {
    if RunningJob(ss[a].reg, kind).Some? || a == b {
      return a;
    }
    RunMovesNewest(ss, es, b - 1, kind);
    if Latest(ss[b].reg, kind) == LastOfKind(ss[b].reg.history, kind) {
      return b;
    }
    m := LatestLinearizable(ss, es, a, b - 1, kind);
  }

  /** A start of the kind between the sections, at a moment when the kind was
      neither running nor remembered. */
  ghost predicate StartsFromNothing(ss: seq<System>, es: seq<Event>, a: nat, b: nat, kind: string)
    requires a <= b < |ss| == |es| + 1
  {
    exists n :: a <= n < b && es[n].StartJob? && es[n].kind == kind && Latest(ss[n].reg, kind).None?
  }

  /** At some moment between the sections "nothing" was the answer. */
  ghost predicate NothingSometime(ss: seq<System>, a: nat, b: nat, kind: string)
    requires a <= b < |ss|
  {
    exists m :: a <= m <= b && Latest(ss[m].reg, kind).None?
  }

  lemma RunKeepsLinked(ss: seq<System>, es: seq<Event>, n: nat)
    requires Run(ss, es) && n < |ss|
    ensures Linked(ss[n].reg) && ss[n].reg.keep >= 1
  {
    RunKeepsInv(ss, es, n);
  }

  /** From an idle, forgotten kind either a start of the kind comes first, or the
      kind is idle and forgotten still. */
  lemma {:induction false} NothingUntilStart(ss: seq<System>, es: seq<Event>, m: nat, b: nat, kind: string)
    requires Run(ss, es) && m <= b < |ss| && Latest(ss[m].reg, kind).None?
    ensures StartsFromNothing(ss, es, m, b, kind) || Latest(ss[b].reg, kind).None?
    decreases b - m
  {
    hide Inv, Step, Latest, Linked, Enabled;
    if m < b {
      NothingUntilStart(ss, es, m, b - 1, kind);
      if StartsFromNothing(ss, es, m, b - 1, kind) {
        var n :| m <= n < b - 1 && es[n].StartJob? && es[n].kind == kind && Latest(ss[n].reg, kind).None?;
        assert m <= n < b;
      } else {
        RunKeepsLinked(ss, es, b - 1);
        assert Follows(ss[b - 1], es[b - 1], ss[b]);
        NothingOneStep(ss[b - 1], es[b - 1], kind);
      }
    }
  }

  lemma NothingOneStep(s: System, e: Event, kind: string)
    requires Linked(s.reg) && s.reg.keep >= 1 && Enabled(s, e) && Latest(s.reg, kind).None?
    ensures (e.StartJob? && e.kind == kind) || Latest(Step(s, e).reg, kind).None?
  {
    assert kind !in s.reg.byKind;
    if e.FinishJob? && e.id in s.reg.live {
      assert LiveOk(s.reg, e.id);
      OtherFinishOnlyForgets(s.reg.history, s.reg.keep, Ended(s.reg.live[e.id], s.returned[e.id], e.now), kind);
    }
  }

  /** When Latest returns nothing, nothing was the right answer at some moment
      between its sections if and only if the kind is idle at the second one, or a
      job of the kind was started in between from nothing. */
  lemma LatestNothingIff(ss: seq<System>, es: seq<Event>, a: nat, b: nat, kind: string)
    requires Run(ss, es) && a <= b < |ss| && LatestAnswer(ss[a].reg, ss[b].reg, kind).None?
    ensures NothingSometime(ss, a, b, kind) <==> kind !in ss[b].reg.byKind || StartsFromNothing(ss, es, a, b, kind)
  {
    if NothingSometime(ss, a, b, kind) {
      var m :| a <= m <= b && Latest(ss[m].reg, kind).None?;
      NothingUntilStart(ss, es, m, b, kind);
      if StartsFromNothing(ss, es, m, b, kind) {
        var n :| m <= n < b && es[n].StartJob? && es[n].kind == kind && Latest(ss[n].reg, kind).None?;
        assert a <= n < b;
      } else {
        RunKeepsInv(ss, es, b);
      }
    }
    if kind !in ss[b].reg.byKind { assert Latest(ss[b].reg, kind).None?; }
    if StartsFromNothing(ss, es, a, b, kind) {
      var n :| a <= n < b && es[n].StartJob? && es[n].kind == kind && Latest(ss[n].reg, kind).None?;
      assert a <= n <= b;
    }
  }

  // ---- the answer "nothing" is not linearizable ----

  lemma ExtendRun(ss: seq<System>, es: seq<Event>, e: Event, s: System)
    requires Run(ss, es) && Follows(ss[|es|], e, s)
    ensures Run(ss + [s], es + [e])
  {
    var ss', es' := ss + [s], es + [e];
    forall n | 0 <= n < |es'| ensures Follows(ss'[n], es'[n], ss'[n + 1]) {
      if n < |es| { assert Follows(ss[n], es[n], ss[n + 1]); }
    }
  }

  lemma ExtendRunThrice(ss: seq<System>, es: seq<Event>, e1: Event, s1: System, e2: Event, s2: System, e3: Event,
                        s3: System)
    requires Run(ss, es) && Follows(ss[|es|], e1, s1) && Follows(s1, e2, s2) && Follows(s2, e3, s3)
    ensures Run(ss + [s1, s2, s3], es + [e1, e2, e3])
  {
    ExtendRun(ss, es, e1, s1);
    ExtendRun(ss + [s1], es + [e1], e2, s2);
    ExtendRun(ss + [s1] + [s2], es + [e1] + [e2], e3, s3);
    assert ss + [s1] + [s2] + [s3] == ss + [s1, s2, s3] && es + [e1] + [e2] + [e3] == es + [e1, e2, e3];
  }

  /** One short job of a kind: started, returned, finished. */
  function OneJob(s: System, kind: string): (Event, Event, Event)
  {
    var id := JobId(kind, s.reg.count + 1);
    (StartJob(kind, "", 0), Return(id, None, None), FinishJob(id, 0))
  }

  lemma OneJobSteps(s: System, kind: string) returns (s1: System, s2: System, s3: System, job: Job)
    requires Inv(s) && kind !in s.reg.byKind
    ensures var (e1, e2, e3) := OneJob(s, kind); Follows(s, e1, s1) && Follows(s1, e2, s2) && Follows(s2, e3, s3)
    ensures s3.reg.byKind == s.reg.byKind && job.kind == kind
    ensures s3.reg.history == Recent(s.reg.history + [job], s.reg.keep)
    ensures s2.reg.byKind == s1.reg.byKind == s.reg.byKind[kind := JobId(kind, s.reg.count + 1)]
  {
    var (e1, e2, e3) := OneJob(s, kind);
    s1 := Step(s, e1);
    s2 := Step(s1, e2);
    s3 := Step(s2, e3);
    job := Ended(s1.reg.live[e2.id], s2.returned[e2.id], 0);
    assert s3.reg.byKind == s.reg.byKind;
  }

  ghost predicate BusyFrom(ss: seq<System>, a: nat, kind: string)
  {
    forall m :: a <= m < |ss| ==> kind in ss[m].reg.byKind
  }

  lemma BusyExtends(ss: seq<System>, a: nat, kind: string, s1: System, s2: System, s3: System)
    requires BusyFrom(ss, a, kind)
    requires kind in s1.reg.byKind && kind in s2.reg.byKind && kind in s3.reg.byKind
    ensures BusyFrom(ss + [s1, s2, s3], a, kind)
  {
  }

  /** Runs one job of an idle kind; a busy kind stays busy throughout. */
  lemma RunOneJob(ss: seq<System>, es: seq<Event>, a: nat, kind: string, busy: string)
    returns (ss': seq<System>, es': seq<Event>, job: Job)
    requires Run(ss, es) && kind !in ss[|es|].reg.byKind && a < |ss|
    ensures Run(ss', es') && ss <= ss' && |ss'| == |ss| + 3 && job.kind == kind
    ensures ss'[|es'|].reg.byKind == ss[|es|].reg.byKind
    ensures ss'[|es'|].reg.history == Recent(ss[|es|].reg.history + [job], ss[|es|].reg.keep)
    ensures BusyFrom(ss, a, busy) ==> BusyFrom(ss', a, busy)
  {
    var s := ss[|es|];
    assert Inv(s) by { RunKeepsInv(ss, es, |es|); }
    var (e1, e2, e3) := OneJob(s, kind);
    var s1, s2, s3, j := OneJobSteps(s, kind);
    job := j;
    ExtendRunThrice(ss, es, e1, s1, e2, s2, e3, s3);
    ss', es' := ss + [s1, s2, s3], es + [e1, e2, e3];
    if BusyFrom(ss, a, busy) {
      assert busy in s.reg.byKind;
      BusyExtends(ss, a, busy, s1, s2, s3);
    }
  }

  /** Remembering one more job of a kind extends the run of that kind at the end. */
  lemma TailGrows(h: seq<Job>, keep: nat, job: Job, n: nat)
    requires forall i :: 0 <= i < |h| && |h| - n <= i ==> h[i].kind == job.kind
    ensures var h' := Recent(h + [job], keep);
            forall i :: 0 <= i < |h'| && |h'| - (n + 1) <= i ==> h'[i].kind == job.kind
  {
    var all := h + [job];
    var h' := Recent(all, keep);
    forall i | 0 <= i < |h'| && |h'| - (n + 1) <= i ensures h'[i].kind == job.kind {
      assert h'[i] == all[|all| - |h'| + i];
    }
  }

  ghost predicate TailIs(h: seq<Job>, n: nat, kind: string)
  {
    forall i :: 0 <= i < |h| && |h| - n <= i ==> h[i].kind == kind
  }

  /** Enough jobs of another kind push a kind out of memory while it is running. */
  lemma {:induction false} Churn(ss: seq<System>, es: seq<Event>, a: nat, kind: string, other: string, n: nat)
    returns (ss': seq<System>, es': seq<Event>)
    requires Run(ss, es) && a < |ss| && other !in ss[|es|].reg.byKind && BusyFrom(ss, a, kind)
    ensures Run(ss', es') && ss <= ss' && BusyFrom(ss', a, kind) && other !in ss'[|es'|].reg.byKind
    ensures TailIs(ss'[|es'|].reg.history, n, other)
  {
    if n == 0 {
      return ss, es;
    }
    var ss1, es1 := Churn(ss, es, a, kind, other, n - 1);
    var job;
    ss', es', job := RunOneJob(ss1, es1, a, other, kind);
    var last := ss1[|es1|].reg;
    TailGrows(last.history, last.keep, job, n - 1);
  }

  lemma {:induction false} AllOther(h: seq<Job>, kind: string)
    requires forall i :: 0 <= i < |h| ==> h[i].kind != kind
    ensures LastOfKind(h, kind).None?
  {
    if h != [] { AllOther(h[..|h| - 1], kind); }
  }

  /** Latest can answer "nothing" although at every moment between its sections a
      job of the kind was running or remembered: one finished before, the next
      started after the first section, and others crowded the first one out. */
  lemma LatestCanMissBoth(keep: nat, kind: string, other: string)
    returns (ss: seq<System>, es: seq<Event>, a: nat, b: nat)
    requires keep >= 1 && kind != other
    ensures Run(ss, es) && ss[0].reg.keep == keep && a <= b < |ss|
    ensures LatestAnswer(ss[a].reg, ss[b].reg, kind).None?
    ensures forall m :: a <= m <= b ==> Latest(ss[m].reg, kind).Some?
  {
    var ss0, es0 := [Initial(keep)], [];
    var ss1, es1, job := RunOneJob(ss0, es0, 0, kind, other);
    a := |es1|;
    var s := ss1[a];
    assert LastOfKind(s.reg.history, kind) == Some(job);
    var e := StartJob(kind, "", 0);
    ExtendRun(ss1, es1, e, Step(s, e));
    var ss2 := ss1 + [Step(s, e)];
    ss, es := Churn(ss2, es1 + [e], a + 1, kind, other, keep);
    b := |es|;
    assert ss[a] == s && ss[0] == Initial(keep) by { assert ss2[a] == s && ss2[0] == ss0[0]; }
    BusyMeansAnswered(ss, es, a, kind);
    RunKeepsInv(ss, es, b);
    AllOther(ss[b].reg.history, kind);
  }

  lemma BusyMeansAnswered(ss: seq<System>, es: seq<Event>, a: nat, kind: string)
    requires Run(ss, es) && a < |ss| && LastOfKind(ss[a].reg.history, kind).Some? && BusyFrom(ss, a + 1, kind)
    ensures forall m :: a <= m < |ss| ==> Latest(ss[m].reg, kind).Some?
  {
    forall m | a <= m < |ss| ensures Latest(ss[m].reg, kind).Some? { if m > a { RunKeepsInv(ss, es, m); } }
  }
}
