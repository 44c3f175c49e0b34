/** Watching a tunnel's configuration file while one generation of it runs. */
module Reload {
  import opened Text

  datatype Fingerprint = Fingerprint(size: int, modTime: int)

  const NO_FINGERPRINT := Fingerprint(0, 0)

  /** The helper certificates' digests as read; a failed read still leaves a value. */
  datatype Tls = Tls(digests: string, ok: bool)

  type Config = string

  /** What the file holds: nothing that parses, or a configuration as written. */
  datatype File = Garbage | Parsed(raw: Config)

  /** applyDefaults and validateConfig. */
  datatype Rules = Rules(defaults: Config -> Config, valid: Config -> bool)

  /** Loading, defaulting and validating the file: the configuration that may run. */
  function Usable(rules: Rules, file: File): (c: Option<Config>)
    ensures c.Some? ==> rules.valid(c.value) && file.Parsed? && c.value == rules.defaults(file.raw)
  {
    if file.Parsed? && rules.valid(rules.defaults(file.raw)) then Some(rules.defaults(file.raw)) else None
  }

  /** One thing the watch's select wakes up for. fp is absent when the file
      cannot be examined. */
  datatype Observation =
    | Shutdown
    | GenerationOver
    | Tick(fp: Option<Fingerprint>, tls: Tls, file: File)

  datatype Wake = StillWaiting | WakeShutdown | WakeRestart | WakeConfig(next: Config)

  /** What a call knows when it starts. */
  datatype Start = Start(fp: Option<Fingerprint>, tls: Tls, current: Config)
  {
    function Pair(): (Fingerprint, Tls) { (if fp.Some? then fp.value else NO_FINGERPRINT, tls) }
  }

  // ---- what the watch should do, in terms of what is observed ----

  /** The file and certificates as last seen before observation n. */
  function Seen(s: Start, obs: seq<Observation>, n: nat): (Fingerprint, Tls)
    requires n <= |obs|
  {
    if n == 0 then s.Pair()
    else if obs[n - 1].Tick? && obs[n - 1].fp.Some? then (obs[n - 1].fp.value, obs[n - 1].tls)
    else Seen(s, obs, n - 1)
  }

  predicate TlsChanged(s: Start, tls: Tls) { tls.ok && tls.digests != s.tls.digests }

  /** A tick like this makes the watch load the file. */
  predicate Looks(s: Start, obs: seq<Observation>, n: nat, fp: Option<Fingerprint>, tls: Tls)
    requires n <= |obs|
  {
    fp.Some? && (fp.value != Seen(s, obs, n).0 || TlsChanged(s, tls))
  }

  /** The tick shows a usable file that must replace the running one: new
      certificates, or a touched file that means something else. */
  predicate Fires(rules: Rules, s: Start, obs: seq<Observation>, n: nat)
    requires n < |obs|
  {
    && obs[n].Tick? && obs[n].fp.Some? && Usable(rules, obs[n].file).Some?
    && (TlsChanged(s, obs[n].tls) || (obs[n].fp.value != Seen(s, obs, n).0 &&
        Usable(rules, obs[n].file).value != s.current))
  }

  predicate Ends(rules: Rules, s: Start, obs: seq<Observation>, n: nat)
    requires n < |obs|
  {
    obs[n].Shutdown? || obs[n].GenerationOver? || Fires(rules, s, obs, n)
  }

  /** What a call comes back with, and at which observation. */
  ghost predicate Outcome(rules: Rules, s: Start, obs: seq<Observation>, wake: Wake, at: nat)
  {
    && at <= |obs| && (forall n :: 0 <= n < at ==> !Ends(rules, s, obs, n))
    && (wake.StillWaiting? <==> at == |obs|)
    && (wake.WakeShutdown? ==> obs[at].Shutdown?)
    && (wake.WakeRestart? ==> obs[at].GenerationOver?)
    && (wake.WakeConfig? ==> Fires(rules, s, obs, at) && Usable(rules, obs[at].file) == Some(wake.next))
  }

  /** How often the observed file-and-certificates pair changed. */
  function Changes(s: Start, obs: seq<Observation>, n: nat): nat
    requires n <= |obs|
  {
    if n == 0 then 0
    else Changes(s, obs, n - 1) + if Seen(s, obs, n) != Seen(s, obs, n - 1) then 1 else 0
  }

  /** What a complaint is remembered by: the file's fingerprint and the certificates. */
  type Version = (Fingerprint, string)

  /** The tick makes the watch load a file that cannot run. */
  predicate Refuses(rules: Rules, s: Start, obs: seq<Observation>, n: nat)
    requires n < |obs|
  {
    && obs[n].Tick? && Looks(s, obs, n, obs[n].fp, obs[n].tls) && Usable(rules, obs[n].file).None?
  }

  /** The version refused last before observation n. */
  function LastRefused(rules: Rules, s: Start, obs: seq<Observation>, n: nat): Version
    requires n <= |obs|
  {
    if n == 0 then (NO_FINGERPRINT, "")
    else if Refuses(rules, s, obs, n - 1) then (obs[n - 1].fp.value, obs[n - 1].tls.digests)
    else LastRefused(rules, s, obs, n - 1)
  }

  /** How many refusals before observation n were of another version than the last. */
  function Refusals(rules: Rules, s: Start, obs: seq<Observation>, n: nat): nat
    requires n <= |obs|
  {
    if n == 0 then 0
    else
      Refusals(rules, s, obs, n - 1)
      + if LastRefused(rules, s, obs, n) != LastRefused(rules, s, obs, n - 1) then 1 else 0
  }

  // ---- the loop ----

  /** awaitConfigChange, over whatever its select is woken by. Refused files and
      files that mean the same never end the call, and the operator hears about a
      refused file once for each version that is not the one refused last. */
  method AwaitConfigChange(rules: Rules, s: Start, obs: seq<Observation>) returns (wake: Wake, at: nat, complaints: nat)
    ensures Outcome(rules, s, obs, wake, at)
    ensures complaints == Refusals(rules, s, obs, at) <= Changes(s, obs, at)
    ensures at <= |obs| && forall n :: 0 <= n < at ==> obs[n].Tick?
    ensures if at == |obs| then wake.StillWaiting?
        else if obs[at].Shutdown? then wake.WakeShutdown?
        else if obs[at].GenerationOver? then wake.WakeRestart?
        else obs[at].file.Parsed? && wake == WakeConfig(rules.defaults(obs[at].file.raw)) && rules.valid(wake.next)
  {
    var last := if s.fp.Some? then s.fp.value else NO_FINGERPRINT;
    var lastComplaint := (NO_FINGERPRINT, "");
    complaints := 0;
    at := 0;
    while at < |obs|
      invariant at <= |obs| && forall n :: 0 <= n < at ==> !Ends(rules, s, obs, n)
      invariant forall n :: 0 <= n < at ==> obs[n].Tick?
      invariant last == Seen(s, obs, at).0
      invariant TlsChanged(s, Seen(s, obs, at).1) ==> lastComplaint == (Seen(s, obs, at).0, Seen(s, obs, at).1.digests)
      invariant complaints == Refusals(rules, s, obs, at) <= Changes(s, obs, at)
      invariant lastComplaint == LastRefused(rules, s, obs, at)
    {
      var o := obs[at];
      if o.Shutdown? {
        return WakeShutdown, at, complaints;
      }
      if o.GenerationOver? {
        return WakeRestart, at, complaints;
      }
      var tlsChanged := o.tls.ok && o.tls.digests != s.tls.digests;
      if o.fp.None? || (o.fp.value == last && !tlsChanged) {
        at := at + 1;
        continue;
      }
      last := o.fp.value;
      var complaint := (o.fp.value, o.tls.digests);
      if o.file.Garbage? {
        if complaint != lastComplaint {
          lastComplaint := complaint;
          complaints := complaints + 1;
        }
        at := at + 1;
        continue;
      }
      var next := rules.defaults(o.file.raw);
      if !rules.valid(next) {
        if complaint != lastComplaint {
          lastComplaint := complaint;
          complaints := complaints + 1;
        }
        at := at + 1;
        continue;
      }
      if s.current == next && !tlsChanged {
        at := at + 1;
        continue;
      }
      return WakeConfig(next), at, complaints;
    }
    return StillWaiting, at, complaints;
  }

  // ---- what this amounts to ----

  /** The last tick before n that could examine the file, if there was one. */
  ghost predicate LastExamined(obs: seq<Observation>, k: nat, n: nat)
    requires n <= |obs|
  {
    && k < n && obs[k].Tick? && obs[k].fp.Some?
    && forall m :: k < m < n ==> !(obs[m].Tick? && obs[m].fp.Some?)
  }

  lemma {:induction false} SeenIsLast(s: Start, obs: seq<Observation>, n: nat, k: nat)
    requires n <= |obs| && LastExamined(obs, k, n)
    ensures Seen(s, obs, n) == (obs[k].fp.value, obs[k].tls)
    decreases n
  {
    if k < n - 1 { SeenIsLast(s, obs, n - 1, k); }
  }

  lemma {:induction false} SeenAtFirst(s: Start, obs: seq<Observation>, n: nat)
    requires n <= |obs| && forall m :: 0 <= m < n ==> !(obs[m].Tick? && obs[m].fp.Some?)
    ensures Seen(s, obs, n) == (if s.fp.Some? then s.fp.value else Fingerprint(0, 0), s.tls)
    decreases n
  {
    if n > 0 { SeenAtFirst(s, obs, n - 1); }
  }

  /** When a tick ends the call: its file loads, defaults and validates, and either
      its certificates were read and have other digests than at the start, or it was
      not this file that was examined last and it means something else. */
  lemma FiresIff(rules: Rules, s: Start, obs: seq<Observation>, n: nat)
    requires n < |obs| && obs[n].Tick?
    ensures Fires(rules, s, obs, n) <==>
      && obs[n].fp.Some? && obs[n].file.Parsed? && rules.valid(rules.defaults(obs[n].file.raw))
      && ((obs[n].tls.ok && obs[n].tls.digests != s.tls.digests)
          || (obs[n].fp.value != Seen(s, obs, n).0 && rules.defaults(obs[n].file.raw) != s.current))
  {
  }

  /** When a tick finds a file to complain about: it examines one that is new to it, or
      under other certificates than at the start, and what it examines cannot run. */
  lemma RefusesIff(rules: Rules, s: Start, obs: seq<Observation>, n: nat)
    requires n < |obs| && obs[n].Tick?
    ensures Refuses(rules, s, obs, n) <==>
      && obs[n].fp.Some? && (obs[n].file.Garbage? || !rules.valid(rules.defaults(obs[n].file.raw)))
      && ((obs[n].tls.ok && obs[n].tls.digests != s.tls.digests) || obs[n].fp.value != Seen(s, obs, n).0)
  {
  }

  /** Between two refused files the operator hears nothing. */
  lemma {:induction false} NothingToTell(rules: Rules, s: Start, obs: seq<Observation>, a: nat, b: nat)
    requires a <= b <= |obs| && forall n :: a <= n < b ==> !Refuses(rules, s, obs, n)
    ensures Refusals(rules, s, obs, b) == Refusals(rules, s, obs, a)
    ensures LastRefused(rules, s, obs, b) == LastRefused(rules, s, obs, a)
    decreases b
  {
    if a < b { NothingToTell(rules, s, obs, a, b - 1); }
  }

  /** The operator hears of the first refused file, and of each later one exactly when
      it is another file, or comes with other certificates, than the one before it. */
  lemma RefusedIsTold(rules: Rules, s: Start, obs: seq<Observation>, a: nat, b: nat)
    requires a < b < |obs| && Refuses(rules, s, obs, a) && Refuses(rules, s, obs, b)
    requires forall n :: a < n < b ==> !Refuses(rules, s, obs, n)
    requires obs[a].fp.value != Fingerprint(0, 0)
    ensures (forall n :: 0 <= n < a ==> !Refuses(rules, s, obs, n)) ==> Refusals(rules, s, obs, a + 1) == 1
    ensures Refusals(rules, s, obs, b + 1) - Refusals(rules, s, obs, a + 1)
        == if obs[a].fp.value == obs[b].fp.value && obs[a].tls.digests == obs[b].tls.digests then 0 else 1
  {
    NothingToTell(rules, s, obs, a + 1, b);
    if forall n :: 0 <= n < a ==> !Refuses(rules, s, obs, n) { NothingToTell(rules, s, obs, 0, a); }
  }

  /** However long a refused file stays as it is, and whatever makes the watch load
      it again, it is complained about once. */
  lemma {:induction false} BrokenOnce(rules: Rules, s: Start, obs: seq<Observation>, a: nat, b: nat)
    requires a < b <= |obs| && Refuses(rules, s, obs, a)
    requires forall n :: a <= n < b && Refuses(rules, s, obs, n) ==>
      (obs[n].fp.value, obs[n].tls.digests) == (obs[a].fp.value, obs[a].tls.digests)
    ensures LastRefused(rules, s, obs, b) == (obs[a].fp.value, obs[a].tls.digests)
    ensures Refusals(rules, s, obs, b) == Refusals(rules, s, obs, a + 1) <= Refusals(rules, s, obs, a) + 1
    decreases b
  {
    if a + 1 < b { BrokenOnce(rules, s, obs, a, b - 1); }
  }

  lemma {:induction false} SeenPrefix(s: Start, obs: seq<Observation>, more: seq<Observation>, n: nat)
    requires n <= |obs|
    ensures Seen(s, obs + more, n) == Seen(s, obs, n)
  {
    if n > 0 {
      SeenPrefix(s, obs, more, n - 1);
      assert (obs + more)[n - 1] == obs[n - 1];
    }
  }

  /** What comes later does not change how an observation was taken. */
  lemma EndsPrefix(rules: Rules, s: Start, obs: seq<Observation>, more: seq<Observation>, n: nat)
    requires n < |obs|
    ensures Ends(rules, s, obs + more, n) <==> Ends(rules, s, obs, n)
  {
    SeenPrefix(s, obs, more, n);
    assert (obs + more)[n] == obs[n];
  }

  /** A call's outcome is settled by what it observes. */
  lemma OutcomeIsUnique(rules: Rules, s: Start, obs: seq<Observation>, wake: Wake, at: nat, wake': Wake, at': nat)
    requires Outcome(rules, s, obs, wake, at) && Outcome(rules, s, obs, wake', at')
    ensures wake == wake' && at == at'
  {
    if at < |obs| { OutcomeEnds(rules, s, obs, wake, at); }
    if at' < |obs| { OutcomeEnds(rules, s, obs, wake', at'); }
  }

  lemma OutcomeEnds(rules: Rules, s: Start, obs: seq<Observation>, wake: Wake, at: nat)
    requires Outcome(rules, s, obs, wake, at) && at < |obs|
    ensures Ends(rules, s, obs, at)
  {
  }

  /** Nothing in the file can end the generation while the fingerprint stays the one
      taken when the call began and the certificates stay the same. */
  lemma {:induction false} UntouchedNeverFires(rules: Rules, s: Start, obs: seq<Observation>, n: nat)
    requires n < |obs| && s.fp.Some?
    requires forall k :: 0 <= k <= n && obs[k].Tick? ==>
        (obs[k].fp.Some? ==> obs[k].fp == s.fp) && !TlsChanged(s, obs[k].tls)
    ensures Seen(s, obs, n).0 == s.fp.value && !Fires(rules, s, obs, n)
  {
    if n > 0 { UntouchedNeverFires(rules, s, obs, n - 1); }
  }

  /** The first tick after the start to show another fingerprint decides: with a
      usable file that means something else, the call ends there. */
  lemma {:induction false} FirstTouchFires(rules: Rules, s: Start, obs: seq<Observation>, n: nat)
    requires n < |obs| && s.fp.Some? && obs[n].Tick? && obs[n].fp.Some? && obs[n].fp != s.fp
    requires Usable(rules, obs[n].file).Some? && Usable(rules, obs[n].file).value != s.current
    requires forall k :: 0 <= k < n && obs[k].Tick? ==>
        (obs[k].fp.Some? ==> obs[k].fp == s.fp) && !TlsChanged(s, obs[k].tls)
    ensures Fires(rules, s, obs, n)
  {
    if n > 0 { UntouchedNeverFires(rules, s, obs, n - 1); }
  }
}
