/** The traffic limit: when it is reached, how it is watched while a generation
    runs, and how a byte count is written for the operator. */
module Quota {
  import opened Text

  /** The limit file and the total on disk, as one look finds them. */
  datatype Reading = Unreadable | Read(limit: nat, used: nat)
  {
    /** The look quotaReached says no to. */
    predicate Under() { Read? && !(limit > 0 && used >= limit) }
  }

  // ---- watching a running generation ----

  datatype Event =
    | GenerationOver
    | Reread(limit: Option<nat>)    // absent when the file could not be read
    | Check(total: Option<nat>)     // absent when no collector is live

  /** The limit in force before event n. */
  function Limit(first: nat, events: seq<Event>, n: nat): nat
    requires n <= |events|
  {
    if n == 0 then first
    else if events[n - 1].Reread? && events[n - 1].limit.Some? then events[n - 1].limit.value
    else Limit(first, events, n - 1)
  }

  /** It is the one read last, or the first one when nothing could be read since. */
  lemma {:induction false} LimitIsLast(first: nat, events: seq<Event>, n: nat, k: nat)
    requires n <= |events| && k <= n
    requires forall m :: k <= m < n && events[m].Reread? ==> events[m].limit.None?
    ensures Limit(first, events, n) == Limit(first, events, k)
    ensures k == 0 ==> Limit(first, events, n) == first
    ensures k > 0 && events[k - 1].Reread? && events[k - 1].limit.Some? ==>
      Limit(first, events, n) == events[k - 1].limit.value
    decreases n
  {
    if k < n { LimitIsLast(first, events, n - 1, k); }
  }

  predicate Reaches(first: nat, events: seq<Event>, n: nat)
    requires n < |events|
  {
    var limit := Limit(first, events, n);
    events[n].Check? && events[n].total.Some? && limit > 0 && events[n].total.value >= limit
  }

  /** watchQuota: ends the generation at once when the limit cannot be read, else
      at the first check that finds the limit in force reached. */
  method WatchQuota(load: Option<nat>, events: seq<Event>) returns (ended: bool, at: nat)
    ensures at <= |events|
    ensures load.None? ==> ended && at == 0
    ensures load.Some? ==> forall n :: 0 <= n < at ==> !Reaches(load.value, events, n) && !events[n].GenerationOver?
    ensures load.Some? && ended ==> at < |events| && Reaches(load.value, events, at)
    ensures load.Some? && !ended ==> at == |events| || events[at].GenerationOver?
    ensures load.Some? && ended ==>
      events[at].Check? && events[at].total.Some? && events[at].total.value >= Limit(load.value, events, at) > 0
    ensures load.Some? ==> forall n :: 0 <= n < at && events[n].Check? && events[n].total.Some? ==>
      Limit(load.value, events, n) == 0 || events[n].total.value < Limit(load.value, events, n)
  {
    if load.None? {
      return true, 0;
    }
    var limit := load.value;
    at := 0;
    while at < |events|
      invariant at <= |events| && limit == Limit(load.value, events, at)
      invariant forall n :: 0 <= n < at ==> !Reaches(load.value, events, n) && !events[n].GenerationOver?
    {
      match events[at] {
        case GenerationOver =>
          return false, at;
        case Reread(next) =>
          if next.Some? { limit := next.value; }
        case Check(total) =>
          if limit > 0 && total.Some? && total.value >= limit {
            return true, at;
          }
      }
      at := at + 1;
    }
    return false, at;
  }

  /** The total at the last check before event n; started before any check. */
  function LastTotal(started: nat, events: seq<Event>, n: nat): nat
    requires n <= |events|
  {
    if n == 0 then started
    else if events[n - 1].Check? && events[n - 1].total.Some? then events[n - 1].total.value
    else LastTotal(started, events, n - 1)
  }

  /** A fixed limit, a collector that is there, and a bounded flow per check. */
  ghost predicate Steady(limit: nat, rate: nat, started: nat, events: seq<Event>)
  {
    && (forall n :: 0 <= n < |events| && events[n].Reread? ==> events[n].limit.None? || events[n].limit.value == limit)
    && (forall n :: 0 <= n < |events| && events[n].Check? ==>
          events[n].total.Some? && events[n].total.value <= LastTotal(started, events, n) + rate)
  }

  lemma {:induction false} SteadyLimit(limit: nat, rate: nat, started: nat, events: seq<Event>, n: nat)
    requires Steady(limit, rate, started, events) && n <= |events|
    ensures Limit(limit, events, n) == limit
  {
    if n > 0 { SteadyLimit(limit, rate, started, events, n - 1); }
  }

  lemma {:induction false} UnderUntilReached(limit: nat, rate: nat, started: nat, events: seq<Event>, n: nat)
    requires Steady(limit, rate, started, events) && n <= |events| && 0 < limit && started < limit
    requires forall k :: 0 <= k < n ==> !Reaches(limit, events, k)
    ensures LastTotal(started, events, n) < limit
  {
    if n > 0 {
      UnderUntilReached(limit, rate, started, events, n - 1);
      SteadyLimit(limit, rate, started, events, n - 1);
      assert !Reaches(limit, events, n - 1);
    }
  }

  /** A generation started under its limit is stopped with less than one check
      interval's traffic above it. */
  lemma OvershootBounded(limit: nat, rate: nat, started: nat, events: seq<Event>, at: nat)
    requires Steady(limit, rate, started, events) && at < |events| && 0 < limit && started < limit
    requires Reaches(limit, events, at) && forall k :: 0 <= k < at ==> !Reaches(limit, events, k)
    ensures limit <= events[at].total.value < limit + rate
  {
    UnderUntilReached(limit, rate, started, events, at);
    SteadyLimit(limit, rate, started, events, at);
  }

  /** A generation that a look under the limit let start, watched with that limit:
      the watch ends it exactly at the first check that reaches the limit, and then
      its total is below the limit and one interval more; a watch that has ended
      nothing leaves the last total below the limit. */
  method WatchGeneration(start: Reading, events: seq<Event>, ghost rate: nat) returns (ended: bool, at: nat)
    requires start.Under()
    ensures at <= |events| && forall n :: 0 <= n < at ==> !Reaches(start.limit, events, n) && !events[n].GenerationOver?
    ensures ended ==> at < |events| && Reaches(start.limit, events, at)
    ensures ended ==>
      events[at].Check? && events[at].total.Some? && events[at].total.value >= Limit(start.limit, events, at) > 0
    ensures !ended ==> at == |events| || events[at].GenerationOver?
    ensures ended && Steady(start.limit, rate, start.used, events) ==>
      start.limit > 0 && start.limit <= events[at].total.value < start.limit + rate
    ensures !ended && start.limit > 0 && Steady(start.limit, rate, start.used, events) ==>
      LastTotal(start.used, events, at) < start.limit
  {
    ended, at := WatchQuota(Some(start.limit), events);
    if Steady(start.limit, rate, start.used, events) {
      SteadyLimit(start.limit, rate, start.used, events, at);
      if ended {
        OvershootBounded(start.limit, rate, start.used, events, at);
      } else if start.limit > 0 {
        UnderUntilReached(start.limit, rate, start.used, events, at);
      }
    }
  }

  // ---- itoa ----

  function Pow(b: nat, e: nat): (r: nat)
    ensures b > 0 ==> r > 0
  {
    if e == 0 then 1 else b * Pow(b, e - 1)
  }

  lemma EightDigits()
    ensures Pow(10, 8) == 100_000_000
  {
    assert Pow(10, 4) == 10_000;
  }

  /** One turn of itoa's loop: the last digit goes before what is written, and the
      rest of the number needs one place less. */
  lemma DigitStep(m: nat, i: nat)
    requires 0 < m < Pow(10, i)
    ensures i > 0 && m / 10 < Pow(10, i - 1)
    ensures Decimal(m) == (if m / 10 > 0 then Decimal(m / 10) else "") + [DigitChar(m % 10)]
  {
  }

  /** itoa fills an eight-byte buffer from the back; a negative number leaves it
      empty. Below a hundred million it never runs out of buffer. */
  method Itoa(n: int) returns (s: string)
    requires n < 100_000_000
    ensures s == if n < 0 then "" else Decimal(n)
  {
    if n == 0 {
      return "0";
    }
    hide Decimal, Pow, DigitChar;
    var b := new char[8](_ => '0');
    var i := 8;
    var m := n;
    EightDigits();
    while m > 0
      invariant 0 <= i <= 8 && b.Length == 8
      invariant m < Pow(10, i)
      invariant n < 0 ==> i == 8 && m == n
      invariant n > 0 ==> m >= 0 && Decimal(n) == (if m > 0 then Decimal(m) else "") + b[i..]
      decreases m
    {
      DigitStep(m, i);
      ghost var tail := b[i..];
      i := i - 1;
      b[i] := DigitChar(m % 10);
      assert b[i..] == [DigitChar(m % 10)] + tail;
      m := m / 10;
    }
    return b[i..];
  }

  // ---- humanBytes ----

  const UNITS := "KMGTP"
  const WORD: nat := 0x1_0000_0000_0000_0000

  lemma {:induction false} MulMono(d: nat, x: nat, y: nat)
    requires x <= y
    ensures d * x <= d * y
    decreases y - x
  {
    if x < y {
      MulMono(d, x, y - 1);
      MulAdd(d, y - 1, 1);
    }
  }

  lemma MulAdd(d: nat, x: nat, y: nat)
    ensures d * (x + y) == d * x + d * y
  {
  }

  lemma DivUnique(n: nat, d: nat, q: nat, r: nat)
    requires d > 0 && n == d * q + r && r < d
    ensures n / d == q
  {
    var q', r' := n / d, n % d;
    DivMod(n, d);
    if q < q' {
      MulMono(d, q + 1, q');
      MulAdd(d, q, 1);
    } else if q' < q {
      MulMono(d, q' + 1, q);
      MulAdd(d, q', 1);
    }
  }

  lemma DivMod(n: nat, d: nat)
    requires d > 0
    ensures n == d * (n / d) + n % d && 0 <= n % d < d
  {
  }

  lemma DivDiv(n: nat, a: nat)
    requires a > 0
    ensures n / a / 1024 == n / (a * 1024)
  {
    var q, r := n / a, n % a;
    DivMod(n, a);
    var q2, r2 := q / 1024, q % 1024;
    MulAdd(a, 1024 * q2, r2);
    assert a * (1024 * q2) == (a * 1024) * q2;
    MulMono(a, r2, 1023);
    DivUnique(n, a * 1024, q2, a * r2 + r);
  }

  lemma TenthsFromParts(n: nat, d: nat, q: nat, r: nat, t: nat, u: nat)
    requires n == d * q + r && r * 10 == d * t + u && u < d && r < d
    ensures 10 * n / d == 10 * q + t && t < 10
  {
    MulAdd(d, 10 * q, t);
    MulAssoc(d, q);
    DivUnique(10 * n, d, 10 * q + t, u);
    if t >= 10 { MulMono(d, 10, t); }
  }

  lemma MulAssoc(d: nat, q: nat)
    ensures d * (10 * q) == 10 * (d * q)
  {
  }

  lemma TenthsAreExact(n: nat, d: nat)
    requires d > 0
    ensures 10 * (n / d) + (n % d) * 10 / d == 10 * n / d
    ensures (n % d) * 10 / d < 10
  {
    DivMod(n, d);
    DivMod((n % d) * 10, d);
    TenthsFromParts(n, d, n / d, n % d, (n % d) * 10 / d, (n % d) * 10 % d);
  }

  /** For every 64-bit count: no step leaves 64 bits, the unit letter exists, both
      numbers fit itoa's buffer, and the text is the count in that unit, cut to a
      tenth. */
  method HumanBytes(n: nat) returns (s: string, exp: nat, whole: nat, tenth: nat)
    requires n < WORD
    ensures n < 1024 ==> s == Decimal(n) + " B"
    ensures n >= 1024 ==>
      && exp <= 4 && s == Decimal(whole) + "." + Decimal(tenth) + " " + [UNITS[exp]] + "B"
      && tenth < 10 && 1 <= whole < 16384 && (exp < 4 ==> whole < 1024)
      && 10 * whole + tenth == 10 * n / Pow(1024, exp + 1)
  {
    exp, whole, tenth := 0, 0, 0;
    if n < 1024 {
      s := Itoa(n);
      s := s + " B";
      return;
    }
    var div := 1024;
    var m := n / 1024;
    while m >= 1024 && exp < 4
      invariant exp <= 4 && div == Pow(1024, exp + 1) && div <= Pow(1024, 5) && m == n / div && m >= 1
      invariant exp == 4 ==> m < 16384
      decreases 4 - exp
    {
      DivDiv(n, div);
      PowSmall();
      div := div * 1024;
      exp := exp + 1;
      m := m / 1024;
    }
    PowSmall();
    whole := n / div;
    assert (n % div) * 10 < WORD;
    TenthsAreExact(n, div);
    tenth := (n % div) * 10 / div;
    var w := Itoa(whole);
    var t := Itoa(tenth);
    s := w + "." + t + " " + [UNITS[exp]] + "B";
  }

  lemma PowSmall()
    ensures Pow(1024, 1) == 1024 && Pow(1024, 2) == 1048576 && Pow(1024, 3) == 1073741824
    ensures Pow(1024, 4) == 1099511627776 && Pow(1024, 5) == 1125899906842624
  {
    assert Pow(1024, 1) == 1024;
    assert Pow(1024, 2) == 1024 * 1024;
    assert Pow(1024, 3) == 1024 * 1048576;
    assert Pow(1024, 4) == 1024 * 1073741824;
    assert Pow(1024, 5) == 1024 * 1099511627776;
  }
}
