/** What a finished test recommends: the path MTU found by halving, the tunnel
    whose numbers to go by, the spread of its echoes and the timers set from it. */
module Best {
  import Q = Quota

  // ---- path MTU ----

  const PMTU_MAX: nat := 1500

  function PmtuMin(ipv6: bool): nat { if ipv6 then 1280 else 576 }

  /** One datagram, sent at some moment, and whether its answer came back. */
  datatype Probe = Probe(at: nat, size: nat, answered: bool)

  /** What crosses: whether a datagram of this size is answered at this moment. */
  type Network = (nat, nat) -> bool

  ghost predicate CarriesExactly(network: Network, most: nat)
  {
    forall t: nat, size: nat :: network(t, size) <==> size <= most
  }

  /** The probe went out before the clock's moment, and says what the network said,
      unless the context had been cancelled by then. */
  ghost predicate Said(network: Network, cancel: nat, clock: nat, p: Probe)
  {
    p.at < clock && p.answered == (network(p.at, p.size) && p.at < cancel)
  }

  /** The trace of a search: what the network said, one datagram after the other. */
  ghost predicate Truthful(network: Network, cancel: nat, clock: nat, trace: seq<Probe>)
  {
    && (forall i :: 0 <= i < |trace| ==> Said(network, cancel, clock, trace[i]))
    && forall i, j :: 0 <= i < j < |trace| ==> trace[i].at < trace[j].at
  }

  lemma TruthfulLonger(network: Network, cancel: nat, clock: nat, trace: seq<Probe>, later: nat, more: seq<Probe>)
    requires Truthful(network, cancel, clock, trace) && Truthful(network, cancel, later, more) && clock <= later
    requires forall i :: 0 <= i < |more| ==> clock <= more[i].at
    ensures Truthful(network, cancel, later, trace + more)
  {
    var all := trace + more;
    forall i | 0 <= i < |all| ensures Said(network, cancel, later, all[i]) {
      if i < |trace| { assert Said(network, cancel, clock, trace[i]); }
    }
    forall i, j | 0 <= i < j < |all| ensures all[i].at < all[j].at {
      if i < |trace| <= j { assert Said(network, cancel, clock, trace[i]); }
    }
  }

  /** Somewhere in the trace a datagram of this size was answered. */
  ghost predicate Answered(trace: seq<Probe>, size: nat)
  {
    exists i :: 0 <= i < |trace| && trace[i].size == size && trace[i].answered
  }

  predicate Unanswered(p: Probe, size: nat) { p.size == size && !p.answered }

  /** Somewhere in the trace this size went unanswered twice running. */
  ghost predicate RefusedTwice(trace: seq<Probe>, size: nat)
  {
    exists i :: 0 < i < |trace| && Unanswered(trace[i - 1], size) && Unanswered(trace[i], size)
  }

  /** The network carried a datagram of this size at some moment of the search. */
  ghost predicate Crossed(network: Network, clock: nat, size: nat) { exists t: nat :: t < clock && network(t, size) }

  /** The network failed to carry this size at two moments of the search. */
  ghost predicate LostTwice(network: Network, clock: nat, size: nat)
  {
    exists t: nat, u: nat :: t < u < clock && !network(t, size) && !network(u, size)
  }

  lemma AnsweredCrossed(network: Network, cancel: nat, clock: nat, trace: seq<Probe>, size: nat)
    requires Truthful(network, cancel, clock, trace) && Answered(trace, size)
    ensures Crossed(network, clock, size)
  {
    var i :| 0 <= i < |trace| && trace[i].size == size && trace[i].answered;
    assert Said(network, cancel, clock, trace[i]);
  }

  lemma RefusedLost(network: Network, cancel: nat, clock: nat, trace: seq<Probe>, size: nat)
    requires Truthful(network, cancel, clock, trace) && RefusedTwice(trace, size) && clock <= cancel
    ensures LostTwice(network, clock, size)
  {
    var i :| 0 < i < |trace| && Unanswered(trace[i - 1], size) && Unanswered(trace[i], size);
    assert Said(network, cancel, clock, trace[i - 1]) && Said(network, cancel, clock, trace[i]);
    assert !network(trace[i - 1].at, size) && !network(trace[i].at, size);
  }

  lemma RefusedTwiceStays(trace: seq<Probe>, more: seq<Probe>, size: nat)
    requires RefusedTwice(trace, size) || RefusedTwice(more, size)
    ensures RefusedTwice(trace + more, size)
  {
    var all := trace + more;
    if RefusedTwice(trace, size) {
      var i :| 0 < i < |trace| && Unanswered(trace[i - 1], size) && Unanswered(trace[i], size);
      assert Unanswered(all[i - 1], size) && Unanswered(all[i], size);
    } else {
      var i :| 0 < i < |more| && Unanswered(more[i - 1], size) && Unanswered(more[i], size);
      var k := |trace| + i;
      assert Unanswered(all[k - 1], size) && Unanswered(all[k], size);
    }
  }

  lemma AnsweredStays(trace: seq<Probe>, more: seq<Probe>, size: nat)
    requires Answered(trace, size) || Answered(more, size)
    ensures Answered(trace + more, size)
  {
    var all := trace + more;
    if Answered(trace, size) {
      var i :| 0 <= i < |trace| && trace[i].size == size && trace[i].answered;
      assert all[i] == trace[i];
    } else {
      var i :| 0 <= i < |more| && more[i].size == size && more[i].answered;
      assert all[|trace| + i] == more[i];
    }
  }

  /** fits: up to two datagrams of one size. The clock advances at every look at
      the context, two for a datagram, which is cancelled from moment `cancel` on;
      `clock <= cancel` says that no look so far found it cancelled. A datagram is
      left unsent only because the look before it did. */
  method Fits(network: Network, cancel: nat, size: nat, start: nat) returns (ok: bool, clock: nat, sent: seq<Probe>)
    ensures start < clock <= start + 4 && |sent| <= 2
    ensures clock == start + 2 * |sent| || (!ok && |sent| < 2 && clock == start + 2 * |sent| + 1 && clock > cancel)
    ensures forall i :: 0 <= i < |sent| ==> sent[i].at == start + 2 * i + 1 && sent[i].size == size
    ensures Truthful(network, cancel, clock, sent)
    ensures ok ==> Answered(sent, size) && clock <= cancel
    ensures !ok && clock <= cancel ==> |sent| == 2 && RefusedTwice(sent, size)
    ensures forall most: nat :: CarriesExactly(network, most) && clock <= cancel ==> (ok <==> size <= most)
  {
    ok, clock, sent := false, start, [];
    var tries := 0;
    while tries < 2
      invariant tries <= 2 && clock == start + 2 * tries && |sent| == tries
      invariant forall i :: 0 <= i < tries ==> sent[i].at == start + 2 * i + 1 && Unanswered(sent[i], size)
      invariant forall i :: 0 <= i < tries ==> Said(network, cancel, clock, sent[i])
      invariant tries > 0 && clock <= cancel ==> forall most: nat :: CarriesExactly(network, most) ==> size > most
    {
      if clock >= cancel { return false, clock + 1, sent; }
      clock := clock + 1;
      var answered := network(clock, size) && clock < cancel;
      sent := sent + [Probe(clock, size, answered)];
      clock := clock + 1;
      if answered {
        assert sent[tries].answered;
        return true, clock, sent;
      }
      tries := tries + 1;
    }
    assert Unanswered(sent[0], size) && Unanswered(sent[1], size);
  }

  /** The most looks a search can take: the first, two sizes tried twice, ten
      halvings with a look before each, and the last. */
  const LOOKS: nat := 60

  lemma TenHalvings()
    ensures Q.Pow(2, 10) == 1024
  {
    assert Q.Pow(2, 5) == 32;
  }

  lemma Halving(span: nat, left: int)
    requires 1 < span && 0 <= left && span <= Q.Pow(2, left)
    ensures left > 0 && span - span / 2 <= Q.Pow(2, left - 1)
  {
  }

  lemma NothingSent(network: Network, cancel: nat, clock: nat)
    ensures Truthful(network, cancel, clock, [])
  {
  }

  lemma TruthfulLater(network: Network, cancel: nat, clock: nat, trace: seq<Probe>)
    requires Truthful(network, cancel, clock, trace)
    ensures Truthful(network, cancel, clock + 1, trace)
  {
    forall i | 0 <= i < |trace| ensures Said(network, cancel, clock + 1, trace[i]) {
      assert Said(network, cancel, clock, trace[i]);
    }
  }

  /** What one more try of a size adds to the trace. */
  lemma Sending(network: Network, cancel: nat, before: nat, trace: seq<Probe>, clock: nat, sent: seq<Probe>, size: nat)
    requires Truthful(network, cancel, before, trace) && Truthful(network, cancel, clock, sent) && before <= clock
    requires forall i :: 0 <= i < |sent| ==> before <= sent[i].at
    ensures Truthful(network, cancel, clock, trace + sent)
    ensures Answered(sent, size) ==> Answered(trace + sent, size)
    ensures RefusedTwice(sent, size) ==> RefusedTwice(trace + sent, size)
  {
    TruthfulLonger(network, cancel, before, trace, clock, sent);
    if Answered(sent, size) { AnsweredStays(trace, sent, size); }
    if RefusedTwice(sent, size) { RefusedTwiceStays(trace, sent, size); }
  }

  /** ctProbePMTU. What it finds is promised of every search that is not cancelled
      within its sixty looks, and what a result inside the bounds rests on of every
      search. */
  method ProbePmtu(resolved: bool, ipv6: bool, network: Network, cancel: nat)
    returns (size: nat, clock: nat, trace: seq<Probe>)
    ensures size == 0 || (if ipv6 then 1280 else 576) <= size <= 1500
    ensures Truthful(network, cancel, clock, trace)
    ensures size != 0 ==> resolved && Answered(trace, size) && Crossed(network, clock, size)
    ensures 0 < size < PMTU_MAX ==> RefusedTwice(trace, size + 1) && LostTwice(network, clock, size + 1)
    ensures size == 0 && resolved && cancel >= LOOKS ==>
      RefusedTwice(trace, PmtuMin(ipv6)) && LostTwice(network, clock, PmtuMin(ipv6))
    ensures |trace| <= 2 * (2 + 10) && clock <= LOOKS
    ensures clock > cancel ==> size == 0 || size == PMTU_MAX
    ensures forall most: nat :: resolved && cancel >= LOOKS && CarriesExactly(network, most) ==>
      size == if most < (if ipv6 then 1280 else 576) then 0 else if most < 1500 then most else 1500
  {
    hide Q.Pow, CarriesExactly, RefusedTwice, Answered, Truthful, Crossed, LostTwice;
    trace, clock := [], 1;
    NothingSent(network, cancel, clock);
    if !resolved || cancel == 0 { return 0, clock, trace; }
    var minimum := PmtuMin(ipv6);
    var ok, sent;
    ghost var before := clock;
    ok, clock, sent := Fits(network, cancel, minimum, clock);
    Sending(network, cancel, before, trace, clock, sent, minimum);
    trace := trace + sent;
    if !ok {
      if clock <= cancel { RefusedLost(network, cancel, clock, trace, minimum); }
      return 0, clock, trace;
    }
    before := clock;
    ok, clock, sent := Fits(network, cancel, PMTU_MAX, clock);
    Sending(network, cancel, before, trace, clock, sent, PMTU_MAX);
    AnsweredStays(trace, sent, minimum);
    trace := trace + sent;
    if ok {
      AnsweredCrossed(network, cancel, clock, trace, PMTU_MAX);
      return PMTU_MAX, clock, trace;
    }
    var lo, hi := minimum, PMTU_MAX;
    ghost var halvings: nat := 0;
    TenHalvings();
    while hi - lo > 1 && clock < cancel
      invariant minimum <= lo < hi <= PMTU_MAX
      invariant halvings <= 10 && hi - lo <= Q.Pow(2, 10 - halvings)
      invariant |trace| <= 2 * (2 + halvings) && clock <= 9 + 5 * halvings
      invariant Truthful(network, cancel, clock, trace) && Answered(trace, lo)
      invariant clock <= cancel ==> RefusedTwice(trace, hi)
      invariant forall most: nat :: clock <= cancel && CarriesExactly(network, most) ==> lo <= most < hi
    {
      var mid := (lo + hi) / 2;
      before := clock;
      ok, clock, sent := Fits(network, cancel, mid, clock + 1);
      Sending(network, cancel, before, trace, clock, sent, mid);
      AnsweredStays(trace, sent, lo);
      if clock <= cancel { RefusedTwiceStays(trace, sent, if ok then hi else mid); }
      trace := trace + sent;
      Halving(hi - lo, 10 - halvings);
      if ok {
        lo := mid;
      } else {
        hi := mid;
      }
      halvings := halvings + 1;
    }
    if clock >= cancel {
      TruthfulLater(network, cancel, clock, trace);
      return 0, clock + 1, trace;
    }
    AnsweredCrossed(network, cancel, clock, trace, lo);
    RefusedLost(network, cancel, clock, trace, hi);
    return lo, clock, trace;
  }

  // ---- whose numbers to go by ----

  datatype Status = Testing | Ok | Unstable | Down | Skipped

  datatype Row = Row(spoof: bool, status: Status, tried: nat, ok: nat, mbps: real)

  predicate Eligible(r: Row) { !r.spoof && !r.status.Skipped? && r.tried != 0 && r.ok != 0 }

  /** The switch of ctComputeBest: does row r displace the current choice? */
  predicate Displaces(r: Row, cur: Row)
  {
    || (r.status.Ok? && !cur.status.Ok?)
    || (r.status.Unstable? && cur.status.Down?)
    || (r.status == cur.status && r.status.Ok? && r.mbps > cur.mbps)
    || (r.status == cur.status && !r.status.Ok? && r.ok > cur.ok)
  }

  function Choose(rows: seq<Row>, n: nat): (best: int)
    requires n <= |rows|
    ensures -1 <= best < n
  {
    if n == 0 then -1 else
      var cur, r := Choose(rows, n - 1), rows[n - 1];
      if !Eligible(r) then cur
      else if cur < 0 || Displaces(r, rows[cur]) then n - 1
      else cur
  }

  /** The loop of ctComputeBest over its running best. */
  method SelectRow(rows: seq<Row>) returns (best: int)
    ensures best == Choose(rows, |rows|)
  {
    best := -1;
    for i := 0 to |rows|
      invariant best == Choose(rows, i)
    {
      var r := rows[i];
      if !Eligible(r) { continue; }
      if best < 0 {
        best := i;
        continue;
      }
      if Displaces(r, rows[best]) { best := i; }
    }
  }

  /** What the selection is for: a row that carried everything beats one that was
      unstable, which beats one that was down; then speed, or echoes. */
  function Rank(r: Row): nat { match r.status case Ok => 2 case Unstable => 1 case _ => 0 }

  function Score(r: Row): real { if r.status.Ok? then r.mbps else r.ok as real }

  predicate Above(a: Row, b: Row) { Rank(a) > Rank(b) || (Rank(a) == Rank(b) && Score(a) > Score(b)) }

  predicate Settled(r: Row) { r.status.Ok? || r.status.Unstable? || r.status.Down? }

  /** Among settled rows the choice is the earliest of the highest eligible ones. */
  lemma {:induction false} ChoiceIsEarliestHighest(rows: seq<Row>, n: nat)
    requires n <= |rows| && forall i :: 0 <= i < |rows| && Eligible(rows[i]) ==> Settled(rows[i])
    ensures var best := Choose(rows, n);
      if best < 0 then forall i :: 0 <= i < n ==> !Eligible(rows[i])
      else
        && Eligible(rows[best])
        && (forall i :: 0 <= i < n && Eligible(rows[i]) ==> !Above(rows[i], rows[best]))
        && (forall i :: 0 <= i < best && Eligible(rows[i]) ==> Above(rows[best], rows[i]))
  {
    if n > 0 { ChoiceIsEarliestHighest(rows, n - 1); }
  }

  /** A row is chosen as soon as one that is not a forged one was not skipped, was tried
      and carried something. */
  lemma {:induction false} ChoiceIsEligible(rows: seq<Row>, n: nat)
    requires n <= |rows|
    ensures var best := Choose(rows, n);
      && (best < 0 <==> forall i :: 0 <= i < n ==>
            rows[i].spoof || rows[i].status.Skipped? || rows[i].tried == 0 || rows[i].ok == 0)
      && (best >= 0 ==>
            var r := rows[best]; !r.spoof && !r.status.Skipped? && r.tried > 0 && r.ok > 0)
  {
    hide Displaces;
    if n > 0 { ChoiceIsEligible(rows, n - 1); }
  }

  /** Why every row has to be settled first: a chosen row still under test is
      displaced by no unstable or failed row, however many echoes that one had. */
  lemma UnsettledRowIsKept(rows: seq<Row>, r: Row)
    requires var best := Choose(rows, |rows|); best >= 0 && rows[best].status.Testing?
    requires r.status.Unstable? || r.status.Down?
    ensures Choose(rows + [r], |rows| + 1) == Choose(rows, |rows|)
  {
    ChoosePrefix(rows, r, |rows|);
  }

  lemma {:induction false} ChoosePrefix(rows: seq<Row>, r: Row, n: nat)
    requires n <= |rows|
    ensures Choose(rows + [r], n) == Choose(rows, n)
  {
    if n > 0 { ChoosePrefix(rows, r, n - 1); }
  }

  // ---- the best of the paths ----

  datatype PathResult = PathResult(done: bool, transport: string, mbps: real, rttMs: int)

  const NO_PATH := PathResult(false, "", 0.0, 0)

  predicate Ran(p: PathResult) { p.done && p.transport != "" }

  predicate Faster(a: PathResult, b: PathResult) { a.mbps > b.mbps || (a.mbps == b.mbps && a.rttMs < b.rttMs) }

  /** ConnTestSuiteBest: the earliest of the fastest done paths, none if none ran. */
  method SuiteBest(paths: seq<PathResult>) returns (best: PathResult)
    ensures (forall i :: 0 <= i < |paths| ==> !(paths[i].done && paths[i].transport != "")) ==> best == NO_PATH
    ensures (exists i :: 0 <= i < |paths| && paths[i].done && paths[i].transport != "") ==>
      best.done && best.transport != ""
    ensures (exists i :: 0 <= i < |paths| && Ran(paths[i])) ==>
      exists b :: 0 <= b < |paths| && best == paths[b] && EarliestFastest(paths, b)
    ensures forall i :: 0 <= i < |paths| && paths[i].done && paths[i].transport != "" ==>
        paths[i].mbps <= best.mbps && (paths[i].mbps == best.mbps ==> best.rttMs <= paths[i].rttMs)
  {
    best := NO_PATH;
    ghost var at := -1;
    for i := 0 to |paths|
      invariant -1 <= at < i
      invariant at < 0 ==> best == NO_PATH && forall j :: 0 <= j < i ==> !Ran(paths[j])
      invariant at >= 0 ==> best == paths[at] && EarliestFastest(paths[..i], at)
    {
      var b := paths[i];
      ghost var before := paths[..i];
      if b.done && b.transport != "" {
        if best.transport == "" || b.mbps > best.mbps || (b.mbps == best.mbps && b.rttMs < best.rttMs) {
          best := b;
          at := i;
        }
      }
      assert paths[..i + 1] == before + [b];
    }
    assert paths[..|paths|] == paths;
  }

  ghost predicate EarliestFastest(paths: seq<PathResult>, b: nat)
  {
    && b < |paths| && Ran(paths[b])
    && (forall j :: 0 <= j < |paths| && Ran(paths[j]) ==> !Faster(paths[j], paths[b]))
    && (forall j :: 0 <= j < b && Ran(paths[j]) ==> Faster(paths[b], paths[j]))
  }

  // ---- the spread of the echoes ----

  /** PathQuality; times in nanoseconds. */
  datatype Quality = Quality(sent: nat, received: nat, low: nat, avg: nat, high: nat, jitter: nat, failed: bool)

  function Total(xs: seq<nat>): nat { if xs == [] then 0 else Total(xs[..|xs| - 1]) + xs[|xs| - 1] }

  function Apart(x: nat, y: nat): nat { if x > y then x - y else y - x }

  function Deviation(xs: seq<nat>, avg: nat): nat
  {
    if xs == [] then 0 else Deviation(xs[..|xs| - 1], avg) + Apart(xs[|xs| - 1], avg)
  }

  lemma Snoc(xs: seq<nat>, i: nat, avg: nat)
    requires i < |xs|
    ensures Total(xs[..0]) == Deviation(xs[..0], avg) == 0
    ensures Total(xs[..i + 1]) == Total(xs[..i]) + xs[i]
    ensures Deviation(xs[..i + 1], avg) == Deviation(xs[..i], avg) + Apart(xs[i], avg)
  {
    assert xs[..i + 1][..i] == xs[..i];
  }

  /** The truncated mean of n numbers with this total. */
  predicate MeanOf(n: nat, total: nat, mean: nat) { n * mean <= total < n * (mean + 1) }

  /** Go's integer quotient of a sum of durations. */
  function Mean(total: nat, n: nat): (mean: nat)
    requires n > 0
    ensures MeanOf(n, total, mean)
  {
    Q.DivMod(total, n);
    Q.MulAdd(n, total / n, 1);
    total / n
  }

  lemma MeanAtMost(n: nat, total: nat, mean: nat, bound: nat)
    requires MeanOf(n, total, mean) && total <= n * bound
    ensures mean <= bound
  {
    Q.MulAdd(n, bound, 1);
    if mean > bound { Q.MulMono(n, bound + 1, mean); }
  }

  lemma MeanAtLeast(n: nat, total: nat, mean: nat, bound: nat)
    requires MeanOf(n, total, mean) && n * bound <= total
    ensures bound <= mean
  {
    if mean < bound { Q.MulMono(n, mean + 1, bound); }
  }

  ghost predicate Within(xs: seq<nat>, low: nat, high: nat) { forall i :: 0 <= i < |xs| ==> low <= xs[i] <= high }

  lemma {:induction false} TotalWithin(xs: seq<nat>, low: nat, high: nat)
    requires Within(xs, low, high)
    ensures |xs| * low <= Total(xs) <= |xs| * high
  {
    if xs != [] {
      TotalWithin(xs[..|xs| - 1], low, high);
      assert |xs| * low == (|xs| - 1) * low + low;
      assert |xs| * high == (|xs| - 1) * high + high;
    }
  }

  lemma {:induction false} DeviationWithin(xs: seq<nat>, low: nat, avg: nat, high: nat)
    requires Within(xs, low, high) && low <= avg <= high
    ensures Deviation(xs, avg) <= |xs| * (high - low)
  {
    if xs != [] {
      var front, last := xs[..|xs| - 1], xs[|xs| - 1];
      DeviationWithin(front, low, avg, high);
      assert |xs| * (high - low) == (|xs| - 1) * (high - low) + (high - low);
    }
  }

  /** Between two bounds, the distance to the mean weighs the bounds' distances. */
  lemma Chord(x: nat, low: nat, avg: nat, high: nat)
    requires low <= x <= high && low <= avg <= high
    ensures Apart(x, avg) * (high - low) <= (high - x) * (avg - low) + (x - low) * (high - avg)
  {
    var below, above := avg - low, high - avg;
    if x <= avg {
      var a, d := x - low, avg - x;
      assert below == a + d && high - x == d + above;
      assert (d + above) * (a + d) == d * a + d * d + above * a + above * d;
      assert d * (below + above) == d * below + d * above;
      assert d * below == d * a + d * d;
      assert a * above >= 0;
    } else {
      var a, d := high - x, x - avg;
      assert above == a + d && x - low == d + below;
      assert (d + below) * (a + d) == d * a + d * d + below * a + below * d;
      assert d * (below + above) == d * below + d * above;
      assert d * above == d * a + d * d;
      assert a * below >= 0;
    }
  }

  lemma {:induction false} DeviationOnChord(xs: seq<nat>, low: nat, avg: nat, high: nat)
    requires Within(xs, low, high) && low <= avg <= high
    ensures Deviation(xs, avg) * (high - low)
         <= (|xs| * high - Total(xs)) * (avg - low) + (Total(xs) - |xs| * low) * (high - avg)
  {
    if xs != [] {
      var front, last := xs[..|xs| - 1], xs[|xs| - 1];
      DeviationOnChord(front, low, avg, high);
      Chord(last, low, avg, high);
      ChordStep(Deviation(front, avg), Apart(last, avg), high - low,
                |front| * high - Total(front), high - last, avg - low, Total(front) - |front| * low, last - low,
                  high - avg);
      hide *;
      assert |xs| * high == |front| * high + high by { Distribute(|front|, 1, high); }
      assert |xs| * low == |front| * low + low by { Distribute(|front|, 1, low); }
    }
  }

  lemma ChordStep(dev: int, apart: int, w: int, up: int, u: int, x: int, down: int, d: int, y: int)
    requires dev * w <= up * x + down * y && apart * w <= u * x + d * y
    ensures (dev + apart) * w <= (up + u) * x + (down + d) * y
  {
    Distribute(dev, apart, w);
    Distribute(up, u, x);
    Distribute(down, d, y);
  }

  lemma Distribute(a: int, b: int, c: int)
    ensures (a + b) * c == a * c + b * c
  {
  }

  /** The mean deviation is at most half the spread, give or take the truncation
      of the average: a number no echo could have had cannot be reported. */
  lemma JitterAtMostHalf(xs: seq<nat>, low: nat, avg: nat, high: nat, jitter: nat)
    requires xs != [] && Within(xs, low, high) && low <= avg <= high
    requires MeanOf(|xs|, Total(xs), avg) && MeanOf(|xs|, Deviation(xs, avg), jitter)
    ensures 2 * jitter <= (high - low) + 2
  {
    hide Total, Deviation, Within;
    var n, total, dev := |xs|, Total(xs), Deviation(xs, avg);
    if high == low {
      DeviationWithin(xs, low, avg, high);
      MeanAtMost(n, dev, jitter, 0);
    } else {
      DeviationOnChord(xs, low, avg, high);
      var r := Remainder(n, total, avg);
      AroundMean(n, low, avg, high, r);
      HalfSpread(n, avg - low, high - avg, r, jitter, dev);
    }
  }

  function Remainder(n: nat, total: nat, mean: nat): (r: nat)
    requires n > 0 && MeanOf(n, total, mean)
    ensures total == n * mean + r && r < n
  {
    Q.MulAdd(n, mean, 1);
    total - n * mean
  }

  lemma AroundMean(n: nat, low: nat, avg: nat, high: nat, r: nat)
    requires low <= avg <= high
    ensures n * high - (n * avg + r) == n * (high - avg) - r
    ensures n * avg + r - n * low == n * (avg - low) + r
  {
    Q.MulAdd(n, high - avg, avg);
    Q.MulAdd(n, avg - low, low);
  }

  lemma HalfSpread(n: nat, x: nat, y: nat, r: nat, jitter: nat, dev: nat)
    requires x + y > 0 && r < n && n * jitter <= dev
    requires dev * (x + y) <= (n * y - r) * x + (n * x + r) * y
    ensures 2 * jitter <= x + y + 2
  {
    var w := x + y;
    assert n * (jitter * w) <= n * (2 * (x * y) + y) by {
      WeightedEnds(n, x, y, r);
      Q.MulMono(w, n * jitter, dev);
      Regroup(n, jitter, w);
    }
    CancelLeft(n, jitter * w, 2 * (x * y) + y);
    Squares(x, y);
    Twice(jitter, w);
  }

  lemma Twice(jitter: nat, w: nat)
    requires w > 0 && 2 * (jitter * w) <= w * w + 2 * w
    ensures 2 * jitter <= w + 2
  {
    Distribute(w, 2, w);
    Regroup(2, jitter, w);
    Swap(w, 2 * jitter);
    Swap(w, w + 2);
    CancelLeft(w, 2 * jitter, w + 2);
  }

  lemma Swap(a: nat, b: nat)
    ensures a * b == b * a
  {
  }

  lemma Regroup(n: nat, jitter: nat, w: nat)
    ensures (n * jitter) * w == n * (jitter * w)
  {
  }

  lemma CancelLeft(n: nat, a: nat, b: nat)
    requires n > 0 && n * a <= n * b
    ensures a <= b
  {
    Q.MulAdd(n, b, 1);
    if a > b { Q.MulMono(n, b + 1, a); }
  }

  lemma WeightedEnds(n: nat, x: nat, y: nat, r: nat)
    requires r < n
    ensures (n * y - r) * x + (n * x + r) * y <= n * (2 * (x * y) + y)
  {
    var less: int := 0 - r;
    Distribute(n * y, less, x);
    Distribute(n * x, r, y);
    Q.MulMono(y, r, n);
    Distribute(less, r, x);
    Q.MulAdd(n, 2 * (x * y), y);
    Regroup(n, y, x);
    Regroup(n, x, y);
    Q.MulAdd(n, x * y, x * y);
  }

  lemma Squares(x: nat, y: nat)
    ensures 4 * (x * y) <= (x + y) * (x + y)
  {
    assert (x - y) * (x - y) >= 0;
    assert (x + y) * (x + y) - 4 * (x * y) == (x - y) * (x - y);
  }

  /** The first pass of ctQuality. */
  method Middle(rtts: seq<nat>) returns (low: nat, avg: nat, high: nat)
    requires rtts != []
    ensures low in rtts && high in rtts && Within(rtts, low, high)
    ensures MeanOf(|rtts|, Total(rtts), avg)
    ensures low <= avg <= high
  {
    hide Total, Mean, MeanOf;
    var sum := 0;
    low, high := rtts[0], 0;
    Snoc(rtts, 0, 0);
    for i := 0 to |rtts|
      invariant sum == Total(rtts[..i])
      invariant low in rtts && (i > 0 ==> high in rtts) && (i == 0 ==> high == 0)
      invariant Within(rtts[..i], low, high)
    {
      Snoc(rtts, i, 0);
      sum := sum + rtts[i];
      low := if rtts[i] < low then rtts[i] else low;
      high := if rtts[i] > high then rtts[i] else high;
    }
    assert rtts[..|rtts|] == rtts;
    avg := Mean(sum, |rtts|);
    TotalWithin(rtts, low, high);
    MeanAtLeast(|rtts|, sum, avg, low);
    MeanAtMost(|rtts|, sum, avg, high);
  }

  /** The second pass of ctQuality. */
  method SumOfDeviations(rtts: seq<nat>, avg: nat) returns (dev: nat)
    requires rtts != []
    ensures dev == Deviation(rtts, avg)
  {
    hide Deviation;
    dev := 0;
    Snoc(rtts, 0, avg);
    for i := 0 to |rtts|
      invariant dev == Deviation(rtts[..i], avg)
    {
      Snoc(rtts, i, avg);
      if rtts[i] > avg {
        dev := dev + (rtts[i] - avg);
      } else {
        dev := dev + (avg - rtts[i]);
      }
    }
    assert rtts[..|rtts|] == rtts;
  }

  /** What a measurement promises of its numbers. */
  ghost predicate Measured(q: Quality, rtts: seq<nat>)
  {
    && (rtts == [] ==> q.low == q.avg == q.high == q.jitter == 0)
    && (rtts != [] ==>
        && q.low in rtts && q.high in rtts && Within(rtts, q.low, q.high)
        && MeanOf(|rtts|, Total(rtts), q.avg)
        && MeanOf(|rtts|, Deviation(rtts, q.avg), q.jitter))
    && q.low <= q.avg <= q.high
  }

  /** ctQuality. */
  method Measure(tried: nat, ok: nat, rtts: seq<nat>) returns (q: Quality)
    ensures q.sent == tried && q.received == ok && !q.failed
    ensures Measured(q, rtts)
  {
    q := Quality(tried, ok, 0, 0, 0, 0, false);
    hide Mean, MeanOf, Total, Deviation;
    if rtts == [] { return; }
    var low, avg, high := Middle(rtts);
    var dev := SumOfDeviations(rtts, avg);
    q := Quality(tried, ok, low, avg, high, Mean(dev, |rtts|), false);
  }

  lemma JitterWithinSpread(q: Quality, rtts: seq<nat>)
    requires Measured(q, rtts)
    ensures q.jitter <= q.high - q.low && 2 * q.jitter <= (q.high - q.low) + 2
  {
    if rtts != [] {
      var n := |rtts|;
      DeviationWithin(rtts, q.low, q.avg, q.high);
      MeanAtMost(n, Deviation(rtts, q.avg), q.jitter, q.high - q.low);
      JitterAtMostHalf(rtts, q.low, q.avg, q.high, q.jitter);
    }
  }

  // ---- the timers ----

  const SECOND: nat := 1_000_000_000

  /** LossPercent, times `sent`: the comparison with 2% without the division. */
  predicate Lossy(q: Quality) { q.sent != 0 && 100 * (q.sent - q.received) >= 2 * q.sent }

  predicate Usable(q: Quality) { !q.failed && q.received >= 2 }

  datatype Timers = Timers(keepAlive: nat, heartbeat: nat)

  /** The longest silence the timers have to sit out. */
  function Worst(q: Quality): nat { (q.high + q.jitter) * if Lossy(q) then 2 else 1 }

  /** RecommendKeepAlive. The heartbeat outlasts the worst silence exactly when
      the cap lets it. */
  method RecommendKeepAlive(q: Quality) returns (t: Timers)
    ensures q.failed || q.received < 2 ==> t == Timers(75, 40)
    ensures !q.failed && q.received >= 2 ==>
      var lossy := q.sent > 0 && 100 * (q.sent - q.received) >= 2 * q.sent;
      var seconds := (if lossy then 2 * (q.high + q.jitter) else q.high + q.jitter) / 1_000_000_000;
      t.heartbeat == if seconds < 5 then 10 else if seconds > 55 then 60 else seconds + 5
    ensures Usable(q) ==> 10 <= t.heartbeat <= 60 && t.keepAlive == 2 * t.heartbeat
    ensures Usable(q) ==> (t.heartbeat * SECOND > Worst(q) <==> Worst(q) < 60 * SECOND)
    ensures Usable(q) && 10 < t.heartbeat < 60 ==> (t.heartbeat - 5) * SECOND <= Worst(q) < (t.heartbeat - 4) * SECOND
    ensures Usable(q) && t.heartbeat == 10 ==> Worst(q) < 6 * SECOND
    ensures Usable(q) && t.heartbeat == 60 ==> Worst(q) >= 55 * SECOND
  {
    if !Usable(q) { return Timers(75, 40); }
    var worst := q.high + q.jitter;
    if Lossy(q) {
      worst := worst * 2;
    }
    var heartbeat := worst / SECOND + 5;
    if heartbeat < 10 {
      heartbeat := 10;
    } else if heartbeat > 60 {
      heartbeat := 60;
    }
    t := Timers(heartbeat * 2, heartbeat);
  }

  /** The heartbeat outlasts this wait with the jitter on top, doubled when lossy. */
  predicate Outlasts(t: Timers, q: Quality, wait: nat)
  {
    t.heartbeat * SECOND > (wait + q.jitter) * if Lossy(q) then 2 else 1
  }

  /** From the echoes to the timers. On a usable path no echo that was measured
      would have been taken for a dead peer, jitter and a lost heartbeat included,
      if and only if the path is not too slow for the cap. */
  method TimersFor(tried: nat, ok: nat, rtts: seq<nat>) returns (q: Quality, t: Timers)
    ensures Measured(q, rtts) && q.sent == tried && q.received == ok
    ensures ok < 2 ==> t == Timers(75, 40)
    ensures ok >= 2 && rtts != [] ==>
      ((forall i :: 0 <= i < |rtts| ==> Outlasts(t, q, rtts[i])) <==> Worst(q) < 60 * SECOND)
    ensures ok >= 2 && rtts != [] ==>
      var lost := if tried > 0 && 100 * (tried - ok) >= 2 * tried then 2 else 1;
      ((forall i :: 0 <= i < |rtts| ==> t.heartbeat * 1_000_000_000 > (rtts[i] + q.jitter) * lost)
       <==> (q.high + q.jitter) * lost < 60_000_000_000)
  {
    hide Measured;
    q := Measure(tried, ok, rtts);
    t := RecommendKeepAlive(q);
    if rtts != [] {
      var top := Slowest(q, rtts);
      forall i | 0 <= i < |rtts| && Outlasts(t, q, rtts[top])
        ensures Outlasts(t, q, rtts[i])
      {
        SlowestBounds(q, rtts, i);
      }
    }
  }

  lemma Slowest(q: Quality, rtts: seq<nat>) returns (top: nat)
    requires Measured(q, rtts) && rtts != []
    ensures top < |rtts| && rtts[top] == q.high
  {
    top :| 0 <= top < |rtts| && rtts[top] == q.high;
  }

  lemma SlowestBounds(q: Quality, rtts: seq<nat>, i: nat)
    requires Measured(q, rtts) && i < |rtts|
    ensures rtts[i] <= q.high
  {
  }
}
