/** The speed test's byte streams: verifying a repeated payload however it is cut
    into reads, and counting an upload from the remote side's acknowledgements. */
module Speed {
  import Q = Quota

  type Byte = b: nat | b < 256
  type Bytes = seq<Byte>

  // ---- verifying a stream ----

  /** Where byte k of the stream stands in the payload. */
  function Wrap(k: nat, len: nat): (r: nat)
    requires len > 0
    ensures r < len && (k < len ==> r == k)
  {
    k % len
  }

  /** The first n bytes are the payload over and over. */
  ghost predicate Repeats(stream: Bytes, payload: Bytes, n: nat)
    requires |payload| > 0 && n <= |stream|
  {
    forall k :: 0 <= k < n ==> stream[k] == payload[Wrap(k, |payload|)]
  }

  lemma WrapAround(n: nat, len: nat, i: nat)
    requires len > 0 && Wrap(n, len) + i <= len
    ensures Wrap(n, len) + i < len ==> Wrap(n + i, len) == Wrap(n, len) + i
    ensures Wrap(n, len) + i == len ==> Wrap(n + i, len) == 0
  {
    var q, r := n / len, n % len;
    Q.DivMod(n, len);
    if r + i < len {
      Q.DivUnique(n + i, len, q, r + i);
    } else {
      Q.MulAdd(len, q, 1);
      Q.DivUnique(n + i, len, q + 1, 0);
    }
    Q.DivMod(n + i, len);
  }

  /** A stretch inside one copy of the payload stands in a row there. */
  ghost predicate InARow(counted: nat, pos: nat, n: nat, len: nat)
    requires len > 0
  {
    forall k :: counted <= k < counted + n ==> Wrap(k, len) == pos + (k - counted)
  }

  lemma StretchInARow(counted: nat, n: nat, len: nat)
    requires len > 0 && Wrap(counted, len) + n <= len
    ensures InARow(counted, Wrap(counted, len), n, len)
  {
    forall k | counted <= k < counted + n ensures Wrap(k, len) == Wrap(counted, len) + (k - counted) {
      WrapAround(counted, len, k - counted);
    }
  }

  // ---- how the reads cut it ----

  function Min(a: nat, b: nat): nat { if a < b then a else b }

  /** Where the stream stands after r reads of these sizes, were none to differ: a
      read never crosses the end of the payload, nor of the total bytes there are. */
  function Reached(total: nat, len: nat, sizes: seq<nat>, r: nat): (p: nat)
    requires len > 0 && r <= |sizes|
    ensures p <= total
  {
    if r == 0 then 0
    else
      var p := Reached(total, len, sizes, r - 1);
      p + Min(sizes[r - 1], Min(len - Wrap(p, len), total - p))
  }

  /** Bytes p to q are what the payload has there. */
  ghost predicate Same(stream: Bytes, payload: Bytes, p: nat, q: nat)
    requires |payload| > 0 && p <= q <= |stream|
  {
    forall k :: p <= k < q ==> stream[k] == payload[Wrap(k, |payload|)]
  }

  /** Read r holds what the payload has there. */
  ghost predicate Matches(stream: Bytes, payload: Bytes, sizes: seq<nat>, r: nat)
    requires |payload| > 0 && r < |sizes|
  {
    Same(stream, payload, Reached(|stream|, |payload|, sizes, r), Reached(|stream|, |payload|, sizes, r + 1))
  }

  /** The running totals after r reads: where each read that held anything ended. */
  function Totals(total: nat, len: nat, sizes: seq<nat>, r: nat): seq<nat>
    requires len > 0 && r <= |sizes|
  {
    if r == 0 then []
    else
      var p, q := Reached(total, len, sizes, r - 1), Reached(total, len, sizes, r);
      Totals(total, len, sizes, r - 1) + if q > p then [q] else []
  }

  datatype End = Closed | Different | Refused

  /** ctSpeedReceive: the stream arrives in reads of the given sizes. Exactly the
      whole reads before the first that differs are counted; the caller's count
      accepts the first `accepted` of them and refuses the next. */
  method Receive(stream: Bytes, sizes: seq<nat>, payload: Bytes, accepted: nat)
    returns (counted: nat, end: End, totals: seq<nat>, done: nat)
    requires |payload| > 0
    ensures done <= |sizes| && forall r :: 0 <= r < done ==> Matches(stream, payload, sizes, r)
    ensures counted == Reached(|stream|, |payload|, sizes, done) && totals == Totals(|stream|, |payload|, sizes, done)
    ensures end == Closed ==> done == |sizes| && |totals| <= accepted
    ensures end == Different ==> done < |sizes| && !Matches(stream, payload, sizes, done) && |totals| <= accepted
    ensures end == Refused ==>
      done > 0 && |totals| == accepted + 1 && |Totals(|stream|, |payload|, sizes, done - 1)| == accepted
  {
    hide Wrap, Matches, Same, Reached, Repeats;
    ReachedStart(|stream|, |payload|, sizes);
    counted, totals, done := 0, [], 0;
    var pos := 0;
    WrapAround(0, |payload|, 0);
    while done < |sizes|
      invariant done <= |sizes| && forall r :: 0 <= r < done ==> Matches(stream, payload, sizes, r)
      invariant counted == Reached(|stream|, |payload|, sizes, done)
      invariant totals == Totals(|stream|, |payload|, sizes, done) && |totals| <= accepted
      invariant pos == Wrap(counted, |payload|)
    {
      var n := Min(sizes[done], Min(|payload| - pos, |stream| - counted));
      SliceMatches(stream, payload, sizes, done);
      if n > 0 {
        if stream[counted..counted + n] != payload[pos..pos + n] {
          return counted, Different, totals, done;
        }
        WrapAround(counted, |payload|, n);
        WrapAround(0, |payload|, pos + n);
        counted := counted + n;
        totals := totals + [counted];
        if |totals| > accepted {
          return counted, Refused, totals, done + 1;
        }
        pos := Wrap(pos + n, |payload|);
      }
      done := done + 1;
    }
    return counted, Closed, totals, done;
  }

  lemma ReachedStart(total: nat, len: nat, sizes: seq<nat>)
    requires len > 0
    ensures Reached(total, len, sizes, 0) == 0 && Totals(total, len, sizes, 0) == []
  {
  }

  /** Comparing two slices is comparing the bytes. */
  lemma SliceSame(stream: Bytes, payload: Bytes, p: nat, pos: nat, n: nat)
    requires |payload| > 0 && p + n <= |stream| && pos + n <= |payload| && InARow(p, pos, n, |payload|)
    ensures Same(stream, payload, p, p + n) <==> stream[p..p + n] == payload[pos..pos + n]
  {
    hide Wrap;
    var a, b := stream[p..p + n], payload[pos..pos + n];
    if Same(stream, payload, p, p + n) {
      forall i | 0 <= i < n ensures a[i] == b[i] {
        var k := p + i;
        assert Wrap(k, |payload|) == pos + i && stream[k] == payload[Wrap(k, |payload|)];
      }
    }
    if a == b {
      forall k | p <= k < p + n ensures stream[k] == payload[Wrap(k, |payload|)] { assert a[k - p] == b[k - p]; }
    }
  }

  /** So it is what the read calls for. */
  lemma SliceMatches(stream: Bytes, payload: Bytes, sizes: seq<nat>, r: nat)
    requires |payload| > 0 && r < |sizes|
    ensures var p := Reached(|stream|, |payload|, sizes, r); var pos := Wrap(p, |payload|);
            var n := Min(sizes[r], Min(|payload| - pos, |stream| - p));
            && Reached(|stream|, |payload|, sizes, r + 1) == p + n
            && (Matches(stream, payload, sizes, r) <==> stream[p..p + n] == payload[pos..pos + n])
  {
    hide Wrap, Same, InARow;
    var p := Reached(|stream|, |payload|, sizes, r);
    var pos := Wrap(p, |payload|);
    var n := Min(sizes[r], Min(|payload| - pos, |stream| - p));
    StretchInARow(p, n, |payload|);
    SliceSame(stream, payload, p, pos, n);
  }

  /** What is counted repeats the payload. */
  lemma {:induction false} CountedRepeats(stream: Bytes, payload: Bytes, sizes: seq<nat>, r: nat)
    requires |payload| > 0 && r <= |sizes| && forall i :: 0 <= i < r ==> Matches(stream, payload, sizes, i)
    ensures Repeats(stream, payload, Reached(|stream|, |payload|, sizes, r))
  {
    hide Wrap;
    if r > 0 {
      CountedRepeats(stream, payload, sizes, r - 1);
      assert Matches(stream, payload, sizes, r - 1);
    }
  }

  lemma {:induction false} ReachedRises(total: nat, len: nat, sizes: seq<nat>, q: nat, r: nat)
    requires len > 0 && q <= r <= |sizes|
    ensures Reached(total, len, sizes, q) <= Reached(total, len, sizes, r)
  {
    if q < r { ReachedRises(total, len, sizes, q, r - 1); }
  }

  lemma {:induction false} ReadsProgress(total: nat, len: nat, sizes: seq<nat>, r: nat)
    requires len > 0 && r <= |sizes| && forall i :: 0 <= i < r ==> sizes[i] > 0
    ensures Reached(total, len, sizes, r) == total || Reached(total, len, sizes, r) >= r
  {
    if r > 0 { ReadsProgress(total, len, sizes, r - 1); }
  }

  /** A genuine stream never differs, and enough reads count all of it. */
  lemma GenuineIsCounted(stream: Bytes, payload: Bytes, sizes: seq<nat>)
    requires |payload| > 0 && Repeats(stream, payload, |stream|)
    ensures forall r :: 0 <= r < |sizes| ==> Matches(stream, payload, sizes, r)
    ensures |sizes| >= |stream| && (forall i :: 0 <= i < |sizes| ==> sizes[i] > 0)
            ==> Reached(|stream|, |payload|, sizes, |sizes|) == |stream|
  {
    if forall i :: 0 <= i < |sizes| ==> sizes[i] > 0 { ReadsProgress(|stream|, |payload|, sizes, |sizes|); }
  }

  // ---- acknowledgements on the wire ----

  const NONE_VERIFIED: nat := 0xFFFF_FFFF_FFFF_FFFF

  /** The low len bytes of n, most significant first. */
  function BigEndian(n: nat, len: nat): (b: Bytes)
    ensures |b| == len
  {
    if len == 0 then [] else BigEndian(n / 256, len - 1) + [n % 256]
  }

  function FromBigEndian(b: Bytes): nat
  {
    if b == [] then 0 else FromBigEndian(b[..|b| - 1]) * 256 + b[|b| - 1]
  }

  lemma {:induction false} BigEndianReadsBack(n: nat, len: nat)
    requires n < Q.Pow(256, len)
    ensures FromBigEndian(BigEndian(n, len)) == n
  {
    if len > 0 {
      BigEndianReadsBack(n / 256, len - 1);
      assert BigEndian(n, len)[..len - 1] == BigEndian(n / 256, len - 1);
    }
  }

  lemma WordFits()
    ensures Q.Pow(256, 8) == NONE_VERIFIED + 1
  {
    assert Q.Pow(256, 4) == 4294967296 by { assert Q.Pow(256, 2) == 65536; }
    assert Q.Pow(256, 6) == 281474976710656 by { assert Q.Pow(256, 5) == 1099511627776; }
    assert Q.Pow(256, 7) == 72057594037927936;
  }

  /** The first byte of a number is its highest. */
  lemma {:induction false} HighestFirst(top: nat, rest: Bytes)
    requires top < 256
    ensures FromBigEndian([top] + rest) == top * Q.Pow(256, |rest|) + FromBigEndian(rest)
    decreases |rest|
  {
    if rest == [] {
      assert [top] + rest == [top];
    } else {
      var front := rest[..|rest| - 1];
      HighestFirst(top, front);
      assert ([top] + rest)[..|rest|] == [top] + front;
      var p := Q.Pow(256, |front|);
      assert (top * p) * 256 == top * (256 * p);
    }
  }

  function Wire(acks: seq<nat>): (b: Bytes)
    ensures |b| == 8 * |acks|
  {
    if acks == [] then [] else Wire(acks[..|acks| - 1]) + BigEndian(acks[|acks| - 1], 8)
  }

  function Frame(b: Bytes, i: nat): nat
    requires 8 * i + 8 <= |b|
  {
    FromBigEndian(b[8 * i..8 * i + 8])
  }

  lemma {:induction false} WireFrames(acks: seq<nat>, i: nat)
    requires i < |acks| && forall j :: 0 <= j < |acks| ==> acks[j] <= NONE_VERIFIED
    ensures Frame(Wire(acks), i) == acks[i]
  {
    var front := acks[..|acks| - 1];
    if i == |acks| - 1 {
      WordFits();
      BigEndianReadsBack(acks[i], 8);
      assert Wire(acks)[8 * i..8 * i + 8] == BigEndian(acks[i], 8);
    } else {
      WireFrames(front, i);
      assert Wire(acks)[8 * i..8 * i + 8] == Wire(front)[8 * i..8 * i + 8];
    }
  }

  /** Any prefix of the acknowledgements that is long enough holds frame i whole. */
  lemma PrefixFrame(sent: seq<nat>, arrived: Bytes, i: nat)
    requires forall j :: 0 <= j < |sent| ==> sent[j] <= NONE_VERIFIED
    requires arrived <= Wire(sent) && 8 * i + 8 <= |arrived|
    ensures i < |sent| && Frame(arrived, i) == sent[i]
  {
    hide Wire, FromBigEndian;
    WireFrames(sent, i);
    assert arrived[8 * i..8 * i + 8] == Wire(sent)[8 * i..8 * i + 8];
  }

  // ---- the client's count ----

  /** What the client may conclude from the bytes that arrived: its count is the
      value of the last whole frame it took, those values never fell and none was
      the failure marker; it stopped for want of a whole frame, or failed on one
      that fell or was the marker. */
  ghost predicate Counts(arrived: Bytes, received: nat, failed: bool, frames: nat)
  {
    && 8 * frames <= |arrived|
    && received == (if frames == 0 then 0 else Frame(arrived, frames - 1))
    && (forall i :: 0 <= i < frames ==> Frame(arrived, i) != NONE_VERIFIED)
    && (forall i :: 0 < i < frames ==> Frame(arrived, i - 1) <= Frame(arrived, i))
    && if failed
       then 8 * frames + 8 <= |arrived| && (Frame(arrived, frames) == NONE_VERIFIED ||
           Frame(arrived, frames) < received)
       else |arrived| < 8 * frames + 8
  }

  /** The upload loop on the bytes that arrived. */
  method CountUpload(arrived: Bytes) returns (received: nat, failed: bool, frames: nat)
    ensures Counts(arrived, received, failed, frames)
  {
    received, frames := 0, 0;
    var prior := 0;
    while 8 * frames + 8 <= |arrived|
      invariant 8 * frames <= |arrived| && prior == received
      invariant received == if frames == 0 then 0 else Frame(arrived, frames - 1)
      invariant forall i :: 0 <= i < frames ==> Frame(arrived, i) != NONE_VERIFIED
      invariant forall i :: 0 < i < frames ==> Frame(arrived, i - 1) <= Frame(arrived, i)
      decreases |arrived| - 8 * frames
    {
      var n := FromBigEndian(arrived[8 * frames..8 * frames + 8]);
      if n == NONE_VERIFIED || n < prior {
        return received, true, frames;
      }
      received := received + (n - prior);
      prior := n;
      frames := frames + 1;
    }
    return received, false, frames;
  }

  ghost predicate Rising(acks: seq<nat>) { forall i, j :: 0 <= i < j < |acks| ==> acks[i] < acks[j] }

  /** The remote acknowledged these totals and then sent the failure marker; some
      prefix of that reached the client. Whatever the prefix, the client's count is
      the last total that arrived whole, so it never exceeds what was verified, and
      the only failure it can see is the marker after every total has arrived. */
  lemma UploadCountsVerified(totals: seq<nat>, arrived: Bytes, received: nat, failed: bool, frames: nat)
    requires Rising(totals) && forall i :: 0 <= i < |totals| ==> totals[i] < NONE_VERIFIED
    requires arrived <= Wire(totals + [NONE_VERIFIED])
    requires Counts(arrived, received, failed, frames)
    ensures frames <= |totals| && received == (if frames == 0 then 0 else totals[frames - 1])
    ensures totals != [] ==> received <= totals[|totals| - 1]
    ensures failed <==> |arrived| == 8 * (|totals| + 1)
    ensures failed ==> frames == |totals|
    ensures !failed ==> frames == |arrived| / 8
  {
    hide Frame, Wire;
    var sent := totals + [NONE_VERIFIED];
    forall i | 0 <= i && 8 * i + 8 <= |arrived| ensures i < |sent| && Frame(arrived, i) == sent[i] {
      PrefixFrame(sent, arrived, i);
    }
  }

  /** The totals a receiver reports rise to what it has counted. */
  lemma {:induction false} TotalsRise(total: nat, len: nat, sizes: seq<nat>, r: nat)
    requires len > 0 && r <= |sizes|
    ensures var ts := Totals(total, len, sizes, r); var p := Reached(total, len, sizes, r);
            && Rising(ts)
            && (if ts == [] then p == 0 else ts[|ts| - 1] == p)
            && forall i :: 0 <= i < |ts| ==> 0 < ts[i] <= p && Ends(total, len, sizes, r, ts[i])
  {
    hide Wrap;
    if r > 0 {
      TotalsRise(total, len, sizes, r - 1);
      var ts, us := Totals(total, len, sizes, r), Totals(total, len, sizes, r - 1);
      ReachedRises(total, len, sizes, r - 1, r);
      forall i | 0 <= i < |us| ensures Ends(total, len, sizes, r, us[i]) {
        var q :| 0 <= q <= r - 1 && us[i] == Reached(total, len, sizes, q);
        assert q <= r && us[i] == Reached(total, len, sizes, q);
      }
      assert Reached(total, len, sizes, r) == Reached(total, len, sizes, r);
      assert Ends(total, len, sizes, r, Reached(total, len, sizes, r));
    }
  }

  /** n is where one of the first r reads ended. */
  ghost predicate Ends(total: nat, len: nat, sizes: seq<nat>, r: nat, n: nat)
    requires len > 0 && r <= |sizes|
  {
    exists q :: 0 <= q <= r && n == Reached(total, len, sizes, q)
  }

  /** An upload end to end. The remote reads the stream up to its end or the first
      difference, acknowledging each total, and sends the marker; whatever prefix
      of that arrives, the client counts a repetition of the payload that ends with
      a read the remote verified. */
  lemma UploadEndToEnd(stream: Bytes, payload: Bytes, sizes: seq<nat>, done: nat,
                       arrived: Bytes, received: nat, failed: bool, frames: nat)
    requires |payload| > 0 && |stream| < NONE_VERIFIED && done <= |sizes|
    requires forall r :: 0 <= r < done ==> Matches(stream, payload, sizes, r)
    requires arrived <= Wire(Totals(|stream|, |payload|, sizes, done) + [NONE_VERIFIED])
    requires Counts(arrived, received, failed, frames)
    ensures received <= Reached(|stream|, |payload|, sizes, done) && Repeats(stream, payload, received)
    ensures Ends(|stream|, |payload|, sizes, done, received)
    ensures failed ==> received == Reached(|stream|, |payload|, sizes, done)
  {
    hide Wrap, Wire, Counts, Matches, Totals, Reached, Same, Repeats, Rising;
    var len, total := |payload|, |stream|;
    TotalsRise(total, len, sizes, done);
    CountedRepeats(stream, payload, sizes, done);
    var ts := Totals(total, len, sizes, done);
    UploadCountsVerified(ts, arrived, received, failed, frames);
    ReachedStart(total, len, sizes);
    RepeatsLess(stream, payload, received, Reached(total, len, sizes, done));
  }

  lemma RepeatsLess(stream: Bytes, payload: Bytes, m: nat, n: nat)
    requires |payload| > 0 && m <= n <= |stream| && Repeats(stream, payload, n)
    ensures Repeats(stream, payload, m)
  {
  }

  // ---- several streams, one total ----

  /** The shared counters of one direction. Each stream adds every count to both,
      one after the other: a download to its own counter first, an upload to the
      total first. owed is what a stream has yet to add to the second. */
  datatype Counters = Counters(total: nat, streams: seq<nat>, owed: seq<nat>)

  datatype Count = First(i: nat, n: nat) | Second(i: nat)

  predicate CountEnabled(c: Counters, e: Count)
  {
    |c.streams| == |c.owed| && e.i < |c.owed| && (e.First? ==> c.owed[e.i] == 0)
  }

  function Apply(download: bool, c: Counters, e: Count): Counters
    requires CountEnabled(c, e)
  {
    match e
    case First(i, n) =>
      (if download then c.(streams := c.streams[i := c.streams[i] + n])
        else c.(total := c.total + n)).(owed := c.owed[i := n])
    case Second(i) =>
      (if download then c.(total := c.total + c.owed[i])
        else c.(streams := c.streams[i := c.streams[i] + c.owed[i]])).(owed := c.owed[i := 0])
  }

  function Sum(s: seq<nat>): nat { if s == [] then 0 else Sum(s[..|s| - 1]) + s[|s| - 1] }

  lemma {:induction false} SumUpdate(s: seq<nat>, i: nat, v: nat)
    requires i < |s|
    ensures Sum(s[i := v]) + s[i] == Sum(s) + v
  {
    var t := s[i := v];
    if i == |s| - 1 {
      assert t[..i] == s[..i];
    } else {
      SumUpdate(s[..|s| - 1], i, v);
      assert t[..|s| - 1] == s[..|s| - 1][i := v];
    }
  }

  predicate Balanced(download: bool, c: Counters)
  {
    if download then c.total + Sum(c.owed) == Sum(c.streams) else c.total == Sum(c.streams) + Sum(c.owed)
  }

  /** However the streams' additions interleave, the total and the sum of the
      streams differ by exactly what is still on its way to the one added second. */
  lemma {:induction false} TotalIsSum(download: bool, cs: seq<Counters>, es: seq<Count>, n: nat)
    requires |cs| == |es| + 1 && n < |cs|
    requires cs[0].total == 0 && Sum(cs[0].streams) == 0 && Sum(cs[0].owed) == 0
    requires forall k :: 0 <= k < |es| ==> CountEnabled(cs[k], es[k]) && cs[k + 1] == Apply(download, cs[k], es[k])
    ensures Balanced(download, cs[n])
    decreases n
  {
    if n > 0 {
      TotalIsSum(download, cs, es, n - 1);
      ApplyBalances(download, cs[n - 1], es[n - 1]);
    }
  }

  lemma ApplyBalances(download: bool, c: Counters, e: Count)
    requires CountEnabled(c, e) && Balanced(download, c)
    ensures Balanced(download, Apply(download, c, e))
  {
    hide Sum;
    match e
    case First(i, n) => SumUpdate(c.owed, i, n); SumUpdate(c.streams, i, c.streams[i] + n);
    case Second(i) => SumUpdate(c.owed, i, 0); SumUpdate(c.streams, i, c.streams[i] + c.owed[i]);
  }
}
