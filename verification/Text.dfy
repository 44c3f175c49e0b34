/** The text operations the modelled code leans on: decimal numbers, cutting and
    splitting at a separator, trimming, and breaking a line into fields. */
module Text {

  datatype Option<+T> = None | Some(value: T)

  // ---- decimal numbers ----

  predicate IsDigit(c: char) { '0' <= c <= '9' }

  predicate AllDigits(s: string) { forall i :: 0 <= i < |s| ==> IsDigit(s[i]) }

  function DigitChar(d: nat): (c: char)
    requires d < 10
    ensures IsDigit(c) && DigitOf(c) == d
  {
    '0' + d as char
  }

  function DigitOf(c: char): (d: nat)
    requires IsDigit(c)
    ensures d < 10
  {
    (c - '0') as nat
  }

  /** strconv.Itoa on a non-negative number. */
  function Decimal(n: nat): (s: string)
    ensures |s| > 0 && AllDigits(s)
  {
    if n < 10 then [DigitChar(n)] else Decimal(n / 10) + [DigitChar(n % 10)]
  }

  function DigitsValue(s: string): nat
    requires AllDigits(s)
  {
    if s == [] then 0 else 10 * DigitsValue(s[..|s| - 1]) + DigitOf(s[|s| - 1])
  }

  lemma {:induction false} DecimalReadsBack(n: nat)
    ensures DigitsValue(Decimal(n)) == n
    ensures Decimal(n)[0] == '0' <==> n == 0
    ensures n == 0 ==> |Decimal(n)| == 1
  {
    if n >= 10 {
      DecimalReadsBack(n / 10);
      assert Decimal(n)[..|Decimal(n)| - 1] == Decimal(n / 10);
    }
  }

  const INT_LIMIT: int := 0x8000_0000_0000_0000

  /** strconv.Atoi: an optional sign, at least one digit, and a 64-bit range. */
  function Atoi(s: string): (r: Option<int>)
  {
    var negative := |s| > 0 && s[0] == '-';
    var body := if |s| > 0 && (s[0] == '-' || s[0] == '+') then s[1..] else s;
    if body == [] || !AllDigits(body) then None
    else
      var m: int := DigitsValue(body);
      var v := if negative then -m else m;
      if -INT_LIMIT <= v < INT_LIMIT then Some(v) else None
  }

  lemma AtoiUndoesDecimal(n: nat)
    requires n < INT_LIMIT
    ensures Atoi(Decimal(n)) == Some(n)
  {
    DecimalReadsBack(n);
    assert IsDigit(Decimal(n)[0]);
  }

  // ---- searching, cutting, splitting ----

  /** The position of the first c at or after which s is cut; |s| when there is none. */
  function IndexOf(s: string, c: char): (i: nat)
    ensures i <= |s|
    ensures c !in s[..i]
    ensures i < |s| ==> s[i] == c
  {
    if s == [] || s[0] == c then 0 else 1 + IndexOf(s[1..], c)
  }

  lemma {:induction false} IndexOfPrefix(p: string, c: char, q: string)
    requires c !in p
    ensures IndexOf(p + [c] + q, c) == |p|
  {
    if p != [] {
      IndexOfPrefix(p[1..], c, q);
      assert (p + [c] + q)[1..] == p[1..] + [c] + q;
    }
  }

  /** strings.Cut at a single character: before, after and whether it was there. */
  function Cut(s: string, c: char): (string, string, bool)
  {
    var i := IndexOf(s, c);
    if i < |s| then (s[..i], s[i + 1..], true) else (s, "", false)
  }

  lemma CutJoined(p: string, c: char, q: string)
    requires c !in p
    ensures Cut(p + [c] + q, c) == (p, q, true)
  {
    IndexOfPrefix(p, c, q);
    var s := p + [c] + q;
    assert s[..|p|] == p && s[|p| + 1..] == q;
  }

  lemma CutDigits(d: string, c: char)
    requires AllDigits(d) && !IsDigit(c)
    ensures c !in d && Cut(d, c) == (d, "", false)
  {
    assert IndexOf(d, c) == |d|;
  }

  /** strings.Split at a single character. */
  function Split(s: string, c: char): (parts: seq<string>)
    ensures |parts| >= 1
    ensures forall k :: 0 <= k < |parts| ==> c !in parts[k]
    decreases |s|
  {
    var i := IndexOf(s, c);
    if i < |s| then [s[..i]] + Split(s[i + 1..], c) else [s]
  }

  /** strings.Join with a single character. */
  function Join(parts: seq<string>, c: char): string
  {
    if parts == [] then ""
    else if |parts| == 1 then parts[0]
    else parts[0] + [c] + Join(parts[1..], c)
  }

  lemma JoinOne(parts: seq<string>, c: char)
    requires |parts| == 1
    ensures Join(parts, c) == parts[0]
  {
  }

  lemma {:induction false} SplitUndoesJoin(parts: seq<string>, c: char)
    requires |parts| >= 1
    requires forall k :: 0 <= k < |parts| ==> c !in parts[k]
    ensures Split(Join(parts, c), c) == parts
  {
    if |parts| > 1 {
      CutJoined(parts[0], c, Join(parts[1..], c));
      SplitUndoesJoin(parts[1..], c);
    }
  }

  // ---- trimming and fields ----

  /** unicode.IsSpace. */
  predicate IsSpace(c: char) {
    c == '\t' || c == '\n' || c == '\U{0B}' || c == '\U{0C}' || c == '\r' || c == ' '
    || c == '\U{85}' || c == '\U{A0}' || c == '\U{1680}' || '\U{2000}' <= c <= '\U{200A}'
    || c == '\U{2028}' || c == '\U{2029}' || c == '\U{202F}' || c == '\U{205F}' || c == '\U{3000}'
  }

  function TrimLeft(s: string): string
  {
    if s != [] && IsSpace(s[0]) then TrimLeft(s[1..]) else s
  }

  function TrimRight(s: string): string
  {
    if s != [] && IsSpace(s[|s| - 1]) then TrimRight(s[..|s| - 1]) else s
  }

  /** strings.TrimSpace. */
  function TrimSpace(s: string): string { TrimRight(TrimLeft(s)) }

  /** Text that trimming leaves alone. */
  predicate Trimmed(s: string) {
    s == [] || (!IsSpace(s[0]) && !IsSpace(s[|s| - 1]))
  }

  lemma TrimDigits(d: string)
    requires AllDigits(d)
    ensures TrimSpace(d) == d
  {
    assert d != "" ==> !IsSpace(d[0]) && !IsSpace(d[|d| - 1]) by {
      assert d != "" ==> IsDigit(d[0]) && IsDigit(d[|d| - 1]);
    }
    assert TrimLeft(d) == d;
  }

  lemma {:induction false} TrimRightKeepsHead(s: string)
    ensures TrimRight(s) <= s
    ensures TrimRight(s) == [] || !IsSpace(TrimRight(s)[|TrimRight(s)| - 1])
  {
    if s != [] && IsSpace(s[|s| - 1]) { TrimRightKeepsHead(s[..|s| - 1]); }
  }

  lemma {:induction false} TrimLeftShape(s: string)
    ensures TrimLeft(s) == [] || !IsSpace(TrimLeft(s)[0])
    ensures forall c :: c in TrimLeft(s) ==> c in s
  {
    if s != [] && IsSpace(s[0]) { TrimLeftShape(s[1..]); }
  }

  lemma TrimSpaceShape(s: string)
    ensures Trimmed(TrimSpace(s))
    ensures forall c :: c in TrimSpace(s) ==> c in s
    ensures Trimmed(s) ==> TrimSpace(s) == s
    ensures TrimSpace(TrimSpace(s)) == TrimSpace(s)
  {
    TrimLeftShape(s);
    TrimRightKeepsHead(TrimLeft(s));
  }

  lemma {:induction false} TrimLeftCut(s: string, c: char)
    requires !IsSpace(c)
    ensures Cut(TrimLeft(s), c).0 == TrimLeft(Cut(s, c).0)
  {
    if s != [] && IsSpace(s[0]) {
      TrimLeftCut(s[1..], c);
      assert Cut(s, c).0 == [s[0]] + Cut(s[1..], c).0;
      assert Cut(s, c).0[1..] == Cut(s[1..], c).0;
    }
  }

  lemma {:induction false} IndexOfSnoc(s: string, x: char, c: char)
    requires x != c
    ensures IndexOf(s + [x], c) == if IndexOf(s, c) < |s| then IndexOf(s, c) else |s| + 1
  {
    if s != [] && s[0] != c {
      assert (s + [x])[1..] == s[1..] + [x];
      IndexOfSnoc(s[1..], x, c);
    }
  }

  lemma {:induction false} TrimRightCut(s: string, c: char)
    requires !IsSpace(c)
    ensures TrimRight(Cut(TrimRight(s), c).0) == TrimRight(Cut(s, c).0)
  {
    if s != [] && IsSpace(s[|s| - 1]) {
      var p := s[..|s| - 1];
      assert s == p + [s[|s| - 1]];
      TrimRightCut(p, c);
      IndexOfSnoc(p, s[|s| - 1], c);
      assert TrimRight(s) == TrimRight(p);
      if IndexOf(p, c) < |p| {
        assert Cut(s, c).0 == Cut(p, c).0;
      } else {
        assert Cut(s, c).0 == s && Cut(p, c).0 == p;
      }
    }
  }

  /** Trimming a text first makes no difference to the trimmed part before a cut. */
  lemma TrimBeforeCut(s: string, c: char)
    requires !IsSpace(c)
    ensures TrimSpace(Cut(TrimSpace(s), c).0) == TrimSpace(Cut(s, c).0)
  {
    TrimLeftCut(s, c);
    TrimRightCut(TrimLeft(s), c);
    TrimSpaceShape(s);
    var head := Cut(TrimSpace(s), c).0;
    assert head == "" || head[0] == TrimSpace(s)[0];
    assert TrimLeft(head) == head;
  }

  /** strings.Fields: the maximal runs of non-space characters. */
  function Fields(s: string): (f: seq<string>)
    ensures forall k :: 0 <= k < |f| ==> f[k] != "" && forall c :: c in f[k] ==> !IsSpace(c)
    decreases |s|
  {
    if s == [] then []
    else if IsSpace(s[0]) then Fields(s[1..])
    else var n := WordLength(s); [s[..n]] + Fields(s[n..])
  }

  function WordLength(s: string): (n: nat)
    ensures n <= |s| && (forall c :: c in s[..n] ==> !IsSpace(c))
    ensures s != [] && !IsSpace(s[0]) ==> n > 0
  {
    if s == [] || IsSpace(s[0]) then 0
    else var m := WordLength(s[1..]); assert s[..m + 1] == [s[0]] + s[1..][..m]; m + 1
  }

  /** A field: not empty and without space. */
  predicate Word(w: string) { w != "" && forall c :: c in w ==> !IsSpace(c) }

  lemma {:induction false} WordEnds(w: string, c: char, rest: string)
    requires IsSpace(c) && forall x :: x in w ==> !IsSpace(x)
    ensures WordLength(w + [c] + rest) == |w|
  {
    if w != "" {
      assert (w + [c] + rest)[1..] == w[1..] + [c] + rest;
      WordEnds(w[1..], c, rest);
    }
  }

  lemma WordThenRest(w: string, c: char, rest: string)
    requires Word(w) && IsSpace(c)
    ensures Fields(w + [c] + rest) == [w] + Fields(rest)
  {
    var s := w + [c] + rest;
    WordEnds(w, c, rest);
    assert s[0] == w[0] && s[..|w|] == w && s[|w|..] == [c] + rest;
    assert ([c] + rest)[1..] == rest;
  }

  lemma LastWord(w: string)
    requires Word(w)
    ensures Fields(w) == [w]
  {
    WholeWord(w);
    assert w[..|w|] == w && w[|w|..] == [];
  }

  lemma {:induction false} WholeWord(w: string)
    requires forall x :: x in w ==> !IsSpace(x)
    ensures WordLength(w) == |w|
  {
    if w != "" { WholeWord(w[1..]); }
  }

  predicate HasPrefix(s: string, p: string) { |p| <= |s| && s[..|p|] == p }

  function TrimPrefix(s: string, p: string): string {
    if HasPrefix(s, p) then s[|p|..] else s
  }
}
