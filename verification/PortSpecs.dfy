/** What a forwarded-port mapping means: every mapping an operator can write with
    plain hosts and ports or ranges, as text and as the listeners it stands for. */
module PortSpecs {
  import opened Text
  import opened PortMap

  /** One side of a mapping; no host is every interface, or the peer. */
  datatype Side = Side(host: string, lo: nat, hi: nat)

  datatype Target = Same | To(side: Side)

  predicate GoodSide(s: Side)
  {
    && 1 <= s.lo <= s.hi <= 65535 && s.hi - s.lo < MAX_PORTS_PER_MAPPING
    && '=' !in s.host && (s.host == "" || PlainHost(s.host))
  }

  function SpanText(lo: nat, hi: nat): string { if lo == hi then Decimal(lo) else Decimal(lo) + ['-'] + Decimal(hi) }

  function SideText(s: Side): string
  {
    var span := SpanText(s.lo, s.hi);
    if s.host == "" then span
    else if ':' in s.host then ['['] + s.host + [']'] + ([':'] + span)
    else s.host + [':'] + span
  }

  function SpecText(listen: Side, target: Target): string
  {
    match target
    case Same => SideText(listen)
    case To(side) => SideText(listen) + ['='] + SideText(side)
  }

  // ---- reading a side back ----

  lemma PortReadsBack(n: nat)
    requires 1 <= n <= 65535
    ensures ParsePort(Decimal(n)) == Some(n) && '-' !in Decimal(n)
  {
    AtoiUndoesDecimal(n);
    TrimDigits(Decimal(n));
    CutDigits(Decimal(n), '-');
  }

  lemma SpanReadsBack(lo: nat, hi: nat)
    requires 1 <= lo <= hi <= 65535 && hi - lo < MAX_PORTS_PER_MAPPING
    ensures ParseSpan(SpanText(lo, hi)) == Some((lo, hi))
  {
    hide ParsePort, Decimal, Cut;
    PortReadsBack(lo);
    PortReadsBack(hi);
    CutDigits(Decimal(lo), '-');
    CutJoined(Decimal(lo), '-', Decimal(hi));
  }

  lemma SpanShape(lo: nat, hi: nat, c: char)
    requires !IsDigit(c) && c != '-'
    ensures c !in SpanText(lo, hi)
    ensures var t := SpanText(lo, hi); t != "" && IsDigit(t[0]) && IsDigit(t[|t| - 1]) && Trimmed(t)
  {
    hide Decimal;
    var t := SpanText(lo, hi);
    assert IsDigit(t[0]) && IsDigit(t[|t| - 1]);
  }

  lemma SideSplits(s: Side)
    requires GoodSide(s)
    ensures SideText(s) != "" && Trimmed(SideText(s))
    ensures SplitEndpoint(SideText(s)) == Some((s.host, SpanText(s.lo, s.hi)))
  {
    hide SpanText, Decimal;
    var span, t := SpanText(s.lo, s.hi), SideText(s);
    SpanShape(s.lo, s.hi, ':');
    if s.host != "" && ':' in s.host {
      var p, q := ['['] + s.host, [':'] + span;
      assert t == p + [']'] + q;
      IndexOfPrefix(p, ']', q);
      assert t[0] == '[' && t[|p|] == ']' && t[|p| + 1] == ':';
      assert t[1..|p|] == s.host && t[|p| + 2..] == span && t[|t| - 1] == span[|span| - 1];
    } else if s.host != "" {
      CutJoined(s.host, ':', span);
      assert t[|s.host|] == ':' && t[0] == s.host[0] && t[|t| - 1] == span[|span| - 1];
    }
  }

  lemma SideShape(s: Side)
    requires GoodSide(s)
    ensures '=' !in SideText(s) && '|' !in SideText(s)
  {
    hide SpanText, Decimal;
    SpanShape(s.lo, s.hi, '=');
    SpanShape(s.lo, s.hi, '|');
  }

  /** A side is read back as written, and holds no separator of its own. */
  lemma SideReadsBack(s: Side)
    requires GoodSide(s)
    ensures ParseEndpoint(SideText(s)) == Some(PortRange(s.host, s.lo, s.hi))
    ensures SideText(s) != "" && Trimmed(SideText(s)) && '=' !in SideText(s) && '|' !in SideText(s)
  {
    hide SideText, SpanText, ParseSpan, SplitEndpoint, TrimSpace, Trimmed;
    SideShape(s);
    SideSplits(s);
    SpanReadsBack(s.lo, s.hi);
    TrimSpaceShape(SideText(s));
  }

  // ---- what a mapping means ----

  function Width(s: Side): int { s.hi - s.lo + 1 }

  /** One port, or as many as are listened on. */
  predicate Fitting(listen: Side, target: Target)
  {
    target.To? ==> Width(target.side) == 1 || Width(target.side) == Width(listen)
  }

  function TargetHost(target: Target, defaultHost: string): string
  {
    if target.To? && target.side.host != "" then target.side.host else defaultHost
  }

  /** The k-th listener's port at the target: ranges keep their offset. */
  function TargetPort(listen: Side, target: Target, k: nat): nat
  {
    match target
    case Same => listen.lo + k
    case To(side) => if Width(side) == 1 then side.lo else side.lo + k
  }

  lemma {:induction false} ExpandRangeAt(listen: PortRange, to: PortRange, host: string, i: nat, k: nat)
    requires i + k < listen.Count()
    ensures ExpandRange(listen, to, host, i)[k]
         == Mapping(JoinHostPort(listen.host, listen.lo + i + k),
           [JoinHostPort(host, if to.Count() > 1 then to.lo + i + k else to.lo)])
    decreases k
  {
    hide JoinHostPort;
    if k > 0 { ExpandRangeAt(listen, to, host, i + 1, k - 1); }
  }

  /** The listen side and the text its target is read from. */
  lemma SpecSides(listen: Side, target: Target)
    requires GoodSide(listen) && (target.To? ==> GoodSide(target.side))
    ensures var text := SpecText(listen, target);
            && TrimSpace(text) == text != ""
            && Cut(text, '=') == (SideText(listen), if target.To? then SideText(target.side) else "", target.To?)
  {
    SideReadsBack(listen);
    var left := SideText(listen);
    if target.To? {
      SideReadsBack(target.side);
      var right := SideText(target.side);
      CutJoined(left, '=', right);
      var text := left + ['='] + right;
      assert text[0] == left[0] && text[|text| - 1] == right[|right| - 1];
      TrimSpaceShape(text);
    } else {
      assert IndexOf(left, '=') == |left|;
      TrimSpaceShape(left);
    }
  }

  lemma OneTarget(listen: PortRange, side: Side, defaultHost: string)
    requires 1 <= listen.lo <= listen.hi && GoodSide(side)
    ensures var e := ExpandTargets(listen, SideText(side), defaultHost);
            var host := if side.host != "" then side.host else defaultHost;
            if (Width(side) == 1 || Width(side) == listen.Count()) && host != ""
            then e == Some(ExpandRange(listen, PortRange(side.host, side.lo, side.hi), host, 0))
            else e == None
  {
    hide ExpandRange, ParseEndpoint, SideText, Join, Trimmed, GoodSide;
    SideReadsBack(side);
    var right := SideText(side);
    JoinOne([right], '|');
    SplitUndoesJoin([right], '|');
    assert Split(right, '|') == [right];
    hide Split;
  }

  /** Expanding a mapping gives one listener per port on its own address, each with
      one backend at the target's host and port, ranges keeping their offset; and
      it fails exactly when the widths do not fit or no host is known. */
  lemma SpecMeans(listen: Side, target: Target, defaultHost: string)
    requires GoodSide(listen) && (target.To? ==> GoodSide(target.side))
    ensures var e := Expand(SpecText(listen, target), defaultHost);
            && (e.Some? <==> Fitting(listen, target) && TargetHost(target, defaultHost) != "")
            && (e.Some? ==> |e.value| == Width(listen))
            && (e.Some? ==> forall k :: 0 <= k < |e.value| ==>
                  e.value[k] == Mapping(JoinHostPort(listen.host, listen.lo + k),
                                        [JoinHostPort(TargetHost(target, defaultHost), TargetPort(listen, target, k))]))
  {
    hide SideText, SpecText, ParseEndpoint, ExpandRange, ExpandTargets, Cut, TrimSpace, Trimmed, JoinHostPort;
    SpecSides(listen, target);
    SideReadsBack(listen);
    SameSide(listen);
    OneTarget(PortRange(listen.host, listen.lo, listen.hi), TargetSide(listen, target), defaultHost);
    RangeMeans(listen, target, TargetHost(target, defaultHost));
  }

  function TargetSide(listen: Side, target: Target): Side
  {
    if target.To? then target.side else Side("", listen.lo, listen.hi)
  }

  lemma SameSide(listen: Side)
    requires GoodSide(listen)
    ensures SamePorts(PortRange(listen.host, listen.lo, listen.hi)) == SideText(Side("", listen.lo, listen.hi))
    ensures GoodSide(Side("", listen.lo, listen.hi))
  {
    hide Decimal;
  }

  lemma RangeMeans(listen: Side, target: Target, host: string)
    requires listen.lo <= listen.hi && (target.To? ==> target.side.lo <= target.side.hi)
    ensures var l := PortRange(listen.host, listen.lo, listen.hi);
            var to := PortRange(TargetSide(listen, target).host, TargetSide(listen, target).lo,
              TargetSide(listen, target).hi);
            forall k :: 0 <= k < Width(listen) ==>
              ExpandRange(l, to, host, 0)[k] == Mapping(JoinHostPort(listen.host, listen.lo + k),
                                                         [JoinHostPort(host, TargetPort(listen, target, k))])
  {
    hide ExpandRange, JoinHostPort;
    var l := PortRange(listen.host, listen.lo, listen.hi);
    var to := PortRange(TargetSide(listen, target).host, TargetSide(listen, target).lo, TargetSide(listen, target).hi);
    forall k | 0 <= k < Width(listen)
      ensures ExpandRange(l, to, host, 0)[k] == Mapping(JoinHostPort(listen.host, listen.lo + k),
                                                         [JoinHostPort(host, TargetPort(listen, target, k))])
    {
      ExpandRangeAt(l, to, host, 0, k);
    }
  }

  // ---- limits, spacing and several backends ----

  /** A number is a port, and two are a range, exactly within these bounds. */
  lemma SpanMeans(lo: nat, hi: nat)
    ensures ParsePort(Decimal(lo)) == if 1 <= lo <= 65535 then Some(lo) else None
    ensures ParseSpan(Decimal(lo) + ['-'] + Decimal(hi))
        == if 1 <= lo <= hi <= 65535 && hi - lo < 1024 then Some((lo, hi)) else None
  {
    hide Decimal, Cut, Atoi, TrimSpace;
    NumberRead(lo);
    NumberRead(hi);
    CutJoined(Decimal(lo), '-', Decimal(hi));
  }

  lemma NumberRead(n: nat)
    ensures ParsePort(Decimal(n)) == if 1 <= n <= 65535 then Some(n) else None
    ensures '-' !in Decimal(n)
  {
    DecimalReadsBack(n);
    TrimDigits(Decimal(n));
    CutDigits(Decimal(n), '-');
    assert IsDigit(Decimal(n)[0]);
    hide Decimal, DigitsValue, TrimSpace;
  }

  predicate Blank(p: string) { forall i :: 0 <= i < |p| ==> IsSpace(p[i]) }

  lemma {:induction false} PadLeft(p: string, s: string)
    requires Blank(p)
    ensures TrimLeft(p + s) == TrimLeft(s)
  {
    if p != "" {
      PadLeft(p[1..], s);
      assert (p + s)[1..] == p[1..] + s;
    } else {
      assert p + s == s;
    }
  }

  lemma {:induction false} PadRight(s: string, q: string)
    requires Blank(q)
    ensures TrimRight(s + q) == TrimRight(s)
    decreases |q|
  {
    if q != "" {
      PadRight(s, q[..|q| - 1]);
      assert (s + q)[..|s + q| - 1] == s + q[..|q| - 1];
    } else {
      assert s + q == s;
    }
  }

  /** White space around a text is trimmed away. */
  lemma PadsTrimmed(p: string, s: string, q: string)
    requires Blank(p) && Blank(q) && Trimmed(s)
    ensures TrimSpace(p + s + q) == s
  {
    PadLeft(p, s + q);
    assert p + s + q == p + (s + q);
    TrimSpaceShape(s);
    if s == "" {
      assert s + q == q + "";
      PadLeft(q, "");
    } else {
      assert (s + q)[0] == s[0];
      PadRight(s, q);
    }
  }

  /** White space matters nowhere around a port, a side or a backend; and nothing but
      white space maps nothing. */
  lemma SpacesIgnored(p: string, s: Side, q: string, defaultHost: string)
    requires Blank(p) && Blank(q) && GoodSide(s)
    ensures ParsePort(p + Decimal(s.lo) + q) == Some(s.lo)
    ensures ParseEndpoint(p + SideText(s) + q) == Some(PortRange(s.host, s.lo, s.hi))
    ensures ParseBackend(p + SideText(s) + q, defaultHost) == ParseBackend(SideText(s), defaultHost)
    ensures Expand(p, defaultHost) == Some([])
  {
    hide Decimal, Atoi, SideText, ParseSpan, SplitEndpoint, TrimSpace, Trimmed, Cut;
    SideReadsBack(s);
    NumberRead(s.lo);
    TrimSpaceShape(SideText(s));
    assert Trimmed("") && Trimmed(Decimal(s.lo)) by { NumberTrimmed(s.lo); }
    TrimDigits(Decimal(s.lo));
    PadsTrimmed(p, SideText(s), q);
    PadsTrimmed(p, Decimal(s.lo), q);
    PadsTrimmed(p, "", "");
    assert p + "" + "" == p;
  }

  lemma NumberTrimmed(n: nat)
    ensures Trimmed("") && Trimmed(Decimal(n))
  {
    var d := Decimal(n);
    assert IsDigit(d[0]) && IsDigit(d[|d| - 1]);
  }

  /** A side as a backend: one port wide, on its own host or the default one. */
  lemma BackendMeans(s: Side, defaultHost: string)
    requires GoodSide(s)
    ensures var host := if s.host != "" then s.host else defaultHost;
      ParseBackend(SideText(s), defaultHost)
      == if s.lo == s.hi && host != "" then Some(JoinHostPort(host, s.lo)) else None
  {
    hide SideText, JoinHostPort, ParseEndpoint;
    SideReadsBack(s);
  }

  function SideTexts(sides: seq<Side>): (texts: seq<string>)
    ensures |texts| == |sides| && forall k :: 0 <= k < |sides| ==> texts[k] == SideText(sides[k])
  {
    if sides == [] then [] else [SideText(sides[0])] + SideTexts(sides[1..])
  }

  lemma SidesShape(sides: seq<Side>, texts: seq<string>)
    requires texts == SideTexts(sides) && forall k :: 0 <= k < |sides| ==> GoodSide(sides[k])
    ensures forall k :: 0 <= k < |texts| ==> texts[k] != "" && Trimmed(texts[k]) && '|' !in texts[k]
  {
    hide SideText, GoodSide, Trimmed;
    forall k | 0 <= k < |texts|
      ensures texts[k] != "" && Trimmed(texts[k]) && '|' !in texts[k]
    {
      SideReadsBack(sides[k]);
    }
  }

  /** Several backends: refused on a range, and when one of them is a range or has no
      host to go to; and otherwise one listener, with the backends in order. */
  lemma BackendsMean(listen: Side, sides: seq<Side>, defaultHost: string)
    requires GoodSide(listen) && |sides| > 1 && forall k :: 0 <= k < |sides| ==> GoodSide(sides[k])
    ensures var e := Expand(SideText(listen) + ['='] + Join(SideTexts(sides), '|'), defaultHost);
      && (e.Some? <==> listen.lo == listen.hi && forall k :: 0 <= k < |sides| ==>
            sides[k].lo == sides[k].hi && (sides[k].host != "" || defaultHost != ""))
      && (e.Some? ==>
            && |e.value| == 1 && e.value[0].listen == JoinHostPort(listen.host, listen.lo)
            && |e.value[0].targets| == |sides|
            && forall k :: 0 <= k < |sides| ==>
                 e.value[0].targets[k]
                 == JoinHostPort(if sides[k].host != "" then sides[k].host else defaultHost, sides[k].lo))
  {
    hide GoodSide, SideText, JoinHostPort, ParseEndpoint, ParseBackend, Cut, TrimSpace, Trimmed, Split, Join;
    var texts := SideTexts(sides);
    var left, right := SideText(listen), Join(texts, '|');
    SidesShape(sides, texts);
    SideReadsBack(listen);
    SplitUndoesJoin(texts, '|');
    JoinEnds(texts);
    CutJoined(left, '=', right);
    assert left + ['='] + right == left + "=" + right;
    RewrittenTrims(left, right);
    forall k | 0 <= k < |sides|
      ensures var host := if sides[k].host != "" then sides[k].host else defaultHost;
        ParseBackend(texts[k], defaultHost)
        == if sides[k].lo == sides[k].hi && host != "" then Some(JoinHostPort(host, sides[k].lo)) else None
    {
      BackendMeans(sides[k], defaultHost);
    }
    AllOrNone(texts, defaultHost);
  }

  lemma {:induction false} AllOrNone(texts: seq<string>, defaultHost: string)
    ensures ParseBackends(texts, defaultHost).Some? <==>
        forall k :: 0 <= k < |texts| ==> ParseBackend(texts[k], defaultHost).Some?
  {
    hide ParseBackend;
    if texts != [] { AllOrNone(texts[1..], defaultHost); }
  }

  // ---- the hosts that do not survive being written out again ----

  /** A host that only brackets can hold and that a rewrite leaves unbracketed. */
  predicate OddHost(host: string)
  {
    host != "" && ':' !in host && '|' !in host && ']' !in host && (IsSpace(host[0]) || host[0] == '[')
  }

  function Bracketed(host: string, port: nat): string { ['['] + host + [']'] + ([':'] + Decimal(port)) }

  lemma BracketedSplits(host: string, port: nat)
    requires ']' !in host
    ensures Bracketed(host, port) != "" && Trimmed(Bracketed(host, port))
    ensures SplitEndpoint(Bracketed(host, port)) == Some((host, Decimal(port)))
  {
    hide Decimal;
    var d, t := Decimal(port), Bracketed(host, port);
    var p, q := ['['] + host, [':'] + d;
    assert t == p + [']'] + q;
    IndexOfPrefix(p, ']', q);
    assert t[0] == '[' && t[|p|] == ']' && t[|p| + 1] == ':';
    assert t[1..|p|] == host && t[|p| + 2..] == d && t[|t| - 1] == d[|d| - 1];
  }

  /** Written in brackets, any host without a closing one is read as it is. */
  lemma BracketedParses(host: string, port: nat)
    requires ']' !in host && 1 <= port <= 65535
    ensures ParseEndpoint(Bracketed(host, port)) == Some(PortRange(host, port, port))
  {
    hide Decimal, ParseSpan, Bracketed, SplitEndpoint, TrimSpace, Trimmed;
    DecimalParses(port);
    BracketedSplits(host, port);
    TrimSpaceShape(Bracketed(host, port));
  }

  lemma {:induction false} TrimLeftJoin(p: string, q: string)
    requires q != "" && !IsSpace(q[0])
    ensures TrimLeft(p + q) == TrimLeft(p) + q
  {
    if p == "" {
      assert p + q == q;
    } else if IsSpace(p[0]) {
      assert (p + q)[1..] == p[1..] + q;
      TrimLeftJoin(p[1..], q);
    }
  }

  lemma BareTrims(host: string, port: nat)
    ensures TrimSpace(host + [':'] + Decimal(port)) == TrimLeft(host) + [':'] + Decimal(port)
  {
    hide Decimal;
    var d, bare := Decimal(port), TrimLeft(host);
    var text, t := host + [':'] + d, bare + [':'] + d;
    assert text == host + ([':'] + d) && t == bare + ([':'] + d);
    TrimLeftJoin(host, [':'] + d);
    assert t[|t| - 1] == d[|d| - 1] && IsDigit(d[|d| - 1]);
  }

  lemma BareSplits(bare: string, port: nat)
    requires ':' !in bare && ']' !in bare
    ensures SplitEndpoint(bare + [':'] + Decimal(port)) == if bare != "" && bare[0] == '[' then None
        else Some((bare, Decimal(port)))
  {
    var d := Decimal(port);
    CutDigits(d, ':');
    CutDigits(d, ']');
    hide Decimal;
    var t := bare + [':'] + d;
    if bare != "" && bare[0] == '[' {
      assert ']' !in t;
      assert IndexOf(t, ']') == |t|;
    } else {
      CutJoined(bare, ':', d);
      assert t[|bare|] == ':';
    }
  }

  /** Written without brackets, an odd host is read without its leading space, and
      not at all when a bracket is what it starts with. */
  lemma OddHostRead(host: string, port: nat)
    requires OddHost(host) && 1 <= port <= 65535
    ensures ParseEndpoint(host + [':'] + Decimal(port)) == BareRead(TrimLeft(host), port)
  {
    hide Decimal, ParseSpan, SplitEndpoint, TrimSpace, TrimLeft;
    DecimalParses(port);
    TrimLeftShape(host);
    BareTrims(host, port);
    BareSplits(TrimLeft(host), port);
  }

  function BareRead(bare: string, port: nat): Option<PortRange>
  {
    if bare != "" && bare[0] == '[' then None else Some(PortRange(bare, port, port))
  }

  /** What a one-port mapping with one backend text expands to. */
  function OneBackend(listen: Side, to: Option<PortRange>, defaultHost: string): Option<seq<Mapping>>
  {
    if to.None? || to.value.lo != to.value.hi then None
    else
      var host := if to.value.host != "" then to.value.host else defaultHost;
      if host == "" then None
          else Some([Mapping(JoinHostPort(listen.host, listen.lo), [JoinHostPort(host, to.value.lo)])])
  }

  lemma OneBackendExpands(listen: Side, right: string, defaultHost: string)
    requires GoodSide(listen) && listen.lo == listen.hi && right != "" && '|' !in right && !IsSpace(right[|right| - 1])
    ensures Expand(SideText(listen) + ['='] + right, defaultHost)
        == OneBackend(listen, ParseEndpoint(right), defaultHost)
  {
    hide SideText, ParseEndpoint, JoinHostPort, Trimmed;
    SideReadsBack(listen);
    var left := SideText(listen);
    var text := left + ['='] + right;
    CutJoined(left, '=', right);
    assert text[0] == left[0] && text[|text| - 1] == right[|right| - 1];
    assert TrimSpace(text) == text by { Outside(left); TrimSpaceShape(text); Within(text); }
    hide TrimSpace, Cut;
    JoinOne([right], '|');
    SplitUndoesJoin([right], '|');
    assert Split(right, '|') == [right];
    hide Split, Join;
    if ParseEndpoint(right).Some? {
      var l, to := PortRange(listen.host, listen.lo, listen.hi), ParseEndpoint(right).value;
      var host := if to.host != "" then to.host else defaultHost;
      if to.lo == to.hi {
        assert ExpandRange(l, to, host, 1) == [];
        assert ExpandRange(l, to, host, 0) == [Mapping(JoinHostPort(listen.host, listen.lo),
            [JoinHostPort(host, to.lo)])];
      }
    }
  }

  lemma Outside(s: string)
    requires Trimmed(s) && s != ""
    ensures !IsSpace(s[0]) && !IsSpace(s[|s| - 1])
  {
  }

  lemma Within(s: string)
    requires s != "" && !IsSpace(s[0]) && !IsSpace(s[|s| - 1])
    ensures Trimmed(s)
  {
  }

  /** Such a host is really read from a spec, and rewriting that spec with the
      backends it has changes what it means: the leading space is lost, or the
      whole mapping is. */
  lemma OddSpecRewritten(listen: Side, host: string, port: nat, defaultHost: string)
    requires GoodSide(listen) && listen.lo == listen.hi && OddHost(host) && 1 <= port <= 65535
    ensures var spec := SideText(listen) + ['='] + Bracketed(host, port);
            var backend := JoinHostPort(host, port);
            && Expand(spec, defaultHost) == Some([Mapping(JoinHostPort(listen.host, listen.lo), [backend])])
            && Expand(JoinSpec(spec, [backend]), defaultHost)
               == OneBackend(listen, BareRead(TrimLeft(host), port), defaultHost)
  {
    var left, right, backend := SideText(listen), Bracketed(host, port), JoinHostPort(host, port);
    var spec := left + ['='] + right;
    SideReadsBack(listen);
    BracketedParses(host, port);
    OddHostRead(host, port);
    OddTexts(host, port);
    CutJoined(left, '=', right);
    TrimSpaceShape(left);
    hide SideText, Bracketed, ParseEndpoint, TrimLeft, TrimSpace, Cut, Decimal;
    OneBackendExpands(listen, right, defaultHost);
    JoinOne([backend], '|');
    assert JoinSpec(spec, [backend]) == left + ['='] + backend;
    OneBackendExpands(listen, backend, defaultHost);
  }

  lemma OddTexts(host: string, port: nat)
    requires OddHost(host) && 1 <= port <= 65535
    ensures var t := Bracketed(host, port); t != "" && '|' !in t && !IsSpace(t[|t| - 1])
    ensures var t := JoinHostPort(host, port);
            t == host + [':'] + Decimal(port) && t != "" && '|' !in t && !IsSpace(t[|t| - 1])
  {
    var d := Decimal(port);
    CutDigits(d, '|');
    assert IsDigit(d[|d| - 1]);
    hide Decimal;
    var t, u := Bracketed(host, port), JoinHostPort(host, port);
    assert t[|t| - 1] == d[|d| - 1];
    assert u == host + [':'] + d;
    assert u[|u| - 1] == d[|d| - 1];
  }

  // ---- exactly when a rewrite keeps a mapping ----

  function Backed(address: string, targets: Option<seq<string>>): Option<seq<Mapping>>
  {
    if targets.None? then None else Some([Mapping(address, targets.value)])
  }

  lemma OneBackendParses(text: string, defaultHost: string)
    ensures ParseBackends([text], defaultHost)
         == var b := ParseBackend(text, defaultHost); if b.None? then None else Some([b.value])
  {
    hide ParseBackend;
    var texts, none: seq<string> := [text], [];
    assert texts[0] == text && texts[1..] == none;
    assert ParseBackends(none, defaultHost) == Some(none);
    var b := ParseBackend(text, defaultHost);
    if b.Some? { assert [b.value] + none == [b.value]; }
  }

  /** A one-port listen side with its targets: each read on its own, or refused. */
  lemma ExpandIsBackends(listen: PortRange, right: string, defaultHost: string)
    requires 1 <= listen.lo == listen.hi
    ensures ExpandTargets(listen, right, defaultHost)
         == Backed(JoinHostPort(listen.host, listen.lo), ParseBackends(Split(right, '|'), defaultHost))
  {
    hide JoinHostPort, ParseEndpoint;
    var parts := Split(right, '|');
    if |parts| == 1 {
      assert parts == [right];
      OneBackendParses(right, defaultHost);
      hide Split, ParseBackends;
      var to := ParseEndpoint(right);
      if to.Some? && to.value.lo == to.value.hi {
        var host := if to.value.host != "" then to.value.host else defaultHost;
        assert ExpandRange(listen, to.value, host, 1) == [];
        assert ExpandRange(listen, to.value, host, 0)
            == [Mapping(JoinHostPort(listen.host, listen.lo), [JoinHostPort(host, to.value.lo)])];
      }
    }
  }

  /** The text of the target side, written or understood. */
  function RightSide(spec: string): string
  {
    var (left, right, hasTarget) := Cut(TrimSpace(spec), '=');
    var listen := ParseEndpoint(left);
    if hasTarget || listen.None? then right else SamePorts(listen.value)
  }

  lemma OnePortParts(spec: string, defaultHost: string, m: Mapping)
    requires Expand(spec, defaultHost) == Some([m])
    ensures var listen := ParseEndpoint(Cut(TrimSpace(spec), '=').0);
      && listen.Some? && listen.value.lo == listen.value.hi &&
          m.listen == JoinHostPort(listen.value.host, listen.value.lo)
    ensures ParseBackends(Split(RightSide(spec), '|'), defaultHost) == Some(m.targets)
  {
    SingleListen(spec, defaultHost);
    var listen := ParseEndpoint(Cut(TrimSpace(spec), '=').0).value;
    ExpandIsBackends(listen, RightSide(spec), defaultHost);
    hide ParseEndpoint, Cut, TrimSpace, Split, ParseBackends, JoinHostPort, SamePorts, ExpandTargets;
  }

  /** A backend's text holds no bar and ends in a digit. */
  lemma BackendText(text: string, defaultHost: string)
    requires '|' !in text && DefaultHost(defaultHost) && ParseBackend(text, defaultHost).Some?
    ensures var b := ParseBackend(text, defaultHost).value; b != "" && '|' !in b && !IsSpace(b[|b| - 1])
  {
    var r := ParseEndpoint(text).value;
    HostChars(text);
    var host := if r.host != "" then r.host else defaultHost;
    hide ParseEndpoint;
    assert '|' !in host;
    JoinedText(host, r.lo);
  }

  lemma JoinedText(host: string, port: nat)
    requires '|' !in host
    ensures var t := JoinHostPort(host, port); t != "" && '|' !in t && !IsSpace(t[|t| - 1])
  {
    var d := Decimal(port);
    CutDigits(d, '|');
    assert IsDigit(d[|d| - 1]);
    hide Decimal;
    var t := JoinHostPort(host, port);
    assert t[|t| - 1] == d[|d| - 1];
  }

  /** A host is made of its text's characters. */
  lemma HostChars(text: string)
    requires ParseEndpoint(text).Some?
    ensures forall c :: c in ParseEndpoint(text).value.host ==> c in text
  {
    hide ParseSpan;
    var t := TrimSpace(text);
    TrimSpaceShape(text);
    var host := SplitEndpoint(t).value.0;
    if t[0] != '[' && ':' in t { assert host == t[..|host|]; }
    forall c | c in host ensures c in t { }
  }

  /** What an odd bracket is read as. */
  lemma OddBracketRead(text: string)
    requires OddBracket(text) && '|' !in text && ParseEndpoint(text).Some?
    ensures OddHost(ParseEndpoint(text).value.host)
  {
    HostChars(text);
    hide ParseSpan;
    var t := TrimSpace(text);
    var end := IndexOf(t, ']');
    assert ']' !in t[..end];
    var host := ParseEndpoint(text).value.host;
    assert host == t[1..end];
    forall c | c in host ensures c in t[..end] { }
  }

  /** Such a backend is not read back as itself, whatever a hostless one means. */
  lemma OddNotReadBack(text: string, defaultHost: string, anyHost: string)
    requires OddBracket(text) && '|' !in text && ParseBackend(text, defaultHost).Some? && DefaultHost(anyHost)
    ensures ParseBackend(ParseBackend(text, defaultHost).value, anyHost) != ParseBackend(text, defaultHost)
  {
    OddBracketRead(text);
    var r := ParseEndpoint(text).value;
    hide ParseEndpoint, OddBracket;
    OddTexts(r.host, r.lo);
    OddHostRead(r.host, r.lo);
    if TrimLeft(r.host) == "" || TrimLeft(r.host)[0] != '[' { BareDiffers(r.host, r.lo, anyHost); }
  }

  lemma BareDiffers(host: string, port: nat, anyHost: string)
    requires OddHost(host) && DefaultHost(anyHost) && (TrimLeft(host) != "" ==> TrimLeft(host)[0] != '[')
    ensures var bare := if TrimLeft(host) != "" then TrimLeft(host) else anyHost;
            bare != "" ==> JoinHostPort(bare, port) != JoinHostPort(host, port)
  {
    var bare := if TrimLeft(host) != "" then TrimLeft(host) else anyHost;
    TrimLeftShape(host);
    hide Decimal;
    var t, u := JoinHostPort(host, port), JoinHostPort(bare, port);
    assert IsSpace(t[0]) && t[0] == host[0];
    if bare != "" { assert u[0] == bare[0] || u[0] == '['; }
  }

  /** Reading a list of backends back as itself means reading each back. */
  lemma {:induction false} AllReadBack(texts: seq<string>, defaultHost: string, k: nat)
    requires ParseBackends(texts, defaultHost) == Some(texts) && k < |texts|
    ensures ParseBackend(texts[k], defaultHost) == Some(texts[k])
  {
  }

  /** A rewritten one-port mapping is its backends read again. */
  lemma RewrittenReads(spec: string, defaultHost: string, m: Mapping, anyHost: string)
    requires Expand(spec, defaultHost) == Some([m]) && DefaultHost(defaultHost)
    ensures Expand(JoinSpec(spec, m.targets), anyHost) == Some([m]) <==>
        ParseBackends(m.targets, anyHost) == Some(m.targets)
  {
    hide ParseEndpoint, ParseBackend, ParseBackends, JoinHostPort, SamePorts, Split, ExpandRange, DefaultHost;
    OnePortParts(spec, defaultHost, m);
    PartsText(Split(RightSide(spec), '|'), defaultHost);
    ListenSide(spec);
    BackendsReadBack(spec, m.targets);
    JoinedEnd(m.targets);
    var left, right := TrimSpace(Cut(spec, '=').0), Join(m.targets, '|');
    RewrittenTrims(left, right);
    hide Cut, TrimSpace, Join, Trimmed;
    ExpandIsBackends(ParseEndpoint(left).value, right, anyHost);
    hide ExpandTargets;
  }

  /** Backends read from bar-free parts are bar-free texts that end in a digit. */
  lemma PartsText(parts: seq<string>, defaultHost: string)
    requires DefaultHost(defaultHost) && ParseBackends(parts, defaultHost).Some?
    requires forall k :: 0 <= k < |parts| ==> '|' !in parts[k]
    ensures var ts := ParseBackends(parts, defaultHost).value;
      forall k :: 0 <= k < |ts| ==> ts[k] != "" && '|' !in ts[k] && !IsSpace(ts[k][|ts[k]| - 1])
  {
    hide ParseBackend, DefaultHost;
    forall k | 0 <= k < |parts|
      ensures var t := ParseBackends(parts, defaultHost).value[k]; t != "" && '|' !in t && !IsSpace(t[|t| - 1])
    {
      BackendText(parts[k], defaultHost);
    }
  }

  lemma {:induction false} JoinedEnd(texts: seq<string>)
    requires |texts| >= 1 && forall k :: 0 <= k < |texts| ==> texts[k] != "" && !IsSpace(texts[k][|texts[k]| - 1])
    ensures var j := Join(texts, '|'); j != "" && !IsSpace(j[|j| - 1])
  {
    if |texts| > 1 { JoinedEnd(texts[1..]); }
  }

  lemma RewrittenTrims(left: string, right: string)
    requires Trimmed(left) && right != "" && !IsSpace(right[|right| - 1])
    ensures var text := left + "=" + right; text != "" && TrimSpace(text) == text
  {
    var text := left + "=" + right;
    if left != "" { assert text[0] == left[0]; } else { assert text[0] == '='; }
    assert text[|text| - 1] == right[|right| - 1];
    TrimSpaceShape(text);
  }

  /** The law of a rewrite, exactly: for every spec that maps one port, with any
      number of backends, writing out the very backends it has gives back the same
      mapping if and only if none of them is written as an odd bracket. */
  lemma RewriteKeepsIff(spec: string, defaultHost: string, m: Mapping, anyHost: string)
    requires Expand(spec, defaultHost) == Some([m]) && DefaultHost(defaultHost) && DefaultHost(anyHost)
    ensures Expand(JoinSpec(spec, m.targets), anyHost) == Some([m]) <==> OrdinarySpec(spec)
  {
    if OrdinarySpec(spec) {
      ExpandPlain(spec, defaultHost);
      hide Expand, OrdinarySpec;
      assert m in [m] && [m][0] == m;
      RewriteMeans(spec, defaultHost, m.targets, anyHost);
      assert Mapping(m.listen, m.targets) == m;
    } else {
      OddSpecChanges(spec, defaultHost, m, anyHost);
    }
  }

  lemma OddSpecChanges(spec: string, defaultHost: string, m: Mapping, anyHost: string)
    requires Expand(spec, defaultHost) == Some([m]) && DefaultHost(defaultHost) && DefaultHost(anyHost)
    requires !OrdinarySpec(spec)
    ensures Expand(JoinSpec(spec, m.targets), anyHost) != Some([m])
  {
    hide Expand, ParseEndpoint, ParseBackend, JoinHostPort, JoinSpec, DefaultHost, Split;
    OnePortParts(spec, defaultHost, m);
    OddHasTarget(spec);
    RewrittenReads(spec, defaultHost, m, anyHost);
    var parts := Split(RightSide(spec), '|');
    var k: nat :| k < |parts| && OddBracket(parts[k]);
    hide OddBracket, RightSide;
    OddNotReadBack(parts[k], defaultHost, anyHost);
    if ParseBackends(m.targets, anyHost) == Some(m.targets) { AllReadBack(m.targets, anyHost, k); }
  }

  /** A spec with an odd bracket has a target side of its own. */
  lemma OddHasTarget(spec: string)
    requires !OrdinarySpec(spec)
    ensures RightSide(spec) == Cut(TrimSpace(spec), '=').1
  {
    hide OddBracket;
    var (left, right, hasTarget) := Cut(TrimSpace(spec), '=');
    if !hasTarget {
      assert right == "" && Split("", '|') == [""];
      NoOddBlank();
    }
  }

  lemma NoOddBlank()
    ensures !OddBracket("")
  {
  }
}
