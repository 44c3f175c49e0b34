/** The forwarded-port syntax the tunnels share, read character by character:
    "443", "443=8443", "127.0.0.1:443=10.0.0.5:80|[fd00::2]:80", "10000-10009". */
module PortMap {
  import opened Text

  const MAX_PORTS_PER_MAPPING: nat := 1024

  /** One listening address and the backends behind it. */
  datatype Mapping = Mapping(listen: string, targets: seq<string>)

  /** One endpoint's host and span of ports. */
  datatype PortRange = PortRange(host: string, lo: nat, hi: nat)
  {
    function Count(): int { hi - lo + 1 }
  }

  function ParsePort(text: string): (r: Option<nat>)
    ensures r.Some? ==> 1 <= r.value <= 65535
  {
    var n := Atoi(TrimSpace(text));
    if n.Some? && 1 <= n.value <= 65535 then Some(n.value as nat) else None
  }

  function ParseSpan(text: string): (r: Option<(nat, nat)>)
    ensures r.Some? ==> 1 <= r.value.0 <= r.value.1 <= 65535
  {
    var (lo, hi, found) := Cut(text, '-');
    var start := ParsePort(lo);
    if start.None? then None
    else if !found then Some((start.value, start.value))
    else
      var end := ParsePort(hi);
      if end.None? || end.value < start.value || end.value - start.value + 1 > MAX_PORTS_PER_MAPPING then None
      else Some((start.value, end.value))
  }

  /** Where an endpoint's host ends and its ports begin. */
  function SplitEndpoint(t: string): Option<(string, string)>
    requires t != ""
  {
    if t[0] == '[' then
      var end := IndexOf(t, ']');
      if end + 1 >= |t| || t[end + 1] != ':' then None else Some((t[1..end], t[end + 2..]))
    else if ':' in t then
      var (host, ports, _) := Cut(t, ':');
      if ':' in ports then None else Some((host, ports))
    else Some(("", t))
  }

  function ParseEndpoint(text: string): (r: Option<PortRange>)
    ensures r.Some? ==> 1 <= r.value.lo <= r.value.hi <= 65535
  {
    var t := TrimSpace(text);
    if t == "" then None
    else
      var parts := SplitEndpoint(t);
      if parts.None? then None
      else
        var span := ParseSpan(parts.value.1);
        if span.None? then None else Some(PortRange(parts.value.0, span.value.0, span.value.1))
  }

  /** net.JoinHostPort: a host with a colon is bracketed. */
  function JoinHostPort(host: string, port: nat): string
  {
    if ':' in host then "[" + host + "]:" + Decimal(port) else host + ":" + Decimal(port)
  }

  /** One backend address; the default stands in for a missing host. */
  function TargetAddr(host: string, port: nat, defaultHost: string): Option<string>
  {
    if host != "" then Some(JoinHostPort(host, port))
    else if defaultHost != "" then Some(JoinHostPort(defaultHost, port))
    else None
  }

  function ParseBackend(text: string, defaultHost: string): Option<string>
  {
    var r := ParseEndpoint(text);
    if r.None? || r.value.Count() > 1 then None else TargetAddr(r.value.host, r.value.lo, defaultHost)
  }

  function ParseBackends(texts: seq<string>, defaultHost: string): (r: Option<seq<string>>)
    ensures r.Some? ==> |r.value| == |texts|
    ensures r.Some? ==> forall k :: 0 <= k < |texts| ==> ParseBackend(texts[k], defaultHost) == Some(r.value[k])
  {
    if texts == [] then Some([])
    else
      var first, rest := ParseBackend(texts[0], defaultHost), ParseBackends(texts[1..], defaultHost);
      if first.None? || rest.None? then None else Some([first.value] + rest.value)
  }

  /** One mapping per listening port, the target's ports following when it is a range. */
  function ExpandRange(listen: PortRange, to: PortRange, host: string, i: nat): (ms: seq<Mapping>)
    requires i <= listen.Count()
    ensures |ms| == listen.Count() - i
    decreases listen.Count() - i
  {
    if i == listen.Count() then []
    else
      [Mapping(JoinHostPort(listen.host, listen.lo + i),
        [JoinHostPort(host, if to.Count() > 1 then to.lo + i else to.lo)])]
      + ExpandRange(listen, to, host, i + 1)
  }

  /** The target side of a mapping that names none: the same ports. */
  function SamePorts(listen: PortRange): string
  {
    if listen.Count() > 1 then Decimal(listen.lo) + "-" + Decimal(listen.hi) else Decimal(listen.lo)
  }

  function ExpandTargets(listen: PortRange, right: string, defaultHost: string): Option<seq<Mapping>>
    requires listen.lo <= listen.hi
  {
    var alternatives := Split(right, '|');
    if |alternatives| > 1 then
      var targets := ParseBackends(alternatives, defaultHost);
      if listen.Count() > 1 || targets.None? then None
      else Some([Mapping(JoinHostPort(listen.host, listen.lo), targets.value)])
    else
      var to := ParseEndpoint(right);
      if to.None? || (to.value.Count() > 1 && to.value.Count() != listen.Count()) then None
      else
        var host := if to.value.host != "" then to.value.host else defaultHost;
        if host == "" then None else Some(ExpandRange(listen, to.value, host, 0))
  }

  /** portmap.Expand of a single configured spec. A blank one maps nothing. */
  function Expand(spec: string, defaultHost: string): Option<seq<Mapping>>
  {
    var s := TrimSpace(spec);
    if s == "" then Some([])
    else
      var (left, right, hasTarget) := Cut(s, '=');
      var listen := ParseEndpoint(left);
      if listen.None? then None
      else ExpandTargets(listen.value, if hasTarget then right else SamePorts(listen.value), defaultHost)
  }

  // ---- which hosts survive being written out and read again ----

  /** A host whose rendering is read back as that host. */
  predicate PlainHost(host: string)
  {
    && host != "" && '|' !in host
    && if ':' in host then ']' !in host else !IsSpace(host[0]) && host[0] != '['
  }

  /** What a hostless backend may stand for: a plain host, or nothing. */
  predicate DefaultHost(host: string) { host == "" || PlainHost(host) }

  ghost predicate PlainTarget(t: string)
  {
    exists host, port: nat :: PlainHost(host) && 1 <= port <= 65535 && t == JoinHostPort(host, port)
  }

  lemma DecimalParses(port: nat)
    requires 1 <= port <= 65535
    ensures ParseSpan(Decimal(port)) == Some((port, port))
  {
    AtoiUndoesDecimal(port);
    TrimDigits(Decimal(port));
    CutDigits(Decimal(port), '-');
  }

  lemma JoinedSplits(host: string, port: nat)
    requires 1 <= port <= 65535 && ':' in host && ']' !in host
    ensures SplitEndpoint(JoinHostPort(host, port)) == Some((host, Decimal(port)))
    ensures Trimmed(JoinHostPort(host, port))
  {
    hide Decimal, Atoi, DigitsValue;
    var d := Decimal(port);
    var t := JoinHostPort(host, port);
    var p, q := ['['] + host, [':'] + d;
    assert t == p + [']'] + q;
    IndexOfPrefix(p, ']', q);
    assert t[0] == '[' && t[|p|] == ']' && t[|p| + 1] == ':';
    assert t[1..|p|] == host;
    assert t[|p| + 2..] == d;
    assert t[|t| - 1] == d[|d| - 1];
  }

  lemma PairedSplits(host: string, port: nat)
    requires 1 <= port <= 65535 && ':' !in host && host != "" && !IsSpace(host[0]) && host[0] != '['
    ensures SplitEndpoint(JoinHostPort(host, port)) == Some((host, Decimal(port)))
    ensures Trimmed(JoinHostPort(host, port))
  {
    var d := Decimal(port);
    var t := JoinHostPort(host, port);
    assert t == host + [':'] + d;
    CutJoined(host, ':', d);
    CutDigits(d, ':');
    assert t[|host|] == ':';
    assert IsDigit(d[|d| - 1]) && t[|t| - 1] == d[|d| - 1];
  }

  /** A plain host's rendering parses back to that host and port. */
  lemma PlainReadsBack(host: string, port: nat)
    requires PlainHost(host) && 1 <= port <= 65535
    ensures ParseEndpoint(JoinHostPort(host, port)) == Some(PortRange(host, port, port))
    ensures Trimmed(JoinHostPort(host, port)) && JoinHostPort(host, port) != "" && '|' !in JoinHostPort(host, port)
  {
    if ':' in host { JoinedSplits(host, port); } else { PairedSplits(host, port); }
    TrimSpaceShape(JoinHostPort(host, port));
    DecimalParses(port);
    CutDigits(Decimal(port), '|');
  }

  lemma PlainTargetReadsBack(t: string, defaultHost: string)
    requires PlainTarget(t)
    ensures ParseBackend(t, defaultHost) == Some(t)
    ensures t != "" && Trimmed(t) && '|' !in t
    ensures ParseEndpoint(t).Some? && ParseEndpoint(t).value.Count() == 1 && ParseEndpoint(t).value.host != ""
    ensures JoinHostPort(ParseEndpoint(t).value.host, ParseEndpoint(t).value.lo) == t
  {
    var host, port: nat :| PlainHost(host) && 1 <= port <= 65535 && t == JoinHostPort(host, port);
    PlainReadsBack(host, port);
  }

  // ---- rewriting a mapping's backends ----

  /** joinL3Spec: the listen side as written, with an explicit list of backends. */
  function JoinSpec(spec: string, targets: seq<string>): string
  {
    TrimSpace(Cut(spec, '=').0) + "=" + Join(targets, '|')
  }

  /** The listen side of a spec, read on its own. */
  lemma ListenSide(spec: string)
    ensures var left := TrimSpace(Cut(spec, '=').0);
            && ParseEndpoint(left) == ParseEndpoint(Cut(TrimSpace(spec), '=').0)
            && Trimmed(left) && '=' !in left
  {
    TrimBeforeCut(spec, '=');
    TrimSpaceShape(Cut(spec, '=').0);
    TrimSpaceShape(Cut(TrimSpace(spec), '=').0);
    assert '=' !in Cut(spec, '=').0;
  }

  /** The backends of a rewritten spec are read back out of its text. */
  lemma BackendsReadBack(spec: string, targets: seq<string>)
    requires |targets| >= 1 && forall k :: 0 <= k < |targets| ==> '|' !in targets[k]
    ensures Split(Cut(JoinSpec(spec, targets), '=').1, '|') == targets
    ensures Cut(JoinSpec(spec, targets), '=') == (TrimSpace(Cut(spec, '=').0), Join(targets, '|'), true)
  {
    ListenSide(spec);
    CutJoined(TrimSpace(Cut(spec, '=').0), '=', Join(targets, '|'));
    assert JoinSpec(spec, targets) == TrimSpace(Cut(spec, '=').0) + ['='] + Join(targets, '|');
    SplitUndoesJoin(targets, '|');
  }

  lemma {:induction false} JoinEnds(targets: seq<string>)
    requires |targets| >= 1 && forall k :: 0 <= k < |targets| ==> targets[k] != "" && Trimmed(targets[k])
    ensures var j := Join(targets, '|'); j != "" && !IsSpace(j[|j| - 1])
  {
    if |targets| > 1 { JoinEnds(targets[1..]); }
  }

  lemma {:induction false} BackendsParse(targets: seq<string>, defaultHost: string)
    requires forall k :: 0 <= k < |targets| ==> ParseBackend(targets[k], defaultHost) == Some(targets[k])
    ensures ParseBackends(targets, defaultHost) == Some(targets)
  {
    hide ParseBackend;
    if targets != [] {
      BackendsParse(targets[1..], defaultHost);
      assert targets == [targets[0]] + targets[1..];
    }
  }

  lemma OneTargetExpands(listen: PortRange, t: string, defaultHost: string)
    requires listen.lo == listen.hi && PlainTarget(t)
    ensures ExpandTargets(listen, t, defaultHost) == Some([Mapping(JoinHostPort(listen.host, listen.lo), [t])])
  {
    hide ParseEndpoint, ParseBackend, JoinHostPort, PlainTarget, Trimmed;
    PlainTargetReadsBack(t, defaultHost);
    SplitUndoesJoin([t], '|');
    assert Split(t, '|') == [t];
    var to := ParseEndpoint(t).value;
    assert ExpandRange(listen, to, to.host, 1) == [];
    assert ExpandRange(listen, to, to.host, 0) == [Mapping(JoinHostPort(listen.host, listen.lo), [t])];
  }

  lemma ManyTargetsExpand(listen: PortRange, targets: seq<string>, defaultHost: string)
    requires listen.lo == listen.hi && |targets| > 1
    requires forall k :: 0 <= k < |targets| ==> '|' !in targets[k]
    requires forall k :: 0 <= k < |targets| ==> ParseBackend(targets[k], defaultHost) == Some(targets[k])
    ensures ExpandTargets(listen, Join(targets, '|'), defaultHost)
        == Some([Mapping(JoinHostPort(listen.host, listen.lo), targets)])
  {
    hide ParseEndpoint, ParseBackend, JoinHostPort, ExpandRange;
    SplitUndoesJoin(targets, '|');
    BackendsParse(targets, defaultHost);
    hide ParseBackends, Split, Join;
  }

  lemma PlainTargetsExpand(listen: PortRange, targets: seq<string>, defaultHost: string)
    requires listen.lo == listen.hi && |targets| >= 1
    requires forall k :: 0 <= k < |targets| ==> PlainTarget(targets[k])
    ensures ExpandTargets(listen, Join(targets, '|'), defaultHost)
        == Some([Mapping(JoinHostPort(listen.host, listen.lo), targets)])
  {
    hide *;
    if |targets| == 1 {
      OneTargetExpands(listen, targets[0], defaultHost);
      assert Join(targets, '|') == targets[0] by { JoinOne(targets, '|'); }
      assert targets == [targets[0]];
    } else {
      forall k | 0 <= k < |targets|
        ensures '|' !in targets[k] && ParseBackend(targets[k], defaultHost) == Some(targets[k])
      {
        PlainTargetReadsBack(targets[k], defaultHost);
      }
      ManyTargetsExpand(listen, targets, defaultHost);
    }
  }

  /** A spec that maps one port, read through its parsed listen side. */
  lemma SingleListen(spec: string, defaultHost: string)
    requires Expand(spec, defaultHost).Some? && |Expand(spec, defaultHost).value| == 1
    ensures var listen := ParseEndpoint(Cut(TrimSpace(spec), '=').0);
            listen.Some? && listen.value.lo == listen.value.hi
            && Expand(spec, defaultHost).value[0].listen == JoinHostPort(listen.value.host, listen.value.lo)
  {
    hide ParseEndpoint, ParseBackends, Cut, TrimSpace, Split, JoinHostPort, SamePorts;
  }

  /** Rewriting a one-port mapping's backends keeps its address, and the new text
      means exactly the given backends, whatever a hostless target would mean. */
  lemma RewriteMeans(spec: string, defaultHost: string, targets: seq<string>, anyHost: string)
    requires Expand(spec, defaultHost).Some? && |Expand(spec, defaultHost).value| == 1
    requires |targets| >= 1 && forall k :: 0 <= k < |targets| ==> PlainTarget(targets[k])
    ensures Expand(JoinSpec(spec, targets), anyHost)
        == Some([Mapping(Expand(spec, defaultHost).value[0].listen, targets)])
  {
    SingleListen(spec, defaultHost);
    ListenSide(spec);
    forall k | 0 <= k < |targets| ensures '|' !in targets[k] && targets[k] != "" && Trimmed(targets[k]) {
      PlainTargetReadsBack(targets[k], anyHost);
    }
    BackendsReadBack(spec, targets);
    JoinEnds(targets);
    var text := JoinSpec(spec, targets);
    TrimSpaceShape(text);
    assert TrimSpace(text) == text;
    PlainTargetsExpand(ParseEndpoint(TrimSpace(Cut(spec, '=').0)).value, targets, anyHost);
  }

  // ---- when an expansion's backends are plain ----

  /** A bracketed host with no colon in it that starts with a space or another
      bracket: written out without its brackets it reads as something else. */
  predicate OddBracket(text: string)
  {
    var t := TrimSpace(text);
    t != "" && t[0] == '[' &&
    var host := t[1..if IndexOf(t, ']') > 0 then IndexOf(t, ']') else 1];
    host != "" && ':' !in host && (IsSpace(host[0]) || host[0] == '[')
  }

  /** A spec none of whose backends is written that way. */
  predicate OrdinarySpec(spec: string)
  {
    var parts := Split(Cut(TrimSpace(spec), '=').1, '|');
    forall k :: 0 <= k < |parts| ==> !OddBracket(parts[k])
  }

  lemma ParsedHostPlain(text: string)
    requires ParseEndpoint(text).Some? && '|' !in text && !OddBracket(text)
    ensures var host := ParseEndpoint(text).value.host; host == "" || PlainHost(host)
  {
    var t := TrimSpace(text);
    TrimSpaceShape(text);
    var (host, ports) := SplitEndpoint(t).value;
    if t[0] == '[' {
      var end := IndexOf(t, ']');
      assert ']' !in t[..end] && host == t[1..end];
      forall c | c in host ensures c in t[..end] { }
    } else if ':' in t {
      assert host == t[..|host|];
    }
    forall c | c in host ensures c in t { }
  }

  lemma BackendPlain(text: string, defaultHost: string)
    requires '|' !in text && !OddBracket(text) && DefaultHost(defaultHost) && ParseBackend(text, defaultHost).Some?
    ensures PlainTarget(ParseBackend(text, defaultHost).value)
  {
    ParsedHostPlain(text);
  }

  lemma {:induction false} RangePlain(listen: PortRange, to: PortRange, host: string, i: nat)
    requires i <= listen.Count() && PlainHost(host) && 1 <= to.lo <= to.hi <= 65535
    requires to.Count() > 1 ==> to.Count() == listen.Count()
    ensures forall m :: m in ExpandRange(listen, to, host, i) ==> |m.targets| == 1 && PlainTarget(m.targets[0])
    decreases listen.Count() - i
  {
    hide JoinHostPort, PlainHost;
    if i < listen.Count() {
      RangePlain(listen, to, host, i + 1);
      assert PlainTarget(JoinHostPort(host, if to.Count() > 1 then to.lo + i else to.lo));
    }
  }

  lemma ExpandTargetsPlain(listen: PortRange, right: string, defaultHost: string)
    requires listen.lo <= listen.hi && ExpandTargets(listen, right, defaultHost).Some? && DefaultHost(defaultHost)
    requires forall k :: 0 <= k < |Split(right, '|')| ==> !OddBracket(Split(right, '|')[k])
    ensures forall m :: m in ExpandTargets(listen, right, defaultHost).value ==>
              |m.targets| >= 1 && forall k :: 0 <= k < |m.targets| ==> PlainTarget(m.targets[k])
  {
    hide ParseEndpoint, ParseBackend, ParseBackends, OddBracket, PlainTarget;
    var parts := Split(right, '|');
    if |parts| > 1 {
      BackendsPlain(parts, defaultHost);
    } else {
      assert parts[0] == right;
      hide Split;
      OneTargetPlain(listen, right, defaultHost);
    }
  }

  lemma BackendsPlain(parts: seq<string>, defaultHost: string)
    requires ParseBackends(parts, defaultHost).Some? && DefaultHost(defaultHost)
    requires forall k :: 0 <= k < |parts| ==> '|' !in parts[k] && !OddBracket(parts[k])
    ensures forall k :: 0 <= k < |parts| ==> PlainTarget(ParseBackends(parts, defaultHost).value[k])
  {
    hide ParseBackend, ParseBackends, OddBracket, PlainTarget, PlainHost;
    forall k | 0 <= k < |parts| ensures PlainTarget(ParseBackends(parts, defaultHost).value[k]) {
      BackendPlain(parts[k], defaultHost);
    }
  }

  lemma OneTargetPlain(listen: PortRange, right: string, defaultHost: string)
    requires listen.lo <= listen.hi && '|' !in right && !OddBracket(right) && DefaultHost(defaultHost)
    requires ParseEndpoint(right).Some? && (ParseEndpoint(right).value.host != "" || defaultHost != "")
    requires var n := ParseEndpoint(right).value.Count(); n > 1 ==> n == listen.Count()
    ensures var to := ParseEndpoint(right).value;
            forall m :: m in ExpandRange(listen, to, if to.host != "" then to.host else defaultHost, 0) ==>
              |m.targets| == 1 && PlainTarget(m.targets[0])
  {
    hide ParseEndpoint, OddBracket, PlainTarget, PlainHost, ExpandRange;
    ParsedHostPlain(right);
    var to := ParseEndpoint(right).value;
    RangePlain(listen, to, if to.host != "" then to.host else defaultHost, 0);
  }

  lemma SamePortsOrdinary(listen: PortRange)
    ensures forall k :: 0 <= k < |Split(SamePorts(listen), '|')| ==> !OddBracket(Split(SamePorts(listen), '|')[k])
  {
    var text := SamePorts(listen);
    CutDigits(Decimal(listen.lo), '|');
    CutDigits(Decimal(listen.hi), '|');
    assert '|' !in text;
    assert IsDigit(text[0]);
    TrimSpaceShape(text);
    assert TrimLeft(text) == text;
    TrimRightKeepsHead(text);
    assert Split(text, '|') == [text];
  }

  /** Every backend an ordinary spec expands to is plain. */
  lemma ExpandPlain(spec: string, defaultHost: string)
    requires Expand(spec, defaultHost).Some? && OrdinarySpec(spec) && DefaultHost(defaultHost)
    ensures forall m :: m in Expand(spec, defaultHost).value ==>
              |m.targets| >= 1 && forall k :: 0 <= k < |m.targets| ==> PlainTarget(m.targets[k])
  {
    var s := TrimSpace(spec);
    if s != "" {
      var (left, right, hasTarget) := Cut(s, '=');
      var listen := ParseEndpoint(left).value;
      if !hasTarget { SamePortsOrdinary(listen); }
      ExpandTargetsPlain(listen, if hasTarget then right else SamePorts(listen), defaultHost);
    }
  }

  lemma OddHostMisread(host: string, port: nat)
    requires 1 <= port <= 65535 && host != "" && ':' !in host && ']' !in host && (IsSpace(host[0]) || host[0] == '[')
    ensures ParseEndpoint(JoinHostPort(host, port)) != Some(PortRange(host, port, port))
  {
    var d := Decimal(port);
    var text := JoinHostPort(host, port);
    assert text == host + [':'] + d;
    CutDigits(d, ']');
    TrimSpaceShape(text);
    var t := TrimSpace(text);
    if t != "" && t[0] == '[' {
      assert ']' !in text;
      assert ']' !in t;
      assert IndexOf(t, ']') == |t|;
    } else if t != "" && ':' in t {
      assert Cut(t, ':').0 == "" || Cut(t, ':').0[0] == t[0];
      if host[0] == '[' {
        assert TrimLeft(text) == text;
        TrimRightKeepsHead(text);
      }
    }
  }

  /** Among hosts free of separators, the plain ones are exactly those a written
      backend gives back. */
  lemma ReadsBackIffPlain(host: string, port: nat)
    requires 1 <= port <= 65535 && host != "" && '|' !in host && ']' !in host
    ensures ParseEndpoint(JoinHostPort(host, port)) == Some(PortRange(host, port, port)) <==> PlainHost(host)
  {
    if PlainHost(host) { PlainReadsBack(host, port); } else { OddHostMisread(host, port); }
  }
}
