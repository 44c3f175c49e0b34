/** What every request line means to a coordinator that admits it, from the words
    of the line and what was put into the coordinator before. */
module Requests {
  import opened Text
  import opened Coordinator

  // ---- who is answered at all ----

  lemma WithoutToken(c: Coord, line: string, from: string, rows: string, accepted: bool)
    requires var f := Fields(line); |f| < 2 || f[1] != c.tok
    ensures Answered(c, line, from, rows, accepted) == (c, Silence)
  {
    hide Fields, Serve;
  }

  lemma AfterStop(c: Coord, line: string, from: string, rows: string, accepted: bool)
    requires var f := Fields(line); |f| >= 2 && f[1] == c.tok && c.stopped
    ensures Answered(c, line, from, rows, accepted) == (c, StoppedReply)
  {
    hide Fields, Serve;
  }

  // ---- measurements of the peer ----

  /** "pmtu <token> <n>" fills the path-MTU slot, once; "spoof" the other one. */
  lemma PmtuRequest(c: Coord, line: string, from: string, rows: string, accepted: bool, text: string)
    requires Fields(line) == ["pmtu", c.tok, text] && !c.stopped
    ensures var n := Atoi(text);
      Answered(c, line, from, rows, accepted) ==
        if n.None? || n.value < 0 then (c, Silence)
        else if c.pmtu.sent then (c, Ok)
        else (c.(pmtu := OneShot(true, c.pmtu.buffer + [n.value])), Ok)
  {
    hide Fields, Atoi;
  }

  lemma SpoofRequest(c: Coord, line: string, from: string, rows: string, accepted: bool, text: string)
    requires Fields(line) == ["spoof", c.tok, text] && !c.stopped
    ensures var n := Atoi(text);
      Answered(c, line, from, rows, accepted) ==
        if n.None? || n.value < 0 then (c, Silence)
        else if c.spoof.sent then (c, Ok)
        else (c.(spoof := OneShot(true, c.spoof.buffer + [n.value])), Ok)
  {
    hide Fields, Atoi;
  }

  /** A path-MTU probe carries padding and is answered with its size. */
  lemma ProbeRequest(c: Coord, line: string, from: string, rows: string, accepted: bool, size: string, pad: string)
    requires Fields(line) == ["pmtu", c.tok, size, pad] && !c.stopped
    ensures Answered(c, line, from, rows, accepted) == (c, Pm(size))
  {
    hide Fields;
  }

  // ---- reports before the test ----

  lemma UnavailableRequest(c: Coord, line: string, from: string, rows: string, accepted: bool, text: string)
    requires Fields(line) == ["unavailable", c.tok, text] && !c.stopped
    ensures ReportedPath(Fields(line)) == Atoi(text)
    ensures Answered(c, line, from, rows, accepted) == (c, if accepted then Ok else Silence)
  {
    hide Fields, Atoi;
  }

  /** Preflight codes of the three managed helpers, while no peer is noted. */
  lemma HttpsProbeRequest(c: Coord, line: string, from: string, rows: string, accepted: bool, text: string)
    requires Fields(line) == ["https-probe", c.tok, text] && !c.stopped
    ensures var (tr, probe, found) := Cut(text, ':');
      Answered(c, line, from, rows, accepted) ==
        if found && c.peer == "" && (tr, probe) in HTTPS_CODES
        then (c.(httpsProbes := c.httpsProbes[tr := probe]), Ok)
         else (c, Silence)
  {
    hide Fields, Cut;
  }

  const HTTPS_CODES: set<(string, string)> :=
    {("naive", "tcp-failed"), ("naive", "tls-failed"), ("naive", "tls-ok"),
     ("xhttp", "tcp-failed"), ("xhttp", "tls-failed"), ("xhttp", "tls-ok"),
     ("reality", "tcp-failed"), ("reality", "tcp-ok")}

  /** A direct listener's port, which is fixed once a peer is noted. */
  lemma PortRequest(c: Coord, line: string, from: string, rows: string, accepted: bool, text: string)
    requires Fields(line) == ["port", c.tok, text] && !c.stopped
    ensures var (tr, port, found) := Cut(text, ':'); var n := Atoi(port);
      var known := found && n.Some? && 1 <= n.value <= 65535 && tr in {"udp", "quic", "pck", "sni"};
      Answered(c, line, from, rows, accepted)
      == if known && (c.peer == "" || (tr in c.directPorts && c.directPorts[tr] == port))
         then (c.(directPorts := c.directPorts[tr := port]), Ok) else (c, Silence)
  {
    hide Fields, Cut, Atoi;
  }

  lemma SkipRequest(c: Coord, line: string, from: string, rows: string, accepted: bool, name: string)
    requires Fields(line) == ["skip", c.tok, name] && !c.stopped
    ensures Answered(c, line, from, rows, accepted)
      == if SkippableCase(name) then (c.(skipped := c.skipped + {name}), Ok) else (c, Silence)
  {
    hide Fields, SkippableCase;
  }

  // ---- what the coordinator hands out ----

  /** The settings put in for this helper. */
  lemma CarrierRequest(c: Coord, line: string, from: string, rows: string, accepted: bool, name: string)
    requires Fields(line) == ["carrier", c.tok, name] && !c.stopped
    ensures Answered(c, line, from, rows, accepted)
      == (c, if name in c.carriers && c.carriers[name] != "" then CarrierReply(c.carriers[name]) else Silence)
  {
    hide Fields;
  }

  lemma ConfigRequest(c: Coord, line: string, from: string, rows: string, accepted: bool)
    requires Fields(line) == ["config", c.tok] && !c.stopped
    ensures Answered(c, line, from, rows, accepted) == (c, if c.config == "" then Silence else ConfigReply(c.config))
  {
    hide Fields;
  }

  /** The first hello joins; a host is noted without the mapped-address prefix,
      unless one is noted already. */
  lemma HelloRequest(c: Coord, line: string, from: string, rows: string, accepted: bool)
    requires Fields(line) == ["hello", c.tok] && !c.stopped
    ensures var joined := if c.joined.fired then c.joined else Signal(true, c.joined.closes + 1);
      var host := if HasPrefix(from, "::ffff:") then from[7..] else from;
      Answered(c, line, from, rows, accepted)
      == (c.(joined := joined, peer := if c.peer == "" then host else c.peer), Ok)
  {
    hide Fields;
  }

  lemma ResultRequest(c: Coord, line: string, from: string, rows: string, accepted: bool)
    requires Fields(line) == ["result", c.tok] && !c.stopped
    ensures Answered(c, line, from, rows, accepted)
      == (c, if c.verdict != "" then DoneReply(c.verdict) else if c.live then Live(rows) else Wait)
  {
    hide Fields;
  }

  // ---- everything else ----

  const ONE_WORD: set<string> := {"config", "hello", "result"}
  const TWO_WORDS: set<string> := {"unavailable", "https-probe", "port", "skip", "carrier", "pmtu", "spoof"}

  lemma OtherRequest(c: Coord, line: string, from: string, rows: string, accepted: bool)
    requires var f := Fields(line);
      && |f| >= 2 && f[1] == c.tok && !c.stopped
      && (if |f| == 2 then f[0] !in ONE_WORD else if |f| == 3 then f[0] !in TWO_WORDS else |f| > 4 || f[0] != "pmtu")
    ensures Answered(c, line, from, rows, accepted) == (c, Silence)
  {
    hide Fields, Cut, Atoi;
  }

  // ---- which cases may be skipped ----

  lemma SkippableIff(kind: string, tr: string)
    requires '/' !in kind
    ensures SkippableCase(kind + "/" + tr) <==>
      || (kind == "direct" && tr in {"udp", "quic", "pck", "xdi", "sni"})
      || (kind == "reverse" && tr in {"tcp", "tcpmux", "stealth", "pck", "ws", "wss", "wsmux", "wssmux", "kcp", "quic",
                                      "udp", "naive", "xhttp", "reality"})
  {
    CutJoined(kind, '/', tr);
    assert kind + "/" + tr == kind + ['/'] + tr;
    Unmanaged(kind + "/" + tr, |kind|);
  }

  lemma Unmanaged(name: string, i: nat)
    requires i < |name| && name[i] == '/'
    ensures !ManagedTransport(name)
  {
    assert forall c :: c in "naive" || c in "xhttp" || c in "reality" ==> c != '/';
    assert name[i] in name;
  }

  lemma SkippableAlone(name: string)
    requires '/' !in name
    ensures SkippableCase(name) <==> name in {"naive", "xhttp", "reality"}
  {
    assert IndexOf(name, '/') == |name|;
  }
}
