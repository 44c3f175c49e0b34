/** The Connection Test coordinator: one question, one answer, over TCP and UDP.
    Requests are the whitespace-separated fields of a line. */
module Coordinator {
  import opened Text
  import opened Paths

  // ---- one-time signals and one-slot channels ----

  /** A channel closed under a sync.Once. Closing it twice would panic, so the
      number of closes is part of the state. */
  datatype Signal = Signal(fired: bool, closes: nat)
  {
    function Fire(): Signal { if fired then this else Signal(true, closes + 1) }
    predicate Valid() { closes == if fired then 1 else 0 }
  }

  /** A one-slot channel written under a sync.Once. */
  datatype OneShot = OneShot(sent: bool, buffer: seq<int>)
  {
    function Send(n: int): OneShot { if sent then this else OneShot(true, buffer + [n]) }
    /** What is left once the reader has taken whatever was there. */
    function Take(): OneShot { OneShot(sent, if buffer == [] then [] else buffer[1..]) }
    /** Before the first send the slot is empty, so that send cannot block. */
    predicate Valid() { |buffer| <= 1 && (!sent ==> buffer == []) }
  }

  // ---- state, requests, replies ----

  datatype Coord = Coord(
    tok: string,
    peer: string,
    verdict: string,
    config: string,
    carriers: map<string, string>,
    httpsProbes: map<string, string>,
    skipped: set<string>,
    directPorts: map<string, string>,
    live: bool,
    joined: Signal,
    fetched: Signal,
    spoof: OneShot,
    pmtu: OneShot,
    stopped: bool)

  datatype Reply =
    | Silence
    | StoppedReply
    | Ok
    | Pm(size: string)
    | CarrierReply(settings: string)
    | ConfigReply(test: string)
    | Wait
    | Live(rows: string)
    | DoneReply(verdict: string)

  type Request = f: seq<string> | |f| >= 2 witness ["", ""]

  predicate CoordValid(c: Coord) {
    c.joined.Valid() && c.fetched.Valid() && c.spoof.Valid() && c.pmtu.Valid()
  }

  function Fresh(tok: string, config: string, carriers: map<string, string>): (c: Coord)
    ensures CoordValid(c)
  {
    Coord(tok, "", "", config, carriers, map[], {}, map[], false, Signal(false, 0), Signal(false, 0),
          OneShot(false, []), OneShot(false, []), false)
  }

  // ---- vocabularies ----

  predicate ManagedTransport(tr: string) { tr == "naive" || tr == "xhttp" || tr == "reality" }

  predicate ValidHTTPSProbe(tr: string, probe: string) {
    ManagedTransport(tr) &&
    (probe == "tcp-failed"
     || (probe == "tcp-ok" && tr == "reality")
     || ((probe == "tls-ok" || probe == "tls-failed") && (tr == "naive" || tr == "xhttp")))
  }

  predicate PortCarrier(tr: string) { tr == "udp" || tr == "quic" || tr == "pck" || tr == "sni" }

  const REVERSE_CASES: set<string> :=
    {"tcp", "tcpmux", "stealth", "pck", "ws", "wss", "wsmux", "wssmux", "kcp", "quic", "udp", "naive", "xhttp",
      "reality"}
  const DIRECT_CASES: set<string> := {"udp", "quic", "pck", "xdi", "sni"}

  predicate SkippableCase(value: string) {
    ManagedTransport(value) ||
    var (kind, tr, found) := Cut(value, '/');
    found && ((kind == "direct" && tr in DIRECT_CASES) || (kind == "reverse" && tr in REVERSE_CASES))
  }

  /** Only the worker's own requests count as having heard a cancellation. */
  predicate StopAcknowledged(f: seq<string>) {
    |f| >= 2 && (VerbOf(f[0]) == Config || VerbOf(f[0]) == Hello || VerbOf(f[0]) == Result)
  }

  /** The replies whose complete delivery tells the suite its peer has heard. */
  predicate Releases(f: seq<string>, reply: Reply) {
    reply.DoneReply? || (reply.StoppedReply? && StopAcknowledged(f))
  }

  function PeerHost(from: string): string { TrimPrefix(from, "::ffff:") }

  // ---- the protocol ----

  datatype Admission = Ignored | ToldStopped | Admitted

  /** The token check and the first locked section of answer. */
  function Admit(c: Coord, f: seq<string>): Admission
  {
    if |f| < 2 || f[1] != c.tok then Ignored
    else if c.stopped then ToldStopped
    else Admitted
  }

  datatype Verb = Unavailable | HttpsProbe | Port | Skip | Carrier | Pmtu | Spoof | Config | Hello | Result | Other

  function VerbOf(word: string): Verb
  {
    if word == "config" then Config
    else if word == "hello" then Hello
    else if word == "result" then Result
    else if word == "pmtu" then Pmtu
    else if word == "spoof" then Spoof
    else if word == "unavailable" then Verb.Unavailable
    else if word == "https-probe" then HttpsProbe
    else if word == "port" then Port
    else if word == "skip" then Skip
    else if word == "carrier" then Carrier
    else Other
  }

  /** The path a request reports as unreachable, if it is such a report. */
  function ReportedPath(f: seq<string>): Option<int>
  {
    if |f| == 3 && VerbOf(f[0]) == Verb.Unavailable then Atoi(f[2]) else None
  }

  predicate IsHello(f: Request) { |f| == 2 && VerbOf(f[0]) == Hello }

  /** A port announcement the protocol understands. */
  function PortAnnounced(text: string): Option<(string, string)>
  {
    var (tr, port, found) := Cut(text, ':');
    var n := Atoi(port);
    if found && n.Some? && 1 <= n.value <= 65535 && PortCarrier(tr) then Some((tr, port)) else None
  }

  function ServePort(c: Coord, tr: string, port: string): (Coord, Reply)
  {
    if c.peer != "" && (tr !in c.directPorts || c.directPorts[tr] != port) then (c, Silence)
    else (c.(directPorts := c.directPorts[tr := port]), Ok)
  }

  function ServeProbe(c: Coord, text: string): (Coord, Reply)
  {
    var (tr, probe, found) := Cut(text, ':');
    if !found || !ValidHTTPSProbe(tr, probe) || c.peer != "" then (c, Silence)
    else (c.(httpsProbes := c.httpsProbes[tr := probe]), Ok)
  }

  /** A count a peer reports: any non-negative number. */
  function Count(text: string): Option<int>
  {
    var n := Atoi(text);
    if n.Some? && n.value >= 0 then n else None
  }

  function ServeResult(c: Coord, rows: string): Reply
  {
    if c.verdict != "" then DoneReply(c.verdict) else if c.live then Live(rows) else Wait
  }

  /** Everything answer does after the stop check, up to but not including the
      join signal that follows an accepted hello. rows is what the running
      test's rows render to, accepted what the suite said to a path report. */
  function Serve(c: Coord, f: Request, from: string, rows: string, accepted: bool): (Coord, Reply)
  {
    if |f| > 3 then (c, if VerbOf(f[0]) == Pmtu && |f| == 4 then Pm(f[2]) else Silence)
    else if |f| == 3 then ServeThree(c, VerbOf(f[0]), f[2], accepted)
    else ServeTwo(c, VerbOf(f[0]), from, rows)
  }

  function ServeThree(c: Coord, verb: Verb, text: string, accepted: bool): (Coord, Reply)
  {
    match verb
    case Unavailable => (c, if accepted then Ok else Silence)
    case HttpsProbe => ServeProbe(c, text)
    case Port =>
      var p := PortAnnounced(text);
      if p.None? then (c, Silence) else ServePort(c, p.value.0, p.value.1)
    case Skip => if SkippableCase(text) then (c.(skipped := c.skipped + {text}), Ok) else (c, Silence)
    case Carrier =>
      (c, if text in c.carriers && c.carriers[text] != "" then CarrierReply(c.carriers[text]) else Silence)
    case Pmtu => if Count(text).None? then (c, Silence) else (c.(pmtu := c.pmtu.Send(Count(text).value)), Ok)
    case Spoof => if Count(text).None? then (c, Silence) else (c.(spoof := c.spoof.Send(Count(text).value)), Ok)
    case _ => (c, Silence)
  }

  function ServeTwo(c: Coord, verb: Verb, from: string, rows: string): (Coord, Reply)
  {
    match verb
    case Config => (c, if c.config == "" then Silence else ConfigReply(c.config))
    case Hello => (if c.peer == "" then c.(peer := PeerHost(from)) else c, Ok)
    case Result => (c, ServeResult(c, rows))
    case _ => (c, Silence)
  }

  /** The whole of answer, when nothing else runs between its locked sections. */
  function Answered(c: Coord, line: string, from: string, rows: string, accepted: bool): (Coord, Reply)
  {
    var f := Fields(line);
    match Admit(c, f)
    case Ignored => (c, Silence)
    case ToldStopped => (c, StoppedReply)
    case Admitted =>
      var (c', reply) := Serve(c, f, from, rows, accepted);
      (if IsHello(f) then c'.(joined := c'.joined.Fire()) else c', reply)
  }

  // ---- what a test takes from its coordinator and gives it ----

  /** One tunnel under test, with the port planned for it. */
  datatype Case = Case(kind: string, tr: string, port: string, skip: bool)

  /** The port a direct case dials: the announced one, else the planned one. */
  function PortFor(c: Coord, tr: string, planned: string): string
  {
    if tr in c.directPorts && c.directPorts[tr] != "" then c.directPorts[tr] else planned
  }

  /** Where a case is dialled, unless it is not a direct one or is skipped. */
  function Dial(c: Coord, case': Case): Option<(string, string)>
  {
    if case'.skip || case'.tr in c.skipped || case'.kind + "/" + case'.tr in c.skipped || case'.kind != "direct"
    then None
    else Some((c.peer, PortFor(c, case'.tr, case'.port)))
  }

  /** The coordinator once a test has gone live, taken the path MTU and published. */
  function Tested(c: Coord, verdict: string): Coord { c.(live := true, pmtu := c.pmtu.Take(), verdict := verdict) }

  // ---- what every step keeps ----

  /** How a coordinator may change, over one step or over any number of them. */
  ghost predicate Evolves(c: Coord, d: Coord)
  {
    && d.tok == c.tok
    && (c.peer != "" ==> d.peer == c.peer && d.directPorts == c.directPorts && d.httpsProbes == c.httpsProbes)
    && (c.verdict != "" ==> d.verdict == c.verdict)
    && (c.live ==> d.live)
    && (c.stopped ==> d.stopped)
    && (c.joined.fired ==> d.joined == c.joined)
    && (c.fetched.fired ==> d.fetched == c.fetched)
    && (c.pmtu.sent ==> d.pmtu.sent && (d.pmtu.buffer == c.pmtu.buffer || d.pmtu.buffer == []))
    && (c.spoof.sent ==> d.spoof.sent && (d.spoof.buffer == c.spoof.buffer || d.spoof.buffer == []))
    && (CoordValid(c) ==> CoordValid(d))
  }

  /** Each thing the suite and its serving goroutines do to a coordinator outside
      Serve is such a change; publishing is one while nothing stands published. */
  lemma OwnMovesEvolve(c: Coord, verdict: string)
    ensures Evolves(c, c) && Evolves(c, c.(live := true)) && Evolves(c, c.(stopped := true))
    ensures CoordValid(c) ==> Evolves(c, c.(pmtu := c.pmtu.Take()))
    ensures c.verdict == "" ==> Evolves(c, c.(verdict := verdict))
    ensures Evolves(c, c.(joined := c.joined.Fire())) && Evolves(c, c.(fetched := c.fetched.Fire()))
  {
  }

  lemma EvolvesKeepsValid(c: Coord, d: Coord)
    requires Evolves(c, d) && CoordValid(c)
    ensures CoordValid(d)
  {
  }

  lemma TestingKeepsValid(c: Coord, verdict: string)
    requires CoordValid(c)
    ensures CoordValid(c.(live := true)) && CoordValid(c.(pmtu := c.pmtu.Take())) && CoordValid(c.(verdict := verdict))
  {
  }

  lemma EvolvesTransitive(a: Coord, b: Coord, c: Coord)
    requires Evolves(a, b) && Evolves(b, c)
    ensures Evolves(a, c)
  {
  }

  /** What no request can do: publish, go live, stop, join or release. */
  ghost predicate LeavesRunAlone(c: Coord, d: Coord)
  {
    d.verdict == c.verdict && d.live == c.live && d.stopped == c.stopped
    && d.joined == c.joined && d.fetched == c.fetched
  }

  lemma ServeThreeEvolves(c: Coord, verb: Verb, text: string, accepted: bool)
    ensures Evolves(c, ServeThree(c, verb, text, accepted).0)
    ensures LeavesRunAlone(c, ServeThree(c, verb, text, accepted).0)
  {
    hide Evolves, PortAnnounced, Count, ServePort, ServeProbe, SkippableCase;
    OwnMovesEvolve(c, "");
    SkipAndSendEvolve(c, text, if Count(text).Some? then Count(text).value else 0);
    if verb == Port && PortAnnounced(text).Some? {
      ServePortEvolves(c, PortAnnounced(text).value.0, PortAnnounced(text).value.1);
    } else if verb == HttpsProbe {
      ServeProbeEvolves(c, text);
    }
  }

  lemma SkipAndSendEvolve(c: Coord, text: string, n: int)
    ensures Evolves(c, c.(skipped := c.skipped + {text}))
    ensures Evolves(c, c.(pmtu := c.pmtu.Send(n))) && Evolves(c, c.(spoof := c.spoof.Send(n)))
  {
  }

  lemma ServePortEvolves(c: Coord, tr: string, port: string)
    ensures Evolves(c, ServePort(c, tr, port).0)
    ensures LeavesRunAlone(c, ServePort(c, tr, port).0)
  {
    if c.peer != "" && tr in c.directPorts && c.directPorts[tr] == port {
      assert c.directPorts[tr := port] == c.directPorts;
    }
  }

  lemma ServeProbeEvolves(c: Coord, text: string)
    ensures Evolves(c, ServeProbe(c, text).0)
    ensures LeavesRunAlone(c, ServeProbe(c, text).0)
  {
    hide Cut, ValidHTTPSProbe;
  }

  lemma ServeEvolves(c: Coord, f: Request, from: string, rows: string, accepted: bool)
    ensures Evolves(c, Serve(c, f, from, rows, accepted).0)
    ensures LeavesRunAlone(c, Serve(c, f, from, rows, accepted).0)
  {
    hide Evolves, ServeThree, VerbOf, PeerHost;
    OwnMovesEvolve(c, "");
    if |f| == 3 {
      ServeThreeEvolves(c, VerbOf(f[0]), f[2], accepted);
    } else if |f| < 3 && c.peer == "" {
      NotingEvolves(c, PeerHost(from));
    }
  }

  lemma NotingEvolves(c: Coord, host: string)
    requires c.peer == ""
    ensures Evolves(c, c.(peer := host))
  {
  }

  lemma ServeKeepsValid(c: Coord, f: Request, from: string, rows: string, accepted: bool)
    requires CoordValid(c)
    ensures CoordValid(Serve(c, f, from, rows, accepted).0)
  {
    hide Serve, Evolves, CoordValid;
    ServeEvolves(c, f, from, rows, accepted);
    EvolvesKeepsValid(c, Serve(c, f, from, rows, accepted).0);
  }

  /** The rank of an answer to "result": wait, then live rows, then the verdict. */
  function ResultRank(r: Reply): nat
  {
    if r.DoneReply? then 2 else if r.Live? then 1 else 0
  }

  lemma ResultsOnlyAdvance(c: Coord, d: Coord, rows: string, rows': string)
    requires Evolves(c, d)
    ensures ResultRank(ServeResult(c, rows)) <= ResultRank(ServeResult(d, rows'))
    ensures ServeResult(c, rows).DoneReply? ==> ServeResult(d, rows') == ServeResult(c, rows)
  {
  }

  /** Which host the test dials is settled by the first hello exactly when that
      hello came from a host with a name; a socket address always has one. */
  lemma HelloSettlesPeer(c: Coord, f: Request, from: string, rows: string, accepted: bool)
    requires IsHello(f)
    ensures Serve(c, f, from, rows, accepted).0.peer != "" <==> c.peer != "" || PeerHost(from) != ""
    ensures c.peer == "" ==> Serve(c, f, from, rows, accepted).0.peer == PeerHost(from)
  {
  }

  /** The hosts that leave nothing: none at all, and the bare mapped prefix. */
  lemma UnnamedHosts(from: string)
    ensures PeerHost(from) == "" <==> from == "" || from == "::ffff:"
  {
    if HasPrefix(from, "::ffff:") { assert from == "::ffff:" + from[7..]; }
  }

  /** An accepted hello on an open coordinator joins it whoever sent it, and fixes
      the peer against every later hello exactly when its sender has a name. */
  lemma JoinFixesPeerIff(c: Coord, line: string, from: string, rows: string, again: string, later: string)
    requires Admit(c, Fields(line)) == Admitted && IsHello(Fields(line)) && c.peer == ""
    requires Admit(c, Fields(again)) == Admitted && IsHello(Fields(again)) && PeerHost(later) != ""
    ensures var d := Answered(c, line, from, rows, false).0;
      && d.joined.fired && d.peer == PeerHost(from)
      && Answered(d, again, later, rows, false).0.peer
          == (if PeerHost(from) != "" then PeerHost(from) else PeerHost(later))
  {
    hide Fields, PeerHost;
    var d := Answered(c, line, from, rows, false).0;
    assert Admit(d, Fields(again)) == Admitted;
  }

  // ---- the object ----

  class CtCoordinator {
    const tok: string
    var peer: string
    var verdict: string
    var config: string
    var carriers: map<string, string>
    var httpsProbes: map<string, string>
    var skipped: set<string>
    var directPorts: map<string, string>
    var live: bool
    var joined: Signal
    var fetched: Signal
    var spoof: OneShot
    var pmtu: OneShot
    var stopped: bool
    const route: PathTable?

    ghost function State(): Coord
      reads this
    {
      Coord(tok, peer, verdict, config, carriers, httpsProbes, skipped, directPorts, live, joined, fetched, spoof, pmtu,
        stopped)
    }

    constructor (tok: string, config: string, carriers: map<string, string>, route: PathTable?)
      ensures State() == Fresh(tok, config, carriers) && this.route == route
    {
      this.tok, this.config, this.carriers, this.route := tok, config, carriers, route;
      peer, verdict, httpsProbes, skipped, directPorts, live := "", "", map[], {}, map[], false;
      joined, fetched := Signal(false, 0), Signal(false, 0);
      spoof, pmtu, stopped := OneShot(false, []), OneShot(false, []), false;
    }

    /** answer, in the order the source checks things. */
    method Answer(line: string, from: string, rows: string) returns (reply: Reply, accepted: bool)
      requires CoordValid(State())
      requires route != null ==> route.Valid()
      modifies this, route
      ensures (State(), reply) == Answered(old(State()), line, from, rows, accepted)
      ensures CoordValid(State())
      ensures route != null ==> route.Valid()
      ensures accepted ==> route != null
      ensures route != null ==>
        if Admit(old(State()), Fields(line)) == Admitted && ReportedPath(Fields(line)).Some?
        then (route.states, accepted) == Mark(old(route.states), ReportedPath(Fields(line)).value)
        else route.states == old(route.states)
    {
      accepted := false;
      var f := Fields(line);
      if |f| < 2 || f[1] != tok { return Silence, false; }
      if stopped { return StoppedReply, false; }
      ServeKeepsValid(State(), f, from, rows, true);
      ServeKeepsValid(State(), f, from, rows, false);
      var verb := VerbOf(f[0]);
      if verb == Pmtu && |f| == 4 { return Pm(f[2]), false; }
      if |f| > 3 { return Silence, false; }
      if |f| == 3 {
        reply, accepted := AnswerThree(verb, f[2]);
        return;
      }
      match verb
      case Config =>
        return if config == "" then Silence else ConfigReply(config), false;
      case Hello =>
        if peer == "" { peer := PeerHost(from); }
        joined := joined.Fire();
        return Ok, false;
      case Result =>
        if verdict == "" {
          return if live then Live(rows) else Wait, false;
        }
        return DoneReply(verdict), false;
      case _ =>
        return Silence, false;
    }

    /** The requests that carry one argument after the token. */
    method AnswerThree(verb: Verb, text: string) returns (reply: Reply, accepted: bool)
      requires route != null ==> route.Valid()
      modifies this, route
      ensures (State(), reply) == ServeThree(old(State()), verb, text, accepted)
      ensures route != null ==> route.Valid()
      ensures accepted ==> route != null
      ensures route != null ==>
        if verb == Verb.Unavailable && Atoi(text).Some?
        then (route.states, accepted) == Mark(old(route.states), Atoi(text).value)
        else route.states == old(route.states)
    {
      hide Cut, Atoi, ValidHTTPSProbe, SkippableCase, PortAnnounced, Count, Mark;
      accepted := false;
      match verb
      case Unavailable =>
        var i := Atoi(text);
        if i.Some? && route != null {
          accepted := route.MarkUnavailable(i.value, "Kharej could not reach this path's test coordinator");
        }
        return if accepted then Ok else Silence, accepted;
      case HttpsProbe =>
        var (tr, probe, found) := Cut(text, ':');
        if !found || !ValidHTTPSProbe(tr, probe) || peer != "" { return Silence, false; }
        httpsProbes := httpsProbes[tr := probe];
        return Ok, false;
      case Port =>
        var p := PortAnnounced(text);
        if p.None? { return Silence, false; }
        var (tr, port) := p.value;
        if peer != "" && (tr !in directPorts || directPorts[tr] != port) { return Silence, false; }
        directPorts := directPorts[tr := port];
        return Ok, false;
      case Skip =>
        if !SkippableCase(text) { return Silence, false; }
        skipped := skipped + {text};
        return Ok, false;
      case Carrier =>
        return if text in carriers && carriers[text] != "" then CarrierReply(carriers[text]) else Silence, false;
      case Pmtu =>
        var n := Count(text);
        if n.None? { return Silence, false; }
        pmtu := pmtu.Send(n.value);
        return Ok, false;
      case Spoof =>
        var n := Count(text);
        if n.None? { return Silence, false; }
        spoof := spoof.Send(n.value);
        return Ok, false;
      case _ =>
        return Silence, false;
    }

    /** The serving loops' last act once a reply has been written: only a whole
        verdict, or a whole "stopped" the worker will act on, releases the suite. */
    method Delivered(f: seq<string>, reply: Reply, whole: bool)
      requires CoordValid(State())
      modifies this`fetched
      ensures CoordValid(State())
      ensures fetched == if whole && Releases(f, reply) then old(fetched).Fire() else old(fetched)
    {
      if whole && (reply.DoneReply? || (reply.StoppedReply? && StopAcknowledged(f))) {
        fetched := fetched.Fire();
      }
    }

    method SetLive()
      modifies this`live
      ensures live
    {
      live := true;
    }

    method Publish(verdict: string)
      modifies this`verdict
      ensures this.verdict == verdict
    {
      this.verdict := verdict;
    }

    method DirectPort(tr: string, planned: string) returns (port: string)
      ensures port == PortFor(State(), tr, planned)
      ensures port == if tr in directPorts && directPorts[tr] != "" then directPorts[tr] else planned
    {
      if tr in directPorts && directPorts[tr] != "" { return directPorts[tr]; }
      return planned;
    }

    /** ConnTestIran.Run as far as the coordinator sees it, nothing else going on:
        every direct case that is not skipped is dialled at the noted peer, on its
        announced port; afterwards "result" is answered with the verdict. */
    method RunTest(cases: seq<Case>, verdict: string) returns (dials: seq<Option<(string, string)>>, size: int)
      modifies this`live, this`pmtu, this`verdict
      ensures |dials| == |cases| && forall i :: 0 <= i < |cases| ==> dials[i] == Dial(old(State()), cases[i])
      ensures forall i :: 0 <= i < |cases| ==>
        var c := cases[i];
        if c.kind != "direct" || c.skip || c.tr in skipped || c.kind + "/" + c.tr in skipped then dials[i].None?
        else
          var announced := if c.tr in directPorts then directPorts[c.tr] else "";
          dials[i] == Some((peer, if announced != "" then announced else c.port))
      ensures size == if old(pmtu).buffer == [] then 0 else old(pmtu).buffer[0]
      ensures live && this.verdict == verdict && pmtu.sent == old(pmtu).sent
      ensures pmtu.buffer == if old(pmtu).buffer == [] then [] else old(pmtu).buffer[1..]
      ensures State() == Tested(old(State()), verdict)
      ensures verdict != "" ==> forall rows :: ServeResult(State(), rows) == DoneReply(verdict)
    {
      dials := [];
      for i := 0 to |cases|
        invariant |dials| == i && State() == old(State())
        invariant forall j :: 0 <= j < i ==> dials[j] == Dial(old(State()), cases[j])
      {
        var c := cases[i];
        var skip := c.skip || c.tr in skipped || c.kind + "/" + c.tr in skipped;
        if c.kind != "direct" || skip {
          dials := dials + [None];
          continue;
        }
        var port := DirectPort(c.tr, c.port);
        dials := dials + [Some((peer, port))];
      }
      SetLive();
      size := if pmtu.buffer == [] then 0 else pmtu.buffer[0];
      pmtu := pmtu.Take();
      Publish(verdict);
    }
  }
}
