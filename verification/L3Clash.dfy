/** Whether a new listening tunnel's UDP ports are free among the tunnels that
    already listen on this machine. */
module L3Clash {
  import opened Text
  import D = DesiredState

  /** A tunnel that listens, as configured; port is absent when its address has no
      number, and its carrier may be left blank. */
  datatype Listener = Listener(name: string, carrier: string, port: Option<int>, paths: int)

  predicate UdpCarrier(carrier: string) { carrier == "udp" || carrier == "quic" }

  /** The carrier a configured one runs as. */
  function RunsAs(carrier: string): string { if carrier == "" then "udp" else carrier }

  /** l3PortRange. */
  function PortRange(port: int, paths: int): (int, int) { (port, port + (if paths < 1 then 1 else paths) - 1) }

  /** A tunnel on this carrier binds this UDP port. */
  predicate Binds(carrier: string, port: Option<int>, paths: int, udp: int)
  {
    UdpCarrier(carrier) && port.Some? && port.value <= udp < port.value + (if paths < 1 then 1 else paths)
  }

  /** The new tunnel and a running one of another name want one UDP port. */
  ghost predicate Collide(name: string, carrier: string, port: int, paths: int, e: Listener)
  {
    !D.EqualFold(e.name, name) && exists udp ::
      Binds(carrier, Some(port), paths, udp) && Binds(RunsAs(e.carrier), e.port, e.paths, udp)
  }

  /** The same from the numbers: both carriers bind UDP, a blank one on file being
      udp, and the spans of ports, of one port at least, meet. */
  predicate SpansMeet(carrier: string, port: int, paths: int, e: Listener)
  {
    && carrier in {"udp", "quic"} && e.carrier in {"", "udp", "quic"} && e.port.Some?
    && var span, espan := if paths > 1 then paths else 1, if e.paths > 1 then e.paths else 1;
       port < e.port.value + espan && e.port.value < port + span
  }

  lemma CollideIff(name: string, carrier: string, port: int, paths: int, e: Listener)
    ensures Collide(name, carrier, port, paths, e) <==> !D.EqualFold(e.name, name) && SpansMeet(carrier, port, paths, e)
  {
    hide D.EqualFold;
    if SpansMeet(carrier, port, paths, e) {
      var udp := if port < e.port.value then e.port.value else port;
      assert Binds(carrier, Some(port), paths, udp) && Binds(RunsAs(e.carrier), e.port, e.paths, udp);
    }
  }

  /** Ranges overlap exactly when some port is in both. */
  lemma OverlapIsShared(a: string, port: int, paths: int, b: string, eport: int, epaths: int)
    requires UdpCarrier(a) && UdpCarrier(b)
    ensures var (lo, hi) := PortRange(port, paths); var (elo, ehi) := PortRange(eport, epaths);
            lo <= ehi && elo <= hi <==> exists udp ::
              Binds(a, Some(port), paths, udp) && Binds(b, Some(eport), epaths, udp)
  {
    var (lo, hi) := PortRange(port, paths);
    var (elo, ehi) := PortRange(eport, epaths);
    if lo <= ehi && elo <= hi {
      var udp := if lo < elo then elo else lo;
      assert Binds(a, Some(port), paths, udp) && Binds(b, Some(eport), epaths, udp);
    }
  }

  /** l3ListenClash: the first tunnel that wants a port of the new one's, if any. */
  method ListenClash(name: string, carrier: string, port: int, paths: int, existing: seq<Listener>)
    returns (clash: Option<nat>)
    ensures match clash
      case Some(i) =>
        && i < |existing| && Collide(name, carrier, port, paths, existing[i])
        && forall j :: 0 <= j < i ==> !Collide(name, carrier, port, paths, existing[j])
      case None => forall j :: 0 <= j < |existing| ==> !Collide(name, carrier, port, paths, existing[j])
    ensures clash.Some? <==> exists j ::
      0 <= j < |existing| && !D.EqualFold(existing[j].name, name) && SpansMeet(carrier, port, paths, existing[j])
  {
    hide D.EqualFold, SpansMeet;
    forall j | 0 <= j < |existing|
      ensures Collide(name, carrier, port, paths, existing[j])
        <==> !D.EqualFold(existing[j].name, name) && SpansMeet(carrier, port, paths, existing[j])
    {
      CollideIff(name, carrier, port, paths, existing[j]);
    }
    if !UdpCarrier(carrier) { return None; }
    var (lo, hi) := PortRange(port, paths);
    for i := 0 to |existing|
      invariant forall j :: 0 <= j < i ==> !Collide(name, carrier, port, paths, existing[j])
    {
      var e := existing[i];
      if D.EqualFold(e.name, name) || !UdpCarrier(if e.carrier == "" then "udp" else e.carrier) { continue; }
      if e.port.None? { continue; }
      OverlapIsShared(carrier, port, paths, RunsAs(e.carrier), e.port.value, e.paths);
      var (elo, ehi) := PortRange(e.port.value, e.paths);
      if lo <= ehi && elo <= hi { return Some(i); }
    }
    return None;
  }

  /** The carrier a panel form asks for: blank is pck, which is not a blank in the
      file, and anything not on offer is refused. */
  function PanelCarrier(text: string, offered: set<string>): Option<string>
  {
    var t := Lower(TrimSpace(text));
    var carrier := if t == "" then "pck" else t;
    if carrier in offered then Some(carrier) else None
  }

  function Lower(s: string): string { seq(|s|, i requires 0 <= i < |s| => D.Fold(s[i])) }

  lemma PanelCarrierMeans(text: string, offered: set<string>)
    ensures var t, carrier := TrimSpace(text), PanelCarrier(text, offered);
      && (carrier.Some? ==> carrier.value in offered && carrier.value != "")
      && (t == "" ==> carrier == if "pck" in offered then Some("pck") else None)
      && (t != "" && carrier.Some? ==> D.EqualFold(carrier.value, t))
      && (t != "" && Lower(t) in offered ==> carrier.Some?)
  {
    hide TrimSpace;
    var t := TrimSpace(text);
    assert |Lower(t)| == |t|;
    if t != "" { assert Lower(t) != ""; }
  }

  /** A form that is taken is checked for the carrier its tunnel will run: two
      tunnels that would bind one UDP port are never let through together. */
  method PanelClash(name: string, text: string, offered: set<string>, port: int, paths: int, existing: seq<Listener>)
    returns (carrier: Option<string>, clash: Option<nat>)
    ensures carrier == PanelCarrier(text, offered)
    ensures carrier.Some? ==> carrier.value in offered
    ensures TrimSpace(text) == "" ==> carrier == if "pck" in offered then Some("pck") else None
    ensures TrimSpace(text) != "" && carrier.Some? ==> D.EqualFold(carrier.value, TrimSpace(text))
    ensures TrimSpace(text) != "" && Lower(TrimSpace(text)) in offered ==> carrier.Some?
    ensures carrier.Some? ==> (clash.None? <==>
        forall j :: 0 <= j < |existing| && !D.EqualFold(existing[j].name, name) ==>
          forall udp :: !(Binds(RunsAs(carrier.value), Some(port), paths, udp) &&
                          Binds(RunsAs(existing[j].carrier), existing[j].port, existing[j].paths, udp)))
  {
    hide D.EqualFold, Lower, TrimSpace, Binds, SpansMeet, PanelCarrier;
    PanelCarrierMeans(text, offered);
    carrier := PanelCarrier(text, offered);
    clash := None;
    if carrier.Some? {
      clash := ListenClash(name, carrier.value, port, paths, existing);
      if clash.Some? {
        var e := existing[clash.value];
        assert Collide(name, carrier.value, port, paths, e);
      } else {
        forall j | 0 <= j < |existing| ensures !Collide(name, carrier.value, port, paths, existing[j]) {}
      }
    }
  }
}
