/** The compact connection-test link: base64url of a version, the coordinator's
    port, the test's secret and the host. Go strings are bytes, so a host is a
    byte sequence here; the link itself is text. */
module Link {
  import opened Text

  type Byte = b: nat | b < 256
  type Bytes = seq<Byte>

  // ---- base64url without padding, section 5 of RFC 4648 ----

  function Letter(v: nat): (c: char)
    requires v < 64
    ensures InAlphabet(c) && LetterValue(c) == v
  {
    if v < 26 then 'A' + v as char
    else if v < 52 then 'a' + (v - 26) as char
    else if v < 62 then '0' + (v - 52) as char
    else if v == 62 then '-' else '_'
  }

  predicate InAlphabet(c: char)
  {
    'A' <= c <= 'Z' || 'a' <= c <= 'z' || '0' <= c <= '9' || c == '-' || c == '_'
  }

  function LetterValue(c: char): (v: nat)
    requires InAlphabet(c)
    ensures v < 64
  {
    if 'A' <= c <= 'Z' then (c - 'A') as nat
    else if 'a' <= c <= 'z' then (c - 'a') as nat + 26
    else if '0' <= c <= '9' then (c - '0') as nat + 52
    else if c == '-' then 62 else 63
  }

  function EncodeGroup(a: Byte, b: Byte, c: Byte): (g: string)
    ensures |g| == 4
  {
    [Letter(a / 4), Letter(a % 4 * 16 + b / 16), Letter(b % 16 * 4 + c / 64), Letter(c % 64)]
  }

  function Encode(b: Bytes): (s: string)
    ensures forall i :: 0 <= i < |s| ==> InAlphabet(s[i])
    ensures b != [] ==> s != ""
  {
    if |b| == 0 then ""
    else if |b| == 1 then EncodeGroup(b[0], 0, 0)[..2]
    else if |b| == 2 then EncodeGroup(b[0], b[1], 0)[..3]
    else EncodeGroup(b[0], b[1], b[2]) + Encode(b[3..])
  }

  /** Line breaks inside the text are skipped. */
  function Unwrapped(s: string): string
  {
    if s == [] then []
    else if s[0] == '\r' || s[0] == '\n' then Unwrapped(s[1..])
    else [s[0]] + Unwrapped(s[1..])
  }

  function DecodeGroup(v0: nat, v1: nat, v2: nat, v3: nat): (b: Bytes)
    requires v0 < 64 && v1 < 64 && v2 < 64 && v3 < 64
    ensures |b| == 3
  {
    [v0 * 4 + v1 / 16, v1 % 16 * 16 + v2 / 4, v2 % 4 * 64 + v3]
  }

  /** Left-over bits of a short last group are ignored, as the decoder does. */
  function DecodeLetters(s: string): (r: Option<Bytes>)
  {
    if |s| == 0 then Some([])
    else if |s| == 1 then None
    else if !InAlphabet(s[0]) || !InAlphabet(s[1]) then None
    else if |s| == 2 then Some(DecodeGroup(LetterValue(s[0]), LetterValue(s[1]), 0, 0)[..1])
    else if !InAlphabet(s[2]) then None
    else if |s| == 3 then Some(DecodeGroup(LetterValue(s[0]), LetterValue(s[1]), LetterValue(s[2]), 0)[..2])
    else if !InAlphabet(s[3]) then None
    else
      var rest := DecodeLetters(s[4..]);
      if rest.None? then None
      else Some(DecodeGroup(LetterValue(s[0]), LetterValue(s[1]), LetterValue(s[2]), LetterValue(s[3])) + rest.value)
  }

  function Decode(s: string): Option<Bytes> { DecodeLetters(Unwrapped(s)) }

  lemma GroupReadsBack(a: Byte, b: Byte, c: Byte)
    ensures var g := EncodeGroup(a, b, c);
            DecodeGroup(LetterValue(g[0]), LetterValue(g[1]), LetterValue(g[2]), LetterValue(g[3])) == [a, b, c]
  {
    hide Letter, LetterValue, InAlphabet;
    BitsSplit(a, 4, 16, b / 16);
    BitsSplit(b, 16, 4, c / 64);
    assert c / 64 * 64 + c % 64 == c;
  }

  /** A byte cut in two, its low part carried on top of another number. */
  lemma BitsSplit(x: nat, low: nat, up: nat, y: nat)
    requires x < 256 && y < up && ((low == 4 && up == 16) || (low == 16 && up == 4))
    ensures x / low * low + (x % low * up + y) / up == x && (x % low * up + y) % up == y
  {
  }

  lemma OneReadsBack(a: Byte)
    ensures DecodeLetters(Encode([a])) == Some([a])
  {
    var g := EncodeGroup(a, 0, 0);
    GroupReadsBack(a, 0, 0);
    hide Letter, LetterValue, InAlphabet;
    assert Encode([a]) == [g[0], g[1]];
    var v0, v1, v2, v3 := LetterValue(g[0]), LetterValue(g[1]), LetterValue(g[2]), LetterValue(g[3]);
    assert DecodeGroup(v0, v1, 0, 0)[..1] == DecodeGroup(v0, v1, v2, v3)[..1] == [a];
  }

  lemma TwoReadBack(a: Byte, b: Byte)
    ensures DecodeLetters(Encode([a, b])) == Some([a, b])
  {
    var g := EncodeGroup(a, b, 0);
    GroupReadsBack(a, b, 0);
    hide Letter, LetterValue, InAlphabet;
    assert Encode([a, b]) == [g[0], g[1], g[2]];
    var v0, v1, v2, v3 := LetterValue(g[0]), LetterValue(g[1]), LetterValue(g[2]), LetterValue(g[3]);
    assert DecodeGroup(v0, v1, v2, 0)[..2] == DecodeGroup(v0, v1, v2, v3)[..2] == [a, b];
  }

  lemma {:induction false} LettersReadBack(b: Bytes)
    ensures DecodeLetters(Encode(b)) == Some(b)
  {
    hide Letter, LetterValue, InAlphabet;
    if |b| == 1 {
      OneReadsBack(b[0]);
      assert b == [b[0]];
    } else if |b| == 2 {
      TwoReadBack(b[0], b[1]);
      assert b == [b[0], b[1]];
    } else if |b| >= 3 {
      GroupReadsBack(b[0], b[1], b[2]);
      LettersReadBack(b[3..]);
      assert Encode(b)[4..] == Encode(b[3..]);
      assert b == [b[0], b[1], b[2]] + b[3..];
    }
  }

  lemma {:induction false} AlphabetUnwrapped(s: string)
    requires forall i :: 0 <= i < |s| ==> InAlphabet(s[i])
    ensures Unwrapped(s) == s
  {
    if s != [] { AlphabetUnwrapped(s[1..]); }
  }

  /** Decoding undoes encoding for every byte sequence. */
  lemma DecodeUndoesEncode(b: Bytes)
    ensures Decode(Encode(b)) == Some(b)
  {
    AlphabetUnwrapped(Encode(b));
    LettersReadBack(b);
  }

  /** Table 2 of RFC 4648: each range of letters in order, from its first to its last. */
  lemma AlphabetMeans(v: nat, w: nat)
    requires v < w < 64
    ensures w < 26 || (26 <= v && w < 52) || (52 <= v && w < 62) ==> Letter(v) < Letter(w)
    ensures [Letter(0), Letter(25), Letter(26), Letter(51), Letter(52), Letter(61), Letter(62), Letter(63)]
         == "AZaz09-_"
  {
    assert Letter(0) == 'A' && Letter(25) == 'Z' && Letter(26) == 'a' && Letter(51) == 'z';
    assert Letter(52) == '0' && Letter(61) == '9' && Letter(62) == '-' && Letter(63) == '_';
  }

  /** The four letters of a group are the digits, to base 64, of its 24 bits. */
  lemma GroupMeans(a: Byte, b: Byte, c: Byte)
    ensures var g := EncodeGroup(a, b, c);
            0x4_0000 * LetterValue(g[0]) + 0x1000 * LetterValue(g[1]) + 0x40 * LetterValue(g[2]) + LetterValue(g[3])
            == 0x1_0000 * a + 0x100 * b + c
  {
    hide Letter, LetterValue, InAlphabet;
  }

  lemma {:induction false} EncodedLength(b: Bytes)
    ensures |Encode(b)| == (4 * |b| + 2) / 3
  {
    if |b| >= 3 { EncodedLength(b[3..]); }
  }

  /** Byte k of the bytes, zero past their end. */
  function ByteAt(b: Bytes, k: nat): Byte { if k < |b| then b[k] else 0 }

  /** Section 4 of RFC 4648: letter j comes from the three bytes of its group, those
      past the end read as zero, and no more letters are written than the bits need. */
  lemma {:induction false} EncodingMeans(b: Bytes, j: nat)
    requires j < |Encode(b)|
    ensures |Encode(b)| == (4 * |b| + 2) / 3
    ensures var k := j / 4 * 3;
            Encode(b)[j] == EncodeGroup(ByteAt(b, k), ByteAt(b, k + 1), ByteAt(b, k + 2))[j % 4]
  {
    hide EncodeGroup;
    EncodedLength(b);
    if j >= 4 {
      EncodingMeans(b[3..], j - 4);
      var k := (j - 4) / 4 * 3;
      assert k + 3 == j / 4 * 3 && (j - 4) % 4 == j % 4;
      assert ByteAt(b[3..], k) == ByteAt(b, k + 3) && ByteAt(b[3..], k + 1) == ByteAt(b, k + 4)
          && ByteAt(b[3..], k + 2) == ByteAt(b, k + 5);
    }
  }

  /** A padded text is no unpadded one. */
  lemma {:induction false} PaddingRefused(b: Bytes)
    ensures DecodeLetters(Encode(b) + "=") == None
  {
    hide Letter, LetterValue;
    var s := Encode(b) + "=";
    if |b| >= 3 {
      var g := EncodeGroup(b[0], b[1], b[2]);
      assert s[0] == g[0] && s[1] == g[1] && s[2] == g[2] && s[3] == g[3];
      assert s[4..] == Encode(b[3..]) + "=";
      PaddingRefused(b[3..]);
    }
  }

  // ---- addresses ----

  datatype IP = V4(b: Bytes) | V6(b: Bytes)

  /** The parts of Go's net and netip packages the link leans on: ParseIP (To4
      tells the two kinds apart), IP.String, and StringExpanded of ParseAddr. */
  datatype Net = Net(parse: Bytes -> Option<IP>, text: IP -> Bytes, expanded: Bytes -> Option<Bytes>)

  /** What those packages promise, as far as the link needs it: an IPv4 address is
      four bytes and prints to at least seven; every address prints to something;
      a four-byte address text expands, to a text of another length that parses
      to the same. */
  ghost predicate Lawful(net: Net)
  {
    && (forall h :: net.parse(h).Some? && net.parse(h).value.V4? ==> |net.parse(h).value.b| == 4)
    && net.parse([]).None?
    && (forall ip :: |net.text(ip)| > 0)
    && (forall b: Bytes :: |b| == 4 ==> |net.text(V4(b))| >= 7)
    && (forall h :: |h| == 4 && net.parse(h).Some? ==> net.parse(h).value.V6? && net.expanded(h).Some?)
    && (forall h :: |h| == 4 && net.expanded(h).Some? ==>
          |net.expanded(h).value| > 4 && net.parse(net.expanded(h).value) == net.parse(h))
  }

  /** An address in its canonical text; anything else as it is. */
  function Canonical(net: Net, host: Bytes): Bytes
  {
    var ip := net.parse(host);
    if ip.Some? then net.text(ip.value) else host
  }

  // ---- the link ----

  const SHARE_SCHEME := "backpack://"
  const SCHEME := "backpack://t."
  const SECRET_LEN: nat := 12
  const FIXED_LEN: nat := 15

  /** Four bytes for IPv4, the name as text otherwise; a four-character address
      text is expanded first, because four bytes mean IPv4. */
  function Tail(net: Net, host: Bytes): Bytes
  {
    var ip := net.parse(host);
    if ip.Some? && ip.value.V4? then ip.value.b
    else if |host| == 4 && net.expanded(host).Some? then net.expanded(host).value
    else host
  }

  function Body(net: Net, host: Bytes, coord: nat, secret: Bytes): Bytes
    requires coord < 65536
  {
    [1, coord / 256, coord % 256] + secret + Tail(net, host)
  }

  /** ConnTestLink.Short. */
  function Short(net: Net, host: Bytes, coord: nat, secret: Bytes): string
    requires coord < 65536
  {
    SCHEME + Encode(Body(net, host, coord, secret))
  }

  datatype Parsed = Damaged | Suite(routes: Bytes) | Address(host: Bytes, coord: nat, tok: string)

  predicate LinkChar(c: char) { InAlphabet(c) || c == '=' || c == '.' }

  function LinkPrefix(s: string): string
  {
    if s != [] && LinkChar(s[0]) then [s[0]] + LinkPrefix(s[1..]) else []
  }

  function TrimDots(s: string): string
  {
    if s != [] && s[|s| - 1] == '.' then TrimDots(s[..|s| - 1]) else s
  }

  /** What FindSetupLink makes of a text that starts with a link and holds no
      white space. */
  function FindLink(s: string): string
  {
    if HasPrefix(s, SHARE_SCHEME) then TrimDots(SHARE_SCHEME + LinkPrefix(s[|SHARE_SCHEME|..])) else s
  }

  /** The host a tail stands for. */
  function TailHost(net: Net, tail: Bytes): Bytes
  {
    if |tail| == 4 then net.text(V4(tail)) else Canonical(net, tail)
  }

  function ParseBody(net: Net, b: Bytes): Parsed
  {
    if |b| <= FIXED_LEN || (b[0] != 1 && b[0] != 2) then Damaged
    else if b[0] == 2 then Suite(b[1..])
    else
      var host := TailHost(net, b[FIXED_LEN..]);
      var coord: nat := (b[1] as nat) * 256 + b[2];
      if coord == 0 || host == [] then Damaged else Address(host, coord, Encode(b[3..FIXED_LEN]))
  }

  /** parseConnTestLink. */
  function Parse(net: Net, s: string): Parsed
  {
    var link := FindLink(s);
    if !HasPrefix(link, SCHEME) then Damaged
    else
      var b := Decode(link[|SCHEME|..]);
      if b.None? then Damaged else ParseBody(net, b.value)
  }

  // ---- the round trip ----

  lemma {:induction false} LinkPrefixStops(s: string, junk: string)
    requires forall i :: 0 <= i < |s| ==> LinkChar(s[i])
    requires junk != "" ==> !LinkChar(junk[0])
    ensures LinkPrefix(s + junk) == s
  {
    if s != [] {
      assert (s + junk)[1..] == s[1..] + junk;
      LinkPrefixStops(s[1..], junk);
    } else {
      assert s + junk == junk;
    }
  }

  lemma {:induction false} DotsTrimmed(s: string, dots: string)
    requires s != "" && s[|s| - 1] != '.' && forall i :: 0 <= i < |dots| ==> dots[i] == '.'
    ensures TrimDots(s + dots) == s
    decreases |dots|
  {
    if dots == "" {
      assert s + dots == s;
    } else {
      assert (s + dots)[..|s + dots| - 1] == s + dots[..|dots| - 1];
      DotsTrimmed(s, dots[..|dots| - 1]);
    }
  }

  lemma LinkFound(rest: string, dots: string, junk: string)
    requires rest != "" && rest[|rest| - 1] != '.' && forall i :: 0 <= i < |rest| ==> LinkChar(rest[i])
    requires forall i :: 0 <= i < |dots| ==> dots[i] == '.'
    requires junk != "" ==> !LinkChar(junk[0])
    ensures FindLink(SHARE_SCHEME + rest + dots + junk) == SHARE_SCHEME + rest
  {
    hide InAlphabet;
    var whole, run := SHARE_SCHEME + rest + dots + junk, rest + dots;
    assert whole == SHARE_SCHEME + (run + junk);
    assert whole[|SHARE_SCHEME|..] == run + junk && HasPrefix(whole, SHARE_SCHEME);
    forall i | 0 <= i < |run| ensures LinkChar(run[i]) {
      if i >= |rest| { assert run[i] == dots[i - |rest|]; }
    }
    LinkPrefixStops(run, junk);
    var link := SHARE_SCHEME + rest;
    assert SHARE_SCHEME + run == link + dots;
    assert link[|link| - 1] == rest[|rest| - 1];
    DotsTrimmed(link, dots);
  }

  lemma SchemeSplits(text: string, more: string)
    ensures SCHEME + text + more == SHARE_SCHEME + ("t." + text) + more
  {
    assert SCHEME == SHARE_SCHEME + "t.";
  }

  lemma TextIsFound(text: string, dots: string, junk: string)
    requires text != "" && text[|text| - 1] != '.' && forall i :: 0 <= i < |text| ==> LinkChar(text[i])
    requires forall i :: 0 <= i < |dots| ==> dots[i] == '.'
    requires junk != "" ==> !LinkChar(junk[0])
    ensures FindLink(SCHEME + text + dots + junk) == SCHEME + text
  {
    hide FindLink;
    var rest := "t." + text;
    forall i | 0 <= i < |rest| ensures LinkChar(rest[i]) {
      if i >= 2 { assert rest[i] == text[i - 2]; }
    }
    assert rest[|rest| - 1] == text[|text| - 1];
    LinkFound(rest, dots, junk);
    SchemeSplits(text, "");
    SchemeSplits(text, dots + junk);
    assert SCHEME + text + dots + junk == SCHEME + text + (dots + junk);
    assert SHARE_SCHEME + rest + dots + junk == SHARE_SCHEME + rest + (dots + junk);
    assert SHARE_SCHEME + rest == SCHEME + text;
  }

  lemma ShortIsFound(text: string)
    requires text != "" && text[|text| - 1] != '.' && forall i :: 0 <= i < |text| ==> LinkChar(text[i])
    ensures FindLink(SCHEME + text) == SCHEME + text
    ensures HasPrefix(SCHEME + text, SCHEME) && (SCHEME + text)[|SCHEME|..] == text
  {
    hide FindLink, LinkChar;
    TextIsFound(text, "", "");
    assert SCHEME + text + "" + "" == SCHEME + text;
  }

  lemma BodyParts(net: Net, host: Bytes, coord: nat, secret: Bytes)
    requires coord < 65536 && |secret| == SECRET_LEN
    ensures var b := Body(net, host, coord, secret);
            && |b| == FIXED_LEN + |Tail(net, host)| && b[0] == 1 && (b[1] as nat) * 256 + b[2] == coord
            && b[3..FIXED_LEN] == secret && b[FIXED_LEN..] == Tail(net, host)
  {
  }

  lemma ParseOfShort(net: Net, host: Bytes, coord: nat, secret: Bytes)
    requires coord < 65536 && |secret| == SECRET_LEN
    ensures Parse(net, Short(net, host, coord, secret)) == ParseBody(net, Body(net, host, coord, secret))
  {
    hide ParseBody, Body;
    var b := Body(net, host, coord, secret);
    assert b != [] by { BodyParts(net, host, coord, secret); }
    ShortIsFound(Encode(b));
    DecodeUndoesEncode(b);
  }

  /** What is inside a printed link: the version, the port with its high byte first,
      the secret, and the tail. */
  lemma ShortHolds(net: Net, host: Bytes, coord: nat, secret: Bytes)
    requires coord < 65536 && |secret| == SECRET_LEN
    ensures var link := Short(net, host, coord, secret);
      && HasPrefix(link, "backpack://t.")
      && var b := Decode(link[13..]);
         && b.Some? && |b.value| >= 15 && b.value[0] == 1
         && (b.value[1] as nat) * 256 + b.value[2] == coord
         && b.value[3..15] == secret && b.value[15..] == Tail(net, host)
  {
    hide Decode, Encode, Body, Tail;
    BodyParts(net, host, coord, secret);
    var b := Body(net, host, coord, secret);
    ShortIsFound(Encode(b));
    DecodeUndoesEncode(b);
  }

  /** A host survives its tail exactly when it is not a four-byte name that is no
      address. */
  lemma TailStandsForHost(net: Net, host: Bytes)
    requires Lawful(net)
    ensures TailHost(net, Tail(net, host)) == Canonical(net, host) <==> !(|host| == 4 && net.parse(host).None?)
    ensures Canonical(net, host) == [] <==> host == []
    ensures Tail(net, host) == [] <==> host == []
  {
    var tail := Tail(net, host);
    var ip := net.parse(host);
    assert ip.Some? ==> |net.text(ip.value)| > 0;
    if |host| == 4 {
      if net.expanded(host).Some? {
        assert |tail| > 4 && net.parse(tail) == ip;
      } else {
        assert ip.None? && |net.text(V4(host))| >= 7;
      }
    }
  }

  /** For every port, secret and host text: reading a printed link gives back the
      port, the secret and the host's canonical form, exactly when the port is not
      0, and the host is not empty and no four-byte name that is no address. */
  lemma LinkRoundTrip(net: Net, host: Bytes, coord: nat, secret: Bytes)
    requires Lawful(net) && coord < 65536 && |secret| == SECRET_LEN
    ensures Parse(net, Short(net, host, coord, secret)) == Address(Canonical(net, host), coord, Encode(secret))
            <==> coord != 0 && host != [] && !(|host| == 4 && net.parse(host).None?)
  {
    hide Lawful, Body, Short, Encode, Tail, TailHost, Canonical, Parse, Decode, DecodeLetters, Unwrapped;
    ParseOfShort(net, host, coord, secret);
    BodyParts(net, host, coord, secret);
    TailStandsForHost(net, host);
  }

  /** The failing family is real: a four-letter host name such as "a.co" comes back
      as the IPv4 address its letters spell. */
  lemma FourLetterNameMisread(net: Net, coord: nat, secret: Bytes, name: Bytes)
    requires Lawful(net) && 1 <= coord < 65536 && |secret| == SECRET_LEN
    requires |name| == 4 && net.parse(name).None? && net.expanded(name).None?
    ensures Parse(net, Short(net, name, coord, secret)) == Address(net.text(V4(name)), coord, Encode(secret))
  {
    hide Lawful, Body, Short, Encode, Decode, Parse, Canonical, Tail, DecodeLetters, Unwrapped;
    ParseOfShort(net, name, coord, secret);
    BodyParts(net, name, coord, secret);
    NameIsItsTail(net, name);
  }

  lemma NameIsItsTail(net: Net, name: Bytes)
    requires Lawful(net) && |name| == 4 && net.parse(name).None? && net.expanded(name).None?
    ensures Tail(net, name) == name && net.text(V4(name)) != []
  {
    assert |net.text(V4(name))| >= 7;
  }

  /** What a decoded link has to be: at least one byte after the version, the port
      and the secret, a known version, and in the first version a port. */
  lemma DamagedIff(net: Net, b: Bytes)
    requires Lawful(net)
    ensures ParseBody(net, b) == Damaged <==> |b| < 16 || b[0] !in {1, 2} || (b[0] == 1 && b[1] == 0 && b[2] == 0)
    ensures ParseBody(net, b).Suite? <==> |b| >= 16 && b[0] == 2
  {
    if |b| >= 16 && b[0] == 1 {
      var tail := b[FIXED_LEN..];
      assert |tail| == 4 ==> |net.text(V4(tail))| >= 7;
      assert net.parse(tail).Some? ==> |net.text(net.parse(tail).value)| > 0;
      assert (b[1] as nat) * 256 + b[2] == 0 <==> b[1] == 0 && b[2] == 0;
    }
  }

  // ---- what is pasted around a link ----

  /** A printed link is read the same with dots after it, and whatever follows them
      that is neither letter nor digit nor one of "-_=.": a quote, a comma, a bracket. */
  lemma WhatFollowsIsIgnored(net: Net, host: Bytes, coord: nat, secret: Bytes, dots: string, junk: string)
    requires coord < 65536 && |secret| == SECRET_LEN && forall i :: 0 <= i < |dots| ==> dots[i] == '.'
    requires junk != "" ==>
      var c := junk[0];
      !('a' <= c <= 'z') && !('A' <= c <= 'Z') && !('0' <= c <= '9') && c !in "-_=."
    ensures Parse(net, Short(net, host, coord, secret) + dots + junk) == Parse(net, Short(net, host, coord, secret))
  {
    hide Body, Encode, Decode, ParseBody, HasPrefix, FindLink;
    var b := Body(net, host, coord, secret);
    assert b != [] by { BodyParts(net, host, coord, secret); }
    var text := Encode(b);
    assert junk != "" ==> !LinkChar(junk[0]);
    TextIsFound(text, dots, junk);
    ShortIsFound(text);
  }

  /** A printed link with padding after it is refused: the equals sign counts as part
      of a link, and no link has one. */
  lemma PaddedIsDamaged(net: Net, host: Bytes, coord: nat, secret: Bytes)
    requires coord < 65536 && |secret| == SECRET_LEN
    ensures Parse(net, Short(net, host, coord, secret) + "=") == Damaged
  {
    hide Body, Encode, ParseBody, FindLink, Unwrapped, DecodeLetters;
    var b := Body(net, host, coord, secret);
    assert b != [] by { BodyParts(net, host, coord, secret); }
    var text := Encode(b) + "=";
    PaddingRefused(b);
    var link := SCHEME + text;
    assert Short(net, host, coord, secret) + "=" == link;
    assert text[|text| - 1] == '=';
    ShortIsFound(text);
    assert '\r' !in text && '\n' !in text by { assert forall i :: 0 <= i < |text| ==> LinkChar(text[i]); }
    PlainUnwrapped(text);
  }

  lemma {:induction false} PlainUnwrapped(s: string)
    requires '\r' !in s && '\n' !in s
    ensures Unwrapped(s) == s
  {
    if s != [] { PlainUnwrapped(s[1..]); }
  }

  /** So on canonical addresses the printer is injective. */
  lemma ShortInjective(net: Net, h1: Bytes, c1: nat, s1: Bytes, h2: Bytes, c2: nat, s2: Bytes)
    requires Lawful(net) && 1 <= c1 < 65536 && 1 <= c2 < 65536 && |s1| == |s2| == SECRET_LEN
    requires net.parse(h1).Some? && Canonical(net, h1) == h1 && net.parse(h2).Some? && Canonical(net, h2) == h2
    requires Short(net, h1, c1, s1) == Short(net, h2, c2, s2)
    ensures h1 == h2 && c1 == c2 && s1 == s2
  {
    LinkRoundTrip(net, h1, c1, s1);
    LinkRoundTrip(net, h2, c2, s2);
    hide Short, Parse, Encode, Decode;
    DecodeUndoesEncode(s1);
    DecodeUndoesEncode(s2);
  }
}
