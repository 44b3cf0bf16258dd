/**
 * The first packet of a connection (section 2.2.1.1 of MS-RDPBCGR): which of the gateway's paths it
 * takes, and the routing token it carries.
 */
module X224 {
  import opened ByteStrings
  import opened Wire
  import opened BufferedStream

  const TPKT_VERSION: byte := 3
  const CR_CODE: byte := 0xE0
  const FIXED_PART := 11
  const MAX_CR_SIZE := 2048
  const MAX_NAME := 64

  const CR: byte := 13
  const LF: byte := 10

  /** `Cookie: mstshash=` */
  const HASH_PREFIX: bytes := [67, 111, 111, 107, 105, 101, 58, 32, 109, 115, 116, 115, 104, 97, 115, 104, 61]

  /** `Cookie: msts=` */
  const TOKEN_PREFIX: bytes := [67, 111, 111, 107, 105, 101, 58, 32, 109, 115, 116, 115, 61]

  datatype Request = Request(raw: bytes, cookie: bytes, routingToken: bytes)

  datatype Error = Truncated | NotTpkt | TooLarge | NotConnectionRequest

  datatype Result = Ok(request: Request) | Err(error: Error)

  /** Letters, digits and `. - _ @ \`. */
  predicate NameByte(c: byte) {
    97 <= c <= 122 || 65 <= c <= 90 || IsDigit(c) || c == 46 || c == 45 || c == 95 || c == 64 || c == 92
  }

  predicate AllNameBytes(s: bytes) {
    forall i :: 0 <= i < |s| ==> NameByte(s[i])
  }

  function Kept(s: bytes): (r: bytes)
    ensures |r| <= |s|
    ensures AllNameBytes(r)
    ensures r == s <==> AllNameBytes(s)
    ensures |r| == |s| <==> r == s
  {
    if s == [] then []
    else
      var rest := Kept(s[1..]);
      assert s == [s[0]] + s[1..];
      if NameByte(s[0]) then [s[0]] + rest else rest
  }

  function FirstBytes(s: bytes, n: nat): (r: bytes)
    ensures r <= s && |r| <= n
  {
    if |s| <= n then s else s[..n]
  }

  function Sanitized(s: bytes): bytes {
    FirstBytes(Kept(s), MAX_NAME)
  }

  /** Drops what has no business in a name and stops at 64 bytes. */
  method Sanitize(s: bytes) returns (r: bytes)
    ensures r == Sanitized(s)
  {
    hide NameByte, AllNameBytes;
    r := [];
    var i := 0;
    while i < |s|
      invariant 0 <= i <= |s| && |r| <= MAX_NAME
      invariant r + Kept(s[i..]) == Kept(s)
    {
      if |r| >= MAX_NAME {
        return;
      }
      assert s[i..][0] == s[i] && s[i..][1..] == s[i + 1..];
      if NameByte(s[i]) {
        r := r + [s[i]];
      }
      i := i + 1;
    }
  }

  /** Where the first CR LF is, or the length when there is none. */
  function LineEnd(b: bytes): (n: nat)
    ensures n <= |b|
    ensures n < |b| ==> n + 1 < |b| && b[n] == CR && b[n + 1] == LF
    ensures forall i :: 0 <= i < n && i + 1 < |b| ==> !(b[i] == CR && b[i + 1] == LF)
  {
    if |b| < 2 then |b|
    else if b[0] == CR && b[1] == LF then 0
    else
      var m := LineEnd(b[1..]);
      assert forall i :: 0 < i <= m && i + 1 < |b| ==> b[i] == b[1..][i - 1] && b[i + 1] == b[1..][i];
      1 + m
  }

  method FirstLine(b: bytes) returns (line: bytes, ok: bool)
    ensures ok <==> LineEnd(b) < |b|
    ensures ok ==> line == b[..LineEnd(b)]
  {
    var i := 0;
    while i + 1 < |b|
      invariant 0 <= i <= |b|
      invariant forall k :: 0 <= k < i && k + 1 < |b| ==> !(b[k] == CR && b[k + 1] == LF)
    {
      if b[i] == CR && b[i + 1] == LF {
        return b[..i], true;
      }
      i := i + 1;
    }
    return [], false;
  }

  /** What the variable part of a request says: the cookie, or the routing token, or neither. */
  function Named(raw: bytes): Request
    requires |raw| >= FIXED_PART
  {
    var body := raw[FIXED_PART..];
    var line := body[..LineEnd(body)];
    if LineEnd(body) == |body| then Request(raw, [], [])
    else if HASH_PREFIX <= line then Request(raw, Sanitized(line[|HASH_PREFIX|..]), [])
    else if TOKEN_PREFIX <= line then Request(raw, [], Sanitized(line[|TOKEN_PREFIX|..]))
    else Request(raw, [], [])
  }

  /** What the front of a client's stream is read as. */
  function FirstPacket(stream: bytes): Result {
    if |stream| < 4 then Err(Truncated)
    else if stream[0] != TPKT_VERSION then Err(NotTpkt)
    else
      var length := ReadBe16(stream[2..4]);
      if length < FIXED_PART then Err(Truncated)
      else if length > MAX_CR_SIZE then Err(TooLarge)
      else if |stream| < length then Err(Truncated)
      else if stream[5] != CR_CODE then Err(NotConnectionRequest)
      else if stream[4] + 5 > length then Err(Truncated)
      else Ok(Named(stream[..length]))
  }

  /** Reads one connection request and nothing beyond it. */
  method ReadRequest(r: Reader) returns (res: Result)
    requires r.Valid() && r.size == MAX_CR_SIZE
    modifies r
    ensures r.Valid()
    ensures res == FirstPacket(old(r.Remaining()))
    ensures res.Ok? ==> res.request.raw + r.Remaining() == old(r.Remaining())
    ensures res.Ok? ==> (r.buffered == [] <==> old(r.NothingBehind(|FirstPacket(r.Remaining()).request.raw|)))
  {
    hide Sanitized, Ends, Overflows, Flatten, LineEnd;
    ghost var stream := r.Remaining();
    var head := r.Peek(4);
    if |head| < 4 {
      return Err(Truncated);
    }
    assert head == stream[..4];
    if head[0] != TPKT_VERSION {
      return Err(NotTpkt);
    }
    var length: int := ReadBe16(head[2..4]);
    assert head[2..4] == stream[2..4];
    if length < FIXED_PART {
      return Err(Truncated);
    }
    if length > MAX_CR_SIZE {
      return Err(TooLarge);
    }
    var raw := r.ReadFull(length);
    if |raw| < length {
      return Err(Truncated);
    }
    assert raw == stream[..length];
    if raw[5] != CR_CODE {
      return Err(NotConnectionRequest);
    }
    if raw[4] + 5 > length {
      return Err(Truncated);
    }
    var cr := Request(raw, [], []);
    var body := raw[FIXED_PART..];
    var line, ok := FirstLine(body);
    if ok {
      if HASH_PREFIX <= line {
        var name := Sanitize(line[|HASH_PREFIX|..]);
        cr := cr.(cookie := name);
      } else if TOKEN_PREFIX <= line {
        var token := Sanitize(line[|TOKEN_PREFIX|..]);
        cr := cr.(routingToken := token);
      }
    }
    return Ok(cr);
  }

  lemma PrefixesSpelled()
    ensures HASH_PREFIX == Ascii("Cookie: mstshash=") && TOKEN_PREFIX == Ascii("Cookie: msts=")
  {
  }

  /** What is kept of a text is what is kept of its parts: the permitted bytes, in their order. */
  lemma {:induction false} KeptOfParts(a: bytes, c: byte, b: bytes)
    ensures Kept(a + [c] + b) == Kept(a) + (if NameByte(c) then [c] else []) + Kept(b)
  {
    hide NameByte;
    var s := a + [c] + b;
    if a == [] {
      assert s[1..] == b;
    } else {
      KeptOfParts(a[1..], c, b);
      assert s[1..] == a[1..] + [c] + b;
    }
  }

  /* ---------------------------------------------------------- a request on the wire --- */

  /**
   * A connection request around this variable part, with any reserved byte, length indicator and reference
   * bytes: section 2.2.1.1 of MS-RDPBCGR.
   */
  function Framed(reserved: byte, indicator: byte, refs: bytes, variable: bytes): bytes
    requires |refs| == 5 && 11 + |variable| < 0x1_0000
  {
    [3, reserved] + Be16(11 + |variable|) + [indicator, 0xE0] + refs + variable
  }

  /** Requests of at most 2048 bytes whose length indicator stays inside are read. */
  predicate Readable(indicator: byte, refs: bytes, variable: bytes) {
    |refs| == 5 && 11 + |variable| <= 2048 && indicator + 5 <= 11 + |variable|
  }

  lemma FramedReads(reserved: byte, indicator: byte, refs: bytes, variable: bytes, later: bytes)
    requires Readable(indicator, refs, variable)
    ensures var packet := Framed(reserved, indicator, refs, variable); FirstPacket(packet + later) == Ok(Named(packet))
    ensures Framed(reserved, indicator, refs, variable)[FIXED_PART..] == variable
  {
    var p := Framed(reserved, indicator, refs, variable);
    var stream := p + later;
    Le16RoundTrips(11 + |variable|);
    assert stream[2..4] == Be16(11 + |variable|);
    assert stream[..|p|] == p;
  }

  /** And nothing else is. */
  lemma OnlyFramedReads(stream: bytes) returns (reserved: byte, indicator: byte, refs: bytes, variable: bytes, later: bytes)
    requires FirstPacket(stream).Ok?
    ensures Readable(indicator, refs, variable) && stream == Framed(reserved, indicator, refs, variable) + later
    ensures FirstPacket(stream) == Ok(Named(Framed(reserved, indicator, refs, variable)))
  {
    hide Named;
    var n := ReadBe16(stream[2..4]);
    reserved, indicator, refs, variable, later := stream[1], stream[4], stream[6..11], stream[11..n], stream[n..];
    assert Be16(n) == stream[2..4];
    assert stream == stream[..n] + later;
    assert stream[..n] == Framed(reserved, indicator, refs, variable);
  }

  /* ------------------------------------------------------------ what it says --- */

  /** No line end inside. */
  predicate SingleLine(s: bytes) {
    forall i :: 0 <= i < |s| - 1 ==> !(s[i] == CR && s[i + 1] == LF)
  }

  lemma LineEndAt(s: bytes, rest: bytes)
    requires SingleLine(s)
    ensures LineEnd(s + [CR, LF] + rest) == |s|
  {
    var b := s + [CR, LF] + rest;
    assert b[..|s|] == s;
    assert b[|s|] == CR && b[|s| + 1] == LF;
  }

  lemma PrefixedLine(prefix: bytes, s: bytes)
    requires CR !in prefix && SingleLine(s)
    ensures SingleLine(prefix + s)
  {
    var line := prefix + s;
    forall i | 0 <= i < |line| - 1 ensures !(line[i] == CR && line[i + 1] == LF) {
      if i < |prefix| {
        assert line[i] == prefix[i];
      } else {
        assert line[i] == s[i - |prefix|] && line[i + 1] == s[i + 1 - |prefix|];
      }
    }
  }

  function ByLine(raw: bytes, line: bytes): Request {
    if HASH_PREFIX <= line then Request(raw, Sanitized(line[|HASH_PREFIX|..]), [])
    else if TOKEN_PREFIX <= line then Request(raw, [], Sanitized(line[|TOKEN_PREFIX|..]))
    else Request(raw, [], [])
  }

  lemma PrefixDecides(raw: bytes, rest: bytes)
    ensures ByLine(raw, HASH_PREFIX + rest) == Request(raw, Sanitized(rest), [])
    ensures ByLine(raw, TOKEN_PREFIX + rest) == Request(raw, [], Sanitized(rest))
  {
    hide Sanitized;
    assert (TOKEN_PREFIX + rest)[12] == 61 && HASH_PREFIX[12] == 104;
    assert (HASH_PREFIX + rest)[|HASH_PREFIX|..] == rest && (TOKEN_PREFIX + rest)[|TOKEN_PREFIX|..] == rest;
  }

  /** At most 64 bytes are kept, and all of a text exactly if it needs no change. */
  lemma KeptWholeIff(s: bytes)
    ensures Sanitized(s) == FirstBytes(Kept(s), 64)
    ensures Sanitized(s) == s <==> AllNameBytes(s) && |s| <= 64
  {
  }

  /** Only the first line of the variable part counts, whatever comes behind it. */
  lemma ReadByLine(line: bytes, reserved: byte, indicator: byte, refs: bytes, more: bytes, later: bytes)
    requires SingleLine(line) && Readable(indicator, refs, line + [13, 10] + more)
    ensures var packet := Framed(reserved, indicator, refs, line + [13, 10] + more);
      FirstPacket(packet + later) == Ok(ByLine(packet, line))
  {
    hide Sanitized, FirstPacket, Framed, LineEnd;
    FramedReads(reserved, indicator, refs, line + [13, 10] + more, later);
    LineEndAt(line, more);
    assert (line + [13, 10] + more)[..|line|] == line;
  }

  /**
   * A client that names somebody: the name is read as it was sent exactly when it consists of at most 64 name
   * bytes, and otherwise the first 64 of its permitted bytes are.
   */
  lemma CookieComesBack(name: bytes, reserved: byte, indicator: byte, refs: bytes, more: bytes, later: bytes)
    requires SingleLine(name) && Readable(indicator, refs, Ascii("Cookie: mstshash=") + name + [13, 10] + more)
    ensures var packet := Framed(reserved, indicator, refs, Ascii("Cookie: mstshash=") + name + [13, 10] + more);
      var res := FirstPacket(packet + later);
      && res == Ok(Request(packet, FirstBytes(Kept(name), 64), []))
      && (res.request.cookie == name <==> AllNameBytes(name) && |name| <= 64)
  {
    hide FirstPacket, Framed, LineEnd, ByLine, Kept, AllNameBytes, SingleLine;
    PrefixesSpelled();
    PrefixedLine(HASH_PREFIX, name);
    ReadByLine(HASH_PREFIX + name, reserved, indicator, refs, more, later);
    PrefixDecides(Framed(reserved, indicator, refs, HASH_PREFIX + name + [13, 10] + more), name);
    KeptWholeIff(name);
  }

  /** The token as a client emits it after a redirection; the line end is part of the field. */
  function RoutingToken(token: bytes): bytes {
    Ascii("Cookie: msts=") + token + [13, 10]
  }

  /**
   * Whatever else the client's request carries, the token read from it is the one that was issued
   * exactly when that consists of at most 64 name bytes. Every base64url token of that length does.
   */
  lemma TokenComesFullCircle(token: bytes, reserved: byte, indicator: byte, refs: bytes, more: bytes, later: bytes)
    requires SingleLine(token) && Readable(indicator, refs, RoutingToken(token) + more)
    ensures var packet := Framed(reserved, indicator, refs, RoutingToken(token) + more);
      var res := FirstPacket(packet + later);
      && res == Ok(Request(packet, [], FirstBytes(Kept(token), 64)))
      && (res.request.routingToken == token <==> AllNameBytes(token) && |token| <= 64)
  {
    hide FirstPacket, Framed, LineEnd, ByLine, Kept, AllNameBytes, SingleLine;
    PrefixesSpelled();
    PrefixedLine(TOKEN_PREFIX, token);
    ReadByLine(TOKEN_PREFIX + token, reserved, indicator, refs, more, later);
    PrefixDecides(Framed(reserved, indicator, refs, TOKEN_PREFIX + token + [13, 10] + more), token);
    KeptWholeIff(token);
  }

  /** A first line that begins otherwise names nobody and carries no token; nor does a request without a line end. */
  lemma OtherLinesSayNothing(line: bytes, ended: bool, reserved: byte, indicator: byte, refs: bytes, more: bytes, later: bytes)
    requires SingleLine(line) && Readable(indicator, refs, if ended then line + [13, 10] + more else line)
    requires ended ==> !(Ascii("Cookie: mstshash=") <= line) && !(Ascii("Cookie: msts=") <= line)
    ensures var packet := Framed(reserved, indicator, refs, if ended then line + [13, 10] + more else line);
      FirstPacket(packet + later) == Ok(Request(packet, [], []))
  {
    PrefixesSpelled();
    if ended {
      ReadByLine(line, reserved, indicator, refs, more, later);
    } else {
      FramedReads(reserved, indicator, refs, line, later);
    }
  }

  /** RFC 4648 section 5 without padding: letters, digits, hyphen and underscore. */
  predicate Base64Url(s: bytes) {
    forall i :: 0 <= i < |s| ==> 97 <= s[i] <= 122 || 65 <= s[i] <= 90 || IsDigit(s[i]) || s[i] == 45 || s[i] == 95
  }

  lemma Base64UrlTokenReturns(token: bytes, reserved: byte, indicator: byte, refs: bytes, more: bytes, later: bytes)
    requires Base64Url(token) && |token| <= 64 && Readable(indicator, refs, RoutingToken(token) + more)
    ensures var res := FirstPacket(Framed(reserved, indicator, refs, RoutingToken(token) + more) + later);
      res.Ok? && res.request.routingToken == token
  {
    assert SingleLine(token) && AllNameBytes(token);
    TokenComesFullCircle(token, reserved, indicator, refs, more, later);
  }

  /* ------------------------------------------------------- security negotiation --- */

  datatype Negotiation = Absent | Asked(flags: byte, protocols: u32)

  const NEG_REQUEST: byte := 1

  /** `parseNegRequest`: the optional request behind the first line. */
  function NegotiationIn(variable: bytes): Negotiation {
    var n := LineEnd(variable);
    var rest := if n < |variable| then variable[n + 2..] else variable;
    if |rest| < 8 || rest[0] != NEG_REQUEST then Absent else Asked(rest[1], ReadLe32(rest[4..8]))
  }

  /** A token in front of it does not hide the negotiation request. */
  lemma NegotiationBehindToken(token: bytes, flags: byte, length: u16, protocols: u32, more: bytes)
    requires SingleLine(token)
    ensures NegotiationIn(RoutingToken(token) + ([1, flags] + Le16(length) + Le32(protocols) + more)) == Asked(flags, protocols)
  {
    var line := TOKEN_PREFIX + token;
    var ask := [1, flags] + Le16(length) + Le32(protocols) + more;
    var variable := RoutingToken(token) + ask;
    assert variable == line + [CR, LF] + ask;
    PrefixesSpelled();
    PrefixedLine(TOKEN_PREFIX, token);
    LineEndAt(line, ask);
    assert variable[|line| + 2..] == ask;
    assert ask[4..8] == Le32(protocols);
    FixedWidthRoundTrips(length, protocols);
  }
}
