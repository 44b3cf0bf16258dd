/** RD Gateway packets: an eight-byte header with the total length, then the body (MS-TSGU 2.2.10). */
module RdgwPacket {
  import opened ByteStrings
  import opened Wire
  import opened Utf16

  const HEADER_SIZE: nat := 8
  const MAX_PACKET: nat := 65536
  const MAX_RESOURCES: nat := 16

  datatype Error = Short | TooLarge | Malformed | Sequence | Refused

  datatype Result<+T> = Ok(value: T) | Err(error: Error)

  datatype Packet = Packet(kind: u16, body: bytes)

  const WIDE: nat := 0x1_0000_0000

  /** What the program compares a packet's length with: the buffer's length, as far as 32 bits hold it. */
  predicate Reaches(buffered: nat, length: nat) {
    buffered % WIDE >= length
  }

  /** The packet at the front of `b` and how many bytes it took. */
  function Parse(b: bytes): Result<(Packet, nat)> {
    if |b| < HEADER_SIZE then Err(Short)
    else
      var length := ReadLe32(b[4..8]);
      if length < HEADER_SIZE then Err(Malformed)
      else if length > MAX_PACKET then Err(TooLarge)
      else if !Reaches(|b|, length) then Err(Short)
      else Ok((Packet(ReadLe16(b[..2]), b[HEADER_SIZE..length]), length))
  }

  /** The length field keeps 32 bits of the total. */
  function Build(kind: u16, body: bytes): bytes {
    Le16(kind) + [0, 0] + Le32((HEADER_SIZE + |body|) % WIDE) + body
  }

  function Size(p: Packet): nat {
    HEADER_SIZE + |p.body|
  }

  lemma BuildShape(kind: u16, body: bytes, rest: bytes)
    ensures var b := Build(kind, body) + rest;
      && |b| == HEADER_SIZE + |body| + |rest|
      && b[..2] == Le16(kind) && b[4..8] == Le32((HEADER_SIZE + |body|) % WIDE)
      && b[HEADER_SIZE..HEADER_SIZE + |body|] == body && b[HEADER_SIZE + |body|..] == rest
  {
  }

  /**
   * A built packet is read back exactly when it is not larger than the limit and the whole buffer's length
   * still reaches it in 32 bits, as every length below 2^32 does.
   */
  lemma ParseUndoesBuildIff(p: Packet, rest: bytes)
    ensures Parse(Build(p.kind, p.body) + rest) == Ok((p, Size(p))) <==>
            Size(p) <= MAX_PACKET && Reaches(Size(p) + |rest|, Size(p))
  {
    hide Build;
    BuildShape(p.kind, p.body, rest);
    FixedWidthRoundTrips(p.kind, Size(p) % WIDE);
  }

  lemma SmallReaches(buffered: nat, length: nat)
    ensures length <= buffered < WIDE ==> Reaches(buffered, length)
  {
  }

  /** Until a packet is complete, it is only short: never wrong, never somebody else's. */
  lemma PrefixIsShort(p: Packet, n: nat)
    requires Size(p) <= MAX_PACKET && n < Size(p)
    ensures n <= |Build(p.kind, p.body)| && Parse(Build(p.kind, p.body)[..n]) == Err(Short)
  {
    hide Build;
    var b := Build(p.kind, p.body);
    BuildShape(p.kind, p.body, []);
    assert b + [] == b;
    FixedWidthRoundTrips(p.kind, Size(p));
    if n >= HEADER_SIZE {
      assert b[..n][4..8] == b[4..8];
    }
  }

  /**
   * Bytes that arrive later leave an answer as it was, exactly as long as the longer buffer's length reaches
   * the packet; an answer that is an error stays in any case.
   */
  lemma LaterBytesChangeNothing(b: bytes, more: bytes)
    requires Parse(b) != Err(Short)
    ensures Parse(b + more) == Parse(b) <==> Parse(b).Err? || Reaches(|b| + |more|, Parse(b).value.1)
  {
    assert (b + more)[4..8] == b[4..8] && (b + more)[..2] == b[..2];
    var length := ReadLe32(b[4..8]);
    assert length <= |b| && length >= HEADER_SIZE ==> (b + more)[HEADER_SIZE..length] == b[HEADER_SIZE..length];
  }

  /* ------------------------------------------------------------- byte streams --- */

  /** What repeated parsing takes from a buffer: the packets, the bytes left over, and why it stopped. */
  datatype Drained = Drained(packets: seq<Packet>, rest: bytes, error: Error)

  function Drain(b: bytes): Drained
    decreases |b|
  {
    match Parse(b)
    case Err(e) => Drained([], b, e)
    case Ok((p, n)) =>
      var later := Drain(b[n..]);
      Drained([p] + later.packets, later.rest, later.error)
  }

  method TakeAll(b: bytes) returns (packets: seq<Packet>, rest: bytes, error: Error)
    ensures Drained(packets, rest, error) == Drain(b)
  {
    hide ReadLe32, ReadLe16;
    packets, rest := [], b;
    while true
      invariant Drain(b) == Drained(packets + Drain(rest).packets, Drain(rest).rest, Drain(rest).error)
      decreases |rest|
    {
      var r := Parse(rest);
      match r
      case Err(e) =>
        assert packets + [] == packets;
        return packets, rest, e;
      case Ok((p, n)) =>
        assert packets + ([p] + Drain(rest[n..]).packets) == packets + [p] + Drain(rest[n..]).packets;
        packets := packets + [p];
        rest := rest[n..];
    }
  }

  function Stream(ps: seq<Packet>): bytes {
    if ps == [] then [] else Build(ps[0].kind, ps[0].body) + Stream(ps[1..])
  }

  ghost predicate Fit(ps: seq<Packet>) {
    forall i :: 0 <= i < |ps| ==> Size(ps[i]) <= MAX_PACKET
  }

  function Joined(chunks: seq<bytes>): bytes {
    if chunks == [] then [] else Joined(chunks[..|chunks| - 1]) + chunks[|chunks| - 1]
  }

  /** A reader that keeps a buffer, adds each chunk as it comes, and takes every packet that is complete. */
  function Fed(chunks: seq<bytes>): Drained {
    if chunks == [] then Drained([], [], Short)
    else
      var before := Fed(chunks[..|chunks| - 1]);
      var now := Drain(before.rest + chunks[|chunks| - 1]);
      Drained(before.packets + now.packets, now.rest, now.error)
  }

  /** No buffer the reader ever parses is 2^32 bytes long. */
  predicate BuffersStaySmall(chunks: seq<bytes>) {
    chunks == []
    || (BuffersStaySmall(chunks[..|chunks| - 1])
        && |Fed(chunks[..|chunks| - 1]).rest| + |chunks[|chunks| - 1]| < WIDE)
  }

  /** The first `m` packets of a stream are out, and the rest of it is in the buffer or still to come. */
  ghost predicate TakenSoFar(ps: seq<Packet>, m: nat, out: Drained, more: bytes) {
    m <= |ps| && out.packets == ps[..m] && out.rest + more == Stream(ps[m..]) && out.error == Short
  }

  /** What is left over in a buffer is less than one packet. */
  ghost predicate NoneComplete(ps: seq<Packet>, m: nat, rest: bytes)
    requires m <= |ps|
  {
    if m == |ps| then rest == [] else |rest| < Size(ps[m])
  }

  lemma BufferBegins(ps: seq<Packet>, buffer: bytes, more: bytes)
    requires ps != [] && buffer + more == Stream(ps)
    ensures var first := Build(ps[0].kind, ps[0].body);
      if |buffer| < Size(ps[0]) then buffer == first[..|buffer|]
      else buffer == first + buffer[Size(ps[0])..] && buffer[Size(ps[0])..] + more == Stream(ps[1..])
  {
    hide Build, Stream;
    BuildShape(ps[0].kind, ps[0].body, []);
    var first, n := Build(ps[0].kind, ps[0].body), Size(ps[0]);
    assert first + [] == first;
    assert Stream(ps) == first + Stream(ps[1..]) by { StreamFrom(ps); }
    if |buffer| < n {
      assert buffer == (buffer + more)[..|buffer|] == first[..|buffer|];
    } else {
      assert buffer[..n] == (buffer + more)[..n] == first;
      assert buffer[n..] + more == (buffer + more)[n..] == Stream(ps[1..]);
    }
  }

  lemma StreamFrom(ps: seq<Packet>)
    requires ps != []
    ensures Stream(ps) == Build(ps[0].kind, ps[0].body) + Stream(ps[1..])
  {
  }

  /** Draining a buffer that begins a stream: below 2^32 bytes it empties, from there on it never falls below. */
  lemma {:induction false} DrainsFront(ps: seq<Packet>, buffer: bytes, more: bytes) returns (m: nat)
    requires Fit(ps) && buffer + more == Stream(ps)
    ensures TakenSoFar(ps, m, Drain(buffer), more)
    ensures if |buffer| < WIDE then NoneComplete(ps, m, Drain(buffer).rest) else |Drain(buffer).rest| >= WIDE
    decreases |ps|
  {
    hide Build, Parse, ReadLe32, Stream;
    if ps == [] {
      assert Stream(ps) == [] by { StreamEnds(); }
      m := 0;
      NothingParses();
    } else {
      var p := ps[0];
      BufferBegins(ps, buffer, more);
      if |buffer| < Size(p) {
        PrefixIsShort(p, |buffer|);
        m := 0;
        assert ps[0..] == ps;
      } else if !Reaches(|buffer|, Size(p)) {
        NotReached(p, buffer[Size(p)..]);
        SmallReaches(|buffer|, Size(p));
        m := 0;
        assert ps[0..] == ps;
      } else {
        ParseUndoesBuildIff(p, buffer[Size(p)..]);
        var k := DrainsFront(ps[1..], buffer[Size(p)..], more);
        m := k + 1;
        assert ps[m..] == ps[1..][k..] && [p] + ps[1..][..k] == ps[..m];
        KeepsAbove(|buffer|, Size(p));
      }
    }
  }

  lemma StreamEnds()
    ensures Stream([]) == []
  {
  }

  lemma NothingParses()
    ensures Drain([]) == Drained([], [], Short)
  {
  }

  /** A length that is reached from above 2^32 leaves a buffer that is still above. */
  lemma KeepsAbove(buffered: nat, length: nat)
    requires Reaches(buffered, length) && length <= buffered
    ensures buffered < WIDE <==> buffered - length < WIDE
  {
    var wraps := buffered / WIDE;
    assert buffered == wraps * WIDE + buffered % WIDE;
    if wraps >= 1 {
      assert buffered - length >= wraps * WIDE >= WIDE;
    }
  }

  lemma NotReached(p: Packet, rest: bytes)
    requires Size(p) <= MAX_PACKET && !Reaches(Size(p) + |rest|, Size(p))
    ensures Parse(Build(p.kind, p.body) + rest) == Err(Short)
  {
    hide Build;
    BuildShape(p.kind, p.body, rest);
    FixedWidthRoundTrips(p.kind, Size(p));
  }

  lemma {:induction false} FedFront(ps: seq<Packet>, chunks: seq<bytes>, more: bytes) returns (m: nat)
    requires Fit(ps) && Joined(chunks) + more == Stream(ps)
    ensures TakenSoFar(ps, m, Fed(chunks), more)
    ensures if BuffersStaySmall(chunks) then NoneComplete(ps, m, Fed(chunks).rest) else |Fed(chunks).rest| >= WIDE
    decreases |chunks|
  {
    hide Drain, Stream;
    if chunks == [] {
      m := 0;
      assert ps[0..] == ps && [] + more == more;
      assert ps == [] ==> Stream(ps) == [] by { StreamEnds(); }
    } else {
      var front, last := chunks[..|chunks| - 1], chunks[|chunks| - 1];
      var buffer := Fed(front).rest + last;
      assert Joined(chunks) + more == Joined(front) + (last + more);
      var k := FedFront(ps, front, last + more);
      assert buffer + more == Fed(front).rest + (last + more);
      var j := DrainsFront(ps[k..], buffer, more);
      m := k + j;
      assert ps[k..][j..] == ps[m..] && ps[..k] + ps[k..][..j] == ps[..m];
    }
  }

  /** Chunks that leave room for one packet below 2^32 keep every buffer small, however long the stream is. */
  lemma {:induction false} SmallChunksSuffice(ps: seq<Packet>, chunks: seq<bytes>, more: bytes)
    requires Fit(ps) && Joined(chunks) + more == Stream(ps)
    requires forall i :: 0 <= i < |chunks| ==> |chunks[i]| <= WIDE - MAX_PACKET
    ensures BuffersStaySmall(chunks)
    decreases |chunks|
  {
    hide Fed, Stream;
    if chunks != [] {
      var front, last := chunks[..|chunks| - 1], chunks[|chunks| - 1];
      assert Joined(chunks) + more == Joined(front) + (last + more);
      SmallChunksSuffice(ps, front, last + more);
      var m := FedFront(ps, front, last + more);
    }
  }

  /**
   * However the bytes of a stream of packets are cut up on the way, the same packets come out, in order
   * and with nothing left over, exactly when no buffer grows to 2^32 bytes; and one that does is stuck.
   */
  lemma ChunkingDoesNotMatter(ps: seq<Packet>, chunks: seq<bytes>)
    requires Fit(ps) && Joined(chunks) == Stream(ps)
    ensures Fed(chunks) == Drained(ps, [], Short) <==> BuffersStaySmall(chunks)
    ensures !BuffersStaySmall(chunks) ==> |Fed(chunks).packets| < |ps| && Fed(chunks).packets <= ps
  {
    hide Fed, Stream, Joined, BuffersStaySmall;
    assert Joined(chunks) + [] == Joined(chunks);
    var m := FedFront(ps, chunks, []);
    var rest := Fed(chunks).rest;
    assert rest + [] == rest == Stream(ps[m..]);
    if m < |ps| {
      StreamFrom(ps[m..]);
      BuildShape(ps[m].kind, ps[m].body, Stream(ps[m..][1..]));
    } else {
      StreamEnds();
      assert ps[..m] == ps;
    }
  }

  /* ---------------------------------------------------------------------- data --- */

  const PKT_DATA: u16 := 0x000A

  function ParseData(body: bytes): Result<bytes> {
    if |body| < 2 then Err(Short)
    else
      var n := ReadLe16(body[..2]);
      if n > |body| - 2 then Err(Malformed) else Ok(body[2..2 + n])
  }

  function DataBody(payload: bytes): bytes {
    Le16(Low16(|payload|)) + payload
  }

  function BuildData(payload: bytes): bytes {
    Build(PKT_DATA, DataBody(payload))
  }

  lemma DataBodyReads(payload: bytes)
    ensures ParseData(DataBody(payload)) == Ok(payload[..Low16(|payload|)])
  {
    var b := DataBody(payload);
    Le16RoundTrips(Low16(|payload|));
    assert b[..2] == Le16(Low16(|payload|)) && b[2..] == payload;
    assert b[2..2 + Low16(|payload|)] == payload[..Low16(|payload|)];
  }

  const MAX_PAYLOAD: nat := 65526

  /** A payload wrapped as a data packet arrives exactly when it is at most 65526 bytes long and reached. */
  lemma DataArrivesIff(payload: bytes, rest: bytes)
    ensures (Parse(BuildData(payload) + rest) == Ok((Packet(PKT_DATA, DataBody(payload)), |payload| + 10))
              && ParseData(DataBody(payload)) == Ok(payload))
            <==> |payload| <= MAX_PAYLOAD && Reaches(|payload| + 10 + |rest|, |payload| + 10)
  {
    hide Build, Parse;
    ParseUndoesBuildIff(Packet(PKT_DATA, DataBody(payload)), rest);
    DataBodyReads(payload);
    if |payload| <= MAX_PAYLOAD {
      assert payload[..|payload|] == payload;
    }
  }

  /* ------------------------------------------------------- the other requests --- */

  /** A length in bytes and that much UTF-16; gives the text and what follows. */
  function ParseText(b: bytes): (r: Result<(text, bytes)>)
    ensures r.Ok? ==> |r.value.1| < |b|
  {
    if |b| < 2 then Err(Short)
    else
      var n := ReadLe16(b[..2]);
      if n > |b| - 2 then Err(Malformed) else Ok((Decoded(b[2..2 + n]), b[2 + n..]))
  }

  function TextField(s: text): bytes {
    Le16(Low16(2 * |Units(s)|)) + UnitBytes(Units(s))
  }

  ghost predicate Plain(s: text) {
    0 !in s && 2 * |Units(s)| <= 0xFFFF
  }

  lemma TextReads(s: text, rest: bytes)
    requires Plain(s)
    ensures ParseText(TextField(s) + rest) == Ok((s, rest))
  {
    var n: u16 := 2 * |Units(s)|;
    var b := TextField(s) + rest;
    Le16RoundTrips(n);
    assert b[..2] == Le16(n) && b[2..2 + n] == UnitBytes(Units(s)) && b[2 + n..] == rest;
    DecodesUnterminated(s);
  }

  /** The extended authentication methods a handshake offers. */
  function ParseHandshake(body: bytes): Result<u16> {
    if |body| < 6 then Err(Short) else Ok(ReadLe16(body[4..6]))
  }

  /** The cookie of a tunnel request; none without the presence flag. */
  function ParseTunnelCreate(body: bytes): Result<text> {
    if |body| < 8 then Err(Short)
    else if ReadLe16(body[4..6]) % 2 == 0 then Ok([])
    else
      match ParseText(body[8..])
      case Err(e) => Err(e)
      case Ok((cookie, _)) => Ok(cookie)
  }

  function ParseTunnelAuth(body: bytes): Result<text> {
    match ParseText(body)
    case Err(e) => Err(e)
    case Ok((name, _)) => Ok(name)
  }

  function TextsAt(b: bytes, n: nat): Result<seq<text>>
    decreases n
  {
    if n == 0 then Ok([])
    else
      match ParseText(b)
      case Err(e) => Err(e)
      case Ok((s, rest)) =>
        match TextsAt(rest, n - 1)
        case Err(e) => Err(e)
        case Ok(more) => Ok([s] + more)
  }

  function ParsedChannelCreate(body: bytes): Result<seq<text>> {
    if |body| < 4 then Err(Short)
    else if body[0] as int > MAX_RESOURCES then Err(Malformed)
    else TextsAt(body[4..], body[0])
  }

  method ParseChannelCreate(body: bytes) returns (r: Result<seq<text>>)
    ensures r == ParsedChannelCreate(body)
  {
    if |body| < 4 {
      return Err(Short);
    }
    var count: nat := body[0];
    if count > MAX_RESOURCES {
      return Err(Malformed);
    }
    var rest, resources := body[4..], [];
    var i := 0;
    ghost var all := TextsAt(rest, count);
    assert all.Ok? ==> [] + all.value == all.value;
    while i < count
      invariant 0 <= i <= count
      invariant TextsAt(body[4..], count) ==
                match TextsAt(rest, count - i) case Err(e) => Err(e) case Ok(more) => Ok(resources + more)
    {
      if |rest| < 2 {
        return Err(Short);
      }
      var n: nat := ReadLe16(rest[..2]);
      if n > |rest| - 2 {
        return Err(Malformed);
      }
      var s := Utf16.Decode(rest[2..2 + n]);
      ghost var more := TextsAt(rest[2 + n..], count - i - 1);
      assert more.Ok? ==> resources + ([s] + more.value) == resources + [s] + more.value;
      resources := resources + [s];
      rest := rest[2 + n..];
      i := i + 1;
    }
    assert resources + [] == resources;
    return Ok(resources);
  }

  function TextFields(ss: seq<text>): bytes {
    if ss == [] then [] else TextField(ss[0]) + TextFields(ss[1..])
  }

  lemma {:induction false} TextsRead(ss: seq<text>, rest: bytes)
    requires forall i :: 0 <= i < |ss| ==> Plain(ss[i])
    ensures TextsAt(TextFields(ss) + rest, |ss|) == Ok(ss)
  {
    if ss != [] {
      hide TextField, ParseText, Plain, Units, UnitBytes, Decoded;
      var first, later := TextField(ss[0]), TextFields(ss[1..]);
      Regroup(first, later, rest);
      TextReads(ss[0], later + rest);
      TextsRead(ss[1..], rest);
      TextsStep(first + (later + rest), ss, later + rest);
    }
  }

  lemma TextsStep(b: bytes, ss: seq<text>, rest: bytes)
    requires ss != [] && ParseText(b) == Ok((ss[0], rest)) && TextsAt(rest, |ss| - 1) == Ok(ss[1..])
    ensures TextsAt(b, |ss|) == Ok(ss)
  {
    hide ParseText;
    assert [ss[0]] + ss[1..] == ss;
  }

  /** Up to sixteen machines named in a channel request are read as they were written. */
  lemma ChannelNamesComeBack(ss: seq<text>, alternates: byte, port: u16, rest: bytes)
    requires |ss| <= MAX_RESOURCES && forall i :: 0 <= i < |ss| ==> Plain(ss[i])
    ensures ParsedChannelCreate([|ss| as byte, alternates] + Le16(port) + TextFields(ss) + rest) == Ok(ss)
  {
    hide TextFields, TextsAt, Plain, Units;
    var front, names := [|ss| as byte, alternates] + Le16(port), TextFields(ss);
    Regroup(front, names, rest);
    assert (front + (names + rest))[4..] == names + rest;
    TextsRead(ss, rest);
  }

  /** The cookie that goes into a tunnel request comes out of it. */
  lemma CookieComesBack(capabilities: u32, flags: u16, cookie: text, rest: bytes)
    requires flags % 2 == 1 && Plain(cookie)
    ensures ParseTunnelCreate(Le32(capabilities) + Le16(flags) + [0, 0] + TextField(cookie) + rest) == Ok(cookie)
  {
    var b := Le32(capabilities) + Le16(flags) + [0, 0] + TextField(cookie) + rest;
    Le16RoundTrips(flags);
    assert b[4..6] == Le16(flags) && b[8..] == TextField(cookie) + rest;
    TextReads(cookie, rest);
  }
}
