/**
 * What carries the login's PDUs: TPKT frames (T.123 section 8), X.224 data TPDUs, and the MCS data and
 * channel PDUs of T.125 with their packed encoding.
 */
module RdpMcs {
  import opened ByteStrings
  import opened Wire
  import opened BufferedStream
  import opened RdpCursor

  const MAX_PDU: nat := 16384
  const TPKT_VERSION: byte := 3
  const SERVER_CHANNEL: u16 := 1001
  const SEND_DATA_REQUEST: byte := 0x64
  const SEND_DATA_INDICATION: byte := 0x68

  /* --------------------------------------------------------------------- TPKT --- */

  /** A frame, unless the length does not fit its field. */
  function Frame(payload: bytes): Option<bytes> {
    if |payload| + 4 > 0xFFFF then None else Some([TPKT_VERSION, 0] + Be16(|payload| + 4) + payload)
  }

  /** The payload of the frame at the front of a stream, and what follows it. */
  function FrameAt(s: bytes): Option<(bytes, bytes)> {
    if |s| < 4 || s[0] != TPKT_VERSION then None
    else
      var total := ReadBe16(s[2..4]);
      if total < 4 || total as int > MAX_PDU || |s| < total then None else Some((s[4..total], s[total..]))
  }

  method ReadFrame(r: Reader) returns (payload: Option<bytes>)
    requires r.Valid()
    modifies r
    ensures r.Valid()
    ensures payload.Some? <==> FrameAt(old(r.Remaining())).Some?
    ensures payload.Some? ==> (payload.value, r.Remaining()) == FrameAt(old(r.Remaining())).value
  {
    ghost var stream := r.Remaining();
    var head := r.ReadFull(4);
    if |head| < 4 {
      return None;
    }
    assert stream[..4] == head;
    if head[0] != TPKT_VERSION {
      return None;
    }
    var total: nat := ReadBe16(head[2..4]);
    assert stream[2..4] == head[2..4];
    if total < 4 || total > MAX_PDU {
      return None;
    }
    var body := r.ReadFull(total - 4);
    assert stream == head + body + r.Remaining();
    if |body| < total - 4 {
      return None;
    }
    assert stream[4..total] == body && stream[total..] == r.Remaining();
    return Some(body);
  }

  /** A written frame is read back exactly when it is no larger than a reader buffers. */
  lemma FrameComesBackIff(payload: bytes, rest: bytes)
    ensures (Frame(payload).Some? && FrameAt(Frame(payload).value + rest) == Some((payload, rest)))
            <==> |payload| + 4 <= MAX_PDU
  {
    if |payload| + 4 <= 0xFFFF {
      var s := Frame(payload).value + rest;
      Le16RoundTrips(|payload| + 4);
      assert s[2..4] == Be16(|payload| + 4);
      assert s[4..|payload| + 4] == payload && s[|payload| + 4..] == rest;
    }
  }

  /* -------------------------------------------------------------- X.224 data --- */

  const DATA_HEADER: bytes := [0x02, 0xF0, 0x80]

  function Unwrapped(body: bytes): Option<bytes> {
    if |body| < 3 || body[1] != 0xF0 then None else Some(body[3..])
  }

  /** What the session sends: a payload in a data TPDU in a frame. */
  function Sent(payload: bytes): Option<bytes> {
    Frame(DATA_HEADER + payload)
  }

  /** What the session reads from a stream: the payload of the next data TPDU, and the rest. */
  function Received(s: bytes): Option<(bytes, bytes)> {
    match FrameAt(s)
    case None => None
    case Some((body, rest)) =>
      match Unwrapped(body)
      case None => None
      case Some(payload) => Some((payload, rest))
  }

  lemma DataComesBackIff(payload: bytes, rest: bytes)
    ensures (Sent(payload).Some? && Received(Sent(payload).value + rest) == Some((payload, rest)))
            <==> |payload| + 7 <= MAX_PDU
  {
    hide FrameAt, Frame;
    FrameComesBackIff(DATA_HEADER + payload, rest);
    assert (DATA_HEADER + payload)[3..] == payload;
    if |payload| + 7 > MAX_PDU {
      TooLargeIsRefused(DATA_HEADER + payload, rest);
    }
  }

  lemma TooLargeIsRefused(body: bytes, rest: bytes)
    requires |body| + 4 > MAX_PDU
    ensures Frame(body).Some? ==> FrameAt(Frame(body).value + rest).None?
  {
    if |body| + 4 <= 0xFFFF {
      var s := Frame(body).value + rest;
      Le16RoundTrips(|body| + 4);
      assert s[2..4] == Be16(|body| + 4);
    }
  }

  /* ----------------------------------------------------------- MCS data PDUs --- */

  /** The channel and payload of an MCS data PDU; the choice byte and the initiator are skipped unread. */
  function SendDataAt(body: bytes): Option<(u16, bytes)> {
    if |body| < 6 then None
    else
      match PerLengthAt(body, Some(6))
      case None => None
      case Some((n, at)) => if n > |body| - at then None else Some((ReadBe16(body[3..5]), body[at..at + n]))
  }

  method ParseSendData(body: bytes) returns (r: Option<(u16, bytes)>)
    ensures r == SendDataAt(body)
  {
    var c := new Cursor(body, 1);
    c.Skip(2);
    var hi := c.U8();
    var lo := c.U8();
    c.Skip(1);
    assert |body| >= 6 ==> hi == body[3] && lo == body[4];
    var n := ReadPerLength(c);
    if c.failed {
      return None;
    }
    if n > c.Left() {
      return None;
    }
    var payload := c.Take(n);
    assert body[3..5] == [body[3], body[4]];
    return Some((256 * hi as int + lo as int, payload));
  }

  /** Numbers relative to a minimum wrap around at 16 bits. */
  function Relative(v: u16, min: u16): u16 {
    (v - min + 0x1_0000) % 0x1_0000
  }

  function SendData(choice: byte, user: u16, channel: u16, payload: bytes): bytes {
    [choice] + Be16(Relative(user, SERVER_CHANNEL)) + Be16(channel) + [0x70] + PerLength(|payload|) + payload
  }

  lemma SendDataShape(choice: byte, user: u16, channel: u16, payload: bytes)
    ensures var b, k := SendData(choice, user, channel, payload), |PerLength(|payload|)|;
      && |b| == 6 + k + |payload| && b[3..5] == Be16(channel) && b[6..] == PerLength(|payload|) + payload
      && b[6 + k..] == payload
  {
  }

  lemma PerLengthShift(b: bytes, at: nat)
    requires at <= |b|
    ensures var here, there := PerLengthAt(b[at..], Some(0)), PerLengthAt(b, Some(at));
      && (there.None? <==> here.None?)
      && (here.Some? ==> there.value.0 == here.value.0 && there.value.1 == at + here.value.1)
  {
  }

  /** A data PDU comes back with its channel and payload exactly when the payload's length fits 15 bits. */
  lemma SendDataComesBackIff(choice: byte, user: u16, channel: u16, payload: bytes)
    ensures SendDataAt(SendData(choice, user, channel, payload)) == Some((channel, payload)) <==> |payload| <= 0x7FFF
  {
    hide PerLengthAt, PerLength, SendData;
    var b, n := SendData(choice, user, channel, payload), |payload|;
    SendDataShape(choice, user, channel, payload);
    PerLengthReadsIff(n, payload);
    PerLengthShift(b, 6);
    Le16RoundTrips(channel);
    assert payload == b[6 + |PerLength(n)|..6 + |PerLength(n)| + n];
  }

  /** Through all the wrappers, whatever fits a frame arrives as it was sent. */
  lemma PayloadArrives(choice: byte, user: u16, channel: u16, payload: bytes, rest: bytes)
    requires |SendData(choice, user, channel, payload)| + 7 <= MAX_PDU
    ensures var pdu := SendData(choice, user, channel, payload);
      && Sent(pdu).Some? && Received(Sent(pdu).value + rest) == Some((pdu, rest))
      && SendDataAt(pdu) == Some((channel, payload))
  {
    hide Sent, Received, SendDataAt;
    DataComesBackIff(SendData(choice, user, channel, payload), rest);
    SendDataShape(choice, user, channel, payload);
    SendDataComesBackIff(choice, user, channel, payload);
  }

  /* ------------------------------------------------------------ channel joins --- */

  const ATTACH_CONFIRM: byte := 0x2E
  const JOIN_CONFIRM: byte := 0x3E

  function ParseJoin(body: bytes): Option<u16> {
    if |body| < 5 then None else Some(ReadBe16(body[3..5]))
  }

  method ParseChannelJoinRequest(body: bytes) returns (channel: Option<u16>)
    ensures channel == ParseJoin(body)
  {
    var c := new Cursor(body, 1);
    if c.Left() < 4 {
      return None;
    }
    c.Skip(2);
    var hi := c.U8();
    var lo := c.U8();
    assert body[3..5] == [hi, lo];
    return Some(256 * hi as int + lo as int);
  }

  function AttachConfirm(user: u16): bytes {
    [ATTACH_CONFIRM, 0] + Be16(Relative(user, SERVER_CHANNEL))
  }

  function JoinConfirm(user: u16, channel: u16): bytes {
    [JOIN_CONFIRM, 0] + Be16(Relative(user, SERVER_CHANNEL)) + Be16(channel) + Be16(channel)
  }

  /** What a client asks to join is what the confirmation names, asked for and joined, for the same user. */
  lemma JoinIsConfirmed(choice: byte, user: u16, channel: u16)
    requires user >= SERVER_CHANNEL
    ensures ParseJoin([choice] + Be16(Relative(user, SERVER_CHANNEL)) + Be16(channel)) == Some(channel)
    ensures var b := JoinConfirm(user, channel);
      && |b| == 8 && ReadBe16(b[4..6]) == channel && ReadBe16(b[6..8]) == channel
      && ReadBe16(b[2..4]) as int + SERVER_CHANNEL as int == user
      && ReadBe16(AttachConfirm(user)[2..4]) == ReadBe16(b[2..4])
  {
    Le16RoundTrips(channel);
    Le16RoundTrips(Relative(user, SERVER_CHANNEL));
    var b := JoinConfirm(user, channel);
    assert b[4..6] == Be16(channel) && b[6..8] == Be16(channel) && b[2..4] == Be16(Relative(user, SERVER_CHANNEL));
    assert AttachConfirm(user)[2..4] == Be16(Relative(user, SERVER_CHANNEL));
    var q := [choice] + Be16(Relative(user, SERVER_CHANNEL)) + Be16(channel);
    assert q[3..5] == Be16(channel);
  }
}
