/**
 * The connection sequence of the RDP-native login after its first PDU: a client attaches, joins its
 * channels and sends its credentials, and the gateway answers, for at most 64 PDUs.
 */
module RdpLogin {
  import opened ByteStrings
  import opened Wire
  import opened BufferedStream
  import opened ClientInfo
  import opened RdpCursor
  import opened RdpMcs

  const MAX_PDUS: nat := 64
  const USER_ID: u16 := 1002
  const IO_CHANNEL: u16 := 1003

  /** The licence message that tells a client it needs none (MS-RDPBCGR 2.2.1.12). */
  const NO_LICENCE: bytes :=
    [0x80, 0x00, 0x00, 0x00, 0xFF, 0x03, 0x10, 0x00, 0x07, 0x00, 0x00, 0x00, 0x02, 0x00, 0x00, 0x00, 0x04, 0x00, 0x00, 0x00]

  /** What one payload calls for. */
  datatype Turn = Ignore | Reply(pdu: bytes) | Finish(pdu: bytes, credentials: Credentials) | Abort

  function OnData(payload: bytes): Turn {
    match SendDataAt(payload)
    case None => Abort
    case Some((channel, data)) =>
      if channel != IO_CHANNEL || |data| < 4 then Ignore
      else if Bit(ReadLe16(data[..2]), 0x40) then
        match InfoIn(data)
        case None => Abort
        case Some(credentials) =>
          Finish(SendData(SEND_DATA_INDICATION, USER_ID, IO_CHANNEL, NO_LICENCE), credentials)
      else if Bit(ReadLe16(data[..2]), 0x01) then Abort
      else Ignore
  }

  /** The PDU type is the first byte without its two option bits. */
  function TurnFor(payload: bytes): Turn {
    if payload == [] then Ignore
    else
      var kind := payload[0] - payload[0] % 4;
      if kind == 0x28 then Reply(AttachConfirm(USER_ID))
      else if kind == 0x38 then
        match ParseJoin(payload)
        case None => Abort
        case Some(channel) => Reply(JoinConfirm(USER_ID, channel))
      else if kind == 0x64 then OnData(payload)
      else if kind == 0x20 then Abort
      else Ignore
  }

  /** The payloads sent in answer, and the credentials if the client got that far. */
  datatype Result = Result(replies: seq<bytes>, credentials: Option<Credentials>)

  function Login(stream: bytes, turns: nat): Result {
    if turns == 0 then Result([], None)
    else
      match Received(stream)
      case None => Result([], None)
      case Some((payload, rest)) =>
        match TurnFor(payload)
        case Abort => Result([], None)
        case Ignore => Login(rest, turns - 1)
        case Reply(pdu) => var later := Login(rest, turns - 1); Result([pdu] + later.replies, later.credentials)
        case Finish(pdu, credentials) => Result([pdu], Some(credentials))
  }

  method ReadData(r: Reader) returns (payload: Option<bytes>)
    requires r.Valid()
    modifies r
    ensures r.Valid()
    ensures payload.Some? <==> Received(old(r.Remaining())).Some?
    ensures payload.Some? ==> (payload.value, r.Remaining()) == Received(old(r.Remaining())).value
  {
    var body := ReadFrame(r);
    if body.None? || |body.value| < 3 || body.value[1] != 0xF0 {
      return None;
    }
    return Some(body.value[3..]);
  }

  method HandleData(payload: bytes) returns (t: Turn)
    ensures t == OnData(payload)
  {
    var sent := ParseSendData(payload);
    if sent.None? {
      return Abort;
    }
    var (channel, data) := sent.value;
    if channel != IO_CHANNEL || |data| < 4 {
      return Ignore;
    }
    var flags := ReadLe16(data[..2]);
    if Bit(flags, 0x40) {
      var info := ParseClientInfo(data);
      if info.None? {
        return Abort;
      }
      return Finish(SendData(SEND_DATA_INDICATION, USER_ID, IO_CHANNEL, NO_LICENCE), info.value);
    }
    return if Bit(flags, 0x01) then Abort else Ignore;
  }

  method HandlePayload(payload: bytes) returns (t: Turn)
    ensures t == TurnFor(payload)
  {
    if payload == [] {
      return Ignore;
    }
    var kind := payload[0] - payload[0] % 4;
    if kind == 0x28 {
      return Reply(AttachConfirm(USER_ID));
    }
    if kind == 0x38 {
      var channel := ParseChannelJoinRequest(payload);
      return if channel.None? then Abort else Reply(JoinConfirm(USER_ID, channel.value));
    }
    if kind == 0x64 {
      t := HandleData(payload);
      return;
    }
    return if kind == 0x20 then Abort else Ignore;
  }

  method Negotiate(r: Reader) returns (res: Result)
    requires r.Valid()
    modifies r
    ensures r.Valid() && res == Login(old(r.Remaining()), MAX_PDUS)
  {
    hide Received, TurnFor;
    var replies: seq<bytes> := [];
    var i := 0;
    ghost var start := r.Remaining();
    assert [] + Login(start, MAX_PDUS).replies == Login(start, MAX_PDUS).replies;
    while i < MAX_PDUS
      invariant 0 <= i <= MAX_PDUS && r.Valid()
      invariant Login(start, MAX_PDUS)
                == Result(replies + Login(r.Remaining(), MAX_PDUS - i).replies, Login(r.Remaining(), MAX_PDUS - i).credentials)
    {
      assert replies + [] == replies;
      var payload := ReadData(r);
      if payload.None? {
        return Result(replies, None);
      }
      var turn := HandlePayload(payload.value);
      ghost var later := Login(r.Remaining(), MAX_PDUS - i - 1);
      match turn {
        case Abort => return Result(replies, None);
        case Ignore =>
        case Reply(pdu) =>
          assert replies + ([pdu] + later.replies) == replies + [pdu] + later.replies;
          replies := replies + [pdu];
        case Finish(pdu, credentials) => return Result(replies + [pdu], Some(credentials));
      }
      i := i + 1;
    }
    assert replies + [] == replies;
    return Result(replies, None);
  }

  /* ---------------------------------------------------------------- main results --- */

  function Stream(payloads: seq<bytes>): bytes
    requires forall i :: 0 <= i < |payloads| ==> |payloads[i]| + 7 <= MAX_PDU
  {
    if payloads == [] then [] else Sent(payloads[0]).value + Stream(payloads[1..])
  }

  function JoinRequest(channel: u16): bytes {
    [0x38] + Be16(Relative(USER_ID, SERVER_CHANNEL)) + Be16(channel)
  }

  /** What a client says that joins these channels and then logs in. */
  function Joins(channels: seq<u16>, info: bytes): (r: seq<bytes>)
    ensures |r| == |channels| + 1
  {
    if channels == [] then [SendData(SEND_DATA_REQUEST, USER_ID, IO_CHANNEL, info)]
    else [JoinRequest(channels[0])] + Joins(channels[1..], info)
  }

  function Confirms(channels: seq<u16>): seq<bytes> {
    if channels == [] then [SendData(SEND_DATA_INDICATION, USER_ID, IO_CHANNEL, NO_LICENCE)]
    else [JoinConfirm(USER_ID, channels[0])] + Confirms(channels[1..])
  }

  const ERECT: bytes := [0x04, 0x01, 0x00, 0x01, 0x00]
  const ATTACH: bytes := [0x28]

  function Session(channels: seq<u16>, info: bytes): seq<bytes> {
    [ERECT, ATTACH] + Joins(channels, info)
  }

  ghost predicate GoodInfo(info: bytes, credentials: Credentials) {
    |info| >= 4 && |SendData(SEND_DATA_REQUEST, USER_ID, IO_CHANNEL, info)| + 7 <= MAX_PDU && InfoIn(info) == Some(credentials)
  }

  lemma InfoFinishes(info: bytes, credentials: Credentials)
    requires GoodInfo(info, credentials)
    ensures TurnFor(SendData(SEND_DATA_REQUEST, USER_ID, IO_CHANNEL, info))
            == Finish(SendData(SEND_DATA_INDICATION, USER_ID, IO_CHANNEL, NO_LICENCE), credentials)
  {
    hide SendDataAt, FieldAt, PerLength, AttachConfirm, JoinConfirm;
    PayloadArrives(SEND_DATA_REQUEST, USER_ID, IO_CHANNEL, info, []);
    FirstByte(SEND_DATA_REQUEST, USER_ID, IO_CHANNEL, info);
    assert info[0..2] == info[..2];
  }

  lemma FirstByte(choice: byte, user: u16, channel: u16, payload: bytes)
    ensures SendData(choice, user, channel, payload) != [] && SendData(choice, user, channel, payload)[0] == choice
  {
  }

  lemma JoinTurn(channel: u16)
    ensures TurnFor(JoinRequest(channel)) == Reply(JoinConfirm(USER_ID, channel)) && |JoinRequest(channel)| == 5
  {
    hide JoinConfirm;
    JoinIsConfirmed(0x38, USER_ID, channel);
  }

  lemma {:induction false} JoinsFit(channels: seq<u16>, info: bytes)
    requires |SendData(SEND_DATA_REQUEST, USER_ID, IO_CHANNEL, info)| + 7 <= MAX_PDU
    ensures forall i :: 0 <= i < |Joins(channels, info)| ==> |Joins(channels, info)[i]| + 7 <= MAX_PDU
  {
    if channels != [] {
      hide SendData, TurnFor;
      JoinsFit(channels[1..], info);
      JoinTurn(channels[0]);
    }
  }

  lemma NextPayload(payloads: seq<bytes>, rest: bytes)
    requires payloads != [] && forall i :: 0 <= i < |payloads| ==> |payloads[i]| + 7 <= MAX_PDU
    ensures Received(Stream(payloads) + rest) == Some((payloads[0], Stream(payloads[1..]) + rest))
  {
    hide Sent, Received;
    DataComesBackIff(payloads[0], Stream(payloads[1..]) + rest);
    assert Stream(payloads) + rest == Sent(payloads[0]).value + (Stream(payloads[1..]) + rest);
  }

  lemma Replied(s: bytes, payload: bytes, rest: bytes, pdu: bytes, turns: nat)
    requires turns > 0 && Received(s) == Some((payload, rest)) && TurnFor(payload) == Reply(pdu)
    ensures var later := Login(rest, turns - 1); Login(s, turns) == Result([pdu] + later.replies, later.credentials)
  {
    hide Received, TurnFor;
  }

  lemma Finished(s: bytes, payload: bytes, rest: bytes, pdu: bytes, credentials: Credentials, turns: nat)
    requires turns > 0 && Received(s) == Some((payload, rest)) && TurnFor(payload) == Finish(pdu, credentials)
    ensures Login(s, turns) == Result([pdu], Some(credentials))
  {
    hide Received, TurnFor;
  }

  lemma OutOfTurns(s: bytes)
    ensures Login(s, 0) == Result([], None)
  {
  }

  lemma JoinsUnfold(channels: seq<u16>, info: bytes)
    ensures channels != [] ==> Joins(channels, info)[0] == JoinRequest(channels[0])
    ensures channels != [] ==> Joins(channels, info)[1..] == Joins(channels[1..], info)
    ensures channels == [] ==> Joins(channels, info) == [SendData(SEND_DATA_REQUEST, USER_ID, IO_CHANNEL, info)]
  {
    hide JoinRequest, SendData;
  }

  /** Joins are answered in order; the login succeeds exactly when its turn comes within the limit. */
  lemma {:induction false} JoinsSucceedIff(channels: seq<u16>, info: bytes, credentials: Credentials, rest: bytes, turns: nat)
    requires GoodInfo(info, credentials)
    requires forall i :: 0 <= i < |Joins(channels, info)| ==> |Joins(channels, info)[i]| + 7 <= MAX_PDU
    ensures var res := Login(Stream(Joins(channels, info)) + rest, turns);
      if |channels| < turns then res == Result(Confirms(channels), Some(credentials)) else res.credentials.None?
    decreases |channels|
  {
    hide Received, TurnFor, SendData, JoinConfirm, JoinRequest, Stream, GoodInfo, Login, Joins;
    var ps := Joins(channels, info);
    var s := Stream(ps) + rest;
    if turns == 0 {
      OutOfTurns(s);
    } else {
      NextPayload(ps, rest);
      JoinsUnfold(channels, info);
      if channels == [] {
        InfoFinishes(info, credentials);
        Finished(s, ps[0], Stream(ps[1..]) + rest, SendData(SEND_DATA_INDICATION, USER_ID, IO_CHANNEL, NO_LICENCE), credentials, turns);
      } else {
        JoinTurn(channels[0]);
        Replied(s, ps[0], Stream(ps[1..]) + rest, JoinConfirm(USER_ID, channels[0]), turns);
        assert forall i :: 0 <= i < |ps[1..]| ==> ps[1..][i] == ps[i + 1];
        JoinsSucceedIff(channels[1..], info, credentials, rest, turns - 1);
      }
    }
  }

  /**
   * A client that attaches, joins its channels and sends its credentials gets every join confirmed in
   * order, a licence message, and its login, exactly when it joins at most 61 channels.
   */
  lemma SessionLogsInIff(channels: seq<u16>, info: bytes, credentials: Credentials, rest: bytes)
    requires GoodInfo(info, credentials)
    ensures forall i :: 0 <= i < |Session(channels, info)| ==> |Session(channels, info)[i]| + 7 <= MAX_PDU
    ensures var res := Login(Stream(Session(channels, info)) + rest, MAX_PDUS);
      && (res.credentials.Some? <==> |channels| <= 61)
      && (|channels| <= 61 ==>
            res == Result([AttachConfirm(USER_ID)] + Confirms(channels), Some(credentials)))
  {
    hide Received, SendData, JoinConfirm, JoinRequest, Stream, InfoIn, Login, AttachConfirm;
    JoinsFit(channels, info);
    var ps, joins := Session(channels, info), Joins(channels, info);
    assert ps[0] == ERECT && ps[1..] == [ATTACH] + joins && ps[1..][1..] == joins;
    assert forall i :: 0 <= i < |ps| ==> ps[i] == ERECT || ps[i] == ATTACH || ps[i] == joins[i - 2];
    NextPayload(ps, rest);
    NextPayload(ps[1..], rest);
    JoinsSucceedIff(channels, info, credentials, rest, MAX_PDUS - 2);
    TwoTurns(Stream(ps) + rest, Stream(ps[1..]) + rest, Stream(joins) + rest);
  }

  lemma TwoTurns(s0: bytes, s1: bytes, s2: bytes)
    requires Received(s0) == Some((ERECT, s1)) && Received(s1) == Some((ATTACH, s2))
    ensures var later := Login(s2, MAX_PDUS - 2);
      Login(s0, MAX_PDUS) == Result([AttachConfirm(USER_ID)] + later.replies, later.credentials)
  {
    hide Received, AttachConfirm;
    assert TurnFor(ERECT) == Ignore;
    assert TurnFor(ATTACH) == Reply(AttachConfirm(USER_ID));
    assert Login(s0, MAX_PDUS) == Login(s1, MAX_PDUS - 1);
  }
}
