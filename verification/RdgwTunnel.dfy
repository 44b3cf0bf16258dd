/**
 * One client's way through an RD Gateway tunnel (MS-TSGU 1.3): handshake, tunnel, authorization,
 * channel, data. The authorizer's answer to a cookie comes in with the packet that asks for it; an
 * empty answer is a refusal.
 */
module RdgwTunnel {
  import opened ByteStrings
  import opened Wire
  import opened Utf16
  import opened RdgwPacket

  const PKT_HANDSHAKE: u16 := 0x0001
  const PKT_HANDSHAKE_RESPONSE: u16 := 0x0002
  const PKT_TUNNEL_CREATE: u16 := 0x0004
  const PKT_TUNNEL_RESPONSE: u16 := 0x0005
  const PKT_TUNNEL_AUTH: u16 := 0x0006
  const PKT_TUNNEL_AUTH_RESPONSE: u16 := 0x0007
  const PKT_CHANNEL_CREATE: u16 := 0x0008
  const PKT_CHANNEL_RESPONSE: u16 := 0x0009
  const PKT_KEEPALIVE: u16 := 0x000D
  const PKT_CLOSE_CHANNEL: u16 := 0x0010
  const PKT_CLOSE_RESPONSE: u16 := 0x0011

  const SUCCESS: u32 := 0
  const ACCESS_DENIED: u32 := 5
  const NOT_SUPPORTED: u32 := 0x32

  datatype Stage = Handshake | Create | Auth | Channel | Ready | Closed

  function Rank(s: Stage): nat {
    match s
    case Handshake => 0
    case Create => 1
    case Auth => 2
    case Channel => 3
    case Ready => 4
    case Closed => 5
  }

  datatype State = State(stage: Stage, cookie: text, backend: string, requested: seq<text>)

  const NEW := State(Handshake, [], "", [])

  /** What Handle gives back: bytes for the client, payload for the machine, an error. */
  datatype Answer = Answer(reply: bytes, payload: bytes, error: Option<Error>)

  const NOTHING := Answer([], [], None)

  function Failed(e: Error): Answer {
    Answer([], [], Some(e))
  }

  function Zeros(n: nat): bytes {
    Repeat(0, n)
  }

  function HandshakeResponse(status: u32): bytes {
    Build(PKT_HANDSHAKE_RESPONSE, Le32(status) + [1, 0] + Le16(1) + Le16(2))
  }

  function TunnelResponse(status: u32, id: u32, capabilities: u16): bytes {
    Build(PKT_TUNNEL_RESPONSE, Le16(1) + Le32(status) + Le32(id) + Le32(0) + Le16(capabilities) + Le16(0))
  }

  function TunnelAuthResponse(status: u32): bytes {
    Build(PKT_TUNNEL_AUTH_RESPONSE, Le32(status) + Zeros(12))
  }

  function ChannelResponse(status: u32, id: u32): bytes {
    Build(PKT_CHANNEL_RESPONSE, Le32(status) + Zeros(4) + Le32(id) + Zeros(2))
  }

  function CloseResponse(status: u32): bytes {
    Build(PKT_CLOSE_RESPONSE, Le32(status))
  }

  /* ----------------------------------------------------------------- one packet --- */

  function OnHandshake(s: State, p: Packet): (State, Answer) {
    if p.kind != PKT_HANDSHAKE then (s, Failed(Sequence))
    else
      match ParseHandshake(p.body)
      case Err(e) => (s, Failed(e))
      case Ok(offered) =>
        if offered / 2 % 2 == 0 then (s, Answer(HandshakeResponse(NOT_SUPPORTED), [], Some(Refused)))
        else (s.(stage := Create), Answer(HandshakeResponse(SUCCESS), [], None))
  }

  function OnCreate(s: State, p: Packet, backend: string): (State, Answer) {
    if p.kind != PKT_TUNNEL_CREATE then (s, Failed(Sequence))
    else
      match ParseTunnelCreate(p.body)
      case Err(e) => (s, Failed(e))
      case Ok(cookie) =>
        if Blank(cookie) || backend == "" then (s, Answer(TunnelResponse(ACCESS_DENIED, 0, 0), [], Some(Refused)))
        else (s.(stage := Auth, cookie := cookie, backend := backend), Answer(TunnelResponse(SUCCESS, 1, 3), [], None))
  }

  function OnAuth(s: State, p: Packet): (State, Answer) {
    if p.kind != PKT_TUNNEL_AUTH then (s, Failed(Sequence))
    else
      match ParseTunnelAuth(p.body)
      case Err(e) => (s, Failed(e))
      case Ok(_) => (s.(stage := Channel), Answer(TunnelAuthResponse(SUCCESS), [], None))
  }

  function OnChannel(s: State, p: Packet): (State, Answer) {
    if p.kind != PKT_CHANNEL_CREATE then (s, Failed(Sequence))
    else
      match ParsedChannelCreate(p.body)
      case Err(e) => (s, Failed(e))
      case Ok(names) => (s.(stage := Ready, requested := names), Answer(ChannelResponse(SUCCESS, 1), [], None))
  }

  function OnReady(s: State, p: Packet): (State, Answer) {
    if p.kind == PKT_DATA then
      match ParseData(p.body)
      case Err(e) => (s, Failed(e))
      case Ok(data) => (s, Answer([], data, None))
    else if p.kind == PKT_CLOSE_CHANNEL then (s.(stage := Closed), Answer(CloseResponse(SUCCESS), [], None))
    else (s, NOTHING)
  }

  /** What one packet does, with the authorizer's answer should it be asked. */
  function Next(s: State, p: Packet, backend: string): (State, Answer) {
    if p.kind == PKT_KEEPALIVE then (s, NOTHING)
    else
      match s.stage
      case Handshake => OnHandshake(s, p)
      case Create => OnCreate(s, p, backend)
      case Auth => OnAuth(s, p)
      case Channel => OnChannel(s, p)
      case Ready => OnReady(s, p)
      case Closed => (s, Failed(Sequence))
  }

  class Tunnel {
    var stage: Stage
    var cookie: text
    var backend: string
    var requested: seq<text>

    constructor ()
      ensures Now() == NEW
    {
      stage, cookie, backend, requested := Handshake, [], "", [];
    }

    ghost function Now(): State
      reads this
    {
      State(stage, cookie, backend, requested)
    }

    method Handle(p: Packet, answer: string) returns (a: Answer)
      modifies this
      ensures (Now(), a) == Next(old(Now()), p, answer)
      ensures a.error.Some? ==> Now() == old(Now())
      ensures a.payload != [] ==> old(stage).Ready?
    {
      if p.kind == PKT_KEEPALIVE {
        return NOTHING;
      }
      match stage
      case Handshake => a := HandleHandshake(p);
      case Create => a := HandleCreate(p, answer);
      case Auth =>
        if p.kind != PKT_TUNNEL_AUTH {
          return Failed(Sequence);
        }
        var req := ParseTunnelAuth(p.body);
        if req.Err? {
          return Failed(req.error);
        }
        stage := Channel;
        return Answer(TunnelAuthResponse(SUCCESS), [], None);
      case Channel =>
        if p.kind != PKT_CHANNEL_CREATE {
          return Failed(Sequence);
        }
        var req := ParseChannelCreate(p.body);
        if req.Err? {
          return Failed(req.error);
        }
        requested := req.value;
        stage := Ready;
        return Answer(ChannelResponse(SUCCESS, 1), [], None);
      case Ready => a := HandleReady(p);
      case Closed => return Failed(Sequence);
    }

    method HandleHandshake(p: Packet) returns (a: Answer)
      modifies `stage
      ensures (Now(), a) == OnHandshake(old(Now()), p)
    {
      if p.kind != PKT_HANDSHAKE {
        return Failed(Sequence);
      }
      var req := ParseHandshake(p.body);
      if req.Err? {
        return Failed(req.error);
      }
      if req.value / 2 % 2 == 0 {
        return Answer(HandshakeResponse(NOT_SUPPORTED), [], Some(Refused));
      }
      stage := Create;
      return Answer(HandshakeResponse(SUCCESS), [], None);
    }

    method HandleCreate(p: Packet, answer: string) returns (a: Answer)
      modifies this
      ensures (Now(), a) == OnCreate(old(Now()), p, answer)
    {
      if p.kind != PKT_TUNNEL_CREATE {
        return Failed(Sequence);
      }
      var req := ParseTunnelCreate(p.body);
      if req.Err? {
        return Failed(req.error);
      }
      if Blank(req.value) || answer == "" {
        return Answer(TunnelResponse(ACCESS_DENIED, 0, 0), [], Some(Refused));
      }
      cookie := req.value;
      backend := answer;
      stage := Auth;
      return Answer(TunnelResponse(SUCCESS, 1, 3), [], None);
    }

    method HandleReady(p: Packet) returns (a: Answer)
      modifies `stage
      ensures (Now(), a) == OnReady(old(Now()), p)
    {
      if p.kind == PKT_DATA {
        var data := ParseData(p.body);
        return if data.Err? then Failed(data.error) else Answer([], data.value, None);
      }
      if p.kind == PKT_CLOSE_CHANNEL {
        stage := Closed;
        return Answer(CloseResponse(SUCCESS), [], None);
      }
      return NOTHING;
    }
  }

  /* ------------------------------------------------------------------- all runs --- */

  /** A packet from the client, and what the authorizer would say about its cookie. */
  datatype Arrival = Arrival(packet: Packet, backend: string)

  function Run(arrivals: seq<Arrival>): State {
    if arrivals == [] then NEW
    else
      var last := arrivals[|arrivals| - 1];
      Next(Run(arrivals[..|arrivals| - 1]), last.packet, last.backend).0
  }

  function AnswerTo(arrivals: seq<Arrival>, k: nat): Answer
    requires k < |arrivals|
  {
    Next(Run(arrivals[..k]), arrivals[k].packet, arrivals[k].backend).1
  }

  /** The sequence goes forward one stage at a time; errors and keepalives move nothing; data needs readiness. */
  lemma OneStageAtATime(s: State, p: Packet, backend: string)
    ensures var (s', a) := Next(s, p, backend);
      && Rank(s.stage) <= Rank(s'.stage) <= Rank(s.stage) + 1
      && (a.error.Some? ==> s' == s)
      && (p.kind == PKT_KEEPALIVE ==> s' == s && a == NOTHING)
      && (a.payload != [] ==> s.stage.Ready? && s'.stage.Ready?)
      && (s.stage.Auth? || s.stage.Channel? || s.stage.Ready? || s.stage.Closed? ==> s'.backend == s.backend)
  {
    hide Build, ParseText, TextsAt, ReadLe32;
  }

  /** Arrival `k` is one whose cookie the authorizer accepted in its turn. */
  ghost predicate Admits(arrivals: seq<Arrival>, k: nat)
    requires k < |arrivals|
  {
    && Run(arrivals[..k]).stage.Create? && arrivals[k].packet.kind == PKT_TUNNEL_CREATE
    && ParseTunnelCreate(arrivals[k].packet.body).Ok?
    && !Blank(ParseTunnelCreate(arrivals[k].packet.body).value) && arrivals[k].backend != ""
  }

  ghost predicate PastAuth(s: State) {
    Rank(s.stage) >= 2
  }

  /** The one arrival that admitted this tunnel, if any: its answer is the backend. */
  ghost predicate AdmittedBy(arrivals: seq<Arrival>, k: nat) {
    && k < |arrivals| && Admits(arrivals, k) && Run(arrivals).backend == arrivals[k].backend
    && ParseTunnelCreate(arrivals[k].packet.body) == Ok(Run(arrivals).cookie)
    && forall j :: 0 <= j < |arrivals| && Admits(arrivals, j) ==> j == k
  }

  ghost predicate NeverAdmitted(arrivals: seq<Arrival>) {
    && Run(arrivals).backend == "" && forall j :: 0 <= j < |arrivals| ==> !Admits(arrivals, j)
  }

  lemma AdmitsPrefix(arrivals: seq<Arrival>, n: nat, k: nat)
    requires k < n <= |arrivals|
    ensures Admits(arrivals[..n], k) == Admits(arrivals, k)
  {
    assert arrivals[..n][..k] == arrivals[..k];
  }

  lemma CreateStep(s: State, p: Packet, backend: string)
    ensures var s' := Next(s, p, backend).0;
      var req := ParseTunnelCreate(p.body);
      if s.stage.Create? && p.kind == PKT_TUNNEL_CREATE && req.Ok? && !Blank(req.value) && backend != "" then
        !PastAuth(s) && PastAuth(s') && s'.backend == backend && s'.cookie == req.value
      else s'.backend == s.backend && s'.cookie == s.cookie && (PastAuth(s') <==> PastAuth(s))
  {
    hide Build, ParseText, TextsAt, ReadLe32, ParseTunnelCreate, Blank;
  }

  lemma OneArrival(past: seq<Arrival>, last: Arrival)
    ensures var all := past + [last];
      && Run(all) == Next(Run(past), last.packet, last.backend).0
      && (forall j :: 0 <= j < |past| ==> Admits(all, j) == Admits(past, j))
      && (if Admits(all, |past|) then
            && !PastAuth(Run(past)) && PastAuth(Run(all)) && Run(all).backend == last.backend
            && ParseTunnelCreate(last.packet.body) == Ok(Run(all).cookie)
          else
            && Run(all).backend == Run(past).backend && Run(all).cookie == Run(past).cookie
            && (PastAuth(Run(all)) <==> PastAuth(Run(past))))
  {
    hide Next, ParseTunnelCreate, Blank, PastAuth;
    var all := past + [last];
    assert all[..|past|] == past;
    CreateStep(Run(past), last.packet, last.backend);
    forall j | 0 <= j < |past| ensures Admits(all, j) == Admits(past, j) {
      AdmitsPrefix(all, |past|, j);
    }
  }

  /** A tunnel is past its authorization exactly when one accepted cookie brought it there. */
  lemma {:induction false} AdmittedOnce(arrivals: seq<Arrival>)
    ensures PastAuth(Run(arrivals)) ==> exists k :: AdmittedBy(arrivals, k)
    ensures !PastAuth(Run(arrivals)) ==> NeverAdmitted(arrivals)
  {
    if arrivals == [] {
      NothingAdmitted();
    } else {
      hide Next, Run, Admits, ParseTunnelCreate, PastAuth;
      var n := |arrivals| - 1;
      var past, last := arrivals[..n], arrivals[n];
      AdmittedOnce(past);
      assert arrivals == past + [last];
      OneArrival(past, last);
      if PastAuth(Run(past)) {
        var k :| AdmittedBy(past, k);
        assert AdmittedBy(arrivals, k);
      } else if Admits(arrivals, n) {
        assert AdmittedBy(arrivals, n);
      }
    }
  }

  lemma NothingAdmitted()
    ensures !PastAuth(Run([])) && NeverAdmitted([])
  {
  }

  /**
   * Whatever a client sends, data flows only after exactly one accepted, non-blank cookie, and goes to
   * the machine the authorizer named for it, whatever machines the client asks for.
   */
  lemma ReadyMeansAuthorizedOnce(arrivals: seq<Arrival>, k: nat)
    requires k < |arrivals| && AnswerTo(arrivals, k).payload != []
    ensures Run(arrivals[..k]).stage.Ready? && exists j :: AdmittedBy(arrivals[..k], j)
  {
    hide Next, AdmittedBy;
    var s := Run(arrivals[..k]);
    OneStageAtATime(s, arrivals[k].packet, arrivals[k].backend);
    AdmittedOnce(arrivals[..k]);
  }

  /** The backend never changes once it is set. */
  lemma {:induction false} BackendIsFixed(arrivals: seq<Arrival>, k: nat)
    requires k <= |arrivals| && PastAuth(Run(arrivals[..k]))
    ensures Run(arrivals).backend == Run(arrivals[..k]).backend && PastAuth(Run(arrivals))
  {
    if k == |arrivals| {
      assert arrivals[..k] == arrivals;
    } else {
      hide Next;
      var n := |arrivals| - 1;
      assert arrivals[..n][..k] == arrivals[..k];
      BackendIsFixed(arrivals[..n], k);
      OneStageAtATime(Run(arrivals[..n]), arrivals[n].packet, arrivals[n].backend);
    }
  }

  /* --------------------------------------------------------------- the replies --- */

  /** The first whole packet in `b` is of this kind and has this status at this place in its body. */
  ghost predicate Says(b: bytes, kind: u16, status: u32, at: nat) {
    match Parse(b)
    case Err(_) => false
    case Ok((p, _)) => p.kind == kind && at + 4 <= |p.body| && ReadLe32(p.body[at..at + 4]) == status
  }

  /** A reply in front of this is parsed. */
  predicate Followable(reply: bytes, rest: bytes) {
    Reaches(|reply| + |rest|, |reply|)
  }

  /** In front of `rest` this reply says what it was built to say, exactly when it can be parsed there. */
  ghost predicate ReadsBack(reply: bytes, rest: bytes, kind: u16, status: u32, at: nat) {
    Says(reply + rest, kind, status, at) <==> Followable(reply, rest)
  }

  lemma ReplySays(kind: u16, front: bytes, status: u32, after: bytes, rest: bytes)
    requires |front| + |after| <= 100
    ensures ReadsBack(Build(kind, front + Le32(status) + after), rest, kind, status, |front|)
  {
    var body := front + Le32(status) + after;
    hide Le32, ReadLe32, Parse, Build;
    BuildShape(kind, body, []);
    assert Build(kind, body) + [] == Build(kind, body);
    ParseUndoesBuildIff(Packet(kind, body), rest);
    if !Followable(Build(kind, body), rest) {
      NotReached(Packet(kind, body), rest);
    }
    FixedWidthRoundTrips(kind, status);
    assert body[|front|..|front| + 4] == Le32(status);
  }

  /** Every reply is a packet of its own kind, with the status where the standard has it. */
  lemma RepliesReadBack(status: u32, id: u32, capabilities: u16, rest: bytes)
    ensures ReadsBack(HandshakeResponse(status), rest, PKT_HANDSHAKE_RESPONSE, status, 0)
    ensures ReadsBack(TunnelResponse(status, id, capabilities), rest, PKT_TUNNEL_RESPONSE, status, 2)
    ensures ReadsBack(TunnelAuthResponse(status), rest, PKT_TUNNEL_AUTH_RESPONSE, status, 0)
    ensures ReadsBack(ChannelResponse(status, id), rest, PKT_CHANNEL_RESPONSE, status, 0)
    ensures ReadsBack(CloseResponse(status), rest, PKT_CLOSE_RESPONSE, status, 0)
  {
    hide ReadsBack, Build, Le32, Le16;
    ReplySays(PKT_HANDSHAKE_RESPONSE, [], status, [1, 0] + Le16(1) + Le16(2), rest);
    assert [] + Le32(status) + ([1, 0] + Le16(1) + Le16(2)) == Le32(status) + [1, 0] + Le16(1) + Le16(2);
    ReplySays(PKT_TUNNEL_RESPONSE, Le16(1), status, Le32(id) + Le32(0) + Le16(capabilities) + Le16(0), rest);
    assert Le16(1) + Le32(status) + (Le32(id) + Le32(0) + Le16(capabilities) + Le16(0))
        == Le16(1) + Le32(status) + Le32(id) + Le32(0) + Le16(capabilities) + Le16(0);
    ReplySays(PKT_TUNNEL_AUTH_RESPONSE, [], status, Zeros(12), rest);
    assert [] + Le32(status) + Zeros(12) == Le32(status) + Zeros(12);
    ReplySays(PKT_CHANNEL_RESPONSE, [], status, Zeros(4) + Le32(id) + Zeros(2), rest);
    assert [] + Le32(status) + (Zeros(4) + Le32(id) + Zeros(2)) == Le32(status) + Zeros(4) + Le32(id) + Zeros(2);
    ReplySays(PKT_CLOSE_RESPONSE, [], status, [], rest);
    assert [] + Le32(status) + [] == Le32(status);
  }

  /* ---------------------------------------------------------- end to end --- */

  function DataPackets(payloads: seq<bytes>): seq<Packet> {
    if payloads == [] then [] else [Packet(PKT_DATA, DataBody(payloads[0]))] + DataPackets(payloads[1..])
  }

  /** What a ready tunnel hands on for a sequence of packets. */
  function HandedOn(s: State, ps: seq<Packet>): seq<bytes>
    decreases |ps|
  {
    if ps == [] then []
    else
      var (s', a) := Next(s, ps[0], "");
      [a.payload] + HandedOn(s', ps[1..])
  }

  lemma {:induction false} ReadyHandsOn(s: State, payloads: seq<bytes>)
    requires s.stage.Ready? && forall i :: 0 <= i < |payloads| ==> |payloads[i]| <= MAX_PAYLOAD
    ensures HandedOn(s, DataPackets(payloads)) == payloads && Fit(DataPackets(payloads))
  {
    if payloads != [] {
      hide ParseData, DataBody;
      var p := payloads[0];
      DataBodyReads(p);
      assert p[..|p|] == p;
      DataFits(p);
      ReadyHandsOn(s, payloads[1..]);
      var ps := DataPackets(payloads);
      assert ps[0] == Packet(PKT_DATA, DataBody(p)) && ps[1..] == DataPackets(payloads[1..]);
      assert [p] + payloads[1..] == payloads;
    }
  }

  lemma DataFits(p: bytes)
    requires |p| <= MAX_PAYLOAD
    ensures Size(Packet(PKT_DATA, DataBody(p))) <= MAX_PACKET
  {
  }

  lemma {:induction false} HandsOnAsMany(s: State, ps: seq<Packet>)
    ensures |HandedOn(s, ps)| == |ps|
    decreases |ps|
  {
    if ps != [] {
      hide Next;
      HandsOnAsMany(Next(s, ps[0], "").0, ps[1..]);
    }
  }

  /**
   * Payloads wrapped as data come out of a ready tunnel as they went in, however the bytes were cut up,
   * exactly when no buffer grows to 2^32 bytes.
   */
  lemma PayloadsArriveIff(s: State, payloads: seq<bytes>, chunks: seq<bytes>)
    requires s.stage.Ready? && forall i :: 0 <= i < |payloads| ==> |payloads[i]| <= MAX_PAYLOAD
    requires Joined(chunks) == Stream(DataPackets(payloads))
    ensures HandedOn(s, Fed(chunks).packets) == payloads <==> BuffersStaySmall(chunks)
  {
    hide HandedOn, DataPackets, BuffersStaySmall;
    ReadyHandsOn(s, payloads);
    ChunkingDoesNotMatter(DataPackets(payloads), chunks);
    HandsOnAsMany(s, Fed(chunks).packets);
    HandsOnAsMany(s, DataPackets(payloads));
  }
}
