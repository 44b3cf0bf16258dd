/**
 * The other side of the tunnel: what a client that follows MS-TSGU sends, written out byte by byte, and how
 * far each of its packets takes it. Nobody gets ready in any other way.
 */
module RdgwClient {
  import opened ByteStrings
  import opened Wire
  import opened Utf16
  import opened RdgwPacket
  import opened RdgwTunnel

  /* --------------------------------------------------------------- the packets --- */

  /** Section 2.2.10.10: the versions, and the authentication methods the client offers. */
  function HandshakePacket(major: byte, minor: byte, version: u16, offered: u16, more: bytes): Packet {
    Packet(0x0001, [major, minor] + Le16(version) + [offered % 256, offered / 256] + more)
  }

  /** Section 2.2.10.18: the cookie is there if bit 0 of the field flags is set. */
  function TunnelPacket(capabilities: u32, fields: u16, rest: bytes): Packet {
    Packet(0x0004, Le32(capabilities) + Le16(fields) + [0, 0] + rest)
  }

  /** Section 2.2.10.16. */
  function AuthPacket(name: text, rest: bytes): Packet {
    Packet(0x0006, TextField(name) + rest)
  }

  /** Section 2.2.10.2: the machines the client asks for. */
  function ChannelPacket(names: seq<text>, alternates: byte, port: u16, rest: bytes): Packet
    requires |names| <= 16
  {
    Packet(0x0008, [|names| as byte, alternates] + Le16(port) + TextFields(names) + rest)
  }

  /** Bit 0x0002 of what a handshake offers: pluggable authentication. */
  predicate OffersCookies(offered: u16) {
    offered % 4 == 2 || offered % 4 == 3
  }

  /* ------------------------------------------------------------------ each step --- */

  /** A handshake is taken exactly if it offers pluggable authentication, and answered either way. */
  lemma HandshakeTakenIff(s: State, major: byte, minor: byte, version: u16, offered: u16, more: bytes, backend: string)
    requires s.stage.Handshake?
    ensures Next(s, HandshakePacket(major, minor, version, offered, more), backend) ==
      if OffersCookies(offered) then (s.(stage := Create), Answer(HandshakeResponse(0), [], None))
      else (s, Answer(HandshakeResponse(0x32), [], Some(Refused)))
  {
    hide HandshakeResponse;
    var body := HandshakePacket(major, minor, version, offered, more).body;
    assert body[4..6] == [offered % 256, offered / 256];
    assert ReadLe16([offered % 256, offered / 256]) == offered;
  }

  /** A tunnel is opened exactly for a cookie that is there, is not blank, and that the authorizer accepts. */
  lemma CookieTakenIff(s: State, capabilities: u32, fields: u16, cookie: text, rest: bytes, backend: string)
    requires s.stage.Create? && Plain(cookie)
    ensures Next(s, TunnelPacket(capabilities, fields, TextField(cookie) + rest), backend) ==
      if fields % 2 == 1 && !Blank(cookie) && backend != "" then
        (s.(stage := Auth, cookie := cookie, backend := backend), Answer(TunnelResponse(0, 1, 3), [], None))
      else (s, Answer(TunnelResponse(5, 0, 0), [], Some(Refused)))
  {
    hide TunnelResponse, ParseText, TextField, Plain;
    var body := TunnelPacket(capabilities, fields, TextField(cookie) + rest).body;
    if fields % 2 == 1 {
      CookieComesBack(capabilities, fields, cookie, rest);
      assert body == Le32(capabilities) + Le16(fields) + [0, 0] + TextField(cookie) + rest;
    } else {
      Le16RoundTrips(fields);
      assert body[4..6] == Le16(fields);
    }
  }

  lemma AuthTaken(s: State, name: text, rest: bytes, backend: string)
    requires s.stage.Auth? && Plain(name)
    ensures Next(s, AuthPacket(name, rest), backend) == (s.(stage := Channel), Answer(TunnelAuthResponse(0), [], None))
  {
    hide TunnelAuthResponse, ParseText, TextField, Plain;
    TextReads(name, rest);
  }

  lemma ChannelTaken(s: State, names: seq<text>, alternates: byte, port: u16, rest: bytes, backend: string)
    requires s.stage.Channel? && |names| <= 16 && forall i :: 0 <= i < |names| ==> Plain(names[i])
    ensures Next(s, ChannelPacket(names, alternates, port, rest), backend) ==
      (s.(stage := Ready, requested := names), Answer(ChannelResponse(0, 1), [], None))
  {
    hide ChannelResponse, ParsedChannelCreate, TextFields, Plain;
    ChannelNamesComeBack(names, alternates, port, rest);
  }

  /* ------------------------------------------------------------------- all runs --- */

  /** Whatever came before, as long as no handshake was taken, the tunnel is as new. */
  lemma {:induction false} NewUntilHandshake(arrivals: seq<Arrival>)
    ensures Run(arrivals).stage.Handshake? ==> Run(arrivals) == NEW
  {
    if arrivals != [] {
      hide ParseHandshake, ParseTunnelCreate, ParseTunnelAuth, ParsedChannelCreate, ParseData, Build, Blank;
      NewUntilHandshake(arrivals[..|arrivals| - 1]);
    }
  }

  /** Arrival `k` is a handshake, in its turn, that offers pluggable authentication. */
  ghost predicate GoodHandshake(arrivals: seq<Arrival>, k: nat)
    requires k < |arrivals|
  {
    && Run(arrivals[..k]).stage.Handshake? && IsGoodHandshake(arrivals[k].packet)
  }

  predicate IsGoodHandshake(p: Packet) {
    p.kind == 0x0001 && |p.body| >= 6 && OffersCookies(p.body[4])
  }

  lemma LeavesHandshakeIff(s: State, p: Packet, backend: string)
    ensures var s' := Next(s, p, backend).0;
      if s.stage.Handshake? then !s'.stage.Handshake? <==> IsGoodHandshake(p) else !s'.stage.Handshake?
  {
    hide ParseTunnelCreate, ParseTunnelAuth, ParsedChannelCreate, ParseData, Build, Blank;
    if |p.body| >= 6 {
      assert ReadLe16(p.body[4..6]) == p.body[4] as int + 256 * p.body[5] as int;
    }
  }

  /** A tunnel is past its handshake exactly if a client has offered pluggable authentication in one. */
  lemma {:induction false} OnlyByHandshakeIff(arrivals: seq<Arrival>)
    ensures !Run(arrivals).stage.Handshake? <==> exists k :: 0 <= k < |arrivals| && GoodHandshake(arrivals, k)
  {
    if arrivals != [] {
      hide Next, IsGoodHandshake;
      var n := |arrivals| - 1;
      var past, last := arrivals[..n], arrivals[n];
      OnlyByHandshakeIff(past);
      LeavesHandshakeIff(Run(past), last.packet, last.backend);
      forall k | 0 <= k < n ensures GoodHandshake(arrivals, k) == GoodHandshake(past, k) {
        assert past[..k] == arrivals[..k];
      }
      if k :| 0 <= k < n && GoodHandshake(past, k) {
        assert GoodHandshake(arrivals, k);
      } else if IsGoodHandshake(last.packet) {
        assert GoodHandshake(arrivals, n);
      }
    }
  }

  /* --------------------------------------------------------------- a whole visit --- */

  /** What one client puts into its four packets; whatever it appends to them stands in the last four. */
  datatype Visit = Visit(
    major: byte, minor: byte, version: u16, offered: u16,
    capabilities: u32, fields: u16, cookie: text,
    name: text,
    names: seq<text>, alternates: byte, port: u16,
    afterHandshake: bytes, afterTunnel: bytes, afterAuth: bytes, afterChannel: bytes)

  /** What fits the length fields and the gateway's limit on names. */
  ghost predicate Writable(v: Visit) {
    Plain(v.cookie) && Plain(v.name) && |v.names| <= 16 && forall i :: 0 <= i < |v.names| ==> Plain(v.names[i])
  }

  /** The authorizer answers `backend` when it is asked about the cookie. */
  function Arrivals(v: Visit, backend: string): seq<Arrival>
    requires |v.names| <= 16
  {
    [ Arrival(HandshakePacket(v.major, v.minor, v.version, v.offered, v.afterHandshake), ""),
      Arrival(TunnelPacket(v.capabilities, v.fields, TextField(v.cookie) + v.afterTunnel), backend),
      Arrival(AuthPacket(v.name, v.afterAuth), ""),
      Arrival(ChannelPacket(v.names, v.alternates, v.port, v.afterChannel), "") ]
  }

  ghost predicate Welcome(v: Visit, backend: string) {
    OffersCookies(v.offered) && v.fields % 2 == 1 && !Blank(v.cookie) && backend != ""
  }

  /** Success in the form of each packet's own answer, and nothing that is handed on. */
  ghost predicate AllSucceed(answers: seq<Answer>) {
    answers == [
      Answer(HandshakeResponse(0), [], None), Answer(TunnelResponse(0, 1, 3), [], None),
      Answer(TunnelAuthResponse(0), [], None), Answer(ChannelResponse(0, 1), [], None) ]
  }

  lemma RunStep(run: seq<Arrival>, k: nat)
    requires k < |run|
    ensures Next(Run(run[..k]), run[k].packet, run[k].backend) == (Run(run[..k + 1]), AnswerTo(run, k))
  {
    hide Next;
    assert run[..k + 1][..k] == run[..k];
  }

  lemma RunFour(past: seq<Arrival>, four: seq<Arrival>) returns (s1: State, s2: State, s3: State)
    requires |four| == 4
    ensures var run, n := past + four, |past|;
      && Next(Run(past), four[0].packet, four[0].backend) == (s1, AnswerTo(run, n))
      && Next(s1, four[1].packet, four[1].backend) == (s2, AnswerTo(run, n + 1))
      && Next(s2, four[2].packet, four[2].backend) == (s3, AnswerTo(run, n + 2))
      && Next(s3, four[3].packet, four[3].backend) == (Run(run), AnswerTo(run, n + 3))
  {
    hide Next, Run, AnswerTo;
    var run, n := past + four, |past|;
    RunStep(run, n);
    RunStep(run, n + 1);
    RunStep(run, n + 2);
    RunStep(run, n + 3);
    assert run[..n] == past && run[..n + 4] == run;
    s1, s2, s3 := Run(run[..n + 1]), Run(run[..n + 2]), Run(run[..n + 3]);
  }

  lemma OutOfTurn(s: State, p: Packet, backend: string)
    requires (s.stage.Handshake? && p.kind in {0x0004, 0x0006, 0x0008}) || (s.stage.Create? && p.kind in {0x0006, 0x0008})
    ensures Next(s, p, backend).0 == s
  {
    hide ParseHandshake, ParseTunnelCreate;
  }

  /**
   * A client of a new tunnel gets ready exactly if it offers pluggable authentication and brings a cookie that
   * the authorizer accepts; then every packet is answered with success, and the tunnel has the machine the
   * authorizer named and the names the client asked for.
   */
  lemma GetsReadyIff(past: seq<Arrival>, v: Visit, backend: string)
    requires Writable(v) && Run(past).stage.Handshake?
    ensures var run, n := past + Arrivals(v, backend), |past|;
      && (Run(run).stage.Ready? <==> Welcome(v, backend))
      && (Welcome(v, backend) ==>
            && Run(run) == State(Ready, v.cookie, backend, v.names)
            && AllSucceed([AnswerTo(run, n), AnswerTo(run, n + 1), AnswerTo(run, n + 2), AnswerTo(run, n + 3)]))
  {
    hide Next, Run, AnswerTo, HandshakePacket, TunnelPacket, AuthPacket, ChannelPacket, Plain, Blank, OffersCookies;
    hide HandshakeResponse, TunnelResponse, TunnelAuthResponse, ChannelResponse;
    NewUntilHandshake(past);
    var four := Arrivals(v, backend);
    var t1, t2, t3 := RunFour(past, four);
    Kinds(v, backend);
    HandshakeTakenIff(NEW, v.major, v.minor, v.version, v.offered, v.afterHandshake, "");
    if !OffersCookies(v.offered) {
      OutOfTurn(NEW, four[1].packet, backend);
      OutOfTurn(NEW, four[2].packet, "");
      OutOfTurn(NEW, four[3].packet, "");
    } else {
      var s1 := NEW.(stage := Create);
      CookieTakenIff(s1, v.capabilities, v.fields, v.cookie, v.afterTunnel, backend);
      if !Welcome(v, backend) {
        OutOfTurn(s1, four[2].packet, "");
        OutOfTurn(s1, four[3].packet, "");
      } else {
        var s2 := s1.(stage := Auth, cookie := v.cookie, backend := backend);
        AuthTaken(s2, v.name, v.afterAuth, "");
        ChannelTaken(s2.(stage := Channel), v.names, v.alternates, v.port, v.afterChannel, "");
      }
    }
  }

  lemma Kinds(v: Visit, backend: string)
    requires |v.names| <= 16
    ensures var four := Arrivals(v, backend);
      four[1].packet.kind == 0x0004 && four[2].packet.kind == 0x0006 && four[3].packet.kind == 0x0008
  {
  }
}
