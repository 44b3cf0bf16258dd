/**
 * The Server Redirection packet (section 2.2.13.1 of MS-RDPBCGR): what the gateway builds, and what a
 * client that follows the standard reads from it.
 */
module Redirection {
  import opened ByteStrings
  import opened Wire
  import opened Utf16
  import opened X224

  const SEC_REDIRECTION: u16 := 0x0400
  const HEADER := 12

  const LB_TARGET_NET_ADDRESS: nat := 0x01
  const LB_LOAD_BALANCE_INFO: nat := 0x02
  const LB_USERNAME: nat := 0x04
  const LB_DOMAIN: nat := 0x08
  const LB_PASSWORD: nat := 0x10
  const LB_DONT_STORE_USERNAME: nat := 0x20

  datatype Target = Target(sessionId: u32, token: bytes, username: text, domain: text, password: text)

  /* ---------------------------------------------------------------- building --- */

  function LengthPrefixed(b: bytes): (r: bytes)
    ensures |r| == 4 + |b|
  {
    Le32(|b| % 0x1_0000_0000) + b
  }

  function Optional(present: bool, b: bytes): bytes {
    if present then LengthPrefixed(b) else []
  }

  function Flags(t: Target): (f: u32)
    ensures f < 0x40
  {
    (if t.token != [] then LB_LOAD_BALANCE_INFO else 0)
    + (if t.username != [] then LB_USERNAME else 0)
    + (if t.domain != [] then LB_DOMAIN else 0)
    + (if t.password != [] then LB_PASSWORD + LB_DONT_STORE_USERNAME else 0)
  }

  function Fields(t: Target): bytes {
    Optional(t.token != [], RoutingToken(t.token))
    + (Optional(t.username != [], Terminated(t.username))
    + (Optional(t.domain != [], Terminated(t.domain))
    + Optional(t.password != [], Terminated(t.password))))
  }

  function Packet(t: Target): (r: bytes)
    ensures |r| == HEADER + |Fields(t)|
  {
    Le16(SEC_REDIRECTION) + Le16(Low16(HEADER + |Fields(t)|)) + Le32(t.sessionId) + Le32(Flags(t)) + Fields(t)
  }

  /** `buildRedirectionPacket`: the flags first, then the fields they announce, in the standard's order. */
  method Build(t: Target) returns (out: bytes)
    ensures out == Packet(t)
  {
    var flags := BuildFlags(t);
    var fields := BuildFields(t);
    hide Fields, Flags;
    var total := HEADER + |fields|;
    out := Le16(SEC_REDIRECTION);
    out := out + Le16(Low16(total));
    out := out + Le32(t.sessionId);
    out := out + Le32(flags);
    out := out + fields;
  }

  method BuildFlags(t: Target) returns (flags: u32)
    ensures flags == Flags(t)
  {
    flags := 0;
    if t.token != [] {
      flags := flags + LB_LOAD_BALANCE_INFO;
    }
    if t.username != [] {
      flags := flags + LB_USERNAME;
    }
    if t.domain != [] {
      flags := flags + LB_DOMAIN;
    }
    if t.password != [] {
      flags := flags + LB_PASSWORD;
      flags := flags + LB_DONT_STORE_USERNAME;
    }
  }

  method BuildFields(t: Target) returns (fields: bytes)
    ensures fields == Fields(t)
  {
    fields := [];
    if t.token != [] {
      fields := LengthPrefixed(RoutingToken(t.token));
    }
    fields := AppendText(fields, t.username);
    fields := AppendText(fields, t.domain);
    fields := AppendText(fields, t.password);
    hide Optional, RoutingToken, Terminated;
    var a, b := Optional(t.token != [], RoutingToken(t.token)), Optional(t.username != [], Terminated(t.username));
    var c, d := Optional(t.domain != [], Terminated(t.domain)), Optional(t.password != [], Terminated(t.password));
    Regroup(a, b, c + d);
    Regroup(a + b, c, d);
  }

  method AppendText(fields: bytes, s: text) returns (out: bytes)
    ensures out == fields + Optional(s != [], Terminated(s))
  {
    out := fields;
    if s != [] {
      var units := Encode(s);
      out := out + LengthPrefixed(units + [0, 0]);
    }
  }

  /* -------------------------------------------- reading, as the standard has it --- */

  datatype Received = Received(
    sessionId: u32,
    loadBalanceInfo: Option<bytes>,
    username: Option<bytes>,
    domain: Option<bytes>,
    password: Option<bytes>,
    keepUsername: bool)

  predicate Bit(flags: u32, mask: nat)
    requires mask > 0
  {
    flags / mask % 2 == 1
  }

  /** An optional field off the front of `b`, with what is left. */
  function TakeField(present: bool, b: bytes): Option<(Option<bytes>, bytes)> {
    if !present then Some((None, b))
    else if |b| < 4 then None
    else
      var n := ReadLe32(b[..4]);
      if 4 + n > |b| then None else Some((Some(b[4..4 + n]), b[4 + n..]))
  }

  /** The standard's reader. The packet says how long it is and every byte has to be accounted for. */
  function Read(b: bytes): Option<Received> {
    if |b| < 12 || ReadLe16(b[..2]) != 0x0400 || ReadLe16(b[2..4]) != |b| then None
    else
      var flags := ReadLe32(b[8..12]);
      if Bit(flags, 0x01) || flags >= 0x40 then None
      else
        var f0 := TakeField(Bit(flags, 0x02), b[12..]);
        if f0.None? then None
        else
          var f1 := TakeField(Bit(flags, 0x04), f0.value.1);
          if f1.None? then None
          else
            var f2 := TakeField(Bit(flags, 0x08), f1.value.1);
            if f2.None? then None
            else
              var f3 := TakeField(Bit(flags, 0x10), f2.value.1);
              if f3.None? || f3.value.1 != [] then None
              else Some(Received(ReadLe32(b[4..8]), f0.value.0, f1.value.0, f2.value.0, f3.value.0,
                                 !Bit(flags, 0x20)))
  }

  function OnlyIf(present: bool, b: bytes): Option<bytes> {
    if present then Some(b) else None
  }

  lemma TakesField(present: bool, b: bytes, rest: bytes)
    requires |b| < 0x1_0000
    ensures TakeField(present, Optional(present, b) + rest) == Some((OnlyIf(present, b), rest))
  {
    if present {
      var s := LengthPrefixed(b) + rest;
      FixedWidthRoundTrips(0, |b|);
      assert s[..4] == Le32(|b|) && s[4..4 + |b|] == b && s[4 + |b|..] == rest;
    } else {
      assert [] + rest == rest;
    }
  }

  lemma FlagBits(t: Target)
    ensures !Bit(Flags(t), LB_TARGET_NET_ADDRESS)
    ensures Bit(Flags(t), LB_LOAD_BALANCE_INFO) <==> t.token != []
    ensures Bit(Flags(t), LB_USERNAME) <==> t.username != []
    ensures Bit(Flags(t), LB_DOMAIN) <==> t.domain != []
    ensures Bit(Flags(t), LB_PASSWORD) <==> t.password != []
    ensures Bit(Flags(t), LB_DONT_STORE_USERNAME) <==> t.password != []
  {
  }

  lemma HeaderReads(t: Target)
    ensures var b := Packet(t);
      && ReadLe16(b[..2]) == SEC_REDIRECTION && ReadLe16(b[2..4]) == Low16(|b|)
      && ReadLe32(b[4..8]) == t.sessionId && ReadLe32(b[8..12]) == Flags(t) && b[HEADER..] == Fields(t)
  {
    hide Fields, Flags;
    var b := Packet(t);
    Le16RoundTrips(SEC_REDIRECTION);
    FixedWidthRoundTrips(Low16(|b|), t.sessionId);
    FixedWidthRoundTrips(0, Flags(t));
    assert b[..2] == Le16(SEC_REDIRECTION) && b[2..4] == Le16(Low16(|b|));
    assert b[4..8] == Le32(t.sessionId) && b[8..12] == Le32(Flags(t));
  }

  /** What a conforming client is to recover. */
  function Expected(t: Target): Received {
    Received(t.sessionId,
      OnlyIf(t.token != [], RoutingToken(t.token)),
      OnlyIf(t.username != [], Terminated(t.username)),
      OnlyIf(t.domain != [], Terminated(t.domain)),
      OnlyIf(t.password != [], Terminated(t.password)),
      t.password == [])
  }

  /**
   * A conforming client recovers the packet exactly when its length fits the 16-bit field it is
   * announced in, and then it recovers every field.
   */
  lemma ReadsIffItFits(t: Target)
    ensures Read(Packet(t)) == if HEADER + |Fields(t)| <= 0xFFFF then Some(Expected(t)) else None
  {
    HeaderReads(t);
    hide TakeField, Bit, Fields, Flags, Packet, ReadLe16, ReadLe32, Terminated, RoutingToken, OnlyIf;
    if HEADER + |Fields(t)| <= 0xFFFF {
      FlagBits(t);
      FieldsRead(t);
    } else {
      assert Low16(|Packet(t)|) != |Packet(t)|;
    }
  }

  lemma FieldsRead(t: Target)
    requires |Fields(t)| <= 0xFFFF
    ensures var f0 := TakeField(t.token != [], Fields(t));
      && f0.Some? && f0.value.0 == Expected(t).loadBalanceInfo
      && var f1 := TakeField(t.username != [], f0.value.1);
      && f1.Some? && f1.value.0 == Expected(t).username
      && var f2 := TakeField(t.domain != [], f1.value.1);
      && f2.Some? && f2.value.0 == Expected(t).domain
      && var f3 := TakeField(t.password != [], f2.value.1);
      && f3.Some? && f3.value.0 == Expected(t).password && f3.value.1 == []
  {
    hide TakeField, Terminated, RoutingToken;
    var token, user, domain, password := RoutingToken(t.token), Terminated(t.username), Terminated(t.domain), Terminated(t.password);
    var last := Optional(t.password != [], password);
    var third := Optional(t.domain != [], domain) + last;
    var second := Optional(t.username != [], user) + third;
    Bounded(t.token != [], token, second);
    Bounded(t.username != [], user, third);
    Bounded(t.domain != [], domain, last);
    Bounded(t.password != [], password, []);
    assert last + [] == last;
  }

  lemma Bounded(present: bool, b: bytes, rest: bytes)
    requires |Optional(present, b) + rest| <= 0xFFFF
    ensures TakeField(present, Optional(present, b) + rest) == Some((OnlyIf(present, b), rest))
  {
    if present {
      TakesField(present, b, rest);
    } else {
      assert [] + rest == rest;
    }
  }

  /** The strings in a packet that fits read back as the text that was sent, when that has no null in it. */
  lemma TextsComeBack(t: Target)
    requires HEADER + |Fields(t)| <= 0xFFFF
    requires 0 !in t.username && 0 !in t.domain && 0 !in t.password
    ensures var r := Read(Packet(t));
      && r.Some?
      && (t.username != [] ==> r.value.username.Some? && Decoded(r.value.username.value) == t.username)
      && (t.domain != [] ==> r.value.domain.Some? && Decoded(r.value.domain.value) == t.domain)
      && (t.password != [] ==> r.value.password.Some? && Decoded(r.value.password.value) == t.password)
  {
    ReadsIffItFits(t);
    hide Fields, Terminated, Decoded, Read, Packet;
    RoundTripsIff(t.username, []);
    RoundTripsIff(t.domain, []);
    RoundTripsIff(t.password, []);
    assert forall s: text {:trigger Terminated(s)} :: Terminated(s) + [] == Terminated(s);
  }

  /**
   * From login to reconnect: the line a conforming client takes out of the packet and puts, byte for
   * byte, at the front of its next connection request is read there as the token that was issued.
   */
  lemma RedirectedClientPresentsToken(t: Target, reserved: byte, indicator: byte, refs: bytes, more: bytes, later: bytes)
    requires t.token != [] && Base64Url(t.token) && |t.token| <= 64
    requires HEADER + |Fields(t)| <= 0xFFFF && Readable(indicator, refs, RoutingToken(t.token) + more)
    ensures var r := Read(Packet(t));
      && r.Some? && r.value.loadBalanceInfo.Some?
      && var line := r.value.loadBalanceInfo.value;
      && |line + more| == |RoutingToken(t.token) + more| && |refs| == 5
      && var res := FirstPacket(Framed(reserved, indicator, refs, line + more) + later);
      && res.Ok? && res.request.routingToken == t.token
  {
    ReadsIffItFits(t);
    Base64UrlTokenReturns(t.token, reserved, indicator, refs, more, later);
  }
}
