/**
 * The Connect Response: server user data in a conference response in BER, and what a client that
 * follows the standards reads back from it (MS-RDPBCGR 2.2.1.4, T.124, T.125).
 */
module RdpResponse {
  import opened ByteStrings
  import opened Wire
  import opened Utf16
  import opened RdpCursor
  import opened RdpConnect

  const SC_CORE: u16 := 0x0C01
  const SC_SECURITY: u16 := 0x0C02
  const SC_NET: u16 := 0x0C03
  const IO_CHANNEL: u16 := 1003
  const FIRST_VIRTUAL: nat := 1004

  /* ------------------------------------------------------------- server blocks --- */

  /** A block's length field covers its own four-byte header. */
  function Block(kind: u16, body: bytes): (r: bytes)
    ensures |r| == 4 + |body|
  {
    Le16(kind) + Le16(Low16(|body| + 4)) + body
  }

  function ChannelId(i: nat): u16 {
    (FIRST_VIRTUAL + i) % 0x1_0000
  }

  function ChannelIds(n: nat): (r: seq<u16>)
    ensures |r| == n && forall i :: 0 <= i < n ==> r[i] == ChannelId(i)
  {
    if n == 0 then [] else ChannelIds(n - 1) + [ChannelId(n - 1)]
  }

  function IdBytes(ids: seq<u16>): (r: bytes)
    ensures |r| == 2 * |ids|
  {
    if ids == [] then [] else IdBytes(ids[..|ids| - 1]) + Le16(ids[|ids| - 1])
  }

  function CoreBody(protocol: u32): (r: bytes)
    ensures |r| == 12
  {
    Le32(0x0008_0004) + Le32(protocol) + Le32(0)
  }

  /** Two bytes behind an odd number of channels, so that the block ends on a four-byte boundary. */
  function Padding(n: nat): (r: bytes)
    ensures |r| == 2 * (n % 2)
  {
    if n % 2 == 0 then [] else [0, 0]
  }

  /** The I/O channel, how many virtual channels there are, their numbers, and the padding. */
  function NetBody(n: nat): (r: bytes)
    ensures |r| == 4 + 2 * n + 2 * (n % 2)
  {
    Le16(IO_CHANNEL) + Le16(Low16(n)) + IdBytes(ChannelIds(n)) + Padding(n)
  }

  function ServerBlocks(n: nat, protocol: u32): (r: bytes)
    ensures |r| == 36 + 2 * n + 2 * (n % 2)
  {
    Block(SC_CORE, CoreBody(protocol)) + Block(SC_NET, NetBody(n)) + Block(SC_SECURITY, Le32(0) + Le32(0))
  }

  method BuildChannelIds(n: nat) returns (ids: seq<u16>)
    ensures ids == ChannelIds(n)
  {
    ids := [];
    var i := 0;
    while i < n
      invariant 0 <= i <= n && ids == ChannelIds(i)
    {
      ids := ids + [(FIRST_VIRTUAL + i) % 0x1_0000];
      i := i + 1;
    }
  }

  method BuildServerBlocks(n: nat, protocol: u32) returns (out: bytes)
    ensures out == ServerBlocks(n, protocol)
  {
    var core := Le32(0x0008_0004) + Le32(protocol) + Le32(0);
    out := Block(SC_CORE, core);
    var ids := BuildChannelIds(n);
    var net := Le16(IO_CHANNEL) + Le16(Low16(n));
    ghost var head := net;
    var i := 0;
    while i < n
      invariant 0 <= i <= n
      invariant net == head + IdBytes(ids[..i])
    {
      assert ids[..i + 1][..i] == ids[..i];
      net := net + Le16(ids[i]);
      i := i + 1;
    }
    assert ids[..n] == ids;
    if n % 2 != 0 {
      net := net + [0, 0];
    }
    assert net == NetBody(n);
    out := out + Block(SC_NET, net);
    out := out + Block(SC_SECURITY, Le32(0) + Le32(0));
  }

  /* ------------------------------------------------------------------- writers --- */

  /** Packed encoding rules, as far as the conference response needs them. */
  class PerWriter {
    var buf: bytes

    constructor ()
      ensures buf == []
    {
      buf := [];
    }

    method Raw(b: bytes)
      modifies this
      ensures buf == old(buf) + b
    {
      buf := buf + b;
    }

    method U8(v: byte)
      modifies this
      ensures buf == old(buf) + [v]
    {
      buf := buf + [v];
    }

    method Length(n: nat)
      modifies this
      ensures buf == old(buf) + PerLength(n)
    {
      if n > 0x7F {
        buf := buf + Be16(n % 0x8000 + 0x8000);
      } else {
        buf := buf + [n];
      }
    }

    /** Only what goes beyond the declared minimum is counted. */
    method OctetString(b: bytes, min: nat)
      modifies this
      ensures buf == old(buf) + PerOctets(b, min)
    {
      var m := if |b| >= min then |b| - min else min;
      Length(m);
      ghost var before := buf;
      Raw(b);
    }
  }

  function PerOctets(b: bytes, min: nat): bytes {
    PerLength(if |b| >= min then |b| - min else min) + b
  }

  const OBJECT_ID: bytes := [0x05, 0x00, 0x14, 0x7C, 0x00, 0x01]

  /** Node id 0x79F3 relative to 1001, tag 1, result 0, one set, and the choice that announces a key. */
  const RESPONSE_HEAD: bytes := [0x14, 0x76, 0x0A, 0x01, 0x01, 0x00, 0x01, 0xC0]

  function Conference(data: bytes): bytes {
    [0x14] + OBJECT_ID + PerLength(|data| + 14) + (RESPONSE_HEAD + ([0x00] + SERVER_KEY) + PerLength(|data|) + data)
  }

  method BuildConference(data: bytes) returns (out: bytes)
    ensures out == Conference(data)
  {
    var w := new PerWriter();
    w.U8(0x14);
    w.Raw(OBJECT_ID);
    w.Length(|data| + 14);
    ghost var front := w.buf;
    WriteHead(w);
    w.OctetString(SERVER_KEY, 4);
    w.OctetString(data, 0);
    out := w.buf;
    hide PerLength;
    assert PerOctets(SERVER_KEY, 4) == [0x00] + SERVER_KEY by { ShortLength(0); }
    Regroup(front, RESPONSE_HEAD, [0x00] + SERVER_KEY);
    Regroup(front, RESPONSE_HEAD + ([0x00] + SERVER_KEY), PerLength(|data|) + data);
    Regroup(RESPONSE_HEAD + ([0x00] + SERVER_KEY), PerLength(|data|), data);
  }

  lemma ShortLength(n: nat)
    requires n <= 0x7F
    ensures PerLength(n) == [n]
  {
  }

  method WriteHead(w: PerWriter)
    modifies w
    ensures w.buf == old(w.buf) + RESPONSE_HEAD
  {
    ghost var front := w.buf;
    w.U8(0x14);
    w.Raw(Be16(0x79F3 - 1001));
    w.Length(1);
    w.U8(1);
    assert w.buf == front + [0x14, 0x76, 0x0A, 0x01, 0x01];
    w.U8(0);
    w.U8(1);
    w.U8(0xC0);
  }

  class BerWriter {
    var buf: bytes

    constructor ()
      ensures buf == []
    {
      buf := [];
    }

    method Length(n: nat)
      modifies this
      ensures buf == old(buf) + BerLength(n)
    {
      if n < 0x80 {
        buf := buf + [n];
      } else if n <= 0xFF {
        buf := buf + [0x81, n];
      } else {
        var low: u16 := n % 0x1_0000;
        buf := buf + [0x82, low / 256, low % 256];
      }
    }

    method Tagged(tag: byte, body: bytes)
      modifies this
      ensures buf == old(buf) + Tlv(tag, body)
    {
      buf := buf + [tag];
      Length(|body|);
      buf := buf + body;
    }

    method Application(tag: u16, body: bytes)
      modifies this
      ensures buf == old(buf) + Be16(tag) + BerLength(|body|) + body
    {
      buf := buf + [tag / 256, tag % 256];
      Length(|body|);
      buf := buf + body;
    }

    /** As few bytes as keep the number positive. */
    method Integer(v: u32)
      modifies this
      ensures buf == old(buf) + Tlv(0x02, IntegerBody(v))
    {
      var body: bytes;
      if v < 0x80 {
        body := [v];
      } else if v < 0x8000 {
        body := [v / 256, v % 256];
      } else if v < 0x80_0000 {
        body := [v / 0x1_0000, v / 256 % 256, v % 256];
      } else {
        body := [v / 0x100_0000, v / 0x1_0000 % 256, v / 256 % 256, v % 256];
      }
      Tagged(0x02, body);
    }
  }

  function Tlv(tag: byte, body: bytes): bytes {
    [tag] + BerLength(|body|) + body
  }

  function IntegerBody(v: u32): bytes {
    if v < 0x80 then [v]
    else if v < 0x8000 then [v / 256, v % 256]
    else if v < 0x80_0000 then [v / 0x1_0000, v / 256 % 256, v % 256]
    else [v / 0x100_0000, v / 0x1_0000 % 256, v / 256 % 256, v % 256]
  }

  const DOMAIN_NUMBERS: seq<u32> := [34, 3, 0, 1, 0, 1, 65535, 2]

  function DomainParameters(ns: seq<u32>): bytes {
    if ns == [] then [] else DomainParameters(ns[..|ns| - 1]) + Tlv(0x02, IntegerBody(ns[|ns| - 1]))
  }

  function ResponseBody(gcc: bytes): bytes {
    Tlv(0x0A, [0]) + Tlv(0x02, [0]) + Tlv(0x30, DomainParameters(DOMAIN_NUMBERS)) + Tlv(OCTET_STRING, gcc)
  }

  function ConnectResponse(n: nat, protocol: u32): bytes {
    var body := ResponseBody(Conference(ServerBlocks(n, protocol)));
    Be16(0x7F66) + BerLength(|body|) + body
  }

  method BuildConnectResponse(n: nat, protocol: u32) returns (out: bytes)
    ensures out == ConnectResponse(n, protocol)
  {
    var blocks := BuildServerBlocks(n, protocol);
    var gcc := BuildConference(blocks);
    hide Conference, ServerBlocks, Tlv, BerLength, IntegerBody;
    var domain := new BerWriter();
    var k := 0;
    while k < |DOMAIN_NUMBERS|
      invariant 0 <= k <= |DOMAIN_NUMBERS| && fresh(domain)
      invariant domain.buf == DomainParameters(DOMAIN_NUMBERS[..k])
    {
      assert DOMAIN_NUMBERS[..k + 1][..k] == DOMAIN_NUMBERS[..k];
      domain.Integer(DOMAIN_NUMBERS[k]);
      k := k + 1;
    }
    assert DOMAIN_NUMBERS[..k] == DOMAIN_NUMBERS;
    var inner := new BerWriter();
    inner.Tagged(0x0A, [0]);
    inner.Tagged(0x02, [0]);
    inner.Tagged(0x30, domain.buf);
    inner.Tagged(OCTET_STRING, gcc);
    assert inner.buf == ResponseBody(gcc);
    var outer := new BerWriter();
    outer.Application(0x7F66, inner.buf);
    out := outer.buf;
  }

  /* --------------------------------------------- reading, as the standards have it --- */

  datatype Assigned = Assigned(protocol: u32, io: u16, channels: seq<u16>)

  /** The first block of user data, and what follows it. */
  function BlockAt(b: bytes, kind: u16): Option<(bytes, bytes)> {
    if |b| < 4 || ReadLe16(b[..2]) != kind then None
    else
      var n := ReadLe16(b[2..4]);
      if n < 4 || n as int > |b| then None else Some((b[4..n], b[n..]))
  }

  function IdsAt(b: bytes, n: nat): seq<u16>
    requires 2 * n <= |b|
  {
    if n == 0 then [] else IdsAt(b, n - 1) + [ReadLe16(b[2 * n - 2..2 * n])]
  }

  function ReadBlocks(b: bytes): Option<Assigned> {
    match BlockAt(b, SC_CORE)
    case None => None
    case Some((core, more)) =>
      match BlockAt(more, SC_NET)
      case None => None
      case Some((net, _)) =>
        if |core| < 8 || |net| < 4 || 2 * ReadLe16(net[2..4]) as int > |net| - 4 then None
        else Some(Assigned(ReadLe32(core[4..8]), ReadLe16(net[..2]), IdsAt(net[4..], ReadLe16(net[2..4]))))
  }

  /** The user data of a conference response. */
  function ReadConference(g: bytes): Option<bytes> {
    var head := RESPONSE_HEAD + ([0x00] + SERVER_KEY);
    if |g| < 7 || g[..7] != [0x14] + OBJECT_ID then None
    else
      match PerLengthAt(g, Some(7))
      case None => None
      case Some((_, at)) =>
        if at + |head| > |g| || g[at..at + |head|] != head then None
        else
          match PerLengthAt(g, Some(at + |head|))
          case None => None
          case Some((n, from)) => if n != |g| - from then None else Some(g[from..])
  }

  function ReadResponse(b: bytes): Option<Assigned> {
    match OctetsAt(b, AfterValues(b, AfterApplication(b, 0x7F66), 3))
    case None => None
    case Some(gcc) =>
      match ReadConference(gcc)
      case None => None
      case Some(data) => ReadBlocks(data)
  }

  lemma BlockReads(kind: u16, body: bytes, rest: bytes)
    requires |body| + 4 <= 0xFFFF
    ensures BlockAt(Block(kind, body) + rest, kind) == Some((body, rest))
  {
    var b := Block(kind, body) + rest;
    Le16RoundTrips(kind);
    Le16RoundTrips(|body| + 4);
    assert b[..2] == Le16(kind) && b[2..4] == Le16(|body| + 4);
    assert b[4..4 + |body|] == body && b[4 + |body|..] == rest;
  }

  lemma {:induction false} IdsRead(ids: seq<u16>, rest: bytes)
    ensures IdsAt(IdBytes(ids) + rest, |ids|) == ids
  {
    if ids != [] {
      var n := |ids|;
      var front, last := ids[..n - 1], ids[n - 1];
      Regroup(IdBytes(front), Le16(last), rest);
      IdsRead(front, Le16(last) + rest);
      assert (IdBytes(ids) + rest)[2 * n - 2..2 * n] == Le16(last);
      Le16RoundTrips(last);
    }
  }

  lemma NetReads(n: nat)
    requires 2 * n + 10 <= 0xFFFF
    ensures var net := NetBody(n);
      && |net| >= 4 && ReadLe16(net[..2]) == IO_CHANNEL && ReadLe16(net[2..4]) == n && 2 * n <= |net| - 4
      && IdsAt(net[4..], n) == ChannelIds(n)
  {
    hide IdBytes, IdsAt, Padding, Le16, ReadLe16, ChannelIds, Le32;
    var net, ids := NetBody(n), IdBytes(ChannelIds(n));
    Le16RoundTrips(IO_CHANNEL);
    Le16RoundTrips(n);
    NetShape(Le16(IO_CHANNEL), Le16(Low16(n)), ids, Padding(n));
    IdsRead(ChannelIds(n), Padding(n));
  }

  lemma NetShape(io: bytes, count: bytes, ids: bytes, pad: bytes)
    requires |io| == 2 && |count| == 2
    ensures var net := io + count + ids + pad;
      net[..2] == io && net[2..4] == count && net[4..] == ids + pad
  {
  }

  lemma BlocksRead(n: nat, protocol: u32)
    requires 2 * n + 10 <= 0xFFFF
    ensures ReadBlocks(ServerBlocks(n, protocol)) == Some(Assigned(protocol, IO_CHANNEL, ChannelIds(n)))
  {
    hide NetBody, Block, BlockAt, ChannelIds, Padding;
    var core, net := Block(SC_CORE, CoreBody(protocol)), Block(SC_NET, NetBody(n));
    var security := Block(SC_SECURITY, Le32(0) + Le32(0));
    Regroup(core, net, security);
    BlockReads(SC_CORE, CoreBody(protocol), net + security);
    BlockReads(SC_NET, NetBody(n), security);
    NetReads(n);
    FixedWidthRoundTrips(0, protocol);
    assert CoreBody(protocol)[4..8] == Le32(protocol);
  }

  lemma PerLengthBehind(front: bytes, n: nat, rest: bytes)
    requires n <= 0x7FFF
    ensures PerLengthAt(front + (PerLength(n) + rest), Some(|front|)) == Some((n, |front| + |PerLength(n)|))
  {
    PerLengthReadsIff(n, rest);
    var b := front + (PerLength(n) + rest);
    assert b[|front|..] == PerLength(n) + rest;
  }

  lemma ConferenceReads(data: bytes)
    requires |data| + 14 <= 0x7FFF
    ensures ReadConference(Conference(data)) == Some(data)
  {
    hide PerLength, PerLengthAt;
    var oid, head := [0x14] + OBJECT_ID, RESPONSE_HEAD + ([0x00] + SERVER_KEY);
    var l1, l2 := PerLength(|data| + 14), PerLength(|data|);
    var g := Conference(data);
    assert g == oid + (l1 + (head + l2 + data));
    PerLengthBehind(oid, |data| + 14, head + l2 + data);
    assert g == oid + l1 + head + (l2 + data);
    PerLengthBehind(oid + l1 + head, |data|, data);
    var at := |oid + l1|;
    assert g[at..at + |head|] == head && g[..7] == oid && g[at + |head| + |l2|..] == data;
  }

  lemma BerLengthBehind(front: bytes, n: nat, rest: bytes)
    requires n <= 0xFFFF
    ensures BerLengthAt(front + (BerLength(n) + rest), Some(|front|)) == Some((n, |front| + |BerLength(n)|))
  {
    BerLengthReadsIff(n, rest);
    var b, at := front + (BerLength(n) + rest), |front|;
    assert b[at..] == BerLength(n) + rest;
    var k := BerLength(n)[0] as int - 0x80;
    if k > 0 {
      assert b[at + 1..at + 1 + k] == (BerLength(n) + rest)[1..1 + k];
    }
  }

  lemma ValueRead(front: bytes, tag: byte, body: bytes, rest: bytes)
    requires tag % 32 != 31 && |body| <= 0xFFFF
    ensures AfterValue(front + (Tlv(tag, body) + rest), Some(|front|)) == Some(|front| + |Tlv(tag, body)|)
  {
    hide BerLengthAt, BerLength;
    var b := front + (Tlv(tag, body) + rest);
    assert b == (front + [tag]) + (BerLength(|body|) + (body + rest));
    BerLengthBehind(front + [tag], |body|, body + rest);
    assert b[|front|] == tag;
  }

  lemma OctetsRead(front: bytes, body: bytes)
    requires |body| <= 0xFFFF
    ensures OctetsAt(front + Tlv(OCTET_STRING, body), Some(|front|)) == Some(body)
  {
    hide BerLengthAt, BerLength;
    var b := front + Tlv(OCTET_STRING, body);
    assert b == (front + [OCTET_STRING]) + (BerLength(|body|) + body);
    BerLengthBehind(front + [OCTET_STRING], |body|, body);
    assert b[|front|] == OCTET_STRING;
    var at := |front| + 1 + |BerLength(|body|)|;
    assert b[at..at + |body|] == body;
  }

  lemma OneNumberMore(ns: seq<u32>, v: u32)
    ensures DomainParameters(ns + [v]) == DomainParameters(ns) + Tlv(0x02, IntegerBody(v))
    ensures |Tlv(0x02, IntegerBody(v))| == 2 + |IntegerBody(v)|
  {
    assert (ns + [v])[..|ns|] == ns;
  }

  lemma DomainIsShort()
    ensures |DomainParameters(DOMAIN_NUMBERS)| == 26
  {
    hide DomainParameters, Tlv;
    var none: seq<u32> := [];
    assert DomainParameters(none) == [] by { NoNumbers(); }
    OneNumberMore(none, 34);
    OneNumberMore([34], 3);
    OneNumberMore([34, 3], 0);
    OneNumberMore([34, 3, 0], 1);
    OneNumberMore([34, 3, 0, 1], 0);
    OneNumberMore([34, 3, 0, 1, 0], 1);
    OneNumberMore([34, 3, 0, 1, 0, 1], 65535);
    OneNumberMore([34, 3, 0, 1, 0, 1, 65535], 2);
    assert none + [34] == [34] && [34] + [3] == [34, 3] && [34, 3] + [0] == [34, 3, 0];
    assert [34, 3, 0] + [1] == [34, 3, 0, 1] && [34, 3, 0, 1] + [0] == [34, 3, 0, 1, 0];
    assert [34, 3, 0, 1, 0] + [1] == [34, 3, 0, 1, 0, 1];
    assert [34, 3, 0, 1, 0, 1] + [65535] == [34, 3, 0, 1, 0, 1, 65535];
    assert [34, 3, 0, 1, 0, 1, 65535] + [2] == DOMAIN_NUMBERS;
  }

  lemma NoNumbers()
    ensures DomainParameters([]) == []
  {
  }

  /** The octet string behind the three values of a response body is read whole. */
  lemma ResponseOctets(gcc: bytes)
    requires |gcc| <= 0x7FFF
    ensures var body := ResponseBody(gcc);
      var b := Be16(0x7F66) + BerLength(|body|) + body;
      OctetsAt(b, AfterValues(b, AfterApplication(b, 0x7F66), 3)) == Some(gcc)
  {
    hide AfterValue, AfterApplication, OctetsAt, BerLength, BerLengthAt, Tlv, DomainParameters;
    DomainIsShort();
    var domain := DomainParameters(DOMAIN_NUMBERS);
    var v1, v2, v3, v4 := Tlv(0x0A, [0]), Tlv(0x02, [0]), Tlv(0x30, domain), Tlv(OCTET_STRING, gcc);
    var body := ResponseBody(gcc);
    TlvSize(0x0A, [0]);
    TlvSize(0x02, [0]);
    TlvSize(0x30, domain);
    TlvSize(OCTET_STRING, gcc);
    var front := Be16(0x7F66) + BerLength(|body|);
    var b := front + body;
    BodyBegins(body);
    assert b == front + (v1 + (v2 + v3 + v4));
    ValueRead(front, 0x0A, [0], v2 + v3 + v4);
    assert b == (front + v1) + (v2 + (v3 + v4));
    ValueRead(front + v1, 0x02, [0], v3 + v4);
    assert b == (front + v1 + v2) + (v3 + v4);
    ValueRead(front + v1 + v2, 0x30, domain, v4);
    assert b == (front + v1 + v2 + v3) + v4;
    OctetsRead(front + v1 + v2 + v3, gcc);
    ThreeValues(b, Some(|front|));
  }

  lemma BodyBegins(body: bytes)
    requires |body| <= 0xFFFF
    ensures var front := Be16(0x7F66) + BerLength(|body|); AfterApplication(front + body, 0x7F66) == Some(|front|)
  {
    hide BerLengthAt;
    var front := Be16(0x7F66) + BerLength(|body|);
    var b := front + body;
    BerLengthBehind(Be16(0x7F66), |body|, body);
    assert b == Be16(0x7F66) + (BerLength(|body|) + body) && b[..2] == Be16(0x7F66);
    Le16RoundTrips(0x7F66);
  }

  lemma TlvSize(tag: byte, body: bytes)
    ensures |Tlv(tag, body)| <= |body| + 4
  {
  }

  lemma ThreeValues(b: bytes, p: Place)
    ensures AfterValues(b, p, 3) == AfterValue(b, AfterValue(b, AfterValue(b, p)))
  {
    hide AfterValue;
    assert AfterValues(b, p, 1) == AfterValue(b, p);
    assert AfterValues(b, p, 2) == AfterValue(b, AfterValue(b, p));
  }

  /**
   * However many channels a request can ask for, a client that reads the response by the standards learns
   * the protocol, the I/O channel, and one number for each channel it asked for, in order from 1004 on.
   * Every length on the way fits its field.
   */
  lemma ResponseTellsTheChannels(n: nat, protocol: u32)
    requires n <= MOST_CHANNELS
    ensures ReadResponse(ConnectResponse(n, protocol)) == Some(Assigned(protocol, IO_CHANNEL, ChannelIds(n)))
    ensures forall i :: 0 <= i < n ==> ChannelIds(n)[i] as int == FIRST_VIRTUAL + i
  {
    hide ResponseBody, AfterValues, OctetsAt, AfterApplication, ReadConference, ReadBlocks, ServerBlocks, Conference;
    var data := ServerBlocks(n, protocol);
    BlocksRead(n, protocol);
    ConferenceReads(data);
    ConferenceSize(data);
    ResponseOctets(Conference(data));
  }

  lemma ConferenceSize(data: bytes)
    requires |data| + 14 <= 0x7FFF
    ensures |Conference(data)| <= |data| + 24
  {
  }

  /** The response fits the frame it is sent in. */
  lemma ResponseFitsAFrame(n: nat, protocol: u32)
    requires n <= MOST_CHANNELS
    ensures |ConnectResponse(n, protocol)| + 7 <= 0xFFFF
  {
    hide ServerBlocks, DomainParameters;
    DomainIsShort();
    ConferenceSize(ServerBlocks(n, protocol));
  }

  /**
   * The length of the connect PDU is written as the user data's plus fourteen. What follows it is that
   * long exactly for up to 44 channels; from 45 on the user data's own length takes a second byte.
   */
  lemma ConnectLengthExactIff(n: nat, protocol: u32)
    requires n <= MOST_CHANNELS
    ensures var data := ServerBlocks(n, protocol);
      |Conference(data)| - 7 - |PerLength(|data| + 14)| == |data| + 14 <==> n <= 44
  {
    hide ServerBlocks;
  }
}
