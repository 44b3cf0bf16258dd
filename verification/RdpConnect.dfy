/**
 * The connect PDUs of an RDP login: the client's request (BER around GCC user data) down to the
 * channels it asks for, and the response that assigns them (MS-RDPBCGR 2.2.1.3 and 2.2.1.4, T.125, T.124).
 */
module RdpConnect {
  import opened ByteStrings
  import opened Wire
  import opened RdpCursor

  const CS_CORE: u16 := 0xC001
  const CS_NET: u16 := 0xC003
  const MAX_CHANNELS: nat := 31
  const NAME_SIZE: nat := 12

  /** What the gateway takes from the client's user data: channel names, and four bytes of the core block. */
  datatype Blocks = Blocks(channels: seq<bytes>, requested: u32)

  const NO_BLOCKS := Blocks([], 0)

  /* -------------------------------------------------------------- client blocks --- */

  /** The names in `count` channel definitions of twelve bytes each. */
  function Names(b: bytes, count: nat): (r: seq<bytes>)
    requires count * NAME_SIZE <= |b|
    ensures |r| == count
  {
    if count == 0 then [] else Names(b, count - 1) + [BeforeZero(b[(count - 1) * NAME_SIZE..(count - 1) * NAME_SIZE + 8])]
  }

  function OneBlock(kind: u16, body: bytes, before: Blocks): Option<Blocks> {
    if kind == CS_CORE then
      Some(if |body| >= 132 then before.(requested := ReadLe32(body[128..132])) else before)
    else if kind == CS_NET then
      if |body| < 4 then None
      else
        var count: nat := ReadLe32(body[..4]);
        if count > MAX_CHANNELS || count * NAME_SIZE > |body| - 4 then None
        else Some(before.(channels := before.channels + Names(body[4..], count)))
    else Some(before)
  }

  /** Block after block; fewer than four bytes at the end are ignored, kinds that do not matter are skipped. */
  function BlocksIn(b: bytes, before: Blocks): Option<Blocks>
    decreases |b|
  {
    if |b| < 4 then Some(before)
    else
      var kind, n := ReadLe16(b[..2]), ReadLe16(b[2..4]);
      if n < 4 || n as int > |b| then None
      else
        match OneBlock(kind, b[4..n], before)
        case None => None
        case Some(after) => BlocksIn(b[n..], after)
  }

  lemma Within(b: bytes, from: nat, i: nat, j: nat)
    requires i <= j && from + j <= |b|
    ensures b[from..][i..j] == b[from + i..from + j]
  {
  }

  method ParseNames(c: Cursor, count: nat) returns (names: seq<bytes>)
    requires c.Place() == Some(4) && count * NAME_SIZE <= |c.b| - 4
    modifies c
    ensures !c.failed && names == Names(c.b[4..], count)
  {
    names := [];
    var i := 0;
    while i < count
      invariant 0 <= i <= count && c.Place() == Some(4 + i * NAME_SIZE)
      invariant names == Names(c.b[4..], i)
    {
      var raw := c.Take(8);
      c.Skip(4);
      Within(c.b, 4, i * NAME_SIZE, i * NAME_SIZE + 8);
      var name := TrimZero(raw);
      names := names + [name];
      i := i + 1;
    }
  }

  method ParseBlock(kind: u16, b: bytes, before: Blocks) returns (after: Option<Blocks>)
    ensures after == OneBlock(kind, b, before)
  {
    var body := new Cursor(b, 0);
    after := Some(before);
    if kind == CS_CORE {
      if body.Left() >= 128 + 4 {
        body.Skip(128);
        if body.Left() >= 4 {
          var protocols := body.U32le();
          after := Some(before.(requested := protocols));
        }
      }
    } else if kind == CS_NET {
      var count: nat := body.U32le();
      if body.failed {
        return None;
      }
      assert b[0..4] == b[..4];
      if count > MAX_CHANNELS || count * NAME_SIZE > body.Left() {
        return None;
      }
      var names := ParseNames(body, count);
      after := Some(before.(channels := before.channels + names));
    }
    if body.failed {
      return None;
    }
  }

  method ParseClientBlocks(data: bytes) returns (r: Option<Blocks>)
    ensures r == BlocksIn(data, NO_BLOCKS)
  {
    var out := NO_BLOCKS;
    var c := new Cursor(data, 0);
    assert data[0..] == data;
    while c.Left() >= 4
      invariant fresh(c) && c.b == data && !c.failed && c.pos <= |data|
      invariant BlocksIn(data, NO_BLOCKS) == BlocksIn(data[c.pos..], out)
      decreases c.Left()
    {
      ghost var rest := data[c.pos..];
      var kind := c.U16le();
      var length: nat := c.U16le();
      assert rest[..2] == data[c.pos - 4..c.pos - 2] && rest[2..4] == data[c.pos - 2..c.pos];
      if length < 4 || length - 4 > c.Left() {
        return None;
      }
      var body := c.Take(length - 4);
      assert rest[4..length] == body && rest[length..] == data[c.pos..];
      var after := ParseBlock(kind, body, out);
      if after.None? {
        return None;
      }
      out := after.value;
    }
    return Some(out);
  }

  /**
   * However the blocks are arranged, 380 bytes of user data stand behind every 31 channels: a block has room
   * for no more names, and costs eight bytes of its own.
   */
  lemma {:induction false} ChannelsArePaidFor(b: bytes, before: Blocks)
    requires BlocksIn(b, before).Some?
    ensures |before.channels| <= |BlocksIn(b, before).value.channels|
    ensures (|BlocksIn(b, before).value.channels| - |before.channels|) * 380 <= 31 * |b|
    decreases |b|
  {
    if |b| >= 4 {
      hide Names, ReadLe32, ReadLe16;
      var kind, n := ReadLe16(b[..2]), ReadLe16(b[2..4]);
      var after := OneBlock(kind, b[4..n], before).value;
      BlockIsPaidFor(kind, b[4..n], before);
      ChannelsArePaidFor(b[n..], after);
    }
  }

  lemma BlockIsPaidFor(kind: u16, body: bytes, before: Blocks)
    requires OneBlock(kind, body, before).Some?
    ensures var gained := |OneBlock(kind, body, before).value.channels| - |before.channels|;
      0 <= gained && gained * 380 <= 31 * (4 + |body|)
  {
    hide ReadLe32;
  }

  /* ------------------------------------------------------------- the user data --- */

  const CLIENT_KEY: bytes := [0x44, 0x75, 0x63, 0x61]
  const SERVER_KEY: bytes := [0x4D, 0x63, 0x44, 0x6E]

  predicate StandsAt(h: bytes, needle: bytes, i: nat) {
    i + |needle| <= |h| && h[i..i + |needle|] == needle
  }

  /** The first place at or after `i` where the needle stands; the length of the haystack if there is none. */
  function FirstFrom(h: bytes, needle: bytes, i: nat): (r: nat)
    requires i <= |h|
    ensures r <= |h| && (r < |h| ==> i <= r && StandsAt(h, needle, r))
    ensures forall k: nat :: i <= k < r ==> !StandsAt(h, needle, k)
    decreases |h| - i
  {
    if i == |h| then |h| else if StandsAt(h, needle, i) then i else FirstFrom(h, needle, i + 1)
  }

  method IndexOf(h: bytes, needle: bytes) returns (idx: int)
    requires needle != []
    ensures idx == if FirstFrom(h, needle, 0) == |h| then -1 else FirstFrom(h, needle, 0)
    ensures idx >= 0 ==> StandsAt(h, needle, idx)
    ensures forall k: nat :: k < |h| && (idx < 0 || k < idx) ==> !StandsAt(h, needle, k)
  {
    var i := 0;
    while i + |needle| <= |h|
      invariant 0 <= i <= |h|
      invariant FirstFrom(h, needle, i) == FirstFrom(h, needle, 0)
    {
      var j := 0;
      while j < |needle| && h[i + j] == needle[j]
        invariant 0 <= j <= |needle|
        invariant h[i..i + j] == needle[..j]
      {
        assert h[i..i + j + 1] == h[i..i + j] + [h[i + j]] && needle[..j + 1] == needle[..j] + [needle[j]];
        j := j + 1;
      }
      if j == |needle| {
        assert h[i..i + j] == needle;
        return i;
      }
      ghost var window := h[i..i + |needle|];
      assert window[j] == h[i + j] != needle[j];
      i := i + 1;
    }
    NoRoom(h, needle, i);
    return -1;
  }

  lemma {:induction false} NoRoom(h: bytes, needle: bytes, i: nat)
    requires i <= |h| < i + |needle|
    ensures FirstFrom(h, needle, i) == |h|
    decreases |h| - i
  {
    if i < |h| {
      NoRoom(h, needle, i + 1);
    }
  }

  /** The octets behind the client's key: their length first, and at least one of them. */
  function UserDataIn(b: bytes): Option<bytes> {
    var i := FirstFrom(b, CLIENT_KEY, 0);
    if i == |b| then None
    else
      match PerLengthAt(b, Some(i + 4))
      case None => None
      case Some((n, at)) => if n == 0 || n > |b| - at then None else Some(b[at..at + n])
  }

  method FindUserData(b: bytes) returns (r: Option<bytes>)
    ensures r == UserDataIn(b)
  {
    var idx := IndexOf(b, CLIENT_KEY);
    if idx < 0 {
      return None;
    }
    var c := new Cursor(b, idx + |CLIENT_KEY|);
    var n := ReadPerLength(c);
    if c.failed || n == 0 || n > c.Left() {
      return None;
    }
    var data := c.Take(n);
    return Some(data);
  }

  /* ------------------------------------------------------------ Connect Initial --- */

  const CONNECT_INITIAL: u16 := 0x7F65
  const OCTET_STRING: byte := 0x04

  /** Past one value of any tag; a tag with its low five bits set has a second byte. */
  function AfterValue(b: bytes, p: Place): Place {
    if Advance(b, p, 1).None? then None
    else
      var long := b[p.value] % 32 == 31;
      match BerLengthAt(b, Advance(b, p, if long then 2 else 1))
      case None => None
      case Some((n, at)) => Advance(b, Some(at), n)
  }

  function AfterValues(b: bytes, p: Place, n: nat): Place {
    if n == 0 then p else AfterValue(b, AfterValues(b, p, n - 1))
  }

  function OctetsAt(b: bytes, p: Place): Option<bytes> {
    if Advance(b, p, 1).None? || b[p.value] != OCTET_STRING then None
    else
      match BerLengthAt(b, Advance(b, p, 1))
      case None => None
      case Some((n, at)) => if at + n > |b| then None else Some(b[at..at + n])
  }

  /** The application tag and its length; the length itself is not held against what follows. */
  function AfterApplication(b: bytes, tag: u16): Place {
    if |b| < 2 || ReadBe16(b[..2]) != tag then None else PlaceOf(BerLengthAt(b, Some(2)))
  }

  function ConnectInitialIn(b: bytes): Option<Blocks> {
    match OctetsAt(b, AfterValues(b, AfterApplication(b, CONNECT_INITIAL), 6))
    case None => None
    case Some(data) =>
      match UserDataIn(data)
      case None => None
      case Some(blocks) => BlocksIn(blocks, NO_BLOCKS)
  }

  method SkipValue(c: Cursor)
    modifies c
    ensures c.Place() == AfterValue(c.b, old(c.Place()))
  {
    var tag := c.U8();
    if tag % 32 == 31 {
      var _ := c.U8();
    }
    var n := ReadBerLength(c);
    if c.failed {
      return;
    }
    c.Skip(n);
  }

  method ReadOctets(c: Cursor) returns (r: Option<bytes>)
    modifies c
    ensures r == OctetsAt(c.b, old(c.Place()))
  {
    var got := c.U8();
    if c.failed || got != OCTET_STRING {
      return None;
    }
    var n := ReadBerLength(c);
    if c.failed {
      return None;
    }
    var data := c.Take(n);
    return if c.failed then None else Some(data);
  }

  method ExpectApplication(c: Cursor, tag: u16)
    requires c.Place() == Some(0)
    modifies c
    ensures c.Place() == AfterApplication(c.b, tag)
  {
    var hi := c.U8();
    var lo := c.U8();
    assert |c.b| >= 2 ==> c.b[..2] == [hi, lo];
    if c.failed || 256 * hi as int + lo as int != tag {
      c.Fail();
      return;
    }
    var _ := ReadBerLength(c);
  }

  method ParseConnectInitial(body: bytes) returns (r: Option<Blocks>)
    ensures r == ConnectInitialIn(body)
  {
    var c := new Cursor(body, 0);
    ExpectApplication(c, CONNECT_INITIAL);
    ghost var start := c.Place();
    var i := 0;
    while i < 6
      invariant 0 <= i <= 6 && fresh(c) && c.b == body
      invariant c.Place() == AfterValues(body, start, i)
    {
      SkipValue(c);
      i := i + 1;
    }
    var data := ReadOctets(c);
    if data.None? {
      return None;
    }
    var blocks := FindUserData(data.value);
    if blocks.None? {
      return None;
    }
    r := ParseClientBlocks(blocks.value);
  }

  /* ------------------------------------------------- how many channels fit a frame --- */

  /** The most channels that can be asked for in one frame. */
  const MOST_CHANNELS: nat := 1333

  lemma ValueTakesTwo(b: bytes, p: Place)
    ensures AfterValue(b, p).Some? ==> p.Some? && AfterValue(b, p).value >= p.value + 2
  {
  }

  lemma SixValuesTakeTwelve(b: bytes, p: Place)
    ensures AfterValues(b, p, 6).Some? ==> p.Some? && AfterValues(b, p, 6).value >= p.value + 12
  {
    hide AfterValue;
    forall q: Place ensures AfterValue(b, q).Some? ==> q.Some? && AfterValue(b, q).value >= q.value + 2 {
      ValueTakesTwo(b, q);
    }
    assert AfterValues(b, p, 6) == AfterValue(b, AfterValues(b, p, 5));
    assert AfterValues(b, p, 4) == AfterValue(b, AfterValues(b, p, 3));
    assert AfterValues(b, p, 2) == AfterValue(b, AfterValues(b, p, 1)) && AfterValues(b, p, 1) == AfterValue(b, p);
  }

  /** A length beyond one octet needs an initial octet and two more. */
  lemma LongLengthTakesThree(b: bytes, p: Place)
    ensures var r := BerLengthAt(b, p); r.Some? && r.value.0 > 0xFF ==> r.value.1 >= p.value + 3
  {
    if p.Some? && p.value + 2 <= |b| {
      OneOctet(b, p.value + 1);
    }
  }

  lemma OneOctet(b: bytes, i: nat)
    requires i < |b|
    ensures BigEndian(b[i..i + 1]) == b[i]
  {
    assert b[i..i + 1] == [b[i]];
    BigEndianOfTwo(b[i], 0);
  }

  lemma OctetsTakeFour(b: bytes, p: Place)
    ensures OctetsAt(b, p).Some? && |OctetsAt(b, p).value| > 0xFF ==> p.Some? && p.value + 4 + |OctetsAt(b, p).value| <= |b|
  {
    hide BerLengthAt;
    LongLengthTakesThree(b, Advance(b, p, 1));
  }

  lemma UserDataTakesSix(b: bytes)
    ensures UserDataIn(b).Some? && |UserDataIn(b).value| > 0x7F ==> |UserDataIn(b).value| + 6 <= |b|
  {
    hide FirstFrom;
  }

  /** What stands around the user data of a request takes 25 bytes. */
  lemma UserDataFits(body: bytes)
    requires ConnectInitialIn(body).Some?
    ensures var data := OctetsAt(body, AfterValues(body, AfterApplication(body, CONNECT_INITIAL), 6)).value;
      UserDataIn(data).Some? && (|UserDataIn(data).value| > 0xFF ==> |UserDataIn(data).value| + 25 <= |body|)
  {
    hide OctetsAt, AfterValues, AfterApplication, UserDataIn, BlocksIn;
    var start := AfterApplication(body, CONNECT_INITIAL);
    var place := AfterValues(body, start, 6);
    var data := OctetsAt(body, place).value;
    SixValuesTakeTwelve(body, start);
    OctetsTakeFour(body, place);
    UserDataTakesSix(data);
    ApplicationTakesThree(body, CONNECT_INITIAL);
    OctetsStand(body, place);
  }

  lemma ApplicationTakesThree(b: bytes, tag: u16)
    ensures AfterApplication(b, tag).Some? ==> AfterApplication(b, tag).value >= 3
  {
  }

  lemma OctetsStand(b: bytes, p: Place)
    ensures OctetsAt(b, p).Some? ==> p.Some?
  {
  }

  /** A request accepted from one frame asks for at most 1333 channels. */
  lemma ChannelsAreBounded(body: bytes)
    requires |body| <= 16377 && ConnectInitialIn(body).Some?
    ensures |ConnectInitialIn(body).value.channels| <= MOST_CHANNELS
  {
    hide OctetsAt, AfterValues, AfterApplication, UserDataIn, BlocksIn;
    var data := OctetsAt(body, AfterValues(body, AfterApplication(body, CONNECT_INITIAL), 6)).value;
    var blocks := UserDataIn(data).value;
    UserDataFits(body);
    ChannelsArePaidFor(blocks, NO_BLOCKS);
  }
}
