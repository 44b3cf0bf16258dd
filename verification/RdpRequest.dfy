/**
 * Requests and their responses: what is answered to every request that is accepted, and requests that ask
 * for as many channels as fit.
 */
module RdpRequest {
  import opened ByteStrings
  import opened Wire
  import opened RdpCursor
  import opened RdpConnect
  import opened RdpResponse

  /**
   * Every request that is accepted from one frame is answered in one frame, and from the answer a client that
   * reads by the standards learns the protocol that was selected, the I/O channel, and one number for each
   * channel of its request, in order from 1004 on.
   */
  lemma RequestIsAnswered(body: bytes, protocol: u32)
    requires |body| <= 16377 && ConnectInitialIn(body).Some?
    ensures var n := |ConnectInitialIn(body).value.channels|;
      && ReadResponse(ConnectResponse(n, protocol)) == Some(Assigned(protocol, IO_CHANNEL, ChannelIds(n)))
      && |ChannelIds(n)| == n && (forall i :: 0 <= i < n ==> ChannelIds(n)[i] as int == FIRST_VIRTUAL + i)
      && |ConnectResponse(n, protocol)| + 7 <= 0xFFFF
  {
    hide ConnectInitialIn, ReadResponse, ConnectResponse, ChannelIds;
    ChannelsAreBounded(body);
    ResponseTellsTheChannels(|ConnectInitialIn(body).value.channels|, protocol);
    ResponseFitsAFrame(|ConnectInitialIn(body).value.channels|, protocol);
  }

  /* -------------------------------------------------------- requests with many channels --- */

  const NAMES: nat := 372

  /** A network block with as many names as one may have. */
  function NetBlock(names: bytes): (r: bytes)
    requires |names| == NAMES
    ensures |r| == 380
  {
    Le16(CS_NET) + Le16(380) + (Le32(31) + names)
  }

  function NetBlocks(names: bytes, k: nat): (r: bytes)
    requires |names| == NAMES
    ensures |r| == 380 * k
  {
    if k == 0 then [] else NetBlock(names) + NetBlocks(names, k - 1)
  }

  /** A network block in front adds 31 channels. */
  ghost predicate Gains(names: bytes, rest: bytes, before: Blocks, more: seq<bytes>)
    requires |names| == NAMES
  {
    && |more| == 31
    && BlocksIn(NetBlock(names) + rest, before) == BlocksIn(rest, before.(channels := before.channels + more))
  }

  lemma OneNetBlock(names: bytes, rest: bytes, before: Blocks)
    requires |names| == NAMES
    ensures exists more :: Gains(names, rest, before, more)
  {
    hide Names, Le16, Le32, ReadLe16, ReadLe32;
    var b := NetBlock(names) + rest;
    Le16RoundTrips(CS_NET);
    Le16RoundTrips(380);
    FixedWidthRoundTrips(0, 31);
    var inner := Le32(31) + names;
    assert b[..2] == Le16(CS_NET) && b[2..4] == Le16(380) && b[4..380] == inner && b[380..] == rest;
    assert inner[..4] == Le32(31) && inner[4..] == names;
    assert Gains(names, rest, before, Names(names, 31));
  }

  lemma {:induction false} NetBlocksRead(names: bytes, k: nat, before: Blocks)
    requires |names| == NAMES
    ensures var r := BlocksIn(NetBlocks(names, k), before); r.Some? && |r.value.channels| == |before.channels| + 31 * k
    decreases k
  {
    if k > 0 {
      hide NetBlock, BlocksIn;
      var rest := NetBlocks(names, k - 1);
      OneNetBlock(names, rest, before);
      var more :| Gains(names, rest, before, more);
      NetBlocksRead(names, k - 1, before.(channels := before.channels + more));
    } else {
      assert NetBlocks(names, 0) == [];
    }
  }

  /** Six empty values, then the octets of the conference. */
  const SIX: bytes := [0x30, 0, 0x30, 0, 0x30, 0, 0x30, 0, 0x30, 0, 0x30, 0]

  /** The shortest way to bring `k` full network blocks. */
  function Request(names: bytes, k: nat): (r: bytes)
    requires |names| == NAMES && 1 <= k <= 43
    ensures |r| == 25 + 380 * k
  {
    var data := CLIENT_KEY + (PerLength(380 * k) + NetBlocks(names, k));
    Be16(CONNECT_INITIAL) + [0] + SIX + Tlv(OCTET_STRING, data)
  }

  lemma KeyFirst(rest: bytes)
    ensures FirstFrom(CLIENT_KEY + rest, CLIENT_KEY, 0) == 0
  {
    assert (CLIENT_KEY + rest)[0..4] == CLIENT_KEY;
  }

  lemma UserDataStands(data: bytes)
    requires 1 <= |data| <= 0x7FFF
    ensures UserDataIn(CLIENT_KEY + (PerLength(|data|) + data)) == Some(data)
  {
    hide PerLengthAt, PerLength, FirstFrom;
    var b := CLIENT_KEY + (PerLength(|data|) + data);
    KeyFirst(PerLength(|data|) + data);
    PerLengthBehind(CLIENT_KEY, |data|, data);
    var at := 4 + |PerLength(|data|)|;
    assert b[at..at + |data|] == data;
  }

  /** Past one empty value of such a run. */
  lemma EmptyValue(b: bytes, i: nat)
    requires i + 2 <= |b| && b[i] == 0x30 && b[i + 1] == 0
    ensures AfterValue(b, Some(i)) == Some(i + 2)
  {
  }

  lemma SixEmptyValues(b: bytes, i: nat)
    requires i + 12 <= |b| && b[i..i + 12] == SIX
    ensures AfterValues(b, Some(i), 6) == Some(i + 12)
  {
    hide AfterValue;
    forall k | 0 <= k < 12 ensures b[i + k] == SIX[k] {
      assert b[i..i + 12][k] == b[i + k];
    }
    EmptyValue(b, i);
    EmptyValue(b, i + 2);
    EmptyValue(b, i + 4);
    EmptyValue(b, i + 6);
    EmptyValue(b, i + 8);
    EmptyValue(b, i + 10);
    assert AfterValues(b, Some(i), 1) == Some(i + 2);
    assert AfterValues(b, Some(i), 2) == Some(i + 4);
    assert AfterValues(b, Some(i), 3) == Some(i + 6);
    assert AfterValues(b, Some(i), 4) == Some(i + 8);
    assert AfterValues(b, Some(i), 5) == Some(i + 10);
  }

  /** Such a request is accepted, with 31 channels for each of its blocks. */
  lemma RequestIsAccepted(names: bytes, k: nat)
    requires |names| == NAMES && 1 <= k <= 43
    ensures var r := ConnectInitialIn(Request(names, k)); r.Some? && |r.value.channels| == 31 * k
    ensures |Request(names, k)| <= 16377
  {
    hide OctetsAt, AfterValues, UserDataIn, BlocksIn, BerLengthAt, Tlv, PerLength, NetBlocks;
    var blocks := NetBlocks(names, k);
    var data := CLIENT_KEY + (PerLength(|blocks|) + blocks);
    var b, front := Request(names, k), Be16(CONNECT_INITIAL) + [0] + SIX;
    assert b == front + Tlv(OCTET_STRING, data);
    assert b[..2] == Be16(CONNECT_INITIAL) && b[2] == 0 && b[3..15] == SIX;
    Le16RoundTrips(CONNECT_INITIAL);
    ShortZero(b);
    PerLengthIsShort(|blocks|);
    SixEmptyValues(b, 3);
    OctetsRead(front, data);
    UserDataStands(blocks);
    NetBlocksRead(names, k, NO_BLOCKS);
  }

  lemma PerLengthIsShort(n: nat)
    ensures |PerLength(n)| <= 2
  {
  }

  lemma ShortZero(b: bytes)
    requires |b| >= 3 && b[2] == 0
    ensures BerLengthAt(b, Some(2)) == Some((0, 3))
  {
  }

  /** The bound is reached: 43 blocks of 31 names fit a frame. */
  lemma MostChannelsAreAskedFor()
    ensures var b := Request(Repeat(0, NAMES), 43);
      |b| <= 16377 && ConnectInitialIn(b).Some? && |ConnectInitialIn(b).value.channels| == MOST_CHANNELS
  {
    hide ConnectInitialIn, Request, Repeat;
    RequestIsAccepted(Repeat(0, NAMES), 43);
  }

  /** Two blocks are enough for the connect PDU's length to be wrong in the answer. */
  lemma TwoBlocksMislead(protocol: u32)
    ensures var b := Request(Repeat(0, NAMES), 2);
      && |b| <= 16377 && ConnectInitialIn(b).Some?
      && var n := |ConnectInitialIn(b).value.channels|;
      && n == 62
      && var data := ServerBlocks(n, protocol);
         |Conference(data)| - 7 - |PerLength(|data| + 14)| != |data| + 14
  {
    hide ConnectInitialIn, Request, Repeat, ServerBlocks, Conference;
    RequestIsAccepted(Repeat(0, NAMES), 2);
    ConnectLengthExactIff(62, protocol);
  }
}
