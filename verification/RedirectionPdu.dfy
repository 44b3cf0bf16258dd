/**
 * The redirection on its way to the client: the share control header around the packet (MS-RDPBCGR
 * 2.2.13.3), the data PDU around that, and how large the whole is.
 */
module RedirectionPdu {
  import opened ByteStrings
  import opened Wire
  import opened Utf16
  import opened RdpMcs
  import Redirection

  const PDU_TYPE: u16 := 0x001A

  function Pdu(user: u16, t: Redirection.Target): (r: bytes)
    ensures |r| == 9 + |Redirection.Packet(t)|
  {
    var packet := Redirection.Packet(t);
    Le16(Low16(9 + |packet|)) + Le16(PDU_TYPE) + Le16(user) + [0, 0] + packet + [0]
  }

  /** The standard's reader: length, type, source, two bytes of padding, the packet, one byte of padding. */
  function ReadPdu(b: bytes): Option<Redirection.Received> {
    if |b| < 9 || ReadLe16(b[..2]) as int != |b| || ReadLe16(b[2..4]) != PDU_TYPE then None
    else Redirection.Read(b[8..|b| - 1])
  }

  method BuildPdu(user: u16, t: Redirection.Target) returns (out: bytes)
    ensures out == Pdu(user, t)
  {
    var packet := Redirection.Build(t);
    hide Redirection.Packet, Le16;
    var total := 6 + 2 + |packet| + 1;
    out := Le16(Low16(total));
    out := out + Le16(PDU_TYPE);
    out := out + Le16(user);
    out := out + [0, 0];
    out := out + packet;
    out := out + [0];
  }

  /** A conforming client reads the redirection exactly when its length fits the header's 16 bits. */
  lemma PduReadsIff(user: u16, t: Redirection.Target)
    ensures ReadPdu(Pdu(user, t)) == if |Pdu(user, t)| <= 0xFFFF then Some(Redirection.Expected(t)) else None
  {
    hide Redirection.Packet, Redirection.Read, Redirection.Expected, Redirection.Fields;
    var b, packet := Pdu(user, t), Redirection.Packet(t);
    Le16RoundTrips(Low16(|b|));
    Le16RoundTrips(PDU_TYPE);
    assert b[..2] == Le16(Low16(|b|)) && b[2..4] == Le16(PDU_TYPE) && b[8..|b| - 1] == packet;
    Redirection.ReadsIffItFits(t);
  }

  /** It reaches the client whole exactly when it also fits the 15 bits of the data PDU's length. */
  lemma PduArrivesIff(user: u16, channel: u16, t: Redirection.Target)
    ensures (SendDataAt(SendData(SEND_DATA_INDICATION, user, channel, Pdu(user, t))) == Some((channel, Pdu(user, t)))
              && ReadPdu(Pdu(user, t)) == Some(Redirection.Expected(t)))
            <==> |Pdu(user, t)| <= 0x7FFF
  {
    hide Pdu, ReadPdu, SendData, SendDataAt, Redirection.Expected;
    SendDataComesBackIff(SEND_DATA_INDICATION, user, channel, Pdu(user, t));
    PduReadsIff(user, t);
  }

  /* -------------------------------------------------------------------- its size --- */

  /** What a string of `n` units takes in the packet: nothing if it is empty. */
  function Room(n: nat): nat {
    if n == 0 then 0 else 4 + 2 * n + 2
  }

  function TokenRoom(n: nat): nat {
    if n == 0 then 0 else 4 + 15 + n
  }

  /** The size of the redirection, from the sizes of what it carries. */
  function Needed(t: Redirection.Target): nat {
    21 + TokenRoom(|t.token|) + Room(|Units(t.username)|) + Room(|Units(t.domain)|) + Room(|Units(t.password)|)
  }

  lemma EmptyIff(s: text)
    ensures |Units(s)| == 0 <==> s == []
    ensures |Terminated(s)| == 2 * |Units(s)| + 2
  {
  }

  lemma PduSize(user: u16, t: Redirection.Target)
    ensures |Pdu(user, t)| == Needed(t)
  {
    hide Units, Terminated, Le16, Le32;
    EmptyIff(t.username);
    EmptyIff(t.domain);
    EmptyIff(t.password);
  }

  /** A conforming client on the other side of the data PDU gets every field of the redirection. */
  ghost predicate Arrives(user: u16, channel: u16, t: Redirection.Target) {
    && SendDataAt(SendData(SEND_DATA_INDICATION, user, channel, Pdu(user, t))) == Some((channel, Pdu(user, t)))
    && ReadPdu(Pdu(user, t)) == Some(Redirection.Expected(t))
  }

  lemma ArrivesIff(user: u16, channel: u16, t: Redirection.Target)
    ensures Arrives(user, channel, t) <==> Needed(t) <= 0x7FFF
  {
    hide Pdu, ReadPdu, SendData, SendDataAt, Redirection.Expected, Needed;
    PduArrivesIff(user, channel, t);
    PduSize(user, t);
  }
}
