/**
 * From the credentials a client sent to the redirection that hands them back: what is passed on for each
 * field, and exactly when it arrives.
 */
module PassedCredentials {
  import opened ByteStrings
  import opened Wire
  import opened Utf16
  import opened Sequences
  import opened ClientInfo
  import opened RdpMcs
  import opened RedirectionPdu
  import Redirection
  import RdpCursor
  import Utf8

  /** The user name and domain as they were sent, and the password without the factor behind it. */
  function PassedOn(c: Credentials, sessionId: u32, token: bytes): Redirection.Target {
    Redirection.Target(sessionId, token, TextOf(c.username), TextOf(c.domain), TextOf(SplitField(c.password).0))
  }

  /** The units that are passed on for whatever a client got accepted, whether it sends Unicode or not. */
  function UnitsPassed(f: Field): nat {
    |Units(TextOf(f))|
  }

  /**
   * For every Client Info that is accepted: the credentials reach the client with their redirection exactly
   * when twice their units, and what frames them, fit the 15 bits of the data PDU's length.
   */
  lemma AcceptedArriveIff(b: bytes, user: u16, channel: u16, sessionId: u32, token: bytes)
    requires InfoIn(b).Some?
    ensures var c := InfoIn(b).value;
      Arrives(user, channel, PassedOn(c, sessionId, token)) <==>
        21 + TokenRoom(|token|) + Room(UnitsPassed(c.username)) + Room(UnitsPassed(c.domain))
        + Room(UnitsPassed(SplitField(c.password).0)) <= 0x7FFF
  {
    hide InfoIn, Arrives, Units, TextOf, SplitField;
    ArrivesIff(user, channel, PassedOn(InfoIn(b).value, sessionId, token));
  }

  /* --------------------------------------------------------------- how long fields are --- */

  lemma {:induction false} UnitsAreFew(b: bytes)
    ensures 2 * |FieldUnits(b)| <= |b|
    decreases |b|
  {
    if |b| >= 2 && ReadLe16(b[..2]) != 0 {
      UnitsAreFew(b[2..]);
    }
  }

  lemma {:induction false} NoneAdded(us: seq<u16>)
    ensures |Units(Scalars(us))| <= |us|
    decreases |us|
  {
    if us != [] {
      var s := Scalars(us);
      if |us| >= 2 && IsHigh(us[0]) && IsLow(us[1]) {
        NoneAdded(us[2..]);
        assert s[1..] == Scalars(us[2..]);
      } else {
        NoneAdded(us[1..]);
        assert s[1..] == Scalars(us[1..]);
      }
    }
  }

  /** Text that was decoded from a field takes no more room than the field when it is encoded again. */
  lemma DecodedIsShort(raw: bytes)
    ensures 2 * |Units(Decoded(raw))| <= |raw|
  {
    UnitsAreFew(raw);
    NoneAdded(FieldUnits(raw));
  }

  lemma FrontIsShorter(s: text, k: nat)
    requires k <= |s|
    ensures |Units(s[..k])| <= |Units(s)|
  {
    UnitsConcat(s[..k], s[k..]);
    assert s == s[..k] + s[k..];
  }

  /** Splitting a password leaves a field of the same kind, and no longer one. */
  lemma SplitIsShorter(f: Field)
    ensures f.Wide? ==> SplitField(f).0.Wide? && UnitsPassed(SplitField(f).0) <= UnitsPassed(f)
    ensures f.Narrow? ==> SplitField(f).0.Narrow? && SplitField(f).0.raw <= f.raw
  {
    hide Units, Trim, Utf8.Runes;
    if f.Wide? {
      var i := LastIndex(f.chars, COMMA);
      FrontIsShorter(f.chars, if i < 0 then |f.chars| else i);
    }
  }

  /** The fields of one PDU are all Unicode or none is, and each has the size its length field gave, at most. */
  ghost predicate SentAs(f: Field, unicode: bool) {
    (f.Wide? <==> unicode) && (if unicode then 2 * UnitsPassed(f) <= MAX_FIELD + 2 else |f.raw| <= MAX_FIELD + 1)
  }

  lemma FieldIsSent(b: bytes, p: RdpCursor.Place, cb: nat, unicode: bool)
    ensures FieldAt(b, p, cb, unicode).Some? ==> SentAs(FieldAt(b, p, cb, unicode).value.0, unicode)
  {
    hide Decoded, Units, RdpCursor.BeforeZero;
    if FieldAt(b, p, cb, unicode).Some? {
      DecodedIsShort(b[p.value..p.value + cb + Terminator(unicode)]);
    }
  }

  lemma NoFieldNowhere(b: bytes, cb: nat)
    ensures FieldAt(b, None, cb, true).None? && FieldAt(b, None, cb, false).None?
  {
  }

  lemma FieldsAreSent(b: bytes) returns (unicode: bool)
    requires InfoIn(b).Some?
    ensures var c := InfoIn(b).value; SentAs(c.domain, unicode) && SentAs(c.username, unicode) && SentAs(c.password, unicode)
  {
    hide FieldAt, Bit, SentAs;
    forall cb: nat ensures FieldAt(b, None, cb, true).None? && FieldAt(b, None, cb, false).None? {
      NoFieldNowhere(b, cb);
    }
    unicode := Bit(ReadLe32(b[8..12]), 0x10);
    var d := FieldAt(b, Some(FIXED_SIZE), ReadLe16(b[12..14]), unicode);
    var u := FieldAt(b, EndOf(d), ReadLe16(b[14..16]), unicode);
    FieldIsSent(b, Some(FIXED_SIZE), ReadLe16(b[12..14]), unicode);
    FieldIsSent(b, EndOf(d), ReadLe16(b[14..16]), unicode);
    FieldIsSent(b, EndOf(u), ReadLe16(b[16..18]), unicode);
  }

  /** What a Unicode client gets accepted always arrives, with a token of at most 64 characters. */
  lemma UnicodeAlwaysArrives(b: bytes, user: u16, channel: u16, sessionId: u32, token: bytes)
    requires InfoIn(b).Some? && InfoIn(b).value.username.Wide? && |token| <= 64
    ensures Arrives(user, channel, PassedOn(InfoIn(b).value, sessionId, token))
  {
    hide InfoIn, Arrives, Units, TextOf, SplitField;
    var unicode := FieldsAreSent(b);
    var c := InfoIn(b).value;
    SplitIsShorter(c.password);
    AcceptedArriveIff(b, user, channel, sessionId, token);
  }

  /**
   * The bytes of any other client double on the way back at most; so they arrive, with such a token, while the
   * user name, the domain and the password in front of its last comma have 16322 bytes together.
   */
  lemma OthersArriveWithin(b: bytes, user: u16, channel: u16, sessionId: u32, token: bytes)
    requires InfoIn(b).Some? && InfoIn(b).value.username.Narrow? && |token| <= 64
    ensures var c := InfoIn(b).value;
      var password := SplitField(c.password).0;
      && c.domain.Narrow? && password.Narrow?
      && (|c.username.raw| + |c.domain.raw| + |password.raw| <= 16322 ==>
            Arrives(user, channel, PassedOn(c, sessionId, token)))
  {
    hide InfoIn, Arrives, Units, SplitField;
    var unicode := FieldsAreSent(b);
    var c := InfoIn(b).value;
    SplitIsShorter(c.password);
    Utf8.RunesAreShort(c.username.raw);
    Utf8.RunesAreShort(c.domain.raw);
    Utf8.RunesAreShort(SplitField(c.password).0.raw);
    AcceptedArriveIff(b, user, channel, sessionId, token);
  }

  /* --------------------------------------------------- a client that cannot come back --- */

  const LETTER: byte := 65

  /** `\bob`, with which a long name in front still means the account bob. */
  const BOB: bytes := [0x5C, 0x62, 0x6F, 0x62]

  /** `pw,push` */
  const PASSWORD: bytes := [0x70, 0x77, 0x2C, 0x70, 0x75, 0x73, 0x68]

  function LongName(): bytes {
    Repeat(LETTER, 8141) + BOB
  }

  /** A client without Unicode, with a domain as long as is accepted and a user name not much shorter. */
  function LongInfo(): bytes {
    InfoAround(0x40, 0, 0, ZeroEnded(Repeat(LETTER, MAX_FIELD)), ZeroEnded(LongName()), ZeroEnded(PASSWORD), [0, 0, 0, 0])
  }

  lemma {:induction false} NoZero(s: bytes)
    requires 0 !in s
    ensures RdpCursor.BeforeZero(s) == s
  {
    var r := RdpCursor.BeforeZero(s);
    assert |r| == |s|;
    assert s[..|s|] == s;
  }

  lemma LongIsAccepted()
    ensures InfoIn(LongInfo()) == Some(Credentials(Narrow(Repeat(LETTER, MAX_FIELD)), Narrow(LongName()), Narrow(PASSWORD)))
    ensures |LongInfo()| == 16369 && |SendData(SEND_DATA_REQUEST, 1002, 1003, LongInfo())| + 7 == MAX_PDU
  {
    hide Repeat, RdpCursor.BeforeZero, InfoIn, InfoAround;
    NoZero(Repeat(LETTER, MAX_FIELD));
    NoZero(LongName());
    NoZero(PASSWORD);
    LongSize();
    assert Bit(0x40, 0x40) && !Bit(0x40, 0x08) && !Bit(0, 0x10);
    NarrowCredentialsComeBack(0x40, 0, 0, Repeat(LETTER, MAX_FIELD), LongName(), PASSWORD, [0, 0, 0, 0]);
    SendDataShape(SEND_DATA_REQUEST, 1002, 1003, LongInfo());
  }

  lemma LongSize()
    ensures |LongInfo()| == 16369
  {
    hide Repeat, Head;
  }

  lemma PasswordSplits()
    ensures SplitField(Narrow(PASSWORD)) == (Narrow([0x70, 0x77]), Utf8.Runes([0x70, 0x75, 0x73, 0x68]))
  {
    hide LastIndex, Trim, Utf8.Runes;
    var front, rest: bytes := [0x70, 0x77], [0x70, 0x75, 0x73, 0x68];
    assert PASSWORD == front + [COMMA_BYTE] + rest;
    LastIs(front, COMMA_BYTE, rest);
    Utf8.AsciiStays(rest);
    var factor := Utf8.Runes(rest);
    Trims([], factor, [], IsSpace);
    assert [] + factor + [] == factor;
  }

  lemma LongNameMeansBob()
    ensures BareName(TextOf(Narrow(LongName()))) == [0x62, 0x6F, 0x62]
  {
    hide Repeat, Utf8.Runes, BareName;
    var raw := LongName();
    Utf8.AsciiStays(raw);
    var s := Utf8.Runes(raw);
    var domain, name: text := s[..8141], [0x62, 0x6F, 0x62];
    assert s[8141] as int == raw[8141] == 0x5C && s[8142] as int == raw[8142] == 0x62;
    assert s[8143] as int == raw[8143] == 0x6F && s[8144] as int == raw[8144] == 0x62;
    assert s == domain + [BACKSLASH] + name;
    BareNameIs(name, domain, []);
  }

  /**
   * This PDU arrives in a frame of the largest size, is accepted, and means bob with the password pw and a
   * push; but with a token as the program makes them, of 32 characters, the redirection is one byte too long.
   */
  lemma LongCredentialsAreLost(user: u16, channel: u16, sessionId: u32, token: bytes, rest: bytes)
    requires |token| == 32
    ensures var sent := SendData(SEND_DATA_REQUEST, 1002, 1003, LongInfo());
      && Sent(sent).Some? && |Sent(sent).value| == MAX_PDU && Received(Sent(sent).value + rest) == Some((sent, rest))
      && SendDataAt(sent) == Some((1003, LongInfo())) && InfoIn(LongInfo()).Some?
    ensures var c := InfoIn(LongInfo()).value;
      && BareName(TextOf(c.username)) == [0x62, 0x6F, 0x62] && TextOf(SplitField(c.password).0) == [0x70, 0x77]
      && SplitField(c.password).1 == [0x70, 0x75, 0x73, 0x68]
      && |Pdu(user, PassedOn(c, sessionId, token))| == 0x8000 && !Arrives(user, channel, PassedOn(c, sessionId, token))
  {
    hide InfoIn, LongInfo, Repeat, Units, Utf8.Runes, BareName, SplitField, Sent, Received, SendData, SendDataAt, Arrives;
    LongIsAccepted();
    PasswordSplits();
    LongNameMeansBob();
    PayloadArrives(SEND_DATA_REQUEST, 1002, 1003, LongInfo(), rest);
    SentSize(SendData(SEND_DATA_REQUEST, 1002, 1003, LongInfo()));
    var c := InfoIn(LongInfo()).value;
    LongUnits();
    var pw, push: bytes := [0x70, 0x77], [0x70, 0x75, 0x73, 0x68];
    ShortAscii(pw, [0x70, 0x77]);
    ShortAscii(push, [0x70, 0x75, 0x73, 0x68]);
    AcceptedArriveIff(LongInfo(), user, channel, sessionId, token);
    PduSize(user, PassedOn(c, sessionId, token));
  }

  lemma LongUnits()
    ensures UnitsPassed(Narrow(LongName())) == 8145 && UnitsPassed(Narrow(Repeat(LETTER, MAX_FIELD))) == MAX_FIELD
  {
    hide Repeat, Units, Utf8.Runes;
    Utf8.AsciiStays(LongName());
    Utf8.AsciiStays(Repeat(LETTER, MAX_FIELD));
  }

  lemma ShortAscii(b: bytes, s: text)
    requires |b| == |s| && forall i :: 0 <= i < |b| ==> b[i] < 0x80 && s[i] as int == b[i]
    ensures Utf8.Runes(b) == s && |Units(s)| == |b|
  {
    hide Utf8.Runes, Units;
    Utf8.AsciiStays(b);
    var r := Utf8.Runes(b);
    assert forall i :: 0 <= i < |b| ==> r[i] == s[i];
  }

  lemma SentSize(pdu: bytes)
    ensures |pdu| + 7 <= 0xFFFF ==> Sent(pdu).Some? && |Sent(pdu).value| == |pdu| + 7
  {
  }
}
