/** The Client Info PDU (MS-RDPBCGR 2.2.1.11): the credentials a client sends, and the second factor in them. */
module ClientInfo {
  import opened ByteStrings
  import opened Wire
  import opened Utf16
  import opened RdpCursor
  import opened Sequences
  import Utf8

  const FIXED_SIZE: nat := 22
  const MAX_FIELD: nat := 8192

  /** A string field: UTF-16 text, or the bytes of some code page as they stand. */
  datatype Field = Wide(chars: text) | Narrow(raw: bytes)

  datatype Credentials = Credentials(domain: Field, username: Field, password: Field)

  predicate Bit(n: nat, mask: nat)
    requires mask > 0
  {
    n / mask % 2 == 1
  }

  function Terminator(unicode: bool): nat {
    if unicode then 2 else 1
  }

  function Interpreted(raw: bytes, unicode: bool): Field {
    if unicode then Wide(Decoded(raw)) else Narrow(BeforeZero(raw))
  }

  /** A field whose length was given without its terminator, and where it ends. */
  function FieldAt(b: bytes, p: Place, cb: nat, unicode: bool): Option<(Field, nat)> {
    if cb > MAX_FIELD || Advance(b, p, cb + Terminator(unicode)).None? then None
    else
      var end := p.value + cb + Terminator(unicode);
      Some((Interpreted(b[p.value..end], unicode), end))
  }

  function EndOf(r: Option<(Field, nat)>): Place {
    if r.None? then None else Some(r.value.1)
  }

  predicate IsEmpty(f: Field) {
    match f case Wide(s) => s == [] case Narrow(s) => s == []
  }

  function InfoIn(b: bytes): Option<Credentials> {
    if |b| < FIXED_SIZE || !Bit(ReadLe16(b[0..2]), 0x40) || Bit(ReadLe16(b[0..2]), 0x08) then None
    else
      var unicode := Bit(ReadLe32(b[8..12]), 0x10);
      var domain := FieldAt(b, Some(FIXED_SIZE), ReadLe16(b[12..14]), unicode);
      var username := FieldAt(b, EndOf(domain), ReadLe16(b[14..16]), unicode);
      var password := FieldAt(b, EndOf(username), ReadLe16(b[16..18]), unicode);
      if password.None? || IsEmpty(username.value.0) then None
      else Some(Credentials(domain.value.0, username.value.0, password.value.0))
  }

  method ReadField(c: Cursor, cb: nat, unicode: bool) returns (f: Option<Field>)
    modifies c
    ensures c.Place() == EndOf(FieldAt(c.b, old(c.Place()), cb, unicode))
    ensures c.Place().Some? <==> f.Some?
    ensures c.Place().Some? ==> old(c.Place()).Some?
    ensures f.Some? ==> f.value == FieldAt(c.b, old(c.Place()), cb, unicode).value.0
  {
    if cb > MAX_FIELD {
      c.Fail();
      return None;
    }
    var raw := c.Take(cb + Terminator(unicode));
    if c.failed {
      return None;
    }
    if unicode {
      var s := Utf16.Decode(raw);
      return Some(Wide(s));
    }
    var s := TrimZero(raw);
    return Some(Narrow(s));
  }

  method ReadSizes(c: Cursor) returns (cbDomain: u16, cbUser: u16, cbPassword: u16)
    requires c.Place() == Some(12)
    modifies c
    ensures c.failed <==> |c.b| < FIXED_SIZE
    ensures !c.failed ==> c.pos == FIXED_SIZE && cbDomain == ReadLe16(c.b[12..14])
    ensures !c.failed ==> cbUser == ReadLe16(c.b[14..16]) && cbPassword == ReadLe16(c.b[16..18])
  {
    cbDomain := c.U16le();
    cbUser := c.U16le();
    cbPassword := c.U16le();
    var _ := c.U16le();
    var _ := c.U16le();
  }

  method ParseClientInfo(payload: bytes) returns (r: Option<Credentials>)
    ensures r == InfoIn(payload)
  {
    hide BeforeZero, Decoded, FieldAt, Bit, ReadLe16, ReadLe32;
    var c := new Cursor(payload, 0);
    var flags := c.U16le();
    c.Skip(2);
    if c.failed {
      return None;
    }
    if !Bit(flags, 0x40) || Bit(flags, 0x08) {
      return None;
    }
    c.Skip(4);
    var infoFlags := c.U32le();
    if c.failed {
      return None;
    }
    var cbDomain, cbUser, cbPassword := ReadSizes(c);
    if c.failed {
      return None;
    }
    var unicode := Bit(infoFlags, 0x10);
    var domain := ReadField(c, cbDomain, unicode);
    var username := ReadField(c, cbUser, unicode);
    var password := ReadField(c, cbPassword, unicode);
    if c.failed || IsEmpty(username.value) {
      return None;
    }
    return Some(Credentials(domain.value, username.value, password.value));
  }

  /* ------------------------------------------------------------------ round trip --- */

  /** The fixed part, with the lengths of three fields that are given without their terminators. */
  function Head(flags: u16, codePage: u32, infoFlags: u32, cbDomain: u16, cbUser: u16, cbPassword: u16, four: bytes): (r: bytes)
    requires |four| == 4
    ensures |r| == FIXED_SIZE
  {
    Le16(flags) + [0, 0] + Le32(codePage) + Le32(infoFlags) + Le16(cbDomain) + Le16(cbUser) + Le16(cbPassword) + four
  }

  lemma HeadReads(flags: u16, codePage: u32, infoFlags: u32, a: u16, b: u16, c: u16, four: bytes, rest: bytes)
    requires |four| == 4
    ensures var h := Head(flags, codePage, infoFlags, a, b, c, four) + rest;
      && ReadLe16(h[0..2]) == flags && ReadLe32(h[8..12]) == infoFlags
      && ReadLe16(h[12..14]) == a && ReadLe16(h[14..16]) == b && ReadLe16(h[16..18]) == c
  {
    hide Le16, Le32, ReadLe16, ReadLe32;
    FixedWidthRoundTrips(flags, infoFlags);
    Le16RoundTrips(a);
    Le16RoundTrips(b);
    Le16RoundTrips(c);
    var h := Head(flags, codePage, infoFlags, a, b, c, four) + rest;
    assert h[0..2] == Le16(flags) && h[8..12] == Le32(infoFlags);
    assert h[12..14] == Le16(a) && h[14..16] == Le16(b) && h[16..18] == Le16(c);
  }

  lemma Inside(front: bytes, mid: bytes, rest: bytes)
    ensures (front + (mid + rest))[|front|..|front| + |mid|] == mid
  {
  }

  predicate Fits(raw: bytes, unicode: bool) {
    Terminator(unicode) <= |raw| <= MAX_FIELD + Terminator(unicode)
  }

  /** A field that is read is the bytes that stand there, interpreted. */
  lemma FieldStands(front: bytes, raw: bytes, rest: bytes, unicode: bool)
    requires Fits(raw, unicode)
    ensures FieldAt(front + (raw + rest), Some(|front|), |raw| - Terminator(unicode), unicode)
            == Some((Interpreted(raw, unicode), |front + raw|))
  {
    hide Interpreted;
    Inside(front, raw, rest);
  }

  /** Three fields, one behind the other. */
  lemma FieldsStand(head: bytes, d: bytes, u: bytes, p: bytes, rest: bytes, unicode: bool)
    requires Fits(d, unicode) && Fits(u, unicode) && Fits(p, unicode)
    ensures var b, t := head + (d + (u + (p + rest))), Terminator(unicode);
      && FieldAt(b, Some(|head|), |d| - t, unicode) == Some((Interpreted(d, unicode), |head + d|))
      && FieldAt(b, Some(|head + d|), |u| - t, unicode) == Some((Interpreted(u, unicode), |head + d + u|))
      && FieldAt(b, Some(|head + d + u|), |p| - t, unicode) == Some((Interpreted(p, unicode), |head + d + u + p|))
  {
    hide FieldAt, Interpreted;
    FieldStands(head, d, u + (p + rest), unicode);
    Regroup(head, d, u + (p + rest));
    FieldStands(head + d, u, p + rest, unicode);
    Regroup(head + d, u, p + rest);
    FieldStands(head + d + u, p, rest, unicode);
  }

  /** A client's PDU around three fields with their terminators. */
  function InfoAround(flags: u16, codePage: u32, infoFlags: u32, d: bytes, u: bytes, p: bytes, more: bytes): bytes
    requires var unicode := Bit(infoFlags, 0x10); Fits(d, unicode) && Fits(u, unicode) && Fits(p, unicode)
    requires |more| >= 4
  {
    var t := Terminator(Bit(infoFlags, 0x10));
    Head(flags, codePage, infoFlags, |d| - t, |u| - t, |p| - t, more[..4]) + (d + (u + (p + more[4..])))
  }

  /** Whatever three fields hold, they are read as they stand; only an empty user name is turned away. */
  lemma FieldsComeBack(flags: u16, codePage: u32, infoFlags: u32, d: bytes, u: bytes, p: bytes, more: bytes)
    requires var unicode := Bit(infoFlags, 0x10); Fits(d, unicode) && Fits(u, unicode) && Fits(p, unicode)
    requires |more| >= 4 && Bit(flags, 0x40) && !Bit(flags, 0x08)
    ensures var unicode := Bit(infoFlags, 0x10);
      InfoIn(InfoAround(flags, codePage, infoFlags, d, u, p, more)) ==
        if IsEmpty(Interpreted(u, unicode)) then None
        else Some(Credentials(Interpreted(d, unicode), Interpreted(u, unicode), Interpreted(p, unicode)))
  {
    hide FieldAt, Interpreted, Head, ReadLe16, ReadLe32, IsEmpty, Bit;
    var unicode, t := Bit(infoFlags, 0x10), Terminator(Bit(infoFlags, 0x10));
    var head := Head(flags, codePage, infoFlags, |d| - t, |u| - t, |p| - t, more[..4]);
    FieldsStand(head, d, u, p, more[4..], unicode);
    HeadReads(flags, codePage, infoFlags, |d| - t, |u| - t, |p| - t, more[..4], d + (u + (p + more[4..])));
  }

  ghost predicate ShortText(s: text) {
    2 * |Units(s)| <= MAX_FIELD
  }

  lemma TextStands(s: text)
    requires ShortText(s)
    ensures Fits(Terminated(s), true) && Interpreted(Terminated(s), true) == Wide(s[..FirstNull(s)])
  {
    hide Units, FirstNull, Decoded;
    DecodesUpToNull(s, []);
    assert Terminated(s) + [] == Terminated(s);
  }

  /**
   * Credentials of any length the gateway accepts come back as they were typed, up to a null; only an
   * empty user name is turned away.
   */
  lemma CredentialsComeBack(flags: u16, codePage: u32, infoFlags: u32, domain: text, username: text, password: text, more: bytes)
    requires ShortText(domain) && ShortText(username) && ShortText(password)
    requires |more| >= 4 && Bit(flags, 0x40) && !Bit(flags, 0x08) && Bit(infoFlags, 0x10)
    ensures Fits(Terminated(domain), true) && Fits(Terminated(username), true) && Fits(Terminated(password), true)
    ensures InfoIn(InfoAround(flags, codePage, infoFlags, Terminated(domain), Terminated(username), Terminated(password), more)) ==
      if username[..FirstNull(username)] == [] then None
      else Some(Credentials(Wide(domain[..FirstNull(domain)]), Wide(username[..FirstNull(username)]),
                            Wide(password[..FirstNull(password)])))
  {
    hide Units, FirstNull, Terminated, InfoIn, InfoAround, Bit, Interpreted, Fits, ShortText;
    TextStands(domain);
    TextStands(username);
    TextStands(password);
    FieldsComeBack(flags, codePage, infoFlags, Terminated(domain), Terminated(username), Terminated(password), more);
  }

  function ZeroEnded(s: bytes): (r: bytes)
    ensures |r| == |s| + 1
  {
    s + [0]
  }

  lemma {:induction false} ZeroBehind(s: bytes)
    ensures BeforeZero(ZeroEnded(s)) == BeforeZero(s)
  {
    if s == [] {
      assert ZeroEnded(s) == [0];
    } else {
      assert ZeroEnded(s)[1..] == ZeroEnded(s[1..]);
      ZeroBehind(s[1..]);
    }
  }

  lemma BytesStand(s: bytes)
    requires |s| <= MAX_FIELD
    ensures Fits(ZeroEnded(s), false) && Interpreted(ZeroEnded(s), false) == Narrow(BeforeZero(s))
  {
    hide BeforeZero, ZeroEnded;
    ZeroBehind(s);
  }

  /** The bytes of a client without Unicode come back as they were sent, up to a zero. */
  lemma NarrowCredentialsComeBack(flags: u16, codePage: u32, infoFlags: u32, domain: bytes, username: bytes, password: bytes, more: bytes)
    requires |domain| <= MAX_FIELD && |username| <= MAX_FIELD && |password| <= MAX_FIELD && |more| >= 4
    requires Bit(flags, 0x40) && !Bit(flags, 0x08) && !Bit(infoFlags, 0x10)
    ensures InfoIn(InfoAround(flags, codePage, infoFlags, ZeroEnded(domain), ZeroEnded(username), ZeroEnded(password), more)) ==
      if BeforeZero(username) == [] then None
      else Some(Credentials(Narrow(BeforeZero(domain)), Narrow(BeforeZero(username)), Narrow(BeforeZero(password))))
  {
    hide BeforeZero, ZeroEnded, InfoIn, InfoAround, Bit, Interpreted;
    BytesStand(domain);
    BytesStand(username);
    BytesStand(password);
    FieldsComeBack(flags, codePage, infoFlags, ZeroEnded(domain), ZeroEnded(username), ZeroEnded(password), more);
  }

  /* ------------------------------------------------------------- second factor --- */

  const COMMA: scalar := 0x2C
  const COMMA_BYTE: byte := 0x2C

  /** The real password and what was typed behind its last comma. */
  function SplitPassword(raw: text): (text, text) {
    var i := LastIndex(raw, COMMA);
    if i < 0 then (raw, []) else (raw[..i], Trim(raw[i + 1..], IsSpace))
  }

  /** The same for a field as it was sent: without Unicode the program looks for the comma among the bytes. */
  function SplitField(f: Field): (Field, text) {
    match f
    case Wide(chars) => (Wide(SplitPassword(chars).0), SplitPassword(chars).1)
    case Narrow(raw) =>
      var i := LastIndex(raw, COMMA_BYTE);
      if i < 0 then (f, []) else (Narrow(raw[..i]), Trim(Utf8.Runes(raw[i + 1..]), IsSpace))
  }

  /** The text a field's string stands for wherever its characters are looked at. */
  function TextOf(f: Field): text {
    match f case Wide(chars) => chars case Narrow(raw) => Utf8.Runes(raw)
  }

  /**
   * Whatever commas a password holds itself, a factor without one, typed behind a comma with any white
   * space around it, is split off exactly; without a comma everything is password.
   */
  lemma SplitsAtTheFactor(password: text, left: text, factor: text, right: text)
    requires Blank(left) && Blank(right) && COMMA !in factor && Tight(factor, IsSpace)
    ensures SplitPassword(password + [COMMA] + (left + factor + right)) == (password, factor)
    ensures COMMA !in password ==> SplitPassword(password) == (password, [])
  {
    hide LastIndex, Trim;
    var tail := left + factor + right;
    forall k | 0 <= k < |tail| ensures tail[k] != COMMA {
      if |left| <= k < |left| + |factor| {
        assert tail[k] == factor[k - |left|];
      }
    }
    LastIs(password, COMMA, tail);
    Trims(left, factor, right, IsSpace);
  }

  /* ---------------------------------------------------------------- account name --- */

  const BACKSLASH: scalar := 0x5C
  const AT: scalar := 0x40

  /** The account a typed user name means: without a domain in front of it or a realm behind it. */
  function BareName(s: text): text {
    var bare := s[LastIndex(s, BACKSLASH) + 1..];
    var at := FirstIndex(bare, AT);
    Trim(if 0 < at < |bare| then bare[..at] else bare, IsSpace)
  }

  /** `DOMAIN\name`, `name@realm` and `name` all mean the same account. */
  lemma BareNameIs(name: text, domain: text, realm: text)
    requires name != [] && BACKSLASH !in name && AT !in name && Tight(name, IsSpace) && BACKSLASH !in realm
    ensures BareName(name) == name
    ensures BareName(domain + [BACKSLASH] + name) == name
    ensures BareName(name + [AT] + realm) == name
  {
    hide LastIndex, FirstIndex, Trim;
    LastIs(domain, BACKSLASH, name);
    Trims([], name, [], IsSpace);
    assert [] + name + [] == name;
    assert name[0..] == name && FirstIndex(name, AT) == |name|;
    var s := name + [AT] + realm;
    assert s[0..] == s && s[|name|] == AT;
    FirstIs(name, AT, realm);
    assert forall k :: 0 <= k < |s| ==> s[k] != BACKSLASH by {
      forall k | 0 <= k < |s| ensures s[k] != BACKSLASH {
        assert s[k] == if k < |name| then name[k] else if k == |name| then AT else realm[k - |name| - 1];
      }
    }
  }
}
