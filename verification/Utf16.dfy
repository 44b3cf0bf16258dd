/**
 * UTF-16 string fields. Text is a sequence of Unicode scalar values, as ranging over a valid string
 * yields them.
 */
module Utf16 {
  import opened ByteStrings
  import opened Wire

  type scalar = c: int | 0 <= c < 0xD800 || 0xE000 <= c <= 0x10FFFF

  type text = seq<scalar>

  const REPLACEMENT: scalar := 0xFFFD

  predicate IsHigh(u: u16) {
    0xD800 <= u <= 0xDBFF
  }

  predicate IsLow(u: u16) {
    0xDC00 <= u <= 0xDFFF
  }

  /** White space as Unicode has it. */
  predicate IsSpace(c: scalar) {
    9 <= c <= 13 || c == 0x20 || c == 0x85 || c == 0xA0 || c == 0x1680 || 0x2000 <= c <= 0x200A
    || c == 0x2028 || c == 0x2029 || c == 0x202F || c == 0x205F || c == 0x3000
  }

  /** Nothing is left of it when white space is trimmed. */
  predicate Blank(s: text) {
    forall i :: 0 <= i < |s| ==> IsSpace(s[i])
  }

  /* ----------------------------------------------------------------- writing --- */

  function UnitsOf(c: scalar): (r: seq<u16>)
    ensures 1 <= |r| <= 2
  {
    if c > 0xFFFF then [0xD800 + (c - 0x1_0000) / 0x400, 0xDC00 + (c - 0x1_0000) % 0x400] else [c]
  }

  function Units(s: text): seq<u16> {
    if s == [] then [] else UnitsOf(s[0]) + Units(s[1..])
  }

  function UnitBytes(us: seq<u16>): (r: bytes)
    ensures |r| == 2 * |us|
  {
    if us == [] then [] else Le16(us[0]) + UnitBytes(us[1..])
  }

  /** A text the way RDP expects it, with the two-byte null its string fields carry. */
  function Terminated(s: text): bytes {
    UnitBytes(Units(s)) + [0, 0]
  }

  lemma BytesOfScalar(c: scalar)
    ensures UnitBytes(UnitsOf(c)) ==
      if c > 0xFFFF then Le16(0xD800 + (c - 0x1_0000) / 0x400) + Le16(0xDC00 + (c - 0x1_0000) % 0x400) else Le16(c)
  {
    var us := UnitsOf(c);
    assert us[1..] == if c > 0xFFFF then [us[1]] else [];
    assert us[1..] != [] ==> us[1..][1..] == [];
  }

  /** `utf16le`: a scalar at a time, surrogate pairs outside the basic plane. */
  method Encode(s: text) returns (out: bytes)
    ensures out == UnitBytes(Units(s))
  {
    out := [];
    var i := 0;
    assert s[0..] == s;
    while i < |s|
      invariant 0 <= i <= |s|
      invariant out + UnitBytes(Units(s[i..])) == UnitBytes(Units(s))
    {
      hide UnitBytes, Units, UnitsOf;
      var r: int := s[i];
      EncodeStep(out, s, i);
      BytesOfScalar(s[i]);
      ghost var piece := UnitBytes(UnitsOf(s[i]));
      if r > 0xFFFF {
        r := r - 0x1_0000;
        var hi: u16 := 0xD800 + r / 0x400;
        var lo: u16 := 0xDC00 + r % 0x400;
        assert piece == [hi % 256, hi / 256, lo % 256, lo / 256];
        out := out + [hi % 256, hi / 256, lo % 256, lo / 256];
      } else {
        assert piece == [r % 256, r / 256];
        out := out + [r % 256, r / 256];
      }
      i := i + 1;
    }
    assert s[i..] == [];
  }

  lemma {:induction false} UnitBytesConcat(x: seq<u16>, y: seq<u16>)
    ensures UnitBytes(x + y) == UnitBytes(x) + UnitBytes(y)
  {
    if x == [] {
      assert x + y == y;
    } else {
      assert (x + y)[0] == x[0] && (x + y)[1..] == x[1..] + y;
      UnitBytesConcat(x[1..], y);
    }
  }

  lemma EncodeStep(out: bytes, s: text, i: nat)
    requires i < |s|
    ensures out + UnitBytes(Units(s[i..])) == out + UnitBytes(UnitsOf(s[i])) + UnitBytes(Units(s[i + 1..]))
  {
    assert s[i..][0] == s[i] && s[i..][1..] == s[i + 1..];
    UnitBytesConcat(UnitsOf(s[i]), Units(s[i + 1..]));
  }

  /* ----------------------------------------------------------------- reading --- */

  /** The 16-bit units of a field up to the first null; an odd last byte is ignored. */
  function FieldUnits(b: bytes): seq<u16>
    decreases |b|
  {
    if |b| < 2 || ReadLe16(b[..2]) == 0 then [] else [ReadLe16(b[..2])] + FieldUnits(b[2..])
  }

  function Pair(hi: u16, lo: u16): scalar
    requires IsHigh(hi) && IsLow(lo)
  {
    (hi - 0xD800) * 0x400 + (lo - 0xDC00) + 0x1_0000
  }

  /** Surrogate pairs become one scalar; a surrogate on its own becomes the replacement character. */
  function Scalars(us: seq<u16>): text {
    if us == [] then []
    else if |us| >= 2 && IsHigh(us[0]) && IsLow(us[1]) then [Pair(us[0], us[1])] + Scalars(us[2..])
    else [if IsHigh(us[0]) || IsLow(us[0]) then REPLACEMENT else us[0] as scalar] + Scalars(us[1..])
  }

  function Decoded(b: bytes): text {
    Scalars(FieldUnits(b))
  }

  method CollectUnits(b: bytes) returns (units: seq<u16>)
    ensures units == FieldUnits(b)
  {
    units := [];
    var i := 0;
    while i + 1 < |b|
      invariant 0 <= i <= |b|
      invariant FieldUnits(b) == units + FieldUnits(b[i..])
    {
      var u := ReadLe16(b[i..i + 2]);
      assert b[i..][..2] == b[i..i + 2] && b[i..][2..] == b[i + 2..];
      if u == 0 {
        return;
      }
      units := units + [u];
      i := i + 2;
    }
  }

  lemma ScalarsStep(us: seq<u16>, i: nat)
    requires i < |us|
    ensures i + 1 < |us| && IsHigh(us[i]) && IsLow(us[i + 1]) ==>
      Scalars(us[i..]) == [Pair(us[i], us[i + 1])] + Scalars(us[i + 2..])
    ensures !(i + 1 < |us| && IsHigh(us[i]) && IsLow(us[i + 1])) ==>
      Scalars(us[i..]) == [if IsHigh(us[i]) || IsLow(us[i]) then REPLACEMENT else us[i] as scalar] + Scalars(us[i + 1..])
  {
    var rest := us[i..];
    assert rest[1..] == us[i + 1..];
    if |rest| >= 2 {
      assert rest[1] == us[i + 1] && rest[2..] == us[i + 2..];
    }
  }

  method CombineSurrogates(units: seq<u16>) returns (out: text)
    ensures out == Scalars(units)
  {
    out := [];
    var i := 0;
    assert units[0..] == units;
    hide Scalars, Pair;
    while i < |units|
      invariant 0 <= i <= |units|
      invariant out + Scalars(units[i..]) == Scalars(units)
    {
      var u := units[i];
      ScalarsStep(units, i);
      if IsHigh(u) && i + 1 < |units| && IsLow(units[i + 1]) {
        Regroup(out, [Pair(u, units[i + 1])], Scalars(units[i + 2..]));
        out := out + [Pair(u, units[i + 1])];
        i := i + 2;
      } else {
        var c := if IsHigh(u) || IsLow(u) then REPLACEMENT else u as scalar;
        Regroup(out, [c], Scalars(units[i + 1..]));
        out := out + [c];
        i := i + 1;
      }
    }
    NoScalars(units);
  }

  lemma NoScalars(us: seq<u16>)
    ensures Scalars(us[|us|..]) == []
  {
  }

  lemma Regroup<T>(a: seq<T>, b: seq<T>, c: seq<T>)
    ensures a + (b + c) == a + b + c
  {
  }

  /** `decodeUTF16`: first the units, then the text. */
  method Decode(b: bytes) returns (out: text)
    ensures out == Decoded(b)
  {
    var units := CollectUnits(b);
    out := CombineSurrogates(units);
  }

  /* ------------------------------------------------------------- round trip --- */

  function FirstNull(s: text): (n: nat)
    ensures n <= |s| && (n < |s| ==> s[n] == 0) && 0 !in s[..n]
  {
    if s == [] || s[0] == 0 then 0
    else
      var m := FirstNull(s[1..]);
      assert s[..m + 1] == [s[0]] + s[1..][..m];
      1 + m
  }

  lemma {:induction false} FieldUnitsOf(us: seq<u16>, rest: bytes)
    requires forall i :: 0 <= i < |us| ==> us[i] != 0
    ensures FieldUnits(UnitBytes(us) + [0, 0] + rest) == us
  {
    var b := UnitBytes(us) + [0, 0] + rest;
    if us == [] {
      assert b[..2] == [0, 0];
    } else {
      assert b == Le16(us[0]) + (UnitBytes(us[1..]) + [0, 0] + rest);
      assert b[..2] == Le16(us[0]) && b[2..] == UnitBytes(us[1..]) + [0, 0] + rest;
      FixedWidthRoundTrips(us[0], 0);
      FieldUnitsOf(us[1..], rest);
    }
  }

  lemma {:induction false} ScalarsOfUnits(s: text)
    ensures Scalars(Units(s)) == s
  {
    if s != [] {
      ScalarsOfUnits(s[1..]);
      var us := Units(s);
      if s[0] > 0xFFFF {
        assert us[2..] == Units(s[1..]);
        assert Pair(us[0], us[1]) == s[0];
      } else {
        assert us[1..] == Units(s[1..]);
      }
    }
  }

  lemma {:induction false} UnitsAvoidZero(s: text)
    requires 0 !in s
    ensures forall i :: 0 <= i < |Units(s)| ==> Units(s)[i] != 0
  {
    if s != [] {
      UnitsAvoidZero(s[1..]);
    }
  }

  lemma {:induction false} UnitsConcat(x: text, y: text)
    ensures Units(x + y) == Units(x) + Units(y)
  {
    if x == [] {
      assert x + y == y;
    } else {
      assert (x + y)[0] == x[0] && (x + y)[1..] == x[1..] + y;
      UnitsConcat(x[1..], y);
    }
  }

  lemma NullInside(head: text, after: text, rest: bytes)
    ensures Terminated(head + ([0] + after)) + rest == UnitBytes(Units(head)) + [0, 0] + (Terminated(after) + rest)
  {
    UnitsConcat(head, [0] + after);
    UnitBytesConcat(Units(head), Units([0] + after));
    NullFirst(after);
    hide Units, UnitBytes;
    var h, a := UnitBytes(Units(head)), UnitBytes(Units(after));
    Regroup(h, [0, 0], a);
    Regroup(h + [0, 0], a, [0, 0]);
    Regroup(h + [0, 0], a + [0, 0], rest);
  }

  lemma NullFirst(after: text)
    ensures UnitBytes(Units([0] + after)) == [0, 0] + UnitBytes(Units(after))
  {
    assert ([0] + after)[1..] == after;
    assert UnitsOf(0) == [0];
    assert ([0] + Units(after))[1..] == Units(after);
  }

  /** What is on the wire, cut at the first null of the text. */
  lemma BytesCutAtNull(s: text, rest: bytes) returns (tail: bytes)
    ensures Terminated(s) + rest == UnitBytes(Units(s[..FirstNull(s)])) + [0, 0] + tail
  {
    hide Units, UnitBytes;
    var n := FirstNull(s);
    if n == |s| {
      assert s[..n] == s;
      tail := rest;
    } else {
      hide Terminated;
      tail := Terminated(s[n + 1..]) + rest;
      assert s == s[..n] + ([0] + s[n + 1..]);
      NullInside(s[..n], s[n + 1..], rest);
    }
  }

  /** A terminated field reads back as the text up to its first null, whatever follows the field. */
  lemma DecodesUpToNull(s: text, rest: bytes)
    ensures Decoded(Terminated(s) + rest) == s[..FirstNull(s)]
  {
    hide FirstNull, Units, UnitBytes, FieldUnits, Scalars;
    var head := s[..FirstNull(s)];
    var tail := BytesCutAtNull(s, rest);
    UnitsAvoidZero(head);
    ScalarsOfUnits(head);
    FieldUnitsOf(Units(head), tail);
  }

  /** Exactly the texts without a null come back unchanged, surrogate pairs included. */
  lemma RoundTripsIff(s: text, rest: bytes)
    ensures Decoded(Terminated(s) + rest) == s <==> 0 !in s
  {
    DecodesUpToNull(s, rest);
    if 0 !in s {
      assert s[..|s|] == s;
    }
  }

  lemma {:induction false} FieldUnitsExact(us: seq<u16>)
    requires forall i :: 0 <= i < |us| ==> us[i] != 0
    ensures FieldUnits(UnitBytes(us)) == us
  {
    if us != [] {
      var b := UnitBytes(us);
      assert b[..2] == Le16(us[0]) && b[2..] == UnitBytes(us[1..]);
      FixedWidthRoundTrips(us[0], 0);
      FieldUnitsExact(us[1..]);
    }
  }

  /** A field that is delimited by its length needs no null behind it. */
  lemma DecodesUnterminated(s: text)
    requires 0 !in s
    ensures Decoded(UnitBytes(Units(s))) == s
  {
    UnitsAvoidZero(s);
    ScalarsOfUnits(s);
    FieldUnitsExact(Units(s));
  }
}
