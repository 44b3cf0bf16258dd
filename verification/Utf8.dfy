/** What a loop over the characters of a string makes of arbitrary bytes: UTF-8, with a replacement for what is not. */
module Utf8 {
  import opened ByteStrings
  import opened Utf16

  predicate Follows(b: byte) {
    0x80 <= b <= 0xBF
  }

  /** The second byte excludes overlong forms, surrogates and what lies beyond the last character. */
  predicate Second(first: byte, b: byte) {
    (if first == 0xE0 then 0xA0 else if first == 0xF0 then 0x90 else 0x80) <= b
    <= (if first == 0xED then 0x9F else if first == 0xF4 then 0x8F else 0xBF)
  }

  /** How many bytes the character at the front takes; one where there is none. */
  function Width(b: bytes): (n: nat)
    requires b != []
    ensures 1 <= n <= 4 && n <= |b|
  {
    if 0xC2 <= b[0] <= 0xDF && |b| >= 2 && Follows(b[1]) then 2
    else if 0xE0 <= b[0] <= 0xEF && |b| >= 3 && Second(b[0], b[1]) && Follows(b[2]) then 3
    else if 0xF0 <= b[0] <= 0xF4 && |b| >= 4 && Second(b[0], b[1]) && Follows(b[2]) && Follows(b[3]) then 4
    else 1
  }

  function Front(b: bytes): scalar
    requires b != []
  {
    if Width(b) == 1 then if b[0] < 0x80 then b[0] as scalar else REPLACEMENT
    else
      var b0, b1: int := b[0], b[1];
      if Width(b) == 2 then (b0 - 0xC0) * 64 + (b1 - 0x80)
      else
        var b2: int := b[2];
        if Width(b) == 3 then (b0 - 0xE0) * 4096 + (b1 - 0x80) * 64 + (b2 - 0x80)
        else (b0 - 0xF0) * 262144 + (b1 - 0x80) * 4096 + (b2 - 0x80) * 64 + (b[3] as int - 0x80)
  }

  function Runes(b: bytes): text
    decreases |b|
  {
    if b == [] then [] else [Front(b)] + Runes(b[Width(b)..])
  }

  /** Written as UTF-16, no character takes more units than it took bytes. */
  lemma {:induction false} RunesAreShort(b: bytes)
    ensures |Units(Runes(b))| <= |b|
    ensures Runes(b) == [] <==> b == []
    decreases |b|
  {
    if b != [] {
      var s := Runes(b);
      assert s[0] == Front(b) && s[1..] == Runes(b[Width(b)..]);
      RunesAreShort(b[Width(b)..]);
    }
  }

  /** ASCII is taken as it stands, and every byte becomes a unit. */
  lemma {:induction false} AsciiStays(b: bytes)
    requires forall i :: 0 <= i < |b| ==> b[i] < 0x80
    ensures |Runes(b)| == |b| && |Units(Runes(b))| == |b|
    ensures forall i :: 0 <= i < |b| ==> Runes(b)[i] as int == b[i]
    decreases |b|
  {
    if b != [] {
      var s := Runes(b);
      assert s[0] == Front(b) && s[1..] == Runes(b[1..]);
      AsciiStays(b[1..]);
      forall i | 0 <= i < |b| ensures s[i] as int == b[i] {
        if i > 0 {
          assert s[i] == s[1..][i - 1] && b[i] == b[1..][i - 1];
        }
      }
    }
  }

  /* ------------------------------------------------------------------- encoding --- */

  function Bytes(c: scalar): (r: bytes)
    ensures 1 <= |r| <= 4
  {
    if c < 0x80 then [c]
    else if c < 0x800 then [0xC0 + c / 64, 0x80 + c % 64]
    else if c < 0x1_0000 then [0xE0 + c / 4096, 0x80 + c / 64 % 64, 0x80 + c % 64]
    else [0xF0 + c / 262144, 0x80 + c / 4096 % 64, 0x80 + c / 64 % 64, 0x80 + c % 64]
  }

  function Encoded(s: text): bytes {
    if s == [] then [] else Bytes(s[0]) + Encoded(s[1..])
  }

  /** Text comes back from its encoding, so a client whose code page is UTF-8 is understood. */
  lemma {:induction false} RunesUndoEncoding(s: text)
    ensures Runes(Encoded(s)) == s
  {
    if s != [] {
      var b, rest := Encoded(s), Encoded(s[1..]);
      OneRune(s[0], rest);
      assert b == Bytes(s[0]) + rest && b[|Bytes(s[0])|..] == rest;
      RunesUndoEncoding(s[1..]);
    }
  }

  /** The sixes of bits of a character. */
  lemma Sixes(c: nat)
    ensures c == c / 64 * 64 + c % 64 && c / 64 == c / 4096 * 64 + c / 64 % 64
    ensures c / 4096 == c / 262144 * 64 + c / 4096 % 64
  {
  }

  lemma ShortRune(c: scalar, rest: bytes)
    requires c < 0x800
    ensures Width(Bytes(c) + rest) == |Bytes(c)| && Front(Bytes(c) + rest) == c
  {
    Sixes(c);
  }

  lemma ThreeByteRune(c: scalar, rest: bytes)
    requires 0x800 <= c < 0x1_0000
    ensures Width(Bytes(c) + rest) == 3 && Front(Bytes(c) + rest) == c
  {
    var x, y, z := c / 4096, c / 64 % 64, c % 64;
    Sixes(c);
    assert c == x * 4096 + y * 64 + z && 0 <= x <= 15;
    var b := Bytes(c) + rest;
    assert b[0] == 0xE0 + x && b[1] == 0x80 + y && b[2] == 0x80 + z;
  }

  lemma FourByteRune(c: scalar, rest: bytes)
    requires c >= 0x1_0000
    ensures Width(Bytes(c) + rest) == 4 && Front(Bytes(c) + rest) == c
  {
    var w, x, y, z := c / 262144, c / 4096 % 64, c / 64 % 64, c % 64;
    Sixes(c);
    assert c == w * 262144 + x * 4096 + y * 64 + z && 0 <= w <= 4;
    var b := Bytes(c) + rest;
    assert b[0] == 0xF0 + w && b[1] == 0x80 + x && b[2] == 0x80 + y && b[3] == 0x80 + z;
  }

  lemma OneRune(c: scalar, rest: bytes)
    ensures Width(Bytes(c) + rest) == |Bytes(c)| && Front(Bytes(c) + rest) == c
  {
    hide Width, Front;
    if c < 0x800 {
      ShortRune(c, rest);
    } else if c < 0x1_0000 {
      ThreeByteRune(c, rest);
    } else {
      FourByteRune(c, rest);
    }
  }
}
