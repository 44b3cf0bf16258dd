/**
 * The cursor every RDP parser reads through, and the BER and PER length fields. After the first
 * failure a cursor stays failed and hands out zeros.
 */
module RdpCursor {
  import opened ByteStrings
  import opened Wire

  /** A position in the bytes, or nothing once reading has failed. */
  type Place = Option<nat>

  class Cursor {
    const b: bytes
    var pos: nat
    var failed: bool

    constructor (b: bytes, pos: nat)
      ensures this.b == b && Place() == Some(pos)
    {
      this.b := b;
      this.pos := pos;
      this.failed := false;
    }

    ghost function Place(): Place
      reads this
    {
      if failed then None else Some(pos)
    }

    function Left(): int
      reads this
    {
      |b| - pos
    }

    method Fail()
      modifies this
      ensures Place() == None && pos == old(pos)
    {
      failed := true;
    }

    /**
     * The next `n` bytes. A failed cursor still makes a slice of length `n`, so once it has failed
     * the length must not be negative; before that a negative length is just a failure.
     */
    method Take(n: int) returns (out: bytes)
      requires failed ==> n >= 0
      modifies this
      ensures |out| == if n < 0 then 0 else n
      ensures Place() == Advance(b, old(Place()), n)
      ensures Place().Some? ==> out == b[old(pos)..pos]
      ensures Place().None? ==> pos == old(pos)
    {
      if failed {
        return Repeat(0, n);
      }
      if n < 0 || Left() < n {
        Fail();
        return Repeat(0, if n < 0 then 0 else n);
      }
      out := b[pos..pos + n];
      pos := pos + n;
    }

    method U8() returns (v: byte)
      modifies this
      ensures Place() == Advance(b, old(Place()), 1)
      ensures Place().Some? ==> old(pos) < |b| && v == b[old(pos)]
    {
      var s := Take(1);
      v := s[0];
    }

    method U16le() returns (v: u16)
      modifies this
      ensures Place() == Advance(b, old(Place()), 2)
      ensures Place().Some? ==> v == ReadLe16(b[old(pos)..old(pos) + 2])
    {
      var s := Take(2);
      v := ReadLe16(s);
    }

    method U32le() returns (v: u32)
      modifies this
      ensures Place() == Advance(b, old(Place()), 4)
      ensures Place().Some? ==> v == ReadLe32(b[old(pos)..old(pos) + 4])
    {
      var s := Take(4);
      v := ReadLe32(s);
    }

    method Skip(n: nat)
      modifies this
      ensures Place() == Advance(b, old(Place()), n)
    {
      var _ := Take(n);
    }
  }

  function Advance(b: bytes, p: Place, n: int): (q: Place)
    ensures q.Some? ==> p.Some? && 0 <= n && q.value == p.value + n <= |b|
  {
    if p.Some? && 0 <= n && p.value + n <= |b| then Some(p.value + n) else None
  }

  /* ----------------------------------------------------------------------- BER --- */

  /** The value of a BER length at `p`, and where it ends. Up to three length octets are accepted. */
  function BerLengthAt(b: bytes, p: Place): (r: Option<(nat, nat)>)
    ensures r.Some? ==> p.Some? && p.value < r.value.1 <= |b|
  {
    if Advance(b, p, 1).None? then None
    else
      var first, at := b[p.value], p.value + 1;
      if first < 0x80 then Some((first, at))
      else
        var n := first - 0x80;
        if n == 0 || n > 3 || at + n > |b| then None else Some((BigEndian(b[at..at + n]), at + n))
  }

  function BigEndian(s: bytes): nat {
    if s == [] then 0 else BigEndian(s[..|s| - 1]) * 256 + s[|s| - 1]
  }

  function PlaceOf(r: Option<(nat, nat)>): Place {
    if r.None? then None else Some(r.value.1)
  }

  method ReadBerLength(c: Cursor) returns (n: nat)
    modifies c
    ensures c.Place() == PlaceOf(BerLengthAt(c.b, old(c.Place())))
    ensures c.Place().Some? ==> n == BerLengthAt(c.b, old(c.Place())).value.0
  {
    var first := c.U8();
    if first < 0x80 {
      return first;
    }
    var octets := first - 0x80;
    if octets == 0 || octets > 3 {
      c.Fail();
      return 0;
    }
    var s := c.Take(octets);
    n := 0;
    var i := 0;
    while i < |s|
      invariant 0 <= i <= |s|
      invariant n == BigEndian(s[..i])
    {
      assert s[..i + 1][..i] == s[..i];
      n := n * 256 + s[i];
      i := i + 1;
    }
    assert s[..i] == s;
  }

  /** The shortest form, as the writer picks it; from 0x1_0000 on the top bits are lost. */
  function BerLength(n: nat): bytes {
    if n < 0x80 then [n] else if n <= 0xFF then [0x81, n] else [0x82] + Be16(Low16(n))
  }

  lemma BigEndianOfTwo(x: byte, y: byte)
    ensures BigEndian([x]) == x && BigEndian([x, y]) == 256 * x as int + y
  {
    var one, two: bytes := [x], [x, y];
    assert one[..0] == [] && two[..1] == one;
  }

  /** A written length reads back exactly when it fits 16 bits. */
  lemma BerLengthReadsIff(n: nat, rest: bytes)
    ensures BerLengthAt(BerLength(n) + rest, Some(0)) == Some((Low16(n), |BerLength(n)|))
    ensures BerLengthAt(BerLength(n) + rest, Some(0)) == Some((n, |BerLength(n)|)) <==> n <= 0xFFFF
  {
    var b := BerLength(n) + rest;
    if 0x80 <= n <= 0xFF {
      assert b[1..2] == [n];
      BigEndianOfTwo(n, 0);
    } else if n > 0xFF {
      var v := Low16(n);
      assert b[1..3] == [v / 256, v % 256];
      BigEndianOfTwo(v / 256, v % 256);
    }
  }

  /* ----------------------------------------------------------------------- PER --- */

  function PerLengthAt(b: bytes, p: Place): (r: Option<(nat, nat)>)
    ensures r.Some? ==> p.Some? && p.value < r.value.1 <= |b| && r.value.0 <= 0x7FFF
  {
    if Advance(b, p, 1).None? then None
    else
      var first, at := b[p.value], p.value + 1;
      if first < 0x80 then Some((first, at))
      else if at + 1 > |b| then None
      else Some(((first - 0x80) as int * 256 + b[at] as int, at + 1))
  }

  method ReadPerLength(c: Cursor) returns (n: nat)
    modifies c
    ensures c.Place() == PlaceOf(PerLengthAt(c.b, old(c.Place())))
    ensures c.Place().Some? ==> n == PerLengthAt(c.b, old(c.Place())).value.0
  {
    var first := c.U8();
    if first >= 0x80 {
      var second := c.U8();
      return (first - 0x80) as int * 256 + second;
    }
    return first;
  }

  /** Short below 0x80, otherwise 16 bits with the top one set: only 15 bits of the length survive. */
  function PerLength(n: nat): bytes {
    if n > 0x7F then Be16(0x8000 + n % 0x8000) else [n]
  }

  /** A written length reads back exactly when it fits 15 bits. */
  lemma PerLengthReadsIff(n: nat, rest: bytes)
    ensures PerLengthAt(PerLength(n) + rest, Some(0)) == Some((n % 0x8000, |PerLength(n)|))
    ensures PerLengthAt(PerLength(n) + rest, Some(0)) == Some((n, |PerLength(n)|)) <==> n <= 0x7FFF
  {
  }

  /* ---------------------------------------------------------- padded strings --- */

  /** Text in a fixed-size field ends at the first zero. */
  function BeforeZero(s: bytes): (r: bytes)
    ensures r <= s && 0 !in r && (|r| < |s| ==> s[|r|] == 0)
  {
    if s == [] || s[0] == 0 then []
    else
      var r := [s[0]] + BeforeZero(s[1..]);
      assert s == [s[0]] + s[1..];
      r
  }

  method TrimZero(s: bytes) returns (r: bytes)
    ensures r == BeforeZero(s)
  {
    var i := 0;
    while i < |s|
      invariant 0 <= i <= |s|
      invariant BeforeZero(s) == s[..i] + BeforeZero(s[i..])
    {
      if s[i] == 0 {
        assert s[..i] + [] == s[..i];
        return s[..i];
      }
      assert s[..i] + ([s[i]] + BeforeZero(s[i + 1..])) == s[..i + 1] + BeforeZero(s[i + 1..]);
      assert s[i..][1..] == s[i + 1..];
      i := i + 1;
    }
    assert s[..i] + [] == s;
    return s;
  }
}
