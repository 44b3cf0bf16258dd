/** Fixed-width integers on the wire, and the option type. */
module Wire {
  import opened ByteStrings

  type u16 = x: int | 0 <= x < 0x1_0000

  type u32 = x: int | 0 <= x < 0x1_0000_0000

  datatype Option<T> = None | Some(value: T)

  function Le16(v: u16): (r: bytes)
    ensures |r| == 2
  {
    [v % 256, v / 256]
  }

  function Be16(v: u16): (r: bytes)
    ensures |r| == 2
  {
    [v / 256, v % 256]
  }

  function Le32(v: u32): (r: bytes)
    ensures |r| == 4
  {
    Le16(v % 0x1_0000) + Le16(v / 0x1_0000)
  }

  function ReadLe16(s: bytes): u16
    requires |s| == 2
  {
    s[0] as int + 256 * s[1] as int
  }

  function ReadBe16(s: bytes): u16
    requires |s| == 2
  {
    256 * s[0] as int + s[1] as int
  }

  function ReadLe32(s: bytes): u32
    requires |s| == 4
  {
    ReadLe16(s[..2]) as int + 0x1_0000 * ReadLe16(s[2..]) as int
  }

  /** Reading a fixed-width integer undoes writing it. */
  lemma FixedWidthRoundTrips(v: u16, w: u32)
    ensures ReadLe16(Le16(v)) == v && ReadBe16(Be16(v)) == v && ReadLe32(Le32(w)) == w
  {
    Le16RoundTrips(v);
    Le16RoundTrips(w % 0x1_0000);
    Le16RoundTrips(w / 0x1_0000);
    var s := Le32(w);
    assert s[..2] == Le16(w % 0x1_0000) && s[2..] == Le16(w / 0x1_0000);
  }

  lemma Le16RoundTrips(v: u16)
    ensures ReadLe16(Le16(v)) == v && ReadBe16(Be16(v)) == v
  {
  }

  /** The low 16 bits: what a conversion to `uint16` keeps. */
  function Low16(n: nat): u16 {
    n % 0x1_0000
  }
}
