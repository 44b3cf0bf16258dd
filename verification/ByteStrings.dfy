/** Bytes and machine integers, and decimal numerals written in ASCII, as the program's own strings hold them. */
module ByteStrings {

  type byte = x: int | 0 <= x < 256

  type bytes = seq<byte>

  const ZERO: byte := 48
  const COLON: byte := 58
  const MINUS: byte := 45
  const PLUS: byte := 43

  const MAX_INT64: int := 0x7FFF_FFFF_FFFF_FFFF
  const MIN_INT64: int := -0x8000_0000_0000_0000

  predicate FitsInt64(n: int) {
    MIN_INT64 <= n <= MAX_INT64
  }

  /** What a 64-bit signed result really stores. */
  function Wrap64(n: int): (r: int)
    ensures FitsInt64(r)
    ensures FitsInt64(n) ==> r == n
  {
    (n + 0x8000_0000_0000_0000) % 0x1_0000_0000_0000_0000 - 0x8000_0000_0000_0000
  }

  function Pow2(n: nat): (r: nat)
    ensures r >= 1
  {
    if n == 0 then 1 else 2 * Pow2(n - 1)
  }

  lemma {:induction false} Scaled(x: nat, y: nat, n: nat)
    requires x < y
    ensures x * n + n <= y * n
    decreases y
  {
    if x + 1 < y {
      Scaled(x, y - 1, n);
      assert y * n == (y - 1) * n + n;
    } else {
      assert y * n == x * n + n;
    }
  }

  predicate IsDigit(c: byte) {
    48 <= c <= 57
  }

  predicate AllDigits(s: bytes) {
    forall i :: 0 <= i < |s| ==> IsDigit(s[i])
  }

  /** The shortest decimal numeral of a natural number. */
  function Digits(n: nat): (r: bytes)
    ensures |r| >= 1 && AllDigits(r)
    ensures Value(r) == n
  {
    if n < 10 then
      [(48 + n) as byte]
    else
      var front := Digits(n / 10);
      var r := front + [(48 + n % 10) as byte];
      assert r[..|r| - 1] == front;
      r
  }

  /** The number a digit string denotes, however many leading zeros it has. */
  function Value(s: bytes): (n: nat)
    requires AllDigits(s)
  {
    if s == [] then 0 else Value(s[..|s| - 1]) * 10 + (s[|s| - 1] - 48)
  }

  /** The bytes of a text that has only ASCII characters. */
  function Ascii(s: string): (r: bytes)
    requires forall i :: 0 <= i < |s| ==> s[i] < 128 as char
    ensures |r| == |s| && forall i :: 0 <= i < |s| ==> r[i] == s[i] as int
  {
    seq(|s|, i requires 0 <= i < |s| => s[i] as int)
  }

  function Repeat(c: byte, n: nat): (r: bytes)
    ensures |r| == n
    ensures forall i :: 0 <= i < n ==> r[i] == c
  {
    if n == 0 then [] else Repeat(c, n - 1) + [c]
  }

  /** A signed numeral, as `strconv.FormatInt(n, 10)` writes it. */
  function FormatInt(n: int): (r: bytes)
    ensures |r| >= 1
  {
    if n < 0 then [MINUS] + Digits(-n) else Digits(n)
  }

  lemma FormatIntInjective(a: int, b: int)
    requires FormatInt(a) == FormatInt(b)
    ensures a == b
  {
    var r := FormatInt(a);
    assert a < 0 <==> !IsDigit(r[0]);
    assert b < 0 <==> !IsDigit(r[0]);
    if a < 0 {
      assert Digits(-a) == r[1..] == Digits(-b);
    }
  }
}
