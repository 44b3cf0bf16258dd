/** How an address becomes the key its grants are bound to. */
module SourceKeys {
  import opened ByteStrings

  /** An address as the network library holds it; an IPv4 address inside an IPv6 one counts as IPv4. */
  datatype Ip = Missing | V4(bits: nat) | V6(bits: nat)

  /** The address itself, or its network and the number of bits that were kept. */
  datatype Key = NoKey | Whole(ip: Ip) | Network(ip: Ip, kept: nat)

  const V4_BITS := 32
  const V6_BITS := 128
  const MAPPED := 0xFFFF_0000_0000

  predicate Proper(ip: Ip) {
    match ip
    case Missing => true
    case V4(bits) => bits < 0x1_0000_0000
    case V6(bits) => bits < 0x1_0000_0000_0000_0000_0000_0000_0000_0000
  }

  /** An IPv4 address in IPv6 clothing is the IPv4 address. */
  function To4(ip: Ip): Ip {
    if ip.V6? && MAPPED <= ip.bits < MAPPED + 0x1_0000_0000 then V4(ip.bits - MAPPED) else ip
  }

  function Masked(bits: nat, width: nat, kept: nat): nat
    requires kept <= width
  {
    bits / Pow2(width - kept) * Pow2(width - kept)
  }

  function NormalizeIP(ip: Ip, v4Bits: nat, v6Bits: nat): Key {
    match To4(ip)
    case Missing => NoKey
    case V4(bits) => if v4Bits >= V4_BITS then Whole(V4(bits)) else Network(V4(Masked(bits, V4_BITS, v4Bits)), v4Bits)
    case V6(bits) => if v6Bits >= V6_BITS then Whole(V6(bits)) else Network(V6(Masked(bits, V6_BITS, v6Bits)), v6Bits)
  }

  /** The first `kept` bits of two addresses are the same. */
  predicate SameFront(a: nat, b: nat, width: nat, kept: nat) {
    if kept >= width then a == b else a / Pow2(width - kept) == b / Pow2(width - kept)
  }

  lemma MaskedSameIff(a: nat, b: nat, width: nat, kept: nat)
    requires kept <= width
    ensures Masked(a, width, kept) == Masked(b, width, kept) <==> a / Pow2(width - kept) == b / Pow2(width - kept)
  {
    hide Pow2;
    SameProduct(a / Pow2(width - kept), b / Pow2(width - kept), Pow2(width - kept));
  }

  lemma SameProduct(x: nat, y: nat, n: nat)
    requires n > 0
    ensures x * n == y * n <==> x == y
  {
    if x < y {
      Scaled(x, y, n);
    } else if y < x {
      Scaled(y, x, n);
    }
  }

  /** Of the IPv6 addresses, exactly those with the prefix ::ffff:0:0/96 stand for an IPv4 address, the one in their last 32 bits. */
  lemma MappedExactly(bits: nat)
    ensures To4(V6(bits)) == if bits / 0x1_0000_0000 == 0xFFFF then V4(bits % 0x1_0000_0000) else V6(bits)
    ensures To4(V4(bits)) == V4(bits) && To4(Missing) == Missing
  {
  }

  /**
   * Two addresses share a key exactly when they are of the same family, once mapped addresses are taken
   * for what they are, and agree on the configured number of leading bits.
   */
  lemma SameKeyIff(a: Ip, b: Ip, v4Bits: nat, v6Bits: nat)
    ensures NormalizeIP(a, v4Bits, v6Bits) == NormalizeIP(b, v4Bits, v6Bits) <==>
      match (To4(a), To4(b))
      case (Missing, Missing) => true
      case (V4(x), V4(y)) => SameFront(x, y, 32, v4Bits)
      case (V6(x), V6(y)) => SameFront(x, y, 128, v6Bits)
      case _ => false
  {
    hide Pow2, Masked;
    match (To4(a), To4(b)) {
      case (V4(x), V4(y)) =>
        if v4Bits < V4_BITS {
          MaskedSameIff(x, y, V4_BITS, v4Bits);
        }
      case (V6(x), V6(y)) =>
        if v6Bits < V6_BITS {
          MaskedSameIff(x, y, V6_BITS, v6Bits);
        }
      case _ =>
    }
  }
}
