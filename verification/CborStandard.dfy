/**
 * Where the decoder leaves RFC 8949. It takes a simple value whose argument stands in extra bytes, which
 * the standard reads as a float or not at all; a walk over the heads says when that happens, and only then.
 */
module CborStandard {
  import opened ByteStrings
  import opened Cbor

  /** Well-formed by section 3.3 of RFC 8949: false, true, null and undefined fill their initial byte. */
  predicate Standard(i: Item)
    decreases i
  {
    match i
    case ArrayItem(_, items) => AllStandard(items)
    case MapItem(_, pairs) => PairsStandard(pairs)
    case TagItem(_, _, inner) => Standard(inner)
    case SimpleItem(w, _) => w.W0?
    case _ => true
  }

  predicate AllStandard(items: seq<Item>)
    decreases items
  {
    items == [] || (Standard(items[0]) && AllStandard(items[1..]))
  }

  predicate PairStandard(p: Pair)
    decreases p
  {
    Standard(p.key) && Standard(p.value)
  }

  predicate PairsStandard(pairs: seq<Pair>)
    decreases pairs
  {
    pairs == [] || (PairStandard(pairs[0]) && PairsStandard(pairs[1..]))
  }

  /* ------------------------------------------------------- a walk over the heads --- */

  /** Where an item ends, going by its heads alone, and whether a wide simple value was met on the way. */
  datatype Walk = Walk(end: nat, wide: bool)

  function WalkItem(b: bytes, pos: nat, depth: nat): Walk
    requires depth <= MAX_DEPTH + 1
    decreases MAX_DEPTH + 1 - depth, 0
  {
    var head := HeadAt(b, pos);
    if depth > MAX_DEPTH || head.Bad? then Walk(pos, false)
    else
      var arg, p := head.value.arg, head.pos;
      match head.value.major
      case 2 => Walk(p + arg, false)
      case 3 => Walk(p + arg, false)
      case 4 => WalkItems(b, p, depth + 1, arg)
      case 5 => WalkItems(b, p, depth + 1, 2 * arg)
      case 6 => WalkItem(b, p, depth + 1)
      case 7 => Walk(p, b[pos] % 32 >= 24)
      case _ => Walk(p, false)
  }

  function WalkItems(b: bytes, pos: nat, depth: nat, n: nat): Walk
    requires depth <= MAX_DEPTH + 1
    decreases MAX_DEPTH + 1 - depth, n + 1
  {
    if n == 0 then Walk(pos, false)
    else
      var first := WalkItem(b, pos, depth);
      var rest := WalkItems(b, first.end, depth, n - 1);
      Walk(rest.end, first.wide || rest.wide)
  }

  /** A simple value or float with its argument in extra bytes: major type 7, additional information 24 to 27. */
  predicate WideSimpleAt(b: bytes, pos: nat) {
    WalkItem(b, pos, 0).wide
  }

  /* ---------------------------------------- the walk finds what is not standard --- */

  lemma LeafWalks(b: bytes, pos: nat, i: Item, depth: nat)
    requires IsLeaf(i) && WellFormed(i, depth) && Holds(b, pos, Encode(i, depth))
    ensures WalkItem(b, pos, depth) == Walk(pos + |Encode(i, depth)|, !Standard(i))
  {
    hide HeadAt, Power256, ArgumentFits, Holds, WalkItems, ToBigEndian;
    match i
    case IntItem(w, negative, arg) =>
      HeadReads(b, pos, if negative then 1 else 0, w, arg);
    case StringItem(w, text, s) =>
      HeadThen(b, pos, if text then 3 else 2, w, |s|, s);
    case SimpleItem(w, arg) =>
      HeadReads(b, pos, 7, w, arg);
      FirstByte(b, pos, 7, w, arg);
  }

  lemma FirstByte(b: bytes, pos: nat, major: nat, w: Width, arg: nat)
    requires major < 8 && ArgumentFits(w, arg) && Holds(b, pos, HeadBytes(major, w, arg))
    ensures pos < |b| && (b[pos] % 32 >= 24 <==> !w.W0?)
  {
    var h := HeadBytes(major, w, arg);
    assert b[pos] == b[pos..pos + |h|][0] == h[0];
    assert h[0] % 32 == Info(w, arg);
  }

  lemma {:induction false} ItemWalks(b: bytes, pos: nat, i: Item, depth: nat)
    requires WellFormed(i, depth) && Holds(b, pos, Encode(i, depth))
    ensures WalkItem(b, pos, depth) == Walk(pos + |Encode(i, depth)|, !Standard(i))
    decreases i
  {
    hide HeadAt, HeadBytes, Holds, WalkItems, EncodeItems, EncodePairs, AllWellFormed, PairsWellFormed, ArgumentFits;
    hide AllStandard, PairsStandard;
    if IsLeaf(i) {
      LeafWalks(b, pos, i, depth);
    } else if i.ArrayItem? {
      HeadThen(b, pos, 4, i.w, |i.items|, EncodeItems(i.items, depth + 1));
      ItemsWalk(b, pos + 1 + Extra(i.w), i.items, depth + 1);
    } else if i.MapItem? {
      HeadThen(b, pos, 5, i.w, |i.pairs|, EncodePairs(i.pairs, depth + 1));
      PairsWalk(b, pos + 1 + Extra(i.w), i.pairs, depth + 1);
    } else {
      HeadThen(b, pos, 6, i.w, i.tag, Encode(i.inner, depth + 1));
      ItemWalks(b, pos + 1 + Extra(i.w), i.inner, depth + 1);
    }
  }

  lemma {:induction false} ItemsWalk(b: bytes, pos: nat, items: seq<Item>, depth: nat)
    requires depth <= MAX_DEPTH + 1 && AllWellFormed(items, depth) && Holds(b, pos, EncodeItems(items, depth))
    ensures WalkItems(b, pos, depth, |items|) == Walk(pos + |EncodeItems(items, depth)|, !AllStandard(items))
    decreases items
  {
    hide WalkItem, Encode, WellFormed, Holds, Standard;
    if items != [] {
      var e := Encode(items[0], depth);
      HoldsSplit(b, pos, e, EncodeItems(items[1..], depth));
      ItemWalks(b, pos, items[0], depth);
      ItemsWalk(b, pos + |e|, items[1..], depth);
    }
  }

  lemma {:induction false} PairWalks(b: bytes, pos: nat, p: Pair, depth: nat)
    requires PairWellFormed(p, depth) && Holds(b, pos, EncodePair(p, depth))
    ensures var mid := pos + |Encode(p.key, depth)|;
      && WalkItem(b, pos, depth) == Walk(mid, !Standard(p.key))
      && WalkItem(b, mid, depth) == Walk(pos + |EncodePair(p, depth)|, !Standard(p.value))
    decreases p
  {
    hide WalkItem, Encode, WellFormed, Holds, Standard, PairKey;
    HoldsSplit(b, pos, Encode(p.key, depth), Encode(p.value, depth));
    ItemWalks(b, pos, p.key, depth);
    ItemWalks(b, pos + |Encode(p.key, depth)|, p.value, depth);
  }

  lemma {:induction false} PairsWalk(b: bytes, pos: nat, pairs: seq<Pair>, depth: nat)
    requires depth <= MAX_DEPTH + 1 && PairsWellFormed(pairs, depth) && Holds(b, pos, EncodePairs(pairs, depth))
    ensures WalkItems(b, pos, depth, 2 * |pairs|) == Walk(pos + |EncodePairs(pairs, depth)|, !PairsStandard(pairs))
    decreases pairs
  {
    hide WalkItem, Encode, WellFormed, Holds, Standard, EncodePair, PairWellFormed;
    if pairs != [] {
      var e, n := EncodePair(pairs[0], depth), 2 * |pairs|;
      HoldsSplit(b, pos, e, EncodePairs(pairs[1..], depth));
      PairWalks(b, pos, pairs[0], depth);
      PairsWalk(b, pos + |e|, pairs[1..], depth);
      var mid := WalkItem(b, pos, depth).end;
      assert n - 2 == 2 * |pairs[1..]|;
      assert WalkItems(b, mid, depth, n - 1).end == WalkItems(b, pos + |e|, depth, n - 2).end;
    }
  }

  /**
   * What is read is a well-formed encoding of the standard exactly when the walk meets no wide simple value;
   * and then the value is the item's meaning. What the standard calls well-formed but not valid has a meaning
   * too, which is this model's choice: of repeated keys the last counts, and text is the bytes that stand there.
   */
  lemma StandardExactly(b: bytes, pos: nat, v: Value, end: nat)
    ensures DecodeAt(b, pos, 0).Good? ==>
      ((exists i :: Standard(i) && WellFormed(i, 0) && Holds(b, pos, Encode(i, 0))) <==> !WideSimpleAt(b, pos))
    ensures DecodeAt(b, pos, 0) == Good(v, end) && !WideSimpleAt(b, pos) <==>
      exists i :: Standard(i) && WellFormed(i, 0) && Holds(b, pos, Encode(i, 0))
                  && end == pos + |Encode(i, 0)| && v == Meaning(i)
  {
    hide DecodeAt, Encode, WellFormed, Holds, Meaning, Standard, WalkItem;
    if DecodeAt(b, pos, 0).Good? {
      var i := DecodedWasEncoded(b, pos, 0);
      ItemWalks(b, pos, i, 0);
    }
    forall i | Standard(i) && WellFormed(i, 0) && Holds(b, pos, Encode(i, 0))
      ensures !WideSimpleAt(b, pos) && DecodeAt(b, pos, 0) == Good(Meaning(i), pos + |Encode(i, 0)|)
    {
      ItemWalks(b, pos, i, 0);
      DecodesItem(b, pos, i, 0);
    }
  }

  /** The half-precision float F9 00 14 is read, as false, and the walk says that it is not standard. */
  lemma HalfFloatReadsAsFalse()
    ensures var b: bytes := [0xF9, 0x00, 0x14]; DecodeAt(b, 0, 0) == Good(Bool(false), 3) && WideSimpleAt(b, 0)
  {
    var b: bytes := [0xF9, 0x00, 0x14];
    assert b[1..3] == [0x00, 0x14];
    var low: bytes, arg: bytes := [0x00], [0x00, 0x14];
    assert low[..0] == [] && arg[..1] == low;
    assert BigEndian(arg) == 20;
  }
}
