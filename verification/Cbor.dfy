/**
 * The CBOR subset of the passkey code (RFC 8949): what the decoder accepts and what it makes of it.
 *
 * `DecodeAt` is the decoder on values; the reader object in CborReader.dfy is proved to follow it. The
 * encodings it is measured against are those of section 3 of RFC 8949, as the type `Item`.
 */
module Cbor {
  import opened ByteStrings
  import opened Wire

  const MAX_ITEMS := 1024
  const MAX_STRING := 65536
  const MAX_DEPTH := 8

  datatype Key = IntKey(n: int) | TextKey(s: bytes)

  datatype Value =
    | Int(n: int)
    | Bytes(s: bytes)
    | Text(s: bytes)
    | Array(items: seq<Value>)
    | Map(entries: map<Key, Value>)
    | Bool(b: bool)
    | Null

  datatype Error =
    | OutOfBytes | UnsupportedInfo | OutOfRange | TooLong | TooMany | UnusableKey | UnsupportedSimple | TooDeep | NotAMap

  datatype Result<T> = Good(value: T, pos: nat) | Bad(error: Error)

  datatype Argument = Argument(major: nat, arg: nat)

  function BigEndian(s: bytes): (n: nat) {
    if s == [] then 0 else BigEndian(s[..|s| - 1]) * 256 + s[|s| - 1]
  }

  /** The number of argument bytes behind an initial byte with this additional information. */
  function ArgumentWidth(info: nat): nat
    requires 24 <= info <= 27
  {
    if info == 24 then 1 else if info == 25 then 2 else if info == 26 then 4 else 8
  }

  function HeadAt(b: bytes, pos: nat): (r: Result<Argument>)
    ensures r.Good? ==> pos < r.pos <= |b|
  {
    if pos >= |b| then Bad(OutOfBytes)
    else
      var major, info := b[pos] / 32, b[pos] % 32;
      if info < 24 then Good(Argument(major, info), pos + 1)
      else if info > 27 then Bad(UnsupportedInfo)
      else
        var w := ArgumentWidth(info);
        if pos + 1 + w > |b| then Bad(OutOfBytes)
        else Good(Argument(major, BigEndian(b[pos + 1..pos + 1 + w])), pos + 1 + w)
  }

  function KeyOf(v: Value): Option<Key> {
    match v
    case Int(n) => Some(IntKey(n))
    case Text(s) => Some(TextKey(s))
    case _ => None
  }

  function StringAt(b: bytes, pos: nat, n: nat, text: bool): (r: Result<Value>)
    requires pos <= |b|
    ensures r.Good? ==> r.pos == pos + n && r.pos <= |b|
  {
    if n > MAX_STRING then Bad(TooLong)
    else if pos + n > |b| then Bad(OutOfBytes)
    else Good(if text then Text(b[pos..pos + n]) else Bytes(b[pos..pos + n]), pos + n)
  }

  function SimpleAt(arg: nat, pos: nat): Result<Value> {
    if arg == 20 then Good(Bool(false), pos)
    else if arg == 21 then Good(Bool(true), pos)
    else if arg == 22 || arg == 23 then Good(Null, pos)
    else Bad(UnsupportedSimple)
  }

  /** One item at `pos`, at this depth of nesting. */
  function DecodeAt(b: bytes, pos: nat, depth: nat): (r: Result<Value>)
    requires depth <= MAX_DEPTH + 1
    ensures r.Good? ==> pos < r.pos <= |b|
    decreases MAX_DEPTH + 1 - depth, 0
  {
    if depth > MAX_DEPTH then Bad(TooDeep)
    else
      var head := HeadAt(b, pos);
      if head.Bad? then Bad(head.error)
      else
        var arg, p := head.value.arg, head.pos;
        match head.value.major
        case 0 => if arg > MAX_INT64 then Bad(OutOfRange) else Good(Int(arg), p)
        case 1 => if arg > MAX_INT64 - 1 then Bad(OutOfRange) else Good(Int(-1 - arg), p)
        case 2 => StringAt(b, p, arg, false)
        case 3 => StringAt(b, p, arg, true)
        case 4 => if arg > MAX_ITEMS then Bad(TooMany) else DecodeItems(b, p, depth + 1, arg, [])
        case 5 => if arg > MAX_ITEMS then Bad(TooMany) else DecodePairs(b, p, depth + 1, arg, map[])
        case 6 => DecodeAt(b, p, depth + 1)
        case _ => SimpleAt(arg, p)
  }

  /** `n` more items behind those in `acc`. */
  function DecodeItems(b: bytes, pos: nat, depth: nat, n: nat, acc: seq<Value>): (r: Result<Value>)
    requires depth <= MAX_DEPTH + 1 && pos <= |b|
    ensures r.Good? ==> pos <= r.pos <= |b|
    decreases MAX_DEPTH + 1 - depth, n + 1
  {
    if n == 0 then Good(Array(acc), pos)
    else
      var v := DecodeAt(b, pos, depth);
      if v.Bad? then Bad(v.error) else DecodeItems(b, v.pos, depth, n - 1, acc + [v.value])
  }

  /** `n` more pairs on top of those in `acc`; a repeated key takes the later value. */
  function DecodePairs(b: bytes, pos: nat, depth: nat, n: nat, acc: map<Key, Value>): (r: Result<Value>)
    requires depth <= MAX_DEPTH + 1 && pos <= |b|
    ensures r.Good? ==> pos <= r.pos <= |b|
    decreases MAX_DEPTH + 1 - depth, n + 1
  {
    if n == 0 then Good(Map(acc), pos)
    else
      var k := DecodeAt(b, pos, depth);
      if k.Bad? then Bad(k.error)
      else
        var v := DecodeAt(b, k.pos, depth);
        if v.Bad? then Bad(v.error)
        else if KeyOf(k.value).None? then Bad(UnusableKey)
        else DecodePairs(b, v.pos, depth, n - 1, acc[KeyOf(k.value).value := v.value])
  }

  /* ----------------------------------------------------------------- encodings --- */

  /** How many bytes an argument is written in; W0 is the initial byte itself. */
  datatype Width = W0 | W1 | W2 | W4 | W8

  function Extra(w: Width): nat {
    match w case W0 => 0 case W1 => 1 case W2 => 2 case W4 => 4 case W8 => 8
  }

  function Info(w: Width, arg: nat): nat {
    match w case W0 => arg case W1 => 24 case W2 => 25 case W4 => 26 case W8 => 27
  }

  function Power256(k: nat): (p: nat)
    ensures p > 0
  {
    if k == 0 then 1 else 256 * Power256(k - 1)
  }

  function ToBigEndian(n: nat, k: nat): (r: bytes)
    requires n < Power256(k)
    ensures |r| == k && BigEndian(r) == n
  {
    if k == 0 then []
    else
      var front := ToBigEndian(n / 256, k - 1);
      var r := front + [n % 256];
      assert r[..k - 1] == front;
      r
  }

  predicate ArgumentFits(w: Width, arg: nat) {
    if w.W0? then arg < 24 else arg < Power256(Extra(w))
  }

  function HeadBytes(major: nat, w: Width, arg: nat): (r: bytes)
    requires major < 8 && ArgumentFits(w, arg)
    ensures |r| == 1 + Extra(w)
  {
    [(major * 32 + Info(w, arg)) as byte] + (if w.W0? then [] else ToBigEndian(arg, Extra(w)))
  }

  /** A definite-length item together with the widths its arguments are written in. */
  datatype Item =
    | IntItem(w: Width, negative: bool, arg: nat)
    | StringItem(w: Width, text: bool, s: bytes)
    | ArrayItem(w: Width, items: seq<Item>)
    | MapItem(w: Width, pairs: seq<Pair>)
    | TagItem(w: Width, tag: nat, inner: Item)
    | SimpleItem(w: Width, arg: nat)

  datatype Pair = Pair(key: Item, value: Item)

  /** Within the decoder's limits, at this depth. */
  predicate WellFormed(i: Item, depth: nat)
    decreases i
  {
    && depth <= MAX_DEPTH
    && match i
       case IntItem(w, negative, arg) => ArgumentFits(w, arg) && arg <= (if negative then MAX_INT64 - 1 else MAX_INT64)
       case StringItem(w, _, s) => ArgumentFits(w, |s|) && |s| <= MAX_STRING
       case ArrayItem(w, items) => ArgumentFits(w, |items|) && |items| <= MAX_ITEMS && AllWellFormed(items, depth + 1)
       case MapItem(w, pairs) => ArgumentFits(w, |pairs|) && |pairs| <= MAX_ITEMS && PairsWellFormed(pairs, depth + 1)
       case TagItem(w, tag, inner) => ArgumentFits(w, tag) && WellFormed(inner, depth + 1)
       case SimpleItem(w, arg) => ArgumentFits(w, arg) && 20 <= arg <= 23
  }

  predicate AllWellFormed(items: seq<Item>, depth: nat)
    decreases items
  {
    items == [] || (WellFormed(items[0], depth) && AllWellFormed(items[1..], depth))
  }

  predicate PairWellFormed(p: Pair, depth: nat)
    decreases p
  {
    WellFormed(p.key, depth) && WellFormed(p.value, depth) && PairKey(p).Some?
  }

  predicate PairsWellFormed(pairs: seq<Pair>, depth: nat)
    decreases pairs
  {
    pairs == [] || (PairWellFormed(pairs[0], depth) && PairsWellFormed(pairs[1..], depth))
  }

  /** The value an item denotes. */
  function Meaning(i: Item): Value
    decreases i
  {
    match i
    case IntItem(_, negative, arg) => if negative then Int(-1 - arg) else Int(arg)
    case StringItem(_, text, s) => if text then Text(s) else Bytes(s)
    case ArrayItem(_, items) => Array(Meanings(items))
    case MapItem(_, pairs) => Map(Entries(pairs, map[]))
    case TagItem(_, _, inner) => Meaning(inner)
    case SimpleItem(_, arg) => if arg == 20 then Bool(false) else if arg == 21 then Bool(true) else Null
  }

  function Meanings(items: seq<Item>): (r: seq<Value>)
    ensures |r| == |items|
    decreases items
  {
    if items == [] then [] else [Meaning(items[0])] + Meanings(items[1..])
  }

  function PairKey(p: Pair): Option<Key>
    decreases p
  {
    KeyOf(Meaning(p.key))
  }

  function PairValue(p: Pair): Value
    decreases p
  {
    Meaning(p.value)
  }

  function Entries(pairs: seq<Pair>, acc: map<Key, Value>): map<Key, Value>
    decreases pairs
  {
    if pairs == [] then acc
    else
      var k := PairKey(pairs[0]);
      Entries(pairs[1..], if k.None? then acc else acc[k.value := PairValue(pairs[0])])
  }

  function Encode(i: Item, depth: nat): (r: bytes)
    requires WellFormed(i, depth)
    ensures |r| > 0
    decreases i
  {
    match i
    case IntItem(w, negative, arg) => HeadBytes(if negative then 1 else 0, w, arg)
    case StringItem(w, text, s) => HeadBytes(if text then 3 else 2, w, |s|) + s
    case ArrayItem(w, items) => HeadBytes(4, w, |items|) + EncodeItems(items, depth + 1)
    case MapItem(w, pairs) => HeadBytes(5, w, |pairs|) + EncodePairs(pairs, depth + 1)
    case TagItem(w, tag, inner) => HeadBytes(6, w, tag) + Encode(inner, depth + 1)
    case SimpleItem(w, arg) => HeadBytes(7, w, arg)
  }

  function EncodeItems(items: seq<Item>, depth: nat): bytes
    requires AllWellFormed(items, depth)
    decreases items
  {
    if items == [] then [] else Encode(items[0], depth) + EncodeItems(items[1..], depth)
  }

  function EncodePair(p: Pair, depth: nat): (r: bytes)
    requires PairWellFormed(p, depth)
    decreases p
  {
    Encode(p.key, depth) + Encode(p.value, depth)
  }

  function EncodePairs(pairs: seq<Pair>, depth: nat): bytes
    requires PairsWellFormed(pairs, depth)
    decreases pairs
  {
    if pairs == [] then [] else EncodePair(pairs[0], depth) + EncodePairs(pairs[1..], depth)
  }

  /* ---------------------------------------------- decoding undoes encoding --- */

  ghost predicate Holds(b: bytes, pos: nat, s: bytes) {
    pos + |s| <= |b| && b[pos..pos + |s|] == s
  }

  lemma HoldsSplit(b: bytes, pos: nat, s: bytes, t: bytes)
    ensures Holds(b, pos, s + t) <==> Holds(b, pos, s) && Holds(b, pos + |s|, t)
  {
    if pos + |s| + |t| <= |b| {
      var whole := b[pos..pos + |s| + |t|];
      assert whole[..|s|] == b[pos..pos + |s|] && whole[|s|..] == b[pos + |s|..pos + |s| + |t|];
      assert whole == whole[..|s|] + whole[|s|..];
      assert (s + t)[..|s|] == s && (s + t)[|s|..] == t;
    }
  }

  lemma HoldsMeans(b: bytes, pos: nat, s: bytes)
    ensures Holds(b, pos, s) <==> pos + |s| <= |b| && b[pos..pos + |s|] == s
    ensures pos <= |b| ==> Holds(b, pos, [])
  {
  }

  lemma HeadReads(b: bytes, pos: nat, major: nat, w: Width, arg: nat)
    requires major < 8 && ArgumentFits(w, arg)
    requires Holds(b, pos, HeadBytes(major, w, arg))
    ensures HeadAt(b, pos) == Good(Argument(major, arg), pos + 1 + Extra(w))
  {
    var h := HeadBytes(major, w, arg);
    assert b[pos] == b[pos..pos + |h|][0] == h[0];
    assert b[pos + 1..pos + |h|] == b[pos..pos + |h|][1..] == h[1..];
    assert h[0] / 32 == major && h[0] % 32 == Info(w, arg);
    if !w.W0? {
      assert h[1..] == ToBigEndian(arg, Extra(w));
    }
  }

  lemma HeadThen(b: bytes, pos: nat, major: nat, w: Width, arg: nat, rest: bytes)
    requires major < 8 && ArgumentFits(w, arg)
    ensures Holds(b, pos, HeadBytes(major, w, arg) + rest) ==>
      HeadAt(b, pos) == Good(Argument(major, arg), pos + 1 + Extra(w)) && Holds(b, pos + 1 + Extra(w), rest)
    ensures Holds(b, pos, HeadBytes(major, w, arg)) && Holds(b, pos + 1 + Extra(w), rest) ==>
      Holds(b, pos, HeadBytes(major, w, arg) + rest)
  {
    hide HeadAt, HeadBytes, Holds;
    HoldsSplit(b, pos, HeadBytes(major, w, arg), rest);
    if Holds(b, pos, HeadBytes(major, w, arg)) {
      HeadReads(b, pos, major, w, arg);
    }
  }

  predicate IsLeaf(i: Item) {
    i.IntItem? || i.StringItem? || i.SimpleItem?
  }

  lemma DecodesLeaf(b: bytes, pos: nat, i: Item, depth: nat)
    requires IsLeaf(i) && WellFormed(i, depth) && Holds(b, pos, Encode(i, depth))
    ensures DecodeAt(b, pos, depth) == Good(Meaning(i), pos + |Encode(i, depth)|)
  {
    hide HeadAt, HeadBytes, Power256, ArgumentFits, Holds, DecodeItems, DecodePairs;
    match i
    case IntItem(w, negative, arg) =>
      HeadReads(b, pos, if negative then 1 else 0, w, arg);
    case StringItem(w, text, s) =>
      HeadThen(b, pos, if text then 3 else 2, w, |s|, s);
      HoldsMeans(b, pos + 1 + Extra(w), s);
    case SimpleItem(w, arg) =>
      HeadReads(b, pos, 7, w, arg);
  }

  /** What is encoded is decoded: same value, and exactly the bytes of the encoding are used. */
  lemma {:induction false} DecodesItem(b: bytes, pos: nat, i: Item, depth: nat)
    requires WellFormed(i, depth) && Holds(b, pos, Encode(i, depth))
    ensures DecodeAt(b, pos, depth) == Good(Meaning(i), pos + |Encode(i, depth)|)
    decreases i
  {
    hide HeadAt, HeadBytes, Holds, DecodeItems, DecodePairs, EncodeItems, EncodePairs, AllWellFormed, PairsWellFormed, Meanings, Entries, ArgumentFits, SimpleAt, StringAt;
    if IsLeaf(i) {
      DecodesLeaf(b, pos, i, depth);
    } else if i.ArrayItem? {
      HeadThen(b, pos, 4, i.w, |i.items|, EncodeItems(i.items, depth + 1));
      DecodesItems(b, pos + 1 + Extra(i.w), i.items, depth + 1, []);
      assert [] + Meanings(i.items) == Meanings(i.items);
    } else if i.MapItem? {
      HeadThen(b, pos, 5, i.w, |i.pairs|, EncodePairs(i.pairs, depth + 1));
      DecodesPairs(b, pos + 1 + Extra(i.w), i.pairs, depth + 1, map[]);
    } else {
      HeadThen(b, pos, 6, i.w, i.tag, Encode(i.inner, depth + 1));
      DecodesItem(b, pos + 1 + Extra(i.w), i.inner, depth + 1);
    }
  }

  lemma {:induction false} DecodesItems(b: bytes, pos: nat, items: seq<Item>, depth: nat, acc: seq<Value>)
    requires depth <= MAX_DEPTH + 1 && AllWellFormed(items, depth) && Holds(b, pos, EncodeItems(items, depth))
    ensures DecodeItems(b, pos, depth, |items|, acc) == Good(Array(acc + Meanings(items)), pos + |EncodeItems(items, depth)|)
    decreases items
  {
    hide DecodeAt, Meaning, Encode, WellFormed, Holds;
    if items == [] {
      assert acc + [] == acc;
    } else {
      var e := Encode(items[0], depth);
      HoldsSplit(b, pos, e, EncodeItems(items[1..], depth));
      DecodesItem(b, pos, items[0], depth);
      DecodesItems(b, pos + |e|, items[1..], depth, acc + [Meaning(items[0])]);
      assert acc + Meanings(items) == acc + [Meaning(items[0])] + Meanings(items[1..]);
    }
  }

  lemma {:induction false} DecodesPair(b: bytes, pos: nat, p: Pair, depth: nat)
    requires PairWellFormed(p, depth) && Holds(b, pos, EncodePair(p, depth))
    ensures var mid := pos + |Encode(p.key, depth)|;
      && DecodeAt(b, pos, depth) == Good(Meaning(p.key), mid)
      && DecodeAt(b, mid, depth) == Good(Meaning(p.value), pos + |EncodePair(p, depth)|)
    decreases p
  {
    hide DecodeAt, Meaning, Encode, WellFormed, Holds;
    HoldsSplit(b, pos, Encode(p.key, depth), Encode(p.value, depth));
    DecodesItem(b, pos, p.key, depth);
    DecodesItem(b, pos + |Encode(p.key, depth)|, p.value, depth);
  }

  lemma {:induction false} DecodesPairs(b: bytes, pos: nat, pairs: seq<Pair>, depth: nat, acc: map<Key, Value>)
    requires depth <= MAX_DEPTH + 1 && PairsWellFormed(pairs, depth) && Holds(b, pos, EncodePairs(pairs, depth))
    ensures DecodePairs(b, pos, depth, |pairs|, acc) == Good(Map(Entries(pairs, acc)), pos + |EncodePairs(pairs, depth)|)
    decreases pairs
  {
    hide DecodeAt, Meaning, Encode, WellFormed, Holds, EncodePair;
    if pairs != [] {
      var e := EncodePair(pairs[0], depth);
      HoldsSplit(b, pos, e, EncodePairs(pairs[1..], depth));
      DecodesPair(b, pos, pairs[0], depth);
      DecodesPairs(b, pos + |e|, pairs[1..], depth, acc[PairKey(pairs[0]).value := PairValue(pairs[0])]);
    }
  }

  /* ------------------------------------- nothing but encodings is decoded --- */

  lemma {:induction false} BigEndianBound(s: bytes)
    ensures BigEndian(s) < Power256(|s|)
  {
    if s != [] {
      BigEndianBound(s[..|s| - 1]);
    }
  }

  lemma {:induction false} ToBigEndianUndoes(s: bytes)
    ensures BigEndian(s) < Power256(|s|) && ToBigEndian(BigEndian(s), |s|) == s
  {
    BigEndianBound(s);
    if s != [] {
      var front := s[..|s| - 1];
      ToBigEndianUndoes(front);
      assert BigEndian(s) / 256 == BigEndian(front) && BigEndian(s) % 256 == s[|s| - 1];
      assert s == front + [s[|s| - 1]];
    }
  }

  lemma WideHead(b: bytes, pos: nat, w: Width, major: nat)
    requires major < 8 && !w.W0? && pos + 1 + Extra(w) <= |b| && b[pos] == major * 32 + Info(w, 0)
    ensures var arg := BigEndian(b[pos + 1..pos + 1 + Extra(w)]);
      ArgumentFits(w, arg) && Holds(b, pos, HeadBytes(major, w, arg))
  {
    hide Power256, BigEndian, ToBigEndian;
    var tail := b[pos + 1..pos + 1 + Extra(w)];
    ToBigEndianUndoes(tail);
    assert b[pos..pos + 1 + Extra(w)] == [b[pos]] + tail;
  }

  /** Every head that is read was written by `HeadBytes` in one of the five widths. */
  lemma HeadWasWritten(b: bytes, pos: nat) returns (w: Width)
    requires HeadAt(b, pos).Good?
    ensures var h := HeadAt(b, pos);
      && h.value.major < 8 && ArgumentFits(w, h.value.arg)
      && h.pos == pos + 1 + Extra(w) && Holds(b, pos, HeadBytes(h.value.major, w, h.value.arg))
  {
    var info := b[pos] % 32;
    if info < 24 {
      w := W0;
      assert b[pos..pos + 1] == [b[pos]];
    } else {
      w := if info == 24 then W1 else if info == 25 then W2 else if info == 26 then W4 else W8;
      assert Extra(w) == ArgumentWidth(info);
      WideHead(b, pos, w, b[pos] / 32);
    }
  }

  lemma LeafWasEncoded(b: bytes, pos: nat, depth: nat) returns (i: Item)
    requires depth <= MAX_DEPTH && DecodeAt(b, pos, depth).Good?
    requires HeadAt(b, pos).value.major !in {4, 5, 6}
    ensures WellFormed(i, depth) && Holds(b, pos, Encode(i, depth))
  {
    hide HeadAt, HeadBytes, Power256, DecodeItems, DecodePairs;
    var head := HeadAt(b, pos);
    var w := HeadWasWritten(b, pos);
    var major, arg, p := head.value.major, head.value.arg, head.pos;
    if major <= 1 {
      i := IntItem(w, major == 1, arg);
    } else if major <= 3 {
      var s := b[p..p + arg];
      i := StringItem(w, major == 3, s);
      HoldsSplit(b, pos, HeadBytes(major, w, arg), s);
    } else {
      i := SimpleItem(w, arg);
    }
  }

  /** Whatever decodes is the encoding of an item within the limits. */
  lemma {:induction false} DecodedWasEncoded(b: bytes, pos: nat, depth: nat) returns (i: Item)
    requires depth <= MAX_DEPTH + 1 && DecodeAt(b, pos, depth).Good?
    ensures WellFormed(i, depth) && Holds(b, pos, Encode(i, depth))
    ensures DecodeAt(b, pos, depth) == Good(Meaning(i), pos + |Encode(i, depth)|)
    decreases MAX_DEPTH + 1 - depth, 0
  {
    hide HeadAt, HeadBytes, Holds, DecodeItems, DecodePairs, EncodeItems, EncodePairs, AllWellFormed, PairsWellFormed, Meanings, Entries, ArgumentFits, SimpleAt, StringAt, Meaning;
    var head := HeadAt(b, pos);
    var major, arg, p := head.value.major, head.value.arg, head.pos;
    if major !in {4, 5, 6} {
      i := LeafWasEncoded(b, pos, depth);
    } else {
      var w := HeadWasWritten(b, pos);
      if major == 4 {
        var items := ItemsWereEncoded(b, p, depth + 1, arg, []);
        i := ArrayItem(w, items);
        HeadThen(b, pos, 4, w, arg, EncodeItems(items, depth + 1));
      } else if major == 5 {
        var pairs := PairsWereEncoded(b, p, depth + 1, arg, map[]);
        i := MapItem(w, pairs);
        HeadThen(b, pos, 5, w, arg, EncodePairs(pairs, depth + 1));
      } else {
        var inner := DecodedWasEncoded(b, p, depth + 1);
        i := TagItem(w, arg, inner);
        HeadThen(b, pos, 6, w, arg, Encode(inner, depth + 1));
      }
    }
    DecodesItem(b, pos, i, depth);
  }

  lemma {:induction false} ItemsWereEncoded(b: bytes, pos: nat, depth: nat, n: nat, acc: seq<Value>) returns (items: seq<Item>)
    requires depth <= MAX_DEPTH + 1 && pos <= |b| && DecodeItems(b, pos, depth, n, acc).Good?
    ensures |items| == n && AllWellFormed(items, depth) && Holds(b, pos, EncodeItems(items, depth))
    decreases MAX_DEPTH + 1 - depth, n + 1
  {
    hide DecodeAt, Meaning, Encode, WellFormed, Holds;
    if n == 0 {
      items := [];
      HoldsMeans(b, pos, []);
    } else {
      var v := DecodeAt(b, pos, depth);
      var first := DecodedWasEncoded(b, pos, depth);
      var rest := ItemsWereEncoded(b, v.pos, depth, n - 1, acc + [v.value]);
      items := [first] + rest;
      assert items[1..] == rest;
      HoldsSplit(b, pos, Encode(first, depth), EncodeItems(rest, depth));
    }
  }

  lemma {:induction false} PairsWereEncoded(b: bytes, pos: nat, depth: nat, n: nat, acc: map<Key, Value>) returns (pairs: seq<Pair>)
    requires depth <= MAX_DEPTH + 1 && pos <= |b| && DecodePairs(b, pos, depth, n, acc).Good?
    ensures |pairs| == n && PairsWellFormed(pairs, depth) && Holds(b, pos, EncodePairs(pairs, depth))
    decreases MAX_DEPTH + 1 - depth, n + 1
  {
    hide DecodeAt, Meaning, Encode, WellFormed, Holds, EncodePair;
    if n == 0 {
      pairs := [];
      HoldsMeans(b, pos, []);
    } else {
      var k := DecodeAt(b, pos, depth);
      var v := DecodeAt(b, k.pos, depth);
      var p := PairWasEncoded(b, pos, depth);
      var rest := PairsWereEncoded(b, v.pos, depth, n - 1, acc[KeyOf(k.value).value := v.value]);
      pairs := [p] + rest;
      assert pairs[1..] == rest;
      HoldsSplit(b, pos, EncodePair(p, depth), EncodePairs(rest, depth));
    }
  }

  lemma {:induction false} PairWasEncoded(b: bytes, pos: nat, depth: nat) returns (p: Pair)
    requires depth <= MAX_DEPTH + 1 && DecodeAt(b, pos, depth).Good?
    requires var k := DecodeAt(b, pos, depth); DecodeAt(b, k.pos, depth).Good? && KeyOf(k.value).Some?
    ensures PairWellFormed(p, depth) && Holds(b, pos, EncodePair(p, depth))
    ensures DecodeAt(b, DecodeAt(b, pos, depth).pos, depth).pos == pos + |EncodePair(p, depth)|
    decreases MAX_DEPTH + 1 - depth, 1
  {
    hide DecodeAt, Encode, WellFormed, Holds;
    var key := DecodedWasEncoded(b, pos, depth);
    var value := DecodedWasEncoded(b, DecodeAt(b, pos, depth).pos, depth);
    p := Pair(key, value);
    HoldsSplit(b, pos, Encode(key, depth), Encode(value, depth));
  }

  /**
   * Exactly the encodings within the limits decode, at whatever position: the accepted language and
   * the values given to it, both ways.
   */
  lemma DecodesExactlyEncodings(b: bytes, pos: nat, v: Value, end: nat)
    ensures DecodeAt(b, pos, 0) == Good(v, end) <==>
      exists i :: WellFormed(i, 0) && Holds(b, pos, Encode(i, 0)) && end == pos + |Encode(i, 0)| && v == Meaning(i)
  {
    hide DecodeAt, Encode, WellFormed, Holds, Meaning;
    if DecodeAt(b, pos, 0).Good? {
      var i := DecodedWasEncoded(b, pos, 0);
    }
    forall i | WellFormed(i, 0) && Holds(b, pos, Encode(i, 0)) && end == pos + |Encode(i, 0)| && v == Meaning(i)
      ensures DecodeAt(b, pos, 0) == Good(v, end)
    {
      DecodesItem(b, pos, i, 0);
    }
  }
}
