/** The CBOR reader object: a position moving over untrusted bytes. */
module CborReader {
  import opened ByteStrings
  import opened Cbor

  datatype Outcome<T> = Ok(value: T) | Fail(error: Error)

  lemma OneByte(c: byte)
    ensures BigEndian([c]) == c
  {
    assert [c][..0] == [];
  }

  class Reader {
    const b: bytes
    var pos: nat

    /** How often `Value` has been entered. */
    ghost var calls: nat

    constructor (b: bytes)
      ensures this.b == b && pos == 0 && calls == 0
    {
      this.b := b;
      pos := 0;
      calls := 0;
    }

    method Byte() returns (r: Outcome<byte>)
      requires pos <= |b|
      modifies this`pos
      ensures pos <= |b|
      ensures old(pos) < |b| ==> r == Ok(b[old(pos)]) && pos == old(pos) + 1
      ensures old(pos) == |b| ==> r == Fail(OutOfBytes) && pos == old(pos)
    {
      if pos >= |b| {
        return Fail(OutOfBytes);
      }
      var c := b[pos];
      pos := pos + 1;
      return Ok(c);
    }

    method Take(n: int) returns (r: Outcome<bytes>)
      requires pos <= |b|
      modifies this`pos
      ensures pos <= |b|
      ensures 0 <= n <= |b| - old(pos) ==> r == Ok(b[old(pos)..old(pos) + n]) && pos == old(pos) + n
      ensures !(0 <= n <= |b| - old(pos)) ==> r == Fail(OutOfBytes) && pos == old(pos)
    {
      if n < 0 || pos + n > |b| {
        return Fail(OutOfBytes);
      }
      var out := b[pos..pos + n];
      pos := pos + n;
      return Ok(out);
    }

    method Head() returns (r: Outcome<Argument>)
      requires pos <= |b|
      modifies this`pos
      ensures pos <= |b|
      ensures match HeadAt(b, old(pos))
              case Good(a, p) => r == Ok(a) && pos == p
              case Bad(e) => r == Fail(e) && old(pos) <= pos
    {
      var c := Byte();
      if c.Fail? {
        return Fail(c.error);
      }
      var major, info := c.value / 32, c.value % 32;
      if info < 24 {
        return Ok(Argument(major, info));
      } else if info == 24 {
        var x := Byte();
        if x.Fail? {
          return Fail(x.error);
        }
        assert b[pos - 1..pos] == [x.value];
        OneByte(x.value);
        return Ok(Argument(major, x.value));
      } else if info > 27 {
        return Fail(UnsupportedInfo);
      }
      var x := Take(ArgumentWidth(info));
      if x.Fail? {
        return Fail(x.error);
      }
      return Ok(Argument(major, BigEndian(x.value)));
    }

    /**
     * One item. It follows `DecodeAt` on any bytes whatever, never leaves them, and is entered at most
     * once for each byte it uses and once more when it fails, however the limits nest.
     */
    method Value(depth: nat) returns (r: Outcome<Value>)
      requires pos <= |b| && depth <= MAX_DEPTH + 1
      modifies this
      ensures old(pos) <= pos <= |b|
      ensures match DecodeAt(b, old(pos), depth)
              case Good(v, p) => r == Ok(v) && pos == p
              case Bad(e) => r == Fail(e)
      ensures r.Ok? ==> calls - old(calls) <= pos - old(pos)
      ensures r.Fail? ==> calls - old(calls) <= |b| - old(pos) + 1
      decreases MAX_DEPTH + 1 - depth, 0
    {
      calls := calls + 1;
      if depth > MAX_DEPTH {
        return Fail(TooDeep);
      }
      var head := Head();
      if head.Fail? {
        return Fail(head.error);
      }
      var arg := head.value.arg;
      match head.value.major {
        case 0 =>
          if arg > MAX_INT64 {
            return Fail(OutOfRange);
          }
          return Ok(Int(arg));
        case 1 =>
          if arg > MAX_INT64 - 1 {
            return Fail(OutOfRange);
          }
          return Ok(Int(-1 - arg));
        case 2 =>
          r := String(arg, false);
        case 3 =>
          r := String(arg, true);
        case 4 =>
          if arg > MAX_ITEMS {
            return Fail(TooMany);
          }
          r := ArrayItems(depth + 1, arg);
        case 5 =>
          if arg > MAX_ITEMS {
            return Fail(TooMany);
          }
          r := MapPairs(depth + 1, arg);
        case 6 =>
          r := Value(depth + 1);
        case _ =>
          if arg == 20 {
            return Ok(Bool(false));
          } else if arg == 21 {
            return Ok(Bool(true));
          } else if arg == 22 || arg == 23 {
            return Ok(Null);
          }
          return Fail(UnsupportedSimple);
      }
    }

    method String(n: nat, text: bool) returns (r: Outcome<Value>)
      requires pos <= |b|
      modifies this`pos
      ensures old(pos) <= pos <= |b|
      ensures match StringAt(b, old(pos), n, text)
              case Good(v, p) => r == Ok(v) && pos == p
              case Bad(e) => r == Fail(e)
    {
      if n > MAX_STRING {
        return Fail(TooLong);
      }
      var s := Take(n);
      if s.Fail? {
        return Fail(s.error);
      }
      return Ok(if text then Text(s.value) else Bytes(s.value));
    }

    method ArrayItems(depth: nat, n: nat) returns (r: Outcome<Value>)
      requires pos <= |b| && depth <= MAX_DEPTH + 1
      modifies this
      ensures old(pos) <= pos <= |b|
      ensures match DecodeItems(b, old(pos), depth, n, [])
              case Good(v, p) => r == Ok(v) && pos == p
              case Bad(e) => r == Fail(e)
      ensures r.Ok? ==> calls - old(calls) <= pos - old(pos)
      ensures r.Fail? ==> calls - old(calls) <= |b| - old(pos) + 1
      decreases MAX_DEPTH + 1 - depth, 1
    {
      hide DecodeAt;
      var out: seq<Value> := [];
      var i := 0;
      while i < n
        invariant 0 <= i <= n && old(pos) <= pos <= |b|
        invariant DecodeItems(b, old(pos), depth, n, []) == DecodeItems(b, pos, depth, n - i, out)
        invariant calls - old(calls) <= pos - old(pos)
      {
        var v := Value(depth);
        if v.Fail? {
          return Fail(v.error);
        }
        out := out + [v.value];
        i := i + 1;
      }
      return Ok(Array(out));
    }

    method MapPairs(depth: nat, n: nat) returns (r: Outcome<Value>)
      requires pos <= |b| && depth <= MAX_DEPTH + 1
      modifies this
      ensures old(pos) <= pos <= |b|
      ensures match DecodePairs(b, old(pos), depth, n, map[])
              case Good(v, p) => r == Ok(v) && pos == p
              case Bad(e) => r == Fail(e)
      ensures r.Ok? ==> calls - old(calls) <= pos - old(pos)
      ensures r.Fail? ==> calls - old(calls) <= |b| - old(pos) + 1
      decreases MAX_DEPTH + 1 - depth, 1
    {
      hide DecodeAt;
      var out: map<Key, Value> := map[];
      var i := 0;
      while i < n
        invariant 0 <= i <= n && old(pos) <= pos <= |b|
        invariant DecodePairs(b, old(pos), depth, n, map[]) == DecodePairs(b, pos, depth, n - i, out)
        invariant calls - old(calls) <= pos - old(pos)
      {
        var k := Value(depth);
        if k.Fail? {
          return Fail(k.error);
        }
        var v := Value(depth);
        if v.Fail? {
          return Fail(v.error);
        }
        match k.value {
          case Int(m) => out := out[IntKey(m) := v.value];
          case Text(s) => out := out[TextKey(s) := v.value];
          case _ => return Fail(UnusableKey);
        }
        i := i + 1;
      }
      return Ok(Map(out));
    }
  }

  /**
   * `decodeCBORMap`: a COSE key or an attestation object. Bytes behind the map are ignored, and the
   * reader was entered at most `|b| + 1` times.
   */
  method DecodeMap(b: bytes) returns (r: Outcome<map<Key, Value>>, ghost calls: nat)
    ensures r.Ok? <==> DecodeAt(b, 0, 0).Good? && DecodeAt(b, 0, 0).value.Map?
    ensures r.Ok? ==> DecodeAt(b, 0, 0).value == Map(r.value)
    ensures r.Fail? ==> r.error == (if DecodeAt(b, 0, 0).Bad? then DecodeAt(b, 0, 0).error else NotAMap)
    ensures calls <= |b| + 1
  {
    hide DecodeAt;
    var reader := new Reader(b);
    var v := reader.Value(0);
    calls := reader.calls;
    if v.Fail? {
      return Fail(v.error), calls;
    }
    if !v.value.Map? {
      return Fail(NotAMap), calls;
    }
    return Ok(v.value.entries), calls;
  }
}
