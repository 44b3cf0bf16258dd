/**
 * A client connection read through a fixed-size buffer. The network delivers the client's bytes in
 * segments of any size; a read that needs more takes what one segment offers.
 */
module BufferedStream {
  import opened ByteStrings

  function Flatten(segments: seq<bytes>): bytes {
    if segments == [] then [] else segments[0] + Flatten(segments[1..])
  }

  predicate NoneEmpty(segments: seq<bytes>) {
    forall i :: 0 <= i < |segments| ==> segments[i] != []
  }

  /** A segment ends `n` bytes on. */
  predicate Ends(segments: seq<bytes>, n: nat) {
    n == 0 || (segments != [] && |segments[0]| <= n && Ends(segments[1..], n - |segments[0]|))
  }

  lemma EndsSimply(segments: seq<bytes>)
    ensures Ends(segments, 0)
    ensures segments == [] ==> forall n: nat :: Ends(segments, n) ==> n == 0
  {
  }

  /** That is, some of the segments together have `n` bytes. */
  lemma {:induction false} EndsIff(segments: seq<bytes>, n: nat)
    ensures Ends(segments, n) <==> exists k :: 0 <= k <= |segments| && |Flatten(segments[..k])| == n
  {
    if n == 0 {
      assert |Flatten(segments[..0])| == 0;
    } else if segments == [] {
      assert forall k :: 0 <= k <= |segments| ==> segments[..k] == [];
    } else {
      forall k | 0 < k <= |segments| ensures |Flatten(segments[..k])| == |segments[0]| + |Flatten(segments[1..][..k - 1])| {
        assert segments[..k][1..] == segments[1..][..k - 1];
      }
      if |segments[0]| <= n {
        EndsIff(segments[1..], n - |segments[0]|);
        if k :| 0 <= k <= |segments[1..]| && |Flatten(segments[1..][..k])| == n - |segments[0]| {
          assert |Flatten(segments[..k + 1])| == n;
        }
      }
    }
  }

  /** Filling a buffer of this size that holds `held` bytes up to `n` meets a segment that does not fit any more. */
  predicate Overflows(size: nat, held: nat, segments: seq<bytes>, n: nat)
    decreases |segments|
  {
    && held < n && segments != []
    && (held + |segments[0]| > size || Overflows(size, held + |segments[0]|, segments[1..], n))
  }

  class Reader {
    const size: nat
    var buffered: bytes
    var segments: seq<bytes>

    ghost predicate Valid()
      reads this
    {
      0 < size && |buffered| <= size && NoneEmpty(segments)
    }

    /** Everything the client sent that has not been handed out yet. */
    function Remaining(): bytes
      reads this
    {
      buffered + Flatten(segments)
    }

    /** What the network delivered together, and what is already here, ends `n` bytes on. */
    predicate EndsAt(n: nat)
      reads this
    {
      |buffered| <= n && Ends(segments, n - |buffered|)
    }

    /**
     * Looking at the first four bytes and then taking `n` leaves nothing buffered: the network delivered nothing
     * else together with the last of them, or they fill the buffer and the look cut off what came behind.
     */
    predicate NothingBehind(n: nat)
      reads this
    {
      EndsAt(n) || (n == size && Overflows(size, |buffered|, segments, 4))
    }

    constructor (size: nat, segments: seq<bytes>)
      requires 0 < size && NoneEmpty(segments)
      ensures Valid() && this.size == size && Remaining() == Flatten(segments)
    {
      this.size := size;
      this.buffered := [];
      this.segments := segments;
    }

    /** One read of the socket into the free part of the buffer. False at the end of the stream. */
    method Fill() returns (more: bool)
      requires Valid() && |buffered| < size
      modifies this
      ensures Valid() && Remaining() == old(Remaining())
      ensures more ==> |buffered| > |old(buffered)|
      ensures !more ==> segments == [] && buffered == old(buffered)
      ensures old(buffered) <= buffered
      ensures forall n: nat :: |old(buffered)| < n && n != size ==> EndsAt(n) == old(EndsAt(n))
      ensures EndsAt(size) <==> old(EndsAt(size)) || (more && |old(buffered)| + |old(segments)[0]| > size)
      ensures more && |old(buffered)| + |old(segments)[0]| <= size ==>
        segments == old(segments)[1..] && |buffered| == |old(buffered)| + |old(segments)[0]|
      ensures more && |old(buffered)| + |old(segments)[0]| > size ==> |buffered| == size
    {
      if segments == [] {
        return false;
      }
      var room := size - |buffered|;
      var first := segments[0];
      if |first| <= room {
        buffered := buffered + first;
        segments := segments[1..];
      } else {
        buffered := buffered + first[..room];
        segments := [first[room..]] + segments[1..];
        assert segments[1..] == old(segments)[1..];
        assert first == first[..room] + first[room..];
      }
      return true;
    }

    /** The next `n` bytes without consuming them, or what there is when the stream ends first. */
    method Peek(n: nat) returns (b: bytes)
      requires Valid() && n <= size
      modifies this
      ensures Valid() && Remaining() == old(Remaining())
      ensures |b| <= n && b <= Remaining()
      ensures |b| == n <==> n <= |Remaining()|
      ensures |b| <= |buffered|
      ensures forall k: nat :: n <= k < size ==> EndsAt(k) == old(EndsAt(k))
      ensures n < size ==> (EndsAt(size) <==> old(EndsAt(size)) || old(Overflows(size, |buffered|, segments, n)))
    {
      var more := true;
      while |buffered| < n && more
        invariant Valid() && Remaining() == old(Remaining())
        invariant forall k: nat :: n <= k < size ==> EndsAt(k) == old(EndsAt(k))
        invariant EndsAt(size) || Overflows(size, |buffered|, segments, n)
             <==> old(EndsAt(size)) || old(Overflows(size, |buffered|, segments, n))
        invariant !more ==> segments == []
        decreases more, n - |buffered|
      {
        more := Fill();
      }
      b := if |buffered| < n then buffered else buffered[..n];
    }

    /** One `Read` into a slice of length `max`: at least a byte unless the stream has ended. */
    method Read(max: nat) returns (b: bytes)
      requires Valid() && 0 < max
      modifies this
      ensures Valid() && |b| <= max
      ensures b + Remaining() == old(Remaining())
      ensures b == [] <==> old(Remaining()) == []
      ensures forall n: nat :: 0 < n && |b| <= n && (n < size || (n == size && old(buffered) != [])) ==> EndsAt(n - |b|) == old(EndsAt(n))
      ensures b == [] ==> buffered == old(buffered) == [] && segments == old(segments) == []
    {
      hide Ends;
      if buffered == [] {
        var more := Fill();
        if !more {
          return [];
        }
      }
      var n := if |buffered| < max then |buffered| else max;
      b := buffered[..n];
      ghost var before := buffered;
      buffered := buffered[n..];
      assert before == b + buffered;
    }

    /** `io.ReadFull`: `n` bytes, or what there was when the stream ended first. */
    method ReadFull(n: nat) returns (b: bytes)
      requires Valid()
      modifies this
      ensures Valid() && |b| <= n
      ensures b + Remaining() == old(Remaining())
      ensures |b| < n ==> Remaining() == []
      ensures 0 < n && (n < size || (n == size && old(buffered) != [])) ==> (|b| == n && buffered == [] <==> old(EndsAt(n)))
    {
      hide Ends, Flatten;
      EndsSimply(segments);
      b := [];
      while |b| < n
        invariant Valid() && |b| <= n
        invariant b == [] ==> buffered == old(buffered)
        invariant 0 < n && (n < size || (n == size && old(buffered) != [])) ==> EndsAt(n - |b|) == old(EndsAt(n))
        invariant b + Remaining() == old(Remaining())
        decreases n - |b|
      {
        var part := Read(n - |b|);
        if part == [] {
          EndsSimply(segments);
          return;
        }
        b := b + part;
      }
      EndsSimply(segments);
    }
  }
}
