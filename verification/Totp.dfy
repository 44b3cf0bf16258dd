/**
 * The one-time code check: which 30-second steps are tried, in which order, and what a replay is.
 * Whether a code belongs to a step of a secret is a parameter, `accepts`.
 */
module Totp {

  const PERIOD := 30

  type Accepts = (string, int, string) -> bool

  datatype Verdict = Accepted(step: int) | Replayed | BadCode

  /** Step offsets, nearest first and the past before the future. */
  function Window(skew: nat): (w: seq<int>)
    ensures |w| == 2 * skew + 1
  {
    if skew == 0 then [0] else Window(skew - 1) + [-(skew as int), skew]
  }

  method BuildWindow(skew: nat) returns (w: seq<int>)
    ensures w == Window(skew)
  {
    w := [0];
    var i := 1;
    while i <= skew
      invariant 1 <= i <= skew + 1
      invariant w == Window(i - 1)
    {
      w := w + [-i, i];
      i := i + 1;
    }
  }

  /** What the walk over the offsets answers: the first step the code belongs to decides. */
  function Walk(accepts: Accepts, secret: string, code: string, last: int, step: int, w: seq<int>): Verdict {
    if w == [] then BadCode
    else if accepts(secret, step + w[0], code) then
      if step + w[0] <= last then Replayed else Accepted(step + w[0])
    else Walk(accepts, secret, code, last, step, w[1..])
  }

  function Verified(accepts: Accepts, skew: nat, secret: string, code: string, last: int, seconds: int): Verdict {
    Walk(accepts, secret, code, last, seconds / PERIOD, Window(skew))
  }

  method Verify(accepts: Accepts, skew: nat, secret: string, code: string, last: int, seconds: int)
    returns (v: Verdict)
    ensures v == Verified(accepts, skew, secret, code, last, seconds)
  {
    var step := seconds / PERIOD;
    var w := BuildWindow(skew);
    var i := 0;
    while i < |w|
      invariant 0 <= i <= |w|
      invariant Walk(accepts, secret, code, last, step, w) == Walk(accepts, secret, code, last, step, w[i..])
    {
      var c := step + w[i];
      assert w[i..][1..] == w[i + 1..];
      if accepts(secret, c, code) {
        if c <= last {
          return Replayed;
        }
        return Accepted(c);
      }
      i := i + 1;
    }
    return BadCode;
  }

  /** Offset `a` is tried before offset `b`. */
  predicate Before(a: int, b: int) {
    Distance(a) < Distance(b) || (Distance(a) == Distance(b) && a < b)
  }

  function Distance(a: int): nat {
    if a < 0 then -a else a
  }

  lemma {:induction false} WindowOrder(skew: nat)
    ensures forall off :: off in Window(skew) <==> Distance(off) <= skew
    ensures forall i, j :: 0 <= i < j < |Window(skew)| ==> Before(Window(skew)[i], Window(skew)[j])
  {
    if skew > 0 {
      WindowOrder(skew - 1);
      var w, v := Window(skew), Window(skew - 1);
      forall off ensures off in w <==> Distance(off) <= skew {
        if Distance(off) == skew {
          assert w[|v|] == -(skew as int) && w[|v| + 1] == skew;
        }
      }
      forall i, j | 0 <= i < j < |w| ensures Before(w[i], w[j]) {
        if i < |v| {
          assert w[i] == v[i] && v[i] in v;
        }
      }
    }
  }

  /** No step of `w[..i]` owns the code. */
  ghost predicate NoneBefore(accepts: Accepts, secret: string, code: string, step: int, w: seq<int>, i: nat)
    requires i <= |w|
  {
    forall j :: 0 <= j < i ==> !accepts(secret, step + w[j], code)
  }

  /** The walk ends at the first step that owns the code, or behind the last one. */
  lemma {:induction false} FirstHit(accepts: Accepts, secret: string, code: string, last: int, step: int, w: seq<int>)
    returns (i: nat)
    ensures i <= |w| && NoneBefore(accepts, secret, code, step, w, i)
    ensures var v := Walk(accepts, secret, code, last, step, w);
      if i == |w| then v == BadCode
      else accepts(secret, step + w[i], code) && v == if step + w[i] <= last then Replayed else Accepted(step + w[i])
  {
    if w == [] || accepts(secret, step + w[0], code) {
      return 0;
    }
    var k := FirstHit(accepts, secret, code, last, step, w[1..]);
    i := k + 1;
    forall j | 0 <= j < i ensures !accepts(secret, step + w[j], code) {
      assert j > 0 ==> w[j] == w[1..][j - 1];
    }
  }

  /** The offset whose step decides about a code. */
  ghost predicate Decides(accepts: Accepts, skew: nat, secret: string, code: string, step: int, off: int) {
    && Distance(off) <= skew
    && accepts(secret, step + off, code)
    && forall o :: Before(o, off) ==> !accepts(secret, step + o, code)
  }

  /**
   * A code is bad exactly when no step within the skew owns it. Otherwise the step tried first of those
   * that own it decides: a replay if that step is burned or older, accepted if it is newer.
   */
  lemma VerdictExact(accepts: Accepts, skew: nat, secret: string, code: string, last: int, seconds: int)
    ensures var step, v := seconds / 30, Verified(accepts, skew, secret, code, last, seconds);
      && (v.BadCode? <==> forall off :: Distance(off) <= skew ==> !accepts(secret, step + off, code))
      && (v.BadCode? <==> forall off :: !Decides(accepts, skew, secret, code, step, off))
      && (forall off :: Decides(accepts, skew, secret, code, step, off) ==>
            v == if step + off <= last then Replayed else Accepted(step + off))
  {
    hide Window, Walk;
    var step, w := seconds / PERIOD, Window(skew);
    var i := FirstHit(accepts, secret, code, last, step, w);
    WindowOrder(skew);
    forall off | Distance(off) <= skew && accepts(secret, step + off, code)
      ensures i < |w| && !Before(off, w[i])
    {
      assert off in w;
      var j :| 0 <= j < |w| && w[j] == off;
      NotLater(w, i, j);
    }
    if i < |w| {
      assert w[i] in w;
      assert Decides(accepts, skew, secret, code, step, w[i]);
    }
  }

  lemma NotLater(w: seq<int>, i: nat, j: nat)
    requires forall a, b :: 0 <= a < b < |w| ==> Before(w[a], w[b])
    requires i <= j < |w|
    ensures !Before(w[j], w[i])
  {
    if i < j {
      assert Before(w[i], w[j]);
    }
  }
}
