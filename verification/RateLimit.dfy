/** The notifier's token bucket: five at once, then one every half minute. Times are nanoseconds. */
module RateLimit {

  const BURST: nat := 5
  const REFILL: nat := 30_000_000_000

  datatype Bucket = Bucket(tokens: nat, last: nat)

  /** The bucket as it is looked at: whole periods become tokens, and a full bucket banks nothing. */
  function Refilled(b: Bucket, now: nat): Bucket {
    var grown := if now < b.last then 0 else (now - b.last) / REFILL;
    var tokens := if b.tokens + grown < BURST then b.tokens + grown else BURST;
    Bucket(if grown > 0 then tokens else b.tokens,
           if (if grown > 0 then tokens else b.tokens) == BURST then now else b.last + grown * REFILL)
  }

  function Take(b: Bucket, now: nat): (Bucket, bool) {
    var r := Refilled(b, now);
    if r.tokens == 0 then (r, false) else (Bucket(r.tokens - 1, r.last), true)
  }

  /** The bucket after events were looked at at these times. */
  function After(start: nat, times: seq<nat>): Bucket {
    if times == [] then Bucket(BURST, start)
    else Take(After(start, times[..|times| - 1]), times[|times| - 1]).0
  }

  /** The bucket as event `k` found it. */
  function Met(start: nat, times: seq<nat>, k: nat): Bucket
    requires k < |times|
  {
    Refilled(After(start, times[..k]), times[k])
  }

  predicate Passed(start: nat, times: seq<nat>, k: nat)
    requires k < |times|
  {
    Met(start, times, k).tokens > 0
  }

  /** How many of the events `i` up to, not including, `j` were let through. */
  function Attempts(start: nat, times: seq<nat>, i: nat, j: nat): nat
    requires i <= j <= |times|
    decreases j
  {
    if i == j then 0 else Attempts(start, times, i, j - 1) + if Passed(start, times, j - 1) then 1 else 0
  }

  ghost predicate Clock(start: nat, times: seq<nat>) {
    && (forall k :: 0 <= k < |times| ==> start <= times[k])
    && (forall i, k :: 0 <= i <= k < |times| ==> times[i] <= times[k])
  }

  /** Time the bucket could still turn into messages. */
  function Credit(b: Bucket, now: nat): int {
    b.tokens * REFILL + (now - b.last)
  }

  ghost predicate Sound(b: Bucket, now: nat) {
    b.last <= now && b.tokens <= BURST && Credit(b, now) <= BURST * REFILL && (b.tokens < BURST ==> now - b.last < REFILL)
  }

  /** Looking at the bucket loses nothing unless it fills up, and never gains. */
  lemma RefillKeeps(b: Bucket, then_: nat, now: nat)
    requires Sound(b, then_) && then_ <= now
    ensures var r := Refilled(b, now);
      && Sound(r, now) && Credit(r, now) <= Credit(b, now)
      && (r.tokens < BURST ==> Credit(r, now) == Credit(b, now))
  {
    var elapsed := now - b.last;
    var grown := elapsed / REFILL;
    assert elapsed == grown * REFILL + elapsed % REFILL;
  }

  lemma TakeKeeps(b: Bucket, then_: nat, now: nat)
    requires Sound(b, then_) && then_ <= now
    ensures var (a, sent) := Take(b, now);
      && Sound(a, now) && Credit(a, now) == Credit(Refilled(b, now), now) - if sent then REFILL else 0
  {
    RefillKeeps(b, then_, now);
  }

  lemma {:induction false} AlwaysSound(start: nat, times: seq<nat>)
    requires Clock(start, times)
    ensures Sound(After(start, times), if times == [] then start else times[|times| - 1])
  {
    if times != [] {
      hide Take, Refilled, Sound;
      var n := |times| - 1;
      AlwaysSound(start, times[..n]);
      TakeKeeps(After(start, times[..n]), if n == 0 then start else times[n - 1], times[n]);
    } else {
      assert After(start, times) == Bucket(BURST, start);
    }
  }

  /** The bucket before and at event `k`. */
  lemma AtEvent(start: nat, times: seq<nat>, k: nat)
    requires Clock(start, times) && k < |times|
    ensures var b, r, a := After(start, times[..k]), Met(start, times, k), After(start, times[..k + 1]);
      && Sound(r, times[k]) && Sound(a, times[k]) && Credit(r, times[k]) <= Credit(b, times[k])
      && (r.tokens < BURST ==> Credit(r, times[k]) == Credit(b, times[k]))
      && Credit(a, times[k]) == Credit(r, times[k]) - if Passed(start, times, k) then REFILL else 0
  {
    hide Refilled, Sound, Credit;
    AlwaysSound(start, times[..k]);
    var b, before := After(start, times[..k]), if k == 0 then start else times[k - 1];
    assert times[..k + 1][..k] == times[..k];
    RefillKeeps(b, before, times[k]);
    TakeKeeps(b, before, times[k]);
  }

  lemma CreditAges(b: Bucket, t: nat, u: nat)
    ensures Credit(b, u) == Credit(b, t) + (u - t)
  {
  }

  /** What a window lets through is paid for by the bucket at its start and the time that passed. */
  lemma {:induction false} WindowPaid(start: nat, times: seq<nat>, i: nat, j: nat)
    requires Clock(start, times) && i <= j < |times|
    ensures Credit(After(start, times[..j + 1]), times[j]) + Attempts(start, times, i, j + 1) * REFILL
            <= BURST * REFILL + (times[j] - times[i])
    decreases j
  {
    hide After, Met, Refilled;
    AtEvent(start, times, j);
    if i < j {
      WindowPaid(start, times, i, j - 1);
      CreditAges(After(start, times[..j]), times[j - 1], times[j]);
    } else {
      assert Attempts(start, times, i, j) == 0;
    }
  }

  /**
   * In every window, for every pattern of arrivals, at most five messages plus one for each whole half
   * minute of the window's length are attempted.
   */
  lemma WindowBound(start: nat, times: seq<nat>, i: nat, j: nat)
    requires Clock(start, times) && i <= j < |times|
    ensures Attempts(start, times, i, j + 1) <= 5 + (times[j] - times[i]) / 30_000_000_000
  {
    WindowPaid(start, times, i, j);
    AtEvent(start, times, j);
    var n, t := Attempts(start, times, i, j + 1), times[j] - times[i];
    assert n * REFILL <= BURST * REFILL + t;
  }

  /** Since the bucket was last full, nothing was lost. */
  lemma {:induction false} SinceFull(start: nat, times: seq<nat>, j: nat) returns (i: nat)
    requires Clock(start, times) && j < |times|
    ensures i <= j
      && Credit(Met(start, times, j), times[j]) + Attempts(start, times, i, j) * REFILL
         == BURST * REFILL + (times[j] - times[i])
    decreases j
  {
    hide After, Refilled;
    AtEvent(start, times, j);
    if Met(start, times, j).tokens == BURST {
      FullMeans(start, times, j);
      return j;
    }
    if j == 0 {
      FirstIsFull(start, times);
      assert false;
    }
    i := SinceFull(start, times, j - 1);
    AtEvent(start, times, j - 1);
    CreditAges(After(start, times[..j]), times[j - 1], times[j]);
  }

  lemma FullMeans(start: nat, times: seq<nat>, j: nat)
    requires j < |times| && Met(start, times, j).tokens == BURST
    ensures Credit(Met(start, times, j), times[j]) == BURST * REFILL
  {
  }

  lemma FirstIsFull(start: nat, times: seq<nat>)
    requires Clock(start, times) && 0 < |times|
    ensures Met(start, times, 0).tokens == BURST
  {
    assert times[..0] == [];
  }

  /** Some window ending just before event `j` is already at its bound. */
  ghost predicate BoundReached(start: nat, times: seq<nat>, j: nat)
    requires j < |times|
  {
    exists i :: 0 <= i <= j && Attempts(start, times, i, j) >= 5 + (times[j] as int - times[i]) / 30_000_000_000
  }

  /** The limiter is exact: an event is held back precisely when letting it through would break the bound. */
  lemma HeldBackExactly(start: nat, times: seq<nat>, j: nat)
    requires Clock(start, times) && j < |times|
    ensures !Passed(start, times, j) <==> BoundReached(start, times, j)
  {
    if Passed(start, times, j) {
      forall i | 0 <= i <= j ensures Attempts(start, times, i, j) < BURST + (times[j] - times[i]) / REFILL {
        WindowBound(start, times, i, j);
      }
    } else {
      AtEvent(start, times, j);
      var i := SinceFull(start, times, j);
      var n, t := Attempts(start, times, i, j), times[j] - times[i];
      assert n * REFILL > BURST * REFILL + t - REFILL;
    }
  }

  /** The loop that takes events from the queue and decides about each; `passed` says which are sent. */
  method Decide(start: nat, times: seq<nat>) returns (passed: seq<bool>)
    ensures |passed| == |times|
    ensures forall k :: 0 <= k < |times| ==> passed[k] == Passed(start, times, k)
  {
    var tokens: nat, last: nat := BURST, start;
    passed := [];
    var k := 0;
    while k < |times|
      invariant 0 <= k <= |times| && |passed| == k
      invariant Bucket(tokens, last) == After(start, times[..k])
      invariant forall i :: 0 <= i < k ==> passed[i] == Passed(start, times, i)
    {
      var now := times[k];
      var grown := if now < last then 0 else (now - last) / REFILL;
      if grown > 0 {
        tokens := if tokens + grown < BURST then tokens + grown else BURST;
        last := last + grown * REFILL;
      }
      if tokens == BURST {
        last := now;
      }
      assert Bucket(tokens, last) == Met(start, times, k);
      assert times[..k + 1][..k] == times[..k];
      if tokens == 0 {
        passed := passed + [false];
      } else {
        tokens := tokens - 1;
        passed := passed + [true];
      }
      k := k + 1;
    }
  }
}
