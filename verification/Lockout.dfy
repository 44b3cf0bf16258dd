/**
 * The brute-force lockout: failures counted per key, and a wait that doubles with every failure past
 * the threshold. Durations and times are 64-bit nanoseconds.
 */
module Lockout {
  import opened ByteStrings
  import opened Wire

  const HOUR: int := 3_600_000_000_000
  const TWO_64: int := 0x1_0000_0000_0000_0000

  /** `until` is unset until the threshold is reached. */
  datatype Failure = Failure(count: nat, until: Option<int>)

  type Table = map<string, Failure>

  datatype Limits = Limits(maxFailures: nat, base: int, max: int)

  ghost predicate Sensible(l: Limits) {
    0 < l.base <= MAX_INT64 && 0 < l.max <= MAX_INT64
  }

  /* ------------------------------------------------------------------- backoff --- */

  function Shift(excess: nat): nat {
    if excess < 16 then excess else 16
  }

  function Backoff(l: Limits, excess: nat): int {
    var b := Wrap64(l.base * Pow2(Shift(excess)));
    if b > l.max || b <= 0 then l.max else b
  }

  function Min(a: int, b: int): int {
    if a < b then a else b
  }

  /** What the backoff is meant to be. */
  function Intended(l: Limits, excess: nat): int {
    Min(l.base * Pow2(Shift(excess)), l.max)
  }

  /** The doubled wait either fits 64 bits or wraps to something the cap catches. */
  predicate NoSurprise(l: Limits, excess: nat) {
    var doubled := l.base * Pow2(Shift(excess));
    doubled <= MAX_INT64 || Wrap64(doubled) <= 0 || Wrap64(doubled) >= l.max
  }

  /** The wait is the intended one exactly when the doubling holds no surprise. */
  lemma BackoffExactIff(l: Limits, excess: nat)
    requires Sensible(l)
    ensures Backoff(l, excess) == Intended(l, excess) <==> NoSurprise(l, excess)
  {
    hide Pow2;
    var doubled := l.base * Pow2(Shift(excess));
    Positive(l.base, Pow2(Shift(excess)));
  }

  lemma Positive(a: int, b: int)
    requires a > 0 && b > 0
    ensures a * b > 0
  {
  }

  lemma PowTo16()
    ensures Pow2(16) == 0x1_0000
  {
    assert Pow2(4) == 16;
    assert Pow2(8) == 256;
    assert Pow2(12) == 4096;
  }

  lemma {:induction false} PowGrows(a: nat, b: nat)
    requires a <= b
    ensures Pow2(a) <= Pow2(b)
    decreases b
  {
    if a < b {
      PowGrows(a, b - 1);
    }
  }

  /** Below 2^47 nanoseconds, which is 39 hours, a base never surprises. */
  lemma SmallBasesAreExact(l: Limits, excess: nat)
    requires Sensible(l) && l.base < 0x8000_0000_0000
    ensures NoSurprise(l, excess) && Backoff(l, excess) == Intended(l, excess)
  {
    hide Pow2;
    PowTo16();
    PowGrows(Shift(excess), 16);
    Product(l.base, Pow2(Shift(excess)), 0x7FFF_FFFF_FFFF, 0x1_0000);
    BackoffExactIff(l, excess);
  }

  lemma Product(a: nat, b: nat, c: nat, d: nat)
    requires a <= c && b <= d
    ensures a * b <= c * d
  {
    assert a * b <= c * b;
    assert c * b <= c * d;
  }

  /**
   * A larger one can: this base waits a day after fifteen doublings and 65 microseconds after sixteen,
   * which is meant to be a day as well.
   */
  lemma LargeBaseCanSurprise()
    ensures Sensible(SURPRISING) && Backoff(SURPRISING, 15) == 24 * HOUR && Backoff(SURPRISING, 16) == 0x1_0000
    ensures Intended(SURPRISING, 16) == 24 * HOUR && !NoSurprise(SURPRISING, 16) && !WaitsGrow(SURPRISING)
  {
    hide Pow2;
    PowTo16();
    assert Pow2(15) == 0x8000 by { PowTo15(); }
    var before, doubled := 0x1_0000_0000_0001 * 0x8000, 0x1_0000_0000_0001 * 0x1_0000;
    assert before == 0x8000_0000_0000_0000 + 0x8000 && doubled == TWO_64 + 0x1_0000;
    assert Wrap64(before) == MIN_INT64 + 0x8000 && Wrap64(doubled) == 0x1_0000;
    assert Backoff(SURPRISING, 15) > Backoff(SURPRISING, 15 + 1);
  }

  const SURPRISING := Limits(5, 0x1_0000_0000_0001, 24 * HOUR)

  lemma PowTo15()
    ensures Pow2(15) == 0x8000
  {
    PowTo16();
    assert Pow2(16) == 2 * Pow2(15);
  }

  /** No failure waits shorter than the one before it; from sixteen doublings on nothing changes any more. */
  predicate WaitsGrow(l: Limits) {
    forall k :: 0 <= k < 16 && l.maxFailures + k > 0 ==> Backoff(l, k) <= Backoff(l, k + 1)
  }

  lemma GrowsAtAll(l: Limits, k: nat)
    requires WaitsGrow(l) && l.maxFailures + k > 0
    ensures Backoff(l, k) <= Backoff(l, k + 1)
  {
    hide Pow2;
  }

  /** The wait never shrinks from one failure to the next, while there is no surprise. */
  lemma IntendedGrows(l: Limits, a: nat, b: nat)
    requires Sensible(l) && a <= b
    ensures 0 < Intended(l, a) <= Intended(l, b)
  {
    hide Pow2;
    PowGrows(Shift(a), Shift(b));
    Positive(l.base, Pow2(Shift(a)));
    Product(l.base, Pow2(Shift(a)), l.base, Pow2(Shift(b)));
  }

  /** Without a surprise the waits grow; so they do for every base below 2^47 ns. */
  lemma QuietGrows(l: Limits)
    requires Sensible(l) && (forall k :: 0 <= k <= 16 ==> NoSurprise(l, k))
    ensures WaitsGrow(l)
  {
    hide Backoff, Intended, NoSurprise;
    forall k | 0 <= k < 16 ensures Backoff(l, k) <= Backoff(l, k + 1) {
      BackoffExactIff(l, k);
      BackoffExactIff(l, k + 1);
      IntendedGrows(l, k, k + 1);
    }
  }

  lemma SmallBasesGrow(l: Limits)
    requires Sensible(l) && l.base < 0x8000_0000_0000
    ensures WaitsGrow(l)
  {
    hide Backoff, Intended, NoSurprise, WaitsGrow;
    forall k | 0 <= k <= 16 ensures NoSurprise(l, k) {
      SmallBasesAreExact(l, k);
    }
    QuietGrows(l);
  }

  /* ---------------------------------------------------------------- the counters --- */

  predicate IsLocked(t: Table, key: string, now: int) {
    key in t && t[key].until.Some? && now <= t[key].until.value
  }

  function Failed(l: Limits, t: Table, key: string, now: int): Table {
    var f := if key in t then t[key] else Failure(0, None);
    var count := f.count + 1;
    t[key := Failure(count, if count < l.maxFailures then f.until else Some(now + Backoff(l, count - l.maxFailures)))]
  }

  function Succeeded(t: Table, key: string): Table {
    t - {key}
  }

  predicate Aged(f: Failure, now: int) {
    f.until.None? || now > f.until.value + HOUR
  }

  function Swept(t: Table, now: int): Table {
    map k | k in t && !Aged(t[k], now) :: t[k]
  }

  class Manager {
    const limits: Limits
    var failures: Table

    constructor (limits: Limits)
      ensures this.limits == limits && failures == map[]
    {
      this.limits := limits;
      failures := map[];
    }

    method Locked(key: string, now: int) returns (locked: bool, left: int)
      ensures locked == IsLocked(failures, key, now)
      ensures left == if locked then failures[key].until.value - now else 0
    {
      if key !in failures || failures[key].until.None? || now > failures[key].until.value {
        return false, 0;
      }
      return true, failures[key].until.value - now;
    }

    method Fail(key: string, now: int)
      modifies this
      ensures failures == Failed(limits, old(failures), key, now)
    {
      var f := if key in failures then failures[key] else Failure(0, None);
      f := f.(count := f.count + 1);
      if f.count < limits.maxFailures {
        failures := failures[key := f];
        return;
      }
      var excess := f.count - limits.maxFailures;
      var backoff := Wrap64(limits.base * Pow2(if excess < 16 then excess else 16));
      if backoff > limits.max || backoff <= 0 {
        backoff := limits.max;
      }
      failures := failures[key := f.(until := Some(now + backoff))];
    }

    method Succeed(key: string)
      modifies this
      ensures failures == Succeeded(old(failures), key)
    {
      failures := failures - {key};
    }

    method SweepLockouts(now: int)
      modifies this
      ensures failures == Swept(old(failures), now)
    {
      var keys := failures.Keys;
      ghost var before := failures;
      while keys != {}
        invariant keys <= before.Keys && failures.Keys <= before.Keys
        invariant forall k :: k in failures ==> failures[k] == before[k]
        invariant forall k :: k in keys ==> k in failures
        invariant forall k :: k in before && k !in keys ==> (k in failures <==> !Aged(before[k], now))
        decreases keys
      {
        var k :| k in keys;
        if failures[k].until.None? || now > failures[k].until.value + HOUR {
          failures := failures - {k};
        }
        keys := keys - {k};
      }
    }
  }

  /* -------------------------------------------------------------------- all runs --- */

  datatype Event = Fail(key: string) | Succeed(key: string) | Sweep

  /** What happened, and when; one at a time, as the mutex has it. */
  datatype Timed = Timed(at: int, event: Event)

  function Step(l: Limits, t: Table, e: Timed): Table {
    match e.event
    case Fail(key) => Failed(l, t, key, e.at)
    case Succeed(key) => Succeeded(t, key)
    case Sweep => Swept(t, e.at)
  }

  function Run(l: Limits, es: seq<Timed>): Table {
    if es == [] then map[] else Step(l, Run(l, es[..|es| - 1]), es[|es| - 1])
  }

  ghost predicate InOrder(es: seq<Timed>) {
    forall i, j :: 0 <= i <= j < |es| ==> es[i].at <= es[j].at
  }

  /** How often this key failed since it last signed in. */
  function FailsSince(es: seq<Timed>, key: string): nat {
    if es == [] || es[|es| - 1].event == Succeed(key) then 0
    else FailsSince(es[..|es| - 1], key) + if es[|es| - 1].event == Fail(key) then 1 else 0
  }

  ghost predicate NeverSwept(es: seq<Timed>) {
    forall i :: 0 <= i < |es| ==> es[i].event != Sweep
  }

  /** The counter is at most the number of failures since the last sign-in, and just that number if nothing is swept. */
  lemma {:induction false} CountsFailures(l: Limits, es: seq<Timed>, key: string)
    ensures var t, n := Run(l, es), FailsSince(es, key);
      && (key in t ==> 0 < t[key].count <= n)
      && (NeverSwept(es) ==> if key in t then t[key].count == n else n == 0)
      && (key in t && NeverSwept(es) && n >= l.maxFailures ==> t[key].until.Some?)
  {
    if es != [] {
      hide Backoff;
      CountsFailures(l, es[..|es| - 1], key);
    }
  }

  /** Nobody is locked out who has not failed often enough since signing in last; without a sweep, everybody who has is. */
  lemma LockNeedsFailures(l: Limits, es: seq<Timed>, key: string)
    ensures HasLock(l, es, key) ==> FailsSince(es, key) > 0 && FailsSince(es, key) >= l.maxFailures
    ensures NeverSwept(es) ==> (HasLock(l, es, key) <==> FailsSince(es, key) > 0 && FailsSince(es, key) >= l.maxFailures)
  {
    hide Run, FailsSince, Backoff, LastFail;
    CountsFailures(l, es, key);
    LockIsOneWait(l, es, key);
  }

  /** When this key last failed. */
  function LastFail(es: seq<Timed>, key: string): int {
    if es == [] then 0
    else if es[|es| - 1].event == Fail(key) then es[|es| - 1].at
    else LastFail(es[..|es| - 1], key)
  }

  ghost predicate HasLock(l: Limits, es: seq<Timed>, key: string) {
    key in Run(l, es) && Run(l, es)[key].until.Some?
  }

  /** A lock always reaches exactly one wait beyond the last failure. */
  lemma {:induction false} LockIsOneWait(l: Limits, es: seq<Timed>, key: string)
    ensures HasLock(l, es, key) ==>
      var f := Run(l, es)[key];
      f.count > 0 && f.count >= l.maxFailures && f.until.value == LastFail(es, key) + Backoff(l, f.count - l.maxFailures)
  {
    if es != [] {
      hide Backoff;
      LockIsOneWait(l, es[..|es| - 1], key);
    }
  }

  lemma {:induction false} LastFailIsPast(es: seq<Timed>, key: string, now: int)
    requires forall i :: 0 <= i < |es| ==> es[i].at <= now
    ensures LastFail(es, key) <= now || LastFail(es, key) == 0
    ensures (exists i :: 0 <= i < |es| && es[i].event == Fail(key)) ==> LastFail(es, key) <= now
  {
    if es != [] && es[|es| - 1].event != Fail(key) {
      var front := es[..|es| - 1];
      LastFailIsPast(front, key, now);
      if i :| 0 <= i < |es| && es[i].event == Fail(key) {
        assert front[i].event == Fail(key);
      }
    }
  }

  lemma {:induction false} LockedHasFailed(l: Limits, es: seq<Timed>, key: string)
    requires key in Run(l, es)
    ensures exists i :: 0 <= i < |es| && es[i].event == Fail(key)
  {
    if es != [] && es[|es| - 1].event != Fail(key) {
      hide Backoff;
      var front := es[..|es| - 1];
      LockedHasFailed(l, front, key);
      var i :| 0 <= i < |front| && front[i].event == Fail(key);
      assert es[i].event == Fail(key);
    } else {
      assert es != [];
      assert es[|es| - 1].event == Fail(key);
    }
  }

  /** Another failure at `now` moves the end of the lock to an earlier time. */
  ghost predicate Shortens(l: Limits, es: seq<Timed>, key: string, now: int) {
    HasLock(l, es, key)
    && var after := Failed(l, Run(l, es), key, now)[key];
       after.until.None? || after.until.value < Run(l, es)[key].until.value
  }

  /** It does so exactly when the next wait and the time since the last failure together fall short of this wait. */
  lemma FailShortensIff(l: Limits, es: seq<Timed>, key: string, now: int)
    requires HasLock(l, es, key)
    ensures var k := Run(l, es)[key].count - l.maxFailures;
      k >= 0 && (Shortens(l, es, key, now) <==> now - LastFail(es, key) + Backoff(l, k + 1) < Backoff(l, k))
  {
    hide Backoff, Run, LastFail;
    LockIsOneWait(l, es, key);
  }

  /** Another failure never shortens a lock, in any run, while the waits grow. */
  lemma FailNeverShortens(l: Limits, es: seq<Timed>, key: string, now: int)
    requires WaitsGrow(l) && (forall i :: 0 <= i < |es| ==> es[i].at <= now) && HasLock(l, es, key)
    ensures var after := Failed(l, Run(l, es), key, now);
      after[key].until.Some? && after[key].until.value >= Run(l, es)[key].until.value
  {
    hide Backoff, Run, LastFail, WaitsGrow;
    LockIsOneWait(l, es, key);
    FailShortensIff(l, es, key, now);
    LockedHasFailed(l, es, key);
    LastFailIsPast(es, key, now);
    GrowsAtAll(l, Run(l, es)[key].count - l.maxFailures);
  }

  function Failures(key: string, n: nat): seq<Timed> {
    if n == 0 then [] else Failures(key, n - 1) + [Timed(0, Fail(key))]
  }

  lemma {:induction false} FailuresAtOnce(key: string, n: nat)
    ensures forall i :: 0 <= i < |Failures(key, n)| ==> Failures(key, n)[i].at == 0
  {
    if n > 0 {
      FailuresAtOnce(key, n - 1);
    }
  }

  lemma {:induction false} FailuresCount(l: Limits, key: string, n: nat)
    ensures n > 0 ==> key in Run(l, Failures(key, n)) && Run(l, Failures(key, n))[key].count == n
    ensures n > 0 && n >= l.maxFailures ==> Run(l, Failures(key, n))[key].until == Some(Backoff(l, n - l.maxFailures))
    ensures n == 0 ==> Run(l, Failures(key, n)) == map[]
  {
    if n > 0 {
      hide Backoff, Run;
      FailuresCount(l, key, n - 1);
      LastStep(l, Failures(key, n - 1), Timed(0, Fail(key)));
      FailedOnce(l, Run(l, Failures(key, n - 1)), key);
    }
  }

  lemma FailedOnce(l: Limits, t: Table, key: string)
    ensures var after, count := Failed(l, t, key, 0), if key in t then t[key].count + 1 else 1;
      && key in after && after[key].count == count
      && (count >= l.maxFailures ==> after[key].until == Some(Backoff(l, count - l.maxFailures)))
  {
    hide Backoff;
  }

  ghost predicate UpTo(es: seq<Timed>, now: int) {
    InOrder(es) && forall i :: 0 <= i < |es| ==> es[i].at <= now
  }

  /** Whether any failure in any run can ever shorten a lock is decided by sixteen comparisons of the configuration. */
  lemma NeverShortensIff(l: Limits)
    ensures WaitsGrow(l) <==>
      forall es: seq<Timed>, key, now :: UpTo(es, now) ==> !Shortens(l, es, key, now)
  {
    hide Backoff, Run, Failed;
    if WaitsGrow(l) {
      forall es: seq<Timed>, key, now | UpTo(es, now)
        ensures !Shortens(l, es, key, now)
      {
        if HasLock(l, es, key) {
          FailNeverShortens(l, es, key, now);
        }
      }
    } else {
      var k :| 0 <= k < 16 && l.maxFailures + k > 0 && Backoff(l, k) > Backoff(l, k + 1);
      ShortenedAtOnce(l, k);
      FailuresAtOnce("ip", l.maxFailures + k);
      assert UpTo(Failures("ip", l.maxFailures + k), 0);
    }
  }

  /** A wait that shrinks shows when failures follow each other at once. */
  lemma ShortenedAtOnce(l: Limits, k: nat)
    requires l.maxFailures + k > 0
    ensures var es := Failures("ip", l.maxFailures + k);
      HasLock(l, es, "ip") && (Shortens(l, es, "ip", 0) <==> Backoff(l, k + 1) < Backoff(l, k))
  {
    hide Backoff, Run, Failed, LastFail;
    var es := Failures("ip", l.maxFailures + k);
    FailuresCount(l, "ip", l.maxFailures + k);
    LockIsOneWait(l, es, "ip");
    FailShortensIff(l, es, "ip", 0);
  }

  /** With the surprising base, the twenty-first failure cuts a lock of a day to 65 microseconds. */
  lemma LargeBaseShortens()
    ensures Shortens(SURPRISING, Failures("ip", 20), "ip", 0)
    ensures HasLock(SURPRISING, Failures("ip", 20), "ip") && Run(SURPRISING, Failures("ip", 20))["ip"].until == Some(24 * HOUR)
    ensures Failed(SURPRISING, Run(SURPRISING, Failures("ip", 20)), "ip", 0)["ip"].until == Some(0x1_0000)
  {
    hide Backoff, Run, Failures, LastFail;
    LargeBaseCanSurprise();
    ShortenedAtOnce(SURPRISING, 15);
    FailuresCount(SURPRISING, "ip", 20);
  }

  /** Sweeping never locks or unlocks anybody; it drops locks that ended an hour ago, and all partial counts. */
  lemma SweepChangesNoLock(t: Table, key: string, now: int, later: int)
    requires now <= later
    ensures IsLocked(Swept(t, now), key, later) == IsLocked(t, key, later)
    ensures key in t && t[key].until.None? ==> key !in Swept(t, now)
    ensures key in Swept(t, now) ==> Swept(t, now)[key] == t[key]
  {
  }

  /**
   * Once the threshold is reached, the key stays locked for the whole wait, whatever else happens,
   * unless it signs in.
   */
  lemma {:induction false} LockHolds(l: Limits, es: seq<Timed>, more: seq<Timed>, key: string, until: int, now: int)
    requires WaitsGrow(l) && InOrder(es + more)
    requires key in Run(l, es) && Run(l, es)[key].until == Some(until)
    requires forall i :: 0 <= i < |more| ==> more[i].event != Succeed(key)
    requires forall i :: 0 <= i < |more| ==> more[i].at <= now
    requires now <= until
    ensures IsLocked(Run(l, es + more), key, now)
    ensures Run(l, es + more)[key].until.Some? && Run(l, es + more)[key].until.value >= until
  {
    if more == [] {
      assert es + more == es;
    } else {
      hide Run, Failed, WaitsGrow;
      var n := |more| - 1;
      var front, e := more[..n], more[n];
      var all := es + more;
      assert all == (es + front) + [e] && all[..|all| - 1] == es + front && all[|all| - 1] == e;
      InOrderPrefix(all, |all| - 1);
      LockHolds(l, es, front, key, until, now);
      LastStep(l, es + front, e);
      var t := Run(l, es + front);
      match e.event
      case Fail(k) =>
        if k == key {
          FailNeverShortens(l, es + front, key, e.at);
        }
        FailTouchesOne(l, t, k, e.at);
      case Succeed(_) =>
      case Sweep =>
    }
  }

  lemma InOrderPrefix(es: seq<Timed>, n: nat)
    requires InOrder(es) && n < |es|
    ensures InOrder(es[..n]) && forall i :: 0 <= i < n ==> es[..n][i].at <= es[n].at
  {
  }

  lemma LastStep(l: Limits, es: seq<Timed>, e: Timed)
    ensures Run(l, es + [e]) == Step(l, Run(l, es), e)
  {
    assert (es + [e])[..|es|] == es;
  }

  lemma FailTouchesOne(l: Limits, t: Table, key: string, now: int)
    ensures key in Failed(l, t, key, now)
    ensures forall k :: k in t && k != key ==> k in Failed(l, t, key, now) && Failed(l, t, key, now)[k] == t[k]
  {
  }
}
