/**
 * The unprivileged half of an update: download, hold the archive against the published checksums,
 * unpack, and say what is staged. Only what the checksums vouch for is ever staged.
 */
module UpdaterStage {
  import opened ByteStrings
  import opened Wire
  import opened Updater

  /* ------------------------------------------------------------------ checksums --- */

  function Lower(c: char): char {
    if 'A' <= c <= 'Z' then c - 'A' + 'a' else c
  }

  function Lowered(s: string): (r: string)
    ensures |r| == |s| && forall i :: 0 <= i < |s| ==> r[i] == Lower(s[i])
  {
    if s == [] then [] else [Lower(s[0])] + Lowered(s[1..])
  }

  predicate SameFold(a: string, b: string) {
    Lowered(a) == Lowered(b)
  }

  function WithoutStar(s: string): string {
    if s != [] && s[0] == '*' then s[1..] else s
  }

  predicate Names(line: seq<string>, name: string) {
    |line| == 2 && WithoutStar(line[1]) == name
  }

  /** The sum of the first line that names the file; lines are split into their fields. */
  function Listed(lines: seq<seq<string>>, name: string): string {
    if lines == [] then ""
    else if Names(lines[0], name) then Lowered(lines[0][0])
    else Listed(lines[1..], name)
  }

  /** The checksums file vouches for this sum: there is an entry, not empty, and it is the same up to case. */
  predicate Vouches(lines: seq<seq<string>>, name: string, sum: string) {
    Listed(lines, name) != "" && SameFold(Listed(lines, name), sum)
  }

  method VerifyChecksum(lines: seq<seq<string>>, name: string, sum: string) returns (ok: bool)
    ensures ok == Vouches(lines, name, sum)
  {
    var want := "";
    var i := 0;
    while i < |lines|
      invariant 0 <= i <= |lines| && want == ""
      invariant Listed(lines, name) == Listed(lines[i..], name)
    {
      assert lines[i..][1..] == lines[i + 1..];
      if |lines[i]| == 2 && WithoutStar(lines[i][1]) == name {
        want := Lowered(lines[i][0]);
        break;
      }
      i := i + 1;
    }
    return want != "" && SameFold(want, sum);
  }

  lemma {:induction false} FoldedTwice(s: string)
    ensures Lowered(Lowered(s)) == Lowered(s)
  {
    var a, b := Lowered(s), Lowered(Lowered(s));
    forall i | 0 <= i < |s| ensures b[i] == a[i] {}
  }

  lemma {:induction false} NoneNamed(lines: seq<seq<string>>, name: string)
    requires forall i :: 0 <= i < |lines| ==> !Names(lines[i], name)
    ensures Listed(lines, name) == ""
  {
    if lines != [] {
      NoneNamed(lines[1..], name);
    }
  }

  lemma {:induction false} FirstNamedCounts(lines: seq<seq<string>>, name: string, k: nat)
    requires k < |lines| && Names(lines[k], name) && forall i :: 0 <= i < k ==> !Names(lines[i], name)
    ensures Listed(lines, name) == Lowered(lines[k][0])
  {
    if k > 0 {
      FirstNamedCounts(lines[1..], name, k - 1);
    }
  }

  /** Only the first entry for a file counts, with or without a star, in either case; none vouches for nothing. */
  lemma VouchesExactly(lines: seq<seq<string>>, name: string, sum: string, k: nat)
    requires k <= |lines| && forall i :: 0 <= i < k ==> !Names(lines[i], name)
    requires k < |lines| ==> Names(lines[k], name)
    ensures Vouches(lines, name, sum) <==> k < |lines| && lines[k][0] != "" && SameFold(lines[k][0], sum)
  {
    if k == |lines| {
      NoneNamed(lines, name);
    } else {
      FirstNamedCounts(lines, name, k);
      FoldedTwice(lines[k][0]);
    }
  }

  /* ---------------------------------------------------------------------- stage --- */

  /** What is unpacked from this archive is good if the checksums vouch for the archive. */
  ghost predicate VouchedIsGood(lines: seq<seq<string>>, name: string, body: bytes, hash: bytes -> string,
                                unpack: bytes -> Option<bytes>, good: bytes -> bool) {
    Vouches(lines, name, hash(body)) && unpack(body).Some? ==> good(unpack(body).value)
  }

  /** If a binary is declared staged and is there, it is the one declared, and it is good. */
  ghost predicate StagedIsGood(d: Disk, staged: Path, hash: bytes -> string, good: bytes -> bool)
    reads d
  {
    d.manifest.Some? && staged in d.files ==>
      hash(d.files[staged]) == d.manifest.value.sum && good(d.files[staged])
  }

  /** The watched file is as it was, and was so all the time. */
  ghost predicate Unwatched(d: Disk, before: Option<bytes>, shown: seq<Option<bytes>>)
    reads d
  {
    d.At(d.watched) == before && OnlyShown(shown, d.shown, before, before)
  }

  /** Writes a whole file in one go, or a part of it. */
  method WriteFile(d: Disk, p: Path, b: bytes) returns (ok: bool)
    requires p != d.watched
    modifies d`files, d`shown, d`faults
    ensures d.files - {p} == old(d.files) - {p}
    ensures ok ==> d.At(p) == Some(b)
    ensures old(d.faults) <= d.faults && (ok <==> d.faults == old(d.faults))
    ensures Unwatched(d, old(d.At(d.watched)), old(d.shown))
  {
    ghost var before := d.files;
    ok := d.Create(p);
    if !ok {
      return false;
    }
    ok := d.Append(p, b);
    if ok {
      assert [] + b[..|b|] == b;
    }
    assert d.files - {p} == before - {p};
  }

  /**
   * Downloads, verifies, unpacks and declares. Whatever fails and wherever, nothing that the checksums
   * do not vouch for is ever declared staged; and if no file operation fails, what they vouch for is.
   */
  method Stage(d: Disk, archive: Path, staged: Path, name: string, version: string, body: bytes, lines: seq<seq<string>>,
               hash: bytes -> string, unpack: bytes -> Option<bytes>, fits: bytes -> bool, ghost good: bytes -> bool)
    returns (ok: bool)
    requires archive != staged && archive != d.watched && staged != d.watched
    requires StagedIsGood(d, staged, hash, good) && VouchedIsGood(lines, name, body, hash, unpack, good)
    modifies d`files, d`manifest, d`shown, d`faults
    ensures StagedIsGood(d, staged, hash, good)
    ensures ok ==> staged in d.files && d.manifest == Some(Manifest(version, hash(d.files[staged])))
    ensures ok ==> good(d.files[staged]) && fits(d.files[staged]) && Vouches(lines, name, hash(body))
    ensures ok ==> unpack(body) == d.At(staged)
    ensures d.faults == old(d.faults) ==>
      (ok <==> Vouches(lines, name, hash(body)) && unpack(body).Some? && fits(unpack(body).value))
    ensures Unwatched(d, old(d.At(d.watched)), old(d.shown))
  {
    ok := Download(d, archive, staged, name, body, lines, hash, good);
    if !ok {
      return false;
    }
    var binary := unpack(body);
    if binary.None? {
      return false;
    }
    ok := Declare(d, archive, staged, version, binary.value, hash, fits, good);
  }

  /** Into an empty directory, and held against the checksums; until then nothing is declared there. */
  method Download(d: Disk, archive: Path, staged: Path, name: string, body: bytes, lines: seq<seq<string>>,
                  hash: bytes -> string, ghost good: bytes -> bool)
    returns (ok: bool)
    requires archive != staged && archive != d.watched && staged != d.watched && StagedIsGood(d, staged, hash, good)
    modifies d`files, d`manifest, d`shown, d`faults
    ensures StagedIsGood(d, staged, hash, good)
    ensures ok ==> d.manifest.None?
    ensures ok <==> Vouches(lines, name, hash(body)) && d.faults == old(d.faults)
    ensures old(d.faults) <= d.faults
    ensures Unwatched(d, old(d.At(d.watched)), old(d.shown))
  {
    ok := d.RemoveStaged(archive, staged);
    if !ok {
      return false;
    }
    ok := WriteFile(d, archive, body);
    if !ok {
      return false;
    }
    ok := VerifyChecksum(lines, name, hash(body));
  }

  /** Unpacks and checks the binary, and only then says that it is staged. */
  method Declare(d: Disk, archive: Path, staged: Path, version: string, binary: bytes, hash: bytes -> string,
                 fits: bytes -> bool, ghost good: bytes -> bool)
    returns (ok: bool)
    requires archive != staged && archive != d.watched && staged != d.watched && d.manifest.None? && good(binary)
    modifies d`files, d`manifest, d`shown, d`faults
    ensures StagedIsGood(d, staged, hash, good)
    ensures old(d.faults) <= d.faults && (d.faults == old(d.faults) ==> (ok <==> fits(binary)))
    ensures ok ==> d.At(staged) == Some(binary) && fits(binary) && d.manifest == Some(Manifest(version, hash(binary)))
    ensures Unwatched(d, old(d.At(d.watched)), old(d.shown))
  {
    ok := WriteFile(d, staged, binary);
    if !ok {
      return false;
    }
    d.Remove(archive);
    ok := fits(binary);
    if !ok {
      return false;
    }
    var sum := hash(binary);
    ok := d.WriteManifest(Manifest(version, sum));
  }

  /** An update that reports success has installed bytes that a checksums file vouched for. */
  method ApplyStaged(d: Disk, l: Layout, hash: bytes -> string, w: World, ghost good: bytes -> bool) returns (r: Option<Outcome>)
    requires Apart(l) && d.watched == l.binary && StagedIsGood(d, l.staged, hash, good)
    modifies d`files, d`manifest, d`shown, d`faults, d`request, d`stuck
    ensures StagedIsGood(d, l.staged, hash, good)
    ensures r.Some? && r.value.ok ==> l.binary in d.files && good(d.files[l.binary])
    ensures forall i :: |old(d.shown)| <= i < |d.shown| ==> OldOrGood(old(d.At(l.binary)), good, d.shown[i])
    ensures OldOrGood(old(d.At(l.binary)), good, d.At(l.binary)) && old(d.shown) <= d.shown
  {
    r := Apply(d, l, hash, w);
  }

  /* -------------------------------------------------------------------- every run --- */

  ghost predicate OldOrGood(before: Option<bytes>, good: bytes -> bool, now: Option<bytes>) {
    now == before || (now.Some? && good(now.value))
  }

  /** What the two halves do over time, in any order; each may fail at any point, as if the machine had stopped there. */
  datatype Op =
    | StageOp(name: string, version: string, body: bytes, lines: seq<seq<string>>)
    | RequestOp(request: Request)
    | ApplyOp(world: World)

  /** These bytes were unpacked from an archive that a checksums file vouched for. */
  ghost predicate VouchedFor(ops: seq<Op>, hash: bytes -> string, unpack: bytes -> Option<bytes>, b: bytes) {
    exists k :: 0 <= k < |ops| && VouchedBy(ops[k], hash, unpack, b)
  }

  ghost predicate VouchedBy(op: Op, hash: bytes -> string, unpack: bytes -> Option<bytes>, b: bytes) {
    op.StageOp? && Vouches(op.lines, op.name, hash(op.body)) && unpack(op.body) == Some(b)
  }

  /**
   * Over any sequence of downloads, requests and installations, each failing wherever it may: at every
   * moment the binary is the one the machine started with or one that a checksums file vouched for.
   */
  method Updates(d: Disk, l: Layout, ops: seq<Op>, hash: bytes -> string, unpack: bytes -> Option<bytes>,
                 fits: bytes -> bool)
    requires Apart(l) && d.watched == l.binary && d.manifest.None?
    modifies d`files, d`manifest, d`request, d`shown, d`faults, d`stuck
    ensures forall i :: |old(d.shown)| <= i < |d.shown| ==>
              d.shown[i] == old(d.At(l.binary)) || (d.shown[i].Some? && VouchedFor(ops, hash, unpack, d.shown[i].value))
    ensures d.At(l.binary) == old(d.At(l.binary)) || (l.binary in d.files && VouchedFor(ops, hash, unpack, d.files[l.binary]))
  {
    ghost var good := b => VouchedFor(ops, hash, unpack, b);
    ghost var first, before := d.At(l.binary), d.shown;
    var k := 0;
    while k < |ops|
      invariant 0 <= k <= |ops| && StagedIsGood(d, l.staged, hash, good)
      invariant before <= d.shown && OldOrGood(first, good, d.At(l.binary))
      invariant forall i :: |before| <= i < |d.shown| ==> OldOrGood(first, good, d.shown[i])
    {
      match ops[k] {
        case StageOp(name, version, body, lines) =>
          assert forall b :: VouchedBy(ops[k], hash, unpack, b) ==> good(b);
          var _ := Stage(d, l.archive, l.staged, name, version, body, lines, hash, unpack, fits, good);
        case RequestOp(request) => var _ := d.WriteRequest(request);
        case ApplyOp(world) => var _ := ApplyStaged(d, l, hash, world, good);
      }
      k := k + 1;
    }
  }

  /* --------------------------------------------------------------------- health --- */

  datatype Unit = Active | Failed | Unsettled

  /** One look at the service: when the loop checked its deadline, what it saw, and when. */
  datatype Poll = Poll(check: int, unit: Unit, at: int)

  ghost predicate InOrder(polls: seq<Poll>) {
    forall i, j :: 0 <= i <= j < |polls| ==> polls[i].at <= polls[j].at
  }

  /** Nothing but active from look `i` to look `k`, long enough. */
  ghost predicate Settled(polls: seq<Poll>, settle: int, i: int, k: int)
    requires 0 <= i <= k < |polls|
  {
    (forall m :: i <= m <= k ==> polls[m].unit.Active?) && polls[k].at - polls[i].at >= settle
  }

  /** Up to look `k` the deadline had not passed and the service had not failed. */
  ghost predicate Waiting(polls: seq<Poll>, deadline: int, k: int)
    requires k < |polls|
  {
    forall m :: 0 <= m <= k ==> polls[m].check < deadline && !polls[m].unit.Failed?
  }

  /** Being active once is not enough: the service must stay so for `settle` without a break. */
  method WaitHealthy(polls: seq<Poll>, deadline: int, settle: int) returns (healthy: bool)
    requires InOrder(polls) && settle > 0
    ensures healthy <==> exists i, k :: 0 <= i <= k < |polls| && Waiting(polls, deadline, k) && Settled(polls, settle, i, k)
  {
    var stableSince: Option<int> := None;
    ghost var from := 0;
    var n := 0;
    while n < |polls|
      invariant 0 <= n <= |polls|
      invariant n > 0 ==> Waiting(polls, deadline, n - 1)
      invariant forall i, k :: 0 <= i <= k < n ==> !Settled(polls, settle, i, k)
      invariant stableSince.Some? ==> 0 <= from < n && stableSince.value == polls[from].at
      invariant stableSince.Some? ==> forall m :: from <= m < n ==> polls[m].unit.Active?
      invariant n > 0 ==> (stableSince.None? <==> !polls[n - 1].unit.Active?)
      invariant n == 0 ==> stableSince.None?
      invariant stableSince.Some? && from > 0 ==> !polls[from - 1].unit.Active?
    {
      if polls[n].check >= deadline {
        return false;
      }
      match polls[n].unit {
        case Active =>
          if stableSince.None? {
            stableSince := Some(polls[n].at);
            from := n;
          }
          if polls[n].at - stableSince.value >= settle {
            assert Waiting(polls, deadline, n) && Settled(polls, settle, from, n);
            return true;
          }
          forall i | 0 <= i <= n ensures !Settled(polls, settle, i, n) {
            if i < from {
              assert !polls[from - 1].unit.Active?;
            } else {
              assert polls[from].at <= polls[i].at;
            }
          }
        case Failed => return false;
        case Unsettled => stableSince := None;
      }
      n := n + 1;
    }
    return false;
  }

  /* ------------------------------------------------------------------- old copies --- */

  datatype Kept = Kept(path: Path, mod: int)

  ghost predicate NewestFirst(s: seq<Kept>) {
    forall i, j :: 0 <= i < j < |s| ==> s[i].mod >= s[j].mod
  }

  /** The first `i` are in their places: none behind them is newer. */
  ghost predicate Placed(s: seq<Kept>, i: nat) {
    forall p, q :: 0 <= p < i && p < q < |s| ==> s[p].mod >= s[q].mod
  }

  lemma ExchangeKeeps(s: seq<Kept>, i: nat, j: nat)
    requires i < j < |s| && Placed(s, i)
    ensures var t := s[i := s[j]][j := s[i]]; multiset(t) == multiset(s) && Placed(t, i)
  {
    var t := s[i := s[j]][j := s[i]];
    forall p, q | 0 <= p < i && p < q < |t| ensures t[p].mod >= t[q].mod {
      var r := if q == i then j else if q == j then i else q;
      assert t[p] == s[p] && t[q] == s[r];
    }
  }

  /** One pass: exchange whatever is newer into place `i`. */
  method PlaceNewest(a: array<Kept>, i: nat)
    requires i < a.Length && Placed(a[..], i)
    modifies a
    ensures multiset(a[..]) == multiset(old(a[..]))
    ensures Placed(a[..], i + 1)
  {
    hide Placed;
    var j := i + 1;
    while j < a.Length
      invariant i < j <= a.Length
      invariant multiset(a[..]) == multiset(old(a[..])) && Placed(a[..], i)
      invariant forall q :: i < q < j ==> a[i].mod >= a[q].mod
    {
      if a[j].mod > a[i].mod {
        ghost var before := a[..];
        ExchangeKeeps(before, i, j);
        a[i], a[j] := a[j], a[i];
        assert a[..] == before[i := before[j]][j := before[i]];
      }
      j := j + 1;
    }
    OneMorePlaced(a[..], i);
  }

  lemma OneMorePlaced(s: seq<Kept>, i: nat)
    requires i < |s| && Placed(s, i) && forall q :: i < q < |s| ==> s[i].mod >= s[q].mod
    ensures Placed(s, i + 1)
  {
  }

  /** The exchange sort the updater orders its backups with. */
  method SortNewestFirst(a: array<Kept>)
    modifies a
    ensures multiset(a[..]) == multiset(old(a[..]))
    ensures NewestFirst(a[..])
  {
    var i := 0;
    while i < a.Length
      invariant 0 <= i <= a.Length
      invariant multiset(a[..]) == multiset(old(a[..])) && Placed(a[..], i)
    {
      PlaceNewest(a, i);
      i := i + 1;
    }
  }

  /** Which backups go: all but the two newest. */
  method PruneRollbacks(a: array<Kept>) returns (removed: seq<Kept>)
    modifies a
    ensures multiset(a[..]) == multiset(old(a[..]))
    ensures removed == if a.Length <= 2 then [] else a[2..]
    ensures a.Length > 2 ==> forall r :: r in removed ==> r.mod <= a[0].mod && r.mod <= a[1].mod
  {
    if a.Length <= 2 {
      return [];
    }
    SortNewestFirst(a);
    removed := a[2..];
    forall r | r in removed ensures r.mod <= a[0].mod && r.mod <= a[1].mod {
      var k :| 0 <= k < |removed| && removed[k] == r;
      assert a[..][k + 2] == r;
    }
  }
}
