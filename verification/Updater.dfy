/**
 * The privileged half of an update: verify what was staged, swap the binary, restart, and put the old
 * one back when that does not work. Every file operation may fail, half-done where the system allows
 * it, and the machine may stop between any two of them.
 */
module Updater {
  import opened ByteStrings
  import opened Wire

  type Path = string

  datatype Request = Request(version: string, sum: string)

  datatype Manifest = Manifest(version: string, sum: string)

  /**
   * The files. For the proof: what stood at one path after each operation so far, and what stood there
   * whenever an operation on the files failed; and how often a request could not be removed.
   */
  class Disk {
    const watched: Path
    var files: map<Path, bytes>
    var request: Option<Request>
    var manifest: Option<Manifest>
    ghost var shown: seq<Option<bytes>>
    ghost var faults: seq<Option<bytes>>
    ghost var stuck: nat

    constructor (watched: Path)
      ensures this.watched == watched && files == map[] && request == None && manifest == None
      ensures shown == [] && faults == [] && stuck == 0
    {
      this.watched := watched;
      files, request, manifest, shown, faults, stuck := map[], None, None, [], [], 0;
    }

    /** The next operation on the files may fail, for whatever reason. */
    method Trouble() returns (fails: bool)
      modifies `faults
      ensures faults == if fails then old(faults) + [At(watched)] else old(faults)
    {
      fails := *;
      if fails {
        faults := faults + [At(watched)];
      }
    }

    function At(p: Path): Option<bytes>
      reads this
    {
      if p in files then Some(files[p]) else None
    }

    /** Opens for writing and truncates. */
    method Create(p: Path) returns (ok: bool)
      modifies `files, `shown, `faults
      ensures files == if ok then old(files)[p := []] else old(files)
      ensures faults == if ok then old(faults) else old(faults) + [old(At(watched))]
      ensures shown == old(shown) + [At(watched)]
    {
      var fails := Trouble();
      ok := !fails;
      if ok {
        files := files[p := []];
      }
      shown := shown + [At(watched)];
    }

    /** A write that fails may have written a part. */
    method Append(p: Path, b: bytes) returns (ok: bool)
      requires p in files
      modifies `files, `shown, `faults
      ensures exists k: nat {:trigger b[..k]} :: k <= |b| && (ok ==> k == |b|) && files == old(files)[p := old(files)[p] + b[..k]]
      ensures faults == if ok then old(faults) else old(faults) + [old(At(watched))]
      ensures shown == old(shown) + [At(watched)]
    {
      var fails := Trouble();
      ok := !fails;
      var part: int := *;
      var k: nat := if ok || part < 0 || part > |b| then |b| else part;
      files := files[p := files[p] + b[..k]];
      shown := shown + [At(watched)];
    }

    /** Writing out what is buffered, closing, and setting the mode. */
    method Flush() returns (ok: bool)
      modifies `faults
      ensures faults == if ok then old(faults) else old(faults) + [At(watched)]
    {
      var fails := Trouble();
      return !fails;
    }

    /** Atomic: afterwards the target is the whole other file, or nothing has happened. */
    method Rename(from: Path, to: Path) returns (ok: bool)
      requires from != to
      modifies `files, `shown, `faults
      ensures ok ==> from in old(files) && files == old(files)[to := old(files)[from]] - {from}
      ensures !ok ==> files == old(files)
      ensures from in old(files) ==> faults == if ok then old(faults) else old(faults) + [old(At(watched))]
      ensures from !in old(files) ==> faults == old(faults)
      ensures shown == old(shown) + [At(watched)]
    {
      ok := false;
      if from in files {
        var fails := Trouble();
        ok := !fails;
      }
      if ok {
        files := files[to := files[from]] - {from};
      }
      shown := shown + [At(watched)];
    }

    method Remove(p: Path)
      modifies `files, `shown, `faults
      ensures faults == old(faults) || faults == old(faults) + [old(At(watched))]
      ensures files == if faults == old(faults) then old(files) - {p} else old(files)
      ensures shown == old(shown) + [At(watched)]
    {
      var fails := Trouble();
      if !fails {
        files := files - {p};
      }
      shown := shown + [At(watched)];
    }

    /** Up to `n` bytes from a place in a file; nothing means the read failed. */
    method Read(p: Path, at: nat, n: nat) returns (r: Option<bytes>)
      requires n > 0 && p in files && at <= |files[p]|
      modifies `faults
      ensures r.Some? ==> at + |r.value| <= |files[p]|
      ensures r.Some? ==> r.value == files[p][at..at + |r.value|] && (r.value == [] <==> at == |files[p]|)
      ensures faults == if r.Some? then old(faults) else old(faults) + [At(watched)]
    {
      var fails := Trouble();
      if fails {
        return None;
      }
      var left := |files[p]| - at;
      return Some(files[p][at..at + if left < n then left else n]);
    }

    method ReadAll(p: Path) returns (r: Option<bytes>)
      modifies `faults
      ensures r.Some? ==> r == At(p)
      ensures r.None? && p in files ==> faults == old(faults) + [At(watched)]
      ensures r.Some? || p !in files ==> faults == old(faults)
    {
      if p !in files {
        return None;
      }
      var fails := Trouble();
      return if fails then None else At(p);
    }

    /** Empties the staging directory; a failure may have removed some of it. */
    method RemoveStaged(archive: Path, staged: Path) returns (ok: bool)
      modifies `files, `manifest, `shown, `faults
      ensures files == old(files) - {archive} - {staged} || files == old(files) - {archive}
           || files == old(files) - {staged} || files == old(files)
      ensures manifest == old(manifest) || manifest == None
      ensures ok ==> manifest == None && files == old(files) - {archive} - {staged}
      ensures faults == if ok then old(faults) else old(faults) + [old(At(watched))]
      ensures shown == old(shown) + [At(watched)]
    {
      var fails := Trouble();
      ok := !fails;
      var first: bool, second: bool, third: bool := *, *, *;
      if ok || first {
        files := files - {archive};
      }
      if ok || second {
        files := files - {staged};
      }
      if ok || third {
        manifest := None;
      }
      assert ok ==> files == old(files) - {archive} - {staged};
      shown := shown + [At(watched)];
    }

    /** Written beside and renamed: the whole new manifest or the old state. */
    method WriteManifest(m: Manifest) returns (ok: bool)
      modifies `manifest, `faults
      ensures manifest == if ok then Some(m) else old(manifest)
      ensures faults == if ok then old(faults) else old(faults) + [At(watched)]
    {
      var fails := Trouble();
      ok := !fails;
      if ok {
        manifest := Some(m);
      }
    }

    /** Written beside and renamed, like the manifest. */
    method WriteRequest(r: Request) returns (ok: bool)
      modifies `request, `faults
      ensures request == if ok then Some(r) else old(request)
      ensures faults == if ok then old(faults) else old(faults) + [At(watched)]
    {
      var fails := Trouble();
      ok := !fails;
      if ok {
        request := Some(r);
      }
    }

    method RemoveRequest() returns (ok: bool)
      modifies `request, `stuck
      ensures request == if ok then None else old(request)
      ensures stuck == if ok then old(stuck) else old(stuck) + 1
    {
      ok := *;
      if ok {
        request := None;
      } else {
        stuck := stuck + 1;
      }
    }
  }

  /** Everything shown since then was one of these. */
  ghost predicate OnlyShown(before: seq<Option<bytes>>, now: seq<Option<bytes>>, a: Option<bytes>, b: Option<bytes>) {
    before <= now && forall i :: |before| <= i < |now| ==> now[i] == a || now[i] == b
  }

  /** Some operation failed since then, and this stood at the watched path when it did. */
  ghost predicate FailedOver(before: seq<Option<bytes>>, now: seq<Option<bytes>>, a: Option<bytes>) {
    before <= now && exists i :: |before| <= i < |now| && now[i] == a
  }

  lemma SomethingFailed(before: seq<Option<bytes>>, now: seq<Option<bytes>>, a: Option<bytes>)
    requires OnlyShown(before, now, a, a) && before != now
    ensures FailedOver(before, now, a)
  {
    assert now[|before|] == a;
  }

  const CHUNK := 32 * 1024

  /** Copies a file; when it fails, only the destination has changed. */
  method CopyFile(d: Disk, src: Path, dest: Path) returns (ok: bool)
    requires src != dest && dest != d.watched
    modifies d`files, d`shown, d`faults
    ensures d.files - {dest} == old(d.files) - {dest}
    ensures ok <==> src in old(d.files) && d.faults == old(d.faults)
    ensures ok ==> d.At(dest) == old(d.At(src))
    ensures OnlyShown(old(d.shown), d.shown, old(d.At(d.watched)), old(d.At(d.watched)))
    ensures OnlyShown(old(d.faults), d.faults, old(d.At(d.watched)), old(d.At(d.watched)))
  {
    ghost var before := d.files;
    if src !in d.files {
      return false;
    }
    ok := d.Create(dest);
    if !ok {
      return false;
    }
    var at := 0;
    while true
      invariant d.files - {dest} == before - {dest} && dest in d.files && src in before
      invariant at <= |before[src]| && d.files[dest] == before[src][..at]
      invariant d.At(d.watched) == old(d.At(d.watched))
      invariant OnlyShown(old(d.shown), d.shown, old(d.At(d.watched)), old(d.At(d.watched)))
      invariant d.faults == old(d.faults)
      decreases |before[src]| - at
    {
      assert src in d.files - {dest} && d.files[src] == (d.files - {dest})[src] == before[src];
      var chunk := d.Read(src, at, CHUNK);
      if chunk.None? {
        return false;
      }
      if chunk.value == [] {
        assert before[src][..at] == before[src];
        break;
      }
      ok := d.Append(dest, chunk.value);
      if !ok {
        return false;
      }
      assert chunk.value[..|chunk.value|] == chunk.value;
      assert before[src][..at] + chunk.value == before[src][..at + |chunk.value|];
      at := at + |chunk.value|;
    }
    ok := d.Flush();
  }

  /** Where things are. The staged binary and the archive it came in are all that the staging directory holds. */
  datatype Layout = Layout(binary: Path, temp: Path, staged: Path, backup: Path, archive: Path)

  ghost predicate Apart(l: Layout) {
    && l.binary != l.temp && l.binary != l.staged && l.binary != l.backup
    && l.temp != l.staged && l.temp != l.backup && l.staged != l.backup
    && l.archive != l.binary && l.archive != l.staged
  }

  /** Replaces the binary through a temporary file beside it: never anything but the old or the new one. */
  method InstallBinary(d: Disk, l: Layout, src: Path) returns (ok: bool)
    requires Apart(l) && d.watched == l.binary && (src == l.staged || src == l.backup)
    modifies d`files, d`shown, d`faults
    ensures d.files - {l.binary, l.temp} == old(d.files) - {l.binary, l.temp}
    ensures d.At(l.binary) == if ok then old(d.At(src)) else old(d.At(l.binary))
    ensures ok <==> src in old(d.files) && d.faults == old(d.faults)
    ensures OnlyShown(old(d.shown), d.shown, old(d.At(l.binary)), old(d.At(src)))
    ensures OnlyShown(old(d.faults), d.faults, old(d.At(l.binary)), old(d.At(l.binary)))
  {
    ghost var before := d.files;
    ok := CopyFile(d, src, l.temp);
    SameOutside(before, d.files, {l.temp});
    if !ok {
      d.Remove(l.temp);
      return false;
    }
    ok := d.Rename(l.temp, l.binary);
    if !ok {
      d.Remove(l.temp);
    }
  }

  /* ---------------------------------------------------------------------- apply --- */

  datatype Outcome = Outcome(ok: bool, rolledBack: bool, cleared: bool)

  /** What the outside world answers: the staged binary's own version, and how the service fares. */
  datatype World = World(executable: bool, reports: Option<string>, restarts: bool, healthy: bool)

  function Bare(version: string): string {
    if version != [] && version[0] == 'v' then version[1..] else version
  }

  /** Records an outcome and clears the request, so that the same one is not tried again. */
  method Finish(d: Disk, ok: bool, rolledBack: bool) returns (o: Outcome)
    modifies d`request, d`stuck
    ensures o.ok == ok && o.rolledBack == rolledBack && (o.cleared ==> d.request == None)
    ensures !o.cleared ==> d.request == old(d.request)
    ensures d.stuck == if o.cleared then old(d.stuck) else old(d.stuck) + 1
  {
    var cleared := d.RemoveRequest();
    return Outcome(ok, rolledBack, cleared);
  }

  /** Checks before anything is touched: the request, the manifest and the staged bytes belong together. */
  method Verify(d: Disk, l: Layout, hash: bytes -> string, req: Request, w: World) returns (ok: bool)
    requires Apart(l)
    modifies d`faults
    ensures ok ==> Vetted(Some(req), d.manifest, d.At(l.staged), hash) && Runs(w, req.version)
    ensures Vetted(Some(req), d.manifest, d.At(l.staged), hash) && Runs(w, req.version) ==> (ok <==> d.faults == old(d.faults))
    ensures OnlyShown(old(d.faults), d.faults, d.At(d.watched), d.At(d.watched))
  {
    if d.manifest.None? || d.manifest.value.version != req.version {
      return false;
    }
    var staged := d.ReadAll(l.staged);
    if staged.None? {
      return false;
    }
    var sum := hash(staged.value);
    if sum != d.manifest.value.sum || sum != req.sum {
      return false;
    }
    assert req.version == "v" + Bare(req.version) || Bare(req.version) == req.version;
    return w.executable && (w.reports == Some(Bare(req.version)) || w.reports == Some(req.version));
  }

  /** The staged binary runs here and gives the version that was asked for, perhaps without its leading v. */
  predicate Runs(w: World, version: string) {
    w.executable && w.reports.Some? && (w.reports.value == version || "v" + w.reports.value == version)
  }

  method Rollback(d: Disk, l: Layout) returns (o: Outcome)
    requires Apart(l) && d.watched == l.binary
    modifies d`files, d`shown, d`faults, d`request, d`stuck
    ensures !o.ok && (o.cleared ==> d.request == None) && (!o.cleared ==> d.request == old(d.request))
    ensures d.stuck == if o.cleared then old(d.stuck) else old(d.stuck) + 1
    ensures o.rolledBack <==> l.backup in old(d.files) && d.faults == old(d.faults)
    ensures OnlyShown(old(d.faults), d.faults, old(d.At(l.binary)), old(d.At(l.binary)))
    ensures o.rolledBack ==> d.At(l.binary) == old(d.At(l.backup))
    ensures !o.rolledBack ==> d.At(l.binary) == old(d.At(l.binary))
    ensures d.files - {l.binary, l.temp} == old(d.files) - {l.binary, l.temp}
    ensures OnlyShown(old(d.shown), d.shown, old(d.At(l.binary)), old(d.At(l.backup)))
  {
    var ok := InstallBinary(d, l, l.backup);
    o := Finish(d, false, ok);
  }

  /** Beside the binary, its temporary file and the backup, nothing was touched; only what was staged may be gone. */
  ghost predicate OnlyUnstaged(l: Layout, before: map<Path, bytes>, now: map<Path, bytes>) {
    forall p :: p !in {l.binary, l.temp, l.backup} ==>
      (p in now ==> p in before && now[p] == before[p]) && (p in before && p != l.staged && p != l.archive ==> p in now)
  }

  /** The request, the manifest and the staged bytes belong together. */
  predicate Vetted(request: Option<Request>, manifest: Option<Manifest>, staged: Option<bytes>, hash: bytes -> string) {
    && request.Some? && manifest.Some? && staged.Some?
    && manifest.value.version == request.value.version
    && hash(staged.value) == request.value.sum == manifest.value.sum
  }

  /**
   * Installs what is staged. At every moment, whatever fails and wherever it stops, the binary is the
   * complete old or the complete staged one. After a success the staging directory is emptied, as far as
   * that works.
   *
   * As long as no file operation fails, an update that may be installed succeeds exactly if the service
   * comes back, and is rolled back otherwise. One that neither succeeds nor is rolled back has left in place
   * a binary over which an operation failed: the old one if that was the swap, the new one if that was the
   * way back.
   */
  method Apply(d: Disk, l: Layout, hash: bytes -> string, w: World) returns (r: Option<Outcome>)
    requires Apart(l) && d.watched == l.binary
    modifies d`files, d`manifest, d`shown, d`faults, d`request, d`stuck
    ensures var ready := Installable(old(d.request), old(d.manifest), old(d.At(l.staged)), hash, w) && l.binary in old(d.files);
      && (r.Some? && d.faults == old(d.faults) ==>
            && (r.value.ok <==> ready && w.restarts && w.healthy)
            && (r.value.rolledBack <==> ready && !(w.restarts && w.healthy)))
      && (r.Some? && ready && !r.value.ok && !r.value.rolledBack ==> FailedOver(old(d.faults), d.faults, d.At(l.binary)))
    ensures r.Some? && r.value.ok && d.faults == old(d.faults) ==> d.manifest.None? && l.staged !in d.files && l.archive !in d.files
    ensures r.Some? ==> (r.value.cleared <==> d.stuck == old(d.stuck))
    ensures r.None? <==> old(d.request).None?
    ensures OnlyShown(old(d.shown), d.shown, old(d.At(l.binary)), old(d.At(l.staged)))
    ensures d.At(l.binary) == old(d.At(l.binary)) || d.At(l.binary) == old(d.At(l.staged))
    ensures !Vetted(old(d.request), old(d.manifest), old(d.At(l.staged)), hash) ==>
              OnlyShown(old(d.shown), d.shown, old(d.At(l.binary)), old(d.At(l.binary))) && d.At(l.binary) == old(d.At(l.binary))
    ensures r.Some? && r.value.ok ==> d.At(l.binary) == old(d.At(l.staged)) && w.restarts && w.healthy
    ensures r.Some? && r.value.ok ==> Vetted(old(d.request), old(d.manifest), old(d.At(l.staged)), hash)
    ensures r.Some? && r.value.rolledBack ==> !r.value.ok && l.binary in old(d.files) && d.At(l.binary) == old(d.At(l.binary))
    ensures r.Some? && r.value.cleared ==> d.request == None
    ensures r.Some? && !r.value.cleared ==> d.request == old(d.request)
    ensures OnlyUnstaged(l, old(d.files), d.files)
    ensures d.manifest == old(d.manifest) || d.manifest == None
    ensures !(r.Some? && r.value.ok) ==> d.At(l.staged) == old(d.At(l.staged)) && d.manifest == old(d.manifest)
  {
    if d.request.None? {
      return None;
    }
    var req := d.request.value;
    var o: Outcome;
    var ok := Verify(d, l, hash, req, w);
    if !ok {
      if Installable(d.request, d.manifest, d.At(l.staged), hash, w) {
        SomethingFailed(old(d.faults), d.faults, d.At(l.binary));
      }
      o := Finish(d, false, false);
      return Some(o);
    }
    ok := Backup(d, l);
    if !ok {
      if l.binary in old(d.files) {
        SomethingFailed(old(d.faults), d.faults, d.At(l.binary));
      }
      o := Finish(d, false, false);
      return Some(o);
    }
    o := Replace(d, l, w);
    return Some(o);
  }

  /** A request that belongs to what is staged, for a binary that runs here. */
  predicate Installable(request: Option<Request>, manifest: Option<Manifest>, staged: Option<bytes>, hash: bytes -> string, w: World) {
    Vetted(request, manifest, staged, hash) && Runs(w, request.value.version)
  }

  /** The binary as it is now, aside. */
  method Backup(d: Disk, l: Layout) returns (ok: bool)
    requires Apart(l) && d.watched == l.binary
    modifies d`files, d`shown, d`faults
    ensures OnlyUnstaged(l, old(d.files), d.files)
    ensures d.At(l.binary) == old(d.At(l.binary)) && d.At(l.staged) == old(d.At(l.staged))
    ensures ok ==> d.At(l.backup) == d.At(l.binary)
    ensures ok <==> l.binary in old(d.files) && d.faults == old(d.faults)
    ensures OnlyShown(old(d.faults), d.faults, old(d.At(l.binary)), old(d.At(l.binary)))
    ensures OnlyShown(old(d.shown), d.shown, old(d.At(l.binary)), old(d.At(l.binary)))
  {
    ghost var start := d.files;
    ok := CopyFile(d, l.binary, l.backup);
    assert forall p :: p in start && p != l.backup ==> p in d.files - {l.backup} && (d.files - {l.backup})[p] == start[p];
    assert forall p :: p in d.files && p != l.backup ==> p in start - {l.backup} && d.files[p] == (d.files - {l.backup})[p];
  }

  /** With the backup made: the swap, the restart, and the way back if the service does not come up. */
  method Replace(d: Disk, l: Layout, w: World) returns (o: Outcome)
    requires Apart(l) && d.watched == l.binary && l.staged in d.files
    requires l.binary in d.files && d.At(l.backup) == d.At(l.binary)
    modifies d`files, d`manifest, d`shown, d`faults, d`request, d`stuck
    ensures d.faults == old(d.faults) ==> (o.ok <==> w.restarts && w.healthy) && (o.rolledBack <==> !(w.restarts && w.healthy))
    ensures !o.ok && !o.rolledBack ==> FailedOver(old(d.faults), d.faults, d.At(l.binary))
    ensures o.ok && d.faults == old(d.faults) ==> d.manifest.None? && l.staged !in d.files && l.archive !in d.files
    ensures o.cleared <==> d.stuck == old(d.stuck)
    ensures OnlyShown(old(d.shown), d.shown, old(d.At(l.binary)), old(d.At(l.staged)))
    ensures d.At(l.binary) == old(d.At(l.binary)) || d.At(l.binary) == old(d.At(l.staged))
    ensures o.ok ==> d.At(l.binary) == old(d.At(l.staged)) && w.restarts && w.healthy
    ensures o.rolledBack ==> !o.ok && d.At(l.binary) == old(d.At(l.binary))
    ensures o.cleared ==> d.request == None
    ensures !o.cleared ==> d.request == old(d.request)
    ensures OnlyUnstaged(l, old(d.files), d.files)
    ensures d.manifest == old(d.manifest) || d.manifest == None
    ensures !o.ok ==> d.At(l.staged) == old(d.At(l.staged)) && d.manifest == old(d.manifest)
  {
    ghost var start := d.files;
    var ok := InstallBinary(d, l, l.staged);
    SameOutside(start, d.files, {l.binary, l.temp});
    if !ok {
      SomethingFailed(old(d.faults), d.faults, d.At(l.binary));
      o := Finish(d, false, false);
      return;
    }
    if !w.restarts || !w.healthy {
      ghost var swapped := d.files;
      o := Rollback(d, l);
      if !o.rolledBack {
        SomethingFailed(old(d.faults), d.faults, d.At(l.binary));
      }
      SameOutside(swapped, d.files, {l.binary, l.temp});
      return;
    }
    var _ := d.RemoveStaged(l.archive, l.staged);
    o := Finish(d, true, false);
  }

  lemma SameOutside(a: map<Path, bytes>, b: map<Path, bytes>, ps: set<Path>)
    requires a - ps == b - ps
    ensures forall p :: p !in ps ==> (p in a <==> p in b) && (p in a ==> a[p] == b[p])
  {
    forall p | p !in ps ensures (p in a <==> p in b) && (p in a ==> a[p] == b[p]) {
      assert p in a <==> p in a - ps;
      assert p in b <==> p in b - ps;
      if p in a {
        assert (a - ps)[p] == (b - ps)[p];
      }
    }
  }
}
