/** The log object: appending with bounded retry, announcing to watchers, and walking the chain. */
module AuditLog {
  import opened ByteStrings
  import opened AuditChain

  datatype Reason = PrevMismatch | ContentMismatch

  datatype Verdict = Intact | Broken(id: int, reason: Reason)

  /**
   * What the rest of the world does during one attempt of a retrying append: the entries other
   * processes commit between our read and our commit, whether a statement fails by itself, and
   * whether the caller's context has ended by the time the attempt has failed.
   */
  datatype Turn = Turn(rivals: seq<Content>, fault: bool, cancelled: bool)

  const ATTEMPTS := 8

  function NextId(rows: seq<Row>): int {
    if rows == [] then 1 else rows[|rows| - 1].id + 1
  }

  /** The log after these entries were committed one after the other. */
  function Extend(h: Hash, rows: seq<Row>, cs: seq<Content>): (r: seq<Row>)
    ensures |r| == |rows| + |cs| && rows <= r
    decreases |cs|
  {
    if cs == [] then rows else Extend(h, rows + [LinkRow(h, rows, NextId(rows), cs[0])], cs[1..])
  }

  /** What a retrying append leaves in the log, and whether it reports success. */
  function Outcome(turns: seq<Turn>, c: Content): (seq<Content>, bool) {
    if turns == [] then ([], false)
    else if !turns[0].fault && turns[0].rivals == [] then ([c], true)
    else if turns[0].cancelled then (turns[0].rivals, false)
    else
      var (written, ok) := Outcome(turns[1..], c);
      (turns[0].rivals + written, ok)
  }

  /** Turn `k` met nobody and nothing failed, and the context lasted until then. */
  ghost predicate ClearAt(turns: seq<Turn>, k: nat)
    requires k < |turns|
  {
    !turns[k].fault && turns[k].rivals == [] && forall j :: 0 <= j < k ==> !turns[j].cancelled
  }

  /** Everything the rivals committed during the first `n` turns. */
  function Rivals(turns: seq<Turn>, n: nat): seq<Content>
    requires n <= |turns|
  {
    if n == 0 then [] else Rivals(turns, n - 1) + turns[n - 1].rivals
  }

  class Log {
    const h: Hash
    var rows: seq<Row>

    /** What each registered watcher has been told, in order of registration. */
    var heard: seq<seq<Content>>

    constructor (h: Hash, rows: seq<Row>)
      ensures this.h == h && this.rows == rows && heard == []
    {
      this.h := h;
      this.rows := rows;
      this.heard := [];
    }

    method Watch()
      modifies this`heard
      ensures heard == old(heard) + [[]]
    {
      heard := heard + [[]];
    }

    /**
     * One attempt: read the head, build the row, commit. The store refuses the commit when the
     * table changed since it was read, and a refused or failed commit changes nothing.
     */
    method AppendOnce(c: Content, turn: Turn) returns (ok: bool)
      modifies this`rows
      ensures ok == (!turn.fault && turn.rivals == [])
      ensures rows == Extend(h, old(rows), if ok then [c] else turn.rivals)
    {
      var snapshot := rows;
      var prev := GENESIS;
      if snapshot != [] {
        prev := snapshot[|snapshot| - 1].hash;
      }
      var sum := ChainHash(h, prev, c);
      var row := Row(NextId(snapshot), c, prev, sum);

      rows := Extend(h, rows, turn.rivals);
      if turn.fault || rows != snapshot {
        return false;
      }
      rows := rows + [row];
      return true;
    }

    /** The retry loop: at most eight attempts, fewer when the caller's context ends. */
    method AppendChained(c: Content, turns: seq<Turn>) returns (ok: bool)
      requires |turns| == ATTEMPTS
      modifies this`rows
      ensures ok == Outcome(turns, c).1
      ensures rows == Extend(h, old(rows), Outcome(turns, c).0)
    {
      var attempt := 0;
      while attempt < ATTEMPTS
        invariant 0 <= attempt <= ATTEMPTS
        invariant Outcome(turns, c).1 == Outcome(turns[attempt..], c).1
        invariant Extend(h, old(rows), Outcome(turns, c).0) == Extend(h, rows, Outcome(turns[attempt..], c).0)
      {
        ghost var rest := turns[attempt..];
        assert rest[0] == turns[attempt] && rest[1..] == turns[attempt + 1..];
        ghost var before := rows;
        var done := AppendOnce(c, turns[attempt]);
        if done {
          return true;
        }
        if turns[attempt].cancelled {
          return false;
        }
        ExtendTwice(h, before, turns[attempt].rivals, Outcome(turns[attempt + 1..], c).0);
        attempt := attempt + 1;
      }
      return false;
    }

    /** Watchers are told after the fact, and only about an entry that is in the chain. */
    method Append(c: Content, turns: seq<Turn>) returns (ok: bool)
      requires |turns| == ATTEMPTS
      modifies this
      ensures ok == Outcome(turns, c).1
      ensures rows == Extend(h, old(rows), Outcome(turns, c).0)
      ensures |heard| == |old(heard)|
      ensures forall w :: 0 <= w < |heard| ==> heard[w] == old(heard)[w] + (if ok then [c] else [])
    {
      ok := AppendChained(c, turns);
      if !ok {
        return;
      }
      var w := 0;
      while w < |heard|
        invariant 0 <= w <= |heard| == |old(heard)|
        invariant rows == Extend(h, old(rows), Outcome(turns, c).0)
        invariant forall k :: 0 <= k < |heard| ==> heard[k] == old(heard)[k] + (if k < w then [c] else [])
      {
        heard := heard[w := heard[w] + [c]];
        w := w + 1;
      }
    }

    /** Walks the chain; a break names the first row that does not fit and says which test it failed. */
    method Verify() returns (v: Verdict, n: nat)
      ensures v.Intact? <==> ValidChain(h, rows)
      ensures v.Intact? ==> n == |rows|
      ensures v.Broken? ==> 1 <= n <= |rows| && ValidChain(h, rows[..n - 1]) && !Linked(h, rows, n - 1)
      ensures v.Broken? ==> v.id == rows[n - 1].id
      ensures v.Broken? ==> (v.reason.PrevMismatch? <==> rows[n - 1].prev != Head(rows[..n - 1]))
    {
      var prev: bytes := GENESIS;
      n := 0;
      while n < |rows|
        invariant 0 <= n <= |rows|
        invariant prev == Head(rows[..n])
        invariant forall i :: 0 <= i < n ==> Linked(h, rows, i)
      {
        var row := rows[n];
        PrefixOfLinked(h, rows, n);
        n := n + 1;
        if row.prev != prev {
          assert !Linked(h, rows, n - 1);
          return Broken(row.id, PrevMismatch), n;
        }
        var want := ChainHash(h, prev, row.content);
        if want != row.hash {
          assert !Linked(h, rows, n - 1);
          return Broken(row.id, ContentMismatch), n;
        }
        assert Linked(h, rows, n - 1);
        prev := row.hash;
      }
      return Intact, n;
    }
  }

  lemma PrefixOfLinked(h: Hash, rows: seq<Row>, n: nat)
    requires n <= |rows| && forall i :: 0 <= i < n ==> Linked(h, rows, i)
    ensures ValidChain(h, rows[..n])
  {
    forall i | 0 <= i < n ensures Linked(h, rows[..n], i) {
      LinkedOnPrefix(h, rows, n, i);
    }
  }

  lemma {:induction false} ExtendTwice(h: Hash, rows: seq<Row>, xs: seq<Content>, ys: seq<Content>)
    ensures Extend(h, Extend(h, rows, xs), ys) == Extend(h, rows, xs + ys)
    decreases |xs|
  {
    if xs == [] {
      assert xs + ys == ys;
    } else {
      assert (xs + ys)[0] == xs[0] && (xs + ys)[1..] == xs[1..] + ys;
      ExtendTwice(h, rows + [LinkRow(h, rows, NextId(rows), xs[0])], xs[1..], ys);
    }
  }

  /** Committing any entries keeps a valid log valid and records exactly those entries, in order. */
  lemma {:induction false} ExtendValid(h: Hash, rows: seq<Row>, cs: seq<Content>)
    requires ValidChain(h, rows)
    ensures ValidChain(h, Extend(h, rows, cs))
    ensures forall i :: 0 <= i < |cs| ==> Extend(h, rows, cs)[|rows| + i].content == cs[i]
    decreases |cs|
  {
    if cs != [] {
      var next := LinkRow(h, rows, NextId(rows), cs[0]);
      AppendValid(h, rows, next);
      ExtendValid(h, rows + [next], cs[1..]);
      forall i | 0 <= i < |cs| ensures Extend(h, rows, cs)[|rows| + i].content == cs[i] {
        if i > 0 {
          assert cs[1..][i - 1] == cs[i];
          assert Extend(h, rows, cs)[|rows| + i] == Extend(h, rows + [next], cs[1..])[|rows + [next]| + (i - 1)];
        } else {
          assert (rows + [next])[|rows|] == next;
        }
      }
    }
  }

  /**
   * A retrying append leaves its own entry exactly once, last, when it succeeds, and not at all when
   * it fails; the rest of what happened meanwhile is what the rivals wrote. It succeeds exactly when
   * some turn met neither a rival nor a fault before the context ended.
   */
  lemma {:induction false} OutcomeMeaning(turns: seq<Turn>, c: Content)
    ensures exists n :: 0 <= n <= |turns| && Outcome(turns, c).0 == Rivals(turns, n) + (if Outcome(turns, c).1 then [c] else [])
    ensures Outcome(turns, c).1 <==> exists k :: 0 <= k < |turns| && ClearAt(turns, k)
  {
    if turns == [] {
      assert Rivals(turns, 0) == [];
    } else {
      var t := turns[0];
      if !t.fault && t.rivals == [] {
        assert Rivals(turns, 0) == [];
        assert ClearAt(turns, 0);
      } else if t.cancelled {
        assert Rivals(turns, 0) == [];
        assert Rivals(turns, 1) == t.rivals;
      } else {
        var rest := turns[1..];
        OutcomeMeaning(rest, c);
        var n :| 0 <= n <= |rest| && Outcome(rest, c).0 == Rivals(rest, n) + (if Outcome(rest, c).1 then [c] else []);
        RivalsShift(turns, n);
        assert Outcome(turns, c).0 == Rivals(turns, n + 1) + (if Outcome(turns, c).1 then [c] else []);
        forall k | 0 <= k < |rest| ensures ClearAt(turns, k + 1) <==> ClearAt(rest, k) {
          assert forall j :: 0 < j <= k ==> turns[j] == rest[j - 1];
        }
        if k :| 0 <= k < |turns| && ClearAt(turns, k) {
          assert ClearAt(rest, k - 1);
        }
      }
    }
  }

  lemma {:induction false} RivalsShift(turns: seq<Turn>, n: nat)
    requires n < |turns|
    ensures Rivals(turns, n + 1) == turns[0].rivals + Rivals(turns[1..], n)
  {
    if n > 0 {
      RivalsShift(turns, n - 1);
      assert turns[1..][n - 1] == turns[n];
    }
  }
}
