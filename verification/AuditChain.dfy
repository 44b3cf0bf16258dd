/** The hash chain of the audit log: what is hashed, when a log verifies, and what its head binds. */
module AuditChain {
  import opened ByteStrings

  /** A SHA-256 sum in hexadecimal: 64 bytes. */
  type Digest = d: bytes | |d| == 64 witness Repeat(ZERO, 64)

  type Hash = bytes -> Digest

  /** `prev_hash` of the very first entry: 64 ASCII zeros. */
  const GENESIS: Digest := Repeat(ZERO, 64)

  /** The fields of an entry that the chain hashes. */
  datatype Content = Content(ts: int, actor: bytes, action: bytes, object_: bytes, srcIP: bytes, detail: bytes)

  /** One row of `audit_log`. Rows are kept in the order of their ids. */
  datatype Row = Row(id: int, content: Content, prev: bytes, hash: bytes)

  /** One length-prefixed field: decimal length, a colon, the bytes. */
  function Field(f: bytes): (r: bytes)
    ensures |r| > |f|
  {
    Digits(|f|) + [COLON] + f
  }

  function EncodeFields(fs: seq<bytes>): bytes {
    if fs == [] then [] else Field(fs[0]) + EncodeFields(fs[1..])
  }

  function Fields(c: Content): (fs: seq<bytes>)
    ensures |fs| == 6
  {
    [FormatInt(c.ts), c.actor, c.action, c.object_, c.srcIP, c.detail]
  }

  /** Everything that goes into an entry's hash. */
  function ChainInput(prev: bytes, c: Content): bytes {
    prev + EncodeFields(Fields(c))
  }

  lemma FeedField(fed: bytes, fs: seq<bytes>, i: nat)
    requires i < |fs|
    ensures fed + EncodeFields(fs[i..]) == fed + Digits(|fs[i]|) + [COLON] + fs[i] + EncodeFields(fs[i + 1..])
  {
    assert fs[i..][0] == fs[i] && fs[i..][1..] == fs[i + 1..];
  }

  /** `chainHash`: the sum is fed the previous hash and then field by field. */
  method ChainHash(h: Hash, prev: bytes, c: Content) returns (sum: Digest)
    ensures sum == h(ChainInput(prev, c))
  {
    var fed := prev;
    var fs := Fields(c);
    var i := 0;
    while i < |fs|
      invariant 0 <= i <= |fs|
      invariant fed + EncodeFields(fs[i..]) == ChainInput(prev, c)
    {
      FeedField(fed, fs, i);
      fed := fed + Digits(|fs[i]|);
      fed := fed + [COLON];
      fed := fed + fs[i];
      i := i + 1;
    }
    assert fed == fed + EncodeFields(fs[i..]);
    sum := h(fed);
  }

  /* ------------------------------------------------ the encoding is injective --- */

  /** A field can be read back off the front of whatever follows it. */
  lemma FieldSplits(f: bytes, x: bytes, g: bytes, y: bytes)
    requires Field(f) + x == Field(g) + y
    ensures f == g && x == y
  {
    var whole := Field(f) + x;
    var m, n := |Digits(|f|)|, |Digits(|g|)|;
    assert whole[m] == COLON && whole[n] == COLON;
    assert forall k :: 0 <= k < m ==> whole[k] == Digits(|f|)[k];
    assert forall k :: 0 <= k < n ==> whole[k] == Digits(|g|)[k];
    assert m == n;
    assert Digits(|f|) == whole[..m] == Digits(|g|);
    assert |f| == |g|;
    assert f == whole[m + 1..m + 1 + |f|] == g;
    assert x == whole[m + 1 + |f|..] == y;
  }

  lemma {:induction false} FieldsInjective(fs: seq<bytes>, gs: seq<bytes>)
    requires |fs| == |gs|
    requires EncodeFields(fs) == EncodeFields(gs)
    ensures fs == gs
  {
    if fs != [] {
      FieldSplits(fs[0], EncodeFields(fs[1..]), gs[0], EncodeFields(gs[1..]));
      FieldsInjective(fs[1..], gs[1..]);
      assert fs == [fs[0]] + fs[1..] && gs == [gs[0]] + gs[1..];
    }
  }

  /** What is hashed determines the previous hash and every field: no byte can move across a boundary. */
  lemma ChainInputInjective(p: bytes, c: Content, q: bytes, d: Content)
    requires |p| == |q|
    requires ChainInput(p, c) == ChainInput(q, d)
    ensures p == q && c == d
  {
    assert p == ChainInput(p, c)[..|p|] == q;
    assert EncodeFields(Fields(c)) == ChainInput(p, c)[|p|..] == EncodeFields(Fields(d));
    FieldsInjective(Fields(c), Fields(d));
    var fs, gs := Fields(c), Fields(d);
    assert fs[0] == gs[0] && fs[1] == gs[1] && fs[2] == gs[2] && fs[3] == gs[3] && fs[4] == gs[4] && fs[5] == gs[5];
    FormatIntInjective(c.ts, d.ts);
  }

  /* ------------------------------------------------------------ valid chains --- */

  function Head(rows: seq<Row>): bytes {
    if rows == [] then GENESIS else rows[|rows| - 1].hash
  }

  ghost predicate Linked(h: Hash, rows: seq<Row>, i: nat)
    requires i < |rows|
  {
    && rows[i].prev == Head(rows[..i])
    && rows[i].hash == h(ChainInput(rows[i].prev, rows[i].content))
  }

  ghost predicate ValidChain(h: Hash, rows: seq<Row>) {
    forall i :: 0 <= i < |rows| ==> Linked(h, rows, i)
  }

  /** The row an append adds behind `rows`. */
  function LinkRow(h: Hash, rows: seq<Row>, id: int, c: Content): Row {
    Row(id, c, Head(rows), h(ChainInput(Head(rows), c)))
  }

  lemma LinkedOnPrefix(h: Hash, rows: seq<Row>, n: nat, i: nat)
    requires i < n <= |rows|
    ensures Linked(h, rows[..n], i) <==> Linked(h, rows, i)
  {
    assert rows[..n][..i] == rows[..i];
  }

  lemma PrefixValid(h: Hash, rows: seq<Row>, n: nat)
    requires ValidChain(h, rows) && n <= |rows|
    ensures ValidChain(h, rows[..n])
  {
    forall i | 0 <= i < n ensures Linked(h, rows[..n], i) {
      LinkedOnPrefix(h, rows, n, i);
    }
  }

  /** Appending the linked row, and only that, keeps a log valid. */
  lemma AppendValid(h: Hash, rows: seq<Row>, r: Row)
    requires ValidChain(h, rows)
    ensures ValidChain(h, rows + [r]) <==> r == LinkRow(h, rows, r.id, r.content)
  {
    var all := rows + [r];
    assert all[..|rows|] == rows;
    forall i | 0 <= i < |rows| ensures Linked(h, all, i) {
      LinkedOnPrefix(h, all, |rows|, i);
    }
    assert ValidChain(h, all) <==> Linked(h, all, |rows|);
  }

  lemma HeadLength(h: Hash, rows: seq<Row>)
    requires ValidChain(h, rows)
    ensures |Head(rows)| == 64
  {
    if rows != [] {
      assert Linked(h, rows, |rows| - 1);
    }
  }

  /* --------------------------------------------------- the head binds the log --- */

  /** Equal row by row in everything but the row id, which the hash does not cover. */
  ghost predicate SameRows(a: seq<Row>, b: seq<Row>) {
    && |a| == |b|
    && forall i :: 0 <= i < |a| ==> a[i] == b[i].(id := a[i].id)
  }

  ghost function Inputs(rows: seq<Row>): set<bytes> {
    set i | 0 <= i < |rows| :: ChainInput(rows[i].prev, rows[i].content)
  }

  /** Two different strings hashed by these logs have the same sum. */
  ghost predicate Collision(h: Hash, a: seq<Row>, b: seq<Row>) {
    exists x, y :: x in Inputs(a) && y in Inputs(b) && x != y && h(x) == h(y)
  }

  /** Something in the log hashes to the genesis value. */
  ghost predicate GenesisHit(h: Hash, rows: seq<Row>) {
    exists x :: x in Inputs(rows) && h(x) == GENESIS
  }

  /** The hash behaved ideally on everything these two logs hashed. */
  ghost predicate Ideal(h: Hash, a: seq<Row>, b: seq<Row>) {
    !Collision(h, a, b) && !GenesisHit(h, a) && !GenesisHit(h, b)
  }

  lemma InputsOfPrefix(rows: seq<Row>, n: nat)
    requires n <= |rows|
    ensures Inputs(rows[..n]) <= Inputs(rows)
  {
    forall x | x in Inputs(rows[..n]) ensures x in Inputs(rows) {
      var i :| 0 <= i < n && x == ChainInput(rows[..n][i].prev, rows[..n][i].content);
      assert x == ChainInput(rows[i].prev, rows[i].content);
    }
  }

  lemma IdealOnPrefixes(h: Hash, a: seq<Row>, m: nat, b: seq<Row>, n: nat)
    requires Ideal(h, a, b) && m <= |a| && n <= |b|
    ensures Ideal(h, a[..m], b[..n])
  {
    InputsOfPrefix(a, m);
    InputsOfPrefix(b, n);
  }

  lemma HeadIsHashed(h: Hash, rows: seq<Row>)
    requires ValidChain(h, rows) && rows != []
    ensures var r := rows[|rows| - 1];
      r.prev == Head(rows[..|rows| - 1]) && ChainInput(r.prev, r.content) in Inputs(rows) && Head(rows) == h(ChainInput(r.prev, r.content))
  {
    assert Linked(h, rows, |rows| - 1);
  }

  lemma SameRowsGrow(a: seq<Row>, b: seq<Row>)
    requires a != [] && b != []
    requires SameRows(a[..|a| - 1], b[..|b| - 1])
    requires a[|a| - 1] == b[|b| - 1].(id := a[|a| - 1].id)
    ensures SameRows(a, b)
  {
    forall i | 0 <= i < |a| - 1 ensures a[i] == b[i].(id := a[i].id) {
      assert a[i] == a[..|a| - 1][i] && b[i] == b[..|b| - 1][i];
    }
  }

  /**
   * Two logs that verify and end in the same hash are the same log, unless the hash broke on
   * something one of them contains.
   */
  lemma {:induction false} HeadBindsLog(h: Hash, a: seq<Row>, b: seq<Row>)
    requires ValidChain(h, a) && ValidChain(h, b)
    requires Head(a) == Head(b)
    requires Ideal(h, a, b)
    ensures SameRows(a, b)
    decreases |a|
  {
    var m, n := |a| - 1, |b| - 1;
    if a != [] { HeadIsHashed(h, a); }
    if b != [] { HeadIsHashed(h, b); }
    if a != [] && b != [] {
      PrefixValid(h, a, m);
      PrefixValid(h, b, n);
      HeadLength(h, a[..m]);
      HeadLength(h, b[..n]);
      ChainInputInjective(a[m].prev, a[m].content, b[n].prev, b[n].content);
      IdealOnPrefixes(h, a, m, b, n);
      HeadBindsLog(h, a[..m], b[..n]);
      SameRowsGrow(a, b);
    }
  }

  /** No hash occurs twice along a valid log. */
  lemma HeadsDistinct(h: Hash, rows: seq<Row>, i: nat, j: nat)
    requires ValidChain(h, rows) && Ideal(h, rows, rows)
    requires i <= |rows| && j <= |rows|
    requires Head(rows[..i]) == Head(rows[..j])
    ensures i == j
  {
    PrefixValid(h, rows, i);
    PrefixValid(h, rows, j);
    IdealOnPrefixes(h, rows, i, rows, j);
    HeadBindsLog(h, rows[..i], rows[..j]);
  }

  /**
   * Removing, repeating and reordering rows: among all the logs that can be made out of the rows
   * of a valid one, exactly its prefixes verify. Only a cut at the end goes unnoticed.
   */
  lemma {:induction false} RearrangedIffPrefix(h: Hash, rows: seq<Row>, t: seq<Row>)
    requires ValidChain(h, rows) && Ideal(h, rows, rows)
    requires forall i :: 0 <= i < |t| ==> t[i] in rows
    ensures ValidChain(h, t) <==> t <= rows
  {
    if t <= rows {
      PrefixValid(h, rows, |t|);
      assert t == rows[..|t|];
    }
    if ValidChain(h, t) && t != [] {
      var n := |t| - 1;
      PrefixValid(h, t, n);
      RearrangedIffPrefix(h, rows, t[..n]);
      assert n <= |rows| && t[..n] == rows[..n];
      assert Linked(h, t, n);
      var j :| 0 <= j < |rows| && rows[j] == t[n];
      assert Linked(h, rows, j);
      HeadsDistinct(h, rows, n, j);
      assert rows[..n + 1] == rows[..n] + [rows[n]];
      assert t == t[..n] + [t[n]] == rows[..n + 1];
    }
  }

  /** Deleting one row of a valid log is noticed exactly when it was not the last one. */
  lemma DeletionNoticedIff(h: Hash, rows: seq<Row>, i: nat)
    requires ValidChain(h, rows) && Ideal(h, rows, rows)
    requires i < |rows|
    ensures ValidChain(h, rows[..i] + rows[i + 1..]) <==> i == |rows| - 1
  {
    var t := rows[..i] + rows[i + 1..];
    RearrangedIffPrefix(h, rows, t);
    if i == |rows| - 1 {
      assert t == rows[..i];
    } else if t <= rows {
      assert t[i] == rows[i + 1] == rows[i];
      assert Linked(h, rows, i) && Linked(h, rows, i + 1);
      HeadsDistinct(h, rows, i, i + 1);
      assert false;
    }
  }

  /** Changing anything but the id of a row that has a successor is noticed. */
  lemma EditNoticed(h: Hash, rows: seq<Row>, i: nat, r: Row)
    requires ValidChain(h, rows) && i + 1 < |rows|
    requires r != rows[i].(id := r.id)
    requires Ideal(h, rows, rows[i := r])
    ensures !ValidChain(h, rows[i := r])
  {
    var t := rows[i := r];
    if ValidChain(h, t) {
      assert Head(t) == Head(rows);
      assert !SameRows(rows, t) by {
        assert t[i] == r;
      }
      HeadBindsLog(h, rows, t);
      assert false;
    }
  }

  /** The last row can be rewritten unnoticed, but only to a row whose hash was recomputed. */
  lemma LastRowEditableIff(h: Hash, rows: seq<Row>, r: Row)
    requires ValidChain(h, rows) && rows != []
    ensures ValidChain(h, rows[|rows| - 1 := r]) <==> r == LinkRow(h, rows[..|rows| - 1], r.id, r.content)
  {
    var n := |rows| - 1;
    PrefixValid(h, rows, n);
    AppendValid(h, rows[..n], r);
    assert rows[n := r] == rows[..n] + [r];
  }
}
