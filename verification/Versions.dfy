/** Release ordering: parsing a tag, and the hand-written comparison with natural ordering of mixed identifiers. */
module Versions {
  import opened ByteStrings
  import opened Wire
  import opened Orders

  const DOT: byte := 46

  /** A parsed tag. `pre` holds the pre-release identifiers and is empty for a final release. */
  datatype Version = Version(nums: seq<int>, pre: seq<bytes>)

  const VERSION_PARTS := 4

  /* ----------------------------------------------------------- machine numbers --- */

  /** `strconv.Atoi`: an optional sign, at least one digit, and a value that fits. */
  function Atoi(s: bytes): (r: Option<int>)
    ensures r.Some? ==> FitsInt64(r.value)
  {
    if s == [] then None
    else
      var body := if s[0] == MINUS || s[0] == PLUS then s[1..] else s;
      if body == [] || !AllDigits(body) then None
      else
        var n: int := (if s[0] == MINUS then -1 else 1) * Value(body);
        if FitsInt64(n) then Some(n) else None
  }

  /** Atoi of a run of digits with its error dropped: too large a number becomes the largest one. */
  function Saturated(digits: bytes): int
    requires AllDigits(digits)
  {
    if Value(digits) > MAX_INT64 then MAX_INT64 else Value(digits)
  }

  /* --------------------------------------------------------- natural ordering --- */

  datatype Token = Number(n: int) | Letter(c: byte)

  /** The length of the run of digits a string starts with. */
  function RunLength(s: bytes): (n: nat)
    ensures n <= |s| && AllDigits(s[..n])
    ensures n < |s| ==> !IsDigit(s[n])
  {
    if s == [] || !IsDigit(s[0]) then 0
    else
      var m := RunLength(s[1..]);
      assert forall i :: 0 < i < m + 1 ==> s[i] == s[1..][i - 1];
      1 + m
  }

  /** A string as its runs of digits and its other bytes. */
  function Tokens(s: bytes): seq<Token>
    decreases |s|
  {
    if s == [] then []
    else if IsDigit(s[0]) then [Number(Saturated(s[..RunLength(s)]))] + Tokens(s[RunLength(s)..])
    else [Letter(s[0])] + Tokens(s[1..])
  }

  /** Numbers by value, other bytes by code; a number stands where the digit codes stand. */
  function CompareToken(x: Token, y: Token): int {
    match (x, y)
    case (Number(m), Number(n)) => CompareInt(m, n)
    case (Letter(c), Letter(d)) => CompareInt(c, d)
    case (Number(_), Letter(d)) => if d < ZERO then 1 else -1
    case (Letter(c), Number(_)) => if c < ZERO then -1 else 1
  }

  method LeadingDigits(s: bytes) returns (rest: bytes, n: int)
    ensures rest == s[RunLength(s)..] && n == Saturated(s[..RunLength(s)])
  {
    var i := 0;
    while i < |s| && IsDigit(s[i])
      invariant 0 <= i <= |s|
      invariant forall k :: 0 <= k < i ==> IsDigit(s[k])
    {
      i := i + 1;
    }
    RunLengthIs(s, i);
    n := Saturated(s[..i]);
    rest := s[i..];
  }

  lemma {:induction false} RunLengthIs(s: bytes, i: nat)
    requires i <= |s| && forall k :: 0 <= k < i ==> IsDigit(s[k])
    requires i == |s| || !IsDigit(s[i])
    ensures RunLength(s) == i
  {
    if i > 0 {
      RunLengthIs(s[1..], i - 1);
    }
  }

  /** `compareNatural`, byte by byte, is the lexicographic order of the two token sequences. */
  method CompareNatural(x: bytes, y: bytes) returns (r: int)
    ensures r == Lex(CompareToken, Tokens(x), Tokens(y))
  {
    var a, b := x, y;
    while |a| > 0 && |b| > 0
      invariant Lex(CompareToken, Tokens(x), Tokens(y)) == Lex(CompareToken, Tokens(a), Tokens(b))
      decreases |a|
    {
      LexStep(a, b);
      if IsDigit(a[0]) && IsDigit(b[0]) {
        var ra, na := LeadingDigits(a);
        var rb, nb := LeadingDigits(b);
        if na != nb {
          return Sign(Wrap64(na - nb));
        }
        a, b := ra, rb;
      } else {
        if a[0] != b[0] {
          return CompareInt(a[0], b[0]);
        }
        a, b := a[1..], b[1..];
      }
    }
    return CompareInt(|a|, |b|);
  }

  lemma LexStep(a: bytes, b: bytes)
    requires a != [] && b != []
    ensures var ta, tb := Tokens(a), Tokens(b);
      ta != [] && tb != [] && Lex(CompareToken, ta, tb) ==
        if CompareToken(ta[0], tb[0]) != 0 then CompareToken(ta[0], tb[0]) else Lex(CompareToken, ta[1..], tb[1..])
    ensures IsDigit(a[0]) ==> Tokens(a)[0] == Number(Saturated(a[..RunLength(a)])) && Tokens(a)[1..] == Tokens(a[RunLength(a)..]) && RunLength(a) > 0
    ensures IsDigit(b[0]) ==> Tokens(b)[0] == Number(Saturated(b[..RunLength(b)])) && Tokens(b)[1..] == Tokens(b[RunLength(b)..])
    ensures !IsDigit(a[0]) ==> Tokens(a)[0] == Letter(a[0]) && Tokens(a)[1..] == Tokens(a[1..])
    ensures !IsDigit(b[0]) ==> Tokens(b)[0] == Letter(b[0]) && Tokens(b)[1..] == Tokens(b[1..])
  {
  }

  /* ------------------------------------------------- pre-release identifiers --- */

  /** The order the comparison is meant to compute: integers without overflow. */
  function IdOrder(a: bytes, b: bytes): int {
    var na, nb := Atoi(a), Atoi(b);
    if na.Some? && nb.Some? then CompareInt(na.value, nb.value)
    else if na.Some? then -1
    else if nb.Some? then 1
    else Lex(CompareToken, Tokens(a), Tokens(b))
  }

  /** `comparePre`: the same, with the subtraction the machine performs. */
  function ComparePre(a: bytes, b: bytes): int {
    var na, nb := Atoi(a), Atoi(b);
    if na.Some? && nb.Some? then Sign(Wrap64(na.value - nb.value)) else IdOrder(a, b)
  }

  method RunComparePre(a: bytes, b: bytes) returns (r: int)
    ensures r == ComparePre(a, b)
  {
    var na, nb := Atoi(a), Atoi(b);
    if na.Some? && nb.Some? {
      return Sign(Wrap64(na.value - nb.value));
    } else if na.Some? {
      return -1;
    } else if nb.Some? {
      return 1;
    }
    r := CompareNatural(a, b);
  }

  /** Both identifiers are numbers and their difference leaves the 64-bit range. */
  predicate Overflows(a: bytes, b: bytes) {
    Atoi(a).Some? && Atoi(b).Some? && !FitsInt64(Atoi(a).value - Atoi(b).value)
  }

  /** Comparing two identifiers gives the intended answer exactly when the subtraction does not overflow. */
  lemma ComparePreExact(a: bytes, b: bytes)
    ensures ComparePre(a, b) == IdOrder(a, b) <==> !Overflows(a, b)
    ensures ComparePre(a, b) == 0 <==> IdOrder(a, b) == 0
  {
  }

  /** The intended order of identifiers is a total preorder. */
  lemma IdsTotallyOrdered()
    ensures TotalPreorder(IdOrder)
  {
    assert TotalPreorder(CompareToken);
    forall x: bytes, y: bytes, z: bytes ensures Coherent(IdOrder, x, y, z) {
      LexCoherent(CompareToken, Tokens(x), Tokens(y), Tokens(z));
    }
  }

  /* ---------------------------------------------------------------- versions --- */

  function NumAt(xs: seq<int>, i: nat): int {
    if i < |xs| then xs[i] else 0
  }

  /** The numbers from position `i` up to `n`, missing ones read as zero. */
  function Padded(xs: seq<int>, i: nat, n: nat): seq<int>
    decreases n - i
  {
    if i >= n then [] else [NumAt(xs, i)] + Padded(xs, i + 1, n)
  }

  function Longer(m: nat, n: nat): nat {
    if m < n then n else m
  }

  function NumsOrder(a: seq<int>, b: seq<int>): int {
    Lex(CompareInt, Padded(a, 0, Longer(|a|, |b|)), Padded(b, 0, Longer(|a|, |b|)))
  }

  /** A pre-release comes before the release it leads up to; two of them compare identifier by identifier. */
  function PreRule(cmp: (bytes, bytes) -> int, a: seq<bytes>, b: seq<bytes>): int {
    if a == [] && b == [] then 0 else if a == [] then 1 else if b == [] then -1 else Lex(cmp, a, b)
  }

  /** The order the version comparison is meant to compute. */
  function Order(a: Version, b: Version): int {
    if NumsOrder(a.nums, b.nums) != 0 then NumsOrder(a.nums, b.nums) else PreRule(IdOrder, a.pre, b.pre)
  }

  /** The order it does compute. */
  function Compared(a: Version, b: Version): int {
    if NumsOrder(a.nums, b.nums) != 0 then NumsOrder(a.nums, b.nums) else PreRule(ComparePre, a.pre, b.pre)
  }

  /** What parsing guarantees of the numbers: non-negative and within 64 bits. */
  predicate NumsOk(xs: seq<int>) {
    forall i :: 0 <= i < |xs| ==> 0 <= xs[i] <= MAX_INT64
  }

  method Compare(a: Version, b: Version) returns (r: int)
    requires NumsOk(a.nums) && NumsOk(b.nums)
    ensures r == Compared(a, b)
  {
    var n := Longer(|a.nums|, |b.nums|);
    var i := 0;
    while i < |a.nums| || i < |b.nums|
      invariant 0 <= i <= n
      invariant NumsOrder(a.nums, b.nums) == Lex(CompareInt, Padded(a.nums, i, n), Padded(b.nums, i, n))
      decreases n - i
    {
      var x, y := NumAt(a.nums, i), NumAt(b.nums, i);
      PaddedStep(a.nums, b.nums, i, n);
      if x != y {
        return Sign(Wrap64(x - y));
      }
      i := i + 1;
    }

    if a.pre == [] && b.pre == [] {
      return 0;
    } else if a.pre == [] {
      return 1;
    } else if b.pre == [] {
      return -1;
    }

    i := 0;
    while i < |a.pre| || i < |b.pre|
      invariant 0 <= i <= |a.pre| && i <= |b.pre|
      invariant Lex(ComparePre, a.pre, b.pre) == Lex(ComparePre, a.pre[i..], b.pre[i..])
      decreases |a.pre| - i
    {
      if i >= |a.pre| {
        return -1;
      }
      if i >= |b.pre| {
        return 1;
      }
      assert a.pre[i..][0] == a.pre[i] && a.pre[i..][1..] == a.pre[i + 1..];
      assert b.pre[i..][0] == b.pre[i] && b.pre[i..][1..] == b.pre[i + 1..];
      var c := RunComparePre(a.pre[i], b.pre[i]);
      if c != 0 {
        return c;
      }
      i := i + 1;
    }
    return 0;
  }

  /* ----------------------------------------------------------- the order laws --- */

  lemma {:induction false} BothPastEnd(a: seq<int>, b: seq<int>, i: nat, n: nat)
    requires |a| <= i && |b| <= i
    ensures Lex(CompareInt, Padded(a, i, n), Padded(b, i, n)) == 0
    decreases n - i
  {
    if i < n {
      BothPastEnd(a, b, i + 1, n);
      PaddedStep(a, b, i, n);
    }
  }

  lemma PaddedStep(a: seq<int>, b: seq<int>, i: nat, n: nat)
    requires i < n
    ensures Lex(CompareInt, Padded(a, i, n), Padded(b, i, n)) ==
      if NumAt(a, i) != NumAt(b, i) then CompareInt(NumAt(a, i), NumAt(b, i))
      else Lex(CompareInt, Padded(a, i + 1, n), Padded(b, i + 1, n))
  {
    assert Padded(a, i, n)[1..] == Padded(a, i + 1, n);
    assert Padded(b, i, n)[1..] == Padded(b, i + 1, n);
  }

  lemma {:induction false} PaddingIrrelevant(a: seq<int>, b: seq<int>, i: nat, m: nat, n: nat)
    requires i <= m <= n && |a| <= m && |b| <= m
    ensures Lex(CompareInt, Padded(a, i, m), Padded(b, i, m)) == Lex(CompareInt, Padded(a, i, n), Padded(b, i, n))
    decreases m - i
  {
    if i < m {
      PaddedStep(a, b, i, m);
      PaddedStep(a, b, i, n);
      PaddingIrrelevant(a, b, i + 1, m, n);
    } else {
      BothPastEnd(a, b, m, n);
    }
  }

  lemma NumsOrderUpTo(a: seq<int>, b: seq<int>, n: nat)
    requires |a| <= n && |b| <= n
    ensures NumsOrder(a, b) == Lex(CompareInt, Padded(a, 0, n), Padded(b, 0, n))
  {
    PaddingIrrelevant(a, b, 0, Longer(|a|, |b|), n);
  }

  lemma NumsCoherent(a: seq<int>, b: seq<int>, c: seq<int>)
    ensures Coherent(NumsOrder, a, b, c)
  {
    var n := Longer(Longer(|a|, |b|), |c|);
    NumsOrderUpTo(a, b, n);
    NumsOrderUpTo(b, a, n);
    NumsOrderUpTo(b, c, n);
    NumsOrderUpTo(a, c, n);
    NumsOrderUpTo(a, a, n);
    assert TotalPreorder(CompareInt);
    LexCoherent(CompareInt, Padded(a, 0, n), Padded(b, 0, n), Padded(c, 0, n));
  }

  lemma PreRuleCoherent(a: seq<bytes>, b: seq<bytes>, c: seq<bytes>)
    ensures Coherent((x, y) => PreRule(IdOrder, x, y), a, b, c)
  {
    IdsTotallyOrdered();
    LexCoherent(IdOrder, a, b, c);
  }

  /** The intended order of versions is a total preorder. */
  lemma VersionsTotallyOrdered()
    ensures TotalPreorder(Order)
  {
    forall a: Version, b: Version, c: Version ensures Coherent(Order, a, b, c) {
      NumsCoherent(a.nums, b.nums, c.nums);
      NumsCoherent(b.nums, c.nums, a.nums);
      PreRuleCoherent(a.pre, b.pre, c.pre);
    }
  }

  /** Trailing zeros do not matter: 1.2 and 1.2.0 compare alike against everything. */
  lemma ZeroPaddingIrrelevant(v: Version, w: Version)
    ensures Order(v.(nums := v.nums + [0]), w) == Order(v, w)
    ensures Order(v.(nums := v.nums + [0]), v) == 0
  {
    var x := v.nums + [0];
    var n := Longer(|x|, |w.nums|);
    NumsOrderUpTo(x, w.nums, n);
    NumsOrderUpTo(v.nums, w.nums, n);
    PaddedSame(x, v.nums, 0, n);
    NumsOrderUpTo(x, v.nums, n);
    NumsCoherent(x, x, x);
    NumsOrderUpTo(x, x, n);
    PreRuleCoherent(v.pre, v.pre, v.pre);
  }

  lemma {:induction false} PaddedSame(x: seq<int>, y: seq<int>, i: nat, n: nat)
    requires x == y + [0]
    ensures Padded(x, i, n) == Padded(y, i, n)
    decreases n - i
  {
    if i < n {
      PaddedSame(x, y, i + 1, n);
    }
  }

  /* ------------------------------------------- where the code meets that order --- */

  /** The first position at which two identifier lists are told apart, or the end of the shorter one. */
  function FirstDifference(a: seq<bytes>, b: seq<bytes>): (k: nat)
    ensures k <= |a| && k <= |b|
  {
    if a == [] || b == [] || IdOrder(a[0], b[0]) != 0 then 0 else 1 + FirstDifference(a[1..], b[1..])
  }

  /** Equal numbers, and the identifiers that decide are two numbers too far apart to subtract. */
  predicate DecidedByOverflow(a: Version, b: Version) {
    && NumsOrder(a.nums, b.nums) == 0
    && var k := FirstDifference(a.pre, b.pre); k < |a.pre| && k < |b.pre| && Overflows(a.pre[k], b.pre[k])
  }

  lemma {:induction false} LexExact(a: seq<bytes>, b: seq<bytes>)
    ensures var k := FirstDifference(a, b);
      Lex(ComparePre, a, b) == Lex(IdOrder, a, b) <==> !(k < |a| && k < |b| && Overflows(a[k], b[k]))
  {
    if a != [] && b != [] {
      ComparePreExact(a[0], b[0]);
      LexExact(a[1..], b[1..]);
    }
  }

  /** The comparison is right exactly when it is not decided by a subtraction that overflows. */
  lemma CompareExact(a: Version, b: Version)
    ensures Compared(a, b) == Order(a, b) <==> !DecidedByOverflow(a, b)
  {
    LexExact(a.pre, b.pre);
  }

  /** No identifier is a number below zero. Tags of the usual shape satisfy this. */
  predicate NoNegativeIds(v: Version) {
    forall i :: 0 <= i < |v.pre| && Atoi(v.pre[i]).Some? ==> Atoi(v.pre[i]).value >= 0
  }

  /** On versions without negative identifiers nothing overflows, so the code's own order is a total preorder. */
  lemma ComparedTotalPreorder(a: Version, b: Version, c: Version)
    requires NoNegativeIds(a) && NoNegativeIds(b) && NoNegativeIds(c)
    ensures Coherent(Compared, a, b, c)
  {
    VersionsTotallyOrdered();
    assert Coherent(Order, a, b, c);
    CompareExact(a, a);
    CompareExact(a, b);
    CompareExact(b, a);
    CompareExact(b, c);
    CompareExact(a, c);
  }

  lemma AtoiOfDigits(n: nat)
    requires n <= MAX_INT64
    ensures Atoi(Digits(n)) == Some(n)
    ensures Atoi([MINUS] + Digits(n)).Some? && Atoi([MINUS] + Digits(n)).value + n == 0
  {
    assert IsDigit(Digits(n)[0]);
    assert ([MINUS] + Digits(n))[1..] == Digits(n);
  }

  lemma OneIdentifier(n: int, x: bytes, y: bytes)
    ensures Compared(Version([n], [x]), Version([n], [y])) == ComparePre(x, y)
  {
    NumsCoherent([n], [n], [n]);
    assert NumsOrder([n], [n]) == 0;
    assert [x][1..] == [] && [y][1..] == [];
    assert Lex(ComparePre, [x], [y]) == ComparePre(x, y);
  }

  /** With a negative identifier the order can go round in a circle. */
  lemma NegativeIdsCanCycle()
    ensures var a, b, c := Version([1], [Digits(MAX_INT64)]), Version([1], [Digits(0)]), Version([1], [[MINUS] + Digits(1)]);
      Compared(a, c) < 0 && Compared(c, b) < 0 && Compared(b, a) < 0
  {
    var x, y, z := Digits(MAX_INT64), Digits(0), [MINUS] + Digits(1);
    AtoiOfDigits(MAX_INT64);
    AtoiOfDigits(0);
    AtoiOfDigits(1);
    IdentifiersCanCycle(x, y, z);
    OneIdentifier(1, x, z);
    OneIdentifier(1, z, y);
    OneIdentifier(1, y, x);
  }

  lemma IdentifiersCanCycle(x: bytes, y: bytes, z: bytes)
    requires Atoi(x) == Some(MAX_INT64) && Atoi(y) == Some(0) && Atoi(z).Some? && Atoi(z).value == -1
    ensures ComparePre(x, z) < 0 && ComparePre(z, y) < 0 && ComparePre(y, x) < 0
  {
  }

  /** An update is never offered in both directions, and never round a chain of three. */
  lemma NewerIsStrict(a: Version, b: Version, c: Version)
    requires NoNegativeIds(a) && NoNegativeIds(b) && NoNegativeIds(c)
    ensures !(Compared(a, b) < 0 && Compared(b, a) < 0)
    ensures Compared(a, b) < 0 && Compared(b, c) < 0 ==> Compared(a, c) < 0
  {
    ComparedTotalPreorder(a, b, c);
  }
}
