/** Where the version comparison follows section 11 of Semantic Versioning 2.0.0, and where it departs from it. */
module Semver {
  import opened ByteStrings
  import opened Wire
  import opened Orders
  import opened Versions

  function CompareByte(x: byte, y: byte): int {
    CompareInt(x, y)
  }

  /** Precedence of two pre-release identifiers as the standard has it. */
  function SemverId(a: bytes, b: bytes): int {
    if AllDigits(a) && AllDigits(b) then CompareInt(Value(a), Value(b))
    else if AllDigits(a) then -1
    else if AllDigits(b) then 1
    else Lex(CompareByte, a, b)
  }

  predicate IsLetterOrHyphen(c: byte) {
    65 <= c <= 90 || 97 <= c <= 122 || c == MINUS
  }

  /** An identifier that is a number within 64 bits, or letters and hyphens only. */
  predicate PlainId(s: bytes) {
    || (s != [] && AllDigits(s) && Value(s) <= MAX_INT64)
    || (s != [] && forall i :: 0 <= i < |s| ==> IsLetterOrHyphen(s[i]))
  }

  lemma {:induction false} LettersAsTokens(a: bytes, b: bytes)
    requires forall i :: 0 <= i < |a| ==> !IsDigit(a[i])
    requires forall i :: 0 <= i < |b| ==> !IsDigit(b[i])
    ensures Lex(CompareToken, Tokens(a), Tokens(b)) == Lex(CompareByte, a, b)
  {
    if a != [] && b != [] {
      LexStep(a, b);
      LettersAsTokens(a[1..], b[1..]);
    }
  }

  /** On plain identifiers the code follows the standard. */
  lemma PlainIdsFollow(a: bytes, b: bytes)
    requires PlainId(a) && PlainId(b)
    ensures ComparePre(a, b) == SemverId(a, b)
  {
    PlainAtoi(a);
    PlainAtoi(b);
    if !AllDigits(a) && !AllDigits(b) {
      LettersAsTokens(a, b);
    }
  }

  lemma PlainAtoi(s: bytes)
    requires PlainId(s)
    ensures Atoi(s) == if AllDigits(s) then Some(Value(s)) else None
  {
    if AllDigits(s) {
      assert IsDigit(s[0]);
    } else if s[0] == MINUS && |s| > 1 {
      assert !IsDigit(s[1..][0]);
    }
  }

  /** Natural ordering: a shared prefix followed by numbers orders by the numbers, unlike the standard. */
  lemma NaturalOrderOfNumbered(word: bytes, m: nat, n: nat)
    requires word != [] && forall i :: 0 <= i < |word| ==> !IsDigit(word[i])
    requires m <= MAX_INT64 && n <= MAX_INT64
    ensures Lex(CompareToken, Tokens(word + Digits(m)), Tokens(word + Digits(n))) == CompareInt(m, n)
  {
    NumberedWord(word, m, n);
  }

  lemma {:induction false} NumberedWord(word: bytes, m: nat, n: nat)
    requires forall i :: 0 <= i < |word| ==> !IsDigit(word[i])
    requires m <= MAX_INT64 && n <= MAX_INT64
    ensures Lex(CompareToken, Tokens(word + Digits(m)), Tokens(word + Digits(n))) == CompareInt(m, n)
  {
    if word == [] {
      DigitsAsTokens(m);
      DigitsAsTokens(n);
      assert word + Digits(m) == Digits(m) && word + Digits(n) == Digits(n);
      assert Lex(CompareToken, [Number(m)][1..], [Number(n)][1..]) == 0;
    } else {
      var a, b := word + Digits(m), word + Digits(n);
      LexStep(a, b);
      assert a[1..] == word[1..] + Digits(m) && b[1..] == word[1..] + Digits(n);
      NumberedWord(word[1..], m, n);
    }
  }

  lemma DigitsAsTokens(n: nat)
    requires n <= MAX_INT64
    ensures Tokens(Digits(n)) == [Number(n)]
  {
    var s := Digits(n);
    RunLengthIs(s, |s|);
    assert IsDigit(s[0]) && s[..|s|] == s && s[|s|..] == [];
    assert Tokens(s[|s|..]) == [];
  }

  /* ------------------------------------------------------------- whole versions --- */

  /** Precedence of two versions as the standard has it. */
  function SemverOrder(a: Version, b: Version): int {
    if NumsOrder(a.nums, b.nums) != 0 then NumsOrder(a.nums, b.nums) else PreRule(SemverId, a.pre, b.pre)
  }

  /** The first position at which the program or the standard tells two identifier lists apart, or the end of the shorter one. */
  function FirstTold(a: seq<bytes>, b: seq<bytes>): (k: nat)
    ensures k <= |a| && k <= |b|
  {
    if a == [] || b == [] || ComparePre(a[0], b[0]) != 0 || SemverId(a[0], b[0]) != 0 then 0
    else 1 + FirstTold(a[1..], b[1..])
  }

  predicate Departs(x: bytes, y: bytes) {
    ComparePre(x, y) != SemverId(x, y)
  }

  /** The decision falls on these two, or on what is behind them where one order sees no difference between them. */
  ghost predicate SameDecision(x: bytes, y: bytes, a: seq<bytes>, b: seq<bytes>) {
    || !Departs(x, y)
    || (ComparePre(x, y) == 0 && Lex(ComparePre, a, b) == SemverId(x, y))
    || (SemverId(x, y) == 0 && Lex(SemverId, a, b) == ComparePre(x, y))
  }

  lemma {:induction false} LexFollowsIff(a: seq<bytes>, b: seq<bytes>)
    ensures var k := FirstTold(a, b);
      Lex(ComparePre, a, b) == Lex(SemverId, a, b) <==>
        k == |a| || k == |b| || SameDecision(a[k], b[k], a[k + 1..], b[k + 1..])
  {
    hide ComparePre, SemverId;
    if a != [] && b != [] && ComparePre(a[0], b[0]) == 0 && SemverId(a[0], b[0]) == 0 {
      LexFollowsIff(a[1..], b[1..]);
      var k := FirstTold(a, b);
      if k < |a| && k < |b| {
        assert a[1..][k..] == a[k + 1..] && b[1..][k..] == b[k + 1..];
      }
    }
  }

  /**
   * The comparison of whole versions follows the standard exactly when the numbers decide, or nothing tells the
   * identifiers apart, or the first pair that either order tells apart leads both to the same answer.
   */
  lemma FollowsSemverIff(a: Version, b: Version)
    ensures var k := FirstTold(a.pre, b.pre);
      Compared(a, b) == SemverOrder(a, b) <==>
        NumsOrder(a.nums, b.nums) != 0 || k == |a.pre| || k == |b.pre|
        || SameDecision(a.pre[k], b.pre[k], a.pre[k + 1..], b.pre[k + 1..])
  {
    hide ComparePre, SemverId, SameDecision;
    LexFollowsIff(a.pre, b.pre);
  }

  ghost predicate PlainVersion(v: Version) {
    forall i :: 0 <= i < |v.pre| ==> PlainId(v.pre[i])
  }

  lemma {:induction false} PlainListsFollow(a: seq<bytes>, b: seq<bytes>)
    requires forall i :: 0 <= i < |a| ==> PlainId(a[i])
    requires forall i :: 0 <= i < |b| ==> PlainId(b[i])
    ensures Lex(ComparePre, a, b) == Lex(SemverId, a, b)
  {
    if a != [] && b != [] {
      PlainIdsFollow(a[0], b[0]);
      PlainListsFollow(a[1..], b[1..]);
    }
  }

  /** Versions whose identifiers are numbers within 64 bits or words are ordered as the standard has it. */
  lemma FollowsSemver(a: Version, b: Version)
    requires PlainVersion(a) && PlainVersion(b)
    ensures Compared(a, b) == SemverOrder(a, b)
  {
    hide ComparePre, SemverId, PlainId;
    PlainListsFollow(a.pre, b.pre);
  }

  /* -------------------------------------------------------- where it departs, exactly --- */

  /** Two numerals are seen differently exactly when both are beyond 64 bits and not the same number. */
  lemma NumeralsDepartIff(a: bytes, b: bytes)
    requires a != [] && b != [] && AllDigits(a) && AllDigits(b)
    ensures Departs(a, b) <==> Value(a) > MAX_INT64 && Value(b) > MAX_INT64 && Value(a) != Value(b)
  {
    assert IsDigit(a[0]) && IsDigit(b[0]);
    OneNumber(a);
    OneNumber(b);
    if Value(a) > MAX_INT64 && Value(b) > MAX_INT64 {
      assert [Number(MAX_INT64)][1..] == [];
      assert Lex(CompareToken, [Number(MAX_INT64)], [Number(MAX_INT64)]) == 0;
    }
  }

  lemma OneNumber(s: bytes)
    requires s != [] && AllDigits(s)
    ensures Tokens(s) == [Number(Saturated(s))]
  {
    RunLengthIs(s, |s|);
    assert IsDigit(s[0]) && s[..|s|] == s && s[|s|..] == [];
    assert Tokens(s[|s|..]) == [];
  }

  function Power10(n: nat): (r: nat)
    ensures r > 0
  {
    if n == 0 then 1 else 10 * Power10(n - 1)
  }

  lemma {:induction false} FromTheFront(s: bytes)
    requires s != [] && AllDigits(s)
    ensures Value(s) == (s[0] - 48) as int * Power10(|s| - 1) + Value(s[1..])
    ensures Value(s[1..]) < Power10(|s| - 1)
  {
    if |s| == 1 {
      assert s[..0] == [] && s[1..] == [];
    } else {
      var front := s[..|s| - 1];
      FromTheFront(front);
      var d: int, p := s[0] - 48, Power10(|s| - 2);
      assert d * p * 10 == d * (10 * p);
      assert front[1..] == s[1..][..|s| - 2] && s[1..][|s| - 2] == s[|s| - 1];
    }
  }

  /** Numerals of one length are ordered the same by their bytes and by their values. */
  lemma {:induction false} SameLength(a: bytes, b: bytes)
    requires |a| == |b| && AllDigits(a) && AllDigits(b)
    ensures Lex(CompareByte, a, b) == CompareInt(Value(a), Value(b))
  {
    if a != [] {
      FromTheFront(a);
      FromTheFront(b);
      SameLength(a[1..], b[1..]);
      if a[0] != b[0] {
        Apart(a[0] - 48, b[0] - 48, Power10(|a| - 1), Value(a[1..]), Value(b[1..]));
      }
    }
  }

  lemma Apart(x: nat, y: nat, p: nat, v: nat, w: nat)
    requires x != y && v < p && w < p
    ensures CompareInt(x * p + v, y * p + w) == CompareInt(x, y)
  {
    if x < y {
      Scaled(x, y, p);
    } else {
      Scaled(y, x, p);
    }
  }

  lemma {:induction false} AgainstLonger(a: bytes, b: bytes)
    requires |a| < |b|
    ensures Lex(CompareByte, a, b) == if Lex(CompareByte, a, b[..|a|]) == 0 then -1 else Lex(CompareByte, a, b[..|a|])
  {
    if a != [] {
      assert b[..|a|][1..] == b[1..][..|a| - 1];
      AgainstLonger(a[1..], b[1..]);
    }
  }

  lemma {:induction false} SharedFront(w: bytes, a: bytes, b: bytes)
    ensures Lex(CompareByte, w + a, w + b) == Lex(CompareByte, a, b)
  {
    if w == [] {
      assert w + a == a && w + b == b;
    } else {
      assert (w + a)[1..] == w[1..] + a && (w + b)[1..] == w[1..] + b;
      SharedFront(w[1..], a, b);
    }
  }

  lemma {:induction false} LongerIsGreater(m: nat, n: nat)
    requires |Digits(m)| < |Digits(n)|
    ensures m < n
    decreases n
  {
    if m >= 10 {
      assert |Digits(m / 10)| < |Digits(n / 10)|;
      LongerIsGreater(m / 10, n / 10);
    }
  }

  /** A word and a number: not a number by itself, not even a signed one. */
  predicate IsWord(word: bytes) {
    word != [] && (forall i :: 0 <= i < |word| ==> !IsDigit(word[i])) && (|word| > 1 || (word[0] != MINUS && word[0] != PLUS))
  }

  lemma WordIsNoNumber(word: bytes, n: nat)
    requires IsWord(word)
    ensures var s := word + Digits(n); Atoi(s) == None && !AllDigits(s)
  {
    var s := word + Digits(n);
    assert s[0] == word[0] && !IsDigit(s[0]);
    if |word| > 1 {
      assert s[1..][0] == word[1] && !IsDigit(word[1]);
    }
  }

  /**
   * For the same word with two numbers behind it, as in rc2 and rc10, the program goes by the numbers and the
   * standard by the characters. They agree exactly when the shorter number is not above the front of the longer.
   */
  lemma NumberedDepartIff(word: bytes, m: nat, n: nat)
    requires IsWord(word) && m <= MAX_INT64 && n <= MAX_INT64 && |Digits(m)| <= |Digits(n)|
    ensures ComparePre(word + Digits(m), word + Digits(n)) == CompareInt(m, n)
    ensures Departs(word + Digits(m), word + Digits(n)) <==>
              |Digits(m)| < |Digits(n)| && m > Value(Digits(n)[..|Digits(m)|])
  {
    hide Digits, Tokens;
    var a, b := Digits(m), Digits(n);
    WordIsNoNumber(word, m);
    WordIsNoNumber(word, n);
    NaturalOrderOfNumbered(word, m, n);
    SharedFront(word, a, b);
    if |a| == |b| {
      SameLength(a, b);
    } else {
      LongerIsGreater(m, n);
      AgainstLonger(a, b);
      SameLength(a, b[..|a|]);
    }
  }

  /** rc2 comes before rc10 for the program and after it for the standard. */
  lemma ReleaseCandidatesDepart()
    ensures var rc: bytes := [114, 99];
      ComparePre(rc + Digits(2), rc + Digits(10)) < 0 < SemverId(rc + Digits(2), rc + Digits(10))
  {
    hide Tokens;
    var rc: bytes := [114, 99];
    assert Digits(2) == [50] && Digits(10) == Digits(1) + [48] && Digits(1) == [49];
    WordIsNoNumber(rc, 2);
    WordIsNoNumber(rc, 10);
    NaturalOrderOfNumbered(rc, 2, 10);
    SharedFront(rc, Digits(2), Digits(10));
  }
}
