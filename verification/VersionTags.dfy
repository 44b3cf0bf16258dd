/** Release tags: how one is parsed into a version, and what writing one and parsing it back gives. */
module VersionTags {
  import opened ByteStrings
  import opened Wire
  import opened Sequences
  import opened Versions

  const LOWER_V: byte := 118
  const UPPER_V: byte := 86

  /** `strings.Split` on one byte: always at least one piece. */
  function Split(s: bytes, c: byte): (r: seq<bytes>)
    ensures |r| >= 1
    decreases |s|
  {
    var n := FirstIndex(s, c);
    if n == |s| then [s] else [s[..n]] + Split(s[n + 1..], c)
  }

  function Join(parts: seq<bytes>, c: byte): bytes
    requires parts != []
  {
    if |parts| == 1 then parts[0] else parts[0] + [c] + Join(parts[1..], c)
  }

  function DropPrefix(s: bytes, c: byte): bytes {
    if s != [] && s[0] == c then s[1..] else s
  }

  /** The numbers of a dotted list, when every piece is a numeral that fits. */
  function Numbers(parts: seq<bytes>): (r: Option<seq<int>>)
    ensures r.Some? ==> |r.value| == |parts| && NumsOk(r.value)
  {
    if parts == [] then Some([])
    else if parts[0] == [] || !AllDigits(parts[0]) || Value(parts[0]) > MAX_INT64 then None
    else
      var rest := Numbers(parts[1..]);
      if rest.None? then None else Some([Value(parts[0])] + rest.value)
  }

  function WithoutV(tag: bytes): bytes {
    DropPrefix(DropPrefix(tag, LOWER_V), UPPER_V)
  }

  /** Build metadata, from the first plus sign on, is dropped. */
  function Core(s: bytes): bytes {
    s[..FirstIndex(s, PLUS)]
  }

  function ReleasePart(core: bytes): bytes {
    core[..FirstIndex(core, MINUS)]
  }

  function PreIds(core: bytes): seq<bytes> {
    var cut := FirstIndex(core, MINUS);
    if cut + 1 < |core| then Split(core[cut + 1..], DOT) else []
  }

  function ParsedRelease(s: bytes): (r: Option<seq<int>>)
    ensures r.Some? ==> NumsOk(r.value) && 1 <= |r.value| <= VERSION_PARTS
  {
    var parts := Split(s, DOT);
    if |parts| > VERSION_PARTS then None else Numbers(parts)
  }

  /** What a tag, with surrounding white space removed, is parsed to. */
  function Parsed(tag: bytes): (r: Option<Version>)
    ensures r.Some? ==> NumsOk(r.value.nums) && 1 <= |r.value.nums| <= VERSION_PARTS
  {
    if WithoutV(tag) == [] then None
    else
      var core := Core(WithoutV(tag));
      var nums := ParsedRelease(ReleasePart(core));
      if nums.None? then None else Some(Version(nums.value, PreIds(core)))
  }

  method Parse(tag: bytes) returns (r: Option<Version>)
    ensures r == Parsed(tag)
  {
    var s := DropPrefix(tag, LOWER_V);
    s := DropPrefix(s, UPPER_V);
    if s == [] {
      return None;
    }
    s := s[..FirstIndex(s, PLUS)];
    ghost var core := s;
    var pre: seq<bytes> := [];
    var i := FirstIndex(s, MINUS);
    if i < |s| {
      var rest := s[i + 1..];
      if rest != [] {
        pre := Split(rest, DOT);
      }
      s := s[..i];
    }
    assert pre == PreIds(core) && s == ReleasePart(core);

    var nums := ParseNumbers(s);
    return if nums.None? then None else Some(Version(nums.value, pre));
  }

  method ParseNumbers(s: bytes) returns (r: Option<seq<int>>)
    ensures r == ParsedRelease(s)
  {
    var parts := Split(s, DOT);
    if |parts| == 0 || |parts| > VERSION_PARTS {
      return None;
    }
    var nums: seq<int> := [];
    var k := 0;
    while k < |parts|
      invariant 0 <= k <= |parts|
      invariant Numbers(parts).None? <==> Numbers(parts[k..]).None?
      invariant Numbers(parts).Some? ==> Numbers(parts).value == nums + Numbers(parts[k..]).value
    {
      var p := parts[k];
      assert parts[k..][0] == p && parts[k..][1..] == parts[k + 1..];
      if p == [] || !AllDigits(p) {
        return None;
      }
      if Value(p) > MAX_INT64 {
        return None;
      }
      nums := nums + [Value(p)];
      k := k + 1;
    }
    assert nums + [] == nums;
    return Some(nums);
  }

  function Numerals(nums: seq<int>): (r: seq<bytes>)
    requires NumsOk(nums)
    ensures |r| == |nums|
  {
    if nums == [] then [] else [Digits(nums[0])] + Numerals(nums[1..])
  }

  function CoreText(v: Version): bytes
    requires NumsOk(v.nums) && v.nums != []
  {
    Join(Numerals(v.nums), DOT) + (if v.pre == [] then [] else [MINUS] + Join(v.pre, DOT))
  }

  /** A version written as a tag, with build metadata behind it when there is any. */
  function Tag(v: Version, build: bytes): bytes
    requires NumsOk(v.nums) && v.nums != []
  {
    [LOWER_V] + (CoreText(v) + (if build == [] then [] else [PLUS] + build))
  }

  lemma {:induction false} SplitJoin(parts: seq<bytes>, c: byte)
    requires parts != [] && forall i :: 0 <= i < |parts| ==> c !in parts[i]
    ensures Split(Join(parts, c), c) == parts
  {
    hide FirstIndex;
    if |parts| == 1 {
      FirstConcat(parts[0], [], c);
      assert parts[0] + [] == parts[0];
    } else {
      var rest := Join(parts[1..], c);
      var s := Join(parts, c);
      assert s == parts[0] + ([c] + rest);
      FirstIs(parts[0], c, rest);
      assert s == parts[0] + [c] + rest;
      assert s[..|parts[0]|] == parts[0] && s[|parts[0]| + 1..] == rest;
      SplitJoin(parts[1..], c);
    }
  }

  lemma {:induction false} JoinAvoids(parts: seq<bytes>, c: byte, d: byte)
    requires parts != [] && c != d && forall i :: 0 <= i < |parts| ==> d !in parts[i]
    ensures d !in Join(parts, c)
  {
    if |parts| > 1 {
      JoinAvoids(parts[1..], c, d);
    }
  }

  lemma {:induction false} NumbersOfNumerals(nums: seq<int>)
    requires NumsOk(nums)
    ensures Numbers(Numerals(nums)) == Some(nums)
    ensures forall i :: 0 <= i < |nums| ==> AllDigits(Numerals(nums)[i]) && Numerals(nums)[i] != []
  {
    if nums != [] {
      NumbersOfNumerals(nums[1..]);
      var r := Numerals(nums);
      assert r[0] == Digits(nums[0]) && r[1..] == Numerals(nums[1..]);
      assert [nums[0]] + nums[1..] == nums;
    }
  }

  lemma {:induction false} JoinStartsWithDigit(parts: seq<bytes>, c: byte)
    requires parts != [] && parts[0] != [] && IsDigit(parts[0][0])
    ensures Join(parts, c) != [] && IsDigit(Join(parts, c)[0])
  {
  }

  /** The release part reads back, and carries none of the separators that follow it. */
  lemma ReleaseReadsBack(nums: seq<int>)
    requires 1 <= |nums| <= VERSION_PARTS && NumsOk(nums)
    ensures var head := Join(Numerals(nums), DOT);
      head != [] && IsDigit(head[0]) && MINUS !in head && PLUS !in head && ParsedRelease(head) == Some(nums)
  {
    var numerals := Numerals(nums);
    NumbersOfNumerals(nums);
    JoinStartsWithDigit(numerals, DOT);
    assert forall i :: 0 <= i < |numerals| ==> DOT !in numerals[i] && MINUS !in numerals[i] && PLUS !in numerals[i];
    JoinAvoids(numerals, DOT, MINUS);
    JoinAvoids(numerals, DOT, PLUS);
    SplitJoin(numerals, DOT);
  }

  lemma CoreOf(core: bytes, build: bytes)
    requires PLUS !in core
    ensures Core(core + (if build == [] then [] else [PLUS] + build)) == core
  {
    FirstConcat(core, if build == [] then [] else [PLUS] + build, PLUS);
  }

  lemma PreReadsBack(head: bytes, pre: seq<bytes>)
    requires MINUS !in head
    requires forall i :: 0 <= i < |pre| ==> DOT !in pre[i]
    requires pre != [[]]
    ensures var core := head + (if pre == [] then [] else [MINUS] + Join(pre, DOT));
      ReleasePart(core) == head && PreIds(core) == pre
  {
    if pre == [] {
      FirstConcat(head, [], MINUS);
      assert head + [] == head && head[..|head|] == head;
    } else {
      CutAt(head, Join(pre, DOT));
      JoinNonempty(pre, DOT);
      SplitJoin(pre, DOT);
    }
  }

  lemma CutAt(head: bytes, rest: bytes)
    requires MINUS !in head
    ensures var core := head + ([MINUS] + rest);
      FirstIndex(core, MINUS) == |head| && core[..|head|] == head && core[|head| + 1..] == rest
  {
    FirstConcat(head, [MINUS] + rest, MINUS);
  }

  lemma WithoutItsV(s: bytes)
    requires s != [] && IsDigit(s[0])
    ensures WithoutV([LOWER_V] + s) == s
  {
    assert ([LOWER_V] + s)[1..] == s;
  }

  /** Writing a version as a tag and parsing it back gives the version, whatever build metadata follows. */
  lemma ParseUndoesTag(v: Version, build: bytes)
    requires 1 <= |v.nums| <= VERSION_PARTS && NumsOk(v.nums)
    requires forall i :: 0 <= i < |v.pre| ==> DOT !in v.pre[i] && PLUS !in v.pre[i]
    requires v.pre != [[]]
    ensures Parsed(Tag(v, build)) == Some(v)
  {
    CoreReadsBack(v);
    CoreOf(CoreText(v), build);
    WithoutItsV(CoreText(v) + (if build == [] then [] else [PLUS] + build));
  }

  lemma CoreReadsBack(v: Version)
    requires 1 <= |v.nums| <= VERSION_PARTS && NumsOk(v.nums)
    requires forall i :: 0 <= i < |v.pre| ==> DOT !in v.pre[i] && PLUS !in v.pre[i]
    requires v.pre != [[]]
    ensures var core := CoreText(v);
      core != [] && IsDigit(core[0]) && PLUS !in core && PreIds(core) == v.pre && ParsedRelease(ReleasePart(core)) == Some(v.nums)
  {
    ReleaseReadsBack(v.nums);
    if v.pre != [] {
      JoinAvoids(v.pre, DOT, PLUS);
    }
    PreReadsBack(Join(Numerals(v.nums), DOT), v.pre);
  }

  lemma JoinNonempty(parts: seq<bytes>, c: byte)
    requires parts != [] && parts != [[]]
    ensures Join(parts, c) != []
  {
    if |parts| == 1 {
      assert parts == [parts[0]];
    }
  }

  /** `Newer`, with whether the two tags can be ordered at all. */
  method Newer(current: bytes, candidate: bytes) returns (newer: bool, ok: bool)
    ensures ok <==> Parsed(current).Some? && Parsed(candidate).Some?
    ensures ok ==> (newer <==> Compared(Parsed(current).value, Parsed(candidate).value) < 0)
    ensures !ok ==> !newer
  {
    var a := Parse(current);
    if a.None? {
      return false, false;
    }
    var b := Parse(candidate);
    if b.None? {
      return false, false;
    }
    var c := Compare(a.value, b.value);
    return c < 0, true;
  }
}
