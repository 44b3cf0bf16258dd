/**
 * What kind of second factor a typed string is taken for: behind a comma in an RDP login, and in the
 * portal's code field. Strings are ASCII.
 */
module SecondFactor {
  import opened Sequences
  import Totp

  datatype Offer = Nothing | Push | Backup(text: string) | OneTime(text: string)

  const DASH := '-'
  const PUSH := "PUSH"

  function Upper(c: char): char {
    if 'a' <= c <= 'z' then c - 'a' + 'A' else c
  }

  function Uppered(s: string): (r: string)
    ensures |r| == |s| && forall i :: 0 <= i < |s| ==> r[i] == Upper(s[i])
  {
    if s == [] then [] else [Upper(s[0])] + Uppered(s[1..])
  }

  /** Lower case, spaces and dashes do not matter in a backup code. */
  function Normalized(s: string): string {
    if s == [] then []
    else if s[0] == DASH || s[0] == ' ' || s[0] == '\t' then Normalized(s[1..])
    else [Upper(s[0])] + Normalized(s[1..])
  }

  predicate IsDigit(c: char) {
    '0' <= c <= '9'
  }

  predicate AllDigits(s: string) {
    s != [] && forall i :: 0 <= i < |s| ==> IsDigit(s[i])
  }

  /** Behind the comma of an RDP login. */
  function OverRdp(factor: string): Offer {
    if factor == [] then Nothing
    else if Uppered(factor) == PUSH then Push
    else if |Normalized(factor)| == 10 && !AllDigits(Normalized(factor)) then Backup(Normalized(factor))
    else OneTime(factor)
  }

  /** The letters of backup codes, in either case, and the dash. */
  predicate Telling(c: char) {
    c == DASH || ('A' <= Upper(c) <= 'Z' && Upper(c) != 'I' && Upper(c) != 'O')
  }

  predicate IsBlank(c: char) {
    '\t' <= c <= '\r' || c == ' '
  }

  /** In the portal's code field. */
  function InPortal(typed: string): Offer {
    var code := Trim(typed, IsBlank);
    if code == [] then Nothing
    else if |Normalized(code)| == 10 && exists i :: 0 <= i < |code| && Telling(code[i]) then Backup(Normalized(code))
    else OneTime(code)
  }

  /* ------------------------------------------------------------------ generated codes --- */

  /** A backup code's alphabet: no I, O, 0 or 1. */
  predicate CodeLetter(c: char) {
    ('A' <= c <= 'Z' && c != 'I' && c != 'O') || '2' <= c <= '9'
  }

  ghost predicate IsCode(c: string) {
    |c| == 10 && forall i :: 0 <= i < |c| ==> CodeLetter(c[i])
  }

  /** As it is printed: two groups and a dash. */
  function Printed(c: string): string
    requires |c| == 10
  {
    c[..5] + [DASH] + c[5..]
  }

  lemma {:induction false} PlainStays(s: string)
    requires forall i :: 0 <= i < |s| ==> CodeLetter(s[i])
    ensures Normalized(s) == s
  {
    if s != [] {
      PlainStays(s[1..]);
    }
  }

  lemma {:induction false} NormalizedJoins(a: string, b: string)
    ensures Normalized(a + b) == Normalized(a) + Normalized(b)
  {
    if a == [] {
      assert a + b == b;
    } else {
      assert (a + b)[0] == a[0] && (a + b)[1..] == a[1..] + b;
      NormalizedJoins(a[1..], b);
    }
  }

  lemma PrintedNormalizes(c: string)
    requires IsCode(c)
    ensures Normalized(Printed(c)) == c
  {
    NormalizedJoins(c[..5] + [DASH], c[5..]);
    NormalizedJoins(c[..5], [DASH]);
    PlainStays(c[..5]);
    PlainStays(c[5..]);
    assert Normalized([DASH]) == [];
    assert c[..5] + c[5..] == c;
  }

  lemma PrintedIsNotPush(c: string)
    requires IsCode(c)
    ensures Uppered(Printed(c)) != PUSH && Printed(c) != []
  {
    assert |Uppered(Printed(c))| == 11;
  }

  lemma TrimsNothing(s: string)
    requires Tight(s, IsBlank)
    ensures Trim(s, IsBlank) == s
  {
    Trims([], s, [], IsBlank);
    assert [] + s + [] == s;
  }

  /**
   * A printed backup code is taken for one in the portal always, and in an RDP login exactly when it
   * is not made of digits alone; one that is all digits is taken for a one-time code there.
   */
  lemma PrintedCodeIsRecognized(c: string)
    requires IsCode(c)
    ensures InPortal(Printed(c)) == Backup(c)
    ensures OverRdp(Printed(c)) == Backup(c) <==> !AllDigits(c)
    ensures AllDigits(c) ==> OverRdp(Printed(c)) == OneTime(Printed(c))
  {
    hide Normalized;
    var p := Printed(c);
    PrintedNormalizes(c);
    PrintedIsNotPush(c);
    assert p[0] == c[0] && p[10] == c[9] && p[5] == DASH;
    TrimsNothing(p);
    assert Telling(p[5]);
  }

  /** What is accepted as a one-time code has six characters, white space around them aside. */
  ghost predicate SixLong(accepts: Totp.Accepts) {
    forall secret, step, code :: accepts(secret, step, code) ==> |Trim(code, IsBlank)| == 6
  }

  /** So a printed backup code of digits alone, taken for a one-time code over RDP, is no code of any step. */
  lemma DigitCodeIsRefusedOverRdp(c: string, accepts: Totp.Accepts, skew: nat, secret: string, last: int, seconds: int)
    requires IsCode(c) && AllDigits(c) && SixLong(accepts)
    ensures OverRdp(Printed(c)) == OneTime(Printed(c))
    ensures Totp.Verified(accepts, skew, secret, Printed(c), last, seconds) == Totp.BadCode
  {
    hide Normalized, Totp.Window;
    PrintedCodeIsRecognized(c);
    var p := Printed(c);
    assert p[0] == c[0] && p[10] == c[9];
    TrimsNothing(p);
    NoStepOwns(accepts, secret, p, last, seconds / Totp.PERIOD, Totp.Window(skew));
  }

  lemma {:induction false} NoStepOwns(accepts: Totp.Accepts, secret: string, code: string, last: int, step: int, w: seq<int>)
    requires forall s :: !accepts(secret, s, code)
    ensures Totp.Walk(accepts, secret, code, last, step, w) == Totp.BadCode
  {
    if w != [] {
      NoStepOwns(accepts, secret, code, last, step, w[1..]);
    }
  }

  /** Such a code exists: 22222-22222 is taken for a backup code in the portal and not over RDP. */
  lemma TwosAreSuchACode()
    ensures var c := "2222222222";
      IsCode(c) && AllDigits(c) && InPortal(Printed(c)) == Backup(c) && OverRdp(Printed(c)) == OneTime("22222-22222")
  {
    hide InPortal, OverRdp;
    var c := "2222222222";
    PrintedCodeIsRecognized(c);
    assert Printed(c) == "22222-22222";
  }

  lemma {:induction false} DigitsNormalize(s: string)
    requires forall i :: 0 <= i < |s| ==> IsDigit(s[i])
    ensures Normalized(s) == s
  {
    if s != [] {
      DigitsNormalize(s[1..]);
    }
  }

  predicate Either(c: char, lower: char, upper: char) {
    c == lower || c == upper
  }

  /** An RDP login asks for a push exactly with the word push, in any case; and nothing is offered only by saying nothing. */
  lemma PushIsAskedForIff(s: string)
    ensures OverRdp(s).Push? <==>
      |s| == 4 && Either(s[0], 'p', 'P') && Either(s[1], 'u', 'U') && Either(s[2], 's', 'S') && Either(s[3], 'h', 'H')
    ensures OverRdp(s).Nothing? <==> s == ""
    ensures !InPortal(s).Push?
  {
    hide Normalized;
    var u := Uppered(s);
    if |s| == 4 {
      assert u == [u[0], u[1], u[2], u[3]];
      assert u == PUSH <==> u[0] == 'P' && u[1] == 'U' && u[2] == 'S' && u[3] == 'H';
    }
  }

  /** Six digits are a one-time code wherever they are typed. */
  lemma SixDigitsAreOneTime(s: string)
    requires |s| == 6 && AllDigits(s)
    ensures OverRdp(s) == OneTime(s) && InPortal(s) == OneTime(s)
  {
    hide Normalized;
    DigitsNormalize(s);
    assert |Uppered(s)| == 6;
    TrimsNothing(s);
  }
}
