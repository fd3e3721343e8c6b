/**
 * The format checks of `app/utils/validators.py` on ASCII text. Both regular
 * expressions are applied with `re.match`, whose `$` also matches in front of
 * one final newline; the two checks are written here as direct scans and
 * proved equal to the shape each pattern describes.
 */
module Validators {
  import opened Text

  // ---------------------------------------------------------------- email

  /** `[\w\.\+\-]` */
  predicate IsLocalChar(c: char) { IsWordChar(c) || c == '.' || c == '+' || c == '-' }
  /** `[\w\-]` */
  predicate IsDomainChar(c: char) { IsWordChar(c) || c == '-' }

  predicate IsLocalPart(l: string) { |l| > 0 && forall i :: 0 <= i < |l| ==> IsLocalChar(l[i]) }
  predicate IsDomainLabel(d: string) { |d| > 0 && forall i :: 0 <= i < |d| ==> IsDomainChar(d[i]) }
  predicate IsTopLevel(t: string) { |t| >= 2 && forall i :: 0 <= i < |t| ==> IsAsciiLetter(t[i]) }

  /** `s` is `local@label.tld` with each part drawn from its character class. */
  predicate EmailShape(s: string, l: string, d: string, t: string) {
    s == l + "@" + d + "." + t && IsLocalPart(l) && IsDomainLabel(d) && IsTopLevel(t)
  }

  /** What follows the "@": a label up to the first ".", which it cannot contain, then two or more letters. */
  predicate ValidDomain(rest: string) {
    '.' in rest && IsDomainLabel(BeforeFirst(rest, '.')) && IsTopLevel(AfterFirst(rest, '.'))
  }

  /** The local part runs to the first "@", which it cannot contain; the domain follows. */
  predicate ValidAddress(s: string) {
    '@' in s && IsLocalPart(BeforeFirst(s, '@')) && ValidDomain(AfterFirst(s, '@'))
  }

  /**
   * `validate_email`: the text, less one final newline, is exactly an address
   * of the pattern's shape.
   */
  function ValidateEmail(email: string): (ok: bool)
    ensures ok <==> exists l, d, t :: EmailShape(DropFinalNewline(email), l, d, t)
  {
    AddressMatchesPattern(DropFinalNewline(email));
    ValidAddress(DropFinalNewline(email))
  }

  /** What the scan accepts has the shape of the pattern. */
  lemma ScanHasShape(s: string)
    requires ValidAddress(s)
    ensures EmailShape(s, BeforeFirst(s, '@'), BeforeFirst(AfterFirst(s, '@'), '.'), AfterFirst(AfterFirst(s, '@'), '.'))
  {
    var l, rest := BeforeFirst(s, '@'), AfterFirst(s, '@');
    var d, t := BeforeFirst(rest, '.'), AfterFirst(rest, '.');
    assert s == l + "@" + d + "." + t;
  }

  /** Every text of the pattern's shape passes the scan. */
  lemma ShapePassesScan(s: string, l: string, d: string, t: string)
    requires EmailShape(s, l, d, t)
    ensures ValidAddress(s)
  {
    assert '@' !in l;
    assert '.' !in d;
    assert s == l + ['@'] + (d + "." + t);
    SplitAtFirst(l, '@', d + "." + t);
    assert d + "." + t == d + ['.'] + t;
    SplitAtFirst(d, '.', t);
  }

  /** The scan accepts exactly the strings the pattern describes. */
  lemma AddressMatchesPattern(s: string)
    ensures ValidAddress(s) <==> exists l, d, t :: EmailShape(s, l, d, t)
  {
    if ValidAddress(s) {
      ScanHasShape(s);
    }
    if exists l, d, t :: EmailShape(s, l, d, t) {
      var l, d, t :| EmailShape(s, l, d, t);
      ShapePassesScan(s, l, d, t);
    }
  }

  /** The top-level part starts after the label's first "."; a second "." makes it fail. */
  lemma SecondDotRejected(d1: string, tail: string)
    requires IsDomainLabel(d1) && '.' in tail
    ensures !ValidDomain(d1 + "." + tail)
  {
    assert '.' !in d1;
    assert d1 + "." + tail == d1 + ['.'] + tail;
    SplitAtFirst(d1, '.', tail);
  }

  /** The one-line text ends in a letter, so the newline allowance leaves it as it is. */
  lemma EndsInLetter(s: string, t: string)
    requires IsTopLevel(t) && |s| >= |t| && s[|s| - |t|..] == t
    ensures DropFinalNewline(s) == s
  {
    assert s[|s| - 1] == t[|t| - 1];
  }

  /** A dotted domain is refused: the label stops at the first "." and the rest is not all letters. */
  lemma DottedDomainRejected(l: string, d1: string, d2: string, t: string)
    requires IsLocalPart(l) && IsDomainLabel(d1) && IsTopLevel(t)
    ensures !ValidateEmail(l + "@" + d1 + "." + d2 + "." + t)
  {
    var tail := d2 + "." + t;
    var rest := d1 + "." + tail;
    var s := l + "@" + rest;
    assert s == l + "@" + d1 + "." + d2 + "." + t;
    assert s[|s| - |t|..] == t;
    EndsInLetter(s, t);
    assert '@' !in l;
    assert s == l + ['@'] + rest;
    SplitAtFirst(l, '@', rest);
    assert tail[|d2|] == '.';
    SecondDotRejected(d1, tail);
  }

  /** Every address of the shape passes, also in front of one final newline. */
  lemma ShapedAddressAccepted(l: string, d: string, t: string)
    requires IsLocalPart(l) && IsDomainLabel(d) && IsTopLevel(t)
    ensures ValidateEmail(l + "@" + d + "." + t)
    ensures ValidateEmail(l + "@" + d + "." + t + "\n")
  {
    var s := l + "@" + d + "." + t;
    assert DropFinalNewline(s) == s by {
      assert s[|s| - 1] == t[|t| - 1];
      assert IsAsciiLetter(t[|t| - 1]);
    }
    assert DropFinalNewline(s + "\n") == s;
    assert EmailShape(s, l, d, t);
  }

  // ---------------------------------------------------------------- password

  /** The four strength requirements the module states. */
  predicate MeetsStrength(p: string) {
    |p| >= 8 && HasUpper(p) && HasLower(p) && HasDigit(p)
  }

  /**
   * `validate_password`: the look-aheads and `.{8,}` only see the first line,
   * and `$` must follow it, so the text (less one final newline) must be a
   * single line that meets the strength requirements.
   */
  function ValidatePassword(password: string): (ok: bool)
    ensures ok ==> |password| >= 8 && HasUpper(password) && HasLower(password) && HasDigit(password)
    ensures NoNewline(password) ==> (ok <==> MeetsStrength(password))
  {
    var s := DropFinalNewline(password);
    assert HasUpper(s) ==> HasUpper(password);
    assert HasLower(s) ==> HasLower(password);
    assert HasDigit(s) ==> HasDigit(password);
    NoNewline(s) && MeetsStrength(s)
  }

  const ErrLength := "Password must be at least 8 characters."
  const ErrUpper := "Must include at least one uppercase letter."
  const ErrLower := "Must include at least one lowercase letter."
  const ErrDigit := "Must include at least one digit."

  /** The position of each message in the order the checks run. */
  function Rank(message: string): int {
    if message == ErrLength then 0
    else if message == ErrUpper then 1
    else if message == ErrLower then 2
    else if message == ErrDigit then 3
    else 4
  }

  lemma MessagesRanked()
    ensures Rank(ErrLength) == 0 && Rank(ErrUpper) == 1 && Rank(ErrLower) == 2 && Rank(ErrDigit) == 3
  {
    assert ErrUpper[0] != ErrLength[0] && ErrLower[0] != ErrLength[0] && ErrDigit[0] != ErrLength[0];
    assert ErrLower[26] != ErrUpper[26] && |ErrDigit| != |ErrUpper| && |ErrDigit| != |ErrLower|;
  }

  /** The message of one check, when it fails. */
  function Flag(failed: bool, message: string): seq<string> {
    if failed then [message] else []
  }

  /** The messages of the failing requirements, in the order the checks run. */
  function DetailedErrors(p: string): seq<string> {
    Flag(|p| < 8, ErrLength) + Flag(!HasUpper(p), ErrUpper) + Flag(!HasLower(p), ErrLower) + Flag(!HasDigit(p), ErrDigit)
  }

  /** A message is reported exactly when its requirement fails; nothing is reported when all hold. */
  lemma DetailedErrorsReport(p: string)
    ensures ErrLength in DetailedErrors(p) <==> |p| < 8
    ensures ErrUpper in DetailedErrors(p) <==> !HasUpper(p)
    ensures ErrLower in DetailedErrors(p) <==> !HasLower(p)
    ensures ErrDigit in DetailedErrors(p) <==> !HasDigit(p)
    ensures |DetailedErrors(p)| <= 4
    ensures DetailedErrors(p) == [] <==> MeetsStrength(p)
  {
    MessagesRanked();
  }

  /** Ranks strictly increase along `e`. */
  predicate Ascending(e: seq<string>) {
    forall i, j | 0 <= i < j < |e| :: Rank(e[i]) < Rank(e[j])
  }

  /** Every rank in `e` lies in `[lo, hi)`. */
  predicate RanksIn(e: seq<string>, lo: int, hi: int) {
    forall i | 0 <= i < |e| :: lo <= Rank(e[i]) < hi
  }

  lemma FlagRanked(failed: bool, message: string)
    ensures Ascending(Flag(failed, message)) && RanksIn(Flag(failed, message), Rank(message), Rank(message) + 1)
  {
  }

  /** Two ascending runs whose ranks do not overlap join into one. */
  lemma JoinRanked(a: seq<string>, b: seq<string>, lo: int, k: int, hi: int)
    requires lo <= k <= hi
    requires Ascending(a) && RanksIn(a, lo, k) && Ascending(b) && RanksIn(b, k, hi)
    ensures Ascending(a + b) && RanksIn(a + b, lo, hi)
  {
    forall i, j | 0 <= i < j < |a + b| ensures Rank((a + b)[i]) < Rank((a + b)[j]) {
      if j < |a| {
        assert (a + b)[i] == a[i] && (a + b)[j] == a[j];
      } else if i < |a| {
        assert (a + b)[i] == a[i] && (a + b)[j] == b[j - |a|];
      } else {
        assert (a + b)[i] == b[i - |a|] && (a + b)[j] == b[j - |a|];
      }
    }
    forall i | 0 <= i < |a + b| ensures lo <= Rank((a + b)[i]) < hi {
      if i >= |a| {
        assert (a + b)[i] == b[i - |a|];
      }
    }
  }

  /** The messages come in the order of their checks, each at most once. */
  lemma DetailedErrorsOrdered(p: string)
    ensures forall i | 0 <= i < |DetailedErrors(p)| :: Rank(DetailedErrors(p)[i]) < 4
    ensures forall i, j | 0 <= i < j < |DetailedErrors(p)| :: Rank(DetailedErrors(p)[i]) < Rank(DetailedErrors(p)[j])
  {
    MessagesRanked();
    var f1, f2 := Flag(|p| < 8, ErrLength), Flag(!HasUpper(p), ErrUpper);
    var f3, f4 := Flag(!HasLower(p), ErrLower), Flag(!HasDigit(p), ErrDigit);
    FlagRanked(|p| < 8, ErrLength);
    FlagRanked(!HasUpper(p), ErrUpper);
    FlagRanked(!HasLower(p), ErrLower);
    FlagRanked(!HasDigit(p), ErrDigit);
    JoinRanked(f1, f2, 0, 1, 2);
    JoinRanked(f1 + f2, f3, 0, 2, 3);
    JoinRanked(f1 + f2 + f3, f4, 0, 3, 4);
    assert DetailedErrors(p) == f1 + f2 + f3 + f4;
  }

  /** `validate_password_detailed`: the failing requirements, reported in a fixed order. */
  method ValidatePasswordDetailed(password: string) returns (ok: bool, errors: seq<string>)
    ensures ErrLength in errors <==> |password| < 8
    ensures ErrUpper in errors <==> !HasUpper(password)
    ensures ErrLower in errors <==> !HasLower(password)
    ensures ErrDigit in errors <==> !HasDigit(password)
    ensures forall i | 0 <= i < |errors| :: Rank(errors[i]) < 4
    ensures forall i, j | 0 <= i < j < |errors| :: Rank(errors[i]) < Rank(errors[j])
    ensures |errors| <= 4
    ensures ok <==> errors == []
    ensures ok <==> MeetsStrength(password)
  {
    errors := [];
    if |password| < 8 {
      errors := errors + [ErrLength];
    }
    if !HasUpper(password) {
      errors := errors + [ErrUpper];
    }
    if !HasLower(password) {
      errors := errors + [ErrLower];
    }
    if !HasDigit(password) {
      errors := errors + [ErrDigit];
    }
    assert errors == DetailedErrors(password);
    DetailedErrorsReport(password);
    DetailedErrorsOrdered(password);
    ok := |errors| == 0;
  }

  /**
   * With a newline the pattern and the detailed check can disagree in both
   * directions: a final newline counts towards the detailed length, and an
   * inner one stops the pattern.
   */
  lemma NewlineDisagreements()
    ensures MeetsStrength("Abcdef1\n") && !ValidatePassword("Abcdef1\n")
    ensures MeetsStrength("Abcdefg\n1") && !ValidatePassword("Abcdefg\n1")
  {
    assert IsUpper("Abcdef1\n"[0]) && IsLower("Abcdef1\n"[1]) && IsDigit("Abcdef1\n"[6]);
    assert IsUpper("Abcdefg\n1"[0]) && IsLower("Abcdefg\n1"[1]) && IsDigit("Abcdefg\n1"[8]);
    assert DropFinalNewline("Abcdefg\n1") == "Abcdefg\n1";
    assert "Abcdefg\n1"[7] == '\n';
  }

  /** Special characters are not among the requirements. */
  lemma NoSpecialRequired()
    ensures MeetsStrength("Abcdefg1") && !HasSpecial("Abcdefg1") && ValidatePassword("Abcdefg1")
  {
    assert IsUpper("Abcdefg1"[0]) && IsLower("Abcdefg1"[1]) && IsDigit("Abcdefg1"[7]);
  }
}
