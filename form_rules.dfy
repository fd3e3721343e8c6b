/**
 * The WTForms field rules the forms declare, on ASCII text: `DataRequired`,
 * `Length`, the username `Regexp`, and the complexity check the password
 * hooks share. A form field's data is a string; a field that was not
 * submitted is the empty string, which every rule here treats as missing.
 */
module FormRules {
  import opened Text

  /** `DataRequired`: the data is present and not only whitespace. */
  predicate DataRequired(data: string) {
    Strip(data) != ""
  }

  /** `Length(min, max)` */
  predicate LengthBetween(data: string, min: nat, max: nat) {
    min <= |data| <= max
  }

  /**
   * `Regexp(r"^[A-Za-z0-9_]+$")` applied with `re.match`: one or more word
   * characters, optionally followed by a final newline.
   */
  predicate UsernamePattern(data: string) {
    var s := DropFinalNewline(data);
    |s| > 0 && forall i :: 0 <= i < |s| ==> IsWordChar(s[i])
  }

  /** `_is_password_complex`: a digit and a character that is neither a word character nor whitespace. */
  predicate PasswordComplex(pwd: string) {
    HasDigit(pwd) && HasSpecial(pwd)
  }

  /** `data.strip().lower()` as the forms apply it to usernames and emails. */
  function NormalizeIdent(data: string): (r: string)
    ensures |r| <= |data|
    ensures !HasUpper(r)
    ensures r == "" <==> !DataRequired(data)
  {
    ToLowerIdempotent(Strip(data));
    ToLower(Strip(data))
  }

  /** `str.isdigit()`: non-empty and all digits. */
  predicate IsDigits(data: string) {
    IsDigitString(data)
  }

  /** The username rules shared by the registration and profile forms, on normalised data. */
  predicate UsernameRules(u: string) {
    DataRequired(u) && LengthBetween(u, 3, 30) && UsernamePattern(u) && !IsDigits(u)
  }

  /** Normalised data does not end in whitespace, so the pattern's newline allowance never applies to it. */
  lemma NormalizedEndsClean(raw: string)
    ensures DropFinalNewline(NormalizeIdent(raw)) == NormalizeIdent(raw)
  {
    var t := Strip(raw);
    if t != [] {
      assert !IsSpace(t[|t| - 1]);
      assert NormalizeIdent(raw)[|t| - 1] == LowerChar(t[|t| - 1]);
    }
  }

  /**
   * A username the rules accept after normalisation is 3 to 30 word
   * characters, lower-case, and not all digits.
   */
  lemma AcceptedUsernameShape(raw: string)
    requires UsernameRules(NormalizeIdent(raw))
    ensures var n := NormalizeIdent(raw);
            && 3 <= |n| <= 30
            && (forall i :: 0 <= i < |n| ==> IsWordChar(n[i]))
            && !HasUpper(n)
            && exists i :: 0 <= i < |n| && !IsDigit(n[i])
  {
    NormalizedEndsClean(raw);
  }

  /** An underscore is a word character, so it does not make a password complex. */
  lemma UnderscoreIsNotSpecial()
    ensures !IsSpecial('_') && !IsSpecial(' ') && IsSpecial('!')
  {
  }
}
