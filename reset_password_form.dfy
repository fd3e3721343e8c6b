/**
 * The two password-reset forms: the request form, which only needs an
 * email, and the new-password form, which strips both password fields in
 * place before its rules run.
 */
module ResetPasswordForm {
  import opened Text
  import opened FormRules

  /** `ResetRequestForm`: a present email that passes the email check; nothing is normalised. */
  predicate ResetRequestAccepts(email: string, emailCheck: string -> bool) {
    DataRequired(email) && emailCheck(email)
  }

  /** A missing or blank email is refused whatever the email check says. */
  lemma BlankEmailRejected(email: string, emailCheck: string -> bool)
    requires forall i :: 0 <= i < |email| ==> IsSpace(email[i])
    ensures !ResetRequestAccepts(email, emailCheck)
  {
    StripIgnoresSurroundingSpace(email, [], []);
    assert email + [] + [] == email;
  }

  predicate ResetPasswordRules(password: string, confirmPassword: string) {
    && DataRequired(password) && LengthBetween(password, 8, 128) && PasswordComplex(password)
    && DataRequired(confirmPassword) && confirmPassword == password
  }

  /** What `ResetPasswordForm.validate` decides about submitted data. */
  predicate ResetPasswordAccepts(password: string, confirmPassword: string) {
    ResetPasswordRules(Strip(password), Strip(confirmPassword))
  }

  class ResetPasswordForm {
    var password: string
    var confirmPassword: string

    constructor (password: string, confirmPassword: string)
      ensures this.password == password && this.confirmPassword == confirmPassword
    {
      this.password := password;
      this.confirmPassword := confirmPassword;
    }

    /** `_normalize_fields` */
    method NormalizeFields()
      modifies this`password, this`confirmPassword
      ensures password == Strip(old(password)) && confirmPassword == Strip(old(confirmPassword))
    {
      if password != "" {
        password := Strip(password);
      }
      if confirmPassword != "" {
        confirmPassword := Strip(confirmPassword);
      }
    }

    /** `validate` */
    method Validate() returns (ok: bool)
      modifies this`password, this`confirmPassword
      ensures password == Strip(old(password)) && confirmPassword == Strip(old(confirmPassword))
      ensures ok == ResetPasswordAccepts(old(password), old(confirmPassword))
    {
      NormalizeFields();
      ok := ResetPasswordRules(password, confirmPassword);
    }
  }

  /** An accepted new password is, once stripped, 8 to 128 characters with a digit and a special character. */
  lemma AcceptedNewPassword(password: string, confirmPassword: string)
    requires ResetPasswordAccepts(password, confirmPassword)
    ensures 8 <= |Strip(password)| <= 128 && HasDigit(Strip(password)) && HasSpecial(Strip(password))
    ensures Strip(confirmPassword) == Strip(password)
  {
  }

  /** Entries that differ only in surrounding whitespace match each other. */
  lemma PaddedConfirmationMatches(password: string, lead: string, trail: string)
    requires forall i :: 0 <= i < |lead| ==> IsSpace(lead[i])
    requires forall i :: 0 <= i < |trail| ==> IsSpace(trail[i])
    ensures ResetPasswordAccepts(password, lead + password + trail) == ResetPasswordAccepts(password, password)
    ensures ResetPasswordAccepts(lead + password + trail, password) == ResetPasswordAccepts(password, password)
  {
    StripIgnoresSurroundingSpace(lead, password, trail);
  }

  /** Complexity needs a digit and a character that is neither a word character nor whitespace. */
  lemma ComplexityRequired(password: string, confirmPassword: string)
    requires !HasDigit(Strip(password)) || !HasSpecial(Strip(password))
    ensures !ResetPasswordAccepts(password, confirmPassword)
  {
  }
}
