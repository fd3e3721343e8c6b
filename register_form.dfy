/**
 * `RegisterForm`: `validate` first normalises the username and email in
 * place (strip, lower-case) and then runs the declared field rules and the
 * inline hooks. WTForms' `Email()` check is the parameter `emailCheck`.
 */
module RegisterForm {
  import opened Text
  import opened FormRules

  /** Every rule of the form, on the data as it stands after normalisation. */
  predicate RegisterRules(username: string, email: string, password: string, confirmPassword: string,
                          acceptTos: bool, emailCheck: string -> bool) {
    && UsernameRules(username)
    && DataRequired(email) && emailCheck(email) && LengthBetween(email, 5, 254)
    && DataRequired(password) && LengthBetween(password, 8, 128) && PasswordComplex(password)
    && DataRequired(confirmPassword) && confirmPassword == password
    && acceptTos
  }

  /** What `validate` decides about submitted data. */
  predicate RegisterAccepts(username: string, email: string, password: string, confirmPassword: string,
                            acceptTos: bool, emailCheck: string -> bool) {
    RegisterRules(NormalizeIdent(username), NormalizeIdent(email), password, confirmPassword, acceptTos, emailCheck)
  }

  class RegisterForm {
    var username: string
    var email: string
    var password: string
    var confirmPassword: string
    var acceptTos: bool

    constructor (username: string, email: string, password: string, confirmPassword: string, acceptTos: bool)
      ensures this.username == username && this.email == email && this.password == password
      ensures this.confirmPassword == confirmPassword && this.acceptTos == acceptTos
    {
      this.username := username;
      this.email := email;
      this.password := password;
      this.confirmPassword := confirmPassword;
      this.acceptTos := acceptTos;
    }

    /** `_normalize_fields`: only the username and the email change; the passwords are left as typed. */
    method NormalizeFields()
      modifies this`username, this`email
      ensures username == NormalizeIdent(old(username)) && email == NormalizeIdent(old(email))
    {
      if username != "" {
        username := ToLower(Strip(username));
      }
      if email != "" {
        email := ToLower(Strip(email));
      }
    }

    /** `validate` */
    method Validate(emailCheck: string -> bool) returns (ok: bool)
      modifies this`username, this`email
      ensures username == NormalizeIdent(old(username)) && email == NormalizeIdent(old(email))
      ensures ok == RegisterAccepts(old(username), old(email), password, confirmPassword, acceptTos, emailCheck)
    {
      NormalizeFields();
      ok := RegisterRules(username, email, password, confirmPassword, acceptTos, emailCheck);
    }
  }

  /** An accepted registration carries a lower-case username of 3 to 30 word characters that is not all digits. */
  lemma AcceptedRegistration(username: string, email: string, password: string, confirmPassword: string,
                             acceptTos: bool, emailCheck: string -> bool)
    requires RegisterAccepts(username, email, password, confirmPassword, acceptTos, emailCheck)
    ensures var n := NormalizeIdent(username);
            && 3 <= |n| <= 30 && !HasUpper(n) && (forall i :: 0 <= i < |n| ==> IsWordChar(n[i]))
            && !IsDigitString(n)
    ensures 8 <= |password| <= 128 && HasDigit(password) && HasSpecial(password)
    ensures confirmPassword == password && acceptTos
    ensures emailCheck(NormalizeIdent(email)) && !HasUpper(NormalizeIdent(email))
  {
    AcceptedUsernameShape(username);
  }

  /** A username made only of digits is refused, whatever the rest of the form holds. */
  lemma DigitsOnlyUsernameRejected(username: string, email: string, password: string, confirmPassword: string,
                                   acceptTos: bool, emailCheck: string -> bool)
    requires IsDigitString(NormalizeIdent(username))
    ensures !RegisterAccepts(username, email, password, confirmPassword, acceptTos, emailCheck)
  {
  }

  /** Case and surrounding whitespace in the username and email do not change the outcome. */
  lemma NormalizationFirst(username: string, email: string, lead: string, trail: string, password: string,
                           confirmPassword: string, acceptTos: bool, emailCheck: string -> bool)
    requires forall i :: 0 <= i < |lead| ==> IsSpace(lead[i])
    requires forall i :: 0 <= i < |trail| ==> IsSpace(trail[i])
    ensures RegisterAccepts(lead + ToUpper(username) + trail, lead + email + trail, password, confirmPassword, acceptTos, emailCheck)
            == RegisterAccepts(username, email, password, confirmPassword, acceptTos, emailCheck)
  {
    StripIgnoresSurroundingSpace(lead, ToUpper(username), trail);
    StripIgnoresSurroundingSpace(lead, email, trail);
    ToLowerStrip(ToUpper(username));
    ToLowerStrip(username);
    LowerOfUpper(username);
  }

  /** The password is not normalised: surrounding whitespace makes it differ from an unpadded confirmation. */
  lemma PasswordNotStripped(username: string, email: string, password: string, acceptTos: bool, emailCheck: string -> bool)
    ensures !RegisterAccepts(username, email, " " + password, password, acceptTos, emailCheck)
  {
    assert |" " + password| != |password|;
  }

  /** Without accepting the terms, or without a digit and a special character, registration fails. */
  lemma RequiredChecks(username: string, email: string, password: string, confirmPassword: string,
                       acceptTos: bool, emailCheck: string -> bool)
    requires !acceptTos || !HasDigit(password) || !HasSpecial(password) || confirmPassword != password
    ensures !RegisterAccepts(username, email, password, confirmPassword, acceptTos, emailCheck)
  {
  }
}
