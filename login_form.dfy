/**
 * `LoginForm`: `validate` strips and lower-cases the email and strips the
 * password in place, then runs the declared rules and the complexity hook.
 */
module LoginForm {
  import opened Text
  import opened FormRules

  predicate LoginRules(email: string, password: string, emailCheck: string -> bool) {
    && DataRequired(email) && emailCheck(email) && LengthBetween(email, 5, 254)
    && DataRequired(password) && LengthBetween(password, 8, 128) && PasswordComplex(password)
  }

  /** What `validate` decides about submitted data. */
  predicate LoginAccepts(email: string, password: string, emailCheck: string -> bool) {
    LoginRules(NormalizeIdent(email), Strip(password), emailCheck)
  }

  class LoginForm {
    var email: string
    var password: string
    var rememberMe: bool

    constructor (email: string, password: string, rememberMe: bool)
      ensures this.email == email && this.password == password && this.rememberMe == rememberMe
    {
      this.email := email;
      this.password := password;
      this.rememberMe := rememberMe;
    }

    /** `_normalize_fields` */
    method NormalizeFields()
      modifies this`email, this`password
      ensures email == NormalizeIdent(old(email)) && password == Strip(old(password))
    {
      if email != "" {
        email := ToLower(Strip(email));
      }
      if password != "" {
        password := Strip(password);
      }
    }

    /** `validate` */
    method Validate(emailCheck: string -> bool) returns (ok: bool)
      modifies this`email, this`password
      ensures email == NormalizeIdent(old(email)) && password == Strip(old(password))
      ensures ok == LoginAccepts(old(email), old(password), emailCheck)
    {
      NormalizeFields();
      ok := LoginRules(email, password, emailCheck);
    }
  }

  /**
   * An accepted login has an email of 5 to 254 characters and a password
   * of 8 to 128 characters, once stripped, with a digit and a special character.
   */
  lemma AcceptedLogin(email: string, password: string, emailCheck: string -> bool)
    requires LoginAccepts(email, password, emailCheck)
    ensures 5 <= |NormalizeIdent(email)| <= 254 && emailCheck(NormalizeIdent(email))
    ensures 8 <= |Strip(password)| <= 128 && HasDigit(Strip(password)) && HasSpecial(Strip(password))
  {
  }

  /** Whitespace around the password and the email, and the email's case, do not change the outcome. */
  lemma SurroundingSpaceIgnored(email: string, password: string, lead: string, trail: string, emailCheck: string -> bool)
    requires forall i :: 0 <= i < |lead| ==> IsSpace(lead[i])
    requires forall i :: 0 <= i < |trail| ==> IsSpace(trail[i])
    ensures LoginAccepts(lead + ToUpper(email) + trail, lead + password + trail, emailCheck)
            == LoginAccepts(email, password, emailCheck)
  {
    StripIgnoresSurroundingSpace(lead, ToUpper(email), trail);
    StripIgnoresSurroundingSpace(lead, password, trail);
    ToLowerStrip(ToUpper(email));
    ToLowerStrip(email);
    LowerOfUpper(email);
  }

  /** A password lacking a digit or a special character is refused. */
  lemma WeakPasswordRejected(email: string, password: string, emailCheck: string -> bool)
    requires !HasDigit(Strip(password)) || !HasSpecial(Strip(password))
    ensures !LoginAccepts(email, password, emailCheck)
  {
  }
}
