/**
 * `UpdateProfileForm`: the constructor keeps the current username and email
 * lower-cased (or nothing, when they are empty), `validate` normalises the
 * submitted pair in place, and uniqueness is asked of `usernameTaken` /
 * `emailTaken` only for a value that differs from a known original.
 */
module UpdateProfileForm {
  import opened Optional
  import opened Text
  import opened FormRules

  /** `value.lower() if value else None` */
  function Original(value: string): (r: Option<string>)
    ensures value == "" <==> r.None?
    ensures r.Some? ==> r.value == ToLower(value) && !HasUpper(r.value)
  {
    if value != "" then ToLowerIdempotent(value); Some(ToLower(value)) else None
  }

  /** The uniqueness hook: a check runs only with a known original and a changed value. */
  predicate Unclaimed(value: string, original: Option<string>, taken: string -> bool) {
    !(original.Some? && value != original.value && taken(value))
  }

  predicate ProfileRules(username: string, email: string, originalUsername: Option<string>, originalEmail: Option<string>,
                         emailCheck: string -> bool, usernameTaken: string -> bool, emailTaken: string -> bool) {
    && UsernameRules(username) && Unclaimed(username, originalUsername, usernameTaken)
    && DataRequired(email) && emailCheck(email) && LengthBetween(email, 5, 254)
    && Unclaimed(email, originalEmail, emailTaken)
  }

  /** What `validate` decides about submitted data. */
  predicate ProfileAccepts(username: string, email: string, originalUsername: Option<string>, originalEmail: Option<string>,
                           emailCheck: string -> bool, usernameTaken: string -> bool, emailTaken: string -> bool) {
    ProfileRules(NormalizeIdent(username), NormalizeIdent(email), originalUsername, originalEmail, emailCheck, usernameTaken, emailTaken)
  }

  class UpdateProfileForm {
    var username: string
    var email: string
    var originalUsername: Option<string>
    var originalEmail: Option<string>

    /** `__init__` */
    constructor (username: string, email: string, originalUsername: string, originalEmail: string)
      ensures this.username == username && this.email == email
      ensures this.originalUsername == Original(originalUsername) && this.originalEmail == Original(originalEmail)
    {
      this.username := username;
      this.email := email;
      this.originalUsername := if originalUsername != "" then Some(ToLower(originalUsername)) else None;
      this.originalEmail := if originalEmail != "" then Some(ToLower(originalEmail)) else None;
    }

    /** `_normalize_fields` */
    method NormalizeFields()
      modifies this`username, this`email
      ensures username == NormalizeIdent(old(username)) && email == NormalizeIdent(old(email))
    {
      if username != "" {
        username := ToLower(Strip(username));
      }
      if email != "" {
        email := ToLower(Strip(email));
      }
    }

    /** `validate` */
    method Validate(emailCheck: string -> bool, usernameTaken: string -> bool, emailTaken: string -> bool) returns (ok: bool)
      modifies this`username, this`email
      ensures username == NormalizeIdent(old(username)) && email == NormalizeIdent(old(email))
      ensures ok == ProfileAccepts(old(username), old(email), originalUsername, originalEmail, emailCheck, usernameTaken, emailTaken)
    {
      NormalizeFields();
      ok := ProfileRules(username, email, originalUsername, originalEmail, emailCheck, usernameTaken, emailTaken);
    }
  }

  /**
   * Keeping one's own username and email never clashes: when the normalised
   * values equal the lower-cased originals, the taken-oracles are not consulted.
   */
  lemma KeepingOwnValuesNeverClashes(username: string, email: string, currentName: string, currentEmail: string,
                                     emailCheck: string -> bool, usernameTaken: string -> bool, emailTaken: string -> bool)
    requires NormalizeIdent(username) == ToLower(currentName)
    requires NormalizeIdent(email) == ToLower(currentEmail)
    ensures ProfileAccepts(username, email, Original(currentName), Original(currentEmail), emailCheck, usernameTaken, emailTaken)
            == ProfileAccepts(username, email, Original(currentName), Original(currentEmail), emailCheck, _ => false, _ => false)
  {
  }

  /** Without originals, uniqueness is never checked. */
  lemma NoOriginalsNoUniquenessCheck(username: string, email: string,
                                     emailCheck: string -> bool, usernameTaken: string -> bool, emailTaken: string -> bool)
    ensures ProfileAccepts(username, email, None, None, emailCheck, usernameTaken, emailTaken)
            == ProfileAccepts(username, email, None, None, emailCheck, _ => false, _ => false)
  {
  }

  /** A changed value that is taken is refused. */
  lemma TakenNewValueRejected(username: string, email: string, currentName: string, currentEmail: string,
                              emailCheck: string -> bool, usernameTaken: string -> bool, emailTaken: string -> bool)
    requires currentName != "" && NormalizeIdent(username) != ToLower(currentName) && usernameTaken(NormalizeIdent(username))
    ensures !ProfileAccepts(username, email, Original(currentName), Original(currentEmail), emailCheck, usernameTaken, emailTaken)
  {
  }

  /** An all-digit username is refused, and an accepted one has the registration shape. */
  lemma ProfileUsernameShape(username: string, email: string, originalUsername: Option<string>, originalEmail: Option<string>,
                             emailCheck: string -> bool, usernameTaken: string -> bool, emailTaken: string -> bool)
    ensures IsDigitString(NormalizeIdent(username)) ==>
              !ProfileAccepts(username, email, originalUsername, originalEmail, emailCheck, usernameTaken, emailTaken)
    ensures ProfileAccepts(username, email, originalUsername, originalEmail, emailCheck, usernameTaken, emailTaken) ==>
              var n := NormalizeIdent(username);
              3 <= |n| <= 30 && !HasUpper(n) && (forall i :: 0 <= i < |n| ==> IsWordChar(n[i]))
              && 5 <= |NormalizeIdent(email)| <= 254
  {
    if ProfileAccepts(username, email, originalUsername, originalEmail, emailCheck, usernameTaken, emailTaken) {
      AcceptedUsernameShape(username);
    }
  }
}
