/**
 * `DeleteAccountForm`: the confirmation text is stripped and upper-cased and
 * the password stripped, in place, before the rules run. Re-authentication
 * is `verifyPassword`, absent when no auth service is available, in which
 * case the check is skipped.
 */
module DeleteAccountForm {
  import opened Optional
  import opened Text
  import opened FormRules

  const ConfirmWord := "DELETE"

  /** `data.strip().upper()` */
  function NormalizeConfirm(data: string): (r: string)
    ensures |r| <= |data| && !HasLower(r)
  {
    ToUpperIdempotent(Strip(data));
    ToUpper(Strip(data))
  }

  predicate DeleteRules(confirmText: string, password: string, verifyPassword: Option<string -> bool>) {
    && DataRequired(confirmText) && LengthBetween(confirmText, 6, 6) && confirmText == ConfirmWord
    && DataRequired(password) && Reauthenticated(password, verifyPassword)
  }

  /** `validate_password`: the password is checked only when a verifier is wired in. */
  predicate Reauthenticated(password: string, verifyPassword: Option<string -> bool>) {
    match verifyPassword
    case None => true
    case Some(verify) => verify(password)
  }

  /** What `validate` decides about submitted data. */
  predicate DeleteAccepts(confirmText: string, password: string, verifyPassword: Option<string -> bool>) {
    DeleteRules(NormalizeConfirm(confirmText), Strip(password), verifyPassword)
  }

  class DeleteAccountForm {
    var confirmText: string
    var password: string

    constructor (confirmText: string, password: string)
      ensures this.confirmText == confirmText && this.password == password
    {
      this.confirmText := confirmText;
      this.password := password;
    }

    /** `_normalize_fields` */
    method NormalizeFields()
      modifies this`confirmText, this`password
      ensures confirmText == NormalizeConfirm(old(confirmText)) && password == Strip(old(password))
    {
      if confirmText != "" {
        confirmText := ToUpper(Strip(confirmText));
      }
      if password != "" {
        password := Strip(password);
      }
    }

    /** `validate` */
    method Validate(verifyPassword: Option<string -> bool>) returns (ok: bool)
      modifies this`confirmText, this`password
      ensures confirmText == NormalizeConfirm(old(confirmText)) && password == Strip(old(password))
      ensures ok == DeleteAccepts(old(confirmText), old(password), verifyPassword)
    {
      NormalizeFields();
      ok := DeleteRules(confirmText, password, verifyPassword);
    }
  }

  /** After normalisation the confirmation must be exactly "DELETE"; the six-character rule adds nothing. */
  lemma OnlyDeleteConfirms(confirmText: string, password: string, verifyPassword: Option<string -> bool>)
    ensures DeleteAccepts(confirmText, password, verifyPassword) ==> NormalizeConfirm(confirmText) == ConfirmWord
    ensures NormalizeConfirm(confirmText) == ConfirmWord ==>
              DeleteAccepts(confirmText, password, verifyPassword)
              == (DataRequired(Strip(password)) && Reauthenticated(Strip(password), verifyPassword))
  {
    if NormalizeConfirm(confirmText) == ConfirmWord {
      assert Strip(ConfirmWord) == ConfirmWord by {
        assert !IsSpace(ConfirmWord[0]) && !IsSpace(ConfirmWord[5]);
      }
    }
  }

  /** Any casing of "delete" with whitespace around it confirms. */
  lemma PaddedLowerCaseConfirms(word: string, lead: string, trail: string)
    requires ToUpper(word) == ConfirmWord
    requires forall i :: 0 <= i < |lead| ==> IsSpace(lead[i])
    requires forall i :: 0 <= i < |trail| ==> IsSpace(trail[i])
    ensures NormalizeConfirm(lead + word + trail) == ConfirmWord
  {
    StripIgnoresSurroundingSpace(lead, word, trail);
    assert !IsSpace(word[0]) && !IsSpace(word[5]) by {
      assert UpperChar(word[0]) == 'D' && UpperChar(word[5]) == 'E';
    }
    assert Strip(word) == word;
  }

  /** The password is stripped before re-authentication, and without an auth service any present password passes. */
  lemma ReauthenticationSkippedWithoutService(confirmText: string, password: string)
    requires NormalizeConfirm(confirmText) == ConfirmWord
    ensures DeleteAccepts(confirmText, password, None) == DataRequired(Strip(password))
  {
    OnlyDeleteConfirms(confirmText, password, None);
  }
}
