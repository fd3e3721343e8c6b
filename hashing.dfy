/**
 * Ideal password hashers. The application uses two libraries: bcrypt through
 * `User.set_password`/`check_password` and werkzeug's `generate_password_hash`/
 * `check_password_hash` inside the user service. Each digest is modelled as an
 * injective encoding tagged the way its library tags it, so a digest verifies
 * exactly the password it was made from. Each check parses the digest the way
 * its library does before comparing, and raises `ValueError` on a digest of the
 * other scheme. Salting, work factors and timing are not modelled.
 */
module Hashing {
  import opened Optional
  import opened Text

  /** The result of a password check: accepted, refused, or a raised `ValueError` with its message. */
  datatype Verdict = Match | NoMatch | Raises(message: string)

  const BcryptTag := "$2b$"
  /** The scrypt cost parameters werkzeug writes after the method name. */
  const ScryptParams := "32768:8:1"
  /** The method field of werkzeug's default digest: "scrypt:32768:8:1". */
  const WerkzeugMethod := "scrypt" + [':'] + ScryptParams
  const InvalidSalt := "Invalid salt"
  const EmptyPassword := "Password must be non-empty."

  /** `bcrypt.generate_password_hash(p).decode("utf-8")` */
  function BcryptHash(password: string): (h: string)
    ensures StartsWith(h, BcryptTag) && StartsWith(h, "$2")
  {
    BcryptTag + password
  }

  /**
   * `bcrypt.generate_password_hash(p)` with its guard: an empty password
   * raises `ValueError("Password must be non-empty.")`.
   */
  function BcryptGenerate(password: string): (r: Outcome<string>)
    ensures r.Failure? <==> password == ""
    ensures r.Failure? ==> r.message == EmptyPassword
    ensures r.Success? ==> r.value == BcryptHash(password)
  {
    if password == "" then Failure(EmptyPassword) else Success(BcryptHash(password))
  }

  /**
   * `bcrypt.check_password_hash(digest, p)`: reading the salt of a text that is
   * not a bcrypt digest raises "Invalid salt". The only digests of the ideal
   * hasher are the "$2b$"-tagged ones, so every other text raises.
   */
  function BcryptCheck(digest: string, password: string): (v: Verdict)
    ensures v.Raises? <==> !StartsWith(digest, BcryptTag)
    ensures v.Raises? ==> v.message == InvalidSalt
    ensures v == Match ==> digest == BcryptHash(password)
  {
    if !StartsWith(digest, BcryptTag) then Raises(InvalidSalt)
    else if digest == BcryptHash(password) then Match
    else NoMatch
  }

  /**
   * `werkzeug.security.generate_password_hash(p)`: `method$salt$hash`. The
   * random salt is not modelled and is left empty.
   */
  function WerkzeugHash(password: string): (h: string)
    ensures !StartsWith(h, "$2")
  {
    var h := WerkzeugMethod + "$" + "$" + password;
    assert h[0] == 's';
    h
  }

  /** `pwhash.split("$", 2)` yields three parts: the digest holds at least two "$". */
  predicate HasThreeFields(digest: string) {
    '$' in digest && '$' in AfterFirst(digest, '$')
  }

  /** The hash method a werkzeug digest names: its first field, up to the first ":". */
  function MethodName(digest: string): string {
    BeforeFirst(BeforeFirst(digest, '$'), ':')
  }

  /**
   * `werkzeug.security.check_password_hash(digest, p)`: a digest that does not
   * split into three "$"-separated fields is refused; one whose method is
   * neither scrypt nor pbkdf2 raises "Invalid hash method '<method>'.".
   */
  function WerkzeugCheck(digest: string, password: string): (v: Verdict)
    ensures !HasThreeFields(digest) ==> v == NoMatch
    ensures v.Raises? <==> HasThreeFields(digest) && MethodName(digest) != "scrypt" && MethodName(digest) != "pbkdf2"
    ensures v.Raises? ==> StartsWith(v.message, "Invalid hash method '")
    ensures v == Match ==> digest == WerkzeugHash(password)
  {
    if !HasThreeFields(digest) then NoMatch
    else
      var name := MethodName(digest);
      if name != "scrypt" && name != "pbkdf2" then
        var m := "Invalid hash method '" + name + "'.";
        assert m[..21] == "Invalid hash method '";
        Raises(m)
      else if digest == WerkzeugHash(password) then Match
      else NoMatch
  }

  /** A bcrypt digest verifies exactly the password it was made from. */
  lemma BcryptCheckExact(p: string, q: string)
    ensures BcryptCheck(BcryptHash(p), q) == if p == q then Match else NoMatch
  {
    if BcryptHash(p) == BcryptHash(q) {
      assert p == BcryptHash(p)[|BcryptTag|..];
    }
  }

  /** The method field holds no "$" and names scrypt before its first ":". */
  lemma MethodFieldParses()
    ensures '$' !in WerkzeugMethod && BeforeFirst(WerkzeugMethod, ':') == "scrypt"
  {
    assert '$' !in "scrypt" && ':' !in "scrypt" && '$' !in ScryptParams;
    SplitAtFirst("scrypt", ':', ScryptParams);
  }

  /** A werkzeug digest names the scrypt method and splits into three fields. */
  lemma WerkzeugDigestParses(p: string)
    ensures HasThreeFields(WerkzeugHash(p)) && MethodName(WerkzeugHash(p)) == "scrypt"
  {
    var rest := "$" + p;
    assert WerkzeugHash(p) == WerkzeugMethod + ['$'] + rest;
    MethodFieldParses();
    SplitAtFirst(WerkzeugMethod, '$', rest);
    assert rest[0] == '$';
  }

  /** A werkzeug digest verifies exactly the password it was made from. */
  lemma WerkzeugCheckExact(p: string, q: string)
    ensures WerkzeugCheck(WerkzeugHash(p), q) == if p == q then Match else NoMatch
  {
    WerkzeugDigestParses(p);
    if WerkzeugHash(p) == WerkzeugHash(q) {
      assert p == WerkzeugHash(p)[|WerkzeugMethod| + 2..];
    }
  }

  /**
   * A digest of one scheme makes the other scheme's check raise, whatever
   * the password: bcrypt cannot read a werkzeug salt, and a bcrypt digest
   * names the empty hash method.
   */
  lemma SchemesDisjoint(p: string, q: string)
    ensures BcryptCheck(WerkzeugHash(p), q) == Raises(InvalidSalt)
    ensures WerkzeugCheck(BcryptHash(p), q) == Raises("Invalid hash method ''.")
  {
    var h := BcryptHash(p);
    assert h == [] + ['$'] + ("2b$" + p);
    SplitAtFirst([], '$', "2b$" + p);
    assert ("2b$" + p)[2] == '$';
    assert MethodName(h) == [];
  }
}
