/**
 * The `User` record. Its mutators assign fields in place and their frames
 * name exactly the fields they may change; its queries are functions of the
 * fields.
 */
module UserModel {
  import opened Optional
  import opened Text
  import opened Hashing

  const DefaultRole := "user"

  /** `role.lower() == "admin"` */
  predicate IsAdminRole(role: string) {
    ToLower(role) == "admin"
  }

  /** `full_name or fallback`: an empty or absent full name gives way to the fallback. */
  function DisplayName(fullName: Option<string>, fallback: string): (r: string)
    ensures fullName.Some? && fullName.value != "" ==> r == fullName.value
    ensures fullName.None? || fullName.value == "" ==> r == fallback
  {
    if fullName.Some? && fullName.value != "" then fullName.value else fallback
  }

  class User {
    var id: int
    var email: string
    var name: string
    var passwordHash: string
    var isEmailVerified: bool
    var fullName: Option<string>
    var avatarUrl: Option<string>
    var bio: Option<string>
    /** Set through the profile update's `setattr`; the table has no such column. */
    var profilePicture: Option<string>
    var role: string
    var isActive: bool
    var isDeleted: bool
    var createdAt: int
    var lastLogin: Option<int>
    /**
     * The `subscription_id` the subscription service expects. `User` declares
     * no such column; only the corrected plan operations of `SubscriptionPlans`
     * read or write it.
     */
    var subscriptionId: Option<int>

    /** A new row with the column defaults. */
    constructor (id: int, email: string, name: string, passwordHash: string, fullName: Option<string>, now: int)
      ensures this.id == id && this.email == email && this.name == name
      ensures this.passwordHash == passwordHash && this.fullName == fullName
      ensures !isEmailVerified && role == "user" && isActive && !isDeleted
      ensures avatarUrl == None && bio == None && profilePicture == None
      ensures createdAt == now && lastLogin == None && subscriptionId == None
    {
      this.id := id;
      this.email := email;
      this.name := name;
      this.passwordHash := passwordHash;
      this.isEmailVerified := false;
      this.fullName := fullName;
      this.avatarUrl := None;
      this.bio := None;
      this.profilePicture := None;
      this.role := DefaultRole;
      this.isActive := true;
      this.isDeleted := false;
      this.createdAt := now;
      this.lastLogin := None;
      this.subscriptionId := None;
    }

    /** The `is_verified` alias reads `is_email_verified`. */
    function IsVerified(): bool
      reads this
    {
      isEmailVerified
    }

    /** The `is_verified` alias writes `is_email_verified`. */
    method SetIsVerified(value: bool)
      modifies this`isEmailVerified
      ensures isEmailVerified == value && IsVerified() == value
    {
      isEmailVerified := value;
    }

    /** The `username` alias reads `name`. */
    function Username(): string
      reads this
    {
      name
    }

    /** The `username` alias writes `name`. */
    method SetUsername(value: string)
      modifies this`name
      ensures name == value && Username() == value
    {
      name := value;
    }

    /**
     * `set_password(password)`: bcrypt refuses an empty password with a
     * `ValueError`, and then the digest is not touched.
     */
    method SetPassword(password: string) returns (r: Outcome<()>)
      modifies this`passwordHash
      ensures r.Failure? <==> password == ""
      ensures r.Failure? ==> r.message == EmptyPassword && passwordHash == old(passwordHash)
      ensures r.Success? ==> passwordHash == BcryptHash(password)
      ensures r.Success? ==> forall q :: CheckPassword(q) == if q == password then Match else NoMatch
    {
      var digest := BcryptGenerate(password);
      if digest.Failure? {
        return Failure(digest.message);
      }
      passwordHash := digest.value;
      forall q ensures CheckPassword(q) == if q == password then Match else NoMatch {
        BcryptCheckExact(password, q);
      }
      r := Success(());
    }

    /**
     * `check_password(password)` with bcrypt: it raises on a digest that is not
     * a bcrypt digest, such as one the user service stored with werkzeug.
     */
    function CheckPassword(password: string): (v: Verdict)
      reads this
      ensures v.Raises? <==> !StartsWith(passwordHash, BcryptTag)
      ensures v == Match ==> passwordHash == BcryptHash(password)
    {
      BcryptCheck(passwordHash, password)
    }

    method MarkLogin(now: int)
      modifies this`lastLogin
      ensures lastLogin == Some(now)
    {
      lastLogin := Some(now);
    }

    method SoftDelete()
      modifies this`isDeleted, this`isActive
      ensures isDeleted && !isActive
    {
      isDeleted := true;
      isActive := false;
    }

    /** `is_admin()`: the role, compared without regard to case, is "admin"; the default role is not. */
    function IsAdmin(): (admin: bool)
      reads this
      ensures admin <==> IsAdminRole(role)
      ensures admin ==> |role| == 5 && role != DefaultRole
    {
      AdminRoleIgnoresCase(role);
      DefaultRoleNotAdmin();
      IsAdminRole(role)
    }

    function GetFullName(): (r: string)
      reads this
      ensures fullName.Some? && fullName.value != "" ==> r == fullName.value
      ensures fullName.None? || fullName.value == "" ==> r == name
    {
      DisplayName(fullName, name)
    }
  }

  // ---------------------------------------------------------------------------
  // Properties

  /** The role check ignores case: "Admin" and "ADMIN" are admins, other roles are not. */
  lemma AdminRoleIgnoresCase(role: string)
    ensures IsAdminRole(ToUpper(role)) == IsAdminRole(role)
    ensures IsAdminRole(role) ==> |role| == 5
    ensures IsAdminRole("Admin") && IsAdminRole("ADMIN") && !IsAdminRole("user")
  {
    assert ToLower(ToUpper(role)) == ToLower(role);
    assert ToLower("Admin") == "admin";
    assert ToLower("ADMIN") == "admin";
    assert ToLower("user")[0] == 'u';
  }

  /** The default role is not an admin role. */
  lemma DefaultRoleNotAdmin()
    ensures !IsAdminRole(DefaultRole)
  {
    assert ToLower(DefaultRole)[0] == 'u';
  }

  /** Setting a password and checking it agree exactly under the ideal hasher. */
  lemma PasswordRoundTrip(u: User, p: string, q: string)
    requires u.passwordHash == BcryptHash(p)
    ensures u.CheckPassword(q) == if p == q then Match else NoMatch
  {
    BcryptCheckExact(p, q);
  }
}
