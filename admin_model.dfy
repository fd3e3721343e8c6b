/**
 * The `Admin` record. Its role column is an enumeration of two values, so the
 * role is a datatype and no other value can be stored.
 */
module AdminModel {
  import opened Optional
  import opened Text
  import opened Hashing
  import UserModel

  datatype AdminRole = AdminLevel | SuperadminLevel

  /** The stored text of a role. */
  function RoleName(r: AdminRole): (s: string)
    ensures s == "admin" || s == "superadmin"
  {
    match r
    case AdminLevel => "admin"
    case SuperadminLevel => "superadmin"
  }

  class Admin {
    var id: int
    var email: string
    var username: string
    var passwordHash: string
    var fullName: Option<string>
    var avatarUrl: Option<string>
    var role: AdminRole
    var isActive: bool
    var isDeleted: bool
    var lastLogin: Option<int>
    var createdAt: int

    /** A new row with the column defaults. */
    constructor (id: int, email: string, username: string, passwordHash: string, now: int)
      ensures this.id == id && this.email == email && this.username == username
      ensures this.passwordHash == passwordHash
      ensures role == AdminLevel && RoleName(role) == "admin"
      ensures isActive && !isDeleted && lastLogin == None && fullName == None && avatarUrl == None
      ensures createdAt == now
    {
      this.id := id;
      this.email := email;
      this.username := username;
      this.passwordHash := passwordHash;
      this.fullName := None;
      this.avatarUrl := None;
      this.role := AdminLevel;
      this.isActive := true;
      this.isDeleted := false;
      this.lastLogin := None;
      this.createdAt := now;
    }

    /**
     * `set_password(password)`: bcrypt refuses an empty password with a
     * `ValueError`, and then the digest is not touched.
     */
    method SetPassword(password: string) returns (r: Outcome<()>)
      modifies this`passwordHash
      ensures r.Failure? <==> password == ""
      ensures r.Failure? ==> r.message == EmptyPassword && passwordHash == old(passwordHash)
      ensures r.Success? ==> passwordHash == BcryptHash(password)
      ensures r.Success? ==> forall q :: CheckPassword(q) == if q == password then Match else NoMatch
    {
      var digest := BcryptGenerate(password);
      if digest.Failure? {
        return Failure(digest.message);
      }
      passwordHash := digest.value;
      forall q ensures CheckPassword(q) == if q == password then Match else NoMatch {
        BcryptCheckExact(password, q);
      }
      r := Success(());
    }

    /** `check_password(password)` with bcrypt: it raises on a digest that is not a bcrypt digest. */
    function CheckPassword(password: string): (v: Verdict)
      reads this
      ensures v.Raises? <==> !StartsWith(passwordHash, BcryptTag)
      ensures v == Match ==> passwordHash == BcryptHash(password)
    {
      BcryptCheck(passwordHash, password)
    }

    /** Records the login time and changes nothing else. */
    method MarkLogin(now: int)
      modifies this`lastLogin
      ensures lastLogin == Some(now)
    {
      lastLogin := Some(now);
    }

    method SoftDelete()
      modifies this`isActive, this`isDeleted
      ensures !isActive && isDeleted
    {
      isActive := false;
      isDeleted := true;
    }

    /** `role == "superadmin"`, compared exactly: true for the superadmin level alone. */
    function IsSuperadmin(): (superadmin: bool)
      reads this
      ensures superadmin <==> role == SuperadminLevel
    {
      RoleName(role) == "superadmin"
    }

    function GetFullName(): (r: string)
      reads this
      ensures fullName.Some? && fullName.value != "" ==> r == fullName.value
      ensures fullName.None? || fullName.value == "" ==> r == username
    {
      UserModel.DisplayName(fullName, username)
    }
  }
}
