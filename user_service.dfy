/**
 * `UserService` and the module-level helpers beside it: account creation and
 * credential checks with werkzeug digests, the whitelisted profile update,
 * soft and hard deletion, the token-driven password update and account
 * activation. The token issue and reset-token verification these functions
 * call are not methods of `TokenService`, so as written each such call raises
 * `AttributeError`; the model takes the intended callees as function
 * parameters.
 */
module UserService {
  import opened Optional
  import opened Text
  import opened Hashing
  import opened UserModel
  import opened Store

  /** The `ServiceResult` dictionary: success flag, message, token and user id. */
  datatype ServiceResult = ServiceResult(success: bool, message: string, token: Option<string>, userId: Option<int>)

  /** The `{"success": ..., "message": ...}` dictionary of the update and delete calls. */
  datatype Reply = Reply(success: bool, message: string)

  function Fail(message: string): ServiceResult {
    ServiceResult(false, message, None, None)
  }

  const UpdateFailedPrefix := "Update failed: "
  const DatabaseErrorPrefix := "Database error: "

  // ---------------------------------------------------------------- profile updates

  /** The keys `update_user_profile` writes; every other key is ignored. */
  const AllowedUpdateFields: set<string> := {"email", "username", "bio", "profile_picture"}

  /** The four columns a profile update can reach. */
  datatype ProfileFields = ProfileFields(email: string, name: string, bio: Option<string>, profilePicture: Option<string>)

  function FieldsOf(u: User): ProfileFields
    reads u
  {
    ProfileFields(u.email, u.name, u.bio, u.profilePicture)
  }

  /** One `setattr` of the loop, skipped when the key is not whitelisted. */
  function ApplyUpdate(f: ProfileFields, field: string, value: string): ProfileFields {
    if field == "email" then f.(email := value)
    else if field == "username" then f.(name := value)
    else if field == "bio" then f.(bio := Some(value))
    else if field == "profile_picture" then f.(profilePicture := Some(value))
    else f
  }

  /** The fields after the loop has run over `updates` in order. */
  function ApplyUpdates(f: ProfileFields, updates: seq<(string, string)>): ProfileFields
    decreases |updates|
  {
    if updates == [] then f
    else
      var last := updates[|updates| - 1];
      ApplyUpdate(ApplyUpdates(f, updates[..|updates| - 1]), last.0, last.1)
  }

  /** The value of the last update for `key`, if any. */
  function LastValue(updates: seq<(string, string)>, key: string): (v: Option<string>)
    ensures v.Some? ==> exists i | 0 <= i < |updates| :: updates[i] == (key, v.value)
    ensures v.None? <==> forall i | 0 <= i < |updates| :: updates[i].0 != key
    decreases |updates|
  {
    if updates == [] then None
    else if updates[|updates| - 1].0 == key then Some(updates[|updates| - 1].1)
    else
      var v := LastValue(updates[..|updates| - 1], key);
      assert forall i | 0 <= i < |updates| - 1 :: updates[..|updates| - 1][i] == updates[i];
      v
  }

  /**
   * Each reachable column ends up with the last value given for its key
   * ("username" for the name column), and keeps its value when no key names it.
   */
  lemma {:induction false} UpdatesLastWins(f: ProfileFields, updates: seq<(string, string)>)
    ensures ApplyUpdates(f, updates) ==
              ProfileFields(LastValue(updates, "email").GetOr(f.email),
                            LastValue(updates, "username").GetOr(f.name),
                            if LastValue(updates, "bio").Some? then LastValue(updates, "bio") else f.bio,
                            if LastValue(updates, "profile_picture").Some? then LastValue(updates, "profile_picture") else f.profilePicture)
    decreases |updates|
  {
    if updates != [] {
      UpdatesLastWins(f, updates[..|updates| - 1]);
    }
  }

  /** Keys outside the whitelist are ignored: an update naming none of the four columns changes nothing. */
  lemma {:induction false} OtherKeysIgnored(f: ProfileFields, updates: seq<(string, string)>)
    requires forall i | 0 <= i < |updates| :: updates[i].0 !in AllowedUpdateFields
    ensures ApplyUpdates(f, updates) == f
    decreases |updates|
  {
    if updates != [] {
      OtherKeysIgnored(f, updates[..|updates| - 1]);
    }
  }

  /** The rows of every user but `userId`. */
  function Others(db: Database, userId: int): (rows: set<User>)
    reads db
    ensures forall j | j in db.users && j != userId :: db.users[j] in rows
  {
    set j | j in db.users && j != userId :: db.users[j]
  }

  /** Another row already holds this email or name, so the commit violates a unique constraint. */
  predicate Clashes(db: Database, userId: int, email: string, name: string)
    reads db, Others(db, userId)
  {
    exists j | j in db.users && j != userId :: db.users[j].email == email || db.users[j].name == name
  }

  /** `Database.Valid` with the row `userId` left out, except for its key. */
  ghost predicate ValidExcept(db: Database, userId: int)
    reads db, Others(db, userId)
  {
    && 1 <= db.nextUserId
    && 1 <= db.nextPlanId
    && (userId in db.users ==> 1 <= userId < db.nextUserId)
    && (forall id | id in db.users && id != userId :: 1 <= id < db.nextUserId && db.users[id].id == id)
    && (forall i, j | i in db.users && j in db.users && i != j && i != userId && j != userId ::
          db.users[i].email != db.users[j].email && db.users[i].name != db.users[j].name)
    && (forall id | id in db.plans :: 1 <= id < db.nextPlanId && db.plans[id].id == id)
    && (forall i, j | i in db.plans && j in db.plans && i != j :: db.plans[i].name != db.plans[j].name)
  }

  /** A valid table is valid without row `userId`, whose key is right and which clashes with no other row. */
  lemma ValidSplit(db: Database, userId: int)
    requires userId in db.users && db.Valid()
    ensures ValidExcept(db, userId) && db.users[userId].id == userId
    ensures !Clashes(db, userId, db.users[userId].email, db.users[userId].name)
  {
  }

  /** The converse: a row that is keyed right and clashes with no other row completes a table valid without it. */
  lemma ValidJoin(db: Database, userId: int)
    requires userId in db.users && ValidExcept(db, userId) && db.users[userId].id == userId
    requires !Clashes(db, userId, db.users[userId].email, db.users[userId].name)
    ensures db.Valid()
  {
  }

  // ---------------------------------------------------------------- UserService

  /**
   * `create_user`: an email already stored fails first. The username lookup
   * filters on the `username` property rather than a column, so it never finds
   * a row; a taken name instead breaks the unique `name` column at the commit,
   * which is rolled back and reported as a database error. Otherwise exactly
   * one row is added with a werkzeug digest and the caller gets
   * `issueToken(email)`.
   */
  method CreateUser(db: Database, email: string, username: string, password: string,
                    issueToken: string -> string, now: int)
    returns (r: ServiceResult)
    requires db.Valid()
    modifies db`users, db`nextUserId
    ensures db.Valid()
    ensures old(db.EmailTaken(email)) ==> r == Fail("Email already registered.")
    ensures !old(db.EmailTaken(email)) && old(db.NameTaken(username)) ==>
              !r.success && StartsWith(r.message, DatabaseErrorPrefix) && r.token == None && r.userId == None
    ensures !r.success ==> db.users == old(db.users) && db.nextUserId == old(db.nextUserId)
    ensures r.success <==> !old(db.EmailTaken(email)) && !old(db.NameTaken(username))
    ensures r.success ==>
              var id := old(db.nextUserId);
              && r == ServiceResult(true, "User created successfully.", Some(issueToken(email)), Some(id))
              && db.nextUserId == id + 1
              && db.users.Keys == old(db.users).Keys + {id} && id !in old(db.users)
              && (forall k | k in old(db.users) :: db.users[k] == old(db.users)[k])
              && fresh(db.users[id])
              && db.users[id].email == email && db.users[id].name == username
              && (forall q :: WerkzeugCheck(db.users[id].passwordHash, q) == if q == password then Match else NoMatch)
  {
    var existing := db.FindByEmail(email);
    if existing.Some? {
      return Fail("Email already registered.");
    }
    if db.NameTaken(username) {
      // the unique constraint on the name column fails the commit, which is rolled back
      return Fail(DatabaseErrorPrefix + "unique constraint");
    }
    var hashed := WerkzeugHash(password);
    var user := db.AddUser(email, username, hashed, None, now);
    forall q ensures WerkzeugCheck(user.passwordHash, q) == if q == password then Match else NoMatch {
      WerkzeugCheckExact(password, q);
    }
    r := ServiceResult(true, "User created successfully.", Some(issueToken(email)), Some(user.id));
  }

  /** Some user has this email, and the werkzeug check of `password` against its digest gives `v`. */
  predicate WerkzeugGives(db: Database, email: string, password: string, v: Verdict)
    reads db, db.users.Values
  {
    exists id | id in db.users :: db.users[id].email == email && WerkzeugCheck(db.users[id].passwordHash, password) == v
  }

  /** Some user has this email, and the werkzeug check against its digest raises. */
  predicate WerkzeugRaises(db: Database, email: string, password: string)
    reads db, db.users.Values
  {
    exists id | id in db.users :: db.users[id].email == email && WerkzeugCheck(db.users[id].passwordHash, password).Raises?
  }

  /**
   * `authenticate_user`: an unknown email and a wrong password are told apart;
   * the account's active and deleted flags are not consulted. A digest the
   * werkzeug check cannot parse makes it raise `ValueError`, which escapes.
   */
  method AuthenticateUser(db: Database, email: string, password: string, issueToken: string -> string)
    returns (r: Outcome<ServiceResult>)
    requires db.Valid()
    ensures !db.EmailTaken(email) <==> r == Success(Fail("User not found."))
    ensures r == Success(Fail("Incorrect password.")) <==> WerkzeugGives(db, email, password, NoMatch)
    ensures r.Failure? <==> WerkzeugRaises(db, email, password)
    ensures r.Failure? ==> StartsWith(r.message, "Invalid hash method '")
    ensures r.Success? && r.value.success <==> WerkzeugGives(db, email, password, Match)
    ensures r.Success? && r.value.success ==>
              && r.value.message == "Authentication successful." && r.value.token == Some(issueToken(email))
              && r.value.userId.Some? && r.value.userId.value in db.users && db.users[r.value.userId.value].email == email
  {
    var found := db.FindByEmail(email);
    if found.None? {
      return Success(Fail("User not found."));
    }
    var user := db.users[found.value];
    assert forall id | id in db.users && db.users[id].email == email :: id == found.value;
    var verdict := WerkzeugCheck(user.passwordHash, password);
    if verdict.Raises? {
      return Failure(verdict.message);
    }
    if verdict.NoMatch? {
      return Success(Fail("Incorrect password."));
    }
    r := Success(ServiceResult(true, "Authentication successful.", Some(issueToken(email)), Some(user.id)));
  }

  /**
   * A row registered by the auth service carries a bcrypt digest, so
   * `authenticate_user` raises "Invalid hash method ''." for its email,
   * whatever the password.
   */
  lemma BcryptAccountsRaise(db: Database, id: int, registered: string, attempt: string)
    requires id in db.users && db.users[id].passwordHash == BcryptHash(registered)
    ensures WerkzeugCheck(db.users[id].passwordHash, attempt) == Raises("Invalid hash method ''.")
    ensures WerkzeugRaises(db, db.users[id].email, attempt)
  {
    SchemesDisjoint(registered, attempt);
  }

  /** The `setattr` loop of `update_user_profile`, before the commit. */
  method WriteUpdates(user: User, updates: seq<(string, string)>)
    modifies user`email, user`name, user`bio, user`profilePicture
    ensures FieldsOf(user) == ApplyUpdates(old(FieldsOf(user)), updates)
  {
    var i := 0;
    while i < |updates|
      invariant 0 <= i <= |updates|
      invariant FieldsOf(user) == ApplyUpdates(old(FieldsOf(user)), updates[..i])
    {
      var (field, value) := updates[i];
      if field == "email" {
        user.email := value;
      } else if field == "username" {
        user.SetUsername(value);
      } else if field == "bio" {
        user.bio := Some(value);
      } else if field == "profile_picture" {
        user.profilePicture := Some(value);
      }
      assert updates[..i + 1][..i] == updates[..i];
      i := i + 1;
    }
    assert updates[..i] == updates;
  }

  /**
   * The rollback of a failed commit: the row's columns get their saved values
   * back, and with them the table its validity.
   */
  method RollBack(db: Database, userId: int, user: User, saved: ProfileFields)
    requires userId in db.users && db.users[userId] == user && user.id == userId && user !in Others(db, userId)
    requires ValidExcept(db, userId) && !Clashes(db, userId, saved.email, saved.name)
    modifies user`email, user`name, user`bio
    ensures db.Valid()
    ensures FieldsOf(user) == saved.(profilePicture := user.profilePicture)
  {
    user.email, user.name, user.bio := saved.email, saved.name, saved.bio;
    ValidJoin(db, userId);
  }

  /**
   * The commit of `update_user_profile`: when the row's new values clash with
   * another row the rollback restores the saved columns, otherwise they are
   * kept. `profile_picture` is a plain attribute, not a column, so the
   * rollback leaves it as written.
   */
  method CommitProfile(db: Database, userId: int, user: User, saved: ProfileFields) returns (r: Reply)
    requires userId in db.users && db.users[userId] == user && user.id == userId && user !in Others(db, userId)
    requires ValidExcept(db, userId) && !Clashes(db, userId, saved.email, saved.name)
    modifies user`email, user`name, user`bio, user`profilePicture
    ensures db.Valid()
    ensures r.success <==> !Clashes(db, userId, old(user.email), old(user.name))
    ensures r.success ==> r.message == "Profile updated successfully." && FieldsOf(user) == old(FieldsOf(user))
    ensures !r.success ==>
              StartsWith(r.message, UpdateFailedPrefix) && FieldsOf(user) == saved.(profilePicture := old(user.profilePicture))
  {
    if Clashes(db, userId, user.email, user.name) {
      // the commit raises, and the rollback restores the row's stored values
      RollBack(db, userId, user, saved);
      return Reply(false, UpdateFailedPrefix + "unique constraint");
    }
    ValidJoin(db, userId);
    r := Reply(true, "Profile updated successfully.");
  }

  /**
   * `update_user_profile`: the whitelisted keys are written in order; a
   * commit that breaks a unique constraint is rolled back and leaves the
   * row's columns as they were. Only the four reachable fields of the
   * addressed row can change.
   */
  method UpdateUserProfile(db: Database, userId: int, updates: seq<(string, string)>) returns (r: Reply)
    requires db.Valid()
    modifies db.UserAt(userId)`email, db.UserAt(userId)`name, db.UserAt(userId)`bio, db.UserAt(userId)`profilePicture
    ensures db.Valid()
    ensures userId !in db.users ==> r == Reply(false, "User not found.")
    ensures userId in db.users ==>
              var u := db.users[userId];
              var target := ApplyUpdates(old(FieldsOf(u)), updates);
              && (r.success <==> !Clashes(db, userId, target.email, target.name))
              && (r.success ==> r.message == "Profile updated successfully." && FieldsOf(u) == target)
              && (!r.success ==> StartsWith(r.message, UpdateFailedPrefix)
                                 && FieldsOf(u) == old(FieldsOf(u)).(profilePicture := target.profilePicture))
  {
    if userId !in db.users {
      return Reply(false, "User not found.");
    }
    var user := db.users[userId];
    var saved := FieldsOf(user);
    assert forall j | j in db.users && j != userId :: db.users[j] != user;
    ValidSplit(db, userId);
    WriteUpdates(user, updates);
    r := CommitProfile(db, userId, user, saved);
  }

  /**
   * `delete_user(user_id, soft_delete=True)`: a soft delete clears `is_active` and keeps the row with
   * `is_deleted` untouched; a hard delete removes the row and what cascades from it.
   */
  method DeleteUser(db: Database, userId: int, softDelete: bool := true) returns (r: Reply)
    requires db.Valid()
    modifies db`users, db`subscriptions, db`auditLog, db.UserAt(userId)`isActive
    ensures db.Valid()
    ensures userId !in old(db.users) ==> r == Reply(false, "User not found.") && unchanged(db)
    ensures userId in old(db.users) && softDelete ==>
              && r == Reply(true, "Account deactivated.")
              && db.users == old(db.users) && !db.users[userId].isActive
              && db.users[userId].isDeleted == old(db.users[userId].isDeleted)
              && db.subscriptions == old(db.subscriptions) && db.auditLog == old(db.auditLog)
    ensures userId in old(db.users) && !softDelete ==>
              && r == Reply(true, "Account deleted permanently.")
              && db.users == old(db.users) - {userId}
              && db.auditLog == WithoutUser(old(db.auditLog), userId)
              && db.subscriptions.Keys <= old(db.subscriptions).Keys
              && (forall k | k in old(db.subscriptions) :: k in db.subscriptions <==> old(db.subscriptions)[k].userId != userId)
              && (forall k | k in db.subscriptions :: db.subscriptions[k] == old(db.subscriptions)[k])
  {
    if userId !in db.users {
      return Reply(false, "User not found.");
    }
    if softDelete {
      var user := db.users[userId];
      user.isActive := false;
      return Reply(true, "Account deactivated.");
    }
    db.HardDeleteUser(userId);
    r := Reply(true, "Account deleted permanently.");
  }

  /** `get_user_profile`: the row stored under the id, which carries that id. */
  function GetUserProfile(db: Database, userId: int): (r: Option<User>)
    requires db.Valid()
    reads db, db.users.Values
    ensures r.Some? <==> userId in db.users
    ensures r.Some? ==> r.value in db.users.Values && r.value.id == userId
  {
    if userId in db.users then Some(db.users[userId]) else None
  }

  // ---------------------------------------------------------------- module-level helpers

  /** The row a password update would rewrite, as a frame. */
  function PasswordTarget(db: Database, email: Option<string>): set<User>
    reads db, db.users.Values
  {
    if email.Some? then db.UsersWithEmail(email.value) else {}
  }

  /** Overwrites one row's digest; no other field and no other row changes. */
  method StoreHash(db: Database, user: User, digest: string)
    requires db.Valid() && user in db.users.Values
    modifies user`passwordHash
    ensures db.Valid() && user.passwordHash == digest
  {
    user.passwordHash := digest;
  }

  /**
   * `update_user_password`: `verifyReset` stands for the reset-token check
   * this function calls, which yields an email or nothing. An absent or empty
   * email fails before any row is read.
   */
  method UpdateUserPassword(db: Database, token: string, newPassword: string, verifyReset: string -> Option<string>)
    returns (r: ServiceResult)
    requires db.Valid()
    modifies PasswordTarget(db, verifyReset(token))`passwordHash
    ensures db.Valid()
    ensures verifyReset(token).None? || verifyReset(token) == Some("") ==> r == Fail("Invalid or expired token.")
    ensures verifyReset(token).Some? && verifyReset(token).value != "" && !db.EmailTaken(verifyReset(token).value) ==>
              r == Fail("User not found.")
    ensures !r.success ==> forall u | u in db.users.Values :: u.passwordHash == old(u.passwordHash)
    ensures r.success <==> verifyReset(token).Some? && verifyReset(token).value != "" && db.EmailTaken(verifyReset(token).value)
    ensures r.success ==>
              && r.message == "Password updated successfully." && r.token == None && r.userId.Some?
              && r.userId.value in db.users
              && var u := db.users[r.userId.value];
                 u.email == verifyReset(token).value && u.passwordHash == WerkzeugHash(newPassword)
  {
    var email := verifyReset(token);
    if email.None? || email.value == "" {
      return Fail("Invalid or expired token.");
    }
    var found := db.FindByEmail(email.value);
    if found.None? {
      return Fail("User not found.");
    }
    var user := db.users[found.value];
    StoreHash(db, user, WerkzeugHash(newPassword));
    r := ServiceResult(true, "Password updated successfully.", None, Some(user.id));
  }

  /** `activate_user_account` */
  method ActivateUserAccount(u: User) returns (ok: bool)
    modifies u`isActive
    ensures ok && u.isActive
  {
    u.isActive := true;
    ok := true;
  }
}
