/**
 * `AuthService`: registration, email confirmation, login, and the two steps
 * of a password reset, as step-by-step updates of the database. Each workflow
 * returns the mail it hands to the mailer, if any; delivery is the mailer's
 * business and only the reset request looks at whether sending raised.
 */
module AuthService {
  import opened Optional
  import opened Text
  import opened Hashing
  import opened AppConfig
  import opened Serializer
  import opened TokenService
  import opened UserModel
  import opened Store

  const MsgEmailRegistered := "Email is already registered."
  const MsgCouldNotRegister := "Could not register user at this time."
  const MsgInvalidCredentials := "Invalid email or password."
  const MsgInactive := "Account inactive or deleted."
  /** The smallest new password `reset_password` accepts. */
  const MinResetLength := 8

  /** A message handed to the mailer. */
  datatype Mail =
    | VerificationMail(to: string, token: Token)
    | ResetMail(to: string, token: Token)

  /** The username a registration stores: the given one, else the part of the email before the first "@". */
  function RegisteredName(email: string, username: Option<string>): (n: string)
    ensures username.Some? && username.value != "" ==> n == username.value
    ensures username.None? || username.value == "" ==>
              '@' !in n && StartsWith(email, n) && (|n| < |email| ==> email[|n|] == '@')
  {
    if username.Some? && username.value != "" then username.value else BeforeFirst(email, '@')
  }

  /**
   * The digest a registration stores: a password that already starts with "$2"
   * is kept verbatim, any other is hashed, and hashing the empty password
   * raises. A stored value starts with "$2", and a hashed one checks exactly
   * its password.
   */
  function StoredHash(password: string): (h: Outcome<string>)
    ensures h.Failure? <==> password == ""
    ensures h.Failure? ==> h.message == EmptyPassword
    ensures h.Success? ==> StartsWith(h.value, "$2")
    ensures StartsWith(password, "$2") ==> h == Success(password)
    ensures !StartsWith(password, "$2") && h.Success? ==>
              forall q :: BcryptCheck(h.value, q) == if q == password then Match else NoMatch
  {
    if StartsWith(password, "$2") then Success(password)
    else
      var h := BcryptGenerate(password);
      assert h.Success? ==> forall q :: BcryptCheck(h.value, q) == if q == password then Match else NoMatch by {
        forall q ensures h.Success? ==> BcryptCheck(h.value, q) == if q == password then Match else NoMatch {
          BcryptCheckExact(password, q);
        }
      }
      h
  }

  /**
   * A password that starts with "$2" but not with bcrypt's "$2b$" tag is stored
   * verbatim at registration, and bcrypt cannot read it: every login attempt
   * against it raises "Invalid salt".
   */
  lemma VerbatimPasswordUnreadable(password: string, attempt: string)
    requires StartsWith(password, "$2") && !StartsWith(password, BcryptTag)
    ensures StoredHash(password) == Success(password)
    ensures BcryptCheck(StoredHash(password).value, attempt) == Raises(InvalidSalt)
  {
  }

  /** An account that may log in and reset its password. */
  predicate Usable(u: User)
    reads u
  {
    u.isActive && !u.isDeleted
  }

  /** Some user has this email and this password. */
  predicate CredentialsMatch(db: Database, email: string, password: string)
    reads db, db.users.Values
  {
    exists id | id in db.users :: db.users[id].email == email && db.users[id].CheckPassword(password) == Match
  }

  /**
   * Some user has this email and a digest bcrypt cannot read, such as one the
   * user service stored with werkzeug, or a "$2"-prefixed password registration
   * stored verbatim: checking any password against it raises.
   */
  predicate DigestUnreadable(db: Database, email: string)
    reads db, db.users.Values
  {
    exists id | id in db.users :: db.users[id].email == email && !StartsWith(db.users[id].passwordHash, BcryptTag)
  }

  /** The id a confirmation token names, when it is truthy (`if not user_id` rejects 0). */
  function ConfirmedId(cfg: Config, token: Token, now: int): Option<int> {
    var id := ConfirmToken(cfg, token, now);
    if id.Some? && id.value != 0 then id else None
  }

  /** The id a reset token names, when it is truthy. */
  function ResetId(cfg: Config, token: Token, now: int): Option<int> {
    var id := ConfirmResetToken(cfg, token, now);
    if id.Some? && id.value != 0 then id else None
  }

  /** `_log_event`: one audit entry appended and committed. */
  method LogEvent(db: Database, userId: int, eventType: string, message: string, now: int)
    modifies db`auditLog, db`nextLogId
    ensures db.auditLog == old(db.auditLog) + [AuthEvent(old(db.nextLogId), Some(userId), eventType, message, now)]
    ensures db.nextLogId == old(db.nextLogId) + 1
  {
    db.AddAuthEvent(Some(userId), eventType, message, now);
  }

  /** `register_user` */
  method RegisterUser(db: Database, cfg: Config, email: string, password: string,
                      username: Option<string>, fullName: Option<string>, now: int)
    returns (r: Outcome<User>, mail: Option<Mail>)
    requires db.Valid()
    modifies db`users, db`nextUserId, db`auditLog, db`nextLogId
    ensures db.Valid()
    ensures old(db.EmailTaken(email)) ==> r == Failure(MsgEmailRegistered)
    ensures !old(db.EmailTaken(email)) && password == "" ==> r == Failure(EmptyPassword)
    ensures !old(db.EmailTaken(email)) && password != "" && old(db.NameTaken(RegisteredName(email, username))) ==>
              r == Failure(MsgCouldNotRegister)
    ensures r.Failure? ==> mail == None && unchanged(db)
    ensures r.Success? <==> !old(db.EmailTaken(email)) && password != "" && !old(db.NameTaken(RegisteredName(email, username)))
    ensures r.Success? ==>
              var u, id := r.value, old(db.nextUserId);
              && fresh(u)
              && db.users == old(db.users)[id := u] && db.nextUserId == id + 1
              && u.id == id && u.email == email && u.name == RegisteredName(email, username)
              && u.passwordHash == StoredHash(password).value && u.fullName == fullName
              && !u.isEmailVerified && u.role == "user" && u.isActive && !u.isDeleted
              && mail == Some(VerificationMail(email, GenerateConfirmationToken(cfg, id, now)))
              && db.auditLog == old(db.auditLog) + [AuthEvent(old(db.nextLogId), Some(id), "profile_update",
                                                               "User registered; verification email sent", now)]
  {
    var existing := db.FindByEmail(email);
    if existing.Some? {
      return Failure(MsgEmailRegistered), None;
    }
    var digest := StoredHash(password);
    if digest.Failure? {
      return Failure(digest.message), None;
    }
    var name := RegisteredName(email, username);
    if db.NameTaken(name) {
      // the unique constraint on the name column fails the commit, which is rolled back
      return Failure(MsgCouldNotRegister), None;
    }
    var user := db.AddUser(email, name, digest.value, fullName, now);
    mail := Some(VerificationMail(email, GenerateConfirmationToken(cfg, user.id, now)));
    LogEvent(db, user.id, "profile_update", "User registered; verification email sent", now);
    r := Success(user);
  }

  /** The user row a confirmation token would mark verified, as a frame. */
  function ConfirmTarget(db: Database, cfg: Config, token: Token, now: int): set<User>
    reads db
  {
    var id := ConfirmedId(cfg, token, now);
    if id.Some? then db.UserAt(id.value) else {}
  }

  /** `confirm_email` */
  method ConfirmEmail(db: Database, cfg: Config, token: Token, now: int) returns (ok: bool)
    requires db.Valid()
    modifies db`auditLog, db`nextLogId, ConfirmTarget(db, cfg, token, now)`isEmailVerified
    ensures db.Valid() && db.users == old(db.users)
    ensures ok <==> ConfirmedId(cfg, token, now).Some? && ConfirmedId(cfg, token, now).value in db.users
    ensures ok ==> db.users[ConfirmedId(cfg, token, now).value].isEmailVerified
    ensures ok && !old(db.users[ConfirmedId(cfg, token, now).value].isEmailVerified) ==>
              db.auditLog == old(db.auditLog)
                             + [AuthEvent(old(db.nextLogId), ConfirmedId(cfg, token, now), "email_change", "User email verified", now)]
    ensures !ok || old(db.users[ConfirmedId(cfg, token, now).value].isEmailVerified) ==>
              db.auditLog == old(db.auditLog) && db.nextLogId == old(db.nextLogId)
  {
    var userId := ConfirmedId(cfg, token, now);
    if userId.None? {
      return false;
    }
    if userId.value !in db.users {
      return false;
    }
    var user := db.users[userId.value];
    if user.isEmailVerified {
      return true;
    }
    user.isEmailVerified := true;
    LogEvent(db, userId.value, "email_change", "User email verified", now);
    return true;
  }

  /** The login bookkeeping of `authenticate`: the timestamp is set and the event logged. */
  method RecordLogin(db: Database, user: User, now: int)
    requires db.Valid() && user in db.users.Values
    modifies user`lastLogin, db`auditLog, db`nextLogId
    ensures db.Valid() && db.users == old(db.users)
    ensures user.lastLogin == Some(now)
    ensures db.auditLog == old(db.auditLog) + [AuthEvent(old(db.nextLogId), Some(user.id), "login", "User logged in", now)]
  {
    user.MarkLogin(now);
    LogEvent(db, user.id, "login", "User logged in", now);
  }

  /**
   * `authenticate(email, password, record_login=True)` at time `now`. The
   * password check raises "Invalid salt" on a row whose digest is not a
   * bcrypt digest, and that error escapes in place of the uniform message.
   */
  method Authenticate(db: Database, email: string, password: string, now: int, recordLogin: bool := true)
    returns (r: Outcome<User>)
    requires db.Valid()
    modifies db`auditLog, db`nextLogId, db.UsersWithEmail(email)`lastLogin
    ensures db.Valid() && db.users == old(db.users)
    ensures r == Failure(MsgInvalidCredentials) <==> !CredentialsMatch(db, email, password) && !DigestUnreadable(db, email)
    ensures r == Failure(InvalidSalt) <==> DigestUnreadable(db, email)
    ensures r == Failure(MsgInactive) <==>
              exists id | id in db.users :: db.users[id].email == email && db.users[id].CheckPassword(password) == Match
                                            && !Usable(db.users[id])
    ensures r.Failure? ==> r.message in {MsgInvalidCredentials, MsgInactive, InvalidSalt}
    ensures r.Success? ==>
              && r.value in old(db.UsersWithEmail(email))
              && r.value.CheckPassword(password) == Match && Usable(r.value)
              && r.value.lastLogin == (if recordLogin then Some(now) else old(r.value.lastLogin))
    ensures r.Success? && recordLogin ==>
              db.auditLog == old(db.auditLog) + [AuthEvent(old(db.nextLogId), Some(r.value.id), "login", "User logged in", now)]
    ensures r.Failure? || !recordLogin ==>
              db.auditLog == old(db.auditLog) && db.nextLogId == old(db.nextLogId)
              && forall u | u in old(db.UsersWithEmail(email)) :: u.lastLogin == old(u.lastLogin)
  {
    var found := db.FindByEmail(email);
    if found.None? {
      return Failure(MsgInvalidCredentials);
    }
    var verdict := db.users[found.value].CheckPassword(password);
    if verdict.Raises? {
      return Failure(verdict.message);
    }
    if verdict.NoMatch? {
      return Failure(MsgInvalidCredentials);
    }
    var user := db.users[found.value];
    if !user.isActive || user.isDeleted {
      return Failure(MsgInactive);
    }
    if recordLogin {
      RecordLogin(db, user, now);
    }
    return Success(user);
  }

  /** `initiate_password_reset`: `sendFails` says whether the mailer raised. */
  method InitiatePasswordReset(db: Database, cfg: Config, email: string, sendFails: bool, now: int)
    returns (ok: bool, mail: Option<Mail>)
    requires db.Valid()
    modifies db`auditLog, db`nextLogId
    ensures db.Valid() && db.users == old(db.users)
    ensures mail.Some? <==> exists id | id in db.users :: db.users[id].email == email && Usable(db.users[id])
    ensures mail.Some? ==>
              exists id | id in db.users :: db.users[id].email == email
                                            && mail == Some(ResetMail(email, GenerateResetToken(cfg, id, now)))
    ensures ok <==> mail.Some? && !sendFails
    ensures ok ==>
              exists id | id in db.users :: db.users[id].email == email
                 && db.auditLog == old(db.auditLog) + [AuthEvent(old(db.nextLogId), Some(id), "password_reset",
                                                                  "Password reset requested", now)]
    ensures !ok ==> db.auditLog == old(db.auditLog) && db.nextLogId == old(db.nextLogId)
  {
    var found := db.FindByEmail(email);
    if found.None? {
      return false, None;
    }
    var user := db.users[found.value];
    if !user.isActive || user.isDeleted {
      assert forall id | id in db.users && db.users[id].email == email :: db.users[id] == user;
      return false, None;
    }
    var token := GenerateResetToken(cfg, user.id, now);
    mail := Some(ResetMail(user.email, token));
    assert db.users[user.id] == user && Usable(user);
    if sendFails {
      return false, mail;
    }
    LogEvent(db, user.id, "password_reset", "Password reset requested", now);
    assert db.users[user.id] == user && Usable(user);
    ok := true;
  }

  /** The user row a reset token would change, as a frame. */
  function ResetTarget(db: Database, cfg: Config, token: Token, now: int): set<User>
    reads db
  {
    var id := ResetId(cfg, token, now);
    if id.Some? then db.UserAt(id.value) else {}
  }

  /** `reset_password` */
  method ResetPassword(db: Database, cfg: Config, token: Token, newPassword: string, now: int) returns (ok: bool)
    requires db.Valid()
    modifies db`auditLog, db`nextLogId, ResetTarget(db, cfg, token, now)`passwordHash
    ensures db.Valid() && db.users == old(db.users)
    ensures ok <==> && ResetId(cfg, token, now).Some?
                    && ResetId(cfg, token, now).value in db.users
                    && Usable(db.users[ResetId(cfg, token, now).value])
                    && |newPassword| >= MinResetLength
    ensures ok ==>
              var u := db.users[ResetId(cfg, token, now).value];
              && u.passwordHash == BcryptHash(newPassword)
              && (forall q :: u.CheckPassword(q) == if q == newPassword then Match else NoMatch)
              && db.auditLog == old(db.auditLog) + [AuthEvent(old(db.nextLogId), Some(u.id), "password_reset",
                                                               "Password successfully reset", now)]
    ensures !ok ==>
              && db.auditLog == old(db.auditLog) && db.nextLogId == old(db.nextLogId)
              && forall u | u in old(db.users.Values) :: u.passwordHash == old(u.passwordHash)
  {
    var userId := ResetId(cfg, token, now);
    if userId.None? {
      return false;
    }
    if userId.value !in db.users {
      return false;
    }
    var user := db.users[userId.value];
    if !user.isActive || user.isDeleted {
      return false;
    }
    if |newPassword| < MinResetLength {
      return false;
    }
    var hashed := user.SetPassword(newPassword);
    LogEvent(db, user.id, "password_reset", "Password successfully reset", now);
    return true;
  }
}
