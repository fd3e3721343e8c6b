/**
 * The in-memory database behind the services: users by id, the audit log in
 * insertion order, subscriptions by id, and the plan table the subscription
 * service evidently means (the code declares no such table; only the
 * corrected plan operations of `SubscriptionPlans` use it). `Valid`
 * holds the table constraints the services rely on: primary keys agree with
 * the map keys and come from an increasing counter, user emails and names are
 * unique, and plan names are unique.
 */
module Store {
  import opened Optional
  import opened UserModel
  import opened SubscriptionModel

  /**
   * A row of the audit log. The two services write different columns: the
   * auth service sets `event_type` and `message`, the admin service sets
   * `action` and `metadata`. Only admin actions carry an action.
   */
  datatype AuditEntry =
    | AuthEvent(id: int, userId: Option<int>, eventType: string, message: string, timestamp: int)
    | AdminAction(id: int, userId: Option<int>, action: string, metadata: map<string, string>, timestamp: int)

  /** A row of the intended plan table, with the columns the subscription service names; the price is an opaque number. */
  datatype Plan = Plan(id: int, name: string, price: int, durationDays: int, tier: string, features: string)

  /** The audit log without the entries of `userId` (the cascade of a user's hard delete). */
  function WithoutUser(log: seq<AuditEntry>, userId: int): (r: seq<AuditEntry>)
    ensures |r| <= |log|
    ensures forall e :: e in r <==> e in log && e.userId != Some(userId)
  {
    if log == [] then []
    else (if log[0].userId == Some(userId) then [] else [log[0]]) + WithoutUser(log[1..], userId)
  }

  /** The cascade keeps every other entry as often as the log holds it, and none of the user's. */
  lemma {:induction false} WithoutUserCounts(log: seq<AuditEntry>, userId: int)
    ensures forall e :: multiset(WithoutUser(log, userId))[e] == if e.userId == Some(userId) then 0 else multiset(log)[e]
  {
    if log != [] {
      WithoutUserCounts(log[1..], userId);
      assert log == [log[0]] + log[1..];
    }
  }

  /** The cascade keeps the log's order: deleting from a concatenation deletes from each part in place. */
  lemma {:induction false} WithoutUserAppend(a: seq<AuditEntry>, b: seq<AuditEntry>, userId: int)
    ensures WithoutUser(a + b, userId) == WithoutUser(a, userId) + WithoutUser(b, userId)
  {
    if a == [] {
      assert a + b == b;
    } else {
      var head := if a[0].userId == Some(userId) then [] else [a[0]];
      var t := a + b;
      assert t[0] == a[0];
      assert t[1..] == a[1..] + b;
      var x, y := WithoutUser(a[1..], userId), WithoutUser(b, userId);
      WithoutUserAppend(a[1..], b, userId);
      assert WithoutUser(t, userId) == head + WithoutUser(t[1..], userId);
      assert WithoutUser(t[1..], userId) == x + y;
      assert WithoutUser(a, userId) == head + x;
      ConcatAssociates(head, x, y);
    }
  }

  lemma ConcatAssociates(p: seq<AuditEntry>, q: seq<AuditEntry>, r: seq<AuditEntry>)
    ensures p + (q + r) == (p + q) + r
  {
  }


  class Database {
    var users: map<int, User>
    var nextUserId: int
    var auditLog: seq<AuditEntry>
    var nextLogId: int
    var plans: map<int, Plan>
    var nextPlanId: int
    var subscriptions: map<int, Subscription>

    constructor ()
      ensures users == map[] && auditLog == [] && plans == map[] && subscriptions == map[]
      ensures Valid()
    {
      users := map[];
      nextUserId := 1;
      auditLog := [];
      nextLogId := 1;
      plans := map[];
      nextPlanId := 1;
      subscriptions := map[];
    }

    ghost predicate Valid()
      reads this, users.Values
    {
      && 1 <= nextUserId
      && 1 <= nextPlanId
      && (forall id | id in users :: 1 <= id < nextUserId && users[id].id == id)
      && (forall i, j | i in users && j in users && i != j :: users[i].email != users[j].email)
      && (forall i, j | i in users && j in users && i != j :: users[i].name != users[j].name)
      && (forall id | id in plans :: 1 <= id < nextPlanId && plans[id].id == id)
      && (forall i, j | i in plans && j in plans && i != j :: plans[i].name != plans[j].name)
    }

    predicate EmailTaken(email: string)
      reads this, users.Values
    {
      exists id | id in users :: users[id].email == email
    }

    predicate NameTaken(name: string)
      reads this, users.Values
    {
      exists id | id in users :: users[id].name == name
    }

    predicate PlanNameTaken(name: string)
      reads this
    {
      exists id | id in plans :: plans[id].name == name
    }

    /** The user row with id `id`, as a frame: empty when there is none. */
    function UserAt(id: int): set<User>
      reads this
    {
      if id in users then {users[id]} else {}
    }

    /** The user rows with email `email`, as a frame: at most one when `Valid()`. */
    function UsersWithEmail(email: string): set<User>
      reads this, users.Values
    {
      set id | id in users && users[id].email == email :: users[id]
    }

    /** `User.query.filter_by(email=email).first()` */
    method FindByEmail(email: string) returns (r: Option<int>)
      requires Valid()
      ensures r.Some? <==> EmailTaken(email)
      ensures r.Some? ==> r.value in users && users[r.value].email == email
      ensures r.Some? ==> UsersWithEmail(email) == {users[r.value]}
    {
      if exists id | id in users :: users[id].email == email {
        var id :| id in users && users[id].email == email;
        assert forall j | j in users && users[j].email == email :: j == id;
        return Some(id);
      }
      return None;
    }

    /**
     * `db.session.add(User(...))` followed by a commit that meets the unique
     * constraints: a new row with the column defaults gets the next id.
     */
    method AddUser(email: string, name: string, passwordHash: string, fullName: Option<string>, now: int) returns (u: User)
      requires Valid() && !EmailTaken(email) && !NameTaken(name)
      modifies this`users, this`nextUserId
      ensures Valid() && fresh(u)
      ensures u.id == old(nextUserId) && users == old(users)[u.id := u] && nextUserId == old(nextUserId) + 1
      ensures u.email == email && u.name == name && u.passwordHash == passwordHash && u.fullName == fullName
      ensures !u.isEmailVerified && u.role == DefaultRole && u.isActive && !u.isDeleted
      ensures u.lastLogin == None && u.createdAt == now
    {
      u := new User(nextUserId, email, name, passwordHash, fullName, now);
      users := users[u.id := u];
      nextUserId := nextUserId + 1;
    }

    /** The intended `db.session.add(plan)` and commit of a plan whose name is free: the row gets the next id. */
    method InsertPlan(p: Plan)
      requires Valid() && p.id == nextPlanId && !PlanNameTaken(p.name)
      modifies this`plans, this`nextPlanId
      ensures Valid()
      ensures plans == old(plans)[p.id := p] && nextPlanId == old(nextPlanId) + 1
    {
      plans := plans[p.id := p];
      nextPlanId := nextPlanId + 1;
    }

    /** `db.session.add(AuditLog(user_id=..., event_type=..., message=...))` and a commit: one event appended. */
    method AddAuthEvent(userId: Option<int>, eventType: string, message: string, now: int)
      modifies this`auditLog, this`nextLogId
      ensures auditLog == old(auditLog) + [AuthEvent(old(nextLogId), userId, eventType, message, now)]
      ensures nextLogId == old(nextLogId) + 1
    {
      auditLog := auditLog + [AuthEvent(nextLogId, userId, eventType, message, now)];
      nextLogId := nextLogId + 1;
    }

    /** `self.db.add(AuditLog(action=..., user_id=..., metadata=...))` and a commit: one action appended. */
    method AddAdminAction(userId: Option<int>, action: string, metadata: map<string, string>, now: int)
      modifies this`auditLog, this`nextLogId
      ensures auditLog == old(auditLog) + [AdminAction(old(nextLogId), userId, action, metadata, now)]
      ensures nextLogId == old(nextLogId) + 1
    {
      auditLog := auditLog + [AdminAction(nextLogId, userId, action, metadata, now)];
      nextLogId := nextLogId + 1;
    }

    /**
     * `db.session.delete(user)` followed by a commit. The user's relationships
     * cascade with "all, delete-orphan", so the user's subscriptions and audit
     * entries go with the row.
     */
    method HardDeleteUser(id: int)
      requires Valid() && id in users
      modifies this`users, this`subscriptions, this`auditLog
      ensures Valid()
      ensures users == old(users) - {id}
      ensures auditLog == WithoutUser(old(auditLog), id)
      ensures subscriptions.Keys <= old(subscriptions).Keys
      ensures forall k | k in old(subscriptions) ::
                k in subscriptions <==> old(subscriptions)[k].userId != id
      ensures forall k | k in subscriptions :: subscriptions[k] == old(subscriptions)[k]
    {
      users := users - {id};
      subscriptions := map k | k in subscriptions && subscriptions[k].userId != id :: subscriptions[k];
      auditLog := WithoutUser(auditLog, id);
    }
  }
}
