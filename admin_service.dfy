/**
 * `AdminService`: the filtered user listing, deactivation and deletion with
 * an audit entry each, and the audit-log view (filter, newest first, limit).
 * The listing and the log view are queries, written as functions of the
 * store; the two account actions update it in place.
 */
module AdminService {
  import opened Optional
  import opened Text
  import opened UserModel
  import opened Store

  /** The `{"success", "message", "user_id"}` dictionary of the account actions. */
  datatype AdminResult = AdminResult(success: bool, message: string, userId: Option<int>)

  /** One element of `user_list`. */
  datatype UserSummary = UserSummary(id: int, email: string, username: string, isActive: bool, role: string)

  // ---------------------------------------------------------------- listing

  /** A search string filters only when it is truthy: present and non-empty. */
  predicate Searching(search: Option<string>) {
    search.Some? && search.value != ""
  }

  /** `column.ilike("%search%")` on ASCII text: a case-insensitive substring test. */
  predicate ILikeContains(column: string, search: string) {
    ContainsSub(ToLower(column), ToLower(search))
  }

  /**
   * The conjunction of the filters `list_all_users` adds to its query when it
   * gets as far as running it, that is without a username search.
   */
  predicate Listed(u: User, activeOnly: bool, searchEmail: Option<string>)
    reads u
  {
    && (activeOnly ==> u.isActive)
    && (Searching(searchEmail) ==> ILikeContains(u.email, searchEmail.value))
  }

  function Summary(u: User): UserSummary
    reads u
  {
    UserSummary(u.id, u.email, u.name, u.isActive, u.role)
  }

  /** The error a username search raises: `User.username` is a Python property, which has no `ilike`. */
  const UsernameSearchError: Attempt<map<int, UserSummary>> := NoAttribute("property", "ilike")

  /**
   * `list_all_users(active_only=False, search_email=None, search_username=None)`:
   * the summaries of the rows the filters keep, by id (the query has no
   * order). A truthy username search raises `AttributeError` while the query
   * is built, which the `except SQLAlchemyError` does not catch.
   */
  function ListAllUsers(db: Database, activeOnly: bool := false, searchEmail: Option<string> := None,
                        searchUsername: Option<string> := None)
    : (r: Attempt<map<int, UserSummary>>)
    reads db, db.users.Values
    ensures r.NoAttribute? <==> Searching(searchUsername)
    ensures r.NoAttribute? ==> r == UsernameSearchError
    ensures r.Done? ==> forall id :: id in r.value <==> id in db.users && Listed(db.users[id], activeOnly, searchEmail)
    ensures r.Done? ==> forall id | id in r.value :: r.value[id] == Summary(db.users[id])
  {
    if Searching(searchUsername) then UsernameSearchError
    else Done(map id | id in db.users && Listed(db.users[id], activeOnly, searchEmail) :: Summary(db.users[id]))
  }

  /** A truthy username search raises, whatever the other filters. */
  lemma UsernameSearchRaises(db: Database, activeOnly: bool, searchEmail: Option<string>, name: string)
    requires name != ""
    ensures ListAllUsers(db, activeOnly, searchEmail, Some(name)) == NoAttribute("property", "ilike")
  {
  }

  /** With `active_only`, every listed account is active, and no active account that matches the search is missing. */
  lemma ActiveOnlyListsActive(db: Database, searchEmail: Option<string>)
    ensures forall id | id in ListAllUsers(db, true, searchEmail).value :: ListAllUsers(db, true, searchEmail).value[id].isActive
    ensures forall id | id in ListAllUsers(db, false, searchEmail).value ::
              (id in ListAllUsers(db, true, searchEmail).value <==> db.users[id].isActive)
  {
  }

  /** An absent and an empty search string filter nothing, and raise nothing. */
  lemma EmptySearchKeepsAll(db: Database, activeOnly: bool)
    ensures ListAllUsers(db, activeOnly, Some("")) == ListAllUsers(db, activeOnly)
    ensures ListAllUsers(db, activeOnly, None, Some("")) == ListAllUsers(db, activeOnly)
  {
    forall id | id in db.users
      ensures Listed(db.users[id], activeOnly, Some("")) == Listed(db.users[id], activeOnly, None)
    {
    }
    assert ListAllUsers(db, activeOnly, Some("")).value.Keys == ListAllUsers(db, activeOnly).value.Keys;
  }

  /** The email search ignores case: an upper-cased search string lists the same rows. */
  lemma SearchIgnoresCase(db: Database, activeOnly: bool, q: string)
    ensures ListAllUsers(db, activeOnly, Some(ToUpper(q))) == ListAllUsers(db, activeOnly, Some(q))
  {
    LowerOfUpper(q);
    forall id | id in db.users
      ensures Listed(db.users[id], activeOnly, Some(ToUpper(q))) == Listed(db.users[id], activeOnly, Some(q))
    {
    }
    assert ListAllUsers(db, activeOnly, Some(ToUpper(q))).value.Keys == ListAllUsers(db, activeOnly, Some(q)).value.Keys;
  }

  /** The filters apply together: the listing is the intersection of the active-only and the email listings. */
  lemma SearchesCombine(db: Database, searchEmail: Option<string>)
    ensures ListAllUsers(db, true, searchEmail).value.Keys ==
              ListAllUsers(db, true).value.Keys * ListAllUsers(db, false, searchEmail).value.Keys
  {
    forall id | id in db.users
      ensures Listed(db.users[id], true, searchEmail) ==
                (Listed(db.users[id], true, None) && Listed(db.users[id], false, searchEmail))
    {
    }
  }

  // ---------------------------------------------------------------- account actions

  /** `_log_admin_action`: absent metadata is stored as an empty dictionary. */
  method LogAdminAction(db: Database, action: string, userId: int, metadata: Option<map<string, string>>, now: int)
    modifies db`auditLog, db`nextLogId
    ensures db.auditLog == old(db.auditLog) + [AdminAction(old(db.nextLogId), Some(userId), action, metadata.GetOr(map[]), now)]
    ensures metadata.None? ==> db.auditLog[|db.auditLog| - 1].metadata == map[]
    ensures db.nextLogId == old(db.nextLogId) + 1
  {
    db.AddAdminAction(Some(userId), action, metadata.GetOr(map[]), now);
  }

  /** `deactivate_user` */
  method DeactivateUser(db: Database, userId: int, now: int) returns (r: AdminResult)
    requires db.Valid()
    modifies db.UserAt(userId)`isActive, db`auditLog, db`nextLogId
    ensures db.Valid() && db.users == old(db.users)
    ensures userId !in db.users ==>
              r == AdminResult(false, "User not found.", None) && db.auditLog == old(db.auditLog) && db.nextLogId == old(db.nextLogId)
    ensures userId in db.users ==>
              && r == AdminResult(true, "User deactivated.", Some(userId))
              && !db.users[userId].isActive
              && db.auditLog == old(db.auditLog) + [AdminAction(old(db.nextLogId), Some(userId), "deactivate_user", map[], now)]
  {
    if userId !in db.users {
      return AdminResult(false, "User not found.", None);
    }
    var user := db.users[userId];
    user.isActive := false;
    LogAdminAction(db, "deactivate_user", userId, None, now);
    r := AdminResult(true, "User deactivated.", Some(user.id));
  }

  /**
   * `delete_user`: the row and what cascades from it go, then the action is
   * logged under the removed id.
   */
  method DeleteUser(db: Database, userId: int, now: int) returns (r: AdminResult)
    requires db.Valid()
    modifies db`users, db`subscriptions, db`auditLog, db`nextLogId
    ensures db.Valid()
    ensures userId !in old(db.users) ==> r == AdminResult(false, "User not found.", None) && unchanged(db)
    ensures userId in old(db.users) ==>
              && r == AdminResult(true, "User deleted.", Some(userId))
              && db.users == old(db.users) - {userId}
              && db.auditLog == WithoutUser(old(db.auditLog), userId)
                                + [AdminAction(old(db.nextLogId), Some(userId), "delete_user", map[], now)]
              && db.subscriptions.Keys <= old(db.subscriptions).Keys
              && (forall k | k in old(db.subscriptions) :: k in db.subscriptions <==> old(db.subscriptions)[k].userId != userId)
              && (forall k | k in db.subscriptions :: db.subscriptions[k] == old(db.subscriptions)[k])
  {
    if userId !in db.users {
      return AdminResult(false, "User not found.", None);
    }
    db.HardDeleteUser(userId);
    LogAdminAction(db, "delete_user", userId, None, now);
    r := AdminResult(true, "User deleted.", Some(userId));
  }

  // ---------------------------------------------------------------- audit-log view

  /** `if user_id:` and `if action:` add a filter only for truthy values; only admin actions carry an action. */
  predicate Selected(e: AuditEntry, userId: Option<int>, action: Option<string>) {
    && (userId.Some? && userId.value != 0 ==> e.userId == userId)
    && (action.Some? && action.value != "" ==> e.AdminAction? && e.action == action.value)
  }

  function FilterLog(log: seq<AuditEntry>, userId: Option<int>, action: Option<string>): (r: seq<AuditEntry>)
    ensures forall e :: multiset(r)[e] == if Selected(e, userId, action) then multiset(log)[e] else 0
  {
    if log == [] then []
    else
      assert log == [log[0]] + log[1..];
      (if Selected(log[0], userId, action) then [log[0]] else []) + FilterLog(log[1..], userId, action)
  }

  /** Newest first: timestamps never increase along the sequence. */
  predicate NewestFirst(s: seq<AuditEntry>) {
    forall i, j | 0 <= i < j < |s| :: s[i].timestamp >= s[j].timestamp
  }

  /** An entry no older than every entry of a newest-first sequence can go in front. */
  lemma PrependNewest(x: AuditEntry, s: seq<AuditEntry>)
    requires NewestFirst(s)
    requires forall y | y in multiset(s) :: x.timestamp >= y.timestamp
    ensures NewestFirst([x] + s)
  {
    forall i, j | 0 <= i < j < |[x] + s| ensures ([x] + s)[i].timestamp >= ([x] + s)[j].timestamp {
      if i == 0 {
        assert s[j - 1] in multiset(s);
      }
    }
  }

  /** Puts `e` before the first entry that is not newer than it. */
  function Insert(e: AuditEntry, s: seq<AuditEntry>): (r: seq<AuditEntry>)
    ensures multiset(r) == multiset(s) + multiset{e}
  {
    if s == [] then [e]
    else if e.timestamp >= s[0].timestamp then [e] + s
    else
      assert s == [s[0]] + s[1..];
      [s[0]] + Insert(e, s[1..])
  }

  /** Every entry of a newest-first sequence is no newer than its head. */
  lemma HeadIsNewest(s: seq<AuditEntry>)
    requires NewestFirst(s) && s != []
    ensures forall y | y in multiset(s) :: s[0].timestamp >= y.timestamp
  {
    forall y | y in multiset(s) ensures s[0].timestamp >= y.timestamp {
      var j :| 0 <= j < |s| && s[j] == y;
    }
  }

  lemma {:induction false} InsertKeepsOrder(e: AuditEntry, s: seq<AuditEntry>)
    requires NewestFirst(s)
    ensures NewestFirst(Insert(e, s))
  {
    if s == [] {
    } else if e.timestamp >= s[0].timestamp {
      HeadIsNewest(s);
      PrependNewest(e, s);
    } else {
      var rest := Insert(e, s[1..]);
      InsertKeepsOrder(e, s[1..]);
      assert s == [s[0]] + s[1..];
      forall y: AuditEntry | y in multiset(rest) ensures s[0].timestamp >= y.timestamp {
        if y != e {
          var j :| 0 <= j < |s[1..]| && s[1..][j] == y;
          assert s[j + 1] == y;
        }
      }
      PrependNewest(s[0], rest);
    }
  }

  /** `order_by(timestamp.desc())` */
  function SortNewestFirst(s: seq<AuditEntry>): (r: seq<AuditEntry>)
    ensures NewestFirst(r)
    ensures multiset(r) == multiset(s)
  {
    if s == [] then []
    else
      assert s == [s[0]] + s[1..];
      var rest := SortNewestFirst(s[1..]);
      InsertKeepsOrder(s[0], rest);
      Insert(s[0], rest)
  }

  /** The number of entries `view_audit_logs` shows when the caller names no limit. */
  const DefaultLogLimit: nat := 100

  /**
   * `view_audit_logs(limit=100, user_id=None, action=None)`: the selected
   * entries, newest first, at most `limit` of them — `limit` entries, or all
   * selected ones when there are fewer, each taken at most as often as it is
   * logged.
   */
  function ViewAuditLogs(log: seq<AuditEntry>, limit: nat := DefaultLogLimit, userId: Option<int> := None,
                         action: Option<string> := None): (r: seq<AuditEntry>)
    ensures var selected := FilterLog(log, userId, action);
            && |r| == (if limit < |selected| then limit else |selected|)
            && NewestFirst(r)
            && multiset(r) <= multiset(selected)
  {
    var sorted := SortNewestFirst(FilterLog(log, userId, action));
    assert |sorted| == |multiset(sorted)|;
    var k := if limit < |sorted| then limit else |sorted|;
    CutNewestFirst(sorted, k);
    sorted[..k]
  }

  /** Cutting a newest-first sequence leaves the newer part in front. */
  lemma CutNewestFirst(sorted: seq<AuditEntry>, k: nat)
    requires NewestFirst(sorted) && k <= |sorted|
    ensures NewestFirst(sorted[..k])
    ensures multiset(sorted) - multiset(sorted[..k]) == multiset(sorted[k..])
    ensures forall e, x | e in multiset(sorted[k..]) && x in sorted[..k] :: x.timestamp >= e.timestamp
  {
    assert sorted == sorted[..k] + sorted[k..];
    forall e, x | e in multiset(sorted[k..]) && x in sorted[..k] ensures x.timestamp >= e.timestamp {
      var j :| 0 <= j < |sorted[k..]| && sorted[k..][j] == e;
      var i :| 0 <= i < k && sorted[i] == x;
      assert sorted[k + j] == e;
    }
  }

  /**
   * Every entry shown is a selected entry of the log, and every selected
   * entry left out is no newer than any entry shown.
   */
  lemma ViewAuditLogsSelects(log: seq<AuditEntry>, limit: nat, userId: Option<int>, action: Option<string>)
    ensures var r := ViewAuditLogs(log, limit, userId, action);
            var selected := FilterLog(log, userId, action);
            && (forall e | e in r :: e in log && Selected(e, userId, action))
            && (forall e, x | e in multiset(selected) - multiset(r) && x in r :: x.timestamp >= e.timestamp)
  {
    var selected := FilterLog(log, userId, action);
    var sorted := SortNewestFirst(selected);
    var k := if limit < |sorted| then limit else |sorted|;
    var r := sorted[..k];
    assert r == ViewAuditLogs(log, limit, userId, action);
    CutNewestFirst(sorted, k);
    assert multiset(sorted) == multiset(selected);
    forall e | e in r ensures e in log && Selected(e, userId, action) {
      assert e in multiset(sorted);
      assert multiset(selected)[e] > 0;
    }
  }

  /** With a limit no smaller than the selection, the view shows exactly the selected entries. */
  lemma ViewShowsAllWithinLimit(log: seq<AuditEntry>, limit: nat, userId: Option<int>, action: Option<string>)
    requires limit >= |FilterLog(log, userId, action)|
    ensures multiset(ViewAuditLogs(log, limit, userId, action)) == multiset(FilterLog(log, userId, action))
  {
    var sorted := SortNewestFirst(FilterLog(log, userId, action));
    assert |sorted| == |multiset(sorted)|;
    assert sorted[..|sorted|] == sorted;
  }

  /** Without arguments the view draws on the whole log and shows its hundred newest entries, or all of them. */
  lemma DefaultViewShowsNewest(log: seq<AuditEntry>)
    ensures |ViewAuditLogs(log)| == if |log| < DefaultLogLimit then |log| else DefaultLogLimit
    ensures NewestFirst(ViewAuditLogs(log)) && multiset(ViewAuditLogs(log)) <= multiset(log)
  {
    FilterLogFalsy(log);
  }

  /** A falsy user id or action selects like an absent one. */
  lemma FalsyFiltersIgnored(log: seq<AuditEntry>, limit: nat)
    ensures ViewAuditLogs(log, limit, Some(0), Some("")) == ViewAuditLogs(log, limit, None, None)
  {
    assert forall e :: Selected(e, Some(0), Some("")) == Selected(e, None, None);
    FilterLogFalsy(log);
  }

  lemma {:induction false} FilterLogFalsy(log: seq<AuditEntry>)
    ensures FilterLog(log, Some(0), Some("")) == FilterLog(log, None, None) == log
  {
    if log != [] {
      FilterLogFalsy(log[1..]);
      assert log == [log[0]] + log[1..];
    }
  }
}
