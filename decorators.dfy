/**
 * The view guards of `app/utils/decorators.py` as decisions over the session:
 * each either runs the wrapped view or answers in its place. Flashed
 * messages are part of the decision; URL building is left to the endpoint name.
 */
module Decorators {
  import opened UserModel

  /** A value stored in the session. */
  datatype SessionValue = SNone | SBool(b: bool) | SInt(i: int) | SStr(s: string)

  /** Python truthiness of a session value. */
  predicate Truthy(v: SessionValue) {
    match v
    case SNone => false
    case SBool(b) => b
    case SInt(i) => i != 0
    case SStr(s) => s != ""
  }

  type Session = map<string, SessionValue>

  /** `session.get(key)`: a missing key reads as `None`. */
  function Get(session: Session, key: string): SessionValue {
    if key in session then session[key] else SNone
  }

  /** A `flash(message, category)` call. */
  datatype Flash = Flash(message: string, category: string)

  datatype Decision =
    | RunView
    | Redirect(endpoint: string, flash: MaybeFlash)
    | JsonError(status: int, error: string)

  /** `flash` is optional on a redirect. */
  datatype MaybeFlash = NoFlash | Flashed(f: Flash)

  /** `login_required` */
  function LoginRequired(session: Session): (d: Decision)
    ensures d == RunView <==> Truthy(Get(session, "user_id"))
    ensures d != RunView ==> d == Redirect("auth.login", Flashed(Flash("Please log in to access this page.", "warning")))
  {
    if !Truthy(Get(session, "user_id")) then Redirect("auth.login", Flashed(Flash("Please log in to access this page.", "warning")))
    else RunView
  }

  /** `admin_required`: the role must be exactly the string "admin". */
  function AdminRequired(session: Session): (d: Decision)
    ensures d == RunView <==> Get(session, "user_role") == SStr("admin")
    ensures d != RunView ==> d == Redirect("dashboard.home", Flashed(Flash("Admin access required.", "danger")))
  {
    if Get(session, "user_role") != SStr("admin") then Redirect("dashboard.home", Flashed(Flash("Admin access required.", "danger")))
    else RunView
  }

  /** `api_admin_required`: a JSON 403 instead of a redirect. */
  function ApiAdminRequired(session: Session): (d: Decision)
    ensures d == RunView <==> Get(session, "user_role") == SStr("admin")
    ensures d != RunView ==> d == JsonError(403, "Admin privileges required.")
  {
    if Get(session, "user_role") != SStr("admin") then JsonError(403, "Admin privileges required.")
    else RunView
  }

  /** `prevent_authenticated_access`: signed-in users go to the dashboard, with no message. */
  function PreventAuthenticatedAccess(session: Session): (d: Decision)
    ensures d == RunView <==> !Truthy(Get(session, "user_id"))
    ensures d != RunView ==> d == Redirect("dashboard.home", NoFlash)
  {
    if Truthy(Get(session, "user_id")) then Redirect("dashboard.home", NoFlash)
    else RunView
  }

  /** Exactly one of `login_required` and `prevent_authenticated_access` lets a request through. */
  lemma LoginGuardsComplementary(session: Session)
    ensures (LoginRequired(session) == RunView) != (PreventAuthenticatedAccess(session) == RunView)
  {
  }

  /** The page guard and the API guard admit the same sessions. */
  lemma AdminGuardsAgree(session: Session)
    ensures (AdminRequired(session) == RunView) == (ApiAdminRequired(session) == RunView)
  {
  }

  /**
   * The session check is case-sensitive, unlike `User.is_admin`: a role the
   * model calls admin ("Admin") is still turned away.
   */
  lemma AdminCheckIsCaseSensitive()
    ensures IsAdminRole("Admin")
    ensures AdminRequired(map["user_role" := SStr("Admin")]) != RunView
    ensures AdminRequired(map["user_role" := SStr("admin")]) == RunView
  {
    AdminRoleIgnoresCase("admin");
  }

  /** A user id of zero, or an empty one, counts as signed out. */
  lemma FalsyUserIdSignedOut(session: Session)
    requires Get(session, "user_id") in {SNone, SBool(false), SInt(0), SStr("")}
    ensures LoginRequired(session) != RunView && PreventAuthenticatedAccess(session) == RunView
  {
  }
}
