/**
 * The backend-session guards of src/lib/server/auth.ts. The call to the
 * backend's `/me` endpoint is abstracted as its outcome; what is modelled
 * is which user the response yields, whether the `session_id` cookie is
 * deleted, where a refused request is redirected, and the level checks
 * made once the admin user is known.
 */
module ServerAuth {
  import opened Common
  import opened FrontendAuth
  import Hooks

  datatype ServerAdminRole = ServerAdminRole(adminLevel: string, facultyId: Option<string>, permissions: seq<string>)

  /** `AuthenticatedUser`: a backend user with an optional admin role. */
  datatype AuthenticatedUser = AuthenticatedUser(id: string, email: string, adminRole: Option<ServerAdminRole>)

  /** The JSON body of `/me`: `user`, `data` and `session.user`, each possibly absent. */
  datatype MeBody = MeBody(user: Option<AuthenticatedUser>, data: Option<AuthenticatedUser>,
                           sessionUser: Option<AuthenticatedUser>)

  /** How the `fetch` of `/me` ended: a non-ok status, an exception, or an ok body. */
  datatype MeResponse = NotOk | Threw | OkBody(body: MeBody)

  /** `data?.user ?? data?.data ?? data?.session?.user` */
  function ExtractUser(body: MeBody): (u: Option<AuthenticatedUser>)
    ensures body.user.Some? ==> u == body.user
    ensures body.user.None? && body.data.Some? ==> u == body.data
    ensures body.user.None? && body.data.None? ==> u == body.sessionUser
    ensures u.None? <==> body.user.None? && body.data.None? && body.sessionUser.None?
  {
    if body.user.Some? then body.user
    else if body.data.Some? then body.data
    else body.sessionUser
  }

  /** What a guard did: its result and whether it deleted the `session_id` cookie. */
  datatype Guarded = Guarded(result: Result<AuthenticatedUser, Redirect>, cookieDeleted: bool)

  /** `requireAuth`: every failure after the cookie check deletes the cookie and goes to '/login'. */
  function RequireAuth(sessionId: Option<string>, me: MeResponse, path: string, search: string,
                       encode: string -> string): (g: Guarded)
    ensures g.result.Ok? <==> Truthy(sessionId) && me.OkBody? && ExtractUser(me.body).Some?
    ensures g.result.Ok? ==> g.result.value == ExtractUser(me.body).value && !g.cookieDeleted
    ensures g.result.Err? ==> g.result.error == Redirect(303, Hooks.CreateRedirectUrl("/login", path, search, encode))
    ensures g.cookieDeleted <==> Truthy(sessionId) && g.result.Err?
  {
    var refused := Err(Redirect(303, Hooks.CreateRedirectUrl("/login", path, search, encode)));
    if !Truthy(sessionId) then Guarded(refused, false)
    else match me
      case OkBody(body) =>
        (match ExtractUser(body)
         case Some(user) => Guarded(Ok(user), false)
         case None => Guarded(refused, true))
      case _ => Guarded(refused, true)
  }

  /**
   * `requireAdmin`, which reads `result.user` of the admin endpoint only
   * and demands an `admin_role`; every refusal goes to '/admin/login'.
   */
  function RequireAdmin(sessionId: Option<string>, me: MeResponse, path: string, search: string,
                        encode: string -> string): (g: Guarded)
    ensures g.result.Ok? <==> Truthy(sessionId) && me.OkBody? && me.body.user.Some? && me.body.user.value.adminRole.Some?
    ensures g.result.Ok? ==> g.result.value == me.body.user.value && !g.cookieDeleted
    ensures g.result.Err? ==> g.result.error == Redirect(303, Hooks.CreateRedirectUrl("/admin/login", path, search, encode))
    ensures g.cookieDeleted <==> Truthy(sessionId) && g.result.Err?
  {
    var refused := Err(Redirect(303, Hooks.CreateRedirectUrl("/admin/login", path, search, encode)));
    if !Truthy(sessionId) then Guarded(refused, false)
    else match me
      case OkBody(body) =>
        if body.user.Some? && body.user.value.adminRole.Some? then Guarded(Ok(body.user.value), false)
        else Guarded(refused, true)
      case _ => Guarded(refused, true)
  }

  /** The check `requireAdminLevel` adds once `requireAdmin` has returned an admin. */
  function AdminLevelCheck(user: AuthenticatedUser, requiredLevel: string): (r: Result<AuthenticatedUser, Redirect>)
    requires user.adminRole.Some?
    ensures r.Ok? <==> HasAdminLevel(user.adminRole.value.adminLevel, requiredLevel)
    ensures r.Ok? ==> r.value == user
    ensures r.Err? ==> r.error == Redirect(303, "/unauthorized")
  {
    if !HasAdminLevel(user.adminRole.value.adminLevel, requiredLevel) then Err(Redirect(303, "/unauthorized"))
    else Ok(user)
  }

  /** The check of `requirePermission`, made on the admin role's permissions. */
  function PermissionCheck(user: AuthenticatedUser, permission: string): (r: Result<AuthenticatedUser, Redirect>)
    requires user.adminRole.Some?
    ensures r.Ok? <==> permission in user.adminRole.value.permissions
    ensures r.Err? ==> r.error == Redirect(303, "/unauthorized")
  {
    if permission !in user.adminRole.value.permissions then Err(Redirect(303, "/unauthorized"))
    else Ok(user)
  }

  /** The check `requireFacultyAdmin` adds. */
  function FacultyAdminCheck(user: AuthenticatedUser): (r: Result<AuthenticatedUser, Redirect>)
    requires user.adminRole.Some?
    ensures r.Ok? <==> user.adminRole.value.adminLevel in {"SuperAdmin", "FacultyAdmin"}
    ensures r.Err? ==> r.error == Redirect(303, "/unauthorized")
  {
    var level := user.adminRole.value.adminLevel;
    if level != "SuperAdmin" && level != "FacultyAdmin" then Err(Redirect(303, "/unauthorized"))
    else Ok(user)
  }

  /** The check `requireFacultyAccess` adds. */
  function FacultyAccessCheck(user: AuthenticatedUser, facultyId: string): (r: Result<AuthenticatedUser, Redirect>)
    requires user.adminRole.Some?
    ensures r.Ok? <==>
      (user.adminRole.value.adminLevel == "SuperAdmin"
       || (user.adminRole.value.adminLevel == "FacultyAdmin" && user.adminRole.value.facultyId == Some(facultyId)))
    ensures r.Err? ==> r.error == Redirect(303, "/unauthorized")
  {
    var level := user.adminRole.value.adminLevel;
    if level == "SuperAdmin" then Ok(user)
    else if level == "FacultyAdmin" && user.adminRole.value.facultyId == Some(facultyId) then Ok(user)
    else Err(Redirect(303, "/unauthorized"))
  }

  /** `requireAdminLevel` */
  function RequireAdminLevel(sessionId: Option<string>, me: MeResponse, path: string, search: string,
                             encode: string -> string, requiredLevel: string): (g: Guarded)
    ensures g.result.Ok? <==>
      (&& RequireAdmin(sessionId, me, path, search, encode).result.Ok?
       && HasAdminLevel(me.body.user.value.adminRole.value.adminLevel, requiredLevel))
    ensures g.result.Err? && RequireAdmin(sessionId, me, path, search, encode).result.Ok? ==>
      g.result.error == Redirect(303, "/unauthorized") && !g.cookieDeleted
  {
    var admin := RequireAdmin(sessionId, me, path, search, encode);
    match admin.result
    case Err(_) => admin
    case Ok(user) => Guarded(AdminLevelCheck(user, requiredLevel), admin.cookieDeleted)
  }

  /** `requireFacultyAdmin` admits exactly what `requireAdminLevel(event, 'FacultyAdmin')` does. */
  lemma FacultyAdminIsLevelCheck(user: AuthenticatedUser)
    requires user.adminRole.Some?
    ensures FacultyAdminCheck(user) == AdminLevelCheck(user, "FacultyAdmin")
  {
  }

  /** Access to some faculty entails the faculty-admin check, and SuperAdmin reaches every faculty. */
  lemma FacultyAccessBounds(user: AuthenticatedUser, facultyId: string, other: string)
    requires user.adminRole.Some?
    ensures FacultyAccessCheck(user, facultyId).Ok? ==> FacultyAdminCheck(user).Ok?
    ensures user.adminRole.value.adminLevel == "SuperAdmin" ==> FacultyAccessCheck(user, other).Ok?
    ensures (&& user.adminRole.value.adminLevel == "FacultyAdmin"
             && FacultyAccessCheck(user, facultyId).Ok?
             && FacultyAccessCheck(user, other).Ok?) ==> facultyId == other
  {
  }

  /** `getAuthUser`: the user, or None; the cookie is deleted on every failure after the cookie check. */
  function GetAuthUser(sessionId: Option<string>, me: MeResponse): (r: (Option<AuthenticatedUser>, bool))
    ensures r.0.Some? <==> Truthy(sessionId) && me.OkBody? && ExtractUser(me.body).Some?
    ensures r.0.Some? ==> r.0 == ExtractUser(me.body)
    ensures r.1 <==> Truthy(sessionId) && r.0.None?
  {
    if !Truthy(sessionId) then (None, false)
    else match me
      case OkBody(body) => (ExtractUser(body), ExtractUser(body).None?)
      case _ => (None, true)
  }

  /** `getAuthUser` finds a user exactly when `requireAuth` admits one, and it is the same user. */
  lemma OptionalAgreesWithRequired(sessionId: Option<string>, me: MeResponse, path: string, search: string,
                                   encode: string -> string)
    ensures GetAuthUser(sessionId, me).0.Some? <==> RequireAuth(sessionId, me, path, search, encode).result.Ok?
    ensures GetAuthUser(sessionId, me).0.Some? ==>
      GetAuthUser(sessionId, me).0.value == RequireAuth(sessionId, me, path, search, encode).result.value
    ensures GetAuthUser(sessionId, me).1 == RequireAuth(sessionId, me, path, search, encode).cookieDeleted
  {
  }

  /** `logout`: the backend is told only for a truthy cookie, and the cookie is deleted in every case. */
  function Logout(sessionId: Option<string>): (r: (bool, bool))
    ensures r.0 <==> Truthy(sessionId)
    ensures r.1
  {
    (Truthy(sessionId), true)
  }
}
