/**
 * The server-side guards of src/lib/server/auth-utils.ts: the session user
 * built from `locals.user` (with its role permission table) and the
 * `require*` checks, which either return the user or redirect.
 */
module AuthUtils {
  import opened Common
  import opened FrontendAuth
  import Hooks

  const SuperAdminPermissions: seq<string> := [
    "ViewAllUsers", "CreateUsers", "UpdateUsers", "DeleteUsers",
    "ViewAllFaculties", "CreateFaculties", "UpdateFaculties", "DeleteFaculties",
    "ViewAllSessions", "ManageAllSessions", "ViewSystemAnalytics"]

  const FacultyAdminPermissions: seq<string> := [
    "ViewFacultyUsers", "CreateFacultyUsers", "UpdateFacultyUsers",
    "ViewFacultyAnalytics", "ManageFacultyActivities",
    "ViewFacultySessions", "ManageFacultySessions"]

  const ScannerPermissions: seq<string> := ["ViewAssignedActivities", "ScanQRCodes", "ViewPersonalSessions"]

  const StudentPermissions: seq<string> := ["ViewPersonalQR", "ViewPersonalHistory"]

  /** Seven days in milliseconds, the lifetime given to the session user. */
  const WeekMs: int := 7 * 24 * 60 * 60 * 1000

  /** The permission list pushed for a user, by admin flag and level. */
  function PermissionsFor(user: Hooks.LocalUser): (ps: seq<string>)
    ensures !user.isAdmin ==> |ps| == 2 && "ViewPersonalQR" in ps && "ViewPersonalHistory" in ps
    ensures user.isAdmin && user.adminLevel == Some("SuperAdmin") ==> |ps| == 11 && "ViewAllUsers" in ps
    ensures user.isAdmin && user.adminLevel == Some("FacultyAdmin") ==> |ps| == 7 && "ManageFacultyActivities" in ps
    ensures user.isAdmin && user.adminLevel !in {Some("SuperAdmin"), Some("FacultyAdmin")} ==> |ps| == 3 && "ScanQRCodes" in ps
  {
    if user.isAdmin then
      if user.adminLevel == Some("SuperAdmin") then SuperAdminPermissions
      else if user.adminLevel == Some("FacultyAdmin") then FacultyAdminPermissions
      else ScannerPermissions
    else StudentPermissions
  }

  /** Only non-admins may view their personal QR code; only the scanner tier may scan. */
  lemma PermissionTiersSeparate(user: Hooks.LocalUser)
    ensures "ViewPersonalQR" in PermissionsFor(user) <==> !user.isAdmin
    ensures "ScanQRCodes" in PermissionsFor(user) <==>
      user.isAdmin && user.adminLevel !in {Some("SuperAdmin"), Some("FacultyAdmin")}
    ensures "ViewAllUsers" in PermissionsFor(user) <==> user.isAdmin && user.adminLevel == Some("SuperAdmin")
  {
    var ps := PermissionsFor(user);
    if !user.isAdmin {
      assert ps == StudentPermissions;
      assert "ScanQRCodes" !in ps && "ViewAllUsers" !in ps;
    } else if user.adminLevel == Some("SuperAdmin") {
      assert "ViewPersonalQR" !in ps && "ScanQRCodes" !in ps;
    } else if user.adminLevel == Some("FacultyAdmin") {
      assert "ViewPersonalQR" !in ps && "ScanQRCodes" !in ps && "ViewAllUsers" !in ps;
    } else {
      assert ps == ScannerPermissions;
      assert "ViewPersonalQR" !in ps && "ViewAllUsers" !in ps;
    }
  }

  /** `getAuthenticatedUser`, with `Date.now()` as a parameter. */
  function GetAuthenticatedUser(local: Option<Hooks.LocalUser>, nowMs: int): (r: Option<SessionUser>)
    ensures r.None? <==> local.None?
    ensures r.Some? ==>
      var l := local.value;
      var u := r.value;
      && u.userId == l.id && u.studentId == l.studentId && u.email == l.email
      && u.firstName == l.firstName && u.lastName == l.lastName
      && u.facultyId == l.facultyId && u.departmentId.None? && u.organizationId.None?
      && u.sessionId == "session_" + l.id
      && u.permissions == PermissionsFor(l)
      && u.expiresAtMs == nowMs + WeekMs
      && (u.adminRole.Some? <==> l.isAdmin)
      && (u.adminRole.Some? ==>
            && u.adminRole.value.id == "admin_" + l.id
            && u.adminRole.value.adminLevel == OrElse(l.adminLevel, "RegularAdmin")
            && u.adminRole.value.facultyId == l.facultyId
            && u.adminRole.value.organizationId.None?
            && u.adminRole.value.permissions == u.permissions)
  {
    match local
    case None => None
    case Some(l) =>
      var permissions := PermissionsFor(l);
      Some(SessionUser(l.id, l.studentId, l.email, l.firstName, l.lastName, None, l.facultyId, None,
        "session_" + l.id, permissions, nowMs + WeekMs,
        if l.isAdmin then Some(AdminRole("admin_" + l.id, OrElse(l.adminLevel, "RegularAdmin"), l.facultyId, None, permissions))
        else None))
  }

  /** The role level an admin's checks see: the token's level, else 'RegularAdmin'. */
  function RoleLevel(l: Hooks.LocalUser): (level: string)
    ensures Truthy(l.adminLevel) ==> level == l.adminLevel.value
    ensures !Truthy(l.adminLevel) ==> level == "RegularAdmin"
  {
    OrElse(l.adminLevel, "RegularAdmin")
  }

  /** `requireAuth` */
  function RequireAuth(local: Option<Hooks.LocalUser>, nowMs: int, path: string, search: string,
                       encode: string -> string): (r: Result<SessionUser, Redirect>)
    ensures r.Ok? <==> local.Some?
    ensures r.Ok? ==> Some(r.value) == GetAuthenticatedUser(local, nowMs)
    ensures r.Err? ==> r.error == Redirect(303, Hooks.CreateRedirectUrl("/login", path, search, encode))
  {
    match GetAuthenticatedUser(local, nowMs)
    case None => Err(Redirect(303, Hooks.CreateRedirectUrl("/login", path, search, encode)))
    case Some(user) => Ok(user)
  }

  /** `requireAdmin`: the unauthenticated go to '/login', non-admins to '/admin/login'. */
  function RequireAdmin(local: Option<Hooks.LocalUser>, nowMs: int, path: string, search: string,
                        encode: string -> string): (r: Result<SessionUser, Redirect>)
    ensures r.Ok? <==> local.Some? && local.value.isAdmin
    ensures r.Ok? ==> Some(r.value) == GetAuthenticatedUser(local, nowMs) && r.value.adminRole.Some?
    ensures r.Err? && local.Some? ==> r.error == Redirect(303, Hooks.CreateRedirectUrl("/admin/login", path, search, encode))
    ensures r.Err? && local.None? ==> r.error == Redirect(303, Hooks.CreateRedirectUrl("/login", path, search, encode))
  {
    match RequireAuth(local, nowMs, path, search, encode)
    case Err(e) => Err(e)
    case Ok(user) =>
      if user.adminRole.None? then Err(Redirect(303, Hooks.CreateRedirectUrl("/admin/login", path, search, encode)))
      else Ok(user)
  }

  /** `requireAdminLevel` */
  function RequireAdminLevel(local: Option<Hooks.LocalUser>, nowMs: int, path: string, search: string,
                             encode: string -> string, requiredLevel: string): (r: Result<SessionUser, Redirect>)
    ensures r.Ok? <==> local.Some? && local.value.isAdmin && HasAdminLevel(RoleLevel(local.value), requiredLevel)
    ensures r.Ok? ==> Some(r.value) == GetAuthenticatedUser(local, nowMs)
    ensures r.Err? && local.Some? && local.value.isAdmin ==> r.error == Redirect(303, "/unauthorized")
  {
    match RequireAdmin(local, nowMs, path, search, encode)
    case Err(e) => Err(e)
    case Ok(user) =>
      if !HasAdminLevel(user.adminRole.value.adminLevel, requiredLevel) then Err(Redirect(303, "/unauthorized"))
      else Ok(user)
  }

  /** `requirePermission`: checks `user.permissions`, which every authenticated user has. */
  function RequirePermission(local: Option<Hooks.LocalUser>, nowMs: int, path: string, search: string,
                             encode: string -> string, permission: string): (r: Result<SessionUser, Redirect>)
    ensures r.Ok? <==> local.Some? && permission in PermissionsFor(local.value)
    ensures r.Err? && local.Some? ==> r.error == Redirect(303, "/unauthorized")
    ensures r.Err? && local.None? ==> r.error == Redirect(303, Hooks.CreateRedirectUrl("/login", path, search, encode))
  {
    match RequireAuth(local, nowMs, path, search, encode)
    case Err(e) => Err(e)
    case Ok(user) =>
      if permission !in user.permissions then Err(Redirect(303, "/unauthorized"))
      else Ok(user)
  }

  /** `requireSuperAdmin` */
  function RequireSuperAdmin(local: Option<Hooks.LocalUser>, nowMs: int, path: string, search: string,
                             encode: string -> string): (r: Result<SessionUser, Redirect>)
    ensures r.Ok? <==> local.Some? && local.value.isAdmin && local.value.adminLevel == Some("SuperAdmin")
  {
    RequireAdminLevel(local, nowMs, path, search, encode, "SuperAdmin")
  }

  /** `requireFacultyAdmin` */
  function RequireFacultyAdmin(local: Option<Hooks.LocalUser>, nowMs: int, path: string, search: string,
                               encode: string -> string): (r: Result<SessionUser, Redirect>)
    ensures r.Ok? <==> local.Some? && local.value.isAdmin && RoleLevel(local.value) in {"SuperAdmin", "FacultyAdmin"}
    ensures r.Err? && local.Some? && local.value.isAdmin ==> r.error == Redirect(303, "/unauthorized")
  {
    match RequireAdmin(local, nowMs, path, search, encode)
    case Err(e) => Err(e)
    case Ok(user) =>
      var level := user.adminRole.value.adminLevel;
      if level != "SuperAdmin" && level != "FacultyAdmin" then Err(Redirect(303, "/unauthorized"))
      else Ok(user)
  }

  /** `requireFacultyAccess`: SuperAdmin everywhere, FacultyAdmin in its own faculty only. */
  function RequireFacultyAccess(local: Option<Hooks.LocalUser>, nowMs: int, path: string, search: string,
                                encode: string -> string, facultyId: string): (r: Result<SessionUser, Redirect>)
    ensures r.Ok? <==>
      (&& local.Some? && local.value.isAdmin
       && (RoleLevel(local.value) == "SuperAdmin"
           || (RoleLevel(local.value) == "FacultyAdmin" && local.value.facultyId == Some(facultyId))))
    ensures r.Err? && local.Some? && local.value.isAdmin ==> r.error == Redirect(303, "/unauthorized")
  {
    match RequireAdmin(local, nowMs, path, search, encode)
    case Err(e) => Err(e)
    case Ok(user) =>
      var level := user.adminRole.value.adminLevel;
      if level == "SuperAdmin" then Ok(user)
      else if level == "FacultyAdmin" && user.adminRole.value.facultyId == Some(facultyId) then Ok(user)
      else Err(Redirect(303, "/unauthorized"))
  }

  /** `requireFacultyAdmin` is `requireAdminLevel(event, 'FacultyAdmin')` under another name. */
  lemma FacultyAdminIsLevelCheck(local: Option<Hooks.LocalUser>, nowMs: int, path: string, search: string,
                                 encode: string -> string)
    ensures RequireFacultyAdmin(local, nowMs, path, search, encode)
         == RequireAdminLevel(local, nowMs, path, search, encode, "FacultyAdmin")
  {
  }

  /** Faculty access implies the faculty-admin check, for every faculty. */
  lemma FacultyAccessNeedsFacultyAdmin(local: Option<Hooks.LocalUser>, nowMs: int, path: string, search: string,
                                       encode: string -> string, facultyId: string)
    requires RequireFacultyAccess(local, nowMs, path, search, encode, facultyId).Ok?
    ensures RequireFacultyAdmin(local, nowMs, path, search, encode).Ok?
  {
  }

  /**
   * A SuperAdmin passes every level and faculty check, yet lacks the
   * faculty permissions: the permission table gives it none of them.
   */
  lemma SuperAdminReach(local: Option<Hooks.LocalUser>, nowMs: int, path: string, search: string,
                        encode: string -> string, facultyId: string, level: string)
    requires local.Some? && local.value.isAdmin && local.value.adminLevel == Some("SuperAdmin")
    requires level in {"SuperAdmin", "FacultyAdmin", "RegularAdmin"}
    ensures RequireAdminLevel(local, nowMs, path, search, encode, level).Ok?
    ensures RequireFacultyAccess(local, nowMs, path, search, encode, facultyId).Ok?
    ensures RequirePermission(local, nowMs, path, search, encode, "ManageFacultyActivities").Err?
  {
    assert "ManageFacultyActivities" !in SuperAdminPermissions;
  }

  /**
   * An admin whose token carries a level outside the hierarchy (such as
   * 'OrganizationAdmin') holds the scanner permissions but fails every
   * level check, even 'RegularAdmin'.
   */
  lemma UnlistedLevelLockedOut(local: Option<Hooks.LocalUser>, nowMs: int, path: string, search: string,
                               encode: string -> string, level: string, required: string)
    requires local.Some? && local.value.isAdmin && local.value.adminLevel == Some(level)
    requires level !in {"", "SuperAdmin", "FacultyAdmin", "RegularAdmin"}
    ensures RequirePermission(local, nowMs, path, search, encode, "ScanQRCodes").Ok?
    ensures RequireAdminLevel(local, nowMs, path, search, encode, required).Err?
    ensures RequireFacultyAdmin(local, nowMs, path, search, encode).Err?
  {
    assert RoleLevel(local.value) == level;
    UnknownLevelNeverMatches(level, required);
  }
}
