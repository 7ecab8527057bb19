/**
 * `authenticateAndIssueToken` of src/lib/server/auth-service.ts: input
 * validation, user lookup, the disabled-hash guard, password verification,
 * the role permission table, the expiry, and the session record with its
 * fallback session id. The database, Argon2, JWT signing and session
 * creation are parameters.
 */
module AuthService {
  import opened Common
  import FrontendAuth

  datatype AuthInput = AuthInput(email: Option<string>, studentId: Option<string>, password: string, rememberMe: bool)

  /** A `users` row, as far as login reads it. */
  datatype UserRow = UserRow(id: string, studentId: string, email: string, firstName: string, lastName: string,
                             departmentId: Option<string>, passwordHash: Option<string>)

  /** An `admin_roles` row; `adminLevel` is the database enum spelling. */
  datatype AdminRow = AdminRow(id: string, adminLevel: Option<string>, organizationId: Option<string>)

  /** The lookup the query makes: by e-mail or by student id. */
  datatype Lookup = ByEmail(email: string) | ByStudentId(studentId: string)

  /** The claims handed to `jwt.sign`; the preliminary token has no session id. */
  datatype TokenPayload = TokenPayload(userId: string, studentId: string, email: string, firstName: string,
                                       lastName: string, departmentId: Option<string>, isAdmin: bool,
                                       adminLevel: Option<string>, organizationId: Option<string>,
                                       sessionId: Option<string>)

  datatype IssuedRole = IssuedRole(id: string, adminLevel: Option<string>, organizationId: Option<string>,
                                   permissions: seq<string>)

  datatype IssuedUser = IssuedUser(userId: string, studentId: string, email: string, firstName: string, lastName: string,
                                   departmentId: Option<string>, organizationId: Option<string>, sessionId: string,
                                   permissions: seq<string>, expiresAtMs: int, adminRole: Option<IssuedRole>)

  datatype AuthResult = AuthResult(user: IssuedUser, token: string, expiresAtMs: int)

  /** The thrown error: its `code` and its message. */
  datatype AuthError = AuthError(code: string, message: string)

  const InvalidCredentials := AuthError("AUTH_ERROR", "Invalid credentials")

  /** `!password || (!email && !student_id)` */
  predicate MissingCredentials(input: AuthInput) {
    input.password == "" || (!Truthy(input.email) && !Truthy(input.studentId))
  }

  /** The lookup key: e-mail whenever it is given, the student id otherwise. */
  function LookupKey(input: AuthInput): (key: Lookup)
    requires !MissingCredentials(input)
    ensures Truthy(input.email) ==> key == ByEmail(input.email.value)
    ensures !Truthy(input.email) ==> key == ByStudentId(input.studentId.value)
  {
    if Truthy(input.email) then ByEmail(input.email.value) else ByStudentId(input.studentId.value)
  }

  /** A missing, blank or 'DISABLED' hash means password login is disabled. */
  predicate PasswordDisabled(hash: Option<string>) {
    !Truthy(hash) || Trim(hash.value) == "" || hash.value == "DISABLED"
  }

  /** The disabled test, without `trim`: missing, all whitespace, or the marker. */
  lemma PasswordDisabledMeaning(hash: Option<string>)
    ensures PasswordDisabled(hash) <==> hash.None? || AllSpace(hash.value) || hash.value == "DISABLED"
  {
    if hash.Some? {
      TrimEmptyIffBlank(hash.value);
    }
  }

  /** `convertAdminLevel`: database spelling to the token's level name. */
  function ConvertAdminLevel(dbLevel: Option<string>): (level: Option<string>)
    ensures !Truthy(dbLevel) ==> level.None?
    ensures Truthy(dbLevel) ==> level.Some? && level.value in {"SuperAdmin", "OrganizationAdmin", "RegularAdmin"}
    ensures level == Some("SuperAdmin") <==> dbLevel == Some("super_admin")
    ensures level == Some("OrganizationAdmin") <==> dbLevel == Some("organization_admin")
  {
    if !Truthy(dbLevel) then None
    else match dbLevel.value
      case "super_admin" => Some("SuperAdmin")
      case "organization_admin" => Some("OrganizationAdmin")
      case "regular_admin" => Some("RegularAdmin")
      case _ => Some("RegularAdmin")
  }

  /**
   * An organization admin's token names a level the server guards do not
   * know, so it meets no level requirement there.
   */
  lemma OrganizationLevelUnknownToGuards(required: string)
    ensures !FrontendAuth.HasAdminLevel(ConvertAdminLevel(Some("organization_admin")).value, required)
  {
    FrontendAuth.UnknownLevelNeverMatches("OrganizationAdmin", required);
  }

  const SuperAdminPermissions: seq<string> := [
    "ViewAllUsers", "CreateUsers", "UpdateUsers", "DeleteUsers",
    "ViewAllOrganizations", "CreateOrganizations", "UpdateOrganizations", "DeleteOrganizations",
    "ViewAllSessions", "ManageAllSessions", "ViewSystemAnalytics"]

  const OrganizationAdminPermissions: seq<string> := [
    "ViewOrganizationUsers", "CreateOrganizationUsers", "UpdateOrganizationUsers",
    "ViewOrganizationAnalytics", "ManageOrganizationActivities",
    "ViewOrganizationSessions", "ManageOrganizationSessions"]

  const ScannerPermissions: seq<string> := ["ViewAssignedActivities", "ScanQRCodes", "ViewPersonalSessions"]

  const StudentPermissions: seq<string> := ["ViewPersonalQR", "ViewPersonalHistory"]

  /** The permissions a login grants, by the raw database level of the admin row, if any. */
  function PermissionsFor(admin: Option<AdminRow>): (ps: seq<string>)
    ensures admin.None? ==> ps == StudentPermissions
    ensures admin.Some? && admin.value.adminLevel == Some("super_admin") ==> ps == SuperAdminPermissions
    ensures admin.Some? && admin.value.adminLevel == Some("organization_admin") ==> ps == OrganizationAdminPermissions
    ensures admin.Some? && admin.value.adminLevel !in {Some("super_admin"), Some("organization_admin")} ==> ps == ScannerPermissions
  {
    match admin
    case None => StudentPermissions
    case Some(row) =>
      if row.adminLevel == Some("super_admin") then SuperAdminPermissions
      else if row.adminLevel == Some("organization_admin") then OrganizationAdminPermissions
      else ScannerPermissions
  }

  /** 11, 7, 3 and 2 permissions by tier; only non-admins get the personal QR. */
  lemma PermissionCounts(admin: Option<AdminRow>)
    ensures admin.None? ==> |PermissionsFor(admin)| == 2
    ensures admin.Some? && admin.value.adminLevel == Some("super_admin") ==> |PermissionsFor(admin)| == 11
    ensures admin.Some? && admin.value.adminLevel == Some("organization_admin") ==> |PermissionsFor(admin)| == 7
    ensures admin.Some? && admin.value.adminLevel !in {Some("super_admin"), Some("organization_admin")} ==>
      |PermissionsFor(admin)| == 3
    ensures "ViewPersonalQR" in PermissionsFor(admin) <==> admin.None?
  {
    if admin.Some? {
      assert "ViewPersonalQR" !in PermissionsFor(admin);
    }
  }

  /** `(remember_me ? 30 : 7) * 24 * 60 * 60` */
  function ExpiresInSeconds(rememberMe: bool): (secs: int)
    ensures secs == (if rememberMe then 2592000 else 604800)
  {
    (if rememberMe then 30 else 7) * 24 * 60 * 60
  }

  /** `preliminaryToken.slice(0, 16)` */
  function FallbackSessionId(token: string): (id: string)
    ensures |id| == Min(16, |token|) && id == token[..|id|]
  {
    if |token| <= 16 then token else token[..16]
  }

  /**
   * What a successful login issues for the user row: identity fields, the
   * expiry, the permission list and admin role, and the token signed with
   * the session id when a session was created, else the preliminary token
   * and its first 16 characters as the session id.
   */
  predicate IssuedFor(res: AuthResult, row: UserRow, rememberMe: bool, nowMs: int,
                      adminRoleOf: string -> Option<AdminRow>, sign: (TokenPayload, int) -> string,
                      createSession: (string, int) -> Option<string>)
  {
    var admin := adminRoleOf(row.id);
    var secs := ExpiresInSeconds(rememberMe);
    var u := res.user;
    && u.userId == row.id && u.email == row.email && u.studentId == row.studentId
    && res.expiresAtMs == nowMs + secs * 1000 && u.expiresAtMs == res.expiresAtMs
    && u.permissions == PermissionsFor(admin)
    && (u.adminRole.Some? <==> admin.Some?)
    && (u.adminRole.Some? ==>
          u.adminRole.value.permissions == u.permissions
          && u.adminRole.value.adminLevel == ConvertAdminLevel(admin.value.adminLevel))
    && var preliminary := sign(TokenPayload(row.id, row.studentId, row.email, row.firstName, row.lastName,
                                            row.departmentId, admin.Some?,
                                            if admin.Some? then ConvertAdminLevel(admin.value.adminLevel) else None,
                                            if admin.Some? then admin.value.organizationId else None, None), secs);
       match createSession(row.id, nowMs + secs * 1000)
       case None =>
         u.sessionId == FallbackSessionId(preliminary) && res.token == preliminary
       case Some(sid) =>
         u.sessionId == sid
         && res.token == sign(TokenPayload(row.id, row.studentId, row.email, row.firstName, row.lastName,
                                               row.departmentId, admin.Some?,
                                               if admin.Some? then ConvertAdminLevel(admin.value.adminLevel) else None,
                                               if admin.Some? then admin.value.organizationId else None, Some(sid)), secs)
  }

  /** The issuing half of `authenticateAndIssueToken`, once the password is verified. */
  method Issue(row: UserRow, rememberMe: bool, nowMs: int,
               adminRoleOf: string -> Option<AdminRow>, sign: (TokenPayload, int) -> string,
               createSession: (string, int) -> Option<string>)
    returns (res: AuthResult)
    ensures IssuedFor(res, row, rememberMe, nowMs, adminRoleOf, sign, createSession)
  {
    var admin := adminRoleOf(row.id);
    var isAdmin := admin.Some?;
    var adminLevel: Option<string> := if isAdmin then admin.value.adminLevel else None;
    var convertedAdminLevel := ConvertAdminLevel(adminLevel);

    var permissions: seq<string> := [];
    if isAdmin {
      if adminLevel == Some("super_admin") {
        permissions := permissions + SuperAdminPermissions;
      } else if adminLevel == Some("organization_admin") {
        permissions := permissions + OrganizationAdminPermissions;
      } else {
        permissions := permissions + ScannerPermissions;
      }
    } else {
      permissions := permissions + StudentPermissions;
    }
    assert permissions == PermissionsFor(admin);

    var expiresInSeconds := (if rememberMe then 30 else 7) * 24 * 60 * 60;
    assert expiresInSeconds == ExpiresInSeconds(rememberMe);
    var expiresAt := nowMs + expiresInSeconds * 1000;
    var organizationId := if isAdmin then admin.value.organizationId else None;
    var preliminaryPayload := TokenPayload(row.id, row.studentId, row.email, row.firstName, row.lastName,
                                           row.departmentId, isAdmin, convertedAdminLevel, organizationId, None);
    var preliminaryToken := sign(preliminaryPayload, expiresInSeconds);

    var sessionId: string;
    var token: string;
    var sessionResult := createSession(row.id, expiresAt);
    if sessionResult.Some? {
      sessionId := sessionResult.value;
      token := sign(preliminaryPayload.(sessionId := Some(sessionId)), expiresInSeconds);
    } else {
      sessionId := if |preliminaryToken| <= 16 then preliminaryToken else preliminaryToken[..16];
      token := preliminaryToken;
    }

    var role := if isAdmin then Some(IssuedRole(admin.value.id, convertedAdminLevel,
                                                if Truthy(admin.value.organizationId) then admin.value.organizationId else None,
                                                permissions))
                else None;
    var user := IssuedUser(row.id, row.studentId, row.email, row.firstName, row.lastName,
                           if Truthy(row.departmentId) then row.departmentId else None,
                           if Truthy(organizationId) then organizationId else None,
                           sessionId, permissions, expiresAt, role);
    res := AuthResult(user, token, expiresAt);
  }

  /**
   * `authenticateAndIssueToken`. `findUser` is the `users` query,
   * `adminRoleOf` the `admin_roles` query, `verify(hash, password)` Argon2,
   * `sign(payload, expiresIn)` `jwt.sign`, and `createSession(userId,
   * expiresAtMs)` the session id from `createSessionWithRetry`, or None
   * where it throws.
   */
  method AuthenticateAndIssueToken(
    input: AuthInput,
    nowMs: int,
    findUser: Lookup -> Option<UserRow>,
    adminRoleOf: string -> Option<AdminRow>,
    verify: (string, string) -> bool,
    sign: (TokenPayload, int) -> string,
    createSession: (string, int) -> Option<string>)
    returns (r: Result<AuthResult, AuthError>)
    ensures MissingCredentials(input) ==>
      r == Err(AuthError("VALIDATION_ERROR", "Email or Student ID and password are required"))
    ensures !MissingCredentials(input) && findUser(LookupKey(input)).None? ==> r == Err(InvalidCredentials)
    ensures !MissingCredentials(input) && findUser(LookupKey(input)).Some? ==>
      var row := findUser(LookupKey(input)).value;
      && (PasswordDisabled(row.passwordHash) ==>
            r == Err(AuthError("PASSWORD_DISABLED", "Password login disabled for this account")))
      && (!PasswordDisabled(row.passwordHash) && !verify(row.passwordHash.value, input.password) ==>
            r == Err(InvalidCredentials))
      && (r.Ok? <==> !PasswordDisabled(row.passwordHash) && verify(row.passwordHash.value, input.password))
    ensures r.Ok? ==> IssuedFor(r.value, findUser(LookupKey(input)).value, input.rememberMe, nowMs,
                                adminRoleOf, sign, createSession)
  {
    if input.password == "" || (!Truthy(input.email) && !Truthy(input.studentId)) {
      return Err(AuthError("VALIDATION_ERROR", "Email or Student ID and password are required"));
    }
    var key := if Truthy(input.email) then ByEmail(input.email.value) else ByStudentId(input.studentId.value);
    assert key == LookupKey(input);
    var found := findUser(key);
    if found.None? {
      return Err(InvalidCredentials);
    }
    var row := found.value;
    if !Truthy(row.passwordHash) || Trim(row.passwordHash.value) == "" || row.passwordHash.value == "DISABLED" {
      return Err(AuthError("PASSWORD_DISABLED", "Password login disabled for this account"));
    }
    if !verify(row.passwordHash.value, input.password) {
      return Err(InvalidCredentials);
    }

    var issued := Issue(row, input.rememberMe, nowMs, adminRoleOf, sign, createSession);
    r := Ok(issued);
  }
}
