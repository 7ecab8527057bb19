/**
 * The derived stores and `require*` helpers shared by both client auth
 * stores (src/lib/stores/auth.ts and frontend/src/lib/stores/auth.ts).
 * The two differ only in how admin levels are spelled, so the spelling is
 * a parameter.
 */
module AuthViews {
  import opened Common
  import opened FrontendAuth

  /** The three admin-level names, lowest first. */
  datatype LevelNames = LevelNames(regular: string, faculty: string, superAdmin: string)

  /** The spelling of src/lib/stores/auth.ts. */
  const PascalLevels := LevelNames("RegularAdmin", "FacultyAdmin", "SuperAdmin")

  /** The spelling of frontend/src/lib/stores/auth.ts. */
  const SnakeLevels := LevelNames("regular_admin", "organization_admin", "super_admin")

  predicate Distinct(names: LevelNames) {
    names.regular != names.faculty && names.faculty != names.superAdmin && names.regular != names.superAdmin
  }

  /** The `levels` array of `requireAdminLevel`. */
  function Levels(names: LevelNames): (levels: seq<string>)
    ensures |levels| == 3 && levels[0] == names.regular && levels[1] == names.faculty && levels[2] == names.superAdmin
  {
    [names.regular, names.faculty, names.superAdmin]
  }

  /** `$user?.permissions || []` */
  function Permissions(user: Option<SessionUser>): (ps: seq<string>)
    ensures user.None? ==> ps == []
    ensures user.Some? ==> ps == user.value.permissions
  {
    match user
    case None => []
    case Some(u) => u.permissions
  }

  /** `hasPermission` */
  predicate HasPermission(user: Option<SessionUser>, permission: string) {
    permission in Permissions(user)
  }

  /** `hasAnyPermission`: some required permission is held; false for an empty list. */
  function HasAnyPermission(user: Option<SessionUser>, required: seq<string>): (b: bool)
    ensures b <==> exists p :: p in required && HasPermission(user, p)
    ensures required == [] ==> !b
    ensures user.None? ==> !b
  {
    AnyHeld(required, Permissions(user))
  }

  /** `hasAllPermissions`: every required permission is held; true for an empty list. */
  function HasAllPermissions(user: Option<SessionUser>, required: seq<string>): (b: bool)
    ensures b <==> forall p :: p in required ==> HasPermission(user, p)
    ensures required == [] ==> b
  {
    AllHeld(required, Permissions(user))
  }

  /** All of a non-empty list implies any of it. */
  lemma AllImpliesAny(user: Option<SessionUser>, required: seq<string>)
    requires required != [] && HasAllPermissions(user, required)
    ensures HasAnyPermission(user, required)
  {
    assert required[0] in required;
  }

  /** `isAdmin`: `admin_role` is present. */
  predicate IsAdmin(user: Option<SessionUser>) {
    user.Some? && user.value.adminRole.Some?
  }

  /** The admin level, when there is an admin role. */
  function AdminLevel(user: Option<SessionUser>): (level: Option<string>)
    ensures level.Some? <==> IsAdmin(user)
    ensures level.Some? ==> level.value == user.value.adminRole.value.adminLevel
  {
    if IsAdmin(user) then Some(user.value.adminRole.value.adminLevel) else None
  }

  /** `isFacultyAdmin`: the faculty (or organization) level, or the super level. */
  predicate IsFacultyAdmin(names: LevelNames, user: Option<SessionUser>) {
    AdminLevel(user) == Some(names.faculty) || AdminLevel(user) == Some(names.superAdmin)
  }

  /** `isSuperAdmin` */
  predicate IsSuperAdmin(names: LevelNames, user: Option<SessionUser>) {
    AdminLevel(user) == Some(names.superAdmin)
  }

  /** `requireAuth`: the user, or the thrown message. */
  function RequireAuth(user: Option<SessionUser>): (r: Result<SessionUser, string>)
    ensures r.Ok? <==> user.Some?
    ensures r.Ok? ==> r.value == user.value
    ensures r.Err? ==> r.error == "Authentication required"
  {
    match user
    case None => Err("Authentication required")
    case Some(u) => Ok(u)
  }

  /** `requirePermission` */
  function RequirePermission(user: Option<SessionUser>, permission: string): (r: Result<SessionUser, string>)
    ensures r.Ok? <==> HasPermission(user, permission)
    ensures r.Err? && user.Some? ==> r.error == "Permission required: " + permission
  {
    match RequireAuth(user)
    case Err(e) => Err(e)
    case Ok(u) => if permission !in u.permissions then Err("Permission required: " + permission) else Ok(u)
  }

  /** `requireAdminLevel`: an admin whose level's index is not below the required one's. */
  function RequireAdminLevel(names: LevelNames, user: Option<SessionUser>, level: string): (r: Result<SessionUser, string>)
    ensures r.Ok? <==> IsAdmin(user) && MeetsByIndex(Levels(names), AdminLevel(user).value, level)
    ensures r.Err? && user.None? ==> r.error == "Authentication required"
    ensures r.Err? && user.Some? && !IsAdmin(user) ==> r.error == "Admin access required"
    ensures r.Err? && IsAdmin(user) ==> r.error == "Admin level required: " + level
  {
    match RequireAuth(user)
    case Err(e) => Err(e)
    case Ok(u) =>
      if u.adminRole.None? then Err("Admin access required")
      else if IndexOrMinusOne(Levels(names), u.adminRole.value.adminLevel) < IndexOrMinusOne(Levels(names), level)
      then Err("Admin level required: " + level)
      else Ok(u)
  }

  /** `isFacultyAdmin` and `isSuperAdmin` agree with the level checks for the faculty and super levels. */
  lemma PredicatesMatchLevelChecks(names: LevelNames, user: Option<SessionUser>)
    requires Distinct(names)
    ensures IsFacultyAdmin(names, user) <==> RequireAdminLevel(names, user, names.faculty).Ok?
    ensures IsSuperAdmin(names, user) <==> RequireAdminLevel(names, user, names.superAdmin).Ok?
    ensures RequireAdminLevel(names, user, names.regular).Ok? <==> IsAdmin(user) && AdminLevel(user).value in Levels(names)
  {
    var levels := Levels(names);
    assert IndexOrMinusOne(levels, names.regular) == 0;
    assert IndexOrMinusOne(levels, names.faculty) == 1 by {
      assert levels[..1] == [names.regular];
    }
    assert IndexOrMinusOne(levels, names.superAdmin) == 2 by {
      assert levels[..2] == [names.regular, names.faculty];
    }
  }

  /**
   * On the three listed levels, the client's index order and the server's
   * `hasAdminLevel` hierarchy coincide.
   */
  lemma ClientOrderIsServerHierarchy(userLevel: string, required: string)
    requires userLevel in Levels(PascalLevels) && required in Levels(PascalLevels)
    ensures MeetsByIndex(Levels(PascalLevels), userLevel, required) <==> HasAdminLevel(userLevel, required)
  {
    var levels := Levels(PascalLevels);
    assert levels[..1] == ["RegularAdmin"];
    assert levels[..2] == ["RegularAdmin", "FacultyAdmin"];
  }

  /**
   * Off the list they part: a required level the client does not list is
   * met by every admin there, and by no one on the server.
   */
  lemma UnlistedRequirementDiffers(userLevel: string, required: string)
    requires required !in Levels(PascalLevels)
    ensures MeetsByIndex(Levels(PascalLevels), userLevel, required)
    ensures !HasAdminLevel(userLevel, required)
  {
    MissingLevels(Levels(PascalLevels), userLevel, required);
  }
}
