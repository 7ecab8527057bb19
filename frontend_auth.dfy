/**
 * Vocabulary shared by the SvelteKit server code and the client stores:
 * the session user, the decoded JWT payload and its expiry test, the
 * admin-level hierarchy of the server guards, and a redirect.
 */
module FrontendAuth {
  import opened Common

  datatype AdminRole = AdminRole(id: string, adminLevel: string, facultyId: Option<string>,
                                 organizationId: Option<string>, permissions: seq<string>)

  /** `SessionUser`; `expiresAtMs` stands for `expires_at` as milliseconds since the epoch. */
  datatype SessionUser = SessionUser(
    userId: string,
    studentId: string,
    email: string,
    firstName: string,
    lastName: string,
    departmentId: Option<string>,
    facultyId: Option<string>,
    organizationId: Option<string>,
    sessionId: string,
    permissions: seq<string>,
    expiresAtMs: int,
    adminRole: Option<AdminRole>)

  /** `JWTPayload` as decoded by `jwt.verify`. */
  datatype JwtPayload = JwtPayload(
    userId: string,
    studentId: string,
    email: string,
    firstName: string,
    lastName: string,
    departmentId: Option<string>,
    isAdmin: Option<bool>,
    adminLevel: Option<string>,
    facultyId: Option<string>,
    iat: Option<int>,
    exp: Option<int>)

  /** `jwt.verify(token, secret)`: the payload, or None where it throws. */
  type JwtVerifier = (string, string) -> Option<JwtPayload>

  datatype Redirect = Redirect(status: int, location: string)

  /** `process.env.JWT_SECRET || 'your-secret-key'` */
  function JwtSecret(env: Option<string>): (key: string)
    ensures Truthy(env) ==> key == env.value
    ensures !Truthy(env) ==> key == "your-secret-key"
  {
    OrElse(env, "your-secret-key")
  }

  /** `decoded.exp && Date.now() >= decoded.exp * 1000`; an `exp` of 0 or none never expires. */
  predicate Expired(payload: JwtPayload, nowMs: int) {
    NonZero(payload.exp) && nowMs >= payload.exp.value * 1000
  }

  /** `validateJWTToken`: the verified payload unless its `exp` second has been reached. */
  function ValidateJwtToken(verify: JwtVerifier, secretEnv: Option<string>, token: string, nowMs: int): (r: Option<JwtPayload>)
    ensures r.Some? ==> verify(token, JwtSecret(secretEnv)) == r && !Expired(r.value, nowMs)
    ensures r.None? <==> verify(token, JwtSecret(secretEnv)).None? || Expired(verify(token, JwtSecret(secretEnv)).value, nowMs)
  {
    match verify(token, JwtSecret(secretEnv))
    case None => None
    case Some(decoded) => if decoded.exp.Some? && decoded.exp.value != 0 && nowMs >= decoded.exp.value * 1000 then None else Some(decoded)
  }

  /** A token is refused from the first millisecond of its `exp` second, and accepted just before. */
  lemma ExpiryCutOff(verify: JwtVerifier, secretEnv: Option<string>, token: string, e: int)
    requires verify(token, JwtSecret(secretEnv)).Some? && verify(token, JwtSecret(secretEnv)).value.exp == Some(e) && e != 0
    ensures ValidateJwtToken(verify, secretEnv, token, e * 1000).None?
    ensures ValidateJwtToken(verify, secretEnv, token, e * 1000 - 1).Some?
  {
  }

  /** A payload without `exp`, or with `exp` 0, is accepted at any time. */
  lemma NoExpiryNeverExpires(verify: JwtVerifier, secretEnv: Option<string>, token: string, nowMs: int)
    requires verify(token, JwtSecret(secretEnv)).Some? && !NonZero(verify(token, JwtSecret(secretEnv)).value.exp)
    ensures ValidateJwtToken(verify, secretEnv, token, nowMs) == verify(token, JwtSecret(secretEnv))
  {
  }

  // ---------------------------------------------------------------------
  // The server-side admin hierarchy

  /** The `hierarchy` table of `hasAdminLevel`; other names have no entry. */
  function LevelRank(level: string): (rank: Option<nat>)
    ensures rank.Some? <==> level in {"SuperAdmin", "FacultyAdmin", "RegularAdmin"}
  {
    match level
    case "SuperAdmin" => Some(3)
    case "FacultyAdmin" => Some(2)
    case "RegularAdmin" => Some(1)
    case _ => None
  }

  /** `hierarchy[userLevel] >= hierarchy[requiredLevel]`; a missing entry makes the comparison false. */
  predicate HasAdminLevel(userLevel: string, requiredLevel: string) {
    LevelRank(userLevel).Some? && LevelRank(requiredLevel).Some?
    && LevelRank(userLevel).value >= LevelRank(requiredLevel).value
  }

  /** The hierarchy is a preorder on the three known levels, topped by SuperAdmin. */
  lemma HierarchyOrder(a: string, b: string, c: string)
    ensures a in {"SuperAdmin", "FacultyAdmin", "RegularAdmin"} ==> HasAdminLevel(a, a)
    ensures HasAdminLevel(a, b) && HasAdminLevel(b, c) ==> HasAdminLevel(a, c)
    ensures b in {"SuperAdmin", "FacultyAdmin", "RegularAdmin"} ==> HasAdminLevel("SuperAdmin", b)
    ensures HasAdminLevel("FacultyAdmin", "RegularAdmin") && !HasAdminLevel("RegularAdmin", "FacultyAdmin")
    ensures !HasAdminLevel("FacultyAdmin", "SuperAdmin")
  {
  }

  /** A level outside the table, such as 'OrganizationAdmin', meets no requirement and is met by no one. */
  lemma UnknownLevelNeverMatches(unknown: string, other: string)
    requires unknown !in {"SuperAdmin", "FacultyAdmin", "RegularAdmin"}
    ensures !HasAdminLevel(unknown, other) && !HasAdminLevel(other, unknown)
  {
  }

  // ---------------------------------------------------------------------
  // The client-side level order

  /** `levels.indexOf(userLevel) < levels.indexOf(requiredLevel)` is the refusal test of the stores. */
  predicate MeetsByIndex(levels: seq<string>, userLevel: string, requiredLevel: string) {
    IndexOrMinusOne(levels, userLevel) >= IndexOrMinusOne(levels, requiredLevel)
  }

  /**
   * A level missing from the list fails every listed requirement, and a
   * required level missing from the list is met by everyone.
   */
  lemma MissingLevels(levels: seq<string>, userLevel: string, requiredLevel: string)
    ensures userLevel !in levels && requiredLevel in levels ==> !MeetsByIndex(levels, userLevel, requiredLevel)
    ensures requiredLevel !in levels ==> MeetsByIndex(levels, userLevel, requiredLevel)
  {
  }

  /** On listed levels the order is the list's: a later level meets an earlier one, not conversely. */
  lemma ListOrder(levels: seq<string>, i: nat, j: nat)
    requires i < j < |levels| && levels[i] != levels[j] && levels[j] !in levels[..j] && levels[i] !in levels[..i]
    ensures MeetsByIndex(levels, levels[j], levels[i]) && !MeetsByIndex(levels, levels[i], levels[j])
  {
    assert levels[i] in levels[..j];
  }
}
