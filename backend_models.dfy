/**
 * The backend's shared records: users, admin roles, sessions and the claims
 * carried by a session token (backend/src/models.rs and
 * backend/src/modules/auth/models.rs). Identifiers (UUIDs) are kept as text.
 */
module BackendModels {
  import opened Common

  datatype UserStatus = Active | Inactive | Suspended

  datatype AdminLevel = SuperAdmin | OrganizationAdmin | RegularAdmin

  datatype ActivityStatus = Draft | Published | Ongoing | Completed | Cancelled

  datatype User = User(
    id: string,
    studentId: string,
    email: string,
    passwordHash: string,
    firstName: string,
    lastName: string,
    status: UserStatus,
    departmentId: Option<string>,
    loginCount: nat)

  datatype AdminRole = AdminRole(
    userId: string,
    level: AdminLevel,
    organizationId: Option<string>,
    isEnabled: bool)

  /** The session-token claims; `exp` and `iat` are UNIX seconds. */
  datatype Claims = Claims(
    sub: string,
    sessionId: string,
    exp: nat,
    iat: nat,
    studentId: string,
    email: string,
    firstName: string,
    lastName: string,
    departmentId: Option<string>,
    isAdmin: bool,
    adminLevel: Option<AdminLevel>,
    organizationId: Option<string>)

  /** An error response: HTTP status and message text. */
  datatype HttpError = HttpError(status: int, message: string)

  /**
   * The token decoder (`jsonwebtoken::decode` with the default validation)
   * is foreign code: given a token and a secret it yields the claims or fails.
   */
  type Decoder = (string, string) -> Option<Claims>

  /**
   * `verify_token`: a missing JWT_SECRET is a server error (500); a token
   * the decoder rejects is unauthorized (401).
   */
  function VerifyToken(secret: Option<string>, decode: Decoder, token: string): (r: Result<Claims, int>)
    ensures secret.None? ==> r == Err(500)
    ensures secret.Some? && decode(token, secret.value).None? ==> r == Err(401)
    ensures r.Ok? <==> secret.Some? && decode(token, secret.value).Some?
    ensures r.Ok? ==> r.value == decode(token, secret.value).value
  {
    match secret
    case None => Err(500)
    case Some(key) =>
      match decode(token, key)
      case None => Err(401)
      case Some(c) => Ok(c)
  }
}
