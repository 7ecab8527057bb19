/**
 * Scan-token minting of the Rust backend (backend/src/modules/qr/handlers.rs):
 * from verified session claims, a short-lived token naming the same user and
 * session, with a fresh `jti` that the response echoes as its id.
 */
module BackendQr {
  import opened Common
  import opened BackendModels
  import opened BackendAuth

  /** Scan tokens live three minutes. */
  const ScanTokenSeconds := 3 * 60

  datatype ScanClaims = ScanClaims(sub: string, sessionId: string, iat: int, exp: int, jti: string)

  datatype QrResponse = QrResponse(id: string, userId: string, qrData: string, expiresAt: int)

  /** `encode` of scan claims with a secret; it may fail with a message. */
  type ScanSigner = (ScanClaims, string) -> Result<string, string>

  /** The signing key: JWT_SECRET, or the literal "secret" when it is unset. */
  function ScanSecret(secret: Option<string>): (key: string)
    ensures secret.Some? ==> key == secret.value
    ensures secret.None? ==> key == "secret"
  {
    if secret.Some? then secret.value else "secret"
  }

  /** The claims of a scan token minted at `now` from session claims. */
  function ScanClaimsFor(session: Claims, now: int, jti: string): (c: ScanClaims)
    ensures c.sub == session.sub && c.sessionId == session.sessionId && c.jti == jti
    ensures c.iat == now && c.exp - c.iat == ScanTokenSeconds
  {
    ScanClaims(session.sub, session.sessionId, now, now + ScanTokenSeconds, jti)
  }

  /** `generate_qr_handler` with the clock, the UUID and the signer as parameters. */
  function GenerateQr(authorization: Option<string>, cookie: Option<string>, secret: Option<string>,
                      decode: Decoder, now: int, jti: string, sign: ScanSigner): (r: Result<QrResponse, HttpError>)
    ensures var c := ClaimsFromHeaders(authorization, cookie, secret, decode);
      c.Err? ==> r == Err(HttpError(401, "Unauthorized: " + c.error.message))
    ensures var c := ClaimsFromHeaders(authorization, cookie, secret, decode);
      c.Ok? ==> (r.Ok? <==> sign(ScanClaimsFor(c.value, now, jti), ScanSecret(secret)).Ok?)
    ensures r.Ok? ==>
      var c := ClaimsFromHeaders(authorization, cookie, secret, decode);
      c.Ok? && r.value.id == jti && r.value.userId == c.value.sub
      && r.value.expiresAt == now + ScanTokenSeconds
      && sign(ScanClaimsFor(c.value, now, jti), ScanSecret(secret)) == Ok(r.value.qrData)
  {
    match ClaimsFromHeaders(authorization, cookie, secret, decode)
    case Err(e) => Err(HttpError(401, "Unauthorized: " + e.message))
    case Ok(session) =>
      var claims := ScanClaimsFor(session, now, jti);
      match sign(claims, ScanSecret(secret))
      case Err(msg) => Err(HttpError(500, "Failed to generate QR token: " + msg))
      case Ok(token) => Ok(QrResponse(jti, session.sub, token, claims.exp))
  }

  /**
   * The scan token's expiry depends only on the minting time: two sessions
   * that differ in their own expiry yield the same scan claims.
   */
  lemma ScanExpiryIgnoresSessionExpiry(session: Claims, otherExp: nat, now: int, jti: string)
    ensures ScanClaimsFor(session.(exp := otherExp), now, jti) == ScanClaimsFor(session, now, jti)
  {
  }

  /**
   * Without JWT_SECRET the session claims cannot be verified, so the
   * handler's fallback key "secret" is never used for signing.
   */
  lemma FallbackSecretUnreachable(authorization: Option<string>, cookie: Option<string>,
                                   decode: Decoder, now: int, jti: string, sign: ScanSigner)
    ensures GenerateQr(authorization, cookie, None, decode, now, jti, sign).Err?
    ensures GenerateQr(authorization, cookie, None, decode, now, jti, sign).error.status == 401
  {
  }
}
