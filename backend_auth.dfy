/**
 * Credential handling of the Rust backend (backend/src/modules/auth/handlers.rs):
 * reading the session token from the Authorization or Cookie header, building
 * the Set-Cookie value, the login decision sequence and its store writes,
 * logout, and the password-reset flow.
 *
 * The SQL store is the `Database` class; the token codec, the Argon2
 * verifier, UUID generation and the clock are parameters.
 */
module BackendAuth {
  import opened Common
  import opened BackendModels

  const BearerPrefix := "Bearer "
  const SessionPrefix := "session_token="

  // ---------------------------------------------------------------------
  // Token extraction (RFC 6750 section 2.1, then the Cookie header of
  // RFC 6265 section 5.4)

  /** `HeaderValue::to_str` succeeds only on visible ASCII and tab. */
  predicate VisibleAscii(s: string) {
    forall k :: 0 <= k < |s| ==> s[k] == '\t' || (' ' <= s[k] <= '~')
  }

  /** An Authorization header that decides the outcome on its own. */
  predicate BearerAuthorization(authorization: Option<string>) {
    authorization.Some? && VisibleAscii(authorization.value) && StartsWith(authorization.value, BearerPrefix)
  }

  /** The Authorization header is absent or readable but not a Bearer header. */
  predicate FallsThrough(authorization: Option<string>) {
    authorization.None? || (VisibleAscii(authorization.value) && !StartsWith(authorization.value, BearerPrefix))
  }

  predicate SessionPart(part: string) {
    StartsWith(Trim(part), SessionPrefix)
  }

  function SessionValue(part: string): string
    requires SessionPart(part)
  {
    Trim(part)[|SessionPrefix|..]
  }

  /** The value of the first cookie part that names `session_token`. */
  function FirstSessionValue(parts: seq<string>): (r: Option<string>)
    ensures r.None? <==> forall i :: 0 <= i < |parts| ==> !SessionPart(parts[i])
    ensures r.Some? ==> exists i :: (0 <= i < |parts| && SessionPart(parts[i])
      && (forall j :: 0 <= j < i ==> !SessionPart(parts[j])) && r.value == SessionValue(parts[i]))
    decreases |parts|
  {
    if |parts| == 0 then None
    else if SessionPart(parts[0]) then Some(SessionValue(parts[0]))
    else
      var r := FirstSessionValue(parts[1..]);
      assert forall i :: 1 <= i < |parts| ==> parts[i] == parts[1..][i - 1];
      r
  }

  /** The first session part decides, whatever follows it. */
  lemma FirstSessionValueAt(parts: seq<string>, i: nat)
    requires i < |parts| && SessionPart(parts[i])
    requires forall j :: 0 <= j < i ==> !SessionPart(parts[j])
    ensures FirstSessionValue(parts) == Some(SessionValue(parts[i]))
  {
  }

  /** Any verification failure becomes 401 with the given message. */
  function AsUnauthorized(v: Result<Claims, int>, message: string): (r: Result<Claims, HttpError>)
    ensures r.Ok? <==> v.Ok?
    ensures r.Ok? ==> r.value == v.value
    ensures r.Err? ==> r.error == HttpError(401, message)
  {
    match v
    case Ok(c) => Ok(c)
    case Err(_) => Err(HttpError(401, message))
  }

  /** What `get_claims_from_headers` returns, as a function of both headers. */
  function ClaimsFromHeaders(authorization: Option<string>, cookie: Option<string>,
                             secret: Option<string>, decode: Decoder): (r: Result<Claims, HttpError>)
    ensures authorization.Some? && !VisibleAscii(authorization.value) ==>
      r == Err(HttpError(401, "Invalid Authorization header"))
    ensures BearerAuthorization(authorization) ==>
      r == AsUnauthorized(VerifyToken(secret, decode, TrimStartMatches(authorization.value, BearerPrefix)),
                          "Invalid or expired token")
    ensures FallsThrough(authorization) && cookie.None? ==> r == Err(HttpError(401, "Missing authentication"))
    ensures FallsThrough(authorization) && cookie.Some? && !VisibleAscii(cookie.value) ==>
      r == Err(HttpError(401, "Invalid cookie"))
  {
    if authorization.Some? && !VisibleAscii(authorization.value) then
      Err(HttpError(401, "Invalid Authorization header"))
    else if BearerAuthorization(authorization) then
      AsUnauthorized(VerifyToken(secret, decode, TrimStartMatches(authorization.value, BearerPrefix)),
                     "Invalid or expired token")
    else if cookie.None? then
      Err(HttpError(401, "Missing authentication"))
    else if !VisibleAscii(cookie.value) then
      Err(HttpError(401, "Invalid cookie"))
    else
      var parts := Split(cookie.value, ';');
      match FirstSessionValue(parts)
      case None => Err(HttpError(401, "Missing authentication"))
      case Some(v) =>
        AsUnauthorized(VerifyToken(secret, decode, v), "Invalid or expired session")
  }

  /**
   * In the cookie path the first `session_token=` part decides the
   * outcome; later parts are never examined.
   */
  lemma FirstSessionPartDecides(authorization: Option<string>, cookie: string, secret: Option<string>,
                                decode: Decoder, i: nat)
    requires FallsThrough(authorization) && VisibleAscii(cookie)
    requires i < |Split(cookie, ';')| && SessionPart(Split(cookie, ';')[i])
    requires forall j :: 0 <= j < i ==> !SessionPart(Split(cookie, ';')[j])
    ensures ClaimsFromHeaders(authorization, Some(cookie), secret, decode)
         == AsUnauthorized(VerifyToken(secret, decode, SessionValue(Split(cookie, ';')[i])), "Invalid or expired session")
  {
    FirstSessionValueAt(Split(cookie, ';'), i);
  }

  /** A readable cookie without a `session_token=` part is missing authentication. */
  lemma NoSessionPartIsMissing(authorization: Option<string>, cookie: string, secret: Option<string>, decode: Decoder)
    requires FallsThrough(authorization) && VisibleAscii(cookie)
    requires forall j :: 0 <= j < |Split(cookie, ';')| ==> !SessionPart(Split(cookie, ';')[j])
    ensures ClaimsFromHeaders(authorization, Some(cookie), secret, decode) == Err(HttpError(401, "Missing authentication"))
  {
  }

  /** With a Bearer header the Cookie header is never consulted. */
  lemma BearerIgnoresCookie(authorization: Option<string>, c1: Option<string>, c2: Option<string>,
                            secret: Option<string>, decode: Decoder)
    requires BearerAuthorization(authorization)
    ensures ClaimsFromHeaders(authorization, c1, secret, decode) == ClaimsFromHeaders(authorization, c2, secret, decode)
  {
  }

  lemma StripOnePrefix(s: string, p: string)
    requires |p| > 0
    ensures TrimStartMatches(p + s, p) == TrimStartMatches(s, p)
  {
    assert StartsWith(p + s, p);
    assert (p + s)[|p|..] == s;
  }

  /**
   * Every leading "Bearer " is stripped, so "Bearer Bearer " followed by a
   * token carries that token (for example "Bearer Bearer x" carries "x").
   */
  lemma RepeatedBearerPrefix(t: string)
    requires !StartsWith(t, BearerPrefix)
    ensures TrimStartMatches(BearerPrefix + BearerPrefix + t, BearerPrefix) == t
  {
    StripOnePrefix(BearerPrefix + t, BearerPrefix);
    StripOnePrefix(t, BearerPrefix);
    assert BearerPrefix + BearerPrefix + t == BearerPrefix + (BearerPrefix + t);
  }

  /**
   * `get_claims_from_headers`: the cookie parts are scanned in order and the
   * first `session_token=` part returns at once.
   */
  method GetClaimsFromHeaders(authorization: Option<string>, cookie: Option<string>,
                              secret: Option<string>, decode: Decoder) returns (r: Result<Claims, HttpError>)
    ensures r == ClaimsFromHeaders(authorization, cookie, secret, decode)
  {
    if authorization.Some? {
      if !VisibleAscii(authorization.value) {
        return Err(HttpError(401, "Invalid Authorization header"));
      }
      if StartsWith(authorization.value, BearerPrefix) {
        var token := TrimStartMatches(authorization.value, BearerPrefix);
        return AsUnauthorized(VerifyToken(secret, decode, token), "Invalid or expired token");
      }
    }
    if cookie.Some? {
      if !VisibleAscii(cookie.value) {
        return Err(HttpError(401, "Invalid cookie"));
      }
      var parts := Split(cookie.value, ';');
      var i := 0;
      while i < |parts|
        invariant 0 <= i <= |parts|
        invariant forall j :: 0 <= j < i ==> !SessionPart(parts[j])
      {
        var part := Trim(parts[i]);
        if StartsWith(part, SessionPrefix) {
          FirstSessionValueAt(parts, i);
          return AsUnauthorized(VerifyToken(secret, decode, part[|SessionPrefix|..]), "Invalid or expired session");
        }
        i := i + 1;
      }
    }
    return Err(HttpError(401, "Missing authentication"));
  }

  // ---------------------------------------------------------------------
  // Set-Cookie construction (RFC 6265 section 4.1)

  /** Max-Age in seconds: 30 days when remembered, otherwise 7 days. */
  function SessionLifetime(rememberMe: bool): (seconds: nat)
    ensures seconds == if rememberMe then 2592000 else 604800
  {
    if rememberMe then 30 * 24 * 60 * 60 else 7 * 24 * 60 * 60
  }

  function SecurePart(isProduction: bool): string {
    if isProduction then "; Secure" else ""
  }

  function DomainPart(domain: string): string {
    if domain == "" then "" else "; Domain=" + domain
  }

  /** `build_cookie`, the same format string as the handler writes. */
  function BuildCookie(token: string, rememberMe: bool, isProduction: bool, domain: string): string {
    "session_token=" + token + "; HttpOnly" + SecurePart(isProduction)
      + "; SameSite=Lax; Path=/; Max-Age=" + NatToString(SessionLifetime(rememberMe))
      + DomainPart(domain)
  }

  /** The name/value pair of a cookie string: the text before the first ';'. */
  function CookiePair(c: string): string {
    Split(c, ';')[0]
  }

  /** The attributes after the pair, each with its surrounding whitespace removed. */
  function CookieAttributes(c: string): seq<string> {
    TrimAll(Split(c, ';')[1..])
  }

  /** The attributes `build_cookie` is meant to emit, in order. */
  function ExpectedAttributes(rememberMe: bool, isProduction: bool, domain: string): seq<string> {
    ["HttpOnly"] + (if isProduction then ["Secure"] else [])
      + ["SameSite=Lax", "Path=/", "Max-Age=" + NatToString(SessionLifetime(rememberMe))]
      + (if domain == "" then [] else ["Domain=" + domain])
  }

  /** An attribute as written: non-empty, no ';', no outer whitespace. */
  predicate AttributeWord(w: string) {
    |w| > 0 && ';' !in w && !IsSpace(w[0]) && !IsSpace(w[|w| - 1])
  }

  predicate AttributeWords(ws: seq<string>)
    decreases |ws|
  {
    |ws| == 0 || (AttributeWord(ws[0]) && AttributeWords(ws[1..]))
  }

  /** Attributes rendered the way `build_cookie` separates them: "; " before each. */
  function AttributeText(ws: seq<string>): string
    decreases |ws|
  {
    if |ws| == 0 then "" else "; " + ws[0] + AttributeText(ws[1..])
  }

  /** Each attribute with one leading space, as they lie between the ';'s. */
  function SpaceEach(ws: seq<string>): seq<string>
    decreases |ws|
  {
    if |ws| == 0 then [] else [" " + ws[0]] + SpaceEach(ws[1..])
  }

  lemma {:induction false} AttributeWordsAppend(a: seq<string>, b: seq<string>)
    requires AttributeWords(a) && AttributeWords(b)
    ensures AttributeWords(a + b)
    decreases |a|
  {
    if |a| > 0 {
      AttributeWordsAppend(a[1..], b);
      assert (a + b)[0] == a[0] && (a + b)[1..] == a[1..] + b;
    } else {
      assert a + b == b;
    }
  }

  lemma {:induction false} AttributeTextAppend(a: seq<string>, b: seq<string>)
    ensures AttributeText(a + b) == AttributeText(a) + AttributeText(b)
    decreases |a|
  {
    if |a| > 0 {
      AttributeTextAppend(a[1..], b);
      assert (a + b)[0] == a[0] && (a + b)[1..] == a[1..] + b;
    } else {
      assert a + b == b;
    }
  }

  /** Splitting a pair followed by rendered attributes recovers the spaced attributes. */
  lemma {:induction false} SplitAttributeText(pair: string, ws: seq<string>)
    requires ';' !in pair && AttributeWords(ws)
    ensures Split(pair + AttributeText(ws), ';') == [pair] + SpaceEach(ws)
    decreases |ws|
  {
    if |ws| == 0 {
      assert pair + AttributeText(ws) == pair;
    } else {
      var next := " " + ws[0];
      var rest := AttributeText(ws[1..]);
      assert ';' !in next;
      SplitAttributeText(next, ws[1..]);
      assert pair + AttributeText(ws) == pair + [';'] + (next + rest);
      SplitCons(pair, ';', next + rest);
    }
  }

  /** Trimming the spaced attributes gives the attributes back. */
  lemma {:induction false} TrimSpaceEach(ws: seq<string>)
    requires AttributeWords(ws)
    ensures TrimAll(SpaceEach(ws)) == ws
    decreases |ws|
  {
    if |ws| > 0 {
      TrimSpaceEach(ws[1..]);
      TrimSpaced(ws[0]);
    }
  }

  lemma Regroup(a: string, b: string, c: string, d: string, e: string, f: string)
    ensures a + b + c + d + e + f == a + ((b + c) + ((d + e) + f))
  {
  }

  lemma FlagText(isProduction: bool)
    ensures AttributeText(["HttpOnly"] + (if isProduction then ["Secure"] else []))
         == "; HttpOnly" + SecurePart(isProduction)
  {
    if isProduction {
      assert ["HttpOnly"] + ["Secure"] == ["HttpOnly", "Secure"];
      assert AttributeText(["Secure"]) == "; Secure";
    } else {
      assert ["HttpOnly"] + [] == ["HttpOnly"];
    }
  }

  lemma ScopeText(digits: string)
    ensures AttributeText(["SameSite=Lax", "Path=/", "Max-Age=" + digits])
         == "; SameSite=Lax; Path=/; Max-Age=" + digits
  {
    var age := "Max-Age=" + digits;
    var ws := ["SameSite=Lax", "Path=/", age];
    assert ws[1..] == ["Path=/", age];
    PairText("Path=/", age);
    assert "; SameSite=Lax; Path=/; Max-Age=" + digits == "; " + "SameSite=Lax" + ("; " + "Path=/" + "; " + age);
  }

  lemma PairText(a: string, b: string)
    ensures AttributeText([a, b]) == "; " + a + "; " + b
  {
    assert [a, b][1..] == [b] && [b][1..] == [];
    assert AttributeText([b]) == "; " + b;
  }

  lemma DomainText(domain: string)
    ensures AttributeText(if domain == "" then [] else ["Domain=" + domain]) == DomainPart(domain)
  {
  }

  lemma NoSemicolonInDigits(n: nat)
    ensures ';' !in NatToString(n)
  {
  }

  /** The built cookie is the pair followed by the expected attributes. */
  lemma CookieIsAttributeText(token: string, rememberMe: bool, isProduction: bool, domain: string)
    ensures BuildCookie(token, rememberMe, isProduction, domain)
         == "session_token=" + token + AttributeText(ExpectedAttributes(rememberMe, isProduction, domain))
  {
    var digits := NatToString(SessionLifetime(rememberMe));
    var flags := ["HttpOnly"] + (if isProduction then ["Secure"] else []);
    var scope := ["SameSite=Lax", "Path=/", "Max-Age=" + digits];
    var dom: seq<string> := if domain == "" then [] else ["Domain=" + domain];
    AttributeTextAppend(flags + scope, dom);
    AttributeTextAppend(flags, scope);
    FlagText(isProduction);
    ScopeText(digits);
    DomainText(domain);
    Regroup("session_token=" + token, "; HttpOnly", SecurePart(isProduction),
      "; SameSite=Lax; Path=/; Max-Age=", digits, DomainPart(domain));
  }

  lemma ExpectedAreWords(rememberMe: bool, isProduction: bool, domain: string)
    requires ';' !in domain
    requires domain != "" ==> !IsSpace(domain[|domain| - 1])
    ensures AttributeWords(ExpectedAttributes(rememberMe, isProduction, domain))
  {
    var digits := NatToString(SessionLifetime(rememberMe));
    NoSemicolonInDigits(SessionLifetime(rememberMe));
    var flags := ["HttpOnly"] + (if isProduction then ["Secure"] else []);
    var age := "Max-Age=" + digits;
    assert age[|age| - 1] == digits[|digits| - 1];
    var scope := ["SameSite=Lax", "Path=/", age];
    var dom: seq<string> := if domain == "" then [] else ["Domain=" + domain];
    if isProduction {
      assert AttributeWords(flags[1..]);
    }
    assert AttributeWords(scope[1..][1..]);
    if domain != "" {
      var w := "Domain=" + domain;
      assert w[|w| - 1] == domain[|domain| - 1];
      assert AttributeWords(dom);
    }
    AttributeWordsAppend(flags, scope);
    AttributeWordsAppend(flags + scope, dom);
  }

  /**
   * Parsed back by the attribute grammar, the built cookie carries the token
   * as its value, "Secure" exactly in production, the Max-Age of the chosen
   * lifetime and a Domain attribute exactly when a domain is configured.
   */
  lemma BuildCookieAttributes(token: string, rememberMe: bool, isProduction: bool, domain: string)
    requires ';' !in token && ';' !in domain
    requires domain != "" ==> !IsSpace(domain[|domain| - 1])
    ensures CookiePair(BuildCookie(token, rememberMe, isProduction, domain)) == "session_token=" + token
    ensures CookieAttributes(BuildCookie(token, rememberMe, isProduction, domain))
         == ExpectedAttributes(rememberMe, isProduction, domain)
  {
    var pair := "session_token=" + token;
    var ws := ExpectedAttributes(rememberMe, isProduction, domain);
    CookieIsAttributeText(token, rememberMe, isProduction, domain);
    ExpectedAreWords(rememberMe, isProduction, domain);
    SplitAttributeText(pair, ws);
    TrimSpaceEach(ws);
    assert ([pair] + SpaceEach(ws))[1..] == SpaceEach(ws);
  }

  /** "Secure" is among the attributes exactly in production. */
  lemma SecureIffProduction(token: string, rememberMe: bool, isProduction: bool, domain: string)
    requires ';' !in token && ';' !in domain
    requires domain != "" ==> !IsSpace(domain[|domain| - 1])
    ensures "Secure" in CookieAttributes(BuildCookie(token, rememberMe, isProduction, domain)) <==> isProduction
  {
    BuildCookieAttributes(token, rememberMe, isProduction, domain);
  }

  /** The cookie cleared on logout. */
  const ClearCookie := "session_token=; HttpOnly; SameSite=Lax; Path=/; Max-Age=0"

  // ---------------------------------------------------------------------
  // Login decision sequence

  datatype LoginInput = LoginInput(email: Option<string>, studentId: Option<string>,
                                   password: string, rememberMe: Option<bool>)

  datatype LookupKey = ByEmail(email: string) | ByStudentId(studentId: string)

  /** Outcome of Argon2 on (stored hash, candidate password). */
  datatype HashCheck = Verified | Mismatch | Unparseable

  type PasswordVerifier = (string, string) -> HashCheck

  /** `encode` of the claims with a secret; it may fail with a message. */
  type Signer = (Claims, string) -> Result<string, string>

  /** The process environment the handlers read. */
  datatype Env = Env(jwtSecret: Option<string>, nodeEnv: Option<string>, cookieDomain: Option<string>)

  datatype Session = Session(id: string, userId: string, expiresAt: int, isActive: bool)

  datatype LoginSuccess = LoginSuccess(token: string, cookie: string, claims: Claims, session: Session)

  /** The email is used whenever present; the student id only otherwise. */
  function LookupKeyOf(input: LoginInput): (k: Option<LookupKey>)
    ensures input.email.Some? ==> k == Some(ByEmail(input.email.value))
    ensures input.email.None? && input.studentId.Some? ==> k == Some(ByStudentId(input.studentId.value))
    ensures k.None? <==> input.email.None? && input.studentId.None?
  {
    if input.email.Some? then Some(ByEmail(input.email.value))
    else if input.studentId.Some? then Some(ByStudentId(input.studentId.value))
    else None
  }

  predicate KeyMatches(u: User, key: LookupKey) {
    match key
    case ByEmail(e) => u.email == e
    case ByStudentId(s) => u.studentId == s
  }

  /** The row a single-row SELECT returns: the first match. */
  function FindUser(users: seq<User>, key: LookupKey): (r: Option<User>)
    ensures r.None? <==> forall k :: 0 <= k < |users| ==> !KeyMatches(users[k], key)
    ensures r.Some? ==> r.value in users && KeyMatches(r.value, key)
  {
    if |users| == 0 then None
    else if KeyMatches(users[0], key) then Some(users[0])
    else FindUser(users[1..], key)
  }

  const InvalidCredentials := HttpError(401, "Invalid credentials")

  /**
   * The checks of `login_handler` before anything is written: a lookup key,
   * a known user, an active account, a readable hash, a matching password.
   */
  function Authenticate(users: seq<User>, input: LoginInput, verify: PasswordVerifier): (r: Result<User, HttpError>)
    ensures LookupKeyOf(input).None? ==> r == Err(HttpError(400, "Email or Student ID required"))
    ensures r.Ok? ==> (r.value in users && KeyMatches(r.value, LookupKeyOf(input).value)
      && r.value.status == Active && verify(r.value.passwordHash, input.password) == Verified)
    ensures r == Err(InvalidCredentials) <==>
      LookupKeyOf(input).Some? &&
      match FindUser(users, LookupKeyOf(input).value)
      case None => true
      case Some(u) => u.status == Active && verify(u.passwordHash, input.password) == Mismatch
    ensures r == Err(HttpError(403, "Account is not active")) <==>
      LookupKeyOf(input).Some? && FindUser(users, LookupKeyOf(input).value).Some?
      && FindUser(users, LookupKeyOf(input).value).value.status != Active
    ensures LookupKeyOf(input).Some? ==>
      match FindUser(users, LookupKeyOf(input).value)
      case None => true
      case Some(u) =>
        u.status == Active ==>
          && (verify(u.passwordHash, input.password) == Verified ==> r == Ok(u))
          && (verify(u.passwordHash, input.password) == Unparseable ==> r == Err(HttpError(500, "Invalid password hash stored")))
  {
    match LookupKeyOf(input)
    case None => Err(HttpError(400, "Email or Student ID required"))
    case Some(key) =>
      match FindUser(users, key)
      case None => Err(InvalidCredentials)
      case Some(u) =>
        if u.status != Active then Err(HttpError(403, "Account is not active"))
        else match verify(u.passwordHash, input.password)
          case Unparseable => Err(HttpError(500, "Invalid password hash stored"))
          case Mismatch => Err(InvalidCredentials)
          case Verified => Ok(u)
  }

  /** An inactive account is refused whatever the password verifier would say. */
  lemma InactiveBeforePassword(users: seq<User>, input: LoginInput, v1: PasswordVerifier, v2: PasswordVerifier)
    requires LookupKeyOf(input).Some? && FindUser(users, LookupKeyOf(input).value).Some?
    requires FindUser(users, LookupKeyOf(input).value).value.status != Active
    ensures Authenticate(users, input, v1) == Authenticate(users, input, v2) == Err(HttpError(403, "Account is not active"))
  {
  }

  /** With an email present the student id plays no part. */
  lemma EmailTakesPrecedence(users: seq<User>, input: LoginInput, otherStudentId: Option<string>, verify: PasswordVerifier)
    requires input.email.Some?
    ensures Authenticate(users, input, verify) == Authenticate(users, input.(studentId := otherStudentId), verify)
  {
  }

  /** The enabled admin role of a user, as `... AND is_enabled = TRUE` finds it. */
  function EnabledRole(roles: seq<AdminRole>, userId: string): (r: Option<AdminRole>)
    ensures r.None? <==> forall k :: 0 <= k < |roles| ==> !(roles[k].userId == userId && roles[k].isEnabled)
    ensures r.Some? ==> r.value in roles && r.value.userId == userId && r.value.isEnabled
  {
    if |roles| == 0 then None
    else if roles[0].userId == userId && roles[0].isEnabled then Some(roles[0])
    else EnabledRole(roles[1..], userId)
  }

  function RememberMe(input: LoginInput): bool {
    input.rememberMe.Some? && input.rememberMe.value
  }

  /** The session row written for an accepted login. */
  function NewSession(u: User, input: LoginInput, now: nat, sessionId: string): (s: Session)
    ensures s.id == sessionId && s.userId == u.id && s.isActive
    ensures s.expiresAt == now + (if RememberMe(input) then 30 else 7) * 86400
  {
    Session(sessionId, u.id, now + SessionLifetime(RememberMe(input)), true)
  }

  function SessionClaims(u: User, roles: seq<AdminRole>, input: LoginInput, now: nat, sessionId: string): Claims {
    var role := EnabledRole(roles, u.id);
    Claims(u.id, sessionId, now + SessionLifetime(RememberMe(input)), now, u.studentId, u.email,
           u.firstName, u.lastName, u.departmentId, role.Some?,
           if role.Some? then Some(role.value.level) else None,
           if role.Some? then role.value.organizationId else None)
  }

  /**
   * The rest of `login_handler` once the checks pass: the secret, the
   * claims, the token and the cookie. The session row and the token share
   * one session id and one expiry.
   */
  function IssueSession(u: User, roles: seq<AdminRole>, input: LoginInput, now: nat, sessionId: string,
                        env: Env, sign: Signer): (r: Result<LoginSuccess, HttpError>)
    ensures env.jwtSecret.None? ==> r == Err(HttpError(500, "JWT_SECRET not set"))
    ensures r.Ok? ==>
      r.value.session == NewSession(u, input, now, sessionId)
      && r.value.claims.sessionId == r.value.session.id
      && r.value.claims.exp == r.value.session.expiresAt
      && r.value.claims.iat == now
      && r.value.claims.sub == u.id
      && (r.value.claims.isAdmin <==> exists k :: 0 <= k < |roles| && roles[k].userId == u.id && roles[k].isEnabled)
      && sign(r.value.claims, env.jwtSecret.value) == Ok(r.value.token)
      && r.value.cookie == BuildCookie(r.value.token, RememberMe(input),
                                       env.nodeEnv == Some("production"),
                                       if env.cookieDomain.Some? then env.cookieDomain.value else "")
    ensures env.jwtSecret.Some? ==> (r.Ok? <==> sign(SessionClaims(u, roles, input, now, sessionId), env.jwtSecret.value).Ok?)
  {
    match env.jwtSecret
    case None => Err(HttpError(500, "JWT_SECRET not set"))
    case Some(secret) =>
      var claims := SessionClaims(u, roles, input, now, sessionId);
      match sign(claims, secret)
      case Err(e) => Err(HttpError(500, "Token creation failed: " + e))
      case Ok(token) =>
        var domain := if env.cookieDomain.Some? then env.cookieDomain.value else "";
        Ok(LoginSuccess(token, BuildCookie(token, RememberMe(input), env.nodeEnv == Some("production"), domain),
                        claims, NewSession(u, input, now, sessionId)))
  }

  function Login(users: seq<User>, roles: seq<AdminRole>, input: LoginInput, now: nat, sessionId: string,
                 env: Env, verify: PasswordVerifier, sign: Signer): Result<LoginSuccess, HttpError>
  {
    match Authenticate(users, input, verify)
    case Err(e) => Err(e)
    case Ok(u) => IssueSession(u, roles, input, now, sessionId, env, sign)
  }

  /** `login_count` is incremented on the rows with the given id. */
  function BumpLoginCount(users: seq<User>, id: string): (r: seq<User>)
    ensures |r| == |users|
    ensures forall k :: 0 <= k < |users| ==>
      r[k] == if users[k].id == id then users[k].(loginCount := users[k].loginCount + 1) else users[k]
  {
    seq(|users|, k requires 0 <= k < |users| =>
      if users[k].id == id then users[k].(loginCount := users[k].loginCount + 1) else users[k])
  }

  /** `is_active = FALSE` for the session with the given id, if there is one. */
  function Deactivate(sessions: map<string, Session>, id: string): (r: map<string, Session>)
    ensures r.Keys == sessions.Keys
    ensures forall k :: k in sessions ==> r[k] == if k == id then sessions[k].(isActive := false) else sessions[k]
  {
    if id in sessions then sessions[id := sessions[id].(isActive := false)] else sessions
  }

  /** Deactivating a session twice is the same as doing it once. */
  lemma DeactivateIdempotent(sessions: map<string, Session>, id: string)
    ensures Deactivate(Deactivate(sessions, id), id) == Deactivate(sessions, id)
  {
  }

  /** `is_active = FALSE` for every session of a user. */
  function DeactivateUser(sessions: map<string, Session>, userId: string): (r: map<string, Session>)
    ensures r.Keys == sessions.Keys
    ensures forall k :: k in sessions ==>
      r[k] == if sessions[k].userId == userId then sessions[k].(isActive := false) else sessions[k]
  {
    map k | k in sessions :: if sessions[k].userId == userId then sessions[k].(isActive := false) else sessions[k]
  }

  /** Replace the stored hash on the rows with the given id. */
  function SetPasswordHash(users: seq<User>, id: string, hash: string): (r: seq<User>)
    ensures |r| == |users|
    ensures forall k :: 0 <= k < |users| ==>
      r[k] == if users[k].id == id then users[k].(passwordHash := hash) else users[k]
  {
    seq(|users|, k requires 0 <= k < |users| =>
      if users[k].id == id then users[k].(passwordHash := hash) else users[k])
  }

  datatype ResetToken = ResetToken(userId: string, expiresAt: int)

  const ResetRequestedMessage := "If this email exists, a password reset link has been sent."

  /** Reset-token lifetime: 30 minutes. */
  const ResetTokenSeconds := 30 * 60

  // ---------------------------------------------------------------------
  // The store the handlers read and write

  class Database {
    var users: seq<User>
    var adminRoles: seq<AdminRole>
    var sessions: map<string, Session>
    var resetTokens: map<string, ResetToken>

    constructor (users0: seq<User>, roles0: seq<AdminRole>)
      ensures users == users0 && adminRoles == roles0 && sessions == map[] && resetTokens == map[]
    {
      users, adminRoles, sessions, resetTokens := users0, roles0, map[], map[];
    }

    /**
     * `login_handler`. After the credentials pass, the session row is
     * inserted and the login count bumped; these writes stay even when the
     * secret is missing or signing fails later.
     */
    method LoginHandler(input: LoginInput, now: nat, sessionId: string, env: Env,
                        verify: PasswordVerifier, sign: Signer) returns (r: Result<LoginSuccess, HttpError>)
      modifies this
      ensures r == Login(old(users), old(adminRoles), input, now, sessionId, env, verify, sign)
      ensures adminRoles == old(adminRoles) && resetTokens == old(resetTokens)
      ensures match Authenticate(old(users), input, verify)
        case Err(_) => users == old(users) && sessions == old(sessions)
        case Ok(u) => sessions == old(sessions)[sessionId := NewSession(u, input, now, sessionId)]
                      && users == BumpLoginCount(old(users), u.id)
    {
      var auth := Authenticate(users, input, verify);
      if auth.Err? {
        return Err(auth.error);
      }
      var u := auth.value;
      var roles := adminRoles;
      sessions := sessions[sessionId := NewSession(u, input, now, sessionId)];
      users := BumpLoginCount(users, u.id);
      r := IssueSession(u, roles, input, now, sessionId, env, sign);
    }

    /**
     * `logout_handler`: the session named by verified claims is deactivated;
     * the response is always 200 with the clearing cookie.
     */
    method LogoutHandler(authorization: Option<string>, cookie: Option<string>, env: Env, decode: Decoder)
      returns (status: int, setCookie: string)
      modifies this`sessions
      ensures status == 200 && setCookie == ClearCookie
      ensures var c := ClaimsFromHeaders(authorization, cookie, env.jwtSecret, decode);
        sessions == if c.Ok? then Deactivate(old(sessions), c.value.sessionId) else old(sessions)
    {
      var claims := GetClaimsFromHeaders(authorization, cookie, env.jwtSecret, decode);
      if claims.Ok? {
        sessions := Deactivate(sessions, claims.value.sessionId);
      }
      status, setCookie := 200, ClearCookie;
    }

    /**
     * `forgot_password_handler`: a reset token valid for 30 minutes is stored
     * for a known (lower-cased) email; the reply is the same either way. The
     * e-mail delivery is not modelled.
     */
    method ForgotPasswordHandler(email: string, now: int, token: string) returns (status: int, message: string)
      modifies this`resetTokens
      ensures status == 200 && message == ResetRequestedMessage
      ensures match FindUser(users, ByEmail(ToLower(email)))
        case None => resetTokens == old(resetTokens)
        case Some(u) => resetTokens == old(resetTokens)[token := ResetToken(u.id, now + ResetTokenSeconds)]
    {
      var found := FindUser(users, ByEmail(ToLower(email)));
      if found.Some? {
        resetTokens := resetTokens[token := ResetToken(found.value.id, now + ResetTokenSeconds)];
      }
      status, message := 200, ResetRequestedMessage;
    }

    /**
     * `reset_password_handler`: an unknown token is refused; an expired one
     * (strictly past its expiry) is deleted and refused; otherwise the hash
     * is replaced, the token deleted and every session of the user deactivated.
     */
    method ResetPasswordHandler(token: string, newHash: string, now: int) returns (r: Result<string, HttpError>)
      modifies this`users, this`resetTokens, this`sessions
      ensures token !in old(resetTokens) ==>
        r == Err(HttpError(400, "Invalid or expired token")) && users == old(users)
        && resetTokens == old(resetTokens) && sessions == old(sessions)
      ensures token in old(resetTokens) && now > old(resetTokens)[token].expiresAt ==>
        r == Err(HttpError(400, "Token has expired")) && users == old(users)
        && resetTokens == old(resetTokens) - {token} && sessions == old(sessions)
      ensures token in old(resetTokens) && now <= old(resetTokens)[token].expiresAt ==>
        var uid := old(resetTokens)[token].userId;
        r == Ok("Password successfully reset")
        && users == SetPasswordHash(old(users), uid, newHash)
        && resetTokens == old(resetTokens) - {token}
        && sessions == DeactivateUser(old(sessions), uid)
    {
      if token !in resetTokens {
        return Err(HttpError(400, "Invalid or expired token"));
      }
      var record := resetTokens[token];
      if now > record.expiresAt {
        resetTokens := resetTokens - {token};
        return Err(HttpError(400, "Token has expired"));
      }
      users := SetPasswordHash(users, record.userId, newHash);
      resetTokens := resetTokens - {token};
      sessions := DeactivateUser(sessions, record.userId);
      r := Ok("Password successfully reset");
    }
  }

  /** After a reset no session of that user is active any more. */
  lemma ResetRevokesAllSessions(sessions: map<string, Session>, userId: string)
    ensures var r := DeactivateUser(sessions, userId);
      forall k :: k in r && r[k].userId == userId ==> !r[k].isActive
  {
  }
}
