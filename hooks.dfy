/**
 * The server hook of the SvelteKit frontend (src/hooks.server.ts): route
 * classification by path prefix, the session-cookie check that fills
 * `locals.user`, and the redirect decisions for protected paths.
 */
module Hooks {
  import opened Common
  import opened FrontendAuth
  import NavRoutes

  const PublicEntries: seq<string> := [
    "/api", "/_app", "/build", "/static", "/assets",
    "/favicon", "/manifest", "/robots.txt", "/service-worker.js",
    "/", "/login", "/register", "/unauthorized", "/offline"]

  const StudentEntries: seq<string> := ["/student", "/dashboard", "/profile", "/activities", "/qr", "/history"]

  /** The path is the entry itself or lies below it (`p === r || p.startsWith(r + '/')`). */
  predicate AtOrBelow(path: string, entry: string) {
    path == entry || StartsWith(path, entry + "/")
  }

  /** One entry of `PUBLIC`: '/' only as an exact match. */
  predicate PublicEntryMatches(path: string, entry: string) {
    if entry == "/" then path == "/"
    else path == entry || StartsWith(path, entry + (if EndsWith(entry, "/") then "" else "/"))
  }

  function MatchesAnyPublic(path: string, entries: seq<string>): (b: bool)
    ensures b <==> exists k :: 0 <= k < |entries| && PublicEntryMatches(path, entries[k])
  {
    if |entries| == 0 then false
    else PublicEntryMatches(path, entries[0]) || MatchesAnyPublic(path, entries[1..])
  }

  function AtOrBelowAny(path: string, entries: seq<string>): (b: bool)
    ensures b <==> exists k :: 0 <= k < |entries| && AtOrBelow(path, entries[k])
  {
    if |entries| == 0 then false
    else AtOrBelow(path, entries[0]) || AtOrBelowAny(path, entries[1..])
  }

  /** `isPublicRoute` (hook version) */
  predicate IsPublicRoute(path: string) {
    MatchesAnyPublic(path, PublicEntries)
  }

  /** `isStudentProtected` */
  predicate IsStudentProtected(path: string) {
    AtOrBelowAny(path, StudentEntries)
  }

  /** `isAdminProtected`: '/admin' and below, except '/admin/login' and below. */
  predicate IsAdminProtected(path: string) {
    !AtOrBelow(path, "/admin/login") && AtOrBelow(path, "/admin")
  }

  lemma DiffersAt(s: string, p: string, i: nat)
    requires i < |s| && i < |p| && s[i] != p[i]
    ensures !StartsWith(s, p)
  {
    if |p| <= |s| {
      assert s[..|p|][i] == s[i];
    }
  }

  /** Entries end in a slash-separated boundary: '/api/x' is public, '/apix' and '/x' are not. */
  lemma PublicExamples()
    ensures IsPublicRoute("/") && IsPublicRoute("/api") && IsPublicRoute("/api/x")
    ensures !IsPublicRoute("/apix") && !IsPublicRoute("/x")
  {
    assert PublicEntries[0] == "/api" && PublicEntries[9] == "/";
    assert PublicEntryMatches("/", PublicEntries[9]);
    assert PublicEntryMatches("/api", PublicEntries[0]);
    assert PublicEntryMatches("/api/x", PublicEntries[0]) by {
      assert "/api/x"[..5] == "/api/";
    }
    ApixNotPublic();
    ShortPathsArePrivate("/x");
  }

  /** An entry at least as long as the path, and not the path itself, does not match it. */
  lemma LongEntryMisses(path: string, e: string)
    requires e != "/" && e != path && |e| >= |path|
    ensures !PublicEntryMatches(path, e)
  {
  }

  lemma ApixNotPublic()
    ensures !IsPublicRoute("/apix")
  {
    forall k | 0 <= k < |PublicEntries|
      ensures !PublicEntryMatches("/apix", PublicEntries[k])
    {
      var e := PublicEntries[k];
      if e == "/api" {
        DiffersAt("/apix", "/api/", 4);
      } else if e != "/" {
        LongEntryMisses("/apix", e);
      }
    }
  }

  /** Every entry but '/' has at least four characters, so shorter paths other than '/' are not public. */
  lemma ShortPathsArePrivate(path: string)
    requires path != "/" && path != "/api" && |path| <= 4
    ensures !IsPublicRoute(path)
  {
    forall k | 0 <= k < |PublicEntries|
      ensures !PublicEntryMatches(path, PublicEntries[k])
    {
      if PublicEntries[k] != "/" {
        LongEntryMisses(path, PublicEntries[k]);
      }
    }
  }

  /**
   * The hook and the client route table disagree on '/apix': the table's
   * plain prefix test calls it public, the hook's boundary test does not.
   */
  lemma PublicRulesDisagree()
    ensures NavRoutes.IsPublicRoute("/apix") && !IsPublicRoute("/apix")
  {
    NavRoutes.PublicRouteExamples();
    PublicExamples();
  }

  /** Admin protection covers '/admin' and its sub-paths, but not the admin login pages. */
  lemma AdminExamples()
    ensures IsAdminProtected("/admin") && IsAdminProtected("/admin/users")
    ensures !IsAdminProtected("/admin/login") && !IsAdminProtected("/admin/login/reset")
    ensures !IsAdminProtected("/administrator")
  {
    assert "/admin/users"[..7] == "/admin/";
    DiffersAt("/admin/users", "/admin/login/", 7);
    assert "/admin/login/reset"[..13] == "/admin/login/";
    DiffersAt("/administrator", "/admin/", 6);
  }

  /** Every admin-protected path starts with '/admin'. */
  lemma AdminProtectedIsUnderAdmin(path: string)
    requires IsAdminProtected(path)
    ensures StartsWith(path, "/admin")
  {
    if path != "/admin" {
      assert path[..6] == (path[..7])[..6];
    }
  }

  /** No path is both student-protected and admin-protected. */
  lemma ProtectionsDisjoint(path: string)
    requires IsAdminProtected(path)
    ensures !IsStudentProtected(path)
  {
    AdminProtectedIsUnderAdmin(path);
    forall k | 0 <= k < |StudentEntries|
      ensures !AtOrBelow(path, StudentEntries[k])
    {
      var e := StudentEntries[k];
      var i := if e == "/activities" then 2 else 1;
      assert path[i] == "/admin"[i] by {
        assert path[..6][i] == path[i];
      }
      DiffersAt(path, e + "/", i);
      assert path != e by {
        assert e[i] != "/admin"[i];
      }
    }
  }

  /** `createRedirectUrl`, with `encodeURIComponent` as a parameter. */
  function CreateRedirectUrl(loginPath: string, returnPath: string, search: string, encode: string -> string): (url: string)
    ensures StartsWith(url, loginPath + "?redirectTo=")
    ensures url[|loginPath + "?redirectTo="|..] == encode(returnPath + search)
  {
    var prefix := loginPath + "?redirectTo=";
    var url := prefix + encode(returnPath + search);
    assert url[..|prefix|] == prefix;
    url
  }

  // ---------------------------------------------------------------------
  // The guard of `handle`

  /** What `handle` does with the request once authentication is known. */
  datatype Response = Resolved(securityHeaders: bool) | Redirected(redirect: Redirect)

  function Guard(path: string, search: string, authenticated: bool, isAdmin: bool, encode: string -> string): (r: Response)
    ensures IsPublicRoute(path) ==> r == Resolved(false)
    ensures !IsPublicRoute(path) && (IsStudentProtected(path) || IsAdminProtected(path)) && !authenticated ==>
      r == Redirected(Redirect(303, CreateRedirectUrl(if IsAdminProtected(path) then "/admin/login" else "/login",
                                                     path, search, encode)))
    ensures !IsPublicRoute(path) && IsAdminProtected(path) && authenticated && !isAdmin ==>
      r == Redirected(Redirect(303, "/unauthorized"))
    ensures r.Resolved? && !IsPublicRoute(path) ==> r.securityHeaders
    ensures r.Resolved? ==>
      (IsPublicRoute(path) || !(IsStudentProtected(path) || IsAdminProtected(path))
       || (authenticated && (IsAdminProtected(path) ==> isAdmin)))
  {
    if IsPublicRoute(path) then Resolved(false)
    else if IsStudentProtected(path) || IsAdminProtected(path) then
      if !authenticated then
        Redirected(Redirect(303,
          if IsAdminProtected(path) then CreateRedirectUrl("/admin/login", path, search, encode)
          else CreateRedirectUrl("/login", path, search, encode)))
      else if IsAdminProtected(path) && !isAdmin then Redirected(Redirect(303, "/unauthorized"))
      else Resolved(true)
    else Resolved(true)
  }

  /** `locals.user` */
  datatype LocalUser = LocalUser(id: string, studentId: string, email: string, firstName: string, lastName: string,
                                 isAdmin: bool, adminLevel: Option<string>, facultyId: Option<string>)

  function LocalUserOf(decoded: JwtPayload): (u: LocalUser)
    ensures u.id == decoded.userId && u.adminLevel == decoded.adminLevel && u.facultyId == decoded.facultyId
    ensures u.isAdmin <==> decoded.isAdmin == Some(true)
  {
    LocalUser(decoded.userId, decoded.studentId, decoded.email, decoded.firstName, decoded.lastName,
      decoded.isAdmin == Some(true), decoded.adminLevel, decoded.facultyId)
  }

  /** A request as `handle` sees it; `handle` fills `user` and may delete the session cookie. */
  class RequestEvent {
    const pathname: string
    const search: string
    var sessionToken: Option<string>
    var user: Option<LocalUser>

    constructor(pathname: string, search: string, sessionToken: Option<string>)
      ensures this.pathname == pathname && this.search == search
      ensures this.sessionToken == sessionToken && user.None?
    {
      this.pathname := pathname;
      this.search := search;
      this.sessionToken := sessionToken;
      user := None;
    }

    /** `handle`, with the verifier, the secret, the clock and the encoder as parameters. */
    method Handle(verify: JwtVerifier, secretEnv: Option<string>, nowMs: int, encode: string -> string)
      returns (response: Response)
      modifies this
      ensures var decoded := if Truthy(old(sessionToken))
                             then ValidateJwtToken(verify, secretEnv, old(sessionToken).value, nowMs) else None;
        && user == (if decoded.Some? then Some(LocalUserOf(decoded.value)) else None)
        && sessionToken == (if Truthy(old(sessionToken)) && decoded.None? then None else old(sessionToken))
        && response == Guard(pathname, search, user.Some?, user.Some? && user.value.isAdmin, encode)
    {
      user := None;
      var authenticated := false;
      var isAdmin := false;
      if Truthy(sessionToken) {
        var decoded := ValidateJwtToken(verify, secretEnv, sessionToken.value, nowMs);
        if decoded.Some? {
          user := Some(LocalUserOf(decoded.value));
          authenticated := true;
          isAdmin := decoded.value.isAdmin == Some(true);
        } else {
          sessionToken := None;
        }
      }
      response := Guard(pathname, search, authenticated, isAdmin, encode);
    }
  }
}
