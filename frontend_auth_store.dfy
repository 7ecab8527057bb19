/**
 * The auth store of frontend/src/lib/stores/auth.ts. It keeps the same
 * `AuthState` as the other client store, but its API calls either return
 * or throw, its login error may be JSON to unpack, `validateSession`
 * decides by HTTP status, and the admin levels are spelled in snake case.
 */
module FrontendAuthStore {
  import opened Common
  import opened FrontendAuth
  import opened AuthViews

  /** A thrown error: whether it is an `ApiError` (with status and message) or something else. */
  datatype Thrown = ApiError(status: int, message: string) | OtherError

  datatype LoginOutcome = LoginSucceeded(user: SessionUser) | LoginThrew(thrown: Thrown)

  datatype RegisterOutcome = RegisterSucceeded | RegisterThrew(thrown: Thrown)

  datatype MeOutcome = MeSucceeded(user: SessionUser) | MeThrew(thrown: Thrown)

  /** What `JSON.parse` gives for an error text: the `error` and `message` members, or None where it throws. */
  datatype ParsedError = ParsedError(error: Option<string>, message: Option<string>)

  type JsonParser = string -> Option<ParsedError>

  datatype Reply = Reply(success: bool, user: Option<SessionUser>, error: Option<string>)

  /** `error instanceof ApiError ? (error.message || fallback) : fallback` */
  function ThrownMessage(thrown: Thrown, fallback: string): (m: string)
    ensures thrown.ApiError? && thrown.message != "" ==> m == thrown.message
    ensures thrown.OtherError? || thrown.message == "" ==> m == fallback
  {
    match thrown
    case ApiError(_, message) => if message != "" then message else fallback
    case OtherError => fallback
  }

  /** `parsed.error || parsed.message || errorMessage`, or the text itself when it is not JSON. */
  function FormatLoginError(parse: JsonParser, errorMessage: string): (m: string)
    ensures parse(errorMessage).None? ==> m == errorMessage
    ensures parse(errorMessage).Some? && Truthy(parse(errorMessage).value.error) ==> m == parse(errorMessage).value.error.value
    ensures parse(errorMessage).Some? && !Truthy(parse(errorMessage).value.error) ==>
      m == OrElse(parse(errorMessage).value.message, errorMessage)
  {
    match parse(errorMessage)
    case None => errorMessage
    case Some(parsed) =>
      if Truthy(parsed.error) then parsed.error.value
      else if Truthy(parsed.message) then parsed.message.value
      else errorMessage
  }

  /** The stored login error is never empty, as long as the fallback is not. */
  lemma LoginErrorNonEmpty(parse: JsonParser, thrown: Thrown)
    ensures FormatLoginError(parse, ThrownMessage(thrown, "Login failed")) != ""
  {
  }

  /** 401 and 403 mean "no session". */
  predicate NoSessionStatus(status: int) {
    status in [401, 403]
  }

  class AuthStore {
    var user: Option<SessionUser>
    var isLoading: bool
    var isAuthenticated: bool
    var error: Option<string>
    var isInitialized: bool
    var lastSessionCheck: int

    predicate Valid()
      reads this
    {
      isAuthenticated <==> user.Some?
    }

    constructor()
      ensures Valid()
      ensures user.None? && !isLoading && !isAuthenticated && error.None? && !isInitialized && lastSessionCheck == 0
    {
      user := None;
      isLoading := false;
      isAuthenticated := false;
      error := None;
      isInitialized := false;
      lastSessionCheck := 0;
    }

    /** `login`: every failure is stored and returned, after unpacking a JSON error text. */
    method Login(outcome: LoginOutcome, parse: JsonParser) returns (reply: Reply)
      modifies this
      ensures Valid()
      ensures !isLoading && isInitialized && lastSessionCheck == old(lastSessionCheck)
      ensures outcome.LoginSucceeded? ==>
        user == Some(outcome.user) && error.None? && reply == Reply(true, Some(outcome.user), None)
      ensures outcome.LoginThrew? ==>
        var m := FormatLoginError(parse, ThrownMessage(outcome.thrown, "Login failed"));
        user.None? && error == Some(m) && reply == Reply(false, None, Some(m))
    {
      isLoading := true;
      error := None;
      match outcome
      case LoginSucceeded(u) =>
        user := Some(u);
        isLoading := false;
        isAuthenticated := true;
        error := None;
        isInitialized := true;
        reply := Reply(true, Some(u), None);
      case LoginThrew(thrown) =>
        var errorMessage := ThrownMessage(thrown, "Login failed");
        var formatted := FormatLoginError(parse, errorMessage);
        user := None;
        isLoading := false;
        isAuthenticated := false;
        error := Some(formatted);
        isInitialized := true;
        reply := Reply(false, None, Some(formatted));
    }

    /** `register`: never logs in. */
    method Register(outcome: RegisterOutcome) returns (reply: Reply)
      requires Valid()
      modifies this
      ensures Valid()
      ensures user == old(user) && isAuthenticated == old(isAuthenticated) && isInitialized == old(isInitialized)
      ensures !isLoading && lastSessionCheck == old(lastSessionCheck)
      ensures outcome.RegisterSucceeded? ==> error.None? && reply == Reply(true, None, None)
      ensures outcome.RegisterThrew? ==>
        var m := ThrownMessage(outcome.thrown, "Registration failed");
        error == Some(m) && reply == Reply(false, None, Some(m))
    {
      isLoading := true;
      error := None;
      match outcome
      case RegisterSucceeded =>
        isLoading := false;
        error := None;
        reply := Reply(true, None, None);
      case RegisterThrew(thrown) =>
        var m := ThrownMessage(thrown, "Registration failed");
        isLoading := false;
        error := Some(m);
        reply := Reply(false, None, Some(m));
    }

    /** `logout`, whose default destination is '/'. */
    method Logout(redirectTo: Option<string>) returns (target: string)
      modifies this
      ensures Valid()
      ensures user.None? && !isLoading && !isAuthenticated && error.None? && isInitialized && lastSessionCheck == 0
      ensures target == (if redirectTo.Some? then redirectTo.value else "/")
    {
      isLoading := true;
      user := None;
      isLoading := false;
      isAuthenticated := false;
      error := None;
      isInitialized := true;
      lastSessionCheck := 0;
      target := if redirectTo.Some? then redirectTo.value else "/";
    }

    /** `validateSession`, one call at time `nowMs`. */
    method ValidateSession(nowMs: int, outcome: MeOutcome) returns (result: Option<SessionUser>)
      requires Valid()
      modifies this
      ensures Valid()
      ensures lastSessionCheck == nowMs && isLoading == old(isLoading)
      ensures outcome.MeSucceeded? ==>
        user == Some(outcome.user) && isAuthenticated && error.None? && isInitialized && result == Some(outcome.user)
      ensures outcome.MeThrew? ==> result.None?
      ensures outcome.MeThrew? && outcome.thrown.ApiError? && NoSessionStatus(outcome.thrown.status) ==>
        user.None? && !isAuthenticated && error.None? && isInitialized
      ensures outcome.MeThrew? && outcome.thrown.ApiError? && !NoSessionStatus(outcome.thrown.status) ==>
        && user == old(user) && isAuthenticated == old(isAuthenticated)
        && error == Some(outcome.thrown.message) && isInitialized
      ensures outcome.MeThrew? && outcome.thrown.OtherError? ==>
        && user == old(user) && isAuthenticated == old(isAuthenticated) && error == old(error)
        && isInitialized == old(isInitialized)
    {
      lastSessionCheck := nowMs;
      result := None;
      match outcome
      case MeSucceeded(u) =>
        user := Some(u);
        isAuthenticated := true;
        error := None;
        isInitialized := true;
        result := Some(u);
      case MeThrew(ApiError(status, message)) =>
        if status == 401 || status == 403 {
          user := None;
          isAuthenticated := false;
          error := None;
          isInitialized := true;
        } else {
          error := Some(message);
          isInitialized := true;
        }
      case MeThrew(OtherError) =>
    }

    /** `setUser` */
    method SetUser(u: Option<SessionUser>)
      modifies this
      ensures Valid()
      ensures user == u && isAuthenticated == u.Some? && isInitialized
      ensures error == old(error) && isLoading == old(isLoading) && lastSessionCheck == old(lastSessionCheck)
    {
      user := u;
      isAuthenticated := u.Some?;
      isInitialized := true;
    }

    /** `setError` */
    method SetError(e: Option<string>)
      modifies this
      ensures error == e
      ensures user == old(user) && isAuthenticated == old(isAuthenticated) && isLoading == old(isLoading)
      ensures isInitialized == old(isInitialized) && lastSessionCheck == old(lastSessionCheck)
    {
      error := e;
    }

    /** `clearError` */
    method ClearError()
      modifies this
      ensures error.None?
      ensures user == old(user) && isAuthenticated == old(isAuthenticated) && isLoading == old(isLoading)
      ensures isInitialized == old(isInitialized) && lastSessionCheck == old(lastSessionCheck)
    {
      error := None;
    }

    /** `setLoading` */
    method SetLoading(loading: bool)
      modifies this
      ensures isLoading == loading
      ensures user == old(user) && isAuthenticated == old(isAuthenticated) && error == old(error)
      ensures isInitialized == old(isInitialized) && lastSessionCheck == old(lastSessionCheck)
    {
      isLoading := loading;
    }

    /** `setInitialized` */
    method SetInitialized(initialized: bool)
      modifies this
      ensures isInitialized == initialized
      ensures user == old(user) && isAuthenticated == old(isAuthenticated) && error == old(error)
      ensures isLoading == old(isLoading) && lastSessionCheck == old(lastSessionCheck)
    {
      isInitialized := initialized;
    }
  }

  /** The `facultyId` store, read from the organization fields. */
  function OrganizationId(user: Option<SessionUser>): (id: Option<string>)
    ensures user.None? ==> id.None?
    ensures user.Some? && Truthy(user.value.organizationId) ==> id == user.value.organizationId
    ensures user.Some? && !Truthy(user.value.organizationId) ==>
      id == (if user.value.adminRole.Some? then user.value.adminRole.value.organizationId else None)
  {
    match user
    case None => None
    case Some(u) =>
      if Truthy(u.organizationId) then u.organizationId
      else if u.adminRole.Some? then u.adminRole.value.organizationId
      else None
  }

  /** The snake-case order: organization_admin sits between regular_admin and super_admin. */
  lemma SnakeOrder()
    ensures MeetsByIndex(Levels(SnakeLevels), "super_admin", "organization_admin")
    ensures MeetsByIndex(Levels(SnakeLevels), "organization_admin", "regular_admin")
    ensures !MeetsByIndex(Levels(SnakeLevels), "regular_admin", "organization_admin")
    ensures !MeetsByIndex(Levels(SnakeLevels), "FacultyAdmin", "regular_admin")
  {
    var levels := Levels(SnakeLevels);
    assert levels[..1] == ["regular_admin"];
    assert levels[..2] == ["regular_admin", "organization_admin"];
    MissingLevels(levels, "FacultyAdmin", "regular_admin");
  }
}
