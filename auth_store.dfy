/**
 * The client auth store of src/lib/stores/auth.ts: a writable `AuthState`
 * that each store method updates. API calls are given as their outcome;
 * `handleApiError` is folded into the message an outcome carries.
 */
module ClientAuthStore {
  import opened Common
  import opened FrontendAuth
  import opened AuthViews

  /** How `apiClient.login` ended: success, a non-success reply, or a throw. */
  datatype LoginOutcome = LoginSucceeded(user: SessionUser) | LoginNotSucceeded | LoginThrew(message: string)

  datatype RegisterOutcome = RegisterSucceeded | RegisterNotSucceeded | RegisterThrew(message: string)

  /** How `apiClient.me` ended; an API error carries its code and message. */
  datatype MeOutcome = MeSucceeded(user: SessionUser) | MeNotSucceeded | MeApiError(code: string, message: string)
                     | MeNetworkError

  /** `{ success, user?, error? }` */
  datatype Reply = Reply(success: bool, user: Option<SessionUser>, error: Option<string>)

  /** The error codes `validateSession` reads as "no session". */
  const NoSessionCodes: seq<string> := ["SESSION_EXPIRED", "SESSION_INVALID", "NO_SESSION", "AUTH_ERROR"]

  class AuthStore {
    var user: Option<SessionUser>
    var isLoading: bool
    var isAuthenticated: bool
    var error: Option<string>
    var isInitialized: bool
    /** The closure variable `lastSessionCheck`. */
    var lastSessionCheck: int

    /** `isAuthenticated` says whether a user is held; every method keeps this. */
    predicate Valid()
      reads this
    {
      isAuthenticated <==> user.Some?
    }

    /** `initialState` */
    constructor()
      ensures Valid()
      ensures user.None? && !isLoading && !isAuthenticated && error.None? && !isInitialized && lastSessionCheck == 0
    {
      user := None;
      isLoading := false;
      isAuthenticated := false;
      error := None;
      isInitialized := false;
      lastSessionCheck := 0;
    }

    /** `login` */
    method Login(outcome: LoginOutcome) returns (reply: Reply)
      requires Valid()
      modifies this
      ensures Valid()
      ensures outcome.LoginSucceeded? ==>
        && user == Some(outcome.user) && isAuthenticated && !isLoading && error.None? && isInitialized
        && reply == Reply(true, Some(outcome.user), None)
      ensures outcome.LoginThrew? ==>
        && user.None? && !isAuthenticated && !isLoading && error == Some(outcome.message) && isInitialized
        && reply == Reply(false, None, Some(outcome.message))
      ensures outcome.LoginNotSucceeded? ==>
        && user == old(user) && isAuthenticated == old(isAuthenticated) && isInitialized == old(isInitialized)
        && isLoading && error.None?
        && reply == Reply(false, None, Some("Login failed"))
      ensures lastSessionCheck == old(lastSessionCheck)
    {
      isLoading := true;
      error := None;
      match outcome
      case LoginSucceeded(u) =>
        user := Some(u);
        isLoading := false;
        isAuthenticated := true;
        error := None;
        isInitialized := true;
        return Reply(true, Some(u), None);
      case LoginThrew(message) =>
        user := None;
        isLoading := false;
        isAuthenticated := false;
        error := Some(message);
        isInitialized := true;
        return Reply(false, None, Some(message));
      case LoginNotSucceeded =>
      reply := Reply(false, None, Some("Login failed"));
    }

    /** `register`: never logs in. */
    method Register(outcome: RegisterOutcome) returns (reply: Reply)
      requires Valid()
      modifies this
      ensures Valid()
      ensures user == old(user) && isAuthenticated == old(isAuthenticated) && isInitialized == old(isInitialized)
      ensures lastSessionCheck == old(lastSessionCheck)
      ensures outcome.RegisterSucceeded? ==> !isLoading && error.None? && reply == Reply(true, None, None)
      ensures outcome.RegisterThrew? ==>
        !isLoading && error == Some(outcome.message) && reply == Reply(false, None, Some(outcome.message))
      ensures outcome.RegisterNotSucceeded? ==>
        isLoading && error.None? && reply == Reply(false, None, Some("Registration failed"))
    {
      isLoading := true;
      error := None;
      match outcome
      case RegisterSucceeded =>
        isLoading := false;
        error := None;
        return Reply(true, None, None);
      case RegisterThrew(message) =>
        isLoading := false;
        error := Some(message);
        return Reply(false, None, Some(message));
      case RegisterNotSucceeded =>
      reply := Reply(false, None, Some("Registration failed"));
    }

    /**
     * `logout`: whatever the server call does, the state ends as
     * `initialState` marked initialized. Returns the page to go to.
     */
    method Logout(redirectTo: Option<string>) returns (target: string)
      modifies this
      ensures Valid()
      ensures user.None? && !isLoading && !isAuthenticated && error.None? && isInitialized && lastSessionCheck == 0
      ensures target == (if redirectTo.Some? then redirectTo.value else "/login")
    {
      isLoading := true;
      user := None;
      isLoading := false;
      isAuthenticated := false;
      error := None;
      isInitialized := true;
      lastSessionCheck := 0;
      target := if redirectTo.Some? then redirectTo.value else "/login";
    }

    /** `validateSession`, one call at time `nowMs`. */
    method ValidateSession(nowMs: int, outcome: MeOutcome) returns (result: Option<SessionUser>)
      requires Valid()
      modifies this
      ensures Valid()
      ensures lastSessionCheck == nowMs && isLoading == old(isLoading)
      ensures outcome.MeSucceeded? ==>
        user == Some(outcome.user) && isAuthenticated && error.None? && isInitialized && result == Some(outcome.user)
      ensures outcome.MeApiError? && outcome.code in NoSessionCodes ==>
        user.None? && !isAuthenticated && error.None? && isInitialized && result.None?
      ensures outcome.MeApiError? && outcome.code !in NoSessionCodes ==>
        && user == old(user) && isAuthenticated == old(isAuthenticated)
        && error == Some(outcome.message) && isInitialized && result.None?
      ensures outcome.MeNotSucceeded? || outcome.MeNetworkError? ==>
        && user == old(user) && isAuthenticated == old(isAuthenticated) && error == old(error)
        && isInitialized == old(isInitialized) && result.None?
    {
      lastSessionCheck := nowMs;
      result := None;
      match outcome
      case MeSucceeded(u) =>
        user := Some(u);
        isAuthenticated := true;
        error := None;
        isInitialized := true;
        result := Some(u);
      case MeApiError(code, message) =>
        if code in NoSessionCodes {
          user := None;
          isAuthenticated := false;
          error := None;
          isInitialized := true;
        } else {
          error := Some(message);
          isInitialized := true;
        }
      case MeNotSucceeded =>
      case MeNetworkError =>
    }

    /** `setUser`: leaves `error` and `isLoading` alone. */
    method SetUser(u: Option<SessionUser>)
      modifies this
      ensures Valid()
      ensures user == u && isAuthenticated == u.Some? && isInitialized
      ensures error == old(error) && isLoading == old(isLoading) && lastSessionCheck == old(lastSessionCheck)
    {
      user := u;
      isAuthenticated := u.Some?;
      isInitialized := true;
    }

    /** `setError` */
    method SetError(e: Option<string>)
      modifies this
      ensures error == e
      ensures user == old(user) && isAuthenticated == old(isAuthenticated) && isLoading == old(isLoading)
      ensures isInitialized == old(isInitialized) && lastSessionCheck == old(lastSessionCheck)
    {
      error := e;
    }

    /** `clearError` */
    method ClearError()
      modifies this
      ensures error.None?
      ensures user == old(user) && isAuthenticated == old(isAuthenticated) && isLoading == old(isLoading)
      ensures isInitialized == old(isInitialized) && lastSessionCheck == old(lastSessionCheck)
    {
      error := None;
    }

    /** `setLoading` */
    method SetLoading(loading: bool)
      modifies this
      ensures isLoading == loading
      ensures user == old(user) && isAuthenticated == old(isAuthenticated) && error == old(error)
      ensures isInitialized == old(isInitialized) && lastSessionCheck == old(lastSessionCheck)
    {
      isLoading := loading;
    }

    /** `setInitialized` */
    method SetInitialized(initialized: bool)
      modifies this
      ensures isInitialized == initialized
      ensures user == old(user) && isAuthenticated == old(isAuthenticated) && error == old(error)
      ensures isLoading == old(isLoading) && lastSessionCheck == old(lastSessionCheck)
    {
      isInitialized := initialized;
    }
  }

  /** The `facultyId` store: the user's faculty, else the admin role's. */
  function FacultyId(user: Option<SessionUser>): (id: Option<string>)
    ensures user.None? ==> id.None?
    ensures user.Some? && Truthy(user.value.facultyId) ==> id == user.value.facultyId
    ensures user.Some? && !Truthy(user.value.facultyId) ==>
      id == (if user.value.adminRole.Some? then user.value.adminRole.value.facultyId else None)
  {
    match user
    case None => None
    case Some(u) =>
      if Truthy(u.facultyId) then u.facultyId
      else if u.adminRole.Some? then u.adminRole.value.facultyId
      else None
  }
}
