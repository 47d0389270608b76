/**
 * The browser side of authentication: the token kept under "jwt_token" in
 * localStorage (remembered) or sessionStorage (this tab only), and the
 * current user the application shows. HTTP calls are split into the
 * request (counted) and the handling of its response (a parameter).
 */
module ClientAuth {
  import opened Wrappers
  import opened JsValues

  const LoginPath: string := "/login"

  /** `a || b` on two storage reads. */
  function Or(a: Option<string>, b: Option<string>): Option<string> {
    if Truthy(a) then a else b
  }

  /** The token lookup shared by the service and the interceptor: localStorage first. */
  function StoredToken(local: Option<string>, session: Option<string>): (r: Option<string>)
    ensures Truthy(r) <==> Truthy(local) || Truthy(session)
    ensures Truthy(r) ==> r == local || r == session
    ensures Truthy(local) ==> r == local
  {
    Or(local, session)
  }

  datatype CurrentUser = CurrentUser(username: string, email: string, roles: seq<string>)

  /** `LoginRequest`: `remember` is optional, and only true counts. */
  datatype LoginCredentials = LoginCredentials(username: string, password: string, remember: Option<bool>)

  datatype AuthResponse = AuthResponse(token: string, tokenType: string, username: string, email: string, roles: seq<string>)

  /** What `GET /me` answers: the user, or an error status. */
  datatype MeOutcome = MeUser(user: CurrentUser) | MeError(status: int)

  class AuthService {
    /** localStorage["jwt_token"] and sessionStorage["jwt_token"]. */
    var localToken: Option<string>
    var sessionToken: Option<string>
    /** The value of `currentUserSubject`. */
    var currentUser: Option<CurrentUser>
    /** How many `GET /me` requests were sent. */
    var meRequests: nat
    /** The paths the router was told to navigate to, in order. */
    var navigations: seq<string>

    /** The service starts with whatever the storages hold and asks for the user only when a token is there. */
    constructor (local: Option<string>, session: Option<string>)
      ensures localToken == local && sessionToken == session && currentUser.None? && navigations == []
      ensures meRequests == (if Truthy(StoredToken(local, session)) then 1 else 0)
    {
      localToken := local;
      sessionToken := session;
      currentUser := None;
      navigations := [];
      meRequests := 0;
      if Truthy(StoredToken(local, session)) {
        meRequests := 1;
      }
    }

    /** `getToken`. */
    function GetToken(): (r: Option<string>)
      reads this
      ensures Truthy(localToken) ==> r == localToken
      ensures !Truthy(localToken) ==> r == sessionToken
    {
      StoredToken(localToken, sessionToken)
    }

    /** `isLoggedIn`: a non-empty token in either storage. */
    predicate IsLoggedIn()
      reads this
      ensures IsLoggedIn() <==> Truthy(localToken) || Truthy(sessionToken)
    {
      Truthy(GetToken())
    }

    /**
     * The `tap` of `login`: the token goes to localStorage when remembered
     * and to sessionStorage otherwise, and the response's user becomes the
     * current user.
     */
    method OnLoginResponse(credentials: LoginCredentials, response: AuthResponse)
      modifies this`localToken, this`sessionToken, this`currentUser
      ensures credentials.remember == Some(true) ==>
        localToken == Some(response.token) && sessionToken == old(sessionToken)
      ensures credentials.remember != Some(true) ==>
        sessionToken == Some(response.token) && localToken == old(localToken)
      ensures currentUser == Some(CurrentUser(response.username, response.email, response.roles))
      ensures response.token != [] ==> IsLoggedIn()
      ensures credentials.remember != Some(true) && Truthy(old(localToken)) ==> GetToken() == old(localToken)
    {
      if credentials.remember == Some(true) {
        localToken := Some(response.token);
      } else {
        sessionToken := Some(response.token);
      }
      currentUser := Some(CurrentUser(response.username, response.email, response.roles));
    }

    /** `logout`: both storages and the current user are cleared, and the router goes to /login. */
    method Logout()
      modifies this`localToken, this`sessionToken, this`currentUser, this`navigations
      ensures localToken.None? && sessionToken.None? && currentUser.None?
      ensures navigations == old(navigations) + [LoginPath]
      ensures !IsLoggedIn()
    {
      localToken := None;
      sessionToken := None;
      currentUser := None;
      navigations := navigations + [LoginPath];
    }

    /** `loadCurrentUser`, the request half: one more `GET /me`. */
    method LoadCurrentUser()
      modifies this`meRequests
      ensures meRequests == old(meRequests) + 1
    {
      meRequests := meRequests + 1;
    }

    /** `loadCurrentUser`, the response half: the user is stored; a 401 logs out; other errors change nothing. */
    method OnMeResponse(outcome: MeOutcome)
      modifies this`localToken, this`sessionToken, this`currentUser, this`navigations
      ensures outcome.MeUser? ==> currentUser == Some(outcome.user)
      ensures outcome.MeUser? || (outcome.MeError? && outcome.status != 401) ==>
        localToken == old(localToken) && sessionToken == old(sessionToken) && navigations == old(navigations)
      ensures outcome.MeError? && outcome.status != 401 ==> currentUser == old(currentUser)
      ensures outcome == MeError(401) ==>
        !IsLoggedIn() && currentUser.None? && navigations == old(navigations) + [LoginPath]
    {
      match outcome {
        case MeUser(user) =>
          currentUser := Some(user);
        case MeError(status) =>
          if status == 401 {
            Logout();
          }
      }
    }
  }
}
