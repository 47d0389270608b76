/**
 * `authGuard`: a route is open exactly when a token is stored; without one
 * the router is sent to /login. A token whose user is not loaded yet
 * triggers a `GET /me` but still opens the route.
 */
module AuthGuard {
  import opened Wrappers
  import ClientAuth

  /** What a guard answers and which side effects it asks for. */
  datatype GuardDecision = GuardDecision(allowed: bool, redirect: Option<string>, reloadUser: bool)

  /** The decision from the two facts the guard reads: a stored token, a loaded user. */
  function Decide(loggedIn: bool, userLoaded: bool): (d: GuardDecision)
    ensures d.allowed <==> loggedIn
    ensures d.redirect.Some? <==> !loggedIn
    ensures d.redirect.Some? ==> d.redirect.value == ClientAuth.LoginPath
    ensures d.reloadUser <==> loggedIn && !userLoaded
  {
    if loggedIn then GuardDecision(true, None, !userLoaded)
    else GuardDecision(false, Some(ClientAuth.LoginPath), false)
  }

  /** The guard run against the service: it performs the decision's navigation or reload. */
  method Guard(auth: ClientAuth.AuthService) returns (allowed: bool)
    modifies auth`meRequests, auth`navigations
    ensures allowed == auth.IsLoggedIn()
    ensures allowed ==> auth.navigations == old(auth.navigations)
    ensures !allowed ==> auth.navigations == old(auth.navigations) + [ClientAuth.LoginPath]
    ensures auth.meRequests == old(auth.meRequests) + (if allowed && old(auth.currentUser).None? then 1 else 0)
  {
    var d := Decide(auth.IsLoggedIn(), auth.currentUser.Some?);
    if d.redirect.Some? {
      auth.navigations := auth.navigations + [d.redirect.value];
    }
    if d.reloadUser {
      auth.LoadCurrentUser();
    }
    allowed := d.allowed;
  }
}
