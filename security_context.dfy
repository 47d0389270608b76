/**
 * The parts of Spring Security's authentication model the filter and the
 * authentication controller touch: the authentication object, its name and
 * its authenticated flag, and the holder whose single slot a request's
 * authentication is written to.
 */
module SecurityContext {
  import opened Wrappers
  import opened UserModel

  /** The name Spring gives the anonymous principal. */
  const AnonymousUser: string := "anonymousUser"

  /** `WebAuthenticationDetails`: the remote address and the session id, if a session exists. */
  datatype WebAuthenticationDetails = WebAuthenticationDetails(remoteAddress: string, sessionId: Option<string>)

  /**
   * A `UsernamePasswordAuthenticationToken` whose principal is a loaded user,
   * or the `AnonymousAuthenticationToken` Spring installs for a request
   * nobody authenticated.
   */
  datatype Authentication =
    | UsernamePasswordToken(
        principal: User,
        credentials: Option<string>,
        authorities: set<GrantedAuthority>,
        authenticated: bool,
        details: Option<WebAuthenticationDetails>)
    | AnonymousToken
  {
    /** `getName`: the principal's username; the anonymous token is named "anonymousUser". */
    function Name(): string {
      if UsernamePasswordToken? then principal.username else AnonymousUser
    }

    /** `isAuthenticated`: the flag of a username/password token; an anonymous token reports true. */
    predicate IsAuthenticated() {
      UsernamePasswordToken? ==> authenticated
    }
  }

  /**
   * The three-argument `UsernamePasswordAuthenticationToken` constructor:
   * it marks the token authenticated and carries no details yet.
   */
  function Authenticated(principal: User, credentials: Option<string>, authorities: set<GrantedAuthority>): (a: Authentication)
    ensures a.UsernamePasswordToken? && a.IsAuthenticated()
    ensures a.principal == principal && a.credentials == credentials && a.authorities == authorities
    ensures a.details.None?
    ensures a.Name() == principal.username
  {
    UsernamePasswordToken(principal, credentials, authorities, true, None)
  }

  /** The security context of the current request: one slot, empty until someone writes it. */
  class SecurityContextHolder {
    var authentication: Option<Authentication>

    constructor ()
      ensures authentication.None?
    {
      authentication := None;
    }

    method SetAuthentication(a: Authentication)
      modifies this
      ensures authentication == Some(a)
    {
      authentication := Some(a);
    }
  }
}
