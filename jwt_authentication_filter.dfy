/**
 * The once-per-request JWT filter: it takes a bearer token from the
 * Authorization header, validates it, loads the named user and binds an
 * authentication to the request's security context. Every exception on the
 * way is logged and swallowed, and the rest of the chain always runs.
 */
module JwtAuthenticationFilter {
  import opened Wrappers
  import opened Text
  import opened UserModel
  import opened JwtTokenProvider
  import opened SecurityContext
  import UserServiceImpl

  /** The case-sensitive prefix of the Bearer scheme (section 2.1 of RFC 6750). */
  const BearerPrefix: string := "Bearer "

  /** The parts of the servlet request the filter reads. */
  datatype HttpRequest = HttpRequest(authorization: Option<string>, remoteAddress: string, sessionId: Option<string>)

  /** Why the filter's try block was left by an exception. */
  datatype FilterError = TokenError(error: JwtError) | LookupError(message: string)

  /** `getJwtFromRequest`: the header minus its first seven characters when it starts with "Bearer ". */
  function GetJwtFromRequest(request: HttpRequest): (r: Option<string>)
    ensures r.Some? <==> request.authorization.Some? && StartsWith(request.authorization.value, BearerPrefix)
    ensures r.Some? ==> request.authorization.value == BearerPrefix + r.value
  {
    match request.authorization
    case None => None
    case Some(header) =>
      if StartsWith(header, BearerPrefix) then
        assert header == header[..7] + header[7..];
        Some(header[7..])
      else None
  }

  /** The client's `"Bearer " + token` header yields exactly `token` back. */
  lemma ExtractsBearerToken(token: string, remoteAddress: string, sessionId: Option<string>)
    ensures GetJwtFromRequest(HttpRequest(Some(BearerPrefix + token), remoteAddress, sessionId)) == Some(token)
  {
    var header := BearerPrefix + token;
    assert header[..|BearerPrefix|] == BearerPrefix;
    var r := GetJwtFromRequest(HttpRequest(Some(header), remoteAddress, sessionId));
    assert BearerPrefix + r.value == BearerPrefix + token;
    assert r.value == (BearerPrefix + r.value)[|BearerPrefix|..];
  }

  /** `WebAuthenticationDetailsSource().buildDetails(request)`. */
  function BuildDetails(request: HttpRequest): WebAuthenticationDetails {
    WebAuthenticationDetails(request.remoteAddress, request.sessionId)
  }

  /**
   * The try block of `doFilterInternal`: `Ok(None)` when it writes nothing,
   * `Ok(Some(a))` when it binds `a`, `Err(e)` when an exception escapes to
   * the catch-all.
   */
  function Authenticate(p: Provider, lib: Jjwt, users: seq<User>, request: HttpRequest, now: int)
    : (r: Result<Option<Authentication>, FilterError>)
    ensures GetJwtFromRequest(request).None? ==> r == Ok(None)
    ensures GetJwtFromRequest(request).Some? && ValidateToken(p, lib, GetJwtFromRequest(request).value, now) == Valid(false)
      ==> r == Ok(None)
    ensures GetJwtFromRequest(request).Some? && ValidateToken(p, lib, GetJwtFromRequest(request).value, now).Raised?
      ==> r == Err(TokenError(SignatureMismatch))
    ensures (r.Ok? && r.value.Some?) <==>
      && GetJwtFromRequest(request).Some?
      && ParseSignedClaims(p, lib, GetJwtFromRequest(request).value, now).Ok?
      && (exists j :: 0 <= j < |users| && users[j].username == ParseSignedClaims(p, lib, GetJwtFromRequest(request).value, now).value.subject)
    ensures r.Ok? && r.value.Some? ==>
      var a := r.value.value;
      && a.UsernamePasswordToken? && a.IsAuthenticated()
      && a.principal in users
      && a.Name() == ParseSignedClaims(p, lib, GetJwtFromRequest(request).value, now).value.subject
      && a.credentials.None?
      && a.authorities == GetAuthorities(a.principal)
      && a.details == Some(BuildDetails(request))
  {
    match GetJwtFromRequest(request)
    case None => Ok(None)
    case Some(jwt) =>
      match ValidateToken(p, lib, jwt, now)
      case Raised(e) => Err(TokenError(e))
      case Valid(false) => Ok(None)
      case Valid(true) =>
        match GetUsernameFromToken(p, lib, jwt, now)
        case Err(e) => Err(TokenError(e))
        case Ok(username) =>
          match UserServiceImpl.LoadUserByUsername(users, username)
          case Err(message) => Err(LookupError(message))
          case Ok(userDetails) =>
            var authentication := Authenticated(userDetails, None, GetAuthorities(userDetails));
            Ok(Some(authentication.(details := Some(BuildDetails(request)))))
  }

  /** The context after the filter: written only when the try block bound an authentication. */
  function ContextAfter(before: Option<Authentication>, attempt: Result<Option<Authentication>, FilterError>)
    : (after: Option<Authentication>)
    ensures after != before ==> attempt.Ok? && attempt.value.Some? && after == attempt.value
  {
    if attempt.Ok? && attempt.value.Some? then attempt.value else before
  }

  /**
   * A forged token (which escapes `validateToken` as an exception) and a
   * token `validateToken` answers false for end the same way: the context
   * keeps whatever it held.
   */
  lemma RejectedTokenLeavesContext(p: Provider, lib: Jjwt, users: seq<User>, request: HttpRequest, now: int,
                                   before: Option<Authentication>)
    requires GetJwtFromRequest(request).Some?
    requires ValidateToken(p, lib, GetJwtFromRequest(request).value, now) != Valid(true)
    ensures ContextAfter(before, Authenticate(p, lib, users, request, now)) == before
  {
  }

  /** A valid token whose subject has no user (say, deleted since) binds nothing. */
  lemma UnknownSubjectLeavesContext(p: Provider, lib: Jjwt, users: seq<User>, request: HttpRequest, now: int,
                                    before: Option<Authentication>)
    requires GetJwtFromRequest(request).Some?
    requires GetUsernameFromToken(p, lib, GetJwtFromRequest(request).value, now).Ok?
    requires forall j :: 0 <= j < |users| ==> users[j].username != GetUsernameFromToken(p, lib, GetJwtFromRequest(request).value, now).value
    ensures Authenticate(p, lib, users, request, now).Err?
    ensures ContextAfter(before, Authenticate(p, lib, users, request, now)) == before
  {
  }

  /** The rest of the filter chain; it records how often and with what it was invoked. */
  class FilterChain {
    var forwarded: seq<HttpRequest>

    constructor ()
      ensures forwarded == []
    {
      forwarded := [];
    }

    /** `filterChain.doFilter(request, response)`. */
    method DoFilter(request: HttpRequest)
      modifies this
      ensures forwarded == old(forwarded) + [request]
    {
      forwarded := forwarded + [request];
    }
  }

  /**
   * `doFilterInternal`: runs the try block, writes the context on success,
   * logs an escaped exception, then forwards the request exactly once.
   */
  method DoFilterInternal(p: Provider, lib: Jjwt, users: seq<User>, request: HttpRequest, now: int,
                          context: SecurityContextHolder, chain: FilterChain)
    returns (logged: bool)
    modifies context, chain
    ensures context.authentication == ContextAfter(old(context.authentication), Authenticate(p, lib, users, request, now))
    ensures logged <==> Authenticate(p, lib, users, request, now).Err?
    ensures chain.forwarded == old(chain.forwarded) + [request]
  {
    var attempt := Authenticate(p, lib, users, request, now);
    logged := false;
    match attempt {
      case Ok(Some(authentication)) =>
        context.SetAuthentication(authentication);
      case Ok(None) =>
      case Err(_) =>
        logged := true;
    }
    chain.DoFilter(request);
  }
}
