/**
 * The HTTP interceptor that adds the stored token to every outgoing request
 * as a bearer credential, and the round trip it forms with the backend
 * filter's extraction of that credential.
 */
module AuthInterceptor {
  import opened Wrappers
  import ClientAuth
  import JsValues
  import JwtAuthenticationFilter

  /** An outgoing request: its URL and its headers. */
  datatype OutgoingRequest = OutgoingRequest(url: string, headers: map<string, string>)

  const AuthorizationHeader: string := "Authorization"

  /**
   * `authInterceptor`: the one request handed to `next`. With a token from
   * localStorage or else sessionStorage it is a clone carrying
   * "Bearer <token>"; without one it is the request itself.
   */
  function Intercept(req: OutgoingRequest, local: Option<string>, session: Option<string>): (forwarded: OutgoingRequest)
    ensures JsValues.Truthy(ClientAuth.StoredToken(local, session)) ==>
      && forwarded.url == req.url
      && forwarded.headers == req.headers[AuthorizationHeader := "Bearer " + ClientAuth.StoredToken(local, session).value]
    ensures !JsValues.Truthy(ClientAuth.StoredToken(local, session)) ==> forwarded == req
  {
    var token := ClientAuth.Or(local, session);
    if JsValues.Truthy(token) then
      req.(headers := req.headers[AuthorizationHeader := "Bearer " + token.value])
    else req
  }

  /** The interceptor attaches exactly the token the service reports, and only when the service counts as logged in. */
  lemma InterceptorSendsServiceToken(auth: ClientAuth.AuthService, req: OutgoingRequest)
    ensures auth.IsLoggedIn() ==>
      Intercept(req, auth.localToken, auth.sessionToken).headers == req.headers[AuthorizationHeader := "Bearer " + auth.GetToken().value]
    ensures !auth.IsLoggedIn() ==> Intercept(req, auth.localToken, auth.sessionToken) == req
  {
  }

  /**
   * Across the wire: the backend filter extracts from the intercepted
   * request exactly the token the client stored.
   */
  lemma ServerSeesStoredToken(req: OutgoingRequest, local: Option<string>, session: Option<string>,
                              remoteAddress: string, sessionId: Option<string>)
    requires JsValues.Truthy(ClientAuth.StoredToken(local, session))
    ensures var forwarded := Intercept(req, local, session);
      var header := Some(forwarded.headers[AuthorizationHeader]);
      JwtAuthenticationFilter.GetJwtFromRequest(JwtAuthenticationFilter.HttpRequest(header, remoteAddress, sessionId))
        == ClientAuth.StoredToken(local, session)
  {
    var token := ClientAuth.StoredToken(local, session).value;
    JwtAuthenticationFilter.ExtractsBearerToken(token, remoteAddress, sessionId);
  }
}
