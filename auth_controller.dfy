/**
 * `/api/auth`: registration, login and the current-user endpoint, each a
 * decision that ends in an HTTP status and a JSON body. Login authenticates
 * through the DAO authentication provider the security configuration
 * installs: it loads the user by username and checks the password hash.
 */
module AuthController {
  import opened Wrappers
  import opened UserModel
  import opened PasswordEncoding
  import opened Repositories
  import opened JwtTokenProvider
  import opened SecurityContext
  import opened JwtAuthenticationFilter
  import UserServiceImpl

  const Created: int := 201
  const Ok200: int := 200
  const BadRequest: int := 400
  const Unauthorized: int := 401
  const NotFound: int := 404

  const RegisteredMessage: string := "User registered successfully!"
  const InvalidCredentials: string := "Invalid username or password"
  const UserNotFound: string := "User not found"
  const UnauthorizedMessage: string := "Unauthorized"
  /** The message of Spring's `BadCredentialsException`, for an unknown user and a wrong password alike. */
  const BadCredentials: string := "Bad credentials"

  /** `LoginRequest`; `rememberMe` defaults to false in the DTO. */
  datatype LoginRequest = LoginRequest(username: string, password: string, rememberMe: bool)

  /** `AuthResponse`; its `type` defaults to "Bearer". */
  datatype AuthResponse = AuthResponse(token: string, tokenType: string, username: string, email: string, roles: set<string>)

  /** The JSON bodies the controller answers with. */
  datatype Body =
    | RegisteredBody(message: string, username: string)
    | ErrorBody(error: string)
    | TokenBody(auth: AuthResponse)
    | UserInfoBody(username: string, email: string, roles: set<string>)

  datatype ResponseEntity = ResponseEntity(status: int, body: Body)

  /** `register`'s answer to what `registerUser` returned or threw. */
  function RegisterResponse(outcome: Result<User, string>): (r: ResponseEntity)
    ensures r.status == Created <==> outcome.Ok?
    ensures outcome.Ok? ==> r.body == RegisteredBody(RegisteredMessage, outcome.value.username)
    ensures outcome.Err? ==> r == ResponseEntity(BadRequest, ErrorBody(outcome.error))
  {
    match outcome
    case Ok(user) => ResponseEntity(Created, RegisteredBody(RegisteredMessage, user.username))
    case Err(message) => ResponseEntity(BadRequest, ErrorBody(message))
  }

  /** `POST /api/auth/register`. */
  method Register(db: Database, enc: PasswordEncoder, salt: Salt, req: UserServiceImpl.RegisterRequest)
    returns (r: ResponseEntity)
    requires db.Valid()
    modifies db`users, db`nextUserId
    ensures db.Valid()
    ensures UserServiceImpl.ExistsByUsername(old(db.users), req.username) ==>
      r == ResponseEntity(BadRequest, ErrorBody(UserServiceImpl.UsernameTaken))
    ensures !UserServiceImpl.ExistsByUsername(old(db.users), req.username) && UserServiceImpl.ExistsByEmail(old(db.users), req.email) ==>
      r == ResponseEntity(BadRequest, ErrorBody(UserServiceImpl.EmailInUse))
    ensures r.status == Created <==>
      !UserServiceImpl.ExistsByUsername(old(db.users), req.username) && !UserServiceImpl.ExistsByEmail(old(db.users), req.email)
    ensures r.status == Created ==>
      r.body == RegisteredBody(RegisteredMessage, req.username) && |db.users| == |old(db.users)| + 1
    ensures r.status != Created ==> db.users == old(db.users)
  {
    var outcome := UserServiceImpl.RegisterUser(db, enc, salt, req);
    r := RegisterResponse(outcome);
  }

  /**
   * `authenticationManager.authenticate`: the DAO provider loads the user and
   * checks the raw password against the stored hash; either failure is a
   * `BadCredentialsException`. On success the token carries the loaded user
   * and its authorities, with the credentials erased.
   */
  function DaoAuthenticate(users: seq<User>, enc: PasswordEncoder, username: string, password: string)
    : (r: Result<Authentication, string>)
    ensures r.Ok? <==>
      UserServiceImpl.LoadUserByUsername(users, username).Ok?
      && MatchesStored(enc, password, UserServiceImpl.LoadUserByUsername(users, username).value.password)
    ensures r.Err? ==> r.error == BadCredentials
    ensures r.Ok? ==>
      && r.value.UsernamePasswordToken? && r.value.IsAuthenticated()
      && r.value.principal == UserServiceImpl.LoadUserByUsername(users, username).value
      && r.value.Name() == username
      && r.value.credentials.None?
      && r.value.authorities == GetAuthorities(r.value.principal)
  {
    match UserServiceImpl.LoadUserByUsername(users, username)
    case Err(_) => Err(BadCredentials)
    case Ok(user) =>
      if MatchesStored(enc, password, user.password) then Ok(Authenticated(user, None, GetAuthorities(user)))
      else Err(BadCredentials)
  }

  /**
   * The answer of `login`: 401 with one text for every authentication
   * failure; otherwise a token for the authenticated name with the request's
   * remember-me choice, and the re-looked-up user's username, email and
   * roles (404 if that lookup finds nobody).
   */
  function LoginResponse(users: seq<User>, enc: PasswordEncoder, p: Provider, lib: Jjwt, req: LoginRequest, now: int)
    : (r: ResponseEntity)
    ensures r.status == Unauthorized <==> DaoAuthenticate(users, enc, req.username, req.password).Err?
    ensures r.status == Unauthorized ==> r.body == ErrorBody(InvalidCredentials)
    ensures r.status == Unauthorized || r.status == Ok200
    ensures r.status == Ok200 ==>
      var u := UserServiceImpl.LoadUserByUsername(users, req.username).value;
      r.body == TokenBody(AuthResponse(GenerateToken(p, lib, req.username, req.rememberMe, now), "Bearer", u.username, u.email, u.roles))
  {
    match DaoAuthenticate(users, enc, req.username, req.password)
    case Err(_) => ResponseEntity(Unauthorized, ErrorBody(InvalidCredentials))
    case Ok(authentication) =>
      var jwt := GenerateToken(p, lib, authentication.Name(), req.rememberMe, now);
      match UserServiceImpl.FindByUsername(users, Some(req.username))
      case None => ResponseEntity(NotFound, ErrorBody(UserNotFound))
      case Some(user) =>
        ResponseEntity(Ok200, TokenBody(AuthResponse(jwt, "Bearer", user.username, user.email, user.roles)))
  }

  /** `POST /api/auth/login`: writes the context on successful authentication, then answers. */
  method Login(db: Database, enc: PasswordEncoder, p: Provider, lib: Jjwt, req: LoginRequest, now: int,
               context: SecurityContextHolder)
    returns (r: ResponseEntity)
    modifies context
    ensures r == LoginResponse(db.users, enc, p, lib, req, now)
    ensures DaoAuthenticate(db.users, enc, req.username, req.password).Ok? ==>
      context.authentication == Some(DaoAuthenticate(db.users, enc, req.username, req.password).value)
    ensures DaoAuthenticate(db.users, enc, req.username, req.password).Err? ==>
      context.authentication == old(context.authentication)
  {
    var attempt := DaoAuthenticate(db.users, enc, req.username, req.password);
    if attempt.Ok? {
      context.SetAuthentication(attempt.value);
    }
    r := LoginResponse(db.users, enc, p, lib, req, now);
  }

  /**
   * `getCurrentUser`: 401 for no authentication, an unauthenticated one or
   * the anonymous user; 404 when nobody has the authenticated name;
   * otherwise that user's username, email and roles.
   */
  function GetCurrentUser(authentication: Option<Authentication>, users: seq<User>): (r: ResponseEntity)
    ensures r.status == Unauthorized <==>
      authentication.None? || !authentication.value.IsAuthenticated() || authentication.value.Name() == AnonymousUser
    ensures r.status == Unauthorized ==> r.body == ErrorBody(UnauthorizedMessage)
    ensures r.status == NotFound <==>
      && authentication.Some? && authentication.value.IsAuthenticated() && authentication.value.Name() != AnonymousUser
      && forall j :: 0 <= j < |users| ==> users[j].username != authentication.value.Name()
    ensures r.status == NotFound ==> r.body == ErrorBody(UserNotFound)
    ensures r.status == Unauthorized || r.status == NotFound || r.status == Ok200
    ensures r.status == Ok200 ==>
      exists j :: 0 <= j < |users| && users[j].username == authentication.value.Name()
        && r.body == UserInfoBody(users[j].username, users[j].email, users[j].roles)
  {
    if authentication.None? || !authentication.value.IsAuthenticated() || authentication.value.Name() == AnonymousUser then
      ResponseEntity(Unauthorized, ErrorBody(UnauthorizedMessage))
    else
      match UserServiceImpl.FindByUsername(users, Some(authentication.value.Name()))
      case None => ResponseEntity(NotFound, ErrorBody(UserNotFound))
      case Some(user) => ResponseEntity(Ok200, UserInfoBody(user.username, user.email, user.roles))
  }

  /**
   * The login round trip: the token a successful login hands out, sent back
   * as "Bearer <token>" before it expires, makes the filter bind the same
   * user, and `/me` then answers with that user, unless the user's name is
   * literally "anonymousUser", which `/me` refuses.
   */
  lemma {:induction false} LoginTokenAuthenticatesRequests(users: seq<User>, enc: PasswordEncoder, p: Provider, lib: Jjwt,
                                                         req: LoginRequest, now: int, t: int,
                                                         remoteAddress: string, sessionId: Option<string>)
    requires JwtTokenProvider.Sound(lib)
    requires LoginResponse(users, enc, p, lib, req, now).status == Ok200
    requires t <= ExpiresAt(p, req.rememberMe, now)
    requires req.username != AnonymousUser
    ensures var token := LoginResponse(users, enc, p, lib, req, now).body.auth.token;
      var bound := Authenticate(p, lib, users, HttpRequest(Some(BearerPrefix + token), remoteAddress, sessionId), t);
      && bound.Ok? && bound.value.Some?
      && bound.value.value.principal == DaoAuthenticate(users, enc, req.username, req.password).value.principal
      && GetCurrentUser(bound.value, users).status == Ok200
  {
    var token := LoginResponse(users, enc, p, lib, req, now).body.auth.token;
    assert token == GenerateToken(p, lib, req.username, req.rememberMe, now);
    var request := HttpRequest(Some(BearerPrefix + token), remoteAddress, sessionId);
    ExtractsBearerToken(token, remoteAddress, sessionId);
    IssuedTokenValidUntilExpiry(p, lib, req.username, req.rememberMe, now, t);
    var principal := UserServiceImpl.LoadUserByUsername(users, req.username).value;
    var k :| 0 <= k < |users| && users[k] == principal;
    assert users[k].username == ParseSignedClaims(p, lib, token, t).value.subject;
    var bound := Authenticate(p, lib, users, request, t);
    assert bound.value.value.principal == principal;
  }
}
