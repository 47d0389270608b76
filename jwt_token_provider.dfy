/**
 * `JwtTokenProvider`: issues signed JWTs for authenticated users and checks
 * the ones that come back. The jjwt library is seen through its observable
 * behaviour: a MAC over the claims under a fixed HMAC key, a compact string
 * form and its parser. The clock is an explicit `now` in milliseconds.
 */
module JwtTokenProvider {
  import opened Wrappers
  import opened Text

  /** The remember-me lifetime when none is configured: seven days in milliseconds. */
  const DefaultRememberMeExpiration: int := 604800000

  /** `Keys.hmacShaKeyFor` refuses keys shorter than 256 bits. */
  const MinKeyBytes: int := 32

  /** The number of bytes of `s` in UTF-8, which is what `String.toByteArray()` yields. */
  function Utf8Length(s: string): (n: nat)
    ensures n >= |s|
  {
    if s == [] then 0
    else
      var c := s[0] as int;
      (if c < 0x80 then 1 else if c < 0x800 then 2 else if c < 0x10000 then 3 else 4) + Utf8Length(s[1..])
  }

  datatype Key = Key(material: string)

  datatype Claims = Claims(subject: string, issuedAt: int, expiration: int)

  /** A JWT: its claims and its signature; a token without a signature is an unsecured JWT. */
  datatype Token = Token(subject: string, issuedAt: int, expiresAt: int, sig: Option<string>)
  {
    function ClaimsOf(): Claims { Claims(subject, issuedAt, expiresAt) }
  }

  /** The parts of jjwt this class relies on: signing, compact serialisation and parsing. */
  datatype Jjwt = Jjwt(
    mac: (Key, Claims) -> string,
    compact: Token -> string,
    decode: string -> Option<Token>)

  /**
   * A `Date` as a JWT carries it: a NumericDate counts whole seconds
   * (section 2 of RFC 7519), so jjwt divides the milliseconds by 1000 with
   * Java's `/`, which truncates toward zero, and multiplies back on parsing.
   */
  function WholeSeconds(ms: int): (r: int)
    ensures r % 1000 == 0
    ensures 0 <= ms ==> 0 <= r <= ms < r + 1000
    ensures ms < 0 ==> r - 1000 < ms <= r <= 0
  {
    if ms >= 0 then ms / 1000 * 1000 else -((-ms) / 1000 * 1000)
  }

  /** The token as its compact form carries it: `iat` and `exp` in whole seconds. */
  function InWholeSeconds(t: Token): (r: Token)
    ensures r.subject == t.subject && r.sig == t.sig
    ensures r.issuedAt == WholeSeconds(t.issuedAt) && r.expiresAt == WholeSeconds(t.expiresAt)
  {
    t.(issuedAt := WholeSeconds(t.issuedAt), expiresAt := WholeSeconds(t.expiresAt))
  }

  /**
   * The compact form parses back to the same token, its dates cut to whole
   * seconds, and is never blank.
   */
  ghost predicate Sound(lib: Jjwt) {
    (forall t :: lib.decode(lib.compact(t)) == Some(InWholeSeconds(t)))
    && (forall t :: !IsBlank(lib.compact(t)))
  }

  /** What `parseSignedClaims` throws. */
  datatype JwtError =
    | IllegalArgument      // null, empty or blank input
    | Malformed            // not a compact JWT
    | Unsupported          // an unsecured JWT where a signed one is required
    | SignatureMismatch    // jjwt's SignatureException
    | Expired              // the expiration lies before `now`

  /** A configured provider: the key is derived once, from the secret, at construction. */
  datatype Provider = Provider(key: Key, expiration: int, expirationRememberMe: int)

  /**
   * The constructor: the secret becomes the HMAC key, which jjwt refuses when
   * shorter than 256 bits; the remember-me lifetime defaults to seven days.
   */
  function NewProvider(secret: string, expiration: int, expirationRememberMe: Option<int>): (r: Result<Provider, string>)
    ensures r.Ok? <==> Utf8Length(secret) >= MinKeyBytes
    ensures r.Ok? ==> r.value.key == Key(secret) && r.value.expiration == expiration
    ensures r.Ok? && expirationRememberMe.None? ==> r.value.expirationRememberMe == DefaultRememberMeExpiration
    ensures r.Ok? && expirationRememberMe.Some? ==> r.value.expirationRememberMe == expirationRememberMe.value
  {
    if Utf8Length(secret) < MinKeyBytes then Err("WeakKeyException")
    else
      var rememberMe := if expirationRememberMe.Some? then expirationRememberMe.value else DefaultRememberMeExpiration;
      Ok(Provider(Key(secret), expiration, rememberMe))
  }

  /** The lifetime of a new token: the remember-me lifetime or the ordinary one. */
  function Lifetime(p: Provider, rememberMe: bool): int {
    if rememberMe then p.expirationRememberMe else p.expiration
  }

  /** The `exp` of a token issued at `now`: the end of its lifetime, cut to whole seconds. */
  function ExpiresAt(p: Provider, rememberMe: bool, now: int): int {
    WholeSeconds(now + Lifetime(p, rememberMe))
  }

  /**
   * The token `generateToken` builds for `username` at time `now`; the
   * builder keeps `iat` and `exp` in whole seconds and signs those.
   */
  function Issue(p: Provider, lib: Jjwt, username: string, rememberMe: bool, now: int): (t: Token)
    ensures t.subject == username && t.issuedAt == WholeSeconds(now)
    ensures t.expiresAt == ExpiresAt(p, rememberMe, now)
    ensures now >= 0 && Lifetime(p, rememberMe) >= 0 ==> now + Lifetime(p, rememberMe) - 1000 < t.expiresAt <= now + Lifetime(p, rememberMe)
    ensures t.sig == Some(lib.mac(p.key, t.ClaimsOf()))
    ensures InWholeSeconds(t) == t
    ensures now >= 0 && Lifetime(p, rememberMe) >= 1000 ==> t.expiresAt > t.issuedAt
  {
    var claims := Claims(username, WholeSeconds(now), ExpiresAt(p, rememberMe, now));
    Token(username, WholeSeconds(now), ExpiresAt(p, rememberMe, now), Some(lib.mac(p.key, claims)))
  }

  /**
   * `parseSignedClaims` with the provider's key at time `now`: refuses blank
   * input, then text that is not a JWT, then an unsigned JWT, then a
   * signature that is not the MAC of the claims, then an expired token.
   */
  function ParseSignedClaims(p: Provider, lib: Jjwt, token: string, now: int): (r: Result<Claims, JwtError>)
    ensures IsBlank(token) ==> r == Err(IllegalArgument)
    ensures !IsBlank(token) && lib.decode(token).None? ==> r == Err(Malformed)
    ensures r.Ok? <==>
      && !IsBlank(token) && lib.decode(token).Some?
      && lib.decode(token).value.sig == Some(lib.mac(p.key, lib.decode(token).value.ClaimsOf()))
      && now <= lib.decode(token).value.expiresAt
    ensures r.Ok? ==> r.value == lib.decode(token).value.ClaimsOf()
    ensures r == Err(SignatureMismatch) <==>
      && !IsBlank(token) && lib.decode(token).Some? && lib.decode(token).value.sig.Some?
      && lib.decode(token).value.sig != Some(lib.mac(p.key, lib.decode(token).value.ClaimsOf()))
  {
    if IsBlank(token) then Err(IllegalArgument)
    else
      match lib.decode(token)
      case None => Err(Malformed)
      case Some(t) =>
        if t.sig.None? then Err(Unsupported)
        else if t.sig.value != lib.mac(p.key, t.ClaimsOf()) then Err(SignatureMismatch)
        else if now > t.expiresAt then Err(Expired)
        else Ok(t.ClaimsOf())
  }

  /**
   * `generateToken`: the compact form of a token for `username`, issued at
   * `now`, which parses back to its second-precision claims until its `exp`
   * and is refused as expired after it.
   */
  function GenerateToken(p: Provider, lib: Jjwt, username: string, rememberMe: bool, now: int): (token: string)
    ensures Sound(lib) ==> forall t :: t <= ExpiresAt(p, rememberMe, now) ==>
      ParseSignedClaims(p, lib, token, t) == Ok(Claims(username, WholeSeconds(now), ExpiresAt(p, rememberMe, now)))
    ensures Sound(lib) ==> forall t :: t > ExpiresAt(p, rememberMe, now) ==>
      ParseSignedClaims(p, lib, token, t) == Err(Expired)
  {
    var tok := Issue(p, lib, username, rememberMe, now);
    lib.compact(tok)
  }

  /** `getUsernameFromToken`: the subject of a token that parses; otherwise the parse error is thrown. */
  function GetUsernameFromToken(p: Provider, lib: Jjwt, token: string, now: int): (r: Result<string, JwtError>)
    ensures r.Ok? <==> ParseSignedClaims(p, lib, token, now).Ok?
    ensures r.Ok? ==> r.value == ParseSignedClaims(p, lib, token, now).value.subject
    ensures r.Err? ==> r.error == ParseSignedClaims(p, lib, token, now).error
  {
    match ParseSignedClaims(p, lib, token, now)
    case Ok(claims) => Ok(claims.subject)
    case Err(e) => Err(e)
  }

  /** The outcome of `validateToken`: a Boolean answer, or an exception it lets through. */
  datatype Validation = Valid(ok: bool) | Raised(error: JwtError)

  /**
   * `validateToken`: true when the token parses. It catches the malformed,
   * expired, unsupported and illegal-argument exceptions and answers false;
   * it also catches `SecurityException`, but that is the JDK class, not
   * jjwt's, so a signature mismatch is thrown to the caller.
   */
  function ValidateToken(p: Provider, lib: Jjwt, token: string, now: int): (r: Validation)
    ensures r == Valid(true) <==> ParseSignedClaims(p, lib, token, now).Ok?
    ensures r.Raised? <==> ParseSignedClaims(p, lib, token, now) == Err(SignatureMismatch)
    ensures r.Raised? ==> r.error == SignatureMismatch
  {
    match ParseSignedClaims(p, lib, token, now)
    case Ok(_) => Valid(true)
    case Err(SignatureMismatch) => Raised(SignatureMismatch)
    case Err(_) => Valid(false)
  }

  /** An issued token is valid until its `exp`, the end of its lifetime in whole seconds, and names its user. */
  lemma IssuedTokenValidUntilExpiry(p: Provider, lib: Jjwt, username: string, rememberMe: bool, now: int, t: int)
    requires Sound(lib)
    requires t <= ExpiresAt(p, rememberMe, now)
    ensures ValidateToken(p, lib, GenerateToken(p, lib, username, rememberMe, now), t) == Valid(true)
    ensures GetUsernameFromToken(p, lib, GenerateToken(p, lib, username, rememberMe, now), t) == Ok(username)
  {
  }

  /** After its `exp` the same token is answered with false, not with an exception. */
  lemma IssuedTokenRejectedAfterExpiry(p: Provider, lib: Jjwt, username: string, rememberMe: bool, now: int, t: int)
    requires Sound(lib)
    requires t > ExpiresAt(p, rememberMe, now)
    ensures ValidateToken(p, lib, GenerateToken(p, lib, username, rememberMe, now), t) == Valid(false)
  {
  }

  /** A token signed under one key but checked under another whose MAC differs is thrown out as forged. */
  lemma ForeignKeyRaises(p: Provider, q: Provider, lib: Jjwt, username: string, rememberMe: bool, now: int, t: int)
    requires Sound(lib)
    requires var c := Issue(p, lib, username, rememberMe, now).ClaimsOf(); lib.mac(q.key, c) != lib.mac(p.key, c)
    ensures ValidateToken(q, lib, GenerateToken(p, lib, username, rememberMe, now), t) == Raised(SignatureMismatch)
  {
  }
}
