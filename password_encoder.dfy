/**
 * The BCrypt password encoder the security configuration installs, seen
 * from outside: a salted one-way `encode` and a `matches` check. The salt
 * BCrypt draws at random is a parameter here.
 */
module PasswordEncoding {
  import opened Wrappers

  type Salt = nat

  datatype PasswordEncoder = PasswordEncoder(
    encode: (string, Salt) -> string,
    matches: (string, string) -> bool)

  /** What BCrypt guarantees: a password matches every hash made from it. */
  ghost predicate Sound(enc: PasswordEncoder) {
    forall raw, salt :: enc.matches(raw, enc.encode(raw, salt))
  }

  /**
   * `matches(raw, stored)` where the entity may hold a null hash; BCrypt
   * answers false for a missing hash.
   */
  function MatchesStored(enc: PasswordEncoder, raw: string, stored: Option<string>): (r: bool)
    ensures r <==> stored.Some? && enc.matches(raw, stored.value)
  {
    match stored
    case None => false
    case Some(hash) => enc.matches(raw, hash)
  }

  lemma EncodedMatches(enc: PasswordEncoder, raw: string, salt: Salt)
    requires Sound(enc)
    ensures MatchesStored(enc, raw, Some(enc.encode(raw, salt)))
  {
  }
}
