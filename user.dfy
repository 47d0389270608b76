/**
 * The `User` entity: a row of the users table and the Spring Security
 * `UserDetails` view of it.
 */
module UserModel {
  import opened Wrappers

  /** `SimpleGrantedAuthority`: an authority named by a role string. */
  datatype GrantedAuthority = SimpleGrantedAuthority(authority: string)

  /** The role every new user is given. */
  const RoleUser: string := "ROLE_USER"

  /**
   * One user. `id` is 0 until the database assigns one; `password` holds the
   * encoded password and is nullable in the entity; `username` is a unique,
   * non-null column.
   */
  datatype User = User(
    id: int,
    username: string,
    password: Option<string>,
    email: string,
    gender: string,
    roles: set<string>,
    profileImage: Option<string>)

  /** The primary constructor with its declared defaults for id, roles and profile image. */
  function NewUser(username: string, email: string, password: Option<string>, gender: string): (u: User)
    ensures u.id == 0 && u.roles == {RoleUser} && u.profileImage == None
    ensures u.username == username && u.email == email && u.password == password && u.gender == gender
  {
    User(0, username, password, email, gender, {RoleUser}, None)
  }

  /** One `SimpleGrantedAuthority` per role of the user. */
  function GetAuthorities(u: User): (r: set<GrantedAuthority>)
    ensures forall a :: a in r <==> a.authority in u.roles
    ensures |r| == |u.roles|
  {
    var r := set role | role in u.roles :: SimpleGrantedAuthority(role);
    AuthorityCount(u.roles);
    r
  }

  lemma {:induction false} AuthorityCount(roles: set<string>)
    ensures |set role | role in roles :: SimpleGrantedAuthority(role)| == |roles|
  {
    if roles != {} {
      var x :| x in roles;
      var rest := roles - {x};
      AuthorityCount(rest);
      var all := set role | role in roles :: SimpleGrantedAuthority(role);
      var fewer := set role | role in rest :: SimpleGrantedAuthority(role);
      assert all == fewer + {SimpleGrantedAuthority(x)};
      assert SimpleGrantedAuthority(x) !in fewer;
    }
  }

  /**
   * The four `UserDetails` status checks: account not expired, not locked,
   * credentials not expired, enabled. The entity answers true to each.
   */
  predicate IsAccountNonExpired(u: User) { true }
  predicate IsAccountNonLocked(u: User) { true }
  predicate IsCredentialsNonExpired(u: User) { true }
  predicate IsEnabled(u: User) { true }

  /**
   * `changePassword`: stores an (already encoded) password and changes nothing
   * else. The entity's parameter is nullable; its only caller passes the
   * encoder's result, which is never null, so the model takes a plain string.
   */
  function ChangePassword(u: User, newPassword: string): (r: User)
    ensures r.password == Some(newPassword)
    ensures r.(password := u.password) == u
  {
    u.(password := Some(newPassword))
  }

  /** `updateUsername`: replaces the username and changes nothing else. */
  function UpdateUsername(u: User, newUsername: string): (r: User)
    ensures r.username == newUsername
    ensures r.(username := u.username) == u
  {
    u.(username := newUsername)
  }
}
