/** `User.toResponse`: the view of a user that the API returns. */
module UserMapper {
  import opened Wrappers
  import opened UserModel

  /** The response has no password and no roles field. */
  datatype UserResponse = UserResponse(
    id: int,
    username: Option<string>,
    email: string,
    gender: string,
    profileImage: Option<string>)

  function ToResponse(u: User): (r: UserResponse)
    ensures r.id == u.id && r.username == Some(u.username) && r.email == u.email
    ensures r.gender == u.gender && r.profileImage == u.profileImage
  {
    UserResponse(u.id, Some(u.username), u.email, u.gender, u.profileImage)
  }

  /** The response does not depend on the stored password or the roles. */
  lemma ResponseHidesCredentials(u: User, password: Option<string>, roles: set<string>)
    ensures ToResponse(u.(password := password, roles := roles)) == ToResponse(u)
  {
  }
}
