/**
 * `UserServiceImpl`: registration, profile and password changes, profile
 * images, and the lookups the security layer uses, over the users table.
 */
module UserServiceImpl {
  import opened Wrappers
  import opened Text
  import opened UserModel
  import opened UserMapper
  import opened PasswordEncoding
  import opened Repositories

  /** `RegisterRequest` carries the four fields the service reads. */
  datatype RegisterRequest = RegisterRequest(username: string, email: string, password: string, gender: string)

  datatype UpdateProfileRequest = UpdateProfileRequest(
    username: string, email: string, gender: string, profileImage: Option<string>)

  datatype ChangePasswordRequest = ChangePasswordRequest(currentPassword: string, newPassword: string)

  /** What the service reads of an uploaded `MultipartFile`. */
  datatype MultipartFile = MultipartFile(isEmpty: bool, contentType: Option<string>, originalFilename: Option<string>)

  const UsernameTaken: string := "Username is already taken!"
  const EmailInUse: string := "Email is already in use!"
  const PasswordIncorrect: string := "Password is incorrect!"
  const FileEmpty: string := "File is empty"
  const NotAnImage: string := "File must be a image!"
  const NoUploadDirectory: string := "Could not create upload directory"
  /**
   * A placeholder for the database's refusal to store a second row with the
   * same username: the real message comes from the JDBC driver and Hibernate.
   */
  const DuplicateUsername: string := "could not execute statement: duplicate key value violates unique constraint on username"

  function NotFound(id: int): string {
    "User with id " + IntToString(id) + " not found"
  }

  function ExistsByUsername(users: seq<User>, username: string): (b: bool)
    ensures b <==> exists j :: 0 <= j < |users| && users[j].username == username
  {
    UsernameIndex(users, username).Some?
  }

  function ExistsByEmail(users: seq<User>, email: string): (b: bool)
    ensures b <==> exists j :: 0 <= j < |users| && users[j].email == email
  {
    IndexWhere(users, (u: User) => u.email == email).Some?
  }

  /** Some row other than row `k` already has `username`. */
  predicate TakenByOther(users: seq<User>, k: nat, username: string) {
    exists j :: 0 <= j < |users| && j != k && users[j].username == username
  }

  function FindAll(users: seq<User>): (r: seq<UserResponse>)
    ensures |r| == |users|
    ensures forall i :: 0 <= i < |users| ==> r[i] == ToResponse(users[i])
  {
    if users == [] then [] else [ToResponse(users[0])] + FindAll(users[1..])
  }

  function FindById(users: seq<User>, id: int): (r: Result<UserResponse, string>)
    ensures r.Err? <==> forall j :: 0 <= j < |users| ==> users[j].id != id
    ensures r.Err? ==> r.error == NotFound(id)
    ensures r.Ok? ==> exists j :: 0 <= j < |users| && users[j].id == id && r.value == ToResponse(users[j])
  {
    match UserIndex(users, id)
    case None => Err(NotFound(id))
    case Some(k) => Ok(ToResponse(users[k]))
  }

  /** `loadUserByUsername`: the stored user with this username, or `UsernameNotFoundException`. */
  function LoadUserByUsername(users: seq<User>, username: string): (r: Result<User, string>)
    ensures r.Ok? <==> exists j :: 0 <= j < |users| && users[j].username == username
    ensures r.Ok? ==> r.value in users && r.value.username == username
    ensures r.Err? ==> r.error == "User not found with username: " + username
  {
    match UsernameIndex(users, username)
    case None => Err("User not found with username: " + username)
    case Some(k) => Ok(users[k])
  }

  /** `findByUsername`: null for a null username, otherwise the stored user if any. */
  function FindByUsername(users: seq<User>, username: Option<string>): (r: Option<User>)
    ensures username.None? ==> r.None?
    ensures username.Some? ==> (r.Some? <==> exists j :: 0 <= j < |users| && users[j].username == username.value)
    ensures r.Some? ==> r.value in users && r.value.username == username.value
  {
    match username
    case None => None
    case Some(name) =>
      match UsernameIndex(users, name)
      case None => None
      case Some(k) => Some(users[k])
  }

  /** With unique usernames the lookup finds THE user of that name. */
  lemma LookupUnique(users: seq<User>, k: nat)
    requires UniqueUsernames(users) && k < |users|
    ensures LoadUserByUsername(users, users[k].username) == Ok(users[k])
    ensures FindByUsername(users, Some(users[k].username)) == Some(users[k])
  {
    var j := UsernameIndex(users, users[k].username).value;
    assert j == k;
  }

  /** The profile update: username, email and gender from the request; nothing else changes. */
  function ApplyProfile(u: User, req: UpdateProfileRequest): (r: User)
    ensures r.username == req.username && r.email == req.email && r.gender == req.gender
    ensures r.id == u.id && r.password == u.password && r.roles == u.roles
    ensures r.profileImage == u.profileImage
  {
    UpdateUsername(u, req.username).(email := req.email, gender := req.gender)
  }

  /** The stored name of an uploaded image: a random id, a dash and the original name or "image". */
  function UploadedFileName(uuid: string, file: MultipartFile): (name: string)
    ensures StartsWith(name, uuid + "-")
    ensures name[|uuid| + 1..] == if file.originalFilename.Some? then file.originalFilename.value else "image"
  {
    var originalName := if file.originalFilename.Some? then file.originalFilename.value else "image";
    uuid + "-" + originalName
  }

  /** Why an upload is refused, checked in this order, or None when it is accepted. */
  function UploadRejection(file: MultipartFile, uploadDirectoryReady: bool): (r: Option<string>)
    ensures file.isEmpty ==> r == Some(FileEmpty)
    ensures !file.isEmpty && !(file.contentType.Some? && StartsWith(file.contentType.value, "image/")) ==> r == Some(NotAnImage)
    ensures r.None? <==> !file.isEmpty && file.contentType.Some? && StartsWith(file.contentType.value, "image/") && uploadDirectoryReady
  {
    if file.isEmpty then Some(FileEmpty)
    else if !(file.contentType.Some? && StartsWith(file.contentType.value, "image/")) then Some(NotAnImage)
    else if !uploadDirectoryReady then Some(NoUploadDirectory)
    else None
  }

  lemma AppendUserKeepsValid(users: seq<User>, next: int, u: User)
    requires UserIdsValid(users, next) && UniqueUsernames(users)
    requires u.id == next && next >= 1
    requires !ExistsByUsername(users, u.username)
    ensures UserIdsValid(users + [u], next + 1) && UniqueUsernames(users + [u])
  {
  }

  lemma AppendUserKeepsEmailsUnique(users: seq<User>, u: User)
    requires UniqueEmails(users) && !ExistsByEmail(users, u.email)
    ensures UniqueEmails(users + [u])
  {
  }

  lemma ReplaceUserKeepsValid(users: seq<User>, next: int, k: nat, u: User)
    requires UserIdsValid(users, next) && UniqueUsernames(users) && k < |users|
    requires u.id == users[k].id && !TakenByOther(users, k, u.username)
    ensures UserIdsValid(users[k := u], next) && UniqueUsernames(users[k := u])
  {
  }

  lemma RemoveUserKeepsValid(users: seq<User>, next: int, k: nat)
    requires UserIdsValid(users, next) && UniqueUsernames(users) && k < |users|
    ensures UserIdsValid(users[..k] + users[k + 1..], next) && UniqueUsernames(users[..k] + users[k + 1..])
  {
    var rest := users[..k] + users[k + 1..];
    assert forall i :: 0 <= i < |rest| ==> rest[i] == users[if i < k then i else i + 1];
  }

  /**
   * `registerUser`: refuses a taken username, then a taken email; otherwise
   * stores a new user with the encoded password, the role ROLE_USER and the
   * next id, and returns it.
   */
  method RegisterUser(db: Database, enc: PasswordEncoder, salt: Salt, req: RegisterRequest) returns (r: Result<User, string>)
    requires db.Valid()
    modifies db`users, db`nextUserId
    ensures db.Valid()
    ensures ExistsByUsername(old(db.users), req.username) ==> r == Err(UsernameTaken)
    ensures !ExistsByUsername(old(db.users), req.username) && ExistsByEmail(old(db.users), req.email) ==> r == Err(EmailInUse)
    ensures r.Err? ==> db.users == old(db.users) && db.nextUserId == old(db.nextUserId)
    ensures !ExistsByUsername(old(db.users), req.username) && !ExistsByEmail(old(db.users), req.email) ==>
      && r == Ok(NewUser(req.username, req.email, Some(enc.encode(req.password, salt)), req.gender).(id := old(db.nextUserId)))
      && db.users == old(db.users) + [r.value]
      && db.nextUserId == old(db.nextUserId) + 1
    ensures old(UniqueEmails(db.users)) ==> UniqueEmails(db.users)
  {
    if ExistsByUsername(db.users, req.username) {
      return Err(UsernameTaken);
    }
    if ExistsByEmail(db.users, req.email) {
      return Err(EmailInUse);
    }
    var user := NewUser(req.username, req.email, Some(enc.encode(req.password, salt)), req.gender);
    user := user.(id := db.nextUserId);
    AppendUserKeepsValid(db.users, db.nextUserId, user);
    if UniqueEmails(db.users) {
      AppendUserKeepsEmailsUnique(db.users, user);
    }
    db.users := db.users + [user];
    db.nextUserId := db.nextUserId + 1;
    r := Ok(user);
  }

  /**
   * `updateProfile`: sets username, email and gender of the user with this
   * id and saves it; the database refuses a username another user has.
   */
  method UpdateProfile(db: Database, req: UpdateProfileRequest, id: int) returns (r: Result<UserResponse, string>)
    requires db.Valid()
    modifies db`users
    ensures db.Valid()
    ensures UserIndex(old(db.users), id).None? ==> r == Err(NotFound(id)) && db.users == old(db.users)
    ensures UserIndex(old(db.users), id).Some? ==>
      var k := UserIndex(old(db.users), id).value;
      var u := ApplyProfile(old(db.users)[k], req);
      if TakenByOther(old(db.users), k, req.username) then
        r == Err(DuplicateUsername) && db.users == old(db.users)
      else
        r == Ok(ToResponse(u)) && db.users == old(db.users)[k := u]
  {
    var found := UserIndex(db.users, id);
    if found.None? {
      return Err(NotFound(id));
    }
    var k := found.value;
    var user := ApplyProfile(db.users[k], req);
    if TakenByOther(db.users, k, user.username) {
      return Err(DuplicateUsername);
    }
    ReplaceUserKeepsValid(db.users, db.nextUserId, k, user);
    db.users := db.users[k := user];
    r := Ok(ToResponse(user));
  }

  /**
   * `changePassword`: refuses a current password that does not match the
   * stored hash; otherwise stores the encoded new password.
   */
  method ChangePassword(db: Database, enc: PasswordEncoder, salt: Salt, req: ChangePasswordRequest, id: int)
    returns (r: Result<UserResponse, string>)
    requires db.Valid()
    modifies db`users
    ensures db.Valid()
    ensures UserIndex(old(db.users), id).None? ==> r == Err(NotFound(id)) && db.users == old(db.users)
    ensures UserIndex(old(db.users), id).Some? ==>
      var k := UserIndex(old(db.users), id).value;
      var u := old(db.users)[k];
      if !MatchesStored(enc, req.currentPassword, u.password) then
        r == Err(PasswordIncorrect) && db.users == old(db.users)
      else
        var changed := UserModel.ChangePassword(u, enc.encode(req.newPassword, salt));
        r == Ok(ToResponse(changed)) && db.users == old(db.users)[k := changed]
          && (Sound(enc) ==> MatchesStored(enc, req.newPassword, db.users[k].password))
  {
    var found := UserIndex(db.users, id);
    if found.None? {
      return Err(NotFound(id));
    }
    var k := found.value;
    var user := db.users[k];
    if !MatchesStored(enc, req.currentPassword, user.password) {
      return Err(PasswordIncorrect);
    }
    user := UserModel.ChangePassword(user, enc.encode(req.newPassword, salt));
    ReplaceUserKeepsValid(db.users, db.nextUserId, k, user);
    db.users := db.users[k := user];
    r := Ok(ToResponse(user));
  }

  /** `deleteById`: removes the user with this id; an unknown id changes nothing. */
  method DeleteById(db: Database, id: int)
    requires db.Valid()
    modifies db`users
    ensures db.Valid()
    ensures UserIndex(old(db.users), id).None? ==> db.users == old(db.users)
    ensures UserIndex(old(db.users), id).Some? ==>
      var k := UserIndex(old(db.users), id).value;
      db.users == old(db.users)[..k] + old(db.users)[k + 1..]
    ensures forall j :: 0 <= j < |db.users| ==> db.users[j].id != id
  {
    var found := UserIndex(db.users, id);
    if found.Some? {
      var k := found.value;
      RemoveUserKeepsValid(db.users, db.nextUserId, k);
      db.users := db.users[..k] + db.users[k + 1..];
    }
  }

  /**
   * `uploadProfileImage`: after the user lookup, refuses an empty file, then
   * a content type that is not an image, then a missing upload directory;
   * otherwise records the stored file name as the user's profile image.
   */
  method UploadProfileImage(db: Database, id: int, file: MultipartFile, uploadDirectoryReady: bool, uuid: string)
    returns (r: Result<UserResponse, string>)
    requires db.Valid()
    modifies db`users
    ensures db.Valid()
    ensures UserIndex(old(db.users), id).None? ==> r == Err(NotFound(id)) && db.users == old(db.users)
    ensures UserIndex(old(db.users), id).Some? ==>
      var k := UserIndex(old(db.users), id).value;
      match UploadRejection(file, uploadDirectoryReady)
      case Some(why) => r == Err(why) && db.users == old(db.users)
      case None =>
        var u := old(db.users)[k].(profileImage := Some(UploadedFileName(uuid, file)));
        r == Ok(ToResponse(u)) && db.users == old(db.users)[k := u]
  {
    var found := UserIndex(db.users, id);
    if found.None? {
      return Err(NotFound(id));
    }
    var k := found.value;
    var rejection := UploadRejection(file, uploadDirectoryReady);
    if rejection.Some? {
      return Err(rejection.value);
    }
    var user := db.users[k].(profileImage := Some(UploadedFileName(uuid, file)));
    ReplaceUserKeepsValid(db.users, db.nextUserId, k, user);
    db.users := db.users[k := user];
    r := Ok(ToResponse(user));
  }
}
