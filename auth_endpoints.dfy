/** The authentication endpoints: registration with its uniqueness checks, login, and the
    current-user endpoint. Password hashing, `authenticate_user` and token creation are
    parameters. */
module AuthEndpoints {
  import opened Wrappers
  import opened Models
  import opened UserSchema
  import opened Deps

  const EmailTaken: HttpError := HttpError(400, "A user with this email already exists")
  const UsernameTaken: HttpError := HttpError(400, "Username already taken")
  const BadLogin: HttpError := HttpError(401, "Incorrect email or password")
  const BearerType: string := "bearer"

  datatype Token = Token(accessToken: string, tokenType: string)

  predicate EmailInUse(users: seq<UserRow>, email: string) {
    exists i :: 0 <= i < |users| && users[i].email == email
  }

  predicate UsernameInUse(users: seq<UserRow>, username: string) {
    exists i :: 0 <= i < |users| && users[i].username == username
  }

  /** `register`: a known email is refused first, then a taken username; otherwise exactly one
      active user is appended, holding the hash of the password. */
  method Register(db: Database, userIn: UserCreate, hash: string -> string) returns (r: Result<UserRow, HttpError>)
    requires db.Valid()
    modifies db
    ensures db.Valid()
    ensures EmailInUse(old(db.users), userIn.email) ==>
      r == Err(EmailTaken) && db.users == old(db.users) && db.nextUserId == old(db.nextUserId)
    ensures !EmailInUse(old(db.users), userIn.email) && UsernameInUse(old(db.users), userIn.username) ==>
      r == Err(UsernameTaken) && db.users == old(db.users) && db.nextUserId == old(db.nextUserId)
    ensures !EmailInUse(old(db.users), userIn.email) && !UsernameInUse(old(db.users), userIn.username) ==>
      && r == Ok(UserRow(old(db.nextUserId), userIn.email, userIn.username, hash(userIn.password), true))
      && db.users == old(db.users) + [r.value]
      && db.nextUserId == old(db.nextUserId) + 1
    ensures db.chats == old(db.chats) && db.messages == old(db.messages)
    ensures db.nextChatId == old(db.nextChatId) && db.nextMessageId == old(db.nextMessageId)
  {
    if EmailInUse(db.users, userIn.email) {
      return Err(EmailTaken);
    }
    if UsernameInUse(db.users, userIn.username) {
      return Err(UsernameTaken);
    }
    var user := UserRow(db.nextUserId, userIn.email, userIn.username, hash(userIn.password), true);
    ChatsValidMoreUsers(db.users, [user], db.chats, db.nextChatId);
    db.users := db.users + [user];
    db.nextUserId := db.nextUserId + 1;
    r := Ok(user);
  }

  /** `login`: the form's `username` field carries the email. A failed authentication is a 401;
      otherwise a bearer token for the user's id. */
  function Login(users: seq<UserRow>, formUsername: string, password: string,
                 authenticate: (seq<UserRow>, string, string) -> Option<UserRow>,
                 createToken: nat -> string): (r: Result<Token, HttpError>)
    ensures r.Err? <==> authenticate(users, formUsername, password).None?
    ensures r.Err? ==> r.error == BadLogin
    ensures r.Ok? ==>
      && r.value.tokenType == BearerType
      && r.value.accessToken == createToken(authenticate(users, formUsername, password).value.id)
  {
    match authenticate(users, formUsername, password)
    case None => Err(BadLogin)
    case Some(user) => Ok(Token(createToken(user.id), BearerType))
  }

  /** `/me`: the active user the token names, as stored, or the dependency's error. */
  function ReadUsersMe(users: seq<UserRow>, token: string, decode: string -> Option<map<string, int>>)
    : (r: Result<UserRow, HttpError>)
    ensures r.Ok? ==> r.value in users && r.value.isActive && Some(r.value.id as int) == TokenUserId(token, decode)
    ensures r.Err? ==> r.error == CredentialsError || r.error == InactiveUser
    ensures TokenUserId(token, decode).None? ==> r == Err(CredentialsError)
    ensures TokenUserId(token, decode).Some? && FindUser(users, TokenUserId(token, decode).value).None? ==>
      r == Err(CredentialsError)
    ensures TokenUserId(token, decode).Some? && FindUser(users, TokenUserId(token, decode).value).Some? ==>
      var u := users[FindUser(users, TokenUserId(token, decode).value).value];
      r == (if u.isActive then Ok(u) else Err(InactiveUser))
  {
    GetCurrentActiveUser(users, token, decode)
  }
}
