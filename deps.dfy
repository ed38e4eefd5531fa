/** The authentication dependencies every protected endpoint runs first: decode the bearer
    token, read its user id, look the user up, and require the user to be active. Token
    decoding (signature, expiry, algorithm) is the parameter `decode`. */
module Deps {
  import opened Wrappers
  import opened Models
  import opened UserSchema
  import Seqs

  const CredentialsError: HttpError := HttpError(401, "Could not validate credentials")
  const InactiveUser: HttpError := HttpError(400, "Inactive user")

  /** The position of the first user with identifier `id`. */
  function FindUser(users: seq<UserRow>, id: int): (r: Option<nat>)
    ensures r.Some? ==> r.value < |users| && users[r.value].id == id
    ensures r.Some? ==> forall j :: 0 <= j < r.value ==> users[j].id != id
    ensures r.None? <==> forall j :: 0 <= j < |users| ==> users[j].id != id
  {
    Seqs.FirstIndex(users, (u: UserRow) => u.id == id)
  }

  /** The user id a token names: `None` when it does not decode or has no `user_id`. */
  function TokenUserId(token: string, decode: string -> Option<map<string, int>>): (r: Option<int>)
    ensures r.Some? <==> decode(token).Some? && UserIdClaim in decode(token).value
    ensures r.Some? ==> r.value == decode(token).value[UserIdClaim]
  {
    match decode(token)
    case None => None
    case Some(claims) => TokenDataOf(claims).userId
  }

  /** `get_current_user`: any failure (a token that does not decode, no user id in it, no
      such user) is the same 401 error; success is the stored user, unchanged. */
  function GetCurrentUser(users: seq<UserRow>, token: string, decode: string -> Option<map<string, int>>)
    : (r: Result<UserRow, HttpError>)
    ensures r.Ok? <==> TokenUserId(token, decode).Some? && FindUser(users, TokenUserId(token, decode).value).Some?
    ensures r.Ok? ==> r.value in users && r.value.id == TokenUserId(token, decode).value
    ensures r.Err? ==> r.error == CredentialsError
  {
    match TokenUserId(token, decode)
    case None => Err(CredentialsError)
    case Some(id) =>
      match FindUser(users, id)
      case None => Err(CredentialsError)
      case Some(k) => Ok(users[k])
  }

  /** `get_current_active_user`: the current user when active, 400 "Inactive user" when not,
      and the credentials error passed through. */
  function GetCurrentActiveUser(users: seq<UserRow>, token: string, decode: string -> Option<map<string, int>>)
    : (r: Result<UserRow, HttpError>)
    ensures r.Ok? <==> GetCurrentUser(users, token, decode).Ok? && GetCurrentUser(users, token, decode).value.isActive
    ensures r.Ok? ==> r == GetCurrentUser(users, token, decode)
    ensures GetCurrentUser(users, token, decode).Err? ==> r == GetCurrentUser(users, token, decode)
    ensures r.Err? ==> r.error == CredentialsError || r.error == InactiveUser
    ensures GetCurrentUser(users, token, decode).Ok? && !GetCurrentUser(users, token, decode).value.isActive ==>
      r == Err(InactiveUser)
  {
    match GetCurrentUser(users, token, decode)
    case Err(e) => Err(e)
    case Ok(user) => if !user.isActive then Err(InactiveUser) else Ok(user)
  }

  /** With distinct user ids (the database invariant), a token admits exactly the active
      user whose id it names. */
  lemma AdmitsNamedActiveUser(users: seq<UserRow>, token: string, decode: string -> Option<map<string, int>>, u: UserRow)
    requires forall i, j :: 0 <= i < j < |users| ==> users[i].id != users[j].id
    ensures GetCurrentActiveUser(users, token, decode) == Ok(u) <==>
      u in users && u.isActive && TokenUserId(token, decode) == Some(u.id as int)
  {
    if u in users && u.isActive && TokenUserId(token, decode) == Some(u.id as int) {
      var k :| 0 <= k < |users| && users[k] == u;
      assert forall i :: 0 <= i < |users| && users[i].id == u.id ==> i == k;
    }
  }
}
