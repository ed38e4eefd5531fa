/** The request and token schemas: the registration body's username validator and
    password length constraint, and the token payload with its optional user id. */
module UserSchema {
  import opened Wrappers

  const MinUsernameLength: nat := 3
  const MinPasswordLength: nat := 6
  const UsernameTooShort: string := "Username must be at least 3 characters"
  const UsernameNotAlphanumeric: string := "Username must contain only alphanumeric characters"
  const UserIdClaim: string := "user_id"

  /** `str.isalnum` for one character, on the ASCII letters and digits. */
  predicate IsAlnumChar(c: char) {
    ('a' <= c <= 'z') || ('A' <= c <= 'Z') || ('0' <= c <= '9')
  }

  /** `str.isalnum`: false for the empty string. */
  predicate IsAlnum(s: string) {
    s != [] && forall i :: 0 <= i < |s| ==> IsAlnumChar(s[i])
  }

  /** `UserCreate.username_must_be_valid`: the length check first, then the character check;
      an accepted username is returned unchanged. */
  function ValidateUsername(v: string): (r: Result<string, string>)
    ensures r.Ok? <==> |v| >= MinUsernameLength && IsAlnum(v)
    ensures r.Ok? ==> r.value == v
    ensures |v| < MinUsernameLength ==> r == Err(UsernameTooShort)
    ensures |v| >= MinUsernameLength && !IsAlnum(v) ==> r == Err(UsernameNotAlphanumeric)
  {
    if |v| < MinUsernameLength then Err(UsernameTooShort)
    else if !IsAlnum(v) then Err(UsernameNotAlphanumeric)
    else Ok(v)
  }

  /** A registration body that passed validation. */
  datatype UserCreate = UserCreate(username: string, email: string, password: string)

  /** One failed field of a registration body. */
  datatype FieldError = UsernameInvalid(message: string) | EmailInvalid | PasswordTooShort

  /** Validation of a registration body: every field is checked and every failure reported,
      in field order. `parseEmail` stands for the `EmailStr` type: the address as it
      normalises it, or `None` when the text is not an address. */
  function ValidateUserCreate(username: string, email: string, password: string, parseEmail: string -> Option<string>)
    : (r: Result<UserCreate, seq<FieldError>>)
    ensures r.Ok? <==> ValidateUsername(username).Ok? && parseEmail(email).Some? && |password| >= MinPasswordLength
    ensures r.Ok? ==> r.value == UserCreate(username, parseEmail(email).value, password)
    ensures r.Err? ==>
      && (ValidateUsername(username).Err? ==> UsernameInvalid(ValidateUsername(username).error) in r.error)
      && (ValidateUsername(username).Ok? ==> forall e :: e in r.error ==> !e.UsernameInvalid?)
      && (parseEmail(email).None? <==> EmailInvalid in r.error)
      && (|password| < MinPasswordLength <==> PasswordTooShort in r.error)
  {
    var errors :=
      (if ValidateUsername(username).Err? then [UsernameInvalid(ValidateUsername(username).error)] else []) +
      (if parseEmail(email).None? then [EmailInvalid] else []) +
      (if |password| < MinPasswordLength then [PasswordTooShort] else []);
    if errors == [] then Ok(UserCreate(username, parseEmail(email).value, password)) else Err(errors)
  }

  /** The decoded token payload as `TokenData(**payload)` reads it: `user_id` when the claim
      is present, `None` by default. Claims other than `user_id` are ignored. */
  datatype TokenData = TokenData(userId: Option<int>)

  function TokenDataOf(claims: map<string, int>): (r: TokenData)
    ensures UserIdClaim in claims <==> r.userId.Some?
    ensures r.userId.Some? ==> r.userId.value == claims[UserIdClaim]
  {
    if UserIdClaim in claims then TokenData(Some(claims[UserIdClaim])) else TokenData(None)
  }

  /** A payload without the `user_id` claim, whatever else it holds, decodes to no user. */
  lemma MissingClaimDefaultsToNone(claims: map<string, int>, other: string, value: int)
    requires UserIdClaim !in claims && other != UserIdClaim
    ensures TokenDataOf(claims[other := value]).userId == None
  {
  }

  /** Usernames of three or more characters that are not alphanumeric, such as "ab!",
      are refused with the character message, not the length message. */
  lemma LengthCheckedFirst()
    ensures ValidateUsername("ab") == Err(UsernameTooShort)
    ensures ValidateUsername("a!") == Err(UsernameTooShort)
    ensures ValidateUsername("ab!") == Err(UsernameNotAlphanumeric)
    ensures ValidateUsername("abc1") == Ok("abc1")
  {
    assert !IsAlnumChar("ab!"[2]);
  }
}
