/** The login form: field validation, then `loginStart`, the login request, storing the
    token, the `getMe` request and the success or failure event. */
module LoginPage {
  import opened Wrappers
  import opened Api
  import opened AuthEvents
  import opened FormRules

  const InvalidCredentials: string := "Invalid credentials"
  const UserInfoFailed: string := "Successfully logged in but failed to get user info"
  const LoginSucceeded: string := "Login successful."
  const UserInfoFailedAlert: string := "Login succeeded but failed to get your account information. Please try again."
  const LoginFailedPrefix: string := "Login failed: "

  /** The trace of a submission that passed validation, given the outcome of the login
      request (the access token) and of the `getMe` request (the user's fields). */
  function LoginEffects(email: string, password: string, login: Response<string>, me: Response<UserInfo>): seq<Effect> {
    var start := [Dispatch(LoginStart), Request(Login(email, password))];
    match login
    case Rejected(detail) =>
      var message := DetailOr(detail, InvalidCredentials);
      start + [Dispatch(LoginFailure(message)), Alert(LoginFailedPrefix + message)]
    case Resolved(token) =>
      start + [SaveToken(token), Request(GetMe)] +
      match me
      case Resolved(user) => [Dispatch(LoginSuccess(user, token)), Alert(LoginSucceeded), Navigate(ChatRoute)]
      case Rejected(_) => [Dispatch(LoginFailure(UserInfoFailed)), Alert(UserInfoFailedAlert)]
  }

  /** The login page's form state. */
  class Component {
    var email: string
    var password: string
    var emailError: string
    var passwordError: string

    constructor ()
      ensures email == "" && password == "" && emailError == "" && passwordError == ""
    {
      email, password, emailError, passwordError := "", "", "", "";
    }

    /** `validateForm`: both fields are checked every time, each error is set (or cleared),
        and the form is valid exactly when neither field has an error. */
    method ValidateForm() returns (isValid: bool)
      modifies this
      ensures emailError == EmailError(email) && passwordError == PasswordError(password)
      ensures isValid <==> emailError == "" && passwordError == ""
      ensures email == old(email) && password == old(password)
    {
      isValid := true;
      emailError := EmailError(email);
      if emailError != "" {
        isValid := false;
      }
      passwordError := PasswordError(password);
      if passwordError != "" {
        isValid := false;
      }
    }

    /** `handleSubmit`: an invalid form ends the submission with no event and no request. */
    method HandleSubmit(login: Response<string>, me: Response<UserInfo>) returns (effects: seq<Effect>)
      modifies this
      ensures emailError == EmailError(email) && passwordError == PasswordError(password)
      ensures email == old(email) && password == old(password)
      ensures !(emailError == "" && passwordError == "") ==> effects == []
      ensures emailError == "" && passwordError == "" ==> effects == LoginEffects(email, password, login, me)
    {
      var isValid := ValidateForm();
      if !isValid {
        return [];
      }
      effects := [Dispatch(LoginStart), Request(Login(email, password))];
      if login.Rejected? {
        var message := DetailOr(login.detail, InvalidCredentials);
        effects := effects + [Dispatch(LoginFailure(message)), Alert(LoginFailedPrefix + message)];
        return;
      }
      var token := login.data;
      effects := effects + [SaveToken(token)];
      effects := effects + [Request(GetMe)];
      if me.Resolved? {
        var user := UserInfo(me.data.id, me.data.email, me.data.username);
        effects := effects + [Dispatch(LoginSuccess(user, token)), Alert(LoginSucceeded), Navigate(ChatRoute)];
      } else {
        effects := effects + [Dispatch(LoginFailure(UserInfoFailed)), Alert(UserInfoFailedAlert)];
      }
    }
  }

  /** Every submission that passed validation starts with `loginStart` and the login request
      with the form's own email and password, and ends with exactly one outcome event. */
  lemma LoginStartsAndEndsOnce(email: string, password: string, login: Response<string>, me: Response<UserInfo>)
    ensures var e := LoginEffects(email, password, login, me);
      && |e| >= 4 && e[0] == Dispatch(LoginStart) && e[1] == Request(Login(email, password))
      && (login.Resolved? && me.Resolved? <==> exists k :: 0 <= k < |e| && e[k].Dispatch? && e[k].event.LoginSuccess?)
      && (forall k :: 2 <= k < |e| && e[k].Dispatch? ==> !e[k].event.LoginStart?)
  {
    var e := LoginEffects(email, password, login, me);
    if login.Resolved? && me.Resolved? {
      assert e[4].Dispatch? && e[4].event.LoginSuccess?;
    }
  }

  /** A rejected login reports the server's detail, or "Invalid credentials" when it has none,
      and sends nothing more. */
  lemma RejectedLoginReportsDetail(email: string, password: string, detail: Option<string>, me: Response<UserInfo>)
    ensures var e := LoginEffects(email, password, Rejected(detail), me);
      && |e| == 4
      && e[2] == Dispatch(LoginFailure(if detail.Some? && detail.value != "" then detail.value else InvalidCredentials))
      && forall k :: 0 <= k < |e| ==> e[k] != Request(GetMe) && !e[k].SaveToken?
  {
  }

  /** Once the login request succeeded, the token is stored before `getMe` is requested, and
      a failing `getMe` reports the fixed message, leaving the stored token in place. */
  lemma TokenStoredBeforeGetMe(email: string, password: string, token: string, me: Response<UserInfo>)
    ensures var e := LoginEffects(email, password, Resolved(token), me);
      && IndexOf(e, SaveToken(token)) < IndexOf(e, Request(GetMe)) < |e|
      && (me.Rejected? ==> e[|e| - 2] == Dispatch(LoginFailure(UserInfoFailed)))
      && (me.Resolved? ==> e[4] == Dispatch(LoginSuccess(me.data, token)))
  {
    var e := LoginEffects(email, password, Resolved(token), me);
    assert e[2] == SaveToken(token) && e[3] == Request(GetMe);
    assert IndexOf(e, SaveToken(token)) == 2;
    assert e[..4][2] == SaveToken(token);
    assert IndexOf(e, Request(GetMe)) == 3;
  }
}
