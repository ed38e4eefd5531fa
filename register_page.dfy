/** The registration form: four field checks, then `registerStart`, the register request,
    a login request with the same credentials and the success or failure event. */
module RegisterPage {
  import opened Wrappers
  import opened Api
  import opened AuthEvents
  import opened Text
  import opened FormRules

  const UsernameRequired: string := "Username is required"
  const UsernameTooShort: string := "Username must be at least 3 characters"
  const ConfirmRequired: string := "Please confirm your password"
  const PasswordsDiffer: string := "Passwords do not match"
  const RegistrationFailed: string := "Registration failed. Please try again."
  const AccountCreated: string := "Account created successfully!"
  const RegistrationFailedPrefix: string := "Registration failed: "
  const MinUsernameLength: nat := 3

  function UsernameError(username: string): (r: string)
    ensures username == "" ==> r == UsernameRequired
    ensures username != "" && Utf16Length(username) < MinUsernameLength ==> r == UsernameTooShort
    ensures r == "" <==> Utf16Length(username) >= MinUsernameLength
  {
    if username == "" then UsernameRequired
    else if Utf16Length(username) < MinUsernameLength then UsernameTooShort
    else ""
  }

  function ConfirmError(confirm: string, password: string): (r: string)
    ensures confirm == "" ==> r == ConfirmRequired
    ensures confirm != "" && confirm != password ==> r == PasswordsDiffer
    ensures r == "" <==> confirm != "" && confirm == password
  {
    if confirm == "" then ConfirmRequired
    else if confirm != password then PasswordsDiffer
    else ""
  }

  /** The failure event and its alert, for the server's detail or the default message. */
  function Failed(detail: Option<string>): seq<Effect> {
    var message := DetailOr(detail, RegistrationFailed);
    [Dispatch(RegisterFailure(message)), Alert(RegistrationFailedPrefix + message)]
  }

  /** The trace of a submission that passed validation, given the outcome of the register
      request (the new user's fields) and of the login request that follows (the token). */
  function RegisterEffects(username: string, email: string, password: string,
                           registered: Response<UserInfo>, login: Response<string>): seq<Effect> {
    var start := [Dispatch(RegisterStart), Request(Register(username, email, password))];
    match registered
    case Rejected(detail) => start + Failed(detail)
    case Resolved(user) =>
      start + [Request(Login(email, password))] +
      match login
      case Resolved(token) => [Dispatch(RegisterSuccess(user, token)), Alert(AccountCreated), Navigate(ChatRoute)]
      case Rejected(detail) => Failed(detail)
  }

  /** The registration page's form state. */
  class Component {
    var username: string
    var email: string
    var password: string
    var confirmPassword: string
    var usernameError: string
    var emailError: string
    var passwordError: string
    var confirmPasswordError: string

    constructor ()
      ensures username == "" && email == "" && password == "" && confirmPassword == ""
      ensures usernameError == "" && emailError == "" && passwordError == "" && confirmPasswordError == ""
    {
      username, email, password, confirmPassword := "", "", "", "";
      usernameError, emailError, passwordError, confirmPasswordError := "", "", "", "";
    }

    predicate NoErrors()
      reads this
    {
      usernameError == "" && emailError == "" && passwordError == "" && confirmPasswordError == ""
    }

    /** `validateForm`: all four fields are checked every time, each error is set (or
        cleared) and clears the flag when set; the form is valid exactly when none of them
        has an error. */
    method ValidateForm() returns (isValid: bool)
      modifies this
      ensures usernameError == UsernameError(username) && emailError == EmailError(email)
      ensures passwordError == PasswordError(password) && confirmPasswordError == ConfirmError(confirmPassword, password)
      ensures isValid <==> NoErrors()
      ensures username == old(username) && email == old(email)
      ensures password == old(password) && confirmPassword == old(confirmPassword)
    {
      isValid := true;
      usernameError := UsernameError(username);
      if usernameError != "" {
        isValid := false;
      }
      emailError := EmailError(email);
      if emailError != "" {
        isValid := false;
      }
      passwordError := PasswordError(password);
      if passwordError != "" {
        isValid := false;
      }
      confirmPasswordError := ConfirmError(confirmPassword, password);
      if confirmPasswordError != "" {
        isValid := false;
      }
    }

    /** `handleSubmit`: an invalid form ends the submission with no event and no request. */
    method HandleSubmit(registered: Response<UserInfo>, login: Response<string>) returns (effects: seq<Effect>)
      modifies this
      ensures usernameError == UsernameError(username) && emailError == EmailError(email)
      ensures passwordError == PasswordError(password) && confirmPasswordError == ConfirmError(confirmPassword, password)
      ensures username == old(username) && email == old(email)
      ensures password == old(password) && confirmPassword == old(confirmPassword)
      ensures !NoErrors() ==> effects == []
      ensures NoErrors() ==> effects == RegisterEffects(username, email, password, registered, login)
    {
      var isValid := ValidateForm();
      if !isValid {
        return [];
      }
      effects := [Dispatch(RegisterStart), Request(Register(username, email, password))];
      if registered.Rejected? {
        effects := effects + Failed(registered.detail);
        return;
      }
      effects := effects + [Request(Login(email, password))];
      if login.Rejected? {
        effects := effects + Failed(login.detail);
        return;
      }
      var user := UserInfo(registered.data.id, registered.data.email, registered.data.username);
      effects := effects + [Dispatch(RegisterSuccess(user, login.data)), Alert(AccountCreated), Navigate(ChatRoute)];
    }
  }

  /** A valid form has a username of at least three characters, a password of at least six,
      and a confirmation equal to the password. */
  lemma {:induction false} ValidFormFields(username: string, email: string, password: string, confirm: string)
    requires UsernameError(username) == "" && EmailError(email) == ""
    requires PasswordError(password) == "" && ConfirmError(confirm, password) == ""
    ensures Utf16Length(username) >= 3 && Utf16Length(password) >= 6 && Utf16Length(confirm) >= 6
    ensures |username| >= 2 && |password| >= 3 && |email| >= 5
  {
    assert confirm == password;
    AcceptedEmailShape(email);
  }

  /** After a successful register request the client logs in with the same email and
      password; `registerSuccess` carries the registered user's fields and the login token. */
  lemma RegisterThenLogin(username: string, email: string, password: string, user: UserInfo, login: Response<string>)
    ensures var e := RegisterEffects(username, email, password, Resolved(user), login);
      && e[1] == Request(Register(username, email, password))
      && e[2] == Request(Login(email, password))
      && (login.Resolved? ==> e[3] == Dispatch(RegisterSuccess(user, login.data)))
      && (login.Rejected? ==> e[3] == Dispatch(RegisterFailure(DetailOr(login.detail, RegistrationFailed))))
  {
  }

  /** Any failure, of either request, ends with `registerFailure` carrying the server's detail
      or the default message, and with no navigation. */
  lemma FailureReportsDetail(username: string, email: string, password: string,
                             registered: Response<UserInfo>, login: Response<string>)
    requires registered.Rejected? || login.Rejected?
    ensures var e := RegisterEffects(username, email, password, registered, login);
      var detail := if registered.Rejected? then registered.detail else login.detail;
      && e[|e| - 2] == Dispatch(RegisterFailure(DetailOr(detail, RegistrationFailed)))
      && forall k :: 0 <= k < |e| ==> !e[k].Navigate?
  {
  }
}
