/** The field rules the login and registration forms share: an email must be present and
    match `/\S+@\S+\.\S+/`, a password must be present and at least six characters long,
    counted as JavaScript counts them, in UTF-16 units. */
module FormRules {
  import opened Text

  const EmailRequired: string := "Email is required"
  const EmailInvalid: string := "Email is invalid"
  const PasswordRequired: string := "Password is required"
  const PasswordTooShort: string := "Password must be at least 6 characters"
  const MinPasswordLength: nat := 6

  /** `/\S+@\S+\.\S+/.test(s)`: somewhere in `s` there is a non-space, an `@` at `at`, a
      non-empty run of non-spaces, a `.` at `dot` and one more non-space. The runs may be
      longer, but a match exists exactly when the shortest one does. */
  predicate MatchesEmailPattern(s: string) {
    exists at, dot :: 1 <= at && at + 2 <= dot && dot + 1 < |s| && EmailMatchAt(s, at, dot)
  }

  /** A shortest match of the pattern with its `@` at `at` and its `.` at `dot`. */
  predicate EmailMatchAt(s: string, at: int, dot: int)
    requires 1 <= at && at + 2 <= dot && dot + 1 < |s|
  {
    s[at] == '@' && s[dot] == '.' && !IsJsSpace(s[at - 1]) && !IsJsSpace(s[dot + 1]) &&
    forall k :: at < k < dot ==> !IsJsSpace(s[k])
  }

  function EmailError(email: string): (r: string)
    ensures email == "" ==> r == EmailRequired
    ensures email != "" && !MatchesEmailPattern(email) ==> r == EmailInvalid
    ensures r == "" <==> email != "" && MatchesEmailPattern(email)
  {
    if email == "" then EmailRequired
    else if !MatchesEmailPattern(email) then EmailInvalid
    else ""
  }

  function PasswordError(password: string): (r: string)
    ensures password == "" ==> r == PasswordRequired
    ensures password != "" && Utf16Length(password) < MinPasswordLength ==> r == PasswordTooShort
    ensures r == "" <==> Utf16Length(password) >= MinPasswordLength
  {
    if password == "" then PasswordRequired
    else if Utf16Length(password) < MinPasswordLength then PasswordTooShort
    else ""
  }

  /** An accepted email has at least five characters, with an `@` that is neither first
      nor among the last three. */
  lemma AcceptedEmailShape(email: string)
    requires EmailError(email) == ""
    ensures |email| >= 5
    ensures exists at :: 1 <= at < |email| - 3 && email[at] == '@'
  {
    var at, dot :| 1 <= at && at + 2 <= dot && dot + 1 < |email| && EmailMatchAt(email, at, dot);
    assert 1 <= at < |email| - 3 && email[at] == '@';
  }

  /** The pattern is not anchored: spaces elsewhere in the address do not matter. */
  lemma EmailExamples()
    ensures EmailError("a@b.c") == ""
    ensures EmailError("a b@cd.e f") == ""
    ensures EmailError("a@b") == EmailInvalid
    ensures EmailError("a@.c") == EmailInvalid
  {
    var s := "a@b.c";
    assert EmailMatchAt(s, 1, 3);
    var t := "a b@cd.e f";
    assert EmailMatchAt(t, 3, 6);
  }
}
