/** How the two halves fit together: what the chat page shows for an envelope of the text
    service, and how the form rules of the client compare with the server's schema. */
module Integration {
  import opened Wrappers
  import opened Text
  import AiService
  import ChatPage
  import FormRules
  import RegisterPage
  import UserSchema

  /** The fields of a `/chat/process-text` envelope the formatter reads: `summary`,
      `key_points` and `response`; the service never sends a `response` field. */
  function ClientView(e: AiService.Envelope): (d: ChatPage.AIData)
    ensures d.summary == e.summary && d.keyPoints == e.keyPoints && d.response.None?
  {
    ChatPage.AIData(e.summary, e.keyPoints, None)
  }

  /** A failed processing still arrives as a resolved response, carrying only `status` and
      `message`; the page shows the placeholder, not the error message. */
  lemma ErrorEnvelopeRendersPlaceholder(b: AiService.Backend, text: string)
    requires AiService.ProcessText(b, text).status != AiService.StatusSuccess
    ensures ChatPage.Rendered(ClientView(AiService.ProcessText(b, text))) == ChatPage.NoContent
  {
    var d := ClientView(AiService.ProcessText(b, text));
    assert ChatPage.Untrimmed(d) == "";
  }

  /** A non-empty summary that does not end in a byte-order mark is shown first, under its
      heading. */
  lemma SummaryShownFirst(e: AiService.Envelope)
    requires e.summary.Some? && e.summary.value != ""
    requires !IsPySpace(e.summary.value[|e.summary.value| - 1])
    requires e.summary.value[|e.summary.value| - 1] != '\U{FEFF}'
    ensures IsPrefixOf(ChatPage.SummaryHeading + e.summary.value, ChatPage.Rendered(ClientView(e)))
  {
    var d := ClientView(e);
    var s := e.summary.value;
    SpaceSetsDiffer(s[|s| - 1]);
    var a := ChatPage.SummaryHeading + s;
    var rest := "\n\n" + ChatPage.KeyPointsSection(d) + ChatPage.ResponseSection(d);
    UntrimmedWithSummary(d, rest);
    assert a[0] == '#' && a[|a| - 1] == s[|s| - 1];
    TrimKeepsPrefix(a, rest);
  }

  lemma UntrimmedWithSummary(d: ChatPage.AIData, rest: string)
    requires ChatPage.Truthy(d.summary)
    requires rest == "\n\n" + ChatPage.KeyPointsSection(d) + ChatPage.ResponseSection(d)
    ensures ChatPage.Untrimmed(d) == ChatPage.SummaryHeading + d.summary.value + rest
  {
  }

  /** Trimming a string that starts with `a`, where `a` neither starts nor ends with white
      space, keeps `a` in front. */
  lemma TrimKeepsPrefix(a: string, rest: string)
    requires a != [] && !IsJsSpace(a[0]) && !IsJsSpace(a[|a| - 1])
    ensures IsPrefixOf(a, Trim(a + rest)) && Trim(a + rest) != ""
  {
    assert (a + rest)[0] == a[0];
    TrimEndKeepsPrefix(a, rest, IsJsSpace);
  }

  /** A successful processing of the text service shows its summary first when the stripped
      summary does not end in a byte-order mark. */
  lemma ProcessedSummaryShownFirst(b: AiService.Backend, text: string)
    requires AiService.ProcessText(b, text).status == AiService.StatusSuccess
    requires var s := AiService.ProcessText(b, text).summary.value; s != "" && s[|s| - 1] != '\U{FEFF}'
    ensures var e := AiService.ProcessText(b, text);
      IsPrefixOf(ChatPage.SummaryHeading + e.summary.value, ChatPage.Rendered(ClientView(e)))
  {
    SummaryShownFirst(AiService.ProcessText(b, text));
  }

  /** A password the client accepts meets the server's minimum length when it holds no astral
      code point; in general it holds at least half as many code points as that minimum. */
  lemma ClientPasswordMeetsServer(password: string)
    requires FormRules.PasswordError(password) == ""
    ensures (forall i :: 0 <= i < |password| ==> !IsAstral(password[i])) ==> |password| >= UserSchema.MinPasswordLength
    ensures 2 * |password| >= UserSchema.MinPasswordLength
  {
  }

  /** The form counts UTF-16 units and the schema code points, so three emoji pass the form's
      six-character rule and are refused by the schema's `min_length=6`. */
  lemma AstralPasswordRulesDiffer(username: string, email: string, parseEmail: string -> Option<string>)
    ensures FormRules.PasswordError("\U{1F600}\U{1F600}\U{1F600}") == ""
    ensures UserSchema.ValidateUserCreate(username, email, "\U{1F600}\U{1F600}\U{1F600}", parseEmail).Err?
    ensures UserSchema.PasswordTooShort in UserSchema.ValidateUserCreate(username, email, "\U{1F600}\U{1F600}\U{1F600}", parseEmail).error
  {
  }

  /** The client's username rule is weaker than the server's: it checks the length only,
      so a username with a non-alphanumeric character passes the form and is refused by the
      schema. */
  lemma UsernameRulesDiffer()
    ensures RegisterPage.UsernameError("ab!") == ""
    ensures UserSchema.ValidateUsername("ab!") == Err(UserSchema.UsernameNotAlphanumeric)
  {
    assert !UserSchema.IsAlnumChar("ab!"[2]);
  }

  /** Every username the server accepts also passes the client's check. */
  lemma ServerUsernamePassesClient(username: string)
    requires UserSchema.ValidateUsername(username).Ok?
    ensures RegisterPage.UsernameError(username) == ""
  {
  }
}
