/** The chat screen: the formatter that renders a processing result as the assistant's
    message, and the submit handlers that send a text, a URL or a PDF file. Each handler
    runs to completion with the outcomes of its remote calls given as parameters. */
module ChatPage {
  import opened Wrappers
  import opened Text
  import opened ChatSlice
  import opened Api

  /** The fields of a processing response that the formatter reads: `summary`, the
      `key_points` array and `response`; any of them may be missing. */
  datatype AIData = AIData(summary: Option<string>, keyPoints: Option<seq<string>>, response: Option<string>)

  /** "## Summary" and "## Key Points", as the interface writes them in Chinese. */
  const SummaryHeading: string := "## \U{6458}\U{8981}\n"
  const KeyPointsHeading: string := "## \U{91CD}\U{8981}\U{8981}\U{70B9}\n"
  const NoContent: string := "No content available"

  /** JavaScript truthiness of an optional string field. */
  predicate Truthy(s: Option<string>) {
    s.Some? && s.value != ""
  }

  /** The line for the point numbered `n`. */
  function KeyPointItem(n: nat, point: string): string {
    DecimalDigits(n) + ". " + point + "\n"
  }

  /** The numbered lines of `points`, built by appending one line per point. */
  function KeyPointLines(points: seq<string>): string {
    if points == [] then ""
    else KeyPointLines(points[..|points| - 1]) + KeyPointItem(|points|, points[|points| - 1])
  }

  /** The same lines read from the front: the point `points[0]` numbered `first`, then the
      rest numbered on from `first + 1`. */
  function ItemsFrom(points: seq<string>, first: nat): string {
    if points == [] then "" else KeyPointItem(first, points[0]) + ItemsFrom(points[1..], first + 1)
  }

  function SummarySection(d: AIData): string {
    if Truthy(d.summary) then SummaryHeading + d.summary.value + "\n\n" else ""
  }

  function KeyPointsSection(d: AIData): string {
    if d.keyPoints.Some? then KeyPointsHeading + KeyPointLines(d.keyPoints.value) else ""
  }

  function ResponseSection(d: AIData): string {
    if Truthy(d.response) && !Truthy(d.summary) then d.response.value else ""
  }

  /** The text before the final trim. */
  function Untrimmed(d: AIData): string {
    SummarySection(d) + KeyPointsSection(d) + ResponseSection(d)
  }

  /** The rendered assistant message: the trimmed text, or the placeholder when that is empty.
      It is never empty and never starts or ends with white space. */
  function Rendered(d: AIData): (r: string)
    ensures r != []
    ensures !IsJsSpace(r[0]) && !IsJsSpace(r[|r| - 1])
  {
    var t := Trim(Untrimmed(d));
    if t == "" then NoContent else t
  }

  /** The `forEach` of `formatAIResponse`: one numbered line per point, appended to `text`. */
  method AppendKeyPoints(text: string, points: seq<string>) returns (r: string)
    ensures r == text + KeyPointLines(points)
  {
    r := text;
    var i := 0;
    while i < |points|
      invariant 0 <= i <= |points|
      invariant r == text + KeyPointLines(points[..i])
    {
      LinesStep(points, i);
      r := r + KeyPointItem(i + 1, points[i]);
      i := i + 1;
    }
    assert points[..|points|] == points;
  }

  /** `formatAIResponse`: grows the text section by section, one line per key point. */
  method FormatAIResponse(data: AIData) returns (formatted: string)
    ensures formatted == Rendered(data)
  {
    var text := "";
    if Truthy(data.summary) {
      text := text + SummaryHeading + data.summary.value + "\n\n";
    }
    assert text == SummarySection(data);
    if data.keyPoints.Some? {
      text := AppendKeyPoints(text + KeyPointsHeading, data.keyPoints.value);
    }
    assert text == SummarySection(data) + KeyPointsSection(data);
    if Truthy(data.response) && !Truthy(data.summary) {
      text := text + data.response.value;
    }
    assert text == Untrimmed(data);
    var t := Trim(text);
    formatted := if t == "" then NoContent else t;
  }

  lemma LinesStep(points: seq<string>, i: nat)
    requires i < |points|
    ensures KeyPointLines(points[..i + 1]) == KeyPointLines(points[..i]) + KeyPointItem(i + 1, points[i])
  {
    assert points[..i + 1][..i] == points[..i];
  }

  lemma {:induction false} ItemsFromSnoc(points: seq<string>, x: string, first: nat)
    ensures ItemsFrom(points + [x], first) == ItemsFrom(points, first) + KeyPointItem(first + |points|, x)
  {
    if points != [] {
      assert (points + [x])[1..] == points[1..] + [x];
      ItemsFromSnoc(points[1..], x, first + 1);
    } else {
      assert ItemsFrom([x], first) == KeyPointItem(first, x) + ItemsFrom([], first + 1);
    }
  }

  /** Key points are numbered 1, 2, ... in list order: the first line is point 1, and so on. */
  lemma {:induction false} KeyPointsNumberedInOrder(points: seq<string>)
    ensures KeyPointLines(points) == ItemsFrom(points, 1)
  {
    if points != [] {
      var init := points[..|points| - 1];
      KeyPointsNumberedInOrder(init);
      ItemsFromSnoc(init, points[|points| - 1], 1);
      assert init + [points[|points| - 1]] == points;
    }
  }

  /** With a summary and a key-point list, the summary section comes first, then the
      key-point section; only the trailing white space of the latter is trimmed. */
  lemma SummaryBeforeKeyPoints(d: AIData)
    requires Truthy(d.summary) && d.keyPoints.Some?
    ensures Rendered(d) ==
      SummaryHeading + d.summary.value + "\n\n" + TrimEnd(KeyPointsHeading + KeyPointLines(d.keyPoints.value), IsJsSpace)
  {
    var s := SummarySection(d);
    var k := KeyPointsSection(d);
    assert Untrimmed(d) == s + k;
    assert (s + k)[0] == '#';
    assert k[0] == '#';
    TrimEndAppend(s, k, IsJsSpace);
  }

  /** `response` is used only when there is no summary, and it comes after the key points. */
  lemma ResponseOnlyWithoutSummary(d: AIData)
    ensures Truthy(d.summary) ==> Rendered(d) == Rendered(d.(response := None))
    ensures !Truthy(d.summary) && Truthy(d.response) ==>
      Untrimmed(d) == KeyPointsSection(d) + d.response.value
  {
  }

  /** A result with the key-point field, or a summary, always renders its own text, which
      starts with a heading; it is never the placeholder. */
  lemma HeadingNeverPlaceholder(d: AIData)
    requires Truthy(d.summary) || d.keyPoints.Some?
    ensures Rendered(d) == Trim(Untrimmed(d)) && Rendered(d)[0] == '#' && Rendered(d) != NoContent
  {
    var u := Untrimmed(d);
    assert u[0] == '#';
    TrimByEmpty(u, IsJsSpace);
    assert TrimEnd(u, IsJsSpace)[0] == '#';
    assert NoContent[0] == 'N';
  }

  /** A result without summary and key points, and with no response beyond white space
      (in particular an error result with none of the three fields), renders as the placeholder. */
  lemma NoFieldsPlaceholder(d: AIData)
    requires !Truthy(d.summary) && d.keyPoints.None?
    requires d.response.Some? ==> forall k :: 0 <= k < |d.response.value| ==> IsJsSpace(d.response.value[k])
    ensures Rendered(d) == NoContent
  {
    TrimByEmpty(Untrimmed(d), IsJsSpace);
  }

  /** Trimming a text that ends in one line break and is otherwise already trimmed drops
      just that line break. */
  lemma TrimFinalNewline(s: string)
    requires s != [] && !IsJsSpace(s[0]) && !IsJsSpace(s[|s| - 1])
    ensures Trim(s + "\n") == s
  {
    var u := s + "\n";
    assert u[..|u| - 1] == s;
    assert TrimEnd(u, IsJsSpace) == TrimEnd(s, IsJsSpace);
  }

  /** An empty key-point list still emits its heading, so the result is the heading, not
      the placeholder. */
  lemma EmptyKeyPointsHeading()
    ensures Rendered(AIData(None, Some([]), None)) == "## \U{91CD}\U{8981}\U{8981}\U{70B9}"
  {
    var h := "## \U{91CD}\U{8981}\U{8981}\U{70B9}";
    assert Untrimmed(AIData(None, Some([]), None)) == h + "\n";
    TrimFinalNewline(h);
  }

  /** The rendering of `{summary: "S", key_points: ["a", "b"]}`. */
  lemma SummaryAndTwoPoints()
    ensures Rendered(AIData(Some("S"), Some(["a", "b"]), None)) ==
      "## \U{6458}\U{8981}\nS\n\n## \U{91CD}\U{8981}\U{8981}\U{70B9}\n1. a\n2. b"
  {
    var d := AIData(Some("S"), Some(["a", "b"]), None);
    var expected := "## \U{6458}\U{8981}\nS\n\n## \U{91CD}\U{8981}\U{8981}\U{70B9}\n1. a\n2. b";
    TwoPointLines();
    assert Untrimmed(d) == expected + "\n";
    TrimFinalNewline(expected);
  }

  lemma TwoPointLines()
    ensures KeyPointLines(["a", "b"]) == "1. a\n2. b\n"
  {
    assert ["a", "b"][..1] == ["a"];
    assert KeyPointLines(["a"]) == "1. a\n";
  }

  // ----- the submit protocol -----

  datatype PdfFile = PdfFile(name: string, mimeType: string)

  /** The values a handler draws from `uuidv4()` and `new Date()` for its two messages. */
  datatype Fresh = Fresh(userMessageId: string, userTime: string, assistantMessageId: string, assistantTime: string)

  const PdfMimeType: string := "application/pdf"
  const NewChatTitle: string := "New Chat"
  const PdfTemplate: string := "I uploaded a PDF: "
  const UrlTemplate: string := "I shared this URL: "
  const InvalidFileType: string := "Invalid file type. Please upload a PDF file"
  const UrlRequired: string := "URL required. Please enter a valid URL"
  const PdfFailed: string := "Failed to process PDF file"
  const UrlFailed: string := "Failed to process URL"
  const TextFailed: string := "Failed to process message"
  const CreateChatFailed: string := "Failed to create a new chat"
  const LoadChatsFailed: string := "Failed to load chats"

  function UserMessage(drawn: Fresh, content: string): Message {
    Message(drawn.userMessageId, content, User, drawn.userTime)
  }

  function AssistantMessage(drawn: Fresh, data: AIData): Message {
    Message(drawn.assistantMessageId, Rendered(data), Assistant, drawn.assistantTime)
  }

  /** The requests of one submission: `sendMessage`, then, only if it succeeded, the
      processing request. */
  function ExchangeCalls(chatId: string, content: string, process: Call, sent: bool): (r: seq<Call>)
    ensures |r| >= 1 && r[0] == SendMessage(chatId, content)
    ensures sent <==> |r| == 2
    ensures sent ==> r[1] == process
  {
    [SendMessage(chatId, content)] + (if sent then [process] else [])
  }

  /** The chat after one submission: the user message is pushed only once `sendMessage`
      succeeded, the assistant message only once processing succeeded as well. */
  function AfterExchange(chat: Chat, content: string, sent: bool, processed: Response<AIData>, drawn: Fresh): (r: Chat)
    ensures !sent ==> r == chat
    ensures sent && processed.Rejected? ==> r.messages == chat.messages + [UserMessage(drawn, content)]
    ensures sent && processed.Resolved? ==>
      r.messages == chat.messages + [UserMessage(drawn, content), AssistantMessage(drawn, processed.data)]
    ensures r.(messages := chat.messages) == chat
  {
    if !sent then chat
    else
      var withUser := WithMessage(chat, UserMessage(drawn, content));
      if processed.Resolved? then WithMessage(withUser, AssistantMessage(drawn, processed.data)) else withUser
  }

  /** The alert a submission ends with, if any. */
  function ExchangeAlert(sent: bool, processed: Response<AIData>, failure: string): Option<string> {
    if sent && processed.Resolved? then None else Some(failure)
  }

  /** What one submission did, given the chat it started from: the requests it made, the
      current chat it left and the alert it ended with. */
  predicate Exchanged(chat: Chat, content: string, process: Call, failure: string, sent: bool,
                      processed: Response<AIData>, drawn: Fresh,
                      calls: seq<Call>, after: Option<Chat>, alert: Option<string>) {
    && calls == ExchangeCalls(chat.id, content, process, sent)
    && after == Some(AfterExchange(chat, content, sent, processed, drawn))
    && alert == ExchangeAlert(sent, processed, failure)
  }

  /** The text channel goes ahead only with a current chat and a message that is not blank. */
  predicate TextAccepted(current: Option<Chat>, message: string) {
    current.Some? && Trim(message) != ""
  }

  /** The URL channel goes ahead only with a current chat and a non-empty URL. */
  predicate UrlAccepted(current: Option<Chat>, url: string) {
    current.Some? && url != ""
  }

  /** The chat page's local state and the store it dispatches to. */
  class Component {
    const store: ChatStore
    var message: string
    var file: Option<PdfFile>
    var isProcessing: bool
    var activeTab: int
    var url: string

    constructor (store: ChatStore)
      ensures this.store == store
      ensures message == "" && file == None && !isProcessing && activeTab == 0 && url == ""
    {
      this.store := store;
      message, file, isProcessing, activeTab, url := "", None, false, 0, "";
    }

    /** The effect run on entry: an unauthenticated visitor is sent to the login route with
        no request; otherwise `loadChatsStart`, `getChats`, then success or failure. */
    method LoadChats(isAuthenticated: bool, fetched: Response<seq<Chat>>) returns (calls: seq<Call>, redirect: Option<string>)
      modifies store
      ensures !isAuthenticated ==>
        calls == [] && redirect == Some(LoginRoute) &&
        store.chats == old(store.chats) && store.loading == old(store.loading) && store.error == old(store.error)
      ensures isAuthenticated ==> calls == [GetChats] && redirect == None && !store.loading
      ensures isAuthenticated && fetched.Resolved? ==> store.chats == fetched.data && store.error == None
      ensures isAuthenticated && fetched.Rejected? ==> store.chats == old(store.chats) && store.error == Some(LoadChatsFailed)
      ensures store.currentChat == old(store.currentChat)
    {
      if !isAuthenticated {
        calls, redirect := [], Some(LoginRoute);
        return;
      }
      redirect := None;
      store.LoadChatsStart();
      calls := [GetChats];
      if fetched.Resolved? {
        store.LoadChatsSuccess(fetched.data);
      } else {
        store.LoadChatsFailure(LoadChatsFailed);
      }
    }

    /** The effect that creates a chat whenever there is no current one. */
    method EnsureCurrentChat(created: Response<Chat>) returns (calls: seq<Call>, alert: Option<string>)
      modifies store
      ensures old(store.currentChat).Some? ==>
        calls == [] && alert == None && store.currentChat == old(store.currentChat) && store.chats == old(store.chats)
      ensures old(store.currentChat).None? ==> calls == [CreateChat(NewChatTitle)]
      ensures old(store.currentChat).None? && created.Resolved? ==>
        alert == None && store.currentChat == Some(created.data) && store.chats == [created.data] + old(store.chats)
      ensures old(store.currentChat).None? && created.Rejected? ==>
        alert == Some(CreateChatFailed) && store.currentChat == None && store.chats == old(store.chats)
      ensures store.loading == old(store.loading) && store.error == old(store.error)
    {
      calls, alert := [], None;
      if store.currentChat.None? {
        calls, alert := CreateNewChat(created);
      }
    }

    /** `createNewChat`: asks the server for a chat titled "New Chat" and starts it. */
    method CreateNewChat(created: Response<Chat>) returns (calls: seq<Call>, alert: Option<string>)
      modifies store
      ensures calls == [CreateChat(NewChatTitle)]
      ensures created.Resolved? ==>
        alert == None && store.currentChat == Some(created.data) && store.chats == [created.data] + old(store.chats)
      ensures created.Rejected? ==>
        alert == Some(CreateChatFailed) && store.currentChat == old(store.currentChat) && store.chats == old(store.chats)
      ensures store.loading == old(store.loading) && store.error == old(store.error)
    {
      calls := [CreateChat(NewChatTitle)];
      if created.Resolved? {
        store.StartNewChat(created.data);
        alert := None;
      } else {
        alert := Some(CreateChatFailed);
      }
    }

    /** `handleFileChange`: a chosen file that is not a PDF is refused before any request;
        a PDF is remembered and submitted at once. */
    method HandleFileChange(selected: Option<PdfFile>, sent: bool, processed: Response<AIData>, drawn: Fresh)
      returns (calls: seq<Call>, alert: Option<string>)
      modifies this, store
      ensures selected.None? ==> calls == [] && alert == None && file == old(file) && store.currentChat == old(store.currentChat)
      ensures selected.Some? && selected.value.mimeType != PdfMimeType ==>
        calls == [] && alert == Some(InvalidFileType) && file == old(file) && store.currentChat == old(store.currentChat)
      ensures selected.Some? && selected.value.mimeType == PdfMimeType && old(store.currentChat).None? ==>
        calls == [] && alert == None && file == selected && store.currentChat == None
      ensures selected.Some? && selected.value.mimeType == PdfMimeType && old(store.currentChat).Some? ==>
        var chat := old(store.currentChat).value;
        var content := PdfTemplate + selected.value.name;
        && calls == ExchangeCalls(chat.id, content, ProcessPdf(selected.value.name), sent)
        && store.currentChat == Some(AfterExchange(chat, content, sent, processed, drawn))
        && alert == ExchangeAlert(sent, processed, PdfFailed)
        && file == None && !isProcessing
      ensures old(store.currentChat).None? || selected.None? || selected.value.mimeType != PdfMimeType ==>
        isProcessing == old(isProcessing)
      ensures store.chats == old(store.chats) && store.loading == old(store.loading) && store.error == old(store.error)
      ensures message == old(message) && url == old(url) && activeTab == old(activeTab)
    {
      calls, alert := [], None;
      if selected.Some? {
        if selected.value.mimeType != PdfMimeType {
          alert := Some(InvalidFileType);
        } else {
          file := selected;
          calls, alert := HandleFileSubmit(selected.value, sent, processed, drawn);
        }
      }
    }

    /** The part the three submit handlers share: `sendMessage` with the user's content,
        then, once it succeeded, the user message, the processing request, and, once that
        succeeded too, the formatted assistant message. A failure ends with the alert `failure`. */
    method Exchange(content: string, process: Call, failure: string, sent: bool, processed: Response<AIData>, drawn: Fresh)
      returns (calls: seq<Call>, alert: Option<string>)
      requires store.currentChat.Some?
      modifies store
      ensures Exchanged(old(store.currentChat).value, content, process, failure, sent, processed, drawn,
                        calls, store.currentChat, alert)
      ensures store.chats == old(store.chats) && store.loading == old(store.loading) && store.error == old(store.error)
    {
      var chat := store.currentChat.value;
      var userMessage := UserMessage(drawn, content);
      calls := [SendMessage(chat.id, content)];
      alert := None;
      if !sent {
        alert := Some(failure);
        return;
      }
      store.AddMessage(userMessage);
      calls := calls + [process];
      if processed.Rejected? {
        alert := Some(failure);
      } else {
        var rendered := FormatAIResponse(processed.data);
        store.AddMessage(Message(drawn.assistantMessageId, rendered, Assistant, drawn.assistantTime));
      }
    }

    /** `handleFileSubmit`: without a current chat nothing happens; otherwise the exchange runs
        under `isProcessing`, and the chosen file is cleared at the end. */
    method HandleFileSubmit(selected: PdfFile, sent: bool, processed: Response<AIData>, drawn: Fresh)
      returns (calls: seq<Call>, alert: Option<string>)
      modifies this, store
      ensures old(store.currentChat).None? ==>
        calls == [] && alert == None && store.currentChat == None && file == old(file) && isProcessing == old(isProcessing)
      ensures old(store.currentChat).Some? ==>
        && Exchanged(old(store.currentChat).value, PdfTemplate + selected.name, ProcessPdf(selected.name), PdfFailed,
                     sent, processed, drawn, calls, store.currentChat, alert)
        && file == None && !isProcessing
      ensures store.chats == old(store.chats) && store.loading == old(store.loading) && store.error == old(store.error)
      ensures message == old(message) && url == old(url) && activeTab == old(activeTab)
    {
      calls, alert := [], None;
      if store.currentChat.None? {
        return;
      }
      isProcessing := true;
      calls, alert := Exchange(PdfTemplate + selected.name, ProcessPdf(selected.name), PdfFailed, sent, processed, drawn);
      file := None;
      isProcessing := false;
    }

    /** `handleUrlSubmit`: an empty URL, or no current chat, is refused with an alert before
        any request; otherwise the exchange runs under `isProcessing` and the URL is cleared. */
    method HandleUrlSubmit(sent: bool, processed: Response<AIData>, drawn: Fresh)
      returns (calls: seq<Call>, alert: Option<string>)
      modifies this, store
      ensures !UrlAccepted(old(store.currentChat), old(url)) ==>
        calls == [] && alert == Some(UrlRequired) && store.currentChat == old(store.currentChat)
        && url == old(url) && isProcessing == old(isProcessing)
      ensures UrlAccepted(old(store.currentChat), old(url)) ==>
        && Exchanged(old(store.currentChat).value, UrlTemplate + old(url), ProcessUrl(old(url)), UrlFailed,
                     sent, processed, drawn, calls, store.currentChat, alert)
        && url == "" && !isProcessing
      ensures store.chats == old(store.chats) && store.loading == old(store.loading) && store.error == old(store.error)
      ensures message == old(message) && file == old(file) && activeTab == old(activeTab)
    {
      if store.currentChat.None? || url == "" {
        calls, alert := [], Some(UrlRequired);
        return;
      }
      isProcessing := true;
      calls, alert := Exchange(UrlTemplate + url, ProcessUrl(url), UrlFailed, sent, processed, drawn);
      url := "";
      isProcessing := false;
    }

    /** `handleTextSubmit`: no current chat or a blank message makes no request and changes
        nothing; otherwise the untrimmed message is sent, and the input is cleared only after
        `sendMessage` succeeded. */
    method HandleTextSubmit(sent: bool, processed: Response<AIData>, drawn: Fresh)
      returns (calls: seq<Call>, alert: Option<string>)
      modifies this, store
      ensures !TextAccepted(old(store.currentChat), old(message)) ==>
        calls == [] && alert == None && store.currentChat == old(store.currentChat)
        && message == old(message) && isProcessing == old(isProcessing)
      ensures TextAccepted(old(store.currentChat), old(message)) ==>
        && Exchanged(old(store.currentChat).value, old(message), ProcessText(old(message)), TextFailed,
                     sent, processed, drawn, calls, store.currentChat, alert)
        && message == (if sent then "" else old(message))
        && !isProcessing
      ensures store.chats == old(store.chats) && store.loading == old(store.loading) && store.error == old(store.error)
      ensures url == old(url) && file == old(file) && activeTab == old(activeTab)
    {
      if !TextAccepted(store.currentChat, message) {
        calls, alert := [], None;
        return;
      }
      var content := message;
      calls, alert := Exchange(content, ProcessText(content), TextFailed, sent, processed, drawn);
      message := if sent then "" else content;
      isProcessing := false;
    }

    /** `handleSubmit`: the text tab submits the message and the URL tab the URL, each with
        exactly the outcome of its own handler; any other tab does nothing. */
    method HandleSubmit(sent: bool, processed: Response<AIData>, drawn: Fresh)
      returns (calls: seq<Call>, alert: Option<string>)
      modifies this, store
      ensures activeTab == old(activeTab)
      ensures old(activeTab) == 0 && !TextAccepted(old(store.currentChat), old(message)) ==>
        calls == [] && alert == None && store.currentChat == old(store.currentChat)
        && message == old(message) && isProcessing == old(isProcessing)
      ensures old(activeTab) == 0 && TextAccepted(old(store.currentChat), old(message)) ==>
        && Exchanged(old(store.currentChat).value, old(message), ProcessText(old(message)), TextFailed,
                     sent, processed, drawn, calls, store.currentChat, alert)
        && message == (if sent then "" else old(message))
        && !isProcessing
      ensures old(activeTab) == 0 ==> url == old(url)
      ensures old(activeTab) == 1 && !UrlAccepted(old(store.currentChat), old(url)) ==>
        calls == [] && alert == Some(UrlRequired) && store.currentChat == old(store.currentChat)
        && url == old(url) && isProcessing == old(isProcessing)
      ensures old(activeTab) == 1 && UrlAccepted(old(store.currentChat), old(url)) ==>
        && Exchanged(old(store.currentChat).value, UrlTemplate + old(url), ProcessUrl(old(url)), UrlFailed,
                     sent, processed, drawn, calls, store.currentChat, alert)
        && url == "" && !isProcessing
      ensures old(activeTab) == 1 ==> message == old(message)
      ensures old(activeTab) != 0 && old(activeTab) != 1 ==>
        calls == [] && alert == None && store.currentChat == old(store.currentChat)
        && message == old(message) && url == old(url) && isProcessing == old(isProcessing)
      ensures store.chats == old(store.chats) && store.loading == old(store.loading) && store.error == old(store.error)
      ensures file == old(file)
    {
      calls, alert := [], None;
      if activeTab == 0 {
        calls, alert := HandleTextSubmit(sent, processed, drawn);
      } else if activeTab == 1 {
        calls, alert := HandleUrlSubmit(sent, processed, drawn);
      }
    }
  }

  /** A chat with no messages, the text "hello" sent and a processing result carrying only
      `{response: "hi"}`: the transcript is exactly the user's "hello", then the assistant's "hi". */
  lemma HelloThenHi(chat: Chat, drawn: Fresh)
    requires chat.messages == []
    ensures AfterExchange(chat, "hello", true, Resolved(AIData(None, None, Some("hi"))), drawn).messages ==
      [Message(drawn.userMessageId, "hello", User, drawn.userTime),
       Message(drawn.assistantMessageId, "hi", Assistant, drawn.assistantTime)]
  {
    ResponseShownAsIs("hi");
  }

  /** A result carrying only a `response` that is already trimmed is shown exactly as sent. */
  lemma ResponseShownAsIs(response: string)
    requires response != [] && !IsJsSpace(response[0]) && !IsJsSpace(response[|response| - 1])
    ensures Rendered(AIData(None, None, Some(response))) == response
  {
    assert Untrimmed(AIData(None, None, Some(response))) == response;
  }

  /** Whatever the outcomes, a submission that went ahead changes the current chat only by
      appending, at most two messages, user before assistant. */
  lemma ExchangeOnlyAppends(chat: Chat, content: string, sent: bool, processed: Response<AIData>, drawn: Fresh)
    ensures var r := AfterExchange(chat, content, sent, processed, drawn);
      && |chat.messages| <= |r.messages| <= |chat.messages| + 2
      && r.messages[..|chat.messages|] == chat.messages
      && (|r.messages| >= |chat.messages| + 1 ==> r.messages[|chat.messages|].role == User)
      && (|r.messages| == |chat.messages| + 2 ==> r.messages[|chat.messages| + 1].role == Assistant)
  {
    var r := AfterExchange(chat, content, sent, processed, drawn);
    if sent {
      assert r.messages[..|chat.messages|] == chat.messages;
    }
  }
}
