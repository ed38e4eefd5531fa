# llm-summary-tool, modelled in Dafny

llm-summary-tool is a web application for summarising documents. A user registers and logs in, then opens a chat.
They submit a piece of text, a URL or a PDF file. The server persists the submission as a chat
message and has a language model produce a summary and a numbered list of key points. The
browser renders that result as the assistant's reply.

This model covers both halves of the core:

- **Client** (React + Redux):
  - the transcript store (`ChatSlice`, one class whose methods are the reducers);
  - the chat screen: the result formatter plus the text, URL and PDF submit handlers (`ChatPage`);
  - the history screen: search filter, preview, open and delete (`HistoryPage`);
  - the login and registration forms (`LoginPage`, `RegisterPage`, with the shared field rules
    in `FormRules`).
- **Server** (FastAPI + SQLAlchemy):
  - the database session as a class holding three tables and their id counters (`Models`);
  - the authentication dependency (`Deps`);
  - the user and token schemas (`UserSchema`);
  - the authentication endpoints (`AuthEndpoints`);
  - the chat endpoints (`ChatEndpoints`);
  - the processing service (`AiService`).
- `Integration` proves facts that join the two halves.
- `Seqs` and `Text` model the library primitives the code relies on:
  - `Array.prototype.filter` and `find`, and SQL `ORDER BY`/`OFFSET`/`LIMIT` as a stable sort and a window;
  - JavaScript `trim`/`toLowerCase`/`includes`;
  - Python `strip`/`split`/`join`.

The model's form follows the source. State that the source changes in place is a class with
`modifies` clauses:
- the Redux state;
- each page's `useState` fields;
- the database session.

Loops are methods with invariants:
- the key-point `forEach`;
- the `for page in pdf.pages` concatenation;
- the `for chat in chats` summary loop.

The rest is functions: formatting, filtering, validation, dependency resolution and the service's envelopes.

The model has no network, clock, UUIDs or foreign code, so these are parameters:
- **Remote calls.** Each outcome is a parameter: a `Response` that is resolved with data or
  rejected with an optional `detail`. Client handlers return the requests they made as a `seq<Call>`,
  or an effect trace for the auth pages, so "no request was sent" and "the token is stored
  before `getMe`" can be stated.
- **Generated values.** The UUIDs and ISO timestamps a handler draws are a parameter.
- **Server externals.** The JWT decoder, password hashing, `authenticate_user`,
  `create_access_token`, the language model, the summarisation chain, the text splitter and
  the PDF reader are function-typed parameters, or the outcomes they produce.
- **Timestamps.** Server timestamps are naturals supplied by the caller.

Where the system's specification and its code disagree, the model follows the code:
- **User message after the send.** The chat page pushes the user's message only after
  `sendMessage` succeeded. The message is not appended optimistically before the request.
- **No busy gate.** Nothing rejects a second submission while one is in flight. `isProcessing`
  only drives the interface.
- **A 401 is an ordinary failure.** It ends a submission with the handler's alert, like any
  other failure. It does not expire the session.
- **When the text handler sets `isProcessing`.** The text handler sets `isProcessing` only after
  the send, and clears the message field only when the send succeeded.

## Model

| member | source | states |
|---|---|---|
| `ChatSlice.FindChat` | frontend/src/features/chat/chatSlice.ts:61 | `find` returns the first chat with the id: its position holds the id, no earlier one does, and it is absent exactly when no chat has the id |
| `ChatSlice.RenameFirst` | frontend/src/features/chat/chatSlice.ts:60-64 | only the first chat with the id gets the new title, with every other field of it kept; every other chat is unchanged; no match changes nothing |
| `ChatSlice.WithoutChat` | frontend/src/features/chat/chatSlice.ts:70 | the kept chats are exactly those with another id, in their order (a subsequence), each kept as often as it occurs and a chat with the id not at all; a list without the id is returned unchanged |
| `ChatSlice.WithMessage` | frontend/src/features/chat/chatSlice.ts:41 | `push`: the old messages are a prefix and the new one is last; the other fields are kept |
| `ChatSlice.ChatStore.constructor` | frontend/src/features/chat/chatSlice.ts:25-30 | the initial state: no current chat, no chats, not loading, no error |
| `ChatSlice.ChatStore.SetCurrentChat` | frontend/src/features/chat/chatSlice.ts:36-38 | the chat becomes current; the rest of the state is unchanged |
| `ChatSlice.ChatStore.AddMessage` | frontend/src/features/chat/chatSlice.ts:39-43 | appends the message to the current chat when there is one and is a no-op without one; the `chats` list is not touched |
| `ChatSlice.ChatStore.StartNewChat` | frontend/src/features/chat/chatSlice.ts:44-47 | the chat becomes current and is put in front of the list, with nothing removed |
| `ChatSlice.ChatStore.LoadChatsStart` | frontend/src/features/chat/chatSlice.ts:48-51 | loading on, error cleared; chats unchanged |
| `ChatSlice.ChatStore.LoadChatsSuccess` | frontend/src/features/chat/chatSlice.ts:52-55 | loading off, the list replaced; the error flag is left as it was |
| `ChatSlice.ChatStore.LoadChatsFailure` | frontend/src/features/chat/chatSlice.ts:56-59 | loading off, error set; chats unchanged |
| `ChatSlice.ChatStore.UpdateChatTitle` | frontend/src/features/chat/chatSlice.ts:60-68 | only the first listed chat with the id is renamed; the current chat is renamed exactly when it has the id |
| `ChatSlice.ChatStore.DeleteChat` | frontend/src/features/chat/chatSlice.ts:69-74 | every listed chat with the id is removed; the current chat is cleared exactly when it has the id |
| `ChatSlice.RenameFirstTwice` | frontend/src/features/chat/chatSlice.ts:60-68 | renaming twice equals renaming once with the second title |
| `ChatSlice.FindChatAfterRename` | frontend/src/features/chat/chatSlice.ts:61-64 | renaming keeps the renamed chat the first with its id |
| `ChatSlice.DeleteChatIdempotent` | frontend/src/features/chat/chatSlice.ts:69-74 | deleting the same id twice equals deleting it once |
| `ChatPage.Rendered` | frontend/src/pages/ChatPage.tsx:36 | the rendered reply is never empty and never starts or ends with white space |
| `ChatPage.AppendKeyPoints` | frontend/src/pages/ChatPage.tsx:24-29 | the loop appends one numbered line per point, in order: the result is the text followed by all the lines |
| `ChatPage.FormatAIResponse` | frontend/src/pages/ChatPage.tsx:15-37 | the imperative formatter computes exactly the rendering (summary section, key-point section, response only without summary, trim, placeholder) |
| `ChatPage.KeyPointsNumberedInOrder` | frontend/src/pages/ChatPage.tsx:26-28 | the lines, which the loop builds from the back, number the points 1, 2, … in list order read from the front |
| `ChatPage.SummaryBeforeKeyPoints` | frontend/src/pages/ChatPage.tsx:19-29 | with both fields, the output is the summary section followed by the key-point section, of which only the trailing white space is trimmed |
| `ChatPage.ResponseOnlyWithoutSummary` | frontend/src/pages/ChatPage.tsx:32-34 | `response` has no effect when there is a summary; otherwise it follows the key points |
| `ChatPage.HeadingNeverPlaceholder` | frontend/src/pages/ChatPage.tsx:19-36 | with a summary or a key-point field the output starts with a heading and is never the placeholder |
| `ChatPage.NoFieldsPlaceholder` | frontend/src/pages/ChatPage.tsx:36 | with no summary, no key points and at most a blank response, the output is "No content available" |
| `ChatPage.EmptyKeyPointsHeading` | frontend/src/pages/ChatPage.tsx:24-25 | an empty key-point array still renders its heading |
| `ChatPage.SummaryAndTwoPoints` | frontend/src/pages/ChatPage.tsx:15-37 | the exact rendering of a summary with two key points |
| `ChatPage.ResponseShownAsIs` | frontend/src/pages/ChatPage.tsx:32-36 | a result with only an already-trimmed `response` is shown exactly as sent |
| `ChatPage.HelloThenHi` | frontend/src/pages/ChatPage.tsx:195-230 | in an empty chat, sending "hello" that is processed to `{response: "hi"}` leaves exactly the messages "hello" (user) and "hi" (assistant) |
| `ChatPage.ExchangeCalls` | frontend/src/pages/ChatPage.tsx:206-214 | `sendMessage` with the content is always the first request; the processing request follows exactly when the send succeeded |
| `ChatPage.AfterExchange` | frontend/src/pages/ChatPage.tsx:206-224 | a failed send leaves the chat unchanged; after a send, the user message is appended; after a processing success as well, the formatted assistant message follows; no other field changes |
| `ChatPage.ExchangeOnlyAppends` | frontend/src/pages/ChatPage.tsx:206-224 | a submission only appends: at most two messages, the user's before the assistant's |
| `ChatPage.Component.constructor` | frontend/src/pages/ChatPage.tsx:40-44 | the page's initial local state |
| `ChatPage.Component.LoadChats` | frontend/src/pages/ChatPage.tsx:53-71 | an unauthenticated visitor goes to /login with no request; otherwise one `getChats` with success or failure stored, loading off, and the current chat untouched |
| `ChatPage.Component.EnsureCurrentChat` | frontend/src/pages/ChatPage.tsx:73-78 | a chat is created exactly when there is no current one |
| `ChatPage.Component.CreateNewChat` | frontend/src/pages/ChatPage.tsx:81-88 | asks for a chat titled "New Chat"; on success it becomes current and first in the list; on failure the alert, with the store unchanged |
| `ChatPage.Component.HandleFileChange` | frontend/src/pages/ChatPage.tsx:95-110 | a non-PDF is refused with an alert and no request; a PDF is remembered and submitted at once |
| `ChatPage.Component.Exchange` | frontend/src/pages/ChatPage.tsx:206-226 | the shared send / push / process / push protocol: the new current chat, requests and alert are those of `AfterExchange`, `ExchangeCalls` and the failure alert |
| `ChatPage.Component.HandleFileSubmit` | frontend/src/pages/ChatPage.tsx:112-152 | with no current chat nothing happens; otherwise the exchange with "I uploaded a PDF: name", then the file cleared and processing off |
| `ChatPage.Component.HandleUrlSubmit` | frontend/src/pages/ChatPage.tsx:154-193 | no chat or an empty URL: an alert and no request; otherwise the exchange with "I shared this URL: url", then the URL cleared and processing off |
| `ChatPage.Component.HandleTextSubmit` | frontend/src/pages/ChatPage.tsx:195-230 | no chat or a blank message changes nothing; otherwise the untrimmed message is exchanged, and the input is cleared exactly when the send succeeded |
| `ChatPage.Component.HandleSubmit` | frontend/src/pages/ChatPage.tsx:232-245 | on tab 0 exactly the outcome of `handleTextSubmit` (refusal, or the exchange with its transcript, alert, cleared input and `isProcessing` reset), on tab 1 exactly that of `handleUrlSubmit` (the "Please enter a URL" alert, or the exchange and the cleared URL); any other tab changes nothing |
| `HistoryPage.FilteredChats` | frontend/src/pages/HistoryPage.tsx:57-62 | a chat is kept exactly when its lower-cased title or some message's lower-cased content contains the lower-cased query; order kept (subsequence) |
| `HistoryPage.EmptyQueryKeepsAll` | frontend/src/pages/HistoryPage.tsx:57-62 | an empty query lists every chat, in order |
| `HistoryPage.SearchIgnoresQueryCase` | frontend/src/pages/HistoryPage.tsx:57-62 | a query and its lower-cased form select the same chats |
| `HistoryPage.FilterSplits` | frontend/src/pages/HistoryPage.tsx:57-62 | filtering a concatenation gives the concatenation of the filtered parts |
| `HistoryPage.Preview` | frontend/src/pages/HistoryPage.tsx:230-233 | the last message's first 100 characters, with "..." exactly when it is longer; empty without messages |
| `HistoryPage.Component.constructor` | frontend/src/pages/HistoryPage.tsx:13 | the search box starts empty |
| `HistoryPage.Component.Listed` | frontend/src/pages/HistoryPage.tsx:57-62 | the listed chats are the matching chats of the store, all of them for an empty query |
| `HistoryPage.Component.LoadChats` | frontend/src/pages/HistoryPage.tsx:20-38 | as on the chat page, with the history page's failure text |
| `HistoryPage.Component.HandleChatSelect` | frontend/src/pages/HistoryPage.tsx:40-43 | the chosen chat becomes current and the page moves to /chat |
| `HistoryPage.Component.HandleDeleteChat` | frontend/src/pages/HistoryPage.tsx:45-55 | the server is asked first; the store drops the chat only on success; a failure leaves it unchanged |
| `FormRules.EmailError` | frontend/src/pages/LoginPage.tsx:21-29 | empty: "Email is required"; no match of `\S+@\S+\.\S+`: "Email is invalid"; otherwise no error |
| `FormRules.PasswordError` | frontend/src/pages/LoginPage.tsx:31-39 | empty: "Password is required"; fewer than six UTF-16 units (JavaScript's `length`): "Password must be at least 6 characters"; no error exactly when at least six units |
| `FormRules.AcceptedEmailShape` | frontend/src/pages/LoginPage.tsx:24 | an accepted email has at least five characters and an `@` neither first nor among the last three |
| `FormRules.EmailExamples` | frontend/src/pages/LoginPage.tsx:24 | the pattern is unanchored ("a b@cd.e f" passes) and needs a dot after a non-empty domain |
| `Api.DetailOr` | frontend/src/pages/LoginPage.tsx:82 | the server's `detail` unless it is absent or empty, then the fallback |
| `LoginPage.Component.constructor` | frontend/src/pages/LoginPage.tsx:9-12 | the form starts empty |
| `LoginPage.Component.ValidateForm` | frontend/src/pages/LoginPage.tsx:18-42 | both fields are checked every time, each error set or cleared; valid exactly when neither has an error |
| `LoginPage.Component.HandleSubmit` | frontend/src/pages/LoginPage.tsx:44-86 | an invalid form makes no request and dispatches nothing; a valid one produces the login trace |
| `LoginPage.LoginStartsAndEndsOnce` | frontend/src/pages/LoginPage.tsx:49-85 | `loginStart` and the login request with the form's email and password come first; `loginSuccess` occurs exactly when both requests succeed; no second `loginStart` |
| `LoginPage.RejectedLoginReportsDetail` | frontend/src/pages/LoginPage.tsx:81-85 | a rejected login reports the detail or "Invalid credentials", stores no token and never calls `getMe` |
| `LoginPage.TokenStoredBeforeGetMe` | frontend/src/pages/LoginPage.tsx:53-80 | the token is saved before `getMe` is requested; a failing `getMe` dispatches the fixed failure; a successful one dispatches `loginSuccess` with the user and token |
| `RegisterPage.UsernameError` | frontend/src/pages/RegisterPage.tsx:26-34 | empty: "Username is required"; fewer than three UTF-16 units: "Username must be at least 3 characters"; no error exactly when at least three units |
| `RegisterPage.ConfirmError` | frontend/src/pages/RegisterPage.tsx:56-64 | empty: "Please confirm your password"; present but different: "Passwords do not match"; no error exactly when the confirmation is present and equals the password |
| `RegisterPage.Component.constructor` | frontend/src/pages/RegisterPage.tsx:9-17 | the form starts empty |
| `RegisterPage.Component.ValidateForm` | frontend/src/pages/RegisterPage.tsx:23-67 | all four fields are checked every time; valid exactly when none has an error |
| `RegisterPage.Component.HandleSubmit` | frontend/src/pages/RegisterPage.tsx:69-102 | an invalid form makes no request; a valid one produces the registration trace |
| `RegisterPage.ValidFormFields` | frontend/src/pages/RegisterPage.tsx:23-67 | a valid form has a username of at least 3 and a password and confirmation of at least 6 UTF-16 units (so at least 2 and 3 code points), and an email of at least 5 characters |
| `RegisterPage.RegisterThenLogin` | frontend/src/pages/RegisterPage.tsx:78-90 | after a successful register request the client logs in with the same email and password; `registerSuccess` carries the registered user and the login token |
| `RegisterPage.FailureReportsDetail` | frontend/src/pages/RegisterPage.tsx:96-101 | a failure of either request dispatches `registerFailure` with the detail or the default text, and never navigates |
| `Models.RoleName` | backend/app/models/chat.py:26 | the stored role is "user" exactly for user messages |
| `Models.ChatsValidAppend` | backend/app/api/endpoints/chat.py:68-75 | inserting a chat of a stored user under the next id keeps the chat table valid |
| `Models.MessagesValidAppend` | backend/app/api/endpoints/chat.py:119-128 | inserting a message of a stored chat under the next id keeps the message table valid |
| `Models.Database.constructor` | backend/app/models/chat.py:7-28 | empty tables, counters at 1, every table invariant holding |
| `Deps.FindUser` | backend/app/api/deps.py:38 | the first user with the id, absent exactly when there is none |
| `Deps.TokenUserId` | backend/app/api/deps.py:26-32 | a user id exactly when the token decodes and carries `user_id`, and then that claim |
| `Deps.GetCurrentUser` | backend/app/api/deps.py:16-43 | success exactly when the token names a stored user, who is returned; every failure is the same 401 |
| `Deps.GetCurrentActiveUser` | backend/app/api/deps.py:45-51 | the current user when active; an inactive one is 400 "Inactive user"; a failed `get_current_user` is passed through unchanged (the 401) |
| `Deps.AdmitsNamedActiveUser` | backend/app/api/deps.py:16-51 | with distinct user ids, a token admits exactly the active stored user it names |
| `UserSchema.ValidateUsername` | backend/app/schemas/user.py:12-18 | accepted exactly when at least 3 characters and alphanumeric, then unchanged; the length message takes precedence |
| `UserSchema.ValidateUserCreate` | backend/app/schemas/user.py:5-18 | the body is accepted exactly when every field passes, carrying the email as `EmailStr` normalises it; otherwise every failing field is reported, and only those |
| `UserSchema.TokenDataOf` | backend/app/schemas/user.py:40-41 | `user_id` is set exactly when the claim is present |
| `UserSchema.MissingClaimDefaultsToNone` | backend/app/schemas/user.py:40-41 | other claims never supply a user id |
| `UserSchema.LengthCheckedFirst` | backend/app/schemas/user.py:13-17 | "ab" and "a!" fail on length, "ab!" on characters, "abc1" passes |
| `AuthEndpoints.Register` | backend/app/api/endpoints/auth.py:22-53 | a known email is refused first, then a taken username; otherwise exactly one active user with the hashed password is appended under the next id; the database stays valid and the other tables are unchanged |
| `AuthEndpoints.Login` | backend/app/api/endpoints/auth.py:55-77 | a 401 exactly when authentication fails; otherwise a bearer token for the user's id |
| `AuthEndpoints.ReadUsersMe` | backend/app/api/endpoints/auth.py:79-86 | a token that does not decode, has no user id, or names no stored user: 401; the stored user it names: that user when active, otherwise 400 "Inactive user" |
| `ChatEndpoints.ChatMessages` | backend/app/api/endpoints/chat.py:46 | exactly the chat's messages, in storage order |
| `ChatEndpoints.MessageCountAppend` | backend/app/api/endpoints/chat.py:46 | storing a message adds one to its own chat's count and leaves every other count |
| `ChatEndpoints.OwnedChats` | backend/app/api/endpoints/chat.py:36 | exactly the user's chats |
| `ChatEndpoints.ChatsByRecency` | backend/app/api/endpoints/chat.py:34-37 | a permutation of the user's chats with `updated_at` non-increasing |
| `ChatEndpoints.ChatWindow` | backend/app/api/endpoints/chat.py:38-39 | `offset(skip).limit(limit)`: exactly the elements from position `skip`, at most `limit` of them |
| `ChatEndpoints.ChatWindowOwnedAndRecent` | backend/app/api/endpoints/chat.py:34-41 | a page holds only the user's chats, newest first; the first page with a large enough limit holds all of them |
| `ChatEndpoints.Summary` | backend/app/api/endpoints/chat.py:46-55 | the chat's own fields and the number of messages stored for it |
| `ChatEndpoints.Summaries` | backend/app/api/endpoints/chat.py:44-57 | the loop yields one summary per chat, in page order |
| `ChatEndpoints.GetChats` | backend/app/api/endpoints/chat.py:24-57 | the dependency's error, or one summary per chat of the selected page |
| `ChatEndpoints.FindOwnedChat` | backend/app/api/endpoints/chat.py:88-92 | the first chat with that id and owner, absent exactly when there is none |
| `ChatEndpoints.GetChat` | backend/app/api/endpoints/chat.py:79-97 | a failed dependency passes its error through; for the current user, any error is the 404, and it occurs exactly when the user owns no chat with that id (absent or foreign); otherwise a stored chat with that id and owner, with its messages |
| `ChatEndpoints.CreateChat` | backend/app/api/endpoints/chat.py:59-77 | a new chat of the current user under the next id, created and updated now; the database stays valid |
| `ChatEndpoints.History` | backend/app/api/endpoints/chat.py:133-138 | a permutation of the chat's messages ordered by `created_at` |
| `ChatEndpoints.ContextLines` | backend/app/api/endpoints/chat.py:141 | one "role: content" line per history message, in order |
| `ChatEndpoints.NewMessageInHistory` | backend/app/api/endpoints/chat.py:126-138 | the message just stored is part of the history its context is built from |
| `ChatEndpoints.ContextSplitsIntoLines` | backend/app/api/endpoints/chat.py:141 | when no content holds a newline, the context splits back into exactly one line per message |
| `ChatEndpoints.Store` | backend/app/api/endpoints/chat.py:126-128 | one message appended under the next id; the database stays valid; nothing else changes |
| `ChatEndpoints.Touch` | backend/app/api/endpoints/chat.py:167-169 | only that chat's `updated_at` changes; the database stays valid |
| `ChatEndpoints.Reply` | backend/app/api/endpoints/chat.py:130-165 | the model is asked with the chat's history as context; exactly a successful answer is stored as an assistant message |
| `ChatEndpoints.CreateMessage` | backend/app/api/endpoints/chat.py:99-171 | a missing or foreign chat: 404, nothing stored; otherwise the new message is stored and returned, a user message is answered from the history that includes it, the reply is stored exactly when the answer succeeds, and the chat's `updated_at` becomes the message's `created_at` |
| `ChatEndpoints.CreateMessageRoute` | backend/app/api/endpoints/chat.py:99-105 | a failed dependency returns its error and changes nothing; otherwise the whole outcome of `CreateMessage` for the current user (`MessageCreated`), so a success returns the stored message with the given content and role |
| `ChatEndpoints.ProcessTextRoute` | backend/app/api/endpoints/chat.py:173-182 | the dependency's error, or the text service's envelope |
| `ChatEndpoints.ProcessPdfRoute` | backend/app/api/endpoints/chat.py:184-197 | the dependency's error, or the PDF service's envelope |
| `AiService.ParseKeyPoints` | backend/app/services/ai_service.py:162 | exactly the non-blank stripped lines of the stripped reply, in order, each as often as it occurs |
| `AiService.KeyPointsAreStripped` | backend/app/services/ai_service.py:162 | no key point is empty or has white space at either end |
| `AiService.BlankLineDropped` | backend/app/services/ai_service.py:162 | "1. a\n\n2. b" parses to ["1. a", "2. b"] |
| `AiService.GenerateSummary` | backend/app/services/ai_service.py:115-135 | the chain's reply stripped, or its exception; a summary never has white space at either end |
| `AiService.ExtractKeyPoints` | backend/app/services/ai_service.py:137-164 | the model is given the documents joined by spaces; its reply is parsed, or its exception passed on |
| `AiService.ProcessText` | backend/app/services/ai_service.py:26-48 | status "success" exactly when both steps succeed, with their results; otherwise the error envelope whose message is the text of the first step that raised: the summarisation's, or else the key-point extraction's; a summary never starts or ends with Python white space |
| `AiService.ExtractTextFromPdf` | backend/app/services/ai_service.py:166-174 | the loop concatenates the pages' texts in page order |
| `AiService.PdfPagesInOrder` | backend/app/services/ai_service.py:170-172 | each page's text appears whole, between the texts before and after it |
| `AiService.ProcessPdf` | backend/app/services/ai_service.py:50-76 | a file error gives an error without a source; otherwise the text result with the PDF source added, whatever its status |
| `AiService.AnswerQuestion` | backend/app/services/ai_service.py:78-113 | "success" with the model's answer exactly when the model answers; otherwise the error envelope |
| `Text.Utf16Length` | frontend/src/pages/LoginPage.tsx:34 | JavaScript's `length` lies between the number of code points and twice it, and equals it when no character is outside the Basic Multilingual Plane |
| `Text.SpaceSetsDiffer` | frontend/src/pages/ChatPage.tsx:36 | JavaScript's `trim` and Python's `strip` differ by U+FEFF on one side and U+001C..U+001F and U+0085 on the other |
| `Integration.ClientView` | backend/app/api/endpoints/chat.py:173-182 | the formatter sees the envelope's summary and key points and no `response` |
| `Integration.ErrorEnvelopeRendersPlaceholder` | backend/app/services/ai_service.py:44-48 | a failed processing arrives resolved and is rendered as "No content available", not as its error message |
| `Integration.SummaryShownFirst` | frontend/src/pages/ChatPage.tsx:19-21 | a non-empty summary that does not end in white space or U+FEFF is shown first, under its heading |
| `Integration.ProcessedSummaryShownFirst` | backend/app/services/ai_service.py:33-42 | a successful processing shows its stripped summary first, unless the summary ends in U+FEFF |
| `Integration.ClientPasswordMeetsServer` | backend/app/schemas/user.py:10 | a password the form accepts meets the schema's minimum of six code points when it holds no character outside the Basic Multilingual Plane; in general it holds at least three |
| `Integration.AstralPasswordRulesDiffer` | frontend/src/pages/RegisterPage.tsx:49 | "\U{1F600}\U{1F600}\U{1F600}" (three emoji, six UTF-16 units) passes the form's password rule and is refused by the schema as too short |
| `Integration.UsernameRulesDiffer` | frontend/src/pages/RegisterPage.tsx:26-34 | "ab!" passes the form and is refused by the schema |
| `Integration.ServerUsernamePassesClient` | backend/app/schemas/user.py:12-18 | every username the schema accepts passes the form |

## Left out

- **Transport.**
  - HTTP, the bearer header and JSON (de)serialisation are not modelled.
  - The login request sends the email in the OAuth2 form's `username` field. `AuthEndpoints.Login`
    takes it as such.
- **Asynchrony and React's scheduling.**
  - Every handler runs to completion with its outcomes given.
  - Overlapping submissions (the interface disables the button while processing) are not modelled.
  - State setters are modelled as immediate assignment.
  - Alerts other than the returned text, scrolling, and the reset of `fileInputRef` are not modelled.
- **The authentication reducers.** `authSlice` is not part of this model. Its events appear as opaque
  values in the effect traces.
- **The URL and delete routes.** The client's `processUrl` and `deleteChat` requests have no route
  among the server's endpoints. They appear only as requests with given outcomes.
- **What `GET /chat/` returns.** It returns summaries without `messages`, while the client stores
  them as chats with messages. The history page's search and preview are modelled on the
  client's type.
- **The users table.**
  - `models/user.py` is not part of this model: users are `UserRow` values, and registration
    stores them active.
  - `authenticate_user`, `get_password_hash` and `create_access_token` are parameters.
    "The stored hash differs from the password" is therefore not stated.
  - `get_user_by_email`, whose body is not part of this model, is modelled as exact equality
    with a stored email (`AuthEndpoints.EmailInUse`). The stored and the incoming emails are
    both already normalised by `EmailStr`.
- **Token decoding.**
  - JWT signature, expiry and algorithm checks are the `decode` parameter.
  - A `user_id` claim of a non-integer type is not modelled.
- **Email syntax.** `EmailStr` validation and normalisation are the `parseEmail` parameter of
  `UserSchema.ValidateUserCreate`.
- `Api.DetailOr`: the server's `detail` is modelled as text only. A 422 validation failure sends a
  list of error objects, which the pages dispatch as the failure and show as "[object Object]";
  that case is not modelled.
- `UserSchema.ValidateUsername`: `str.isalnum` is restricted to ASCII letters and digits, because
  Unicode character classes are not modelled.
- `HistoryPage.FilteredChats`: `toLowerCase` is restricted to ASCII letters, because Unicode case
  mapping is not modelled.
- **Strings.** Strings are sequences of code points, not UTF-16 units. The form rules' length
  thresholds count UTF-16 units through `Text.Utf16Length`, as JavaScript's `length` does.
- `HistoryPage.Preview`: lengths count code points. JavaScript's `substring(0, 100)` counts
  UTF-16 units, so the preview differs for text outside the Basic Multilingual Plane.
- **Timestamps.**
  - Timestamps are naturals, and `new Date().toISOString()` and UUIDs are given by the caller.
  - `ChatEndpoints.ChatsByRecency` and `ChatEndpoints.History` break ties of `updated_at` /
    `created_at` by storage order, a stable sort. SQL leaves the order of ties unspecified.
- **Message order of one chat.** `ChatEndpoints.GetChat` returns a chat's messages in storage
  order; the ORM relationship's order is not specified by the source.
- **Paging.** `skip` and `limit` are naturals. Negative values, which SQL would reject or treat
  specially, are not modelled.
- **Message metadata.** `message_metadata` is not stored.
- **The reply content.** The extraction of `.content` from the model's reply object is folded into
  the `answer` and `extractPoints` parameters.
- **The language-model side.**
  - The prompts, the text splitter's chunking, and the summarisation chain are parameters.
  - Temporary PDF storage and PDF text extraction are the `read` outcome. Its pages are what
    `page.extract_text()` returns.
- `Integration.SummaryShownFirst`: excludes a summary whose last character is U+FEFF. Python's
  `strip` keeps that character and JavaScript's `trim` removes it, so the heading and the summary
  are then not a prefix of the output.
- **Configuration and start-up.** The CORS set-up, router mounting and configuration loading
  (`main.py`, `config.py`) are not part of this model.
