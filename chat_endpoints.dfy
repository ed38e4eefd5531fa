/** The chat endpoints: listing the user's chats with message counts, creating a chat,
    reading one chat, adding a message (with the assistant's reply for user messages) and
    the two document-processing routes. Every route first runs the active-user dependency. */
module ChatEndpoints {
  import opened Wrappers
  import opened Text
  import Seqs
  import opened Models
  import opened Deps
  import opened AiService

  const ChatNotFound: HttpError := HttpError(404, "Chat not found")
  const DefaultSkip: nat := 0
  const DefaultLimit: nat := 100

  /** One entry of the chat list. */
  datatype ChatSummary = ChatSummary(id: nat, title: string, createdAt: nat, updatedAt: nat, messageCount: nat)

  /** A chat with its messages, as `GET /chat/{id}` returns it. */
  datatype ChatDetail = ChatDetail(chat: ChatRow, messages: seq<MessageRow>)

  /** The messages of chat `chatId`, in storage order. */
  function ChatMessages(messages: seq<MessageRow>, chatId: nat): (r: seq<MessageRow>)
    ensures forall m :: m in r <==> m in messages && m.chatId == chatId
    ensures Seqs.IsSubsequence(r, messages)
  {
    var keep := (m: MessageRow) => m.chatId == chatId;
    Seqs.FilterIsSubsequence(messages, keep);
    Seqs.Filter(messages, keep)
  }

  /** The number of messages with `chat_id == chatId`. */
  function MessageCount(messages: seq<MessageRow>, chatId: nat): nat {
    |ChatMessages(messages, chatId)|
  }

  /** Storing one message adds one to its own chat's count and leaves every other count. */
  lemma MessageCountAppend(messages: seq<MessageRow>, m: MessageRow, chatId: nat)
    ensures MessageCount(messages + [m], chatId) == MessageCount(messages, chatId) + (if m.chatId == chatId then 1 else 0)
  {
    Seqs.FilterAppend(messages, [m], (x: MessageRow) => x.chatId == chatId);
  }

  /** The chats of user `userId`, in storage order. */
  function OwnedChats(chats: seq<ChatRow>, userId: nat): (r: seq<ChatRow>)
    ensures forall c :: c in r <==> c in chats && c.userId == userId
  {
    Seqs.Filter(chats, (c: ChatRow) => c.userId == userId)
  }

  /** Sorting by this key ascending orders chats by `updated_at` descending. */
  function UpdatedKey(c: ChatRow): int {
    -(c.updatedAt as int)
  }

  /** The user's chats, most recently updated first; ties keep storage order. */
  function ChatsByRecency(chats: seq<ChatRow>, userId: nat): (r: seq<ChatRow>)
    ensures multiset(r) == multiset(OwnedChats(chats, userId))
    ensures forall i, j :: 0 <= i < j < |r| ==> r[i].updatedAt >= r[j].updatedAt
    ensures forall c :: c in r <==> c in chats && c.userId == userId
  {
    var r := Seqs.SortBy(OwnedChats(chats, userId), UpdatedKey);
    assert forall c :: c in r <==> c in multiset(OwnedChats(chats, userId));
    r
  }

  /** The page of the chat list that `skip` and `limit` select: the chats by recency from
      position `skip` on, at most `limit` of them. */
  function ChatWindow(chats: seq<ChatRow>, userId: nat, skip: nat, limit: nat): (r: seq<ChatRow>)
    ensures var all := ChatsByRecency(chats, userId);
      && |r| == (if skip >= |all| then 0 else if |all| - skip < limit then |all| - skip else limit)
      && forall i :: 0 <= i < |r| ==> skip + i < |all| && r[i] == all[skip + i]
  {
    Seqs.Window(ChatsByRecency(chats, userId), skip, limit)
  }

  /** A page holds only the user's own chats, most recently updated first, and the first
      page with a large enough limit holds all of them. */
  lemma ChatWindowOwnedAndRecent(chats: seq<ChatRow>, userId: nat, skip: nat, limit: nat)
    ensures var r := ChatWindow(chats, userId, skip, limit);
      && (forall c :: c in r ==> c in chats && c.userId == userId)
      && (forall i, j :: 0 <= i < j < |r| ==> r[i].updatedAt >= r[j].updatedAt)
      && (skip == 0 && limit >= |OwnedChats(chats, userId)| ==> multiset(r) == multiset(OwnedChats(chats, userId)))
  {
    var all := ChatsByRecency(chats, userId);
    var r := ChatWindow(chats, userId, skip, limit);
    forall c | c in r
      ensures c in all
    {
      var i :| 0 <= i < |r| && r[i] == c;
      assert all[skip + i] == c;
    }
    forall i, j | 0 <= i < j < |r|
      ensures r[i].updatedAt >= r[j].updatedAt
    {
      assert r[i] == all[skip + i] && r[j] == all[skip + j];
    }
    if skip == 0 && limit >= |OwnedChats(chats, userId)| {
      assert r == all;
    }
  }

  /** The list entry of chat `c`: its own fields and the number of messages stored for it. */
  function Summary(c: ChatRow, messages: seq<MessageRow>): (r: ChatSummary)
    ensures r.id == c.id && r.title == c.title && r.createdAt == c.createdAt && r.updatedAt == c.updatedAt
    ensures r.messageCount == |ChatMessages(messages, c.id)|
  {
    ChatSummary(c.id, c.title, c.createdAt, c.updatedAt, MessageCount(messages, c.id))
  }

  /** `GET /chat/`: the selected page of the user's chats, one summary per chat, in page order. */
  method GetChats(db: Database, token: string, decode: string -> Option<map<string, int>>, skip: nat, limit: nat)
    returns (r: Result<seq<ChatSummary>, HttpError>)
    ensures GetCurrentActiveUser(db.users, token, decode).Err? ==> r == Err(GetCurrentActiveUser(db.users, token, decode).error)
    ensures GetCurrentActiveUser(db.users, token, decode).Ok? ==>
      && r.Ok?
      && |r.value| == |ChatWindow(db.chats, GetCurrentActiveUser(db.users, token, decode).value.id, skip, limit)|
      && forall i :: 0 <= i < |r.value| ==>
           r.value[i] == Summary(ChatWindow(db.chats, GetCurrentActiveUser(db.users, token, decode).value.id, skip, limit)[i], db.messages)
  {
    var auth := GetCurrentActiveUser(db.users, token, decode);
    if auth.Err? {
      return Err(auth.error);
    }
    var result := Summaries(ChatWindow(db.chats, auth.value.id, skip, limit), db.messages);
    r := Ok(result);
  }

  /** The loop of `get_chats`: one summary per chat of the page, counting its messages. */
  method Summaries(chats: seq<ChatRow>, messages: seq<MessageRow>) returns (result: seq<ChatSummary>)
    ensures |result| == |chats|
    ensures forall i :: 0 <= i < |chats| ==> result[i] == Summary(chats[i], messages)
  {
    result := [];
    for i := 0 to |chats|
      invariant |result| == i
      invariant forall j :: 0 <= j < i ==> result[j] == Summary(chats[j], messages)
    {
      var messageCount := MessageCount(messages, chats[i].id);
      result := result + [ChatSummary(chats[i].id, chats[i].title, chats[i].createdAt, chats[i].updatedAt, messageCount)];
    }
  }

  /** The position of the first chat with identifier `chatId` owned by `userId`. */
  function FindOwnedChat(chats: seq<ChatRow>, userId: nat, chatId: int): (r: Option<nat>)
    ensures r.Some? ==> r.value < |chats| && chats[r.value].id == chatId && chats[r.value].userId == userId
    ensures r.Some? ==> forall j :: 0 <= j < r.value ==> !(chats[j].id == chatId && chats[j].userId == userId)
    ensures r.None? <==> forall j :: 0 <= j < |chats| ==> !(chats[j].id == chatId && chats[j].userId == userId)
  {
    Seqs.FirstIndex(chats, (c: ChatRow) => c.id == chatId && c.userId == userId)
  }

  /** `GET /chat/{id}`: the chat with its messages when the current user owns a chat with that
      identifier; 404 when there is none, whether it does not exist or belongs to someone else. */
  function GetChat(db: Database, token: string, decode: string -> Option<map<string, int>>, chatId: int)
    : (r: Result<ChatDetail, HttpError>)
    reads db
    ensures GetCurrentActiveUser(db.users, token, decode).Err? ==> r == Err(GetCurrentActiveUser(db.users, token, decode).error)
    ensures GetCurrentActiveUser(db.users, token, decode).Ok? ==>
      var user := GetCurrentActiveUser(db.users, token, decode).value;
      && (r == Err(ChatNotFound) <==> forall j :: 0 <= j < |db.chats| ==> !(db.chats[j].id == chatId && db.chats[j].userId == user.id))
      && (r.Err? ==> r == Err(ChatNotFound))
      && (r.Ok? ==> r.value.chat in db.chats && r.value.chat.id == chatId && r.value.chat.userId == user.id
                    && r.value.messages == ChatMessages(db.messages, r.value.chat.id))
  {
    match GetCurrentActiveUser(db.users, token, decode)
    case Err(e) => Err(e)
    case Ok(user) =>
      match FindOwnedChat(db.chats, user.id, chatId)
      case None => Err(ChatNotFound)
      case Some(k) => Ok(ChatDetail(db.chats[k], ChatMessages(db.messages, db.chats[k].id)))
  }

  /** `POST /chat/`: a new chat owned by the current user, numbered by the counter, created and
      updated at `now`. */
  method CreateChat(db: Database, token: string, decode: string -> Option<map<string, int>>, title: string, now: nat)
    returns (r: Result<ChatRow, HttpError>)
    requires db.Valid()
    modifies db
    ensures db.Valid()
    ensures GetCurrentActiveUser(db.users, token, decode).Err? ==>
      r == Err(GetCurrentActiveUser(db.users, token, decode).error)
      && db.chats == old(db.chats) && db.nextChatId == old(db.nextChatId)
    ensures GetCurrentActiveUser(db.users, token, decode).Ok? ==>
      && r == Ok(ChatRow(old(db.nextChatId), title, GetCurrentActiveUser(db.users, token, decode).value.id, now, now))
      && db.chats == old(db.chats) + [r.value]
      && db.nextChatId == old(db.nextChatId) + 1
    ensures db.users == old(db.users) && db.messages == old(db.messages)
    ensures db.nextUserId == old(db.nextUserId) && db.nextMessageId == old(db.nextMessageId)
  {
    var auth := GetCurrentActiveUser(db.users, token, decode);
    if auth.Err? {
      return Err(auth.error);
    }
    var chat := ChatRow(db.nextChatId, title, auth.value.id, now, now);
    var u :| 0 <= u < |db.users| && db.users[u] == auth.value;
    ChatsValidAppend(db.users, db.chats, chat, db.nextChatId);
    MessagesValidSameChatIds(db.chats, db.chats + [chat], db.messages, db.nextMessageId);
    db.chats := db.chats + [chat];
    db.nextChatId := db.nextChatId + 1;
    r := Ok(chat);
  }

  /** Orders a chat's messages by `created_at`. */
  function CreatedKey(m: MessageRow): int {
    m.createdAt as int
  }

  /** The chat's messages by `created_at`; ties keep storage order. */
  function History(messages: seq<MessageRow>, chatId: nat): (r: seq<MessageRow>)
    ensures multiset(r) == multiset(ChatMessages(messages, chatId))
    ensures forall i, j :: 0 <= i < j < |r| ==> r[i].createdAt <= r[j].createdAt
  {
    Seqs.SortBy(ChatMessages(messages, chatId), CreatedKey)
  }

  /** One line of the context: the stored role, a colon and a space, and the content. */
  function ContextLine(m: MessageRow): string {
    RoleName(m.role) + ": " + m.content
  }

  function ContextLines(history: seq<MessageRow>): (r: seq<string>)
    ensures |r| == |history|
    ensures forall i :: 0 <= i < |r| ==> r[i] == ContextLine(history[i])
  {
    seq(|history|, i requires 0 <= i < |history| => ContextLine(history[i]))
  }

  /** The context handed to the model: the history's lines joined by newlines. */
  function Context(history: seq<MessageRow>): string {
    Join(ContextLines(history), '\n')
  }

  /** The stored message is part of the history its own context is built from. */
  lemma NewMessageInHistory(messages: seq<MessageRow>, m: MessageRow)
    ensures m in History(messages + [m], m.chatId)
  {
    var own := ChatMessages(messages + [m], m.chatId);
    assert m in own;
    assert m in multiset(own);
    assert m in multiset(History(messages + [m], m.chatId));
  }

  /** When no content holds a newline, the context splits back into exactly one line per
      message of the history, in order. */
  lemma ContextSplitsIntoLines(history: seq<MessageRow>)
    requires |history| >= 1
    requires forall i :: 0 <= i < |history| ==> '\n' !in history[i].content
    ensures Split(Context(history), '\n') == ContextLines(history)
  {
    var lines := ContextLines(history);
    forall i | 0 <= i < |lines|
      ensures '\n' !in lines[i]
    {
      assert '\n' !in RoleName(history[i].role) + ": ";
    }
    SplitJoin(lines, '\n');
  }

  /** Inserts one message row, numbered by the counter, into a stored chat. */
  method Store(db: Database, m: MessageRow)
    requires db.Valid() && m.id == db.nextMessageId && HasChat(db.chats, m.chatId)
    modifies db
    ensures db.Valid()
    ensures db.messages == old(db.messages) + [m] && db.nextMessageId == old(db.nextMessageId) + 1
    ensures db.users == old(db.users) && db.chats == old(db.chats)
    ensures db.nextUserId == old(db.nextUserId) && db.nextChatId == old(db.nextChatId)
  {
    MessagesValidAppend(db.chats, db.messages, m, db.nextMessageId);
    db.messages := db.messages + [m];
    db.nextMessageId := db.nextMessageId + 1;
  }

  /** `chat.updated_at = t` for the chat at position `k`. */
  method Touch(db: Database, k: nat, t: nat)
    requires db.Valid() && k < |db.chats|
    modifies db
    ensures db.Valid()
    ensures db.chats == old(db.chats)[k := old(db.chats)[k].(updatedAt := t)]
    ensures db.users == old(db.users) && db.messages == old(db.messages)
    ensures db.nextUserId == old(db.nextUserId) && db.nextChatId == old(db.nextChatId)
    ensures db.nextMessageId == old(db.nextMessageId)
  {
    var touched := db.chats[k := db.chats[k].(updatedAt := t)];
    ChatsValidTouch(db.users, db.chats, k, t, db.nextChatId);
    MessagesValidSameChatIds(db.chats, touched, db.messages, db.nextMessageId);
    db.chats := touched;
  }

  /** The reply step of `create_message`: the model is asked about `content` with the chat's
      history as context, and a successful answer is stored as an assistant message. */
  method Reply(db: Database, chatId: nat, content: string, later: nat, b: Backend) returns (context: string)
    requires db.Valid() && HasChat(db.chats, chatId)
    modifies db
    ensures db.Valid()
    ensures context == Context(History(old(db.messages), chatId))
    ensures AnswerQuestion(b, content, context).status == StatusSuccess ==>
      && db.messages == old(db.messages) + [MessageRow(old(db.nextMessageId), chatId,
                                                      AnswerQuestion(b, content, context).answer.value, Assistant, later)]
      && db.nextMessageId == old(db.nextMessageId) + 1
    ensures AnswerQuestion(b, content, context).status != StatusSuccess ==>
      db.messages == old(db.messages) && db.nextMessageId == old(db.nextMessageId)
    ensures db.users == old(db.users) && db.chats == old(db.chats)
    ensures db.nextUserId == old(db.nextUserId) && db.nextChatId == old(db.nextChatId)
  {
    context := Context(History(db.messages, chatId));
    var response := AnswerQuestion(b, content, context);
    if response.status == StatusSuccess {
      Store(db, MessageRow(db.nextMessageId, chatId, response.answer.value, Assistant, later));
    }
  }

  /** What storing a message changed, from the state before (`old`) to the state after: for a
      chat the user does not own, a 404 and nothing; otherwise the new message numbered by the
      counter, for a user message the model asked with the chat's history as context and its
      successful answer appended, and the chat's `updated_at` moved to `now`. Users and the
      other counters never change. */
  twostate predicate MessageCreated(db: Database, user: UserRow, chatId: int, content: string, role: Role,
                                    now: nat, later: nat, b: Backend, new r: Result<MessageRow, HttpError>,
                                    new asked: Option<string>)
    reads db
  {
    && db.users == old(db.users) && db.nextUserId == old(db.nextUserId) && db.nextChatId == old(db.nextChatId)
    && (FindOwnedChat(old(db.chats), user.id, chatId).None? ==>
        && r == Err(ChatNotFound) && asked == None
        && db.chats == old(db.chats) && db.messages == old(db.messages) && db.nextMessageId == old(db.nextMessageId))
    && (FindOwnedChat(old(db.chats), user.id, chatId).Some? ==>
        var k := FindOwnedChat(old(db.chats), user.id, chatId).value;
        var message := MessageRow(old(db.nextMessageId), old(db.chats)[k].id, content, role, now);
        var stored := old(db.messages) + [message];
        && r == Ok(message)
        && db.chats == old(db.chats)[k := old(db.chats)[k].(updatedAt := now)]
        && (role == Assistant ==> asked == None && db.messages == stored && db.nextMessageId == old(db.nextMessageId) + 1)
        && (role == User ==> asked == Some(Context(History(stored, message.chatId))))
        && (role == User && AnswerQuestion(b, content, asked.value).status == StatusSuccess ==>
              && db.messages == stored + [MessageRow(old(db.nextMessageId) + 1, message.chatId,
                                                     AnswerQuestion(b, content, asked.value).answer.value, Assistant, later)]
              && db.nextMessageId == old(db.nextMessageId) + 2)
        && (role == User && AnswerQuestion(b, content, asked.value).status != StatusSuccess ==>
              db.messages == stored && db.nextMessageId == old(db.nextMessageId) + 1))
  }

  /** `POST /chat/{id}/messages` for the current user `user`. An unknown or foreign chat is a
      404 and nothing is stored. Otherwise the message is stored, numbered by the counter and
      created at `now`; for a user message the model is asked with the chat's history as
      context (`asked`), and its answer is stored as an assistant message created at `later`
      when the answer succeeded. The chat's `updated_at` becomes the message's `created_at`,
      and the stored message, not the reply, is returned. */
  method CreateMessage(db: Database, user: UserRow, chatId: int, content: string, role: Role,
                       now: nat, later: nat, b: Backend)
    returns (r: Result<MessageRow, HttpError>, asked: Option<string>)
    requires db.Valid()
    modifies db
    ensures db.Valid()
    ensures MessageCreated(db, user, chatId, content, role, now, later, b, r, asked)
  {
    var found := FindOwnedChat(db.chats, user.id, chatId);
    if found.None? {
      return Err(ChatNotFound), None;
    }
    var k := found.value;
    var chat := db.chats[k];
    var message := MessageRow(db.nextMessageId, chat.id, content, role, now);
    assert HasChat(db.chats, chat.id);
    Store(db, message);
    asked := None;
    if role == User {
      var context := Reply(db, chat.id, content, later, b);
      asked := Some(context);
    }
    Touch(db, k, message.createdAt);
    r := Ok(message);
  }

  /** The route itself: the active-user dependency, then `CreateMessage` for that user. */
  method CreateMessageRoute(db: Database, token: string, decode: string -> Option<map<string, int>>, chatId: int,
                            content: string, role: Role, now: nat, later: nat, b: Backend)
    returns (r: Result<MessageRow, HttpError>, asked: Option<string>)
    requires db.Valid()
    modifies db
    ensures db.Valid()
    ensures GetCurrentActiveUser(old(db.users), token, decode).Err? ==>
      && r == Err(GetCurrentActiveUser(old(db.users), token, decode).error) && asked == None
      && db.users == old(db.users) && db.chats == old(db.chats) && db.messages == old(db.messages)
      && db.nextUserId == old(db.nextUserId) && db.nextChatId == old(db.nextChatId) && db.nextMessageId == old(db.nextMessageId)
    ensures GetCurrentActiveUser(old(db.users), token, decode).Ok? ==>
      MessageCreated(db, GetCurrentActiveUser(old(db.users), token, decode).value, chatId, content, role, now, later, b, r, asked)
    ensures GetCurrentActiveUser(old(db.users), token, decode).Ok? && r.Ok? ==>
      && r.value.id == old(db.nextMessageId) && r.value.content == content && r.value.role == role
      && r.value in db.messages
  {
    var auth := GetCurrentActiveUser(db.users, token, decode);
    if auth.Err? {
      return Err(auth.error), None;
    }
    r, asked := CreateMessage(db, auth.value, chatId, content, role, now, later, b);
    if r.Ok? {
      assert db.messages[old(|db.messages|)] == r.value;
    }
  }

  /** `POST /chat/process-text`: the text service's envelope, after the active-user check. */
  function ProcessTextRoute(users: seq<UserRow>, token: string, decode: string -> Option<map<string, int>>,
                            b: Backend, text: string): (r: Result<Envelope, HttpError>)
    ensures GetCurrentActiveUser(users, token, decode).Err? ==> r == Err(GetCurrentActiveUser(users, token, decode).error)
    ensures GetCurrentActiveUser(users, token, decode).Ok? ==> r == Ok(ProcessText(b, text))
  {
    match GetCurrentActiveUser(users, token, decode)
    case Err(e) => Err(e)
    case Ok(_) => Ok(ProcessText(b, text))
  }

  /** `POST /chat/process-pdf`: the PDF service's envelope for the uploaded file, after the
      active-user check; `read` is the outcome of reading the upload's pages. */
  method ProcessPdfRoute(users: seq<UserRow>, token: string, decode: string -> Option<map<string, int>>,
                         b: Backend, read: Outcome<seq<string>>, filename: string)
    returns (r: Result<Envelope, HttpError>)
    ensures GetCurrentActiveUser(users, token, decode).Err? ==> r == Err(GetCurrentActiveUser(users, token, decode).error)
    ensures GetCurrentActiveUser(users, token, decode).Ok? && read.Raised? ==> r == Ok(Failure(read.message))
    ensures GetCurrentActiveUser(users, token, decode).Ok? && read.Done? ==>
      r == Ok(ProcessText(b, Seqs.Flatten(read.value)).(source := Some(Source(PdfSourceType, filename))))
  {
    var auth := GetCurrentActiveUser(users, token, decode);
    if auth.Err? {
      return Err(auth.error);
    }
    var result := ProcessPdf(b, read, filename);
    r := Ok(result);
  }
}
