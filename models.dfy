/** The server's tables, held in memory: users, chats and messages, each with an
    auto-increment identifier, and the HTTP errors the endpoints raise. Timestamps are
    naturals supplied by the caller. */
module Models {

  datatype Role = User | Assistant

  /** The stored form of a role, as the `role` column holds it. */
  function RoleName(r: Role): (s: string)
    ensures s == "user" <==> r == User
  {
    match r
    case User => "user"
    case Assistant => "assistant"
  }

  datatype UserRow = UserRow(id: nat, email: string, username: string, hashedPassword: string, isActive: bool)

  datatype ChatRow = ChatRow(id: nat, title: string, userId: nat, createdAt: nat, updatedAt: nat)

  datatype MessageRow = MessageRow(id: nat, chatId: nat, content: string, role: Role, createdAt: nat)

  /** A raised `HTTPException`. */
  datatype HttpError = HttpError(status: nat, detail: string)

  /** Users have distinct identifiers below the counter, distinct emails and distinct usernames. */
  predicate UsersValid(users: seq<UserRow>, nextUserId: nat) {
    (forall i :: 0 <= i < |users| ==> users[i].id < nextUserId) &&
    (forall i, j :: 0 <= i < j < |users| ==>
       users[i].id != users[j].id && users[i].email != users[j].email && users[i].username != users[j].username)
  }

  predicate HasUser(users: seq<UserRow>, id: nat) {
    exists u :: 0 <= u < |users| && users[u].id == id
  }

  predicate HasChat(chats: seq<ChatRow>, id: nat) {
    exists c :: 0 <= c < |chats| && chats[c].id == id
  }

  /** Chats have distinct identifiers below the counter and belong to stored users. */
  predicate ChatsValid(users: seq<UserRow>, chats: seq<ChatRow>, nextChatId: nat) {
    (forall i :: 0 <= i < |chats| ==> chats[i].id < nextChatId && HasUser(users, chats[i].userId)) &&
    (forall i, j :: 0 <= i < j < |chats| ==> chats[i].id != chats[j].id)
  }

  /** Messages have distinct identifiers below the counter and belong to stored chats. */
  predicate MessagesValid(chats: seq<ChatRow>, messages: seq<MessageRow>, nextMessageId: nat) {
    (forall i :: 0 <= i < |messages| ==> messages[i].id < nextMessageId && HasChat(chats, messages[i].chatId)) &&
    (forall i, j :: 0 <= i < j < |messages| ==> messages[i].id != messages[j].id)
  }

  /** Adding users keeps every chat's owner. */
  lemma ChatsValidMoreUsers(users: seq<UserRow>, extra: seq<UserRow>, chats: seq<ChatRow>, nextChatId: nat)
    requires ChatsValid(users, chats, nextChatId)
    ensures ChatsValid(users + extra, chats, nextChatId)
  {
    forall i | 0 <= i < |chats|
      ensures HasUser(users + extra, chats[i].userId)
    {
      var u :| 0 <= u < |users| && users[u].id == chats[i].userId;
      assert (users + extra)[u] == users[u];
    }
  }

  /** Replacing chats by chats with the same identifiers, in the same places, keeps every
      message's chat. */
  lemma MessagesValidSameChatIds(chats: seq<ChatRow>, chats2: seq<ChatRow>, messages: seq<MessageRow>, nextMessageId: nat)
    requires MessagesValid(chats, messages, nextMessageId)
    requires |chats2| >= |chats|
    requires forall i :: 0 <= i < |chats| ==> chats2[i].id == chats[i].id
    ensures MessagesValid(chats2, messages, nextMessageId)
  {
    forall i | 0 <= i < |messages|
      ensures HasChat(chats2, messages[i].chatId)
    {
      var c :| 0 <= c < |chats| && chats[c].id == messages[i].chatId;
      assert chats2[c].id == chats[c].id;
    }
  }

  /** Appending a chat owned by a stored user, numbered by the counter, keeps the chats valid. */
  lemma ChatsValidAppend(users: seq<UserRow>, chats: seq<ChatRow>, c: ChatRow, nextChatId: nat)
    requires ChatsValid(users, chats, nextChatId)
    requires c.id == nextChatId && HasUser(users, c.userId)
    ensures ChatsValid(users, chats + [c], nextChatId + 1)
  {
  }

  /** Changing a chat's `updated_at` keeps the chats valid. */
  lemma ChatsValidTouch(users: seq<UserRow>, chats: seq<ChatRow>, k: nat, t: nat, nextChatId: nat)
    requires ChatsValid(users, chats, nextChatId) && k < |chats|
    ensures ChatsValid(users, chats[k := chats[k].(updatedAt := t)], nextChatId)
  {
    var chats2 := chats[k := chats[k].(updatedAt := t)];
    assert forall i :: 0 <= i < |chats| ==> chats2[i].id == chats[i].id && chats2[i].userId == chats[i].userId;
  }

  /** Appending a message of a stored chat, numbered by the counter, keeps the messages valid. */
  lemma MessagesValidAppend(chats: seq<ChatRow>, messages: seq<MessageRow>, m: MessageRow, nextMessageId: nat)
    requires MessagesValid(chats, messages, nextMessageId)
    requires m.id == nextMessageId && HasChat(chats, m.chatId)
    ensures MessagesValid(chats, messages + [m], nextMessageId + 1)
  {
  }

  /** The database session: three tables in insertion order and the next identifier of each. */
  class Database {
    var users: seq<UserRow>
    var chats: seq<ChatRow>
    var messages: seq<MessageRow>
    var nextUserId: nat
    var nextChatId: nat
    var nextMessageId: nat

    predicate Valid()
      reads this
    {
      UsersValid(users, nextUserId) && ChatsValid(users, chats, nextChatId) && MessagesValid(chats, messages, nextMessageId)
    }

    /** An empty database; identifiers start at 1. */
    constructor ()
      ensures users == [] && chats == [] && messages == []
      ensures nextUserId == 1 && nextChatId == 1 && nextMessageId == 1
      ensures Valid()
    {
      users, chats, messages := [], [], [];
      nextUserId, nextChatId, nextMessageId := 1, 1, 1;
    }
  }
}
