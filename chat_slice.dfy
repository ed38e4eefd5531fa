/** The client's transcript store: the current chat, the list of known chats and a
    loading/error flag pair, changed in place by the store's reducers. */
module ChatSlice {
  import opened Wrappers
  import Seqs

  datatype Role = User | Assistant

  /** A message as the client keeps it; `id` is a client-generated UUID and `timestamp`
      an ISO date string, both opaque here. */
  datatype Message = Message(id: string, content: string, role: Role, timestamp: string)

  datatype Chat = Chat(id: string, title: string, messages: seq<Message>, createdAt: string, updatedAt: string)

  /** The position of the first chat with identifier `id`, as `Array.prototype.find` locates it. */
  function FindChat(chats: seq<Chat>, id: string): (r: Option<nat>)
    ensures r.Some? ==> r.value < |chats| && chats[r.value].id == id
    ensures r.Some? ==> forall j :: 0 <= j < r.value ==> chats[j].id != id
    ensures r.None? <==> forall j :: 0 <= j < |chats| ==> chats[j].id != id
  {
    Seqs.FirstIndex(chats, (c: Chat) => c.id == id)
  }

  /** `chats` with the title of the first chat named `id` replaced; other chats, and
      every other field, are kept. */
  function RenameFirst(chats: seq<Chat>, id: string, title: string): (r: seq<Chat>)
    ensures |r| == |chats|
    ensures forall j :: 0 <= j < |chats| && Some(j) != FindChat(chats, id) ==> r[j] == chats[j]
    ensures FindChat(chats, id).Some? ==>
      var k := FindChat(chats, id).value;
      r[k] == chats[k].(title := title)
    ensures FindChat(chats, id).None? ==> r == chats
  {
    match FindChat(chats, id)
    case None => chats
    case Some(k) => chats[k := chats[k].(title := title)]
  }

  /** `chats` without any chat named `id`, the rest in their order. */
  function WithoutChat(chats: seq<Chat>, id: string): (r: seq<Chat>)
    ensures forall c :: c in r <==> c in chats && c.id != id
    ensures Seqs.IsSubsequence(r, chats)
    ensures (forall j :: 0 <= j < |chats| ==> chats[j].id != id) ==> r == chats
    ensures forall c :: multiset(r)[c] == if c.id != id then multiset(chats)[c] else 0
  {
    var keep := (c: Chat) => c.id != id;
    Seqs.FilterIsSubsequence(chats, keep);
    Seqs.FilterCount(chats, keep);
    Seqs.FilterKeepsAll(chats, keep);
    Seqs.Filter(chats, keep)
  }

  /** `chat` with `m` appended at the end of its messages. */
  function WithMessage(chat: Chat, m: Message): (r: Chat)
    ensures |r.messages| == |chat.messages| + 1
    ensures r.messages[..|chat.messages|] == chat.messages && r.messages[|chat.messages|] == m
    ensures r.id == chat.id && r.title == chat.title
    ensures r.createdAt == chat.createdAt && r.updatedAt == chat.updatedAt
  {
    chat.(messages := chat.messages + [m])
  }

  /** The Redux state of the chat slice; each method is one reducer. */
  class ChatStore {
    var currentChat: Option<Chat>
    var chats: seq<Chat>
    var loading: bool
    var error: Option<string>

    /** The slice's initial state. */
    constructor ()
      ensures currentChat == None && chats == [] && !loading && error == None
    {
      currentChat, chats, loading, error := None, [], false, None;
    }

    method SetCurrentChat(chat: Chat)
      modifies this
      ensures currentChat == Some(chat)
      ensures chats == old(chats) && loading == old(loading) && error == old(error)
    {
      currentChat := Some(chat);
    }

    /** Pushes `m` onto the current chat's messages; without a current chat nothing happens.
        The copy of the chat in `chats` is not touched. */
    method AddMessage(m: Message)
      modifies this
      ensures old(currentChat).None? ==> currentChat == None
      ensures old(currentChat).Some? ==> currentChat == Some(WithMessage(old(currentChat).value, m))
      ensures chats == old(chats) && loading == old(loading) && error == old(error)
    {
      if currentChat.Some? {
        currentChat := Some(WithMessage(currentChat.value, m));
      }
    }

    /** Makes `chat` current and puts it in front of the list, without removing any
        chat that has the same identifier. */
    method StartNewChat(chat: Chat)
      modifies this
      ensures currentChat == Some(chat)
      ensures chats == [chat] + old(chats)
      ensures loading == old(loading) && error == old(error)
    {
      currentChat := Some(chat);
      chats := [chat] + chats;
    }

    method LoadChatsStart()
      modifies this
      ensures loading && error == None
      ensures currentChat == old(currentChat) && chats == old(chats)
    {
      loading := true;
      error := None;
    }

    method LoadChatsSuccess(loaded: seq<Chat>)
      modifies this
      ensures !loading && chats == loaded
      ensures currentChat == old(currentChat) && error == old(error)
    {
      loading := false;
      chats := loaded;
    }

    method LoadChatsFailure(message: string)
      modifies this
      ensures !loading && error == Some(message)
      ensures currentChat == old(currentChat) && chats == old(chats)
    {
      loading := false;
      error := Some(message);
    }

    /** Renames the first listed chat named `chatId`, and the current chat if it has that
        identifier. */
    method UpdateChatTitle(chatId: string, title: string)
      modifies this
      ensures chats == RenameFirst(old(chats), chatId, title)
      ensures old(currentChat).Some? && old(currentChat).value.id == chatId ==>
        currentChat == Some(old(currentChat).value.(title := title))
      ensures !(old(currentChat).Some? && old(currentChat).value.id == chatId) ==>
        currentChat == old(currentChat)
      ensures loading == old(loading) && error == old(error)
    {
      var found := FindChat(chats, chatId);
      if found.Some? {
        chats := chats[found.value := chats[found.value].(title := title)];
      }
      if currentChat.Some? && currentChat.value.id == chatId {
        currentChat := Some(currentChat.value.(title := title));
      }
    }

    /** Drops every listed chat named `chatId` and clears the current chat if it is named so. */
    method DeleteChat(chatId: string)
      modifies this
      ensures chats == WithoutChat(old(chats), chatId)
      ensures old(currentChat).Some? && old(currentChat).value.id == chatId ==> currentChat == None
      ensures !(old(currentChat).Some? && old(currentChat).value.id == chatId) ==>
        currentChat == old(currentChat)
      ensures loading == old(loading) && error == old(error)
    {
      chats := WithoutChat(chats, chatId);
      if currentChat.Some? && currentChat.value.id == chatId {
        currentChat := None;
      }
    }
  }

  /** Renaming twice is the same as renaming once with the second title. */
  lemma {:induction false} RenameFirstTwice(chats: seq<Chat>, id: string, t1: string, t2: string)
    ensures RenameFirst(RenameFirst(chats, id, t1), id, t2) == RenameFirst(chats, id, t2)
  {
    FindChatAfterRename(chats, id, t1);
  }

  /** Renaming keeps identifiers, so the renamed chat is still the first with that id. */
  lemma {:induction false} FindChatAfterRename(chats: seq<Chat>, id: string, title: string)
    ensures FindChat(RenameFirst(chats, id, title), id) == FindChat(chats, id)
  {
    var r := RenameFirst(chats, id, title);
    assert forall j :: 0 <= j < |chats| ==> r[j].id == chats[j].id;
    FindChatSameIds(chats, r, id);
  }

  lemma {:induction false} FindChatSameIds(a: seq<Chat>, b: seq<Chat>, id: string)
    requires |a| == |b|
    requires forall j :: 0 <= j < |a| ==> a[j].id == b[j].id
    ensures FindChat(a, id) == FindChat(b, id)
  {
    if a != [] && a[0].id != id {
      FindChatSameIds(a[1..], b[1..], id);
    }
  }

  /** Deleting the same identifier twice is the same as deleting it once. */
  lemma {:induction false} DeleteChatIdempotent(chats: seq<Chat>, id: string)
    ensures WithoutChat(WithoutChat(chats, id), id) == WithoutChat(chats, id)
  {
    var r := WithoutChat(chats, id);
    assert forall j :: 0 <= j < |r| ==> r[j] in r;
  }
}
