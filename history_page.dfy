/** The history screen: the search filter over the loaded chats, the preview of a chat's
    last message, and the handlers that open or delete a chat. */
module HistoryPage {
  import opened Wrappers
  import opened Text
  import Seqs
  import opened ChatSlice
  import opened Api

  const PreviewLength: nat := 100
  const Ellipsis: string := "..."
  const ChatDeleted: string := "Chat deleted"
  const DeleteFailed: string := "Failed to delete chat"
  const LoadHistoryFailed: string := "Failed to load chat history"

  /** The search test: the lower-cased title contains the lower-cased query, or the
      lower-cased content of some message does. */
  predicate Matches(chat: Chat, query: string) {
    Contains(Lower(chat.title), Lower(query)) ||
    exists i :: 0 <= i < |chat.messages| && Contains(Lower(chat.messages[i].content), Lower(query))
  }

  /** `filteredChats`: the chats that match the query, in their listed order. */
  function FilteredChats(chats: seq<Chat>, query: string): (r: seq<Chat>)
    ensures forall c :: c in r <==> c in chats && Matches(c, query)
    ensures Seqs.IsSubsequence(r, chats)
    ensures |r| <= |chats|
  {
    var keep := (c: Chat) => Matches(c, query);
    Seqs.FilterIsSubsequence(chats, keep);
    Seqs.Filter(chats, keep)
  }

  /** An empty query keeps every chat. */
  lemma EmptyQueryKeepsAll(chats: seq<Chat>)
    ensures FilteredChats(chats, "") == chats
  {
    forall c | c in chats
      ensures Matches(c, "")
    {
      ContainsEmpty(Lower(c.title));
    }
    Seqs.FilterKeepsAll(chats, (c: Chat) => Matches(c, ""));
  }

  lemma LowerIdempotent(s: string)
    ensures Lower(Lower(s)) == Lower(s)
  {
  }

  /** The search ignores the case of the query: typing it in upper or lower case selects
      the same chats. */
  lemma SearchIgnoresQueryCase(chats: seq<Chat>, query: string)
    ensures FilteredChats(chats, query) == FilteredChats(chats, Lower(query))
  {
    LowerIdempotent(query);
    Seqs.FilterCongruent(chats, (c: Chat) => Matches(c, query), (c: Chat) => Matches(c, Lower(query)));
  }

  /** Filtering the chat list in two parts gives the two filtered parts, in order. */
  lemma FilterSplits(a: seq<Chat>, b: seq<Chat>, query: string)
    ensures FilteredChats(a + b, query) == FilteredChats(a, query) + FilteredChats(b, query)
  {
    Seqs.FilterAppend(a, b, (c: Chat) => Matches(c, query));
  }

  /** The preview under a chat: the first 100 characters of its last message, with "..."
      after them exactly when the message is longer; empty when there is no message. */
  function Preview(messages: seq<Message>): (r: string)
    ensures messages == [] ==> r == ""
    ensures messages != [] ==>
      var content := messages[|messages| - 1].content;
      && (|content| <= PreviewLength ==> r == content)
      && (|content| > PreviewLength ==>
            |r| == PreviewLength + |Ellipsis| && IsPrefixOf(r[..PreviewLength], content) && r[PreviewLength..] == Ellipsis)
  {
    if messages == [] then ""
    else
      var content := messages[|messages| - 1].content;
      var shown := if |content| <= PreviewLength then content else content[..PreviewLength];
      shown + (if |content| > PreviewLength then Ellipsis else "")
  }

  /** The history page's local state, the search box, and the store it dispatches to. */
  class Component {
    const store: ChatStore
    var searchQuery: string

    constructor (store: ChatStore)
      ensures this.store == store && searchQuery == ""
    {
      this.store := store;
      searchQuery := "";
    }

    /** The chats the page lists for the current query. */
    function Listed(): (r: seq<Chat>)
      reads this, store
      ensures searchQuery == "" ==> r == store.chats
      ensures forall c :: c in r <==> c in store.chats && Matches(c, searchQuery)
    {
      EmptyQueryKeepsAll(store.chats);
      FilteredChats(store.chats, searchQuery)
    }

    /** The effect run on entry: an unauthenticated visitor is sent to the login route with
        no request; otherwise `loadChatsStart`, `getChats`, then success or failure. */
    method LoadChats(isAuthenticated: bool, fetched: Response<seq<Chat>>) returns (calls: seq<Call>, redirect: Option<string>)
      modifies store
      ensures !isAuthenticated ==>
        calls == [] && redirect == Some(LoginRoute) &&
        store.chats == old(store.chats) && store.loading == old(store.loading) && store.error == old(store.error)
      ensures isAuthenticated ==> calls == [GetChats] && redirect == None && !store.loading
      ensures isAuthenticated && fetched.Resolved? ==> store.chats == fetched.data && store.error == None
      ensures isAuthenticated && fetched.Rejected? ==> store.chats == old(store.chats) && store.error == Some(LoadHistoryFailed)
      ensures store.currentChat == old(store.currentChat)
    {
      if !isAuthenticated {
        calls, redirect := [], Some(LoginRoute);
        return;
      }
      redirect := None;
      store.LoadChatsStart();
      calls := [GetChats];
      if fetched.Resolved? {
        store.LoadChatsSuccess(fetched.data);
      } else {
        store.LoadChatsFailure(LoadHistoryFailed);
      }
    }

    /** `handleChatSelect`: the chosen chat becomes current and the page moves to the chat route. */
    method HandleChatSelect(chat: Chat) returns (route: string)
      modifies store
      ensures store.currentChat == Some(chat) && route == ChatRoute
      ensures store.chats == old(store.chats) && store.loading == old(store.loading) && store.error == old(store.error)
    {
      store.SetCurrentChat(chat);
      route := ChatRoute;
    }

    /** `handleDeleteChat`: the server is asked first; the chat is removed from the store only
        once that succeeded, and a failure leaves the store as it was. */
    method HandleDeleteChat(chatId: string, deleted: bool) returns (calls: seq<Call>, alert: string)
      modifies store
      ensures calls == [DeleteChat(chatId)]
      ensures deleted ==> alert == ChatDeleted && store.chats == WithoutChat(old(store.chats), chatId)
      ensures deleted && old(store.currentChat).Some? && old(store.currentChat).value.id == chatId ==>
        store.currentChat == None
      ensures (deleted ==> !(old(store.currentChat).Some? && old(store.currentChat).value.id == chatId)) ==>
        store.currentChat == old(store.currentChat)
      ensures !deleted ==> alert == DeleteFailed && store.chats == old(store.chats)
      ensures store.loading == old(store.loading) && store.error == old(store.error)
    {
      calls := [DeleteChat(chatId)];
      if deleted {
        store.DeleteChat(chatId);
        alert := ChatDeleted;
      } else {
        alert := DeleteFailed;
      }
    }
  }
}
