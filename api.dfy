/** The requests the client sends to the server and what comes back, as the page
    handlers see them; the transport itself is not part of this model. */
module Api {
  import opened Wrappers

  /** The user fields the client reads from `/auth/register` and `/auth/me` responses. */
  datatype UserInfo = UserInfo(id: int, email: string, username: string)

  /** One request, with the arguments the handler passes. */
  datatype Call =
    | Register(username: string, email: string, password: string)
    | Login(email: string, password: string)
    | GetMe
    | GetChats
    | CreateChat(title: string)
    | DeleteChat(chatId: string)
    | SendMessage(chatId: string, content: string)
    | ProcessText(text: string)
    | ProcessUrl(url: string)
    | ProcessPdf(fileName: string)

  /** A resolved request carries its data; a rejected one may carry the server's `detail`. */
  datatype Response<T> = Resolved(data: T) | Rejected(detail: Option<string>)

  /** `err.response?.data?.detail || fallback`: the server's detail unless it is absent or empty. */
  function DetailOr(detail: Option<string>, fallback: string): (r: string)
    ensures detail.Some? && detail.value != "" ==> r == detail.value
    ensures detail.None? || detail.value == "" ==> r == fallback
  {
    if detail.Some? && detail.value != "" then detail.value else fallback
  }

  /** The client routes the handlers navigate to. */
  const LoginRoute: string := "/login"
  const ChatRoute: string := "/chat"
}
