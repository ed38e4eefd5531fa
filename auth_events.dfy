/** What the login and registration pages do, as an ordered trace: the authentication
    events they dispatch, the requests they send, the token they store, the alerts they
    show and where they navigate. The authentication reducers that consume the events are
    not part of this model, so events are opaque values here. */
module AuthEvents {
  import opened Api

  datatype AuthEvent =
    | LoginStart
    | LoginSuccess(user: UserInfo, token: string)
    | LoginFailure(message: string)
    | RegisterStart
    | RegisterSuccess(user: UserInfo, token: string)
    | RegisterFailure(message: string)

  datatype Effect =
    | Dispatch(event: AuthEvent)
    | Request(call: Call)
    | SaveToken(token: string)
    | Alert(text: string)
    | Navigate(route: string)

  /** The position of the first occurrence of `e` in `effects`, or `|effects|` when absent. */
  function IndexOf(effects: seq<Effect>, e: Effect): (r: nat)
    ensures r <= |effects|
    ensures r < |effects| ==> effects[r] == e
    ensures forall k :: 0 <= k < r ==> effects[k] != e
  {
    if effects == [] then 0
    else if effects[0] == e then 0
    else 1 + IndexOf(effects[1..], e)
  }
}
