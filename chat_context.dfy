/**
 * The chat reducer of the front end's ChatContext: `UPDATE_SESSION_ID`
 * records the payload as `sessionId`; every other action leaves the state
 * as it is.
 */
module ChatContext {
  import opened Js

  /** The state `useReducer` starts from: `{ sessionId: null }`. */
  function InitialState(): (r: Object)
    ensures r.Keys == {"sessionId"} && r["sessionId"] == Null
  {
    map["sessionId" := Null]
  }

  /** chatReducer: one case, a spread update of `sessionId`. */
  function ChatReducer(state: Object, action: Object): (r: Object)
    ensures Get(action, "type") == Str("UPDATE_SESSION_ID") ==>
              r.Keys == state.Keys + {"sessionId"} && r["sessionId"] == Get(action, "payload")
    ensures forall k :: k in state && k != "sessionId" ==> k in r && r[k] == state[k]
    ensures Get(action, "type") != Str("UPDATE_SESSION_ID") ==> r == state
  {
    if Get(action, "type") == Str("UPDATE_SESSION_ID") then Spread(state, "sessionId", Get(action, "payload"))
    else state
  }

  /** Dispatching the same action twice is dispatching it once, whatever it is. */
  lemma DispatchIdempotent(state: Object, action: Object)
    ensures ChatReducer(ChatReducer(state, action), action) == ChatReducer(state, action)
  {
  }

  /** The session id of the last update, or `initial` when there was none. */
  function LastSessionId(initial: Value, actions: seq<Object>): Value
    decreases |actions|
  {
    if actions == [] then initial
    else if Get(actions[|actions| - 1], "type") == Str("UPDATE_SESSION_ID") then Get(actions[|actions| - 1], "payload")
    else LastSessionId(initial, actions[..|actions| - 1])
  }

  /**
   * From the initial state, any sequence of dispatches leaves exactly the
   * one field `sessionId`, holding the last update's payload (`null` if
   * there was none).
   */
  lemma {:induction false} DispatchedSessionId(actions: seq<Object>)
    ensures ReduceAll(ChatReducer, InitialState(), actions).Keys == {"sessionId"}
    ensures ReduceAll(ChatReducer, InitialState(), actions)["sessionId"] == LastSessionId(Null, actions)
    decreases |actions|
  {
    if actions != [] {
      DispatchedSessionId(actions[..|actions| - 1]);
    }
  }
}
