/**
 * The error reducer of the front end's ErrorContext: `ERROR` records the
 * payload as `error_type`, `CLEAR` sets it back to `null`, and every other
 * action leaves the state as it is.
 */
module ErrorContext {
  import opened Js

  /** The state `useReducer` starts from: `{ error_type: null }`. */
  function InitialState(): (r: Object)
    ensures r.Keys == {"error_type"} && r["error_type"] == Null
  {
    map["error_type" := Null]
  }

  /** errorReducer: a switch on `action.type`, each case a spread update. */
  function ErrorReducer(state: Object, action: Object): (r: Object)
    ensures Get(action, "type") == Str("ERROR") ==>
              && r.Keys == state.Keys + {"error_type"}
              && r["error_type"] == Get(action, "payload")
    ensures Get(action, "type") == Str("CLEAR") ==>
              r.Keys == state.Keys + {"error_type"} && r["error_type"] == Null
    // the other fields survive both cases
    ensures forall k :: k in state && k != "error_type" ==> k in r && r[k] == state[k]
    ensures Get(action, "type") != Str("ERROR") && Get(action, "type") != Str("CLEAR") ==> r == state
  {
    match Get(action, "type")
    case Str("ERROR") => Spread(state, "error_type", Get(action, "payload"))
    case Str("CLEAR") => Spread(state, "error_type", Null)
    case _ => state
  }

  /** `notify({ type: "ERROR", payload })` and `notify({ type: "CLEAR" })`. */
  function ErrorAction(payload: Value): Object
  {
    map["type" := Str("ERROR"), "payload" := payload]
  }

  function ClearAction(): Object
  {
    map["type" := Str("CLEAR")]
  }

  /** The last of two errors is the one reported. */
  lemma LastErrorWins(state: Object, a: Value, b: Value)
    ensures ErrorReducer(ErrorReducer(state, ErrorAction(a)), ErrorAction(b)) == ErrorReducer(state, ErrorAction(b))
  {
    assert Get(ErrorAction(a), "type") == Str("ERROR");
    assert Get(ErrorAction(b), "type") == Str("ERROR");
  }

  /** Clearing twice is clearing once. */
  lemma ClearIdempotent(state: Object)
    ensures ErrorReducer(ErrorReducer(state, ClearAction()), ClearAction()) == ErrorReducer(state, ClearAction())
  {
    assert Get(ClearAction(), "type") == Str("CLEAR");
  }

  /**
   * The `error_type` an error-or-clear history leaves behind: the payload
   * of the last ERROR, `null` after a final CLEAR, `initial` when there was
   * neither.
   */
  function LastErrorType(initial: Value, actions: seq<Object>): Value
    decreases |actions|
  {
    if actions == [] then initial
    else
      var last := actions[|actions| - 1];
      if Get(last, "type") == Str("ERROR") then Get(last, "payload")
      else if Get(last, "type") == Str("CLEAR") then Null
      else LastErrorType(initial, actions[..|actions| - 1])
  }

  /**
   * After any sequence of dispatches from a state with an `error_type`,
   * the fields are the same and `error_type` is the one the last ERROR or
   * CLEAR left.
   */
  lemma {:induction false} DispatchedErrorType(state: Object, actions: seq<Object>)
    requires "error_type" in state
    ensures ReduceAll(ErrorReducer, state, actions).Keys == state.Keys
    ensures ReduceAll(ErrorReducer, state, actions)["error_type"] == LastErrorType(state["error_type"], actions)
    decreases |actions|
  {
    if actions != [] {
      DispatchedErrorType(state, actions[..|actions| - 1]);
    }
  }
}
