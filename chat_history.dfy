/**
 * The per-session chat log kept in Redis (RedisChatMessageHistory): a list
 * of messages per session id, to which each answered question adds the
 * human message and then the AI message.
 */
module ChatHistory {

  datatype ChatMessage = Human(text: string) | Ai(text: string)

  /** `add_user_message(human)` followed by `add_ai_message(ai)`. */
  function AppendExchange(history: seq<ChatMessage>, human: string, ai: string): (r: seq<ChatMessage>)
    ensures |r| == |history| + 2
    ensures r[..|history|] == history
    ensures r[|history|] == Human(human) && r[|history| + 1] == Ai(ai)
  {
    history + [Human(human), Ai(ai)]
  }

  /** Every session's history; a session never written has an empty one. */
  class HistoryStore {
    var sessions: map<string, seq<ChatMessage>>

    constructor (sessions: map<string, seq<ChatMessage>>)
      ensures this.sessions == sessions
    {
      this.sessions := sessions;
    }

    /** `RedisChatMessageHistory(session_id, url).messages`. */
    function Messages(sessionId: string): (r: seq<ChatMessage>)
      reads this
      ensures sessionId in sessions ==> r == sessions[sessionId]
      ensures sessionId !in sessions ==> r == []
    {
      if sessionId in sessions then sessions[sessionId] else []
    }

    /**
     * log_chat_history (back_end/model_chain.py): the human message, then
     * the AI message, appended to this session only.
     */
    method LogChatHistory(sessionId: string, human: string, ai: string)
      modifies this
      ensures sessions == old(sessions)[sessionId := AppendExchange(old(Messages(sessionId)), human, ai)]
    {
      var log := Messages(sessionId);
      log := log + [Human(human)];
      log := log + [Ai(ai)];
      assert log == AppendExchange(old(Messages(sessionId)), human, ai);
      sessions := sessions[sessionId := log];
    }
  }
}
