/**
 * The dispatch of the `chat_completion` endpoints of app/app.py and
 * back_end/app.py: the RAG chain of the session when both its retriever and
 * its chain are cached, the plain LLM otherwise.  In app/app.py every
 * streamed token is then followed by one space.
 */
module Streaming {
  import opened Wrappers
  import RagChat

  /** Which generator answers: the plain LLM, or the cached chain. */
  datatype Route<C> = Plain | Rag(chain: C)

  /**
   * `if retriever is None or rag_chain is None` selects the plain LLM; the
   * RAG path uses the cached chain.
   */
  function ChatRoute<R, C>(retriever: Option<R>, chain: Option<C>): (r: Route<C>)
    ensures r.Rag? <==> retriever.Some? && chain.Some?
    ensures r.Rag? ==> r.chain == chain.value
  {
    if retriever.None? || chain.None? then Plain else Rag(chain.value)
  }

  /** `yield token + " "` for every token of the stream. */
  function Spaced(tokens: seq<string>): (r: seq<string>)
    ensures |r| == |tokens|
    ensures forall i :: 0 <= i < |r| ==> |r[i]| == |tokens[i]| + 1 && r[i][|tokens[i]|] == ' '
  {
    if tokens == [] then [] else [tokens[0] + " "] + Spaced(tokens[1..])
  }

  /** Dropping the last character of every emitted piece. */
  function Unspaced(pieces: seq<string>): seq<string>
  {
    if pieces == [] then []
    else [if pieces[0] == [] then [] else pieces[0][..|pieces[0]| - 1]] + Unspaced(pieces[1..])
  }

  /** The spacing loses nothing: the tokens come back from what is emitted. */
  lemma {:induction false} SpacedRoundTrip(tokens: seq<string>)
    ensures Unspaced(Spaced(tokens)) == tokens
  {
    if tokens != [] {
      SpacedRoundTrip(tokens[1..]);
      assert Spaced(tokens)[1..] == Spaced(tokens[1..]);
      assert (tokens[0] + " ")[..|tokens[0]|] == tokens[0];
    }
  }

  /**
   * The whole response of app/app.py's endpoint: route, then space every
   * token.  An exception raised by the generator mid-stream ends the
   * response after the pieces already emitted, and is the response's own.
   */
  function ChatCompletion<R, C>(retriever: Option<R>, chain: Option<C>, question: string, sessionId: string,
                                plain: string -> RagChat.Stream<string>,
                                rag: (string, string, C) -> RagChat.Stream<string>): (r: RagChat.Stream<string>)
    ensures retriever.None? || chain.None? ==>
              r.items == Spaced(plain(question).items) && r.failure == plain(question).failure
    ensures retriever.Some? && chain.Some? ==>
              r.items == Spaced(rag(question, sessionId, chain.value).items)
              && r.failure == rag(question, sessionId, chain.value).failure
  {
    var tokens := match ChatRoute(retriever, chain)
      case Plain => plain(question)
      case Rag(c) => rag(question, sessionId, c);
    RagChat.Stream(Spaced(tokens.items), tokens.failure)
  }
}
