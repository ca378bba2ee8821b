/**
 * The two streaming generators of back_end/modules/rag_chat.py.
 *
 * `output_generation` streams the RAG chain's chunks, passes on only the
 * values under "answer", and logs the question with the concatenated answer
 * in its `finally` block; `chat_completion` passes the LLM's chunks on
 * unchanged and logs the concatenation of their contents.
 *
 * Both are declared in the class without `self`, so a call on an instance
 * would bind the instance to `question`; they are modelled here as the plain
 * functions their bodies describe.  A stream is the sequence of items it
 * yields, followed either by its normal end or by the exception it raises.
 */
module RagChat {
  import opened Wrappers
  import opened ChatHistory

  /** What an async stream produces before it ends or raises `failure`. */
  datatype Stream<T> = Stream(items: seq<T>, failure: Option<Exc>)

  /** One chunk of `chain.astream(...)`: a dict from output key to text. */
  type Chunk = map<string, string>

  /** One chunk of `llm.astream(question)`. */
  datatype MessageChunk = MessageChunk(content: string)

  /** A call `log_chat_history(session_id, human, ai)`. */
  datatype LogEntry = LogEntry(sessionId: string, human: string, ai: string)

  /** The values under "answer", chunk by chunk, in stream order. */
  function Answers(chunks: seq<Chunk>): (r: seq<string>)
    ensures |r| <= |chunks|
  {
    if chunks == [] then []
    else (if "answer" in chunks[0] then [chunks[0]["answer"]] else []) + Answers(chunks[1..])
  }

  /**
   * Every value is kept when every chunk carries "answer", and nothing is
   * kept when no chunk does.
   */
  lemma {:induction false} AnswersExtremes(chunks: seq<Chunk>)
    ensures (forall j :: 0 <= j < |chunks| ==> "answer" in chunks[j]) ==> |Answers(chunks)| == |chunks|
    ensures (forall j :: 0 <= j < |chunks| ==> "answer" !in chunks[j]) ==> Answers(chunks) == []
  {
    if chunks != [] {
      AnswersExtremes(chunks[1..]);
      assert forall j :: 0 <= j < |chunks[1..]| ==> chunks[1..][j] == chunks[j + 1];
    }
  }

  /** Filtering a stream piecewise is filtering it whole. */
  lemma {:induction false} AnswersAppend(a: seq<Chunk>, b: seq<Chunk>)
    ensures Answers(a + b) == Answers(a) + Answers(b)
  {
    if a == [] {
      assert a + b == b;
    } else {
      assert (a + b)[0] == a[0] && (a + b)[1..] == a[1..] + b;
      AnswersAppend(a[1..], b);
      var head := if "answer" in a[0] then [a[0]["answer"]] else [];
      assert Answers(a + b) == head + (Answers(a[1..]) + Answers(b));
    }
  }

  /** `"".join(parts)`. */
  function Concat(parts: seq<string>): (r: string)
    ensures |parts| == 1 ==> r == parts[0]
  {
    if parts == [] then "" else parts[0] + Concat(parts[1..])
  }

  lemma {:induction false} ConcatAppend(a: seq<string>, b: seq<string>)
    ensures Concat(a + b) == Concat(a) + Concat(b)
  {
    if a == [] {
      assert a + b == b;
    } else {
      assert (a + b)[0] == a[0] && (a + b)[1..] == a[1..] + b;
      ConcatAppend(a[1..], b);
      assert Concat(a + b) == a[0] + (Concat(a[1..]) + Concat(b));
    }
  }

  /** The `content` of every chunk. */
  function Contents(chunks: seq<MessageChunk>): (r: seq<string>)
    ensures |r| == |chunks|
    ensures forall i :: 0 <= i < |r| ==> r[i] == chunks[i].content
  {
    if chunks == [] then [] else [chunks[0].content] + Contents(chunks[1..])
  }

  lemma {:induction false} ContentsAppend(a: seq<MessageChunk>, b: seq<MessageChunk>)
    ensures Contents(a + b) == Contents(a) + Contents(b)
  {
    if a == [] {
      assert a + b == b;
    } else {
      assert (a + b)[0] == a[0] && (a + b)[1..] == a[1..] + b;
      ContentsAppend(a[1..], b);
    }
  }

  /** One more chunk of the chain's stream adds its "answer" value, if any. */
  lemma AnswersStep(items: seq<Chunk>, i: nat)
    requires i < |items|
    ensures Answers(items[..i + 1]) ==
              Answers(items[..i]) + (if "answer" in items[i] then [items[i]["answer"]] else [])
  {
    assert items[..i + 1] == items[..i] + [items[i]];
    AnswersAppend(items[..i], [items[i]]);
  }

  /** One more chunk of the LLM's stream adds its content to the logged text. */
  lemma FullStep(chunks: seq<MessageChunk>, chunk: MessageChunk)
    ensures Concat(Contents(chunks + [chunk])) == Concat(Contents(chunks)) + chunk.content
  {
    ContentsAppend(chunks, [chunk]);
    assert Contents([chunk]) == [chunk.content];
    ConcatAppend(Contents(chunks), [chunk.content]);
  }

  /**
   * output_generation: `history` is the session's stored messages, and
   * `astream` the chain's stream for the question and that history.  Every
   * "answer" value is appended to `answer` and yielded; the log entry is
   * written whether the stream ends normally or raises, and the exception is
   * re-raised.  A chunk's keys are distinct, so `for key in chunk: if key ==
   * "answer"` meets "answer" at most once and is a membership test.
   */
  method OutputGeneration(question: string, sessionId: string, history: seq<ChatMessage>,
                          astream: (string, seq<ChatMessage>) -> Stream<Chunk>)
    returns (yielded: seq<string>, logged: LogEntry, outcome: Result<()>)
    ensures yielded == Answers(astream(question, history).items)
    ensures logged == LogEntry(sessionId, question, Concat(yielded))
    ensures outcome.Ok? <==> astream(question, history).failure.None?
    ensures outcome.Err? ==> outcome.error == astream(question, history).failure.value
  {
    var stream := astream(question, history);
    var answer: seq<string> := [];
    yielded := [];
    var i := 0;
    while i < |stream.items|
      invariant 0 <= i <= |stream.items|
      invariant answer == Answers(stream.items[..i])
      invariant yielded == answer
    {
      var chunk := stream.items[i];
      AnswersStep(stream.items, i);
      if "answer" in chunk {
        answer := answer + [chunk["answer"]];
        yielded := yielded + [chunk["answer"]];
      }
      i := i + 1;
    }
    assert stream.items[..i] == stream.items;
    outcome := if stream.failure.Some? then Err(stream.failure.value) else Ok(());
    // finally: log what was answered, on success and on error alike
    logged := LogEntry(sessionId, question, Concat(answer));
  }

  /**
   * chat_completion: every chunk is yielded unchanged; `full += chunk.content`
   * extends a list by the content's characters, so `"".join(full)` is the
   * concatenation of all contents, logged in `finally`.
   */
  method ChatCompletion(question: string, astream: string -> Stream<MessageChunk>)
    returns (yielded: seq<MessageChunk>, logged: string, outcome: Result<()>)
    ensures yielded == astream(question).items
    ensures logged == Concat(Contents(yielded))
    ensures outcome.Ok? <==> astream(question).failure.None?
    ensures outcome.Err? ==> outcome.error == astream(question).failure.value
  {
    var stream := astream(question);
    var full: seq<char> := [];
    yielded := [];
    var i := 0;
    while i < |stream.items|
      invariant 0 <= i <= |stream.items|
      invariant yielded == stream.items[..i]
      invariant full == Concat(Contents(yielded))
    {
      var chunk := stream.items[i];
      full := full + chunk.content;
      FullStep(yielded, chunk);
      yielded := yielded + [chunk];
      i := i + 1;
    }
    assert stream.items[..i] == stream.items;
    outcome := if stream.failure.Some? then Err(stream.failure.value) else Ok(());
    logged := full;
  }
}
