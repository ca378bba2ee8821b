/**
 * The console `user_interface` loops of back_end/model_chain.py,
 * model-chain.py and model.py.
 *
 * Standard input is the sequence of lines the user types: the first is the
 * session id, the rest are questions.  Reading past the last line raises
 * EOFError, as `input()` does.  Each answer is printed after the prefix
 * "DocumentAssist: ", and the loop returns on the exact line "exit".  The
 * answering code is a parameter; whatever state it changes (the chat log,
 * the vector store folder) is not part of this model of the loop.
 */
module Console {
  import opened Wrappers

  /** The prefix of every printed answer. */
  const AnswerPrefix: string := "DocumentAssist: "

  /** The position of the first "exit" among the questions, or their number. */
  function FirstExit(questions: seq<string>): (k: nat)
    ensures k <= |questions|
    ensures k < |questions| ==> questions[k] == "exit"
    ensures forall j :: 0 <= j < k ==> questions[j] != "exit"
  {
    if questions == [] then 0
    else if questions[0] == "exit" then 0
    else 1 + FirstExit(questions[1..])
  }

  /**
   * `while True: q = input(...); if q == "exit": return; print(prefix +
   * answer(q, session_id))`, an exception from answering ending the loop.
   * Exactly the questions before the first "exit" are answered, in order,
   * until one of them fails.
   */
  method QuestionLoop(sessionId: string, questions: seq<string>, respond: (string, string) -> Result<string>)
    returns (printed: seq<string>, outcome: Result<()>)
    ensures |printed| <= FirstExit(questions)
    ensures forall j :: 0 <= j < |printed| ==>
              respond(questions[j], sessionId).Ok?
              && printed[j] == AnswerPrefix + respond(questions[j], sessionId).value
    // the loop ends normally exactly at an "exit" that every earlier answer reached
    ensures outcome.Ok? <==> |printed| == FirstExit(questions) < |questions|
    ensures outcome.Err? && |printed| < FirstExit(questions) ==>
              respond(questions[|printed|], sessionId).Err?
              && outcome.error == respond(questions[|printed|], sessionId).error
    ensures |printed| == FirstExit(questions) == |questions| ==> outcome == Err(EOFError)
  {
    printed := [];
    var i := 0;
    while true
      invariant 0 <= i <= FirstExit(questions)
      invariant |printed| == i
      invariant forall j :: 0 <= j < i ==>
                  respond(questions[j], sessionId).Ok?
                  && printed[j] == AnswerPrefix + respond(questions[j], sessionId).value
      decreases |questions| - i
    {
      if i == |questions| {
        return printed, Err(EOFError);
      }
      if questions[i] == "exit" {
        return printed, Ok(());
      }
      var answer := respond(questions[i], sessionId);
      if answer.Err? {
        return printed, Err(answer.error);
      }
      printed := printed + [AnswerPrefix + answer.value];
      i := i + 1;
    }
  }

  /**
   * model-chain.py and model.py: read the session id, then loop; each
   * answer is `answeringQuestion(question, session_id, file)`.
   */
  method UserInterface(inputs: seq<string>, respond: (string, string) -> Result<string>)
    returns (printed: seq<string>, outcome: Result<()>)
    ensures inputs == [] ==> printed == [] && outcome == Err(EOFError)
    ensures inputs != [] ==> |printed| <= FirstExit(inputs[1..])
    ensures inputs != [] ==> (outcome.Ok? <==> |printed| == FirstExit(inputs[1..]) < |inputs| - 1)
    ensures forall j :: 0 <= j < |printed| ==>
              respond(inputs[j + 1], inputs[0]).Ok?
              && printed[j] == AnswerPrefix + respond(inputs[j + 1], inputs[0]).value
  {
    if inputs == [] {
      return [], Err(EOFError);
    }
    printed, outcome := QuestionLoop(inputs[0], inputs[1..], respond);
  }

  /**
   * back_end/model_chain.py: after the session id, the retriever and chain
   * are built once (`setup`); a failure there prints "Step 4. Unable to
   * create chain: " with the error and returns normally, before any question
   * is read.  Otherwise every question is answered by the one chain.
   */
  method UserInterfaceWithChain<C>(inputs: seq<string>, setup: Result<C>, respond: (string, string, C) -> Result<string>)
    returns (printed: seq<string>, outcome: Result<()>)
    ensures inputs == [] ==> printed == [] && outcome == Err(EOFError)
    ensures inputs != [] && setup.Err? ==>
              printed == ["Step 4. Unable to create chain: " + ExcText(setup.error)] && outcome == Ok(())
    ensures inputs != [] && setup.Ok? ==>
              && |printed| <= FirstExit(inputs[1..])
              && (outcome.Ok? <==> |printed| == FirstExit(inputs[1..]) < |inputs| - 1)
              && forall j :: 0 <= j < |printed| ==>
                   respond(inputs[j + 1], inputs[0], setup.value).Ok?
                   && printed[j] == AnswerPrefix + respond(inputs[j + 1], inputs[0], setup.value).value
  {
    if inputs == [] {
      return [], Err(EOFError);
    }
    if setup.Err? {
      return ["Step 4. Unable to create chain: " + ExcText(setup.error)], Ok(());
    }
    var chain := setup.value;
    printed, outcome := QuestionLoop(inputs[0], inputs[1..], (q, s) => respond(q, s, chain));
  }
}
