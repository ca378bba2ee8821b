/**
 * The Chat component of the front end: the `messages` list it renders,
 * `sendMessage`, which appends the user's text and its echo, and the
 * `onKeyDown` handler of its text input.
 *
 * The `new Date()` timestamps of the messages are not part of this model.
 */
module ChatView {
  import opened Js

  /** `{ text, sender }`. */
  datatype Message = Message(text: string, sender: string)

  /** `[...messages, userMessage, echoMessage]`. */
  function SendMessage(messages: seq<Message>, text: string): (r: seq<Message>)
    ensures |r| == |messages| + 2
    ensures r[..|messages|] == messages
    ensures r[|messages|] == Message("User: " + text, "user")
    ensures r[|messages| + 1] == Message("Echo: " + text, "chatbot")
  {
    messages + [Message("User: " + text, "user"), Message("Echo: " + text, "chatbot")]
  }

  /** The list after sending each of `texts` in turn. */
  function SendAll(messages: seq<Message>, texts: seq<string>): seq<Message>
    decreases |texts|
  {
    if texts == [] then messages else SendMessage(SendAll(messages, texts[..|texts| - 1]), texts[|texts| - 1])
  }

  /**
   * After `n` sends the list keeps its old messages and then alternates:
   * the user's text at the even offsets, its echo right after it.
   */
  lemma {:induction false} SendAllTranscript(messages: seq<Message>, texts: seq<string>)
    ensures |SendAll(messages, texts)| == |messages| + 2 * |texts|
    ensures SendAll(messages, texts)[..|messages|] == messages
    ensures forall i :: 0 <= i < |texts| ==>
              && SendAll(messages, texts)[|messages| + 2 * i] == Message("User: " + texts[i], "user")
              && SendAll(messages, texts)[|messages| + 2 * i + 1] == Message("Echo: " + texts[i], "chatbot")
    decreases |texts|
  {
    if texts != [] {
      var init := texts[..|texts| - 1];
      SendAllTranscript(messages, init);
      var before := SendAll(messages, init);
      assert SendAll(messages, texts) == SendMessage(before, texts[|texts| - 1]);
      forall i | 0 <= i < |texts|
        ensures SendAll(messages, texts)[|messages| + 2 * i] == Message("User: " + texts[i], "user")
        ensures SendAll(messages, texts)[|messages| + 2 * i + 1] == Message("Echo: " + texts[i], "chatbot")
      {
        if i < |init| {
          assert texts[i] == init[i];
          assert SendAll(messages, texts)[|messages| + 2 * i] == before[|messages| + 2 * i];
          assert SendAll(messages, texts)[|messages| + 2 * i + 1] == before[|messages| + 2 * i + 1];
        }
      }
    }
  }

  /** The DOM text input, whose `value` the handler writes. */
  class InputElement {
    var value: string

    constructor (value: string)
      ensures this.value == value
    {
      this.value := value;
    }
  }

  /** The Chat component's state. */
  class ChatBox {
    var messages: seq<Message>

    /** `useState([])`. */
    constructor ()
      ensures messages == []
    {
      messages := [];
    }

    /**
     * onKeyDown: on Enter with a text that is not all spaces, send the
     * untrimmed text and clear the input; any other key, or a blank text,
     * changes nothing.
     */
    method OnKeyDown(key: string, target: InputElement)
      modifies this, target
      ensures key == "Enter" && !AllSpace(old(target.value)) ==>
                messages == SendMessage(old(messages), old(target.value)) && target.value == ""
      ensures key != "Enter" || AllSpace(old(target.value)) ==>
                messages == old(messages) && target.value == old(target.value)
    {
      TrimEmptyIff(target.value);
      if key == "Enter" && Trim(target.value) != "" {
        messages := SendMessage(messages, target.value);
        target.value := "";
      }
    }
  }
}
