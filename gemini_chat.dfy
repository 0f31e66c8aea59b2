/**
 * The Gemini chat screen (GeminiApp in components/Apps.tsx): a blank prompt is ignored,
 * any other is logged and sent, and the service's answer is logged when it arrives.
 */
module GeminiChat {
  import opened Wrappers
  import opened VirtualKeyboard
  import Messaging
  import Gemini

  datatype Role = User | Model
  datatype Message = Message(role: Role, text: string)

  const Greeting: string := "Hello. I am Gemini 3.0 Pro. How can I assist you on this legacy device?"

  class GeminiScreen {
    var messages: seq<Message>
    var loading: bool
    var input: string

    /** Every answer in the log is non-empty. */
    ghost predicate Valid()
      reads this
    {
      forall i :: 0 <= i < |messages| && messages[i].role == Model ==> messages[i].text != ""
    }

    constructor ()
      ensures Valid() && messages == [Message(Model, Greeting)] && !loading && input == ""
    {
      messages := [Message(Model, Greeting)];
      loading := false;
      input := "";
    }

    /** send, up to the request: the untrimmed prompt is logged and returned for the service. */
    method Send() returns (prompt: Option<string>)
      requires Valid()
      modifies this
      ensures Valid()
      ensures !Messaging.HasText(old(input)) ==>
        prompt == None && messages == old(messages) && input == old(input) && loading == old(loading)
      ensures Messaging.HasText(old(input)) ==>
        && prompt == Some(old(input)) && messages == old(messages) + [Message(User, old(input))]
        && input == "" && loading
    {
      if !Messaging.HasText(input) {
        return None;
      }
      prompt := Some(input);
      input := "";
      messages := messages + [Message(User, prompt.value)];
      loading := true;
    }

    /** send, after the reply: the answer or its fallback text is logged. */
    method Receive(reply: Gemini.TextReply)
      requires Valid()
      modifies this
      ensures Valid() && !loading && input == old(input)
      ensures messages == old(messages) + [Message(Model, Gemini.GenerateResponse(reply))]
    {
      messages := messages + [Message(Model, Gemini.GenerateResponse(reply))];
      loading := false;
    }

    /** A key of the virtual keyboard; ENTER sends. */
    method Key(key: string) returns (prompt: Option<string>)
      requires Valid()
      modifies this
      ensures Valid()
      ensures var r := ApplyKey(old(input), key);
        && (prompt.Some? <==> r.enter && Messaging.HasText(r.input))
        && (prompt.Some? ==> prompt.value == r.input && messages == old(messages) + [Message(User, r.input)] && input == "")
        && (prompt.None? ==> messages == old(messages) && input == r.input)
    {
      var r := ApplyKey(input, key);
      input := r.input;
      prompt := None;
      if r.enter {
        prompt := Send();
      }
    }
  }
}
