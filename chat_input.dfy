/** The input field of src/components/ChatWidget/ChatInput.tsx: its
    `message` state, the `onChange` update, the submit guard that clears the
    field, and the predicate that disables the send button. The text handed
    to `onSendMessage` is the result of `HandleSubmit`. */
module ChatInput {
  import opened Js
  import opened Text

  class ChatInput {
    var message: string

    constructor()
      ensures message == ""
    {
      message := "";
    }

    /** `onChange`: the field takes the typed value. */
    method Change(value: string)
      modifies this
      ensures message == value
    {
      message := value;
    }

    /** `disabled={!message.trim() || isLoading}`: the button is disabled
        exactly while a reply is loading or the field holds nothing but
        whitespace. */
    predicate SubmitDisabled(isLoading: bool)
      reads this
      ensures SubmitDisabled(isLoading) <==> isLoading || AllWs(message)
    {
      BlankIffAllWhitespace(message);
      IsBlank(message) || isLoading
    }

    /** `handleSubmit`: a non-blank field is sent, untrimmed, exactly once and
        cleared, unless a reply is loading; otherwise nothing is sent and the
        field keeps its text. A submit goes through exactly when the button
        is enabled. */
    method HandleSubmit(isLoading: bool) returns (sent: Option<string>)
      modifies this
      ensures sent.Some? <==> !old(SubmitDisabled(isLoading))
      ensures sent.Some? ==> sent.value == old(message) && !IsBlank(sent.value) && message == ""
      ensures sent.None? ==> message == old(message)
    {
      if !IsBlank(message) && !isLoading {
        sent := Some(message);
        message := "";
      } else {
        sent := None;
      }
    }
  }
}
