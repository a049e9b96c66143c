/** The message box (`ChatInput`): the draft text, and sending it trimmed, only when it has
    something other than white space and the box is not disabled. */
module ChatInput {
  import opened Js

  /** Enter without Shift sends; every other key is left to the text area. */
  predicate SendsOnKey(key: string, shiftKey: bool)
  {
    key == "Enter" && !shiftKey
  }

  class ChatInput {
    var input: string

    constructor ()
      ensures input == ""
    {
      input := "";
    }

    /** `onChange`: the draft becomes what the text area holds. */
    method SetInput(value: string)
      modifies this
      ensures input == value
    {
      input := value;
    }

    /** Whether the send button is enabled: the box is not disabled and the trimmed draft is not
        empty. */
    function SendEnabled(disabled: bool): (r: bool)
      reads this
      ensures r <==> !disabled && exists i :: 0 <= i < |input| && !IsWhiteSpace(input[i])
    {
      TrimEmptyIffWhiteSpace(input);
      !disabled && Trim(input) != ""
    }

    /** `handleSend`: hands the trimmed draft to `onSendMessage` and clears the box, exactly when
        the send button is enabled; otherwise nothing happens. */
    method HandleSend(disabled: bool) returns (sent: Option<string>)
      modifies this
      ensures sent.Some? <==> old(SendEnabled(disabled))
      ensures sent.Some? ==> sent.value == Trim(old(input)) && input == ""
      ensures sent.Some? ==> sent.value != "" && !IsWhiteSpace(sent.value[0]) && !IsWhiteSpace(sent.value[|sent.value| - 1])
      ensures sent.None? ==> input == old(input)
    {
      var trimmed := Trim(input);
      if trimmed != "" && !disabled {
        sent := Some(trimmed);
        input := "";
      } else {
        sent := None;
      }
    }

    /** `handleKeyPress`: Enter without Shift suppresses the newline and sends. */
    method HandleKeyPress(key: string, shiftKey: bool, disabled: bool) returns (preventDefault: bool, sent: Option<string>)
      modifies this
      ensures preventDefault <==> SendsOnKey(key, shiftKey)
      ensures sent.Some? <==> SendsOnKey(key, shiftKey) && old(SendEnabled(disabled))
      ensures sent.Some? ==> sent.value == Trim(old(input)) && input == ""
      ensures sent.None? ==> input == old(input)
    {
      if SendsOnKey(key, shiftKey) {
        preventDefault := true;
        sent := HandleSend(disabled);
      } else {
        preventDefault := false;
        sent := None;
      }
    }
  }
}
