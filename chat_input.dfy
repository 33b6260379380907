/**
 * The message box under the conversation (`components/ChatInput.tsx`): the
 * text being typed, the guarded submit, and when the box and its button are
 * disabled.
 */
module ChatInput {
  import opened Wrappers
  import opened Strings
  import App

  class Input {
    /** What is in the box. */
    var text: string

    constructor()
      ensures text == ""
    {
      text := "";
    }

    /** A keystroke replaces the text with the box's new value. */
    method Type(value: string)
      modifies this
      ensures text == value
    {
      text := value;
    }

    /** The send button is disabled while a turn is in flight or the text is blank. */
    predicate SendDisabled(isThinking: bool)
      reads this
    {
      isThinking || IsBlank(text)
    }

    /** The box itself is disabled only while a turn is in flight. */
    predicate InputDisabled(isThinking: bool)
      reads this
    {
      isThinking
    }

    /**
     * `handleSubmit`: text that is not blank, submitted while no turn is in
     * flight, is sent exactly as typed (not trimmed) and the box is cleared;
     * otherwise nothing is sent and the box keeps its text.
     */
    method Submit(isThinking: bool) returns (sent: Option<string>)
      modifies this
      ensures sent.Some? <==> App.Sendable(old(text), isThinking)
      ensures sent.Some? <==> !old(SendDisabled(isThinking))
      ensures sent.Some? ==> sent.value == old(text) && text == ""
      ensures sent.None? ==> text == old(text)
    {
      if !IsBlank(text) && !isThinking {
        sent := Some(text);
        text := "";
      } else {
        sent := None;
      }
    }
  }
}
