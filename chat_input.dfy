/** The message box under the conversation: it sends the trimmed text, and only
    when there is something to send and the box is enabled. */
module ChatInput {
  import opened Wrappers
  import opened Text

  /** The send button is disabled while the text trims to nothing or the box is disabled. */
  predicate SendDisabled(message: string, disabled: bool)
  {
    Trim(message) == [] || disabled
  }

  /** What a submit sends, if anything: sending happens exactly when the button is
      enabled, and the text sent is the trimmed message, non-empty and with no
      whitespace at either end. */
  function Outgoing(message: string, disabled: bool): (sent: Option<string>)
    ensures sent.None? <==> SendDisabled(message, disabled)
    ensures sent.None? <==> AllWhitespace(message) || disabled
    ensures sent.Some? ==> sent.value == Trim(message) && sent.value != [] &&
                           !IsWhitespace(sent.value[0]) && !IsWhitespace(sent.value[|sent.value| - 1])
  {
    TrimEmptyIff(message);
    if Trim(message) != [] && !disabled then Some(Trim(message)) else None
  }

  /** The box's state. */
  class Input {
    var message: string

    constructor ()
      ensures message == ""
    {
      message := "";
    }

    /** `handleSubmit`: sends and clears the box when the gate passes; otherwise
        sends nothing and keeps the text. */
    method HandleSubmit(disabled: bool) returns (sent: Option<string>)
      modifies this
      ensures sent == Outgoing(old(message), disabled)
      ensures message == if sent.Some? then "" else old(message)
    {
      var text := Trim(message);
      if text != [] && !disabled {
        sent := Some(text);
        message := "";
      } else {
        sent := None;
      }
    }
  }
}
