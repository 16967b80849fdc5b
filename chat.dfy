/** The chat panel (ai_doctor/src/ChatPanel.tsx): a text box whose content
    is the component's `input` state, and the send gate that forwards an
    answer to the parent. */
module Chat {
  import opened Wrappers
  import opened Text

  /** The gate of handleSend: the raw, untrimmed input is forwarded exactly
      when it has a non-space character and no request is in flight. */
  function SendGate(input: string, isLoading: bool): (r: Option<string>)
    ensures r.Some? <==> !isLoading && !IsBlank(Js, input)
    ensures r.Some? ==> r.value == input
  {
    if Trim(Js, input) != "" && !isLoading then Some(input) else None
  }

  /** `disabled={isLoading}` on both the text field and the Send button. */
  predicate ControlsEnabled(isLoading: bool) {
    !isLoading
  }

  class ChatPanel {
    var input: string

    constructor ()
      ensures input == ""
    {
      input := "";
    }

    /** handleSend: forward (the returned message is what onSendMessage
        receives) and clear the box, or do nothing. */
    method HandleSend(isLoading: bool) returns (sent: Option<string>)
      modifies this
      ensures sent == SendGate(old(input), isLoading)
      ensures input == (if sent.Some? then "" else old(input))
    {
      sent := None;
      if Trim(Js, input) != "" && !isLoading {
        sent := Some(input);
        input := "";
      }
    }

    /** The text field's onChange; a disabled field takes no input. */
    method Type(value: string, isLoading: bool)
      modifies this
      ensures input == (if ControlsEnabled(isLoading) then value else old(input))
    {
      if ControlsEnabled(isLoading) {
        input := value;
      }
    }

    /** onKeyPress: Enter sends; a disabled field receives no key. */
    method PressKey(key: string, isLoading: bool) returns (sent: Option<string>)
      modifies this
      ensures sent.Some? ==> key == "Enter" && ControlsEnabled(isLoading)
      ensures key == "Enter" && ControlsEnabled(isLoading) ==> sent == SendGate(old(input), isLoading)
      ensures input == (if sent.Some? then "" else old(input))
    {
      sent := None;
      if ControlsEnabled(isLoading) && key == "Enter" {
        sent := HandleSend(isLoading);
      }
    }

    /** The Send button's onClick; a disabled button is not clickable. */
    method ClickSend(isLoading: bool) returns (sent: Option<string>)
      modifies this
      ensures sent == SendGate(old(input), isLoading)
      ensures input == (if sent.Some? then "" else old(input))
    {
      sent := None;
      if ControlsEnabled(isLoading) {
        sent := HandleSend(isLoading);
      }
    }
  }
}
