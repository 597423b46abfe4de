/** The chat input box: its text, the submit guard, the keyboard shortcut and the height of
    the text area. */
module ChatInput {
  import opened Wrappers
  import opened Text

  /** A text is blank when nothing is left of it after `trim`. */
  predicate Blank(s: string) {
    Trim(s) == ""
  }

  /** Blank texts are exactly those made of white space only. */
  lemma BlankIsSpaces(s: string)
    ensures Blank(s) <==> forall i :: 0 <= i < |s| ==> IsSpace(s[i])
  {
    var t := TrimStart(s);
    assert Blank(s) ==> TrimEnd(t) == [];
  }

  /** `disabled || !message.trim()`. */
  function ButtonDisabled(disabled: bool, message: string): bool {
    disabled || Blank(message)
  }

  /** `Math.min(scrollHeight, 120)`. */
  function Height(scrollHeight: int): (r: int)
    ensures r <= 120 && (r == scrollHeight || r == 120)
    ensures scrollHeight <= 120 ==> r == scrollHeight
  {
    if scrollHeight < 120 then scrollHeight else 120
  }

  /** Enter without Shift submits. */
  predicate SubmitsOn(key: string, shiftKey: bool) {
    key == "Enter" && !shiftKey
  }

  /** What a submit sends: the trimmed text, when there is one and the box is enabled. */
  function Submitted(message: string, disabled: bool): (r: Option<string>)
    ensures r.Some? <==> !ButtonDisabled(disabled, message)
    ensures r.Some? ==> r.value == Trim(message) && r.value != ""
  {
    if Trim(message) != "" && !disabled then Some(Trim(message)) else None
  }

  /** The component's state: the text and the height style of the text area. */
  class ChatInputBox {
    var message: string
    var height: int

    constructor()
      ensures message == ""
    {
      message := "";
    }

    /** `onChange`. */
    method Change(value: string)
      modifies this
      ensures message == value && height == old(height)
    {
      message := value;
    }

    /** The resize effect; `scrollHeight` is the text area's content height after its height
        was set to `auto`. */
    method Resize(scrollHeight: int)
      modifies this
      ensures height == Height(scrollHeight) && message == old(message)
    {
      height := if scrollHeight < 120 then scrollHeight else 120;
    }

    /** `handleSubmit`: `sent` is the argument `onSend` was called with, if it was. */
    method HandleSubmit(disabled: bool) returns (sent: Option<string>)
      modifies this
      ensures sent == Submitted(old(message), disabled)
      ensures message == if sent.Some? then "" else old(message)
      ensures height == old(height)
    {
      var trimmed := Trim(message);
      sent := None;
      if trimmed != "" && !disabled {
        sent := Some(trimmed);
        message := "";
      }
    }

    /** `handleKeyDown`; `prevented` is whether the default action was cancelled. */
    method HandleKeyDown(key: string, shiftKey: bool, disabled: bool) returns (sent: Option<string>, prevented: bool)
      modifies this
      ensures prevented == SubmitsOn(key, shiftKey)
      ensures sent == if prevented then Submitted(old(message), disabled) else None
      ensures message == if sent.Some? then "" else old(message)
      ensures height == old(height)
    {
      sent := None;
      prevented := false;
      if key == "Enter" && !shiftKey {
        prevented := true;
        sent := HandleSubmit(disabled);
      }
    }
  }

  /** Pressing Enter submits what clicking the button submits, and nothing is sent from a
      blank or disabled box. */
  lemma KeyMatchesButton(message: string, disabled: bool, shiftKey: bool)
    ensures Submitted(message, disabled).None? <==> ButtonDisabled(disabled, message)
    ensures (forall i :: 0 <= i < |message| ==> IsSpace(message[i])) ==> Submitted(message, disabled).None?
  {
    BlankIsSpaces(message);
  }
}
