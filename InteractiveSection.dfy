/**
 * The `InteractiveSection` React component: it owns one instance of the
 * `useInteractivity` hook (colour button and click counter) and three state
 * cells of its own for the message box: the text typed so far, the text on
 * display and the display's style. "Show Message" (or Enter in the input)
 * shows an error when the input is blank after trimming, and otherwise shows
 * the message as typed and clears the input.
 */
module InteractiveSection {
  import JsString
  import Interactivity

  /** The `{ backgroundColor, color }` style object of the message display. */
  datatype MessageStyle = MessageStyle(backgroundColor: string, color: string)

  /** The initial, empty style: `{ backgroundColor: "", color: "" }`. */
  const NoStyle := MessageStyle("", "")
  const ErrorStyle := MessageStyle("#ffe8e8", "#e74c3c")
  const SuccessStyle := MessageStyle("#e8f6f3", "#27ae60")

  const ErrorText := "Please enter a message first!"

  /** The template literal `Your message: "${message}"`: the message, quoted,
      after a fixed 15-character prefix. */
  function SuccessText(message: string): (t: string)
    ensures |t| == |message| + 16
    ensures t[..15] == "Your message: \"" && t[15..15 + |message|] == message && t[|t| - 1] == '"'
  {
    "Your message: \"" + message + "\""
  }

  /** The three message cells as one value. */
  datatype MessageState = MessageState(message: string, displayed: string, style: MessageStyle)

  const InitialMessageState := MessageState("", "", NoStyle)

  predicate IsBlank(message: string) {
    JsString.Trim(message) == ""
  }

  /** What `handleShowMessage` makes of the message cells: an error display
      with the input kept when the input trims to "", otherwise the untrimmed
      message on a success display with the input cleared. */
  function ShowMessage(s: MessageState): (t: MessageState)
    ensures t.style == ErrorStyle || t.style == SuccessStyle
    ensures t.style == ErrorStyle <==> JsString.AllWhiteSpace(s.message)
    ensures t.style == ErrorStyle ==> t.displayed == ErrorText && t.message == s.message
    ensures t.style == SuccessStyle ==> t.displayed == SuccessText(s.message) && t.message == ""
  {
    JsString.TrimEmptyIff(s.message);
    if IsBlank(s.message) then
      s.(displayed := ErrorText, style := ErrorStyle)
    else
      MessageState("", SuccessText(s.message), SuccessStyle)
  }

  /** The whole new state, case by case. */
  lemma ShowMessageCases(s: MessageState)
    ensures IsBlank(s.message) ==> ShowMessage(s) == MessageState(s.message, ErrorText, ErrorStyle)
    ensures !IsBlank(s.message) ==> ShowMessage(s) == MessageState("", SuccessText(s.message), SuccessStyle)
  {
  }

  /** A whitespace-only input is blank: "   " and "" both give the error. */
  lemma WhitespaceOnlyIsError(s: MessageState)
    requires JsString.AllWhiteSpace(s.message)
    ensures ShowMessage(s).displayed == ErrorText && ShowMessage(s).message == s.message
  {
  }

  /** After a successful show the input is empty, so showing again at once
      gives the error display. */
  lemma SecondShowIsError(s: MessageState)
    requires !IsBlank(s.message)
    ensures ShowMessage(ShowMessage(s)).displayed == ErrorText
    ensures ShowMessage(ShowMessage(s)).style == ErrorStyle
    ensures ShowMessage(ShowMessage(s)).message == ""
  {
  }

  /** Showing is idempotent once the display is an error: a blank input
      stays put and the display does not change again. */
  lemma ShowBlankIsStable(s: MessageState)
    requires IsBlank(s.message)
    ensures ShowMessage(ShowMessage(s)) == ShowMessage(s)
  {
  }

  /** The success text determines the message shown (the display can be read
      back). */
  lemma SuccessTextInjective(m1: string, m2: string)
    ensures SuccessText(m1) == SuccessText(m2) ==> m1 == m2
  {
  }

  /** One mounted component: its hook instance and its three state cells.
      The hook is a separate object, so the message handlers, which modify
      only the component, cannot touch the colour or the counter. */
  class Component {
    const hook: Interactivity.Hook
    var message: string
    var displayedMessage: string
    var messageStyle: MessageStyle

    function State(): MessageState
      reads this
    {
      MessageState(message, displayedMessage, messageStyle)
    }

    /** Mounting: a fresh hook (colour "#f4f4f4", counter 0) and three
        empty cells. */
    constructor ()
      ensures fresh(hook)
      ensures hook.backgroundColor == "#f4f4f4" && hook.counter == 0
      ensures State() == InitialMessageState
    {
      hook := new Interactivity.Hook();
      message := "";
      displayedMessage := "";
      messageStyle := NoStyle;
    }

    /** The input's `onChange`: `setMessage(e.target.value)`. */
    method ChangeMessage(value: string)
      modifies this
      ensures State() == old(State()).(message := value)
    {
      message := value;
    }

    /** `handleShowMessage`. */
    method HandleShowMessage()
      modifies this
      ensures State() == ShowMessage(old(State()))
      ensures hook.backgroundColor == old(hook.backgroundColor)
      ensures hook.counter == old(hook.counter)
    {
      ShowMessageCases(State());
      if JsString.Trim(message) == "" {
        displayedMessage := ErrorText;
        messageStyle := ErrorStyle;
      } else {
        displayedMessage := SuccessText(message);
        messageStyle := SuccessStyle;
        message := "";
      }
    }

    /** `handleKeyPress`: only Enter reaches `handleShowMessage`. */
    method HandleKeyPress(key: string)
      modifies this
      ensures key == "Enter" ==> State() == ShowMessage(old(State()))
      ensures key != "Enter" ==> State() == old(State())
      ensures hook.backgroundColor == old(hook.backgroundColor)
      ensures hook.counter == old(hook.counter)
    {
      if key == "Enter" {
        HandleShowMessage();
      }
    }
  }
}
