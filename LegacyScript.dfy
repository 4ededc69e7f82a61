/**
 * The plain-DOM page script (src/script.ts, and its older JavaScript copy
 * Trash/script.js, whose three handlers are the same statement for
 * statement). On DOMContentLoaded it closes over two counters and registers
 * click handlers that assign DOM fields in place:
 *   - the colour button steps `colorIndex` through the five-colour palette
 *     and paints the page body;
 *   - the counter button increments `count`, writes it into the counter span
 *     and recolours itself orange above 5 clicks and red above 10;
 *   - the message button shows the trimmed input (or an error when it is
 *     blank) and clears the input on success; Enter in the input clicks it.
 * A DOM field the script has not assigned yet is `None`: its value then comes
 * from the page's markup and style sheet, which are not part of this model.
 * Message markup (`<em>`, `<strong>`) is dropped: the display holds its text.
 */
module LegacyScript {
  import opened Wrappers
  import JsString
  import Interactivity
  import InteractiveSection

  const Orange := "#f39c12"
  const Red := "#e74c3c"

  /** The colour index after `k` clicks of the colour button, starting at 0:
      each click is `colorIndex = (colorIndex + 1) % colors.length`. The
      script's `colors` array is the hook's palette, entry for entry. */
  function ColorIndexAfter(k: nat): (i: nat)
    ensures i < |Interactivity.Colors|
  {
    Interactivity.IndexAfter(0, |Interactivity.Colors|, k)
  }

  /** After k clicks the index is k mod 5. */
  lemma ColorIndexIsClicksModFive(k: nat)
    ensures ColorIndexAfter(k) == k % 5
  {
    Interactivity.IndexAfterClosedForm(0, k);
  }

  /** One click's effect on the counter button's background: up to 5 the
      field is left as it was; above 5 it is assigned, and it is red exactly
      above 10. */
  function ButtonColorStep(previous: Option<string>, count: int): (color: Option<string>)
    ensures count <= 5 ==> color == previous
    ensures count > 5 ==> color != None && (color == Some(Red) <==> count > 10)
  {
    if count > 10 then Some(Red)
    else if count > 5 then Some(Orange)
    else previous
  }

  /** The counter button's background after `n` clicks: unassigned exactly
      for the first five clicks, orange or red from then on. */
  function ButtonColorAfter(n: nat): (color: Option<string>)
    ensures color == None <==> n <= 5
    ensures color != None ==> color == Some(Orange) || color == Some(Red)
  {
    if n == 0 then None else ButtonColorStep(ButtonColorAfter(n - 1), n)
  }

  /** The thresholds, as the click tests observe them: 5 or fewer clicks leave
      the colour unassigned, 6 to 10 give orange, more than 10 give red. */
  lemma {:induction false} ButtonColorThresholds(n: nat)
    ensures n <= 5 ==> ButtonColorAfter(n) == None
    ensures 5 < n <= 10 ==> ButtonColorAfter(n) == Some(Orange)
    ensures 10 < n ==> ButtonColorAfter(n) == Some(Red)
  {
    if n > 0 {
      ButtonColorThresholds(n - 1);
    }
  }

  /** Default, orange, red, in the order the button passes through them. */
  function ColorRank(c: Option<string>): nat {
    if c == Some(Red) then 2 else if c == Some(Orange) then 1 else 0
  }

  /** The button colour never goes back: once orange it is never the default
      again, and once red it stays red. */
  lemma ButtonColorMonotone(m: nat, n: nat)
    requires m <= n
    ensures ColorRank(ButtonColorAfter(m)) <= ColorRank(ButtonColorAfter(n))
    ensures ButtonColorAfter(m) == Some(Red) ==> ButtonColorAfter(n) == Some(Red)
    ensures ButtonColorAfter(m) != None ==> ButtonColorAfter(n) != None
  {
    ButtonColorThresholds(m);
    ButtonColorThresholds(n);
  }

  /** What the message display shows: its text and its two colours. */
  datatype Display = Display(text: string, backgroundColor: string, color: string)

  const ErrorDisplay := Display("Please enter a message first!", "#ffe8e8", "#e74c3c")

  /** The success display: the same text the React component shows, which
      holds the message itself, in colours that tell it from the error. */
  function SuccessDisplay(message: string): (d: Display)
    ensures d.text == InteractiveSection.SuccessText(message)
    ensures d.text[15..15 + |message|] == message
    ensures d != ErrorDisplay && d.backgroundColor != ErrorDisplay.backgroundColor
  {
    Display(InteractiveSection.SuccessText(message), "#e8f6f3", "#27ae60")
  }

  /** One click of the message button: the new display and the new input. */
  datatype ShowOutcome = ShowOutcome(display: Display, input: string)

  /** The message handler on input value `input`: blank after trimming gives
      the error display and leaves the input alone; otherwise the TRIMMED
      message is shown with the success colours and the input is cleared. */
  function ShowMessage(input: string): (r: ShowOutcome)
    ensures r.display == ErrorDisplay <==> JsString.AllWhiteSpace(input)
    ensures r.display == ErrorDisplay ==> r.input == input
    ensures r.display != ErrorDisplay ==> r.display == SuccessDisplay(JsString.Trim(input)) && r.input == ""
  {
    JsString.TrimEmptyIff(input);
    var message := JsString.Trim(input);
    if message == "" then ShowOutcome(ErrorDisplay, input)
    else ShowOutcome(SuccessDisplay(message), "")
  }

  /** The message shown on success is the input with its surrounding white
      space removed: a slice of the input, with no white space at either end. */
  lemma ShownMessageIsTrimmed(input: string)
    requires !JsString.AllWhiteSpace(input)
    ensures var m := JsString.Trim(input);
      && ShowMessage(input).display == SuccessDisplay(m)
      && m != [] && !JsString.IsWhiteSpace(m[0]) && !JsString.IsWhiteSpace(m[|m| - 1])
  {
    JsString.TrimEmptyIff(input);
  }

  /** The validation fixtures that must fail: "" and "   " give the error. */
  lemma BlankValidationCases()
    ensures ShowMessage("").display == ErrorDisplay
    ensures ShowMessage("   ").display == ErrorDisplay
  {
  }

  /** The validation fixtures that must pass, one by one: "Valid message"
      and "123!@#" are shown as typed. */
  lemma MessageValidationCases()
    ensures ShowMessage("Valid message").display == SuccessDisplay("Valid message")
  {
    ShowTrimmedAsIs("Valid message");
  }

  lemma SymbolMessageValidationCase()
    ensures ShowMessage("123!@#").display == SuccessDisplay("123!@#")
  {
    ShowTrimmedAsIs("123!@#");
  }

  /** An input with no white space at either end is shown unchanged. */
  lemma ShowTrimmedAsIs(input: string)
    requires input != [] && !JsString.IsWhiteSpace(input[0]) && !JsString.IsWhiteSpace(input[|input| - 1])
    ensures ShowMessage(input).display == SuccessDisplay(input) && ShowMessage(input).input == ""
  {
    assert JsString.SkipLeading(input, 0) == 0;
    assert JsString.SkipTrailing(input, 0, |input|) == |input|;
    assert input[0..|input|] == input;
    assert !JsString.AllWhiteSpace(input);
  }

  /** Showing twice in a row: the second click finds the input cleared (or
      still blank) and shows the error. */
  lemma SecondShowIsError(input: string)
    ensures ShowMessage(ShowMessage(input).input).display == ErrorDisplay
  {
  }

  /** The page's script state: the two closure variables and the DOM fields
      the handlers assign. `colorClicks` counts colour-button clicks. */
  class Page {
    var colorIndex: int
    var bodyBackground: Option<string>
    ghost var colorClicks: nat

    var count: int
    var counterText: Option<string>
    var counterButtonColor: Option<string>

    var inputValue: string
    var display: Option<Display>

    /** The state after any sequence of handler runs: the colour index is
        the click count mod 5 and the body shows that palette entry; the span
        shows the count; the button colour follows the thresholds. */
    ghost predicate Valid()
      reads this
    {
      && colorIndex == ColorIndexAfter(colorClicks)
      && bodyBackground == (if colorClicks == 0 then None else Some(Interactivity.Colors[colorIndex]))
      && count >= 0
      && counterText == (if count == 0 then None else Some(JsString.NatToString(count)))
      && counterButtonColor == ButtonColorAfter(count)
    }

    /** The parts of the state each handler owns. */
    function ColorPart(): (int, Option<string>)
      reads this
    {
      (colorIndex, bodyBackground)
    }

    function CounterPart(): (int, Option<string>, Option<string>)
      reads this
    {
      (count, counterText, counterButtonColor)
    }

    function MessagePart(): (string, Option<Display>)
      reads this
    {
      (inputValue, display)
    }

    /** DOMContentLoaded: `colorIndex = 0`, `count = 0`, nothing assigned yet;
        the input holds whatever the page was loaded with. */
    constructor (initialInput: string)
      ensures Valid()
      ensures colorClicks == 0 && colorIndex == 0 && count == 0
      ensures bodyBackground == None && counterText == None && counterButtonColor == None
      ensures inputValue == initialInput && display == None
    {
      colorIndex := 0;
      bodyBackground := None;
      colorClicks := 0;
      count := 0;
      counterText := None;
      counterButtonColor := None;
      inputValue := initialInput;
      display := None;
    }

    /** The colour button's click handler. */
    method ClickColorButton()
      requires Valid()
      modifies this
      ensures Valid()
      ensures colorClicks == old(colorClicks) + 1
      ensures colorIndex == Interactivity.NextIndex(old(colorIndex), |Interactivity.Colors|)
      ensures 0 <= colorIndex < 5 && bodyBackground == Some(Interactivity.Colors[colorIndex])
      ensures CounterPart() == old(CounterPart()) && MessagePart() == old(MessagePart())
    {
      colorIndex := (colorIndex + 1) % |Interactivity.Colors|;
      bodyBackground := Some(Interactivity.Colors[colorIndex]);
      colorClicks := colorClicks + 1;
    }

    /** The counter button's click handler. */
    method ClickCounterButton()
      requires Valid()
      modifies this
      ensures Valid()
      ensures count == old(count) + 1
      ensures counterText == Some(JsString.NatToString(count))
      ensures counterButtonColor == ButtonColorStep(old(counterButtonColor), count)
      ensures ColorPart() == old(ColorPart()) && colorClicks == old(colorClicks)
      ensures MessagePart() == old(MessagePart())
    {
      count := count + 1;
      counterText := Some(JsString.NatToString(count));
      if count > 10 {
        counterButtonColor := Some(Red);
      } else if count > 5 {
        counterButtonColor := Some(Orange);
      }
    }

    /** The user typing into the message input (the browser, not the script,
        sets `messageInput.value`). */
    method TypeIntoInput(value: string)
      requires Valid()
      modifies this
      ensures Valid()
      ensures inputValue == value && display == old(display)
      ensures ColorPart() == old(ColorPart()) && colorClicks == old(colorClicks)
      ensures CounterPart() == old(CounterPart())
    {
      inputValue := value;
    }

    /** The message button's click handler. */
    method ClickShowMessage()
      requires Valid()
      modifies this
      ensures Valid()
      ensures display == Some(ShowMessage(old(inputValue)).display)
      ensures inputValue == ShowMessage(old(inputValue)).input
      ensures ColorPart() == old(ColorPart()) && colorClicks == old(colorClicks)
      ensures CounterPart() == old(CounterPart())
    {
      var message := JsString.Trim(inputValue);
      if message == "" {
        display := Some(ErrorDisplay);
      } else {
        display := Some(SuccessDisplay(message));
        inputValue := "";
      }
    }

    /** The input's keypress handler: Enter clicks the message button; any
        other key does nothing. */
    method KeyPressInInput(key: string)
      requires Valid()
      modifies this
      ensures Valid()
      ensures key == "Enter" ==>
        (display == Some(ShowMessage(old(inputValue)).display) && inputValue == ShowMessage(old(inputValue)).input)
      ensures key != "Enter" ==> MessagePart() == old(MessagePart())
      ensures ColorPart() == old(ColorPart()) && colorClicks == old(colorClicks)
      ensures CounterPart() == old(CounterPart())
    {
      if key == "Enter" {
        ClickShowMessage();
      }
    }
  }

  /** A scenario from the click tests: from a fresh page, k clicks on the
      counter button leave "k" in the span and the threshold colour on the
      button. */
  method ClickCounterTimes(k: nat) returns (text: Option<string>, color: Option<string>)
    ensures text == (if k == 0 then None else Some(JsString.NatToString(k)))
    ensures k <= 5 ==> color == None
    ensures 5 < k <= 10 ==> color == Some(Orange)
    ensures 10 < k ==> color == Some(Red)
  {
    var page := new Page("");
    var i := 0;
    while i < k
      invariant 0 <= i <= k
      invariant page.Valid() && page.count == i
    {
      page.ClickCounterButton();
      i := i + 1;
    }
    ButtonColorThresholds(k);
    text, color := page.counterText, page.counterButtonColor;
  }
}
