# Interactive web app: a verified model of its handlers

This is a Dafny model of the behaviour behind a small teaching web site:

- the React hook `useInteractivity`, which holds a background colour taken from a five-colour palette and a click counter;
- the `InteractiveSection` component's message box: "Show Message", and Enter in the input;
- the three click handlers of the plain-DOM page script `src/script.ts`, which are identical, statement for statement, to those of its older copy `Trash/script.js`:
  - the colour button;
  - the click counter, with its orange and red thresholds;
  - the message display;
- the Express server's `POST /api/subtract` and `GET /api/health` handlers;
- the navigation bar's `isActive`.

Modules:

- `JsString`: `String.prototype.trim` over ECMAScript's white-space set, and `toString` of a non-negative count, with a decimal reader as its inverse.
- `Interactivity`:
  - `indexOf`, and the palette step `(indexOf + 1) % length`, as pure functions;
  - the hook's two state cells as the class `Hook`, whose methods are the two transitions.
- `InteractiveSection`: the message cells as a value, `ShowMessage` as their transition, and the mounted component as the class `Component`, which owns its own `Hook`.
- `LegacyScript`: the page script's closure variables and the DOM fields it assigns, as the class `Page`, one method per event handler. A ghost invariant `Valid` ties the fields to the click history. A DOM field the script has not assigned yet is `None`.
- `SubtractApi`: the request body as a JSON value, or `None` for `undefined`. The handler is a total function from the body and the clock reading `now` to a status code and a response body.
- `Navigation`: the class name of each of the three links.

The two message boxes differ, and the model keeps the difference:

- the React component tests the trimmed message but shows it untrimmed;
- the page script shows the trimmed message.

## Model

| member | source | states |
|---|---|---|
| JsString.SkipLeading | src/script.ts:72 | the start of the trimmed text: everything before it is white space, and the character there is not |
| JsString.SkipTrailing | src/script.ts:72 | the end of the trimmed text: everything from it on is white space, and the character before it is not |
| JsString.Trim | src/components/InteractiveSection.tsx:15 | `trim(s)` is the slice of `s` from its first non-white-space character: only white space lies outside the slice, and a non-empty result neither starts nor ends with white space |
| JsString.TrimUnique | src/script.ts:72 | that characterisation pins `trim` down: any slice with only white space outside it and no white space at its ends is `trim(s)` |
| JsString.TrimEmptyIff | src/components/InteractiveSection.tsx:15 | `trim(s) === ""` exactly when every character of `s` is white space; the empty string is included |
| JsString.TrimIdempotent | src/script.ts:72 | trimming a trimmed string changes nothing |
| JsString.NatToString | src/script.ts:42 | `count.toString()` is a non-empty string of decimal digits with no leading zero unless it is "0" |
| JsString.ParseNatToString | Trash/script.js:30 | reading the counter text back as a decimal numeral gives the count |
| JsString.NatToStringInjective | src/script.ts:41-42 | different counts give different counter texts |
| Interactivity.IndexOf | src/hooks/useInteractivity.ts:11 | `indexOf` is -1 exactly when the colour is absent; otherwise it is the first index that holds it |
| Interactivity.NextIndex | src/hooks/useInteractivity.ts:12 | the next index is always a valid index of the palette |
| Interactivity.NextIndexIsRemainder | src/hooks/useInteractivity.ts:12 | the wrap-around equals `(currentIndex + 1) % 5`, for every index `indexOf` can return, -1 included |
| Interactivity.IndexAfter | src/hooks/useInteractivity.ts:12 | after any number of steps the index is still a valid index |
| Interactivity.CycleInPalette | src/hooks/useInteractivity.ts:11-13 | whatever the current colour, the next colour is a palette entry |
| Interactivity.IndexOfDistinct | src/hooks/useInteractivity.ts:11 | in a palette of distinct entries, `indexOf` finds each entry at its own position |
| Interactivity.CycleOfEntry | src/hooks/useInteractivity.ts:11-13 | from entry i the next colour is entry i+1, wrapping from the last entry to the first |
| Interactivity.Cycle | src/hooks/useInteractivity.ts:11-13 | the next-colour step over any non-empty palette; a colour not in the palette (`indexOf` gives -1) is followed by entry 0 |
| Interactivity.CycleTimesOfEntry | src/hooks/useInteractivity.ts:9-14 | k colour changes from entry i land on the entry k steps further round the palette |
| Interactivity.IndexAfterClosedForm | src/hooks/useInteractivity.ts:12 | k steps from index i of the five-entry palette reach `(i + k) % 5` |
| Interactivity.ColorsDistinct | src/hooks/useInteractivity.ts:3 | the five palette colours are pairwise different |
| Interactivity.NextColorOfEntry | src/hooks/useInteractivity.ts:9-14 | `changeBackgroundColor` moves from `colors[i]` to `colors[(i + 1) % 5]` |
| Interactivity.NextColorWraps | src/hooks/useInteractivity.ts:12-13 | the last colour "#e8f4fd" is followed by the first, "#f4f4f4" |
| Interactivity.NextColor | src/hooks/useInteractivity.ts:11-13 | the hook's next colour is always a palette colour, and any colour outside the palette is followed by "#f4f4f4" |
| Interactivity.PeriodFive | src/hooks/useInteractivity.ts:9-14 | from any palette colour, k+5 changes give the same colour as k changes |
| Interactivity.IndexAfterPeriodic | src/hooks/useInteractivity.ts:12 | the index after k+5 steps equals the index after k steps |
| Interactivity.IndexAfterMoves | src/hooks/useInteractivity.ts:12 | 1 to 4 steps never come back to the starting index |
| Interactivity.LeastPeriodFive | src/hooks/useInteractivity.ts:9-14 | 1 to 4 changes never return to the starting colour, so the cycle visits all five |
| Interactivity.Hook.constructor | src/hooks/useInteractivity.ts:6-7 | the background starts at "#f4f4f4", which is palette entry 0, and the counter starts at 0 |
| Interactivity.Hook.ChangeBackgroundColor | src/hooks/useInteractivity.ts:9-14 | the background becomes the palette successor of the old one and is always a palette entry; the counter is unchanged |
| Interactivity.Hook.IncrementCounter | src/hooks/useInteractivity.ts:16-18 | the counter goes up by exactly one; the background is unchanged |
| InteractiveSection.ShowMessage | src/components/InteractiveSection.tsx:14-23 | the error style is set exactly when the message is white space only; in that case the error text is shown and the message is kept; otherwise `Your message: "<message>"` is shown with the untrimmed message, in the success style, and the message is cleared |
| InteractiveSection.ShowMessageCases | src/components/InteractiveSection.tsx:14-23 | the complete new message state, for each outcome of `message.trim() === ""` |
| InteractiveSection.WhitespaceOnlyIsError | tests/interactive-elements.spec.ts:140-151 | a white-space-only message gives the error text and is left in the input |
| InteractiveSection.SecondShowIsError | src/components/InteractiveSection.tsx:19-21 | after a successful show the input is empty, so an immediate second show gives the error |
| InteractiveSection.ShowBlankIsStable | src/components/InteractiveSection.tsx:15-17 | on a blank message, showing twice leaves the same state as showing once |
| InteractiveSection.SuccessText | src/components/InteractiveSection.tsx:19 | the text is the fixed prefix `Your message: "`, the message itself, and a closing quote |
| InteractiveSection.SuccessTextInjective | src/components/InteractiveSection.tsx:19 | the success text determines the message it shows |
| InteractiveSection.Component.constructor | src/components/InteractiveSection.tsx:5-12 | mounting creates a fresh hook in its initial state and three empty message cells |
| InteractiveSection.Component.ChangeMessage | src/components/InteractiveSection.tsx:49 | `onChange` replaces the message cell and nothing else |
| InteractiveSection.Component.HandleShowMessage | src/components/InteractiveSection.tsx:14-23 | the new message cells are `ShowMessage` of the old ones; the hook's colour and counter are unchanged |
| InteractiveSection.Component.HandleKeyPress | src/components/InteractiveSection.tsx:25-29 | Enter acts as `handleShowMessage`; any other key leaves the state unchanged; the hook is untouched either way |
| LegacyScript.ColorIndexAfter | src/script.ts:15-18 | the colour index after any number of clicks is a valid palette index |
| LegacyScript.ColorIndexIsClicksModFive | Trash/script.js:7-10 | after k clicks the colour index is k mod 5 |
| LegacyScript.ButtonColorStep | src/script.ts:51-55 | one click: a count up to 5 leaves the colour as it was; above 5 the colour is assigned, and it is red exactly above 10 |
| LegacyScript.ButtonColorAfter | Trash/script.js:39-43 | after n clicks the colour is unassigned exactly when n is at most 5, and otherwise it is orange or red |
| LegacyScript.ButtonColorThresholds | src/script.ts:51-55 | up to 5 clicks the button colour is never assigned; 6 to 10 clicks give orange "#f39c12"; more than 10 give red "#e74c3c" |
| LegacyScript.ButtonColorMonotone | Trash/script.js:39-43 | the button colour never goes back: once orange it stays orange or red, and once red it stays red |
| LegacyScript.SuccessDisplay | src/script.ts:74-81 | the success display shows the same text as the React component, holding the message, and differs from the error display in its background colour |
| LegacyScript.ShowMessage | Trash/script.js:55-69 | the error display is shown exactly when the input is white space only, and the input is kept; otherwise the trimmed message is shown in the success colours and the input is cleared |
| LegacyScript.ShownMessageIsTrimmed | src/script.ts:72-85 | on success the displayed message is the trimmed input, which is non-empty and has no white space at either end |
| LegacyScript.BlankValidationCases | tests/test-config.ts:197-198 | "" and "   " give the error display |
| LegacyScript.MessageValidationCases | tests/test-config.ts:199 | "Valid message" is shown as typed |
| LegacyScript.SymbolMessageValidationCase | tests/test-config.ts:200 | "123!@#" is shown as typed |
| LegacyScript.ShowTrimmedAsIs | src/script.ts:72-84 | an input with no white space at either end is shown unchanged, and the input is cleared |
| LegacyScript.SecondShowIsError | src/script.ts:74-85 | clicking "Show Message" twice in a row always ends on the error display |
| LegacyScript.Page.constructor | src/script.ts:15-38 | on DOMContentLoaded both counters are 0, no DOM field is assigned yet, and the invariant holds |
| LegacyScript.Page.ClickColorButton | src/script.ts:17-27 | the index advances cyclically and the body shows that palette entry; the counter and message parts are unchanged; the invariant is kept |
| LegacyScript.Page.ClickCounterButton | src/script.ts:40-56 | the count goes up by one and the span shows it; the button colour follows one step of the thresholds; the other parts are unchanged; the invariant is kept |
| LegacyScript.Page.TypeIntoInput | src/script.ts:72 | the input value the handler reads is replaced; everything else is unchanged |
| LegacyScript.Page.ClickShowMessage | src/script.ts:71-93 | the display and the input become those `ShowMessage` gives for the old input; the colour and counter parts are unchanged |
| LegacyScript.Page.KeyPressInInput | Trash/script.js:80-84 | Enter acts as a click on "Show Message"; any other key leaves the message part unchanged |
| LegacyScript.ClickCounterTimes | tests/click-counter.spec.ts:34-52 | k clicks on a fresh page leave the text "k" in the span and the threshold colour on the button |
| SubtractApi.TypeOf | api-server.js:35 | `typeof` is "number" exactly for a number value |
| SubtractApi.Property | api-server.js:32 | destructuring reads an object's own field; any other non-null value gives `undefined` |
| SubtractApi.IsNaN | api-server.js:46 | `isNaN` on a number is true exactly for the one number that is not `===` to itself |
| SubtractApi.Subtract | api-server.js:53 | the result is NaN exactly when an operand is NaN or both operands are the same infinity; finite operands give their exact difference |
| SubtractApi.SubtractAntiCommutes | api-server.js:53 | `a - b` is `-(b - a)` for every pair of numbers, special values included |
| SubtractApi.HandleSubtract | api-server.js:28-79 | the status is 200, 400 or 500. It is 500 with "Internal server error" exactly when the body is `undefined` or `null`. The type error is returned exactly when either field is not of type number. The NaN error is returned exactly when both are numbers and one is NaN. Otherwise the status is 200, with the difference, "subtraction" and the timestamp. |
| SubtractApi.NumbersSucceed | api-server.js:46-67 | two numbers, neither NaN, always succeed with their difference, the infinities included |
| SubtractApi.TypeCheckFirst | api-server.js:35-50 | a field that is not a number gives the type error whatever the other field holds, even NaN |
| SubtractApi.NaNRejected | api-server.js:46-50 | two numbers of which one is NaN give 400 with the NaN error |
| SubtractApi.Scenarios | api-server.js:53-67 | 10 - 4 = 6 and -3 - -3 = 0, each answered with status 200 |
| SubtractApi.ErrorScenarios | api-server.js:32-50 | "5" is a type error, even beside NaN; NaN is the NaN error; an array body is a type error; a missing body is a 500 |
| SubtractApi.HandleHealth | api-server.js:85-91 | always 200 with status "ok" and the current timestamp |
| Navigation.IsActive | src/components/Navigation.tsx:6-8 | "active" exactly when the pathname equals the path, and "" otherwise |
| Navigation.LinkClasses | src/components/Navigation.tsx:14-26 | the three links carry `isActive` of "/", "/about" and "/calculation", in that order |
| Navigation.AtMostOneActive | src/components/Navigation.tsx:14-26 | for any pathname, at most one link is active |
| Navigation.ExactlyTheMatchingLink | tests/navigation.spec.ts:4-25 | on each of the three paths, exactly that path's link is active |
| Navigation.NoLinkOffThePaths | src/components/Navigation.tsx:7 | the match is exact: any other pathname activates no link |
| Navigation.NearMissesActivateNothing | src/components/Navigation.tsx:7 | "/about/" and "/addition" activate no link |

## Left out

- Animations and timers: the bounce classes, the body's `color-transition` class, the opacity fades and every `setTimeout` call in the page script. They change only presentation.
- Markup: `innerHTML` sets `<em>`/`<strong>` markup, and the model keeps only the displayed text. HTML injection through the message is not modelled.
- The page script's other handlers: the about page's time button, which needs the clock and locale formatting; the feature-card hover effects; the page-load fade; the console messages.
- Missing DOM elements: the `if (colorBtn)`-style guards are not modelled. The model assumes the elements exist.
- The page's own HTML and CSS: initial field values that come from the markup, such as the counter span's "0", are `None` in the model.
- React mechanics: rendering, memoisation with `useCallback`, and the batching of state updates. Each handler is modelled as running to completion on the current state.
- Subtraction arithmetic: finite numbers are exact reals. IEEE 754 rounding, signed zero and overflow to infinity are not modelled.
- JSON parsing: `express.json()` parsing, the server start-up and CORS are not modelled. The body is given already parsed, as `None` for `undefined` or as a JSON value.
- JSON output: `res.json` serialises NaN and the infinities as `null`. The response body keeps the abstract number instead.
- Clock: `new Date().toISOString()` is the parameter `now`.
- Logging: the `console.log` and `console.error` calls in the server are not modelled.
- JsString.NatToString: covers only the non-negative integers a counter reaches. The 2^53 limit of JavaScript number precision is not modelled.
- Interactivity.Hook.IncrementCounter: unbounded integer; the 2^53 limit is not modelled.
- LegacyScript.Page.ClickCounterButton: unbounded integer. Past 2^53, `count++` leaves `count` unchanged, which contradicts `count == old(count) + 1`; the model does not cover that.
- Strings: a JavaScript string is a sequence of UTF-16 code units, and a Dafny `string` is a sequence of Unicode scalar values. A message holding a lone surrogate has no model. On well-formed text `trim` agrees, because every code point it removes lies in the Basic Multilingual Plane.
- The other pages, the remaining components and the test suites are not part of this model. Some tests' scenarios appear as lemmas above.
