# Virtual keyboard — a verified model

This project models the on-screen keyboard of `keyboard/keyboard.js`: a single
`Keyboard` object holding a text buffer (`properties.value`), a caps-lock flag
(`properties.capsLock`), a visibility flag (the `keyboard--hidden` class on its
main element), two host handler slots (`eventHandlers.oninput`,
`eventHandlers.onclose`) and the labels of its 44 key buttons. Each key click
changes this state in one small way and may then call a host handler with the
current text.

The model has two layers.

- `Machine` (machine.dfy) states the keyboard as a value, `State`, and gives one
  function per operation: `Step` (one click, by key), `ToggleCapsLock`, `Open`,
  `Close`, `Trigger` (the dispatch of `_triggerEvent`) and `Run` (a sequence of
  clicks). Handler calls are returned as a list of `Dispatch` records
  (slot, handler, text passed).
- `Widget.Keyboard` (keyboard.dfy) is the object itself: a class whose fields are
  updated in place, with the key buttons in an `array<Button>`, the caps-lock
  re-casing as a loop over that array, and a ghost `log` of handler calls. Each
  method is proved to move the object from `old(Snapshot())` to the state the
  corresponding `Machine` function gives, and to append exactly that function's
  dispatches to the log, while keeping `Valid()` (labels in step with caps lock).

`Ascii` gives the case mapping, `Layout` the key layout, the `switch` that sorts
key names into special and plain keys, and the rendered buttons. `Properties`
proves what the keyboard promises about `Machine`.

Behaviour worth knowing, as the code has it:

- Backspace uses `substring(0, length - 1)`, which clamps a negative end to 0, so
  backspace on an empty text leaves it empty (`Machine.Substring` models the
  clamping and swapping of JavaScript's `substring`).
- `open(initial, …)` uses `initial || ""`: an absent or empty initial text gives
  the empty text. The focus wiring calls `open` with two arguments, so its
  `onclose` slot holds `undefined`, which `_triggerEvent` skips.
- Done calls `close()` before `_triggerEvent("onclose")`. `close()` empties the
  text and stores the free identifiers `oninput`/`onclose` — the page's global
  handler properties, not the handlers given to `open` — in the slots. So the
  `onclose` dispatch always passes `""`, and goes to the global handler if it is
  a function, never to the handler `open` installed. The commented-out example at
  keyboard/keyboard.js:258-265 expects the finishing text to be reported; the
  model follows the code (`Properties.DoneClosesThenNotifies`). The globals are
  the `Ambient` parameter of `Close`, `Step` and `Click`.
- Caps lock re-cases each button's *current* label, skipping buttons with a child
  element (the icon keys). That this keeps every plain label equal to the
  upper- or lower-case form of its key is a proved invariant
  (`Machine.Consistent`, kept by every operation).

## Model

| member | source | states |
|---|---|---|
| `Ascii.CharCaseLaws` | keyboard/keyboard.js:229 | one-character `toUpperCase`/`toLowerCase` are idempotent, absorb each other, and change exactly the letters of the other case |
| `Ascii.UpperStr` | keyboard/keyboard.js:183 | `toUpperCase` keeps the length and upper-cases every character |
| `Ascii.LowerStr` | keyboard/keyboard.js:179 | `toLowerCase` keeps the length and lower-cases every character |
| `Ascii.StrCaseLaws` | keyboard/keyboard.js:229 | on strings, mapping twice equals mapping once with the second mapping |
| `Layout.Classify` | keyboard/keyboard.js:111-176 | the switch picks a special case exactly for the five special names; every other name falls to the default case with its own name |
| `Layout.NameOfClassify` | keyboard/keyboard.js:111-176 | classifying a layout name and naming the key gives the name back |
| `Layout.ClassifyOfName` | keyboard/keyboard.js:111-176 | naming a key and classifying gives the key back, except for a plain key whose name is a special name |
| `Layout.LayoutShape` | keyboard/keyboard.js:81-87 | 44 keys; backspace, caps, enter, done and space at positions 10, 21, 31, 32, 43; every other key is one digit, lower-case letter, `,`, `.` or `?` |
| `Layout.Cased` | keyboard/keyboard.js:183 | `capsLock ? s.toUpperCase() : s.toLowerCase()` keeps the length and maps each character by the case caps lock selects |
| `Layout.CasedTwice` | keyboard/keyboard.js:229 | re-casing a cased text depends only on the last case chosen |
| `Layout.RenderKey` | keyboard/keyboard.js:111-179 | a special key gets an icon button, any other key a text button labelled with its name in the current case |
| `Layout.RelabelRendered` | keyboard/keyboard.js:226-231 | the caps-lock loop turns the buttons rendered for one caps state into exactly those rendered for the new state |
| `Layout.LayoutSpecialKeys` | keyboard/keyboard.js:81-87 | the layout has 44 names; exactly positions 10, 21, 31, 32 and 43 hold the special names backspace, caps, enter, done and space |
| `Layout.LayoutPlainKeys` | keyboard/keyboard.js:81-87 | every other layout name is one digit, lower-case letter, `,`, `.` or `?` |
| `Layout.RenderAll` | keyboard/keyboard.js:95-198 | reference definition of the buttons `_createKeys` makes: one per name, in layout order, each as `RenderKey` gives it |
| `Layout.RelabelAll` | keyboard/keyboard.js:226-231 | reference definition of the caps-lock loop: same number of buttons, each icon button kept and each text label re-cased |
| `Layout.RelabelRenderAll` | keyboard/keyboard.js:226-231 | re-casing buttons rendered for one caps state gives the buttons rendered for the other, for any list of names |
| `Ascii.Upper` | keyboard/keyboard.js:183 | reference definition of one-character `toUpperCase`: a lower-case letter becomes its upper-case letter (32 code points down), every other character stays; the result is never a lower-case letter |
| `Ascii.Lower` | keyboard/keyboard.js:179 | reference definition of one-character `toLowerCase`: an upper-case letter becomes its lower-case letter, every other character stays; the result is never an upper-case letter |
| `Machine.Initial` | keyboard/keyboard.js:27-58 | reference definition of the state after `init()`: empty text, caps lock off, hidden, no handlers, and labels consistent with caps lock (all lower-case) |
| `Machine.Trigger` | keyboard/keyboard.js:203-211 | reference definition of `_triggerEvent`: at most one call; none iff the slot holds no function; the call goes to that slot's handler with the current text |
| `Machine.Open` | keyboard/keyboard.js:234-242 | reference definition of `open`: shows the widget, leaves caps lock and labels alone, and so keeps labels consistent |
| `Machine.Close` | keyboard/keyboard.js:244-252 | reference definition of `close`: empties the text, hides the widget, leaves caps lock and labels alone, and keeps labels consistent |
| `Machine.ToggleCapsLock` | keyboard/keyboard.js:213-232 | reference definition of `_toggleCapsLock`: flips caps lock, changes nothing but caps lock and labels, and keeps labels consistent |
| `Machine.Step` | keyboard/keyboard.js:111-189 | reference definition of one click: at most one dispatch, carrying the new text; only caps changes caps lock; only done changes visibility or the handler slots |
| `Machine.Substring` | keyboard/keyboard.js:117 | JavaScript's `substring`: never longer than the string; `s[start..end]` for in-range bounds, the swapped slice when start is past end, a negative bound read as 0, and `""` when both bounds fall at or beyond the same end of the string |
| `Properties.SubstringSymmetric` | keyboard/keyboard.js:117 | `substring(a, b)` equals `substring(b, a)`, whatever the bounds |
| `Properties.TriggerOnce` | keyboard/keyboard.js:203-211 | dispatch adds nothing iff the slot holds no function; otherwise exactly one call of that slot's handler with the current text |
| `Properties.PlainKeyAppends` | keyboard/keyboard.js:182-185 | a plain key keeps the old text as prefix, appends its name character by character in the case caps lock selects, changes nothing else, and dispatches `oninput` with the new text |
| `Properties.LayoutKeyAppendsOneChar` | keyboard/keyboard.js:182-185 | a plain key of the layout appends exactly one character, `Upper(c)` with caps lock on and `Lower(c)` otherwise, then dispatches `oninput` |
| `Properties.BackspaceTruncates` | keyboard/keyboard.js:116-119 | backspace yields the text without its last character, `""` from `""`, changes nothing else, and dispatches `oninput` |
| `Properties.BackspaceUndoesLayoutKey` | keyboard/keyboard.js:116-119 | backspace after a plain layout key restores the whole state before that key |
| `Properties.EnterAppendsNewline` | keyboard/keyboard.js:142-146 | enter appends exactly `"\n"`, changes nothing else, and dispatches `oninput` |
| `Properties.SpaceAppendsBlank` | keyboard/keyboard.js:155-158 | space appends exactly `" "`, changes nothing else, and dispatches `oninput` |
| `Properties.LabelsFollowCaps` | keyboard/keyboard.js:226-231 | in a consistent state every plain label is the upper- or lower-case form of its key, as caps lock says, and every special key shows its icon |
| `Properties.CapsToggles` | keyboard/keyboard.js:130-133 | caps flips caps lock, keeps text, visibility and handlers, dispatches nothing, and keeps labels consistent |
| `Properties.CapsTwiceRestores` | keyboard/keyboard.js:213-232 | two caps clicks restore the whole state, labels included, with no dispatch |
| `Properties.OpenSetsState` | keyboard/keyboard.js:234-242 | open sets the text to the initial text, or `""` when it is absent or empty, installs both handlers, shows the widget, and leaves caps lock and labels alone |
| `Properties.CloseResets` | keyboard/keyboard.js:244-252 | close empties the text, hides the widget, stores the ambient handlers, leaves caps lock and labels alone, and is idempotent |
| `Properties.OpenCloseCancel` | keyboard/keyboard.js:234-252 | close after open equals close alone; open after close equals open alone |
| `Properties.DoneClosesThenNotifies` | keyboard/keyboard.js:168-172 | done leaves the closed state; its only possible dispatch goes to the ambient `onclose` and passes `""` |
| `Properties.OpenThenPlainKey` | keyboard/keyboard.js:237-238 | after open, a plain key calls the installed `oninput` once with the initial text plus the typed characters |
| `Properties.StepPreservesConsistency` | keyboard/keyboard.js:111-189 | every click keeps labels in step with caps lock |
| `Properties.RunPreservesConsistency` | keyboard/keyboard.js:111-189 | any sequence of clicks keeps labels in step with caps lock |
| `Properties.StepAppends` | keyboard/keyboard.js:124-186 | a key other than backspace and done appends its typed text, flips caps lock only for caps, keeps visibility and handlers, and only dispatches to `oninput` |
| `Properties.RunDispatchesOnlyInput` | keyboard/keyboard.js:124-186 | after keys other than backspace and done, every dispatch goes to the `oninput` handler installed before the first key |
| `Properties.RunKeepsVisibilityAndHandlers` | keyboard/keyboard.js:124-186 | such keys never change visibility or the handler slots |
| `Properties.RunCapsAfter` | keyboard/keyboard.js:124-186 | after such keys, caps lock is the starting state flipped once per caps press |
| `Properties.RunAppendsTranscript` | keyboard/keyboard.js:124-186 | after such keys, the text is the old text followed by each key's character(s), cased by the caps lock in force at that press |
| `Properties.RunTranscript` | keyboard/keyboard.js:124-186 | after keys other than backspace and done, the text is the old text followed by each key's character(s) in press order, cased by the caps lock in force at that press; only `oninput` is called |
| `Properties.ScenarioHiEnterOne` | keyboard/keyboard.js:137-186 | h, i, enter, 1 on an empty text with caps lock off give `"hi\n1"` |
| `Properties.ScenarioCapsAB` | keyboard/keyboard.js:124-186 | caps, a, b on an empty text with caps lock off give `"AB"` |
| `Widget.BuildButtons` | keyboard/keyboard.js:95-198 | fills a fresh array with exactly `RenderAll` of the names, lower-case |
| `Widget.Keyboard.constructor` | keyboard/keyboard.js:35-58 | builds one button per layout key with lower-case labels, empty text, caps lock off, hidden, no handlers, empty log |
| `Widget.Keyboard.TriggerEvent` | keyboard/keyboard.js:203-211 | appends to the log exactly the dispatch `Trigger` gives for the current state |
| `Widget.Keyboard.ToggleCapsLock` | keyboard/keyboard.js:213-232 | flips caps lock and re-cases every text button in place, as `Machine.ToggleCapsLock`; keeps labels consistent |
| `Widget.Keyboard.Open` | keyboard/keyboard.js:234-242 | moves the object to `Machine.Open` of its old state; no dispatch |
| `Widget.Keyboard.Close` | keyboard/keyboard.js:244-252 | moves the object to `Machine.Close` of its old state; no dispatch |
| `Widget.Keyboard.Click` | keyboard/keyboard.js:111-189 | moves the object to `Step` of its old state and appends exactly `Step`'s dispatches to the log |
| `Widget.Keyboard.ClickAt` | keyboard/keyboard.js:95-189 | a click on the button at layout position `i` runs the handler the switch attached for that position's name: `Step` of the classified name |

## Left out

- DOM construction and styling: `createElement`, class lists (including the `keybboard_key--wide` spelling at keyboard/keyboard.js:164), icon markup, the document fragment and the `<br>` line breaks after backspace, p, enter and `?`. Buttons are modelled only as "icon" or "text label".
- The caps key's `keyboard_key--active` class (keyboard/keyboard.js:132): presentational only.
- The focus wiring (keyboard/keyboard.js:65-71) and the `DOMContentLoaded` bootstrap (keyboard/keyboard.js:255-256): browser event plumbing. The constructor stands for the object literal together with `init()`; calling `open` before `init` (which would fail on a null element) is not modelled.
- What host handlers do: handlers are opaque `HandlerId`s, and a call is only recorded in the ghost log.
- The page's global `oninput`/`onclose` properties that `close()` reads: they are the `Ambient` parameter, whatever they hold.
- JavaScript truthiness of non-string initial values in `initial || ""`: the initial text is a string or absent.
- Machine.Substring: text is a sequence of Unicode characters, not of UTF-16 code units as in JavaScript, so `length` and `substring` count a character outside the Basic Multilingual Plane once where JavaScript counts two.
- Properties.BackspaceTruncates: for the same reason, backspace after a character outside the Basic Multilingual Plane removes the whole character here, where JavaScript removes only its low surrogate. The layout cannot produce such characters; only an initial text given to `open` can contain one.
- Widget.Keyboard.Click: takes any `Key`, a superset of what the buttons can send; `Widget.Keyboard.ClickAt` is the click on a button of the layout.
- Full Unicode `toUpperCase`/`toLowerCase`: only ASCII letters are mapped; every character the layout can produce is ASCII.
