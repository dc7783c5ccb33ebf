/** The keyboard's state as a value, and what each operation of the widget
    does to it: the specification that the `Keyboard` class is proved to
    follow, step by step. */
module Machine {
  import opened Wrappers
  import opened Layout

  /** An opaque host callback; only its identity matters to the widget. */
  datatype HandlerId = HandlerId(id: nat)

  /** The two handler slots of the widget. */
  datatype EventName = OnInput | OnClose

  /** One invocation of a host handler, with the text it was passed. */
  datatype Dispatch = Dispatch(event: EventName, handler: HandlerId, value: string)

  /** What the free identifiers `oninput` and `onclose` denote when `close`
      runs: the page's global handler properties, which the widget does not own.
      `None` stands for anything that is not a function (`null` by default). */
  datatype Ambient = Ambient(oninput: Option<HandlerId>, onclose: Option<HandlerId>)

  /** The whole observable state: the text buffer, caps lock, whether the
      container carries the hidden class, the two handler slots (`None` when
      the slot holds no function) and the rendered key buttons. */
  datatype State = State(
    value: string,
    capsLock: bool,
    hidden: bool,
    onInput: Option<HandlerId>,
    onClose: Option<HandlerId>,
    keys: seq<Button>)

  /** The state after a step, and the handlers it invoked, in order. */
  datatype Outcome = Outcome(after: State, events: seq<Dispatch>)

  /** The state once the widget is built: empty text, caps lock off, hidden,
      no handlers, every plain label lower-case. */
  function Initial(): (r: State)
    ensures Consistent(r)
    ensures r.value == "" && !r.capsLock && r.hidden
    ensures r.onInput.None? && r.onClose.None?
  {
    State("", false, true, None, None, Rendered(false))
  }

  /** The invariant of the widget: the buttons are exactly those rendered for
      the current caps-lock state. */
  predicate Consistent(s: State)
  {
    s.keys == Rendered(s.capsLock)
  }

  function Slot(s: State, event: EventName): Option<HandlerId>
  {
    match event
    case OnInput => s.onInput
    case OnClose => s.onClose
  }

  /** `_triggerEvent`: the handler in the slot, if it is a function, is called
      once with the current text; otherwise nothing happens. */
  function Trigger(s: State, event: EventName): (es: seq<Dispatch>)
    ensures |es| <= 1
    ensures es == [] <==> Slot(s, event).None?
    ensures forall e :: e in es ==> e.event == event && Some(e.handler) == Slot(s, event) && e.value == s.value
  {
    match Slot(s, event)
    case None => []
    case Some(h) => [Dispatch(event, h, s.value)]
  }

  /** `initialValue || ""`: an absent initial text becomes the empty text. */
  function OrEmpty(initial: Option<string>): string
  {
    match initial
    case None => ""
    case Some(text) => text
  }

  /** `open`: seeds the text, installs both handlers and shows the widget. */
  function Open(s: State, initial: Option<string>, oninput: Option<HandlerId>, onclose: Option<HandlerId>): (r: State)
    ensures !r.hidden && r.capsLock == s.capsLock && r.keys == s.keys
    ensures Consistent(s) ==> Consistent(r)
  {
    s.(value := OrEmpty(initial), onInput := oninput, onClose := onclose, hidden := false)
  }

  /** `close`: empties the text, stores the ambient handlers in the slots and
      hides the widget. */
  function Close(s: State, amb: Ambient): (r: State)
    ensures r.value == "" && r.hidden && r.capsLock == s.capsLock && r.keys == s.keys
    ensures Consistent(s) ==> Consistent(r)
  {
    s.(value := "", onInput := amb.oninput, onClose := amb.onclose, hidden := true)
  }

  /** `_toggleCapsLock`: flips caps lock, then re-cases every text label. */
  function ToggleCapsLock(s: State): (r: State)
    ensures r.capsLock == !s.capsLock
    ensures r == s.(capsLock := r.capsLock, keys := r.keys)
    ensures Consistent(s) ==> Consistent(r)
  {
    var caps := !s.capsLock;
    RelabelRendered(s.capsLock, caps);
    s.(capsLock := caps, keys := RelabelAll(s.keys, caps))
  }

  /** JavaScript's `String.prototype.substring`: both bounds are clamped to
      the string, and swapped when the start is past the end. */
  function Substring(s: string, start: int, end: int): (r: string)
    ensures |r| <= |s|
    ensures 0 <= start <= end <= |s| ==> r == s[start..end]
    ensures 0 <= end <= start <= |s| ==> r == s[end..start]
    ensures start <= 0 && 0 <= end <= |s| ==> r == s[..end]
    ensures end <= 0 && 0 <= start <= |s| ==> r == s[..start]
    ensures (start <= 0 && end <= 0) || (start >= |s| && end >= |s|) ==> r == ""
  {
    var a := Clamp(start, |s|);
    var b := Clamp(end, |s|);
    if a <= b then s[a..b] else s[b..a]
  }

  function Clamp(i: int, len: nat): (r: nat)
    ensures r <= len
  {
    if i < 0 then 0 else if i > len then len else i
  }

  /** A text change followed by the `oninput` notification. */
  function Input(s: State): Outcome
  {
    Outcome(s, Trigger(s, OnInput))
  }

  /** One click on a key: the body of that key's click handler. */
  function Step(s: State, k: Key, amb: Ambient): (r: Outcome)
    ensures |r.events| <= 1
    ensures r.events != [] ==> r.events[0].value == r.after.value
    ensures k != Caps ==> r.after.capsLock == s.capsLock
    ensures k != Done ==> r.after.hidden == s.hidden && r.after.onInput == s.onInput && r.after.onClose == s.onClose
  {
    match k
    case Backspace => Input(s.(value := Substring(s.value, 0, |s.value| - 1)))
    case Caps => Outcome(ToggleCapsLock(s), [])
    case Enter => Input(s.(value := s.value + "\n"))
    case Space => Input(s.(value := s.value + " "))
    case Done =>
      var closed := Close(s, amb);
      Outcome(closed, Trigger(closed, OnClose))
    case Plain(name) => Input(s.(value := s.value + Cased(name, s.capsLock)))
  }

  /** A sequence of clicks, with all the handler invocations in order. */
  function Run(s: State, ks: seq<Key>, amb: Ambient): Outcome
    decreases |ks|
  {
    if ks == [] then Outcome(s, [])
    else
      var first := Step(s, ks[0], amb);
      var rest := Run(first.after, ks[1..], amb);
      Outcome(rest.after, first.events + rest.events)
  }
}
