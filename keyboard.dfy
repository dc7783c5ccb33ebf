/** The `Keyboard` object: its fields are updated in place by the key click
    handlers, `_toggleCapsLock`, `open` and `close`. Calls to host handlers
    are recorded in the ghost `log`. */
module Widget {
  import opened Wrappers
  import opened Layout
  import opened Machine

  /** The key factory's `forEach`: one button per name, in order, each plain
      label the lower-case form of its name. */
  method BuildButtons(names: seq<string>) returns (buttons: array<Button>)
    ensures fresh(buttons)
    ensures buttons[..] == RenderAll(names, false)
  {
    buttons := new Button[|names|];
    for i := 0 to |names|
      invariant forall j :: 0 <= j < i ==> buttons[j] == RenderKey(names[j], false)
    {
      buttons[i] := RenderKey(names[i], false);
    }
  }

  class Keyboard {
    /** `properties.value`: the text typed so far. */
    var value: string
    /** `properties.capsLock`. */
    var capsLock: bool
    /** Whether the main element carries the `keyboard--hidden` class. */
    var hidden: bool
    /** `eventHandlers.oninput` and `eventHandlers.onclose`; `None` when the
        slot holds anything that is not a function. */
    var onInput: Option<HandlerId>
    var onClose: Option<HandlerId>
    /** `elements.keys`: the rendered key buttons, in layout order. */
    const keys: array<Button>
    /** Every host handler invocation so far, in order. */
    ghost var log: seq<Dispatch>

    /** The object's state as a value of the specification. */
    ghost function Snapshot(): State
      reads this, keys
    {
      State(value, capsLock, hidden, onInput, onClose, keys[..])
    }

    /** The labels are in step with caps lock. */
    ghost predicate Valid()
      reads this, keys
    {
      Consistent(Snapshot())
    }

    /** `init`: builds one button per layout name, every plain label in lower
        case, and starts hidden with an empty text and no handlers. */
    constructor ()
      ensures Valid() && fresh(keys)
      ensures Snapshot() == Initial() && log == []
    {
      var buttons := BuildButtons(KeyLayout);
      value, capsLock, hidden := "", false, true;
      onInput, onClose := None, None;
      keys := buttons;
      log := [];
      new;
      assert Snapshot() == State("", false, true, None, None, Rendered(false));
    }

    /** `_triggerEvent`: calls the slot's handler with the current text if the
        slot holds a function. */
    method TriggerEvent(event: EventName)
      modifies this`log
      ensures log == old(log) + Trigger(Snapshot(), event)
    {
      var handler := if event == OnInput then onInput else onClose;
      if handler.Some? {
        log := log + [Dispatch(event, handler.value, value)];
      }
    }

    /** `_toggleCapsLock`: flips caps lock, then re-cases the label of every
        button that has no child element. */
    method ToggleCapsLock()
      requires Valid()
      modifies this`capsLock, keys
      ensures Valid()
      ensures Snapshot() == Machine.ToggleCapsLock(old(Snapshot()))
      ensures log == old(log)
    {
      ghost var before := Snapshot();
      capsLock := !capsLock;
      var i := 0;
      while i < keys.Length
        invariant 0 <= i <= keys.Length
        invariant capsLock == !before.capsLock
        invariant forall j :: 0 <= j < i ==> keys[j] == Relabel(old(keys[j]), capsLock)
        invariant forall j :: i <= j < keys.Length ==> keys[j] == old(keys[j])
      {
        if keys[i].TextButton? {
          keys[i] := TextButton(Cased(keys[i].text, capsLock));
        }
        i := i + 1;
      }
      assert keys[..] == RelabelAll(before.keys, capsLock);
      RelabelRendered(before.capsLock, capsLock);
    }

    /** `open(initialValue, oninput, onclose)`. */
    method Open(initial: Option<string>, oninput: Option<HandlerId>, onclose: Option<HandlerId>)
      requires Valid()
      modifies this
      ensures Valid()
      ensures Snapshot() == Machine.Open(old(Snapshot()), initial, oninput, onclose)
      ensures log == old(log)
    {
      value := if initial.Some? && initial.value != "" then initial.value else "";
      onInput := oninput;
      onClose := onclose;
      hidden := false;
    }

    /** `close()`: the slots receive whatever the page's global `oninput` and
        `onclose` hold, given here as `amb`. */
    method Close(amb: Ambient)
      requires Valid()
      modifies this
      ensures Valid()
      ensures Snapshot() == Machine.Close(old(Snapshot()), amb)
      ensures log == old(log)
    {
      value := "";
      onInput := amb.oninput;
      onClose := amb.onclose;
      hidden := true;
    }

    /** A click on key `k`: the click handler the key factory attached to it. */
    method Click(k: Key, amb: Ambient)
      requires Valid()
      modifies this, keys
      ensures Valid()
      ensures Snapshot() == Step(old(Snapshot()), k, amb).after
      ensures log == old(log) + Step(old(Snapshot()), k, amb).events
    {
      match k
      case Backspace =>
        value := Substring(value, 0, |value| - 1);
        TriggerEvent(OnInput);
      case Caps =>
        ToggleCapsLock();
      case Enter =>
        value := value + "\n";
        TriggerEvent(OnInput);
      case Space =>
        value := value + " ";
        TriggerEvent(OnInput);
      case Done =>
        Close(amb);
        TriggerEvent(OnClose);
      case Plain(name) =>
        value := value + Cased(name, capsLock);
        TriggerEvent(OnInput);
    }

    /** A click on the `i`-th button: the handler attached to it is the one
        for the `i`-th name of the layout. */
    method ClickAt(i: nat, amb: Ambient)
      requires Valid() && i < keys.Length
      modifies this, keys
      ensures Valid()
      ensures Snapshot() == Step(old(Snapshot()), Classify(KeyLayout[i]), amb).after
      ensures log == old(log) + Step(old(Snapshot()), Classify(KeyLayout[i]), amb).events
    {
      Click(Classify(KeyLayout[i]), amb);
    }
  }
}
