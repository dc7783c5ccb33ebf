/** What the keyboard promises, stated over the state machine of `Machine`. */
module Properties {
  import opened Wrappers
  import opened Ascii
  import opened Layout
  import opened Machine

  /** Dispatch is a no-op when the slot holds no function, and otherwise one
      invocation of that slot's handler with the current text. */
  lemma TriggerOnce(s: State, event: EventName)
    ensures var es := Trigger(s, event);
      && (es == [] <==> Slot(s, event).None?)
      && |es| <= 1
      && forall e :: e in es ==> e.event == event && Some(e.handler) == Slot(s, event) && e.value == s.value
  {
  }

  /** A plain key appends its name in the case caps lock selects, changes
      nothing else, and reports the new text to `oninput`. */
  lemma PlainKeyAppends(s: State, name: string, amb: Ambient)
    ensures var o := Step(s, Plain(name), amb);
      && |o.after.value| == |s.value| + |name|
      && o.after.value[..|s.value|] == s.value
      && (forall i :: 0 <= i < |name| ==>
            o.after.value[|s.value| + i] == if s.capsLock then Upper(name[i]) else Lower(name[i]))
      && o.after == s.(value := o.after.value)
      && o.events == Trigger(o.after, OnInput)
  {
  }

  /** A plain key of the layout appends exactly one character: the upper-case
      form of its name when caps lock is on, the lower-case form otherwise. */
  lemma LayoutKeyAppendsOneChar(s: State, i: int, amb: Ambient)
    requires 0 <= i < |KeyLayout| && !IsSpecialPosition(i)
    ensures |KeyLayout[i]| == 1
    ensures var o := Step(s, Classify(KeyLayout[i]), amb);
      var c := KeyLayout[i][0];
      && o.after.value == s.value + [if s.capsLock then Upper(c) else Lower(c)]
      && o.after == s.(value := o.after.value)
      && o.events == Trigger(o.after, OnInput)
  {
    LayoutShape();
  }

  /** Backspace drops the last character, leaves an empty text empty, changes
      nothing else, and reports the new text to `oninput`. */
  lemma BackspaceTruncates(s: State, amb: Ambient)
    ensures var o := Step(s, Backspace, amb);
      && (s.value != [] ==> o.after.value + [s.value[|s.value| - 1]] == s.value)
      && (s.value == [] ==> o.after.value == [])
      && o.after == s.(value := o.after.value)
      && o.events == Trigger(o.after, OnInput)
  {
  }

  /** `substring` does not depend on the order of its bounds. */
  lemma SubstringSymmetric(s: string, start: int, end: int)
    ensures Substring(s, start, end) == Substring(s, end, start)
  {
  }

  /** Backspace undoes the character typed by a plain key of the layout. */
  lemma BackspaceUndoesLayoutKey(s: State, i: int, amb: Ambient)
    requires 0 <= i < |KeyLayout| && !IsSpecialPosition(i)
    ensures Step(Step(s, Classify(KeyLayout[i]), amb).after, Backspace, amb).after == s
  {
    LayoutKeyAppendsOneChar(s, i, amb);
    var typed := Step(s, Classify(KeyLayout[i]), amb).after;
    assert typed.value[..|typed.value| - 1] == s.value;
  }

  /** Enter appends exactly a newline and reports the new text to `oninput`;
      caps lock, visibility and the handlers are untouched. */
  lemma EnterAppendsNewline(s: State, amb: Ambient)
    ensures var o := Step(s, Enter, amb);
      && o.after.value == s.value + "\n"
      && o.after == s.(value := o.after.value)
      && o.events == Trigger(o.after, OnInput)
  {
  }

  /** Space appends exactly a blank and reports the new text to `oninput`;
      caps lock, visibility and the handlers are untouched. */
  lemma SpaceAppendsBlank(s: State, amb: Ambient)
    ensures var o := Step(s, Space, amb);
      && o.after.value == s.value + " "
      && o.after == s.(value := o.after.value)
      && o.events == Trigger(o.after, OnInput)
  {
  }

  /** Every label of a consistent state follows caps lock: a plain key shows
      the upper- or lower-case form of its character, a special key its icon. */
  lemma LabelsFollowCaps(s: State)
    requires Consistent(s)
    ensures |s.keys| == |KeyLayout|
    ensures forall i :: 0 <= i < |KeyLayout| && !IsSpecialPosition(i) ==>
      s.keys[i] == TextButton([if s.capsLock then Upper(KeyLayout[i][0]) else Lower(KeyLayout[i][0])])
    ensures forall i :: 0 <= i < |KeyLayout| && IsSpecialPosition(i) ==>
      s.keys[i] == IconButton(IconOf(Classify(KeyLayout[i])))
  {
    LayoutShape();
  }

  /** Caps flips caps lock, keeps the text, dispatches nothing, and re-cases
      the labels so that they follow the new caps-lock state. */
  lemma CapsToggles(s: State, amb: Ambient)
    requires Consistent(s)
    ensures var o := Step(s, Caps, amb);
      && o.after.capsLock == !s.capsLock
      && o.after == s.(capsLock := o.after.capsLock, keys := o.after.keys)
      && o.events == []
      && Consistent(o.after)
  {
    RelabelRendered(s.capsLock, !s.capsLock);
  }

  /** Toggling caps lock twice restores the whole state, labels included. */
  lemma CapsTwiceRestores(s: State, amb: Ambient)
    requires Consistent(s)
    ensures Run(s, [Caps, Caps], amb) == Outcome(s, [])
  {
    CapsToggles(s, amb);
    var once := Step(s, Caps, amb).after;
    CapsToggles(once, amb);
    assert [Caps, Caps][1..] == [Caps];
  }

  /** `open` seeds the text (empty when no text, or an empty one, is given),
      installs both handlers and shows the widget; caps lock and the labels
      are untouched. */
  lemma OpenSetsState(s: State, initial: Option<string>, oninput: Option<HandlerId>, onclose: Option<HandlerId>)
    ensures var t := Open(s, initial, oninput, onclose);
      && (t.value == "" <==> initial.None? || initial.value == "")
      && (initial.Some? ==> t.value == initial.value)
      && t.onInput == oninput && t.onClose == onclose && !t.hidden
      && t.capsLock == s.capsLock && t.keys == s.keys
      && (Consistent(s) ==> Consistent(t))
  {
  }

  /** `close` empties the text and hides the widget, leaves caps lock and the
      labels alone, and a second `close` changes nothing. */
  lemma CloseResets(s: State, amb: Ambient)
    ensures var t := Close(s, amb);
      && t.value == "" && t.hidden
      && t.onInput == amb.oninput && t.onClose == amb.onclose
      && t.capsLock == s.capsLock && t.keys == s.keys
      && Close(t, amb) == t
      && (Consistent(s) ==> Consistent(t))
  {
  }

  /** `close` undoes everything `open` does, and `open` after `close` is the
      same as `open` alone. */
  lemma OpenCloseCancel(s: State, initial: Option<string>, oninput: Option<HandlerId>, onclose: Option<HandlerId>, amb: Ambient)
    ensures Close(Open(s, initial, oninput, onclose), amb) == Close(s, amb)
    ensures Open(Close(s, amb), initial, oninput, onclose) == Open(s, initial, oninput, onclose)
  {
  }

  /** Done closes first and notifies second: the `onclose` dispatch sees the
      emptied text and the ambient handler that `close` stored, never the text
      typed so far nor the handler `open` installed. */
  lemma DoneClosesThenNotifies(s: State, amb: Ambient)
    ensures var o := Step(s, Done, amb);
      && o.after == Close(s, amb)
      && (amb.onclose.None? ==> o.events == [])
      && (amb.onclose.Some? ==> o.events == [Dispatch(OnClose, amb.onclose.value, "")])
      && forall e :: e in o.events ==> e.value == "" && Some(e.handler) == amb.onclose
  {
  }

  /** After `open`, a plain key immediately calls the installed `oninput`
      handler with the seeded text followed by the typed character(s). */
  lemma OpenThenPlainKey(s: State, initial: string, name: string, oninput: HandlerId, onclose: Option<HandlerId>, amb: Ambient)
    ensures Step(Open(s, Some(initial), Some(oninput), onclose), Plain(name), amb).events
         == [Dispatch(OnInput, oninput, initial + Cased(name, s.capsLock))]
  {
  }

  /** Every click keeps the labels in step with caps lock. */
  lemma StepPreservesConsistency(s: State, k: Key, amb: Ambient)
    requires Consistent(s)
    ensures Consistent(Step(s, k, amb).after)
  {
    if k == Caps {
      CapsToggles(s, amb);
    }
  }

  /** Any sequence of clicks keeps the labels in step with caps lock. */
  lemma {:induction false} RunPreservesConsistency(s: State, ks: seq<Key>, amb: Ambient)
    requires Consistent(s)
    ensures Consistent(Run(s, ks, amb).after)
    decreases |ks|
  {
    if ks != [] {
      StepPreservesConsistency(s, ks[0], amb);
      RunPreservesConsistency(Step(s, ks[0], amb).after, ks[1..], amb);
    }
  }

  /** Keys that only add text or toggle caps lock (all keys but backspace and done). */
  predicate Appends(k: Key)
  {
    !k.Backspace? && !k.Done?
  }

  /** The text one appending key adds under the given caps-lock state. */
  function Typed(k: Key, caps: bool): string
  {
    match k
    case Plain(name) => Cased(name, caps)
    case Enter => "\n"
    case Space => " "
    case _ => ""
  }

  /** The caps-lock state after a sequence of keys. */
  function CapsAfter(caps: bool, ks: seq<Key>): bool
    decreases |ks|
  {
    if ks == [] then caps else CapsAfter(if ks[0] == Caps then !caps else caps, ks[1..])
  }

  /** The concatenation, in press order, of what each key adds, each case-mapped
      by the caps-lock state in force when it is pressed. */
  function Transcript(caps: bool, ks: seq<Key>): string
    decreases |ks|
  {
    if ks == [] then ""
    else Typed(ks[0], caps) + Transcript(if ks[0] == Caps then !caps else caps, ks[1..])
  }

  /** One appending key adds its typed text, flips caps lock only if it is the
      caps key, leaves visibility and handlers alone, and only calls `oninput`. */
  lemma StepAppends(s: State, k: Key, amb: Ambient)
    requires Appends(k)
    ensures var o := Step(s, k, amb);
      && o.after.value == s.value + Typed(k, s.capsLock)
      && o.after.capsLock == (if k == Caps then !s.capsLock else s.capsLock)
      && o.after.hidden == s.hidden
      && o.after.onInput == s.onInput && o.after.onClose == s.onClose
      && forall e :: e in o.events ==> e.event == OnInput && Some(e.handler) == s.onInput
  {
  }

  /** Appending keys only ever call `oninput`, and only the handler in place
      when they start. */
  lemma {:induction false} RunDispatchesOnlyInput(s: State, ks: seq<Key>, amb: Ambient)
    requires forall i :: 0 <= i < |ks| ==> Appends(ks[i])
    ensures forall e :: e in Run(s, ks, amb).events ==> e.event == OnInput && Some(e.handler) == s.onInput
    decreases |ks|
  {
    if ks != [] {
      StepAppends(s, ks[0], amb);
      RunDispatchesOnlyInput(Step(s, ks[0], amb).after, ks[1..], amb);
    }
  }

  /** Appending keys never touch visibility or the handler slots. */
  lemma {:induction false} RunKeepsVisibilityAndHandlers(s: State, ks: seq<Key>, amb: Ambient)
    requires forall i :: 0 <= i < |ks| ==> Appends(ks[i])
    ensures var o := Run(s, ks, amb);
      o.after.hidden == s.hidden && o.after.onInput == s.onInput && o.after.onClose == s.onClose
    decreases |ks|
  {
    if ks != [] {
      RunKeepsVisibilityAndHandlers(Step(s, ks[0], amb).after, ks[1..], amb);
    }
  }

  /** Appending keys leave caps lock as the caps presses among them say. */
  lemma {:induction false} RunCapsAfter(s: State, ks: seq<Key>, amb: Ambient)
    requires forall i :: 0 <= i < |ks| ==> Appends(ks[i])
    ensures Run(s, ks, amb).after.capsLock == CapsAfter(s.capsLock, ks)
    decreases |ks|
  {
    if ks != [] {
      RunCapsAfter(Step(s, ks[0], amb).after, ks[1..], amb);
    }
  }

  /** Appending keys add exactly their transcript to the text. */
  lemma {:induction false} RunAppendsTranscript(s: State, ks: seq<Key>, amb: Ambient)
    requires forall i :: 0 <= i < |ks| ==> Appends(ks[i])
    ensures Run(s, ks, amb).after.value == s.value + Transcript(s.capsLock, ks)
    decreases |ks|
  {
    if ks != [] {
      var k, rest := ks[0], ks[1..];
      var next := Step(s, k, amb).after;
      assert next.value == s.value + Typed(k, s.capsLock) by {
        StepAppends(s, k, amb);
      }
      RunAppendsTranscript(next, rest, amb);
      assert next.value + Transcript(next.capsLock, rest)
          == s.value + (Typed(k, s.capsLock) + Transcript(next.capsLock, rest));
    }
  }

  /** Pressing appending keys extends the text by exactly their transcript,
      leaves visibility and handlers alone, and only ever calls `oninput`. */
  lemma RunTranscript(s: State, ks: seq<Key>, amb: Ambient)
    requires forall i :: 0 <= i < |ks| ==> Appends(ks[i])
    ensures var o := Run(s, ks, amb);
      && o.after.value == s.value + Transcript(s.capsLock, ks)
      && o.after.capsLock == CapsAfter(s.capsLock, ks)
      && o.after.hidden == s.hidden
      && o.after.onInput == s.onInput && o.after.onClose == s.onClose
      && forall e :: e in o.events ==> e.event == OnInput && Some(e.handler) == s.onInput
  {
    RunAppendsTranscript(s, ks, amb);
    RunCapsAfter(s, ks, amb);
    RunKeepsVisibilityAndHandlers(s, ks, amb);
    RunDispatchesOnlyInput(s, ks, amb);
  }

  /** Typing h, i, enter, 1 with caps lock off on an empty text gives "hi\n1". */
  lemma ScenarioHiEnterOne(s: State, ks: seq<Key>, amb: Ambient)
    requires s.value == "" && !s.capsLock
    requires ks == [Plain("h"), Plain("i"), Enter, Plain("1")]
    ensures Run(s, ks, amb).after.value == "hi\n1"
  {
    RunAppendsTranscript(s, ks, amb);
    assert Cased("h", false) == "h" by { assert LowerStr("h") == [Lower('h')] + LowerStr([]); }
    assert Cased("i", false) == "i" by { assert LowerStr("i") == [Lower('i')] + LowerStr([]); }
    assert Cased("1", false) == "1" by { assert LowerStr("1") == [Lower('1')] + LowerStr([]); }
    assert Transcript(false, ks[3..]) == "1";
    assert Transcript(false, ks[2..]) == "\n1";
    assert Transcript(false, ks[1..]) == "i\n1";
  }

  /** Turning caps lock on and typing a, b on an empty text gives "AB". */
  lemma ScenarioCapsAB(s: State, amb: Ambient)
    requires s.value == "" && !s.capsLock
    ensures Run(s, [Caps, Plain("a"), Plain("b")], amb).after.value == "AB"
  {
    var ks := [Caps, Plain("a"), Plain("b")];
    RunAppendsTranscript(s, ks, amb);
    assert Transcript(true, ks[2..]) == "B";
    assert Transcript(true, ks[1..]) == "AB";
  }
}
