/** The fixed key layout of the keyboard, the `switch` that sorts its names
    into special keys and plain keys, and the buttons rendered for them. */
module Layout {
  import opened Ascii

  /** The 44 key names, in display order. */
  const KeyLayout: seq<string> := [
    "1", "2", "3", "4", "5", "6", "7", "8", "9", "0", "backspace",
    "q", "w", "e", "r", "t", "y", "u", "i", "o", "p",
    "caps", "a", "s", "d", "f", "g", "h", "j", "k", "l", "enter",
    "done", "z", "x", "c", "v", "b", "n", "m", ",", ".", "?",
    "space"
  ]

  /** A key as the click handlers see it: one of the five special keys, or a
      plain key that types its own name. */
  datatype Key = Backspace | Caps | Enter | Space | Done | Plain(name: string)

  const SpecialNames: set<string> := {"backspace", "caps", "enter", "space", "done"}

  /** The characters a plain key of the layout carries. */
  predicate IsLayoutChar(c: char)
  {
    ('0' <= c <= '9') || IsLowerLetter(c) || c == ',' || c == '.' || c == '?'
  }

  /** The `switch (key)` of the key factory: the five special names select their
      own case, every other name falls to the default case. */
  function Classify(name: string): (k: Key)
    ensures k.Plain? <==> name !in SpecialNames
    ensures k.Plain? ==> k.name == name
  {
    if name == "backspace" then Backspace
    else if name == "caps" then Caps
    else if name == "enter" then Enter
    else if name == "space" then Space
    else if name == "done" then Done
    else Plain(name)
  }

  /** The layout name a key is created from. */
  function Name(k: Key): string
  {
    match k
    case Backspace => "backspace"
    case Caps => "caps"
    case Enter => "enter"
    case Space => "space"
    case Done => "done"
    case Plain(name) => name
  }

  /** Classifying a name and naming the key gives the name back. */
  lemma NameOfClassify(name: string)
    ensures Name(Classify(name)) == name
  {
  }

  /** Naming a key and classifying the name gives the key back, unless the key
      is a plain key whose name is taken by a special key. */
  lemma ClassifyOfName(k: Key)
    ensures Classify(Name(k)) == k <==> !(k.Plain? && k.name in SpecialNames)
  {
  }

  /** The positions of the special keys in the layout. */
  predicate IsSpecialPosition(i: int)
  {
    i == 10 || i == 21 || i == 31 || i == 32 || i == 43
  }

  /** The names of the plain keys, each a one-character string. */
  const PlainNames: set<string> := {
    "1", "2", "3", "4", "5", "6", "7", "8", "9", "0",
    "q", "w", "e", "r", "t", "y", "u", "i", "o", "p",
    "a", "s", "d", "f", "g", "h", "j", "k", "l",
    "z", "x", "c", "v", "b", "n", "m", ",", ".", "?"
  }

  /** The special keys of the layout sit at the ends of the rows. */
  lemma LayoutSpecialKeys()
    ensures |KeyLayout| == 44
    ensures forall i :: 0 <= i < |KeyLayout| ==>
              (Classify(KeyLayout[i]).Plain? <==> !IsSpecialPosition(i))
    ensures Classify(KeyLayout[10]) == Backspace && Classify(KeyLayout[21]) == Caps
    ensures Classify(KeyLayout[31]) == Enter && Classify(KeyLayout[32]) == Done
    ensures Classify(KeyLayout[43]) == Space
  {
  }

  /** Every other key of the layout is a single layout character. */
  lemma LayoutPlainKeys()
    ensures forall i :: 0 <= i < |KeyLayout| && !IsSpecialPosition(i) ==>
              |KeyLayout[i]| == 1 && IsLayoutChar(KeyLayout[i][0])
  {
    forall i | 0 <= i < |KeyLayout| && !IsSpecialPosition(i)
      ensures |KeyLayout[i]| == 1 && IsLayoutChar(KeyLayout[i][0])
    {
      assert KeyLayout[i] in PlainNames;
    }
  }

  /** The shape of the layout: 44 keys; the five special keys sit at the ends
      of the rows; every other key is a single layout character. */
  lemma LayoutShape()
    ensures |KeyLayout| == 44
    ensures forall i :: 0 <= i < |KeyLayout| ==>
              (Classify(KeyLayout[i]).Plain? <==> !IsSpecialPosition(i))
    ensures forall i :: 0 <= i < |KeyLayout| && !IsSpecialPosition(i) ==>
              |KeyLayout[i]| == 1 && IsLayoutChar(KeyLayout[i][0])
    ensures Classify(KeyLayout[10]) == Backspace && Classify(KeyLayout[21]) == Caps
    ensures Classify(KeyLayout[31]) == Enter && Classify(KeyLayout[32]) == Done
    ensures Classify(KeyLayout[43]) == Space
  {
    LayoutSpecialKeys();
    LayoutPlainKeys();
  }

  /** The text a plain key types and shows, in the case caps lock selects:
      `capsLock ? s.toUpperCase() : s.toLowerCase()`. */
  function Cased(s: string, caps: bool): (r: string)
    ensures |r| == |s|
    ensures forall i :: 0 <= i < |s| ==> r[i] == (if caps then Upper(s[i]) else Lower(s[i]))
  {
    if caps then UpperStr(s) else LowerStr(s)
  }

  /** Re-casing a cased text only depends on the last case chosen. */
  lemma CasedTwice(s: string, c: bool, c': bool)
    ensures Cased(Cased(s, c), c') == Cased(s, c')
  {
    StrCaseLaws(s);
  }

  /** A rendered key button: an icon-bearing button (it has a child element)
      or a button whose only content is its text label. */
  datatype Button = IconButton(icon: string) | TextButton(text: string)

  /** The Material icon each special key shows. */
  function IconOf(k: Key): string
  {
    match k
    case Backspace => "backspace"
    case Caps => "keyboard_capslock"
    case Enter => "keyboard_return"
    case Space => "space_bar"
    case Done => "check_circle"
    case Plain(_) => ""
  }

  /** The button for a layout name when caps lock is `caps`: special keys carry
      their icon, plain keys a text label in the current case. */
  function RenderKey(name: string, caps: bool): (b: Button)
    ensures b.TextButton? <==> name !in SpecialNames
    ensures b.TextButton? ==> b.text == Cased(name, caps)
  {
    var k := Classify(name);
    if k.Plain? then TextButton(Cased(name, caps)) else IconButton(IconOf(k))
  }

  /** The buttons for a list of names, in order, when caps lock is `caps`. */
  function RenderAll(names: seq<string>, caps: bool): (bs: seq<Button>)
    ensures |bs| == |names|
    ensures forall i :: 0 <= i < |names| ==> bs[i] == RenderKey(names[i], caps)
  {
    seq(|names|, i requires 0 <= i < |names| => RenderKey(names[i], caps))
  }

  /** All buttons of the layout, in order, when caps lock is `caps`. */
  function Rendered(caps: bool): seq<Button>
  {
    RenderAll(KeyLayout, caps)
  }

  /** One step of the caps-lock loop: a button without child elements gets its
      current label re-cased, an icon button is skipped. */
  function Relabel(b: Button, caps: bool): Button
  {
    match b
    case TextButton(t) => TextButton(Cased(t, caps))
    case IconButton(_) => b
  }

  /** The whole caps-lock loop over a sequence of buttons. */
  function RelabelAll(bs: seq<Button>, caps: bool): (r: seq<Button>)
    ensures |r| == |bs|
    ensures forall i :: 0 <= i < |bs| ==> r[i] == Relabel(bs[i], caps)
  {
    seq(|bs|, i requires 0 <= i < |bs| => Relabel(bs[i], caps))
  }

  /** Re-casing the buttons rendered for one caps state gives exactly the
      buttons rendered for the new state. */
  lemma RelabelRenderAll(names: seq<string>, c: bool, c': bool)
    ensures RelabelAll(RenderAll(names, c), c') == RenderAll(names, c')
  {
    forall i | 0 <= i < |names|
      ensures RelabelAll(RenderAll(names, c), c')[i] == RenderAll(names, c')[i]
    {
      CasedTwice(names[i], c, c');
    }
  }

  /** On the layout: labels stay in step with caps lock. */
  lemma RelabelRendered(c: bool, c': bool)
    ensures RelabelAll(Rendered(c), c') == Rendered(c')
  {
    RelabelRenderAll(KeyLayout, c, c');
  }
}
