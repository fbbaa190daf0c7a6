/**
 * The windowing library's key and mouse-button identifiers, as the input
 * adapter receives them. The keys the adapter's translation table names
 * are grouped by kind: each group is a small enumeration, and the letter
 * keys, the two rows of digit keys and the function keys F1 to F12 are
 * each one constructor with an argument. `Unlisted` stands for every key
 * the table does not name (F13 and above among them).
 */
module OpenTK {
  type LetterChar = c: char | 'A' <= c <= 'Z' witness 'A'
  type Digit = d: int | 0 <= d <= 9
  type FunctionNumber = n: int | 1 <= n <= 12 witness 1
  type ButtonNumber = n: int | 1 <= n <= 9 witness 1

  datatype ModifierKey = ShiftLeft | ShiftRight | ControlLeft | ControlRight | AltLeft | AltRight
  datatype NavigationKey = Up | Down | Left | Right | PageUp | PageDown | Home | End
  datatype EditingKey = Enter | Escape | Space | Tab | BackSpace | Insert | Delete
  datatype LockKey = CapsLock | ScrollLock | PrintScreen | Pause | NumLock
  datatype KeypadOperator = KeypadDivide | KeypadMultiply | KeypadSubtract | KeypadAdd | KeypadDecimal | KeypadEnter
  datatype SymbolKey =
    | Tilde | Minus | Plus | BracketLeft | BracketRight | Semicolon | Quote | Comma | Period
    | Slash | BackSlash | NonUSBackSlash

  datatype Key =
    | Modifier(modifier: ModifierKey)
    | F(n: FunctionNumber)
    | Navigation(navigation: NavigationKey)
    | Editing(editing: EditingKey)
    | Lock(lock: LockKey)
    | Keypad(digit: Digit)
    | KeypadOp(op: KeypadOperator)
    | Letter(c: LetterChar)
    | Number(digit: Digit)
    | Symbol(symbol: SymbolKey)
    | Unlisted(code: int)

  /** Left, Middle, Right, Button1 to Button9, and the LastButton sentinel. */
  datatype MouseButton = LeftButton | MiddleButton | RightButton | Button(n: ButtonNumber) | LastButton
}

/**
 * The engine's own input vocabulary and the per-frame input event. The
 * modifier, navigation, function, letter and digit keys carry the same
 * names as the windowing library's; the other groups are the engine's own.
 */
module Input {
  import OpenTK

  datatype EditingKey = Enter | Escape | Space | Tab | Backspace | Insert | Delete
  datatype LockKey = CapsLock | ScrollLock | PrintScreen | Pause | Numlock
  datatype OperatorKey = Slash | Asterisk | Minus | Plus | Period
  datatype PunctuationKey = Backtick | BracketLeft | BracketRight | Semicolon | Apostrophe | Comma | Backslash
  datatype MouseInput = MouseLeft | MouseMiddle | MouseRight | MouseCustom(button: OpenTK.ButtonNumber)

  datatype InputKey =
    | Modifier(modifier: OpenTK.ModifierKey)
    | F(n: OpenTK.FunctionNumber)
    | Navigation(navigation: OpenTK.NavigationKey)
    | Editing(editing: EditingKey)
    | Lock(lock: LockKey)
    | Digit(digit: OpenTK.Digit)
    | Operator(op: OperatorKey)
    | Letter(c: OpenTK.LetterChar)
    | Punctuation(punctuation: PunctuationKey)
    | Mouse(mouse: MouseInput)
    | Unknown

  datatype Vec2I = Vec2I(x: int, y: int)

  /**
   * One frame's input: the keys held, the keys held at the previous poll,
   * the accumulated mouse movement and scroll, and the characters typed.
   */
  datatype InputEvent = InputEvent(
    inputDown: set<InputKey>,
    inputPrevDown: set<InputKey>,
    mouseDelta: Vec2I,
    scrollDelta: int,
    charactersTyped: seq<char>)

  /** `new InputEvent()`. */
  const NewInputEvent := InputEvent({}, {}, Vec2I(0, 0), 0, [])
}

/** The adapter from window-system input callbacks to the engine's input event. */
module InputAdapter {
  import opened Wrappers
  import opened Input
  import OpenTK

  /** `ToInputKey`: the translation table; every key it does not list becomes Unknown, and none a mouse key. */
  function ToInputKey(key: OpenTK.Key): (r: InputKey)
    ensures r == Unknown <==> key.Unlisted?
    ensures !IsMouseKey(r)
  {
    match key
    case Modifier(m) => Modifier(m)
    case F(n) => F(n)
    case Navigation(n) => Navigation(n)
    case Editing(e) => Editing(EditingInput(e))
    case Lock(l) => Lock(LockInput(l))
    case Keypad(d) => Digit(d)
    case KeypadOp(o) => KeypadInput(o)
    case Letter(c) => Letter(c)
    case Number(d) => Digit(d)
    case Symbol(s) => SymbolInput(s)
    case Unlisted(_) => Unknown
  }

  function EditingInput(e: OpenTK.EditingKey): EditingKey {
    match e
    case Enter => Enter
    case Escape => Escape
    case Space => Space
    case Tab => Tab
    case BackSpace => Backspace
    case Insert => Insert
    case Delete => Delete
  }

  function LockInput(l: OpenTK.LockKey): LockKey {
    match l
    case CapsLock => CapsLock
    case ScrollLock => ScrollLock
    case PrintScreen => PrintScreen
    case Pause => Pause
    case NumLock => Numlock
  }

  /** The keypad's operators give the engine's operator keys, and its Enter the Enter key. */
  function KeypadInput(o: OpenTK.KeypadOperator): InputKey {
    match o
    case KeypadDivide => Operator(Slash)
    case KeypadMultiply => Operator(Asterisk)
    case KeypadSubtract => Operator(Minus)
    case KeypadAdd => Operator(Plus)
    case KeypadDecimal => Operator(Period)
    case KeypadEnter => Editing(Enter)
  }

  function SymbolInput(s: OpenTK.SymbolKey): InputKey {
    match s
    case Tilde => Punctuation(Backtick)
    case Minus => Operator(Minus)
    case Plus => Operator(Plus)
    case BracketLeft => Punctuation(BracketLeft)
    case BracketRight => Punctuation(BracketRight)
    case Semicolon => Punctuation(Semicolon)
    case Quote => Punctuation(Apostrophe)
    case Comma => Punctuation(Comma)
    case Period => Operator(Period)
    case Slash => Operator(Slash)
    case BackSlash => Punctuation(Backslash)
    case NonUSBackSlash => Punctuation(Backslash)
  }

  /** The main-keyboard key among those the table sends to the same engine key. */
  function Canonical(key: OpenTK.Key): OpenTK.Key {
    match key
    case Keypad(d) => OpenTK.Number(d)
    case KeypadOp(o) => KeypadCounterpart(o)
    case Symbol(NonUSBackSlash) => OpenTK.Symbol(OpenTK.BackSlash)
    case _ => key
  }

  /** The main-keyboard key of each keypad operator; the keypad's `*` has none. */
  function KeypadCounterpart(o: OpenTK.KeypadOperator): OpenTK.Key {
    match o
    case KeypadDivide => OpenTK.Symbol(OpenTK.Slash)
    case KeypadMultiply => OpenTK.KeypadOp(OpenTK.KeypadMultiply)
    case KeypadSubtract => OpenTK.Symbol(OpenTK.Minus)
    case KeypadAdd => OpenTK.Symbol(OpenTK.Plus)
    case KeypadDecimal => OpenTK.Symbol(OpenTK.Period)
    case KeypadEnter => OpenTK.Editing(OpenTK.Enter)
  }

  /**
   * The inverse table: the main-keyboard key of each keyboard engine key,
   * defined exactly on the keyboard engine keys.
   */
  function FromInputKey(k: InputKey): (r: Option<OpenTK.Key>)
    ensures r.Some? <==> k != Unknown && !IsMouseKey(k)
    ensures r.Some? ==> !r.value.Unlisted? && Canonical(r.value) == r.value
  {
    match k
    case Modifier(m) => Some(OpenTK.Modifier(m))
    case F(n) => Some(OpenTK.F(n))
    case Navigation(n) => Some(OpenTK.Navigation(n))
    case Editing(e) => Some(OpenTK.Editing(EditingKeyOf(e)))
    case Lock(l) => Some(OpenTK.Lock(LockKeyOf(l)))
    case Digit(d) => Some(OpenTK.Number(d))
    case Operator(o) => Some(OperatorKeyOf(o))
    case Letter(c) => Some(OpenTK.Letter(c))
    case Punctuation(p) => Some(OpenTK.Symbol(PunctuationKeyOf(p)))
    case Mouse(_) => None
    case Unknown => None
  }

  function EditingKeyOf(e: EditingKey): OpenTK.EditingKey {
    match e
    case Enter => OpenTK.Enter
    case Escape => OpenTK.Escape
    case Space => OpenTK.Space
    case Tab => OpenTK.Tab
    case Backspace => OpenTK.BackSpace
    case Insert => OpenTK.Insert
    case Delete => OpenTK.Delete
  }

  function LockKeyOf(l: LockKey): OpenTK.LockKey {
    match l
    case CapsLock => OpenTK.CapsLock
    case ScrollLock => OpenTK.ScrollLock
    case PrintScreen => OpenTK.PrintScreen
    case Pause => OpenTK.Pause
    case Numlock => OpenTK.NumLock
  }

  /** The main-keyboard key of each operator; `*` exists only on the keypad. */
  function OperatorKeyOf(o: OperatorKey): OpenTK.Key {
    match o
    case Slash => OpenTK.Symbol(OpenTK.Slash)
    case Asterisk => OpenTK.KeypadOp(OpenTK.KeypadMultiply)
    case Minus => OpenTK.Symbol(OpenTK.Minus)
    case Plus => OpenTK.Symbol(OpenTK.Plus)
    case Period => OpenTK.Symbol(OpenTK.Period)
  }

  function PunctuationKeyOf(p: PunctuationKey): OpenTK.SymbolKey {
    match p
    case Backtick => OpenTK.Tilde
    case BracketLeft => OpenTK.BracketLeft
    case BracketRight => OpenTK.BracketRight
    case Semicolon => OpenTK.Semicolon
    case Apostrophe => OpenTK.Quote
    case Comma => OpenTK.Comma
    case Backslash => OpenTK.BackSlash
  }

  /** The engine keys that stand for mouse buttons. */
  predicate IsMouseKey(k: InputKey) {
    k.Mouse?
  }

  /** Each listed key translates to the engine key of its main-keyboard counterpart. */
  lemma ToInputKeyInverse(key: OpenTK.Key)
    ensures !key.Unlisted? ==> FromInputKey(ToInputKey(key)) == Some(Canonical(key))
    ensures ToInputKey(Canonical(key)) == ToInputKey(key)
  {
    match key
    case Editing(e) =>
      match e {
        case Enter => case Escape => case Space => case Tab => case BackSpace => case Insert => case Delete =>
      }
    case Lock(l) =>
      match l {
        case CapsLock => case ScrollLock => case PrintScreen => case Pause => case NumLock =>
      }
    case KeypadOp(o) =>
      match o {
        case KeypadDivide => case KeypadMultiply => case KeypadSubtract => case KeypadAdd =>
        case KeypadDecimal => case KeypadEnter =>
      }
    case Symbol(s) =>
      match s {
        case Tilde => case Minus => case Plus => case BracketLeft => case BracketRight => case Semicolon =>
        case Quote => case Comma => case Period => case Slash => case BackSlash => case NonUSBackSlash =>
      }
    case _ =>
  }

  /** Every keyboard engine key is produced by the table: the inverse table is a right inverse. */
  lemma FromInputKeyInverse(k: InputKey)
    requires FromInputKey(k).Some?
    ensures ToInputKey(FromInputKey(k).value) == k
  {
    match k
    case Editing(e) =>
      match e {
        case Enter => case Escape => case Space => case Tab => case Backspace => case Insert => case Delete =>
      }
    case Lock(l) =>
      match l {
        case CapsLock => case ScrollLock => case PrintScreen => case Pause => case Numlock =>
      }
    case Operator(o) =>
      match o {
        case Slash => case Asterisk => case Minus => case Plus => case Period =>
      }
    case Punctuation(p) =>
      match p {
        case Backtick => case BracketLeft => case BracketRight => case Semicolon => case Apostrophe =>
        case Comma => case Backslash =>
      }
    case _ =>
  }

  /**
   * Two listed keys give the same engine key exactly when they share a
   * main-keyboard counterpart: the table is one-to-one except for the
   * keypad aliases and the second backslash.
   */
  lemma SameInputKey(k1: OpenTK.Key, k2: OpenTK.Key)
    requires !k1.Unlisted? && !k2.Unlisted?
    ensures ToInputKey(k1) == ToInputKey(k2) <==> Canonical(k1) == Canonical(k2)
  {
    ToInputKeyInverse(k1);
    ToInputKeyInverse(k2);
  }

  /**
   * The table's aliases: a keypad digit and the number-row digit, the
   * keypad's Enter and Enter, the two backslash keys.
   */
  lemma Aliases(d: OpenTK.Digit)
    ensures ToInputKey(OpenTK.Keypad(d)) == ToInputKey(OpenTK.Number(d)) == Digit(d)
    ensures ToInputKey(OpenTK.KeypadOp(OpenTK.KeypadEnter)) == ToInputKey(OpenTK.Editing(OpenTK.Enter))
      == Editing(Enter)
    ensures ToInputKey(OpenTK.Symbol(OpenTK.NonUSBackSlash)) == ToInputKey(OpenTK.Symbol(OpenTK.BackSlash))
      == Punctuation(Backslash)
  {
  }

  /** The engine key of a mouse button; None for the buttons the handlers ignore. */
  function MouseKey(b: OpenTK.MouseButton): Option<InputKey> {
    match b
    case LeftButton => Some(Mouse(MouseLeft))
    case MiddleButton => Some(Mouse(MouseMiddle))
    case RightButton => Some(Mouse(MouseRight))
    case Button(n) => Some(Mouse(MouseCustom(n)))
    case LastButton => None
  }

  /** The button a mouse key stands for. */
  function MouseButtonOf(k: InputKey): Option<OpenTK.MouseButton> {
    match k
    case Mouse(MouseLeft) => Some(OpenTK.LeftButton)
    case Mouse(MouseMiddle) => Some(OpenTK.MiddleButton)
    case Mouse(MouseRight) => Some(OpenTK.RightButton)
    case Mouse(MouseCustom(n)) => Some(OpenTK.Button(n))
    case _ => None
  }

  /**
   * Left through Button9 have mouse keys that give the button back, none of
   * them a keyboard key or Unknown; any other button has none.
   */
  lemma MouseKeys(b: OpenTK.MouseButton)
    ensures MouseKey(b).None? <==> b == OpenTK.LastButton
    ensures MouseKey(b).Some? ==> IsMouseKey(MouseKey(b).value) && MouseButtonOf(MouseKey(b).value) == Some(b)
  {
  }

  /** Distinct buttons have distinct mouse keys. */
  lemma MouseKeysDistinct(b1: OpenTK.MouseButton, b2: OpenTK.MouseButton)
    requires MouseKey(b1).Some? && MouseKey(b1) == MouseKey(b2)
    ensures b1 == b2
  {
    MouseKeys(b1);
    MouseKeys(b2);
  }

  /** The held-key set after a key-down: the key added unless it is Unknown. */
  function Press(down: set<InputKey>, k: InputKey): set<InputKey> {
    if k == Unknown then down else down + {k}
  }

  /** The held-key set after a key-up: the key removed unless it is Unknown. */
  function Release(down: set<InputKey>, k: InputKey): set<InputKey> {
    if k == Unknown then down else down - {k}
  }

  /**
   * Unknown is never held; a key held by a key-down is gone after the
   * matching key-up; repeating a key-down changes nothing.
   */
  lemma PressRelease(down: set<InputKey>, k: InputKey)
    ensures Unknown !in down ==> Unknown !in Press(down, k) && Unknown !in Release(down, k)
    ensures k != Unknown ==> k in Press(down, k) && k !in Release(down, k)
    ensures Release(Press(down, k), k) == Release(down, k)
    ensures Press(Press(down, k), k) == Press(down, k)
    ensures Press(down, Unknown) == down && Release(down, Unknown) == down
  {
  }

  /** The pending event after a poll: a new event whose held and previously held keys are the keys held. */
  function AfterPoll(e: InputEvent): (r: InputEvent)
    ensures r.inputDown == r.inputPrevDown == e.inputDown
    ensures r.mouseDelta == Vec2I(0, 0) && r.scrollDelta == 0 && r.charactersTyped == []
  {
    NewInputEvent.(inputDown := e.inputDown, inputPrevDown := e.inputDown)
  }

  /** Polling again with no input in between returns the same held keys and no movement. */
  lemma PollTwice(e: InputEvent)
    ensures AfterPoll(AfterPoll(e)) == AfterPoll(e)
    ensures AfterPoll(e).inputPrevDown == e.inputDown
  {
  }

  class OpenTKInputAdapter {
    /** The event being accumulated until the next poll. */
    var inputEvent: InputEvent

    /** Unknown is never recorded as held. */
    ghost predicate Valid()
      reads this
    {
      Unknown !in inputEvent.inputDown && Unknown !in inputEvent.inputPrevDown
    }

    constructor()
      ensures inputEvent == NewInputEvent
      ensures Valid()
    {
      inputEvent := NewInputEvent;
    }

    /** `HandleMouseMovement`: the negated deltas are added to the movement. */
    method HandleMouseMovement(deltaX: int, deltaY: int)
      requires Valid()
      modifies this
      ensures Valid()
      ensures inputEvent == old(inputEvent).(mouseDelta :=
        Vec2I(old(inputEvent).mouseDelta.x - deltaX, old(inputEvent).mouseDelta.y - deltaY))
    {
      var delta := inputEvent.mouseDelta;
      inputEvent := inputEvent.(mouseDelta := Vec2I(delta.x + -deltaX, delta.y + -deltaY));
    }

    /** `HandleMouseWheelInput`: the wheel delta is added to the scroll. */
    method HandleMouseWheelInput(delta: int)
      requires Valid()
      modifies this
      ensures Valid()
      ensures inputEvent == old(inputEvent).(scrollDelta := old(inputEvent).scrollDelta + delta)
    {
      inputEvent := inputEvent.(scrollDelta := inputEvent.scrollDelta + delta);
    }

    /** `HandleKeyPress`: the typed character is appended. */
    method HandleKeyPress(keyChar: char)
      requires Valid()
      modifies this
      ensures Valid()
      ensures inputEvent == old(inputEvent).(charactersTyped := old(inputEvent).charactersTyped + [keyChar])
    {
      inputEvent := inputEvent.(charactersTyped := inputEvent.charactersTyped + [keyChar]);
    }

    /** `HandleKeyDown`: a translated key becomes held; Unknown keys change nothing. */
    method HandleKeyDown(key: OpenTK.Key)
      requires Valid()
      modifies this
      ensures Valid()
      ensures inputEvent == old(inputEvent).(inputDown := Press(old(inputEvent).inputDown, ToInputKey(key)))
    {
      var inputKey := ToInputKey(key);
      if inputKey != Unknown {
        inputEvent := inputEvent.(inputDown := inputEvent.inputDown + {inputKey});
      }
    }

    /** `HandleKeyUp`: a translated key stops being held; Unknown keys change nothing. */
    method HandleKeyUp(key: OpenTK.Key)
      requires Valid()
      modifies this
      ensures Valid()
      ensures inputEvent == old(inputEvent).(inputDown := Release(old(inputEvent).inputDown, ToInputKey(key)))
    {
      var inputKey := ToInputKey(key);
      if inputKey != Unknown {
        inputEvent := inputEvent.(inputDown := inputEvent.inputDown - {inputKey});
      }
    }

    /** `HandleMouseDown`: the button's mouse key becomes held; other buttons change nothing. */
    method HandleMouseDown(button: OpenTK.MouseButton)
      requires Valid()
      modifies this
      ensures Valid()
      ensures MouseKey(button).Some? ==>
        inputEvent == old(inputEvent).(inputDown := old(inputEvent).inputDown + {MouseKey(button).value})
      ensures MouseKey(button).None? ==> inputEvent == old(inputEvent)
    {
      var key := MouseKey(button);
      if key.Some? {
        inputEvent := inputEvent.(inputDown := inputEvent.inputDown + {key.value});
      }
    }

    /** `HandleMouseUp`: the button's mouse key stops being held; other buttons change nothing. */
    method HandleMouseUp(button: OpenTK.MouseButton)
      requires Valid()
      modifies this
      ensures Valid()
      ensures MouseKey(button).Some? ==>
        inputEvent == old(inputEvent).(inputDown := old(inputEvent).inputDown - {MouseKey(button).value})
      ensures MouseKey(button).None? ==> inputEvent == old(inputEvent)
    {
      var key := MouseKey(button);
      if key.Some? {
        inputEvent := inputEvent.(inputDown := inputEvent.inputDown - {key.value});
      }
    }

    /**
     * `PollInput`: hands back the accumulated event and starts a new one,
     * copying each held key into its held and previously held sets.
     */
    method PollInput() returns (eventToReturn: InputEvent)
      requires Valid()
      modifies this
      ensures Valid()
      ensures eventToReturn == old(inputEvent)
      ensures inputEvent == AfterPoll(eventToReturn)
    {
      eventToReturn := inputEvent;
      inputEvent := NewInputEvent;
      var remaining := eventToReturn.inputDown;
      while remaining != {}
        invariant remaining <= eventToReturn.inputDown
        invariant inputEvent == NewInputEvent.(inputDown := eventToReturn.inputDown - remaining,
                                               inputPrevDown := eventToReturn.inputDown - remaining)
        decreases |remaining|
      {
        var key :| key in remaining;
        inputEvent := inputEvent.(inputDown := inputEvent.inputDown + {key},
                                  inputPrevDown := inputEvent.inputPrevDown + {key});
        remaining := remaining - {key};
      }
    }
  }
}
