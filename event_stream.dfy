/** Input decoding and the event source's state
    (Sources/SwiftCursesKit/Runtime/EventStream.swift): characters, curses
    key codes and mouse reports become typed events, and the event source
    keeps its stopped flag, its tasks, its tick counter and its stream. The
    polling task, sleeping and the asynchronous stream itself are not
    modelled; what the curses read returns is a parameter. */
module EventStream {
  import opened Wrappers

  type UInt32 = x: nat | x < 0x1_0000_0000

  const UInt64Modulus: nat := 0x1_0000_0000_0000_0000

  // ---------------------------------------------------------------- events

  datatype Direction = Up | Down | Left | Right

  datatype Key =
    | Character(c: char)
    | Control(value: nat)
    | Tab
    | Enter
    | Escape
    | Backspace
    | Arrow(direction: Direction)
    | Home
    | End
    | PageUp
    | PageDown
    | Insert
    | Delete
    | Function(index: nat)
    | Unknown(code: UInt32)

  datatype KeyModifier = Shift | ControlKey | Alt

  datatype KeyEvent = KeyEvent(key: Key, modifiers: set<KeyModifier>)

  datatype Button = LeftButton | MiddleButton | RightButton

  datatype MouseAction =
    | Pressed(button: Button)
    | Released(button: Button)
    | Clicked(button: Button, count: nat)
    | Scrolled(vertical: int, horizontal: int)
    | Dragged(button: Button)
    | Moved
    | UnknownAction(rawState: bv64)

  datatype MouseModifier = MouseShift | MouseControl | MouseAlt

  datatype MouseEvent = MouseEvent(row: int, column: int, action: MouseAction, modifiers: set<MouseModifier>, rawState: bv64)

  datatype TerminalEvent = Resized(rows: int, columns: int)

  datatype Event = KeyInput(keyEvent: KeyEvent) | Mouse(mouseEvent: MouseEvent) | Terminal(terminalEvent: TerminalEvent) | Tick(sequence: nat)

  // ---------------------------------------------------------------- characters

  /** Whether a 32-bit value is a Unicode scalar (`UnicodeScalar(_:)` is not
      nil): not a surrogate and at most U+10FFFF. */
  predicate IsScalar(value: UInt32)
  {
    value < 0xD800 || (0xDFFF < value <= 0x10FFFF)
  }

  /** `KeyEvent(unicodeScalarValue:)`: tab, line feed and carriage return,
      escape and delete get their own keys, the other C0 controls become
      `control`, anything else is a character; a value that is not a scalar
      gives no event. */
  function DecodeCharacter(value: UInt32): (r: Option<KeyEvent>)
    ensures r.None? <==> !IsScalar(value)
    ensures r.Some? ==> r.value.modifiers == {}
  {
    if !IsScalar(value) then None
    else if value == 0x09 then Some(KeyEvent(Tab, {}))
    else if value == 0x0A || value == 0x0D then Some(KeyEvent(Enter, {}))
    else if value == 0x1B then Some(KeyEvent(Escape, {}))
    else if value == 0x7F then Some(KeyEvent(Backspace, {}))
    else if value <= 0x1F then Some(KeyEvent(Control(value), {}))
    else Some(KeyEvent(Character(value as char), {}))
  }

  /** Decoding a character: the control codes land in their named keys or in
      `control` with their own value, everything else that is a scalar comes
      back as that very character. */
  lemma DecodeCharacterCases(value: UInt32)
    requires IsScalar(value)
    ensures var k := DecodeCharacter(value).value.key;
      (value == 0x09 <==> k == Tab) &&
      (value == 0x0A || value == 0x0D <==> k == Enter) &&
      (value == 0x1B <==> k == Escape) &&
      (value == 0x7F <==> k == Backspace) &&
      (k.Control? <==> value <= 0x1F && value !in {0x09, 0x0A, 0x0D, 0x1B}) &&
      (k.Control? ==> k.value == value) &&
      (k.Character? <==> 0x20 <= value && value != 0x7F) &&
      (k.Character? ==> k.c as int == value)
  {
  }

  // ---------------------------------------------------------------- key codes

  /** The curses key codes, with the values curses.h gives them. */
  const KeyCodeYes: UInt32 := 256
  const KeyDown: UInt32 := 258
  const KeyUp: UInt32 := 259
  const KeyLeft: UInt32 := 260
  const KeyRight: UInt32 := 261
  const KeyHome: UInt32 := 262
  const KeyBackspace: UInt32 := 263
  const KeyF0: UInt32 := 264
  const KeyDc: UInt32 := 330
  const KeyIc: UInt32 := 331
  const KeyNPage: UInt32 := 338
  const KeyPPage: UInt32 := 339
  const KeyEnter: UInt32 := 343
  const KeyBTab: UInt32 := 353
  const KeyEnd: UInt32 := 360
  const KeyMouse: UInt32 := 409
  const KeyResize: UInt32 := 410

  /** `KEY_F(n)`. */
  function FunctionKeyCode(n: nat): UInt32
    requires n <= 64
  {
    KeyF0 + n
  }

  /** `codeIsFunctionKey`: F1 to F64 inclusive. */
  predicate IsFunctionKeyCode(code: UInt32)
  {
    FunctionKeyCode(1) <= code <= FunctionKeyCode(64)
  }

  /** `KeyEvent(keyCode:)`: function keys first, then the table of named
      keys, back-tab as shift-tab, and anything else as an unknown code. */
  function DecodeKeyCode(code: UInt32): (r: KeyEvent)
    ensures IsFunctionKeyCode(code) ==> r == KeyEvent(Function(code - KeyF0), {})
    ensures r.modifiers == (if code == KeyBTab then {Shift} else {})
  {
    if IsFunctionKeyCode(code) then
      var base := code - KeyF0;
      KeyEvent(Function(if base > 0 then base else 0), {})
    else if code == KeyEnter then KeyEvent(Enter, {})
    else if code == KeyBackspace then KeyEvent(Backspace, {})
    else if code == KeyUp then KeyEvent(Arrow(Up), {})
    else if code == KeyDown then KeyEvent(Arrow(Down), {})
    else if code == KeyLeft then KeyEvent(Arrow(Left), {})
    else if code == KeyRight then KeyEvent(Arrow(Right), {})
    else if code == KeyHome then KeyEvent(Home, {})
    else if code == KeyEnd then KeyEvent(End, {})
    else if code == KeyPPage then KeyEvent(PageUp, {})
    else if code == KeyNPage then KeyEvent(PageDown, {})
    else if code == KeyIc then KeyEvent(Insert, {})
    else if code == KeyDc then KeyEvent(Delete, {})
    else if code == KeyBTab then KeyEvent(Tab, {Shift})
    else KeyEvent(Unknown(code), {})
  }

  /** Every named key code decodes to its own key: none of them falls in
      the function-key range that is checked first, and none shadows
      another. */
  lemma NamedKeysDecode()
    ensures DecodeKeyCode(KeyEnter).key == Enter && DecodeKeyCode(KeyBackspace).key == Backspace
    ensures DecodeKeyCode(KeyUp).key == Arrow(Up) && DecodeKeyCode(KeyDown).key == Arrow(Down)
    ensures DecodeKeyCode(KeyLeft).key == Arrow(Left) && DecodeKeyCode(KeyRight).key == Arrow(Right)
    ensures DecodeKeyCode(KeyHome).key == Home && DecodeKeyCode(KeyEnd).key == End
    ensures DecodeKeyCode(KeyPPage).key == PageUp && DecodeKeyCode(KeyNPage).key == PageDown
    ensures DecodeKeyCode(KeyIc).key == Insert && DecodeKeyCode(KeyDc).key == Delete
    ensures DecodeKeyCode(KeyBTab) == KeyEvent(Tab, {Shift})
  {
  }

  /** Function keys decode to their number, 1 to 64, and back: the key code
      of the decoded function key is the code itself. */
  lemma FunctionKeysRoundTrip(n: nat)
    requires 1 <= n <= 64
    ensures DecodeKeyCode(FunctionKeyCode(n)) == KeyEvent(Function(n), {})
  {
  }

  /** A code that is neither a function key nor in the table comes back as
      an unknown key carrying the code. */
  lemma UnmappedCodesAreUnknown(code: UInt32)
    requires !IsFunctionKeyCode(code)
    requires code !in {KeyEnter, KeyBackspace, KeyUp, KeyDown, KeyLeft, KeyRight, KeyHome, KeyEnd,
                       KeyPPage, KeyNPage, KeyIc, KeyDc, KeyBTab}
    ensures DecodeKeyCode(code) == KeyEvent(Unknown(code), {})
  {
  }

  // ---------------------------------------------------------------- mouse

  /** The curses mouse masks the decoder reads. Buttons six and seven are
      zero where curses has no such buttons. */
  datatype MouseMasks = MouseMasks(
    reportPosition: bv64, buttonShift: bv64, buttonControl: bv64, buttonAlt: bv64,
    pressed1: bv64, released1: bv64, clicked1: bv64, double1: bv64, triple1: bv64,
    pressed2: bv64, released2: bv64, clicked2: bv64, double2: bv64, triple2: bv64,
    pressed3: bv64, released3: bv64, clicked3: bv64, double3: bv64, triple3: bv64,
    pressed4: bv64, pressed5: bv64, pressed6: bv64, pressed7: bv64)

  /** `NCURSES_MOUSE_MASK(b, m)` of the version-2 mouse layout: five bits
      per button. */
  function ButtonMask(b: nat, m: bv64): bv64
    requires 1 <= b <= 6
  {
    m << ((b - 1) * 5)
  }

  /** The masks of the version-2 curses mouse layout. */
  const CursesMasks: MouseMasks := MouseMasks(
    ButtonMask(6, 8), ButtonMask(6, 2), ButtonMask(6, 1), ButtonMask(6, 4),
    ButtonMask(1, 2), ButtonMask(1, 1), ButtonMask(1, 4), ButtonMask(1, 8), ButtonMask(1, 16),
    ButtonMask(2, 2), ButtonMask(2, 1), ButtonMask(2, 4), ButtonMask(2, 8), ButtonMask(2, 16),
    ButtonMask(3, 2), ButtonMask(3, 1), ButtonMask(3, 4), ButtonMask(3, 8), ButtonMask(3, 16),
    ButtonMask(4, 2), ButtonMask(5, 2), 0, 0)

  /** Whether any bit of `mask` is set in `state` (`state & mask != 0`). */
  predicate Tests(state: bv64, mask: bv64)
  {
    state & mask != 0
  }

  /** Which of one button's bits are set. */
  datatype ButtonFlags = ButtonFlags(pressed: bool, released: bool, clicked: bool, doubleClicked: bool, tripleClicked: bool)
  {
    predicate Any()
    {
      pressed || released || clicked || doubleClicked || tripleClicked
    }
  }

  /** Which of the bits the action decoder looks at are set; the wheel bits
      of buttons six and seven count only where the terminal has them. */
  datatype MouseFlags = MouseFlags(left: ButtonFlags, middle: ButtonFlags, right: ButtonFlags,
                                   wheelUp: bool, wheelDown: bool, wheelRight: bool, wheelLeft: bool,
                                   reportPosition: bool)
  {
    predicate AnyButton()
    {
      left.Any() || middle.Any() || right.Any()
    }

    predicate AnyWheel()
    {
      wheelUp || wheelDown || wheelRight || wheelLeft
    }
  }

  /** Reads the flags out of a raw state. */
  function FlagsOf(state: bv64, m: MouseMasks): (r: MouseFlags)
    ensures r.left.pressed == Tests(state, m.pressed1) && r.reportPosition == Tests(state, m.reportPosition)
    ensures r.wheelUp == Tests(state, m.pressed4) && r.wheelDown == Tests(state, m.pressed5)
    ensures r.wheelRight == (m.pressed6 != 0 && Tests(state, m.pressed6))
    ensures r.wheelLeft == (m.pressed7 != 0 && Tests(state, m.pressed7))
  {
    MouseFlags(
      ButtonFlags(Tests(state, m.pressed1), Tests(state, m.released1), Tests(state, m.clicked1),
                  Tests(state, m.double1), Tests(state, m.triple1)),
      ButtonFlags(Tests(state, m.pressed2), Tests(state, m.released2), Tests(state, m.clicked2),
                  Tests(state, m.double2), Tests(state, m.triple2)),
      ButtonFlags(Tests(state, m.pressed3), Tests(state, m.released3), Tests(state, m.clicked3),
                  Tests(state, m.double3), Tests(state, m.triple3)),
      Tests(state, m.pressed4), Tests(state, m.pressed5),
      m.pressed6 != 0 && Tests(state, m.pressed6), m.pressed7 != 0 && Tests(state, m.pressed7),
      Tests(state, m.reportPosition))
  }

  /** The action of one button: pressed, then released, then triple, double
      and single clicks. */
  function ButtonAction(f: ButtonFlags, button: Button): (r: Option<MouseAction>)
    ensures r.None? <==> !f.Any()
    ensures r.Some? ==> (r.value.Pressed? || r.value.Released? || r.value.Clicked?) && r.value.button == button
    ensures r.Some? && r.value.Clicked? ==> 1 <= r.value.count <= 3
  {
    if f.pressed then Some(Pressed(button))
    else if f.released then Some(Released(button))
    else if f.tripleClicked then Some(Clicked(button, 3))
    else if f.doubleClicked then Some(Clicked(button, 2))
    else if f.clicked then Some(Clicked(button, 1))
    else None
  }

  /** The decision of `MouseEvent.action(for:)` on the flags: buttons one,
      two and three in turn, then the scroll wheel (four up, five down, six
      and seven sideways), then a position report as a drag of the first
      pressed button or a bare move, and otherwise the raw state. */
  function ActionFromFlags(f: MouseFlags, state: bv64): MouseAction
  {
    var left := ButtonAction(f.left, LeftButton);
    var middle := ButtonAction(f.middle, MiddleButton);
    var right := ButtonAction(f.right, RightButton);
    if left.Some? then left.value
    else if middle.Some? then middle.value
    else if right.Some? then right.value
    else if f.wheelUp then Scrolled(1, 0)
    else if f.wheelDown then Scrolled(-1, 0)
    else if f.wheelRight then Scrolled(0, 1)
    else if f.wheelLeft then Scrolled(0, -1)
    else if f.reportPosition then
      if f.left.pressed then Dragged(LeftButton)
      else if f.middle.pressed then Dragged(MiddleButton)
      else if f.right.pressed then Dragged(RightButton)
      else Moved
    else UnknownAction(state)
  }

  /** `MouseEvent.action(for:)`. */
  function DecodeMouseAction(state: bv64, m: MouseMasks): MouseAction
  {
    ActionFromFlags(FlagsOf(state, m), state)
  }

  /** The priority of the decoder: the first button with a bit set decides
      the action, and only then the wheel, from button four to seven. */
  lemma MouseActionPriority(f: MouseFlags, state: bv64)
    ensures f.left.Any() ==> ActionFromFlags(f, state) == ButtonAction(f.left, LeftButton).value
    ensures (!f.left.Any() && f.middle.Any()) ==>
      ActionFromFlags(f, state) == ButtonAction(f.middle, MiddleButton).value
    ensures (!f.left.Any() && !f.middle.Any() && f.right.Any()) ==>
      ActionFromFlags(f, state) == ButtonAction(f.right, RightButton).value
    ensures (!f.AnyButton() && f.wheelUp) ==> ActionFromFlags(f, state) == Scrolled(1, 0)
    ensures (!f.AnyButton() && !f.wheelUp && f.wheelDown) ==> ActionFromFlags(f, state) == Scrolled(-1, 0)
    ensures ActionFromFlags(f, state).Scrolled? <==> !f.AnyButton() && f.AnyWheel()
  {
  }

  /** Within one button, a press wins over a release, a release over any
      click, and more clicks over fewer. */
  lemma ButtonActionPriority(f: ButtonFlags, b: Button)
    ensures f.pressed ==> ButtonAction(f, b) == Some(Pressed(b))
    ensures !f.pressed && f.released ==> ButtonAction(f, b) == Some(Released(b))
    ensures !f.pressed && !f.released && f.tripleClicked ==> ButtonAction(f, b) == Some(Clicked(b, 3))
    ensures !f.pressed && !f.released && !f.tripleClicked && f.doubleClicked ==> ButtonAction(f, b) == Some(Clicked(b, 2))
  {
  }

  /** The drag branch can never be reached: a position report with a button
      pressed is decoded as that button's press first. */
  lemma NeverDragged(f: MouseFlags, state: bv64)
    ensures !ActionFromFlags(f, state).Dragged?
  {
  }

  /** The decoder with its drag check moved in front of the buttons, so that
      a position report with a button held reads as a drag of the first such
      button, as the drag branch evidently means; every other state decodes
      as before. */
  function DragFirstAction(f: MouseFlags, state: bv64): (r: MouseAction)
    ensures !f.reportPosition ==> r == ActionFromFlags(f, state)
  {
    if f.reportPosition && f.left.pressed then Dragged(LeftButton)
    else if f.reportPosition && f.middle.pressed then Dragged(MiddleButton)
    else if f.reportPosition && f.right.pressed then Dragged(RightButton)
    else ActionFromFlags(f, state)
  }

  /** The reordered decoder reports a drag exactly for a position report
      with a button held, and differs from the decoder only there. */
  lemma DragFirstDecodesDrags(f: MouseFlags, state: bv64)
    ensures DragFirstAction(f, state).Dragged? <==>
      f.reportPosition && (f.left.pressed || f.middle.pressed || f.right.pressed)
    ensures DragFirstAction(f, state) != ActionFromFlags(f, state) ==> DragFirstAction(f, state).Dragged?
    ensures f.reportPosition && f.left.pressed ==> DragFirstAction(f, state) == Dragged(LeftButton)
  {
    NeverDragged(f, state);
  }

  /** The raw state comes back as unknown exactly when no button, wheel or
      position bit is set. */
  lemma UnknownIffNoActionBits(f: MouseFlags, state: bv64)
    ensures ActionFromFlags(f, state).UnknownAction? <==> !f.AnyButton() && !f.AnyWheel() && !f.reportPosition
    ensures ActionFromFlags(f, state).UnknownAction? ==> ActionFromFlags(f, state).rawState == state
  {
  }

  /** A position report is a move exactly when no button or wheel bit is
      set. */
  lemma ReportAloneIsMove(f: MouseFlags, state: bv64)
    requires f.reportPosition
    ensures ActionFromFlags(f, state) == Moved <==> !f.AnyButton() && !f.AnyWheel()
  {
  }

  /** With the curses masks, a left press reported together with motion is
      a press, not a drag. */
  lemma LeftPressWithMotionIsPress()
    ensures DecodeMouseAction(CursesMasks.pressed1 | CursesMasks.reportPosition, CursesMasks) == Pressed(LeftButton)
  {
    assert Tests(CursesMasks.pressed1 | CursesMasks.reportPosition, CursesMasks.pressed1);
  }

  /** `MouseEvent.modifiers(for:)`: shift, control and alt, each present
      exactly when its bit is set. */
  function DecodeMouseModifiers(state: bv64, m: MouseMasks): (r: set<MouseModifier>)
    ensures MouseShift in r <==> state & m.buttonShift != 0
    ensures MouseControl in r <==> state & m.buttonControl != 0
    ensures MouseAlt in r <==> state & m.buttonAlt != 0
  {
    (if state & m.buttonShift != 0 then {MouseShift} else {}) +
    (if state & m.buttonControl != 0 then {MouseControl} else {}) +
    (if state & m.buttonAlt != 0 then {MouseAlt} else {})
  }

  /** What `getmouse` reports. */
  datatype RawMouse = RawMouse(x: int, y: int, state: bv64)

  /** `MouseEvent(from:)`: row from y, column from x. */
  function DecodeMouse(raw: RawMouse, m: MouseMasks): (r: MouseEvent)
    ensures r.row == raw.y && r.column == raw.x && r.rawState == raw.state
    ensures r.action == DecodeMouseAction(raw.state, m) && r.modifiers == DecodeMouseModifiers(raw.state, m)
  {
    MouseEvent(raw.y, raw.x, DecodeMouseAction(raw.state, m), DecodeMouseModifiers(raw.state, m), raw.state)
  }

  /** `handleKeyCode`: the mouse code emits the pending mouse report, if
      there is one; the resize code emits the window's new size; any other
      code emits its key. */
  function KeyCodeEvent(code: UInt32, mouse: Option<RawMouse>, rows: int, columns: int, m: MouseMasks): (r: Option<Event>)
    ensures code == KeyMouse ==> (r.None? <==> mouse.None?) && (r.Some? ==> r.value == Mouse(DecodeMouse(mouse.value, m)))
    ensures code == KeyResize ==> r == Some(Terminal(Resized(rows, columns)))
    ensures code != KeyMouse && code != KeyResize ==> r == Some(KeyInput(DecodeKeyCode(code)))
  {
    if code == KeyMouse then
      match mouse
      case None => None
      case Some(raw) => Some(Mouse(DecodeMouse(raw, m)))
    else if code == KeyResize then Some(Terminal(Resized(rows, columns)))
    else Some(KeyInput(DecodeKeyCode(code)))
  }

  // ---------------------------------------------------------------- polling

  /** What `readEvent` returns. */
  datatype ReadResult = NoInput | CharacterRead(value: UInt32) | KeyCodeRead(code: UInt32)

  /** One turn of the poll loop: whether `shouldContinue` still holds,
      whether the window has a descriptor, what the read returned, the
      pending mouse report and the window size at that moment. */
  datatype PollTurn = PollTurn(proceed: bool, hasDescriptor: bool, read: ReadResult,
                               mouse: Option<RawMouse>, rows: int, columns: int)

  /** The event one turn of the poll loop emits, if any. */
  function TurnEvent(turn: PollTurn, m: MouseMasks): (r: Option<Event>)
    ensures !turn.hasDescriptor || turn.read.NoInput? ==> r.None?
  {
    if !turn.hasDescriptor then None
    else match turn.read
      case NoInput => None
      case CharacterRead(value) =>
        (match DecodeCharacter(value) case None => None case Some(key) => Some(KeyInput(key)))
      case KeyCodeRead(code) => KeyCodeEvent(code, turn.mouse, turn.rows, turn.columns, m)
  }

  /** The events of the poll loop over `turns`, up to the first turn at
      which it should no longer continue. */
  function PollEvents(turns: seq<PollTurn>, m: MouseMasks): (r: seq<Event>)
    ensures |r| <= |turns|
  {
    if |turns| == 0 || !turns[0].proceed then []
    else
      (match TurnEvent(turns[0], m) case None => [] case Some(e) => [e]) + PollEvents(turns[1..], m)
  }

  /** Reading characters only never emits a mouse, resize or tick event. */
  lemma {:induction false} CharactersEmitOnlyKeys(turns: seq<PollTurn>, m: MouseMasks)
    requires forall t <- turns :: t.read.NoInput? || t.read.CharacterRead?
    ensures forall e <- PollEvents(turns, m) :: e.KeyInput?
    decreases |turns|
  {
    if |turns| > 0 && turns[0].proceed {
      CharactersEmitOnlyKeys(turns[1..], m);
    }
  }

  // ---------------------------------------------------------------- event source

  /** A task the event source may cancel: its poll task or an auxiliary
      (tick) task registered under a token. */
  datatype TaskRef = PollTask | AuxiliaryTask(token: nat)

  /** `TerminalEventSource`: the flags and counters the source updates under
      its lock, and the events yielded to its stream so far. */
  /** The tasks a source holds: its auxiliary tasks and, while it runs,
      its poll task. */
  function HeldTasks(auxiliary: set<nat>, pollRunning: bool): (r: set<TaskRef>)
    ensures PollTask in r <==> pollRunning
    ensures forall t :: AuxiliaryTask(t) in r <==> t in auxiliary
  {
    (set t | t in auxiliary :: AuxiliaryTask(t)) + (if pollRunning then {PollTask} else {})
  }

  class TerminalEventSource {
    var isStopped: bool
    var pollRunning: bool
    var auxiliary: set<nat>
    var tickSequence: nat
    var streamOpen: bool
    var emitted: seq<Event>
    var cancelled: set<TaskRef>
    const masks: MouseMasks

    /** The stream is open exactly until the source stops (finishing it
        runs the termination handler, which stops the source); once stopped,
        the source holds no tasks; the counter fits in 64 bits. */
    ghost predicate Valid()
      reads this
    {
      tickSequence < UInt64Modulus &&
      (streamOpen <==> !isStopped) &&
      (isStopped ==> !pollRunning && auxiliary == {})
    }

    constructor(masks: MouseMasks)
      ensures Valid() && this.masks == masks
      ensures !isStopped && !pollRunning && auxiliary == {} && tickSequence == 0
      ensures streamOpen && emitted == [] && cancelled == {}
    {
      this.masks := masks;
      isStopped := false;
      pollRunning := false;
      auxiliary := {};
      tickSequence := 0;
      streamOpen := true;
      emitted := [];
      cancelled := {};
    }

    /** `start()`: launches the poll task unless one runs already or the
        source is stopped. */
    method Start()
      requires Valid()
      modifies this
      ensures Valid()
      ensures pollRunning == (old(pollRunning) || !old(isStopped))
      ensures isStopped == old(isStopped) && auxiliary == old(auxiliary) && tickSequence == old(tickSequence)
      ensures streamOpen == old(streamOpen) && emitted == old(emitted) && cancelled == old(cancelled)
    {
      if pollRunning || isStopped {
        return;
      }
      pollRunning := true;
    }

    /** `stop()`: the first call marks the source stopped, finishes the
        stream and cancels every task it holds; later calls do nothing. */
    method Stop()
      requires Valid()
      modifies this
      ensures Valid() && isStopped
      ensures old(isStopped) ==> cancelled == old(cancelled) && streamOpen == old(streamOpen)
      ensures !old(isStopped) ==> cancelled == old(cancelled) + HeldTasks(old(auxiliary), old(pollRunning))
      ensures !pollRunning && auxiliary == {} && !streamOpen
      ensures tickSequence == old(tickSequence) && emitted == old(emitted)
    {
      if isStopped {
        return;
      }
      isStopped := true;
      var tasks := HeldTasks(auxiliary, pollRunning);
      pollRunning := false;
      auxiliary := {};
      streamOpen := false;
      cancelled := cancelled + tasks;
    }

    /** `registerAuxiliaryTask`: a task registered after the stop is
        cancelled at once. */
    method RegisterAuxiliaryTask(token: nat)
      requires Valid()
      modifies this
      ensures Valid()
      ensures old(isStopped) ==> auxiliary == old(auxiliary) && cancelled == old(cancelled) + {AuxiliaryTask(token)}
      ensures !old(isStopped) ==> auxiliary == old(auxiliary) + {token} && cancelled == old(cancelled)
      ensures isStopped == old(isStopped) && pollRunning == old(pollRunning) && tickSequence == old(tickSequence)
      ensures streamOpen == old(streamOpen) && emitted == old(emitted)
    {
      if isStopped {
        cancelled := cancelled + {AuxiliaryTask(token)};
        return;
      }
      auxiliary := auxiliary + {token};
    }

    /** `unregisterAuxiliaryTask`. */
    method UnregisterAuxiliaryTask(token: nat)
      requires Valid()
      modifies this
      ensures Valid() && auxiliary == old(auxiliary) - {token}
      ensures isStopped == old(isStopped) && pollRunning == old(pollRunning) && tickSequence == old(tickSequence)
      ensures streamOpen == old(streamOpen) && emitted == old(emitted) && cancelled == old(cancelled)
    {
      auxiliary := auxiliary - {token};
    }

    /** `nextTickSequence()`: the counter moves on by one, wrapping at 2^64,
        and the new value is returned. */
    method NextTickSequence() returns (sequence: nat)
      requires Valid()
      modifies this
      ensures Valid() && tickSequence == (old(tickSequence) + 1) % UInt64Modulus && sequence == tickSequence
      ensures old(tickSequence) + 1 < UInt64Modulus ==> sequence == old(tickSequence) + 1
      ensures isStopped == old(isStopped) && pollRunning == old(pollRunning) && auxiliary == old(auxiliary)
      ensures streamOpen == old(streamOpen) && emitted == old(emitted) && cancelled == old(cancelled)
    {
      tickSequence := (tickSequence + 1) % UInt64Modulus;
      sequence := tickSequence;
    }

    /** `emit(_:)`: yields the event while the stream is open. */
    method Emit(event: Event)
      requires Valid()
      modifies this
      ensures Valid()
      ensures emitted == if old(streamOpen) then old(emitted) + [event] else old(emitted)
      ensures isStopped == old(isStopped) && pollRunning == old(pollRunning) && auxiliary == old(auxiliary)
      ensures tickSequence == old(tickSequence) && streamOpen == old(streamOpen) && cancelled == old(cancelled)
    {
      if streamOpen {
        emitted := emitted + [event];
      }
    }

    /** `emitTick(interval:)`: numbers the tick and emits it. */
    method EmitTick()
      requires Valid()
      modifies this
      ensures Valid() && tickSequence == (old(tickSequence) + 1) % UInt64Modulus
      ensures emitted == if old(streamOpen) then old(emitted) + [Tick(tickSequence)] else old(emitted)
      ensures isStopped == old(isStopped) && pollRunning == old(pollRunning) && auxiliary == old(auxiliary)
      ensures streamOpen == old(streamOpen) && cancelled == old(cancelled)
    {
      var sequence := NextTickSequence();
      Emit(Tick(sequence));
    }

    /** `finishStreamIfNeeded()`: finishing a stream that is still open
        runs its termination handler, `stop()`, so the source ends stopped
        with every task it held cancelled; a finished stream is left alone. */
    method FinishStreamIfNeeded()
      requires Valid()
      modifies this
      ensures Valid() && !streamOpen && isStopped && !pollRunning && auxiliary == {}
      ensures cancelled == if old(streamOpen) then old(cancelled) + HeldTasks(old(auxiliary), old(pollRunning))
                           else old(cancelled)
      ensures tickSequence == old(tickSequence) && emitted == old(emitted)
    {
      if streamOpen {
        Stop();
      }
    }

    /** `pollLoop()`: turn after turn while the source should continue,
        emitting each turn's event, then finishing the stream, which stops
        the source and cancels the tasks it still held. */
    method PollLoop(turns: seq<PollTurn>)
      requires Valid()
      modifies this
      ensures Valid() && !streamOpen && isStopped && !pollRunning && auxiliary == {}
      ensures emitted == if old(streamOpen) then old(emitted) + PollEvents(turns, masks) else old(emitted)
      ensures cancelled == if old(streamOpen) then old(cancelled) + HeldTasks(old(auxiliary), old(pollRunning))
                           else old(cancelled)
      ensures tickSequence == old(tickSequence)
    {
      var i := 0;
      while i < |turns| && turns[i].proceed
        invariant 0 <= i <= |turns| && Valid()
        invariant forall j :: 0 <= j < i ==> turns[j].proceed
        invariant old(streamOpen) ==> emitted + PollEvents(turns[i..], masks) == old(emitted) + PollEvents(turns, masks)
        invariant !old(streamOpen) ==> emitted == old(emitted)
        invariant streamOpen == old(streamOpen)
        invariant isStopped == old(isStopped) && pollRunning == old(pollRunning) && auxiliary == old(auxiliary)
        invariant tickSequence == old(tickSequence) && cancelled == old(cancelled)
      {
        var event := TurnEvent(turns[i], masks);
        assert turns[i..][1..] == turns[i + 1..];
        if event.Some? {
          Emit(event.value);
        }
        i := i + 1;
      }
      FinishStreamIfNeeded();
    }
  }

  /** After the source is stopped, emitting and ticking yield nothing and
      starting launches nothing. */
  method StoppedSourceIsInert(source: TerminalEventSource, event: Event)
    requires source.Valid()
    modifies source
    ensures source.isStopped && source.emitted == old(source.emitted) && !source.pollRunning
  {
    source.Stop();
    source.Emit(event);
    source.EmitTick();
    source.Start();
    source.Stop();
  }

  /** When the poll loop of a started source ends, the stream has carried
      every turn's event, the source is stopped, and both the poll task and
      the tick task are cancelled. */
  method PollEndStopsSource(masks: MouseMasks, token: nat, turns: seq<PollTurn>)
    returns (source: TerminalEventSource)
    ensures source.isStopped && !source.streamOpen
    ensures source.emitted == PollEvents(turns, masks)
    ensures source.cancelled == {PollTask, AuxiliaryTask(token)}
  {
    source := new TerminalEventSource(masks);
    source.Start();
    source.RegisterAuxiliaryTask(token);
    source.PollLoop(turns);
    assert source.cancelled == HeldTasks({token}, true);
  }

  /** A new source numbers its first two ticks 1 and 2. */
  method TicksStartAtOne(masks: MouseMasks) returns (first: nat, second: nat)
    ensures first == 1 && second == 2
  {
    var source := new TerminalEventSource(masks);
    first := source.NextTickSequence();
    second := source.NextTickSequence();
  }
}
