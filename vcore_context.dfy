/**
 * The library's single application context: window configuration, frame
 * timing, and three fixed-size keyboard tables with a press counter.
 */
module Context {
  import opened CInt

  /** The maximum number of supported keyboard keys, the size of each key table. */
  const KEYBOARD_KEY_COUNT: int := 512

  datatype Coordinate = Coordinate(x: int32, y: int32)

  datatype Dimension = Dimension(width: uint32, height: uint32)

  /** The `window` group of the context. */
  datatype Window = Window(
    title: CString,            // memory managed by the caller
    flags: bv32,               // configuration bits
    shouldQuit: int32,         // nonzero once the main window is closing
    position: Coordinate,
    prevPosition: Coordinate,
    screen: Dimension)

  /** The `timing` group; the two C doubles are modelled as reals. */
  datatype Timing = Timing(lastFrameTime: real, targetFPS: real, frameCounter: uint32)

  /**
   * The `keyboard` group as values: the three `char` tables (current
   * state, previous frame's state, repeats of this frame) and the number
   * of press events seen since the last poll.
   */
  datatype Keyboard = Keyboard(
    currKeyState: seq<bv8>,
    prevKeyState: seq<bv8>,
    keyRepeats: seq<bv8>,
    pressedKeyCount: int)

  /** The whole context as a value. */
  datatype CoreState = CoreState(window: Window, timing: Timing, keyboard: Keyboard)

  /** Every cell of a key table is 0 or 1. */
  predicate Binary(table: seq<bv8>)
  {
    forall i :: 0 <= i < |table| ==> table[i] == 0 || table[i] == 1
  }

  /** Each table has exactly KEYBOARD_KEY_COUNT entries. */
  predicate Sized(k: Keyboard)
  {
    |k.currKeyState| == KEYBOARD_KEY_COUNT
    && |k.prevKeyState| == KEYBOARD_KEY_COUNT
    && |k.keyRepeats| == KEYBOARD_KEY_COUNT
  }

  /** The keyboard invariant: sized tables holding only 0 and 1. */
  predicate WellFormed(k: Keyboard)
  {
    Sized(k) && Binary(k.currKeyState) && Binary(k.prevKeyState) && Binary(k.keyRepeats)
  }

  /** A key table with every cell 0. */
  function ZeroTable(): (t: seq<bv8>)
    ensures |t| == KEYBOARD_KEY_COUNT
    ensures forall i :: 0 <= i < |t| ==> t[i] == 0
  {
    seq(KEYBOARD_KEY_COUNT, _ => 0)
  }

  /** The zero-initialised context `core = { 0 }`. */
  function ZeroContext(): (c: CoreState)
    ensures WellFormed(c.keyboard)
    ensures forall i :: 0 <= i < KEYBOARD_KEY_COUNT ==>
      c.keyboard.currKeyState[i] == 0 && c.keyboard.prevKeyState[i] == 0 && c.keyboard.keyRepeats[i] == 0
    ensures c.keyboard.pressedKeyCount == 0
    ensures c.window.shouldQuit == 0 && c.window.title == Null && c.window.flags == 0
    ensures c.timing.frameCounter == 0
  {
    CoreState(
      Window(Null, 0, 0, Coordinate(0, 0), Coordinate(0, 0), Dimension(0, 0)),
      Timing(0.0, 0.0, 0),
      Keyboard(ZeroTable(), ZeroTable(), ZeroTable(), 0))
  }

  /**
   * The context object. The window and timing groups are plain structs,
   * so they are value fields updated by assignment; the key tables are
   * fixed arrays written cell by cell.
   */
  class CoreContext {
    var window: Window
    var timing: Timing
    const currKeyState: array<bv8>
    const prevKeyState: array<bv8>
    const keyRepeats: array<bv8>
    var pressedKeyCount: int

    /** The context's current value. */
    ghost function State(): CoreState
      reads this, currKeyState, prevKeyState, keyRepeats
    {
      CoreState(window, timing,
        Keyboard(currKeyState[..], prevKeyState[..], keyRepeats[..], pressedKeyCount))
    }

    /** Three distinct tables that satisfy the keyboard invariant. */
    ghost predicate Valid()
      reads this, currKeyState, prevKeyState, keyRepeats
    {
      && currKeyState != prevKeyState
      && currKeyState != keyRepeats
      && prevKeyState != keyRepeats
      && WellFormed(State().keyboard)
    }

    /** The context as the program starts: every field zero. */
    constructor ()
      ensures Valid()
      ensures State() == ZeroContext()
      ensures fresh(currKeyState) && fresh(prevKeyState) && fresh(keyRepeats)
    {
      window := ZeroContext().window;
      timing := ZeroContext().timing;
      currKeyState := new bv8[KEYBOARD_KEY_COUNT](_ => 0);
      prevKeyState := new bv8[KEYBOARD_KEY_COUNT](_ => 0);
      keyRepeats := new bv8[KEYBOARD_KEY_COUNT](_ => 0);
      pressedKeyCount := 0;
      new;
      assert currKeyState[..] == ZeroTable();
      assert prevKeyState[..] == ZeroTable();
      assert keyRepeats[..] == ZeroTable();
    }
  }
}
