/**
 * The desktop platform layer: the toolkit callbacks that write the context
 * (key, framebuffer size, window position), the per-frame poll that
 * snapshots the key tables, and the toolkit's window-close flag.
 *
 * Every operation is given twice: as a pure function on the context's value
 * (OnKey, OnResize, OnMove, Step, Dispatch, Poll), and as a method on the
 * objects whose postcondition ties the new value to that function. The
 * toolkit's own event dispatch is an input: the sequence of events it
 * delivers to the callbacks, in order.
 */
module Glfw {
  import opened CInt
  import opened Vultra
  import opened Context

  /** The `action` argument of the key callback. */
  datatype Action = Release | Press | Repeat | Other

  /** One event the toolkit delivers while it dispatches pending events. */
  datatype Event =
    | KeyEvent(key: int32, action: Action, mods: bv32)
    | FramebufferSize(width: int32, height: int32)
    | WindowPos(x: int32, y: int32)
    | CloseRequest

  /** The context together with the toolkit's window-should-close flag. */
  datatype AppState = AppState(core: CoreState, windowShouldClose: bool)

  /** Lock-state modifier bits (GLFW_MOD_CAPS_LOCK, GLFW_MOD_NUM_LOCK in GLFW 3.4). */
  const MOD_CAPS_LOCK: bv32 := 0x10
  const MOD_NUM_LOCK: bv32 := 0x20

  // ---------------------------------------------------------------------
  // Key callback
  // ---------------------------------------------------------------------

  /** The filter of the key callback as written: only codes below KEY_NULL are rejected. */
  predicate AcceptedAsWritten(key: int)
  {
    !(key < KEY_NULL)
  }

  /** The filter the model uses: a key code is accepted exactly when it indexes the tables. */
  predicate ValidKey(key: int)
  {
    KEY_NULL <= key < KEYBOARD_KEY_COUNT
  }

  /** A lock key whose lock modifier bit is set is forced down. */
  predicate LockForced(key: int, mods: bv32)
  {
    (key == KEY_CAPS_LOCK && mods & MOD_CAPS_LOCK != 0)
    || (key == KEY_NUM_LOCK && mods & MOD_NUM_LOCK != 0)
  }

  /** The effect of one key callback on the keyboard tables. */
  function OnKey(k: Keyboard, key: int, action: Action, mods: bv32): (r: Keyboard)
    requires Sized(k)
    ensures Sized(r)
    ensures WellFormed(k) ==> WellFormed(r)
    ensures r.prevKeyState == k.prevKeyState
  {
    if !ValidKey(key) then k
    else
      var acted :=
        match action
        case Release => k.(currKeyState := k.currKeyState[key := 0])
        case Press => k.(currKeyState := k.currKeyState[key := 1], pressedKeyCount := k.pressedKeyCount + 1)
        case Repeat => k.(keyRepeats := k.keyRepeats[key := 1])
        case Other => k;
      if LockForced(key, mods) then acted.(currKeyState := acted.currKeyState[key := 1]) else acted
  }

  /** What the key callback as written does: a defined update, or a write past the end of a table. */
  datatype Effect = Defined(keyboard: Keyboard) | OutOfBoundsWrite

  /**
   * The key callback exactly as written: a code of 512 or more passes the
   * filter, and a Release, Press or Repeat of it writes past its table.
   */
  function OnKeyAsWritten(k: Keyboard, key: int, action: Action, mods: bv32): (e: Effect)
    requires Sized(k)
    ensures e == OutOfBoundsWrite <==> key >= KEYBOARD_KEY_COUNT && action != Other
    ensures e.Defined? ==> e.keyboard == OnKey(k, key, action, mods)
  {
    if !AcceptedAsWritten(key) then Defined(k)
    else if key < KEYBOARD_KEY_COUNT then Defined(OnKey(k, key, action, mods))
    else if action == Other then Defined(k)
    else OutOfBoundsWrite
  }

  // ---------------------------------------------------------------------
  // Window geometry callbacks
  // ---------------------------------------------------------------------

  /** The framebuffer-size callback: a zero width or height is ignored. */
  function OnResize(w: Window, width: int32, height: int32): (r: Window)
    ensures r.title == w.title && r.flags == w.flags && r.shouldQuit == w.shouldQuit
    ensures r.position == w.position && r.prevPosition == w.prevPosition
    ensures width == 0 || height == 0 ==> r.screen == w.screen
    ensures width != 0 && height != 0 ==>
      r.screen.width == ToUnsigned(width) && r.screen.height == ToUnsigned(height)
    ensures w.screen.width != 0 && w.screen.height != 0 ==> r.screen.width != 0 && r.screen.height != 0
  {
    if width == 0 || height == 0 then w
    else w.(screen := Dimension(ToUnsigned(width), ToUnsigned(height)))
  }

  /** The window-position callback: records the new position, nothing else. */
  function OnMove(w: Window, x: int32, y: int32): (r: Window)
    ensures r.position == Coordinate(x, y)
    ensures r.prevPosition == w.prevPosition && r.screen == w.screen
    ensures r.title == w.title && r.flags == w.flags && r.shouldQuit == w.shouldQuit
  {
    w.(position := Coordinate(x, y))
  }

  // ---------------------------------------------------------------------
  // Event dispatch and the poll
  // ---------------------------------------------------------------------

  /** The effect of delivering one event. */
  function Step(s: AppState, e: Event): (r: AppState)
    requires Sized(s.core.keyboard)
    ensures Sized(r.core.keyboard)
    ensures WellFormed(s.core.keyboard) ==> WellFormed(r.core.keyboard)
  {
    match e
    case KeyEvent(key, action, mods) =>
      s.(core := s.core.(keyboard := OnKey(s.core.keyboard, key, action, mods)))
    case FramebufferSize(width, height) =>
      s.(core := s.core.(window := OnResize(s.core.window, width, height)))
    case WindowPos(x, y) =>
      s.(core := s.core.(window := OnMove(s.core.window, x, y)))
    case CloseRequest =>
      s.(windowShouldClose := true)
  }

  /** The effect of delivering a batch of events in order. */
  function Dispatch(s: AppState, events: seq<Event>): (r: AppState)
    requires Sized(s.core.keyboard)
    ensures Sized(r.core.keyboard)
    ensures WellFormed(s.core.keyboard) ==> WellFormed(r.core.keyboard)
    decreases |events|
  {
    if events == [] then s
    else Step(Dispatch(s, events[..|events| - 1]), events[|events| - 1])
  }

  /** The start of a poll: store the current states as previous, clear repeats and the counter. */
  function ResetFrame(k: Keyboard): (r: Keyboard)
    requires Sized(k)
    ensures Sized(r)
    ensures Binary(k.currKeyState) ==> WellFormed(r)
  {
    k.(prevKeyState := k.currKeyState, keyRepeats := ZeroTable(), pressedKeyCount := 0)
  }

  /** The value of the close flag as the context stores it. */
  function QuitValue(close: bool): int32
  {
    if close then 1 else 0
  }

  /**
   * One call of PollInputEvents: reset the frame, dispatch the events, then
   * move the toolkit's close flag into `shouldQuit` and clear it.
   */
  function Poll(s: AppState, events: seq<Event>): (r: AppState)
    requires Sized(s.core.keyboard)
    ensures Sized(r.core.keyboard)
    ensures Binary(s.core.keyboard.currKeyState) ==> WellFormed(r.core.keyboard)
    ensures !r.windowShouldClose
  {
    var d := Dispatch(s.(core := s.core.(keyboard := ResetFrame(s.core.keyboard))), events);
    AppState(d.core.(window := d.core.window.(shouldQuit := QuitValue(d.windowShouldClose))), false)
  }

  // ---------------------------------------------------------------------
  // The toolkit side and the methods over the objects
  // ---------------------------------------------------------------------

  /** The toolkit window, reduced to its should-close flag. */
  class Platform {
    var windowShouldClose: bool

    constructor ()
      ensures !windowShouldClose
    {
      windowShouldClose := false;
    }
  }

  /** The context and the toolkit flag as one value. */
  ghost function App(core: CoreContext, platform: Platform): AppState
    reads core, core.currKeyState, core.prevKeyState, core.keyRepeats, platform
  {
    AppState(core.State(), platform.windowShouldClose)
  }

  method KeyCallback(core: CoreContext, key: int32, action: Action, mods: bv32)
    requires core.Valid()
    modifies core`pressedKeyCount, core.currKeyState, core.keyRepeats
    ensures core.Valid()
    ensures core.State() == old(core.State()).(keyboard := OnKey(old(core.State().keyboard), key, action, mods))
  {
    if !ValidKey(key) {
      return;
    }
    match action {
      case Release =>
        core.currKeyState[key] := 0;
      case Press =>
        core.currKeyState[key] := 1;
        core.pressedKeyCount := core.pressedKeyCount + 1;
      case Repeat =>
        core.keyRepeats[key] := 1;
      case Other =>
    }
    if LockForced(key, mods) {
      core.currKeyState[key] := 1;
    }
  }

  method FramebufferSizeCallback(core: CoreContext, width: int32, height: int32)
    modifies core`window
    ensures core.window == OnResize(old(core.window), width, height)
  {
    if width == 0 || height == 0 {
      return;
    }
    core.window := core.window.(screen := Dimension(ToUnsigned(width), ToUnsigned(height)));
  }

  method WindowPosCallback(core: CoreContext, x: int32, y: int32)
    modifies core`window
    ensures core.window == OnMove(old(core.window), x, y)
  {
    core.window := core.window.(position := Coordinate(x, y));
  }

  /** Ask the toolkit to close the window; the next poll reports it. */
  method SignalClose(platform: Platform)
    modifies platform
    ensures platform.windowShouldClose
  {
    platform.windowShouldClose := true;
  }

  /** Whether the main window is closing, as the last poll recorded it. */
  function ShouldQuit(core: CoreContext): bool
    reads core
  {
    core.window.shouldQuit != 0
  }

  /** Store the title pointer; the toolkit's own title update is not modelled. */
  method SetWindowTitle(core: CoreContext, title: CString)
    modifies core`window
    ensures core.window == old(core.window).(title := title)
  {
    core.window := core.window.(title := title);
  }

  /** The toolkit's event dispatch: deliver each event to its callback, in order. */
  method PollEvents(core: CoreContext, platform: Platform, events: seq<Event>)
    requires core.Valid()
    modifies core, core.currKeyState, core.keyRepeats, platform
    ensures core.Valid()
    ensures App(core, platform) == Dispatch(old(App(core, platform)), events)
  {
    var i := 0;
    while i < |events|
      invariant 0 <= i <= |events|
      invariant core.Valid()
      invariant App(core, platform) == Dispatch(old(App(core, platform)), events[..i])
    {
      assert events[..i + 1][..i] == events[..i];
      match events[i] {
        case KeyEvent(key, action, mods) =>
          KeyCallback(core, key, action, mods);
        case FramebufferSize(width, height) =>
          FramebufferSizeCallback(core, width, height);
        case WindowPos(x, y) =>
          WindowPosCallback(core, x, y);
        case CloseRequest =>
          platform.windowShouldClose := true;
      }
      i := i + 1;
    }
    assert events[..i] == events;
  }

  method PollInputEvents(core: CoreContext, platform: Platform, events: seq<Event>)
    requires core.Valid()
    modifies core, core.currKeyState, core.prevKeyState, core.keyRepeats, platform
    ensures core.Valid()
    ensures App(core, platform) == Poll(old(App(core, platform)), events)
  {
    for i := 0 to KEYBOARD_KEY_COUNT
      modifies core.prevKeyState, core.keyRepeats
      invariant forall j :: 0 <= j < i ==> core.prevKeyState[j] == core.currKeyState[j] && core.keyRepeats[j] == 0
      invariant forall j :: i <= j < KEYBOARD_KEY_COUNT ==>
        core.prevKeyState[j] == old(core.prevKeyState[j]) && core.keyRepeats[j] == old(core.keyRepeats[j])
    {
      core.prevKeyState[i] := core.currKeyState[i];
      core.keyRepeats[i] := 0;
    }
    core.pressedKeyCount := 0;
    assert core.prevKeyState[..] == core.currKeyState[..];
    assert core.keyRepeats[..] == ZeroTable();
    assert core.State().keyboard == ResetFrame(old(core.State().keyboard));

    PollEvents(core, platform, events);

    core.window := core.window.(shouldQuit := QuitValue(platform.windowShouldClose));
    platform.windowShouldClose := false;
  }
}
