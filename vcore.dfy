/**
 * Window setup and frame bookkeeping over the global context: InitWindow's
 * field setup, SetConfigFlags, BeginDrawing and EndDrawing (frame counter,
 * then one poll).
 */
module VCore {
  import opened CInt
  import opened Vultra
  import opened Context
  import opened Glfw
  import opened GlfwProperties

  /** The window fields as InitWindow leaves them, before the platform is started. */
  function InitWindowFields(w: Window, width: int32, height: int32, title: CString): (r: Window)
    ensures r.screen == Dimension(ToUnsigned(width), ToUnsigned(height))
    ensures r.title == if StrNonEmpty(title) then title else w.title
    ensures r.flags == w.flags && r.shouldQuit == w.shouldQuit
    ensures r.position == w.position && r.prevPosition == w.prevPosition
  {
    var sized := w.(screen := Dimension(ToUnsigned(width), ToUnsigned(height)));
    if StrNonEmpty(title) then sized.(title := title) else sized
  }

  /** The timing fields as EndDrawing leaves them before it polls. */
  function EndFrameTiming(t: Timing): (r: Timing)
    ensures r.lastFrameTime == 0.0
    ensures r.frameCounter == Increment(t.frameCounter)
    ensures r.targetFPS == t.targetFPS
  {
    t.(lastFrameTime := 0.0, frameCounter := Increment(t.frameCounter))
  }

  /** One EndDrawing: the timing update followed by one poll. */
  function EndFrame(s: AppState, events: seq<Event>): (r: AppState)
    requires Sized(s.core.keyboard)
    ensures Sized(r.core.keyboard)
    ensures Binary(s.core.keyboard.currKeyState) ==> WellFormed(r.core.keyboard)
    ensures !r.windowShouldClose
  {
    Poll(s.(core := s.core.(timing := EndFrameTiming(s.core.timing))), events)
  }

  /** Store the size and, when it is a non-empty string, the title; the platform start is not modelled. */
  method InitWindow(core: CoreContext, width: int32, height: int32, title: CString)
    modifies core`window
    ensures core.window == InitWindowFields(old(core.window), width, height, title)
  {
    core.window := core.window.(screen := Dimension(core.window.screen.width, ToUnsigned(height)));
    core.window := core.window.(screen := Dimension(ToUnsigned(width), core.window.screen.height));
    if StrNonEmpty(title) {
      core.window := core.window.(title := title);
    }
  }

  method SetConfigFlags(core: CoreContext, flags: bv32)
    modifies core`window
    ensures core.window == old(core.window).(flags := FlagSet(old(core.window.flags), flags))
  {
    core.window := core.window.(flags := FlagSet(core.window.flags, flags));
  }

  /** Nothing to do yet: the frame's drawing begins without touching any state. */
  method BeginDrawing(core: CoreContext)
    ensures unchanged(core, core.currKeyState, core.prevKeyState, core.keyRepeats)
  {
  }

  /** Close the frame: count it, then poll; the main loop's ShouldQuit then reports any close so far. */
  method EndDrawing(core: CoreContext, platform: Platform, events: seq<Event>)
    requires core.Valid()
    modifies core, core.currKeyState, core.prevKeyState, core.keyRepeats, platform
    ensures core.Valid()
    ensures App(core, platform) == EndFrame(old(App(core, platform)), events)
    ensures ShouldQuit(core) <==> old(platform.windowShouldClose) || CloseIn(events)
    ensures !platform.windowShouldClose
  {
    ghost var before := App(core, platform);
    core.timing := core.timing.(lastFrameTime := 0.0);
    core.timing := core.timing.(frameCounter := Increment(core.timing.frameCounter));
    PollInputEvents(core, platform, events);
    EndFrameQuit(before, events);
  }

  // ---------------------------------------------------------------------
  // Properties
  // ---------------------------------------------------------------------

  /** Configuration flags only accumulate: every flag set before or now is set afterwards. */
  lemma ConfigFlagsAccumulate(previous: bv32, flags: bv32)
    ensures FlagSet(previous, flags) & previous == previous
    ensures FlagCheck(FlagSet(previous, flags), flags) == flags
  {
  }

  /** A title that is NULL or empty keeps the previous title. */
  lemma InitWindowKeepsTitleUnlessNonEmpty(w: Window, width: int32, height: int32, title: CString)
    requires Terminated(title)
    ensures InitWindowFields(w, width, height, title).title
         == if title.Str? && title.text != [] then title else w.title
  {
  }

  /** EndDrawing counts exactly one frame, zeroes the last frame time, and polls once. */
  lemma EndFrameCountsOneFrame(s: AppState, events: seq<Event>)
    requires Sized(s.core.keyboard)
    ensures var r := EndFrame(s, events);
      && r.core.timing.frameCounter == Increment(s.core.timing.frameCounter)
      && r.core.timing.lastFrameTime == 0.0
      && r.core.timing.targetFPS == s.core.timing.targetFPS
      && r.core.keyboard.prevKeyState == s.core.keyboard.currKeyState
      && r.core.keyboard.pressedKeyCount == PressCount(events)
  {
    var t := s.(core := s.core.(timing := EndFrameTiming(s.core.timing)));
    PollKeepsConfiguration(t, events);
    PollSnapshotsPrevious(t, events);
    PollCountsPresses(t, events);
  }

  /** The quit flag after EndDrawing: set exactly when close was signalled before it or requested during it. */
  lemma EndFrameQuit(s: AppState, events: seq<Event>)
    requires Sized(s.core.keyboard)
    ensures EndFrame(s, events).core.window.shouldQuit == QuitValue(s.windowShouldClose || CloseIn(events))
    ensures !EndFrame(s, events).windowShouldClose
  {
    PollQuit(s.(core := s.core.(timing := EndFrameTiming(s.core.timing))), events);
  }

  /** A frame whose only event is a Press of a valid key leaves that key down, as a rising edge when it was up. */
  lemma EndFrameSinglePress(s: AppState, key: int32)
    requires Sized(s.core.keyboard) && ValidKey(key)
    ensures var k := EndFrame(s, [KeyEvent(key, Press, 0)]).core.keyboard;
      k.currKeyState[key] == 1 && k.prevKeyState[key] == s.core.keyboard.currKeyState[key]
  {
    var t := s.(core := s.core.(timing := EndFrameTiming(s.core.timing)));
    DispatchOne(t.(core := t.core.(keyboard := ResetFrame(t.core.keyboard))), KeyEvent(key, Press, 0));
  }

  /**
   * The demo's main loop, driven by hand: open a 640x480 window; in the
   * first frame Escape goes down; the second frame sees it down, signals
   * close, and its EndDrawing makes ShouldQuit report it, so the loop runs
   * exactly two frames.
   */
  method BasicWindowSession() returns (frames: nat)
    ensures frames == 2
  {
    var core := new CoreContext();
    var platform := new Platform();
    InitWindow(core, 640, 480, Str("Vultra: Basic Window"));
    assert core.window.screen == Dimension(640, 480);
    assert core.window.title == Str("Vultra: Basic Window");
    frames := 0;

    // Frame 1: Escape is not down yet, and its press arrives during the poll.
    assert !ShouldQuit(core);
    assert core.currKeyState[KEY_ESCAPE] == 0;
    ghost var before := App(core, platform);
    BeginDrawing(core);
    EndDrawing(core, platform, [KeyEvent(KEY_ESCAPE, Press, 0)]);
    EndFrameSinglePress(before, KEY_ESCAPE);
    frames := frames + 1;
    assert CloseIn([KeyEvent(KEY_ESCAPE, Press, 0)]) == false;

    // Frame 2: Escape is down, so the loop signals close.
    if !ShouldQuit(core) {
      if core.currKeyState[KEY_ESCAPE] == 1 {
        SignalClose(platform);
      }
      BeginDrawing(core);
      EndDrawing(core, platform, []);
      frames := frames + 1;
    }

    // The loop condition now ends the demo.
    assert ShouldQuit(core);
  }
}
