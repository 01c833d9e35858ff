/**
 * What the key callback, the geometry callbacks and the per-frame poll
 * guarantee, stated over the pure functions of module Glfw.
 */
module GlfwProperties {
  import opened CInt
  import opened Vultra
  import opened Context
  import opened Glfw

  // ---------------------------------------------------------------------
  // One key event
  // ---------------------------------------------------------------------

  /** A key code outside the tables leaves the keyboard exactly as it was. */
  lemma OutOfRangeKeyIgnored(k: Keyboard, key: int, action: Action, mods: bv32)
    requires Sized(k) && !ValidKey(key)
    ensures OnKey(k, key, action, mods) == k
  {
  }

  /** Release clears the key's current state, unless the lock override sets it again. */
  lemma ReleaseClearsKey(k: Keyboard, key: int, mods: bv32)
    requires Sized(k) && ValidKey(key)
    ensures OnKey(k, key, Release, mods)
         == k.(currKeyState := k.currKeyState[key := if LockForced(key, mods) then 1 else 0])
  {
  }

  /** Press sets the key and counts one press, even when the key was already down. */
  lemma PressSetsKeyAndCounts(k: Keyboard, key: int, mods: bv32)
    requires Sized(k) && ValidKey(key)
    ensures OnKey(k, key, Press, mods)
         == k.(currKeyState := k.currKeyState[key := 1], pressedKeyCount := k.pressedKeyCount + 1)
  {
  }

  /** Repeat marks the key as repeated; the state and the counter change only through the lock override. */
  lemma RepeatMarksKey(k: Keyboard, key: int, mods: bv32)
    requires Sized(k) && ValidKey(key)
    ensures OnKey(k, key, Repeat, mods)
         == k.(keyRepeats := k.keyRepeats[key := 1],
               currKeyState := if LockForced(key, mods) then k.currKeyState[key := 1] else k.currKeyState)
  {
  }

  /** Any other action only applies the lock override. */
  lemma OtherActionOnlyLocks(k: Keyboard, key: int, mods: bv32)
    requires Sized(k) && ValidKey(key)
    ensures OnKey(k, key, Other, mods)
         == if LockForced(key, mods) then k.(currKeyState := k.currKeyState[key := 1]) else k
  {
  }

  /** Only Caps Lock and Num Lock can ever be forced down. */
  lemma OnlyLockKeysForced(key: int, mods: bv32)
    requires LockForced(key, mods)
    ensures key == KEY_CAPS_LOCK || key == KEY_NUM_LOCK
    ensures ValidKey(key)
  {
  }

  /** A forced lock key is down after the callback, whatever the action. */
  lemma LockOverrideWins(k: Keyboard, key: int, action: Action, mods: bv32)
    requires Sized(k) && LockForced(key, mods)
    ensures OnKey(k, key, action, mods).currKeyState[key] == 1
  {
    OnlyLockKeysForced(key, mods);
  }

  /** A key event touches no other key's cells and never the previous-state table. */
  lemma KeyEventIsLocal(k: Keyboard, key: int, action: Action, mods: bv32, other: int)
    requires Sized(k) && 0 <= other < KEYBOARD_KEY_COUNT && other != key
    ensures var r := OnKey(k, key, action, mods);
      r.currKeyState[other] == k.currKeyState[other]
      && r.keyRepeats[other] == k.keyRepeats[other]
      && r.prevKeyState == k.prevKeyState
  {
    if ValidKey(key) {
      match action {
        case Release => ReleaseClearsKey(k, key, mods);
        case Press => PressSetsKeyAndCounts(k, key, mods);
        case Repeat => RepeatMarksKey(k, key, mods);
        case Other => OtherActionOnlyLocks(k, key, mods);
      }
    }
  }

  // ---------------------------------------------------------------------
  // The key filter
  // ---------------------------------------------------------------------

  /** The callback as written writes past the tables for key code 512 and any action that writes a cell. */
  lemma AsWrittenWritesPastTables(k: Keyboard, action: Action, mods: bv32)
    requires Sized(k) && action != Other
    ensures AcceptedAsWritten(KEYBOARD_KEY_COUNT) && !ValidKey(KEYBOARD_KEY_COUNT)
    ensures OnKeyAsWritten(k, KEYBOARD_KEY_COUNT, action, mods) == OutOfBoundsWrite
  {
  }

  /** Below the table size the two filters agree; they differ only on codes 512 and up. */
  lemma FiltersAgreeOnTableIndices(key: int)
    ensures ValidKey(key) <==> AcceptedAsWritten(key) && key < KEYBOARD_KEY_COUNT
  {
  }

  /** Every KeyboardCode enumerator passes both filters, so each one indexes the tables. */
  lemma KeyboardCodesAreValidKeys()
    ensures forall c :: c in KeyboardCodes ==> ValidKey(c) && AcceptedAsWritten(c)
  {
    KeyboardCodesBounded();
    forall c | c in KeyboardCodes ensures ValidKey(c) {
      var i :| 0 <= i < |KeyboardCodes| && KeyboardCodes[i] == c;
      assert KEY_NULL <= KeyboardCodes[i] <= KEY_KB_MENU;
    }
  }

  // ---------------------------------------------------------------------
  // What a batch of events contains
  // ---------------------------------------------------------------------

  predicate IsValidPress(e: Event)
  {
    e.KeyEvent? && ValidKey(e.key) && e.action == Press
  }

  /** The number of Press events with an accepted key code in the batch. */
  function PressCount(events: seq<Event>): nat
    decreases |events|
  {
    if events == [] then 0
    else PressCount(events[..|events| - 1]) + (if IsValidPress(events[|events| - 1]) then 1 else 0)
  }

  predicate IsRepeatOf(e: Event, key: int)
  {
    e.KeyEvent? && e.key == key && e.action == Repeat
  }

  /** Some event of the batch is a Repeat of the key. */
  predicate RepeatIn(events: seq<Event>, key: int)
  {
    exists j :: 0 <= j < |events| && IsRepeatOf(events[j], key)
  }

  predicate IsEventFor(e: Event, key: int)
  {
    e.KeyEvent? && e.key == key
  }

  /** Some key event of the batch names the key. */
  predicate TouchesKey(events: seq<Event>, key: int)
  {
    exists j :: 0 <= j < |events| && IsEventFor(events[j], key)
  }

  /** Some event of the batch is a close request. */
  predicate CloseIn(events: seq<Event>)
  {
    exists j :: 0 <= j < |events| && events[j].CloseRequest?
  }

  lemma RepeatInSnoc(events: seq<Event>, key: int)
    requires events != []
    ensures RepeatIn(events, key)
        <==> RepeatIn(events[..|events| - 1], key) || IsRepeatOf(events[|events| - 1], key)
  {
    var init := events[..|events| - 1];
    if RepeatIn(events, key) && !IsRepeatOf(events[|events| - 1], key) {
      var j :| 0 <= j < |events| && IsRepeatOf(events[j], key);
      assert init[j] == events[j];
    }
    if RepeatIn(init, key) {
      var j :| 0 <= j < |init| && IsRepeatOf(init[j], key);
      assert events[j] == init[j];
    }
  }

  lemma TouchesKeySnoc(events: seq<Event>, key: int)
    requires events != []
    ensures TouchesKey(events, key)
        <==> TouchesKey(events[..|events| - 1], key) || IsEventFor(events[|events| - 1], key)
  {
    var init := events[..|events| - 1];
    if TouchesKey(events, key) && !IsEventFor(events[|events| - 1], key) {
      var j :| 0 <= j < |events| && IsEventFor(events[j], key);
      assert init[j] == events[j];
    }
    if TouchesKey(init, key) {
      var j :| 0 <= j < |init| && IsEventFor(init[j], key);
      assert events[j] == init[j];
    }
  }

  lemma CloseInSnoc(events: seq<Event>)
    requires events != []
    ensures CloseIn(events) <==> CloseIn(events[..|events| - 1]) || events[|events| - 1].CloseRequest?
  {
    var init := events[..|events| - 1];
    if CloseIn(events) && !events[|events| - 1].CloseRequest? {
      var j :| 0 <= j < |events| && events[j].CloseRequest?;
      assert init[j] == events[j];
    }
    if CloseIn(init) {
      var j :| 0 <= j < |init| && init[j].CloseRequest?;
      assert events[j] == init[j];
    }
  }

  // ---------------------------------------------------------------------
  // Event dispatch
  // ---------------------------------------------------------------------

  /** Dispatch never writes the title, the flags, shouldQuit, prevPosition, timing or the previous states. */
  lemma {:induction false} DispatchKeepsFrameFields(s: AppState, events: seq<Event>)
    requires Sized(s.core.keyboard)
    ensures var r := Dispatch(s, events);
      && r.core.timing == s.core.timing
      && r.core.window.title == s.core.window.title
      && r.core.window.flags == s.core.window.flags
      && r.core.window.shouldQuit == s.core.window.shouldQuit
      && r.core.window.prevPosition == s.core.window.prevPosition
      && r.core.keyboard.prevKeyState == s.core.keyboard.prevKeyState
    decreases |events|
  {
    if events != [] {
      DispatchKeepsFrameFields(s, events[..|events| - 1]);
    }
  }

  /** Dispatch adds one to the counter per accepted Press event. */
  lemma {:induction false} DispatchCountsPresses(s: AppState, events: seq<Event>)
    requires Sized(s.core.keyboard)
    ensures Dispatch(s, events).core.keyboard.pressedKeyCount
         == s.core.keyboard.pressedKeyCount + PressCount(events)
    decreases |events|
  {
    if events != [] {
      DispatchCountsPresses(s, events[..|events| - 1]);
    }
  }

  /** After dispatch a key's repeat cell is 1 if the batch repeated it, and otherwise as before. */
  lemma {:induction false} DispatchRepeats(s: AppState, events: seq<Event>, key: int)
    requires Sized(s.core.keyboard) && ValidKey(key)
    ensures Dispatch(s, events).core.keyboard.keyRepeats[key]
         == if RepeatIn(events, key) then 1 else s.core.keyboard.keyRepeats[key]
    decreases |events|
  {
    if events != [] {
      DispatchRepeats(s, events[..|events| - 1], key);
      RepeatInSnoc(events, key);
    }
  }

  /** A key that no event of the batch names keeps its current state and its repeat cell. */
  lemma {:induction false} DispatchUntouchedKey(s: AppState, events: seq<Event>, key: int)
    requires Sized(s.core.keyboard) && 0 <= key < KEYBOARD_KEY_COUNT && !TouchesKey(events, key)
    ensures var r := Dispatch(s, events);
      r.core.keyboard.currKeyState[key] == s.core.keyboard.currKeyState[key]
      && r.core.keyboard.keyRepeats[key] == s.core.keyboard.keyRepeats[key]
    decreases |events|
  {
    if events != [] {
      TouchesKeySnoc(events, key);
      DispatchUntouchedKey(s, events[..|events| - 1], key);
    }
  }

  /** After dispatch the close flag is set exactly when it was set before or the batch requested it. */
  lemma {:induction false} DispatchClose(s: AppState, events: seq<Event>)
    requires Sized(s.core.keyboard)
    ensures Dispatch(s, events).windowShouldClose <==> s.windowShouldClose || CloseIn(events)
    decreases |events|
  {
    if events != [] {
      DispatchClose(s, events[..|events| - 1]);
      CloseInSnoc(events);
    }
  }

  /** Once both screen dimensions are nonzero, no batch of events makes either zero. */
  lemma {:induction false} DispatchScreenStaysNonzero(s: AppState, events: seq<Event>)
    requires Sized(s.core.keyboard)
    requires s.core.window.screen.width != 0 && s.core.window.screen.height != 0
    ensures var r := Dispatch(s, events);
      r.core.window.screen.width != 0 && r.core.window.screen.height != 0
    decreases |events|
  {
    if events != [] {
      DispatchScreenStaysNonzero(s, events[..|events| - 1]);
    }
  }

  lemma DispatchOne(s: AppState, e: Event)
    requires Sized(s.core.keyboard)
    ensures Dispatch(s, [e]) == Step(s, e)
  {
    assert [e][..0] == [];
  }

  // ---------------------------------------------------------------------
  // The poll
  // ---------------------------------------------------------------------

  /** After a poll the previous states are exactly the current states from before the poll. */
  lemma PollSnapshotsPrevious(s: AppState, events: seq<Event>)
    requires Sized(s.core.keyboard)
    ensures Poll(s, events).core.keyboard.prevKeyState == s.core.keyboard.currKeyState
  {
    DispatchKeepsFrameFields(s.(core := s.core.(keyboard := ResetFrame(s.core.keyboard))), events);
  }

  /** After a poll a key's repeat cell is 1 exactly when the batch holds a Repeat of it. */
  lemma PollRepeats(s: AppState, events: seq<Event>, key: int)
    requires Sized(s.core.keyboard) && ValidKey(key)
    ensures Poll(s, events).core.keyboard.keyRepeats[key] == if RepeatIn(events, key) then 1 else 0
  {
    DispatchRepeats(s.(core := s.core.(keyboard := ResetFrame(s.core.keyboard))), events, key);
  }

  /** After a poll the counter is the number of accepted Press events in the batch, not a running total. */
  lemma PollCountsPresses(s: AppState, events: seq<Event>)
    requires Sized(s.core.keyboard)
    ensures Poll(s, events).core.keyboard.pressedKeyCount == PressCount(events)
  {
    DispatchCountsPresses(s.(core := s.core.(keyboard := ResetFrame(s.core.keyboard))), events);
  }

  /** A key no event names is unchanged by a poll, and not repeated. */
  lemma PollUntouchedKey(s: AppState, events: seq<Event>, key: int)
    requires Sized(s.core.keyboard) && 0 <= key < KEYBOARD_KEY_COUNT && !TouchesKey(events, key)
    ensures var r := Poll(s, events).core.keyboard;
      r.currKeyState[key] == s.core.keyboard.currKeyState[key]
      && r.prevKeyState[key] == s.core.keyboard.currKeyState[key]
      && r.keyRepeats[key] == 0
  {
    var reset := s.(core := s.core.(keyboard := ResetFrame(s.core.keyboard)));
    DispatchUntouchedKey(reset, events, key);
    DispatchKeepsFrameFields(reset, events);
  }

  /**
   * After a poll `shouldQuit` records whether the toolkit's flag was set
   * before the poll or during dispatch, and the toolkit's flag is clear.
   */
  lemma PollQuit(s: AppState, events: seq<Event>)
    requires Sized(s.core.keyboard)
    ensures Poll(s, events).core.window.shouldQuit == QuitValue(s.windowShouldClose || CloseIn(events))
    ensures !Poll(s, events).windowShouldClose
  {
    DispatchClose(s.(core := s.core.(keyboard := ResetFrame(s.core.keyboard))), events);
  }

  /** A poll leaves the title, the flags, the previous position and the timing alone. */
  lemma PollKeepsConfiguration(s: AppState, events: seq<Event>)
    requires Sized(s.core.keyboard)
    ensures var r := Poll(s, events);
      && r.core.timing == s.core.timing
      && r.core.window.title == s.core.window.title
      && r.core.window.flags == s.core.window.flags
      && r.core.window.prevPosition == s.core.window.prevPosition
  {
    DispatchKeepsFrameFields(s.(core := s.core.(keyboard := ResetFrame(s.core.keyboard))), events);
  }

  /**
   * SignalClose and then a poll reports the quit; the next poll, with no
   * close request among its events, reports it no longer.
   */
  lemma SignalCloseThenPoll(s: AppState, first: seq<Event>, second: seq<Event>)
    requires Sized(s.core.keyboard) && !CloseIn(second)
    ensures Poll(s.(windowShouldClose := true), first).core.window.shouldQuit == 1
    ensures Poll(Poll(s.(windowShouldClose := true), first), second).core.window.shouldQuit == 0
  {
    PollQuit(s.(windowShouldClose := true), first);
    PollQuit(Poll(s.(windowShouldClose := true), first), second);
  }

  /** A poll without events leaves no edge: previous equals current, nothing repeated, no press counted. */
  lemma PollWithoutEventsSettles(s: AppState)
    requires Sized(s.core.keyboard)
    ensures var k := Poll(s, []).core.keyboard;
      && k.currKeyState == s.core.keyboard.currKeyState
      && k.prevKeyState == k.currKeyState
      && k.keyRepeats == ZeroTable()
      && k.pressedKeyCount == 0
  {
  }

  /**
   * From the zero context: a Press of A is seen as a rising edge with one
   * press counted; the next empty poll keeps A down without an edge; a
   * Release of A in the third poll shows as a falling edge.
   */
  lemma PressHoldReleaseScenario()
    ensures var s1 := Poll(AppState(ZeroContext(), false), [KeyEvent(KEY_A, Press, 0)]);
      var s2 := Poll(s1, []);
      var s3 := Poll(s2, [KeyEvent(KEY_A, Release, 0)]);
      && s1.core.keyboard.currKeyState[KEY_A] == 1 && s1.core.keyboard.prevKeyState[KEY_A] == 0
      && s1.core.keyboard.pressedKeyCount == 1
      && s2.core.keyboard.currKeyState[KEY_A] == 1 && s2.core.keyboard.prevKeyState[KEY_A] == 1
      && s2.core.keyboard.pressedKeyCount == 0
      && s3.core.keyboard.currKeyState[KEY_A] == 0 && s3.core.keyboard.prevKeyState[KEY_A] == 1
  {
    var s0 := AppState(ZeroContext(), false);
    var press := KeyEvent(KEY_A, Press, 0);
    var release := KeyEvent(KEY_A, Release, 0);
    DispatchOne(s0.(core := s0.core.(keyboard := ResetFrame(s0.core.keyboard))), press);
    var s1 := Poll(s0, [press]);
    var s2 := Poll(s1, []);
    PollWithoutEventsSettles(s1);
    DispatchOne(s2.(core := s2.core.(keyboard := ResetFrame(s2.core.keyboard))), release);
  }

  /** Presses of A, B and A again count three: a re-press of a key already down counts too. */
  lemma RepressCounts(s: AppState)
    requires Sized(s.core.keyboard)
    ensures Poll(s, [KeyEvent(KEY_A, Press, 0), KeyEvent(KEY_B, Press, 0), KeyEvent(KEY_A, Press, 0)])
      .core.keyboard.pressedKeyCount == 3
  {
    var events := [KeyEvent(KEY_A, Press, 0), KeyEvent(KEY_B, Press, 0), KeyEvent(KEY_A, Press, 0)];
    PollCountsPresses(s, events);
    assert events[..2][..1] == events[..1];
    assert events[..1][..0] == [];
    assert PressCount(events[..1]) == 1;
    assert PressCount(events[..2]) == 2;
  }
}
