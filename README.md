# Vultra window and keyboard state, modelled in Dafny

Vultra is an early-stage windowing and input layer meant to sit under a Vulkan
renderer. Its one piece of real logic is the per-frame keyboard and window
state machine. This state lives in one global `CoreContext`. The toolkit
(GLFW) callbacks write it, and `PollInputEvents` snapshots it once per frame.

The model has six modules:

- `CInt` (`cint.dfy`): C `int` and `unsigned int` as `int32` and `uint32`.
  The cast `(unsigned int)x` and the wrapping `++` on an unsigned counter are
  written out. A `const char *` is `CString`, either `Null` or `Str(text)`.
- `Vultra` (`vultra.dfy`): the public header. It has the `FLAG_*` macros as
  functions on `bv32`, `STR_NONEMPTY`, `ConfigFlags`, `LogLevel` and every
  `KeyboardCode` constant.
- `Context` (`vcore_context.dfy`): the context. `CoreContext` is a class. Its
  `window` and `timing` groups are value fields, because they are plain C
  structs. Its three key tables are fixed `array<bv8>` fields of
  `KEYBOARD_KEY_COUNT` = 512 cells, and it has the `pressedKeyCount`
  counter. `State()` gives the whole context as a `CoreState` value. `Valid()`
  says the three tables are distinct, 512 cells long, and hold only 0 or 1.
- `Glfw` (`vcore_glfw.dfy`): the platform layer.
  - The pure functions `OnKey`, `OnResize`, `OnMove`, `Step`, `Dispatch`,
    `ResetFrame` and `Poll` give each operation's effect on the state.
  - The methods `KeyCallback`, `FramebufferSizeCallback`, `WindowPosCallback`,
    `PollEvents` and `PollInputEvents` act on the objects. Each is proved to
    move the objects exactly as its function says. `SignalClose` and
    `SetWindowTitle` each write one field, and their postconditions give the
    new value outright.
  - The toolkit's window-should-close flag is the one field of class
    `Platform`.
  - The toolkit's event dispatch (`glfwPollEvents`) is a parameter: the list
    of events it hands to the callbacks, in order.
- `GlfwProperties` (`glfw_properties.dfy`): what one key event does; what a
  dispatched batch does to the repeat cells, the press counter and the close
  flag; and what a whole poll guarantees. It also holds three scenarios: press, hold
  and release; a re-press counted twice; close signalled and then cleared.
- `VCore` (`vcore.dfy`): `InitWindow`'s field setup, `SetConfigFlags`,
  `BeginDrawing` and `EndDrawing`. It also has a client method that drives the
  demo's main loop by hand.

Two points of the key callback (src/platforms/vcore_glfw.c:244-283) need a
note:

- The filter is commented "Filter invalid key codes", but it rejects only
  negative codes, and a code of 512 or more writes past the tables. The model
  keeps this behaviour in `Glfw.OnKeyAsWritten`. `Glfw.OnKey` and
  `Glfw.KeyCallback`, which the rest of the model builds on, use the corrected
  filter `0 <= key < 512` (see Findings).
- A Repeat writes only `keyRepeats`. The Caps Lock / Num Lock override after
  the switch still applies, so a Repeat of a lock key with its lock bit set
  sets the current state. The model does the same
  (`GlfwProperties.RepeatMarksKey`).

## Model

| member | source | states |
|---|---|---|
| CInt.ToUnsigned | src/platforms/vcore_glfw.c:228-229 | `(unsigned int)x` keeps a non-negative value and adds 2^32 to a negative one |
| CInt.Increment | src/vcore.c:126 | `++` on an unsigned counter adds one, and wraps from 2^32-1 to 0 |
| CInt.CharAt | include/vultra/vultra.h:126 | `s[i]` on a C string reads the NUL at the end; in a terminated string only there |
| Vultra.FlagSet | include/vultra/vultra.h:120 | every bit of `f` is set afterwards; every bit outside `f` keeps its value |
| Vultra.FlagClear | include/vultra/vultra.h:121 | every bit of `f` is clear afterwards; every bit outside `f` keeps its value |
| Vultra.FlagToggle | include/vultra/vultra.h:122 | the bits of `f` are inverted; every bit outside `f` keeps its value |
| Vultra.FlagCheck | include/vultra/vultra.h:123 | the result holds exactly the bits of `f` that are set in `n` |
| Vultra.SetThenCheck | include/vultra/vultra.h:120-123 | after FLAG_SET, FLAG_CHECK of the same bits gives back all of `f`, for every `n` and `f` (so it is nonzero when `f` is) |
| Vultra.ClearThenCheck | include/vultra/vultra.h:121-123 | after FLAG_CLEAR, FLAG_CHECK of the same bits is zero |
| Vultra.ToggleTwice | include/vultra/vultra.h:122 | toggling the same bits twice restores the value |
| Vultra.SetKeepsSetBits | include/vultra/vultra.h:120 | FLAG_SET never clears a bit that was set |
| Vultra.StrNonEmpty | include/vultra/vultra.h:126 | true exactly when the pointer is non-null and its first character is not NUL; for a terminated string, exactly when it is non-null and non-empty |
| Vultra.ConfigFlagsAreDistinctBits | include/vultra/vultra.h:150-156 | the three flags are the single bits 1, 2 and 4, pairwise disjoint |
| Vultra.LogLevelValue | include/vultra/vultra.h:159-169 | each level's value is its position in declaration order, starting at LOG_ALL = 0 |
| Vultra.LogLevelsIncrease | include/vultra/vultra.h:159-169 | levels increase strictly from LOG_ALL = 0, and LOG_NONE is the largest |
| Vultra.KeyboardCodesBounded | include/vultra/vultra.h:172-296 | every KeyboardCode lies in [KEY_NULL, KEY_KB_MENU], and KEY_KB_MENU = 348 is one of them |
| Context.ZeroTable | src/vcore.c:49 | a zero-initialised key table has 512 cells, all 0 |
| Context.ZeroContext | src/vcore.c:49 | the zero-initialised context has well-formed tables whose every cell is 0, a zero counter, `shouldQuit` 0, a NULL title, no flags and a zero frame counter |
| Context.CoreContext.constructor | src/vcore_context.h:44-82 | a fresh context is valid (three distinct 512-cell tables holding only 0/1) and equals the zero context |
| Glfw.OnKey | src/platforms/vcore_glfw.c:244-283 | one key event keeps the tables at 512 cells, keeps every cell 0/1, and never writes the previous-state table; it uses the corrected filter `0 <= key < 512` (see Findings) |
| Glfw.OnKeyAsWritten | src/platforms/vcore_glfw.c:250-283 | the callback with the filter as written goes out of bounds exactly for codes of 512 and up with Release, Press or Repeat; wherever it is defined it gives the same tables as OnKey |
| Glfw.OnResize | src/platforms/vcore_glfw.c:221-232 | only the screen may change; a zero width or height leaves it alone; otherwise both screen fields get the converted sizes; a nonzero screen stays nonzero |
| Glfw.OnMove | src/platforms/vcore_glfw.c:234-242 | the position becomes (x, y); the previous position, the screen size, the title, the flags and `shouldQuit` are untouched |
| Glfw.Step | src/platforms/vcore_glfw.c:139-141 | delivering one event to its callback keeps the tables sized and 0/1 |
| Glfw.Dispatch | src/platforms/vcore_glfw.c:299 | delivering a batch of events in order keeps the tables sized and 0/1 |
| Glfw.ResetFrame | src/platforms/vcore_glfw.c:288-296 | the start of a poll turns 0/1 current states into a well-formed keyboard |
| Glfw.Poll | src/platforms/vcore_glfw.c:285-304 | after a poll the tables are well formed and the toolkit's close flag is clear |
| Glfw.KeyCallback | src/platforms/vcore_glfw.c:244-283 | the context changes exactly as OnKey says, with the corrected filter; no other field or table is written; the context stays valid |
| Glfw.FramebufferSizeCallback | src/platforms/vcore_glfw.c:221-232 | the window group changes exactly as OnResize says |
| Glfw.WindowPosCallback | src/platforms/vcore_glfw.c:234-242 | the window group changes exactly as OnMove says |
| Glfw.SignalClose | src/platforms/vcore_glfw.c:155-159 | sets the toolkit's window-should-close flag; the context is not touched |
| Glfw.SetWindowTitle | src/platforms/vcore_glfw.c:174-179 | the title pointer is stored, whatever it is; nothing else changes |
| Glfw.PollEvents | src/platforms/vcore_glfw.c:299 | the objects move exactly as Dispatch says for the delivered events, and the context stays valid |
| Glfw.PollInputEvents | src/platforms/vcore_glfw.c:285-304 | the 512-step loop copies the current states into the previous ones and clears the repeats; then the counter is cleared, events are dispatched, and the close flag is moved into `shouldQuit`; the result equals Poll |
| GlfwProperties.OutOfRangeKeyIgnored | src/platforms/vcore_glfw.c:250-251 | a key code outside [0, 512) leaves every table and the counter unchanged |
| GlfwProperties.ReleaseClearsKey | src/platforms/vcore_glfw.c:255-259 | Release sets the key's current state to 0 (1 if the lock override applies) and changes nothing else |
| GlfwProperties.PressSetsKeyAndCounts | src/platforms/vcore_glfw.c:261-266 | Press sets the key's current state to 1 and adds exactly one to the counter, even if the key was down |
| GlfwProperties.RepeatMarksKey | src/platforms/vcore_glfw.c:268-272 | Repeat sets the key's repeat cell to 1; the current state changes only by the lock override; the counter never changes |
| GlfwProperties.OtherActionOnlyLocks | src/platforms/vcore_glfw.c:274-282 | any other action applies only the lock override |
| GlfwProperties.OnlyLockKeysForced | src/platforms/vcore_glfw.c:277-279 | only Caps Lock (280) and Num Lock (282) can be forced, and both index the tables |
| GlfwProperties.LockOverrideWins | src/platforms/vcore_glfw.c:277-282 | a lock key whose modifier bit is set is down after the callback, whatever the action, Release included |
| GlfwProperties.KeyEventIsLocal | src/platforms/vcore_glfw.c:253-282 | a key event changes no other key's current or repeat cell, and never the previous-state table |
| GlfwProperties.AsWrittenWritesPastTables | src/platforms/vcore_glfw.c:250-272 | the filter as written accepts key code 512, which is not a table index, and a Release, Press or Repeat of it writes past the tables |
| GlfwProperties.FiltersAgreeOnTableIndices | src/platforms/vcore_glfw.c:251 | the model's filter accepts a code exactly when the original filter does and the code is below 512 |
| GlfwProperties.KeyboardCodesAreValidKeys | include/vultra/vultra.h:172-296 | every KeyboardCode passes both filters, so each one indexes the tables |
| GlfwProperties.DispatchKeepsFrameFields | src/platforms/vcore_glfw.c:221-282 | no callback writes the title, the flags, `shouldQuit`, the previous position, the timing or the previous-state table |
| GlfwProperties.DispatchCountsPresses | src/platforms/vcore_glfw.c:261-266 | a batch adds to the counter exactly its number of Press events with accepted codes |
| GlfwProperties.DispatchRepeats | src/platforms/vcore_glfw.c:268-272 | after a batch a key's repeat cell is 1 if the batch holds a Repeat of it, and otherwise as before |
| GlfwProperties.DispatchUntouchedKey | src/platforms/vcore_glfw.c:253-282 | a key that no event of the batch names keeps its current state and its repeat cell |
| GlfwProperties.DispatchClose | src/platforms/vcore_glfw.c:155-159 | after a batch the close flag is set exactly when it was set before or the batch holds a close request |
| GlfwProperties.DispatchScreenStaysNonzero | src/platforms/vcore_glfw.c:226-229 | once both screen dimensions are nonzero, no batch of events makes either zero |
| GlfwProperties.PollSnapshotsPrevious | src/platforms/vcore_glfw.c:288-293 | after a poll every previous state equals the current state from before the poll |
| GlfwProperties.PollRepeats | src/platforms/vcore_glfw.c:288-299 | after a poll a key's repeat cell is 1 exactly when the batch holds a Repeat of it, and 0 otherwise |
| GlfwProperties.PollCountsPresses | src/platforms/vcore_glfw.c:296-299 | after a poll the counter equals the number of accepted Press events in the batch; it is not a running total |
| GlfwProperties.PollUntouchedKey | src/platforms/vcore_glfw.c:288-299 | a key no event names keeps its state through a poll, is recorded as previous, and is not repeated |
| GlfwProperties.PollQuit | src/platforms/vcore_glfw.c:301-303 | after a poll `shouldQuit` is 1 exactly when the close flag was set before the poll or during dispatch, and the flag is clear |
| GlfwProperties.PollKeepsConfiguration | src/platforms/vcore_glfw.c:285-304 | a poll leaves the title, the flags, the previous position and the timing alone |
| GlfwProperties.SignalCloseThenPoll | src/platforms/vcore_glfw.c:155-159 | SignalClose and then a poll gives `shouldQuit` 1; a second poll with no close request gives 0 |
| GlfwProperties.PollWithoutEventsSettles | src/platforms/vcore_glfw.c:288-296 | a poll with no events leaves no edge: previous equals current, no repeats and a zero counter |
| GlfwProperties.PressHoldReleaseScenario | src/platforms/vcore_glfw.c:255-293 | from the zero context, Press A gives a rising edge and a count of 1; an empty poll keeps A down with no edge; Release A gives a falling edge |
| GlfwProperties.RepressCounts | src/platforms/vcore_glfw.c:261-266 | Press A, Press B, Press A in one frame count 3 |
| VCore.InitWindowFields | src/vcore.c:66-71 | the screen gets the converted width and height; the title is replaced only by a non-empty string; the flags, `shouldQuit` and the positions are kept |
| VCore.InitWindow | src/vcore.c:60-71 | the window group changes exactly as InitWindowFields says; nothing else is written |
| VCore.InitWindowKeepsTitleUnlessNonEmpty | src/vcore.c:68-71 | a NULL or empty title keeps the old title; a non-empty one replaces it |
| VCore.SetConfigFlags | src/vcore.c:111-115 | the flags become FLAG_SET of the old flags and the argument; nothing else changes |
| VCore.ConfigFlagsAccumulate | src/vcore.c:112-115 | every flag set before stays set, and every requested flag is set afterwards |
| VCore.BeginDrawing | src/vcore.c:117-120 | no field of the context and no cell of its tables changes |
| VCore.EndFrameTiming | src/vcore.c:125-126 | the last frame time becomes 0, the frame counter grows by one with 32-bit wrap-around, and the target FPS is kept |
| VCore.EndFrame | src/vcore.c:122-129 | the timing update followed by one poll keeps the tables well formed and leaves the toolkit's close flag clear; EndFrameCountsOneFrame and EndFrameQuit give its counter, tables and quit flag |
| VCore.EndDrawing | src/vcore.c:122-129 | the objects move as EndFrame says; afterwards ShouldQuit (src/platforms/vcore_glfw.c:168-172) is true exactly when close was signalled before the frame or requested during its poll, and the toolkit's flag is clear |
| VCore.EndFrameCountsOneFrame | src/vcore.c:122-129 | after EndDrawing the frame counter has grown by exactly one, the last frame time is 0, and the tables show a fresh poll (previous = old current, counter = presses in the batch) |
| VCore.EndFrameQuit | src/vcore.c:128 | after EndDrawing `shouldQuit` is 1 exactly when close was signalled before it or requested during its poll, and the toolkit's flag is clear |
| VCore.BasicWindowSession | examples/core/window.c:19-36 | the demo's loop, with Escape pressed during the first frame, runs exactly two frames: the second sees Escape down, signals close, and its EndDrawing makes ShouldQuit true |
| VCore.EndFrameSinglePress | src/vcore.c:128 | a frame whose only event is a Press of a valid key leaves that key down, and its previous state is what it was before |

## Left out

- Window creation through GLFW is not modelled. That covers `InitPlatform`,
  `ClosePlatform`, `CloseWindow`, the window hints, the Vulkan support check,
  the callback registration and `ErrorCallback`. All of these are foreign
  calls or logging. `InitWindow` is modelled only up to its field setup. Its
  call into the platform start and into the Vulkan initialisation is left
  out.
- `GetScreenWidth`, `GetScreenHeight`, `GetWindowHandle` and
  `ExtensionCallback` are not modelled: they only query the toolkit.
  `SwapBuffers` and `WaitTime` are not modelled: they are empty.
- `SetWindowTitle`: only the stored pointer is modelled. The toolkit's own
  title update is a foreign call.
- The memory allocator wrappers, Vulkan (`vvul.h`), logging (`vutils.c`,
  `vutils.h`) and the export macros (`vapi.h`) are plumbing with no state of
  this core.
- `SetTargetFPS` is not modelled: it computes in floating point. The doubles
  `lastFrameTime` and `targetFPS` are reals; the model only ever writes 0
  into `lastFrameTime`.
- `GetFrameTime`, `GetFPS` and `ClearBackground` are not modelled: they are
  unimplemented stubs.
- The key queries `IsKeyDown`, `IsKeyPressed`, `IsKeyReleased` and the rest
  are only declared; their bodies are not part of this model. The scenarios
  state edges directly over the table cells (current 1, previous 0, and so
  on). `BasicWindowSession` reads the Escape cell itself where the demo calls
  `IsKeyDown`.
- The `action` argument is the four-way datatype `Action`. GLFW's integer
  values for Release, Press and Repeat come from `glfw3.h`, which is not part
  of this model.
- The lock modifier bits are `MOD_CAPS_LOCK` = 0x10 and `MOD_NUM_LOCK` = 0x20,
  the GLFW 3.4 values. `glfw3.h` is not part of this model, and the lemmas
  rely only on these being distinct nonzero bits.
- The window handle and the `scancode` argument are not modelled: the
  callbacks never use them.
- `GlfwProperties.PressSetsKeyAndCounts`: `pressedKeyCount` is an unbounded
  integer. The C `int` could overflow after 2^31 presses in one frame, which
  is undefined behaviour, and the model does not capture that.
- `KEYBOARD_KEY_COUNT` can be predefined by the build. The model fixes it at
  its default of 512.
- GLFW's blocking and the order in which it delivers events are not
  modelled. Any list of events is allowed.

## Findings

| source | as written | input that shows it | evidently intended | confidence | as-written member | corrected member |
|---|---|---|---|---|---|---|
| src/platforms/vcore_glfw.c:251 | the key callback rejects only codes below `KEY_NULL`, then writes `currKeyState[key]` or `keyRepeats[key]` in tables of 512 cells | key code 512 (or any code ≥ 512) passes the filter, and a Release, Press or Repeat of it writes past the end of a table | reject every code outside [0, 512), that is, every code that does not index the tables | not executed; GLFW 3.4 never delivers codes above 348, so this is latent | GlfwProperties.AsWrittenWritesPastTables | GlfwProperties.OutOfRangeKeyIgnored |
