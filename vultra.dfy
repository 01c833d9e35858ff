/**
 * The public header's constants and one-expression macros: the FLAG_*
 * bit operations on an `unsigned int`, STR_NONEMPTY, and the ConfigFlags,
 * LogLevel and KeyboardCode enumerations.
 */
module Vultra {
  import opened CInt

  // ---------------------------------------------------------------------
  // Flag operations. Each macro is one compound assignment or expression
  // on an `unsigned int`; here they are functions returning the new value.
  // ---------------------------------------------------------------------

  /** FLAG_SET(n, f): every bit of f becomes set, every other bit keeps its value. */
  function FlagSet(n: bv32, f: bv32): (r: bv32)
    ensures r & f == f
    ensures r & !f == n & !f
  {
    n | f
  }

  /** FLAG_CLEAR(n, f): every bit of f becomes clear, every other bit keeps its value. */
  function FlagClear(n: bv32, f: bv32): (r: bv32)
    ensures r & f == 0
    ensures r & !f == n & !f
  {
    n & !f
  }

  /** FLAG_TOGGLE(n, f): every bit of f is inverted, every other bit keeps its value. */
  function FlagToggle(n: bv32, f: bv32): (r: bv32)
    ensures r & f == !n & f
    ensures r & !f == n & !f
  {
    n ^ f
  }

  /** FLAG_CHECK(n, f): exactly the bits of f that are set in n. */
  function FlagCheck(n: bv32, f: bv32): (r: bv32)
    ensures r & !f == 0
    ensures r & !n == 0
    ensures (n & f) & !r == 0
  {
    n & f
  }

  lemma SetThenCheck(n: bv32, f: bv32)
    ensures FlagCheck(FlagSet(n, f), f) == f
  {
  }

  lemma ClearThenCheck(n: bv32, f: bv32)
    ensures FlagCheck(FlagClear(n, f), f) == 0
  {
  }

  lemma ToggleTwice(n: bv32, f: bv32)
    ensures FlagToggle(FlagToggle(n, f), f) == n
  {
  }

  /** Setting bits never clears one: whatever was set in n is set afterwards. */
  lemma SetKeepsSetBits(n: bv32, f: bv32)
    ensures FlagSet(n, f) & n == n
  {
  }

  // ---------------------------------------------------------------------
  // STR_NONEMPTY
  // ---------------------------------------------------------------------

  /** STR_NONEMPTY(s): s is not NULL and its first character is not NUL. */
  function StrNonEmpty(s: CString): (r: bool)
    ensures r <==> s.Str? && CharAt(s, 0) != '\0'
    ensures Terminated(s) ==> (r <==> s.Str? && |s.text| > 0)
  {
    s != Null && CharAt(s, 0) != '\0'
  }

  // ---------------------------------------------------------------------
  // ConfigFlags
  // ---------------------------------------------------------------------

  const FLAG_NONE: bv32 := 0
  const FLAG_VSYNC_HINT: bv32 := 1 << 0
  const FLAG_WINDOW_RESIZABLE: bv32 := 1 << 1
  const FLAG_MSAA_HINT: bv32 := 1 << 2

  /** A value with exactly one bit set. */
  predicate SingleBit(b: bv32)
  {
    b != 0 && b & (b - 1) == 0
  }

  /** The three configuration flags are single bits, pairwise disjoint, with values 1, 2, 4. */
  lemma ConfigFlagsAreDistinctBits()
    ensures FLAG_VSYNC_HINT == 1 && FLAG_WINDOW_RESIZABLE == 2 && FLAG_MSAA_HINT == 4
    ensures SingleBit(FLAG_VSYNC_HINT) && SingleBit(FLAG_WINDOW_RESIZABLE) && SingleBit(FLAG_MSAA_HINT)
    ensures FLAG_VSYNC_HINT & FLAG_WINDOW_RESIZABLE == 0
    ensures FLAG_VSYNC_HINT & FLAG_MSAA_HINT == 0
    ensures FLAG_WINDOW_RESIZABLE & FLAG_MSAA_HINT == 0
  {
  }

  // ---------------------------------------------------------------------
  // LogLevel
  // ---------------------------------------------------------------------

  datatype LogLevel = LogAll | LogTrace | LogDebug | LogInfo | LogWarning | LogError | LogFatal | LogNone

  /** The enumerators in declaration order. */
  const LogLevels: seq<LogLevel> := [LogAll, LogTrace, LogDebug, LogInfo, LogWarning, LogError, LogFatal, LogNone]

  /** The C value of an enumerator: LOG_ALL is 0 and each later one is one more. */
  function LogLevelValue(l: LogLevel): (v: nat)
    ensures v < |LogLevels| && LogLevels[v] == l
  {
    match l
    case LogAll => 0
    case LogTrace => 1
    case LogDebug => 2
    case LogInfo => 3
    case LogWarning => 4
    case LogError => 5
    case LogFatal => 6
    case LogNone => 7
  }

  /** Levels increase strictly in declaration order, from LOG_ALL = 0 to LOG_NONE. */
  lemma LogLevelsIncrease()
    ensures forall i, j :: 0 <= i < j < |LogLevels| ==> LogLevelValue(LogLevels[i]) < LogLevelValue(LogLevels[j])
    ensures LogLevelValue(LogAll) == 0
    ensures forall l :: LogLevelValue(l) <= LogLevelValue(LogNone)
  {
    forall i | 0 <= i < |LogLevels| ensures LogLevelValue(LogLevels[i]) == i {
      assert LogLevels[LogLevelValue(LogLevels[i])] == LogLevels[i];
    }
  }

  // ---------------------------------------------------------------------
  // KeyboardCode
  // ---------------------------------------------------------------------

  const KEY_NULL: int := 0
  const KEY_SPACE: int := 32
  const KEY_APOSTROPHE: int := 39
  const KEY_COMMA: int := 44
  const KEY_MINUS: int := 45
  const KEY_PERIOD: int := 46
  const KEY_SLASH: int := 47
  const KEY_ZERO: int := 48
  const KEY_ONE: int := 49
  const KEY_TWO: int := 50
  const KEY_THREE: int := 51
  const KEY_FOUR: int := 52
  const KEY_FIVE: int := 53
  const KEY_SIX: int := 54
  const KEY_SEVEN: int := 55
  const KEY_EIGHT: int := 56
  const KEY_NINE: int := 57
  const KEY_SEMICOLON: int := 59
  const KEY_EQUAL: int := 61
  const KEY_A: int := 65
  const KEY_B: int := 66
  const KEY_C: int := 67
  const KEY_D: int := 68
  const KEY_E: int := 69
  const KEY_F: int := 70
  const KEY_G: int := 71
  const KEY_H: int := 72
  const KEY_I: int := 73
  const KEY_J: int := 74
  const KEY_K: int := 75
  const KEY_L: int := 76
  const KEY_M: int := 77
  const KEY_N: int := 78
  const KEY_O: int := 79
  const KEY_P: int := 80
  const KEY_Q: int := 81
  const KEY_R: int := 82
  const KEY_S: int := 83
  const KEY_T: int := 84
  const KEY_U: int := 85
  const KEY_V: int := 86
  const KEY_W: int := 87
  const KEY_X: int := 88
  const KEY_Y: int := 89
  const KEY_Z: int := 90
  const KEY_LEFT_BRACKET: int := 91
  const KEY_BACKSLASH: int := 92
  const KEY_RIGHT_BRACKET: int := 93
  const KEY_GRAVE: int := 96
  const KEY_ESCAPE: int := 256
  const KEY_ENTER: int := 257
  const KEY_TAB: int := 258
  const KEY_BACKSPACE: int := 259
  const KEY_INSERT: int := 260
  const KEY_DELETE: int := 261
  const KEY_RIGHT: int := 262
  const KEY_LEFT: int := 263
  const KEY_DOWN: int := 264
  const KEY_UP: int := 265
  const KEY_PAGE_UP: int := 266
  const KEY_PAGE_DOWN: int := 267
  const KEY_HOME: int := 268
  const KEY_END: int := 269
  const KEY_CAPS_LOCK: int := 280
  const KEY_SCROLL_LOCK: int := 281
  const KEY_NUM_LOCK: int := 282
  const KEY_PRINT_SCREEN: int := 283
  const KEY_PAUSE: int := 284
  const KEY_F1: int := 290
  const KEY_F2: int := 291
  const KEY_F3: int := 292
  const KEY_F4: int := 293
  const KEY_F5: int := 294
  const KEY_F6: int := 295
  const KEY_F7: int := 296
  const KEY_F8: int := 297
  const KEY_F9: int := 298
  const KEY_F10: int := 299
  const KEY_F11: int := 300
  const KEY_F12: int := 301
  const KEY_LEFT_SHIFT: int := 340
  const KEY_LEFT_CONTROL: int := 341
  const KEY_LEFT_ALT: int := 342
  const KEY_LEFT_SUPER: int := 343
  const KEY_RIGHT_SHIFT: int := 344
  const KEY_RIGHT_CONTROL: int := 345
  const KEY_RIGHT_ALT: int := 346
  const KEY_RIGHT_SUPER: int := 347
  const KEY_KB_MENU: int := 348
  const KEY_NUM_0: int := 320
  const KEY_NUM_1: int := 321
  const KEY_NUM_2: int := 322
  const KEY_NUM_3: int := 323
  const KEY_NUM_4: int := 324
  const KEY_NUM_5: int := 325
  const KEY_NUM_6: int := 326
  const KEY_NUM_7: int := 327
  const KEY_NUM_8: int := 328
  const KEY_NUM_9: int := 329
  const KEY_NUM_DOT: int := 330
  const KEY_NUM_SLASH: int := 331
  const KEY_NUM_MUL: int := 332
  const KEY_NUM_MINUS: int := 333
  const KEY_NUM_PLUS: int := 334
  const KEY_NUM_ENTER: int := 335
  const KEY_NUM_EQUAL: int := 336

  /** The enumerators of KeyboardCode, group by group as the header lists them. */
  const DigitAndPunctuationKeys: seq<int> := [
    KEY_SPACE, KEY_APOSTROPHE, KEY_COMMA, KEY_MINUS, KEY_PERIOD, KEY_SLASH, KEY_ZERO, KEY_ONE,
    KEY_TWO, KEY_THREE, KEY_FOUR, KEY_FIVE, KEY_SIX, KEY_SEVEN, KEY_EIGHT, KEY_NINE, KEY_SEMICOLON,
    KEY_EQUAL
  ]
  const LetterKeys: seq<int> := [
    KEY_A, KEY_B, KEY_C, KEY_D, KEY_E, KEY_F, KEY_G, KEY_H, KEY_I, KEY_J, KEY_K, KEY_L, KEY_M,
    KEY_N, KEY_O, KEY_P, KEY_Q, KEY_R, KEY_S, KEY_T, KEY_U, KEY_V, KEY_W, KEY_X, KEY_Y, KEY_Z
  ]
  const BracketKeys: seq<int> := [
    KEY_LEFT_BRACKET, KEY_BACKSLASH, KEY_RIGHT_BRACKET, KEY_GRAVE
  ]
  const CharKeys: seq<int> := DigitAndPunctuationKeys + LetterKeys + BracketKeys
  const SystemKeys: seq<int> := [
    KEY_ESCAPE, KEY_ENTER, KEY_TAB, KEY_BACKSPACE, KEY_INSERT, KEY_DELETE
  ]
  const NavigationKeys: seq<int> := [
    KEY_RIGHT, KEY_LEFT, KEY_DOWN, KEY_UP, KEY_PAGE_UP, KEY_PAGE_DOWN, KEY_HOME, KEY_END
  ]
  const LockKeys: seq<int> := [
    KEY_CAPS_LOCK, KEY_SCROLL_LOCK, KEY_NUM_LOCK
  ]
  const MiscKeys: seq<int> := [
    KEY_PRINT_SCREEN, KEY_PAUSE
  ]
  const FunctionKeys: seq<int> := [
    KEY_F1, KEY_F2, KEY_F3, KEY_F4, KEY_F5, KEY_F6, KEY_F7, KEY_F8, KEY_F9, KEY_F10, KEY_F11,
    KEY_F12
  ]
  const ModifierKeys: seq<int> := [
    KEY_LEFT_SHIFT, KEY_LEFT_CONTROL, KEY_LEFT_ALT, KEY_LEFT_SUPER, KEY_RIGHT_SHIFT,
    KEY_RIGHT_CONTROL, KEY_RIGHT_ALT, KEY_RIGHT_SUPER, KEY_KB_MENU
  ]
  const NumpadKeys: seq<int> := [
    KEY_NUM_0, KEY_NUM_1, KEY_NUM_2, KEY_NUM_3, KEY_NUM_4, KEY_NUM_5, KEY_NUM_6, KEY_NUM_7,
    KEY_NUM_8, KEY_NUM_9, KEY_NUM_DOT, KEY_NUM_SLASH, KEY_NUM_MUL, KEY_NUM_MINUS, KEY_NUM_PLUS,
    KEY_NUM_ENTER, KEY_NUM_EQUAL
  ]

  /** Every enumerator of KeyboardCode, in declaration order. */
  const KeyboardCodes: seq<int> := [KEY_NULL] + CharKeys + SystemKeys + NavigationKeys + LockKeys + MiscKeys + FunctionKeys + ModifierKeys + NumpadKeys

  /** All values of s lie in [lo, hi]. */
  predicate AllWithin(s: seq<int>, lo: int, hi: int)
  {
    forall i :: 0 <= i < |s| ==> lo <= s[i] <= hi
  }

  lemma AllWithinAppend(a: seq<int>, b: seq<int>, lo: int, hi: int)
    requires AllWithin(a, lo, hi) && AllWithin(b, lo, hi)
    ensures AllWithin(a + b, lo, hi)
  {
    forall i | 0 <= i < |a + b| ensures lo <= (a + b)[i] <= hi {
      if i >= |a| {
        assert (a + b)[i] == b[i - |a|];
      }
    }
  }

  lemma CharKeysBounded()
    ensures AllWithin(CharKeys, KEY_NULL, KEY_KB_MENU)
  {
    assert AllWithin(DigitAndPunctuationKeys, KEY_NULL, KEY_KB_MENU);
    assert AllWithin(LetterKeys, KEY_NULL, KEY_KB_MENU);
    assert AllWithin(BracketKeys, KEY_NULL, KEY_KB_MENU);
    AllWithinAppend(DigitAndPunctuationKeys, LetterKeys, KEY_NULL, KEY_KB_MENU);
    AllWithinAppend(DigitAndPunctuationKeys + LetterKeys, BracketKeys, KEY_NULL, KEY_KB_MENU);
  }

  /** Every key code lies between KEY_NULL and KEY_KB_MENU, and KEY_KB_MENU is one of them. */
  lemma KeyboardCodesBounded()
    ensures AllWithin(KeyboardCodes, KEY_NULL, KEY_KB_MENU)
    ensures KEY_KB_MENU in KeyboardCodes
  {
    var lo, hi := KEY_NULL, KEY_KB_MENU;
    CharKeysBounded();
    assert AllWithin(SystemKeys, lo, hi);
    assert AllWithin(NavigationKeys, lo, hi);
    assert AllWithin(LockKeys, lo, hi);
    assert AllWithin(MiscKeys, lo, hi);
    assert AllWithin(FunctionKeys, lo, hi);
    assert AllWithin(ModifierKeys, lo, hi);
    assert AllWithin(NumpadKeys, lo, hi);
    var acc := [KEY_NULL];
    AllWithinAppend(acc, CharKeys, lo, hi);
    acc := acc + CharKeys;
    AllWithinAppend(acc, SystemKeys, lo, hi);
    acc := acc + SystemKeys;
    AllWithinAppend(acc, NavigationKeys, lo, hi);
    acc := acc + NavigationKeys;
    AllWithinAppend(acc, LockKeys, lo, hi);
    acc := acc + LockKeys;
    AllWithinAppend(acc, MiscKeys, lo, hi);
    acc := acc + MiscKeys;
    AllWithinAppend(acc, FunctionKeys, lo, hi);
    acc := acc + FunctionKeys;
    AllWithinAppend(acc, ModifierKeys, lo, hi);
    acc := acc + ModifierKeys;
    assert KEY_KB_MENU == ModifierKeys[8];
    assert acc[|acc| - 1] == KEY_KB_MENU;
    AllWithinAppend(acc, NumpadKeys, lo, hi);
    acc := acc + NumpadKeys;
    assert acc == KeyboardCodes;
  }
}
