/** Shared constants of the dashboard (src/Constants.h, src/Terminal.h,
    src/ScreenManager.h, src/Log.h), the ncurses key codes the engine
    compares against, and the C integer operations the model needs. */
module Constants {

  // --- Layout and card geometry (src/Constants.h) ---
  const METRIC_CARD_HEIGHT: int := 12
  /** Minimum card width; the header comment claims 20, the value is 40. */
  const METRIC_MIN_WIDTH: int := 40
  const SIDEBAR_DEFAULT_WIDTH: int := 35
  const SIDEBAR_MIN_WIDTH: int := 20
  const MAIN_PANEL_MIN_WIDTH: int := 30

  /** Number of chart colour slots (src/Terminal.h). */
  const CHART_PALETTE_SIZE: int := 10

  // --- Handler results, a bit set (src/ScreenManager.h) ---
  const HANDLED: nat := 0x01
  const IGNORED: nat := 0x02
  const BREAK_LOOP: nat := 0x04
  const REFRESH: nat := 0x08
  const REDRAW: nat := 0x10
  const RESIZE: nat := 0x40

  /** `result & HANDLED` in C. */
  predicate IsHandled(result: nat) {
    result % 2 == 1
  }

  // --- Log levels (src/Log.h) ---
  const LOG_LEVEL_EMERG: int := 1
  const LOG_LEVEL_ALERT: int := 2
  const LOG_LEVEL_CRIT: int := 3
  const LOG_LEVEL_ERROR: int := 4
  const LOG_LEVEL_WARN: int := 5
  const LOG_LEVEL_NOTICE: int := 6
  const LOG_LEVEL_INFO: int := 7
  const LOG_LEVEL_DEBUG: int := 8

  // --- ncurses key codes ---
  const ERR: int := -1
  const KEY_DOWN: int := 258
  const KEY_UP: int := 259
  const KEY_LEFT: int := 260
  const KEY_RIGHT: int := 261
  const KEY_HOME: int := 262
  const KEY_NPAGE: int := 338
  const KEY_PPAGE: int := 339
  const KEY_END: int := 360
  const KEY_RESIZE: int := 410
  const KEY_TAB: int := 9
  const KEY_CTRL_L: int := 12

  /** The code of an ASCII character key. */
  function Ch(c: char): int {
    c as int
  }

  // --- C integer arithmetic ---

  function Max(a: int, b: int): int {
    if a > b then a else b
  }

  function Min(a: int, b: int): int {
    if a < b then a else b
  }

  /** The CLAMP macro of src/Panel.c: MIN(MAX(x, lo), hi). */
  function Clamp(x: int, lo: int, hi: int): (r: int)
    ensures lo <= hi ==> lo <= r <= hi
    ensures lo <= x <= hi ==> r == x
  {
    Min(Max(x, lo), hi)
  }

  /** C integer division, which truncates toward zero. */
  function CDiv(a: int, b: int): (q: int)
    requires b != 0
    ensures a >= 0 && b > 0 ==> q == a / b
    ensures (a >= 0) == (b > 0) || a == 0 ==> q >= 0
    ensures (a >= 0) != (b > 0) ==> q <= 0
  {
    if a >= 0 then (if b > 0 then a / b else -(a / -b))
    else (if b > 0 then -((-a) / b) else (-a) / (-b))
  }

  /** C's (int) cast of a double: truncation toward zero. */
  function Trunc(r: real): (n: int)
    ensures r >= 0.0 ==> 0 <= n && n as real <= r < n as real + 1.0
    ensures r < 0.0 ==> n <= 0 && n as real - 1.0 < r <= n as real
  {
    if r >= 0.0 then r.Floor else -((-r).Floor)
  }
}
