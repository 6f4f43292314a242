/** LogViewer: prints the last lines of a run's log file, optionally only
    those at or above a severity, with the level coloured by ANSI escape
    codes. The file is given as the lines getline returns, or `None` when
    it cannot be opened; what is printed is returned as text. */
module LogViewer {
  import opened Wrappers
  import opened Text

  const ESC: char := 27 as char

  /** An ANSI "select graphic rendition" sequence: ESC [ code m. */
  function Sgr(code: string): string {
    [ESC] + "[" + code + "m"
  }

  const RESET: string := Sgr("0")
  const RED: string := Sgr("31")
  const GREEN: string := Sgr("32")
  const YELLOW: string := Sgr("33")
  const BLUE: string := Sgr("34")
  const MAGENTA: string := Sgr("35")
  const GRAY: string := Sgr("90")
  const BOLD: string := Sgr("1")

  /** The syslog-style level names of Log.h, most severe first: the name
      of level k is LEVEL_NAMES[k - 1]. */
  const LEVEL_NAMES: seq<string> := ["EMERG", "ALERT", "CRIT", "ERROR", "WARN", "NOTICE", "INFO", "DEBUG"]

  /** char level_str[16]. */
  const LEVEL_BUFFER: nat := 16

  /** get_level_value: 1 (EMERG) to 8 (DEBUG) for a known name, -1 otherwise. */
  function LevelValue(level: string): (r: int)
    ensures r == -1 || 1 <= r <= |LEVEL_NAMES|
    ensures r == -1 <==> level !in LEVEL_NAMES
    ensures r != -1 ==> LEVEL_NAMES[r - 1] == level
  {
    if level == "EMERG" then 1
    else if level == "ALERT" then 2
    else if level == "CRIT" then 3
    else if level == "ERROR" then 4
    else if level == "WARN" then 5
    else if level == "NOTICE" then 6
    else if level == "INFO" then 7
    else if level == "DEBUG" then 8
    else -1
  }

  /** The colour of each severity: bold red for the three most severe,
      then red, yellow, magenta, green and blue; reset for anything else. */
  function SeverityColor(v: int): string {
    if 1 <= v <= 3 then BOLD + RED
    else if v == 4 then RED
    else if v == 5 then YELLOW
    else if v == 6 then MAGENTA
    else if v == 7 then GREEN
    else if v == 8 then BLUE
    else RESET
  }

  /** get_level_color. */
  function LevelColor(level: string): (r: string)
    ensures r == SeverityColor(LevelValue(level))
  {
    if level == "EMERG" then BOLD + RED
    else if level == "ALERT" then BOLD + RED
    else if level == "CRIT" then BOLD + RED
    else if level == "ERROR" then RED
    else if level == "WARN" then YELLOW
    else if level == "NOTICE" then MAGENTA
    else if level == "INFO" then GREEN
    else if level == "DEBUG" then BLUE
    else RESET
  }

  /** Each level name reads back as its own number. */
  lemma LevelNamesRoundTrip(k: int)
    requires 1 <= k <= |LEVEL_NAMES|
    ensures LevelValue(LEVEL_NAMES[k - 1]) == k
  {
  }

  /** The first '[' and the first ']' of a line, when both exist and the
      ']' comes after the '['. */
  function Brackets(line: string): (r: Option<(nat, nat)>)
    ensures r.Some? <==> '[' in line && ']' in line && IndexOf(line, ']').value > IndexOf(line, '[').value
    ensures r.Some? ==> r.value.0 < r.value.1 < |line| && line[r.value.0] == '[' && line[r.value.1] == ']'
    ensures r.Some? ==> '[' !in line[..r.value.0] && ']' !in line[..r.value.1]
  {
    match (IndexOf(line, '['), IndexOf(line, ']'))
    case (Some(o), Some(c)) => if c > o then Some((o, c)) else None
    case _ => None
  }

  /**
   * should_show_line. With no filter (-1) every line is shown, and so is
   * every line without a bracketed level; otherwise the level copied out
   * of the brackets (at most 15 characters) must be known and no less
   * severe than `minLevel`.
   */
  function ShouldShow(line: string, minLevel: int): bool
  {
    if minLevel == -1 then true
    else match Brackets(line)
      case None => true
      case Some((o, c)) =>
        var len := if c - o - 1 >= LEVEL_BUFFER then LEVEL_BUFFER - 1 else c - o - 1;
        var v := LevelValue(line[o + 1..o + 1 + len]);
        v != -1 && v <= minLevel
  }

  /** The filter by names: a bracketed line passes a filter exactly when
      its whole level is one of the names of severity 1 to `minLevel`
      (the name of severity k + 1 is LEVEL_NAMES[k]). */
  lemma ShouldShowNames(line: string, minLevel: int)
    requires minLevel != -1 && Brackets(line).Some?
    ensures ShouldShow(line, minLevel) <==>
              exists k :: 0 <= k < minLevel && k < |LEVEL_NAMES|
                          && line[Brackets(line).value.0 + 1..Brackets(line).value.1] == LEVEL_NAMES[k]
  {
    var (o, c) := Brackets(line).value;
    var level := line[o + 1..c];
    if c - o - 1 >= LEVEL_BUFFER {
      var cut := line[o + 1..o + LEVEL_BUFFER];
      assert |cut| == LEVEL_BUFFER - 1;
      assert cut !in LEVEL_NAMES;
      assert forall k :: 0 <= k < |LEVEL_NAMES| ==> |LEVEL_NAMES[k]| < |level|;
    } else if LevelValue(level) != -1 {
      assert level == LEVEL_NAMES[LevelValue(level) - 1];
    }
  }

  /** A filter passes every line a stricter one passes. */
  lemma ShouldShowMonotone(line: string, a: int, b: int)
    requires a != -1 && a <= b && ShouldShow(line, a)
    ensures ShouldShow(line, b)
  {
  }

  /** print_log_line. A line without a bracketed level is printed as it is;
      otherwise the part before '[' in gray, the level in its colour between
      brackets (empty if it would not fit the 16-character buffer), and the rest
      after ']'. */
  function PrintLogLine(line: string): string
  {
    match Brackets(line)
    case None => line + "\n"
    case Some((o, c)) =>
      var level := if c - o - 1 < LEVEL_BUFFER then line[o + 1..c] else "";
      (if o > 0 then GRAY + line[..o] + RESET else "")
        + "[" + LevelColor(level) + level + RESET + "]" + line[c + 1..] + "\n"
  }

  /** A line with a short bracketed level is printed piece by piece: the
      pieces, with the escape codes taken out, are the line itself. */
  lemma PrintKeepsText(line: string)
    requires Brackets(line).Some?
    requires Brackets(line).value.1 - Brackets(line).value.0 - 1 < LEVEL_BUFFER
    ensures var (o, c) := Brackets(line).value;
            && line == line[..o] + "[" + line[o + 1..c] + "]" + line[c + 1..]
            && PrintLogLine(line) == (if o > 0 then GRAY + line[..o] + RESET else "") + "["
                                     + SeverityColor(LevelValue(line[o + 1..c])) + line[o + 1..c] + RESET + "]"
                                     + line[c + 1..] + "\n"
  {
    var (o, c) := Brackets(line).value;
    assert line == line[..o] + [line[o]] + line[o + 1..c] + [line[c]] + line[c + 1..];
  }

  /** A line without a bracketed level is printed unchanged. */
  lemma PrintMalformed(line: string)
    requires '[' !in line || ']' !in line
    ensures PrintLogLine(line) == line + "\n"
  {
  }

  /** line[strcspn(line, "\n")] = 0: the line up to its first newline. */
  function Strip(line: string): (r: string)
    ensures r <= line && '\n' !in r
    ensures '\n' in line ==> line[|r|] == '\n'
  {
    match IndexOf(line, '\n')
    case None => line
    case Some(i) => line[..i]
  }

  /** The stripped lines the filter accepts, in file order. */
  function Accepted(lines: seq<string>, minLevel: int): (r: seq<string>)
    ensures |r| <= |lines|
  {
    if |lines| == 0 then []
    else
      var l := Strip(lines[|lines| - 1]);
      Accepted(lines[..|lines| - 1], minLevel) + (if ShouldShow(l, minLevel) then [l] else [])
  }

  /** With no filter, every line is accepted. */
  lemma {:induction false} AcceptedUnfiltered(lines: seq<string>)
    ensures |Accepted(lines, -1)| == |lines|
    ensures forall i :: 0 <= i < |lines| ==> Accepted(lines, -1)[i] == Strip(lines[i])
  {
    if |lines| > 0 {
      AcceptedUnfiltered(lines[..|lines| - 1]);
    }
  }

  /** The last `n` elements (all of them when there are fewer). */
  function Tail<T>(xs: seq<T>, n: nat): (r: seq<T>)
    ensures |r| == if |xs| < n then |xs| else n
  {
    if |xs| <= n then xs else xs[|xs| - n..]
  }

  /** The window after one more line: it grows until it holds `n`, then
      its oldest line drops out. */
  function Pushed<T>(window: seq<T>, x: T, n: nat): seq<T>
    requires 0 < n && |window| <= n
  {
    if |window| < n then window + [x] else window[1..] + [x]
  }

  lemma TailSnoc<T>(xs: seq<T>, x: T, n: nat)
    requires n > 0
    ensures Tail(xs + [x], n) == Pushed(Tail(xs, n), x, n)
  {
  }

  /** What gets printed for the lines of `window`, oldest first. */
  function Render(window: seq<string>): string
  {
    if |window| == 0 then "" else Render(window[..|window| - 1]) + PrintLogLine(window[|window| - 1])
  }

  /** Slot arithmetic of the circular buffer: a % n for 0 <= a < 2n. */
  function Ring(a: int, n: int): int {
    if a >= n then a - n else a
  }

  lemma ModRing(a: int, n: int)
    requires n > 0 && 0 <= a < 2 * n
    ensures a % n == Ring(a, n)
  {
    if a >= n {
      assert a == 1 * n + (a - n);
    } else {
      assert a == 0 * n + a;
    }
  }

  /** Where the oldest buffered line sits. */
  function Start(head: int, count: int, n: int): int {
    if count < n then 0 else head
  }

  /** The circular buffer holds `window`, oldest first, from Start on. */
  ghost predicate Holds(buf: seq<Option<string>>, head: int, count: int, window: seq<string>)
  {
    var n := |buf|;
    && 0 <= head < n && 0 <= count <= n && |window| == count
    && (count < n ==> head == count)
    && forall j :: 0 <= j < count ==> buf[Ring(Start(head, count, n) + j, n)] == Some(window[j])
  }

  /** One accepted line enters the circular buffer. */
  method Push(buffer: array<Option<string>>, head: int, count: int, line: string, ghost window: seq<string>)
      returns (head': int, count': int)
    requires Holds(buffer[..], head, count, window)
    modifies buffer
    ensures Holds(buffer[..], head', count', Pushed(window, line, buffer.Length))
  {
    ghost var before := buffer[..];
    var n := buffer.Length;
    buffer[head] := Some(line);
    ModRing(head + 1, n);
    head' := (head + 1) % n;
    count' := if count < n then count + 1 else count;
    ghost var w := Pushed(window, line, n);
    forall j | 0 <= j < count'
      ensures buffer[Ring(Start(head', count', n) + j, n)] == Some(w[j])
    {
      if count < n {
        if j < count {
          assert before[Ring(Start(head, count, n) + j, n)] == Some(window[j]);
        }
      } else if j < count - 1 {
        assert Ring(Start(head', count', n) + j, n) == Ring(Start(head, count, n) + (j + 1), n);
        assert before[Ring(Start(head, count, n) + (j + 1), n)] == Some(window[j + 1]);
      }
    }
  }

  /**
   * LogViewer_showFiltered. An unopenable file gives an error message on
   * standard error; otherwise the last `tailLines` accepted lines are
   * printed, oldest first. With no room (`tailLines <= 0`) the read loop
   * never touches the buffer as long as no line is accepted, and nothing
   * is printed; an accepted line would then index an empty buffer.
   */
  method ShowFiltered(file: Option<seq<string>>, logPath: string, minLevel: int, tailLines: int)
      returns (out: string, err: string)
    requires file.Some? && tailLines <= 0 ==> Accepted(file.value, minLevel) == []
    ensures file.None? ==> out == "" && err == "Error: Could not open log file: " + logPath + "\n"
    ensures file.Some? ==> err == ""
    ensures file.Some? && tailLines > 0 ==> out == Render(Tail(Accepted(file.value, minLevel), tailLines))
    ensures file.Some? && tailLines <= 0 ==> out == ""
  {
    if file.None? {
      return "", "Error: Could not open log file: " + logPath + "\n";
    }
    if tailLines <= 0 {
      return "", "";
    }
    var buffer := new Option<string>[tailLines](_ => None);
    var head, count := ReadTail(file.value, minLevel, buffer);
    err := "";
    out := PrintWindow(buffer, head, count, Tail(Accepted(file.value, minLevel), tailLines));
  }

  /** The read loop: every accepted line goes into the circular buffer,
      which ends up holding the last `buffer.Length` of them. */
  method ReadTail(lines: seq<string>, minLevel: int, buffer: array<Option<string>>) returns (head: int, count: int)
    requires buffer.Length > 0
    modifies buffer
    ensures Holds(buffer[..], head, count, Tail(Accepted(lines, minLevel), buffer.Length))
  {
    head, count := 0, 0;
    var k := 0;
    ghost var window := Tail(Accepted(lines[..k], minLevel), buffer.Length);
    while k < |lines|
      invariant 0 <= k <= |lines|
      invariant window == Tail(Accepted(lines[..k], minLevel), buffer.Length)
      invariant Holds(buffer[..], head, count, window)
    {
      head, count, window := ReadOne(lines, k, minLevel, buffer, head, count, window);
      k := k + 1;
    }
    assert window == Tail(Accepted(lines, minLevel), buffer.Length) by {
      assert lines[..k] == lines;
    }
  }

  /** One round of the read loop: line `k`, stripped, is offered to the
      buffer. */
  method ReadOne(lines: seq<string>, k: nat, minLevel: int, buffer: array<Option<string>>, head: int, count: int,
                 ghost window: seq<string>)
      returns (head': int, count': int, ghost window': seq<string>)
    requires k < |lines| && buffer.Length > 0
    requires window == Tail(Accepted(lines[..k], minLevel), buffer.Length)
    requires Holds(buffer[..], head, count, window)
    modifies buffer
    ensures window' == Tail(Accepted(lines[..k + 1], minLevel), buffer.Length)
    ensures Holds(buffer[..], head', count', window')
  {
    window' := Tail(Accepted(lines[..k + 1], minLevel), buffer.Length);
    AcceptedStep(lines, k, minLevel);
    head', count' := Offer(buffer, head, count, Strip(lines[k]), minLevel, Accepted(lines[..k], minLevel));
  }

  /** The print loop: from the oldest slot on, each buffered line in turn. */
  method PrintWindow(buffer: array<Option<string>>, head: int, count: int, ghost window: seq<string>)
      returns (out: string)
    requires Holds(buffer[..], head, count, window)
    ensures out == Render(window)
  {
    var n := buffer.Length;
    var start := if count < n then 0 else head;
    out := "";
    var i := 0;
    while i < count
      invariant 0 <= i <= count
      invariant out == Render(window[..i])
    {
      var text := PrintSlot(buffer, head, count, window, start, i);
      RenderStep(window, i);
      out := out + text;
      i := i + 1;
    }
    assert window[..i] == window;
  }

  /** One round of the print loop: slot (start + i) % n holds the i-th
      buffered line, printed when the slot is filled. */
  method PrintSlot(buffer: array<Option<string>>, head: int, count: int, ghost window: seq<string>, start: int, i: int)
      returns (text: string)
    requires Holds(buffer[..], head, count, window) && 0 <= i < count
    requires start == if count < buffer.Length then 0 else head
    ensures text == PrintLogLine(window[i])
  {
    var n := buffer.Length;
    ModRing(start + i, n);
    var idx := (start + i) % n;
    HoldsAt(buffer[..], head, count, window, i, idx);
    text := "";
    if buffer[idx].Some? {
      text := PrintLogLine(buffer[idx].value);
    }
  }

  /** Buffer one stripped line if the filter accepts it. */
  method Offer(buffer: array<Option<string>>, head: int, count: int, line: string, minLevel: int,
               ghost accepted: seq<string>) returns (head': int, count': int)
    requires buffer.Length > 0 && Holds(buffer[..], head, count, Tail(accepted, buffer.Length))
    modifies buffer
    ensures Holds(buffer[..], head', count',
                  Tail(accepted + (if ShouldShow(line, minLevel) then [line] else []), buffer.Length))
  {
    head', count' := head, count;
    if ShouldShow(line, minLevel) {
      TailSnoc(accepted, line, buffer.Length);
      head', count' := Push(buffer, head, count, line, Tail(accepted, buffer.Length));
    } else {
      assert accepted + [] == accepted;
    }
  }

  lemma AcceptedStep(lines: seq<string>, k: nat, minLevel: int)
    requires k < |lines|
    ensures Accepted(lines[..k + 1], minLevel)
            == Accepted(lines[..k], minLevel) + (if ShouldShow(Strip(lines[k]), minLevel) then [Strip(lines[k])] else [])
  {
    assert lines[..k + 1][..k] == lines[..k];
  }

  lemma HoldsAt(buf: seq<Option<string>>, head: int, count: int, window: seq<string>, i: nat, idx: int)
    requires Holds(buf, head, count, window) && i < count
    requires idx == Ring(Start(head, count, |buf|) + i, |buf|)
    ensures 0 <= idx < |buf| && buf[idx] == Some(window[i])
  {
  }

  lemma RenderStep(window: seq<string>, i: nat)
    requires i < |window|
    ensures Render(window[..i + 1]) == Render(window[..i]) + PrintLogLine(window[i])
  {
    assert window[..i + 1][..i] == window[..i];
  }

  /** LogViewer_show: the tail with no level filter. */
  method Show(file: Option<seq<string>>, logPath: string, tailLines: int) returns (out: string, err: string)
    requires file.Some? && tailLines <= 0 ==> Accepted(file.value, -1) == []
    ensures file.None? ==> out == "" && err == "Error: Could not open log file: " + logPath + "\n"
    ensures file.Some? ==> err == ""
    ensures file.Some? && tailLines > 0 ==> out == Render(Tail(Accepted(file.value, -1), tailLines))
    ensures file.Some? && tailLines <= 0 ==> out == ""
  {
    out, err := ShowFiltered(file, logPath, -1, tailLines);
  }

  /** The tail holds at most `n` lines, the newest ones, in file order. */
  lemma TailIsNewest(lines: seq<string>, minLevel: int, n: nat)
    ensures |Tail(Accepted(lines, minLevel), n)| <= n
    ensures Tail(Accepted(lines, minLevel), n) == Accepted(lines, minLevel)[|Accepted(lines, minLevel)| - |Tail(Accepted(lines, minLevel), n)|..]
  {
    TailSuffix(Accepted(lines, minLevel), n);
  }

  /** The tail is the suffix of its own length. */
  lemma TailSuffix<T>(xs: seq<T>, n: nat)
    ensures Tail(xs, n) == xs[|xs| - |Tail(xs, n)|..]
  {
    if |xs| <= n {
      assert xs[0..] == xs;
    }
  }
}
