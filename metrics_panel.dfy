/** The metrics grid (src/MetricsPanel.c): a Panel whose items are rows of
    metric cards, the flat list of metrics behind it, the "nice" axis step,
    the two-dimensional card navigation, the card geometry of a row and the
    placement of the x-axis labels of a card's chart. */
module Metrics {
  import opened Wrappers
  import opened Constants
  import opened Items
  import opened Text
  import opened Panels
  import opened Series

  const INITIAL_METRIC_CAPACITY: nat := 16
  /** What addMetric adds to the maximum of a flat series. */
  const FLAT_NUDGE: real := 0.0001

  // --- Grid reflow ---

  /** The number of card columns for a panel `w` wide: w / METRIC_MIN_WIDTH,
      at least 1. */
  function ColumnsFor(w: int): (c: int)
    ensures c >= 1
    ensures w >= METRIC_MIN_WIDTH ==> c == w / METRIC_MIN_WIDTH
    ensures w < 2 * METRIC_MIN_WIDTH ==> c == 1
  {
    Max(1, CDiv(w, METRIC_MIN_WIDTH))
  }

  /** The rows of the grid: consecutive runs of `columns` metrics, the last
      one possibly shorter. */
  function Rows(ms: seq<MetricData>, columns: int): seq<seq<MetricData>>
    requires columns >= 1
    decreases |ms|
  {
    if ms == [] then []
    else if |ms| <= columns then [ms]
    else [ms[..columns]] + Rows(ms[columns..], columns)
  }

  /** One grid row as a Panel item: empty text, the row as data. */
  function RowItem(row: seq<MetricData>): PanelItem {
    PanelItem("", Some(MetricRow(row)))
  }

  /** The Panel items reflow builds: one per row. */
  function RowItems(ms: seq<MetricData>, columns: int): (items: seq<PanelItem>)
    requires columns >= 1
    ensures |items| == |Rows(ms, columns)|
    decreases |ms|
  {
    if ms == [] then []
    else if |ms| <= columns then [RowItem(ms)]
    else [RowItem(ms[..columns])] + RowItems(ms[columns..], columns)
  }

  /** The number of cards in each row. */
  function RowCounts(ms: seq<MetricData>, columns: int): (counts: seq<int>)
    requires columns >= 1
    ensures |counts| == |Rows(ms, columns)|
  {
    var rows := Rows(ms, columns);
    seq(|rows|, r requires 0 <= r < |rows| => |rows[r]|)
  }

  function Flatten<T>(rows: seq<seq<T>>): seq<T> {
    if rows == [] then [] else rows[0] + Flatten(rows[1..])
  }

  /** Reading the rows left to right, top to bottom gives back the metrics
      in their order. */
  lemma {:induction false} RowsFlatten(ms: seq<MetricData>, columns: int)
    requires columns >= 1
    ensures Flatten(Rows(ms, columns)) == ms
    decreases |ms|
  {
    if ms != [] && |ms| > columns {
      RowsFlatten(ms[columns..], columns);
      assert Rows(ms, columns)[1..] == Rows(ms[columns..], columns);
      assert ms[..columns] + ms[columns..] == ms;
    }
  }

  /** Every row but the last is full, the last holds 1 to `columns` cards,
      and there are just enough rows for the metrics: ceil(n / columns). */
  lemma {:induction false} RowsShape(ms: seq<MetricData>, columns: int)
    requires columns >= 1
    ensures |Rows(ms, columns)| == 0 <==> ms == []
    ensures (|Rows(ms, columns)| - 1) * columns < |ms| <= |Rows(ms, columns)| * columns
    ensures forall r :: 0 <= r < |Rows(ms, columns)| - 1 ==> |Rows(ms, columns)[r]| == columns
    ensures forall r :: 0 <= r < |Rows(ms, columns)| ==> 1 <= |Rows(ms, columns)[r]| <= columns
    decreases |ms|
  {
    if ms != [] && |ms| > columns {
      var rest := Rows(ms[columns..], columns);
      RowsShape(ms[columns..], columns);
      assert Rows(ms, columns) == [ms[..columns]] + rest;
      var n := |rest|;
      assert (n + 1) * columns == n * columns + columns;
      forall r | 1 <= r < |Rows(ms, columns)|
        ensures Rows(ms, columns)[r] == rest[r - 1]
      {
      }
    }
  }

  /** Item r of the grid is row r, and it always carries its cards. */
  lemma {:induction false} RowItemsAreRows(ms: seq<MetricData>, columns: int)
    requires columns >= 1
    ensures |RowItems(ms, columns)| == |Rows(ms, columns)|
    ensures forall r :: 0 <= r < |RowItems(ms, columns)| ==> RowItems(ms, columns)[r] == RowItem(Rows(ms, columns)[r])
    decreases |ms|
  {
    if |ms| > columns {
      RowItemsAreRows(ms[columns..], columns);
    }
  }

  lemma RowItemsCarryRows(ms: seq<MetricData>, columns: int, r: int)
    requires columns >= 1 && 0 <= r < |RowItems(ms, columns)|
    ensures RowItems(ms, columns)[r].data == Some(MetricRow(Rows(ms, columns)[r]))
    ensures 1 <= |Rows(ms, columns)[r]| == RowCounts(ms, columns)[r]
  {
    RowItemsAreRows(ms, columns);
    RowsShape(ms, columns);
  }

  /** Unfolding of RowItems by one row, as the reflow loop consumes it. */
  lemma RowItemsUnfold(ms: seq<MetricData>, columns: int)
    requires columns >= 1 && ms != []
    ensures var k := Min(columns, |ms|);
            RowItems(ms, columns) == [RowItem(ms[..k])] + RowItems(ms[k..], columns)
  {
    if |ms| <= columns {
      assert ms[..|ms|] == ms;
      assert ms[|ms|..] == [];
    }
  }

  // --- The nice axis step ---

  function Pow10(k: nat): (p: nat)
    ensures p >= 1
  {
    if k == 0 then 1 else 10 * Pow10(k - 1)
  }

  lemma {:induction false} Pow10Grows(j: nat, k: nat)
    requires j < k
    ensures 10 * Pow10(j) <= Pow10(k)
    decreases k
  {
    if j + 1 < k {
      Pow10Grows(j, k - 1);
    }
  }

  /** The decade of n >= 1: the k with 10^k <= n < 10^(k+1). */
  function Decade(n: int): (k: nat)
    requires n >= 1
    ensures Pow10(k) <= n < 10 * Pow10(k)
    decreases n
  {
    if n < 10 then 0
    else
      var k := Decade(n / 10);
      assert Pow10(k + 1) == 10 * Pow10(k);
      k + 1
  }

  /** The power-of-ten magnitude of range / target, as `(int)pow(10,
      floor(log10(raw)))`: floor(log10) of a quotient >= 1 is that of its
      integer part, and for a quotient below 1 the power of ten is a
      fraction that the cast truncates to 0. */
  function Magnitude(range: int, target: int): (mag: nat)
    requires range >= 1 && target >= 1
  {
    if range < target then 0 else Pow10(Decade(range / target))
  }

  /** The residual test of calculate_nice_step: with `unit` = mag * target,
      raw / mag > 5 reads range > 5 * unit, and so on. */
  function Snap(range: int, unit: int, mag: int): int {
    if range > 5 * unit then 10 * mag
    else if range > 2 * unit then 5 * mag
    else if range > unit then 2 * mag
    else mag
  }

  /** calculate_nice_step: the step between x-axis labels for `range` ticks
      and about `targetTicks` labels. The comparisons of the residual raw /
      mag with 5, 2 and 1 are made exactly over the integers. */
  function NiceStep(range: int, targetTicks: int): (step: int)
    ensures step >= 1
  {
    var target := if targetTicks <= 0 then 1 else targetTicks;
    if range <= 0 then 1
    else
      var mag := Magnitude(range, target);
      var step := Snap(range, mag * target, mag);
      if step < 1 then 1 else step
  }

  /** The "nice" numbers: 1, 2 and 5 times a power of ten. */
  predicate IsNice(n: int, k: nat) {
    n == Pow10(k) || n == 2 * Pow10(k) || n == 5 * Pow10(k)
  }

  /** The magnitude brackets range / target. */
  lemma MagnitudeBounds(range: int, target: int)
    requires 1 <= target <= range
    ensures Magnitude(range, target) >= 1
    ensures Magnitude(range, target) * target <= range < 10 * (Magnitude(range, target) * target)
  {
    var q := range / target;
    var mag := Magnitude(range, target);
    assert mag <= q < 10 * mag;
    assert q * target <= range < (q + 1) * target;
    MulMono(mag, q, target);
    MulMono(q + 1, 10 * mag, target);
    Scale(10, mag, target);
  }

  lemma MulMono(a: int, b: int, c: int)
    requires a <= b && c >= 0
    ensures a * c <= b * c
  {
  }

  lemma MulSucc(a: int, b: int)
    ensures (a + 1) * b == a * b + b
  {
  }

  lemma Scale(k: int, a: int, b: int)
    ensures (k * a) * b == k * (a * b)
  {
  }

  /** calculate_nice_step once the magnitude is known. */
  lemma NiceStepUnfold(range: int, targetTicks: int)
    requires range >= Max(1, targetTicks)
    ensures var target := Max(1, targetTicks);
            var mag := Pow10(Decade(range / target));
            && NiceStep(range, targetTicks) == Snap(range, mag * target, mag)
            && mag * target <= range < 10 * (mag * target)
  {
    var target := Max(1, targetTicks);
    MagnitudeBounds(range, target);
  }

  /** The step is 1 when there are fewer ticks than labels wanted (or none). */
  lemma NiceStepSmallRange(range: int, targetTicks: int)
    requires range < Max(1, targetTicks)
    ensures NiceStep(range, targetTicks) == 1
  {
  }

  /** Otherwise the step is a nice number of the decade of range / target
      or the first one of the next decade, and `target` steps cover the
      range. */
  lemma NiceStepIsNice(range: int, targetTicks: int)
    requires range >= Max(1, targetTicks)
    ensures var step := NiceStep(range, targetTicks);
            var k := Decade(range / Max(1, targetTicks));
            && (IsNice(step, k) || step == Pow10(k + 1))
            && step * Max(1, targetTicks) >= range
  {
    var target := Max(1, targetTicks);
    var k := Decade(range / target);
    var mag := Pow10(k);
    var unit := mag * target;
    NiceStepUnfold(range, targetTicks);
    var step := NiceStep(range, targetTicks);
    assert Pow10(k + 1) == 10 * mag;
    if range > 5 * unit {
      Scale(10, mag, target);
    } else if range > 2 * unit {
      Scale(5, mag, target);
    } else if range > unit {
      Scale(2, mag, target);
    }
  }

  /** ... and no smaller nice number covers the range. */
  lemma {:induction false} NiceStepIsLeast(range: int, targetTicks: int, n: int, j: nat)
    requires range >= Max(1, targetTicks)
    requires IsNice(n, j) && n * Max(1, targetTicks) >= range
    ensures NiceStep(range, targetTicks) <= n
  {
    var target := Max(1, targetTicks);
    var k := Decade(range / target);
    var mag := Pow10(k);
    var unit := mag * target;
    NiceStepUnfold(range, targetTicks);
    if j > k {
      Pow10Grows(k, j);
      assert NiceStep(range, targetTicks) <= 10 * mag <= n;
    } else if j < k {
      Pow10Grows(j, k);
      MulMono(n + 1, mag, target);
      MulSucc(n, target);
      assert false;
    } else {
      SnapLeastInDecade(range, mag, target, n);
    }
  }

  lemma SnapLeastInDecade(range: int, mag: int, target: int, n: int)
    requires mag >= 1 && target >= 1
    requires n == mag || n == 2 * mag || n == 5 * mag
    requires n * target >= range
    ensures Snap(range, mag * target, mag) <= n
  {
    if n == 2 * mag {
      Scale(2, mag, target);
    } else if n == 5 * mag {
      Scale(5, mag, target);
    }
  }

  /** More ticks never give a smaller step. */
  lemma NiceStepMonotone(range1: int, range2: int, targetTicks: int)
    requires range1 <= range2
    ensures NiceStep(range1, targetTicks) <= NiceStep(range2, targetTicks)
  {
    var target := Max(1, targetTicks);
    if range1 < target {
      NiceStepSmallRange(range1, targetTicks);
    } else {
      NiceStepIsNice(range2, targetTicks);
      var k := Decade(range2 / target);
      var step2 := NiceStep(range2, targetTicks);
      if IsNice(step2, k) {
        NiceStepIsLeast(range1, targetTicks, step2, k);
      } else {
        NiceStepIsLeast(range1, targetTicks, step2, k + 1);
      }
    }
  }

  // --- Card navigation ---

  /** Which card is selected: the Panel's selected row and the grid's
      selected_col. */
  datatype Cursor = Cursor(row: int, col: int)

  /** MetricsPanel_handleKey on the row counts of the grid: the new cursor
      and whether the key was HANDLED. Only KEY_LEFT and KEY_RIGHT move. */
  function Navigate(key: int, cur: Cursor, counts: seq<int>): (r: (Cursor, bool))
    requires 0 <= cur.row < |counts|
    ensures !r.1 ==> r.0 == cur
    ensures r.1 ==> 0 <= r.0.row < |counts|
  {
    if key == KEY_LEFT then
      if cur.col > 0 then (Cursor(cur.row, cur.col - 1), true)
      else if cur.row > 0 then (Cursor(cur.row - 1, counts[cur.row - 1] - 1), true)
      else (cur, false)
    else if key == KEY_RIGHT then
      if cur.col < counts[cur.row] - 1 then (Cursor(cur.row, cur.col + 1), true)
      else if cur.row < |counts| - 1 then (Cursor(cur.row + 1, 0), true)
      else (cur, false)
    else (cur, false)
  }

  /** The place of a card in reading order. */
  function Linear(cur: Cursor, columns: int): int {
    cur.row * columns + cur.col
  }

  /** On the grid reflow builds, KEY_RIGHT moves to the next card in
      reading order and is refused only on the very last card. */
  lemma {:induction false} RightIsNextCard(ms: seq<MetricData>, columns: int, cur: Cursor)
    requires columns >= 1
    requires 0 <= cur.row < |Rows(ms, columns)| && 0 <= cur.col < |Rows(ms, columns)[cur.row]|
    ensures var r := Navigate(KEY_RIGHT, cur, RowCounts(ms, columns));
            && (r.1 <==> Linear(cur, columns) < |ms| - 1)
            && (r.1 ==> Linear(r.0, columns) == Linear(cur, columns) + 1)
            && (r.1 ==> 0 <= r.0.col < |Rows(ms, columns)[r.0.row]|)
  {
    var rows := Rows(ms, columns);
    var counts := RowCounts(ms, columns);
    var row := cur.row;
    RowsShape(ms, columns);
    RowsCount(ms, columns, row);
    assert counts[row] == |rows[row]|;
    if row < |rows| - 1 {
      assert |rows[row]| == columns;
      RowsCount(ms, columns, row + 1);
      assert (row + 1) * columns == row * columns + columns;
      assert |rows[row + 1]| >= 1;
    }
  }

  /** ... and KEY_LEFT moves to the previous card and is refused only on
      the first. */
  lemma {:induction false} LeftIsPreviousCard(ms: seq<MetricData>, columns: int, cur: Cursor)
    requires columns >= 1
    requires 0 <= cur.row < |Rows(ms, columns)| && 0 <= cur.col < |Rows(ms, columns)[cur.row]|
    ensures var l := Navigate(KEY_LEFT, cur, RowCounts(ms, columns));
            && (l.1 <==> Linear(cur, columns) > 0)
            && (l.1 ==> Linear(l.0, columns) == Linear(cur, columns) - 1)
            && (l.1 ==> 0 <= l.0.col < |Rows(ms, columns)[l.0.row]|)
  {
    var rows := Rows(ms, columns);
    var counts := RowCounts(ms, columns);
    var row := cur.row;
    RowsShape(ms, columns);
    if row > 0 {
      assert counts[row - 1] == |rows[row - 1]| == columns;
      assert row * columns == (row - 1) * columns + columns;
      assert row * columns > 0;
    }
  }

  /** Row r starts at metric r * columns, and the last row ends at the end
      of the list. */
  lemma {:induction false} RowsCount(ms: seq<MetricData>, columns: int, r: int)
    requires columns >= 1 && 0 <= r < |Rows(ms, columns)|
    ensures r * columns + |Rows(ms, columns)[r]| <= |ms|
    ensures r == |Rows(ms, columns)| - 1 ==> r * columns + |Rows(ms, columns)[r]| == |ms|
    decreases |ms|
  {
    if |ms| > columns && r > 0 {
      RowsCount(ms[columns..], columns, r - 1);
      assert Rows(ms, columns)[r] == Rows(ms[columns..], columns)[r - 1];
    }
  }

  /** Right then left, or left then right, returns to the same card. */
  lemma NavigationUndo(counts: seq<int>, cur: Cursor)
    requires forall r :: 0 <= r < |counts| ==> counts[r] >= 1
    requires 0 <= cur.row < |counts| && 0 <= cur.col < counts[cur.row]
    ensures var r := Navigate(KEY_RIGHT, cur, counts);
            r.1 ==> Navigate(KEY_LEFT, r.0, counts) == (cur, true)
    ensures var l := Navigate(KEY_LEFT, cur, counts);
            l.1 ==> Navigate(KEY_RIGHT, l.0, counts) == (cur, true)
  {
  }

  // --- Card geometry of one row (MetricsPanel_drawItem) ---

  /** One draw_card call: where the card goes and whether it is highlighted. */
  datatype CardDraw = CardDraw(metric: MetricData, y: int, x: int, w: int, focused: bool)

  /** The left edge of card i: x + i * (w / columns). */
  function CardX(x: int, w: int, columns: int, i: int): int
    requires columns >= 1
  {
    x + i * CDiv(w, columns)
  }

  /** The width of card i: the card in the last grid column takes what is
      left of `w`; all but the row's last card give up one column as a gap. */
  function CardWidth(w: int, columns: int, count: int, i: int): int
    requires columns >= 1
  {
    var cardWidth := CDiv(w, columns);
    (if i == columns - 1 then w - i * cardWidth else cardWidth) - (if i < count - 1 then 1 else 0)
  }

  /** Card i is highlighted when its row is selected in a focused panel and
      it is the selected column, or the last card when selected_col is past
      the end of the row. */
  predicate CardFocused(i: int, count: int, selectedCol: int, rowSelected: bool, hasFocus: bool) {
    if selectedCol >= count && rowSelected && hasFocus then i == count - 1
    else rowSelected && selectedCol == i && hasFocus
  }

  /** The card the highlight falls on. */
  function FocusedCard(count: int, selectedCol: int): int {
    if selectedCol < count then selectedCol else count - 1
  }

  /** Exactly one card of a selected, non-empty row in a focused panel is
      highlighted, and none otherwise. */
  lemma ExactlyOneFocusedCard(count: int, selectedCol: int, rowSelected: bool, hasFocus: bool, i: int)
    requires 0 <= i < count && selectedCol >= 0
    ensures CardFocused(i, count, selectedCol, rowSelected, hasFocus) <==>
              rowSelected && hasFocus && i == FocusedCard(count, selectedCol)
  {
  }

  /** In a full row the cards tile the row: each starts one column after
      the previous one ends, and the last one ends at x + w. */
  lemma FullRowTiles(x: int, w: int, columns: int, i: int)
    requires columns >= 1 && w >= 0 && 0 <= i < columns
    ensures i < columns - 1 ==>
              CardX(x, w, columns, i + 1) == CardX(x, w, columns, i) + CardWidth(w, columns, columns, i) + 1
    ensures i == columns - 1 ==> CardX(x, w, columns, i) + CardWidth(w, columns, columns, i) == x + w
  {
  }

  /** The loop of MetricsPanel_drawItem: one draw_card call per card of the
      row, left to right, at METRIC_CARD_HEIGHT rows high. */
  method RowCards(row: seq<MetricData>, y: int, x: int, w: int, columns: int, selectedCol: int,
                  rowSelected: bool, hasFocus: bool) returns (cards: seq<CardDraw>)
    requires columns >= 1
    ensures |cards| == |row|
    ensures forall i :: 0 <= i < |row| ==>
              cards[i] == CardDraw(row[i], y, CardX(x, w, columns, i), CardWidth(w, columns, |row|, i),
                                   CardFocused(i, |row|, selectedCol, rowSelected, hasFocus))
  {
    var cardWidth := CDiv(w, columns);
    cards := [];
    var i := 0;
    while i < |row|
      invariant 0 <= i <= |row| && |cards| == i
      invariant forall k :: 0 <= k < i ==>
                  cards[k] == CardDraw(row[k], y, CardX(x, w, columns, k), CardWidth(w, columns, |row|, k),
                                       CardFocused(k, |row|, selectedCol, rowSelected, hasFocus))
    {
      var cardX := x + i * cardWidth;
      var currentW := if i == columns - 1 then w - i * cardWidth else cardWidth;
      if i < |row| - 1 {
        currentW := currentW - 1;
      }
      var focused := rowSelected && selectedCol == i && hasFocus;
      if selectedCol >= |row| && rowSelected && hasFocus {
        focused := i == |row| - 1;
      }
      cards := cards + [CardDraw(row[i], y, cardX, currentW, focused)];
      i := i + 1;
    }
  }

  // --- The chart of one card (draw_card) ---

  /** The chart area inside a card at (x, y) of size w x h. */
  datatype ChartArea = ChartArea(x: int, y: int, w: int, h: int)

  /** The chart sits 6 columns in and 3 rows down, 8 columns narrower and 6
      rows shorter than the card, and is drawn only when taller than 1 and
      wider than 4. */
  function Chart(x: int, y: int, w: int, h: int): (r: Option<ChartArea>)
    ensures r.Some? <==> h - 6 > 1 && w - 8 > 4
    ensures r.Some? ==> r.value.x == x + 6 && r.value.w == w - 8 && r.value.y == y + 3 && r.value.h == h - 6
  {
    var graphH := h - 6;
    var graphW := w - 8;
    if graphH > 1 && graphW > 4 then Some(ChartArea(x + 6, y + 3, graphW, graphH)) else None
  }

  /** How many x-axis labels draw_card aims for: one per 8 columns, at
      least 2. */
  function TargetLabels(graphW: int): (n: int)
    ensures n >= 2
  {
    Max(2, CDiv(graphW, 8))
  }

  /** The column of the tick for history index `val`. */
  function TickColumn(val: int, historyCount: int, graphX: int, graphW: int): int
    requires historyCount > 0 && val >= 0 && graphW >= 1
  {
    graphX + (val * (graphW - 1)) / historyCount
  }

  /** A printed x-axis label and where it starts. */
  datatype Label = Label(x: int, text: string)

  /** Where the label of `val` starts: centred on its tick, then moved
      right into the chart and then left so it ends inside the chart. */
  function LabelStart(val: int, historyCount: int, graphX: int, graphW: int): int
    requires historyCount > 0 && val >= 0 && graphW >= 1
  {
    var len := |NatToString(val)|;
    var start := TickColumn(val, historyCount, graphX, graphW) - len / 2;
    var start1 := if start < graphX then graphX else start;
    if start1 + len > graphX + graphW then graphX + graphW - len else start1
  }

  /** The label draw_card tries to print for tick value `val`. */
  function Candidate(val: nat, historyCount: int, graphX: int, graphW: int): Label
    requires historyCount > 0 && graphW >= 1
  {
    Label(LabelStart(val, historyCount, graphX, graphW), NatToString(val))
  }

  /** The candidate labels of the tick values `vals`, in order. */
  function Candidates(vals: seq<nat>, historyCount: int, graphX: int, graphW: int): (cs: seq<Label>)
    requires historyCount > 0 && graphW >= 1
    ensures |cs| == |vals|
  {
    if vals == [] then []
    else [Candidate(vals[0], historyCount, graphX, graphW)] + Candidates(vals[1..], historyCount, graphX, graphW)
  }

  /** The collision check: of the candidate labels, after a last printed
      label that ended at `lastEnd`, the ones printed. A label is skipped
      unless it starts more than one column past that end. */
  function Fit(cands: seq<Label>, lastEnd: int): seq<Label>
    decreases |cands|
  {
    if cands == [] then []
    else if cands[0].x > lastEnd + 1 then [cands[0]] + Fit(cands[1..], cands[0].x + |cands[0].text|)
    else Fit(cands[1..], lastEnd)
  }

  /** The tick values from, from + step, ... up to `historyCount`. */
  function TickValues(from: nat, historyCount: nat, step: int): seq<nat>
    requires step >= 1
    decreases historyCount + 1 - from
  {
    if from > historyCount then [] else [from] + TickValues(from + step, historyCount, step)
  }

  /** The ticks are the multiples of the step, in order, that do not pass
      the history length, and no multiple is missed. */
  lemma {:induction false} TickValuesAreMultiples(from: nat, historyCount: nat, step: int)
    requires step >= 1
    ensures var vals := TickValues(from, historyCount, step);
            && (forall k :: 0 <= k < |vals| ==> vals[k] == from + k * step <= historyCount)
            && from + |vals| * step > historyCount
    decreases historyCount + 1 - from
  {
    if from <= historyCount {
      var rest := TickValues(from + step, historyCount, step);
      TickValuesAreMultiples(from + step, historyCount, step);
      forall k | 1 <= k < |rest| + 1
        ensures TickValues(from, historyCount, step)[k] == from + k * step
      {
        assert rest[k - 1] == from + step + (k - 1) * step;
      }
      assert from + step + |rest| * step == from + (|rest| + 1) * step;
    }
  }

  /** Printed labels never touch: each starts after `lastEnd` plus one, and
      at least two columns after any label before it ends. */
  lemma {:induction false} LabelsApart(cands: seq<Label>, lastEnd: int)
    ensures forall k :: 0 <= k < |Fit(cands, lastEnd)| ==> Fit(cands, lastEnd)[k].x > lastEnd + 1
    ensures forall i, j :: 0 <= i < j < |Fit(cands, lastEnd)| ==>
              Fit(cands, lastEnd)[j].x > Fit(cands, lastEnd)[i].x + |Fit(cands, lastEnd)[i].text| + 1
    decreases |cands|
  {
    if cands != [] {
      var c := cands[0];
      if c.x > lastEnd + 1 {
        var rest := Fit(cands[1..], c.x + |c.text|);
        LabelsApart(cands[1..], c.x + |c.text|);
        var ls := [c] + rest;
        assert Fit(cands, lastEnd) == ls;
        forall k | 0 <= k < |ls| ensures ls[k].x > lastEnd + 1 {
          if k > 0 {
            assert ls[k] == rest[k - 1];
          }
        }
        forall i, j | 0 <= i < j < |ls| ensures ls[j].x > ls[i].x + |ls[i].text| + 1 {
          assert ls[j] == rest[j - 1];
          if i > 0 {
            assert ls[i] == rest[i - 1];
          }
        }
      } else {
        LabelsApart(cands[1..], lastEnd);
        assert Fit(cands, lastEnd) == Fit(cands[1..], lastEnd);
      }
    }
  }

  /** Every printed label is a candidate: the check only drops labels,
      keeping the others in order. */
  lemma {:induction false} FitKeepsCandidates(cands: seq<Label>, lastEnd: int)
    ensures |Fit(cands, lastEnd)| <= |cands|
    ensures forall l :: l in Fit(cands, lastEnd) ==> l in cands
    decreases |cands|
  {
    if cands != [] {
      var c := cands[0];
      if c.x > lastEnd + 1 {
        FitKeepsCandidates(cands[1..], c.x + |c.text|);
      } else {
        FitKeepsCandidates(cands[1..], lastEnd);
      }
    }
  }

  /** The first candidate is printed unless it starts in column 0. */
  lemma FirstLabelPrinted(cands: seq<Label>)
    requires cands != [] && cands[0].x > 0
    ensures Fit(cands, -1) != [] && Fit(cands, -1)[0] == cands[0]
  {
  }

  /** One pass of draw_card's axis loop: the tick column and the label
      of `val`. */
  method TickAndLabel(val: nat, historyCount: int, graphX: int, graphW: int) returns (screenX: int, cand: Label)
    requires historyCount > 0 && graphW >= 1
    ensures screenX == TickColumn(val, historyCount, graphX, graphW)
    ensures cand == Candidate(val, historyCount, graphX, graphW)
  {
    var px := (val * (graphW - 1)) / historyCount;
    screenX := graphX + px;
    var buf := NatToString(val);
    var len := |buf|;
    var startX := screenX - len / 2;
    if startX < graphX {
      startX := graphX;
    }
    if startX + len > graphX + graphW {
      startX := graphX + graphW - len;
    }
    cand := Label(startX, buf);
  }

  /** The collision check for one candidate label, followed by the
      candidates `later`: the label is printed, and the last end moved past
      it, when it starts more than one column after the last end. */
  method Collide(labels: seq<Label>, lastEnd: int, cand: Label, ghost later: seq<Label>)
    returns (labels': seq<Label>, lastEnd': int)
    ensures labels' + Fit(later, lastEnd') == labels + Fit([cand] + later, lastEnd)
    ensures cand.x > lastEnd + 1 ==> labels' == labels + [cand] && lastEnd' == cand.x + |cand.text|
    ensures cand.x <= lastEnd + 1 ==> labels' == labels && lastEnd' == lastEnd
  {
    assert ([cand] + later)[1..] == later;
    labels', lastEnd' := labels, lastEnd;
    if cand.x > lastEnd + 1 {
      labels' := labels + [cand];
      lastEnd' := cand.x + |cand.text|;
      assert labels' + Fit(later, lastEnd') == labels + ([cand] + Fit(later, lastEnd'));
    }
  }

  /** The smart x-axis of draw_card for a chart `graphW` wide at column
      `graphX`: one tick per multiple of the nice step up to the history
      length, and the labels that fit. With no history nothing is drawn. */
  method AxisLabels(historyCount: nat, graphX: int, graphW: int) returns (ticks: seq<int>, labels: seq<Label>)
    requires graphW > 4
    ensures historyCount == 0 ==> ticks == [] && labels == []
    ensures historyCount > 0 ==>
              var vals := TickValues(0, historyCount, NiceStep(historyCount, TargetLabels(graphW)));
              && |ticks| == |vals|
              && (forall k :: 0 <= k < |ticks| ==> ticks[k] == TickColumn(vals[k], historyCount, graphX, graphW))
              && labels == Fit(Candidates(vals, historyCount, graphX, graphW), -1)
  {
    ticks, labels := [], [];
    var maxLabels := CDiv(graphW, 8);
    if maxLabels < 2 {
      maxLabels := 2;
    }
    var step := NiceStep(historyCount, maxLabels);
    if historyCount == 0 {
      return;
    }
    ticks, labels := AxisTicks(historyCount, graphX, graphW, step);
  }

  /** The loop of draw_card's smart x-axis, for a non-empty history and a
      step of at least 1. */
  method AxisTicks(historyCount: nat, graphX: int, graphW: int, step: int) returns (ticks: seq<int>, labels: seq<Label>)
    requires historyCount > 0 && graphW >= 1 && step >= 1
    ensures var vals := TickValues(0, historyCount, step);
            && |ticks| == |vals|
            && (forall k :: 0 <= k < |ticks| ==> ticks[k] == TickColumn(vals[k], historyCount, graphX, graphW))
            && labels == Fit(Candidates(vals, historyCount, graphX, graphW), -1)
  {
    ticks, labels := [], [];
    var lastEnd := -1;
    var val: nat := 0;
    assert labels + Fit(Candidates(TickValues(val, historyCount, step), historyCount, graphX, graphW), lastEnd)
        == Fit(Candidates(TickValues(0, historyCount, step), historyCount, graphX, graphW), -1);
    while val <= historyCount
      invariant AxisProgress(historyCount, graphX, graphW, step, val, ticks, labels, lastEnd)
      decreases historyCount + 1 - val
    {
      ticks, labels, lastEnd := AxisRound(historyCount, graphX, graphW, step, val, ticks, labels, lastEnd);
      val := val + step;
    }
    AxisDone(historyCount, graphX, graphW, step, val, ticks, labels, lastEnd);
  }

  /** What the axis loop has done once it reaches tick value `val`: a tick
      for each value before it, and the labels that fit so far, which with
      the labels that fit from `val` on make up all labels that fit. */
  ghost predicate AxisProgress(historyCount: nat, graphX: int, graphW: int, step: int,
                               val: nat, ticks: seq<int>, labels: seq<Label>, lastEnd: int)
    requires historyCount > 0 && graphW >= 1 && step >= 1
  {
    && |ticks| <= |TickValues(0, historyCount, step)|
    && TickValues(0, historyCount, step)[|ticks|..] == TickValues(val, historyCount, step)
    && (forall k :: 0 <= k < |ticks| ==>
          ticks[k] == TickColumn(TickValues(0, historyCount, step)[k], historyCount, graphX, graphW))
    && labels + Fit(Candidates(TickValues(val, historyCount, step), historyCount, graphX, graphW), lastEnd)
       == Fit(Candidates(TickValues(0, historyCount, step), historyCount, graphX, graphW), -1)
  }

  /** One round of the axis loop: the tick at `val`, and the label
      collision check for its candidate. */
  method AxisRound(historyCount: nat, graphX: int, graphW: int, step: int,
                   val: nat, ticks: seq<int>, labels: seq<Label>, lastEnd: int)
    returns (ticks': seq<int>, labels': seq<Label>, lastEnd': int)
    requires historyCount > 0 && graphW >= 1 && step >= 1 && val <= historyCount
    requires AxisProgress(historyCount, graphX, graphW, step, val, ticks, labels, lastEnd)
    ensures AxisProgress(historyCount, graphX, graphW, step, val + step, ticks', labels', lastEnd')
  {
    ghost var vals := TickValues(0, historyCount, step);
    ghost var pending := TickValues(val, historyCount, step);
    assert pending == [val] + TickValues(val + step, historyCount, step);
    var screenX, cand := TickAndLabel(val, historyCount, graphX, graphW);
    ticks' := ticks + [screenX];
    assert vals[|ticks|] == val;
    assert vals[|ticks'|..] == pending[1..];
    ghost var nextCands := Candidates(pending[1..], historyCount, graphX, graphW);
    assert Candidates(pending, historyCount, graphX, graphW) == [cand] + nextCands;
    labels', lastEnd' := Collide(labels, lastEnd, cand, nextCands);
  }

  /** Past the last tick value, the progress is the whole axis. */
  lemma AxisDone(historyCount: nat, graphX: int, graphW: int, step: int,
                 val: nat, ticks: seq<int>, labels: seq<Label>, lastEnd: int)
    requires historyCount > 0 && graphW >= 1 && step >= 1 && val > historyCount
    requires AxisProgress(historyCount, graphX, graphW, step, val, ticks, labels, lastEnd)
    ensures |ticks| == |TickValues(0, historyCount, step)|
    ensures labels == Fit(Candidates(TickValues(0, historyCount, step), historyCount, graphX, graphW), -1)
  {
    assert TickValues(val, historyCount, step) == [];
    assert labels + [] == labels;
  }

  // --- Metric values (MetricsPanel_addMetric) ---

  /** The chart range of a series: its least and greatest value, with the
      greatest nudged up when the series is flat. */
  function ChartRange(values: seq<real>): (r: (real, real))
    requires |values| >= 1
    ensures r.0 == SeqMin(values)
    ensures SeqMin(values) < SeqMax(values) ==> r.1 == SeqMax(values)
  {
    var lo := SeqMin(values);
    var hi := SeqMax(values);
    (lo, if lo == hi then hi + FLAT_NUDGE else hi)
  }

  /** The chart range is never empty, so the chart's vertical scale never
      divides by zero, and it holds every value of the series. */
  lemma ChartRangeNonEmpty(values: seq<real>)
    requires |values| >= 1
    ensures ChartRange(values).0 < ChartRange(values).1
    ensures forall v :: v in values ==> ChartRange(values).0 <= v <= ChartRange(values).1
  {
  }

  /** The record addMetric stores for the metric added as number `index`:
      its colour is the chart palette slot index % CHART_PALETTE_SIZE. */
  function NewMetric(name: string, current: real, values: seq<real>, index: nat): MetricData
    requires |values| >= 1
  {
    var r := ChartRange(values);
    MetricData(name, current, r.0, r.1, values, index % CHART_PALETTE_SIZE)
  }

  /** The record addMetric fills in: the chart range from the min/max loop,
      nudged when flat, and the palette slot of its position. */
  method BuildMetric(name: string, current: real, values: seq<real>, index: nat) returns (m: MetricData)
    requires |values| >= 1
    ensures m == NewMetric(name, current, values, index)
  {
    var lo, hi := Extremes(values);
    if lo == hi {
      hi := hi + FLAT_NUDGE;
    }
    m := MetricData(name, current, lo, hi, values, index % CHART_PALETTE_SIZE);
  }

  /** The min/max loop of addMetric, seeded with values[0]. */
  method Extremes(values: seq<real>) returns (lo: real, hi: real)
    requires |values| >= 1
    ensures lo == SeqMin(values) && hi == SeqMax(values)
  {
    lo, hi := values[0], values[0];
    var i := 0;
    while i < |values|
      invariant 0 <= i <= |values|
      invariant lo in values && hi in values
      invariant forall k :: 0 <= k < i ==> lo <= values[k] <= hi
      invariant lo <= values[0] <= hi
    {
      if values[i] < lo {
        lo := values[i];
      }
      if values[i] > hi {
        hi := values[i];
      }
      i := i + 1;
    }
    assert forall v :: v in values ==> lo <= v <= hi;
  }

  /** The capacity of the metric list after appending to `count` metrics:
      it doubles when full. */
  function Grown(capacity: nat, count: nat): nat {
    if count >= capacity then 2 * capacity else capacity
  }

  /** The row loop of MetricsPanel_reflow: one Panel item per grid row,
      each holding the next `columns` metrics (fewer for the last row). */
  method AddRows(p: Panel, ms: seq<MetricData>, columns: int)
    requires p.Valid() && columns >= 1
    modifies p`items, p`capacity, p`needsRedraw
    ensures p.Valid()
    ensures p.items == old(p.items) + RowItems(ms, columns)
    ensures p.capacity >= old(p.capacity)
    ensures p.needsRedraw == (old(p.needsRedraw) || ms != [])
  {
    ghost var rest := ms;
    var i := 0;
    while i < |ms|
      invariant p.Valid() && p.capacity >= old(p.capacity)
      invariant p.needsRedraw == (old(p.needsRedraw) || i > 0)
      invariant i >= 0 && (i > 0 ==> ms != [])
      invariant i <= |ms| ==> rest == ms[i..]
      invariant i > |ms| ==> rest == []
      invariant p.items + RowItems(rest, columns) == old(p.items) + RowItems(ms, columns)
      decreases |ms| - i
    {
      rest := AddRow(p, ms, columns, i, rest);
      i := i + columns;
    }
  }

  /** One round of the row loop: the item for the row starting at metric `i`. */
  method AddRow(p: Panel, ms: seq<MetricData>, columns: int, i: nat, ghost rest: seq<MetricData>)
    returns (ghost rest': seq<MetricData>)
    requires p.Valid() && columns >= 1 && i < |ms| && rest == ms[i..]
    modifies p`items, p`capacity, p`needsRedraw
    ensures p.Valid() && p.capacity >= old(p.capacity) && p.needsRedraw
    ensures p.items + RowItems(rest', columns) == old(p.items) + RowItems(rest, columns)
    ensures i + columns <= |ms| ==> rest' == ms[i + columns..]
    ensures i + columns > |ms| ==> rest' == []
  {
    var remaining := |ms| - i;
    var count := if remaining < columns then remaining else columns;
    var row := ms[i..i + count];
    RowItemsUnfold(rest, columns);
    assert row == rest[..count];
    assert RowItems(rest, columns) == [RowItem(row)] + RowItems(rest[count..], columns);
    var _ := p.AddItem(Some(""), Some(MetricRow(row)));
    assert p.items == old(p.items) + [RowItem(row)];
    rest' := rest[count..];
    assert rest' == ms[i + count..];
  }

  /** A Panel with the hooks of the metrics grid installed. */
  ghost predicate GridPanel(p: Panel)
    reads p
  {
    && p.Valid()
    && p.drawer == MetricsDrawer && p.hasCleanup && p.hasEventHandler && p.hasResizeHook
    && p.itemHeight == METRIC_CARD_HEIGHT
  }

  /** The Panel side of MetricsPanel_reflow: clear the Panel, set the card
      height and add the rows of `ms` at `columns` columns. */
  method Regrid(p: Panel, ms: seq<MetricData>, columns: int)
    requires GridPanel(p) && columns >= 1
    modifies p`items, p`capacity, p`selected, p`scrollV, p`scrollH
    modifies p`needsRedraw, p`cleanupLog, p`itemHeight
    ensures GridPanel(p)
    ensures p.items == RowItems(ms, columns)
    ensures p.cleanupLog == old(p.cleanupLog) + DataOf(old(p.items))
    ensures p.selected == 0 && p.scrollV == 0 && p.scrollH == 0 && p.needsRedraw
    ensures p.capacity >= old(p.capacity)
  {
    p.Clear();
    p.SetItemHeight(METRIC_CARD_HEIGHT);
    AddRows(p, ms, columns);
  }

  /** The Panel part of MetricsPanel_new. */
  method NewGridPanel(x0: int, y0: int, w0: int, h0: int) returns (p: Panel)
    ensures fresh(p) && GridPanel(p) && p.items == []
    ensures p.x == x0 && p.y == y0 && p.w == w0 && p.h == h0 && p.header == Some("Metrics")
    ensures p.selected == 0 && p.scrollV == 0 && p.scrollH == 0 && p.needsRedraw
    ensures !p.hasFocus && p.cleanupLog == []
  {
    p := new Panel(x0, y0, w0, h0, Some("Metrics"));
    p.SetDrawItem(MetricsDrawer);
    p.SetCleanupCallback(true);
    p.SetEventHandler(true);
    p.SetItemHeight(METRIC_CARD_HEIGHT);
    p.SetResizeCallback(true);
  }

  // --- The metrics grid panel ---

  /** A metrics grid: the Panel it draws into (its items are the grid rows)
      and the MetricsState behind it. */
  class MetricsPanel {
    const panel: Panel
    /** Every metric added, in order (all_metrics / total_count). */
    var allMetrics: seq<MetricData>
    var capacity: nat
    var columns: int
    /** The selected card within the selected row. */
    var selectedCol: int
    /** The panel width at the last reflow. */
    var lastWidth: int

    /** The hooks and the state invariants MetricsPanel_new establishes. */
    ghost predicate Wired()
      reads this, panel
    {
      && GridPanel(panel)
      && columns >= 1 && selectedCol >= 0
      && IsCapacity(capacity) && |allMetrics| <= capacity
    }

    /** Wired, and the Panel shows the grid of the metrics at the current
      column count, or nothing (after someone cleared the Panel). */
    ghost predicate Valid()
      reads this, panel
    {
      Wired() && (panel.items == [] || panel.items == RowItems(allMetrics, columns))
    }

    /** MetricsPanel_new: a Panel titled "Metrics" with the grid hooks
        installed, an empty metric list of capacity 16 and one column. */
    constructor (x0: int, y0: int, w0: int, h0: int)
      ensures Valid() && fresh(panel)
      ensures allMetrics == [] && capacity == INITIAL_METRIC_CAPACITY
      ensures columns == 1 && selectedCol == 0 && lastWidth == 0
      ensures panel.x == x0 && panel.y == y0 && panel.w == w0 && panel.h == h0
      ensures panel.header == Some("Metrics") && panel.items == []
      ensures panel.selected == 0 && panel.scrollV == 0 && panel.scrollH == 0 && panel.needsRedraw
      ensures !panel.hasFocus && panel.cleanupLog == []
    {
      var p := NewGridPanel(x0, y0, w0, h0);
      panel := p;
      allMetrics := [];
      capacity := INITIAL_METRIC_CAPACITY;
      columns := 1;
      selectedCol := 0;
      lastWidth := 0;
    }

    /** MetricsPanel_reflow: recompute the column count from the panel
        width, clear the Panel (freeing its rows through the cleanup hook)
        and add one item per grid row. The selection returns to the first
        row; the selected card column is kept. */
    method Reflow()
      requires Wired()
      modifies this`columns, this`lastWidth
      modifies panel`items, panel`capacity, panel`selected, panel`scrollV, panel`scrollH
      modifies panel`needsRedraw, panel`cleanupLog, panel`itemHeight
      ensures Valid()
      ensures lastWidth == panel.w && columns == ColumnsFor(panel.w)
      ensures panel.items == RowItems(allMetrics, columns)
      ensures panel.cleanupLog == old(panel.cleanupLog) + DataOf(old(panel.items))
      ensures panel.selected == 0 && panel.scrollV == 0 && panel.scrollH == 0 && panel.needsRedraw
      ensures panel.capacity >= old(panel.capacity)
    {
      lastWidth := panel.w;
      columns := CDiv(panel.w, METRIC_MIN_WIDTH);
      if columns < 1 {
        columns := 1;
      }
      Regrid(panel, allMetrics, columns);
    }

    /** MetricsPanel_handleResize, installed as the resize hook, which
        Panel_resize never calls: reflow when the column
        count for the new width `w` differs or there are metrics to lay
        out. The reflow itself reads the Panel's width. Either way, once
        the Panel is `w` wide, the grid is that of `w`. */
    method HandleResize(w: int, h: int)
      requires Valid()
      modifies this`columns, this`lastWidth
      modifies panel`items, panel`capacity, panel`selected, panel`scrollV, panel`scrollH
      modifies panel`needsRedraw, panel`cleanupLog, panel`itemHeight
      ensures Valid()
      ensures ColumnsFor(w) != old(columns) || |allMetrics| > 0 ==>
                && lastWidth == panel.w && columns == ColumnsFor(panel.w)
                && panel.items == RowItems(allMetrics, columns)
                && panel.cleanupLog == old(panel.cleanupLog) + DataOf(old(panel.items))
                && panel.selected == 0 && panel.scrollV == 0 && panel.scrollH == 0 && panel.needsRedraw
      ensures !(ColumnsFor(w) != old(columns) || |allMetrics| > 0) ==>
                unchanged(this) && unchanged(panel)
      ensures panel.w == w ==> columns == ColumnsFor(w) && panel.items == RowItems(allMetrics, columns)
    {
      var newColumns := CDiv(w, METRIC_MIN_WIDTH);
      if newColumns < 1 {
        newColumns := 1;
      }
      if newColumns != columns || |allMetrics| > 0 {
        Reflow();
      } else {
        assert RowItems(allMetrics, columns) == [];
      }
    }

    /** MetricsPanel_updateSize: resize the Panel and reflow. */
    method UpdateSize(w: int, h: int)
      requires Valid()
      modifies this`columns, this`lastWidth
      modifies panel`items, panel`capacity, panel`selected, panel`scrollV, panel`scrollH
      modifies panel`needsRedraw, panel`cleanupLog, panel`itemHeight, panel`w, panel`h
      ensures Valid()
      ensures panel.w == w && panel.h == h
      ensures lastWidth == w && columns == ColumnsFor(w)
      ensures panel.items == RowItems(allMetrics, columns)
      ensures panel.selected == 0 && panel.scrollV == 0 && panel.scrollH == 0 && panel.needsRedraw
    {
      panel.Resize(w, h);
      Reflow();
    }

    /** MetricsPanel_addMetric: start a new metric list when the Panel has
        been cleared since the last add, append the metric with its chart
        range and palette slot, grow the list when full, and reflow. */
    method AddMetric(name: string, current: real, values: seq<real>)
      requires Valid() && |values| >= 1
      modifies this`allMetrics, this`capacity, this`columns, this`lastWidth
      modifies panel`items, panel`capacity, panel`selected, panel`scrollV, panel`scrollH
      modifies panel`needsRedraw, panel`cleanupLog, panel`itemHeight
      ensures Valid()
      ensures var base := if old(panel.items) == [] && old(allMetrics) != [] then [] else old(allMetrics);
              && allMetrics == base + [NewMetric(name, current, values, |base|)]
              && capacity == Grown(old(capacity), |base|)
      ensures lastWidth == panel.w && columns == ColumnsFor(panel.w)
      ensures panel.items == RowItems(allMetrics, columns)
      ensures panel.selected == 0 && panel.scrollV == 0 && panel.scrollH == 0 && panel.needsRedraw
    {
      if |panel.items| == 0 && |allMetrics| > 0 {
        allMetrics := [];
      }
      var m := BuildMetric(name, current, values, |allMetrics|);
      if |allMetrics| >= capacity {
        CapacityDoubles(capacity);
        capacity := 2 * capacity;
      }
      allMetrics := allMetrics + [m];
      Reflow();
    }

    /** MetricsPanel_handleKey: move the selected card left or right in
        reading order, wrapping between rows, and answer HANDLED; at the
        first card (for KEY_LEFT), the last card (for KEY_RIGHT), on an
        empty grid and for every other key answer IGNORED. */
    method HandleKey(key: int) returns (result: nat)
      requires Valid()
      modifies this`selectedCol, panel`selected, panel`needsRedraw
      ensures Valid()
      ensures panel.items == [] ==>
                result == IGNORED && selectedCol == old(selectedCol)
                && panel.selected == old(panel.selected) && panel.needsRedraw == old(panel.needsRedraw)
      ensures panel.items != [] ==>
                var nav := Navigate(key, Cursor(old(panel.selected), old(selectedCol)), RowCounts(allMetrics, columns));
                && result == (if nav.1 then HANDLED else IGNORED)
                && panel.selected == nav.0.row && selectedCol == nav.0.col
                && panel.needsRedraw == (old(panel.needsRedraw) || nav.1)
    {
      if |panel.items| == 0 {
        return IGNORED;
      }
      if key == KEY_LEFT {
        result := MoveLeft();
        return;
      }
      if key == KEY_RIGHT {
        result := MoveRight();
        return;
      }
      return IGNORED;
    }

    /** The KEY_LEFT case of MetricsPanel_handleKey. */
    method MoveLeft() returns (result: nat)
      requires Valid() && panel.items != []
      modifies this`selectedCol, panel`selected, panel`needsRedraw
      ensures Valid()
      ensures var nav := Navigate(KEY_LEFT, Cursor(old(panel.selected), old(selectedCol)), RowCounts(allMetrics, columns));
              && result == (if nav.1 then HANDLED else IGNORED)
              && panel.selected == nav.0.row && selectedCol == nav.0.col
              && panel.needsRedraw == (old(panel.needsRedraw) || nav.1)
    {
      var row := panel.selected;
      if selectedCol > 0 {
        selectedCol := selectedCol - 1;
        panel.SetNeedsRedraw();
        return HANDLED;
      } else if row > 0 {
        panel.SetSelected(row - 1);
        RowItemsCarryRows(allMetrics, columns, row - 1);
        selectedCol := |panel.items[row - 1].data.value.cards| - 1;
        panel.SetNeedsRedraw();
        return HANDLED;
      }
      return IGNORED;
    }

    /** The KEY_RIGHT case of MetricsPanel_handleKey. */
    method MoveRight() returns (result: nat)
      requires Valid() && panel.items != []
      modifies this`selectedCol, panel`selected, panel`needsRedraw
      ensures Valid()
      ensures var nav := Navigate(KEY_RIGHT, Cursor(old(panel.selected), old(selectedCol)), RowCounts(allMetrics, columns));
              && result == (if nav.1 then HANDLED else IGNORED)
              && panel.selected == nav.0.row && selectedCol == nav.0.col
              && panel.needsRedraw == (old(panel.needsRedraw) || nav.1)
    {
      var row := panel.selected;
      var total := |panel.items|;
      RowItemsCarryRows(allMetrics, columns, row);
      var count := |panel.items[row].data.value.cards|;
      if selectedCol < count - 1 {
        selectedCol := selectedCol + 1;
        panel.SetNeedsRedraw();
        return HANDLED;
      } else if row < total - 1 {
        panel.SetSelected(row + 1);
        selectedCol := 0;
        panel.SetNeedsRedraw();
        return HANDLED;
      }
      return IGNORED;
    }

    /** Panel_onKey on the grid: the grid's handler runs first, then the
        Panel's own bindings when it answered IGNORED. */
    method OnKey(key: int) returns (consumed: bool)
      requires Valid()
      modifies this`selectedCol, panel`selected, panel`scrollV, panel`scrollH, panel`needsRedraw
      ensures Valid()
      ensures panel.items != [] && (key == KEY_LEFT || key == KEY_RIGHT) ==> consumed
      ensures consumed == (panel.items != [] &&
                (Navigate(key, Cursor(old(panel.selected), old(selectedCol)), RowCounts(allMetrics, columns)).1
                 || IsBoundKey(key)))
      ensures panel.items != [] && Navigate(key, Cursor(old(panel.selected), old(selectedCol)), RowCounts(allMetrics, columns)).1 ==>
                var nav := Navigate(key, Cursor(old(panel.selected), old(selectedCol)), RowCounts(allMetrics, columns));
                panel.Content() == old(panel.Content()).(selected := nav.0.row) && selectedCol == nav.0.col
      ensures panel.items == [] || !Navigate(key, Cursor(old(panel.selected), old(selectedCol)), RowCounts(allMetrics, columns)).1 ==>
                panel.Content() == KeyContent(old(panel.Content()), panel.h, key, IGNORED) && selectedCol == old(selectedCol)
    {
      var result := HandleKey(key);
      consumed := panel.OnKey(key, result);
    }

    /** MetricsPanel_drawItem: the cards of grid row `index`, or nothing for
        a row the Panel does not have. */
    method DrawItem(index: int, y: int, x: int, w: int, rowSelected: bool) returns (cards: seq<CardDraw>)
      requires Valid()
      ensures !(0 <= index < |panel.items|) ==> cards == []
      ensures 0 <= index < |panel.items| ==>
                var row := Rows(allMetrics, columns)[index];
                && |cards| == |row|
                && forall i :: 0 <= i < |row| ==>
                     cards[i] == CardDraw(row[i], y, CardX(x, w, columns, i), CardWidth(w, columns, |row|, i),
                                          CardFocused(i, |row|, selectedCol, rowSelected, panel.hasFocus))
    {
      var item := panel.GetItem(index);
      if 0 <= index < |panel.items| {
        RowItemsCarryRows(allMetrics, columns, index);
      }
      if item.None? || item.value.data.None? {
        return [];
      }
      cards := RowCards(item.value.data.value.cards, y, x, w, columns, selectedCol, rowSelected, panel.hasFocus);
    }
  }
}
