/**
 * The braille sparkline renderer.
 *
 * A chart of `width` x `height` terminal cells is drawn on a virtual dot
 * grid of (2 * width) x (4 * height) pixels: every sample is projected to a
 * dot, consecutive dots are joined by a Bresenham line, and every 2 x 4
 * block of dots is collapsed into one Unicode braille glyph (U+2800 plus
 * one bit per raised dot), written out as three UTF-8 bytes. A block with
 * no dot is written as a plain space.
 *
 * The dot grid is row-major, `vy * vw + vx`, with `vy == 0` the bottom row;
 * glyph rows are counted from the top of the chart.
 */
module Sparkline {
  import opened Constants
  import opened Series
  import opened Wrappers

  type Dot = (int, int)

  function Abs(a: int): (r: nat)
    ensures r == a || r == -a
  {
    if a < 0 then -a else a
  }

  /** The direction of a Bresenham step from `a` towards `b` (-1 when `a >= b`). */
  function Step(a: int, b: int): (s: int)
    ensures s == 1 || s == -1
    ensures s == 1 <==> a < b
  {
    if a < b then 1 else -1
  }

  // ---------------------------------------------------------------------------
  // Bresenham's line between two dots
  // ---------------------------------------------------------------------------

  /** Bresenham's two tests on the doubled error term `e2`. */
  predicate ColumnStep(dx: nat, dy: nat, e2: int)
  {
    e2 > -(dy as int)
  }

  predicate RowStep(dx: nat, dy: nat, e2: int)
  {
    e2 < dx
  }

  /**
   * One step of the walk from the dot `rx` columns and `ry` rows short of the
   * end point, with error term `err`: the columns and rows that remain and
   * the new error term (-dy per column step, +dx per row step). A step is
   * only taken on an axis with distance left.
   */
  function Next(dx: nat, dy: nat, rx: nat, ry: nat, err: int): (n: (nat, nat, int))
    ensures n.0 <= rx && n.1 <= ry
  {
    var e2 := 2 * err;
    (if ColumnStep(dx, dy, e2) && rx > 0 then rx - 1 else rx,
     if RowStep(dx, dy, e2) && ry > 0 then ry - 1 else ry,
     err - (if ColumnStep(dx, dy, e2) then dy else 0) + (if RowStep(dx, dy, e2) then dx else 0))
  }

  /** The coordinate `r` units short of `end` when moving in direction `s`. */
  function Back(end: int, s: int, r: int): int
  {
    if s == 1 then end - r else end + r
  }

  /**
   * The dots visited from the dot `rx` columns and `ry` rows short of
   * (x1, y1) up to (x1, y1). The walk stops early only if no step is
   * possible, which `WalkEnds` shows never happens from a consistent state.
   */
  function Walk(x1: int, y1: int, sx: int, sy: int, dx: nat, dy: nat, rx: nat, ry: nat, err: int): (path: seq<Dot>)
    ensures |path| >= 1 && path[0] == (Back(x1, sx, rx), Back(y1, sy, ry))
    decreases rx + ry
  {
    if rx == 0 && ry == 0 then [(x1, y1)]
    else
      var n := Next(dx, dy, rx, ry, err);
      if n.0 + n.1 == rx + ry then [(Back(x1, sx, rx), Back(y1, sy, ry))]
      else [(Back(x1, sx, rx), Back(y1, sy, ry))] + Walk(x1, y1, sx, sy, dx, dy, n.0, n.1, n.2)
  }

  /** The dots Bresenham's algorithm visits from (x0, y0) to (x1, y1). */
  function Line(x0: int, y0: int, x1: int, y1: int): (path: seq<Dot>)
    ensures |path| >= 1 && path[0] == (x0, y0)
  {
    var sx := Step(x0, x1);
    var sy := Step(y0, y1);
    var dx := Abs(x1 - x0);
    var dy := Abs(y1 - y0);
    Walk(x1, y1, sx, sy, dx, dy, dx, dy, dx as int - dy as int)
  }

  // The consistency of the error term, which only the proofs need.

  /**
   * The error term when `rx` columns and `ry` rows of a dx x dy line remain:
   * dx - dy at the start, then -dy per column step and +dx per row step.
   */
  function ErrorTerm(dx: nat, dy: nat, rx: nat, ry: nat): int
  {
    dx - dy + dy * rx - dx * ry
  }

  lemma NatMulMono(a: nat, b: nat, c: nat)
    requires a <= b
    ensures a * c <= b * c
  {
  }

  /**
   * From a consistent state that is not the end point, a column step is
   * only due while a column remains, a row step only while a row remains,
   * at least one of them is due, and the new error term is consistent again.
   */
  lemma {:induction false} StepSafe(dx: nat, dy: nat, rx: nat, ry: nat)
    requires rx <= dx && ry <= dy && !(rx == 0 && ry == 0)
    ensures ColumnStep(dx, dy, 2 * ErrorTerm(dx, dy, rx, ry)) ==> rx >= 1
    ensures RowStep(dx, dy, 2 * ErrorTerm(dx, dy, rx, ry)) ==> ry >= 1
    ensures ColumnStep(dx, dy, 2 * ErrorTerm(dx, dy, rx, ry)) || RowStep(dx, dy, 2 * ErrorTerm(dx, dy, rx, ry))
    ensures Next(dx, dy, rx, ry, ErrorTerm(dx, dy, rx, ry)).2
      == ErrorTerm(dx, dy, Next(dx, dy, rx, ry, ErrorTerm(dx, dy, rx, ry)).0, Next(dx, dy, rx, ry, ErrorTerm(dx, dy, rx, ry)).1)
  {
    if rx == 0 {
      assert dy * rx == 0;
      assert dx * ry >= dx by { NatMulMono(1, ry, dx); }
    } else if ry == 0 {
      assert dx * ry == 0;
      assert dy * rx >= dy by { NatMulMono(1, rx, dy); }
    }
    StepConsistent(dx, dy, rx, ry, ColumnStep(dx, dy, 2 * ErrorTerm(dx, dy, rx, ry)), RowStep(dx, dy, 2 * ErrorTerm(dx, dy, rx, ry)));
  }

  /** Taking a column step and/or a row step keeps the error term consistent. */
  lemma StepConsistent(dx: nat, dy: nat, rx: nat, ry: nat, col: bool, row: bool)
    requires col ==> rx >= 1
    requires row ==> ry >= 1
    ensures ErrorTerm(dx, dy, rx, ry) - (if col then dy else 0) + (if row then dx else 0)
      == ErrorTerm(dx, dy, if col then rx - 1 else rx, if row then ry - 1 else ry)
  {
    if col {
      assert dy * (rx - 1) == dy * rx - dy;
    }
    if row {
      assert dx * (ry - 1) == dx * ry - dx;
    }
  }

  /** From a consistent state every step makes progress and the walk reaches (x1, y1). */
  lemma {:induction false} WalkEnds(x1: int, y1: int, sx: int, sy: int, dx: nat, dy: nat, rx: nat, ry: nat)
    requires rx <= dx && ry <= dy
    ensures Walk(x1, y1, sx, sy, dx, dy, rx, ry, ErrorTerm(dx, dy, rx, ry))[
      |Walk(x1, y1, sx, sy, dx, dy, rx, ry, ErrorTerm(dx, dy, rx, ry))| - 1] == (x1, y1)
    decreases rx + ry
  {
    if !(rx == 0 && ry == 0) {
      StepSafe(dx, dy, rx, ry);
      var n := Next(dx, dy, rx, ry, ErrorTerm(dx, dy, rx, ry));
      WalkEnds(x1, y1, sx, sy, dx, dy, n.0, n.1);
    }
  }

  /** Two dots are neighbours: distinct, and at most one step apart on each axis. */
  predicate Adjacent(p: Dot, q: Dot)
  {
    p != q && -1 <= q.0 - p.0 <= 1 && -1 <= q.1 - p.1 <= 1
  }

  predicate Connected(path: seq<Dot>)
  {
    forall i :: 0 <= i < |path| - 1 ==> Adjacent(path[i], path[i + 1])
  }

  predicate Between(a: int, v: int, b: int)
  {
    (a <= v <= b) || (b <= v <= a)
  }

  /** Every step of a walk moves to a neighbouring dot. */
  lemma {:induction false} WalkConnected(x1: int, y1: int, sx: int, sy: int, dx: nat, dy: nat, rx: nat, ry: nat, err: int)
    requires (sx == 1 || sx == -1) && (sy == 1 || sy == -1)
    ensures Connected(Walk(x1, y1, sx, sy, dx, dy, rx, ry, err))
    decreases rx + ry
  {
    var path := Walk(x1, y1, sx, sy, dx, dy, rx, ry, err);
    var n := Next(dx, dy, rx, ry, err);
    if !(rx == 0 && ry == 0) && n.0 + n.1 != rx + ry {
      var rest := Walk(x1, y1, sx, sy, dx, dy, n.0, n.1, n.2);
      WalkConnected(x1, y1, sx, sy, dx, dy, n.0, n.1, n.2);
      assert path == [path[0]] + rest;
      assert Adjacent(path[0], rest[0]);
      forall i | 0 <= i < |path| - 1
        ensures Adjacent(path[i], path[i + 1])
      {
        if i > 0 {
          assert path[i] == rest[i - 1] && path[i + 1] == rest[i];
        }
      }
    }
  }

  /** A walk stays between its first dot and (x1, y1) on both axes. */
  lemma {:induction false} WalkBounded(x1: int, y1: int, sx: int, sy: int, dx: nat, dy: nat, rx: nat, ry: nat, err: int)
    requires (sx == 1 || sx == -1) && (sy == 1 || sy == -1)
    ensures forall i :: 0 <= i < |Walk(x1, y1, sx, sy, dx, dy, rx, ry, err)| ==>
      Between(Back(x1, sx, rx), Walk(x1, y1, sx, sy, dx, dy, rx, ry, err)[i].0, x1)
      && Between(Back(y1, sy, ry), Walk(x1, y1, sx, sy, dx, dy, rx, ry, err)[i].1, y1)
    decreases rx + ry
  {
    var path := Walk(x1, y1, sx, sy, dx, dy, rx, ry, err);
    var n := Next(dx, dy, rx, ry, err);
    if !(rx == 0 && ry == 0) && n.0 + n.1 != rx + ry {
      var rest := Walk(x1, y1, sx, sy, dx, dy, n.0, n.1, n.2);
      WalkBounded(x1, y1, sx, sy, dx, dy, n.0, n.1, n.2);
      assert path == [path[0]] + rest;
      forall i | 0 <= i < |path|
        ensures Between(Back(x1, sx, rx), path[i].0, x1) && Between(Back(y1, sy, ry), path[i].1, y1)
      {
        if i > 0 {
          assert path[i] == rest[i - 1];
        }
      }
    }
  }

  /**
   * The line from (x0, y0) to (x1, y1) starts and ends at those dots, is
   * 8-connected, and stays inside their bounding box.
   */
  lemma LineShape(x0: int, y0: int, x1: int, y1: int)
    ensures Line(x0, y0, x1, y1)[0] == (x0, y0)
    ensures Line(x0, y0, x1, y1)[|Line(x0, y0, x1, y1)| - 1] == (x1, y1)
    ensures Connected(Line(x0, y0, x1, y1))
    ensures forall i :: 0 <= i < |Line(x0, y0, x1, y1)| ==>
      Between(x0, Line(x0, y0, x1, y1)[i].0, x1) && Between(y0, Line(x0, y0, x1, y1)[i].1, y1)
  {
    var sx := Step(x0, x1);
    var sy := Step(y0, y1);
    var dx := Abs(x1 - x0);
    var dy := Abs(y1 - y0);
    assert ErrorTerm(dx, dy, dx, dy) == dx as int - dy as int;
    WalkEnds(x1, y1, sx, sy, dx, dy, dx, dy);
    WalkConnected(x1, y1, sx, sy, dx, dy, dx, dy, dx as int - dy as int);
    WalkBounded(x1, y1, sx, sy, dx, dy, dx, dy, dx as int - dy as int);
  }

  /** The line reaches its end dot. */
  lemma LineReaches(x0: int, y0: int, x1: int, y1: int)
    ensures (x1, y1) in Line(x0, y0, x1, y1)
  {
    LineShape(x0, y0, x1, y1);
  }

  // ---------------------------------------------------------------------------
  // Plotting dots into the grid
  // ---------------------------------------------------------------------------

  /** The grid offsets of the dots of `path` that fall inside a `w` x `h` grid. */
  function Cells(path: seq<Dot>, w: int, h: int): set<int>
  {
    set p | p in path && 0 <= p.0 < w && 0 <= p.1 < h :: Offset(p, w)
  }

  /** The row-major offset of dot `p` in a grid `w` dots wide. */
  function Offset(p: Dot, w: int): int
  {
    p.1 * w + p.0
  }

  lemma CellsHas(path: seq<Dot>, p: Dot, w: int, h: int)
    requires p in path && 0 <= p.0 < w && 0 <= p.1 < h
    ensures Offset(p, w) in Cells(path, w, h)
  {
  }

  /** A dot inside the grid has an offset inside the grid's storage. */
  lemma CellInGrid(x: int, y: int, w: int, h: int)
    requires 0 <= x < w && 0 <= y < h
    ensures 0 <= y * w + x < w * h
  {
    assert y * w <= (h - 1) * w by { NatMulMono(y, h - 1, w); }
    assert (h - 1) * w == h * w - w;
  }

  /** Every offset of `Cells(path, w, h)` lies inside the grid's storage. */
  lemma CellsInGrid(path: seq<Dot>, w: int, h: int)
    ensures forall k :: k in Cells(path, w, h) ==> 0 <= k < w * h
  {
    forall k | k in Cells(path, w, h)
      ensures 0 <= k < w * h
    {
      var p :| p in path && 0 <= p.0 < w && 0 <= p.1 < h && k == p.1 * w + p.0;
      CellInGrid(p.0, p.1, w, h);
    }
  }

  lemma CellsAppend(path: seq<Dot>, p: Dot, w: int, h: int)
    ensures Cells(path + [p], w, h) ==
      Cells(path, w, h) + (if 0 <= p.0 < w && 0 <= p.1 < h then {Offset(p, w)} else {})
  {
    var both := path + [p];
    forall q | q in both
      ensures q in path || q == p
    {
    }
  }

  /**
   * Draws the Bresenham line from (x0, y0) to (x1, y1) into the `w` x `h`
   * dot grid: exactly the cells of its dots that fall inside the grid are
   * raised, and every other cell keeps its value.
   */
  method DrawVirtualLine(grid: array<bool>, w: int, h: int, x0: int, y0: int, x1: int, y1: int)
    requires 0 <= w && 0 <= h && grid.Length == w * h
    modifies grid
    ensures forall k :: 0 <= k < grid.Length ==>
      grid[k] == (old(grid[k]) || k in Cells(Line(x0, y0, x1, y1), w, h))
  {
    var dx := Abs(x1 - x0);
    var dy := Abs(y1 - y0);
    var sx := Step(x0, x1);
    var sy := Step(y0, y1);
    var err := dx as int - dy as int;
    var x, y := x0, y0;
    ghost var rx: nat, ry: nat := dx, dy;
    ghost var full := Line(x0, y0, x1, y1);
    ghost var i := 0;
    assert err == ErrorTerm(dx, dy, rx, ry);
    while true
      invariant rx <= dx && ry <= dy && err == ErrorTerm(dx, dy, rx, ry)
      invariant x == Back(x1, sx, rx) && y == Back(y1, sy, ry)
      invariant 0 <= i < |full| && full[i..] == Walk(x1, y1, sx, sy, dx, dy, rx, ry, err)
      invariant Raised(grid[..], old(grid[..]), Cells(full[..i], w, h))
      decreases rx + ry
    {
      WalkSuffix(full, i, x1, y1, sx, sy, dx, dy, rx, ry);
      Plot(grid, w, h, x, y, old(grid[..]), full[..i]);
      if x == x1 && y == y1 {
        break;
      }
      err, x, y, rx, ry := Advance(x1, y1, sx, sy, dx, dy, rx, ry, err, x, y);
      i := i + 1;
    }
  }

  /**
   * When `full[i..]` is the walk from a consistent state, the dot at `i` is
   * the current one; at the end point `i` is the last index, and otherwise
   * `full[i + 1..]` is the walk from the next dot.
   */
  lemma WalkSuffix(full: seq<Dot>, i: int, x1: int, y1: int, sx: int, sy: int, dx: nat, dy: nat, rx: nat, ry: nat)
    requires rx <= dx && ry <= dy && (sx == 1 || sx == -1) && (sy == 1 || sy == -1)
    requires 0 <= i < |full| && full[i..] == Walk(x1, y1, sx, sy, dx, dy, rx, ry, ErrorTerm(dx, dy, rx, ry))
    ensures full[i] == (Back(x1, sx, rx), Back(y1, sy, ry))
    ensures full[..i] + [full[i]] == full[..i + 1]
    ensures (Back(x1, sx, rx) == x1 && Back(y1, sy, ry) == y1) <==> (rx == 0 && ry == 0)
    ensures rx == 0 && ry == 0 ==> full[..i + 1] == full
    ensures !(rx == 0 && ry == 0) ==>
      var n := Next(dx, dy, rx, ry, ErrorTerm(dx, dy, rx, ry));
      i + 1 < |full| && full[i + 1..] == Walk(x1, y1, sx, sy, dx, dy, n.0, n.1, n.2)
  {
    assert full[i] == full[i..][0];
    if !(rx == 0 && ry == 0) {
      StepSafe(dx, dy, rx, ry);
      var n := Next(dx, dy, rx, ry, ErrorTerm(dx, dy, rx, ry));
      var w := Walk(x1, y1, sx, sy, dx, dy, rx, ry, ErrorTerm(dx, dy, rx, ry));
      assert w == [w[0]] + Walk(x1, y1, sx, sy, dx, dy, n.0, n.1, n.2);
      assert full[i + 1..] == full[i..][1..];
    }
  }

  /** One step of Bresenham's loop: the two tests on the doubled error term. */
  method Advance(x1: int, y1: int, sx: int, sy: int, dx: nat, dy: nat, ghost rx: nat, ghost ry: nat, err: int, x: int, y: int)
    returns (err': int, x': int, y': int, ghost rx': nat, ghost ry': nat)
    requires rx <= dx && ry <= dy && !(rx == 0 && ry == 0) && (sx == 1 || sx == -1) && (sy == 1 || sy == -1)
    requires err == ErrorTerm(dx, dy, rx, ry) && x == Back(x1, sx, rx) && y == Back(y1, sy, ry)
    ensures (rx', ry', err') == Next(dx, dy, rx, ry, err)
    ensures err' == ErrorTerm(dx, dy, rx', ry') && x' == Back(x1, sx, rx') && y' == Back(y1, sy, ry')
  {
    StepSafe(dx, dy, rx, ry);
    rx', ry' := Next(dx, dy, rx, ry, err).0, Next(dx, dy, rx, ry, err).1;
    err', x', y' := err, x, y;
    var e2 := 2 * err;
    if e2 > -(dy as int) {
      err' := err' - dy;
      x' := x' + sx;
    }
    if e2 < dx {
      err' := err' + dx;
      y' := y' + sy;
    }
  }

  /** `grid` is `before` with exactly the cells in `cells` raised as well. */
  predicate Raised(grid: seq<bool>, before: seq<bool>, cells: set<int>)
  {
    |grid| == |before| && forall k :: 0 <= k < |grid| ==> grid[k] == (before[k] || k in cells)
  }

  /** Raises the cell of dot (x, y) when it lies inside the grid. */
  method Plot(grid: array<bool>, w: int, h: int, x: int, y: int, ghost before: seq<bool>, ghost done: seq<Dot>)
    requires 0 <= w && 0 <= h && grid.Length == w * h
    requires Raised(grid[..], before, Cells(done, w, h))
    modifies grid
    ensures Raised(grid[..], before, Cells(done + [(x, y)], w, h))
  {
    CellsAppend(done, (x, y), w, h);
    if 0 <= x < w && 0 <= y < h {
      CellInGrid(x, y, w, h);
      grid[y * w + x] := true;
    }
  }

  // ---------------------------------------------------------------------------
  // Projecting samples onto the dot grid
  // ---------------------------------------------------------------------------

  /** The "safety" clamps of the projection: below 0 becomes 0, `n` or more becomes n - 1. */
  function Fence(v: int, n: int): (r: int)
    ensures n >= 1 ==> 0 <= r < n
    ensures 0 <= v < n ==> r == v
  {
    var a := if v < 0 then 0 else v;
    if a >= n then n - 1 else a
  }

  /**
   * The column of sample `i` of `count`, as written: `i * (vw - 1)` divided
   * by `count - 1` and truncated. With a single sample this is 0.0 / 0.0 in
   * double precision, whose conversion to int is undefined.
   */
  function ColumnAsWritten(i: nat, count: nat, vw: nat): (vx: Option<int>)
    ensures count >= 2 && i < count && vw >= 1 ==> vx.Some? && 0 <= vx.value < vw
  {
    if count <= 1 then None
    else Some(Fence((i * (vw - 1)) / (count - 1), vw))
  }

  /** A series of one sample reaches the undefined 0.0 / 0.0 conversion. */
  lemma SingleSampleColumnUndefined(vw: nat)
    ensures ColumnAsWritten(0, 1, vw) == None
  {
  }

  /**
   * The column of sample `i` of `count`: the samples are spread evenly over
   * the `vw` dot columns, and a lone sample sits in column 0.
   */
  function Column(i: nat, count: nat, vw: nat): int
  {
    if count <= 1 then 0
    else Fence((i * (vw - 1)) / (count - 1), vw)
  }

  /**
   * The columns cover the grid from edge to edge: each lies inside it, the
   * first sample is in column 0, the last in column vw - 1, and later
   * samples never lie left of earlier ones.
   */
  lemma ColumnSpread(i: nat, j: nat, count: nat, vw: nat)
    requires i <= j < count && vw >= 1
    ensures 0 <= Column(i, count, vw) <= Column(j, count, vw) < vw
    ensures Column(0, count, vw) == 0
    ensures count >= 2 ==> Column(count - 1, count, vw) == vw - 1
  {
    if count >= 2 {
      ColumnQuotients(i, j, count - 1, vw - 1);
    }
  }

  /** Where the source is defined, it agrees with `Column`. */
  lemma ColumnAgrees(i: nat, count: nat, vw: nat)
    requires count >= 2
    ensures ColumnAsWritten(i, count, vw) == Some(Column(i, count, vw))
  {
  }

  lemma ColumnQuotients(i: nat, j: nat, d: nat, m: nat)
    requires i <= j <= d && d >= 1
    ensures (i * m) / d <= (j * m) / d <= m
    ensures (d * m) / d == m
  {
    NatMulMono(i, j, m);
    NatMulMono(j, d, m);
    DivUnique(d * m, d, m);
    DivMono(i * m, j * m, d);
    DivMono(j * m, d * m, d);
  }

  lemma DivUnique(a: nat, d: nat, q: nat)
    requires d >= 1 && q * d <= a < q * d + d
    ensures a / d == q
  {
    var r := a / d;
    if r < q {
      NatMulMono(r + 1, q, d);
    } else if r > q {
      NatMulMono(q + 1, r, d);
    }
  }

  lemma DivMono(a: nat, b: nat, d: nat)
    requires a <= b && d >= 1
    ensures a / d <= b / d
  {
    if a / d > b / d {
      NatMulMono(b / d + 1, a / d, d);
    }
  }

  /** The range the values are scaled by: max - min, or 1 for a flat series. */
  function Span(values: seq<real>): (r: real)
    requires |values| >= 1
    ensures r > 0.0
  {
    if SeqMax(values) - SeqMin(values) == 0.0 then 1.0 else SeqMax(values) - SeqMin(values)
  }

  /** The dot row of value `v`: its position between `lo` and `lo + range`, truncated. */
  function Row(v: real, lo: real, range: real, vh: int): int
    requires range > 0.0
  {
    Fence(Trunc((v - lo) / range * (vh - 1) as real), vh)
  }

  /**
   * A value between `lo` and `lo + range` lies on a row of the grid: `lo`
   * on the bottom row and `lo + range` on the top row.
   */
  lemma RowBounds(v: real, lo: real, range: real, vh: int)
    requires range > 0.0 && lo <= v <= lo + range && vh >= 1
    ensures 0 <= Row(v, lo, range, vh) < vh
    ensures v == lo ==> Row(v, lo, range, vh) == 0
    ensures v == lo + range ==> Row(v, lo, range, vh) == vh - 1
  {
    Fraction(v - lo, range);
    ScaleFraction((v - lo) / range, (vh - 1) as real);
  }

  /** A greater value is never drawn on a lower row. */
  lemma RowMono(v: real, u: real, lo: real, range: real, vh: int)
    requires range > 0.0 && lo <= v <= u && vh >= 1
    ensures Row(v, lo, range, vh) <= Row(u, lo, range, vh)
  {
    var n := (vh - 1) as real;
    DivMonoReal(v - lo, u - lo, range);
    MulMonoReal((v - lo) / range, (u - lo) / range, n);
    assert (v - lo) / range >= 0.0;
    assert (v - lo) / range * n >= 0.0 by {
      MulMonoReal(0.0, (v - lo) / range, n);
    }
    var x, y := (v - lo) / range * n, (u - lo) / range * n;
    assert x <= y;
    assert Trunc(x) <= Trunc(y);
  }

  /**
   * Over a whole series: rows lie inside the grid, the least value lies on
   * the bottom row and, in a series that is not flat, the greatest on the
   * top row; a flat series stays on the bottom row; a greater value is never
   * drawn lower.
   */
  lemma RowSpread(values: seq<real>, i: nat, j: nat, vh: int)
    requires i < |values| && j < |values| && vh >= 1
    ensures 0 <= Row(values[i], SeqMin(values), Span(values), vh) < vh
    ensures values[i] == SeqMin(values) ==> Row(values[i], SeqMin(values), Span(values), vh) == 0
    ensures values[i] == SeqMax(values) && SeqMin(values) < SeqMax(values) ==>
      Row(values[i], SeqMin(values), Span(values), vh) == vh - 1
    ensures SeqMin(values) == SeqMax(values) ==> Row(values[i], SeqMin(values), Span(values), vh) == 0
    ensures values[i] <= values[j] ==>
      Row(values[i], SeqMin(values), Span(values), vh) <= Row(values[j], SeqMin(values), Span(values), vh)
  {
    var lo, range := SeqMin(values), Span(values);
    assert values[i] in values && values[j] in values;
    assert values[i] <= SeqMax(values) && values[j] <= SeqMax(values);
    assert lo < SeqMax(values) ==> lo + range == SeqMax(values);
    RowBounds(values[i], lo, range, vh);
    if values[i] <= values[j] {
      RowMono(values[i], values[j], lo, range, vh);
    }
  }

  /** A part of a positive whole is a fraction between 0 and 1. */
  lemma Fraction(part: real, whole: real)
    requires 0.0 <= part <= whole && whole > 0.0
    ensures 0.0 <= part / whole <= 1.0
    ensures part == whole ==> part / whole == 1.0
  {
  }

  lemma ScaleFraction(f: real, n: real)
    requires 0.0 <= f <= 1.0 && n >= 0.0
    ensures 0.0 <= f * n <= n
    ensures f == 1.0 ==> f * n == n
  {
  }

  lemma DivMonoReal(a: real, b: real, d: real)
    requires a <= b && d > 0.0
    ensures a / d <= b / d
  {
  }

  lemma MulMonoReal(a: real, b: real, n: real)
    requires a <= b && n >= 0.0
    ensures a * n <= b * n
  {
  }

  /** The dot of sample `i`. */
  function DotOf(values: seq<real>, i: nat, vw: nat, vh: int): Dot
    requires i < |values|
  {
    (Column(i, |values|, vw), Row(values[i], SeqMin(values), Span(values), vh))
  }

  /** The dots of the samples, in order. */
  function Dots(values: seq<real>, vw: nat, vh: int): (pts: seq<Dot>)
    requires |values| >= 1
    ensures |pts| == |values|
    ensures forall i :: 0 <= i < |values| ==> pts[i] == DotOf(values, i, vw, vh)
  {
    seq(|values|, i requires 0 <= i < |values| => DotOf(values, i, vw, vh))
  }

  /**
   * The cells raised by plotting `pts`: the first dot, then for every later
   * dot that differs from its predecessor the line from the predecessor.
   */
  function Painted(pts: seq<Dot>, w: int, h: int): set<int>
  {
    if |pts| == 0 then {}
    else if |pts| == 1 then Cells(pts, w, h)
    else
      var prev, cur := pts[|pts| - 2], pts[|pts| - 1];
      Painted(pts[..|pts| - 1], w, h) + (if cur != prev then Cells(Line(prev.0, prev.1, cur.0, cur.1), w, h) else {})
  }

  /** What plotting one more dot adds: the cells raised before, and the
      line from its predecessor when it differs from it. */
  lemma PaintedGrows(pts: seq<Dot>, w: int, h: int, k: int)
    requires |pts| >= 1
    ensures |pts| == 1 && k in Cells(pts, w, h) ==> k in Painted(pts, w, h)
    ensures |pts| >= 2 && k in Painted(pts[..|pts| - 1], w, h) ==> k in Painted(pts, w, h)
    ensures (|pts| >= 2 && pts[|pts| - 1] != pts[|pts| - 2] &&
      k in Cells(Line(pts[|pts| - 2].0, pts[|pts| - 2].1, pts[|pts| - 1].0, pts[|pts| - 1].1), w, h)) ==>
      k in Painted(pts, w, h)
  {
  }

  /** Every dot of the series is raised, so no sample is dropped from the chart. */
  lemma {:induction false} PaintedHasDots(pts: seq<Dot>, w: int, h: int, i: nat)
    requires i < |pts| && 0 <= pts[i].0 < w && 0 <= pts[i].1 < h
    ensures Offset(pts[i], w) in Painted(pts, w, h)
    decreases |pts|
  {
    var c := Offset(pts[i], w);
    if |pts| == 1 {
      CellsHas(pts, pts[i], w, h);
    } else {
      var prev, cur := pts[|pts| - 2], pts[|pts| - 1];
      if i == |pts| - 1 && cur != prev {
        LineReaches(prev.0, prev.1, cur.0, cur.1);
        CellsHas(Line(prev.0, prev.1, cur.0, cur.1), cur, w, h);
      } else {
        var j := if i == |pts| - 1 then i - 1 else i;
        assert pts[..|pts| - 1][j] == pts[i];
        PaintedHasDots(pts[..|pts| - 1], w, h, j);
      }
    }
    PaintedGrows(pts, w, h, c);
  }

  /** `PaintedHasDots` for dot (x, y). */
  lemma PaintedHasDot(pts: seq<Dot>, w: int, h: int, i: nat, x: int, y: int)
    requires i < |pts| && pts[i] == (x, y) && 0 <= x < w && 0 <= y < h
    ensures y * w + x in Painted(pts, w, h)
  {
    PaintedHasDots(pts, w, h, i);
  }

  /** Every raised cell lies inside the grid. */
  lemma {:induction false} PaintedInGrid(pts: seq<Dot>, w: int, h: int)
    ensures forall k :: k in Painted(pts, w, h) ==> 0 <= k < w * h
    decreases |pts|
  {
    if |pts| == 1 {
      CellsInGrid(pts, w, h);
    } else if |pts| >= 2 {
      var prev, cur := pts[|pts| - 2], pts[|pts| - 1];
      PaintedInGrid(pts[..|pts| - 1], w, h);
      CellsInGrid(Line(prev.0, prev.1, cur.0, cur.1), w, h);
    }
  }

  /** The min/max loop of Sparkline_draw, seeded with values[0] and run from index 1. */
  method Bounds(values: seq<real>) returns (lo: real, hi: real)
    requires |values| >= 1
    ensures lo == SeqMin(values) && hi == SeqMax(values)
  {
    lo, hi := values[0], values[0];
    var i := 1;
    while i < |values|
      invariant 1 <= i <= |values|
      invariant lo in values[..i] && hi in values[..i]
      invariant forall k :: 0 <= k < i ==> lo <= values[k] <= hi
    {
      if values[i] < lo {
        lo := values[i];
      }
      if values[i] > hi {
        hi := values[i];
      }
      i := i + 1;
    }
    assert values[..i] == values;
    assert forall v :: v in values ==> lo <= v <= hi;
  }

  /**
   * Steps 1 to 3 of Sparkline_draw: scales the samples, allocates a zeroed
   * (2 * width) x (4 * height) dot grid and plots every sample, joining it
   * to its predecessor when it moved. The grid holds exactly the cells
   * `Painted` names for the samples' dots.
   */
  method Rasterize(values: seq<real>, width: nat, height: nat) returns (grid: array<bool>)
    requires |values| >= 1 && width >= 1 && height >= 1
    ensures fresh(grid) && grid.Length == (2 * width) * (4 * height)
    ensures forall k :: 0 <= k < grid.Length ==>
      grid[k] == (k in Painted(Dots(values, 2 * width, 4 * height), 2 * width, 4 * height))
  {
    var lo, range := Scale(values);
    var vw, vh := 2 * width, 4 * height;
    grid := new bool[vw * vh](_ => false);
    PlotAll(grid, values, lo, range, vw, vh);
  }

  /** The scale of the samples: their minimum and their range, with a range
      of 0 replaced by 1. */
  method Scale(values: seq<real>) returns (lo: real, range: real)
    requires |values| >= 1
    ensures lo == SeqMin(values) && range == Span(values)
  {
    var hi;
    lo, hi := Bounds(values);
    range := hi - lo;
    if range == 0.0 {
      range := 1.0;
    }
  }

  /** The projection loop of Sparkline_draw over a blank grid: afterwards the
      grid holds exactly the cells `Painted` names for the samples' dots. */
  method PlotAll(grid: array<bool>, values: seq<real>, lo: real, range: real, vw: nat, vh: nat)
    requires |values| >= 1 && vw >= 1 && vh >= 1 && grid.Length == vw * vh
    requires lo == SeqMin(values) && range == Span(values)
    requires forall k :: 0 <= k < grid.Length ==> !grid[k]
    modifies grid
    ensures forall k :: 0 <= k < grid.Length ==> grid[k] == (k in Painted(Dots(values, vw, vh), vw, vh))
  {
    ghost var pts := Dots(values, vw, vh);
    ghost var blank := grid[..];
    assert Painted(pts[..0], vw, vh) == {};
    var prevX, prevY := -1, -1;
    var i := 0;
    while i < |values|
      invariant 0 <= i <= |values|
      invariant Raised(grid[..], blank, Painted(pts[..i], vw, vh))
      invariant i > 0 ==> (prevX, prevY) == pts[i - 1]
    {
      prevX, prevY := PlotNext(grid, values, i, lo, range, vw, vh, pts, prevX, prevY, blank);
      i := i + 1;
    }
    assert pts[..i] == pts;
  }

  /** One round of the projection loop: projects sample `i` and plots it. */
  method PlotNext(grid: array<bool>, values: seq<real>, i: nat, lo: real, range: real, vw: nat, vh: nat,
                  ghost pts: seq<Dot>, prevX: int, prevY: int, ghost blank: seq<bool>) returns (vx: int, vy: int)
    requires i < |values| && vw >= 1 && vh >= 1 && grid.Length == vw * vh
    requires lo == SeqMin(values) && range == Span(values)
    requires pts == Dots(values, vw, vh)
    requires i > 0 ==> (prevX, prevY) == pts[i - 1]
    requires Raised(grid[..], blank, Painted(pts[..i], vw, vh))
    modifies grid
    ensures (vx, vy) == pts[i]
    ensures Raised(grid[..], blank, Painted(pts[..i + 1], vw, vh))
  {
    vx, vy := Project(values, i, lo, range, vw, vh);
    assert (vx, vy) == DotOf(values, i, vw, vh);
    PlotSample(grid, vw, vh, pts, i, prevX, prevY, vx, vy, blank);
  }

  /** The projection of sample `i`, with the clamps of the source. */
  method Project(values: seq<real>, i: nat, lo: real, range: real, vw: nat, vh: nat) returns (vx: int, vy: int)
    requires i < |values| && vw >= 1 && vh >= 1 && range > 0.0
    ensures vx == Column(i, |values|, vw) && vy == Row(values[i], lo, range, vh)
    ensures 0 <= vx < vw && 0 <= vy < vh
  {
    var rawX := if |values| == 1 then 0 else (i * (vw - 1)) / (|values| - 1);
    var rawY := Trunc((values[i] - lo) / range * (vh - 1) as real);
    vx := ClampInto(rawX, vw);
    vy := ClampInto(rawY, vh);
  }

  /** The two clamps the projection applies to each coordinate. */
  method ClampInto(v: int, n: int) returns (r: int)
    requires n >= 1
    ensures r == Fence(v, n)
  {
    r := v;
    if r < 0 {
      r := 0;
    }
    if r >= n {
      r := n - 1;
    }
  }

  /**
   * Plots dot `i` of `pts`: the first dot is set directly, a later dot is
   * joined to its predecessor by a line when it moved.
   */
  method PlotSample(grid: array<bool>, vw: nat, vh: nat, ghost pts: seq<Dot>, i: nat,
                    prevX: int, prevY: int, vx: int, vy: int, ghost blank: seq<bool>)
    requires grid.Length == vw * vh && i < |pts| && pts[i] == (vx, vy)
    requires 0 <= vx < vw && 0 <= vy < vh
    requires i > 0 ==> (prevX, prevY) == pts[i - 1]
    requires Raised(grid[..], blank, Painted(pts[..i], vw, vh))
    modifies grid
    ensures Raised(grid[..], blank, Painted(pts[..i + 1], vw, vh))
  {
    PaintedStep(pts, i, vw, vh);
    if i == 0 {
      CellInGrid(vx, vy, vw, vh);
      grid[vy * vw + vx] := true;
    } else if vx != prevX || vy != prevY {
      DrawVirtualLine(grid, vw, vh, prevX, prevY, vx, vy);
    }
  }

  /** How `Painted` grows by one dot. */
  lemma PaintedStep(pts: seq<Dot>, i: nat, w: int, h: int)
    requires i < |pts| && 0 <= pts[i].0 < w && 0 <= pts[i].1 < h
    ensures i == 0 ==> Painted(pts[..1], w, h) == {pts[0].1 * w + pts[0].0}
    ensures i > 0 ==> (Painted(pts[..i + 1], w, h) == Painted(pts[..i], w, h) +
      (if pts[i] != pts[i - 1] then Cells(Line(pts[i - 1].0, pts[i - 1].1, pts[i].0, pts[i].1), w, h) else {}))
  {
    var pre := pts[..i + 1];
    assert pre[..i] == pts[..i];
    if i == 0 {
      assert pre == [pts[0]];
      assert Cells(pre, w, h) == {pts[0].1 * w + pts[0].0};
    } else {
      assert pre[i - 1] == pts[i - 1] && pre[i] == pts[i];
    }
  }

  // ---------------------------------------------------------------------------
  // Collapsing the dot grid into braille glyphs
  // ---------------------------------------------------------------------------

  /**
   * The braille dot bit of sub-cell (sub_x, sub_y) of a 2 x 4 block, indexed
   * BRAILLE_MAP[sub_y][sub_x], with sub_y == 0 the top of the block.
   */
  const BRAILLE_MAP: seq<seq<bv16>> := [[0x01, 0x08], [0x02, 0x10], [0x04, 0x20], [0x40, 0x80]]

  /** The code point of the empty braille pattern, U+2800. */
  const BRAILLE_BLANK: bv16 := 0x2800

  /** The eight dots have eight distinct single bits, together the low byte. */
  lemma BrailleMapBits()
    ensures |BRAILLE_MAP| == 4 && forall r :: 0 <= r < 4 ==> |BRAILLE_MAP[r]| == 2
    ensures forall r, c, r', c' :: 0 <= r < 4 && 0 <= c < 2 && 0 <= r' < 4 && 0 <= c' < 2 ==>
      (BRAILLE_MAP[r][c] & BRAILLE_MAP[r'][c'] != 0 <==> (r, c) == (r', c'))
    ensures BRAILLE_MAP[0][0] | BRAILLE_MAP[1][0] | BRAILLE_MAP[2][0] | BRAILLE_MAP[3][0]
      | BRAILLE_MAP[0][1] | BRAILLE_MAP[1][1] | BRAILLE_MAP[2][1] | BRAILLE_MAP[3][1] == 0xFF
  {
  }

  /**
   * Whether sub-cell (subX, subY) of the glyph at (row, col) is a raised dot:
   * glyph rows count from the top, grid rows from the bottom, and sub-cells
   * beyond the grid count as unraised.
   */
  function Lit(cells: seq<bool>, vw: nat, vh: nat, height: int, row: int, col: nat, subX: nat, subY: nat): bool
    requires |cells| == vw * vh && subY <= 3
  {
    var vx := col * 2 + subX;
    var vy := (height - 1 - row) * 4 + (3 - subY);
    if vx < vw && vy < vh && vy >= 0 then
      CellInGrid(vx, vy, vw, vh);
      cells[vy * vw + vx]
    else false
  }

  /** The eight sub-cells of the block at (row, col), with sub_x == k / 4 and sub_y == k % 4 (the loop order). */
  function SubCells(cells: seq<bool>, vw: nat, vh: nat, height: int, row: int, col: nat): (lits: seq<bool>)
    requires |cells| == vw * vh
    ensures |lits| == 8
    ensures forall k :: 0 <= k < 8 ==> lits[k] == Lit(cells, vw, vh, height, row, col, k / 4, k % 4)
  {
    seq(8, k requires 0 <= k < 8 => Lit(cells, vw, vh, height, row, col, k / 4, k % 4))
  }

  /** The dot bit of sub-cell `k` in loop order. */
  function MapBit(k: nat): bv16
    requires k < 8
  {
    BRAILLE_MAP[k % 4][k / 4]
  }

  /** The glyph after the first `k` sub-cells have been examined. */
  function Glyph(lits: seq<bool>, k: nat): bv16
    requires k <= 8 <= |lits|
  {
    if k == 0 then BRAILLE_BLANK
    else Glyph(lits, k - 1) | (if lits[k - 1] then MapBit(k - 1) else 0)
  }

  /** The glyph of the block at (row, col). */
  function BlockGlyph(cells: seq<bool>, vw: nat, vh: nat, height: int, row: int, col: nat): bv16
    requires |cells| == vw * vh
  {
    Glyph(SubCells(cells, vw, vh, height, row, col), 8)
  }

  lemma MapBitsDistinct(i: nat, j: nat)
    requires i < 8 && j < 8
    ensures (MapBit(i) & MapBit(j) != 0) == (i == j)
    ensures MapBit(i) != 0 && MapBit(i) & 0xFF00 == 0
  {
    BrailleMapBits();
  }

  /**
   * After `k` sub-cells, the glyph lies in the braille block and has the bit
   * of sub-cell `j` set exactly when `j` was examined and is raised.
   */
  lemma {:induction false} GlyphBits(lits: seq<bool>, k: nat, j: nat)
    requires k <= 8 == |lits| && j < 8
    ensures Glyph(lits, k) & 0xFF00 == BRAILLE_BLANK
    ensures (Glyph(lits, k) & MapBit(j) != 0) == (j < k && lits[j])
  {
    MapBitsDistinct(j, j);
    if k > 0 {
      GlyphBits(lits, k - 1, j);
      MapBitsDistinct(k - 1, j);
    }
  }

  /** After `k` sub-cells the glyph is still blank exactly when none of them is raised. */
  lemma {:induction false} GlyphBlank(lits: seq<bool>, k: nat)
    requires k <= 8 == |lits|
    ensures (Glyph(lits, k) == BRAILLE_BLANK) == (forall j :: 0 <= j < k ==> !lits[j])
  {
    if k > 0 {
      GlyphBlank(lits, k - 1);
      GlyphBits(lits, k, k - 1);
      MapBitsDistinct(k - 1, k - 1);
    }
  }

  /**
   * A glyph shows exactly its raised dots: the bit of sub-cell (subX, subY)
   * is set exactly when that sub-cell is raised, and the glyph is the blank
   * pattern exactly when no sub-cell is.
   */
  lemma GlyphShowsDots(cells: seq<bool>, vw: nat, vh: nat, height: int, row: int, col: nat, subX: nat, subY: nat)
    requires |cells| == vw * vh && subX < 2 && subY < 4
    ensures (BlockGlyph(cells, vw, vh, height, row, col) & BRAILLE_MAP[subY][subX] != 0)
      == Lit(cells, vw, vh, height, row, col, subX, subY)
    ensures (BlockGlyph(cells, vw, vh, height, row, col) == BRAILLE_BLANK) ==
      (forall k :: 0 <= k < 8 ==> !Lit(cells, vw, vh, height, row, col, k / 4, k % 4))
  {
    GlyphShowsBit(cells, vw, vh, height, row, col, subX, subY);
    GlyphBlank(SubCells(cells, vw, vh, height, row, col), 8);
  }

  lemma GlyphShowsBit(cells: seq<bool>, vw: nat, vh: nat, height: int, row: int, col: nat, subX: nat, subY: nat)
    requires |cells| == vw * vh && subX < 2 && subY < 4
    ensures (BlockGlyph(cells, vw, vh, height, row, col) & BRAILLE_MAP[subY][subX] != 0)
      == Lit(cells, vw, vh, height, row, col, subX, subY)
  {
    var lits := SubCells(cells, vw, vh, height, row, col);
    var k := subX * 4 + subY;
    assert k / 4 == subX && k % 4 == subY;
    GlyphBits(lits, 8, k);
  }

  /**
   * Every dot of the grid belongs to exactly one sub-cell of one glyph: dot
   * (vx, vy) is sub-cell (vx % 2, 3 - vy % 4) of the glyph in row
   * height - 1 - vy / 4 and column vx / 2.
   */
  lemma DotInGlyph(width: nat, height: nat, vx: nat, vy: nat)
    requires vx < 2 * width && vy < 4 * height
    ensures 0 <= height - 1 - vy / 4 < height && vx / 2 < width
    ensures vx == (vx / 2) * 2 + vx % 2 && vy == (height - 1 - (height - 1 - vy / 4)) * 4 + (3 - (3 - vy % 4))
  {
  }

  /** The bytes written for a glyph: a space for the blank pattern, else its UTF-8 form. */
  function GlyphText(c: bv16): seq<bv8>
  {
    if c == BRAILLE_BLANK then [0x20] else Utf8(c)
  }

  /** The source's three-byte UTF-8 encoding of a braille code point. */
  function Utf8(c: bv16): (bytes: seq<bv8>)
    ensures |bytes| == 3
  {
    [0xE2, 0xA0 | ((c >> 6) & 0x03) as bv8, 0x80 | (c & 0x3F) as bv8]
  }

  /** Reading a three-byte UTF-8 sequence (section 3 of RFC 3629): 1110xxxx 10xxxxxx 10xxxxxx. */
  function Utf8Decode3(b0: bv8, b1: bv8, b2: bv8): bv16
  {
    ((b0 & 0x0F) as bv16 << 12) | ((b1 & 0x3F) as bv16 << 6) | (b2 & 0x3F) as bv16
  }

  /**
   * Every braille code point U+2800 to U+28FF is written as a well-formed
   * three-byte UTF-8 sequence that reads back as the same code point.
   */
  lemma Utf8RoundTrip(c: bv16)
    requires c & 0xFF00 == BRAILLE_BLANK
    ensures Utf8(c)[0] & 0xF0 == 0xE0
    ensures Utf8(c)[1] & 0xC0 == 0x80 && Utf8(c)[2] & 0xC0 == 0x80
    ensures Utf8Decode3(Utf8(c)[0], Utf8(c)[1], Utf8(c)[2]) == c
  {
  }


  /** One terminal write: `text` at row `y`, column `x`. */
  datatype Put = Put(y: int, x: int, text: seq<bv8>)

  /**
   * The shape of a chart: `width` x `height` terminal cells at (y, x) over a
   * `vw` x `vh` dot grid, two dot columns and four dot rows per cell.
   */
  predicate Frame(cells: seq<bool>, vw: nat, vh: nat, width: nat, height: nat)
  {
    vw == 2 * width && vh == 4 * height && |cells| == vw * vh
  }

  /** The write for the glyph at (row, col) of a chart whose top-left cell is (y, x). */
  function PutAt(cells: seq<bool>, vw: nat, vh: nat, width: nat, height: nat, y: int, x: int, row: int, col: nat): Put
    requires Frame(cells, vw, vh, width, height)
  {
    Put(y + row, x + col, GlyphText(BlockGlyph(cells, vw, vh, height, row, col)))
  }

  /** The writes of the first `n` glyphs of chart row `row`, left to right. */
  function RowPuts(cells: seq<bool>, vw: nat, vh: nat, width: nat, height: nat, y: int, x: int, row: int, n: nat): (ps: seq<Put>)
    requires Frame(cells, vw, vh, width, height)
    ensures |ps| == n
  {
    if n == 0 then []
    else RowPuts(cells, vw, vh, width, height, y, x, row, n - 1) + [PutAt(cells, vw, vh, width, height, y, x, row, n - 1)]
  }

  /** The writes of the first `rows` chart rows, top to bottom. */
  function GridPuts(cells: seq<bool>, vw: nat, vh: nat, width: nat, height: nat, y: int, x: int, rows: nat): seq<Put>
    requires Frame(cells, vw, vh, width, height)
  {
    if rows == 0 then []
    else GridPuts(cells, vw, vh, width, height, y, x, rows - 1) + RowPuts(cells, vw, vh, width, height, y, x, rows - 1, width)
  }

  lemma {:induction false} RowPutsAt(cells: seq<bool>, vw: nat, vh: nat, width: nat, height: nat, y: int, x: int, row: int, n: nat, col: nat)
    requires Frame(cells, vw, vh, width, height) && col < n
    ensures RowPuts(cells, vw, vh, width, height, y, x, row, n)[col] == PutAt(cells, vw, vh, width, height, y, x, row, col)
  {
    if col < n - 1 {
      RowPutsAt(cells, vw, vh, width, height, y, x, row, n - 1, col);
    }
  }

  lemma {:induction false} GridPutsLength(cells: seq<bool>, vw: nat, vh: nat, width: nat, height: nat, y: int, x: int, rows: nat)
    requires Frame(cells, vw, vh, width, height)
    ensures |GridPuts(cells, vw, vh, width, height, y, x, rows)| == rows * width
  {
    if rows > 0 {
      GridPutsLength(cells, vw, vh, width, height, y, x, rows - 1);
      assert rows * width == (rows - 1) * width + width;
    }
  }

  /** The writes cover the chart row by row: glyph (row, col) is write row * width + col. */
  lemma {:induction false} GridPutsAt(cells: seq<bool>, vw: nat, vh: nat, width: nat, height: nat, y: int, x: int, rows: nat, row: nat, col: nat)
    requires Frame(cells, vw, vh, width, height) && row < rows && col < width
    ensures |GridPuts(cells, vw, vh, width, height, y, x, rows)| == rows * width
    ensures row * width + col < rows * width
    ensures GridPuts(cells, vw, vh, width, height, y, x, rows)[row * width + col] == PutAt(cells, vw, vh, width, height, y, x, row, col)
  {
    GridPutsLength(cells, vw, vh, width, height, y, x, rows - 1);
    GridPutsLength(cells, vw, vh, width, height, y, x, rows);
    assert rows * width == (rows - 1) * width + width;
    if row < rows - 1 {
      GridPutsAt(cells, vw, vh, width, height, y, x, rows - 1, row, col);
      assert row * width + col < (rows - 1) * width;
    } else {
      RowPutsAt(cells, vw, vh, width, height, y, x, row, width, col);
    }
  }

  /** Step 4 of Sparkline_draw: one glyph per terminal cell, row by row. */
  method Collapse(grid: array<bool>, vw: nat, vh: nat, width: nat, height: nat, y: int, x: int) returns (writes: seq<Put>)
    requires Frame(grid[..], vw, vh, width, height)
    ensures writes == GridPuts(grid[..], vw, vh, width, height, y, x, height)
  {
    writes := [];
    var row := 0;
    while row < height
      invariant 0 <= row <= height
      invariant writes == GridPuts(grid[..], vw, vh, width, height, y, x, row)
    {
      var line := CollapseRow(grid, vw, vh, width, height, y, x, row);
      writes := writes + line;
      row := row + 1;
    }
  }

  /** The writes of chart row `row`, left to right. */
  method CollapseRow(grid: array<bool>, vw: nat, vh: nat, width: nat, height: nat, y: int, x: int, row: int) returns (writes: seq<Put>)
    requires Frame(grid[..], vw, vh, width, height)
    ensures writes == RowPuts(grid[..], vw, vh, width, height, y, x, row, width)
  {
    writes := [];
    var col := 0;
    while col < width
      invariant 0 <= col <= width
      invariant writes == RowPuts(grid[..], vw, vh, width, height, y, x, row, col)
    {
      var c := BrailleChar(grid, vw, vh, width, height, row, col);
      var text := GlyphBytes(c);
      writes := writes + [Put(y + row, x + col, text)];
      col := col + 1;
    }
  }

  /** The bytes written for a glyph: a space for an empty block, otherwise
      the three UTF-8 bytes of its code point. */
  method GlyphBytes(c: bv16) returns (text: seq<bv8>)
    ensures text == GlyphText(c)
  {
    if c == BRAILLE_BLANK {
      text := [0x20];
    } else {
      text := [0xE2, 0xA0 | ((c >> 6) & 0x03) as bv8, 0x80 | (c & 0x3F) as bv8];
    }
  }

  /** Whether the loops' dot (vx, vy) is inside the grid and raised; the same test as `Lit`. */
  lemma LitAt(cells: seq<bool>, vw: nat, vh: nat, height: int, row: int, col: nat, subX: nat, subY: nat, vx: int, vy: int)
    requires |cells| == vw * vh && subY <= 3
    requires vx == col * 2 + subX && vy == (height - 1 - row) * 4 + (3 - subY)
    ensures vx < vw && vy < vh && vy >= 0 ==> 0 <= vy * vw + vx < |cells|
    ensures Lit(cells, vw, vh, height, row, col, subX, subY) ==
      (vx < vw && vy < vh && vy >= 0 && cells[vy * vw + vx])
  {
    if vx < vw && vy < vh && vy >= 0 {
      CellInGrid(vx, vy, vw, vh);
    }
  }

  /** The glyph of the block at (row, col), built by the two sub-cell loops. */
  method BrailleChar(grid: array<bool>, vw: nat, vh: nat, width: nat, height: nat, row: int, col: nat) returns (c: bv16)
    requires Frame(grid[..], vw, vh, width, height)
    ensures c == BlockGlyph(grid[..], vw, vh, height, row, col)
  {
    c := BRAILLE_BLANK;
    var subX := 0;
    while subX < 2
      invariant 0 <= subX <= 2 && c == Glyph(SubCells(grid[..], vw, vh, height, row, col), subX * 4)
    {
      var subY := 0;
      while subY < 4
        invariant 0 <= subY <= 4 && c == Glyph(SubCells(grid[..], vw, vh, height, row, col), subX * 4 + subY)
      {
        c := OrSubCell(grid, vw, vh, height, row, col, subX, subY, c);
        subY := subY + 1;
      }
      subX := subX + 1;
    }
  }

  /** One inner round: the glyph so far gains sub-cell (subX, subY)'s bit. */
  method OrSubCell(grid: array<bool>, vw: nat, vh: nat, height: nat, row: int, col: nat, subX: nat, subY: nat, c: bv16)
    returns (c': bv16)
    requires grid.Length == vw * vh && subX < 2 && subY < 4
    requires c == Glyph(SubCells(grid[..], vw, vh, height, row, col), subX * 4 + subY)
    ensures c' == Glyph(SubCells(grid[..], vw, vh, height, row, col), subX * 4 + subY + 1)
  {
    ghost var lits := SubCells(grid[..], vw, vh, height, row, col);
    ghost var k := subX * 4 + subY;
    SubCellIndex(subX, subY);
    var bit := SubCellBit(grid, vw, vh, height, row, col, subX, subY);
    assert lits[k] == Lit(grid[..], vw, vh, height, row, col, subX, subY);
    assert MapBit(k) == BRAILLE_MAP[subY][subX];
    assert bit == if lits[k] then MapBit(k) else 0;
    GlyphNext(lits, k, c, bit);
    c' := c | bit;
  }

  /** Examining sub-cell `k` ors its bit, when raised, into the glyph. */
  lemma GlyphNext(lits: seq<bool>, k: nat, c: bv16, bit: bv16)
    requires k < 8 <= |lits| && c == Glyph(lits, k)
    requires bit == if lits[k] then MapBit(k) else 0
    ensures Glyph(lits, k + 1) == c | bit
  {
  }

  /** Sub-cell (subX, subY) is number subX * 4 + subY in loop order. */
  lemma SubCellIndex(subX: nat, subY: nat)
    requires subX < 2 && subY < 4
    ensures (subX * 4 + subY) / 4 == subX && (subX * 4 + subY) % 4 == subY
  {
  }

  /** The dot bit sub-cell (subX, subY) contributes to the glyph at (row, col): its map bit when raised. */
  method SubCellBit(grid: array<bool>, vw: nat, vh: nat, height: nat, row: int, col: nat, subX: nat, subY: nat)
    returns (bit: bv16)
    requires grid.Length == vw * vh && subX < 2 && subY < 4
    ensures bit == if Lit(grid[..], vw, vh, height, row, col, subX, subY) then BRAILLE_MAP[subY][subX] else 0
  {
    var vx := col * 2 + subX;
    var gridBlockBottom := (height - 1 - row) * 4;
    var vy := gridBlockBottom + (3 - subY);
    LitAt(grid[..], vw, vh, height, row, col, subX, subY, vx, vy);
    bit := 0;
    if vx < vw && vy < vh && vy >= 0 {
      if grid[vy * vw + vx] {
        bit := BRAILLE_MAP[subY][subX];
      }
    }
  }

  /** The dot grid of a series: a cell is raised exactly when plotting raises it. */
  function Canvas(values: seq<real>, vw: nat, vh: nat): (cells: seq<bool>)
    requires |values| >= 1
    ensures |cells| == vw * vh
    ensures forall k :: 0 <= k < vw * vh ==> cells[k] == (k in Painted(Dots(values, vw, vh), vw, vh))
  {
    seq(vw * vh, k => k in Painted(Dots(values, vw, vh), vw, vh))
  }

  /** The writes Sparkline_draw makes for `values` in the width x height chart at (y, x). */
  function Chart(values: seq<real>, y: int, x: int, width: int, height: int): seq<Put>
    requires |values| == 0 || (width >= 1 && height >= 1)
  {
    if |values| == 0 then []
    else GridPuts(Canvas(values, 2 * width, 4 * height), 2 * width, 4 * height, width, height, y, x, height)
  }

  /**
   * Sparkline_draw: nothing for an empty series; otherwise the dot grid is
   * plotted and collapsed into one write per terminal cell.
   */
  method Draw(values: seq<real>, y: int, x: int, width: int, height: int) returns (writes: seq<Put>)
    requires |values| == 0 || (width >= 1 && height >= 1)
    ensures writes == Chart(values, y, x, width, height)
  {
    if |values| == 0 {
      return [];
    }
    var vw, vh := width * 2, height * 4;
    var grid := Rasterize(values, width, height);
    assert grid[..] == Canvas(values, vw, vh);
    writes := Collapse(grid, vw, vh, width, height, y, x);
  }

  /**
   * The chart has one write per cell, row by row, and glyph (row, col)
   * shows exactly the plotted dots of its 2 x 4 block: a space when none is
   * raised, otherwise the UTF-8 form of a braille pattern.
   */
  lemma ChartCells(values: seq<real>, y: int, x: int, width: nat, height: nat, row: nat, col: nat)
    requires |values| >= 1 && row < height && col < width
    ensures |Chart(values, y, x, width, height)| == height * width
    ensures 0 <= row * width + col < height * width
    ensures Chart(values, y, x, width, height)[row * width + col] ==
      Put(y + row, x + col, GlyphText(BlockGlyph(Canvas(values, 2 * width, 4 * height), 2 * width, 4 * height, height, row, col)))
  {
    NatMulMono(0, row, width);
    NatMulMono(row, height - 1, width);
    assert (height - 1) * width == height * width - width;
    GridPutsAt(Canvas(values, 2 * width, 4 * height), 2 * width, 4 * height, width, height, y, x, height, row, col);
  }

  /**
   * Every dot of the grid is shown by the bit BRAILLE_MAP[3 - vy % 4][vx % 2]
   * of the glyph in row height - 1 - vy / 4, column vx / 2, and that bit is
   * set exactly when plotting raised the dot.
   */
  lemma ChartShowsDots(values: seq<real>, vw: nat, vh: nat, width: nat, height: nat, vx: nat, vy: nat)
    requires |values| >= 1 && vw == 2 * width && vh == 4 * height && vx < vw && vy < vh
    ensures 0 <= height - 1 - vy / 4 < height && vx / 2 < width
    ensures (BlockGlyph(Canvas(values, vw, vh), vw, vh, height, height - 1 - vy / 4, vx / 2)
        & BRAILLE_MAP[3 - vy % 4][vx % 2] != 0)
      == (vy * vw + vx in Painted(Dots(values, vw, vh), vw, vh))
  {
    var cells := Canvas(values, vw, vh);
    GridShowsDots(cells, vw, vh, width, height, vx, vy);
    CanvasAt(values, vw, vh, vy * vw + vx);
  }

  lemma CanvasAt(values: seq<real>, vw: nat, vh: nat, k: int)
    requires |values| >= 1 && 0 <= k < vw * vh
    ensures Canvas(values, vw, vh)[k] == (k in Painted(Dots(values, vw, vh), vw, vh))
  {
  }

  /** In any dot grid, the glyph over dot (vx, vy) has that dot's bit set exactly when the dot is raised. */
  lemma GridShowsDots(cells: seq<bool>, vw: nat, vh: nat, width: nat, height: nat, vx: nat, vy: nat)
    requires Frame(cells, vw, vh, width, height) && vx < vw && vy < vh
    ensures 0 <= height - 1 - vy / 4 < height && vx / 2 < width
    ensures 0 <= vy * vw + vx < vw * vh && vy * vw + vx < |cells|
    ensures (BlockGlyph(cells, vw, vh, height, height - 1 - vy / 4, vx / 2) & BRAILLE_MAP[3 - vy % 4][vx % 2] != 0)
      == cells[vy * vw + vx]
  {
    DotInGlyph(width, height, vx, vy);
    CellInGrid(vx, vy, vw, vh);
    SubCellShowsDot(cells, vw, vh, height, height - 1 - vy / 4, vx / 2, vx % 2, 3 - vy % 4, vx, vy);
  }

  /** The glyph at (row, col) has the bit of its sub-cell (subX, subY) set exactly when dot (vx, vy) under it is raised. */
  lemma SubCellShowsDot(cells: seq<bool>, vw: nat, vh: nat, height: int, row: int, col: nat, subX: nat, subY: nat, vx: nat, vy: nat)
    requires |cells| == vw * vh && subX < 2 && subY < 4 && vx < vw && vy < vh
    requires vx == col * 2 + subX && vy == (height - 1 - row) * 4 + (3 - subY)
    requires vy * vw + vx < |cells|
    ensures (BlockGlyph(cells, vw, vh, height, row, col) & BRAILLE_MAP[subY][subX] != 0) == cells[vy * vw + vx]
  {
    GlyphShowsBit(cells, vw, vh, height, row, col, subX, subY);
  }

  /**
   * Every sample is visible: its dot (vx, vy) lies in the grid and the glyph
   * over it has that dot's bit set.
   */
  lemma ChartShowsSamples(values: seq<real>, vw: nat, vh: nat, width: nat, height: nat, i: nat, vx: int, vy: int)
    requires i < |values| && width >= 1 && height >= 1 && vw == 2 * width && vh == 4 * height
    requires (vx, vy) == DotOf(values, i, vw, vh)
    ensures 0 <= vx < vw && 0 <= vy < vh
    ensures BlockGlyph(Canvas(values, vw, vh), vw, vh, height, height - 1 - vy / 4, vx / 2)
      & BRAILLE_MAP[3 - vy % 4][vx % 2] != 0
  {
    var pts := Dots(values, vw, vh);
    assert pts[i] == (vx, vy);
    ColumnSpread(i, i, |values|, vw);
    RowSpread(values, i, i, vh);
    PaintedHasDot(pts, vw, vh, i, vx, vy);
    ChartShowsDots(values, vw, vh, width, height, vx, vy);
  }
}
