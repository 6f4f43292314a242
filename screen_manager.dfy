/** The coordinator of src/ScreenManager.c: a left-to-right row of panels,
    one of them focused, the width solver that lays them out, and one tick
    of the event loop. The terminal size (COLS, LINES), the clock and the
    key read are parameters. */
module Screens {
  import opened Wrappers
  import opened Constants
  import opened Panels

  // The layout rectangle set by ScreenManager_new.
  const X1: int := 1
  const Y1: int := 8
  const X2: int := -1
  const Y2: int := -2

  /** A panel and the width it asked for; 0 or less means "stretch". */
  datatype PanelLayout = PanelLayout(panel: Panel, requested: int)

  /** Columns the panels share: COLS - x1 + x2. */
  function TotalWidth(cols: int): int {
    cols - X1 + X2
  }

  /** Rows every panel gets: LINES + y2 - y1 + 1. */
  function PanelHeight(lines: int): int {
    lines + Y2 - Y1 + 1
  }

  function Sum(s: seq<int>): int {
    if s == [] then 0 else Sum(s[..|s| - 1]) + s[|s| - 1]
  }

  function Requests(ls: seq<PanelLayout>): (r: seq<int>)
    ensures |r| == |ls|
    ensures forall i :: 0 <= i < |ls| ==> r[i] == ls[i].requested
  {
    seq(|ls|, i requires 0 <= i < |ls| => ls[i].requested)
  }

  /** The sum of the positive requests. */
  function FixedSum(reqs: seq<int>): (r: int)
    ensures r >= 0
  {
    if reqs == [] then 0
    else FixedSum(reqs[..|reqs| - 1]) + (if reqs[|reqs| - 1] > 0 then reqs[|reqs| - 1] else 0)
  }

  /** The number of stretching panels. */
  function DynamicCount(reqs: seq<int>): (r: nat)
    ensures r <= |reqs|
  {
    if reqs == [] then 0
    else DynamicCount(reqs[..|reqs| - 1]) + (if reqs[|reqs| - 1] > 0 then 0 else 1)
  }

  /** Fixed panels are scaled down when the stretching panels would get
      less than MAIN_PANEL_MIN_WIDTH. */
  predicate Compressing(reqs: seq<int>, total: int) {
    DynamicCount(reqs) > 0 && total - FixedSum(reqs) < MAIN_PANEL_MIN_WIDTH && FixedSum(reqs) > 0
  }

  /** The width of one fixed panel: its request, scaled by
      (total - 30) / fixedSum when compressing (truncated), then raised to
      SIDEBAR_MIN_WIDTH and cut to the total. */
  function FixedWidth(req: int, total: int, fixedSum: int, compress: bool): (w: int)
    requires compress ==> fixedSum > 0
    ensures w == total || (SIDEBAR_MIN_WIDTH <= w <= total)
    ensures !compress ==> w == Min(total, Max(SIDEBAR_MIN_WIDTH, req))
  {
    var scaled := if compress then CDiv(req * (total - MAIN_PANEL_MIN_WIDTH), fixedSum) else req;
    Min(Max(scaled, SIDEBAR_MIN_WIDTH), total)
  }

  /** The first pass: each fixed panel's width, 0 for stretching ones. */
  function FirstPass(reqs: seq<int>, total: int): (r: seq<int>)
    ensures |r| == |reqs|
    ensures forall i :: 0 <= i < |reqs| && reqs[i] <= 0 ==> r[i] == 0
    ensures forall i :: 0 <= i < |reqs| && reqs[i] > 0 ==>
              r[i] == FixedWidth(reqs[i], total, FixedSum(reqs), Compressing(reqs, total))
  {
    seq(|reqs|, i requires 0 <= i < |reqs| =>
      if reqs[i] > 0 then FixedWidth(reqs[i], total, FixedSum(reqs), Compressing(reqs, total)) else 0)
  }

  /** What each stretching panel gets: the remaining width, at least 1,
      split evenly with the remainder dropped. */
  function FlexibleWidth(reqs: seq<int>, total: int): int {
    var dyn := DynamicCount(reqs);
    if dyn > 0 then Max(1, total - Sum(FirstPass(reqs, total))) / dyn else 0
  }

  /** The width of every panel. Stretching panels get FlexibleWidth, except
      that a single stretching panel in last position takes whatever the
      panels before it left. */
  function Widths(reqs: seq<int>, total: int): (r: seq<int>)
    ensures |r| == |reqs|
  {
    var pre := seq(|reqs|, i requires 0 <= i < |reqs| =>
                 if reqs[i] > 0 then FirstPass(reqs, total)[i] else FlexibleWidth(reqs, total));
    if |reqs| > 0 && reqs[|reqs| - 1] <= 0 && DynamicCount(reqs) == 1 then
      pre[..|reqs| - 1] + [total - Sum(pre[..|reqs| - 1])]
    else pre
  }

  lemma {:induction false} SumAppend(s: seq<int>, x: int)
    ensures Sum(s + [x]) == Sum(s) + x
  {
    assert (s + [x])[..|s|] == s;
  }

  /** The width the second pass gives panel i, written with the column
      where the panel starts. */
  lemma SecondPassWidth(reqs: seq<int>, total: int, i: int)
    requires 0 <= i < |reqs|
    ensures SecondPassRule(reqs[i], Widths(reqs, total)[i], X1 + Sum(Widths(reqs, total)[..i]),
                           FirstPass(reqs, total)[i], FlexibleWidth(reqs, total), i == |reqs| - 1,
                           DynamicCount(reqs), total)
  {
    if reqs[i] <= 0 && i == |reqs| - 1 && DynamicCount(reqs) == 1 {
      var ws := Widths(reqs, total);
      assert ws[..i] == ws[..|reqs| - 1];
    }
  }

  /** Where each panel starts: x1 plus the widths of the panels before it. */
  function StartColumns(ws: seq<int>): (xs: seq<int>)
    ensures |xs| == |ws|
    ensures forall i :: 0 <= i < |ws| ==> xs[i] == X1 + Sum(ws[..i])
    ensures |ws| > 0 ==> xs[0] == X1
    ensures forall i {:trigger ws[i]} :: 0 <= i < |ws| - 1 ==> xs[i + 1] == xs[i] + ws[i]
  {
    PrefixSums(ws);
    seq(|ws|, j requires 0 <= j < |ws| => X1 + Sum(ws[..j]))
  }

  lemma PrefixSums(ws: seq<int>)
    ensures forall i :: 0 <= i < |ws| ==> Sum(ws[..i + 1]) == Sum(ws[..i]) + ws[i]
  {
    forall i | 0 <= i < |ws|
      ensures Sum(ws[..i + 1]) == Sum(ws[..i]) + ws[i]
    {
      assert ws[..i + 1] == ws[..i] + [ws[i]];
      SumAppend(ws[..i], ws[i]);
    }
  }

  /** Every panel's width follows the second-pass rule. */
  lemma SecondPassPlan(reqs: seq<int>, total: int)
    ensures forall i :: 0 <= i < |reqs| ==>
              SecondPassRule(reqs[i], Widths(reqs, total)[i], StartColumns(Widths(reqs, total))[i],
                             FirstPass(reqs, total)[i], FlexibleWidth(reqs, total), i == |reqs| - 1,
                             DynamicCount(reqs), total)
  {
    forall i | 0 <= i < |reqs|
      ensures SecondPassRule(reqs[i], Widths(reqs, total)[i], StartColumns(Widths(reqs, total))[i],
                             FirstPass(reqs, total)[i], FlexibleWidth(reqs, total), i == |reqs| - 1,
                             DynamicCount(reqs), total)
    {
      SecondPassWidth(reqs, total, i);
    }
  }

  /** With exactly one stretching panel, placed last, the widths fill the
      available width exactly: no gap is left at the right edge. */
  lemma {:induction false} SingleStretchFillsWidth(reqs: seq<int>, total: int)
    requires |reqs| > 0 && reqs[|reqs| - 1] <= 0 && DynamicCount(reqs) == 1
    ensures Sum(Widths(reqs, total)) == total
  {
    var ws := Widths(reqs, total);
    var front := ws[..|reqs| - 1];
    assert ws == front + [total - Sum(front)];
    SumAppend(front, total - Sum(front));
  }

  /** Compression never widens a fixed panel past its request, unless the
      panel is raised to the sidebar minimum. */
  lemma {:induction false} CompressionNeverWidens(req: int, total: int, fixedSum: int)
    requires 0 < req <= fixedSum
    requires total - fixedSum < MAIN_PANEL_MIN_WIDTH
    ensures FixedWidth(req, total, fixedSum, true) <= Max(req, SIDEBAR_MIN_WIDTH)
  {
    var m := total - MAIN_PANEL_MIN_WIDTH;
    assert m < fixedSum;
    if m >= 0 {
      assert req * m <= req * fixedSum by {
        assert req * (fixedSum - m) > 0;
      }
      assert CDiv(req * m, fixedSum) == (req * m) / fixedSum;
      DivBound(req * m, req, fixedSum);
    } else {
      assert req * m < 0 by {
        assert req * (-m) > 0;
      }
    }
  }

  lemma DivBound(a: int, q: int, b: int)
    requires b > 0 && 0 <= a <= q * b
    ensures a / b <= q
  {
  }

  /** With two stretching panels the integer split drops the remainder:
      on 101 columns each gets 50 and the last column stays empty. */
  lemma TwoStretchingPanelsLeaveAGap()
    ensures Widths([0, 0], 101) == [50, 50]
    ensures Sum(Widths([0, 0], 101)) == 100
  {
    assert FirstPass([0, 0], 101) == [0, 0];
    assert Sum([0, 0]) == 0;
    assert DynamicCount([0, 0]) == 2;
    assert Sum([50, 50]) == 100;
  }

  /** The dashboard's requests: two sidebars of 35 around one stretching panel. */
  lemma DashboardRequests()
    ensures FixedSum([35, 0, 35]) == 70 && DynamicCount([35, 0, 35]) == 1
    ensures Sum([35, 0, 35]) == 70
  {
    assert [35, 0, 35][..2] == [35, 0];
    assert [35, 0][..1] == [35];
    assert [35][..0] == [];
  }

  /** The dashboard layout worked out by hand on 120 columns: sidebars of
      35 around a stretching main panel of 48. */
  lemma DashboardLayoutWide()
    ensures Widths([35, 0, 35], TotalWidth(120)) == [35, 48, 35]
  {
    DashboardRequests();
    assert FirstPass([35, 0, 35], 118) == [35, 0, 35];
    assert Sum([35, 48]) == 83 by {
      assert [35, 48][..1] == [35];
      assert [35][..0] == [];
    }
  }

  /** The dashboard layout worked out by hand on 70 columns: the sidebars
      are compressed to 20 and the main panel gets 28. */
  lemma DashboardLayoutNarrow()
    ensures Widths([35, 0, 35], TotalWidth(70)) == [20, 28, 20]
  {
    DashboardRequests();
    assert CDiv(35 * 38, 70) == 19;
    assert FirstPass([35, 0, 35], 68) == [20, 0, 20];
    assert Sum([20, 0, 20]) == 40 by {
      assert [20, 0, 20][..2] == [20, 0];
      assert [20, 0][..1] == [20];
      assert [20][..0] == [];
    }
    assert Sum([20, 28]) == 48 by {
      assert [20, 28][..1] == [20];
      assert [20][..0] == [];
    }
  }

  /** Steps 1 to 3 of ScreenManager_resize: sum the fixed requests, count
      the stretching panels, decide on compression, size every fixed panel
      and share out what remains. */
  method SolveWidths(reqs: seq<int>, total: int) returns (calculated: seq<int>, flexible: int, dynamicPanels: nat)
    ensures calculated == FirstPass(reqs, total)
    ensures flexible == FlexibleWidth(reqs, total)
    ensures dynamicPanels == DynamicCount(reqs)
  {
    var fixedRequested;
    fixedRequested, dynamicPanels := CountRequests(reqs);
    var compress := dynamicPanels > 0 && total - fixedRequested < MAIN_PANEL_MIN_WIDTH && fixedRequested > 0;
    var finalFixed;
    calculated, finalFixed := ScaleFixed(reqs, total, fixedRequested, compress);
    flexible := 0;
    if dynamicPanels > 0 {
      var remaining := total - finalFixed;
      if remaining < 1 {
        remaining := 1;
      }
      flexible := remaining / dynamicPanels;
    }
  }

  /** The first loop of ScreenManager_resize: the sum of the fixed requests
      and the number of stretching panels. */
  method CountRequests(reqs: seq<int>) returns (fixedRequested: int, dynamicPanels: nat)
    ensures fixedRequested == FixedSum(reqs) && dynamicPanels == DynamicCount(reqs)
  {
    var n := |reqs|;
    fixedRequested := 0;
    dynamicPanels := 0;
    var i := 0;
    while i < n
      invariant 0 <= i <= n
      invariant fixedRequested == FixedSum(reqs[..i]) && dynamicPanels == DynamicCount(reqs[..i])
    {
      assert reqs[..i + 1][..i] == reqs[..i];
      if reqs[i] > 0 {
        fixedRequested := fixedRequested + reqs[i];
      } else {
        dynamicPanels := dynamicPanels + 1;
      }
      i := i + 1;
    }
    assert reqs[..n] == reqs;
  }

  /** The second loop of ScreenManager_resize: each fixed panel's width, and
      their sum. */
  method ScaleFixed(reqs: seq<int>, total: int, fixedRequested: int, compress: bool)
    returns (calculated: seq<int>, finalFixed: int)
    requires fixedRequested == FixedSum(reqs)
    requires compress == Compressing(reqs, total)
    ensures calculated == FirstPass(reqs, total) && finalFixed == Sum(calculated)
  {
    ghost var first := FirstPass(reqs, total);
    calculated := [];
    finalFixed := 0;
    var i := 0;
    while i < |reqs|
      invariant 0 <= i <= |reqs|
      invariant calculated == first[..i]
      invariant finalFixed == Sum(calculated)
    {
      var w := PanelWidth(reqs, i, total, fixedRequested, compress);
      SumAppend(calculated, w);
      assert first[..i + 1] == first[..i] + [w];
      calculated := calculated + [w];
      finalFixed := finalFixed + w;
      i := i + 1;
    }
    assert calculated == first;
  }

  /** One round of the first pass: a fixed panel's scaled and clamped
      width, 0 for a stretching one. */
  method PanelWidth(reqs: seq<int>, i: nat, total: int, fixedRequested: int, compress: bool) returns (w: int)
    requires i < |reqs|
    requires fixedRequested == FixedSum(reqs)
    requires compress == Compressing(reqs, total)
    ensures w == FirstPass(reqs, total)[i]
  {
    w := 0;
    if reqs[i] > 0 {
      w := FixedWidth(reqs[i], total, fixedRequested, compress);
    }
  }

  function PanelsOf(ls: seq<PanelLayout>): set<Panel> {
    set i | 0 <= i < |ls| :: ls[i].panel
  }

  predicate Distinct(ls: seq<PanelLayout>) {
    forall i, j :: 0 <= i < j < |ls| ==> ls[i].panel != ls[j].panel
  }

  lemma {:induction false} PanelsOfAppend(ls: seq<PanelLayout>, l: PanelLayout)
    ensures PanelsOf(ls + [l]) == PanelsOf(ls) + {l.panel}
  {
    var ls' := ls + [l];
    forall q | q in PanelsOf(ls') ensures q in PanelsOf(ls) + {l.panel} {
      var i :| 0 <= i < |ls'| && ls'[i].panel == q;
      if i < |ls| {
        assert ls[i].panel == q;
      }
    }
    forall q | q in PanelsOf(ls) + {l.panel} ensures q in PanelsOf(ls') {
      if q == l.panel {
        assert ls'[|ls|].panel == q;
      } else {
        var i :| 0 <= i < |ls| && ls[i].panel == q;
        assert ls'[i].panel == q;
      }
    }
  }

  lemma {:induction false} RemovedLayouts(ls: seq<PanelLayout>, k: int)
    requires 0 <= k < |ls| && Distinct(ls)
    ensures PanelsOf(RemoveAt(ls, k)) <= PanelsOf(ls)
    ensures Distinct(RemoveAt(ls, k))
  {
    var r := RemoveAt(ls, k);
    forall q | q in PanelsOf(r) ensures q in PanelsOf(ls) {
      var i :| 0 <= i < |r| && r[i].panel == q;
      if i < k {
        assert ls[i].panel == q;
      } else {
        assert ls[i + 1].panel == q;
      }
    }
    forall i, j | 0 <= i < j < |r| ensures r[i].panel != r[j].panel {
      var i' := if i < k then i else i + 1;
      var j' := if j < k then j else j + 1;
      assert r[i] == ls[i'] && r[j] == ls[j'] && i' < j';
    }
  }

  /** What one key does to the manager: the new focus, quit and help
      flags, whether the screen is redrawn in full, whether the layout is
      recomputed, and whether the focused panel was offered the key. */
  datatype TickState = TickState(focused: int, quit: bool, showHelp: bool)
  datatype Dispatch = Dispatch(next: TickState, force: bool, relayout: bool, offered: bool)

  /** The keys ScreenManager_run handles itself outside help: none
      arrived, resize, Ctrl+L, quit, help and Tab. */
  predicate IsGlobalKey(key: int) {
    key == ERR || key == KEY_RESIZE || key == KEY_CTRL_L || key == Ch('q') || key == Ch('h') || key == KEY_TAB
  }

  /** The key dispatch of ScreenManager_run for `n` panels. `key` is ERR
      when no key arrived; `consumed` is what the focused panel's
      Panel_onKey answers, and matters only when the key is offered. */
  function DispatchSpec(s: TickState, n: nat, key: int, consumed: bool): (d: Dispatch)
    requires !s.showHelp && key == KEY_TAB ==> n > 0
    ensures key == ERR ==> d == Dispatch(s, false, false, false)
    ensures d.next.quit == (s.quit || (!s.showHelp && key == Ch('q')))
    ensures 0 <= s.focused < n ==> 0 <= d.next.focused < n
    ensures n == 0 ==> d.next.focused == s.focused
    ensures d.offered <==> !s.showHelp && n > 0 && !IsGlobalKey(key)
    ensures d.relayout <==> key == KEY_RESIZE || (!s.showHelp && key == KEY_CTRL_L)
  {
    if s.showHelp then
      if key == ERR then Dispatch(s, false, false, false)
      else if key == KEY_RESIZE then Dispatch(s, true, true, false)
      else Dispatch(s.(showHelp := false), true, false, false)
    else if key == ERR then Dispatch(s, false, false, false)
    else if key == KEY_RESIZE || key == KEY_CTRL_L then Dispatch(s, true, true, false)
    else if key == Ch('q') then Dispatch(s.(quit := true), false, false, false)
    else if key == Ch('h') then Dispatch(s.(showHelp := true), true, false, false)
    else if key == KEY_TAB then Dispatch(s.(focused := (s.focused + 1) % n), true, false, false)
    else if n > 0 && consumed then Dispatch(s, false, false, true)
    // size_t arithmetic: with no panels, panel_count - 1 wraps and the
    // request to focus index 1 is refused.
    else if key == KEY_RIGHT && (n == 0 || s.focused < n - 1) then
      Dispatch(s.(focused := if n == 0 then s.focused else s.focused + 1), true, false, n > 0)
    else if key == KEY_LEFT && s.focused > 0 then
      Dispatch(s.(focused := if s.focused - 1 < n then s.focused - 1 else s.focused), true, false, n > 0)
    else Dispatch(s, false, false, n > 0)
  }

  /** In help mode a key other than KEY_RESIZE only closes help. */
  lemma HelpKeyOnlyCloses(s: TickState, n: nat, key: int, consumed: bool)
    requires s.showHelp && key != ERR && key != KEY_RESIZE
    ensures DispatchSpec(s, n, key, consumed) == Dispatch(s.(showHelp := false), true, false, false)
  {
  }

  /** Tab cycles the focus through all panels, wrapping at the end. */
  lemma TabCycles(s: TickState, n: nat, consumed: bool)
    requires !s.showHelp && n > 0 && 0 <= s.focused < n
    ensures DispatchSpec(s, n, KEY_TAB, consumed).next.focused == if s.focused == n - 1 then 0 else s.focused + 1
  {
  }

  /** Unconsumed arrows move the focus by one and never wrap. */
  lemma ArrowsDoNotWrap(s: TickState, n: nat, consumed: bool)
    requires !s.showHelp && n > 0 && 0 <= s.focused < n && !consumed
    ensures DispatchSpec(s, n, KEY_RIGHT, consumed).next.focused == Min(s.focused + 1, n - 1)
    ensures DispatchSpec(s, n, KEY_LEFT, consumed).next.focused == Max(s.focused - 1, 0)
  {
  }

  /** Panel_onKey consumes the arrows of any panel that has items, so
      arrows change focus only while the focused panel is empty. */
  lemma ArrowsMoveFocusOnlyFromEmptyPanels(s: TickState, n: nat, key: int,
                                           hasHandler: bool, handlerResult: nat, count: nat)
    requires !s.showHelp && n > 0 && (key == KEY_LEFT || key == KEY_RIGHT)
    requires DispatchSpec(s, n, key, Consumes(hasHandler, handlerResult, count, key)).next.focused != s.focused
    ensures count == 0
  {
  }

  class ScreenManager {
    var layouts: seq<PanelLayout>
    var focused: nat
    var quit: bool
    var showHelp: bool
    var lastRefresh: real
    var refreshInterval: real
    /** Whether an on_refresh callback is installed, and how often it ran. */
    var hasRefreshCallback: bool
    var refreshCalls: nat
    var hasFunctionBar: bool
    var headerTitle: string
    var headerStatus: string
    var headerRuntime: real

    ghost function Panels(): set<Panel>
      reads this
    {
      PanelsOf(layouts)
    }

    /** Panels are distinct and valid, the focused index is in range, and
        exactly the focused panel has focus. */
    ghost predicate Valid()
      reads this, Panels()
    {
      && (|layouts| == 0 ==> focused == 0)
      && (|layouts| > 0 ==> focused < |layouts|)
      && Distinct(layouts)
      && (forall i :: 0 <= i < |layouts| ==> layouts[i].panel.Valid())
      && (forall i :: 0 <= i < |layouts| ==> layouts[i].panel.hasFocus == (i == focused))
      && refreshInterval > 0.0
    }

    /** Every panel is placed as the width solver says for this terminal. */
    ghost predicate LaidOut(cols: int, lines: int)
      reads this, Panels()
    {
      forall i {:trigger layouts[i]} :: 0 <= i < |layouts| ==>
        Placed(layouts[i].panel, StartColumns(Layout(cols))[i], Layout(cols)[i], PanelHeight(lines), i < |layouts| - 1)
    }

    /** The widths the solver gives the panels on a terminal `cols` wide. */
    ghost function Layout(cols: int): (ws: seq<int>)
      reads this
      ensures |ws| == |layouts|
    {
      Widths(Requests(layouts), TotalWidth(cols))
    }

    /** The state the key dispatch reads. */
    function State(): TickState
      reads this
    {
      TickState(focused, quit, showHelp)
    }

    /** What the focused panel's Panel_onKey would answer for `key`. */
    function FocusedConsumes(key: int, handlerResult: nat): bool
      reads this, Panels()
      requires Valid()
    {
      |layouts| > 0 &&
      Consumes(layouts[focused].panel.hasEventHandler, handlerResult, |layouts[focused].panel.items|, key)
    }

    /** ScreenManager_new: no panels; an interval of 0 or less becomes 1. */
    constructor (title: string, interval: real, now: real)
      ensures Valid()
      ensures layouts == [] && focused == 0 && !quit && !showHelp
      ensures refreshInterval == if interval > 0.0 then interval else 1.0
      ensures lastRefresh == now && !hasRefreshCallback && refreshCalls == 0 && !hasFunctionBar
      ensures headerTitle == title
    {
      layouts := [];
      focused := 0;
      quit, showHelp := false, false;
      lastRefresh := now;
      refreshInterval := if interval > 0.0 then interval else 1.0;
      hasRefreshCallback := false;
      refreshCalls := 0;
      hasFunctionBar := false;
      headerTitle := title;
      headerStatus := "";
      headerRuntime := 0.0;
    }

    function PanelCount(): (n: nat)
      reads this
      ensures n == |layouts|
    {
      |layouts|
    }

    /** ScreenManager_getPanel: none for an index out of range. */
    function GetPanel(index: int): (r: Option<Panel>)
      reads this
      ensures r.Some? <==> 0 <= index < |layouts|
      ensures r.Some? ==> r.value == layouts[index].panel
    {
      if 0 <= index < |layouts| then Some(layouts[index].panel) else None
    }

    /** ScreenManager_getFocused: none when there are no panels. */
    function GetFocused(): (r: Option<Panel>)
      reads this, Panels()
      requires Valid()
      ensures r.Some? <==> |layouts| > 0
      ensures r.Some? ==> r.value == layouts[focused].panel && r.value.hasFocus
    {
      if |layouts| > 0 then Some(layouts[focused].panel) else None
    }

    method SetRefreshCallback(installed: bool)
      modifies this`hasRefreshCallback
      ensures hasRefreshCallback == installed
    {
      hasRefreshCallback := installed;
    }

    method SetFunctionBar(installed: bool)
      modifies this`hasFunctionBar
      ensures hasFunctionBar == installed
    {
      hasFunctionBar := installed;
    }

    method SetHeaderText(text: string)
      modifies this`headerTitle
      ensures headerTitle == text
    {
      headerTitle := text;
    }

    method SetHeaderStatus(status: string)
      modifies this`headerStatus
      ensures headerStatus == status
    {
      headerStatus := status;
    }

    method SetHeaderRuntime(runtime: real)
      modifies this`headerRuntime
      ensures headerRuntime == runtime
    {
      headerRuntime := runtime;
    }

    /** ScreenManager_resize: the width solver, then the placement pass from
        left to right. With no panels nothing happens. Only geometry, the
        separator flag and the dirty flag change: each panel keeps its
        items, selection, scrolls and hooks. */
    method Resize(cols: int, lines: int)
      requires Valid()
      modifies Panels()
      ensures Valid()
      ensures forall i {:trigger layouts[i]} :: 0 <= i < |layouts| ==>
                Arranged(layouts[i].panel, StartColumns(Layout(cols))[i], Layout(cols)[i], PanelHeight(lines),
                         i < |layouts| - 1, old(layouts[i].panel.hasFocus),
                         old(layouts[i].panel.Content()))
    {
      if |layouts| == 0 {
        return;
      }
      LayOut(layouts, TotalWidth(cols), PanelHeight(lines));
    }

    /** ScreenManager_addPanel: a NULL panel is ignored; otherwise the panel
        is appended, gets focus only when it is the only one, and everything
        is laid out again, every panel keeping what it holds. */
    method AddPanel(panel: Panel?, width: int, cols: int, lines: int)
      requires Valid()
      requires panel != null ==> panel.Valid() && panel !in Panels()
      modifies this, Panels(), panel
      ensures Valid()
      ensures panel == null ==> unchanged(this) && unchanged(Panels())
      ensures panel != null ==> layouts == old(layouts) + [PanelLayout(panel, width)]
      ensures focused == old(focused)
      ensures panel != null ==> (panel.hasFocus <==> |layouts| == 1)
      ensures panel != null ==> LaidOut(cols, lines)
      ensures panel != null ==> forall i {:trigger layouts[i]} :: 0 <= i < |layouts| ==>
                var p := layouts[i].panel;
                Arranged(p, StartColumns(Layout(cols))[i], Layout(cols)[i], PanelHeight(lines), i < |layouts| - 1,
                         if p == panel then |layouts| == 1 else old(p.hasFocus), old(p.Content()))
      ensures quit == old(quit) && showHelp == old(showHelp) && hasRefreshCallback == old(hasRefreshCallback)
      ensures headerTitle == old(headerTitle) && refreshInterval == old(refreshInterval) && hasFunctionBar == old(hasFunctionBar)
    {
      if panel == null {
        return;
      }
      Append(panel, width);
      Resize(cols, lines);
    }

    /** The list part of ScreenManager_addPanel: the panel goes at the end,
        focused exactly when it is the first. */
    method Append(panel: Panel, width: int)
      requires Valid() && panel.Valid()
      requires panel !in Panels()
      modifies this`layouts, panel`hasFocus, panel`needsRedraw
      ensures Valid()
      ensures layouts == old(layouts) + [PanelLayout(panel, width)]
      ensures panel.hasFocus <==> |layouts| == 1
      ensures panel.Content() == old(panel.Content()) && panel.Geometry() == old(panel.Geometry())
    {
      PanelsOfAppend(layouts, PanelLayout(panel, width));
      layouts := layouts + [PanelLayout(panel, width)];
      panel.SetFocus(|layouts| == 1);
    }

    /** ScreenManager_setFocus: an index out of range is refused and changes
        nothing; otherwise focus moves from the old panel to the new one. */
    method SetFocus(index: int) returns (ok: bool)
      requires Valid()
      modifies this`focused, Panels()`hasFocus, Panels()`needsRedraw
      ensures Valid()
      ensures ok <==> 0 <= index < |layouts|
      ensures focused == if ok then index else old(focused)
      ensures forall j {:trigger layouts[j]} :: 0 <= j < |layouts| ==>
                Held(layouts[j].panel, old(layouts[j].panel.Content()), old(layouts[j].panel.Geometry()))
    {
      if index < 0 || index >= |layouts| {
        return false;
      }
      layouts[focused].panel.SetFocus(false);
      focused := index;
      layouts[focused].panel.SetFocus(true);
      return true;
    }

    /** ScreenManager_removePanel: hands back the panel at `index` (none for
        a bad index), keeps the others in order, pulls the focused index back
        into range, and gives focus to exactly the focused panel. */
    method RemovePanel(index: int, cols: int, lines: int) returns (removed: Option<Panel>)
      requires Valid()
      modifies this, Panels()
      ensures Valid()
      ensures removed.None? <==> !(0 <= index < old(|layouts|))
      ensures removed.None? ==> layouts == old(layouts) && focused == old(focused)
      ensures removed.Some? ==> removed.value == old(layouts)[index].panel
      ensures removed.Some? ==> layouts == RemoveAt(old(layouts), index)
      ensures removed.Some? ==> focused == if old(focused) >= |layouts| && |layouts| > 0 then |layouts| - 1 else old(focused)
      ensures removed.Some? ==> LaidOut(cols, lines)
      ensures removed.Some? ==> forall j {:trigger layouts[j]} :: 0 <= j < |layouts| ==>
                var p := layouts[j].panel;
                Arranged(p, StartColumns(Layout(cols))[j], Layout(cols)[j], PanelHeight(lines), j < |layouts| - 1,
                         j == focused, old(p.Content()))
      ensures hasRefreshCallback == old(hasRefreshCallback) && quit == old(quit) && showHelp == old(showHelp)
    {
      if index < 0 || index >= |layouts| {
        return None;
      }
      var panel := layouts[index].panel;
      RemovedLayouts(layouts, index);
      layouts := RemoveAt(layouts, index);
      if focused >= |layouts| && |layouts| > 0 {
        focused := |layouts| - 1;
      }
      Refocus();
      Resize(cols, lines);
      return Some(panel);
    }

    /** The loop of removePanel that gives focus to exactly the focused panel. */
    method Refocus()
      requires |layouts| == 0 ==> focused == 0
      requires |layouts| > 0 ==> focused < |layouts|
      requires Distinct(layouts) && refreshInterval > 0.0
      requires forall j :: 0 <= j < |layouts| ==> layouts[j].panel.Valid()
      modifies Panels()
      ensures Valid()
      ensures forall j {:trigger layouts[j]} :: 0 <= j < |layouts| ==>
                Kept(layouts[j].panel, j == focused, old(layouts[j].panel.Content()), old(layouts[j].panel.Geometry()))
                && layouts[j].panel.needsRedraw
    {
      var i := 0;
      while i < |layouts|
        invariant 0 <= i <= |layouts|
        invariant forall j {:trigger layouts[j]} :: 0 <= j < i ==>
                    Kept(layouts[j].panel, j == focused, old(layouts[j].panel.Content()), old(layouts[j].panel.Geometry()))
                    && layouts[j].panel.needsRedraw
        invariant forall j {:trigger layouts[j]} :: i <= j < |layouts| ==>
                    Kept(layouts[j].panel, old(layouts[j].panel.hasFocus), old(layouts[j].panel.Content()),
                         old(layouts[j].panel.Geometry()))
      {
        assert forall j :: 0 <= j < |layouts| && j != i ==> layouts[j].panel != layouts[i].panel;
        layouts[i].panel.SetFocus(i == focused);
        i := i + 1;
      }
    }

    /** The key handling of one ScreenManager_run iteration. `key` is what
        the terminal returned (ERR for none) and `handlerResult` what the
        focused panel's event handler would answer. Tab needs at least one
        panel: with none, the source divides by zero. */
    method DispatchKey(key: int, handlerResult: nat, cols: int, lines: int) returns (force: bool)
      requires Valid()
      requires !showHelp && key == KEY_TAB ==> |layouts| > 0
      modifies this`focused, this`quit, this`showHelp, Panels()
      ensures Valid()
      ensures var d := DispatchSpec(old(State()), |layouts|, key, old(FocusedConsumes(key, handlerResult)));
              State() == d.next && force == d.force
      ensures key == KEY_RESIZE || (!old(showHelp) && key == KEY_CTRL_L) ==> LaidOut(cols, lines)
      ensures var d := DispatchSpec(old(State()), |layouts|, key, old(FocusedConsumes(key, handlerResult)));
              forall j {:trigger layouts[j]} :: 0 <= j < |layouts| ==>
                var p := layouts[j].panel;
                if d.relayout then
                  Arranged(p, StartColumns(Layout(cols))[j], Layout(cols)[j], PanelHeight(lines), j < |layouts| - 1,
                           old(p.hasFocus), old(p.Content()))
                else AfterKey(p, d.offered && j == old(focused), key, handlerResult, old(p.Content()), old(p.Geometry()))
    {
      if showHelp {
        force := HelpModeKey(key, cols, lines);
      } else {
        force := MainKey(key, handlerResult, cols, lines);
      }
    }

    /** Outside help: the global keys first, then the focused panel. */
    method MainKey(key: int, handlerResult: nat, cols: int, lines: int) returns (force: bool)
      requires Valid() && !showHelp
      requires key == KEY_TAB ==> |layouts| > 0
      modifies this`focused, this`quit, this`showHelp, Panels()
      ensures Valid()
      ensures var d := DispatchSpec(old(State()), |layouts|, key, old(FocusedConsumes(key, handlerResult)));
              State() == d.next && force == d.force
      ensures key == KEY_RESIZE || key == KEY_CTRL_L ==> LaidOut(cols, lines)
      ensures var d := DispatchSpec(old(State()), |layouts|, key, old(FocusedConsumes(key, handlerResult)));
              forall j {:trigger layouts[j]} :: 0 <= j < |layouts| ==>
                var p := layouts[j].panel;
                if d.relayout then
                  Arranged(p, StartColumns(Layout(cols))[j], Layout(cols)[j], PanelHeight(lines), j < |layouts| - 1,
                           old(p.hasFocus), old(p.Content()))
                else AfterKey(p, d.offered && j == old(focused), key, handlerResult, old(p.Content()), old(p.Geometry()))
    {
      force := false;
      if key == KEY_RESIZE || key == KEY_CTRL_L {
        Resize(cols, lines);
        force := true;
      } else if key != ERR {
        force := OtherKey(key, handlerResult);
      }
    }

    /** Quit, help and Tab change only the manager's flags and focus; any
        other key goes to the focused panel. */
    method OtherKey(key: int, handlerResult: nat) returns (force: bool)
      requires Valid() && !showHelp
      requires key != ERR && key != KEY_RESIZE && key != KEY_CTRL_L
      requires key == KEY_TAB ==> |layouts| > 0
      modifies this`focused, this`quit, this`showHelp, Panels()
      ensures Valid()
      ensures var d := DispatchSpec(old(State()), |layouts|, key, old(FocusedConsumes(key, handlerResult)));
              State() == d.next && force == d.force
      ensures forall j {:trigger layouts[j]} :: 0 <= j < |layouts| ==>
                var p := layouts[j].panel;
                AfterKey(p, !IsGlobalKey(key) && j == old(focused), key, handlerResult, old(p.Content()), old(p.Geometry()))
    {
      var ok: bool;
      if key == Ch('q') {
        quit := true;
        force := false;
      } else if key == Ch('h') {
        showHelp := true;
        force := true;
      } else if key == KEY_TAB {
        ok := SetFocus((focused + 1) % |layouts|);
        force := true;
      } else {
        force := PanelKey(key, handlerResult);
      }
    }

    /** While help is shown, any key closes it, except KEY_RESIZE, which
        lays the panels out again. */
    method HelpModeKey(key: int, cols: int, lines: int) returns (force: bool)
      requires Valid() && showHelp
      modifies this`showHelp, Panels()
      ensures Valid()
      ensures var d := DispatchSpec(old(State()), |layouts|, key, false);
              State() == d.next && force == d.force
      ensures key == KEY_RESIZE ==> LaidOut(cols, lines)
      ensures forall j {:trigger layouts[j]} :: 0 <= j < |layouts| ==>
                var p := layouts[j].panel;
                if key == KEY_RESIZE then
                  Arranged(p, StartColumns(Layout(cols))[j], Layout(cols)[j], PanelHeight(lines), j < |layouts| - 1,
                           old(p.hasFocus), old(p.Content()))
                else Held(p, old(p.Content()), old(p.Geometry()))
    {
      force := false;
      if key != ERR {
        if key == KEY_RESIZE {
          Resize(cols, lines);
        } else {
          showHelp := false;
        }
        force := true;
      }
    }

    /** A key that is not a global key: offered to the focused panel, and
        if refused, an arrow moves the focus to the neighbouring panel. */
    method PanelKey(key: int, handlerResult: nat) returns (force: bool)
      requires Valid() && !showHelp
      requires !IsGlobalKey(key)
      modifies this`focused, Panels()
      ensures Valid()
      ensures var d := DispatchSpec(old(State()), |layouts|, key, old(FocusedConsumes(key, handlerResult)));
              State() == d.next && force == d.force
      ensures forall j {:trigger layouts[j]} :: 0 <= j < |layouts| ==>
                var p := layouts[j].panel;
                AfterKey(p, j == old(focused), key, handlerResult, old(p.Content()), old(p.Geometry()))
    {
      force := false;
      var handled := OfferKey(key, handlerResult);
      if !handled {
        force := MoveFocus(key);
      }
    }

    /** Panel_onKey on the focused panel, when there is one. */
    method OfferKey(key: int, handlerResult: nat) returns (handled: bool)
      requires Valid()
      modifies Panels()
      ensures Valid()
      ensures handled == old(FocusedConsumes(key, handlerResult))
      ensures forall j {:trigger layouts[j]} :: 0 <= j < |layouts| ==>
                var p := layouts[j].panel;
                AfterKey(p, j == focused, key, handlerResult, old(p.Content()), old(p.Geometry()))
    {
      handled := false;
      if |layouts| > 0 {
        assert forall j :: 0 <= j < |layouts| && j != focused ==> layouts[j].panel != layouts[focused].panel;
        handled := layouts[focused].panel.OnKey(key, handlerResult);
      }
    }

    /** A key the focused panel refused: an arrow moves the focus to the
        neighbouring panel, and nothing else changes. */
    method MoveFocus(key: int) returns (force: bool)
      requires Valid() && !showHelp
      requires !IsGlobalKey(key)
      modifies this`focused, Panels()`hasFocus, Panels()`needsRedraw
      ensures Valid()
      ensures var d := DispatchSpec(old(State()), |layouts|, key, false);
              State() == d.next && force == d.force
      ensures forall j {:trigger layouts[j]} :: 0 <= j < |layouts| ==>
                Held(layouts[j].panel, old(layouts[j].panel.Content()), old(layouts[j].panel.Geometry()))
    {
      force := false;
      var ok: bool;
      if key == KEY_RIGHT {
        // focused < panel_count - 1 in size_t: always true with no panels.
        if |layouts| == 0 || focused < |layouts| - 1 {
          ok := SetFocus(focused + 1);
          force := true;
        }
      } else if key == KEY_LEFT {
        if focused > 0 {
          ok := SetFocus(focused - 1);
          force := true;
        }
      }
    }

    /** The periodic refresh of ScreenManager_run: once `refreshInterval`
        seconds have passed since the last one, the refresh callback runs
        (if installed) and every panel is marked dirty. */
    method CheckRefresh(now: real) returns (refreshed: bool)
      requires Valid()
      modifies this`lastRefresh, this`refreshCalls, Panels()
      ensures Valid()
      ensures refreshed <==> now - old(lastRefresh) >= refreshInterval
      ensures lastRefresh == if refreshed then now else old(lastRefresh)
      ensures refreshCalls == old(refreshCalls) + if refreshed && hasRefreshCallback then 1 else 0
      ensures refreshed ==> forall j {:trigger layouts[j]} :: 0 <= j < |layouts| ==>
                var p := layouts[j].panel;
                Kept(p, old(p.hasFocus), old(p.Content()), old(p.Geometry())) && p.needsRedraw
      ensures !refreshed ==> unchanged(Panels())
    {
      refreshed := now - lastRefresh >= refreshInterval;
      if refreshed {
        lastRefresh := now;
        if hasRefreshCallback {
          refreshCalls := refreshCalls + 1;
        }
        MarkAll(layouts);
      }
    }

    /** The drawing step of ScreenManager_run: Panel_draw on every panel,
        left to right, forced or not. */
    method Render(force: bool) returns (calls: seq<seq<DrawCall>>)
      requires Valid()
      modifies Panels()
      ensures Valid()
      ensures |calls| == |layouts|
      ensures forall i {:trigger layouts[i]} :: 0 <= i < |layouts| ==>
                Drew(layouts[i].panel, force, calls[i], old(layouts[i].panel.needsRedraw),
                     old(layouts[i].panel.Content()))
                && Stayed(layouts[i].panel, old(layouts[i].panel.hasFocus), old(layouts[i].panel.Geometry()))
    {
      calls := DrawPanels(layouts, force);
    }

    /** ScreenManager_forceRedraw: every panel is drawn in full. */
    method ForceRedraw() returns (calls: seq<seq<DrawCall>>)
      requires Valid()
      modifies Panels()
      ensures Valid()
      ensures |calls| == |layouts|
      ensures forall i {:trigger layouts[i]} :: 0 <= i < |layouts| ==>
                Drew(layouts[i].panel, true, calls[i], old(layouts[i].panel.needsRedraw),
                     old(layouts[i].panel.Content()))
                && Stayed(layouts[i].panel, old(layouts[i].panel.hasFocus), old(layouts[i].panel.Geometry()))
    {
      calls := DrawPanels(layouts, true);
    }

    /** One iteration of ScreenManager_run: keys, then the refresh timer,
        then drawing. The first iteration of the loop is always forced. */
    method Tick(key: int, handlerResult: nat, now: real, cols: int, lines: int, first: bool)
      returns (calls: seq<seq<DrawCall>>)
      requires Valid()
      requires !showHelp && key == KEY_TAB ==> |layouts| > 0
      modifies this`focused, this`quit, this`showHelp, this`lastRefresh, this`refreshCalls, Panels()
      ensures Valid()
      ensures State() == DispatchSpec(old(State()), |layouts|, key, old(FocusedConsumes(key, handlerResult))).next
      ensures lastRefresh == if now - old(lastRefresh) >= refreshInterval then now else old(lastRefresh)
      ensures |calls| == |layouts|
      ensures forall i :: 0 <= i < |layouts| ==> !layouts[i].panel.needsRedraw
      ensures first || DispatchSpec(old(State()), |layouts|, key, old(FocusedConsumes(key, handlerResult))).force
              || now - old(lastRefresh) >= refreshInterval ==>
                forall i {:trigger layouts[i]} :: 0 <= i < |layouts| ==> FullyDrawn(layouts[i].panel, calls[i])
      ensures var d := DispatchSpec(old(State()), |layouts|, key, old(FocusedConsumes(key, handlerResult)));
              forall j {:trigger layouts[j]} :: 0 <= j < |layouts| ==>
                var p := layouts[j].panel;
                Ticked(p, d.relayout, d.offered && j == old(focused), key, handlerResult, old(p.Content()), old(p.Geometry()))
    {
      var force := KeyStage(key, handlerResult, cols, lines);
      calls := RefreshAndRender(now, first || force);
    }

    /** DispatchKey, with what it does to each panel in one predicate. */
    method KeyStage(key: int, handlerResult: nat, cols: int, lines: int) returns (force: bool)
      requires Valid()
      requires !showHelp && key == KEY_TAB ==> |layouts| > 0
      modifies this`focused, this`quit, this`showHelp, Panels()
      ensures Valid()
      ensures var d := DispatchSpec(old(State()), |layouts|, key, old(FocusedConsumes(key, handlerResult)));
              State() == d.next && force == d.force
      ensures key == KEY_RESIZE || (!old(showHelp) && key == KEY_CTRL_L) ==> LaidOut(cols, lines)
      ensures var d := DispatchSpec(old(State()), |layouts|, key, old(FocusedConsumes(key, handlerResult)));
              forall j {:trigger layouts[j]} :: 0 <= j < |layouts| ==>
                var p := layouts[j].panel;
                Keyed(p, d.relayout, d.offered && j == old(focused), key, handlerResult, old(p.Content()), old(p.Geometry()))
    {
      force := DispatchKey(key, handlerResult, cols, lines);
    }

    /** The refresh timer and the drawing step of one iteration: every panel
        ends clean, in the same place and holding the same things except
        for the vertical scroll that drawing brings to the selection. */
    method RefreshAndRender(now: real, force: bool) returns (calls: seq<seq<DrawCall>>)
      requires Valid()
      modifies this`lastRefresh, this`refreshCalls, Panels()
      ensures Valid()
      ensures lastRefresh == if now - old(lastRefresh) >= refreshInterval then now else old(lastRefresh)
      ensures refreshCalls == old(refreshCalls) + if now - old(lastRefresh) >= refreshInterval && hasRefreshCallback then 1 else 0
      ensures |calls| == |layouts|
      ensures forall j {:trigger layouts[j]} :: 0 <= j < |layouts| ==>
                var p := layouts[j].panel;
                Rendered(p, old(p.Content()), old(p.Geometry()))
      ensures force || now - old(lastRefresh) >= refreshInterval ==>
                forall j {:trigger layouts[j]} :: 0 <= j < |layouts| ==> FullyDrawn(layouts[j].panel, calls[j])
    {
      var refreshed := CheckRefresh(now);
      calls := Render(force || refreshed);
    }
  }

  /** Panel_setNeedsRedraw on every panel. */
  method MarkAll(ls: seq<PanelLayout>)
    requires Distinct(ls)
    requires forall i :: 0 <= i < |ls| ==> ls[i].panel.Valid()
    modifies PanelsOf(ls)
    ensures forall j {:trigger ls[j]} :: 0 <= j < |ls| ==>
              Kept(ls[j].panel, old(ls[j].panel.hasFocus), old(ls[j].panel.Content()), old(ls[j].panel.Geometry()))
              && ls[j].panel.needsRedraw
  {
    var i := 0;
    while i < |ls|
      invariant 0 <= i <= |ls|
      invariant forall j {:trigger ls[j]} :: 0 <= j < i ==>
                  Kept(ls[j].panel, old(ls[j].panel.hasFocus), old(ls[j].panel.Content()), old(ls[j].panel.Geometry()))
                  && ls[j].panel.needsRedraw
      invariant forall j {:trigger ls[j]} :: i <= j < |ls| ==>
                  Kept(ls[j].panel, old(ls[j].panel.hasFocus), old(ls[j].panel.Content()), old(ls[j].panel.Geometry()))
    {
      assert forall j :: 0 <= j < |ls| && j != i ==> ls[j].panel != ls[i].panel;
      ls[i].panel.SetNeedsRedraw();
      i := i + 1;
    }
  }

  /** Panel_draw on every panel, left to right. */
  method DrawPanels(ls: seq<PanelLayout>, force: bool) returns (calls: seq<seq<DrawCall>>)
    requires Distinct(ls)
    requires forall i :: 0 <= i < |ls| ==> ls[i].panel.Valid()
    modifies PanelsOf(ls)
    ensures |calls| == |ls|
    ensures forall j {:trigger ls[j]} :: 0 <= j < |ls| ==>
              Drew(ls[j].panel, force, calls[j], old(ls[j].panel.needsRedraw), old(ls[j].panel.Content()))
              && Stayed(ls[j].panel, old(ls[j].panel.hasFocus), old(ls[j].panel.Geometry()))
  {
    calls := [];
    var i := 0;
    while i < |ls|
      invariant 0 <= i <= |ls| && |calls| == i
      invariant forall j {:trigger ls[j]} :: 0 <= j < i ==>
                  Drew(ls[j].panel, force, calls[j], old(ls[j].panel.needsRedraw), old(ls[j].panel.Content()))
                  && Stayed(ls[j].panel, old(ls[j].panel.hasFocus), old(ls[j].panel.Geometry()))
      invariant forall j {:trigger ls[j]} :: i <= j < |ls| ==>
                  Waiting(ls[j].panel, old(ls[j].panel.needsRedraw), old(ls[j].panel.Content()),
                          old(ls[j].panel.hasFocus), old(ls[j].panel.Geometry()))
    {
      assert forall j :: 0 <= j < |ls| && j != i ==> ls[j].panel != ls[i].panel;
      var c := ls[i].panel.Draw(force);
      calls := calls + [c];
      i := i + 1;
    }
  }

  /** Panel `p` is valid and keeps its focus flag, what it holds and where
      it sits: only its dirty flag may have changed. */
  ghost predicate Kept(p: Panel, focus0: bool, c0: PanelContent, g0: PanelGeometry)
    reads p
  {
    p.Valid() && p.Content() == c0 && Stayed(p, focus0, g0)
  }

  /** Panel `p` is valid and keeps what it holds and where it sits. */
  ghost predicate Held(p: Panel, c0: PanelContent, g0: PanelGeometry)
    reads p
  {
    p.Valid() && p.Content() == c0 && p.Geometry() == g0
  }

  /** What a panel that held `c0` and was `h` rows high holds after a key
      that is offered to it or not. */
  function KeyedContent(c0: PanelContent, offered: bool, h: int, key: int, handlerResult: nat): PanelContent
    requires c0.scrollH >= 0
  {
    if offered then KeyContent(c0, h, key, handlerResult) else c0
  }

  /** Panel `p` keeps where it sits and holds what Panel_onKey leaves when
      it was offered the key, and what it held otherwise. */
  ghost predicate AfterKey(p: Panel, offered: bool, key: int, handlerResult: nat, c0: PanelContent, g0: PanelGeometry)
    reads p
  {
    p.Valid() && p.Geometry() == g0 && c0.scrollH >= 0
    && p.Content() == KeyedContent(c0, offered, g0.h, key, handlerResult)
  }

  /** Panel `p` is valid, moved only if the key relaid the panels out,
      and holds what the key left in it. */
  ghost predicate Keyed(p: Panel, relayout: bool, offered: bool, key: int, handlerResult: nat,
                        c0: PanelContent, g0: PanelGeometry)
    reads p
  {
    && p.Valid()
    && (!relayout ==> p.Geometry() == g0)
    && c0.scrollH >= 0
    && p.Content() == KeyedContent(c0, offered, g0.h, key, handlerResult)
  }

  /** Panel `p` is clean, keeps where it sits, and holds `c0` except for
      the vertical scroll drawing may have moved. */
  ghost predicate Rendered(p: Panel, c0: PanelContent, g0: PanelGeometry)
    reads p
  {
    !p.needsRedraw && p.Geometry() == g0 && p.Content() == c0.(scrollV := p.scrollV)
  }

  /** Panel `p` after one loop iteration from `c0` and `g0`: it moved only if
      the key relaid the panels out, and holds what the key left in it, up
      to the vertical scroll. */
  ghost predicate Ticked(p: Panel, relayout: bool, offered: bool, key: int, handlerResult: nat,
                         c0: PanelContent, g0: PanelGeometry)
    reads p
  {
    && (!relayout ==> p.Geometry() == g0)
    && c0.scrollH >= 0
    && p.Content() == KeyedContent(c0, offered, g0.h, key, handlerResult).(scrollV := p.scrollV)
  }

  /** Panel `p` keeps its focus flag and where it sits. */
  ghost predicate Stayed(p: Panel, focus0: bool, g0: PanelGeometry)
    reads p
  {
    p.hasFocus == focus0 && p.Geometry() == g0
  }

  /** Panel `p` has not been drawn yet this round. */
  ghost predicate Waiting(p: Panel, dirty0: bool, c0: PanelContent, focus0: bool, g0: PanelGeometry)
    reads p
  {
    p.Valid() && p.needsRedraw == dirty0 && Kept(p, focus0, c0, g0)
  }

  /** The width rule of the second pass for panel i, which starts at
      column x. */
  ghost predicate SecondPassRule(req: int, w: int, x: int, calculated: int, flexible: int,
                                 last: bool, dynamicPanels: int, total: int)
  {
    w == if req > 0 then calculated
         else if last && dynamicPanels == 1 then total - (x - X1)
         else flexible
  }

  /** The body of ScreenManager_resize for a non-empty panel list: the width
      solver, then the placement pass. */
  method LayOut(ls: seq<PanelLayout>, total: int, height: int)
    requires |ls| > 0 && Distinct(ls)
    requires forall i :: 0 <= i < |ls| ==> ls[i].panel.Valid()
    modifies PanelsOf(ls)
    ensures forall j {:trigger ls[j]} :: 0 <= j < |ls| ==>
              Arranged(ls[j].panel, StartColumns(Widths(Requests(ls), total))[j], Widths(Requests(ls), total)[j],
                       height, j < |ls| - 1, old(ls[j].panel.hasFocus),
                       old(ls[j].panel.Content()))
  {
    var reqs := Requests(ls);
    var calculated, flexible, dynamicPanels := SolveWidths(reqs, total);
    SecondPassPlan(reqs, total);
    PlacePanels(ls, Widths(reqs, total), StartColumns(Widths(reqs, total)), calculated, flexible,
                dynamicPanels, total, height);
  }

  /** The second pass of ScreenManager_resize: each panel's final width is
      computed and the panel is placed right after the previous one. `ws`
      and `xs` are the widths and start columns this produces. */
  method PlacePanels(ls: seq<PanelLayout>, ghost ws: seq<int>, ghost xs: seq<int>, calculated: seq<int>,
                     flexible: int, dynamicPanels: int, total: int, height: int)
    requires |ls| == |ws| == |xs| == |calculated| && Distinct(ls)
    requires |ls| > 0 ==> xs[0] == X1
    requires forall i {:trigger ws[i]} :: 0 <= i < |ls| - 1 ==> xs[i + 1] == xs[i] + ws[i]
    requires forall i :: 0 <= i < |ls| ==> ls[i].panel.Valid()
    requires forall i {:trigger ls[i]} :: 0 <= i < |ls| ==>
               SecondPassRule(ls[i].requested, ws[i], xs[i], calculated[i], flexible, i == |ls| - 1, dynamicPanels, total)
    modifies PanelsOf(ls)
    ensures forall j {:trigger ls[j]} :: 0 <= j < |ls| ==>
              Arranged(ls[j].panel, xs[j], ws[j], height, j < |ls| - 1,
                       old(ls[j].panel.hasFocus), old(ls[j].panel.Content()))
  {
    var n := |ls|;
    var currentX := X1;
    var i := 0;
    while i < n
      invariant 0 <= i <= n
      invariant i < n ==> currentX == xs[i]
      invariant forall j {:trigger ls[j]} :: 0 <= j < i ==>
                  Arranged(ls[j].panel, xs[j], ws[j], height, j < n - 1,
                           old(ls[j].panel.hasFocus), old(ls[j].panel.Content()))
      invariant forall j {:trigger ls[j]} :: i <= j < n ==>
                  Untouched(ls[j].panel, old(ls[j].panel.hasFocus),
                            old(ls[j].panel.Content()))
    {
      var w := calculated[i];
      if ls[i].requested <= 0 {
        if i == n - 1 && dynamicPanels == 1 {
          // The last stretching panel gets the rest of the screen.
          w := total - (currentX - X1);
        } else {
          w := flexible;
        }
      }
      assert SecondPassRule(ls[i].requested, ws[i], xs[i], calculated[i], flexible, i == n - 1, dynamicPanels, total);
      var p := ls[i].panel;
      assert forall j :: 0 <= j < n && j != i ==> ls[j].panel != p;
      Place(p, currentX, w, height, i < n - 1);
      currentX := currentX + w;
      i := i + 1;
    }
  }

  /** Panel_move, Panel_resize and Panel_setDrawRightSeparator on one panel. */
  method Place(p: Panel, x: int, w: int, h: int, separator: bool)
    requires p.Valid()
    modifies p
    ensures Arranged(p, x, w, h, separator, old(p.hasFocus), old(p.Content()))
  {
    p.Move(x, Y1);
    p.Resize(w, h);
    p.SetDrawRightSeparator(separator);
  }

  /** Panel `p` is valid, placed, marked for redraw, and keeps its focus
      and everything it held (`c0`). */
  ghost predicate Arranged(p: Panel, x: int, w: int, h: int, separator: bool, focus0: bool, c0: PanelContent)
    reads p
  {
    p.Valid() && Placed(p, x, w, h, separator) && p.needsRedraw && p.hasFocus == focus0 && p.Content() == c0
  }

  /** Panel `p` is valid and has not been placed yet. */
  ghost predicate Untouched(p: Panel, focus0: bool, c0: PanelContent)
    reads p
  {
    p.Valid() && p.hasFocus == focus0 && p.Content() == c0
  }

  /** Panel `p` sits at column `x`, row Y1, with the given size and
      separator flag. */
  ghost predicate Placed(p: Panel, x: int, w: int, h: int, separator: bool)
    reads p
  {
    p.x == x && p.y == Y1 && p.w == w && p.h == h && p.drawRightSeparator == separator
  }
}
