/** TUI: the dashboard's entry point. It picks the header text from the
    records read at start, builds the screen (function bar and the three
    panels), and on every refresh reloads the run directory and decides
    which parts of the screen to update and whether to keep refreshing. */
module Tui {
  import opened Wrappers
  import opened Constants
  import opened Text
  import opened Json
  import opened Storage
  import opened Panels
  import opened Metrics
  import opened Screens
  import opened DataLoader
  import RunPanel
  import SystemPanel
  import FunctionBar

  /** The size of runTUI's header_text buffer. */
  const HEADER_TEXT_SIZE: nat := 256
  const SNAPSHOT_TITLE := "Experiment Snapshot"
  const RUNNING_TITLE := "Running Experiment"
  /** The run name the function bar shows when there is no metadata. */
  const UNKNOWN_RUN := "Unknown"
  /** runTUI asks the screen manager for a refresh every second. */
  const REFRESH_INTERVAL: real := 1.0

  // --- Header text ---

  /**
   * The header runTUI passes to ScreenManager_new: the run name when
   * metadata was read, else "Experiment Snapshot" for a finished run and
   * "Running Experiment" for anything else, including a missing summary.
   */
  function HeaderText(meta: Option<RunMetadata>, summary: Option<RunSummary>): (r: string)
    ensures meta.Some? ==> r == Cap(meta.value.runName, HEADER_TEXT_SIZE)
    ensures meta.None? ==> (r == SNAPSHOT_TITLE <==> summary.Some? && summary.value.status == "FINISHED")
    ensures meta.None? ==> (r == RUNNING_TITLE <==> !(summary.Some? && summary.value.status == "FINISHED"))
  {
    if meta.Some? then Cap(meta.value.runName, HEADER_TEXT_SIZE)
    else if summary.Some? && summary.value.status == "FINISHED" then SNAPSHOT_TITLE
    else RUNNING_TITLE
  }

  /** With metadata on disk the header comes from its "name" field
      ("unknown" when that is missing) and the summary plays no part. */
  lemma HeaderFromMetadata(metaDoc: Json, s1: Option<RunSummary>, s2: Option<RunSummary>)
    ensures HeaderText(ReadMetadata(Some(metaDoc)), s1) == HeaderText(ReadMetadata(Some(metaDoc)), s2)
    ensures HeaderText(ReadMetadata(Some(metaDoc)), s1)
            == Cap(GetJsonString(metaDoc, "name", Some("unknown")).value, HEADER_TEXT_SIZE)
    ensures GetObjectItem(metaDoc, "name").None? ==> HeaderText(ReadMetadata(Some(metaDoc)), s1) == "unknown"
  {
  }

  // --- Refresh decisions ---

  /** The statuses after which on_refresh removes the refresh callback. */
  predicate IsTerminal(status: string) {
    status == "FINISHED" || status == "FAILED" || status == "CRASHED" || status == "STOPPED"
  }

  /** A refresh that read `summary` stops the timer. */
  predicate Stops(summary: Option<RunSummary>) {
    summary.Some? && IsTerminal(summary.value.status)
  }

  /** The run name on the function bar. */
  function RunName(meta: Option<RunMetadata>): string {
    if meta.Some? then meta.value.runName else UNKNOWN_RUN
  }

  /** The function bar context " Run: %s | State: %s | Runtime: %.0fs | Step: %d". */
  function ContextText(meta: Option<RunMetadata>, s: RunSummary, fmt: Fixed): (r: string)
    ensures StartsWith(r, " Run: " + RunName(meta) + " | State: " + s.status + " | Runtime: ")
  {
    var head := " Run: " + RunName(meta) + " | State: " + s.status + " | Runtime: ";
    var tail := fmt(s.runtime, 0) + "s | Step: " + IntToString(s.step);
    assert (head + tail)[..|head|] == head;
    head + tail
  }

  /** What one on_refresh call changes besides the metric panels: whether
      the run panel is rebuilt, the header status and runtime and the
      function bar context (when a summary was read), and whether the
      refresh callback is removed. */
  datatype Refresh = Refresh(setRunPanel: bool, status: Option<string>, runtime: Option<real>,
                             context: Option<string>, stop: bool)

  /**
   * The decisions of on_refresh for the records it read: the run panel only
   * when at least one record exists; the header and function bar only from a
   * summary; and a terminal status ends refreshing.
   */
  function Plan(config: Option<RunConfig>, meta: Option<RunMetadata>, summary: Option<RunSummary>, fmt: Fixed): (r: Refresh)
    ensures r.setRunPanel <==> config.Some? || meta.Some? || summary.Some?
    ensures summary.None? ==> r.status.None? && r.runtime.None? && r.context.None? && !r.stop
    ensures summary.Some? ==>
              && r.status == Some(summary.value.status)
              && r.runtime == Some(summary.value.runtime)
              && r.context == Some(ContextText(meta, summary.value, fmt))
    ensures r.stop <==> Stops(summary)
  {
    var any := config.Some? || meta.Some? || summary.Some?;
    if summary.None? then Refresh(any, None, None, None, false)
    else
      var s := summary.value;
      Refresh(any, Some(s.status), Some(s.runtime), Some(ContextText(meta, s, fmt)), IsTerminal(s.status))
  }

  /** A summary that still reports a running experiment keeps the timer,
      and so does a refresh that found no summary at all. */
  lemma KeepsRefreshing(config: Option<RunConfig>, meta: Option<RunMetadata>, summary: Option<RunSummary>, fmt: Fixed)
    requires summary.None? || summary.value.status == "RUNNING" || summary.value.status == "UNKNOWN"
    ensures !Plan(config, meta, summary, fmt).stop
  {
  }

  /**
   * How many on_refresh calls run when successive calls read `seen`: the
   * first one always runs (runTUI calls it directly), and each later one
   * runs only while no earlier call saw a terminal status.
   */
  function Performed(seen: seq<Option<RunSummary>>): (n: nat)
    ensures n <= |seen|
    ensures |seen| > 0 ==> n >= 1
    ensures forall i :: 0 <= i < n - 1 ==> !Stops(seen[i])
    ensures n < |seen| ==> Stops(seen[n - 1])
  {
    if |seen| == 0 then 0
    else if Stops(seen[0]) then 1
    else
      var n := Performed(seen[1..]);
      assert forall i :: 1 <= i < n ==> seen[1..][i - 1] == seen[i];
      1 + n
  }

  /** The last refresh that runs is the first one that saw a terminal
      status, if any did. */
  lemma {:induction false} StopsAtFirstTerminal(seen: seq<Option<RunSummary>>, k: nat)
    requires k < |seen| && Stops(seen[k])
    requires forall i :: 0 <= i < k ==> !Stops(seen[i])
    ensures Performed(seen) == k + 1
  {
    if k > 0 {
      assert forall i :: 0 <= i < k - 1 ==> seen[1..][i] == seen[i + 1];
      StopsAtFirstTerminal(seen[1..], k - 1);
    }
  }

  /** A run that never reaches a terminal status is refreshed forever. */
  lemma {:induction false} NeverStops(seen: seq<Option<RunSummary>>)
    requires forall i :: 0 <= i < |seen| ==> !Stops(seen[i])
    ensures Performed(seen) == |seen|
  {
    if |seen| > 0 {
      assert forall i :: 0 <= i < |seen| - 1 ==> seen[1..][i] == seen[i + 1];
      NeverStops(seen[1..]);
    }
  }

  // --- Selection across a reload ---

  /**
   * The metric panel selection after on_refresh: the index saved before the
   * reload (-1 for an empty panel) re-applied with Panel_setSelected, so it
   * is clamped into the reloaded rows, or 0 when there are none.
   */
  function Restored(saved: int, count: nat): (r: int)
    ensures count == 0 ==> r == 0
    ensures count > 0 ==> 0 <= r < count
    ensures 0 <= saved < count ==> r == saved
    ensures saved >= count > 0 ==> r == count - 1
    ensures saved < 0 ==> r == 0
  {
    if count == 0 then 0 else Clamp(saved, 0, count - 1)
  }

  /** Metrics only accumulate between refreshes: if the grid did not lose
      rows, the selected row stays the same one, and a panel that was empty
      starts at its first row. */
  lemma SelectionSurvivesGrowth(oldCount: nat, selected: int, newCount: nat)
    requires oldCount <= newCount
    requires oldCount > 0 ==> 0 <= selected < oldCount
    ensures oldCount > 0 ==> Restored(selected, newCount) == selected
    ensures oldCount == 0 ==> Restored(-1, newCount) == 0
  {
  }

  // --- The refresh callback ---

  /**
   * on_refresh for the records it read (the metrics file's lines, and the
   * summary, config and metadata documents already passed through the
   * Storage readers): reload the metric panels keeping the selection, then
   * apply Plan to the run panel, the header, the function bar and the
   * refresh callback.
   */
  method OnRefresh(sm: ScreenManager, bar: FunctionBar.FunctionBar, run: Panel, metrics: MetricsPanel, system: Panel,
                   file: Option<seq<Option<Json>>>,
                   summary: Option<RunSummary>, config: Option<RunConfig>, meta: Option<RunMetadata>, fmt: Fixed)
    requires run.Valid() && metrics.Valid() && system.Valid() && bar.Valid()
    requires run != metrics.panel && run != system && system != metrics.panel
    requires file.Some? ==> forall d :: d in ReadLines(file.value) ==> KeyedChildren(d)
    requires config.Some? ==> RunPanel.ConfigReadable(config.value.json)
    requires summary.Some? ==> KeyedChildren(summary.value.json)
    modifies metrics, metrics.panel, system
    modifies run`items, run`capacity, run`needsRedraw, run`selected, run`scrollV, run`scrollH, run`cleanupLog
    modifies sm`headerStatus, sm`headerRuntime, sm`hasRefreshCallback, bar`context
    ensures metrics.Valid()
    ensures metrics.panel.selected == Restored(old(metrics.panel.SelectedIndex()), |metrics.panel.items|)
    ensures file.None? ==> system.items == old(system.items) && metrics.allMetrics == old(metrics.allMetrics)
                           && metrics.panel.items == old(metrics.panel.items)
    ensures file.Some? ==>
              && system.Valid()
              && system.items == SystemItems(Accumulate(Samples(ReadLines(file.value))), fmt)
              && system.selected == 0 && system.scrollV == 0 && system.scrollH == 0
    ensures file.Some? && Training(Accumulate(Samples(ReadLines(file.value)))) != [] ==>
              metrics.allMetrics == Training(Accumulate(Samples(ReadLines(file.value))))
              && metrics.panel.items == RowItems(metrics.allMetrics, metrics.columns)
    ensures file.Some? && Training(Accumulate(Samples(ReadLines(file.value)))) == [] ==>
              metrics.panel.items == [] && metrics.allMetrics == old(metrics.allMetrics)
    ensures var plan := Plan(config, meta, summary, fmt);
            && (plan.setRunPanel ==> run.Valid() && run.items == RunPanel.AsItems(RunPanel.Rows(config, meta, summary, fmt)))
            && (!plan.setRunPanel ==> run.items == old(run.items))
            && sm.headerStatus == plan.status.GetOr(old(sm.headerStatus))
            && sm.headerRuntime == plan.runtime.GetOr(old(sm.headerRuntime))
            && bar.context == (if plan.context.Some? then Cap(plan.context.value, FunctionBar.MAX_CONTEXT_LEN) else old(bar.context))
            && sm.hasRefreshCallback == (old(sm.hasRefreshCallback) && !plan.stop)
  {
    ReloadMetrics(metrics, system, file, fmt);
    ApplyRecords(sm, bar, run, summary, config, meta, fmt);
  }

  /** The part of on_refresh after the metric reload: Plan, carried out. */
  method ApplyRecords(sm: ScreenManager, bar: FunctionBar.FunctionBar, run: Panel,
                      summary: Option<RunSummary>, config: Option<RunConfig>, meta: Option<RunMetadata>, fmt: Fixed)
    requires run.Valid() && bar.Valid()
    requires config.Some? ==> RunPanel.ConfigReadable(config.value.json)
    requires summary.Some? ==> KeyedChildren(summary.value.json)
    modifies run`items, run`capacity, run`needsRedraw, run`selected, run`scrollV, run`scrollH, run`cleanupLog
    modifies sm`headerStatus, sm`headerRuntime, sm`hasRefreshCallback, bar`context
    ensures var plan := Plan(config, meta, summary, fmt);
            && (plan.setRunPanel ==> run.Valid() && run.items == RunPanel.AsItems(RunPanel.Rows(config, meta, summary, fmt)))
            && (!plan.setRunPanel ==> run.items == old(run.items))
            && sm.headerStatus == plan.status.GetOr(old(sm.headerStatus))
            && sm.headerRuntime == plan.runtime.GetOr(old(sm.headerRuntime))
            && bar.context == (if plan.context.Some? then Cap(plan.context.value, FunctionBar.MAX_CONTEXT_LEN) else old(bar.context))
            && sm.hasRefreshCallback == (old(sm.hasRefreshCallback) && !plan.stop)
  {
    var plan := Plan(config, meta, summary, fmt);
    if plan.setRunPanel {
      RunPanel.SetData(run, config, meta, summary, fmt);
    }
    ApplyHeader(sm, bar, plan);
  }

  /** DataLoader_loadMetrics between Panel_getSelectedIndex and
      Panel_setSelected on the metrics panel. */
  method ReloadMetrics(metrics: MetricsPanel, system: Panel, file: Option<seq<Option<Json>>>, fmt: Fixed)
    requires metrics.Valid() && system.Valid() && system != metrics.panel
    requires file.Some? ==> forall d :: d in ReadLines(file.value) ==> KeyedChildren(d)
    modifies metrics, metrics.panel, system
    ensures metrics.Valid()
    ensures metrics.panel.selected == Restored(old(metrics.panel.SelectedIndex()), |metrics.panel.items|)
    ensures file.None? ==> unchanged(system) && metrics.allMetrics == old(metrics.allMetrics)
                           && metrics.panel.items == old(metrics.panel.items)
    ensures file.Some? ==>
              && system.Valid()
              && system.items == SystemItems(Accumulate(Samples(ReadLines(file.value))), fmt)
              && system.selected == 0 && system.scrollV == 0 && system.scrollH == 0
    ensures file.Some? && Training(Accumulate(Samples(ReadLines(file.value)))) != [] ==>
              metrics.allMetrics == Training(Accumulate(Samples(ReadLines(file.value))))
              && metrics.panel.items == RowItems(metrics.allMetrics, metrics.columns)
    ensures file.Some? && Training(Accumulate(Samples(ReadLines(file.value)))) == [] ==>
              metrics.panel.items == [] && metrics.allMetrics == old(metrics.allMetrics)
  {
    var saved := metrics.panel.SelectedIndex();
    LoadMetrics(file, metrics, system, fmt);
    metrics.panel.SetSelected(saved);
  }

  /** The header, function bar and timer part of a plan. */
  method ApplyHeader(sm: ScreenManager, bar: FunctionBar.FunctionBar, plan: Refresh)
    requires bar.Valid()
    requires plan.context.Some? <==> plan.status.Some?
    requires plan.status.Some? <==> plan.runtime.Some?
    requires plan.stop ==> plan.status.Some?
    modifies sm`headerStatus, sm`headerRuntime, sm`hasRefreshCallback, bar`context
    ensures bar.Valid()
    ensures sm.headerStatus == plan.status.GetOr(old(sm.headerStatus))
    ensures sm.headerRuntime == plan.runtime.GetOr(old(sm.headerRuntime))
    ensures bar.context == if plan.context.Some? then Cap(plan.context.value, FunctionBar.MAX_CONTEXT_LEN) else old(bar.context)
    ensures sm.hasRefreshCallback == (old(sm.hasRefreshCallback) && !plan.stop)
  {
    if plan.status.Some? {
      sm.SetHeaderStatus(plan.status.value);
      sm.SetHeaderRuntime(plan.runtime.value);
      bar.SetContext(plan.context.value);
      if plan.stop {
        sm.SetRefreshCallback(false);
      }
    }
  }

  // --- Building the screen ---

  /**
   * The screen runTUI builds: a screen manager titled with the header text
   * and refreshing every second, the "h"/"q" function bar, and the three
   * panels; then the refresh callback is installed.
   */
  method Build(header: string, now: real, cols: int, lines: int)
    returns (sm: ScreenManager, bar: FunctionBar.FunctionBar, run: Panel, metrics: MetricsPanel, system: Panel)
    ensures fresh(sm) && fresh(bar) && fresh(run) && fresh(metrics) && fresh(metrics.panel) && fresh(system)
    ensures sm.Valid() && sm.LaidOut(cols, lines)
    ensures sm.headerTitle == header && sm.refreshInterval == REFRESH_INTERVAL
    ensures sm.layouts == [PanelLayout(run, SIDEBAR_DEFAULT_WIDTH), PanelLayout(metrics.panel, 0),
                           PanelLayout(system, SIDEBAR_DEFAULT_WIDTH)]
    ensures sm.focused == 0 && run.hasFocus && !metrics.panel.hasFocus && !system.hasFocus
    ensures sm.hasFunctionBar && sm.hasRefreshCallback && !sm.quit && !sm.showHelp
    ensures bar.Valid() && bar.keys == ["h", "q"] && bar.labels == ["Help", "Quit"] && bar.context == ""
  {
    sm := new ScreenManager(header, REFRESH_INTERVAL, now);
    bar := new FunctionBar.FunctionBar([Some("h"), Some("q"), None], [Some("Help"), Some("Quit"), None]);
    sm.SetFunctionBar(true);
    run, metrics, system := AddPanels(sm, cols, lines);
    sm.SetRefreshCallback(true);
  }

  /** The run, metrics and system panels, added with widths 35, 0 and 35:
      the run panel, added first, is the focused one. */
  method AddPanels(sm: ScreenManager, cols: int, lines: int) returns (run: Panel, metrics: MetricsPanel, system: Panel)
    requires sm.Valid() && sm.layouts == []
    modifies sm
    ensures fresh(run) && fresh(metrics) && fresh(metrics.panel) && fresh(system)
    ensures sm.Valid() && sm.LaidOut(cols, lines)
    ensures sm.layouts == [PanelLayout(run, SIDEBAR_DEFAULT_WIDTH), PanelLayout(metrics.panel, 0),
                           PanelLayout(system, SIDEBAR_DEFAULT_WIDTH)]
    ensures sm.focused == 0 && run.hasFocus && !metrics.panel.hasFocus && !system.hasFocus
    ensures sm.headerTitle == old(sm.headerTitle) && sm.refreshInterval == old(sm.refreshInterval)
    ensures sm.hasFunctionBar == old(sm.hasFunctionBar) && sm.hasRefreshCallback == old(sm.hasRefreshCallback)
    ensures sm.quit == old(sm.quit) && sm.showHelp == old(sm.showHelp)
  {
    run := RunPanel.New(0, 0, 0, 0);
    sm.AddPanel(run, SIDEBAR_DEFAULT_WIDTH, cols, lines);
    metrics, system := AddSidePanels(sm, run, cols, lines);
    assert sm.layouts[0].panel == run && sm.layouts[1].panel == metrics.panel && sm.layouts[2].panel == system;
  }

  /** The metrics and system panels, added after the run panel. */
  method AddSidePanels(sm: ScreenManager, run: Panel, cols: int, lines: int) returns (metrics: MetricsPanel, system: Panel)
    requires sm.Valid() && sm.layouts == [PanelLayout(run, SIDEBAR_DEFAULT_WIDTH)] && sm.focused == 0
    modifies sm, sm.Panels()
    ensures fresh(metrics) && fresh(metrics.panel) && fresh(system)
    ensures sm.Valid() && sm.LaidOut(cols, lines)
    ensures sm.layouts == [PanelLayout(run, SIDEBAR_DEFAULT_WIDTH), PanelLayout(metrics.panel, 0),
                           PanelLayout(system, SIDEBAR_DEFAULT_WIDTH)]
    ensures sm.focused == 0
    ensures sm.headerTitle == old(sm.headerTitle) && sm.refreshInterval == old(sm.refreshInterval)
    ensures sm.hasFunctionBar == old(sm.hasFunctionBar) && sm.hasRefreshCallback == old(sm.hasRefreshCallback)
    ensures sm.quit == old(sm.quit) && sm.showHelp == old(sm.showHelp)
  {
    metrics := new MetricsPanel(0, 0, 0, 0);
    sm.AddPanel(metrics.panel, 0, cols, lines);
    system := SystemPanel.New(0, 0, 0, 0);
    sm.AddPanel(system, SIDEBAR_DEFAULT_WIDTH, cols, lines);
  }
}
