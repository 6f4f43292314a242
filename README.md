# expml dashboard and run recorder, modelled in Dafny

expml records machine-learning experiments and shows them in a terminal
dashboard. A training script calls the Python recorder's `init`, `log` and
`finish`. These write a run directory under `expml_runs`: `config.json`,
`metadata.json`, one JSON line per `log` in `metrics.jsonl`, and a
`summary.json` that is rewritten after every update. They also point the
`latest-run` link at the newest run. The C dashboard (`expml run`) opens
that run and drives a panel-based view of it:

- a run panel with the state, environment, configuration and summary;
- a grid of metric cards with Braille sparklines;
- a system panel of resource readings;
- a function bar and a header, refreshed once per second. The refresh in
  src/TUI.c stops when the run reaches a terminal status; the copy in
  src/CommandLine.c, which `expml run` reaches, never stops.

This project models the widget and layout engine of the dashboard and the
deterministic logic around it. The model follows the code:

- the panel list widget;
- the screen manager's width solver and its key and refresh state machine;
- the metrics grid, its navigation and axis geometry;
- Bresenham rasterisation and the Braille collapse with its UTF-8 encoding;
- series loading and routing, the log viewer's filter and tail buffer;
- the function bar's placement, the side panels' truncation rules and the
  run panel's row order;
- the storage readers' defaults, command-line dispatch and the refresh
  decisions;
- the recorder's step counter and its merged summary.

The terminal is an abstract sink. A drawing operation returns the list of
writes or drawer calls it makes instead of printing. Files are given as
their parsed contents, and the clock is a parameter.

One module per source file:

| module | models |
|---|---|
| `Panels` (panel.dfy) | src/Panel.c, fields of src/Panel.h |
| `Screens` (screen_manager.dfy) | src/ScreenManager.c |
| `Metrics` (metrics_panel.dfy) | src/MetricsPanel.c |
| `Sparkline` (sparkline.dfy) | src/SparkLine.c |
| `DataLoader` (data_loader.dfy) | src/DataLoader.c |
| `LogViewer` (log_viewer.dfy) | src/LogViewer.c |
| `FunctionBar` (function_bar.dfy) | src/FunctionBar.c |
| `SystemPanel` (system_panel.dfy) | src/SystemPanel.c |
| `RunPanel` (run_panel.dfy) | src/RunPanel.c |
| `Storage` (storage.dfy) | src/Storage.c |
| `CommandLine` (command_line.dfy) | src/CommandLine.c |
| `Tui` (tui.dfy) | src/TUI.c |
| `Api` (api.dfy) | python/expml/api.py |
| `Writer` (writer.dfy) | expml/writer.py |
| `Dicts` (dicts.dfy) | Python dictionaries as the recorder uses them |
| `Constants`, `Text`, `Json`, `Items`, `Series`, `Screen`, `Wrappers` | shared constants, C string helpers, parsed cJSON values, item payloads, the write list |

## Model

| member | source | states |
|---|---|---|
| `Panels.CapacityDoubles` | src/Panel.c:142-151 | a capacity the growth policy can reach (16 doubled k times) doubles to another reachable, strictly larger one |
| `Panels.DataOf` | src/Panel.c:221-225 | the data the cleanup hook receives: no more entries than items, none when no item carries data |
| `Panels.DataOfAppend` | src/Panel.c:221-225 | the cleanup calls for two item lists run back to back are those for their concatenation |
| `Panels.InsertAt` | src/Panel.c:185-191 | the memmove-and-store of insertItem: one longer, the new item at the index, earlier items kept, later ones shifted right by one |
| `Panels.RemoveAt` | src/Panel.c:203-205 | the memmove of removeItem: one shorter, earlier items kept, later ones shifted left by one |
| `Panels.RemoveInsert` | src/Panel.c:163-216 | removing the item just inserted at an index restores the list |
| `Panels.ScrollToSelection` | src/Panel.c:337-343 | the scroll afterwards is in [0, max(0, count-visible)] and the selection lies in [scroll, scroll+visible); a scroll that already shows the selection and is in range stays |
| `Panels.ScrollHAfter` | src/Panel.c:447-460 | left/'h' lowers the horizontal scroll by 5, floored at 0; right/'l' raises it by 5; other keys leave it; it never becomes negative |
| `Panels.BoundContent` | src/Panel.c:405-477 | a bound key changes only the selection and the two scrolls; on a non-empty panel the selection ends inside the items, and both scrolls end non-negative |
| `Panels.KeyContent` | src/Panel.c:393-478 | a key Panel_onKey does not consume changes nothing, nor does a HANDLED answer of the handler; the items, the header and the handler are never changed |
| `Panels.Panel.SelectedIndex` | src/Panel.c:255-260 | -1 exactly on an empty panel, otherwise an index into the items |
| `Panels.Panel.GetItem` | src/Panel.c:241-246 | the item at the index when it is in range, nothing otherwise |
| `Panels.Panel.VisibleItems` | src/Panel.c:334-335 | max(1, available_height / item_height) is at least 1 |
| `Panels.Panel.constructor` | src/Panel.c:14-54 | the geometry and header given; no items, capacity 16; selection and scrolls 0; item height 1; dirty, unfocused; no hooks installed |
| `Panels.Panel.SetEventHandler` | src/Panel.c:73-77 | installs or removes the event handler |
| `Panels.Panel.SetDrawItem` | src/Panel.c:79-83 | installs the item drawer |
| `Panels.Panel.SetCleanupCallback` | src/Panel.c:132-134 | installs or removes the cleanup hook |
| `Panels.Panel.SetResizeCallback` | src/MetricsPanel.c:348 | records that a resize hook was installed and nothing else; the function has no body in src/Panel.c, and Panel_resize never calls a hook |
| `Panels.Panel.SetDrawRightSeparator` | src/Panel.h:60 | a plain setter of the right-separator flag, which has no body in src/Panel.c |
| `Panels.Panel.SetHeader` | src/Panel.c:95-103 | the header is replaced (or removed) and the panel is dirty |
| `Panels.Panel.Move` | src/Panel.c:105-113 | the position is set and the panel is dirty |
| `Panels.Panel.Resize` | src/Panel.c:115-123 | the size is set and the panel is dirty, nothing else changes; no hook is called |
| `Panels.Panel.SetItemHeight` | src/Panel.c:125-130 | a positive height is set and makes the panel dirty; a non-positive one changes nothing |
| `Panels.Panel.SetNeedsRedraw` | src/Panel.c:480-484 | the panel is dirty |
| `Panels.Panel.SetFocus` | src/Panel.c:486-491 | the focus flag is set and the panel is dirty |
| `Panels.Panel.AddItem` | src/Panel.c:136-161 | a NULL text returns -1 and changes nothing; otherwise it returns the old count, appends the item, leaves earlier items and the selection alone, and doubles the capacity exactly when the array was full |
| `Panels.Panel.InsertItem` | src/Panel.c:163-194 | a NULL text or a negative index changes nothing; an index at or past the end appends; otherwise the item lands at the index and later items shift right; the capacity doubles exactly when full |
| `Panels.Panel.RemoveItem` | src/Panel.c:196-216 | true exactly for an index in range; then exactly that item is removed, the rest keep their order, and a selection that fell off the end moves to count-1 when items remain; false changes nothing; the cleanup hook is never called |
| `Panels.Panel.Clear` | src/Panel.c:218-235 | the cleanup hook, when installed, is called once per item with data, in item order; then no items, selection and both scrolls 0, dirty |
| `Panels.Panel.SetSelected` | src/Panel.c:262-276 | 0 on an empty panel; otherwise the index clamped into [0, count-1], and the panel is dirty; an index in range is taken as is |
| `Panels.Panel.Draw` | src/Panel.c:305-392 | a clean, unforced panel is left alone and nothing is drawn; otherwise the scroll follows the selection (ScrollToSelection) and each item of the window is handed to the drawer, top to bottom, one item height apart, with only the selected one highlighted; the panel is clean afterwards, and its items, selection, horizontal scroll and hooks are unchanged |
| `Panels.Panel.OnKey` | src/Panel.c:394-478 | the key is consumed exactly as Consumes says, and what the panel holds afterwards is KeyContent of what it held: a HANDLED result from the handler, an empty panel or an unbound key change nothing; a bound key acts as BoundContent; the panel is dirty iff it was or the selection or the vertical scroll moved; left/right are consumed even after an IGNORED handler result |
| `Panels.Panel.ApplyBinding` | src/Panel.c:412-477 | what the panel holds afterwards is BoundContent of what it held, and it is dirty iff it was or the selection or the vertical scroll moved |
| `Screens.FixedSum` | src/ScreenManager.c:176-182 | the sum of the positive requests is non-negative |
| `Screens.DynamicCount` | src/ScreenManager.c:176-182 | the number of stretching panels is at most the number of panels |
| `Screens.FixedWidth` | src/ScreenManager.c:209-222 | a fixed panel's width is the whole width or lies in [20, total]; without compression it is min(total, max(20, req)); with compression the request is first scaled by (total-30)/fixedSum and truncated |
| `Screens.FirstPass` | src/ScreenManager.c:204-226 | stretching panels get 0 in the first pass and each fixed panel gets FixedWidth under the compression decision of lines 186-202 |
| `Screens.Widths` | src/ScreenManager.c:228-249 | one width per panel, following the second-pass rule (SecondPassPlan) |
| `Screens.SecondPassWidth` | src/ScreenManager.c:238-255 | panel i's width obeys the second-pass rule with its start column x1 plus the widths before it: fixed panels keep the first-pass width, a single stretching last panel takes what is left, other stretching panels get max(1, remaining)/dynamicCount |
| `Screens.StartColumns` | src/ScreenManager.c:237-255 | panels are placed contiguously: the first at x1, each next one right after the previous one's width |
| `Screens.SecondPassPlan` | src/ScreenManager.c:238-255 | every panel's width follows the second-pass rule |
| `Screens.SingleStretchFillsWidth` | src/ScreenManager.c:243-245 | with exactly one stretching panel, placed last, the widths sum to the available width exactly |
| `Screens.CompressionNeverWidens` | src/ScreenManager.c:189-216 | when compressing, a fixed panel is no wider than max(req, 20) |
| `Screens.TwoStretchingPanelsLeaveAGap` | src/ScreenManager.c:229-249 | with two stretching panels on 101 columns each gets 50 and one column stays empty: the remainder is dropped |
| `Screens.DashboardLayoutWide` | src/ScreenManager.c:165-256 | requests {35, 0, 35} give widths 35, 48, 35 at COLS=120 |
| `Screens.DashboardLayoutNarrow` | src/ScreenManager.c:165-256 | requests {35, 0, 35} give widths 20, 28, 20 at COLS=70, the sidebars compressed |
| `Screens.SolveWidths` | src/ScreenManager.c:172-234 | the loops of steps 1-3 compute FirstPass, FlexibleWidth and DynamicCount |
| `Screens.CountRequests` | src/ScreenManager.c:173-182 | the first loop yields FixedSum and DynamicCount |
| `Screens.ScaleFixed` | src/ScreenManager.c:206-226 | the first-pass loop yields FirstPass and the sum of its widths |
| `Screens.PanelWidth` | src/ScreenManager.c:210-224 | one round gives the width the first pass assigns that panel |
| `Screens.RemovedLayouts` | src/ScreenManager.c:141-148 | removing one layout keeps the panels distinct and adds no panel |
| `Screens.DispatchSpec` | src/ScreenManager.c:370-442 | no key changes nothing; quit is set exactly by 'q' outside help; the focus stays in range; only a non-global key outside help, with panels present, reaches the focused panel; the layout is recomputed exactly on KEY_RESIZE (in or out of help) or Ctrl+L outside help |
| `Screens.HelpKeyOnlyCloses` | src/ScreenManager.c:370-378 | in help mode a key other than KEY_RESIZE only closes help and forces a redraw |
| `Screens.TabCycles` | src/ScreenManager.c:408-412 | Tab moves the focus to (focused+1) mod count |
| `Screens.ArrowsDoNotWrap` | src/ScreenManager.c:428-441 | an unconsumed right arrow moves the focus to min(focused+1, count-1), a left arrow to max(focused-1, 0) |
| `Screens.ArrowsMoveFocusOnlyFromEmptyPanels` | src/ScreenManager.c:418-441 | since Panel_onKey consumes the arrows of any panel with items, an arrow changes the focus only when the focused panel is empty |
| `Screens.ScreenManager.Layout` | src/ScreenManager.c:165-256 | one width per panel, from the requests and COLS-2 |
| `Screens.ScreenManager.constructor` | src/ScreenManager.c:76-97 | no panels, focus 0, neither quitting nor in help, no callback or function bar, the title given; an interval of 0 or less becomes 1.0 |
| `Screens.ScreenManager.PanelCount` | src/ScreenManager.c:486-489 | the number of panels |
| `Screens.ScreenManager.GetPanel` | src/ScreenManager.c:474-477 | the panel at an index in range, nothing otherwise |
| `Screens.ScreenManager.GetFocused` | src/ScreenManager.c:480-483 | nothing without panels; otherwise the focused panel, which has focus |
| `Screens.ScreenManager.SetRefreshCallback` | src/ScreenManager.c:277-282 | installs or removes the refresh callback |
| `Screens.ScreenManager.SetFunctionBar` | src/ScreenManager.c:272-274 | installs or removes the function bar |
| `Screens.ScreenManager.SetHeaderText` | src/ScreenManager.c:492-494 | the header title is set |
| `Screens.ScreenManager.SetHeaderStatus` | src/ScreenManager.c:497-499 | the header status is set |
| `Screens.ScreenManager.SetHeaderRuntime` | src/ScreenManager.c:502-504 | the header runtime is set |
| `Screens.ScreenManager.Resize` | src/ScreenManager.c:165-259 | with no panels nothing changes; otherwise every panel is moved to its start column and row 8, resized to its solver width and LINES-9 rows, given a right separator unless it is last, marked dirty, its focus kept, and its items, selection, scrolls and hooks unchanged |
| `Screens.ScreenManager.AddPanel` | src/ScreenManager.c:115-133 | a NULL panel changes nothing; otherwise the panel is appended with its request, the focused index is kept, the new panel has focus exactly when it is the only one, the old panels keep their focus, every panel is laid out again (as in Resize) keeping what it holds, and nothing else changes |
| `Screens.ScreenManager.Append` | src/ScreenManager.c:118-131 | the panel goes at the end with its request, focused exactly when it is the only one, and keeps what it holds and where it sits |
| `Screens.ScreenManager.SetFocus` | src/ScreenManager.c:262-269 | true exactly for an index in range; then the focus moves there and only that panel has focus; otherwise the focus is kept; no panel changes what it holds or where it sits |
| `Screens.ScreenManager.RemovePanel` | src/ScreenManager.c:136-162 | nothing for a bad index, with nothing changed; otherwise the removed panel is returned, the others keep their order, a focused index past the end moves to count-1, exactly the focused panel has focus, and every remaining panel is laid out again (as in Resize) keeping its items, selection, scrolls and hooks |
| `Screens.ScreenManager.Refocus` | src/ScreenManager.c:155-158 | afterwards exactly the focused panel has focus, every panel is dirty and valid, and keeps what it holds and where it sits |
| `Screens.ScreenManager.DispatchKey` | src/ScreenManager.c:370-442 | the new focus, quit and help flags and the forced redraw are those of DispatchSpec for the focused panel's answer; when DispatchSpec relays out, every panel is laid out again as in Resize, keeping what it holds; otherwise no panel moves, the focused panel holds KeyContent of what it held when the key was offered to it, and every other panel holds what it held |
| `Screens.ScreenManager.HelpModeKey` | src/ScreenManager.c:370-378 | in help mode, as DispatchSpec: KEY_RESIZE lays the panels out again as in Resize and keeps help; any other key closes help and leaves every panel as it was |
| `Screens.ScreenManager.PanelKey` | src/ScreenManager.c:415-442 | a non-global key goes to the focused panel, which then holds KeyContent of what it held; if it refuses an arrow the focus moves without wrapping, as DispatchSpec says; no panel moves and no other panel changes what it holds |
| `Screens.ScreenManager.MainKey` | src/ScreenManager.c:380-442 | outside help, as DispatchSpec: no key changes nothing, resize and Ctrl+L lay the panels out again as in Resize, every other key acts as OtherKey says |
| `Screens.ScreenManager.OtherKey` | src/ScreenManager.c:401-442 | quit, help and Tab change only the flags and the focus, as DispatchSpec says, leaving every panel's content and place; any other key is handled as PanelKey says |
| `Screens.ScreenManager.OfferKey` | src/ScreenManager.c:418-423 | Panel_onKey on the focused panel: the answer is what FocusedConsumes predicts, the focused panel holds KeyContent of what it held, and no other panel changes what it holds; no panel moves |
| `Screens.ScreenManager.MoveFocus` | src/ScreenManager.c:428-441 | a refused right arrow moves the focus one to the right unless on the last panel, a refused left arrow one to the left unless on the first, as DispatchSpec says; no panel changes what it holds or where it sits |
| `Screens.ScreenManager.CheckRefresh` | src/ScreenManager.c:446-455 | the refresh happens exactly when the interval has elapsed; it then records the time, counts one call of the callback if one is installed, and marks every panel dirty; the callback is a call count with no effect on the panels (see "Left out"), so each panel keeps its focus, what it holds and where it sits; otherwise no panel changes |
| `Screens.ScreenManager.Render` | src/ScreenManager.c:461-463 | Panel_draw on every panel, left to right, with the forced flag, as Panel.Draw states; every panel keeps its focus and where it sits |
| `Screens.ScreenManager.ForceRedraw` | src/ScreenManager.c:285-301 | every panel is drawn in full as Panel.Draw states, and keeps its focus and where it sits |
| `Screens.ScreenManager.Tick` | src/ScreenManager.c:366-468 | one loop iteration: the state after the key is DispatchSpec's, the refresh timer is as in CheckRefresh (the callback counted, not run), every panel is drawn and clean afterwards, and in full when this is the first iteration, the key forced it, or a refresh happened; each panel holds KeyContent of what it held if the key was offered to it and what it held otherwise, up to the vertical scroll drawing brings to the selection; panels move only when the key relays out |
| `Screens.ScreenManager.KeyStage` | src/ScreenManager.c:370-443 | the key step of the loop as DispatchKey states it, with each panel's outcome gathered per panel: valid, unmoved unless laid out again, holding what the key left in it; a resize key, or Ctrl+L outside help, leaves the panels laid out as Resize does |
| `Screens.ScreenManager.RefreshAndRender` | src/ScreenManager.c:446-463 | the timer as in CheckRefresh, with the callback counted but not run, then every panel is drawn, ends clean, keeps where it sits and what it holds up to the vertical scroll, and is drawn in full when forced or refreshed |
| `Screens.MarkAll` | src/ScreenManager.c:451-453 | every panel is marked dirty and keeps its focus, what it holds and where it sits |
| `Screens.DrawPanels` | src/ScreenManager.c:461-463 | each panel is drawn as Panel.Draw states (its items, selection, horizontal scroll and hooks unchanged) and keeps its focus and where it sits |
| `Screens.LayOut` | src/ScreenManager.c:168-256 | the width solver and placement for a non-empty panel list, as in Resize, each panel keeping its focus and what it holds |
| `Screens.PlacePanels` | src/ScreenManager.c:236-256 | the second-pass loop places every panel at its start column with its final width, each keeping its focus and what it holds |
| `Screens.Place` | src/ScreenManager.c:252-254 | Panel_move, Panel_resize and Panel_setDrawRightSeparator on one panel, which keeps its focus and what it holds |
| `Metrics.ColumnsFor` | src/MetricsPanel.c:69-71 | the grid has at least one column and `w / METRIC_MIN_WIDTH` columns once the panel is one card wide |
| `Metrics.RowItems` | src/MetricsPanel.c:76-88 | reflow adds exactly one Panel item per grid row |
| `Metrics.RowCounts` | src/MetricsPanel.c:76-88 | one card count per grid row |
| `Metrics.RowsFlatten` | src/MetricsPanel.c:76-88 | reading the rows in order gives back the metric list unchanged: no metric is lost, duplicated or moved |
| `Metrics.RowsShape` | src/MetricsPanel.c:76-88 | there are ceil(n / columns) rows, none for no metrics; each row but the last is full and every row holds 1 to `columns` cards |
| `Metrics.RowItemsAreRows` | src/MetricsPanel.c:80-87 | Panel item r is grid row r |
| `Metrics.RowItemsCarryRows` | src/MetricsPanel.c:80-87 | item r carries the cards of row r, and its card count is the row count navigation uses |
| `Metrics.Decade` | src/MetricsPanel.c:100 | the decade k of n satisfies 10^k <= n < 10^(k+1) |
| `Metrics.MagnitudeBounds` | src/MetricsPanel.c:99-100 | the magnitude times the target lies within a factor of ten below the range |
| `Metrics.NiceStep` | src/MetricsPanel.c:94-112 | the step between axis labels is at least 1 |
| `Metrics.NiceStepUnfold` | src/MetricsPanel.c:99-111 | the step is the residual test applied to the power-of-ten magnitude of range / target |
| `Metrics.NiceStepSmallRange` | src/MetricsPanel.c:95-98 | fewer ticks than wanted labels give step 1 |
| `Metrics.NiceStepIsNice` | src/MetricsPanel.c:94-112 | the step is 1, 2 or 5 times a power of ten, or the next power of ten, and `target` steps cover the range |
| `Metrics.NiceStepIsLeast` | src/MetricsPanel.c:94-112 | no smaller nice number covers the range with `target` steps |
| `Metrics.NiceStepMonotone` | src/MetricsPanel.c:94-112 | a longer history never gets a smaller step |
| `Metrics.Navigate` | src/MetricsPanel.c:273-330 | an ignored key leaves the cursor where it was; a handled key keeps the row inside the grid |
| `Metrics.RightIsNextCard` | src/MetricsPanel.c:308-327 | KEY_RIGHT moves to the next card in reading order, across row ends, and is refused exactly on the last card |
| `Metrics.LeftIsPreviousCard` | src/MetricsPanel.c:284-305 | KEY_LEFT moves to the previous card, across row starts, and is refused exactly on the first card |
| `Metrics.RowsCount` | src/MetricsPanel.c:76-88 | row r starts at metric r * columns and the last row ends at the last metric |
| `Metrics.NavigationUndo` | src/MetricsPanel.c:284-327 | a handled right followed by left, or left followed by right, returns to the same card |
| `Metrics.ExactlyOneFocusedCard` | src/MetricsPanel.c:262-267 | a selected row of a focused panel highlights exactly one card, the selected column or the last card; otherwise none |
| `Metrics.FullRowTiles` | src/MetricsPanel.c:249-259 | the cards of a full row abut with one-column gaps and the last ends at the right edge of the panel |
| `Metrics.RowCards` | src/MetricsPanel.c:249-270 | one card per metric of the row, left to right, at its column, width and highlight |
| `Metrics.Chart` | src/MetricsPanel.c:170-175 | the chart is drawn exactly when taller than 1 and wider than 4, inset 6 columns and 3 rows |
| `Metrics.TargetLabels` | src/MetricsPanel.c:198-199 | at least two labels are aimed for |
| `Metrics.Candidates` | src/MetricsPanel.c:207-222 | one candidate label per tick value |
| `Metrics.TickValuesAreMultiples` | src/MetricsPanel.c:204 | the ticks are 0, step, 2 step, ... up to the history length, and no multiple within it is missed |
| `Metrics.LabelsApart` | src/MetricsPanel.c:224-228 | printed labels never touch: each starts at least two columns after the previous one ends |
| `Metrics.FitKeepsCandidates` | src/MetricsPanel.c:224-228 | the collision check only drops labels |
| `Metrics.FirstLabelPrinted` | src/MetricsPanel.c:202-227 | the first label is printed unless it starts in column 0 |
| `Metrics.TickAndLabel` | src/MetricsPanel.c:207-222 | one pass of the axis loop computes the tick column and the bounded, centred label |
| `Metrics.Collide` | src/MetricsPanel.c:225-228 | a label that clears the last end is printed and moves the end past it; any other is skipped and nothing changes |
| `Metrics.AxisLabels` | src/MetricsPanel.c:193-229 | no history draws nothing; otherwise one tick per multiple of the nice step and exactly the labels the collision check keeps |
| `Metrics.AxisTicks` | src/MetricsPanel.c:204-229 | the loop draws one tick per tick value and keeps the labels the collision check keeps |
| `Metrics.AxisRound` | src/MetricsPanel.c:204-228 | one round adds the tick for the value and keeps its label exactly when the collision check does |
| `Metrics.AxisDone` | src/MetricsPanel.c:204 | past the history count every tick is drawn and the kept labels are those of the whole axis |
| `Metrics.ChartRange` | src/MetricsPanel.c:377-387 | the range runs from the series minimum to its maximum, nudged up for a flat series |
| `Metrics.ChartRangeNonEmpty` | src/MetricsPanel.c:377-387 | the range is never empty and holds every value |
| `Metrics.Extremes` | src/MetricsPanel.c:377-382 | the loop finds the series minimum and maximum |
| `Metrics.BuildMetric` | src/MetricsPanel.c:370-397 | the new record holds the series, its chart range and the palette slot of its position |
| `Metrics.AddRows` | src/MetricsPanel.c:76-88 | the Panel gains exactly the grid rows, in order |
| `Metrics.AddRow` | src/MetricsPanel.c:76-88 | one round adds the item for the next row and leaves the rows after it still to add |
| `Metrics.Regrid` | src/MetricsPanel.c:73-88 | the Panel is cleared (each old row freed through the cleanup hook) and then holds exactly the grid rows |
| `Metrics.NewGridPanel` | src/MetricsPanel.c:332-351 | a fresh empty Panel titled "Metrics" with the grid hooks |
| `Metrics.MetricsPanel.constructor` | src/MetricsPanel.c:332-351 | an empty grid of one column with capacity 16 in a fresh Panel |
| `Metrics.MetricsPanel.Reflow` | src/MetricsPanel.c:65-89 | the column count follows the Panel width, the old rows are freed, the Panel shows the grid of the metrics, and the selection returns to the top |
| `Metrics.MetricsPanel.HandleResize` | src/MetricsPanel.c:50-63 | reflows exactly when the column count changes or there are metrics, and otherwise changes nothing |
| `Metrics.MetricsPanel.UpdateSize` | src/MetricsPanel.c:408-415 | the Panel takes the new size and the grid is rebuilt for the new width, with the selection back at the top |
| `Metrics.MetricsPanel.AddMetric` | src/MetricsPanel.c:353-406 | the metric is appended (to a fresh list when the Panel was cleared) with its range and palette slot, capacity doubles when full, and the grid is rebuilt |
| `Metrics.MetricsPanel.HandleKey` | src/MetricsPanel.c:273-330 | the cursor moves as Navigate says and the answer is HANDLED exactly when it moved; an empty grid ignores every key |
| `Metrics.MetricsPanel.MoveLeft` | src/MetricsPanel.c:284-305 | the KEY_LEFT case of Navigate on the grid's row counts |
| `Metrics.MetricsPanel.MoveRight` | src/MetricsPanel.c:308-327 | the KEY_RIGHT case of Navigate on the grid's row counts |
| `Metrics.MetricsPanel.OnKey` | src/Panel.c:394-478 | a key is consumed exactly when the grid moved or a Panel binding handles it; left and right are always consumed on a non-empty grid; when the grid moves, the cursor is where Navigate puts it and the Panel changes only its selected row; otherwise the card column stays and the Panel holds KeyContent of what it held for an IGNORED answer |
| `Metrics.MetricsPanel.DrawItem` | src/MetricsPanel.c:240-271 | a grid row draws its cards as RowCards says; any other index draws nothing |
| `Sparkline.Step` | src/SparkLine.c:20-21 | the step direction is +1 exactly when the start lies before the end |
| `Sparkline.Next` | src/SparkLine.c:29-31 | a Bresenham step never moves past the end point on either axis |
| `Sparkline.Walk` | src/SparkLine.c:24-32 | the walk starts at the current dot |
| `Sparkline.Line` | src/SparkLine.c:17-33 | the line starts at (x0, y0) |
| `Sparkline.StepSafe` | src/SparkLine.c:29-31 | from a consistent state, each error test fires only with distance left on its axis, at least one fires, and the error term stays consistent |
| `Sparkline.StepConsistent` | src/SparkLine.c:30-31 | the error updates track the remaining distances |
| `Sparkline.WalkEnds` | src/SparkLine.c:24-32 | the loop terminates, its last dot being the end point |
| `Sparkline.WalkConnected` | src/SparkLine.c:24-32 | every step moves to one of the eight neighbouring dots |
| `Sparkline.WalkBounded` | src/SparkLine.c:24-32 | the walk stays between its start and end on both axes |
| `Sparkline.LineShape` | src/SparkLine.c:17-33 | the line starts and ends at its end points, is 8-connected and stays in their bounding box |
| `Sparkline.CellsHas` | src/SparkLine.c:25-27 | a dot of the line inside the grid is plotted at offset y * w + x |
| `Sparkline.CellInGrid` | src/SparkLine.c:25-26 | the bounds test keeps every write inside the grid's storage |
| `Sparkline.CellsInGrid` | src/SparkLine.c:25-26 | every plotted offset lies inside the grid |
| `Sparkline.CellsAppend` | src/SparkLine.c:25-27 | one more dot adds its own offset, when inside the grid |
| `Sparkline.DrawVirtualLine` | src/SparkLine.c:17-33 | exactly the cells of the line's dots inside the grid are raised; every other cell keeps its value |
| `Sparkline.WalkSuffix` | src/SparkLine.c:24-32 | the loop's current dot is the walk's, the loop stops exactly at the end point, and otherwise the rest is the walk from the next dot |
| `Sparkline.Advance` | src/SparkLine.c:29-31 | one loop step is the model step and keeps the loop state consistent |
| `Sparkline.Plot` | src/SparkLine.c:25-27 | the dot's cell is raised when inside the grid, and nothing else changes |
| `Sparkline.Fence` | src/SparkLine.c:72-76 | the clamps put every coordinate inside the grid and leave one already inside alone |
| `Sparkline.ColumnAsWritten` | src/SparkLine.c:65 | with two or more samples every column lies inside the grid |
| `Sparkline.SingleSampleColumnUndefined` | src/SparkLine.c:65 | one sample reaches the 0.0 / 0.0 conversion |
| `Sparkline.ColumnSpread` | src/SparkLine.c:65 | columns lie inside the grid, run from column 0 to the last column and never go left |
| `Sparkline.ColumnAgrees` | src/SparkLine.c:65 | with two or more samples the corrected column is the source's column |
| `Sparkline.Span` | src/SparkLine.c:45-46 | the scaling range is positive, so the projection never divides by zero |
| `Sparkline.RowBounds` | src/SparkLine.c:69-70 | a value in range lies on a grid row, the minimum on the bottom row and the top of the range on the top row |
| `Sparkline.RowMono` | src/SparkLine.c:69-70 | a greater value is never drawn lower |
| `Sparkline.RowSpread` | src/SparkLine.c:38-76 | over a series, every row is in the grid, the minimum on the bottom row, the maximum of a non-flat series on top, a flat series on the bottom, and order is kept |
| `Sparkline.Dots` | src/SparkLine.c:63-76 | one dot per sample, in order |
| `Sparkline.PaintedHasDots` | src/SparkLine.c:79-88 | every sample's dot is raised: skipping unmoved points drops none |
| `Sparkline.PaintedHasDot` | src/SparkLine.c:79-88 | the same for a named dot |
| `Sparkline.PaintedInGrid` | src/SparkLine.c:79-88 | every raised cell lies inside the grid |
| `Sparkline.Bounds` | src/SparkLine.c:39-44 | the loop finds the series minimum and maximum |
| `Sparkline.Rasterize` | src/SparkLine.c:38-92 | a fresh zeroed grid of 2 width x 4 height dots holds exactly the cells the plotted samples raise |
| `Sparkline.Scale` | src/SparkLine.c:38-46 | the scale is the series minimum and its span, a zero span read as 1 |
| `Sparkline.PlotAll` | src/SparkLine.c:60-92 | on a blank grid the projection loop raises exactly the cells the plotted dots name |
| `Sparkline.PlotNext` | src/SparkLine.c:63-91 | one round lands on sample i's dot and raises what plotting it adds: the first dot alone, or the line from a different predecessor |
| `Sparkline.Project` | src/SparkLine.c:64-76 | sample i lands on its model column and row, both inside the grid |
| `Sparkline.ClampInto` | src/SparkLine.c:73-76 | a coordinate is fenced into 0 .. n-1 |
| `Sparkline.PlotSample` | src/SparkLine.c:79-91 | the first sample raises its dot, a later one that moved joins its predecessor by a line |
| `Sparkline.PaintedStep` | src/SparkLine.c:79-88 | how the raised cells grow by one sample |
| `Sparkline.BrailleMapBits` | src/SparkLine.c:9-14 | the eight dot bits are distinct single bits that together fill the low byte |
| `Sparkline.SubCells` | src/SparkLine.c:101-111 | the eight sub-cells in the loop's order |
| `Sparkline.MapBitsDistinct` | src/SparkLine.c:9-14 | two sub-cells share a bit only when they are the same one |
| `Sparkline.GlyphBits` | src/SparkLine.c:98-119 | partway through the loops the glyph is in the braille block and has exactly the bits of the raised sub-cells examined so far |
| `Sparkline.GlyphBlank` | src/SparkLine.c:98-121 | the glyph is still blank exactly when no examined sub-cell is raised |
| `Sparkline.GlyphShowsDots` | src/SparkLine.c:98-121 | a glyph's bit is set exactly when its sub-cell is raised, and it is blank exactly when none is |
| `Sparkline.GlyphShowsBit` | src/SparkLine.c:98-119 | a glyph's bit is set exactly when its sub-cell is raised |
| `Sparkline.DotInGlyph` | src/SparkLine.c:103-111 | every dot of the grid is one sub-cell of one glyph of the chart |
| `Sparkline.Utf8` | src/SparkLine.c:126-128 | a glyph is written as three bytes |
| `Sparkline.Utf8RoundTrip` | src/SparkLine.c:126-128 | the three bytes are well-formed UTF-8 (section 3 of RFC 3629) and decode to the same code point |
| `Sparkline.RowPuts` | src/SparkLine.c:97-132 | one write per cell of the row |
| `Sparkline.RowPutsAt` | src/SparkLine.c:97-132 | write col of a row is the glyph in column col |
| `Sparkline.GridPutsLength` | src/SparkLine.c:96-133 | one write per terminal cell |
| `Sparkline.GridPutsAt` | src/SparkLine.c:96-133 | glyph (row, col) is write row * width + col |
| `Sparkline.Collapse` | src/SparkLine.c:94-133 | the loops write every glyph of the chart, row by row |
| `Sparkline.CollapseRow` | src/SparkLine.c:97-132 | the inner loop writes the glyphs of one chart row |
| `Sparkline.LitAt` | src/SparkLine.c:103-117 | the loop's bounds test reads the grid only inside it and agrees with the sub-cell model |
| `Sparkline.BrailleChar` | src/SparkLine.c:98-119 | the two sub-cell loops build the glyph of the block |
| `Sparkline.SubCellBit` | src/SparkLine.c:113-117 | a sub-cell contributes its map bit exactly when raised |
| `Sparkline.OrSubCell` | src/SparkLine.c:102-118 | one inner round ors in the next sub-cell's bit, so the glyph so far covers one more sub-cell |
| `Sparkline.GlyphBytes` | src/SparkLine.c:121-131 | an empty block writes a space, any other the three UTF-8 bytes of its code point |
| `Sparkline.Canvas` | src/SparkLine.c:53-92 | a dot is raised exactly when plotting raises it |
| `Sparkline.Draw` | src/SparkLine.c:35-137 | an empty series writes nothing; otherwise grid plotting and collapsing give the chart's writes |
| `Sparkline.ChartCells` | src/SparkLine.c:96-133 | the chart writes each cell once, row by row, a space for a blank block and the UTF-8 glyph otherwise |
| `Sparkline.ChartShowsDots` | src/SparkLine.c:63-133 | every dot is shown by its bit in the glyph above it exactly when plotting raised it |
| `Sparkline.CanvasAt` | src/SparkLine.c:53-92 | cell k of the grid is raised exactly when plotting raises it |
| `Sparkline.GridShowsDots` | src/SparkLine.c:101-117 | in any grid, the glyph over a dot has its bit set exactly when the dot is raised |
| `Sparkline.SubCellShowsDot` | src/SparkLine.c:101-117 | a sub-cell's bit shows the grid dot under it |
| `Sparkline.ChartShowsSamples` | src/SparkLine.c:63-133 | every sample is visible: its dot is inside the grid and its bit is set in the glyph over it |
| `DataLoader.ReadLines` | src/DataLoader.c:69-85 | the documents read are those of the lines before the first unparsable one, in order |
| `DataLoader.KeptOf` | src/DataLoader.c:73-82 | the member loop yields at most one sample per member |
| `DataLoader.FirstSeen` | src/DataLoader.c:23-44 | the distinct keys of the samples, each once |
| `DataLoader.ValuesOf` | src/DataLoader.c:78-81 | a key has values exactly when some sample carries it |
| `DataLoader.Keys` | src/DataLoader.c:14-19 | the series keys, in list order |
| `DataLoader.Find` | src/DataLoader.c:24-28 | the strcmp scan finds the first series with the key, or none exactly when the key is absent |
| `DataLoader.Slot` | src/DataLoader.c:23-44 | a known key keeps the list as it is; an unknown key appends a new empty series with a 1024-value buffer |
| `DataLoader.GetSeries` | src/DataLoader.c:23-44 | the loop returns the list and index Slot names |
| `DataLoader.AppendValue` | src/DataLoader.c:46-56 | the value goes after the others, and a full buffer doubles |
| `DataLoader.AccumulateSnoc` | src/DataLoader.c:70-85 | reading one more sample is one more Add |
| `DataLoader.AddEffect` | src/DataLoader.c:78-81 | a sample joins the series of its key or starts a new one at the end; every other series is untouched |
| `DataLoader.KeysOfAdd` | src/DataLoader.c:78-81 | a sample leaves the keys as they were or adds its own at the end |
| `DataLoader.AccumulateKeys` | src/DataLoader.c:70-85 | the series keys are the samples' keys, distinct and in first-seen order |
| `DataLoader.AccumulateSeries` | src/DataLoader.c:70-85 | every series holds exactly the values of its key, in log order, in a buffer large enough for them |
| `DataLoader.ReadSeries` | src/DataLoader.c:69-86 | the read loop builds the series of the kept samples of the parsed documents |
| `DataLoader.SamplesStep` | src/DataLoader.c:70-85 | one more document adds its kept members |
| `DataLoader.ReadEntry` | src/DataLoader.c:73-82 | the member loop adds the document's kept samples |
| `DataLoader.KeptStart` | src/DataLoader.c:73 | before the member loop nothing is added |
| `DataLoader.KeptStep` | src/DataLoader.c:75-81 | a kept member adds its sample; a key starting with '_' or a non-number adds nothing |
| `DataLoader.AddSample` | src/DataLoader.c:78-81 | getSeries then appendValue adds the sample |
| `DataLoader.ValueText` | src/DataLoader.c:108-119 | the formatted value fits in the 32-character buffer |
| `DataLoader.SystemLine` | src/DataLoader.c:107-122 | the line fits in the 128-character buffer and, when nothing is cut, is the name without "system/", a tab and the value |
| `DataLoader.SystemItems` | src/DataLoader.c:104-124 | at most one line per series, none carrying data |
| `DataLoader.Training` | src/DataLoader.c:125-129 | at most one chart per series |
| `DataLoader.RoutedOnce` | src/DataLoader.c:93-135 | every non-empty series goes to exactly one of the two panels |
| `DataLoader.TrainingCharts` | src/DataLoader.c:125-129 | a training series is charted under its key, with its latest value as current and its whole history |
| `DataLoader.LogCharted` | src/DataLoader.c:60-139 | every kept key outside "system/" is charted with all its values in log order |
| `DataLoader.ClearGrid` | src/DataLoader.c:90 | clearing the grid's Panel keeps the grid consistent |
| `DataLoader.LoadMetrics` | src/DataLoader.c:60-139 | an unopenable log changes nothing; otherwise the system panel holds exactly the system lines and the grid exactly the training charts, or is empty when there are none |
| `DataLoader.Populate` | src/DataLoader.c:93-135 | over cleared panels, the system panel ends with exactly the system lines and the grid with exactly the training charts; with no training chart the grid stays empty |
| `DataLoader.PopulateOne` | src/DataLoader.c:94-134 | one series of the populate loop extends the panel that receives it and leaves the other as it was |
| `LogViewer.LevelValue` | src/LogViewer.c:38-48 | a known level name maps to its severity 1 to 8 and back; every other string maps to -1 |
| `LogViewer.LevelColor` | src/LogViewer.c:25-35 | the colour is chosen by the level's severity: bold red for the three most severe, then red, yellow, magenta, green, blue, and reset for an unknown level |
| `LogViewer.LevelNamesRoundTrip` | src/LogViewer.c:38-48 | each level name reads back as its own severity |
| `LogViewer.Brackets` | src/LogViewer.c:55-59 | a line has a level exactly when its first ']' follows its first '[', and the pair found are those first occurrences |
| `LogViewer.ShouldShowNames` | src/LogViewer.c:87-104 | under a filter a bracketed line is shown exactly when its level is the name of a severity no greater than the filter |
| `LogViewer.ShouldShowMonotone` | src/LogViewer.c:99-103 | a less strict filter shows every line a stricter one shows |
| `LogViewer.PrintKeepsText` | src/LogViewer.c:51-84 | a line with a short level is printed as gray timestamp, coloured level and message, which together are the line |
| `LogViewer.PrintMalformed` | src/LogViewer.c:59-61 | a line without both brackets is printed unchanged |
| `LogViewer.Strip` | src/LogViewer.c:129 | the line is cut at its first newline |
| `LogViewer.Accepted` | src/LogViewer.c:127-137 | the filter only drops lines |
| `LogViewer.AcceptedUnfiltered` | src/LogViewer.c:88 | with no filter every stripped line is accepted, in order |
| `LogViewer.Tail` | src/LogViewer.c:119-150 | the tail holds n lines, or all of them when there are fewer |
| `LogViewer.TailSuffix` | src/LogViewer.c:119-150 | the tail is the suffix of that length: the newest lines |
| `LogViewer.TailSnoc` | src/LogViewer.c:132-135 | the window grows until full and then drops its oldest line |
| `LogViewer.ModRing` | src/LogViewer.c:134-145 | the slot arithmetic equals the source's modulo |
| `LogViewer.Push` | src/LogViewer.c:132-135 | an accepted line enters the circular buffer, overwriting the oldest when full |
| `LogViewer.ShowFiltered` | src/LogViewer.c:112-152 | an unopenable file prints the error to standard error; otherwise the last `tail_lines` accepted lines are printed oldest first, and nothing when `tail_lines` is at most 0 and no line is accepted |
| `LogViewer.ReadTail` | src/LogViewer.c:127-137 | the read loop leaves the buffer holding the newest accepted lines |
| `LogViewer.PrintWindow` | src/LogViewer.c:143-150 | the print loop prints the buffered lines from oldest to newest |
| `LogViewer.PrintSlot` | src/LogViewer.c:145-148 | slot (start + i) % n holds the i-th oldest buffered line, and that line is printed |
| `LogViewer.ReadOne` | src/LogViewer.c:127-137 | one more line of the file is read, and the buffer holds the newest accepted lines so far |
| `LogViewer.Offer` | src/LogViewer.c:129-136 | one line is buffered exactly when the filter accepts it |
| `LogViewer.AcceptedStep` | src/LogViewer.c:127-137 | one more line is accepted exactly when the filter shows it |
| `LogViewer.HoldsAt` | src/LogViewer.c:143-146 | slot (start + i) % n holds the i-th oldest buffered line |
| `LogViewer.RenderStep` | src/LogViewer.c:144-149 | each iteration prints one more line |
| `LogViewer.Show` | src/LogViewer.c:108-110 | the tail with no level filter, as ShowFiltered states it |
| `LogViewer.TailIsNewest` | src/LogViewer.c:119-150 | at most n lines are printed, and they are exactly the newest accepted ones, in file order |
| `FunctionBar.Placed` | src/FunctionBar.c:67-84 | the pairs are placed from the last towards the first, one per turn |
| `FunctionBar.PlacedShape` | src/FunctionBar.c:65-84 | start columns never pass the floor, the last pair ends at column width - 2, and three blank columns separate neighbouring pairs |
| `FunctionBar.PlacedStops` | src/FunctionBar.c:72-73 | when not every pair is drawn, the next one would start left of the floor |
| `FunctionBar.PlacedStep` | src/FunctionBar.c:68-83 | one loop turn: the pair is printed key first, then ':' and label, or the loop ends |
| `FunctionBar.FunctionBar.constructor` | src/FunctionBar.c:20-33 | the pairs before the first NULL key or label, at most 15, in order, and an empty context |
| `FunctionBar.FunctionBar.SetContext` | src/FunctionBar.c:44-50 | the context is the text cut to fit the 256-character buffer (bytes, on ASCII text), a short text whole |
| `FunctionBar.FunctionBar.Draw` | src/FunctionBar.c:52-88 | the bar row is blanked, the context printed at column 1, and exactly the placed pairs drawn |
| `FunctionBar.PlacePairs` | src/FunctionBar.c:65-84 | the loop draws exactly the pairs that fit, right to left, each ending where the previous began |
| `SystemPanel.ValueOffset` | src/SystemPanel.c:19-22 | the value column is 22 on a wide item, leaves 8 columns on a narrow one and is never closer than 2 to the left edge |
| `SystemPanel.Clip` | src/SystemPanel.c:38-61 | a text that fits is drawn whole; a longer one is cut to fill its room ending in "..", keeping a prefix |
| `SystemPanel.DrawItem` | src/SystemPanel.c:10-76 | a missing item draws nothing; otherwise the row is blanked first, and a text without a tab is drawn cut to the width |
| `SystemPanel.Split` | src/SystemPanel.c:14 | a text with a tab splits at its first tab into key and value |
| `SystemPanel.DrawKeyValue` | src/SystemPanel.c:30-65 | a key/value row draws the clipped key at the left edge and the clipped value at the value column |
| `SystemPanel.DrawItemInside` | src/SystemPanel.c:10-76 | on an item at least 4 wide every write stays inside, and the key ends before the value column |
| `SystemPanel.DrawItemWhole` | src/SystemPanel.c:38-61 | a key and a value with room are drawn whole |
| `SystemPanel.New` | src/SystemPanel.c:78-86 | a fresh panel titled "System Metrics" with this drawer, one line per item and no hooks |
| `RunPanel.EllipsisAsWritten` | src/RunPanel.c:42-46 | a value that fits is drawn whole; a longer one at the printf precision room - 3, which is no precision at all once negative |
| `RunPanel.Ellipsis` | src/RunPanel.c:28-46 | a cell never takes more than max(room, 3) columns, is whole when it fits, and otherwise a prefix followed by "..." |
| `RunPanel.EllipsisAgrees` | src/RunPanel.c:42-46 | with at least 3 columns of room the written cut and the corrected one agree |
| `RunPanel.NarrowValueOverflows` | src/RunPanel.c:37-43 | on an 18-column item "RUNNING" is drawn as "RUNNING...", 7 columns past the right edge |
| `RunPanel.TitleCutAsWritten` | src/RunPanel.c:53-57 | for w <= 0 the unsigned comparison lets the title through whole; otherwise it is cut like a value with w - 1 columns of room |
| `RunPanel.NarrowTitleOverflows` | src/RunPanel.c:53-57 | on a 3-column item "Environment" is printed as "Environment...", and at width 0 whole, where the corrected cut prints "..." |
| `RunPanel.TitleCutAgrees` | src/RunPanel.c:53-57 | from 4 columns on the written title cut equals the corrected one |
| `RunPanel.DrawItem` | src/RunPanel.c:12-65 | a missing item draws nothing; otherwise the row is blanked first, and an empty text draws nothing more |
| `RunPanel.DrawItemInside` | src/RunPanel.c:12-65 | on an item at least 18 wide every write stays inside it and a key ends before the value column |
| `RunPanel.Split` | src/RunPanel.c:16 | a text with a tab splits at its first tab |
| `RunPanel.DrawKeyValue` | src/RunPanel.c:22-47 | a key/value row draws the key cut to 14 columns and the value cut to its room at column 15 |
| `RunPanel.New` | src/RunPanel.c:67-72 | a fresh panel titled "Run Overview" with this drawer and no hooks |
| `RunPanel.KV` | src/RunPanel.c:74-78 | the row fits the 256-character buffer and, when not cut, is key, tab, value, with "N/A" for a NULL value |
| `RunPanel.KI` | src/RunPanel.c:80-84 | the row fits the 256-character buffer |
| `RunPanel.ConfigNumber` | src/RunPanel.c:137-143 | the configuration number fits the 64-character buffer |
| `RunPanel.ConfigRow` | src/RunPanel.c:132-147 | a configuration member has a row exactly when it is a string, number or boolean |
| `RunPanel.ExtraRow` | src/RunPanel.c:171-184 | a summary member gets a further row exactly when it is a number not among the five shown |
| `RunPanel.Runtime` | src/RunPanel.c:157-159 | the runtime text fits its 32-character buffer |
| `RunPanel.Timestamp` | src/RunPanel.c:161-163 | the timestamp text fits its 32-character buffer |
| `RunPanel.SplitKV` | src/RunPanel.c:74-78 | a row that fits reads back as the key and value it was built from |
| `RunPanel.NatToStringLength` | src/RunPanel.c:82 | a non-negative number below 10^d has at most d digits |
| `RunPanel.IntToStringShort` | src/RunPanel.c:82 | a C int is written with at most 11 characters |
| `RunPanel.ConfigNumberShown` | src/RunPanel.c:138-142 | "%d" is used exactly for integers in the int range and "%.4f" otherwise |
| `RunPanel.ExtraRowsFrom` | src/RunPanel.c:169-185 | the further summary rows are exactly those of the numeric members not shown already |
| `RunPanel.ConfigRowsFrom` | src/RunPanel.c:131-147 | the configuration rows are exactly those of the string, number and boolean members |
| `RunPanel.TitlesAppend` | src/RunPanel.c:88-187 | the headings of two row lists are those of each |
| `RunPanel.TitlesNone` | src/RunPanel.c:88-187 | rows without headings contribute none |
| `RunPanel.KeyValueRow` | src/RunPanel.c:74-78 | a key/value row with a short key keeps its tab and so is never a heading |
| `RunPanel.ConfigRowsUntitled` | src/RunPanel.c:131-147 | configuration rows are never headings |
| `RunPanel.ExtraRowsUntitled` | src/RunPanel.c:169-185 | further summary rows are never headings |
| `RunPanel.SectionTitles` | src/RunPanel.c:86-187 | the headings of the panel are exactly Environment, Configuration and Summary for the parts present, in that order |
| `RunPanel.TitlesOfFour` | src/RunPanel.c:88-187 | the headings of four parts in order |
| `RunPanel.ConfigTitled` | src/RunPanel.c:128-149 | the configuration section has the one heading "Configuration" |
| `RunPanel.TitleOne` | src/RunPanel.c:113 | a section title row is its own heading |
| `RunPanel.TopUntitled` | src/RunPanel.c:90-109 | the top rows have no heading |
| `RunPanel.EnvironmentTitled` | src/RunPanel.c:112-125 | the environment section has the one heading "Environment" |
| `RunPanel.TitlesSkip` | src/RunPanel.c:88-187 | a row that is not a heading adds none |
| `RunPanel.SummaryTitled` | src/RunPanel.c:152-186 | the summary section has the one heading "Summary" |
| `RunPanel.SummaryFieldsUntitled` | src/RunPanel.c:152-186 | none of the five fixed summary rows reads as a heading |
| `RunPanel.AddKV` | src/RunPanel.c:74-78 | one item with the key/value row is appended |
| `RunPanel.AddKI` | src/RunPanel.c:80-84 | one item with the key/number row is appended |
| `RunPanel.AddText` | src/RunPanel.c:109-113 | one item with the text is appended |
| `RunPanel.AsItemsShape` | src/RunPanel.c:77-83 | each row becomes one item with that text and no data |
| `RunPanel.AsItemsAppend` | src/RunPanel.c:88-187 | the items of two row lists are those of each |
| `RunPanel.AsItemsStep` | src/RunPanel.c:88-187 | one more row is one more item |
| `RunPanel.AddTop` | src/RunPanel.c:90-109 | the state, name, project and id rows and a blank row are appended |
| `RunPanel.AddEnvironment` | src/RunPanel.c:112-125 | the environment section is appended |
| `RunPanel.ConfigRowsStep` | src/RunPanel.c:132-147 | one more configuration member adds its row when listed |
| `RunPanel.ExtraRowsStep` | src/RunPanel.c:171-184 | one more summary member adds its row when it qualifies |
| `RunPanel.AddConfig` | src/RunPanel.c:128-149 | the configuration section is appended |
| `RunPanel.AddSummary` | src/RunPanel.c:152-186 | the summary section is appended |
| `RunPanel.AddExtras` | src/RunPanel.c:169-185 | the further summary rows are appended |
| `RunPanel.SetData` | src/RunPanel.c:86-187 | the panel is cleared, its old items handed to the cleanup hook, and refilled with exactly the rows of the sections present; selection and scrolling start over |
| `RunPanel.Fill` | src/RunPanel.c:90-186 | the rows of every section present are appended in order |
| `RunPanel.AddEnvironmentPart` | src/RunPanel.c:112-125 | the environment section is appended when there is metadata |
| `RunPanel.AddConfigPart` | src/RunPanel.c:128-149 | the configuration section is appended when there is a configuration |
| `RunPanel.AddSummaryPart` | src/RunPanel.c:152-186 | the summary section is appended when there is a summary |
| `Storage.BuildPath` | src/Storage.c:37-43 | the path is the directory, one '/', then the file name |
| `Storage.BuildPathInjective` | src/Storage.c:37-43 | two paths built under one directory are equal exactly when the file names are |
| `Storage.FindLatestRun` | src/Storage.c:63-81 | a run is found exactly when latest-run is a readable symbolic link; its target, cut to 1023 characters, is kept when absolute and placed under the directory otherwise |
| `Storage.LatestRunResolves` | src/Storage.c:73-80 | a short absolute target resolves to itself, a relative one to dir/target |
| `Storage.GetJsonString` | src/Storage.c:45-49 | a string member gives its text, anything else the default, a NULL default giving NULL |
| `Storage.GetJsonInt` | src/Storage.c:51-55 | a number member gives its `valueint`, anything else the default |
| `Storage.GetJsonDouble` | src/Storage.c:57-61 | a number member gives its value, anything else the default |
| `Storage.LookupsUseFirstMember` | src/Storage.c:45-60 | the first member whose name matches the key up to letter case decides every typed lookup |
| `Storage.ReadConfig` | src/Storage.c:83-96 | a configuration exactly when the file parses, holding the whole document |
| `Storage.ReadMetadata` | src/Storage.c:104-133 | metadata exactly when the file parses |
| `Storage.ReadSummary` | src/Storage.c:150-170 | a summary exactly when the file parses, keeping the whole document |
| `Storage.ReadNextMetric` | src/Storage.c:193-209 | an entry exactly when the line parses, keeping the document |
| `Storage.ReaderDefaults` | src/Storage.c:117-206 | a document without the keys gives every default: "unknown" id and name, NULL texts, zero counts, "UNKNOWN" status, zero numbers, and step -1 for a metric line |
| `Storage.SummaryFields` | src/Storage.c:162-165 | a summary starting with "status" and "_step" reads back the same status and step |
| `Json.GetObjectItem` | src/Storage.c:46 | a member is found exactly when the value is an object with a member whose name matches the key up to ASCII case |
| `Json.Lookup` | src/Storage.c:46 | a match is found exactly when some member's name matches the key up to case |
| `Json.LookupFirst` | src/Storage.c:46 | the first matching member is the one found |
| `Json.ValueInt` | src/Storage.c:53 | `valueint` is the value truncated toward zero, saturated at INT_MAX and INT_MIN |
| `Json.TruncInRange` | src/Storage.c:53 | a value strictly inside the int range truncates inside it |
| `Json.ValueIntExact` | src/RunPanel.c:138 | an integer inside the int range reads back unchanged through `valueint` |
| `Text.PrintfPrecision` | src/SystemPanel.c:69 | "%.*s" prints the whole string for a negative precision and at most p characters otherwise, always a prefix |
| `Text.Cap` | src/RunPanel.c:74-78 | snprintf keeps a prefix of at most size - 1 characters |
| `Text.IndexOf` | src/LogViewer.c:55-56 | strchr finds the first occurrence, or none exactly when the character is absent |
| `Text.NatToString` | src/RunPanel.c:82 | "%d" of a non-negative number is a non-empty string of digits |
| `Text.IntToString` | src/RunPanel.c:82 | "%d" is non-empty and starts with '-' exactly for a negative number |
| `Text.ToLower` | src/Storage.c:46 | tolower maps upper-case ASCII letters to lower case and leaves every other character alone |
| `Constants.Clamp` | src/Panel.c:12 | the clamp lies in [lo, hi] when that range is non-empty and leaves a value inside it alone |
| `Constants.CDiv` | src/MetricsPanel.c:69 | C division agrees with Euclidean division on non-negative operands and has the sign of the exact quotient |
| `Constants.Trunc` | src/SparkLine.c:65-70 | the cast truncates toward zero |
| `Series.SeqMin` | src/MetricsPanel.c:377-382 | the least value is a sample and no sample is smaller |
| `Series.SeqMax` | src/MetricsPanel.c:377-382 | the greatest value is a sample and no sample is greater |
| `CommandLine.ParseCommand` | src/CommandLine.c:145-192 | no argument shows help; --version and --help exit early, "run" and "list" succeed, a missing -p path or an unknown command is an error |
| `CommandLine.Run` | src/CommandLine.c:194-207 | the exit code is 1 exactly for an error and 0 otherwise |
| `CommandLine.ExitCodeCases` | src/CommandLine.c:145-207 | exit code 1 exactly for "run -p" without a path and for an unknown first argument |
| `CommandLine.LaunchesTui` | src/CommandLine.c:165-180 | the dashboard is launched exactly for "run", on the path after -p or on "expml_runs" |
| `CommandLine.FlagsOnlyFirst` | src/CommandLine.c:151-180 | flags count only as the first argument |
| `CommandLine.OnlyRunReadsFurther` | src/CommandLine.c:151-191 | only "run" reads past the first argument |
| `Tui.HeaderText` | src/TUI.c:101-108 | the header is the run name when there is metadata, else "Experiment Snapshot" exactly for a finished run and "Running Experiment" otherwise |
| `Tui.HeaderFromMetadata` | src/TUI.c:98-108 | with metadata on disk the header is its "name" field, or "unknown" when that is missing, whatever the summary says |
| `Tui.ContextText` | src/TUI.c:49-58 | the function bar context starts with the run name (or "Unknown") and the state |
| `Tui.Plan` | src/TUI.c:39-70 | the run panel is rebuilt exactly when some record was read; header and function bar change only from a summary; refreshing stops exactly on FINISHED, FAILED, CRASHED or STOPPED |
| `Tui.KeepsRefreshing` | src/TUI.c:62-69 | a running run, an unknown status or a missing summary keeps the timer |
| `Tui.Performed` | src/TUI.c:145-148 | the first refresh always runs and each later one only while no earlier one saw a terminal status |
| `Tui.StopsAtFirstTerminal` | src/TUI.c:62-69 | the last refresh that runs is the first that saw a terminal status |
| `Tui.NeverStops` | src/TUI.c:62-69 | a run that never reaches a terminal status keeps refreshing |
| `Tui.Restored` | src/TUI.c:35-37 | the saved selection is clamped into the reloaded rows, 0 when there are none or none was saved |
| `Tui.SelectionSurvivesGrowth` | src/TUI.c:35-37 | as long as the grid does not lose rows the selected row stays the same |
| `Tui.OnRefresh` | src/TUI.c:32-75 | the metric panels are reloaded as ReloadMetrics says (the system panel holds exactly the system lines, the grid the training charts, or is empty, and the selection is kept), then the run panel, header, function bar and timer change as Plan says |
| `Tui.ApplyRecords` | src/TUI.c:39-70 | the plan carried out on the run panel, header, function bar and timer |
| `Tui.ReloadMetrics` | src/TUI.c:35-37 | an unopenable log leaves both panels' contents as they were; otherwise the system panel holds exactly the system lines and the grid exactly the training charts, or is empty when there are none; the selection is restored as Restored says |
| `Tui.ApplyHeader` | src/TUI.c:45-70 | header status and runtime, function bar context and timer change exactly as the plan says |
| `Tui.Build` | src/TUI.c:114-145 | a screen titled with the header, refreshing every second, with the "h"/"q" bar, the run, metrics and system panels at widths 35, 0 and 35, the run panel focused and the refresh callback on |
| `Tui.AddPanels` | src/TUI.c:127-134 | the three panels are added in order and the run panel has the focus |
| `Tui.AddSidePanels` | src/TUI.c:130-134 | the metrics and system panels follow the run panel |
| `Api.RunId` | python/expml/api.py:13 | the id is the first 8 characters of the UUID text |
| `Api.RunName` | python/expml/api.py:14 | a given non-empty name is kept; otherwise the name is "run-" followed by the id; never empty |
| `Api.Stamp` | python/expml/api.py:50-53 | the three bookkeeping fields, in order, with the step, the time and the runtime |
| `Api.Entry` | python/expml/api.py:50-55 | a metrics line is a dictionary |
| `Api.EntryOrder` | python/expml/api.py:50-55 | a metrics line starts with "_step", "_timestamp" and "_runtime" |
| `Api.EntryFields` | python/expml/api.py:50-55 | a metrics line holds the caller's metrics, and the three fields wherever no metric of that name replaces them, and nothing else |
| `Api.StampKeys` | python/expml/api.py:50-53 | the bookkeeping keys are exactly those three |
| `Api.Progress` | python/expml/api.py:60-65 | the summary update is a dictionary |
| `Api.ProgressFields` | python/expml/api.py:60-65 | the summary update holds status "RUNNING", the step and the runtime, every other metric unchanged, after the metrics' own keys |
| `Api.RunningKeys` | python/expml/api.py:61-65 | the fields a log sets are exactly status, _step and _runtime |
| `Api.Running` | python/expml/api.py:61-65 | status "RUNNING", the step and the runtime, in that order |
| `Api.Finished` | python/expml/api.py:71-74 | status "FINISHED" and the final runtime, in that order |
| `Api.FinishedKeys` | python/expml/api.py:71-74 | the keys finish sets are exactly status and _runtime |
| `Api.Metadata` | python/expml/api.py:36-39 | metadata.json is a dictionary |
| `Api.MetadataFields` | python/expml/api.py:36-39 | metadata.json holds the run's id and name and otherwise the system information as reported |
| `Api.ConfigDocument` | python/expml/api.py:34 | config.json is the configuration, or an empty object without one |
| `Api.RunsRoot.constructor` | python/expml/api.py:24-27 | the runs directory with its current link |
| `Api.ActiveRun.constructor` | python/expml/api.py:12-44 | the id and name, step 0, the start time, the run directory under "expml_runs", latest-run pointing at the name, config.json and metadata.json written, the monitor on |
| `Api.ActiveRun.Log` | python/expml/api.py:46-66 | the step advances by one, one metrics line is appended, and the summary becomes the cache merged with the metrics and the running status |
| `Api.ActiveRun.Finish` | python/expml/api.py:68-75 | the monitor stops and the summary becomes the cache merged with status "FINISHED" and the final runtime |
| `Api.Recorder.constructor` | python/expml/api.py:9 | no run is active at import |
| `Api.Recorder.Init` | python/expml/api.py:79-84 | an active run is finished first, its summary getting status FINISHED; then a fresh run is current, with its id, name, step 0, start time, run directory, the link, the monitor on, an empty summary cache, and config.json and metadata.json written as the ActiveRun constructor says |
| `Api.Recorder.Log` | python/expml/api.py:86-88 | the current run logs as ActiveRun.Log says: one metrics line appended, the summary rewritten, config.json and metadata.json unchanged; without a run nothing changes |
| `Api.Recorder.Finish` | python/expml/api.py:90-94 | the current run finishes and is forgotten; without one nothing changes |
| `Api.FinishKeepsProgress` | python/expml/api.py:60-74 | after finish the summary still carries the last log's metrics and step; only status and runtime are new |
| `Api.ReadBack` | src/Storage.c:46 | the dashboard's case-blind lookup finds what the recorder stored when no other name differs only in case |
| `Api.UpdateCaseDistinct` | expml/writer.py:28 | a merge adds no case clash with the key when neither side has one |
| `Api.DashboardSeesFinish` | src/TUI.c:62-69 | the summary finish writes reads back with status "FINISHED", the status on which the refresh of src/TUI.c stops (the copy in src/CommandLine.c does not stop) |
| `Api.FinishedCaseDistinct` | python/expml/api.py:71-74 | finish's update has no case clash with "status" |
| `Api.DashboardSeesProgress` | src/Storage.c:162-165 | while a run goes on the dashboard reads status "RUNNING" and the logged step, and keeps refreshing |
| `Api.ReadsUpdated` | src/Storage.c:162-165 | the status and step a log sets read back from the merged summary |
| `Api.ProgressHas` | python/expml/api.py:61-65 | a log's update holds status and _step |
| `Api.ProgressCaseDistinct` | python/expml/api.py:60-65 | the update adds no case clash for status or _step |
| `Api.DashboardFindsRun` | python/expml/api.py:20-27 | the link a new run writes leads the dashboard, with its default runs directory, to that run's directory |
| `Writer.Join` | expml/writer.py:8-9 | an absolute name replaces the directory; otherwise the name follows the directory, after a '/' when one is needed |
| `Writer.JoinMatchesBuildPath` | expml/writer.py:8-9 | where the writer puts a file is where the dashboard's buildPath looks |
| `Writer.RunWriter.constructor` | expml/writer.py:6-10 | the two file paths under the run directory and an empty cache |
| `Writer.RunWriter.WriteConfig` | expml/writer.py:12-15 | config.json is replaced by the document, and nothing else changes |
| `Writer.RunWriter.WriteMetadata` | expml/writer.py:17-20 | metadata.json is replaced by the document, and nothing else changes |
| `Writer.RunWriter.LogMetrics` | expml/writer.py:22-25 | one line, the entry, is appended after the earlier lines |
| `Writer.RunWriter.UpdateSummary` | expml/writer.py:27-31 | the update is merged into the cache and summary.json becomes exactly the cache |
| `Dicts.Keys` | expml/writer.py:28 | the keys of a dictionary, in order |
| `Dicts.Get` | expml/writer.py:28 | a lookup succeeds exactly for a present key |
| `Dicts.GetAt` | expml/writer.py:28 | in a dictionary the value under a member's key is that member's value |
| `Dicts.Set` | python/expml/api.py:37-38 | assignment keeps a dictionary; a present key keeps its position, a new one goes at the end |
| `Dicts.SetGet` | python/expml/api.py:37-38 | after assignment the key holds the value and every other key what it held |
| `Dicts.Update` | expml/writer.py:28 | update keeps a dictionary and never loses a key |
| `Dicts.UpdateGet` | expml/writer.py:28 | after update a key of the update holds its new value and every other key its old one |
| `Dicts.GetSnoc` | expml/writer.py:28 | looking up with one more member at the end |
| `Dicts.Extensional` | expml/writer.py:28 | two dictionaries with the same keys in the same order and the same values are equal |
| `Dicts.UpdateIdempotent` | expml/writer.py:28 | updating twice with the same members changes nothing more |
| `Dicts.UpdatePresentKeys` | expml/writer.py:28 | an update whose keys are all present keeps the key order |

## Layout results that may surprise

The width solver and the constants give these results, which the model
follows:

- With the dashboard's requests {35, 0, 35} the middle panel does not get
  50 columns at a width of 120, nor 30 at a width of 70. The code lays out
  `COLS - 2` columns. That gives 48 at COLS=120. At COLS=70 each side
  panel is compressed to trunc(35 * 38 / 70) = 19, clamped to 20, which
  leaves 28 for the middle
  (`Screens.DashboardLayoutWide`, `Screens.DashboardLayoutNarrow`).
- The last dynamic panel does not always absorb the rounding remainder.
  The code gives that remainder away only when there is exactly one dynamic
  panel and it is the last panel. With two dynamic panels the remainder
  columns stay empty (`Screens.SingleStretchFillsWidth`,
  `Screens.TwoStretchingPanelsLeaveAGap`).
- The comment in src/Constants.h:9 says a metric card is at least 20
  columns wide. The constant is 40, and so is the model's.

## Left out

- Terminal output: ncurses calls, attributes and colours are not modelled.
  Every drawing operation returns the list of writes or drawer calls it
  makes. How a glyph looks and which colour pair is used are not part of
  the model.
- src/Terminal.c is not part of this model: terminal set-up and teardown,
  colour and RGB set-up, and the signal handlers are platform glue.
- src/Header.c is not part of this model: it only draws, and its `%.0f`
  formatting is floating point.
- src/Log.c is not part of this model. It is file I/O under a mutex. The
  `LOG_INFO` calls in runTUI are dropped with it.
- Floating point: sample values and runtimes are reals, not IEEE doubles.
  The `(float)` cast in src/DataLoader.c:80 and every rounding step are
  therefore absent. Formatting with `%.2f`/`%.4f` is the `Text.Fixed`
  parameter, and the 0.0001 epsilon of the value comparison is not
  reproduced.
- The compression ratio in the width solver is integer truncation of
  req * (total - 30) / fixedSum. The C double can differ by one at exact
  integer boundaries.
- The nice step's `pow`/`log10` are integer decades compared exactly.
- The clock is a parameter: `gettimeofday` in the refresh timer,
  `time.time()` in the recorder. So are the UUID of a new run and the key
  read from the terminal.
- Files are their parsed contents. cJSON parsing and iteration, `fopen`,
  `getline`, `readlink`, `lstat`, `access`, `os.makedirs` and the creation
  of the run directory are not modelled. A metrics file is a given sequence
  of already-parsed lines. An unparsable line is a `None` that ends the
  reading.
- Allocation failure: the NULL returns of `malloc`, `calloc`, `realloc` and
  `strdup`, and the early returns they guard, are not modelled.
- Freeing: `Panel_delete`, `ScreenManager_delete`, `FunctionBar_delete`,
  the `Storage_free*` functions and the other `free` calls have no
  counterpart. Memory is not modelled.
- NULL strings: a run's name, id and status, and the items' text, are
  always strings in the model. `Panels.Panel.AddItem` does model the
  null-text case, as an `Option`.
- `RunPanel.SetData` takes a panel that exists. Its NULL-panel guard is
  not modelled.
- `Screens.ScreenManager.Tick`: says only that panels stay in place when
  the key does not lay them out again. Where a resize key places them is
  stated one level down, by `Screens.ScreenManager.KeyStage` (LaidOut).
  `Screens.ScreenManager.RefreshAndRender` keeps every panel where it
  sits, so the two together give it, but Tick's contract does not repeat
  it.
- `allow_focus_change` is set to true at src/ScreenManager.c:87 and never
  changed, so the model leaves it out and always lets an arrow move the
  focus.
- `LogViewer_follow` is not modelled. It is an endless tail loop with
  `nanosleep` and truncation detection.
- `Sparkline_generate` is not modelled. It is a stub that only writes an
  empty string.
- The static `runTUI`/`on_refresh` in src/CommandLine.c:49-143 is not
  modelled. Its `parseCommand` calls it for "run" (src/CommandLine.c:178),
  so it is the dashboard `expml run` shows. The public `runTUI` of
  src/TUI.c, which `Tui` models, has no caller in these sources. The
  CommandLine copy differs from src/TUI.c in these ways:
  - it never removes the refresh callback, so it never stops refreshing;
  - it does not save and restore the metrics selection;
  - it does not set the header status or runtime;
  - its function-bar context is "State: %s | Runtime: %.0fs | Step: %d",
    without the run name;
  - its header starts as "Waiting for data...", its keys are F1/h/q/F10,
    and its panel widths are 45/0/35.

  So the stop at a terminal status proved by `Tui.StopsAtFirstTerminal`,
  `Tui.Plan` and `Api.DashboardSeesFinish` belongs to src/TUI.c's runTUI,
  which the command line in these sources does not call.
- runTUI as a whole is not modelled as a sequence of I/O. Its decisions
  are: the header text (`Tui.HeaderText`), the panel set-up (`Tui.Build`)
  and the refresh callback (`Tui.OnRefresh`). Its error path when the
  latest run cannot be found (`fprintf`, `access`) is not modelled.
- The help text written by parseCommand and the `print` calls in api.py
  are output, and are not modelled.
- expml/monitor.py is not part of this model: it is a background thread
  over psutil. The run's `monitoring` flag records only whether it was
  started and stopped.
- expml/metadata.py is not part of this model: its system queries are
  the `info` parameter of run creation.
- python/expml/cli.py is not part of this model: it is an `os.execv`
  wrapper.
- The `project` argument of `init` is not modelled. The recorder ignores
  it, and the run panel shows "N/A".
- The example scripts, setup.py and the two interactive C test programs
  are not modelled. They are numerics, a build script, and fixtures that
  assert nothing checkable.
- `Api.DashboardSeesFinish`, `Api.DashboardSeesProgress`: both require
  that no metric name differs from "status" or "_step" only in letter
  case. cJSON's lookup ignores case; without that requirement, a metric
  such as "Status" logged before "status" would be found by the dashboard
  first.
- `Api.DashboardSeesProgress`: requires a step of at most INT_MAX. Larger
  steps read back saturated, as `Json.ValueInt` states.
- Lengths count characters, where the C code counts bytes. `Text.Cap`,
  `Text.PrintfPrecision`, `SystemPanel.Clip`,
  `FunctionBar.FunctionBar.SetContext`, `FunctionBar.FunctionBar.Draw`
  (the `strlen(context) + 3` of its placement), `RunPanel.Ellipsis`,
  `RunPanel.KV`, `Tui.HeaderText`, `DataLoader.ValueText`,
  `DataLoader.SystemLine`, `Storage.FindLatestRun` and the 15-character
  level cut of `LogViewer.ShouldShow` all measure a string by its
  characters. They agree with C on ASCII text. A non-ASCII unit such as
  "°C" is 2 characters but 3 bytes in UTF-8, so on such text C cuts
  earlier, and can split a character, where the model does not.
- `DataLoader.ValueText`: the unit suffix picked from the metric's name
  has no independent partner; only the length bound and the prefix are
  proved.
- `Panels.Panel.Resize`: Panel_resize (src/Panel.c:115-123) calls no hook.
  `Panel_setResizeCallback` is called at src/MetricsPanel.c:348 but is
  declared in neither src/Panel.h nor src/Panel.c, so the model keeps only
  the flag `Panels.Panel.SetResizeCallback` sets.
  `Metrics.MetricsPanel.HandleResize` therefore never runs after
  `Screens.ScreenManager.Resize`.
- JSON arrays read as objects: `DataLoader.ReadSeries`,
  `DataLoader.LoadMetrics`, `Tui.OnRefresh`, `Tui.ApplyRecords`,
  `Tui.ReloadMetrics`, `RunPanel.SetData`, `RunPanel.Fill`,
  `RunPanel.AddConfig`, `RunPanel.AddConfigPart`, `RunPanel.AddSummary`
  and `RunPanel.AddSummaryPart` require that every member they walk has a
  name (`Json.KeyedChildren`, `RunPanel.ConfigReadable`). A non-empty JSON
  array where an object is expected is excluded. There the C code reads
  the NULL `item->string` (src/DataLoader.c:75, src/RunPanel.c:136 and
  173), which is undefined behaviour.
- `Api.ConfigDocument`: the config is a dictionary or absent. Python's
  `config or {}` would also write a non-empty list or other truthy value
  as given; that case is not modelled.
- `Screens.ScreenManager.AddPanel`, `Screens.ScreenManager.Append`: require
  a panel that is not already added. The source does not reject a
  duplicate; adding one twice would alias two layout entries, which the
  model's one-entry-per-panel frame does not express. The NULL-panel early
  return is modelled; a failing `realloc` is not.
- `Screens.ScreenManager.CheckRefresh`, `Screens.ScreenManager.RefreshAndRender`,
  `Screens.ScreenManager.Tick`: the refresh callback is inert here. It is
  only counted (`refreshCalls`), so these contracts keep every panel's
  contents and the installed callback across a refresh. The dashboard's
  real callback is `Tui.OnRefresh` (src/TUI.c:32-75). It refills the run,
  metrics and system panels, sets the header and function bar, and removes
  itself at a terminal status. Its effects are stated by `Tui.OnRefresh`
  and are not composed into the loop.
- `LogViewer.ShowFiltered`, `LogViewer.Show`: with `tail_lines` at most 0
  they require that no line is accepted. In that case nothing is printed,
  and the model states it. Once a line is accepted, the C code writes
  `buffer[head]` into a zero-size or NULL buffer and then takes `% 0`.
  That is undefined behaviour, and the model leaves it out.

## Findings

| source | as written | input that shows it | evidently intended | confidence | as-written member | corrected member |
|---|---|---|---|---|---|---|
| src/SparkLine.c:65 | the column of sample i is `(int)((double)i * (v_width - 1) / (count - 1))`, with no guard for a single sample | a metric logged once: `count == 1` gives 0.0 / 0.0, and converting that NaN to int is undefined behaviour in C; draw_card (src/MetricsPanel.c:234) passes such a history | a lone sample sits in column 0; otherwise samples spread from column 0 to v_width - 1 | not executed | `Sparkline.ColumnAsWritten`, `Sparkline.SingleSampleColumnUndefined` | `Sparkline.Column`, `Sparkline.ColumnSpread`, `Sparkline.ColumnAgrees` |
| src/RunPanel.c:37-43 | an overlong value is printed as `"%.*s..."` with precision `available_width - 3`, and `available_width` is `w - 16` | an 18-column item (the run panel on a 70-column terminal) has room 2; the precision -1 means no precision, so "RUNNING" is printed whole plus "..." and ends 7 columns past the item | the precision never goes below 0, so the cut value fits the cell or is just "..." | not executed | `RunPanel.EllipsisAsWritten`, `RunPanel.NarrowValueOverflows` | `RunPanel.Ellipsis`, `RunPanel.DrawItemInside`, `RunPanel.EllipsisAgrees` |
| src/RunPanel.c:53-57 | the title is cut by comparing its length with `(size_t)(w - 1)` and printing `"%.*s..."` with precision `w - 4` | a 3-column item prints "Environment" whole plus "..."; at width 0 `w - 1` wraps to the largest size_t and the whole title is printed | the title is cut to fit w - 1 columns, or is just "..." when there is no room | not executed | `RunPanel.TitleCutAsWritten`, `RunPanel.NarrowTitleOverflows` | `RunPanel.Ellipsis`, `RunPanel.DrawItemInside`, `RunPanel.TitleCutAgrees` |
