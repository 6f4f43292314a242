/** RunPanel: the run overview sidebar. RunPanel_setData fills it with
    "key\tvalue" rows in fixed sections (top rows, Environment,
    Configuration, Summary) and its item drawer shows each row as a key
    column and a value column cut with "...". */
module RunPanel {
  import opened Wrappers
  import opened Constants
  import opened Text
  import opened Json
  import opened Storage
  import opened Screen
  import opened Items
  import opened Panels

  const VALUE_COLUMN_OFFSET: int := 15
  const MAX_KEY_LEN: int := VALUE_COLUMN_OFFSET - 1
  const HEADER: string := "Run Overview"
  const ROW_BUFFER: nat := 256
  const STATE_BUFFER: nat := 32
  const NAME_BUFFER: nat := 128
  const CONFIG_VALUE_BUFFER: nat := 64
  const SUMMARY_VALUE_BUFFER: nat := 32

  // --- Drawing ---

  /** A cell cut with "..." as the item drawer writes it: whole when it has
      `room` columns, otherwise "%.*s..." with precision room - 3, which
      printf reads as no precision at all once it is negative. */
  function EllipsisAsWritten(s: string, room: int): (r: string)
    ensures |s| <= room ==> r == s
    ensures |s| > room ==> r == PrintfPrecision(s, room - 3) + "..."
  {
    if |s| > room then PrintfPrecision(s, room - 3) + "..." else PrintfPrecision(s, room)
  }

  /** The cut the drawer evidently means: the precision is not allowed
      below 0, so a cell never takes more than max(room, 3) columns. */
  function Ellipsis(s: string, room: int): (r: string)
    ensures |s| <= room ==> r == s
    ensures |r| <= Max(room, 3)
    ensures |s| > room ==> |r| == Max(room, 3) && r[|r| - 3..] == "..." && r[..|r| - 3] <= s
  {
    if |s| > room then PrintfPrecision(s, Max(room - 3, 0)) + "..." else PrintfPrecision(s, room)
  }

  /** Where the room is at least 3 columns the two agree: the written code
      goes wrong only on narrow cells. */
  lemma EllipsisAgrees(s: string, room: int)
    requires room >= 3
    ensures EllipsisAsWritten(s, room) == Ellipsis(s, room)
  {
  }

  /** The value column of an 18-column item (a 20-column run panel, which is
      what a 70-column terminal gives the sidebar) has 2 columns of room:
      the state "RUNNING" is written whole and followed by "...", ten
      characters that run 7 columns past the item's right edge. */
  lemma NarrowValueOverflows()
    ensures var w := 18;
            var shown := EllipsisAsWritten("RUNNING", w - VALUE_COLUMN_OFFSET - 1);
            shown == "RUNNING..." && VALUE_COLUMN_OFFSET + |shown| == w + 7
  {
  }

  /** The section-title cut as written: strlen(text) is compared with
      (size_t)(w - 1), so for w <= 0 the bound wraps to a huge value and the
      title is printed with the negative precision w - 1, that is whole;
      otherwise the title is cut like a value with room w - 1. */
  function TitleCutAsWritten(text: string, w: int): (r: string)
    ensures w <= 0 ==> r == text
    ensures w >= 1 ==> r == EllipsisAsWritten(text, w - 1)
  {
    if w - 1 < 0 then PrintfPrecision(text, w - 1) else EllipsisAsWritten(text, w - 1)
  }

  /** A 3-column item prints the title "Environment" whole plus "...",
      fourteen characters; a panel of width 0 prints it whole. The
      corrected cut gives "..." in both cases. */
  lemma NarrowTitleOverflows()
    ensures TitleCutAsWritten("Environment", 3) == "Environment..."
    ensures TitleCutAsWritten("Environment", 0) == "Environment"
    ensures Ellipsis("Environment", 3 - 1) == "..." && Ellipsis("Environment", 0 - 1) == "..."
  {
  }

  /** From four columns on, the written title cut and the corrected one agree. */
  lemma TitleCutAgrees(text: string, w: int)
    requires w >= 4
    ensures TitleCutAsWritten(text, w) == Ellipsis(text, w - 1)
  {
    EllipsisAgrees(text, w - 1);
  }

  /** RunPanel_drawItem with the corrected cut: nothing for a missing item;
      otherwise the row is blanked, and a "key\tvalue" text is drawn as the
      key in its 14 columns and the value from column 15 with a column
      kept free at the right; a non-empty text without a tab is a section
      title cut to w - 1 columns; an empty text is a blank row. */
  function DrawItem(item: Option<PanelItem>, y: int, x: int, w: int): (r: seq<Write>)
    ensures item.None? <==> r == []
    ensures item.Some? ==> r[0] == Blank(y, x, w)
    ensures item.Some? && item.value.text == "" ==> r == [Blank(y, x, w)]
  {
    match item
    case None => []
    case Some(it) =>
      var text := it.text;
      match IndexOf(text, '\t')
      case Some(k) =>
        [Blank(y, x, w), Print(y, x, Ellipsis(text[..k], MAX_KEY_LEN)),
         Print(y, x + VALUE_COLUMN_OFFSET, Ellipsis(text[k + 1..], w - VALUE_COLUMN_OFFSET - 1))]
      case None =>
        if |text| > 0 then [Blank(y, x, w), Print(y, x, Ellipsis(text, w - 1))] else [Blank(y, x, w)]
  }

  /** A write that puts no text outside columns [x, x + w). */
  predicate Inside(wr: Write, x: int, w: int) {
    wr.Print? ==> x <= wr.col && wr.col + |wr.text| <= x + w
  }

  /** On an item at least 18 columns wide every text drawn stays inside it,
      and a key ends at least one column before the value column. */
  lemma DrawItemInside(item: Option<PanelItem>, y: int, x: int, w: int)
    requires w >= 18
    ensures forall i :: 0 <= i < |DrawItem(item, y, x, w)| ==> Inside(DrawItem(item, y, x, w)[i], x, w)
    ensures item.Some? && '\t' in item.value.text ==>
              DrawItem(item, y, x, w)[1].col + |DrawItem(item, y, x, w)[1].text| < x + VALUE_COLUMN_OFFSET
  {
    if item.Some? {
      var r := DrawItem(item, y, x, w);
      match IndexOf(item.value.text, '\t')
      case None =>
        assert forall i :: 0 <= i < |r| ==> Inside(r[i], x, w);
      case Some(k) =>
        var key := Ellipsis(item.value.text[..k], MAX_KEY_LEN);
        var val := Ellipsis(item.value.text[k + 1..], w - VALUE_COLUMN_OFFSET - 1);
        assert r == [Blank(y, x, w), Print(y, x, key), Print(y, x + VALUE_COLUMN_OFFSET, val)];
        assert Inside(r[1], x, w) && Inside(r[2], x, w);
    }
  }

  /** The key and the value of a row: the text around its first tab. */
  function Split(text: string): (r: Option<(string, string)>)
    ensures r.Some? <==> '\t' in text
    ensures r.Some? ==> text == r.value.0 + "\t" + r.value.1 && '\t' !in r.value.0
  {
    match IndexOf(text, '\t')
    case None => None
    case Some(k) =>
      assert text == text[..k] + "\t" + text[k + 1..];
      Some((text[..k], text[k + 1..]))
  }

  /** A row with a tab is drawn as its key and its value, each cut to its column. */
  lemma DrawKeyValue(it: PanelItem, y: int, x: int, w: int)
    requires Split(it.text).Some?
    ensures var (key, val) := Split(it.text).value;
            DrawItem(Some(it), y, x, w)
              == [Blank(y, x, w), Print(y, x, Ellipsis(key, MAX_KEY_LEN)),
                  Print(y, x + VALUE_COLUMN_OFFSET, Ellipsis(val, w - VALUE_COLUMN_OFFSET - 1))]
  {
  }

  /** RunPanel_new: a panel titled "Run Overview" drawn by this module's item drawer. */
  method New(x0: int, y0: int, w0: int, h0: int) returns (p: Panel)
    ensures fresh(p) && p.Valid()
    ensures p.x == x0 && p.y == y0 && p.w == w0 && p.h == h0 && p.header == Some(HEADER)
    ensures p.drawer == RunDrawer && p.itemHeight == 1 && p.items == []
    ensures p.selected == 0 && p.scrollV == 0 && p.scrollH == 0 && p.needsRedraw
    ensures !p.hasFocus && !p.hasEventHandler && !p.hasCleanup && !p.hasResizeHook
  {
    p := new Panel(x0, y0, w0, h0, Some(HEADER));
    p.SetDrawItem(RunDrawer);
  }

  // --- Rows ---

  /** addKV's text: "key\tvalue", "N/A" for a NULL value, cut to the
      256-character buffer. */
  function KV(key: string, val: Option<string>): (r: string)
    ensures |r| < ROW_BUFFER
    ensures |key| + 1 + |val.GetOr("N/A")| < ROW_BUFFER ==> r == key + "\t" + val.GetOr("N/A")
  {
    Cap(key + "\t" + (if val.Some? then val.value else "N/A"), ROW_BUFFER)
  }

  /** addKI's text: "key\t%d", cut to the buffer. */
  function KI(key: string, n: int): (r: string)
    ensures |r| < ROW_BUFFER
  {
    Cap(key + "\t" + IntToString(n), ROW_BUFFER)
  }

  /** The four rows without a heading, and a blank row. */
  function TopRows(meta: Option<RunMetadata>, summary: Option<RunSummary>): seq<string>
  {
    var state := if summary.Some? then Cap(summary.value.status, STATE_BUFFER) else "N/A";
    var name := if meta.Some? then Cap(meta.value.runName, NAME_BUFFER) else "N/A";
    var id := if meta.Some? then Cap(meta.value.runId, NAME_BUFFER) else "N/A";
    [KV("State", Some(state))] + [KV("Name", Some(name))] + [KV("Project", Some("N/A"))] + [KV("ID", Some(id))] + [""]
  }

  function EnvironmentRows(m: RunMetadata): seq<string>
  {
    ["Environment"] + EnvironmentFields(m)
  }

  /** The Environment rows below the title, ending in a blank row. */
  function EnvironmentFields(m: RunMetadata): seq<string>
  {
    [KV("Host", m.host)] + [KV("User", m.user)] + [KV("OS", m.os)] + [KV("Python", m.python)]
    + [KV("GPU", m.gpuName)] + [KI("CPUs", m.cpuCount)] + [KI("GPUs", m.gpuCount)]
    + [KV("Disk", m.diskTotal)] + [KV("RAM", m.ramTotal)] + [KV("Command", m.command)] + [""]
  }

  /** A configuration number: "%d" when `valueint` holds it exactly,
      otherwise "%.4f", in a 64-character buffer. */
  function ConfigNumber(n: real, fmt: Fixed): (r: string)
    ensures |r| < CONFIG_VALUE_BUFFER
  {
    Cap(if ValueInt(n) as real == n then IntToString(ValueInt(n)) else fmt(n, 4), CONFIG_VALUE_BUFFER)
  }

  /** The configuration kinds that get a row: strings, numbers and booleans. */
  predicate Listed(v: Json)
  {
    v.JString? || v.JNumber? || v.JBool?
  }

  /** The text of a listed configuration value. */
  function ConfigText(v: Json, fmt: Fixed): string
    requires Listed(v)
  {
    match v
    case JString(s) => s
    case JNumber(n) => ConfigNumber(n, fmt)
    case JBool(b) => if b then "true" else "false"
  }

  /** The row of one configuration member: strings, numbers and booleans
      are shown, every other kind is skipped. */
  function ConfigRow(m: Member, fmt: Fixed): (r: Option<string>)
    ensures r.Some? <==> Listed(m.value)
  {
    if Listed(m.value) then Some(KV(m.key, Some(ConfigText(m.value, fmt)))) else None
  }

  function ConfigRows(ms: seq<Member>, fmt: Fixed): seq<string>
  {
    if |ms| == 0 then []
    else
      var last := ms[|ms| - 1];
      ConfigRows(ms[..|ms| - 1], fmt) + (if ConfigRow(last, fmt).Some? then [ConfigRow(last, fmt).value] else [])
  }

  function ConfigSection(c: RunConfig, fmt: Fixed): seq<string>
  {
    ["Configuration"] + ConfigRows(Members(c.json), fmt) + [""]
  }

  /** Iterating over the configuration is defined: the children of an
      array (which have no key) are never read as key/value members, so
      none of them may be a string, a number or a boolean. */
  predicate ConfigReadable(j: Json)
  {
    j.JArray? ==> forall k :: 0 <= k < |j.elems| ==> !Listed(j.elems[k])
  }

  /** The summary members already shown by the fixed rows (compared exactly). */
  predicate Shown(key: string)
  {
    key == "status" || key == "_runtime" || key == "_timestamp" || key == "_step" || key == "epoch"
  }

  /** The row of one further summary member: a number not already shown, "%.4f". */
  function ExtraRow(m: Member, fmt: Fixed): (r: Option<string>)
    ensures r.Some? <==> !Shown(m.key) && m.value.JNumber?
  {
    if !Shown(m.key) && m.value.JNumber? then Some(KV(m.key, Some(Cap(fmt(m.value.n, 4), SUMMARY_VALUE_BUFFER)))) else None
  }

  function ExtraRows(ms: seq<Member>, fmt: Fixed): seq<string>
  {
    if |ms| == 0 then []
    else
      var last := ms[|ms| - 1];
      ExtraRows(ms[..|ms| - 1], fmt) + (if ExtraRow(last, fmt).Some? then [ExtraRow(last, fmt).value] else [])
  }

  function SummaryRows(s: RunSummary, fmt: Fixed): seq<string>
  {
    ["Summary"] + SummaryFields(s, fmt) + ExtraRows(Members(s.json), fmt)
  }

  /** The fixed Summary rows below the title. */
  function SummaryFields(s: RunSummary, fmt: Fixed): seq<string>
  {
    [KV("status", Some(s.status))]
    + [KV("_runtime", Some(Runtime(s, fmt)))]
    + [KV("_timestamp", Some(Timestamp(s, fmt)))]
    + [KI("_step", s.step)]
    + [KI("epoch", s.epoch)]
  }

  /** "%.1fs" of the runtime in a 32-character buffer. */
  function Runtime(s: RunSummary, fmt: Fixed): (r: string)
    ensures |r| < SUMMARY_VALUE_BUFFER
  {
    Cap(fmt(s.runtime, 1) + "s", SUMMARY_VALUE_BUFFER)
  }

  /** "%.2f" of the timestamp in a 32-character buffer. */
  function Timestamp(s: RunSummary, fmt: Fixed): (r: string)
    ensures |r| < SUMMARY_VALUE_BUFFER
  {
    Cap(fmt(s.timestamp, 2), SUMMARY_VALUE_BUFFER)
  }

  /** Every row RunPanel_setData adds, in order. */
  function Rows(config: Option<RunConfig>, meta: Option<RunMetadata>, summary: Option<RunSummary>, fmt: Fixed): seq<string>
  {
    TopRows(meta, summary) + EnvironmentPart(meta) + ConfigPart(config, fmt) + SummaryPart(summary, fmt)
  }

  function EnvironmentPart(meta: Option<RunMetadata>): seq<string>
  {
    if meta.Some? then EnvironmentRows(meta.value) else []
  }

  function ConfigPart(config: Option<RunConfig>, fmt: Fixed): seq<string>
  {
    if config.Some? then ConfigSection(config.value, fmt) else []
  }

  function SummaryPart(summary: Option<RunSummary>, fmt: Fixed): seq<string>
  {
    if summary.Some? then SummaryRows(summary.value, fmt) else []
  }

  /** Rows as panel items, without data. */
  function AsItems(rows: seq<string>): seq<PanelItem>
  {
    if |rows| == 0 then [] else AsItems(rows[..|rows| - 1]) + [PanelItem(rows[|rows| - 1], None)]
  }

  // --- What the rows say ---

  /** Reading a row back: a key without a tab and a value that fit in
      the row buffer are exactly what the drawer splits the row into. */
  lemma SplitKV(key: string, val: string)
    requires '\t' !in key && |key| + 1 + |val| < ROW_BUFFER
    ensures Split(KV(key, Some(val))) == Some((key, val))
  {
    var row := key + "\t" + val;
    assert row[|key|] == '\t';
    assert row[..|key|] == key;
    assert row[|key| + 1..] == val;
  }

  /** A number written with "%d" is at most eleven characters. */
  lemma {:induction false} NatToStringLength(n: nat, d: nat, bound: nat)
    requires n < bound && bound == Pow10(d)
    ensures |NatToString(n)| <= Max(d, 1)
    decreases d
  {
    if n >= 10 {
      assert d >= 1;
      NatToStringLength(n / 10, d - 1, Pow10(d - 1));
    }
  }

  function Pow10(d: nat): (r: nat)
    ensures r >= 1
  {
    if d == 0 then 1 else 10 * Pow10(d - 1)
  }

  lemma IntToStringShort(k: int)
    requires INT_MIN <= k <= INT_MAX
    ensures |IntToString(k)| <= 11
  {
    assert Pow10(10) == 10000000000;
    if k < 0 {
      NatToStringLength(-k, 10, Pow10(10));
    } else {
      NatToStringLength(k, 10, Pow10(10));
    }
  }

  /** A configuration number is shown with "%d" exactly when it is an
      integer in the int range, and with "%.4f" (cut to the buffer) otherwise. */
  lemma ConfigNumberShown(n: real, fmt: Fixed)
    ensures n.Floor as real == n && INT_MIN as real <= n <= INT_MAX as real ==>
              ConfigNumber(n, fmt) == IntToString(n.Floor)
    ensures !(n.Floor as real == n && INT_MIN as real <= n <= INT_MAX as real) ==>
              ConfigNumber(n, fmt) == Cap(fmt(n, 4), CONFIG_VALUE_BUFFER)
  {
    if n.Floor as real == n && INT_MIN as real <= n <= INT_MAX as real {
      ValueIntExact(n.Floor);
      IntToStringShort(n.Floor);
    } else {
      assert ValueInt(n) as real != n;
    }
  }

  /** The further summary rows are, in order, one for each numeric member
      not already shown: a row is there exactly when such a member gives it. */
  lemma {:induction false} ExtraRowsFrom(ms: seq<Member>, fmt: Fixed, row: string)
    ensures row in ExtraRows(ms, fmt) <==> exists i :: 0 <= i < |ms| && ExtraRow(ms[i], fmt) == Some(row)
    decreases |ms|
  {
    if |ms| > 0 {
      var front := ms[..|ms| - 1];
      ExtraRowsFrom(front, fmt, row);
      assert forall i :: 0 <= i < |front| ==> front[i] == ms[i];
      if exists i :: 0 <= i < |ms| && ExtraRow(ms[i], fmt) == Some(row) {
        var i :| 0 <= i < |ms| && ExtraRow(ms[i], fmt) == Some(row);
        if i < |front| {
          assert ExtraRow(front[i], fmt) == Some(row);
        }
      }
    }
  }

  /** The configuration rows likewise: one for each string, number or
      boolean member, in order. */
  lemma {:induction false} ConfigRowsFrom(ms: seq<Member>, fmt: Fixed, row: string)
    ensures row in ConfigRows(ms, fmt) <==> exists i :: 0 <= i < |ms| && ConfigRow(ms[i], fmt) == Some(row)
    decreases |ms|
  {
    if |ms| > 0 {
      var front := ms[..|ms| - 1];
      var last := ms[|ms| - 1];
      ConfigRowsFrom(front, fmt, row);
      var tail := if ConfigRow(last, fmt).Some? then [ConfigRow(last, fmt).value] else [];
      assert ConfigRows(ms, fmt) == ConfigRows(front, fmt) + tail;
      if exists i :: 0 <= i < |ms| && ConfigRow(ms[i], fmt) == Some(row) {
        var i :| 0 <= i < |ms| && ConfigRow(ms[i], fmt) == Some(row);
        if i < |front| {
          assert front[i] == ms[i];
        } else {
          assert row in tail;
        }
      }
      if row in ConfigRows(front, fmt) {
        var i :| 0 <= i < |front| && ConfigRow(front[i], fmt) == Some(row);
        assert ms[i] == front[i];
      }
    }
  }

  /** A section title: a non-empty row without a tab, which the drawer
      shows as a heading. */
  predicate IsTitle(row: string)
  {
    row != "" && '\t' !in row
  }

  function Titles(rows: seq<string>): (r: seq<string>)
  {
    if |rows| == 0 then []
    else Titles(rows[..|rows| - 1]) + (if IsTitle(rows[|rows| - 1]) then [rows[|rows| - 1]] else [])
  }

  lemma {:induction false} TitlesAppend(a: seq<string>, b: seq<string>)
    ensures Titles(a + b) == Titles(a) + Titles(b)
    decreases |b|
  {
    if |b| == 0 {
      assert a + b == a;
    } else {
      var b' := b[..|b| - 1];
      assert (a + b)[..|a + b| - 1] == a + b';
      TitlesAppend(a, b');
    }
  }

  lemma {:induction false} TitlesNone(rows: seq<string>)
    requires forall i :: 0 <= i < |rows| ==> !IsTitle(rows[i])
    ensures Titles(rows) == []
    decreases |rows|
  {
    if |rows| > 0 {
      TitlesNone(rows[..|rows| - 1]);
    }
  }

  /** A key/value row keeps its tab when the key leaves room for it in the buffer. */
  lemma KeyValueRow(key: string, text: string)
    requires |key| < ROW_BUFFER - 1
    ensures !IsTitle(Cap(key + "\t" + text, ROW_BUFFER))
  {
    assert Cap(key + "\t" + text, ROW_BUFFER)[|key|] == '\t';
  }

  lemma {:induction false} ConfigRowsUntitled(ms: seq<Member>, fmt: Fixed)
    requires forall i :: 0 <= i < |ms| ==> |ms[i].key| < ROW_BUFFER - 1
    ensures Titles(ConfigRows(ms, fmt)) == []
    decreases |ms|
  {
    if |ms| > 0 {
      var last := ms[|ms| - 1];
      ConfigRowsUntitled(ms[..|ms| - 1], fmt);
      if Listed(last.value) {
        KeyValueRow(last.key, ConfigText(last.value, fmt));
      }
      var tail := if ConfigRow(last, fmt).Some? then [ConfigRow(last, fmt).value] else [];
      TitlesNone(tail);
      TitlesAppend(ConfigRows(ms[..|ms| - 1], fmt), tail);
    }
  }

  lemma {:induction false} ExtraRowsUntitled(ms: seq<Member>, fmt: Fixed)
    requires forall i :: 0 <= i < |ms| ==> |ms[i].key| < ROW_BUFFER - 1
    ensures Titles(ExtraRows(ms, fmt)) == []
    decreases |ms|
  {
    if |ms| > 0 {
      var last := ms[|ms| - 1];
      ExtraRowsUntitled(ms[..|ms| - 1], fmt);
      if ExtraRow(last, fmt).Some? {
        KeyValueRow(last.key, Cap(fmt(last.value.n, 4), SUMMARY_VALUE_BUFFER));
      }
      var tail := if ExtraRow(last, fmt).Some? then [ExtraRow(last, fmt).value] else [];
      TitlesNone(tail);
      TitlesAppend(ExtraRows(ms[..|ms| - 1], fmt), tail);
    }
  }

  /** Keys short enough for the row buffer to keep their tab. */
  predicate ShortKeys(j: Json)
  {
    forall i :: 0 <= i < |Members(j)| ==> |Members(j)[i].key| < ROW_BUFFER - 1
  }

  /** The headings of the whole panel are exactly the titles of the
      sections present, in order: Environment with metadata, Configuration
      with a configuration, Summary with a summary. */
  lemma SectionTitles(config: Option<RunConfig>, meta: Option<RunMetadata>, summary: Option<RunSummary>, fmt: Fixed)
    requires config.Some? ==> ShortKeys(config.value.json)
    requires summary.Some? ==> ShortKeys(summary.value.json)
    ensures Titles(Rows(config, meta, summary, fmt))
              == (if meta.Some? then ["Environment"] else [])
                 + (if config.Some? then ["Configuration"] else [])
                 + (if summary.Some? then ["Summary"] else [])
  {
    var top := TopRows(meta, summary);
    var env := EnvironmentPart(meta);
    var conf := ConfigPart(config, fmt);
    var sum := SummaryPart(summary, fmt);
    var e: seq<string> := if meta.Some? then ["Environment"] else [];
    var c: seq<string> := if config.Some? then ["Configuration"] else [];
    var s: seq<string> := if summary.Some? then ["Summary"] else [];
    TopUntitled(meta, summary);
    if meta.Some? {
      EnvironmentTitled(meta.value);
    }
    if config.Some? {
      ConfigTitled(config.value, fmt);
    }
    if summary.Some? {
      SummaryTitled(summary.value, fmt);
    }
    TitlesOfFour(top, env, conf, sum, e, c, s);
  }

  lemma TitlesOfFour(a: seq<string>, b: seq<string>, c: seq<string>, d: seq<string>,
                     tb: seq<string>, tc: seq<string>, td: seq<string>)
    requires Titles(a) == [] && Titles(b) == tb && Titles(c) == tc && Titles(d) == td
    ensures Titles(a + b + c + d) == tb + tc + td
  {
    TitlesAppend(a, b);
    TitlesAppend(a + b, c);
    TitlesAppend(a + b + c, d);
    assert [] + tb == tb;
  }

  lemma ConfigTitled(c: RunConfig, fmt: Fixed)
    requires ShortKeys(c.json)
    ensures Titles(ConfigSection(c, fmt)) == ["Configuration"]
  {
    var rows := ConfigRows(Members(c.json), fmt);
    ConfigRowsUntitled(Members(c.json), fmt);
    TitlesNone([""]);
    TitleOne("Configuration");
    TitlesAppend(["Configuration"], rows);
    TitlesAppend(["Configuration"] + rows, [""]);
  }

  lemma TitleOne(t: string)
    requires IsTitle(t)
    ensures Titles([t]) == [t]
  {
    assert [t][..0] == [];
  }

  lemma TopUntitled(meta: Option<RunMetadata>, summary: Option<RunSummary>)
    ensures Titles(TopRows(meta, summary)) == []
  {
    var state := if summary.Some? then Cap(summary.value.status, STATE_BUFFER) else "N/A";
    var name := if meta.Some? then Cap(meta.value.runName, NAME_BUFFER) else "N/A";
    var id := if meta.Some? then Cap(meta.value.runId, NAME_BUFFER) else "N/A";
    KeyValueRow("State", state);
    var rows := [KV("State", Some(state))];
    TitlesNone(rows);
    KeyValueRow("Name", name);
    TitlesSkip(rows, KV("Name", Some(name)));
    rows := rows + [KV("Name", Some(name))];
    KeyValueRow("Project", "N/A");
    TitlesSkip(rows, KV("Project", Some("N/A")));
    rows := rows + [KV("Project", Some("N/A"))];
    KeyValueRow("ID", id);
    TitlesSkip(rows, KV("ID", Some(id)));
    rows := rows + [KV("ID", Some(id))];
    TitlesSkip(rows, "");
    rows := rows + [""];
    assert rows == TopRows(meta, summary);
  }

  lemma EnvironmentTitled(m: RunMetadata)
    ensures Titles(EnvironmentRows(m)) == ["Environment"]
  {
    KeyValueRow("Host", m.host.GetOr("N/A"));
    var rows := [KV("Host", m.host)];
    TitlesNone(rows);
    KeyValueRow("User", m.user.GetOr("N/A"));
    TitlesSkip(rows, KV("User", m.user));
    rows := rows + [KV("User", m.user)];
    KeyValueRow("OS", m.os.GetOr("N/A"));
    TitlesSkip(rows, KV("OS", m.os));
    rows := rows + [KV("OS", m.os)];
    KeyValueRow("Python", m.python.GetOr("N/A"));
    TitlesSkip(rows, KV("Python", m.python));
    rows := rows + [KV("Python", m.python)];
    KeyValueRow("GPU", m.gpuName.GetOr("N/A"));
    TitlesSkip(rows, KV("GPU", m.gpuName));
    rows := rows + [KV("GPU", m.gpuName)];
    KeyValueRow("CPUs", IntToString(m.cpuCount));
    TitlesSkip(rows, KI("CPUs", m.cpuCount));
    rows := rows + [KI("CPUs", m.cpuCount)];
    KeyValueRow("GPUs", IntToString(m.gpuCount));
    TitlesSkip(rows, KI("GPUs", m.gpuCount));
    rows := rows + [KI("GPUs", m.gpuCount)];
    KeyValueRow("Disk", m.diskTotal.GetOr("N/A"));
    TitlesSkip(rows, KV("Disk", m.diskTotal));
    rows := rows + [KV("Disk", m.diskTotal)];
    KeyValueRow("RAM", m.ramTotal.GetOr("N/A"));
    TitlesSkip(rows, KV("RAM", m.ramTotal));
    rows := rows + [KV("RAM", m.ramTotal)];
    KeyValueRow("Command", m.command.GetOr("N/A"));
    TitlesSkip(rows, KV("Command", m.command));
    rows := rows + [KV("Command", m.command)];
    TitlesSkip(rows, "");
    rows := rows + [""];
    assert rows == EnvironmentFields(m);
    TitleOne("Environment");
    TitlesAppend(["Environment"], rows);
  }

  lemma TitlesSkip(rows: seq<string>, row: string)
    requires !IsTitle(row)
    ensures Titles(rows + [row]) == Titles(rows)
  {
    assert (rows + [row])[..|rows|] == rows;
  }

  /** None of the five fixed Summary rows reads as a heading. */
  lemma SummaryFieldsUntitled(s: RunSummary, fmt: Fixed)
    ensures Titles(SummaryFields(s, fmt)) == []
  {
    KeyValueRow("status", s.status);
    KeyValueRow("_runtime", Runtime(s, fmt));
    KeyValueRow("_timestamp", Timestamp(s, fmt));
    KeyValueRow("_step", IntToString(s.step));
    KeyValueRow("epoch", IntToString(s.epoch));
    TitlesNone(SummaryFields(s, fmt));
  }

  lemma SummaryTitled(s: RunSummary, fmt: Fixed)
    requires ShortKeys(s.json)
    ensures Titles(SummaryRows(s, fmt)) == ["Summary"]
  {
    assert IsTitle("Summary");
    SummaryFieldsUntitled(s, fmt);
    ExtraRowsUntitled(Members(s.json), fmt);
    TitledBlock("Summary", SummaryFields(s, fmt), ExtraRows(Members(s.json), fmt));
  }

  /** A title followed by two untitled blocks has that one title. */
  lemma TitledBlock(t: string, a: seq<string>, b: seq<string>)
    requires IsTitle(t) && Titles(a) == [] && Titles(b) == []
    ensures Titles([t] + a + b) == [t]
  {
    TitleOne(t);
    TitlesAppend([t], a);
    TitlesAppend([t] + a, b);
  }

  // --- Filling the panel ---

  /** addKV. */
  method AddKV(p: Panel, key: string, val: Option<string>)
    requires p.Valid()
    modifies p`items, p`capacity, p`needsRedraw
    ensures p.Valid() && p.needsRedraw
    ensures p.items == old(p.items) + AsItems([KV(key, val)])
  {
    var _ := p.AddItem(Some(KV(key, val)), None);
  }

  /** addKI. */
  method AddKI(p: Panel, key: string, n: int)
    requires p.Valid()
    modifies p`items, p`capacity, p`needsRedraw
    ensures p.Valid() && p.needsRedraw
    ensures p.items == old(p.items) + AsItems([KI(key, n)])
  {
    var _ := p.AddItem(Some(KI(key, n)), None);
  }

  /** Panel_addItem of a fixed text without data. */
  method AddText(p: Panel, text: string)
    requires p.Valid()
    modifies p`items, p`capacity, p`needsRedraw
    ensures p.Valid() && p.needsRedraw
    ensures p.items == old(p.items) + AsItems([text])
  {
    var _ := p.AddItem(Some(text), None);
  }

  /** Each row becomes one item with that text and no data. */
  lemma {:induction false} AsItemsShape(rows: seq<string>)
    ensures |AsItems(rows)| == |rows|
    ensures forall i :: 0 <= i < |rows| ==> AsItems(rows)[i] == PanelItem(rows[i], None)
    decreases |rows|
  {
    if |rows| > 0 {
      AsItemsShape(rows[..|rows| - 1]);
    }
  }

  lemma {:induction false} AsItemsAppend(a: seq<string>, b: seq<string>)
    ensures AsItems(a + b) == AsItems(a) + AsItems(b)
    decreases |b|
  {
    if |b| == 0 {
      assert a + b == a;
    } else {
      var b' := b[..|b| - 1];
      assert (a + b)[..|a + b| - 1] == a + b';
      AsItemsAppend(a, b');
    }
  }

  /** One more row added after `done`. */
  lemma AsItemsStep(start: seq<PanelItem>, done: seq<string>, row: string)
    ensures start + AsItems(done) + AsItems([row]) == start + AsItems(done + [row])
  {
    assert (done + [row])[..|done|] == done;
  }

  /** The top rows: state, name, project and id, then a blank row. */
  method AddTop(p: Panel, meta: Option<RunMetadata>, summary: Option<RunSummary>)
    requires p.Valid()
    modifies p`items, p`capacity, p`needsRedraw
    ensures p.Valid() && p.needsRedraw
    ensures p.items == old(p.items) + AsItems(TopRows(meta, summary))
  {
    var state := "N/A";
    var name := "N/A";
    var id := "N/A";
    if summary.Some? {
      state := Cap(summary.value.status, STATE_BUFFER);
    }
    if meta.Some? {
      name := Cap(meta.value.runName, NAME_BUFFER);
    }
    if meta.Some? {
      id := Cap(meta.value.runId, NAME_BUFFER);
    }
    ghost var start := p.items;
    AddKV(p, "State", Some(state));
    ghost var done := [KV("State", Some(state))];
    assert p.items == start + AsItems(done);
    AddKV(p, "Name", Some(name));
    AsItemsStep(start, done, KV("Name", Some(name)));
    done := done + [KV("Name", Some(name))];
    assert p.items == start + AsItems(done);
    AddKV(p, "Project", Some("N/A"));
    AsItemsStep(start, done, KV("Project", Some("N/A")));
    done := done + [KV("Project", Some("N/A"))];
    assert p.items == start + AsItems(done);
    AddKV(p, "ID", Some(id));
    AsItemsStep(start, done, KV("ID", Some(id)));
    done := done + [KV("ID", Some(id))];
    assert p.items == start + AsItems(done);
    AddText(p, "");
    AsItemsStep(start, done, "");
    done := done + [""];
    assert done == TopRows(meta, summary);
  }

  /** The Environment section: its title, the host and software fields,
      the CPU and GPU counts, the sizes and the command, then a blank row. */
  method AddEnvironment(p: Panel, m: RunMetadata)
    requires p.Valid()
    modifies p`items, p`capacity, p`needsRedraw
    ensures p.Valid() && p.needsRedraw
    ensures p.items == old(p.items) + AsItems(EnvironmentRows(m))
  {
    ghost var start := p.items;
    AddText(p, "Environment");
    ghost var mid := p.items;
    AddKV(p, "Host", m.host);
    ghost var done := [KV("Host", m.host)];
    assert p.items == mid + AsItems(done);
    AddKV(p, "User", m.user);
    AsItemsStep(mid, done, KV("User", m.user));
    done := done + [KV("User", m.user)];
    assert p.items == mid + AsItems(done);
    AddKV(p, "OS", m.os);
    AsItemsStep(mid, done, KV("OS", m.os));
    done := done + [KV("OS", m.os)];
    assert p.items == mid + AsItems(done);
    AddKV(p, "Python", m.python);
    AsItemsStep(mid, done, KV("Python", m.python));
    done := done + [KV("Python", m.python)];
    assert p.items == mid + AsItems(done);
    AddKV(p, "GPU", m.gpuName);
    AsItemsStep(mid, done, KV("GPU", m.gpuName));
    done := done + [KV("GPU", m.gpuName)];
    assert p.items == mid + AsItems(done);
    AddKI(p, "CPUs", m.cpuCount);
    AsItemsStep(mid, done, KI("CPUs", m.cpuCount));
    done := done + [KI("CPUs", m.cpuCount)];
    assert p.items == mid + AsItems(done);
    AddKI(p, "GPUs", m.gpuCount);
    AsItemsStep(mid, done, KI("GPUs", m.gpuCount));
    done := done + [KI("GPUs", m.gpuCount)];
    assert p.items == mid + AsItems(done);
    AddKV(p, "Disk", m.diskTotal);
    AsItemsStep(mid, done, KV("Disk", m.diskTotal));
    done := done + [KV("Disk", m.diskTotal)];
    assert p.items == mid + AsItems(done);
    AddKV(p, "RAM", m.ramTotal);
    AsItemsStep(mid, done, KV("RAM", m.ramTotal));
    done := done + [KV("RAM", m.ramTotal)];
    assert p.items == mid + AsItems(done);
    AddKV(p, "Command", m.command);
    AsItemsStep(mid, done, KV("Command", m.command));
    done := done + [KV("Command", m.command)];
    assert p.items == mid + AsItems(done);
    AddText(p, "");
    AsItemsStep(mid, done, "");
    done := done + [""];
    assert p.items == mid + AsItems(done);
    assert done == EnvironmentFields(m);
    AsItemsAppend(["Environment"], done);
    Assoc(start, AsItems(["Environment"]), AsItems(done));
  }

  lemma Assoc<T>(a: seq<T>, b: seq<T>, c: seq<T>)
    ensures a + b + c == a + (b + c)
  {
  }

  lemma ConfigRowsStep(ms: seq<Member>, i: nat, fmt: Fixed)
    requires i < |ms|
    ensures ConfigRows(ms[..i + 1], fmt)
              == ConfigRows(ms[..i], fmt) + (if Listed(ms[i].value) then [KV(ms[i].key, Some(ConfigText(ms[i].value, fmt)))] else [])
  {
    assert ms[..i + 1][..i] == ms[..i];
  }

  lemma ExtraRowsStep(ms: seq<Member>, i: nat, fmt: Fixed)
    requires i < |ms|
    ensures ExtraRows(ms[..i + 1], fmt)
              == ExtraRows(ms[..i], fmt)
                 + (if !Shown(ms[i].key) && ms[i].value.JNumber? then [KV(ms[i].key, Some(Cap(fmt(ms[i].value.n, 4), SUMMARY_VALUE_BUFFER)))] else [])
  {
    assert ms[..i + 1][..i] == ms[..i];
  }

  /** The Configuration section: its title, a row for each string, number
      or boolean member in order, then a blank row. */
  method AddConfig(p: Panel, c: RunConfig, fmt: Fixed)
    requires p.Valid() && ConfigReadable(c.json)
    modifies p`items, p`capacity, p`needsRedraw
    ensures p.Valid() && p.needsRedraw
    ensures p.items == old(p.items) + AsItems(ConfigSection(c, fmt))
  {
    ghost var start := p.items;
    AddText(p, "Configuration");
    ghost var mid := p.items;
    var ms := Members(c.json);
    var i := 0;
    while i < |ms|
      invariant 0 <= i <= |ms| && p.Valid() && p.needsRedraw
      invariant p.items == mid + AsItems(ConfigRows(ms[..i], fmt))
    {
      var m := ms[i];
      ConfigRowsStep(ms, i, fmt);
      if Listed(m.value) {
        var val := ConfigText(m.value, fmt);
        AddKV(p, m.key, Some(val));
        AsItemsStep(mid, ConfigRows(ms[..i], fmt), KV(m.key, Some(val)));
      } else {
        assert ConfigRows(ms[..i], fmt) + [] == ConfigRows(ms[..i], fmt);
      }
      i := i + 1;
    }
    assert ms[..i] == ms;
    ghost var rows := ConfigRows(ms, fmt);
    AddText(p, "");
    AsItemsStep(mid, rows, "");
    AsItemsAppend(["Configuration"], rows + [""]);
    Assoc(start, AsItems(["Configuration"]), AsItems(rows + [""]));
    assert ["Configuration"] + (rows + [""]) == ConfigSection(c, fmt);
  }

  /** The Summary section: its title, the status, runtime, timestamp, step
      and epoch rows, then a row for each further numeric member. */
  method AddSummary(p: Panel, s: RunSummary, fmt: Fixed)
    requires p.Valid() && KeyedChildren(s.json)
    modifies p`items, p`capacity, p`needsRedraw
    ensures p.Valid() && p.needsRedraw
    ensures p.items == old(p.items) + AsItems(SummaryRows(s, fmt))
  {
    ghost var start := p.items;
    AddText(p, "Summary");
    ghost var mid := p.items;
    AddKV(p, "status", Some(s.status));
    ghost var done := [KV("status", Some(s.status))];
    assert p.items == mid + AsItems(done);
    var rt := Runtime(s, fmt);
    AddKV(p, "_runtime", Some(rt));
    AsItemsStep(mid, done, KV("_runtime", Some(rt)));
    done := done + [KV("_runtime", Some(rt))];
    assert p.items == mid + AsItems(done);
    var ts := Timestamp(s, fmt);
    AddKV(p, "_timestamp", Some(ts));
    AsItemsStep(mid, done, KV("_timestamp", Some(ts)));
    done := done + [KV("_timestamp", Some(ts))];
    assert p.items == mid + AsItems(done);
    AddKI(p, "_step", s.step);
    AsItemsStep(mid, done, KI("_step", s.step));
    done := done + [KI("_step", s.step)];
    assert p.items == mid + AsItems(done);
    AddKI(p, "epoch", s.epoch);
    AsItemsStep(mid, done, KI("epoch", s.epoch));
    done := done + [KI("epoch", s.epoch)];
    assert done == SummaryFields(s, fmt);
    AddExtras(p, Members(s.json), fmt);
    AsItemsAppend(done, ExtraRows(Members(s.json), fmt));
    AsItemsAppend(["Summary"], done + ExtraRows(Members(s.json), fmt));
    Assoc(mid, AsItems(done), AsItems(ExtraRows(Members(s.json), fmt)));
    Assoc(start, AsItems(["Summary"]), AsItems(done + ExtraRows(Members(s.json), fmt)));
    Assoc(["Summary"], done, ExtraRows(Members(s.json), fmt));
  }

  /** The loop over the summary's members: numbers not shown already, in order. */
  method AddExtras(p: Panel, ms: seq<Member>, fmt: Fixed)
    requires p.Valid() && p.needsRedraw
    modifies p`items, p`capacity, p`needsRedraw
    ensures p.Valid() && p.needsRedraw
    ensures p.items == old(p.items) + AsItems(ExtraRows(ms, fmt))
  {
    ghost var start := p.items;
    var i := 0;
    while i < |ms|
      invariant 0 <= i <= |ms| && p.Valid() && p.needsRedraw
      invariant p.items == start + AsItems(ExtraRows(ms[..i], fmt))
    {
      var m := ms[i];
      ExtraRowsStep(ms, i, fmt);
      if !Shown(m.key) && m.value.JNumber? {
        var val := Cap(fmt(m.value.n, 4), SUMMARY_VALUE_BUFFER);
        AddKV(p, m.key, Some(val));
        AsItemsStep(start, ExtraRows(ms[..i], fmt), KV(m.key, Some(val)));
      } else {
        assert ExtraRows(ms[..i], fmt) + [] == ExtraRows(ms[..i], fmt);
      }
      i := i + 1;
    }
    assert ms[..i] == ms;
  }

  /**
   * RunPanel_setData: the panel is cleared (running its cleanup hook over
   * the old items) and refilled with the rows of the sections present, in
   * order; selection and scrolling start over.
   */
  method SetData(p: Panel, config: Option<RunConfig>, meta: Option<RunMetadata>, summary: Option<RunSummary>, fmt: Fixed)
    requires p.Valid()
    requires config.Some? ==> ConfigReadable(config.value.json)
    requires summary.Some? ==> KeyedChildren(summary.value.json)
    modifies p`items, p`capacity, p`needsRedraw, p`selected, p`scrollV, p`scrollH, p`cleanupLog
    ensures p.Valid()
    ensures p.items == AsItems(Rows(config, meta, summary, fmt))
    ensures p.selected == 0 && p.scrollV == 0 && p.scrollH == 0 && p.needsRedraw
    ensures p.cleanupLog == old(p.cleanupLog) + (if p.hasCleanup then DataOf(old(p.items)) else [])
  {
    p.Clear();
    Fill(p, config, meta, summary, fmt);
  }

  /** The rows of every section present, added after the existing items. */
  method Fill(p: Panel, config: Option<RunConfig>, meta: Option<RunMetadata>, summary: Option<RunSummary>, fmt: Fixed)
    requires p.Valid() && p.needsRedraw
    requires config.Some? ==> ConfigReadable(config.value.json)
    requires summary.Some? ==> KeyedChildren(summary.value.json)
    modifies p`items, p`capacity, p`needsRedraw
    ensures p.Valid() && p.needsRedraw
    ensures p.items == old(p.items) + AsItems(Rows(config, meta, summary, fmt))
  {
    ghost var start := p.items;
    AddTop(p, meta, summary);
    ghost var top := TopRows(meta, summary);
    ghost var env := EnvironmentPart(meta);
    ghost var conf := ConfigPart(config, fmt);
    ghost var sum := SummaryPart(summary, fmt);
    AddEnvironmentPart(p, meta);
    AsItemsAppend(top, env);
    Assoc(start, AsItems(top), AsItems(env));
    AddConfigPart(p, config, fmt);
    AsItemsAppend(top + env, conf);
    Assoc(start, AsItems(top + env), AsItems(conf));
    AddSummaryPart(p, summary, fmt);
    AsItemsAppend(top + env + conf, sum);
    Assoc(start, AsItems(top + env + conf), AsItems(sum));
    assert top + env + conf + sum == Rows(config, meta, summary, fmt);
  }

  method AddEnvironmentPart(p: Panel, meta: Option<RunMetadata>)
    requires p.Valid() && p.needsRedraw
    modifies p`items, p`capacity, p`needsRedraw
    ensures p.Valid() && p.needsRedraw
    ensures p.items == old(p.items) + AsItems(EnvironmentPart(meta))
  {
    if meta.Some? {
      AddEnvironment(p, meta.value);
    } else {
      assert p.items + [] == p.items;
    }
  }

  method AddConfigPart(p: Panel, config: Option<RunConfig>, fmt: Fixed)
    requires p.Valid() && p.needsRedraw
    requires config.Some? ==> ConfigReadable(config.value.json)
    modifies p`items, p`capacity, p`needsRedraw
    ensures p.Valid() && p.needsRedraw
    ensures p.items == old(p.items) + AsItems(ConfigPart(config, fmt))
  {
    if config.Some? {
      AddConfig(p, config.value, fmt);
    } else {
      assert p.items + [] == p.items;
    }
  }

  method AddSummaryPart(p: Panel, summary: Option<RunSummary>, fmt: Fixed)
    requires p.Valid() && p.needsRedraw
    requires summary.Some? ==> KeyedChildren(summary.value.json)
    modifies p`items, p`capacity, p`needsRedraw
    ensures p.Valid() && p.needsRedraw
    ensures p.items == old(p.items) + AsItems(SummaryPart(summary, fmt))
  {
    if summary.Some? {
      AddSummary(p, summary.value, fmt);
    } else {
      assert p.items + [] == p.items;
    }
  }
}
