/** SystemPanel: the sidebar of system metrics, drawn as "key  value"
    rows with the value in a column of its own, each side cut with ".."
    when it does not fit. */
module SystemPanel {
  import opened Wrappers
  import opened Constants
  import opened Text
  import opened Screen
  import opened Panels

  const DEFAULT_OFFSET: int := 22
  const HEADER: string := "System Metrics"

  /** The value column relative to the item's left edge: the standard
      indentation on a wide item; on a narrow one, 8 columns are kept for
      the value; never closer than 2 to the left edge. */
  function ValueOffset(w: int): (r: int)
    ensures 2 <= r < 24
    ensures w >= 32 ==> r == DEFAULT_OFFSET
    ensures 10 <= w < 32 ==> w - r == 8
    ensures w < 10 ==> r == 2
  {
    var offset := if w < 32 then w - 8 else DEFAULT_OFFSET;
    if offset < 2 then 2 else offset
  }

  /** A cell cut with "..": its text shown whole when it is at most `room`
      long, otherwise its first `room - 2` characters (none when `room` is
      2 or less) followed by "..". */
  function Clip(s: string, room: int): (r: string)
    ensures |s| <= room ==> r == s
    ensures |s| > room ==> |r| == Max(room, 2) && r[|r| - 2..] == ".." && r[..|r| - 2] <= s
  {
    if |s| > room then PrintfPrecision(s, if room > 2 then room - 2 else 0) + ".." else s
  }

  /** SystemPanel_drawItem: nothing for a missing item; otherwise the row
      is blanked, and a "key\tvalue" text is drawn as the key (one column
      left free before the value column) and the value at the value
      column, each clipped to its room; a text without a tab is drawn cut
      to the item's width. */
  function DrawItem(item: Option<PanelItem>, y: int, x: int, w: int): (r: seq<Write>)
    ensures item.None? <==> r == []
    ensures item.Some? ==> r[0] == Blank(y, x, w)
    ensures item.Some? && '\t' !in item.value.text ==> r == [Blank(y, x, w), Print(y, x, PrintfPrecision(item.value.text, w))]
  {
    match item
    case None => []
    case Some(it) =>
      var offset := ValueOffset(w);
      var text := it.text;
      match IndexOf(text, '\t')
      case None => [Blank(y, x, w), Print(y, x, PrintfPrecision(text, w))]
      case Some(k) =>
        [Blank(y, x, w), Print(y, x, Clip(text[..k], offset - 1)), Print(y, x + offset, Clip(text[k + 1..], w - offset))]
  }

  /** The key and the value of a row with a tab: the text before the first
      tab and the text after it. */
  function Split(text: string): (r: Option<(string, string)>)
    ensures r.Some? <==> '\t' in text
    ensures r.Some? ==> text == r.value.0 + "\t" + r.value.1 && '\t' !in r.value.0
  {
    match IndexOf(text, '\t')
    case None => None
    case Some(k) =>
      assert text == text[..k] + "\t" + text[k + 1..];
      Some((text[..k], text[k + 1..]))
  }

  /** A row with a tab is drawn as its key at the left edge and its value
      at the value column, each clipped to its room. */
  lemma DrawKeyValue(it: PanelItem, y: int, x: int, w: int)
    requires Split(it.text).Some?
    ensures var (key, val) := Split(it.text).value;
            var offset := ValueOffset(w);
            DrawItem(Some(it), y, x, w)
              == [Blank(y, x, w), Print(y, x, Clip(key, offset - 1)), Print(y, x + offset, Clip(val, w - offset))]
  {
  }

  /** A write that puts no text outside columns [x, x + w). */
  predicate Inside(wr: Write, x: int, w: int) {
    wr.Print? ==> x <= wr.col && wr.col + |wr.text| <= x + w
  }

  /** On an item at least 4 columns wide every text drawn stays inside the
      item, and the key ends before the value column starts. */
  lemma DrawItemInside(item: Option<PanelItem>, y: int, x: int, w: int)
    requires w >= 4
    ensures forall i :: 0 <= i < |DrawItem(item, y, x, w)| ==> Inside(DrawItem(item, y, x, w)[i], x, w)
    ensures item.Some? && '\t' in item.value.text ==>
              DrawItem(item, y, x, w)[1].col + |DrawItem(item, y, x, w)[1].text| <= DrawItem(item, y, x, w)[2].col
  {
    if item.Some? {
      var r := DrawItem(item, y, x, w);
      var offset := ValueOffset(w);
      match IndexOf(item.value.text, '\t')
      case None =>
        assert Inside(r[1], x, w);
      case Some(k) =>
        var key := Clip(item.value.text[..k], offset - 1);
        var val := Clip(item.value.text[k + 1..], w - offset);
        assert r == [Blank(y, x, w), Print(y, x, key), Print(y, x + offset, val)];
        assert |key| <= offset;
        assert |val| <= w - offset;
        assert Inside(r[1], x, w) && Inside(r[2], x, w);
    }
  }

  /** A key with room before the value column and a value with room after
      it are drawn whole, and a key that leaves a free column keeps it. */
  lemma DrawItemWhole(it: PanelItem, y: int, x: int, w: int)
    requires Split(it.text).Some?
    requires |Split(it.text).value.0| < ValueOffset(w)
    requires |Split(it.text).value.1| <= w - ValueOffset(w)
    ensures DrawItem(Some(it), y, x, w)
              == [Blank(y, x, w), Print(y, x, Split(it.text).value.0), Print(y, x + ValueOffset(w), Split(it.text).value.1)]
  {
    DrawKeyValue(it, y, x, w);
  }

  /** SystemPanel_new: a panel titled "System Metrics" drawn by this
      module's item drawer, one line per item. */
  method New(x0: int, y0: int, w0: int, h0: int) returns (p: Panel)
    ensures fresh(p) && p.Valid()
    ensures p.x == x0 && p.y == y0 && p.w == w0 && p.h == h0 && p.header == Some(HEADER)
    ensures p.drawer == SystemDrawer && p.itemHeight == 1 && p.items == []
    ensures p.selected == 0 && p.scrollV == 0 && p.scrollH == 0 && p.needsRedraw
    ensures !p.hasFocus && !p.hasEventHandler && !p.hasCleanup && !p.hasResizeHook
  {
    p := new Panel(x0, y0, w0, h0, Some(HEADER));
    p.SetDrawItem(SystemDrawer);
  }
}
