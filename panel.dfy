/** The scrollable, focusable list widget of src/Panel.c. */
module Panels {
  import opened Wrappers
  import opened Constants
  import opened Items

  const INITIAL_CAPACITY: nat := 16
  /** Columns moved by one horizontal scroll key. */
  const H_SCROLL_STEP: int := 5

  /** One entry: its label and the optional data the owner attached. */
  datatype PanelItem = PanelItem(text: string, data: Option<ItemData>)

  /** Which item drawer is installed; each draws through the terminal. */
  datatype Drawer = DefaultDrawer | MetricsDrawer | SystemDrawer | RunDrawer

  /** One call of the item drawer made by Panel_draw. */
  datatype DrawCall = DrawCall(index: int, y: int, x: int, w: int, selected: bool)

  /** Item capacities the growth policy can reach: 16 doubled k times. */
  ghost predicate IsCapacity(c: nat)
    decreases c
  {
    c == INITIAL_CAPACITY || (c > INITIAL_CAPACITY && c % 2 == 0 && IsCapacity(c / 2))
  }

  /** Doubling keeps a capacity reachable by the growth policy. */
  lemma CapacityDoubles(c: nat)
    requires IsCapacity(c)
    ensures IsCapacity(2 * c) && 2 * c > c
  {
    assert (2 * c) / 2 == c;
  }

  /** The data of the items that carry some, in item order: what the
      cleanup hook is called on. */
  function DataOf(items: seq<PanelItem>): (r: seq<ItemData>)
    ensures |r| <= |items|
    ensures (forall i :: 0 <= i < |items| ==> items[i].data.None?) ==> r == []
  {
    if items == [] then []
    else DataOf(items[..|items| - 1])
         + (if items[|items| - 1].data.Some? then [items[|items| - 1].data.value] else [])
  }

  /** The cleanup calls of one more item. */
  lemma DataOfPrefix(items: seq<PanelItem>, i: nat)
    requires i < |items|
    ensures DataOf(items[..i + 1]) == DataOf(items[..i])
              + (if items[i].data.Some? then [items[i].data.value] else [])
  {
    assert items[..i + 1][..i] == items[..i];
  }

  /** By induction on b: the cleanup calls of two lists run back to back are
      those of their concatenation. */
  lemma {:induction false} DataOfAppend(a: seq<PanelItem>, b: seq<PanelItem>)
    ensures DataOf(a + b) == DataOf(a) + DataOf(b)
    decreases |b|
  {
    if b == [] {
      assert a + b == a;
    } else {
      var b' := b[..|b| - 1];
      assert (a + b)[..|a + b| - 1] == a + b';
      DataOfAppend(a, b');
    }
  }

  /** `s` with `x` placed at `i`, later entries shifted one place right. */
  function InsertAt<T>(s: seq<T>, i: int, x: T): (r: seq<T>)
    requires 0 <= i <= |s|
    ensures |r| == |s| + 1 && r[i] == x
    ensures forall j :: 0 <= j < i ==> r[j] == s[j]
    ensures forall j :: i < j < |r| ==> r[j] == s[j - 1]
  {
    s[..i] + [x] + s[i..]
  }

  /** `s` without the entry at `i`, later entries shifted one place left. */
  function RemoveAt<T>(s: seq<T>, i: int): (r: seq<T>)
    requires 0 <= i < |s|
    ensures |r| == |s| - 1
    ensures forall j :: 0 <= j < i ==> r[j] == s[j]
    ensures forall j :: i <= j < |r| ==> r[j] == s[j + 1]
  {
    s[..i] + s[i + 1..]
  }

  /** Removing an item just inserted at the same index restores the list. */
  lemma RemoveInsert<T>(s: seq<T>, i: int, x: T)
    requires 0 <= i <= |s|
    ensures RemoveAt(InsertAt(s, i, x), i) == s
  {
    var r := RemoveAt(InsertAt(s, i, x), i);
    assert forall j :: 0 <= j < |s| ==> r[j] == s[j];
  }

  /** The largest valid selection index: max(0, count - 1). */
  function MaxSelection(count: int): int {
    Max(0, count - 1)
  }

  /** The scroll-to-selection rule of Panel_draw, then the clamp: the
      selection ends inside the visible window, and the window does not run
      past the last page. */
  function ScrollToSelection(selected: int, scroll: int, count: int, visible: int): (r: int)
    requires visible >= 1
    requires 0 <= selected <= MaxSelection(count)
    ensures 0 <= r <= Max(0, count - visible)
    ensures r <= selected < r + visible
    ensures scroll <= selected < scroll + visible && scroll <= Max(0, count - visible) && scroll >= 0 ==> r == scroll
  {
    var s := if selected < scroll then selected
             else if selected >= scroll + visible then selected - visible + 1
             else scroll;
    Clamp(s, 0, Max(0, count - visible))
  }

  /** Is `key` one of the built-in bindings of Panel_onKey? */
  predicate IsBoundKey(key: int) {
    || key == KEY_UP || key == Ch('k') || key == KEY_DOWN || key == Ch('j')
    || key == KEY_PPAGE || key == KEY_NPAGE
    || key == KEY_HOME || key == Ch('g') || key == KEY_END || key == Ch('G')
    || IsHorizontalKey(key)
  }

  /** The left/right bindings, which scroll horizontally. */
  predicate IsHorizontalKey(key: int) {
    key == KEY_LEFT || key == Ch('h') || key == KEY_RIGHT || key == Ch('l')
  }

  /** The horizontal scroll after a key: left lowers by 5, floored at 0;
      right raises by 5; other keys leave it. */
  function ScrollHAfter(key: int, scrollH: int): (r: int)
    requires scrollH >= 0
    ensures r >= 0
    ensures (key == KEY_LEFT || key == Ch('h')) ==> r == Max(0, scrollH - H_SCROLL_STEP)
    ensures (key == KEY_RIGHT || key == Ch('l')) ==> r == scrollH + H_SCROLL_STEP
    ensures !IsHorizontalKey(key) ==> r == scrollH
  {
    if key == KEY_LEFT || key == Ch('h') then
      (if scrollH > 0 then (if scrollH - H_SCROLL_STEP < 0 then 0 else scrollH - H_SCROLL_STEP) else scrollH)
    else if key == KEY_RIGHT || key == Ch('l') then scrollH + H_SCROLL_STEP
    else scrollH
  }

  /** The selection a bound key asks for, before clamping. */
  function SelectionRequest(key: int, selected: int, count: int, page: int): int {
    if key == KEY_UP || key == Ch('k') then selected - 1
    else if key == KEY_DOWN || key == Ch('j') then selected + 1
    else if key == KEY_PPAGE then selected - page
    else if key == KEY_NPAGE then selected + page
    else if key == KEY_HOME || key == Ch('g') then 0
    else if key == KEY_END || key == Ch('G') then count - 1
    else selected
  }

  /** The vertical scroll a bound key asks for, before clamping: only the
      page keys move it directly. */
  function ScrollRequest(key: int, scroll: int, page: int): int {
    if key == KEY_PPAGE then scroll - page
    else if key == KEY_NPAGE then scroll + page
    else scroll
  }

  /** Whether Panel_onKey reports `key` as consumed, given what the custom
      event handler returned for it. */
  predicate Consumes(hasEventHandler: bool, handlerResult: nat, count: int, key: int) {
    (hasEventHandler && IsHandled(handlerResult)) || (count > 0 && IsBoundKey(key))
  }

  /** What a panel holds apart from where it sits and its dirty and focus
      flags: its header, items and their array, the selection and both
      scrolls, the item height, the installed hooks and the cleanup calls
      made so far. */
  datatype PanelContent = PanelContent(
    header: Option<string>, items: seq<PanelItem>, capacity: nat,
    selected: int, scrollV: int, scrollH: int, itemHeight: int,
    hasEventHandler: bool, drawer: Drawer, hasCleanup: bool, hasResizeHook: bool, cleanupLog: seq<ItemData>)

  /** Where a panel sits: position, size and separator flag. */
  datatype PanelGeometry = PanelGeometry(x: int, y: int, w: int, h: int, drawRightSeparator: bool)

  /** What a bound key does to a non-empty panel holding `c` whose height
      is `h`: the selection and the vertical scroll move as the key asks
      and are clamped back into range, and the horizontal scroll follows
      ScrollHAfter. Nothing else the panel holds changes. */
  function BoundContent(c: PanelContent, h: int, key: int): (r: PanelContent)
    requires c.scrollH >= 0
    ensures r.(selected := c.selected, scrollV := c.scrollV, scrollH := c.scrollH) == c
    ensures |c.items| > 0 ==> 0 <= r.selected < |c.items|
    ensures r.scrollV >= 0 && r.scrollH >= 0
  {
    var page := h - (if c.header.Some? then 2 else 1);
    c.(selected := Clamp(SelectionRequest(key, c.selected, |c.items|, page), 0, |c.items| - 1),
       scrollV := Clamp(ScrollRequest(key, c.scrollV, page), 0, Max(0, |c.items| - page)),
       scrollH := ScrollHAfter(key, c.scrollH))
  }

  /** What Panel_onKey leaves in a panel holding `c`: a HANDLED answer from
      the event handler, an empty panel or an unbound key change nothing;
      a bound key acts as BoundContent says. */
  function KeyContent(c: PanelContent, h: int, key: int, handlerResult: nat): (r: PanelContent)
    requires c.scrollH >= 0
    ensures !Consumes(c.hasEventHandler, handlerResult, |c.items|, key) ==> r == c
    ensures c.hasEventHandler && IsHandled(handlerResult) ==> r == c
    ensures r.items == c.items && r.header == c.header && r.hasEventHandler == c.hasEventHandler
  {
    if (c.hasEventHandler && IsHandled(handlerResult)) || |c.items| == 0 || !IsBoundKey(key) then c
    else BoundContent(c, h, key)
  }

  class Panel {
    var x: int
    var y: int
    var w: int
    var h: int
    var header: Option<string>
    var items: seq<PanelItem>
    /** item_capacity: the size of the backing array. */
    var capacity: nat
    var selected: int
    var scrollV: int
    var scrollH: int
    var itemHeight: int
    var needsRedraw: bool
    var hasFocus: bool
    var drawRightSeparator: bool
    /** Installed hooks. The event handler's result is passed to OnKey. */
    var hasEventHandler: bool
    var drawer: Drawer
    var hasCleanup: bool
    var hasResizeHook: bool
    /** Every call made to the cleanup hook, in order. */
    var cleanupLog: seq<ItemData>

    ghost predicate Valid()
      reads this
    {
      && capacity >= INITIAL_CAPACITY
      && |items| <= capacity
      && 0 <= selected <= MaxSelection(|items|)
      && scrollV >= 0
      && scrollH >= 0
      && itemHeight >= 1
    }

    function Content(): PanelContent
      reads this
    {
      PanelContent(header, items, capacity, selected, scrollV, scrollH, itemHeight,
                   hasEventHandler, drawer, hasCleanup, hasResizeHook, cleanupLog)
    }

    function Geometry(): PanelGeometry
      reads this
    {
      PanelGeometry(x, y, w, h, drawRightSeparator)
    }

    /** The selected index, -1 on an empty panel (Panel_getSelectedIndex). */
    function SelectedIndex(): (r: int)
      reads this
      requires Valid()
      ensures |items| == 0 <==> r == -1
      ensures |items| > 0 ==> 0 <= r < |items|
    {
      if |items| == 0 then -1 else selected
    }

    /** Panel_getItem: the item at `index`, or none when out of range. */
    function GetItem(index: int): (r: Option<PanelItem>)
      reads this
      ensures r.Some? <==> 0 <= index < |items|
      ensures r.Some? ==> r.value == items[index]
    {
      if 0 <= index < |items| then Some(items[index]) else None
    }

    /** Rows left for items once the header and the top border are drawn. */
    function AvailableHeight(): int
      reads this
    {
      h - (if header.Some? then 1 else 0) - 1
    }

    /** How many items fit: max(1, available_height / item_height). */
    function VisibleItems(): (r: int)
      reads this
      requires itemHeight >= 1
      ensures r >= 1
    {
      Max(1, CDiv(AvailableHeight(), itemHeight))
    }

    /** Panel_new. */
    constructor (x0: int, y0: int, w0: int, h0: int, header0: Option<string>)
      ensures Valid()
      ensures x == x0 && y == y0 && w == w0 && h == h0 && header == header0
      ensures items == [] && capacity == INITIAL_CAPACITY
      ensures selected == 0 && scrollV == 0 && scrollH == 0 && itemHeight == 1
      ensures needsRedraw && !hasFocus && !drawRightSeparator
      ensures !hasEventHandler && drawer == DefaultDrawer && !hasCleanup && !hasResizeHook
      ensures cleanupLog == []
    {
      x, y, w, h := x0, y0, w0, h0;
      header := header0;
      items := [];
      capacity := INITIAL_CAPACITY;
      selected, scrollV, scrollH := 0, 0, 0;
      itemHeight := 1;
      needsRedraw := true;
      hasFocus := false;
      drawRightSeparator := false;
      hasEventHandler := false;
      drawer := DefaultDrawer;
      hasCleanup := false;
      hasResizeHook := false;
      cleanupLog := [];
    }

    method SetEventHandler(installed: bool)
      modifies this`hasEventHandler
      ensures hasEventHandler == installed
    {
      hasEventHandler := installed;
    }

    method SetDrawItem(d: Drawer)
      modifies this`drawer
      ensures drawer == d
    {
      drawer := d;
    }

    method SetCleanupCallback(installed: bool)
      modifies this`hasCleanup
      ensures hasCleanup == installed
    {
      hasCleanup := installed;
    }

    /** Panel_setResizeCallback has no body in src/Panel.c; a plain setter. */
    method SetResizeCallback(installed: bool)
      modifies this`hasResizeHook
      ensures hasResizeHook == installed
    {
      hasResizeHook := installed;
    }

    /** Panel_setDrawRightSeparator has no body in src/Panel.c; a plain setter. */
    method SetDrawRightSeparator(draw: bool)
      requires Valid()
      modifies this`drawRightSeparator
      ensures Valid()
      ensures drawRightSeparator == draw
    {
      drawRightSeparator := draw;
    }

    method SetHeader(text: Option<string>)
      modifies this`header, this`needsRedraw
      ensures header == text && needsRedraw
    {
      header := text;
      needsRedraw := true;
    }

    method Move(x0: int, y0: int)
      requires Valid()
      modifies this`x, this`y, this`needsRedraw
      ensures Valid()
      ensures x == x0 && y == y0 && needsRedraw
    {
      x, y := x0, y0;
      needsRedraw := true;
    }

    /** Panel_resize sets the size and the dirty flag; it calls no hook. */
    method Resize(w0: int, h0: int)
      requires Valid()
      modifies this`w, this`h, this`needsRedraw
      ensures Valid()
      ensures w == w0 && h == h0 && needsRedraw
    {
      w, h := w0, h0;
      needsRedraw := true;
    }

    /** Panel_setItemHeight ignores non-positive heights. */
    method SetItemHeight(newHeight: int)
      requires Valid()
      modifies this`itemHeight, this`needsRedraw
      ensures Valid()
      ensures newHeight > 0 ==> itemHeight == newHeight && needsRedraw
      ensures newHeight <= 0 ==> itemHeight == old(itemHeight) && needsRedraw == old(needsRedraw)
    {
      if newHeight > 0 {
        itemHeight := newHeight;
        needsRedraw := true;
      }
    }

    method SetNeedsRedraw()
      requires Valid()
      modifies this`needsRedraw
      ensures Valid()
      ensures needsRedraw
    {
      needsRedraw := true;
    }

    /** Focus changes the header and border styling, so it forces a redraw. */
    method SetFocus(focus: bool)
      requires Valid()
      modifies this`hasFocus, this`needsRedraw
      ensures Valid()
      ensures hasFocus == focus && needsRedraw
    {
      hasFocus := focus;
      needsRedraw := true;
    }

    /** Panel_addItem: a NULL text is refused with -1; otherwise the item
        goes at the end, the backing array doubling when full. */
    method AddItem(text: Option<string>, data: Option<ItemData>) returns (index: int)
      requires Valid()
      modifies this`items, this`capacity, this`needsRedraw
      ensures Valid()
      ensures text.None? ==> index == -1 && items == old(items) && capacity == old(capacity)
                             && needsRedraw == old(needsRedraw)
      ensures text.Some? ==> index == old(|items|) && items == old(items) + [PanelItem(text.value, data)]
                             && needsRedraw
      ensures text.Some? ==> capacity == if old(|items|) >= old(capacity) then 2 * old(capacity) else old(capacity)
    {
      if text.None? {
        return -1;
      }
      if |items| >= capacity {
        capacity := capacity * 2;
      }
      index := |items|;
      items := items + [PanelItem(text.value, data)];
      needsRedraw := true;
    }

    /** Panel_insertItem: a NULL text or a negative index does nothing; an
        index at or past the end appends; otherwise later items shift right. */
    method InsertItem(index: int, text: Option<string>, data: Option<ItemData>)
      requires Valid()
      modifies this`items, this`capacity, this`needsRedraw
      ensures Valid()
      ensures text.None? || index < 0 ==> items == old(items) && capacity == old(capacity)
                                          && needsRedraw == old(needsRedraw)
      ensures text.Some? && index >= old(|items|) ==> items == old(items) + [PanelItem(text.value, data)]
      ensures text.Some? && 0 <= index < old(|items|) ==>
                items == InsertAt(old(items), index, PanelItem(text.value, data))
      ensures text.Some? && index >= 0 ==> needsRedraw
      ensures text.Some? && index >= 0 ==>
                capacity == if old(|items|) >= old(capacity) then 2 * old(capacity) else old(capacity)
    {
      if text.None? || index < 0 {
        return;
      }
      if index >= |items| {
        var _ := AddItem(text, data);
        return;
      }
      if |items| >= capacity {
        capacity := capacity * 2;
      }
      items := InsertAt(items, index, PanelItem(text.value, data));
      needsRedraw := true;
    }

    /** Panel_removeItem: removes exactly one item and moves the selection
        back inside the list. The cleanup hook is NOT called. */
    method RemoveItem(index: int) returns (removed: bool)
      requires Valid()
      modifies this`items, this`selected, this`needsRedraw
      ensures Valid()
      ensures removed <==> 0 <= index < old(|items|)
      ensures !removed ==> items == old(items) && selected == old(selected) && needsRedraw == old(needsRedraw)
      ensures removed ==> items == RemoveAt(old(items), index) && needsRedraw
      ensures removed ==> selected == if old(selected) >= |items| && |items| > 0 then |items| - 1 else old(selected)
      ensures cleanupLog == old(cleanupLog)
    {
      if index < 0 || index >= |items| {
        return false;
      }
      items := RemoveAt(items, index);
      if selected >= |items| && |items| > 0 {
        selected := |items| - 1;
      }
      needsRedraw := true;
      return true;
    }

    /** Panel_clear: the cleanup hook runs once per item that carries data,
        in item order; then the list, selection and scroll reset. */
    method Clear()
      requires Valid()
      modifies this`items, this`selected, this`scrollV, this`scrollH, this`needsRedraw, this`cleanupLog
      ensures Valid()
      ensures cleanupLog == old(cleanupLog) + (if hasCleanup then DataOf(old(items)) else [])
      ensures items == [] && selected == 0 && scrollV == 0 && scrollH == 0 && needsRedraw
    {
      var i := 0;
      while i < |items|
        invariant 0 <= i <= |items|
        invariant cleanupLog == old(cleanupLog) + (if hasCleanup then DataOf(items[..i]) else [])
        modifies this`cleanupLog
      {
        DataOfPrefix(items, i);
        if hasCleanup && items[i].data.Some? {
          cleanupLog := cleanupLog + [items[i].data.value];
        }
        i := i + 1;
      }
      assert items[..i] == items;
      items := [];
      selected, scrollV, scrollH := 0, 0, 0;
      needsRedraw := true;
    }

    /** Panel_setSelected: 0 on an empty panel (no redraw requested),
        otherwise clamped into [0, count-1]. */
    method SetSelected(index: int)
      requires Valid()
      modifies this`selected, this`needsRedraw
      ensures Valid()
      ensures |items| == 0 ==> selected == 0 && needsRedraw == old(needsRedraw)
      ensures |items| > 0 ==> selected == Clamp(index, 0, |items| - 1) && needsRedraw
      ensures |items| > 0 && 0 <= index < |items| ==> selected == index
    {
      if |items| == 0 {
        selected := 0;
        return;
      }
      selected := Clamp(index, 0, |items| - 1);
      needsRedraw := true;
    }

    /** The scroll and visible-range part of Panel_draw. Nothing happens
        unless the panel is dirty or the redraw is forced; otherwise the
        window scrolls to the selection, each visible item is handed to the
        item drawer, and the panel is clean afterwards. */
    method Draw(force: bool) returns (calls: seq<DrawCall>)
      requires Valid()
      modifies this`scrollV, this`needsRedraw
      ensures Valid()
      ensures Drew(this, force, calls, old(needsRedraw), old(Content()))
    {
      if !needsRedraw && !force {
        return [];
      }
      var visible := VisibleItems();
      scrollV := ScrollToSelection(selected, scrollV, |items|, visible);
      var first := scrollV;
      var last := Min(first + visible, |items|);
      calls := [];
      var i := first;
      while i < last
        invariant first <= i <= last || (last < first && i == first)
        invariant |calls| == i - first
        invariant forall k :: 0 <= k < |calls| ==>
                    calls[k] == DrawCall(first + k, ItemsTop() + k * itemHeight, x, w - 2, first + k == selected)
      {
        calls := calls + [DrawCall(i, ItemsTop() + (i - first) * itemHeight, x, w - 2, i == selected)];
        i := i + 1;
      }
      needsRedraw := false;
    }

    /** The row where the first visible item starts: below the header, if
        any, and the top border. */
    function ItemsTop(): int
      reads this
    {
      y + (if header.Some? then 1 else 0) + 1
    }

    /** Panel_onKey. `handlerResult` is what the installed event handler
        returned for this key; a HANDLED result consumes the key at once.
        Otherwise an empty panel refuses every key, a bound key moves the
        selection or scroll and is consumed, and any other key is refused.
        KEY_LEFT and KEY_RIGHT are bindings, so they are consumed even when
        the handler answered IGNORED. */
    method OnKey(key: int, handlerResult: nat) returns (consumed: bool)
      requires Valid()
      modifies this`selected, this`scrollV, this`scrollH, this`needsRedraw
      ensures Valid()
      ensures hasEventHandler && IsHandled(handlerResult) ==> consumed
      ensures consumed == Consumes(hasEventHandler, handlerResult, |items|, key)
      ensures Content() == KeyContent(old(Content()), h, key, handlerResult)
      ensures needsRedraw == (old(needsRedraw) || selected != old(selected) || scrollV != old(scrollV))
    {
      if hasEventHandler && IsHandled(handlerResult) {
        return true;
      }
      var size := |items|;
      if size == 0 {
        return false;
      }
      if !IsBoundKey(key) {
        return false;
      }
      ApplyBinding(key);
      return true;
    }

    /** The effect of a bound key on a non-empty panel: the selection and
        vertical scroll move and are clamped back into range, `h`/`l` and the
        arrows scroll horizontally, and the panel is dirty if either the
        selection or the vertical scroll changed. */
    method ApplyBinding(key: int)
      requires Valid() && |items| > 0
      modifies this`selected, this`scrollV, this`scrollH, this`needsRedraw
      ensures Valid()
      ensures Content() == BoundContent(old(Content()), h, key)
      ensures needsRedraw == (old(needsRedraw) || selected != old(selected) || scrollV != old(scrollV))
    {
      var next := BoundContent(Content(), h, key);
      if next.selected != selected || next.scrollV != scrollV {
        needsRedraw := true;
      }
      selected, scrollV, scrollH := next.selected, next.scrollV, next.scrollH;
    }
  }

  /** What Panel_draw did to `p`, which was dirty (`dirty0`) and held `c0`
      before: of what it holds only the vertical scroll may change; a clean,
      unforced panel is left alone; otherwise
      the window scrolls to the selection and every visible item is handed
      to the item drawer, top to bottom. Either way the panel is clean. */
  ghost predicate Drew(p: Panel, force: bool, calls: seq<DrawCall>, dirty0: bool, c0: PanelContent)
    reads p
  {
    && p.Valid()
    && !p.needsRedraw
    && p.Content() == c0.(scrollV := p.scrollV)
    && (!dirty0 && !force ==> calls == [] && p.scrollV == c0.scrollV)
    && (dirty0 || force ==>
          && p.scrollV == ScrollToSelection(p.selected, c0.scrollV, |p.items|, p.VisibleItems())
          && FullyDrawn(p, calls))
  }

  /** `calls` hands every item in `p`'s window to the item drawer, one
      item height apart, with the selected one highlighted. */
  ghost predicate FullyDrawn(p: Panel, calls: seq<DrawCall>)
    reads p
    requires p.Valid()
  {
    && |calls| == Min(p.scrollV + p.VisibleItems(), |p.items|) - p.scrollV
    && forall k :: 0 <= k < |calls| ==>
         calls[k] == DrawCall(p.scrollV + k, p.ItemsTop() + k * p.itemHeight, p.x, p.w - 2,
                              p.scrollV + k == p.selected)
  }
}
