/** FunctionBar: the bottom status bar, a context text on the left and
    key/label pairs packed from the right edge leftwards. Drawing is
    modelled as the list of screen writes it makes. */
module FunctionBar {
  import opened Wrappers
  import opened Text
  import opened Screen

  const MAX_CONTEXT_LEN: nat := 256
  const MAX_KEYS: nat := 15

  /**
   * FunctionBar_new reads keys[i] and then labels[i] until either is NULL
   * or MAX_KEYS pairs are copied (the bound is tested after both reads):
   * every element it reads lies inside its array.
   */
  predicate Readable(keys: seq<Option<string>>, labels: seq<Option<string>>, i: nat)
    decreases MAX_KEYS - i
  {
    && i < |keys|
    && (keys[i].Some? ==> i < |labels| && (labels[i].Some? && i < MAX_KEYS ==> Readable(keys, labels, i + 1)))
  }

  /** Where the drawing loop puts pair `i - 1`, `i - 2`, ... with its
      cursor at column `x`: (pair index, start column) for each pair, as
      long as they start at `floor` or right of it. */
  function Placed(keys: seq<string>, labels: seq<string>, i: nat, x: int, floor: int): (r: seq<(nat, int)>)
    requires i <= |keys| == |labels|
    ensures |r| <= i
    ensures forall j :: 0 <= j < |r| ==> r[j].0 == i - 1 - j
    decreases i
  {
    if i == 0 then []
    else
      var c := x - (|keys[i - 1]| + |labels[i - 1]| + 2);
      if c < floor then [] else [(i - 1, c)] + Placed(keys, labels, i - 1, c - 2, floor)
  }

  /** The writes for the placed pairs: the key at its column, then
      ":" and the label right after it. */
  function PairWrites(keys: seq<string>, labels: seq<string>, y: int, placed: seq<(nat, int)>): seq<Write>
    requires |keys| == |labels|
    requires forall j :: 0 <= j < |placed| ==> placed[j].0 < |keys|
  {
    if |placed| == 0 then []
    else
      var (i, c) := placed[0];
      [Print(y, c, keys[i]), Print(y, c + |keys[i]|, ":" + labels[i])]
        + PairWrites(keys, labels, y, placed[1..])
  }

  /** Placement goes from the last pair towards the first, one pair at a
      time, with start columns strictly decreasing and never left of the
      floor; each pair ends (key, ':' and label) at most at column x - 2, and
      three blank columns separate one pair from the next. */
  lemma {:induction false} PlacedShape(keys: seq<string>, labels: seq<string>, i: nat, x: int, floor: int)
    requires i <= |keys| == |labels|
    ensures forall j :: 0 <= j < |Placed(keys, labels, i, x, floor)| ==> Placed(keys, labels, i, x, floor)[j].1 >= floor
    ensures |Placed(keys, labels, i, x, floor)| > 0 ==>
              var (k, c) := Placed(keys, labels, i, x, floor)[0];
              c + |keys[k]| + 1 + |labels[k]| == x - 1
    ensures forall j :: 0 <= j < |Placed(keys, labels, i, x, floor)| - 1 ==>
              var (k, c) := Placed(keys, labels, i, x, floor)[j + 1];
              c + |keys[k]| + 1 + |labels[k]| + 3 == Placed(keys, labels, i, x, floor)[j].1
    decreases i
  {
    if i > 0 {
      var c := x - (|keys[i - 1]| + |labels[i - 1]| + 2);
      if c >= floor {
        PlacedShape(keys, labels, i - 1, c - 2, floor);
        var rest := Placed(keys, labels, i - 1, c - 2, floor);
        assert Placed(keys, labels, i, x, floor) == [(i - 1, c)] + rest;
      }
    }
  }

  /** The loop stops at the first pair that would start left of the floor:
      if not every pair is drawn, the next one does not fit. */
  lemma {:induction false} PlacedStops(keys: seq<string>, labels: seq<string>, i: nat, x: int, floor: int)
    requires i <= |keys| == |labels|
    requires |Placed(keys, labels, i, x, floor)| < i
    ensures var p := Placed(keys, labels, i, x, floor);
            var k := i - 1 - |p|;
            var right := if |p| == 0 then x else p[|p| - 1].1 - 2;
            right - (|keys[k]| + |labels[k]| + 2) < floor
    decreases i
  {
    var c := x - (|keys[i - 1]| + |labels[i - 1]| + 2);
    if c >= floor {
      PlacedStops(keys, labels, i - 1, c - 2, floor);
      var rest := Placed(keys, labels, i - 1, c - 2, floor);
      assert Placed(keys, labels, i, x, floor) == [(i - 1, c)] + rest;
    }
  }

  /** One turn of the drawing loop: pair `i` is placed at the cursor minus
      its width, or placement ends. */
  lemma PlacedStep(keys: seq<string>, labels: seq<string>, i: nat, x: int, floor: int, y: int)
    requires i < |keys| == |labels|
    ensures var c := x - (|keys[i]| + |labels[i]| + 2);
            && (c < floor ==> Placed(keys, labels, i + 1, x, floor) == [])
            && (c >= floor ==> PairWrites(keys, labels, y, Placed(keys, labels, i + 1, x, floor))
                               == [Print(y, c, keys[i]), Print(y, c + |keys[i]|, ":" + labels[i])]
                                  + PairWrites(keys, labels, y, Placed(keys, labels, i, c - 2, floor)))
  {
    var c := x - (|keys[i]| + |labels[i]| + 2);
    if c >= floor {
      var rest := Placed(keys, labels, i, c - 2, floor);
      assert Placed(keys, labels, i + 1, x, floor) == [(i, c)] + rest;
      assert ([(i, c)] + rest)[1..] == rest;
    }
  }

  class FunctionBar {
    var keys: seq<string>
    var labels: seq<string>
    var context: string

    ghost predicate Valid()
      reads this
    {
      |keys| == |labels| <= MAX_KEYS && |context| < MAX_CONTEXT_LEN
    }

    /** FunctionBar_new: the pairs before the first NULL key or label, at
        most MAX_KEYS of them, in order; an empty context. */
    constructor (keysIn: seq<Option<string>>, labelsIn: seq<Option<string>>)
      requires Readable(keysIn, labelsIn, 0)
      ensures Valid()
      ensures |keys| < |keysIn|
      ensures forall j :: 0 <= j < |keys| ==> j < |labelsIn| && keysIn[j] == Some(keys[j]) && labelsIn[j] == Some(labels[j])
      ensures |keys| < MAX_KEYS ==> keysIn[|keys|].None? || (|keys| < |labelsIn| && labelsIn[|keys|].None?)
      ensures context == ""
    {
      var ks: seq<string> := [];
      var ls: seq<string> := [];
      var i := 0;
      while keysIn[i].Some? && labelsIn[i].Some? && i < MAX_KEYS
        invariant 0 <= i <= MAX_KEYS && |ks| == |ls| == i
        invariant Readable(keysIn, labelsIn, i)
        invariant forall j :: 0 <= j < i ==> j < |labelsIn| && keysIn[j] == Some(ks[j]) && labelsIn[j] == Some(ls[j])
        decreases MAX_KEYS - i
      {
        ks := ks + [keysIn[i].value];
        ls := ls + [labelsIn[i].value];
        i := i + 1;
      }
      keys := ks;
      labels := ls;
      context := "";
    }

    /** FunctionBar_setContext: the formatted text, cut to fit the
        256-character context buffer. */
    method SetContext(text: string)
      requires Valid()
      modifies this`context
      ensures Valid()
      ensures context == Cap(text, MAX_CONTEXT_LEN)
      ensures |text| < MAX_CONTEXT_LEN ==> context == text
    {
      context := Cap(text, MAX_CONTEXT_LEN);
    }

    /**
     * FunctionBar_draw on a screen of `lines` rows: the bar row LINES - 2
     * is blanked across `width` columns, the context is printed at column
     * 1, and the pairs are placed right to left from column width - 1,
     * stopping at the first pair that would start left of column
     * |context| + 3.
     */
    method Draw(width: int, lines: int) returns (writes: seq<Write>)
      requires Valid()
      ensures writes == [Blank(lines - 2, 0, width), Print(lines - 2, 1, context)]
                        + PairWrites(keys, labels, lines - 2, Placed(keys, labels, |keys|, width - 1, |context| + 3))
    {
      var y := lines - 2;
      var pairs := PlacePairs(keys, labels, y, width - 1, |context| + 3);
      writes := [Blank(y, 0, width), Print(y, 1, context)] + pairs;
    }
  }

  /** The placement loop of FunctionBar_draw: from the last pair to the
      first, each pair ends at `currentX`, and the loop stops at the first
      pair that would start left of `floor`. */
  method PlacePairs(keys: seq<string>, labels: seq<string>, y: int, x: int, floor: int) returns (writes: seq<Write>)
    requires |keys| == |labels|
    ensures writes == PairWrites(keys, labels, y, Placed(keys, labels, |keys|, x, floor))
  {
    writes := [];
    var currentX := x;
    var i := |keys| - 1;
    ghost var todo := PairWrites(keys, labels, y, Placed(keys, labels, |keys|, currentX, floor));
    ghost var goal := todo;
    while i >= 0
      invariant -1 <= i < |keys|
      invariant todo == PairWrites(keys, labels, y, Placed(keys, labels, i + 1, currentX, floor))
      invariant writes + todo == goal
    {
      var totalLen := |keys[i]| + |labels[i]| + 2;
      PlacedStep(keys, labels, i, currentX, floor, y);
      currentX := currentX - totalLen;
      if currentX < floor {
        break;
      }
      var pair := [Print(y, currentX, keys[i]), Print(y, currentX + |keys[i]|, ":" + labels[i])];
      ghost var rest := PairWrites(keys, labels, y, Placed(keys, labels, i, currentX - 2, floor));
      Assoc(writes, pair, rest);
      writes := writes + pair;
      todo := rest;
      currentX := currentX - 2;
      i := i - 1;
    }
    assert todo == [];
    assert writes + [] == writes;
  }

  lemma Assoc<T>(a: seq<T>, b: seq<T>, c: seq<T>)
    ensures a + (b + c) == (a + b) + c
  {
  }
}
