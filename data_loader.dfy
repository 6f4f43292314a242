/** DataLoader: reads a run's metrics log into one series per numeric key
    (in first-seen order, values in log order), then refills the training
    metrics grid and the system panel from those series. Each line of the
    log is given as the document cJSON parsed from it, or `None` where
    parsing failed; the file itself is `None` when it cannot be opened. */
module DataLoader {
  import opened Wrappers
  import opened Text
  import opened Json
  import opened Storage
  import opened Items
  import opened Panels
  import opened Metrics

  /** The initial value buffer of a new series. */
  const SERIES_CAPACITY: nat := 1024
  const SYSTEM_PREFIX: string := "system/"
  /** char val_str[32] and char buffer[128] in the system branch. */
  const VALUE_BUFFER: nat := 32
  const SYSTEM_LINE_BUFFER: nat := 128

  /** MetricSeries: one key, its values in reading order and the size of
      the buffer holding them. */
  datatype MetricSeries = MetricSeries(key: string, values: seq<real>, capacity: nat)

  // ---------------------------------------------------------------------
  // Reading: which values the loader keeps
  // ---------------------------------------------------------------------

  /** The documents read: those before the first line that does not parse
      (Storage_readNextMetric returns NULL there and the loop stops). */
  function ReadLines(lines: seq<Option<Json>>): (docs: seq<Json>)
    ensures |docs| <= |lines|
    ensures forall i :: 0 <= i < |docs| ==> lines[i] == Some(docs[i])
    ensures |docs| < |lines| ==> lines[|docs|].None?
  {
    if |lines| == 0 || lines[0].None? then []
    else [lines[0].value] + ReadLines(lines[1..])
  }

  /** A member the loader keeps: a number under a key whose first byte is
      not '_' (an empty key passes: its first byte is the terminator). */
  predicate Kept(m: Member) {
    !(|m.key| > 0 && m.key[0] == '_') && m.value.JNumber?
  }

  /** The (key, value) samples of one document's members, in member order. */
  function KeptOf(ms: seq<Member>): (s: seq<(string, real)>)
    ensures |s| <= |ms|
  {
    if |ms| == 0 then []
    else
      var m := ms[|ms| - 1];
      KeptOf(ms[..|ms| - 1]) + (if Kept(m) then [(m.key, m.value.n)] else [])
  }

  /** All samples of the documents, in file order. */
  function Samples(docs: seq<Json>): seq<(string, real)>
  {
    if |docs| == 0 then []
    else Samples(docs[..|docs| - 1]) + KeptOf(Members(docs[|docs| - 1]))
  }

  /** The distinct keys of `s`, in the order each is first seen. */
  function FirstSeen(s: seq<(string, real)>): (keys: seq<string>)
    ensures forall i, j :: 0 <= i < j < |keys| ==> keys[i] != keys[j]
    ensures forall k :: k in keys <==> exists j :: 0 <= j < |s| && s[j].0 == k
  {
    if |s| == 0 then []
    else
      var keys := FirstSeen(s[..|s| - 1]);
      assert forall j :: 0 <= j < |s| - 1 ==> s[..|s| - 1][j] == s[j];
      if s[|s| - 1].0 in keys then keys else keys + [s[|s| - 1].0]
  }

  /** The values of `s` under `key`, in order. */
  function ValuesOf(s: seq<(string, real)>, key: string): (vs: seq<real>)
    ensures vs != [] <==> exists j :: 0 <= j < |s| && s[j].0 == key
  {
    if |s| == 0 then []
    else
      var vs := ValuesOf(s[..|s| - 1], key);
      assert forall j :: 0 <= j < |s| - 1 ==> s[..|s| - 1][j] == s[j];
      if s[|s| - 1].0 == key then vs + [s[|s| - 1].1] else vs
  }

  // ---------------------------------------------------------------------
  // The series list (getSeries / appendValue)
  // ---------------------------------------------------------------------

  function Keys(list: seq<MetricSeries>): (keys: seq<string>)
    ensures |keys| == |list|
    ensures forall i :: 0 <= i < |list| ==> keys[i] == list[i].key
  {
    if |list| == 0 then [] else Keys(list[..|list| - 1]) + [list[|list| - 1].key]
  }

  /** The first series under `key`, as getSeries' strcmp scan finds it. */
  function Find(list: seq<MetricSeries>, key: string): (r: Option<nat>)
    ensures r.None? <==> key !in Keys(list)
    ensures r.Some? ==> r.value < |list| && list[r.value].key == key
                        && forall i :: 0 <= i < r.value ==> list[i].key != key
  {
    if |list| == 0 then None
    else if list[0].key == key then Some(0)
    else match Find(list[1..], key)
      case None => None
      case Some(i) => Some(i + 1)
  }

  /** A series buffer appendValue can always write into. */
  predicate Buffered(s: MetricSeries) {
    SERIES_CAPACITY <= s.capacity && |s.values| <= s.capacity
  }

  /** getSeries: the list after the lookup, and the index of the series
      for `key` in it; an unknown key gets a new empty series at the end. */
  function Slot(list: seq<MetricSeries>, key: string): (r: (seq<MetricSeries>, nat))
    ensures r.1 < |r.0| && r.0[r.1].key == key
    ensures key in Keys(list) ==> r.0 == list
    ensures key !in Keys(list) ==> r.0 == list + [MetricSeries(key, [], SERIES_CAPACITY)]
    ensures Buffered(r.0[r.1]) || key in Keys(list)
  {
    match Find(list, key)
    case Some(i) => (list, i)
    case None => (list + [MetricSeries(key, [], SERIES_CAPACITY)], |list|)
  }

  /** getSeries, with a compare loop over the list. */
  method GetSeries(list: seq<MetricSeries>, key: string) returns (list': seq<MetricSeries>, index: nat)
    ensures (list', index) == Slot(list, key)
  {
    var i := 0;
    while i < |list|
      invariant 0 <= i <= |list|
      invariant forall k :: 0 <= k < i ==> list[k].key != key
    {
      if list[i].key == key {
        return list, i;
      }
      i := i + 1;
    }
    list' := list + [MetricSeries(key, [], SERIES_CAPACITY)];
    index := |list|;
  }

  /** appendValue: the value goes after the others; a full buffer doubles first. */
  function AppendValue(s: MetricSeries, v: real): (r: MetricSeries)
    ensures r.key == s.key && r.values == s.values + [v]
    ensures Buffered(s) ==> Buffered(r)
  {
    var capacity := if |s.values| >= s.capacity then 2 * s.capacity else s.capacity;
    MetricSeries(s.key, s.values + [v], capacity)
  }

  /** One kept member: find or create its series and append the value. */
  function Add(list: seq<MetricSeries>, sample: (string, real)): seq<MetricSeries>
  {
    var (l, i) := Slot(list, sample.0);
    l[i := AppendValue(l[i], sample.1)]
  }

  /** The series list after the samples `s` have been read. */
  function Accumulate(s: seq<(string, real)>): seq<MetricSeries>
  {
    if |s| == 0 then [] else Add(Accumulate(s[..|s| - 1]), s[|s| - 1])
  }

  predicate UniqueKeys(list: seq<MetricSeries>) {
    forall i, j :: 0 <= i < j < |list| ==> list[i].key != list[j].key
  }

  lemma AccumulateSnoc(t: seq<(string, real)>, x: (string, real))
    ensures Accumulate(t + [x]) == Add(Accumulate(t), x)
  {
    assert (t + [x])[..|t|] == t;
  }

  /** What one sample does to a list with distinct keys: the value joins
      the series of its key, or starts a new series at the end. */
  lemma AddEffect(l: seq<MetricSeries>, x: (string, real))
    requires UniqueKeys(l)
    ensures |Add(l, x)| == |l| + (if x.0 in Keys(l) then 0 else 1)
    ensures forall j :: 0 <= j < |l| ==> Add(l, x)[j] == if l[j].key == x.0 then AppendValue(l[j], x.1) else l[j]
    ensures x.0 !in Keys(l) ==> Add(l, x)[|l|] == MetricSeries(x.0, [x.1], SERIES_CAPACITY)
  {
  }

  /** A sample leaves the keys as they were, or adds its own at the end. */
  lemma KeysOfAdd(l: seq<MetricSeries>, x: (string, real))
    ensures Keys(Add(l, x)) == if x.0 in Keys(l) then Keys(l) else Keys(l) + [x.0]
  {
    var k := Keys(Add(l, x));
    var e := if x.0 in Keys(l) then Keys(l) else Keys(l) + [x.0];
    assert |k| == |e|;
    assert forall i :: 0 <= i < |k| ==> k[i] == e[i];
  }

  /** The keys of the series list are the keys of the samples, in first-seen order. */
  lemma {:induction false} AccumulateKeys(s: seq<(string, real)>)
    ensures Keys(Accumulate(s)) == FirstSeen(s)
    ensures UniqueKeys(Accumulate(s))
  {
    if |s| > 0 {
      var p := s[..|s| - 1];
      var x := s[|s| - 1];
      AccumulateKeys(p);
      var l := Accumulate(p);
      assert Accumulate(s) == Add(l, x);
      KeysOfAdd(l, x);
      assert FirstSeen(s) == if x.0 in FirstSeen(p) then FirstSeen(p) else FirstSeen(p) + [x.0];
      DistinctKeysUnique(Accumulate(s), FirstSeen(s));
    }
  }

  /** A list whose keys are some sequence without repetitions has unique keys. */
  lemma DistinctKeysUnique(l: seq<MetricSeries>, ks: seq<string>)
    requires Keys(l) == ks
    requires forall i, j :: 0 <= i < j < |ks| ==> ks[i] != ks[j]
    ensures UniqueKeys(l)
  {
    forall i, j | 0 <= i < j < |l|
      ensures l[i].key != l[j].key
    {
      assert l[i].key == ks[i] && l[j].key == ks[j];
    }
  }

  /** The series read from a log: one per kept key, in first-seen order
      (`AccumulateKeys`), each holding every value of its key in log order,
      in a buffer large enough for them. */
  lemma {:induction false} AccumulateSeries(s: seq<(string, real)>)
    ensures forall i :: 0 <= i < |Accumulate(s)| ==>
              Accumulate(s)[i].values == ValuesOf(s, Accumulate(s)[i].key) && Buffered(Accumulate(s)[i])
  {
    if |s| > 0 {
      var p := s[..|s| - 1];
      AccumulateSeries(p);
      AccumulateKeys(p);
      assert s == p + [s[|s| - 1]];
      SeriesStep(p, s[|s| - 1], Accumulate(p));
    }
  }

  /** One more sample keeps every series equal to its key's values. */
  lemma SeriesStep(p: seq<(string, real)>, x: (string, real), l: seq<MetricSeries>)
    requires UniqueKeys(l) && Keys(l) == FirstSeen(p)
    requires forall i :: 0 <= i < |l| ==> l[i].values == ValuesOf(p, l[i].key) && Buffered(l[i])
    ensures forall i :: 0 <= i < |Add(l, x)| ==>
              Add(l, x)[i].values == ValuesOf(p + [x], Add(l, x)[i].key) && Buffered(Add(l, x)[i])
  {
    var s := p + [x];
    assert s[..|s| - 1] == p;
    AddEffect(l, x);
    forall i | 0 <= i < |Add(l, x)|
      ensures Add(l, x)[i].values == ValuesOf(s, Add(l, x)[i].key) && Buffered(Add(l, x)[i])
    {
      var k := Add(l, x)[i].key;
      assert ValuesOf(s, k) == ValuesOf(p, k) + (if x.0 == k then [x.1] else []);
      if i == |l| {
        assert k == x.0 && x.0 !in FirstSeen(p);
        assert ValuesOf(p, k) == [];
      }
    }
  }

  /** Reading the log (the loop over Storage_readNextMetric and over each
      entry's members). An unparsable line ends the reading. */
  method ReadSeries(lines: seq<Option<Json>>) returns (list: seq<MetricSeries>)
    requires forall d :: d in ReadLines(lines) ==> KeyedChildren(d)
    ensures list == Accumulate(Samples(ReadLines(lines)))
  {
    ghost var docs := ReadLines(lines);
    list := [];
    var d := 0;
    ghost var seen := [];
    while d < |lines|
      invariant 0 <= d <= |docs|
      invariant seen == Samples(docs[..d])
      invariant list == Accumulate(seen)
      decreases |lines| - d
    {
      var entry := ReadNextMetric(lines[d]);
      if entry.None? {
        break;
      }
      SamplesStep(docs, d);
      list := ReadEntry(list, Members(entry.value.json), seen);
      seen := seen + KeptOf(Members(entry.value.json));
      d := d + 1;
    }
    assert docs[..d] == docs;
  }

  lemma SamplesStep(docs: seq<Json>, d: nat)
    requires d < |docs|
    ensures Samples(docs[..d + 1]) == Samples(docs[..d]) + KeptOf(Members(docs[d]))
  {
    assert docs[..d + 1][..d] == docs[..d];
  }

  /** One entry's member loop, with the filter on '_' keys and non-numbers. */
  method ReadEntry(list: seq<MetricSeries>, ms: seq<Member>, ghost before: seq<(string, real)>)
      returns (list': seq<MetricSeries>)
    requires list == Accumulate(before)
    ensures list' == Accumulate(before + KeptOf(ms))
  {
    list' := list;
    var m := 0;
    ghost var seen := before;
    KeptStart(ms, before);
    while m < |ms|
      invariant 0 <= m <= |ms|
      invariant seen == before + KeptOf(ms[..m])
      invariant list' == Accumulate(seen)
    {
      KeptStep(ms, m, before);
      var item := ms[m];
      if |item.key| > 0 && item.key[0] == '_' {
      } else if !item.value.JNumber? {
      } else {
        list' := AddSample(list', item.key, item.value.n, seen);
        seen := seen + [(item.key, item.value.n)];
      }
      m := m + 1;
    }
    assert ms[..m] == ms;
  }

  lemma KeptStart(ms: seq<Member>, before: seq<(string, real)>)
    ensures before + KeptOf(ms[..0]) == before
  {
    assert ms[..0] == [];
  }

  lemma KeptStep(ms: seq<Member>, m: nat, before: seq<(string, real)>)
    requires m < |ms|
    ensures Kept(ms[m]) ==> before + KeptOf(ms[..m + 1]) == before + KeptOf(ms[..m]) + [(ms[m].key, ms[m].value.n)]
    ensures !Kept(ms[m]) ==> before + KeptOf(ms[..m + 1]) == before + KeptOf(ms[..m])
  {
    assert ms[..m + 1][..m] == ms[..m];
  }

  /** getSeries followed by appendValue on the series it returns. */
  method AddSample(list: seq<MetricSeries>, key: string, v: real, ghost before: seq<(string, real)>)
      returns (list': seq<MetricSeries>)
    requires list == Accumulate(before)
    ensures list' == Accumulate(before + [(key, v)])
  {
    var index;
    list', index := GetSeries(list, key);
    list' := list'[index := AppendValue(list'[index], v)];
    AccumulateSnoc(before, (key, v));
  }

  // ---------------------------------------------------------------------
  // Populating the panels
  // ---------------------------------------------------------------------

  predicate IsSystem(key: string) {
    StartsWith(key, SYSTEM_PREFIX)
  }

  /** The auto-formatted value of a system metric: its unit is chosen by
      the words in its display name, tested in this order. */
  function ValueText(name: string, current: real, fmt: Fixed): (r: string)
    ensures |r| < VALUE_BUFFER
  {
    if Contains(name, "percent") || Contains(name, "util") || Contains(name, "load") then
      Cap(fmt(current, 1) + "%", VALUE_BUFFER)
    else if Contains(name, "gb") || Contains(name, "ram") then
      Cap(fmt(current, 1) + "GB", VALUE_BUFFER)
    else if Contains(name, "temp") then
      Cap(fmt(current, 1) + "°C", VALUE_BUFFER)
    else
      Cap(fmt(current, 2), VALUE_BUFFER)
  }

  /** The system panel line of a non-empty "system/" series: the name
      without its prefix, a tab, and the formatted latest value. */
  function SystemLine(s: MetricSeries, fmt: Fixed): (r: string)
    requires IsSystem(s.key) && |s.values| > 0
    ensures |r| < SYSTEM_LINE_BUFFER
    ensures |s.key| - |SYSTEM_PREFIX| + 1 + |ValueText(s.key[|SYSTEM_PREFIX|..], s.values[|s.values| - 1], fmt)| < SYSTEM_LINE_BUFFER
            ==> r == s.key[|SYSTEM_PREFIX|..] + "\t" + ValueText(s.key[|SYSTEM_PREFIX|..], s.values[|s.values| - 1], fmt)
  {
    var name := s.key[|SYSTEM_PREFIX|..];
    Cap(name + "\t" + ValueText(name, s.values[|s.values| - 1], fmt), SYSTEM_LINE_BUFFER)
  }

  /** The items the system panel receives, in series order. */
  function SystemItems(list: seq<MetricSeries>, fmt: Fixed): (items: seq<PanelItem>)
    ensures |items| <= |list|
    ensures forall j :: 0 <= j < |items| ==> items[j].data.None?
  {
    if |list| == 0 then []
    else
      var s := list[|list| - 1];
      SystemItems(list[..|list| - 1], fmt)
        + (if IsSystem(s.key) && |s.values| > 0 then [PanelItem(SystemLine(s, fmt), None)] else [])
  }

  /** The metrics added to the grid, in series order, each numbered by its
      position among them (which picks its chart colour). */
  function Training(list: seq<MetricSeries>): (ms: seq<MetricData>)
    ensures |ms| <= |list|
  {
    if |list| == 0 then []
    else
      var s := list[|list| - 1];
      var ms := Training(list[..|list| - 1]);
      if !IsSystem(s.key) && |s.values| > 0 then ms + [NewMetric(s.key, s.values[|s.values| - 1], s.values, |ms|)]
      else ms
  }

  /** Every non-empty series goes to exactly one of the two panels. */
  lemma {:induction false} RoutedOnce(list: seq<MetricSeries>, fmt: Fixed)
    requires forall i :: 0 <= i < |list| ==> |list[i].values| > 0
    ensures |SystemItems(list, fmt)| + |Training(list)| == |list|
  {
    if |list| > 0 {
      RoutedOnce(list[..|list| - 1], fmt);
    }
  }

  /** A non-empty training series is charted under its own name, with its
      latest value as current, its whole history and palette slot by position. */
  lemma {:induction false} TrainingCharts(list: seq<MetricSeries>, i: nat)
    requires i < |list| && !IsSystem(list[i].key) && |list[i].values| > 0
    ensures exists j :: 0 <= j < |Training(list)|
              && Training(list)[j].name == list[i].key
              && Training(list)[j].history == list[i].values
              && Training(list)[j].current == list[i].values[|list[i].values| - 1]
  {
    var p := list[..|list| - 1];
    if i < |list| - 1 {
      TrainingCharts(p, i);
      var j :| 0 <= j < |Training(p)| && Training(p)[j].name == p[i].key
               && Training(p)[j].history == p[i].values
               && Training(p)[j].current == p[i].values[|p[i].values| - 1];
      assert Training(list)[j] == Training(p)[j];
    } else {
      var j := |Training(p)|;
      assert Training(list)[j] == NewMetric(list[i].key, list[i].values[|list[i].values| - 1], list[i].values, j);
    }
  }

  /** End to end: every kept key of the log outside "system/" is charted
      with all its values in log order. */
  lemma LogCharted(lines: seq<Option<Json>>, key: string)
    requires key in FirstSeen(Samples(ReadLines(lines))) && !IsSystem(key)
    ensures exists j :: 0 <= j < |Training(Accumulate(Samples(ReadLines(lines))))|
              && Training(Accumulate(Samples(ReadLines(lines))))[j].name == key
              && Training(Accumulate(Samples(ReadLines(lines))))[j].history == ValuesOf(Samples(ReadLines(lines)), key)
  {
    var s := Samples(ReadLines(lines));
    AccumulateKeys(s);
    AccumulateSeries(s);
    var list := Accumulate(s);
    var i :| 0 <= i < |list| && Keys(list)[i] == key;
    TrainingCharts(list, i);
  }

  /** Panel_clear on the metrics grid's Panel keeps the grid valid. */
  method ClearGrid(metrics: MetricsPanel)
    requires metrics.Valid()
    modifies metrics.panel
    ensures metrics.Valid()
    ensures metrics.panel.items == [] && metrics.panel.selected == 0
    ensures metrics.panel.scrollV == 0 && metrics.panel.scrollH == 0 && metrics.panel.needsRedraw
  {
    metrics.panel.Clear();
  }

  /**
   * DataLoader_loadMetrics. A log that cannot be opened leaves both
   * panels as they were. Otherwise both panels are cleared; each
   * "system/" series becomes one system panel line, and every other series
   * is added to the grid. With no training series the grid stays empty
   * (and keeps its previous metric list until the next addMetric).
   */
  method LoadMetrics(file: Option<seq<Option<Json>>>, metrics: MetricsPanel?, system: Panel?, fmt: Fixed)
    requires metrics != null ==> metrics.Valid()
    requires system != null ==> system.Valid()
    requires metrics != null && system != null ==> system != metrics.panel
    requires file.Some? ==> forall d :: d in ReadLines(file.value) ==> KeyedChildren(d)
    modifies metrics, system, if metrics != null then {metrics.panel} else {}
    ensures file.None? ==> (metrics != null ==> unchanged(metrics, metrics.panel)) && (system != null ==> unchanged(system))
    ensures file.Some? && system != null ==>
              && system.Valid()
              && system.items == SystemItems(Accumulate(Samples(ReadLines(file.value))), fmt)
              && system.selected == 0 && system.scrollV == 0 && system.scrollH == 0
    ensures file.Some? && metrics != null ==>
              && metrics.Valid()
              && (Training(Accumulate(Samples(ReadLines(file.value)))) != [] ==>
                    metrics.allMetrics == Training(Accumulate(Samples(ReadLines(file.value))))
                    && metrics.panel.items == RowItems(metrics.allMetrics, metrics.columns))
              && (Training(Accumulate(Samples(ReadLines(file.value)))) == [] ==>
                    metrics.panel.items == [] && metrics.allMetrics == old(metrics.allMetrics))
  {
    if file.None? {
      return;
    }
    var list := ReadSeries(file.value);
    if metrics != null {
      ClearGrid(metrics);
    }
    if system != null {
      system.Clear();
    }
    Populate(list, metrics, system, fmt);
  }

  /** The populate loop over freshly cleared panels: the system lines and
      the grid are those of the whole series list. */
  method Populate(list: seq<MetricSeries>, metrics: MetricsPanel?, system: Panel?, fmt: Fixed)
    requires metrics != null ==> metrics.Valid() && metrics.panel.items == []
    requires system != null ==> system.Valid() && system.items == []
    requires system != null ==> system.selected == 0 && system.scrollV == 0 && system.scrollH == 0
    requires metrics != null && system != null ==> system != metrics.panel
    modifies metrics, system, if metrics != null then {metrics.panel} else {}
    ensures system != null ==> system.Valid() && system.items == SystemItems(list, fmt)
    ensures system != null ==> system.selected == 0 && system.scrollV == 0 && system.scrollH == 0
    ensures metrics != null ==> metrics.Valid()
    ensures metrics != null && Training(list) != [] ==>
              metrics.allMetrics == Training(list) && metrics.panel.items == RowItems(metrics.allMetrics, metrics.columns)
    ensures metrics != null && Training(list) == [] ==>
              metrics.panel.items == [] && metrics.allMetrics == old(metrics.allMetrics)
  {
    var i := 0;
    ghost var done: seq<MetricSeries> := [];
    while i < |list|
      invariant 0 <= i <= |list| && done == list[..i]
      invariant system != null ==> system.Valid() && system.items == SystemItems(done, fmt)
      invariant system != null ==> system.selected == 0 && system.scrollV == 0 && system.scrollH == 0
      invariant metrics != null ==> metrics.Valid()
      invariant metrics != null && Training(done) != [] ==>
                  metrics.allMetrics == Training(done) && metrics.panel.items == RowItems(metrics.allMetrics, metrics.columns)
      invariant metrics != null && Training(done) == [] ==>
                  metrics.panel.items == [] && metrics.allMetrics == old(metrics.allMetrics)
    {
      SliceSnoc(list, i);
      PopulateOne(list[i], metrics, system, fmt, Training(done), done);
      done := done + [list[i]];
      i := i + 1;
    }
    assert done == list;
  }

  lemma SliceSnoc<T>(l: seq<T>, i: nat)
    requires i < |l|
    ensures l[..i + 1] == l[..i] + [l[i]]
  {
  }

  /** One series of the populate loop. */
  method PopulateOne(s: MetricSeries, metrics: MetricsPanel?, system: Panel?, fmt: Fixed,
                     ghost done: seq<MetricData>, ghost before: seq<MetricSeries>)
    requires metrics != null ==> metrics.Valid()
    requires system != null ==> system.Valid() && system.items == SystemItems(before, fmt)
    requires metrics != null && system != null ==> system != metrics.panel
    requires done == Training(before)
    requires metrics != null && done != [] ==>
               metrics.allMetrics == done && metrics.panel.items == RowItems(metrics.allMetrics, metrics.columns)
    requires metrics != null && done == [] ==> metrics.panel.items == []
    modifies metrics, system, if metrics != null then {metrics.panel} else {}
    ensures metrics != null ==> metrics.Valid()
    ensures system != null ==> system.Valid() && system.items == SystemItems(before + [s], fmt)
    ensures system != null ==> system.selected == old(system.selected) && system.scrollV == old(system.scrollV) && system.scrollH == old(system.scrollH)
    ensures metrics != null && Training(before + [s]) != [] ==>
              metrics.allMetrics == Training(before + [s]) && metrics.panel.items == RowItems(metrics.allMetrics, metrics.columns)
    ensures metrics != null && Training(before + [s]) == [] ==> unchanged(metrics) && metrics.panel.items == []
  {
    assert (before + [s])[..|before + [s]| - 1] == before;
    if |s.values| == 0 {
      return;
    }
    var current := s.values[|s.values| - 1];
    if StartsWith(s.key, SYSTEM_PREFIX) {
      if system != null {
        var text := SystemLine(s, fmt);
        var _ := system.AddItem(Some(text), None);
      }
    } else if metrics != null {
      metrics.AddMetric(s.key, current, s.values);
    }
  }
}
