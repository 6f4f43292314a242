/** The Python recorder's public API: an ActiveRun numbers the steps a
    training script logs and turns each call into a metrics line and a
    summary update; the module-level init/log/finish keep at most one
    current run. The directory and the "latest-run" link it creates are
    the ones the dashboard later opens. */
module Api {
  import opened Wrappers
  import opened Constants
  import opened Text
  import opened Json
  import opened Dicts
  import opened Writer
  import Storage
  import CommandLine
  import Tui

  /** The runs directory, and the link in it that names the newest run. */
  const ROOT_DIR := "expml_runs"
  const LATEST_LINK := "latest-run"
  /** A run id is the first 8 characters of a random UUID's text. */
  const ID_LENGTH: nat := 8

  // --- Records ---

  /** `str(uuid.uuid4())[:8]`. */
  function RunId(uuidText: string): (r: string)
    ensures r <= uuidText
    ensures |r| == Min(ID_LENGTH, |uuidText|)
  {
    uuidText[..Min(ID_LENGTH, |uuidText|)]
  }

  /** `name or f"run-{id}"`: a missing or empty name gives the default. */
  function RunName(name: Option<string>, id: string): (r: string)
    ensures name.Some? && name.value != "" ==> r == name.value
    ensures !(name.Some? && name.value != "") ==> |r| == 4 + |id| && r[..4] == "run-" && r[4..] == id
    ensures r != ""
  {
    if name.Some? && name.value != "" then name.value else "run-" + id
  }

  /** A Python int, as json.dump writes it and the dashboard reads it. */
  function Number(n: int): Json {
    JNumber(n as real)
  }

  /** The three bookkeeping fields each metrics line starts with. */
  function Stamp(step: int, now: real, start: real): (r: seq<Member>)
    ensures IsDict(r)
    ensures Keys(r) == ["_step", "_timestamp", "_runtime"]
    ensures Get(r, "_step") == Some(Number(step))
    ensures Get(r, "_timestamp") == Some(JNumber(now))
    ensures Get(r, "_runtime") == Some(JNumber(now - start))
  {
    var r := [Member("_step", Number(step)), Member("_timestamp", JNumber(now)), Member("_runtime", JNumber(now - start))];
    GetAt(r, 0);
    GetAt(r, 1);
    GetAt(r, 2);
    r
  }

  /**
   * The metrics line of a log call, `{"_step": ..., "_timestamp": ...,
   * "_runtime": ..., **metrics}`.
   */
  function Entry(step: int, now: real, start: real, metrics: seq<Member>): (r: seq<Member>)
    requires IsDict(metrics)
    ensures IsDict(r)
  {
    Update(Stamp(step, now, start), metrics)
  }

  /** A metrics line starts with the three fields, in this order. */
  lemma EntryOrder(step: int, now: real, start: real, metrics: seq<Member>)
    requires IsDict(metrics)
    ensures |Entry(step, now, start, metrics)| >= 3
    ensures Keys(Entry(step, now, start, metrics))[..3] == ["_step", "_timestamp", "_runtime"]
  {
    assert Keys(Stamp(step, now, start)) <= Keys(Entry(step, now, start, metrics));
  }

  /** A metrics line holds the caller's metrics, and the three fields
      wherever no metric of the same name replaces them; nothing else. */
  lemma EntryFields(step: int, now: real, start: real, metrics: seq<Member>, k: string)
    requires IsDict(metrics)
    ensures Get(Entry(step, now, start, metrics), k)
            == if k in Keys(metrics) then Get(metrics, k)
               else if k == "_step" then Some(Number(step))
               else if k == "_timestamp" then Some(JNumber(now))
               else if k == "_runtime" then Some(JNumber(now - start))
               else None
  {
    var s := Stamp(step, now, start);
    UpdateGet(s, metrics, k);
    if k !in Keys(metrics) && k != "_step" && k != "_timestamp" && k != "_runtime" {
      StampKeys(step, now, start, k);
    }
  }

  lemma StampKeys(step: int, now: real, start: real, k: string)
    ensures k in Keys(Stamp(step, now, start)) <==> k == "_step" || k == "_timestamp" || k == "_runtime"
  {
  }

  /** The summary update of a log call: the metrics, with status
      "RUNNING", `_step` and `_runtime` set on top of them. */
  function Progress(step: int, runtime: real, metrics: seq<Member>): (r: seq<Member>)
    requires IsDict(metrics)
    ensures IsDict(r)
  {
    Update(metrics, Running(step, runtime))
  }

  /** A log's summary update holds status "RUNNING", the step and the
      runtime, and every other metric unchanged, after the metrics'
      own keys. */
  lemma ProgressFields(step: int, runtime: real, metrics: seq<Member>, k: string)
    requires IsDict(metrics)
    ensures Get(Progress(step, runtime, metrics), k)
            == if k == "status" then Some(JString("RUNNING"))
               else if k == "_step" then Some(Number(step))
               else if k == "_runtime" then Some(JNumber(runtime))
               else Get(metrics, k)
    ensures Keys(metrics) <= Keys(Progress(step, runtime, metrics))
  {
    UpdateGet(metrics, Running(step, runtime), k);
    if k != "status" && k != "_step" && k != "_runtime" {
      RunningKeys(step, runtime, k);
    }
  }

  lemma RunningKeys(step: int, runtime: real, k: string)
    ensures k in Keys(Running(step, runtime)) <==> k == "status" || k == "_step" || k == "_runtime"
  {
  }

  /** The fields a log call sets on top of the metrics. */
  function Running(step: int, runtime: real): (r: seq<Member>)
    ensures IsDict(r)
    ensures Keys(r) == ["status", "_step", "_runtime"]
    ensures Get(r, "status") == Some(JString("RUNNING"))
    ensures Get(r, "_step") == Some(Number(step))
    ensures Get(r, "_runtime") == Some(JNumber(runtime))
  {
    var r := [Member("status", JString("RUNNING")), Member("_step", Number(step)), Member("_runtime", JNumber(runtime))];
    GetAt(r, 0);
    GetAt(r, 1);
    GetAt(r, 2);
    r
  }

  /** The summary update of finish. */
  function Finished(runtime: real): (r: seq<Member>)
    ensures IsDict(r)
    ensures Keys(r) == ["status", "_runtime"]
    ensures Get(r, "status") == Some(JString("FINISHED")) && Get(r, "_runtime") == Some(JNumber(runtime))
  {
    var r := [Member("status", JString("FINISHED")), Member("_runtime", JNumber(runtime))];
    GetAt(r, 0);
    GetAt(r, 1);
    r
  }

  lemma FinishedKeys(runtime: real, k: string)
    ensures k in Keys(Finished(runtime)) <==> k == "status" || k == "_runtime"
  {
  }

  /** metadata.json: the system information with "id" and "name" set. */
  function Metadata(info: seq<Member>, id: string, name: string): (r: seq<Member>)
    requires IsDict(info)
    ensures IsDict(r)
  {
    Set(Set(info, "id", JString(id)), "name", JString(name))
  }

  /** metadata.json holds the run's id and name and otherwise the system
      information as reported. */
  lemma MetadataFields(info: seq<Member>, id: string, name: string, k: string)
    requires IsDict(info)
    ensures Get(Metadata(info, id, name), k)
            == if k == "name" then Some(JString(name)) else if k == "id" then Some(JString(id)) else Get(info, k)
  {
    SetGet(info, "id", JString(id), k);
    SetGet(Set(info, "id", JString(id)), "name", JString(name), k);
  }

  /** config.json: `config or {}`. */
  function ConfigDocument(config: Option<seq<Member>>): (r: Json)
    ensures r.JObject?
    ensures config.Some? ==> r.members == config.value
    ensures config.None? ==> r.members == []
  {
    JObject(config.GetOr([]))
  }

  // --- Runs ---

  /** The runs directory as far as the recorder changes it: where the
      "latest-run" link points. */
  class RunsRoot {
    var latest: Option<string>

    constructor (link: Option<string>)
      ensures latest == link
    {
      latest := link;
    }
  }

  class ActiveRun {
    const id: string
    const name: string
    const startTime: real
    const runDir: string
    const writer: RunWriter
    var step: nat
    /** Whether the system monitor thread is running. */
    var monitoring: bool

    ghost predicate Valid()
      reads this, writer
    {
      writer.Valid() && writer.runDir == runDir
    }

    /**
     * ActiveRun(config, name): the id and name, step 0 and the start time;
     * the run directory under "expml_runs" and "latest-run" pointing at it;
     * config.json and metadata.json written; the monitor started.
     */
    constructor (config: Option<seq<Member>>, nameArg: Option<string>, uuidText: string, now: real,
                 info: seq<Member>, existing: Files, root: RunsRoot)
      requires IsDict(info)
      modifies root
      ensures Valid() && fresh(writer)
      ensures id == RunId(uuidText) && name == RunName(nameArg, id)
      ensures step == 0 && startTime == now && monitoring
      ensures runDir == Join(ROOT_DIR, name)
      ensures root.latest == Some(name)
      ensures writer.summaryCache == []
      ensures writer.files == existing.(config := Some(ConfigDocument(config)),
                                        metadata := Some(JObject(Metadata(info, id, name))))
    {
      var runId := RunId(uuidText);
      var runName := RunName(nameArg, runId);
      var dir := Join(ROOT_DIR, runName);
      id := runId;
      name := runName;
      step := 0;
      startTime := now;
      runDir := dir;
      writer := new RunWriter(dir, existing);
      monitoring := false;
      new;
      root.latest := Some(runName);
      writer.WriteConfig(ConfigDocument(config));
      writer.WriteMetadata(JObject(Metadata(info, runId, runName)));
      monitoring := true;
    }

    /** What a log call at `now` leaves behind, from a summary cache
        `cache` and metrics lines `lines`: the cache merged with the
        summary update of the current step, and the lines followed by
        this step's metrics line. */
    ghost predicate Logged(cache: seq<Member>, lines: seq<Json>, metrics: seq<Member>, now: real)
      reads this, writer
    {
      && IsDict(cache) && IsDict(metrics)
      && writer.summaryCache == Update(cache, Progress(step, now - startTime, metrics))
      && writer.files.metrics == lines + [JObject(Entry(step, now, startTime, metrics))]
    }

    /** log(metrics): the next step number, one metrics line, and the
        summary merged with the metrics and the running status. */
    method Log(metrics: seq<Member>, now: real)
      requires Valid() && IsDict(metrics)
      modifies this`step, writer`summaryCache, writer`files
      ensures Valid()
      ensures step == old(step) + 1
      ensures Logged(old(writer.summaryCache), old(writer.files.metrics), metrics, now)
      ensures writer.files == old(writer.files).(metrics := old(writer.files.metrics) + [JObject(Entry(step, now, startTime, metrics))],
                                                 summary := Some(JObject(writer.summaryCache)))
    {
      step := step + 1;
      writer.LogMetrics(Entry(step, now, startTime, metrics));
      writer.UpdateSummary(Progress(step, now - startTime, metrics));
    }

    /** finish(): the monitor stops and the summary gets status
        "FINISHED" and the final runtime. */
    method Finish(now: real)
      requires Valid()
      modifies this`monitoring, writer`summaryCache, writer`files
      ensures Valid() && !monitoring
      ensures writer.summaryCache == Update(old(writer.summaryCache), Finished(now - startTime))
      ensures writer.files == old(writer.files).(summary := Some(JObject(writer.summaryCache)))
    {
      monitoring := false;
      writer.UpdateSummary(Finished(now - startTime));
    }
  }

  /** The module-level `_CURRENT_RUN` and the functions around it. */
  class Recorder {
    var current: ActiveRun?

    ghost predicate Valid()
      reads this, current, if current != null then {current.writer} else {}
    {
      current != null ==> current.Valid()
    }

    /** No run is active when the module is imported. */
    constructor ()
      ensures Valid() && current == null
    {
      current := null;
    }

    /**
     * init(config, name): an active run is finished first (at
     * `finishTime`); then a new run becomes the current one.
     */
    method Init(config: Option<seq<Member>>, nameArg: Option<string>, uuidText: string, finishTime: real, now: real,
                info: seq<Member>, existing: Files, root: RunsRoot)
      requires Valid() && IsDict(info)
      modifies this, root, if current != null then {current, current.writer} else {}
      ensures Valid() && current != null && fresh(current) && fresh(current.writer)
      ensures current.id == RunId(uuidText) && current.name == RunName(nameArg, current.id)
      ensures current.step == 0 && current.startTime == now && root.latest == Some(current.name)
      ensures current.monitoring && current.runDir == Join(ROOT_DIR, current.name)
      ensures current.writer.summaryCache == []
      ensures current.writer.files == existing.(config := Some(ConfigDocument(config)),
                                                metadata := Some(JObject(Metadata(info, current.id, current.name))))
      ensures old(current) != null ==>
                && !old(current).monitoring
                && old(current).writer.summaryCache
                   == Update(old(current.writer.summaryCache), Finished(finishTime - old(current).startTime))
                && old(current).writer.files
                   == old(current.writer.files).(summary := Some(JObject(old(current).writer.summaryCache)))
    {
      Finish(finishTime);
      current := new ActiveRun(config, nameArg, uuidText, now, info, existing, root);
    }

    /** log(metrics): passed to the current run; nothing without one. */
    method Log(metrics: seq<Member>, now: real)
      requires Valid() && IsDict(metrics)
      modifies if current != null then {current, current.writer} else {}
      ensures Valid() && current == old(current)
      ensures old(current) != null ==>
                && old(current).step == old(current.step) + 1
                && old(current).Logged(old(current.writer.summaryCache), old(current.writer.files.metrics), metrics, now)
                && old(current).writer.files
                   == old(current.writer.files).(metrics := old(current.writer.files.metrics)
                                                   + [JObject(Entry(old(current).step, now, old(current).startTime, metrics))],
                                                 summary := Some(JObject(old(current).writer.summaryCache)))
    {
      var run := current;
      if run != null {
        run.Log(metrics, now);
        assert current == run && run.Valid();
      }
    }

    /** finish(): the current run is finished and forgotten; nothing
        without one. */
    method Finish(now: real)
      requires Valid()
      modifies this, if current != null then {current, current.writer} else {}
      ensures Valid() && current == null
      ensures old(current) != null ==>
                && !old(current).monitoring
                && old(current).writer.summaryCache
                   == Update(old(current.writer.summaryCache), Finished(now - old(current).startTime))
                && old(current).writer.files
                   == old(current.writer.files).(summary := Some(JObject(old(current).writer.summaryCache)))
    {
      if current != null {
        current.Finish(now);
        current := null;
      }
    }
  }

  // --- Properties of the records ---

  /**
   * After finish the summary still carries the metrics of the last log
   * and its `_step`; only the status and the runtime are new.
   */
  lemma FinishKeepsProgress(cache: seq<Member>, step: int, runtime: real, metrics: seq<Member>, finalRuntime: real)
    requires IsDict(cache) && IsDict(metrics)
    ensures var done := Update(Update(cache, Progress(step, runtime, metrics)), Finished(finalRuntime));
            && Get(done, "status") == Some(JString("FINISHED"))
            && Get(done, "_runtime") == Some(JNumber(finalRuntime))
            && Get(done, "_step") == Some(Number(step))
            && forall k :: k in Keys(metrics) && k != "status" && k != "_step" && k != "_runtime" ==>
                 Get(done, k) == Get(metrics, k)
  {
    var p := Progress(step, runtime, metrics);
    var c1 := Update(cache, p);
    var f := Finished(finalRuntime);
    UpdateGet(c1, f, "status");
    UpdateGet(c1, f, "_runtime");
    UpdateGet(c1, f, "_step");
    UpdateGet(cache, p, "_step");
    ProgressFields(step, runtime, metrics, "_step");
    forall k | k in Keys(metrics) && k != "status" && k != "_step" && k != "_runtime"
      ensures Get(Update(c1, f), k) == Get(metrics, k)
    {
      UpdateGet(c1, f, k);
      UpdateGet(cache, p, k);
      FinishedKeys(finalRuntime, k);
      ProgressFields(step, runtime, metrics, k);
      assert k in Keys(p);
    }
  }

  /** `key` and no other name of the dictionary matches `key` up to
      ASCII case. */
  predicate CaseDistinct(d: seq<Member>, key: string) {
    forall i :: 0 <= i < |d| && EqualIgnoringCase(d[i].key, key) ==> d[i].key == key
  }

  /** The dashboard's case-blind lookup finds what the recorder stored
      under `key` when no other name differs from it only in case. */
  lemma {:induction false} ReadBack(d: seq<Member>, key: string)
    requires IsDict(d) && CaseDistinct(d, key) && key in Keys(d)
    ensures GetObjectItem(JObject(d), key) == Get(d, key)
  {
    var i :| 0 <= i < |d| && d[i].key == key;
    forall k | 0 <= k < i
      ensures !EqualIgnoringCase(d[k].key, key)
    {
      assert d[k].key != d[i].key;
    }
    assert EqualIgnoringCase(d[i].key, key);
    GetAt(d, i);
    LookupFirst(d, key, i);
  }

  /** A merge adds no clash with `key` when neither side has one. */
  lemma {:induction false} UpdateCaseDistinct(d: seq<Member>, e: seq<Member>, key: string)
    requires IsDict(d) && IsDict(e) && CaseDistinct(d, key) && CaseDistinct(e, key)
    ensures CaseDistinct(Update(d, e), key)
  {
    var r := Update(d, e);
    forall i | 0 <= i < |r| && EqualIgnoringCase(r[i].key, key)
      ensures r[i].key == key
    {
      assert r[i].key in Keys(r);
      UpdateGet(d, e, r[i].key);
      if r[i].key in Keys(d) {
        var j :| 0 <= j < |d| && Keys(d)[j] == r[i].key;
        assert d[j].key == r[i].key;
      } else {
        var j :| 0 <= j < |e| && Keys(e)[j] == r[i].key;
        assert e[j].key == r[i].key;
      }
    }
  }

  /**
   * The summary finish writes makes the dashboard stop refreshing: read
   * back through Storage_readSummary its status is "FINISHED", unless a
   * metric name that differs from "status" only in case came first.
   */
  lemma DashboardSeesFinish(cache: seq<Member>, finalRuntime: real)
    requires IsDict(cache) && CaseDistinct(cache, "status")
    ensures var summary := Storage.ReadSummary(Some(JObject(Update(cache, Finished(finalRuntime)))));
            summary.Some? && summary.value.status == "FINISHED" && Tui.Stops(summary)
  {
    var f := Finished(finalRuntime);
    var done := Update(cache, f);
    FinishedCaseDistinct(finalRuntime);
    UpdateCaseDistinct(cache, f, "status");
    UpdateGet(cache, f, "status");
    ReadBack(done, "status");
    assert GetObjectItem(JObject(done), "status") == Some(JString("FINISHED"));
    assert Storage.GetJsonString(JObject(done), "status", Some("UNKNOWN")) == Some("FINISHED");
  }

  lemma FinishedCaseDistinct(runtime: real)
    ensures CaseDistinct(Finished(runtime), "status")
  {
    var f := Finished(runtime);
    assert f[0].key == "status" && f[1].key == "_runtime";
  }

  /** While the run goes on the dashboard reads status "RUNNING" and the
      logged step, for a step count inside a C int. */
  lemma DashboardSeesProgress(cache: seq<Member>, step: nat, runtime: real, metrics: seq<Member>)
    requires IsDict(cache) && IsDict(metrics) && step <= INT_MAX
    requires CaseDistinct(cache, "status") && CaseDistinct(metrics, "status")
    requires CaseDistinct(cache, "_step") && CaseDistinct(metrics, "_step")
    ensures var summary := Storage.ReadSummary(Some(JObject(Update(cache, Progress(step, runtime, metrics)))));
            && summary.Some? && summary.value.status == "RUNNING" && summary.value.step == step
            && !Tui.Stops(summary)
  {
    var done := Update(cache, Progress(step, runtime, metrics));
    ReadsUpdated(cache, step, runtime, metrics, "status");
    ReadsUpdated(cache, step, runtime, metrics, "_step");
    ValueIntExact(step);
    assert Storage.GetJsonString(JObject(done), "status", Some("UNKNOWN")) == Some("RUNNING");
    assert Storage.GetJsonInt(JObject(done), "_step", 0) == step;
  }

  /** One of the two fields a log sets on top of the metrics, read back
      from the merged summary by the dashboard. */
  lemma ReadsUpdated(cache: seq<Member>, step: nat, runtime: real, metrics: seq<Member>, key: string)
    requires IsDict(cache) && IsDict(metrics)
    requires key == "status" || key == "_step"
    requires CaseDistinct(cache, key) && CaseDistinct(metrics, key)
    ensures GetObjectItem(JObject(Update(cache, Progress(step, runtime, metrics))), key)
            == if key == "status" then Some(JString("RUNNING")) else Some(Number(step))
  {
    var p := Progress(step, runtime, metrics);
    var done := Update(cache, p);
    ProgressCaseDistinct(step, runtime, metrics, key);
    UpdateCaseDistinct(cache, p, key);
    ProgressHas(step, runtime, metrics, key);
    UpdateGet(cache, p, key);
    ReadBack(done, key);
  }

  /** A log's summary update holds status and `_step` as keys. */
  lemma ProgressHas(step: int, runtime: real, metrics: seq<Member>, key: string)
    requires IsDict(metrics)
    requires key == "status" || key == "_step"
    ensures key in Keys(Progress(step, runtime, metrics))
    ensures Get(Progress(step, runtime, metrics), key)
            == if key == "status" then Some(JString("RUNNING")) else Some(Number(step))
  {
    ProgressFields(step, runtime, metrics, key);
  }

  lemma ProgressCaseDistinct(step: int, runtime: real, metrics: seq<Member>, key: string)
    requires IsDict(metrics) && CaseDistinct(metrics, key)
    requires key == "status" || key == "_step"
    ensures CaseDistinct(Progress(step, runtime, metrics), key)
  {
    var top := Running(step, runtime);
    assert top[0].key == "status" && top[1].key == "_step" && top[2].key == "_runtime";
    assert CaseDistinct(top, key);
    UpdateCaseDistinct(metrics, top, key);
  }

  /** The "latest-run" link a new run writes leads the dashboard, started
      with its default runs directory, to that run's directory. */
  lemma DashboardFindsRun(name: string)
    requires |name| < Storage.LINK_BUFFER
    ensures Storage.FindLatestRun(CommandLine.DEFAULT_RUNS_DIR, Storage.Symlink(Some(name))) == Some(Join(ROOT_DIR, name))
  {
  }
}
