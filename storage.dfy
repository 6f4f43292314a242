/** The file readers of src/Storage.c over already-parsed documents: path
    building, the resolution of the "latest-run" symlink, typed lookups
    with defaults, and the records filled from metadata.json,
    summary.json, config.json and each line of metrics.jsonl. A document
    is `None` when its file cannot be opened or does not parse. */
module Storage {
  import opened Wrappers
  import opened Text
  import opened Json

  /** readlink's buffer: at most 1023 characters of a link target are read. */
  const LINK_BUFFER: nat := 1024

  /** buildPath: `dir`, a slash, then `filename`. */
  function BuildPath(dir: string, filename: string): (path: string)
    ensures |path| == |dir| + 1 + |filename|
    ensures path[..|dir|] == dir && path[|dir|] == '/' && path[|dir| + 1..] == filename
  {
    dir + "/" + filename
  }

  /** A path built under a directory names one file: the file name can be read back. */
  lemma BuildPathInjective(dir: string, f1: string, f2: string)
    ensures BuildPath(dir, f1) == BuildPath(dir, f2) <==> f1 == f2
  {
    if BuildPath(dir, f1) == BuildPath(dir, f2) {
      assert f1 == BuildPath(dir, f1)[|dir| + 1..];
    }
  }

  /** What lstat and readlink report for `<dir>/latest-run`. */
  datatype LinkStat =
    | NoEntry
    | NotALink
    /** A symbolic link; its target, or `None` when readlink fails. */
    | Symlink(target: Option<string>)

  /**
   * Storage_findLatestRun: nothing unless `latest-run` is a readable
   * symbolic link; then its target (cut to the 1023 characters readlink
   * stores), kept as it is when absolute and placed under `dir` otherwise.
   */
  function FindLatestRun(dir: string, link: LinkStat): (r: Option<string>)
    ensures r.Some? <==> link.Symlink? && link.target.Some?
    ensures r.Some? ==>
      var t := Cap(link.target.value, LINK_BUFFER);
      if |t| > 0 && t[0] == '/' then r.value == t else r.value == BuildPath(dir, t)
  {
    match link
    case Symlink(Some(target)) =>
      var t := Cap(target, LINK_BUFFER);
      if |t| > 0 && t[0] == '/' then Some(t) else Some(BuildPath(dir, t))
    case _ => None
  }

  /** A relative target of at most 1023 characters resolves to `dir/target`, an absolute one to itself. */
  lemma LatestRunResolves(dir: string, target: string)
    requires |target| < LINK_BUFFER
    ensures |target| > 0 && target[0] == '/' ==> FindLatestRun(dir, Symlink(Some(target))) == Some(target)
    ensures !(|target| > 0 && target[0] == '/') ==>
      FindLatestRun(dir, Symlink(Some(target))) == Some(dir + "/" + target)
  {
  }

  /** getJsonString: the member's text when it is a string, else the default (NULL stays NULL). */
  function GetJsonString(root: Json, key: string, def: Option<string>): (r: Option<string>)
    ensures GetObjectItem(root, key).Some? && GetObjectItem(root, key).value.JString? ==>
              r == Some(GetObjectItem(root, key).value.s)
    ensures !(GetObjectItem(root, key).Some? && GetObjectItem(root, key).value.JString?) ==> r == def
  {
    match GetObjectItem(root, key)
    case Some(JString(s)) => Some(s)
    case _ => def
  }

  /** getJsonInt: the member's `valueint` when it is a number, else the default. */
  function GetJsonInt(root: Json, key: string, def: int): (r: int)
    ensures GetObjectItem(root, key).Some? && GetObjectItem(root, key).value.JNumber? ==>
              r == ValueInt(GetObjectItem(root, key).value.n)
    ensures !(GetObjectItem(root, key).Some? && GetObjectItem(root, key).value.JNumber?) ==> r == def
  {
    match GetObjectItem(root, key)
    case Some(JNumber(n)) => ValueInt(n)
    case _ => def
  }

  /** getJsonDouble: the member's value when it is a number, else the default. */
  function GetJsonDouble(root: Json, key: string, def: real): (r: real)
    ensures GetObjectItem(root, key).Some? && GetObjectItem(root, key).value.JNumber? ==>
              r == GetObjectItem(root, key).value.n
    ensures !(GetObjectItem(root, key).Some? && GetObjectItem(root, key).value.JNumber?) ==> r == def
  {
    match GetObjectItem(root, key)
    case Some(JNumber(n)) => n
    case _ => def
  }

  /** The first member named `key` (up to case) decides every typed lookup. */
  lemma {:induction false} LookupsUseFirstMember(ms: seq<Member>, key: string, i: nat)
    requires i < |ms| && EqualIgnoringCase(ms[i].key, key)
    requires forall k :: 0 <= k < i ==> !EqualIgnoringCase(ms[k].key, key)
    ensures ms[i].value.JString? ==> forall def :: GetJsonString(JObject(ms), key, def) == Some(ms[i].value.s)
    ensures ms[i].value.JNumber? ==> forall def :: GetJsonInt(JObject(ms), key, def) == ValueInt(ms[i].value.n)
    ensures ms[i].value.JNumber? ==> forall def :: GetJsonDouble(JObject(ms), key, def) == ms[i].value.n
    ensures !ms[i].value.JString? ==> forall def :: GetJsonString(JObject(ms), key, def) == def
    ensures !ms[i].value.JNumber? ==> forall def :: GetJsonInt(JObject(ms), key, def) == def
  {
    LookupFirst(ms, key, i);
  }

  /** config.json: the whole document. */
  datatype RunConfig = RunConfig(json: Json)

  /** metadata.json, with "unknown" for a missing id or name, NULL for the other texts and 0 for the counts. */
  datatype RunMetadata = RunMetadata(
    runId: string, runName: string,
    user: Option<string>, host: Option<string>, os: Option<string>, python: Option<string>,
    gpuName: Option<string>, diskTotal: Option<string>, ramTotal: Option<string>, command: Option<string>,
    cpuCount: int, gpuCount: int)

  /** summary.json: the fields the dashboard shows, plus the whole document. */
  datatype RunSummary = RunSummary(status: string, runtime: real, timestamp: real, step: int, epoch: int, json: Json)

  /** One parsed line of metrics.jsonl. */
  datatype MetricEntry = MetricEntry(step: int, timestamp: real, json: Json)

  /** Storage_readConfig. */
  function ReadConfig(doc: Option<Json>): (r: Option<RunConfig>)
    ensures r.Some? <==> doc.Some?
    ensures r.Some? ==> r.value.json == doc.value
  {
    if doc.None? then None else Some(RunConfig(doc.value))
  }

  /** Storage_readMetadata. */
  function ReadMetadata(doc: Option<Json>): (r: Option<RunMetadata>)
    ensures r.Some? <==> doc.Some?
  {
    if doc.None? then None
    else
      var j := doc.value;
      Some(RunMetadata(
        GetJsonString(j, "id", Some("unknown")).value,
        GetJsonString(j, "name", Some("unknown")).value,
        GetJsonString(j, "user", None), GetJsonString(j, "host", None),
        GetJsonString(j, "os", None), GetJsonString(j, "python", None),
        GetJsonString(j, "gpu_name", None), GetJsonString(j, "disk_total", None),
        GetJsonString(j, "ram_total", None), GetJsonString(j, "command", None),
        GetJsonInt(j, "cpu_count", 0), GetJsonInt(j, "gpu_count", 0)))
  }

  /** Storage_readSummary. */
  function ReadSummary(doc: Option<Json>): (r: Option<RunSummary>)
    ensures r.Some? <==> doc.Some?
    ensures r.Some? ==> r.value.json == doc.value
  {
    if doc.None? then None
    else
      var j := doc.value;
      Some(RunSummary(
        GetJsonString(j, "status", Some("UNKNOWN")).value,
        GetJsonDouble(j, "_runtime", 0.0), GetJsonDouble(j, "_timestamp", 0.0),
        GetJsonInt(j, "_step", 0), GetJsonInt(j, "epoch", 0), j))
  }

  /** Storage_readNextMetric on one line: nothing for a line that does not parse. */
  function ReadNextMetric(line: Option<Json>): (r: Option<MetricEntry>)
    ensures r.Some? <==> line.Some?
    ensures r.Some? ==> r.value.json == line.value
  {
    if line.None? then None
    else Some(MetricEntry(GetJsonInt(line.value, "_step", -1), GetJsonDouble(line.value, "_timestamp", 0.0), line.value))
  }

  /**
   * A document without the keys (an empty object, or any value that is not
   * an object) gives every default: id and name "unknown", NULL texts and
   * zero counts; status "UNKNOWN", zero runtime, timestamp, step and epoch;
   * a metric entry at step -1 and timestamp 0.
   */
  lemma ReaderDefaults(j: Json)
    requires !j.JObject? || j.members == []
    ensures ReadMetadata(Some(j)) == Some(RunMetadata("unknown", "unknown", None, None, None, None, None, None, None, None, 0, 0))
    ensures ReadSummary(Some(j)) == Some(RunSummary("UNKNOWN", 0.0, 0.0, 0, 0, j))
    ensures ReadNextMetric(Some(j)) == Some(MetricEntry(-1, 0.0, j))
  {
  }

  /**
   * A summary written as {"status": s, "_step": k, ...} with the usual
   * ASCII lower-case keys first reads back the same status and step.
   */
  lemma SummaryFields(status: string, step: int, rest: seq<Member>)
    requires INT_MIN <= step <= INT_MAX
    ensures ReadSummary(Some(JObject([Member("status", JString(status)), Member("_step", JNumber(step as real))] + rest))).value.status == status
    ensures ReadSummary(Some(JObject([Member("status", JString(status)), Member("_step", JNumber(step as real))] + rest))).value.step == step
  {
    var ms := [Member("status", JString(status)), Member("_step", JNumber(step as real))] + rest;
    LookupFirst(ms, "status", 0);
    assert !EqualIgnoringCase(ms[0].key, "_step");
    LookupFirst(ms, "_step", 1);
    ValueIntExact(step);
  }
}
