/** RunWriter of the Python recorder: the files of one run directory, as
    their contents. config.json and metadata.json are replaced whole,
    metrics.jsonl gains one JSON line per call, and summary.json is
    rewritten from an in-memory cache that each update merges into. */
module Writer {
  import opened Wrappers
  import opened Json
  import opened Dicts
  import Storage

  const CONFIG_FILE := "config.json"
  const METADATA_FILE := "metadata.json"
  const METRICS_FILE := "metrics.jsonl"
  const SUMMARY_FILE := "summary.json"

  /** What a run directory holds: each JSON file's document, when the
      file exists, and the lines of metrics.jsonl. */
  datatype Files = Files(config: Option<Json>, metadata: Option<Json>, metrics: seq<Json>, summary: Option<Json>)

  /** os.path.join with one component: an absolute component replaces the
      directory; otherwise a separator is added unless the directory is
      empty or already ends with one. */
  function Join(dir: string, name: string): (r: string)
    ensures |name| > 0 && name[0] == '/' ==> r == name
    ensures !(|name| > 0 && name[0] == '/') ==> r == dir + name || r == dir + "/" + name
    ensures !(|name| > 0 && name[0] == '/') && |dir| > 0 ==> r[|r| - |name| - 1] == '/'
  {
    if |name| > 0 && name[0] == '/' then name
    else if |dir| == 0 || dir[|dir| - 1] == '/' then dir + name
    else dir + "/" + name
  }

  /** Where the writer puts a file is where the dashboard's buildPath
      looks for it, for a run directory without a trailing slash. */
  lemma JoinMatchesBuildPath(dir: string, name: string)
    requires |dir| > 0 && dir[|dir| - 1] != '/'
    requires !(|name| > 0 && name[0] == '/')
    ensures Join(dir, name) == Storage.BuildPath(dir, name)
  {
  }

  class RunWriter {
    const runDir: string
    const metricsPath: string
    const summaryPath: string
    /** summary_cache: every key ever written to the summary, latest value. */
    var summaryCache: seq<Member>
    var files: Files

    /** The cache is a dictionary, and once a summary has been written the
        summary file holds exactly the cache. */
    ghost predicate Valid()
      reads this
    {
      && IsDict(summaryCache)
      && (summaryCache != [] ==> files.summary == Some(JObject(summaryCache)))
    }

    /** RunWriter(run_dir): the paths of the two files it appends to and
        rewrites, and an empty cache. The directory keeps what it holds. */
    constructor (dir: string, existing: Files)
      ensures Valid()
      ensures runDir == dir && metricsPath == Join(dir, METRICS_FILE) && summaryPath == Join(dir, SUMMARY_FILE)
      ensures summaryCache == [] && files == existing
    {
      runDir := dir;
      metricsPath := Join(dir, METRICS_FILE);
      summaryPath := Join(dir, SUMMARY_FILE);
      summaryCache := [];
      files := existing;
    }

    /** write_config: config.json is replaced by the document. */
    method WriteConfig(config: Json)
      requires Valid()
      modifies this`files
      ensures Valid()
      ensures files == old(files).(config := Some(config))
    {
      files := files.(config := Some(config));
    }

    /** write_metadata: metadata.json is replaced by the document. */
    method WriteMetadata(metadata: Json)
      requires Valid()
      modifies this`files
      ensures Valid()
      ensures files == old(files).(metadata := Some(metadata))
    {
      files := files.(metadata := Some(metadata));
    }

    /** log_metrics: one line, the entry, after the earlier lines. */
    method LogMetrics(data: seq<Member>)
      requires Valid()
      modifies this`files
      ensures Valid()
      ensures files == old(files).(metrics := old(files.metrics) + [JObject(data)])
    {
      files := files.(metrics := files.metrics + [JObject(data)]);
    }

    /** update_summary: the update is merged into the cache (its keys
        overwrite, all others stay) and summary.json becomes the cache. */
    method UpdateSummary(data: seq<Member>)
      requires Valid() && IsDict(data)
      modifies this`summaryCache, this`files
      ensures Valid()
      ensures summaryCache == Update(old(summaryCache), data)
      ensures files == old(files).(summary := Some(JObject(summaryCache)))
    {
      summaryCache := Update(summaryCache, data);
      files := files.(summary := Some(JObject(summaryCache)));
    }
  }
}
