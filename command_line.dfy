/** CommandLine: the argv dispatch of the expml binary. parseCommand
    compares argv[1] against the known flags and commands and decides
    what to do and with which status; CommandLine_run turns the status
    into the process exit code. What each branch prints is recorded as
    the effect it has, not executed. */
module CommandLine {

  const VERSION: string := "0.1.0"
  const PROGRAM_NAME: string := "expml"
  const DEFAULT_RUNS_DIR: string := "expml_runs"

  datatype CommandStatus = Success | Error | Exit

  /** What a branch of parseCommand does besides returning its status. */
  datatype Effect =
    | ShowHelp                    // printHelpFlag on stdout
    | ShowVersion                 // "expml 0.1.0"
    | LaunchTui(runsDir: string)  // runTUI(expml_dir)
    | ListNotice                  // the "will be implemented soon" line
    | MissingPath                 // "-p requires a path argument" on stderr
    | NoSuchCommand(command: string)

  datatype Parsed = Parsed(status: CommandStatus, effect: Effect)

  /** parseCommand over argv (argv[0] is the program name, argc is |argv|). */
  function ParseCommand(argv: seq<string>): (r: Parsed)
    ensures |argv| < 2 ==> r == Parsed(Exit, ShowHelp)
    ensures r.status == Exit <==> r.effect.ShowHelp? || r.effect.ShowVersion?
    ensures r.status == Success <==> r.effect.LaunchTui? || r.effect.ListNotice?
    ensures r.status == Error <==> r.effect.MissingPath? || r.effect.NoSuchCommand?
  {
    if |argv| < 2 then Parsed(Exit, ShowHelp)
    else
      var command := argv[1];
      if command == "--version" then Parsed(Exit, ShowVersion)
      else if command == "--help" then Parsed(Exit, ShowHelp)
      else if command == "run" then
        if |argv| > 2 && argv[2] == "-p" then
          if |argv| < 4 then Parsed(Error, MissingPath)
          else Parsed(Success, LaunchTui(argv[3]))
        else Parsed(Success, LaunchTui(DEFAULT_RUNS_DIR))
      else if command == "list" then Parsed(Success, ListNotice)
      else Parsed(Error, NoSuchCommand(command))
  }

  /** CommandLine_run: 0 for success and for an early exit, 1 otherwise. */
  function Run(argv: seq<string>): (code: int)
    ensures code == 0 || code == 1
    ensures code == 1 <==> ParseCommand(argv).status == Error
  {
    match ParseCommand(argv).status
    case Success => 0
    case Error => 1
    case Exit => 0
  }

  /** The exit code is 1 exactly for "run -p" without a path and for a
      first argument that is neither a flag nor a command. */
  lemma ExitCodeCases(argv: seq<string>)
    ensures Run(argv) == 1 <==>
              |argv| >= 2
              && ((argv[1] == "run" && |argv| == 3 && argv[2] == "-p")
                  || (argv[1] != "--version" && argv[1] != "--help" && argv[1] != "run" && argv[1] != "list"))
  {
  }

  /** The dashboard is launched exactly for "run", on argv[3] after "-p"
      and on "expml_runs" otherwise. */
  lemma LaunchesTui(argv: seq<string>, dir: string)
    ensures ParseCommand(argv).effect == LaunchTui(dir) <==>
              |argv| >= 2 && argv[1] == "run"
              && (if |argv| > 2 && argv[2] == "-p" then |argv| >= 4 && dir == argv[3] else dir == DEFAULT_RUNS_DIR)
  {
  }

  /** Flags count only as the first argument: after "run" a "--help" is
      ignored and the default directory is used. */
  lemma FlagsOnlyFirst(rest: seq<string>)
    requires |rest| == 0 || rest[0] != "-p"
    ensures ParseCommand(["expml", "run"] + rest) == Parsed(Success, LaunchTui(DEFAULT_RUNS_DIR))
  {
    var argv := ["expml", "run"] + rest;
    assert argv[1] == "run";
    assert |argv| > 2 ==> argv[2] == rest[0];
  }

  /** Anything after the first argument is irrelevant except to "run". */
  lemma OnlyRunReadsFurther(argv: seq<string>, extra: seq<string>)
    requires |argv| >= 2 && argv[1] != "run"
    ensures ParseCommand(argv + extra) == ParseCommand(argv)
  {
    assert (argv + extra)[1] == argv[1];
  }
}
