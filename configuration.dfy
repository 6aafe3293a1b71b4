/** The configuration entry point and the logger accessor: the remembered
    arguments of the last configuration, the structured logger's
    "configured" bit, and the logging-tree configuration they produce. */
module Configuration {
  import opened LogTypes
  import opened Resolver
  import opened Processors
  import opened Handlers
  import opened BoundLoggers

  /** The arguments of one configuration call. */
  datatype InitArgs = InitArgs(logs: seq<Log>, verbose: int)

  /** The arguments used when a logger is requested before configuration:
      one stderr log in colour, verbosity 0. */
  const DefaultArgs: InitArgs := InitArgs([Log(DefaultConsoleFile, DefaultConsoleFormat, None)], 0)

  /** What the configuration hands to the logging tree: the handler map, the
      root logger's handler names and level, and each formatter's processor
      chain. */
  datatype TreeConfig = TreeConfig(
    handlers: map<string, Handler>,
    rootHandlers: seq<string>,
    rootLevel: Level,
    formatters: map<Format, seq<Proc>>)

  function Formatters(verbose: nat): (f: map<Format, seq<Proc>>)
    ensures f.Keys == {Json, Color, NoColor}
    ensures f[Json] == JsonProcessors()
    ensures f[Color] == f[NoColor] == ConsoleProcessors(verbose)
  {
    map[Json := JsonProcessors(), Color := ConsoleProcessors(verbose), NoColor := ConsoleProcessors(verbose)]
  }

  /** The logging-tree configuration built from a sink list and a
      verbosity. */
  function ConfigFor(logs: seq<Log>, verbose: nat): TreeConfig {
    var resolved := ResolvedLogs(logs, verbose);
    TreeConfig(HandlerMap(resolved), RootHandlers(resolved), Trace, Formatters(verbose))
  }

  /** The log files announced after configuring. */
  function AnnouncedFiles(logs: seq<Log>, verbose: nat): seq<string> {
    RealLogfiles(ResolvedLogs(logs, verbose))
  }

  /** The "Logging to files." records a configuration emits: one listing
      the log files, or none when there are none. */
  function Notices(logs: seq<Log>, verbose: nat): seq<seq<string>> {
    if AnnouncedFiles(logs, verbose) == [] then [] else [AnnouncedFiles(logs, verbose)]
  }

  /** The configuration built for the default arguments: one colour stream
      handler on stderr at INFO, and no log file to announce. */
  lemma DefaultConfig()
    ensures var c := ConfigFor(DefaultArgs.logs, 0);
      && c.handlers == map["stderr" := StreamHandler(Info, Color, "ext://sys.stderr")]
      && c.rootHandlers == ["stderr"]
    ensures AnnouncedFiles(DefaultArgs.logs, 0) == []
  {
    var logs := DefaultArgs.logs;
    assert AnyExactConsole(logs) by { assert IsConsoleExact(logs[0].file); }
    var resolved := ResolvedLogs(logs, 0);
    var log := Log("stderr", Color, Some(Info));
    assert resolved == [log];
    assert resolved[..|resolved| - 1] == [];
    assert Lower("stderr") == "stderr";
    assert IsConsoleLower("stderr");
    assert HandlerFor(log) == StreamHandler(Info, Color, "ext://sys.stderr");
    assert HandlerMap(resolved) == HandlerMap([])[log.file := HandlerFor(log)];
    assert RealLogfiles(resolved) == RealLogfiles([]) + [];
  }

  /** The two console tests disagree on upper-case stream names.  For the
      resolver such a log is a file: without a level it gets the file
      default, and a stderr log is still added. */
  lemma UpperCaseStreamResolvedAsFile(format: Format, verbose: nat)
    ensures ResolvedLogs([Log("STDERR", format, None)], verbose)
      == [Log("STDERR", format, Some(DefaultFileLevel(verbose))), SyntheticConsole(verbose)]
  {
    var logs := [Log("STDERR", format, None)];
    UpperCaseStreamIsOnlyLowerConsole();
    assert !AnyExactConsole(logs) by {
      forall i | 0 <= i < |logs| ensures !IsConsoleExact(logs[i].file) { }
    }
  }

  /** For the handler loop the same log is a console stream: it gets a
      stream handler on a stream named after the upper-case spelling, and
      it is not announced as a log file. */
  lemma {:induction false} UpperCaseStreamHandledAsConsole(format: Format, verbose: nat)
    ensures var logs := [Log("STDERR", format, None)];
      var handlers := ConfigFor(logs, verbose).handlers;
      && "STDERR" in handlers
      && handlers["STDERR"] == StreamHandler(DefaultFileLevel(verbose), format, "ext://sys.STDERR")
      && AnnouncedFiles(logs, verbose) == []
  {
    var logs := [Log("STDERR", format, None)];
    var upper := Log("STDERR", format, Some(DefaultFileLevel(verbose)));
    UpperCaseStreamResolvedAsFile(format, verbose);
    var resolved := ResolvedLogs(logs, verbose);
    assert resolved == [upper, SyntheticConsole(verbose)];
    UpperCaseStreamIsOnlyLowerConsole();
    var h := HandlerFor(upper);
    assert h == StreamHandler(DefaultFileLevel(verbose), format, "ext://sys.STDERR");
    HandlerMapLastWins(resolved, 0);
    assert ConfigFor(logs, verbose).handlers == HandlerMap(resolved);
    assert Lower("stderr") == "stderr";
    ConsoleOnlyAnnouncesNothing(resolved);
  }

  /** The configuration steps of `init_logging` past its gate: resolve the
      logs, pick the processor chains, build the handlers. */
  method BuildConfig(logs: seq<Log>, verbose: nat) returns (tree: TreeConfig, realLogfiles: seq<string>)
    ensures tree == ConfigFor(logs, verbose)
    ensures realLogfiles == AnnouncedFiles(logs, verbose)
    ensures Notices(logs, verbose) == if realLogfiles == [] then [] else [realLogfiles]
  {
    var resolved := SetLogDefaults(logs, verbose);
    ResolvedShape(logs, verbose);
    var formatters := Formatters(verbose);
    var handlers, rootHandlers;
    handlers, rootHandlers, realLogfiles := BuildHandlerConfig(resolved);
    tree := TreeConfig(handlers, rootHandlers, Trace, formatters);
  }

  /** The process-wide logging state: the remembered arguments of the last
      configuration call (empty before the first), whether the structured
      logger reports itself configured, the configuration applied to the
      logging tree, how many times it was applied, and the file lists the
      "Logging to files." records announced. */
  class LoggingState {
    var memo: Option<InitArgs>
    var configured: bool
    var tree: Option<TreeConfig>
    var setups: nat
    var fileNotices: seq<seq<string>>

    /** The applied configuration is always the one built from the
        remembered arguments. */
    ghost predicate Valid()
      reads this
    {
      && (configured ==> memo.Some?)
      && (memo.Some? ==> memo.value.verbose >= 0 && tree == Some(ConfigFor(memo.value.logs, memo.value.verbose)))
      && (memo.None? ==> tree.None?)
    }

    /** The test of the logger accessor: configure first when nothing was
        configured yet or the structured logger lost its configuration. */
    predicate NeedsInit()
      reads this
    {
      memo.None? || !configured
    }

    constructor ()
      ensures Valid()
      ensures memo == None && !configured && tree == None && setups == 0 && fileNotices == []
    {
      memo := None;
      configured := false;
      tree := None;
      setups := 0;
      fileNotices := [];
    }

    /** `init_logging`.  A negative verbosity fails before anything
        changes; a call repeating the remembered arguments while the
        structured logger is configured does nothing; any other call
        remembers its arguments and rebuilds the whole configuration. */
    method InitLogging(logs: seq<Log>, verbose: int) returns (ok: bool)
      requires Valid()
      modifies this
      ensures Valid()
      ensures ok <==> verbose >= 0
      ensures !ok ==> unchanged(this)
      ensures ok && old(memo) == Some(InitArgs(logs, verbose)) && old(configured) ==> unchanged(this)
      ensures ok && !(old(memo) == Some(InitArgs(logs, verbose)) && old(configured)) ==>
        && memo == Some(InitArgs(logs, verbose))
        && configured
        && tree == Some(ConfigFor(logs, verbose))
        && setups == old(setups) + 1
        && fileNotices == old(fileNotices) + Notices(logs, verbose)
    {
      if verbose < 0 {
        return false;
      }
      ok := true;
      if memo == Some(InitArgs(logs, verbose)) && configured {
        return;
      }
      Reconfigure(logs, verbose);
    }

    /** The part of `init_logging` past its gate: remember the arguments,
        reset and configure the structured logger, apply the new
        configuration and announce the log files. */
    method Reconfigure(logs: seq<Log>, verbose: nat)
      modifies this
      ensures Valid()
      ensures memo == Some(InitArgs(logs, verbose))
      ensures configured
      ensures tree == Some(ConfigFor(logs, verbose))
      ensures setups == old(setups) + 1
      ensures fileNotices == old(fileNotices) + Notices(logs, verbose)
    {
      // The arguments are remembered and the structured logger's defaults
      // reset before anything is built; nothing observes the state between
      // these steps, so the new state is written at once.
      var built, realLogfiles := BuildConfig(logs, verbose);
      memo, configured, tree, setups := Some(InitArgs(logs, verbose)), true, Some(built), setups + 1;
      if realLogfiles != [] {
        // The announcement asks for a logger; with the arguments remembered
        // and the structured logger configured, that request does not
        // configure again.
        assert !NeedsInit();
        fileNotices := fileNotices + [realLogfiles];
      }
    }

    /** The lazy-configuration test of `Logger`: configure with the default
        arguments when nothing was configured yet or the structured logger
        lost its configuration; otherwise change nothing. */
    method EnsureConfigured()
      requires Valid()
      modifies this
      ensures Valid()
      ensures !NeedsInit()
      ensures !old(NeedsInit()) ==> unchanged(this)
      ensures old(NeedsInit()) ==>
        && memo == Some(DefaultArgs)
        && tree == Some(ConfigFor(DefaultArgs.logs, 0))
        && setups == old(setups) + 1
        && fileNotices == old(fileNotices)
    {
      if NeedsInit() {
        DefaultConfig();
        assert Notices(DefaultArgs.logs, 0) == [];
        var args := DefaultArgs;
        assert !(memo == Some(InitArgs(args.logs, args.verbose)) && configured);
        var _ := InitLogging(args.logs, args.verbose);
      }
    }

    /** `Logger`: the lazy-configuration test, then a handle named `name`
        (or the calling script's name) bound to the keyword arguments. */
    method Logger(name: Option<string>, scriptName: string, kwargs: Kwargs)
      returns (lg: BoundLogger, warnings: seq<string>)
      requires Valid()
      requires DistinctKeys(kwargs)
      modifies this
      ensures Valid()
      ensures !NeedsInit()
      ensures !old(NeedsInit()) ==> unchanged(this)
      ensures old(NeedsInit()) ==>
        && memo == Some(DefaultArgs)
        && tree == Some(ConfigFor(DefaultArgs.logs, 0))
        && setups == old(setups) + 1
        && fileNotices == old(fileNotices)
      ensures lg.name == (if name.Some? then name.value else scriptName)
      ensures lg.context == BoundContext(map[], kwargs)
      ensures warnings == RejectedKeys(kwargs)
    {
      var loggerName := if name.Some? then name.value else scriptName;
      EnsureConfigured();
      lg, warnings := Bind(BoundLogger(loggerName, map[]), kwargs);
    }

    /** `BetterBoundLogger.bind` as called on a handle: it first asks for a
        logger to report restricted keys with, which runs the
        lazy-configuration test, then binds. */
    method BindHandle(lg: BoundLogger, newValues: Kwargs) returns (r: BoundLogger, warnings: seq<string>)
      requires Valid()
      requires DistinctKeys(newValues)
      modifies this
      ensures Valid()
      ensures !NeedsInit()
      ensures !old(NeedsInit()) ==> unchanged(this)
      ensures old(NeedsInit()) ==>
        && memo == Some(DefaultArgs)
        && tree == Some(ConfigFor(DefaultArgs.logs, 0))
        && setups == old(setups) + 1
        && fileNotices == old(fileNotices)
      ensures r.name == lg.name && r.context == BoundContext(lg.context, newValues)
      ensures warnings == RejectedKeys(newValues)
    {
      EnsureConfigured();
      r, warnings := Bind(lg, newValues);
    }

    /** The structured logger's own reset, as callers outside this layer
        may invoke it: only the configured bit changes. */
    method ResetStructlog()
      requires Valid()
      modifies this`configured
      ensures Valid()
      ensures !configured
    {
      configured := false;
    }
  }

  /** Configuring twice with the same arguments sets the logging tree up
      once and announces the log files once. */
  method InitTwice(state: LoggingState, logs: seq<Log>, verbose: nat)
    requires state.Valid()
    requires state.memo != Some(InitArgs(logs, verbose))
    modifies state
    ensures state.Valid()
    ensures state.memo == Some(InitArgs(logs, verbose)) && state.configured
    ensures state.tree == Some(ConfigFor(logs, verbose))
    ensures state.setups == old(state.setups) + 1
    ensures state.fileNotices == old(state.fileNotices) + Notices(logs, verbose)
  {
    var ok1 := state.InitLogging(logs, verbose);
    var ok2 := state.InitLogging(logs, verbose);
  }

  /** A logger requested before any configuration applies the defaults; a
      later configuration call with other arguments replaces them, and a
      logger requested after that leaves the new configuration in place. */
  method ConfigureThenLog(state: LoggingState, logs: seq<Log>, verbose: nat)
    returns (lg: BoundLogger)
    requires state.Valid() && state.NeedsInit()
    requires InitArgs(logs, verbose) != DefaultArgs
    modifies state
    ensures state.Valid() && state.configured
    ensures state.memo == Some(InitArgs(logs, verbose))
    ensures state.tree == Some(ConfigFor(logs, verbose))
    ensures state.setups == old(state.setups) + 2
    ensures state.fileNotices == old(state.fileNotices) + Notices(logs, verbose)
    ensures lg.name == "app"
  {
    var lg0, w0 := state.Logger(Some("early"), "app", []);
    var ok := state.InitLogging(logs, verbose);
    lg, w0 := state.Logger(None, "app", []);
  }

  /** After the structured logger is reset, the next logger request
      configures again with the default arguments. */
  method ResetThenLog(state: LoggingState)
    requires state.Valid()
    modifies state
    ensures state.Valid() && state.configured
    ensures state.memo == Some(DefaultArgs)
    ensures state.tree == Some(ConfigFor(DefaultArgs.logs, 0))
    ensures state.setups == old(state.setups) + 1
    ensures state.fileNotices == old(state.fileNotices)
  {
    state.ResetStructlog();
    var lg, w := state.Logger(None, "app", []);
  }
}
