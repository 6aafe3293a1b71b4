# logutils configuration layer in Dafny

This project models the configuration layer of `logutils`, a small wrapper
around structlog and the standard `logging` package. It covers these parts:

- the `Log` sink specification and the resolution of its missing levels,
  which also adds a stderr log when no console stream is named
  (`LogTypes`, `Resolver`);
- the processor chains chosen by verbosity, each processor's effect on an
  event record, and the chained processor that folds them
  (`Processors`);
- the handler loop that builds the handler map, the root logger's handler
  names and the list of real log files (`Handlers`);
- `bind`, which refuses the eight restricted keys with one warning each,
  and `bind_fargs`, which replaces the bound function arguments
  (`BoundLoggers`);
- the default log file location (`Paths`);
- the process-wide state: the remembered arguments of the last
  `init_logging` call, the structured logger's "configured" bit, and the
  configuration applied to the logging tree. Over that state it models
  the idempotence gate of `init_logging` and the lazy configuration in
  `Logger` (`Configuration`).

Code that changes things step by step is written as methods with loops,
each proved equal to a specification function:

- `SetLogDefaults` builds the resolved list.
- `BuildHandlerConfig` runs the handler loop.
- `Bind` filters restricted keys.
- `RunChain` runs a processor chain.

The global state is the class `Configuration.LoggingState`. Its `Valid()`
invariant states that the applied configuration is always the one built
from the remembered arguments.

Two console tests exist in the source, and the model keeps both:

- The resolver compares the file name exactly with `stdout` and `stderr`.
- The handler loop compares the lower-cased name.

So a log named `STDERR` gets the file default level, a stderr log is still
added beside it, and the handler loop then builds a stream handler for it
(`Configuration.UpperCaseStreamResolvedAsFile`,
`Configuration.UpperCaseStreamHandledAsConsole`).

A logger request that configures with the defaults does not fix the
configuration: the gate of `init_logging` (`src/logutils/api.py:264`)
compares its arguments with the remembered ones, so a later call with
other arguments rebuilds everything. `Configuration.ConfigureThenLog`
requests a logger first, then configures with other arguments, and ends
with the new configuration in place.

## Model

| member | source | states |
|---|---|---|
| LogTypes.LowerChar | src/logutils/api.py:405 | an A-Z letter becomes its own lower-case letter (code point + 32); every other character is kept |
| LogTypes.Lower | src/logutils/api.py:405 | the lower-cased name has the same length, and each character is lower-cased as `LowerChar` does |
| LogTypes.IsConsoleLower | src/logutils/api.py:405 | the handler loop's test holds exactly when the name spells `stderr` or `stdout` in any mix of upper- and lower-case letters |
| LogTypes.IsConsoleExact | src/logutils/api.py:483 | the resolver's exact test (also used at line 491) accepts only names that the handler loop's test accepts too |
| LogTypes.UpperCaseStreamIsOnlyLowerConsole | src/logutils/api.py:483 | `STDERR` is a console stream for the handler loop's lower-cased test but not for the resolver's exact test |
| Resolver.DefaultConsoleLevel | src/logutils/api.py:460-469 | console default is TRACE iff verbose >= 3, DEBUG iff 1 <= verbose < 3, INFO iff verbose == 0 |
| Resolver.DefaultFileLevel | src/logutils/api.py:460-469 | file default is TRACE iff verbose >= 3 and DEBUG iff verbose < 3 |
| Resolver.DefaultsAgreeIffVerbose | src/logutils/api.py:462-469 | the two defaults coincide exactly when verbose >= 1 |
| Resolver.ResolveOne | src/logutils/api.py:471-488 | the result has a level and keeps file and format; a log with a level passes unchanged; a log without one gets the console default when its file is exactly stdout/stderr and the file default otherwise |
| Resolver.ResolveEach | src/logutils/api.py:471-488 | one resolved log per input log, in input order |
| Resolver.ResolvedLogs | src/logutils/api.py:447-501 | every log of the resolved list has a level |
| Resolver.ResolvedShape | src/logutils/api.py:447-501 | the result has the input's length or one more; the input order survives as a prefix with files and formats kept; logs with a level are unchanged |
| Resolver.SyntheticIffNoConsole | src/logutils/api.py:490-499 | a log is appended exactly when no input file is exactly stdout/stderr, and it is stderr, colour, at the console default |
| Resolver.ResolvedHasConsole | src/logutils/api.py:454-456 | the resolved list always holds a stdout/stderr log |
| Resolver.ResolveIdempotent | src/logutils/api.py:447-501 | resolving a resolved list again returns it unchanged |
| Resolver.SetLogDefaults | src/logutils/api.py:447-501 | the loop's result equals the resolved list |
| Processors.AddPidProcessor | src/logutils/api.py:597-604 | `pid` holds the process id and no other key changes |
| Processors.AddThreadProcessor | src/logutils/api.py:607-614 | `thread` holds the thread name and no other key changes |
| Processors.RemoveFargsProcessor | src/logutils/api.py:582-594 | `fargs` is absent afterwards, no other key changes, and a record without `fargs` is returned as it was |
| Processors.RemoveFargsIdempotent | src/logutils/api.py:582-594 | removing bound function arguments twice is removing them once |
| Processors.DropLast3 | src/logutils/api.py:540 | `s[:-3]` is a prefix of `s`, three characters shorter, or empty when `s` is shorter than three |
| Processors.ShortTimestamper | src/logutils/api.py:528-542 | the timestamp is the medium local time with its last three characters cut (empty when it has fewer than three), and no other key changes |
| Processors.CallerIgnores | src/logutils/api.py:555-557 | the stack walk skips `logging` first and at most one other name, and skips this module exactly when the record's logger is absent or is not this module |
| Processors.DecimalString | src/logutils/api.py:577 | a line number is spelled as a non-empty string of decimal digits that denotes the number, with no leading zero |
| Processors.AddCallerInfoProcessor | src/logutils/api.py:545-579 | with a frame that has a module, `module`, `function` and `lineno` are set from it; without a frame or a module the record is unchanged; no other key changes |
| Processors.Apply | src/logutils/api.py:272-303 | each processor changes only the keys it writes; the level processor stores the logging method's name, the ISO stamp the UTC time, the medium stamp the local time |
| Processors.ApplyAllAppend | src/logutils/api.py:519-522 | running two chains in turn is running their concatenation |
| Processors.ApplyKeepsFargs | src/logutils/api.py:597-614 | every processor except the remove-fargs one keeps `fargs` as it was |
| Processors.ApplyAllKeepsFargs | src/logutils/api.py:519-522 | a chain without the remove-fargs processor keeps `fargs` as it was |
| Processors.JsonProcessors | src/logutils/api.py:284-287 | the JSON chain is always level, pid, thread, ISO UTC timestamp, caller info, and has no remove-fargs step |
| Processors.ConsoleProcessors | src/logutils/api.py:290-303 | the console chain equals the JSON chain iff verbose >= 2, is level, remove-fargs, pid, thread, medium timestamp iff verbose == 1, and is level, remove-fargs, short timestamp iff verbose == 0; remove-fargs is in it iff verbose < 2, caller info iff verbose >= 2 |
| Processors.QuietConsoleDropsFargs | src/logutils/api.py:294-296 | below verbosity 2 a console record never carries `fargs`, whatever the input record held |
| Processors.VerboseChainsKeepFargs | src/logutils/api.py:291-292 | JSON records always keep `fargs`, and console records keep it from verbosity 2 on |
| Processors.JsonChainSteps | src/logutils/api.py:284-287 | the JSON chain applies its five processors in order |
| Processors.JsonRecordContents | src/logutils/api.py:272-287 | a JSON record carries the level, process id, thread name and UTC timestamp, and the call site whenever the stack walk finds a frame with a module |
| Processors.RunChain | src/logutils/api.py:504-525 | the chained processor applies the pre-processors left to right and hands the result to the final renderer |
| Processors.EmptyChainIsFinal | src/logutils/api.py:514-523 | chaining no pre-processors is the final renderer alone |
| Handlers.HandlerFor | src/logutils/api.py:404-421 | the handler carries the log's level and format; it is a stream handler on `ext://sys.<file>` iff the lower-cased file is stderr/stdout, otherwise a watched-file handler on the file |
| Handlers.RootHandlers | src/logutils/api.py:412-422 | the root logger gets one handler name per log, in order, duplicates kept |
| Handlers.HandlerMapKeys | src/logutils/api.py:406-416 | the handler map has exactly one key per distinct file |
| Handlers.HandlerMapLastWins | src/logutils/api.py:406-416 | the entry under a file is the handler of the last log with that file |
| Handlers.RealLogfilesMembers | src/logutils/api.py:413-415 | a name is a real log file exactly when some log names it and its lower-cased form is not stderr/stdout |
| Handlers.ConsoleOnlyAnnouncesNothing | src/logutils/api.py:413-415 | a list of logs that are all console streams for the handler loop gives no real log files |
| Handlers.BuildHandlerConfig | src/logutils/api.py:396-422 | the loop builds exactly the handler map, the root handler list and the real log file list |
| BoundLoggers.Bind | src/logutils/api.py:124-133 | the new handle keeps its name; its context is the old one updated with the arguments whose keys are not restricted; the warnings are the restricted keys supplied, in argument order |
| BoundLoggers.BindContextMeaning | src/logutils/api.py:128-133 | after binding, a key is bound iff it was bound before or is a new unrestricted key; new values win; restricted keys keep their old value |
| BoundLoggers.BindRestrictedOnlyIsNoOp | src/logutils/api.py:79-88 | binding only restricted keys leaves the context unchanged |
| BoundLoggers.RejectedKeysMembers | src/logutils/api.py:128-131 | a key is warned about iff it was supplied and is restricted |
| BoundLoggers.RejectedKeysDistinct | src/logutils/api.py:128-131 | no key is warned about twice |
| BoundLoggers.RestrictedKeysExample | tests/test_logutils.py:96-99 | binding `pid` and `good_key` binds only `good_key` and warns once, about `pid` |
| BoundLoggers.BindFargs | src/logutils/api.py:150-156 | `fargs` becomes the given mapping (empty when none) overridden by the keyword arguments; nothing else in the context changes |
| BoundLoggers.BindFargsReplaces | src/logutils/api.py:150-156 | a second `bind_fargs` replaces the first one's arguments instead of merging |
| BoundLoggers.BindKeepsFargs | src/logutils/api.py:124-133 | `bind` never changes bound function arguments |
| Paths.DefaultLogfile | src/logutils/api.py:433-444 | the default log file is `/var/tmp/<stem>.log` when /var/tmp exists and the stem is relative, and `<stem>.log` otherwise |
| Paths.DefaultLogfileEndsWithName | src/logutils/api.py:433-444 | the default log file always ends in `<stem>.log` |
| Paths.DefaultLogfileLocation | src/logutils/api.py:433-444 | the file is `/var/tmp/<stem>.log` only when /var/tmp exists and the stem is relative |
| Configuration.Formatters | src/logutils/api.py:325-354 | there are exactly the json, color and nocolor formatters; json runs the JSON chain and both console formatters run the console chain |
| Configuration.DefaultConfig | src/logutils/api.py:221-225 | the default arguments give one colour stream handler on stderr at INFO, a root list of just stderr, and no log file to announce |
| Configuration.UpperCaseStreamResolvedAsFile | src/logutils/api.py:483-499 | an `STDERR` log without a level gets the file default, and a stderr log is still appended |
| Configuration.UpperCaseStreamHandledAsConsole | src/logutils/api.py:404-411 | that `STDERR` log still becomes a stream handler on `ext://sys.STDERR` and is not announced as a log file |
| Configuration.BuildConfig | src/logutils/api.py:270-422 | the built tree configuration and real log files are those of the resolved logs, and the notices are one listing of them or none |
| Configuration.LoggingState.constructor | src/logutils/api.py:90-92 | the process starts with no remembered arguments, not configured, nothing applied and nothing announced |
| Configuration.LoggingState.InitLogging | src/logutils/api.py:261-267 | a negative verbosity fails and changes nothing; repeating the remembered arguments while configured changes nothing; otherwise the arguments are remembered, the logger is configured, their configuration is applied once more and their log files are announced |
| Configuration.LoggingState.Reconfigure | src/logutils/api.py:267-430 | the arguments are remembered, the logger is configured, the configuration built from them is applied, and the log files are announced once, without a nested configuration |
| Configuration.LoggingState.EnsureConfigured | src/logutils/api.py:208-212 | with no remembered arguments or an unconfigured logger, the defaults are applied without an announcement; otherwise nothing changes; afterwards no configuration is needed |
| Configuration.LoggingState.Logger | src/logutils/api.py:185-218 | the lazy test runs first; the handle is named after `name` or the script, and is bound to the unrestricted keyword arguments with one warning per restricted key |
| Configuration.LoggingState.BindHandle | src/logutils/api.py:124-133 | `bind` first requests a logger; when nothing is configured this applies the default configuration without an announcement, and otherwise changes nothing; it then binds as `Bind` does |
| Configuration.LoggingState.ResetStructlog | tests/test_logutils.py:83-88 | a reset of the structured logger clears only the configured bit and keeps the invariant |
| Configuration.InitTwice | src/logutils/api.py:228-230 | configuring twice with the same new arguments sets the logging tree up once and announces the log files once, leaving those arguments remembered, the structured logger configured and their configuration applied |
| Configuration.ResetThenLog | src/logutils/api.py:209-212 | after a reset the next logger request configures again: the default arguments are remembered, the logger is configured, the default configuration is applied once more and nothing is announced |
| Configuration.ConfigureThenLog | src/logutils/api.py:261-267 | a logger request before configuration applies the defaults; a later configuration call with other arguments replaces them, and a logger requested after that keeps the new configuration: the structured logger ends configured, two setups in all, with the new arguments' notices |

## Left out

- I/O is not modelled: `logging.config.dictConfig` applying the configuration, the handlers writing to streams and files, and rendering records. Applying the configuration is modelled as storing the `TreeConfig` value. The "Logging to files." record is modelled as the list of files it announces.
- A failure inside `dictConfig` is not modelled. An example is a stream name like `ext://sys.STDERR`, which does not exist.
- structlog's own configuration (`configure`, `reset_defaults`, `is_configured`) is modelled only as the `configured` bit. The foreign pre-chain and the structlog processor list are left out.
- The JSON and console renderers and the colour styles are left out, since they are output formatting. The final renderer of a chain is a function parameter.
- Registering the TRACE level with structlog and `logging` (lines 372-376) is left out, because it patches foreign modules.
- The clock, `getpid`, `current_thread().name` and the stack walk are inputs (`Processors.Runtime`). The stack walk is a function of the names to skip. The frame-info-missing branch (line 568) cannot occur and is folded into the no-module branch.
- structlog's `add_log_level` is modelled as setting `level` to the logging method's name. Its renaming of `warn` and `exception` is not modelled.
- Records and bound contexts are values, so processors return new records. In-place mutation of the event dictionary and aliasing between the caller's dictionary and the result are not modelled.
- The remembered arguments are compared as values. Python's inequality of a list and a tuple holding the same logs is not modelled, and neither is sharing the caller's list object.
- `init_logging`'s `assert verbose >= 0` is modelled as a failed call that changes nothing. Running Python with `-O`, which skips that assert, is not modelled.
- `get_default_logfile` takes the existence of `/var/tmp` as a boolean input. `Path` normalisation of `//` and `.` components is not modelled.
- Lower-casing covers A-Z only. For the test against `stderr` and `stdout` this is exact, since no other character lower-cases to one of their letters.
- `scriptname` inference is an input of `Logger`.
- The nested logger that `bind` uses to emit its warnings is modelled as the lazy test it runs plus the list of warned keys.
- The sink list is modelled as a sequence, which can be read more than once. `_set_log_defaults` reads its `logs` argument twice (lines 471 and 491). A one-shot iterator is empty on the second read, so a stderr colour log is appended even when a console log was given. When the given console log is `stderr`, the handler loop then replaces its handler and names stderr twice in the root list. This is not modelled.
- Keyword names that Python cannot pass to `bind` are not modelled. An example is `self`, which raises `TypeError` at line 124. The model binds such a key like any other.
- Thread safety of concurrent configuration is not modelled. The source has no logic for it.
- `src/logutils/logutils.py` duplicates `api.py` and is not part of this model. The pytest plugin and the package re-exports are not part of this model either.
