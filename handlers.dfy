/** The handler loop of the configuration routine: one handler per resolved
    log, keyed by the log's file, the root logger's handler list, and the
    list of real log files. */
module Handlers {
  import opened LogTypes

  /** A handler entry of the logging configuration. */
  datatype Handler =
    | StreamHandler(level: Level, formatter: Format, stream: string)
    | WatchedFileHandler(level: Level, filename: string, formatter: Format)

  /** Every log has its level set, as the resolver guarantees. */
  predicate AllLeveled(logs: seq<Log>) {
    forall i :: 0 <= i < |logs| ==> logs[i].level.Some?
  }

  /** The handler entry for one resolved log. */
  function HandlerFor(log: Log): (h: Handler)
    requires log.level.Some?
    ensures h.level == log.level.value && h.formatter == log.format
    ensures h.StreamHandler? <==> IsConsoleLower(log.file)
    ensures h.StreamHandler? ==> h.stream == "ext://sys." + log.file
    ensures h.WatchedFileHandler? ==> h.filename == log.file
  {
    if IsConsoleLower(log.file) then StreamHandler(log.level.value, log.format, "ext://sys." + log.file)
    else WatchedFileHandler(log.level.value, log.file, log.format)
  }

  /** The handler map after the loop has seen every log: each log writes
      its entry under its file name, so a later log overwrites an earlier
      one with the same file. */
  function HandlerMap(logs: seq<Log>): map<string, Handler>
    requires AllLeveled(logs)
    decreases |logs|
  {
    if logs == [] then map[]
    else HandlerMap(logs[..|logs| - 1])[logs[|logs| - 1].file := HandlerFor(logs[|logs| - 1])]
  }

  /** The root logger's handler names: one per log, in order, duplicates
      kept. */
  function RootHandlers(logs: seq<Log>): (r: seq<string>)
    ensures |r| == |logs|
    ensures forall i :: 0 <= i < |logs| ==> r[i] == logs[i].file
    decreases |logs|
  {
    if logs == [] then [] else RootHandlers(logs[..|logs| - 1]) + [logs[|logs| - 1].file]
  }

  /** The files of the logs that are not console streams, in order. */
  function RealLogfiles(logs: seq<Log>): seq<string>
    decreases |logs|
  {
    if logs == [] then []
    else
      var last := logs[|logs| - 1];
      RealLogfiles(logs[..|logs| - 1]) + (if IsConsoleLower(last.file) then [] else [last.file])
  }

  function Files(logs: seq<Log>): set<string> {
    set i | 0 <= i < |logs| :: logs[i].file
  }

  /** The handler map has exactly one key per distinct file. */
  lemma {:induction false} HandlerMapKeys(logs: seq<Log>)
    requires AllLeveled(logs)
    ensures HandlerMap(logs).Keys == Files(logs)
    decreases |logs|
  {
    if logs != [] {
      var init := logs[..|logs| - 1];
      HandlerMapKeys(init);
      assert Files(logs) == Files(init) + {logs[|logs| - 1].file} by {
        forall f | f in Files(logs) ensures f in Files(init) + {logs[|logs| - 1].file} {
          var i :| 0 <= i < |logs| && logs[i].file == f;
          if i < |logs| - 1 { assert init[i] == logs[i]; }
        }
        forall f | f in Files(init) ensures f in Files(logs) {
          var i :| 0 <= i < |init| && init[i].file == f;
          assert logs[i] == init[i];
        }
      }
    }
  }

  /** The entry under a file is the handler of the last log with that
      file. */
  lemma {:induction false} HandlerMapLastWins(logs: seq<Log>, i: nat)
    requires AllLeveled(logs)
    requires i < |logs|
    requires forall j :: i < j < |logs| ==> logs[j].file != logs[i].file
    ensures logs[i].file in HandlerMap(logs)
    ensures HandlerMap(logs)[logs[i].file] == HandlerFor(logs[i])
    decreases |logs|
  {
    var init := logs[..|logs| - 1];
    if i < |logs| - 1 {
      assert init[i] == logs[i];
      HandlerMapLastWins(init, i);
    }
  }

  /** A name is a real log file exactly when some log names it and it is
      not a console stream. */
  lemma {:induction false} RealLogfilesMembers(logs: seq<Log>, f: string)
    ensures f in RealLogfiles(logs) <==> (f in Files(logs) && !IsConsoleLower(f))
    decreases |logs|
  {
    if logs != [] {
      var init := logs[..|logs| - 1];
      RealLogfilesMembers(init, f);
      if f in Files(logs) {
        var i :| 0 <= i < |logs| && logs[i].file == f;
        if i < |logs| - 1 { assert init[i].file == f; }
      }
      if f in Files(init) {
        var i :| 0 <= i < |init| && init[i].file == f;
        assert logs[i].file == f;
      }
    }
  }

  /** Logs that are all console streams announce no log file. */
  lemma {:induction false} ConsoleOnlyAnnouncesNothing(logs: seq<Log>)
    requires forall i :: 0 <= i < |logs| ==> IsConsoleLower(logs[i].file)
    ensures RealLogfiles(logs) == []
    decreases |logs|
  {
    if logs != [] {
      var init := logs[..|logs| - 1];
      assert forall i :: 0 <= i < |init| ==> init[i] == logs[i];
      ConsoleOnlyAnnouncesNothing(init);
    }
  }

  /** The loop of the configuration routine that fills the handler map,
      the root logger's handler list and the list of real log files. */
  method BuildHandlerConfig(logs: seq<Log>)
    returns (handlers: map<string, Handler>, rootHandlers: seq<string>, realLogfiles: seq<string>)
    requires AllLeveled(logs)
    ensures handlers == HandlerMap(logs)
    ensures rootHandlers == RootHandlers(logs)
    ensures realLogfiles == RealLogfiles(logs)
  {
    handlers := map[];
    rootHandlers := [];
    realLogfiles := [];
    var i := 0;
    while i < |logs|
      invariant 0 <= i <= |logs|
      invariant handlers == HandlerMap(logs[..i])
      invariant rootHandlers == RootHandlers(logs[..i])
      invariant realLogfiles == RealLogfiles(logs[..i])
    {
      var log := logs[i];
      assert logs[..i + 1][..i] == logs[..i];
      if IsConsoleLower(log.file) {
        handlers := handlers[log.file := StreamHandler(log.level.value, log.format, "ext://sys." + log.file)];
        rootHandlers := rootHandlers + [log.file];
      } else {
        realLogfiles := realLogfiles + [log.file];
        handlers := handlers[log.file := WatchedFileHandler(log.level.value, log.file, log.format)];
        rootHandlers := rootHandlers + [log.file];
      }
      i := i + 1;
    }
    assert logs[..i] == logs;
  }
}
