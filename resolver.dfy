/** Sink default resolution: every log gets a level, and a console log is
    added when none of the input logs names a console stream. */
module Resolver {
  import opened LogTypes

  /** The default level for console logs at a verbosity. */
  function DefaultConsoleLevel(verbose: nat): (l: Level)
    ensures verbose >= 3 <==> l == Trace
    ensures 1 <= verbose < 3 <==> l == Debug
    ensures verbose == 0 <==> l == Info
  {
    if verbose >= 3 then Trace else if verbose >= 1 then Debug else Info
  }

  /** The default level for file logs at a verbosity. */
  function DefaultFileLevel(verbose: nat): (l: Level)
    ensures verbose >= 3 <==> l == Trace
    ensures verbose < 3 <==> l == Debug
  {
    if verbose >= 3 then Trace else Debug
  }

  /** Above verbosity 0 both defaults coincide; at 0 only the console is
      raised to INFO. */
  lemma DefaultsAgreeIffVerbose(verbose: nat)
    ensures DefaultConsoleLevel(verbose) == DefaultFileLevel(verbose) <==> verbose >= 1
  {
  }

  /** The resolved form of one input log. */
  function ResolveOne(log: Log, verbose: nat): (r: Log)
    ensures r.level.Some?
    ensures r.file == log.file && r.format == log.format
    ensures log.level.Some? ==> r == log
    ensures log.level.None? && IsConsoleExact(log.file) ==> r.level == Some(DefaultConsoleLevel(verbose))
    ensures log.level.None? && !IsConsoleExact(log.file) ==> r.level == Some(DefaultFileLevel(verbose))
  {
    if log.level.Some? then log
    else
      var level := if IsConsoleExact(log.file) then DefaultConsoleLevel(verbose) else DefaultFileLevel(verbose);
      Log(log.file, log.format, Some(level))
  }

  predicate AnyExactConsole(logs: seq<Log>) {
    exists i :: 0 <= i < |logs| && IsConsoleExact(logs[i].file)
  }

  function ResolveEach(logs: seq<Log>, verbose: nat): (r: seq<Log>)
    ensures |r| == |logs|
    ensures forall i :: 0 <= i < |logs| ==> r[i] == ResolveOne(logs[i], verbose)
  {
    seq(|logs|, i requires 0 <= i < |logs| => ResolveOne(logs[i], verbose))
  }

  function SyntheticConsole(verbose: nat): Log {
    Log(DefaultConsoleFile, DefaultConsoleFormat, Some(DefaultConsoleLevel(verbose)))
  }

  /** The list the resolver returns, as a value: every log in it has a
      level. */
  function ResolvedLogs(logs: seq<Log>, verbose: nat): (r: seq<Log>)
    ensures forall i :: 0 <= i < |r| ==> r[i].level.Some?
  {
    ResolveEach(logs, verbose) + (if AnyExactConsole(logs) then [] else [SyntheticConsole(verbose)])
  }

  /** The input order survives as a prefix of the result, with files and
      formats kept and explicit levels untouched. */
  lemma ResolvedShape(logs: seq<Log>, verbose: nat)
    ensures var r := ResolvedLogs(logs, verbose);
      && (|r| == |logs| || |r| == |logs| + 1)
      && (forall i :: 0 <= i < |logs| ==> r[i].file == logs[i].file && r[i].format == logs[i].format)
      && (forall i :: 0 <= i < |logs| && logs[i].level.Some? ==> r[i] == logs[i])
  {
  }

  /** The synthetic stderr/color log is appended exactly when no input log
      names a console stream, and it carries the console default. */
  lemma SyntheticIffNoConsole(logs: seq<Log>, verbose: nat)
    ensures var r := ResolvedLogs(logs, verbose);
      && (|r| == |logs| + 1 <==> !AnyExactConsole(logs))
      && (|r| == |logs| + 1 ==> r[|logs|] == Log("stderr", Color, Some(DefaultConsoleLevel(verbose))))
  {
  }

  /** The result always holds a console log. */
  lemma {:induction false} ResolvedHasConsole(logs: seq<Log>, verbose: nat)
    ensures AnyExactConsole(ResolvedLogs(logs, verbose))
  {
    var r := ResolvedLogs(logs, verbose);
    if AnyExactConsole(logs) {
      var i :| 0 <= i < |logs| && IsConsoleExact(logs[i].file);
      assert r[i].file == logs[i].file;
    } else {
      assert IsConsoleExact(r[|logs|].file);
    }
  }

  /** Resolving an already resolved list changes nothing. */
  lemma {:induction false} ResolveIdempotent(logs: seq<Log>, verbose: nat)
    ensures ResolvedLogs(ResolvedLogs(logs, verbose), verbose) == ResolvedLogs(logs, verbose)
  {
    var r := ResolvedLogs(logs, verbose);
    ResolvedHasConsole(logs, verbose);
    var rr := ResolveEach(r, verbose);
    assert forall i :: 0 <= i < |r| ==> rr[i] == r[i];
    assert rr == r;
  }

  /** The loop of `_set_log_defaults`: appends each resolved log, then the
      synthetic console log when needed. */
  method SetLogDefaults(logs: seq<Log>, verbose: nat) returns (result: seq<Log>)
    ensures result == ResolvedLogs(logs, verbose)
  {
    result := [];
    var consoleLevel := DefaultConsoleLevel(verbose);
    var fileLevel := DefaultFileLevel(verbose);
    var i := 0;
    while i < |logs|
      invariant 0 <= i <= |logs|
      invariant |result| == i
      invariant forall j :: 0 <= j < i ==> result[j] == ResolveOne(logs[j], verbose)
    {
      var log := logs[i];
      if log.level.Some? {
        result := result + [log];
      } else {
        var level := if IsConsoleExact(log.file) then consoleLevel else fileLevel;
        result := result + [Log(log.file, log.format, Some(level))];
      }
      i := i + 1;
    }
    var sawConsole := false;
    var k := 0;
    while k < |logs|
      invariant 0 <= k <= |logs|
      invariant sawConsole <==> exists j :: 0 <= j < k && IsConsoleExact(logs[j].file)
    {
      if IsConsoleExact(logs[k].file) {
        sawConsole := true;
      }
      k := k + 1;
    }
    if !sawConsole {
      result := result + [Log(DefaultConsoleFile, DefaultConsoleFormat, Some(consoleLevel))];
    }
  }
}
