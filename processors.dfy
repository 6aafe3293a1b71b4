/** The processors that enrich an event record before it is rendered, the
    verbosity-dependent chains built from them, and the chained processor
    that runs a chain and then a final renderer. */
module Processors {
  import opened LogTypes

  /** The processors the configuration routine places in a chain. */
  datatype Proc =
    | AddLogLevel   // structlog's level annotation
    | AddPid        // process id
    | AddThread     // thread name
    | IsoUtcStamp   // ISO-8601 UTC timestamp
    | CallerInfo    // module, function and line of the call site
    | RemoveFargs   // drops bound function arguments
    | MediumStamp   // local "%H:%M:%S.%f" timestamp
    | ShortStamp    // the medium timestamp cut to milliseconds

  /** What the call-stack walk yields: the frame's function and line, and
      the module it belongs to when one can be found. */
  datatype Frame = Frame(moduleName: Option<string>, functionName: string, lineno: nat)

  /** The facilities of the running process the processors consult, taken
      as inputs: process id, thread name, the clock as the two timestamp
      strings, and the stack walk as a function of the names to skip. */
  datatype Runtime = Runtime(
    pid: int,
    threadName: string,
    isoUtcNow: string,
    mediumLocalNow: string,
    findFrame: seq<string> -> Option<Frame>)

  /** The module's own name, skipped during the stack walk unless the record
      was logged through a logger of that name. */
  const ModuleName: string := "logutils.api"
  const TimestampKey: string := "timestamp"

  predicate AllDigits(s: string) {
    forall i :: 0 <= i < |s| ==> '0' <= s[i] <= '9'
  }

  /** The number a string of decimal digits denotes, most significant digit
      first. */
  function DigitsValue(s: string): nat
    requires AllDigits(s)
    decreases |s|
  {
    if s == [] then 0 else DigitsValue(s[..|s| - 1]) * 10 + (s[|s| - 1] as int - '0' as int)
  }

  /** Decimal spelling of a line number: the digits denote the number, and
      there is no leading zero. */
  function DecimalString(n: nat): (r: string)
    ensures |r| >= 1 && AllDigits(r)
    ensures DigitsValue(r) == n
    ensures |r| > 1 ==> r[0] != '0'
  {
    if n < 10 then [('0' as int + n) as char]
    else
      var init := DecimalString(n / 10);
      var r := init + [('0' as int + n % 10) as char];
      assert r[..|r| - 1] == init;
      r
  }

  function AddPidProcessor(rt: Runtime, ev: Event): (r: Event)
    ensures "pid" in r && r["pid"] == Int(rt.pid)
    ensures SameExcept(ev, r, {"pid"})
  {
    ev["pid" := Int(rt.pid)]
  }

  function AddThreadProcessor(rt: Runtime, ev: Event): (r: Event)
    ensures "thread" in r && r["thread"] == Str(rt.threadName)
    ensures SameExcept(ev, r, {"thread"})
  {
    ev["thread" := Str(rt.threadName)]
  }

  /** Removes the bound function arguments; everything else is kept. */
  function RemoveFargsProcessor(ev: Event): (r: Event)
    ensures "fargs" !in r
    ensures SameExcept(ev, r, {"fargs"})
    ensures "fargs" !in ev ==> r == ev
  {
    if "fargs" in ev then ev - {"fargs"} else ev
  }

  lemma RemoveFargsIdempotent(ev: Event)
    ensures RemoveFargsProcessor(RemoveFargsProcessor(ev)) == RemoveFargsProcessor(ev)
  {
  }

  /** Python's `s[:-3]`: the string without its last three characters, or
      the empty string when it is shorter than that. */
  function DropLast3(s: string): (r: string)
    ensures |r| == if |s| >= 3 then |s| - 3 else 0
    ensures r <= s
  {
    if |s| >= 3 then s[..|s| - 3] else ""
  }

  /** The medium local timestamp, then cut from microseconds to
      milliseconds. */
  function ShortTimestamper(rt: Runtime, ev: Event): (r: Event)
    ensures TimestampKey in r && r[TimestampKey].Str?
    ensures r[TimestampKey].s <= rt.mediumLocalNow
    ensures |rt.mediumLocalNow| >= 3 ==> |r[TimestampKey].s| == |rt.mediumLocalNow| - 3
    ensures r[TimestampKey] == Str(DropLast3(rt.mediumLocalNow))
    ensures SameExcept(ev, r, {TimestampKey})
  {
    var stamped := ev[TimestampKey := Str(rt.mediumLocalNow)];
    stamped[TimestampKey := Str(DropLast3(stamped[TimestampKey].s))]
  }

  /** The names the stack walk skips: the logging package always, this
      module unless the record's logger is this module. */
  function CallerIgnores(ev: Event): (r: seq<string>)
    ensures 1 <= |r| <= 2 && r[0] == "logging"
    ensures ModuleName in r <==> ("logger" !in ev || ev["logger"] != Str(ModuleName))
  {
    ["logging"] + (if "logger" !in ev || ev["logger"] != Str(ModuleName) then [ModuleName] else [])
  }

  /** Adds module, function and line of the first application frame; with
      no frame, or no module for it, the record is returned unchanged. */
  function AddCallerInfoProcessor(rt: Runtime, ev: Event): (r: Event)
    ensures SameExcept(ev, r, {"module", "function", "lineno"})
    ensures match rt.findFrame(CallerIgnores(ev))
      case Some(Frame(Some(m), f, n)) =>
        && "module" in r && r["module"] == Str(m)
        && "function" in r && r["function"] == Str(f)
        && "lineno" in r && r["lineno"] == Str(DecimalString(n))
      case _ => r == ev
  {
    match rt.findFrame(CallerIgnores(ev))
    case None => ev
    case Some(frame) =>
      if frame.moduleName.None? then ev
      else
        ev["module" := Str(frame.moduleName.value)]
          ["function" := Str(frame.functionName)]
          ["lineno" := Str(DecimalString(frame.lineno))]
  }

  /** The keys a processor may set or delete. */
  function Writes(p: Proc): set<string> {
    match p
    case AddLogLevel => {"level"}
    case AddPid => {"pid"}
    case AddThread => {"thread"}
    case IsoUtcStamp | MediumStamp | ShortStamp => {TimestampKey}
    case CallerInfo => {"module", "function", "lineno"}
    case RemoveFargs => {"fargs"}
  }

  /** The effect of one processor on a record; `methodName` is the name of
      the logging method the record came from. */
  function Apply(p: Proc, rt: Runtime, methodName: string, ev: Event): (r: Event)
    ensures SameExcept(ev, r, Writes(p))
    ensures p == AddLogLevel ==> "level" in r && r["level"] == Str(methodName)
    ensures p == IsoUtcStamp ==> TimestampKey in r && r[TimestampKey] == Str(rt.isoUtcNow)
    ensures p == MediumStamp ==> TimestampKey in r && r[TimestampKey] == Str(rt.mediumLocalNow)
  {
    match p
    case AddLogLevel => ev["level" := Str(methodName)]
    case AddPid => AddPidProcessor(rt, ev)
    case AddThread => AddThreadProcessor(rt, ev)
    case IsoUtcStamp => ev[TimestampKey := Str(rt.isoUtcNow)]
    case CallerInfo => AddCallerInfoProcessor(rt, ev)
    case RemoveFargs => RemoveFargsProcessor(ev)
    case MediumStamp => ev[TimestampKey := Str(rt.mediumLocalNow)]
    case ShortStamp => ShortTimestamper(rt, ev)
  }

  /** Left-to-right application of a chain of processors. */
  function ApplyAll(procs: seq<Proc>, rt: Runtime, methodName: string, ev: Event): Event
    decreases |procs|
  {
    if procs == [] then ev else ApplyAll(procs[1..], rt, methodName, Apply(procs[0], rt, methodName, ev))
  }

  /** Running two chains one after the other is running their
      concatenation. */
  lemma {:induction false} ApplyAllAppend(a: seq<Proc>, b: seq<Proc>, rt: Runtime, methodName: string, ev: Event)
    ensures ApplyAll(a + b, rt, methodName, ev) == ApplyAll(b, rt, methodName, ApplyAll(a, rt, methodName, ev))
    decreases |a|
  {
    if a != [] {
      assert (a + b)[1..] == a[1..] + b;
      ApplyAllAppend(a[1..], b, rt, methodName, Apply(a[0], rt, methodName, ev));
    } else {
      assert a + b == b;
    }
  }

  /** A processor other than RemoveFargs leaves bound function arguments
      alone. */
  lemma ApplyKeepsFargs(p: Proc, rt: Runtime, methodName: string, ev: Event)
    requires p != RemoveFargs
    ensures ("fargs" in Apply(p, rt, methodName, ev) <==> "fargs" in ev)
    ensures "fargs" in ev ==> Apply(p, rt, methodName, ev)["fargs"] == ev["fargs"]
  {
    assert "fargs" !in Writes(p);
  }

  /** A chain without RemoveFargs leaves bound function arguments alone. */
  lemma {:induction false} ApplyAllKeepsFargs(procs: seq<Proc>, rt: Runtime, methodName: string, ev: Event)
    requires RemoveFargs !in procs
    ensures ("fargs" in ApplyAll(procs, rt, methodName, ev) <==> "fargs" in ev)
    ensures "fargs" in ev ==> ApplyAll(procs, rt, methodName, ev)["fargs"] == ev["fargs"]
    decreases |procs|
  {
    if procs != [] {
      ApplyKeepsFargs(procs[0], rt, methodName, ev);
      assert procs[0] in procs;
      assert forall p :: p in procs[1..] ==> p in procs;
      ApplyAllKeepsFargs(procs[1..], rt, methodName, Apply(procs[0], rt, methodName, ev));
    }
  }

  // The lists the configuration routine assembles the chains from.
  function SharedProcessors(): seq<Proc> { [AddLogLevel] }
  function VerboseProcessors(): seq<Proc> { [AddPid, AddThread] }
  function VeryVerboseProcessors(): seq<Proc> { [IsoUtcStamp, CallerInfo] }

  /** The JSON chain: always the fully enriched one. */
  function JsonProcessors(): (r: seq<Proc>)
    ensures r == [AddLogLevel, AddPid, AddThread, IsoUtcStamp, CallerInfo]
    ensures RemoveFargs !in r
  {
    SharedProcessors() + VerboseProcessors() + VeryVerboseProcessors()
  }

  /** The console chain, which depends on the verbosity. */
  function ConsoleProcessors(verbose: nat): (r: seq<Proc>)
    ensures verbose >= 2 <==> r == JsonProcessors()
    ensures verbose == 1 <==> r == [AddLogLevel, RemoveFargs, AddPid, AddThread, MediumStamp]
    ensures verbose == 0 <==> r == [AddLogLevel, RemoveFargs, ShortStamp]
    ensures RemoveFargs in r <==> verbose < 2
    ensures CallerInfo in r <==> verbose >= 2
  {
    if verbose >= 2 then SharedProcessors() + VerboseProcessors() + VeryVerboseProcessors()
    else if verbose == 1 then SharedProcessors() + [RemoveFargs] + VerboseProcessors() + [MediumStamp]
    else SharedProcessors() + [RemoveFargs] + [ShortStamp]
  }

  /** Below verbosity 2 console records never carry bound function
      arguments, whatever the record held. */
  lemma {:induction false} QuietConsoleDropsFargs(verbose: nat, rt: Runtime, methodName: string, ev: Event)
    requires verbose < 2
    ensures "fargs" !in ApplyAll(ConsoleProcessors(verbose), rt, methodName, ev)
  {
    var chain := ConsoleProcessors(verbose);
    var head := [AddLogLevel, RemoveFargs];
    var tail := chain[2..];
    assert chain == head + tail;
    ApplyAllAppend(head, tail, rt, methodName, ev);
    var mid := ApplyAll(head, rt, methodName, ev);
    assert mid == RemoveFargsProcessor(ev["level" := Str(methodName)]);
    ApplyAllKeepsFargs(tail, rt, methodName, mid);
  }

  /** From verbosity 2 on console records keep bound function arguments,
      as JSON records always do. */
  lemma VerboseChainsKeepFargs(verbose: nat, rt: Runtime, methodName: string, ev: Event)
    requires "fargs" in ev
    ensures var json := ApplyAll(JsonProcessors(), rt, methodName, ev);
      "fargs" in json && json["fargs"] == ev["fargs"]
    ensures verbose >= 2 ==>
      var console := ApplyAll(ConsoleProcessors(verbose), rt, methodName, ev);
      "fargs" in console && console["fargs"] == ev["fargs"]
  {
    ApplyAllKeepsFargs(JsonProcessors(), rt, methodName, ev);
  }

  /** The JSON chain, step by step. */
  lemma {:induction false} JsonChainSteps(rt: Runtime, methodName: string, ev: Event)
    ensures ApplyAll(JsonProcessors(), rt, methodName, ev)
      == AddCallerInfoProcessor(rt, AddThreadProcessor(rt, AddPidProcessor(rt, ev["level" := Str(methodName)]))[TimestampKey := Str(rt.isoUtcNow)])
  {
    var e1 := ev["level" := Str(methodName)];
    var e2 := AddPidProcessor(rt, e1);
    var e3 := AddThreadProcessor(rt, e2);
    var e4 := e3[TimestampKey := Str(rt.isoUtcNow)];
    var e5 := AddCallerInfoProcessor(rt, e4);
    var chain := JsonProcessors();
    assert ApplyAll(chain[4..], rt, methodName, e4) == e5;
    assert ApplyAll(chain[3..], rt, methodName, e3) == e5;
    assert ApplyAll(chain[2..], rt, methodName, e2) == e5;
    assert ApplyAll(chain[1..], rt, methodName, e1) == e5;
  }

  /** A JSON record carries the level, process id, thread name and UTC
      timestamp, and the call site whenever the stack walk finds a frame
      with a module. */
  lemma JsonRecordContents(rt: Runtime, methodName: string, ev: Event)
    ensures var r := ApplyAll(JsonProcessors(), rt, methodName, ev);
      && "level" in r && r["level"] == Str(methodName)
      && "pid" in r && r["pid"] == Int(rt.pid)
      && "thread" in r && r["thread"] == Str(rt.threadName)
      && TimestampKey in r && r[TimestampKey] == Str(rt.isoUtcNow)
      && match rt.findFrame(CallerIgnores(ev))
         case Some(Frame(Some(m), f, n)) =>
           && "module" in r && r["module"] == Str(m)
           && "function" in r && r["function"] == Str(f)
           && "lineno" in r && r["lineno"] == Str(DecimalString(n))
         case _ => true
  {
    JsonChainSteps(rt, methodName, ev);
    var e2 := AddPidProcessor(rt, ev["level" := Str(methodName)]);
    var e3 := AddThreadProcessor(rt, e2);
    var e4 := e3[TimestampKey := Str(rt.isoUtcNow)];
    assert e4["level"] == e3["level"] == e2["level"] == Str(methodName);
    assert e4["pid"] == e3["pid"] == Int(rt.pid);
    assert CallerIgnores(e4) == CallerIgnores(ev) by {
      assert ("logger" in e4 <==> "logger" in ev) && ("logger" in ev ==> e4["logger"] == ev["logger"]);
    }
    var site := Writes(CallerInfo);
    assert "level" !in site && "pid" !in site by {
      assert "level"[0] == 'l' && "pid"[0] == 'p';
      assert "level"[1] != "lineno"[1];
    }
    assert "thread" !in site && TimestampKey !in site by {
      assert "thread"[0] == 't' && TimestampKey[0] == 't';
    }
  }

  /** The processor built by `_chain_processors`: runs the pre-processors
      left to right over the record, then hands the result to the final
      renderer. */
  method RunChain(final: (string, Event) -> string, pre: seq<Proc>, rt: Runtime, methodName: string, ev: Event)
    returns (out: string)
    ensures out == final(methodName, ApplyAll(pre, rt, methodName, ev))
  {
    var e := ev;
    var i := 0;
    while i < |pre|
      invariant 0 <= i <= |pre|
      invariant ApplyAll(pre[i..], rt, methodName, e) == ApplyAll(pre, rt, methodName, ev)
    {
      assert pre[i..][1..] == pre[i + 1..];
      e := Apply(pre[i], rt, methodName, e);
      i := i + 1;
    }
    out := final(methodName, e);
  }

  /** Chaining no pre-processors is the final renderer alone. */
  lemma EmptyChainIsFinal(final: (string, Event) -> string, rt: Runtime, methodName: string, ev: Event)
    ensures final(methodName, ApplyAll([], rt, methodName, ev)) == final(methodName, ev)
  {
  }
}
