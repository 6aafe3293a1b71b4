/** Values shared by the whole configuration layer: severities, output
    formats, the `Log` sink specification, and the event records that
    processors rewrite. */
module LogTypes {

  datatype Option<+T> = None | Some(value: T)

  /** The six severities a `Log` may name, TRACE being the custom one
      registered below DEBUG. */
  datatype Level = Trace | Debug | Info | Warning | Error | Critical

  /** The closed set of formatter names a `Log` may choose. */
  datatype Format = Json | Color | NoColor

  /** One requested destination: a file path, or one of the stream names
      `stdout` / `stderr`.  A missing level is filled in by the resolver. */
  datatype Log = Log(file: string, format: Format, level: Option<Level>)

  /** The console log added when no input log names a console stream. */
  const DefaultConsoleFile: string := "stderr"
  const DefaultConsoleFormat: Format := Color

  /** Values stored in an event record or a bound context.  `Dict` is the
      nested mapping used for bound function arguments. */
  datatype Value = Str(s: string) | Int(n: int) | Dict(entries: map<string, Value>)

  type Event = map<string, Value>

  /** True when `m` and `r` agree on every key except those in `keys`. */
  ghost predicate SameExcept(m: map<string, Value>, r: map<string, Value>, keys: set<string>) {
    && (forall k :: k !in keys ==> (k in r <==> k in m))
    && (forall k :: k !in keys && k in m ==> k in r && r[k] == m[k])
  }

  function LowerChar(c: char): (r: char)
    ensures 'A' <= c <= 'Z' ==> r as int == c as int + 32
    ensures !('A' <= c <= 'Z') ==> r == c
  {
    if 'A' <= c <= 'Z' then (c as int + 32) as char else c
  }

  /** Lower-casing of the letters A-Z, other characters left as they are. */
  function Lower(s: string): (r: string)
    ensures |r| == |s|
    ensures forall i :: 0 <= i < |s| ==> r[i] == LowerChar(s[i])
  {
    seq(|s|, i requires 0 <= i < |s| => LowerChar(s[i]))
  }

  /** True when `file` has the length of `name` and each of its characters
      lower-cases to the character of `name` at the same place. */
  ghost predicate LowersTo(file: string, name: string) {
    |file| == |name| && forall i :: 0 <= i < |name| ==> LowerChar(file[i]) == name[i]
  }

  /** Console test used when handlers are built: membership of the
      lower-cased name in the two stream names.  Equivalently, the name
      spells `stderr` or `stdout` in any mix of upper and lower case. */
  predicate IsConsoleLower(file: string)
    ensures IsConsoleLower(file) <==> LowersTo(file, "stderr") || LowersTo(file, "stdout")
  {
    Lower(file) == "stderr" || Lower(file) == "stdout"
  }

  /** Console test used when defaults are resolved: exact, case-sensitive
      membership in the two stream names.  Every name it accepts is a
      console stream for the handler loop too. */
  predicate IsConsoleExact(file: string)
    ensures IsConsoleExact(file) ==> IsConsoleLower(file)
  {
    assert file == "stdout" ==> LowersTo(file, "stdout");
    assert file == "stderr" ==> LowersTo(file, "stderr");
    file == "stdout" || file == "stderr"
  }

  /** The converse of the exact test's guarantee fails: an upper-case stream name
      is a console stream for the handler loop but a file for the resolver. */
  lemma UpperCaseStreamIsOnlyLowerConsole()
    ensures IsConsoleLower("STDERR") && !IsConsoleExact("STDERR")
  {
    assert Lower("STDERR") == "stderr";
  }
}
