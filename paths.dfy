/** The default log file location helper. */
module Paths {

  const VarTmp: string := "/var/tmp"
  const LogSuffix: string := ".log"

  predicate IsAbsolute(p: string) {
    |p| > 0 && p[0] == '/'
  }

  /** Joining a path with a name, where an absolute name replaces the base
      path, as path joining does. */
  function JoinPath(base: string, name: string): (r: string)
    ensures IsAbsolute(name) ==> r == name
    ensures !IsAbsolute(name) ==> r == base + "/" + name
  {
    if IsAbsolute(name) then name else base + "/" + name
  }

  /** `<stem>.log` under /var/tmp when that directory exists, otherwise
      relative to the working directory.  Whether /var/tmp exists is an
      input. */
  function DefaultLogfile(stem: string, varTmpExists: bool): (p: string)
    ensures varTmpExists && !IsAbsolute(stem) ==> p == "/var/tmp/" + stem + ".log"
    ensures !varTmpExists || IsAbsolute(stem) ==> p == stem + ".log"
  {
    var logBase := stem + LogSuffix;
    assert IsAbsolute(stem) ==> logBase[0] == stem[0];
    if varTmpExists then JoinPath(VarTmp, logBase) else logBase
  }

  /** The path always ends in the file name `<stem>.log`. */
  lemma DefaultLogfileEndsWithName(stem: string, varTmpExists: bool)
    ensures var p := DefaultLogfile(stem, varTmpExists);
      |p| >= |stem| + 4 && p[|p| - (|stem| + 4)..] == stem + ".log"
  {
  }

  /** The file lands in /var/tmp exactly when that directory exists and the
      stem is relative. */
  lemma DefaultLogfileLocation(stem: string, varTmpExists: bool)
    ensures varTmpExists && !IsAbsolute(stem) <==> DefaultLogfile(stem, varTmpExists) == "/var/tmp/" + stem + ".log"
  {
    var p := DefaultLogfile(stem, varTmpExists);
    if !(varTmpExists && !IsAbsolute(stem)) && p == "/var/tmp/" + stem + ".log" {
      assert |p| == |stem| + 4;
    }
  }
}
