/** Single-line regular expressions, given by their results: the lines a
    pattern matches and, where the compiler reads a capture group, the text
    of that group. */
module LineRegex {
  import opened Wrappers

  /** The lines a pattern matches, each with the captured text. */
  type Capture = imap<string, string>

  /** The lines a pattern matches. */
  type LineSet = iset<string>

  /** The captured text of a line, None when the pattern does not match. */
  function Captured(pattern: Capture, line: string): Option<string>
  {
    if line in pattern then Some(pattern[line]) else None
  }
}

/** The outside world of the compiler as the view models see it: the file
    system, the external tools started through "cmd /c", and the results of
    the regular expressions applied to single lines.  Everything that is not
    decided by the application's own code is a parameter here. */
module Environment {
  import opened Wrappers
  import opened LineRegex
  import opened Text
  import opened Paths

  /** A file: its last write time (UTC ticks, DateTime.MinValue = 0) and its
      lines.  The content stands for the SHA-256 hash of the file. */
  datatype FileInfo = FileInfo(mtime: nat, lines: seq<string>)

  type FileSystem = map<string, FileInfo>

  /** File.GetLastWriteTimeUtc guarded by File.Exists, as the compiler reads
      it: a missing file has the time DateTime.MinValue. */
  function LastWriteTimeSafe(fs: FileSystem, path: string): (t: nat)
    ensures path in fs ==> t == fs[path].mtime
    ensures path !in fs ==> t == 0
  {
    if path in fs then fs[path].mtime else 0
  }

  /** One run of an external tool, decided by the world:
      whether it exited within the wait time and its exit code, the text of
      its error and output streams after the leading blank lines and the
      last white-space character were removed (None when the stream was
      blank), whether a new compilation of the same file was requested while
      it ran, and the file system it left behind. */
  datatype Run = Run(
    exited: bool,
    exitCode: int,
    stdErr: Option<string>,
    stdOut: Option<string>,
    compileRequested: bool,
    after: FileSystem)

  /** The outcome of reading and rewriting a source map: not a JSON object
      (left alone), rewritten with the given content, or an exception. */
  datatype MapOutcome = NotAnObject | Rewritten(content: seq<string>) | MapException

  /** What the regular expressions of the compiler extract from one line,
      and what the libraries it calls make of a file's content.  A line or a
      content absent from a map gives the default result: no match, no
      captures, not a JSON object, and a compressed length of 0. */
  datatype Patterns = Patterns(
    /** group 2 of the CSS "@import url(...)" or "@import '...'" patterns */
    cssImport: Capture,
    /** group 2 of the JavaScript "import ... '...'" pattern */
    jsImport: Capture,
    /** every capture of group 2 of the SCSS "@forward/@import/@use" pattern */
    scssImports: imap<string, seq<string>>,
    /** group 1 of the "/*! ... */" banner pattern */
    banner: Capture,
    /** group 1 of the "iife-params(...)" comment */
    iifeParams: Capture,
    /** group 1 of the "iife-args(...)" comment */
    iifeArgs: Capture,
    /** the lines that are a "no-iife" comment */
    noIife: LineSet,
    /** group 1 of the "build-dir(...)" comment */
    buildDir: Capture,
    /** the lines that open the bundle's function expression */
    iifeOpen: LineSet,
    /** the lines that close the bundle's function expression */
    iifeClose: LineSet,
    /** the source map post-processing of a map file's content */
    postprocessMap: imap<seq<string>, MapOutcome>,
    /** the GZip-compressed length of a file's content */
    gzipSize: imap<seq<string>, nat>)

  /** Every capture of the SCSS import pattern on one line. */
  function ScssCaptures(p: Patterns, line: string): seq<string>
  {
    if line in p.scssImports then p.scssImports[line] else []
  }

  /** The outcome of post-processing a source map with this content. */
  function PostprocessOutcome(p: Patterns, content: seq<string>): MapOutcome
  {
    if content in p.postprocessMap then p.postprocessMap[content] else NotAnObject
  }

  /** The GZip-compressed length of this content. */
  function GzipSize(p: Patterns, content: seq<string>): nat
  {
    if content in p.gzipSize then p.gzipSize[content] else 0
  }

  /** The runs of the started processes, one for every start, in order. */
  datatype Runs = Runs(runs: imap<nat, Run>)

  /** A script has a run for every start. */
  type Script = s: Runs | forall k: nat :: k in s.runs
    ghost witness Runs(imap k: nat | true :: Run(false, 0, None, None, false, map[]))

  /** A process start as recorded by the world: the command line handed to
      "cmd /c" and the working directory. */
  datatype Invocation = Invocation(cmdline: string, directory: string)

  /** The file system, the clock and the tools.  Process runs are taken from
      a script in the order the processes are started. */
  class World {
    var fs: FileSystem
    var started: seq<Invocation>
    const now: nat
    const appDir: string
    const patterns: Patterns
    const script: Script

    constructor (fs: FileSystem, now: nat, appDir: string, patterns: Patterns, script: Script)
      ensures this.fs == fs && this.now == now && this.appDir == appDir
      ensures this.patterns == patterns && this.script == script
      ensures started == []
    {
      this.fs := fs;
      this.now := now;
      this.appDir := appDir;
      this.patterns := patterns;
      this.script := script;
      started := [];
    }

    /** Starts "cmd /c cmdline" in the directory and waits for it; the run
        that follows is the next one of the script. */
    method StartProcess(cmdline: string, directory: string) returns (run: Run)
      modifies this`fs, this`started
      ensures run == script.runs[|old(started)|]
      ensures started == old(started) + [Invocation(cmdline, directory)]
      ensures fs == run.after
    {
      run := script.runs[|started|];
      started := started + [Invocation(cmdline, directory)];
      fs := run.after;
    }

    /** File.WriteAllLines: the file now has these lines and a new write time. */
    method WriteAllLines(path: string, lines: seq<string>)
      modifies this`fs
      ensures fs == old(fs)[path := FileInfo(now, lines)]
    {
      fs := fs[path := FileInfo(now, lines)];
    }

    /** File.Delete, which does nothing for a missing file. */
    method Delete(path: string)
      modifies this`fs
      ensures fs == old(fs) - {path}
    {
      fs := fs - {path};
    }
  }

  /** string.Split(new[] { ' ' }, 2): the part before the first space and,
      when there is a space, the part after it. */
  function SplitFirst(cmd: string): (string, Option<string>)
  {
    if cmd == [] then ("", None)
    else if cmd[0] == ' ' then ("", Some(cmd[1..]))
    else
      var (first, rest) := SplitFirst(cmd[1..]);
      ([cmd[0]] + first, rest)
  }

  /** The first part holds no space, the second is present exactly when the
      command holds a space, and the parts joined by a space give the
      command back. */
  lemma {:induction false} SplitFirstParts(cmd: string)
    ensures var (first, rest) := SplitFirst(cmd);
      ' ' !in first &&
      (rest.None? <==> ' ' !in cmd) &&
      (rest.None? ==> first == cmd) &&
      (rest.Some? ==> first + " " + rest.value == cmd)
  {
    if cmd != [] && cmd[0] != ' ' {
      SplitFirstParts(cmd[1..]);
      assert cmd == [cmd[0]] + cmd[1..];
    }
  }

  /** Whether a tool of that name is present in the application directory,
      probing each of the name suffixes. */
  predicate ToolFound(fs: FileSystem, appDir: string, tool: string, suffixes: seq<string>)
  {
    exists k :: 0 <= k < |suffixes| && Combine(appDir, tool + suffixes[k]) in fs
  }

  /** The command line that runs a tool found in the application directory:
      the tool's full path in quotes and the whole in another pair of quotes,
      so that "cmd /c" keeps the inner quotes. */
  function QuotedToolCommand(appDir: string, tool: string, rest: string): string
  {
    "\"\"" + appDir + [Separator] + tool + "\" " + rest + "\""
  }

  /** The command rewrite done before a tool is started.  None stands for
      the IndexOutOfRangeException of a found tool without arguments. */
  function RewriteCommand(fs: FileSystem, appDir: string, cmd: string, suffixes: seq<string>): Option<string>
  {
    var (tool, rest) := SplitFirst(cmd);
    if !ToolFound(fs, appDir, tool, suffixes) then Some(cmd)
    else if rest.None? then None
    else Some(QuotedToolCommand(appDir, tool, rest.value))
  }

  /** A command whose first word names no tool of the application
      directory is left as it is; one that does is rewritten to the quoted
      full path of the tool followed by the rest of the command, and fails
      exactly when there is no rest. */
  lemma RewriteCommandCases(fs: FileSystem, appDir: string, cmd: string, suffixes: seq<string>)
    ensures var (tool, rest) := SplitFirst(cmd);
      var r := RewriteCommand(fs, appDir, cmd, suffixes);
      (!ToolFound(fs, appDir, tool, suffixes) ==> r == Some(cmd)) &&
      (ToolFound(fs, appDir, tool, suffixes) ==>
        (r.None? <==> ' ' !in cmd) &&
        (r.Some? ==> tool + " " + rest.value == cmd && r.value == QuotedToolCommand(appDir, tool, rest.value)))
  {
    SplitFirstParts(cmd);
  }

  /** The tool name of a rewritten command sits between the first pair of
      quotes after the application directory, so the rewrite can be undone. */
  lemma RewriteCommandRecoverable(appDir: string, tool: string, rest: string)
    ensures var q := QuotedToolCommand(appDir, tool, rest);
      |q| == |appDir| + |tool| + |rest| + 6 &&
      q[3 + |appDir|..3 + |appDir| + |tool|] == tool &&
      q[5 + |appDir| + |tool|..|q| - 1] == rest &&
      q[..2] == "\"\"" && q[|q| - 1] == '"'
  {
  }
}
