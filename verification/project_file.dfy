/** One file of a project and its compilation: the header directives, the
    external tools, the change detection on the outputs, the up-to-date
    check and the detection of the files it imports. */
module ProjectFiles {
  import opened Wrappers
  import opened Text
  import opened Paths
  import opened Environment
  import opened Statuses
  import opened Directives
  import opened Dependencies

  /** The write time and the content (standing for the SHA-256 hash) of an
      output file, recorded before the tools run. */
  datatype FileTimeInfo = FileTimeInfo(lastWriteTimeUtc: nat, hash: seq<string>)

  /** The exceptions that end a compilation early. */
  datatype Failure =
    | MapFileNotFound(path: string)
    | MapFileInvalid(path: string)
    | SpliceOutOfRange

  /** The description of an exception as the log shows it. */
  function FailureText(f: Failure): string
  {
    match f
    case MapFileNotFound(path) => "System.IO.FileNotFoundException: Could not find file '" + path + "'."
    case MapFileInvalid(path) => "Invalid source map: " + path
    case SpliceOutOfRange => "System.IndexOutOfRangeException: Index was outside the bounds of the array."
  }

  /** The log with an error message added, after an empty line when the log
      already has text. */
  function AppendMessage(log: string, message: string): string
  {
    log + (if log != "" then "\n\n" else "") + message
  }

  /** The log after one tool run: the command, the cleaned error and output
      streams, and a note when the process did not exit in time. */
  function ExecLog(log: string, cmdline: string, run: Run): string
  {
    (if log != "" then log + NewLine else log) + "\U{25BA} " + cmdline + NewLine
    + (match run.stdErr case Some(e) => e + NewLine case None => "")
    + (match run.stdOut case Some(o) => o + NewLine case None => "")
    + (if !run.exited then "Process has not exited" + NewLine else "")
  }

  /** A tool run fails when it does not exit in time or exits with a
      non-zero code. */
  predicate RunFailed(run: Run)
  {
    !run.exited || run.exitCode != 0
  }

  /** The command line a tool run starts: a tool shipped in the application
      directory as .exe or .cmd is called by its full path.  The rewrite
      fails only for a command without arguments, which the compiler never
      builds (CommandsHaveArguments); such a command is left as it is. */
  function ExecCommandLine(fs: FileSystem, appDir: string, cmdline: string): string
  {
    match RewriteCommand(fs, appDir, cmdline, [".exe", ".cmd"])
    case Some(c) => c
    case None => cmdline
  }

  /** For a command with arguments the command line started is exactly the
      result of the rewrite. */
  lemma ExecCommandLineRewrites(fs: FileSystem, appDir: string, cmdline: string)
    requires ' ' in cmdline
    ensures RewriteCommand(fs, appDir, cmdline, [".exe", ".cmd"]) == Some(ExecCommandLine(fs, appDir, cmdline))
  {
    RewriteCommandCases(fs, appDir, cmdline, [".exe", ".cmd"]);
  }

  /** The log lines that end a successful compilation: the compiled files
      (the intermediate file unless it was removed, then the minified
      output) and, when no output changed, a note saying so. */
  function CompiledFilesLog(intermediate: string, min: string, modified: bool): string
  {
    NewLine + "Compiled files:" + NewLine
    + (if intermediate != "" then "- " + intermediate + NewLine else "")
    + "- " + min + NewLine + (if modified then "" else UnchangedNote)
  }

  /** An output's name, placed in the build directory when there is one. */
  function OutputName(buildDir: string, name: string): string
  {
    if buildDir == "" then name else Combine(buildDir, name)
  }

  /** The CSS minifier: the input, the minified output and its source map
      beside it. */
  function CssoCommand(input: string, output: string): string
  {
    "csso \"" + input + "\" --output \"" + output + "\" --source-map \"" + output + ".map\""
  }

  /** The SCSS compiler: the input and the CSS output. */
  function SassCommand(input: string, output: string): string
  {
    "sass \"" + input + "\" \"" + output + "\""
  }

  /** The bundler: the input and the bundle with a source map, wrapped in
      an IIFE unless the header says otherwise, then the banner option. */
  function RollupCommand(input: string, bundle: string, noIife: bool, banner: string): string
  {
    "rollup \"" + input + "\" -o \"" + bundle + "\"" + (if noIife then "" else " -f iife")
      + " -m -p rollup-plugin-sourcemaps" + banner
  }

  /** The source map option of the JavaScript minifier: the map of the
      bundle is named as input when it exists; the map's url is the bare
      name of the minified file, which sits beside it. */
  function MapParam(bundle: string, onlyMin: string, bundleMapExists: bool): string
  {
    if bundleMapExists then
      "--source-map \"content='" + ReplaceChar(bundle, '\\', '/') + ".map',url='" + ReplaceChar(onlyMin, '\\', '/') + ".map'\""
    else
      "--source-map \"url='" + ReplaceChar(onlyMin, '\\', '/') + ".map'\""
  }

  /** The JavaScript minifier: the input, the minified output, keeping
      comments that start with '!', then the source map option. */
  function UglifyCommand(bundle: string, min: string, mapParam: string): string
  {
    "uglifyjs " + bundle + " --compress --mangle --output \"" + min + "\" --comments \"/^!/\" " + mapParam
  }

  /** The file names of a JavaScript compilation: the source, the bundle
      and the minified output (both in the build directory when there is
      one), and the bare name of the minified output. */
  datatype JsNames = JsNames(src: string, bundle: string, onlyMin: string, min: string)

  function JsNamesOf(fullFileName: string, buildDir: string): (n: JsNames)
    ensures n.src == GetFileName(fullFileName)
    ensures n.min == OutputName(buildDir, n.onlyMin)
  {
    var onlyMin := GetFileNameWithoutExtension(fullFileName) + ".min.js";
    JsNames(GetFileName(fullFileName),
      OutputName(buildDir, GetFileNameWithoutExtension(fullFileName) + ".bundle.js"),
      onlyMin, OutputName(buildDir, onlyMin))
  }

  /** The first tool of a JavaScript compilation: the bundler when the file
      imports others, otherwise the minifier on the file itself. */
  function JsFirstCommand(n: JsNames, h: JsHeader, bundled: bool, srcMapExists: bool): string
  {
    if bundled then RollupCommand(n.src, n.bundle, h.noIife, h.banner)
    else UglifyCommand(n.src, n.min, MapParam(n.src, n.onlyMin, srcMapExists))
  }

  const ScriptFileName := "miniwebcompiler.cmd"

  const UnchangedNote := "Note: File content has not changed to previous build." + NewLine

  /** The project's custom script, called with the file's relative path
      in quotes. */
  function ScriptCommand(filePath: string): string
  {
    ScriptFileName + " \"" + filePath + "\""
  }

  /** Every command the compiler starts has arguments after the tool name. */
  lemma CommandsHaveArguments(input: string, output: string, noIife: bool, banner: string, mapParam: string)
    ensures ' ' in CssoCommand(input, output)
    ensures ' ' in SassCommand(input, output)
    ensures ' ' in RollupCommand(input, output, noIife, banner)
    ensures ' ' in UglifyCommand(input, output, mapParam)
    ensures ' ' in ScriptCommand(input)
  {
    assert CssoCommand(input, output)[4] == ' ';
    assert SassCommand(input, output)[4] == ' ';
    assert RollupCommand(input, output, noIife, banner)[6] == ' ';
    assert UglifyCommand(input, output, mapParam)[8] == ' ';
    assert ScriptCommand(input)[|ScriptFileName|] == ' ';
  }

  /** What SaveResultFileTime records for an output: its time and content,
      when it exists. */
  function SavedTimes(times: map<string, FileTimeInfo>, fs: FileSystem, dir: string, name: string): map<string, FileTimeInfo>
  {
    var path := Combine(dir, name);
    if path in fs then times[name := FileTimeInfo(fs[path].mtime, fs[path].lines)] else times
  }

  /** Whether RestoreResultFileTime counts an output as modified: it is
      missing now, nothing was recorded for it, or its content changed. */
  predicate OutputModified(times: map<string, FileTimeInfo>, fs: FileSystem, dir: string, name: string)
  {
    var path := Combine(dir, name);
    !(path in fs && name in times && fs[path].lines == times[name].hash)
  }

  /** A file that existed before and after a tool run with the same content. */
  predicate Kept(before: FileSystem, after: FileSystem, path: string)
  {
    path in before && path in after && before[path].lines == after[path].lines
  }

  /** The times and contents recorded for an output and its source map
      before the tools run. */
  function Recorded(fs: FileSystem, dir: string, min: string): map<string, FileTimeInfo>
  {
    SavedTimes(SavedTimes(map[], fs, dir, min), fs, dir, min + ".map")
  }

  /** An output or its source map was created, deleted or rewritten with
      different content. */
  predicate OutputsChanged(before: FileSystem, after: FileSystem, dir: string, min: string)
  {
    !Kept(before, after, Combine(dir, min)) || !Kept(before, after, Combine(dir, min + ".map"))
  }

  /** The exception, if any, of post-processing the source map at this
      path: a missing map or one that cannot be processed. */
  function MapFailure(p: Patterns, fs: FileSystem, path: string): Option<Failure>
  {
    if path !in fs then Some(MapFileNotFound(path))
    else if PostprocessOutcome(p, fs[path].lines).MapException? then Some(MapFileInvalid(path))
    else None
  }

  /** The file system after post-processing the source map at this path:
      a map that is rewritten gets its new content and a new write time. */
  function MappedFs(p: Patterns, now: nat, fs: FileSystem, path: string): FileSystem
  {
    if path in fs && PostprocessOutcome(p, fs[path].lines).Rewritten? then
      fs[path := FileInfo(now, PostprocessOutcome(p, fs[path].lines).content)]
    else fs
  }

  /** Whether the header's IIFE parameters or arguments are spliced into
      the bundle at this path: the header names some and the bundle exists. */
  predicate Splices(fs: FileSystem, path: string, h: JsHeader)
  {
    (h.iifeParams != "" || h.iifeArgs != "") && path in fs
  }

  /** The exception, if any, of splicing into the bundle at this path. */
  function SpliceFailure(p: Patterns, fs: FileSystem, path: string, h: JsHeader): Option<Failure>
  {
    if Splices(fs, path, h) && Spliced(fs[path].lines, p.iifeOpen, p.iifeClose, h.iifeParams, h.iifeArgs).None? then
      Some(SpliceOutOfRange)
    else None
  }

  /** The file system after splicing into the bundle at this path. */
  function SplicedFs(p: Patterns, now: nat, fs: FileSystem, path: string, h: JsHeader): FileSystem
  {
    if Splices(fs, path, h) && Spliced(fs[path].lines, p.iifeOpen, p.iifeClose, h.iifeParams, h.iifeArgs).Some? then
      fs[path := FileInfo(now, Spliced(fs[path].lines, p.iifeOpen, p.iifeClose, h.iifeParams, h.iifeArgs).value)]
    else fs
  }

  /** The compressed size SetCompressedResultSize takes of the file at this
      path: -1 when it is missing. */
  function CompressedSize(p: Patterns, fs: FileSystem, path: string): int
  {
    if path in fs then GzipSize(p, fs[path].lines) else -1
  }

  /** Recording an output and its map before a run and checking them after
      it finds a change exactly when one of them was created, deleted or
      rewritten with different content. */
  lemma ChangeDetection(before: FileSystem, after: FileSystem, dir: string, min: string)
    ensures var times := Recorded(before, dir, min);
      (OutputModified(times, after, dir, min) <==> !Kept(before, after, Combine(dir, min))) &&
      (OutputModified(times, after, dir, min + ".map") <==> !Kept(before, after, Combine(dir, min + ".map")))
  {
  }

  /** No source is newer than the time t. */
  predicate NoSourceNewer(fs: FileSystem, sources: set<string>, t: nat)
  {
    forall s :: s in sources ==> LastWriteTimeSafe(fs, s) <= t
  }

  /** An output that exists and is not older than any source. */
  predicate OutputCurrent(fs: FileSystem, sources: set<string>, path: string)
  {
    path in fs && NoSourceNewer(fs, sources, fs[path].mtime)
  }

  /** Every output exists and no source is newer than it. */
  predicate UpToDate(fs: FileSystem, sources: set<string>, dir: string, outputs: seq<string>)
  {
    forall k :: 0 <= k < |outputs| ==> OutputCurrent(fs, sources, Combine(dir, outputs[k]))
  }

  /** An output is current against the sources exactly when it exists and
      is not older than the latest of them. */
  lemma NoSourceNewerLatest(fs: FileSystem, sources: set<string>, latest: nat, path: string)
    requires NoSourceNewer(fs, sources, latest)
    requires exists s :: s in sources && LastWriteTimeSafe(fs, s) == latest
    ensures OutputCurrent(fs, sources, path) <==> path in fs && latest <= fs[path].mtime
  {
  }

  /** The latest write time of the first n outputs (DateTime.MinValue when
      none of them exists). */
  function LatestTime(fs: FileSystem, dir: string, outputs: seq<string>, n: nat): nat
    requires n <= |outputs|
  {
    if n == 0 then 0
    else
      var init := LatestTime(fs, dir, outputs, n - 1);
      var last := LastWriteTimeSafe(fs, Combine(dir, outputs[n - 1]));
      if last > init then last else init
  }

  /** The latest time bounds every output's time and is the time of one of
      them, or DateTime.MinValue. */
  lemma {:induction false} LatestTimeIsMax(fs: FileSystem, dir: string, outputs: seq<string>, n: nat)
    requires n <= |outputs|
    ensures forall k :: 0 <= k < n ==> LastWriteTimeSafe(fs, Combine(dir, outputs[k])) <= LatestTime(fs, dir, outputs, n)
    ensures LatestTime(fs, dir, outputs, n) == 0 ||
      exists k :: 0 <= k < n && LastWriteTimeSafe(fs, Combine(dir, outputs[k])) == LatestTime(fs, dir, outputs, n)
  {
    if n > 0 {
      LatestTimeIsMax(fs, dir, outputs, n - 1);
    }
  }

  class ProjectFile {
    /** The project's root directory. */
    const projectPath: string
    /** The path of the file relative to the project root. */
    var filePath: string
    /** The files the file imports, directly or indirectly. */
    var additionalSourceFiles: set<string>
    /** Pending (null), Failed (false) or Succeeded (true). */
    var status: Status
    /** The log of the last compilation ("" stands for no log). */
    var lastLog: string
    /** The time of the last compilation that changed an output (0 = never). */
    var lastCompileTime: nat
    /** The GZip-compressed size of the main output, -1 when unknown. */
    var compressedResultSize: int
    /** The size to compare with, -1 when there is none. */
    var compressedResultSizeBaseline: int
    /** Outputs' times and contents recorded before the tools run. */
    var fileTimes: map<string, FileTimeInfo>
    var newError: bool
    var fullFileName: string
    var fileDir: string
    var isAnyFileModified: bool
    var isCompiling: bool
    var needsRecompile: bool
    /** Whether a delayed compilation has ever been (re)started.  The
        delayed call itself is not modelled, so nothing clears the flag:
        it records that a compilation was scheduled, not that one is still
        to come. */
    var compileScheduled: bool

    /** A request to compile again only stands while a compilation runs. */
    predicate Valid()
      reads this`isCompiling, this`needsRecompile
    {
      !isCompiling ==> !needsRecompile
    }

    /** The state while a compilation runs: the paths are those of the file,
        the status is pending until a tool fails, and a failure is a new
        error. */
    predicate Busy()
      reads this`isCompiling, this`status, this`newError, this`fullFileName, this`fileDir, this`filePath
    {
      isCompiling && Unfinished() && Named()
    }

    /** No outcome yet, or a failure that has been flagged. */
    predicate Unfinished()
      reads this`status, this`newError
    {
      status != Succeeded && (status == Failed <==> newError)
    }

    /** The full name and the directory of the file being compiled. */
    predicate Named()
      reads this`fullFileName, this`fileDir, this`filePath
    {
      fullFileName == Combine(projectPath, filePath) && fileDir == GetDirectoryName(fullFileName)
    }

    /** The state a successful compilation ends in.  The outputs were
        checked against the file system before the tools ran (before) and
        the one they left (checked): the modified flag is raised when one
        changed.  The log goes on from log with the compiled files (listed
        is the intermediate file, "" when it was removed).  The compile time
        is renewed exactly when an output changed.  The compressed size is
        that of the minified output in fs. */
    predicate FinishedFrom(log: string, listed: string, min: string, before: FileSystem, checked: FileSystem,
      fs: FileSystem, now: nat, p: Patterns, time0: nat, modified0: bool)
      reads this`isAnyFileModified, this`lastLog, this`lastCompileTime, this`compressedResultSize, this`fileDir
    {
      isAnyFileModified == (modified0 || OutputsChanged(before, checked, fileDir, min)) &&
      lastLog == log + CompiledFilesLog(listed, min, isAnyFileModified) &&
      lastCompileTime == (if isAnyFileModified then now else time0) &&
      compressedResultSize == CompressedSize(p, fs, Combine(fileDir, min))
    }

    /** The file and its additional sources, as full paths. */
    function SourcePaths(): set<string>
      reads this`filePath, this`additionalSourceFiles
    {
      {Combine(projectPath, filePath)} + set f | f in additionalSourceFiles :: Combine(projectPath, f)
    }

    constructor (projectPath: string, filePath: string, hasBaseline: bool)
      ensures this.projectPath == projectPath && this.filePath == filePath
      ensures status == Succeeded && lastLog == "" && lastCompileTime == 0
      ensures compressedResultSize == 0
      ensures compressedResultSizeBaseline == if hasBaseline then 0 else -1
      ensures additionalSourceFiles == {} && fileTimes == map[]
      ensures !isCompiling && !needsRecompile && !newError && !isAnyFileModified && !compileScheduled
      ensures Valid()
    {
      this.projectPath := projectPath;
      this.filePath := filePath;
      additionalSourceFiles := {};
      status := Succeeded;
      lastLog := "";
      lastCompileTime := 0;
      compressedResultSize := 0;
      compressedResultSizeBaseline := if hasBaseline then 0 else -1;
      fileTimes := map[];
      newError := false;
      fullFileName := "";
      fileDir := "";
      isAnyFileModified := false;
      isCompiling := false;
      needsRecompile := false;
      compileScheduled := false;
    }

    /** A changed file concerns this file when it is the file itself or
        one of the files it imports, as paths compare. */
    predicate Concerns(fileName: string)
      reads this`filePath, this`additionalSourceFiles
    {
      PathEquals(fileName, Combine(projectPath, filePath)) ||
      exists f :: f in additionalSourceFiles && PathEquals(fileName, f)
    }

    /** Whether a changed file concerns this file, searching the file and
        then its imports one by one. */
    method MatchesFile(fileName: string) returns (r: bool)
      ensures r == Concerns(fileName)
    {
      if PathEquals(fileName, Combine(projectPath, filePath)) {
        return true;
      }
      var rest := additionalSourceFiles;
      while rest != {}
        invariant rest <= additionalSourceFiles
        invariant forall f :: f in additionalSourceFiles && f !in rest ==> !PathEquals(fileName, f)
        decreases |rest|
      {
        var f :| f in rest;
        if PathEquals(fileName, f) {
          return true;
        }
        rest := rest - {f};
      }
      return false;
    }

    /** Marks the file pending and (re)starts the delayed compilation. */
    method ScheduleCompile()
      modifies this`status, this`compileScheduled
      ensures status == Pending && compileScheduled
    {
      status := Pending;
      compileScheduled := true;
    }

    method ClearFileTimes()
      modifies this`fileTimes, this`isAnyFileModified
      ensures fileTimes == map[] && !isAnyFileModified
    {
      fileTimes := map[];
      isAnyFileModified := false;
    }

    method SaveResultFileTime(fileName: string, fs: FileSystem)
      modifies this`fileTimes
      ensures fileTimes == SavedTimes(old(fileTimes), fs, fileDir, fileName)
    {
      var path := Combine(fileDir, fileName);
      if path in fs {
        fileTimes := fileTimes[fileName := FileTimeInfo(fs[path].mtime, fs[path].lines)];
      }
    }

    method RestoreResultFileTime(fileName: string, fs: FileSystem)
      modifies this`isAnyFileModified
      ensures isAnyFileModified == (old(isAnyFileModified) || OutputModified(fileTimes, fs, fileDir, fileName))
    {
      var path := Combine(fileDir, fileName);
      if path in fs && fileName in fileTimes {
        if fs[path].lines == fileTimes[fileName].hash {
          return;
        }
      }
      isAnyFileModified := true;
    }

    /** The latest write time of the file and its additional sources. */
    method LatestSourceTime(fs: FileSystem) returns (latest: nat)
      ensures NoSourceNewer(fs, SourcePaths(), latest)
      ensures exists s :: s in SourcePaths() && LastWriteTimeSafe(fs, s) == latest
    {
      var source := Combine(projectPath, filePath);
      latest := LastWriteTimeSafe(fs, source);
      var rest := additionalSourceFiles;
      while rest != {}
        invariant rest <= additionalSourceFiles
        invariant LastWriteTimeSafe(fs, source) <= latest
        invariant forall f :: f in additionalSourceFiles && f !in rest ==>
          LastWriteTimeSafe(fs, Combine(projectPath, f)) <= latest
        invariant latest == LastWriteTimeSafe(fs, source) ||
          exists f :: f in additionalSourceFiles && LastWriteTimeSafe(fs, Combine(projectPath, f)) == latest
        decreases |rest|
      {
        var f :| f in rest;
        var t := LastWriteTimeSafe(fs, Combine(projectPath, f));
        if t > latest {
          latest := t;
        }
        rest := rest - {f};
      }
      if latest != LastWriteTimeSafe(fs, source) {
        var f :| f in additionalSourceFiles && LastWriteTimeSafe(fs, Combine(projectPath, f)) == latest;
        assert Combine(projectPath, f) in SourcePaths();
      }
    }

    /** Whether every output exists and is not older than the file or any
        of its additional sources; the first time, the latest output time is
        taken as the last compile time. */
    method AreFilesUpToDate(outputs: seq<string>, fs: FileSystem) returns (upToDate: bool)
      modifies this`lastCompileTime
      ensures var dir := GetDirectoryName(Combine(projectPath, filePath));
        upToDate <==> UpToDate(fs, SourcePaths(), dir, outputs)
      ensures var dir := GetDirectoryName(Combine(projectPath, filePath));
        lastCompileTime == if old(lastCompileTime) == 0 then LatestTime(fs, dir, outputs, |outputs|) else old(lastCompileTime)
    {
      var source := Combine(projectPath, filePath);
      var path := GetDirectoryName(source);
      var latestSource := LatestSourceTime(fs);
      ghost var sources := SourcePaths();
      var latestOutput := 0;
      var allUpToDate := true;
      var i := 0;
      while i < |outputs|
        invariant i <= |outputs|
        invariant allUpToDate <==> forall k :: 0 <= k < i ==> OutputCurrent(fs, sources, Combine(path, outputs[k]))
        invariant latestOutput == LatestTime(fs, path, outputs, i)
        invariant lastCompileTime == old(lastCompileTime)
      {
        var output := Combine(path, outputs[i]);
        var outputTime := LastWriteTimeSafe(fs, output);
        if outputTime > latestOutput {
          latestOutput := outputTime;
        }
        NoSourceNewerLatest(fs, sources, latestSource, output);
        if output !in fs || outputTime < latestSource {
          allUpToDate := false;
        }
        i := i + 1;
      }
      if lastCompileTime == 0 && latestOutput != 0 {
        lastCompileTime := latestOutput;
      }
      return allUpToDate;
    }

    /** Runs a tool and logs it; a failed run marks the file failed with a
        new error, and a compilation requested meanwhile is remembered while
        a compilation runs. */
    method ExecAsync(cmdline: string, directory: string, world: World)
      modifies this`lastLog, this`newError, this`status, this`needsRecompile, world`fs, world`started
      ensures var run := world.script.runs[|old(world.started)|];
        var cmd := ExecCommandLine(old(world.fs), world.appDir, cmdline);
        world.started == old(world.started) + [Invocation(cmd, directory)] &&
        world.fs == run.after &&
        lastLog == ExecLog(old(lastLog), cmd, run) &&
        (RunFailed(run) ==> newError && status == Failed) &&
        (!RunFailed(run) ==> newError == old(newError) && status == old(status)) &&
        needsRecompile == (old(needsRecompile) || (isCompiling && run.compileRequested))
    {
      var cmd := ExecCommandLine(world.fs, world.appDir, cmdline);
      var run := world.StartProcess(cmd, directory);
      lastLog := ExecLog(lastLog, cmd, run);
      if RunFailed(run) {
        newError := true;
        status := Failed;
      }
      if isCompiling && run.compileRequested {
        needsRecompile := true;
      }
    }

    /** The compressed size of an output, -1 when it cannot be read. */
    method SetCompressedResultSize(path: string, world: World)
      modifies this`compressedResultSize
      ensures compressedResultSize == if path in world.fs then GzipSize(world.patterns, world.fs[path].lines) else -1
      ensures path in world.fs ==> compressedResultSize >= 0
    {
      if path in world.fs {
        compressedResultSize := GzipSize(world.patterns, world.fs[path].lines);
      } else {
        compressedResultSize := -1;
      }
    }

    /** Rewrites a source map; a missing map or one that cannot be processed
        is an exception. */
    method PostprocessMapFile(mapFileName: string, world: World) returns (failure: Option<Failure>)
      modifies world`fs
      ensures var path := Combine(fileDir, mapFileName);
        path !in old(world.fs) ==> failure == Some(MapFileNotFound(path)) && world.fs == old(world.fs)
      ensures var path := Combine(fileDir, mapFileName);
        path in old(world.fs) ==>
          match PostprocessOutcome(world.patterns, old(world.fs)[path].lines)
          case NotAnObject => failure.None? && world.fs == old(world.fs)
          case Rewritten(content) => failure.None? && world.fs == old(world.fs)[path := FileInfo(world.now, content)]
          case MapException => failure == Some(MapFileInvalid(path)) && world.fs == old(world.fs)
      ensures var path := Combine(fileDir, mapFileName);
        failure == MapFailure(world.patterns, old(world.fs), path) &&
        world.fs == MappedFs(world.patterns, world.now, old(world.fs), path)
    {
      var path := Combine(fileDir, mapFileName);
      if path !in world.fs {
        return Some(MapFileNotFound(path));
      }
      match PostprocessOutcome(world.patterns, world.fs[path].lines)
      case NotAnObject =>
        failure := None;
      case Rewritten(content) =>
        world.WriteAllLines(path, content);
        failure := None;
      case MapException =>
        failure := Some(MapFileInvalid(path));
    }

    /** The start of the tool runs: earlier records are forgotten, the
        minified output and its map are recorded, and the log is emptied;
        a CSS compilation also forgets the compressed size. */
    method BeginOutputs(min: string, fs: FileSystem, forgetSize: bool)
      modifies this`fileTimes, this`isAnyFileModified, this`lastLog, this`compressedResultSize
      ensures fileTimes == Recorded(fs, fileDir, min)
      ensures !isAnyFileModified && lastLog == ""
      ensures compressedResultSize == if forgetSize then -1 else old(compressedResultSize)
    {
      ClearFileTimes();
      SaveResultFileTime(min, fs);
      SaveResultFileTime(min + ".map", fs);
      lastLog := "";
      if forgetSize {
        compressedResultSize := -1;
      }
    }

    /** The end of a successful compilation, first part: the outputs are
        checked against the records taken before the tools ran, and the
        intermediate file is removed with its map when asked to. */
    method CheckOutputs(intermediate: string, min: string, remove: bool, world: World, ghost before: FileSystem)
      requires fileTimes == Recorded(before, fileDir, min)
      modifies this`isAnyFileModified, world`fs
      ensures isAnyFileModified == (old(isAnyFileModified) || OutputsChanged(before, old(world.fs), fileDir, min))
      ensures world.fs == if remove then old(world.fs) - {Combine(fileDir, intermediate), Combine(fileDir, intermediate + ".map")} else old(world.fs)
    {
      ChangeDetection(before, world.fs, fileDir, min);
      RestoreResultFileTime(min, world.fs);
      RestoreResultFileTime(min + ".map", world.fs);
      if remove {
        world.Delete(Combine(fileDir, intermediate));
        world.Delete(Combine(fileDir, intermediate + ".map"));
      }
    }

    /** The end of a successful compilation, second part: the log lists the
        compiled files, the compile time is renewed when an output changed
        and otherwise a note says that nothing changed, and the compressed
        size of the minified output is taken. */
    method LogCompiledFiles(listed: string, min: string, world: World)
      modifies this`lastLog, this`lastCompileTime, this`compressedResultSize
      ensures lastLog == old(lastLog) + CompiledFilesLog(listed, min, isAnyFileModified)
      ensures lastCompileTime == if isAnyFileModified then world.now else old(lastCompileTime)
      ensures var path := Combine(fileDir, min);
        compressedResultSize == if path in world.fs then GzipSize(world.patterns, world.fs[path].lines) else -1
    {
      lastLog := lastLog + CompiledFilesLog(listed, min, isAnyFileModified);
      if isAnyFileModified {
        lastCompileTime := world.now;
      }
      SetCompressedResultSize(Combine(fileDir, min), world);
    }

    /** The end of a successful compilation: the outputs are compared with
        the records taken before the tools ran, the intermediate file is
        removed with its map when asked to, the log lists the compiled files,
        the compile time is renewed exactly when an output changed, and the
        compressed size of the minified output is taken. */
    method FinishOutputs(intermediate: string, min: string, remove: bool, world: World, ghost before: FileSystem)
      requires fileTimes == Recorded(before, fileDir, min)
      modifies this`isAnyFileModified, this`lastLog, this`lastCompileTime, this`compressedResultSize, world`fs
      ensures isAnyFileModified == (old(isAnyFileModified) || OutputsChanged(before, old(world.fs), fileDir, min))
      ensures world.fs == if remove then old(world.fs) - {Combine(fileDir, intermediate), Combine(fileDir, intermediate + ".map")} else old(world.fs)
      ensures lastLog == old(lastLog) + CompiledFilesLog(if remove then "" else intermediate, min, isAnyFileModified)
      ensures lastCompileTime == if isAnyFileModified then world.now else old(lastCompileTime)
      ensures var path := Combine(fileDir, min);
        compressedResultSize == if path in world.fs then GzipSize(world.patterns, world.fs[path].lines) else -1
      ensures FinishedFrom(old(lastLog), if remove then "" else intermediate, min, before, old(world.fs), world.fs,
        world.now, world.patterns, old(lastCompileTime), old(isAnyFileModified))
    {
      CheckOutputs(intermediate, min, remove, world, before);
      LogCompiledFiles(if remove then "" else intermediate, min, world);
    }

    /** The up-to-date check of a compilation that is not forced; an up-to-
        date file only has its compressed size refreshed.  The check takes
        the outputs' latest write time as the compile time when none is
        known yet.  The status needs no reset here: the compilation has just
        set it to pending. */
    method SkipIfUpToDate(force: bool, min: string, world: World) returns (skip: bool)
      requires Named()
      modifies this`lastCompileTime, this`compressedResultSize
      ensures skip <==> !force && UpToDate(world.fs, old(SourcePaths()), old(fileDir), [min, min + ".map"])
      ensures lastCompileTime ==
        if !force && old(lastCompileTime) == 0 then LatestTime(world.fs, fileDir, [min, min + ".map"], 2)
        else old(lastCompileTime)
      ensures compressedResultSize ==
        if skip then CompressedSize(world.patterns, world.fs, Combine(fileDir, min)) else old(compressedResultSize)
    {
      skip := false;
      if !force {
        skip := AreFilesUpToDate([min, min + ".map"], world.fs);
        if skip {
          SetCompressedResultSize(Combine(fileDir, min), world);
        }
      }
    }

    /** Runs the CSS minifier on a file, writing the minified output and its
        source map, and post-processes the map. */
    method MinifyCss(css: string, min: string, world: World) returns (failure: Option<Failure>)
      requires Unfinished()
      modifies this`lastLog, this`newError, this`status, this`needsRecompile, world`fs, world`started
      ensures Unfinished()
      ensures world.started == old(world.started) +
        [Invocation(ExecCommandLine(old(world.fs), world.appDir, CssoCommand(css, min)), fileDir)]
      ensures var run := world.script.runs[|old(world.started)|];
        var path := Combine(fileDir, min + ".map");
        lastLog == ExecLog(old(lastLog), ExecCommandLine(old(world.fs), world.appDir, CssoCommand(css, min)), run) &&
        failure == MapFailure(world.patterns, run.after, path) &&
        world.fs == MappedFs(world.patterns, world.now, run.after, path)
      ensures var run := world.script.runs[|old(world.started)|];
        status == (if RunFailed(run) then Failed else old(status)) && newError == (old(newError) || RunFailed(run)) &&
        needsRecompile == (old(needsRecompile) || (isCompiling && run.compileRequested))
    {
      ExecAsync(CssoCommand(css, min), fileDir, world);
      failure := PostprocessMapFile(min + ".map", world);
    }

    /** The tool runs of a CSS compilation, after the up-to-date check. */
    method RunCss(css: string, min: string, world: World) returns (failure: Option<Failure>)
      requires status == Pending && !newError && !needsRecompile
      modifies this`status, this`lastLog, this`newError, this`needsRecompile, this`lastCompileTime,
        this`compressedResultSize, this`fileTimes, this`isAnyFileModified, world`fs, world`started
      ensures Unfinished()
      ensures var run := world.script.runs[|old(world.started)|];
        var cmd := ExecCommandLine(old(world.fs), world.appDir, CssoCommand(css, min));
        var mapped := MappedFs(world.patterns, world.now, run.after, Combine(fileDir, min + ".map"));
        world.started == old(world.started) + [Invocation(cmd, fileDir)] && world.fs == mapped &&
        failure == MapFailure(world.patterns, run.after, Combine(fileDir, min + ".map")) &&
        status == (if RunFailed(run) then Failed else Pending) && newError == RunFailed(run) &&
        needsRecompile == (isCompiling && run.compileRequested) &&
        fileTimes == Recorded(old(world.fs), fileDir, min)
      ensures var run := world.script.runs[|old(world.started)|];
        var cmd := ExecCommandLine(old(world.fs), world.appDir, CssoCommand(css, min));
        if failure.None? && !needsRecompile && status != Failed then
          FinishedFrom(ExecLog("", cmd, run), "", min, old(world.fs), world.fs, world.fs, world.now, world.patterns,
            old(lastCompileTime), false)
        else
          lastLog == ExecLog("", cmd, run) && !isAnyFileModified && compressedResultSize == -1 &&
          lastCompileTime == old(lastCompileTime)
    {
      ghost var before := world.fs;
      BeginOutputs(min, world.fs, true);
      failure := MinifyCss(css, min, world);
      if failure.Some? || needsRecompile {
        return;
      }
      if status != Failed {
        FinishOutputs("", min, false, world, before);
      }
    }

    /** Compiles a CSS file into its minified form and source map, placed
        in the build directory the header names.  Unless forced, outputs
        that are up to date are left alone and no tool runs; otherwise the
        minifier runs first, and on success the compile time is renewed
        exactly when an output's content changed. */
    method CompileCss(force: bool, world: World) returns (failure: Option<Failure>)
      requires Named() && status == Pending && !newError && !needsRecompile && fullFileName in world.fs
      modifies this`status, this`lastLog, this`newError, this`needsRecompile, this`lastCompileTime,
        this`compressedResultSize, this`fileTimes, this`isAnyFileModified, world`fs, world`started
      ensures Unfinished()
      ensures var buildDir := FirstBuildDir(old(world.fs)[fullFileName].lines, HeaderCount(old(world.fs)[fullFileName].lines), world.patterns.buildDir, false);
        var min := OutputName(buildDir, GetFileNameWithoutExtension(fullFileName) + ".min.css");
        if !force && UpToDate(old(world.fs), old(SourcePaths()), old(fileDir), [min, min + ".map"]) then
          failure.None? && world.fs == old(world.fs) && world.started == old(world.started)
        else
          |world.started| > |old(world.started)| &&
          world.started[|old(world.started)|] ==
            Invocation(ExecCommandLine(old(world.fs), world.appDir, CssoCommand(GetFileName(fullFileName), min)), fileDir)
      ensures var buildDir := FirstBuildDir(old(world.fs)[fullFileName].lines, HeaderCount(old(world.fs)[fullFileName].lines), world.patterns.buildDir, false);
        var min := OutputName(buildDir, GetFileNameWithoutExtension(fullFileName) + ".min.css");
        var run := world.script.runs[|old(world.started)|];
        var cmd := ExecCommandLine(old(world.fs), world.appDir, CssoCommand(GetFileName(fullFileName), min));
        var time0 := if !force && old(lastCompileTime) == 0 then LatestTime(old(world.fs), fileDir, [min, min + ".map"], 2) else old(lastCompileTime);
        !(!force && UpToDate(old(world.fs), old(SourcePaths()), old(fileDir), [min, min + ".map"])) &&
        failure.None? && !needsRecompile && status != Failed ==>
          FinishedFrom(ExecLog("", cmd, run), "", min, old(world.fs), world.fs, world.fs, world.now, world.patterns, time0, false)
    {
      var cssFileName := GetFileName(fullFileName);
      var buildDir := ScanBuildDir(world.fs[fullFileName].lines, world.patterns.buildDir);
      var minCssFileName := OutputName(buildDir, GetFileNameWithoutExtension(fullFileName) + ".min.css");
      var skip := SkipIfUpToDate(force, minCssFileName, world);
      if skip {
        return None;
      }
      assert world.fs == old(world.fs) && world.started == old(world.started);
      assert lastCompileTime == if !force && old(lastCompileTime) == 0
        then LatestTime(old(world.fs), fileDir, [minCssFileName, minCssFileName + ".map"], 2) else old(lastCompileTime);
      ghost var fs0, k, time0 := world.fs, |world.started|, lastCompileTime;
      failure := RunCss(cssFileName, minCssFileName, world);
      assert failure.None? && !needsRecompile && status != Failed ==>
        FinishedFrom(ExecLog("", ExecCommandLine(fs0, world.appDir, CssoCommand(cssFileName, minCssFileName)), world.script.runs[k]),
          "", minCssFileName, fs0, world.fs, world.fs, world.now, world.patterns, time0, false);
    }

    /** Splices the IIFE parameters and arguments of the header into the
        bundle's function expression, when the header names any and the
        bundle exists.  A bundle too short for the splice fails. */
    method SpliceBundle(bundle: string, h: JsHeader, world: World) returns (failure: Option<Failure>)
      modifies world`fs
      ensures var path := Combine(fileDir, bundle);
        if (h.iifeParams != "" || h.iifeArgs != "") && path in old(world.fs) then
          match Spliced(old(world.fs)[path].lines, world.patterns.iifeOpen, world.patterns.iifeClose, h.iifeParams, h.iifeArgs)
          case Some(spliced) => failure.None? && world.fs == old(world.fs)[path := FileInfo(world.now, spliced)]
          case None => failure == Some(SpliceOutOfRange) && world.fs == old(world.fs)
        else
          failure.None? && world.fs == old(world.fs)
      ensures var path := Combine(fileDir, bundle);
        failure == SpliceFailure(world.patterns, old(world.fs), path, h) &&
        world.fs == SplicedFs(world.patterns, world.now, old(world.fs), path, h)
    {
      var path := Combine(fileDir, bundle);
      failure := None;
      if (h.iifeParams != "" || h.iifeArgs != "") && path in world.fs {
        var content := world.fs[path].lines;
        var lines := new string[|content|](i requires 0 <= i < |content| => content[i]);
        assert lines[..] == content;
        var ok := SpliceIife(lines, world.patterns.iifeOpen, world.patterns.iifeClose, h.iifeParams, h.iifeArgs);
        if !ok {
          return Some(SpliceOutOfRange);
        }
        world.WriteAllLines(path, lines[..]);
      }
    }

    /** Bundles a JavaScript file with the files it imports, then splices
        the header's IIFE parameters and arguments into the bundle. */
    method BundleJavaScript(src: string, bundle: string, h: JsHeader, world: World) returns (failure: Option<Failure>)
      requires Unfinished()
      modifies this`lastLog, this`newError, this`status, this`needsRecompile, world`fs, world`started
      ensures Unfinished()
      ensures world.started == old(world.started) +
        [Invocation(ExecCommandLine(old(world.fs), world.appDir, RollupCommand(src, bundle, h.noIife, h.banner)), fileDir)]
      ensures var run := world.script.runs[|old(world.started)|];
        var path := Combine(fileDir, bundle);
        lastLog == ExecLog(old(lastLog), ExecCommandLine(old(world.fs), world.appDir, RollupCommand(src, bundle, h.noIife, h.banner)), run) &&
        failure == SpliceFailure(world.patterns, run.after, path, h) &&
        world.fs == SplicedFs(world.patterns, world.now, run.after, path, h)
      ensures var run := world.script.runs[|old(world.started)|];
        status == (if RunFailed(run) then Failed else old(status)) && newError == (old(newError) || RunFailed(run)) &&
        needsRecompile == (old(needsRecompile) || (isCompiling && run.compileRequested))
    {
      ExecAsync(RollupCommand(src, bundle, h.noIife, h.banner), fileDir, world);
      failure := SpliceBundle(bundle, h, world);
    }

    /** Minifies the bundle (or the file itself) with a source map, which
        continues the bundle's map when there is one, and post-processes
        the map. */
    method MinifyJavaScript(bundle: string, onlyMin: string, min: string, world: World) returns (failure: Option<Failure>)
      requires Unfinished()
      modifies this`lastLog, this`newError, this`status, this`needsRecompile, world`fs, world`started
      ensures Unfinished()
      ensures world.started == old(world.started) +
        [Invocation(ExecCommandLine(old(world.fs), world.appDir,
          UglifyCommand(bundle, min, MapParam(bundle, onlyMin, Combine(fileDir, bundle) + ".map" in old(world.fs)))), fileDir)]
      ensures var run := world.script.runs[|old(world.started)|];
        var path := Combine(fileDir, min + ".map");
        var cmd := UglifyCommand(bundle, min, MapParam(bundle, onlyMin, Combine(fileDir, bundle) + ".map" in old(world.fs)));
        lastLog == ExecLog(old(lastLog), ExecCommandLine(old(world.fs), world.appDir, cmd), run) &&
        failure == MapFailure(world.patterns, run.after, path) &&
        world.fs == MappedFs(world.patterns, world.now, run.after, path)
      ensures var run := world.script.runs[|old(world.started)|];
        status == (if RunFailed(run) then Failed else old(status)) && newError == (old(newError) || RunFailed(run)) &&
        needsRecompile == (old(needsRecompile) || (isCompiling && run.compileRequested))
    {
      var mapParam := MapParam(bundle, onlyMin, Combine(fileDir, bundle) + ".map" in world.fs);
      ExecAsync(UglifyCommand(bundle, min, mapParam), fileDir, world);
      failure := PostprocessMapFile(min + ".map", world);
    }

    /** A JavaScript compilation once its file names are known: unless
        forced, outputs that are up to date are left alone; otherwise the
        bundler runs when the file imports others, then the minifier unless
        a tool failed or a new compilation was requested. */
    method RunJavaScript(n: JsNames, h: JsHeader, force: bool, bundled: bool, keepIntermediary: bool, keepUnminified: bool, world: World)
      returns (failure: Option<Failure>)
      requires Named() && status == Pending && !newError && !needsRecompile
      modifies this`status, this`lastLog, this`newError, this`needsRecompile, this`lastCompileTime,
        this`compressedResultSize, this`fileTimes, this`isAnyFileModified, world`fs, world`started
      ensures Unfinished()
      ensures if !force && UpToDate(old(world.fs), old(SourcePaths()), old(fileDir), [n.min, n.min + ".map"]) then
          failure.None? && world.fs == old(world.fs) && world.started == old(world.started)
        else
          |world.started| > |old(world.started)| && world.started[|old(world.started)|] ==
            Invocation(ExecCommandLine(old(world.fs), world.appDir,
              JsFirstCommand(n, h, bundled, Combine(fileDir, n.src) + ".map" in old(world.fs))), fileDir) &&
          (failure.None? && !needsRecompile && status != Failed && bundled &&
           !keepIntermediary && !keepUnminified && n.bundle != n.src ==>
            Combine(fileDir, n.bundle) !in world.fs && Combine(fileDir, n.bundle + ".map") !in world.fs)
      ensures var time0 := if !force && old(lastCompileTime) == 0 then LatestTime(old(world.fs), fileDir, [n.min, n.min + ".map"], 2) else old(lastCompileTime);
        !(!force && UpToDate(old(world.fs), old(SourcePaths()), old(fileDir), [n.min, n.min + ".map"])) ==>
          JsFinished(n, h, bundled, !keepIntermediary && !keepUnminified, old(world.fs), old(world.started), time0, failure, world)
    {
      var skip := SkipIfUpToDate(force, n.min, world);
      if skip {
        return None;
      }
      failure := RunJsTools(n, h, bundled, keepIntermediary, keepUnminified, world);
    }

    /** The success of a JavaScript compilation's tool runs, started in the
        file system fs0 after the runs started0, with the compile time time0
        before them: the log holds the bundler's run when the file imports
        others and the minifier's run, the outputs were checked against fs0
        and the state is that FinishedFrom describes. */
    predicate JsFinished(n: JsNames, h: JsHeader, bundled: bool, drop: bool, fs0: FileSystem, started0: seq<Invocation>,
      time0: nat, failure: Option<Failure>, world: World)
      reads this`status, this`needsRecompile, this`isAnyFileModified, this`lastLog, this`lastCompileTime,
        this`compressedResultSize, this`fileDir, world`fs
    {
      var k := |started0|;
      var bundleRun := world.script.runs[k];
      var input := if bundled then n.bundle else n.src;
      var fs1 := if bundled then SplicedFs(world.patterns, world.now, bundleRun.after, Combine(fileDir, n.bundle), h) else fs0;
      var log1 := if bundled then ExecLog("", ExecCommandLine(fs0, world.appDir, RollupCommand(n.src, n.bundle, h.noIife, h.banner)), bundleRun) else "";
      var minRun := world.script.runs[if bundled then k + 1 else k];
      var cmd := ExecCommandLine(fs1, world.appDir, UglifyCommand(input, n.min, MapParam(input, n.onlyMin, Combine(fileDir, input) + ".map" in fs1)));
      var mapped := MappedFs(world.patterns, world.now, minRun.after, Combine(fileDir, n.min + ".map"));
      var remove := drop && input != n.src;
      failure.None? && !needsRecompile && status != Failed ==>
        FinishedFrom(ExecLog(log1, cmd, minRun), if remove then "" else input, n.min, fs0, mapped, world.fs,
          world.now, world.patterns, time0, false)
    }

    /** The tool runs of a JavaScript compilation: the bundler when the file
        imports others, then the minifier unless a tool failed or a new
        compilation was requested. */
    method RunJsTools(n: JsNames, h: JsHeader, bundled: bool, keepIntermediary: bool, keepUnminified: bool, world: World)
      returns (failure: Option<Failure>)
      requires status == Pending && !newError && !needsRecompile
      modifies this`status, this`lastLog, this`newError, this`needsRecompile, this`lastCompileTime,
        this`compressedResultSize, this`fileTimes, this`isAnyFileModified, world`fs, world`started
      ensures Unfinished()
      ensures |world.started| > |old(world.started)| && world.started[|old(world.started)|] ==
        Invocation(ExecCommandLine(old(world.fs), world.appDir,
          JsFirstCommand(n, h, bundled, Combine(fileDir, n.src) + ".map" in old(world.fs))), fileDir)
      ensures (failure.None? && !needsRecompile && status != Failed && bundled &&
               !keepIntermediary && !keepUnminified && n.bundle != n.src) ==>
        Combine(fileDir, n.bundle) !in world.fs && Combine(fileDir, n.bundle + ".map") !in world.fs
      ensures JsFinished(n, h, bundled, !keepIntermediary && !keepUnminified, old(world.fs), old(world.started),
        old(lastCompileTime), failure, world)
    {
      ghost var before := world.fs;
      BeginOutputs(n.min, world.fs, false);
      assert lastCompileTime == old(lastCompileTime) && !isAnyFileModified && lastLog == "";
      if bundled {
        var remove := !keepIntermediary && !keepUnminified && n.bundle != n.src;
        failure := BundleAndMinify(n, h, remove, world, before);
      } else {
        failure := FinishJavaScript(n.src, n, false, world, before);
      }
    }

    /** The tool runs of a JavaScript file that imports others: the bundler,
        then the minifier on the bundle, the bundle being removed when asked
        to. */
    method BundleAndMinify(n: JsNames, h: JsHeader, remove: bool, world: World, ghost before: FileSystem)
      returns (failure: Option<Failure>)
      requires Unfinished() && fileTimes == Recorded(before, fileDir, n.min)
      modifies this`status, this`lastLog, this`newError, this`needsRecompile, this`lastCompileTime,
        this`compressedResultSize, this`isAnyFileModified, world`fs, world`started
      ensures Unfinished()
      ensures |world.started| > |old(world.started)| && world.started[|old(world.started)|] ==
        Invocation(ExecCommandLine(old(world.fs), world.appDir, RollupCommand(n.src, n.bundle, h.noIife, h.banner)), fileDir)
      ensures failure.None? && !needsRecompile && status != Failed && remove ==>
        Combine(fileDir, n.bundle) !in world.fs && Combine(fileDir, n.bundle + ".map") !in world.fs
      ensures var k := |old(world.started)|;
        var bundleRun := world.script.runs[k];
        var fs1 := SplicedFs(world.patterns, world.now, bundleRun.after, Combine(fileDir, n.bundle), h);
        var log1 := ExecLog(old(lastLog), ExecCommandLine(old(world.fs), world.appDir, RollupCommand(n.src, n.bundle, h.noIife, h.banner)), bundleRun);
        var minRun := world.script.runs[k + 1];
        var cmd := ExecCommandLine(fs1, world.appDir, UglifyCommand(n.bundle, n.min, MapParam(n.bundle, n.onlyMin, Combine(fileDir, n.bundle) + ".map" in fs1)));
        failure.None? && !needsRecompile && status != Failed ==>
          FinishedFrom(ExecLog(log1, cmd, minRun), if remove then "" else n.bundle, n.min, before,
            MappedFs(world.patterns, world.now, minRun.after, Combine(fileDir, n.min + ".map")), world.fs,
            world.now, world.patterns, old(lastCompileTime), old(isAnyFileModified))
    {
      failure := BundleJavaScript(n.src, n.bundle, h, world);
      if failure.Some? {
        return;
      }
      failure := FinishJavaScript(n.bundle, n, remove, world, before);
    }

    /** A JavaScript compilation after the bundler: unless a new compilation
        was requested or a tool failed, the minifier runs on the bundle (or
        the file itself) and the outputs are checked, the bundle being
        removed when asked to.  The runs started before are kept. */
    method FinishJavaScript(bundleFileName: string, n: JsNames, remove: bool, world: World, ghost before: FileSystem)
      returns (failure: Option<Failure>)
      requires Unfinished() && fileTimes == Recorded(before, fileDir, n.min)
      modifies this`status, this`lastLog, this`newError, this`needsRecompile, this`lastCompileTime,
        this`compressedResultSize, this`isAnyFileModified, world`fs, world`started
      ensures Unfinished()
      ensures old(world.started) <= world.started
      ensures !old(needsRecompile) && old(status) != Failed ==>
        |world.started| > |old(world.started)| && world.started[|old(world.started)|] ==
          Invocation(ExecCommandLine(old(world.fs), world.appDir,
            UglifyCommand(bundleFileName, n.min,
              MapParam(bundleFileName, n.onlyMin, Combine(fileDir, bundleFileName) + ".map" in old(world.fs)))), fileDir)
      ensures failure.None? && !needsRecompile && status != Failed && remove ==>
        Combine(fileDir, bundleFileName) !in world.fs && Combine(fileDir, bundleFileName + ".map") !in world.fs
      ensures var run := world.script.runs[|old(world.started)|];
        var cmd := ExecCommandLine(old(world.fs), world.appDir,
          UglifyCommand(bundleFileName, n.min, MapParam(bundleFileName, n.onlyMin, Combine(fileDir, bundleFileName) + ".map" in old(world.fs))));
        var mapped := MappedFs(world.patterns, world.now, run.after, Combine(fileDir, n.min + ".map"));
        failure.None? && !needsRecompile && status != Failed ==>
          world.started == old(world.started) + [Invocation(cmd, fileDir)] &&
          FinishedFrom(ExecLog(old(lastLog), cmd, run), if remove then "" else bundleFileName, n.min, before, mapped, world.fs,
            world.now, world.patterns, old(lastCompileTime), old(isAnyFileModified))
    {
      if needsRecompile {
        return None;
      }
      failure := None;
      if status != Failed {
        failure := MinifyJavaScript(bundleFileName, n.onlyMin, n.min, world);
        if failure.Some? {
          return;
        }
      }
      if needsRecompile {
        return None;
      }
      if status != Failed {
        FinishOutputs(bundleFileName, n.min, remove, world, before);
      }
    }

    /** Compiles a JavaScript file: a bundle when it imports other files,
        with the IIFE parameters and arguments of its header spliced in,
        then the minified form and source map.  Unless forced, outputs that
        are up to date are left alone and no tool runs; otherwise the first
        tool is the bundler when the file imports others and the minifier
        otherwise.  On success the bundle is removed unless a keep option is
        set. */
    method CompileJavaScript(force: bool, keepIntermediary: bool, keepUnminified: bool, world: World)
      returns (failure: Option<Failure>)
      requires Named() && status == Pending && !newError && !needsRecompile && fullFileName in world.fs
      modifies this`status, this`lastLog, this`newError, this`needsRecompile, this`lastCompileTime,
        this`compressedResultSize, this`fileTimes, this`isAnyFileModified, world`fs, world`started
      ensures Unfinished()
      ensures var p := world.patterns;
        var h := JsHeaderOf(old(world.fs)[fullFileName].lines, p.banner, p.iifeParams, p.iifeArgs, p.noIife, p.buildDir);
        var n := JsNamesOf(fullFileName, h.buildDir);
        if !force && UpToDate(old(world.fs), old(SourcePaths()), old(fileDir), [n.min, n.min + ".map"]) then
          failure.None? && world.fs == old(world.fs) && world.started == old(world.started)
        else
          |world.started| > |old(world.started)| &&
          world.started[|old(world.started)|] ==
            Invocation(ExecCommandLine(old(world.fs), world.appDir,
              JsFirstCommand(n, h, additionalSourceFiles != {}, Combine(fileDir, n.src) + ".map" in old(world.fs))), fileDir) &&
          (failure.None? && !needsRecompile && status != Failed && additionalSourceFiles != {} &&
           !keepIntermediary && !keepUnminified && n.bundle != n.src ==>
            Combine(fileDir, n.bundle) !in world.fs && Combine(fileDir, n.bundle + ".map") !in world.fs)
      ensures var p := world.patterns;
        var h := JsHeaderOf(old(world.fs)[fullFileName].lines, p.banner, p.iifeParams, p.iifeArgs, p.noIife, p.buildDir);
        var n := JsNamesOf(fullFileName, h.buildDir);
        var time0 := if !force && old(lastCompileTime) == 0 then LatestTime(old(world.fs), fileDir, [n.min, n.min + ".map"], 2) else old(lastCompileTime);
        !(!force && UpToDate(old(world.fs), old(SourcePaths()), old(fileDir), [n.min, n.min + ".map"])) ==>
          JsFinished(n, h, additionalSourceFiles != {}, !keepIntermediary && !keepUnminified, old(world.fs), old(world.started), time0, failure, world)
    {
      var p := world.patterns;
      var h := ScanJsHeader(world.fs[fullFileName].lines, p.banner, p.iifeParams, p.iifeArgs, p.noIife, p.buildDir);
      var n := JsNamesOf(fullFileName, h.buildDir);
      failure := RunJavaScript(n, h, force, additionalSourceFiles != {}, keepIntermediary, keepUnminified, world);
    }

    /** The success of an SCSS compilation's tool runs, started in the file
        system fs0 after the runs started0, with the compile time time0
        before them: the log holds the compiler's run and the minifier's
        run, the outputs were checked against fs0 and the state is that
        FinishedFrom describes. */
    predicate ScssFinished(scss: string, css: string, min: string, remove: bool, fs0: FileSystem,
      started0: seq<Invocation>, time0: nat, failure: Option<Failure>, world: World)
      reads this`status, this`needsRecompile, this`isAnyFileModified, this`lastLog, this`lastCompileTime,
        this`compressedResultSize, this`fileDir, world`fs
    {
      var sassRun := world.script.runs[|started0|];
      var log1 := ExecLog("", ExecCommandLine(fs0, world.appDir, SassCommand(scss, css)), sassRun);
      var minRun := world.script.runs[|started0| + 1];
      var cmd := ExecCommandLine(sassRun.after, world.appDir, CssoCommand(css, min));
      failure.None? && !needsRecompile && status != Failed ==>
        FinishedFrom(ExecLog(log1, cmd, minRun), if remove then "" else css, min, fs0,
          MappedFs(world.patterns, world.now, minRun.after, Combine(fileDir, min + ".map")), world.fs,
          world.now, world.patterns, time0, false)
    }

    /** The tool runs of an SCSS compilation, after the up-to-date check:
        the SCSS compiler, then the CSS minifier unless the compiler failed
        or a new compilation was requested. */
    method RunScss(scss: string, css: string, min: string, keepIntermediary: bool, keepUnminified: bool, world: World)
      returns (failure: Option<Failure>)
      requires status == Pending && !newError && !needsRecompile
      modifies this`status, this`lastLog, this`newError, this`needsRecompile, this`lastCompileTime,
        this`compressedResultSize, this`fileTimes, this`isAnyFileModified, world`fs, world`started
      ensures Unfinished()
      ensures |world.started| > |old(world.started)| && world.started[|old(world.started)|] ==
        Invocation(ExecCommandLine(old(world.fs), world.appDir, SassCommand(scss, css)), fileDir)
      ensures failure.None? && !needsRecompile && status != Failed && !keepIntermediary && !keepUnminified ==>
        Combine(fileDir, css) !in world.fs && Combine(fileDir, css + ".map") !in world.fs
      ensures ScssFinished(scss, css, min, !keepIntermediary && !keepUnminified, old(world.fs), old(world.started),
        old(lastCompileTime), failure, world)
    {
      ghost var before := world.fs;
      BeginOutputs(min, world.fs, false);
      ExecAsync(SassCommand(scss, css), fileDir, world);
      ghost var sassRun := world.script.runs[|old(world.started)|];
      assert world.fs == sassRun.after && |world.started| == |old(world.started)| + 1;
      assert lastLog == ExecLog("", ExecCommandLine(before, world.appDir, SassCommand(scss, css)), sassRun);
      assert lastCompileTime == old(lastCompileTime) && !isAnyFileModified;
      failure := FinishScss(css, min, !keepIntermediary && !keepUnminified, world, before);
    }

    /** An SCSS compilation after the compiler: unless a new compilation was
        requested or the compiler failed, the minifier runs on the
        intermediate CSS and the outputs are checked, the intermediate CSS
        being removed when asked to. */
    method FinishScss(css: string, min: string, remove: bool, world: World, ghost before: FileSystem)
      returns (failure: Option<Failure>)
      requires Unfinished() && fileTimes == Recorded(before, fileDir, min)
      modifies this`status, this`lastLog, this`newError, this`needsRecompile, this`lastCompileTime,
        this`compressedResultSize, this`isAnyFileModified, world`fs, world`started
      ensures Unfinished()
      ensures old(world.started) <= world.started
      ensures failure.None? && !needsRecompile && status != Failed && remove ==>
        Combine(fileDir, css) !in world.fs && Combine(fileDir, css + ".map") !in world.fs
      ensures var run := world.script.runs[|old(world.started)|];
        var cmd := ExecCommandLine(old(world.fs), world.appDir, CssoCommand(css, min));
        failure.None? && !needsRecompile && status != Failed ==>
          world.started == old(world.started) + [Invocation(cmd, fileDir)] &&
          FinishedFrom(ExecLog(old(lastLog), cmd, run), if remove then "" else css, min, before,
            MappedFs(world.patterns, world.now, run.after, Combine(fileDir, min + ".map")), world.fs,
            world.now, world.patterns, old(lastCompileTime), old(isAnyFileModified))
    {
      if needsRecompile {
        return None;
      }
      failure := None;
      if status != Failed {
        failure := MinifyCss(css, min, world);
        if failure.Some? {
          return;
        }
      }
      if needsRecompile {
        return None;
      }
      if status != Failed {
        FinishOutputs(css, min, remove, world, before);
      }
    }

    /** Compiles an SCSS file: the compiler writes the intermediate CSS,
        which is then minified with a source map.  Unless forced, outputs
        that are up to date are left alone and no tool runs; otherwise the
        SCSS compiler runs first.  On success the intermediate CSS is
        removed unless a keep option is set. */
    method CompileScss(force: bool, keepIntermediary: bool, keepUnminified: bool, world: World)
      returns (failure: Option<Failure>)
      requires Named() && status == Pending && !newError && !needsRecompile && fullFileName in world.fs
      modifies this`status, this`lastLog, this`newError, this`needsRecompile, this`lastCompileTime,
        this`compressedResultSize, this`fileTimes, this`isAnyFileModified, world`fs, world`started
      ensures Unfinished()
      ensures var buildDir := FirstBuildDir(old(world.fs)[fullFileName].lines, HeaderCount(old(world.fs)[fullFileName].lines), world.patterns.buildDir, false);
        var css := OutputName(buildDir, GetFileNameWithoutExtension(fullFileName) + ".css");
        var min := OutputName(buildDir, GetFileNameWithoutExtension(fullFileName) + ".min.css");
        if !force && UpToDate(old(world.fs), old(SourcePaths()), old(fileDir), [min, min + ".map"]) then
          failure.None? && world.fs == old(world.fs) && world.started == old(world.started)
        else
          |world.started| > |old(world.started)| &&
          world.started[|old(world.started)|] ==
            Invocation(ExecCommandLine(old(world.fs), world.appDir, SassCommand(GetFileName(fullFileName), css)), fileDir) &&
          (failure.None? && !needsRecompile && status != Failed && !keepIntermediary && !keepUnminified ==>
            Combine(fileDir, css) !in world.fs && Combine(fileDir, css + ".map") !in world.fs)
      ensures var buildDir := FirstBuildDir(old(world.fs)[fullFileName].lines, HeaderCount(old(world.fs)[fullFileName].lines), world.patterns.buildDir, false);
        var css := OutputName(buildDir, GetFileNameWithoutExtension(fullFileName) + ".css");
        var min := OutputName(buildDir, GetFileNameWithoutExtension(fullFileName) + ".min.css");
        var time0 := if !force && old(lastCompileTime) == 0 then LatestTime(old(world.fs), fileDir, [min, min + ".map"], 2) else old(lastCompileTime);
        !(!force && UpToDate(old(world.fs), old(SourcePaths()), old(fileDir), [min, min + ".map"])) ==>
          ScssFinished(GetFileName(fullFileName), css, min, !keepIntermediary && !keepUnminified, old(world.fs),
            old(world.started), time0, failure, world)
    {
      var scssFileName := GetFileName(fullFileName);
      var buildDir := ScanBuildDir(world.fs[fullFileName].lines, world.patterns.buildDir);
      var cssFileName := OutputName(buildDir, GetFileNameWithoutExtension(fullFileName) + ".css");
      var minCssFileName := OutputName(buildDir, GetFileNameWithoutExtension(fullFileName) + ".min.css");
      var skip := SkipIfUpToDate(force, minCssFileName, world);
      if skip {
        return None;
      }
      assert world.fs == old(world.fs) && world.started == old(world.started);
      assert lastCompileTime == if !force && old(lastCompileTime) == 0
        then LatestTime(old(world.fs), fileDir, [minCssFileName, minCssFileName + ".map"], 2) else old(lastCompileTime);
      failure := RunScss(scssFileName, cssFileName, minCssFileName, keepIntermediary, keepUnminified, world);
    }

    /** The compilation of the file.  A call while a compilation runs only
        asks for another one, to follow when the running one ends. */
    method Compile(force: bool, keepIntermediary: bool, keepUnminified: bool, world: World)
      requires Valid()
      modifies this`status, this`lastLog, this`newError, this`needsRecompile, this`lastCompileTime,
        this`compressedResultSize, this`fileTimes, this`isAnyFileModified, this`isCompiling,
        this`fullFileName, this`fileDir, this`additionalSourceFiles, this`compileScheduled,
        world`fs, world`started
      ensures Valid()
      ensures old(isCompiling) ==>
        isCompiling && needsRecompile && status == old(status) &&
        lastLog == old(lastLog) && additionalSourceFiles == old(additionalSourceFiles) &&
        world.fs == old(world.fs) && world.started == old(world.started)
      ensures old(isCompiling) ==>
        newError == old(newError) && fileTimes == old(fileTimes) && isAnyFileModified == old(isAnyFileModified) &&
        lastCompileTime == old(lastCompileTime) && compressedResultSize == old(compressedResultSize) &&
        fullFileName == old(fullFileName) && fileDir == old(fileDir) && compileScheduled == old(compileScheduled)
      ensures !old(isCompiling) ==>
        !isCompiling && (status == Pending ==> compileScheduled) &&
        (status != Pending ==> (status == Failed <==> newError))
      ensures var full := Combine(projectPath, filePath);
        !old(isCompiling) && (full !in old(world.fs) || LanguageOf(full).None?) ==>
          status == Failed && world.fs == old(world.fs) && world.started == old(world.started)
      ensures var full := Combine(projectPath, filePath);
        !old(isCompiling) && full in old(world.fs) && LanguageOf(full).Some? ==>
          forall g :: g in additionalSourceFiles <==> Reachable(Adds(old(world.fs), LanguageOf(full).value, world.patterns), full, g)
    {
      if isCompiling {
        needsRecompile := true;
        return;
      }
      RunCompile(force, keepIntermediary, keepUnminified, world);
    }

    /** A compilation that is not already running.  A missing file or an
        unsupported file type is a failure and starts no tool; a supported
        file first has its imports collected afresh, then is compiled by the
        tools of its language.  In the end either a compilation requested
        meanwhile has been scheduled, or the file has its outcome: failed
        exactly when there was a new error. */
    method RunCompile(force: bool, keepIntermediary: bool, keepUnminified: bool, world: World)
      requires !isCompiling && !needsRecompile
      modifies this`status, this`lastLog, this`newError, this`needsRecompile, this`lastCompileTime,
        this`compressedResultSize, this`fileTimes, this`isAnyFileModified, this`isCompiling,
        this`fullFileName, this`fileDir, this`additionalSourceFiles, this`compileScheduled,
        world`fs, world`started
      ensures !isCompiling && !needsRecompile
      ensures status == Pending ==> compileScheduled
      ensures status != Pending ==> (status == Failed <==> newError)
      ensures var full := Combine(projectPath, filePath);
        (full !in old(world.fs) || LanguageOf(full).None?) ==>
          status == Failed && world.fs == old(world.fs) && world.started == old(world.started)
      ensures var full := Combine(projectPath, filePath);
        full in old(world.fs) && LanguageOf(full).Some? ==>
          forall g :: g in additionalSourceFiles <==> Reachable(Adds(old(world.fs), LanguageOf(full).value, world.patterns), full, g)
    {
      BeginCompile();
      CompileSource(force, keepIntermediary, keepUnminified, world);
      EndCompile(force, world);
    }

    /** The start of a compilation: pending, running, no new error, and the
        full name and directory of the file set. */
    method BeginCompile()
      modifies this`status, this`isCompiling, this`newError, this`fullFileName, this`fileDir
      ensures status == Pending && isCompiling && !newError && Named()
    {
      status := Pending;
      isCompiling := true;
      newError := false;
      fullFileName := Combine(projectPath, filePath);
      fileDir := GetDirectoryName(fullFileName);
    }

    /** The part of a compilation that handles the file itself: the checks
        for a missing file and an unsupported type, then the collection of
        the imports and the language's tools. */
    method CompileSource(force: bool, keepIntermediary: bool, keepUnminified: bool, world: World)
      requires Named() && status == Pending && !newError && !needsRecompile
      modifies this`status, this`lastLog, this`newError, this`needsRecompile, this`lastCompileTime,
        this`compressedResultSize, this`fileTimes, this`isAnyFileModified, this`additionalSourceFiles,
        world`fs, world`started
      ensures Unfinished()
      ensures old(fullFileName) !in old(world.fs) ==>
        status == Failed && !needsRecompile &&
        lastLog == AppendMessage(old(lastLog), "Project source file not found: " + old(fullFileName)) &&
        world.fs == old(world.fs) && world.started == old(world.started)
      ensures old(fullFileName) in old(world.fs) && LanguageOf(old(fullFileName)).None? ==>
        status == Failed && !needsRecompile &&
        lastLog == AppendMessage(old(lastLog), "Unsupported file type: " + old(fullFileName)) &&
        world.fs == old(world.fs) && world.started == old(world.started)
      ensures old(fullFileName) in old(world.fs) && LanguageOf(old(fullFileName)).Some? ==>
        forall g :: g in additionalSourceFiles <==>
          Reachable(Adds(old(world.fs), LanguageOf(old(fullFileName)).value, world.patterns), old(fullFileName), g)
    {
      if fullFileName !in world.fs {
        newError := true;
        status := Failed;
        lastLog := AppendMessage(lastLog, "Project source file not found: " + fullFileName);
        return;
      }
      var lang := LanguageOf(fullFileName);
      if lang.None? {
        newError := true;
        status := Failed;
        lastLog := AppendMessage(lastLog, "Unsupported file type: " + fullFileName);
        return;
      }
      DetectAdditionalSourceFiles(Adds(world.fs, lang.value, world.patterns), fullFileName, true, world.fs);
      CompileLanguage(lang.value, force, keepIntermediary, keepUnminified, world);
    }

    /** The tools of the file's language; an exception they end with is
        logged as a failure and marks a new error. */
    method CompileLanguage(lang: Language, force: bool, keepIntermediary: bool, keepUnminified: bool, world: World)
      requires Named() && status == Pending && !newError && !needsRecompile && fullFileName in world.fs
      modifies this`status, this`lastLog, this`newError, this`needsRecompile, this`lastCompileTime,
        this`compressedResultSize, this`fileTimes, this`isAnyFileModified, world`fs, world`started
      ensures Unfinished()
    {
      var failure;
      match lang {
        case Css => failure := CompileCss(force, world);
        case JavaScript => failure := CompileJavaScript(force, keepIntermediary, keepUnminified, world);
        case Scss => failure := CompileScss(force, keepIntermediary, keepUnminified, world);
      }
      if failure.Some? {
        newError := true;
        status := Failed;
        lastLog := AppendMessage(lastLog, "Exception while compiling\n\n" + FailureText(failure.value));
      }
    }

    /** The end of a compilation: a compilation requested meanwhile is
        scheduled; otherwise a file that has not failed has succeeded, and
        when there is no new error and an output changed or the compilation
        was forced, the project's custom script runs with the file's path,
        if the project has one. */
    method EndCompile(force: bool, world: World)
      requires isCompiling && Unfinished()
      modifies this`isCompiling, this`needsRecompile, this`status, this`compileScheduled,
        this`lastLog, this`newError, world`fs, world`started
      ensures !isCompiling && !needsRecompile
      ensures old(needsRecompile) ==>
        status == Pending && compileScheduled &&
        newError == old(newError) && lastLog == old(lastLog) &&
        world.fs == old(world.fs) && world.started == old(world.started)
      ensures !old(needsRecompile) ==> status != Pending && (status == Failed <==> newError)
      ensures var script := Combine(projectPath, ScriptFileName);
        var runs := !old(needsRecompile) && !old(newError) && (isAnyFileModified || force) && script in old(world.fs);
        var run := world.script.runs[|old(world.started)|];
        var cmd := ExecCommandLine(old(world.fs), world.appDir, ScriptCommand(filePath));
        (runs ==>
          world.started == old(world.started) + [Invocation(cmd, projectPath)] &&
          world.fs == run.after && lastLog == ExecLog(old(lastLog), cmd, run) &&
          status == (if RunFailed(run) then Failed else Succeeded) && newError == RunFailed(run)) &&
        (!runs ==>
          world.fs == old(world.fs) && world.started == old(world.started) &&
          lastLog == old(lastLog) && newError == old(newError))
    {
      isCompiling := false;
      if needsRecompile {
        needsRecompile := false;
        ScheduleCompile();
        return;
      }
      if status != Failed {
        status := Succeeded;
      }
      if !newError && (isAnyFileModified || force) {
        var script := Combine(projectPath, ScriptFileName);
        if script in world.fs {
          ExecAsync(ScriptCommand(filePath), projectPath, world);
        }
      }
    }

    /** The compile command of the view: the file is marked pending and
        compiled with force. */
    method OnCompile(keepIntermediary: bool, keepUnminified: bool, world: World)
      requires Valid()
      modifies this`status, this`lastLog, this`newError, this`needsRecompile, this`lastCompileTime,
        this`compressedResultSize, this`fileTimes, this`isAnyFileModified, this`isCompiling,
        this`fullFileName, this`fileDir, this`additionalSourceFiles, this`compileScheduled,
        world`fs, world`started
      ensures Valid()
      ensures old(isCompiling) ==>
        isCompiling && status == Pending && needsRecompile &&
        lastLog == old(lastLog) && additionalSourceFiles == old(additionalSourceFiles) &&
        world.fs == old(world.fs) && world.started == old(world.started)
      ensures old(isCompiling) ==>
        newError == old(newError) && fileTimes == old(fileTimes) && isAnyFileModified == old(isAnyFileModified) &&
        lastCompileTime == old(lastCompileTime) && compressedResultSize == old(compressedResultSize) &&
        fullFileName == old(fullFileName) && fileDir == old(fileDir) && compileScheduled == old(compileScheduled)
      ensures !old(isCompiling) ==>
        !isCompiling && (status == Pending ==> compileScheduled) &&
        (status != Pending ==> (status == Failed <==> newError))
      ensures var full := Combine(projectPath, filePath);
        !old(isCompiling) && (full !in old(world.fs) || LanguageOf(full).None?) ==>
          status == Failed && world.fs == old(world.fs) && world.started == old(world.started)
      ensures var full := Combine(projectPath, filePath);
        !old(isCompiling) && full in old(world.fs) && LanguageOf(full).Some? ==>
          forall g :: g in additionalSourceFiles <==> Reachable(Adds(old(world.fs), LanguageOf(full).value, world.patterns), full, g)
    {
      status := Pending;
      Compile(true, keepIntermediary, keepUnminified, world);
    }

    /** Collects the files the source imports, directly or indirectly;
        adds gives the files each existing source file imports, in the
        order of its lines.  Starting over (clear), the collected set is
        exactly the set of files reachable from the source; otherwise the
        set only grows, every file it gains is reachable from the source,
        and the imports of those files are in the set too. */
    method DetectAdditionalSourceFiles(adds: string -> seq<string>, fileName: string, clear: bool, fs: FileSystem)
      requires forall f :: f !in fs ==> adds(f) == []
      modifies this`additionalSourceFiles
      ensures var s0 := if clear then {} else old(additionalSourceFiles);
        s0 <= additionalSourceFiles && AddsIn(adds, fileName, additionalSourceFiles) &&
        ClosedOver(adds, s0, additionalSourceFiles) &&
        ReachedOver(adds, fileName, s0, additionalSourceFiles)
      ensures fileName !in fs ==> additionalSourceFiles == if clear then {} else old(additionalSourceFiles)
      ensures clear ==> forall g :: g in additionalSourceFiles <==> Reachable(adds, fileName, g)
      decreases if clear then |fs.Keys| + 1 else |fs.Keys - additionalSourceFiles|, if fileName in fs then 1 else 0
    {
      if clear {
        additionalSourceFiles := {};
      }
      ghost var s0 := additionalSourceFiles;
      if fileName !in fs {
        return;
      }
      var targets := adds(fileName);
      var i := 0;
      while i < |targets|
        invariant 0 <= i <= |targets|
        invariant s0 <= additionalSourceFiles
        invariant forall t :: t in targets[..i] ==> t in additionalSourceFiles
        invariant ClosedOver(adds, s0, additionalSourceFiles)
        invariant ReachedOver(adds, fileName, s0, additionalSourceFiles)
      {
        var file := targets[i];
        assert targets[..i + 1] == targets[..i] + [file];
        if file !in additionalSourceFiles {
          ghost var before := additionalSourceFiles;
          additionalSourceFiles := additionalSourceFiles + {file};
          FilesLeft(fs.Keys, s0, before, file);
          DetectAdditionalSourceFiles(adds, file, false, fs);
          CollectStep(adds, fileName, s0, before, file, additionalSourceFiles);
        }
        i := i + 1;
      }
      assert targets[..i] == targets;
      if clear {
        CollectExact(adds, fileName, additionalSourceFiles);
      }
    }
  }

  /** Adding a file that exists leaves fewer existing files to add. */
  lemma FilesLeft(keys: set<string>, s0: set<string>, before: set<string>, file: string)
    requires s0 <= before && file !in before
    ensures |keys - (before + {file})| <= |keys - s0|
    ensures file in keys ==> |keys - (before + {file})| < |keys - s0|
    ensures |keys - (before + {file})| <= |keys|
  {
    SubsetSize(keys - (before + {file}), keys - s0);
    SubsetSize(keys - (before + {file}), keys);
    if file in keys {
      SubsetSize(keys - (before + {file}), keys - s0 - {file});
    }
  }

  lemma SubsetSize(a: set<string>, b: set<string>)
    requires a <= b
    ensures |a| <= |b|
  {
    assert b == a + (b - a);
  }
}
