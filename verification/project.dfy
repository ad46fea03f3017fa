/** A project: a root directory, the files compiled in it and the project
    file "miniwebcompiler.json" that stores them.  The project keeps the
    roll-up of its files' statuses, keeps its file list ordered by path,
    schedules the files a changed file concerns, and saves its settings
    whenever they change after loading. */
module Projects {
  import opened Wrappers
  import opened Text
  import opened Paths
  import opened Statuses
  import opened Sorting
  import opened Environment
  import opened ProjectFiles

  const ProjectFileName := "miniwebcompiler.json"

  /** The first line of a project file in the old line format. */
  const V1Header := "MiniWebCompiler v1"

  /** The contents of the JSON project file. */
  datatype ConfigFile = ConfigFile(
    projectName: string,
    keepUnminifiedFiles: bool,
    keepIntermediaryFiles: bool,
    files: seq<string>)

  /** A file path as the project file stores it: with '/' separators. */
  function StoredPath(p: string): string
  {
    ReplaceChar(p, '\\', '/')
  }

  /** A stored file path as the project reads it back: '/' turned into the
      directory separator. */
  function LoadedPath(p: string): string
  {
    ReplaceChar(p, '/', Separator)
  }

  /** A stored path holds no backslash, and a path without '/' is read back
      as it was saved. */
  lemma StoredPathRoundTrip(p: string)
    ensures '\\' !in StoredPath(p)
    ensures '/' !in p ==> LoadedPath(StoredPath(p)) == p
  {
    ReplaceCharAt(p, '\\', '/');
    if '/' !in p {
      ReplaceCharRoundTrip(p, '\\', '/');
    }
  }

  function StoredPaths(ps: seq<string>): (r: seq<string>)
    ensures |r| == |ps|
  {
    if ps == [] then [] else [StoredPath(ps[0])] + StoredPaths(ps[1..])
  }

  function LoadedPaths(ps: seq<string>): (r: seq<string>)
    ensures |r| == |ps|
  {
    if ps == [] then [] else [LoadedPath(ps[0])] + LoadedPaths(ps[1..])
  }

  /** Saving a file list and loading it again gives the same list, as long
      as no path holds a '/'. */
  lemma {:induction false} StoredPathsRoundTrip(ps: seq<string>)
    requires forall i :: 0 <= i < |ps| ==> '/' !in ps[i]
    ensures LoadedPaths(StoredPaths(ps)) == ps
  {
    if ps != [] {
      StoredPathRoundTrip(ps[0]);
      StoredPathsRoundTrip(ps[1..]);
    }
  }

  function TrimmedLines(lines: seq<string>): (r: seq<string>)
    ensures |r| == |lines|
  {
    if lines == [] then [] else [Trim(lines[0])] + TrimmedLines(lines[1..])
  }

  lemma {:induction false} TrimmedLinesAt(lines: seq<string>)
    ensures forall i :: 0 <= i < |lines| ==> TrimmedLines(lines)[i] == Trim(lines[i])
  {
    if lines != [] {
      TrimmedLinesAt(lines[1..]);
    }
  }

  /** What a project file in the old line format describes, each line
      trimmed: nothing when its first line is not the header; otherwise the
      name on the second line ("" when there is none) and one file on each
      further line. */
  function V1Project(lines: seq<string>): Option<(string, seq<string>)>
  {
    if |lines| >= 1 && Trim(lines[0]) != V1Header then None
    else Some((if |lines| >= 2 then Trim(lines[1]) else "", if |lines| >= 2 then TrimmedLines(lines[2..]) else []))
  }

  /** The paths of a list of files. */
  function FilePaths(fs: seq<ProjectFile>): (r: seq<string>)
    reads fs`filePath
    ensures |r| == |fs|
  {
    if fs == [] then [] else [fs[0].filePath] + FilePaths(fs[1..])
  }

  lemma {:induction false} FilePathsAt(fs: seq<ProjectFile>)
    ensures forall i :: 0 <= i < |fs| ==> FilePaths(fs)[i] == fs[i].filePath
  {
    if fs != [] {
      FilePathsAt(fs[1..]);
    }
  }

  lemma {:induction false} FilePathsAppend(fs: seq<ProjectFile>, gs: seq<ProjectFile>)
    ensures FilePaths(fs + gs) == FilePaths(fs) + FilePaths(gs)
  {
    if fs == [] {
      assert fs + gs == gs;
    } else {
      assert (fs + gs)[1..] == fs[1..] + gs;
      FilePathsAppend(fs[1..], gs);
    }
  }

  /** Taking one item out of a list takes it out of its multiset. */
  lemma RemoveAt<T>(s: seq<T>, j: nat)
    requires j < |s|
    ensures s == s[..j] + [s[j]] + s[j + 1..]
    ensures multiset(s[..j] + s[j + 1..]) == multiset(s) - multiset{s[j]}
  {
    assert s == s[..j] + [s[j]] + s[j + 1..];
  }

  /** The first item of a list, found in a reordering of it: the rest of
      both lists are again reorderings of each other. */
  lemma MatchFirst<T>(fs: seq<T>, gs: seq<T>) returns (j: nat)
    requires fs != [] && multiset(fs) == multiset(gs)
    ensures j < |gs| && gs[j] == fs[0]
    ensures multiset(fs[1..]) == multiset(gs[..j] + gs[j + 1..])
  {
    assert fs[0] in multiset(gs);
    j :| 0 <= j < |gs| && gs[j] == fs[0];
    RemoveAt(gs, j);
    RemoveAt(fs, 0);
    assert fs[..0] + fs[1..] == fs[1..];
  }

  /** The paths of a list split around one file. */
  lemma FilePathsSplit(gs: seq<ProjectFile>, j: nat)
    requires j < |gs|
    ensures FilePaths(gs) == FilePaths(gs[..j]) + [gs[j].filePath] + FilePaths(gs[j + 1..])
    ensures FilePaths(gs[..j] + gs[j + 1..]) == FilePaths(gs[..j]) + FilePaths(gs[j + 1..])
  {
    var before, file, after := gs[..j], gs[j], gs[j + 1..];
    RemoveAt(gs, j);
    assert FilePaths([file]) == [file.filePath];
    calc {
      FilePaths(gs);
      FilePaths(before + [file] + after);
      { FilePathsAppend(before + [file], after); }
      FilePaths(before + [file]) + FilePaths(after);
      { FilePathsAppend(before, [file]); }
      FilePaths(before) + [file.filePath] + FilePaths(after);
    }
    FilePathsAppend(before, after);
  }

  /** The same files in another order have the same paths. */
  lemma {:induction false} FilePathsOfSameFiles(fs: seq<ProjectFile>, gs: seq<ProjectFile>)
    requires multiset(fs) == multiset(gs)
    ensures multiset(FilePaths(fs)) == multiset(FilePaths(gs))
  {
    if fs != [] {
      var j := MatchFirst(fs, gs);
      var rest := gs[..j] + gs[j + 1..];
      FilePathsSplit(gs, j);
      calc {
        multiset(FilePaths(fs));
        multiset([fs[0].filePath] + FilePaths(fs[1..]));
        multiset{fs[0].filePath} + multiset(FilePaths(fs[1..]));
        { FilePathsOfSameFiles(fs[1..], rest); }
        multiset{gs[j].filePath} + multiset(FilePaths(rest));
        multiset{gs[j].filePath} + multiset(FilePaths(gs[..j]) + FilePaths(gs[j + 1..]));
        multiset(FilePaths(gs[..j]) + [gs[j].filePath] + FilePaths(gs[j + 1..]));
        multiset(FilePaths(gs));
      }
    }
  }

  /** The statuses of a list of files, in order.  MainViewModels has the
      same function over projects; without a common trait for the two
      classes the statuses of each are read by a function of their own. */
  function FileStatuses(fs: seq<ProjectFile>): (r: seq<Status>)
    reads fs`status
    ensures |r| == |fs|
  {
    if fs == [] then [] else [fs[0].status] + FileStatuses(fs[1..])
  }

  lemma {:induction false} FileStatusesAt(fs: seq<ProjectFile>)
    ensures forall i :: 0 <= i < |fs| ==> FileStatuses(fs)[i] == fs[i].status
  {
    if fs != [] {
      FileStatusesAt(fs[1..]);
    }
  }

  /** Each file paired with its sort key, the lower-cased path. */
  function KeyedByPath(fs: seq<ProjectFile>): (r: seq<(string, ProjectFile)>)
    reads fs`filePath
    ensures |r| == |fs|
  {
    if fs == [] then [] else [(ToLower(fs[0].filePath), fs[0])] + KeyedByPath(fs[1..])
  }

  lemma {:induction false} KeyedByPathAt(fs: seq<ProjectFile>)
    ensures forall i :: 0 <= i < |fs| ==> KeyedByPath(fs)[i] == (ToLower(fs[i].filePath), fs[i])
    ensures Values(KeyedByPath(fs)) == fs
  {
    if fs != [] {
      KeyedByPathAt(fs[1..]);
    }
  }

  /** Every file's compile state is consistent and none is being compiled. */
  predicate Idle(fs: seq<ProjectFile>)
    reads fs
  {
    forall i :: 0 <= i < |fs| ==> fs[i].Valid() && !fs[i].isCompiling
  }

  /** Being idle depends on which files there are, not on their order. */
  lemma IdleOfSameFiles(fs: seq<ProjectFile>, gs: seq<ProjectFile>)
    requires multiset(fs) == multiset(gs) && Idle(fs)
    ensures Idle(gs)
  {
    forall j | 0 <= j < |gs| ensures gs[j].Valid() && !gs[j].isCompiling {
      assert gs[j] in multiset(fs);
    }
  }

  /** Files ordered by lower-cased path: each file's key is at most the
      next one's. */
  predicate OrderedByPath(fs: seq<ProjectFile>)
    reads fs`filePath
  {
    |fs| <= 1 || (LexLe(ToLower(fs[0].filePath), ToLower(fs[1].filePath)) && OrderedByPath(fs[1..]))
  }

  /** Ordered neighbours are the same as ordered pairs. */
  lemma {:induction false} OrderedByPathPairs(fs: seq<ProjectFile>)
    ensures OrderedByPath(fs) <==>
      forall i, j :: 0 <= i < j < |fs| ==> LexLe(ToLower(fs[i].filePath), ToLower(fs[j].filePath))
  {
    if |fs| > 1 {
      OrderedByPathPairs(fs[1..]);
      if OrderedByPath(fs) {
        forall i, j | 0 <= i < j < |fs| ensures LexLe(ToLower(fs[i].filePath), ToLower(fs[j].filePath)) {
          if i == 0 && j > 1 {
            assert fs[1..][0] == fs[1] && fs[1..][j - 1] == fs[j];
            LexLeTransitive(ToLower(fs[0].filePath), ToLower(fs[1].filePath), ToLower(fs[j].filePath));
          } else if i > 0 {
            assert fs[1..][i - 1] == fs[i] && fs[1..][j - 1] == fs[j];
          }
        }
      }
    }
  }

  /** The files sorted by lower-cased path are the same files, each as often
      as before, in path order; files with the same key keep their order. */
  lemma SortedByPath(fs: seq<ProjectFile>)
    ensures var r := Values(SortByKey(KeyedByPath(fs)));
      multiset(r) == multiset(fs) && OrderedByPath(r)
    ensures forall k :: WithKey(SortByKey(KeyedByPath(fs)), k) == WithKey(KeyedByPath(fs), k)
  {
    var keyed := KeyedByPath(fs);
    var sorted := SortByKey(keyed);
    var r := Values(sorted);
    KeyedByPathAt(fs);
    SortByKeyPermutesValues(keyed);
    SortByKeySorted(keyed);
    SortedKeysArePaths(fs);
    ValuesAt(sorted);
    forall i, j | 0 <= i < j < |r| ensures LexLe(ToLower(r[i].filePath), ToLower(r[j].filePath)) {
      assert LexLe(sorted[i].0, sorted[j].0);
    }
    OrderedByPathPairs(r);
    forall k ensures WithKey(sorted, k) == WithKey(keyed, k) {
      SortByKeyStable(keyed, k);
    }
  }

  /** After sorting, each key is still the lower-cased path of its file. */
  lemma SortedKeysArePaths(fs: seq<ProjectFile>)
    ensures var sorted := SortByKey(KeyedByPath(fs));
      forall i :: 0 <= i < |sorted| ==> sorted[i].0 == ToLower(sorted[i].1.filePath)
  {
    var keyed := KeyedByPath(fs);
    var sorted := SortByKey(keyed);
    KeyedByPathAt(fs);
    SortByKeyPermutes(keyed);
    forall i | 0 <= i < |sorted| ensures sorted[i].0 == ToLower(sorted[i].1.filePath) {
      assert sorted[i] in multiset(keyed);
      var a :| 0 <= a < |keyed| && keyed[a] == sorted[i];
    }
  }

  class Project {
    const projectPath: string
    /** Whether new files take their compressed size as the baseline. */
    const hasBaseline: bool
    var name: string
    var keepIntermediaryFiles: bool
    var keepUnminifiedFiles: bool
    var files: seq<ProjectFile>
    var selectedFile: Option<ProjectFile>
    /** The roll-up of the files' statuses. */
    var status: Status
    /** Whether loading has finished, after which changes are saved. */
    var isLoaded: bool
    /** The configurations written to the project file, in order. */
    var savedConfigs: seq<ConfigFile>

    /** The path of the project file in the project's directory. */
    function ProjectFilePath(): string
    {
      Combine(projectPath, ProjectFileName)
    }

    /** The status is the roll-up of the files' statuses, and a failed
        project has its first failed file selected: what the status events
        keep true. */
    predicate StatusCurrent()
      reads this`status, this`selectedFile, this`files, files`status
    {
      status == Rollup(FileStatuses(files)) &&
      (status == Failed ==>
        FirstFailed(FileStatuses(files)).Some? &&
        selectedFile == Some(files[FirstFailed(FileStatuses(files)).value]))
    }

    /** Every file's compile state is consistent. */
    predicate FilesValid()
      reads this`files, files
    {
      forall i :: 0 <= i < |files| ==> files[i].Valid()
    }

    /** No file is being compiled. */
    predicate FilesIdle()
      reads this`files, files
    {
      Idle(files)
    }

    /** The configuration the project saves: its name, its options and the
        paths of its files with '/' separators. */
    function Config(): ConfigFile
      reads this, files
    {
      ConfigFile(name, keepUnminifiedFiles, keepIntermediaryFiles, StoredPaths(FilePaths(files)))
    }

    /** Loads the project file and compiles every file once, unforced.  The
        name is the directory's name unless the project file gives one. */
    constructor (projectPath: string, hasBaseline: bool, keepUnminifiedDefault: bool,
      world: World, parsed: Option<ConfigFile>)
      modifies world`fs, world`started
      ensures this.projectPath == projectPath && this.hasBaseline == hasBaseline
      ensures isLoaded && StatusCurrent()
      ensures selectedFile.Some? ==> selectedFile.value in files
      ensures FilesIdle()
      ensures ProjectFilePath() !in old(world.fs) ==> name == GetFileName(projectPath) && files == []
    {
      this.projectPath := projectPath;
      this.hasBaseline := hasBaseline;
      name := GetFileName(projectPath);
      keepIntermediaryFiles := false;
      keepUnminifiedFiles := false;
      files := [];
      selectedFile := None;
      status := Succeeded;
      isLoaded := false;
      savedConfigs := [];
      new;
      LoadFromFile(world.fs, keepUnminifiedDefault, parsed);
      isLoaded := true;
      InitializeAsync(world);
      if |files| == 0 {
        assert FileStatuses(files) == [];
      }
    }

    /** Compiles each file in turn, unforced; afterwards no file is being
        compiled, and a file still pending has a compilation scheduled.  Each
        compilation ends with the status update its status change causes. */
    method InitializeAsync(world: World)
      requires FilesIdle()
      modifies this`status, this`selectedFile, files, world`fs, world`started
      ensures FilesIdle()
      ensures forall i :: 0 <= i < |files| ==> files[i].status == Pending ==> files[i].compileScheduled
      ensures |files| > 0 ==> StatusCurrent()
      ensures |files| == 0 ==> status == old(status)
      ensures selectedFile != old(selectedFile) ==> selectedFile.Some? && selectedFile.value in files
    {
      var i := 0;
      while i < |files|
        invariant 0 <= i <= |files|
        invariant FilesIdle()
        invariant forall k :: 0 <= k < i ==> files[k].status == Pending ==> files[k].compileScheduled
        invariant i > 0 ==> StatusCurrent()
        invariant i == 0 ==> status == old(status)
        invariant selectedFile != old(selectedFile) ==> selectedFile.Some? && selectedFile.value in files
      {
        CompileFile(files[i], world);
        i := i + 1;
      }
    }

    /** Compiles one file of the project, unforced, followed by the status
        update that the file's status change causes. */
    method CompileFile(file: ProjectFile, world: World)
      requires file in files && file.Valid() && !file.isCompiling
      modifies this`status, this`selectedFile, file, world`fs, world`started
      ensures file.Valid() && !file.isCompiling && file.filePath == old(file.filePath)
      ensures file.status == Pending ==> file.compileScheduled
      ensures StatusCurrent()
      ensures status != Failed ==> selectedFile == old(selectedFile)
      ensures selectedFile != old(selectedFile) ==> selectedFile.Some? && selectedFile.value in files
    {
      file.Compile(false, keepIntermediaryFiles, keepUnminifiedFiles, world);
      UpdateStatus();
    }

    /** Adds a file of the project, not yet compiled. */
    method AddLoadedFile(path: string)
      modifies this`files
      ensures |files| == |old(files)| + 1 && files[..|old(files)|] == old(files)
      ensures fresh(files[|old(files)|]) && files[|old(files)|].filePath == path
      ensures files[|old(files)|].Valid() && !files[|old(files)|].isCompiling
    {
      var file := new ProjectFile(projectPath, path, hasBaseline);
      files := files + [file];
    }

    /** Reads a project file in the old line format, line by line: the
        header, the name, then one file per line.  A wrong header ends the
        reading with no name and no files. */
    method ReadV1(lines: seq<string>) returns (ok: bool)
      requires name == "" && files == []
      modifies this`name, this`files
      ensures ok <==> V1Project(lines).Some?
      ensures ok ==> name == V1Project(lines).value.0 && FilePaths(files) == V1Project(lines).value.1
      ensures !ok ==> name == "" && files == []
      ensures FilesIdle() && forall i :: 0 <= i < |files| ==> fresh(files[i])
    {
      var index := 0;
      while index < |lines|
        invariant 0 <= index <= |lines|
        invariant index >= 1 ==> Trim(lines[0]) == V1Header
        invariant name == if index >= 2 then Trim(lines[1]) else ""
        invariant |files| == if index >= 2 then index - 2 else 0
        invariant forall k :: 0 <= k < |files| ==> files[k].filePath == Trim(lines[k + 2])
        invariant FilesIdle() && forall k :: 0 <= k < |files| ==> fresh(files[k])
      {
        var line := Trim(lines[index]);
        index := index + 1;
        if index == 1 {
          if line != V1Header {
            return false;
          }
        } else if index == 2 {
          name := line;
        } else {
          AddLoadedFile(line);
        }
      }
      FilePathsAt(files);
      if |lines| >= 2 {
        TrimmedLinesAt(lines[2..]);
      }
      return true;
    }

    /** Takes over a parsed JSON project file: its name, its options and its
        files, with '/' in their paths turned into the separator. */
    method ReadConfig(c: ConfigFile)
      requires files == []
      modifies this`name, this`keepUnminifiedFiles, this`keepIntermediaryFiles, this`files
      ensures name == c.projectName
      ensures keepUnminifiedFiles == c.keepUnminifiedFiles && keepIntermediaryFiles == c.keepIntermediaryFiles
      ensures FilePaths(files) == LoadedPaths(c.files)
      ensures FilesIdle() && forall i :: 0 <= i < |files| ==> fresh(files[i])
    {
      name := c.projectName;
      keepUnminifiedFiles := c.keepUnminifiedFiles;
      keepIntermediaryFiles := c.keepIntermediaryFiles;
      var i := 0;
      while i < |c.files|
        invariant 0 <= i <= |c.files|
        invariant name == c.projectName
        invariant keepUnminifiedFiles == c.keepUnminifiedFiles && keepIntermediaryFiles == c.keepIntermediaryFiles
        invariant |files| == i
        invariant forall k :: 0 <= k < i ==> fresh(files[k])
        invariant forall k :: 0 <= k < i ==> files[k].filePath == LoadedPath(c.files[k])
        invariant FilesIdle()
      {
        AddLoadedFile(LoadedPath(c.files[i]));
        i := i + 1;
      }
      FilePathsAt(files);
      LoadedPathsAt(c.files);
    }

    /** Loads the project file when there is one.  The option to keep
        unminified files starts from the application's default.  A file
        starting with the old header is read line by line and saved again in
        the JSON format; any other file is read as JSON, given here as the
        parser's result (None when parsing fails, which leaves the project
        without a name and files). */
    method LoadFromFile(fs: FileSystem, keepUnminifiedDefault: bool, parsed: Option<ConfigFile>)
      requires FilesIdle()
      modifies this`name, this`keepUnminifiedFiles, this`keepIntermediaryFiles, this`files, this`savedConfigs
      ensures FilesIdle() && forall i :: 0 <= i < |files| ==> files[i] in old(files) || fresh(files[i])
      ensures ProjectFilePath() !in fs ==>
        name == old(name) && files == old(files) && savedConfigs == old(savedConfigs) &&
        keepUnminifiedFiles == keepUnminifiedDefault && keepIntermediaryFiles == old(keepIntermediaryFiles)
      ensures ProjectFilePath() in fs && IsV1(fs[ProjectFilePath()].lines) ==>
        keepUnminifiedFiles == keepUnminifiedDefault && keepIntermediaryFiles == old(keepIntermediaryFiles)
      ensures ProjectFilePath() in fs && IsV1(fs[ProjectFilePath()].lines) && V1Project(fs[ProjectFilePath()].lines).None? ==>
        name == "" && files == [] && savedConfigs == old(savedConfigs)
      ensures ProjectFilePath() in fs && IsV1(fs[ProjectFilePath()].lines) && V1Project(fs[ProjectFilePath()].lines).Some? ==>
        name == V1Project(fs[ProjectFilePath()].lines).value.0 &&
        FilePaths(files) == V1Project(fs[ProjectFilePath()].lines).value.1 &&
        savedConfigs == old(savedConfigs) + [Config()]
      ensures ProjectFilePath() in fs && !IsV1(fs[ProjectFilePath()].lines) && parsed.None? ==>
        name == "" && files == [] && savedConfigs == old(savedConfigs) &&
        keepUnminifiedFiles == keepUnminifiedDefault && keepIntermediaryFiles == old(keepIntermediaryFiles)
      ensures ProjectFilePath() in fs && !IsV1(fs[ProjectFilePath()].lines) && parsed.Some? ==>
        name == parsed.value.projectName && FilePaths(files) == LoadedPaths(parsed.value.files) &&
        savedConfigs == old(savedConfigs) &&
        keepUnminifiedFiles == parsed.value.keepUnminifiedFiles &&
        keepIntermediaryFiles == parsed.value.keepIntermediaryFiles
    {
      var path := ProjectFilePath();
      keepUnminifiedFiles := keepUnminifiedDefault;
      if path !in fs {
        return;
      }
      name := "";
      files := [];
      var lines := fs[path].lines;
      if IsV1(lines) {
        var ok := ReadV1(lines);
        if ok {
          SaveToFile();
        }
      } else if parsed.Some? {
        ReadConfig(parsed.value);
      }
    }

    /** Writes the project's configuration to the project file. */
    method SaveToFile()
      modifies this`savedConfigs
      ensures savedConfigs == old(savedConfigs) + [Config()]
    {
      savedConfigs := savedConfigs + [Config()];
    }

    /** Renames the project; a change made after loading is saved. */
    method SetName(n: string)
      modifies this`name, this`savedConfigs
      ensures name == n
      ensures savedConfigs == old(savedConfigs) + if isLoaded && n != old(name) then [Config()] else []
    {
      if n == name {
        return;
      }
      name := n;
      if isLoaded {
        SaveToFile();
      }
    }

    /** Sets the option to keep intermediate files; a change made after
        loading is saved. */
    method SetKeepIntermediaryFiles(b: bool)
      modifies this`keepIntermediaryFiles, this`savedConfigs
      ensures keepIntermediaryFiles == b
      ensures savedConfigs == old(savedConfigs) + if isLoaded && b != old(keepIntermediaryFiles) then [Config()] else []
    {
      if b == keepIntermediaryFiles {
        return;
      }
      keepIntermediaryFiles := b;
      if isLoaded {
        SaveToFile();
      }
    }

    /** Sets the option to keep unminified files; a change made after
        loading is saved. */
    method SetKeepUnminifiedFiles(b: bool)
      modifies this`keepUnminifiedFiles, this`savedConfigs
      ensures keepUnminifiedFiles == b
      ensures savedConfigs == old(savedConfigs) + if isLoaded && b != old(keepUnminifiedFiles) then [Config()] else []
    {
      if b == keepUnminifiedFiles {
        return;
      }
      keepUnminifiedFiles := b;
      if isLoaded {
        SaveToFile();
      }
    }

    /** A changed file schedules the compilation of exactly the files it
        concerns; nothing else about the files changes.  A file that turns
        pending makes the project pending, and a project whose status was
        current stays current. */
    method WatcherChanged(fullPath: string)
      modifies files`status, files`compileScheduled, this`status, this`selectedFile
      ensures forall f :: f in files ==>
        if f.Concerns(fullPath) then f.status == Pending && f.compileScheduled
        else f.status == old(f.status) && f.compileScheduled == old(f.compileScheduled)
      ensures status ==
        if exists f :: f in files && f.Concerns(fullPath) && old(f.status) != Pending then Pending else old(status)
      ensures selectedFile == old(selectedFile)
      ensures old(StatusCurrent()) ==> StatusCurrent()
    {
      ghost var before := FileStatuses(files);
      FileStatusesAt(files);
      ScheduleConcerned(fullPath);
      FileStatusesAt(files);
      if exists f :: f in files && f.Concerns(fullPath) && old(f.status) != Pending {
        var f :| f in files && f.Concerns(fullPath) && old(f.status) != Pending;
        var k :| 0 <= k < |files| && files[k] == f;
        assert FileStatuses(files)[k] == Pending;
      } else {
        assert FileStatuses(files) == before;
      }
    }

    /** The loop over the files that schedules each one the changed file
        concerns. */
    method ScheduleConcerned(fullPath: string)
      modifies files`status, files`compileScheduled, this`status, this`selectedFile
      ensures forall f :: f in files ==>
        if f.Concerns(fullPath) then f.status == Pending && f.compileScheduled
        else f.status == old(f.status) && f.compileScheduled == old(f.compileScheduled)
      ensures status ==
        if exists f :: f in files && f.Concerns(fullPath) && old(f.status) != Pending then Pending else old(status)
      ensures selectedFile == old(selectedFile)
    {
      ghost var turned := false;
      var i := 0;
      while i < |files|
        invariant 0 <= i <= |files|
        invariant forall f :: f in files ==>
          if f.Concerns(fullPath) && f in files[..i] then f.status == Pending && f.compileScheduled
          else f.status == old(f.status) && f.compileScheduled == old(f.compileScheduled)
        invariant turned <==> exists j :: 0 <= j < i && files[j].Concerns(fullPath) && old(files[j].status) != Pending
        invariant status == if turned then Pending else old(status)
        invariant selectedFile == old(selectedFile)
      {
        var file := files[i];
        var now := ScheduleIfConcerned(file, fullPath);
        turned := turned || now;
        assert files[..i + 1] == files[..i] + [file];
        i := i + 1;
      }
      assert files[..i] == files;
    }

    /** Schedules one file when the changed file concerns it, telling
        whether it turned pending. */
    method ScheduleIfConcerned(file: ProjectFile, fullPath: string) returns (turned: bool)
      requires file in files
      modifies file`status, file`compileScheduled, this`status, this`selectedFile
      ensures turned <==> file.Concerns(fullPath) && old(file.status) != Pending
      ensures file.Concerns(fullPath) ==> file.status == Pending && file.compileScheduled
      ensures !file.Concerns(fullPath) ==>
        file.status == old(file.status) && file.compileScheduled == old(file.compileScheduled)
      ensures status == if turned then Pending else old(status)
      ensures selectedFile == old(selectedFile)
    {
      var matches := file.MatchesFile(fullPath);
      turned := matches && file.status != Pending;
      if matches {
        ScheduleFile(file);
      }
    }

    /** Schedules one file; the project is told when the file's status
        changes, and so turns pending. */
    method ScheduleFile(file: ProjectFile)
      requires file in files
      modifies file`status, file`compileScheduled, this`status, this`selectedFile
      ensures file.status == Pending && file.compileScheduled
      ensures status == if old(file.status) != Pending then Pending else old(status)
      ensures selectedFile == old(selectedFile)
    {
      var was := file.status;
      file.ScheduleCompile();
      if was != Pending {
        UpdateStatus();
        FileStatusesAt(files);
        var k :| 0 <= k < |files| && files[k] == file;
        assert FileStatuses(files)[k] == Pending;
      }
    }

    /** The project's status: pending while any file is, otherwise failed
        when any file failed, with the first failed file selected, otherwise
        succeeded. */
    method UpdateStatus()
      modifies this`status, this`selectedFile
      ensures status == Rollup(FileStatuses(files))
      ensures status == Failed ==> selectedFile == Some(files[FirstFailed(FileStatuses(files)).value])
      ensures status != Failed ==> selectedFile == old(selectedFile)
      ensures old(status) == status <== old(status) == Rollup(FileStatuses(files))
      ensures StatusCurrent()
    {
      var statuses := FileStatuses(files);
      if Pending in statuses {
        status := Pending;
      } else if Failed in statuses {
        status := Failed;
        FailedRollupSelects(statuses);
        selectedFile := Some(files[FirstFailed(statuses).value]);
      } else {
        status := Succeeded;
      }
    }

    /** Orders the files by lower-cased path, keeping the selection. */
    method SortFiles()
      modifies this`files, this`selectedFile
      ensures files == Values(SortByKey(old(KeyedByPath(files))))
      ensures multiset(files) == multiset(old(files)) && OrderedByPath(files)
      ensures selectedFile == old(selectedFile)
    {
      var selected := selectedFile;
      var ordered := Values(SortByKey(KeyedByPath(files)));
      SortedByPath(files);
      assert OrderedByPath(ordered);
      Refill(ordered);
      assert OrderedByPath(ordered);
      selectedFile := selected;
    }

    /** Clears the file list and adds the given files one by one. */
    method Refill(ordered: seq<ProjectFile>)
      modifies this`files
      ensures files == ordered
    {
      files := [];
      var i := 0;
      while i < |ordered|
        invariant 0 <= i <= |ordered|
        invariant files == ordered[..i]
      {
        files := files + [ordered[i]];
        i := i + 1;
      }
      assert ordered[..i] == ordered;
    }

    /** Removes the selected file when the user confirms: its first
        occurrence leaves the list, the status is updated and the project
        saved.  Without a selection or a confirmation nothing changes. */
    method RemoveFile(confirmed: bool)
      modifies this`files, this`status, this`selectedFile, this`savedConfigs
      ensures old(selectedFile).Some? && confirmed ==>
        files == RemoveFirst(old(files), old(selectedFile).value) &&
        status == Rollup(FileStatuses(files)) && savedConfigs == old(savedConfigs) + [Config()]
      ensures old(selectedFile).Some? && confirmed && status == Failed ==>
        selectedFile == Some(files[FirstFailed(FileStatuses(files)).value])
      ensures old(selectedFile).Some? && confirmed && status != Failed ==>
        selectedFile == old(selectedFile)
      ensures !(old(selectedFile).Some? && confirmed) ==>
        files == old(files) && status == old(status) && selectedFile == old(selectedFile) &&
        savedConfigs == old(savedConfigs)
    {
      if selectedFile.Some? && confirmed {
        files := RemoveFirst(files, selectedFile.value);
        UpdateStatus();
        SaveToFile();
      }
    }

    /** Runs every file's compile command in turn, each followed by the
        status update that the file's status change causes. */
    method CompileAll(world: World)
      requires FilesValid()
      modifies this`status, this`selectedFile, files, world`fs, world`started
      ensures FilesValid()
      ensures forall i :: 0 <= i < |files| ==>
        files[i].status == Pending ==> files[i].compileScheduled || files[i].needsRecompile
      ensures |files| > 0 ==> StatusCurrent()
      ensures |files| == 0 ==> status == old(status)
      ensures selectedFile != old(selectedFile) ==> selectedFile.Some? && selectedFile.value in files
    {
      var i := 0;
      while i < |files|
        invariant 0 <= i <= |files|
        invariant FilesValid()
        invariant forall k :: 0 <= k < i ==>
          files[k].status == Pending ==> files[k].compileScheduled || files[k].needsRecompile
        invariant i > 0 ==> StatusCurrent()
        invariant i == 0 ==> status == old(status)
        invariant selectedFile != old(selectedFile) ==> selectedFile.Some? && selectedFile.value in files
      {
        RunCompileCommand(files[i], world);
        i := i + 1;
      }
    }

    /** Runs one file's compile command, followed by the status update that
        the file's status change causes. */
    method RunCompileCommand(file: ProjectFile, world: World)
      requires file in files && file.Valid()
      modifies this`status, this`selectedFile, file, world`fs, world`started
      ensures file.Valid() && (file.status == Pending ==> file.compileScheduled || file.needsRecompile)
      ensures StatusCurrent()
      ensures selectedFile != old(selectedFile) ==> selectedFile.Some? && selectedFile.value in files
    {
      file.OnCompile(keepIntermediaryFiles, keepUnminifiedFiles, world);
      UpdateStatus();
    }

    /** Adds the chosen files, given relative to the project's directory:
        each is added, selected and compiled in turn; then the status is
        updated, the files sorted by path and the project saved.  The new
        files, in the order added, are returned as a ghost: the last one
        stays selected unless the project failed, in which case a failed file
        is. */
    method AddFiles(relativePaths: seq<string>, world: World) returns (ghost added: seq<ProjectFile>)
      requires FilesIdle()
      modifies this`files, this`selectedFile, this`status, this`savedConfigs, world`fs, world`started
      ensures FilePaths(added) == relativePaths && forall f :: f in added ==> fresh(f)
      ensures multiset(files) == multiset(old(files) + added) && OrderedByPath(files) && FilesIdle()
      ensures status == Rollup(FileStatuses(old(files) + added))
      ensures status == Failed ==>
        selectedFile.Some? && selectedFile.value in old(files) + added && selectedFile.value.status == Failed
      ensures status != Failed && |relativePaths| > 0 ==> selectedFile == Some(added[|added| - 1])
      ensures status != Failed && |relativePaths| == 0 ==> selectedFile == old(selectedFile)
      ensures savedConfigs == old(savedConfigs) + [Config()]
    {
      added := AddAndCompile(relativePaths, world);
      Settle();
    }

    /** The end of adding files: the status is updated, the files sorted by
        path and the project saved. */
    method Settle()
      requires FilesIdle()
      modifies this`files, this`selectedFile, this`status, this`savedConfigs
      ensures multiset(files) == multiset(old(files)) && OrderedByPath(files) && FilesIdle()
      ensures status == Rollup(FileStatuses(old(files)))
      ensures old(status) == status <== old(status) == Rollup(FileStatuses(old(files)))
      ensures status == Failed ==>
        selectedFile.Some? && selectedFile.value in old(files) && selectedFile.value.status == Failed
      ensures status != Failed ==> selectedFile == old(selectedFile)
      ensures savedConfigs == old(savedConfigs) + [Config()]
    {
      UpdateStatus();
      assert status == Failed ==> selectedFile.Some? && selectedFile.value in files && selectedFile.value.status == Failed by {
        if status == Failed {
          FileStatusesAt(files);
        }
      }
      SortAndSave();
    }

    /** Sorts the files by path and saves the project. */
    method SortAndSave()
      requires FilesIdle()
      modifies this`files, this`selectedFile, this`savedConfigs
      ensures multiset(files) == multiset(old(files)) && OrderedByPath(files) && FilesIdle()
      ensures selectedFile == old(selectedFile)
      ensures savedConfigs == old(savedConfigs) + [Config()]
    {
      var unsorted := files;
      SortFiles();
      IdleOfSameFiles(unsorted, files);
      SaveToFile();
    }

    /** Adds each file, selects it and compiles it, one after the other. */
    method AddAndCompile(relativePaths: seq<string>, world: World) returns (ghost added: seq<ProjectFile>)
      requires FilesIdle()
      modifies this`files, this`selectedFile, this`status, world`fs, world`started
      ensures FilesIdle()
      ensures files == old(files) + added && FilePaths(added) == relativePaths
      ensures forall f :: f in added ==> fresh(f)
      ensures |relativePaths| > 0 ==>
        status == Rollup(FileStatuses(files)) && (status != Failed ==> selectedFile == Some(added[|added| - 1]))
      ensures |relativePaths| == 0 ==> status == old(status) && selectedFile == old(selectedFile)
    {
      added := [];
      var i := 0;
      while i < |relativePaths|
        invariant 0 <= i <= |relativePaths| && |added| == i
        invariant files == old(files) + added
        invariant FilesIdle()
        invariant forall f :: f in added ==> fresh(f)
        invariant FilePaths(added) == relativePaths[..i]
        invariant i > 0 ==> status == Rollup(FileStatuses(files)) && (status != Failed ==> selectedFile == Some(added[i - 1]))
        invariant i == 0 ==> status == old(status) && selectedFile == old(selectedFile)
      {
        var file := AddAndCompileFile(relativePaths[i], world);
        FilePathsAppend(added, [file]);
        assert FilePaths([file]) == [relativePaths[i]];
        added := added + [file];
        PrefixStep(relativePaths, i);
        i := i + 1;
      }
      assert relativePaths[..i] == relativePaths;
    }

    /** Adds one file, selects it and compiles it; the files already there
        are not touched. */
    method AddAndCompileFile(path: string, world: World) returns (file: ProjectFile)
      requires FilesIdle()
      modifies this`files, this`selectedFile, this`status, world`fs, world`started
      ensures FilesIdle()
      ensures files == old(files) + [file] && fresh(file) && file.filePath == path
      ensures status == Rollup(FileStatuses(files)) && (status != Failed ==> selectedFile == Some(file))
    {
      AddLoadedFile(path);
      file := files[|files| - 1];
      selectedFile := Some(file);
      CompileFile(file, world);
      assert files == old(files) + [file];
    }
  }

  /** List.Remove: the list without the first occurrence of x, or the list
      itself when x does not occur. */
  function RemoveFirst<T(==)>(s: seq<T>, x: T): seq<T>
  {
    if s == [] then [] else if s[0] == x then s[1..] else [s[0]] + RemoveFirst(s[1..], x)
  }

  /** Removing an item takes exactly one occurrence of it out of the list,
      when it occurs. */
  lemma {:induction false} RemoveFirstRemoves<T>(s: seq<T>, x: T)
    ensures x in s ==> multiset(RemoveFirst(s, x)) == multiset(s) - multiset{x}
    ensures x !in s ==> RemoveFirst(s, x) == s
  {
    if s != [] {
      RemoveFirstRemoves(s[1..], x);
      assert s == [s[0]] + s[1..];
    }
  }

  /** The roll-up depends on which files there are, not on their order. */
  lemma RollupOfSameFiles(fs: seq<ProjectFile>, gs: seq<ProjectFile>)
    requires multiset(fs) == multiset(gs)
    ensures Rollup(FileStatuses(fs)) == Rollup(FileStatuses(gs))
  {
    StatusesIn(fs, gs);
    StatusesIn(gs, fs);
  }

  /** Reordering the files keeps their being idle, their roll-up, their
      paths and their membership. */
  lemma SortKeeps(fs: seq<ProjectFile>, gs: seq<ProjectFile>, x: Option<ProjectFile>)
    requires multiset(fs) == multiset(gs)
    ensures x.Some? && x.value in fs ==> x.value in gs
    ensures Idle(fs) ==> Idle(gs)
    ensures Rollup(FileStatuses(fs)) == Rollup(FileStatuses(gs))
    ensures multiset(FilePaths(fs)) == multiset(FilePaths(gs))
  {
    if Idle(fs) {
      IdleOfSameFiles(fs, gs);
    }
    RollupOfSameFiles(fs, gs);
    FilePathsOfSameFiles(fs, gs);
    if x.Some? && x.value in fs {
      assert x.value in multiset(gs);
    }
  }

  /** A prefix one longer is the prefix followed by the next item. */
  lemma PrefixStep<T>(s: seq<T>, i: nat)
    requires i < |s|
    ensures s[..i + 1] == s[..i] + [s[i]]
  {
  }

  /** Every status of a file list is a status of a list holding its files. */
  lemma StatusesIn(fs: seq<ProjectFile>, gs: seq<ProjectFile>)
    requires multiset(fs) <= multiset(gs)
    ensures forall st :: st in FileStatuses(fs) ==> st in FileStatuses(gs)
  {
    FileStatusesAt(fs);
    FileStatusesAt(gs);
    forall st | st in FileStatuses(fs) ensures st in FileStatuses(gs) {
      var i :| 0 <= i < |fs| && FileStatuses(fs)[i] == st;
      assert fs[i] in multiset(gs);
      var j :| 0 <= j < |gs| && gs[j] == fs[i];
      assert FileStatuses(gs)[j] == st;
    }
  }

  /** Whether the project file's text starts with the old header. */
  predicate IsV1(lines: seq<string>)
  {
    |lines| >= 1 && StartsWith(lines[0], V1Header)
  }

  lemma {:induction false} LoadedPathsAt(ps: seq<string>)
    ensures forall i :: 0 <= i < |ps| ==> LoadedPaths(ps)[i] == LoadedPath(ps[i])
  {
    if ps != [] {
      LoadedPathsAt(ps[1..]);
    }
  }
}
