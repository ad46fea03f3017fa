# MiniWebCompiler, modelled in Dafny

MiniWebCompiler is a small Windows tool that keeps the minified forms of a web
project's CSS, SCSS and JavaScript files up to date. A *project* is a root
directory and a list of *files* relative to it, stored in the project file
`miniwebcompiler.json`. Each file is compiled by external tools started
through `cmd /c`:

- `csso` minifies CSS;
- `sass` turns SCSS into CSS, which `csso` then minifies;
- `rollup` bundles JavaScript that imports other files, and `uglifyjs`
  minifies the bundle or the file itself.

Each file has a three-valued status: pending (null), failed (false) or
succeeded (true). A project shows the roll-up of its files' statuses, and
the main window shows the roll-up of its projects' statuses.

This project models the view-model layer that decides what happens:

- **`ProjectFiles.ProjectFile`** (project_file.dfy) is one file's
  compilation, written as a class whose methods update its fields. It covers:
  - the guard against re-entrant compile requests;
  - the up-to-date check against the newest source;
  - change detection on the outputs by content;
  - the tool runs and their logging;
  - the detection of the files a source imports, directly or indirectly.

  Its pure parts sit in their own modules:
  - `Directives`: the header comments build-dir, iife-params, iife-args,
    no-iife and the banner, and the IIFE splice of the bundle;
  - `Dependencies`: the import rules of the three languages;
  - `Display`: the size, size-difference and last-compile-time texts;
  - `TimeExtensions`: the verbose time span.
- **`Projects.Project`** (project.dfy) covers:
  - loading the project file, in the old line format or as JSON;
  - saving it when a setting changes after loading;
  - the status roll-up and the selection of the first failed file;
  - the file list kept in path order;
  - scheduling the files that a changed file concerns;
  - adding, removing and compiling files.
- **`MainViewModels.MainViewModel`** (main_view_model.dfy) covers:
  - the roll-up over projects and the project list kept in name order;
  - the text handling of the about box's version report;
  - the command rewrite that calls a tool shipped in the application
    directory by its full path.
- **`JsonConditional`** (json_conditional.dfy) is the rule deciding which
  values the JSON writer leaves out.

The outside world is a parameter. `Environment.World` holds:

- the file system, as a map from path to write time and lines;
- the clock;
- the application directory;
- the results of the regular expressions on single lines;
- a script of tool runs, each run being its exit, exit code, output and
  the file system it leaves behind.

A file's content stands for its SHA-256 hash. Asynchronous calls are
modelled as sequential calls. A change notification that the source wires
through property-changed events is modelled as an explicit call. A project
calls `UpdateStatus` after every change of a file's status: after each
compilation, and after a file event schedules a compilation.

The model follows the code where it is surprising:

- the JavaScript compiler replaces every '+' in the build directory by '\'
  (`Directives.NormalizeBuildDir` with `plusToBackslash`);
- the IIFE splice always succeeds on a JavaScript bundle of three lines
  or more, while a shorter bundle with no opening line among its lines
  makes it throw (`Directives.SplicedDefined`);
- time spans are truncated toward zero, so every negative span reads as
  seconds (`TimeExtensions.UnderAMinute`).

## Model

| member | source | states |
|---|---|---|
| Statuses.Rollup | MiniWebCompiler/ViewModels/Project.cs:219-234 | The roll-up is pending exactly when some item is pending. It is failed exactly when none is pending and some item failed. It is succeeded exactly when every item succeeded. |
| Statuses.RollupIsWorst | MiniWebCompiler/ViewModels/Project.cs:219-234 | The roll-up is the most urgent item status, with pending over failed over succeeded. |
| Statuses.RollupConcat | MiniWebCompiler/ViewModels/MainViewModel.cs:232-243 | Rolling up a list in two parts and taking the more urgent part gives the roll-up of the whole list. |
| Statuses.RollupOfRollups | MiniWebCompiler/ViewModels/MainViewModel.cs:232-243 | The roll-up of the groups' roll-ups is the roll-up of all items of all groups. |
| Statuses.FirstFailed | MiniWebCompiler/ViewModels/Project.cs:228 | There is no index exactly when no item failed. Otherwise the index is that of a failed item, and no earlier item failed. |
| Statuses.FailedRollupSelects | MiniWebCompiler/ViewModels/Project.cs:225-228 | When the roll-up is failed, there is a first failed item to select. |
| Sorting.SortByKeySorted | MiniWebCompiler/ViewModels/Project.cs:440 | The result of the key sort is ordered by key. |
| Sorting.SortByKeyPermutes | MiniWebCompiler/ViewModels/Project.cs:440 | The result holds the same keyed items, each as often as before. |
| Sorting.SortByKeyPermutesValues | MiniWebCompiler/ViewModels/Project.cs:440 | The result holds the same values, each as often as before. |
| Sorting.SortByKeyStable | MiniWebCompiler/ViewModels/Project.cs:440 | The sort is stable: the items with any given key keep their relative order. |
| Text.TrimStartShape | MiniWebCompiler/ViewModels/Project.cs:270 | TrimStart keeps a suffix of the text and drops only white space. What is left does not start with white space. |
| Text.TrimEndShape | MiniWebCompiler/ViewModels/MainViewModel.cs:170 | TrimEnd keeps a prefix of the text and drops only white space. What is left does not end with white space. |
| Text.TrimEnds | MiniWebCompiler/ViewModels/Project.cs:270 | A trimmed line is empty, or starts and ends with a character that is not white space. |
| Text.ReplaceCharAt | MiniWebCompiler/ViewModels/Project.cs:335 | Replacing a character keeps the length and changes exactly the occurrences of that character. |
| Text.ReplaceCharRoundTrip | MiniWebCompiler/ViewModels/Project.cs:305 | Mapping a to b and then b back to a restores every text that held no b. |
| Text.ReplaceAllAbsent | MiniWebCompiler/ViewModels/MainViewModel.cs:170 | A text in which the pattern starts nowhere is left unchanged by the replacement. |
| Text.IndentRoundTrip | MiniWebCompiler/ViewModels/MainViewModel.cs:170 | Inserting four spaces after every line feed and removing them again gives back the text. |
| Text.ToLowerAt | MiniWebCompiler/ViewModels/Project.cs:440 | Lower-casing keeps the length and lower-cases each character. |
| Text.LexLeReflexive | MiniWebCompiler/ViewModels/Project.cs:440 | Every sort key is ordered before or equal to itself. |
| Text.LexLeTotal | MiniWebCompiler/ViewModels/Project.cs:440 | Any two sort keys are comparable. |
| Text.LexLeTransitive | MiniWebCompiler/ViewModels/Project.cs:440 | The key order is transitive. |
| Text.LexLeAntisymmetric | MiniWebCompiler/ViewModels/Project.cs:440 | Keys ordered both ways are equal. |
| Text.NatToString | MiniWebCompiler/Unclassified/Util/TimeExtensions.cs:39 | A number's text is non-empty, made of decimal digits, and has no leading zero. |
| Text.NatToStringRoundTrip | MiniWebCompiler/Unclassified/Util/TimeExtensions.cs:39 | Reading a number's text back gives the number. |
| Text.GroupThousandsRoundTrip | MiniWebCompiler/ViewModels/ProjectFile.cs:84 | A number formatted with group separators consists of digits and separators. Dropping the separators gives back the number. |
| Paths.FileNameAfterSeparator | MiniWebCompiler/ViewModels/ProjectFile.cs:262 | A path's file name is the part after its last separator. |
| Paths.CombineFileName | MiniWebCompiler/ViewModels/ProjectFile.cs:281 | Placing a non-empty name under a directory keeps the name's file name. |
| Paths.ExtensionFromLastDot | MiniWebCompiler/ViewModels/ProjectFile.cs:184 | The extension is the file name from its last '.'. It is empty when the name has no '.' or ends with one. |
| Paths.ExtensionOfAppended | MiniWebCompiler/ViewModels/ProjectFile.cs:795-796 | Appending an extension such as ".js" makes it the path's extension. |
| Environment.LastWriteTimeSafe | MiniWebCompiler/ViewModels/ProjectFile.cs:658-663 | An existing file has its write time. A missing file has the minimum time. |
| Environment.World.StartProcess | MiniWebCompiler/ViewModels/ProjectFile.cs:678-693 | A start takes the next run of the script and records the command line and the working directory. The file system becomes the one the run leaves behind. |
| Environment.World.WriteAllLines | MiniWebCompiler/ViewModels/ProjectFile.cs:432 | The file gets the new lines and the current time. No other file changes. |
| Environment.World.Delete | MiniWebCompiler/ViewModels/ProjectFile.cs:468-469 | Deleting removes the file and nothing else. A missing file is no error. |
| Environment.SplitFirstParts | MiniWebCompiler/ViewModels/ProjectFile.cs:668 | Splitting at the first space gives a first word without spaces. There is a rest exactly when the command holds a space. Word, space and rest give the command back. |
| Environment.RewriteCommandCases | MiniWebCompiler/ViewModels/ProjectFile.cs:668-673 | A command whose first word names no tool of the application directory is left unchanged. Otherwise it becomes the quoted full path of the tool followed by the rest. The rewrite fails exactly when there is no rest. |
| Environment.RewriteCommandRecoverable | MiniWebCompiler/ViewModels/ProjectFile.cs:672 | The rewritten command holds the tool name and the rest at fixed places between its quotes, so both can be read back. |
| JsonConditional.GetDefault | MiniWebCompiler/fastJSON/JsonConditionalAttribute.cs:32-39 | The default is non-null exactly for a value type, and it is a value of that type. |
| JsonConditional.TestConditionMeaning | MiniWebCompiler/fastJSON/JsonConditionalAttribute.cs:14-24 | A value is written exactly when it is not null, not its type's default and not an empty string or list. So false, zero and an all-zero struct are left out and every other object is written. |
| JsonConditional.DefaultNotSerialized | MiniWebCompiler/fastJSON/JsonConditionalAttribute.cs:18-19 | The default value of a value type is never written. |
| TimeExtensions.KeysPresent | MiniWebCompiler/Unclassified/Util/TimeExtensions.cs:18-35 | Every unit has a singular and a plural entry in the word table, with the same abbreviation. |
| TimeExtensions.Length | MiniWebCompiler/Unclassified/Util/TimeExtensions.cs:43-48 | Every unit lasts at least one second. |
| TimeExtensions.TotalSecondsTruncated | MiniWebCompiler/Unclassified/Util/TimeExtensions.cs:42 | The whole seconds of a span are its ticks divided by ten million, truncated toward zero for both signs. |
| TimeExtensions.WordAbbreviation | MiniWebCompiler/Unclassified/Util/TimeExtensions.cs:37-40 | A component reads as its count, a space and the unit's abbreviation, whatever the count. |
| TimeExtensions.UnderAMinute | MiniWebCompiler/Unclassified/Util/TimeExtensions.cs:50-51 | Below one minute, negative spans included, the text is the number of seconds followed by " sec". |
| TimeExtensions.BelowOneSecond | MiniWebCompiler/Unclassified/Util/TimeExtensions.cs:42-51 | A span shorter than one second in either direction reads "0 sec". |
| TimeExtensions.ComponentsShape | MiniWebCompiler/Unclassified/Util/TimeExtensions.cs:50-72 | A description has one or two components. When there are two, the second has the smaller unit. |
| TimeExtensions.LeadingCountPositive | MiniWebCompiler/Unclassified/Util/TimeExtensions.cs:52-72 | From one minute on, the leading count is at least 1. A description in weeks alone has at least 3; one in years alone has at least 2. |
| TimeExtensions.SecondaryBounds | MiniWebCompiler/Unclassified/Util/TimeExtensions.cs:52-71 | A second component is below the next larger unit: under 60 seconds or minutes, 24 hours or 7 days, and at most 12 months. |
| TimeExtensions.SingleComponentRanges | MiniWebCompiler/Unclassified/Util/TimeExtensions.cs:66-72 | From two years on only years are shown. From two months up to one year only months are shown. |
| TimeExtensions.ValueApproximates | MiniWebCompiler/Unclassified/Util/TimeExtensions.cs:50-72 | The description never overstates the span. It falls short of the span by less than its smallest unit. |
| TimeExtensions.LeadingUnitMonotone | MiniWebCompiler/Unclassified/Util/TimeExtensions.cs:50-72 | A longer span never leads with a smaller unit. |
| Display.RoundHalfUpAccuracy | MiniWebCompiler/ViewModels/ProjectFile.cs:86 | Rounding to the shown decimals is off by at most half a unit of the last decimal. |
| Display.FixedPointValue | MiniWebCompiler/ViewModels/ProjectFile.cs:86-88 | A fixed-point text has its point before the last decimals. Its digits without the point read back as the scaled number. |
| Display.ScaleOf | MiniWebCompiler/ViewModels/ProjectFile.cs:85-95 | A size of at least 1 KiB is shown with a divisor of at least 1024 and at most two decimals. |
| Display.SizeStrEmptyIffUnknown | MiniWebCompiler/ViewModels/ProjectFile.cs:81-82 | The size text is empty exactly when the size is unknown (negative). |
| Display.SizeStrBytesRoundTrip | MiniWebCompiler/ViewModels/ProjectFile.cs:83-84 | A size below 1 KiB, or any size when sizes are shown in bytes, ends with " B". Its grouped digits read back as the size. |
| Display.ScaledAccuracy | MiniWebCompiler/ViewModels/ProjectFile.cs:85-95 | A size in KiB or MiB is the exact quotient, rounded to the shown decimals. |
| Display.ScaledSignificantDigits | MiniWebCompiler/ViewModels/ProjectFile.cs:85-95 | A scaled size shows at least three significant digits. Below 1 GiB it shows at most 1024 units of its last decimal. |
| Display.SizeStrScaled | MiniWebCompiler/ViewModels/ProjectFile.cs:85-95 | A scaled size reads as the rounded number with its decimals, a space and KiB or MiB. |
| Display.DiffStrRoundTrip | MiniWebCompiler/ViewModels/ProjectFile.cs:106-119 | The difference text is empty exactly when there is no baseline. Otherwise it reads back as size minus baseline. |
| Display.DiffStrSign | MiniWebCompiler/ViewModels/ProjectFile.cs:110-117 | The text starts with a minus sign exactly when the size shrank, and with '+' exactly when it grew. It is "±0" exactly when it is unchanged. |
| Display.LastCompileTimeStrMeaning | MiniWebCompiler/ViewModels/ProjectFile.cs:60-68 | The time text is empty exactly when the file was never compiled, and otherwise ends with " ago". Less than a minute after a compilation it is the seconds since then. |
| Dependencies.LanguageOf | MiniWebCompiler/ViewModels/ProjectFile.cs:184-203 | The language is CSS, JavaScript or SCSS exactly when the extension is ".css", ".js" or ".scss". Any other extension is unsupported. |
| Dependencies.CssTargetSkipsUrls | MiniWebCompiler/ViewModels/ProjectFile.cs:764-768 | A CSS import is skipped exactly when its trimmed path starts with http:// or https://. |
| Dependencies.JsTargetExtension | MiniWebCompiler/ViewModels/ProjectFile.cs:794-798 | Every JavaScript import adds a file with the extension ".js". |
| Dependencies.ScssTargetsShape | MiniWebCompiler/ViewModels/ProjectFile.cs:825-853 | An SCSS import with a style extension adds its own file. Any other adds exactly six candidates. Every candidate has a style extension. |
| Dependencies.LinesTargetsFromLine | MiniWebCompiler/ViewModels/ProjectFile.cs:754-775 | Every file a source adds comes from one of its lines. |
| Dependencies.LinesTargetsOfLine | MiniWebCompiler/ViewModels/ProjectFile.cs:754-775 | Every file any line adds is among the source's added files. |
| Dependencies.Adds | MiniWebCompiler/ViewModels/ProjectFile.cs:749-750 | A missing file adds nothing. |
| Dependencies.ReachableInClosed | MiniWebCompiler/ViewModels/ProjectFile.cs:769-772 | A set that holds the root's imports and is closed under importing holds every file reachable from the root. |
| Dependencies.CollectStep | MiniWebCompiler/ViewModels/ProjectFile.cs:769-772 | Adding a new import and then everything collected from it keeps the set closed, with every file in it reachable from the root. |
| Dependencies.CollectExact | MiniWebCompiler/ViewModels/ProjectFile.cs:745-777 | A closed set of the root's imports and reachable files is exactly the set of files reachable from the root. |
| Directives.NormalizeBuildDirShape | MiniWebCompiler/ViewModels/ProjectFile.cs:369-375 | The build directory is empty exactly when the written value is blank. Otherwise it ends with '\' and neither starts nor ends with white space. It holds no '/', and for JavaScript no '+'. |
| Directives.NormalizeBuildDirIdempotent | MiniWebCompiler/ViewModels/ProjectFile.cs:276-278 | Normalising a normalised build directory changes nothing. |
| Directives.HeaderCount | MiniWebCompiler/ViewModels/ProjectFile.cs:269 | The header is the first ten lines, or the whole file when it is shorter. |
| Directives.FirstBuildDirNone | MiniWebCompiler/ViewModels/ProjectFile.cs:273-274 | Without a line giving a build directory, it stays empty. |
| Directives.FirstBuildDirAt | MiniWebCompiler/ViewModels/ProjectFile.cs:273-274 | The first line giving a non-empty build directory decides it. |
| Directives.ScanBuildDir | MiniWebCompiler/ViewModels/ProjectFile.cs:265-287 | The scan of the CSS and SCSS header yields the first non-empty build directory among the first ten lines. |
| Directives.LastMatchAt | MiniWebCompiler/ViewModels/ProjectFile.cs:354-363 | For the IIFE parameters and arguments, the last matching header line decides. |
| Directives.LastMatchNone | MiniWebCompiler/ViewModels/ProjectFile.cs:354-363 | Without a matching line the value stays empty. |
| Directives.AnyMatchExists | MiniWebCompiler/ViewModels/ProjectFile.cs:364-368 | no-iife is set exactly when some header line matches it. |
| Directives.ScanJsHeader | MiniWebCompiler/ViewModels/ProjectFile.cs:336-386 | The JavaScript header scan yields the banner of the first line, the last IIFE parameters and arguments, the no-iife flag and the first build directory. |
| Directives.SearchFirst | MiniWebCompiler/ViewModels/ProjectFile.cs:415-422 | A line found by the forward search is among the first three and opens the IIFE. |
| Directives.SearchLast | MiniWebCompiler/ViewModels/ProjectFile.cs:423-431 | A line found by the backward search is among the last three and closes the IIFE. |
| Directives.FillFirstLines | MiniWebCompiler/ViewModels/ProjectFile.cs:415-422 | The first loop changes only the first opening line among the first three, filling its "()" with the parameters. |
| Directives.FillLastLines | MiniWebCompiler/ViewModels/ProjectFile.cs:423-431 | The second loop changes only the last closing line among the last three, filling its "()" with the arguments. |
| Directives.SplicedDefined | MiniWebCompiler/ViewModels/ProjectFile.cs:414-431 | A bundle of at least three lines is always spliced. A shorter one without an opening line makes the splice throw. |
| Directives.SplicedLines | MiniWebCompiler/ViewModels/ProjectFile.cs:411-433 | In a bundle of six or more lines, the splice keeps the line count and every line except the first opening line and the last closing line. |
| Directives.SpliceIife | MiniWebCompiler/ViewModels/ProjectFile.cs:414-431 | The in-place splice of the bundle's lines succeeds exactly when the spliced bundle is defined, and then leaves exactly those lines. |
| ProjectFiles.ExecCommandLineRewrites | MiniWebCompiler/ViewModels/ProjectFile.cs:668-673 | For a command with arguments, the command line started is the result of the rewrite. |
| ProjectFiles.JsNamesOf | MiniWebCompiler/ViewModels/ProjectFile.cs:331-381 | The source name is the file's name. The minified output is the bare minified name placed in the build directory. |
| ProjectFiles.CommandsHaveArguments | MiniWebCompiler/ViewModels/ProjectFile.cs:672 | Every command the compiler builds has arguments after the tool name, so the rewrite can always take the rest. |
| ProjectFiles.ChangeDetection | MiniWebCompiler/ViewModels/ProjectFile.cs:871-909 | After recording an output and its map before a run, the check afterwards finds a change exactly when the file was created, deleted or rewritten with different content. |
| ProjectFiles.NoSourceNewerLatest | MiniWebCompiler/ViewModels/ProjectFile.cs:628-645 | An output is current exactly when it exists and is not older than the latest source. |
| ProjectFiles.LatestTimeIsMax | MiniWebCompiler/ViewModels/ProjectFile.cs:636-644 | The latest output time bounds every output's time. It is the time of one output, or the minimum time. |
| ProjectFiles.ProjectFile.constructor | MiniWebCompiler/ViewModels/ProjectFile.cs:34-42 | A new file has succeeded, with no log, no compile time and a size of 0. Its baseline is that size when the project has baselines and -1 otherwise. It has no imports and no records, and is not compiling. |
| ProjectFiles.ProjectFile.MatchesFile | MiniWebCompiler/ViewModels/ProjectFile.cs:144-155 | A changed path matches exactly when it equals the file's full path or one of its imports. |
| ProjectFiles.ProjectFile.ScheduleCompile | MiniWebCompiler/ViewModels/ProjectFile.cs:157-162 | The file becomes pending and its delayed compilation is (re)started. |
| ProjectFiles.ProjectFile.ClearFileTimes | MiniWebCompiler/ViewModels/ProjectFile.cs:865-869 | The records are emptied and the modified flag is cleared. |
| ProjectFiles.ProjectFile.SaveResultFileTime | MiniWebCompiler/ViewModels/ProjectFile.cs:871-886 | The output's time and content are recorded only when it exists. |
| ProjectFiles.ProjectFile.RestoreResultFileTime | MiniWebCompiler/ViewModels/ProjectFile.cs:888-909 | The modified flag becomes set unless the output exists, was recorded and has the recorded content. It is never cleared. |
| ProjectFiles.ProjectFile.LatestSourceTime | MiniWebCompiler/ViewModels/ProjectFile.cs:626-634 | The loop's running maximum is the time of one of the sources, and no source is newer. |
| ProjectFiles.ProjectFile.AreFilesUpToDate | MiniWebCompiler/ViewModels/ProjectFile.cs:624-656 | The result is true exactly when every output exists and is not older than any source. The compile time is set to the latest output time only when it was never set. |
| ProjectFiles.ProjectFile.ExecAsync | MiniWebCompiler/ViewModels/ProjectFile.cs:665-719 | The rewritten command is started and logged. The file is marked failed with a new error exactly when the run did not exit or exited non-zero; otherwise status and error flag are unchanged. A compile request made meanwhile is kept while compiling. |
| ProjectFiles.ProjectFile.SetCompressedResultSize | MiniWebCompiler/ViewModels/ProjectFile.cs:721-739 | The size is the compressed length of an existing output, and -1 when the output cannot be read. |
| ProjectFiles.ProjectFile.PostprocessMapFile | MiniWebCompiler/ViewModels/ProjectFile.cs:580-618 | A missing map is an exception. A map that is not a JSON object is left alone. Otherwise the map is rewritten, or its processing throws. |
| ProjectFiles.ProjectFile.BeginOutputs | MiniWebCompiler/ViewModels/ProjectFile.cs:294-300 | Before the tools run, the output and its map are recorded afresh, the modified flag is cleared and the log emptied. A CSS compilation also forgets the size. |
| ProjectFiles.ProjectFile.CheckOutputs | MiniWebCompiler/ViewModels/ProjectFile.cs:552-560 | The modified flag is set exactly when the output or its map changed since it was recorded. The intermediate file and its map are deleted when asked. |
| ProjectFiles.ProjectFile.LogCompiledFiles | MiniWebCompiler/ViewModels/ProjectFile.cs:562-576 | The compiled files are logged. The compile time is renewed when an output changed; otherwise a note says nothing changed. The size is taken from the minified output. |
| ProjectFiles.ProjectFile.FinishOutputs | MiniWebCompiler/ViewModels/ProjectFile.cs:550-577 | The end of a successful compilation is the check of the outputs followed by the log, the compile time and the size. |
| ProjectFiles.ProjectFile.SkipIfUpToDate | MiniWebCompiler/ViewModels/ProjectFile.cs:388-392 | A compilation is skipped exactly when it is not forced and the output and its map are up to date. An unforced check sets a never-set compile time to the latest output time. A skip takes the size from the minified output; otherwise the size is kept. |
| ProjectFiles.ProjectFile.MinifyCss | MiniWebCompiler/ViewModels/ProjectFile.cs:543-546 | csso is started on the file and its run is logged. The file system is the one the run leaves, with the map rewritten. The step throws exactly when the map is missing or cannot be processed. The file fails exactly when it had failed before or the run failed, and a rerun requested during the run is kept. |
| ProjectFiles.ProjectFile.RunCss | MiniWebCompiler/ViewModels/ProjectFile.cs:294-326 | csso is the only tool started. The outputs are recorded as they were before it, and the file fails exactly when the run failed. On success the log is the run followed by the compiled files. The modified flag says whether an output changed since it was recorded, the compile time is renewed exactly then, and the size is that of the minified output. Otherwise the log holds the run alone, the flag is clear, the size is unknown and the compile time is kept. |
| ProjectFiles.ProjectFile.CompileCss | MiniWebCompiler/ViewModels/ProjectFile.cs:260-327 | The minified name follows the header's build directory. An unforced compilation of up-to-date outputs starts no tool and changes no file. Otherwise csso runs first. On success the log, the modified flag, the compile time and the size are those of the csso run checked against the outputs before it. |
| ProjectFiles.ProjectFile.SpliceBundle | MiniWebCompiler/ViewModels/ProjectFile.cs:411-433 | With IIFE parameters or arguments and an existing bundle, the bundle is rewritten with the spliced lines, or the splice throws. Otherwise nothing changes. |
| ProjectFiles.ProjectFile.BundleJavaScript | MiniWebCompiler/ViewModels/ProjectFile.cs:400-434 | rollup is started on the file with the header's options, and its run is logged. The bundle the run leaves is spliced with the header's IIFE parameters and arguments, and the only exception is a failed splice. The file fails exactly when it had failed before or the run failed. |
| ProjectFiles.ProjectFile.MinifyJavaScript | MiniWebCompiler/ViewModels/ProjectFile.cs:441-456 | uglifyjs is started, with a map option that continues the bundle's map when it exists, and its run is logged. The file system is the one the run leaves, with the map rewritten. The step throws exactly when the map is missing or cannot be processed. The file fails exactly when it had failed before or the run failed. |
| ProjectFiles.ProjectFile.RunJavaScript | MiniWebCompiler/ViewModels/ProjectFile.cs:388-489 | An unforced compilation of up-to-date outputs starts no tool. Otherwise the first tool is rollup for a file with imports and uglifyjs for one without. On success the log holds the runs and the compiled files, and the modified flag, the compile time and the size follow from the outputs checked against their state before the tools. The bundle and its map are deleted unless a keep option is set. |
| ProjectFiles.ProjectFile.RunJsTools | MiniWebCompiler/ViewModels/ProjectFile.cs:393-489 | rollup runs first for a file with imports, and uglifyjs for one without. On success the log, the modified flag, the compile time and the size are those of the runs with the outputs checked, and the bundle is deleted when asked. |
| ProjectFiles.ProjectFile.BundleAndMinify | MiniWebCompiler/ViewModels/ProjectFile.cs:400-489 | rollup runs first. On success uglifyjs runs on the spliced bundle, the log holds both runs and the compiled files, and the outputs are checked against their state before the tools. The bundle is deleted when asked. |
| ProjectFiles.ProjectFile.FinishJavaScript | MiniWebCompiler/ViewModels/ProjectFile.cs:439-489 | Unless a rerun was requested or a tool failed, uglifyjs runs next. On success it is the last tool started, and the log, the modified flag, the compile time and the size are those of its run with the outputs checked. The bundle is deleted when asked. |
| ProjectFiles.ProjectFile.CompileJavaScript | MiniWebCompiler/ViewModels/ProjectFile.cs:329-490 | The names follow the header's build directory. An unforced compilation of up-to-date outputs starts no tool. Otherwise the first tool depends on whether the file has imports. On success the state is that of the tool runs, and a bundle is deleted unless a keep option is set. |
| ProjectFiles.ProjectFile.RunScss | MiniWebCompiler/ViewModels/ProjectFile.cs:530-577 | sass runs first. On success csso runs on the intermediate CSS, and the log holds both runs and the compiled files. The modified flag, the compile time and the size follow from the outputs checked against their state before the tools. The intermediate CSS and its map are deleted unless a keep option is set. |
| ProjectFiles.ProjectFile.FinishScss | MiniWebCompiler/ViewModels/ProjectFile.cs:539-577 | Unless a rerun was requested or sass failed, csso runs next. On success it is the last tool started, and the log, the modified flag, the compile time and the size are those of its run with the outputs checked. The intermediate CSS is deleted when asked. |
| ProjectFiles.ProjectFile.CompileScss | MiniWebCompiler/ViewModels/ProjectFile.cs:492-578 | The names follow the header's build directory. An unforced compilation of up-to-date outputs starts no tool. Otherwise sass runs first. On success the state is that of the sass and csso runs, and the intermediate CSS is deleted unless a keep option is set. |
| ProjectFiles.ProjectFile.Compile | MiniWebCompiler/ViewModels/ProjectFile.cs:164-254 | A call during a compilation only requests a rerun; every other field and the file system are unchanged. Otherwise the compilation ends not running. A missing file or unsupported type fails without starting a tool, and a supported file's imports become exactly the files reachable from it. The file is then pending with a compilation scheduled, or failed exactly when there was a new error. |
| ProjectFiles.ProjectFile.RunCompile | MiniWebCompiler/ViewModels/ProjectFile.cs:173-254 | A missing file or unsupported type fails without starting a tool. A supported file's imports become exactly the files reachable from it. In the end a rerun is scheduled, or the file failed exactly when there was a new error. |
| ProjectFiles.ProjectFile.BeginCompile | MiniWebCompiler/ViewModels/ProjectFile.cs:173-178 | A compilation starts pending and running, with no new error and the file's full name and directory set. |
| ProjectFiles.ProjectFile.CompileSource | MiniWebCompiler/ViewModels/ProjectFile.cs:180-220 | A missing file and an unsupported type each fail with their message, added after an empty line when the log is not empty. A supported file's imports are exactly the files reachable from it. |
| ProjectFiles.ProjectFile.CompileLanguage | MiniWebCompiler/ViewModels/ProjectFile.cs:182-212 | After the tools of the file's language, the file is pending, or failed with a new error. |
| ProjectFiles.ProjectFile.EndCompile | MiniWebCompiler/ViewModels/ProjectFile.cs:222-253 | A requested rerun is scheduled, and nothing else changes. Otherwise a file that has not failed succeeds, and it failed exactly when there was a new error. When there was no new error, an output changed or the compilation was forced, and the project has a script, the script runs and is logged. The file system is then the one it leaves, and the file fails exactly when the script failed. Otherwise no tool starts. |
| ProjectFiles.ProjectFile.OnCompile | MiniWebCompiler/ViewModels/ProjectFile.cs:130-134 | The file is marked pending and compiled with force. During a compilation this only requests a rerun, and every other field is unchanged. Otherwise the outcome is that of Compile: a missing or unsupported file fails without a tool, the imports become the reachable files, and the file ends scheduled or failed exactly on a new error. |
| ProjectFiles.ProjectFile.DetectAdditionalSourceFiles | MiniWebCompiler/ViewModels/ProjectFile.cs:745-859 | The top-level call collects exactly the files reachable from the source through imports. A nested call only grows the set with reachable files, and it leaves it unchanged for a missing file. |
| Projects.StoredPathRoundTrip | MiniWebCompiler/ViewModels/Project.cs:335 | A stored path holds no '\'. A path without '/' reads back as it was saved. |
| Projects.StoredPathsRoundTrip | MiniWebCompiler/ViewModels/Project.cs:302-305 | A saved file list without '/' in its paths loads back as the same list. |
| Projects.OrderedByPathPairs | MiniWebCompiler/ViewModels/Project.cs:440 | The files are ordered by lower-cased path between neighbours exactly when they are ordered between every pair. |
| Projects.SortedByPath | MiniWebCompiler/ViewModels/Project.cs:440 | The sorted files are the same files, each as often as before, in path order, and files with equal keys keep their order. |
| Projects.RemoveFirstRemoves | MiniWebCompiler/ViewModels/Project.cs:190 | Removing a file that is in the list takes out exactly one occurrence. Removing one that is not leaves the list unchanged. |
| Projects.RollupOfSameFiles | MiniWebCompiler/ViewModels/Project.cs:173-174 | The roll-up does not depend on the order of the files. |
| Projects.Project.constructor | MiniWebCompiler/ViewModels/Project.cs:30-51 | After loading and compiling every file, the project is loaded and no file is compiling. Its status is the roll-up of its files' statuses, and when it failed its first failed file is selected. Any selection is one of its files. Without a project file it is named after its directory and has no files. |
| Projects.Project.InitializeAsync | MiniWebCompiler/ViewModels/Project.cs:45-51 | Each file is compiled in turn, and its status change updates the project's status. Afterwards no file is compiling and a pending file has a compilation scheduled. With files, the status is the roll-up, with the first failed file selected on failure. Without files the status is unchanged. |
| Projects.Project.CompileFile | MiniWebCompiler/ViewModels/Project.cs:49 | One file is compiled, unforced, and its status change updates the project's status. The file ends not compiling, and scheduled when pending. Unless the project failed, the selection is kept. |
| Projects.Project.AddLoadedFile | MiniWebCompiler/ViewModels/Project.cs:283-286 | A new file with the given path is appended; the earlier files are kept. |
| Projects.Project.ReadV1 | MiniWebCompiler/ViewModels/Project.cs:263-290 | Reading succeeds exactly when the first trimmed line is the header. It then gives the second trimmed line as the name and one file per further line, in order. On failure there is no name and no file. |
| Projects.Project.ReadConfig | MiniWebCompiler/ViewModels/Project.cs:298-308 | The name and options are taken from the parsed file, and the files' paths are the stored paths with '/' turned into the separator. |
| Projects.Project.LoadFromFile | MiniWebCompiler/ViewModels/Project.cs:240-322 | The keep-unminified option starts from the default. Without a project file nothing else changes. An old-format file is read line by line, leaving the keep-intermediary option as it was, and, when its header is right, saved again as JSON. A JSON file gives name, options and files, and one that fails to parse leaves no name and no files. |
| Projects.Project.SaveToFile | MiniWebCompiler/ViewModels/Project.cs:324-335 | The saved configuration is the name, the options and the files' paths with '/' separators. |
| Projects.Project.SetName | MiniWebCompiler/ViewModels/Project.cs:57-65 | The name is set, and it is saved exactly when it changed after loading. |
| Projects.Project.SetKeepIntermediaryFiles | MiniWebCompiler/ViewModels/Project.cs:105-113 | The option is set, and it is saved exactly when it changed after loading. |
| Projects.Project.SetKeepUnminifiedFiles | MiniWebCompiler/ViewModels/Project.cs:115-123 | The option is set, and it is saved exactly when it changed after loading. |
| Projects.Project.WatcherChanged | MiniWebCompiler/ViewModels/Project.cs:87-103 | Exactly the files that a changed path concerns become pending with a compilation scheduled; every other file is unchanged. The project turns pending exactly when a concerned file was not pending before, and otherwise keeps its status. The selection is kept, and a status that was current stays current. |
| Projects.Project.ScheduleConcerned | MiniWebCompiler/ViewModels/Project.cs:95-101 | The loop over the files schedules exactly the concerned files. The project turns pending exactly when one of them was not pending. |
| Projects.Project.ScheduleIfConcerned | MiniWebCompiler/ViewModels/Project.cs:97-100 | A concerned file is scheduled; any other is unchanged. The result tells whether the file turned pending, and the project turns pending exactly then. |
| Projects.Project.ScheduleFile | MiniWebCompiler/ViewModels/Project.cs:99 | The file becomes pending and scheduled. The project turns pending exactly when the file was not pending; the selection is kept. |
| Projects.Project.UpdateStatus | MiniWebCompiler/ViewModels/Project.cs:219-234 | The status is the roll-up of the files' statuses. When it is failed, the first failed file is selected; otherwise the selection is kept. A status that was already the roll-up is unchanged. |
| Projects.Project.SortFiles | MiniWebCompiler/ViewModels/Project.cs:437-447 | The files become the stable sort by lower-cased path: the same files in path order. The selection is kept. |
| Projects.Project.Refill | MiniWebCompiler/ViewModels/Project.cs:441-445 | After clearing the list and adding the ordered files one by one, the list is exactly those files. |
| Projects.Project.RemoveFile | MiniWebCompiler/ViewModels/Project.cs:184-195 | With a selection and a confirmation, the selected file's first occurrence is removed, the status is the roll-up of the rest, the first failed file is selected when that roll-up fails and the selection is otherwise kept, and the project is saved. Otherwise nothing changes. |
| Projects.Project.CompileAll | MiniWebCompiler/ViewModels/Project.cs:199-205 | Every file's compile command runs, and its status change updates the project's status. Afterwards a pending file has a compilation scheduled or a rerun requested. With files, the status is the roll-up, with the first failed file selected on failure. |
| Projects.Project.RunCompileCommand | MiniWebCompiler/ViewModels/Project.cs:203 | One file's compile command runs, and its status change updates the project's status. The file ends scheduled or with a rerun requested when pending. |
| Projects.Project.AddFiles | MiniWebCompiler/ViewModels/Project.cs:152-177 | One new file per chosen path is added, with that path. The list ends as the earlier and new files, ordered by path, with no file compiling, and the project is saved. The status is the roll-up over all files. A failed project selects a failed file; otherwise the last added file stays selected. |
| Projects.Project.AddAndCompile | MiniWebCompiler/ViewModels/Project.cs:164-172 | One new file per chosen path is appended after the earlier files, with that path and in the chosen order. Afterwards no file is compiling. The status is the roll-up, and unless the project failed the last added file is selected. |
| Projects.Project.AddAndCompileFile | MiniWebCompiler/ViewModels/Project.cs:166-171 | A new file with the path is appended, selected and compiled; the earlier files are kept. The status is the roll-up, and unless the project failed the new file stays selected. |
| Projects.Project.Settle | MiniWebCompiler/ViewModels/Project.cs:173-175 | The status becomes the roll-up, and is unchanged when it already was. The files are sorted by path and stay idle, and the project is saved. A failed project selects a failed file; otherwise the selection is kept. |
| Projects.Project.SortAndSave | MiniWebCompiler/ViewModels/Project.cs:174-175 | The files become the same files ordered by path, still idle, with the selection kept, and the project is saved. |
| MainViewModels.RollupOverAllFiles | MiniWebCompiler/ViewModels/MainViewModel.cs:232-243 | When each project's status is the roll-up of its files, the window's roll-up over the projects is the roll-up over all files of all projects. |
| MainViewModels.ProjectStatusesSameAsRollups | MiniWebCompiler/ViewModels/MainViewModel.cs:232-243 | Under the same condition, the projects' statuses are the roll-ups of their files' statuses. |
| MainViewModels.OrderedByNamePairs | MiniWebCompiler/ViewModels/MainViewModel.cs:257 | The projects are ordered by lower-cased name between neighbours exactly when they are ordered between every pair. |
| MainViewModels.SortedByName | MiniWebCompiler/ViewModels/MainViewModel.cs:257 | The sorted projects are the same projects, each as often as before, in name order, and projects with equal keys keep their order. |
| MainViewModels.MainViewModel.constructor | MiniWebCompiler/ViewModels/MainViewModel.cs:52-63 | The window starts with no projects, no selection and the succeeded status. |
| MainViewModels.MainViewModel.UpdateStatus | MiniWebCompiler/ViewModels/MainViewModel.cs:232-250 | The status is the roll-up of the projects' statuses. When it is failed, the first failed project is selected; otherwise the selection is kept. |
| MainViewModels.MainViewModel.SortProjects | MiniWebCompiler/ViewModels/MainViewModel.cs:254-264 | The projects become the stable sort by lower-cased name: the same projects in name order. The selection is kept. |
| MainViewModels.MainViewModel.Refill | MiniWebCompiler/ViewModels/MainViewModel.cs:258-262 | After clearing the list and adding the ordered projects one by one, the list is exactly those projects. |
| MainViewModels.Indent | MiniWebCompiler/ViewModels/MainViewModel.cs:170 | The indented text starts with four spaces and ends with a line break. Taking the indentation off gives back the text without trailing white space. |
| MainViewModels.StripRollupPrefix | MiniWebCompiler/ViewModels/MainViewModel.cs:192-193 | rollup's version loses its first 15 characters, the prefix, exactly when it starts with "rollup version ". Otherwise it is unchanged. |
| MainViewModels.VersionQueryRewrite | MiniWebCompiler/ViewModels/MainViewModel.cs:319-324 | A version query becomes the quoted full path of the tool followed by "--version" when the application directory holds the tool or its .cmd file. Otherwise it is unchanged. |
| MainViewModels.VersionQueriesSucceed | MiniWebCompiler/ViewModels/MainViewModel.cs:172-177 | None of the six version queries fails in the rewrite. |
| MainViewModels.SplitAtFirstSpace | MiniWebCompiler/ViewModels/MainViewModel.cs:319 | A one-word tool name followed by a space and a rest splits into exactly that name and that rest. |

## Left out

- Process start, `cmd /c`, stream reading and the clean-up regex of the streams: the world's script gives each run's exit, exit code and cleaned output.
- The 10-second and 5-second waits, and the output encodings: a run either exited or did not.
- The about box's own process runs and its report text: the copyright and version attributes, the message box, the cursor and the command's enabled state.
- Regular expressions: their results on single lines are parameters of the world.
- GZip compression and SHA-256: the compressed length is a parameter, and a file's content stands for its hash.
- PathUtil is not part of this model. `PathEquals` is modelled as equality after ASCII lower-casing and '/' to '\'. `GetRelativePath` in `OnAddFile` is replaced by the `relativePaths` parameter.
- Path handling covers Windows separators only. Volume names, "." and ".." segments, invalid characters and normalisation are left out.
- `Directory.CreateDirectory` for the build directory: the file system is a flat map of files.
- The `NO_COLOR` environment variable set before rollup.
- The JSON rewrite inside `PostprocessMapFile` (relative `sources` and `file`, dropped `sourcesContent`): its result is a parameter of the world.
- The JSON serialiser and parser of the project file: `LoadFromFile` receives the parser's result, and `SaveToFile` records the configuration it writes.
- `SaveToFile`'s backup file, its write errors and their message boxes, and the message boxes of `LoadFromFile`'s error paths. Only the outcome of each path is modelled.
- Exception texts are reduced to a fixed description per failure. Exceptions other than a missing or unreadable source map and a bundle too short for the splice are left out.
- Floating-point formatting of sizes is modelled by exact rational rounding, halves away from zero.
- Culture: the number format is the invariant one. String keys are sorted in ordinal order, not by the culture-aware default comparer of `OrderBy`, and lower-casing covers ASCII letters only.
- `DelayedCall`'s half-second delay and the forced compilation it runs later: scheduling is the `compileScheduled` flag. Nothing clears the flag, so it cannot tell a compilation still to come from one that has run.
- The `DispatcherTimer` that refreshes the time texts, the `FileSystemWatcher` set-up, and the dispatcher hand-off in `Watcher_Changed`.
- Property-changed events (`File_PropertyChanged`, `Project_PropertyChanged`): the project calls `UpdateStatus` once after each compilation, and after each file a file event turns pending. In the source every status change within a compilation fires the event. The final status is the same, but a failure that a later rerun request turns back to pending may already have moved the selection to that file; the model keeps the selection then.
- Property setters save through change hooks that fire only on a real change; the model's setters compare before saving.
- Sounds, the error window and message boxes, including the confirmation in `OnRemoveFile` (the `confirmed` parameter) and the file dialog in `OnAddFile`.
- `OnBrowseProjectPath`, `OnAddProject`, `OnRemoveProject`, `OnSettings` and `OnWebsite`: dialogs and settings around calls the model already has.
- The settings-driven start of the main window: its project directories, the selected project and the panel widths with their clamping.
- `HasBaseline` is not defined in Project.cs; the project takes it as a parameter.
- The project's own handler for a missing settings object in `LoadFromFile`.
- `ProjectFiles.ExecCommandLine`: a found tool without arguments would throw in the rewrite. The model starts such a command unchanged, since `CommandsHaveArguments` shows the compiler never builds one.
- Projects.Project.AddFiles: on failure states that a failed file is selected, not that it is the first failed one in the order before the sort.
- Projects.Project.constructor: states the name and files only for a missing project file. `LoadFromFile` states the other cases.
- Projects.Project.InitializeAsync: states of each file only that it is not compiling and is scheduled when pending. `ProjectFiles.ProjectFile.Compile` states the rest of one file's outcome.
- Projects.Project.CompileAll: states of each file only that it is valid and scheduled or asked to rerun when pending. `ProjectFiles.ProjectFile.OnCompile` states the rest of one file's outcome.
- ProjectFiles.ProjectFile.CompileLanguage: states only the pending-or-flagged-failure outcome. `CompileCss`, `CompileJavaScript` and `CompileScss` state what the tools do; the exception log text is left out.
- ProjectFiles.ProjectFile.Compile: for a compilation that was not running, does not repeat the tool runs of each language. `CompileCss`, `CompileJavaScript`, `CompileScss` and `EndCompile` state them.
- ProjectFiles.ProjectFile.CompileJavaScript: on a failed tool run or exception states only the first tool and that the file has not succeeded, not the log or the file system.
- ProjectFiles.ProjectFile.CompileScss: on a failed tool run or exception states only the first tool and that the file has not succeeded, not the log or the file system.
- ProjectFiles.ProjectFile.CompileCss: on a failed run or exception states only the first tool and that the file has not succeeded; `RunCss` states the rest.
- ProjectFiles.ProjectFile.RunJavaScript: on a failed tool run or exception states only the first tool and that the file has not succeeded, not the log or the file system.
- ProjectFiles.ProjectFile.FinishJavaScript: on a failed run or exception states only that the file has not succeeded and that earlier runs are kept.
- ProjectFiles.ProjectFile.RunScss: on a failed tool run or exception states only the first tool and that the file has not succeeded, not the log or the file system.
- TimeExtensions.TotalSecondsTruncated: truncates exactly. The source converts through a double, which above 2^53 ticks (about 28 years) can round up to one second more.
- The about box's `Exec` returning an empty output after a rewrite that throws: `VersionQueriesSucceed` shows the about box never hits that case.
