# web-optimizer-maven-plugin, modelled in Dafny

This project models the two Maven mojos of the plugin:

- **WebOptimizerMavenPlugin** (`web-optimizer`) minifies a configured list of JavaScript files
  with `uglifyjs` and a configured list of CSS files with `cleancss`. Its steps:
  - pick each binary: the configured one, or the tool's name with `.cmd` appended on Windows;
  - skip a language whose source directory does not exist;
  - make sure the output file's directory exists;
  - list the configured inputs that exist, as absolute paths in the configured order;
  - skip the tool when none exists;
  - otherwise run it with the option tokens, `-o <output>` and the inputs.

  A failing JavaScript step ends the execution before the CSS step.
- **WebHelperMavenPlugin** (`web-helper`) works on fixed directories:
  - it creates `target/<finalName>/assets`;
  - it walks `src/main/javascript` and `src/main/css` for `.js` and `.css` files;
  - it sorts the files deepest first, with ties broken by path string;
  - it runs `uglifyjs.cmd` and then `cleancss.cmd` over them, even when no file was found.

Each mojo is a class. The fields the Java code assigns are class fields: the two binaries of
WebOptimizerMavenPlugin. Two further fields record what an execution does:
- `createdDirectories` holds the directories made with `mkdirs`;
- `commandLines` holds the command lines started, in order.

The filesystem and the operating system are a "world" value of oracle functions: `exists`,
`mkdirs`, `isFile`, `Files.walk`, `user.dir`, `os.name`, and how a command line ends.

Every `execute` and `processX` method is proved against a specification function
(`Execution`, `Step`, `JavaScriptCommandLine`, …) on that world. The properties of those
functions are proved as lemmas.

Modules:
- `Common`: wrappers and `String.contains`/`toLowerCase`/`isBlank`.
- `Tokens`: `String.split("[ \t]+")` with Java's limit-0 semantics.
- `Paths`: `java.io.File` paths, `new File(parent, child)`, `getParentFile`, `getAbsolutePath`
  and the comparator.
- `SourceLocator`: `findSourceFiles`.
- `Process`: how a tool run ends and the resulting failure.
- `WebHelper` and `WebOptimizer`: the two mojos.

Where a Java call can throw, the model returns an `Error`. A `null` source-file array or a
`null` parent directory becomes `NullPointer`. An `IOException` or `InterruptedException`
around a run becomes `ToolFailed`.

## Model

| member | source | states |
|---|---|---|
| Common.Contains | src/main/java/org/bitbucket/nelchael/WebOptimizerMavenPlugin.java:150 | `contains` holds exactly when the text occurs at some index |
| Common.EndsWith | src/main/java/org/bitbucket/nelchael/WebHelperMavenPlugin.java:36 | `String.endsWith`: the suffix is no longer than the string and equals its last characters (used by FindSourceFilesSelects) |
| Tokens.Split | src/main/java/org/bitbucket/nelchael/WebOptimizerMavenPlugin.java:120 | `split("[ \t]+")` with limit 0: the pieces between maximal space/tab runs, trailing empty pieces dropped, the whole string when no run occurs (its properties are the lemmas below) |
| Tokens.OptionTokens | src/main/java/org/bitbucket/nelchael/WebOptimizerMavenPlugin.java:119-121 | the arguments an option string adds: none when null or blank, its split otherwise (see OptionTokensMeaning) |
| Tokens.DropTrailingEmpty | src/main/java/org/bitbucket/nelchael/WebOptimizerMavenPlugin.java:120 | split drops exactly the trailing empty pieces: the result is a prefix, it ends in a non-empty piece (or is empty), and every dropped piece is empty |
| Tokens.PiecesHaveNoSeparator | src/main/java/org/bitbucket/nelchael/WebOptimizerMavenPlugin.java:120 | no piece between separator runs contains a space or a tab |
| Tokens.PiecesKeepContent | src/main/java/org/bitbucket/nelchael/WebOptimizerMavenPlugin.java:120 | the pieces, concatenated, are the input with its spaces and tabs removed |
| Tokens.PiecesEmptiness | src/main/java/org/bitbucket/nelchael/WebOptimizerMavenPlugin.java:120 | the first piece is empty iff the input is empty or starts with a separator; no inner piece is empty |
| Tokens.SplitTokensHaveNoSeparator | src/main/java/org/bitbucket/nelchael/WebOptimizerMavenPlugin.java:120 | no token of `split("[ \t]+")` contains a space or a tab |
| Tokens.SplitKeepsContent | src/main/java/org/bitbucket/nelchael/WebOptimizerMavenPlugin.java:120 | the tokens concatenate to the input without its separators: nothing else is lost, added or reordered |
| Tokens.SplitLaterTokensNonEmpty | src/main/java/org/bitbucket/nelchael/WebOptimizerMavenPlugin.java:120 | only the first token can be empty (trailing empty tokens are dropped) |
| Tokens.SplitOfNonBlank | src/main/java/org/bitbucket/nelchael/WebOptimizerMavenPlugin.java:119-120 | a non-blank string yields at least one token, and the first token is "" iff the string starts with a space or tab |
| Tokens.SplitBoundaries | src/main/java/org/bitbucket/nelchael/WebOptimizerMavenPlugin.java:120 | the tokens written with one space between neighbours are the input with every space/tab run collapsed to one space and a run at the end dropped: the split cuts exactly at the runs |
| Tokens.JoinWithSpaceInjective | src/main/java/org/bitbucket/nelchael/WebOptimizerMavenPlugin.java:120 | a non-empty list of separator-free tokens is determined by its space-joined form |
| Tokens.SplitDetermined | src/main/java/org/bitbucket/nelchael/WebOptimizerMavenPlugin.java:120 | the split is the only non-empty list of separator-free tokens whose space-joined form is the collapsed input |
| Tokens.SplitLeadingSpace | src/main/java/org/bitbucket/nelchael/WebOptimizerMavenPlugin.java:120 | " -c" splits into "" and "-c": a leading run yields a leading empty token |
| Tokens.SplitTrailingSpace | src/main/java/org/bitbucket/nelchael/WebOptimizerMavenPlugin.java:120 | "-c " splits into "-c" alone: a trailing run yields no token |
| Tokens.OptionTokensMeaning | src/main/java/org/bitbucket/nelchael/WebOptimizerMavenPlugin.java:119-121 | a null or blank option string adds no argument; otherwise at least one separator-free token, only the first possibly empty, together spelling the options without separators and cut exactly at the runs of spaces and tabs |
| Tokens.DefaultCleanCssOptionsSplit | src/main/java/org/bitbucket/nelchael/WebOptimizerMavenPlugin.java:28 | the default cleancss options "-d" give the single argument "-d" |
| Tokens.DefaultUglifyJsOptionsSplit | src/main/java/org/bitbucket/nelchael/WebOptimizerMavenPlugin.java:24 | the default uglifyjs options "-c -m --stats" give the three arguments -c, -m and --stats |
| Paths.PathString | src/main/java/org/bitbucket/nelchael/WebHelperMavenPlugin.java:98 | `File.toString`: a leading slash for an absolute path, then the names joined by slashes (inverted by NameElementsOfJoinNames, injective by PathStringInjective) |
| Paths.Parent | src/main/java/org/bitbucket/nelchael/WebOptimizerMavenPlugin.java:98 | `getParentFile`: the path without its last name, null for the root or a single relative name (see ParentMeaning) |
| Paths.ParentMeaning | src/main/java/org/bitbucket/nelchael/WebOptimizerMavenPlugin.java:98 | the parent is null exactly for the root or a single relative name; otherwise the parent followed by the last name is the path, equally absolute |
| Paths.AbsolutePath | src/main/java/org/bitbucket/nelchael/WebOptimizerMavenPlugin.java:87 | `getAbsolutePath` gives an absolute path, and an absolute path unchanged |
| Paths.NameElements | src/main/java/org/bitbucket/nelchael/WebOptimizerMavenPlugin.java:85 | normalising a child path yields non-empty, slash-free names; a path not starting with '/' yields at least one name, beginning with its first character |
| Paths.Resolve | src/main/java/org/bitbucket/nelchael/WebHelperMavenPlugin.java:132-134 | `new File(parent, child)` has the parent's names followed by the child's, and stays well formed |
| Paths.NameElementsOfJoinNames | src/main/java/org/bitbucket/nelchael/WebHelperMavenPlugin.java:95-100 | normalising the string form of well-formed names gives the names back |
| Paths.PathStringInjective | src/main/java/org/bitbucket/nelchael/WebHelperMavenPlugin.java:48 | two well-formed paths with the same string form are the same path |
| Paths.CompareStrings | src/main/java/org/bitbucket/nelchael/WebHelperMavenPlugin.java:48 | `String.compareTo`: the difference of the first differing characters, else of the lengths (its order properties are the lemmas below) |
| Paths.ComparePaths | src/main/java/org/bitbucket/nelchael/WebHelperMavenPlugin.java:43-49 | the sort comparator: deeper paths first, equal depths by `compareTo` of the path strings |
| Paths.CompareStringsAntisymmetric | src/main/java/org/bitbucket/nelchael/WebHelperMavenPlugin.java:48 | `compareTo` with the arguments swapped gives the negated result |
| Paths.CompareStringsZero | src/main/java/org/bitbucket/nelchael/WebHelperMavenPlugin.java:48 | `compareTo` is zero iff the strings are equal |
| Paths.CompareStringsTransitive | src/main/java/org/bitbucket/nelchael/WebHelperMavenPlugin.java:48 | `compareTo` is transitive on "less than" |
| Paths.ComparePathsAntisymmetric | src/main/java/org/bitbucket/nelchael/WebHelperMavenPlugin.java:43-49 | the depth-then-path comparator is antisymmetric |
| Paths.ComparePathsZero | src/main/java/org/bitbucket/nelchael/WebHelperMavenPlugin.java:43-49 | the comparator reports equal iff same depth and same string, and for well-formed paths iff the same path |
| Paths.ComparePathsTransitive | src/main/java/org/bitbucket/nelchael/WebHelperMavenPlugin.java:43-49 | the comparator is transitive, strictly and non-strictly, so the sort is well defined |
| SourceLocator.Matching | src/main/java/org/bitbucket/nelchael/WebHelperMavenPlugin.java:33-37 | the stream filter: walked paths that are regular files and end with the extension, in walk order (see MatchingCounts) |
| SourceLocator.Insert | src/main/java/org/bitbucket/nelchael/WebHelperMavenPlugin.java:43-50 | places a path in front of the first element it does not follow under the comparator (see InsertPermutation, InsertSorted) |
| SourceLocator.Sort | src/main/java/org/bitbucket/nelchael/WebHelperMavenPlugin.java:43-50 | `sorted` with the comparator, as an insertion sort (see SortSortedPermutation, SortedUnique) |
| SourceLocator.FindSourceFiles | src/main/java/org/bitbucket/nelchael/WebHelperMavenPlugin.java:32-51 | the walked regular files ending with the extension, sorted by the comparator (characterised by the FindSourceFiles lemmas below) |
| SourceLocator.InsertPermutation | src/main/java/org/bitbucket/nelchael/WebHelperMavenPlugin.java:43-50 | inserting adds exactly the one element |
| SourceLocator.InsertSorted | src/main/java/org/bitbucket/nelchael/WebHelperMavenPlugin.java:43-50 | inserting into a sorted list keeps it sorted |
| SourceLocator.SortSortedPermutation | src/main/java/org/bitbucket/nelchael/WebHelperMavenPlugin.java:43-50 | `sorted` yields a sorted permutation of its input |
| SourceLocator.SortedUnique | src/main/java/org/bitbucket/nelchael/WebHelperMavenPlugin.java:43-50 | two sorted lists of the same well-formed paths are equal: there is one sorted order |
| SourceLocator.MatchingCounts | src/main/java/org/bitbucket/nelchael/WebHelperMavenPlugin.java:33-37 | the filter keeps every matching walked path as often as it was walked and drops every other |
| SourceLocator.FindSourceFilesSelects | src/main/java/org/bitbucket/nelchael/WebHelperMavenPlugin.java:33-37 | a path is in the result iff it was walked, is a regular file and its string ends with the extension |
| SourceLocator.FindSourceFilesPermutation | src/main/java/org/bitbucket/nelchael/WebHelperMavenPlugin.java:33-50 | the result is a permutation of the filtered walk: nothing dropped or duplicated |
| SourceLocator.FindSourceFilesOrder | src/main/java/org/bitbucket/nelchael/WebHelperMavenPlugin.java:46-48 | a deeper path precedes a shallower one; paths of equal depth ascend by `compareTo` |
| SourceLocator.FindSourceFilesIgnoresWalkOrder | src/main/java/org/bitbucket/nelchael/WebHelperMavenPlugin.java:32-50 | the order in which the walk visits the files does not change the result |
| SourceLocator.DeeperFileFirst | src/main/java/org/bitbucket/nelchael/WebHelperMavenPlugin.java:46-48 | /p/a/b.js is listed before /p/c.js although the walk met it second |
| Process.RunVerdict | src/main/java/org/bitbucket/nelchael/WebOptimizerMavenPlugin.java:68-79 | a run succeeds iff the tool exited with 0; a non-zero exit fails with the command and the exit code; an I/O failure fails with the command |
| Process.RunVerdictIgnoresOutput | src/main/java/org/bitbucket/nelchael/WebHelperMavenPlugin.java:74-80 | the verdict does not depend on what the tool printed |
| WebHelper.PathStrings | src/main/java/org/bitbucket/nelchael/WebHelperMavenPlugin.java:95-100 | the files mapped to `toString`, one string per file, in order |
| WebHelper.OutputDirectory | src/main/java/org/bitbucket/nelchael/WebHelperMavenPlugin.java:134 | `new File(basedir, "target/" + finalName + "/assets")` (see OutputDirectoryAsWritten) |
| WebHelper.UglifyJsArguments | src/main/java/org/bitbucket/nelchael/WebHelperMavenPlugin.java:94-104 | the found files as strings, then -c -m -o and outputDirectory/app.js (BuildUglifyJsArguments is proved to build it) |
| WebHelper.CleanCssArguments | src/main/java/org/bitbucket/nelchael/WebHelperMavenPlugin.java:116-127 | --skip-rebase unless rebasing, -o outputDirectory/app.css, then the found files (BuildCleanCssArguments is proved to build it) |
| WebHelper.JavaScriptCommandLine | src/main/java/org/bitbucket/nelchael/WebHelperMavenPlugin.java:86-105 | a failed walk is a discovery failure; otherwise uglifyjs.cmd followed by its arguments over the sorted .js files |
| WebHelper.CssCommandLine | src/main/java/org/bitbucket/nelchael/WebHelperMavenPlugin.java:108-128 | a failed walk is a discovery failure; otherwise cleancss.cmd followed by its arguments over the sorted .css files |
| WebHelper.Execution | src/main/java/org/bitbucket/nelchael/WebHelperMavenPlugin.java:131-148 | the report of `execute`: output directory made first, then uglifyjs, then cleancss after a zero exit (its properties are the lemmas below) |
| WebHelper.BuildUglifyJsArguments | src/main/java/org/bitbucket/nelchael/WebHelperMavenPlugin.java:94-104 | the sorted inputs' strings come first, in order, followed by exactly -c -m -o and the output directory's app.js |
| WebHelper.BuildCleanCssArguments | src/main/java/org/bitbucket/nelchael/WebHelperMavenPlugin.java:116-127 | element 0 is --skip-rebase iff rebasing is off; then -o and app.css, then the inputs in order; length is inputs + 2, + 1 without rebasing |
| WebHelper.WebHelperMojo.RunProcess | src/main/java/org/bitbucket/nelchael/WebHelperMavenPlugin.java:53-84 | the command line started is the command followed by the arguments, and the verdict is RunVerdict of how it ended (interruption included) |
| WebHelper.WebHelperMojo.ProcessJavaScript | src/main/java/org/bitbucket/nelchael/WebHelperMavenPlugin.java:86-106 | a failed walk fails without a run; otherwise uglifyjs.cmd runs once over the found files |
| WebHelper.WebHelperMojo.ProcessCss | src/main/java/org/bitbucket/nelchael/WebHelperMavenPlugin.java:108-129 | a failed walk fails without a run; otherwise cleancss.cmd runs once over the found files |
| WebHelper.WebHelperMojo.Execute | src/main/java/org/bitbucket/nelchael/WebHelperMavenPlugin.java:131-148 | the directories created, the command lines started and the outcome are those of `Execution` |
| WebHelper.OutputDirectoryFirst | src/main/java/org/bitbucket/nelchael/WebHelperMavenPlugin.java:140-144 | a missing output directory that cannot be created fails naming it, with no tool run; otherwise it exists afterwards |
| WebHelper.JavaScriptBeforeCss | src/main/java/org/bitbucket/nelchael/WebHelperMavenPlugin.java:146-147 | at most two runs, uglifyjs.cmd first and cleancss.cmd second, and cleancss only after uglifyjs exited with 0 |
| WebHelper.SucceedsIffBothToolsExitZero | src/main/java/org/bitbucket/nelchael/WebHelperMavenPlugin.java:131-148 | the execution succeeds iff both tools ran and both exited with 0 |
| WebHelper.UglifyJsFailureEndsExecution | src/main/java/org/bitbucket/nelchael/WebHelperMavenPlugin.java:74-76 | a failing uglifyjs run is the only run and its verdict is the execution's outcome; a non-zero exit fails naming uglifyjs.cmd and the exit code |
| WebHelper.CssRunsAfterUglifyJsPasses | src/main/java/org/bitbucket/nelchael/WebHelperMavenPlugin.java:146-147 | once the output directory exists, both walks succeed and uglifyjs exits with 0, cleancss runs: the runs are both command lines and the outcome is cleancss's verdict |
| WebHelper.UnwalkableDirectoryFails | src/main/java/org/bitbucket/nelchael/WebHelperMavenPlugin.java:88-114 | an unwalkable JavaScript directory fails before any run; an unwalkable CSS directory fails after a passing uglifyjs run, naming the language |
| WebHelper.ToolRunsWithoutInputs | src/main/java/org/bitbucket/nelchael/WebHelperMavenPlugin.java:94-105 | with no .js file found, uglifyjs.cmd still runs, with only -c -m -o app.js |
| WebHelper.CleanCssDefaultScenario | src/main/java/org/bitbucket/nelchael/WebHelperMavenPlugin.java:116-128 | without rebasing and with one input, cleancss gets --skip-rebase -o app.css and the input |
| WebHelper.JavaScriptDirectoryAsWritten | src/main/java/org/bitbucket/nelchael/WebHelperMavenPlugin.java:132 | the JavaScript directory's names are those of `new File(basedir, "src/main/javascript")` |
| WebHelper.CssDirectoryAsWritten | src/main/java/org/bitbucket/nelchael/WebHelperMavenPlugin.java:133 | the CSS directory's names are those of `new File(basedir, "src/main/css")` |
| WebHelper.OutputFilesAsWritten | src/main/java/org/bitbucket/nelchael/WebHelperMavenPlugin.java:104 | the output files are `new File(outputDirectory, "app.js")` and `new File(outputDirectory, "app.css")` |
| WebHelper.OutputDirectoryAsWritten | src/main/java/org/bitbucket/nelchael/WebHelperMavenPlugin.java:134 | for a plain final name the output directory is the base directory followed by target, the name and assets |
| WebOptimizer.IsWindows | src/main/java/org/bitbucket/nelchael/WebOptimizerMavenPlugin.java:150 | os.name lower-cased contains "windows" |
| WebOptimizer.ResolveBinary | src/main/java/org/bitbucket/nelchael/WebOptimizerMavenPlugin.java:149-162 | the configured binary, else the tool name with .cmd on Windows (see DefaultBinaries) |
| WebOptimizer.AbsoluteString | src/main/java/org/bitbucket/nelchael/WebOptimizerMavenPlugin.java:87 | `getAbsolutePath` rendered as a string: relative paths resolved against user.dir |
| WebOptimizer.InputFiles | src/main/java/org/bitbucket/nelchael/WebOptimizerMavenPlugin.java:82-94 | the absolute paths of the configured names that exist, in order (see the InputFiles lemmas) |
| WebOptimizer.InputFilesAppend | src/main/java/org/bitbucket/nelchael/WebOptimizerMavenPlugin.java:82-94 | the input list of concatenated names is the concatenation of their input lists: configured order is kept |
| WebOptimizer.InputFilesMembership | src/main/java/org/bitbucket/nelchael/WebOptimizerMavenPlugin.java:82-94 | a string is listed iff it is the absolute path of a configured file that exists: missing files are skipped, not errors |
| WebOptimizer.InputFilesAbsolute | src/main/java/org/bitbucket/nelchael/WebOptimizerMavenPlugin.java:86-87 | every listed entry is an absolute path, and there are no more entries than configured names |
| WebOptimizer.InputFilesAllPresent | src/main/java/org/bitbucket/nelchael/WebOptimizerMavenPlugin.java:84-88 | when every configured file exists, each is listed at its own position |
| WebOptimizer.CheckOutput | src/main/java/org/bitbucket/nelchael/WebOptimizerMavenPlugin.java:96-106 | the parent of the output file is made if missing; the absolute output path or the failure, with the directories created (see CheckOutputMeaning) |
| WebOptimizer.CheckOutputMeaning | src/main/java/org/bitbucket/nelchael/WebOptimizerMavenPlugin.java:96-106 | success iff the output file has a parent that exists or can be made; on success the parent exists and the absolute output path is returned; a failure creates nothing |
| WebOptimizer.PlainOutputNameParent | src/main/java/org/bitbucket/nelchael/WebOptimizerMavenPlugin.java:97-98 | for a plain output name the directory checked is the output directory itself |
| WebOptimizer.ToolArguments | src/main/java/org/bitbucket/nelchael/WebOptimizerMavenPlugin.java:118-124 | option tokens, -o and the output file, then the inputs (see ToolArgumentsRoundTrip) |
| WebOptimizer.ToolArgumentsRoundTrip | src/main/java/org/bitbucket/nelchael/WebOptimizerMavenPlugin.java:118-124 | the argument vector reads back as the option tokens, the output file after the last -o, and the inputs in order |
| WebOptimizer.BuildToolArguments | src/main/java/org/bitbucket/nelchael/WebOptimizerMavenPlugin.java:118-124 | the appended list is the option tokens, then -o and the output file, then the inputs |
| WebOptimizer.WebOptimizerMojo.RunProcess | src/main/java/org/bitbucket/nelchael/WebOptimizerMavenPlugin.java:45-80 | the command line started is the command followed by the arguments, and the verdict is RunVerdict of how it ended |
| WebOptimizer.WebOptimizerMojo.MakeListOfInputFiles | src/main/java/org/bitbucket/nelchael/WebOptimizerMavenPlugin.java:82-94 | a null name array fails; otherwise the loop returns InputFiles of the names |
| WebOptimizer.WebOptimizerMojo.CheckOutputDirectory | src/main/java/org/bitbucket/nelchael/WebOptimizerMavenPlugin.java:96-106 | the result and the directories created are those of CheckOutput |
| WebOptimizer.WebOptimizerMojo.ProcessSources | src/main/java/org/bitbucket/nelchael/WebOptimizerMavenPlugin.java:108-126 | the result, directories and command lines are those of `Step` |
| WebOptimizer.WebOptimizerMojo.ProcessJavaScript | src/main/java/org/bitbucket/nelchael/WebOptimizerMavenPlugin.java:108-126 | the JavaScript step with the uglifyjs binary, options, directory, files and output name |
| WebOptimizer.WebOptimizerMojo.ProcessCss | src/main/java/org/bitbucket/nelchael/WebOptimizerMavenPlugin.java:128-146 | the CSS step with the cleancss binary, options, directory, files and output name |
| WebOptimizer.WebOptimizerMojo.ResolveBinaries | src/main/java/org/bitbucket/nelchael/WebOptimizerMavenPlugin.java:149-162 | a configured binary is kept; an unset one becomes the tool's name, with .cmd on Windows |
| WebOptimizer.WebOptimizerMojo.Execute | src/main/java/org/bitbucket/nelchael/WebOptimizerMavenPlugin.java:148-174 | binaries resolved, and directories, command lines and outcome those of `Execution` |
| WebOptimizer.Step | src/main/java/org/bitbucket/nelchael/WebOptimizerMavenPlugin.java:108-146 | one processX: check the output, list the inputs, skip without inputs, else run the tool (see StepMeaning and StepWellShaped) |
| WebOptimizer.JavaScriptPart | src/main/java/org/bitbucket/nelchael/WebOptimizerMavenPlugin.java:164-168 | processJavaScript when the JavaScript source directory exists, otherwise a skip that passes without a run (see PresentJavaScriptDirectoryRunsStep, MissingSourceDirectorySkipsTool) |
| WebOptimizer.CssPart | src/main/java/org/bitbucket/nelchael/WebOptimizerMavenPlugin.java:169-173 | processCss when the CSS source directory exists, otherwise a skip that passes without a run (see CssRunsAfterJavaScriptPasses, MissingSourceDirectorySkipsTool) |
| WebOptimizer.Execution | src/main/java/org/bitbucket/nelchael/WebOptimizerMavenPlugin.java:164-173 | the JavaScript part when its directory exists, then the CSS part when its directory exists and the JavaScript part passed (see the Execution lemmas) |
| WebOptimizer.StepMeaning | src/main/java/org/bitbucket/nelchael/WebOptimizerMavenPlugin.java:108-126 | a failed output check is the step's failure and a null file array fails with NullPointer, both without a run; with no existing input it passes without a run; otherwise exactly one run of the binary with ToolArguments over the existing inputs, whose verdict is the outcome, and whose arguments read back as tokens, absolute output and inputs |
| WebOptimizer.MissingSourceDirectorySkipsTool | src/main/java/org/bitbucket/nelchael/WebOptimizerMavenPlugin.java:164-173 | a missing JavaScript directory leaves only the CSS part; a missing CSS directory leaves only the JavaScript part |
| WebOptimizer.JavaScriptFailureStopsCss | src/main/java/org/bitbucket/nelchael/WebOptimizerMavenPlugin.java:164-166 | a failing JavaScript part is the whole execution: cleancss never starts |
| WebOptimizer.PresentJavaScriptDirectoryRunsStep | src/main/java/org/bitbucket/nelchael/WebOptimizerMavenPlugin.java:164-165 | with the JavaScript source directory present, processJavaScript is what the JavaScript part does |
| WebOptimizer.CssRunsAfterJavaScriptPasses | src/main/java/org/bitbucket/nelchael/WebOptimizerMavenPlugin.java:169-170 | after a passing JavaScript part, with the CSS source directory present, cleancss's step runs: its runs follow the JavaScript part's and its outcome is the execution's |
| WebOptimizer.JavaScriptOutputCheckFailureStops | src/main/java/org/bitbucket/nelchael/WebOptimizerMavenPlugin.java:100-103 | a failed JavaScript output check fails the whole execution with no run; a missing directory that cannot be made fails naming it |
| WebOptimizer.CssOutputCheckFailureStops | src/main/java/org/bitbucket/nelchael/WebOptimizerMavenPlugin.java:129 | after a passing JavaScript part, a failed CSS output check fails the execution and cleancss does not start |
| WebOptimizer.ExecutionRunOrder | src/main/java/org/bitbucket/nelchael/WebOptimizerMavenPlugin.java:164-173 | at most two runs: the JavaScript part's run first, then uglifyjs before cleancss |
| WebOptimizer.ExecutionPassMeansExitZero | src/main/java/org/bitbucket/nelchael/WebOptimizerMavenPlugin.java:164-173 | an execution succeeds only if every tool it started exited with 0 |
| WebOptimizer.ExecutionExitCodeFailure | src/main/java/org/bitbucket/nelchael/WebOptimizerMavenPlugin.java:68-70 | an exit-code failure names the binary of the last run and that run's exit code |
| WebOptimizer.StepWellShaped | src/main/java/org/bitbucket/nelchael/WebOptimizerMavenPlugin.java:108-126 | a step starts at most its own binary, once; it succeeds only after a zero exit; an exit-code failure carries that run's binary and code |
| WebOptimizer.DefaultBinaries | src/main/java/org/bitbucket/nelchael/WebOptimizerMavenPlugin.java:149-162 | unset binaries default to uglifyjs(.cmd) and cleancss(.cmd) by platform |
| WebOptimizer.WindowsDetection | src/main/java/org/bitbucket/nelchael/WebOptimizerMavenPlugin.java:150 | "Windows 10" and "WINDOWS" count as Windows, "Linux" does not |
| WebOptimizer.DefaultSettingsMeaning | src/main/java/org/bitbucket/nelchael/WebOptimizerMavenPlugin.java:24-43 | with default parameters cleancss gets only -d, and both output files sit directly in target/<finalName> |
| WebOptimizer.DefaultUglifyJsOptions | src/main/java/org/bitbucket/nelchael/WebOptimizerMavenPlugin.java:24-25 | with default parameters uglifyjs gets -c, -m and --stats |

## Left out

- Process spawning, stream handling and the busy-wait read loop are not modelled. Also left
  out: a stall when `waitFor` runs before the output is drained. How a run ends is an input.
- Wall-clock timing and all logging are left out: they have no effect on results.
- The real filesystem is an oracle: `exists`, `mkdirs`, `isFile`, `Files.walk` and `user.dir`.
  - The model tracks only the directory `mkdirs` was asked for. Ancestors it creates as a
    side effect do not count as existing later.
  - A walk fails only as a whole (`IOException` from `Files.walk`). An `UncheckedIOException`
    raised while the stream is consumed is not modelled.
- Paths.ComparePaths: `File.compareTo` is modelled for Unix. Windows compares case-insensitively.
- Paths.CompareStrings: compares Unicode scalar values, whereas Java compares UTF-16 code units.
  The two orders differ only for characters outside the Basic Multilingual Plane.
- Paths.Depth: an empty path has 0 names here but a name count of 1 in Java. Walks never
  produce one.
- Common.ToLowerAscii: lower-cases ASCII letters only, not the default locale's rules.
- Common.IsBlank: ASCII whitespace only; `Character.isWhitespace` also accepts some Unicode
  spaces.
- Maven parameter injection and the `MavenProject` object are not modelled.
  - Parameters are plain values.
  - `DefaultSettings` states the annotated defaults.
  - Parameters with defaults (output names, directories) are never null.
- Process.RunVerdict: the exception message text ("… failed with exit code n") is
  represented by the structured `Error` fields (command, exit code), not as a string.
- The Java regular-expression engine is not modelled. The split is written directly for
  runs of space and tab.
