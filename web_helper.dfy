/**
 * WebHelperMavenPlugin: creates <basedir>/target/<finalName>/assets, then minifies every .js
 * file under src/main/javascript into app.js with uglifyjs.cmd and every .css file under
 * src/main/css into app.css with cleancss.cmd, in that order.
 */
module WebHelper {
  import opened Common
  import opened Paths
  import opened SourceLocator
  import opened Process

  /** The filesystem and the operating system as the mojo sees them. */
  datatype HelperWorld = HelperWorld(
    fileExists: Path -> bool,           // File.exists before the mojo runs
    mkdirs: Path -> bool,               // whether File.mkdirs succeeds
    isFile: Path -> bool,               // File.isFile
    walk: Path -> Option<seq<Path>>,    // Files.walk of a root; None when it throws IOException
    run: seq<string> -> ProcessOutcome) // how a command line ends

  const UglifyJsCommand: string := "uglifyjs.cmd"
  const CleanCssCommand: string := "cleancss.cmd"

  /** The directories and files the mojo fixes, as name elements below their parent: new
      File(basedir, "src/main/javascript") and so on (see JavaScriptDirectoryAsWritten,
      CssDirectoryAsWritten and OutputFilesAsWritten). */
  const JavaScriptSources: seq<string> := ["src", "main", "javascript"]
  const CssSources: seq<string> := ["src", "main", "css"]
  const JavaScriptOutput: seq<string> := ["app.js"]
  const CssOutput: seq<string> := ["app.css"]

  function JavaScriptDirectory(basedir: Path): Path {
    Append(basedir, JavaScriptSources)
  }

  function CssDirectory(basedir: Path): Path {
    Append(basedir, CssSources)
  }

  function OutputDirectory(basedir: Path, finalName: string): Path {
    Resolve(basedir, "target/" + finalName + "/assets")
  }

  /** The files as strings (File.toString), in order. */
  function PathStrings(files: seq<Path>): (r: seq<string>)
    ensures |r| == |files|
  {
    seq(|files|, i requires 0 <= i < |files| => PathString(files[i]))
  }

  /** processJavaScript's arguments: the inputs first, then -c -m -o <output>/app.js. */
  function UglifyJsArguments(inputs: seq<Path>, outputDirectory: Path): seq<string> {
    PathStrings(inputs) + ["-c", "-m", "-o", PathString(Append(outputDirectory, JavaScriptOutput))]
  }

  /** processCss's arguments: --skip-rebase unless rebasing, then -o <output>/app.css, then
      the inputs. */
  function CleanCssArguments(cssRebase: bool, inputs: seq<Path>, outputDirectory: Path): seq<string> {
    (if cssRebase then [] else ["--skip-rebase"])
    + ["-o", PathString(Append(outputDirectory, CssOutput))]
    + PathStrings(inputs)
  }

  /** processJavaScript builds its argument list by appending. */
  method BuildUglifyJsArguments(inputs: seq<Path>, outputDirectory: Path) returns (args: seq<string>)
    ensures |args| == |inputs| + 4
    ensures forall i :: 0 <= i < |inputs| ==> args[i] == PathString(inputs[i])
    ensures args[|inputs|..] == ["-c", "-m", "-o", PathString(Append(outputDirectory, JavaScriptOutput))]
    ensures args == UglifyJsArguments(inputs, outputDirectory)
  {
    args := [];
    args := args + PathStrings(inputs);
    args := args + ["-c"];
    args := args + ["-m"];
    args := args + ["-o"];
    args := args + [PathString(Append(outputDirectory, JavaScriptOutput))];
  }

  /** processCss builds its argument list by appending. */
  method BuildCleanCssArguments(cssRebase: bool, inputs: seq<Path>, outputDirectory: Path) returns (args: seq<string>)
    ensures |args| == |inputs| + 2 + (if cssRebase then 0 else 1)
    ensures args[0] == "--skip-rebase" <==> !cssRebase
    ensures var k := if cssRebase then 0 else 1;
            args[k..k + 2] == ["-o", PathString(Append(outputDirectory, CssOutput))]
            && forall i :: 0 <= i < |inputs| ==> args[k + 2 + i] == PathString(inputs[i])
    ensures args == CleanCssArguments(cssRebase, inputs, outputDirectory)
  {
    var outputFile := PathString(Append(outputDirectory, CssOutput));
    args := [];
    if !cssRebase {
      args := args + ["--skip-rebase"];
    }
    var k := |args|;
    args := args + ["-o"];
    args := args + [outputFile];
    var names := PathStrings(inputs);
    args := args + names;
    assert args[k] == "-o";
    assert "-o" != "--skip-rebase" by { assert |"-o"| != |"--skip-rebase"|; }
    assert args[k + 2..] == names;
  }

  /** The command line processJavaScript starts, or why it starts none. */
  function JavaScriptCommandLine(world: HelperWorld, inputDirectory: Path, outputDirectory: Path): Result<seq<string>, Error> {
    match world.walk(inputDirectory)
    case None => Failure(SourceDiscoveryFailed(JavaScript))
    case Some(walk) =>
      Success([UglifyJsCommand] + UglifyJsArguments(FindSourceFiles(walk, world.isFile, ".js"), outputDirectory))
  }

  /** The command line processCss starts, or why it starts none. */
  function CssCommandLine(world: HelperWorld, cssRebase: bool, inputDirectory: Path, outputDirectory: Path): Result<seq<string>, Error> {
    match world.walk(inputDirectory)
    case None => Failure(SourceDiscoveryFailed(Css))
    case Some(walk) =>
      Success([CleanCssCommand] + CleanCssArguments(cssRebase, FindSourceFiles(walk, world.isFile, ".css"), outputDirectory))
  }

  /** The cleancss step, reached once uglifyjs has run the command line `js` and succeeded. */
  function CleanCssAfterUglifyJs(world: HelperWorld, basedir: Path, cssRebase: bool, out: Path, created: set<Path>, js: seq<string>): Report {
    match CssCommandLine(world, cssRebase, CssDirectory(basedir), out)
    case Failure(e) => Report(created, [js], Fail(e))
    case Success(css) => Report(created, [js, css], RunVerdict(CleanCssCommand, world.run(css)))
  }

  /** Both tool steps, once the output directory `out` exists. */
  function ToolSteps(world: HelperWorld, basedir: Path, cssRebase: bool, out: Path, created: set<Path>): Report {
    match JavaScriptCommandLine(world, JavaScriptDirectory(basedir), out)
    case Failure(e) => Report(created, [], Fail(e))
    case Success(js) =>
      var verdict := RunVerdict(UglifyJsCommand, world.run(js));
      if verdict.Fail? then Report(created, [js], verdict)
      else CleanCssAfterUglifyJs(world, basedir, cssRebase, out, created, js)
  }

  /** Everything one `execute` does, starting from the directories `created` so far. */
  function Execution(world: HelperWorld, basedir: Path, finalName: string, cssRebase: bool, created: set<Path>): Report {
    var out := OutputDirectory(basedir, finalName);
    var present := world.fileExists(out) || out in created;
    if !present && !world.mkdirs(out) then
      Report(created, [], Fail(DirectoryCreationFailed(PathString(out))))
    else
      ToolSteps(world, basedir, cssRebase, out, if present then created else created + {out})
  }

  class WebHelperMojo {
    const basedir: Path        // project.getBasedir()
    const finalName: string    // project.getBuild().getFinalName()
    const cssRebase: bool
    const world: HelperWorld
    /** Directories this mojo has created with mkdirs. */
    var createdDirectories: set<Path>
    /** The command lines this mojo has started, in order. */
    var commandLines: seq<seq<string>>

    constructor (basedir: Path, finalName: string, cssRebase: bool, world: HelperWorld)
      ensures this.basedir == basedir && this.finalName == finalName
      ensures this.cssRebase == cssRebase && this.world == world
      ensures createdDirectories == {} && commandLines == []
    {
      this.basedir := basedir;
      this.finalName := finalName;
      this.cssRebase := cssRebase;
      this.world := world;
      createdDirectories := {};
      commandLines := [];
    }

    method RunProcess(command: string, arguments: seq<string>) returns (r: Outcome<Error>)
      modifies this`commandLines
      ensures commandLines == old(commandLines) + [[command] + arguments]
      ensures r == RunVerdict(command, world.run([command] + arguments))
    {
      var finalCommandLine := [command] + arguments;
      commandLines := commandLines + [finalCommandLine];
      r := RunVerdict(command, world.run(finalCommandLine));
    }

    method ProcessJavaScript(inputDirectory: Path, outputDirectory: Path) returns (r: Outcome<Error>)
      modifies this`commandLines
      ensures match JavaScriptCommandLine(world, inputDirectory, outputDirectory)
              case Failure(e) => r == Fail(e) && commandLines == old(commandLines)
              case Success(cl) => r == RunVerdict(UglifyJsCommand, world.run(cl))
                                  && commandLines == old(commandLines) + [cl]
    {
      var walk := world.walk(inputDirectory);
      if walk.None? {
        return Fail(SourceDiscoveryFailed(JavaScript));
      }
      var inputs := FindSourceFiles(walk.value, world.isFile, ".js");
      var args := BuildUglifyJsArguments(inputs, outputDirectory);
      r := RunProcess(UglifyJsCommand, args);
    }

    method ProcessCss(inputDirectory: Path, outputDirectory: Path) returns (r: Outcome<Error>)
      modifies this`commandLines
      ensures match CssCommandLine(world, cssRebase, inputDirectory, outputDirectory)
              case Failure(e) => r == Fail(e) && commandLines == old(commandLines)
              case Success(cl) => r == RunVerdict(CleanCssCommand, world.run(cl))
                                  && commandLines == old(commandLines) + [cl]
    {
      var walk := world.walk(inputDirectory);
      if walk.None? {
        return Fail(SourceDiscoveryFailed(Css));
      }
      var inputs := FindSourceFiles(walk.value, world.isFile, ".css");
      var args := BuildCleanCssArguments(cssRebase, inputs, outputDirectory);
      r := RunProcess(CleanCssCommand, args);
    }

    method Execute() returns (r: Outcome<Error>)
      modifies this`createdDirectories, this`commandLines
      ensures var report := Execution(world, basedir, finalName, cssRebase, old(createdDirectories));
              && createdDirectories == report.created
              && commandLines == old(commandLines) + report.runs
              && r == report.outcome
    {
      var javaScriptInputDirectory := JavaScriptDirectory(basedir);
      var cssInputDirectory := CssDirectory(basedir);
      var outputDirectory := OutputDirectory(basedir, finalName);

      if !(world.fileExists(outputDirectory) || outputDirectory in createdDirectories) {
        if !world.mkdirs(outputDirectory) {
          return Fail(DirectoryCreationFailed(PathString(outputDirectory)));
        }
        createdDirectories := createdDirectories + {outputDirectory};
      }

      r := ProcessJavaScript(javaScriptInputDirectory, outputDirectory);
      if r.Fail? {
        return;
      }
      r := ProcessCss(cssInputDirectory, outputDirectory);
    }
  }

  // ---------------------------------------------------------------------------------------
  // What an execution promises.

  /** The output directory is made before anything else: when it is missing and cannot be
      created, the mojo fails naming it and starts no tool; otherwise it exists afterwards. */
  lemma OutputDirectoryFirst(world: HelperWorld, basedir: Path, finalName: string, cssRebase: bool, created: set<Path>)
    ensures var out := OutputDirectory(basedir, finalName);
            var report := Execution(world, basedir, finalName, cssRebase, created);
            if !(world.fileExists(out) || out in created) && !world.mkdirs(out) then
              report.runs == [] && report.outcome == Fail(DirectoryCreationFailed(PathString(out)))
            else
              world.fileExists(out) || out in report.created
  {
  }

  /** uglifyjs runs first and cleancss second; cleancss runs only after uglifyjs succeeded. */
  lemma JavaScriptBeforeCss(world: HelperWorld, basedir: Path, finalName: string, cssRebase: bool, created: set<Path>)
    ensures var runs := Execution(world, basedir, finalName, cssRebase, created).runs;
            && |runs| <= 2
            && (|runs| >= 1 ==> runs[0][0] == UglifyJsCommand)
            && (|runs| == 2 ==> runs[1][0] == CleanCssCommand
                                && world.run(runs[0]).Exited? && world.run(runs[0]).exitCode == 0)
  {
  }

  /** The execution succeeds exactly when both tools ran and both exited with 0, whatever
      they printed. */
  lemma SucceedsIffBothToolsExitZero(world: HelperWorld, basedir: Path, finalName: string, cssRebase: bool, created: set<Path>)
    ensures var report := Execution(world, basedir, finalName, cssRebase, created);
            report.outcome.Pass? <==>
              && |report.runs| == 2
              && (forall i :: 0 <= i < 2 ==> world.run(report.runs[i]).Exited? && world.run(report.runs[i]).exitCode == 0)
  {
    var report := Execution(world, basedir, finalName, cssRebase, created);
    var out := OutputDirectory(basedir, finalName);
    var present := world.fileExists(out) || out in created;
    var jsLine := JavaScriptCommandLine(world, JavaScriptDirectory(basedir), out);
    var cssLine := CssCommandLine(world, cssRebase, CssDirectory(basedir), out);
    if (present || world.mkdirs(out)) && jsLine.Success? && RunVerdict(UglifyJsCommand, world.run(jsLine.value)).Pass? {
      var created' := if present then created else created + {out};
      assert report == CleanCssAfterUglifyJs(world, basedir, cssRebase, out, created', jsLine.value);
      if cssLine.Success? {
        assert report.runs == [jsLine.value, cssLine.value];
        assert report.runs[0] == jsLine.value && report.runs[1] == cssLine.value;
        assert report.outcome == RunVerdict(CleanCssCommand, world.run(cssLine.value));
      }
    }
  }

  /** Once the output directory exists or is made, both walks succeed and uglifyjs exits with
      0, cleancss does run: the runs are the two command lines, and the outcome is cleancss's
      verdict. */
  lemma CssRunsAfterUglifyJsPasses(world: HelperWorld, basedir: Path, finalName: string, cssRebase: bool, created: set<Path>)
    requires var out := OutputDirectory(basedir, finalName);
             world.fileExists(out) || out in created || world.mkdirs(out)
    requires world.walk(JavaScriptDirectory(basedir)).Some? && world.walk(CssDirectory(basedir)).Some?
    requires var js := JavaScriptCommandLine(world, JavaScriptDirectory(basedir), OutputDirectory(basedir, finalName));
             world.run(js.value).Exited? && world.run(js.value).exitCode == 0
    ensures var out := OutputDirectory(basedir, finalName);
            var js := JavaScriptCommandLine(world, JavaScriptDirectory(basedir), out).value;
            var css := CssCommandLine(world, cssRebase, CssDirectory(basedir), out).value;
            var report := Execution(world, basedir, finalName, cssRebase, created);
            report.runs == [js, css] && report.outcome == RunVerdict(CleanCssCommand, world.run(css))
  {
  }

  /** When uglifyjs fails, the execution ends with its failure (naming uglifyjs.cmd and, for a
      non-zero exit, the exit code) and cleancss is not started. */
  lemma UglifyJsFailureEndsExecution(world: HelperWorld, basedir: Path, finalName: string, cssRebase: bool, created: set<Path>)
    requires var out := OutputDirectory(basedir, finalName);
             world.fileExists(out) || out in created || world.mkdirs(out)
    requires world.walk(JavaScriptDirectory(basedir)).Some?
    ensures var js := JavaScriptCommandLine(world, JavaScriptDirectory(basedir), OutputDirectory(basedir, finalName)).value;
            var report := Execution(world, basedir, finalName, cssRebase, created);
            RunVerdict(UglifyJsCommand, world.run(js)).Fail? ==>
              && report.runs == [js]
              && report.outcome == RunVerdict(UglifyJsCommand, world.run(js))
              && (world.run(js).Exited? ==>
                    report.outcome == Fail(ToolExitedWithError(UglifyJsCommand, world.run(js).exitCode)))
  {
  }

  /** A source directory that cannot be walked fails the execution naming the language: for
      JavaScript before any run, for CSS after uglifyjs passed. */
  lemma UnwalkableDirectoryFails(world: HelperWorld, basedir: Path, finalName: string, cssRebase: bool, created: set<Path>)
    requires var out := OutputDirectory(basedir, finalName);
             world.fileExists(out) || out in created || world.mkdirs(out)
    ensures var report := Execution(world, basedir, finalName, cssRebase, created);
            world.walk(JavaScriptDirectory(basedir)).None? ==>
              report.runs == [] && report.outcome == Fail(SourceDiscoveryFailed(JavaScript))
    ensures var out := OutputDirectory(basedir, finalName);
            var js := JavaScriptCommandLine(world, JavaScriptDirectory(basedir), out);
            var report := Execution(world, basedir, finalName, cssRebase, created);
            js.Success? && world.run(js.value).Exited? && world.run(js.value).exitCode == 0
            && world.walk(CssDirectory(basedir)).None? ==>
              report.runs == [js.value] && report.outcome == Fail(SourceDiscoveryFailed(Css))
  {
  }

  /** Unlike WebOptimizerMavenPlugin, uglifyjs.cmd is started even when no .js file was
      found: its arguments are then only -c -m -o <output>/app.js. */
  lemma ToolRunsWithoutInputs(world: HelperWorld, basedir: Path, finalName: string, cssRebase: bool, created: set<Path>)
    requires var out := OutputDirectory(basedir, finalName);
             world.fileExists(out) || out in created || world.mkdirs(out)
    requires var walk := world.walk(JavaScriptDirectory(basedir));
             walk.Some? && Matching(walk.value, world.isFile, ".js") == []
    ensures var out := OutputDirectory(basedir, finalName);
            var runs := Execution(world, basedir, finalName, cssRebase, created).runs;
            |runs| >= 1 && runs[0] == [UglifyJsCommand, "-c", "-m", "-o", PathString(Append(out, JavaScriptOutput))]
  {
    var out := OutputDirectory(basedir, finalName);
    var walk := world.walk(JavaScriptDirectory(basedir)).value;
    FindSourceFilesPermutation(walk, world.isFile, ".js");
    assert FindSourceFiles(walk, world.isFile, ".js") == [];
    var js := [UglifyJsCommand] + UglifyJsArguments([], out);
    assert JavaScriptCommandLine(world, JavaScriptDirectory(basedir), out) == Success(js);
    assert js == [UglifyJsCommand, "-c", "-m", "-o", PathString(Append(out, JavaScriptOutput))];
  }

  /** With rebasing off (the default) and one input x.css, cleancss gets
      --skip-rebase -o <output>/app.css x.css. */
  lemma CleanCssDefaultScenario(x: Path, outputDirectory: Path)
    ensures CleanCssArguments(false, [x], outputDirectory)
            == ["--skip-rebase", "-o", PathString(Append(outputDirectory, CssOutput)), PathString(x)]
  {
  }

  /** The JavaScript source directory is new File(basedir, "src/main/javascript"). */
  lemma JavaScriptDirectoryAsWritten(basedir: Path)
    ensures JoinNames(JavaScriptSources) == "src/main/javascript"
    ensures JavaScriptDirectory(basedir) == Resolve(basedir, JoinNames(JavaScriptSources))
  {
    NameElementsOfJoinNames(JavaScriptSources);
  }

  /** The CSS source directory is new File(basedir, "src/main/css"). */
  lemma CssDirectoryAsWritten(basedir: Path)
    ensures JoinNames(CssSources) == "src/main/css"
    ensures CssDirectory(basedir) == Resolve(basedir, JoinNames(CssSources))
  {
    NameElementsOfJoinNames(CssSources);
  }

  /** The output directory is new File(basedir, "target/" + finalName + "/assets"): for a
      plain final name, the base directory's names followed by target, the name and assets. */
  lemma OutputDirectoryAsWritten(basedir: Path, finalName: string)
    requires WellFormedName(finalName)
    ensures OutputDirectory(basedir, finalName).names == basedir.names + ["target", finalName, "assets"]
  {
    var names := ["target", finalName, "assets"];
    assert WellFormedName("target") by { assert forall k :: 0 <= k < 6 ==> "target"[k] != '/'; }
    assert WellFormedName("assets") by { assert forall k :: 0 <= k < 6 ==> "assets"[k] != '/'; }
    assert names[1..][1..] == ["assets"];
    assert JoinNames(names[1..]) == finalName + "/" + "assets";
    assert "target/" == "target" + "/" && "/assets" == "/" + "assets";
    assert JoinNames(names) == "target/" + finalName + "/assets";
    NameElementsOfJoinNames(names);
  }

  /** The output files are those of the strings the mojo writes. */
  lemma OutputFilesAsWritten(outputDirectory: Path)
    ensures Append(outputDirectory, JavaScriptOutput) == Resolve(outputDirectory, "app.js")
    ensures Append(outputDirectory, CssOutput) == Resolve(outputDirectory, "app.css")
  {
    NameElementsOfJoinNames(JavaScriptOutput);
    NameElementsOfJoinNames(CssOutput);
  }
}
