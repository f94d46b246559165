/**
 * WebOptimizerMavenPlugin: minifies the configured JavaScript files into one output file with
 * uglifyjs and the configured CSS files into another with cleancss. Each step runs only when
 * its source directory exists and at least one of its configured files exists; a failing
 * JavaScript step ends the execution before the CSS step.
 */
module WebOptimizer {
  import opened Common
  import opened Tokens
  import opened Paths
  import opened Process

  /** The filesystem and the operating system as the mojo sees them. */
  datatype OptimizerWorld = OptimizerWorld(
    fileExists: Path -> bool,            // File.exists before the mojo runs
    mkdirs: Path -> bool,                // whether File.mkdirs succeeds
    userDir: seq<string>,                // the names of the user.dir system property
    osName: string,                      // the os.name system property
    run: seq<string> -> PollingOutcome)  // how a command line ends

  /** The mojo's parameters; a parameter Maven may leave null is an Option. */
  datatype Settings = Settings(
    uglifyjsOptions: Option<string>,
    cleancssOptions: Option<string>,
    outputDirectory: Path,
    jsSourceDirectory: Path,
    jsSourceFiles: Option<seq<string>>,
    jsOutputName: string,
    cssSourceDirectory: Path,
    cssSourceFiles: Option<seq<string>>,
    cssOutputName: string)

  /** The parameters' default values for a project in `basedir` whose build is named
      `finalName`. */
  function DefaultSettings(basedir: Path, finalName: string, jsSourceFiles: Option<seq<string>>,
                           cssSourceFiles: Option<seq<string>>): Settings {
    Settings(
      Some("-c -m --stats"),
      Some("-d"),
      Resolve(basedir, "target/" + finalName + "/"),
      Append(basedir, ["src", "main", "javascript"]),
      jsSourceFiles,
      "app.js",
      Append(basedir, ["src", "main", "css"]),
      cssSourceFiles,
      "app.css")
  }

  /** A path exists when it did before the execution or the execution created it. */
  predicate Present(world: OptimizerWorld, created: set<Path>, p: Path) {
    world.fileExists(p) || p in created
  }

  /** File.getAbsolutePath. */
  function AbsoluteString(world: OptimizerWorld, p: Path): string {
    PathString(AbsolutePath(world.userDir, p))
  }

  /** os.name, lower-cased, contains "windows". */
  predicate IsWindows(osName: string) {
    Contains(ToLowerAscii(osName), "windows")
  }

  /** The binary a tool runs with: the configured one, else the tool's name, with ".cmd"
      appended on Windows. */
  function ResolveBinary(configured: Option<string>, tool: string, osName: string): string {
    if configured.Some? then configured.value
    else if IsWindows(osName) then tool + ".cmd"
    else tool
  }

  // ---------------------------------------------------------------------------------------
  // makeListOfInputFiles

  /** The absolute paths of the configured names, resolved against the source directory,
      that exist, in the configured order. */
  function InputFiles(world: OptimizerWorld, created: set<Path>, sourceDirectory: Path, names: seq<string>): seq<string>
    decreases |names|
  {
    if names == [] then []
    else
      var file := Resolve(sourceDirectory, names[|names| - 1]);
      InputFiles(world, created, sourceDirectory, names[..|names| - 1])
      + (if Present(world, created, file) then [AbsoluteString(world, file)] else [])
  }

  /** Lists of names contribute their files one after the other: the configured order is
      kept. */
  lemma {:induction false} InputFilesAppend(world: OptimizerWorld, created: set<Path>, sourceDirectory: Path, a: seq<string>, b: seq<string>)
    ensures InputFiles(world, created, sourceDirectory, a + b)
            == InputFiles(world, created, sourceDirectory, a) + InputFiles(world, created, sourceDirectory, b)
    decreases |b|
  {
    if b == [] {
      assert a + b == a;
    } else {
      var c := b[..|b| - 1];
      assert (a + b)[..|a + b| - 1] == a + c;
      assert (a + b)[|a + b| - 1] == b[|b| - 1];
      InputFilesAppend(world, created, sourceDirectory, a, c);
    }
  }

  /** The configured name at index `i` names an existing file whose absolute path is `x`. */
  predicate ListedAt(world: OptimizerWorld, created: set<Path>, sourceDirectory: Path, names: seq<string>, i: int, x: string) {
    && 0 <= i < |names|
    && Present(world, created, Resolve(sourceDirectory, names[i]))
    && x == AbsoluteString(world, Resolve(sourceDirectory, names[i]))
  }

  /** A string is listed exactly when it is the absolute path of a configured file that
      exists: missing files are skipped, not errors. */
  lemma {:induction false} InputFilesMembership(world: OptimizerWorld, created: set<Path>, sourceDirectory: Path, names: seq<string>)
    ensures forall x :: x in InputFiles(world, created, sourceDirectory, names) <==>
              exists i :: ListedAt(world, created, sourceDirectory, names, i, x)
    decreases |names|
  {
    if names != [] {
      var init := names[..|names| - 1];
      var last := |names| - 1;
      var file := Resolve(sourceDirectory, names[last]);
      var extra := if Present(world, created, file) then [AbsoluteString(world, file)] else [];
      InputFilesMembership(world, created, sourceDirectory, init);
      assert InputFiles(world, created, sourceDirectory, names) == InputFiles(world, created, sourceDirectory, init) + extra;
      forall x ensures x in InputFiles(world, created, sourceDirectory, names) <==>
                       exists i :: ListedAt(world, created, sourceDirectory, names, i, x) {
        if exists i :: ListedAt(world, created, sourceDirectory, names, i, x) {
          var i :| ListedAt(world, created, sourceDirectory, names, i, x);
          if i < last {
            assert ListedAt(world, created, sourceDirectory, init, i, x);
          } else {
            assert x in extra;
          }
        }
        if x in InputFiles(world, created, sourceDirectory, init) {
          var i :| ListedAt(world, created, sourceDirectory, init, i, x);
          assert ListedAt(world, created, sourceDirectory, names, i, x);
        }
        if x in extra {
          assert ListedAt(world, created, sourceDirectory, names, last, x);
        }
      }
    }
  }

  /** Every listed string is an absolute path, and no more strings are listed than names
      were configured. */
  lemma {:induction false} InputFilesAbsolute(world: OptimizerWorld, created: set<Path>, sourceDirectory: Path, names: seq<string>)
    ensures forall x :: x in InputFiles(world, created, sourceDirectory, names) ==> x != [] && x[0] == '/'
    ensures |InputFiles(world, created, sourceDirectory, names)| <= |names|
    decreases |names|
  {
    if names != [] {
      InputFilesAbsolute(world, created, sourceDirectory, names[..|names| - 1]);
    }
  }

  /** When every configured file exists, each of them is listed, in order. */
  lemma {:induction false} InputFilesAllPresent(world: OptimizerWorld, created: set<Path>, sourceDirectory: Path, names: seq<string>)
    requires forall i :: 0 <= i < |names| ==> Present(world, created, Resolve(sourceDirectory, names[i]))
    ensures var files := InputFiles(world, created, sourceDirectory, names);
            |files| == |names|
            && forall i :: 0 <= i < |names| ==> files[i] == AbsoluteString(world, Resolve(sourceDirectory, names[i]))
    decreases |names|
  {
    if names != [] {
      var init := names[..|names| - 1];
      InputFilesAllPresent(world, created, sourceDirectory, init);
    }
  }

  // ---------------------------------------------------------------------------------------
  // checkOutputDirectory

  /** The outcome of checkOutputDirectory and the directories created once it is done. */
  datatype Checked = Checked(result: Result<string, Error>, created: set<Path>)

  /** new File(outputDirectory, childFileName): its parent is created when missing, and its
      absolute path is returned. */
  function CheckOutput(world: OptimizerWorld, created: set<Path>, outputDirectory: Path, childFileName: string): Checked {
    var file := Resolve(outputDirectory, childFileName);
    match Parent(file)
    case None => Checked(Failure(NullPointer), created)
    case Some(directory) =>
      if Present(world, created, directory) then Checked(Success(AbsoluteString(world, file)), created)
      else if world.mkdirs(directory) then Checked(Success(AbsoluteString(world, file)), created + {directory})
      else Checked(Failure(DirectoryCreationFailed(PathString(directory))), created)
  }

  /** After a successful check the output file's directory exists and the returned name is
      the output file's absolute path; at most that directory was created; a failure is a
      null parent or a directory that could not be created, and creates nothing. */
  lemma CheckOutputMeaning(world: OptimizerWorld, created: set<Path>, outputDirectory: Path, childFileName: string)
    ensures var file := Resolve(outputDirectory, childFileName);
            var c := CheckOutput(world, created, outputDirectory, childFileName);
            && (c.result.Success? <==> Parent(file).Some? && (Present(world, created, Parent(file).value) || world.mkdirs(Parent(file).value)))
            && (c.result.Success? ==> c.result.value == AbsoluteString(world, file)
                                      && Present(world, c.created, Parent(file).value)
                                      && c.created - created <= {Parent(file).value})
            && (c.result.Failure? ==> c.created == created
                                      && (c.result.error == NullPointer <==> Parent(file).None?)
                                      && (c.result.error.DirectoryCreationFailed? <==> Parent(file).Some?))
  {
  }

  /** An output name that is one plain file name lives directly in the output directory, so
      that directory is the one checked and created. */
  lemma PlainOutputNameParent(outputDirectory: Path, name: string)
    requires WellFormedName(name)
    requires outputDirectory.absolute || outputDirectory.names != []
    ensures Parent(Resolve(outputDirectory, name)) == Some(outputDirectory)
  {
    NameElementsOfName(name, []);
    assert name + [] == name;
    var r := Resolve(outputDirectory, name);
    assert r.names == outputDirectory.names + [name];
    assert r.names[..|r.names| - 1] == outputDirectory.names;
  }

  // ---------------------------------------------------------------------------------------
  // Argument vectors

  /** The tool's arguments: the option tokens, then -o and the output file, then the inputs. */
  function ToolArguments(options: Option<string>, outputFileName: string, inputs: seq<string>): seq<string> {
    OptionTokens(options) + ["-o", outputFileName] + inputs
  }

  /** The index of the last "-o" in `args`. */
  function LastOutputFlag(args: seq<string>): (r: Option<nat>)
    ensures r.Some? ==> r.value < |args| && args[r.value] == "-o"
                        && forall k :: r.value < k < |args| ==> args[k] != "-o"
    ensures r.None? ==> "-o" !in args
  {
    if args == [] then None
    else if args[|args| - 1] == "-o" then Some(|args| - 1)
    else LastOutputFlag(args[..|args| - 1])
  }

  /** An argument vector read back: what precedes the last "-o", the word after it, and
      the words after that. */
  datatype Invocation = Invocation(options: seq<string>, output: string, inputs: seq<string>)

  function ParseArguments(args: seq<string>): Option<Invocation> {
    match LastOutputFlag(args)
    case None => None
    case Some(i) => if i + 1 < |args| then Some(Invocation(args[..i], args[i + 1], args[i + 2..])) else None
  }

  /** A flag followed by words that are not flags is the last flag. */
  lemma {:induction false} LastOutputFlagOfTail(prefix: seq<string>, rest: seq<string>)
    requires "-o" !in rest
    ensures LastOutputFlag(prefix + ["-o"] + rest) == Some(|prefix|)
    decreases |rest|
  {
    var args := prefix + ["-o"] + rest;
    if rest == [] {
      assert args[|args| - 1] == "-o";
    } else {
      var init := rest[..|rest| - 1];
      assert args[|args| - 1] == rest[|rest| - 1];
      assert args[..|args| - 1] == prefix + ["-o"] + init;
      LastOutputFlagOfTail(prefix, init);
    }
  }

  /** The argument vector can be read back into the option tokens, the output file and the
      inputs, as long as neither the output file nor an input is the word "-o". */
  lemma ToolArgumentsRoundTrip(options: Option<string>, outputFileName: string, inputs: seq<string>)
    requires outputFileName != "-o" && "-o" !in inputs
    ensures ParseArguments(ToolArguments(options, outputFileName, inputs))
            == Some(Invocation(OptionTokens(options), outputFileName, inputs))
  {
    var prefix := OptionTokens(options);
    var args := ToolArguments(options, outputFileName, inputs);
    assert args == prefix + ["-o"] + ([outputFileName] + inputs);
    LastOutputFlagOfTail(prefix, [outputFileName] + inputs);
    assert args[..|prefix|] == prefix;
    assert args[|prefix| + 2..] == inputs;
  }

  /** processJavaScript and processCss build their argument lists by appending. */
  method BuildToolArguments(options: Option<string>, outputFileName: string, inputs: seq<string>) returns (args: seq<string>)
    ensures args == ToolArguments(options, outputFileName, inputs)
  {
    args := [];
    if options.Some? && !IsBlank(options.value) {
      args := args + Split(options.value);
    }
    assert args == OptionTokens(options);
    args := args + ["-o"];
    args := args + [outputFileName];
    args := args + inputs;
  }

  // ---------------------------------------------------------------------------------------
  // One language's step and the whole execution.

  /** processJavaScript / processCss: check the output directory, list the existing inputs,
      and run the tool unless there are none. */
  function Step(world: OptimizerWorld, created: set<Path>, binary: string, options: Option<string>,
                outputDirectory: Path, sourceDirectory: Path, sourceFiles: Option<seq<string>>,
                outputName: string): Report {
    var checked := CheckOutput(world, created, outputDirectory, outputName);
    if checked.result.Failure? then Report(checked.created, [], Fail(checked.result.error))
    else if sourceFiles.None? then Report(checked.created, [], Fail(NullPointer))
    else
      var inputs := InputFiles(world, checked.created, sourceDirectory, sourceFiles.value);
      if inputs == [] then Report(checked.created, [], Pass)
      else
        var commandLine := [binary] + ToolArguments(options, checked.result.value, inputs);
        Report(checked.created, [commandLine], RunVerdict(binary, world.run(commandLine)))
  }

  function JavaScriptStep(world: OptimizerWorld, settings: Settings, created: set<Path>, binary: string): Report {
    Step(world, created, binary, settings.uglifyjsOptions, settings.outputDirectory,
         settings.jsSourceDirectory, settings.jsSourceFiles, settings.jsOutputName)
  }

  function CssStep(world: OptimizerWorld, settings: Settings, created: set<Path>, binary: string): Report {
    Step(world, created, binary, settings.cleancssOptions, settings.outputDirectory,
         settings.cssSourceDirectory, settings.cssSourceFiles, settings.cssOutputName)
  }

  /** The JavaScript part of `execute`: skipped when the source directory does not exist. */
  function JavaScriptPart(world: OptimizerWorld, settings: Settings, created: set<Path>, binary: string): Report {
    if Present(world, created, settings.jsSourceDirectory) then JavaScriptStep(world, settings, created, binary)
    else Report(created, [], Pass)
  }

  /** The CSS part of `execute`: skipped when the source directory does not exist. */
  function CssPart(world: OptimizerWorld, settings: Settings, created: set<Path>, binary: string): Report {
    if Present(world, created, settings.cssSourceDirectory) then CssStep(world, settings, created, binary)
    else Report(created, [], Pass)
  }

  /** The CSS part's report following the JavaScript part's, unless the latter failed. */
  function Combine(js: Report, css: Report): Report {
    if js.outcome.Fail? then js else Report(css.created, js.runs + css.runs, css.outcome)
  }

  /** Everything `execute` does once the binaries are chosen. */
  function Execution(world: OptimizerWorld, settings: Settings, created: set<Path>, uglifyjsBinary: string, cleancssBinary: string): Report {
    var js := JavaScriptPart(world, settings, created, uglifyjsBinary);
    Combine(js, CssPart(world, settings, js.created, cleancssBinary))
  }

  class WebOptimizerMojo {
    var uglifyjsBinary: Option<string>
    var cleancssBinary: Option<string>
    const settings: Settings
    const world: OptimizerWorld
    /** Directories this mojo has created with mkdirs. */
    var createdDirectories: set<Path>
    /** The command lines this mojo has started, in order. */
    var commandLines: seq<seq<string>>

    constructor (uglifyjsBinary: Option<string>, cleancssBinary: Option<string>, settings: Settings, world: OptimizerWorld)
      ensures this.uglifyjsBinary == uglifyjsBinary && this.cleancssBinary == cleancssBinary
      ensures this.settings == settings && this.world == world
      ensures createdDirectories == {} && commandLines == []
    {
      this.uglifyjsBinary := uglifyjsBinary;
      this.cleancssBinary := cleancssBinary;
      this.settings := settings;
      this.world := world;
      createdDirectories := {};
      commandLines := [];
    }

    /** File.exists at this point of the execution. */
    predicate Exists(p: Path)
      reads this
    {
      Present(world, createdDirectories, p)
    }

    method RunProcess(command: string, arguments: seq<string>) returns (r: Outcome<Error>)
      modifies this`commandLines
      ensures commandLines == old(commandLines) + [[command] + arguments]
      ensures r == RunVerdict(command, world.run([command] + arguments))
    {
      var finalCommandLine := [command] + arguments;
      commandLines := commandLines + [finalCommandLine];
      r := RunVerdict(command, world.run(finalCommandLine));
    }

    method MakeListOfInputFiles(sourceDirectory: Path, inputFiles: Option<seq<string>>) returns (r: Result<seq<string>, Error>)
      ensures inputFiles.None? ==> r == Failure(NullPointer)
      ensures inputFiles.Some? ==> r == Success(InputFiles(world, createdDirectories, sourceDirectory, inputFiles.value))
    {
      if inputFiles.None? {
        return Failure(NullPointer);
      }
      var names := inputFiles.value;
      var inputFileFiles := [];
      for i := 0 to |names|
        invariant inputFileFiles == InputFiles(world, createdDirectories, sourceDirectory, names[..i])
      {
        var file := Resolve(sourceDirectory, names[i]);
        assert names[..i + 1][..i] == names[..i];
        if Exists(file) {
          inputFileFiles := inputFileFiles + [AbsoluteString(world, file)];
        }
      }
      assert names[..|names|] == names;
      r := Success(inputFileFiles);
    }

    method CheckOutputDirectory(childFileName: string) returns (r: Result<string, Error>)
      modifies this`createdDirectories
      ensures var c := CheckOutput(world, old(createdDirectories), settings.outputDirectory, childFileName);
              r == c.result && createdDirectories == c.created
    {
      var finalOutputFile := Resolve(settings.outputDirectory, childFileName);
      var finalOutputDirectory := Parent(finalOutputFile);
      if finalOutputDirectory.None? {
        return Failure(NullPointer);
      }
      if !Exists(finalOutputDirectory.value) {
        if !world.mkdirs(finalOutputDirectory.value) {
          return Failure(DirectoryCreationFailed(PathString(finalOutputDirectory.value)));
        }
        createdDirectories := createdDirectories + {finalOutputDirectory.value};
      }
      r := Success(AbsoluteString(world, finalOutputFile));
    }

    /** The body processJavaScript and processCss share. */
    method ProcessSources(binary: string, options: Option<string>, sourceDirectory: Path,
                          sourceFiles: Option<seq<string>>, outputName: string) returns (r: Outcome<Error>)
      modifies this`createdDirectories, this`commandLines
      ensures var report := Step(world, old(createdDirectories), binary, options, settings.outputDirectory,
                                 sourceDirectory, sourceFiles, outputName);
              && createdDirectories == report.created
              && commandLines == old(commandLines) + report.runs
              && r == report.outcome
    {
      var outputFileName := CheckOutputDirectory(outputName);
      if outputFileName.Failure? {
        return Fail(outputFileName.error);
      }
      var inputs := MakeListOfInputFiles(sourceDirectory, sourceFiles);
      if inputs.Failure? {
        return Fail(inputs.error);
      }
      if inputs.value == [] {
        return Pass;
      }
      var arguments := BuildToolArguments(options, outputFileName.value, inputs.value);
      r := RunProcess(binary, arguments);
    }

    method ProcessJavaScript() returns (r: Outcome<Error>)
      requires uglifyjsBinary.Some?
      modifies this`createdDirectories, this`commandLines
      ensures var report := JavaScriptStep(world, settings, old(createdDirectories), uglifyjsBinary.value);
              && createdDirectories == report.created
              && commandLines == old(commandLines) + report.runs
              && r == report.outcome
    {
      r := ProcessSources(uglifyjsBinary.value, settings.uglifyjsOptions, settings.jsSourceDirectory,
                          settings.jsSourceFiles, settings.jsOutputName);
    }

    method ProcessCss() returns (r: Outcome<Error>)
      requires cleancssBinary.Some?
      modifies this`createdDirectories, this`commandLines
      ensures var report := CssStep(world, settings, old(createdDirectories), cleancssBinary.value);
              && createdDirectories == report.created
              && commandLines == old(commandLines) + report.runs
              && r == report.outcome
    {
      r := ProcessSources(cleancssBinary.value, settings.cleancssOptions, settings.cssSourceDirectory,
                          settings.cssSourceFiles, settings.cssOutputName);
    }

    /** The first half of execute: a binary left unset gets the tool's default name. */
    method ResolveBinaries()
      modifies this`uglifyjsBinary, this`cleancssBinary
      ensures uglifyjsBinary == Some(ResolveBinary(old(uglifyjsBinary), "uglifyjs", world.osName))
      ensures cleancssBinary == Some(ResolveBinary(old(cleancssBinary), "cleancss", world.osName))
    {
      if uglifyjsBinary.None? {
        if IsWindows(world.osName) {
          assert "uglifyjs" + ".cmd" == "uglifyjs.cmd";
          uglifyjsBinary := Some("uglifyjs.cmd");
        } else {
          uglifyjsBinary := Some("uglifyjs");
        }
      }
      if cleancssBinary.None? {
        if IsWindows(world.osName) {
          assert "cleancss" + ".cmd" == "cleancss.cmd";
          cleancssBinary := Some("cleancss.cmd");
        } else {
          cleancssBinary := Some("cleancss");
        }
      }
    }

    method Execute() returns (r: Outcome<Error>)
      modifies this`uglifyjsBinary, this`cleancssBinary, this`createdDirectories, this`commandLines
      ensures uglifyjsBinary == Some(ResolveBinary(old(uglifyjsBinary), "uglifyjs", world.osName))
      ensures cleancssBinary == Some(ResolveBinary(old(cleancssBinary), "cleancss", world.osName))
      ensures var report := Execution(world, settings, old(createdDirectories), uglifyjsBinary.value, cleancssBinary.value);
              && createdDirectories == report.created
              && commandLines == old(commandLines) + report.runs
              && r == report.outcome
    {
      ResolveBinaries();
      r := Pass;
      if Exists(settings.jsSourceDirectory) {
        r := ProcessJavaScript();
        if r.Fail? {
          return;
        }
      }
      if Exists(settings.cssSourceDirectory) {
        r := ProcessCss();
      }
    }
  }

  // ---------------------------------------------------------------------------------------
  // What a step and an execution promise.

  /** A step starts its tool at most once, and only when the output directory exists and at
      least one configured input exists. A failed output check is the step's failure, and a
      null file array fails with NullPointer, both without a run; with no existing input it
      succeeds without a run, and otherwise it runs the tool exactly once.
      The command line is the binary followed by arguments that read back as the option
      tokens, the absolute output file and the existing inputs in the configured order. */
  lemma StepMeaning(world: OptimizerWorld, created: set<Path>, binary: string, options: Option<string>,
                    outputDirectory: Path, sourceDirectory: Path, sourceFiles: Option<seq<string>>,
                    outputName: string)
    ensures var report := Step(world, created, binary, options, outputDirectory, sourceDirectory, sourceFiles, outputName);
            var checked := CheckOutput(world, created, outputDirectory, outputName);
            && |report.runs| <= 1
            && report.created == checked.created
            && (checked.result.Failure? ==> report == Report(checked.created, [], Fail(checked.result.error)))
            && (checked.result.Success? && sourceFiles.None? ==> report.runs == [] && report.outcome == Fail(NullPointer))
            && (checked.result.Success? && sourceFiles.Some?
                && InputFiles(world, checked.created, sourceDirectory, sourceFiles.value) == []
                ==> report.runs == [] && report.outcome == Pass)
            && (checked.result.Success? && sourceFiles.Some?
                && InputFiles(world, checked.created, sourceDirectory, sourceFiles.value) != []
                ==> var commandLine := [binary] + ToolArguments(options, checked.result.value,
                                                                InputFiles(world, checked.created, sourceDirectory, sourceFiles.value));
                    report.runs == [commandLine] && report.outcome == RunVerdict(binary, world.run(commandLine)))
            && (|report.runs| == 1 ==>
                  && checked.result.Success? && sourceFiles.Some?
                  && report.runs[0][0] == binary
                  && ParseArguments(report.runs[0][1..])
                     == Some(Invocation(OptionTokens(options),
                                        AbsoluteString(world, Resolve(outputDirectory, outputName)),
                                        InputFiles(world, checked.created, sourceDirectory, sourceFiles.value)))
                  && report.outcome == RunVerdict(binary, world.run(report.runs[0])))
  {
    var report := Step(world, created, binary, options, outputDirectory, sourceDirectory, sourceFiles, outputName);
    var checked := CheckOutput(world, created, outputDirectory, outputName);
    if |report.runs| == 1 {
      var inputs := InputFiles(world, checked.created, sourceDirectory, sourceFiles.value);
      var output := checked.result.value;
      InputFilesAbsolute(world, checked.created, sourceDirectory, sourceFiles.value);
      assert output == AbsoluteString(world, Resolve(outputDirectory, outputName));
      assert output[0] == '/';
      assert output != "-o";
      assert "-o" !in inputs by {
        forall x | x in inputs ensures x != "-o" {
          assert x[0] == '/';
        }
      }
      ToolArgumentsRoundTrip(options, output, inputs);
      assert report.runs[0][1..] == ToolArguments(options, output, inputs);
    }
  }

  /** A missing JavaScript source directory skips uglifyjs, and a missing CSS source
      directory skips cleancss. */
  lemma MissingSourceDirectorySkipsTool(world: OptimizerWorld, settings: Settings, created: set<Path>, uglifyjsBinary: string, cleancssBinary: string)
    ensures !Present(world, created, settings.jsSourceDirectory) ==>
              Execution(world, settings, created, uglifyjsBinary, cleancssBinary) == CssPart(world, settings, created, cleancssBinary)
    ensures var js := JavaScriptPart(world, settings, created, uglifyjsBinary);
            js.outcome.Pass? && !Present(world, js.created, settings.cssSourceDirectory) ==>
              Execution(world, settings, created, uglifyjsBinary, cleancssBinary) == js
  {
    var js := JavaScriptPart(world, settings, created, uglifyjsBinary);
    if js.outcome.Pass? && !Present(world, js.created, settings.cssSourceDirectory) {
      assert js.runs + [] == js.runs;
    }
    if !Present(world, created, settings.jsSourceDirectory) {
      assert [] + CssPart(world, settings, created, cleancssBinary).runs == CssPart(world, settings, created, cleancssBinary).runs;
    }
  }

  /** What a part's report looks like: at most one run, of `binary`; success only after a
      zero exit; a failure on an exit code names `binary` and the run's code. */
  predicate WellShaped(world: OptimizerWorld, binary: string, report: Report) {
    && |report.runs| <= 1
    && (report.runs != [] ==> report.runs[0] != [] && report.runs[0][0] == binary)
    && (report.outcome.Pass? && report.runs != [] ==>
          world.run(report.runs[0]).Exited? && world.run(report.runs[0]).exitCode == 0)
    && (report.outcome.Fail? && report.outcome.error.ToolExitedWithError? ==>
          && report.runs != []
          && report.outcome.error.command == binary
          && world.run(report.runs[0]).Exited?
          && world.run(report.runs[0]).exitCode == report.outcome.error.exitCode)
  }

  lemma StepWellShaped(world: OptimizerWorld, created: set<Path>, binary: string, options: Option<string>,
                       outputDirectory: Path, sourceDirectory: Path, sourceFiles: Option<seq<string>>,
                       outputName: string)
    ensures WellShaped(world, binary, Step(world, created, binary, options, outputDirectory, sourceDirectory, sourceFiles, outputName))
  {
  }

  /** Both parts of an execution are well shaped. */
  lemma PartsWellShaped(world: OptimizerWorld, settings: Settings, created: set<Path>, uglifyjsBinary: string, cleancssBinary: string)
    ensures WellShaped(world, uglifyjsBinary, JavaScriptPart(world, settings, created, uglifyjsBinary))
    ensures WellShaped(world, cleancssBinary, CssPart(world, settings, created, cleancssBinary))
  {
    StepWellShaped(world, created, uglifyjsBinary, settings.uglifyjsOptions, settings.outputDirectory,
                   settings.jsSourceDirectory, settings.jsSourceFiles, settings.jsOutputName);
    StepWellShaped(world, created, cleancssBinary, settings.cleancssOptions, settings.outputDirectory,
                   settings.cssSourceDirectory, settings.cssSourceFiles, settings.cssOutputName);
  }

  /** Two well-shaped parts combine into at most two runs, the first part's first. */
  lemma CombineRunOrder(world: OptimizerWorld, first: string, second: string, js: Report, css: Report)
    requires WellShaped(world, first, js) && WellShaped(world, second, css)
    ensures var report := Combine(js, css);
            && |report.runs| <= 2
            && report.runs[..|js.runs|] == js.runs
            && (|report.runs| == 2 ==> report.runs[0][0] == first && report.runs[1][0] == second)
  {
    if js.outcome.Pass? {
      var runs := js.runs + css.runs;
      assert runs[..|js.runs|] == js.runs;
      if |runs| == 2 {
        assert runs[0] == js.runs[0] && runs[1] == css.runs[0];
      }
    }
  }

  /** Two well-shaped parts combine into a success only when every run exited with 0. */
  lemma CombinePassMeansExitZero(world: OptimizerWorld, first: string, second: string, js: Report, css: Report)
    requires WellShaped(world, first, js) && WellShaped(world, second, css)
    ensures var report := Combine(js, css);
            report.outcome.Pass? ==>
              forall i :: 0 <= i < |report.runs| ==> world.run(report.runs[i]).Exited? && world.run(report.runs[i]).exitCode == 0
  {
    if js.outcome.Pass? && css.outcome.Pass? {
      var runs := js.runs + css.runs;
      forall i | 0 <= i < |runs| ensures world.run(runs[i]).Exited? && world.run(runs[i]).exitCode == 0 {
        if i < |js.runs| {
          assert runs[i] == js.runs[0];
        } else {
          assert runs[i] == css.runs[0];
        }
      }
    }
  }

  /** In a combination of two well-shaped parts an exit-code failure belongs to the last run. */
  lemma CombineExitCodeFailure(world: OptimizerWorld, first: string, second: string, js: Report, css: Report)
    requires WellShaped(world, first, js) && WellShaped(world, second, css)
    ensures var report := Combine(js, css);
            report.outcome.Fail? && report.outcome.error.ToolExitedWithError? ==>
              && report.runs != []
              && var last := report.runs[|report.runs| - 1];
                 && last != []
                 && report.outcome.error.command == last[0]
                 && world.run(last).Exited? && world.run(last).exitCode == report.outcome.error.exitCode
  {
    if js.outcome.Pass? && css.outcome.Fail? && css.outcome.error.ToolExitedWithError? {
      var runs := js.runs + css.runs;
      assert runs[|runs| - 1] == css.runs[0];
    }
  }

  /** With its source directory present, the JavaScript part is the JavaScript step. */
  lemma PresentJavaScriptDirectoryRunsStep(world: OptimizerWorld, settings: Settings, created: set<Path>, uglifyjsBinary: string)
    ensures Present(world, created, settings.jsSourceDirectory) ==>
              JavaScriptPart(world, settings, created, uglifyjsBinary) == JavaScriptStep(world, settings, created, uglifyjsBinary)
  {
  }

  /** Once the JavaScript part has passed and the CSS source directory exists, the CSS step
      does run: its runs follow the JavaScript part's, and its outcome is the execution's. */
  lemma CssRunsAfterJavaScriptPasses(world: OptimizerWorld, settings: Settings, created: set<Path>, uglifyjsBinary: string, cleancssBinary: string)
    ensures var js := JavaScriptPart(world, settings, created, uglifyjsBinary);
            var css := CssStep(world, settings, js.created, cleancssBinary);
            js.outcome.Pass? && Present(world, js.created, settings.cssSourceDirectory) ==>
              Execution(world, settings, created, uglifyjsBinary, cleancssBinary) == Report(css.created, js.runs + css.runs, css.outcome)
  {
  }

  /** With the JavaScript source directory present, a failed check of the JavaScript output
      directory is the execution's failure and no tool starts; in particular a missing
      directory that cannot be made fails naming that directory. */
  lemma JavaScriptOutputCheckFailureStops(world: OptimizerWorld, settings: Settings, created: set<Path>, uglifyjsBinary: string, cleancssBinary: string)
    requires Present(world, created, settings.jsSourceDirectory)
    ensures var checked := CheckOutput(world, created, settings.outputDirectory, settings.jsOutputName);
            checked.result.Failure? ==>
              Execution(world, settings, created, uglifyjsBinary, cleancssBinary) == Report(created, [], Fail(checked.result.error))
    ensures var directory := Parent(Resolve(settings.outputDirectory, settings.jsOutputName));
            var report := Execution(world, settings, created, uglifyjsBinary, cleancssBinary);
            directory.Some? && !Present(world, created, directory.value) && !world.mkdirs(directory.value) ==>
              report.runs == [] && report.outcome == Fail(DirectoryCreationFailed(PathString(directory.value)))
  {
    StepMeaning(world, created, uglifyjsBinary, settings.uglifyjsOptions, settings.outputDirectory,
                settings.jsSourceDirectory, settings.jsSourceFiles, settings.jsOutputName);
    CheckOutputMeaning(world, created, settings.outputDirectory, settings.jsOutputName);
  }

  /** After a passing JavaScript part, with the CSS source directory present, a failed check
      of the CSS output directory is the execution's failure and cleancss does not start. */
  lemma CssOutputCheckFailureStops(world: OptimizerWorld, settings: Settings, created: set<Path>, uglifyjsBinary: string, cleancssBinary: string)
    ensures var js := JavaScriptPart(world, settings, created, uglifyjsBinary);
            var checked := CheckOutput(world, js.created, settings.outputDirectory, settings.cssOutputName);
            js.outcome.Pass? && Present(world, js.created, settings.cssSourceDirectory) && checked.result.Failure? ==>
              Execution(world, settings, created, uglifyjsBinary, cleancssBinary) == Report(js.created, js.runs, Fail(checked.result.error))
  {
    var js := JavaScriptPart(world, settings, created, uglifyjsBinary);
    StepMeaning(world, js.created, cleancssBinary, settings.cleancssOptions, settings.outputDirectory,
                settings.cssSourceDirectory, settings.cssSourceFiles, settings.cssOutputName);
    assert js.runs + [] == js.runs;
  }

  /** A failing JavaScript part ends the execution: cleancss is not started and the CSS
      part creates no directory. */
  lemma JavaScriptFailureStopsCss(world: OptimizerWorld, settings: Settings, created: set<Path>, uglifyjsBinary: string, cleancssBinary: string)
    requires JavaScriptPart(world, settings, created, uglifyjsBinary).outcome.Fail?
    ensures Execution(world, settings, created, uglifyjsBinary, cleancssBinary) == JavaScriptPart(world, settings, created, uglifyjsBinary)
    ensures |Execution(world, settings, created, uglifyjsBinary, cleancssBinary).runs| <= 1
  {
    PartsWellShaped(world, settings, created, uglifyjsBinary, cleancssBinary);
  }

  /** An execution starts at most two tools, uglifyjs before cleancss; the runs are those of
      the JavaScript part followed by those of the CSS part. */
  lemma ExecutionRunOrder(world: OptimizerWorld, settings: Settings, created: set<Path>, uglifyjsBinary: string, cleancssBinary: string)
    ensures var report := Execution(world, settings, created, uglifyjsBinary, cleancssBinary);
            var js := JavaScriptPart(world, settings, created, uglifyjsBinary);
            && |js.runs| <= 1
            && |report.runs| <= 2
            && report.runs[..|js.runs|] == js.runs
            && (|report.runs| == 2 ==> report.runs[0][0] == uglifyjsBinary && report.runs[1][0] == cleancssBinary)
  {
    var js := JavaScriptPart(world, settings, created, uglifyjsBinary);
    var css := CssPart(world, settings, js.created, cleancssBinary);
    PartsWellShaped(world, settings, created, uglifyjsBinary, cleancssBinary);
    PartsWellShaped(world, settings, js.created, uglifyjsBinary, cleancssBinary);
    CombineRunOrder(world, uglifyjsBinary, cleancssBinary, js, css);
  }

  /** An execution succeeds only when every tool it started exited with 0. */
  lemma ExecutionPassMeansExitZero(world: OptimizerWorld, settings: Settings, created: set<Path>, uglifyjsBinary: string, cleancssBinary: string)
    ensures var report := Execution(world, settings, created, uglifyjsBinary, cleancssBinary);
            report.outcome.Pass? ==>
              forall i :: 0 <= i < |report.runs| ==> world.run(report.runs[i]).Exited? && world.run(report.runs[i]).exitCode == 0
  {
    var js := JavaScriptPart(world, settings, created, uglifyjsBinary);
    var css := CssPart(world, settings, js.created, cleancssBinary);
    PartsWellShaped(world, settings, created, uglifyjsBinary, cleancssBinary);
    PartsWellShaped(world, settings, js.created, uglifyjsBinary, cleancssBinary);
    CombinePassMeansExitZero(world, uglifyjsBinary, cleancssBinary, js, css);
  }

  /** A failure on a non-zero exit code names the binary of the last tool started and that
      tool's exit code. */
  lemma ExecutionExitCodeFailure(world: OptimizerWorld, settings: Settings, created: set<Path>, uglifyjsBinary: string, cleancssBinary: string)
    ensures var report := Execution(world, settings, created, uglifyjsBinary, cleancssBinary);
            report.outcome.Fail? && report.outcome.error.ToolExitedWithError? ==>
              && report.runs != []
              && var last := report.runs[|report.runs| - 1];
                 && last != []
                 && report.outcome.error.command == last[0]
                 && world.run(last).Exited? && world.run(last).exitCode == report.outcome.error.exitCode
  {
    var js := JavaScriptPart(world, settings, created, uglifyjsBinary);
    var css := CssPart(world, settings, js.created, cleancssBinary);
    PartsWellShaped(world, settings, created, uglifyjsBinary, cleancssBinary);
    PartsWellShaped(world, settings, js.created, uglifyjsBinary, cleancssBinary);
    CombineExitCodeFailure(world, uglifyjsBinary, cleancssBinary, js, css);
  }

  /** With the default parameters cleancss gets the single option -d, and both output files
      sit directly in target/<finalName>, the directory checked and created. */
  lemma DefaultSettingsMeaning(basedir: Path, finalName: string, jsSourceFiles: Option<seq<string>>,
                               cssSourceFiles: Option<seq<string>>)
    ensures var settings := DefaultSettings(basedir, finalName, jsSourceFiles, cssSourceFiles);
            && OptionTokens(settings.cleancssOptions) == ["-d"]
            && Parent(Resolve(settings.outputDirectory, settings.jsOutputName)) == Some(settings.outputDirectory)
            && Parent(Resolve(settings.outputDirectory, settings.cssOutputName)) == Some(settings.outputDirectory)
  {
    var settings := DefaultSettings(basedir, finalName, jsSourceFiles, cssSourceFiles);
    DefaultCleanCssOptionsSplit();
    var target := "target/" + finalName + "/";
    assert target[0] == 't';
    assert settings.outputDirectory.names != [];
    assert WellFormedName("app.js") by { assert "app.js" != [] && forall k :: 0 <= k < 6 ==> "app.js"[k] != '/'; }
    assert WellFormedName("app.css") by { assert "app.css" != [] && forall k :: 0 <= k < 7 ==> "app.css"[k] != '/'; }
    PlainOutputNameParent(settings.outputDirectory, "app.js");
    PlainOutputNameParent(settings.outputDirectory, "app.css");
  }

  /** With the default parameters uglifyjs gets the three options -c, -m and --stats. */
  lemma DefaultUglifyJsOptions(basedir: Path, finalName: string, jsSourceFiles: Option<seq<string>>,
                               cssSourceFiles: Option<seq<string>>)
    ensures OptionTokens(DefaultSettings(basedir, finalName, jsSourceFiles, cssSourceFiles).uglifyjsOptions)
            == ["-c", "-m", "--stats"]
  {
    DefaultUglifyJsOptionsSplit();
  }

  /** Without a configured binary the tool's own name is used, with ".cmd" on Windows. */
  lemma DefaultBinaries(osName: string)
    ensures ResolveBinary(None, "uglifyjs", osName) == if IsWindows(osName) then "uglifyjs.cmd" else "uglifyjs"
    ensures ResolveBinary(None, "cleancss", osName) == if IsWindows(osName) then "cleancss.cmd" else "cleancss"
  {
  }

  /** The platform test ignores case: "Windows 10" and "WINDOWS" are Windows, "Linux" is not. */
  lemma WindowsDetection()
    ensures IsWindows("Windows 10")
    ensures IsWindows("WINDOWS")
    ensures !IsWindows("Linux")
  {
    assert OccursAt(ToLowerAscii("Windows 10"), "windows", 0) by {
      assert ToLowerAscii("Windows 10")[..7] == "windows";
    }
    assert OccursAt(ToLowerAscii("WINDOWS"), "windows", 0) by {
      assert ToLowerAscii("WINDOWS")[..7] == "windows";
    }
    assert |ToLowerAscii("Linux")| < |"windows"|;
  }
}
