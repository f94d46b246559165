/**
 * Running an external minifier, as both mojos' runProcess do, and the failures a run can
 * raise. Spawning the process and reading its output are not modelled: what the operating
 * system answers is an outcome handed in by the caller.
 */
module Process {
  import opened Common
  import opened Paths

  /** What starting a command line and waiting for it yields. */
  datatype ProcessOutcome =
    | Exited(exitCode: int, output: string)  // the process ran; its merged stdout/stderr
    | IoFailed                               // IOException while starting it or reading its output
    | Interrupted                            // InterruptedException while waiting for it

  /** WebOptimizerMavenPlugin polls the process instead of waiting for it, so nothing in its
      runProcess can be interrupted. */
  type PollingOutcome = o: ProcessOutcome | !o.Interrupted? witness IoFailed

  datatype Language = JavaScript | Css

  /** The MojoExecutionException (or unchecked exception) a mojo ends with. */
  datatype Error =
    | DirectoryCreationFailed(directory: string)         // "Failed to create directory <dir>"
    | ToolExitedWithError(command: string, exitCode: int) // "<command> failed with exit code <n>"
    | ToolFailed(command: string)                        // "<command> failed", cause attached
    | SourceDiscoveryFailed(language: Language)          // "Failed to find <language> source files"
    | NullPointer                                        // a NullPointerException

  /**
   * runProcess's decision: the run succeeds exactly when the tool exited with 0; a non-zero
   * exit fails naming the command and the exit code; an I/O failure or an interruption fails
   * naming the command.
   */
  function RunVerdict(command: string, outcome: ProcessOutcome): (r: Outcome<Error>)
    ensures r.Pass? <==> outcome.Exited? && outcome.exitCode == 0
    ensures r.Fail? ==> (r.error.ToolExitedWithError? || r.error.ToolFailed?) && r.error.command == command
    ensures outcome.Exited? && outcome.exitCode != 0 ==> r == Fail(ToolExitedWithError(command, outcome.exitCode))
    ensures !outcome.Exited? ==> r == Fail(ToolFailed(command))
  {
    match outcome
    case Exited(code, _) => if code != 0 then Fail(ToolExitedWithError(command, code)) else Pass
    case IoFailed => Fail(ToolFailed(command))
    case Interrupted => Fail(ToolFailed(command))
  }

  /** Whatever the tool printed, the verdict depends only on how it ended. */
  lemma RunVerdictIgnoresOutput(command: string, code: int, out1: string, out2: string)
    ensures RunVerdict(command, Exited(code, out1)) == RunVerdict(command, Exited(code, out2))
  {
  }

  /** Everything one execution of a mojo does that can be observed: the directories it
      created, the command lines it started in order, and how it ended. */
  datatype Report = Report(created: set<Path>, runs: seq<seq<string>>, outcome: Outcome<Error>)
}
