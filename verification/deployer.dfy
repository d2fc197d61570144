/** Outcome classification of `verifyBuild`
    (packages/workflows/src/activities/deployer.ts). The shell commands are
    not run: what each returned, or the error it threw, is an input. */
module Deployer {
  import opened Wrappers
  import opened Strings
  import opened Types

  /** What a shell command printed. */
  datatype CommandOutput = CommandOutput(stdout: string, stderr: string)

  /** Results of the four commands `verifyBuild` runs, in order:
      `git pull origin main`, `npm install`, `npm run build 2>&1 || true`
      and `npm test 2>&1 || true`. */
  datatype Commands = Commands(
    pull: Outcome,
    install: Outcome,
    build: Result<CommandOutput>,
    test: Result<CommandOutput>)

  /** Log messages of the steps. */
  const PulledLine := "✓ Pulled latest changes"
  const InstalledLine := "✓ Dependencies installed"
  const InstallWarningLine := "⚠ No npm dependencies (or install failed)"
  const BuildSucceededLine := "✓ Build succeeded"
  const BuildFailedPrefix := "✗ Build failed: "
  const NoBuildScriptLine := "⚠ No build script found"
  const TestsPassedLine := "✓ Tests passed"
  const TestsFailedPrefix := "✗ Tests failed: "
  const NoTestResultsLine := "⚠ No test results found"
  const NoTestScriptLine := "⚠ No test script found"

  /** At most this many characters of a failing command's output are logged. */
  const LoggedOutputLength: nat := 200

  function Combined(c: CommandOutput): string {
    c.stdout + c.stderr
  }

  /** The build output marks a failure when it mentions `error` or `Error`
      anywhere (a case-sensitive search). */
  predicate BuildOutputFails(output: string) {
    Contains(output, "error") || Contains(output, "Error")
  }

  /** The test output marks a failure when it mentions `failed` or `FAIL`. */
  predicate TestOutputFails(output: string) {
    Contains(output, "failed") || Contains(output, "FAIL")
  }

  predicate TestOutputPasses(output: string) {
    Contains(output, "passed") || Contains(output, "PASS")
  }

  /** Step 3: the build flag and its log line. A build command that throws
      counts as "no build script" and leaves the flag set. */
  function BuildStep(build: Result<CommandOutput>): (r: (bool, string))
    ensures build.Err? ==> r == (true, NoBuildScriptLine)
    ensures build.Ok? ==> (r.0 <==> !BuildOutputFails(Combined(build.value)))
    ensures build.Ok? && !r.0 ==> r.1 == BuildFailedPrefix + Take(Combined(build.value), LoggedOutputLength)
    ensures build.Ok? && r.0 ==> r.1 == BuildSucceededLine
  {
    match build
    case Err(_) => (true, NoBuildScriptLine)
    case Ok(out) =>
      var output := Combined(out);
      if BuildOutputFails(output) then (false, BuildFailedPrefix + Take(output, LoggedOutputLength))
      else (true, BuildSucceededLine)
  }

  /** Step 4: the tests flag and its log line. Only a failure marker clears
      the flag; output with no marker at all leaves it set. */
  function TestStep(test: Result<CommandOutput>): (r: (bool, string))
    ensures test.Err? ==> r == (true, NoTestScriptLine)
    ensures test.Ok? ==> (r.0 <==> !TestOutputFails(Combined(test.value)))
    ensures test.Ok? && !r.0 ==> r.1 == TestsFailedPrefix + Take(Combined(test.value), LoggedOutputLength)
    ensures test.Ok? && r.0 ==> r.1 == (if TestOutputPasses(Combined(test.value)) then TestsPassedLine else NoTestResultsLine)
  {
    match test
    case Err(_) => (true, NoTestScriptLine)
    case Ok(out) =>
      var output := Combined(out);
      if TestOutputFails(output) then (false, TestsFailedPrefix + Take(output, LoggedOutputLength))
      else if TestOutputPasses(output) then (true, TestsPassedLine)
      else (true, NoTestResultsLine)
  }

  /** The log lines of a run whose pull succeeded, one per step in step
      order. A step's line reports a failure exactly when that step's output
      carries a failure marker, and then shows the first 200 characters of
      the output; a command that threw is reported as a missing script. */
  function StepLogs(commands: Commands): (lines: seq<string>)
    ensures |lines| == 4 && lines[0] == PulledLine
    ensures lines[1] == InstalledLine <==> commands.install.Pass?
    ensures commands.install.Fail? ==> lines[1] == InstallWarningLine
    ensures commands.build.Ok? && !BuildOutputFails(Combined(commands.build.value)) ==>
              lines[2] == BuildSucceededLine
    ensures commands.test.Ok? && !TestOutputFails(Combined(commands.test.value)) ==>
              lines[3] == (if TestOutputPasses(Combined(commands.test.value)) then TestsPassedLine else NoTestResultsLine)
    ensures OccursAt(lines[2], BuildFailedPrefix, 0) <==>
              commands.build.Ok? && BuildOutputFails(Combined(commands.build.value))
    ensures OccursAt(lines[2], BuildFailedPrefix, 0) ==>
              lines[2] == BuildFailedPrefix + Take(Combined(commands.build.value), LoggedOutputLength)
    ensures lines[2] == NoBuildScriptLine <==> commands.build.Err?
    ensures OccursAt(lines[3], TestsFailedPrefix, 0) <==>
              commands.test.Ok? && TestOutputFails(Combined(commands.test.value))
    ensures OccursAt(lines[3], TestsFailedPrefix, 0) ==>
              lines[3] == TestsFailedPrefix + Take(Combined(commands.test.value), LoggedOutputLength)
    ensures lines[3] == NoTestScriptLine <==> commands.test.Err?
  {
    assert InstalledLine[0] != InstallWarningLine[0];
    assert BuildSucceededLine[0] != BuildFailedPrefix[0] && NoBuildScriptLine[0] != BuildFailedPrefix[0];
    assert BuildSucceededLine[0] != NoBuildScriptLine[0] && BuildFailedPrefix[0] != NoBuildScriptLine[0];
    assert TestsPassedLine[0] != TestsFailedPrefix[0] && NoTestResultsLine[0] != TestsFailedPrefix[0];
    assert NoTestScriptLine[0] != TestsFailedPrefix[0];
    assert NoTestResultsLine != NoTestScriptLine && TestsPassedLine[0] != NoTestScriptLine[0];
    assert commands.test.Ok? ==> (TestsFailedPrefix + Take(Combined(commands.test.value), LoggedOutputLength))[0] != NoTestScriptLine[0];
    [PulledLine,
     if commands.install.Pass? then InstalledLine else InstallWarningLine,
     BuildStep(commands.build).1,
     TestStep(commands.test).1]
  }

  /** `verifyBuild(prUrl)`: it never throws. A failed pull yields a failed
      result carrying the error; otherwise the flags come from the build and
      test outputs, nothing is deployed, and the logs are the step lines
      joined by newlines. */
  function VerifyBuild(prUrl: string, commands: Commands): (r: DeployerOutput)
    ensures r.deployedTo.None?
    ensures commands.pull.Fail? ==>
              r == DeployerOutput(false, false, None, "Error: " + commands.pull.message)
    ensures commands.pull.Pass? ==>
              && (r.buildSuccess <==> commands.build.Err? || !BuildOutputFails(Combined(commands.build.value)))
              && (r.testsPassed <==> commands.test.Err? || !TestOutputFails(Combined(commands.test.value)))
              && r.logs == Join(StepLogs(commands), "\n")
  {
    match commands.pull
    case Fail(message) => DeployerOutput(false, false, None, "Error: " + message)
    case Pass =>
      DeployerOutput(BuildStep(commands.build).0, TestStep(commands.test).0, None, Join(StepLogs(commands), "\n"))
  }

  /** The install step only chooses a warning line: the two flags never
      depend on it. */
  lemma InstallNeverDecides(prUrl: string, commands: Commands, install: Outcome)
    ensures VerifyBuild(prUrl, commands).buildSuccess == VerifyBuild(prUrl, commands.(install := install)).buildSuccess
    ensures VerifyBuild(prUrl, commands).testsPassed == VerifyBuild(prUrl, commands.(install := install)).testsPassed
  {
  }

  /** A verification passes exactly when the pull succeeded and neither the
      build nor the test output carries a failure marker. */
  lemma PassedIff(prUrl: string, commands: Commands)
    ensures Passed(VerifyBuild(prUrl, commands)) <==>
              && commands.pull.Pass?
              && (commands.build.Err? || !BuildOutputFails(Combined(commands.build.value)))
              && (commands.test.Err? || !TestOutputFails(Combined(commands.test.value)))
  {
  }

  /** Test output that mentions `failed` anywhere, in either stream, fails
      the verification, however clean the build and whatever pass markers
      the output also carries. */
  lemma FailedMarkerFailsTests(prUrl: string, commands: Commands, i: nat)
    requires commands.pull.Pass? && commands.test.Ok?
    requires OccursAt(Combined(commands.test.value), "failed", i)
    ensures !VerifyBuild(prUrl, commands).testsPassed
    ensures !Passed(VerifyBuild(prUrl, commands))
  {
    ContainsAt(Combined(commands.test.value), "failed", i);
  }
}
