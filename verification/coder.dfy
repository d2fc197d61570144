/** Result assembly of `executeCode` (packages/workflows/src/activities/coder.ts).
    Git, `gh` and the model are not run: their outputs, or the errors they
    threw, are inputs, and JSON parsing is the `decode` parameter, which
    answers `None` for text that is not valid JSON. */
module Coder {
  import opened Wrappers
  import opened Strings
  import opened Types
  import JsonSpan

  /** The model's answer, read as `Partial<CoderOutput>`: any field may be
      missing. */
  datatype PartialCoderOutput = PartialCoderOutput(
    prUrl: Option<string>,
    filesChanged: Option<seq<string>>,
    testsPassed: Option<bool>,
    commitSha: Option<string>)

  const EmptyOutput := PartialCoderOutput(None, None, None, None)

  const UnknownCommit := "unknown"
  const PrCreationFailed := "PR creation failed"

  /** `feature/task-<taskId>`: the branch the coder works on. */
  function BranchName(taskId: string): (b: string)
    ensures |b| == 13 + |taskId| && b[..13] == "feature/task-" && b[13..] == taskId
  {
    "feature/task-" + taskId
  }

  /** Different tasks work on different branches. */
  lemma BranchNameInjective(a: string, b: string)
    requires BranchName(a) == BranchName(b)
    ensures a == b
  {
    assert a == BranchName(a)[13..];
    assert b == BranchName(b)[13..];
  }

  /** The coder's `parseJsonFromResponse`: never throws; a response without a
      `{...}` span, or whose span is not valid JSON, reads as `{}`. */
  function ParseJsonFromResponse(response: string, decode: string -> Option<PartialCoderOutput>): (r: PartialCoderOutput)
    ensures JsonSpan.Extract(response).None? ==> r == EmptyOutput
    ensures JsonSpan.Extract(response).Some? && decode(JsonSpan.Extract(response).value).None? ==> r == EmptyOutput
    ensures r != EmptyOutput ==>
              JsonSpan.Extract(response).Some? && decode(JsonSpan.Extract(response).value) == Some(r)
    ensures JsonSpan.Extract(response).Some? && decode(JsonSpan.Extract(response).value).Some? ==>
              r == decode(JsonSpan.Extract(response).value).value
  {
    match JsonSpan.Extract(response)
    case None => EmptyOutput
    case Some(span) => decode(span).GetOr(EmptyOutput)
  }

  /** Outputs of the shell commands `executeCode` runs, or the errors they
      threw. `setup` covers every unguarded command before the model call,
      whose failure aborts the activity: the `gh auth login` fallback when
      `gh auth status` fails, the identity configuration, `git fetch`,
      `git checkout main`, `git pull origin main` and the creation of the
      branch. */
  datatype Commands = Commands(
    setup: Outcome,
    revParse: Result<string>,
    diffNames: Result<string>,
    prView: Result<string>,
    prCreate: Result<string>)

  /** The commit: the model's non-empty value, else the trimmed output of
      `git rev-parse HEAD`, else `unknown` when that command fails. */
  function CommitSha(parsed: PartialCoderOutput, revParse: Result<string>): (sha: string)
    ensures parsed.commitSha.Some? && parsed.commitSha.value != "" ==> sha == parsed.commitSha.value
    ensures (parsed.commitSha.None? || parsed.commitSha.value == "") ==>
              sha == (if revParse.Ok? then Trim(revParse.value) else UnknownCommit)
  {
    var sha := OrElse(parsed.commitSha, "");
    if sha != "" then sha
    else match revParse
      case Ok(out) => Trim(out)
      case Err(_) => UnknownCommit
  }

  /** The changed files: the model's non-empty list, else the non-empty lines
      of `git diff --name-only HEAD~1`, else none when that command fails. */
  function FilesChanged(parsed: PartialCoderOutput, diffNames: Result<string>): (files: seq<string>)
    ensures parsed.filesChanged.Some? && |parsed.filesChanged.value| > 0 ==> files == parsed.filesChanged.value
    ensures (parsed.filesChanged.None? || |parsed.filesChanged.value| == 0) && diffNames.Err? ==> files == []
    ensures (parsed.filesChanged.None? || |parsed.filesChanged.value| == 0) && diffNames.Ok? ==>
              && (forall k | 0 <= k < |files| :: files[k] != "" && '\n' !in files[k])
              && files == NonEmpty(Split(Trim(diffNames.value), '\n'))
  {
    var files := parsed.filesChanged.GetOr([]);
    if |files| > 0 then files
    else match diffNames
      case Ok(out) => NonEmpty(Split(Trim(out), '\n'))
      case Err(_) => []
  }

  /** The pull request: the model's non-empty value, else `gh pr view`, else
      `gh pr create`, else the literal `PR creation failed`. */
  function PrUrl(parsed: PartialCoderOutput, prView: Result<string>, prCreate: Result<string>): (url: string)
    ensures parsed.prUrl.Some? && parsed.prUrl.value != "" ==> url == parsed.prUrl.value
    ensures (parsed.prUrl.None? || parsed.prUrl.value == "") ==>
              url == (if prView.Ok? then Trim(prView.value)
                      else if prCreate.Ok? then Trim(prCreate.value)
                      else PrCreationFailed)
  {
    var url := OrElse(parsed.prUrl, "");
    if url != "" then url
    else match prView
      case Ok(out) => Trim(out)
      case Err(_) =>
        match prCreate
        case Ok(out) => Trim(out)
        case Err(_) => PrCreationFailed
  }

  /** `executeCode(plan)`: a setup failure propagates; a plan without
      `proposedChanges` then throws while the prompt is built, before the
      model is called; a failed model call propagates; otherwise the output
      is assembled field by field from the model's JSON and the fallback
      commands, `testsPassed` defaulting to true. */
  function ExecuteCode(
    plan: ImplementationPlan,
    commands: Commands,
    response: Result<string>,
    decode: string -> Option<PartialCoderOutput>): (r: Result<CoderOutput>)
    ensures commands.setup.Fail? ==> r == Err(commands.setup.message)
    ensures commands.setup.Pass? && plan.proposedChanges.None? ==> r == Err(MissingChangesError)
    ensures commands.setup.Pass? && plan.proposedChanges.Some? && response.Err? ==> r == Err(response.message)
    ensures commands.setup.Pass? && plan.proposedChanges.Some? && response.Ok? ==>
              var parsed := ParseJsonFromResponse(response.value, decode);
              && r.Ok?
              && r.value.commitSha == CommitSha(parsed, commands.revParse)
              && r.value.filesChanged == FilesChanged(parsed, commands.diffNames)
              && r.value.prUrl == PrUrl(parsed, commands.prView, commands.prCreate)
              && (r.value.testsPassed <==> parsed.testsPassed != Some(false))
  {
    match commands.setup
    case Fail(message) => Err(message)
    case Pass =>
      if plan.proposedChanges.None? then Err(MissingChangesError)
      else match response
      case Err(message) => Err(message)
      case Ok(text) =>
        var parsed := ParseJsonFromResponse(text, decode);
        Ok(CoderOutput(
          PrUrl(parsed, commands.prView, commands.prCreate),
          FilesChanged(parsed, commands.diffNames),
          parsed.testsPassed.GetOr(true),
          CommitSha(parsed, commands.revParse)))
  }

  /** A response with no JSON at all still completes: every field comes from
      the fallbacks and the tests count as passed. */
  lemma NoJsonFallsBack(plan: ImplementationPlan, commands: Commands, response: string,
                        decode: string -> Option<PartialCoderOutput>)
    requires commands.setup.Pass? && plan.proposedChanges.Some?
    requires '{' !in response
    ensures var r := ExecuteCode(plan, commands, Ok(response), decode);
            && r.Ok?
            && r.value.testsPassed
            && r.value.commitSha == (if commands.revParse.Ok? then Trim(commands.revParse.value) else UnknownCommit)
            && r.value.prUrl == PrUrl(EmptyOutput, commands.prView, commands.prCreate)
  {
  }
}
