/** `planTask` (packages/workflows/src/activities/planner.ts): the prompt
    sections built from the task, the strict JSON extraction, and the plan
    assembled from the model's answer. The model call is an input; JSON
    parsing is the `decode` parameter (`None` for invalid JSON). */
module Planner {
  import opened Wrappers
  import opened Strings
  import opened Types
  import JsonSpan

  /** The model's answer, read as `PlannerOutput`; nothing checks that the
      fields are present. */
  datatype PlannerOutput = PlannerOutput(
    proposedChanges: Option<seq<FileChange>>,
    verificationPlan: Option<string>,
    estimatedEffort: Option<string>)

  const NoSpanError := "Failed to parse JSON from Planner response"
  const InvalidJsonError := "Invalid JSON in Planner response"
  const FilesNotSpecified := "Not specified - analyze the codebase to determine."

  /** One numbered criterion: `i. c`. */
  function CriterionLine(i: nat, c: string): string {
    NatToString(i) + ". " + c
  }

  /** The criteria numbered from `from` on. */
  function NumberedFrom(criteria: seq<string>, from: nat): (lines: seq<string>)
    ensures |lines| == |criteria|
    ensures forall k | 0 <= k < |criteria| :: lines[k] == CriterionLine(from + k, criteria[k])
  {
    if |criteria| == 0 then [] else [CriterionLine(from, criteria[0])] + NumberedFrom(criteria[1..], from + 1)
  }

  /** The acceptance-criteria section: line `k` is `k+1. c_k`, in input
      order; a missing list renders as an empty one. */
  function CriteriaSection(criteria: Option<seq<string>>): (text: string)
    ensures criteria.None? ==> text == ""
    ensures criteria.Some? ==> text == Join(NumberedFrom(criteria.value, 1), "\n")
  {
    Join(NumberedFrom(criteria.GetOr([]), 1), "\n")
  }

  /** One `- f` line per file. */
  function FileLines(files: seq<string>): (lines: seq<string>)
    ensures |lines| == |files|
    ensures forall k | 0 <= k < |files| :: lines[k] == "- " + files[k]
  {
    if |files| == 0 then [] else ["- " + files[0]] + FileLines(files[1..])
  }

  /** The files section: `- f` per file, or the fixed "not specified" text
      when the list is missing or empty. */
  function FilesSection(files: Option<seq<string>>): (text: string)
    ensures (files.None? || |files.value| == 0) ==> text == FilesNotSpecified
    ensures files.Some? && |files.value| > 0 ==> text == Join(FileLines(files.value), "\n")
  {
    var fs := files.GetOr([]);
    if |fs| > 0 then Join(FileLines(fs), "\n") else FilesNotSpecified
  }

  /** The priority line: the task's priority, `medium` when missing. */
  function PriorityText(p: Option<Priority>): (text: string)
    ensures p.None? ==> text == "medium"
    ensures p.Some? ==> text == PriorityName(p.value)
  {
    PriorityName(p.GetOr(Medium))
  }

  /** The planner's `parseJsonFromResponse`: unlike the coder's, it fails
      loudly, with one message for a missing span and another for a span that
      is not JSON. */
  function ParseJsonFromResponse(response: string, decode: string -> Option<PlannerOutput>): (r: Result<PlannerOutput>)
    ensures !JsonSpan.HasBracePair(response) <==> r == Err(NoSpanError)
    ensures r == Err(InvalidJsonError) <==>
              JsonSpan.HasBracePair(response) && decode(JsonSpan.Extract(response).value).None?
    ensures r.Ok? ==> JsonSpan.Extract(response).Some? && decode(JsonSpan.Extract(response).value) == Some(r.value)
    ensures JsonSpan.HasBracePair(response) && decode(JsonSpan.Extract(response).value).Some? ==>
              r == Ok(decode(JsonSpan.Extract(response).value).value)
  {
    match JsonSpan.Extract(response)
    case None => Err(NoSpanError)
    case Some(span) =>
      match decode(span)
      case None => Err(InvalidJsonError)
      case Some(out) => Ok(out)
  }

  /** `planTask(task)`: a failed model call or parse propagates; otherwise the
      plan belongs to the task and copies the answer's fields unchecked. */
  function PlanTask(task: Task, response: Result<string>, decode: string -> Option<PlannerOutput>): (r: Result<ImplementationPlan>)
    ensures response.Err? ==> r == Err(response.message)
    ensures r.Ok? ==> r.value.taskId == task.id
    ensures response.Ok? ==>
              match ParseJsonFromResponse(response.value, decode)
              case Err(m) => r == Err(m)
              case Ok(out) =>
                r == Ok(ImplementationPlan(task.id, out.proposedChanges, out.verificationPlan, out.estimatedEffort))
  {
    match response
    case Err(message) => Err(message)
    case Ok(text) =>
      match ParseJsonFromResponse(text, decode)
      case Err(message) => Err(message)
      case Ok(out) => Ok(ImplementationPlan(task.id, out.proposedChanges, out.verificationPlan, out.estimatedEffort))
  }

  /** An answer lacking an opening or a closing brace fails planning with
      the "failed to parse" message, whatever the decoder would say. */
  lemma ProseAnswerFails(task: Task, response: string, decode: string -> Option<PlannerOutput>)
    requires '{' !in response || '}' !in response
    ensures PlanTask(task, Ok(response), decode) == Err(NoSpanError)
  {
    assert forall i | 0 <= i < |response| :: response[i] in response;
  }

  /** The criteria section can be read back: split on newlines it gives the
      numbered lines, one per criterion, provided no criterion spans lines. */
  lemma CriteriaSectionReadsBack(criteria: seq<string>)
    requires |criteria| > 0
    requires forall k | 0 <= k < |criteria| :: '\n' !in criteria[k]
    ensures Split(CriteriaSection(Some(criteria)), '\n') == NumberedFrom(criteria, 1)
  {
    var lines := NumberedFrom(criteria, 1);
    forall k | 0 <= k < |lines|
      ensures '\n' !in lines[k]
    {
      var digits := NatToString(1 + k);
      assert lines[k] == digits + ". " + criteria[k];
      assert !IsDigit('\n');
    }
    SplitJoin(lines, '\n');
  }
}
