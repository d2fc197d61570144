/** The records exchanged between the workflow and its activities
    (packages/shared/src/types.ts). Fields that callers may leave out at run
    time, and that the code defaults, are `Option`s. */
module Types {
  import opened Wrappers

  datatype Priority = Low | Medium | High | Critical

  function PriorityName(p: Priority): string {
    match p
    case Low => "low"
    case Medium => "medium"
    case High => "high"
    case Critical => "critical"
  }

  /** A task as submitted. `acceptanceCriteria`, `filesToModify` and
      `priority` are declared mandatory but the planner defaults them, so they
      are modelled as possibly absent. The creation time and free-form
      metadata are not modelled. */
  datatype Task = Task(
    id: string,
    title: string,
    context: string,
    acceptanceCriteria: Option<seq<string>>,
    filesToModify: Option<seq<string>>,
    priority: Option<Priority>)

  datatype FileAction = Create | Modify | Delete

  datatype FileChange = FileChange(path: string, action: FileAction, description: string)

  /** The planner copies these fields from the model's JSON without checking
      them, so each may be missing. */
  datatype ImplementationPlan = ImplementationPlan(
    taskId: string,
    proposedChanges: Option<seq<FileChange>>,
    verificationPlan: Option<string>,
    estimatedEffort: Option<string>)

  /** The message of the `TypeError` the JavaScript runtime raises where
      `plan.proposedChanges.map(...)` is evaluated on a plan whose
      `proposedChanges` is missing. */
  const MissingChangesError := "Cannot read properties of undefined (reading 'map')"

  datatype CoderOutput = CoderOutput(
    prUrl: string,
    filesChanged: seq<string>,
    testsPassed: bool,
    commitSha: string)

  datatype DeployerOutput = DeployerOutput(
    buildSuccess: bool,
    testsPassed: bool,
    deployedTo: Option<string>,
    logs: string)

  /** A verification passes only when both the build and the tests pass. */
  predicate Passed(d: DeployerOutput) {
    d.buildSuccess && d.testsPassed
  }

  datatype NotificationPriority = PriorityLow | PriorityNormal | PriorityHigh

  datatype AgentRole = Planner | Coder | Deployer | Supervisor

  function RoleName(role: AgentRole): string {
    match role
    case Planner => "planner"
    case Coder => "coder"
    case Deployer => "deployer"
    case Supervisor => "supervisor"
  }
}
