/** The `developFeature` workflow of
    packages/workflows/src/workflows/develop-feature.ts as a pure function.

    Every activity call is one outcome, already past the engine's retries,
    read from a scripted `Env`: a `Result` for an activity whose value is
    used, an `Outcome` for a notification. Signals arrive in windows, one
    per stretch of the run in which the workflow is suspended and the
    handlers can run, and are applied in order when the workflow next looks
    at its state. The 24-hour approval wait is finer: its window is a
    sequence of workflow activations, and its condition is tested after
    each whole one. The run returns what the workflow returned (or the error
    that escaped it), the activity calls it made in order, and its final
    state. */
module DevelopFeature {
  import opened Wrappers
  import opened Strings
  import opened Types
  import opened FixChain

  // ---------------------------------------------------------------------
  // Input, output and state
  // ---------------------------------------------------------------------

  datatype DevelopFeatureInput = DevelopFeatureInput(
    task: Task,
    skipApproval: Option<bool>,
    notifyOnComplete: Option<bool>,
    isFixTask: Option<bool>,
    originalTaskId: Option<string>)

  /** Approval is skipped unless the caller says otherwise. */
  predicate SkipApproval(input: DevelopFeatureInput) {
    input.skipApproval.GetOr(true)
  }

  predicate NotifyOnComplete(input: DevelopFeatureInput) {
    input.notifyOnComplete.GetOr(true)
  }

  /** `isFixTask && originalTaskId`: an empty id is falsy. */
  predicate IsFixRun(input: DevelopFeatureInput) {
    input.isFixTask.GetOr(false) && input.originalTaskId.Some? && input.originalTaskId.value != ""
  }

  /** `originalTaskId || task.id`: the root a fix task is filed under. */
  function RootTaskId(input: DevelopFeatureInput): string {
    OrElse(input.originalTaskId, input.task.id)
  }

  datatype Status = Completed | Failed | Cancelled | FixTaskCreated

  datatype DevelopFeatureOutput = DevelopFeatureOutput(
    status: Status,
    prUrl: Option<string>,
    plan: Option<ImplementationPlan>,
    commitSha: Option<string>,
    error: Option<string>,
    fixTaskId: Option<string>)

  datatype ApprovalStatus = Pending | Approved | Rejected

  /** The workflow's mutable state. Its `phase` is left out: every return
      that reports it sets it to `failed` first. */
  datatype WorkflowState = WorkflowState(
    plan: Option<ImplementationPlan>,
    prUrl: Option<string>,
    commitSha: Option<string>,
    approvalStatus: ApprovalStatus,
    approvalComment: Option<string>,
    error: Option<string>,
    retryCount: nat)

  /** The state together with the `cancelled` flag. */
  datatype Machine = Machine(state: WorkflowState, cancelled: bool)

  const Initial := Machine(WorkflowState(None, None, None, Pending, None, None, 0), false)

  // ---------------------------------------------------------------------
  // Signals
  // ---------------------------------------------------------------------

  datatype Signal = Approval(approved: bool, comment: Option<string>) | Cancel

  /** The two signal handlers. An approval overwrites both the status and
      the comment, erasing an earlier comment when it carries none; a cancel
      sets the flag, which nothing clears. */
  function OnSignal(m: Machine, signal: Signal): Machine {
    match signal
    case Approval(approved, comment) =>
      m.(state := m.state.(approvalStatus := if approved then Approved else Rejected, approvalComment := comment))
    case Cancel => m.(cancelled := true)
  }

  /** The last approval signal of a window, if any. */
  function LastApproval(signals: seq<Signal>): (r: Option<Signal>)
    ensures r.Some? ==> r.value.Approval? && r.value in signals
    ensures r.None? ==> forall s | s in signals :: s == Cancel
  {
    if |signals| == 0 then None
    else
      assert signals == [signals[0]] + signals[1..];
      match LastApproval(signals[1..])
      case Some(s) => Some(s)
      case None => if signals[0].Approval? then Some(signals[0]) else None
  }

  /** The handlers run over a window of signals, in arrival order: the
      latest approval wins, any cancel leaves the flag set, and nothing else
      in the state changes. */
  function Deliver(m: Machine, signals: seq<Signal>): (r: Machine)
    ensures r.cancelled <==> m.cancelled || Cancel in signals
    ensures LastApproval(signals).None? ==>
              r.state.approvalStatus == m.state.approvalStatus && r.state.approvalComment == m.state.approvalComment
    ensures LastApproval(signals).Some? ==>
              var a := LastApproval(signals).value;
              && r.state.approvalStatus == (if a.approved then Approved else Rejected)
              && r.state.approvalComment == a.comment
    ensures r.state.(approvalStatus := m.state.approvalStatus, approvalComment := m.state.approvalComment) == m.state
    decreases |signals|
  {
    if |signals| == 0 then m
    else
      assert signals == [signals[0]] + signals[1..];
      Deliver(OnSignal(m, signals[0]), signals[1..])
  }

  /** What the approval wait holds once a window has run through it. */
  predicate Settled(m: Machine) {
    m.state.approvalStatus != Pending || m.cancelled
  }

  /** How `condition(..., '24h')` resolved: `gotApproval`, the state after
      the activations it consumed, how many it consumed, and the signals of
      the activations still to come. */
  datatype Wait = Wait(gotApproval: bool, machine: Machine, consumed: nat, rest: seq<Signal>)

  /** The signals of a sequence of activations, in arrival order. */
  function Flatten(batches: seq<seq<Signal>>): (r: seq<Signal>)
    ensures forall s | s in r :: exists k | 0 <= k < |batches| :: s in batches[k]
  {
    if |batches| == 0 then [] else batches[0] + Flatten(batches[1..])
  }

  /** The 24-hour wait over the workflow activations that deliver signals
      before the deadline. Every handler of one activation runs before the
      workflow looks at its state again, so the condition is tested when
      the wait begins and after each whole activation; the wait ends at the
      first point where it holds, and otherwise at the deadline with every
      activation consumed. */
  function AwaitApproval(m: Machine, batches: seq<seq<Signal>>): (w: Wait)
    ensures w.consumed <= |batches|
    ensures w.rest == Flatten(batches[w.consumed..])
    ensures w.machine == Deliver(m, Flatten(batches[..w.consumed]))
    ensures w.gotApproval <==> Settled(w.machine)
    ensures !w.gotApproval ==> w.consumed == |batches|
    ensures forall k | 0 <= k < w.consumed :: !Settled(Deliver(m, Flatten(batches[..k])))
    decreases |batches|
  {
    if Settled(m) then
      assert batches[0..] == batches;
      Wait(true, m, 0, Flatten(batches))
    else if |batches| == 0 then Wait(false, m, 0, [])
    else
      var w := AwaitApproval(Deliver(m, batches[0]), batches[1..]);
      AwaitShift(m, batches, w.machine, w.consumed, w.rest);
      Wait(w.gotApproval, w.machine, w.consumed + 1, w.rest)
  }

  /** A wait that went past the first activation, seen from before it: the
      activations it consumed, and those it left, shift by one. */
  lemma AwaitShift(m: Machine, batches: seq<seq<Signal>>, after: Machine, consumed: nat, rest: seq<Signal>)
    requires |batches| > 0 && !Settled(m) && consumed < |batches|
    requires rest == Flatten(batches[1..][consumed..])
    requires after == Deliver(Deliver(m, batches[0]), Flatten(batches[1..][..consumed]))
    requires forall k | 0 <= k < consumed :: !Settled(Deliver(Deliver(m, batches[0]), Flatten(batches[1..][..k])))
    ensures rest == Flatten(batches[consumed + 1..])
    ensures after == Deliver(m, Flatten(batches[..consumed + 1]))
    ensures forall k | 0 <= k < consumed + 1 :: !Settled(Deliver(m, Flatten(batches[..k])))
  {
    assert batches[consumed + 1..] == batches[1..][consumed..];
    FlattenPrefix(m, batches, consumed + 1);
    forall k | 0 <= k < consumed + 1
      ensures !Settled(Deliver(m, Flatten(batches[..k])))
    {
      if k > 0 {
        FlattenPrefix(m, batches, k);
      } else {
        assert batches[..0] == [];
      }
    }
  }

  /** Delivering a batches in two parts is delivering it whole. */
  lemma {:induction false} DeliverConcat(m: Machine, a: seq<Signal>, b: seq<Signal>)
    ensures Deliver(m, a + b) == Deliver(Deliver(m, a), b)
    decreases |a|
  {
    if |a| > 0 {
      assert (a + b)[1..] == a[1..] + b;
      DeliverConcat(OnSignal(m, a[0]), a[1..], b);
    } else {
      assert a + b == b;
    }
  }

  /** Delivering the first `k` activations is delivering the first one,
      then the next `k - 1`. */
  lemma FlattenPrefix(m: Machine, batches: seq<seq<Signal>>, k: nat)
    requires 1 <= k <= |batches|
    ensures Deliver(m, Flatten(batches[..k])) == Deliver(Deliver(m, batches[0]), Flatten(batches[1..][..k - 1]))
  {
    assert batches[..k][1..] == batches[1..][..k - 1];
    assert Flatten(batches[..k]) == batches[0] + Flatten(batches[1..][..k - 1]);
    DeliverConcat(m, batches[0], Flatten(batches[1..][..k - 1]));
  }

  // ---------------------------------------------------------------------
  // Activity calls and the scripted environment
  // ---------------------------------------------------------------------

  datatype NoticeKind = LoopDetected | PlanReady | FixTaskNotice | TaskComplete | TaskFailed

  /** One activity call, with the arguments the model keeps. */
  datatype Call =
    | CheckLoop(rootId: string)
    | PlanTask(task: Task)
    | Notify(kind: NoticeKind, priority: NotificationPriority)
    | ExecuteCode(plan: ImplementationPlan)
    | VerifyBuild(prUrl: string)
    | CreateFix(request: FixTaskRequest)

  /** The outcome of every activity call and the signals of every window. */
  datatype Env = Env(
    loopCheck: Result<LoopCheck>,
    plan: Result<ImplementationPlan>,
    coder: Result<CoderOutput>,
    firstVerify: Result<DeployerOutput>,
    secondVerify: Result<DeployerOutput>,
    fixTask: Result<FixTaskResult>,
    notifyLoop: Outcome,
    notifyPlanReady: Outcome,
    notifyFixTask: Outcome,
    notifyComplete: Outcome,
    notifyFailure: Outcome,
    // signals that arrive before the check that follows planning
    beforePlanCheck: seq<Signal>,
    // signals handled while the plan-ready notice is being sent
    duringNotice: seq<Signal>,
    // the activations that deliver signals during the 24-hour wait, one
    // batch of signals each
    untilDeadline: seq<seq<Signal>>,
    // signals that arrive while the coder runs
    duringCoding: seq<Signal>,
    // signals that arrive once verification has started
    afterCoding: seq<Signal>)

  /** How the workflow ends: it returns an output, or the notification in
      its catch block fails and that error escapes. */
  datatype Ending = Returned(output: DevelopFeatureOutput) | Escaped(message: string)

  datatype Run = Run(ending: Ending, trace: seq<Call>, machine: Machine)

  // ---------------------------------------------------------------------
  // The workflow
  // ---------------------------------------------------------------------

  function LoopMessage(chainDepth: nat): string {
    "Fix-task loop detected after " + NatToString(chainDepth) + " attempts. Escalated to human."
  }

  const ApprovalTimeoutMessage := "Plan not approved within 24 hours"
  const RejectedPrefix := "Plan rejected: "
  const NoReasonGiven := "No reason given"
  const VerificationFailedPrefix := "Build/test verification failed: "

  function RejectedMessage(comment: Option<string>): string {
    RejectedPrefix + OrElse(comment, NoReasonGiven)
  }

  function CancelledOutput(prUrl: Option<string>): DevelopFeatureOutput {
    DevelopFeatureOutput(Cancelled, prUrl, None, None, None, None)
  }

  function FailedOutput(plan: Option<ImplementationPlan>, error: string): DevelopFeatureOutput {
    DevelopFeatureOutput(Failed, None, plan, None, Some(error), None)
  }

  /** The request filed for a verification that still fails. */
  function FixRequest(input: DevelopFeatureInput, coded: CoderOutput, verified: DeployerOutput): FixTaskRequest {
    FixTaskRequest(RootTaskId(input), input.task.title, VerificationFailedPrefix + verified.logs, Some(coded.commitSha))
  }

  function FixOutput(plan: ImplementationPlan, coded: CoderOutput, verified: DeployerOutput, fix: FixTaskResult): DevelopFeatureOutput {
    DevelopFeatureOutput(FixTaskCreated, Some(coded.prUrl), Some(plan), None, Some(VerificationFailedPrefix + verified.logs),
                         Some(fix.fixTaskId))
  }

  predicate FirstFails(env: Env) {
    env.firstVerify.Ok? && !Passed(env.firstVerify.value)
  }

  predicate SecondFails(env: Env) {
    env.secondVerify.Ok? && !Passed(env.secondVerify.value)
  }

  /** The body of the `try` block either returns or throws. */
  datatype Flow = Done(output: DevelopFeatureOutput) | Threw(message: string)

  /** Where a stretch of the `try` block ends: how, the calls it made, and
      the state it left. */
  datatype Step = Step(flow: Flow, trace: seq<Call>, machine: Machine)

  function Prepend(call: Call, s: Step): (r: Step)
    ensures r.flow == s.flow && r.machine == s.machine
    ensures |r.trace| == |s.trace| + 1 && r.trace[0] == call && r.trace[1..] == s.trace
    ensures multiset(r.trace) == multiset{call} + multiset(s.trace)
    ensures forall c | c in r.trace :: c == call || c in s.trace
  {
    Step(s.flow, [call] + s.trace, s.machine)
  }

  /** The calls that can follow the coder. */
  predicate LateCall(c: Call) {
    c.VerifyBuild? || c.CreateFix? || c == Notify(FixTaskNotice, PriorityHigh) || c == Notify(TaskComplete, PriorityNormal)
  }

  /** Every `verifyBuild` call is on the coder's PR; there are at most two,
      two only after a failed first one, and the retry counter records the
      second. */
  predicate VerifiedAsScripted(env: Env, s: Step, retryCount: nat) {
    && (forall c | c in s.trace && c.VerifyBuild? :: env.coder.Ok? && c == VerifyBuild(env.coder.value.prUrl))
    && (env.coder.Ok? ==>
          var n := multiset(s.trace)[VerifyBuild(env.coder.value.prUrl)];
          && n <= 2
          && (n == 2 ==> FirstFails(env))
          && s.machine.state.retryCount == (if n == 2 then 1 else retryCount))
  }

  /** Every `createFixTask` call follows two failed verifications and files
      the second failure; two failed verifications always file it, once. */
  predicate FiledAsScripted(input: DevelopFeatureInput, env: Env, plan: Option<ImplementationPlan>, s: Step) {
    && (forall c | c in s.trace && c.CreateFix? ::
          env.coder.Ok? && FirstFails(env) && SecondFails(env)
          && c == CreateFix(FixRequest(input, env.coder.value, env.secondVerify.value)))
    && (env.coder.Ok? && env.secondVerify.Ok? && CreateFix(FixRequest(input, env.coder.value, env.secondVerify.value)) in s.trace ==>
          multiset(s.trace)[VerifyBuild(env.coder.value.prUrl)] == 2)
    && (env.coder.Ok? && SecondFails(env) && multiset(s.trace)[VerifyBuild(env.coder.value.prUrl)] == 2 ==>
          && multiset(s.trace)[CreateFix(FixRequest(input, env.coder.value, env.secondVerify.value))] == 1
          && (env.fixTask.Ok? && env.notifyFixTask.Pass? && plan.Some? ==>
                s.flow == Done(FixOutput(plan.value, env.coder.value, env.secondVerify.value, env.fixTask.value))))
  }

  /** A cancelled return comes right after planning, the plan-ready notice
      or the coder, with nothing verified or filed, and reports the PR
      exactly when it comes after the coder. */
  predicate CancelledEarly(env: Env, s: Step) {
    s.flow.Done? && s.flow.output.status == Cancelled ==>
      && |s.trace| > 0
      && (forall c | c in s.trace :: c.CheckLoop? || c.PlanTask? || c == Notify(PlanReady, PriorityHigh) || c.ExecuteCode?)
      && (var last := s.trace[|s.trace| - 1];
          && (last.PlanTask? || last == Notify(PlanReady, PriorityHigh) || last.ExecuteCode?)
          && (s.flow.output.prUrl.Some? <==> last.ExecuteCode?))
      && (s.flow.output.prUrl.Some? ==> env.coder.Ok? && s.flow.output.prUrl.value == env.coder.value.prUrl)
      && s.flow.output == CancelledOutput(s.flow.output.prUrl)
  }

  /** Phase 5 (develop-feature.ts lines 275-340): file a fix task for a
      verification that still fails, or report completion. */
  function Concluding(input: DevelopFeatureInput, env: Env, plan: ImplementationPlan, coded: CoderOutput,
                      verified: DeployerOutput, m: Machine): (s: Step)
    ensures forall c | c in s.trace :: LateCall(c) && !c.VerifyBuild?
    ensures forall c | c in s.trace && c.CreateFix? :: !Passed(verified) && c == CreateFix(FixRequest(input, coded, verified))
    ensures !Passed(verified) ==>
              && multiset(s.trace)[CreateFix(FixRequest(input, coded, verified))] == 1
              && (env.fixTask.Ok? && env.notifyFixTask.Pass? ==> s.flow == Done(FixOutput(plan, coded, verified, env.fixTask.value)))
    ensures Passed(verified) && s.flow.Done? ==> s.flow.output.status == Completed
    ensures s.flow.Done? ==> s.flow.output.status != Cancelled
    ensures s.machine.state.plan == m.state.plan && s.machine.state.retryCount == m.state.retryCount
  {
    if !Passed(verified) then
      var error := VerificationFailedPrefix + verified.logs;
      var m := m.(state := m.state.(error := Some(error)));
      var call := CreateFix(FixRequest(input, coded, verified));
      match env.fixTask
      case Err(e) => Step(Threw(e), [call], m)
      case Ok(fix) =>
        var trace := [call, Notify(FixTaskNotice, PriorityHigh)];
        match env.notifyFixTask
        case Fail(e) => Step(Threw(e), trace, m)
        case Pass => Step(Done(FixOutput(plan, coded, verified, fix)), trace, m)
    else
      var output := DevelopFeatureOutput(Completed, Some(coded.prUrl), Some(plan), Some(coded.commitSha), None, None);
      if NotifyOnComplete(input) then
        var trace := [Notify(TaskComplete, PriorityNormal)];
        match env.notifyComplete
        case Fail(e) => Step(Threw(e), trace, m)
        case Pass => Step(Done(output), trace, m)
      else Step(Done(output), [], m)
  }

  /** The retry of phase 4 (develop-feature.ts lines 263-271): count the
      retry and verify once more; whatever this second attempt reports is
      what the workflow concludes from. */
  function Retrying(input: DevelopFeatureInput, env: Env, plan: ImplementationPlan, coded: CoderOutput, m: Machine): (s: Step)
    ensures |s.trace| > 0 && s.trace[0] == VerifyBuild(coded.prUrl)
    ensures forall c | c in s.trace :: LateCall(c)
    ensures forall c | c in s.trace && c.VerifyBuild? :: c == VerifyBuild(coded.prUrl)
    ensures multiset(s.trace)[VerifyBuild(coded.prUrl)] == 1
    ensures s.machine.state.retryCount == 1 && s.machine.state.plan == m.state.plan
    ensures forall c | c in s.trace && c.CreateFix? :: SecondFails(env) && c == CreateFix(FixRequest(input, coded, env.secondVerify.value))
    ensures SecondFails(env) ==>
              && multiset(s.trace)[CreateFix(FixRequest(input, coded, env.secondVerify.value))] == 1
              && (env.fixTask.Ok? && env.notifyFixTask.Pass? ==>
                    s.flow == Done(FixOutput(plan, coded, env.secondVerify.value, env.fixTask.value)))
    ensures s.flow.Done? ==> s.flow.output.status != Cancelled
  {
    var call := VerifyBuild(coded.prUrl);
    var m := m.(state := m.state.(retryCount := 1));
    match env.secondVerify
    case Err(e) => Step(Threw(e), [call], m)
    case Ok(second) => Prepend(call, Concluding(input, env, plan, coded, second, m))
  }

  /** Phase 4 (develop-feature.ts lines 259-272): verify, and verify once
      more if the first attempt failed. */
  function Deploying(input: DevelopFeatureInput, env: Env, plan: ImplementationPlan, coded: CoderOutput, m: Machine): (s: Step)
    ensures |s.trace| > 0 && s.trace[0] == VerifyBuild(coded.prUrl)
    ensures forall c | c in s.trace :: LateCall(c)
    ensures forall c | c in s.trace && c.VerifyBuild? :: c == VerifyBuild(coded.prUrl)
    ensures multiset(s.trace)[VerifyBuild(coded.prUrl)] == (if FirstFails(env) then 2 else 1)
    ensures s.machine.state.retryCount == (if FirstFails(env) then 1 else m.state.retryCount)
    ensures s.machine.state.plan == m.state.plan
    ensures forall c | c in s.trace && c.CreateFix? ::
              FirstFails(env) && SecondFails(env) && c == CreateFix(FixRequest(input, coded, env.secondVerify.value))
    ensures FirstFails(env) && SecondFails(env) ==>
              && multiset(s.trace)[CreateFix(FixRequest(input, coded, env.secondVerify.value))] == 1
              && (env.fixTask.Ok? && env.notifyFixTask.Pass? ==>
                    s.flow == Done(FixOutput(plan, coded, env.secondVerify.value, env.fixTask.value)))
    ensures s.flow.Done? ==> s.flow.output.status != Cancelled
  {
    var call := VerifyBuild(coded.prUrl);
    match env.firstVerify
    case Err(e) => Step(Threw(e), [call], m)
    case Ok(first) =>
      if !Passed(first) then Prepend(call, Retrying(input, env, plan, coded, m))
      else Prepend(call, Concluding(input, env, plan, coded, first, m))
  }

  /** Phase 3 (develop-feature.ts lines 246-254): run the coder, then honour
      a cancel, reporting the PR. The signals the approval wait left
      unconsumed arrive during this phase; those that arrive once
      verification has started are delivered but never looked at. */
  function Coding(input: DevelopFeatureInput, env: Env, plan: ImplementationPlan, pending: seq<Signal>, m: Machine): (s: Step)
    ensures |s.trace| > 0 && s.trace[0] == ExecuteCode(plan)
    ensures forall c | c in s.trace[1..] :: LateCall(c)
    ensures VerifiedAsScripted(env, s, m.state.retryCount)
    ensures FiledAsScripted(input, env, Some(plan), s)
    ensures s.flow.Done? && s.flow.output.status == Cancelled ==>
              env.coder.Ok? && s.trace == [ExecuteCode(plan)] && s.flow.output == CancelledOutput(Some(env.coder.value.prUrl))
    ensures s.machine.state.plan == m.state.plan
  {
    var call := ExecuteCode(plan);
    match env.coder
    case Err(e) => Step(Threw(e), [call], m)
    case Ok(coded) =>
      var m := Deliver(m.(state := m.state.(prUrl := Some(coded.prUrl), commitSha := Some(coded.commitSha))),
                       pending + env.duringCoding);
      if m.cancelled then Step(Done(CancelledOutput(Some(coded.prUrl))), [call], m)
      else Prepend(call, Deploying(input, env, plan, coded, Deliver(m, env.afterCoding)))
  }

  /** Phase 2 (develop-feature.ts lines 187-241), once the plan-ready
      notice has been built (Planning handles a plan it cannot be built
      from): announce the plan and wait up to 24 hours for a verdict. A
      cancel is looked at before the verdict, a status still pending is a
      timeout, a rejection carries its comment, and an approval goes on to
      the coder. */
  /** The approval wait as the workflow runs it: the signals handled while
      the notice was sent have all been applied before the condition is
      first tested. */
  function ApprovalWait(env: Env, m: Machine): Wait {
    AwaitApproval(Deliver(m, env.duringNotice), env.untilDeadline)
  }

  function Approving(input: DevelopFeatureInput, env: Env, plan: ImplementationPlan, m: Machine): (s: Step)
    requires plan.proposedChanges.Some?
    ensures |s.trace| > 0 && s.trace[0] == Notify(PlanReady, PriorityHigh)
    ensures env.notifyPlanReady.Pass? ==>
              var w := ApprovalWait(env, m);
              && (w.machine.cancelled ==> s.flow == Done(CancelledOutput(None)) && s.trace == [Notify(PlanReady, PriorityHigh)])
              && (!w.machine.cancelled && w.machine.state.approvalStatus == Pending ==>
                    s.flow == Done(FailedOutput(Some(plan), ApprovalTimeoutMessage)))
              && (!w.machine.cancelled && w.machine.state.approvalStatus == Rejected ==>
                    s.flow == Done(FailedOutput(Some(plan), RejectedMessage(w.machine.state.approvalComment))))
              && (!w.machine.cancelled && w.machine.state.approvalStatus == Approved <==> ExecuteCode(plan) in s.trace)
    ensures s.machine.state.plan == m.state.plan
  {
    var call := Notify(PlanReady, PriorityHigh);
    match env.notifyPlanReady
    case Fail(e) => Step(Threw(e), [call], m)
    case Pass =>
      var w := ApprovalWait(env, m);
      var m := w.machine;
      if m.cancelled then Step(Done(CancelledOutput(None)), [call], m)
      else if !w.gotApproval || m.state.approvalStatus == Pending then
        Step(Done(FailedOutput(Some(plan), ApprovalTimeoutMessage)), [call],
             m.(state := m.state.(error := Some(ApprovalTimeoutMessage))))
      else if m.state.approvalStatus == Rejected then
        var error := RejectedMessage(m.state.approvalComment);
        Step(Done(FailedOutput(Some(plan), error)), [call], m.(state := m.state.(error := Some(error))))
      else Prepend(call, Coding(input, env, plan, w.rest, m))
  }

  /** The state once the plan is recorded and the signals sent while it was
      made have been handled. */
  function Planned(plan: ImplementationPlan, env: Env): (m: Machine)
    ensures m.state.plan == Some(plan) && m.state.retryCount == 0
    ensures m.cancelled <==> Cancel in env.beforePlanCheck
  {
    Deliver(Initial.(state := Initial.state.(plan := Some(plan))), env.beforePlanCheck)
  }

  /** Phase 1 (develop-feature.ts lines 174-182): plan, then honour a
      cancel, then go on to approval or straight to the coder. The
      plan-ready notice (line 200) reads `plan.proposedChanges`, so with
      approval required a plan without it throws before anything is sent. */
  function Planning(input: DevelopFeatureInput, env: Env): (s: Step)
    ensures |s.trace| > 0 && s.trace[0] == PlanTask(input.task)
    ensures s.machine.state.plan == env.plan.ToOption()
    ensures env.plan.Ok? && !Planned(env.plan.value, env).cancelled && !SkipApproval(input) ==>
              (env.plan.value.proposedChanges.None? <==> s.flow == Threw(MissingChangesError) && s.trace == [PlanTask(input.task)])
  {
    var call := PlanTask(input.task);
    match env.plan
    case Err(e) => Step(Threw(e), [call], Initial)
    case Ok(plan) =>
      var m := Planned(plan, env);
      if m.cancelled then Step(Done(CancelledOutput(None)), [call], m)
      else if !SkipApproval(input) then
        if plan.proposedChanges.None? then Step(Threw(MissingChangesError), [call], m)
        else Prepend(call, Approving(input, env, plan, m))
      else Prepend(call, Coding(input, env, plan, [], m))
  }

  /** The loop guard (develop-feature.ts lines 142-169), run for fix runs
      only, and everything after it. */
  function LoopGuard(input: DevelopFeatureInput, env: Env): (s: Step)
    ensures PlanTask(input.task) in s.trace ==> s.machine.state.plan == env.plan.ToOption()
    ensures PlanTask(input.task) !in s.trace ==> s.machine.state.plan.None?
  {
    if IsFixRun(input) then
      var call := CheckLoop(input.originalTaskId.value);
      match env.loopCheck
      case Err(e) => Step(Threw(e), [call], Initial)
      case Ok(check) =>
        if check.isLoop then
          var trace := [call, Notify(LoopDetected, PriorityHigh)];
          match env.notifyLoop
          case Fail(e) => Step(Threw(e), trace, Initial)
          case Pass => Step(Done(FailedOutput(None, LoopMessage(check.chainDepth))), trace, Initial)
        else Prepend(call, Planning(input, env))
    else Planning(input, env)
  }

  /** `developFeature`: the `try` block, then the `catch` block for an error
      thrown by any activity in it. The catch block reports the error and
      the plan, if one was made; if its own notification fails, that error
      escapes the workflow. */
  function Workflow(input: DevelopFeatureInput, env: Env): (run: Run)
    ensures LoopGuard(input, env).flow.Done? ==>
              run == Run(Returned(LoopGuard(input, env).flow.output), LoopGuard(input, env).trace, LoopGuard(input, env).machine)
    ensures LoopGuard(input, env).flow.Threw? ==>
              && run.trace == LoopGuard(input, env).trace + [Notify(TaskFailed, PriorityHigh)]
              && run.machine.state.error == Some(LoopGuard(input, env).flow.message)
              && (env.notifyFailure.Pass? ==>
                    run.ending == Returned(FailedOutput(LoopGuard(input, env).machine.state.plan, LoopGuard(input, env).flow.message)))
              && (env.notifyFailure.Fail? ==> run.ending == Escaped(env.notifyFailure.message))
  {
    var step := LoopGuard(input, env);
    match step.flow
    case Done(output) => Run(Returned(output), step.trace, step.machine)
    case Threw(e) =>
      var m := step.machine.(state := step.machine.state.(error := Some(e)));
      var trace := step.trace + [Notify(TaskFailed, PriorityHigh)];
      match env.notifyFailure
      case Pass => Run(Returned(FailedOutput(m.state.plan, e)), trace, m)
      case Fail(f) => Run(Escaped(f), trace, m)
  }
}
