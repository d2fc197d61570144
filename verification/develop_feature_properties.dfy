/** What `developFeature` promises, stated over every input and every
    scripted environment of the model in module DevelopFeature. */
module DevelopFeatureProperties {
  import opened Wrappers
  import opened Strings
  import opened Types
  import opened FixChain
  import opened DevelopFeature

  /** The loop-guard call a run starts with, if it is a fix run. */
  function GuardPrefix(input: DevelopFeatureInput): seq<Call> {
    if IsFixRun(input) then [CheckLoop(input.originalTaskId.value)] else []
  }

  /** The loop guard lets the run go on to planning. */
  predicate GuardPasses(input: DevelopFeatureInput, env: Env) {
    !IsFixRun(input) || (env.loopCheck.Ok? && !env.loopCheck.value.isLoop)
  }

  // ---------------------------------------------------------------------
  // Each phase keeps the promises of the phases after it
  // ---------------------------------------------------------------------

  /** The wait ended in an approval the coder may act on. */
  predicate Proceeds(w: Wait) {
    !w.machine.cancelled && w.gotApproval && w.machine.state.approvalStatus == Approved
  }

  /** Approval either hands over to the coder after the plan-ready
      notice, or stops right after that notice without returning a
      success and without touching the retry counter. */
  lemma ApprovingSplit(input: DevelopFeatureInput, env: Env, plan: ImplementationPlan, m: Machine)
    requires plan.proposedChanges.Some?
    ensures var w := ApprovalWait(env, m);
            env.notifyPlanReady.Pass? && Proceeds(w) ==>
              Approving(input, env, plan, m) == Prepend(Notify(PlanReady, PriorityHigh), Coding(input, env, plan, w.rest, w.machine))
    ensures var w := ApprovalWait(env, m);
            var s := Approving(input, env, plan, m);
            !(env.notifyPlanReady.Pass? && Proceeds(w)) ==>
              && s.trace == [Notify(PlanReady, PriorityHigh)]
              && s.machine.state.retryCount == m.state.retryCount
              && (s.flow.Done? ==> s.flow.output.status == Failed || s.flow.output == CancelledOutput(None))
  {
  }

  /** A stretch that neither verifies nor files keeps the facts about
      both. */
  lemma NothingVerified(input: DevelopFeatureInput, env: Env, plan: Option<ImplementationPlan>, s: Step, retryCount: nat)
    requires forall c | c in s.trace :: !c.VerifyBuild? && !c.CreateFix?
    requires s.machine.state.retryCount == retryCount
    ensures VerifiedAsScripted(env, s, retryCount)
    ensures FiledAsScripted(input, env, plan, s)
  {
    if env.coder.Ok? {
      assert VerifyBuild(env.coder.value.prUrl) !in s.trace;
    }
  }

  /** Planning either hands over to approval or to the coder after the
      planner's call, or stops right after that call. */
  lemma PlanningSplit(input: DevelopFeatureInput, env: Env)
    ensures env.plan.Ok? && !Planned(env.plan.value, env).cancelled && !SkipApproval(input) && env.plan.value.proposedChanges.Some? ==>
              Planning(input, env) == Prepend(PlanTask(input.task), Approving(input, env, env.plan.value, Planned(env.plan.value, env)))
    ensures env.plan.Ok? && !Planned(env.plan.value, env).cancelled && SkipApproval(input) ==>
              Planning(input, env) == Prepend(PlanTask(input.task), Coding(input, env, env.plan.value, [], Planned(env.plan.value, env)))
    ensures var s := Planning(input, env);
            !(env.plan.Ok? && !Planned(env.plan.value, env).cancelled) ==>
              && s.trace == [PlanTask(input.task)]
              && s.machine.state.retryCount == 0
              && (s.flow.Done? ==> s.flow.output == CancelledOutput(None))
    ensures var s := Planning(input, env);
            env.plan.Ok? && !Planned(env.plan.value, env).cancelled && !SkipApproval(input) && env.plan.value.proposedChanges.None? ==>
              && s.trace == [PlanTask(input.task)]
              && s.machine.state.retryCount == 0
              && s.flow == Threw(MissingChangesError)
  {
  }

  /** A passing loop guard adds its check, if any, in front of planning. */
  lemma GuardThenPlanning(input: DevelopFeatureInput, env: Env)
    requires GuardPasses(input, env)
    ensures LoopGuard(input, env) == (if IsFixRun(input) then Prepend(CheckLoop(input.originalTaskId.value), Planning(input, env))
                                      else Planning(input, env))
    ensures LoopGuard(input, env).trace == GuardPrefix(input) + Planning(input, env).trace
    ensures LoopGuard(input, env).flow == Planning(input, env).flow
    ensures LoopGuard(input, env).machine == Planning(input, env).machine
  {
  }

  /** Planner, plan-ready notice, coder and late calls send no failure
      notice. */
  lemma NoFailureNotice(prefix: seq<Call>, p: Step)
    requires forall c | c in prefix :: c.CheckLoop?
    requires |p.trace| > 0 && p.trace[0].PlanTask?
    requires forall c | c in p.trace[1..] :: c == Notify(PlanReady, PriorityHigh) || c.ExecuteCode? || LateCall(c)
    ensures forall c | c in prefix + p.trace && c.Notify? :: c.kind != TaskFailed
  {
    forall c | c in prefix + p.trace && c.Notify?
      ensures c.kind != TaskFailed
    {
      if c !in prefix {
        assert c == p.trace[0] || c in p.trace[1..];
      }
    }
  }

  /** A call that does not verify keeps the verification facts. */
  lemma PrependVerifies(env: Env, call: Call, s: Step, retryCount: nat)
    requires VerifiedAsScripted(env, s, retryCount) && !call.VerifyBuild?
    ensures VerifiedAsScripted(env, Prepend(call, s), retryCount)
  {
    var r := Prepend(call, s);
    forall c ensures multiset(r.trace)[c] == multiset(s.trace)[c] + (if c == call then 1 else 0) {
    }
  }

  /** A call that neither verifies nor files keeps the fix-task facts. */
  lemma PrependFiles(input: DevelopFeatureInput, env: Env, plan: Option<ImplementationPlan>, call: Call, s: Step)
    requires FiledAsScripted(input, env, plan, s) && !call.VerifyBuild? && !call.CreateFix?
    ensures FiledAsScripted(input, env, plan, Prepend(call, s))
  {
    var r := Prepend(call, s);
    forall c ensures multiset(r.trace)[c] == multiset(s.trace)[c] + (if c == call then 1 else 0) {
    }
  }

  /** A call made before a cancel point keeps the cancellation facts. */
  lemma PrependCancels(env: Env, call: Call, s: Step)
    requires CancelledEarly(env, s)
    requires call.CheckLoop? || call.PlanTask? || call == Notify(PlanReady, PriorityHigh)
    ensures CancelledEarly(env, Prepend(call, s))
  {
    var r := Prepend(call, s);
    if r.flow.Done? && r.flow.output.status == Cancelled {
      assert r.trace[|r.trace| - 1] == s.trace[|s.trace| - 1];
    }
  }

  /** Approval makes only the plan-ready notice, the coder's call and what
      follows it. */
  lemma ApprovingCalls(input: DevelopFeatureInput, env: Env, plan: ImplementationPlan, m: Machine)
    requires plan.proposedChanges.Some?
    ensures forall c | c in Approving(input, env, plan, m).trace[1..] :: c == ExecuteCode(plan) || LateCall(c)
  {
    ApprovingSplit(input, env, plan, m);
    var w := ApprovalWait(env, m);
    if env.notifyPlanReady.Pass? && Proceeds(w) {
      var s := Coding(input, env, plan, w.rest, w.machine);
      assert forall c | c in s.trace :: c == s.trace[0] || c in s.trace[1..];
    }
  }

  lemma PlanningCalls(input: DevelopFeatureInput, env: Env)
    ensures forall c | c in Planning(input, env).trace[1..] ::
              c == Notify(PlanReady, PriorityHigh) || c.ExecuteCode? || LateCall(c)
  {
    PlanningSplit(input, env);
    if env.plan.Ok? && !Planned(env.plan.value, env).cancelled {
      var m := Planned(env.plan.value, env);
      if !SkipApproval(input) && env.plan.value.proposedChanges.Some? {
        ApprovingCalls(input, env, env.plan.value, m);
      } else {
        var s := Coding(input, env, env.plan.value, [], m);
        assert forall c | c in s.trace :: c == s.trace[0] || c in s.trace[1..];
      }
    }
  }

  /** The `try` block never sends the failure notice. */
  lemma GuardCalls(input: DevelopFeatureInput, env: Env)
    ensures forall c | c in LoopGuard(input, env).trace && c.Notify? :: c.kind != TaskFailed
  {
    if GuardPasses(input, env) {
      PlanningCalls(input, env);
      GuardThenPlanning(input, env);
      NoFailureNotice(GuardPrefix(input), Planning(input, env));
    } else {
      GuardStops(input, env);
    }
  }

  /** A run the guard stops makes neither the planner's call nor any later
      one. */
  lemma GuardStops(input: DevelopFeatureInput, env: Env)
    requires !GuardPasses(input, env)
    ensures LoopGuard(input, env).flow == (if env.loopCheck.Ok? && env.notifyLoop.Pass?
                                           then Done(FailedOutput(None, LoopMessage(env.loopCheck.value.chainDepth)))
                                           else Threw(if env.loopCheck.Err? then env.loopCheck.message else env.notifyLoop.message))
    ensures LoopGuard(input, env).machine == Initial
    ensures forall c | c in LoopGuard(input, env).trace :: c.CheckLoop? || c == Notify(LoopDetected, PriorityHigh)
  {
  }

  /** A step that is either one call followed by `next`, or that one call
      alone with the retry counter untouched, verifies and files as
      scripted when `next` does and the call does neither. */
  lemma CallThenScripted(input: DevelopFeatureInput, env: Env, plan: Option<ImplementationPlan>,
                         s: Step, call: Call, next: Step, proceeds: bool, retryCount: nat)
    requires !call.VerifyBuild? && !call.CreateFix?
    requires proceeds ==> s == Prepend(call, next)
    requires proceeds ==> VerifiedAsScripted(env, next, retryCount) && FiledAsScripted(input, env, plan, next)
    requires !proceeds ==> s.trace == [call] && s.machine.state.retryCount == retryCount
    ensures VerifiedAsScripted(env, s, retryCount)
    ensures FiledAsScripted(input, env, plan, s)
  {
    if proceeds {
      PrependVerifies(env, call, next, retryCount);
      PrependFiles(input, env, plan, call, next);
    } else {
      NothingVerified(input, env, plan, s, retryCount);
    }
  }

  lemma ApprovingScripted(input: DevelopFeatureInput, env: Env, plan: ImplementationPlan, m: Machine)
    requires plan.proposedChanges.Some?
    ensures VerifiedAsScripted(env, Approving(input, env, plan, m), m.state.retryCount)
    ensures FiledAsScripted(input, env, Some(plan), Approving(input, env, plan, m))
  {
    ApprovingSplit(input, env, plan, m);
    var w := ApprovalWait(env, m);
    var next := Coding(input, env, plan, w.rest, w.machine);
    assert w.machine.state.retryCount == m.state.retryCount;
    CallThenScripted(input, env, Some(plan), Approving(input, env, plan, m), Notify(PlanReady, PriorityHigh), next,
                     env.notifyPlanReady.Pass? && Proceeds(w), m.state.retryCount);
  }

  lemma ApprovingVerifies(input: DevelopFeatureInput, env: Env, plan: ImplementationPlan, m: Machine)
    requires plan.proposedChanges.Some?
    ensures VerifiedAsScripted(env, Approving(input, env, plan, m), m.state.retryCount)
  {
    ApprovingScripted(input, env, plan, m);
  }

  lemma ApprovingFiles(input: DevelopFeatureInput, env: Env, plan: ImplementationPlan, m: Machine)
    requires plan.proposedChanges.Some?
    ensures FiledAsScripted(input, env, Some(plan), Approving(input, env, plan, m))
  {
    ApprovingScripted(input, env, plan, m);
  }

  lemma PlanningVerifies(input: DevelopFeatureInput, env: Env)
    ensures VerifiedAsScripted(env, Planning(input, env), 0)
  {
    PlanningSplit(input, env);
    if env.plan.Ok? && !Planned(env.plan.value, env).cancelled {
      var m := Planned(env.plan.value, env);
      if !SkipApproval(input) && env.plan.value.proposedChanges.None? {
        NothingVerified(input, env, Some(env.plan.value), Planning(input, env), 0);
      } else if !SkipApproval(input) {
        ApprovingVerifies(input, env, env.plan.value, m);
        PrependVerifies(env, PlanTask(input.task), Approving(input, env, env.plan.value, m), 0);
      } else {
        PrependVerifies(env, PlanTask(input.task), Coding(input, env, env.plan.value, [], m), 0);
      }
    }
  }

  lemma GuardVerifies(input: DevelopFeatureInput, env: Env)
    ensures VerifiedAsScripted(env, LoopGuard(input, env), 0)
  {
    if GuardPasses(input, env) {
      PlanningVerifies(input, env);
      GuardThenPlanning(input, env);
      if IsFixRun(input) {
        PrependVerifies(env, CheckLoop(input.originalTaskId.value), Planning(input, env), 0);
      }
    } else {
      GuardStops(input, env);
    }
  }

  lemma PlanningFiles(input: DevelopFeatureInput, env: Env)
    ensures FiledAsScripted(input, env, env.plan.ToOption(), Planning(input, env))
  {
    PlanningSplit(input, env);
    if env.plan.Ok? && !Planned(env.plan.value, env).cancelled {
      var m := Planned(env.plan.value, env);
      if !SkipApproval(input) && env.plan.value.proposedChanges.None? {
        NothingVerified(input, env, Some(env.plan.value), Planning(input, env), 0);
      } else if !SkipApproval(input) {
        ApprovingFiles(input, env, env.plan.value, m);
        PrependFiles(input, env, Some(env.plan.value), PlanTask(input.task), Approving(input, env, env.plan.value, m));
      } else {
        PrependFiles(input, env, Some(env.plan.value), PlanTask(input.task), Coding(input, env, env.plan.value, [], m));
      }
    }
  }

  lemma GuardFiles(input: DevelopFeatureInput, env: Env)
    ensures FiledAsScripted(input, env, env.plan.ToOption(), LoopGuard(input, env))
  {
    if GuardPasses(input, env) {
      PlanningFiles(input, env);
      GuardThenPlanning(input, env);
      if IsFixRun(input) {
        PrependFiles(input, env, env.plan.ToOption(), CheckLoop(input.originalTaskId.value), Planning(input, env));
      }
    } else {
      GuardStops(input, env);
    }
  }

  /** The coder's step is cancelled only right after the coder. */
  lemma CodingCancels(input: DevelopFeatureInput, env: Env, plan: ImplementationPlan, pending: seq<Signal>, m: Machine)
    ensures CancelledEarly(env, Coding(input, env, plan, pending, m))
  {
  }

  /** A step that is either the plan-ready notice followed by `next`, or
      that notice alone ending in a failure or a bare cancel, keeps the
      cancellation facts when `next` does. */
  lemma NoticeThenCancels(env: Env, s: Step, next: Step, proceeds: bool)
    requires proceeds ==> s == Prepend(Notify(PlanReady, PriorityHigh), next) && CancelledEarly(env, next)
    requires !proceeds ==> && s.trace == [Notify(PlanReady, PriorityHigh)]
                           && (s.flow.Done? ==> s.flow.output.status == Failed || s.flow.output == CancelledOutput(None))
    ensures CancelledEarly(env, s)
  {
    if proceeds {
      PrependCancels(env, Notify(PlanReady, PriorityHigh), next);
    }
  }

  lemma ApprovingCancels(input: DevelopFeatureInput, env: Env, plan: ImplementationPlan, m: Machine)
    requires plan.proposedChanges.Some?
    ensures CancelledEarly(env, Approving(input, env, plan, m))
  {
    ApprovingSplit(input, env, plan, m);
    var w := ApprovalWait(env, m);
    var next := Coding(input, env, plan, w.rest, w.machine);
    CodingCancels(input, env, plan, w.rest, w.machine);
    NoticeThenCancels(env, Approving(input, env, plan, m), next, env.notifyPlanReady.Pass? && Proceeds(w));
  }

  lemma PlanningCancels(input: DevelopFeatureInput, env: Env)
    ensures CancelledEarly(env, Planning(input, env))
  {
    PlanningSplit(input, env);
    if env.plan.Ok? && !Planned(env.plan.value, env).cancelled {
      var m := Planned(env.plan.value, env);
      if !SkipApproval(input) && env.plan.value.proposedChanges.Some? {
        ApprovingCancels(input, env, env.plan.value, m);
        PrependCancels(env, PlanTask(input.task), Approving(input, env, env.plan.value, m));
      } else {
        CodingCancels(input, env, env.plan.value, [], m);
        PrependCancels(env, PlanTask(input.task), Coding(input, env, env.plan.value, [], m));
      }
    }
  }

  lemma GuardCancels(input: DevelopFeatureInput, env: Env)
    ensures CancelledEarly(env, LoopGuard(input, env))
  {
    if GuardPasses(input, env) {
      PlanningCancels(input, env);
      GuardThenPlanning(input, env);
      if IsFixRun(input) {
        PrependCancels(env, CheckLoop(input.originalTaskId.value), Planning(input, env));
      }
    } else {
      GuardStops(input, env);
    }
  }

  // ---------------------------------------------------------------------
  // Loop guard
  // ---------------------------------------------------------------------

  /** A fix run whose chain is already a loop sends one high-priority
      notice and fails naming the depth; it never plans, codes, verifies or
      files another fix task. */
  lemma LoopEscalates(input: DevelopFeatureInput, env: Env, check: LoopCheck)
    requires IsFixRun(input) && env.loopCheck == Ok(check) && check.isLoop && env.notifyLoop == Pass
    ensures Workflow(input, env).ending == Returned(FailedOutput(None, LoopMessage(check.chainDepth)))
    ensures Workflow(input, env).trace == [CheckLoop(input.originalTaskId.value), Notify(LoopDetected, PriorityHigh)]
  {
  }

  /** Two fix tasks filed under a root make the next fix run for that root
      escalate, whatever the counter held before. */
  lemma SecondFixRunEscalates(store: FixChain.Store, first: FixTaskRequest, second: FixTaskRequest,
                              input: DevelopFeatureInput, env: Env)
    requires IsFixRun(input)
    requires first.originalTaskId == input.originalTaskId.value && second.originalTaskId == input.originalTaskId.value
    requires env.loopCheck == Ok(CheckFixTaskLoop(CreateFixTask(CreateFixTask(store, first).0, second).0, input.originalTaskId.value))
    requires env.notifyLoop == Pass
    ensures Workflow(input, env).ending.Returned?
    ensures Workflow(input, env).ending.output.status == Failed
    ensures PlanTask(input.task) !in Workflow(input, env).trace
  {
    SecondFixTaskTripsGuard(store, first, second);
    LoopEscalates(input, env, env.loopCheck.value);
  }

  // ---------------------------------------------------------------------
  // Completion
  // ---------------------------------------------------------------------

  /** Without approval, cancel or failure the run completes with the plan,
      the PR and the commit, and notifies exactly when asked to. */
  lemma HappyPath(input: DevelopFeatureInput, env: Env, plan: ImplementationPlan, coded: CoderOutput, verified: DeployerOutput)
    requires SkipApproval(input) && GuardPasses(input, env)
    requires env.plan == Ok(plan) && env.coder == Ok(coded) && env.firstVerify == Ok(verified) && Passed(verified)
    requires Cancel !in env.beforePlanCheck && Cancel !in env.duringCoding
    requires NotifyOnComplete(input) ==> env.notifyComplete == Pass
    ensures Workflow(input, env).ending ==
              Returned(DevelopFeatureOutput(Completed, Some(coded.prUrl), Some(plan), Some(coded.commitSha), None, None))
    ensures Workflow(input, env).trace ==
              GuardPrefix(input) + [PlanTask(input.task), ExecuteCode(plan), VerifyBuild(coded.prUrl)]
              + (if NotifyOnComplete(input) then [Notify(TaskComplete, PriorityNormal)] else [])
    ensures Workflow(input, env).machine.state.retryCount == 0
  {
    var p := PlanningCompletes(input, env, plan, coded);
    GuardThenPlanning(input, env);
    CompletedRun(input, env, plan, coded, p, LoopGuard(input, env), Workflow(input, env));
    FirstTryTrace(input, env, plan, coded, Workflow(input, env).trace);
  }

  lemma FirstTryTrace(input: DevelopFeatureInput, env: Env, plan: ImplementationPlan, coded: CoderOutput, trace: seq<Call>)
    requires !FirstFails(env)
    requires trace == GuardPrefix(input) + [PlanTask(input.task), ExecuteCode(plan)] + CompletedTail(input, env, coded)
    ensures trace == GuardPrefix(input) + [PlanTask(input.task), ExecuteCode(plan), VerifyBuild(coded.prUrl)]
                     + (if NotifyOnComplete(input) then [Notify(TaskComplete, PriorityNormal)] else [])
  {
  }

  /** A completed try block is the run, after the guard's call if any. */
  lemma CompletedRun(input: DevelopFeatureInput, env: Env, plan: ImplementationPlan, coded: CoderOutput,
                     p: Step, s: Step, run: Run)
    requires p.flow == Done(CompletedOutput(plan, coded))
    requires p.trace == [PlanTask(input.task), ExecuteCode(plan)] + CompletedTail(input, env, coded)
    requires s.flow == p.flow && s.trace == GuardPrefix(input) + p.trace && s.machine == p.machine
    requires s.flow.Done? ==> run == Run(Returned(s.flow.output), s.trace, s.machine)
    ensures run.ending == Returned(CompletedOutput(plan, coded))
    ensures run.trace == GuardPrefix(input) + [PlanTask(input.task), ExecuteCode(plan)] + CompletedTail(input, env, coded)
    ensures run.machine == p.machine
  {
  }

  /** The output of a completed run. */
  function CompletedOutput(plan: ImplementationPlan, coded: CoderOutput): DevelopFeatureOutput {
    DevelopFeatureOutput(Completed, Some(coded.prUrl), Some(plan), Some(coded.commitSha), None, None)
  }

  /** The calls after the coder in a completed run. */
  function CompletedTail(input: DevelopFeatureInput, env: Env, coded: CoderOutput): seq<Call> {
    (if FirstFails(env) then [VerifyBuild(coded.prUrl), VerifyBuild(coded.prUrl)] else [VerifyBuild(coded.prUrl)])
    + (if NotifyOnComplete(input) then [Notify(TaskComplete, PriorityNormal)] else [])
  }

  /** The verification ends in a pass, on the first or the second try. */
  predicate EventuallyPasses(input: DevelopFeatureInput, env: Env) {
    && env.firstVerify.Ok?
    && (Passed(env.firstVerify.value) || (env.secondVerify.Ok? && Passed(env.secondVerify.value)))
    && (NotifyOnComplete(input) ==> env.notifyComplete == Pass)
  }

  lemma ConcludingCompletes(input: DevelopFeatureInput, env: Env, plan: ImplementationPlan, coded: CoderOutput,
                            verified: DeployerOutput, m: Machine)
    requires Passed(verified) && (NotifyOnComplete(input) ==> env.notifyComplete == Pass)
    ensures Concluding(input, env, plan, coded, verified, m).flow == Done(CompletedOutput(plan, coded))
    ensures Concluding(input, env, plan, coded, verified, m).trace ==
              (if NotifyOnComplete(input) then [Notify(TaskComplete, PriorityNormal)] else [])
  {
  }

  lemma DeployingCompletes(input: DevelopFeatureInput, env: Env, plan: ImplementationPlan, coded: CoderOutput, m: Machine)
    requires EventuallyPasses(input, env)
    ensures Deploying(input, env, plan, coded, m).flow == Done(CompletedOutput(plan, coded))
    ensures Deploying(input, env, plan, coded, m).trace == CompletedTail(input, env, coded)
  {
    var first := env.firstVerify.value;
    if Passed(first) {
      ConcludingCompletes(input, env, plan, coded, first, m);
    } else {
      var second := env.secondVerify.value;
      ConcludingCompletes(input, env, plan, coded, second, m.(state := m.state.(retryCount := 1)));
    }
  }

  lemma CodingCompletes(input: DevelopFeatureInput, env: Env, plan: ImplementationPlan, coded: CoderOutput, m: Machine)
    requires env.coder == Ok(coded) && EventuallyPasses(input, env)
    requires !m.cancelled && Cancel !in env.duringCoding
    ensures Coding(input, env, plan, [], m).flow == Done(CompletedOutput(plan, coded))
    ensures Coding(input, env, plan, [], m).trace == [ExecuteCode(plan)] + CompletedTail(input, env, coded)
    ensures Coding(input, env, plan, [], m).machine.state.retryCount == (if FirstFails(env) then 1 else m.state.retryCount)
  {
    assert [] + env.duringCoding == env.duringCoding;
    var m1 := Deliver(m.(state := m.state.(prUrl := Some(coded.prUrl), commitSha := Some(coded.commitSha))), [] + env.duringCoding);
    DeployingCompletes(input, env, plan, coded, Deliver(m1, env.afterCoding));
  }

  /** Without approval and without a cancel, planning hands straight over
      to the coder. */
  lemma PlanningSkipsApproval(input: DevelopFeatureInput, env: Env, plan: ImplementationPlan)
    requires SkipApproval(input) && env.plan == Ok(plan) && Cancel !in env.beforePlanCheck
    ensures Planning(input, env) == Prepend(PlanTask(input.task), Coding(input, env, plan, [], Planned(plan, env)))
  {
  }

  /** Planning without approval, a cancel or a failure completes the run. */
  lemma PlanningCompletes(input: DevelopFeatureInput, env: Env, plan: ImplementationPlan, coded: CoderOutput) returns (p: Step)
    requires SkipApproval(input) && env.plan == Ok(plan) && env.coder == Ok(coded) && EventuallyPasses(input, env)
    requires Cancel !in env.beforePlanCheck && Cancel !in env.duringCoding
    ensures p == Planning(input, env)
    ensures p.flow == Done(CompletedOutput(plan, coded))
    ensures p.trace == [PlanTask(input.task), ExecuteCode(plan)] + CompletedTail(input, env, coded)
    ensures p.machine.state.retryCount == (if FirstFails(env) then 1 else 0)
  {
    var m := Planned(plan, env);
    CodingCompletes(input, env, plan, coded, m);
    PlanningSkipsApproval(input, env, plan);
    p := Planning(input, env);
    PrependShape(PlanTask(input.task), Coding(input, env, plan, [], m), p, Done(CompletedOutput(plan, coded)),
                 [ExecuteCode(plan)] + CompletedTail(input, env, coded), if FirstFails(env) then 1 else 0);
  }

  /** A call in front of a step of known shape. */
  lemma PrependShape(call: Call, s: Step, p: Step, flow: Flow, tail: seq<Call>, retryCount: nat)
    requires p == Prepend(call, s)
    requires s.flow == flow && s.trace == tail && s.machine.state.retryCount == retryCount
    ensures p.flow == flow && p.trace == [call] + tail && p.machine.state.retryCount == retryCount
  {
  }

  /** A first verification that fails and a second that passes still
      complete the run, after one retry. */
  lemma RetryRecovers(input: DevelopFeatureInput, env: Env, plan: ImplementationPlan, coded: CoderOutput,
                      first: DeployerOutput, second: DeployerOutput)
    requires SkipApproval(input) && GuardPasses(input, env)
    requires env.plan == Ok(plan) && env.coder == Ok(coded)
    requires env.firstVerify == Ok(first) && !Passed(first) && env.secondVerify == Ok(second) && Passed(second)
    requires Cancel !in env.beforePlanCheck && Cancel !in env.duringCoding
    requires NotifyOnComplete(input) ==> env.notifyComplete == Pass
    ensures Workflow(input, env).ending ==
              Returned(DevelopFeatureOutput(Completed, Some(coded.prUrl), Some(plan), Some(coded.commitSha), None, None))
    ensures multiset(Workflow(input, env).trace)[VerifyBuild(coded.prUrl)] == 2
    ensures Workflow(input, env).machine.state.retryCount == 1
  {
    var p := PlanningCompletes(input, env, plan, coded);
    GuardThenPlanning(input, env);
    CompletedRun(input, env, plan, coded, p, LoopGuard(input, env), Workflow(input, env));
    RetriedTrace(input, plan, coded, Workflow(input, env).trace, CompletedTail(input, env, coded));
  }

  lemma RetriedTrace(input: DevelopFeatureInput, plan: ImplementationPlan, coded: CoderOutput, trace: seq<Call>, tail: seq<Call>)
    requires tail == [VerifyBuild(coded.prUrl), VerifyBuild(coded.prUrl)]
                     + (if NotifyOnComplete(input) then [Notify(TaskComplete, PriorityNormal)] else [])
    requires trace == GuardPrefix(input) + [PlanTask(input.task), ExecuteCode(plan)] + tail
    ensures multiset(trace)[VerifyBuild(coded.prUrl)] == 2
  {
  }

  // ---------------------------------------------------------------------
  // Verification and fix tasks
  // ---------------------------------------------------------------------

  /** `run` makes the calls `s` makes, plus at most the failure notice,
      and keeps its retry counter. */
  ghost predicate KeepsCalls(s: Step, run: Run) {
    && (forall c | c != Notify(TaskFailed, PriorityHigh) :: multiset(run.trace)[c] == multiset(s.trace)[c])
    && (forall c | c in run.trace :: c in s.trace || c == Notify(TaskFailed, PriorityHigh))
    && run.machine.state.retryCount == s.machine.state.retryCount
  }

  /** The catch block adds at most the failure notice to the try block's
      calls and keeps its retry counter. */
  lemma CatchKeepsCalls(input: DevelopFeatureInput, env: Env)
    ensures KeepsCalls(LoopGuard(input, env), Workflow(input, env))
  {
  }

  /** The verification facts of the try block carry over to the run. */
  lemma {:induction false} RunVerifies(env: Env, s: Step, run: Run, url: string)
    requires VerifiedAsScripted(env, s, 0) && KeepsCalls(s, run)
    ensures multiset(run.trace)[VerifyBuild(url)] <= 2
    ensures forall c | c in run.trace && c.VerifyBuild? :: env.coder.Ok? && c.prUrl == env.coder.value.prUrl
    ensures multiset(run.trace)[VerifyBuild(url)] == 2 ==> env.firstVerify.Ok? && !Passed(env.firstVerify.value)
    ensures env.coder.Ok? && url == env.coder.value.prUrl ==>
              (run.machine.state.retryCount == 1 <==> multiset(run.trace)[VerifyBuild(url)] == 2)
  {
    assert multiset(run.trace)[VerifyBuild(url)] == multiset(s.trace)[VerifyBuild(url)];
    if !(env.coder.Ok? && url == env.coder.value.prUrl) {
      assert VerifyBuild(url) !in s.trace;
    }
  }

  /** `verifyBuild` runs at most twice, always on the coder's PR; the second
      run happens only after a first one that reported failure, and the
      PR is verified twice exactly when the retry counter ends at 1. */
  lemma VerifyAtMostTwice(input: DevelopFeatureInput, env: Env, url: string)
    ensures multiset(Workflow(input, env).trace)[VerifyBuild(url)] <= 2
    ensures forall c | c in Workflow(input, env).trace && c.VerifyBuild? ::
              env.coder.Ok? && c.prUrl == env.coder.value.prUrl
    ensures multiset(Workflow(input, env).trace)[VerifyBuild(url)] == 2 ==>
              env.firstVerify.Ok? && !Passed(env.firstVerify.value)
    ensures env.coder.Ok? && url == env.coder.value.prUrl ==>
              (Workflow(input, env).machine.state.retryCount == 1 <==>
               multiset(Workflow(input, env).trace)[VerifyBuild(url)] == 2)
  {
    GuardVerifies(input, env);
    CatchKeepsCalls(input, env);
    RunVerifies(env, LoopGuard(input, env), Workflow(input, env), url);
  }

  /** The fix-task facts of the try block carry over to the run. */
  lemma {:induction false} RunFiles(input: DevelopFeatureInput, env: Env, s: Step, run: Run, request: FixTaskRequest)
    requires FiledAsScripted(input, env, env.plan.ToOption(), s) && VerifiedAsScripted(env, s, 0) && KeepsCalls(s, run)
    ensures multiset(run.trace)[CreateFix(request)] <= 1
    ensures CreateFix(request) in run.trace ==>
              && env.coder.Ok?
              && multiset(run.trace)[VerifyBuild(env.coder.value.prUrl)] == 2
              && env.secondVerify.Ok? && !Passed(env.secondVerify.value)
              && request == FixTaskRequest(RootTaskId(input), input.task.title,
                                           VerificationFailedPrefix + env.secondVerify.value.logs,
                                           Some(env.coder.value.commitSha))
  {
    assert multiset(run.trace)[CreateFix(request)] == multiset(s.trace)[CreateFix(request)];
    if CreateFix(request) in run.trace {
      assert CreateFix(request) in s.trace;
      assert multiset(run.trace)[VerifyBuild(env.coder.value.prUrl)] == multiset(s.trace)[VerifyBuild(env.coder.value.prUrl)];
    } else {
      assert multiset(s.trace)[CreateFix(request)] == 0;
    }
  }

  /** `createFixTask` is called only after two failed verifications, at
      most once, for the run's root task and with the second failure's
      logs. */
  lemma FixTaskOnlyAfterTwoFailures(input: DevelopFeatureInput, env: Env, request: FixTaskRequest)
    ensures multiset(Workflow(input, env).trace)[CreateFix(request)] <= 1
    ensures CreateFix(request) in Workflow(input, env).trace ==>
              && env.coder.Ok?
              && multiset(Workflow(input, env).trace)[VerifyBuild(env.coder.value.prUrl)] == 2
              && env.secondVerify.Ok? && !Passed(env.secondVerify.value)
              && request == FixTaskRequest(RootTaskId(input), input.task.title,
                                           VerificationFailedPrefix + env.secondVerify.value.logs,
                                           Some(env.coder.value.commitSha))
  {
    GuardFiles(input, env);
    GuardVerifies(input, env);
    CatchKeepsCalls(input, env);
    RunFiles(input, env, LoopGuard(input, env), Workflow(input, env), request);
  }

  /** Conversely, two failed verifications always file the fix task, and a
      run that gets through the notice returns its id with the PR and plan. */
  lemma TwoFailuresFileFixTask(input: DevelopFeatureInput, env: Env, coded: CoderOutput, second: DeployerOutput, fix: FixTaskResult)
    requires env.coder == Ok(coded) && env.secondVerify == Ok(second) && !Passed(second)
    requires env.fixTask == Ok(fix) && env.notifyFixTask == Pass
    ensures multiset(Workflow(input, env).trace)[VerifyBuild(coded.prUrl)] == 2 ==>
            var error := VerificationFailedPrefix + second.logs;
            && CreateFix(FixTaskRequest(RootTaskId(input), input.task.title, error, Some(coded.commitSha))) in Workflow(input, env).trace
            && Workflow(input, env).ending ==
                 Returned(DevelopFeatureOutput(FixTaskCreated, Some(coded.prUrl), env.plan.ToOption(), None, Some(error), Some(fix.fixTaskId)))
  {
    GuardFiles(input, env);
    GuardVerifies(input, env);
  }

  // ---------------------------------------------------------------------
  // Cancellation
  // ---------------------------------------------------------------------

  /** A cancelled run stops right after planning, the plan-ready notice or
      the coder; it has verified nothing, filed no fix task and sent no
      notice but the plan-ready one; and it reports the PR exactly when it
      stopped after the coder. */
  lemma CancelledReturns(input: DevelopFeatureInput, env: Env)
    ensures Workflow(input, env).ending.Returned? && Workflow(input, env).ending.output.status == Cancelled ==>
            var trace := Workflow(input, env).trace;
            && |trace| > 0
            && (trace[|trace| - 1].PlanTask? || trace[|trace| - 1] == Notify(PlanReady, PriorityHigh)
                || trace[|trace| - 1].ExecuteCode?)
            && (forall c | c in trace :: !c.VerifyBuild? && !c.CreateFix?)
            && (forall c | c in trace && c.Notify? :: c.kind == PlanReady)
    ensures Workflow(input, env).ending.Returned? && Workflow(input, env).ending.output.status == Cancelled ==>
            var trace := Workflow(input, env).trace;
            var output := Workflow(input, env).ending.output;
            && |trace| > 0
            && (output.prUrl.Some? <==> trace[|trace| - 1].ExecuteCode?)
            && (output.prUrl.Some? ==> env.coder.Ok? && output.prUrl.value == env.coder.value.prUrl)
            && output.plan.None? && output.error.None?
  {
    var run := Workflow(input, env);
    if run.ending.Returned? && run.ending.output.status == Cancelled {
      GuardCancels(input, env);
      CancelledRun(env, LoopGuard(input, env), run);
    }
  }

  /** The cancellation facts of the try block carry over to the run. */
  lemma CancelledRun(env: Env, s: Step, run: Run)
    requires CancelledEarly(env, s) && s.flow.Done?
    requires run == Run(Returned(s.flow.output), s.trace, s.machine)
    requires run.ending.output.status == Cancelled
    ensures var trace := run.trace;
            && |trace| > 0
            && (trace[|trace| - 1].PlanTask? || trace[|trace| - 1] == Notify(PlanReady, PriorityHigh)
                || trace[|trace| - 1].ExecuteCode?)
            && (forall c | c in trace :: !c.VerifyBuild? && !c.CreateFix?)
            && (forall c | c in trace && c.Notify? :: c.kind == PlanReady)
    ensures var trace := run.trace;
            var output := run.ending.output;
            && (output.prUrl.Some? <==> trace[|trace| - 1].ExecuteCode?)
            && (output.prUrl.Some? ==> env.coder.Ok? && output.prUrl.value == env.coder.value.prUrl)
            && output.plan.None? && output.error.None?
  {
  }

  /** Two steps that end the same way after the same calls. */
  predicate SameOutcome(a: Step, b: Step) {
    a.flow == b.flow && a.trace == b.trace
  }

  lemma ConcludingIgnoresLate(input: DevelopFeatureInput, env: Env, late: seq<Signal>, plan: ImplementationPlan,
                              coded: CoderOutput, verified: DeployerOutput, m1: Machine, m2: Machine)
    ensures SameOutcome(Concluding(input, env, plan, coded, verified, m1),
                        Concluding(input, env.(afterCoding := late), plan, coded, verified, m2))
  {
  }

  lemma RetryingIgnoresLate(input: DevelopFeatureInput, env: Env, late: seq<Signal>, plan: ImplementationPlan,
                            coded: CoderOutput, m1: Machine, m2: Machine)
    ensures SameOutcome(Retrying(input, env, plan, coded, m1),
                        Retrying(input, env.(afterCoding := late), plan, coded, m2))
  {
    if env.secondVerify.Ok? {
      ConcludingIgnoresLate(input, env, late, plan, coded, env.secondVerify.value,
                            m1.(state := m1.state.(retryCount := 1)), m2.(state := m2.state.(retryCount := 1)));
    }
  }

  lemma DeployingIgnoresLate(input: DevelopFeatureInput, env: Env, late: seq<Signal>, plan: ImplementationPlan,
                             coded: CoderOutput, m1: Machine, m2: Machine)
    ensures SameOutcome(Deploying(input, env, plan, coded, m1),
                        Deploying(input, env.(afterCoding := late), plan, coded, m2))
  {
    if env.firstVerify.Ok? {
      if !Passed(env.firstVerify.value) {
        RetryingIgnoresLate(input, env, late, plan, coded, m1, m2);
      } else {
        ConcludingIgnoresLate(input, env, late, plan, coded, env.firstVerify.value, m1, m2);
      }
    }
  }

  lemma CodingIgnoresLate(input: DevelopFeatureInput, env: Env, late: seq<Signal>, plan: ImplementationPlan,
                          pending: seq<Signal>, m: Machine)
    ensures SameOutcome(Coding(input, env, plan, pending, m), Coding(input, env.(afterCoding := late), plan, pending, m))
  {
    if env.coder.Ok? {
      var coded := env.coder.value;
      var m1 := Deliver(m.(state := m.state.(prUrl := Some(coded.prUrl), commitSha := Some(coded.commitSha))),
                        pending + env.duringCoding);
      if !m1.cancelled {
        DeployingIgnoresLate(input, env, late, plan, coded, Deliver(m1, env.afterCoding), Deliver(m1, late));
      }
    }
  }

  lemma ApprovingIgnoresLate(input: DevelopFeatureInput, env: Env, late: seq<Signal>, plan: ImplementationPlan, m: Machine)
    requires plan.proposedChanges.Some?
    ensures SameOutcome(Approving(input, env, plan, m), Approving(input, env.(afterCoding := late), plan, m))
  {
    var w := ApprovalWait(env, m);
    if env.notifyPlanReady.Pass? && !w.machine.cancelled && w.gotApproval && w.machine.state.approvalStatus != Pending
       && w.machine.state.approvalStatus != Rejected {
      var call := Notify(PlanReady, PriorityHigh);
      var lateEnv := env.(afterCoding := late);
      CodingIgnoresLate(input, env, late, plan, w.rest, w.machine);
      assert Approving(input, env, plan, m) == Prepend(call, Coding(input, env, plan, w.rest, w.machine));
      assert Approving(input, lateEnv, plan, m) == Prepend(call, Coding(input, lateEnv, plan, w.rest, w.machine));
    }
  }

  lemma PlanningIgnoresLate(input: DevelopFeatureInput, env: Env, late: seq<Signal>)
    ensures SameOutcome(Planning(input, env), Planning(input, env.(afterCoding := late)))
  {
    if env.plan.Ok? {
      var m := Planned(env.plan.value, env);
      assert Planned(env.plan.value, env.(afterCoding := late)) == m;
      if env.plan.value.proposedChanges.Some? {
        ApprovingIgnoresLate(input, env, late, env.plan.value, m);
      }
      CodingIgnoresLate(input, env, late, env.plan.value, [], m);
    }
  }

  lemma GuardIgnoresLate(input: DevelopFeatureInput, env: Env, late: seq<Signal>)
    ensures SameOutcome(LoopGuard(input, env), LoopGuard(input, env.(afterCoding := late)))
  {
    if GuardPasses(input, env) {
      PlanningIgnoresLate(input, env, late);
      GuardThenPlanning(input, env);
      GuardThenPlanning(input, env.(afterCoding := late));
    }
  }

  /** Once verification has started, signals change nothing: the run ends
      the same way and makes the same calls whatever arrives. */
  lemma LateSignalsIgnored(input: DevelopFeatureInput, env: Env, late: seq<Signal>)
    ensures Workflow(input, env.(afterCoding := late)).ending == Workflow(input, env).ending
    ensures Workflow(input, env.(afterCoding := late)).trace == Workflow(input, env).trace
  {
    GuardIgnoresLate(input, env, late);
  }

  // ---------------------------------------------------------------------
  // Approval
  // ---------------------------------------------------------------------

  /** With approval required, the wait's resolution decides the run: a
      cancel first, then a status still pending (timeout), then a
      rejection with its comment or "No reason given"; an approval goes on
      to the coder. */
  lemma ApprovalDecides(input: DevelopFeatureInput, env: Env, plan: ImplementationPlan)
    requires !SkipApproval(input) && GuardPasses(input, env)
    requires env.plan == Ok(plan) && plan.proposedChanges.Some? && Cancel !in env.beforePlanCheck && env.notifyPlanReady == Pass
    ensures var w := ApprovalWait(env, Planned(plan, env));
            var run := Workflow(input, env);
            && (w.machine.cancelled ==> run.ending == Returned(CancelledOutput(None)))
            && (!w.machine.cancelled && w.machine.state.approvalStatus == Pending ==>
                  run.ending == Returned(FailedOutput(Some(plan), ApprovalTimeoutMessage)))
            && (!w.machine.cancelled && w.machine.state.approvalStatus == Rejected ==>
                  run.ending == Returned(FailedOutput(Some(plan), RejectedMessage(w.machine.state.approvalComment))))
            && (!w.machine.cancelled && w.machine.state.approvalStatus == Approved <==> ExecuteCode(plan) in run.trace)
  {
    GuardApproval(input, env, plan);
    RunOfStep(LoopGuard(input, env), Workflow(input, env), ExecuteCode(plan));
  }

  /** A run ends as the step under its `catch` ends when that step
      returns, and the `catch` adds no call but the failure notice. */
  lemma RunOfStep(s: Step, run: Run, c: Call)
    requires s.flow.Done? ==> run == Run(Returned(s.flow.output), s.trace, s.machine)
    requires s.flow.Threw? ==> run.trace == s.trace + [Notify(TaskFailed, PriorityHigh)]
    requires !c.Notify?
    ensures s.flow.Done? ==> run.ending == Returned(s.flow.output)
    ensures c in run.trace <==> c in s.trace
  {
  }

  lemma GuardApproval(input: DevelopFeatureInput, env: Env, plan: ImplementationPlan)
    requires !SkipApproval(input) && GuardPasses(input, env)
    requires env.plan == Ok(plan) && plan.proposedChanges.Some? && Cancel !in env.beforePlanCheck && env.notifyPlanReady == Pass
    ensures var w := ApprovalWait(env, Planned(plan, env));
            var s := LoopGuard(input, env);
            && (w.machine.cancelled ==> s.flow == Done(CancelledOutput(None)))
            && (!w.machine.cancelled && w.machine.state.approvalStatus == Pending ==>
                  s.flow == Done(FailedOutput(Some(plan), ApprovalTimeoutMessage)))
            && (!w.machine.cancelled && w.machine.state.approvalStatus == Rejected ==>
                  s.flow == Done(FailedOutput(Some(plan), RejectedMessage(w.machine.state.approvalComment))))
            && (!w.machine.cancelled && w.machine.state.approvalStatus == Approved <==> ExecuteCode(plan) in s.trace)
  {
    GuardThenPlanning(input, env);
    PlanningSplit(input, env);
  }

  /** No signal before the deadline: the run fails on the timeout. */
  lemma SilenceTimesOut(input: DevelopFeatureInput, env: Env, plan: ImplementationPlan)
    requires !SkipApproval(input) && GuardPasses(input, env)
    requires env.plan == Ok(plan) && plan.proposedChanges.Some?
    requires env.beforePlanCheck == [] && env.duringNotice == [] && env.untilDeadline == [] && env.notifyPlanReady == Pass
    ensures Workflow(input, env).ending == Returned(FailedOutput(Some(plan), ApprovalTimeoutMessage))
  {
  }

  /** An approval that arrives while the plan is still being made, with
      nothing sent while the notice goes out, satisfies the wait at once:
      the run goes on to the coder whatever arrives once the wait has
      begun. */
  lemma EarlyApprovalProceeds(input: DevelopFeatureInput, env: Env, plan: ImplementationPlan, comment: Option<string>)
    requires !SkipApproval(input) && GuardPasses(input, env)
    requires env.plan == Ok(plan) && plan.proposedChanges.Some?
    requires env.beforePlanCheck == [Approval(true, comment)] && env.duringNotice == [] && env.notifyPlanReady == Pass
    ensures ExecuteCode(plan) in Workflow(input, env).trace
  {
  }

  /** The signals handled while the plan-ready notice is sent all run
      before the wait first tests its condition: when they leave a verdict
      or a cancel, the wait ends at once on the state after all of them,
      and no later signal is looked at. */
  lemma NoticeWindowDecides(env: Env, m: Machine)
    requires Settled(Deliver(m, env.duringNotice))
    ensures ApprovalWait(env, m).gotApproval && ApprovalWait(env, m).consumed == 0
    ensures ApprovalWait(env, m).machine == Deliver(m, env.duringNotice)
  {
    assert env.untilDeadline[..0] == [];
  }

  /** A rejection overtaken by an approval while the notice is being sent:
      the wait sees only the approval, and the coder runs. */
  lemma OvertakenRejectionProceeds(input: DevelopFeatureInput, env: Env, plan: ImplementationPlan, reason: string)
    requires !SkipApproval(input) && GuardPasses(input, env)
    requires env.plan == Ok(plan) && plan.proposedChanges.Some? && Cancel !in env.beforePlanCheck && env.notifyPlanReady == Pass
    requires env.duringNotice == [Approval(false, Some(reason)), Approval(true, None)]
    ensures ExecuteCode(plan) in Workflow(input, env).trace
  {
    var m := Planned(plan, env);
    LastApprovalIsLatest([Approval(false, Some(reason))], true, None);
    NoticeWindowDecides(env, m);
    ApprovalDecides(input, env, plan);
  }

  /** An approval and a cancel handled in the same activation of the wait:
      the workflow resumes only after both, sees the cancel first, and
      returns cancelled without running the coder. */
  lemma CancelInSameActivation(input: DevelopFeatureInput, env: Env, plan: ImplementationPlan)
    requires !SkipApproval(input) && GuardPasses(input, env)
    requires env.plan == Ok(plan) && plan.proposedChanges.Some? && Cancel !in env.beforePlanCheck && env.notifyPlanReady == Pass
    requires LastApproval(env.beforePlanCheck).None? && env.duringNotice == []
    requires |env.untilDeadline| > 0 && env.untilDeadline[0] == [Approval(true, None), Cancel]
    ensures Workflow(input, env).ending == Returned(CancelledOutput(None))
    ensures ExecuteCode(plan) !in Workflow(input, env).trace
  {
    var m := Planned(plan, env);
    assert !Settled(m);
    var w := ApprovalWait(env, m);
    assert Flatten(env.untilDeadline[..1]) == [Approval(true, None), Cancel];
    assert w.consumed == 1;
    assert w.machine.cancelled;
    ApprovalDecides(input, env, plan);
  }

  /** The last approval is `true` when a `false` came before it: the
      handler keeps only the latest verdict, and its comment, even an
      absent one. */
  lemma {:induction false} LastApprovalIsLatest(signals: seq<Signal>, approved: bool, comment: Option<string>)
    ensures LastApproval(signals + [Approval(approved, comment)]) == Some(Approval(approved, comment))
    ensures forall m: Machine :: Deliver(m, signals + [Approval(approved, comment)]).state.approvalComment == comment
  {
    if |signals| > 0 {
      assert (signals + [Approval(approved, comment)])[1..] == signals[1..] + [Approval(approved, comment)];
      LastApprovalIsLatest(signals[1..], approved, comment);
    }
  }

  /** A rejection that carried a reason, followed by one that did not,
      reads "Plan rejected: No reason given". */
  lemma LaterRejectionErasesReason(input: DevelopFeatureInput, env: Env, plan: ImplementationPlan, reason: string)
    requires !SkipApproval(input) && GuardPasses(input, env)
    requires env.plan == Ok(plan) && plan.proposedChanges.Some? && env.notifyPlanReady == Pass
    requires env.beforePlanCheck == [Approval(false, Some(reason)), Approval(false, None)] && env.duringNotice == []
    ensures Workflow(input, env).ending == Returned(FailedOutput(Some(plan), RejectedPrefix + NoReasonGiven))
  {
    LastApprovalIsLatest([Approval(false, Some(reason))], false, None);
    ApprovalDecides(input, env, plan);
  }

  // ---------------------------------------------------------------------
  // Failures
  // ---------------------------------------------------------------------

  /** A thrown error ends the run with one failure notice after the calls
      made so far; the run reports the error and the plan if planning had
      succeeded. */
  lemma ThrownErrorReported(input: DevelopFeatureInput, env: Env)
    requires env.notifyFailure == Pass
    ensures var trace := Workflow(input, env).trace;
            |trace| > 0 && trace[|trace| - 1] == Notify(TaskFailed, PriorityHigh) ==>
              && Workflow(input, env).ending.Returned?
              && (var output := Workflow(input, env).ending.output;
                  && output.status == Failed
                  && output.error.Some?
                  && output.plan == (if PlanTask(input.task) in trace then env.plan.ToOption() else None))
  {
    GuardCalls(input, env);
  }

  /** With approval required, a plan without `proposedChanges` throws
      while the plan-ready notice is built: nothing is sent but the failure
      notice, and the run fails with the runtime's message and the plan. */
  lemma MissingChangesReported(input: DevelopFeatureInput, env: Env, plan: ImplementationPlan)
    requires !SkipApproval(input) && GuardPasses(input, env)
    requires env.plan == Ok(plan) && plan.proposedChanges.None? && Cancel !in env.beforePlanCheck
    requires env.notifyFailure == Pass
    ensures Workflow(input, env).ending == Returned(FailedOutput(Some(plan), MissingChangesError))
    ensures Workflow(input, env).trace == GuardPrefix(input) + [PlanTask(input.task), Notify(TaskFailed, PriorityHigh)]
  {
    GuardThenPlanning(input, env);
    PlanningSplit(input, env);
  }

  /** A planner that throws: the run fails with its message and no plan. */
  lemma PlannerFailureReported(input: DevelopFeatureInput, env: Env, message: string)
    requires GuardPasses(input, env) && env.plan == Err(message) && env.notifyFailure == Pass
    ensures Workflow(input, env).ending == Returned(FailedOutput(None, message))
    ensures Workflow(input, env).trace == GuardPrefix(input) + [PlanTask(input.task), Notify(TaskFailed, PriorityHigh)]
  {
  }

  /** A completion notice that fails on an otherwise successful run turns
      it into a failed one carrying the notice's error and the plan. */
  lemma CompletionNoticeFailure(input: DevelopFeatureInput, env: Env, plan: ImplementationPlan, coded: CoderOutput,
                                verified: DeployerOutput, message: string)
    requires SkipApproval(input) && GuardPasses(input, env) && NotifyOnComplete(input)
    requires env.plan == Ok(plan) && env.coder == Ok(coded) && env.firstVerify == Ok(verified) && Passed(verified)
    requires Cancel !in env.beforePlanCheck && Cancel !in env.duringCoding
    requires env.notifyComplete == Fail(message) && env.notifyFailure == Pass
    ensures Workflow(input, env).ending == Returned(FailedOutput(Some(plan), message))
  {
  }

  /** When the failure notice itself fails, its error escapes the run. */
  lemma FailureNoticeEscapes(input: DevelopFeatureInput, env: Env, message: string, failure: string)
    requires GuardPasses(input, env) && env.plan == Err(message) && env.notifyFailure == Fail(failure)
    ensures Workflow(input, env).ending == Escaped(failure)
  {
  }
}
