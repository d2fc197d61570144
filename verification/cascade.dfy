/** The model cascade of packages/shared/src/llm.ts: `invokeGeminiCLI` tries
    the role's models in order, returns the first successful output, sleeps
    2 s after each failed attempt except the last, and raises an exhaustion
    error when every model fails. The backend call (`invokeGeminiAsync`) is
    not part of this model: the outcome of attempt `i` is the input
    `outcomes[i]`, and the call emits a trace of attempts and delays. */
module Cascade {
  import opened Wrappers
  import opened Types

  /** Per-attempt timeout when the caller gives none: ten minutes. */
  const ModelTimeoutMs: int := 10 * 60 * 1000

  /** Sleep between a failed attempt and the next one. */
  const RetryDelayMs: nat := 2000

  /** `MODEL_CASCADE[role]`: four distinct models, best-first for the role. */
  function ModelCascade(role: AgentRole): (models: seq<string>)
    ensures |models| == 4
    ensures forall i, j | 0 <= i < j < |models| :: models[i] != models[j]
  {
    match role
    case Planner => ["gemini-3-pro-preview", "gemini-2.5-pro", "gemini-2.5-flash", "gemini-1.5-pro"]
    case Coder => ["gemini-3-flash-preview", "gemini-2.5-flash", "gemini-2.5-pro", "gemini-1.5-flash"]
    case Deployer => ["gemini-2.5-flash", "gemini-1.5-flash", "gemini-2.5-flash-lite", "gemini-2.0-flash-lite"]
    case Supervisor => ["gemini-2.5-flash", "gemini-1.5-flash", "gemini-2.5-flash-lite", "gemini-2.0-flash-lite"]
  }

  datatype GeminiOptions = GeminiOptions(
    role: AgentRole,
    cwd: Option<string>,
    timeout: Option<int>,
    systemPrompt: Option<string>)

  /** `options.timeout ?? MODEL_TIMEOUT_MS`: any given value, zero included,
      is kept. */
  function AttemptTimeout(options: GeminiOptions): (t: int)
    ensures options.timeout.Some? ==> t == options.timeout.value
    ensures options.timeout.None? ==> t == 600000
  {
    options.timeout.GetOr(ModelTimeoutMs)
  }

  /** What one backend call gave: a result flagged successful, a result
      flagged unsuccessful, or a thrown error. */
  datatype AttemptResult = Succeeded(output: string) | Unsuccessful(output: string) | Threw(message: string)

  datatype Event = Attempt(model: string, timeoutMs: int) | Delay(ms: nat)

  function ExhaustedMessage(role: AgentRole): string {
    "All models in cascade exhausted for role: " + RoleName(role)
  }

  /** Index of the first successful attempt, if any. */
  function FirstSuccess(outcomes: seq<AttemptResult>): (k: Option<nat>)
    ensures k.Some? ==> k.value < |outcomes| && outcomes[k.value].Succeeded?
    ensures k.Some? ==> forall j | 0 <= j < k.value :: !outcomes[j].Succeeded?
    ensures k.None? ==> forall j | 0 <= j < |outcomes| :: !outcomes[j].Succeeded?
  {
    if |outcomes| == 0 then None
    else if outcomes[0].Succeeded? then Some(0)
    else match FirstSuccess(outcomes[1..])
      case None => None
      case Some(k) => Some(k + 1)
  }

  /** The first success is the successful attempt preceded only by failures. */
  lemma {:induction false} FirstSuccessIs(outcomes: seq<AttemptResult>, k: nat)
    requires k < |outcomes| && outcomes[k].Succeeded?
    requires forall j | 0 <= j < k :: !outcomes[j].Succeeded?
    ensures FirstSuccess(outcomes) == Some(k)
  {
    if k > 0 {
      FirstSuccessIs(outcomes[1..], k - 1);
    }
  }

  /** The trace of the first `k` attempts of a cascade over `models` when all
      of them failed. */
  function FailedEvents(models: seq<string>, timeout: int, k: nat): seq<Event>
    requires k <= |models|
  {
    if k == 0 then []
    else
      FailedEvents(models, timeout, k - 1) + [Attempt(models[k - 1], timeout)]
        + (if k - 1 < |models| - 1 then [Delay(RetryDelayMs)] else [])
  }

  /** The models named by the attempts of a trace, in order. */
  function AttemptedModels(events: seq<Event>): seq<string> {
    if |events| == 0 then []
    else
      var last := events[|events| - 1];
      AttemptedModels(events[..|events| - 1]) + (if last.Attempt? then [last.model] else [])
  }

  /** The number of delays in a trace. */
  function DelayCount(events: seq<Event>): nat {
    if |events| == 0 then 0
    else DelayCount(events[..|events| - 1]) + (if events[|events| - 1].Delay? then 1 else 0)
  }

  /** The cascade as a single expression: the outcome and trace fixed by the
      first successful attempt. */
  function CascadeResult(role: AgentRole, timeout: int, outcomes: seq<AttemptResult>): (Result<string>, seq<Event>)
    requires |outcomes| == |ModelCascade(role)|
  {
    var models := ModelCascade(role);
    match FirstSuccess(outcomes)
    case Some(k) => (Ok(outcomes[k].output), FailedEvents(models, timeout, k) + [Attempt(models[k], timeout)])
    case None => (Err(ExhaustedMessage(role)), FailedEvents(models, timeout, |models|))
  }

  /** `invokeGeminiCLI(prompt, options)`, with `outcomes[i]` the result of
      the `i`-th backend call. */
  method InvokeGeminiCLI(prompt: string, options: GeminiOptions, outcomes: seq<AttemptResult>)
    returns (result: Result<string>, events: seq<Event>)
    requires |outcomes| == |ModelCascade(options.role)|
    ensures (result, events) == CascadeResult(options.role, AttemptTimeout(options), outcomes)
  {
    var models := ModelCascade(options.role);
    var timeout := AttemptTimeout(options);
    events := [];
    var i := 0;
    while i < |models|
      invariant 0 <= i <= |models|
      invariant forall j | 0 <= j < i :: !outcomes[j].Succeeded?
      invariant events == FailedEvents(models, timeout, i)
    {
      events := events + [Attempt(models[i], timeout)];
      if outcomes[i].Succeeded? {
        return Ok(outcomes[i].output), events;
      }
      if i < |models| - 1 {
        events := events + [Delay(RetryDelayMs)];
      }
      i := i + 1;
    }
    result := Err(ExhaustedMessage(options.role));
  }

  /** One failed attempt appended to a trace, followed by a delay when
      `delay` holds. */
  function FailedStep(events: seq<Event>, model: string, timeout: int, delay: bool): seq<Event> {
    events + [Attempt(model, timeout)] + (if delay then [Delay(RetryDelayMs)] else [])
  }

  /** One more failed attempt adds its model to the attempted ones, and a
      delay exactly when one follows it. */
  lemma FailedStepCounts(events: seq<Event>, model: string, timeout: int, delay: bool, next: seq<Event>)
    requires next == FailedStep(events, model, timeout, delay)
    ensures AttemptedModels(next) == AttemptedModels(events) + [model]
    ensures DelayCount(next) == DelayCount(events) + (if delay then 1 else 0)
  {
    var withAttempt := events + [Attempt(model, timeout)];
    assert withAttempt[..|withAttempt| - 1] == events;
    if delay {
      assert next[..|next| - 1] == withAttempt;
    } else {
      assert next == withAttempt;
    }
  }

  /** The failed attempts' trace after `k` attempts extends the one after
      `k - 1` by that attempt and, unless it was the last model, a delay. */
  lemma FailedEventsStep(models: seq<string>, timeout: int, k: nat)
    requires 0 < k <= |models|
    ensures FailedEvents(models, timeout, k) ==
              FailedStep(FailedEvents(models, timeout, k - 1), models[k - 1], timeout, k < |models|)
  {
  }

  /** A trace that attempts one model more than one trying `models[..k - 1]`
      tries `models[..k]`. */
  lemma ModelsFollow(models: seq<string>, k: nat, prev: seq<Event>, next: seq<Event>)
    requires 0 < k <= |models|
    requires AttemptedModels(prev) == models[..k - 1]
    requires AttemptedModels(next) == AttemptedModels(prev) + [models[k - 1]]
    ensures AttemptedModels(next) == models[..k]
  {
    assert models[..k] == models[..k - 1] + [models[k - 1]];
  }

  lemma {:induction false} FailedEventsModels(models: seq<string>, timeout: int, k: nat)
    requires k <= |models|
    ensures AttemptedModels(FailedEvents(models, timeout, k)) == models[..k]
  {
    if k > 0 {
      var prev := FailedEvents(models, timeout, k - 1);
      var next := FailedEvents(models, timeout, k);
      FailedEventsModels(models, timeout, k - 1);
      FailedEventsStep(models, timeout, k);
      FailedStepCounts(prev, models[k - 1], timeout, k < |models|, next);
      ModelsFollow(models, k, prev, next);
    }
  }

  lemma {:induction false} FailedEventsDelays(models: seq<string>, timeout: int, k: nat)
    requires k <= |models|
    ensures DelayCount(FailedEvents(models, timeout, k)) == if k == |models| && k > 0 then k - 1 else k
  {
    if k > 0 {
      FailedEventsDelays(models, timeout, k - 1);
      FailedEventsStep(models, timeout, k);
      FailedStepCounts(FailedEvents(models, timeout, k - 1), models[k - 1], timeout, k < |models|,
                       FailedEvents(models, timeout, k));
    }
  }

  lemma {:induction false} FailedEventsTimeouts(models: seq<string>, timeout: int, k: nat)
    requires k <= |models|
    ensures forall e | e in FailedEvents(models, timeout, k) && e.Attempt? :: e.timeoutMs == timeout
  {
    if k > 0 {
      FailedEventsTimeouts(models, timeout, k - 1);
      FailedEventsStep(models, timeout, k);
    }
  }

  /** The first `k` failed attempts try `models[..k]` in order with the same
      timeout, and leave a delay after each one except a final last model. */
  lemma FailedEventsShape(models: seq<string>, timeout: int, k: nat)
    requires k <= |models|
    ensures AttemptedModels(FailedEvents(models, timeout, k)) == models[..k]
    ensures DelayCount(FailedEvents(models, timeout, k)) == if k == |models| && k > 0 then k - 1 else k
    ensures forall e | e in FailedEvents(models, timeout, k) && e.Attempt? :: e.timeoutMs == timeout
  {
    FailedEventsModels(models, timeout, k);
    FailedEventsDelays(models, timeout, k);
    FailedEventsTimeouts(models, timeout, k);
  }

  /** Success at 0-based attempt `k`: the output of that attempt is returned,
      exactly the models before and at `k` were tried, in cascade order, and
      exactly `k` delays were taken. */
  lemma SuccessAtK(role: AgentRole, timeout: int, outcomes: seq<AttemptResult>, k: nat)
    requires |outcomes| == |ModelCascade(role)|
    requires k < |outcomes| && outcomes[k].Succeeded?
    requires forall j | 0 <= j < k :: !outcomes[j].Succeeded?
    ensures CascadeResult(role, timeout, outcomes).0 == Ok(outcomes[k].output)
    ensures AttemptedModels(CascadeResult(role, timeout, outcomes).1) == ModelCascade(role)[..k + 1]
    ensures DelayCount(CascadeResult(role, timeout, outcomes).1) == k
    ensures forall e | e in CascadeResult(role, timeout, outcomes).1 && e.Attempt? :: e.timeoutMs == timeout
  {
    var models := ModelCascade(role);
    FirstSuccessIs(outcomes, k);
    FailedEventsShape(models, timeout, k);
    var prev := FailedEvents(models, timeout, k);
    var events := prev + [Attempt(models[k], timeout)];
    assert CascadeResult(role, timeout, outcomes) == (Ok(outcomes[k].output), events);
    assert events[..|events| - 1] == prev;
    assert AttemptedModels(events) == AttemptedModels(prev) + [models[k]];
    assert DelayCount(events) == DelayCount(prev);
    assert models[..k + 1] == models[..k] + [models[k]];
  }

  /** Every model failing: the exhaustion error naming the role, after all
      four attempts in cascade order and three delays. */
  lemma AllFail(role: AgentRole, timeout: int, outcomes: seq<AttemptResult>)
    requires |outcomes| == |ModelCascade(role)|
    requires forall j | 0 <= j < |outcomes| :: !outcomes[j].Succeeded?
    ensures CascadeResult(role, timeout, outcomes).0 == Err(ExhaustedMessage(role))
    ensures AttemptedModels(CascadeResult(role, timeout, outcomes).1) == ModelCascade(role)
    ensures DelayCount(CascadeResult(role, timeout, outcomes).1) == |ModelCascade(role)| - 1
  {
    var models := ModelCascade(role);
    FailedEventsShape(models, timeout, |models|);
    assert models[..|models|] == models;
  }

  /** Whether two attempt-result scripts fail at the same attempts and
      succeed with the same outputs. */
  ghost predicate SameSuccesses(a: seq<AttemptResult>, b: seq<AttemptResult>) {
    |a| == |b|
    && forall i | 0 <= i < |a| ::
         && (a[i].Succeeded? <==> b[i].Succeeded?)
         && (a[i].Succeeded? ==> a[i].output == b[i].output)
  }

  /** An unsuccessful result is handled exactly like a thrown error: only
      where the successes are, and what they returned, matters. */
  lemma {:induction false} FailureKindsAlike(role: AgentRole, timeout: int, a: seq<AttemptResult>, b: seq<AttemptResult>)
    requires |a| == |ModelCascade(role)|
    requires SameSuccesses(a, b)
    ensures CascadeResult(role, timeout, a) == CascadeResult(role, timeout, b)
  {
    FirstSuccessAlike(a, b);
  }

  lemma {:induction false} FirstSuccessAlike(a: seq<AttemptResult>, b: seq<AttemptResult>)
    requires SameSuccesses(a, b)
    ensures FirstSuccess(a) == FirstSuccess(b)
  {
    if |a| > 0 && !a[0].Succeeded? {
      assert SameSuccesses(a[1..], b[1..]) by {
        forall i | 0 <= i < |a[1..]|
          ensures (a[1..][i].Succeeded? <==> b[1..][i].Succeeded?)
          ensures (a[1..][i].Succeeded? ==> a[1..][i].output == b[1..][i].output)
        {
          assert a[1..][i] == a[i + 1] && b[1..][i] == b[i + 1];
        }
      }
      FirstSuccessAlike(a[1..], b[1..]);
    }
  }

  /** `loadSystemPrompt`: every role has a non-empty prompt of its own. Only
      the opening sentence of each embedded prompt is modelled. */
  function LoadSystemPrompt(role: AgentRole): (p: string)
    ensures |p| > 0
  {
    match role
    case Planner => "You are **Planner**, the Lead Architect for AI Swarm v2."
    case Coder => "You are **Coder**, the Senior Developer for AI Swarm v2."
    case Deployer => "You are **Deployer**, the DevOps Engineer for AI Swarm v2."
    case Supervisor => "You are **Supervisor**, the System Monitor for AI Swarm v2."
  }

  /** Different roles get different prompts. */
  lemma PromptsDistinct(a: AgentRole, b: AgentRole)
    requires a != b
    ensures LoadSystemPrompt(a) != LoadSystemPrompt(b)
  {
  }
}
