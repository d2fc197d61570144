# AI Swarm core, modelled in Dafny

AI Swarm runs a development task end to end. The Temporal workflow
`developFeature` does the following, in order:

1. For a fix task, it first checks that the chain of fix tasks has not turned into a loop.
2. It asks the planner activity for an implementation plan.
3. If approval is required, it announces the plan and waits up to 24 hours for a human verdict.
4. It has the coder activity implement the plan and open a pull request.
5. It has the deployer activity verify the build and tests. A failed verification is retried once.
6. If verification still fails, it files a follow-up fix task, tracked by a per-root chain counter in Redis. Otherwise it reports completion.

Cancel and approval signals can arrive at any time. Every signal handled while the workflow is suspended runs before the workflow resumes. So the 24-hour wait first tests its condition after everything sent during the plan-ready notice, and then after each whole activation. Any activity error ends the run with a failure notice.

The activities call Gemini through a per-role model cascade. The web portal adds three pieces that are modelled too: Redis-backed chat conversations, which are tagged, summarised and listed most-recent first; an e-mail allowlist for sign-in; and the NextAuth callbacks.

The model is functional:
- Every activity outcome, command output, clock reading and JSON decision is an input.
- Every operation is a pure function, or a method with loop invariants.
- The workflow returns its ending, the ordered trace of activity calls it made and its final state.
- Redis stores are maps, and a sorted set is a score-ordered sequence.

Modules:
- `Wrappers`, `Strings` and `Types` hold the shared records and the JavaScript string operations the code relies on.
- `DevelopFeature` models the workflow. `DevelopFeatureProperties` holds the whole-run properties.
- `FixChain` models the chain counter.
- `Cascade` models the model cascade.
- `JsonSpan`, `Coder`, `Planner` and `Deployer` model the activities' pure logic.
- `ChatTag`, `SortedSet` and `ChatStorage` model chat storage.
- `Auth` models sign-in.

## Model

| member | source | states |
|---|---|---|
| FixChain.ChainKeyInjective | packages/workflows/src/activities/rollback.ts:127 | two roots never share the `task:chain:<root>` counter key |
| FixChain.CreateFixTask | packages/workflows/src/activities/rollback.ts:125-148 | INCR raises the root's depth by exactly one and returns the new depth; the 7-day expiry is set on every increment; the id is `fix-<root>-<depth>`; every other key keeps its value |
| FixChain.FixTaskIdInjective | packages/workflows/src/activities/rollback.ts:134 | for one root, different depths give different fix-task ids |
| FixChain.CheckFixTaskLoop | packages/workflows/src/activities/rollback.ts:163-175 | read-only; reports the stored depth, 0 for an absent key; a loop iff the depth is at least 2 |
| FixChain.CreateFixTaskIsolated | packages/workflows/src/activities/rollback.ts:127-131 | filing a fix task for one root leaves every other root's depth and loop check unchanged |
| FixChain.SecondFixTaskTripsGuard | packages/workflows/src/activities/rollback.ts:128-169 | two filings for a root make its next loop check report a loop; one filing on a fresh root does not |
| FixChain.CreateFixTasks | packages/workflows/src/activities/rollback.ts:127-148 | n successive filings for a root give depths d+1 … d+n and pairwise distinct ids |
| Cascade.ModelCascade | packages/shared/src/llm.ts:17-42 | every role has four distinct models, in the listed order |
| Cascade.AttemptTimeout | packages/shared/src/llm.ts:70 | a given timeout is kept, zero included; otherwise 600000 ms |
| Cascade.InvokeGeminiCLI | packages/shared/src/llm.ts:65-111 | the loop returns the result and the attempt/delay trace fixed by the first successful attempt, or the exhaustion error |
| Cascade.FailedEventsShape | packages/shared/src/llm.ts:72-107 | k failed attempts try the first k models in order with one timeout and leave a delay after each except a final last one |
| Cascade.SuccessAtK | packages/shared/src/llm.ts:72-106 | success at 0-based attempt k returns that output after trying exactly models 0..k in order, with exactly k delays |
| Cascade.AllFail | packages/shared/src/llm.ts:72-110 | all failing raises "All models in cascade exhausted for role: <role>" after every model, in order, and n-1 delays |
| Cascade.FailureKindsAlike | packages/shared/src/llm.ts:92-107 | an unsuccessful result is handled exactly like a thrown error |
| Cascade.LoadSystemPrompt | packages/shared/src/llm.ts:127-137 | total over the four roles, never empty |
| Cascade.PromptsDistinct | packages/shared/src/llm.ts:127-137 | different roles get different prompts |
| ChatTag.Collapse | apps/portal/src/lib/chat-storage.ts:60 | each run of characters outside `[a-z0-9]` becomes one dash: the `[a-z0-9]` characters are kept in order, there is one dash per such run and nothing else, so only `[a-z0-9-]` and no `--`; empty iff the input is; leading dash iff the input starts outside the class |
| ChatTag.TrimDashes | apps/portal/src/lib/chat-storage.ts:61 | the result is the input with a run of dashes cut at each end, and it neither starts nor ends with a dash; kebab shape kept |
| ChatTag.TitlePartShape | apps/portal/src/lib/chat-storage.ts:57-62 | the title part has only `[a-z0-9-]`, no `--`, no leading dash, and at most 25 characters |
| ChatTag.TitlePartMayEndInDash | apps/portal/src/lib/chat-storage.ts:57-62 | the cut after trimming can leave a trailing dash (24 letters, a space, a letter) |
| ChatTag.MonthName | apps/portal/src/lib/chat-storage.ts:66 | the lower-cased short month name is three letters |
| ChatTag.TagShape | apps/portal/src/lib/chat-storage.ts:55-70 | a generated tag is kebab-case, holds a dash, has no colon and is never `list` |
| ChatTag.UserConversationsKeyInjective | apps/portal/src/lib/chat-storage.ts:96-98 | distinct users have distinct list keys |
| ChatTag.KeysDisjoint | apps/portal/src/lib/chat-storage.ts:92-98 | a conversation key with a colon-free tag other than `list` is never a list key |
| ChatTag.GeneratedKeysDisjoint | apps/portal/src/lib/chat-storage.ts:55-98 | keys of generated tags never collide with any user's list key |
| ChatStorage.FirstUserMessage | apps/portal/src/lib/chat-storage.ts:78 | finds the first message with the user role, or reports there is none |
| ChatStorage.GenerateSummary | apps/portal/src/lib/chat-storage.ts:75-82 | empty without a user message; else the first user message's first 100 characters, plus `...` iff it is longer |
| ChatStorage.SummaryBounded | apps/portal/src/lib/chat-storage.ts:81 | a summary is at most 103 characters |
| ChatStorage.CreateConversation | apps/portal/src/lib/chat-storage.ts:103-138 | a record with the generated tag, no messages, empty summary, no plan and a 50-character title; the tag enters the user's list at the given score; other users' lists unchanged; list validity kept |
| ChatStorage.AddMessage | apps/portal/src/lib/chat-storage.ts:162-208 | missing record gives null, unreadable gives a parse error, both with nothing written; else exactly one message appended with the first clock reading, updatedAt set from the second, summary recomputed, planReady set by a JSON assistant message and never cleared, other fields kept; the tag moves to the new score while the user's other list entries and other users' lists are kept |
| ChatStorage.PlanReadyIsSticky | apps/portal/src/lib/chat-storage.ts:180-192 | over any sequence of added messages planReady never goes back to false and earlier messages never change |
| ChatStorage.Summarize | apps/portal/src/lib/chat-storage.ts:234-241 | a summary's message count is the length of the message list |
| ChatStorage.SummariesOf | apps/portal/src/lib/chat-storage.ts:225-246 | the summaries are those of the tags at an increasing choice of positions that holds every tag with a readable record and no other, so one summary per readable tag, in list order, with missing and unparseable records skipped |
| ChatStorage.ListConversations | apps/portal/src/lib/chat-storage.ts:210-252 | every summary is of a readable conversation on the user's list; for a positive limit at most `limit`, exactly the readable ones among the `limit` highest-scored tags in list order, so on a well-formed list no summary follows one with a lower score (most recent first) |
| ChatStorage.ListRecent | apps/portal/src/lib/chat-storage.ts:213-252 | with the default limit of 20: at most 20 summaries, the readable ones among the 20 most recent, most recent first |
| ChatStorage.ZeroLimitListsEverything | apps/portal/src/lib/chat-storage.ts:221 | a limit of 0 lists a conversation instead of none |
| ChatStorage.ListConversationsBounded | apps/portal/src/lib/chat-storage.ts:213-252 | never more than `limit` summaries, none for a limit of 0 or less, as written for a positive limit |
| ChatStorage.DeleteConversation | apps/portal/src/lib/chat-storage.ts:257-270 | true iff the record existed; the record is gone; the tag always leaves the user's list; the rest of the list and other users' lists are kept |
| SortedSet.Remove | apps/portal/src/lib/chat-storage.ts:265 | ZREM drops exactly the member's entry and keeps the others |
| SortedSet.RemoveValid | apps/portal/src/lib/chat-storage.ts:265 | ZREM keeps a set in descending score order with each member once |
| SortedSet.Add | apps/portal/src/lib/chat-storage.ts:132 | ZADD leaves the member once, with the new score, keeps every other entry, and keeps the set valid |
| SortedSet.RevRange | apps/portal/src/lib/chat-storage.ts:221 | ZREVRANGE returns only listed members; for non-negative in-range indices it is the slice of the members in stored order |
| SortedSet.TopRange | apps/portal/src/lib/chat-storage.ts:221 | range 0..limit-1 is the `limit` highest-scored members, highest first |
| Deployer.BuildStep | packages/workflows/src/activities/deployer.ts:49-65 | a returned build fails iff its combined output contains `error` or `Error`; a thrown build command leaves the flag set |
| Deployer.TestStep | packages/workflows/src/activities/deployer.ts:70-87 | returned tests fail iff the output contains `failed` or `FAIL`; no marker leaves the flag set |
| Deployer.StepLogs | packages/workflows/src/activities/deployer.ts:32-87 | four lines in step order: the pull line; the install line iff install passed, else the install warning; a build line that starts with the build-failure prefix iff the returned build output carries a marker, and then holds its first 200 characters, is the build-succeeded line for clean output, and is the no-build-script line iff the build threw; the same for the tests, whose clean output gives the tests-passed line when it carries a pass marker and the no-results line otherwise |
| Deployer.VerifyBuild | packages/workflows/src/activities/deployer.ts:21-116 | never throws; a failed pull gives both flags false and the error in the logs; nothing is ever deployed; logs are the step lines joined by newlines |
| Deployer.InstallNeverDecides | packages/workflows/src/activities/deployer.ts:39-44 | the install outcome never changes either flag |
| Deployer.PassedIff | packages/workflows/src/activities/deployer.ts:49-99 | a verification passes iff the pull succeeded and neither output carries a failure marker |
| Deployer.FailedMarkerFailsTests | packages/workflows/src/activities/deployer.ts:77-79 | `failed` at any position of the returned test output fails the tests and the verification, whatever the build did |
| JsonSpan.Extract | packages/workflows/src/activities/coder.ts:176 | the match exists iff some `{` precedes some `}`, and runs from the first `{` to the last `}` |
| Coder.BranchName | packages/workflows/src/activities/coder.ts:29 | the branch is the 13-character prefix `feature/task-` followed by the task id and nothing else |
| Coder.BranchNameInjective | packages/workflows/src/activities/coder.ts:29 | different tasks get different branches |
| Coder.ParseJsonFromResponse | packages/workflows/src/activities/coder.ts:175-188 | never fails; no span or invalid JSON reads as the empty object; a span that decodes gives exactly its decoded value |
| Coder.CommitSha | packages/workflows/src/activities/coder.ts:112-120 | the model's non-empty value, else the trimmed rev-parse output, else `unknown` |
| Coder.FilesChanged | packages/workflows/src/activities/coder.ts:123-131 | the model's non-empty list, else the non-empty diff lines, else none |
| Coder.PrUrl | packages/workflows/src/activities/coder.ts:134-152 | the model's non-empty value, else `gh pr view`, else `gh pr create`, else `PR creation failed` |
| Coder.ExecuteCode | packages/workflows/src/activities/coder.ts:24-170 | setup errors propagate; after setup a plan without `proposedChanges` throws the runtime's TypeError while the prompt is built (line 84); model-call errors propagate; otherwise every field follows its fallback chain and testsPassed is false only when the model says false |
| Coder.NoJsonFallsBack | packages/workflows/src/activities/coder.ts:105-159 | given a plan with `proposedChanges`, a response with no JSON still completes from the fallbacks, with tests counted as passed |
| Planner.CriteriaSection | packages/workflows/src/activities/planner.ts:39 | line k is `k+1. c_k` in input order; a missing list renders empty |
| Planner.CriteriaSectionReadsBack | packages/workflows/src/activities/planner.ts:39 | split on newlines, the section gives back one numbered line per criterion |
| Planner.FilesSection | packages/workflows/src/activities/planner.ts:42 | `- f` per file, or the fixed "Not specified" text for a missing or empty list |
| Planner.PriorityText | packages/workflows/src/activities/planner.ts:44 | the task's priority, `medium` when missing |
| Planner.ParseJsonFromResponse | packages/workflows/src/activities/planner.ts:79-93 | fails with "Failed to parse JSON from Planner response" iff there is no span, with "Invalid JSON in Planner response" iff the span does not decode; a span that decodes gives exactly its decoded plan, and a success always comes from one |
| Planner.PlanTask | packages/workflows/src/activities/planner.ts:21-74 | errors propagate; the plan's taskId is always the task's id and the other fields are copied unchecked |
| Planner.ProseAnswerFails | packages/workflows/src/activities/planner.ts:81-85 | any answer lacking `{` or lacking `}` fails planning with the no-JSON error, whatever the decoder says |
| Auth.ParseAllowlist | apps/portal/src/lib/auth.ts:5-8 | entries are exactly the non-empty trimmed, lower-cased comma-separated pieces; each is non-empty, comma-free and lower-case |
| Auth.SignIn | apps/portal/src/lib/auth.ts:19-34 | an empty allowlist admits everyone; otherwise admitted iff the email is present, non-empty and its lower-case form is an entry |
| Auth.SignInIgnoresCase | apps/portal/src/lib/auth.ts:26-29 | admission does not depend on the case of ASCII letters in the email |
| Auth.SingleEntryAdmits | apps/portal/src/lib/auth.ts:5-29 | a one-address allowlist admits exactly the emails equal to it up to case |
| Auth.SessionCallback | apps/portal/src/lib/auth.ts:36-42 | the user id becomes token.sub only when there is a session user and a non-empty subject; otherwise the session is unchanged |
| Auth.JwtCallback | apps/portal/src/lib/auth.ts:44-49 | token.id is the user's id on sign-in; otherwise the token is unchanged |
| Auth.TokenCarriesIdentity | apps/portal/src/lib/auth.ts:36-49 | the id stored at sign-in survives any number of later requests; a session built from the token takes the token's subject as the user id; rebuilding it from the same token changes nothing |
| DevelopFeature.Deliver | packages/workflows/src/workflows/develop-feature.ts:128-136 | handlers in arrival order: the latest approval sets status and comment, any cancel sets the sticky flag, nothing else changes |
| DevelopFeature.AwaitApproval | packages/workflows/src/workflows/develop-feature.ts:213-216 | the condition is tested when the wait begins and after each whole activation; the wait consumes a prefix of the activations, ends at the first test that finds a verdict or cancel, and otherwise at the deadline with every activation consumed |
| DevelopFeature.Concluding | packages/workflows/src/workflows/develop-feature.ts:274-340 | a failing verification files exactly one fix task with the root id and logs; a passing one completes; never cancelled |
| DevelopFeature.Retrying | packages/workflows/src/workflows/develop-feature.ts:263-271 | the retry sets retryCount to 1 and verifies the same PR exactly once more |
| DevelopFeature.Deploying | packages/workflows/src/workflows/develop-feature.ts:259-272 | the PR is verified twice iff the first verification fails, and retryCount is 1 exactly then; two failures file the fix task |
| DevelopFeature.Coding | packages/workflows/src/workflows/develop-feature.ts:246-254 | a cancel after the coder returns cancelled with the coder's PR and nothing after it; the later calls keep the verification and fix-task rules |
| DevelopFeature.Approving | packages/workflows/src/workflows/develop-feature.ts:187-241 | for a plan the notice can be built from, the notice comes first; then cancel first, pending is a timeout, rejection carries its comment, approval iff the coder runs |
| DevelopFeature.Planned | packages/workflows/src/workflows/develop-feature.ts:176-180 | the plan is recorded, retries are 0, and the run is cancelled iff a cancel arrived while planning |
| DevelopFeature.Planning | packages/workflows/src/workflows/develop-feature.ts:174-200 | starts with the planner call and records its plan, if any; with approval required and no cancel, the run throws the runtime's TypeError right after planning iff the plan has no `proposedChanges` (line 200) |
| DevelopFeature.LoopGuard | packages/workflows/src/workflows/develop-feature.ts:142-169 | the plan is recorded iff the planner was called |
| DevelopFeature.Workflow | packages/workflows/src/workflows/develop-feature.ts:101-364 | a returned try block is the run; a thrown error adds one failure notice and returns failed with the message and recorded plan, or lets the notice's own error escape |
| DevelopFeatureProperties.GuardStops | packages/workflows/src/workflows/develop-feature.ts:142-169 | a guard that stops the run makes only its check and the loop notice |
| DevelopFeatureProperties.LoopEscalates | packages/workflows/src/workflows/develop-feature.ts:142-169 | a fix run on a looping chain sends one high-priority notice and fails naming the depth, with no other call |
| DevelopFeatureProperties.SecondFixRunEscalates | packages/workflows/src/workflows/develop-feature.ts:142-168 | after two filings for its root, a fix run fails at the guard without planning |
| DevelopFeatureProperties.HappyPath | packages/workflows/src/workflows/develop-feature.ts:246-340 | without approval, cancel or failure the run completes with plan, PR and commit, makes exactly the expected calls, and notifies iff notifyOnComplete |
| DevelopFeatureProperties.RetryRecovers | packages/workflows/src/workflows/develop-feature.ts:261-340 | a failed then passing verification still completes, with two verifications and retryCount 1 |
| DevelopFeatureProperties.VerifyAtMostTwice | packages/workflows/src/workflows/develop-feature.ts:261-272 | at most two verifications, all on the coder's PR; a second only after a failed first; two iff retryCount ends at 1 |
| DevelopFeatureProperties.FixTaskOnlyAfterTwoFailures | packages/workflows/src/workflows/develop-feature.ts:274-311 | createFixTask at most once, only after two failed verifications, filed under the original task id, or the task's own id, with the second failure's logs |
| DevelopFeatureProperties.TwoFailuresFileFixTask | packages/workflows/src/workflows/develop-feature.ts:274-311 | two failed verifications always file the fix task and return fix_task_created with the PR, the plan and the tracker's id |
| DevelopFeatureProperties.CancelledReturns | packages/workflows/src/workflows/develop-feature.ts:179-254 | a cancelled run stops right after planning, the plan-ready notice or the coder; nothing is verified or filed; no notice but plan-ready; the PR is reported iff it stopped after the coder |
| DevelopFeatureProperties.LateSignalsIgnored | packages/workflows/src/workflows/develop-feature.ts:259-340 | signals arriving once verification started change neither the ending nor the calls |
| DevelopFeatureProperties.ApprovalDecides | packages/workflows/src/workflows/develop-feature.ts:213-240 | the wait's resolution decides the run: cancel, then timeout, then rejection with its comment; approval iff the coder runs |
| DevelopFeatureProperties.SilenceTimesOut | packages/workflows/src/workflows/develop-feature.ts:213-230 | no signal before the deadline fails with "Plan not approved within 24 hours" and the plan |
| DevelopFeatureProperties.EarlyApprovalProceeds | packages/workflows/src/workflows/develop-feature.ts:213-216 | an approval sent while planning, with nothing sent during the notice, satisfies the wait at once |
| DevelopFeatureProperties.NoticeWindowDecides | packages/workflows/src/workflows/develop-feature.ts:128-216 | when the signals handled during the plan-ready notice leave a verdict or cancel, the wait ends at its first test on the state after all of them, consuming no later activation |
| DevelopFeatureProperties.OvertakenRejectionProceeds | packages/workflows/src/workflows/develop-feature.ts:128-240 | a rejection followed by an approval, both sent during the notice, runs the coder |
| DevelopFeatureProperties.CancelInSameActivation | packages/workflows/src/workflows/develop-feature.ts:128-220 | an approval and a cancel handled in one activation return cancelled without calling the coder |
| DevelopFeatureProperties.LastApprovalIsLatest | packages/workflows/src/workflows/develop-feature.ts:128-131 | the latest approval signal wins, comment included, even an absent one |
| DevelopFeatureProperties.LaterRejectionErasesReason | packages/workflows/src/workflows/develop-feature.ts:232-239 | a reasoned rejection followed by a bare one, both sent while planning, reads "Plan rejected: No reason given" |
| DevelopFeatureProperties.CatchKeepsCalls | packages/workflows/src/workflows/develop-feature.ts:341-363 | the catch block adds at most the failure notice to the try block's calls |
| DevelopFeatureProperties.ThrownErrorReported | packages/workflows/src/workflows/develop-feature.ts:341-363 | a thrown error gives failed, with the error and the plan iff planning had run |
| DevelopFeatureProperties.MissingChangesReported | packages/workflows/src/workflows/develop-feature.ts:187-200 | with approval required, a plan without `proposedChanges` fails the run with the TypeError and the plan, after the planner call and one failure notice and no plan-ready notice |
| DevelopFeatureProperties.PlannerFailureReported | packages/workflows/src/workflows/develop-feature.ts:341-363 | a planner error fails the run with its message, no plan and one failure notice |
| DevelopFeatureProperties.CompletionNoticeFailure | packages/workflows/src/workflows/develop-feature.ts:318-363 | a failed completion notice turns a successful run into a failed one carrying the plan |
| DevelopFeatureProperties.FailureNoticeEscapes | packages/workflows/src/workflows/develop-feature.ts:346-356 | when the failure notice itself fails, its error escapes the workflow |

## Left out

- The Temporal substrate is left out: the activity timeouts and retry policy (develop-feature.ts:35-43), replay, and the real 30-second sleep. Each activity call is one outcome, taken after the engine's retries.
- The 24-hour timer is the end of the signal window before the deadline.
- Errors reach the catch block as the activity's own message. Temporal's `ActivityFailure` wrapping is not modelled.
- The workflow's `phase` field is not modelled. Every return that reports it sets it to `failed` first.
- Notification subjects and bodies are not modelled. A notice is recorded as its kind and priority.
- `rollbackCommit` (rollback.ts:40-104) is git I/O only, and the workflow never calls it.
- Shell, git, gh and npm execution is not modelled. Their outputs or errors are inputs, including the GitHub authentication steps in `executeCode`.
- Redis I/O is not modelled: connections, `quit`, the 90-day chat expiry, expiry timing, and JSON serialisation.
- Whether a text parses as JSON is a parameter. `getConversation` appears only inside `addMessage`, as a record that is stored, missing or unreadable.
- `checkFixTaskLoop` reads the stored counter as a natural number. The `parseInt` of the stored string is not modelled.
- Redis orders equal scores in a sorted set by member. This model puts the newest entry first among equal scores.
- Lower-casing covers the ASCII letters only. Strings are sequences of characters, not UTF-16 code units.
- `invokeGeminiAsync`, include directories and logging are not modelled.
- The prompt texts are modelled only as far as the planner's criteria, files and priority sections. The coder's prompt is not modelled.
- Cascade.LoadSystemPrompt: models only the opening sentence of each embedded prompt.
- The clock is a parameter: `Date.now`, `toISOString`, and the month and day used by `generateTag`.
- The NextAuth configuration is not modelled: the provider, session lifetime and pages.
- The UI and HTTP routes are not modelled. The portal's workflow route defaults `skipApproval` to false (apps/portal/src/app/api/workflows/route.ts:38). The workflow itself defaults it to true, which is what the model follows.
- The comment at rollback.ts:168 says "more than 2" fix attempts, but the code tests `>= 2`. The model follows the code.
- The comment at chat-storage.ts:56 says 30 characters, but the code takes 40. The model follows the code.
- DevelopFeatureProperties.VerifyAtMostTwice: the link between the retry counter and two verifications is stated for the coder's PR URL only. Any other URL is never verified.
- `trim` strips the white space and line terminators of section 12.2 and 12.3 of ECMA-262, taken character by character. The Unicode space separators are listed explicitly.
- A planner answer whose `proposedChanges` is `null` or not an array is read as a missing field. The source then throws a differently worded TypeError ("Cannot read properties of null" or ".map is not a function"); the model reports the "undefined" message for all of them.
- ChatStorage.PlanReadyIsSticky: the messages added in turn share one timestamp, which the lemma does not depend on.
- The entries of `proposedChanges` are taken to carry an `action`. An entry without one would make `toUpperCase` throw while a prompt or notice is built.

## Findings

| source | as written | input that shows it | evidently intended | confidence | as-written member | corrected member |
|---|---|---|---|---|---|---|
| apps/portal/src/lib/chat-storage.ts:221 | `zrevrange(key, 0, limit - 1)` with no guard on `limit` | `limit = 0`: the stop index is -1, which Redis reads as the last entry, so every conversation is listed | at most `limit` summaries, none for a limit of 0 or less | medium, not executed | ChatStorage.ZeroLimitListsEverything | ChatStorage.ListConversationsBounded |
