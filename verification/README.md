# MultiClaw in Dafny

MultiClaw runs language-model agents that call tools, follow multi-step plans, delegate to child agents and
work in teams. This project models the parts of it whose correctness is hardest to see from the code, and
proves properties of those models for every input, every run and every interleaving.

| module | what it models |
|---|---|
| `PlanOrder`, `PlanDraft` | validating a plan draft: the dependency sort, its limits, storing the version and reading it back |
| `PlanModel`, `PlanReuse` | the rows and result documents of a plan run, and the two checkers that decide whether an earlier result may be reused: one when it is written, one whenever results are read |
| `PlanRun` | a plan run as a state machine: reuse, start, finish, cancel, revise, approve |
| `PlanExecute` | the two loops that drive a run: the reuse pass and execution to a boundary |
| `PlanProgress` | whether a run can still complete its version |
| `PlanExample`, `PlanRescue` | a concrete run into a state from which only cancellation is left; its states also show that the invariant and the guards of a plan run can be met; and one in which a second reuse rescues a step |
| `Transcript` | the message list of a model request and the scanner that groups tool exchanges |
| `Compaction` | fitting a request into its token budget |
| `Anthropic` | translating a request into alternating turns |
| `StreamAssembly` | assembling tool calls and reasoning from streamed fragments |
| `AgentLoop`, `Delegation` | the tool loops of an agent and of a delegated child |
| `ChatStream` | the chunks a chat stream emits, and their grammar |
| `Lifecycle`, `Dispatcher`, `TeamBoard` | background jobs, their workers, and teams with a task board and a shared token allocation |
| `BatchReview` | reviewing several workspaces together |
| `PlanCache` | the browser's plan cache |
| `Wrappers`, `Counting` | optional values and counting arguments |

## How to read the models

* Durable tables are sequences of rows; a transaction is one step. Code that is one object or one module with
  fields updated in place is a class (`AgentLoop.ResilienceController`, `StreamAssembly.StreamState`,
  `ChatStream.Stream`, `PlanCache.PlanStore`); loops are methods proved against a specification.
* Protocols whose steps interleave (plan runs, dispatcher, team board, plan cache) are state machines: an
  `Event`, when it is `Enabled`, what `Next` state it leads to, and runs of such events.
* What comes from outside (model answers, tool outcomes, cancellation requests, clocks, fresh identifiers,
  responses of a server) is a parameter, so a theorem holds for all of it.
* Digests and encodings are uninterpreted functions (`World.hash`, `World.size`) or lengths. The only place
  where a length matters in detail is the token estimate, where JSON escaping is written out per character.
* Error messages are collapsed into one constructor per kind of refusal; a batch review keeps the reason, because
  there it depends on the order of the input.
* Positions replace generated identifiers where only identity matters (tasks, jobs, stream parts).

## Results that correct an expectation

* **A reused dependency traps the step that depends on it.** A result document is built by looking up each
  dependency's document, by the step id inside the document, among the steps of the current version
  (`src/multiclaw/planner/execution.py:1440-1446`). The document of a reused dependency names the superseded
  step, so the lookup fails. `ResultBuildsIffDependenciesAreFresh` proves that a result can be built exactly
  when no dependency was reused; `ReusedDependencyLeavesOnlyCancel` that while such an attempt runs,
  cancelling it is the only thing the run can do; `ReuseTrapsARun` gives a run of nine ordinary events that
  gets there. For whole runs, `CompletesExactlyWhen` proves that once the reuse pass has nothing left to reuse,
  the version can still be completed if and only if no step that has yet to succeed depends on a reused one;
  before that, such a step can be rescued by being reused itself (`ReuseRescuesAStep`).
* **A pending task below a failed one blocks its team.** Such a task can never be claimed, and the final report
  waits for every task, so without a cancellation the team makes no report and is never closed
  (`DoomedTaskBlocksTheReport`; `FailedTaskDoomsItsTeam` gives a run from a new team).
* **A cancelled job can strand its team.** Only the worker of a job ends the job's task, and only with a final
  status. `OrphanedExactlyWhen` proves that a running task is orphaned exactly when its job is cancelled while
  no worker runs it, or when its job is already cancelled and the worker ends interrupted or waiting for the
  user, goes away without writing, or is stopped with the process. From then on the task runs for ever and
  the team can neither report nor be closed (`OrphanedTaskBlocksTheTeam`; `CancelledJobStrandsItsTeam` gives a
  run). Nothing else keeps a team from winding down: `WindsDownExactlyWhen` proves that an idle team with nothing
  left to give out has wound down if and only if no task is doomed and none orphaned.
* **A full session refuses a wound-down team its report for good, and stops every tick that lists the team.** Jobs
  are never removed, so `ReportsExactlyWhen` proves that the report can still be made if and only if the session has room for one
  more job now; in a full session no later step reports or closes the team (`FullSessionBlocksTheReport`;
  `FullSessionStrandsATeam` gives a run). The refusal is raised out of the scheduling pass: `SchedulePass` proves
  that the first refused team ends the pass, the teams listed behind it are left as they were, and the tick does
  not go on to start jobs.
* **A cancelled team can be closed as failed or completed.** The scheduler acts on a list of teams read before
  the cancellation and does not look at the status again. `CancelledMayBeReclosed` proves that a cancelled team
  can leave that status at the next step if and only if such a pass still holds it and finds it wound down with
  nothing more to report; `CancelledStaysCancelled` that one no pass holds stays cancelled for ever;
  `CancelledTeamIsReclosed` gives a run.
* **A cancelled job can still get a worker.** `WorkerForCancelledJob` proves that the worker of a marked job is
  registered for a cancelled job if and only if a cancellation read from the job's current version is written
  between the mark and the registration; `OnlyLateRegistration` that no other step gives an ended job a worker;
  `WorkerAfterCancellation` gives a run. The job's status stays cancelled all the same.
* **A worker cancelled before its first step keeps its place until the process restarts.** It never reaches the
  clean-up that gives the place back (`CancellationLosesAWorker`), and over every run without a restart each lost
  worker stays and their number never falls (`LostWorkersStay`). `StartsExactlyWhen` proves that the service can
  still start a job before a restart if and only if fewer workers are lost than may run.
* **The plan cache relies on the server to answer with the plan it was asked for.** `VersionsOnlyGrow` and
  `AnswerLoads` give the exact conditions; `MisdeliveryLowersAndLoads` shows one answer for another plan lowering
  a version and leaving the plan asked for loading until it is asked for again.
* **A batch that stops for approval before its last call leaves an unacceptable conversation** in the
  non-streaming loop: `ConversationIsAccepted` gives the exact condition, `PausedBatchIsRefused` the smallest
  such batch, after which no later round repairs the conversation.
* **A batch review can depend on the order in which the workspaces are named.** They are validated in that order,
  before they are sorted. `OrderIndependentExactlyWhen` proves the outcome independent of the order if and only
  if the invalid workspaces share one reason; `ReasonsDependOnOrder` gives two that do not.

## Model

| member | source | states |
|---|---|---|
| `PlanOrder.Sort` | src/multiclaw/planner/validation.py:112-149 | Kahn's loop with its in-degrees, depths and sorted ready list accepts exactly the graphs in which no dependency chain has more steps than the limit; the order it returns is a topological permutation in which each step is the first ready one of the draft; a depth refusal exhibits a chain one step too long, a cycle refusal a step on which chains of every length end |
| `PlanOrder.CanonicalIsUnique` | src/multiclaw/planner/validation.py:131-146 | that order is unique, so validation is deterministic |
| `PlanOrder.StuckMeansCycle` | src/multiclaw/planner/validation.py:148-149 | steps left over when nothing is ready lie on a cycle: chains of every length end in each of them |
| `PlanOrder.DepthBoundsChains` | src/multiclaw/planner/validation.py:140-142 | the computed depth of a step bounds every chain that ends in it |
| `PlanOrder.VisitKeepsCounts` | src/multiclaw/planner/validation.py:139-146 | visiting a dependent keeps each in-degree equal to the number of its dependencies not yet emitted |
| `PlanOrder.VisitChildren` | src/multiclaw/planner/validation.py:139-146 | the inner loop keeps in-degrees, depths and the ready list right for all dependents of the emitted step, or exhibits a chain one step too long |
| `PlanOrder.RenumberedIsStable` | src/multiclaw/planner/validation.py:131-146 | steps already listed in a topological order keep their places |
| `PlanDraft.Validate` | src/multiclaw/planner/validation.py:89-169 | a draft is accepted if and only if the limits are positive, it is within them, keys and dependencies are unique and resolvable, no step depends on itself and no chain is too long; the accepted steps are the draft in its unique canonical order with sorted dependencies |
| `PlanDraft.Problem` | src/multiclaw/planner/validation.py:118-127 | the per-step checks refuse a step exactly when it is over the attempt limit or its dependencies are not distinct other steps of the draft |
| `PlanDraft.BadDependency` | src/multiclaw/planner/validation.py:123-127 | the refusal names a self dependency that exists or a key that is listed and missing |
| `PlanDraft.StoredPlanReloads` | src/multiclaw/storage/repositories/plans.py:2117-2171 | every accepted draft, stored with fresh ids and read back with its dependency rows in any order, sorted by ordinal and turned into keys again, is the validated draft, passes validation under the fixed stored limits and is arranged as it stands, so the integrity check never rejects what was stored |
| `PlanDraft.ReloadUndoesStoring` | src/multiclaw/storage/repositories/plans.py:714-742 | reading a stored version back gives the validated draft with every dependency, in order |
| `PlanDraft.ArrangedPlanRevalidates` | src/multiclaw/planner/validation.py:131-169 | validating a validated draft again accepts it and changes nothing |
| `PlanDraft.StoredVersionIsWellFormed` | src/multiclaw/storage/repositories/plans.py:1782-1854 | every stored version has ordinals from one, distinct ids and keys, and depends only on steps with a smaller ordinal, which is what execution relies on |
| `PlanModel.ParseRef` | src/multiclaw/planner/execution.py:461-464 | a memory reference is parsed to the id it was made from, and nothing else parses |
| `PlanModel.Latest` | src/multiclaw/storage/repositories/plans.py:1149-1180 | per step of one version and run, an attempt with the highest number |
| `PlanModel.LatestUpdate` | src/multiclaw/storage/repositories/plans.py:1621-1727 | rewriting an attempt in place changes the latest attempts exactly where that attempt was the latest |
| `PlanReuse.DependencyProof` | src/multiclaw/planner/execution.py:380-421 | a dependency is evidence only when its latest attempt was itself reused |
| `PlanReuse.ReuseSource` | src/multiclaw/planner/execution.py:361-379 | the source of a reuse is the latest attempt of the superseded step in its own version, with a document that checks out |
| `PlanReuse.LoadSucceededResults` | src/multiclaw/planner/execution.py:1599-1753 | reading in ordinal order and stopping at the first failure succeeds exactly when every succeeded step is acceptable regardless of order, and then returns the document of each |
| `PlanReuse.ReadStep` | src/multiclaw/planner/execution.py:1599-1753 | one succeeded step is read exactly when it is acceptable, given that the steps before it were |
| `PlanReuse.CheckDependencies` | src/multiclaw/planner/execution.py:1727-1751 | the check over the documents gathered so far accepts exactly when all dependencies succeeded, those of a reused step were reused, and the recorded digests are theirs |
| `PlanReuse.ExpectedDigests` | src/multiclaw/planner/execution.py:1732-1747 | the expected digests are collected exactly when the lineage agrees and each dependency has a digest |
| `PlanReuse.OriginOfReuse` | src/multiclaw/planner/execution.py:1638-1684 | the reader finds the writer's source attempt and step again from the reused row alone |
| `PlanReuse.ReuseIsReadable` | src/multiclaw/planner/execution.py:1685-1725 | the document the writer checked is the one the reader accepts for the reused row |
| `PlanReuse.ReusedDependenciesAgree` | src/multiclaw/planner/execution.py:380-421 | what the writer proved about each dependency is the lineage and digest agreement the reader asks for |
| `PlanReuse.AppendKeepsAccepted` | src/multiclaw/planner/execution.py:1599-1753 | a further attempt at a step that has not succeeded leaves every accepted step accepted |
| `PlanReuse.ReuseKeepsAccepts` | src/multiclaw/planner/execution.py:328-444 | agreement of the two checkers: whatever the writing checker lets through the reading checker accepts, together with everything it accepted before |
| `PlanRun.ChooseReady` | src/multiclaw/planner/execution.py:201-212 | the chosen step is ready, and none is chosen only when no step is |
| `PlanRun.NothingReadyMeansAllSucceeded` | src/multiclaw/planner/execution.py:1541-1549 | with nothing running and nothing terminal, no ready step means every step succeeded: the exit that reports a failed dependency is unreachable |
| `PlanRun.EarlierAttempts` | src/multiclaw/storage/repositories/plans.py:1386-1473 | when an attempt is added, all earlier attempts at its step are retryable failures with lower numbers |
| `PlanRun.NewNumberWithinLimit` | src/multiclaw/storage/repositories/plans.py:1386-1473 | a new attempt number is always within the step's and the run's limit |
| `PlanRun.StartKeepsSound` | src/multiclaw/planner/execution.py:266-326 | starting the next attempt keeps the run sound |
| `PlanRun.ReuseIsAppend` | src/multiclaw/storage/repositories/plans.py:1493-1619 | a step the reuse checker accepts always passes the readiness test that guards the insert |
| `PlanRun.ReuseKeepsSound` | src/multiclaw/planner/execution.py:328-444 | reusing a result keeps the run sound, so the reading checker never blocks a run over it |
| `PlanRun.DocumentNamesItsOwnStep` | src/multiclaw/planner/execution.py:1433-1446 | the document of a fresh dependency names that dependency; the document of a reused one names a step outside the current version |
| `PlanRun.ResultBuildsIffDependenciesAreFresh` | src/multiclaw/planner/execution.py:1433-1470 | a result document can be built if and only if no dependency of the step was reused |
| `PlanRun.FinishedIsReadable` | src/multiclaw/planner/execution.py:1282-1345 | a success just stored is read back as the document that was stored |
| `PlanRun.FinishKeepsSound` | src/multiclaw/storage/repositories/plans.py:1621-1727 | storing a result, successful or not, keeps the run sound and every earlier result acceptable |
| `PlanRun.CancelKeepsSound` | src/multiclaw/storage/repositories/plans.py:1729-1780 | cancelling the running attempt keeps the run sound |
| `PlanRun.ReviseKeepsSound` | src/multiclaw/planner/service.py:132-243 | a revision by a user or after a terminal failure keeps the run sound, within the revision limit |
| `PlanRun.Superseded` | src/multiclaw/planner/service.py:345-477 | a revised step supersedes the step of the current version with its logical key, and nothing when there is none |
| `PlanRun.NextKeepsSound` | src/multiclaw/planner/execution.py:1500-1567 | every event keeps the run sound: at most one attempt running, attempts only at steps whose dependencies succeeded, no attempt after a success, and the reading checker accepts |
| `PlanRun.EveryReachableStateIsSound` | src/multiclaw/planner/execution.py:797-923 | soundness holds after every run of events |
| `PlanRun.InitialStateIsSound` | src/multiclaw/storage/repositories/plans.py:236-284 | a run with one validated version and no attempts is sound |
| `PlanRun.EveryRunIsSound` | src/multiclaw/planner/execution.py:797-923 | every run from its first version on is sound and within the bound on all its attempts, whatever the tools, the policy and the skills become in between |
| `PlanRun.ReuseIsClosedAndDirect` | src/multiclaw/planner/execution.py:105-198 | in every sound state the reused steps are closed under dependencies, and a reused result comes straight from an attempt that ran: chains of reuse have length one |
| `PlanRun.SettledForever` | src/multiclaw/storage/repositories/plans.py:1621-1727 | no event removes an attempt or changes one that is not running |
| `PlanRun.ReusedDependencyLeavesOnlyCancel` | src/multiclaw/planner/execution.py:1433-1470 | while an attempt runs whose step depends on a reused step, an event is possible if and only if it cancels that attempt |
| `PlanRun.AttemptsBounded` | src/multiclaw/planner/service.py:132-243 | over all versions a run makes at most (revisions + 1) * steps * attempts attempts |
| `PlanExecute.ApplyCompatibleReuse` | src/multiclaw/planner/execution.py:328-444 | one pass in ordinal order never fails on an idle run, is a run of reuse events, adds only attempts whose dependencies are reused and whose source ran, and leaves no step that could still be reused |
| `PlanExecute.ReusableIsStable` | src/multiclaw/planner/execution.py:328-444 | whether a step can be reused does not depend on attempts at steps it does not depend on, so one pass suffices |
| `PlanExecute.ReadyWithinLimit` | src/multiclaw/storage/repositories/plans.py:1386-1473 | a ready step always has an attempt left, so the limit never refuses a start |
| `PlanExecute.CancelAtBoundary` | src/multiclaw/planner/execution.py:991-1090 | cancelling at a boundary leaves nothing running and the run sound |
| `PlanExecute.StartNext` | src/multiclaw/planner/execution.py:822-842 | an idle run is never refused: the next attempt starts and spends one attempt, or every step has succeeded, or a cancellation request was seen after the reuse pass or on completion, where it is always acted on |
| `PlanExecute.StoreResult` | src/multiclaw/planner/execution.py:1282-1345 | storing fails with the lookup error exactly when the step depends on a reused one, and then changes nothing; otherwise the run is idle again or needs a revision |
| `PlanExecute.ExecuteToBoundary` | src/multiclaw/planner/execution.py:797-923 | for every behaviour of the step runner, and cancellation requests at each of the five points where the loop looks for one, the loop ends, starts at most as many attempts as the limits leave, reports completion only when every step succeeded and cancellation only when it was asked for and nothing is left running, and never reports an idle or resumed run as blocked |
| `PlanExecute.BudgetWithinLimits` | src/multiclaw/planner/execution.py:797-923 | that number is at most the sum over the steps of their attempt limits |
| `PlanRescue.ReuseRescuesAStep` | src/multiclaw/planner/execution.py:328-444 | a concrete sound state in which a step depends on a reused one and still succeeds, because it can be reused itself: the condition that nothing is left to reuse cannot be dropped |
| `PlanProgress.EveryRefResolves` | src/multiclaw/planner/execution.py:1282-1345 | over every run each reference a row holds leads to a stored document |
| `PlanProgress.NextKeepsNothingReusable` | src/multiclaw/planner/execution.py:328-444 | no event but a revision or a reuse makes a step reusable, so after a pass no later pass over the same version finds anything |
| `PlanProgress.PassLeavesNothing` | src/multiclaw/planner/execution.py:328-444 | the reuse pass leaves nothing reusable in the environment it compared with |
| `PlanProgress.HinderedForEver` | src/multiclaw/planner/execution.py:1433-1470 | a step that has yet to succeed and depends on a reused one stays so over every run without a revision |
| `PlanProgress.Completes` | src/multiclaw/planner/execution.py:797-923 | when there is no such step, starting and finishing the ready step again and again completes the version within the attempts left |
| `PlanProgress.CompletesExactlyWhen` | src/multiclaw/planner/execution.py:797-923 | from an idle, approved run with nothing left to reuse, some run without a revision completes the version if and only if no step that has yet to succeed depends on a reused one |
| `PlanExample.ReuseTrapsARun` | src/multiclaw/planner/execution.py:1433-1446 | a concrete plan and nine events lead from a sound state to one in which the run can only be cancelled |
| `Transcript.Groups` | src/multiclaw/agent/compaction.py:116-142 | the scan with its set of pending ids accepts exactly the lists that are a succession of lone messages and complete exchanges, and returns their groups |
| `Transcript.SizesAgree` | src/multiclaw/agent/compaction.py:129-130 | comparing the size of the id set with the number of calls detects exactly the repeated ids |
| `Transcript.StrayResultRefused` | src/multiclaw/agent/compaction.py:132-138 | a result that answers no pending call, or a call already answered, makes the list unacceptable |
| `Transcript.UnansweredRefused` | src/multiclaw/agent/compaction.py:139-140 | a call left without a result makes the list unacceptable |
| `Transcript.AcceptedConcat` | src/multiclaw/agent/compaction.py:116-142 | two lists join into an acceptable one exactly when both are acceptable, unless the second begins with a result |
| `Compaction.Prepare` | src/multiclaw/agent/compaction.py:50-106 | refuses an exchange exactly when the scanner does; raises for the budget exactly when the request is too large and its pinned messages alone are; otherwise returns the bounded request if it fits, else the largest fitting suffix of exchanges with the longest fitting summary |
| `Compaction.PreparedIsSafe` | src/multiclaw/agent/compaction.py:50-106 | whatever is returned is within the budget, is accepted by the scanner, keeps every instruction and the first and last user message in order, and has no tool result left to cut |
| `Compaction.PreparingTwiceIsPreparingOnce` | src/multiclaw/agent/compaction.py:50-106 | a prepared request can always be prepared again, and that changes nothing |
| `Compaction.SomethingIsRemoved` | src/multiclaw/agent/compaction.py:84-87 | on the over-budget path something is always removed, so returning without a removal never happens there |
| `Compaction.NothingIsLost` | src/multiclaw/agent/compaction.py:84-85 | each message is either retained or handed to the summary, never both |
| `Compaction.AtMostOneSummary` | src/multiclaw/agent/compaction.py:75-76 | a compacted request holds at most one summary message |
| `Compaction.Retain` | src/multiclaw/agent/compaction.py:68-82 | the reversed greedy loop keeps the pinned messages and the largest suffix of ordinary groups that fits under the reserve |
| `Compaction.KeptIsWhole` | src/multiclaw/agent/compaction.py:71-82 | every group is kept as a whole or removed as a whole |
| `Compaction.PinnedStandsAlone` | src/multiclaw/agent/compaction.py:72-74 | a group with a pinned message consists of it alone, so keeping it never keeps part of an exchange |
| `Compaction.EstimateGrows` | src/multiclaw/agent/compaction.py:22-32 | keeping more messages never lowers the estimate |
| `Compaction.SelectionIsAccepted` | src/multiclaw/agent/compaction.py:108-110 | removing whole groups leaves a list the scanner accepts |
| `Compaction.SelectionKeepsEssential` | src/multiclaw/agent/compaction.py:59-64 | dropping messages that are not pinned leaves the pinned ones, in order |
| `Compaction.InsertBoundedSummary` | src/multiclaw/agent/compaction.py:164-181 | the binary search returns the longest prefix of the clipped summary that fits, or no summary when not even the empty one does |
| `Compaction.ShorterSummaryFits` | src/multiclaw/agent/compaction.py:173-180 | if a summary fits every shorter one does, which is what the binary search needs |
| `Compaction.InsertedIsAccepted` | src/multiclaw/agent/compaction.py:168-175 | a message inserted after the first user message splits no exchange |
| `Compaction.BoundToolResults` | src/multiclaw/agent/compaction.py:183-196 | in place, each long tool result is replaced by its first and last part around the marker, and nothing else changes |
| `Compaction.TruncatedIsShort` | src/multiclaw/agent/compaction.py:186-196 | a cut result with its marker is never long enough to be cut again |
| `Compaction.BoundTwice` | src/multiclaw/agent/compaction.py:183-196 | cutting long results twice is cutting them once |
| `Anthropic.BuildRequest` | src/multiclaw/llm/providers.py:320-368 | fails exactly when a message cannot be translated; otherwise gives the system blocks and the merged turns |
| `Anthropic.TurnsAlternate` | src/multiclaw/llm/providers.py:365-368 | neighbouring turns have different roles |
| `Anthropic.BlocksAreConserved` | src/multiclaw/llm/providers.py:332-368 | every block that is not system text is sent once, in order, under its role |
| `Anthropic.ResultsShareATurn` | src/multiclaw/llm/providers.py:337-345 | the results of an exchange are gathered in one user turn that begins with them |
| `Anthropic.ToolCallsArePaired` | src/multiclaw/llm/providers.py:320-368 | for every list the scanner accepts, each turn's leading tool results carry exactly the ids of the calls of the turn before it, and no other turn holds results |
| `Anthropic.TranslationIsSound` | src/multiclaw/llm/providers.py:320-368 | alternation, conservation and pairing together for every accepted request |
| `StreamAssembly.StreamState.ParseChunk` | src/multiclaw/llm/providers.py:222-246 | absorbs the fragments of a chunk in order; the reasoning accumulated is the reasoning emitted, and content is passed on |
| `StreamAssembly.StreamState.Finish` | src/multiclaw/llm/providers.py:170-195 | succeeds exactly when every call has a name and an argument object, and then gives the one list of the calls by increasing index |
| `StreamAssembly.CallsAreProjections` | src/multiclaw/llm/providers.py:236-245 | in a list of fragments each call is assembled from its own fragments alone: last id, last name, concatenated arguments |
| `StreamAssembly.InterleavingIsIrrelevant` | src/multiclaw/llm/providers.py:236-245 | lists of fragments that agree call by call give the same calls |
| `StreamAssembly.SwapIsIrrelevant` | src/multiclaw/llm/providers.py:236-245 | neighbouring fragments of different calls in a list may be exchanged |
| `StreamAssembly.SplittingIsIrrelevant` | src/multiclaw/llm/providers.py:236-245 | in a list of fragments, cutting the argument text of one anywhere, with other calls in between, changes nothing |
| `StreamAssembly.AbsorbConcat` | src/multiclaw/llm/providers.py:236-245 | absorbing chunk after chunk is absorbing all their fragments at once |
| `StreamAssembly.ReadStream` | src/multiclaw/llm/router.py:279-307 | a whole stream of chunks gives the calls of all its fragments, keeps as reasoning exactly the reasoning emitted, and passes on all content in order |
| `StreamAssembly.StreamsFinishAlike` | src/multiclaw/llm/providers.py:170-246 | two streams whose fragments agree call by call finish with the same calls or both fail, however the fragments are spread over chunks |
| `StreamAssembly.SplitAcrossChunks` | src/multiclaw/llm/providers.py:170-246 | sending argument text in two chunks, with any chunks in between that leave its call alone, finishes like sending it in one |
| `StreamAssembly.SwapAcrossChunks` | src/multiclaw/llm/providers.py:170-246 | neighbouring chunks with fragments of different calls may arrive in either order |
| `AgentLoop.ResilienceController.ObserveCalls` | src/multiclaw/agent/resilience.py:51-63 | the counter is the length of the trailing run of equal fingerprints, and the decision follows from it and the reflections left |
| `AgentLoop.ResilienceController.ObserveResults` | src/multiclaw/agent/resilience.py:65-77 | the same for results |
| `AgentLoop.RepeatsAreStopped` | src/multiclaw/agent/resilience.py:51-103 | when each decision follows the trailing run of equal fingerprints, fewer than the limit of identical consecutive batches are allowed |
| `AgentLoop.RepeatedBatchesAreBounded` | src/multiclaw/agent/multiclaw.py:459-528 | of the batches actually executed, as the log of the loop records them, any stretch of rounds with equal fingerprints holds at most the limit minus one |
| `AgentLoop.ExecuteBatch` | src/multiclaw/agent/tool_batch.py:45-64 | runs the calls up to and including the first that awaits approval |
| `AgentLoop.BatchIsExchange` | src/multiclaw/agent/multiclaw.py:496-511 | the messages of a batch form a complete exchange exactly when its ids differ and every call was run |
| `AgentLoop.ConversationIsAccepted` | src/multiclaw/agent/multiclaw.py:459-528 | the conversation is acceptable to the scanner exactly when every batch that was run is such an exchange |
| `AgentLoop.PausedBatchIsRefused` | src/multiclaw/agent/multiclaw.py:496-511 | after a two-call batch whose first call awaits approval the conversation is not acceptable, whatever rounds follow |
| `AgentLoop.RequestsAreAccepted` | src/multiclaw/agent/multiclaw.py:459-528 | then every request sent to the model is acceptable, those for reflections and for the retried summary included |
| `AgentLoop.HandleMessage` | src/multiclaw/agent/multiclaw.py:459-553 | sends at most rounds + reflections + 2 model requests; its conversation and its requests are exactly what the log of executed batches and reflections says; a batch is executed exactly when the log holds it, once and in order; the controller has seen exactly the fingerprints of the rounds, and repeated batches are stopped |
| `AgentLoop.CheckCalls` | src/multiclaw/agent/multiclaw.py:470-494 | a batch that repeats too often is skipped, not executed, and the loop goes on only after a successful reflection |
| `AgentLoop.CheckResults` | src/multiclaw/agent/multiclaw.py:513-528 | repeated results end the loop unless a reflection succeeds, and only a successful one is charged |
| `Delegation.Investigate` | src/multiclaw/agent/delegation.py:131-224 | for every objective, at most rounds + 1 model calls and 4 * rounds tool calls, only permitted tools, tokens charged as the larger of the estimate of the whole encoded request with its answer and the report, completion only within the token limit; the exit after the last round is never reached |
| `Delegation.ConversationIsAccepted` | src/multiclaw/agent/delegation.py:197-221 | with distinct call ids in each round every request of the child is acceptable to the scanner |
| `Delegation.RunTools` | src/multiclaw/agent/delegation.py:197-221 | runs the calls in order and stops at the first failure; after success the conversation has gained one exchange |
| `ChatStream.Stream.Handle` | src/multiclaw/api/chat.py:646-775 | whatever comes from the queues, the generator's variables stay what a reader of its chunks knows, and the stream gains exactly what that input has to say, goes on exactly when the input lets it, and ends with the chunk that belongs to it |
| `ChatStream.Stream.Run` | src/multiclaw/api/chat.py:646-791 | for every sequence of inputs the chunks are well formed, say what the inputs say up to the first that stops the generator, and end in the finish or error chunk of that input unless its status could not be stored; no more tool executions finish than start, and a terminal status is stored at most once |
| `ChatStream.StoryKeepsWords` | src/multiclaw/api/chat.py:646-775 | every token and every piece of reasoning taken is passed on once, in order, and no other text is |
| `ChatStream.Stream.RequestApproval` | src/multiclaw/api/chat.py:540-570 | an approval request follows the input of its call inside an open step with no part open |
| `ChatStream.Stream.End` | src/multiclaw/api/chat.py:681-699 | events are drained and everything is closed before the last chunk |
| `ChatStream.Stream.ReturnResult` | src/multiclaw/api/chat.py:714-730 | an output closes open parts, counts at most the executions started, and leaves no step open when none is outstanding |
| `ChatStream.Stream.PersistTerminal` | src/multiclaw/api/chat.py:495-505 | a status is stored only while none is |
| `ChatStream.WellFormedMeans` | src/multiclaw/api/chat.py:507-570 | in a well-formed stream deltas lie inside their open part, an approval request for a call follows that call's input, and nothing follows the end |
| `ChatStream.ReaderMeans` | src/multiclaw/api/chat.py:507-538 | text and reasoning are never open together, and a part is open only inside an open step |
| `ChatStream.PrefixIsWellFormed` | src/multiclaw/api/chat.py:640-644 | a reader that disconnects early has seen a well-formed stream |
| `TeamBoard.EveryReachableTeamIsSound` | src/multiclaw/collaboration/repository.py:181-284 | over every sequence of steps: dependencies point to older tasks, started tasks rest on completed ones, tasks and jobs are bound one to one, no member has two unfinished jobs, and reserved tokens stay within the team limit |
| `TeamBoard.NextKeepsSound` | src/multiclaw/collaboration/repository.py:58-101 | each step keeps all of that |
| `TeamBoard.FoundedIsSound` | src/multiclaw/collaboration/service.py:137-156 | a new team is sound |
| `TeamBoard.EveryTeamIsSound` | src/multiclaw/collaboration/service.py:137-340 | every team is sound from its foundation on |
| `TeamBoard.RunsAreForward` | src/multiclaw/collaboration/repository.py:206-240 | over any run versions grow, no task returns to pending, and an ended task keeps its status |
| `TeamBoard.ClaimedAtMostOnce` | src/multiclaw/collaboration/repository.py:206-227 | at most one claim of a task ever succeeds |
| `TeamBoard.AllocationStaysSound` | src/multiclaw/collaboration/repository.py:69-72 | because a task job must leave room for one more, the room for the final report is never used up |
| `TeamBoard.FinalReportIsAffordable` | src/multiclaw/collaboration/service.py:322-340 | the team limit never refuses the final report of an active team whose tasks have ended: a pass that lists the team is refused it exactly when the session's job limit is reached |
| `TeamBoard.ReportsExactlyWhen` | src/multiclaw/collaboration/service.py:322-340 | a wound-down team that owes its report can still make it, over every run, if and only if the session has room for one more job now |
| `TeamBoard.FullSessionBlocksTheReport` | src/multiclaw/collaboration/repository.py:58-64 | in a full session a team with tasks and no report gets no job, makes no report and is never closed, over every run |
| `TeamBoard.FullSessionStrandsATeam` | src/multiclaw/collaboration/service.py:322-340 | a run from a new team after which its report is refused |
| `TeamBoard.ReportedAtMostOnce` | src/multiclaw/collaboration/service.py:322-340 | at most one final report job is ever made |
| `TeamBoard.Schedule` | src/multiclaw/collaboration/service.py:289-340 | one scheduling transaction for a listed team is a run of the steps, leaves no ready task that a free member could take, closes exactly a wound-down team with nothing to report, reports exactly one that has something to if the session has room, and otherwise raises and leaves the team as it was |
| `TeamBoard.OfferTask` | src/multiclaw/collaboration/service.py:294-321 | a ready task goes to the first free eligible member, or fails with its team when there is no room for its job |
| `TeamBoard.SchedulePass` | src/multiclaw/collaboration/service.py:273-340 | a pass over teams of any sessions stops at the first whose report is refused, leaves the teams from there on as they were, and schedules all those before it |
| `TeamBoard.FirstFree` | src/multiclaw/collaboration/service.py:297-302 | the member chosen is eligible and not busy; none is chosen only if there is none |
| `TeamBoard.DoomedTaskBlocksTheReport` | src/multiclaw/collaboration/service.py:294-340 | unless the team is cancelled, a pending task below a failed or cancelled one stays pending, and no report is made and the team never closed |
| `TeamBoard.FailedTaskDoomsItsTeam` | src/multiclaw/collaboration/service.py:246-321 | a run from a new team in which a task fails and dooms the task that depends on it |
| `TeamBoard.WindsDownExactlyWhen` | src/multiclaw/collaboration/service.py:289-340 | an active team whose jobs have ended, with no worker and nothing to give out, has ended every task if and only if no task is doomed and none orphaned |
| `TeamBoard.OrphanedExactlyWhen` | src/multiclaw/collaboration/service.py:94-271 | a running task becomes orphaned if and only if its job is cancelled while no worker runs it, or its job is already cancelled and its worker ends without a final status, goes away without writing or is stopped with the process |
| `TeamBoard.OrphanedTaskBlocksTheTeam` | src/multiclaw/collaboration/service.py:246-271 | an orphaned task runs for ever, and no report is made and the team never closed, even after the team is cancelled |
| `TeamBoard.CancelledJobStrandsItsTeam` | src/multiclaw/collaboration/service.py:289-321 | a run from a new team after which cancelling a queued job orphans its task |
| `TeamBoard.CancelledMayBeReclosed` | src/multiclaw/collaboration/service.py:273-329 | a cancelled team can leave that status at the next step if and only if a pass that listed it as active is still under way and the team has wound down with nothing more to report |
| `TeamBoard.CancelledStaysCancelled` | src/multiclaw/collaboration/service.py:273-290 | a cancelled team that no pass holds stays cancelled over every run |
| `TeamBoard.CancelledTeamIsReclosed` | src/multiclaw/collaboration/service.py:273-329 | a run in which a listed team is cancelled and then closed as failed |
| `Dispatcher.EveryInterleavingIsSafe` | src/multiclaw/collaboration/service.py:94-271 | under every interleaving of ticks, cancellations, workers, lost workers and restarts: at most the configured number of workers, no two for one job, working ones only on running or cancelled jobs, and ended jobs keep their status |
| `Dispatcher.EveryServiceIsSafe` | src/multiclaw/collaboration/service.py:94-271 | that holds from a service without jobs on |
| `Dispatcher.StepIsForward` | src/multiclaw/collaboration/repository.py:112-124 | no step lowers a version, changes a row without raising its version, or leaves an ended status |
| `Dispatcher.StepKeepsWorkers` | src/multiclaw/collaboration/service.py:195-219 | a worker is registered only while there is room and only for a job without one |
| `Dispatcher.StepKeepsCancels` | src/multiclaw/collaboration/service.py:94-101 | a cancellation about to be written is void or its job has not ended |
| `Dispatcher.AttemptsCountWorkers` | src/multiclaw/collaboration/service.py:211-219 | without a restart a job's attempt counter is the number of workers it was given, and one more while it is marked and its worker not yet registered |
| `Dispatcher.WorkerForCancelledJob` | src/multiclaw/collaboration/service.py:94-219 | over every run between the mark of a job and the registration of its worker, the worker is registered for a cancelled job if and only if a cancellation read from the job's current version is written in between |
| `Dispatcher.OnlyLateRegistration` | src/multiclaw/collaboration/service.py:195-219 | the only step that gives an ended job a worker is that registration, and the job was cancelled |
| `Dispatcher.WorkerAfterCancellation` | src/multiclaw/collaboration/service.py:100-110 | a run in which a job cancelled after it was marked gets its worker |
| `Dispatcher.LostWorkersStay` | src/multiclaw/collaboration/service.py:246-271 | over every run without a restart each lost worker keeps its place, and the number of lost workers never falls |
| `Dispatcher.StartsExactlyWhen` | src/multiclaw/collaboration/service.py:195-271 | from every safe state, some run without a restart registers a worker if and only if fewer workers are lost than may run |
| `Dispatcher.LostWorkersExhaustTheService` | src/multiclaw/collaboration/service.py:195-271 | once as many workers are lost as may run, no job is chosen and no worker registered until a restart |
| `Dispatcher.CancellationLosesAWorker` | src/multiclaw/collaboration/service.py:94-111 | a run in which cancelling a job before its worker's first step loses that worker |
| `BatchReview.DiffBatch` | src/multiclaw/collaboration/workspaces.py:239-279 | the loop gives the review of the workspaces in job order, or the first refusal |
| `BatchReview.OrderIsIrrelevant` | src/multiclaw/collaboration/workspaces.py:239-279 | when the invalid workspaces share one reason, every order of the same workspaces gives the same review or the same refusal with the same reason |
| `BatchReview.OrderIndependentExactlyWhen` | src/multiclaw/collaboration/workspaces.py:239-279 | the outcome is independent of the order if and only if the invalid workspaces share one reason |
| `BatchReview.ReasonsDependOnOrder` | src/multiclaw/collaboration/workspaces.py:243-245 | two workspaces invalid for different reasons are refused differently in the two orders |
| `BatchReview.SortedIsUnique` | src/multiclaw/collaboration/workspaces.py:248-250 | there is one way to sort workspaces with distinct jobs |
| `BatchReview.ReviewedBatchIsDisjoint` | src/multiclaw/collaboration/workspaces.py:256-279 | a reviewed batch changes no file twice, is the concatenation of its members' patches, and keeps within the size and file limits |
| `PlanCache.PlanStore.StartRefresh` | frontend/src/lib/plan-store.ts:20-24 | starts a request under a new epoch, only for the session shown |
| `PlanCache.PlanStore.FinishRefresh` | frontend/src/lib/plan-store.ts:25-33 | publishes a response exactly when it is current, dropping an older version |
| `PlanCache.PlanStore.FailRefresh` | frontend/src/lib/plan-store.ts:34-37 | records an error exactly when the request is current |
| `PlanCache.PlanStore.ResetTo` | frontend/src/lib/plan-store.ts:43 | clears epochs and view for the new session |
| `PlanCache.StaleResponsesAreIgnored` | frontend/src/lib/plan-store.ts:27-35 | a response to a request made before the latest reset changes nothing, even when its session is shown again |
| `PlanCache.VersionsOnlyGrow` | frontend/src/lib/plan-store.ts:28-33 | between resets cached versions never decrease, exactly when no response is published for another plan than was asked for over a newer version of it |
| `PlanCache.AnswerLoads` | frontend/src/lib/plan-store.ts:24-36 | a plan stays marked as loading exactly while its newest request is under way, if and only if no response is published for another plan than was asked for |
| `PlanCache.MisdeliveryLowersAndLoads` | frontend/src/lib/plan-store.ts:24-36 | a response for another plan than was asked for that lowers a version and leaves a plan loading with no request under way |
| `PlanCache.EveryInterleavingIsSound` | frontend/src/lib/plan-store.ts:20-47 | under every interleaving of requests, echoing responses, errors and resets, loading is exact and versions only grow between resets |
| `PlanCache.EveryStoreIsSound` | frontend/src/lib/plan-store.ts:20-47 | loading is exact in every store reached from the empty one |

## Left out

- Leases, fencing tokens, checkpoints and run-status transitions: assumed, not modelled; a plan run here is its plan, attempts and memory.
- Redaction, credential patterns and the byte limit of a plan: each looks at the text of one draft and leaves no state behind that a later step relies on.
- Final summaries, waiting runs and step-runner internals: what the runner answers is an arbitrary input.
- Dependency documents are read when a result is stored rather than when the attempt starts; between the two no dependency of a running attempt can change.
- Compaction.Prepare: the summary's text is an arbitrary function of the removed messages, standing for the summarizer, the local fallback and the list of artifact paths; the early return for an empty removal is not written out because `SomethingIsRemoved` shows it is never taken.
- Storing artifact files, hashing and JSON encoding beyond lengths: file and library work.
- Anthropic.BuildRequest: tools, token limits and model name of the request body are not modelled; raw content blocks are taken to hold no tool calls or results.
- The Anthropic and Gemini stream parsers: only the shared OpenAI-style parser is modelled.
- AgentLoop.HandleMessage: the streaming variant, which returns when a tool awaits approval, and cancellation checks are not modelled; a fingerprint is an arbitrary string per round, and whether the last summary is retried is an input.
- Delegation.Investigate: cancellation and the parallel start of several children are not modelled; the length of an answer is an input.
- PlanProgress.CompletesExactlyWhen: completing a version takes an answer to each step that is small enough to be stored and as many unused memory ids as attempts are left, both given as assumptions.
- ChatStream.Stream.Run: heartbeats and the lease's own state are not modelled; part ids are numbered where the source draws random ones.
- TeamBoard.SchedulePass: the cursor over more than a page of teams and the row limits of list queries are not modelled; other steps do not come between the transactions of one pass.
- TeamBoard: team messages and titles carry no invariant beyond their length limits.
- Dispatcher: session blocking, tenant revocation and the paging cursor only make fewer jobs eligible.
- BatchReview: git commands and accepting a reviewed batch; a workspace's diff is an input.
- PlanCache: reading references out of messages, and listeners.
- Routers, authentication, settings, migrations, MCP transports, sandboxing and the user interface.
