# Verification of the Router agent's task episodes

A Dafny model of how the Main Agent works on one PLC task, and proofs about every run of it. The pieces:

- **Task record and store** (`RouterSchema`, `TaskStore`, `RunInvariants`): the persisted task with its validators, the
  append-only public event log, the worker-job history, and `Advances`, the relation every step of an episode keeps.
- **Episodes** (`EpisodeService`, `EpisodeLoop`, `ToolExecution`, `MessageLog`, `FinalVerdict`, `TaskCancellation`): a bounded
  tool loop over an arbitrary script of model answers, tool arguments, worker replies and exceptions; finalization and error
  paths; the chat log and the compacted request made from it; the verdict a stop is given; the user's cancellation.
- **Tools and dispatch** (`ToolService`, `ToolEffects`, `CallRecords`, `DispatchState`, `RetryDebounce`, `ValidationReports`):
  call records, counters with rollback, refusal of repeated failures, validation reports.
- **What dispatch relies on** (`SchedulerGuard`, `WorkerInputs`, `WorkerAdapter`, `WorkerResults`, `ResultEffects`,
  `ReportRouting`): the guard, the input builder, the worker protocol and the result handler, modelled from their code rather
  than assumed; what each kind of result does to failures, gates and phases; and the way of a report from its declared path to
  the evidence a repair needs.
- **Stream assembler, recorder, eval** (`StreamAssembler`, `JsonSanitizer`, `TokenRecorder`, `StratifiedSampler`,
  `SequenceMatching`, `EvalVerdicts`).

Code that changes state is a class or a loop proved against functions. The environment is a parameter of the methods: any
model answer or provider error in every turn, any worker reply, any fate of every worker's file and of the two files a run
leaves, and for every tool a type error or another exception at once, right before its record is opened, right after, or once
its effect is complete. A dispatch can be struck at any of five points. Every lemma carries `{:induction false}`: each proof stands on its body and on the lemmas it calls, none
on automatic induction.

## How the main results fit together

`EpisodeService.MainAgentService.RunEpisodes` is the whole-run statement: over any number of episodes with any plans, every
record ever written is `Sound` (limits, phase rules, unique failure ids, and the blocking flag equal to what the failure list
says), no more than one worker above the start is ever active, the log gains at most one terminal event, and once an episode
has ended the task every later one is told so and changes nothing. `TaskCancellation.TakeTurns` adds a user who may cancel in
between. Both rest on `RunEpisode`, that on `EpisodeLoop.ToolLoopRunner.RunOrchestration`, that on
`ToolExecution.ToolExecutor.ExecuteToolCall`, and that on the contracts of the tools, each of which states the new record
outright and that exactly one call record and one reported result were added. Each write remembers how long the public log was,
so writes and events form one interleaved history: `Consistent` says that the report was filed before completion was announced
and the final status written between completion and end. A closing that the disk cuts off is one of the endings: its final
response is public, the report is on file if that much landed, and the task is left as unfinished as it was, its run open.
A turn stops at the first call that leaves the task waiting or ended (`StepByStep`), and a run goes on only with a task that does
neither. `Debounced` histories are kept by every step of the loop, so `RunEpisodes` also states the pigeonhole bound of `RetryDebounce`,
for every input at once.

The functions the contracts are written in have laws of their own that do not name them: which failures a result settles or
adds and that a failed check without details fails the task (`ResultEffects`), which failures a report settles
(`PassedReportSettles`), what a past job holds against an input and that two failures over one source refuse the third dispatch
(`RepeatedFailureIsRefused`), exactly when a dispatch is admitted (`AdmittedIff`), that no secret is written at any depth
(`SecretsAreRedactedAtEveryDepth`), and which messages a request clears (`ClearedIff`).

## Where the code does not meet the obvious property

- **The last failure the model was shown need not fail the task.** A stop looks at the last evidence record and fails only if
  that says `failed`. `VerdictFollowsObservationIff`, and `EpisodeVerdictFollowsIff` over a whole episode: without open blockers
  the verdict agrees with the last evidence result shown if and only if no failure is masked, that is, unless a failure was
  shown last and the last evidence record exists and is not a failed one. `WhatMasksAFailure` says which calls do that, for
  every way a call can end, and there is a run for each kind: a call that raised and is still `running` (`RaisedCallCanSucceed`),
  a call shown as failed without a record after one that was applied (`UnopenedCallCanSucceed`), and a recorded failure followed
  by a call that raised on its arguments with its record open (`CoveredFailureCanSucceed`).
- **A final answer need not end the task.** Its final response is published before the report and the log are written, and an
  error in writing either escapes the episode. `StopOnAnswer` and `BlockEmptyTurn` end the task if and only if the disk takes
  both files, `RecordAgentError` on running out of turns likewise; `CutIsKept` says what the cut-off closing leaves.
- **A batch result without a call.** `run_parallel_workers` with an empty list records a result for a call it never recorded.
  `EmptyBatchHidesARaise`: after a batch that raised with its record open, an empty batch turns that record into a rejected one.
  `StrayResultLeavesRunsIff`: the runs of a task stay as they were if and only if its latest run has no running record of that
  name. (The tool is not in the registry the model chooses from.)
- **A healthy strict pass is not always a workflow pass.** A route outside the table has no expected sequence, so the strict
  profile ignores its jobs while the workflow profile wants none (`StrictAloneIsNotEnough`); `WorkflowIsStrictAndHealthy`
  gives the exact difference between the two profiles.
- **Written files can be unlisted** (`ErrorAnswerMayHideWrittenFiles`). `ListsWhatItWroteIff`: an answer lists the files it left
  on disk if and only if it is not the case that a write was refused after others had landed.
- **A failed dispatch can leave its result behind.** An exception after the result was applied rolls back the active list and
  both counters, but not the result. `DispatchMeans`: the record is as before if and only if no result was applied;
  `FailedDispatchCanKeepItsResult` shows a test worker that passes and writes its report, on any route, and whose failed
  dispatch leaves the test gate passed, on a task that exists by `SuchATaskExists`.
- **Fragments without an index can be merged** into an earlier call (`MixedStreamCanMerge`) or with a later one that carries an
  index (`LaterIndexCanMerge`). `UnindexedAreAloneIff`: over any mixed stream, every fragment without an index has a call to
  itself if and only if no index in the stream, before or after, equals the number of calls such a fragment found.
  `NeverMergesIff` answers the question a reader of a beginning would ask: whether it can go on without indices and not merge.

## Model

| member | source | states |
|---|---|---|
| `EpisodeService.MainAgentService.RunEpisodes` | backend/app/agents/main_agent.py:526-643 | over any sequence of episodes, closings cut off by the disk included: a terminal task is untouched; else every write is sound, at most one terminal event, no success with an open blocker, the active-worker counter back at its start, a debounced history still debounced and its failures per input bounded, and after an end every later episode is refused with that same status |
| `TaskCancellation.TakeTurns` | backend/app/services/task_service.py:261-300 | whatever the order of episodes and cancellations, at most one end, no success with an open blocker, and an ended task stays as it is |
| `TaskCancellation.TaskService.CancelTask` | backend/app/services/task_service.py:261-300 | an unfinished task is ended by a lone terminal event after its status; any other is left alone, with a conflict unless already cancelled |
| `EpisodeService.MainAgentService.RunEpisode` | backend/app/agents/main_agent.py:526-643 | any terminal task is untouched; otherwise only the episode's own new run changes, it holds exactly the records of the executed calls, it is closed unless an unknown exception escapes or the disk cuts the closing off, which it does only by refusing a run file; the results reported are those of the executed calls, and a success is backed by the stored evidence |
| `EpisodeService.MainAgentService.Conclude` | backend/app/agents/main_agent.py:595-643 | closes the own run with the status the task was left in, or `failed` for a known exception; an unknown one and a cut-off closing leave it running |
| `EpisodeService.MainAgentService.StartMainAgentRun` | backend/app/agents/main_agent.py:645-723 | appends one running run with a fresh id and makes it the latest; a terminal task is left alone |
| `EpisodeService.MainAgentService.CompleteLatestAgentRun` | backend/app/agents/main_agent.py:828-857 | one write that changes the status of the latest run and nothing else; nothing at all without a latest run |
| `EpisodeService.MainAgentService.RecordAgentError` | backend/app/agents/main_agent.py:859-992 | a task that has ended only has its run closed, with its own status; otherwise only running out of turns ends it, and the run is closed as failed, except that a refused report or log escapes and leaves task and run open |
| `EpisodeService.MainAgentService.FailTask` | backend/app/agents/main_agent.py:905-975 | report and log filed before the completion event, the failed status written between completion and the one terminal event; a refused report or log leaves only the decision, and the report if it landed |
| `EpisodeService.ConsistentMeansAtMostOneEnd` | backend/app/agents/main_agent.py:1407-1445 | a consistent history holds at most one terminal event, it is last and of the stored status, and unless the user cancelled it comes right after `agent.completed`, which comes after the final report; an ended task is at its last phase, a cancelled one runs no worker, and a success has no open blocker |
| `EpisodeService.ClosedKeepsConsistent` | backend/app/agents/main_agent.py:1376-1448 | closing a consistent unfinished history gives one ended by its agent, in that order of files, completion, status and end |
| `EpisodeService.CutIsKept` | backend/app/agents/main_agent.py:1376-1448 | a closing that a refused run file cuts off leaves the task unfinished, its history consistent, its run as it was, and the report on file if it landed |
| `EpisodeService.OverIsKept` | backend/app/agents/main_agent.py:595-643 | each way the loop can end, a cut-off closing among them, keeps soundness, counters, history and records, and determines the status the task is left in |
| `EpisodeService.VerdictIgnoresRunStatus` | backend/app/agents/main_agent.py:828-857 | closing the run does not disturb the evidence its verdict was based on |
| `EpisodeService.EpisodeVerdictFollowsIff` | backend/app/agents/main_agent.py:1342-1373 | over a whole episode the log says last what the model was last shown, and the verdict follows it iff no failure is masked |
| `EpisodeLoop.ToolLoopRunner.RunOrchestration` | backend/app/agents/main_agent.py:216-387 | for every script and any fate of the run files: soundness of every write, one record per call that opened one, one reported result per call, charged dispatches, requests from well-shaped logs, at most one empty turn survived, a final answer ends the run at once with the stored verdict or is cut off by a refused file, and the turn budget |
| `EpisodeLoop.ToolLoopRunner.TakeTurn` | backend/app/agents/main_agent.py:246-380 | one turn goes on only after calls that left the task neither waiting nor ended, or after a first empty turn; calls that left it waiting pause the run; anything else is a definite end, cut off only by a refused run file |
| `EpisodeLoop.ToolLoopRunner.AskModel` | backend/app/agents/main_agent.py:389-470 | the turn is announced; the request is the compacted log; a failed streamed request is sent once more, unchanged, and decides the turn |
| `EpisodeLoop.ToolLoopRunner.CompleteTurn` | backend/app/agents/main_agent.py:389-450 | streaming fallback happens exactly for a provider error while streaming |
| `EpisodeLoop.ToolLoopRunner.StopOnAnswer` | backend/app/agents/main_agent.py:275-291 | a final answer finalizes the task iff the disk takes both run files, with the verdict on its evidence, which the stored record still gives afterwards; otherwise only the final response and a report that landed remain |
| `EpisodeLoop.ToolLoopRunner.BlockEmptyTurn` | backend/app/agents/main_agent.py:329-360 | the first empty turn is answered with a reminder, the second one fails the task iff the disk takes both run files and is cut off otherwise |
| `EpisodeLoop.ToolLoopRunner.RunTurn` | backend/app/agents/main_agent.py:261-271 | the turn's message is followed by one answer per executed call, in order; at least one call is executed, and the run pauses iff the last one left the task waiting or ended |
| `EpisodeLoop.ToolLoopRunner.RunCalls` | backend/app/agents/main_agent.py:362-385 | runs calls in order; after every executed call but the last the task neither waits nor has ended, and the turn pauses iff it does after the last; every call, however it ended, is accounted for in records, charges, reported results and answers |
| `EpisodeLoop.ToolLoopRunner.RunUntilPause` | backend/app/agents/main_agent.py:362-387 | the loop over the calls of a turn stops at the first that leaves the task waiting or ended, and at no other |
| `EpisodeLoop.ToolLoopRunner.FinalizeRuntimeStop` | backend/app/agents/main_agent.py:1376-1448 | final response, report and log, completion, status, end: writes and events interleaved in that order, all records sound, nothing else changed; a refused report or log cuts it off there with the task unfinished |
| `EpisodeLoop.ToolLoopRunner.CloseTask` | backend/app/agents/main_agent.py:1399-1445 | the closing a stop and a failure share: complete iff both run files land, else cut off after what landed |
| `EpisodeLoop.ToolLoopRunner.WriteRunFiles` | backend/app/agents/observability.py:301-405 | the report is filed before the log, each only once the disk has taken it |
| `EpisodeLoop.ClearedThroughoutTheRun` | backend/app/agents/main_agent.py:1623-1640 | what one request of a run clears, every later request clears to the same text |
| `EpisodeLoop.RequestsAreWellShaped` | backend/app/agents/main_agent.py:241-256 | every request sent keeps the tool-call protocol and carries at most six oversized results in full |
| `EpisodeLoop.ProgressJoins` | backend/app/agents/main_agent.py:362-385 | records, charges and reported results of consecutive stretches add up |
| `EpisodeLoop.VerdictSurvives` | backend/app/agents/main_agent.py:1342-1373 | the closing events do not change the verdict the stop was given |
| `ToolExecution.ToolExecutor.ExecuteToolCall` | backend/app/agents/main_agent.py:1489-1590 | whatever becomes of a call: at most one record, left running exactly if it raised with its record open; exactly one reported result, last in the log, rejected for a type error and failed for any other exception; a worker call refused exactly as judged and its job sent to the tool's own worker, and for every tool without a worker the outcome outright |
| `ToolExecution.ToolExecutor.CallMainAgentTool` | backend/app/agents/tools.py:3910-3931 | an unknown tool is rejected and ill-fitting arguments raise, both without a record; every other call ends as its tool does |
| `ToolExecution.FitsIff` | backend/app/agents/tools.py:3910-3931 | each tool takes one form of arguments, and only the tools of the registry take any |
| `ToolExecution.PerformedIsCarried` | backend/app/agents/main_agent.py:1530-1590 | every outcome of a tool method is an execution with the record, charge and report that go with it |
| `MessageLog.MessagesForModelContext` | backend/app/agents/main_agent.py:1623-1640 | the in-place rewriting of the copy computes the compaction function |
| `MessageLog.CompactKeeps` | backend/app/agents/main_agent.py:1623-1640 | length, roles, ids and non-tool messages survive compaction, and so do the last six tool messages |
| `MessageLog.ClearedIff` | backend/app/agents/main_agent.py:1623-1640 | a tool result of more than 2000 characters is sent in its short form iff six tool results or more came after it; every other message is sent as it is |
| `MessageLog.FewAreUncleared` | backend/app/agents/main_agent.py:1623-1640 | at most six oversized tool results stay uncleared |
| `MessageLog.UnclearedAre` | backend/app/agents/main_agent.py:1623-1640 | which these are: the oversized results that fewer than six tool results came after |
| `MessageLog.ClearedStaysCleared` | backend/app/agents/main_agent.py:1623-1640 | a cleared message is cleared to the same text in the request of any longer log |
| `MessageLog.CompactIsWellShaped` | backend/app/agents/main_agent.py:1623-1640 | compaction preserves the call/answer shape |
| `MessageLog.AppendRound` | backend/app/agents/main_agent.py:1451-1467 | an assistant message with calls and all its answers keeps the log well-shaped |
| `MessageLog.AppendPlain` | backend/app/agents/main_agent.py:348-360 | messages without calls keep the log well-shaped |
| `FinalVerdict.VerdictIsFailedIff` | backend/app/agents/main_agent.py:1342-1373 | a stop fails iff a blocker is open, or the last evidence call failed, or there is none and the last reported evidence failed |
| `FinalVerdict.EvidenceTools` | backend/app/agents/main_agent.py:95-110 | the fourteen tools whose calls count as evidence, and no others |
| `FinalVerdict.VerdictIsStable` | backend/app/agents/main_agent.py:1342-1373 | with evidence in the latest run the verdict depends on open blockers and that evidence only |
| `FinalVerdict.InsertionIsInvisible` | backend/app/agents/main_agent.py:1354-1361 | inserting or deleting rejected or non-evidence records anywhere changes no evidence |
| `FinalVerdict.VerdictFollowsObservationIff` | backend/app/agents/main_agent.py:1354-1361 | the verdict follows the last evidence result shown iff no failure is masked: none was shown last, or the last evidence record is a failed one, or there is no evidence record |
| `FinalVerdict.ObservedIsReported` | backend/app/agents/main_agent.py:1362-1372 | what the model was last shown is what the log reports last |
| `FinalVerdict.WhatMasksAFailure` | backend/app/agents/main_agent.py:1354-1361 | which calls mask a failure, for every way the last call can end |
| `FinalVerdict.RaisedCallCanSucceed` | backend/app/agents/main_agent.py:1565-1590 | a run whose only call raised, was shown as failed, and which still succeeds |
| `FinalVerdict.UnopenedCallCanSucceed` | backend/app/agents/main_agent.py:1498-1527 | a run whose last call was shown as failed without a record, after an applied one, and which still succeeds |
| `FinalVerdict.CoveredFailureCanSucceed` | backend/app/agents/main_agent.py:1543-1562 | a run with a failure on record, covered by a call that raised on its arguments, which still succeeds |
| `CallRecords.CloseAfterOpen` | backend/app/agents/tools.py:2629-2725 | a result closes exactly the record its own call opened, whatever older records are still running |
| `CallRecords.CloseNewest` | backend/app/agents/tools.py:2702-2713 | the backward scan closes the newest running record of the tool, and reports whether there was one |
| `CallRecords.CloseTouchesOne` | backend/app/agents/tools.py:2702-2713 | closing changes that one record and moves none |
| `CallRecords.StrayResultIsHarmlessIff` | backend/app/agents/tools.py:1832-1840 | a result without a call changes nothing iff no record of that name is running |
| `CallRecords.StrayResultLeavesRunsIff` | backend/app/agents/tools.py:1832-1840 | over the runs of a task: a result without a call changes nothing iff the latest run has no running record of that name |
| `CallRecords.OpenedIsRunning` | backend/app/agents/tools.py:2629-2676 | a call opens a running record iff the latest run is on file |
| `CallRecords.RunningMeansRaised` | backend/app/agents/tools.py:2629-2725 | tool by tool, the records left running are as many as the calls that raised |
| `ToolService.AgentToolService.Dispatch` | backend/app/agents/tools.py:2329-2381 | the exact record after a dispatch for every worker behaviour and each of five points an exception strikes (the laws of ResultEffects say what it means), its status, the job it leaves (running and without a result if struck inside the call), the events it says in public, the files it leaves, and that every write on the way is sound |
| `ToolService.AgentToolService.CallAndApply` | backend/app/agents/tools.py:2335-2367 | inside the guarded part: applied, raised before, inside or after the call, or raised after the counter came down |
| `DispatchState.DispatchMeans` | backend/app/agents/tools.py:2329-2457 | conservation: active list and parallel counter as before, one call used iff it returned normally, and the record as before iff no result was applied |
| `DispatchState.FailedDispatchCanKeepItsResult` | backend/app/agents/tools.py:2356-2381 | a test worker on any route passes and writes its report, the exception strikes after the counter came down, and the failed dispatch leaves the test gate passed |
| `DispatchState.SuchATaskExists` | backend/app/models/router_schema.py:634-659 | a sound task with room for that dispatch exists |
| `DispatchState.RestoreUndoes` | backend/app/agents/tools.py:2430-2457 | restoring after recording gives back the very same task |
| `DispatchState.DispatchConserves` | backend/app/agents/tools.py:2417-2457 | after an applied result both the normal and the rolled-back record are sound, restore the active list and differ in one call used; restoring after the decrement equals restoring before it |
| `DispatchState.ApplyingHandles` | backend/app/workers/worker_result_handler.py:76-106 | the handler applies a dispatched result unless it is a passed development without code, and then it raises |
| `ToolService.AgentToolService.Judge` | backend/app/agents/tools.py:2227-2275 | a dispatch is refused iff guard, builder (invalid configuration, no workspace) or retry check refuses; otherwise the worker gets the built input |
| `ToolService.AgentToolService.DispatchOnce` | backend/app/agents/tools.py:2215-2282 | a refusal changes nothing; otherwise the record and the job left are exactly those of dispatching the built input, a normal return uses one call, and a debounced history stays debounced |
| `ToolService.RepeatedFailureIsRefused` | backend/app/agents/tools.py:2284-2327 | once two completed jobs with a request's inputs and configuration failed over the same source, the request is refused, and so is every batch that has it |
| `ToolService.RefusedIff` | backend/app/agents/tools.py:2227-2275 | a request is refused iff the guard refuses it, its configuration is invalid, the task has no workspace, or two of its past jobs failed for a common reason |
| `ToolService.AgentToolService.CallWorkerTool` | backend/app/agents/tools.py:2215-2282 | at most one record with the outcome, refusal exactly as judged on the task before the call, for an admitted one the record and job of dispatching the built input, charged iff the dispatch returned, for an exception at any of four points |
| `ToolService.AgentToolService.CallPreparedWorkerTool` | backend/app/agents/tools.py:1804-1822 | the same on the task made ready for the worker; an exception before the preparing write leaves it as it was |
| `ToolService.AgentToolService.PrepareDomainWorkerTask` | backend/app/agents/tools.py:1277-1344 | the prepared record, for classified and unclassified tasks and each worker |
| `ToolService.AgentToolService.DispatchAll` | backend/app/agents/tools.py:1911-1914 | a batch runs one at a time: never more than one extra active worker, calls used equal to the dispatches that returned |
| `ToolService.AgentToolService.RunParallelWorkers` | backend/app/agents/tools.py:1824-1930 | an empty batch records a result without a call; otherwise one record, rejected iff guard, builder or retry check refuses some member before any is dispatched, failed iff some dispatch failed, left running if an exception strikes with it open |
| `ToolService.AgentToolService.EmptyBatchHidesARaise` | backend/app/agents/tools.py:1824-1930 | after a batch that raised with its record open, an empty batch leaves that record rejected |
| `ToolService.AgentToolService.AnyBlocked` | backend/app/agents/tools.py:1901-1909 | every input of a batch is checked against the same history |
| `ToolService.AgentToolService.RecordToolCall` | backend/app/agents/tools.py:2597-2676 | opens one running record in the latest run and announces the call |
| `ToolService.AgentToolService.RecordToolResult` | backend/app/agents/tools.py:2622-2725 | closes the newest running record of the tool, if any, and announces the result |
| `ToolService.AgentToolService.FileTool` | backend/app/agents/tools.py:689-765 | each effect gives its status, an exception of either kind strikes before the record, after it or after the effect, only a write that landed files its path and role, and the call and its result are all that is said in public |
| `ToolService.AgentToolService.RequestClarification` | backend/app/agents/tools.py:1460-1545 | rejected without a question; else the task waits with all questions added and says so in public; an exception strikes before the record, after it or after the effect |
| `ToolService.AgentToolService.UpdatePlan` | backend/app/agents/tools.py:1346-1458 | rejected for a terminal task; else the planned record, announced; an exception at any of four points changes the plan only if it strikes after the effect |
| `ToolService.AgentToolService.RunQualityGate` | backend/app/agents/tools.py:2048-2093 | report path and verdict are filed and announced between start and result, or an unwritable report or another exception leaves the record open |
| `ToolService.AgentToolService.RecordReport` | backend/app/agents/tools.py:2095-2207 | the record after a report and the ids it resolved, as `PassedReportSettles` and `ReportMovesItsGate` spell them out, and every rejected or raising case, before or after the effect |
| `ToolEffects.CallCloses` | backend/app/agents/tools.py:2629-2725 | a call, quiet steps and its result leave exactly one more record of that status |
| `ToolEffects.PlansArePermitted` | backend/app/agents/tools.py:1277-1458 | a new plan keeps a sound task sound and never ends it |
| `ToolEffects.PlanDecides` | backend/app/agents/tools.py:1382-1429 | what a plan says about test and proof holds for the requirement and the gate, what it leaves open stays, and the task is classified and running |
| `ToolEffects.PausedTaskWaits` | backend/app/agents/tools.py:1493-1511 | a paused task waits with every old and new question and is otherwise as it was |
| `ToolEffects.PreparingAsksForItsCheck` | backend/app/agents/tools.py:1277-1344 | preparing requires the worker's own check and changes no other gate |
| `ToolEffects.PreparingClassifies` | backend/app/agents/tools.py:1277-1344 | preparing classifies a task after its worker iff that was still to be done and the worker is no repair |
| `ToolEffects.WorkspaceRoles` | backend/app/agents/tools.py:4130-4166 | a request file is filed as one, any other by its role, and a log by its name if it has none |
| `RunInvariants.AdvancesIsTransitive` | backend/app/agents/tools.py:2383-2457 | what single steps keep, whole runs keep |
| `RouterSchema.ValidatesIff` | backend/app/models/router_schema.py:634-659 | which limits and phase rules loading a stored task accepts, in full |
| `ValidationReports.ReportKeepsSound` | backend/app/agents/tools.py:4462-4533 | every report keeps the rules and the link between the blocking flag and the failures |
| `ValidationReports.PassedReportSettles` | backend/app/agents/tools.py:4536-4604 | a passed report resolves an open blocking failure iff its id is given, or without ids iff its source is the one reported on; no other failure changes, and the ids reported are exactly those of the failures that moved |
| `ValidationReports.ReportMovesItsGate` | backend/app/agents/tools.py:4462-4533 | which gates, regressions and file roles a report moves, by type and status, and that it moves nothing else |
| `ValidationReports.LastBlockerMovesToGate` | backend/app/agents/tools.py:4462-4533 | a passed report leaves a checking phase iff it selects every open blocker, and then the flag is clear |
| `ValidationReports.ResolveValidationFailures` | backend/app/agents/tools.py:4536-4559 | the loop resolves, in place, the open blocking failures with one of the given ids, or without ids those of the source reported on, and no others |
| `ValidationReports.ReportedIdsAreSelected` | backend/app/agents/tools.py:4593-4604 | with unique ids the reported ids are exactly the failures that went from open to resolved |
| `ValidationReports.NothingResolved` | backend/app/agents/tools.py:4593-4604 | a failed report reports nothing resolved |
| `ValidationReports.ResolvedFailureIds` | backend/app/agents/tools.py:4593-4604 | the dictionary lookup finds the last failure of an id |
| `ValidationReports.DuplicateIdsCanHideAResolution` | backend/app/agents/tools.py:4593-4604 | without unique ids a resolution can go unreported |
| `ValidationReports.ReportTwiceResolvesNothing` | backend/app/agents/tools.py:4536-4575 | after a report nothing is left for an identical one, and no failure moved |
| `RetryDebounce.BlockedFailureTypes` | backend/app/agents/tools.py:2284-2327 | the counting loop blocks exactly the failure types recorded often enough against this input |
| `RetryDebounce.BlockedIffTwoAgree` | backend/app/agents/tools.py:2284-2327 | an input is blocked iff two of its past jobs failed for a common reason |
| `RetryDebounce.HoldsSomethingIff` | backend/app/agents/tools.py:2294-2303 | a past job counts against an input iff worker and signature are the same, it has a result, and that was not completed or came out failed |
| `RetryDebounce.HoldsItsSources` | backend/app/agents/tools.py:4104-4118 | a completed failure with listed failures counts under exactly the names of their sources |
| `RetryDebounce.HoldsItsError` | backend/app/agents/tools.py:4104-4118 | without listed failures, or not completed, it counts under its error code, else under the worker's failure or the execution's |
| `RetryDebounce.FailuresAreBounded` | backend/app/agents/tools.py:2284-2327 | with K possible failure types at most (max_failures - 1) * K + 1 jobs of a debounced history failed one input |
| `RetryDebounce.DebouncedMeansBounded` | backend/app/agents/tools.py:2284-2327 | a debounced history keeps that bound for every input at once |
| `RetryDebounce.TallyNeverExceeds` | backend/app/agents/tools.py:2284-2327 | no failure type is recorded more than max_failures times |
| `RetryDebounce.RunsAreDebounced` | backend/app/agents/tools.py:2266-2282 | every run of single dispatches leaves a debounced history |
| `RetryDebounce.BlockedStaysBlocked` | backend/app/agents/tools.py:2304-2310 | once blocked, blocked for good |
| `RetryDebounce.OtherSignaturesDoNotInterfere` | backend/app/agents/tools.py:2294-2298 | from any history, what happens to one input depends on its own jobs and attempts alone |
| `RetryDebounce.HeldTypesAreDistinct` | backend/app/agents/tools.py:4104-4118 | one result counts once per failure type |
| `SchedulerGuard.AdmittedCallHasRoom` | backend/app/services/scheduler_guard.py:82-115 | an admitted call finds a running task with room in both counters, and a repair an open blocker and a round left |
| `SchedulerGuard.AdmittedIff` | backend/app/services/scheduler_guard.py:82-165 | exactly when a dispatch with the proposed inputs is admitted, worker by worker: status, classification, open questions, both counters, the files it works on, and for a repair the blocker, the round and the evidence |
| `SchedulerGuard.BatchAdmittedIff` | backend/app/services/scheduler_guard.py:168-210 | a batch is admitted iff it fits both counters as a whole, has no repair, and each of its jobs is admitted |
| `SchedulerGuard.AdmittedBatchAdmitsEach` | backend/app/services/scheduler_guard.py:168-210 | an admitted batch admits each of its jobs |
| `SchedulerGuard.ProposedPathsCarryTheCode` | backend/app/services/scheduler_guard.py:270-294 | test, formal and repair calls are refused for lack of code iff the task has none |
| `WorkerInputs.PassedRepairSettlesEveryBlocker` | backend/app/workers/worker_input_builder.py:210-224 | a dispatched repair is sent for every open failure, so a passed one settles every blocker the task had |
| `WorkerInputs.DevelopmentIsNeverRefused` | backend/app/workers/worker_input_builder.py:153-168 | no development that passes is refused: the draft rules, or for the built-in mock its own drafts, bring the code its result is judged by |
| `ReportRouting.WrittenReportIsEvidence` | backend/app/workers/worker_input_builder.py:169-194 | a completed test or formal answer that wrote its report leaves the task with the evidence a repair needs, from the declared path through the adapter and the result handler to the guard |
| `ReportRouting.PassedCheckHasWrittenItsReport` | backend/app/mcp/draft.py:154-188 | a real or subagent worker whose check passes has written its report |
| `ReportRouting.RepairFilesGetTheirRoles` | backend/app/workers/worker_input_builder.py:169-194 | what a repair writes to its declared report paths is filed as patch and repair summary |
| `ReportRouting.DevelopmentFilesGetTheirRoles` | backend/app/workers/worker_input_builder.py:153-168 | what a development writes to its declared report paths is filed as requirements and contract |
| `ReportRouting.DeclaredPaths` | backend/app/workers/worker_input_builder.py:153-180 | the output paths a development and a repair declare |
| `ReportRouting.RolesAgreeWithKinds` | backend/app/mcp/adapter.py:814-836 | a path the handler files under a role matches the adapter's kind for that role |
| `ReportRouting.CodeIsFiledAsCode` | backend/app/mcp/adapter.py:814-818 | program code is filed as the current code, and only a path that says `io_contract` is filed as code without matching it |
| `WorkerResults.ResultIsRefusedIff` | backend/app/workers/worker_result_handler.py:187-295 | the validators refuse a result iff development passed without code; every other result keeps the task sound |
| `ResultEffects.FailedCheckLeavesABlocker` | backend/app/workers/worker_result_handler.py:336-417 | a test or formal check that fails without details leaves the old failures and one more: open, blocking, of its source, made by this job, under a new id |
| `ResultEffects.FailedCheckFailsItsGate` | backend/app/workers/worker_result_handler.py:336-417 | a failed check adds the failures it names, requires its gate and marks it not passed |
| `ResultEffects.FailedCheckFailsTheTask` | backend/app/agents/main_agent.py:1342-1344 | after an admitted check that failed without details no stop is a success, whatever was recorded or reported |
| `ResultEffects.PassedCheckSettlesItsSource` | backend/app/workers/worker_result_handler.py:549-576 | a passed check settles every open blocking failure of its source and no other, and passes its gate |
| `ResultEffects.PassedRepairSettlesExactly` | backend/app/workers/worker_result_handler.py:579-632 | a passed repair settles exactly the open blocking failures selected by id, else named by its targets, else all; a blocker that came with its own result stays open unless it is one of them |
| `ResultEffects.PassedRepairAsksForRegression` | backend/app/workers/worker_result_handler.py:420-466 | a passed repair uses one round; if it rewrote code the checks are forgotten and a regression is owed, the proof too if a formal blocker was open |
| `ResultEffects.PassedDevelopmentStartsAfresh` | backend/app/workers/worker_result_handler.py:308-333 | a passed development forgets what was checked and goes on to what the task wants checked |
| `ResultEffects.NothingSaidNothingMoves` | backend/app/workers/worker_result_handler.py:187-295 | a result that says nothing about the work brings its failures and moves nothing else |
| `ResultEffects.WaitsIff` | backend/app/workers/worker_result_handler.py:210-224 | a result makes the task wait iff it is a completed request for clarification that blocks |
| `ResultEffects.MergeBringsTheNews` | backend/app/workers/worker_result_handler.py:483-500 | merging keeps the failures there are and appends, in order, the first of each new id |
| `ResultEffects.MergeAsksTheNew` | backend/app/workers/worker_result_handler.py:536-546 | the same of questions |
| `ResultEffects.LastOfItsRoleIsFiled` | backend/app/workers/worker_result_handler.py:469-480 | a file role points to the last path written for it |
| `ResultEffects.OtherRolesStay` | backend/app/workers/worker_result_handler.py:469-480 | a role nothing was written for stays |
| `ResultEffects.WrittenPathsAreListed` | backend/app/workers/worker_result_handler.py:469-480 | the task's paths grow by exactly what was written |
| `ResultEffects.ReportIsTheFirst` | backend/app/workers/worker_result_handler.py:663-664 | a settled failure cites the first report with the word in its name |
| `ResultEffects.HandledIff` | backend/app/workers/worker_result_handler.py:76-106 | a result of another job raises; one for an ended task or a completed job is kept without effect, and no other is |
| `ResultEffects.AppliedOnce` | backend/app/workers/worker_result_handler.py:92-97 | no result is applied twice |
| `WorkerResults.ResultLeavesTheRest` | backend/app/workers/worker_result_handler.py:187-295 | no result ends a task or touches its runs or dispatch counters; repair rounds grow by at most one |
| `WorkerResults.MergeKeepsUniqueIds` | backend/app/workers/worker_result_handler.py:483-500 | merging failures keeps ids unique and the existing ones in place |
| `WorkerResults.FreshIdIsFresh` | backend/app/workers/worker_result_handler.py:502-521 | a failure recorded for an unnamed cause collides with none |
| `WorkerResults.RepairSettlesWhatItWasSentFor` | backend/app/workers/worker_result_handler.py:579-632 | a passed repair resolves each selected open blocker and names the job |
| `WorkerResults.WithoutFreshJob` | backend/app/workers/worker_result_handler.py:640-649 | removing a job that is not active changes nothing |
| `WorkerAdapter.McpAdapter.CallWorker` | backend/app/mcp/adapter.py:164-381 | one started event, one progress event per written file, one terminal event; the job is created and completed once with the status of its result; files as written; a checkpoint broken before the worker is invoked leaves the job running; an unknown mode or a known job id raises |
| `WorkerAdapter.McpAdapter.PersistFileWrites` | backend/app/mcp/adapter.py:434-464 | files land in order with one event each until the disk refuses one |
| `WorkerAdapter.McpAdapter.Conclude` | backend/app/mcp/adapter.py:273-381 | every exception gives its own error code, execution status and job status |
| `WorkerAdapter.LastWriteWins` | backend/app/mcp/adapter.py:763-768 | each path ends up holding the last write mapped to it |
| `WorkerAdapter.OtherFilesStay` | backend/app/mcp/adapter.py:434-464 | files no write is mapped to are untouched |
| `WorkerAdapter.AnswerMeans` | backend/app/mcp/adapter.py:205-381 | an answer carries the input's identity, is completed iff a draft was accepted and every file landed, and otherwise lists nothing |
| `WorkerAdapter.ErrorsAreTold` | backend/app/mcp/adapter.py:273-381 | each exception has its error code, and its job ends in the status that goes with it |
| `WorkerAdapter.AcceptedIff` | backend/app/mcp/draft.py:154-188 | which drafts of real and subagent workers are accepted, worker by worker |
| `WorkerAdapter.ProducesIff` | backend/app/mcp/draft.py:171-188 | a file counts as produced iff its content is not all white space |
| `WorkerAdapter.InvocationMeans` | backend/app/mcp/adapter.py:228-240 | what a worker's reply comes to on each route |
| `WorkerAdapter.McpAdapter.RouteMeans` | backend/app/mcp/adapter.py:671-680 | a worker's route: its own, else that of a real or subagent mode, else the built-in mock |
| `WorkerAdapter.JobEndsAsAnswered` | backend/app/mcp/adapter.py:752-761 | a job ends completed iff its answer has no exception, and otherwise timed out or in error |
| `WorkerAdapter.FirstDeclaredPathTakesIt` | backend/app/mcp/adapter.py:763-768 | a write goes to the first declared path of its kind, else into the job's report folder under its last segment |
| `WorkerAdapter.BaseNameIsTheLastSegment` | backend/app/mcp/adapter.py:763-768 | the name kept in the report folder is the last segment of the name given |
| `WorkerAdapter.DigitsDiffer` | backend/app/mcp/adapter.py:768-768 | different jobs have different report folders |
| `WorkerAdapter.ReportsAre` | backend/app/mcp/adapter.py:795-813 | the reports of an answer are what it wrote under the router's folder and what its name marks as evidence |
| `WorkerAdapter.ListsWhatItWroteIff` | backend/app/mcp/adapter.py:205-381 | an answer lists the files it left on disk iff no write was refused after others had landed |
| `WorkerAdapter.ErrorAnswerMayHideWrittenFiles` | backend/app/mcp/adapter.py:535-562 | a file can be on disk although the answer lists no written path |
| `WorkerAdapter.AcceptedDevelopmentBringsCode` | backend/app/mcp/adapter.py:763-836 | a passed development whose draft writes code sets the current code |
| `StreamAssembler.AssistantTurnFromStream` | backend/app/agents/main_agent.py:1832-1878 | the loop over chunks computes the calls in index order, the joined text and the last usage |
| `StreamAssembler.StreamAgreesWithWhole` | backend/app/agents/main_agent.py:1822-1887 | for explicit indices any fragmentation gives the calls of the one-shot parse, up to argument decoding |
| `StreamAssembler.TextJoins` | backend/app/agents/main_agent.py:1832-1848 | the text of a stream is that of its beginning followed by that of its rest |
| `StreamAssembler.OneChunkAgrees` | backend/app/agents/main_agent.py:1822-1848 | a content that comes in one chunk is what the one-shot parse makes of it, and is none iff it is all white space |
| `StreamAssembler.LastUsageWins` | backend/app/agents/main_agent.py:1832-1848 | the usage of a stream is that of its last chunk that has one |
| `StreamAssembler.InterleavingIsIrrelevant` | backend/app/agents/main_agent.py:1849-1866 | two interleavings with the same fragments per call give the same calls |
| `StreamAssembler.PartIsOwnFragments` | backend/app/agents/main_agent.py:1849-1866 | a call's part is the concatenation of its own fragments |
| `StreamAssembler.UnindexedFragmentsAreWholeCalls` | backend/app/agents/main_agent.py:1850-1852 | fragments without an index each become a call of their own |
| `StreamAssembler.UnindexedOpensNewCallIff` | backend/app/agents/main_agent.py:1850-1857 | a fragment without an index opens a new call iff the number of calls so far is not already an index |
| `StreamAssembler.UnindexedAreAloneIff` | backend/app/agents/main_agent.py:1849-1866 | over any mixed stream, every fragment without an index has a call to itself iff no index of the stream, before or after, is the number of calls such a fragment found |
| `StreamAssembler.AloneIsWhole` | backend/app/agents/main_agent.py:1849-1866 | a fragment with a call to itself is that call: its id, name and arguments |
| `StreamAssembler.NeverMergesIff` | backend/app/agents/main_agent.py:1849-1857 | a stream can go on without indices and never have such a fragment merged iff every index so far is below the number of calls so far |
| `StreamAssembler.MixedStreamCanMerge` | backend/app/agents/main_agent.py:1850-1866 | a stream with an index gap whose index-less second call is merged into the first |
| `StreamAssembler.LaterIndexCanMerge` | backend/app/agents/main_agent.py:1850-1866 | an index-less call that a later fragment with index 0 is merged into |
| `JsonSanitizer.SanitizedIsClean` | backend/app/agents/observability.py:572-587 | bounded strings and collections at every depth, and every sensitive key redacted; `IsSensitiveIff` says which keys those are |
| `JsonSanitizer.SecretsAreRedactedAtEveryDepth` | backend/app/agents/observability.py:572-587 | wherever an object stands in a sanitized value, a field with one of the four words anywhere in its lower-cased key holds the redaction mark, unless the key names a token count |
| `JsonSanitizer.IsSensitiveIff` | backend/app/agents/observability.py:720-734 | a key is sensitive iff one of four words stands in it, in any case, and it is none of the nine token counts |
| `JsonSanitizer.SanitizedIsAnExcerpt` | backend/app/agents/observability.py:572-587 | nothing else is lost but what is too long: same shape, first twenty items, each text whole or as a marked beginning |
| `JsonSanitizer.CleanIsFixed` | backend/app/agents/observability.py:572-587 | sanitizing changes a value iff it is not clean |
| `JsonSanitizer.SanitizeIsIdempotent` | backend/app/agents/observability.py:412-422 | sanitizing on recording and again on writing is sanitizing once |
| `JsonSanitizer.BoundedTextFits` | backend/app/agents/observability.py:640-646 | a bounded text is trimmed and fits its limit |
| `TokenRecorder.UsageReadBack` | backend/app/agents/observability.py:253-367 | for any sequence of turns the usage read back from the written log is the recorder's cumulative usage |
| `TokenRecorder.MergeIsAssociative` | backend/app/agents/observability.py:678-708 | merging usages is associative |
| `TokenRecorder.CumulativeTotalIsSum` | backend/app/agents/observability.py:678-708 | the cumulative total is the sum of the turns' effective totals |
| `TokenRecorder.CumulativeCountsAreSums` | backend/app/agents/observability.py:678-708 | the cumulative input and output counts are the sums over the turns that had them |
| `TokenRecorder.UsagePayloadReadsBack` | backend/app/eval/suite.py:842-858 | a stored usage payload normalizes to the usage it was made from |
| `TokenRecorder.ExtractTokenUsage` | backend/app/eval/suite.py:801-840 | the last log entry with a usage decides |
| `StratifiedSampler.SelectStratifiedCases` | backend/app/eval/suite.py:1051-1082 | the round-robin loop terminates and selects exactly the deal of the route buckets |
| `StratifiedSampler.DealLength` | backend/app/eval/suite.py:1051-1082 | the selection has min(sample size, cases on known routes) members |
| `StratifiedSampler.NoPositionTwice` | backend/app/eval/suite.py:1051-1082 | no case is taken twice |
| `StratifiedSampler.RoutePrefix` | backend/app/eval/suite.py:1067-1076 | each route contributes a prefix of its bucket |
| `StratifiedSampler.Balanced` | backend/app/eval/suite.py:1067-1079 | in the deal, if a route has cases left no other has more than one more |
| `StratifiedSampler.SelectionIsBalanced` | backend/app/eval/suite.py:1067-1082 | the same counted on the selected cases |
| `StratifiedSampler.RoutesAreDistinct` | backend/app/eval/question_bank.py:13-20 | the six known routes are distinct |
| `StratifiedSampler.SampledRoutesAreJudged` | backend/app/eval/suite.py:1101-1114 | the routes sampled are exactly those with an expected worker sequence |
| `SequenceMatching.ContainsInOrderIffEmbeds` | backend/app/eval/suite.py:1012-1021 | the greedy match succeeds iff an increasing index map exists |
| `SequenceMatching.ContainsOrderedSubsequence` | backend/app/eval/suite.py:1012-1021 | the cursor loop computes the greedy match |
| `SequenceMatching.ContainsWorkerMultiset` | backend/app/eval/suite.py:1024-1032 | the popping loop decides multiset inclusion, for non-empty expectations |
| `EvalVerdicts.RequiredAndNotOverIsEquality` | backend/app/eval/suite.py:963-1002 | required sequence without over-orchestration is equality with the expected sequence |
| `EvalVerdicts.StrictPassesIff` | backend/app/eval/suite.py:871-898 | the strict profile, route by route: status, exact workers, no runtime error, final report |
| `EvalVerdicts.ReturnedIff` | backend/app/eval/suite.py:1005-1009 | a job came back iff it has a result and ended completed or partial |
| `EvalVerdicts.WorkflowIsStrictAndHealthy` | backend/app/eval/suite.py:871-937 | the workflow profile passes iff the strict one does, the agent reported no error, every job returned, and a route without an expected sequence ran no job |
| `EvalVerdicts.ConnectivityMeansAllReturned` | backend/app/eval/suite.py:963-1009 | the connectivity check says that every job returned |
| `EvalVerdicts.StrictAloneIsNotEnough` | backend/app/eval/suite.py:883-937 | a route outside the table: every job returned, no agent error, strict passes and workflow does not |

## Left out

- Times, titles, summaries, artifact references and other prose in records and events; ids drawn as UUIDs are fresh numbers.
- The provider client, prompts, JSON text decoding and the HTTP layer: a model answer or an exception is an arbitrary value.
- Streamed text as a round trip: every delta is stripped before joining, so the whole text cannot be recovered.
- A streamed turn's tool calls are not fed into the episode loop: the loop's turns are arbitrary values already.
- Lower-casing and `strip` outside ASCII letters and Python's white space; `pathlib` normalisation of `.` segments.
- Sessions, checkpoints, locks and concurrent cancellation: one in-memory store, no other writer during an episode, and
  repository and event writes that do not raise (a dispatch may be struck at any of five points, a tool at any of four).
- User answers and file uploads between episodes; a cancellation is modelled.
- What file, shell and git tools do to the disk: applied, rejected, failed or raising, with the path a write records.
- The six checks inside the quality gate: a run of it is an arbitrary verdict or an exception.
- Tool calls that name another task: a call is always for the episode's own task.
- Runners that persist their own final output (`_persist_orchestration_output`) and the unreachable branch of the loop for a
  blocked stop with content: the stop check always allows (backend/app/agents/main_agent.py:1236-1244).
- Evidence paths added to failures, assumptions, worker summaries and next-action hints on results.
- Usage taken from events when no log entry has it, and token counts stored as text or fractions.
- The input signature of a job without metadata: built inputs always carry one (backend/app/workers/worker_input_builder.py:77-79).
- SelectStratifiedCases: takes the route order as a parameter, because any list of distinct routes will do; the code's own order is covered by RoutesAreDistinct.
- Judge: whether a worker configuration validates is an input, because the configuration schema is not modelled.
- MessagesForModelContext: takes the function that shortens a result as a parameter, because its JSON text is not modelled.
- The service's artifact tools and its own final-report tool, which the registry does not name.
