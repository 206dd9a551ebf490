/**
 * How one dispatch moves the task record (backend/app/agents/tools.py, `_record_active_worker`,
 * `_decrement_active_worker_counter`, `_restore_active_worker`).
 */
module DispatchState {
  import opened Options
  import opened RouterSchema
  import opened WorkerResults
  import opened TaskStore
  import opened TextTools
  import opened Adapter = WorkerAdapter
  import opened RunInvariants

  /**
   * Where an exception strikes a dispatch, besides those its own steps raise. `InsideCall` strikes once
   * the job row is created and announced, before its worker is invoked.
   */
  datatype Fault = NoFault | BeforeCall | InsideCall | BeforeHandle | BeforeDecrement | AfterDecrement

  function WithActive(t: TaskState, input: WorkerInput): TaskState {
    t.(activeJobs := WithoutJob(t.activeJobs, input.jobId) + [JobRef(input.jobId, input.worker)],
       limits := t.limits.(activeParallel := t.limits.activeParallel + 1, callsUsed := t.limits.callsUsed + 1))
  }

  function Released(t: TaskState): TaskState {
    t.(limits := t.limits.(activeParallel := if t.limits.activeParallel == 0 then 0 else t.limits.activeParallel - 1))
  }

  function Restored(current: TaskState, jobId: nat, previous: TaskState): TaskState {
    current.(
      activeJobs := WithoutJob(previous.activeJobs, jobId),
      limits := current.limits.(activeParallel := previous.limits.activeParallel,
        callsUsed := previous.limits.callsUsed))
  }

  ghost predicate JobIdsBelow(t: TaskState, jobs: seq<JobRecord>, bound: nat) {
    && (forall k :: 0 <= k < |t.activeJobs| ==> t.activeJobs[k].id < bound)
    && (forall k :: 0 <= k < |t.completedJobs| ==> t.completedJobs[k] < bound)
    && (forall k :: 0 <= k < |jobs| ==> jobs[k].input.jobId < bound)
  }

  /** A newly drawn job id: above every id in use. */
  function NextJobId(t: TaskState, jobs: seq<JobRecord>): (n: nat)
    ensures JobIdsBelow(t, jobs, n)
  {
    var active := seq(|t.activeJobs|, k requires 0 <= k < |t.activeJobs| => t.activeJobs[k].id);
    var recorded := seq(|jobs|, k requires 0 <= k < |jobs| => jobs[k].input.jobId);
    assert forall k :: 0 <= k < |active| ==> t.activeJobs[k].id == active[k] < FreshAbove(active);
    assert forall k :: 0 <= k < |recorded| ==> jobs[k].input.jobId == recorded[k] < FreshAbove(recorded);
    FreshAbove(active) + FreshAbove(t.completedJobs) + FreshAbove(recorded)
  }

  /** Whether the guard has left room for one more dispatch of this worker. */
  predicate HasRoom(t: TaskState, worker: WorkerType) {
    && !Terminal(t.status)
    && t.limits.activeParallel < t.limits.maxParallel && t.limits.callsUsed < t.limits.maxCalls
    && (worker.PlcRepair? ==> t.limits.repairRounds < t.limits.maxRepairRounds)
  }

  lemma {:induction false} ActiveJobComesAndGoes(t: TaskState, input: WorkerInput, jobs: seq<JobRecord>)
    requires JobIdsBelow(t, jobs, input.jobId)
    ensures WithActive(t, input).activeJobs == t.activeJobs + [JobRef(input.jobId, input.worker)]
    ensures WithoutJob(t.activeJobs, input.jobId) == t.activeJobs
    ensures WithoutJob(WithActive(t, input).activeJobs, input.jobId) == t.activeJobs
  {
    WithoutFreshJob(t.activeJobs, input.jobId);
    var grown := WithActive(t, input).activeJobs;
    assert grown[..|t.activeJobs|] == t.activeJobs;
  }

  /** Undoing a dispatch whose result was never applied leaves no trace in the record. */
  lemma {:induction false} RestoreUndoes(t: TaskState, input: WorkerInput, jobs: seq<JobRecord>)
    requires JobIdsBelow(t, jobs, input.jobId)
    ensures Restored(WithActive(t, input), input.jobId, t) == t
  {
    ActiveJobComesAndGoes(t, input, jobs);
  }

  /** The record once the result has been applied, before the counter is taken down again. */
  function Applying(t: TaskState, input: WorkerInput, r: WorkerResult): TaskState {
    ApplyResult(WithActive(t, input), input, r)
  }

  lemma {:induction false} ApplyingHandles(t: TaskState, input: WorkerInput, r: WorkerResult, jobs: seq<JobRecord>)
    requires Sound(t) && HasRoom(t, input.worker) && JobIdsBelow(t, jobs, input.jobId)
    requires r.jobId == input.jobId && r.worker == input.worker
    ensures Sound(WithActive(t, input))
    ensures HandleResult(WithActive(t, input), input, r)
         == if PassedWithoutCode(t, r) then HandlerRaises else Applied(Applying(t, input, r))
  {
    ResultIsRefusedIff(WithActive(t, input), input, r);
    assert PassedWithoutCode(WithActive(t, input), r) == PassedWithoutCode(t, r);
  }

  /** A record between the two counter updates: the job has left the active list, the counters are still up. */
  ghost predicate Between(t: TaskState, x: TaskState) {
    && x.activeJobs == t.activeJobs
    && x.limits.activeParallel == t.limits.activeParallel + 1 && x.limits.callsUsed == t.limits.callsUsed + 1
    && x.limits.maxParallel == t.limits.maxParallel && x.limits.maxCalls == t.limits.maxCalls
    && x.limits.maxRepairRounds == t.limits.maxRepairRounds
    && t.limits.repairRounds <= x.limits.repairRounds <= t.limits.repairRounds + 1
    && x.runs == t.runs && x.latestRun == t.latestRun
    && t.files.roles.Keys <= x.files.roles.Keys
    && !Terminal(x.status)
  }

  /** After an applied result the record is sound and only waits for its counter to come down. */
  lemma {:induction false} ApplyingIsBetween(t: TaskState, input: WorkerInput, r: WorkerResult, jobs: seq<JobRecord>)
    requires Sound(t) && HasRoom(t, input.worker) && JobIdsBelow(t, jobs, input.jobId)
    requires r.jobId == input.jobId && r.worker == input.worker && !PassedWithoutCode(t, r)
    ensures Between(t, Applying(t, input, r)) && Sound(Applying(t, input, r))
  {
    ApplyingHandles(t, input, r, jobs);
    ResultIsRefusedIff(WithActive(t, input), input, r);
    ResultLeavesTheRest(WithActive(t, input), input, r);
    ActiveJobComesAndGoes(t, input, jobs);
  }

  lemma {:induction false} ApplyingCompletes(t: TaskState, input: WorkerInput, r: WorkerResult)
    ensures Applying(t, input, r).completedJobs == AppendUnique(t.completedJobs, r.jobId)
    ensures Applying(t, input, r).activeJobs == WithoutJob(WithActive(t, input).activeJobs, r.jobId)
  {
  }

  lemma {:induction false} ApplyingKeepsIdsBelow(
    t: TaskState, input: WorkerInput, r: WorkerResult, jobs: seq<JobRecord>)
    requires JobIdsBelow(t, jobs, input.jobId) && r.jobId == input.jobId
    ensures JobIdsBelow(Applying(t, input, r), jobs, input.jobId + 1)
  {
    ActiveJobComesAndGoes(t, input, jobs);
    ApplyingCompletes(t, input, r);
    IdsBelowAfter(t, Applying(t, input, r), jobs, input.jobId);
  }

  lemma {:induction false} IdsBelowAfter(t: TaskState, x: TaskState, jobs: seq<JobRecord>, jobId: nat)
    requires JobIdsBelow(t, jobs, jobId)
    requires x.activeJobs == t.activeJobs && x.completedJobs == AppendUnique(t.completedJobs, jobId)
    ensures JobIdsBelow(x, jobs, jobId + 1)
  {
  }

  /** What a dispatch conserves, wherever it is cut off after its result was applied. */
  lemma {:induction false} DispatchConserves(t: TaskState, x: TaskState, jobId: nat)
    requires Sound(t) && Sound(x) && Between(t, x)
    requires WithoutJob(t.activeJobs, jobId) == t.activeJobs
    ensures var done, undone := Released(x), Restored(x, jobId, t);
            && Sound(done) && Sound(undone)
            && done.activeJobs == t.activeJobs && undone.activeJobs == t.activeJobs
            && done.limits == x.limits.(activeParallel := t.limits.activeParallel, callsUsed := t.limits.callsUsed + 1)
            && undone.limits == x.limits.(activeParallel := t.limits.activeParallel, callsUsed := t.limits.callsUsed)
            && Restored(done, jobId, t) == undone
  {
  }

  /** Whether a dispatch gets as far as applying its worker's result. */
  predicate ResultLands(known: bool, t: TaskState, r: WorkerResult, fault: Fault) {
    known && !fault.BeforeCall? && !fault.InsideCall? && !fault.BeforeHandle? && !PassedWithoutCode(t, r)
  }

  function DispatchStatus(known: bool, t: TaskState, r: WorkerResult, fault: Fault): CallStatus {
    if ResultLands(known, t, r, fault) && fault.NoFault? then CallApplied else CallFailed
  }

  /** The record after a dispatch, for every way it can go. */
  function AfterDispatch(known: bool, t: TaskState, input: WorkerInput, r: WorkerResult, fault: Fault): TaskState {
    if !ResultLands(known, t, r, fault) then t
    else if fault.NoFault? then Released(Applying(t, input, r))
    else Restored(Applying(t, input, r), input.jobId, t)
  }

  /** Everything a dispatch may write is permitted. */
  ghost predicate PermittedThroughout(t: TaskState, x: TaskState, input: WorkerInput, landed: bool) {
    && Permitted(t, WithActive(t, input)) && Permitted(t, t)
    && (landed ==> Permitted(t, x) && Permitted(t, Released(x)) && Permitted(t, Restored(x, input.jobId, t)))
  }

  /** Restoring gives the same record however far the dispatch got with its counter. */
  ghost predicate RestoresCleanly(t: TaskState, x: TaskState, input: WorkerInput, landed: bool) {
    && Restored(WithActive(t, input), input.jobId, t) == t
    && (landed ==> Restored(Released(x), input.jobId, t) == Restored(x, input.jobId, t))
  }

  /** Everything one dispatch needs to know about the record it leaves. */
  lemma {:induction false} DispatchFacts(
    t: TaskState, input: WorkerInput, r: WorkerResult, jobs: seq<JobRecord>, known: bool, fault: Fault)
    returns (x: TaskState)
    requires Sound(t) && HasRoom(t, input.worker) && JobIdsBelow(t, jobs, input.jobId)
    requires r.jobId == input.jobId && r.worker == input.worker
    ensures HandleResult(WithActive(t, input), input, r) == if PassedWithoutCode(t, r) then HandlerRaises
            else Applied(x)
    ensures var landed := ResultLands(known, t, r, fault);
            && AfterDispatch(known, t, input, r, fault)
               == (if !landed then t else if fault.NoFault? then Released(x) else Restored(x, input.jobId, t))
            && PermittedThroughout(t, x, input, landed)
            && RestoresCleanly(t, x, input, landed)
            && (landed ==> Between(t, x))
    ensures WithoutJob(t.activeJobs, input.jobId) == t.activeJobs
  {
    x := Applying(t, input, r);
    ApplyingHandles(t, input, r, jobs);
    RestoreUndoes(t, input, jobs);
    ActiveJobComesAndGoes(t, input, jobs);
    if ResultLands(known, t, r, fault) {
      ApplyingIsBetween(t, input, r, jobs);
      DispatchConserves(t, x, input.jobId);
    }
  }

  /**
   * What a dispatch conserves, for every worker behaviour and every point an exception may strike: the
   * active list and the parallel counter are as before, the call counter went up exactly when the
   * dispatch returned normally, and the record is as it was exactly when no result was applied.
   */
  lemma {:induction false} DispatchMeans(
    t: TaskState, input: WorkerInput, r: WorkerResult, jobs: seq<JobRecord>, known: bool, fault: Fault)
    requires Sound(t) && HasRoom(t, input.worker) && JobIdsBelow(t, jobs, input.jobId)
    requires r.jobId == input.jobId && r.worker == input.worker
    ensures var after := AfterDispatch(known, t, input, r, fault);
            && Sound(after)
            && after.activeJobs == t.activeJobs && after.limits.activeParallel == t.limits.activeParallel
            && after.limits.callsUsed == t.limits.callsUsed
               + (if DispatchStatus(known, t, r, fault) == CallApplied then 1 else 0)
            && after.runs == t.runs
            && (after == t <==> !ResultLands(known, t, r, fault))
            && JobIdsBelow(after, jobs, input.jobId + 1)
  {
    ghost var x := DispatchFacts(t, input, r, jobs, known, fault);
    if ResultLands(known, t, r, fault) {
      DispatchConserves(t, x, input.jobId);
      AppliedIdsBelow(t, x, input, r, jobs);
      AppliedLeavesATrace(t, x, input, r, jobs);
    }
  }

  lemma {:induction false} AppliedLeavesATrace(
    t: TaskState, x: TaskState, input: WorkerInput, r: WorkerResult, jobs: seq<JobRecord>)
    requires JobIdsBelow(t, jobs, input.jobId) && r.jobId == input.jobId
    requires HandleResult(WithActive(t, input), input, r) == Applied(x)
    ensures Released(x) != t && Restored(x, input.jobId, t) != t
  {
    ApplyingCompletes(t, input, r);
    assert input.jobId in x.completedJobs;
    forall k | 0 <= k < |t.completedJobs| ensures t.completedJobs[k] != input.jobId {}
  }

  lemma {:induction false} PassedTestStays(t: TaskState, input: WorkerInput, r: WorkerResult)
    requires r.worker.PlcTest? && r.execution.ExecCompleted? && r.outcome == Passed
    ensures DispatchStatus(true, t, r, AfterDecrement) == CallFailed
    ensures AfterDispatch(true, t, input, r, AfterDecrement).gates.latestTestPassed == Some(true)
  {
  }

  const REPORT_WRITE := WriteIntent(TestReportFile, "test_report.json", "{}", Lands)

  /** What a test worker replies that passes and writes its report. */
  const PASSED_TEST := Replies(Draft(Passed, false, [REPORT_WRITE], [], None), true)

  lemma {:induction false} PassedTestIsAnswered(route: string, input: WorkerInput)
    requires (route == "mock" || route == "real" || route == "subagent") && input.worker.PlcTest?
    ensures var r := Answer(route, input, PASSED_TEST);
            r.execution.ExecCompleted? && r.outcome == Passed
            && r.writtenPaths == [FilePathForWrite(input, REPORT_WRITE)]
  {
    var draft := PASSED_TEST.draft;
    assert Strip("{}") == "{}" && Produces(draft, TestReportFile) by { assert draft.writes[0] == REPORT_WRITE; }
    assert draft.writes[1..] == [] && Landed([]) == 0;
    assert Landed(draft.writes) == 1;
    assert PathsFor(input, draft.writes) == [FilePathForWrite(input, REPORT_WRITE)];
  }

  /**
   * A dispatch can fail and still leave its result behind: a test worker passes and writes its report, the
   * exception strikes after the counter came down, and the failed dispatch has the test gate passed.
   */
  lemma {:induction false} FailedDispatchCanKeepItsResult(
    t: TaskState, route: string, input: WorkerInput, jobs: seq<JobRecord>)
    requires Sound(t) && HasRoom(t, PlcTest) && JobIdsBelow(t, jobs, input.jobId) && t.gates.latestTestPassed == None
    requires (route == "mock" || route == "real" || route == "subagent") && input.worker.PlcTest?
    ensures var r := Answer(route, input, PASSED_TEST);
            && DispatchStatus(true, t, r, AfterDecrement) == CallFailed
            && AfterDispatch(true, t, input, r, AfterDecrement).gates.latestTestPassed == Some(true)
            && AfterDispatch(true, t, input, r, AfterDecrement) != t
  {
    PassedTestIsAnswered(route, input);
    PassedTestStays(t, input, Answer(route, input, PASSED_TEST));
  }

  /** There is such a task: newly classified, with nothing dispatched yet. */
  lemma {:induction false} SuchATaskExists()
    ensures exists t: TaskState ::
              Sound(t) && HasRoom(t, PlcTest) && JobIdsBelow(t, [], 7) && t.gates.latestTestPassed == None
  {
    var t := TaskState(Running, Planning, TestCode, false, false, false, true,
      RuntimeLimits(3, 0, 1, 0, 10, 0), GateState(true, false, false, false, None, None, false, false),
      CurrentFiles(map[], []), [], [], [], [], [], None);
    assert Sound(t) && HasRoom(t, PlcTest) && JobIdsBelow(t, [], 7);
  }

  lemma {:induction false} AppliedIdsBelow(
    t: TaskState, x: TaskState, input: WorkerInput, r: WorkerResult, jobs: seq<JobRecord>)
    requires JobIdsBelow(t, jobs, input.jobId) && r.jobId == input.jobId
    requires HandleResult(WithActive(t, input), input, r) == Applied(x)
    ensures JobIdsBelow(Released(x), jobs, input.jobId + 1)
    ensures JobIdsBelow(Restored(x, input.jobId, t), jobs, input.jobId + 1)
  {
    ApplyingKeepsIdsBelow(t, input, r, jobs);
    ActiveJobComesAndGoes(t, input, jobs);
  }
}
