/** Projecting a finished worker job back into the task (backend/app/workers/worker_result_handler.py). */
module WorkerResults {
  import opened Options
  import opened RouterSchema
  import opened TextTools

  datatype OutcomeStatus = Passed | FailedOutcome | NeedClarification | NotApplicable | UnknownOutcome

  datatype Clarification = Clarification(blocking: bool, questions: seq<Question>)

  /** The part of a dispatch that results are judged against later. */
  datatype Signature = Signature(worker: WorkerType, paths: multiset<string>, configHash: string)

  datatype WorkerInput = WorkerInput(
    jobId: nat, worker: WorkerType, inputPaths: seq<string>, outputPaths: seq<string>,
    selectedFailures: seq<string>, repairTargets: seq<string>, signature: Signature)

  datatype WorkerResult = WorkerResult(
    jobId: nat, worker: WorkerType, execution: ExecutionStatus,
    outcome: OutcomeStatus, outcomeBlocking: bool,
    writtenPaths: seq<string>, reportPaths: seq<string>,
    failures: seq<Failure>, clarification: Option<Clarification>, errorCode: Option<string>)

  function RoleForPath(path: string): Option<FileRole> {
    var lower := Lower(path);
    if EndsWith(lower, ".st") || EndsWith(lower, ".scl") || EndsWith(lower, ".fbd")
       || (EndsWith(lower, ".xml") && !Contains(lower, "io_contract")) then Some(CurrentCode)
    else if Contains(lower, "requirements") then Some(Requirements)
    else if Contains(lower, "io_contract") then Some(IoContract)
    else if Contains(lower, "test_cases") then Some(TestCases)
    else if Contains(lower, "test_report") then Some(TestReport)
    else if Contains(lower, "failing_trace") then Some(FailingTrace)
    else if Contains(lower, "formal_properties") then Some(FormalProperties)
    else if Contains(lower, "formal_report") then Some(FormalReport)
    else if Contains(lower, "counterexample") then Some(Counterexample)
    else if EndsWith(lower, ".diff") || EndsWith(lower, ".patch") || Contains(lower, "patch") then Some(Patch)
    else if Contains(lower, "repair_summary") then Some(RepairSummary)
    else if Contains(lower, "gate_report") then Some(GateReport)
    else if Contains(lower, "final_report") then Some(FinalReport)
    else None
  }

  function ProjectFiles(files: CurrentFiles, written: seq<string>): (r: CurrentFiles)
    ensures files.roles.Keys <= r.roles.Keys
  {
    if written == [] then files
    else
      var before := ProjectFiles(files, written[..|written| - 1]);
      var path := written[|written| - 1];
      var role := RoleForPath(path);
      CurrentFiles(
        if role.Some? then before.roles[role.value := path] else before.roles,
        AppendUnique(before.allPaths, path))
  }

  function MergeFailures(existing: seq<Failure>, incoming: seq<Failure>, job: nat): seq<Failure> {
    if incoming == [] then existing
    else
      var merged := MergeFailures(existing, incoming[..|incoming| - 1], job);
      var f := incoming[|incoming| - 1];
      if exists k | 0 <= k < |merged| :: merged[k].id == f.id then merged
      else merged + [if f.createdBy == None then f.(createdBy := Some(job)) else f]
  }

  function MergeQuestions(existing: seq<Question>, incoming: seq<Question>): seq<Question> {
    if incoming == [] then existing
    else
      var merged := MergeQuestions(existing, incoming[..|incoming| - 1]);
      var q := incoming[|incoming| - 1];
      if exists k | 0 <= k < |merged| :: merged[k].id == q.id then merged else merged + [q]
  }

  function Stretch(failures: seq<Failure>): string {
    if failures == [] then "failure"
    else Stretch(failures[..|failures| - 1]) + failures[|failures| - 1].id
  }

  /** A newly drawn failure id: one that no failure in the list has. */
  function FreshFailureId(failures: seq<Failure>): string { Stretch(failures) + "+" }

  function ReportPathWith(paths: seq<string>, token: string): Option<string> {
    if paths == [] then None
    else if Contains(Lower(paths[0]), token) then Some(paths[0])
    else ReportPathWith(paths[1..], token)
  }

  /** The failure recorded when a worker fails without naming one. */
  function UnnamedFailure(failures: seq<Failure>, r: WorkerResult, source: FailureSource): Failure {
    Failure(FreshFailureId(failures), source, Blocking, Open, Some(r.jobId), None, None)
  }

  function Settled(f: Failure, job: nat, path: Option<string>): Failure {
    f.(status := Resolved, resolvedByJob := Some(job), resolvedByPath := path)
  }

  function ResolveBySource(
    failures: seq<Failure>, source: FailureSource, job: nat, path: Option<string>): (r: seq<Failure>)
    ensures |r| == |failures|
  {
    seq(|failures|, k requires 0 <= k < |failures| =>
      if OpenBlocking(failures[k]) && failures[k].source == source then Settled(failures[k], job, path)
        else failures[k])
  }

  function TargetAliases(source: FailureSource): set<string> {
    match source
    case Compile => {"compile", "compile_failure"}
    case Test => {"test", "test_failure"}
    case Formal => {"formal", "formal_validation_failure"}
    case Requirement => {"requirement"}
    case Repair => {"repair"}
    case Runtime => {"runtime"}
    case UnknownSource => {"unknown"}
  }

  predicate RepairSettles(f: Failure, input: WorkerInput) {
    OpenBlocking(f)
    && (if input.selectedFailures != [] then f.id in input.selectedFailures
        else input.repairTargets == []
             || exists k | 0 <= k < |input.repairTargets| :: input.repairTargets[k] in TargetAliases(f.source))
  }

  function ResolveRepaired(
    failures: seq<Failure>, input: WorkerInput, job: nat, path: Option<string>): (r: seq<Failure>)
    ensures |r| == |failures|
  {
    seq(|failures|, k requires 0 <= k < |failures| =>
      if RepairSettles(failures[k], input) then Settled(failures[k], job, path) else failures[k])
  }

  predicate ChangesCode(path: string) {
    var lower := Lower(path);
    EndsWith(lower, ".st") || EndsWith(lower, ".scl") || EndsWith(lower, ".fbd")
    || EndsWith(lower, ".diff") || EndsWith(lower, ".patch")
  }

  /** The parts of the task a worker outcome can move. */
  datatype Projection = Projection(
    status: TaskStatus, phase: TaskPhase, gates: GateState, limits: RuntimeLimits,
    failures: seq<Failure>, questions: seq<Question>)

  predicate WantsTest(t: TaskState) {
    t.gates.testRequired || t.requiresTest || TestReport in t.files.roles
  }

  predicate WantsFormal(t: TaskState) { t.gates.formalRequired || t.requiresFormal }

  function AfterDev(t: TaskState, p: Projection, r: WorkerResult): Projection {
    if r.outcome != Passed then p
    else p.(
      phase := if WantsTest(t) then Testing else if WantsFormal(t) then FormalVerifying else t.phase,
      gates := p.gates.(latestTestPassed := None, latestFormalPassed := None,
                        regressionRequired := false, formalRegressionRequired := false))
  }

  function AfterTest(p: Projection, r: WorkerResult): Projection {
    if r.outcome == Passed then p.(
      failures := ResolveBySource(p.failures, Test, r.jobId, ReportPathWith(r.reportPaths, "test_report")),
      gates := p.gates.(testRequired := true, latestTestPassed := Some(true), regressionRequired := false))
    else if r.outcome == FailedOutcome then p.(
      failures := if r.failures == [] then p.failures + [UnnamedFailure(p.failures, r, Test)] else p.failures,
      gates := p.gates.(testRequired := true, latestTestPassed := Some(false)))
    else p
  }

  function AfterFormal(p: Projection, r: WorkerResult): Projection {
    if r.outcome == Passed then p.(
      failures := ResolveBySource(p.failures, Formal, r.jobId, ReportPathWith(r.reportPaths, "formal_report")),
      gates := p.gates.(formalRequired := true, latestFormalPassed := Some(true), formalRegressionRequired := false))
    else if r.outcome == FailedOutcome then p.(
      failures := if r.failures == [] then p.failures + [UnnamedFailure(p.failures, r, Formal)] else p.failures,
      gates := p.gates.(formalRequired := true, latestFormalPassed := Some(false)))
    else p
  }

  function AfterRepair(t: TaskState, p: Projection, input: WorkerInput, r: WorkerResult): Projection {
    if r.outcome != Passed then p
    else
      var hadFormal := exists k | 0 <= k < |t.failures| ::
        OpenBlocking(t.failures[k]) && t.failures[k].source == Formal;
      var regress := exists k | 0 <= k < |r.writtenPaths| :: ChangesCode(r.writtenPaths[k]);
      p.(
        failures := ResolveRepaired(p.failures, input, r.jobId, ReportPathWith(r.reportPaths, "repair_summary")),
        limits := p.limits.(repairRounds := p.limits.repairRounds + 1),
        gates := if regress then p.gates.(
                   regressionRequired := true, latestTestPassed := None, latestFormalPassed := None,
                   formalRegressionRequired := hadFormal || p.gates.formalRegressionRequired)
                 else p.gates.(regressionRequired := false, formalRegressionRequired := false),
        phase := if regress then Regression else QualityGate)
  }

  function Project(t: TaskState, input: WorkerInput, r: WorkerResult): Projection {
    var p := Projection(t.status, t.phase, t.gates, t.limits, MergeFailures(t.failures, r.failures, r.jobId),
      t.questions);
    if !r.execution.ExecCompleted? then p
    else if r.outcome == NeedClarification then
      var asked := p.(questions := match r.clarification
                                   case Some(c) => MergeQuestions(p.questions, c.questions)
                                   case None => p.questions);
      if (r.clarification.Some? && r.clarification.value.blocking) || r.outcomeBlocking
      then asked.(status := WaitingUser, phase := Clarifying) else asked
    else match r.worker
      case PlcDev => AfterDev(t, p, r)
      case PlcTest => AfterTest(p, r)
      case PlcFormal => AfterFormal(p, r)
      case PlcRepair => AfterRepair(t, p, input, r)
  }

  function WithoutJob(jobs: seq<JobRef>, id: nat): seq<JobRef> {
    if jobs == [] then []
    else WithoutJob(jobs[..|jobs| - 1], id) + (if jobs[|jobs| - 1].id == id then [] else [jobs[|jobs| - 1]])
  }

  /** The task with a projection installed and the job moved from active to completed. */
  function Install(t: TaskState, p: Projection, files: CurrentFiles, job: nat): TaskState {
    var blocked := HasOpenBlocking(p.failures);
    t.(
      status := p.status,
      phase := if p.phase.Repairing? && !blocked then QualityGate else p.phase,
      limits := p.limits,
      gates := p.gates.(hasBlockingFailure := blocked, canFinishAsSuccess := false),
      files := files,
      activeJobs := WithoutJob(t.activeJobs, job),
      completedJobs := AppendUnique(t.completedJobs, job),
      questions := p.questions,
      failures := p.failures)
  }

  /** The task after a result, before validation. */
  function ApplyResult(t: TaskState, input: WorkerInput, r: WorkerResult): TaskState {
    Install(t, Project(t, input, r),
      if r.execution.ExecCompleted? then ProjectFiles(t.files, r.writtenPaths) else t.files, r.jobId)
  }

  datatype Handled = Applied(task: TaskState) | NotApplied | HandlerRaises

  /** Results that do not belong to the job, or that the validators refuse, raise. */
  function HandleResult(t: TaskState, input: WorkerInput, r: WorkerResult): Handled {
    if r.jobId != input.jobId || r.worker != input.worker then HandlerRaises
    else if Terminal(t.status) || r.jobId in t.completedJobs then NotApplied
    else if Validates(ApplyResult(t, input, r)) then Applied(ApplyResult(t, input, r))
    else HandlerRaises
  }

  // ---- properties ----

  lemma {:induction false} StretchIsLonger(failures: seq<Failure>, k: nat)
    requires k < |failures|
    ensures |failures[k].id| <= |Stretch(failures)|
  {
    if k < |failures| - 1 { StretchIsLonger(failures[..|failures| - 1], k); }
  }

  lemma {:induction false} FreshIdIsFresh(failures: seq<Failure>)
    ensures forall k :: 0 <= k < |failures| ==> failures[k].id != FreshFailureId(failures)
  {
    forall k | 0 <= k < |failures| ensures failures[k].id != FreshFailureId(failures) { StretchIsLonger(failures, k); }
  }

  lemma {:induction false} MergeKeepsUniqueIds(existing: seq<Failure>, incoming: seq<Failure>, job: nat)
    requires UniqueIds(existing)
    ensures UniqueIds(MergeFailures(existing, incoming, job))
    ensures existing <= MergeFailures(existing, incoming, job)
  {
    if incoming != [] { MergeKeepsUniqueIds(existing, incoming[..|incoming| - 1], job); }
  }

  lemma {:induction false} ResolvingKeepsIds(
    failures: seq<Failure>, source: FailureSource, input: WorkerInput, job: nat, path: Option<string>)
    requires UniqueIds(failures)
    ensures UniqueIds(ResolveBySource(failures, source, job, path))
    ensures UniqueIds(ResolveRepaired(failures, input, job, path))
  {
  }

  lemma {:induction false} TestingKeepsUniqueIds(p: Projection, input: WorkerInput, r: WorkerResult)
    requires UniqueIds(p.failures)
    ensures UniqueIds(AfterTest(p, r).failures) && UniqueIds(AfterFormal(p, r).failures)
  {
    FreshIdIsFresh(p.failures);
    ResolvingKeepsIds(p.failures, Test, input, r.jobId, ReportPathWith(r.reportPaths, "test_report"));
    ResolvingKeepsIds(p.failures, Formal, input, r.jobId, ReportPathWith(r.reportPaths, "formal_report"));
  }

  lemma {:induction false} ProjectKeepsUniqueIds(t: TaskState, input: WorkerInput, r: WorkerResult)
    requires UniqueIds(t.failures)
    ensures UniqueIds(Project(t, input, r).failures)
  {
    var p := Projection(t.status, t.phase, t.gates, t.limits, MergeFailures(t.failures, r.failures, r.jobId),
      t.questions);
    MergeKeepsUniqueIds(t.failures, r.failures, r.jobId);
    TestingKeepsUniqueIds(p, input, r);
    ResolvingKeepsIds(p.failures, Test, input, r.jobId, ReportPathWith(r.reportPaths, "repair_summary"));
  }

  /** Where a projection may have moved a task: to waiting, to a later phase, one repair round up. */
  ghost predicate MovedFrom(t: TaskState, p: Projection, devPassed: bool, repaired: bool) {
    && (p.status == t.status || p.status == WaitingUser)
    && p.limits == t.limits.(repairRounds := p.limits.repairRounds)
    && t.limits.repairRounds <= p.limits.repairRounds <= t.limits.repairRounds + (if repaired then 1 else 0)
    && (p.phase.Repairing? ==> t.phase.Repairing?)
    && (p.phase.Testing? || p.phase.FormalVerifying? ==>
         p.phase == t.phase || (devPassed && (WantsTest(t) || WantsFormal(t))))
    && (devPassed && (WantsTest(t) || WantsFormal(t)) ==> p.phase.Testing? || p.phase.FormalVerifying?)
  }

  lemma {:induction false} ProjectMoves(t: TaskState, input: WorkerInput, r: WorkerResult)
    ensures MovedFrom(t, Project(t, input, r),
              r.worker.PlcDev? && r.execution.ExecCompleted? && r.outcome == Passed, r.worker.PlcRepair?)
  {
  }

  /** A passed development that wants a test or a proof, but left the task without any code. */
  predicate PassedWithoutCode(t: TaskState, r: WorkerResult) {
    && r.worker.PlcDev? && r.execution.ExecCompleted? && r.outcome == Passed
    && (WantsTest(t) || WantsFormal(t))
    && CurrentCode !in ProjectFiles(t.files, r.writtenPaths).roles
  }

  lemma {:induction false} InstallValidatesIff(
    t: TaskState, p: Projection, files: CurrentFiles, job: nat, devPassed: bool, repaired: bool)
    requires Sound(t) && !Terminal(t.status) && MovedFrom(t, p, devPassed, repaired) && UniqueIds(p.failures)
    requires repaired ==> t.limits.repairRounds < t.limits.maxRepairRounds
    requires t.files.roles.Keys <= files.roles.Keys
    ensures Linked(Install(t, p, files, job))
    ensures Validates(Install(t, p, files, job))
       <==> !(devPassed && (WantsTest(t) || WantsFormal(t)) && CurrentCode !in files.roles)
  {
  }

  /**
   * For a sound, running task and an admitted dispatch, the validators refuse a result exactly when
   * development passed without producing code; every other result leaves the task sound.
   */
  lemma {:induction false} ResultIsRefusedIff(t: TaskState, input: WorkerInput, r: WorkerResult)
    requires Sound(t) && !Terminal(t.status)
    requires r.worker.PlcRepair? ==> t.limits.repairRounds < t.limits.maxRepairRounds
    ensures Validates(ApplyResult(t, input, r)) <==> !PassedWithoutCode(t, r)
    ensures Validates(ApplyResult(t, input, r)) ==> Sound(ApplyResult(t, input, r))
  {
    ProjectKeepsUniqueIds(t, input, r);
    ProjectMoves(t, input, r);
    InstallValidatesIff(
      t, Project(t, input, r), if r.execution.ExecCompleted? then ProjectFiles(t.files, r.writtenPaths)
        else t.files, r.jobId,
      r.worker.PlcDev? && r.execution.ExecCompleted? && r.outcome == Passed, r.worker.PlcRepair?);
  }

  /** No result ends a task, touches its runs, or moves the dispatch counters. */
  lemma {:induction false} ResultLeavesTheRest(t: TaskState, input: WorkerInput, r: WorkerResult)
    requires !Terminal(t.status)
    ensures var after := ApplyResult(t, input, r);
            && !Terminal(after.status)
            && after.runs == t.runs && after.latestRun == t.latestRun
            && after.limits.activeParallel == t.limits.activeParallel && after.limits.callsUsed == t.limits.callsUsed
            && after.limits.maxParallel == t.limits.maxParallel && after.limits.maxCalls == t.limits.maxCalls
            && after.limits.maxRepairRounds == t.limits.maxRepairRounds
            && t.limits.repairRounds <= after.limits.repairRounds <= t.limits.repairRounds + 1
            && t.files.roles.Keys <= after.files.roles.Keys
  {
    ProjectMoves(t, input, r);
  }

  lemma {:induction false} WithoutFreshJob(jobs: seq<JobRef>, id: nat)
    requires forall k :: 0 <= k < |jobs| ==> jobs[k].id != id
    ensures WithoutJob(jobs, id) == jobs
  {
    if jobs != [] { WithoutFreshJob(jobs[..|jobs| - 1], id); }
  }

  /**
   * A passed repair that was dispatched with every open failure selected settles every blocker the
   * task had; what remains blocking came with the result itself.
   */
  lemma {:induction false} RepairSettlesWhatItWasSentFor(t: TaskState, input: WorkerInput, r: WorkerResult, k: nat)
    requires UniqueIds(t.failures) && k < |t.failures| && OpenBlocking(t.failures[k])
    requires r.worker.PlcRepair? && r.execution.ExecCompleted? && r.outcome == Passed
    requires forall j :: 0 <= j < |t.failures| && t.failures[j].status == Open ==>
               t.failures[j].id in input.selectedFailures
    ensures var after := ApplyResult(t, input, r);
            && k < |after.failures| && after.failures[k].id == t.failures[k].id
            && after.failures[k].status == Resolved && after.failures[k].resolvedByJob == Some(r.jobId)
  {
    MergeKeepsUniqueIds(t.failures, r.failures, r.jobId);
    assert t.failures[k].id in input.selectedFailures;
    assert MergeFailures(t.failures, r.failures, r.jobId)[k] == t.failures[k];
  }
}
