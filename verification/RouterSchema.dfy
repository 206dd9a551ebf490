/**
 * The persisted task record and its validators (backend/app/models/router_schema.py), the public event
 * types, and the tool names of the Main Agent. Timestamps, prose fields and artifact references are
 * left out; ids are numbers where the source draws fresh ones.
 */
module RouterSchema {
  import opened Options

  datatype TaskStatus = Created | Running | WaitingUser | Succeeded | PartialFailed | Failed | Cancelled

  datatype TaskPhase =
    | Intake | Clarifying | Planning | Developing | Testing | FormalVerifying
    | Repairing | Regression | QualityGate | Synthesizing | Completed

  datatype TaskType =
    | Qa | NewDevelopment | ModifyCode | TestCode | FormalVerifyCode | RepairCode | ProjectDevelopment | UnknownType

  datatype WorkerType = PlcDev | PlcTest | PlcFormal | PlcRepair

  datatype Severity = Debug | Info | Warning | Error | Blocking
  datatype FailureSource = Compile | Test | Formal | Requirement | Repair | Runtime | UnknownSource
  datatype FailureStatus = Open | Resolved | Waived

  datatype Failure = Failure(
    id: string, source: FailureSource, severity: Severity, status: FailureStatus,
    createdBy: Option<nat>, resolvedByJob: Option<nat>, resolvedByPath: Option<string>)

  datatype RuntimeLimits = RuntimeLimits(
    maxRepairRounds: nat, repairRounds: nat,
    maxParallel: nat, activeParallel: nat,
    maxCalls: nat, callsUsed: nat)

  datatype GateState = GateState(
    testRequired: bool, formalRequired: bool, regressionRequired: bool, formalRegressionRequired: bool,
    latestTestPassed: Option<bool>, latestFormalPassed: Option<bool>,
    hasBlockingFailure: bool, canFinishAsSuccess: bool)

  datatype FileRole =
    | RawUserRequest | Requirements | CurrentCode | IoContract | TestCases | TestReport | FailingTrace
    | FormalProperties | FormalReport | Counterexample | Patch | RepairSummary | GateReport | FinalReport
    | MainAgentLog

  /** The named file pointers that are set, and every path the task has seen. */
  datatype CurrentFiles = CurrentFiles(roles: map<FileRole, string>, allPaths: seq<string>)

  datatype Question = Question(id: string, required: bool, open: bool)
  datatype JobRef = JobRef(id: nat, worker: WorkerType)

  datatype ToolName =
    | ListFiles | ReadFile | Glob | Grep | WriteFile | ApplyPatch | ExecCommand | GitStatus
    | RequestClarification | PlcDevTool | PlcTestTool | PlcFormalTool | PlcRepairTool
    | RunQualityGate | RecordValidationReport
    | UpdatePlan | RunParallelWorkers
    | UnknownTool(name: string)

  datatype CallStatus = CallRunning | CallApplied | CallRejected | CallFailed | CallNoOp
  datatype CallRecord = CallRecord(tool: ToolName, status: CallStatus)

  /** One agent run; `Running` is its only open status. */
  datatype AgentRun = AgentRun(id: nat, status: TaskStatus, calls: seq<CallRecord>)

  datatype TaskState = TaskState(
    status: TaskStatus, phase: TaskPhase, taskType: TaskType,
    requiresTest: bool, requiresFormal: bool, needClarification: bool, hasWorkspace: bool,
    limits: RuntimeLimits, gates: GateState, files: CurrentFiles,
    activeJobs: seq<JobRef>, completedJobs: seq<nat>,
    questions: seq<Question>, failures: seq<Failure>,
    runs: seq<AgentRun>, latestRun: Option<nat>)

  predicate Terminal(status: TaskStatus) {
    status.Succeeded? || status.PartialFailed? || status.Failed? || status.Cancelled?
  }

  predicate OpenBlocking(f: Failure) { f.status == Open && f.severity == Blocking }

  predicate HasOpenBlocking(failures: seq<Failure>) {
    exists k | 0 <= k < |failures| :: OpenBlocking(failures[k])
  }

  predicate LimitsHold(l: RuntimeLimits) {
    && l.maxRepairRounds <= 3 && 1 <= l.maxParallel <= 4
    && l.repairRounds <= l.maxRepairRounds
    && l.activeParallel <= l.maxParallel
    && l.callsUsed <= l.maxCalls
  }

  predicate RulesHold(t: TaskState) {
    && !(t.gates.hasBlockingFailure && t.status == Succeeded)
    && (t.phase.Testing? || t.phase.FormalVerifying? ==> CurrentCode in t.files.roles)
    && (t.phase.Repairing? ==> CurrentCode in t.files.roles && HasOpenBlocking(t.failures))
  }

  /** What loading a stored task accepts. */
  predicate Validates(t: TaskState) { LimitsHold(t.limits) && RulesHold(t) }

  /** What the validators ask of a record, in full. */
  lemma {:induction false} ValidatesIff(t: TaskState)
    ensures Validates(t) <==>
            && t.limits.maxRepairRounds <= 3 && t.limits.repairRounds <= t.limits.maxRepairRounds
            && 1 <= t.limits.maxParallel <= 4 && t.limits.activeParallel <= t.limits.maxParallel
            && t.limits.callsUsed <= t.limits.maxCalls
            && (t.status == Succeeded ==> !t.gates.hasBlockingFailure)
            && (t.phase == Testing || t.phase == FormalVerifying || t.phase == Repairing ==>
                  CurrentCode in t.files.roles)
            && (t.phase == Repairing ==>
                  exists k :: 0 <= k < |t.failures| && t.failures[k].status == Open
                         && t.failures[k].severity == Blocking)
  {
    if k :| 0 <= k < |t.failures| && t.failures[k].status == Open && t.failures[k].severity == Blocking {
      assert OpenBlocking(t.failures[k]);
    }
  }

  /** The cached gate flag says what the failure list says. */
  predicate Linked(t: TaskState) { t.gates.hasBlockingFailure <==> HasOpenBlocking(t.failures) }

  ghost predicate UniqueIds(failures: seq<Failure>) {
    forall i, j :: 0 <= i < j < |failures| ==> failures[i].id != failures[j].id
  }

  ghost predicate Sound(t: TaskState) { Validates(t) && Linked(t) && UniqueIds(t.failures) }

  /** The one thing the end user relies on. */
  predicate NoFalseSuccess(t: TaskState) { t.status == Succeeded ==> !HasOpenBlocking(t.failures) }

  datatype ExecutionStatus = ExecCompleted | ExecPartial | ExecError | ExecTimeout | ExecCancelled

  datatype Event =
    | AgentStarted(run: nat)
    | AgentDecision
    | TurnStarted(turn: nat)
    | AgentMessage
    | FinalResponse(status: TaskStatus)
    | StopBlocked(count: nat)
    | ToolCalled(tool: ToolName)
    | ToolResulted(tool: ToolName, outcome: CallStatus)
    | AgentCompleted(status: TaskStatus)
    | PlanUpdated
    | ClarificationRequested
    | TaskWaitingUser
    | TaskUpdated
    | TaskEnded(status: TaskStatus)
    | WorkerStarted(job: nat)
    | WorkerProgress(job: nat, path: string)
    | WorkerEnded(job: nat, execution: ExecutionStatus)
    | GateStarted
    | GateEnded(passed: bool)

  /** A number above every id in use, as a newly drawn id is. */
  function FreshAbove(ids: seq<nat>): (n: nat)
    ensures forall k :: 0 <= k < |ids| ==> ids[k] < n
  {
    if ids == [] then 0
    else
      var n := FreshAbove(ids[..|ids| - 1]);
      if ids[|ids| - 1] < n then n else ids[|ids| - 1] + 1
  }

  function AppendUnique<T(==)>(values: seq<T>, value: T): (r: seq<T>)
    ensures value in r && values <= r
  {
    if value in values then values else values + [value]
  }
}
