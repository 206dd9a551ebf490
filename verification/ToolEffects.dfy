/** How the tools other than worker dispatch move the task record (backend/app/agents/tools.py). */
module ToolEffects {
  import opened Options
  import opened TextTools
  import opened RouterSchema
  import opened WorkerResults
  import opened TaskStore
  import opened CallRecords
  import opened RunInvariants

  /** What a file, shell or git tool came to; `wrote` names a path that a write landed on. */
  datatype FileEffect = FileApplied(wrote: Option<string>) | FileRejected | FileFailed

  function FileStatus(effect: FileEffect): CallStatus {
    match effect
    case FileApplied(_) => CallApplied
    case FileRejected => CallRejected
    case FileFailed => CallFailed
  }

  datatype GateRun = GateAssessed(passed: bool, reportPath: string) | GateRaises

  datatype PlanRequest = PlanRequest(taskType: TaskType, requiresTest: Option<bool>, requiresFormal: Option<bool>)

  /** The two kinds of exception the loop tells apart. */
  datatype ExceptionKind = TypeErrorKind | OtherKind

  /**
   * Where an exception strikes a tool, besides those of its own steps: at once, before its record is
   * opened (a worker tool has prepared the task by then), right after, or once its effect is complete but
   * before its result is recorded.
   */
  datatype Strike =
    | Smooth
    | AtOnce(kind: ExceptionKind)
    | BeforeRecord(kind: ExceptionKind)
    | AfterRecord(kind: ExceptionKind)
    | BeforeResult(kind: ExceptionKind)

  predicate TakesEffect(strike: Strike) { strike.Smooth? || strike.BeforeResult? }

  predicate OpensRecord(strike: Strike) { !strike.AtOnce? && !strike.BeforeRecord? }

  /** How a tool method ends: with a result, or with an exception before or after its record was opened. */
  datatype ToolOutcome = Returned(status: CallStatus) | Threw(kind: ExceptionKind, recorded: bool)

  /** A tool that would return this status, struck by an exception or not. */
  function Struck(strike: Strike, status: CallStatus): ToolOutcome {
    if strike.Smooth? then Returned(status) else Threw(strike.kind, OpensRecord(strike))
  }

  function EndOf(outcome: ToolOutcome): CallEnd {
    match outcome
    case Returned(status) => Finished(status)
    case Threw(_, recorded) => if recorded then Raised else NeverOpened
  }

  /** What an outcome is reported to the model as. */
  function ShownFor(outcome: ToolOutcome): CallStatus {
    match outcome
    case Returned(status) => status
    case Threw(kind, _) => if kind.TypeErrorKind? then CallRejected else CallFailed
  }

  function Said(tool: ToolName, status: CallStatus): seq<Event> {
    if status == CallRunning then [] else [ToolResulted(tool, status)]
  }

  /** The result a tool that returned is announced with. */
  function Ending(tool: ToolName, outcome: ToolOutcome): seq<Event> {
    if outcome.Returned? then [ToolResulted(tool, outcome.status)] else []
  }

  /** All a tool call says in public: the call, the events of its effect, and its result, as far as it got. */
  function Spoken(tool: ToolName, strike: Strike, outcome: ToolOutcome, effect: seq<Event>): seq<Event> {
    (if OpensRecord(strike) then [ToolCalled(tool)] else [])
    + (if TakesEffect(strike) then effect else [])
    + Ending(tool, outcome)
  }

  /** A gate run is announced, and so is its verdict if it reaches one. */
  function SaidByGate(gate: GateRun): seq<Event> {
    match gate
    case GateAssessed(passed, _) => [GateStarted, GateEnded(passed)]
    case GateRaises => [GateStarted]
  }

  lemma {:induction false} SpokenInFull(
    before: seq<Event>, now: seq<Event>, tool: ToolName, strike: Strike, outcome: ToolOutcome, effect: seq<Event>)
    requires TakesEffect(strike) && now == before + [ToolCalled(tool)] + effect + Ending(tool, outcome)
    ensures now == before + Spoken(tool, strike, outcome, effect)
    ensures outcome.Returned? ==> SaidLast(now, tool, outcome.status)
  {
  }

  function RoleForWorkspacePath(path: string): Option<FileRole> {
    var lower := Lower(path);
    if StartsWith(lower, ".router/requests/") then Some(RawUserRequest)
    else if RoleForPath(path).Some? then RoleForPath(path)
    else if Contains(lower, "replay_log") || Contains(lower, "main_agent_log") then Some(MainAgentLog)
    else None
  }

  /** A written request file is filed as one; any other by its role, and a log by its name if it has none. */
  lemma {:induction false} WorkspaceRoles(path: string)
    ensures StartsWith(Lower(path), ".router/requests/") ==> RoleForWorkspacePath(path) == Some(RawUserRequest)
    ensures !StartsWith(Lower(path), ".router/requests/") && RoleForPath(path).Some? ==>
              RoleForWorkspacePath(path) == RoleForPath(path)
    ensures !StartsWith(Lower(path), ".router/requests/") && RoleForPath(path) == None ==>
              RoleForWorkspacePath(path) == if Contains(Lower(path), "replay_log")
                                               || Contains(Lower(path), "main_agent_log")
                                            then Some(MainAgentLog) else None
  {
  }

  function WithPath(t: TaskState, path: string, role: Option<FileRole>): TaskState {
    t.(files := CurrentFiles(
         if role.Some? then t.files.roles[role.value := path] else t.files.roles,
         AppendUnique(t.files.allPaths, path)))
  }

  /** The task after a file tool: a write that landed files its path and role. */
  function Written(t: TaskState, tool: ToolName, effect: FileEffect): TaskState {
    if tool.WriteFile? && effect.FileApplied? && effect.wrote.Some?
    then WithPath(t, effect.wrote.value, RoleForWorkspacePath(effect.wrote.value)) else t
  }

  function Waiting(t: TaskState, questions: seq<Question>): TaskState {
    t.(status := WaitingUser, phase := Clarifying, needClarification := true, questions := t.questions + questions)
  }

  function Planned(t: TaskState, plan: PlanRequest): TaskState {
    t.(status := Running, phase := Planning, taskType := plan.taskType,
       requiresTest := if plan.requiresTest.Some? then plan.requiresTest.value else t.requiresTest,
       requiresFormal := if plan.requiresFormal.Some? then plan.requiresFormal.value else t.requiresFormal,
       needClarification := false,
       gates := t.gates.(
         testRequired := if plan.requiresTest.Some? then plan.requiresTest.value else t.gates.testRequired,
         formalRequired := if plan.requiresFormal.Some? then plan.requiresFormal.value else t.gates.formalRequired,
         canFinishAsSuccess := false))
  }

  function GateUpdates(gates: GateState, worker: WorkerType): GateState {
    match worker
    case PlcTest => gates.(testRequired := true)
    case PlcFormal => gates.(formalRequired := true)
    case _ => gates
  }

  function DomainTaskType(worker: WorkerType): TaskType {
    match worker
    case PlcTest => TestCode
    case PlcFormal => FormalVerifyCode
    case PlcRepair => RepairCode
    case PlcDev => NewDevelopment
  }

  predicate IntakeOrUnknown(t: TaskState) { t.status.Created? || t.phase.Intake? || t.taskType.UnknownType? }

  /** The task made ready for a worker; a repair worker gets no task made up for it. */
  function Prepared(t: TaskState, worker: WorkerType): TaskState {
    if !IntakeOrUnknown(t) then t.(gates := GateUpdates(t.gates, worker))
    else if worker.PlcRepair? then t
    else t.(status := Running, phase := Planning, taskType := DomainTaskType(worker),
      gates := GateUpdates(t.gates, worker))
  }

  function WithGateReport(t: TaskState, path: string): TaskState { WithPath(t, path, Some(GateReport)) }

  function WithAssessment(t: TaskState, passed: bool): TaskState {
    t.(gates := t.gates.(canFinishAsSuccess := passed))
  }

  /** None of these ends a task, unsettles its rules or moves its counters. */
  lemma {:induction false} PausesArePermitted(
    t: TaskState, path: string, role: Option<FileRole>, questions: seq<Question>, passed: bool)
    requires Sound(t)
    ensures Permitted(t, WithPath(t, path, role)) && Permitted(t, Waiting(t, questions))
    ensures Permitted(t, WithAssessment(t, passed))
  {
  }

  lemma {:induction false} PlansArePermitted(t: TaskState, plan: PlanRequest)
    requires Sound(t)
    ensures Permitted(t, Planned(t, plan))
  {
  }

  lemma {:induction false} PreparingIsPermitted(t: TaskState, worker: WorkerType)
    requires Sound(t)
    ensures Permitted(t, Prepared(t, worker))
  {
  }

  /** A paused task waits, for every question it had and every new one, and is otherwise as it was. */
  lemma {:induction false} PausedTaskWaits(t: TaskState, questions: seq<Question>)
    ensures var after := Waiting(t, questions);
            && after.status == WaitingUser && after.phase == Clarifying && after.needClarification
            && |after.questions| == |t.questions| + |questions|
            && (forall k :: 0 <= k < |t.questions| ==> after.questions[k] == t.questions[k])
            && (forall k :: 0 <= k < |questions| ==> after.questions[|t.questions| + k] == questions[k])
            && after == t.(status := after.status, phase := after.phase, needClarification := true,
                           questions := after.questions)
  {
  }

  /**
   * A plan classifies the task and sets it running; what it says about test and proof holds for the
   * requirement and for the gate, and what it leaves open stays as it was.
   */
  lemma {:induction false} PlanDecides(t: TaskState, plan: PlanRequest)
    ensures var after := Planned(t, plan);
            && after.status == Running && after.phase == Planning && after.taskType == plan.taskType
            && !after.needClarification && !after.gates.canFinishAsSuccess
            && (plan.requiresTest.Some? ==>
                  after.requiresTest == after.gates.testRequired == plan.requiresTest.value)
            && (plan.requiresTest.None? ==>
                  after.requiresTest == t.requiresTest && after.gates.testRequired == t.gates.testRequired)
            && (plan.requiresFormal.Some? ==>
                  after.requiresFormal == after.gates.formalRequired == plan.requiresFormal.value)
            && (plan.requiresFormal.None? ==>
                  after.requiresFormal == t.requiresFormal && after.gates.formalRequired == t.gates.formalRequired)
            && after.gates == t.gates.(testRequired := after.gates.testRequired,
                                       formalRequired := after.gates.formalRequired, canFinishAsSuccess := false)
            && after == t.(status := Running, phase := Planning, taskType := plan.taskType,
                           requiresTest := after.requiresTest, requiresFormal := after.requiresFormal,
                           needClarification := false, gates := after.gates)
  {
  }

  /** A task still to be classified: new, at intake, or of unknown type. */
  ghost predicate Unclassified(t: TaskState) {
    t.status == Created || t.phase == Intake || t.taskType == UnknownType
  }

  /** Preparing for a worker makes its own check a required one, and changes no other gate. */
  lemma {:induction false} PreparingAsksForItsCheck(t: TaskState, worker: WorkerType)
    ensures var after := Prepared(t, worker);
            && after.gates == t.gates.(
                 testRequired := t.gates.testRequired || worker == PlcTest,
                 formalRequired := t.gates.formalRequired || worker == PlcFormal)
            && after == t.(status := after.status, phase := after.phase, taskType := after.taskType,
                           gates := after.gates)
  {
  }

  /**
   * It classifies a task only if that was still to be done and the worker is no repair, and then after
   * the worker; a task prepared for any other worker is classified.
   */
  lemma {:induction false} PreparingClassifies(t: TaskState, worker: WorkerType)
    ensures var after := Prepared(t, worker);
            if worker == PlcRepair || !Unclassified(t)
            then after.status == t.status && after.phase == t.phase && after.taskType == t.taskType
            else && !Unclassified(after) && after.status == Running && after.phase == Planning
                 && (worker == PlcDev ==> after.taskType == NewDevelopment)
                 && (worker == PlcTest ==> after.taskType == TestCode)
                 && (worker == PlcFormal ==> after.taskType == FormalVerifyCode)
  {
  }

  lemma {:induction false} PlanIgnoresRuns(t: TaskState, runs: seq<AgentRun>, plan: PlanRequest)
    ensures Planned(t.(runs := runs), plan) == Planned(t, plan).(runs := runs)
  {
  }

  lemma {:induction false} WrittenIgnoresRuns(t: TaskState, runs: seq<AgentRun>, tool: ToolName, effect: FileEffect)
    ensures Written(t.(runs := runs), tool, effect) == Written(t, tool, effect).(runs := runs)
  {
  }

  // ---- one recorded tool call ----

  /** A step inside a tool: it advances the run, leaves the call records alone and reports no result. */
  ghost predicate Quiet(a: Snapshot, b: Snapshot) {
    Advances(a, b) && b.task.runs == a.task.runs && SilentExtension(a.events, b.events)
  }

  /**
   * A tool call with a record: it advances the run and leaves exactly one more record, of this tool and
   * status, and one more reported result unless the record is still running.
   */
  ghost predicate Called(a: Snapshot, b: Snapshot, tool: ToolName, status: CallStatus) {
    && Advances(a, b)
    && b.task.runs == AddCall(a.task.runs, a.task.latestRun, CallRecord(tool, status))
    && Reports(b.events) == Reports(a.events) + Said(tool, status)
  }

  /** A tool method as a whole, with or without a record. */
  ghost predicate Performed(a: Snapshot, b: Snapshot, tool: ToolName, outcome: ToolOutcome) {
    match outcome
    case Returned(status) => Called(a, b, tool, status) && status != CallRunning
    case Threw(_, recorded) => if recorded then Called(a, b, tool, CallRunning) else Quiet(a, b)
  }

  /** The public log's last word is this tool's result. */
  predicate SaidLast(events: seq<Event>, tool: ToolName, status: CallStatus) {
    events != [] && events[|events| - 1] == ToolResulted(tool, status)
  }

  lemma {:induction false} QuietIsTransitive(a: Snapshot, b: Snapshot, c: Snapshot)
    requires Quiet(a, b) && Quiet(b, c)
    ensures Quiet(a, c)
  {
  }

  lemma {:induction false} QuietThenCalled(a: Snapshot, b: Snapshot, c: Snapshot, tool: ToolName, status: CallStatus)
    requires Quiet(a, b) && Called(b, c, tool, status)
    ensures Called(a, c, tool, status)
  {
    SilenceReportsNothing(a.events, b.events);
  }

  lemma {:induction false} QuietThenPerformed(
    a: Snapshot, b: Snapshot, c: Snapshot, tool: ToolName, outcome: ToolOutcome)
    requires Quiet(a, b) && Performed(b, c, tool, outcome)
    ensures Performed(a, c, tool, outcome)
  {
    match outcome
    case Returned(status) => QuietThenCalled(a, b, c, tool, status);
    case Threw(_, recorded) =>
      if recorded { QuietThenCalled(a, b, c, tool, CallRunning); } else { QuietIsTransitive(a, b, c); }
  }

  lemma {:induction false} CalledThenQuiet(a: Snapshot, b: Snapshot, c: Snapshot, tool: ToolName, status: CallStatus)
    requires Called(a, b, tool, status) && Quiet(b, c)
    ensures Called(a, c, tool, status)
  {
    SilenceReportsNothing(b.events, c.events);
  }

  lemma {:induction false} CallCloses(a: Snapshot, b: Snapshot, c: Snapshot, tool: ToolName, status: CallStatus)
    requires Called(a, b, tool, CallRunning) && status != CallRunning
    requires Advances(b, c) && c.task.runs == CloseCall(b.task.runs, b.task.latestRun, tool, status)
    requires c.events == b.events + [ToolResulted(tool, status)]
    ensures Called(a, c, tool, status)
  {
    ReportsNext(b.events, ToolResulted(tool, status));
  }

  lemma {:induction false} QuietWrite(a: Snapshot, b: Snapshot)
    requires Permitted(a.task, b.task) && b.task.activeJobs == a.task.activeJobs && b.task.runs == a.task.runs
    requires b.task.limits.activeParallel == a.task.limits.activeParallel
    requires b.writes == a.writes + [Write(b.task, |a.events|)] && b.events == a.events && a.jobs <= b.jobs
    ensures Quiet(a, b)
  {
  }
}
