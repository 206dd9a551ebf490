/** Executing the tool calls of one assistant turn (backend/app/agents/main_agent.py, `_execute_tool_call`). */
module ToolExecution {
  import opened Options
  import opened RouterSchema
  import opened ValidationReports
  import opened TaskStore
  import opened Adapter = WorkerAdapter
  import opened WorkerInputs
  import opened Debounce = RetryDebounce
  import opened CallRecords
  import opened DispatchState
  import opened RunInvariants
  import opened ToolEffects
  import opened ToolService

  /**
   * What a call's arguments decode to, together with what its environment will do. `Malformed` does not
   * decode at all and `Mistyped` does not fit the tool's parameters; the other steps fit one tool each.
   */
  datatype Step =
    | Malformed
    | Mistyped
    | FileStep(effect: FileEffect, strike: Strike)
    | ClarifyStep(questions: seq<Question>, strike: Strike)
    | WorkerStep(config: Option<Config>, reply: WorkerReply, fault: Fault, strike: Strike)
    | GateStep(gate: GateRun, strike: Strike)
    | ReportStep(
        kind: Option<ValidationType>, passed: Option<bool>, failureIds: seq<string>, path: string, fate: DiskFate,
          strike: Strike)

  /** `rendering` is the text the result is sent back as. */
  datatype ToolCall = ToolCall(id: string, tool: ToolName, step: Step, rendering: string)

  predicate IsFileTool(tool: ToolName) {
    tool.ListFiles? || tool.ReadFile? || tool.Glob? || tool.Grep? || tool.WriteFile?
    || tool.ApplyPatch? || tool.ExecCommand? || tool.GitStatus?
  }

  function WorkerOf(tool: ToolName): Option<WorkerType> {
    match tool
    case PlcDevTool => Some(PlcDev)
    case PlcTestTool => Some(PlcTest)
    case PlcFormalTool => Some(PlcFormal)
    case PlcRepairTool => Some(PlcRepair)
    case _ => None
  }

  /** Whether a step's arguments fit the tool's parameters. */
  predicate Fits(tool: ToolName, step: Step) {
    match step
    case FileStep(_, _) => IsFileTool(tool)
    case ClarifyStep(_, _) => tool.RequestClarification?
    case WorkerStep(_, _, _, _) => WorkerOf(tool).Some?
    case GateStep(_, _) => tool.RunQualityGate?
    case ReportStep(_, _, _, _, _, _) => tool.RecordValidationReport?
    case _ => false
  }

  /** Each tool takes one form of arguments, and only the tools of the registry take any. */
  lemma {:induction false} FitsIff(tool: ToolName, step: Step)
    ensures Fits(tool, step) <==>
            || (step.FileStep?
                && (tool == ListFiles || tool == ReadFile || tool == Glob || tool == Grep || tool == WriteFile
                    || tool == ApplyPatch || tool == ExecCommand || tool == GitStatus))
            || (step.ClarifyStep? && tool == ToolName.RequestClarification)
            || (step.WorkerStep?
                && (tool == PlcDevTool || tool == PlcTestTool || tool == PlcFormalTool || tool == PlcRepairTool))
            || (step.GateStep? && tool == ToolName.RunQualityGate)
            || (step.ReportStep? && tool == RecordValidationReport)
    ensures Fits(tool, step) ==> Registered(tool)
    ensures Registered(tool) <==>
            tool != ToolName.UpdatePlan && tool != ToolName.RunParallelWorkers && !tool.UnknownTool?
  {
  }

  /** How a fitting step of a tool without workers ends. */
  function PlainOutcome(step: Step): ToolOutcome
    requires !step.Malformed? && !step.Mistyped? && !step.WorkerStep?
  {
    match step
    case FileStep(effect, strike) => Struck(strike, FileStatus(effect))
    case ClarifyStep(questions, strike) => Struck(strike, if questions == [] then CallRejected else CallApplied)
    case GateStep(gate, strike) =>
      if TakesEffect(strike) && gate.GateRaises? then Threw(OtherKind, true) else Struck(strike, CallApplied)
    case ReportStep(kind, passed, _, _, fate, strike) =>
      if kind.None? || passed.None? then Struck(strike, CallRejected)
      else if fate.Refused? && TakesEffect(strike) then Threw(OtherKind, true)
      else Struck(strike, CallApplied)
  }

  function RequestOf(tool: ToolName, step: Step): WorkerRequest
    requires step.WorkerStep? && Fits(tool, step)
  {
    WorkerRequest(WorkerOf(tool).value, step.config, step.reply, step.fault)
  }

  /** A worker call's execution: refused exactly as its request is judged on the prepared task. */
  ghost predicate JudgedExecution(t: TaskState, jobs: seq<JobRecord>, tool: ToolName, step: Step, e: Execution)
    requires step.WorkerStep? && Fits(tool, step)
  {
    var request := RequestOf(tool, step);
    exists outcome: ToolOutcome ::
      && JudgedRight(Prepared(t, request.worker), jobs, request, step.strike, outcome, e.charged)
      && e == ExecutionOf(tool, outcome, e.charged)
  }

  /** Each worker tool and its worker. */
  ghost predicate SendsTo(tool: ToolName, worker: WorkerType) {
    || (tool == PlcDevTool && worker == PlcDev)
    || (tool == PlcTestTool && worker == PlcTest)
    || (tool == PlcFormalTool && worker == PlcFormal)
    || (tool == PlcRepairTool && worker == PlcRepair)
  }

  /** A tool call leaves at most one job, and that was sent to the tool's own worker. */
  ghost predicate JobsSentBy(tool: ToolName, before: seq<JobRecord>, now: seq<JobRecord>) {
    && before <= now && |now| <= |before| + 1
    && forall k :: |before| <= k < |now| ==> SendsTo(tool, now[k].input.worker)
  }

  /** The registry the model chooses from; plan updates and batches are not in it. */
  predicate Registered(tool: ToolName) {
    !tool.UnknownTool? && !tool.UpdatePlan? && !tool.RunParallelWorkers?
  }

  /** Only a worker tool uses up a worker call, and a returned one exactly if its dispatch was applied. */
  predicate ChargedRightly(e: Execution) {
    && (e.charged ==> WorkerOf(e.tool).Some?)
    && (e.end.Finished? && WorkerOf(e.tool).Some? ==> (e.charged <==> e.end.status == CallApplied))
  }

  /** What one executed tool call does to the store, but for the report of its result. */
  ghost predicate Carried(a: Snapshot, b: Snapshot, e: Execution) {
    && Advances(a, b)
    && b.task.runs == AddCalls(a.task.runs, a.task.latestRun, RecordOf(e))
    && b.task.limits.callsUsed == a.task.limits.callsUsed + (if e.charged then 1 else 0)
    && (Debounced(a.jobs, MAX_FAILURES) ==> Debounced(b.jobs, MAX_FAILURES))
    && WellEnded(e) && ChargedRightly(e)
  }

  /** A whole executed tool call: whatever became of it, exactly one result is reported, as shown. */
  ghost predicate Executed(a: Snapshot, b: Snapshot, e: Execution) {
    Carried(a, b, e) && Reports(b.events) == Reports(a.events) + [ToolResulted(e.tool, e.shown)]
  }

  /** The execution a tool's outcome amounts to. */
  function ExecutionOf(tool: ToolName, outcome: ToolOutcome, charged: bool): Execution {
    Execution(tool, EndOf(outcome), ShownFor(outcome), charged)
  }

  lemma {:induction false} PerformedIsCarried(
    a: Snapshot, b: Snapshot, tool: ToolName, outcome: ToolOutcome, charged: bool)
    requires Performed(a, b, tool, outcome) && ChargedRightly(ExecutionOf(tool, outcome, charged))
    requires outcome.Threw? && !outcome.recorded ==> !charged
    requires b.task.limits.callsUsed == a.task.limits.callsUsed + (if charged then 1 else 0)
    requires Debounced(a.jobs, MAX_FAILURES) ==> Debounced(b.jobs, MAX_FAILURES)
    ensures Carried(a, b, ExecutionOf(tool, outcome, charged))
    ensures Reports(b.events) == Reports(a.events)
            + (if outcome.Returned? then [ToolResulted(tool, outcome.status)] else [])
  {
    AddCallsIsRepeated(a.task.runs, a.task.latestRun, [], RecordOf(ExecutionOf(tool, outcome, charged)));
    if outcome.Threw? && !outcome.recorded { SilenceReportsNothing(a.events, b.events); }
  }

  /** Announcements between calls change nothing else and report nothing. */
  ghost predicate OnlyAnnounced(a: Snapshot, b: Snapshot) {
    b == a.(events := b.events) && SilentExtension(a.events, b.events)
  }

  /** A call that left no record, or left it open, is reported from outside its tool. */
  lemma {:induction false} CarriedThenReported(a: Snapshot, b: Snapshot, c: Snapshot, e: Execution)
    requires Carried(a, b, e) && Reports(b.events) == Reports(a.events)
    requires c == b.(events := b.events + [ToolCalled(e.tool), ToolResulted(e.tool, e.shown)])
    ensures Executed(a, c, e)
  {
    ReportExtends(a.events, b.events, e.tool, e.shown);
  }

  lemma {:induction false} ReportExtends(a: seq<Event>, b: seq<Event>, tool: ToolName, shown: CallStatus)
    requires QuietExtension(a, b)
    ensures QuietExtension(a, b + [ToolCalled(tool), ToolResulted(tool, shown)])
    ensures Reports(b + [ToolCalled(tool), ToolResulted(tool, shown)]) == Reports(b) + [ToolResulted(tool, shown)]
  {
    ReportsNext(b, ToolCalled(tool));
    ReportsNext(b + [ToolCalled(tool)], ToolResulted(tool, shown));
    assert b + [ToolCalled(tool), ToolResulted(tool, shown)] == b + [ToolCalled(tool)] + [ToolResulted(tool, shown)];
    assert Reports(b) + [] == Reports(b);
  }

  lemma {:induction false} NothingIsCarried(a: Snapshot, tool: ToolName, shown: CallStatus)
    requires Sound(a.task) && (shown == CallRejected || shown == CallFailed)
    ensures Carried(a, a, Execution(tool, NeverOpened, shown, false))
  {
    NoWrite(a, []);
    AddCallsIsRepeated(a.task.runs, a.task.latestRun, [], []);
  }

  class ToolExecutor {
    const service: AgentToolService

    constructor (service: AgentToolService)
      ensures this.service == service
    {
      this.service := service;
    }

    ghost predicate Wired() { service.adapter.store == service.store }

    method AnnounceCall(tool: ToolName, status: CallStatus)
      modifies service.store`events
      ensures service.store.Now() == old(service.store.Now()).(
                events := old(service.store.events) + [ToolCalled(tool), ToolResulted(tool, status)])
    {
      service.store.Append(ToolCalled(tool));
      service.store.Append(ToolResulted(tool, status));
    }

    /** Sends a worker tool's request to the tool's own worker. */
    method SendToWorker(tool: ToolName, step: Step) returns (outcome: ToolOutcome, charged: bool)
      requires Wired() && Sound(service.store.task) && step.WorkerStep? && Fits(tool, step)
      modifies service.store
      ensures Performed(old(service.store.Now()), service.store.Now(), tool, outcome)
      ensures outcome.Returned? ==> SaidLast(service.store.events, tool, outcome.status)
      ensures JudgedRight(Prepared(old(service.store.task), WorkerOf(tool).value), old(service.store.jobs),
                RequestOf(tool, step), step.strike, outcome, charged)
      ensures service.store.task.limits.callsUsed
           == old(service.store.task.limits.callsUsed) + (if charged then 1 else 0)
      ensures Debounced(old(service.store.jobs), MAX_FAILURES) ==> Debounced(service.store.jobs, MAX_FAILURES)
      ensures JobsSentBy(tool, old(service.store.jobs), service.store.jobs)
    {
      ghost var t := Prepared(service.store.task, WorkerOf(tool).value);
      var request := RequestOf(tool, step);
      outcome, charged := service.CallPreparedWorkerTool(tool, request, step.strike);
      if service.store.jobs != old(service.store.jobs) {
        service.DispatchedSends(
          service.store.task, service.store.jobs, t, Opened(t, tool), old(service.store.jobs), request);
      }
    }

    method WorkerCall(tool: ToolName, step: Step) returns (outcome: ToolOutcome, e: Execution)
      requires Wired() && Sound(service.store.task) && step.WorkerStep? && Fits(tool, step)
      modifies service.store
      ensures Carried(old(service.store.Now()), service.store.Now(), e) && e == ExecutionOf(tool, outcome, e.charged)
      ensures JudgedExecution(old(service.store.task), old(service.store.jobs), tool, step, e)
      ensures JobsSentBy(tool, old(service.store.jobs), service.store.jobs)
      ensures Reports(service.store.events) == old(Reports(service.store.events))
                + (if outcome.Returned? then [ToolResulted(tool, outcome.status)] else [])
      ensures outcome.Returned? ==> SaidLast(service.store.events, tool, outcome.status)
    {
      var charged;
      outcome, charged := SendToWorker(tool, step);
      e := ExecutionOf(tool, outcome, charged);
      PerformedIsCarried(old(service.store.Now()), service.store.Now(), tool, outcome, charged);
    }

    /** The tools that dispatch no worker; a step that does not fit its tool raises before the tool runs. */
    method PlainCall(tool: ToolName, step: Step) returns (outcome: ToolOutcome)
      requires Sound(service.store.task) && Registered(tool) && !step.Malformed?
      modifies service.store
      ensures Performed(old(service.store.Now()), service.store.Now(), tool, outcome)
      ensures outcome.Returned? ==> SaidLast(service.store.events, tool, outcome.status)
      ensures outcome == if Fits(tool, step) && !step.WorkerStep? then PlainOutcome(step)
              else Threw(TypeErrorKind, false)
      ensures service.store.task.limits == old(service.store.task.limits)
      ensures service.store.jobs == old(service.store.jobs)
    {
      NoWrite(service.store.Now(), []);
      outcome := Threw(TypeErrorKind, false);
      if !Fits(tool, step) {
        return;
      }
      match step {
        case FileStep(effect, strike) =>
          outcome := service.FileTool(tool, effect, strike);
        case ClarifyStep(questions, strike) =>
          outcome := service.RequestClarification(questions, strike);
        case GateStep(gate, strike) =>
          outcome := service.RunQualityGate(gate, strike);
        case ReportStep(kind, passed, failureIds, path, fate, strike) =>
          var resolved;
          outcome, resolved := service.RecordReport(kind, passed, failureIds, path, fate, strike);
        case _ =>
      }
    }

    /** Looks the tool up and invokes it. */
    method CallMainAgentTool(tool: ToolName, step: Step) returns (outcome: ToolOutcome, e: Execution)
      requires Wired() && Sound(service.store.task) && !step.Malformed?
      modifies service.store
      ensures Carried(old(service.store.Now()), service.store.Now(), e) && e.tool == tool
      ensures !Registered(tool) ==>
                outcome == Returned(CallRejected) && e == Execution(tool, NeverOpened, CallRejected, false)
      ensures Registered(tool) ==> e == ExecutionOf(tool, outcome, e.charged)
      ensures Registered(tool) && !Fits(tool, step) ==> outcome == Threw(TypeErrorKind, false)
      ensures Registered(tool) && Fits(tool, step) && !step.WorkerStep? ==> outcome == PlainOutcome(step) && !e.charged
      ensures Registered(tool) && Fits(tool, step) && step.WorkerStep? ==>
                JudgedExecution(old(service.store.task), old(service.store.jobs), tool, step, e)
      ensures JobsSentBy(tool, old(service.store.jobs), service.store.jobs)
      ensures Reports(service.store.events) == old(Reports(service.store.events))
                + (if Registered(tool) && outcome.Returned? then [ToolResulted(tool, outcome.status)] else [])
      ensures Registered(tool) && outcome.Returned? ==> SaidLast(service.store.events, tool, outcome.status)
    {
      if !Registered(tool) {
        NothingIsCarried(service.store.Now(), tool, CallRejected);
        return Returned(CallRejected), Execution(tool, NeverOpened, CallRejected, false);
      }
      if Fits(tool, step) && step.WorkerStep? {
        outcome, e := WorkerCall(tool, step);
        return;
      }
      outcome := PlainCall(tool, step);
      e := ExecutionOf(tool, outcome, false);
      PerformedIsCarried(old(service.store.Now()), service.store.Now(), tool, outcome, false);
    }

    /** One tool call of the model, whatever becomes of it. */
    method ExecuteToolCall(call: ToolCall) returns (e: Execution)
      requires Wired() && Sound(service.store.task)
      modifies service.store
      ensures Executed(old(service.store.Now()), service.store.Now(), e) && e.tool == call.tool
      ensures SaidLast(service.store.events, call.tool, e.shown)
      ensures call.step.Malformed? ==> e == Execution(call.tool, NeverOpened, CallFailed, false)
      ensures !call.step.Malformed? && !Registered(call.tool) ==>
                e == Execution(call.tool, NeverOpened, CallRejected, false)
      ensures !call.step.Malformed? && Registered(call.tool) && !Fits(call.tool, call.step) ==>
                e == Execution(call.tool, NeverOpened, CallRejected, false)
      ensures !call.step.Malformed? && Registered(call.tool) && Fits(call.tool, call.step) && !call.step.WorkerStep? ==>
                e == ExecutionOf(call.tool, PlainOutcome(call.step), false)
      ensures Registered(call.tool) && Fits(call.tool, call.step) && call.step.WorkerStep? ==>
                JudgedExecution(old(service.store.task), old(service.store.jobs), call.tool, call.step, e)
      ensures JobsSentBy(call.tool, old(service.store.jobs), service.store.jobs)
    {
      ghost var start := service.store.Now();
      if call.step.Malformed? {
        e := Execution(call.tool, NeverOpened, CallFailed, false);
        NothingIsCarried(start, call.tool, CallFailed);
        AnnounceCall(call.tool, CallFailed);
        CarriedThenReported(start, start, service.store.Now(), e);
        return;
      }
      var outcome;
      outcome, e := CallMainAgentTool(call.tool, call.step);
      if !Registered(call.tool) || outcome.Threw? {
        ghost var before := service.store.Now();
        AnnounceCall(call.tool, e.shown);
        CarriedThenReported(start, before, service.store.Now(), e);
      }
    }
  }
}
