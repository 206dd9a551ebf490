/** The Main Agent's tools over one task (backend/app/agents/tools.py, `AgentToolService`). */
module ToolService {
  import opened Options
  import opened RouterSchema
  import opened SchedulerGuard
  import opened ValidationReports
  import opened WorkerResults
  import opened TaskStore
  import opened Adapter = WorkerAdapter
  import opened WorkerInputs
  import opened Debounce = RetryDebounce
  import opened CallRecords
  import opened DispatchState
  import opened RunInvariants
  import opened ToolEffects

  /** One request for a worker: a configuration that may be invalid, and what its environment will do. */
  datatype WorkerRequest = WorkerRequest(worker: WorkerType, config: Option<Config>, reply: WorkerReply, fault: Fault)

  /** The builder refuses a configuration that does not validate, and a task without a workspace. */
  predicate Buildable(t: TaskState, request: WorkerRequest) { request.config.Some? && t.hasWorkspace }

  function InputFor(t: TaskState, request: WorkerRequest, jobId: nat): WorkerInput
    requires request.config.Some?
  {
    BuildWorkerInput(t, request.worker, request.config.value, jobId)
  }

  /** An input made for this request, under this job id. */
  predicate MadeFor(input: WorkerInput, t: TaskState, request: WorkerRequest, jobId: nat) {
    request.config.Some? && input.jobId == jobId && input.worker == request.worker
    && input.signature == SignatureFor(t, request.worker, request.config.value)
  }

  function WorkersOf(requests: seq<WorkerRequest>): seq<WorkerType> {
    seq(|requests|, k requires 0 <= k < |requests| => requests[k].worker)
  }

  ghost predicate RepeatsFailure(t: TaskState, jobs: seq<JobRecord>, request: WorkerRequest) {
    request.config.Some? && Blocked(jobs, InputFor(t, request, 0), MAX_FAILURES)
  }

  /** A batch is refused as a whole: by the guard, for one invalid input, or for one repeated failure. */
  ghost predicate RefusesBatch(t: TaskState, jobs: seq<JobRecord>, requests: seq<WorkerRequest>) {
    || ValidateParallelJobs(t, WorkersOf(requests)).Some?
    || (exists k :: 0 <= k < |requests| && !Buildable(t, requests[k]))
    || (exists k :: 0 <= k < |requests| && RepeatsFailure(t, jobs, requests[k]))
  }

  lemma {:induction false} MadeForIsJudgedAlike(
    jobs: seq<JobRecord>, input: WorkerInput, t: TaskState, request: WorkerRequest, jobId: nat)
    requires MadeFor(input, t, request, jobId)
    ensures Blocked(jobs, input, MAX_FAILURES) <==> RepeatsFailure(t, jobs, request)
  {
    SameJudgment(jobs, input, InputFor(t, request, 0), MAX_FAILURES);
  }

  /** A single dispatch is refused by the guard, for an invalid input, or for repeating a failure. */
  ghost predicate Refuses(t: TaskState, jobs: seq<JobRecord>, request: WorkerRequest) {
    || ValidateWorkerCall(t, request.worker, ProposedPaths(t, request.worker)).Some?
    || !Buildable(t, request)
    || Blocked(jobs, InputFor(t, request, NextJobId(t, jobs)), MAX_FAILURES)
  }

  /** A past job of this request's worker and signature that was completed and came out failed over this source. */
  ghost predicate FailedOver(job: JobRecord, t: TaskState, request: WorkerRequest, source: FailureSource) {
    && request.config.Some?
    && job.input.worker == request.worker
    && job.input.signature == SignatureFor(t, request.worker, request.config.value)
    && job.result.Some? && job.result.value.execution == ExecCompleted && job.result.value.outcome == FailedOutcome
    && Lists(job.result.value.failures, source)
  }

  /**
   * End to end: once two completed jobs with the inputs and configuration of a request came out failed over
   * the same source, the request is refused, and so is every batch that has it.
   */
  lemma {:induction false} RepeatedFailureIsRefused(
    t: TaskState, jobs: seq<JobRecord>, request: WorkerRequest, i: nat, j: nat, source: FailureSource)
    requires i < j < |jobs| && FailedOver(jobs[i], t, request, source) && FailedOver(jobs[j], t, request, source)
    ensures Refuses(t, jobs, request) && RepeatsFailure(t, jobs, request)
    ensures forall requests: seq<WorkerRequest> :: request in requests ==> RefusesBatch(t, jobs, requests)
  {
    var input := InputFor(t, request, NextJobId(t, jobs));
    HoldsNames(jobs[i], input, SourceName(source));
    HoldsNames(jobs[j], input, SourceName(source));
    assert BothHold(jobs, input, i, j, SourceName(source));
    BlockedIffTwoAgree(jobs, input);
    SameJudgment(jobs, input, InputFor(t, request, 0), MAX_FAILURES);
  }

  /** And a request that nothing speaks against is not: no two of its past jobs failed for a common reason. */
  lemma {:induction false} RefusedIff(t: TaskState, jobs: seq<JobRecord>, request: WorkerRequest)
    ensures Refuses(t, jobs, request) <==>
            || ValidateWorkerCall(t, request.worker, ProposedPaths(t, request.worker)) != None
            || request.config == None || !t.hasWorkspace
            || exists i: nat, j: nat, failureType ::
                 BothHold(jobs, InputFor(t, request, NextJobId(t, jobs)), i, j, failureType)
  {
    if request.config.Some? { BlockedIffTwoAgree(jobs, InputFor(t, request, NextJobId(t, jobs))); }
  }

  /** A task with one more running record of this tool in its latest run. */
  function Opened(t: TaskState, tool: ToolName): TaskState {
    t.(runs := AddCall(t.runs, t.latestRun, CallRecord(tool, CallRunning)))
  }

  /** A worker tool's outcome: refused exactly by its judgment, charged exactly if its dispatch returned. */
  ghost predicate JudgedRight(
    t: TaskState, jobs: seq<JobRecord>, request: WorkerRequest, strike: Strike, outcome: ToolOutcome, charged: bool)
  {
    && (strike.Smooth? <==> outcome.Returned?)
    && (!strike.Smooth? ==> outcome == Threw(strike.kind, OpensRecord(strike)))
    && (outcome.Returned? ==>
          && (outcome.status == CallRejected <==> Refuses(t, jobs, request))
          && (outcome.status == CallRejected || outcome.status == CallApplied || outcome.status == CallFailed)
          && (charged <==> outcome.status == CallApplied))
    && (charged ==> TakesEffect(strike) && !Refuses(t, jobs, request))
  }

  class AgentToolService {
    const store: Store
    const adapter: McpAdapter

    constructor (store: Store, adapter: McpAdapter)
      ensures this.store == store && this.adapter == adapter
    {
      this.store, this.adapter := store, adapter;
    }

    predicate Known() { adapter.mode in MODES }

    function AnswerTo(input: WorkerInput, reply: WorkerReply): WorkerResult {
      Answer(adapter.RouteFor(input.worker), input, reply)
    }

    /** The job a dispatch leaves in the history, if it gets as far as creating one. */
    function JobsLeft(input: WorkerInput, reply: WorkerReply, fault: Fault): seq<JobRecord> {
      var r := AnswerTo(input, reply);
      if !Known() || fault.BeforeCall? then []
      else if fault.InsideCall? then [JobRecord(input, JobRunning, None)]
      else [JobRecord(input, JobStatusFor(r.execution), Some(r))]
    }

    /** What a dispatch says in public, as far as it gets. */
    function SaidByDispatch(input: WorkerInput, reply: WorkerReply, fault: Fault): seq<Event> {
      if !Known() || fault.BeforeCall? then []
      else if fault.InsideCall? then [WorkerStarted(input.jobId)]
      else [WorkerStarted(input.jobId)]
           + Progress(input.jobId, PathsFor(input, Attempted(adapter.RouteFor(input.worker), input, reply)))
           + [WorkerEnded(input.jobId, AnswerTo(input, reply).execution)]
    }

    /** The files a dispatch leaves: those its worker wrote, if it got as far as asking it. */
    function FilesLeft(files: map<string, string>, input: WorkerInput, reply: WorkerReply, fault: Fault)
      : map<string, string>
    {
      if !Known() || fault.BeforeCall? || fault.InsideCall? then files
      else FilesAfter(files, input, Attempted(adapter.RouteFor(input.worker), input, reply))
    }

    /** Calls the worker; None is an exception. */
    method RunWorker(input: WorkerInput, reply: WorkerReply, fault: Fault) returns (answer: Option<WorkerResult>)
      requires adapter.store == store && !HasJob(store.jobs, input.jobId) && !fault.BeforeCall?
      modifies store
      ensures answer == if Known() && !fault.InsideCall? then Some(AnswerTo(input, reply)) else None
      ensures store.task == old(store.task) && store.writes == old(store.writes)
      ensures store.jobs == old(store.jobs) + JobsLeft(input, reply, fault)
      ensures store.events == old(store.events) + SaidByDispatch(input, reply, fault)
      ensures store.files == FilesLeft(old(store.files), input, reply, fault)
      ensures SilentExtension(old(store.events), store.events)
    {
      var outcome := adapter.CallWorker(input, reply, fault.InsideCall?);
      match outcome {
        case CallRaises => answer := None;
        case Answered(r) => answer := Some(r);
      }
    }

    /** Stores a handled result and takes the counter down. None is an exception. */
    method Settle(ghost t: TaskState, handled: Handled, fault: Fault) returns (status: Option<CallStatus>)
      requires !fault.BeforeCall? && !fault.InsideCall? && !fault.BeforeHandle?
      requires handled.Applied? ==> Permitted(t, handled.task) && Permitted(t, Released(handled.task))
      modifies store`task, store`writes
      ensures handled.HandlerRaises? ==>
                status == None && store.task == old(store.task) && store.writes == old(store.writes)
      ensures handled.NotApplied? ==> status == None || status == Some(CallNoOp)
      ensures handled.Applied? ==>
                && status == (if fault.NoFault? then Some(CallApplied) else None)
                && store.task == (if fault.BeforeDecrement? then handled.task else Released(handled.task))
                && WritesPermitted(t, old(store.writes), store.writes)
    {
      if handled.HandlerRaises? {
        return None;
      }
      if handled.Applied? {
        store.Update(handled.task);
        WriteAnother(t, old(store.writes), old(store.writes), Write(handled.task, |store.events|));
      }
      if fault.BeforeDecrement? {
        return None;
      }
      ghost var mid := store.writes;
      store.Update(Released(store.task));
      if handled.Applied? {
        WriteAnother(t, old(store.writes), mid, Write(Released(handled.task), |store.events|));
      }
      if fault.AfterDecrement? {
        return None;
      }
      return Some(if handled.Applied? then CallApplied else CallNoOp);
    }

    /** The guarded part: call the worker, apply its result, take the counter down. None is an exception. */
    method CallAndApply(ghost t: TaskState, ghost x: TaskState, input: WorkerInput, reply: WorkerReply, fault: Fault)
      returns (status: Option<CallStatus>)
      requires adapter.store == store && !HasJob(store.jobs, input.jobId)
      requires HandleResult(store.task, input, AnswerTo(input, reply))
            == if PassedWithoutCode(t, AnswerTo(input, reply)) then HandlerRaises else Applied(x)
      requires PermittedThroughout(t, x, input, ResultLands(Known(), t, AnswerTo(input, reply), fault))
      modifies store
      ensures var landed := ResultLands(Known(), t, AnswerTo(input, reply), fault);
              && status == (if landed && fault.NoFault? then Some(CallApplied) else None)
              && store.task == (if !landed then old(store.task) else if fault.BeforeDecrement? then x else Released(x))
      ensures WritesPermitted(t, old(store.writes), store.writes)
      ensures store.jobs == old(store.jobs) + JobsLeft(input, reply, fault)
      ensures store.events == old(store.events) + SaidByDispatch(input, reply, fault)
      ensures store.files == FilesLeft(old(store.files), input, reply, fault)
      ensures SilentExtension(old(store.events), store.events)
    {
      if fault.BeforeCall? {
        return None;
      }
      var answer := RunWorker(input, reply, fault);
      if answer.None? || fault.BeforeHandle? {
        return None;
      }
      var handled := HandleResult(store.task, input, answer.value);
      status := Settle(t, handled, fault);
    }

    method RecordActiveWorker(input: WorkerInput)
      requires Permitted(store.task, WithActive(store.task, input))
      modifies store`task, store`writes
      ensures store.task == WithActive(old(store.task), input)
      ensures WritesPermitted(old(store.task), old(store.writes), store.writes)
    {
      var previous := store.task;
      store.Update(WithActive(previous, input));
      WriteAnother(previous, old(store.writes), old(store.writes), Write(WithActive(previous, input), |store.events|));
    }

    method RestoreActiveWorker(input: WorkerInput, previous: TaskState, ghost before: seq<Write>)
      requires Permitted(previous, Restored(store.task, input.jobId, previous))
      requires WritesPermitted(previous, before, store.writes)
      modifies store`task, store`writes
      ensures store.task == Restored(old(store.task), input.jobId, previous)
      ensures WritesPermitted(previous, before, store.writes)
    {
      var restored := Restored(store.task, input.jobId, previous);
      ghost var tried := store.writes;
      store.Update(restored);
      WriteAnother(previous, before, tried, Write(restored, |store.events|));
    }

    /** Dispatches one worker; an exception anywhere restores the active list and both counters. */
    method Dispatch(input: WorkerInput, reply: WorkerReply, fault: Fault) returns (status: CallStatus)
      requires adapter.store == store
      requires Sound(store.task) && HasRoom(store.task, input.worker)
      requires JobIdsBelow(store.task, store.jobs, input.jobId)
      modifies store
      ensures status == DispatchStatus(Known(), old(store.task), AnswerTo(input, reply), fault)
      ensures store.task == AfterDispatch(Known(), old(store.task), input, AnswerTo(input, reply), fault)
      ensures store.jobs == old(store.jobs) + JobsLeft(input, reply, fault)
      ensures store.events == old(store.events) + SaidByDispatch(input, reply, fault)
      ensures store.files == FilesLeft(old(store.files), input, reply, fault)
      ensures Advances(old(store.Now()), store.Now()) && SilentExtension(old(store.events), store.events)
    {
      AnswerMeans(adapter.RouteFor(input.worker), input, reply);
      ghost var x := DispatchFacts(store.task, input, AnswerTo(input, reply), store.jobs, Known(), fault);
      status := TryDispatch(x, input, reply, fault);
      SilenceReportsNothing(old(store.events), store.events);
    }

    /** The same, on what is known of the records on the way; `x` is the record with the result applied. */
    method TryDispatch(ghost x: TaskState, input: WorkerInput, reply: WorkerReply, fault: Fault)
      returns (status: CallStatus)
      requires adapter.store == store && !HasJob(store.jobs, input.jobId)
      requires var r := AnswerTo(input, reply);
               && HandleResult(WithActive(store.task, input), input, r)
                  == (if PassedWithoutCode(store.task, r) then HandlerRaises else Applied(x))
               && PermittedThroughout(store.task, x, input, ResultLands(Known(), store.task, r, fault))
               && RestoresCleanly(store.task, x, input, ResultLands(Known(), store.task, r, fault))
      modifies store
      ensures var t := old(store.task);
              var landed := ResultLands(Known(), t, AnswerTo(input, reply), fault);
              && status == (if landed && fault.NoFault? then CallApplied else CallFailed)
              && store.task == (if !landed then t else if fault.NoFault? then Released(x)
                                else Restored(x, input.jobId, t))
      ensures WritesPermitted(old(store.task), old(store.writes), store.writes)
      ensures store.jobs == old(store.jobs) + JobsLeft(input, reply, fault)
      ensures store.events == old(store.events) + SaidByDispatch(input, reply, fault)
      ensures store.files == FilesLeft(old(store.files), input, reply, fault)
      ensures SilentExtension(old(store.events), store.events)
    {
      var previous := store.task;
      RecordActiveWorker(input);
      ghost var mid := store.writes;
      var ended := CallAndApply(previous, x, input, reply, fault);
      JoinWrites(previous, old(store.writes), mid, store.writes);
      if ended.Some? {
        status := ended.value;
      } else {
        RestoreActiveWorker(input, previous, old(store.writes));
        status := CallFailed;
      }
    }

    // ---- call records ----

    method AppendCallRecord(tool: ToolName)
      modifies store`task, store`writes
      ensures store.task == old(store.task).(runs := AddCall(old(store.task.runs), old(store.task.latestRun),
              CallRecord(tool, CallRunning)))
      ensures store.writes == old(store.writes) + [Write(store.task, |store.events|)]
           || (store.task == old(store.task) && store.writes == old(store.writes))
    {
      var t := store.task;
      if t.latestRun.Some? {
        var runs := AppendToLatest(t.runs, t.latestRun, CallRecord(tool, CallRunning));
        if runs != t.runs {
          store.Update(t.(runs := runs));
        }
      }
    }

    method CompleteCallRecord(tool: ToolName, status: CallStatus)
      modifies store`task, store`writes
      ensures store.task == old(store.task).(runs := CloseCall(old(store.task.runs), old(store.task.latestRun), tool,
              status))
      ensures store.writes == old(store.writes) + [Write(store.task, |store.events|)]
           || (store.task == old(store.task) && store.writes == old(store.writes))
    {
      var t := store.task;
      if t.latestRun.Some? {
        var runs, changed := CloseInLatest(t.runs, t.latestRun, tool, status);
        if changed {
          store.Update(t.(runs := runs));
        } else {
          NothingToClose(t.runs, t.latestRun, tool, status);
        }
      }
    }

    method RecordToolCall(tool: ToolName)
      requires Sound(store.task)
      modifies store`task, store`writes, store`events
      ensures Called(old(store.Now()), store.Now(), tool, CallRunning)
      ensures store.events == old(store.events) + [ToolCalled(tool)]
      ensures store.task == old(store.task).(runs := AddCall(old(store.task.runs), old(store.task.latestRun),
              CallRecord(tool, CallRunning)))
      ensures store.jobs == old(store.jobs)
      ensures Advances(old(store.Now()), store.Now())
    {
      AppendCallRecord(tool);
      ReportsNext(store.events, ToolCalled(tool));
      store.Append(ToolCalled(tool));
      RunsOnly(old(store.Now()), store.Now(), ToolCalled(tool));
    }

    method RecordToolResult(tool: ToolName, status: CallStatus)
      requires Sound(store.task)
      modifies store`task, store`writes, store`events
      ensures store.events == old(store.events) + [ToolResulted(tool, status)]
      ensures store.task == old(store.task).(runs := CloseCall(old(store.task.runs), old(store.task.latestRun), tool,
              status))
      ensures store.jobs == old(store.jobs)
      ensures Advances(old(store.Now()), store.Now())
    {
      CompleteCallRecord(tool, status);
      store.Append(ToolResulted(tool, status));
      RunsOnly(old(store.Now()), store.Now(), ToolResulted(tool, status));
    }

    // ---- tools without workers ----

    method WriteTask(t: TaskState)
      requires Permitted(store.task, t) && t.runs == store.task.runs && t.activeJobs == store.task.activeJobs
      requires t.limits.activeParallel == store.task.limits.activeParallel
      modifies store`task, store`writes
      ensures store.task == t && Quiet(old(store.Now()), store.Now())
    {
      store.Update(t);
      QuietWrite(old(store.Now()), store.Now());
    }

    method Announce(e: Event)
      requires Sound(store.task) && Silent(e)
      modifies store`events
      ensures store.events == old(store.events) + [e]
      ensures Quiet(old(store.Now()), store.Now())
    {
      store.Append(e);
      OneEvent(old(store.Now()), e);
    }

    method RecordWorkspacePath(path: string)
      requires Sound(store.task)
      modifies store`task, store`writes
      ensures store.task == WithPath(old(store.task), path, RoleForWorkspacePath(path))
      ensures Quiet(old(store.Now()), store.Now())
    {
      PausesArePermitted(store.task, path, RoleForWorkspacePath(path), [], false);
      WriteTask(WithPath(store.task, path, RoleForWorkspacePath(path)));
    }

    /** Closes the record of a call whose own steps were quiet, unless an exception strikes first. */
    method Finish(tool: ToolName, status: CallStatus, strike: Strike, ghost start: Snapshot, ghost begun: Snapshot)
      returns (outcome: ToolOutcome)
      requires Called(start, begun, tool, CallRunning) && Quiet(begun, store.Now())
      requires TakesEffect(strike) && status != CallRunning
      modifies store`task, store`writes, store`events
      ensures Performed(start, store.Now(), tool, outcome) && outcome == Struck(strike, status)
      ensures store.events == old(store.events) + Ending(tool, outcome)
      ensures store.task == old(store.task).(runs := store.task.runs) && store.jobs == old(store.jobs)
    {
      CalledThenQuiet(start, begun, store.Now(), tool, CallRunning);
      if strike.BeforeResult? {
        return Threw(strike.kind, true);
      }
      ghost var ended := store.Now();
      RecordToolResult(tool, status);
      CallCloses(start, ended, store.Now(), tool, status);
      outcome := Returned(status);
    }

    /** Opens the record of a call, unless an exception strikes before or right after. */
    method Begin(tool: ToolName, strike: Strike) returns (outcome: Option<ToolOutcome>)
      requires Sound(store.task)
      modifies store`task, store`writes, store`events
      ensures outcome == if TakesEffect(strike) then None else Some(Threw(strike.kind, strike.AfterRecord?))
      ensures store.task == old(store.task).(runs := store.task.runs) && store.jobs == old(store.jobs)
      ensures outcome.None? ==> store.events == old(store.events) + [ToolCalled(tool)]
      ensures outcome.Some? ==>
                forall effect :: store.events == old(store.events) + Spoken(tool, strike, outcome.value, effect)
      ensures outcome.Some? ==> Performed(old(store.Now()), store.Now(), tool, outcome.value)
      ensures outcome.None? ==> Called(old(store.Now()), store.Now(), tool, CallRunning)
    {
      if !OpensRecord(strike) {
        NoWrite(store.Now(), []);
        return Some(Threw(strike.kind, false));
      }
      RecordToolCall(tool);
      outcome := if strike.AfterRecord? then Some(Threw(strike.kind, true)) else None;
    }

    /** Only a write that landed files its path. */
    method NoteWrite(tool: ToolName, effect: FileEffect)
      requires Sound(store.task)
      modifies store`task, store`writes
      ensures store.task == Written(old(store.task), tool, effect)
      ensures Quiet(old(store.Now()), store.Now())
    {
      NoWrite(store.Now(), []);
      if tool.WriteFile? && effect.FileApplied? && effect.wrote.Some? {
        RecordWorkspacePath(effect.wrote.value);
      }
    }

    /** Listing, reading, searching, writing, patching, running commands and asking git. */
    method FileTool(tool: ToolName, effect: FileEffect, strike: Strike) returns (outcome: ToolOutcome)
      requires Sound(store.task)
      modifies store`task, store`writes, store`events
      ensures Performed(old(store.Now()), store.Now(), tool, outcome)
      ensures outcome.Returned? ==> SaidLast(store.events, tool, outcome.status)
      ensures store.events == old(store.events) + Spoken(tool, strike, outcome, [])
      ensures outcome == Struck(strike, FileStatus(effect))
      ensures strike.Smooth? ==>
                outcome == Returned(if effect.FileApplied? then CallApplied
                                    else if effect.FileRejected? then CallRejected else CallFailed)
      ensures store.task == (if TakesEffect(strike) then Written(old(store.task), tool, effect) else old(store.task))
                            .(runs := store.task.runs)
      ensures store.jobs == old(store.jobs)
    {
      ghost var said: seq<Event> := [];
      var early := Begin(tool, strike);
      if early.Some? {
        return early.value;
      }
      outcome := CarryOutFileTool(tool, effect, strike, old(store.Now()));
      SpokenInFull(old(store.events), store.events, tool, strike, outcome, said);
    }

    /** The part of a file tool that follows its opened record. */
    method CarryOutFileTool(tool: ToolName, effect: FileEffect, strike: Strike, ghost start: Snapshot)
      returns (outcome: ToolOutcome)
      requires Sound(store.task) && Called(start, store.Now(), tool, CallRunning) && TakesEffect(strike)
      requires store.task == start.task.(runs := store.task.runs)
      modifies store`task, store`writes, store`events
      ensures Performed(start, store.Now(), tool, outcome) && outcome == Struck(strike, FileStatus(effect))
      ensures store.events == old(store.events) + Ending(tool, outcome)
      ensures store.task == Written(start.task, tool, effect).(runs := store.task.runs)
      ensures store.jobs == old(store.jobs)
    {
      ghost var begun := store.Now();
      WrittenIgnoresRuns(start.task, store.task.runs, tool, effect);
      NoteWrite(tool, effect);
      outcome := Finish(tool, FileStatus(effect), strike, start, begun);
    }

    /** Pauses the task for the user; refused without a question. */
    method RequestClarification(questions: seq<Question>, strike: Strike) returns (outcome: ToolOutcome)
      requires Sound(store.task)
      modifies store`task, store`writes, store`events
      ensures outcome == Struck(strike, if questions == [] then CallRejected else CallApplied)
      ensures Performed(old(store.Now()), store.Now(), ToolName.RequestClarification, outcome)
      ensures outcome.Returned? ==> SaidLast(store.events, ToolName.RequestClarification, outcome.status)
      ensures store.events == old(store.events) + Spoken(ToolName.RequestClarification, strike, outcome,
                if questions == [] then [] else [ClarificationRequested, TaskWaitingUser])
      ensures store.task == (if questions == [] || !TakesEffect(strike) then old(store.task)
                             else Waiting(old(store.task), questions)).(runs := store.task.runs)
      ensures store.jobs == old(store.jobs)
    {
      ghost var said: seq<Event> := if questions == [] then [] else [ClarificationRequested, TaskWaitingUser];
      var early := Begin(ToolName.RequestClarification, strike);
      if early.Some? {
        return early.value;
      }
      outcome := CarryOutClarification(questions, strike, old(store.Now()));
      SpokenInFull(old(store.events), store.events, ToolName.RequestClarification, strike, outcome, said);
    }

    method CarryOutClarification(questions: seq<Question>, strike: Strike, ghost start: Snapshot)
      returns (outcome: ToolOutcome)
      requires Sound(store.task) && Called(start, store.Now(), ToolName.RequestClarification, CallRunning)
      requires TakesEffect(strike)
      modifies store`task, store`writes, store`events
      ensures Performed(start, store.Now(), ToolName.RequestClarification, outcome)
      ensures outcome == Struck(strike, if questions == [] then CallRejected else CallApplied)
      ensures store.events == old(store.events)
                + (if questions == [] then [] else [ClarificationRequested, TaskWaitingUser])
                + Ending(ToolName.RequestClarification, outcome)
      ensures store.task == (if questions == [] then old(store.task) else Waiting(old(store.task), questions))
                            .(runs := store.task.runs)
      ensures store.jobs == old(store.jobs)
    {
      ghost var begun := store.Now();
      var status := AskQuestions(questions);
      outcome := Finish(ToolName.RequestClarification, status, strike, start, begun);
    }

    method AskQuestions(questions: seq<Question>) returns (status: CallStatus)
      requires Sound(store.task)
      modifies store`task, store`writes, store`events
      ensures status == if questions == [] then CallRejected else CallApplied
      ensures store.task == (if questions == [] then old(store.task) else Waiting(old(store.task), questions))
      ensures store.events == old(store.events)
                + (if questions == [] then [] else [ClarificationRequested, TaskWaitingUser])
      ensures store.jobs == old(store.jobs) && Quiet(old(store.Now()), store.Now())
    {
      if questions == [] {
        NoWrite(store.Now(), []);
        return CallRejected;
      }
      PauseForUser(questions);
      status := CallApplied;
    }

    method PauseForUser(questions: seq<Question>)
      requires Sound(store.task)
      modifies store`task, store`writes, store`events
      ensures store.task == Waiting(old(store.task), questions) && store.jobs == old(store.jobs)
      ensures store.events == old(store.events) + [ClarificationRequested, TaskWaitingUser]
      ensures Quiet(old(store.Now()), store.Now())
    {
      PausesArePermitted(store.task, "", None, questions, false);
      WriteTask(Waiting(store.task, questions));
      ghost var written := store.Now();
      Announce(ClarificationRequested);
      ghost var asked := store.Now();
      Announce(TaskWaitingUser);
      QuietIsTransitive(old(store.Now()), written, asked);
      QuietIsTransitive(old(store.Now()), asked, store.Now());
    }

    /** Replaces the plan of a task that has not ended. */
    method UpdatePlan(plan: PlanRequest, strike: Strike) returns (outcome: ToolOutcome)
      requires Sound(store.task)
      modifies store`task, store`writes, store`events
      ensures outcome == Struck(strike, if Terminal(old(store.task.status)) then CallRejected else CallApplied)
      ensures Performed(old(store.Now()), store.Now(), ToolName.UpdatePlan, outcome)
      ensures outcome.Returned? ==> SaidLast(store.events, ToolName.UpdatePlan, outcome.status)
      ensures store.events == old(store.events) + Spoken(ToolName.UpdatePlan, strike, outcome,
                if Terminal(old(store.task.status)) then [] else [PlanUpdated])
      ensures store.task == (if Terminal(old(store.task.status)) || !TakesEffect(strike) then old(store.task)
                             else Planned(old(store.task), plan)).(runs := store.task.runs)
      ensures store.jobs == old(store.jobs)
    {
      ghost var said: seq<Event> := if Terminal(old(store.task.status)) then [] else [PlanUpdated];
      var early := Begin(ToolName.UpdatePlan, strike);
      if early.Some? {
        return early.value;
      }
      PlanIgnoresRuns(old(store.task), store.task.runs, plan);
      outcome := CarryOutPlan(plan, strike, old(store.Now()));
      SpokenInFull(old(store.events), store.events, ToolName.UpdatePlan, strike, outcome, said);
    }

    method CarryOutPlan(plan: PlanRequest, strike: Strike, ghost start: Snapshot) returns (outcome: ToolOutcome)
      requires Sound(store.task) && Called(start, store.Now(), ToolName.UpdatePlan, CallRunning) && TakesEffect(strike)
      modifies store`task, store`writes, store`events
      ensures Performed(start, store.Now(), ToolName.UpdatePlan, outcome)
      ensures outcome == Struck(strike, if Terminal(old(store.task.status)) then CallRejected else CallApplied)
      ensures store.events == old(store.events) + (if Terminal(old(store.task.status)) then [] else [PlanUpdated])
                + Ending(ToolName.UpdatePlan, outcome)
      ensures store.task == (if Terminal(old(store.task.status)) then old(store.task)
                             else Planned(old(store.task), plan))
                             .(runs := store.task.runs)
      ensures store.jobs == old(store.jobs)
    {
      ghost var begun := store.Now();
      if Terminal(store.task.status) {
        NoWrite(begun, []);
        outcome := Finish(ToolName.UpdatePlan, CallRejected, strike, start, begun);
        return;
      }
      PlansArePermitted(store.task, plan);
      WriteTask(Planned(store.task, plan));
      ghost var written := store.Now();
      Announce(PlanUpdated);
      QuietIsTransitive(begun, written, store.Now());
      outcome := Finish(ToolName.UpdatePlan, CallApplied, strike, start, begun);
    }

    /** Runs the gate checks; a report that cannot be written leaves the call open. */
    method RunQualityGate(gate: GateRun, strike: Strike) returns (outcome: ToolOutcome)
      requires Sound(store.task)
      modifies store`task, store`writes, store`events
      ensures outcome == if TakesEffect(strike) && gate.GateRaises? then Threw(OtherKind, true)
              else Struck(strike, CallApplied)
      ensures Performed(old(store.Now()), store.Now(), ToolName.RunQualityGate, outcome)
      ensures outcome.Returned? ==> SaidLast(store.events, ToolName.RunQualityGate, outcome.status)
      ensures store.events == old(store.events) + Spoken(ToolName.RunQualityGate, strike, outcome, SaidByGate(gate))
      ensures store.task == (if gate.GateRaises? || !TakesEffect(strike) then old(store.task)
                             else WithAssessment(WithGateReport(old(store.task), gate.reportPath), gate.passed))
                            .(runs := store.task.runs)
      ensures store.jobs == old(store.jobs)
    {
      var early := Begin(ToolName.RunQualityGate, strike);
      if early.Some? {
        return early.value;
      }
      outcome := CarryOutGate(gate, strike, old(store.Now()));
      SpokenInFull(old(store.events), store.events, ToolName.RunQualityGate, strike, outcome, SaidByGate(gate));
    }

    method CarryOutGate(gate: GateRun, strike: Strike, ghost start: Snapshot) returns (outcome: ToolOutcome)
      requires Sound(store.task) && Called(start, store.Now(), ToolName.RunQualityGate, CallRunning)
      requires TakesEffect(strike)
      modifies store`task, store`writes, store`events
      ensures outcome == if gate.GateRaises? then Threw(OtherKind, true) else Struck(strike, CallApplied)
      ensures Performed(start, store.Now(), ToolName.RunQualityGate, outcome)
      ensures store.events == old(store.events) + SaidByGate(gate) + Ending(ToolName.RunQualityGate, outcome)
      ensures store.task == (if gate.GateRaises? then old(store.task)
                             else WithAssessment(WithGateReport(old(store.task), gate.reportPath), gate.passed))
                            .(runs := store.task.runs)
    {
      ghost var begun := store.Now();
      AssessGate(gate);
      if gate.GateRaises? {
        CalledThenQuiet(start, begun, store.Now(), ToolName.RunQualityGate, CallRunning);
        return Threw(OtherKind, true);
      }
      outcome := Finish(ToolName.RunQualityGate, CallApplied, strike, start, begun);
    }

    method AssessGate(gate: GateRun)
      requires Sound(store.task)
      modifies store`task, store`writes, store`events
      ensures Quiet(old(store.Now()), store.Now()) && store.events == old(store.events) + SaidByGate(gate)
      ensures store.task == if gate.GateRaises? then old(store.task)
                            else WithAssessment(WithGateReport(old(store.task), gate.reportPath), gate.passed)
    {
      Announce(GateStarted);
      ghost var started := store.Now();
      if gate.GateAssessed? {
        RecordAssessment(gate.passed, gate.reportPath);
        QuietIsTransitive(old(store.Now()), started, store.Now());
      }
    }

    method RecordAssessment(passed: bool, reportPath: string)
      requires Sound(store.task)
      modifies store`task, store`writes, store`events
      ensures store.task == WithAssessment(WithGateReport(old(store.task), reportPath), passed)
      ensures store.jobs == old(store.jobs)
      ensures store.events == old(store.events) + [GateEnded(passed)]
      ensures Quiet(old(store.Now()), store.Now())
    {
      PausesArePermitted(store.task, reportPath, Some(GateReport), [], passed);
      WriteTask(WithGateReport(store.task, reportPath));
      ghost var reported := store.Now();
      PausesArePermitted(store.task, reportPath, None, [], passed);
      WriteTask(WithAssessment(store.task, passed));
      ghost var assessed := store.Now();
      Announce(GateEnded(passed));
      QuietIsTransitive(old(store.Now()), reported, assessed);
      QuietIsTransitive(old(store.Now()), assessed, store.Now());
    }

    /**
     * Records a validation report and resolves what it settles; the resolved ids go into the report file
     * before the record is written, so a file that cannot be written changes nothing.
     */
    method RecordReport(
        kind: Option<ValidationType>, passed: Option<bool>, ids: seq<string>, path: string, fate: DiskFate,
          strike: Strike)
      returns (outcome: ToolOutcome, resolved: seq<string>)
      requires Sound(store.task)
      modifies store`task, store`writes, store`events
      ensures outcome == if kind.None? || passed.None? then Struck(strike, CallRejected)
                         else if fate.Refused? && TakesEffect(strike) then Threw(OtherKind, true)
                         else Struck(strike, CallApplied)
      ensures Performed(old(store.Now()), store.Now(), ToolName.RecordValidationReport, outcome)
      ensures outcome.Returned? ==> SaidLast(store.events, ToolName.RecordValidationReport, outcome.status)
      ensures store.events == old(store.events) + Spoken(ToolName.RecordValidationReport, strike, outcome, [])
      ensures if kind.Some? && passed.Some? && fate.Lands? && TakesEffect(strike)
              then store.task == TaskWithReport(old(store.task), kind.value, passed.value, ids,
                path).(runs := store.task.runs)
                   && resolved == if passed.value then SelectedIds(old(store.task.failures), kind.value, ids) else []
              else store.task == old(store.task).(runs := store.task.runs) && resolved == []
      ensures store.jobs == old(store.jobs)
    {
      resolved := [];
      var early := Begin(ToolName.RecordValidationReport, strike);
      if early.Some? {
        outcome := early.value;
        return;
      }
      outcome, resolved := CarryOutReport(kind, passed, ids, path, fate, strike, old(store.Now()));
      SpokenInFull(old(store.events), store.events, ToolName.RecordValidationReport, strike, outcome, []);
    }

    method CarryOutReport(
        kind: Option<ValidationType>, passed: Option<bool>, ids: seq<string>, path: string, fate: DiskFate,
        strike: Strike, ghost start: Snapshot)
      returns (outcome: ToolOutcome, resolved: seq<string>)
      requires Sound(store.task) && Called(start, store.Now(), ToolName.RecordValidationReport, CallRunning)
      requires TakesEffect(strike) && store.task == start.task.(runs := store.task.runs)
      modifies store`task, store`writes, store`events
      ensures outcome == if kind.None? || passed.None? then Struck(strike, CallRejected)
                         else if fate.Refused? then Threw(OtherKind, true)
                         else Struck(strike, CallApplied)
      ensures Performed(start, store.Now(), ToolName.RecordValidationReport, outcome)
      ensures store.events == old(store.events) + Ending(ToolName.RecordValidationReport, outcome)
      ensures if kind.Some? && passed.Some? && fate.Lands?
              then store.task == TaskWithReport(start.task, kind.value, passed.value, ids, path)
                                 .(runs := store.task.runs)
                   && resolved == if passed.value then SelectedIds(start.task.failures, kind.value, ids) else []
              else store.task == start.task.(runs := store.task.runs) && resolved == []
    {
      resolved := [];
      ghost var begun := store.Now();
      if kind.None? || passed.None? {
        NoWrite(begun, []);
        outcome := Finish(ToolName.RecordValidationReport, CallRejected, strike, start, begun);
        return;
      }
      if fate.Refused? {
        outcome := Threw(OtherKind, true);
        return;
      }
      ReportIgnoresRuns(start.task, store.task.runs, kind.value, passed.value, ids, path);
      resolved := ApplyReport(kind.value, passed.value, ids, path);
      outcome := Finish(ToolName.RecordValidationReport, CallApplied, strike, start, begun);
    }

    method ApplyReport(kind: ValidationType, passed: bool, ids: seq<string>, path: string)
      returns (resolved: seq<string>)
      requires Sound(store.task)
      modifies store`task, store`writes
      ensures store.task == TaskWithReport(old(store.task), kind, passed, ids, path)
      ensures Quiet(old(store.Now()), store.Now())
      ensures resolved == if passed then SelectedIds(old(store.task.failures), kind, ids) else []
    {
      var task := store.task;
      var updated := TaskWithReport(task, kind, passed, ids, path);
      resolved := ResolvedFailureIds(task.failures, updated.failures);
      if passed {
        ReportedIdsAreSelected(task.failures, kind, ids, path);
      } else {
        NothingResolved(task.failures);
      }
      ReportKeepsSound(task, kind, passed, ids, path);
      WriteTask(updated);
    }

    // ---- worker tools ----

    /** The checks before a single dispatch, in order; None is a refusal. */
    method Judge(t: TaskState, request: WorkerRequest) returns (input: Option<WorkerInput>)
      ensures input.None? <==> Refuses(t, store.jobs, request)
      ensures input.Some? ==> request.config.Some? && input.value == InputFor(t, request, NextJobId(t, store.jobs))
      ensures input.Some? ==> HasRoom(t, request.worker)
    {
      var paths := ProposedPaths(t, request.worker);
      if ValidateWorkerCall(t, request.worker, paths).Some? || !Buildable(t, request) {
        return None;
      }
      AdmittedCallHasRoom(t, request.worker, paths);
      var built := InputFor(t, request, NextJobId(t, store.jobs));
      var blocked := BlockedFailureTypes(store.jobs, built, MAX_FAILURES);
      input := if blocked != {} then None else Some(built);
    }

    /** A dispatch, with what a whole run needs to know of it. */
    method MeasuredDispatch(input: WorkerInput, reply: WorkerReply, fault: Fault) returns (status: CallStatus)
      requires adapter.store == store
      requires Sound(store.task) && HasRoom(store.task, input.worker)
      requires JobIdsBelow(store.task, store.jobs, input.jobId)
      modifies store
      ensures status == CallApplied || status == CallFailed
      ensures store.task.limits.callsUsed == old(store.task.limits.callsUsed) + (if status == CallApplied then 1 else 0)
      ensures JobIdsBelow(store.task, store.jobs, input.jobId + 1)
      ensures store.task == AfterDispatch(Known(), old(store.task), input, AnswerTo(input, reply), fault)
      ensures store.jobs == old(store.jobs) + JobsLeft(input, reply, fault)
      ensures store.events == old(store.events) + SaidByDispatch(input, reply, fault)
      ensures store.files == FilesLeft(old(store.files), input, reply, fault)
      ensures Quiet(old(store.Now()), store.Now())
    {
      AnswerMeans(adapter.RouteFor(input.worker), input, reply);
      DispatchMeans(store.task, input, AnswerTo(input, reply), store.jobs, Known(), fault);
      status := Dispatch(input, reply, fault);
    }

    /** The part of a dispatch that a batch counts on. */
    method DispatchMember(input: WorkerInput, reply: WorkerReply, fault: Fault) returns (status: CallStatus)
      requires adapter.store == store
      requires Sound(store.task) && HasRoom(store.task, input.worker)
      requires JobIdsBelow(store.task, store.jobs, input.jobId)
      modifies store
      ensures status == CallApplied || status == CallFailed
      ensures store.task.limits.callsUsed == old(store.task.limits.callsUsed) + (if status == CallApplied then 1 else 0)
      ensures JobIdsBelow(store.task, store.jobs, input.jobId + 1)
      ensures Quiet(old(store.Now()), store.Now())
    {
      status := MeasuredDispatch(input, reply, fault);
    }

    /** Judges a request on `t` and dispatches it; a refusal changes nothing. */
    method DispatchOnce(t: TaskState, request: WorkerRequest) returns (status: CallStatus)
      requires adapter.store == store
      requires Sound(store.task) && store.task == t.(runs := store.task.runs)
      modifies store
      ensures status == CallRejected <==> Refuses(t, old(store.jobs), request)
      ensures status == CallRejected ==> store.task == old(store.task) && store.jobs == old(store.jobs)
      ensures status != CallRejected ==>
                Dispatched(store.task, store.jobs, t, old(store.task), old(store.jobs), request)
      ensures status == CallRejected ==> store.events == old(store.events) && store.files == old(store.files)
      ensures status != CallRejected ==>
                var input := InputFor(t, request, NextJobId(t, old(store.jobs)));
                && store.events == old(store.events) + SaidByDispatch(input, request.reply, request.fault)
                && store.files == FilesLeft(old(store.files), input, request.reply, request.fault)
      ensures status == CallRejected || status == CallApplied || status == CallFailed
      ensures store.task.limits.callsUsed == old(store.task.limits.callsUsed) + (if status == CallApplied then 1 else 0)
      ensures Debounced(old(store.jobs), MAX_FAILURES) ==> Debounced(store.jobs, MAX_FAILURES)
      ensures Quiet(old(store.Now()), store.Now())
    {
      var judged := Judge(t, request);
      if judged.None? {
        NoWrite(store.Now(), []);
        return CallRejected;
      }
      ghost var jobs := store.jobs;
      status := MeasuredDispatch(judged.value, request.reply, request.fault);
      if store.jobs != jobs {
        DebouncedNext(jobs, store.jobs[|jobs|], MAX_FAILURES);
      }
    }

    /** One worker tool on a task made ready for it; `charged` says whether its dispatch returned normally. */
    method CallWorkerTool(tool: ToolName, request: WorkerRequest, strike: Strike)
      returns (outcome: ToolOutcome, charged: bool)
      requires adapter.store == store && Sound(store.task)
      modifies store
      ensures Performed(old(store.Now()), store.Now(), tool, outcome)
      ensures outcome.Returned? ==> SaidLast(store.events, tool, outcome.status)
      ensures JudgedRight(old(store.task), old(store.jobs), request, strike, outcome, charged)
      ensures !TakesEffect(strike) || Refuses(old(store.task), old(store.jobs), request) ==>
                store.task == old(store.task).(runs := store.task.runs) && store.jobs == old(store.jobs)
      ensures TakesEffect(strike) && !Refuses(old(store.task), old(store.jobs), request) ==>
                Dispatched(store.task, store.jobs, old(store.task), Opened(old(store.task), tool), old(store.jobs),
                           request)
      ensures store.task.limits.callsUsed == old(store.task.limits.callsUsed) + (if charged then 1 else 0)
      ensures Debounced(old(store.jobs), MAX_FAILURES) ==> Debounced(store.jobs, MAX_FAILURES)
    {
      var t := store.task;
      var early := Begin(tool, strike);
      if early.Some? {
        return early.value, false;
      }
      outcome, charged := CarryOutWorkerTool(t, tool, request, strike, old(store.Now()));
    }

    /**
     * What dispatching a request leaves: from the record `t`, with the input built from `judged`, the
     * record `task`, up to the call records, and the job history `now`.
     */
    ghost predicate Dispatched(
      task: TaskState, now: seq<JobRecord>, judged: TaskState, t: TaskState, jobs: seq<JobRecord>,
      request: WorkerRequest)
    {
      && request.config.Some?
      && var input := InputFor(judged, request, NextJobId(judged, jobs));
         var r := AnswerTo(input, request.reply);
      && task == AfterDispatch(Known(), t, input, r, request.fault).(runs := task.runs)
      && now == jobs + JobsLeft(input, request.reply, request.fault)
    }

    lemma {:induction false} DispatchedIgnoresRuns(
      task: TaskState, now: seq<JobRecord>, judged: TaskState, t: TaskState, jobs: seq<JobRecord>,
      request: WorkerRequest, runs: seq<AgentRun>)
      requires Dispatched(task, now, judged, t, jobs, request)
      ensures Dispatched(task.(runs := runs), now, judged, t, jobs, request)
    {
    }

    lemma {:induction false} DispatchedSends(
      task: TaskState, now: seq<JobRecord>, judged: TaskState, t: TaskState, jobs: seq<JobRecord>,
      request: WorkerRequest)
      requires Dispatched(task, now, judged, t, jobs, request)
      ensures jobs <= now && |now| <= |jobs| + 1
      ensures forall k :: |jobs| <= k < |now| ==> now[k].input.worker == request.worker
    {
    }

    /** The part of a worker tool that follows its opened record. */
    method CarryOutWorkerTool(
      t: TaskState, tool: ToolName, request: WorkerRequest, strike: Strike, ghost start: Snapshot)
      returns (outcome: ToolOutcome, charged: bool)
      requires adapter.store == store && Sound(store.task) && store.task == t.(runs := store.task.runs)
      requires Called(start, store.Now(), tool, CallRunning) && TakesEffect(strike)
      modifies store
      ensures Performed(start, store.Now(), tool, outcome)
      ensures outcome.Returned? ==> SaidLast(store.events, tool, outcome.status)
      ensures JudgedRight(t, old(store.jobs), request, strike, outcome, charged)
      ensures Refuses(t, old(store.jobs), request) ==>
                store.task == old(store.task).(runs := store.task.runs) && store.jobs == old(store.jobs)
      ensures !Refuses(t, old(store.jobs), request) ==>
                Dispatched(store.task, store.jobs, t, old(store.task), old(store.jobs), request)
      ensures store.task.limits.callsUsed == old(store.task.limits.callsUsed) + (if charged then 1 else 0)
      ensures Debounced(old(store.jobs), MAX_FAILURES) ==> Debounced(store.jobs, MAX_FAILURES)
    {
      ghost var begun := store.Now();
      var status := DispatchOnce(t, request);
      charged := status == CallApplied;
      ghost var left := store.task;
      outcome := Finish(tool, status, strike, start, begun);
      if status != CallRejected {
        DispatchedIgnoresRuns(left, store.jobs, t, old(store.task), old(store.jobs), request, store.task.runs);
      }
    }

    /** Makes an unclassified task fit for the worker, and notes which checks it asks for. */
    method PrepareDomainWorkerTask(worker: WorkerType)
      requires Sound(store.task)
      modifies store`task, store`writes, store`events
      ensures store.task == Prepared(old(store.task), worker) && store.jobs == old(store.jobs)
      ensures store.events == old(store.events)
                + (if IntakeOrUnknown(old(store.task)) && !worker.PlcRepair? then [TaskUpdated] else [])
      ensures Quiet(old(store.Now()), store.Now())
    {
      var t := store.task;
      PreparingIsPermitted(t, worker);
      NoWrite(store.Now(), []);
      if !IntakeOrUnknown(t) {
        if GateUpdates(t.gates, worker) != t.gates {
          WriteTask(Prepared(t, worker));
        }
      } else if !worker.PlcRepair? {
        WriteTask(Prepared(t, worker));
        ghost var written := store.Now();
        Announce(TaskUpdated);
        QuietIsTransitive(old(store.Now()), written, store.Now());
      }
    }

    method CallPreparedWorkerTool(tool: ToolName, request: WorkerRequest, strike: Strike)
      returns (outcome: ToolOutcome, charged: bool)
      requires adapter.store == store && Sound(store.task)
      modifies store
      ensures Performed(old(store.Now()), store.Now(), tool, outcome)
      ensures outcome.Returned? ==> SaidLast(store.events, tool, outcome.status)
      ensures JudgedRight(Prepared(old(store.task), request.worker), old(store.jobs), request, strike, outcome, charged)
      ensures strike.AtOnce? ==> store.Now() == old(store.Now())
      ensures var t := Prepared(old(store.task), request.worker);
              && (!strike.AtOnce? && (!TakesEffect(strike) || Refuses(t, old(store.jobs), request)) ==>
                    store.task == t.(runs := store.task.runs) && store.jobs == old(store.jobs))
              && (TakesEffect(strike) && !Refuses(t, old(store.jobs), request) ==>
                    Dispatched(store.task, store.jobs, t, Opened(t, tool), old(store.jobs), request))
      ensures store.task.limits.callsUsed == old(store.task.limits.callsUsed) + (if charged then 1 else 0)
      ensures Debounced(old(store.jobs), MAX_FAILURES) ==> Debounced(store.jobs, MAX_FAILURES)
    {
      if strike.AtOnce? {
        NoWrite(store.Now(), []);
        return Threw(strike.kind, false), false;
      }
      PrepareDomainWorkerTask(request.worker);
      ghost var ready := store.Now();
      outcome, charged := CallWorkerTool(tool, request, strike);
      QuietThenPerformed(old(store.Now()), ready, store.Now(), tool, outcome);
    }

    // ---- a batch of workers ----

    method BuildOne(t: TaskState, request: WorkerRequest, jobId: nat) returns (input: Option<WorkerInput>)
      ensures input.Some? <==> Buildable(t, request)
      ensures input.Some? ==> MadeFor(input.value, t, request, jobId)
    {
      input := if Buildable(t, request) then Some(InputFor(t, request, jobId)) else None;
    }

    method BuildBatch(t: TaskState, requests: seq<WorkerRequest>, base: nat)
      returns (inputs: seq<WorkerInput>, built: bool)
      ensures built <==> forall k :: 0 <= k < |requests| ==> Buildable(t, requests[k])
      ensures |inputs| <= |requests| && (built ==> |inputs| == |requests|)
      ensures forall k :: 0 <= k < |inputs| ==> MadeFor(inputs[k], t, requests[k], base + k)
    {
      inputs, built := [], true;
      for k := 0 to |requests|
        invariant |inputs| == k
        invariant forall j :: 0 <= j < k ==> Buildable(t, requests[j]) && MadeFor(inputs[j], t, requests[j], base + j)
      {
        var input := BuildOne(t, requests[k], base + k);
        if input.None? {
          built := false;
          return;
        }
        inputs := inputs + [input.value];
      }
    }

    /** Every input is checked against the same history, before any is dispatched. */
    method AnyBlocked(inputs: seq<WorkerInput>) returns (blocked: bool)
      ensures blocked <==> exists k :: 0 <= k < |inputs| && Blocked(store.jobs, inputs[k], MAX_FAILURES)
    {
      blocked := false;
      for k := 0 to |inputs|
        invariant forall j :: 0 <= j < k ==> !Blocked(store.jobs, inputs[j], MAX_FAILURES)
      {
        var types := BlockedFailureTypes(store.jobs, inputs[k], MAX_FAILURES);
        if types != {} {
          return true;
        }
      }
    }

    /** One at a time: the parallel counter never exceeds its starting value by more than one. */
    method DispatchAll(ghost t: TaskState, inputs: seq<WorkerInput>, requests: seq<WorkerRequest>, base: nat)
      returns (statuses: seq<CallStatus>)
      requires adapter.store == store && |inputs| == |requests|
      requires forall k :: 0 <= k < |inputs| ==>
                 MadeFor(inputs[k], t, requests[k], base + k) && !inputs[k].worker.PlcRepair?
      requires Sound(store.task) && !Terminal(store.task.status) && JobIdsBelow(store.task, store.jobs, base)
      requires store.task.limits.activeParallel < store.task.limits.maxParallel
      requires store.task.limits.callsUsed + |inputs| <= store.task.limits.maxCalls
      modifies store
      ensures |statuses| == |inputs|
      ensures forall k :: 0 <= k < |statuses| ==> statuses[k] == CallApplied || statuses[k] == CallFailed
      ensures store.task.limits.callsUsed == old(store.task.limits.callsUsed) + CountApplied(statuses)
      ensures Quiet(old(store.Now()), store.Now())
    {
      statuses := [];
      NoWrite(store.Now(), []);
      for k := 0 to |inputs|
        invariant |statuses| == k && forall j :: 0 <= j < k ==> statuses[j] == CallApplied || statuses[j] == CallFailed
        invariant Quiet(old(store.Now()), store.Now())
        invariant JobIdsBelow(store.task, store.jobs, base + k)
        invariant store.task.limits.callsUsed == old(store.task.limits.callsUsed) + CountApplied(statuses)
        invariant store.task.limits.callsUsed + (|inputs| - k) <= store.task.limits.maxCalls
      {
        ghost var before := store.Now();
        assert MadeFor(inputs[k], t, requests[k], base + k);
        var status := DispatchMember(inputs[k], requests[k].reply, requests[k].fault);
        CountNext(statuses, status);
        statuses := statuses + [status];
        QuietIsTransitive(old(store.Now()), before, store.Now());
      }
    }

    /** What a batch does between its call record and its result. */
    method JudgeAndDispatchBatch(t: TaskState, requests: seq<WorkerRequest>)
      returns (status: CallStatus, statuses: seq<CallStatus>)
      requires adapter.store == store && requests != []
      requires Sound(store.task) && store.task == t.(runs := store.task.runs)
      modifies store
      ensures status == CallRejected <==> RefusesBatch(t, old(store.jobs), requests)
      ensures status == CallRejected ==>
                statuses == [] && store.task == old(store.task) && store.jobs == old(store.jobs)
      ensures status != CallRejected ==>
                |statuses| == |requests| && status == if CallFailed in statuses then CallFailed else CallApplied
      ensures store.task.limits.callsUsed == old(store.task.limits.callsUsed) + CountApplied(statuses)
      ensures Quiet(old(store.Now()), store.Now())
    {
      NoWrite(store.Now(), []);
      var workers := WorkersOf(requests);
      if ValidateParallelJobs(t, workers).Some? {
        return CallRejected, [];
      }
      AdmittedBatchAdmitsEach(t, workers);
      assert ValidateWorkerCall(t, workers[0], ProposedPaths(t, workers[0])) == None;
      AdmittedCallHasRoom(t, workers[0], ProposedPaths(t, workers[0]));
      var base := NextJobId(t, store.jobs);
      var inputs, built := BuildBatch(t, requests, base);
      if !built {
        return CallRejected, [];
      }
      var blocked := AnyBlocked(inputs);
      forall k | 0 <= k < |inputs| ensures Blocked(store.jobs, inputs[k], MAX_FAILURES)
        <==> RepeatsFailure(t, store.jobs, requests[k]) {
        MadeForIsJudgedAlike(store.jobs, inputs[k], t, requests[k], base + k);
      }
      if blocked {
        return CallRejected, [];
      }
      forall k | 0 <= k < |inputs| ensures !inputs[k].worker.PlcRepair? {
        assert MadeFor(inputs[k], t, requests[k], base + k) && workers[k] in workers;
      }
      statuses := DispatchAll(t, inputs, requests, base);
      status := if CallFailed in statuses then CallFailed else CallApplied;
    }

    /**
     * A batch of workers. An empty batch is refused without opening a call record, but its result is
     * still recorded, so it closes an older record of this name if an exception left one running.
     */
    method RunParallelWorkers(requests: seq<WorkerRequest>, strike: Strike)
      returns (outcome: ToolOutcome, statuses: seq<CallStatus>)
      requires adapter.store == store && Sound(store.task)
      modifies store
      ensures requests == [] ==>
                && statuses == []
                && outcome == (if strike.Smooth? then Returned(CallRejected) else Threw(strike.kind, false))
                && store.task.runs == (if !strike.Smooth? then old(store.task.runs)
                                       else CloseCall(old(store.task.runs), old(store.task.latestRun),
                                              ToolName.RunParallelWorkers, CallRejected))
      ensures requests != [] ==> Performed(old(store.Now()), store.Now(), ToolName.RunParallelWorkers, outcome)
      ensures requests != [] && !strike.Smooth? ==> outcome == Threw(strike.kind, OpensRecord(strike))
      ensures requests != [] && strike.Smooth? ==>
                && outcome.Returned?
                && (outcome.status == CallRejected <==> RefusesBatch(old(store.task), old(store.jobs), requests))
                && (outcome.status != CallRejected ==>
                      |statuses| == |requests| && outcome.status == BatchStatus(statuses))
      ensures !TakesEffect(strike) ==> statuses == []
      ensures store.task.limits.callsUsed == old(store.task.limits.callsUsed) + CountApplied(statuses)
      ensures outcome.Returned? ==> SaidLast(store.events, ToolName.RunParallelWorkers, outcome.status)
      ensures Advances(old(store.Now()), store.Now())
    {
      statuses := [];
      NoWrite(store.Now(), []);
      if requests == [] {
        outcome := RefuseEmptyBatch(strike);
        return;
      }
      var t := store.task;
      var early := Begin(ToolName.RunParallelWorkers, strike);
      if early.Some? {
        return early.value, [];
      }
      outcome, statuses := CarryOutBatch(t, requests, strike, old(store.Now()));
    }

    method RefuseEmptyBatch(strike: Strike) returns (outcome: ToolOutcome)
      requires Sound(store.task)
      modifies store
      ensures outcome == if strike.Smooth? then Returned(CallRejected) else Threw(strike.kind, false)
      ensures store.task == old(store.task).(runs := store.task.runs)
      ensures store.task.runs == if !strike.Smooth? then old(store.task.runs)
                                 else CloseCall(old(store.task.runs), old(store.task.latestRun),
                                        ToolName.RunParallelWorkers, CallRejected)
      ensures outcome.Returned? ==> SaidLast(store.events, ToolName.RunParallelWorkers, CallRejected)
      ensures Advances(old(store.Now()), store.Now())
    {
      NoWrite(store.Now(), []);
      if !strike.Smooth? {
        return Threw(strike.kind, false);
      }
      RecordToolResult(ToolName.RunParallelWorkers, CallRejected);
      return Returned(CallRejected);
    }

    method CarryOutBatch(t: TaskState, requests: seq<WorkerRequest>, strike: Strike, ghost start: Snapshot)
      returns (outcome: ToolOutcome, statuses: seq<CallStatus>)
      requires adapter.store == store && requests != []
      requires Sound(store.task) && store.task == t.(runs := store.task.runs)
      requires Called(start, store.Now(), ToolName.RunParallelWorkers, CallRunning) && TakesEffect(strike)
      modifies store
      ensures Performed(start, store.Now(), ToolName.RunParallelWorkers, outcome)
      ensures outcome.Returned? ==> SaidLast(store.events, ToolName.RunParallelWorkers, outcome.status)
      ensures outcome == Struck(strike, if RefusesBatch(t, old(store.jobs), requests) then CallRejected
                                        else BatchStatus(statuses))
      ensures !RefusesBatch(t, old(store.jobs), requests) ==> |statuses| == |requests|
      ensures store.task.limits.callsUsed == old(store.task.limits.callsUsed) + CountApplied(statuses)
    {
      ghost var begun := store.Now();
      var status;
      status, statuses := JudgeAndDispatchBatch(t, requests);
      outcome := Finish(ToolName.RunParallelWorkers, status, strike, start, begun);
    }

    /**
     * The failure at work: a batch raises with its record open, an empty batch follows, and the raised
     * call is on record as rejected.
     */
    method EmptyBatchHidesARaise(requests: seq<WorkerRequest>, kind: ExceptionKind)
      requires adapter.store == store && Sound(store.task) && requests != []
      modifies store
      ensures store.task.runs == AddCall(old(store.task.runs), old(store.task.latestRun),
                                   CallRecord(ToolName.RunParallelWorkers, CallRejected))
    {
      var raised, none := RunParallelWorkers(requests, AfterRecord(kind));
      assert raised == Threw(kind, true);
      CloseAfterOpen(old(store.task.runs), old(store.task.latestRun), ToolName.RunParallelWorkers, CallRejected);
      var refused, nothing := RunParallelWorkers([], Smooth);
    }
  }

  /** A batch fails if some member failed. */
  function BatchStatus(statuses: seq<CallStatus>): CallStatus {
    if CallFailed in statuses then CallFailed else CallApplied
  }

  function CountApplied(statuses: seq<CallStatus>): nat {
    if statuses == [] then 0
    else CountApplied(statuses[..|statuses| - 1]) + (if statuses[|statuses| - 1] == CallApplied then 1 else 0)
  }

  lemma {:induction false} CountNext(statuses: seq<CallStatus>, status: CallStatus)
    ensures CountApplied(statuses + [status]) == CountApplied(statuses) + (if status == CallApplied then 1 else 0)
  {
  }

  /** A step that at most rewrites the call records and appends one event. */
  lemma {:induction false} RunsOnly(a: Snapshot, b: Snapshot, e: Event)
    requires Sound(a.task) && Tame(e) && b.events == a.events + [e] && b.jobs == a.jobs
    requires b.task == a.task.(runs := b.task.runs)
    requires b.writes == a.writes + [Write(b.task, |a.events|)] || (b.task == a.task && b.writes == a.writes)
    ensures Advances(a, b)
  {
  }
}
