/** Which worker dispatches the scheduler admits (backend/app/services/scheduler_guard.py). */
module SchedulerGuard {
  import opened Options
  import opened RouterSchema

  datatype Violation =
    | TerminalTask | WaitingForUser | IntakeNotClassified | RequiredClarificationOpen
    | ParallelLimitExceeded | WorkerCallLimitExceeded
    | MissingWorkerInput | MissingCurrentCode | NoOpenBlockingFailure
    | RepairLimitReached | MissingRepairEvidence | ParallelRepairUnsupported

  const REPAIR_EVIDENCE: seq<FileRole> := [TestReport, FailingTrace, FormalReport, Counterexample]

  function PathOf(t: TaskState, role: FileRole): seq<string> {
    if role in t.files.roles then [t.files.roles[role]] else []
  }

  function PathsOf(t: TaskState, roles: seq<FileRole>): seq<string> {
    if roles == [] then [] else PathOf(t, roles[0]) + PathsOf(t, roles[1..])
  }

  /** The input paths the Main Agent proposes for a worker. */
  function ProposedPaths(t: TaskState, worker: WorkerType): seq<string> {
    match worker
    case PlcDev => var paths := PathsOf(t, [RawUserRequest, Requirements]); if paths == [] then [] else paths[..1]
    case PlcTest => PathsOf(t, [Requirements, CurrentCode])
    case PlcFormal => PathsOf(t, [Requirements, CurrentCode])
    case PlcRepair => PathsOf(t, [CurrentCode] + REPAIR_EVIDENCE)
  }

  predicate NotClassified(t: TaskState) {
    t.status.Created? || t.phase.Intake? || t.taskType.UnknownType?
  }

  function CommonViolation(t: TaskState): Option<Violation> {
    if Terminal(t.status) then Some(TerminalTask)
    else if t.status.WaitingUser? then Some(WaitingForUser)
    else if NotClassified(t) then Some(IntakeNotClassified)
    else if exists k | 0 <= k < |t.questions| :: t.questions[k].required && t.questions[k].open
      then Some(RequiredClarificationOpen)
    else if t.limits.activeParallel + 1 > t.limits.maxParallel then Some(ParallelLimitExceeded)
    else if t.limits.callsUsed >= t.limits.maxCalls then Some(WorkerCallLimitExceeded)
    else None
  }

  function CodeViolation(t: TaskState, paths: seq<string>): Option<Violation> {
    if CurrentCode !in t.files.roles || t.files.roles[CurrentCode] !in paths then Some(MissingCurrentCode) else None
  }

  function RepairViolation(t: TaskState, paths: seq<string>): Option<Violation> {
    if CodeViolation(t, paths).Some? then CodeViolation(t, paths)
    else if !HasOpenBlocking(t.failures) then Some(NoOpenBlockingFailure)
    else if t.limits.repairRounds >= t.limits.maxRepairRounds then Some(RepairLimitReached)
    else if !(exists k | 0 <= k < |REPAIR_EVIDENCE| ::
                REPAIR_EVIDENCE[k] in t.files.roles && t.files.roles[REPAIR_EVIDENCE[k]] in paths)
                  then Some(MissingRepairEvidence)
    else None
  }

  /** None admits the call. */
  function ValidateWorkerCall(t: TaskState, worker: WorkerType, paths: seq<string>): Option<Violation> {
    if CommonViolation(t).Some? then CommonViolation(t)
    else match worker
      case PlcDev => if paths == [] then Some(MissingWorkerInput) else None
      case PlcRepair => RepairViolation(t, paths)
      case _ => CodeViolation(t, paths)
  }

  /** The first refusal among the jobs of a batch, if any. */
  function FirstViolation(t: TaskState, workers: seq<WorkerType>): Option<Violation> {
    if workers == [] then None
    else
      var v := ValidateWorkerCall(t, workers[0], ProposedPaths(t, workers[0]));
      if v.Some? then v else FirstViolation(t, workers[1..])
  }

  function ValidateParallelJobs(t: TaskState, workers: seq<WorkerType>): Option<Violation> {
    if t.limits.activeParallel + |workers| > t.limits.maxParallel then Some(ParallelLimitExceeded)
    else if t.limits.callsUsed + |workers| > t.limits.maxCalls then Some(WorkerCallLimitExceeded)
    else if PlcRepair in workers then Some(ParallelRepairUnsupported)
    else FirstViolation(t, workers)
  }

  /** What an admitted single dispatch may rely on. */
  lemma {:induction false} AdmittedCallHasRoom(t: TaskState, worker: WorkerType, paths: seq<string>)
    requires ValidateWorkerCall(t, worker, paths) == None
    ensures t.status.Running?
    ensures t.limits.activeParallel < t.limits.maxParallel && t.limits.callsUsed < t.limits.maxCalls
    ensures worker.PlcRepair? ==>
              HasOpenBlocking(t.failures) && t.limits.repairRounds < t.limits.maxRepairRounds
                && CurrentCode in t.files.roles
  {
  }

  lemma {:induction false} PathsOfHas(t: TaskState, roles: seq<FileRole>, role: FileRole)
    requires role in roles && role in t.files.roles
    ensures t.files.roles[role] in PathsOf(t, roles)
  {
    if roles[0] != role { PathsOfHas(t, roles[1..], role); }
  }

  ghost predicate HasEvidence(t: TaskState) {
    TestReport in t.files.roles || FailingTrace in t.files.roles || FormalReport in t.files.roles
    || Counterexample in t.files.roles
  }

  lemma {:induction false} EvidenceIsProposed(t: TaskState)
    ensures (exists k | 0 <= k < |REPAIR_EVIDENCE| ::
               REPAIR_EVIDENCE[k] in t.files.roles
               && t.files.roles[REPAIR_EVIDENCE[k]] in PathsOf(t, [CurrentCode] + REPAIR_EVIDENCE))
       <==> HasEvidence(t)
  {
    assert REPAIR_EVIDENCE[0] == TestReport && REPAIR_EVIDENCE[1] == FailingTrace;
    assert REPAIR_EVIDENCE[2] == FormalReport && REPAIR_EVIDENCE[3] == Counterexample;
    forall k | 0 <= k < |REPAIR_EVIDENCE| && REPAIR_EVIDENCE[k] in t.files.roles
      ensures t.files.roles[REPAIR_EVIDENCE[k]] in PathsOf(t, [CurrentCode] + REPAIR_EVIDENCE)
    {
      assert ([CurrentCode] + REPAIR_EVIDENCE)[k + 1] == REPAIR_EVIDENCE[k];
      PathsOfHas(t, [CurrentCode] + REPAIR_EVIDENCE, REPAIR_EVIDENCE[k]);
    }
  }

  lemma {:induction false} DevelopmentNeedsWords(t: TaskState)
    ensures ProposedPaths(t, PlcDev) != [] <==> RawUserRequest in t.files.roles || Requirements in t.files.roles
  {
    assert [RawUserRequest, Requirements][1..] == [Requirements] && [Requirements][1..] == [];
    assert PathsOf(t, [Requirements]) == PathOf(t, Requirements) + PathsOf(t, []);
  }

  /** What the common rules ask of a task, whatever the worker. */
  ghost predicate MayDispatch(t: TaskState) {
    && t.status == Running && t.phase != Intake && t.taskType != UnknownType
    && (forall k :: 0 <= k < |t.questions| ==> !(t.questions[k].required && t.questions[k].open))
    && t.limits.activeParallel < t.limits.maxParallel && t.limits.callsUsed < t.limits.maxCalls
  }

  /**
   * Exactly when a dispatch with the proposed inputs is admitted: the task is running, classified and owes
   * no required answer, both counters have room, and the files the worker works on are there; a repair
   * also needs an open blocking failure, a round left and a report to work from.
   */
  lemma {:induction false} AdmittedIff(t: TaskState, worker: WorkerType)
    ensures ValidateWorkerCall(t, worker, ProposedPaths(t, worker)) == None <==>
            && MayDispatch(t)
            && (worker == PlcDev ==> RawUserRequest in t.files.roles || Requirements in t.files.roles)
            && (worker != PlcDev ==> CurrentCode in t.files.roles)
            && (worker == PlcRepair ==>
                  && (exists k :: 0 <= k < |t.failures| && t.failures[k].status == Open
                            && t.failures[k].severity == Blocking)
                  && t.limits.repairRounds < t.limits.maxRepairRounds && HasEvidence(t))
  {
    if worker == PlcDev {
      DevelopmentNeedsWords(t);
    } else {
      ProposedPathsCarryTheCode(t, worker);
      EvidenceIsProposed(t);
      BlockersSpelledOut(t.failures);
    }
  }

  lemma {:induction false} BlockersSpelledOut(failures: seq<Failure>)
    ensures HasOpenBlocking(failures) <==>
            exists k :: 0 <= k < |failures| && failures[k].status == Open && failures[k].severity == Blocking
  {
    if k :| 0 <= k < |failures| && failures[k].status == Open && failures[k].severity == Blocking {
      assert OpenBlocking(failures[k]);
    }
  }

  /** A batch is admitted exactly if it fits both counters as a whole, has no repair, and each job is admitted. */
  lemma {:induction false} BatchAdmittedIff(t: TaskState, workers: seq<WorkerType>)
    ensures ValidateParallelJobs(t, workers) == None <==>
            && t.limits.activeParallel + |workers| <= t.limits.maxParallel
            && t.limits.callsUsed + |workers| <= t.limits.maxCalls
            && PlcRepair !in workers
            && forall k :: 0 <= k < |workers| ==>
                 ValidateWorkerCall(t, workers[k], ProposedPaths(t, workers[k])) == None
  {
    if FirstViolation(t, workers) == None {
      AdmittedBatchAdmitsEach(t, workers);
    } else {
      SomeoneIsRefused(t, workers);
    }
  }

  lemma {:induction false} SomeoneIsRefused(t: TaskState, workers: seq<WorkerType>)
    requires FirstViolation(t, workers) != None
    ensures exists k :: 0 <= k < |workers| && ValidateWorkerCall(t, workers[k], ProposedPaths(t, workers[k])) != None
  {
    if ValidateWorkerCall(t, workers[0], ProposedPaths(t, workers[0])) == None {
      SomeoneIsRefused(t, workers[1..]);
      var k :| 0 <= k < |workers[1..]|
        && ValidateWorkerCall(t, workers[1..][k], ProposedPaths(t, workers[1..][k])) != None;
      assert workers[k + 1] == workers[1..][k];
    }
  }

  lemma {:induction false} AdmittedBatchAdmitsEach(t: TaskState, workers: seq<WorkerType>)
    requires FirstViolation(t, workers) == None
    ensures forall k :: 0 <= k < |workers| ==> ValidateWorkerCall(t, workers[k], ProposedPaths(t, workers[k])) == None
  {
    if workers != [] {
      AdmittedBatchAdmitsEach(t, workers[1..]);
      forall k | 0 <= k < |workers| ensures ValidateWorkerCall(t, workers[k], ProposedPaths(t, workers[k])) == None {
        if k > 0 { assert workers[k] == workers[1..][k - 1]; }
      }
    }
  }

  /** A test, formal or repair worker is refused for lack of code exactly when the task has none. */
  lemma {:induction false} ProposedPathsCarryTheCode(t: TaskState, worker: WorkerType)
    requires !worker.PlcDev?
    ensures CodeViolation(t, ProposedPaths(t, worker)) == None <==> CurrentCode in t.files.roles
  {
    if CurrentCode in t.files.roles {
      var code := t.files.roles[CurrentCode];
      assert [Requirements, CurrentCode][1..] == [CurrentCode];
      assert code in PathsOf(t, [CurrentCode]);
      assert code in PathsOf(t, [Requirements, CurrentCode]);
      assert ([CurrentCode] + REPAIR_EVIDENCE)[0] == CurrentCode;
      assert code in PathsOf(t, [CurrentCode] + REPAIR_EVIDENCE);
    }
  }
}
