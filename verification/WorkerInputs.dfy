/** Building the input of one worker dispatch (backend/app/workers/worker_input_builder.py). */
module WorkerInputs {
  import opened TextTools
  import opened RouterSchema
  import opened SchedulerGuard
  import opened WorkerResults
  import opened WorkerAdapter

  /** The worker configuration a request resolves to: its hash and its repair targets. */
  datatype Config = Config(hash: string, repairTargets: seq<string>)

  function Dedupe(paths: seq<string>): (r: seq<string>)
    ensures forall path :: path in r <==> path in paths
  {
    if paths == [] then []
    else AppendUnique(Dedupe(paths[..|paths| - 1]), paths[|paths| - 1])
  }

  const DEFAULT_CODE_PATH := "src/plc_code.st"

  function ReportFolder(jobId: nat): string { ".router/reports/" + Digits(jobId) }

  function DefaultOutputPaths(t: TaskState, worker: WorkerType, jobId: nat): seq<string> {
    match worker
    case PlcDev =>
      [DEFAULT_CODE_PATH, ReportFolder(jobId) + "/requirements.json", ReportFolder(jobId) + "/io_contract.json"]
    case PlcTest => [ReportFolder(jobId) + "/test_report.json"]
    case PlcFormal => [ReportFolder(jobId) + "/formal_report.json"]
    case PlcRepair =>
      [if CurrentCode in t.files.roles then t.files.roles[CurrentCode] else DEFAULT_CODE_PATH,
       ReportFolder(jobId) + "/patch.diff", ReportFolder(jobId) + "/repair_summary.json"]
  }

  function OpenIds(failures: seq<Failure>): seq<string> {
    if failures == [] then []
    else (if failures[0].status == Open then [failures[0].id] else []) + OpenIds(failures[1..])
  }

  function BuildWorkerInput(t: TaskState, worker: WorkerType, config: Config, jobId: nat): WorkerInput {
    var paths := Dedupe(ProposedPaths(t, worker));
    WorkerInput(jobId, worker, paths, Dedupe(DefaultOutputPaths(t, worker, jobId)), OpenIds(t.failures),
      config.repairTargets, SignatureFor(t, worker, config))
  }

  /** What repeated failures are counted under: the worker, the set of its inputs, and its configuration. */
  function SignatureFor(t: TaskState, worker: WorkerType, config: Config): Signature {
    Signature(worker, multiset(Dedupe(ProposedPaths(t, worker))), config.hash)
  }

  lemma {:induction false} OpenIdsHasEach(failures: seq<Failure>, k: nat)
    requires k < |failures| && failures[k].status == Open
    ensures failures[k].id in OpenIds(failures)
  {
    if k > 0 { OpenIdsHasEach(failures[1..], k - 1); }
  }

  /** A dispatched repair is sent for every blocker, so a passed one settles every blocker the task had. */
  lemma {:induction false} PassedRepairSettlesEveryBlocker(
    t: TaskState, config: Config, r: WorkerResult, jobId: nat, k: nat)
    requires UniqueIds(t.failures) && k < |t.failures| && OpenBlocking(t.failures[k])
    requires r.worker.PlcRepair? && r.execution.ExecCompleted? && r.outcome == Passed && r.jobId == jobId
    ensures var after := ApplyResult(t, BuildWorkerInput(t, PlcRepair, config, jobId), r);
            k < |after.failures| && after.failures[k].id == t.failures[k].id && after.failures[k].status == Resolved
  {
    forall j | 0 <= j < |t.failures| && t.failures[j].status == Open ensures t.failures[j].id in OpenIds(t.failures) {
      OpenIdsHasEach(t.failures, j);
    }
    RepairSettlesWhatItWasSentFor(t, BuildWorkerInput(t, PlcRepair, config, jobId), r, k);
  }

  lemma {:induction false} NamesCode(path: string, stem: string)
    requires path == stem + ".st" && Lower(path) == path && 'i' !in stem
    ensures PathMatches(path, PlcCode)
  {
    assert path[|path| - |".st"|..] == ".st";
    assert "io_contract"[0] == 'i';
    LacksCharacter(path, "io_contract", 'i');
  }

  lemma {:induction false} DefaultCodePathIsCode()
    ensures PathMatches(DEFAULT_CODE_PATH, PlcCode)
  {
    NamesCode(DEFAULT_CODE_PATH, "src/plc_code");
  }

  /** No development is refused: what passes brings the code that the result handler insists on. */
  lemma {:induction false} DevelopmentIsNeverRefused(
    t: TaskState, config: Config, jobId: nat, route: string, reply: WorkerReply, after: TaskState)
    requires route == "mock" && reply.Replies? && reply.draft.outcome == Passed ==> WritesCode(reply.draft)
    ensures !PassedWithoutCode(after, Answer(route, BuildWorkerInput(t, PlcDev, config, jobId), reply))
  {
    var input := BuildWorkerInput(t, PlcDev, config, jobId);
    DefaultCodePathIsCode();
    assert DefaultOutputPaths(t, PlcDev, jobId)[0] == DEFAULT_CODE_PATH;
    assert DEFAULT_CODE_PATH in input.outputPaths;
    var k :| 0 <= k < |input.outputPaths| && input.outputPaths[k] == DEFAULT_CODE_PATH;
    AcceptedDevelopmentBringsCode(after, route, input, reply, k);
  }
}
