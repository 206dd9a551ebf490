/**
 * Invoking one worker and leaving its audit trail (backend/app/mcp/adapter.py). The worker's own
 * behaviour is an arbitrary reply: a draft or one of the exceptions its clients raise.
 */
module WorkerAdapter {
  import opened Options
  import opened TextTools
  import opened RouterSchema
  import opened WorkerResults
  import opened TaskStore

  datatype ArtifactType =
    | PlcCode | RequirementsIr | IoContractFile | TestReportFile | FailingTraceFile | FormalReportFile
    | CounterexampleFile | PatchFile | RepairSummaryFile | OtherFile

  datatype WriteIntent = WriteIntent(kind: ArtifactType, name: string, content: string, fate: DiskFate)

  datatype Draft = Draft(
    outcome: OutcomeStatus, outcomeBlocking: bool, writes: seq<WriteIntent>,
    failures: seq<Failure>, clarification: Option<Clarification>)

  datatype WorkerException =
    | MockTimeout | McpTimeout | SubagentTimeout
    | McpConnection | SubagentConnection
    | MockSchemaInvalid | NormalizationFailed | McpInvalidResponse | SubagentInvalidResponse | DraftInvalid
    | MockExecution | ToolNotFound | ToolFailed | SubagentExecution
    | UnsupportedRoute | FileWriteFailed | OtherException

  datatype WorkerReply = Replies(draft: Draft, wellTyped: bool) | Raises(error: WorkerException)

  datatype Invocation = Drafted(draft: Draft) | Failing(error: WorkerException)

  const TIMEOUT_CODE := "MCP_TIMEOUT"
  const CONNECTION_CODE := "MCP_CONNECTION_ERROR"
  const SCHEMA_CODE := "WORKER_SCHEMA_INVALID"
  const EXECUTION_CODE := "WORKER_EXECUTION_ERROR"

  predicate PathMatches(path: string, kind: ArtifactType) {
    var lower := Lower(path);
    match kind
    case PlcCode =>
      (EndsWith(lower, ".st") || EndsWith(lower, ".scl") || EndsWith(lower, ".fbd") || EndsWith(lower, ".xml"))
      && !Contains(lower, "io_contract")
    case RequirementsIr => Contains(lower, "requirements")
    case IoContractFile => Contains(lower, "io_contract")
    case TestReportFile => Contains(lower, "test_report")
    case FailingTraceFile => Contains(lower, "failing_trace")
    case FormalReportFile => Contains(lower, "formal_report")
    case CounterexampleFile => Contains(lower, "counterexample")
    case PatchFile => EndsWith(lower, ".diff") || EndsWith(lower, ".patch") || Contains(lower, "patch")
    case RepairSummaryFile => Contains(lower, "repair_summary")
    case OtherFile => false
  }

  function Digits(n: nat): string {
    var last := [('0' as int + n % 10) as char];
    if n < 10 then last else Digits(n / 10) + last
  }

  /** The last path segment. */
  function BaseName(name: string): string {
    if name == "" then ""
    else
      var last := name[|name| - 1];
      var before := name[..|name| - 1];
      if last == '/' then BaseName(before)
      else if before == "" || before[|before| - 1] == '/' then [last]
      else BaseName(before) + [last]
  }

  function FirstMatch(paths: seq<string>, kind: ArtifactType): Option<string> {
    if paths == [] then None
    else if PathMatches(paths[0], kind) then Some(paths[0])
    else FirstMatch(paths[1..], kind)
  }

  /** Where a write goes: the first declared output path of its kind, else the job's report folder. */
  function FilePathForWrite(input: WorkerInput, intent: WriteIntent): string {
    match FirstMatch(input.outputPaths, intent.kind)
    case Some(path) => path
    case None => ".router/reports/" + Digits(input.jobId) + "/" + BaseName(intent.name)
  }

  predicate IsEvidencePath(path: string) {
    var lower := Lower(path);
    Contains(lower, "test_report") || Contains(lower, "failing_trace") || Contains(lower, "formal_report")
    || Contains(lower, "counterexample") || Contains(lower, "repair_summary") || Contains(lower, "patch")
    || Contains(lower, "gate_report")
  }

  function ReportPaths(paths: seq<string>): seq<string> {
    if paths == [] then []
    else
      (if StartsWith(paths[0], ".router/") || IsEvidencePath(paths[0]) then [paths[0]] else [])
      + ReportPaths(paths[1..])
  }

  function RequiredKinds(worker: WorkerType): set<ArtifactType> {
    match worker
    case PlcDev => {RequirementsIr, PlcCode, IoContractFile}
    case PlcTest => {TestReportFile}
    case PlcFormal => {FormalReportFile}
    case PlcRepair => {RepairSummaryFile}
  }

  predicate Produces(draft: Draft, kind: ArtifactType) {
    exists k | 0 <= k < |draft.writes| :: draft.writes[k].kind == kind && Strip(draft.writes[k].content) != ""
  }

  predicate WritesCode(draft: Draft) {
    exists k | 0 <= k < |draft.writes| :: draft.writes[k].kind == PlcCode
  }

  /** The draft rules that real and subagent workers are held to. */
  predicate DraftAccepted(draft: Draft, worker: WorkerType) {
    && (draft.outcome == Passed ==> forall kind | kind in RequiredKinds(worker) :: Produces(draft, kind))
    && (draft.outcome == NeedClarification ==> draft.clarification.Some?)
  }

  function InvokeWorker(route: string, input: WorkerInput, reply: WorkerReply): Invocation {
    if route == "mock" then
      match reply
      case Raises(error) => Failing(error)
      case Replies(draft, wellTyped) => if wellTyped then Drafted(draft) else Failing(MockSchemaInvalid)
    else if route == "real" || route == "subagent" then
      match reply
      case Raises(error) => Failing(error)
      case Replies(draft, _) => if DraftAccepted(draft, input.worker) then Drafted(draft) else Failing(DraftInvalid)
    else Failing(UnsupportedRoute)
  }

  function SuccessResult(input: WorkerInput, draft: Draft, written: seq<string>): WorkerResult {
    WorkerResult(input.jobId, input.worker, ExecCompleted, draft.outcome, draft.outcomeBlocking,
      written, ReportPaths(written), draft.failures, draft.clarification, None)
  }

  function ErrorResult(input: WorkerInput, execution: ExecutionStatus, code: string): WorkerResult {
    WorkerResult(input.jobId, input.worker, execution, UnknownOutcome, true, [], [], [], None, Some(code))
  }

  /** A raw result is accepted only when it belongs to the input it answers. */
  predicate BelongsTo(r: WorkerResult, input: WorkerInput) { r.jobId == input.jobId && r.worker == input.worker }

  function JobStatusFor(execution: ExecutionStatus): JobStatus {
    match execution
    case ExecCompleted => JobCompleted
    case ExecPartial => JobPartial
    case ExecTimeout => JobTimeout
    case ExecCancelled => JobCancelled
    case ExecError => JobError
  }

  // ---- what a run of writes does ----

  /** How many writes land before the first one the disk refuses. */
  function Landed(writes: seq<WriteIntent>): (n: nat)
    ensures n <= |writes|
    ensures forall k :: 0 <= k < n ==> writes[k].fate.Lands?
    ensures n < |writes| ==> writes[n].fate.Refused?
  {
    if writes == [] || writes[0].fate.Refused? then 0 else 1 + Landed(writes[1..])
  }

  function PathsFor(input: WorkerInput, writes: seq<WriteIntent>): (paths: seq<string>)
    ensures |paths| == |writes|
  {
    seq(|writes|, k requires 0 <= k < |writes| => FilePathForWrite(input, writes[k]))
  }

  function Progress(job: nat, paths: seq<string>): (events: seq<Event>)
    ensures |events| == |paths|
  {
    seq(|paths|, k requires 0 <= k < |paths| => WorkerProgress(job, paths[k]))
  }

  function FilesAfter(files: map<string, string>, input: WorkerInput, writes: seq<WriteIntent>): map<string, string> {
    if writes == [] then files
    else
      var last := writes[|writes| - 1];
      FilesAfter(files, input, writes[..|writes| - 1])[FilePathForWrite(input, last) := last.content]
  }

  lemma {:induction false} FilesAfterNext(
    files: map<string, string>, input: WorkerInput, writes: seq<WriteIntent>, w: WriteIntent)
    ensures FilesAfter(files, input, writes + [w])
         == FilesAfter(files, input, writes)[FilePathForWrite(input, w) := w.content]
    ensures PathsFor(input, writes + [w]) == PathsFor(input, writes) + [FilePathForWrite(input, w)]
  {
  }

  /** Each path ends up holding the last write that was mapped to it. */
  lemma {:induction false} LastWriteWins(
    files: map<string, string>, input: WorkerInput, writes: seq<WriteIntent>, k: nat)
    requires k < |writes|
    requires forall j :: k < j < |writes| ==> FilePathForWrite(input, writes[j]) != FilePathForWrite(input, writes[k])
    ensures FilePathForWrite(input, writes[k]) in FilesAfter(files, input, writes)
    ensures FilesAfter(files, input, writes)[FilePathForWrite(input, writes[k])] == writes[k].content
  {
    var n := |writes| - 1;
    if k < n {
      assert writes[..n][k] == writes[k];
      LastWriteWins(files, input, writes[..n], k);
    }
  }

  /** Files no write is mapped to are untouched. */
  lemma {:induction false} OtherFilesStay(
    files: map<string, string>, input: WorkerInput, writes: seq<WriteIntent>, path: string)
    requires path !in PathsFor(input, writes)
    ensures path in FilesAfter(files, input, writes) <==> path in files
    ensures path in files ==> FilesAfter(files, input, writes)[path] == files[path]
  {
    if writes != [] {
      var n := |writes| - 1;
      assert PathsFor(input, writes)[n] == FilePathForWrite(input, writes[n]);
      assert PathsFor(input, writes)[..n] == PathsFor(input, writes[..n]);
      OtherFilesStay(files, input, writes[..n], path);
    }
  }

  /** A file this draft would write: what a worker call leaves behind when it succeeds. */
  function Attempted(route: string, input: WorkerInput, reply: WorkerReply): seq<WriteIntent> {
    match InvokeWorker(route, input, reply)
    case Drafted(draft) => draft.writes[..Landed(draft.writes)]
    case Failing(_) => []
  }

  /** The exception a call ends in, if any. */
  function EndingException(route: string, input: WorkerInput, reply: WorkerReply): Option<WorkerException> {
    match InvokeWorker(route, input, reply)
    case Drafted(draft) => if Landed(draft.writes) < |draft.writes| then Some(FileWriteFailed) else None
    case Failing(error) => Some(error)
  }

  /** What each exception is reported as. */
  function ErrorAnswer(input: WorkerInput, error: WorkerException): WorkerResult {
    if error.MockTimeout? || error.McpTimeout? || error.SubagentTimeout? then
      ErrorResult(input, ExecTimeout, TIMEOUT_CODE)
    else if error.McpConnection? || error.SubagentConnection? then
      ErrorResult(input, ExecError, CONNECTION_CODE)
    else if error.MockSchemaInvalid? || error.NormalizationFailed? || error.McpInvalidResponse?
            || error.SubagentInvalidResponse? || error.DraftInvalid? then
      ErrorResult(input, ExecError, SCHEMA_CODE)
    else
      ErrorResult(input, ExecError, EXECUTION_CODE)
  }

  /** What the caller gets back, for every way a call can go. */
  function Answer(route: string, input: WorkerInput, reply: WorkerReply): WorkerResult {
    match EndingException(route, input, reply)
    case None =>
      var draft := InvokeWorker(route, input, reply).draft;
      SuccessResult(input, draft, PathsFor(input, draft.writes))
    case Some(error) => ErrorAnswer(input, error)
  }

  /** Every exception has its code, and its job ends in the status of the same name. */
  lemma {:induction false} ErrorsAreTold(input: WorkerInput, error: WorkerException)
    ensures var r := ErrorAnswer(input, error);
            && r.outcome == UnknownOutcome && r.outcomeBlocking && r.failures == [] && r.writtenPaths == []
            && (error == MockTimeout || error == McpTimeout || error == SubagentTimeout ==>
                  r.errorCode == Some("MCP_TIMEOUT") && JobStatusFor(r.execution) == JobTimeout)
            && (error == McpConnection || error == SubagentConnection ==>
                  r.errorCode == Some("MCP_CONNECTION_ERROR") && JobStatusFor(r.execution) == JobError)
            && (error == MockSchemaInvalid || error == NormalizationFailed || error == McpInvalidResponse
                || error == SubagentInvalidResponse || error == DraftInvalid ==>
                  r.errorCode == Some("WORKER_SCHEMA_INVALID") && JobStatusFor(r.execution) == JobError)
            && (error == MockExecution || error == ToolNotFound || error == ToolFailed || error == SubagentExecution
                || error == UnsupportedRoute || error == FileWriteFailed || error == OtherException ==>
                  r.errorCode == Some("WORKER_EXECUTION_ERROR") && JobStatusFor(r.execution) == JobError)
  {
  }

  lemma {:induction false} JobEndsAsAnswered(route: string, input: WorkerInput, reply: WorkerReply)
    ensures JobStatusFor(Answer(route, input, reply).execution) == JobCompleted
       <==> EndingException(route, input, reply) == None
    ensures var status := JobStatusFor(Answer(route, input, reply).execution);
            status == JobCompleted || status == JobTimeout || status == JobError
  {
  }

  /** Which drafts of real and subagent workers are accepted, worker by worker. */
  lemma {:induction false} AcceptedIff(draft: Draft, worker: WorkerType)
    ensures DraftAccepted(draft, worker) <==>
            && (draft.outcome == NeedClarification ==> draft.clarification.Some?)
            && (draft.outcome == Passed ==>
                  match worker
                  case PlcDev => Produces(draft, RequirementsIr) && Produces(draft, PlcCode)
                                 && Produces(draft, IoContractFile)
                  case PlcTest => Produces(draft, TestReportFile)
                  case PlcFormal => Produces(draft, FormalReportFile)
                  case PlcRepair => Produces(draft, RepairSummaryFile))
  {
    assert forall kind :: kind in RequiredKinds(PlcDev) <==>
        kind == RequirementsIr || kind == PlcCode || kind == IoContractFile;
  }

  /** A write counts as produced only with content that is not all white space. */
  lemma {:induction false} ProducesIff(draft: Draft, kind: ArtifactType)
    ensures Produces(draft, kind) <==>
            exists k :: 0 <= k < |draft.writes| && draft.writes[k].kind == kind && !AllSpace(draft.writes[k].content)
  {
    forall k | 0 <= k < |draft.writes|
      ensures Strip(draft.writes[k].content) == "" <==> AllSpace(draft.writes[k].content)
    {
      StripsToNothingIff(draft.writes[k].content);
    }
  }

  /** What a reply comes to on each route. */
  lemma {:induction false} InvocationMeans(route: string, input: WorkerInput, reply: WorkerReply)
    ensures var invoked := InvokeWorker(route, input, reply);
            if route != "mock" && route != "real" && route != "subagent" then invoked == Failing(UnsupportedRoute)
            else match reply
              case Raises(error) => invoked == Failing(error)
              case Replies(draft, wellTyped) =>
                if route == "mock" then invoked == (if wellTyped then Drafted(draft) else Failing(MockSchemaInvalid))
                else invoked == (if DraftAccepted(draft, input.worker) then Drafted(draft) else Failing(DraftInvalid))
  {
  }

  /** A write goes to the first declared output path of its kind; without one it stays in the job's report folder. */
  lemma {:induction false} FirstDeclaredPathTakesIt(input: WorkerInput, intent: WriteIntent)
    ensures var path := FilePathForWrite(input, intent);
            || (exists k :: 0 <= k < |input.outputPaths| && path == input.outputPaths[k]
                      && PathMatches(path, intent.kind)
                      && forall j :: 0 <= j < k ==> !PathMatches(input.outputPaths[j], intent.kind))
            || ((forall j :: 0 <= j < |input.outputPaths| ==> !PathMatches(input.outputPaths[j], intent.kind))
                && path == ".router/reports/" + Digits(input.jobId) + "/" + BaseName(intent.name))
  {
    FirstMatchIsFirst(input.outputPaths, intent.kind);
  }

  lemma {:induction false} FirstMatchIsFirst(paths: seq<string>, kind: ArtifactType)
    ensures match FirstMatch(paths, kind)
            case None => forall j :: 0 <= j < |paths| ==> !PathMatches(paths[j], kind)
            case Some(path) =>
              exists k :: 0 <= k < |paths| && path == paths[k] && PathMatches(path, kind)
                    && forall j :: 0 <= j < k ==> !PathMatches(paths[j], kind)
  {
    if paths != [] && !PathMatches(paths[0], kind) {
      FirstMatchIsFirst(paths[1..], kind);
      assert forall j :: 0 < j < |paths| ==> paths[j] == paths[1..][j - 1];
      var rest := FirstMatch(paths[1..], kind);
      if rest.Some? {
        var k :| 0 <= k < |paths[1..]| && rest.value == paths[1..][k]
          && forall j :: 0 <= j < k ==> !PathMatches(paths[1..][j], kind);
        assert paths[k + 1] == rest.value;
      }
    }
  }

  /** The name a write keeps in the report folder has no slash, so it cannot leave it that way. */
  lemma {:induction false} BaseNameHasNoSlash(name: string)
    ensures '/' !in BaseName(name)
    ensures '/' !in name ==> BaseName(name) == name
  {
    if name != "" {
      var before := name[..|name| - 1];
      BaseNameHasNoSlash(before);
      assert name == before + [name[|name| - 1]];
      assert before != "" ==> before[|before| - 1] in name;
    }
  }

  /** It is the last segment: what follows the last slash before any slashes at the very end. */
  lemma {:induction false} BaseNameIsTheLastSegment(folder: string, segment: string, slashes: string)
    requires segment != "" && '/' !in segment && (forall k :: 0 <= k < |slashes| ==> slashes[k] == '/')
    ensures BaseName(folder + "/" + segment + slashes) == segment
  {
    var name := folder + "/" + segment + slashes;
    var before := name[..|name| - 1];
    if slashes != [] {
      var fewer := slashes[..|slashes| - 1];
      assert before == folder + "/" + segment + fewer;
      BaseNameIsTheLastSegment(folder, segment, fewer);
    } else if |segment| == 1 {
      assert before[|before| - 1] == '/' && segment == [segment[0]];
    } else {
      var shorter := segment[..|segment| - 1];
      assert before == folder + "/" + shorter + "" && segment == shorter + [segment[|segment| - 1]];
      BaseNameIsTheLastSegment(folder, shorter, "");
    }
  }

  /** Different jobs have different report folders. */
  lemma {:induction false} DigitsDiffer(a: nat, b: nat)
    requires Digits(a) == Digits(b)
    ensures a == b
  {
    assert Digits(a)[|Digits(a)| - 1] == ('0' as int + a % 10) as char;
    assert Digits(b)[|Digits(b)| - 1] == ('0' as int + b % 10) as char;
    if a >= 10 && b >= 10 {
      assert Digits(a)[..|Digits(a)| - 1] == Digits(a / 10) && Digits(b)[..|Digits(b)| - 1] == Digits(b / 10);
      DigitsDiffer(a / 10, b / 10);
    }
  }

  ghost predicate NamesEvidence(text: string) {
    exists word :: Contains(text, word)
             && word in {"test_report", "failing_trace", "formal_report", "counterexample", "repair_summary",
                         "patch", "gate_report"}
  }

  lemma {:induction false} EvidenceIff(path: string)
    ensures IsEvidencePath(path) <==> NamesEvidence(Lower(path))
  {
  }

  /** The reports of an answer: what it wrote under the router's folder, and evidence by its name. */
  lemma {:induction false} ReportsAre(paths: seq<string>, path: string)
    ensures path in ReportPaths(paths) <==>
            && path in paths
            && (StartsWith(path, ".router/") || NamesEvidence(Lower(path)))
  {
    EvidenceIff(path);
    if paths != [] {
      ReportsAre(paths[1..], path);
      assert path in paths <==> path == paths[0] || path in paths[1..];
    }
  }

  const MODES: set<string> := {"mock", "real", "hybrid", "subagent"}

  datatype CallOutcome = Answered(result: WorkerResult) | CallRaises

  class McpAdapter {
    const store: Store
    const mode: string
    const overrides: map<WorkerType, string>

    constructor (store: Store, mode: string, overrides: map<WorkerType, string>)
      ensures this.store == store && this.mode == mode && this.overrides == overrides
    {
      this.store, this.mode, this.overrides := store, mode, overrides;
    }

    function RouteFor(worker: WorkerType): string {
      if worker in overrides then overrides[worker]
      else if mode == "real" || mode == "subagent" then mode
      else "mock"
    }

    /** A worker's own route if it has one, else that of a real or subagent mode, else the built-in mock. */
    lemma {:induction false} RouteMeans(worker: WorkerType)
      ensures worker in overrides ==> RouteFor(worker) == overrides[worker]
      ensures worker !in overrides && mode == "real" ==> RouteFor(worker) == "real"
      ensures worker !in overrides && mode == "subagent" ==> RouteFor(worker) == "subagent"
      ensures worker !in overrides && mode != "real" && mode != "subagent" ==> RouteFor(worker) == "mock"
    {
    }

    /** The first `k` writes are on disk, one progress event each. */
    ghost predicate Persisted(
      start: Snapshot, now: Snapshot, input: WorkerInput, writes: seq<WriteIntent>, k: nat, written: seq<string>)
      requires k <= |writes|
    {
      && written == PathsFor(input, writes[..k])
      && now == start.(
           events := start.events + Progress(input.jobId, written),
           files := FilesAfter(start.files, input, writes[..k]))
    }

    /** Writes one more file, and tells of it. */
    method PersistFileWrite(
      input: WorkerInput, writes: seq<WriteIntent>, k: nat, written0: seq<string>, ghost start: Snapshot)
      returns (written: seq<string>)
      requires k < |writes| && Persisted(start, store.Now(), input, writes, k, written0)
      modifies store
      ensures Persisted(start, store.Now(), input, writes, k + 1, written)
    {
      assert writes[..k + 1] == writes[..k] + [writes[k]];
      FilesAfterNext(start.files, input, writes[..k], writes[k]);
      var path := FilePathForWrite(input, writes[k]);
      store.PutFile(path, writes[k].content);
      written := written0 + [path];
      store.Append(WorkerProgress(input.jobId, path));
    }

    /** Writes files in order, one progress event each, until the disk refuses one. */
    method PersistFileWrites(input: WorkerInput, writes: seq<WriteIntent>) returns (written: seq<string>, refused: bool)
      modifies store
      ensures var n := Landed(writes);
              && refused == (n < |writes|)
              && written == PathsFor(input, writes[..n])
              && store.Now() == old(store.Now()).(
                   events := old(store.events) + Progress(input.jobId, written),
                   files := FilesAfter(old(store.files), input, writes[..n]))
    {
      written := [];
      ghost var n := Landed(writes);
      for k := 0 to |writes|
        invariant k <= n && Persisted(old(store.Now()), store.Now(), input, writes, k, written)
      {
        if writes[k].fate.Refused? {
          return written, true;
        }
        written := PersistFileWrite(input, writes, k, written, old(store.Now()));
      }
      refused := false;
    }

    /** Completes the job with the status its result determines and closes the trail. */
    method Complete(input: WorkerInput, result: WorkerResult, status: JobStatus)
      requires store.jobs != [] && store.jobs[|store.jobs| - 1].input == input
      modifies store
      ensures var n := |old(store.jobs)| - 1;
              store.Now() == old(store.Now()).(
                jobs := old(store.jobs)[n := JobRecord(input, status, Some(result))],
                completions := old(store.completions) + [input.jobId],
                events := old(store.events) + [WorkerEnded(input.jobId, result.execution)])
    {
      store.CompleteJob(input.jobId, result, status);
      store.Append(WorkerEnded(input.jobId, result.execution));
    }

    /** The exception paths: each names its own result and job status. */
    method Conclude(input: WorkerInput, error: WorkerException) returns (result: WorkerResult)
      requires store.jobs != [] && store.jobs[|store.jobs| - 1].input == input
      modifies store
      ensures result == ErrorAnswer(input, error)
      ensures var n := |old(store.jobs)| - 1;
              store.Now() == old(store.Now()).(
                jobs := old(store.jobs)[n := JobRecord(input, JobStatusFor(result.execution), Some(result))],
                completions := old(store.completions) + [input.jobId],
                events := old(store.events) + [WorkerEnded(input.jobId, result.execution)])
    {
      match error {
        case MockTimeout =>
          result := ErrorResult(input, ExecTimeout, TIMEOUT_CODE);
          Complete(input, result, JobTimeout);
        case McpTimeout | SubagentTimeout =>
          result := ErrorResult(input, ExecTimeout, TIMEOUT_CODE);
          Complete(input, result, JobTimeout);
        case McpConnection | SubagentConnection =>
          result := ErrorResult(input, ExecError, CONNECTION_CODE);
          Complete(input, result, JobError);
        case MockSchemaInvalid | NormalizationFailed | McpInvalidResponse | SubagentInvalidResponse | DraftInvalid =>
          result := ErrorResult(input, ExecError, SCHEMA_CODE);
          Complete(input, result, JobError);
        case _ =>
          result := ErrorResult(input, ExecError, EXECUTION_CODE);
          Complete(input, result, JobError);
      }
    }

    /**
     * One started event, one progress event per file written, one terminal event; the job is created
     * and completed exactly once, with the status its result determines. A checkpoint that breaks
     * before the worker is invoked leaves the job running, without a result.
     */
    method CallWorker(input: WorkerInput, reply: WorkerReply, broken: bool) returns (outcome: CallOutcome)
      modifies store
      ensures outcome.CallRaises? <==> broken || mode !in MODES || HasJob(old(store.jobs), input.jobId)
      ensures mode == "mock" || mode == "real" || mode == "hybrid" || mode == "subagent" <==> mode in MODES
      ensures outcome.CallRaises? ==>
                store.Now() == if mode !in MODES || HasJob(old(store.jobs), input.jobId) then old(store.Now())
                               else old(store.Now()).(
                                 events := old(store.events) + [WorkerStarted(input.jobId)],
                                 jobs := old(store.jobs) + [JobRecord(input, JobRunning, None)])
      ensures outcome.Answered? ==>
                var route := RouteFor(input.worker);
                var r, landed := outcome.result, Attempted(route, input, reply);
                && r == Answer(route, input, reply)
                && store.Now() == old(store.Now()).(
                     events := old(store.events) + [WorkerStarted(input.jobId)]
                                 + Progress(input.jobId, PathsFor(input, landed))
                                   + [WorkerEnded(input.jobId, r.execution)],
                     jobs := old(store.jobs) + [JobRecord(input, JobStatusFor(r.execution), Some(r))],
                     files := FilesAfter(old(store.files), input, landed),
                     completions := old(store.completions) + [input.jobId])
    {
      if mode !in MODES {
        return CallRaises;
      }
      var route := RouteFor(input.worker);
      var created := store.CreateJob(input);
      if !created {
        return CallRaises;
      }
      store.Append(WorkerStarted(input.jobId));
      if broken {
        return CallRaises;
      }
      var attempt := InvokeWorker(route, input, reply);
      var error: Option<WorkerException> := None;
      if attempt.Drafted? {
        var written, refused := PersistFileWrites(input, attempt.draft.writes);
        var raw := SuccessResult(input, attempt.draft, written);
        if !refused && BelongsTo(raw, input) {
          assert attempt.draft.writes[..|attempt.draft.writes|] == attempt.draft.writes;
          Complete(input, raw, JobStatusFor(raw.execution));
          return Answered(raw);
        }
        error := Some(if refused then FileWriteFailed else NormalizationFailed);
      } else {
        error := Some(attempt.error);
      }
      var result := Conclude(input, error.value);
      outcome := Answered(result);
    }
  }

  /**
   * What the caller can tell from an answer: it carries the input's identity; it is `completed` exactly
   * when a draft was accepted and every file landed; and otherwise it lists no written path, even when
   * some files did land first.
   */
  lemma {:induction false} AnswerMeans(route: string, input: WorkerInput, reply: WorkerReply)
    ensures var r := Answer(route, input, reply);
            && BelongsTo(r, input)
            && (r.execution.ExecCompleted? <==> EndingException(route, input, reply) == None)
            && (r.execution.ExecCompleted? ==>
                 r.errorCode == None && r.writtenPaths == PathsFor(input, Attempted(route, input, reply)))
            && (!r.execution.ExecCompleted? ==>
                 r.errorCode.Some? && r.writtenPaths == [] && r.failures == [] && r.outcome == UnknownOutcome)
            && !r.execution.ExecPartial? && !r.execution.ExecCancelled?
  {
  }

  /**
   * An answer lists every file it left on disk, except when the disk refused a write after others had
   * landed: then it lists none of them.
   */
  lemma {:induction false} ListsWhatItWroteIff(route: string, input: WorkerInput, reply: WorkerReply)
    ensures Answer(route, input, reply).writtenPaths == PathsFor(input, Attempted(route, input, reply)) <==>
            match InvokeWorker(route, input, reply)
            case Failing(_) => true
            case Drafted(draft) => !(0 < Landed(draft.writes) < |draft.writes|)
  {
    match InvokeWorker(route, input, reply)
    case Failing(_) =>
    case Drafted(draft) =>
      var n := Landed(draft.writes);
      if n == |draft.writes| {
        assert draft.writes[..n] == draft.writes;
      } else {
        assert |PathsFor(input, draft.writes[..n])| == n;
      }
  }

  /** The gap named above is real: a file can be on disk although the answer lists no written path. */
  lemma {:induction false} ErrorAnswerMayHideWrittenFiles(input: WorkerInput)
    ensures exists reply ::
              !Answer("mock", input, reply).execution.ExecCompleted?
              && Answer("mock", input, reply).writtenPaths == []
              && Attempted("mock", input, reply) != []
  {
    var good := WriteIntent(OtherFile, "a.txt", "x", Lands);
    var bad := WriteIntent(OtherFile, "b.txt", "y", Refused);
    var reply := Replies(Draft(FailedOutcome, false, [good, bad], [], None), true);
    assert [good, bad][1..] == [bad];
    assert Landed([bad]) == 0;
    assert Landed([good, bad]) == 1;
    assert Attempted("mock", input, reply) == [good, bad][..1];
    assert EndingException("mock", input, reply) == Some(FileWriteFailed);
  }

  lemma {:induction false} WrittenPathSetsItsRole(files: CurrentFiles, written: seq<string>, path: string)
    requires path in written && RoleForPath(path).Some?
    ensures RoleForPath(path).value in ProjectFiles(files, written).roles
  {
    var n := |written| - 1;
    if path != written[n] {
      assert path in written[..n];
      WrittenPathSetsItsRole(files, written[..n], path);
    }
  }

  lemma {:induction false} FirstMatchIsAMatch(paths: seq<string>, kind: ArtifactType, k: nat)
    requires k < |paths| && PathMatches(paths[k], kind)
    ensures FirstMatch(paths, kind).Some? && PathMatches(FirstMatch(paths, kind).value, kind)
  {
    if !PathMatches(paths[0], kind) { FirstMatchIsAMatch(paths[1..], kind, k - 1); }
  }

  lemma {:induction false} CodeWriteSetsCode(
    files: CurrentFiles, input: WorkerInput, writes: seq<WriteIntent>, w: nat, k: nat)
    requires w < |writes| && writes[w].kind == PlcCode
    requires k < |input.outputPaths| && PathMatches(input.outputPaths[k], PlcCode)
    ensures CurrentCode in ProjectFiles(files, PathsFor(input, writes)).roles
  {
    FirstMatchIsAMatch(input.outputPaths, PlcCode, k);
    var path := FilePathForWrite(input, writes[w]);
    assert RoleForPath(path) == Some(CurrentCode);
    assert PathsFor(input, writes)[w] == path;
    WrittenPathSetsItsRole(files, PathsFor(input, writes), path);
  }

  /**
   * Adapter and result handler fit together: a development that passes brings the code the handler's
   * validators insist on, so its result is never refused. The draft rules see to it for real and
   * subagent workers; the built-in mock's passed drafts always write code.
   */
  lemma {:induction false} AcceptedDevelopmentBringsCode(
    t: TaskState, route: string, input: WorkerInput, reply: WorkerReply, k: nat)
    requires input.worker.PlcDev?
    requires route == "mock" && reply.Replies? && reply.draft.outcome == Passed ==> WritesCode(reply.draft)
    requires k < |input.outputPaths| && PathMatches(input.outputPaths[k], PlcCode)
    ensures !PassedWithoutCode(t, Answer(route, input, reply))
  {
    var r := Answer(route, input, reply);
    AnswerMeans(route, input, reply);
    if r.execution.ExecCompleted? && r.outcome == Passed {
      var draft := InvokeWorker(route, input, reply).draft;
      assert route != "mock" ==> Produces(draft, PlcCode);
      assert WritesCode(draft);
      var w :| 0 <= w < |draft.writes| && draft.writes[w].kind == PlcCode;
      CodeWriteSetsCode(t.files, input, draft.writes, w, k);
    }
  }
}
