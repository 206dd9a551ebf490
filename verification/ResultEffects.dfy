/**
 * What a finished worker job does to the task, read off the task before and after
 * (backend/app/workers/worker_result_handler.py): which failures appear, which are settled, which gates
 * and phases move.
 */
module ResultEffects {
  import opened Options
  import opened TextTools
  import opened RouterSchema
  import opened WorkerResults
  import opened DispatchState
  import opened FinalVerdict

  // ---- failures that come with a result ----

  /** A failure as it enters the task: a result that names no creator is its creator. */
  function Entering(f: Failure, job: nat): Failure {
    f.(createdBy := Some(if f.createdBy.Some? then f.createdBy.value else job))
  }

  /** The first of the incoming failures with its id, and no existing one has it. */
  ghost predicate IsNews(existing: seq<Failure>, incoming: seq<Failure>, j: nat) {
    && j < |incoming|
    && (forall k :: 0 <= k < |existing| ==> existing[k].id != incoming[j].id)
    && (forall i :: 0 <= i < j ==> incoming[i].id != incoming[j].id)
  }

  ghost predicate HasId(failures: seq<Failure>, id: string) {
    exists k :: 0 <= k < |failures| && failures[k].id == id
  }

  lemma {:induction false} IdNext(failures: seq<Failure>, f: Failure, id: string)
    ensures HasId(failures + [f], id) <==> HasId(failures, id) || f.id == id
  {
    assert (failures + [f])[|failures|] == f;
    if k :| 0 <= k < |failures| && failures[k].id == id { assert (failures + [f])[k].id == id; }
  }

  /** The news among the first `n` incoming failures, in their order. */
  ghost function News(existing: seq<Failure>, incoming: seq<Failure>, job: nat, n: nat): seq<Failure>
    requires n <= |incoming|
  {
    if n == 0 then []
    else
      News(existing, incoming, job, n - 1)
      + (if IsNews(existing, incoming, n - 1) then [Entering(incoming[n - 1], job)] else [])
  }

  lemma {:induction false} IdsOfMerge(existing: seq<Failure>, incoming: seq<Failure>, job: nat, id: string)
    ensures HasId(MergeFailures(existing, incoming, job), id) <==> HasId(existing, id) || HasId(incoming, id)
  {
    if incoming != [] {
      var n := |incoming| - 1;
      var before := MergeFailures(existing, incoming[..n], job);
      IdsOfMerge(existing, incoming[..n], job, id);
      IdNext(incoming[..n], incoming[n], id);
      assert incoming == incoming[..n] + [incoming[n]];
      IdNext(before, incoming[n], id);
      IdNext(before, Entering(incoming[n], job), id);
      assert (exists k | 0 <= k < |before| :: before[k].id == incoming[n].id) <==> HasId(before, incoming[n].id);
    }
  }

  /** Merging keeps what is there and appends the news, in order. */
  lemma {:induction false} MergeBringsTheNews(existing: seq<Failure>, incoming: seq<Failure>, job: nat, n: nat)
    requires n <= |incoming|
    ensures MergeFailures(existing, incoming[..n], job) == existing + News(existing, incoming, job, n)
  {
    if n > 0 {
      MergeBringsTheNews(existing, incoming, job, n - 1);
      var before := MergeFailures(existing, incoming[..n - 1], job);
      assert incoming[..n][..n - 1] == incoming[..n - 1];
      IdsOfMerge(existing, incoming[..n - 1], job, incoming[n - 1].id);
      assert (exists k | 0 <= k < |before| :: before[k].id == incoming[n - 1].id)
        <==> HasId(before, incoming[n - 1].id);
      assert IsNews(existing, incoming, n - 1) <==> !HasId(before, incoming[n - 1].id) by {
        if HasId(incoming[..n - 1], incoming[n - 1].id) {
          var i :| 0 <= i < n - 1 && incoming[..n - 1][i].id == incoming[n - 1].id;
          assert incoming[i].id == incoming[n - 1].id;
        }
      }
    }
  }

  /** The task's failures together with those a result brings. */
  function Known(t: TaskState, r: WorkerResult): seq<Failure> { MergeFailures(t.failures, r.failures, r.jobId) }

  // ---- tests and formal checks ----

  /**
   * A check that fails without naming a failure leaves exactly one more: open, blocking, of the checked
   * source, made by this job, under an id of its own.
   */
  lemma {:induction false} FailedCheckLeavesABlocker(t: TaskState, input: WorkerInput, r: WorkerResult)
    requires r.execution == ExecCompleted && r.outcome == FailedOutcome && r.failures == []
    requires r.worker == PlcTest || r.worker == PlcFormal
    ensures var after, n := ApplyResult(t, input, r), |t.failures|;
            && |after.failures| == n + 1 && after.failures[..n] == t.failures
            && after.failures[n].source == (if r.worker == PlcTest then Test else Formal)
            && after.failures[n].status == Open && after.failures[n].severity == Blocking
            && after.failures[n].createdBy == Some(r.jobId)
            && (forall k :: 0 <= k < n ==> t.failures[k].id != after.failures[n].id)
            && after.gates.hasBlockingFailure
  {
    FreshIdIsFresh(t.failures);
    assert OpenBlocking(ApplyResult(t, input, r).failures[|t.failures|]);
  }

  /** A check that fails for named reasons adds just those; either way its gate is required and not passed. */
  lemma {:induction false} FailedCheckFailsItsGate(t: TaskState, input: WorkerInput, r: WorkerResult)
    requires r.execution == ExecCompleted && r.outcome == FailedOutcome
    requires r.worker == PlcTest || r.worker == PlcFormal
    ensures var after, g := ApplyResult(t, input, r), t.gates;
            && (r.failures != [] ==> after.failures == Known(t, r))
            && (r.worker == PlcTest ==>
                  after.gates == g.(testRequired := true, latestTestPassed := Some(false),
                                    hasBlockingFailure := after.gates.hasBlockingFailure, canFinishAsSuccess := false))
            && (r.worker == PlcFormal ==>
                  after.gates == g.(formalRequired := true, latestFormalPassed := Some(false),
                                    hasBlockingFailure := after.gates.hasBlockingFailure, canFinishAsSuccess := false))
            && (after.gates.hasBlockingFailure <==> HasOpenBlocking(after.failures))
  {
  }

  /**
   * A passed check settles every open blocking failure of its source, the ones it brought itself among
   * them, by this job and on its report, and changes no other; its gate is passed.
   */
  lemma {:induction false} PassedCheckSettlesItsSource(t: TaskState, input: WorkerInput, r: WorkerResult)
    requires r.execution == ExecCompleted && r.outcome == Passed
    requires r.worker == PlcTest || r.worker == PlcFormal
    ensures var after, known, g := ApplyResult(t, input, r), Known(t, r), t.gates;
            var report := ReportPathWith(r.reportPaths, if r.worker == PlcTest then "test_report" else "formal_report");
            && |after.failures| == |known|
            && (forall k :: 0 <= k < |known| ==>
                  var f := known[k];
                  after.failures[k] == if f.status == Open && f.severity == Blocking
                                          && f.source == (if r.worker == PlcTest then Test else Formal)
                                       then f.(status := Resolved, resolvedByJob := Some(r.jobId),
                                               resolvedByPath := report)
                                       else f)
            && (r.worker == PlcTest ==>
                  after.gates == g.(testRequired := true, latestTestPassed := Some(true), regressionRequired := false,
                                    hasBlockingFailure := after.gates.hasBlockingFailure, canFinishAsSuccess := false))
            && (r.worker == PlcFormal ==>
                  after.gates == g.(formalRequired := true, latestFormalPassed := Some(true),
                                    formalRegressionRequired := false,
                                    hasBlockingFailure := after.gates.hasBlockingFailure, canFinishAsSuccess := false))
  {
  }

  // ---- repairs ----

  /** What a repair target calls the failures of a source. */
  predicate Means(target: string, source: FailureSource) {
    match source
    case Compile => target == "compile" || target == "compile_failure"
    case Test => target == "test" || target == "test_failure"
    case Formal => target == "formal" || target == "formal_validation_failure"
    case Requirement => target == "requirement"
    case Repair => target == "repair"
    case Runtime => target == "runtime"
    case UnknownSource => target == "unknown"
  }

  /** What a repair was sent for: the failures selected by id, else those its targets name, else all of them. */
  ghost predicate SentFor(input: WorkerInput, f: Failure) {
    if |input.selectedFailures| > 0 then f.id in input.selectedFailures
    else |input.repairTargets| > 0 ==>
           exists k :: 0 <= k < |input.repairTargets| && Means(input.repairTargets[k], f.source)
  }

  lemma {:induction false} RepairSettlesIff(f: Failure, input: WorkerInput)
    ensures RepairSettles(f, input) <==> f.status == Open && f.severity == Blocking && SentFor(input, f)
  {
    if k :| 0 <= k < |input.repairTargets| && input.repairTargets[k] in TargetAliases(f.source) {
      assert Means(input.repairTargets[k], f.source);
    }
    if k :| 0 <= k < |input.repairTargets| && Means(input.repairTargets[k], f.source) {
      assert input.repairTargets[k] in TargetAliases(f.source);
    }
  }

  /**
   * A passed repair settles exactly the open blocking failures it was sent for, so a blocker that came
   * with its own result stays open unless it is one of them.
   */
  lemma {:induction false} PassedRepairSettlesExactly(t: TaskState, input: WorkerInput, r: WorkerResult)
    requires r.execution == ExecCompleted && r.outcome == Passed && r.worker == PlcRepair
    ensures var after, known := ApplyResult(t, input, r), Known(t, r);
            && |after.failures| == |known|
            && forall k :: 0 <= k < |known| ==>
                 var f := known[k];
                 after.failures[k] == if f.status == Open && f.severity == Blocking && SentFor(input, f)
                                      then f.(status := Resolved, resolvedByJob := Some(r.jobId),
                                              resolvedByPath := ReportPathWith(r.reportPaths, "repair_summary"))
                                      else f
  {
    forall k | 0 <= k < |Known(t, r)| { RepairSettlesIff(Known(t, r)[k], input); }
  }

  /** A written file changes the code if it is a program or a patch, by the end of its name. */
  ghost predicate RewroteCode(r: WorkerResult) {
    exists k, ending :: 0 <= k < |r.writtenPaths| && ending in {".st", ".scl", ".fbd", ".diff", ".patch"}
                 && EndsWith(Lower(r.writtenPaths[k]), ending)
  }

  lemma {:induction false} RewroteCodeIff(r: WorkerResult)
    ensures RewroteCode(r) <==> exists k | 0 <= k < |r.writtenPaths| :: ChangesCode(r.writtenPaths[k])
  {
    if k :| 0 <= k < |r.writtenPaths| && ChangesCode(r.writtenPaths[k]) {
      var lower := Lower(r.writtenPaths[k]);
      var ending := if EndsWith(lower, ".st") then ".st" else if EndsWith(lower, ".scl") then ".scl"
        else if EndsWith(lower, ".fbd") then ".fbd" else if EndsWith(lower, ".diff") then ".diff" else ".patch";
      assert EndsWith(Lower(r.writtenPaths[k]), ending);
    }
  }

  /**
   * A passed repair uses up one round. If it rewrote code everything it may have broken must be checked
   * again, the proof too if a formal blocker was open before; if not, no regression is owed.
   */
  lemma {:induction false} PassedRepairAsksForRegression(t: TaskState, input: WorkerInput, r: WorkerResult)
    requires r.execution == ExecCompleted && r.outcome == Passed && r.worker == PlcRepair
    ensures var after, g := ApplyResult(t, input, r), t.gates;
            && after.limits == t.limits.(repairRounds := t.limits.repairRounds + 1)
            && (after.gates.regressionRequired <==> RewroteCode(r))
            && (if RewroteCode(r)
                then && after.phase == Regression
                     && after.gates.latestTestPassed == None && after.gates.latestFormalPassed == None
                     && (after.gates.formalRegressionRequired <==>
                           || g.formalRegressionRequired
                           || exists k :: 0 <= k < |t.failures| && OpenBlocking(t.failures[k])
                                    && t.failures[k].source == Formal)
                else && after.phase == QualityGate && !after.gates.formalRegressionRequired
                     && after.gates.latestTestPassed == g.latestTestPassed
                     && after.gates.latestFormalPassed == g.latestFormalPassed)
            && after.gates.testRequired == g.testRequired && after.gates.formalRequired == g.formalRequired
  {
    RewroteCodeIff(r);
  }

  // ---- development, clarification, and everything else ----

  /** A passed development forgets what was checked before, and goes on to what the task wants checked. */
  lemma {:induction false} PassedDevelopmentStartsAfresh(t: TaskState, input: WorkerInput, r: WorkerResult)
    requires r.execution == ExecCompleted && r.outcome == Passed && r.worker == PlcDev
    ensures var after, g := ApplyResult(t, input, r), t.gates;
            && after.failures == Known(t, r)
            && after.gates == g.(latestTestPassed := None, latestFormalPassed := None,
                                 regressionRequired := false, formalRegressionRequired := false,
                                 hasBlockingFailure := HasOpenBlocking(Known(t, r)), canFinishAsSuccess := false)
            && after.phase == (if g.testRequired || t.requiresTest || TestReport in t.files.roles then Testing
                               else if g.formalRequired || t.requiresFormal then FormalVerifying
                               else if t.phase == Repairing && !HasOpenBlocking(Known(t, r)) then QualityGate
                               else t.phase)
  {
  }

  /** Whether an outcome sends the task to its user: with a blocking request, or as a blocking outcome. */
  predicate SendsToUser(r: WorkerResult) {
    && r.execution == ExecCompleted && r.outcome == NeedClarification
    && (r.outcomeBlocking || (r.clarification.Some? && r.clarification.value.blocking))
  }

  /** A task waits after a result exactly if it waited before or the result sends it to its user. */
  lemma {:induction false} WaitsIff(t: TaskState, input: WorkerInput, r: WorkerResult)
    ensures ApplyResult(t, input, r).status == (if SendsToUser(r) then WaitingUser else t.status)
    ensures SendsToUser(r) ==> ApplyResult(t, input, r).phase == Clarifying
    ensures r.execution == ExecCompleted && r.outcome == NeedClarification ==>
              ApplyResult(t, input, r).failures == Known(t, r)
    ensures ApplyResult(t, input, r).questions ==
            if r.execution == ExecCompleted && r.outcome == NeedClarification && r.clarification.Some?
            then MergeQuestions(t.questions, r.clarification.value.questions) else t.questions
  {
  }

  ghost predicate Asks(questions: seq<Question>, id: string) {
    exists k :: 0 <= k < |questions| && questions[k].id == id
  }

  /** The first of the incoming questions with its id, and no existing one has it. */
  ghost predicate IsNewQuestion(existing: seq<Question>, incoming: seq<Question>, j: nat) {
    && j < |incoming|
    && (forall k :: 0 <= k < |existing| ==> existing[k].id != incoming[j].id)
    && (forall i :: 0 <= i < j ==> incoming[i].id != incoming[j].id)
  }

  ghost function NewQuestions(existing: seq<Question>, incoming: seq<Question>, n: nat): seq<Question>
    requires n <= |incoming|
  {
    if n == 0 then []
    else
      NewQuestions(existing, incoming, n - 1)
      + (if IsNewQuestion(existing, incoming, n - 1) then [incoming[n - 1]] else [])
  }

  lemma {:induction false} QuestionNext(questions: seq<Question>, q: Question, id: string)
    ensures Asks(questions + [q], id) <==> Asks(questions, id) || q.id == id
  {
    assert (questions + [q])[|questions|] == q;
    if k :| 0 <= k < |questions| && questions[k].id == id { assert (questions + [q])[k].id == id; }
  }

  lemma {:induction false} AskedInMerge(existing: seq<Question>, incoming: seq<Question>, id: string)
    ensures Asks(MergeQuestions(existing, incoming), id) <==> Asks(existing, id) || Asks(incoming, id)
  {
    if incoming != [] {
      var n := |incoming| - 1;
      var before := MergeQuestions(existing, incoming[..n]);
      AskedInMerge(existing, incoming[..n], id);
      assert incoming == incoming[..n] + [incoming[n]];
      QuestionNext(incoming[..n], incoming[n], id);
      QuestionNext(before, incoming[n], id);
    }
  }

  /** Asking keeps the questions there are and appends the new ones, in order, each id once. */
  lemma {:induction false} MergeAsksTheNew(existing: seq<Question>, incoming: seq<Question>, n: nat)
    requires n <= |incoming|
    ensures MergeQuestions(existing, incoming[..n]) == existing + NewQuestions(existing, incoming, n)
  {
    if n > 0 {
      MergeAsksTheNew(existing, incoming, n - 1);
      var before, id := MergeQuestions(existing, incoming[..n - 1]), incoming[n - 1].id;
      assert incoming[..n][..n - 1] == incoming[..n - 1];
      AskedInMerge(existing, incoming[..n - 1], id);
      assert (exists k | 0 <= k < |before| :: before[k].id == id) <==> Asks(before, id);
      assert IsNewQuestion(existing, incoming, n - 1) <==> !Asks(before, id) by {
        if Asks(incoming[..n - 1], id) {
          var i :| 0 <= i < n - 1 && incoming[..n - 1][i].id == id;
          assert incoming[i].id == id;
        }
      }
    }
  }

  /** A result that says nothing about the work: unfinished, undecided, or a development or repair that did not pass. */
  predicate SaysNothing(r: WorkerResult) {
    || r.execution != ExecCompleted
    || r.outcome == NotApplicable || r.outcome == UnknownOutcome
    || (r.outcome == FailedOutcome && (r.worker == PlcDev || r.worker == PlcRepair))
  }

  /** Such a result brings its failures and nothing else; what it wrote is filed only if it finished. */
  lemma {:induction false} NothingSaidNothingMoves(t: TaskState, input: WorkerInput, r: WorkerResult)
    requires SaysNothing(r)
    ensures var after := ApplyResult(t, input, r);
            && after.failures == Known(t, r)
            && after.gates == t.gates.(hasBlockingFailure := HasOpenBlocking(Known(t, r)), canFinishAsSuccess := false)
            && after.limits == t.limits && after.questions == t.questions && after.status == t.status
            && after.phase == (if t.phase == Repairing && !HasOpenBlocking(Known(t, r)) then QualityGate else t.phase)
            && (r.execution != ExecCompleted ==> after.files == t.files)
  {
  }

  // ---- files and reports ----

  /** A settled failure cites the first report with the word in its name, in any case, if there is one. */
  lemma {:induction false} ReportIsTheFirst(paths: seq<string>, word: string)
    ensures match ReportPathWith(paths, word)
            case None => forall k :: 0 <= k < |paths| ==> !Contains(Lower(paths[k]), word)
            case Some(path) =>
              exists k :: 0 <= k < |paths| && paths[k] == path && Contains(Lower(path), word)
                    && forall j :: 0 <= j < k ==> !Contains(Lower(paths[j]), word)
  {
    if paths != [] && !Contains(Lower(paths[0]), word) {
      ReportIsTheFirst(paths[1..], word);
      var rest := ReportPathWith(paths[1..], word);
      if rest.Some? {
        var k :| 0 <= k < |paths[1..]| && paths[1..][k] == rest.value && Contains(Lower(rest.value), word)
          && forall j :: 0 <= j < k ==> !Contains(Lower(paths[1..][j]), word);
        assert paths[k + 1] == rest.value;
        assert forall j :: 0 < j < k + 1 ==> paths[j] == paths[1..][j - 1];
      } else {
        assert forall j :: 0 < j < |paths| ==> paths[j] == paths[1..][j - 1];
      }
    }
  }

  lemma {:induction false} FiledNext(files: CurrentFiles, before: seq<string>, path: string, role: Option<FileRole>)
    requires RoleForPath(path) == role
    ensures var filed, next := ProjectFiles(files, before), ProjectFiles(files, before + [path]);
            && next.roles == (if role.Some? then filed.roles[role.value := path] else filed.roles)
            && next.allPaths == AppendUnique(filed.allPaths, path)
  {
    assert (before + [path])[..|before|] == before;
  }

  /** A role points to the last path that was written for it. */
  lemma {:induction false} LastOfItsRoleIsFiled(files: CurrentFiles, written: seq<string>, k: nat, role: FileRole)
    requires k < |written| && RoleForPath(written[k]) == Some(role)
    requires forall j :: k < j < |written| ==> RoleForPath(written[j]) != Some(role)
    ensures role in ProjectFiles(files, written).roles && ProjectFiles(files, written).roles[role] == written[k]
  {
    var n := |written| - 1;
    assert written == written[..n] + [written[n]];
    FiledNext(files, written[..n], written[n], RoleForPath(written[n]));
    if k < n {
      LastOfItsRoleIsFiled(files, written[..n], k, role);
    }
  }

  lemma {:induction false} OneOtherRoleStays(files: CurrentFiles, before: seq<string>, path: string, role: FileRole)
    requires RoleForPath(path) != Some(role)
    ensures var was, now := ProjectFiles(files, before).roles, ProjectFiles(files, before + [path]).roles;
            (role in now <==> role in was) && (role in was ==> now[role] == was[role])
  {
    FiledNext(files, before, path, RoleForPath(path));
  }

  /** A role that nothing was written for stays. */
  lemma {:induction false} OtherRolesStay(files: CurrentFiles, written: seq<string>, role: FileRole)
    requires forall k :: 0 <= k < |written| ==> RoleForPath(written[k]) != Some(role)
    ensures role in ProjectFiles(files, written).roles <==> role in files.roles
    ensures role in files.roles ==> ProjectFiles(files, written).roles[role] == files.roles[role]
  {
    if written != [] {
      var n := |written| - 1;
      assert written == written[..n] + [written[n]];
      OneOtherRoleStays(files, written[..n], written[n], role);
      OtherRolesStay(files, written[..n], role);
    }
  }

  /** The task's list of paths grows by what was written, and by nothing else. */
  lemma {:induction false} WrittenPathsAreListed(files: CurrentFiles, written: seq<string>, path: string)
    ensures files.allPaths <= ProjectFiles(files, written).allPaths
    ensures path in ProjectFiles(files, written).allPaths <==> path in files.allPaths || path in written
  {
    if written != [] {
      var n := |written| - 1;
      assert written == written[..n] + [written[n]];
      FiledNext(files, written[..n], written[n], RoleForPath(written[n]));
      WrittenPathsAreListed(files, written[..n], path);
    }
  }

  // ---- when a result is applied at all ----

  /** A result of another job raises; one for an ended task, or one that was applied before, is only kept. */
  lemma {:induction false} HandledIff(t: TaskState, input: WorkerInput, r: WorkerResult)
    ensures r.jobId != input.jobId || r.worker != input.worker ==> HandleResult(t, input, r) == HandlerRaises
    ensures r.jobId == input.jobId && r.worker == input.worker ==>
              (HandleResult(t, input, r) == NotApplied
               <==> || t.status == Succeeded || t.status == PartialFailed || t.status == Failed
                    || t.status == Cancelled || r.jobId in t.completedJobs)
  {
  }

  /** No result is applied twice. */
  lemma {:induction false} AppliedOnce(t: TaskState, input: WorkerInput, r: WorkerResult, again: WorkerResult)
    requires HandleResult(t, input, r).Applied?
    requires again.jobId == input.jobId && again.worker == input.worker
    ensures HandleResult(HandleResult(t, input, r).task, input, again) == NotApplied
  {
  }

  // ---- the end of a failed check ----

  /**
   * End to end: the task after an admitted test or formal dispatch that failed cannot be finished as a
   * success, whatever is recorded or reported after it, until the failure is settled.
   */
  lemma {:induction false} FailedCheckFailsTheTask(
    t: TaskState, input: WorkerInput, r: WorkerResult, runs: seq<AgentRun>, events: seq<Event>)
    requires r.execution == ExecCompleted && r.outcome == FailedOutcome && r.failures == []
    requires r.worker == PlcTest || r.worker == PlcFormal
    ensures var after := AfterDispatch(true, t, input, r, NoFault);
            after.gates.hasBlockingFailure && FinalStatusForStop(after.(runs := runs), events) == Failed
  {
    FailedCheckLeavesABlocker(WithActive(t, input), input, r);
  }
}
