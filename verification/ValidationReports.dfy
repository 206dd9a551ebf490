/**
 * What recording a validation report does to a task (backend/app/agents/tools.py,
 * `_task_with_validation_report` and its helpers).
 */
module ValidationReports {
  import opened Options
  import opened RouterSchema

  datatype ValidationType = TestValidation | CompileValidation | FormalValidation

  function SourceOf(kind: ValidationType): FailureSource {
    match kind
    case CompileValidation => Compile
    case FormalValidation => Formal
    case TestValidation => Test
  }

  /** A passed report selects open blocking failures: by id when ids are given, by source otherwise. */
  predicate Selects(kind: ValidationType, ids: seq<string>, f: Failure) {
    OpenBlocking(f) && (if ids != [] then f.id in ids else f.source == SourceOf(kind))
  }

  function ResolvedBy(f: Failure, path: string): Failure {
    f.(status := Resolved, resolvedByPath := Some(path))
  }

  function ResolveSelected(
    failures: seq<Failure>, kind: ValidationType, ids: seq<string>, path: string): (r: seq<Failure>)
    ensures |r| == |failures|
  {
    seq(|failures|, k requires 0 <= k < |failures| =>
      if Selects(kind, ids, failures[k]) then ResolvedBy(failures[k], path) else failures[k])
  }

  method ResolveValidationFailures(failures: seq<Failure>, kind: ValidationType, ids: seq<string>, path: string)
    returns (resolved: seq<Failure>)
    ensures resolved == ResolveSelected(failures, kind, ids, path)
    ensures |resolved| == |failures| && forall k :: 0 <= k < |failures| ==>
              var f := failures[k];
              resolved[k] == if f.status == Open && f.severity == Blocking
                                && (if ids != [] then f.id in ids
                                    else f.source == match kind
                                                     case CompileValidation => Compile
                                                     case FormalValidation => Formal
                                                     case TestValidation => Test)
                             then f.(status := Resolved, resolvedByPath := Some(path)) else f
  {
    resolved := [];
    for k := 0 to |failures|
      invariant resolved == ResolveSelected(failures, kind, ids, path)[..k]
    {
      if Selects(kind, ids, failures[k]) {
        resolved := resolved + [ResolvedBy(failures[k], path)];
      } else {
        resolved := resolved + [failures[k]];
      }
    }
  }

  function TaskWithReport(t: TaskState, kind: ValidationType, passed: bool, ids: seq<string>, path: string): TaskState {
    var asked := t.gates.(
      testRequired := t.gates.testRequired || kind == TestValidation,
      formalRequired := t.gates.formalRequired || kind == FormalValidation);
    var gates :=
      if !passed then asked
      else if kind == TestValidation then asked.(latestTestPassed := Some(true), regressionRequired := false)
      else if kind == FormalValidation then asked.(latestFormalPassed := Some(true), formalRegressionRequired := false)
      else asked;
    var roles :=
      if !passed then t.files.roles
      else if kind == TestValidation then t.files.roles[TestReport := path]
      else if kind == FormalValidation then t.files.roles[FormalReport := path]
      else t.files.roles;
    var failures := if passed then ResolveSelected(t.failures, kind, ids, path) else t.failures;
    var blocked := HasOpenBlocking(failures);
    t.(
      phase := if !blocked && (t.phase.Testing? || t.phase.FormalVerifying? || t.phase.Repairing?
        || t.phase.Regression?)
               then QualityGate else t.phase,
      files := CurrentFiles(roles, AppendUnique(t.files.allPaths, path)),
      gates := gates.(hasBlockingFailure := blocked, canFinishAsSuccess := false),
      failures := failures)
  }

  lemma {:induction false} ReportIgnoresRuns(
    t: TaskState, runs: seq<AgentRun>, kind: ValidationType, passed: bool, ids: seq<string>, path: string)
    ensures TaskWithReport(t.(runs := runs), kind, passed, ids, path)
         == TaskWithReport(t, kind, passed, ids, path).(runs := runs)
  {
  }

  /** The before-image of a failure as a dict keyed by id finds it: the last one with that id. */
  function LastWithId(failures: seq<Failure>, id: string): Option<Failure> {
    if failures == [] then None
    else if failures[|failures| - 1].id == id then Some(failures[|failures| - 1])
    else LastWithId(failures[..|failures| - 1], id)
  }

  /** The ids the tool reports back as resolved. */
  function ResolvedIds(before: seq<Failure>, after: seq<Failure>): seq<string> {
    if after == [] then []
    else
      var last := after[|after| - 1];
      var previous := LastWithId(before, last.id);
      ResolvedIds(before, after[..|after| - 1])
      + (if previous.Some? && previous.value.status == Open && last.status == Resolved then [last.id] else [])
  }

  method ResolvedFailureIds(before: seq<Failure>, after: seq<Failure>) returns (ids: seq<string>)
    ensures ids == ResolvedIds(before, after)
  {
    var byId: map<string, Failure> := map[];
    for k := 0 to |before|
      invariant forall id :: LastWithId(before[..k], id) == if id in byId then Some(byId[id]) else None
    {
      assert before[..k + 1][..k] == before[..k];
      byId := byId[before[k].id := before[k]];
    }
    assert before[..|before|] == before;
    ids := [];
    for k := 0 to |after|
      invariant ids == ResolvedIds(before, after[..k])
    {
      assert after[..k + 1][..k] == after[..k];
      if after[k].id in byId && byId[after[k].id].status == Open && after[k].status == Resolved {
        ids := ids + [after[k].id];
      }
    }
    assert after[..|after|] == after;
  }

  /** The ids a report should name: those of the failures it selects, in list order. */
  ghost function SelectedIds(failures: seq<Failure>, kind: ValidationType, ids: seq<string>): seq<string> {
    if failures == [] then []
    else
      var last := failures[|failures| - 1];
      SelectedIds(failures[..|failures| - 1], kind, ids) + (if Selects(kind, ids, last) then [last.id] else [])
  }

  lemma {:induction false} LookupIsUnique(failures: seq<Failure>, k: nat)
    requires UniqueIds(failures) && k < |failures|
    ensures LastWithId(failures, failures[k].id) == Some(failures[k])
  {
    var n := |failures| - 1;
    if k < n {
      LookupIsUnique(failures[..n], k);
    }
  }

  lemma {:induction false} ReportedPrefix(
    failures: seq<Failure>, kind: ValidationType, ids: seq<string>, path: string, n: nat)
    requires UniqueIds(failures) && n <= |failures|
    ensures ResolvedIds(failures, ResolveSelected(failures, kind, ids, path)[..n])
         == SelectedIds(failures[..n], kind, ids)
  {
    if n > 0 {
      var after := ResolveSelected(failures, kind, ids, path);
      ReportedPrefix(failures, kind, ids, path, n - 1);
      LookupIsUnique(failures, n - 1);
      assert after[..n][..n - 1] == after[..n - 1] && failures[..n][..n - 1] == failures[..n - 1];
    }
  }

  /** Reported ids are exactly the selected failures, when failure ids are unique. */
  lemma {:induction false} ReportedIdsAreSelected(
    failures: seq<Failure>, kind: ValidationType, ids: seq<string>, path: string)
    requires UniqueIds(failures)
    ensures ResolvedIds(failures, ResolveSelected(failures, kind, ids, path)) == SelectedIds(failures, kind, ids)
  {
    ReportedPrefix(failures, kind, ids, path, |failures|);
    assert ResolveSelected(failures, kind, ids, path)[..|failures|] == ResolveSelected(failures, kind, ids, path);
    assert failures[..|failures|] == failures;
  }

  lemma {:induction false} UnchangedPrefix(failures: seq<Failure>, n: nat)
    requires UniqueIds(failures) && n <= |failures|
    ensures ResolvedIds(failures, failures[..n]) == []
  {
    if n > 0 {
      UnchangedPrefix(failures, n - 1);
      LookupIsUnique(failures, n - 1);
      assert failures[..n][..n - 1] == failures[..n - 1];
    }
  }

  /** A failed report leaves the failures alone, and nothing is reported as resolved. */
  lemma {:induction false} NothingResolved(failures: seq<Failure>)
    requires UniqueIds(failures)
    ensures ResolvedIds(failures, failures) == []
  {
    UnchangedPrefix(failures, |failures|);
    assert failures[..|failures|] == failures;
  }

  lemma {:induction false} ReportedMoved(failures: seq<Failure>, after: seq<Failure>, id: string)
    requires UniqueIds(failures) && |after| <= |failures|
    requires forall k :: 0 <= k < |after| ==> after[k].id == failures[k].id
    ensures id in ResolvedIds(failures, after) <==>
            exists k :: 0 <= k < |after| && failures[k].id == id
                  && failures[k].status == Open && after[k].status == Resolved
  {
    if after != [] {
      var n := |after| - 1;
      ReportedMoved(failures, after[..n], id);
      LookupIsUnique(failures, n);
    }
  }

  /**
   * What a passed report settles: of the open blocking failures those with one of the given ids, or, when
   * none are given, those of the source it reports on. They are resolved with the report as evidence, no
   * other failure changes, and the ids reported back are exactly those of the failures that moved.
   */
  lemma {:induction false} PassedReportSettles(t: TaskState, kind: ValidationType, ids: seq<string>, path: string)
    requires UniqueIds(t.failures)
    ensures var after := TaskWithReport(t, kind, true, ids, path).failures;
            && |after| == |t.failures|
            && (forall k :: 0 <= k < |after| ==>
                  var f := t.failures[k];
                  after[k] == if f.status == Open && f.severity == Blocking
                                 && (if ids != [] then f.id in ids
                                     else if kind.CompileValidation? then f.source == Compile
                                     else if kind.FormalValidation? then f.source == Formal
                                     else f.source == Test)
                              then f.(status := Resolved, resolvedByPath := Some(path)) else f)
            && (forall id :: id in ResolvedIds(t.failures, after) <==>
                  exists k :: 0 <= k < |after| && t.failures[k].id == id && after[k] != t.failures[k])
  {
    var after := TaskWithReport(t, kind, true, ids, path).failures;
    forall id ensures id in ResolvedIds(t.failures, after) <==>
              exists k :: 0 <= k < |after| && t.failures[k].id == id && after[k] != t.failures[k]
    {
      ReportedMoved(t.failures, after, id);
    }
  }

  /**
   * What a report does to gates and files: a passed test or formal report passes its gate, is filed under
   * its role and ends the regression it answers; any test or formal report makes its gate required; no
   * report says that the task may finish.
   */
  lemma {:induction false} ReportMovesItsGate(
    t: TaskState, kind: ValidationType, passed: bool, ids: seq<string>, path: string)
    ensures var after := TaskWithReport(t, kind, passed, ids, path);
            && after == t.(phase := after.phase, files := after.files, gates := after.gates, failures := after.failures)
            && path in after.files.allPaths && t.files.allPaths <= after.files.allPaths
            && (after.phase == t.phase || after.phase == QualityGate)
    ensures var g, now, roles := t.gates, TaskWithReport(t, kind, passed, ids, path).gates,
                TaskWithReport(t, kind, passed, ids, path).files.roles;
            && !now.canFinishAsSuccess
            && (now.testRequired <==> g.testRequired || kind.TestValidation?)
            && (now.formalRequired <==> g.formalRequired || kind.FormalValidation?)
            && (if passed && kind.TestValidation?
                then now.latestTestPassed == Some(true) && !now.regressionRequired && TestReport in roles
                     && roles[TestReport] == path
                else now.latestTestPassed == g.latestTestPassed && now.regressionRequired == g.regressionRequired)
            && (if passed && kind.FormalValidation?
                then now.latestFormalPassed == Some(true) && !now.formalRegressionRequired && FormalReport in roles
                     && roles[FormalReport] == path
                else now.latestFormalPassed == g.latestFormalPassed
                     && now.formalRegressionRequired == g.formalRegressionRequired)
            && (forall role :: role in roles <==>
                  || role in t.files.roles
                  || (passed && role == TestReport && kind.TestValidation?)
                  || (passed && role == FormalReport && kind.FormalValidation?))
            && (!passed ==> TaskWithReport(t, kind, passed, ids, path).failures == t.failures && roles == t.files.roles)
  {
  }

  /** Without unique ids the report can be wrong: here a failure is resolved and its id is not reported. */
  lemma {:induction false} DuplicateIdsCanHideAResolution()
    ensures exists failures, kind, ids, path ::
              SelectedIds(failures, kind, ids) != []
                && ResolvedIds(failures, ResolveSelected(failures, kind, ids, path)) == []
  {
    var blocker := Failure("f", Test, Blocking, Open, None, None, None);
    var waived := Failure("f", Test, Blocking, Waived, None, None, None);
    var failures := [blocker, waived];
    var after := ResolveSelected(failures, TestValidation, [], "p");
    assert Selects(TestValidation, [], blocker) && !Selects(TestValidation, [], waived);
    assert after[0].status == Resolved && after[1] == waived;
    assert after[..1] == [after[0]] && failures[..1] == [blocker];
    assert SelectedIds([blocker], TestValidation, []) == ["f"];
    assert LastWithId(failures, "f") == Some(waived);
    assert ResolvedIds(failures, [after[0]]) == [];
    assert ResolvedIds(failures, after) == [];
  }

  /** A report never opens, drops or reorders a failure, and a second identical report resolves nothing. */
  lemma {:induction false} ReportTwiceResolvesNothing(
    failures: seq<Failure>, kind: ValidationType, ids: seq<string>, path: string, again: string)
    ensures var once := ResolveSelected(failures, kind, ids, path);
            && (forall k :: 0 <= k < |failures| ==> !Selects(kind, ids, once[k]) && once[k].id == failures[k].id)
            && ResolveSelected(once, kind, ids, again) == once
            && SelectedIds(once, kind, ids) == []
  {
    var once := ResolveSelected(failures, kind, ids, path);
    NothingSelected(once, kind, ids);
  }

  lemma {:induction false} NothingSelected(failures: seq<Failure>, kind: ValidationType, ids: seq<string>)
    requires forall k :: 0 <= k < |failures| ==> !Selects(kind, ids, failures[k])
    ensures SelectedIds(failures, kind, ids) == []
  {
    if failures != [] { NothingSelected(failures[..|failures| - 1], kind, ids); }
  }

  /** Every report leaves a sound task sound: rules, limits and the link between flag and failures. */
  lemma {:induction false} ReportKeepsSound(
    t: TaskState, kind: ValidationType, passed: bool, ids: seq<string>, path: string)
    requires Sound(t)
    ensures Sound(TaskWithReport(t, kind, passed, ids, path))
  {
  }

  /**
   * The step the rules hinge on: a passed report leaves the repairing phase exactly when it selects
   * every blocker that was open, and then the flag is cleared and the task is at the quality gate. The
   * same goes for the other phases of checking; no other phase changes.
   */
  lemma {:induction false} LastBlockerMovesToGate(t: TaskState, kind: ValidationType, ids: seq<string>, path: string)
    requires Sound(t)
    requires t.phase == Testing || t.phase == FormalVerifying || t.phase == Repairing || t.phase == Regression
    ensures var after := TaskWithReport(t, kind, true, ids, path);
            && (after.phase == QualityGate <==>
                forall k :: 0 <= k < |t.failures| && OpenBlocking(t.failures[k]) ==> Selects(kind, ids, t.failures[k]))
            && (after.phase == QualityGate <==> !after.gates.hasBlockingFailure)
            && (after.phase != QualityGate ==> after.phase == t.phase)
  {
    var after := TaskWithReport(t, kind, true, ids, path);
    if k :| 0 <= k < |t.failures| && OpenBlocking(t.failures[k]) && !Selects(kind, ids, t.failures[k]) {
      assert OpenBlocking(after.failures[k]);
    }
  }
}
