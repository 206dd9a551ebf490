/** The verdict profiles of the eval suite (backend/app/eval/suite.py) and how they relate. */
module EvalVerdicts {
  import opened Options
  import opened SequenceMatching

  /** One worker job row as the audit reads it back, in creation order. */
  datatype JobRow = JobRow(worker: string, status: string, hasResult: bool)

  datatype Audit = Audit(taskStatus: string, jobs: seq<JobRow>, hasFinalReport: bool)

  /** What the runtime returned: its own status and the agent's error code, if any. */
  datatype RunResult = RunResult(status: string, agentError: Option<string>)

  datatype Checks = Checks(
    connectivityPass: Option<bool>,
    firstToolPass: bool,
    requiredSequencePass: bool,
    overOrchestration: bool,
    finalStatusMatch: bool)

  function ExpectedWorkers(route: string): Option<seq<string>> {
    if route == "clarify_before_dispatch" then Some([])
    else if route == "qa_direct_answer" then Some([])
    else if route == "dev_then_test" then Some(["plc-dev", "plc-test"])
    else if route == "dev_then_test_then_formal" then Some(["plc-dev", "plc-test", "plc-formal"])
    else if route == "test_only_existing_code" then Some(["plc-test"])
    else if route == "formal_only_existing_code" then Some(["plc-formal"])
    else None
  }

  function ExpectedFinalStatus(route: string): string {
    if route == "clarify_before_dispatch" then "waiting_user" else "succeeded"
  }

  function WorkerSequence(jobs: seq<JobRow>): (workers: seq<string>)
    ensures |workers| == |jobs|
    ensures forall k :: 0 <= k < |jobs| ==> workers[k] == jobs[k].worker
  {
    seq(|jobs|, k requires 0 <= k < |jobs| => jobs[k].worker)
  }

  predicate Returned(job: JobRow) {
    job.hasResult && job.status in {"completed", "partial"}
  }

  predicate AllReturned(jobs: seq<JobRow>) {
    forall k :: 0 <= k < |jobs| ==> Returned(jobs[k])
  }

  /** The workers of the jobs that came back, in order. */
  function HealthySequence(jobs: seq<JobRow>): seq<string> {
    if jobs == [] then []
    else (if Returned(jobs[0]) then [jobs[0].worker] else []) + HealthySequence(jobs[1..])
  }

  function WorkflowChecks(route: string, audit: Audit): Checks {
    var expected := match ExpectedWorkers(route) case Some(workers) => workers case None => [];
    var workers := WorkerSequence(audit.jobs);
    var statusMatch := audit.taskStatus == ExpectedFinalStatus(route);
    if expected == [] then
      Checks(None, workers == [], workers == [], workers != [], statusMatch)
    else
      var required := ContainsInOrder(workers, expected);
      Checks(
        Some(multiset(expected) <= multiset(HealthySequence(audit.jobs))),
        workers != [] && workers[0] == expected[0],
        required,
        required && |workers| > |expected|,
        statusMatch)
  }

  /** The default profile: `_evaluate_case` for any profile name other than smoke and workflow. */
  predicate StrictPasses(route: string, audit: Audit, result: RunResult) {
    && audit.taskStatus == ExpectedFinalStatus(route)
    && (match ExpectedWorkers(route)
        case Some(expected) => WorkerSequence(audit.jobs) == expected
        case None => true)
    && result.status != "error"
    && (ExpectedFinalStatus(route) != "waiting_user" ==> audit.hasFinalReport)
  }

  predicate WorkflowPasses(route: string, audit: Audit, result: RunResult) {
    var checks := WorkflowChecks(route, audit);
    && result.status != "error"
    && result.agentError == None
    && checks.connectivityPass != Some(false)
    && checks.firstToolPass
    && checks.requiredSequencePass
    && !checks.overOrchestration
    && checks.finalStatusMatch
    && (ExpectedFinalStatus(route) != "waiting_user" ==> audit.hasFinalReport)
  }

  /** The jobs ran these workers, in this order. */
  ghost predicate Ran(jobs: seq<JobRow>, workers: seq<string>) {
    |jobs| == |workers| && forall k :: 0 <= k < |jobs| ==> jobs[k].worker == workers[k]
  }

  /** The strict profile, route by route. */
  lemma {:induction false} StrictPassesIff(route: string, audit: Audit, result: RunResult)
    ensures StrictPasses(route, audit, result) <==>
              && result.status != "error"
              && (if route == "clarify_before_dispatch" then audit.taskStatus == "waiting_user"
                  else audit.taskStatus == "succeeded" && audit.hasFinalReport)
              && (route == "clarify_before_dispatch" || route == "qa_direct_answer" ==> Ran(audit.jobs, []))
              && (route == "dev_then_test" ==> Ran(audit.jobs, ["plc-dev", "plc-test"]))
              && (route == "dev_then_test_then_formal" ==> Ran(audit.jobs, ["plc-dev", "plc-test", "plc-formal"]))
              && (route == "test_only_existing_code" ==> Ran(audit.jobs, ["plc-test"]))
              && (route == "formal_only_existing_code" ==> Ran(audit.jobs, ["plc-formal"]))
  {
    if ExpectedWorkers(route).Some? {
      RanIff(audit.jobs, ExpectedWorkers(route).value);
    }
  }

  lemma {:induction false} RanIff(jobs: seq<JobRow>, workers: seq<string>)
    ensures WorkerSequence(jobs) == workers <==> Ran(jobs, workers)
  {
  }

  /** A job came back if it has a result and ended completed or partial. */
  lemma {:induction false} ReturnedIff(job: JobRow)
    ensures Returned(job) <==> job.hasResult && (job.status == "completed" || job.status == "partial")
  {
  }

  lemma {:induction false} CoversBoundsLength<T>(values: seq<T>, expected: seq<T>)
    requires Covers(values, expected)
    ensures |expected| <= |values|
    ensures |expected| == |values| ==> expected == values
    decreases |values|
  {
    if expected != [] {
      if values[0] == expected[0] {
        CoversBoundsLength(values[1..], expected[1..]);
        if |expected| == |values| {
          assert expected == [expected[0]] + expected[1..] && values == [values[0]] + values[1..];
        }
      } else {
        CoversBoundsLength(values[1..], expected);
      }
    }
  }

  lemma {:induction false} CoversItself<T>(values: seq<T>)
    ensures Covers(values, values)
  {
    if values != [] { CoversItself(values[1..]); }
  }

  /** "Required sequence and no over-orchestration" is exact equality, for every worker sequence. */
  lemma {:induction false} RequiredAndNotOverIsEquality(route: string, audit: Audit)
    ensures var checks := WorkflowChecks(route, audit);
            var expected := match ExpectedWorkers(route) case Some(workers) => workers case None => [];
            checks.requiredSequencePass && !checks.overOrchestration <==> WorkerSequence(audit.jobs) == expected
  {
    var expected := match ExpectedWorkers(route) case Some(workers) => workers case None => [];
    var workers := WorkerSequence(audit.jobs);
    CoversItself(workers);
    if expected != [] && Covers(workers, expected) {
      CoversBoundsLength(workers, expected);
    }
  }

  lemma {:induction false} AllReturnedStep(jobs: seq<JobRow>)
    requires jobs != []
    ensures AllReturned(jobs) <==> Returned(jobs[0]) && AllReturned(jobs[1..])
  {
  }

  lemma {:induction false} HealthyIsPartOfAll(jobs: seq<JobRow>)
    ensures multiset(HealthySequence(jobs)) <= multiset(WorkerSequence(jobs))
  {
    if jobs != [] {
      HealthyIsPartOfAll(jobs[1..]);
      assert WorkerSequence(jobs) == [jobs[0].worker] + WorkerSequence(jobs[1..]);
    }
  }

  lemma {:induction false} HealthyIsAllIff(jobs: seq<JobRow>)
    ensures |HealthySequence(jobs)| <= |WorkerSequence(jobs)|
    ensures |HealthySequence(jobs)| == |WorkerSequence(jobs)| <==> AllReturned(jobs)
    ensures AllReturned(jobs) ==> HealthySequence(jobs) == WorkerSequence(jobs)
  {
    if jobs != [] {
      HealthyIsAllIff(jobs[1..]);
      AllReturnedStep(jobs);
      assert WorkerSequence(jobs) == [jobs[0].worker] + WorkerSequence(jobs[1..]);
    }
  }

  /** On the expected sequence, the connectivity check asks that every single job came back. */
  lemma {:induction false} ConnectivityMeansAllReturned(jobs: seq<JobRow>)
    ensures multiset(WorkerSequence(jobs)) <= multiset(HealthySequence(jobs)) <==> AllReturned(jobs)
  {
    HealthyIsPartOfAll(jobs);
    HealthyIsAllIff(jobs);
    var all, healthy := WorkerSequence(jobs), HealthySequence(jobs);
    if multiset(all) <= multiset(healthy) {
      assert multiset(all) == multiset(healthy);
      assert |multiset(all)| == |all| && |multiset(healthy)| == |healthy|;
    }
  }

  /** Everything the workflow profile accepts, the strict profile accepts; and exactly what it adds. */
  lemma {:induction false} WorkflowIsStrictAndHealthy(route: string, audit: Audit, result: RunResult)
    ensures WorkflowPasses(route, audit, result) <==>
              && StrictPasses(route, audit, result)
              && result.agentError == None
              && AllReturned(audit.jobs)
              && (ExpectedWorkers(route) == None ==> audit.jobs == [])
  {
    var expected := match ExpectedWorkers(route) case Some(workers) => workers case None => [];
    var workers := WorkerSequence(audit.jobs);
    RequiredAndNotOverIsEquality(route, audit);
    ConnectivityMeansAllReturned(audit.jobs);
    assert workers == [] <==> audit.jobs == [];
  }

  /**
   * Without the last condition the converse fails: a route outside the table has no expected
   * sequence, so strict ignores its jobs while workflow wants none at all.
   */
  lemma {:induction false} StrictAloneIsNotEnough()
    ensures exists route, audit, result ::
      && StrictPasses(route, audit, result)
      && AllReturned(audit.jobs)
      && result.agentError == None
      && !WorkflowPasses(route, audit, result)
  {
    var audit := Audit("succeeded", [JobRow("plc-dev", "completed", true)], true);
    var result := RunResult("completed", None);
    assert WorkerSequence(audit.jobs) != [];
    assert ExpectedWorkers("other") == None;
    assert StrictPasses("other", audit, result) && !WorkflowPasses("other", audit, result);
  }
}
