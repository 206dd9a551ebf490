/** Refusing to repeat a worker dispatch that keeps failing the same way (backend/app/agents/tools.py). */
module RetryDebounce {
  import opened Options
  import opened Sequences
  import opened RouterSchema
  import opened WorkerResults
  import opened TaskStore

  const MAX_FAILURES: nat := 2

  function SourceName(source: FailureSource): string {
    match source
    case Compile => "compile"
    case Test => "test"
    case Formal => "formal"
    case Requirement => "requirement"
    case Repair => "repair"
    case Runtime => "runtime"
    case UnknownSource => "unknown"
  }

  function WorkerName(worker: WorkerType): string {
    match worker
    case PlcDev => "plc-dev"
    case PlcTest => "plc-test"
    case PlcFormal => "plc-formal"
    case PlcRepair => "plc-repair"
  }

  /** The failure sources in the alphabetical order of their names. */
  const SORTED_SOURCES: seq<FailureSource> := [Compile, Formal, Repair, Requirement, Runtime, Test, UnknownSource]

  function SourcesOf(failures: seq<Failure>, among: seq<FailureSource>): seq<string> {
    if among == [] then []
    else
      (if exists k | 0 <= k < |failures| :: failures[k].source == among[0] then [SourceName(among[0])] else [])
      + SourcesOf(failures, among[1..])
  }

  /** How a result counts against its signature; empty when it is no failure. */
  function FailureTypes(r: WorkerResult): seq<string> {
    var fallback := if r.errorCode.Some? then [r.errorCode.value] else [];
    if !r.execution.ExecCompleted? then (if fallback != [] then fallback else ["worker_execution_failed"])
    else if r.outcome != FailedOutcome then []
    else
      var sources := SourcesOf(r.failures, SORTED_SOURCES);
      if sources != [] then sources else if fallback != [] then fallback else [WorkerName(r.worker) + "_failed"]
  }

  predicate Concerns(job: JobRecord, input: WorkerInput) {
    job.input.worker == input.worker && job.input.signature == input.signature
  }

  /** The failure types one past job holds against this input. */
  function HeldAgainst(job: JobRecord, input: WorkerInput): seq<string> {
    if Concerns(job, input) && job.result.Some? then FailureTypes(job.result.value) else []
  }

  function Tally(jobs: seq<JobRecord>, input: WorkerInput, failureType: string): nat {
    if jobs == [] then 0
    else
      Tally(jobs[..|jobs| - 1], input, failureType)
      + (if failureType in HeldAgainst(jobs[|jobs| - 1], input) then 1 else 0)
  }

  ghost predicate Blocked(jobs: seq<JobRecord>, input: WorkerInput, maxFailures: nat) {
    exists failureType :: Tally(jobs, input, failureType) >= maxFailures
  }

  // ---- the retry check ----

  function CountOf(counts: map<string, nat>, failureType: string): nat {
    if failureType in counts then counts[failureType] else 0
  }

  function NamesOf(sources: seq<FailureSource>): seq<string> {
    if sources == [] then [] else [SourceName(sources[0])] + NamesOf(sources[1..])
  }

  lemma {:induction false} NoTypeTwice(failures: seq<Failure>, among: seq<FailureSource>)
    requires NoRepeats(NamesOf(among))
    ensures NoRepeats(SourcesOf(failures, among))
    ensures forall name :: name in SourcesOf(failures, among) ==> name in NamesOf(among)
  {
    if among != [] {
      var later := NamesOf(among[1..]);
      assert NamesOf(among)[1..] == later;
      assert NoRepeats(later) by {
        forall i, j | 0 <= i < j < |later| ensures later[i] != later[j] {
          assert later[i] == NamesOf(among)[i + 1] && later[j] == NamesOf(among)[j + 1];
        }
      }
      forall j | 0 <= j < |later| ensures later[j] != SourceName(among[0]) {
        assert later[j] == NamesOf(among)[j + 1] && NamesOf(among)[0] == SourceName(among[0]);
      }
      NoTypeTwice(failures, among[1..]);
      PrependNew(SourceName(among[0]), SourcesOf(failures, among[1..]));
    }
  }

  lemma {:induction false} PrependNew(name: string, rest: seq<string>)
    requires NoRepeats(rest) && name !in rest
    ensures NoRepeats([name] + rest) && NoRepeats([] + rest)
  {
  }

  lemma {:induction false} SourceNamesDiffer()
    ensures NoRepeats(NamesOf(SORTED_SOURCES))
  {
  }

  lemma {:induction false} HeldTypesAreDistinct(job: JobRecord, input: WorkerInput)
    ensures NoRepeats(HeldAgainst(job, input))
  {
    if job.result.Some? {
      SourceNamesDiffer();
      NoTypeTwice(job.result.value.failures, SORTED_SOURCES);
    }
  }

  // ---- what one past job holds against an input ----

  ghost predicate Lists(failures: seq<Failure>, source: FailureSource) {
    exists k :: 0 <= k < |failures| && failures[k].source == source
  }

  lemma {:induction false} SourcesListed(failures: seq<Failure>, among: seq<FailureSource>, name: string)
    ensures name in SourcesOf(failures, among) <==>
            exists source :: source in among && Lists(failures, source) && SourceName(source) == name
  {
    if among != [] {
      SourcesListed(failures, among[1..], name);
      assert forall source :: source in among <==> source == among[0] || source in among[1..];
      assert Lists(failures, among[0]) <==> exists k | 0 <= k < |failures| :: failures[k].source == among[0];
    }
  }

  /**
   * A job holds something against an input exactly if it was sent to the same worker with the same
   * signature, has a result, and was not completed or came out failed.
   */
  lemma {:induction false} HoldsSomethingIff(job: JobRecord, input: WorkerInput)
    ensures HeldAgainst(job, input) != [] <==>
            && job.input.worker == input.worker && job.input.signature == input.signature
            && job.result.Some?
            && (job.result.value.execution != ExecCompleted || job.result.value.outcome == FailedOutcome)
  {
  }

  lemma {:induction false} HoldsNames(job: JobRecord, input: WorkerInput, name: string)
    requires job.input.worker == input.worker && job.input.signature == input.signature && job.result.Some?
    requires job.result.value.execution == ExecCompleted && job.result.value.outcome == FailedOutcome
    requires job.result.value.failures != []
    ensures name in HeldAgainst(job, input) <==>
            exists source :: Lists(job.result.value.failures, source) && SourceName(source) == name
  {
    var failures := job.result.value.failures;
    var first := failures[0].source;
    assert Lists(failures, first);
    EverySource(first);
    SourcesListed(failures, SORTED_SOURCES, SourceName(first));
    SourcesListed(failures, SORTED_SOURCES, name);
    if source :| Lists(failures, source) && SourceName(source) == name { EverySource(source); }
  }

  lemma {:induction false} EverySource(source: FailureSource)
    ensures source in SORTED_SOURCES
  {
    assert SORTED_SOURCES[0] == Compile && SORTED_SOURCES[1] == Formal && SORTED_SOURCES[2] == Repair
      && SORTED_SOURCES[3] == Requirement && SORTED_SOURCES[4] == Runtime && SORTED_SOURCES[5] == Test
      && SORTED_SOURCES[6] == UnknownSource;
  }

  /** A completed failure that lists failures holds exactly the names of their sources. */
  lemma {:induction false} HoldsItsSources(job: JobRecord, input: WorkerInput, name: string)
    requires job.input.worker == input.worker && job.input.signature == input.signature && job.result.Some?
    requires job.result.value.execution == ExecCompleted && job.result.value.outcome == FailedOutcome
    requires job.result.value.failures != []
    ensures var failures := job.result.value.failures;
            name in HeldAgainst(job, input) <==>
            || (name == "compile" && Lists(failures, Compile))
            || (name == "test" && Lists(failures, Test))
            || (name == "formal" && Lists(failures, Formal))
            || (name == "requirement" && Lists(failures, Requirement))
            || (name == "repair" && Lists(failures, Repair))
            || (name == "runtime" && Lists(failures, Runtime))
            || (name == "unknown" && Lists(failures, UnknownSource))
  {
    HoldsNames(job, input, name);
    assert SourceName(Compile) == "compile" && SourceName(Test) == "test" && SourceName(Formal) == "formal"
      && SourceName(Requirement) == "requirement" && SourceName(Repair) == "repair"
      && SourceName(Runtime) == "runtime" && SourceName(UnknownSource) == "unknown";
  }

  /** Without listed failures, or without having finished, it holds one thing: its error code if it has one. */
  lemma {:induction false} HoldsItsError(job: JobRecord, input: WorkerInput)
    requires job.input.worker == input.worker && job.input.signature == input.signature && job.result.Some?
    ensures var r := job.result.value;
            && (r.execution != ExecCompleted ==>
                  HeldAgainst(job, input)
                  == [if r.errorCode.Some? then r.errorCode.value else "worker_execution_failed"])
            && (r.execution == ExecCompleted && r.outcome == FailedOutcome && r.failures == [] ==>
                  HeldAgainst(job, input)
                  == [if r.errorCode.Some? then r.errorCode.value
                      else match r.worker
                           case PlcDev => "plc-dev_failed"
                           case PlcTest => "plc-test_failed"
                           case PlcFormal => "plc-formal_failed"
                           case PlcRepair => "plc-repair_failed"])
  {
    NothingListed(SORTED_SOURCES);
    assert "plc-dev" + "_failed" == "plc-dev_failed" && "plc-test" + "_failed" == "plc-test_failed";
    assert "plc-formal" + "_failed" == "plc-formal_failed" && "plc-repair" + "_failed" == "plc-repair_failed";
  }

  lemma {:induction false} NothingListed(among: seq<FailureSource>)
    ensures SourcesOf([], among) == []
  {
    if among != [] { NothingListed(among[1..]); }
  }

  // ---- counting ----

  method CountJob(counts0: map<string, nat>, held: seq<string>) returns (counts: map<string, nat>)
    requires NoRepeats(held)
    ensures forall f :: CountOf(counts, f) == CountOf(counts0, f) + (if f in held then 1 else 0)
  {
    counts := counts0;
    for k := 0 to |held|
      invariant forall f :: CountOf(counts, f) == CountOf(counts0, f) + (if f in held[..k] then 1 else 0)
    {
      assert held[k] !in held[..k];
      counts := counts[held[k] := CountOf(counts, held[k]) + 1];
    }
    assert held[..|held|] == held;
  }

  /** The failure types that block the dispatch: those recorded at least `maxFailures` times. */
  method BlockedFailureTypes(jobs: seq<JobRecord>, input: WorkerInput, maxFailures: nat) returns (blocked: set<string>)
    requires maxFailures >= 1
    ensures forall f :: f in blocked <==> Tally(jobs, input, f) >= maxFailures
    ensures blocked != {} <==> Blocked(jobs, input, maxFailures)
  {
    var counts: map<string, nat> := map[];
    for k := 0 to |jobs|
      invariant forall f :: CountOf(counts, f) == Tally(jobs[..k], input, f)
    {
      assert jobs[..k + 1][..k] == jobs[..k];
      HeldTypesAreDistinct(jobs[k], input);
      counts := CountJob(counts, HeldAgainst(jobs[k], input));
    }
    assert jobs[..|jobs|] == jobs;
    blocked := set f | f in counts && counts[f] >= maxFailures;
    forall f ensures f in blocked <==> Tally(jobs, input, f) >= maxFailures {
      assert CountOf(counts, f) == Tally(jobs, input, f);
    }
    if blocked != {} {
      var f :| f in blocked;
      assert Tally(jobs, input, f) >= maxFailures;
    }
  }

  lemma {:induction false} TallyCountsOne(jobs: seq<JobRecord>, input: WorkerInput, failureType: string, i: nat)
    requires i < |jobs| && failureType in HeldAgainst(jobs[i], input)
    ensures Tally(jobs, input, failureType) >= 1
  {
    if i < |jobs| - 1 { TallyCountsOne(jobs[..|jobs| - 1], input, failureType, i); }
  }

  lemma {:induction false} TallyHasOne(jobs: seq<JobRecord>, input: WorkerInput, failureType: string) returns (i: nat)
    requires Tally(jobs, input, failureType) >= 1
    ensures i < |jobs| && failureType in HeldAgainst(jobs[i], input)
  {
    var n := |jobs| - 1;
    if failureType in HeldAgainst(jobs[n], input) {
      i := n;
    } else {
      i := TallyHasOne(jobs[..n], input, failureType);
    }
  }

  ghost predicate BothHold(jobs: seq<JobRecord>, input: WorkerInput, i: nat, j: nat, failureType: string) {
    && i < j < |jobs|
    && failureType in HeldAgainst(jobs[i], input) && failureType in HeldAgainst(jobs[j], input)
  }

  /** At the limit of two an input is blocked exactly if two of its past jobs failed for a common reason. */
  lemma {:induction false} BlockedIffTwoAgree(jobs: seq<JobRecord>, input: WorkerInput)
    ensures Blocked(jobs, input, MAX_FAILURES) <==>
            exists i: nat, j: nat, failureType :: BothHold(jobs, input, i, j, failureType)
  {
    if f :| Tally(jobs, input, f) >= MAX_FAILURES {
      var i, j := TwoHold(jobs, input, f);
      assert BothHold(jobs, input, i, j, f);
    }
    if i: nat, j: nat, f :| BothHold(jobs, input, i, j, f) {
      TwoAreTallied(jobs, input, i, j, f);
    }
  }

  lemma {:induction false} TwoHold(jobs: seq<JobRecord>, input: WorkerInput, f: string) returns (i: nat, j: nat)
    requires Tally(jobs, input, f) >= 2
    ensures BothHold(jobs, input, i, j, f)
  {
    var n := |jobs| - 1;
    if f in HeldAgainst(jobs[n], input) {
      i := TallyHasOne(jobs[..n], input, f);
      j := n;
    } else {
      i, j := TwoHold(jobs[..n], input, f);
    }
  }

  lemma {:induction false} TwoAreTallied(jobs: seq<JobRecord>, input: WorkerInput, i: nat, j: nat, f: string)
    requires BothHold(jobs, input, i, j, f)
    ensures Tally(jobs, input, f) >= 2
  {
    var n := |jobs| - 1;
    if j == n {
      TallyCountsOne(jobs[..n], input, f, i);
    } else {
      TwoAreTallied(jobs[..n], input, i, j, f);
    }
  }

  // ---- bounds over a whole run of dispatches ----

  /** One dispatch attempt and the result its worker would give, if it gives one. */
  datatype DispatchAttempt = DispatchAttempt(input: WorkerInput, result: Option<WorkerResult>)

  /** A blocked attempt leaves no job; any other becomes a job of the history. */
  ghost function After(jobs: seq<JobRecord>, attempts: seq<DispatchAttempt>, maxFailures: nat): seq<JobRecord> {
    if attempts == [] then jobs
    else
      var before := After(jobs, attempts[..|attempts| - 1], maxFailures);
      var last := attempts[|attempts| - 1];
      if Blocked(before, last.input, maxFailures) then before
      else before + [JobRecord(last.input, JobCompleted, last.result)]
  }

  lemma {:induction false} TallyNext(jobs: seq<JobRecord>, job: JobRecord, input: WorkerInput, f: string)
    ensures Tally(jobs + [job], input, f) == Tally(jobs, input, f) + (if f in HeldAgainst(job, input) then 1 else 0)
  {
  }

  /** Once an input is blocked it stays blocked, whatever is dispatched after. */
  lemma {:induction false} BlockedStaysBlocked(
    jobs: seq<JobRecord>, attempts: seq<DispatchAttempt>, input: WorkerInput, maxFailures: nat)
    requires Blocked(jobs, input, maxFailures)
    ensures Blocked(After(jobs, attempts, maxFailures), input, maxFailures)
  {
    if attempts != [] {
      var earlier, last := attempts[..|attempts| - 1], attempts[|attempts| - 1];
      BlockedStaysBlocked(jobs, earlier, input, maxFailures);
      var before := After(jobs, earlier, maxFailures);
      var f :| Tally(before, input, f) >= maxFailures;
      TallyNext(before, JobRecord(last.input, JobCompleted, last.result), input, f);
      assert Tally(After(jobs, attempts, maxFailures), input, f) >= maxFailures;
    }
  }

  /** A history in which no job was dispatched while it was blocked. */
  ghost predicate Debounced(jobs: seq<JobRecord>, maxFailures: nat) {
    jobs == []
    || (Debounced(jobs[..|jobs| - 1], maxFailures)
        && !Blocked(jobs[..|jobs| - 1], jobs[|jobs| - 1].input, maxFailures))
  }

  lemma {:induction false} DebouncedNext(jobs: seq<JobRecord>, job: JobRecord, maxFailures: nat)
    ensures Debounced(jobs + [job], maxFailures)
       <==> Debounced(jobs, maxFailures) && !Blocked(jobs, job.input, maxFailures)
  {
  }

  /** Every run of single dispatches leaves a debounced history. */
  lemma {:induction false} RunsAreDebounced(jobs: seq<JobRecord>, attempts: seq<DispatchAttempt>, maxFailures: nat)
    requires Debounced(jobs, maxFailures)
    ensures Debounced(After(jobs, attempts, maxFailures), maxFailures)
  {
    if attempts != [] {
      var earlier, last := attempts[..|attempts| - 1], attempts[|attempts| - 1];
      RunsAreDebounced(jobs, earlier, maxFailures);
      DebouncedNext(After(jobs, earlier, maxFailures), JobRecord(last.input, JobCompleted, last.result), maxFailures);
    }
  }

  /** In a debounced history no failure type is recorded more than `maxFailures` times against one input. */
  lemma {:induction false} TallyNeverExceeds(jobs: seq<JobRecord>, input: WorkerInput, maxFailures: nat, f: string)
    requires maxFailures >= 1 && Debounced(jobs, maxFailures)
    ensures Tally(jobs, input, f) <= maxFailures
  {
    if jobs != [] {
      var before, last := jobs[..|jobs| - 1], jobs[|jobs| - 1];
      TallyNeverExceeds(before, input, maxFailures, f);
      if f in HeldAgainst(last, input) && Tally(before, input, f) >= maxFailures {
        SameTally(before, input, last.input, f);
        assert Blocked(before, last.input, maxFailures);
      }
    }
  }

  lemma {:induction false} SameTally(jobs: seq<JobRecord>, a: WorkerInput, b: WorkerInput, f: string)
    requires a.worker == b.worker && a.signature == b.signature
    ensures Tally(jobs, a, f) == Tally(jobs, b, f)
  {
    if jobs != [] { SameTally(jobs[..|jobs| - 1], a, b, f); }
  }

  lemma {:induction false} SameJudgment(jobs: seq<JobRecord>, a: WorkerInput, b: WorkerInput, maxFailures: nat)
    requires a.worker == b.worker && a.signature == b.signature
    ensures Blocked(jobs, a, maxFailures) <==> Blocked(jobs, b, maxFailures)
  {
    if Blocked(jobs, a, maxFailures) {
      var f :| Tally(jobs, a, f) >= maxFailures;
      SameTally(jobs, a, b, f);
    }
    if Blocked(jobs, b, maxFailures) {
      var f :| Tally(jobs, b, f) >= maxFailures;
      SameTally(jobs, a, b, f);
    }
  }

  /** How many recorded jobs failed this input in any way. */
  ghost function FailedJobs(jobs: seq<JobRecord>, input: WorkerInput): nat {
    if jobs == [] then 0
    else FailedJobs(jobs[..|jobs| - 1], input) + (if HeldAgainst(jobs[|jobs| - 1], input) != [] then 1 else 0)
  }

  ghost function SumOfTallies(jobs: seq<JobRecord>, input: WorkerInput, types: seq<string>): nat {
    if types == [] then 0 else SumOfTallies(jobs, input, types[1..]) + Tally(jobs, input, types[0])
  }

  lemma {:induction false} SumGrows(jobs: seq<JobRecord>, job: JobRecord, input: WorkerInput, types: seq<string>)
    ensures SumOfTallies(jobs + [job], input, types)
         >= SumOfTallies(jobs, input, types)
           + (if exists k :: 0 <= k < |types| && types[k] in HeldAgainst(job, input) then 1 else 0)
  {
    if types != [] {
      SumGrows(jobs, job, input, types[1..]);
      TallyNext(jobs, job, input, types[0]);
      if k :| 0 <= k < |types| && types[k] in HeldAgainst(job, input) {
        assert k > 0 ==> types[1..][k - 1] == types[k];
      }
    }
  }

  /** Every failure anyone records against the input is of one of the listed types. */
  ghost predicate OnlyTypes(jobs: seq<JobRecord>, input: WorkerInput, types: seq<string>) {
    forall k :: 0 <= k < |jobs| ==> forall f :: f in HeldAgainst(jobs[k], input) ==> f in types
  }

  lemma {:induction false} FailedJobsBySum(jobs: seq<JobRecord>, input: WorkerInput, types: seq<string>)
    requires OnlyTypes(jobs, input, types)
    ensures FailedJobs(jobs, input) <= SumOfTallies(jobs, input, types)
  {
    if jobs == [] {
    } else {
      var before, last := jobs[..|jobs| - 1], jobs[|jobs| - 1];
      assert OnlyTypes(before, input, types);
      FailedJobsBySum(before, input, types);
      assert jobs == before + [last];
      SumGrows(before, last, input, types);
      if HeldAgainst(last, input) != [] {
        assert HeldAgainst(last, input)[0] in HeldAgainst(last, input);
        assert HeldAgainst(last, input)[0] in types;
      }
    }
  }

  lemma {:induction false} OneMore(m: nat, n: nat)
    ensures m * (n + 1) == m * n + m
  {
  }

  lemma {:induction false} SumWhileUnblocked(
    jobs: seq<JobRecord>, input: WorkerInput, types: seq<string>, maxFailures: nat)
    requires maxFailures >= 1 && !Blocked(jobs, input, maxFailures)
    ensures SumOfTallies(jobs, input, types) <= (maxFailures - 1) * |types|
  {
    if types != [] {
      SumWhileUnblocked(jobs, input, types[1..], maxFailures);
      assert Tally(jobs, input, types[0]) < maxFailures;
      OneMore(maxFailures - 1, |types[1..]|);
    }
  }

  /**
   * Pigeonhole bound over any debounced history, however its inputs interleave: with K possible failure
   * types, at most (maxFailures - 1) * K + 1 recorded jobs failed the input.
   */
  lemma {:induction false} FailuresAreBounded(
    jobs: seq<JobRecord>, input: WorkerInput, types: seq<string>, maxFailures: nat)
    requires maxFailures >= 1 && Debounced(jobs, maxFailures)
    requires OnlyTypes(jobs, input, types)
    ensures FailedJobs(jobs, input) <= (maxFailures - 1) * |types| + 1
  {
    if jobs != [] {
      var before, last := jobs[..|jobs| - 1], jobs[|jobs| - 1];
      assert OnlyTypes(before, input, types);
      if HeldAgainst(last, input) != [] {
        forall f ensures Tally(before, input, f) < maxFailures { SameTally(before, input, last.input, f); }
        SumWhileUnblocked(before, input, types, maxFailures);
        FailedJobsBySum(before, input, types);
      } else {
        FailuresAreBounded(before, input, types, maxFailures);
      }
    }
  }

  /** The pigeonhole bound for every input at once. */
  ghost predicate FailuresBounded(jobs: seq<JobRecord>, maxFailures: nat) {
    forall input: WorkerInput, types: seq<string> :: OnlyTypes(jobs, input, types) ==>
        FailedJobs(jobs, input) <= (maxFailures - 1) * |types| + 1
  }

  lemma {:induction false} DebouncedMeansBounded(jobs: seq<JobRecord>, maxFailures: nat)
    requires maxFailures >= 1 && Debounced(jobs, maxFailures)
    ensures FailuresBounded(jobs, maxFailures)
  {
    forall input: WorkerInput, types: seq<string> | OnlyTypes(jobs, input, types)
      ensures FailedJobs(jobs, input) <= (maxFailures - 1) * |types| + 1
    {
      FailuresAreBounded(jobs, input, types, maxFailures);
    }
  }

  ghost function JobsOf(jobs: seq<JobRecord>, input: WorkerInput): seq<JobRecord> {
    if jobs == [] then []
    else JobsOf(jobs[..|jobs| - 1], input) + (if Concerns(jobs[|jobs| - 1], input) then [jobs[|jobs| - 1]] else [])
  }

  ghost function AttemptsOf(attempts: seq<DispatchAttempt>, input: WorkerInput): seq<DispatchAttempt> {
    if attempts == [] then []
    else
      var last := attempts[|attempts| - 1];
      AttemptsOf(attempts[..|attempts| - 1], input)
      + (if last.input.worker == input.worker && last.input.signature == input.signature then [last] else [])
  }

  lemma {:induction false} JobsOfNext(jobs: seq<JobRecord>, job: JobRecord, input: WorkerInput)
    ensures JobsOf(jobs + [job], input) == if Concerns(job, input) then JobsOf(jobs, input) + [job]
            else JobsOf(jobs, input)
  {
  }

  lemma {:induction false} TallyOfOwnJobs(jobs: seq<JobRecord>, input: WorkerInput, f: string)
    ensures Tally(JobsOf(jobs, input), input, f) == Tally(jobs, input, f)
  {
    if jobs != [] {
      var before, last := jobs[..|jobs| - 1], jobs[|jobs| - 1];
      assert jobs == before + [last];
      TallyOfOwnJobs(before, input, f);
      JobsOfNext(before, last, input);
      if Concerns(last, input) {
        TallyNext(JobsOf(before, input), last, input, f);
      } else {
        assert HeldAgainst(last, input) == [];
      }
    }
  }

  /** Signatures do not interfere: from any history, what happens to one input depends on its own attempts alone. */
  lemma {:induction false} OtherSignaturesDoNotInterfere(
    jobs: seq<JobRecord>, attempts: seq<DispatchAttempt>, input: WorkerInput, maxFailures: nat)
    ensures JobsOf(After(jobs, attempts, maxFailures), input)
         == After(JobsOf(jobs, input), AttemptsOf(attempts, input), maxFailures)
  {
    if attempts != [] {
      var earlier, last := attempts[..|attempts| - 1], attempts[|attempts| - 1];
      OtherSignaturesDoNotInterfere(jobs, earlier, input, maxFailures);
      var before := After(jobs, earlier, maxFailures);
      var own := AttemptsOf(earlier, input);
      var job := JobRecord(last.input, JobCompleted, last.result);
      JobsOfNext(before, job, input);
      if Concerns(job, input) {
        assert AttemptsOf(attempts, input) == own + [last];
        assert (own + [last])[..|own|] == own;
        SameBlocking(before, input, last.input, maxFailures);
      } else {
        assert AttemptsOf(attempts, input) == own;
      }
    }
  }

  lemma {:induction false} SameBlocking(jobs: seq<JobRecord>, input: WorkerInput, other: WorkerInput, maxFailures: nat)
    requires input.worker == other.worker && input.signature == other.signature
    ensures Blocked(jobs, other, maxFailures) <==> Blocked(JobsOf(jobs, input), other, maxFailures)
  {
    if Blocked(jobs, other, maxFailures) {
      var f :| Tally(jobs, other, f) >= maxFailures;
      OwnJobsDecide(jobs, input, other, f);
    }
    if Blocked(JobsOf(jobs, input), other, maxFailures) {
      var f :| Tally(JobsOf(jobs, input), other, f) >= maxFailures;
      OwnJobsDecide(jobs, input, other, f);
    }
  }

  lemma {:induction false} OwnJobsDecide(jobs: seq<JobRecord>, input: WorkerInput, other: WorkerInput, f: string)
    requires input.worker == other.worker && input.signature == other.signature
    ensures Tally(JobsOf(jobs, input), other, f) == Tally(jobs, other, f)
  {
    TallyOfOwnJobs(jobs, input, f);
    SameTally(jobs, input, other, f);
    SameTally(JobsOf(jobs, input), input, other, f);
  }
}
