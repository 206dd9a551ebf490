/** The status a task gets when the assistant stops (backend/app/agents/main_agent.py, `_final_status_for_stop`). */
module FinalVerdict {
  import opened Options
  import opened RouterSchema
  import opened CallRecords
  import opened RunInvariants

  predicate IsEvidenceTool(tool: ToolName) {
    !tool.RequestClarification? && !tool.UpdatePlan? && !tool.RunParallelWorkers? && !tool.UnknownTool?
  }

  /** The evidence tools: those of the workspace, the workers, the gate and the reports, and no others. */
  lemma {:induction false} EvidenceTools(tool: ToolName)
    ensures IsEvidenceTool(tool) <==>
            || tool == ListFiles || tool == Glob || tool == Grep || tool == ReadFile || tool == WriteFile
            || tool == ApplyPatch || tool == ExecCommand || tool == GitStatus
            || tool == PlcDevTool || tool == PlcTestTool || tool == PlcFormalTool || tool == PlcRepairTool
            || tool == RunQualityGate || tool == RecordValidationReport
  {
  }

  predicate Telling(tool: ToolName, status: CallStatus) { IsEvidenceTool(tool) && status != CallRejected }

  /** The status of the last evidence call that was not rejected. */
  function LastEvidence(calls: seq<CallRecord>): Option<CallStatus> {
    if calls == [] then None
    else
      var last := calls[|calls| - 1];
      if Telling(last.tool, last.status) then Some(last.status) else LastEvidence(calls[..|calls| - 1])
  }

  function LastReported(events: seq<Event>): Option<CallStatus> {
    if events == [] then None
    else
      var last := events[|events| - 1];
      if last.ToolResulted? && Telling(last.tool, last.outcome) then Some(last.outcome)
      else LastReported(events[..|events| - 1])
  }

  function LatestCalls(runs: seq<AgentRun>, latest: Option<nat>): seq<CallRecord> {
    if runs == [] then []
    else if latest == Some(runs[|runs| - 1].id) then runs[|runs| - 1].calls
    else LatestCalls(runs[..|runs| - 1], latest)
  }

  function StatusFor(evidence: CallStatus): TaskStatus { if evidence == CallFailed then Failed else Succeeded }

  function FinalStatusForStop(t: TaskState, events: seq<Event>): TaskStatus {
    if HasOpenBlocking(t.failures) then Failed
    else if LastEvidence(LatestCalls(t.runs, t.latestRun)).Some?
      then StatusFor(LastEvidence(LatestCalls(t.runs, t.latestRun)).value)
    else if LastReported(events).Some? then StatusFor(LastReported(events).value)
    else Succeeded
  }

  // ---- an independent reading: the calls that matter, in order ----

  ghost function TellingCalls(calls: seq<CallRecord>): seq<CallRecord> {
    if calls == [] then []
    else (if Telling(calls[0].tool, calls[0].status) then [calls[0]] else []) + TellingCalls(calls[1..])
  }

  lemma {:induction false} TellingOfSplit(a: seq<CallRecord>, b: seq<CallRecord>)
    ensures TellingCalls(a + b) == TellingCalls(a) + TellingCalls(b)
  {
    if a == [] {
      assert a + b == b;
    } else {
      assert (a + b)[0] == a[0] && (a + b)[1..] == a[1..] + b;
      TellingOfSplit(a[1..], b);
      var head := if Telling(a[0].tool, a[0].status) then [a[0]] else [];
      assert TellingCalls(a + b) == head + (TellingCalls(a[1..]) + TellingCalls(b));
      assert TellingCalls(a) == head + TellingCalls(a[1..]);
    }
  }

  lemma {:induction false} LastEvidenceIsLastTelling(calls: seq<CallRecord>)
    ensures var telling := TellingCalls(calls);
            LastEvidence(calls) == if telling == [] then None else Some(telling[|telling| - 1].status)
  {
    if calls != [] {
      var before, last := calls[..|calls| - 1], calls[|calls| - 1];
      LastEvidenceIsLastTelling(before);
      assert calls == before + [last];
      TellingOfSplit(before, [last]);
    }
  }

  /** The verdict, outright: what makes a stop fail. */
  lemma {:induction false} VerdictIsFailedIff(t: TaskState, events: seq<Event>)
    ensures FinalStatusForStop(t, events) == Succeeded || FinalStatusForStop(t, events) == Failed
    ensures var telling := TellingCalls(LatestCalls(t.runs, t.latestRun));
            FinalStatusForStop(t, events) == Failed
            <==> HasOpenBlocking(t.failures)
                 || (telling != [] && telling[|telling| - 1].status == CallFailed)
                 || (telling == [] && LastReported(events) == Some(CallFailed))
  {
    LastEvidenceIsLastTelling(LatestCalls(t.runs, t.latestRun));
  }

  /**
   * Stability: two tasks with the same blockers whose latest runs tell the same evidence get the same
   * verdict, whatever their events, once there is any evidence.
   */
  lemma {:induction false} VerdictIsStable(t: TaskState, u: TaskState, events: seq<Event>, others: seq<Event>)
    requires HasOpenBlocking(t.failures) == HasOpenBlocking(u.failures)
    requires TellingCalls(LatestCalls(t.runs, t.latestRun)) == TellingCalls(LatestCalls(u.runs, u.latestRun))
    requires TellingCalls(LatestCalls(t.runs, t.latestRun)) != [] || events == others
    ensures FinalStatusForStop(t, events) == FinalStatusForStop(u, others)
  {
    LastEvidenceIsLastTelling(LatestCalls(t.runs, t.latestRun));
    LastEvidenceIsLastTelling(LatestCalls(u.runs, u.latestRun));
  }

  /** Inserting or deleting rejected or non-evidence records anywhere never changes the evidence. */
  lemma {:induction false} InsertionIsInvisible(before: seq<CallRecord>, noise: seq<CallRecord>, later: seq<CallRecord>)
    requires forall k :: 0 <= k < |noise| ==> !Telling(noise[k].tool, noise[k].status)
    ensures TellingCalls(before + noise + later) == TellingCalls(before + later)
  {
    TellingOfSplit(before + noise, later);
    TellingOfSplit(before, noise);
    TellingOfSplit(before, later);
    NoiseTellsNothing(noise);
  }

  lemma {:induction false} NoiseTellsNothing(noise: seq<CallRecord>)
    requires forall k :: 0 <= k < |noise| ==> !Telling(noise[k].tool, noise[k].status)
    ensures TellingCalls(noise) == []
  {
    if noise != [] { NoiseTellsNothing(noise[1..]); }
  }

  // ---- where the records and what the model was told part ways ----

  /** The last evidence result the model was shown that was not a rejection. */
  ghost function LastObserved(trail: seq<Execution>): Option<CallStatus> {
    if trail == [] then None
    else
      var e := trail[|trail| - 1];
      if Telling(e.tool, e.shown) then Some(e.shown) else LastObserved(trail[..|trail| - 1])
  }

  /** That is also what the public log says last, after whatever it said before the run. */
  lemma {:induction false} ObservedIsReported(before: seq<Event>, trail: seq<Execution>)
    ensures LastReported(before + ShownBy(trail))
         == if LastObserved(trail).Some? then LastObserved(trail) else LastReported(before)
  {
    if trail == [] {
      assert before + ShownBy(trail) == before;
    } else {
      var n := |trail| - 1;
      ObservedIsReported(before, trail[..n]);
      assert (before + ShownBy(trail))[..|before| + n] == before + ShownBy(trail[..n]);
    }
  }

  /** Only result events matter to a reader of the log. */
  lemma {:induction false} ReportsSuffice(events: seq<Event>)
    ensures LastReported(Reports(events)) == LastReported(events)
  {
    if events != [] {
      var n := |events| - 1;
      ReportsSuffice(events[..n]);
      if events[n].ToolResulted? {
        assert (Reports(events[..n]) + [events[n]])[..|Reports(events[..n])|] == Reports(events[..n]);
      } else {
        assert Reports(events) == Reports(events[..n]);
      }
    }
  }

  lemma {:induction false} EvidenceNext(calls: seq<CallRecord>, e: Execution)
    ensures LastEvidence(calls + RecordOf(e)) ==
            match e.end
            case Finished(status) => if Telling(e.tool, status) then Some(status) else LastEvidence(calls)
            case Raised => if IsEvidenceTool(e.tool) then Some(CallRunning) else LastEvidence(calls)
            case NeverOpened => LastEvidence(calls)
  {
    if e.end.NeverOpened? {
      assert calls + [] == calls;
    } else {
      var grown := calls + RecordOf(e);
      assert grown[..|grown| - 1] == calls;
    }
  }

  /** A failure on record was shown as a failure, and nothing more telling was shown after it. */
  lemma {:induction false} RecordedFailureWasShown(trail: seq<Execution>)
    requires AllEnded(trail) && LastEvidence(RecordsOf(trail)) == Some(CallFailed)
    ensures LastObserved(trail) == Some(CallFailed)
  {
    var before, e := trail[..|trail| - 1], trail[|trail| - 1];
    assert WellEnded(e);
    EvidenceNext(RecordsOf(before), e);
    if !Telling(e.tool, e.shown) {
      RecordedFailureWasShown(before);
    }
  }

  /** The model was last shown a failure, but the last evidence record is there and is not a failed one. */
  ghost predicate FailureIsMasked(trail: seq<Execution>) {
    && LastObserved(trail) == Some(CallFailed)
    && LastEvidence(RecordsOf(trail)).Some?
    && LastEvidence(RecordsOf(trail)) != Some(CallFailed)
  }

  /**
   * The verdict follows the last evidence result the model was shown exactly when no failure is masked:
   * a stop looks at the last evidence record, and fails only if that record says `failed`.
   */
  lemma {:induction false} VerdictFollowsObservationIff(t: TaskState, events: seq<Event>, trail: seq<Execution>)
    requires AllEnded(trail) && LastObserved(trail).Some?
    requires LatestCalls(t.runs, t.latestRun) == RecordsOf(trail) && LastReported(events) == LastObserved(trail)
    requires !HasOpenBlocking(t.failures)
    ensures FinalStatusForStop(t, events) == StatusFor(LastObserved(trail).value) <==> !FailureIsMasked(trail)
  {
    if LastEvidence(RecordsOf(trail)) == Some(CallFailed) {
      RecordedFailureWasShown(trail);
    }
  }

  /**
   * Which calls mask a failure, for every way the last call can end: one that raised and was shown as
   * failed; one that raised on its arguments after its record was open, if a failure was shown before;
   * and one that was shown as failed without a record, if the last evidence record is not a failed one.
   */
  lemma {:induction false} WhatMasksAFailure(before: seq<Execution>, e: Execution)
    requires WellEnded(e)
    ensures FailureIsMasked(before + [e]) <==>
            if !IsEvidenceTool(e.tool) then FailureIsMasked(before)
            else match e.end
              case Finished(status) => status == CallRejected && FailureIsMasked(before)
              case Raised => e.shown == CallFailed || LastObserved(before) == Some(CallFailed)
              case NeverOpened =>
                if e.shown == CallFailed
                then LastEvidence(RecordsOf(before)).Some? && LastEvidence(RecordsOf(before)) != Some(CallFailed)
                else FailureIsMasked(before)
  {
    RecordsOfNext(before, e);
    EvidenceNext(RecordsOf(before), e);
    assert (before + [e])[..|before|] == before;
  }

  /** The three kinds, each by its shortest run. */
  const RAISED_RUN: seq<Execution> := [Execution(ExecCommand, Raised, CallFailed, false)]
  const UNOPENED_RUN: seq<Execution> :=
    [Execution(ExecCommand, Finished(CallApplied), CallApplied, false),
      Execution(ExecCommand, NeverOpened, CallFailed, false)]
  const COVERED_RUN: seq<Execution> :=
    [Execution(ExecCommand, Finished(CallFailed), CallFailed, false), Execution(Grep, Raised, CallRejected, false)]

  function OwnTask(t: TaskState, id: nat, trail: seq<Execution>): TaskState {
    t.(latestRun := Some(id), runs := [AgentRun(id, Running, RecordsOf(trail))])
  }

  lemma {:induction false} MaskedRunSucceeds(t: TaskState, id: nat, trail: seq<Execution>)
    requires !HasOpenBlocking(t.failures) && AllEnded(trail) && FailureIsMasked(trail)
    ensures LastReported(ShownBy(trail)) == Some(CallFailed)
    ensures FinalStatusForStop(OwnTask(t, id, trail), ShownBy(trail)) == Succeeded
  {
    ObservedIsReported([], trail);
    assert [] + ShownBy(trail) == ShownBy(trail);
    VerdictFollowsObservationIff(OwnTask(t, id, trail), ShownBy(trail), trail);
    VerdictIsFailedIff(OwnTask(t, id, trail), ShownBy(trail));
  }

  /** The only tool call raises, was shown as failed, and the task still succeeds. */
  lemma {:induction false} RaisedCallCanSucceed(t: TaskState, id: nat)
    requires !HasOpenBlocking(t.failures)
    ensures LastReported(ShownBy(RAISED_RUN)) == Some(CallFailed)
    ensures FinalStatusForStop(OwnTask(t, id, RAISED_RUN), ShownBy(RAISED_RUN)) == Succeeded
  {
    WhatMasksAFailure([], RAISED_RUN[0]);
    assert [] + [RAISED_RUN[0]] == RAISED_RUN;
    MaskedRunSucceeds(t, id, RAISED_RUN);
  }

  lemma {:induction false} AppliedThenUnopened(applied: Execution, unopened: Execution)
    requires WellEnded(applied) && WellEnded(unopened) && IsEvidenceTool(applied.tool) && IsEvidenceTool(unopened.tool)
    requires applied.end == Finished(CallApplied) && unopened.end.NeverOpened? && unopened.shown == CallFailed
    ensures FailureIsMasked([applied] + [unopened])
  {
    RecordsOfNext([], applied);
    EvidenceNext([], applied);
    assert [] + [applied] == [applied] && RecordsOf([]) == [];
    WhatMasksAFailure([applied], unopened);
  }

  /** A call without a record was shown as failed after one that was applied, and the task still succeeds. */
  lemma {:induction false} UnopenedCallCanSucceed(t: TaskState, id: nat)
    requires !HasOpenBlocking(t.failures)
    ensures LastReported(ShownBy(UNOPENED_RUN)) == Some(CallFailed)
    ensures FinalStatusForStop(OwnTask(t, id, UNOPENED_RUN), ShownBy(UNOPENED_RUN)) == Succeeded
  {
    AppliedThenUnopened(UNOPENED_RUN[0], UNOPENED_RUN[1]);
    assert [UNOPENED_RUN[0]] + [UNOPENED_RUN[1]] == UNOPENED_RUN;
    MaskedRunSucceeds(t, id, UNOPENED_RUN);
  }

  /** A failure is on record, a later call raises on its arguments, and the task still succeeds. */
  lemma {:induction false} CoveredFailureCanSucceed(t: TaskState, id: nat)
    requires !HasOpenBlocking(t.failures)
    ensures LastReported(ShownBy(COVERED_RUN)) == Some(CallFailed)
    ensures FinalStatusForStop(OwnTask(t, id, COVERED_RUN), ShownBy(COVERED_RUN)) == Succeeded
  {
    var first := COVERED_RUN[..1];
    assert COVERED_RUN == first + [COVERED_RUN[1]];
    assert LastObserved(first) == Some(CallFailed);
    WhatMasksAFailure(first, COVERED_RUN[1]);
    MaskedRunSucceeds(t, id, COVERED_RUN);
  }

  /** Events that report no evidence do not move the verdict. */
  lemma {:induction false} QuietEvents(t: TaskState, events: seq<Event>, quiet: seq<Event>)
    requires forall k :: 0 <= k < |quiet| ==> !quiet[k].ToolResulted?
    ensures FinalStatusForStop(t, events + quiet) == FinalStatusForStop(t, events)
  {
    if quiet == [] {
      assert events + quiet == events;
    } else {
      var n := |quiet| - 1;
      assert (events + quiet)[..|events| + n] == events + quiet[..n];
      QuietEvents(t, events, quiet[..n]);
    }
  }
}
