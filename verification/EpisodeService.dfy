/**
 * One Main Agent episode over the stored task, and any sequence of them
 * (backend/app/agents/main_agent.py, `MainAgentService`).
 */
module EpisodeService {
  import opened Options
  import opened RouterSchema
  import opened TaskStore
  import opened Debounce = RetryDebounce
  import opened CallRecords
  import opened RunInvariants
  import opened ToolEffects
  import opened FinalVerdict
  import opened Loop = EpisodeLoop

  // ---- agent runs ----

  function RunBound(runs: seq<AgentRun>): (n: nat)
    ensures forall k :: 0 <= k < |runs| ==> runs[k].id < n
  {
    var ids := seq(|runs|, k requires 0 <= k < |runs| => runs[k].id);
    assert forall k :: 0 <= k < |ids| ==> runs[k].id == ids[k] < FreshAbove(ids);
    FreshAbove(ids)
  }

  /** The task with a newly opened agent run, and with the service's workspace if it had none of its own. */
  function Started(t: TaskState, fallbackRoot: bool): TaskState {
    var id := RunBound(t.runs);
    t.(runs := t.runs + [AgentRun(id, Running, [])], latestRun := Some(id),
       hasWorkspace := t.hasWorkspace || fallbackRoot)
  }

  function WithRunStatus(runs: seq<AgentRun>, latest: Option<nat>, status: TaskStatus): (r: seq<AgentRun>)
    ensures |r| == |runs|
  {
    seq(|runs|, k requires 0 <= k < |runs| =>
      if latest == Some(runs[k].id) then runs[k].(status := status) else runs[k])
  }

  function RunStatusFor(status: TaskStatus): TaskStatus {
    if Terminal(status) || status.WaitingUser? then status else Failed
  }

  // ---- the public history ----

  /** The final report was on file when the public log held at most `n` events. */
  ghost predicate FiledBy(writes: seq<Write>, n: int) {
    exists k :: 0 <= k < |writes| && FinalReport in writes[k].task.files.roles && writes[k].at <= n
  }

  /** This status was written when the public log held exactly `n` events. */
  ghost predicate WrittenAt(writes: seq<Write>, status: TaskStatus, n: int) {
    exists k :: 0 <= k < |writes| && writes[k].task.status == status && writes[k].at == n
  }

  /** No record written before the public log held `n` events was terminal. */
  ghost predicate OpenUntil(writes: seq<Write>, n: int) {
    forall k :: 0 <= k < |writes| && Terminal(writes[k].task.status) ==> n <= writes[k].at
  }

  /**
   * Ended by its agent: completion and end are the last two events and of the stored status; the report
   * was filed before the completion, and the status written after it and before the end.
   */
  ghost predicate EndedByAgent(now: Snapshot) {
    var n, status := |now.events|, now.task.status;
    && n >= 2 && now.events[n - 2] == AgentCompleted(status) && now.events[n - 1] == TaskEnded(status)
    && TameEvents(now.events[..n - 2])
    && (status == Succeeded || status == Failed) && now.task.phase.Completed?
    && FinalReport in now.task.files.roles
    && FiledBy(now.writes, n - 2) && WrittenAt(now.writes, status, n - 1) && OpenUntil(now.writes, n - 1)
  }

  /** Cancelled by the user: no worker runs, the end stands alone, and the status was written right before it. */
  ghost predicate EndedByUser(now: Snapshot) {
    var n := |now.events|;
    && now.task.status == Cancelled && now.task.phase.Completed?
    && now.task.activeJobs == [] && now.task.limits.activeParallel == 0
    && n >= 1 && now.events[n - 1] == TaskEnded(Cancelled) && TameEvents(now.events[..n - 1])
    && WrittenAt(now.writes, Cancelled, n - 1) && OpenUntil(now.writes, n - 1)
  }

  /**
   * The stored task and its public history agree: a terminal task has its end, of its own status, once
   * and last; a task that is not terminal has none, and never was terminal.
   */
  ghost predicate Consistent(now: Snapshot) {
    && Sound(now.task)
    && (if Terminal(now.task.status) then EndedByAgent(now) || EndedByUser(now)
        else TameEvents(now.events) && forall k :: 0 <= k < |now.writes| ==> !Terminal(now.writes[k].task.status))
  }

  /** How often the log says that the task ended. */
  function Ends(events: seq<Event>): nat {
    if events == [] then 0 else Ends(events[..|events| - 1]) + (if events[|events| - 1].TaskEnded? then 1 else 0)
  }

  lemma {:induction false} TameEventsEndNothing(events: seq<Event>)
    requires TameEvents(events)
    ensures Ends(events) == 0
  {
    if events != [] {
      assert Tame(events[|events| - 1]);
      TameEventsEndNothing(events[..|events| - 1]);
    }
  }

  /** What consistency says to someone who only reads the log. */
  lemma {:induction false} ConsistentMeansAtMostOneEnd(now: Snapshot)
    requires Consistent(now)
    ensures Ends(now.events) == if Terminal(now.task.status) then 1 else 0
    ensures NoFalseSuccess(now.task)
    ensures Terminal(now.task.status) ==> now.task.phase.Completed? && now.task.status != PartialFailed
    ensures now.task.status == Cancelled ==> now.task.activeJobs == [] && now.task.limits.activeParallel == 0
    ensures forall k :: 0 <= k < |now.events| && now.events[k].TaskEnded? ==>
              && k == |now.events| - 1 && now.events[k] == TaskEnded(now.task.status)
              && (now.task.status != Cancelled ==>
                   now.events[k - 1] == AgentCompleted(now.task.status) && FiledBy(now.writes, k - 1))
  {
    var n := |now.events|;
    if Terminal(now.task.status) {
      var m := if EndedByAgent(now) then n - 2 else n - 1;
      var tame := now.events[..m];
      TameEventsEndNothing(tame);
      assert EndedByAgent(now) ==> now.events[..n - 1][..m] == tame;
      forall k | 0 <= k < m ensures !now.events[k].TaskEnded? { assert tame[k] == now.events[k] && Tame(tame[k]); }
    } else {
      TameEventsEndNothing(now.events);
      forall k | 0 <= k < n ensures !now.events[k].TaskEnded? { assert Tame(now.events[k]); }
    }
  }

  // ---- one episode ----

  datatype EpisodeOutcome =
    | NotRun(status: TaskStatus)
    | Completed(status: TaskStatus)
    | Errored(error: LoopError)
    | Interrupted(filed: bool)
    | Escaped

  /** An episode's own run, as the task holds it. */
  ghost predicate OwnRun(before: TaskState, after: TaskState, status: TaskStatus, trail: seq<Execution>) {
    && after.latestRun == Some(RunBound(before.runs))
    && after.runs == before.runs + [AgentRun(RunBound(before.runs), status, RecordsOf(trail))]
  }

  /** What the part of an episode between two moments keeps, whether or not it ended the task. */
  ghost predicate Kept(a: Snapshot, b: Snapshot, trail: seq<Execution>) {
    && Consistent(b)
    && a.events <= b.events
    && SoundWrites(a.writes, b.writes, a.task.limits.activeParallel + 1)
    && b.task.limits.activeParallel == a.task.limits.activeParallel
    && b.task.limits.callsUsed == a.task.limits.callsUsed + Charges(trail)
    && (Debounced(a.jobs, MAX_FAILURES) ==> Debounced(b.jobs, MAX_FAILURES))
    && Reports(b.events) == Reports(a.events) + ShownBy(trail)
    && AllEnded(trail)
  }

  /** The moment a new run has been opened and announced. */
  function Begun(a: Snapshot, fallbackRoot: bool): Snapshot {
    var t := Started(a.task, fallbackRoot);
    a.(task := t, events := a.events + [AgentStarted(t.latestRun.value)], writes := a.writes + [Write(t, |a.events|)])
  }

  lemma {:induction false} BegunIsKept(a: Snapshot, fallbackRoot: bool)
    requires Consistent(a) && !Terminal(a.task.status)
    ensures var b := Begun(a, fallbackRoot);
            Kept(a, b, []) && OwnRun(a.task, b.task, Running, []) && !Terminal(b.task.status)
  {
    ReportsNext(a.events, AgentStarted(Begun(a, fallbackRoot).task.latestRun.value));
    assert ShownBy([]) == [];
  }

  lemma {:induction false} AdvancesKeepsConsistent(a: Snapshot, b: Snapshot)
    requires Consistent(a) && !Terminal(a.task.status) && Advances(a, b)
    ensures Consistent(b) && !Terminal(b.task.status)
    ensures SoundWrites(a.writes, b.writes, a.task.limits.activeParallel + 1)
  {
    assert b.events == a.events + b.events[|a.events|..];
    forall k | |a.writes| <= k < |b.writes| ensures Permitted(a.task, b.writes[k].task) {
      assert b.writes[|a.writes|..][k - |a.writes|] == b.writes[k];
    }
  }

  lemma {:induction false} ClosedKeepsConsistent(a: Snapshot, b: Snapshot, status: TaskStatus, first: Event)
    requires Consistent(a) && !Terminal(a.task.status) && Silent(first)
    requires ClosedAfter(a, b, status, first) && (status == Succeeded || status == Failed)
    ensures Consistent(b) && EndedByAgent(b)
  {
    var n, w := |b.events|, |a.writes|;
    assert b.events[..n - 2] == a.events + [first];
    assert b.writes[w].at == n - 2 && FinalReport in b.writes[w].task.files.roles;
    assert b.writes[w + 2] == Write(b.task, n - 1);
    assert forall k :: 0 <= k < w ==> b.writes[k] == a.writes[k];
    assert forall k :: w <= k < w + 2 ==> b.writes[k].task.status == a.task.status;
  }

  lemma {:induction false} SoundWritesJoin(a: seq<Write>, b: seq<Write>, c: seq<Write>, peak: nat, lower: nat)
    requires SoundWrites(a, b, peak) && SoundWrites(b, c, lower) && lower <= peak
    ensures SoundWrites(a, c, peak)
  {
  }

  lemma {:induction false} ClosedIsKept(
    a: Snapshot, b: Snapshot, c: Snapshot, status: TaskStatus, first: Event, trail: seq<Execution>)
    requires Kept(a, b, trail) && !Terminal(b.task.status) && Silent(first)
    requires ClosedAfter(b, c, status, first) && (status == Succeeded || status == Failed)
    ensures Kept(a, c, trail) && c.task.status == status
    ensures c.task.runs == b.task.runs && c.task.latestRun == b.task.latestRun
  {
    ClosedKeepsConsistent(b, c, status, first);
    ClosingReportsNothing(b.events, first, status);
    SoundWritesJoin(a.writes, b.writes, c.writes, a.task.limits.activeParallel + 1, a.task.limits.activeParallel);
    assert a.events <= c.events;
  }

  /** A closing that the disk cut off leaves the task unfinished, and everything as it must be. */
  lemma {:induction false} CutIsKept(
    a: Snapshot, b: Snapshot, c: Snapshot, first: Event, filed: bool, trail: seq<Execution>)
    requires Kept(a, b, trail) && !Terminal(b.task.status) && Silent(first) && CutAfter(b, c, first, filed)
    ensures Kept(a, c, trail) && c.task.status == b.task.status
    ensures c.task.runs == b.task.runs && c.task.latestRun == b.task.latestRun
    ensures filed ==> FinalReport in c.task.files.roles
  {
    ReportsNext(b.events, first);
    SoundWritesJoin(a.writes, b.writes, c.writes, a.task.limits.activeParallel + 1, a.task.limits.activeParallel);
    assert forall k :: 0 <= k < |c.writes| ==> k < |b.writes| || c.writes[k].task.status == b.task.status;
  }

  /** The status a task is left in by each way its loop can end. */
  predicate LeavesAs(outcome: LoopOutcome, status: TaskStatus) {
    match outcome
    case Stopped(final) => status == final && (final == Succeeded || final == Failed)
    case GaveUp => status == Failed
    case Paused(pause) => status == pause == WaitingUser
    case CutOff(_, _) => !Terminal(status)
    case LoopRaised(_) => !Terminal(status)
  }

  /** Whichever way the loop ended, it kept what an episode must keep. */
  lemma {:induction false} OverIsKept(
    start: Snapshot, last: Snapshot, now: Snapshot, account: Account, outcome: LoopOutcome, cleared: string -> string)
    requires Consistent(start) && !Terminal(start.task.status) && Over(start, last, now, account, outcome, cleared)
    ensures Kept(start, now, account.trail)
    ensures now.task.latestRun == start.task.latestRun
    ensures now.task.runs == AddCalls(start.task.runs, start.task.latestRun, RecordsOf(account.trail))
    ensures LeavesAs(outcome, now.task.status)
    ensures outcome.CutOff? && outcome.filed ==> FinalReport in now.task.files.roles
    ensures now.task.status == Succeeded ==> FinalStatusForStop(now.task, now.events) == Succeeded
  {
    AdvancesKeepsConsistent(start, last);
    assert Kept(start, last, account.trail);
    if outcome.Stopped? {
      VerdictIsFailedIff(now.task, now.events);
      ClosedIsKept(start, last, now, outcome.status, FinalResponse(outcome.status), account.trail);
    } else if outcome.GaveUp? {
      ClosedIsKept(start, last, now, Failed, FinalResponse(Failed), account.trail);
    } else if outcome.CutOff? {
      CutIsKept(start, last, now, FinalResponse(outcome.status), outcome.filed, account.trail);
    }
  }

  lemma {:induction false} KeptJoins(a: Snapshot, b: Snapshot, c: Snapshot, trail: seq<Execution>)
    requires Kept(a, b, []) && Kept(b, c, trail)
    ensures Kept(a, c, trail)
  {
    assert ShownBy([]) == [] && Reports(a.events) + [] == Reports(a.events);
    SoundWritesJoin(a.writes, b.writes, c.writes, a.task.limits.activeParallel + 1, b.task.limits.activeParallel + 1);
  }

  lemma {:induction false} KeptThenRewritten(a: Snapshot, b: Snapshot, c: Snapshot, trail: seq<Execution>)
    requires Kept(a, b, trail)
    requires c.task == b.task.(runs := c.task.runs) && c.writes == b.writes + [Write(c.task, |b.events|)]
    requires c.events == b.events && c.jobs == b.jobs
    ensures Kept(a, c, trail)
  {
    OneMoreWrite(b.writes, Write(c.task, |b.events|), b.task.status, |b.events|);
  }

  /** A later write disturbs nothing that was filed or written before. */
  lemma {:induction false} OneMoreWrite(writes: seq<Write>, w: Write, status: TaskStatus, n: int)
    requires w.at >= n
    ensures FiledBy(writes, n - 2) ==> FiledBy(writes + [w], n - 2)
    ensures WrittenAt(writes, status, n - 1) ==> WrittenAt(writes + [w], status, n - 1)
    ensures OpenUntil(writes, n - 1) ==> OpenUntil(writes + [w], n - 1)
  {
    if FiledBy(writes, n - 2) {
      var k :| 0 <= k < |writes| && FinalReport in writes[k].task.files.roles && writes[k].at <= n - 2;
      assert (writes + [w])[k] == writes[k];
    }
    if WrittenAt(writes, status, n - 1) {
      var k :| 0 <= k < |writes| && writes[k].task.status == status && writes[k].at == n - 1;
      assert (writes + [w])[k] == writes[k];
    }
  }

  lemma {:induction false} CloseOwnRun(before: TaskState, t: TaskState, trail: seq<Execution>, status: TaskStatus)
    requires OwnRun(before, t, Running, trail)
    ensures OwnRun(before, t.(runs := WithRunStatus(t.runs, t.latestRun, status)), status, trail)
  {
  }

  /** Closing the run does not touch what the verdict was based on. */
  lemma {:induction false} VerdictIgnoresRunStatus(
    before: TaskState, t: TaskState, closed: TaskState, status: TaskStatus, trail: seq<Execution>)
    requires OwnRun(before, t, Running, trail) && OwnRun(before, closed, status, trail) && closed.failures == t.failures
    ensures LatestCalls(closed.runs, closed.latestRun) == RecordsOf(trail)
    ensures forall events :: FinalStatusForStop(closed, events) == FinalStatusForStop(t, events)
  {
  }

  /** From before the run was opened to the end of its loop. */
  lemma {:induction false} RunOnOwnRecord(before: Snapshot, begun: Snapshot, over: Snapshot, trail: seq<Execution>)
    requires Kept(before, begun, []) && OwnRun(before.task, begun.task, Running, [])
    requires Kept(begun, over, trail) && over.task.latestRun == begun.task.latestRun
    requires over.task.runs == AddCalls(begun.task.runs, begun.task.latestRun, RecordsOf(trail))
    ensures Kept(before, over, trail) && OwnRun(before.task, over.task, Running, trail)
  {
    KeptJoins(before, begun, over, trail);
    AddToOwnRun(before.task.runs, AgentRun(RunBound(before.task.runs), Running, []), RecordsOf(trail));
    assert RecordsOf([]) == [] && [] + RecordsOf(trail) == RecordsOf(trail);
  }

  /** The moment after the latest run, if any, was given this status. */
  function WithLatestRun(a: Snapshot, status: TaskStatus): Snapshot {
    if a.task.latestRun.None? then a
    else
      var t := a.task.(runs := WithRunStatus(a.task.runs, a.task.latestRun, status));
      a.(task := t, writes := a.writes + [Write(t, |a.events|)])
  }

  lemma {:induction false} LatestRunIsKept(a: Snapshot, b: Snapshot, status: TaskStatus, trail: seq<Execution>)
    requires Kept(a, b, trail)
    ensures Kept(a, WithLatestRun(b, status), trail)
    ensures WithLatestRun(b, status).task.runs == WithRunStatus(b.task.runs, b.task.latestRun, status)
  {
    if b.task.latestRun.Some? {
      KeptThenRewritten(a, b, WithLatestRun(b, status), trail);
    }
  }

  lemma {:induction false} NotedIsKept(a: Snapshot, b: Snapshot)
    requires Consistent(a) && !Terminal(a.task.status) && b == a.(events := a.events + [AgentDecision])
    ensures Kept(a, b, [])
  {
    ReportsNext(a.events, AgentDecision);
    assert ShownBy([]) == [];
  }

  class MainAgentService {
    const runner: ToolLoopRunner
    /** Whether the service has a workspace to offer a task that has none. */
    const fallbackRoot: bool

    constructor (runner: ToolLoopRunner, fallbackRoot: bool)
      ensures this.runner == runner && this.fallbackRoot == fallbackRoot
    {
      this.runner, this.fallbackRoot := runner, fallbackRoot;
    }

    function TheStore(): Store { runner.TheStore() }

    ghost predicate Wired() { runner.executor.Wired() }

    method StartMainAgentRun()
      requires Sound(TheStore().task)
      modifies TheStore()
      ensures Terminal(old(TheStore().task.status)) ==> TheStore().Now() == old(TheStore().Now())
      ensures !Terminal(old(TheStore().task.status)) ==> TheStore().Now() == Begun(old(TheStore().Now()), fallbackRoot)
    {
      var store := TheStore();
      if Terminal(store.task.status) {
        return;
      }
      var t := Started(store.task, fallbackRoot);
      store.Update(t);
      store.Append(AgentStarted(t.latestRun.value));
    }

    /** Closes the latest run, if there is one. */
    method CompleteLatestAgentRun(status: TaskStatus)
      modifies TheStore()
      ensures TheStore().Now() == WithLatestRun(old(TheStore().Now()), status)
    {
      var store := TheStore();
      if store.task.latestRun.None? {
        return;
      }
      store.Update(store.task.(runs := WithRunStatus(store.task.runs, store.task.latestRun, status)));
    }

    /**
     * Running out of turns ends the task as failed, interleaving files, completion, status and end as a
     * stop does, or being cut off by the disk as a stop is.
     */
    method FailTask(files: RunFiles) returns (cut: bool)
      requires Sound(TheStore().task) && !Terminal(TheStore().task.status)
      modifies TheStore()
      ensures cut <==> !BothLand(files)
      ensures if cut then CutAfter(old(TheStore().Now()), TheStore().Now(), AgentDecision, files.report.Lands?)
              else ClosedAfter(old(TheStore().Now()), TheStore().Now(), Failed, AgentDecision)
    {
      cut := runner.CloseTask(AgentDecision, Failed, files);
    }

    /**
     * An exception the episode knows. A task that has ended only has its run closed, with its own status.
     * Otherwise only running out of turns ends the task, and the run is closed as failed, unless the disk
     * cuts the closing off: then the task stays unfinished and the run open.
     */
    method RecordAgentError(error: LoopError, files: RunFiles) returns (cut: bool)
      requires Terminal(TheStore().task.status) || Consistent(TheStore().Now())
      modifies TheStore()
      ensures Terminal(old(TheStore().task.status)) ==>
                TheStore().Now() == WithLatestRun(old(TheStore().Now()), RunStatusFor(old(TheStore().task.status)))
      ensures cut <==> !Terminal(old(TheStore().task.status)) && error.MaxTurnsExceeded? && !BothLand(files)
      ensures !Terminal(old(TheStore().task.status)) ==>
                && Kept(old(TheStore().Now()), TheStore().Now(), [])
                && TheStore().task.latestRun == old(TheStore().task.latestRun)
      ensures cut ==>
                && TheStore().task.runs == old(TheStore().task.runs)
                && TheStore().task.status == old(TheStore().task.status)
                && (files.report.Lands? ==> FinalReport in TheStore().task.files.roles)
      ensures !Terminal(old(TheStore().task.status)) && !cut ==>
                && TheStore().task.runs
                   == WithRunStatus(old(TheStore().task.runs), old(TheStore().task.latestRun), Failed)
                && TheStore().task.status == if error.MaxTurnsExceeded? then Failed else old(TheStore().task.status)
    {
      var store := TheStore();
      if Terminal(store.task.status) {
        CompleteLatestAgentRun(RunStatusFor(store.task.status));
        return false;
      }
      cut := NoteError(error, files);
      if cut {
        return;
      }
      ghost var mid := store.Now();
      CompleteLatestAgentRun(Failed);
      LatestRunIsKept(old(store.Now()), mid, Failed, []);
    }

    /** Announces the error and, if it means running out of turns, tries to end the task. */
    method NoteError(error: LoopError, files: RunFiles) returns (cut: bool)
      requires Consistent(TheStore().Now()) && !Terminal(TheStore().task.status)
      modifies TheStore()
      ensures cut <==> error.MaxTurnsExceeded? && !BothLand(files)
      ensures old(TheStore().events) + [AgentDecision] <= TheStore().events
      ensures Kept(old(TheStore().Now()), TheStore().Now(), [])
      ensures TheStore().task.latestRun == old(TheStore().task.latestRun)
      ensures TheStore().task.runs == old(TheStore().task.runs)
      ensures TheStore().task.status == if error.MaxTurnsExceeded? && !cut then Failed else old(TheStore().task.status)
      ensures cut && files.report.Lands? ==> FinalReport in TheStore().task.files.roles
    {
      var store := TheStore();
      ghost var start := store.Now();
      store.Append(AgentDecision);
      ghost var noted := store.Now();
      NotedIsKept(start, noted);
      if !error.MaxTurnsExceeded? {
        return false;
      }
      cut := FailTask(files);
      if cut {
        CutIsKept(start, noted, store.Now(), AgentDecision, files.report.Lands?, []);
      } else {
        ClosedIsKept(start, noted, store.Now(), Failed, AgentDecision, []);
      }
    }

    /**
     * One episode. A terminal task is not touched. Otherwise the episode's own run is the only one that
     * changes, holds exactly one record per call that opened one, and is closed unless an unknown
     * exception escapes or the disk cuts the closing off.
     */
    method RunEpisode(plan: EpisodePlan) returns (outcome: EpisodeOutcome, account: Account)
      requires Wired() && (Terminal(TheStore().task.status) || Consistent(TheStore().Now()))
      modifies TheStore()
      ensures var t := old(TheStore().task);
              && (Terminal(t.status) ==> TheStore().Now() == old(TheStore().Now()) && outcome == NotRun(t.status))
              && (!Terminal(t.status) ==> Kept(old(TheStore().Now()), TheStore().Now(), account.trail)
                                          && FollowsFrom(t, TheStore().task, account.trail, outcome))
      ensures KeepsProtocol(account, runner.cleared)
      ensures EndsByDisk(outcome, plan.files)
      ensures outcome == EpisodeOutcome.Completed(Succeeded) ==>
                FinalStatusForStop(TheStore().task, TheStore().events) == Succeeded
    {
      var store := TheStore();
      account := Account([], [], [], []);
      if Terminal(store.task.status) {
        return NotRun(store.task.status), account;
      }
      ghost var before := store.Now();
      BegunIsKept(before, fallbackRoot);
      StartMainAgentRun();
      ghost var begun := store.Now();
      var ending;
      ghost var last;
      ending, account, last := runner.RunOrchestration(plan.configured, plan.instructions, plan.prompt, plan.script,
        plan.maxTurns, plan.files);
      ghost var over := store.Now();
      OverIsKept(begun, last, over, account, ending, runner.cleared);
      RunOnOwnRecord(before, begun, over, account.trail);
      outcome := Conclude(ending, plan.files, before, account.trail);
    }

    /** Closes the run an episode opened, as its loop ended. */
    method Conclude(ending: LoopOutcome, files: RunFiles, ghost before: Snapshot, ghost trail: seq<Execution>)
      returns (outcome: EpisodeOutcome)
      requires Kept(before, TheStore().Now(), trail) && OwnRun(before.task, TheStore().task, Running, trail)
      requires LeavesAs(ending, TheStore().task.status) && FilesDecide(ending, files)
      requires ending.CutOff? && ending.filed ==> FinalReport in TheStore().task.files.roles
      requires TheStore().task.status == Succeeded ==>
                 FinalStatusForStop(TheStore().task, TheStore().events) == Succeeded
      modifies TheStore()
      ensures Kept(before, TheStore().Now(), trail) && FollowsFrom(before.task, TheStore().task, trail, outcome)
      ensures EndsByDisk(outcome, files)
      ensures outcome == EpisodeOutcome.Completed(Succeeded) ==>
                FinalStatusForStop(TheStore().task, TheStore().events) == Succeeded
    {
      var store := TheStore();
      ghost var over := store.Now();
      if ending.CutOff? {
        return Interrupted(ending.filed);
      }
      if ending.LoopRaised? {
        outcome := ConcludeError(ending.error, files, before, trail);
        return;
      }
      var status := store.task.status;
      CloseOwnRun(before.task, over.task, trail, RunStatusFor(status));
      CompleteLatestAgentRun(RunStatusFor(status));
      LatestRunIsKept(before, over, RunStatusFor(status), trail);
      VerdictIgnoresRunStatus(before.task, over.task, store.task, RunStatusFor(status), trail);
      outcome := EpisodeOutcome.Completed(status);
    }

    method ConcludeError(error: LoopError, files: RunFiles, ghost before: Snapshot, ghost trail: seq<Execution>)
      returns (outcome: EpisodeOutcome)
      requires Kept(before, TheStore().Now(), trail) && OwnRun(before.task, TheStore().task, Running, trail)
      requires !Terminal(TheStore().task.status)
      modifies TheStore()
      ensures Kept(before, TheStore().Now(), trail) && FollowsFrom(before.task, TheStore().task, trail, outcome)
      ensures EndsByDisk(outcome, files) && !outcome.Completed?
    {
      ghost var over := TheStore().Now();
      if error.Crash? {
        return Escaped;
      }
      CloseOwnRun(before.task, over.task, trail, Failed);
      var cut := RecordAgentError(error, files);
      KeptThenKept(before, over, TheStore().Now(), trail);
      outcome := if cut then Interrupted(files.report.Lands?) else Errored(error);
    }

    /** Any number of episodes on one task, each with its own plan. */
    method RunEpisodes(plans: seq<EpisodePlan>) returns (outcomes: seq<EpisodeOutcome>)
      requires Wired() && (Terminal(TheStore().task.status) || Consistent(TheStore().Now()))
      modifies TheStore()
      ensures Terminal(old(TheStore().task.status)) ==>
                TheStore().Now() == old(TheStore().Now()) && forall k :: 0 <= k < |outcomes| ==> outcomes[k].NotRun?
      ensures !Terminal(old(TheStore().task.status)) ==>
                Consistent(TheStore().Now()) && Ends(TheStore().events) <= 1 && NoFalseSuccess(TheStore().task)
      ensures old(TheStore().events) <= TheStore().events
      ensures SoundWrites(old(TheStore().writes), TheStore().writes, old(TheStore().task.limits.activeParallel) + 1)
      ensures TheStore().task.limits.activeParallel == old(TheStore().task.limits.activeParallel)
      ensures Debounced(old(TheStore().jobs), MAX_FAILURES) ==>
                Debounced(TheStore().jobs, MAX_FAILURES) && FailuresBounded(TheStore().jobs, MAX_FAILURES)
      ensures |outcomes| == |plans| && EndsForGood(outcomes)
    {
      var store := TheStore();
      ghost var ended := Terminal(store.task.status);
      outcomes := [];
      for k := 0 to |plans|
        invariant |outcomes| == k && EndsForGood(outcomes)
        invariant ended ==> store.Now() == old(store.Now()) && forall j :: 0 <= j < k ==> outcomes[j].NotRun?
        invariant !ended ==> Consistent(store.Now())
        invariant old(store.events) <= store.events
        invariant SoundWrites(old(store.writes), store.writes, old(store.task.limits.activeParallel) + 1)
        invariant store.task.limits.activeParallel == old(store.task.limits.activeParallel)
        invariant Debounced(old(store.jobs), MAX_FAILURES) ==> Debounced(store.jobs, MAX_FAILURES)
        invariant forall j :: 0 <= j < k && EndOfTask(outcomes[j]).Some? ==>
                    EndOfTask(outcomes[j]).value == store.task.status && Terminal(store.task.status)
      {
        ghost var before := store.Now();
        var outcome, account := RunEpisode(plans[k]);
        SoundWritesJoin(old(store.writes), before.writes, store.writes,
          old(store.task.limits.activeParallel) + 1, old(store.task.limits.activeParallel) + 1);
        outcomes := outcomes + [outcome];
      }
      if !ended {
        ConsistentMeansAtMostOneEnd(store.Now());
      }
      if Debounced(store.jobs, MAX_FAILURES) {
        DebouncedMeansBounded(store.jobs, MAX_FAILURES);
      }
    }
  }

  /** What an episode is given: its settings, and everything the provider and the tools will do. */
  datatype EpisodePlan = EpisodePlan(configured: bool, instructions: string, prompt: string,
    script: nat -> TurnScript, maxTurns: nat, files: RunFiles)

  /** An episode that ends its task had both files on disk; one cut off had not, and tells how far it got. */
  predicate EndsByDisk(outcome: EpisodeOutcome, files: RunFiles) {
    && (EndOfTask(outcome).Some? && !outcome.NotRun? ==> BothLand(files))
    && (outcome.Interrupted? ==> !BothLand(files) && outcome.filed == files.report.Lands?)
  }

  /** How the outcome of an episode reads off the task it leaves. */
  ghost predicate FollowsFrom(before: TaskState, after: TaskState, trail: seq<Execution>, outcome: EpisodeOutcome) {
    match outcome
    case NotRun(_) => false
    case Completed(status) =>
      after.status == status && (status == Succeeded || status == Failed || status == WaitingUser)
      && OwnRun(before, after, status, trail)
    case Errored(error) =>
      (if error.MaxTurnsExceeded? then after.status == Failed else !Terminal(after.status))
      && OwnRun(before, after, Failed, trail)
    case Interrupted(filed) =>
      !Terminal(after.status) && OwnRun(before, after, Running, trail) && (filed ==> FinalReport in after.files.roles)
    case Escaped => !Terminal(after.status) && OwnRun(before, after, Running, trail)
  }

  /** The terminal status an outcome reports, if it reports one. */
  function EndOfTask(outcome: EpisodeOutcome): Option<TaskStatus> {
    match outcome
    case NotRun(status) => Some(status)
    case Completed(status) => if Terminal(status) then Some(status) else None
    case Errored(error) => if error.MaxTurnsExceeded? then Some(Failed) else None
    case Interrupted(_) => None
    case Escaped => None
  }

  /** Once an episode has ended the task, every later one is told so and runs nothing. */
  ghost predicate EndsForGood(outcomes: seq<EpisodeOutcome>) {
    forall i, j :: 0 <= i < j < |outcomes| && EndOfTask(outcomes[i]).Some? ==>
        outcomes[j] == NotRun(EndOfTask(outcomes[i]).value)
  }

  lemma {:induction false} KeptThenKept(a: Snapshot, b: Snapshot, c: Snapshot, trail: seq<Execution>)
    requires Kept(a, b, trail) && Kept(b, c, [])
    ensures Kept(a, c, trail)
  {
  }

  /**
   * The verdict over a whole episode: what the public log says last about evidence is what the model was
   * last shown in it, and the verdict follows that exactly when no failure is masked.
   */
  lemma {:induction false} EpisodeVerdictFollowsIff(
    before: Snapshot, after: Snapshot, status: TaskStatus, trail: seq<Execution>)
    requires Kept(before, after, trail) && OwnRun(before.task, after.task, status, trail)
    requires !HasOpenBlocking(after.task.failures) && LastObserved(trail).Some?
    ensures LastReported(after.events) == LastObserved(trail)
    ensures FinalStatusForStop(after.task, after.events) == StatusFor(LastObserved(trail).value)
       <==> !FailureIsMasked(trail)
  {
    ReportsSuffice(after.events);
    ObservedIsReported(Reports(before.events), trail);
    VerdictFollowsObservationIff(after.task, after.events, trail);
  }
}
