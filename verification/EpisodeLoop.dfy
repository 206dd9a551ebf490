/**
 * The bounded tool loop of one episode (backend/app/agents/main_agent.py,
 * `OpenAICompatibleToolLoopRunner.run_orchestration` and `_finalize_runtime_stop`).
 */
module EpisodeLoop {
  import opened Options
  import opened RouterSchema
  import opened TaskStore
  import opened Debounce = RetryDebounce
  import opened CallRecords
  import opened RunInvariants
  import opened ToolEffects
  import opened ToolExecution
  import opened FinalVerdict
  import opened MessageLog

  const MAX_STOP_BLOCKS: nat := 2

  const FINAL_REPORT_PATH := ".router/runs/task/main_agent_final_report.json"
  const REPLAY_LOG_PATH := ".router/runs/task/main_agent_replay_log.json"
  const CONTINUE_TEXT := "Runtime stop was blocked: no final response or tool call was provided."

  datatype Turn = Turn(content: string, calls: seq<ToolCall>)

  /** What one request to the provider can come to. */
  datatype ModelReply = Answers(turn: Turn) | ProviderFails | ConfigurationFails | BehaviorFails | Crashes

  /** The first reply of a turn, and the reply to the retry without streaming. */
  datatype TurnScript = TurnScript(first: ModelReply, retry: ModelReply)

  datatype LoopError = MaxTurnsExceeded | ProviderError | ConfigurationError | BehaviorError | Crash

  datatype LoopOutcome =
    | Stopped(status: TaskStatus)
    | GaveUp
    | CutOff(status: TaskStatus, filed: bool)
    | Paused(status: TaskStatus)
    | LoopRaised(error: LoopError)

  /** What the disk does with the two files a run leaves. */
  datatype RunFiles = RunFiles(report: DiskFate, log: DiskFate)

  predicate BothLand(files: RunFiles) { files.report.Lands? && files.log.Lands? }

  function CallIds(calls: seq<ToolCall>): (ids: seq<string>)
    ensures |ids| == |calls|
  {
    seq(|calls|, k requires 0 <= k < |calls| => calls[k].id)
  }

  function ErrorOf(reply: ModelReply): LoopError
    requires !reply.Answers?
  {
    match reply
    case ProviderFails => ProviderError
    case ConfigurationFails => ConfigurationError
    case BehaviorFails => BehaviorError
    case Crashes => Crash
  }

  // ---- what the loop accumulates ----

  function Charges(trail: seq<Execution>): nat {
    if trail == [] then 0 else Charges(trail[..|trail| - 1]) + (if trail[|trail| - 1].charged then 1 else 0)
  }

  /** What a sequence of executed calls adds: records, worker calls, reported results, a debounced history. */
  ghost predicate Tallied(a: Snapshot, b: Snapshot, trail: seq<Execution>) {
    && b.task.latestRun == a.task.latestRun
    && b.task.runs == AddCalls(a.task.runs, a.task.latestRun, RecordsOf(trail))
    && b.task.limits.callsUsed == a.task.limits.callsUsed + Charges(trail)
    && (Debounced(a.jobs, MAX_FAILURES) ==> Debounced(b.jobs, MAX_FAILURES))
    && Reports(b.events) == Reports(a.events) + ShownBy(trail)
    && AllEnded(trail)
  }

  /** The store after a sequence of executed tool calls, none of which ended the task. */
  ghost predicate Progressed(a: Snapshot, b: Snapshot, trail: seq<Execution>) {
    Advances(a, b) && Tallied(a, b, trail)
  }

  lemma {:induction false} ProgressStarts(a: Snapshot)
    requires Sound(a.task)
    ensures Progressed(a, a, [])
  {
    NoWrite(a, []);
    AddCallsIsRepeated(a.task.runs, a.task.latestRun, [], []);
    assert ShownBy([]) == [];
  }

  lemma {:induction false} OneIsTallied(b: Snapshot, c: Snapshot, e: Execution)
    requires Executed(b, c, e)
    ensures Tallied(b, c, [e])
  {
    assert RecordsOf([]) == [] && RecordsOf([e]) == RecordOf(e) by { RecordsOfNext([], e); assert [] + [e] == [e]; }
    assert Charges([]) == 0 && [e][..0] == [];
    assert ShownBy([e]) == [ToolResulted(e.tool, e.shown)];
  }

  lemma {:induction false} ProgressNext(a: Snapshot, b: Snapshot, c: Snapshot, trail: seq<Execution>, e: Execution)
    requires Progressed(a, b, trail) && Executed(b, c, e)
    ensures Progressed(a, c, trail + [e])
  {
    OneIsTallied(b, c, e);
    ProgressJoins(a, b, c, trail, [e]);
  }

  lemma {:induction false} ProgressAnnounced(a: Snapshot, b: Snapshot, c: Snapshot, trail: seq<Execution>)
    requires Progressed(a, b, trail) && OnlyAnnounced(b, c)
    ensures Progressed(a, c, trail)
  {
    SilenceReportsNothing(b.events, c.events);
  }

  lemma {:induction false} AnnouncedIsTransitive(a: Snapshot, b: Snapshot, c: Snapshot)
    requires OnlyAnnounced(a, b) && OnlyAnnounced(b, c)
    ensures OnlyAnnounced(a, c)
  {
  }

  lemma {:induction false} ChargesSplit(a: seq<Execution>, b: seq<Execution>)
    ensures Charges(a + b) == Charges(a) + Charges(b)
  {
    if b == [] {
      assert a + b == a;
    } else {
      var n := |b| - 1;
      ChargesSplit(a, b[..n]);
      assert (a + b)[..|a| + n] == a + b[..n];
    }
  }

  lemma {:induction false} RunsJoin(
    runs: seq<AgentRun>, latest: Option<nat>, first: seq<Execution>, second: seq<Execution>)
    ensures AddCalls(AddCalls(runs, latest, RecordsOf(first)), latest, RecordsOf(second))
         == AddCalls(runs, latest, RecordsOf(first + second))
  {
    RecordsOfSplit(first, second);
    AddCallsIsRepeated(runs, latest, RecordsOf(first), RecordsOf(second));
  }

  lemma {:induction false} TallyJoins(
    a: Snapshot, b: Snapshot, c: Snapshot, first: seq<Execution>, second: seq<Execution>)
    requires Tallied(a, b, first) && Tallied(b, c, second)
    ensures Tallied(a, c, first + second)
  {
    RunsJoin(a.task.runs, a.task.latestRun, first, second);
    ChargesSplit(first, second);
    ReportsJoin(Reports(a.events), Reports(b.events), Reports(c.events), first, second);
  }

  lemma {:induction false} ReportsJoin(
    x: seq<Event>, y: seq<Event>, z: seq<Event>, first: seq<Execution>, second: seq<Execution>)
    requires y == x + ShownBy(first) && z == y + ShownBy(second) && AllEnded(first) && AllEnded(second)
    ensures z == x + ShownBy(first + second) && AllEnded(first + second)
  {
    ShownBySplit(first, second);
  }

  lemma {:induction false} ShownBySplit(first: seq<Execution>, second: seq<Execution>)
    ensures ShownBy(first + second) == ShownBy(first) + ShownBy(second)
    ensures AllEnded(first) && AllEnded(second) ==> AllEnded(first + second)
  {
  }

  lemma {:induction false} ProgressJoins(
    a: Snapshot, b: Snapshot, c: Snapshot, first: seq<Execution>, second: seq<Execution>)
    requires Progressed(a, b, first) && Advances(b, c) && Tallied(b, c, second)
    ensures Progressed(a, c, first + second)
  {
    AdvancesIsTransitive(a, b, c);
    TallyJoins(a, b, c, first, second);
  }

  /** Every request sent was the compacted copy of a well-shaped beginning of the log. */
  ghost predicate RequestsComeFrom(
    log: seq<Message>, requests: seq<seq<Message>>, sentAt: seq<nat>, cleared: string -> string) {
    && |sentAt| == |requests|
    && (forall i :: 0 <= i < |requests| ==> SentFrom(log, requests[i], sentAt[i], cleared))
    && (forall i, j :: 0 <= i < j < |sentAt| ==> sentAt[i] <= sentAt[j])
  }

  ghost predicate SentFrom(log: seq<Message>, request: seq<Message>, n: nat, cleared: string -> string) {
    n <= |log| && WellShaped(log[..n]) && request == Compact(log[..n], cleared)
  }

  lemma {:induction false} LogGrows(
    log: seq<Message>, more: seq<Message>, requests: seq<seq<Message>>, sentAt: seq<nat>, cleared: string -> string)
    requires RequestsComeFrom(log, requests, sentAt, cleared)
    ensures RequestsComeFrom(log + more, requests, sentAt, cleared)
  {
    forall i | 0 <= i < |requests| ensures SentFrom(log + more, requests[i], sentAt[i], cleared) {
      assert SentFrom(log, requests[i], sentAt[i], cleared);
      assert (log + more)[..sentAt[i]] == log[..sentAt[i]];
    }
  }

  lemma {:induction false} RequestSent(
    log: seq<Message>, requests: seq<seq<Message>>, sentAt: seq<nat>, cleared: string -> string)
    requires RequestsComeFrom(log, requests, sentAt, cleared) && WellShaped(log)
    ensures RequestsComeFrom(log, requests + [Compact(log, cleared)], sentAt + [|log|], cleared)
  {
    assert log[..|log|] == log;
    assert SentFrom(log, Compact(log, cleared), |log|, cleared);
  }

  /** Compaction is monotone over a run: what one request clears, every later request clears to the same text. */
  lemma {:induction false} ClearedThroughoutTheRun(
    log: seq<Message>, requests: seq<seq<Message>>, sentAt: seq<nat>, cleared: string -> string,
    i: nat, j: nat, k: nat)
    requires RequestsComeFrom(log, requests, sentAt, cleared)
    requires i <= j < |requests| && k < |requests[i]| && requests[i][k] != log[k]
    ensures k < |requests[j]| && requests[j][k] == requests[i][k]
  {
    assert SentFrom(log, requests[i], sentAt[i], cleared) && SentFrom(log, requests[j], sentAt[j], cleared);
    ClearedStaysCleared(log[..sentAt[i]], log[..sentAt[j]], cleared, k);
  }

  /** Every request of a run keeps the protocol and sends at most six oversized results in full. */
  lemma {:induction false} RequestsAreWellShaped(
    log: seq<Message>, requests: seq<seq<Message>>, sentAt: seq<nat>, cleared: string -> string, i: nat)
    requires RequestsComeFrom(log, requests, sentAt, cleared) && i < |requests|
    ensures WellShaped(requests[i])
    ensures sentAt[i] <= |log| && |requests[i]| == sentAt[i] && |Uncleared(log[..sentAt[i]], sentAt[i])| <= KEEP_RECENT
  {
    assert SentFrom(log, requests[i], sentAt[i], cleared);
    CompactIsWellShaped(log[..sentAt[i]], cleared);
    FewAreUncleared(log[..sentAt[i]]);
  }

  /** The moments before and after each of these executed calls; only the last call may end the turn. */
  ghost predicate StepByStep(moments: seq<Snapshot>, trail: seq<Execution>) {
    && |moments| == |trail| + 1
    && (forall k :: 0 <= k < |trail| ==> Executed(moments[k], moments[k + 1], trail[k]))
    && (forall k :: 0 < k < |trail| ==> MayGoOn(moments[k].task))
  }

  /** Part of the way through the calls of a turn: each executed call is answered, in order. */
  ghost predicate Midway(
    start: Snapshot, now: Snapshot, calls: seq<ToolCall>, answers: seq<Message>, trail: seq<Execution>,
    moments: seq<Snapshot>) {
    && StepByStep(moments, trail) && moments[0] == start && moments[|trail|] == now && Sound(now.task)
    && |trail| == |answers| <= |calls| && answers == Replies(calls)[..|trail|]
    && forall k :: 0 <= k < |trail| ==> trail[k].tool == calls[k].tool
  }

  lemma {:induction false} OneStepMore(moments: seq<Snapshot>, trail: seq<Execution>, now: Snapshot, e: Execution)
    requires StepByStep(moments, trail) && Executed(moments[|trail|], now, e)
    requires trail != [] ==> MayGoOn(moments[|trail|].task)
    ensures StepByStep(moments + [now], trail + [e])
  {
  }

  lemma {:induction false} StepsAreProgress(moments: seq<Snapshot>, trail: seq<Execution>, n: nat)
    requires StepByStep(moments, trail) && Sound(moments[0].task) && n <= |trail|
    ensures Progressed(moments[0], moments[n], trail[..n])
  {
    if n == 0 {
      ProgressStarts(moments[0]);
    } else {
      StepsAreProgress(moments, trail, n - 1);
      OneStep(moments, trail, n - 1);
      ProgressNext(moments[0], moments[n - 1], moments[n], trail[..n - 1], trail[n - 1]);
      assert trail[..n - 1] + [trail[n - 1]] == trail[..n];
    }
  }

  lemma {:induction false} OneStep(moments: seq<Snapshot>, trail: seq<Execution>, k: nat)
    requires StepByStep(moments, trail) && k < |trail|
    ensures Executed(moments[k], moments[k + 1], trail[k])
  {
  }

  // ---- finalization ----

  function WithReport(t: TaskState): TaskState { WithPath(t, FINAL_REPORT_PATH, Some(FinalReport)) }

  function WithRunFiles(t: TaskState): TaskState {
    WithPath(WithReport(t), REPLAY_LOG_PATH, Some(MainAgentLog))
  }

  function Ended(t: TaskState, status: TaskStatus): TaskState { t.(status := status, phase := Completed) }

  /** Records written on the way to an end: sound, and never more than one worker above the start. */
  ghost predicate SoundWrites(before: seq<Write>, now: seq<Write>, peak: nat) {
    && before <= now
    && forall k :: |before| <= k < |now| ==> Sound(now[k].task) && now[k].task.limits.activeParallel <= peak
  }

  /** The report, then the log, filed when the public log had reached `at`. */
  function FilingWrites(t: TaskState, at: nat): seq<Write> {
    [Write(WithReport(t), at), Write(WithRunFiles(t), at)]
  }

  /**
   * From a running task to a finished one, announced by `first`. Writes and events interleave: report and
   * log are filed before the run's completion is announced, the final status is written after that and
   * before the task's end.
   */
  ghost predicate ClosedAfter(a: Snapshot, b: Snapshot, status: TaskStatus, first: Event) {
    && b.task == Ended(WithRunFiles(a.task), status) && Sound(b.task)
    && b.events == a.events + [first, AgentCompleted(status), TaskEnded(status)]
    && b.writes == a.writes + FilingWrites(a.task, |a.events| + 1) + [Write(b.task, |a.events| + 2)]
    && SoundWrites(a.writes, b.writes, a.task.limits.activeParallel)
    && b.jobs == a.jobs
  }

  ghost predicate Finalized(a: Snapshot, b: Snapshot, status: TaskStatus) {
    ClosedAfter(a, b, status, FinalResponse(status))
  }

  /**
   * A closing that the disk cut off: it was announced, the report was filed if that much landed, and then
   * the exception left the task as unfinished as it was.
   */
  ghost predicate CutAfter(a: Snapshot, b: Snapshot, first: Event, filed: bool) {
    && b.task == (if filed then WithReport(a.task) else a.task) && Sound(b.task)
    && b.events == a.events + [first]
    && b.writes == a.writes + (if filed then [Write(WithReport(a.task), |a.events| + 1)] else [])
    && SoundWrites(a.writes, b.writes, a.task.limits.activeParallel)
    && b.jobs == a.jobs
  }

  lemma {:induction false} ClosesAfter(a: Snapshot, b: Snapshot, status: TaskStatus, first: Event)
    requires Sound(a.task) && (status == Succeeded ==> !HasOpenBlocking(a.task.failures))
    requires b.task == Ended(WithRunFiles(a.task), status) && b.jobs == a.jobs
    requires b.events == a.events + [first, AgentCompleted(status), TaskEnded(status)]
    requires b.writes == a.writes + FilingWrites(a.task, |a.events| + 1) + [Write(b.task, |a.events| + 2)]
    ensures ClosedAfter(a, b, status, first)
  {
  }

  /** The three closing events of a run that ends its task. */
  function Closing(status: TaskStatus): seq<Event> {
    [FinalResponse(status), AgentCompleted(status), TaskEnded(status)]
  }

  lemma {:induction false} ClosingReportsNothing(events: seq<Event>, first: Event, status: TaskStatus)
    requires !first.ToolResulted?
    ensures Reports(events + [first, AgentCompleted(status), TaskEnded(status)]) == Reports(events)
  {
    var one, two := events + [first], events + [first] + [AgentCompleted(status)];
    ReportsNext(events, first);
    ReportsNext(one, AgentCompleted(status));
    ReportsNext(two, TaskEnded(status));
    assert events + [first, AgentCompleted(status), TaskEnded(status)] == two + [TaskEnded(status)];
  }

  // ---- one run of the loop ----

  /** What a run leaves behind for its reader: messages, requests and executed calls. */
  datatype Account = Account(log: seq<Message>, requests: seq<seq<Message>>, sentAt: seq<nat>, trail: seq<Execution>)

  ghost predicate KeepsProtocol(account: Account, cleared: string -> string) {
    RequestsComeFrom(account.log, account.requests, account.sentAt, cleared)
  }

  /** What a call must leave for the run to go on: a task that neither waits for the user nor has ended. */
  predicate MayGoOn(t: TaskState) {
    && t.status != WaitingUser
    && t.status != Succeeded && t.status != PartialFailed && t.status != Failed && t.status != Cancelled
  }

  /**
   * Between two turns: nothing has ended, no executed call left the task waiting, the log is well-shaped,
   * and at most one turn was empty, none was final.
   */
  ghost predicate Underway(start: Snapshot, now: Snapshot, account: Account, blocks: nat, cleared: string -> string) {
    && Progressed(start, now, account.trail) && (account.trail != [] ==> MayGoOn(now.task))
    && WellShaped(account.log) && KeepsProtocol(account, cleared)
    && blocks == EmptyTurns(account.log) && blocks < MAX_STOP_BLOCKS && FinalAnswers(account.log) == 0
  }

  /** The model gave its final answer, or stayed silent a second time, or neither. */
  ghost predicate HasAnswered(log: seq<Message>) { FinalAnswers(log) == 1 && EmptyTurns(log) < MAX_STOP_BLOCKS }
  ghost predicate Surrenders(log: seq<Message>) { FinalAnswers(log) == 0 && EmptyTurns(log) == MAX_STOP_BLOCKS }
  ghost predicate GoesOn(log: seq<Message>) { FinalAnswers(log) == 0 && EmptyTurns(log) < MAX_STOP_BLOCKS }

  /**
   * How a run may end. A stop or a surrender finalizes the task right after `last`, the moment the loop
   * left it, unless the disk cuts the closing off; a pause or an exception leaves it there. Once a call
   * has been executed, the run pauses exactly if the last call left the task waiting.
   */
  ghost predicate Over(
    start: Snapshot, last: Snapshot, now: Snapshot, account: Account, outcome: LoopOutcome, cleared: string -> string) {
    && Progressed(start, last, account.trail)
    && KeepsProtocol(account, cleared)
    && (outcome.Paused? ==> account.trail != [])
    && (account.trail != [] ==> (outcome.Paused? <==> !MayGoOn(last.task)))
    && match outcome
       case Stopped(status) =>
         HasAnswered(account.log) && Finalized(last, now, status) && status == FinalStatusForStop(now.task, now.events)
       case GaveUp => Surrenders(account.log) && Finalized(last, now, Failed)
       case CutOff(status, filed) =>
         && CutAfter(last, now, FinalResponse(status), filed) && (status == Succeeded || status == Failed)
         && (if HasAnswered(account.log) then status == FinalStatusForStop(now.task, now.events)
             else Surrenders(account.log) && status == Failed)
       case Paused(status) => GoesOn(account.log) && now == last && now.task.status == status == WaitingUser
       case LoopRaised(_) => GoesOn(account.log) && now == last
  }

  /** A closing is cut off exactly when the disk refuses one of its files, and then it tells how far it got. */
  predicate FilesDecide(outcome: LoopOutcome, files: RunFiles) {
    && (outcome.Stopped? || outcome.GaveUp? ==> BothLand(files))
    && (outcome.CutOff? ==> !BothLand(files) && outcome.filed == files.report.Lands?)
  }

  /** One more request on record. */
  function Sent(account: Account, request: seq<Message>): Account {
    account.(requests := account.requests + [request], sentAt := account.sentAt + [|account.log|])
  }

  lemma {:induction false} SentKeepsProtocol(account: Account, cleared: string -> string)
    requires WellShaped(account.log) && KeepsProtocol(account, cleared)
    ensures KeepsProtocol(Sent(account, Compact(account.log, cleared)), cleared)
  {
    RequestSent(account.log, account.requests, account.sentAt, cleared);
  }

  /** The tool messages a turn's calls are answered with. */
  function Replies(calls: seq<ToolCall>): (replies: seq<Message>)
    ensures |replies| == |calls|
  {
    seq(|calls|, k requires 0 <= k < |calls| => ToolMessage(calls[k].id, calls[k].rendering))
  }

  lemma {:induction false} RepliesAnswer(calls: seq<ToolCall>, n: nat)
    requires n <= |calls|
    ensures AnswersTo(Replies(calls)[..n], CallIds(calls)[..n])
  {
  }

  /** The closing events report no evidence, so the stored task still explains its own status. */
  lemma {:induction false} VerdictSurvives(last: Snapshot, now: Snapshot, status: TaskStatus)
    requires Finalized(last, now, status)
    ensures FinalStatusForStop(now.task, now.events) == FinalStatusForStop(last.task, last.events)
  {
    QuietEvents(last.task, last.events, Closing(status));
  }

  lemma {:induction false} VerdictSurvivesACut(last: Snapshot, now: Snapshot, status: TaskStatus, filed: bool)
    requires CutAfter(last, now, FinalResponse(status), filed)
    ensures FinalStatusForStop(now.task, now.events) == FinalStatusForStop(last.task, last.events)
  {
    QuietEvents(last.task, last.events, [FinalResponse(status)]);
  }

  lemma {:induction false} SpeakPlainly(account: Account, m: Message, cleared: string -> string)
    requires WellShaped(account.log) && KeepsProtocol(account, cleared)
    requires !m.ToolMessage? && (m.AssistantMessage? ==> m.callIds == [])
    ensures var said := account.(log := account.log + [m]);
            && WellShaped(said.log) && KeepsProtocol(said, cleared)
            && EmptyTurns(said.log) == EmptyTurns(account.log) + (if EmptyTurn(m) then 1 else 0)
            && FinalAnswers(said.log) == FinalAnswers(account.log) + (if FinalAnswer(m) then 1 else 0)
  {
    AppendPlain(account.log, m);
    LogGrows(account.log, [m], account.requests, account.sentAt, cleared);
    EmptyTurnsNext(account.log, m);
    FinalAnswersNext(account.log, m);
  }

  /** A turn with calls, and as many of its answers as there are. */
  lemma {:induction false} SpeakAndAnswer(
    account: Account, m: Message, answers: seq<Message>, cleared: string -> string)
    requires WellShaped(account.log) && KeepsProtocol(account, cleared)
    requires m.AssistantMessage? && m.callIds != [] && |answers| <= |m.callIds|
    requires AnswersTo(answers, m.callIds[..|answers|])
    ensures var said := account.(log := account.log + [m] + answers);
            && (|answers| == |m.callIds| ==> WellShaped(said.log))
            && KeepsProtocol(said, cleared)
            && EmptyTurns(said.log) == EmptyTurns(account.log) && FinalAnswers(said.log) == FinalAnswers(account.log)
  {
    if |answers| == |m.callIds| {
      assert m.callIds[..|answers|] == m.callIds;
      AppendRound(account.log, m, answers);
    }
    LogGrows(account.log, [m] + answers, account.requests, account.sentAt, cleared);
    assert account.log + ([m] + answers) == account.log + [m] + answers;
    EmptyTurnsNext(account.log, m);
    FinalAnswersNext(account.log, m);
    AnswersEndNothing(account.log + [m], answers);
  }

  lemma {:induction false} StartsWellShaped(instructions: string, prompt: string)
    ensures var log := [SystemMessage(instructions), UserMessage(prompt)];
            WellShaped(log) && EmptyTurns(log) == 0 && FinalAnswers(log) == 0
  {
    var log := [SystemMessage(instructions), UserMessage(prompt)];
    EmptyTurnsNext([], log[0]);
    FinalAnswersNext([], log[0]);
    EmptyTurnsNext([log[0]], log[1]);
    FinalAnswersNext([log[0]], log[1]);
    assert [] + [log[0]] == [log[0]] && [log[0]] + [log[1]] == log;
  }

  class ToolLoopRunner {
    const executor: ToolExecutor
    const stream: bool
    const cleared: string -> string

    constructor (executor: ToolExecutor, stream: bool, cleared: string -> string)
      ensures this.executor == executor && this.stream == stream && this.cleared == cleared
    {
      this.executor, this.stream, this.cleared := executor, stream, cleared;
    }

    function TheStore(): Store { executor.service.store }

    method Announce(e: Event)
      requires Silent(e)
      modifies TheStore()`events
      ensures OnlyAnnounced(old(TheStore().Now()), TheStore().Now())
      ensures TheStore().events == old(TheStore().events) + [e]
    {
      TheStore().Append(e);
    }

    /** Writes the final report and then the replay log, each filed once it is on disk. */
    method WriteRunFiles(files: RunFiles) returns (cut: bool)
      requires Sound(TheStore().task)
      modifies TheStore()`task, TheStore()`writes
      ensures cut <==> !BothLand(files)
      ensures TheStore().task == (if files.report.Refused? then old(TheStore().task)
                                  else if cut then WithReport(old(TheStore().task))
                                  else WithRunFiles(old(TheStore().task)))
      ensures TheStore().writes == old(TheStore().writes)
                + (if files.report.Refused? then []
                   else if cut then [Write(WithReport(old(TheStore().task)), |TheStore().events|)]
                   else FilingWrites(old(TheStore().task), |TheStore().events|))
    {
      var store := TheStore();
      if files.report.Refused? {
        return true;
      }
      store.Update(WithReport(store.task));
      if files.log.Refused? {
        return true;
      }
      store.Update(WithPath(store.task, REPLAY_LOG_PATH, Some(MainAgentLog)));
      cut := false;
    }

    /** Announces, files, records completion, and only then ends the task; a refused file cuts it off. */
    method CloseTask(first: Event, status: TaskStatus, files: RunFiles) returns (cut: bool)
      requires Sound(TheStore().task) && !Terminal(TheStore().task.status)
      requires status == Succeeded || status == Failed
      requires status == Succeeded ==> !HasOpenBlocking(TheStore().task.failures)
      modifies TheStore()
      ensures cut <==> !BothLand(files)
      ensures if cut then CutAfter(old(TheStore().Now()), TheStore().Now(), first, files.report.Lands?)
              else ClosedAfter(old(TheStore().Now()), TheStore().Now(), status, first)
    {
      var store := TheStore();
      store.Append(first);
      cut := WriteRunFiles(files);
      if !cut {
        EndTask(status);
        ClosesAfter(old(TheStore().Now()), TheStore().Now(), status, first);
      }
    }

    /** Announces completion, writes the final status, and ends the task. */
    method EndTask(status: TaskStatus)
      modifies TheStore()`task, TheStore()`events, TheStore()`writes
      ensures TheStore().task == Ended(old(TheStore().task), status)
      ensures TheStore().events == old(TheStore().events) + [AgentCompleted(status), TaskEnded(status)]
      ensures TheStore().writes == old(TheStore().writes) + [Write(TheStore().task, |old(TheStore().events)| + 1)]
    {
      var store := TheStore();
      store.Append(AgentCompleted(status));
      store.Update(Ended(store.task, status));
      store.Append(TaskEnded(status));
    }

    method FinalizeRuntimeStop(status: TaskStatus, files: RunFiles) returns (cut: bool)
      requires Sound(TheStore().task) && !Terminal(TheStore().task.status)
      requires status == Succeeded || status == Failed
      requires status == Succeeded ==> !HasOpenBlocking(TheStore().task.failures)
      modifies TheStore()
      ensures cut <==> !BothLand(files)
      ensures if cut then CutAfter(old(TheStore().Now()), TheStore().Now(), FinalResponse(status), files.report.Lands?)
              else Finalized(old(TheStore().Now()), TheStore().Now(), status)
    {
      cut := CloseTask(FinalResponse(status), status, files);
    }

    /** One model answer: a streamed request that fails is sent again, the same, without streaming. */
    method CompleteTurn(log: seq<Message>, script: TurnScript)
      returns (reply: ModelReply, request: seq<Message>, again: bool)
      modifies TheStore()`events
      ensures request == Compact(log, cleared)
      ensures again <==> script.first.ProviderFails? && stream
      ensures reply == if again then script.retry else script.first
      ensures TheStore().events == old(TheStore().events) + (if again then [AgentDecision] else [])
      ensures OnlyAnnounced(old(TheStore().Now()), TheStore().Now())
    {
      request := MessagesForModelContext(log, cleared);
      reply, again := script.first, false;
      if reply.ProviderFails? && stream {
        Announce(AgentDecision);
        reply, again := script.retry, true;
      }
    }

    /** One call more, after calls that let the turn go on, and whether it ends the turn. */
    method RunCall(
      calls: seq<ToolCall>, answers0: seq<Message>, trail0: seq<Execution>, ghost start: Snapshot,
      ghost moments0: seq<Snapshot>)
      returns (answers: seq<Message>, trail: seq<Execution>, paused: bool, ghost moments: seq<Snapshot>)
      requires executor.Wired() && |trail0| < |calls| && (trail0 != [] ==> MayGoOn(TheStore().task))
      requires Midway(start, TheStore().Now(), calls, answers0, trail0, moments0)
      modifies TheStore()
      ensures |trail| == |trail0| + 1 && Midway(start, TheStore().Now(), calls, answers, trail, moments)
      ensures paused <==> !MayGoOn(TheStore().task)
    {
      var call := calls[|trail0|];
      var e := executor.ExecuteToolCall(call);
      OneStepMore(moments0, trail0, TheStore().Now(), e);
      trail := trail0 + [e];
      answers := answers0 + [ToolMessage(call.id, call.rendering)];
      moments := moments0 + [TheStore().Now()];
      paused := Terminal(TheStore().task.status) || TheStore().task.status.WaitingUser?;
    }

    /** The calls of one turn, accounted for. */
    method RunCalls(calls: seq<ToolCall>)
      returns (answers: seq<Message>, paused: bool, trail: seq<Execution>, ghost moments: seq<Snapshot>)
      requires executor.Wired() && Sound(TheStore().task)
      modifies TheStore()
      ensures Progressed(old(TheStore().Now()), TheStore().Now(), trail)
      ensures StepByStep(moments, trail)
      ensures moments[0] == old(TheStore().Now()) && moments[|trail|] == TheStore().Now()
      ensures |answers| <= |calls| && answers == Replies(calls)[..|answers|]
      ensures calls != [] ==> |answers| > 0 && (paused <==> !MayGoOn(TheStore().task))
      ensures !paused ==> |answers| == |calls|
      ensures |trail| == |answers| && forall k :: 0 <= k < |trail| ==> trail[k].tool == calls[k].tool
    {
      answers, paused, trail, moments := RunUntilPause(calls);
      StepsAreProgress(moments, trail, |trail|);
      assert trail[..|trail|] == trail;
    }

    /** The calls of one turn, in order, until one of them leaves the task waiting or ended. */
    method RunUntilPause(calls: seq<ToolCall>)
      returns (answers: seq<Message>, paused: bool, trail: seq<Execution>, ghost moments: seq<Snapshot>)
      requires executor.Wired() && Sound(TheStore().task)
      modifies TheStore()
      ensures Midway(old(TheStore().Now()), TheStore().Now(), calls, answers, trail, moments)
      ensures calls != [] ==> trail != [] && (paused <==> !MayGoOn(TheStore().task))
      ensures !paused ==> |trail| == |calls|
    {
      answers, paused, trail, moments := [], false, [], [TheStore().Now()];
      while !paused && |trail| < |calls|
        invariant Midway(old(TheStore().Now()), TheStore().Now(), calls, answers, trail, moments)
        invariant trail != [] ==> (paused <==> !MayGoOn(TheStore().task))
        invariant trail == [] ==> !paused
      {
        answers, trail, paused, moments := RunCall(calls, answers, trail, old(TheStore().Now()), moments);
      }
    }

    /** Asks the model for one turn; the request is the compacted log, and it is on record. */
    method AskModel(ghost start: Snapshot, account0: Account, ghost blocks: nat, script: TurnScript, turn: nat)
      returns (reply: ModelReply, account: Account)
      requires Underway(start, TheStore().Now(), account0, blocks, cleared)
      modifies TheStore()`events
      ensures Underway(start, TheStore().Now(), account, blocks, cleared)
      ensures account.log == account0.log && account.trail == account0.trail
      ensures TheStore().events == old(TheStore().events) + [TurnStarted(turn)]
                + (if script.first.ProviderFails? && stream then [AgentDecision] else [])
      ensures var again := script.first.ProviderFails? && stream;
              var request := Compact(account0.log, cleared);
              && reply == (if again then script.retry else script.first)
              && account.requests == account0.requests + (if again then [request, request] else [request])
    {
      ghost var begun := TheStore().Now();
      Announce(TurnStarted(turn));
      ghost var announced := TheStore().Now();
      var request, again;
      reply, request, again := CompleteTurn(account0.log, script);
      AnnouncedIsTransitive(begun, announced, TheStore().Now());
      ProgressAnnounced(start, begun, TheStore().Now(), account0.trail);
      account := Sent(account0, request);
      SentKeepsProtocol(account0, cleared);
      if again {
        account := Sent(account, request);
        SentKeepsProtocol(Sent(account0, request), cleared);
      }
    }

    /** The model stopped with a final answer: judge the task and finalize it. */
    method StopOnAnswer(
      ghost start: Snapshot, account0: Account, ghost blocks: nat, content: string, files: RunFiles)
      returns (outcome: LoopOutcome, account: Account, ghost last: Snapshot)
      requires content != "" && Underway(start, TheStore().Now(), account0, blocks, cleared)
      requires !Terminal(start.task.status)
      modifies TheStore()
      ensures if BothLand(files) then outcome.Stopped? else outcome.CutOff?
      ensures Over(start, last, TheStore().Now(), account, outcome, cleared) && FilesDecide(outcome, files)
      ensures account == account0.(log := account0.log + [AssistantMessage(content, [])])
      ensures TheStore().events == old(TheStore().events)
                + (if outcome.Stopped? then Closing(outcome.status) else [FinalResponse(outcome.status)])
    {
      account := account0.(log := account0.log + [AssistantMessage(content, [])]);
      SpeakPlainly(account0, AssistantMessage(content, []), cleared);
      last := TheStore().Now();
      VerdictIsFailedIff(TheStore().task, TheStore().events);
      var status := FinalStatusForStop(TheStore().task, TheStore().events);
      var cut := FinalizeRuntimeStop(status, files);
      if cut {
        VerdictSurvivesACut(last, TheStore().Now(), status, files.report.Lands?);
        outcome := CutOff(status, files.report.Lands?);
      } else {
        VerdictSurvives(last, TheStore().Now(), status);
        outcome := Stopped(status);
      }
    }

    /** Notes an empty turn in the log and in public. */
    method NoteEmptyTurn(ghost start: Snapshot, account0: Account, blocks: nat) returns (account: Account)
      requires blocks >= 1 && Underway(start, TheStore().Now(), account0, blocks - 1, cleared)
      modifies TheStore()`events
      ensures account == account0.(log := account0.log + [AssistantMessage("", [])])
      ensures TheStore().events == old(TheStore().events) + [StopBlocked(blocks)]
      ensures Progressed(start, TheStore().Now(), account.trail)
      ensures OnlyAnnounced(old(TheStore().Now()), TheStore().Now())
      ensures WellShaped(account.log) && KeepsProtocol(account, cleared)
      ensures EmptyTurns(account.log) == blocks && FinalAnswers(account.log) == 0
    {
      account := account0.(log := account0.log + [AssistantMessage("", [])]);
      SpeakPlainly(account0, AssistantMessage("", []), cleared);
      Announce(StopBlocked(blocks));
      ProgressAnnounced(start, old(TheStore().Now()), TheStore().Now(), account.trail);
    }

    /** The model said nothing and called nothing: the first time it is asked to go on, the second time it is over. */
    method BlockEmptyTurn(ghost start: Snapshot, account0: Account, blocks0: nat, files: RunFiles)
      returns (ending: Option<LoopOutcome>, account: Account, blocks: nat, ghost last: Snapshot)
      requires Underway(start, TheStore().Now(), account0, blocks0, cleared) && !Terminal(start.task.status)
      modifies TheStore()
      ensures account == account0.(log := account0.log + [AssistantMessage("", [])]
              + (if ending.Some? then [] else [UserMessage(CONTINUE_TEXT)]))
      ensures blocks == blocks0 + 1
      ensures TheStore().events == old(TheStore().events) + [StopBlocked(blocks)]
              + (if ending.None? then [] else if BothLand(files) then Closing(Failed) else [FinalResponse(Failed)])
      ensures ending.Some? <==> blocks0 == 1
      ensures ending.Some? ==> ending.value == if BothLand(files) then GaveUp else CutOff(Failed, files.report.Lands?)
      ensures ending.Some? ==> Over(start, last, TheStore().Now(), account, ending.value, cleared)
      ensures ending.None? ==> Underway(start, TheStore().Now(), account, blocks, cleared)
    {
      blocks := blocks0 + 1;
      account := NoteEmptyTurn(start, account0, blocks);
      last := TheStore().Now();
      if blocks >= MAX_STOP_BLOCKS {
        var cut := FinalizeRuntimeStop(Failed, files);
        ending := Some(if cut then CutOff(Failed, files.report.Lands?) else GaveUp);
        return;
      }
      SpeakPlainly(account, UserMessage(CONTINUE_TEXT), cleared);
      account := account.(log := account.log + [UserMessage(CONTINUE_TEXT)]);
      ending := None;
    }

    /** The model called tools: run them and send their answers back. */
    method RunTurn(ghost start: Snapshot, account0: Account, ghost blocks: nat, turn: Turn)
      returns (paused: bool, account: Account)
      requires executor.Wired() && turn.calls != []
      requires Underway(start, TheStore().Now(), account0, blocks, cleared) && !Terminal(start.task.status)
      modifies TheStore()
      ensures account0.trail <= account.trail && |account.trail| - |account0.trail| <= |turn.calls|
      ensures account.log == account0.log + [AssistantMessage(turn.content, CallIds(turn.calls))]
                               + Replies(turn.calls)[..|account.trail| - |account0.trail|]
      ensures account.requests == account0.requests && |account.trail| > |account0.trail|
      ensures old(TheStore().events) + (if turn.content != "" then [AgentMessage] else []) <= TheStore().events
      ensures paused <==> TheStore().task.status.WaitingUser? || Terminal(TheStore().task.status)
      ensures paused ==> Over(start, TheStore().Now(), TheStore().Now(), account, Paused(WaitingUser), cleared)
      ensures !paused ==> Underway(start, TheStore().Now(), account, blocks, cleared)
    {
      ghost var before := TheStore().Now();
      var message := AssistantMessage(turn.content, CallIds(turn.calls));
      if turn.content != "" {
        Announce(AgentMessage);
        ProgressAnnounced(start, before, TheStore().Now(), account0.trail);
      }
      ghost var spoken := TheStore().Now();
      var answers, trail;
      ghost var moments;
      answers, paused, trail, moments := RunCalls(turn.calls);
      ProgressJoins(start, spoken, TheStore().Now(), account0.trail, trail);
      RepliesAnswer(turn.calls, |answers|);
      SpeakAndAnswer(account0, message, answers, cleared);
      account := account0.(log := account0.log + [message] + answers, trail := account0.trail + trail);
    }

    /** One turn of the loop; it goes on only after calls that left the task running, or a first empty turn. */
    method TakeTurn(
      ghost start: Snapshot, account0: Account, blocks0: nat, script: TurnScript, turn: nat, files: RunFiles)
      returns (ending: Option<LoopOutcome>, account: Account, blocks: nat, ghost last: Snapshot)
      requires executor.Wired()
      requires Underway(start, TheStore().Now(), account0, blocks0, cleared) && !Terminal(start.task.status)
      modifies TheStore()
      ensures ending.None? ==> Underway(start, TheStore().Now(), account, blocks, cleared)
      ensures ending.Some? ==> Over(start, last, TheStore().Now(), account, ending.value, cleared)
      ensures ending.Some? ==> FilesDecide(ending.value, files)
      ensures |account.trail| > |account0.trail| ==>
                (if ending.None? then !TheStore().task.status.WaitingUser? && !Terminal(TheStore().task.status)
                 else ending.value == Paused(WaitingUser))
      ensures |account0.requests| < |account.requests| <= |account0.requests| + 2
      ensures ending.Some? && ending.value.LoopRaised? ==> !ending.value.error.MaxTurnsExceeded?
    {
      blocks := blocks0;
      var reply;
      reply, account := AskModel(start, account0, blocks, script, turn);
      if !reply.Answers? {
        last := TheStore().Now();
        ending := Some(LoopRaised(ErrorOf(reply)));
      } else if reply.turn.calls != [] {
        var paused;
        paused, account := RunTurn(start, account, blocks, reply.turn);
        last := TheStore().Now();
        ending := if paused then Some(Paused(TheStore().task.status)) else None;
      } else if reply.turn.content != "" {
        var outcome;
        outcome, account, last := StopOnAnswer(start, account, blocks, reply.turn.content, files);
        ending := Some(outcome);
      } else {
        ending, account, blocks, last := BlockEmptyTurn(start, account, blocks, files);
      }
    }

    /** The bounded loop of one episode. */
    method RunOrchestration(
      configured: bool, instructions: string, prompt: string, script: nat -> TurnScript, maxTurns: nat, files: RunFiles)
      returns (outcome: LoopOutcome, account: Account, ghost last: Snapshot)
      requires executor.Wired() && Sound(TheStore().task) && !Terminal(TheStore().task.status)
      modifies TheStore()
      ensures Over(old(TheStore().Now()), last, TheStore().Now(), account, outcome, cleared)
      ensures FilesDecide(outcome, files)
      ensures !configured ==> outcome == LoopRaised(ConfigurationError)
      ensures |account.requests| <= 2 * maxTurns
      ensures outcome == LoopRaised(MaxTurnsExceeded) ==>
                && |account.requests| >= maxTurns
                && TheStore().events != [] && TheStore().events[|TheStore().events| - 1] == AgentDecision
    {
      ghost var start := TheStore().Now();
      ProgressStarts(start);
      if !configured {
        return LoopRaised(ConfigurationError), Account([], [], [], []), start;
      }
      account := Account([SystemMessage(instructions), UserMessage(prompt)], [], [], []);
      StartsWellShaped(instructions, prompt);
      var blocks: nat := 0;
      for turn := 0 to maxTurns
        invariant Underway(start, TheStore().Now(), account, blocks, cleared)
        invariant turn <= |account.requests| <= 2 * turn
      {
        var ending;
        ending, account, blocks, last := TakeTurn(start, account, blocks, script(turn), turn + 1, files);
        if ending.Some? {
          return ending.value, account, last;
        }
      }
      ghost var before := TheStore().Now();
      Announce(AgentDecision);
      last := TheStore().Now();
      ProgressAnnounced(start, before, last, account.trail);
      outcome := LoopRaised(MaxTurnsExceeded);
    }
  }
}
