/**
 * The call records of an agent run (backend/app/agents/tools.py, `_append_agent_tool_call_record` and
 * `_complete_agent_tool_call_record`): a result is paired with its call by a backward scan on the name.
 */
module CallRecords {
  import opened Options
  import opened RouterSchema

  /** The latest run with one more record; the other runs as they were. */
  function AddCall(runs: seq<AgentRun>, latest: Option<nat>, record: CallRecord): (r: seq<AgentRun>)
    ensures |r| == |runs|
  {
    seq(|runs|, k requires 0 <= k < |runs| =>
      if latest == Some(runs[k].id) then runs[k].(calls := runs[k].calls + [record]) else runs[k])
  }

  /** The latest run with several more records. */
  function AddCalls(runs: seq<AgentRun>, latest: Option<nat>, records: seq<CallRecord>): (r: seq<AgentRun>)
    ensures |r| == |runs|
  {
    seq(|runs|, k requires 0 <= k < |runs| =>
      if latest == Some(runs[k].id) then runs[k].(calls := runs[k].calls + records) else runs[k])
  }

  lemma {:induction false} AddCallsIsRepeated(
    runs: seq<AgentRun>, latest: Option<nat>, records: seq<CallRecord>, more: seq<CallRecord>)
    ensures AddCalls(runs, latest, []) == runs
    ensures AddCalls(AddCalls(runs, latest, records), latest, more) == AddCalls(runs, latest, records + more)
    ensures |more| == 1 ==> AddCall(runs, latest, more[0]) == AddCalls(runs, latest, more)
  {
    var once := AddCalls(runs, latest, records);
    forall k | 0 <= k < |runs|
      ensures AddCalls(runs, latest, [])[k] == runs[k]
      ensures AddCalls(once, latest, more)[k] == AddCalls(runs, latest, records + more)[k]
      ensures |more| == 1 ==> AddCall(runs, latest, more[0])[k] == AddCalls(runs, latest, more)[k]
    {
      assert runs[k].calls + [] == runs[k].calls;
      assert (runs[k].calls + records) + more == runs[k].calls + (records + more);
      assert |more| == 1 ==> [more[0]] == more;
    }
  }

  predicate RunningCall(record: CallRecord, tool: ToolName) {
    record.tool == tool && record.status == CallRunning
  }

  /** The newest running record of this tool, closed. */
  function CloseLast(calls: seq<CallRecord>, tool: ToolName, status: CallStatus): (r: seq<CallRecord>)
    ensures |r| == |calls|
  {
    if calls == [] then []
    else
      var before, last := calls[..|calls| - 1], calls[|calls| - 1];
      if RunningCall(last, tool) then before + [last.(status := status)]
      else CloseLast(before, tool, status) + [last]
  }

  function ClosedRun(run: AgentRun, latest: Option<nat>, tool: ToolName, status: CallStatus): AgentRun {
    if latest == Some(run.id) then run.(calls := CloseLast(run.calls, tool, status)) else run
  }

  function CloseCall(runs: seq<AgentRun>, latest: Option<nat>, tool: ToolName, status: CallStatus): (r: seq<AgentRun>)
    ensures |r| == |runs|
  {
    seq(|runs|, k requires 0 <= k < |runs| => ClosedRun(runs[k], latest, tool, status))
  }

  ghost predicate HasRunning(calls: seq<CallRecord>, tool: ToolName) {
    exists k :: 0 <= k < |calls| && RunningCall(calls[k], tool)
  }

  ghost predicate Closable(run: AgentRun, latest: Option<nat>, tool: ToolName) {
    latest == Some(run.id) && HasRunning(run.calls, tool)
  }

  ghost predicate LatestHasRunning(runs: seq<AgentRun>, latest: Option<nat>, tool: ToolName) {
    exists k :: 0 <= k < |runs| && Closable(runs[k], latest, tool)
  }

  method AppendToLatest(runs: seq<AgentRun>, latest: Option<nat>, record: CallRecord) returns (updated: seq<AgentRun>)
    ensures updated == AddCall(runs, latest, record)
  {
    updated := [];
    for k := 0 to |runs|
      invariant updated == AddCall(runs, latest, record)[..k]
    {
      if latest != Some(runs[k].id) {
        updated := updated + [runs[k]];
      } else {
        updated := updated + [runs[k].(calls := runs[k].calls + [record])];
      }
    }
  }

  /** The backward scan: overwrites the first match from the end. */
  method CloseNewest(calls: seq<CallRecord>, tool: ToolName, status: CallStatus)
    returns (closed: seq<CallRecord>, changed: bool)
    ensures closed == CloseLast(calls, tool, status)
    ensures changed <==> HasRunning(calls, tool)
  {
    closed, changed := calls, false;
    for i := |calls| downto 0
      invariant closed == calls && !changed
      invariant forall j :: i <= j < |calls| ==> !RunningCall(calls[j], tool)
    {
      if RunningCall(calls[i], tool) {
        closed := closed[i := calls[i].(status := status)];
        changed := true;
        CloseTouchesOne(calls, tool, status, i);
        return;
      }
    }
    CloseTouchesNone(calls, tool, status);
  }

  method CloseInRun(run: AgentRun, latest: Option<nat>, tool: ToolName, status: CallStatus)
    returns (closed: AgentRun, changed: bool)
    ensures closed == ClosedRun(run, latest, tool, status)
    ensures changed <==> Closable(run, latest, tool)
  {
    closed, changed := run, false;
    if latest == Some(run.id) {
      var calls;
      calls, changed := CloseNewest(run.calls, tool, status);
      closed := run.(calls := calls);
    }
  }

  method CloseInLatest(runs: seq<AgentRun>, latest: Option<nat>, tool: ToolName, status: CallStatus)
    returns (updated: seq<AgentRun>, changed: bool)
    ensures updated == CloseCall(runs, latest, tool, status)
    ensures changed <==> LatestHasRunning(runs, latest, tool)
  {
    updated, changed := [], false;
    for k := 0 to |runs|
      invariant updated == CloseCall(runs, latest, tool, status)[..k]
      invariant changed ==> LatestHasRunning(runs, latest, tool)
      invariant !changed ==> forall j :: 0 <= j < k ==> !Closable(runs[j], latest, tool)
    {
      var run, hit := CloseInRun(runs[k], latest, tool, status);
      changed := changed || hit;
      updated := updated + [run];
    }
  }

  /**
   * A result closes exactly the record its own call opened, whatever older records of the same tool
   * an exception left running.
   */
  lemma {:induction false} CloseAfterOpen(runs: seq<AgentRun>, latest: Option<nat>, tool: ToolName, status: CallStatus)
    ensures CloseCall(AddCall(runs, latest, CallRecord(tool, CallRunning)), latest, tool, status)
         == AddCall(runs, latest, CallRecord(tool, status))
  {
  }

  /** Adding a call is never lost on the way: a result for an opened call always finds a record. */
  lemma {:induction false} OpenedIsRunning(runs: seq<AgentRun>, latest: Option<nat>, tool: ToolName)
    ensures LatestHasRunning(AddCall(runs, latest, CallRecord(tool, CallRunning)), latest, tool)
       <==> exists k :: 0 <= k < |runs| && latest == Some(runs[k].id)
  {
    var after := AddCall(runs, latest, CallRecord(tool, CallRunning));
    if k :| 0 <= k < |runs| && latest == Some(runs[k].id) {
      assert after[k].calls[|runs[k].calls|] == CallRecord(tool, CallRunning);
      assert HasRunning(after[k].calls, tool);
    }
  }

  /** No step but a close of its own tool's newest running record touches a record, and none moves. */
  lemma {:induction false} CloseTouchesOne(calls: seq<CallRecord>, tool: ToolName, status: CallStatus, k: nat)
    requires k < |calls| && RunningCall(calls[k], tool)
    requires forall j :: k < j < |calls| ==> !RunningCall(calls[j], tool)
    ensures CloseLast(calls, tool, status) == calls[k := CallRecord(tool, status)]
  {
    var n := |calls| - 1;
    if k < n {
      assert calls[..n][k] == calls[k];
      CloseTouchesOne(calls[..n], tool, status, k);
    }
  }

  lemma {:induction false} CloseTouchesNone(calls: seq<CallRecord>, tool: ToolName, status: CallStatus)
    requires !HasRunning(calls, tool)
    ensures CloseLast(calls, tool, status) == calls
  {
    if calls != [] {
      var n := |calls| - 1;
      forall k | 0 <= k <= n ensures !RunningCall(calls[k], tool) {}
      assert forall k :: 0 <= k < n ==> calls[..n][k] == calls[k];
      CloseTouchesNone(calls[..n], tool, status);
    }
  }

  lemma {:induction false} NewestRunning(calls: seq<CallRecord>, tool: ToolName) returns (k: nat)
    requires HasRunning(calls, tool)
    ensures k < |calls| && RunningCall(calls[k], tool)
    ensures forall j :: k < j < |calls| ==> !RunningCall(calls[j], tool)
  {
    k := |calls| - 1;
    if !RunningCall(calls[k], tool) {
      var j :| 0 <= j < |calls| && RunningCall(calls[j], tool);
      assert calls[..k][j] == calls[j];
      k := NewestRunning(calls[..k], tool);
    }
  }

  /** A result that comes without a call closes an older record exactly when one of that name is stuck. */
  lemma {:induction false} StrayResultIsHarmlessIff(calls: seq<CallRecord>, tool: ToolName, status: CallStatus)
    requires status != CallRunning
    ensures CloseLast(calls, tool, status) == calls <==> !HasRunning(calls, tool)
  {
    if HasRunning(calls, tool) {
      var k := NewestRunning(calls, tool);
      CloseTouchesOne(calls, tool, status, k);
      assert CloseLast(calls, tool, status)[k].status == status;
    } else {
      CloseTouchesNone(calls, tool, status);
    }
  }

  lemma {:induction false} NothingToClose(runs: seq<AgentRun>, latest: Option<nat>, tool: ToolName, status: CallStatus)
    requires !LatestHasRunning(runs, latest, tool)
    ensures CloseCall(runs, latest, tool, status) == runs
  {
    forall k | 0 <= k < |runs| ensures CloseCall(runs, latest, tool, status)[k] == runs[k] {
      assert !Closable(runs[k], latest, tool);
      if latest == Some(runs[k].id) { CloseTouchesNone(runs[k].calls, tool, status); }
    }
  }

  /** The same for the runs of a task: what a result without a call closes was left running in the latest run. */
  lemma {:induction false} StrayResultLeavesRunsIff(
    runs: seq<AgentRun>, latest: Option<nat>, tool: ToolName, status: CallStatus)
    requires status != CallRunning
    ensures CloseCall(runs, latest, tool, status) == runs <==> !LatestHasRunning(runs, latest, tool)
  {
    if LatestHasRunning(runs, latest, tool) {
      var k :| 0 <= k < |runs| && Closable(runs[k], latest, tool);
      StrayResultIsHarmlessIff(runs[k].calls, tool, status);
      assert CloseCall(runs, latest, tool, status)[k].calls != runs[k].calls;
    } else {
      NothingToClose(runs, latest, tool, status);
    }
  }

  // ---- the records of a whole run ----

  datatype CallEnd = Finished(status: CallStatus) | Raised | NeverOpened

  /**
   * One executed tool call: how it ended for its record, the status its result was reported with, and
   * whether it used up a worker call.
   */
  datatype Execution = Execution(tool: ToolName, end: CallEnd, shown: CallStatus, charged: bool)

  /**
   * Every way a call can end. A result is reported as it is; an exception is reported as rejected or as
   * failed, whether or not it left an open record behind.
   */
  predicate WellEnded(e: Execution) {
    match e.end
    case Finished(status) => e.shown == status && status != CallRunning
    case Raised => e.shown == CallRejected || e.shown == CallFailed
    case NeverOpened => (e.shown == CallRejected || e.shown == CallFailed) && !e.charged
  }

  ghost predicate AllEnded(trail: seq<Execution>) {
    forall k :: 0 <= k < |trail| ==> WellEnded(trail[k])
  }

  /** The result events the executed calls leave in the public log. */
  function ShownBy(trail: seq<Execution>): (events: seq<Event>)
    ensures |events| == |trail|
  {
    seq(|trail|, k requires 0 <= k < |trail| => ToolResulted(trail[k].tool, trail[k].shown))
  }

  function RecordOf(e: Execution): seq<CallRecord> {
    match e.end
    case Finished(status) => [CallRecord(e.tool, status)]
    case Raised => [CallRecord(e.tool, CallRunning)]
    case NeverOpened => []
  }

  function RecordsOf(trail: seq<Execution>): seq<CallRecord> {
    if trail == [] then [] else RecordsOf(trail[..|trail| - 1]) + RecordOf(trail[|trail| - 1])
  }

  lemma {:induction false} RecordsOfNext(trail: seq<Execution>, e: Execution)
    ensures RecordsOf(trail + [e]) == RecordsOf(trail) + RecordOf(e)
  {
  }

  lemma {:induction false} RecordsOfSplit(a: seq<Execution>, b: seq<Execution>)
    ensures RecordsOf(a + b) == RecordsOf(a) + RecordsOf(b)
  {
    if b == [] {
      assert a + b == a;
    } else {
      var n := |b| - 1;
      assert a + b == (a + b[..n]) + [b[n]] && b == b[..n] + [b[n]];
      RecordsOfSplit(a, b[..n]);
      RecordsOfNext(a + b[..n], b[n]);
      RecordsOfNext(b[..n], b[n]);
    }
  }

  function RunningRecords(calls: seq<CallRecord>, tool: ToolName): nat {
    if calls == [] then 0
    else RunningRecords(calls[..|calls| - 1], tool) + (if RunningCall(calls[|calls| - 1], tool) then 1 else 0)
  }

  predicate RaisedIn(e: Execution, tool: ToolName) { e.tool == tool && e.end.Raised? }

  function RaisedCalls(trail: seq<Execution>, tool: ToolName): nat {
    if trail == [] then 0
    else RaisedCalls(trail[..|trail| - 1], tool) + (if RaisedIn(trail[|trail| - 1], tool) then 1 else 0)
  }

  /** The records left running are exactly those of the calls that raised, tool by tool. */
  lemma {:induction false} RunningMeansRaised(trail: seq<Execution>, tool: ToolName)
    requires AllEnded(trail)
    ensures RunningRecords(RecordsOf(trail), tool) == RaisedCalls(trail, tool)
  {
    if trail != [] {
      var before, e := trail[..|trail| - 1], trail[|trail| - 1];
      assert WellEnded(e);
      RunningMeansRaised(before, tool);
      RunningNext(RecordsOf(before), e, tool);
    }
  }

  lemma {:induction false} RunningNext(calls: seq<CallRecord>, e: Execution, tool: ToolName)
    requires WellEnded(e)
    ensures RunningRecords(calls + RecordOf(e), tool)
         == RunningRecords(calls, tool) + (if RaisedIn(e, tool) then 1 else 0)
  {
    if e.end.NeverOpened? {
      assert calls + [] == calls;
    } else {
      var grown := calls + RecordOf(e);
      assert grown[..|grown| - 1] == calls;
    }
  }

  /** Appending to the run an episode started, which no earlier run shares its id with. */
  lemma {:induction false} AddToOwnRun(base: seq<AgentRun>, own: AgentRun, records: seq<CallRecord>)
    requires forall k :: 0 <= k < |base| ==> base[k].id != own.id
    ensures AddCalls(base + [own], Some(own.id), records) == base + [own.(calls := own.calls + records)]
  {
  }
}
