/**
 * The chat messages of one episode and the compacted copy each model request is made from
 * (backend/app/agents/main_agent.py, `_messages_for_model_context`, `_assistant_message_for_history`).
 */
module MessageLog {

  datatype Message =
    | SystemMessage(text: string)
    | UserMessage(text: string)
    | AssistantMessage(text: string, callIds: seq<string>)
    | ToolMessage(callId: string, content: string)

  const MAX_ACTIVE_CHARS := 2_000
  const KEEP_RECENT := 6

  predicate Oversized(m: Message) { m.ToolMessage? && |m.content| > MAX_ACTIVE_CHARS }

  /** How many tool messages there are. */
  function ToolCount(log: seq<Message>): (n: nat)
    ensures n <= |log|
  {
    if log == [] then 0 else ToolCount(log[..|log| - 1]) + (if log[|log| - 1].ToolMessage? then 1 else 0)
  }

  /** Whether the message at `k` is among the most recent tool messages. */
  predicate Recent(log: seq<Message>, k: nat)
    requires k < |log|
  {
    ToolCount(log) - ToolCount(log[..k]) <= KEEP_RECENT
  }

  predicate Clears(log: seq<Message>, k: nat)
    requires k < |log|
  {
    Oversized(log[k]) && !Recent(log, k)
  }

  function Rewritten(log: seq<Message>, cleared: string -> string, k: nat): Message
    requires k < |log|
  {
    if Clears(log, k) then ToolMessage(log[k].callId, cleared(log[k].content)) else log[k]
  }

  /** The request made from a log; `cleared` turns a long result into its short form. */
  function Compact(log: seq<Message>, cleared: string -> string): (r: seq<Message>)
    ensures |r| == |log|
  {
    seq(|log|, k requires 0 <= k < |log| => Rewritten(log, cleared, k))
  }

  lemma {:induction false} ToolCountNext(log: seq<Message>, m: Message)
    ensures ToolCount(log + [m]) == ToolCount(log) + (if m.ToolMessage? then 1 else 0)
  {
  }

  lemma {:induction false} ToolCountGrows(log: seq<Message>, k: nat, n: nat)
    requires k <= n <= |log|
    ensures ToolCount(log[..k]) <= ToolCount(log[..n]) <= ToolCount(log[..k]) + (n - k)
  {
    if k < n {
      ToolCountGrows(log, k, n - 1);
      assert log[..n] == log[..n - 1] + [log[n - 1]];
      ToolCountNext(log[..n - 1], log[n - 1]);
    }
  }

  /** Tool messages are told apart by how many came before them. */
  lemma {:induction false} CountTellsPosition(log: seq<Message>, k: nat, n: nat)
    requires k < |log| && n < |log| && log[k].ToolMessage? && log[n].ToolMessage?
    requires ToolCount(log[..k]) == ToolCount(log[..n])
    ensures k == n
  {
    if k < n { CountedBefore(log, k, n); }
    if n < k { CountedBefore(log, n, k); }
  }

  lemma {:induction false} CountedBefore(log: seq<Message>, k: nat, n: nat)
    requires k < n <= |log| && log[k].ToolMessage?
    ensures ToolCount(log[..k]) < ToolCount(log[..n])
  {
    assert log[..k + 1] == log[..k] + [log[k]];
    ToolCountNext(log[..k], log[k]);
    ToolCountGrows(log, k + 1, n);
  }

  method ToolIndices(log: seq<Message>) returns (indices: seq<nat>)
    ensures |indices| == ToolCount(log)
    ensures forall i :: 0 <= i < |indices| ==>
              indices[i] < |log| && log[indices[i]].ToolMessage? && ToolCount(log[..indices[i]]) == i
  {
    indices := [];
    for k := 0 to |log|
      invariant |indices| == ToolCount(log[..k])
      invariant forall i :: 0 <= i < |indices| ==>
                  indices[i] < k && log[indices[i]].ToolMessage? && ToolCount(log[..indices[i]]) == i
    {
      assert log[..k + 1] == log[..k] + [log[k]];
      ToolCountNext(log[..k], log[k]);
      if log[k].ToolMessage? {
        indices := indices + [k];
      }
    }
    assert log[..|log|] == log;
  }

  /** The copy after the first `i` tool messages have been looked at. */
  ghost predicate RewrittenUpTo(log: seq<Message>, cleared: string -> string, request: seq<Message>, i: nat) {
    |request| == |log|
    && forall k :: 0 <= k < |log| ==>
         request[k] == if log[k].ToolMessage? && ToolCount(log[..k]) < i then Rewritten(log, cleared, k) else log[k]
  }

  lemma {:induction false} RewriteNext(
    log: seq<Message>, cleared: string -> string, request: seq<Message>, index: nat, i: nat)
    requires RewrittenUpTo(log, cleared, request, i)
    requires index < |log| && log[index].ToolMessage? && ToolCount(log[..index]) == i
    ensures RewrittenUpTo(log, cleared, request[index := Rewritten(log, cleared, index)], i + 1)
  {
    forall k | 0 <= k < |log| && log[k].ToolMessage? && ToolCount(log[..k]) == i ensures k == index {
      CountTellsPosition(log, k, index);
    }
  }

  lemma {:induction false} RewrittenAll(log: seq<Message>, cleared: string -> string, request: seq<Message>)
    requires RewrittenUpTo(log, cleared, request, ToolCount(log))
    ensures request == Compact(log, cleared)
  {
  }

  /** Rewrites old oversized tool results in a copy; the log itself is never touched. */
  method MessagesForModelContext(log: seq<Message>, cleared: string -> string) returns (request: seq<Message>)
    ensures request == Compact(log, cleared)
  {
    request := log;
    var indices := ToolIndices(log);
    for i := 0 to |indices|
      invariant RewrittenUpTo(log, cleared, request, i)
    {
      var index := indices[i];
      RewriteNext(log, cleared, request, index, i);
      if i < |indices| - KEEP_RECENT && |request[index].content| > MAX_ACTIVE_CHARS {
        request := request[index := ToolMessage(log[index].callId, cleared(log[index].content))];
      } else {
        assert request == request[index := Rewritten(log, cleared, index)];
      }
    }
    RewrittenAll(log, cleared, request);
  }

  // ---- what compaction keeps ----

  predicate SameShape(a: Message, b: Message) {
    match a
    case ToolMessage(callId, _) => b.ToolMessage? && b.callId == callId
    case _ => a == b
  }

  /** Length, roles, call ids and every non-tool message survive; so do the last six tool messages. */
  lemma {:induction false} CompactKeeps(log: seq<Message>, cleared: string -> string)
    ensures var request := Compact(log, cleared);
            && |request| == |log|
            && (forall k :: 0 <= k < |log| ==> SameShape(log[k], request[k]))
            && (forall k :: 0 <= k < |log| && Recent(log, k) ==> request[k] == log[k])
  {
  }

  lemma {:induction false} ToolCountSplits(a: seq<Message>, b: seq<Message>)
    ensures ToolCount(a + b) == ToolCount(a) + ToolCount(b)
  {
    if b == [] {
      assert a + b == a;
    } else {
      var n := |b| - 1;
      assert (a + b)[..|a| + n] == a + b[..n];
      ToolCountSplits(a, b[..n]);
    }
  }

  lemma {:induction false} ToolCountIsSize(log: seq<Message>)
    ensures ToolCount(log) == |set k | 0 <= k < |log| && log[k].ToolMessage?|
  {
    var now := set k | 0 <= k < |log| && log[k].ToolMessage?;
    if log == [] {
      assert now == {};
    } else {
      var n := |log| - 1;
      ToolCountIsSize(log[..n]);
      var before := set k | 0 <= k < |log[..n]| && log[..n][k].ToolMessage?;
      assert now == if log[n].ToolMessage? then before + {n} else before;
    }
  }

  /**
   * The request, message by message: a tool result of more than 2000 characters is sent in its short form
   * exactly if six tool results or more came after it; every other message is sent as it is.
   */
  lemma {:induction false} ClearedIff(log: seq<Message>, cleared: string -> string, k: nat)
    requires k < |log|
    ensures Compact(log, cleared)[k] ==
            if log[k].ToolMessage? && |log[k].content| > 2000 && ToolCount(log[k + 1..]) >= 6
            then ToolMessage(log[k].callId, cleared(log[k].content)) else log[k]
  {
    ClearsIff(log, k);
  }

  lemma {:induction false} ClearsIff(log: seq<Message>, k: nat)
    requires k < |log|
    ensures Clears(log, k) <==>
            log[k].ToolMessage? && |log[k].content| > 2000 && ToolCount(log[k + 1..]) >= 6
  {
    ToolCountSplits(log[..k], log[k..]);
    ToolCountSplits([log[k]], log[k + 1..]);
    assert log == log[..k] + log[k..] && log[k..] == [log[k]] + log[k + 1..];
    assert [log[k]][..0] == [] && ToolCount([log[k]]) == if log[k].ToolMessage? then 1 else 0;
  }

  /** The positions of a prefix that hold an oversized result the request does not clear. */
  function Uncleared(log: seq<Message>, n: nat): seq<nat>
    requires n <= |log|
  {
    if n == 0 then []
    else Uncleared(log, n - 1) + (if Oversized(log[n - 1]) && !Clears(log, n - 1) then [n - 1] else [])
  }

  lemma {:induction false} UnclearedAre(log: seq<Message>, n: nat, k: nat)
    requires n <= |log|
    ensures k in Uncleared(log, n) <==>
            k < n && log[k].ToolMessage? && |log[k].content| > 2000 && ToolCount(log[k + 1..]) < 6
  {
    if n > 0 { UnclearedAre(log, n - 1, k); }
    if k < |log| { ClearsIff(log, k); }
  }

  lemma {:induction false} UnclearedAreRecent(log: seq<Message>, n: nat)
    requires n <= |log|
    ensures |Uncleared(log, n)| <= ToolCount(log[..n])
    ensures Uncleared(log, n) != [] ==> |Uncleared(log, n)| + ToolCount(log) - ToolCount(log[..n]) <= KEEP_RECENT
  {
    if n > 0 {
      UnclearedAreRecent(log, n - 1);
      assert log[..n] == log[..n - 1] + [log[n - 1]];
      ToolCountNext(log[..n - 1], log[n - 1]);
    }
  }

  /** At most six oversized tool results are sent in full. */
  lemma {:induction false} FewAreUncleared(log: seq<Message>)
    ensures |Uncleared(log, |log|)| <= KEEP_RECENT
  {
    UnclearedAreRecent(log, |log|);
    assert log[..|log|] == log;
  }

  /** A message cleared in one request is cleared, to the same text, in every later one. */
  lemma {:induction false} ClearedStaysCleared(
    log: seq<Message>, later: seq<Message>, cleared: string -> string, k: nat)
    requires log <= later && k < |log| && Clears(log, k)
    ensures Clears(later, k)
    ensures Compact(later, cleared)[k] == Compact(log, cleared)[k]
  {
    assert later[..k] == log[..k];
    assert later[..|log|] == log;
    ToolCountGrows(later, |log|, |later|);
    assert later[..|later|] == later;
  }

  // ---- the protocol ----

  ghost predicate AnswersTo(messages: seq<Message>, ids: seq<string>) {
    |messages| == |ids| && forall i :: 0 <= i < |ids| ==> messages[i].ToolMessage? && messages[i].callId == ids[i]
  }

  /** The messages from `at` on begin with the answers to these calls, in order. */
  ghost predicate Answered(log: seq<Message>, at: nat, ids: seq<string>) {
    at + |ids| <= |log| && AnswersTo(log[at..at + |ids|], ids)
  }

  /**
   * Every assistant message with calls is followed at once by one tool message per call, with the same
   * ids in the same order, and no tool message stands anywhere else.
   */
  ghost predicate WellShaped(log: seq<Message>) {
    && (forall k :: 0 <= k < |log| && log[k].AssistantMessage? ==> Answered(log, k + 1, log[k].callIds))
    && (forall k :: 0 <= k < |log| && log[k].ToolMessage? ==> HasCaller(log, k))
  }

  ghost predicate HasCaller(log: seq<Message>, k: nat)
    requires k < |log|
  {
    exists a :: 0 <= a < k && log[a].AssistantMessage? && k - a <= |log[a].callIds|
  }

  ghost predicate AllSameShape(a: seq<Message>, b: seq<Message>) {
    |a| == |b| && forall k :: 0 <= k < |a| ==> SameShape(a[k], b[k])
  }

  lemma {:induction false} SameAnswers(a: seq<Message>, b: seq<Message>, ids: seq<string>)
    requires |a| == |b| && (forall i :: 0 <= i < |a| ==> SameShape(a[i], b[i])) && AnswersTo(a, ids)
    ensures AnswersTo(b, ids)
  {
  }

  lemma {:induction false} SameShapeIsWellShaped(a: seq<Message>, b: seq<Message>)
    requires AllSameShape(a, b) && WellShaped(a)
    ensures WellShaped(b)
  {
    forall k | 0 <= k < |b| && b[k].AssistantMessage? ensures Answered(b, k + 1, b[k].callIds) {
      assert SameShape(a[k], b[k]) && a[k] == b[k];
      assert Answered(a, k + 1, a[k].callIds);
      var n := |b[k].callIds|;
      SameAnswers(a[k + 1..k + 1 + n], b[k + 1..k + 1 + n], b[k].callIds);
    }
    forall k | 0 <= k < |b| && b[k].ToolMessage? ensures HasCaller(b, k) {
      assert SameShape(a[k], b[k]);
      assert HasCaller(a, k);
      var c :| 0 <= c < k && a[c].AssistantMessage? && k - c <= |a[c].callIds|;
      assert SameShape(a[c], b[c]);
    }
  }

  /** A request keeps the protocol of the log it is made from. */
  lemma {:induction false} CompactIsWellShaped(log: seq<Message>, cleared: string -> string)
    requires WellShaped(log)
    ensures WellShaped(Compact(log, cleared))
  {
    CompactKeeps(log, cleared);
    SameShapeIsWellShaped(log, Compact(log, cleared));
  }

  lemma {:induction false} StillAnswered(log: seq<Message>, more: seq<Message>, at: nat, ids: seq<string>)
    requires Answered(log, at, ids)
    ensures Answered(log + more, at, ids)
  {
    assert (log + more)[at..at + |ids|] == log[at..at + |ids|];
  }

  lemma {:induction false} StillCalled(log: seq<Message>, more: seq<Message>, k: nat)
    requires k < |log| && HasCaller(log, k)
    ensures HasCaller(log + more, k)
  {
    var c :| 0 <= c < k && log[c].AssistantMessage? && k - c <= |log[c].callIds|;
    assert (log + more)[c] == log[c];
  }

  /** One more message that is neither a call nor an answer. */
  lemma {:induction false} AppendPlain(log: seq<Message>, m: Message)
    requires WellShaped(log) && !m.ToolMessage? && (m.AssistantMessage? ==> m.callIds == [])
    ensures WellShaped(log + [m])
  {
    var grown := log + [m];
    forall k | 0 <= k < |grown| && grown[k].AssistantMessage? ensures Answered(grown, k + 1, grown[k].callIds) {
      if k < |log| { StillAnswered(log, [m], k + 1, log[k].callIds); }
    }
    forall k | 0 <= k < |grown| && grown[k].ToolMessage? ensures HasCaller(grown, k) { StillCalled(log, [m], k); }
  }

  /** An assistant message with all the answers to its calls. */
  lemma {:induction false} AppendRound(log: seq<Message>, m: Message, answers: seq<Message>)
    requires WellShaped(log) && m.AssistantMessage? && AnswersTo(answers, m.callIds)
    ensures WellShaped(log + [m] + answers)
  {
    var more := [m] + answers;
    var grown := log + more;
    assert log + [m] + answers == grown;
    forall k | 0 <= k < |grown| && grown[k].AssistantMessage? ensures Answered(grown, k + 1, grown[k].callIds) {
      if k < |log| {
        StillAnswered(log, more, k + 1, log[k].callIds);
      } else if k == |log| {
        assert grown[k + 1..k + 1 + |m.callIds|] == answers;
      }
    }
    forall k | 0 <= k < |grown| && grown[k].ToolMessage? ensures HasCaller(grown, k) {
      if k < |log| { StillCalled(log, more, k); } else { assert grown[|log|] == m; }
    }
  }

  predicate EmptyTurn(m: Message) { m.AssistantMessage? && m.text == "" && m.callIds == [] }

  function EmptyTurns(log: seq<Message>): nat {
    if log == [] then 0 else EmptyTurns(log[..|log| - 1]) + (if EmptyTurn(log[|log| - 1]) then 1 else 0)
  }

  lemma {:induction false} EmptyTurnsNext(log: seq<Message>, m: Message)
    ensures EmptyTurns(log + [m]) == EmptyTurns(log) + (if EmptyTurn(m) then 1 else 0)
  {
  }

  /** An assistant message with words and no calls: the model is done. */
  predicate FinalAnswer(m: Message) { m.AssistantMessage? && m.text != "" && m.callIds == [] }

  function FinalAnswers(log: seq<Message>): nat {
    if log == [] then 0 else FinalAnswers(log[..|log| - 1]) + (if FinalAnswer(log[|log| - 1]) then 1 else 0)
  }

  lemma {:induction false} FinalAnswersNext(log: seq<Message>, m: Message)
    ensures FinalAnswers(log + [m]) == FinalAnswers(log) + (if FinalAnswer(m) then 1 else 0)
  {
  }

  lemma {:induction false} AnswersEndNothing(log: seq<Message>, answers: seq<Message>)
    requires forall k :: 0 <= k < |answers| ==> answers[k].ToolMessage?
    ensures EmptyTurns(log + answers) == EmptyTurns(log) && FinalAnswers(log + answers) == FinalAnswers(log)
  {
    if answers == [] {
      assert log + answers == log;
    } else {
      var n := |answers| - 1;
      AnswersEndNothing(log, answers[..n]);
      assert log + answers == (log + answers[..n]) + [answers[n]];
      EmptyTurnsNext(log + answers[..n], answers[n]);
      FinalAnswersNext(log + answers[..n], answers[n]);
    }
  }
}
