/**
 * The Main Agent's observability recorder: turn counter, sanitized replay entries and cumulative
 * token usage (backend/app/agents/observability.py), and the eval suite's reading of the written log
 * (backend/app/eval/suite.py).
 */
module TokenRecorder {
  import opened Options
  import opened TokenUsages
  import opened JsonSanitizer
  import opened TextTools


  const NO_USAGE := TokenUsage(None, None, None)

  function SumOptional(left: Option<nat>, right: Option<nat>): Option<nat> {
    if left == None then right
    else if right == None then left
    else Some(left.value + right.value)
  }

  function EffectiveTotal(usage: TokenUsage): Option<nat> {
    if usage.total != None then usage.total else SumOptional(usage.input, usage.output)
  }

  predicate HasUsage(usage: TokenUsage) { usage != NO_USAGE }

  function Merge(current: TokenUsage, delta: TokenUsage): TokenUsage {
    TokenUsage(
      SumOptional(current.input, delta.input),
      SumOptional(current.output, delta.output),
      SumOptional(EffectiveTotal(current), EffectiveTotal(delta)))
  }

  /** Merging in any grouping gives one result; the empty usage only makes the total explicit. */
  lemma {:induction false} MergeIsAssociative(a: TokenUsage, b: TokenUsage, c: TokenUsage)
    ensures Merge(Merge(a, b), c) == Merge(a, Merge(b, c))
    ensures EffectiveTotal(Merge(a, b)) == SumOptional(EffectiveTotal(a), EffectiveTotal(b))
    ensures Merge(NO_USAGE, a) == Merge(a, NO_USAGE) == a.(total := EffectiveTotal(a))
    ensures HasUsage(a) <==> EffectiveTotal(a) != None
  {
  }

  /** The recorder's running value after a list of per-turn usages; empty usages are ignored. */
  function Cumulative(turns: seq<TokenUsage>): TokenUsage {
    if turns == [] then NO_USAGE
    else
      var before, last := Cumulative(turns[..|turns| - 1]), turns[|turns| - 1];
      if HasUsage(last) then Merge(before, last) else before
  }

  function SumOfTotals(turns: seq<TokenUsage>): nat {
    if turns == [] then 0
    else
      var last := EffectiveTotal(turns[|turns| - 1]);
      SumOfTotals(turns[..|turns| - 1]) + (if last == None then 0 else last.value)
  }

  /** The cumulative total is the sum of the per-turn effective totals, for every turn sequence. */
  lemma {:induction false} CumulativeTotalIsSum(turns: seq<TokenUsage>)
    ensures (exists k :: 0 <= k < |turns| && HasUsage(turns[k])) <==> HasUsage(Cumulative(turns))
    ensures HasUsage(Cumulative(turns)) ==> Cumulative(turns).total == Some(SumOfTotals(turns))
    ensures !HasUsage(Cumulative(turns)) ==> SumOfTotals(turns) == 0
  {
    if turns != [] {
      var before, last := turns[..|turns| - 1], turns[|turns| - 1];
      CumulativeTotalIsSum(before);
      MergeIsAssociative(Cumulative(before), last, NO_USAGE);
      assert forall k :: 0 <= k < |before| ==> turns[k] == before[k];
    }
  }

  /** The sum of the counts that are there; None if none is. */
  ghost function SumOf(counts: seq<Option<nat>>): Option<nat> {
    if forall k :: 0 <= k < |counts| ==> counts[k] == None then None else Some(Summed(counts))
  }

  ghost function Summed(counts: seq<Option<nat>>): nat {
    if counts == [] then 0
    else Summed(counts[1..]) + (if counts[0].Some? then counts[0].value else 0)
  }

  ghost function Inputs(turns: seq<TokenUsage>): seq<Option<nat>> {
    seq(|turns|, k requires 0 <= k < |turns| => turns[k].input)
  }

  ghost function Outputs(turns: seq<TokenUsage>): seq<Option<nat>> {
    seq(|turns|, k requires 0 <= k < |turns| => turns[k].output)
  }

  lemma {:induction false} SummedNext(counts: seq<Option<nat>>, last: Option<nat>)
    ensures Summed(counts + [last]) == Summed(counts) + (if last.Some? then last.value else 0)
  {
    if counts == [] {
      assert [] + [last] == [last] && [last][1..] == [];
    } else {
      assert (counts + [last])[1..] == counts[1..] + [last];
      SummedNext(counts[1..], last);
    }
  }

  lemma {:induction false} SumOfNext(counts: seq<Option<nat>>, last: Option<nat>)
    ensures SumOf(counts + [last]) == SumOptional(SumOf(counts), last)
  {
    SummedNext(counts, last);
    AllNoneSumsToNothing(counts);
    assert forall k :: 0 <= k < |counts| ==> (counts + [last])[k] == counts[k];
    assert (counts + [last])[|counts|] == last;
  }

  lemma {:induction false} AllNoneSumsToNothing(counts: seq<Option<nat>>)
    ensures (forall k :: 0 <= k < |counts| ==> counts[k] == None) ==> Summed(counts) == 0
  {
    if counts != [] { AllNoneSumsToNothing(counts[1..]); }
  }

  /** The cumulative counts of input and of output are the sums over the turns that had them. */
  lemma {:induction false} CumulativeCountsAreSums(turns: seq<TokenUsage>)
    ensures Cumulative(turns).input == SumOf(Inputs(turns))
    ensures Cumulative(turns).output == SumOf(Outputs(turns))
  {
    if turns != [] {
      var before, last := turns[..|turns| - 1], turns[|turns| - 1];
      CumulativeCountsAreSums(before);
      SumOfNext(Inputs(before), last.input);
      SumOfNext(Outputs(before), last.output);
      assert Inputs(turns) == Inputs(before) + [last.input] && Outputs(turns) == Outputs(before) + [last.output];
    }
  }

  function CountField(key: string, count: Option<nat>): seq<Field> {
    if count == None then [] else [Field(key, Num(count.value))]
  }

  /** The counts that are present, as a JSON object. */
  function UsagePayload(usage: TokenUsage): Json {
    Obj(CountField("input_tokens", usage.input) + CountField("output_tokens", usage.output)
      + CountField("total_tokens", usage.total))
  }

  // ---- reading usage back ----

  function IntTokenCount(v: Option<Json>): Option<nat> {
    if v.Some? && v.value.Num? && v.value.n >= 0 then Some(v.value.n) else None
  }

  function NormalizeTokenUsage(v: Json): TokenUsage {
    var input, output, total :=
      IntTokenCount(GetIn(v, "input_tokens")), IntTokenCount(GetIn(v, "output_tokens")),
        IntTokenCount(GetIn(v, "total_tokens"));
    TokenUsage(input, output, if total == None then SumOptional(input, output) else total)
  }

  /** The usage object an entry offers, if it is of a kind that carries one. */
  function UsageCandidate(entry: Json): Option<Json> {
    var payload := GetIn(entry, "payload");
    if payload == None || !payload.value.Obj? then None
    else
      var usage :=
        if GetIn(entry, "type") == Some(Str("token_usage")) then GetIn(payload.value, "token_usage_total")
        else if GetIn(entry, "type") == Some(Str("completed")) then GetIn(payload.value, "token_usage")
        else None;
      if usage.Some? && usage.value.Obj? then usage else None
  }

  function LastCandidate(entries: seq<Json>): Option<Json> {
    if entries == [] then None
    else
      var last := UsageCandidate(entries[|entries| - 1]);
      if last.Some? then last else LastCandidate(entries[..|entries| - 1])
  }

  /** The usage the eval suite reads from a replay log; None where it falls back to the events. */
  method ExtractTokenUsage(entries: seq<Json>) returns (usage: Option<TokenUsage>)
    ensures usage == match LastCandidate(entries) case None => None case Some(v) => Some(NormalizeTokenUsage(v))
  {
    var candidates: seq<Json> := [];
    for i := 0 to |entries|
      invariant LastCandidate(entries[..i]) == if candidates == [] then None else Some(candidates[|candidates| - 1])
    {
      assert entries[..i + 1][..i] == entries[..i];
      var candidate := UsageCandidate(entries[i]);
      if candidate.Some? {
        candidates := candidates + [candidate.value];
      }
    }
    assert entries[..|entries|] == entries;
    usage := if candidates == [] then None else Some(NormalizeTokenUsage(candidates[|candidates| - 1]));
  }

  lemma {:induction false} ExemptKeys()
    ensures !IsSensitiveKey("token_usage") && !IsSensitiveKey("token_usage_total")
    ensures !IsSensitiveKey("input_tokens") && !IsSensitiveKey("output_tokens") && !IsSensitiveKey("total_tokens")
  {
    assert Lower("token_usage") == "token_usage" && Lower("token_usage_total") == "token_usage_total";
    assert Lower("input_tokens") == "input_tokens" && Lower("output_tokens") == "output_tokens";
    assert Lower("total_tokens") == "total_tokens";
  }

  lemma {:induction false} PlainKey(key: string)
    requires Lower(key) == key && 'k' !in key && 's' !in key
    ensures !IsSensitiveKey(key)
  {
    LacksCharacter(key, "key", 'k');
    LacksCharacter(key, "token", 'k');
    LacksCharacter(key, "secret", 's');
    LacksCharacter(key, "password", 's');
  }

  lemma {:induction false} EntryKeysArePlain()
    ensures !IsSensitiveKey("type") && !IsSensitiveKey("payload")
  {
    assert Lower("type") == "type" && Lower("payload") == "payload";
    PlainKey("type");
    PlainKey("payload");
  }

  lemma {:induction false} GetPastCount(key: string, count: Option<nat>, rest: seq<Field>, wanted: string)
    ensures Get(CountField(key, count) + rest, wanted)
         == if count != None && key == wanted then Some(Num(count.value)) else Get(rest, wanted)
  {
    var fields := CountField(key, count) + rest;
    if count == None {
      assert fields == rest;
    } else {
      assert fields[1..] == rest;
    }
  }

  lemma {:induction false} UsageKeysDiffer()
    ensures "input_tokens" != "output_tokens" && "input_tokens" != "total_tokens" && "output_tokens" != "total_tokens"
  {
  }

  /** Writing the counts out and normalizing them gives back the same counts, total made explicit. */
  lemma {:induction false} UsagePayloadReadsBack(usage: TokenUsage)
    ensures NormalizeTokenUsage(UsagePayload(usage)) == usage.(total := EffectiveTotal(usage))
  {
    var total := CountField("total_tokens", usage.total) + [];
    var output := CountField("output_tokens", usage.output) + total;
    var all := CountField("input_tokens", usage.input) + output;
    assert UsagePayload(usage).fields == all;
    UsageKeysDiffer();
    forall key | key in ["input_tokens", "output_tokens", "total_tokens"]
      ensures Get(all, key) == if usage.input != None && key == "input_tokens" then Some(Num(usage.input.value))
                               else if usage.output != None && key == "output_tokens" then Some(Num(usage.output.value))
                               else if usage.total != None && key == "total_tokens" then Some(Num(usage.total.value))
                               else None
    {
      GetPastCount("total_tokens", usage.total, [], key);
      GetPastCount("output_tokens", usage.output, total, key);
      GetPastCount("input_tokens", usage.input, output, key);
    }
  }

  ghost predicate PlainCounts(fields: seq<Field>) {
    forall k :: 0 <= k < |fields| ==> fields[k].value.Num? && !IsSensitiveKey(fields[k].key)
  }

  lemma {:induction false} PlainCountsAreClean(fields: seq<Field>)
    requires PlainCounts(fields) && |fields| <= MAX_COLLECTION_ITEMS
    ensures Sanitize(Obj(fields)) == Obj(fields)
  {
  }

  lemma {:induction false} UsagePayloadIsClean(usage: TokenUsage)
    ensures Sanitize(UsagePayload(usage)) == UsagePayload(usage)
  {
    var input, output, total :=
      CountField("input_tokens", usage.input), CountField("output_tokens", usage.output),
        CountField("total_tokens", usage.total);
    assert PlainCounts(input) && PlainCounts(output) && PlainCounts(total) by { ExemptKeys(); }
    PlainCountsAreClean(input + output + total);
  }

  // ---- the recorder ----

  datatype EntryKind = TurnStarted | MessageEntry | FinalResponse | StopBlocked | ToolCalled | ToolResult | ErrorEntry

  /** The entry kinds other than the two that carry usage. */
  function KindName(kind: EntryKind): string {
    match kind
    case TurnStarted => "turn_started"
    case MessageEntry => "message"
    case FinalResponse => "final_response"
    case StopBlocked => "stop_blocked"
    case ToolCalled => "tool_called"
    case ToolResult => "tool_result"
    case ErrorEntry => "error"
  }

  function OrNull(v: Option<Json>): Json { if v == None then Null else v.value }

  /** A replay entry: the payload is sanitized here, the whole entry once more when it is written. */
  function Entry(name: string, taskId: string, runId: Json, createdAt: string, payload: Json): Json {
    Obj([
      Field("type", Str(name)), Field("task_id", Str(taskId)), Field("main_agent_run_id", runId),
      Field("turn_index", OrNull(GetIn(payload, "turn_index"))), Field("created_at", Str(createdAt)),
      Field("payload", Sanitize(payload))])
  }

  lemma {:induction false} GetSkips(skipped: seq<Field>, rest: seq<Field>, key: string)
    requires forall k :: 0 <= k < |skipped| ==> skipped[k].key != key
    ensures Get(skipped + rest, key) == Get(rest, key)
  {
    if skipped == [] {
      assert skipped + rest == rest;
    } else {
      assert (skipped + rest)[1..] == skipped[1..] + rest;
      GetSkips(skipped[1..], rest, key);
    }
  }

  lemma {:induction false} EntryPayload(name: string, taskId: string, runId: Json, createdAt: string, payload: Json)
    ensures GetIn(Entry(name, taskId, runId, createdAt, payload), "payload") == Some(Sanitize(payload))
  {
    var fields := Entry(name, taskId, runId, createdAt, payload).fields;
    var before := fields[..5];
    assert fields == before + [Field("payload", Sanitize(payload))];
    forall k | 0 <= k < |before| ensures before[k].key != "payload" {
      assert before[k].key[0] != 'p';
    }
    GetSkips(before, [Field("payload", Sanitize(payload))], "payload");
  }

  /** What the log's reader sees of a recorded entry: its kind and its payload, sanitized once. */
  lemma {:induction false} WrittenEntry(name: string, taskId: string, runId: Json, createdAt: string, payload: Json)
    ensures var written := Sanitize(Entry(name, taskId, runId, createdAt, payload));
            && GetIn(written, "type") == Some(Sanitize(Str(name)))
            && GetIn(written, "payload") == Some(Sanitize(payload))
  {
    var entry := Entry(name, taskId, runId, createdAt, payload);
    EntryPayload(name, taskId, runId, createdAt, payload);
    assert GetIn(entry, "type") == Some(Str(name));
    EntryKeysArePlain();
    GetOfSanitized(entry.fields, "type");
    GetOfSanitized(entry.fields, "payload");
    SanitizeIsIdempotent(payload);
  }

  function Count(n: nat): Json { if n == 0 then Null else Num(n) }

  function UsageEntryPayload(taskId: string, runId: Json, turnIndex: nat, delta: TokenUsage, total: TokenUsage): Json {
    Obj([
      Field("task_id", Str(taskId)), Field("main_agent_run_id", runId), Field("turn_index", Count(turnIndex)),
      Field("token_usage_delta", UsagePayload(delta)), Field("token_usage_total", UsagePayload(total)),
      Field("token_usage_scope", Str("main_agent"))])
  }

  /** The public facts of a finished episode that the completion entry carries. */
  datatype Completion = Completion(
    finalStatus: string, summary: string, reportPath: string, logPath: string,
    decisions: nat, planSteps: nat, nextAction: string)

  const MAX_SUMMARY_CHARS := 1200

  function CompletionFields(taskId: string, runId: Json, c: Completion): seq<Field> {
    [Field("task_id", Str(taskId)), Field("main_agent_run_id", runId), Field("final_task_status", Str(c.finalStatus)),
     Field("summary", Str(BoundedText(c.summary, MAX_SUMMARY_CHARS))), Field("final_report_path", Str(c.reportPath)),
     Field("main_agent_log_path", Str(c.logPath)), Field("decision_count", Num(c.decisions)),
     Field("plan_step_count", Num(c.planSteps)), Field("next_recommended_action", Str(c.nextAction))]
  }

  function CompletedPayload(taskId: string, runId: Json, c: Completion, total: TokenUsage): Json {
    var fields := CompletionFields(taskId, runId, c);
    Obj(if HasUsage(total) then
          fields + [Field("token_usage", UsagePayload(total)), Field("token_usage_scope", Str("main_agent"))]
        else fields)
  }

  lemma {:induction false} UsageEntryShowsTotal(
    taskId: string, runId: Json, turnIndex: nat, delta: TokenUsage, total: TokenUsage)
    ensures GetIn(Sanitize(UsageEntryPayload(taskId, runId, turnIndex, delta, total)), "token_usage_total")
         == Some(UsagePayload(total))
  {
    var fields := UsageEntryPayload(taskId, runId, turnIndex, delta, total).fields;
    var before := fields[..4];
    assert fields == before + fields[4..];
    forall k | 0 <= k < |before| ensures before[k].key != "token_usage_total" {
      assert before[k].key[1] != 'o' || before[k].key[12] == 'd';
    }
    GetSkips(before, fields[4..], "token_usage_total");
    ExemptKeys();
    GetOfSanitized(fields, "token_usage_total");
    UsagePayloadIsClean(total);
  }

  lemma {:induction false} CompletionHasNoUsageKey(taskId: string, runId: Json, c: Completion)
    ensures forall k :: 0 <= k < 9 ==> CompletionFields(taskId, runId, c)[k].key != "token_usage"
  {
  }

  lemma {:induction false} CompletedShowsTotal(taskId: string, runId: Json, c: Completion, total: TokenUsage)
    ensures GetIn(Sanitize(CompletedPayload(taskId, runId, c, total)), "token_usage")
         == if HasUsage(total) then Some(UsagePayload(total)) else None
  {
    var fields := CompletionFields(taskId, runId, c);
    var tail := if HasUsage(total) then
      [Field("token_usage", UsagePayload(total)), Field("token_usage_scope", Str("main_agent"))] else [];
    assert CompletedPayload(taskId, runId, c, total).fields == fields + tail;
    CompletionHasNoUsageKey(taskId, runId, c);
    GetSkips(fields, tail, "token_usage");
    ExemptKeys();
    GetOfSanitized(fields + tail, "token_usage");
    UsagePayloadIsClean(total);
  }

  function Written(entries: seq<Json>): (log: seq<Json>)
    ensures |log| == |entries|
  {
    seq(|entries|, k requires 0 <= k < |entries| => Sanitize(entries[k]))
  }

  /** Appending one entry: the reader now sees its usage if it carries one, else what it saw before. */
  lemma {:induction false} LastCandidateAfter(entries: seq<Json>, entry: Json)
    ensures LastCandidate(Written(entries + [entry]))
         == var c := UsageCandidate(Sanitize(entry)); if c.Some? then c else LastCandidate(Written(entries))
  {
    var log := Written(entries + [entry]);
    assert log[..|entries|] == Written(entries);
  }

  lemma {:induction false} KindNamesCarryNoUsage(kind: EntryKind)
    ensures Trimmed(KindName(kind)) && |KindName(kind)| <= MAX_STRING_CHARS
    ensures KindName(kind) != "token_usage" && KindName(kind) != "completed"
  {
  }

  lemma {:induction false} PlainEntryCandidate(
    kind: EntryKind, taskId: string, runId: Json, createdAt: string, payload: Json)
    ensures UsageCandidate(Sanitize(Entry(KindName(kind), taskId, runId, createdAt, payload))) == None
  {
    WrittenEntry(KindName(kind), taskId, runId, createdAt, payload);
    KindNamesCarryNoUsage(kind);
    CleanIsFixed(Str(KindName(kind)));
  }

  lemma {:induction false} CandidateOf(written: Json, payload: Json, name: string, key: string, found: Option<Json>)
    requires GetIn(written, "payload") == Some(payload) && GetIn(written, "type") == Some(Str(name))
    requires payload.Obj? && GetIn(payload, key) == found && (found.Some? ==> found.value.Obj?)
    requires (name == "token_usage" && key == "token_usage_total") || (name == "completed" && key == "token_usage")
    ensures UsageCandidate(written) == found
  {
  }

  lemma {:induction false} UsageEntryCandidate(
    taskId: string, runId: Json, createdAt: string, turnIndex: nat, delta: TokenUsage, total: TokenUsage)
    ensures UsageCandidate(Sanitize(
              Entry("token_usage", taskId, runId, createdAt,
                UsageEntryPayload(taskId, runId, turnIndex, delta, total))))
         == Some(UsagePayload(total))
  {
    var payload := UsageEntryPayload(taskId, runId, turnIndex, delta, total);
    WrittenEntry("token_usage", taskId, runId, createdAt, payload);
    CleanIsFixed(Str("token_usage"));
    UsageEntryShowsTotal(taskId, runId, turnIndex, delta, total);
    CandidateOf(Sanitize(Entry("token_usage", taskId, runId, createdAt, payload)), Sanitize(payload),
      "token_usage", "token_usage_total", Some(UsagePayload(total)));
  }

  lemma {:induction false} CompletedCandidate(
    taskId: string, runId: Json, createdAt: string, payload: Json, found: Option<Json>)
    requires payload.Obj? && GetIn(Sanitize(payload), "token_usage") == found && (found.Some? ==> found.value.Obj?)
    ensures UsageCandidate(Sanitize(Entry("completed", taskId, runId, createdAt, payload))) == found
  {
    WrittenEntry("completed", taskId, runId, createdAt, payload);
    CleanIsFixed(Str("completed"));
    CandidateOf(Sanitize(Entry("completed", taskId, runId, createdAt, payload)), Sanitize(payload),
      "completed", "token_usage", found);
  }

  lemma {:induction false} CompletedEntryCandidate(
    taskId: string, runId: Json, createdAt: string, c: Completion, total: TokenUsage)
    ensures UsageCandidate(Sanitize(
              Entry("completed", taskId, runId, createdAt, CompletedPayload(taskId, runId, c, total))))
         == if HasUsage(total) then Some(UsagePayload(total)) else None
  {
    CompletedShowsTotal(taskId, runId, c, total);
    CompletedCandidate(taskId, runId, createdAt, CompletedPayload(taskId, runId, c, total),
      if HasUsage(total) then Some(UsagePayload(total)) else None);
  }

  class Recorder {
    const taskId: string
    const runId: Json
    var entries: seq<Json>
    var turnIndex: nat
    var tokenUsage: TokenUsage
    /** Every usage reported so far, one per turn that reported any. */
    ghost var reported: seq<TokenUsage>

    /** The running usage is the merge of everything reported, and the log on disk would show exactly that. */
    ghost predicate Valid()
      reads this
    {
      && tokenUsage == Cumulative(reported)
      && LastCandidate(Written(entries)) == if HasUsage(tokenUsage) then Some(UsagePayload(tokenUsage)) else None
    }

    constructor (taskId: string, runId: Json)
      ensures Valid() && entries == [] && turnIndex == 0 && reported == []
      ensures this.taskId == taskId && this.runId == runId
    {
      this.taskId, this.runId := taskId, runId;
      entries, turnIndex, tokenUsage, reported := [], 0, NO_USAGE, [];
    }

    method Record(kind: EntryKind, payload: Json, now: string)
      requires Valid()
      modifies this`entries
      ensures Valid()
      ensures entries == old(entries) + [Entry(KindName(kind), taskId, runId, now, payload)]
    {
      var entry := Entry(KindName(kind), taskId, runId, now, payload);
      PlainEntryCandidate(kind, taskId, runId, now, payload);
      LastCandidateAfter(entries, entry);
      entries := entries + [entry];
    }

    method StartTurn(phase: string, now: string) returns (index: nat)
      requires Valid()
      modifies this`entries, this`turnIndex
      ensures Valid() && index == turnIndex == old(turnIndex) + 1 && |entries| == |old(entries)| + 1
    {
      turnIndex := turnIndex + 1;
      Record(TurnStarted, Obj([Field("task_id", Str(taskId)), Field("turn_index", Num(turnIndex)),
        Field("phase", Str(phase))]), now);
      index := turnIndex;
    }

    /** One turn's usage; a turn that reported none leaves no trace. */
    method AddTokenUsage(usage: Option<TokenUsage>, now: string)
      requires Valid()
      modifies this`entries, this`tokenUsage, this`reported
      ensures Valid()
      ensures reported == old(reported) + (if usage == None then [] else [usage.value])
      ensures usage == None || !HasUsage(usage.value) ==> entries == old(entries) && tokenUsage == old(tokenUsage)
      ensures usage.Some? && HasUsage(usage.value) ==>
                && tokenUsage == Merge(old(tokenUsage), usage.value)
                && entries == old(entries)
                     + [Entry("token_usage", taskId, runId, now,
                       UsageEntryPayload(taskId, runId, turnIndex, usage.value, tokenUsage))]
    {
      if usage == None {
        return;
      }
      assert (reported + [usage.value])[..|reported|] == reported;
      reported := reported + [usage.value];
      if !HasUsage(usage.value) {
        return;
      }
      tokenUsage := Merge(tokenUsage, usage.value);
      var payload := UsageEntryPayload(taskId, runId, turnIndex, usage.value, tokenUsage);
      var entry := Entry("token_usage", taskId, runId, now, payload);
      UsageEntryCandidate(taskId, runId, now, turnIndex, usage.value, tokenUsage);
      LastCandidateAfter(entries, entry);
      entries := entries + [entry];
    }

    method RecordCompleted(c: Completion, now: string)
      requires Valid()
      modifies this`entries
      ensures Valid()
      ensures entries == old(entries)
              + [Entry("completed", taskId, runId, now, CompletedPayload(taskId, runId, c, tokenUsage))]
    {
      var payload := CompletedPayload(taskId, runId, c, tokenUsage);
      var entry := Entry("completed", taskId, runId, now, payload);
      CompletedEntryCandidate(taskId, runId, now, c, tokenUsage);
      LastCandidateAfter(entries, entry);
      entries := entries + [entry];
    }

    /** The entries as they go to disk: sanitized a second time. */
    method WriteReplayLog() returns (log: seq<Json>)
      requires Valid()
      ensures log == Written(entries)
    {
      log := [];
      for i := 0 to |entries|
        invariant log == Written(entries)[..i]
      {
        log := log + [Sanitize(entries[i])];
      }
    }
  }

  /**
   * End to end: whatever turns a run reports and whatever else it records, the usage the eval suite
   * reads from the log written at any point is the merge of all reported usages, and its total is
   * the sum of their effective totals.
   */
  method UsageReadBack(recorder: Recorder) returns (usage: Option<TokenUsage>)
    requires recorder.Valid()
    ensures usage == if HasUsage(Cumulative(recorder.reported)) then Some(Cumulative(recorder.reported)) else None
    ensures usage.Some? ==> usage.value.total == Some(SumOfTotals(recorder.reported))
  {
    var log := recorder.WriteReplayLog();
    usage := ExtractTokenUsage(log);
    CumulativeTotalIsSum(recorder.reported);
    UsagePayloadReadsBack(recorder.tokenUsage);
  }
}
