/**
 * Rebuilding an assistant turn from a chunked provider stream, and the one-shot parse it must agree
 * with (backend/app/agents/main_agent.py).
 */
module StreamAssembler {
  import opened Options
  import opened TokenUsages
  import opened TextTools

  /** One tool-call fragment of a delta. An absent id, name or argument text is "". */
  datatype Fragment = Fragment(index: Option<int>, id: string, name: string, arguments: string)


  /** A stream chunk; `delta` is absent when the chunk has no choice or the choice has no delta. */
  datatype Chunk = Chunk(usage: Option<TokenUsage>, delta: Option<Delta>)
  datatype Delta = Delta(content: string, fragments: seq<Fragment>)

  /** The provider's id when it sent one, otherwise an id generated on this side. */
  datatype CallId = Given(text: string) | Generated

  datatype ChatToolCall = ChatToolCall(id: CallId, name: string, arguments: string)
  datatype AssistantTurn = AssistantTurn(content: Option<string>, calls: seq<ChatToolCall>, usage: Option<TokenUsage>)

  /** A complete tool call in a non-streamed message. */
  datatype WholeCall = WholeCall(id: string, name: string, arguments: string)

  datatype Part = Part(id: string, name: string, arguments: string)

  function IdOf(text: string): CallId { if text == "" then Generated else Given(text) }
  function TextOrNone(text: string): Option<string> { if text == "" then None else Some(text) }

  function TurnFromMessage(content: string, calls: seq<WholeCall>): AssistantTurn {
    AssistantTurn(
      TextOrNone(Strip(content)),
      seq(|calls|, k requires 0 <= k < |calls| =>
        ChatToolCall(IdOf(calls[k].id), calls[k].name, if calls[k].arguments == "" then "{}" else calls[k].arguments)),
      None)
  }

  /** What `json.loads` makes of an argument text. */
  datatype Decoded = NotJson | NotAnObject | Object(fields: map<string, string>)

  /** The arguments a tool is called with; None where the call is refused as malformed. */
  function ParseToolArguments(decode: string -> Decoded, raw: string): Option<map<string, string>> {
    if raw == "" then Some(map[])
    else match decode(raw)
      case Object(fields) => Some(fields)
      case _ => None
  }

  /** One fragment lands in the part its index names; a missing index means "the next free count". */
  function Absorb(parts: map<int, Part>, f: Fragment): map<int, Part> {
    var index := if f.index.Some? then f.index.value else |parts|;
    var part := if index in parts then parts[index] else Part("", "", "");
    parts[index := Part(if f.id != "" then f.id else part.id, part.name + f.name, part.arguments + f.arguments)]
  }

  function AbsorbAll(fragments: seq<Fragment>): map<int, Part> {
    if fragments == [] then map[]
    else Absorb(AbsorbAll(fragments[..|fragments| - 1]), fragments[|fragments| - 1])
  }

  function AllFragments(chunks: seq<Chunk>): seq<Fragment> {
    if chunks == [] then []
    else
      AllFragments(chunks[..|chunks| - 1])
      + (match chunks[|chunks| - 1].delta case Some(d) => d.fragments case None => [])
  }

  /** Streamed text: every delta is stripped before it is joined. */
  function StreamedText(chunks: seq<Chunk>): string {
    if chunks == [] then ""
    else
      StreamedText(chunks[..|chunks| - 1])
      + (match chunks[|chunks| - 1].delta case Some(d) => Strip(d.content) case None => "")
  }

  function LastUsage(chunks: seq<Chunk>): Option<TokenUsage> {
    if chunks == [] then None
    else if chunks[|chunks| - 1].usage.Some? then chunks[|chunks| - 1].usage
    else LastUsage(chunks[..|chunks| - 1])
  }

  ghost predicate Ascending(keys: seq<int>) {
    forall i, j :: 0 <= i < j < |keys| ==> keys[i] < keys[j]
  }

  function CallOf(part: Part): ChatToolCall { ChatToolCall(IdOf(part.id), part.name, part.arguments) }

  /** `calls` are the parts in ascending index order; `keys` are those indices. */
  ghost predicate ListsInOrder(parts: map<int, Part>, keys: seq<int>, calls: seq<ChatToolCall>) {
    && Ascending(keys)
    && (forall k :: k in keys <==> k in parts)
    && |calls| == |keys|
    && (forall i :: 0 <= i < |keys| ==> calls[i] == CallOf(parts[keys[i]]))
  }

  /** Two ascending enumerations of the same indices are the same enumeration. */
  lemma {:induction false} AscendingIsUnique(a: seq<int>, b: seq<int>)
    requires Ascending(a) && Ascending(b)
    requires forall k :: k in a <==> k in b
    ensures a == b
  {
    if b != [] { assert b[0] in b && b[0] in a; }
    if a != [] {
      assert a[0] in a && a[0] in b;
      var i, j :| 0 <= i < |b| && b[i] == a[0] && 0 <= j < |a| && a[j] == b[0];
      assert b[0] <= b[i] && a[0] <= a[j];
      forall k ensures k in a[1..] <==> k in b[1..] {
        assert k in a[1..] ==> k in a && k > a[0];
        assert k in b[1..] ==> k in b && k > b[0];
      }
      AscendingIsUnique(a[1..], b[1..]);
      assert a == [a[0]] + a[1..] && b == [b[0]] + b[1..];
    }
  }

  /** The dict's indices in insertion order: every index once. */
  ghost predicate Enumerates(order: seq<int>, parts: map<int, Part>) {
    && (forall k :: k in order <==> k in parts)
    && (forall i, j :: 0 <= i < j < |order| ==> order[i] != order[j])
  }

  /** Putting an index in front of the larger ones keeps the order and adds just that index. */
  lemma {:induction false} InsertionIsAscending(below: seq<int>, k: int, above: seq<int>)
    requires Ascending(below + above)
    requires (forall i :: 0 <= i < |below| ==> below[i] < k) && (forall i :: 0 <= i < |above| ==> k < above[i])
    ensures Ascending(below + [k] + above)
    ensures forall x :: x in below + [k] + above <==> x == k || x in below + above
  {
    forall i, j | 0 <= i < j < |below| + 1 + |above| ensures (below + [k] + above)[i] < (below + [k] + above)[j] {
      var all := below + above;
      if j < |below| {
        assert all[i] < all[j];
      } else if i > |below| {
        assert all[i - 1] < all[j - 1];
      } else if i < |below| < j {
        assert all[i] < all[j - 1];
      }
    }
  }

  lemma {:induction false} LaterIsLarger(keys: seq<int>, at: nat, i: nat, k: int)
    requires Ascending(keys) && at <= i < |keys| && k <= keys[at] && k !in keys
    ensures k < keys[i]
  {
    assert keys[at] in keys;
  }

  method InsertAscending(keys0: seq<int>, k: int) returns (keys: seq<int>)
    requires Ascending(keys0) && k !in keys0
    ensures Ascending(keys)
    ensures forall x :: x in keys <==> x == k || x in keys0
  {
    var at := 0;
    while at < |keys0| && keys0[at] < k
      invariant at <= |keys0| && forall i :: 0 <= i < at ==> keys0[i] < k
    {
      at := at + 1;
    }
    keys := keys0[..at] + [k] + keys0[at..];
    assert keys0 == keys0[..at] + keys0[at..];
    forall i | 0 <= i < |keys0[at..]| ensures k < keys0[at..][i] { LaterIsLarger(keys0, at, at + i, k); }
    InsertionIsAscending(keys0[..at], k, keys0[at..]);
  }

  method SortedCalls(parts: map<int, Part>, order: seq<int>) returns (calls: seq<ChatToolCall>, keys: seq<int>)
    requires Enumerates(order, parts)
    ensures ListsInOrder(parts, keys, calls)
  {
    keys := [];
    for i := 0 to |order|
      invariant Ascending(keys)
      invariant forall k :: k in keys <==> k in order[..i]
    {
      assert order[i] !in order[..i];
      keys := InsertAscending(keys, order[i]);
    }
    assert order[..|order|] == order;
    forall i | 0 <= i < |keys| ensures keys[i] in parts { assert keys[i] in keys; }
    calls := seq(|keys|, i requires 0 <= i < |keys| && keys[i] in parts => CallOf(parts[keys[i]]));
  }

  lemma {:induction false} AbsorbNext(fragments: seq<Fragment>, f: Fragment)
    ensures AbsorbAll(fragments + [f]) == Absorb(AbsorbAll(fragments), f)
  {
  }

  method AbsorbDelta(
    parts0: map<int, Part>, order0: seq<int>, fragments: seq<Fragment>, ghost earlier: seq<Fragment>)
    returns (parts: map<int, Part>, order: seq<int>)
    requires parts0 == AbsorbAll(earlier) && Enumerates(order0, parts0)
    ensures parts == AbsorbAll(earlier + fragments) && Enumerates(order, parts)
  {
    parts, order := parts0, order0;
    assert earlier + fragments[..0] == earlier;
    for j := 0 to |fragments|
      invariant parts == AbsorbAll(earlier + fragments[..j]) && Enumerates(order, parts)
    {
      assert earlier + fragments[..j + 1] == earlier + fragments[..j] + [fragments[j]];
      AbsorbNext(earlier + fragments[..j], fragments[j]);
      var index := if fragments[j].index.Some? then fragments[j].index.value else |parts|;
      if index !in parts {
        order := order + [index];
      }
      parts := Absorb(parts, fragments[j]);
    }
    assert fragments[..|fragments|] == fragments;
  }

  method AssistantTurnFromStream(chunks: seq<Chunk>) returns (turn: AssistantTurn, keys: seq<int>)
    ensures ListsInOrder(AbsorbAll(AllFragments(chunks)), keys, turn.calls)
    ensures turn.content == TextOrNone(Strip(StreamedText(chunks)))
    ensures turn.usage == LastUsage(chunks)
  {
    var text := "";
    var parts: map<int, Part>, order: seq<int> := map[], [];
    var usage: Option<TokenUsage> := None;
    for i := 0 to |chunks|
      invariant text == StreamedText(chunks[..i])
      invariant usage == LastUsage(chunks[..i])
      invariant parts == AbsorbAll(AllFragments(chunks[..i])) && Enumerates(order, parts)
    {
      assert chunks[..i + 1][..i] == chunks[..i];
      if chunks[i].usage.Some? {
        usage := chunks[i].usage;
      }
      if chunks[i].delta.Some? {
        text := text + Strip(chunks[i].delta.value.content);
        parts, order := AbsorbDelta(parts, order, chunks[i].delta.value.fragments, AllFragments(chunks[..i]));
      } else {
        assert AllFragments(chunks[..i + 1]) == AllFragments(chunks[..i]);
        assert StreamedText(chunks[..i + 1]) == StreamedText(chunks[..i]);
      }
    }
    assert chunks[..|chunks|] == chunks;
    var calls;
    calls, keys := SortedCalls(parts, order);
    turn := AssistantTurn(TextOrNone(Strip(text)), calls, usage);
  }

  // ---- text and usage ----

  /** A streamed text is the text of its beginning followed by that of its rest. */
  lemma {:induction false} TextJoins(a: seq<Chunk>, b: seq<Chunk>)
    ensures StreamedText(a + b) == StreamedText(a) + StreamedText(b)
  {
    if b == [] {
      assert a + b == a;
    } else {
      var before, last := b[..|b| - 1], b[|b| - 1];
      TextJoins(a, before);
      assert b == before + [last];
      ThreeJoin(a, before, [last]);
      TextNext(a + before, last);
      TextNext(before, last);
      var said := if last.delta.Some? then Strip(last.delta.value.content) else "";
      ThreeJoin(StreamedText(a), StreamedText(before), said);
    }
  }

  lemma {:induction false} ThreeJoin<T>(a: seq<T>, b: seq<T>, c: seq<T>)
    ensures (a + b) + c == a + (b + c)
  {
  }

  lemma {:induction false} TextNext(chunks: seq<Chunk>, last: Chunk)
    ensures StreamedText(chunks + [last])
         == StreamedText(chunks) + (if last.delta.Some? then Strip(last.delta.value.content) else "")
  {
    assert (chunks + [last])[..|chunks|] == chunks;
  }

  /** A content that comes in one chunk is what the one-shot parse makes of it; white space alone is no content. */
  lemma {:induction false} OneChunkAgrees(chunk: Chunk, calls: seq<WholeCall>)
    requires chunk.delta.Some?
    ensures TextOrNone(Strip(StreamedText([chunk]))) == TurnFromMessage(chunk.delta.value.content, calls).content
    ensures TurnFromMessage(chunk.delta.value.content, calls).content == None <==> AllSpace(chunk.delta.value.content)
  {
    var content := chunk.delta.value.content;
    TextNext([], chunk);
    assert [] + [chunk] == [chunk] && "" + Strip(content) == Strip(content);
    StripsToNothingIff(content);
  }

  /** The usage of a stream is that of its last chunk that has one. */
  lemma {:induction false} LastUsageWins(chunks: seq<Chunk>, k: nat)
    requires k < |chunks| && forall j :: k < j < |chunks| ==> chunks[j].usage == None
    ensures chunks[k].usage.Some? ==> LastUsage(chunks) == chunks[k].usage
    ensures k == 0 && chunks[0].usage == None ==> LastUsage(chunks) == None
  {
    var n := |chunks| - 1;
    if k < n { LastUsageWins(chunks[..n], k); }
  }

  // ---- one call's own fragments decide its part ----

  ghost predicate Explicit(fragments: seq<Fragment>) {
    forall k :: 0 <= k < |fragments| ==> fragments[k].index.Some?
  }

  /** The fragments of one index, in stream order. */
  ghost function Own(fragments: seq<Fragment>, index: int): seq<Fragment> {
    if fragments == [] then []
    else
      var last := fragments[|fragments| - 1];
      Own(fragments[..|fragments| - 1], index) + (if last.index == Some(index) then [last] else [])
  }

  ghost function Names(own: seq<Fragment>): string {
    if own == [] then "" else Names(own[..|own| - 1]) + own[|own| - 1].name
  }

  ghost function Arguments(own: seq<Fragment>): string {
    if own == [] then "" else Arguments(own[..|own| - 1]) + own[|own| - 1].arguments
  }

  ghost function LastId(own: seq<Fragment>): string {
    if own == [] then ""
    else if own[|own| - 1].id != "" then own[|own| - 1].id
    else LastId(own[..|own| - 1])
  }

  lemma {:induction false} PartIsOwnFragments(fragments: seq<Fragment>, index: int)
    requires Explicit(fragments)
    ensures var own, parts := Own(fragments, index), AbsorbAll(fragments);
            && (index in parts <==> own != [])
            && (index in parts ==> parts[index] == Part(LastId(own), Names(own), Arguments(own)))
  {
    if fragments != [] {
      var before, last := fragments[..|fragments| - 1], fragments[|fragments| - 1];
      PartIsOwnFragments(before, index);
      assert Explicit(before);
      if last.index == Some(index) {
        assert Own(fragments, index)[..|Own(before, index)|] == Own(before, index);
      } else {
        assert Own(fragments, index) == Own(before, index);
      }
    }
  }

  /** Confluence: streams that agree call by call assemble to the same turn, however interleaved. */
  lemma {:induction false} InterleavingIsIrrelevant(a: seq<Fragment>, b: seq<Fragment>)
    requires Explicit(a) && Explicit(b)
    requires forall index :: Own(a, index) == Own(b, index)
    ensures AbsorbAll(a) == AbsorbAll(b)
  {
    forall index ensures index in AbsorbAll(a) <==> index in AbsorbAll(b)
                 ensures index in AbsorbAll(a) ==> AbsorbAll(a)[index] == AbsorbAll(b)[index]
    {
      PartIsOwnFragments(a, index);
      PartIsOwnFragments(b, index);
      assert Own(a, index) == Own(b, index);
    }
  }

  /** `fragments` is some split and interleaving of `calls`, call k travelling under index keys[k]. */
  ghost predicate Streams(fragments: seq<Fragment>, keys: seq<int>, calls: seq<WholeCall>) {
    && Explicit(fragments) && Ascending(keys) && |keys| == |calls|
    && (forall i :: 0 <= i < |fragments| ==> fragments[i].index.value in keys)
    && (forall k :: 0 <= k < |keys| ==>
          var own := Own(fragments, keys[k]);
          && own != []
          && calls[k] == WholeCall(LastId(own), Names(own), Arguments(own)))
  }

  lemma {:induction false} ForeignIndexHasNoFragments(fragments: seq<Fragment>, keys: seq<int>, index: int)
    requires Explicit(fragments) && index !in keys
    requires forall i :: 0 <= i < |fragments| ==> fragments[i].index.value in keys
    ensures Own(fragments, index) == []
  {
    if fragments != [] { ForeignIndexHasNoFragments(fragments[..|fragments| - 1], keys, index); }
  }

  /**
   * Reassembly agrees with the one-shot parse: same calls in index order, same ids, names and decoded
   * arguments. The raw argument texts differ only where the call carried none.
   */
  lemma {:induction false} StreamAgreesWithWhole(
    chunks: seq<Chunk>, turn: AssistantTurn, listed: seq<int>, keys: seq<int>, calls: seq<WholeCall>,
    content: string, decode: string -> Decoded)
    requires ListsInOrder(AbsorbAll(AllFragments(chunks)), listed, turn.calls)
    requires Streams(AllFragments(chunks), keys, calls)
    requires decode("{}") == Object(map[])
    ensures var whole := TurnFromMessage(content, calls).calls;
            && |turn.calls| == |whole|
            && forall k :: 0 <= k < |whole| ==>
                 && turn.calls[k].id == whole[k].id == (if calls[k].id == "" then Generated else Given(calls[k].id))
                 && turn.calls[k].name == whole[k].name == calls[k].name
                 && (turn.calls[k].arguments == whole[k].arguments
                     || (turn.calls[k].arguments == "" && whole[k].arguments == "{}"))
                 && ParseToolArguments(decode, turn.calls[k].arguments)
                   == ParseToolArguments(decode, whole[k].arguments)
  {
    var fragments := AllFragments(chunks);
    forall index ensures index in listed <==> index in keys {
      PartIsOwnFragments(fragments, index);
      if index !in keys {
        ForeignIndexHasNoFragments(fragments, keys, index);
      } else {
        var k :| 0 <= k < |keys| && keys[k] == index;
      }
    }
    AscendingIsUnique(listed, keys);
    forall k | 0 <= k < |keys|
      ensures turn.calls[k] == ChatToolCall(IdOf(calls[k].id), calls[k].name, calls[k].arguments)
    {
      PartIsOwnFragments(fragments, keys[k]);
    }
  }

  /** Fragments that carry no index at all: each one is a whole call of its own, in order. */
  lemma {:induction false} UnindexedFragmentsAreWholeCalls(fragments: seq<Fragment>)
    requires forall k :: 0 <= k < |fragments| ==> fragments[k].index == None
    ensures var parts := AbsorbAll(fragments);
            && |parts| == |fragments|
            && (forall k :: k in parts <==> 0 <= k < |fragments|)
            && forall k :: 0 <= k < |fragments| ==>
                 parts[k] == Part(fragments[k].id, fragments[k].name, fragments[k].arguments)
  {
    if fragments != [] {
      var before := fragments[..|fragments| - 1];
      UnindexedFragmentsAreWholeCalls(before);
      var parts := AbsorbAll(before);
      assert |parts| !in parts;
      assert AbsorbAll(fragments).Keys == parts.Keys + {|parts|};
    }
  }

  /** Mixed streams: an unindexed fragment opens a new call exactly when the count is not yet an index. */
  lemma {:induction false} UnindexedOpensNewCallIff(parts: map<int, Part>, f: Fragment)
    requires f.index == None
    ensures |Absorb(parts, f)| == |parts| + 1 <==> |parts| !in parts
  {
  }

  /** The index a fragment of a stream goes to. */
  ghost function Place(fragments: seq<Fragment>, k: nat): int
    requires k < |fragments|
  {
    if fragments[k].index.Some? then fragments[k].index.value else |AbsorbAll(fragments[..k])|
  }

  /** No other fragment of the stream goes where this one goes. */
  ghost predicate Alone(fragments: seq<Fragment>, k: nat)
    requires k < |fragments|
  {
    forall j :: 0 <= j < |fragments| && j != k ==> Place(fragments, j) != Place(fragments, k)
  }

  /** No explicit index of the stream, before or after, is the number of calls an unindexed fragment found. */
  ghost predicate NoClash(fragments: seq<Fragment>) {
    forall k, j | 0 <= k < |fragments| && fragments[k].index == None && 0 <= j < |fragments|
                  && fragments[j].index.Some? ::
        Place(fragments, j) != Place(fragments, k)
  }

  lemma {:induction false} PrefixPlaces(fragments: seq<Fragment>, n: nat, k: nat)
    requires k < n <= |fragments|
    ensures Place(fragments[..n], k) == Place(fragments, k)
  {
    assert fragments[..n][..k] == fragments[..k];
  }

  /** The calls of a stream are the places of its fragments. */
  lemma {:induction false} KeysArePlaces(fragments: seq<Fragment>, key: int)
    ensures key in AbsorbAll(fragments) <==> exists k :: 0 <= k < |fragments| && Place(fragments, k) == key
  {
    if fragments != [] {
      var n := |fragments| - 1;
      KeysArePlaces(fragments[..n], key);
      if key in AbsorbAll(fragments[..n]) {
        var k :| 0 <= k < n && Place(fragments[..n], k) == key;
        PrefixPlaces(fragments, n, k);
      }
      if k :| 0 <= k < |fragments| && Place(fragments, k) == key {
        if k < n { PrefixPlaces(fragments, n, k); }
      }
      assert Place(fragments, n) ==
             if fragments[n].index.Some? then fragments[n].index.value else |AbsorbAll(fragments[..n])|;
    }
  }

  lemma {:induction false} CallsOnlyGrow(fragments: seq<Fragment>, i: nat, j: nat)
    requires i <= j <= |fragments|
    ensures AbsorbAll(fragments[..i]).Keys <= AbsorbAll(fragments[..j]).Keys
    ensures |AbsorbAll(fragments[..i])| <= |AbsorbAll(fragments[..j])|
  {
    if i < j {
      CallsOnlyGrow(fragments, i, j - 1);
      assert fragments[..j] == fragments[..j - 1] + [fragments[j - 1]];
      AbsorbNext(fragments[..j - 1], fragments[j - 1]);
    }
  }

  /** Without a clash an unindexed fragment finds its place free. */
  lemma {:induction false} FindsItsPlaceFree(fragments: seq<Fragment>, k: nat)
    requires NoClash(fragments) && k < |fragments| && fragments[k].index == None
    ensures Place(fragments, k) !in AbsorbAll(fragments[..k])
    ensures |AbsorbAll(fragments[..k + 1])| == Place(fragments, k) + 1
  {
    KeysArePlaces(fragments[..k], Place(fragments, k));
    if Place(fragments, k) in AbsorbAll(fragments[..k]) {
      var j :| 0 <= j < k && Place(fragments[..k], j) == Place(fragments, k);
      PrefixPlaces(fragments, k, j);
      if fragments[j].index == None {
        FindsItsPlaceFree(fragments, j);
        CallsOnlyGrow(fragments, j + 1, k);
      }
      assert false;
    }
    assert fragments[..k + 1] == fragments[..k] + [fragments[k]];
    AbsorbNext(fragments[..k], fragments[k]);
    UnindexedOpensNewCallIff(AbsorbAll(fragments[..k]), fragments[k]);
  }

  /**
   * Over any mixed stream: every unindexed fragment has a call to itself exactly when no explicit index,
   * before or after it, is the number of calls it found.
   */
  lemma {:induction false} UnindexedAreAloneIff(fragments: seq<Fragment>)
    ensures (forall k :: 0 <= k < |fragments| && fragments[k].index == None ==> Alone(fragments, k))
            <==> NoClash(fragments)
  {
    if NoClash(fragments) {
      forall k, j | 0 <= k < j < |fragments| && fragments[k].index == None && fragments[j].index == None
        ensures Place(fragments, j) != Place(fragments, k)
      {
        FindsItsPlaceFree(fragments, k);
        CallsOnlyGrow(fragments, k + 1, j);
      }
      forall k | 0 <= k < |fragments| && fragments[k].index == None ensures Alone(fragments, k) {}
    } else {
      var k, j :| 0 <= k < |fragments| && fragments[k].index == None && 0 <= j < |fragments| && fragments[j].index.Some?
                  && Place(fragments, j) == Place(fragments, k);
      assert !Alone(fragments, k);
    }
  }

  /** And a fragment that is alone is a whole call, just as it came. */
  lemma {:induction false} AloneIsWhole(fragments: seq<Fragment>, k: nat)
    requires k < |fragments| && Alone(fragments, k)
    ensures var f := fragments[k];
            Place(fragments, k) in AbsorbAll(fragments)
            && AbsorbAll(fragments)[Place(fragments, k)] == Part(f.id, f.name, f.arguments)
  {
    var n := |fragments| - 1;
    var place := Place(fragments, k);
    if k < n {
      PrefixPlaces(fragments, n, k);
      forall j | 0 <= j < n && j != k ensures Place(fragments[..n], j) != place { PrefixPlaces(fragments, n, j); }
      AloneIsWhole(fragments[..n], k);
      assert Place(fragments, n) != place;
    } else {
      KeysArePlaces(fragments[..n], place);
      if place in AbsorbAll(fragments[..n]) {
        var j :| 0 <= j < n && Place(fragments[..n], j) == place;
        PrefixPlaces(fragments, n, j);
        assert false;
      }
    }
  }

  ghost predicate AllUnindexed(fragments: seq<Fragment>) {
    forall k :: 0 <= k < |fragments| ==> fragments[k].index == None
  }

  /** However a stream goes on without indices, every further fragment opens a call of its own. */
  ghost predicate NeverMerges(fragments: seq<Fragment>) {
    forall tail: seq<Fragment> :: AllUnindexed(tail) ==>
        |AbsorbAll(fragments + tail)| == |AbsorbAll(fragments)| + |tail|
  }

  ghost predicate BelowCount(parts: map<int, Part>) { forall key :: key in parts ==> key < |parts| }

  lemma {:induction false} DenseNeverMerges(fragments: seq<Fragment>, tail: seq<Fragment>)
    requires BelowCount(AbsorbAll(fragments)) && AllUnindexed(tail)
    ensures |AbsorbAll(fragments + tail)| == |AbsorbAll(fragments)| + |tail|
    ensures BelowCount(AbsorbAll(fragments + tail))
  {
    if tail == [] {
      assert fragments + tail == fragments;
    } else {
      var n := |tail| - 1;
      DenseNeverMerges(fragments, tail[..n]);
      assert fragments + tail == (fragments + tail[..n]) + [tail[n]];
      AbsorbNext(fragments + tail[..n], tail[n]);
      UnindexedOpensNewCallIff(AbsorbAll(fragments + tail[..n]), tail[n]);
    }
  }

  const BLANK := Fragment(None, "", "", "")

  function Blanks(n: nat): seq<Fragment> { seq(n, _ => BLANK) }

  lemma {:induction false} BlankNext(fragments: seq<Fragment>, n: nat)
    ensures AbsorbAll(fragments + Blanks(n + 1)) == Absorb(AbsorbAll(fragments + Blanks(n)), BLANK)
  {
    assert fragments + Blanks(n + 1) == (fragments + Blanks(n)) + [BLANK];
    AbsorbNext(fragments + Blanks(n), BLANK);
  }

  lemma {:induction false} BlanksAddAtMostOneEach(fragments: seq<Fragment>, n: nat)
    ensures |AbsorbAll(fragments + Blanks(n))| <= |AbsorbAll(fragments)| + n
    ensures AbsorbAll(fragments).Keys <= AbsorbAll(fragments + Blanks(n)).Keys
  {
    if n == 0 {
      assert fragments + Blanks(0) == fragments;
    } else {
      BlanksAddAtMostOneEach(fragments, n - 1);
      BlankNext(fragments, n - 1);
    }
  }

  lemma {:induction false} GapMerges(fragments: seq<Fragment>, key: int)
    requires key in AbsorbAll(fragments) && key >= |AbsorbAll(fragments)|
    ensures !NeverMerges(fragments)
  {
    var size := |AbsorbAll(fragments)|;
    var n := key - size;
    BlanksAddAtMostOneEach(fragments, n);
    BlankNext(fragments, n);
    var parts := AbsorbAll(fragments + Blanks(n));
    if |parts| == size + n { assert |parts| in parts; }
    UnindexedOpensNewCallIff(parts, BLANK);
    assert AllUnindexed(Blanks(n + 1)) && |AbsorbAll(fragments + Blanks(n + 1))| < size + |Blanks(n + 1)|;
  }

  /** At stream level: what follows without indices can be glued to an earlier call iff some index was skipped. */
  lemma {:induction false} NeverMergesIff(fragments: seq<Fragment>)
    ensures NeverMerges(fragments) <==> BelowCount(AbsorbAll(fragments))
  {
    if BelowCount(AbsorbAll(fragments)) {
      forall tail: seq<Fragment> | AllUnindexed(tail)
        ensures |AbsorbAll(fragments + tail)| == |AbsorbAll(fragments)| + |tail|
      {
        DenseNeverMerges(fragments, tail);
      }
    } else {
      var key :| key in AbsorbAll(fragments) && key >= |AbsorbAll(fragments)|;
      GapMerges(fragments, key);
    }
  }

  /** Such a merge happens: after a call with index 1 alone, a fragment without an index is glued onto it. */
  lemma {:induction false} MixedStreamCanMerge(first: Fragment, second: Fragment)
    requires first.index == Some(1) && second.index == None
    ensures AbsorbAll([first, second]).Keys == {1}
    ensures AbsorbAll([first, second])[1].arguments == first.arguments + second.arguments
  {
    AbsorbNext([], first);
    AbsorbNext([first], second);
    assert [first] + [second] == [first, second] && [] + [first] == [first];
    var alone := AbsorbAll([first]);
    assert AbsorbAll([]) == map[] && "" + first.name == first.name && "" + first.arguments == first.arguments;
    assert alone == map[1 := Part(first.id, first.name, first.arguments)];
    assert |alone| == 1;
  }

  /** It also happens the other way round: a later explicit index is glued onto an unindexed call. */
  lemma {:induction false} LaterIndexCanMerge(first: Fragment, second: Fragment)
    requires first.index == None && second.index == Some(0)
    ensures AbsorbAll([first, second]).Keys == {0}
    ensures AbsorbAll([first, second])[0].arguments == first.arguments + second.arguments
  {
    AbsorbNext([], first);
    AbsorbNext([first], second);
    assert [first] + [second] == [first, second] && [] + [first] == [first];
    assert AbsorbAll([]) == map[] && "" + first.name == first.name && "" + first.arguments == first.arguments;
    assert AbsorbAll([first]) == map[0 := Part(first.id, first.name, first.arguments)];
  }
}
