/** The two list matchers behind the eval workflow checks (backend/app/eval/suite.py). */
module SequenceMatching {

  /** `at` lists strictly increasing positions of `values` that hold `expected`, entry by entry. */
  ghost predicate Embeds<T>(values: seq<T>, expected: seq<T>, at: seq<nat>) {
    && |at| == |expected|
    && (forall k :: 0 <= k < |at| ==> at[k] < |values| && values[at[k]] == expected[k])
    && (forall j, k :: 0 <= j < k < |at| ==> at[j] < at[k])
  }

  /** The greedy left-to-right scan, for a pattern that may be empty. */
  predicate Covers<T(==)>(values: seq<T>, expected: seq<T>) {
    if expected == [] then true
    else if values == [] then false
    else if values[0] == expected[0] then Covers(values[1..], expected[1..])
    else Covers(values[1..], expected)
  }

  /** The matcher as the eval suite uses it: an empty pattern matches only an empty list. */
  predicate ContainsInOrder<T(==)>(values: seq<T>, expected: seq<T>) {
    if expected == [] then values == [] else Covers(values, expected)
  }

  /** Greedy choice loses nothing: whatever embedding exists, the scan finds one. */
  lemma {:induction false} CoversIsComplete<T>(values: seq<T>, expected: seq<T>, at: seq<nat>)
    requires Embeds(values, expected, at)
    ensures Covers(values, expected)
    decreases |values|
  {
    if expected != [] {
      assert at[0] < |values|;
      var restHits := values[0] == expected[0];
      var pattern, positions := if restHits then expected[1..] else expected, if restHits then at[1..] else at;
      var shifted: seq<nat> := seq(|positions|, k requires 0 <= k < |positions| =>
        if positions[k] > 0 then positions[k] - 1 else 0);
      forall k | 0 <= k < |positions|
        ensures positions[k] > 0 && values[1..][shifted[k]] == pattern[k]
      {
        if restHits { assert at[0] < at[k + 1]; }
          else { assert values[at[0]] == expected[0]; assert k > 0 ==> at[0] < at[k]; }
      }
      CoversIsComplete(values[1..], pattern, shifted);
    }
  }

  lemma {:induction false} CoversIsSound<T>(values: seq<T>, expected: seq<T>) returns (at: seq<nat>)
    requires Covers(values, expected)
    ensures Embeds(values, expected, at)
    decreases |values|
  {
    if expected == [] {
      at := [];
    } else {
      var hit := values[0] == expected[0];
      var tail := CoversIsSound(values[1..], if hit then expected[1..] else expected);
      var shifted: seq<nat> := seq(|tail|, k requires 0 <= k < |tail| => tail[k] + 1);
      at := if hit then [0] + shifted else shifted;
    }
  }

  /** The matcher answers yes exactly when an increasing index map exists (non-empty pattern). */
  lemma {:induction false} ContainsInOrderIffEmbeds<T>(values: seq<T>, expected: seq<T>)
    requires expected != []
    ensures ContainsInOrder(values, expected) <==> exists at :: Embeds(values, expected, at)
  {
    if Covers(values, expected) {
      var at := CoversIsSound(values, expected);
    }
    if at :| Embeds(values, expected, at) {
      CoversIsComplete(values, expected, at);
    }
  }

  method ContainsOrderedSubsequence<T(==)>(values: seq<T>, expected: seq<T>) returns (found: bool)
    ensures found <==> ContainsInOrder(values, expected)
    ensures expected != [] ==> (found <==> exists at :: Embeds(values, expected, at))
  {
    if expected == [] {
      return values == [];
    }
    ContainsInOrderIffEmbeds(values, expected);
    var cursor := 0;
    for i := 0 to |values|
      invariant cursor < |expected|
      invariant Covers(values, expected) <==> Covers(values[i..], expected[cursor..])
    {
      assert values[i..][1..] == values[i + 1..];
      assert expected[cursor..][1..] == expected[cursor + 1..];
      if values[i] == expected[cursor] {
        cursor := cursor + 1;
        if cursor >= |expected| {
          return true;
        }
      }
    }
    return false;
  }

  method IndexOf<T(==)>(values: seq<T>, wanted: T) returns (index: nat)
    ensures index <= |values| && wanted !in values[..index]
    ensures index < |values| ==> values[index] == wanted
  {
    index := 0;
    while index < |values| && values[index] != wanted
      invariant index <= |values| && wanted !in values[..index]
    {
      index := index + 1;
    }
  }

  /** True exactly when every expected entry is available, counting repeats. */
  method ContainsWorkerMultiset<T(==)>(values: seq<T>, expected: seq<T>) returns (found: bool)
    ensures found <==> multiset(expected) <= multiset(values)
  {
    var remaining := values;
    for k := 0 to |expected|
      invariant multiset(remaining) + multiset(expected[..k]) == multiset(values)
    {
      var index := IndexOf(remaining, expected[k]);
      assert expected == expected[..k] + [expected[k]] + expected[k + 1..];
      assert expected[..k + 1] == expected[..k] + [expected[k]];
      if index == |remaining| {
        assert remaining[..index] == remaining;
        assert multiset(remaining)[expected[k]] == 0;
        assert multiset(expected)[expected[k]] > multiset(values)[expected[k]];
        return false;
      }
      assert remaining == remaining[..index] + [expected[k]] + remaining[index + 1..];
      remaining := remaining[..index] + remaining[index + 1..];
    }
    assert expected[..|expected|] == expected;
    return true;
  }
}
