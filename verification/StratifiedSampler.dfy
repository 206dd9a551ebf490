/** The route-stratified case sampler of the eval suite (backend/app/eval/suite.py). */
module StratifiedSampler {
  import opened Sequences
  import EvalVerdicts

  datatype Case = Case(id: string, route: string)

  const ROUTE_ORDER: seq<string> := [
    "clarify_before_dispatch", "qa_direct_answer", "dev_then_test",
    "dev_then_test_then_formal", "test_only_existing_code", "formal_only_existing_code"]

  function Min(a: int, b: int): int { if a < b then a else b }

  /** The positions of the cases on one route, ascending. */
  ghost function Bucket(cases: seq<Case>, route: string): seq<nat> {
    if cases == [] then []
    else
      var last := |cases| - 1;
      Bucket(cases[..last], route) + (if cases[last].route == route then [last] else [])
  }

  ghost function Pick(cases: seq<Case>, positions: seq<nat>): seq<Case>
    requires forall k :: 0 <= k < |positions| ==> positions[k] < |cases|
  {
    seq(|positions|, k requires 0 <= k < |positions| => cases[positions[k]])
  }

  lemma {:induction false} BucketIsExact(cases: seq<Case>, route: string)
    ensures var b := Bucket(cases, route);
            && (forall k :: 0 <= k < |b| ==> b[k] < |cases| && cases[b[k]].route == route)
            && (forall j, k :: 0 <= j < k < |b| ==> b[j] < b[k])
            && (forall p :: 0 <= p < |cases| && cases[p].route == route ==> p in b)
  {
    if cases != [] { BucketIsExact(cases[..|cases| - 1], route); }
  }

  lemma {:induction false} RoutesAreDistinct()
    ensures NoRepeats(ROUTE_ORDER)
  {
  }

  /** The sampler draws on exactly the routes the verdicts have an expected worker sequence for. */
  lemma {:induction false} SampledRoutesAreJudged(route: string)
    ensures route in ROUTE_ORDER <==> EvalVerdicts.ExpectedWorkers(route).Some?
  {
    assert ROUTE_ORDER[0] == "clarify_before_dispatch" && ROUTE_ORDER[1] == "qa_direct_answer";
    assert ROUTE_ORDER[2] == "dev_then_test" && ROUTE_ORDER[3] == "dev_then_test_then_formal";
    assert ROUTE_ORDER[4] == "test_only_existing_code" && ROUTE_ORDER[5] == "formal_only_existing_code";
  }

  ghost function Buckets(cases: seq<Case>, order: seq<string>): (buckets: seq<seq<nat>>)
    ensures |buckets| == |order|
    ensures forall r :: 0 <= r < |order| ==> buckets[r] == Bucket(cases, order[r])
  {
    seq(|order|, r requires 0 <= r < |order| => Bucket(cases, order[r]))
  }

  lemma {:induction false} BucketsAreExact(cases: seq<Case>, order: seq<string>)
    ensures forall r, k :: 0 <= r < |order| && 0 <= k < |Buckets(cases, order)[r]| ==>
              Buckets(cases, order)[r][k] < |cases| && cases[Buckets(cases, order)[r][k]].route == order[r]
  {
    forall r | 0 <= r < |order|
      ensures forall k :: 0 <= k < |Buckets(cases, order)[r]| ==>
                Buckets(cases, order)[r][k] < |cases| && cases[Buckets(cases, order)[r][k]].route == order[r]
    {
      assert Buckets(cases, order)[r] == Bucket(cases, order[r]);
      BucketIsExact(cases, order[r]);
    }
  }

  ghost function Total(buckets: seq<seq<nat>>, n: nat): nat
    requires n <= |buckets|
  {
    if n == 0 then 0 else Total(buckets, n - 1) + |buckets[n - 1]|
  }

  /** Cases whose route is in the order. */
  ghost function KnownTotal(cases: seq<Case>, order: seq<string>): nat {
    Total(Buckets(cases, order), |order|)
  }

  /** Round-robin: `rounds` full rounds, then one more round as far as seat `seat`. */
  ghost function Deal(buckets: seq<seq<nat>>, rounds: nat, seat: nat): seq<nat>
    requires seat <= |buckets|
    decreases rounds, seat
  {
    if seat > 0 then
      Deal(buckets, rounds, seat - 1)
      + (if rounds < |buckets[seat - 1]| then [buckets[seat - 1][rounds]] else [])
    else if rounds == 0 then []
    else Deal(buckets, rounds - 1, |buckets|)
  }

  /** How many picks route r has when the deal stands at (rounds, seat). */
  ghost function Picks(buckets: seq<seq<nat>>, rounds: nat, seat: nat, r: nat): nat
    requires r < |buckets|
  {
    Min(rounds + (if r < seat then 1 else 0), |buckets[r]|)
  }

  ghost function SumPicks(buckets: seq<seq<nat>>, rounds: nat, seat: nat, n: nat): nat
    requires n <= |buckets|
  {
    if n == 0 then 0 else SumPicks(buckets, rounds, seat, n - 1) + Picks(buckets, rounds, seat, n - 1)
  }

  lemma {:induction false} SumPicksStep(buckets: seq<seq<nat>>, rounds: nat, seat: nat, n: nat)
    requires 0 < seat <= |buckets| && n <= |buckets|
    ensures SumPicks(buckets, rounds, seat, n)
         == SumPicks(buckets, rounds, seat - 1, n)
            + (if seat <= n && rounds < |buckets[seat - 1]| then 1 else 0)
  {
    if n > 0 { SumPicksStep(buckets, rounds, seat, n - 1); }
  }

  lemma {:induction false} SumPicksWrap(buckets: seq<seq<nat>>, rounds: nat, n: nat)
    requires n <= |buckets|
    ensures SumPicks(buckets, rounds + 1, 0, n) == SumPicks(buckets, rounds, |buckets|, n)
    ensures SumPicks(buckets, 0, 0, n) == 0
  {
    if n > 0 { SumPicksWrap(buckets, rounds, n - 1); }
  }

  lemma {:induction false} SumPicksBound(buckets: seq<seq<nat>>, rounds: nat, seat: nat, n: nat)
    requires n <= |buckets|
    ensures SumPicks(buckets, rounds, seat, n) <= Total(buckets, n)
    ensures (forall r :: 0 <= r < n ==> |buckets[r]| <= rounds)
              ==> SumPicks(buckets, rounds, seat, n) == Total(buckets, n)
  {
    if n > 0 { SumPicksBound(buckets, rounds, seat, n - 1); }
  }

  lemma {:induction false} DealLength(buckets: seq<seq<nat>>, rounds: nat, seat: nat)
    requires seat <= |buckets|
    ensures |Deal(buckets, rounds, seat)| == SumPicks(buckets, rounds, seat, |buckets|)
    decreases rounds, seat
  {
    if seat > 0 {
      DealLength(buckets, rounds, seat - 1);
      SumPicksStep(buckets, rounds, seat, |buckets|);
    } else if rounds > 0 {
      DealLength(buckets, rounds - 1, |buckets|);
      SumPicksWrap(buckets, rounds - 1, |buckets|);
    } else {
      SumPicksWrap(buckets, 0, |buckets|);
    }
  }

  /** Every dealt position sits in some bucket, among the picks of that bucket's route. */
  lemma {:induction false} DealtFromBucket(buckets: seq<seq<nat>>, rounds: nat, seat: nat, p: nat)
    returns (r: nat, k: nat)
    requires seat <= |buckets| && p in Deal(buckets, rounds, seat)
    ensures r < |buckets| && k < Picks(buckets, rounds, seat, r) && buckets[r][k] == p
    decreases rounds, seat
  {
    if seat > 0 {
      if p in Deal(buckets, rounds, seat - 1) {
        r, k := DealtFromBucket(buckets, rounds, seat - 1, p);
      } else {
        r, k := seat - 1, rounds;
      }
    } else {
      r, k := DealtFromBucket(buckets, rounds - 1, |buckets|, p);
    }
  }

  ghost predicate InRange(cases: seq<Case>, positions: seq<nat>) {
    forall k :: 0 <= k < |positions| ==> positions[k] < |cases|
  }

  lemma {:induction false} DealInRange(cases: seq<Case>, order: seq<string>, rounds: nat, seat: nat)
    requires seat <= |order|
    ensures InRange(cases, Deal(Buckets(cases, order), rounds, seat))
  {
    var dealt := Deal(Buckets(cases, order), rounds, seat);
    BucketsAreExact(cases, order);
    forall i | 0 <= i < |dealt| ensures dealt[i] < |cases| {
      var r, k := DealtFromBucket(Buckets(cases, order), rounds, seat, dealt[i]);
    }
  }

  /** The dealt positions that lie on one route, in dealing order. */
  ghost function OnRoute(cases: seq<Case>, positions: seq<nat>, route: string): seq<nat>
    requires InRange(cases, positions)
  {
    if positions == [] then []
    else
      var last := |positions| - 1;
      OnRoute(cases, positions[..last], route)
      + (if cases[positions[last]].route == route then [positions[last]] else [])
  }

  lemma {:induction false} OnRouteAppend(cases: seq<Case>, positions: seq<nat>, p: nat, route: string)
    requires InRange(cases, positions) && p < |cases|
    ensures OnRoute(cases, positions + [p], route)
         == OnRoute(cases, positions, route) + (if cases[p].route == route then [p] else [])
  {
  }

  lemma {:induction false} OnRouteServed(
    cases: seq<Case>, order: seq<string>, before: seq<nat>, rounds: nat, seat: nat, r: nat)
    requires NoRepeats(order) && seat < |order| && r < |order|
    requires InRange(cases, before)
    requires rounds < |Buckets(cases, order)[seat]|
    requires OnRoute(cases, before, order[r])
          == Buckets(cases, order)[r][..Picks(Buckets(cases, order), rounds, seat, r)]
    ensures var after := before + [Buckets(cases, order)[seat][rounds]];
            && InRange(cases, after)
            && OnRoute(cases, after, order[r])
              == Buckets(cases, order)[r][..Picks(Buckets(cases, order), rounds, seat + 1, r)]
  {
    BucketsAreExact(cases, order);
    var p, bucket := Buckets(cases, order)[seat][rounds], Buckets(cases, order)[r];
    OnRouteAppend(cases, before, p, order[r]);
    if r == seat {
      assert bucket[..rounds + 1] == bucket[..rounds] + [p];
    } else {
      assert order[r] != order[seat];
    }
  }

  lemma {:induction false} SeatKeepsPrefix(cases: seq<Case>, order: seq<string>, rounds: nat, seat: nat, r: nat)
    requires NoRepeats(order) && seat < |order| && r < |order|
    requires InRange(cases, Deal(Buckets(cases, order), rounds, seat))
    requires InRange(cases, Deal(Buckets(cases, order), rounds, seat + 1))
    requires OnRoute(cases, Deal(Buckets(cases, order), rounds, seat), order[r])
          == Buckets(cases, order)[r][..Picks(Buckets(cases, order), rounds, seat, r)]
    ensures OnRoute(cases, Deal(Buckets(cases, order), rounds, seat + 1), order[r])
         == Buckets(cases, order)[r][..Picks(Buckets(cases, order), rounds, seat + 1, r)]
  {
    var buckets := Buckets(cases, order);
    if rounds < |buckets[seat]| {
      OnRouteServed(cases, order, Deal(buckets, rounds, seat), rounds, seat, r);
    } else {
      assert Deal(buckets, rounds, seat + 1) == Deal(buckets, rounds, seat);
    }
  }

  /** Each route contributes a prefix of its bucket, in bucket order. */
  lemma {:induction false} RoutePrefix(cases: seq<Case>, order: seq<string>, rounds: nat, seat: nat, r: nat)
    requires NoRepeats(order) && seat <= |order| && r < |order|
    ensures InRange(cases, Deal(Buckets(cases, order), rounds, seat))
    ensures OnRoute(cases, Deal(Buckets(cases, order), rounds, seat), order[r])
         == Buckets(cases, order)[r][..Picks(Buckets(cases, order), rounds, seat, r)]
    decreases rounds, seat
  {
    DealInRange(cases, order, rounds, seat);
    if seat > 0 {
      RoutePrefix(cases, order, rounds, seat - 1, r);
      SeatKeepsPrefix(cases, order, rounds, seat - 1, r);
    } else if rounds > 0 {
      RoutePrefix(cases, order, rounds - 1, |order|, r);
    }
  }

  lemma {:induction false} NextPickIsNew(cases: seq<Case>, order: seq<string>, rounds: nat, seat: nat)
    requires NoRepeats(order) && seat < |order| && rounds < |Buckets(cases, order)[seat]|
    ensures Buckets(cases, order)[seat][rounds] !in Deal(Buckets(cases, order), rounds, seat)
  {
    var buckets := Buckets(cases, order);
    var p := buckets[seat][rounds];
    if p in Deal(buckets, rounds, seat) {
      var r, k := DealtFromBucket(buckets, rounds, seat, p);
      BucketIsExact(cases, order[r]);
      BucketIsExact(cases, order[seat]);
      assert false;
    }
  }

  /** No position is taken twice. */
  lemma {:induction false} NoPositionTwice(cases: seq<Case>, order: seq<string>, rounds: nat, seat: nat)
    requires NoRepeats(order) && seat <= |order|
    ensures NoRepeats(Deal(Buckets(cases, order), rounds, seat))
    decreases rounds, seat
  {
    var buckets := Buckets(cases, order);
    if seat > 0 {
      NoPositionTwice(cases, order, rounds, seat - 1);
      if rounds < |buckets[seat - 1]| {
        NextPickIsNew(cases, order, rounds, seat - 1);
        var before, p := Deal(buckets, rounds, seat - 1), buckets[seat - 1][rounds];
        assert forall i :: 0 <= i < |before| ==> before[i] != p;
        assert NoRepeats(before + [p]);
      }
    } else if rounds > 0 {
      NoPositionTwice(cases, order, rounds - 1, |order|);
      assert Deal(buckets, rounds, 0) == Deal(buckets, rounds - 1, |order|);
    }
  }

  lemma {:induction false} PicksAreBalanced(buckets: seq<seq<nat>>, rounds: nat, seat: nat, r: nat, other: nat)
    requires seat <= |buckets| && r < |buckets| && other < |buckets|
    requires Picks(buckets, rounds, seat, r) < |buckets[r]|
    ensures Picks(buckets, rounds, seat, other) <= Picks(buckets, rounds, seat, r) + (if other < r then 1 else 0)
  {
  }

  /** `selected` is what a deal over the routes in `order` hands out when it stops at (rounds, seat). */
  ghost predicate IsDeal(cases: seq<Case>, order: seq<string>, selected: seq<Case>, rounds: nat, seat: nat) {
    && seat <= |order|
    && var dealt := Deal(Buckets(cases, order), rounds, seat);
       InRange(cases, dealt) && selected == Pick(cases, dealt)
  }

  /**
   * Balance: while route r still has cases to give, a route served earlier in the order has at most one
   * case more in the deal than r, and a route served later has no more than r.
   */
  lemma {:induction false} Balanced(cases: seq<Case>, order: seq<string>, rounds: nat, seat: nat, r: nat, other: nat)
    requires NoRepeats(order) && seat <= |order| && r < |order| && other < |order|
    requires InRange(cases, Deal(Buckets(cases, order), rounds, seat))
    requires |OnRoute(cases, Deal(Buckets(cases, order), rounds, seat), order[r])| < |Bucket(cases, order[r])|
    ensures |OnRoute(cases, Deal(Buckets(cases, order), rounds, seat), order[other])|
         <= |OnRoute(cases, Deal(Buckets(cases, order), rounds, seat), order[r])| + (if other < r then 1 else 0)
  {
    RoutePrefix(cases, order, rounds, seat, r);
    RoutePrefix(cases, order, rounds, seat, other);
    PicksAreBalanced(Buckets(cases, order), rounds, seat, r, other);
  }

  function RouteCount(selected: seq<Case>, route: string): nat {
    if selected == [] then 0
    else
      RouteCount(selected[..|selected| - 1], route) + (if selected[|selected| - 1].route == route then 1 else 0)
  }

  lemma {:induction false} CountIsOnRoute(cases: seq<Case>, positions: seq<nat>, route: string)
    requires InRange(cases, positions)
    ensures RouteCount(Pick(cases, positions), route) == |OnRoute(cases, positions, route)|
  {
    if positions != [] {
      var n := |positions| - 1;
      assert Pick(cases, positions)[..n] == Pick(cases, positions[..n]);
      CountIsOnRoute(cases, positions[..n], route);
    }
  }

  /** The same of what the sampler returns: no route is ahead of one that still had cases by more than one. */
  lemma {:induction false} SelectionIsBalanced(
    cases: seq<Case>, order: seq<string>, selected: seq<Case>, rounds: nat, seat: nat, r: nat, other: nat)
    requires NoRepeats(order) && r < |order| && other < |order| && IsDeal(cases, order, selected, rounds, seat)
    requires RouteCount(selected, order[r]) < RouteCount(cases, order[r])
    ensures RouteCount(selected, order[other]) <= RouteCount(selected, order[r]) + (if other < r then 1 else 0)
  {
    var dealt := Deal(Buckets(cases, order), rounds, seat);
    CountIsOnRoute(cases, dealt, order[r]);
    CountIsOnRoute(cases, dealt, order[other]);
    BucketCounts(cases, order[r]);
    Balanced(cases, order, rounds, seat, r, other);
  }

  lemma {:induction false} BucketCounts(cases: seq<Case>, route: string)
    ensures |Bucket(cases, route)| == RouteCount(cases, route)
  {
    if cases != [] { BucketCounts(cases[..|cases| - 1], route); }
  }

  ghost predicate Split(cases: seq<Case>, byRoute: map<string, seq<Case>>, route: string) {
    var bucket := Bucket(cases, route);
    && InRange(cases, bucket)
    && (route in byRoute ==> byRoute[route] == Pick(cases, bucket))
    && (route !in byRoute ==> bucket == [])
  }

  lemma {:induction false} SplitStep(cases: seq<Case>, byRoute: map<string, seq<Case>>, route: string)
    requires cases != []
    requires Split(cases[..|cases| - 1], byRoute, route)
    ensures var last := cases[|cases| - 1];
            var items := if last.route in byRoute then byRoute[last.route] else [];
            Split(cases, byRoute[last.route := items + [last]], route)
  {
  }

  method SplitByRoute(cases: seq<Case>, order: seq<string>) returns (byRoute: map<string, seq<Case>>)
    ensures forall route :: route in order ==> route in byRoute
    ensures forall route :: Split(cases, byRoute, route)
  {
    byRoute := map route | route in order :: [];
    for i := 0 to |cases|
      invariant forall route :: route in order ==> route in byRoute
      invariant forall route :: Split(cases[..i], byRoute, route)
    {
      assert cases[..i + 1][..i] == cases[..i];
      var items := if cases[i].route in byRoute then byRoute[cases[i].route] else [];
      ghost var next := byRoute[cases[i].route := items + [cases[i]]];
      ghost var grown := cases[..i + 1];
      forall route ensures Split(grown, next, route) {
        SplitStep(grown, byRoute, route);
      }
      byRoute := byRoute[cases[i].route := items + [cases[i]]];
    }
    assert cases[..|cases|] == cases;
  }

  /** The per-route cursors agree with a deal that stands at (rounds, seat). */
  ghost predicate Standing(
    buckets: seq<seq<nat>>, order: seq<string>, indexes: map<string, nat>, rounds: nat, seat: nat) {
    && |buckets| == |order|
    && forall r :: 0 <= r < |order| ==> order[r] in indexes && indexes[order[r]] == Picks(buckets, rounds, seat, r)
  }

  /** Serving one seat: the deal grows by the bucket's next case, if it has one. */
  lemma {:induction false} SeatDeals(cases: seq<Case>, order: seq<string>, selected: seq<Case>, rounds: nat, seat: nat)
    requires seat < |order| && IsDeal(cases, order, selected, rounds, seat)
    ensures var bucket := Buckets(cases, order)[seat];
            if rounds < |bucket|
            then bucket[rounds] < |cases| && IsDeal(cases, order, selected + [cases[bucket[rounds]]], rounds, seat + 1)
            else IsDeal(cases, order, selected, rounds, seat + 1)
  {
    var buckets := Buckets(cases, order);
    DealInRange(cases, order, rounds, seat + 1);
    BucketsAreExact(cases, order);
    if rounds < |buckets[seat]| {
      assert Deal(buckets, rounds, seat + 1) == Deal(buckets, rounds, seat) + [buckets[seat][rounds]];
    } else {
      assert Deal(buckets, rounds, seat + 1) == Deal(buckets, rounds, seat);
    }
  }

  /** Serving one seat: the route's cursor moves exactly when its bucket has a next case. */
  lemma {:induction false} SeatServed(
    cases: seq<Case>, order: seq<string>, byRoute: map<string, seq<Case>>, indexes: map<string, nat>,
    selected: seq<Case>, rounds: nat, seat: nat)
    requires NoRepeats(order) && seat < |order|
    requires order[seat] in byRoute && Split(cases, byRoute, order[seat])
    requires Standing(Buckets(cases, order), order, indexes, rounds, seat)
    requires IsDeal(cases, order, selected, rounds, seat)
    ensures var index, items := indexes[order[seat]], byRoute[order[seat]];
            if index < |items| then
              && Standing(Buckets(cases, order), order, indexes[order[seat] := index + 1], rounds, seat + 1)
              && IsDeal(cases, order, selected + [items[index]], rounds, seat + 1)
            else
              && |Buckets(cases, order)[seat]| <= rounds
              && Standing(Buckets(cases, order), order, indexes, rounds, seat + 1)
              && IsDeal(cases, order, selected, rounds, seat + 1)
  {
    assert Buckets(cases, order)[seat] == Bucket(cases, order[seat]);
    SeatDeals(cases, order, selected, rounds, seat);
  }

  /** One pass over the routes; it stops early once the sample is full. */
  method ServeRound(
    cases: seq<Case>, order: seq<string>, sampleSize: int, byRoute: map<string, seq<Case>>,
    indexes0: map<string, nat>, selected0: seq<Case>, ghost rounds: nat)
    returns (indexes: map<string, nat>, selected: seq<Case>, added: bool, ghost seat: nat)
    requires NoRepeats(order) && |selected0| < sampleSize
    requires forall route :: route in order ==> route in byRoute
    requires forall route :: Split(cases, byRoute, route)
    requires Standing(Buckets(cases, order), order, indexes0, rounds, 0)
    requires IsDeal(cases, order, selected0, rounds, 0)
    ensures IsDeal(cases, order, selected, rounds, seat)
    ensures |selected| < sampleSize ==>
              seat == |order| && Standing(Buckets(cases, order), order, indexes, rounds, seat)
    ensures if added then |selected0| < |selected| <= sampleSize else selected == selected0
    ensures !added ==> forall r :: 0 <= r < |order| ==> |Buckets(cases, order)[r]| <= rounds
  {
    indexes, selected, added, seat := indexes0, selected0, false, 0;
    for k := 0 to |order|
      invariant seat == k && |selected| < sampleSize
      invariant Standing(Buckets(cases, order), order, indexes, rounds, k)
      invariant IsDeal(cases, order, selected, rounds, k)
      invariant if added then |selected| > |selected0| else selected == selected0
      invariant !added ==> forall r :: 0 <= r < k ==> |Buckets(cases, order)[r]| <= rounds
    {
      var route := order[k];
      SeatServed(cases, order, byRoute, indexes, selected, rounds, k);
      var items, index := byRoute[route], indexes[route];
      seat := k + 1;
      if index < |items| {
        selected := selected + [items[index]];
        indexes := indexes[route := index + 1];
        added := true;
        if |selected| >= sampleSize {
          break;
        }
      }
    }
  }

  /** A deal that reached the sample size, or went on until every bucket was empty, has the right length. */
  lemma {:induction false} DealIsComplete(
    cases: seq<Case>, order: seq<string>, selected: seq<Case>, sampleSize: int, rounds: nat, seat: nat)
    requires IsDeal(cases, order, selected, rounds, seat) && |selected| <= sampleSize
    requires |selected| < sampleSize ==> forall r :: 0 <= r < |order| ==> |Buckets(cases, order)[r]| <= rounds
    ensures |selected| == Min(sampleSize, KnownTotal(cases, order))
  {
    DealLength(Buckets(cases, order), rounds, seat);
    SumPicksBound(Buckets(cases, order), rounds, seat, |order|);
  }

  /** Round after round, until the sample is full or a whole round found nothing. */
  method DealOut(cases: seq<Case>, order: seq<string>, sampleSize: int)
    returns (selected: seq<Case>, ghost rounds: nat, ghost seat: nat)
    requires NoRepeats(order) && 0 < sampleSize
    ensures IsDeal(cases, order, selected, rounds, seat) && |selected| <= sampleSize
    ensures |selected| < sampleSize ==> forall r :: 0 <= r < |order| ==> |Buckets(cases, order)[r]| <= rounds
  {
    rounds, seat := 0, 0;
    var byRoute := SplitByRoute(cases, order);
    var indexes: map<string, nat> := map route | route in byRoute :: 0;
    selected := [];
    var added := true;
    while |selected| < sampleSize && added
      invariant |selected| <= sampleSize
      invariant |selected| < sampleSize ==> seat == 0 && Standing(Buckets(cases, order), order, indexes, rounds, 0)
      invariant IsDeal(cases, order, selected, rounds, seat)
      invariant |selected| < sampleSize && !added ==>
                  forall r :: 0 <= r < |order| ==> |Buckets(cases, order)[r]| <= rounds
      decreases sampleSize - |selected|, if added then 1 else 0
    {
      indexes, selected, added, seat := ServeRound(cases, order, sampleSize, byRoute, indexes, selected, rounds);
      if |selected| < sampleSize {
        assert Deal(Buckets(cases, order), rounds + 1, 0) == Deal(Buckets(cases, order), rounds, |order|);
        rounds, seat := rounds + 1, 0;
      }
    }
  }

  method SelectStratifiedCases(cases: seq<Case>, order: seq<string>, sampleSize: int)
    returns (selected: seq<Case>, ghost rounds: nat, ghost seat: nat)
    requires NoRepeats(order)
    ensures sampleSize <= 0 || sampleSize >= |cases| ==> selected == cases
    ensures 0 < sampleSize < |cases| ==> IsDeal(cases, order, selected, rounds, seat)
    ensures 0 < sampleSize < |cases| ==> |selected| == Min(sampleSize, KnownTotal(cases, order))
  {
    if sampleSize <= 0 || sampleSize >= |cases| {
      return cases, 0, 0;
    }
    selected, rounds, seat := DealOut(cases, order, sampleSize);
    DealIsComplete(cases, order, selected, sampleSize, rounds, seat);
  }
}
