/**
 Percentiles of merged LAN latency histograms.

 Every client process sends a histogram of its samples; the controller merges them and scans the
 result, and the audit scans it once more in its own way.  Both answers are the round-up of the
 exact order statistic of all samples together.
 */
module LanPercentile {
  import Arith
  import Ids
  import opened LanRounding
  import opened OrderStatistics
  import LanStats

  type Counter = map<nat, nat>

  function At(h: Counter, k: nat): nat { if k in h then h[k] else 0 }

  ghost function Key(): int -> int { (x: int) => if x < 0 then 0 else RoundUp(x) }

  ghost function Rounded(s: seq<int>): seq<int> { Keys(Key(), s) }

  /** `h` counts exactly the boundaries of `s`, with no empty entry. */
  ghost predicate Counts(h: Counter, s: seq<int>) {
    && (forall k: nat :: At(h, k) == CountEq(Rounded(s), k))
    && (forall k :: k in h ==> h[k] > 0)
  }

  // ------------------------------------------------------------ building

  /** `histogram` of the client. */
  method Build(samples: seq<int>) returns (h: Counter)
    requires LanStats.Durations(samples)
    ensures Counts(h, samples)
  {
    h := map[];
    for i := 0 to |samples|
      invariant Counts(h, samples[..i])
    {
      var boundary := Boundary(samples[i]);
      CountOne(h, samples[..i], samples[i]);
      h := h[boundary := At(h, boundary) + 1];
      assert samples[..i + 1] == samples[..i] + [samples[i]];
    }
    assert samples[..|samples|] == samples;
  }

  lemma RoundedOne(x: int, k: nat)
    requires 0 <= x
    ensures CountEq(Rounded([x]), k) == if RoundUp(x) == k then 1 else 0
  {
    assert Rounded([x]) == [RoundUp(x)];
  }

  lemma CountOne(h: Counter, s: seq<int>, x: int)
    requires Counts(h, s) && 0 <= x
    ensures Counts(h[RoundUp(x) := At(h, RoundUp(x)) + 1], s + [x])
  {
    var g := h[RoundUp(x) := At(h, RoundUp(x)) + 1];
    forall k: nat ensures At(g, k) == CountEq(Rounded(s + [x]), k) {
      KeysAppend(Key(), s, [x]);
      CountAppend(Rounded(s), Rounded([x]), k);
      RoundedOne(x, k);
    }
  }

  // ------------------------------------------------------------- merging

  /** `Counter.update` with one shard's histogram, entry by entry in any order. */
  method Update(total: Counter, shard: Counter) returns (h: Counter)
    ensures forall k :: At(h, k) == At(total, k) + At(shard, k)
    ensures (forall k :: k in total ==> total[k] > 0) && (forall k :: k in shard ==> shard[k] > 0) ==>
              forall k :: k in h ==> h[k] > 0
  {
    h := total;
    var rest := shard.Keys;
    while rest != {}
      invariant rest <= shard.Keys
      invariant forall k :: At(h, k) == At(total, k) + if k in rest then 0 else At(shard, k)
      invariant (forall k :: k in total ==> total[k] > 0) && (forall k :: k in shard ==> shard[k] > 0) ==>
                  forall k :: k in h ==> h[k] > 0
      decreases |rest|
    {
      var k :| k in rest;
      h := h[k := At(h, k) + shard[k]];
      rest := rest - {k};
    }
  }

  ghost function Flatten(parts: seq<seq<int>>): seq<int> {
    if parts == [] then [] else Flatten(parts[..|parts| - 1]) + parts[|parts| - 1]
  }

  lemma CountMerged(h: Counter, a: Counter, b: Counter, s: seq<int>, t: seq<int>)
    requires Counts(a, s) && Counts(b, t)
    requires (forall k :: At(h, k) == At(a, k) + At(b, k)) && forall k :: k in h ==> h[k] > 0
    ensures Counts(h, s + t)
  {
    forall k: nat ensures At(h, k) == CountEq(Rounded(s + t), k) {
      KeysAppend(Key(), s, t);
      CountAppend(Rounded(s), Rounded(t), k);
    }
  }

  /** The merge over all shards counts all samples, however they were split. */
  method MergeAll(shards: seq<Counter>, ghost parts: seq<seq<int>>) returns (h: Counter)
    requires |shards| == |parts| && forall i :: 0 <= i < |shards| ==> Counts(shards[i], parts[i])
    ensures Counts(h, Flatten(parts))
  {
    h := map[];
    for i := 0 to |shards|
      invariant Counts(h, Flatten(parts[..i]))
    {
      var before := h;
      h := Update(before, shards[i]);
      CountMerged(h, before, shards[i], Flatten(parts[..i]), parts[i]);
      assert parts[..i + 1][..i] == parts[..i];
    }
    assert parts[..|parts|] == parts;
  }

  // ------------------------------------------------------- sorted iteration

  lemma {:induction false} CountGap(s: seq<int>, a: int, b: int)
    requires a <= b && forall i :: 0 <= i < |s| ==> s[i] <= a || b < s[i]
    ensures CountLe(s, a) == CountLe(s, b)
  {
    if s != [] { CountGap(s[1..], a, b); }
  }

  lemma {:induction false} CountEqIn(s: seq<int>, x: int)
    ensures x in s <==> CountEq(s, x) > 0
  {
    if s != [] { CountEqIn(s[1..], x); }
  }

  /** How many elements are less than `b`. */
  ghost function CountLess(s: seq<int>, b: int): nat { CountLe(s, b - 1) }

  /** The keys of a list, ascending. */
  ghost predicate Covers(keys: seq<nat>, r: seq<int>) {
    && (forall i, j :: 0 <= i < j < |keys| ==> keys[i] < keys[j])
    && (forall x :: x in r ==> x in keys)
  }

  /** Elements before key `i`. */
  ghost function Before(keys: seq<nat>, r: seq<int>, i: nat): nat {
    if i < |keys| then CountLess(r, keys[i]) else |r|
  }

  lemma CoversAt(keys: seq<nat>, r: seq<int>, j: nat)
    requires Covers(keys, r) && j < |r|
    ensures |keys| > 0 && keys[0] <= r[j] <= keys[|keys| - 1]
  {
    assert r[j] in r;
    var k :| 0 <= k < |keys| && keys[k] == r[j];
  }

  lemma NothingBefore(keys: seq<nat>, r: seq<int>)
    requires Covers(keys, r)
    ensures Before(keys, r, 0) == 0
  {
    if |keys| == 0 {
      if |r| > 0 { CoversAt(keys, r, 0); }
    } else {
      var low: int := keys[0];
      forall j | 0 <= j < |r| ensures low - 1 < r[j] { CoversAt(keys, r, j); }
      CountLeBelow(r, low - 1);
    }
  }

  /** Between two neighbouring keys nothing is counted. */
  lemma BeforeNext(keys: seq<nat>, r: seq<int>, i: nat)
    requires Covers(keys, r) && i < |keys|
    ensures Before(keys, r, i) + CountEq(r, keys[i]) == Before(keys, r, i + 1) == CountLe(r, keys[i])
  {
    CountLeStep(r, keys[i]);
    if i + 1 < |keys| {
      var next: int := keys[i + 1];
      forall j | 0 <= j < |r| ensures r[j] <= keys[i] || next - 1 < r[j] {
        assert r[j] in r;
        var k :| 0 <= k < |keys| && keys[k] == r[j];
      }
      CountGap(r, keys[i], next - 1);
    } else {
      forall j | 0 <= j < |r| ensures r[j] <= keys[i] { CoversAt(keys, r, j); }
      CountLeAll(r, keys[i]);
    }
  }

  /** Everything counted is one of the keys. */
  lemma SortedCovers(h: Counter, s: seq<int>)
    requires Counts(h, s)
    ensures Covers(Ids.Ascending(h.Keys), Rounded(s))
  {
    var r := Rounded(s);
    forall x | x in r ensures x in Ids.Ascending(h.Keys) {
      CountEqIn(r, x);
      var i :| 0 <= i < |r| && r[i] == x;
      assert At(h, x) == CountEq(r, x);
    }
  }

  lemma KeyCount(h: Counter, s: seq<int>, k: nat)
    requires Counts(h, s) && k in Ids.Ascending(h.Keys)
    ensures k in h && h[k] == CountEq(Rounded(s), k)
  {
    assert At(h, k) == CountEq(Rounded(s), k);
  }

  /** `sum(histogram.values())`. */
  method SumValues(h: Counter, ghost s: seq<int>) returns (total: nat)
    requires Counts(h, s)
    ensures total == |s|
  {
    var keys := Ids.Ascending(h.Keys);
    ghost var r := Rounded(s);
    total := 0;
    SortedCovers(h, s);
    NothingBefore(keys, r);
    for i := 0 to |keys|
      invariant total == Before(keys, r, i)
    {
      KeyCount(h, s, keys[i]);
      BeforeNext(keys, r, i);
      total := total + h[keys[i]];
    }
  }

  // ------------------------------------------------------------- percentiles

  datatype Answer = NoSamples | Micros(value: nat) | Missing

  /** The answer is the round-up of the sample of rank `rank`, counting from 0. */
  ghost predicate Exact(s: seq<int>, rank: nat, r: Answer) {
    r.Micros? && forall v :: Ranked(s, rank + 1, v) ==> 0 <= v && r.value == RoundUp(v)
  }

  lemma KeyMonotone(s: seq<int>, v: int)
    requires LanStats.Durations(s) && 0 <= v
    ensures MonotoneAt(Key(), s, v)
  {
    forall i | 0 <= i < |s|
      ensures (s[i] <= v ==> Key()(s[i]) <= Key()(v)) && (v <= s[i] ==> Key()(v) <= Key()(s[i]))
    {
      if s[i] <= v { RoundUpMonotone(s[i], v); }
      if v <= s[i] { RoundUpMonotone(v, s[i]); }
    }
  }

  lemma RankedNonNegative(s: seq<int>, t: nat, v: int)
    requires LanStats.Durations(s) && Ranked(s, t, v)
    ensures 0 <= v
  {
    if v < 0 { CountLeBelow(s, v); }
  }

  lemma FoundKeyAt(s: seq<int>, rank: nat, k: nat, v: int)
    requires LanStats.Durations(s) && Ranked(Rounded(s), rank + 1, k) && Ranked(s, rank + 1, v)
    ensures 0 <= v && k == RoundUp(v)
  {
    RankedNonNegative(s, rank + 1, v);
    KeyMonotone(s, v);
    BucketOfRank(Key(), s, rank + 1, v, k);
  }

  /** The key whose cumulative counts enclose the rank is the answer. */
  lemma FoundKey(s: seq<int>, rank: nat, k: nat)
    requires LanStats.Durations(s) && CountLess(Rounded(s), k) <= rank < CountLe(Rounded(s), k)
    ensures Exact(s, rank, Micros(k))
  {
    var r := Micros(k);
    forall v | Ranked(s, rank + 1, v) ensures 0 <= v && r.value == RoundUp(v) {
      FoundKeyAt(s, rank, k, v);
    }
  }

  /** `quantile` of the controller: it counts the rank down. */
  method Quantile(h: Counter, percentile: nat, ghost s: seq<int>) returns (r: Answer)
    requires LanStats.Durations(s) && Counts(h, s)
    ensures r == NoSamples <==> |s| == 0 && percentile > 0
    ensures r == Missing <==> (|s| == 0 && percentile == 0) || (|s| > 0 && (|s| - 1) * percentile / 100 >= |s|)
    ensures r.Micros? ==> Exact(s, (|s| - 1) * percentile / 100, r)
  {
    var total := SumValues(h, s);
    var rank := (total - 1) * percentile / 100;
    EmptyRank(total, percentile);
    if rank < 0 { return NoSamples; }
    ghost var wanted := rank;
    var keys := Ids.Ascending(h.Keys);
    SortedCovers(h, s);
    NothingBefore(keys, Rounded(s));
    for i := 0 to |keys|
      invariant 0 <= rank == wanted - Before(keys, Rounded(s), i)
    {
      KeyCount(h, s, keys[i]);
      BeforeNext(keys, Rounded(s), i);
      if rank < h[keys[i]] {
        FoundKey(s, wanted, keys[i]);
        return Micros(keys[i]);
      }
      rank := rank - h[keys[i]];
    }
    return Missing;
  }

  lemma EmptyRank(total: nat, percentile: nat)
    ensures (total - 1) * percentile / 100 < 0 <==> total == 0 && percentile > 0
  {
    if total > 0 { Arith.MulNat(total - 1, percentile); }
  }

  /** `percentile` of the audit: it counts cumulatively up to a target. */
  method Percentile(h: Counter, percent: nat, ghost s: seq<int>) returns (r: Answer)
    requires LanStats.Durations(s) && Counts(h, s)
    ensures r == NoSamples <==> |s| == 0
    ensures r == Missing <==> |s| > 0 && (|s| - 1) * percent / 100 >= |s|
    ensures r.Micros? ==> Exact(s, (|s| - 1) * percent / 100, r)
  {
    var total := SumValues(h, s);
    if total == 0 { return NoSamples; }
    Arith.MulNat(total - 1, percent);
    var target := (total - 1) * percent / 100 + 1;
    var cumulative := 0;
    var keys := Ids.Ascending(h.Keys);
    SortedCovers(h, s);
    NothingBefore(keys, Rounded(s));
    for i := 0 to |keys|
      invariant cumulative == Before(keys, Rounded(s), i) < target
    {
      KeyCount(h, s, keys[i]);
      BeforeNext(keys, Rounded(s), i);
      cumulative := cumulative + h[keys[i]];
      if cumulative >= target {
        FoundKey(s, target - 1, keys[i]);
        return Micros(keys[i]);
      }
    }
    return Missing;
  }

  /** Up to the hundredth percentile a sample of that rank exists. */
  lemma RankInside(n: nat, percent: nat)
    requires n > 0 && percent <= 100
    ensures 0 <= (n - 1) * percent / 100 < n
  {
    Arith.MulMonotone(percent, 100, n - 1);
    assert 0 <= (n - 1) * percent <= (n - 1) * 100;
  }

  /** There is one exact answer. */
  lemma ExactUnique(s: seq<int>, rank: nat, a: Answer, b: Answer)
    requires LanStats.Durations(s) && rank < |s| && Exact(s, rank, a) && Exact(s, rank, b)
    ensures a == b
  {
    var bound := Largest(s);
    var v := RankedExists(s, rank + 1, bound);
    assert a.value == RoundUp(v) && b.value == RoundUp(v);
  }

  /** Both scans give one answer on every histogram, except for percentile 0 of no samples. */
  method ScansAgree(h: Counter, percent: nat, ghost s: seq<int>) returns (controller: Answer, audit: Answer)
    requires LanStats.Durations(s) && Counts(h, s)
    ensures controller == audit <==> !(|s| == 0 && percent == 0)
    ensures |s| == 0 ==> audit == NoSamples && controller == if percent == 0 then Missing else NoSamples
    ensures percent <= 100 && |s| > 0 ==> controller.Micros? && Exact(s, (|s| - 1) * percent / 100, controller)
  {
    controller := Quantile(h, percent, s);
    audit := Percentile(h, percent, s);
    if |s| > 0 && percent <= 100 { RankInside(|s|, percent); }
    if |s| > 0 && controller.Micros? { ExactUnique(s, (|s| - 1) * percent / 100, controller, audit); }
  }

  lemma Largest(s: seq<int>) returns (bound: nat)
    requires LanStats.Durations(s)
    ensures forall i :: 0 <= i < |s| ==> 0 <= s[i] <= bound
  {
    bound := 0;
    for i := 0 to |s|
      invariant forall j :: 0 <= j < i ==> 0 <= s[j] <= bound
    {
      if s[i] > bound { bound := s[i]; }
    }
  }

  // ---------------------------------------------------- against sorted samples

  /** Ranks are positions in the sorted list of all samples. */
  lemma SortedRank(s: seq<int>, sorted: seq<int>, rank: nat)
    requires LanStats.Durations(s) && Sorted(sorted) && multiset(sorted) == multiset(s) && rank < |s|
    ensures |sorted| == |s| && Ranked(s, rank + 1, sorted[rank])
  {
    assert |multiset(sorted)| == |multiset(s)|;
    forall i | 0 <= i < |sorted| ensures -1 < sorted[i] { assert sorted[i] in multiset(s); }
    var v := sorted[rank];
    SortedRanked(sorted, rank + 1, v);
    if v >= 1 { CountLePermutation(s, sorted, -1, v - 1); } else { CountLeBelow(s, v - 1); }
    CountLePermutation(s, sorted, -1, v);
  }

  lemma ExactSorted(s: seq<int>, sorted: seq<int>, rank: nat, r: Answer)
    requires LanStats.Durations(s) && Sorted(sorted) && multiset(sorted) == multiset(s) && rank < |s|
    requires Exact(s, rank, r)
    ensures |sorted| == |s| && 0 <= sorted[rank] && r == Micros(RoundUp(sorted[rank]))
    ensures 100 * (r.value - LanRounding.Micros(sorted[rank])) <= LanRounding.Micros(sorted[rank])
  {
    SortedRank(s, sorted, rank);
    RankedNonNegative(s, rank + 1, sorted[rank]);
    RoundUpError(sorted[rank]);
  }

  /** One histogram per client process. */
  method BuildAll(parts: seq<seq<int>>) returns (shards: seq<Counter>)
    requires forall i :: 0 <= i < |parts| ==> LanStats.Durations(parts[i])
    ensures |shards| == |parts| && forall i :: 0 <= i < |parts| ==> Counts(shards[i], parts[i])
  {
    shards := [];
    for i := 0 to |parts|
      invariant |shards| == i && forall j :: 0 <= j < i ==> Counts(shards[j], parts[j])
    {
      var shard := Build(parts[i]);
      shards := shards + [shard];
    }
  }

  /**
   End to end: every process builds its own histogram, the controller merges them, and the
   answer is the round-up of the sample at position `(n - 1) * percent / 100` of all samples in
   order, so it lies less than one percent above that sample's microseconds.
   */
  method MergedPercentile(parts: seq<seq<int>>, percent: nat, ghost sorted: seq<int>)
    returns (controller: Answer, audit: Answer)
    requires forall i :: 0 <= i < |parts| ==> LanStats.Durations(parts[i])
    requires Sorted(sorted) && multiset(sorted) == multiset(Flatten(parts)) && 1 <= percent <= 100
    ensures controller == audit
    ensures |sorted| == 0 ==> controller == NoSamples
    ensures |sorted| > 0 ==>
      var rank := (|sorted| - 1) * percent / 100;
      && 0 <= rank < |sorted| && 0 <= sorted[rank]
      && controller == Micros(RoundUp(sorted[rank]))
      && 100 * (controller.value - LanRounding.Micros(sorted[rank])) <= LanRounding.Micros(sorted[rank])
  {
    var shards := BuildAll(parts);
    var h := MergeAll(shards, parts);
    ghost var all := Flatten(parts);
    FlattenDurations(parts);
    controller, audit := ScansAgree(h, percent, all);
    assert |sorted| == |multiset(sorted)| == |multiset(all)| == |all|;
    if |all| > 0 {
      RankInside(|all|, percent);
      ExactSorted(all, sorted, (|all| - 1) * percent / 100, controller);
    }
  }

  lemma {:induction false} FlattenDurations(parts: seq<seq<int>>)
    requires forall i :: 0 <= i < |parts| ==> LanStats.Durations(parts[i])
    ensures LanStats.Durations(Flatten(parts))
  {
    if parts != [] { FlattenDurations(parts[..|parts| - 1]); }
  }
}
