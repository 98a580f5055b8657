/**
 Order statistics of an unbounded list of samples by counting, and how they survive
 bucketing: scanning the cumulative counts of a monotone key finds the key of the
 ranked sample.
 */
module OrderStatistics {

  /** How many elements are at most `b`. */
  ghost function CountLe(s: seq<int>, b: int): (n: nat)
    ensures n <= |s|
  {
    if s == [] then 0 else (if s[0] <= b then 1 else 0) + CountLe(s[1..], b)
  }

  /** How many elements equal `b`. */
  ghost function CountEq(s: seq<int>, b: int): nat {
    if s == [] then 0 else (if s[0] == b then 1 else 0) + CountEq(s[1..], b)
  }

  /** `v` is the `t`-th smallest element, counting from 1. */
  ghost predicate Ranked(s: seq<int>, t: nat, v: int) {
    CountLe(s, v - 1) < t <= CountLe(s, v)
  }

  lemma {:induction false} CountLeStep(s: seq<int>, b: int)
    ensures CountLe(s, b) == CountLe(s, b - 1) + CountEq(s, b)
  {
    if s != [] { CountLeStep(s[1..], b); }
  }

  lemma {:induction false} CountLeMonotone(s: seq<int>, a: int, b: int)
    requires a <= b
    ensures CountLe(s, a) <= CountLe(s, b)
  {
    if s != [] { CountLeMonotone(s[1..], a, b); }
  }

  lemma {:induction false} CountAppend(s: seq<int>, t: seq<int>, b: int)
    ensures CountEq(s + t, b) == CountEq(s, b) + CountEq(t, b)
    ensures CountLe(s + t, b) == CountLe(s, b) + CountLe(t, b)
  {
    if s == [] {
      assert s + t == t;
    } else {
      assert (s + t)[1..] == s[1..] + t;
      CountAppend(s[1..], t, b);
    }
  }

  lemma {:induction false} CountEqMultiset(s: seq<int>, b: int)
    ensures CountEq(s, b) == multiset(s)[b]
  {
    if s != [] {
      assert s == [s[0]] + s[1..];
      CountEqMultiset(s[1..], b);
    }
  }

  lemma {:induction false} CountLeBelow(s: seq<int>, b: int)
    requires forall i :: 0 <= i < |s| ==> b < s[i]
    ensures CountLe(s, b) == 0
  {
    if s != [] { CountLeBelow(s[1..], b); }
  }

  lemma {:induction false} CountLeAll(s: seq<int>, b: int)
    requires forall i :: 0 <= i < |s| ==> s[i] <= b
    ensures CountLe(s, b) == |s|
  {
    if s != [] { CountLeAll(s[1..], b); }
  }

  /** Counts depend only on the multiset of samples, not on the order of arrival. */
  lemma {:induction false} CountLePermutation(s: seq<int>, t: seq<int>, low: int, b: int)
    requires multiset(s) == multiset(t) && low <= b
    requires forall i :: 0 <= i < |s| ==> low < s[i]
    requires forall i :: 0 <= i < |t| ==> low < t[i]
    ensures CountLe(s, b) == CountLe(t, b)
    decreases b - low
  {
    if low == b {
      CountLeBelow(s, b);
      CountLeBelow(t, b);
    } else {
      CountLePermutation(s, t, low, b - 1);
      CountLeStep(s, b);
      CountLeStep(t, b);
      CountEqMultiset(s, b);
      CountEqMultiset(t, b);
    }
  }

  lemma RankedUnique(s: seq<int>, t: nat, v: int, w: int)
    requires Ranked(s, t, v) && Ranked(s, t, w)
    ensures v == w
  {
    if v < w { CountLeMonotone(s, v, w - 1); }
    if w < v { CountLeMonotone(s, w, v - 1); }
  }

  /** Every rank from 1 to the number of samples is taken by a sample. */
  lemma RankedExists(s: seq<int>, t: nat, bound: nat) returns (v: nat)
    requires 1 <= t <= |s| && forall i :: 0 <= i < |s| ==> 0 <= s[i] <= bound
    ensures Ranked(s, t, v) && v <= bound
  {
    CountLeBelow(s, -1);
    CountLeAll(s, bound);
    v := 0;
    while CountLe(s, v) < t
      invariant CountLe(s, v - 1) < t && v <= bound
      decreases bound - v
    {
      if v == bound { return; }
      v := v + 1;
    }
  }

  ghost predicate Sorted(s: seq<int>) {
    forall i, j :: 0 <= i <= j < |s| ==> s[i] <= s[j]
  }

  lemma {:induction false} SortedCount(s: seq<int>, b: int, k: nat)
    requires Sorted(s) && k < |s|
    ensures s[k] <= b <==> k < CountLe(s, b)
  {
    if s[0] > b {
      CountLeBelow(s, b);
    } else if k > 0 {
      SortedCount(s[1..], b, k - 1);
    }
  }

  /** Ranks are positions in sorted order. */
  lemma SortedRanked(s: seq<int>, t: nat, v: int)
    requires Sorted(s) && 1 <= t <= |s|
    ensures Ranked(s, t, v) <==> v == s[t - 1]
  {
    SortedCount(s, v, t - 1);
    SortedCount(s, v - 1, t - 1);
  }

  // ------------------------------------------------------------ bucket keys

  ghost function Keys(f: int -> int, s: seq<int>): (r: seq<int>)
    ensures |r| == |s| && forall i :: 0 <= i < |s| ==> r[i] == f(s[i])
  {
    if s == [] then [] else [f(s[0])] + Keys(f, s[1..])
  }

  lemma KeysAppend(f: int -> int, s: seq<int>, t: seq<int>)
    ensures Keys(f, s + t) == Keys(f, s) + Keys(f, t)
  {
    assert forall i :: 0 <= i < |s + t| ==> Keys(f, s + t)[i] == (Keys(f, s) + Keys(f, t))[i];
  }

  ghost predicate MonotoneAt(f: int -> int, s: seq<int>, v: int) {
    forall i :: 0 <= i < |s| ==> (s[i] <= v ==> f(s[i]) <= f(v)) && (v <= s[i] ==> f(v) <= f(s[i]))
  }

  lemma {:induction false} KeyCounts(f: int -> int, s: seq<int>, v: int)
    requires MonotoneAt(f, s, v)
    ensures CountLe(s, v) <= CountLe(Keys(f, s), f(v))
    ensures CountLe(Keys(f, s), f(v) - 1) <= CountLe(s, v - 1)
  {
    if s != [] {
      assert Keys(f, s)[1..] == Keys(f, s[1..]);
      assert MonotoneAt(f, s[1..], v);
      KeyCounts(f, s[1..], v);
    }
  }

  /** Bucketing by a monotone key keeps ranks: the ranked key is the key of the ranked sample. */
  lemma BucketOfRank(f: int -> int, s: seq<int>, t: nat, v: int, b: int)
    requires MonotoneAt(f, s, v) && Ranked(s, t, v) && Ranked(Keys(f, s), t, b)
    ensures b == f(v)
  {
    KeyCounts(f, s, v);
    RankedUnique(Keys(f, s), t, b, f(v));
  }
}
