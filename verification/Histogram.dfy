/**
 The latency histogram of bench/load/main.go: 64 lazily allocated groups of 128 counters.
 The object is specified by the list of samples it stands for.
 */
module Histogram {
  import opened LogLinear
  import opened OrderStatistics

  const GROUPS: nat := 64
  const WIDTH: nat := 128

  datatype Quantile = Value(ns: nat) | Panic

  // ------------------------------------------------- what a sample list means

  ghost predicate Samples(s: seq<int>) {
    forall i :: 0 <= i < |s| ==> 0 <= s[i] < WORD
  }

  ghost function IndexKey(): int -> int {
    (x: int) => if x >= 0 then Index(x) else 0
  }

  /** How many samples fall into bucket `b`. */
  ghost function InBucket(s: seq<int>, b: int): nat {
    CountEq(Keys(IndexKey(), s), b)
  }

  ghost function Sum(s: seq<int>): int {
    if s == [] then 0 else s[0] + Sum(s[1..])
  }

  ghost function Max(s: seq<int>): (m: int)
    ensures 0 <= m
    ensures forall i :: 0 <= i < |s| ==> s[i] <= m
    ensures s != [] ==> m == 0 || m in s
  {
    if s == [] then 0 else var m := Max(s[1..]); if s[0] > m then s[0] else m
  }

  lemma {:induction false} SumAppend(s: seq<int>, t: seq<int>)
    ensures Sum(s + t) == Sum(s) + Sum(t)
  {
    if s == [] {
      assert s + t == t;
    } else {
      assert (s + t)[1..] == s[1..] + t;
      SumAppend(s[1..], t);
    }
  }

  lemma {:induction false} MaxAppend(s: seq<int>, t: seq<int>)
    ensures Max(s + t) == if Max(s) > Max(t) then Max(s) else Max(t)
  {
    if s == [] {
      assert s + t == t;
    } else {
      assert (s + t)[1..] == s[1..] + t;
      MaxAppend(s[1..], t);
    }
  }

  /** The running totals of a sample list: the sum wraps at 64 bits. */
  ghost predicate Totals(s: seq<int>, count: nat, sum: nat, max: nat) {
    Samples(s) && count == |s| && sum == Sum(s) % WORD && max == Max(s)
  }

  lemma TotalsMerge(s: seq<int>, count: nat, sum: nat, max: nat, t: seq<int>, count': nat, sum': nat, max': nat)
    requires Totals(s, count, sum, max) && Totals(t, count', sum', max')
    ensures Totals(s + t, count + count', (sum + sum') % WORD, if max' > max then max' else max)
  {
    SumAppend(s, t);
    MaxAppend(s, t);
    WrapAdd(Sum(s), Sum(t));
  }

  lemma TotalsOne(ns: nat)
    requires ns < WORD
    ensures Totals([ns], 1, ns, ns)
  {
    assert [ns as int][1..] == [];
  }

  lemma WrapAdd(a: int, b: int)
    ensures (a % WORD + b % WORD) % WORD == (a + b) % WORD
  {
  }

  lemma InBucketAppend(s: seq<int>, t: seq<int>, b: int)
    ensures InBucket(s + t, b) == InBucket(s, b) + InBucket(t, b)
  {
    KeysAppend(IndexKey(), s, t);
    CountAppend(Keys(IndexKey(), s), Keys(IndexKey(), t), b);
  }

  lemma InBucketOne(ns: nat, b: int)
    ensures InBucket([ns], b) == if b == Index(ns) then 1 else 0
  {
    var keys := Keys(IndexKey(), [ns]);
    assert keys[0] == Index(ns) && keys[1..] == [];
    assert CountEq(keys, b) == (if keys[0] == b then 1 else 0) + CountEq(keys[1..], b);
  }

  /** How many samples belong to cell `o` of group `g`. */
  ghost function At(s: seq<int>, g: nat, o: nat): nat {
    InBucket(s, g * WIDTH + o)
  }

  lemma AtRecord(s: seq<int>, ns: nat, g: nat, o: nat)
    requires o < WIDTH
    ensures At(s + [ns], g, o) == At(s, g, o) + if g == Index(ns) / WIDTH && o == Index(ns) % WIDTH then 1 else 0
  {
    InBucketAppend(s, [ns], g * WIDTH + o);
    InBucketOne(ns, g * WIDTH + o);
  }

  lemma AtMerge(s: seq<int>, t: seq<int>, g: nat, o: nat)
    ensures At(s + t, g, o) == At(s, g, o) + At(t, g, o)
  {
    InBucketAppend(s, t, g * WIDTH + o);
  }

  /** What the scan must return for rank `target`: a bound of the ranked sample's bucket. */
  ghost predicate Reported(s: seq<int>, target: nat, r: nat) {
    exists v :: 0 <= v < WORD && Ranked(s, target, v) && r == Least(Upper(Index(v)), Max(s))
  }

  function Least(a: int, b: int): int { if a < b then a else b }

  /** The bucket at which the cumulative count first reaches the rank is the ranked sample's. */
  lemma FoundBucket(s: seq<int>, target: nat, b: nat) returns (v: nat)
    requires Samples(s) && 1 <= target <= |s|
    requires Ranked(Keys(IndexKey(), s), target, b)
    ensures v < WORD && Ranked(s, target, v) && b == Index(v)
  {
    v := RankedExists(s, target, WORD - 1);
    assert MonotoneAt(IndexKey(), s, v) by {
      forall i | 0 <= i < |s|
        ensures (s[i] <= v ==> IndexKey()(s[i]) <= IndexKey()(v)) && (v <= s[i] ==> IndexKey()(v) <= IndexKey()(s[i]))
      {
        if s[i] <= v { IndexMonotone(s[i], v); }
        if v <= s[i] { IndexMonotone(v, s[i]); }
      }
    }
    BucketOfRank(IndexKey(), s, target, v, b);
  }

  lemma NonNegativeKeys(s: seq<int>)
    requires Samples(s)
    ensures CountLe(Keys(IndexKey(), s), -1) == 0
    ensures CountLe(Keys(IndexKey(), s), GROUPS * WIDTH - 1) == |s|
  {
    forall i | 0 <= i < |s|
      ensures 0 <= IndexKey()(s[i]) <= GROUPS * WIDTH - 1
    {
      IndexInRange(s[i]);
    }
    CountLeBelow(Keys(IndexKey(), s), -1);
    CountLeAll(Keys(IndexKey(), s), GROUPS * WIDTH - 1);
  }

  // -------------------------------------------------------------- the object

  class Histogram {
    const buckets: array<array?<nat>>
    var count: nat
    var sum: nat
    var max: nat
    ghost var samples: seq<int>

    ghost function Cells(): set<object>
      reads buckets
    {
      set g | 0 <= g < buckets.Length && buckets[g] != null :: buckets[g]
    }

    ghost predicate Shape()
      reads buckets
    {
      && buckets.Length == GROUPS
      && (forall g :: 0 <= g < GROUPS && buckets[g] != null ==> buckets[g].Length == WIDTH)
      && (forall g, h :: 0 <= g < h < GROUPS && buckets[g] != null ==> buckets[g] != buckets[h])
    }

    /** Bucket `o` of group `g`; a group that was never allocated counts as zeros. */
    ghost function Cell(g: nat, o: nat): nat
      reads buckets, if g < buckets.Length && buckets[g] != null then {buckets[g]} else {}
      requires Shape() && g < GROUPS && o < WIDTH
    {
      if buckets[g] == null then 0 else buckets[g][o]
    }

    ghost predicate Valid()
      reads this, buckets, Cells()
    {
      && Shape()
      && Totals(samples, count, sum, max)
      && Counts(samples)
    }

    /** Every cell holds the number of samples of `s` that belong to it. */
    ghost predicate Counts(s: seq<int>)
      reads buckets, Cells()
      requires Shape()
    {
      forall g, o :: 0 <= g < GROUPS && 0 <= o < WIDTH ==> Cell(g, o) == At(s, g, o)
    }

    constructor ()
      ensures Valid() && samples == [] && fresh(buckets) && Cells() == {}
    {
      buckets := new array?<nat>[GROUPS](_ => null);
      count, sum, max := 0, 0, 0;
      samples := [];
    }

    /** Make sure group `g` exists; what every cell stands for does not change. */
    method Allocate(g: nat)
      requires Shape() && g < GROUPS
      modifies buckets
      ensures Shape() && buckets[g] != null
      ensures fresh(Cells() - old(Cells()))
      ensures forall h, o :: 0 <= h < GROUPS && 0 <= o < WIDTH ==> Cell(h, o) == old(Cell(h, o))
    {
      if buckets[g] == null {
        buckets[g] := new nat[WIDTH](_ => 0);
      }
    }

    /** Add `n` to one cell of an allocated group. */
    method Add(g: nat, o: nat, n: nat)
      requires Shape() && g < GROUPS && o < WIDTH && buckets[g] != null
      modifies buckets[g]
      ensures Shape()
      ensures forall h, p :: 0 <= h < GROUPS && 0 <= p < WIDTH ==>
                Cell(h, p) == old(Cell(h, p)) + if h == g && p == o then n else 0
    {
      buckets[g][o] := buckets[g][o] + n;
    }

    method Record(ns: nat)
      requires Valid() && ns < WORD
      modifies this, buckets, Cells()
      ensures Valid() && samples == old(samples) + [ns]
      ensures fresh(Cells() - old(Cells()))
    {
      RecordCell(ns, samples);
      TotalsOne(ns);
      AddTotals(1, ns, ns, [ns]);
    }

    /** Add another list's running totals to this object's. */
    method AddTotals(n: nat, s: nat, m: nat, ghost t: seq<int>)
      requires Totals(samples, count, sum, max) && Totals(t, n, s, m)
      modifies this`count, this`sum, this`max, this`samples
      ensures samples == old(samples) + t && Totals(samples, count, sum, max)
    {
      TotalsMerge(samples, count, sum, max, t, n, s, m);
      count := count + n;
      sum := (sum + s) % WORD;
      max := if m > max then m else max;
      samples := samples + t;
    }

    method RecordCell(ns: nat, ghost s: seq<int>)
      requires Shape() && Counts(s) && ns < WORD
      modifies buckets, Cells()
      ensures Shape() && Counts(s + [ns])
      ensures fresh(Cells() - old(Cells()))
    {
      var shift := if Len(ns) > 8 then Len(ns) - 8 else 0;
      var index := shift * 128 + ns / Pow2(shift);
      IndexInRange(ns);
      var group := index / WIDTH;
      Allocate(group);
      Add(group, index % WIDTH, 1);
      forall g, o | 0 <= g < GROUPS && 0 <= o < WIDTH
        ensures Cell(g, o) == At(s + [ns], g, o)
      {
        AtRecord(s, ns, g, o);
      }
    }

    /** Two objects share no storage, or they are one object. */
    ghost predicate Separate(other: Histogram)
      reads buckets, other.buckets
    {
      this == other || (buckets != other.buckets && Cells() !! other.Cells())
    }

    method Merge(other: Histogram)
      requires Valid() && other.Valid() && Separate(other)
      modifies this, buckets, Cells()
      ensures Valid() && samples == old(samples) + old(other.samples)
      ensures fresh(Cells() - old(Cells()))
    {
      var n, sum', max' := other.count, other.sum, other.max;
      ghost var before, more := samples, other.samples;
      assert Totals(more, n, sum', max');
      MergeCounts(other, before, more);
      assert Totals(samples, count, sum, max);
      AddTotals(n, sum', max', more);
      assert Counts(before + more);
    }

    method MergeCounts(other: Histogram, ghost s: seq<int>, ghost t: seq<int>)
      requires Shape() && other.Shape() && Counts(s) && other.Counts(t) && Separate(other)
      modifies buckets, Cells()
      ensures Shape() && fresh(Cells() - old(Cells())) && Counts(s + t)
    {
      MergeCells(other);
      forall g, o | 0 <= g < GROUPS && 0 <= o < WIDTH
        ensures Cell(g, o) == At(s + t, g, o)
      {
        assert old(other.Cell(g, o)) == At(t, g, o);
        AtMerge(s, t, g, o);
      }
    }

    method MergeCells(other: Histogram)
      requires Shape() && other.Shape() && Separate(other)
      modifies buckets, Cells()
      ensures Shape() && fresh(Cells() - old(Cells()))
      ensures forall g, o :: 0 <= g < GROUPS && 0 <= o < WIDTH ==> Cell(g, o) == old(Cell(g, o)) + old(other.Cell(g, o))
    {
      for group := 0 to GROUPS
        invariant Shape() && other.Shape() && Separate(other) && fresh(Cells() - old(Cells()))
        invariant forall g, o :: 0 <= g < GROUPS && 0 <= o < WIDTH ==>
                    Cell(g, o) == old(Cell(g, o)) + if g < group then old(other.Cell(g, o)) else 0
        invariant forall g, o :: group <= g < GROUPS && 0 <= o < WIDTH ==> other.Cell(g, o) == old(other.Cell(g, o))
      {
        if other.buckets[group] != null {
          MergeGroup(other, group);
        }
      }
    }

    method MergeGroup(other: Histogram, group: nat)
      requires Shape() && other.Shape() && Separate(other) && group < GROUPS && other.buckets[group] != null
      modifies buckets, Cells()
      ensures Shape() && other.Shape() && Separate(other) && fresh(Cells() - old(Cells()))
      ensures forall g, o :: 0 <= g < GROUPS && 0 <= o < WIDTH ==>
                Cell(g, o) == old(Cell(g, o)) + if g == group then old(other.Cell(g, o)) else 0
      ensures this != other ==> forall g, o :: 0 <= g < GROUPS && 0 <= o < WIDTH ==>
                other.Cell(g, o) == old(other.Cell(g, o))
    {
      Allocate(group);
      for offset := 0 to WIDTH
        invariant Shape() && other.Shape() && Separate(other) && fresh(Cells() - old(Cells())) && buckets[group] != null
        invariant other.buckets[group] != null
        invariant forall g, o :: 0 <= g < GROUPS && 0 <= o < WIDTH ==>
                    Cell(g, o) == old(Cell(g, o)) + if g == group && o < offset then old(other.Cell(g, o)) else 0
        invariant this != other ==> forall g, o :: 0 <= g < GROUPS && 0 <= o < WIDTH ==>
                    other.Cell(g, o) == old(other.Cell(g, o))
      {
        Add(group, offset, other.buckets[group][offset]);
      }
    }

    /** The bound reported for the bucket where the scan stops. */
    method Report(index: nat, target: nat) returns (ns: nat)
      requires Valid() && 1 <= target <= count && Ranked(Keys(IndexKey(), samples), target, index)
      ensures Reported(samples, target, ns)
    {
      ghost var v := FoundBucket(samples, target, index);
      var upper := index;
      if index >= 128 {
        var shift := index / 128 - 1;
        upper := (129 + index % 128) * Pow2(shift) % WORD;
        upper := (upper + WORD - 1) % WORD;
      }
      ns := if upper < max then upper else max;
    }

    /** The inner loop: stop in the bucket where the cumulative count reaches the rank. */
    method ScanGroup(group: nat, target: nat, before: nat) returns (found: bool, offset: nat, cumulative: nat)
      requires Valid() && group < GROUPS && buckets[group] != null
      requires before == CountLe(Keys(IndexKey(), samples), group * WIDTH - 1) < target
      ensures found ==> offset < WIDTH && Ranked(Keys(IndexKey(), samples), target, group * WIDTH + offset)
      ensures !found ==> cumulative == CountLe(Keys(IndexKey(), samples), (group + 1) * WIDTH - 1) < target
    {
      ghost var keys := Keys(IndexKey(), samples);
      cumulative, offset := before, 0;
      while offset < WIDTH
        invariant offset <= WIDTH
        invariant cumulative == CountLe(keys, group * WIDTH + offset - 1) < target
      {
        assert Cell(group, offset) == At(samples, group, offset);
        CountLeStep(keys, group * WIDTH + offset);
        cumulative := cumulative + buckets[group][offset];
        if cumulative >= target { return true, offset, cumulative; }
        offset := offset + 1;
      }
      found := false;
    }

    /**
     The scan behind every reported quantile.  `target` is the rank the caller asks for; a rank
     beyond the recorded count is the only way to reach the panic.
     */
    method AtRank(target: nat) returns (q: Quantile)
      requires Valid()
      ensures target == 0 ==> q == Value(0)
      ensures target > count ==> q == Panic
      ensures 1 <= target <= count ==> q.Value? && Reported(samples, target, q.ns)
    {
      if target == 0 { return Value(0); }
      NonNegativeKeys(samples);
      var cumulative, group := 0, 0;
      while group < GROUPS
        invariant group <= GROUPS
        invariant cumulative == CountLe(Keys(IndexKey(), samples), group * WIDTH - 1) < target
      {
        if buckets[group] == null {
          EmptyGroup(group);
        } else {
          var found, offset;
          found, offset, cumulative := ScanGroup(group, target, cumulative);
          if found {
            var ns := Report(group * WIDTH + offset, target);
            return Value(ns);
          }
        }
        group := group + 1;
      }
      return Panic;
    }

    /** A group that was never allocated adds nothing to the cumulative count. */
    lemma EmptyGroup(group: nat)
      requires Valid() && group < GROUPS && buckets[group] == null
      ensures var keys := Keys(IndexKey(), samples);
              CountLe(keys, (group + 1) * WIDTH - 1) == CountLe(keys, group * WIDTH - 1)
    {
      var keys := Keys(IndexKey(), samples);
      for offset := 0 to WIDTH
        invariant CountLe(keys, group * WIDTH + offset - 1) == CountLe(keys, group * WIDTH - 1)
      {
        assert Cell(group, offset) == At(samples, group, offset);
        CountLeStep(keys, group * WIDTH + offset);
      }
    }
  }

  // --------------------------------------------------------------- guarantees

  lemma RankedBelowMax(s: seq<int>, target: nat, v: int)
    requires Ranked(s, target, v)
    ensures v <= Max(s)
  {
    if Max(s) < v {
      CountLeAll(s, v - 1);
      CountLeMonotone(s, v - 1, v);
    }
  }

  lemma ClampedBound(v: nat, max: int, r: int)
    requires v < WORD && v <= max && r == Least(Upper(Index(v)), max)
    ensures v <= r <= max && 128 * (r - v) <= v && (v < 256 ==> r == v)
  {
    UpperBound(v);
  }

  /**
   The promised accuracy: for every sample list and rank, the reported value is at least the
   ranked sample, at most the maximum, above the sample by at most one part in 128, and exact for
   samples below 256 ns.
   */
  lemma QuantileAccuracy(s: seq<int>, target: nat, r: nat, v: int)
    requires Samples(s) && Reported(s, target, r) && Ranked(s, target, v)
    ensures 0 <= v <= r <= Max(s)
    ensures 128 * (r - v) <= v
    ensures v < 256 ==> r == v
  {
    var w :| 0 <= w < WORD && Ranked(s, target, w) && r == Least(Upper(Index(w)), Max(s));
    RankedUnique(s, target, v, w);
    RankedBelowMax(s, target, w);
    ClampedBound(w, Max(s), r);
  }

  /** Ranks have exactly one reported value. */
  lemma ReportedUnique(s: seq<int>, target: nat, r: nat, r': nat)
    requires Reported(s, target, r) && Reported(s, target, r')
    ensures r == r'
  {
    var v :| 0 <= v < WORD && Ranked(s, target, v) && r == Least(Upper(Index(v)), Max(s));
    var w :| 0 <= w < WORD && Ranked(s, target, w) && r' == Least(Upper(Index(w)), Max(s));
    RankedUnique(s, target, v, w);
  }

  lemma CancelOne(a: multiset<int>, b: multiset<int>, c: multiset<int>, x: int)
    requires multiset{x} + a == b + (multiset{x} + c)
    ensures a == b + c
  {
    assert a == (multiset{x} + a) - multiset{x};
    assert b + c == (b + (multiset{x} + c)) - multiset{x};
  }

  /** Where the first sample of one list sits in another order of the same list. */
  lemma FindFirst(s: seq<int>, t: seq<int>) returns (i: nat)
    requires multiset(s) == multiset(t) && s != []
    ensures i < |t| && t == t[..i] + ([s[0]] + t[i + 1..])
    ensures multiset(s[1..]) == multiset(t[..i] + t[i + 1..])
  {
    assert s[0] in multiset(t);
    i :| 0 <= i < |t| && t[i] == s[0];
    var head, tail := t[..i], t[i + 1..];
    assert t == head + ([s[0]] + tail);
    assert s == [s[0]] + s[1..];
    CancelOne(multiset(s[1..]), multiset(head), multiset(tail), s[0]);
  }

  /** Two lists the object cannot tell apart at bucket and threshold `b`. */
  ghost predicate Alike(s: seq<int>, t: seq<int>, b: int) {
    InBucket(s, b) == InBucket(t, b) && CountLe(s, b) == CountLe(t, b) && |s| == |t| && Sum(s) == Sum(t)
    && Max(s) == Max(t)
  }

  lemma MaxInsert(x: int, s: seq<int>, head: seq<int>, tail: seq<int>)
    requires Max(s) == Max(head + tail)
    ensures Max([x] + s) == Max(head + ([x] + tail))
  {
    MaxAppend([x], s);
    MaxAppend(head, [x] + tail);
    MaxAppend([x], tail);
    MaxAppend(head, tail);
  }

  lemma SumInsert(x: int, s: seq<int>, head: seq<int>, tail: seq<int>)
    requires Sum(s) == Sum(head + tail)
    ensures Sum([x] + s) == Sum(head + ([x] + tail))
  {
    SumAppend([x], s);
    SumAppend(head, [x] + tail);
    SumAppend([x], tail);
    SumAppend(head, tail);
  }

  lemma CountInsert(x: int, s: seq<int>, head: seq<int>, tail: seq<int>, b: int)
    requires InBucket(s, b) == InBucket(head + tail, b) && CountLe(s, b) == CountLe(head + tail, b)
    ensures InBucket([x] + s, b) == InBucket(head + ([x] + tail), b)
    ensures CountLe([x] + s, b) == CountLe(head + ([x] + tail), b)
  {
    Additive([x], s, b);
    Additive(head, [x] + tail, b);
    Additive([x], tail, b);
    Additive(head, tail, b);
  }

  lemma AlikeInsert(x: int, s: seq<int>, head: seq<int>, tail: seq<int>, b: int)
    requires Alike(s, head + tail, b)
    ensures Alike([x] + s, head + ([x] + tail), b)
  {
    CountInsert(x, s, head, tail, b);
    SumInsert(x, s, head, tail);
    MaxInsert(x, s, head, tail);
  }

  /** Everything the object stores depends only on the multiset of samples. */
  lemma {:induction false} OrderIndependent(s: seq<int>, t: seq<int>, b: int)
    requires multiset(s) == multiset(t)
    ensures Alike(s, t, b)
    decreases |s|
  {
    if s == [] {
      assert |t| == |multiset(t)| == |multiset(s)|;
    } else {
      var i := FindFirst(s, t);
      OrderIndependent(s[1..], t[..i] + t[i + 1..], b);
      AlikeInsert(s[0], s[1..], t[..i], t[i + 1..], b);
      assert s == [s[0]] + s[1..];
    }
  }

  lemma Additive(s: seq<int>, t: seq<int>, b: int)
    ensures InBucket(s + t, b) == InBucket(s, b) + InBucket(t, b)
    ensures CountLe(s + t, b) == CountLe(s, b) + CountLe(t, b)
  {
    InBucketAppend(s, t, b);
    CountAppend(s, t, b);
  }

  /**
   Merging is a homomorphism: two histograms whose samples agree as multisets, however the
   samples were split between workers, ordered, recorded or merged, hold the same counters and
   report the same value for every rank.
   */
  lemma SameReports(a: Histogram, b: Histogram, target: nat, r: nat)
    requires a.Valid() && b.Valid() && multiset(a.samples) == multiset(b.samples)
    ensures a.count == b.count && a.sum == b.sum && a.max == b.max
    ensures forall g, o :: 0 <= g < GROUPS && 0 <= o < WIDTH ==> a.Cell(g, o) == b.Cell(g, o)
    ensures Reported(a.samples, target, r) <==> Reported(b.samples, target, r)
  {
    OrderIndependent(a.samples, b.samples, 0);
    forall g, o | 0 <= g < GROUPS && 0 <= o < WIDTH
      ensures a.Cell(g, o) == b.Cell(g, o)
    {
      SameCell(a, b, g, o);
    }
    ReportedTransfers(a.samples, b.samples, target, r);
    ReportedTransfers(b.samples, a.samples, target, r);
  }

  lemma SameCell(a: Histogram, b: Histogram, g: nat, o: nat)
    requires a.Shape() && b.Shape() && a.Counts(a.samples) && b.Counts(b.samples)
    requires multiset(a.samples) == multiset(b.samples) && g < GROUPS && o < WIDTH
    ensures a.Cell(g, o) == b.Cell(g, o)
  {
    OrderIndependent(a.samples, b.samples, g * WIDTH + o);
    assert a.Cell(g, o) == At(a.samples, g, o) && b.Cell(g, o) == At(b.samples, g, o);
  }

  lemma ReportedTransfers(s: seq<int>, t: seq<int>, target: nat, r: nat)
    requires multiset(s) == multiset(t)
    ensures Reported(s, target, r) ==> Reported(t, target, r)
  {
    if Reported(s, target, r) {
      var v :| 0 <= v < WORD && Ranked(s, target, v) && r == Least(Upper(Index(v)), Max(s));
      OrderIndependent(s, t, v);
      OrderIndependent(s, t, v - 1);
      assert Ranked(t, target, v);
    }
  }
}
