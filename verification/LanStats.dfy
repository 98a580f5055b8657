/** Outcome counters of the LAN client: recording an outcome and merging counters. */
module LanStats {
  import opened Basics
  import opened Tally

  datatype Item = Item(attempted: nat, succeeded: nat, failed: nat, kinds: Counts)

  /** The counters with the latencies of a measured phase. */
  datatype Stats = Stats(item: Item, samples: seq<int>, failures: seq<int>)

  const ZERO: Stats := Stats(Item(0, 0, 0, map[]), [], [])

  /** One outcome: no error, or an error of some kind. */
  function RecordedItem(s: Item, error: Option<string>): Item {
    match error
    case None => s.(attempted := s.attempted + 1, succeeded := s.succeeded + 1)
    case Some(kind) => s.(attempted := s.attempted + 1, failed := s.failed + 1, kinds := Add(s.kinds, kind, 1))
  }

  function Recorded(s: Stats, error: Option<string>, elapsed: nat, measured: bool): Stats {
    Stats(RecordedItem(s.item, error),
          if measured && error.None? then s.samples + [elapsed] else s.samples,
          if measured && error.Some? then s.failures + [elapsed] else s.failures)
  }

  function MergedItem(a: Item, b: Item): Item {
    Item(a.attempted + b.attempted, a.succeeded + b.succeeded, a.failed + b.failed, Plus(a.kinds, b.kinds))
  }

  function Merged(a: Stats, b: Stats): Stats {
    Stats(MergedItem(a.item, b.item), a.samples + b.samples, a.failures + b.failures)
  }

  function MergeAll(list: seq<Stats>): Stats {
    if list == [] then ZERO else Merged(MergeAll(list[..|list| - 1]), list[|list| - 1])
  }

  // ---------------------------------------------------------------- the objects

  class StatsCell {
    var attempted: nat
    var succeeded: nat
    var failed: nat
    var kinds: Counts
    var samples: seq<int>
    var failures: seq<int>

    ghost function Value(): Stats
      reads this
    {
      Stats(Item(attempted, succeeded, failed, kinds), samples, failures)
    }

    constructor ()
      ensures Value() == ZERO
    {
      attempted, succeeded, failed, kinds, samples, failures := 0, 0, 0, map[], [], [];
    }

    /** The counting part of `record`; the result says whether a row has to be logged. */
    method Record(error: Option<string>, elapsed: nat, measured: bool) returns (row: Option<string>)
      modifies this
      ensures Value() == Recorded(old(Value()), error, elapsed, measured) && row == error
    {
      attempted := attempted + 1;
      if error.None? {
        succeeded := succeeded + 1;
        if measured { samples := samples + [elapsed]; }
        return None;
      }
      failed := failed + 1;
      kinds := Add(kinds, error.value, 1);
      if measured { failures := failures + [elapsed]; }
      return error;
    }

    method Merge(other: Stats)
      modifies this
      ensures Value() == Merged(old(Value()), other)
    {
      attempted := attempted + other.item.attempted;
      succeeded := succeeded + other.item.succeeded;
      failed := failed + other.item.failed;
      kinds := AddAll(kinds, other.item.kinds);
      samples := samples + other.samples;
      failures := failures + other.failures;
    }
  }

  /** The merging loop over all peers or slots. */
  method MergeList(list: seq<Stats>) returns (total: Stats)
    ensures total == MergeAll(list)
  {
    var cell := new StatsCell();
    for i := 0 to |list|
      invariant cell.Value() == MergeAll(list[..i]) && fresh(cell)
    {
      cell.Merge(list[i]);
      assert list[..i + 1][..i] == list[..i];
    }
    assert list[..|list|] == list;
    total := Stats(Item(cell.attempted, cell.succeeded, cell.failed, cell.kinds), cell.samples, cell.failures);
  }

  // ------------------------------------------------------------------ consistency

  /** Every attempt succeeded or failed, and every failure has a kind. */
  ghost predicate ItemOk(s: Item) { s.attempted == s.succeeded + s.failed && Total(s.kinds) == s.failed }

  /** Latencies come from a monotonic clock. */
  ghost predicate Durations(samples: seq<int>) { forall i :: 0 <= i < |samples| ==> 0 <= samples[i] }

  ghost predicate StatsOk(s: Stats, measured: bool) {
    && ItemOk(s.item) && Durations(s.samples) && Durations(s.failures)
    && |s.samples| == (if measured then s.item.succeeded else 0)
    && |s.failures| == (if measured then s.item.failed else 0)
  }

  lemma RecordedOk(s: Stats, error: Option<string>, elapsed: nat, measured: bool)
    requires StatsOk(s, measured)
    ensures StatsOk(Recorded(s, error, elapsed, measured), measured)
  {
    if error.Some? { TotalAdd(s.item.kinds, error.value, 1); }
  }

  lemma MergedOk(a: Stats, b: Stats, measured: bool)
    requires StatsOk(a, measured) && StatsOk(b, measured)
    ensures StatsOk(Merged(a, b), measured)
  {
    TotalPlus(a.item.kinds, b.item.kinds);
  }

  lemma {:induction false} MergeAllOk(list: seq<Stats>, measured: bool)
    requires forall i :: 0 <= i < |list| ==> StatsOk(list[i], measured)
    ensures StatsOk(MergeAll(list), measured)
  {
    if list != [] {
      MergeAllOk(list[..|list| - 1], measured);
      MergedOk(MergeAll(list[..|list| - 1]), list[|list| - 1], measured);
    }
  }

  /** How much one entry contributes to the merged counters. */
  lemma {:induction false} MergeAllUpdate(list: seq<Stats>, j: nat, s: Stats, kind: string)
    requires j < |list|
    ensures var a, b := MergeAll(list).item, MergeAll(list[j := s]).item;
            && b.attempted + list[j].item.attempted == a.attempted + s.item.attempted
            && b.succeeded + list[j].item.succeeded == a.succeeded + s.item.succeeded
            && b.failed + list[j].item.failed == a.failed + s.item.failed
            && Get(b.kinds, kind) + Get(list[j].item.kinds, kind) == Get(a.kinds, kind) + Get(s.item.kinds, kind)
  {
    var n := |list| - 1;
    if j < n {
      assert list[j := s][..n] == list[..n][j := s];
      MergeAllUpdate(list[..n], j, s, kind);
    } else {
      assert list[j := s][..n] == list[..n];
    }
  }

  /** Counters before anything was recorded. */
  function Zeros(n: nat): (list: seq<Stats>)
    ensures |list| == n
  {
    seq(n, _ => ZERO)
  }

  ghost predicate Unused(s: Stats, measured: bool) { StatsOk(s, measured) && s.item.attempted == 0 }

  ghost predicate NoKind(kinds: Counts, kind: string) { Get(kinds, kind) == 0 }

  ghost predicate NoCounts(s: Item) {
    s.attempted == 0 && s.succeeded == 0 && s.failed == 0 && forall kind :: NoKind(s.kinds, kind)
  }

  lemma ZeroUnused(s: Stats, measured: bool)
    requires s == ZERO
    ensures Unused(s, measured)
  {
    TotalNone(s.item.kinds);
  }

  lemma NoCountsMerged(a: Stats, b: Stats)
    requires NoCounts(a.item) && NoCounts(b.item)
    ensures NoCounts(Merged(a, b).item)
  {
    var kinds := Merged(a, b).item.kinds;
    forall kind ensures NoKind(kinds, kind) {
      assert NoKind(a.item.kinds, kind) && NoKind(b.item.kinds, kind);
    }
  }

  lemma ZerosUnused(n: nat, i: nat, measured: bool)
    requires i < n
    ensures Unused(Zeros(n)[i], measured)
  {
    ZeroUnused(Zeros(n)[i], measured);
  }

  lemma ZeroNoCounts(s: Stats)
    requires s == ZERO
    ensures NoCounts(s.item)
  {
  }

  lemma {:induction false} MergeNoCounts(list: seq<Stats>)
    requires forall i :: 0 <= i < |list| ==> NoCounts(list[i].item)
    ensures NoCounts(MergeAll(list).item)
  {
    if list == [] {
      ZeroNoCounts(MergeAll(list));
    } else {
      MergeNoCounts(list[..|list| - 1]);
      NoCountsMerged(MergeAll(list[..|list| - 1]), list[|list| - 1]);
    }
  }

  /** A list in which nothing was counted. */
  ghost predicate Blank(list: seq<Stats>, measured: bool) {
    (forall i :: UnusedAt(list, i, measured)) && NoCounts(MergeAll(list).item)
  }

  ghost predicate UnusedAt(list: seq<Stats>, i: int, measured: bool) { 0 <= i < |list| ==> Unused(list[i], measured) }

  lemma ZeroListMerged(list: seq<Stats>)
    requires forall i :: 0 <= i < |list| ==> list[i] == ZERO
    ensures NoCounts(MergeAll(list).item)
  {
    forall i | 0 <= i < |list| ensures NoCounts(list[i].item) { ZeroNoCounts(list[i]); }
    MergeNoCounts(list);
  }

  lemma ZerosMerged(n: nat)
    ensures NoCounts(MergeAll(Zeros(n)).item)
  {
    ZeroListMerged(Zeros(n));
  }

  lemma ZerosBlank(n: nat, measured: bool)
    ensures Blank(Zeros(n), measured)
  {
    var list := Zeros(n);
    forall i ensures UnusedAt(list, i, measured) {
      if 0 <= i < n { ZerosUnused(n, i, measured); }
    }
    ZerosMerged(n);
  }

  lemma {:induction false} MergeAllAtMost(list: seq<Stats>)
    requires forall i :: 0 <= i < |list| ==> list[i].item.attempted <= 1
    ensures MergeAll(list).item.attempted <= |list|
  {
    if list != [] { MergeAllAtMost(list[..|list| - 1]); }
  }
}
