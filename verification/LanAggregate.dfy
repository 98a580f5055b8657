/** The controller's `aggregate`: it asserts that every client's report adds up and sums the reports. */
module LanAggregate {
  import opened Basics
  import opened Tally
  import opened LanStats
  import opened LanBooks
  import opened LanClient
  import opened LanRuns
  import LanPercentile
  import Arith
  import Ids

  type Counter = LanPercentile.Counter

  /** The result line of one client process. */
  datatype Shard = Shard(
    requested: nat, unattempted: int, established: nat, participating: nat, successful: nat, alive: nat,
    phases: seq<Item>, latency: Counter, failureLatency: Counter, logEntries: nat)

  /** `shard` is what a finished client writes. */
  ghost predicate Reports(c: Client, shard: Shard) {
    && |c.totals| == PHASES && |shard.phases| == PHASES
    && shard.requested == c.n && shard.unattempted == c.n - c.totals[0].item.attempted
    && shard.established == |c.open| && shard.participating == |c.took| && shard.successful == |c.served|
    && (exists alive :: alive <= c.open && |alive| == shard.alive)
    && (forall p :: 0 <= p < PHASES ==> shard.phases[p] == c.totals[p].item)
    && shard.logEntries == |c.books.log|
    && LanPercentile.Counts(shard.latency, c.totals[3].samples)
    && LanPercentile.Counts(shard.failureLatency, c.totals[3].failures)
  }

  /** Some interleaving of a client's goroutines led to its report. */
  ghost predicate Ran(c: Client) {
    exists n, streams, workers, steps :: RanBy(c, n, streams, workers, steps)
  }

  ghost predicate RanBy(c: Client, n: nat, streams: nat, workers: nat, steps: seq<Step>) {
    && streams >= 1 && Feasible(Init(n, streams, workers), steps)
    && Final(Init(n, streams, workers), steps) == c && c.stage == Reported
  }

  lemma RanFacts(c: Client)
    requires Ran(c)
    ensures Shape(c) && Accounted(c) && Populated(c)
  {
    var n, streams, workers, steps :| RanBy(c, n, streams, workers, steps);
    LanTheorem(n, streams, workers, steps);
  }

  /** The connection a log row names. */
  function RowConnection(streams: nat, row: Row): nat
    requires streams >= 1
  {
    if row.cell.phase <= 1 then row.cell.index else row.cell.index / streams
  }

  /** The stream slot it names; setup and holding have none. */
  function RowSlot(streams: nat, row: Row): int
    requires streams >= 1
  {
    if row.cell.phase <= 1 then -1 else row.cell.index % streams
  }

  lemma RowInside(c: Client, row: Row)
    requires Shape(c) && InBooks(c.books.results, row.cell)
    ensures row.cell.phase < PHASES && RowConnection(c.streams, row) < c.n && -1 <= RowSlot(c.streams, row) < c.streams
  {
    if row.cell.phase > 1 {
      Arith.MulNat(c.n, c.streams);
      Arith.DivRange(row.cell.index, c.streams, 0, c.n);
      Arith.DivMod(row.cell.index, c.streams);
    }
  }

  /** What the audit demands of the populations, after every interleaving. */
  lemma PopulationAudit(c: Client, shard: Shard)
    requires Ran(c) && Reports(c, shard)
    ensures shard.phases[0].attempted + shard.unattempted == shard.requested && shard.unattempted >= 0
    ensures shard.phases[0].succeeded == shard.established <= shard.requested
    ensures shard.successful <= shard.participating <= shard.established
    ensures shard.alive <= shard.established
  {
    RanFacts(c);
    var alive :| alive <= c.open && |alive| == shard.alive;
    Ids.SubsetSize(alive, c.open);
  }

  /** What it demands of every row of the log. */
  lemma RowAudit(c: Client, shard: Shard, row: Row)
    requires Ran(c) && Reports(c, shard) && row in c.books.log
    ensures c.streams >= 1 && row.cell.phase < PHASES
    ensures RowConnection(c.streams, row) < shard.requested && -1 <= RowSlot(c.streams, row) < c.streams
  {
    RanFacts(c);
    RowInside(c, row);
  }

  /** What it demands of the log as a whole: phase by phase and kind by kind it is what was reported. */
  lemma LogAudit(c: Client, shard: Shard, p: nat, kind: string)
    requires Ran(c) && Reports(c, shard) && p < PHASES
    ensures shard.phases[p].attempted == shard.phases[p].succeeded + shard.phases[p].failed
    ensures CountPhase(c.books.log, p) == shard.phases[p].failed
    ensures CountKind(c.books.log, p, kind) == Get(shard.phases[p].kinds, kind)
    ensures |c.books.log| == shard.logEntries
  {
    RanFacts(c);
    assert LoggedKind(c, p, kind) && StatsOk(c.totals[p], p == MEASUREMENT);
  }

  predicate WellFormed(shards: seq<Shard>) { forall i :: 0 <= i < |shards| ==> |shards[i].phases| == PHASES }

  function Column(shards: seq<Shard>, p: nat): (items: seq<Item>)
    requires WellFormed(shards) && p < PHASES
  {
    seq(|shards|, i requires 0 <= i < |shards| => shards[i].phases[p])
  }

  ghost function ItemSum(items: seq<Item>): Item {
    if items == [] then ZERO.item else MergedItem(ItemSum(items[..|items| - 1]), items[|items| - 1])
  }

  lemma {:induction false} ItemSumOk(items: seq<Item>)
    requires forall i :: 0 <= i < |items| ==> ItemOk(items[i])
    ensures ItemOk(ItemSum(items))
  {
    if items == [] {
      TotalNone(ItemSum(items).kinds);
    } else {
      ItemSumOk(items[..|items| - 1]);
      TotalPlus(ItemSum(items[..|items| - 1]).kinds, items[|items| - 1].kinds);
    }
  }

  /** One phase of all shards: the assertions on each and their sum. */
  method SumPhase(items: seq<Item>) returns (ok: bool, total: Item)
    ensures ok <==> forall i :: 0 <= i < |items| ==> ItemOk(items[i])
    ensures ok ==> total == ItemSum(items)
  {
    ok, total := true, Item(0, 0, 0, map[]);
    for i := 0 to |items|
      invariant ok && forall j :: 0 <= j < i ==> ItemOk(items[j])
      invariant total == ItemSum(items[..i])
    {
      var item := items[i];
      if item.attempted != item.succeeded + item.failed { return false, total; }
      var n := SumCounts(item.kinds);
      if n != item.failed { return false, total; }
      var kinds := AddAll(total.kinds, item.kinds);
      total := Item(total.attempted + item.attempted, total.succeeded + item.succeeded, total.failed + item.failed,
                    kinds);
      assert items[..i + 1][..i] == items[..i];
    }
    assert items[..|items|] == items;
  }

  ghost function Samples(clients: seq<Client>): seq<seq<int>>
    requires forall i :: 0 <= i < |clients| ==> |clients[i].totals| == PHASES
  {
    seq(|clients|, i requires 0 <= i < |clients| => clients[i].totals[3].samples)
  }

  ghost function FailureSamples(clients: seq<Client>): seq<seq<int>>
    requires forall i :: 0 <= i < |clients| ==> |clients[i].totals| == PHASES
  {
    seq(|clients|, i requires 0 <= i < |clients| => clients[i].totals[3].failures)
  }

  /** The assertions on the latency histograms, and their merge. */
  method MergeLatency(histograms: seq<Counter>, counts: seq<nat>, ghost parts: seq<seq<int>>)
    returns (ok: bool, merged: Counter)
    requires |histograms| == |counts| == |parts|
    requires forall i :: 0 <= i < |parts| ==> LanPercentile.Counts(histograms[i], parts[i])
    ensures ok <==> forall i :: 0 <= i < |parts| ==> |parts[i]| == counts[i]
    ensures ok ==> LanPercentile.Counts(merged, LanPercentile.Flatten(parts))
  {
    ok, merged := true, map[];
    for i := 0 to |histograms|
      invariant ok && forall j :: 0 <= j < i ==> |parts[j]| == counts[j]
    {
      var n := LanPercentile.SumValues(histograms[i], parts[i]);
      if n != counts[i] { return false, map[]; }
    }
    merged := LanPercentile.MergeAll(histograms, parts);
  }

  ghost function LogSum(shards: seq<Shard>): nat {
    if shards == [] then 0 else LogSum(shards[..|shards| - 1]) + shards[|shards| - 1].logEntries
  }

  ghost predicate LogMatches(shard: Shard) {
    && |shard.phases| == PHASES
    && shard.logEntries ==
         shard.phases[0].failed + shard.phases[1].failed + shard.phases[2].failed + shard.phases[3].failed
  }

  lemma ColumnFront(shards: seq<Shard>, p: nat)
    requires shards != [] && p < PHASES && WellFormed(shards)
    ensures var n := |shards| - 1;
            Column(shards, p)[..n] == Column(shards[..n], p) && Column(shards, p)[n] == shards[n].phases[p]
  {
  }

  /** If every shard's log matches its failures, so do the sums. */
  lemma {:induction false} LogSums(shards: seq<Shard>)
    requires WellFormed(shards) && forall i :: 0 <= i < |shards| ==> LogMatches(shards[i])
    ensures LogSum(shards) == ItemSum(Column(shards, 0)).failed + ItemSum(Column(shards, 1)).failed
                              + ItemSum(Column(shards, 2)).failed + ItemSum(Column(shards, 3)).failed
  {
    if shards != [] {
      var n := |shards| - 1;
      assert LogMatches(shards[n]);
      LogSums(shards[..n]);
      ColumnFront(shards, 0);
      ColumnFront(shards, 1);
      ColumnFront(shards, 2);
      ColumnFront(shards, 3);
    }
  }

  method SumLogs(shards: seq<Shard>) returns (n: nat)
    ensures n == LogSum(shards)
  {
    n := 0;
    for i := 0 to |shards|
      invariant n == LogSum(shards[..i])
    {
      n := n + shards[i].logEntries;
      assert shards[..i + 1][..i] == shards[..i];
    }
    assert shards[..|shards|] == shards;
  }

  datatype Summary = Summary(
    phases: seq<Item>, logEntries: nat,
    p50: LanPercentile.Answer, p99: LanPercentile.Answer, failureP99: LanPercentile.Answer)

  lemma ShardFacts(c: Client, shard: Shard)
    requires Ran(c) && Reports(c, shard)
    ensures LogMatches(shard) && (forall p :: 0 <= p < PHASES ==> ItemOk(shard.phases[p]))
    ensures |c.totals[3].samples| == shard.phases[3].succeeded && |c.totals[3].failures| == shard.phases[3].failed
    ensures Durations(c.totals[3].samples) && Durations(c.totals[3].failures)
  {
    RanFacts(c);
    assert StatsOk(c.totals[3], true);
    forall p | 0 <= p < PHASES ensures ItemOk(shard.phases[p]) { assert StatsOk(c.totals[p], p == MEASUREMENT); }
  }

  ghost predicate AllReport(clients: seq<Client>, shards: seq<Shard>) {
    && |shards| == |clients|
    && (forall i :: 0 <= i < |shards| ==> Ran(clients[i]) && Reports(clients[i], shards[i]))
    && WellFormed(shards)
    && (forall i :: 0 <= i < |clients| ==> |clients[i].totals| == PHASES)
  }

  /** `r` is the percentile of a list of samples. */
  ghost predicate PercentileOf(all: seq<int>, percent: nat, r: LanPercentile.Answer) {
    if all == [] then r == LanPercentile.NoSamples
    else 0 <= (|all| - 1) * percent && LanPercentile.Exact(all, (|all| - 1) * percent / 100, r)
  }

  method MergedQuantile(h: Counter, percent: nat, ghost all: seq<int>) returns (r: LanPercentile.Answer)
    requires Durations(all) && LanPercentile.Counts(h, all) && 1 <= percent <= 100
    ensures PercentileOf(all, percent, r)
  {
    r := LanPercentile.Quantile(h, percent, all);
    if |all| > 0 {
      Arith.MulNat(|all| - 1, percent);
      LanPercentile.RankInside(|all|, percent);
    }
  }

  ghost predicate PhaseConsistent(shards: seq<Shard>, p: nat)
    requires WellFormed(shards) && p < PHASES
  {
    forall i :: 0 <= i < |shards| ==> ItemOk(Column(shards, p)[i])
  }

  ghost function FailedSum(shards: seq<Shard>): nat
    requires WellFormed(shards)
  {
    ItemSum(Column(shards, 0)).failed + ItemSum(Column(shards, 1)).failed
    + ItemSum(Column(shards, 2)).failed + ItemSum(Column(shards, 3)).failed
  }

  /** The counting part: its assertions hold exactly when every phase of every shard and the log add up. */
  method SumPhases(shards: seq<Shard>) returns (ok: bool, phases: seq<Item>, logs: nat)
    requires WellFormed(shards)
    ensures ok <==> (forall p :: 0 <= p < PHASES ==> PhaseConsistent(shards, p)) && LogSum(shards) == FailedSum(shards)
    ensures ok ==> |phases| == PHASES && logs == LogSum(shards)
    ensures ok ==> forall p :: 0 <= p < PHASES ==> ItemOk(phases[p]) && phases[p] == ItemSum(Column(shards, p))
  {
    phases := [];
    for p := 0 to PHASES
      invariant |phases| == p
      invariant forall q :: 0 <= q < p ==>
                  PhaseConsistent(shards, q) && ItemOk(phases[q]) && phases[q] == ItemSum(Column(shards, q))
    {
      var good, total := SumPhase(Column(shards, p));
      if !good {
        assert !PhaseConsistent(shards, p);
        return false, [], 0;
      }
      ItemSumOk(Column(shards, p));
      phases := phases + [total];
    }
    logs := SumLogs(shards);
    ok := logs == phases[0].failed + phases[1].failed + phases[2].failed + phases[3].failed;
  }

  /**
   For the shards of any finished runs of the clients no assertion fires, the sums add up, and the
   percentiles are those of all samples of all clients.
   */
  method Aggregate(shards: seq<Shard>, ghost clients: seq<Client>) returns (ok: bool, summary: Summary)
    requires AllReport(clients, shards)
    ensures ok && |summary.phases| == PHASES
    ensures forall p :: 0 <= p < PHASES ==> ItemOk(summary.phases[p]) && summary.phases[p] == ItemSum(Column(shards, p))
    ensures summary.logEntries == LogSum(shards)
    ensures summary.logEntries ==
              summary.phases[0].failed + summary.phases[1].failed + summary.phases[2].failed + summary.phases[3].failed
    ensures PercentileOf(LanPercentile.Flatten(Samples(clients)), 50, summary.p50)
    ensures PercentileOf(LanPercentile.Flatten(Samples(clients)), 99, summary.p99)
    ensures PercentileOf(LanPercentile.Flatten(FailureSamples(clients)), 99, summary.failureP99)
  {
    forall i | 0 <= i < |shards|
      ensures LogMatches(shards[i]) && forall p :: 0 <= p < PHASES ==> ItemOk(shards[i].phases[p])
    {
      ShardFacts(clients[i], shards[i]);
    }
    LogSums(shards);
    assert forall p :: 0 <= p < PHASES ==> PhaseConsistent(shards, p);
    var good, phases, logs := SumPhases(shards);
    var good1, latency := SuccessLatency(shards, clients);
    var good2, failureLatency := FailureLatency(shards, clients);
    var p50 := MergedQuantile(latency, 50, LanPercentile.Flatten(Samples(clients)));
    var p99 := MergedQuantile(latency, 99, LanPercentile.Flatten(Samples(clients)));
    var failureP99 := MergedQuantile(failureLatency, 99, LanPercentile.Flatten(FailureSamples(clients)));
    ok, summary := good && good1 && good2, Summary(phases, logs, p50, p99, failureP99);
  }

  method SuccessLatency(shards: seq<Shard>, ghost clients: seq<Client>) returns (ok: bool, merged: Counter)
    requires AllReport(clients, shards)
    ensures ok && LanPercentile.Counts(merged, LanPercentile.Flatten(Samples(clients)))
    ensures Durations(LanPercentile.Flatten(Samples(clients)))
  {
    ghost var parts := Samples(clients);
    forall i | 0 <= i < |shards| ensures |parts[i]| == shards[i].phases[3].succeeded && Durations(parts[i]) {
      ShardFacts(clients[i], shards[i]);
    }
    var histograms := seq(|shards|, i requires 0 <= i < |shards| => shards[i].latency);
    var counts := seq(|shards|, i requires 0 <= i < |shards| => shards[i].phases[3].succeeded);
    ok, merged := MergeLatency(histograms, counts, parts);
    LanPercentile.FlattenDurations(parts);
  }

  method FailureLatency(shards: seq<Shard>, ghost clients: seq<Client>) returns (ok: bool, merged: Counter)
    requires AllReport(clients, shards)
    ensures ok && LanPercentile.Counts(merged, LanPercentile.Flatten(FailureSamples(clients)))
    ensures Durations(LanPercentile.Flatten(FailureSamples(clients)))
  {
    ghost var parts := FailureSamples(clients);
    forall i | 0 <= i < |shards| ensures |parts[i]| == shards[i].phases[3].failed && Durations(parts[i]) {
      ShardFacts(clients[i], shards[i]);
    }
    var histograms := seq(|shards|, i requires 0 <= i < |shards| => shards[i].failureLatency);
    var counts := seq(|shards|, i requires 0 <= i < |shards| => shards[i].phases[3].failed);
    ok, merged := MergeLatency(histograms, counts, parts);
    LanPercentile.FlattenDurations(parts);
  }
}
