/**
 What a LAN client reports, stated on what its goroutines measured: the steps of a run are read as
 a list of outcomes, and the counters, latencies, connections and log rows are those of that list.
 */
module LanOutcomes {
  import opened Basics
  import opened LanStats
  import opened LanBooks
  import opened LanClient
  import LanRuns

  /** One request or setup: whose it was, its error kind if it failed, and how long it took. */
  datatype Outcome = Outcome(cell: Cell, error: Option<string>, elapsed: nat)

  /** What a step measured, if anything. */
  ghost function OutcomeOf(c: Client, step: Step): seq<Outcome>
    requires Shape(c) && Enabled(c, step)
  {
    match step
    case Attempted(w, error, elapsed) =>
      assert Indexed(c.workers, c.n, w);
      [Outcome(Cell(0, c.workers[w].i), error, elapsed)]
    case Tick(i, error, elapsed) => [Outcome(Cell(1, i), error, elapsed)]
    case Load(j, error, elapsed) => [Outcome(Cell(if c.stage == Warming then 2 else 3, j), error, elapsed)]
    case _ => []
  }

  /** All outcomes of a run, in order. */
  ghost function Outcomes(c: Client, steps: seq<Step>): seq<Outcome>
    requires Shape(c) && Feasible(c, steps)
    decreases |steps|
  {
    if steps == [] then []
    else (ShapeKept(c, steps[0]); OutcomeOf(c, steps[0]) + Outcomes(Apply(c, steps[0]), steps[1..]))
  }

  // ------------------------------------------------------------------ the counters

  /** What can be asked of the counters of a phase. */
  datatype Query =
    | Attempts
    | Successes
    | Failures
    | FailuresOf(kind: string)
    | SuccessesTaking(elapsed: int)
    | FailuresTaking(elapsed: int)

  /** An outcome of phase `p` that a query is about; latencies are kept in the measurement only. */
  ghost predicate Concerns(q: Query, p: nat, x: Outcome) {
    x.cell.phase == p &&
    match q
    case Attempts => true
    case Successes => x.error.None?
    case Failures => x.error.Some?
    case FailuresOf(kind) => x.error == Some(kind)
    case SuccessesTaking(elapsed) => p == 3 && x.error.None? && x.elapsed == elapsed
    case FailuresTaking(elapsed) => p == 3 && x.error.Some? && x.elapsed == elapsed
  }

  /** How many outcomes of phase `p` a query is about. */
  ghost function Count(outcomes: seq<Outcome>, p: nat, q: Query): nat {
    if outcomes == [] then 0 else (if Concerns(q, p, outcomes[0]) then 1 else 0) + Count(outcomes[1..], p, q)
  }

  /** What the counters answer. */
  ghost function Answer(s: Stats, q: Query): nat {
    match q
    case Attempts => s.item.attempted
    case Successes => s.item.succeeded
    case Failures => s.item.failed
    case FailuresOf(kind) => if kind in s.item.kinds then s.item.kinds[kind] else 0
    case SuccessesTaking(elapsed) => multiset(s.samples)[elapsed]
    case FailuresTaking(elapsed) => multiset(s.failures)[elapsed]
  }

  lemma RecordedAnswer(s: Stats, x: Outcome, q: Query)
    ensures Answer(Recorded(s, x.error, x.elapsed, x.cell.phase == MEASUREMENT), q)
         == Answer(s, q) + if Concerns(q, x.cell.phase, x) then 1 else 0
  {
  }

  lemma MergedAnswer(a: Stats, b: Stats, q: Query)
    ensures Answer(Merged(a, b), q) == Answer(a, q) + Answer(b, q)
  {
  }

  lemma MergeAllLast(list: seq<Stats>, q: Query)
    requires list != []
    ensures Answer(MergeAll(list), q) == Answer(MergeAll(list[..|list| - 1]), q) + Answer(list[|list| - 1], q)
  {
    MergedAnswer(MergeAll(list[..|list| - 1]), list[|list| - 1], q);
  }

  /** One cell's change is the merged counters' change. */
  lemma {:induction false} MergeAllAnswer(list: seq<Stats>, j: nat, s: Stats, q: Query)
    requires j < |list|
    ensures Answer(MergeAll(list[j := s]), q) + Answer(list[j], q) == Answer(MergeAll(list), q) + Answer(s, q)
  {
    var n, changed := |list| - 1, list[j := s];
    MergeAllLast(list, q);
    MergeAllLast(changed, q);
    if j < n {
      assert changed[..n] == list[..n][j := s] && changed[n] == list[n];
      MergeAllAnswer(list[..n], j, s, q);
    } else {
      assert changed[..n] == list[..n] && changed[n] == s;
    }
  }

  lemma {:induction false} ZerosAnswer(list: seq<Stats>, q: Query)
    requires forall i :: 0 <= i < |list| ==> list[i] == ZERO
    ensures Answer(MergeAll(list), q) == 0
  {
    if list != [] {
      ZerosAnswer(list[..|list| - 1], q);
      MergedAnswer(MergeAll(list[..|list| - 1]), ZERO, q);
    }
  }

  lemma RecordAnswer(b: Books, x: Outcome, p: nat, q: Query)
    requires InBooks(b.results, x.cell) && p < |b.results|
    ensures |RecordAt(b, x.cell, x.error, x.elapsed).results| == |b.results|
    ensures Answer(MergeAll(RecordAt(b, x.cell, x.error, x.elapsed).results[p]), q)
         == Answer(MergeAll(b.results[p]), q) + if Concerns(q, p, x) then 1 else 0
  {
    var list, j := b.results[x.cell.phase], x.cell.index;
    var s, after := Recorded(list[j], x.error, x.elapsed, x.cell.phase == MEASUREMENT),
                    RecordAt(b, x.cell, x.error, x.elapsed).results;
    if p == x.cell.phase {
      assert after[p] == list[j := s];
      RecordedAnswer(list[j], x, q);
      MergeAllAnswer(list, j, s, q);
    } else {
      assert after[p] == b.results[p];
    }
  }

  /** A step records its outcome and nothing else. */
  lemma StepRecords(c: Client, step: Step)
    requires Shape(c) && Enabled(c, step)
    ensures var d := Apply(c, step);
            if OutcomeOf(c, step) == [] then d.books.results == c.books.results && d.books.issued == c.books.issued
            else
              var x := OutcomeOf(c, step)[0];
              InBooks(c.books.results, x.cell) && d.books == RecordAt(c.books, x.cell, x.error, x.elapsed)
  {
    if step.Attempted? { assert Indexed(c.workers, c.n, step.w); }
  }

  lemma {:induction false} RunAnswer(c: Client, steps: seq<Step>, p: nat, q: Query)
    requires Shape(c) && Feasible(c, steps) && p < PHASES
    ensures Answer(MergeAll(Final(c, steps).books.results[p]), q)
         == Answer(MergeAll(c.books.results[p]), q) + Count(Outcomes(c, steps), p, q)
    decreases |steps|
  {
    if steps != [] {
      ShapeKept(c, steps[0]);
      StepRecords(c, steps[0]);
      var now, rest := OutcomeOf(c, steps[0]), Outcomes(Apply(c, steps[0]), steps[1..]);
      RunAnswer(Apply(c, steps[0]), steps[1..], p, q);
      if now == [] {
        assert now + rest == rest;
      } else {
        assert (now + rest)[1..] == rest;
        RecordAnswer(c.books, now[0], p, q);
      }
    }
  }

  /** The latencies of a phase's successes, or of its failures, in order. */
  ghost function Elapsed(outcomes: seq<Outcome>, p: nat, failed: bool): seq<int> {
    if outcomes == [] then []
    else
      var x := outcomes[0];
      (if x.cell.phase == p && x.error.Some? == failed then [x.elapsed] else []) + Elapsed(outcomes[1..], p, failed)
  }

  lemma {:induction false} ElapsedCounts(outcomes: seq<Outcome>, v: int)
    ensures multiset(Elapsed(outcomes, 3, false))[v] == Count(outcomes, 3, SuccessesTaking(v))
    ensures multiset(Elapsed(outcomes, 3, true))[v] == Count(outcomes, 3, FailuresTaking(v))
  {
    if outcomes != [] { ElapsedCounts(outcomes[1..], v); }
  }

  // ----------------------------------------------------------------- connections

  /** The connections with an outcome in the measurement; `served` asks for a success. */
  ghost function Measured(outcomes: seq<Outcome>, streams: nat, served: bool): set<nat>
    requires streams >= 1
  {
    set x | x in outcomes && x.cell.phase == 3 && (served ==> x.error.None?) :: x.cell.index / streams
  }

  /** The connections whose setup succeeded. */
  ghost function Opened(outcomes: seq<Outcome>): set<nat> {
    set x | x in outcomes && x.cell.phase == 0 && x.error.None? :: x.cell.index
  }

  ghost function FailedRows(outcomes: seq<Outcome>): seq<Row> {
    if outcomes == [] then [] else FailedRow(outcomes[0]) + FailedRows(outcomes[1..])
  }

  ghost function FailedRow(x: Outcome): seq<Row> { if x.error.Some? then [Row(x.cell, x.error.value)] else [] }

  lemma Joined(a: seq<Row>, b: seq<Row>, c: seq<Row>)
    ensures a + b + c == a + (b + c)
  {
  }

  /** From `c` to `d`, the sets and the failures counted grow by those of the outcomes. */
  ghost predicate Grows(c: Client, d: Client, outcomes: seq<Outcome>)
    requires Shape(c)
  {
    && d.streams == c.streams && d.open == c.open + Opened(outcomes)
    && d.took == c.took + Measured(outcomes, c.streams, false)
    && d.served == c.served + Measured(outcomes, c.streams, true)
    && d.books.issued == c.books.issued + FailedRows(outcomes)
  }

  lemma StepConnections(c: Client, step: Step)
    requires Shape(c) && Enabled(c, step)
    ensures Grows(c, Apply(c, step), OutcomeOf(c, step))
  {
    if step.Attempted? { assert Indexed(c.workers, c.n, step.w); }
    var now := OutcomeOf(c, step);
    if now != [] {
      var x := now[0];
      assert now == [x];
      assert Opened(now) == if x.cell.phase == 0 && x.error.None? then {x.cell.index} else {};
      forall served: bool
        ensures Measured(now, c.streams, served) ==
                  if x.cell.phase == 3 && (served ==> x.error.None?) then {x.cell.index / c.streams} else {}
      {
      }
    }
  }

  lemma ConnectionsConcat(a: seq<Outcome>, b: seq<Outcome>, streams: nat)
    requires streams >= 1
    ensures Opened(a + b) == Opened(a) + Opened(b)
    ensures forall served :: Measured(a + b, streams, served) ==
                               Measured(a, streams, served) + Measured(b, streams, served)
  {
  }

  lemma {:induction false} FailedConcat(a: seq<Outcome>, b: seq<Outcome>)
    ensures FailedRows(a + b) == FailedRows(a) + FailedRows(b)
  {
    if a == [] {
      assert a + b == b;
    } else {
      assert (a + b)[1..] == a[1..] + b && (a + b)[0] == a[0];
      FailedConcat(a[1..], b);
      Joined(FailedRow(a[0]), FailedRows(a[1..]), FailedRows(b));
    }
  }

  lemma GrowsOn(c: Client, d: Client, e: Client, a: seq<Outcome>, b: seq<Outcome>)
    requires Shape(c) && Shape(d) && Grows(c, d, a) && Grows(d, e, b)
    ensures Grows(c, e, a + b)
  {
    ConnectionsConcat(a, b, c.streams);
    FailedConcat(a, b);
    Joined(c.books.issued, FailedRows(a), FailedRows(b));
  }

  lemma {:induction false} RunConnections(c: Client, steps: seq<Step>)
    requires Shape(c) && Feasible(c, steps)
    ensures Grows(c, Final(c, steps), Outcomes(c, steps))
    decreases |steps|
  {
    if steps != [] {
      ShapeKept(c, steps[0]);
      StepConnections(c, steps[0]);
      var d := Apply(c, steps[0]);
      RunConnections(d, steps[1..]);
      GrowsOn(c, d, Final(d, steps[1..]), OutcomeOf(c, steps[0]), Outcomes(d, steps[1..]));
    }
  }

  // ------------------------------------------------------------------ theorems

  lemma InitAnswer(n: nat, streams: nat, workers: nat, p: nat, q: Query)
    requires streams >= 1 && p < PHASES
    ensures Answer(MergeAll(Init(n, streams, workers).books.results[p]), q) == 0
  {
    ZerosAnswer(Init(n, streams, workers).books.results[p], q);
  }

  /**
   In every run, the counters reported for a phase that is over count exactly the outcomes of that
   phase, whichever is asked for.
   */
  lemma CountersAreOutcomes(n: nat, streams: nat, workers: nat, steps: seq<Step>, p: nat, q: Query)
    requires streams >= 1 && Feasible(Init(n, streams, workers), steps)
    requires p < |Final(Init(n, streams, workers), steps).totals| && p < PHASES
    ensures Answer(Final(Init(n, streams, workers), steps).totals[p], q)
         == Count(Outcomes(Init(n, streams, workers), steps), p, q)
  {
    var c := Init(n, streams, workers);
    LanRuns.InitInv(n, streams, workers);
    LanRuns.RunInv(c, steps);
    var d := Final(c, steps);
    LanRuns.TotalAt(d.stage, d.totals, d.books.results, p);
    RunAnswer(c, steps, p, q);
    InitAnswer(n, streams, workers, p, q);
  }

  ghost predicate Answers(s: Stats, outcomes: seq<Outcome>, p: nat, q: Query) { Answer(s, q) == Count(outcomes, p, q) }

  lemma LatenciesCounted(s: Stats, outcomes: seq<Outcome>)
    requires forall q :: Answers(s, outcomes, 3, q)
    ensures multiset(s.samples) == multiset(Elapsed(outcomes, 3, false))
    ensures multiset(s.failures) == multiset(Elapsed(outcomes, 3, true))
  {
    forall v ensures multiset(s.samples)[v] == multiset(Elapsed(outcomes, 3, false))[v]
                     && multiset(s.failures)[v] == multiset(Elapsed(outcomes, 3, true))[v]
    {
      assert Answers(s, outcomes, 3, SuccessesTaking(v)) && Answers(s, outcomes, 3, FailuresTaking(v));
      ElapsedCounts(outcomes, v);
    }
  }

  lemma LatenciesAreMeasured(n: nat, streams: nat, workers: nat, steps: seq<Step>)
    requires streams >= 1 && Feasible(Init(n, streams, workers), steps)
    requires |Final(Init(n, streams, workers), steps).totals| == PHASES
    ensures var total, outcomes := Final(Init(n, streams, workers), steps).totals[3],
                                   Outcomes(Init(n, streams, workers), steps);
            && multiset(total.samples) == multiset(Elapsed(outcomes, 3, false))
            && multiset(total.failures) == multiset(Elapsed(outcomes, 3, true))
  {
    var total, outcomes := Final(Init(n, streams, workers), steps).totals[3],
 Outcomes(Init(n, streams, workers), steps);
    forall q ensures Answers(total, outcomes, 3, q) { CountersAreOutcomes(n, streams, workers, steps, 3, q); }
    LatenciesCounted(total, outcomes);
  }

  lemma RowsLogged(c: Client)
    requires LanRuns.Inv(c) && c.stage == Reported
    ensures multiset(c.books.log) == multiset(c.books.issued) && |c.totals| == PHASES
  {
    LanRuns.NothingWaits(c);
    assert WaitingRows(c.books.waiting) == {};
  }

  /**
   What a finished client reports: the latencies are those of the measured requests, successes and
   failures apart, the log has one row for every failure, and the population sets are those of the
   connections set up, measured and served.
   */
  lemma ReportIsWhatWasMeasured(n: nat, streams: nat, workers: nat, steps: seq<Step>)
    requires streams >= 1 && Feasible(Init(n, streams, workers), steps)
    requires Final(Init(n, streams, workers), steps).stage == Reported
    ensures var c, outcomes := Final(Init(n, streams, workers), steps), Outcomes(Init(n, streams, workers), steps);
            && |c.totals| == PHASES
            && multiset(c.totals[3].samples) == multiset(Elapsed(outcomes, 3, false))
            && multiset(c.totals[3].failures) == multiset(Elapsed(outcomes, 3, true))
            && multiset(c.books.log) == multiset(FailedRows(outcomes))
            && c.open == Opened(outcomes)
            && c.took == Measured(outcomes, streams, false)
            && c.served == Measured(outcomes, streams, true)
  {
    var c := Init(n, streams, workers);
    LanRuns.InitInv(n, streams, workers);
    LanRuns.RunInv(c, steps);
    RowsLogged(Final(c, steps));
    LatenciesAreMeasured(n, streams, workers, steps);
    RunConnections(c, steps);
    FromNothing(c, Final(c, steps), Outcomes(c, steps));
  }

  lemma FromNothing(c: Client, d: Client, outcomes: seq<Outcome>)
    requires Shape(c) && Grows(c, d, outcomes)
    requires c.open == {} && c.took == {} && c.served == {} && c.books.issued == []
    ensures d.open == Opened(outcomes) && d.books.issued == FailedRows(outcomes)
    ensures d.took == Measured(outcomes, c.streams, false) && d.served == Measured(outcomes, c.streams, true)
  {
  }
}
