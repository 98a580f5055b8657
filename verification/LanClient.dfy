/**
 A LAN client process as interleaved goroutines: setup workers that claim connection indices,
 one holding goroutine per established connection, and one load goroutine per stream slot of the
 warmup and measurement phases.  Deadlines, tickers and what a request returns are arbitrary.
 */
module LanClient {
  import opened Basics
  import opened LanStats
  import opened LanBooks
  import Arith

  datatype Worker = Seeking | Claimed(i: nat) | Attempting(i: nat) | Logging(i: nat) | Stopped

  datatype Stage = SettingUp | Prepared | Releasing | Warming | Ready | Measuring | Reported

  datatype Client = Client(
    n: nat, streams: nat,        // requested connections, stream slots of each
    stage: Stage,
    next: nat, workers: seq<Worker>,
    open: set<nat>,              // connections whose setup succeeded
    holders: set<nat>,           // connections with a holding goroutine
    loaders: set<nat>,           // result slots with a load goroutine
    books: Books,
    took: set<nat>, served: set<nat>,  // connections with a measured attempt, with a measured success
    totals: seq<Stats>)          // the merged counters of the phases that are over

  datatype Step =
    | Claim(w: nat)
    | Expire(w: nat)             // the setup deadline has passed
    | Begin(w: nat)
    | Attempted(w: nat, error: Option<string>, elapsed: nat)
    | Resume(w: nat)             // back from logging
    | Log(cell: Cell)
    | SetupDone
    | Release                    // tell the holders to stop
    | Tick(i: nat, error: Option<string>, elapsed: nat)
    | HoldExit(i: nat)
    | WarmStart
    | Load(j: nat, error: Option<string>, elapsed: nat)
    | LoadExit(j: nat)
    | WarmDone
    | MeasureStart
    | MeasureDone

  /** Result slots of a load phase. */
  function SlotCount(n: nat, streams: nat): nat {
    Arith.MulNat(n, streams);
    n * streams
  }

  ghost function Init(n: nat, streams: nat, workers: nat): (c: Client)
    ensures streams >= 1 ==> Shape(c)
  {
    Client(n, streams, SettingUp, 0, seq(workers, _ => Seeking), {}, {}, {},
           Books([Zeros(n), Zeros(n), Zeros(SlotCount(n, streams)), Zeros(SlotCount(n, streams))], map[], [], []),
           {}, {}, [])
  }

  /** Result slots of the open connections: slot `i * streams + s` belongs to connection `i`. */
  ghost function Slots(n: nat, streams: nat, open: set<nat>): set<nat>
    requires streams >= 1
  {
    set j | 0 <= j < SlotCount(n, streams) && j / streams in open
  }

  /** The flat index gives back connection and stream slot. */
  lemma SlotIndex(n: nat, streams: nat, i: nat, s: nat)
    requires i < n && s < streams
    ensures i * streams + s < SlotCount(n, streams) && (i * streams + s) / streams == i
    ensures (i * streams + s) % streams == s
  {
    Arith.MulMonotone(i + 1, n, streams);
    Arith.Distribute(i, 1, streams);
    Arith.DivUnique(i * streams + s, streams, i, s);
    Arith.DivMod(i * streams + s, streams);
  }

  /** The goroutines a load phase starts: one for every stream slot of every open connection. */
  ghost function Spawned(streams: nat, open: set<nat>): set<nat> {
    set i, s | i in open && s in StreamSlots(streams) :: i * streams + s
  }

  ghost function StreamSlots(streams: nat): (r: set<nat>)
    ensures forall s :: s in r <==> 0 <= s < streams
  {
    if streams == 0 then {} else StreamSlots(streams - 1) + {streams - 1}
  }

  /** They are the result slots of the open connections. */
  lemma SpawnedInside(n: nat, streams: nat, open: set<nat>)
    requires streams >= 1 && forall i :: i in open ==> i < n
    ensures Spawned(streams, open) == Slots(n, streams, open)
  {
    forall j | j in Spawned(streams, open) ensures j in Slots(n, streams, open) {
      var i, s :| i in open && s in StreamSlots(streams) && j == i * streams + s;
      SlotIndex(n, streams, i, s);
    }
    forall j | j in Slots(n, streams, open) ensures j in Spawned(streams, open) {
      Arith.DivMod(j, streams);
      assert j / streams in open && j % streams in StreamSlots(streams);
    }
  }

  ghost predicate Sizes(n: nat, streams: nat, results: seq<seq<Stats>>) {
    && streams >= 1 && |results| == PHASES
    && |results[0]| == n && |results[1]| == n
    && |results[2]| == SlotCount(n, streams) && |results[3]| == SlotCount(n, streams)
  }

  /** The phase the load goroutines of a stage record into. */
  function LoadPhase(stage: Stage): nat { if stage == Warming then 2 else 3 }

  ghost predicate Shape(c: Client) {
    Sizes(c.n, c.streams, c.books.results) && forall w :: Indexed(c.workers, c.n, w)
  }

  ghost predicate Indexed(workers: seq<Worker>, n: nat, w: int) {
    0 <= w < |workers| && !workers[w].Seeking? && !workers[w].Stopped? ==> workers[w].i < n
  }

  ghost predicate Enabled(c: Client, step: Step)
    requires Shape(c)
  {
    match step
    case Claim(w) => w < |c.workers| && c.workers[w].Seeking?
    case Expire(w) => w < |c.workers| && c.workers[w].Claimed?
    case Begin(w) => w < |c.workers| && c.workers[w].Claimed?
    case Attempted(w, _, _) => w < |c.workers| && c.workers[w].Attempting?
    case Resume(w) => w < |c.workers| && c.workers[w].Logging? && Cell(0, c.workers[w].i) !in c.books.waiting
    case Log(cell) => cell in c.books.waiting
    case SetupDone => c.stage == SettingUp && forall w :: 0 <= w < |c.workers| ==> c.workers[w].Stopped?
    case Release => c.stage == Prepared
    case Tick(i, _, _) => i in c.holders && i < c.n && Cell(1, i) !in c.books.waiting
    case HoldExit(i) => i in c.holders && Cell(1, i) !in c.books.waiting
    case WarmStart => c.stage == Releasing && c.holders == {}
    case Load(j, _, _) =>
      j in c.loaders && j < SlotCount(c.n, c.streams) && Cell(LoadPhase(c.stage), j) !in c.books.waiting
    case LoadExit(j) => j in c.loaders && Cell(LoadPhase(c.stage), j) !in c.books.waiting
    case WarmDone => c.stage == Warming && c.loaders == {}
    case MeasureStart => c.stage == Ready
    case MeasureDone => c.stage == Measuring && c.loaders == {}
  }

  ghost function Finished(c: Client, phase: nat, stage: Stage): Client
    requires phase < |c.books.results|
  {
    c.(stage := stage, totals := c.totals + [MergeAll(c.books.results[phase])])
  }

  ghost function AfterAttempt(c: Client, w: nat, error: Option<string>, elapsed: nat): Client
    requires Shape(c) && w < |c.workers| && c.workers[w].Attempting?
  {
    assert Indexed(c.workers, c.n, w);
    var i := c.workers[w].i;
    var recorded := c.(books := RecordAt(c.books, Cell(0, i), error, elapsed));
    if error.None? then recorded.(open := c.open + {i}, holders := c.holders + {i}, workers := c.workers[w := Seeking])
    else recorded.(workers := c.workers[w := Logging(i)])
  }

  ghost function AfterLoad(c: Client, j: nat, error: Option<string>, elapsed: nat): Client
    requires Shape(c) && j < SlotCount(c.n, c.streams)
  {
    var phase, i := LoadPhase(c.stage), j / c.streams;
    c.(books := RecordAt(c.books, Cell(phase, j), error, elapsed),
       took := if phase == MEASUREMENT then c.took + {i} else c.took,
       served := if phase == MEASUREMENT && error.None? then c.served + {i} else c.served)
  }

  ghost function Apply(c: Client, step: Step): Client
    requires Shape(c) && Enabled(c, step)
  {
    match step
    case Claim(w) => c.(next := c.next + 1,
                        workers := c.workers[w := if c.next >= c.n then Stopped else Claimed(c.next)])
    case Expire(w) => c.(workers := c.workers[w := Stopped])
    case Begin(w) => c.(workers := c.workers[w := Attempting(c.workers[w].i)])
    case Attempted(w, error, elapsed) => AfterAttempt(c, w, error, elapsed)
    case Resume(w) => c.(workers := c.workers[w := Seeking])
    case Log(cell) => c.(books := LogAt(c.books, cell))
    case SetupDone => Finished(c, 0, Prepared)
    case Release => c.(stage := Releasing)
    case Tick(i, error, elapsed) => c.(books := RecordAt(c.books, Cell(1, i), error, elapsed))
    case HoldExit(i) => c.(holders := c.holders - {i})
    case WarmStart => Finished(c, 1, Warming).(loaders := Spawned(c.streams, c.open))
    case Load(j, error, elapsed) => AfterLoad(c, j, error, elapsed)
    case LoadExit(j) => c.(loaders := c.loaders - {j})
    case WarmDone => Finished(c, 2, Ready)
    case MeasureStart => c.(stage := Measuring, loaders := Spawned(c.streams, c.open))
    case MeasureDone => Finished(c, 3, Reported)
  }

  lemma SizesKept(n: nat, streams: nat, b: Books, cell: Cell, error: Option<string>, elapsed: nat)
    requires Sizes(n, streams, b.results) && InBooks(b.results, cell)
    ensures Sizes(n, streams, RecordAt(b, cell, error, elapsed).results)
  {
    RecordSizes(b, cell, error, elapsed);
  }

  lemma ShapeKept(c: Client, step: Step)
    requires Shape(c) && Enabled(c, step)
    ensures Shape(Apply(c, step))
  {
    var after := Apply(c, step);
    match step {
      case Attempted(w, error, elapsed) =>
        assert Indexed(c.workers, c.n, w);
        SizesKept(c.n, c.streams, c.books, Cell(0, c.workers[w].i), error, elapsed);
      case Tick(i, error, elapsed) => SizesKept(c.n, c.streams, c.books, Cell(1, i), error, elapsed);
      case Load(j, error, elapsed) => SizesKept(c.n, c.streams, c.books, Cell(LoadPhase(c.stage), j), error, elapsed);
      case _ =>
    }
    forall w ensures Indexed(after.workers, after.n, w) { assert Indexed(c.workers, c.n, w); }
  }

  ghost predicate Feasible(c: Client, steps: seq<Step>)
    requires Shape(c)
    decreases |steps|
  {
    steps == [] || (Enabled(c, steps[0]) && (ShapeKept(c, steps[0]); Feasible(Apply(c, steps[0]), steps[1..])))
  }

  ghost function Final(c: Client, steps: seq<Step>): (d: Client)
    requires Shape(c) && Feasible(c, steps)
    ensures Shape(d)
    decreases |steps|
  {
    if steps == [] then c else (ShapeKept(c, steps[0]); Final(Apply(c, steps[0]), steps[1..]))
  }
}
