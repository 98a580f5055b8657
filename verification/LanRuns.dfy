/** What every interleaving of a LAN client's goroutines keeps, and what its report then says. */
module LanRuns {
  import opened Basics
  import opened Tally
  import opened LanStats
  import opened LanBooks
  import opened LanClient
  import Ids

  // ------------------------------------------------------------------ invariant

  /** A claimed index is below the counter and not attempted before its worker attempts it. */
  ghost predicate WorkerOk(workers: seq<Worker>, next: nat, setups: seq<Stats>, w: int) {
    0 <= w < |workers| ==>
      match workers[w]
      case Seeking => true
      case Stopped => true
      case Logging(i) => i < next && i < |setups|
      case Claimed(i) => i < next && i < |setups| && setups[i].item.attempted == 0
      case Attempting(i) => i < next && i < |setups| && setups[i].item.attempted == 0
  }

  /** No two workers hold the same index. */
  ghost predicate Distinct(workers: seq<Worker>, w: int, v: int) {
    0 <= w < |workers| && 0 <= v < |workers| && w != v && Holding(workers[w]) && Holding(workers[v]) ==>
      workers[w].i != workers[v].i
  }

  predicate Holding(worker: Worker) { !worker.Seeking? && !worker.Stopped? }

  ghost predicate ClaimOk(setups: seq<Stats>, next: nat, i: int) {
    0 <= i < |setups| ==> setups[i].item.attempted <= 1 && (i >= next ==> setups[i].item.attempted == 0)
  }

  ghost predicate CrewInv(workers: seq<Worker>, next: nat, setups: seq<Stats>) {
    && (forall w :: WorkerOk(workers, next, setups, w))
    && (forall w, v :: Distinct(workers, w, v))
    && (forall i :: ClaimOk(setups, next, i))
  }

  ghost predicate OpenInv(open: set<nat>, holders: set<nat>, setups: seq<Stats>) {
    && (forall i :: i in open ==> i < |setups| && setups[i].item.succeeded >= 1)
    && holders <= open
    && |open| == MergeAll(setups).item.succeeded
  }

  ghost predicate LogsAt(workers: seq<Worker>, i: nat) {
    exists w :: 0 <= w < |workers| && workers[w] == Logging(i)
  }

  /** A row waits only while the goroutine that owns its cell is alive. */
  ghost predicate OwnerOk(workers: seq<Worker>, holders: set<nat>, loaders: set<nat>, stage: Stage, cell: Cell) {
    match cell.phase
    case 0 => LogsAt(workers, cell.index)
    case 1 => cell.index in holders
    case 2 => stage == Warming && cell.index in loaders
    case _ => stage == Measuring && cell.index in loaders && cell.phase == 3
  }

  ghost predicate OwnersInv(waiting: map<Cell, string>, workers: seq<Worker>, holders: set<nat>, loaders: set<nat>,
                            stage: Stage) {
    forall cell :: cell in waiting ==> OwnerOk(workers, holders, loaders, stage, cell)
  }

  ghost predicate StageInv(n: nat, streams: nat, stage: Stage, workers: seq<Worker>, open: set<nat>,
                           holders: set<nat>, loaders: set<nat>) {
    && streams >= 1
    && (stage != SettingUp ==> forall w :: 0 <= w < |workers| ==> workers[w].Stopped?)
    && (stage in {Warming, Ready, Measuring, Reported} ==> holders == {})
    && (stage !in {Warming, Measuring} ==> loaders == {})
    && loaders <= Slots(n, streams, open)
  }

  /** How many phases are over. */
  function Over(stage: Stage): nat {
    match stage
    case SettingUp => 0
    case Prepared => 1
    case Releasing => 1
    case Warming => 2
    case Ready => 3
    case Measuring => 3
    case Reported => 4
  }

  ghost predicate TotalOk(totals: seq<Stats>, results: seq<seq<Stats>>, p: int) {
    0 <= p < |totals| && p < |results| ==> totals[p] == MergeAll(results[p])
  }

  ghost predicate TotalsInv(stage: Stage, totals: seq<Stats>, results: seq<seq<Stats>>) {
    |totals| == Over(stage) && forall p :: TotalOk(totals, results, p)
  }

  ghost predicate Inv(c: Client) {
    && Shape(c) && BooksInv(c.books)
    && CrewInv(c.workers, c.next, c.books.results[0])
    && OpenInv(c.open, c.holders, c.books.results[0])
    && OwnersInv(c.books.waiting, c.workers, c.holders, c.loaders, c.stage)
    && StageInv(c.n, c.streams, c.stage, c.workers, c.open, c.holders, c.loaders)
    && c.served <= c.took <= c.open
    && TotalsInv(c.stage, c.totals, c.books.results)
  }

  // ------------------------------------------------------------------- the start

  ghost predicate BlankAt(results: seq<seq<Stats>>, p: int) {
    0 <= p < |results| ==> Blank(results[p], p == MEASUREMENT)
  }

  lemma BlankCell(results: seq<seq<Stats>>, p: nat, j: nat)
    requires BlankAt(results, p)
    ensures CellOk(results, p, j)
  {
    if InBooks(results, Cell(p, j)) { assert UnusedAt(results[p], j, p == MEASUREMENT); }
  }

  lemma BlankKind(results: seq<seq<Stats>>, issued: seq<Row>, p: nat, kind: string)
    requires BlankAt(results, p) && issued == []
    ensures KindOk(results, issued, p, kind)
  {
    if p < |results| { assert NoKind(MergeAll(results[p]).item.kinds, kind); }
  }

  lemma EmptyBooks(b: Books)
    requires |b.results| == PHASES && (forall p :: BlankAt(b.results, p)) && b.waiting == map[] && b.log == []
    requires b.issued == []
    ensures BooksInv(b)
  {
    forall p: nat, j: nat ensures CellOk(b.results, p, j) { BlankCell(b.results, p, j); }
    forall p: nat, kind ensures KindOk(b.results, b.issued, p, kind) { BlankKind(b.results, b.issued, p, kind); }
    assert WaitingRows(b.waiting) == {};
    assert LogOk(b);
  }

  lemma BlankResults(a: seq<Stats>, b: seq<Stats>, p: int)
    requires Blank(a, false) && Blank(b, false) && Blank(b, true)
    ensures BlankAt([a, a, b, b], p)
  {
  }

  lemma InitBooks(results: seq<seq<Stats>>, a: seq<Stats>, b: seq<Stats>)
    requires results == [a, a, b, b] && Blank(a, false) && Blank(b, false) && Blank(b, true)
    ensures BooksInv(Books(results, map[], [], []))
  {
    forall p ensures BlankAt(results, p) { BlankResults(a, b, p); }
    EmptyBooks(Books(results, map[], [], []));
  }

  lemma InitCrew(workers: seq<Worker>, setups: seq<Stats>)
    requires Blank(setups, false) && forall w :: 0 <= w < |workers| ==> workers[w] == Seeking
    ensures CrewInv(workers, 0, setups) && OpenInv({}, {}, setups)
  {
    forall i ensures ClaimOk(setups, 0, i) {
      assert UnusedAt(setups, i, false);
    }
  }

  lemma StartInv(c: Client, a: seq<Stats>, b: seq<Stats>)
    requires c.streams >= 1 && |a| == c.n && |b| == SlotCount(c.n, c.streams) && Blank(a, false) && Blank(b, false)
    requires Blank(b, true)
    requires c.books == Books([a, a, b, b], map[], [], []) && c.stage == SettingUp && c.next == 0
    requires forall w :: 0 <= w < |c.workers| ==> c.workers[w] == Seeking
    requires c.open == {} && c.holders == {} && c.loaders == {} && c.took == {} && c.served == {} && c.totals == []
    ensures Inv(c)
  {
    InitBooks(c.books.results, a, b);
    InitCrew(c.workers, a);
  }

  lemma InitInv(n: nat, streams: nat, workers: nat)
    requires streams >= 1
    ensures Inv(Init(n, streams, workers))
  {
    ZerosBlank(n, false);
    ZerosBlank(SlotCount(n, streams), false);
    ZerosBlank(SlotCount(n, streams), true);
    StartInv(Init(n, streams, workers), Zeros(n), Zeros(SlotCount(n, streams)));
  }

  // ------------------------------------------------------------ setup workers

  lemma WorkerMoves(workers: seq<Worker>, next: nat, setups: seq<Stats>, w: nat, worker: Worker, later: nat)
    requires CrewInv(workers, next, setups) && w < |workers| && next <= later
    requires Holding(worker) && (!Holding(workers[w]) || workers[w].i != worker.i) ==> worker.i == next < later
    requires Holding(worker) && !worker.Logging? ==> worker.i < |setups| && setups[worker.i].item.attempted == 0
    requires worker.Logging? ==> worker.i < |setups|
    ensures CrewInv(workers[w := worker], later, setups)
  {
    var after := workers[w := worker];
    forall v ensures WorkerOk(after, later, setups, v) {
      assert WorkerOk(workers, next, setups, v) && WorkerOk(workers, next, setups, w);
    }
    forall u, v ensures Distinct(after, u, v) {
      assert Distinct(workers, u, v) && Distinct(workers, v, u);
      assert WorkerOk(workers, next, setups, u) && WorkerOk(workers, next, setups, v);
    }
    forall i ensures ClaimOk(setups, later, i) { assert ClaimOk(setups, next, i); }
  }

  lemma OwnersMove(waiting: map<Cell, string>, workers: seq<Worker>, holders: set<nat>, loaders: set<nat>,
                   stage: Stage, w: nat, worker: Worker)
    requires OwnersInv(waiting, workers, holders, loaders, stage) && w < |workers|
    requires workers[w].Logging? ==> Cell(0, workers[w].i) !in waiting
    ensures OwnersInv(waiting, workers[w := worker], holders, loaders, stage)
  {
    var after := workers[w := worker];
    forall cell | cell in waiting ensures OwnerOk(after, holders, loaders, stage, cell) {
      assert OwnerOk(workers, holders, loaders, stage, cell);
      if cell.phase == 0 {
        var v :| 0 <= v < |workers| && workers[v] == Logging(cell.index);
        assert cell == Cell(0, cell.index);
        assert after[v] == Logging(cell.index);
      }
    }
  }

  lemma StillSettingUp(c: Client, w: nat)
    requires Inv(c) && w < |c.workers| && !c.workers[w].Stopped?
    ensures c.stage == SettingUp
  {
  }

  lemma CrewSteps(c: Client, step: Step)
    requires Inv(c) && Enabled(c, step) && (step.Claim? || step.Expire? || step.Begin? || step.Resume?)
    ensures Inv(Apply(c, step))
  {
    var d, w := Apply(c, step), step.w;
    var setups := c.books.results[0];
    StillSettingUp(c, w);
    assert WorkerOk(c.workers, c.next, setups, w) && ClaimOk(setups, c.next, c.next);
    WorkerMoves(c.workers, c.next, setups, w, d.workers[w], d.next);
    OwnersMove(c.books.waiting, c.workers, c.holders, c.loaders, c.stage, w, d.workers[w]);
    ShapeKept(c, step);
  }

  // --------------------------------------------------------------- one attempt

  /** The owner of an index attempts it: no one else holds it. */
  lemma CrewRecords(workers: seq<Worker>, next: nat, setups: seq<Stats>, w: nat, i: nat, s: Stats, worker: Worker)
    requires CrewInv(workers, next, setups) && w < |workers| && workers[w] == Attempting(i) && i < |setups|
    requires s.item.attempted == 1 && (worker == Seeking || worker == Logging(i))
    ensures CrewInv(workers[w := worker], next, setups[i := s])
  {
    var crew, after := workers[w := worker], setups[i := s];
    assert WorkerOk(workers, next, setups, w);
    forall v ensures WorkerOk(crew, next, after, v) {
      assert WorkerOk(workers, next, setups, v) && Distinct(workers, w, v);
    }
    forall u, v ensures Distinct(crew, u, v) { assert Distinct(workers, u, v); }
    forall j ensures ClaimOk(after, next, j) { assert ClaimOk(setups, next, j); }
  }

  lemma OpenRecords(open: set<nat>, holders: set<nat>, setups: seq<Stats>, i: nat, s: Stats, success: bool)
    requires OpenInv(open, holders, setups) && i < |setups| && setups[i].item.succeeded == 0
    requires s.item.succeeded == if success then 1 else 0
    ensures i !in open
    ensures OpenInv(if success then open + {i} else open, if success then holders + {i} else holders, setups[i := s])
  {
    SucceededUpdate(setups, i, s);
  }

  lemma SucceededUpdate(setups: seq<Stats>, i: nat, s: Stats)
    requires i < |setups|
    ensures MergeAll(setups[i := s]).item.succeeded + setups[i].item.succeeded ==
              MergeAll(setups).item.succeeded + s.item.succeeded
  {
    MergeAllUpdate(setups, i, s, "");
  }

  lemma NotWaiting(c: Client, w: nat, i: nat)
    requires Inv(c) && w < |c.workers| && c.workers[w] == Attempting(i)
    ensures Cell(0, i) !in c.books.waiting
  {
    if Cell(0, i) in c.books.waiting {
      assert OwnerOk(c.workers, c.holders, c.loaders, c.stage, Cell(0, i));
      var v :| 0 <= v < |c.workers| && c.workers[v] == Logging(i);
      Apart(c.workers, c.next, c.books.results[0], w, v);
    }
  }

  lemma Apart(workers: seq<Worker>, next: nat, setups: seq<Stats>, w: nat, v: nat)
    requires CrewInv(workers, next, setups) && w < |workers| && v < |workers| && w != v && Holding(workers[w])
    requires Holding(workers[v])
    ensures workers[w].i != workers[v].i
  {
    assert Distinct(workers, w, v);
  }

  /** Recording in a phase that is not over leaves the totals of the others alone. */
  lemma TotalsKept(stage: Stage, totals: seq<Stats>, b: Books, cell: Cell, error: Option<string>, elapsed: nat)
    requires TotalsInv(stage, totals, b.results) && InBooks(b.results, cell) && Over(stage) <= cell.phase
    ensures TotalsInv(stage, totals, RecordAt(b, cell, error, elapsed).results)
  {
    var after := RecordAt(b, cell, error, elapsed).results;
    RecordSizes(b, cell, error, elapsed);
    forall p ensures TotalOk(totals, after, p) { assert TotalOk(totals, b.results, p); }
  }

  /** The owner of a cell records a failure and stays until it is logged. */
  lemma OwnersRecord(b: Books, cell: Cell, error: Option<string>, elapsed: nat,
                     workers: seq<Worker>, holders: set<nat>, loaders: set<nat>, stage: Stage)
    requires InBooks(b.results, cell) && OwnersInv(b.waiting, workers, holders, loaders, stage)
    requires error.Some? ==> OwnerOk(workers, holders, loaders, stage, cell)
    ensures OwnersInv(RecordAt(b, cell, error, elapsed).waiting, workers, holders, loaders, stage)
  {
  }

  lemma OwnersGrow(waiting: map<Cell, string>, workers: seq<Worker>, holders: set<nat>, more: set<nat>,
                   loaders: set<nat>, stage: Stage)
    requires OwnersInv(waiting, workers, holders, loaders, stage) && holders <= more
    ensures OwnersInv(waiting, workers, more, loaders, stage)
  {
    forall cell | cell in waiting ensures OwnerOk(workers, more, loaders, stage, cell) {
      assert OwnerOk(workers, holders, loaders, stage, cell);
    }
  }

  lemma SlotsGrow(n: nat, streams: nat, open: set<nat>, more: set<nat>)
    requires streams >= 1 && open <= more
    ensures Slots(n, streams, open) <= Slots(n, streams, more)
  {
  }

  lemma RecordSetup(b: Books, i: nat, error: Option<string>, elapsed: nat)
    requires InBooks(b.results, Cell(0, i))
    ensures RecordAt(b, Cell(0, i), error, elapsed).results[0] ==
              b.results[0][i := Recorded(b.results[0][i], error, elapsed, false)]
  {
  }

  /** What one outcome makes of a cell that was not attempted before. */
  lemma FirstOutcome(s: Stats, error: Option<string>, elapsed: nat)
    requires StatsOk(s, false) && s.item.attempted == 0
    ensures var t := Recorded(s, error, elapsed, false);
            s.item.succeeded == 0 && t.item.attempted == 1 && t.item.succeeded == if error.None? then 1 else 0
  {
  }

  lemma AttemptCrew(workers: seq<Worker>, next: nat, open: set<nat>, holders: set<nat>, setups: seq<Stats>,
                    w: nat, i: nat, error: Option<string>, elapsed: nat)
    requires CrewInv(workers, next, setups) && OpenInv(open, holders, setups)
    requires w < |workers| && workers[w] == Attempting(i) && i < |setups| && StatsOk(setups[i], false)
    ensures var after := setups[i := Recorded(setups[i], error, elapsed, false)];
            && CrewInv(workers[w := if error.None? then Seeking else Logging(i)], next, after)
            && OpenInv(if error.None? then open + {i} else open, if error.None? then holders + {i} else holders, after)
  {
    var s, worker := Recorded(setups[i], error, elapsed, false), if error.None? then Seeking else Logging(i);
    assert WorkerOk(workers, next, setups, w);
    FirstOutcome(setups[i], error, elapsed);
    assert CrewInv(workers[w := worker], next, setups[i := s]) by {
      CrewRecords(workers, next, setups, w, i, s, worker);
    }
    assert OpenInv(if error.None? then open + {i} else open, if error.None? then holders + {i} else holders,
                   setups[i := s]) by {
      OpenRecords(open, holders, setups, i, s, error.None?);
    }
  }

  lemma AttemptBooks(c: Client, w: nat, error: Option<string>, elapsed: nat)
    requires Inv(c) && Enabled(c, Attempted(w, error, elapsed))
    ensures var d := AfterAttempt(c, w, error, elapsed);
            && BooksInv(d.books) && CrewInv(d.workers, d.next, d.books.results[0])
            && OpenInv(d.open, d.holders, d.books.results[0])
  {
    assert Indexed(c.workers, c.n, w);
    var i := c.workers[w].i;
    assert CellOk(c.books.results, 0, i);
    NotWaiting(c, w, i);
    RecordInv(c.books, Cell(0, i), error, elapsed);
    RecordSetup(c.books, i, error, elapsed);
    AttemptCrew(c.workers, c.next, c.open, c.holders, c.books.results[0], w, i, error, elapsed);
  }

  lemma AttemptOwners(c: Client, w: nat, error: Option<string>, elapsed: nat)
    requires Inv(c) && Enabled(c, Attempted(w, error, elapsed))
    ensures var d := AfterAttempt(c, w, error, elapsed);
            OwnersInv(d.books.waiting, d.workers, d.holders, d.loaders, d.stage)
  {
    assert Indexed(c.workers, c.n, w);
    var i, d := c.workers[w].i, AfterAttempt(c, w, error, elapsed);
    OwnersMove(c.books.waiting, c.workers, c.holders, c.loaders, c.stage, w, d.workers[w]);
    OwnersGrow(c.books.waiting, d.workers, c.holders, d.holders, c.loaders, c.stage);
    if error.Some? { assert d.workers[w] == Logging(i); }
    OwnersRecord(c.books, Cell(0, i), error, elapsed, d.workers, d.holders, d.loaders, d.stage);
  }

  lemma AttemptInv(c: Client, w: nat, error: Option<string>, elapsed: nat)
    requires Inv(c) && Enabled(c, Attempted(w, error, elapsed))
    ensures Inv(Apply(c, Attempted(w, error, elapsed)))
  {
    assert Indexed(c.workers, c.n, w);
    var d := AfterAttempt(c, w, error, elapsed);
    ShapeKept(c, Attempted(w, error, elapsed));
    AttemptBooks(c, w, error, elapsed);
    AttemptOwners(c, w, error, elapsed);
    StillSettingUp(c, w);
    SlotsGrow(c.n, c.streams, c.open, d.open);
    TotalsKept(c.stage, c.totals, c.books, Cell(0, c.workers[w].i), error, elapsed);
  }

  // ----------------------------------------------------------------- other steps

  lemma LogStep(c: Client, cell: Cell)
    requires Inv(c) && Enabled(c, Log(cell))
    ensures Inv(Apply(c, Log(cell)))
  {
    LogInv(c.books, cell);
  }

  lemma TickInv(c: Client, i: nat, error: Option<string>, elapsed: nat)
    requires Inv(c) && Enabled(c, Tick(i, error, elapsed))
    ensures Inv(Apply(c, Tick(i, error, elapsed)))
  {
    ShapeKept(c, Tick(i, error, elapsed));
    RecordInv(c.books, Cell(1, i), error, elapsed);
    RecordSizes(c.books, Cell(1, i), error, elapsed);
    TotalsKept(c.stage, c.totals, c.books, Cell(1, i), error, elapsed);
    OwnersRecord(c.books, Cell(1, i), error, elapsed, c.workers, c.holders, c.loaders, c.stage);
  }

  lemma LoadInv(c: Client, j: nat, error: Option<string>, elapsed: nat)
    requires Inv(c) && Enabled(c, Load(j, error, elapsed))
    ensures Inv(Apply(c, Load(j, error, elapsed)))
  {
    var cell := Cell(LoadPhase(c.stage), j);
    ShapeKept(c, Load(j, error, elapsed));
    RecordInv(c.books, cell, error, elapsed);
    RecordSizes(c.books, cell, error, elapsed);
    TotalsKept(c.stage, c.totals, c.books, cell, error, elapsed);
    OwnersRecord(c.books, cell, error, elapsed, c.workers, c.holders, c.loaders, c.stage);
    assert j / c.streams in c.open;
  }

  lemma OwnersExit(waiting: map<Cell, string>, workers: seq<Worker>, holders: set<nat>, loaders: set<nat>,
                   stage: Stage, i: nat)
    requires OwnersInv(waiting, workers, holders, loaders, stage)
    ensures Cell(1, i) !in waiting ==> OwnersInv(waiting, workers, holders - {i}, loaders, stage)
    ensures Cell(LoadPhase(stage), i) !in waiting ==> OwnersInv(waiting, workers, holders, loaders - {i}, stage)
  {
    forall cell | cell in waiting && Cell(1, i) !in waiting
      ensures OwnerOk(workers, holders - {i}, loaders, stage, cell)
    {
      assert OwnerOk(workers, holders, loaders, stage, cell);
      if cell.phase == 1 { assert cell == Cell(1, cell.index); }
    }
    forall cell | cell in waiting && Cell(LoadPhase(stage), i) !in waiting
      ensures OwnerOk(workers, holders, loaders - {i}, stage, cell)
    {
      assert OwnerOk(workers, holders, loaders, stage, cell);
      assert cell == Cell(cell.phase, cell.index);
    }
  }

  lemma ExitInv(c: Client, step: Step)
    requires Inv(c) && Enabled(c, step) && (step.HoldExit? || step.LoadExit?)
    ensures Inv(Apply(c, step))
  {
    OwnersExit(c.books.waiting, c.workers, c.holders, c.loaders, c.stage, if step.HoldExit? then step.i else step.j);
  }

  lemma TotalsFinished(stage: Stage, totals: seq<Stats>, results: seq<seq<Stats>>, later: Stage)
    requires TotalsInv(stage, totals, results) && |results| == PHASES && Over(stage) < PHASES
    requires Over(later) == Over(stage) + 1
    ensures TotalsInv(later, totals + [MergeAll(results[Over(stage)])], results)
  {
    var more := totals + [MergeAll(results[Over(stage)])];
    forall p ensures TotalOk(more, results, p) { assert TotalOk(totals, results, p); }
  }

  /** With no load goroutine alive, only the setup and holding cells can have waiting rows. */
  lemma OwnersStage(waiting: map<Cell, string>, workers: seq<Worker>, holders: set<nat>, loaders: set<nat>,
                    stage: Stage, later: Stage, more: set<nat>)
    requires OwnersInv(waiting, workers, holders, loaders, stage) && loaders == {}
    ensures OwnersInv(waiting, workers, holders, more, later)
  {
    forall cell | cell in waiting ensures OwnerOk(workers, holders, more, later, cell) {
      assert OwnerOk(workers, holders, loaders, stage, cell);
    }
  }

  lemma StageSteps(c: Client, step: Step)
    requires Inv(c) && Enabled(c, step)
    requires step in {SetupDone, Release, WarmStart, WarmDone, MeasureStart, MeasureDone}
    ensures Inv(Apply(c, step))
  {
    var d := Apply(c, step);
    SpawnedInside(c.n, c.streams, c.open);
    OwnersStage(c.books.waiting, c.workers, c.holders, c.loaders, c.stage, d.stage, d.loaders);
    if step != Release && step != MeasureStart { TotalsFinished(c.stage, c.totals, c.books.results, d.stage); }
  }

  lemma StepInv(c: Client, step: Step)
    requires Inv(c) && Enabled(c, step)
    ensures Inv(Apply(c, step))
  {
    match step
    case Claim(_) => CrewSteps(c, step);
    case Expire(_) => CrewSteps(c, step);
    case Begin(_) => CrewSteps(c, step);
    case Resume(_) => CrewSteps(c, step);
    case Attempted(w, error, elapsed) => AttemptInv(c, w, error, elapsed);
    case Log(cell) => LogStep(c, cell);
    case Tick(i, error, elapsed) => TickInv(c, i, error, elapsed);
    case Load(j, error, elapsed) => LoadInv(c, j, error, elapsed);
    case HoldExit(_) => ExitInv(c, step);
    case LoadExit(_) => ExitInv(c, step);
    case _ => StageSteps(c, step);
  }

  // ---------------------------------------------------------------- whole runs

  lemma {:induction false} RunInv(c: Client, steps: seq<Step>)
    requires Inv(c) && Feasible(c, steps)
    ensures Inv(Final(c, steps)) && Final(c, steps).n == c.n && Final(c, steps).streams == c.streams
    decreases |steps|
  {
    if steps != [] {
      StepInv(c, steps[0]);
      RunInv(Apply(c, steps[0]), steps[1..]);
    }
  }

  /** When every goroutine has stopped, no cell has an owner. */
  lemma NoOwner(workers: seq<Worker>, cell: Cell)
    requires forall w :: 0 <= w < |workers| ==> workers[w].Stopped?
    ensures !OwnerOk(workers, {}, {}, Reported, cell)
  {
  }

  lemma NothingWaits(c: Client)
    requires Inv(c) && c.stage == Reported
    ensures c.books.waiting == map[]
  {
    if cell :| cell in c.books.waiting {
      NoOwner(c.workers, cell);
    }
  }

  /** What a finished client reports: the counters of its four phases and its log agree. */
  ghost predicate Accounted(c: Client) {
    && |c.totals| == PHASES
    && (forall p :: 0 <= p < PHASES ==> StatsOk(c.totals[p], p == MEASUREMENT))
    && (forall p, kind :: LoggedKind(c, p, kind))
    && |c.books.log| ==
         c.totals[0].item.failed + c.totals[1].item.failed + c.totals[2].item.failed + c.totals[3].item.failed
    && (forall row :: row in c.books.log ==> InBooks(c.books.results, row.cell))
  }

  ghost predicate LoggedKind(c: Client, p: int, kind: string) {
    0 <= p < |c.totals| ==>
      && Get(c.totals[p].item.kinds, kind) == CountKind(c.books.log, p, kind)
      && c.totals[p].item.failed == CountPhase(c.books.log, p)
  }

  /** The population counts of the report. */
  ghost predicate Populated(c: Client)
    requires |c.totals| > 0
  {
    && c.totals[0].item.attempted <= c.n
    && c.totals[0].item.succeeded == |c.open|
    && |c.served| <= |c.took| <= |c.open| <= c.n
  }

  lemma PhaseOk(b: Books, p: nat)
    requires BooksInv(b) && p < PHASES
    ensures StatsOk(MergeAll(b.results[p]), p == MEASUREMENT)
  {
    forall j | 0 <= j < |b.results[p]| ensures StatsOk(b.results[p][j], p == MEASUREMENT) {
      assert CellOk(b.results, p, j);
    }
    MergeAllOk(b.results[p], p == MEASUREMENT);
  }

  lemma TotalAt(stage: Stage, totals: seq<Stats>, results: seq<seq<Stats>>, p: nat)
    requires TotalsInv(stage, totals, results) && p < |totals| && p < |results|
    ensures totals[p] == MergeAll(results[p])
  {
    assert TotalOk(totals, results, p);
  }

  lemma LoggedAt(c: Client, p: nat, kind: string)
    requires Inv(c) && c.stage == Reported && p < PHASES
    ensures LoggedKind(c, p, kind)
  {
    NothingWaits(c);
    Settled(c.books, p, kind);
    TotalAt(c.stage, c.totals, c.books.results, p);
  }

  lemma ReportAccounted(c: Client)
    requires Inv(c) && c.stage == Reported
    ensures Accounted(c)
  {
    forall p | 0 <= p < PHASES ensures StatsOk(c.totals[p], p == MEASUREMENT) {
      PhaseOk(c.books, p);
      TotalAt(c.stage, c.totals, c.books.results, p);
    }
    forall p, kind ensures LoggedKind(c, p, kind) {
      if 0 <= p < PHASES { LoggedAt(c, p, kind); }
    }
    NothingWaits(c);
    Settled(c.books, 0, "");
    AllPhases(c.books.log);
    assert LoggedKind(c, 0, "") && LoggedKind(c, 1, "") && LoggedKind(c, 2, "") && LoggedKind(c, 3, "");
  }

  lemma ReportPopulated(c: Client)
    requires Inv(c) && |c.totals| > 0
    ensures Populated(c)
  {
    var setups := c.books.results[0];
    TotalAt(c.stage, c.totals, c.books.results, 0);
    forall i | 0 <= i < |setups| ensures setups[i].item.attempted <= 1 { assert ClaimOk(setups, c.next, i); }
    MergeAllAtMost(setups);
    Ids.AtMost(c.n, c.open);
    Ids.SubsetSize(c.took, c.open);
    Ids.SubsetSize(c.served, c.took);
  }

  /**
   Every interleaving of setup, holding and load goroutines: each index is claimed by one worker and
   attempted at most once, and what the process reports at the end adds up, phase by phase and kind
   by kind, with its log.
   */
  lemma LanTheorem(n: nat, streams: nat, workers: nat, steps: seq<Step>)
    requires streams >= 1 && Feasible(Init(n, streams, workers), steps)
    ensures var c := Final(Init(n, streams, workers), steps);
            && (forall w, v :: Distinct(c.workers, w, v))
            && (forall i :: ClaimOk(c.books.results[0], c.next, i))
            && (|c.totals| > 0 ==> Populated(c))
            && (c.stage == Reported ==> Accounted(c))
  {
    InitInv(n, streams, workers);
    RunInv(Init(n, streams, workers), steps);
    var c := Final(Init(n, streams, workers), steps);
    if |c.totals| > 0 { ReportPopulated(c); }
    if c.stage == Reported { ReportAccounted(c); }
  }
}
