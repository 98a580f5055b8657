/**
 The books of a LAN client process: one counter cell per connection or stream slot and phase, and
 one log file shared by all goroutines.  A failure is counted first and logged later, under the
 log's lock, so a row may be waiting while other goroutines count and log theirs.
 */
module LanBooks {
  import opened Basics
  import opened Tally
  import opened LanStats

  /** Phases: 0 setup, 1 holding, 2 warmup, 3 measurement. */
  const PHASES: nat := 4
  const MEASUREMENT: nat := 3

  datatype Cell = Cell(phase: nat, index: nat)
  datatype Row = Row(cell: Cell, kind: string)

  datatype Books = Books(
    results: seq<seq<Stats>>,
    waiting: map<Cell, string>,  // failures counted but not yet logged
    log: seq<Row>,
    issued: seq<Row>)            // every failure in the order of counting

  ghost predicate InBooks(results: seq<seq<Stats>>, cell: Cell) {
    cell.phase < |results| && cell.index < |results[cell.phase]|
  }

  /** `record` up to the log's lock. */
  ghost function RecordAt(b: Books, cell: Cell, error: Option<string>, elapsed: nat): Books
    requires InBooks(b.results, cell)
  {
    var after := Recorded(b.results[cell.phase][cell.index], error, elapsed, cell.phase == MEASUREMENT);
    var results := b.results[cell.phase := b.results[cell.phase][cell.index := after]];
    match error
    case None => b.(results := results)
    case Some(kind) => b.(results := results, waiting := b.waiting[cell := kind],
                          issued := b.issued + [Row(cell, kind)])
  }

  /** Writing one row under the lock. */
  ghost function LogAt(b: Books, cell: Cell): Books
    requires cell in b.waiting
  {
    b.(waiting := b.waiting - {cell}, log := b.log + [Row(cell, b.waiting[cell])])
  }

  // ------------------------------------------------------------------ counting

  ghost function CountKind(rows: seq<Row>, phase: nat, kind: string): nat {
    if rows == [] then 0
    else
      var last := rows[|rows| - 1];
      CountKind(rows[..|rows| - 1], phase, kind) + if last.cell.phase == phase && last.kind == kind then 1 else 0
  }

  ghost function CountPhase(rows: seq<Row>, phase: nat): nat {
    if rows == [] then 0
    else CountPhase(rows[..|rows| - 1], phase) + if rows[|rows| - 1].cell.phase == phase then 1 else 0
  }

  lemma CountPush(rows: seq<Row>, row: Row, phase: nat, kind: string)
    ensures CountKind(rows + [row], phase, kind) ==
              CountKind(rows, phase, kind) + if row.cell.phase == phase && row.kind == kind then 1 else 0
    ensures CountPhase(rows + [row], phase) == CountPhase(rows, phase) + if row.cell.phase == phase then 1 else 0
  {
    assert (rows + [row])[..|rows|] == rows;
  }

  lemma {:induction false} CountConcat(a: seq<Row>, b: seq<Row>, phase: nat, kind: string)
    ensures CountKind(a + b, phase, kind) == CountKind(a, phase, kind) + CountKind(b, phase, kind)
    ensures CountPhase(a + b, phase) == CountPhase(a, phase) + CountPhase(b, phase)
  {
    if b == [] {
      assert a + b == a;
    } else {
      var n := |b| - 1;
      assert (a + b)[..|a + b| - 1] == a + b[..n];
      CountConcat(a, b[..n], phase, kind);
    }
  }

  lemma CountSplit(rows: seq<Row>, i: nat, phase: nat, kind: string)
    requires i < |rows|
    ensures var rest, row := rows[..i] + rows[i + 1..], rows[i];
            && CountKind(rows, phase, kind) ==
                 CountKind(rest, phase, kind) + (if row.cell.phase == phase && row.kind == kind then 1 else 0)
            && CountPhase(rows, phase) == CountPhase(rest, phase) + (if row.cell.phase == phase then 1 else 0)
            && multiset(rows) == multiset(rest) + multiset{row}
  {
    var row := rows[i];
    assert rows == rows[..i] + [row] + rows[i + 1..];
    CountConcat(rows[..i] + [row], rows[i + 1..], phase, kind);
    CountConcat(rows[..i], rows[i + 1..], phase, kind);
    CountPush(rows[..i], row, phase, kind);
  }

  /** The order of rows does not matter to the counts. */
  lemma {:induction false} CountPermuted(a: seq<Row>, b: seq<Row>, phase: nat, kind: string)
    requires multiset(a) == multiset(b)
    ensures CountKind(a, phase, kind) == CountKind(b, phase, kind) && CountPhase(a, phase) == CountPhase(b, phase)
    decreases |a|
  {
    if a == [] {
      assert |multiset(b)| == 0;
    } else {
      var n := |a| - 1;
      var front, row := a[..n], a[n];
      assert a == front + [row];
      assert row in multiset(b);
      var i :| 0 <= i < |b| && b[i] == row;
      var rest := b[..i] + b[i + 1..];
      CountSplit(b, i, phase, kind);
      Cancel(multiset(front), multiset(rest), row);
      CountPermuted(front, rest, phase, kind);
    }
  }

  lemma Cancel<T>(x: multiset<T>, y: multiset<T>, e: T)
    requires x + multiset{e} == y + multiset{e}
    ensures x == y
  {
    assert x == x + multiset{e} - multiset{e};
    assert y == y + multiset{e} - multiset{e};
  }

  // ----------------------------------------------------------------- invariant

  ghost predicate CellOk(results: seq<seq<Stats>>, phase: nat, index: nat) {
    InBooks(results, Cell(phase, index)) ==> StatsOk(results[phase][index], phase == MEASUREMENT)
  }

  /** What is counted in a phase is what was issued in it, kind by kind. */
  ghost predicate KindOk(results: seq<seq<Stats>>, issued: seq<Row>, phase: nat, kind: string) {
    phase < |results| ==>
      && Get(MergeAll(results[phase]).item.kinds, kind) == CountKind(issued, phase, kind)
      && MergeAll(results[phase]).item.failed == CountPhase(issued, phase)
  }

  ghost function WaitingRows(waiting: map<Cell, string>): set<Row> {
    set cell | cell in waiting :: Row(cell, waiting[cell])
  }

  lemma InWaiting(waiting: map<Cell, string>, row: Row)
    ensures row in WaitingRows(waiting) <==> row.cell in waiting && waiting[row.cell] == row.kind
  {
    if row.cell in waiting && waiting[row.cell] == row.kind { assert row == Row(row.cell, waiting[row.cell]); }
  }

  lemma WaitingAdd(waiting: map<Cell, string>, cell: Cell, kind: string)
    requires cell !in waiting
    ensures WaitingRows(waiting[cell := kind]) == WaitingRows(waiting) + {Row(cell, kind)}
    ensures Row(cell, kind) !in WaitingRows(waiting)
  {
    var more, row := waiting[cell := kind], Row(cell, kind);
    forall r ensures r in WaitingRows(more) <==> r in WaitingRows(waiting) + {row} {
      InWaiting(more, r);
      InWaiting(waiting, r);
    }
    InWaiting(waiting, row);
  }

  /** Every issued row is in the log or still waiting, once. */
  ghost predicate LogOk(b: Books) {
    multiset(b.issued) == multiset(b.log) + multiset(WaitingRows(b.waiting))
  }

  ghost predicate BooksInv(b: Books) {
    && |b.results| == PHASES
    && (forall p, j :: CellOk(b.results, p, j))
    && (forall p, kind :: KindOk(b.results, b.issued, p, kind))
    && (forall row :: row in b.issued ==> InBooks(b.results, row.cell))
    && LogOk(b)
  }

  ghost predicate SameSizes(a: seq<seq<Stats>>, b: seq<seq<Stats>>) {
    |a| == |b| && forall p :: 0 <= p < |a| ==> |a[p]| == |b[p]|
  }

  lemma RecordSizes(b: Books, cell: Cell, error: Option<string>, elapsed: nat)
    requires InBooks(b.results, cell)
    ensures SameSizes(b.results, RecordAt(b, cell, error, elapsed).results)
    ensures forall p :: 0 <= p < |b.results| && p != cell.phase ==>
              RecordAt(b, cell, error, elapsed).results[p] == b.results[p]
  {
  }

  lemma RecordCells(b: Books, cell: Cell, error: Option<string>, elapsed: nat, p: nat, j: nat)
    requires InBooks(b.results, cell) && CellOk(b.results, p, j) && CellOk(b.results, cell.phase, cell.index)
    ensures CellOk(RecordAt(b, cell, error, elapsed).results, p, j)
  {
    RecordedOk(b.results[cell.phase][cell.index], error, elapsed, cell.phase == MEASUREMENT);
  }

  lemma RecordKinds(b: Books, cell: Cell, error: Option<string>, elapsed: nat, p: nat, kind: string)
    requires InBooks(b.results, cell) && KindOk(b.results, b.issued, p, kind)
    ensures KindOk(RecordAt(b, cell, error, elapsed).results, RecordAt(b, cell, error, elapsed).issued, p, kind)
  {
    if error.Some? { CountPush(b.issued, Row(cell, error.value), p, kind); }
    if p == cell.phase {
      var list := b.results[p];
      var after := Recorded(list[cell.index], error, elapsed, p == MEASUREMENT);
      MergeAllUpdate(list, cell.index, after, kind);
    }
  }

  lemma RecordLog(b: Books, cell: Cell, error: Option<string>, elapsed: nat)
    requires InBooks(b.results, cell) && cell !in b.waiting && LogOk(b)
    ensures LogOk(RecordAt(b, cell, error, elapsed))
  {
    if error.Some? {
      WaitingAdd(b.waiting, cell, error.value);
    }
  }

  lemma RecordInv(b: Books, cell: Cell, error: Option<string>, elapsed: nat)
    requires BooksInv(b) && InBooks(b.results, cell) && cell !in b.waiting
    ensures BooksInv(RecordAt(b, cell, error, elapsed))
  {
    var after := RecordAt(b, cell, error, elapsed);
    forall p, j ensures CellOk(after.results, p, j) {
      assert CellOk(b.results, p, j) && CellOk(b.results, cell.phase, cell.index);
      RecordCells(b, cell, error, elapsed, p, j);
    }
    forall p, kind ensures KindOk(after.results, after.issued, p, kind) {
      assert KindOk(b.results, b.issued, p, kind);
      RecordKinds(b, cell, error, elapsed, p, kind);
    }
    RecordLog(b, cell, error, elapsed);
    RecordRows(b, cell, error, elapsed);
  }

  lemma RecordRows(b: Books, cell: Cell, error: Option<string>, elapsed: nat)
    requires InBooks(b.results, cell) && forall row :: row in b.issued ==> InBooks(b.results, row.cell)
    ensures var after := RecordAt(b, cell, error, elapsed);
            forall row :: row in after.issued ==> InBooks(after.results, row.cell)
  {
    var after := RecordAt(b, cell, error, elapsed);
    RecordSizes(b, cell, error, elapsed);
    forall row | row in after.issued ensures InBooks(after.results, row.cell) {
      assert row in b.issued || row.cell == cell;
    }
  }

  lemma LogInv(b: Books, cell: Cell)
    requires BooksInv(b) && cell in b.waiting
    ensures BooksInv(LogAt(b, cell))
  {
    var after := LogAt(b, cell);
    WaitingAdd(after.waiting, cell, b.waiting[cell]);
    assert after.waiting[cell := b.waiting[cell]] == b.waiting;
    assert LogOk(after);
  }

  /** Once nothing waits, the log tells what every phase counted. */
  lemma Settled(b: Books, p: nat, kind: string)
    requires BooksInv(b) && b.waiting == map[] && p < PHASES
    ensures Get(MergeAll(b.results[p]).item.kinds, kind) == CountKind(b.log, p, kind)
    ensures MergeAll(b.results[p]).item.failed == CountPhase(b.log, p)
    ensures forall row :: row in b.log ==> InBooks(b.results, row.cell)
  {
    assert WaitingRows(b.waiting) == {};
    assert multiset(b.issued) == multiset(b.log);
    CountPermuted(b.issued, b.log, p, kind);
    assert KindOk(b.results, b.issued, p, kind);
    forall row | row in b.log ensures InBooks(b.results, row.cell) {
      assert row in multiset(b.issued);
    }
  }

  /** The log is as long as the failures of all phases. */
  lemma {:induction false} AllPhases(rows: seq<Row>)
    requires forall row :: row in rows ==> row.cell.phase < PHASES
    ensures |rows| == CountPhase(rows, 0) + CountPhase(rows, 1) + CountPhase(rows, 2) + CountPhase(rows, 3)
  {
    if rows != [] {
      var n := |rows| - 1;
      assert forall row :: row in rows[..n] ==> row in rows;
      assert rows[n] in rows;
      AllPhases(rows[..n]);
    }
  }
}
