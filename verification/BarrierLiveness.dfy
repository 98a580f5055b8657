/**
 The phase barrier gets through: no run is endless, none gets stuck before the controller has an
 answer, and without a fault the answer is a result.
 */
module BarrierLiveness {
  import opened Basics
  import opened PhaseBarrier
  import opened BarrierSafety
  import Ids
  import Tally

  // ---------------------------------------------------------------- termination

  /** A client's remaining moves and unread messages. */
  ghost function ClientWeight(c: Client, seen: nat): nat {
    5 * (6 - Rank(c.stage) + if c.exit.None? then 1 else 0)
      + if seen <= LogLength(c) then 4 * (LogLength(c) - seen) else 0
  }

  ghost function Weights(clients: seq<Client>, seen: seq<nat>): seq<nat>
    requires |seen| == |clients|
  {
    seq(|clients|, i requires 0 <= i < |clients| => ClientWeight(clients[i], seen[i]))
  }

  /** An unread line that makes the controller send a request weighs more. */
  ghost function EventWeight(e: Event): nat { if e == EvPrepared || e == EvReady then 3 else 1 }

  ghost function Unread(events: seq<Event>): nat {
    if events == [] then 0 else EventWeight(events[0]) + Unread(events[1..])
  }

  lemma {:induction false} UnreadPush(events: seq<Event>, e: Event)
    ensures Unread(events + [e]) == Unread(events) + EventWeight(e)
  {
    if events == [] {
      assert events + [e] == [e];
      assert [e][1..] == [];
    } else {
      assert (events + [e])[1..] == events[1..] + [e];
      UnreadPush(events[1..], e);
    }
  }

  ghost function Potential(st: State): nat
    requires Shape(st)
  {
    Tally.Sum(Weights(st.clients, st.seen)) + Unread(st.emitted[st.handled..]) + Owed(st)
  }

  /** What the supervisor may still print on its own. */
  ghost function Owed(st: State): nat
    requires Shape(st)
  {
    2 * (|st.commands| - st.taken) + if st.sup.status == Running then 2 else 0
  }

  /** What the lines printed by one step weigh. */
  lemma Printed(emitted: seq<Event>, events: seq<Event>, handled: nat)
    requires handled <= |emitted| && |events| <= 1
    ensures Unread((emitted + events)[handled..]) ==
              Unread(emitted[handled..]) + if events == [] then 0 else EventWeight(events[0])
  {
    if events == [] {
      assert emitted + events == emitted;
    } else {
      assert events == [events[0]];
      assert (emitted + events)[handled..] == emitted[handled..] + [events[0]];
      UnreadPush(emitted[handled..], events[0]);
    }
  }

  lemma WeightMoves(clients: seq<Client>, seen: seq<nat>, i: nat, c: Client, s: nat)
    requires |seen| == |clients| && i < |clients|
    ensures Tally.Sum(Weights(clients[i := c], seen[i := s])) + ClientWeight(clients[i], seen[i])
            == Tally.Sum(Weights(clients, seen)) + ClientWeight(c, s)
  {
    var before, after := Weights(clients, seen), Weights(clients[i := c], seen[i := s]);
    assert after == before[i := ClientWeight(c, s)];
    Tally.SumUpdate(before, i, ClientWeight(c, s));
  }

  /** One move of a client is worth more than the message it may write. */
  lemma MoveWeight(c: Client, d: Client, seen: nat)
    requires c.exit.None? && seen <= LogLength(c)
    requires (d == c.(stage := NextStage(c.stage)) && c.stage != ResultSent) || (d.stage == c.stage && d.exit.Some?)
    ensures seen <= LogLength(d) && ClientWeight(d, seen) < ClientWeight(c, seen)
  {
    LogGrows(c, d);
  }

  lemma ClientDecreases(st: State, step: Step)
    requires Shape(st) && Enabled(st, step) && (step.Advance? || step.ReadStart? || step.Leave?)
    ensures Shape(Apply(st, step)) && Potential(Apply(st, step)) < Potential(st)
  {
    var t, i := Apply(st, step), step.i;
    ShapeKept(st, step);
    assert SeenOk(st.clients, st.seen, i);
    MoveWeight(st.clients[i], t.clients[i], st.seen[i]);
    WeightMoves(st.clients, st.seen, i, t.clients[i], st.seen[i]);
    assert st.seen[i := st.seen[i]] == st.seen;
  }

  /** Handling a message prints at most one line and may only stop the supervisor. */
  lemma HandlePrints(n: nat, sup: Sup, i: nat, msg: Message)
    requires sup.status == Running
    ensures |OnClient(n, sup, i, msg).1| <= 1 && OnClient(n, sup, i, msg).0.status != Finished
  {
  }

  lemma MessageWeight(c: Client, seen: nat)
    requires seen < LogLength(c)
    ensures ClientWeight(c, seen + 1) + 4 == ClientWeight(c, seen)
  {
  }

  lemma MessageRead(clients: seq<Client>, seen: seq<nat>, i: nat)
    requires |seen| == |clients| && i < |clients| && seen[i] < LogLength(clients[i])
    ensures Tally.Sum(Weights(clients, seen[i := seen[i] + 1])) + 4 == Tally.Sum(Weights(clients, seen))
  {
    MessageWeight(clients[i], seen[i]);
    WeightMoves(clients, seen, i, clients[i], seen[i] + 1);
    assert clients[i := clients[i]] == clients;
  }

  lemma MessagePrints(n: nat, sup: Sup, i: nat, msg: Message, emitted: seq<Event>, handled: nat)
    requires sup.status == Running && handled <= |emitted|
    ensures Unread((emitted + OnClient(n, sup, i, msg).1)[handled..]) <= Unread(emitted[handled..]) + 3
  {
    HandlePrints(n, sup, i, msg);
    Printed(emitted, OnClient(n, sup, i, msg).1, handled);
  }

  lemma MessageDecreases(st: State, i: nat)
    requires Shape(st) && Enabled(st, FromClient(i))
    ensures Shape(Apply(st, FromClient(i))) && Potential(Apply(st, FromClient(i))) < Potential(st)
  {
    ShapeKept(st, FromClient(i));
    MessageRead(st.clients, st.seen, i);
    MessagePrints(|st.clients|, st.sup, i, MessageAt(st.clients[i], st.seen[i]), st.emitted, st.handled);
  }

  lemma ReadDecreases(st: State)
    requires Shape(st) && Enabled(st, ControllerReads)
    ensures Shape(Apply(st, ControllerReads)) && Potential(Apply(st, ControllerReads)) < Potential(st)
  {
    ShapeKept(st, ControllerReads);
    assert st.emitted[st.handled..] == [st.emitted[st.handled]] + st.emitted[st.handled + 1..];
  }

  /** One printed line is worth less than what is no longer owed. */
  lemma PrintPotential(st: State, t: State, e: Event)
    requires Shape(st) && Shape(t) && t.clients == st.clients && t.seen == st.seen && t.handled == st.handled
    requires t.emitted == st.emitted + [e] && EventWeight(e) == 1 && Owed(t) + 2 <= Owed(st)
    ensures Potential(t) < Potential(st)
  {
    Printed(st.emitted, [e], st.handled);
  }

  lemma PrintDecreases(st: State, step: Step)
    requires Shape(st) && Enabled(st, step) && (step.FromController? || step.Abort? || step.Finish?)
    ensures Shape(Apply(st, step)) && Potential(Apply(st, step)) < Potential(st)
  {
    var t := Apply(st, step);
    ShapeKept(st, step);
    var e := t.emitted[|st.emitted|];
    assert t.emitted == st.emitted + [e];
    PrintPotential(st, t, e);
  }

  lemma StepDecreases(st: State, step: Step)
    requires Shape(st) && Enabled(st, step)
    ensures Shape(Apply(st, step)) && Potential(Apply(st, step)) < Potential(st)
  {
    if step.Advance? || step.ReadStart? || step.Leave? { ClientDecreases(st, step); }
    else if step.FromClient? { MessageDecreases(st, step.i); }
    else if step.ControllerReads? { ReadDecreases(st); }
    else { PrintDecreases(st, step); }
  }

  lemma {:induction false} RunLength(st: State, steps: seq<Step>)
    requires Shape(st) && Feasible(st, steps)
    ensures |steps| + Potential(Final(st, steps)) <= Potential(st)
    decreases |steps|
  {
    if steps != [] {
      StepDecreases(st, steps[0]);
      RunLength(Apply(st, steps[0]), steps[1..]);
    }
  }

  lemma {:induction false} SumSame(xs: seq<nat>, w: nat)
    requires forall i :: 0 <= i < |xs| ==> xs[i] == w
    ensures Tally.Sum(xs) == |xs| * w
  {
    if xs != [] { SumSame(xs[1..], w); }
  }

  lemma InitPotential(n: nat)
    ensures Potential(Init(n)) == 35 * n + 2
  {
    var st := Init(n);
    SumSame(Weights(st.clients, st.seen), 35);
  }

  // ------------------------------------------------------------------ progress

  /** Everything the supervisor has read of a client is in its dictionaries. */
  ghost predicate Noted(book: Book, i: nat, c: Client, seen: nat, k: int) {
    0 <= k < seen && k < LogLength(c) ==>
      match MessageAt(c, k)
      case Prepared => i in book.prepared
      case Ready => i in book.ready
      case Measured => i in book.measured
      case ResultLine => i in book.results
      case Exit(_) => i in book.exited
  }

  ghost predicate NotedAll(book: Book, clients: seq<Client>, seen: seq<nat>, i: int) {
    0 <= i < |clients| && i < |seen| ==> forall k :: Noted(book, i, clients[i], seen[i], k)
  }

  /** A complete barrier has been announced. */
  ghost predicate Announced(n: nat, book: Book, emitted: seq<Event>) {
    n >= 1 ==>
      && (|book.prepared| == n ==> CountEv(emitted, EvPrepared) >= 1)
      && (|book.ready| == n ==> CountEv(emitted, EvReady) >= 1)
  }

  /** While the controller waits it has seen no final line. */
  ghost predicate StillOpen(controller: Controller, emitted: seq<Event>, handled: nat) {
    controller == Waiting ==> forall k :: 0 <= k < handled && k < |emitted| ==>
      emitted[k] != EvResult && emitted[k] != EvError
  }

  ghost predicate LiveInv(st: State) {
    && (forall i :: NotedAll(st.sup.book, st.clients, st.seen, i))
    && Announced(|st.clients|, st.sup.book, st.emitted)
    && (st.sup.status != Failed ==> st.taken <= |st.commands| && st.commands[..st.taken] == st.accepted)
    && StillOpen(st.controller, st.emitted, st.handled)
    && (st.sup.status == Failed ==> EvError in st.emitted)
  }

  lemma InitLive(n: nat)
    ensures LiveInv(Init(n))
  {
    var st := Init(n);
    forall i ensures NotedAll(st.sup.book, st.clients, st.seen, i) { }
  }

  lemma NotedGrows(sup: Sup, i: nat, c: Client, d: Client, seen: nat, k: int)
    requires Noted(sup.book, i, c, seen, k) && seen <= LogLength(c) <= LogLength(d)
    requires (forall j :: 0 <= j < LogLength(c) ==> MessageAt(c, j) == MessageAt(d, j))
    ensures Noted(sup.book, i, d, seen, k)
  {
  }

  lemma MoveLive(st: State, step: Step)
    requires Shape(st) && LiveInv(st) && Enabled(st, step) && (step.Advance? || step.ReadStart? || step.Leave?)
    ensures LiveInv(Apply(st, step))
  {
    var t := Apply(st, step);
    LogGrows(st.clients[step.i], t.clients[step.i]);
    forall i ensures NotedAll(t.sup.book, t.clients, t.seen, i) {
      assert NotedAll(st.sup.book, st.clients, st.seen, i) && SeenOk(st.clients, st.seen, i);
      if 0 <= i < |t.clients| {
        forall k ensures Noted(t.sup.book, i, t.clients[i], t.seen[i], k) {
          assert Noted(st.sup.book, i, st.clients[i], st.seen[i], k);
          NotedGrows(st.sup, i, st.clients[i], t.clients[i], st.seen[i], k);
        }
      }
    }
  }

  lemma NotedMessage(n: nat, sup: Sup, i: nat, j: nat, c: Client, seen: nat, msg: Message, k: int)
    requires Noted(sup.book, j, c, seen, k)
    ensures Noted(OnClient(n, sup, i, msg).0.book, j, c, seen, k)
  {
  }

  lemma NotedNext(n: nat, sup: Sup, i: nat, c: Client, seen: nat, k: int)
    requires seen < LogLength(c) && Noted(sup.book, i, c, seen, k)
    ensures Noted(OnClient(n, sup, i, MessageAt(c, seen)).0.book, i, c, seen + 1, k)
  {
  }

  lemma AnnouncedMessage(n: nat, sup: Sup, i: nat, msg: Message, emitted: seq<Event>)
    requires Announced(n, sup.book, emitted)
    ensures var (s, events) := OnClient(n, sup, i, msg); Announced(n, s.book, emitted + events)
  {
    var (s, events) := OnClient(n, sup, i, msg);
    if events == [] {
      assert emitted + events == emitted;
    } else {
      assert events == [events[0]];
      CountEvPush(emitted, events[0], EvPrepared);
      CountEvPush(emitted, events[0], EvReady);
    }
  }

  lemma MessageLive(st: State, i: nat)
    requires Shape(st) && LiveInv(st) && Enabled(st, FromClient(i))
    ensures LiveInv(Apply(st, FromClient(i)))
  {
    var n, msg, t := |st.clients|, MessageAt(st.clients[i], st.seen[i]), Apply(st, FromClient(i));
    AnnouncedMessage(n, st.sup, i, msg, st.emitted);
    forall j ensures NotedAll(t.sup.book, t.clients, t.seen, j) {
      assert NotedAll(st.sup.book, st.clients, st.seen, j);
      if 0 <= j < n {
        forall k ensures Noted(t.sup.book, j, t.clients[j], t.seen[j], k) {
          assert Noted(st.sup.book, j, st.clients[j], st.seen[j], k);
          if j == i { NotedNext(n, st.sup, i, st.clients[i], st.seen[i], k); }
          else { NotedMessage(n, st.sup, i, j, st.clients[j], st.seen[j], msg, k); }
        }
      }
    }
  }

  lemma AnnouncedPush(n: nat, book: Book, emitted: seq<Event>, e: Event)
    requires Announced(n, book, emitted)
    ensures Announced(n, book, emitted + [e])
  {
    CountEvPush(emitted, e, EvPrepared);
    CountEvPush(emitted, e, EvReady);
  }

  lemma AcceptedTaken(st: State, step: Step)
    requires Shape(st) && LiveInv(st) && Enabled(st, step) && (step.FromController? || step.Abort? || step.Finish?)
    ensures var t := Apply(st, step);
            t.sup.status != Failed ==> t.taken <= |t.commands| && t.commands[..t.taken] == t.accepted
  {
    if step.FromController? {
      assert st.commands[..st.taken + 1] == st.commands[..st.taken] + [st.commands[st.taken]];
    }
  }

  lemma PrintLive(st: State, step: Step)
    requires Shape(st) && LiveInv(st) && Enabled(st, step) && (step.FromController? || step.Abort? || step.Finish?)
    ensures LiveInv(Apply(st, step))
  {
    var t := Apply(st, step);
    var e := t.emitted[|st.emitted|];
    assert t.emitted == st.emitted + [e];
    AnnouncedPush(|st.clients|, st.sup.book, st.emitted, e);
    AcceptedTaken(st, step);
  }

  lemma ReadLive(st: State)
    requires Shape(st) && LiveInv(st) && Enabled(st, ControllerReads)
    ensures LiveInv(Apply(st, ControllerReads))
  {
    var t := Apply(st, ControllerReads);
    if st.sup.status != Failed { assert t.commands[..t.taken] == st.commands[..st.taken]; }
  }

  lemma StepLive(st: State, step: Step)
    requires Shape(st) && LiveInv(st) && Enabled(st, step)
    ensures LiveInv(Apply(st, step))
  {
    if step.Advance? || step.ReadStart? || step.Leave? { MoveLive(st, step); }
    else if step.FromClient? { MessageLive(st, step.i); }
    else if step.ControllerReads? { ReadLive(st); }
    else { PrintLive(st, step); }
  }

  /** A step without a fault: nobody aborts, clients end well, and a start line reaches all of them. */
  ghost predicate Faultless(n: nat, step: Step) {
    && step != Abort
    && (step.Leave? ==> step.code == 0)
    && (step.FromController? ==> step.written == n)
  }

  ghost predicate CanStep(st: State)
    requires Shape(st)
  {
    exists step :: Enabled(st, step) && Faultless(|st.clients|, step)
  }

  /** Client `i` can move on its own or read a start line. */
  ghost predicate CanMove(st: State, i: nat)
    requires Shape(st)
  {
    i < |st.clients| && st.clients[i].exit.None?
    && (st.clients[i].stage in {AwaitWarmup, AwaitMeasure} ==> LinesRead(st.clients[i]) < |st.lines[i]|)
  }

  lemma MoverSteps(st: State, i: nat)
    requires Shape(st) && CanMove(st, i)
    ensures CanStep(st)
  {
    var n, stage := |st.clients|, st.clients[i].stage;
    if stage in {AwaitWarmup, AwaitMeasure} {
      assert Enabled(st, ReadStart(i)) && Faultless(n, ReadStart(i));
    } else if stage == ResultSent {
      assert Enabled(st, Leave(i, 0)) && Faultless(n, Leave(i, 0));
    } else {
      assert Enabled(st, Advance(i)) && Faultless(n, Advance(i));
    }
  }

  /** A client of which everything was read and whose exit was not is still there. */
  lemma ReadAll(sup: Sup, i: nat, c: Client, seen: nat)
    requires Knows(sup, i, c, seen) && (forall k :: Noted(sup.book, i, c, seen, k)) && seen == LogLength(c)
    requires sup.status == Running
    ensures c.exit.Some? ==> i in sup.book.exited && Rank(c.stage) == 6
    ensures i !in sup.book.prepared ==> c.exit.None? && Rank(c.stage) == 0
    ensures i !in sup.book.ready ==> c.exit.None? && Rank(c.stage) <= 2
  {
    assert Noted(sup.book, i, c, seen, seen - 1) && Noted(sup.book, i, c, seen, 0) && Noted(sup.book, i, c, seen, 1);
  }

  /** Nothing is under way between the three parties. */
  ghost predicate Quiet(st: State) {
    && Inv(st) && LiveInv(st) && st.sup.status == Running && |st.sup.book.exited| < |st.clients|
    && st.handled == |st.emitted| && st.taken == |st.commands|
    && forall i :: 0 <= i < |st.clients| ==> st.seen[i] >= LogLength(st.clients[i])
  }

  lemma ReadAllOf(st: State, i: nat)
    requires Quiet(st) && i < |st.clients|
    ensures var c := st.clients[i];
            && (c.exit.Some? ==> i in st.sup.book.exited && Rank(c.stage) == 6)
            && (i !in st.sup.book.prepared ==> c.exit.None? && Rank(c.stage) == 0)
            && (i !in st.sup.book.ready ==> c.exit.None? && Rank(c.stage) <= 2)
            && st.lines[i] == st.starts
  {
    assert NotedAll(st.sup.book, st.clients, st.seen, i) && SeenOk(st.clients, st.seen, i);
    assert ClientInv(st.sup, st.clients, st.seen, st.lines, st.starts, i);
    ReadAll(st.sup, i, st.clients[i], st.seen[i]);
  }

  /** Requests and barriers of a quiet system. */
  lemma QuietBarriers(st: State)
    requires Quiet(st)
    ensures |st.starts| == 0 ==> |st.sup.book.prepared| != |st.clients|
    ensures |st.starts| == 1 ==> |st.sup.book.ready| != |st.clients|
  {
    assert st.commands[..st.taken] == st.commands && st.emitted[..st.handled] == st.emitted;
    assert st.commands == st.accepted;
    if |st.starts| == 1 {
      assert st.accepted == [Warmup];
      CountCmdPush([], Warmup, Measure);
      assert [] + [Warmup] == [Warmup];
    }
  }

  lemma QuietMover(st: State) returns (i: nat)
    requires Quiet(st)
    ensures CanMove(st, i)
  {
    var n := |st.clients|;
    var j := Ids.Missing(n, st.sup.book.exited.Keys);
    ReadAllOf(st, j);
    QuietBarriers(st);
    i := j;
    if !CanMove(st, j) {
      if st.clients[j].stage == AwaitWarmup {
        Ids.AtMost(n, st.sup.book.prepared);
        i := Ids.Missing(n, st.sup.book.prepared);
      } else {
        Ids.AtMost(n, st.sup.book.ready);
        assert ClientInv(st.sup, st.clients, st.seen, st.lines, st.starts, j);
        i := Ids.Missing(n, st.sup.book.ready);
      }
      ReadAllOf(st, i);
    }
  }

  /** As long as the controller has no answer, some step without a fault is possible. */
  lemma Progress(st: State)
    requires Inv(st) && LiveInv(st) && st.controller == Waiting
    ensures CanStep(st)
  {
    var n := |st.clients|;
    if st.handled < |st.emitted| {
      assert Enabled(st, ControllerReads) && Faultless(n, ControllerReads);
    } else if st.sup.status != Running {
      FinalLineRead(st);
    } else if |st.sup.book.exited| >= n {
      assert Enabled(st, Finish) && Faultless(n, Finish);
    } else if st.taken < |st.commands| {
      assert Enabled(st, FromController(0, n)) && Faultless(n, FromController(0, n));
    } else if i :| 0 <= i < n && st.seen[i] < LogLength(st.clients[i]) {
      assert Enabled(st, FromClient(i)) && Faultless(n, FromClient(i));
    } else {
      var i := QuietMover(st);
      MoverSteps(st, i);
    }
  }

  /** A supervisor that has ended has said so, and a controller that read it does not wait. */
  lemma FinalLineRead(st: State)
    requires Inv(st) && LiveInv(st) && st.handled == |st.emitted| && st.sup.status != Running
    ensures st.controller != Waiting
  {
  }

  // --------------------------------------------------------- runs without a fault

  /** A request never comes before its barrier is complete. */
  lemma NeverRefused(st: State)
    requires Inv(st) && st.taken < |st.commands|
    ensures MaySchedule(|st.clients|, st.sup.book, st.commands[st.taken])
  {
    var c := st.commands[st.taken];
    CountCmdTake(st.commands, st.taken, c);
    CountCmdPrefix(st.commands, st.taken + 1, c);
    CountEvPrefix(st.emitted, st.handled, EvPrepared);
    CountEvPrefix(st.emitted, st.handled, EvReady);
  }

  ghost predicate CleanExit(clients: seq<Client>, i: int) {
    0 <= i < |clients| && clients[i].exit.Some? ==> clients[i] == Client(ResultSent, Some(0))
  }

  ghost predicate Clean(st: State) {
    && Inv(st) && LiveInv(st) && st.sup.status != Failed && EvError !in st.emitted
    && forall i :: CleanExit(st.clients, i)
  }

  /** The exit of a client that ended well is read after its result. */
  lemma CleanMessage(n: nat, sup: Sup, i: nat, c: Client, seen: nat)
    requires seen < LogLength(c) && (forall k :: Noted(sup.book, i, c, seen, k))
    requires (c.exit.Some? ==> c == Client(ResultSent, Some(0)))
    requires sup.status == Running
    ensures var (s, events) := OnClient(n, sup, i, MessageAt(c, seen)); s.status == Running && EvError !in events
  {
    assert Noted(sup.book, i, c, seen, 3);
  }

  lemma CleanStatus(st: State, step: Step)
    requires Clean(st) && Enabled(st, step) && Faultless(|st.clients|, step)
    ensures Apply(st, step).sup.status != Failed && EvError !in Apply(st, step).emitted
  {
    if step.FromClient? {
      assert NotedAll(st.sup.book, st.clients, st.seen, step.i) && CleanExit(st.clients, step.i);
      CleanMessage(|st.clients|, st.sup, step.i, st.clients[step.i], st.seen[step.i]);
    } else if step.FromController? {
      NeverRefused(st);
    }
  }

  lemma CleanExits(st: State, step: Step, i: int)
    requires Shape(st) && Enabled(st, step) && Faultless(|st.clients|, step) && CleanExit(st.clients, i)
    ensures CleanExit(Apply(st, step).clients, i)
  {
  }

  lemma CleanStep(st: State, step: Step)
    requires Clean(st) && Enabled(st, step) && Faultless(|st.clients|, step)
    ensures Clean(Apply(st, step))
  {
    StepInv(st, step);
    StepLive(st, step);
    CleanStatus(st, step);
    var clients := Apply(st, step).clients;
    forall i ensures CleanExit(clients, i) {
      assert CleanExit(st.clients, i);
      CleanExits(st, step, i);
    }
  }

  ghost predicate FaultlessRun(n: nat, steps: seq<Step>) { forall i :: 0 <= i < |steps| ==> Faultless(n, steps[i]) }

  /** One step into a run without a fault. */
  lemma CleanInto(st: State, steps: seq<Step>) returns (next: State)
    requires steps != [] && Clean(st) && Feasible(st, steps) && FaultlessRun(|st.clients|, steps)
    ensures Clean(next) && Feasible(next, steps[1..]) && FaultlessRun(|next.clients|, steps[1..])
    ensures |next.clients| == |st.clients|
    ensures Final(st, steps) == Final(next, steps[1..])
  {
    CleanStep(st, steps[0]);
    next := Apply(st, steps[0]);
    SameCrowd(st, steps[0]);
  }

  lemma SameCrowd(st: State, step: Step)
    requires Shape(st) && Enabled(st, step)
    ensures |Apply(st, step).clients| == |st.clients|
  {
  }

  lemma {:induction false} CleanRun(st: State, steps: seq<Step>)
    requires Clean(st) && Feasible(st, steps) && FaultlessRun(|st.clients|, steps)
    ensures Clean(Final(st, steps)) && |Final(st, steps).clients| == |st.clients|
    decreases |steps|
  {
    if steps != [] {
      var next := CleanInto(st, steps);
      CleanRun(next, steps[1..]);
    }
  }

  lemma {:induction false} LiveRun(st: State, steps: seq<Step>)
    requires Inv(st) && LiveInv(st) && Feasible(st, steps)
    ensures Inv(Final(st, steps)) && LiveInv(Final(st, steps))
    decreases |steps|
  {
    if steps != [] {
      StepInv(st, steps[0]);
      StepLive(st, steps[0]);
      LiveRun(Apply(st, steps[0]), steps[1..]);
    }
  }

  /** Every run is short, and it cannot get stuck before the controller has an answer. */
  lemma LivenessTheorem(n: nat, steps: seq<Step>)
    requires Feasible(Init(n), steps)
    ensures |steps| <= 35 * n + 2
    ensures !CanStep(Final(Init(n), steps)) ==> Final(Init(n), steps).controller != Waiting
  {
    InitPotential(n);
    RunLength(Init(n), steps);
    InitInv(n);
    InitLive(n);
    LiveRun(Init(n), steps);
    if Final(Init(n), steps).controller == Waiting { Progress(Final(Init(n), steps)); }
  }

  /** Without a fault the answer is a result, unless there is no client at all. */
  lemma CompletionTheorem(n: nat, steps: seq<Step>)
    requires Feasible(Init(n), steps) && FaultlessRun(n, steps)
    ensures n >= 1 ==> Final(Init(n), steps).controller != Raised
    ensures !CanStep(Final(Init(n), steps)) ==> Final(Init(n), steps).controller == if n >= 1 then Succeeded else Raised
  {
    InitInv(n);
    InitLive(n);
    assert Clean(Init(n));
    CleanRun(Init(n), steps);
    LivenessTheorem(n, steps);
    var st := Final(Init(n), steps);
    if st.controller == Succeeded {
      var j :| 0 <= j < st.handled <= |st.emitted| && st.emitted[j] == EvMeasured;
    }
  }

  /** The run with no client at all. */
  lemma NoClientsRaise()
    ensures var steps := [Finish, ControllerReads];
            Feasible(Init(0), steps) && FaultlessRun(0, steps) && Final(Init(0), steps).controller == Raised
  {
    var st := Init(0);
    ShapeKept(st, Finish);
    var t := Apply(st, Finish);
    assert t.emitted == [EvResult];
    ShapeKept(t, ControllerReads);
    assert [Finish, ControllerReads][1..] == [ControllerReads] && [ControllerReads][1..] == [];
  }
}
