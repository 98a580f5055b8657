/** Safety of the phase barrier over every run of controller, supervisor and clients. */
module BarrierSafety {
  import opened Basics
  import opened PhaseBarrier
  import Ids

  // ------------------------------------------------------------------ counting

  ghost function CountEv(events: seq<Event>, e: Event): nat {
    if events == [] then 0 else CountEv(events[..|events| - 1], e) + if events[|events| - 1] == e then 1 else 0
  }

  ghost function CountCmd(commands: seq<Command>, c: Command): nat {
    if commands == [] then 0 else CountCmd(commands[..|commands| - 1], c) + if commands[|commands| - 1] == c then 1
    else 0
  }

  lemma CountCmdPush(commands: seq<Command>, x: Command, c: Command)
    ensures CountCmd(commands + [x], c) == CountCmd(commands, c) + if x == c then 1 else 0
  {
    assert (commands + [x])[..|commands|] == commands;
  }

  lemma CountEvPush(events: seq<Event>, x: Event, e: Event)
    ensures CountEv(events + [x], e) == CountEv(events, e) + if x == e then 1 else 0
  {
    assert (events + [x])[..|events|] == events;
  }

  lemma CountEvTake(events: seq<Event>, k: nat, e: Event)
    requires k < |events|
    ensures CountEv(events[..k + 1], e) == CountEv(events[..k], e) + if events[k] == e then 1 else 0
  {
    assert events[..k + 1] == events[..k] + [events[k]];
    CountEvPush(events[..k], events[k], e);
  }

  lemma CountCmdTake(commands: seq<Command>, k: nat, c: Command)
    requires k < |commands|
    ensures CountCmd(commands[..k + 1], c) == CountCmd(commands[..k], c) + if commands[k] == c then 1 else 0
  {
    assert commands[..k + 1] == commands[..k] + [commands[k]];
    CountCmdPush(commands[..k], commands[k], c);
  }

  lemma {:induction false} CountEvPrefix(events: seq<Event>, k: nat, e: Event)
    requires k <= |events|
    ensures CountEv(events[..k], e) <= CountEv(events, e)
    decreases |events| - k
  {
    if k < |events| {
      CountEvTake(events, k, e);
      CountEvPrefix(events, k + 1, e);
    } else {
      assert events[..k] == events;
    }
  }

  lemma {:induction false} CountCmdPrefix(commands: seq<Command>, k: nat, c: Command)
    requires k <= |commands|
    ensures CountCmd(commands[..k], c) <= CountCmd(commands, c)
    decreases |commands| - k
  {
    if k < |commands| {
      CountCmdTake(commands, k, c);
      CountCmdPrefix(commands, k + 1, c);
    } else {
      assert commands[..k] == commands;
    }
  }

  // ----------------------------------------------------------------- invariant

  /** What the supervisor's dictionaries say about one client. */
  ghost predicate Knows(sup: Sup, i: nat, c: Client, seen: nat) {
    && seen <= LogLength(c)
    && (i in sup.book.prepared ==> Rank(c.stage) >= 1 && seen >= 1)
    && (i in sup.book.ready ==> Rank(c.stage) >= 3 && seen >= 2)
    && (i in sup.book.measured ==> Rank(c.stage) >= 5 && seen >= 3)
    && (Rank(c.stage) >= 5 && seen >= 3 ==> i in sup.book.measured)
    && (i in sup.book.results ==> Rank(c.stage) >= 6 && seen >= 4)
    && (i in sup.book.exited ==>
         c.exit == Some(sup.book.exited[i]) && (sup.status != Failed ==>
           sup.book.exited[i] == 0 && i in sup.book.results))
  }

  ghost predicate SupInv(n: nat, book: Book) {
    && (forall i :: i in book.prepared ==> i < n)
    && (forall i :: i in book.ready ==> i < n)
    && (forall i :: i in book.measured ==> i < n)
    && (forall i :: i in book.exited ==> i < n)
  }

  /** Each barrier event is printed at most once, and only when its barrier is complete. */
  ghost predicate EventInv(n: nat, book: Book, emitted: seq<Event>) {
    && CountEv(emitted, EvPrepared) <= (if |book.prepared| == n then 1 else 0)
    && CountEv(emitted, EvReady) <= (if |book.ready| == n then 1 else 0)
    && CountEv(emitted, EvMeasured) <= (if |book.measured| == n then 1 else 0)
    && (n >= 1 && |book.measured| == n ==> EvMeasured in emitted)
    && (n == 0 ==> EvMeasured !in emitted)
  }

  /** The controller sends one request per barrier event it has read. */
  ghost predicate CommandInv(emitted: seq<Event>, handled: nat, commands: seq<Command>) {
    && handled <= |emitted|
    && CountCmd(commands, Warmup) == CountEv(emitted[..handled], EvPrepared)
    && CountCmd(commands, Measure) == CountEv(emitted[..handled], EvReady)
  }

  /** The supervisor schedules at most once per request, and only behind a complete barrier. */
  ghost predicate AcceptInv(n: nat, book: Book, commands: seq<Command>, taken: nat, accepted: seq<Command>) {
    && taken <= |commands|
    && CountCmd(accepted, Warmup) <= CountCmd(commands[..taken], Warmup)
    && CountCmd(accepted, Measure) <= CountCmd(commands[..taken], Measure)
    && accepted <= [Warmup, Measure]
    && (|accepted| >= 1 ==> |book.prepared| == n)
    && (|accepted| >= 2 ==> |book.ready| == n)
  }

  /** What was written to a client is what was scheduled, except for the last line of a failed supervisor. */
  ghost predicate LineInv(c: Client, lines: seq<int>, starts: seq<int>, status: Status) {
    && LinesRead(c) <= |lines|
    && lines <= starts
    && (status != Failed ==> lines == starts)
  }

  ghost predicate ClientInv(sup: Sup, clients: seq<Client>, seen: seq<nat>, lines: seq<seq<int>>, starts: seq<int>,
                            i: int) {
    0 <= i < |clients| && i < |seen| && i < |lines| ==>
      Knows(sup, i, clients[i], seen[i]) && LineInv(clients[i], lines[i], starts, sup.status)
  }

  ghost predicate Scheduled(emitted: seq<Event>, k: nat) {
    exists j, start :: 0 <= j < k <= |emitted| && emitted[j] == EvScheduled(Measure, start)
  }

  ghost predicate MeasuredBefore(emitted: seq<Event>, k: nat) {
    exists j :: 0 <= j < k <= |emitted| && emitted[j] == EvMeasured
  }

  /** With clients, a result is printed only after the end of their measurement. */
  ghost predicate ResultsLast(n: nat, emitted: seq<Event>) {
    forall k :: 0 <= k < |emitted| && emitted[k] == EvResult ==> n == 0 || MeasuredBefore(emitted, k)
  }

  /** A measurement result is printed only after its start was printed, and failures are printed. */
  ghost predicate OrderInv(st: State) {
    && Ordered(st.emitted)
    && (st.sup.status != Failed && |st.accepted| >= 2 ==> Scheduled(st.emitted, |st.emitted|))
    && (st.windowOpen <==> Scheduled(st.emitted, st.handled))
    && (st.windowClosed <==> MeasuredBefore(st.emitted, st.handled))
    && ResultsLast(|st.clients|, st.emitted)
    && (st.controller == Raised ==> EvError in st.emitted || |st.clients| == 0)
    && (st.controller == Succeeded ==> EvResult in st.emitted && MeasuredBefore(st.emitted, st.handled))
    && (EvResult in st.emitted <==> st.sup.status == Finished)
    && (st.sup.status == Finished ==> |st.sup.book.exited| >= |st.clients|)
  }

  ghost predicate Inv(st: State) {
    var n := |st.clients|;
    && Shape(st)
    && (forall i :: ClientInv(st.sup, st.clients, st.seen, st.lines, st.starts, i))
    && SupInv(n, st.sup.book)
    && EventInv(n, st.sup.book, st.emitted)
    && CommandInv(st.emitted, st.handled, st.commands)
    && AcceptInv(n, st.sup.book, st.commands, st.taken, st.accepted)
    && OrderInv(st)
  }

  lemma InitInv(n: nat)
    ensures Inv(Init(n))
  {
  }

  // ------------------------------------------------------------------- steps

  /** A client that moves keeps what the supervisor knows of it. */
  lemma MoveKept(sup: Sup, i: nat, c: Client, d: Client, seen: nat, lines: seq<int>, starts: seq<int>)
    requires Knows(sup, i, c, seen) && LineInv(c, lines, starts, sup.status)
    requires c.exit.None? && (d == c.(stage := NextStage(c.stage)) || (d.stage == c.stage && d.exit.Some?))
    requires c.stage in {AwaitWarmup, AwaitMeasure} && d.stage != c.stage ==> LinesRead(c) < |lines|
    ensures Knows(sup, i, d, seen) && LineInv(d, lines, starts, sup.status) && seen <= LogLength(d)
  {
    LogGrows(c, d);
  }

  lemma ClientMoves(st: State, step: Step)
    requires Inv(st) && Enabled(st, step) && (step.Advance? || step.ReadStart? || step.Leave?)
    ensures Inv(Apply(st, step))
  {
    var t, i := Apply(st, step), step.i;
    assert ClientInv(st.sup, st.clients, st.seen, st.lines, st.starts, i);
    MoveKept(st.sup, i, st.clients[i], t.clients[i], st.seen[i], st.lines[i], st.starts);
    forall j ensures ClientInv(t.sup, t.clients, t.seen, t.lines, t.starts, j) {
      assert ClientInv(st.sup, st.clients, st.seen, st.lines, st.starts, j);
    }
    ShapeKept(st, step);
    assert OrderInv(t);
  }

  lemma SetGrows(n: nat, ids: set<nat>, i: nat)
    requires (forall b :: b in ids ==> b < n) && i < n && i !in ids
    ensures |ids| < n && |ids + {i}| <= n
  {
    Ids.AtMost(n, ids + {i});
  }

  /** Where each message sits in a client's log. */
  lemma LogAt(c: Client, k: nat)
    requires k < LogLength(c)
    ensures MessageAt(c, k) == Prepared ==> k == 0 && Rank(c.stage) >= 1
    ensures MessageAt(c, k) == Ready ==> k == 1 && Rank(c.stage) >= 3
    ensures MessageAt(c, k) == Measured ==> k == 2 && Rank(c.stage) >= 5
    ensures MessageAt(c, k) == ResultLine ==> Rank(c.stage) >= 6
    ensures MessageAt(c, k).Exit? ==> c.exit == Some(MessageAt(c, k).code)
  {
  }

  lemma FromClientKnows(n: nat, sup: Sup, i: nat, c: Client, seen: nat)
    requires Knows(sup, i, c, seen) && seen < LogLength(c) && sup.status == Running
    ensures Knows(OnClient(n, sup, i, MessageAt(c, seen)).0, i, c, seen + 1)
  {
    LogAt(c, seen);
  }

  lemma FromClientSup(n: nat, sup: Sup, i: nat, msg: Message)
    requires SupInv(n, sup.book) && i < n
    ensures var s := OnClient(n, sup, i, msg).0;
            SupInv(n, s.book) && |sup.book.prepared| <= |s.book.prepared| <= n
            && |sup.book.ready| <= |s.book.ready| <= n
  {
    Ids.AtMost(n, sup.book.prepared);
    Ids.AtMost(n, sup.book.ready);
    Ids.AtMost(n, sup.book.prepared + {i});
    Ids.AtMost(n, sup.book.ready + {i});
    Ids.SubsetSize(sup.book.prepared, sup.book.prepared + {i});
    Ids.SubsetSize(sup.book.ready, sup.book.ready + {i});
  }

  lemma FromClientEvents(n: nat, sup: Sup, i: nat, c: Client, seen: nat, emitted: seq<Event>)
    requires SupInv(n, sup.book) && i < n && Knows(sup, i, c, seen) && seen < LogLength(c)
    requires EventInv(n, sup.book, emitted)
    ensures var (s, events) := OnClient(n, sup, i, MessageAt(c, seen)); EventInv(n, s.book, emitted + events)
  {
    LogAt(c, seen);
    var (s, events) := OnClient(n, sup, i, MessageAt(c, seen));
    if MessageAt(c, seen) == Prepared { SetGrows(n, sup.book.prepared, i); }
    if MessageAt(c, seen) == Ready { SetGrows(n, sup.book.ready, i); }
    if MessageAt(c, seen) == Measured { SetGrows(n, sup.book.measured, i); }
    if events == [] {
      assert emitted + events == emitted;
    } else {
      assert events == [events[0]];
      CountEvPush(emitted, events[0], EvPrepared);
      CountEvPush(emitted, events[0], EvReady);
      CountEvPush(emitted, events[0], EvMeasured);
    }
  }

  lemma PrefixKept(emitted: seq<Event>, events: seq<Event>, handled: nat, commands: seq<Command>)
    requires CommandInv(emitted, handled, commands)
    ensures CommandInv(emitted + events, handled, commands)
  {
    assert (emitted + events)[..handled] == emitted[..handled];
  }

  lemma ScheduledKept(emitted: seq<Event>, events: seq<Event>, k: nat)
    requires k <= |emitted|
    ensures Scheduled(emitted, k) <==> Scheduled(emitted + events, k)
  {
    if Scheduled(emitted, k) {
      var j, start :| 0 <= j < k <= |emitted| && emitted[j] == EvScheduled(Measure, start);
      assert (emitted + events)[j] == EvScheduled(Measure, start);
    }
    if Scheduled(emitted + events, k) {
      var j, start :| 0 <= j < k <= |emitted + events| && (emitted + events)[j] == EvScheduled(Measure, start);
      assert emitted[j] == EvScheduled(Measure, start);
    }
  }

  lemma ScheduledLater(emitted: seq<Event>, k: nat, l: nat)
    requires k <= l <= |emitted| && Scheduled(emitted, k)
    ensures Scheduled(emitted, l)
  {
    var j, start :| 0 <= j < k <= |emitted| && emitted[j] == EvScheduled(Measure, start);
    assert 0 <= j < l <= |emitted|;
  }

  // ------------------------------------------------ what the other steps keep

  /** Printing anything but a barrier event. */
  lemma PrintOther(n: nat, sup: Sup, emitted: seq<Event>, e: Event)
    requires EventInv(n, sup.book, emitted) && e != EvPrepared && e != EvReady && e != EvMeasured
    ensures EventInv(n, sup.book, emitted + [e])
  {
    CountEvPush(emitted, e, EvPrepared);
    CountEvPush(emitted, e, EvReady);
    CountEvPush(emitted, e, EvMeasured);
  }

  ghost predicate Ordered(emitted: seq<Event>) {
    forall k :: 0 <= k < |emitted| && emitted[k] == EvMeasured ==> Scheduled(emitted, k)
  }

  lemma OrderedPush(emitted: seq<Event>, events: seq<Event>)
    requires Ordered(emitted) && |events| <= 1
    requires EvMeasured in events ==> Scheduled(emitted, |emitted|)
    ensures Ordered(emitted + events)
  {
    var all := emitted + events;
    forall k | 0 <= k < |all| && all[k] == EvMeasured ensures Scheduled(all, k) {
      if k < |emitted| {
        assert emitted[k] == EvMeasured;
      } else {
        assert events[k - |emitted|] == EvMeasured;
      }
      ScheduledKept(emitted, events, k);
    }
  }

  lemma MeasuredKept(emitted: seq<Event>, events: seq<Event>, k: nat)
    requires k <= |emitted|
    ensures MeasuredBefore(emitted, k) <==> MeasuredBefore(emitted + events, k)
  {
    if MeasuredBefore(emitted, k) {
      var j :| 0 <= j < k <= |emitted| && emitted[j] == EvMeasured;
      assert (emitted + events)[j] == EvMeasured;
    }
    if MeasuredBefore(emitted + events, k) {
      var j :| 0 <= j < k <= |emitted + events| && (emitted + events)[j] == EvMeasured;
      assert emitted[j] == EvMeasured;
    }
  }

  lemma ResultsPush(n: nat, emitted: seq<Event>, events: seq<Event>)
    requires ResultsLast(n, emitted) && |events| <= 1
    requires EvResult in events ==> n == 0 || EvMeasured in emitted
    ensures ResultsLast(n, emitted + events)
  {
    var all := emitted + events;
    forall k | 0 <= k < |all| && all[k] == EvResult ensures n == 0 || MeasuredBefore(all, k) {
      if k < |emitted| {
        assert emitted[k] == EvResult;
        MeasuredKept(emitted, events, k);
      } else {
        assert events[k - |emitted|] == EvResult;
        if n > 0 {
          var j :| 0 <= j < |emitted| && emitted[j] == EvMeasured;
          assert all[j] == EvMeasured;
        }
      }
    }
  }

  lemma MeasuredTake(emitted: seq<Event>, k: nat)
    requires k < |emitted|
    ensures MeasuredBefore(emitted, k + 1) <==> MeasuredBefore(emitted, k) || emitted[k] == EvMeasured
  {
    if MeasuredBefore(emitted, k) {
      var j :| 0 <= j < k <= |emitted| && emitted[j] == EvMeasured;
      assert 0 <= j < k + 1 <= |emitted|;
    }
    if MeasuredBefore(emitted, k + 1) && emitted[k] != EvMeasured {
      var j :| 0 <= j < k + 1 <= |emitted| && emitted[j] == EvMeasured;
      assert 0 <= j < k <= |emitted|;
    }
  }

  lemma ScheduledPush(emitted: seq<Event>, start: int)
    ensures Scheduled(emitted + [EvScheduled(Measure, start)], |emitted| + 1)
  {
    assert (emitted + [EvScheduled(Measure, start)])[|emitted|] == EvScheduled(Measure, start);
  }

  lemma ScheduledTake(emitted: seq<Event>, k: nat)
    requires k < |emitted|
    ensures Scheduled(emitted, k + 1) <==>
              Scheduled(emitted, k) || (emitted[k].EvScheduled? && emitted[k].command == Measure)
  {
    if Scheduled(emitted, k) { ScheduledLater(emitted, k, k + 1); }
    if emitted[k].EvScheduled? && emitted[k].command == Measure {
      assert emitted[k] == EvScheduled(Measure, emitted[k].start);
    }
    if Scheduled(emitted, k + 1) {
      var j, start :| 0 <= j < k + 1 <= |emitted| && emitted[j] == EvScheduled(Measure, start);
      if j < k { assert Scheduled(emitted, k); }
    }
  }

  // ---------------------------------------------------------- one client event

  lemma KnowsOther(n: nat, sup: Sup, i: nat, msg: Message, j: nat, c: Client, seen: nat)
    requires Knows(sup, j, c, seen) && i != j && sup.status == Running
    ensures Knows(OnClient(n, sup, i, msg).0, j, c, seen)
  {
  }

  /** A client event prints at most one line, and `measured` only behind two start lines. */
  lemma FromClientPrints(n: nat, sup: Sup, i: nat, c: Client, seen: nat, lines: seq<int>, starts: seq<int>)
    requires seen < LogLength(c) && sup.status == Running && LineInv(c, lines, starts, sup.status)
    ensures var (s, events) := OnClient(n, sup, i, MessageAt(c, seen));
            && |events| <= 1 && EvResult !in events && s.status != Finished
            && (EvMeasured in events ==> |starts| >= 2)
  {
    LogAt(c, seen);
  }

  lemma FromClientOrder(st: State, i: nat)
    requires Inv(st) && Enabled(st, FromClient(i))
    ensures OrderInv(Apply(st, FromClient(i)))
  {
    var (sup, events) := OnClient(|st.clients|, st.sup, i, MessageAt(st.clients[i], st.seen[i]));
    assert ClientInv(st.sup, st.clients, st.seen, st.lines, st.starts, i);
    FromClientPrints(|st.clients|, st.sup, i, st.clients[i], st.seen[i], st.lines[i], st.starts);
    OrderedPush(st.emitted, events);
    ResultsPush(|st.clients|, st.emitted, events);
    MeasuredKept(st.emitted, events, st.handled);
    ScheduledKept(st.emitted, events, st.handled);
    ScheduledKept(st.emitted, events, |st.emitted|);
    if Scheduled(st.emitted, |st.emitted|) {
      ScheduledLater(st.emitted + events, |st.emitted|, |st.emitted + events|);
    }
  }

  lemma FromClientInv(st: State, i: nat)
    requires Inv(st) && Enabled(st, FromClient(i))
    ensures Inv(Apply(st, FromClient(i)))
  {
    var n := |st.clients|;
    var msg := MessageAt(st.clients[i], st.seen[i]);
    var (sup, events) := OnClient(n, st.sup, i, msg);
    var t := Apply(st, FromClient(i));
    assert ClientInv(st.sup, st.clients, st.seen, st.lines, st.starts, i);
    FromClientKnows(n, st.sup, i, st.clients[i], st.seen[i]);
    FromClientSup(n, st.sup, i, msg);
    FromClientEvents(n, st.sup, i, st.clients[i], st.seen[i], st.emitted);
    PrefixKept(st.emitted, events, st.handled, st.commands);
    FromClientOrder(st, i);
    ShapeKept(st, FromClient(i));
    forall j ensures ClientInv(t.sup, t.clients, t.seen, t.lines, t.starts, j) {
      assert ClientInv(st.sup, st.clients, st.seen, st.lines, st.starts, j);
      if 0 <= j < n && j != i { KnowsOther(n, st.sup, i, msg, j, st.clients[j], st.seen[j]); }
    }
  }

  // ------------------------------------------------------------ control request

  /** The next accepted request is the one the protocol expects. */
  lemma AcceptNext(n: nat, sup: Sup, emitted: seq<Event>, handled: nat, commands: seq<Command>, taken: nat,
                   accepted: seq<Command>)
    requires EventInv(n, sup.book, emitted) && CommandInv(emitted, handled, commands)
    requires AcceptInv(n, sup.book, commands, taken, accepted)
    requires taken < |commands| && MaySchedule(n, sup.book, commands[taken])
    requires commands[taken] == Measure ==> |accepted| >= 1
    ensures AcceptInv(n, sup.book, commands, taken + 1, accepted + [commands[taken]])
  {
    var c := commands[taken];
    CountCmdTake(commands, taken, Warmup);
    CountCmdTake(commands, taken, Measure);
    CountCmdPush(accepted, c, Warmup);
    CountCmdPush(accepted, c, Measure);
    CountCmdPrefix(commands, taken + 1, Warmup);
    CountCmdPrefix(commands, taken + 1, Measure);
    CountEvPrefix(emitted, handled, EvPrepared);
    CountEvPrefix(emitted, handled, EvReady);
    AcceptedShape(accepted, c);
  }

  lemma AcceptedShape(accepted: seq<Command>, c: Command)
    requires accepted <= [Warmup, Measure] && CountCmd(accepted + [c], Warmup) <= 1
    requires CountCmd(accepted + [c], Measure) <= 1
    requires c == Measure ==> |accepted| >= 1
    ensures accepted + [c] <= [Warmup, Measure]
  {
    CountCmdPush(accepted, c, c);
    if |accepted| >= 1 {
      CountCmdTake(accepted, 0, Warmup);
      CountCmdPrefix(accepted, 1, Warmup);
    }
  }

  lemma RefuseNext(n: nat, sup: Sup, commands: seq<Command>, taken: nat, accepted: seq<Command>)
    requires AcceptInv(n, sup.book, commands, taken, accepted) && taken < |commands|
    ensures AcceptInv(n, sup.book, commands, taken + 1, accepted)
  {
    CountCmdTake(commands, taken, Warmup);
    CountCmdTake(commands, taken, Measure);
  }

  /** A complete `ready` barrier means the warmup line was written. */
  lemma ReadyMeansWarm(st: State)
    requires Inv(st) && |st.sup.book.ready| == |st.clients| >= 1
    ensures |st.accepted| >= 1
  {
    Ids.Pigeonhole(|st.clients|, st.sup.book.ready, 0);
    assert ClientInv(st.sup, st.clients, st.seen, st.lines, st.starts, 0);
  }

  /** The supervisor prints `e` and moves to `status`: what does not depend on the request. */
  lemma PrintOrder(st: State, t: State, e: Event)
    requires Inv(st) && st.sup.status == Running && t.emitted == st.emitted + [e] && e != EvMeasured
    requires t.handled == st.handled && t.windowOpen == st.windowOpen && t.windowClosed == st.windowClosed
    requires t.controller == st.controller && |t.clients| == |st.clients|
    requires e == EvResult ==> |st.clients| == 0 || EvMeasured in st.emitted
    requires t.sup == st.sup.(status := t.sup.status)
    requires t.sup.status == Finished <==> e == EvResult
    requires t.sup.status == Finished ==> |st.sup.book.exited| >= |st.clients|
    requires t.sup.status != Failed && |t.accepted| >= 2 ==>
               |st.accepted| >= 2 || (e.EvScheduled? && e.command == Measure)
    ensures OrderInv(t)
  {
    OrderedPush(st.emitted, [e]);
    ResultsPush(|st.clients|, st.emitted, [e]);
    MeasuredKept(st.emitted, [e], st.handled);
    ScheduledKept(st.emitted, [e], st.handled);
    ScheduledKept(st.emitted, [e], |st.emitted|);
    if Scheduled(st.emitted, |st.emitted|) { ScheduledLater(t.emitted, |st.emitted|, |t.emitted|); }
    if e.EvScheduled? && e.command == Measure { ScheduledPush(st.emitted, e.start); }
  }

  lemma KnowsFailed(sup: Sup, status: Status, i: nat, c: Client, seen: nat)
    requires Knows(sup, i, c, seen) && sup.status == Running
    ensures Knows(sup.(status := status), i, c, seen)
  {
  }

  lemma LinesWritten(c: Client, lines: seq<int>, starts: seq<int>, start: int, wrote: bool, status: Status)
    requires LineInv(c, lines, starts, Running) && (status != Failed ==> wrote)
    ensures LineInv(c, if wrote then lines + [start] else lines, starts + [start], status)
  {
  }

  /** The part of the invariant about each client, when the supervisor only writes lines or stops. */
  lemma ClientsKept(st: State, t: State, written: nat, start: int)
    requires Inv(st) && st.sup.status == Running
    requires t.clients == st.clients && t.seen == st.seen && t.sup == st.sup.(status := t.sup.status)
    requires (t.lines == st.lines && t.starts == st.starts)
             || (t.lines == Written(st.lines, start, written) && t.starts == st.starts + [start]
                 && (t.sup.status != Failed ==> written >= |st.clients|))
    ensures |t.lines| == |st.lines|
    ensures forall i :: ClientInv(t.sup, t.clients, t.seen, t.lines, t.starts, i)
  {
    forall i ensures ClientInv(t.sup, t.clients, t.seen, t.lines, t.starts, i) {
      assert ClientInv(st.sup, st.clients, st.seen, st.lines, st.starts, i);
      if 0 <= i < |t.clients| { KnowsFailed(st.sup, t.sup.status, i, st.clients[i], st.seen[i]); }
      if 0 <= i < |t.clients| && (t.lines != st.lines || t.starts != st.starts) {
        LinesWritten(st.clients[i], st.lines[i], st.starts, start, i < written, t.sup.status);
      }
    }
  }

  lemma RefuseInv(st: State, now: int, written: nat)
    requires Inv(st) && Enabled(st, FromController(now, written))
    requires !MaySchedule(|st.clients|, st.sup.book, st.commands[st.taken])
    ensures Inv(Apply(st, FromController(now, written)))
  {
    var t := Apply(st, FromController(now, written));
    RefuseNext(|st.clients|, st.sup, st.commands, st.taken, st.accepted);
    PrintOther(|st.clients|, st.sup, st.emitted, EvError);
    PrefixKept(st.emitted, [EvError], st.handled, st.commands);
    PrintOrder(st, t, EvError);
    ClientsKept(st, t, 0, 0);
  }

  /** The request side of an accepted request. */
  lemma AcceptRequest(st: State)
    requires Inv(st) && Live(st) && st.taken < |st.commands|
    requires MaySchedule(|st.clients|, st.sup.book, st.commands[st.taken])
    ensures AcceptInv(|st.clients|, st.sup.book, st.commands, st.taken + 1, st.accepted + [st.commands[st.taken]])
  {
    if st.commands[st.taken] == Measure { ReadyMeansWarm(st); }
    AcceptNext(|st.clients|, st.sup, st.emitted, st.handled, st.commands, st.taken, st.accepted);
  }

  /** The printing side: the start line's announcement, or an error when a pipe broke. */
  lemma AcceptPrints(st: State, now: int, written: nat)
    requires Inv(st) && Enabled(st, FromController(now, written))
    requires MaySchedule(|st.clients|, st.sup.book, st.commands[st.taken])
    requires st.accepted + [st.commands[st.taken]] <= [Warmup, Measure]
    ensures var t := Apply(st, FromController(now, written));
            EventInv(|st.clients|, t.sup.book, t.emitted) && CommandInv(t.emitted, t.handled, t.commands) && OrderInv(t)
  {
    var t, n := Apply(st, FromController(now, written)), |st.clients|;
    var e := if written == n then EvScheduled(st.commands[st.taken], now + 500_000_000) else EvError;
    assert t.emitted == st.emitted + [e];
    PrintOther(n, st.sup, st.emitted, e);
    PrefixKept(st.emitted, [e], st.handled, st.commands);
    AcceptedLast(t.accepted, st.accepted, st.commands[st.taken]);
    PrintOrder(st, t, e);
  }

  /** The client side: all of them get the line, or the supervisor fails. */
  lemma AcceptWrites(st: State, now: int, written: nat)
    requires Inv(st) && Enabled(st, FromController(now, written))
    requires MaySchedule(|st.clients|, st.sup.book, st.commands[st.taken])
    ensures var t := Apply(st, FromController(now, written));
            && t.clients == st.clients && t.sup.book == st.sup.book && t.commands == st.commands
            && t.taken == st.taken + 1
            && t.accepted == st.accepted + [st.commands[st.taken]]
            && forall i :: ClientInv(t.sup, t.clients, t.seen, t.lines, t.starts, i)
  {
    ClientsKept(st, Apply(st, FromController(now, written)), written, now + 500_000_000);
  }

  lemma AcceptStep(st: State, now: int, written: nat)
    requires Inv(st) && Enabled(st, FromController(now, written))
    requires MaySchedule(|st.clients|, st.sup.book, st.commands[st.taken])
    ensures Inv(Apply(st, FromController(now, written)))
  {
    ShapeKept(st, FromController(now, written));
    AcceptRequest(st);
    AcceptWrites(st, now, written);
    AcceptPrints(st, now, written);
  }

  lemma AcceptedLast(now: seq<Command>, before: seq<Command>, c: Command)
    requires now == before + [c] && now <= [Warmup, Measure]
    ensures |now| >= 2 ==> c == Measure
  {
    assert now[|now| - 1] == c;
  }

  // ------------------------------------------------- the supervisor's own steps

  lemma ExitedPigeonhole(n: nat, exited: map<nat, int>, j: nat)
    requires (forall i :: i in exited ==> i < n) && |exited| >= n && j < n
    ensures j in exited
  {
    assert |exited.Keys| == |exited|;
    Ids.AtMost(n, exited.Keys);
    Ids.Pigeonhole(n, exited.Keys, j);
  }

  /** When all clients have ended well, the end of the measurement has been printed. */
  lemma MeasuredAll(st: State)
    requires Inv(st) && st.sup.status == Running && |st.sup.book.exited| >= |st.clients|
    ensures |st.clients| == 0 || EvMeasured in st.emitted
  {
    var n := |st.clients|;
    forall i: nat | i < n ensures i in st.sup.book.measured {
      ExitedPigeonhole(n, st.sup.book.exited, i);
      assert ClientInv(st.sup, st.clients, st.seen, st.lines, st.starts, i);
    }
    Ids.AtMost(n, st.sup.book.measured);
    if |st.sup.book.measured| < n {
      var i := Ids.Missing(n, st.sup.book.measured);
    }
  }

  lemma StopPrints(st: State, step: Step)
    requires Inv(st) && Enabled(st, step) && (step.Abort? || step.Finish?)
    ensures var t := Apply(st, step);
            EventInv(|st.clients|, t.sup.book, t.emitted) && CommandInv(t.emitted, t.handled, t.commands) && OrderInv(t)
  {
    if step.Finish? { MeasuredAll(st); }
    var t, e := Apply(st, step), if step.Abort? then EvError else EvResult;
    PrintOther(|st.clients|, st.sup, st.emitted, e);
    PrefixKept(st.emitted, [e], st.handled, st.commands);
    PrintOrder(st, t, e);
  }

  lemma StopKeeps(st: State, step: Step)
    requires Inv(st) && Enabled(st, step) && (step.Abort? || step.Finish?)
    ensures var t := Apply(st, step);
            && t.clients == st.clients && t.sup.book == st.sup.book && t.commands == st.commands && t.taken == st.taken
            && t.accepted == st.accepted
            && forall i :: ClientInv(t.sup, t.clients, t.seen, t.lines, t.starts, i)
  {
    ClientsKept(st, Apply(st, step), 0, 0);
  }

  lemma StopInv(st: State, step: Step)
    requires Inv(st) && Enabled(st, step) && (step.Abort? || step.Finish?)
    ensures Inv(Apply(st, step))
  {
    ShapeKept(st, step);
    StopKeeps(st, step);
    StopPrints(st, step);
  }

  // --------------------------------------------------------------- controller

  lemma ControllerCommands(emitted: seq<Event>, handled: nat, commands: seq<Command>)
    requires CommandInv(emitted, handled, commands) && handled < |emitted|
    ensures CommandInv(emitted, handled + 1, commands + Requests(emitted[handled]))
  {
    assert commands + [] == commands;
    CountEvTake(emitted, handled, EvPrepared);
    CountEvTake(emitted, handled, EvReady);
    CountCmdPush(commands, Warmup, Warmup);
    CountCmdPush(commands, Warmup, Measure);
    CountCmdPush(commands, Measure, Warmup);
    CountCmdPush(commands, Measure, Measure);
  }

  lemma CommandsGrow(n: nat, sup: Sup, commands: seq<Command>, more: seq<Command>, taken: nat, accepted: seq<Command>)
    requires AcceptInv(n, sup.book, commands, taken, accepted)
    ensures AcceptInv(n, sup.book, commands + more, taken, accepted)
  {
    assert (commands + more)[..taken] == commands[..taken];
  }

  lemma ControllerOrder(st: State)
    requires Shape(st) && OrderInv(st) && Enabled(st, ControllerReads)
    ensures OrderInv(Apply(st, ControllerReads))
  {
    ScheduledTake(st.emitted, st.handled);
    MeasuredTake(st.emitted, st.handled);
  }

  lemma ControllerReadsInv(st: State)
    requires Inv(st) && Enabled(st, ControllerReads)
    ensures Inv(Apply(st, ControllerReads))
  {
    ControllerCommands(st.emitted, st.handled, st.commands);
    CommandsGrow(|st.clients|, st.sup, st.commands, Requests(st.emitted[st.handled]), st.taken, st.accepted);
    ControllerOrder(st);
  }

  lemma StepInv(st: State, step: Step)
    requires Inv(st) && Enabled(st, step)
    ensures Inv(Apply(st, step))
  {
    match step
    case Advance(_) => ClientMoves(st, step);
    case ReadStart(_) => ClientMoves(st, step);
    case Leave(_, _) => ClientMoves(st, step);
    case FromClient(i) => FromClientInv(st, i);
    case FromController(now, written) =>
      if MaySchedule(|st.clients|, st.sup.book, st.commands[st.taken]) { AcceptStep(st, now, written); }
      else { RefuseInv(st, now, written); }
    case Abort => StopInv(st, step);
    case Finish => StopInv(st, step);
    case ControllerReads => ControllerReadsInv(st);
  }

  // -------------------------------------------------------------- whole runs

  lemma {:induction false} RunInv(st: State, steps: seq<Step>)
    requires Inv(st) && Feasible(st, steps)
    ensures Inv(Final(st, steps)) && |Final(st, steps).clients| == |st.clients|
    decreases |steps|
  {
    if steps != [] {
      StepInv(st, steps[0]);
      RunInv(Apply(st, steps[0]), steps[1..]);
    }
  }

  /** Behind a scheduled phase every client has reported. */
  lemma BarrierHolds(st: State, i: nat, j: nat)
    requires Inv(st) && i < |st.clients| && j < |st.clients|
    ensures LinesRead(st.clients[i]) >= 1 ==> Rank(st.clients[j].stage) >= 1
    ensures LinesRead(st.clients[i]) >= 2 ==> Rank(st.clients[j].stage) >= 3
  {
    assert ClientInv(st.sup, st.clients, st.seen, st.lines, st.starts, i);
    assert ClientInv(st.sup, st.clients, st.seen, st.lines, st.starts, j);
    if LinesRead(st.clients[i]) >= 1 { Ids.Pigeonhole(|st.clients|, st.sup.book.prepared, j); }
    if LinesRead(st.clients[i]) >= 2 { Ids.Pigeonhole(|st.clients|, st.sup.book.ready, j); }
  }

  /** A printed result means that every client ended well and had sent its own. */
  lemma ResultMeansAll(st: State, j: nat)
    requires Inv(st) && EvResult in st.emitted && j < |st.clients|
    ensures st.clients[j] == Client(ResultSent, Some(0))
  {
    ExitedPigeonhole(|st.clients|, st.sup.book.exited, j);
    assert ClientInv(st.sup, st.clients, st.seen, st.lines, st.starts, j);
  }

  lemma {:induction false} CountEvIn(events: seq<Event>, e: Event)
    requires e in events
    ensures CountEv(events, e) >= 1
    decreases |events|
  {
    var k := |events| - 1;
    if events[k] != e { CountEvIn(events[..k], e); }
  }

  ghost predicate AllReached(clients: seq<Client>, stage: Stage) {
    forall i :: 0 <= i < |clients| ==> Rank(clients[i].stage) >= Rank(stage)
  }

  /** A barrier line is printed at most once, and only when every client has reached its stage. */
  ghost predicate LinesMeanAll(clients: seq<Client>, emitted: seq<Event>) {
    && CountEv(emitted, EvPrepared) <= 1 && CountEv(emitted, EvReady) <= 1 && CountEv(emitted, EvMeasured) <= 1
    && (EvPrepared in emitted ==> AllReached(clients, AwaitWarmup))
    && (EvReady in emitted ==> AllReached(clients, AwaitMeasure))
    && (EvMeasured in emitted ==> AllReached(clients, MeasureDone))
  }

  lemma PrintedMeansAll(st: State)
    requires Inv(st)
    ensures LinesMeanAll(st.clients, st.emitted)
  {
    var n := |st.clients|;
    if EvPrepared in st.emitted { CountEvIn(st.emitted, EvPrepared); }
    if EvReady in st.emitted { CountEvIn(st.emitted, EvReady); }
    if EvMeasured in st.emitted { CountEvIn(st.emitted, EvMeasured); }
    forall i: nat | i < n
      ensures EvPrepared in st.emitted ==> Rank(st.clients[i].stage) >= 1
      ensures EvReady in st.emitted ==> Rank(st.clients[i].stage) >= 3
      ensures EvMeasured in st.emitted ==> Rank(st.clients[i].stage) >= 5
    {
      assert ClientInv(st.sup, st.clients, st.seen, st.lines, st.starts, i);
      if EvPrepared in st.emitted { Ids.Pigeonhole(n, st.sup.book.prepared, i); }
      if EvReady in st.emitted { Ids.Pigeonhole(n, st.sup.book.ready, i); }
      if EvMeasured in st.emitted { Ids.Pigeonhole(n, st.sup.book.measured, i); }
    }
  }

  /** The instant `start` lies half a second after the clock of one of the requests taken. */
  ghost predicate HalfSecondAfter(steps: seq<Step>, start: int) {
    exists k :: 0 <= k < |steps| && steps[k].FromController? && start == steps[k].now + 500_000_000
  }

  lemma LaterStep(steps: seq<Step>, start: int)
    requires steps != [] && HalfSecondAfter(steps[1..], start)
    ensures HalfSecondAfter(steps, start)
  {
    var k :| 0 <= k < |steps[1..]| && steps[1..][k].FromController? && start == steps[1..][k].now + 500_000_000;
    assert steps[k + 1] == steps[1..][k];
  }

  /** Every instant scheduled is half a second after the supervisor took a request. */
  lemma {:induction false} StartsScheduled(st: State, steps: seq<Step>)
    requires Shape(st) && Feasible(st, steps)
    ensures forall start :: start in Final(st, steps).starts ==> start in st.starts || HalfSecondAfter(steps, start)
    decreases |steps|
  {
    if steps != [] {
      ShapeKept(st, steps[0]);
      var t := Apply(st, steps[0]);
      StartsScheduled(t, steps[1..]);
      forall start | start in Final(t, steps[1..]).starts
        ensures start in st.starts || HalfSecondAfter(steps, start)
      {
        if start !in t.starts { LaterStep(steps, start); }
      }
    }
  }

  /** The start instants a client has read, in order. */
  ghost function StartsRead(st: State, i: nat): seq<int>
    requires Shape(st) && i < |st.clients| && LinesRead(st.clients[i]) <= |st.lines[i]|
  {
    st.lines[i][..LinesRead(st.clients[i])]
  }

  ghost predicate Barrier(st: State)
    requires Shape(st)
  {
    && st.accepted <= [Warmup, Measure]
    && (forall i :: 0 <= i < |st.clients| ==>
          && LinesRead(st.clients[i]) <= |st.lines[i]| <= 2
          && StartsRead(st, i) <= st.starts)
    && (forall i, j :: 0 <= i < |st.clients| && 0 <= j < |st.clients| ==>
          && (Rank(st.clients[i].stage) >= Rank(Warming) ==> Rank(st.clients[j].stage) >= Rank(AwaitWarmup))
          && (Rank(st.clients[i].stage) >= Rank(Measuring) ==> Rank(st.clients[j].stage) >= Rank(AwaitMeasure)))
    && (EvResult in st.emitted ==> forall i :: 0 <= i < |st.clients| ==> st.clients[i] == Client(ResultSent, Some(0)))
    && LinesMeanAll(st.clients, st.emitted)
    && ResultsLast(|st.clients|, st.emitted)
    && (st.controller == Succeeded ==> EvResult in st.emitted && EvMeasured in st.emitted)
    && (st.controller == Raised ==> EvError in st.emitted || |st.clients| == 0)
  }

  lemma InvBarrier(st: State)
    requires Inv(st)
    ensures Barrier(st)
  {
    PrintedMeansAll(st);
    forall i | 0 <= i < |st.clients|
      ensures LinesRead(st.clients[i]) <= |st.lines[i]| <= 2 && StartsRead(st, i) <= st.starts
    {
      assert ClientInv(st.sup, st.clients, st.seen, st.lines, st.starts, i);
    }
    forall i, j | 0 <= i < |st.clients| && 0 <= j < |st.clients|
      ensures Rank(st.clients[i].stage) >= Rank(Warming) ==> Rank(st.clients[j].stage) >= Rank(AwaitWarmup)
      ensures Rank(st.clients[i].stage) >= Rank(Measuring) ==> Rank(st.clients[j].stage) >= Rank(AwaitMeasure)
    {
      BarrierHolds(st, i, j);
    }
    if EvResult in st.emitted {
      forall i | 0 <= i < |st.clients| ensures st.clients[i] == Client(ResultSent, Some(0)) { ResultMeansAll(st, i); }
    }
  }

  /**
   In every state of every run: at most a warmup and then a measurement are scheduled, every client
   reads a prefix of the same two instants, no client starts a phase before all have reported for
   it, each of the lines prepared, ready and measured is printed at most once and only when all
   clients have got that far, every instant is half a second after a request was taken, a result is
   printed only when all clients sent theirs and exited with 0, after the end of their measurement,
   and with at least one client the controller raises only on an error line.
   */
  lemma BarrierTheorem(n: nat, steps: seq<Step>)
    requires Feasible(Init(n), steps)
    ensures Barrier(Final(Init(n), steps)) && |Final(Init(n), steps).clients| == n
    ensures forall start :: start in Final(Init(n), steps).starts ==> HalfSecondAfter(steps, start)
  {
    StartsScheduled(Init(n), steps);
    InitInv(n);
    RunInv(Init(n), steps);
    InvBarrier(Final(Init(n), steps));
  }
}
