/**
 The three-party phase barrier of the HTTP/2 LAN benchmark: a controller
 (bench/compare_http2_lan.py), a supervisor on the load host (bench/http2_remote.py) and N client
 processes (bench/http2_lan_client/main.go).

 Every pipe is first-in first-out, so a pipe is modelled as the history of what was written to it
 and how much of it the other side has read.
 */
module PhaseBarrier {
  import opened Basics
  import Ids

  datatype Message = Prepared | Ready | Measured | ResultLine | Exit(code: int)
  datatype Command = Warmup | Measure
  datatype Event = EvPrepared | EvReady | EvMeasured | EvScheduled(command: Command, start: int) | EvResult | EvError

  /** How far a client process is, in the order of its `main`. */
  datatype Stage = Setup | AwaitWarmup | Warming | AwaitMeasure | Measuring | MeasureDone | ResultSent

  function Rank(stage: Stage): nat {
    match stage
    case Setup => 0
    case AwaitWarmup => 1
    case Warming => 2
    case AwaitMeasure => 3
    case Measuring => 4
    case MeasureDone => 5
    case ResultSent => 6
  }

  datatype Client = Client(stage: Stage, exit: Option<int>)

  /** How many report lines a client has written when it reaches a stage. */
  function Reports(stage: Stage): nat {
    match stage
    case Setup => 0
    case AwaitWarmup => 1
    case Warming => 1
    case AwaitMeasure => 2
    case Measuring => 2
    case MeasureDone => 3
    case ResultSent => 4
  }

  /** Everything a client has written to its supervisor: its report lines, then its exit. */
  function LogLength(c: Client): nat { Reports(c.stage) + if c.exit.Some? then 1 else 0 }

  function MessageAt(c: Client, k: nat): Message
    requires k < LogLength(c)
  {
    if k >= Reports(c.stage) then Exit(c.exit.value)
    else if k == 0 then Prepared else if k == 1 then Ready else if k == 2 then Measured else ResultLine
  }

  /** How many start lines a client has read. */
  function LinesRead(c: Client): nat {
    if Rank(c.stage) >= 4 then 2 else if Rank(c.stage) >= 2 then 1 else 0
  }

  // --------------------------------------------------------------- supervisor

  datatype Status = Running | Failed | Finished

  /** The supervisor's dictionaries, as far as their keys and the exit codes go. */
  datatype Book = Book(
    prepared: set<nat>, ready: set<nat>, measured: set<nat>, results: set<nat>, exited: map<nat, int>)

  datatype Sup = Sup(status: Status, book: Book)

  const EMPTY_BOOK: Book := Book({}, {}, {}, {}, map[])

  /** One client event: the supervisor's dictionaries and what it prints. */
  function OnClient(n: nat, sup: Sup, i: nat, msg: Message): (Sup, seq<Event>) {
    var book := sup.book;
    match msg
    case Prepared =>
      var b := book.(prepared := book.prepared + {i});
      (sup.(book := b), if |b.prepared| == n then [EvPrepared] else [])
    case Ready =>
      var b := book.(ready := book.ready + {i});
      (sup.(book := b), if |b.ready| == n then [EvReady] else [])
    case Measured =>
      var b := book.(measured := book.measured + {i});
      (sup.(book := b), if |b.measured| == n then [EvMeasured] else [])
    case ResultLine => (sup.(book := book.(results := book.results + {i})), [])
    case Exit(code) =>
      var b := book.(exited := book.exited[i := code]);
      if code != 0 || i !in book.results then (Sup(Failed, b), [EvError]) else (sup.(book := b), [])
  }

  /** The guard on a control request. */
  predicate MaySchedule(n: nat, book: Book, command: Command) {
    (command == Warmup && |book.prepared| == n) || (command == Measure && |book.ready| == n)
  }

  /** The supervisor's event loop as the object it is. */
  class Supervisor {
    const clients: nat
    var failed: bool
    var prepared: set<nat>
    var ready: set<nat>
    var measured: set<nat>
    var results: set<nat>
    var exited: map<nat, int>

    ghost function State(): Sup
      reads this
    {
      Sup(if failed then Failed else Running, Book(prepared, ready, measured, results, exited))
    }

    constructor (clients: nat)
      ensures this.clients == clients && State() == Sup(Running, EMPTY_BOOK)
    {
      this.clients := clients;
      failed, prepared, ready, measured, results, exited := false, {}, {}, {}, {}, map[];
    }

    method HandleClient(index: nat, msg: Message) returns (events: seq<Event>)
      requires !failed
      modifies this
      ensures (State(), events) == OnClient(clients, old(State()), index, msg)
    {
      events := [];
      match msg {
        case Prepared =>
          prepared := prepared + {index};
          if |prepared| == clients { events := [EvPrepared]; }
        case Ready =>
          ready := ready + {index};
          if |ready| == clients { events := [EvReady]; }
        case Measured =>
          measured := measured + {index};
          if |measured| == clients { events := [EvMeasured]; }
        case ResultLine =>
          results := results + {index};
        case Exit(code) =>
          exited := exited[index := code];
          if code != 0 || index !in results {
            failed := true;
            events := [EvError];
          }
      }
    }

    /** A control request: refused unless its barrier is complete, else one instant for all clients. */
    method HandleControl(command: Command, now: int) returns (start: Option<int>, events: seq<Event>)
      requires !failed
      modifies this`failed
      ensures if MaySchedule(clients, old(State()).book, command)
              then start == Some(now + 500_000_000) && !failed && events == [EvScheduled(command, now + 500_000_000)]
              else start == None && failed && events == [EvError]
    {
      if !((command == Warmup && |prepared| == clients) || (command == Measure && |ready| == clients)) {
        failed := true;
        return None, [EvError];
      }
      return Some(now + 500_000_000), [EvScheduled(command, now + 500_000_000)];
    }
  }

  // --------------------------------------------------------------- controller

  datatype Controller = Waiting | Succeeded | Raised

  /** What the controller sends when it reads a line of the supervisor. */
  function Requests(e: Event): seq<Command> {
    match e
    case EvPrepared => [Warmup]
    case EvReady => [Measure]
    case _ => []
  }

  predicate OpensWindow(e: Event) { e.EvScheduled? && e.command == Measure }

  /**
   The end of the window subtracts its start, the figures after a result use the window, and both
   have to be there; an error line raises.
   */
  function OnEvent(e: Event, windowOpen: bool, windowClosed: bool): Controller {
    match e
    case EvMeasured => if windowOpen then Waiting else Raised
    case EvResult => if windowClosed then Succeeded else Raised
    case EvError => Raised
    case _ => Waiting
  }

  // -------------------------------------------------------------- whole system

  datatype State = State(
    clients: seq<Client>,
    seen: seq<nat>,             // messages of each client the supervisor has handled
    starts: seq<int>,           // instants the supervisor scheduled
    accepted: seq<Command>,     // the request behind each instant
    lines: seq<seq<int>>,       // start lines written to each client
    sup: Sup,
    emitted: seq<Event>,        // what the supervisor printed
    handled: nat,               // how much of it the controller has read
    controller: Controller,
    windowOpen: bool,           // the controller noted when measurement starts
    windowClosed: bool,         // and what it took
    commands: seq<Command>,     // what the controller sent
    taken: nat)                 // how much of it the supervisor has read

  datatype Step =
    | Advance(i: nat)                    // a client reaches its next stage on its own
    | ReadStart(i: nat)                  // a client reads a start line
    | Leave(i: nat, code: int)           // a client process ends
    | FromClient(i: nat)
    | FromController(now: int, written: nat)
    | Abort                              // disconnect or deadline in the supervisor
    | Finish
    | ControllerReads

  function Init(n: nat): State {
    State(seq(n, _ => Client(Setup, None)), seq(n, _ => 0), [], [], seq(n, _ => []),
          Sup(Running, EMPTY_BOOK), [], 0, Waiting, false, false, [], 0)
  }

  function NextStage(stage: Stage): Stage {
    match stage
    case Setup => AwaitWarmup
    case AwaitWarmup => Warming
    case Warming => AwaitMeasure
    case AwaitMeasure => Measuring
    case Measuring => MeasureDone
    case MeasureDone => ResultSent
    case ResultSent => ResultSent
  }

  ghost predicate Shape(st: State) {
    && |st.seen| == |st.lines| == |st.clients|
    && |st.accepted| == |st.starts|
    && st.handled <= |st.emitted| && st.taken <= |st.commands|
    && forall i :: SeenOk(st.clients, st.seen, i)
  }

  ghost predicate SeenOk(clients: seq<Client>, seen: seq<nat>, i: int) {
    0 <= i < |clients| && i < |seen| ==> seen[i] <= LogLength(clients[i])
  }

  ghost predicate Live(st: State) { st.sup.status == Running && |st.sup.book.exited| < |st.clients| }

  ghost predicate Enabled(st: State, step: Step)
    requires Shape(st)
  {
    match step
    case Advance(i) =>
      i < |st.clients| && st.clients[i].exit.None?
      && st.clients[i].stage in {Setup, Warming, Measuring, MeasureDone}
    case ReadStart(i) =>
      i < |st.clients| && st.clients[i].exit.None? && st.clients[i].stage in {AwaitWarmup, AwaitMeasure}
      && LinesRead(st.clients[i]) < |st.lines[i]|
    case Leave(i, code) =>
      i < |st.clients| && st.clients[i].exit.None? && (code == 0 ==> st.clients[i].stage == ResultSent)
    case FromClient(i) => Live(st) && i < |st.clients| && st.seen[i] < LogLength(st.clients[i])
    case FromController(_, written) => Live(st) && st.taken < |st.commands| && written <= |st.clients|
    case Abort => st.sup.status == Running
    case Finish => st.sup.status == Running && |st.sup.book.exited| >= |st.clients|
    case ControllerReads => st.controller == Waiting && st.handled < |st.emitted|
  }

  /** Start lines reach the clients one after the other; a broken pipe stops in the middle. */
  ghost function Written(lines: seq<seq<int>>, start: int, written: nat): seq<seq<int>> {
    seq(|lines|, i requires 0 <= i < |lines| => if i < written then lines[i] + [start] else lines[i])
  }

  ghost function Apply(st: State, step: Step): State
    requires Shape(st) && Enabled(st, step)
  {
    match step
    case Advance(i) => st.(clients := st.clients[i := st.clients[i].(stage := NextStage(st.clients[i].stage))])
    case ReadStart(i) => st.(clients := st.clients[i := st.clients[i].(stage := NextStage(st.clients[i].stage))])
    case Leave(i, code) => st.(clients := st.clients[i := st.clients[i].(exit := Some(code))])
    case FromClient(i) =>
      var (sup, events) := OnClient(|st.clients|, st.sup, i, MessageAt(st.clients[i], st.seen[i]));
      st.(sup := sup, seen := st.seen[i := st.seen[i] + 1], emitted := st.emitted + events)
    case FromController(now, written) =>
      var command := st.commands[st.taken];
      if !MaySchedule(|st.clients|, st.sup.book, command) then
        st.(taken := st.taken + 1, sup := st.sup.(status := Failed), emitted := st.emitted + [EvError])
      else
        var start, all := now + 500_000_000, written == |st.clients|;
        st.(taken := st.taken + 1, starts := st.starts + [start], accepted := st.accepted + [command],
            lines := Written(st.lines, start, written),
            sup := if all then st.sup else st.sup.(status := Failed),
            emitted := st.emitted + if all then [EvScheduled(command, start)] else [EvError])
    case Abort => st.(sup := st.sup.(status := Failed), emitted := st.emitted + [EvError])
    case Finish => st.(sup := st.sup.(status := Finished), emitted := st.emitted + [EvResult])
    case ControllerReads =>
      var e := st.emitted[st.handled];
      st.(handled := st.handled + 1, commands := st.commands + Requests(e),
          windowOpen := st.windowOpen || OpensWindow(e),
          windowClosed := st.windowClosed || (e == EvMeasured && st.windowOpen),
          controller := OnEvent(e, st.windowOpen, st.windowClosed))
  }

  // --------------------------------------------------------------------- runs

  /** A client's log only grows. */
  lemma LogGrows(c: Client, d: Client)
    requires c.exit.None? && (d == c.(stage := NextStage(c.stage)) || (d.stage == c.stage && d.exit.Some?))
    ensures LogLength(c) <= LogLength(d) && forall k :: 0 <= k < LogLength(c) ==> MessageAt(c, k) == MessageAt(d, k)
  {
  }

  lemma ShapeKept(st: State, step: Step)
    requires Shape(st) && Enabled(st, step)
    ensures Shape(Apply(st, step))
  {
    var t := Apply(st, step);
    if step.Advance? || step.ReadStart? || step.Leave? { LogGrows(st.clients[step.i], t.clients[step.i]); }
    forall i ensures SeenOk(t.clients, t.seen, i) { assert SeenOk(st.clients, st.seen, i); }
  }

  /** `steps` can be taken one after the other from `st`. */
  ghost predicate Feasible(st: State, steps: seq<Step>)
    requires Shape(st)
    decreases |steps|
  {
    steps == [] || (Enabled(st, steps[0]) && (ShapeKept(st, steps[0]); Feasible(Apply(st, steps[0]), steps[1..])))
  }

  ghost function Final(st: State, steps: seq<Step>): (t: State)
    requires Shape(st) && Feasible(st, steps)
    ensures Shape(t)
    decreases |steps|
  {
    if steps == [] then st else (ShapeKept(st, steps[0]); Final(Apply(st, steps[0]), steps[1..]))
  }

  // ------------------------------------------------------- the guard by itself

  /** Once complete, the warmup barrier stays complete: no client event ever closes it again. */
  lemma GuardStaysOpen(n: nat, sup: Sup, i: nat, msg: Message)
    requires MaySchedule(n, sup.book, Warmup) && (forall j :: j in sup.book.prepared ==> j < n) && i < n
    ensures MaySchedule(n, OnClient(n, sup, i, msg).0.book, Warmup)
  {
    if msg == Prepared {
      Ids.Pigeonhole(n, sup.book.prepared, i);
      assert sup.book.prepared + {i} == sup.book.prepared;
    }
  }

  /** So the supervisor alone schedules a second warmup when it is asked for one. */
  lemma GuardAcceptsTwice(st: State, now: int, later: int)
    requires Shape(st) && Live(st) && |st.sup.book.prepared| == |st.clients|
    requires st.taken + 2 <= |st.commands| && st.commands[st.taken] == st.commands[st.taken + 1] == Warmup
    ensures var n := |st.clients|;
            && Enabled(st, FromController(now, n)) && Shape(Apply(st, FromController(now, n)))
            && Enabled(Apply(st, FromController(now, n)), FromController(later, n))
            && Apply(Apply(st, FromController(now, n)), FromController(later, n)).accepted ==
                 st.accepted + [Warmup, Warmup]
  {
    ShapeKept(st, FromController(now, |st.clients|));
  }

  /** A state in which that happens, one no controller leads to. */
  lemma GuardExample()
    ensures var st := Init(1).(clients := [Client(AwaitWarmup, None)], seen := [1],
                               sup := Sup(Running, EMPTY_BOOK.(prepared := {0})), commands := [Warmup, Warmup]);
            && Shape(st) && Enabled(st, FromController(0, 1)) && Shape(Apply(st, FromController(0, 1)))
            && Enabled(Apply(st, FromController(0, 1)), FromController(1, 1))
            && Apply(Apply(st, FromController(0, 1)), FromController(1, 1)).accepted == [Warmup, Warmup]
  {
    var st := Init(1).(clients := [Client(AwaitWarmup, None)], seen := [1],
                       sup := Sup(Running, EMPTY_BOOK.(prepared := {0})), commands := [Warmup, Warmup]);
    GuardAcceptsTwice(st, 0, 1);
  }
}
