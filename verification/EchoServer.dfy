/**
 The server side of bench/kernel_path.c in its own form: a loop over mutable counters
 and a 128-entry circular fragment queue, driven by whatever the kernel completes.
 */
module EchoServer {
  import opened Basics
  import opened EchoModel
  import opened EchoInvariant
  import opened EchoSteps
  import opened EchoRuns

  function Slot(head: nat, i: nat): (r: nat)
    requires head < BUFFERS && i <= BUFFERS
    ensures r == (head + i) % BUFFERS
  {
    if head + i < BUFFERS then head + i else head + i - BUFFERS
  }

  /** The `count` fragments stored from `head` on, wrapping at the end of the array. */
  ghost function Ring(a: seq<Fragment>, head: nat, count: nat): (r: seq<Fragment>)
    requires |a| == BUFFERS && head < BUFFERS && count <= BUFFERS
    ensures |r| == count && forall i :: 0 <= i < count ==> r[i] == a[Slot(head, i)]
  {
    if head + count <= BUFFERS then a[head..head + count] else a[head..] + a[..head + count - BUFFERS]
  }

  lemma RingPush(a: seq<Fragment>, head: nat, count: nat, f: Fragment)
    requires |a| == BUFFERS && head < BUFFERS && count < BUFFERS
    ensures Ring(a[Slot(head, count) := f], head, count + 1) == Ring(a, head, count) + [f]
  {
  }

  lemma RingPop(a: seq<Fragment>, head: nat, count: nat)
    requires |a| == BUFFERS && head < BUFFERS && 0 < count <= BUFFERS
    ensures Ring(a, Slot(head, 1), count - 1) == Ring(a, head, count)[1..]
  {
    var r, r' := Ring(a, head, count), Ring(a, Slot(head, 1), count - 1);
    forall i | 0 <= i < count - 1
      ensures r'[i] == r[1..][i]
    {
      assert Slot(Slot(head, 1), i) == Slot(head, i + 1);
    }
  }

  lemma RingHead(a: seq<Fragment>, head: nat, count: nat, f: Fragment)
    requires |a| == BUFFERS && head < BUFFERS && 0 < count <= BUFFERS
    ensures Ring(a, head, count)[0] == a[head]
    ensures Ring(a[head := f], head, count) == [f] + Ring(a, head, count)[1..]
  {
    assert Slot(head, 0) == head;
  }

  class Connection {
    var received: nat
    var sent: nat
    var head: nat
    var count: nat
    var receiving: bool
    var sending: bool
    var zcResult: int
    var canceled: bool
    const queue: array<Fragment>

    ghost predicate Valid()
      reads this`head, this`count
    {
      queue.Length == BUFFERS && head < BUFFERS && count <= BUFFERS
    }

    /** The ring's contents, oldest first. */
    ghost function Queued(): seq<Fragment>
      reads this`head, this`count, queue
      requires Valid()
    {
      Ring(queue[..], head, count)
    }

    /** The loop's variables as the value the transition system talks about. */
    ghost function User(pc: Pc): User
      reads this, queue
      requires Valid()
    {
      EchoModel.User(pc, received, sent, Queued(), receiving, sending, zcResult, canceled)
    }

    constructor ()
      ensures Valid() && fresh(queue)
      ensures User(Top) == EchoModel.User(Top, 0, 0, [], false, false, 0, false)
    {
      received, sent, head, count := 0, 0, 0, 0;
      receiving, sending, zcResult, canceled := false, false, 0, false;
      queue := new Fragment[BUFFERS](_ => Fragment(0, 0, 0));
    }

    /** `queue[(head + count++) % 128] = f` */
    method Push(f: Fragment)
      requires Valid() && count < BUFFERS
      modifies this`count, queue
      ensures Valid() && Queued() == old(Queued()) + [f]
    {
      RingPush(queue[..], head, count, f);
      ghost var was := queue[..];
      queue[(head + count) % BUFFERS] := f;
      assert queue[..] == was[Slot(head, count) := f];
      count := count + 1;
    }

    /** `head = (head + 1) % 128; count--` */
    method Pop()
      requires Valid() && count > 0
      modifies this`head, this`count
      ensures Valid() && Queued() == old(Queued())[1..]
    {
      RingPop(queue[..], head, count);
      head := (head + 1) % BUFFERS;
      count := count - 1;
    }

    /** `f->sent += result` on the head fragment. */
    method AdvanceHead(result: nat)
      requires Valid() && count > 0
      modifies queue
      ensures Valid()
      ensures var was := old(Queued()); Queued() == [was[0].(sent := was[0].sent + result)] + was[1..]
    {
      var f := queue[head];
      ghost var was := queue[..];
      RingHead(was, head, count, f.(sent := f.sent + result));
      queue[head] := f.(sent := f.sent + result);
      assert queue[..] == was[head := f.(sent := f.sent + result)];
    }

    /** The top of the loop: set the flags the two guards allow. */
    method Arm(c: Config)
      requires Valid() && sent < c.Total()
      modifies this`receiving, this`sending
      ensures Valid() && User(Waiting) == AtTop(c, old(User(Top)))
    {
      assert count == 0 <==> Queued() == [];
      if !receiving && received < c.Total() && (c.Multi() || count == 0) {
        receiving := true;
      }
      if !sending && count != 0 {
        sending := true;
      }
    }

    /** The receive branch; `ok` is false where the program exits on a failed check. */
    method OnReceive(c: Config, cqe: Cqe) returns (ok: bool)
      requires Valid() && cqe.userData == RECV
      modifies this, queue
      ensures Valid()
      ensures var v := Handle(c, old(User(Waiting)), cqe);
              ok == (v.pc != Failed) && (ok ==> User(Top) == v)
    {
      if !cqe.more { receiving := false; }
      if cqe.res < 0 { return false; }
      if cqe.res == 0 { return received == c.Total(); }
      if count >= BUFFERS { return false; }
      if c.Multi() && cqe.bid.None? { return false; }
      var bid := if c.Multi() then cqe.bid.value else 0;
      Push(Fragment(bid, cqe.res, 0));
      received := received + cqe.res;
      return received <= c.Total();
    }

    /** The send branch; `recycled` is the buffer handed back to the provided-buffer ring, if any. */
    method OnSend(c: Config, cqe: Cqe) returns (ok: bool, recycled: Option<nat>)
      requires Valid() && cqe.userData == SEND
      modifies this, queue
      ensures Valid()
      ensures var u := old(User(Waiting)); var v := Handle(c, u, cqe);
              && ok == (v.pc != Failed)
              && (ok ==> User(Top) == v && Recycled(c, u, cqe) == if recycled.Some? then {recycled.value} else {})
    {
      ghost var u := User(Waiting);
      recycled := None;
      if !sending { return false, None; }
      if cqe.more {
        if cqe.res <= 0 { return false, None; }
        zcResult := cqe.res;
        return true, None;
      }
      var result := if cqe.notif then zcResult else cqe.res;
      if result <= 0 || count == 0 { return false, None; }
      var f := queue[head];
      RingHead(queue[..], head, count, f);
      if f.sent + result > f.len { return false, None; }
      AdvanceHead(result);
      sent := sent + result;
      sending := false;
      if f.sent + result == f.len {
        if c.Multi() { recycled := Some(f.bid); }
        Pop();
      }
      ok := true;
    }

    /** One turn of the drain loop. */
    method OnDrain(c: Config, cqe: Cqe) returns (ok: bool)
      requires Valid()
      modifies this`receiving, this`canceled
      ensures Valid()
      ensures var v := HandleDrain(c, old(User(Draining)), cqe);
              && (!ok ==> v.pc == Failed)
              && (ok ==> v == if receiving || !canceled then User(Draining) else Finish(c, User(Draining)))
    {
      if cqe.userData == CANCEL {
        ok := cqe.res == 0 || cqe.res == -ENOENT || cqe.res == -EALREADY;
        if ok { canceled := true; }
      } else {
        ok := cqe.userData == RECV && cqe.res <= 0;
        if ok && !cqe.more { receiving := false; }
      }
    }

    // ------------------------------------------------------- the environment

    /** The world takes one step. */
    static method Move(c: Config, before: State, step: Step) returns (world: State)
      requires Reachable(c, before) && Enabled(c, before, step)
      ensures world == Apply(c, before, step) && Reachable(c, world)
      ensures Measure(c, world) < Measure(c, before)
      ensures !IsUserStep(step) ==> world.user == before.user
    {
      world := Apply(c, before, step);
      ReachableInv(c, before);
      ReachableStep(c, before, step);
      StepDecreases(c, before, step);
    }

    /** With nothing to read, some other party can always move. */
    static method Wake(c: Config, before: State) returns (world: State)
      requires Reachable(c, before) && (before.user.pc == Waiting || before.user.pc == Draining)
      requires NothingUnread(before.kernel)
      ensures Reachable(c, world) && world.user == before.user && Measure(c, world) < Measure(c, before)
    {
      assert exists step :: Enabled(c, before, step) && !IsUserStep(step) by {
        ReachableInv(c, before);
        var step := WaitingCanMove(c, before);
      }
      var step: Step :| Enabled(c, before, step) && !IsUserStep(step);
      world := Move(c, before, step);
    }

    /** Wait for a completion: other parties move until one is readable, and may keep moving after. */
    static method Completion(c: Config, before: State) returns (source: Source, world: State)
      requires Reachable(c, before) && (before.user.pc == Waiting || before.user.pc == Draining)
      ensures Reachable(c, world) && world.user == before.user
      ensures QueueOf(world.kernel, source) != []
      ensures Measure(c, world) <= Measure(c, before)
    {
      world := before;
      while NothingUnread(world.kernel)
        invariant Reachable(c, world) && world.user == before.user && Measure(c, world) <= Measure(c, before)
        decreases Measure(c, world)
      {
        world := Wake(c, world);
      }
      var step: Step := *;
      while Enabled(c, world, step) && !IsUserStep(step)
        invariant Reachable(c, world) && world.user == before.user && Measure(c, world) <= Measure(c, before)
        invariant !NothingUnread(world.kernel)
        decreases Measure(c, world)
      {
        world := Move(c, world, step);
        step := *;
      }
      source := *;
      if QueueOf(world.kernel, source) == [] {
        source := if world.kernel.recvCq != [] then FromReceive
                  else if world.kernel.sendCq != [] then FromSend else FromCancel;
      }
    }

    // --------------------------------------------------------------- the loop

    /**
     One connection, from accept to close: the loop, then the cancel and drain loop, then the final
     check.  It terminates, no check fails, and what was transmitted is what was read.
     */
    method Serve(c: Config, storage: seq<seq<Byte>>, provided: set<nat>) returns (ok: bool, world: State)
      requires c.Valid() && StorageShape(storage) && ProvidedOk(c, provided)
      requires Valid() && User(Top) == Init(c, storage, provided).user
      modifies this, queue
      ensures ok && Reachable(c, world)
      ensures world.kernel.output == c.input
      ensures Valid() && sent == received == c.Total() && count == 0 && !receiving && !sending
      ensures !world.kernel.recvArmed && world.kernel.send == NoSend && NothingUnread(world.kernel)
    {
      world := Init(c, storage, provided);
      ReachableInit(c, storage, provided);
      while sent < c.Total()
        invariant Valid() && Reachable(c, world) && world.user == User(Top)
        decreases Measure(c, world)
      {
        ok, world := Turn(c, world);
      }
      world := Move(c, world, UserTop);
      if receiving {
        world := DrainAll(c, world);
      }
      ok := count == 0 && !sending && received == c.Total();
      NeverFails(c, world);
    }

    /** One turn of the loop. */
    method Turn(c: Config, before: State) returns (ok: bool, world: State)
      requires Valid() && Reachable(c, before) && before.user == User(Top) && sent < c.Total()
      modifies this, queue
      ensures ok && Valid() && Reachable(c, world) && world.user == User(Top)
      ensures Measure(c, world) < Measure(c, before)
    {
      world := Move(c, before, UserTop);
      Arm(c);
      var source;
      source, world := Completion(c, world);
      var cqe := QueueOf(world.kernel, source)[0];
      ReadableWhileWaiting(c, world, source);
      world := Move(c, world, UserTake(source));
      NeverFails(c, world);
      if cqe.userData == RECV {
        ok := OnReceive(c, cqe);
      } else {
        var recycled;
        ok, recycled := OnSend(c, cqe);
      }
    }

    method DrainAll(c: Config, before: State) returns (world: State)
      requires Valid() && Reachable(c, before) && before.user == User(Draining) && receiving
      modifies this`receiving, this`canceled
      ensures Valid() && Reachable(c, world) && world.user == User(Done)
    {
      world := before;
      while receiving || !canceled
        invariant Valid() && Reachable(c, world)
        invariant world.user == if receiving || !canceled then User(Draining) else User(Done)
        decreases Measure(c, world)
      {
        world := DrainTurn(c, world);
      }
    }

    method DrainTurn(c: Config, before: State) returns (world: State)
      requires Valid() && Reachable(c, before) && before.user == User(Draining)
      modifies this`receiving, this`canceled
      ensures Valid() && Reachable(c, world) && Measure(c, world) < Measure(c, before)
      ensures world.user == if receiving || !canceled then User(Draining) else User(Done)
    {
      var source;
      source, world := Completion(c, before);
      var cqe := QueueOf(world.kernel, source)[0];
      world := Move(c, world, UserTake(source));
      NeverFails(c, world);
      var ok := OnDrain(c, cqe);
    }

    static lemma NeverFails(c: Config, s: State)
      requires Reachable(c, s)
      ensures s.user.pc != Failed
      ensures s.user.pc == Done ==>
                && s.kernel.output == c.input && s.user.sent == s.user.received == c.Total()
                && s.user.queue == [] && !s.user.receiving && !s.user.sending
                && !s.kernel.recvArmed && s.kernel.send == NoSend && NothingUnread(s.kernel)
    {
      ReachableInv(c, s);
      Observed(c, s);
    }

    /** Only receive and send completions are readable while the loop waits. */
    static lemma ReadableWhileWaiting(c: Config, s: State, source: Source)
      requires Reachable(c, s) && s.user.pc == Waiting && QueueOf(s.kernel, source) != []
      ensures QueueOf(s.kernel, source)[0].userData == if source == FromReceive then RECV else SEND
    {
      ReachableInv(c, s);
      if source == FromReceive {
        assert RecvCqeOk(c, false, s.kernel.taken, s.kernel.recvCq[0]);
      }
    }
  }

  /** The registration loop before the first connection. */
  method ProvideBuffers() returns (provided: set<nat>)
    ensures |provided| == BUFFERS && forall b :: b in provided <==> 0 <= b < BUFFERS
  {
    provided := {};
    for i := 0 to BUFFERS
      invariant |provided| == i && forall b :: b in provided <==> 0 <= b < i
    {
      provided := provided + {i};
    }
  }
}
