/**
 The echo probe of bench/kernel_path.c as a labelled transition system.

 Three parties move independently: the lock-step client process, the kernel
 (network, io_uring operations, completion queue) and the server's user loop.
 Every kernel decision (how many bytes a receive or send moves, which provided
 buffer it picks, whether a multishot receive stays armed, when a zero-copy send
 is transmitted and notified, how a cancel race ends) is a label of the step, so
 a statement about all runs covers every completion order.

 The kernel's completion queue is kept as one first-in first-out queue per
 operation, and the user loop may take the head of any of them.  That admits every
 ordering a single queue can produce, and more.
 */
module EchoModel {
  import opened Basics

  const BUFFERS: nat := 128
  const BUFFER_BYTES: nat := 65536

  // Results the drain loop accepts from its cancel request.
  const ENOENT: int := 2
  const EALREADY: int := 114
  const ECANCELED: int := 125

  // user_data values.
  const RECV: nat := 1
  const SEND: nat := 2
  const CANCEL: nat := 3

  /** `busy`, `accept` and `direct` share the single-buffer, copying path. */
  datatype Mode = SingleShot | Multishot | ZeroCopy

  /** The length of `n` blocks of `size` bytes. */
  function Blocks(n: nat, size: nat): nat {
    if n == 0 then 0 else Blocks(n - 1, size) + size
  }

  lemma {:induction false} BlocksIsProduct(n: nat, size: nat)
    ensures Blocks(n, size) == size * n
  {
    if n > 0 { BlocksIsProduct(n - 1, size); }
  }

  /** One connection: `input` is everything the client writes, in `iterations` blocks of `size` bytes. */
  datatype Config = Config(mode: Mode, size: nat, iterations: nat, input: seq<Byte>) {
    predicate Valid() {
      0 < size <= BUFFER_BYTES && 0 < iterations && |input| == Blocks(iterations, size)
    }
    function Total(): nat { |input| }
    predicate Multi() { mode == Multishot }
  }

  datatype Fragment = Fragment(bid: nat, len: nat, sent: nat)

  datatype Cqe = Cqe(userData: nat, res: int, more: bool, notif: bool, bid: Option<nat>)

  // ---------------------------------------------------------------- user loop

  datatype Pc = Top | Waiting | Draining | Done | Failed

  datatype User = User(
    pc: Pc, received: nat, sent: nat, queue: seq<Fragment>,
    receiving: bool, sending: bool, zcResult: int, canceled: bool)

  /** The guard that arms a receive at the top of the loop. */
  predicate ArmsReceive(c: Config, u: User) {
    !u.receiving && u.received < c.Total() && (c.Multi() || u.queue == [])
  }

  /** The guard that arms a send at the top of the loop. */
  predicate ArmsSend(u: User) {
    !u.sending && u.queue != []
  }

  /** The check after the drain loop. */
  function Finish(c: Config, u: User): User {
    if u.queue == [] && !u.sending && u.received == c.Total() then u.(pc := Done) else u.(pc := Failed)
  }

  /** The top of the loop: test the loop condition, then arm what the guards allow. */
  function AtTop(c: Config, u: User): User {
    if u.sent < c.Total() then
      u.(pc := Waiting, receiving := u.receiving || ArmsReceive(c, u), sending := u.sending || ArmsSend(u))
    else if u.receiving then
      u.(pc := Draining)
    else
      Finish(c, u)
  }

  function HandleReceive(c: Config, u0: User, cqe: Cqe): User {
    var u := if cqe.more then u0 else u0.(receiving := false);
    if cqe.res < 0 then u.(pc := Failed)
    else if cqe.res == 0 then u.(pc := if u.received == c.Total() then Top else Failed)
    else if |u.queue| >= BUFFERS then u.(pc := Failed)
    else if c.Multi() && cqe.bid.None? then u.(pc := Failed)
    else
      var bid := if c.Multi() then cqe.bid.value else 0;
      var received := u.received + cqe.res;
      u.(queue := u.queue + [Fragment(bid, cqe.res, 0)],
         received := received,
         pc := if received <= c.Total() then Top else Failed)
  }

  function HandleSend(u: User, cqe: Cqe): User {
    if !u.sending then u.(pc := Failed)
    else if cqe.more then
      if cqe.res > 0 then u.(zcResult := cqe.res, pc := Top) else u.(pc := Failed)
    else
      var result := if cqe.notif then u.zcResult else cqe.res;
      if result <= 0 || u.queue == [] then u.(pc := Failed)
      else
        var f := u.queue[0].(sent := u.queue[0].sent + result);
        if f.sent > f.len then u.(pc := Failed)
        else u.(sent := u.sent + result, sending := false, pc := Top,
                queue := if f.sent == f.len then u.queue[1..] else [f] + u.queue[1..])
  }

  function HandleDrain(c: Config, u: User, cqe: Cqe): User {
    var v :=
      if cqe.userData == CANCEL then
        if cqe.res == 0 || cqe.res == -ENOENT || cqe.res == -EALREADY
        then u.(canceled := true) else u.(pc := Failed)
      else if cqe.userData == RECV && cqe.res <= 0 then
        u.(receiving := u.receiving && cqe.more)
      else u.(pc := Failed);
    if v.pc == Failed || v.receiving || !v.canceled then v else Finish(c, v)
  }

  /** One completion, consumed by the loop (Waiting) or by the drain loop (Draining). */
  function Handle(c: Config, u: User, cqe: Cqe): User {
    if u.pc == Draining then HandleDrain(c, u, cqe)
    else if cqe.userData == RECV then HandleReceive(c, u, cqe)
    else if cqe.userData == SEND then HandleSend(u, cqe)
    else u.(pc := Failed)
  }

  /** The buffer ids this completion hands back to the provided-buffer ring. */
  function Recycled(c: Config, u: User, cqe: Cqe): set<nat> {
    var v := Handle(c, u, cqe);
    if c.Multi() && u.pc == Waiting && cqe.userData == SEND && v.pc == Top && |v.queue| < |u.queue|
    then {u.queue[0].bid} else {}
  }

  // ------------------------------------------------------------------- kernel

  /** An accepted zero-copy send stays pinned to user memory until it is transmitted. */
  datatype SendOp =
    | NoSend
    | Armed(bid: nat, off: nat, len: nat)
    | Pinned(bid: nat, off: nat, n: nat)
    | Transmitted(n: nat)

  datatype Kernel = Kernel(
    available: set<nat>, storage: seq<seq<Byte>>, taken: nat, output: seq<Byte>,
    recvArmed: bool, send: SendOp, cancelPending: bool,
    recvCq: seq<Cqe>, sendCq: seq<Cqe>, cancelCq: seq<Cqe>)

  /** The client writes block `base .. base + size`, then reads its echo, then starts the next block. */
  datatype Client = Client(iteration: nat, base: nat, written: nat, echoed: nat, closed: bool)

  datatype State = State(user: User, kernel: Kernel, client: Client)

  datatype Source = FromReceive | FromSend | FromCancel

  datatype Step =
    | ClientWrite(n: nat)
    | ClientRead(n: nat)
    | ClientClose
    | Receive(n: nat, bid: nat, more: bool)
    | ReceiveEof
    | SendCopied(n: nat)
    | SendPin(n: nat)
    | Transmit
    | Notify(usage: int)
    | CancelFound
    | CancelMissed
    | CancelBusy
    | UserTop
    | UserTake(source: Source)

  predicate IsUserStep(step: Step) { step.UserTop? || step.UserTake? }

  /** All buffer ids, as registered before the first connection. */
  ghost predicate ProvidedOk(c: Config, provided: set<nat>) {
    c.Multi() ==> |provided| == BUFFERS && forall b :: b in provided ==> b < BUFFERS
  }

  function Init(c: Config, storage: seq<seq<Byte>>, provided: set<nat>): State {
    State(User(Top, 0, 0, [], false, false, 0, false),
          Kernel(provided, storage, 0, [], false, NoSend, false, [], [], []),
          Client(0, 0, 0, 0, false))
  }

  function QueueOf(k: Kernel, source: Source): seq<Cqe> {
    match source
    case FromReceive => k.recvCq
    case FromSend => k.sendCq
    case FromCancel => k.cancelCq
  }

  predicate Enabled(c: Config, s: State, step: Step) {
    var k, cl := s.kernel, s.client;
    match step
    case ClientWrite(n) => 0 < n && cl.written + n <= cl.base + c.size
    case ClientRead(n) => 0 < n && cl.written == cl.base + c.size && cl.echoed + n <= |k.output|
    case ClientClose => !cl.closed && cl.echoed == c.Total()
    case Receive(n, bid, more) =>
      && k.recvArmed && 0 < n && k.taken + n <= cl.written
      && (if c.Multi() then bid in k.available && n <= BUFFER_BYTES else bid == 0 && n <= c.size && !more)
    case ReceiveEof => k.recvArmed && cl.closed && k.taken == cl.written
    case SendCopied(n) => k.send.Armed? && 0 < n <= k.send.len
    case SendPin(n) => c.mode == ZeroCopy && k.send.Armed? && 0 < n <= k.send.len
    case Transmit => k.send.Pinned?
    case Notify(_) => k.send.Transmitted?
    case CancelFound => k.cancelPending && k.recvArmed
    case CancelMissed => k.cancelPending && !k.recvArmed
    case CancelBusy => k.cancelPending && k.recvArmed
    case UserTop => s.user.pc == Top
    case UserTake(source) => (s.user.pc == Waiting || s.user.pc == Draining) && QueueOf(k, source) != []
  }

  /** What the send engine reads from user memory, at the moment it reads it. */
  function ReadStorage(storage: seq<seq<Byte>>, bid: nat, off: nat, n: nat): seq<Byte> {
    if bid < |storage| && off + n <= |storage[bid]| then storage[bid][off..off + n] else []
  }

  function WriteStorage(storage: seq<seq<Byte>>, bid: nat, data: seq<Byte>): seq<seq<Byte>> {
    if bid < |storage| && |data| <= |storage[bid]|
    then storage[bid := data + storage[bid][|data|..]] else storage
  }

  function Post(userData: nat, res: int, more: bool): Cqe {
    Cqe(userData, res, more, false, None)
  }

  function ClientApply(c: Config, s: State, step: Step): Client
    requires step.ClientWrite? || step.ClientRead? || step.ClientClose?
  {
    var cl := s.client;
    match step
    case ClientWrite(n) => cl.(written := cl.written + n)
    case ClientRead(n) =>
      var echoed := cl.echoed + n;
      if echoed == cl.base + c.size && cl.iteration + 1 < c.iterations
      then cl.(echoed := echoed, iteration := cl.iteration + 1, base := cl.base + c.size)
      else cl.(echoed := echoed)
    case ClientClose => cl.(closed := true)
  }

  function KernelApply(c: Config, k: Kernel, step: Step): Kernel {
    match step
    case Receive(n, bid, more) =>
      var data := if k.taken + n <= |c.input| then c.input[k.taken..k.taken + n] else [];
      k.(storage := WriteStorage(k.storage, bid, data), taken := k.taken + n,
         available := k.available - {bid}, recvArmed := more,
         recvCq := k.recvCq + [Cqe(RECV, n, more, false, if c.Multi() then Some(bid) else None)])
    case ReceiveEof => k.(recvArmed := false, recvCq := k.recvCq + [Post(RECV, 0, false)])
    case SendCopied(n) =>
      if !k.send.Armed? then k else
      k.(output := k.output + ReadStorage(k.storage, k.send.bid, k.send.off, n), send := NoSend,
         sendCq := k.sendCq + [Post(SEND, n, false)])
    case SendPin(n) =>
      if !k.send.Armed? then k else
      k.(send := Pinned(k.send.bid, k.send.off, n), sendCq := k.sendCq + [Post(SEND, n, true)])
    case Transmit =>
      if !k.send.Pinned? then k else
      k.(output := k.output + ReadStorage(k.storage, k.send.bid, k.send.off, k.send.n), send := Transmitted(k.send.n))
    case Notify(usage) =>
      k.(send := NoSend, sendCq := k.sendCq + [Cqe(SEND, usage, false, true, None)])
    case CancelFound =>
      k.(cancelPending := false, recvArmed := false, cancelCq := k.cancelCq + [Post(CANCEL, 0, false)],
         recvCq := k.recvCq + [Post(RECV, -ECANCELED, false)])
    case CancelMissed => k.(cancelPending := false, cancelCq := k.cancelCq + [Post(CANCEL, -ENOENT, false)])
    case CancelBusy => k.(cancelPending := false, cancelCq := k.cancelCq + [Post(CANCEL, -EALREADY, false)])
    case _ => k
  }

  /** What submitting the top-of-loop requests does to the kernel. */
  function Submit(c: Config, u: User, k: Kernel): Kernel {
    if u.sent >= c.Total() then k.(cancelPending := k.cancelPending || u.receiving)
    else
      k.(recvArmed := k.recvArmed || ArmsReceive(c, u),
         send := if ArmsSend(u)
                 then var f := u.queue[0]; Armed(f.bid, f.sent, if f.sent <= f.len then f.len - f.sent else 0)
                 else k.send)
  }

  function Pop(k: Kernel, source: Source): Kernel
    requires QueueOf(k, source) != []
  {
    match source
    case FromReceive => k.(recvCq := k.recvCq[1..])
    case FromSend => k.(sendCq := k.sendCq[1..])
    case FromCancel => k.(cancelCq := k.cancelCq[1..])
  }

  function Apply(c: Config, s: State, step: Step): State
    requires Enabled(c, s, step)
  {
    match step
    case ClientWrite(_) => s.(client := ClientApply(c, s, step))
    case ClientRead(_) => s.(client := ClientApply(c, s, step))
    case ClientClose => s.(client := ClientApply(c, s, step))
    case UserTop => s.(user := AtTop(c, s.user), kernel := Submit(c, s.user, s.kernel))
    case UserTake(source) =>
      var cqe := QueueOf(s.kernel, source)[0];
      var k := Pop(s.kernel, source);
      s.(user := Handle(c, s.user, cqe), kernel := k.(available := k.available + Recycled(c, s.user, cqe)))
    case _ => s.(kernel := KernelApply(c, s.kernel, step))
  }

  // --------------------------------------------------------------------- runs

  ghost predicate Feasible(c: Config, s: State, steps: seq<Step>)
    decreases |steps|
  {
    steps == [] || (Enabled(c, s, steps[0]) && Feasible(c, Apply(c, s, steps[0]), steps[1..]))
  }

  ghost function Final(c: Config, s: State, steps: seq<Step>): State
    requires Feasible(c, s, steps)
    decreases |steps|
  {
    if steps == [] then s else Final(c, Apply(c, s, steps[0]), steps[1..])
  }
}
