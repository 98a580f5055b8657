/**
 The inductive invariant of the echo probe: who owns each buffer, which
 completions may be outstanding, and where every byte of the input is.
 */
module EchoInvariant {
  import opened Basics
  import opened EchoModel

  /** The unread data completions, as the fragments the user loop will queue. */
  ghost function Unread(cq: seq<Cqe>): seq<Fragment>
    decreases |cq|
  {
    if cq == [] then []
    else (if cq[0].res > 0 then [Fragment(if cq[0].bid.Some? then cq[0].bid.value else 0, cq[0].res, 0)] else [])
         + Unread(cq[1..])
  }

  lemma {:induction false} UnreadAppend(cq: seq<Cqe>, cqe: Cqe)
    ensures Unread(cq + [cqe]) == Unread(cq) + Unread([cqe])
    decreases |cq|
  {
    if cq == [] {
      assert cq + [cqe] == [cqe];
    } else {
      assert (cq + [cqe])[1..] == cq[1..] + [cqe];
      UnreadAppend(cq[1..], cqe);
    }
  }

  /** Every fragment the probe is responsible for: queued, then received but unread. */
  ghost function Live(s: State): seq<Fragment> {
    s.user.queue + Unread(s.kernel.recvCq)
  }

  /** The bytes still to be sent for `fs`, read from user memory. */
  ghost function Bytes(storage: seq<seq<Byte>>, fs: seq<Fragment>): seq<Byte>
    decreases |fs|
  {
    if fs == [] then [] else Slice(storage, fs[0]) + Bytes(storage, fs[1..])
  }

  ghost function Slice(storage: seq<seq<Byte>>, f: Fragment): seq<Byte> {
    if f.sent <= f.len then ReadStorage(storage, f.bid, f.sent, f.len - f.sent) else []
  }

  ghost predicate StorageShape(storage: seq<seq<Byte>>) {
    |storage| == BUFFERS && forall i :: 0 <= i < BUFFERS ==> |storage[i]| == BUFFER_BYTES
  }

  ghost predicate FragmentOk(f: Fragment) {
    f.bid < BUFFERS && f.sent < f.len <= BUFFER_BYTES
  }

  /** Bytes already handed to the network for the head fragment but not yet counted by the user loop. */
  ghost function Flown(sending: bool, zcResult: int, send: SendOp, cq: seq<Cqe>): nat {
    if !sending then 0
    else match send
      case Transmitted(n) => n
      case NoSend =>
        if cq == [] then 0
        else var r := if cq[0].notif then zcResult else cq[0].res; if r > 0 then r else 0
      case _ => 0
  }

  ghost function FlownOf(s: State): nat {
    Flown(s.user.sending, s.user.zcResult, s.kernel.send, s.kernel.sendCq)
  }

  /** The accepted length is either still announced in the queue or remembered by the loop. */
  ghost predicate Announced(zcResult: int, cq: seq<Cqe>, n: nat) {
    if cq == [] then zcResult == n else |cq| == 1 && cq[0] == Post(SEND, n, true)
  }

  /** A send whose last completion is posted: copied in one step, or notified after a zero-copy accept. */
  ghost predicate Completed(zcResult: int, cq: seq<Cqe>, n: nat) {
    && cq != []
    && var last := cq[|cq| - 1];
       && last.userData == SEND && !last.more
       && if last.notif then Announced(zcResult, cq[..|cq| - 1], n) else cq == [Post(SEND, n, false)]
  }

  /** At most one send is outstanding, and it covers the head fragment. */
  ghost predicate SendInv(c: Config, sending: bool, zcResult: int, queue: seq<Fragment>, send: SendOp, cq: seq<Cqe>) {
    if !sending then send == NoSend && cq == []
    else
      && queue != [] && queue[0].sent < queue[0].len
      && var f := queue[0];
         var left := f.len - f.sent;
         match send
         case Armed(bid, off, len) => bid == f.bid && off == f.sent && len == left && cq == []
         case Pinned(bid, off, n) =>
           c.mode == ZeroCopy && bid == f.bid && off == f.sent && 0 < n <= left && Announced(zcResult, cq, n)
         case Transmitted(n) => c.mode == ZeroCopy && 0 < n <= left && Announced(zcResult, cq, n)
         case NoSend => var n := Flown(sending, zcResult, send, cq); 0 < n <= left && Completed(zcResult, cq, n)
  }

  /** A receive completion the kernel may leave unread. */
  ghost predicate RecvCqeOk(c: Config, draining: bool, taken: nat, cqe: Cqe) {
    && cqe.userData == RECV
    && (cqe.res > 0 ==> if c.Multi() then cqe.bid.Some? else cqe.bid.None?)
    && (cqe.res <= 0 ==> !cqe.more && taken == c.Total())
    && (cqe.res < 0 ==> draining)
  }

  /** The loop's `receiving` flag is exact, and only a final completion ends a receive. */
  ghost predicate RecvInv(c: Config, draining: bool, receiving: bool, taken: nat, armed: bool, cq: seq<Cqe>) {
    && (receiving <==> armed || cq != [])
    && (forall i :: 0 <= i < |cq| ==> RecvCqeOk(c, draining, taken, cq[i]))
    && (forall i :: 0 <= i < |cq| - 1 ==> cq[i].more)
    && (cq != [] ==> cq[|cq| - 1].more == armed)
    && (!c.Multi() && cq != [] ==> !armed && |cq| == 1)
  }

  ghost predicate Distinct(fs: seq<Fragment>) {
    forall i, j :: 0 <= i < j < |fs| ==> fs[i].bid != fs[j].bid
  }

  /** Buffer ownership. */
  ghost predicate OwnInv(c: Config, live: seq<Fragment>, available: set<nat>, armed: bool) {
    && (forall i :: 0 <= i < |live| ==> FragmentOk(live[i]))
    && (if c.Multi() then
          && Distinct(live)
          && |live| + |available| == BUFFERS
          && (forall b :: b in available ==> b < BUFFERS)
          && (forall i :: 0 <= i < |live| ==> live[i].bid !in available)
        else
          && |live| <= 1
          && (forall i :: 0 <= i < |live| ==> live[i].bid == 0)
          && (armed ==> live == []))
  }

  /** Every byte taken from the network is transmitted or still held, in order. */
  ghost predicate Conserved(c: Config, taken: nat, output: seq<Byte>, held: seq<Byte>, flown: nat) {
    && taken <= c.Total()
    && flown <= |held|
    && output + held[flown..] == c.input[..taken]
  }

  ghost predicate Counted(sent: nat, received: nat, output: nat, queued: nat, flown: nat) {
    sent + flown == output && received == sent + queued
  }

  ghost predicate ByteInv(c: Config, s: State) {
    var u, k := s.user, s.kernel;
    && StorageShape(k.storage)
    && Conserved(c, k.taken, k.output, Bytes(k.storage, Live(s)), FlownOf(s))
    && Counted(u.sent, u.received, |k.output|, |Bytes(k.storage, u.queue)|, FlownOf(s))
  }

  ghost predicate ClientInv(c: Config, cl: Client, taken: nat, output: nat) {
    && cl.iteration < c.iterations && cl.base == Blocks(cl.iteration, c.size)
    && cl.base <= cl.echoed <= output
    && taken <= cl.written
    && cl.base <= cl.written <= cl.base + c.size <= c.Total()
    && (cl.echoed < cl.base + c.size || cl.echoed == c.Total())
    && (cl.closed ==> cl.echoed == c.Total())
  }

  ghost predicate CancelAnswer(cqe: Cqe) {
    cqe.userData == CANCEL && (cqe.res == 0 || cqe.res == -ENOENT || cqe.res == -EALREADY)
  }

  /** The user loop never sits in a failed check, and the drain loop's bookkeeping is exact. */
  ghost predicate UserInv(c: Config, u: User, cancelPending: bool, cq: seq<Cqe>) {
    match u.pc
    case Top => !u.canceled && !cancelPending && cq == []
    case Waiting =>
      && !u.canceled && !cancelPending && cq == []
      && u.sent < c.Total()
      && (u.queue != [] ==> u.sending)
      && (u.receiving || u.received == c.Total() || (!c.Multi() && u.queue != []))
    case Draining =>
      && u.sent == c.Total()
      && (u.receiving || !u.canceled)
      && (if u.canceled then !cancelPending && cq == []
          else if cancelPending then cq == []
          else |cq| == 1 && CancelAnswer(cq[0]))
    case Done =>
      && u.sent == u.received == c.Total() && u.queue == []
      && !u.receiving && !u.sending && !cancelPending && cq == []
    case Failed => false
  }

  ghost predicate Inv(c: Config, s: State) {
    var u, k := s.user, s.kernel;
    && c.Valid()
    && SendInv(c, u.sending, u.zcResult, u.queue, k.send, k.sendCq)
    && RecvInv(c, u.pc == Draining, u.receiving, k.taken, k.recvArmed, k.recvCq)
    && OwnInv(c, Live(s), k.available, k.recvArmed)
    && ByteInv(c, s)
    && ClientInv(c, s.client, k.taken, |k.output|)
    && UserInv(c, u, k.cancelPending, k.cancelCq)
  }

  // ------------------------------------------------------- facts about Bytes

  lemma {:induction false} BytesAppend(storage: seq<seq<Byte>>, a: seq<Fragment>, b: seq<Fragment>)
    ensures Bytes(storage, a + b) == Bytes(storage, a) + Bytes(storage, b)
    decreases |a|
  {
    if a == [] {
      assert a + b == b;
    } else {
      assert (a + b)[1..] == a[1..] + b;
      BytesAppend(storage, a[1..], b);
    }
  }

  /** Writing a buffer no fragment uses does not change the bytes to be sent. */
  lemma {:induction false} BytesFrame(storage: seq<seq<Byte>>, fs: seq<Fragment>, bid: nat, data: seq<Byte>)
    requires forall i :: 0 <= i < |fs| ==> fs[i].bid != bid
    ensures Bytes(WriteStorage(storage, bid, data), fs) == Bytes(storage, fs)
    decreases |fs|
  {
    if fs != [] {
      BytesFrame(storage, fs[1..], bid, data);
    }
  }

  lemma {:induction false} BytesLength(storage: seq<seq<Byte>>, fs: seq<Fragment>)
    requires StorageShape(storage)
    requires forall i :: 0 <= i < |fs| ==> FragmentOk(fs[i])
    ensures |fs| <= |Bytes(storage, fs)|
    decreases |fs|
  {
    if fs != [] {
      BytesLength(storage, fs[1..]);
    }
  }

  /** A fragment with `n` more bytes sent covers its slice without the first `n` bytes. */
  lemma SliceAdvance(storage: seq<seq<Byte>>, f: Fragment, n: nat)
    requires StorageShape(storage) && FragmentOk(f) && n <= f.len - f.sent
    ensures |Slice(storage, f)| == f.len - f.sent
    ensures Slice(storage, f.(sent := f.sent + n)) == Slice(storage, f)[n..]
    ensures ReadStorage(storage, f.bid, f.sent, n) == Slice(storage, f)[..n]
  {
    var b := storage[f.bid];
    assert b[f.sent..f.len][n..] == b[f.sent + n..f.len];
    assert b[f.sent..f.len][..n] == b[f.sent..f.sent + n];
  }

  /** Dropping the first `n` elements of a list's head. */
  lemma CutHead<T>(all: seq<T>, head: seq<T>, rest: seq<T>, n: nat, after: seq<T>, read: seq<T>)
    requires all == head + rest && n <= |head| && after == head[n..] + rest && read == head[..n]
    ensures n <= |all| && after == all[n..] && read == all[..n]
  {
  }

  lemma BytesFirst(storage: seq<seq<Byte>>, f: Fragment, fs: seq<Fragment>, all: seq<Fragment>)
    requires all == [f] + fs
    ensures Bytes(storage, all) == Slice(storage, f) + Bytes(storage, fs)
  {
    assert all[1..] == fs;
  }

  lemma AdvanceFirst(storage: seq<seq<Byte>>, f: Fragment, rest: seq<Fragment>, n: nat)
    requires StorageShape(storage) && FragmentOk(f) && n <= f.len - f.sent
    ensures n <= |Bytes(storage, [f] + rest)|
    ensures Bytes(storage, [f.(sent := f.sent + n)] + rest) == Bytes(storage, [f] + rest)[n..]
    ensures ReadStorage(storage, f.bid, f.sent, n) == Bytes(storage, [f] + rest)[..n]
  {
    var g := f.(sent := f.sent + n);
    SliceAdvance(storage, f, n);
    BytesFirst(storage, f, rest, [f] + rest);
    BytesFirst(storage, g, rest, [g] + rest);
    CutHead(Bytes(storage, [f] + rest), Slice(storage, f), Bytes(storage, rest), n,
            Bytes(storage, [g] + rest), ReadStorage(storage, f.bid, f.sent, n));
  }

  /** Sending `n` bytes of the head fragment drops exactly the first `n` bytes. */
  lemma BytesAdvance(storage: seq<seq<Byte>>, fs: seq<Fragment>, n: nat)
    requires StorageShape(storage) && fs != [] && FragmentOk(fs[0]) && n <= fs[0].len - fs[0].sent
    ensures n <= |Bytes(storage, fs)|
    ensures var f := fs[0].(sent := fs[0].sent + n);
            Bytes(storage, [f] + fs[1..]) == Bytes(storage, fs)[n..]
    ensures ReadStorage(storage, fs[0].bid, fs[0].sent, n) == Bytes(storage, fs)[..n]
  {
    assert fs == [fs[0]] + fs[1..];
    AdvanceFirst(storage, fs[0], fs[1..], n);
  }

  lemma InitInv(c: Config, storage: seq<seq<Byte>>, provided: set<nat>)
    requires c.Valid() && StorageShape(storage) && ProvidedOk(c, provided)
    ensures Inv(c, Init(c, storage, provided))
  {
    BlockBound(0, c.iterations, c.size);
  }

  /** Block `i` of `n` ends within the input. */
  lemma {:induction false} BlockBound(i: nat, n: nat, size: nat)
    requires i < n
    ensures Blocks(i + 1, size) == Blocks(i, size) + size <= Blocks(n, size)
  {
    if i + 1 < n { BlockBound(i, n - 1, size); }
  }
}
