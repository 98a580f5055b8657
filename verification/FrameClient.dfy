/**
 What the control-frame client makes of the frames it reads: tests/http2_control_comparison.py,
 `Client.process` and `Client.observe`.

 The HPACK decoder and the socket are oracles: what the decoder answers to the blocks it has been
 given so far, whether the k-th answer can be sent, and what the socket delivers.
 */
module FrameClient {
  import opened Basics
  import opened FrameCodec
  import opened FramePayload

  datatype Response = Response(
    statuses: seq<int>, bodyBytes: nat, prefix: Bytes, ended: bool, reset: Option<nat>, resetCodes: seq<nat>)
  datatype Pending = Pending(block: Bytes, ending: bool)
  datatype Decoded = Decoded(stream: nat, block: Bytes)

  /** What the decoder makes of a block, and whether it names a status; or it raises. */
  datatype Decode = Undecodable | Fields(status: Option<int>)

  datatype Env = Env(decode: seq<Decoded> -> Decode, sendOk: nat -> bool)

  /** What belongs to the connection as a whole. */
  datatype Control = Control(
    counts: map<nat, nat>, settingsAcks: nat, settings: map<nat, nat>, pingAcks: seq<Bytes>, goaways: seq<Goaway>,
    windows: map<nat, nat>, sent: seq<Frame>)

  /** What belongs to single streams. */
  datatype Streams = Streams(responses: map<nat, Response>, blocks: map<nat, Pending>, decoded: seq<Decoded>)

  /** How handling ended: it goes on, an exception left the client, or the connection is lost. */
  datatype Outcome = Fine | Raised | Lost

  datatype Conn = Conn(control: Control, streams: Streams, halt: Outcome)

  const START: Conn := Conn(Control(map[], 0, map[], [], [], map[], []), Streams(map[], map[], []), Fine)
  const FRESH: Response := Response([], 0, [], false, None, [])

  function Count(m: map<nat, nat>, k: nat): nat { if k in m then m[k] else 0 }
  function Of(m: map<nat, Response>, s: nat): Response { if s in m then m[s] else FRESH }

  // ------------------------------------------------------- the connection's part

  function Send(env: Env, k: Control, f: Frame): (Control, Outcome) {
    if env.sendOk(|k.sent|) then (k.(sent := k.sent + [f]), Fine) else (k, Lost)
  }

  function OnSettings(env: Env, k: Control, f: Frame): (Control, Outcome) {
    if Flag(f.flags, 1) then (k.(settingsAcks := k.settingsAcks + 1), Fine)
    else
      var (settings, ok) := Configure(k.settings, f.payload);
      if ok then Send(env, k.(settings := settings), Frame(4, 0, 1, [])) else (k.(settings := settings), Raised)
  }

  function OnPing(env: Env, k: Control, f: Frame): (Control, Outcome) {
    if Flag(f.flags, 1) then (k.(pingAcks := k.pingAcks + [f.payload]), Fine)
    else Send(env, k, Frame(6, 0, 1, f.payload))
  }

  function OnWindow(windows: map<nat, nat>, f: Frame): map<nat, nat> {
    windows[f.stream := Count(windows, f.stream) + FromBytes(f.payload) % RESERVED_BIT]
  }

  function OnControl(env: Env, k: Control, f: Frame): (Control, Outcome) {
    var counted := k.(counts := k.counts[f.kind := Count(k.counts, f.kind) + 1]);
    if f.kind == 4 then OnSettings(env, counted, f)
    else if f.kind == 6 then OnPing(env, counted, f)
    else if f.kind == 7 then (counted.(goaways := k.goaways + [ReadGoaway(f.payload)]), Fine)
    else if f.kind == 8 then (counted.(windows := OnWindow(k.windows, f)), Fine)
    else (counted, Fine)
  }

  // ----------------------------------------------------------- the streams' part

  function OnReset(r: Response, f: Frame): Response {
    var code := FromBytes(f.payload);
    r.(resetCodes := r.resetCodes + [code], reset := if r.reset.None? then Some(code) else r.reset)
  }

  /** What a HEADERS or CONTINUATION frame does to its stream's block. */
  datatype Assembly = Stuck | Grown(pending: Pending, complete: bool)

  /** HEADERS opens a block and CONTINUATION extends the open one; END_HEADERS completes it. */
  function Assemble(f: Frame, open: Option<Pending>): Assembly {
    var fragment := if f.kind == 1 then HeadersFragment(f.flags, f.payload) else Some(f.payload);
    var current := if f.kind == 1 then Some(Pending([], Flag(f.flags, 1))) else open;
    if fragment.None? || current.None? then Stuck
    else Grown(Pending(current.value.block + fragment.value, current.value.ending), Flag(f.flags, 4))
  }

  function OpenBlock(blocks: map<nat, Pending>, s: nat): Option<Pending> {
    if s in blocks then Some(blocks[s]) else None
  }

  /** A completed block goes to the decoder; if that raises, the block stays open. */
  function OnBlock(env: Env, t: Streams, s: nat, pending: Pending): (Streams, Outcome) {
    var r, all := Of(t.responses, s), t.decoded + [Decoded(s, pending.block)];
    match env.decode(all)
    case Undecodable => (t.(responses := t.responses[s := r], blocks := t.blocks[s := pending]), Raised)
    case Fields(status) =>
      var statuses := if status.Some? then r.statuses + [status.value] else r.statuses;
      (Streams(t.responses[s := r.(statuses := statuses, ended := r.ended || pending.ending)], t.blocks - {s}, all),
       Fine)
  }

  function OnHeaders(env: Env, t: Streams, f: Frame): (Streams, Outcome) {
    match Assemble(f, OpenBlock(t.blocks, f.stream))
    case Stuck => (t.(responses := t.responses[f.stream := Of(t.responses, f.stream)]), Raised)
    case Grown(pending, complete) =>
      if complete then OnBlock(env, t, f.stream, pending)
      else (t.(responses := t.responses[f.stream := Of(t.responses, f.stream)],
               blocks := t.blocks[f.stream := pending]), Fine)
  }

  function OnData(r: Response, f: Frame): (Response, Outcome) {
    var body := DataBody(f.flags, f.payload);
    if body.None? then (r, Raised)
    else
      var room := if |r.prefix| < 64 then 64 - |r.prefix| else 0;
      (r.(bodyBytes := r.bodyBytes + |body.value|, prefix := r.prefix + Take(body.value, room),
          ended := r.ended || Flag(f.flags, 1)), Fine)
  }

  function OnStreams(env: Env, t: Streams, f: Frame): (Streams, Outcome) {
    if f.kind == 3 then (t.(responses := t.responses[f.stream := OnReset(Of(t.responses, f.stream), f)]), Fine)
    else if f.kind == 1 || f.kind == 9 then OnHeaders(env, t, f)
    else if f.kind == 0 then
      var (r, outcome) := OnData(Of(t.responses, f.stream), f);
      (t.(responses := t.responses[f.stream := r]), outcome)
    else (t, Fine)
  }

  // -------------------------------------------------------------- whole frames

  /** A frame kind belongs either to the connection or to a stream. */
  function Process(env: Env, c: Conn, f: Frame): Conn {
    var (control, outcome) := OnControl(env, c.control, f);
    var (streams, outcome') := OnStreams(env, c.streams, f);
    Conn(control, streams, if outcome != Fine then outcome else outcome')
  }

  /** Frame after frame, until handling ends. */
  function ProcessAll(env: Env, c: Conn, fs: seq<Frame>): Conn
    decreases |fs|
  {
    if fs == [] || c.halt != Fine then c else ProcessAll(env, Process(env, c, fs[0]), fs[1..])
  }

  // ------------------------------------------------------------- the object

  /** The HEADERS and CONTINUATION branch, up to the completed block. */
  method AssembleFrame(f: Frame, before: Option<Pending>) returns (a: Assembly)
    requires f.kind == 1 || f.kind == 9
    ensures a == Assemble(f, before)
  {
    var payload, open := f.payload, before;
    if f.kind == 1 {
      if Flag(f.flags, 8) {
        var unpadded := Unpad(payload);
        if unpadded.None? { return Stuck; }
        payload := unpadded.value;
      }
      if Flag(f.flags, 32) { payload := Skip(payload, 5); }
      open := Some(Pending([], Flag(f.flags, 1)));
    }
    if open.None? { return Stuck; }
    var pending := open.value.(block := open.value.block + payload);
    return Grown(pending, Flag(f.flags, 4));
  }

  /** What the socket gives next: bytes, nothing before the caller is done or its time is up, an error, or the end. */
  datatype Arrival = Part(bytes: Bytes) | Stop | Broken | Eof

  /** The chunks before anything else arrives. */
  function Parts(arrivals: seq<Arrival>): seq<Bytes> {
    if arrivals == [] || !arrivals[0].Part? then [] else [arrivals[0].bytes] + Parts(arrivals[1..])
  }

  /** The first thing that is not a chunk is an error or the end. */
  predicate Ends(arrivals: seq<Arrival>) {
    arrivals != [] && if arrivals[0].Part? then Ends(arrivals[1..]) else !arrivals[0].Stop?
  }

  class Client {
    const env: Env
    var buffer: Bytes
    var counts: map<nat, nat>
    var settingsAcks: nat
    var settings: map<nat, nat>
    var pingAcks: seq<Bytes>
    var goaways: seq<Goaway>
    var windows: map<nat, nat>
    var responses: map<nat, Response>
    var blocks: map<nat, Pending>
    var decoded: seq<Decoded>
    var sent: seq<Frame>
    var halt: Outcome

    ghost function ControlState(): Control
      reads this
    {
      Control(counts, settingsAcks, settings, pingAcks, goaways, windows, sent)
    }

    ghost function StreamState(): Streams
      reads this
    {
      Streams(responses, blocks, decoded)
    }

    ghost function State(): Conn
      reads this
    {
      Conn(ControlState(), StreamState(), halt)
    }

    constructor (env: Env)
      ensures this.env == env && buffer == [] && State() == START
    {
      this.env := env;
      buffer, counts, settingsAcks, settings := [], map[], 0, map[];
      pingAcks, goaways, windows, responses, blocks := [], [], map[], map[], map[];
      decoded, sent, halt := [], [], Fine;
    }

    method Answer(f: Frame)
      requires halt == Fine
      modifies this`sent, this`halt
      ensures (ControlState(), halt) == Send(env, old(ControlState()), f)
    {
      if env.sendOk(|sent|) { sent := sent + [f]; } else { halt := Lost; }
    }

    method HandleSettings(f: Frame)
      requires f.kind == 4 && halt == Fine
      modifies this`settingsAcks, this`settings, this`sent, this`halt
      ensures (ControlState(), halt) == OnSettings(env, old(ControlState()), f)
    {
      if Flag(f.flags, 1) {
        settingsAcks := settingsAcks + 1;
        return;
      }
      var payload := f.payload;
      while payload != []
        invariant Configure(settings, payload) == Configure(old(settings), f.payload)
        invariant halt == Fine && sent == old(sent) && settingsAcks == old(settingsAcks)
        decreases |payload|
      {
        if |payload| < 6 {
          halt := Raised;
          return;
        }
        settings := settings[FromBytes(payload[..2]) := FromBytes(payload[2..6])];
        payload := payload[6..];
      }
      Answer(Frame(4, 0, 1, []));
    }

    method HandleControl(f: Frame)
      requires halt == Fine
      modifies this`counts, this`settingsAcks, this`settings, this`pingAcks
      modifies this`goaways, this`windows, this`sent, this`halt
      ensures (ControlState(), halt) == OnControl(env, old(ControlState()), f)
    {
      counts := counts[f.kind := Count(counts, f.kind) + 1];
      if f.kind == 4 {
        HandleSettings(f);
      } else if f.kind == 6 {
        if Flag(f.flags, 1) { pingAcks := pingAcks + [f.payload]; }
        else { Answer(Frame(6, 0, 1, f.payload)); }
      } else if f.kind == 7 {
        goaways := goaways + [ReadGoaway(f.payload)];
      } else if f.kind == 8 {
        windows := windows[f.stream := Count(windows, f.stream) + FromBytes(f.payload) % RESERVED_BIT];
      }
    }

    method HandleBlock(s: nat, pending: Pending)
      requires halt == Fine
      modifies this`responses, this`blocks, this`decoded, this`halt
      ensures (StreamState(), halt) == OnBlock(env, old(StreamState()), s, pending)
    {
      var response := Of(responses, s);
      var fields := env.decode(decoded + [Decoded(s, pending.block)]);
      if fields.Undecodable? {
        responses, blocks, halt := responses[s := response], blocks[s := pending], Raised;
        return;
      }
      decoded := decoded + [Decoded(s, pending.block)];
      if fields.status.Some? { response := response.(statuses := response.statuses + [fields.status.value]); }
      response := response.(ended := response.ended || pending.ending);
      responses, blocks := responses[s := response], blocks - {s};
    }

    method HandleHeaders(f: Frame)
      requires (f.kind == 1 || f.kind == 9) && halt == Fine
      modifies this`responses, this`blocks, this`decoded, this`halt
      ensures (StreamState(), halt) == OnHeaders(env, old(StreamState()), f)
    {
      var a := AssembleFrame(f, OpenBlock(blocks, f.stream));
      if a.Grown? && a.complete {
        HandleBlock(f.stream, a.pending);
      } else {
        responses := responses[f.stream := Of(responses, f.stream)];
        if a.Stuck? { halt := Raised; } else { blocks := blocks[f.stream := a.pending]; }
      }
    }

    method HandleReset(f: Frame)
      requires f.kind == 3
      modifies this`responses
      ensures responses == old(responses)[f.stream := OnReset(Of(old(responses), f.stream), f)]
    {
      var response, code := Of(responses, f.stream), FromBytes(f.payload);
      response := response.(resetCodes := response.resetCodes + [code]);
      if response.reset.None? { response := response.(reset := Some(code)); }
      responses := responses[f.stream := response];
    }

    method HandleData(f: Frame)
      requires f.kind == 0 && halt == Fine
      modifies this`responses, this`halt
      ensures responses == old(responses)[f.stream := OnData(Of(old(responses), f.stream), f).0]
      ensures halt == OnData(Of(old(responses), f.stream), f).1
    {
      var response, payload := Of(responses, f.stream), f.payload;
      if Flag(f.flags, 8) {
        var unpadded := Unpad(payload);
        if unpadded.None? {
          responses, halt := responses[f.stream := response], Raised;
          return;
        }
        payload := unpadded.value;
      }
      response := response.(bodyBytes := response.bodyBytes + |payload|);
      var room := if |response.prefix| < 64 then 64 - |response.prefix| else 0;
      response := response.(prefix := response.prefix + Take(payload, room));
      response := response.(ended := response.ended || Flag(f.flags, 1));
      responses := responses[f.stream := response];
    }

    method HandleStreams(f: Frame)
      requires halt == Fine
      modifies this`responses, this`blocks, this`decoded, this`halt
      ensures (StreamState(), halt) == OnStreams(env, old(StreamState()), f)
    {
      if f.kind == 3 {
        HandleReset(f);
      } else if f.kind == 1 || f.kind == 9 {
        HandleHeaders(f);
      } else if f.kind == 0 {
        HandleData(f);
      }
    }

    /** `process`. */
    method Handle(f: Frame)
      requires halt == Fine
      modifies this
      ensures State() == Process(env, old(State()), f) && buffer == old(buffer)
    {
      HandleControl(f);
      if halt == Fine { HandleStreams(f); }
    }

    /** The inner loop of `observe`: handle every complete frame, stop at an oversized one. */
    method HandleBuffer() returns (tooLarge: bool)
      requires halt == Fine
      modifies this
      ensures State() == ProcessAll(env, old(State()), Drain(old(buffer)).frames)
      ensures halt == Fine ==> buffer == Drain(old(buffer)).rest && tooLarge == Drain(old(buffer)).tooLarge
      ensures halt != Fine ==> !tooLarge
    {
      ghost var all := Drain(buffer);
      ghost var end := ProcessAll(env, State(), all.frames);
      while |buffer| >= 9
        invariant halt == Fine
        invariant DrainsTo(env, State(), buffer, end, all)
        decreases |buffer|
      {
        var size := FromBytes(buffer[..3]) + 9;
        if size > BUDGET { return true; }
        if |buffer| < size { return false; }
        var f := Frame(buffer[3], FromBytes(buffer[5..9]) % RESERVED_BIT, buffer[4], buffer[9..size]);
        DrainNext(env, State(), buffer, end, all);
        buffer := buffer[size..];
        Handle(f);
        if halt != Fine { return false; }
      }
      return false;
    }

    /** The rest of `observe`: wait, append what arrives, handle the buffer, until something else arrives. */
    method Receive(arrivals: seq<Arrival>) returns (tooLarge: bool)
      requires halt == Fine && Drain(buffer) == Drained([], buffer, false)
      modifies this
      ensures var d := Drain(old(buffer) + Concat(Parts(arrivals)));
              var c := ProcessAll(env, old(State()), d.frames);
              && State() == (if c.halt == Fine && !d.tooLarge && Ends(arrivals) then c.(halt := Lost) else c)
              && (c.halt == Fine ==> tooLarge == d.tooLarge)
              && (c.halt == Fine && !d.tooLarge ==> buffer == d.rest)
    {
      ghost var d := Drain(buffer + Concat(Parts(arrivals)));
      ghost var c := ProcessAll(env, State(), d.frames);
      tooLarge := false;
      var i := 0;
      assert arrivals[0..] == arrivals;
      while i < |arrivals| && arrivals[i].Part?
        invariant i <= |arrivals| && halt == Fine && !tooLarge && Drain(buffer) == Drained([], buffer, false)
        invariant Leads(env, State(), buffer, Concat(Parts(arrivals[i..])), d, c)
        invariant Ends(arrivals[i..]) == Ends(arrivals)
      {
        assert arrivals[i..][1..] == arrivals[i + 1..];
        LeadsOn(env, State(), buffer, arrivals[i].bytes, Parts(arrivals[i + 1..]), d, c);
        DrainSettles(buffer + arrivals[i].bytes);
        buffer := buffer + arrivals[i].bytes;
        tooLarge := HandleBuffer();
        if tooLarge || halt != Fine { return; }
        i := i + 1;
      }
      assert buffer + [] == buffer;
      if i < |arrivals| && !arrivals[i].Stop? { halt := Lost; }
    }

    /**
     `observe`: nothing on a lost connection; otherwise what the buffer holds and what arrives is
     handled as one stream.
     */
    method Observe(arrivals: seq<Arrival>) returns (tooLarge: bool)
      requires halt != Raised
      modifies this
      ensures var d := Drain(old(buffer) + Concat(Parts(arrivals)));
              var c := ProcessAll(env, old(State()), d.frames);
              && State() == (if c.halt == Fine && !d.tooLarge && Ends(arrivals) then c.(halt := Lost) else c)
              && (c.halt == Fine ==> tooLarge == d.tooLarge)
              && (c.halt == Fine && !d.tooLarge ==> buffer == d.rest)
    {
      tooLarge := false;
      if halt != Fine { return; }
      ghost var first, more := Drain(buffer), Concat(Parts(arrivals));
      DrainExtends(buffer, more);
      DrainSettles(buffer);
      ResumeProcess(env, State(), first, more, Drain(buffer + more));
      tooLarge := HandleBuffer();
      if tooLarge || halt != Fine { return; }
      tooLarge := Receive(arrivals);
    }
  }

  // ----------------------------------------------------------- about the loops

  /** From `c` with this buffer, `more` leads to what `d` drains and to `end`. */
  ghost predicate Leads(env: Env, c: Conn, buffer: Bytes, more: Bytes, d: Drained, end: Conn) {
    var e := Drain(buffer + more);
    ProcessAll(env, c, e.frames) == end && e.rest == d.rest && e.tooLarge == d.tooLarge
  }

  lemma DrainFirst(b: Bytes)
    requires Next(b).Got?
    ensures Drain(b).frames != [] && Drain(b).frames[0] == Next(b).frame
    ensures Drain(b).frames[1..] == Drain(Next(b).rest).frames
    ensures Drain(b).rest == Drain(Next(b).rest).rest && Drain(b).tooLarge == Drain(Next(b).rest).tooLarge
  {
  }

  /** Handling the buffer's frames from `c` on leads to `end`, and leaves what `all` leaves. */
  ghost predicate DrainsTo(env: Env, c: Conn, buffer: Bytes, end: Conn, all: Drained) {
    && ProcessAll(env, c, Drain(buffer).frames) == end
    && Drain(buffer).rest == all.rest && Drain(buffer).tooLarge == all.tooLarge
  }

  lemma DrainNext(env: Env, c: Conn, buffer: Bytes, end: Conn, all: Drained)
    requires DrainsTo(env, c, buffer, end, all) && c.halt == Fine && Next(buffer).Got?
    ensures DrainsTo(env, Process(env, c, Next(buffer).frame), Next(buffer).rest, end, all)
    ensures Process(env, c, Next(buffer).frame).halt != Fine ==> Process(env, c, Next(buffer).frame) == end
  {
    DrainFirst(buffer);
  }

  lemma {:induction false} ProcessAppend(env: Env, c: Conn, a: seq<Frame>, b: seq<Frame>)
    ensures ProcessAll(env, c, a + b) == ProcessAll(env, ProcessAll(env, c, a), b)
    decreases |a|
  {
    if a == [] {
      assert a + b == b;
    } else if c.halt == Fine {
      assert (a + b)[1..] == a[1..] + b;
      ProcessAppend(env, Process(env, c, a[0]), a[1..], b);
    }
  }

  /** Handling what a drain found and then what it resumes with is handling all of it. */
  lemma ResumeProcess(env: Env, c: Conn, d: Drained, more: Bytes, e: Drained)
    requires Resumes(d, more, e)
    ensures !d.tooLarge ==>
              ProcessAll(env, c, e.frames) == ProcessAll(env, ProcessAll(env, c, d.frames), Drain(d.rest + more).frames)
    ensures ProcessAll(env, c, d.frames).halt != Fine ==> ProcessAll(env, c, e.frames) == ProcessAll(env, c, d.frames)
  {
    if !d.tooLarge { ProcessAppend(env, c, d.frames, Drain(d.rest + more).frames); }
  }

  /** What one chunk contributes. */
  lemma LeadsOn(env: Env, c: Conn, buffer: Bytes, chunk: Bytes, rest: seq<Bytes>, d: Drained, end: Conn)
    requires Leads(env, c, buffer, Concat([chunk] + rest), d, end)
    ensures var first := Drain(buffer + chunk);
            var now := ProcessAll(env, c, first.frames);
            && (first.tooLarge ==> end == now && d.tooLarge)
            && (now.halt != Fine ==> end == now)
            && (!first.tooLarge ==> Leads(env, now, first.rest, Concat(rest), d, end))
  {
    var more := Concat(rest);
    assert ([chunk] + rest)[1..] == rest;
    assert buffer + Concat([chunk] + rest) == buffer + chunk + more;
    DrainExtends(buffer + chunk, more);
    ResumeProcess(env, c, Drain(buffer + chunk), more, Drain(buffer + chunk + more));
  }
}
