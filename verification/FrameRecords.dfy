/**
 The rest of what the control-frame client has recorded after any list of frames: acknowledgements,
 GOAWAYs, the peer's settings, and which responses have ended.
 */
module FrameRecords {
  import opened Basics
  import opened FrameCodec
  import opened FramePayload
  import opened FrameClient
  import opened FrameTheorems

  // ----------------------------------------------- acknowledgements and GOAWAYs

  function PingAckOf(f: Frame): seq<Bytes> { if f.kind == 6 && Flag(f.flags, 1) then [f.payload] else [] }
  function PingAcks(fs: seq<Frame>): seq<Bytes> { if fs == [] then [] else PingAckOf(fs[0]) + PingAcks(fs[1..]) }

  function GoawayOf(f: Frame): seq<Goaway> { if f.kind == 7 then [ReadGoaway(f.payload)] else [] }
  function Goaways(fs: seq<Frame>): seq<Goaway> { if fs == [] then [] else GoawayOf(fs[0]) + Goaways(fs[1..]) }

  function SettingsAckOf(f: Frame): nat { if f.kind == 4 && Flag(f.flags, 1) then 1 else 0 }
  function SettingsAcks(fs: seq<Frame>): nat { if fs == [] then 0 else SettingsAckOf(fs[0]) + SettingsAcks(fs[1..]) }

  /** From `k` to `l`, what the peer acknowledged and announced in `fs` has been noted. */
  ghost predicate Noted(k: Control, l: Control, fs: seq<Frame>) {
    && l.pingAcks == k.pingAcks + PingAcks(fs)
    && l.goaways == k.goaways + Goaways(fs)
    && l.settingsAcks == k.settingsAcks + SettingsAcks(fs)
  }

  lemma NotedFirst(k: Control, next: Control, l: Control, f: Frame, fs: seq<Frame>)
    requires Noted(next, l, fs) && next.settingsAcks == k.settingsAcks + SettingsAckOf(f)
    requires next.pingAcks == k.pingAcks + PingAckOf(f) && next.goaways == k.goaways + GoawayOf(f)
    ensures Noted(k, l, [f] + fs)
  {
    assert ([f] + fs)[1..] == fs && ([f] + fs)[0] == f;
    Assoc(k.pingAcks, PingAckOf(f), PingAcks(fs));
    Assoc(k.goaways, GoawayOf(f), Goaways(fs));
  }

  lemma ControlNotes(env: Env, k: Control, f: Frame)
    ensures var l := OnControl(env, k, f).0;
            && l.settingsAcks == k.settingsAcks + SettingsAckOf(f)
            && l.pingAcks == k.pingAcks + PingAckOf(f) && l.goaways == k.goaways + GoawayOf(f)
  {
    assert k.pingAcks + [] == k.pingAcks && k.goaways + [] == k.goaways;
  }

  /** None of these frames ends handling. */
  lemma EndingNotes(env: Env, c: Conn, f: Frame)
    requires Process(env, c, f).halt != Fine
    ensures PingAckOf(f) == [] && GoawayOf(f) == [] && SettingsAckOf(f) == 0
  {
  }

  lemma {:induction false} NotesFrom(env: Env, c: Conn, fs: seq<Frame>)
    requires c.halt == Fine
    ensures Noted(c.control, ProcessAll(env, c, fs).control, Handled(env, c, fs))
    decreases |fs|
  {
    if fs != [] {
      var next := Into(env, c, fs);
      ControlNotes(env, c.control, fs[0]);
      if next.halt == Fine {
        NotesFrom(env, next, fs[1..]);
        NotedFirst(c.control, next.control, ProcessAll(env, c, fs).control, fs[0], Handled(env, next, fs[1..]));
      } else {
        EndingNotes(env, c, fs[0]);
      }
    }
  }

  /** Acknowledged pings, GOAWAYs and settings acknowledgements are those of the frames handled, in order. */
  lemma AllNoted(env: Env, fs: seq<Frame>)
    ensures var k, done := ProcessAll(env, START, fs).control, Handled(env, START, fs);
            k.pingAcks == PingAcks(done) && k.goaways == Goaways(done) && k.settingsAcks == SettingsAcks(done)
  {
    NotesFrom(env, START, fs);
  }

  // ------------------------------------------------------------------- settings

  /** The complete entries of a SETTINGS payload: a 16-bit identifier and a 32-bit value each. */
  function Entries(payload: Bytes): seq<(nat, nat)>
    decreases |payload|
  {
    if |payload| < 6 then [] else [(FromBytes(payload[..2]), FromBytes(payload[2..6]))] + Entries(payload[6..])
  }

  function EntriesOf(f: Frame): seq<(nat, nat)> { if f.kind == 4 && !Flag(f.flags, 1) then Entries(f.payload) else [] }

  function AllEntries(fs: seq<Frame>): seq<(nat, nat)> {
    if fs == [] then [] else EntriesOf(fs[0]) + AllEntries(fs[1..])
  }

  lemma {:induction false} ConfigureAssigns(m: map<nat, nat>, payload: Bytes)
    ensures Configure(m, payload).0 == Assigned(m, Entries(payload))
    decreases |payload|
  {
    if |payload| >= 6 {
      var entry, rest := (FromBytes(payload[..2]), FromBytes(payload[2..6])), Entries(payload[6..]);
      assert ([entry] + rest)[1..] == rest;
      ConfigureAssigns(m[entry.0 := entry.1], payload[6..]);
    }
  }

  lemma {:induction false} AssignedConcat(m: map<nat, nat>, a: seq<(nat, nat)>, b: seq<(nat, nat)>)
    ensures Assigned(m, a + b) == Assigned(Assigned(m, a), b)
    decreases |a|
  {
    if a == [] {
      assert a + b == b;
    } else {
      assert (a + b)[1..] == a[1..] + b;
      AssignedConcat(m[a[0].0 := a[0].1], a[1..], b);
    }
  }

  lemma SettingsAssign(env: Env, k: Control, f: Frame)
    requires f.kind == 4
    ensures OnSettings(env, k, f).0.settings == Assigned(k.settings, EntriesOf(f))
  {
    if !Flag(f.flags, 1) { ConfigureAssigns(k.settings, f.payload); }
  }

  lemma ControlSettings(env: Env, k: Control, f: Frame)
    ensures OnControl(env, k, f).0.settings == Assigned(k.settings, EntriesOf(f))
  {
    if f.kind == 4 { SettingsAssign(env, k.(counts := k.counts[4 := Count(k.counts, 4) + 1]), f); }
  }

  lemma {:induction false} SettingsFrom(env: Env, c: Conn, fs: seq<Frame>)
    requires c.halt == Fine
    ensures ProcessAll(env, c, fs).control.settings == Assigned(c.control.settings, AllEntries(Begun(env, c, fs)))
    decreases |fs|
  {
    if fs != [] {
      var next := Into(env, c, fs);
      var rest := if next.halt == Fine then Begun(env, next, fs[1..]) else [];
      ControlSettings(env, c.control, fs[0]);
      BegunFirst(env, c, fs);
      assert ([fs[0]] + rest)[1..] == rest;
      AssignedConcat(c.control.settings, EntriesOf(fs[0]), AllEntries(rest));
      if next.halt == Fine { SettingsFrom(env, next, fs[1..]); }
    }
  }

  /** The settings stored are those of all complete entries of the SETTINGS frames begun; the last of each stands. */
  lemma SettingsStored(env: Env, fs: seq<Frame>)
    ensures ProcessAll(env, START, fs).control.settings == Assigned(map[], AllEntries(Begun(env, START, fs)))
  {
    SettingsFrom(env, START, fs);
  }

  // ------------------------------------------------------------ ends of responses

  /**
   Some DATA frame of the stream has END_STREAM, or some HEADERS frame has it whose block is
   completed before the next HEADERS frame of the stream; `head` is the flag of the open block.
   */
  function EndsIn(fs: seq<Frame>, s: nat, head: Option<bool>): bool
    decreases |fs|
  {
    if fs == [] then false
    else
      var f, rest := fs[0], fs[1..];
      if IsData(f, s) then Flag(f.flags, 1) || EndsIn(rest, s, head)
      else if !Own(f, s) then EndsIn(rest, s, head)
      else
        var flag := if f.kind == 1 then Flag(f.flags, 1) else head == Some(true);
        if Flag(f.flags, 4) then flag || EndsIn(rest, s, None) else EndsIn(rest, s, Some(flag))
  }

  /** The flag of a stream's open block. */
  function HeadFlag(t: Streams, s: nat): Option<bool> {
    var open := OpenBlock(t.blocks, s);
    if open.Some? then Some(open.value.ending) else None
  }

  lemma EndsFirst(f: Frame, fs: seq<Frame>, s: nat, head: Option<bool>)
    ensures EndsIn([f] + fs, s, head) ==
              if IsData(f, s) then Flag(f.flags, 1) || EndsIn(fs, s, head)
              else if !Own(f, s) then EndsIn(fs, s, head)
              else
                var flag := if f.kind == 1 then Flag(f.flags, 1) else head == Some(true);
                if Flag(f.flags, 4) then flag || EndsIn(fs, s, None) else EndsIn(fs, s, Some(flag))
  {
    assert ([f] + fs)[1..] == fs;
  }

  /** A stream's own frame sets the end, or the flag of the open block. */
  lemma OwnEnds(env: Env, t: Streams, f: Frame)
    requires Own(f, f.stream) && OnStreams(env, t, f).1 == Fine
    ensures var u := OnStreams(env, t, f).0;
            var flag := if f.kind == 1 then Flag(f.flags, 1) else HeadFlag(t, f.stream) == Some(true);
            && Of(u.responses, f.stream).ended == (Of(t.responses, f.stream).ended || (Flag(f.flags, 4) && flag))
            && HeadFlag(u, f.stream) == if Flag(f.flags, 4) then None else Some(flag)
  {
  }

  lemma OthersKeepEnd(env: Env, t: Streams, f: Frame, s: nat)
    requires !IsData(f, s) && !Own(f, s)
    ensures Of(OnStreams(env, t, f).0.responses, s).ended == Of(t.responses, s).ended
    ensures HeadFlag(OnStreams(env, t, f).0, s) == HeadFlag(t, s)
  {
    OthersLeave(env, t, f, s);
  }

  lemma DataEnds(env: Env, t: Streams, f: Frame)
    requires f.kind == 0 && OnStreams(env, t, f).1 == Fine
    ensures var u := OnStreams(env, t, f).0;
            && Of(u.responses, f.stream).ended == (Of(t.responses, f.stream).ended || Flag(f.flags, 1))
            && HeadFlag(u, f.stream) == HeadFlag(t, f.stream)
  {
  }

  /** A frame that ends handling ends no response. */
  lemma EndingKeepsEnd(env: Env, c: Conn, f: Frame, s: nat)
    requires Process(env, c, f).halt != Fine
    ensures Of(Process(env, c, f).streams.responses, s).ended == Of(c.streams.responses, s).ended
  {
  }

  lemma {:induction false} EndedFrom(env: Env, c: Conn, fs: seq<Frame>, s: nat)
    requires c.halt == Fine
    ensures Of(ProcessAll(env, c, fs).streams.responses, s).ended <==>
              Of(c.streams.responses, s).ended || EndsIn(Handled(env, c, fs), s, HeadFlag(c.streams, s))
    decreases |fs|
  {
    if fs != [] {
      var next := Into(env, c, fs);
      if next.halt == Fine {
        EndedFrom(env, next, fs[1..], s);
        EndsFirst(fs[0], Handled(env, next, fs[1..]), s, HeadFlag(c.streams, s));
        if IsData(fs[0], s) { DataEnds(env, c.streams, fs[0]); }
        else if Own(fs[0], s) { OwnEnds(env, c.streams, fs[0]); }
        else { OthersKeepEnd(env, c.streams, fs[0], s); }
      } else {
        EndingKeepsEnd(env, c, fs[0], s);
      }
    }
  }

  /** A response counts as ended exactly when END_STREAM was on a frame handled that can carry it. */
  lemma EndedExactly(env: Env, fs: seq<Frame>, s: nat)
    ensures Of(ProcessAll(env, START, fs).streams.responses, s).ended <==> EndsIn(Handled(env, START, fs), s, None)
  {
    EndedFrom(env, START, fs, s);
  }
}
