/**
 The simulator's side of the live stream and of the archive (game/recorder/tick_streamer.gd,
 game/recorder/tick_recorder.gd): the same header and frames go to the server, message by message, and
 into the replay file.
 */
module Recorder {
  import opened Common
  import opened Words
  import opened Lists
  import opened Messages
  import opened ReplayFormat
  import opened ReplayCodec

  /** TickStreamer.  `said` is history: every message it began to send while it was healthy. */
  class TickStreamer {
    const peer: Wire
    const roundId: Uint64
    var ok: bool
    ghost var said: seq<Message>

    /** What reaches the wire is a prefix of the round id and the messages; all of it as long as the latch holds. */
    ghost predicate Valid()
      reads this, peer
    {
      && peer.written <= Spoken()
      && (ok ==> peer.written == Spoken())
    }

    ghost function Spoken(): Bytes
      reads this
    {
      LE(roundId, 8) + EncodeAll(said)
    }

    /** Does the connection take a message with this payload, whose first write is the n-th? */
    predicate Carries(n: nat, payload: Bytes) {
      5 <= peer.takes(n) && (payload != [] ==> |payload| <= peer.takes(n + 1))
    }

    /** connect_to, on an open socket: the handshake is the round id. */
    constructor (peer: Wire, roundId: Uint64)
      requires peer.written == []
      modifies peer
      ensures Valid() && this.peer == peer && this.roundId == roundId && said == []
      ensures ok <==> 8 <= peer.takes(old(peer.calls))
    {
      this.peer, this.roundId, said := peer, roundId, [];
      new;
      var sent := peer.Write(LE(roundId, 8));
      ok := sent;
    }

    /** _send_msg: the two writes of a message, and nothing any more once one of them has failed. */
    method SendMsg(kind: Byte, payload: Bytes)
      requires Valid()
      modifies this`ok, this`said, peer
      ensures Valid()
      ensures said == old(said) + (if old(ok) then [Message(kind, payload)] else [])
      ensures !old(ok) ==> peer.written == old(peer.written)
      ensures ok <==> old(ok) && Carries(old(peer.calls), payload)
    {
      if !ok {
        return;
      }
      var m := Message(kind, payload);
      EncodeAllAppend(said, m);
      ok := Messages.Encode(m, peer);
      said := said + [m];
      Assoc(LE(roundId, 8), EncodeAll(old(said)), Encoded(m));
    }

    method SendHeader(payload: Bytes)
      requires Valid()
      modifies this`ok, this`said, peer
      ensures Valid()
      ensures said == old(said) + (if old(ok) then [Message(MSG_HEADER, payload)] else [])
      ensures ok <==> old(ok) && Carries(old(peer.calls), payload)
    {
      SendMsg(MSG_HEADER, payload);
    }

    method SendTick(payload: Bytes)
      requires Valid()
      modifies this`ok, this`said, peer
      ensures Valid()
      ensures said == old(said) + (if old(ok) then [Message(MSG_TICK, payload)] else [])
      ensures ok <==> old(ok) && Carries(old(peer.calls), payload)
    {
      SendMsg(MSG_TICK, payload);
    }

    /** send_done: the connection stays open, but nothing more is sent. */
    method SendDone()
      requires Valid()
      modifies this`ok, this`said, peer
      ensures Valid() && !ok
      ensures said == old(said) + (if old(ok) then [Message(MSG_DONE, [])] else [])
    {
      SendMsg(MSG_DONE, []);
      ok := false;
    }
  }

  lemma {:induction false} EncodeAllAppend(ms: seq<Message>, m: Message)
    ensures EncodeAll(ms + [m]) == EncodeAll(ms) + Encoded(m)
  {
    if ms == [] {
      assert [] + [m] == [m];
      assert EncodeAll([m]) == Encoded(m) + EncodeAll([m][1..]);
    } else {
      assert (ms + [m])[1..] == ms[1..] + [m];
      EncodeAllAppend(ms[1..], m);
      Assoc(Encoded(ms[0]), EncodeAll(ms[1..]), Encoded(m));
    }
  }

  // ---------------------------------------------------------------------------
  // TickRecorder
  // ---------------------------------------------------------------------------

  /** flags | EVENT_FINISH_CROSS: sets bit 0. */
  function WithFinishCross(flags: nat): nat { if flags % 2 == 0 then flags + 1 else flags }

  const TAIL_TICKS: nat := 60
  const TICK_RATE_HZ: Uint32 := 60
  const SLOT_COUNT: Uint32 := 24

  /** The messages of a whole recording: header, one tick per frame, DONE once it is over. */
  function Story(h: Header, frames: seq<Frame>, over: bool): seq<Message> {
    [Message(MSG_HEADER, HeaderBytes(h))] + TickMessages(frames) + if over then [Message(MSG_DONE, [])] else []
  }

  function TickMessages(frames: seq<Frame>): (ms: seq<Message>)
    ensures |ms| == |frames|
    ensures forall i | 0 <= i < |frames| :: ms[i] == Message(MSG_TICK, FrameBytes(frames[i]))
  {
    if frames == [] then []
    else TickMessages(frames[..|frames| - 1]) + [Message(MSG_TICK, FrameBytes(frames[|frames| - 1]))]
  }

  class TickRecorder {
    const streamer: TickStreamer?
    var context: Context
    var marbles: seq<Marble>
    var frames: seq<Frame>
    var recording: bool
    var pendingFlags: nat
    var stopTick: int
    var file: Option<Bytes>
    ghost var told: seq<Message>
    ghost var bodies: seq<(int, Bytes)>

    /** There is no file while recording; the streamer has said what it was told, as far as it got. */
    ghost predicate Valid()
      reads this, streamer, if streamer == null then {} else {streamer.peer}
    {
      && (recording ==> file.None?)
      && (streamer != null ==>
            && streamer.Valid() && streamer.said <= told
            && (streamer.ok ==> recording && streamer.said == told))
    }

    /** The recorder was told its round and then its marbles, `bodies`, each once, before the first frame. */
    ghost predicate InOrder()
      reads this
    {
      && marbles == MarblesOf(context, bodies)
      && told == Story(RoundHeader(), frames, !recording)
      && (file.Some? ==> file.value == FileBytes(Replay(RoundHeader(), frames)))
    }

    /** The header that would be written now. */
    function RoundHeader(): Header
      reads this
    {
      HeaderWith(context, marbles)
    }

    ghost function View(): Tape
      reads this
    {
      Tape(frames, recording, pendingFlags, stopTick)
    }

    constructor (streamer: TickStreamer?)
      requires streamer != null ==> streamer.Valid() && streamer.said == []
      ensures Valid() && this.streamer == streamer && told == [] && marbles == [] && View() == BLANK_TAPE
      ensures recording && frames == [] && pendingFlags == 0 && stopTick == -1 && file == None
    {
      this.streamer := streamer;
      context, marbles, bodies := NO_CONTEXT, [], [];
      frames, recording, pendingFlags, stopTick, file := [], true, 0, -1, None;
      told := [];
    }

    /** set_round_context: the number of slots is that of the spawn rail, whatever the caller has in mind. */
    method SetRoundContext(context: Context)
      requires Valid()
      modifies this`context
      ensures Valid() && this.context == context.(slotCount := 24)
    {
      this.context := context.(slotCount := SLOT_COUNT);
    }

    /** track: lays out the header anew and announces it. */
    method Track(bodies: seq<(int, Bytes)>)
      requires Valid()
      modifies this`marbles, this`bodies, this`told, streamer, if streamer == null then {} else {streamer.peer}
      ensures Valid() && this.bodies == bodies
      ensures marbles == MarblesOf(context, bodies)
      ensures told == old(told) + [Message(MSG_HEADER, HeaderBytes(RoundHeader()))]
      ensures old(told) == [] && frames == [] && recording ==> InOrder()
    {
      marbles := LayOut(context, bodies);
      this.bodies := bodies;
      told := told + [Message(MSG_HEADER, HeaderBytes(RoundHeader()))];
      StoryBegins(RoundHeader());
      if streamer != null {
        var bytes := EncodeHeader(RoundHeader());
        streamer.SendHeader(bytes);
      }
    }

    /** _on_marble_crossed. */
    method MarbleCrossed()
      requires Valid()
      modifies this`pendingFlags
      ensures Valid() && View() == old(View()).Step(Crossed)
      ensures pendingFlags % 2 == 1 && pendingFlags / 2 == old(pendingFlags) / 2
    {
      pendingFlags := WithFinishCross(pendingFlags);
    }

    /** _on_race_finished. */
    method RaceFinished(tick: nat)
      requires Valid()
      modifies this`stopTick
      ensures Valid() && View() == old(View()).Step(Finished(tick)) && stopTick == tick + 60
    {
      stopTick := tick + 60;
    }

    /** _physics_process: one frame, to memory and to the stream; the last one ends the recording. */
    method PhysicsProcess(tick: nat, states: seq<Pose>, writable: bool)
      requires Valid()
      modifies this`frames, this`recording, this`pendingFlags, this`file, this`told
      modifies streamer, if streamer == null then {} else {streamer.peer}
      ensures Valid() && View() == old(View()).Step(Process(tick, states))
      ensures !old(recording) ==> frames == old(frames) && file == old(file) && told == old(told)
      ensures recording <==> old(recording) && (stopTick < 0 || tick < stopTick)
      ensures old(recording) ==>
        && frames == old(frames) + [Frame(tick, old(pendingFlags), states)] && pendingFlags == 0
        && told == old(told) + [Message(MSG_TICK, FrameBytes(Frame(tick, old(pendingFlags), states)))]
                   + (if recording then [] else [Message(MSG_DONE, [])])
        && file == if recording || !writable then None else Some(FileBytes(Replay(RoundHeader(), frames)))
      ensures old(InOrder()) ==> InOrder()
    {
      if !recording {
        return;
      }
      Capture(tick, states);
      if stopTick >= 0 && tick >= stopTick {
        Finalize(writable);
      }
    }

    /** One frame with the pending flags, kept and sent. */
    method Capture(tick: nat, states: seq<Pose>)
      requires Valid() && recording
      modifies this`frames, this`pendingFlags, this`told, streamer, if streamer == null then {} else {streamer.peer}
      ensures Valid() && pendingFlags == 0
      ensures frames == old(frames) + [Frame(tick, old(pendingFlags), states)]
      ensures told == old(told) + [Message(MSG_TICK, FrameBytes(Frame(tick, old(pendingFlags), states)))]
      ensures old(InOrder()) ==> InOrder()
    {
      var frame := Frame(tick, pendingFlags, states);
      frames := frames + [frame];
      told := told + [Message(MSG_TICK, FrameBytes(frame))];
      pendingFlags := 0;
      StoryGrows(RoundHeader(), old(frames), frame);
      if streamer != null {
        var bytes := EncodeFrame(frame);
        streamer.SendTick(bytes);
      }
    }

    /** _finalize: DONE to the stream, the file to disk, if it can be written. */
    method Finalize(writable: bool)
      requires Valid() && recording
      modifies this`recording, this`file, this`told
      modifies streamer, if streamer == null then {} else {streamer.peer}
      ensures Valid() && !recording
      ensures told == old(told) + [Message(MSG_DONE, [])]
      ensures file == if writable then Some(FileBytes(Replay(RoundHeader(), frames))) else None
      ensures old(InOrder()) ==> InOrder()
    {
      recording := false;
      told := told + [Message(MSG_DONE, [])];
      StoryEnds(RoundHeader(), frames);
      if streamer != null {
        streamer.SendDone();
      }
      var bytes := ReplayCodec.Encode(Replay(RoundHeader(), frames));
      if writable {
        file := Some(bytes);
      }
    }
  }

  // ---------------------------------------------------------------------------
  // Which frames are recorded, and with which flags
  // ---------------------------------------------------------------------------

  /** The state of a recording, apart from the round it records. */
  datatype Tape = Tape(frames: seq<Frame>, recording: bool, pendingFlags: nat, stopTick: int) {

    function Step(e: TapeEvent): Tape {
      match e
      case Crossed => this.(pendingFlags := WithFinishCross(pendingFlags))
      case Finished(tick) => this.(stopTick := tick + TAIL_TICKS)
      case Process(tick, states) =>
        if !recording then this
        else
          Tape(frames + [Frame(tick, pendingFlags, states)], !(stopTick >= 0 && tick >= stopTick), 0, stopTick)
    }
  }

  const BLANK_TAPE := Tape([], true, 0, -1)

  datatype TapeEvent = Crossed | Finished(tick: nat) | Process(tick: nat, states: seq<Pose>)

  function Played(t: Tape, es: seq<TapeEvent>): Tape {
    if es == [] then t else Played(t, es[..|es| - 1]).Step(es[|es| - 1])
  }

  /** Each flag in turn: did a marble cross since the frame before, and since the last frame? */
  function CrossingsPerFrame(es: seq<TapeEvent>): (seq<bool>, bool) {
    if es == [] then ([], false)
    else
      var (flags, since) := CrossingsPerFrame(es[..|es| - 1]);
      match es[|es| - 1]
      case Crossed => (flags, true)
      case Finished(_) => (flags, since)
      case Process(_, _) => (flags + [since], false)
  }

  function Flag(crossed: bool): nat { if crossed then 1 else 0 }

  /**
   A marble that crosses the line is flagged in exactly the next frame: over any history, each recorded frame
   is flagged if and only if some marble crossed since the frame before.
   */
  lemma {:induction false} CrossingFlagsNextFrame(es: seq<TapeEvent>)
    ensures var t := Played(BLANK_TAPE, es); var (flags, since) := CrossingsPerFrame(es);
      && |t.frames| <= |flags|
      && (forall i | 0 <= i < |t.frames| :: t.frames[i].flags == Flag(flags[i]))
      && (t.recording ==> |t.frames| == |flags| && t.pendingFlags == Flag(since))
  {
    if es != [] {
      CrossingFlagsNextFrame(es[..|es| - 1]);
    }
  }

  /** The frames of consecutive ticks. */
  function Consecutive(first: nat, poses: seq<seq<Pose>>): seq<TapeEvent> {
    seq(|poses|, i requires 0 <= i < |poses| => Process(first + i, poses[i]))
  }

  /**
   The tail of a race that finished at tick `end`: frame after frame is recorded up to that of tick end + 60,
   which is the last one.
   */
  lemma {:induction false} StopsAfterTail(t: Tape, end: nat, first: nat, poses: seq<seq<Pose>>)
    requires t.recording && first <= end + 60
    ensures var after := Played(t.Step(Finished(end)), Consecutive(first, poses));
      && (after.recording <==> first + |poses| <= end + 60)
      && |after.frames| == |t.frames| + Min(|poses|, end + 61 - first)
      && (forall i | |t.frames| <= i < |after.frames| ::
            && after.frames[i].tick == first + (i - |t.frames|) && i - |t.frames| < |poses|
            && after.frames[i].states == poses[i - |t.frames|])
      && after.frames[..|t.frames|] == t.frames && after.stopTick == end + 60
    decreases |poses|
  {
    if poses != [] {
      var k := |poses| - 1;
      StopsAfterTail(t, end, first, poses[..k]);
      assert Consecutive(first, poses)[..k] == Consecutive(first, poses[..k]);
    }
  }

  /** What set_round_context is given. */
  datatype Context = Context(
    roundId: Uint64, serverSeed: Bytes, serverSeedHash: Bytes, clientSeeds: seq<Bytes>, slots: seq<Uint32>,
    colors: seq<int>, slotCount: Uint32, trackId: int)

  function MarbleOf(ctx: Context, bodies: seq<(int, Bytes)>, i: nat): Marble
    requires i < |bodies|
  {
    Marble(bodies[i].0, if i < |ctx.colors| then ctx.colors[i] else 0, bodies[i].1,
           if i < |ctx.clientSeeds| then ctx.clientSeeds[i] else [], if i < |ctx.slots| then ctx.slots[i] else 0)
  }

  function MarblesOf(ctx: Context, bodies: seq<(int, Bytes)>): seq<Marble> {
    seq(|bodies|, i requires 0 <= i < |bodies| => MarbleOf(ctx, bodies, i))
  }

  function HeaderWith(ctx: Context, marbles: seq<Marble>): Header {
    Header(ctx.roundId, TICK_RATE_HZ, ctx.serverSeed, ctx.serverSeedHash, ctx.slotCount, ctx.trackId, marbles)
  }

  const NO_CONTEXT := Context(0, [], [], [], [], [], 0, 0)

  /** The marbles of a round: short lists of seeds, slots and colours are padded. */
  method LayOut(ctx: Context, bodies: seq<(int, Bytes)>) returns (marbles: seq<Marble>)
    ensures marbles == MarblesOf(ctx, bodies)
  {
    marbles := [];
    for i := 0 to |bodies|
      invariant |marbles| == i && forall k | 0 <= k < i :: marbles[k] == MarbleOf(ctx, bodies, k)
    {
      var rgba := if i < |ctx.colors| then ctx.colors[i] else 0;
      var seed := if i < |ctx.clientSeeds| then ctx.clientSeeds[i] else [];
      var slot := if i < |ctx.slots| then ctx.slots[i] else 0;
      marbles := marbles + [Marble(bodies[i].0, rgba, bodies[i].1, seed, slot)];
    }
  }

  /** Every length of a recording fits its field, and every frame has a pose for each body. */
  ghost predicate RecordingFits(ctx: Context, bodies: seq<(int, Bytes)>, frames: seq<Frame>) {
    && |ctx.serverSeed| < 0x100 && |ctx.serverSeedHash| < 0x100
    && (forall c | c in ctx.clientSeeds :: |c| < 0x100) && (forall b | b in bodies :: |b.1| < 0x100)
    && |bodies| < 0x1_0000_0000 && |frames| < 0x1_0000_0000 && forall f | f in frames :: |f.states| == |bodies|
  }

  lemma RecordingIsSized(ctx: Context, bodies: seq<(int, Bytes)>, frames: seq<Frame>)
    requires RecordingFits(ctx, bodies, frames)
    ensures WellSized(Replay(HeaderWith(ctx, MarblesOf(ctx, bodies)), frames))
  {
    var h := HeaderWith(ctx, MarblesOf(ctx, bodies));
    forall i | 0 <= i < |h.marbles| ensures FitsMarble(h.marbles[i]) {
      assert bodies[i] in bodies;
    }
    forall i | 0 <= i < |frames| ensures HasStates(|h.marbles|)(frames[i]) {
      assert frames[i] in frames;
    }
  }

  lemma AnnouncedMarble(ctx: Context, bodies: seq<(int, Bytes)>, i: nat)
    requires i < |bodies|
    ensures var m := NormalHeader(HeaderWith(ctx, MarblesOf(ctx, bodies))).marbles[i];
      && m.id == bodies[i].0 % 0x1_0000_0000 && m.name == bodies[i].1
      && m.clientSeed == (if i < |ctx.clientSeeds| then ctx.clientSeeds[i] else [])
      && m.slot == (if i < |ctx.slots| then ctx.slots[i] else 0)
      && m.rgba == if i < |ctx.colors| then ctx.colors[i] % 0x1_0000_0000 else 0
  {
  }

  lemma HeaderDecodes(h: Header)
    requires FitsHeader(h)
    ensures ReadHeader(HeaderBytes(h)) == Some((NormalHeader(h), []))
  {
    HeaderBack(h, []);
    assert HeaderBytes(h) + [] == HeaderBytes(h);
  }

  lemma AnnouncementDecodes(rec: TickRecorder)
    requires rec.InOrder() && RecordingFits(rec.context, rec.bodies, [])
    ensures rec.told != [] && rec.told[0].kind == 1
    ensures ReadHeader(rec.told[0].payload)
      == Some((NormalHeader(HeaderWith(rec.context, MarblesOf(rec.context, rec.bodies))), []))
  {
    RecordingIsSized(rec.context, rec.bodies, []);
    HeaderDecodes(HeaderWith(rec.context, MarblesOf(rec.context, rec.bodies)));
  }

  /**
   The announcement is the commitment to the round: who decodes the payload of the HEADER message finds the round
   as it was set, and each marble with the client seed, slot and colour of its index, if the lists go that far.
   */
  lemma AnnouncementTellsTheRound(rec: TickRecorder)
    requires rec.InOrder() && RecordingFits(rec.context, rec.bodies, [])
    ensures rec.told != [] && rec.told[0].kind == 1 && ReadHeader(rec.told[0].payload).Some?
    ensures var h := ReadHeader(rec.told[0].payload).value.0;
      && h.roundId == rec.context.roundId && h.tickRate == 60
      && h.serverSeed == rec.context.serverSeed && h.serverSeedHash == rec.context.serverSeedHash
      && h.slotCount == rec.context.slotCount && h.trackId == rec.context.trackId % 0x100
      && |h.marbles| == |rec.bodies|
      && forall i | 0 <= i < |rec.bodies| ::
        var m := h.marbles[i];
        && m.id == rec.bodies[i].0 % 0x1_0000_0000 && m.name == rec.bodies[i].1
        && m.clientSeed == (if i < |rec.context.clientSeeds| then rec.context.clientSeeds[i] else [])
        && m.slot == (if i < |rec.context.slots| then rec.context.slots[i] else 0)
        && m.rgba == if i < |rec.context.colors| then rec.context.colors[i] % 0x1_0000_0000 else 0
  {
    AnnouncementDecodes(rec);
    forall i | 0 <= i < |rec.bodies| {
      AnnouncedMarble(rec.context, rec.bodies, i);
    }
  }

  lemma FileDecodes(rec: TickRecorder)
    requires rec.InOrder() && rec.file.Some? && RecordingFits(rec.context, rec.bodies, rec.frames)
    ensures ReadBytes(rec.file.value)
      == Some(Normalize(Replay(HeaderWith(rec.context, MarblesOf(rec.context, rec.bodies)), rec.frames)))
  {
    RecordingIsSized(rec.context, rec.bodies, rec.frames);
    RoundTripIff(Replay(HeaderWith(rec.context, MarblesOf(rec.context, rec.bodies)), rec.frames));
  }

  /**
   What the recorder checks after writing, for everything it wrote: the file is read back, its header is the one
   that was announced, and its frames are those recorded, in order.
   */
  lemma FileTellsTheRound(rec: TickRecorder)
    requires rec.InOrder() && rec.file.Some? && RecordingFits(rec.context, rec.bodies, rec.frames)
    ensures rec.told != [] && ReadHeader(rec.told[0].payload).Some? && ReadBytes(rec.file.value).Some?
    ensures var r := ReadBytes(rec.file.value).value;
      && r.header == ReadHeader(rec.told[0].payload).value.0
      && r.header.roundId == rec.context.roundId
      && r.header.serverSeed == rec.context.serverSeed && r.header.serverSeedHash == rec.context.serverSeedHash
      && |r.header.marbles| == |rec.bodies| && |r.frames| == |rec.frames|
      && forall i | 0 <= i < |rec.frames| ::
        && r.frames[i].tick == rec.frames[i].tick % 0x1_0000_0000
        && r.frames[i].flags == rec.frames[i].flags % 0x100
        && r.frames[i].states == rec.frames[i].states
  {
    AnnouncementDecodes(rec);
    FileDecodes(rec);
  }

  lemma StoryBegins(h: Header)
    ensures Story(h, [], false) == [] + [Message(MSG_HEADER, HeaderBytes(h))]
  {
  }

  lemma StoryGrows(h: Header, frames: seq<Frame>, f: Frame)
    ensures Story(h, frames + [f], false) == Story(h, frames, false) + [Message(MSG_TICK, FrameBytes(f))]
  {
    assert (frames + [f])[..|frames|] == frames;
  }

  lemma StoryEnds(h: Header, frames: seq<Frame>)
    ensures Story(h, frames, true) == Story(h, frames, false) + [Message(MSG_DONE, [])]
  {
  }
}
