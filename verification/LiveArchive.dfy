/**
 The live stream carries what the archive stores: from the recorder's frames, over the wire, through the
 ingest loop and the fan-out, to a subscriber -- against the bytes of the replay file.
 */
module LiveArchive {
  import opened Common
  import opened Words
  import opened Lists
  import opened Messages
  import opened LiveRounds
  import opened ReplayFormat
  import opened Recorder
  import ReplayCodec
  import opened Ingest

  // ---------------------------------------------------------------------------
  // Subscribers do not influence the log
  // ---------------------------------------------------------------------------

  predicate IsWrite<S>(e: LiveRounds.Event<S>) { e.Header? || e.Tick? || e.Finish? }

  /** The events of the writing side, in order. */
  function Writes<S>(path: seq<LiveRounds.Event<S>>): seq<LiveRounds.Event<S>> {
    if path == [] then [] else (if IsWrite(path[0]) then [path[0]] else []) + Writes(path[1..])
  }

  /** A round without its subscribers. */
  function Bare<S(==)>(r: LiveRound<S>): LiveRound<S> { LiveRound(r.hdr, r.tks, r.done, {}, map[]) }

  lemma BareStep<S>(r: LiveRound<S>, e: LiveRounds.Event<S>)
    requires r.Inv() && Possible(r, e)
    ensures Bare(r).Inv()
    ensures Bare(LiveRounds.Step(r, e)) == if IsWrite(e) then LiveRounds.Step(Bare(r), e) else Bare(r)
  {
  }

  lemma {:induction false} WritesDecide<S>(r: LiveRound<S>, path: seq<LiveRounds.Event<S>>)
    requires IsPath(r, path)
    ensures IsPath(Bare(r), Writes(path))
    ensures Bare(LiveRounds.After(r, path)) == LiveRounds.After(Bare(r), Writes(path))
    decreases |path|
  {
    if path == [] {
      assert Bare(r).Inv();
    } else {
      var next := LiveRounds.Step(r, path[0]);
      BareStep(r, path[0]);
      WritesDecide(next, path[1..]);
      if IsWrite(path[0]) {
        PathCons(Bare(r), path[0], Writes(path[1..]));
      } else {
        assert Writes(path) == Writes(path[1..]);
      }
    }
  }

  lemma PathCons<S>(r: LiveRound<S>, e: LiveRounds.Event<S>, rest: seq<LiveRounds.Event<S>>)
    requires r.Inv() && Possible(r, e) && IsPath(LiveRounds.Step(r, e), rest)
    ensures IsPath(r, [e] + rest) && LiveRounds.After(r, [e] + rest) == LiveRounds.After(LiveRounds.Step(r, e), rest)
  {
    assert ([e] + rest)[1..] == rest;
  }

  // ---------------------------------------------------------------------------
  // What the ingest loop makes of a stream of messages
  // ---------------------------------------------------------------------------

  /** Feeding bytes appends to the log what the loop keeps of their messages. */
  lemma {:induction false} FedLog<S>(r: LiveRound<S>, s: Bytes)
    requires r.Inv() && Bare(r) == r && !r.done
    ensures IsPath(r, Feed(s, r.hdr.Some?))
    ensures var after := LiveRounds.After(r, Feed(s, r.hdr.Some?));
      !after.done && after.Backfill() == r.Backfill() + Kept(ReadAll(s, MAX_PAYLOAD_BYTES).0, r.hdr.Some?)
    decreases |s|
  {
    if GoesOn(s, r.hdr.Some?) {
      var m := ReadOne(s, MAX_PAYLOAD_BYTES).value;
      var next := LiveRounds.Step(r, WriteOf<S>(m));
      var rest := s[|Encoded(m)|..];
      FedStep(r, m);
      MessageAhead<S>(s, r.hdr.Some?);
      FedLog(next, rest);
      PathCons(r, WriteOf<S>(m), Feed(rest, true));
      Regroup(r.Backfill(), m, Kept(ReadAll(rest, MAX_PAYLOAD_BYTES).0, true));
    } else {
      NothingAhead<S>(s, r.hdr.Some?);
    }
  }

  lemma Regroup(a: seq<Message>, m: Message, b: seq<Message>)
    ensures (a + [m]) + b == a + ([m] + b)
  {
  }

  lemma FedStep<S>(r: LiveRound<S>, m: Message)
    requires r.Inv() && Bare(r) == r && !r.done && Accepts(m, r.hdr.Some?)
    ensures var next := LiveRounds.Step(r, WriteOf(m));
      next.Inv() && Bare(next) == next && !next.done && next.hdr.Some? && next.Backfill() == r.Backfill() + [m]
  {
    StepKeeps(r, WriteOf(m));
  }

  /** The loop goes on: one write, one message. */
  lemma MessageAhead<S>(s: Bytes, hdr: bool)
    requires GoesOn(s, hdr)
    ensures
      var m := ReadOne(s, MAX_PAYLOAD_BYTES).value;
      && |Encoded(m)| <= |s|
      && Feed<S>(s, hdr) == [WriteOf<S>(m)] + Feed<S>(s[|Encoded(m)|..], true)
      && Kept(ReadAll(s, MAX_PAYLOAD_BYTES).0, hdr) == [m] + Kept(ReadAll(s[|Encoded(m)|..], MAX_PAYLOAD_BYTES).0, true)
  {
    ReadOneConsumes(s, MAX_PAYLOAD_BYTES);
    var m := ReadOne(s, MAX_PAYLOAD_BYTES).value;
    assert ReadAll(s, MAX_PAYLOAD_BYTES).0[1..] == ReadAll(s[|Encoded(m)|..], MAX_PAYLOAD_BYTES).0;
  }

  lemma NothingAhead<S>(s: Bytes, hdr: bool)
    requires !GoesOn(s, hdr)
    ensures Feed<S>(s, hdr) == [] && Kept(ReadAll(s, MAX_PAYLOAD_BYTES).0, hdr) == []
  {
  }

  /** Does the connection begin, behind its round id, with a HEADER that can be read? */
  predicate HeaderComesFirst(s: Bytes) {
    ReadOne(s, MAX_PAYLOAD_BYTES).Ok? && ReadOne(s, MAX_PAYLOAD_BYTES).value.kind == MSG_HEADER
  }

  lemma FedHeader<S>(s: Bytes)
    ensures var writes := Feed<S>(s, false) + [LiveRounds.Event.Finish];
      HeaderBeforeFinish(writes) <==> HeaderComesFirst(s)
  {
    if HeaderComesFirst(s) {
      MessageAhead<S>(s, false);
    } else {
      NothingAhead<S>(s, false);
    }
  }

  lemma {:induction false} FinishAtEnd<S>(writes: seq<LiveRounds.Event<S>>)
    ensures Finishes(writes + [LiveRounds.Event.Finish])
  {
    if writes != [] {
      assert (writes + [LiveRounds.Event.Finish])[1..] == writes[1..] + [LiveRounds.Event.Finish];
      FinishAtEnd(writes[1..]);
    }
  }

  /** A connection leaves behind a bare DONE if and only if the first message read from it is not a HEADER. */
  lemma DoneAloneIff<S>(path: seq<LiveRounds.Event<S>>, s: Bytes)
    requires IsPath(Fresh<S>(), path) && Writes(path) == Feed(s, false) + [LiveRounds.Event.Finish]
    ensures var log := LiveRounds.After(Fresh<S>(), path).Log();
      DONE in log && (log == [DONE] <==> !HeaderComesFirst(s))
  {
    var r := LiveRounds.After(Fresh<S>(), path);
    WritesDecide(Fresh<S>(), path);
    assert Bare(Fresh<S>()) == Fresh<S>();
    HeaderPrecedesDoneIff(Writes(path));
    FedHeader<S>(s);
    FinishAtEnd(Feed<S>(s, false));
    assert r.Log() == Bare(r).Log();
  }

  // ---------------------------------------------------------------------------
  // Prefixes of a story
  // ---------------------------------------------------------------------------

  /** Whole messages at the front of a stream are the first messages of the stream. */
  lemma {:induction false} WholeMessagesArePrefix(ms: seq<Message>, all: seq<Message>)
    requires AllFit(ms, TWO_32 - 1) && AllFit(all, TWO_32 - 1) && EncodeAll(ms) <= EncodeAll(all)
    ensures ms <= all
    decreases |ms|
  {
    if ms != [] {
      var m := ms[0];
      var tail := EncodeAll(all)[|Encoded(m)|..];
      assert EncodeAll(all) == Encoded(m) + tail;
      ReadBack(m, tail, TWO_32 - 1);
      assert all != [];
      ReadBack(all[0], EncodeAll(all[1..]), TWO_32 - 1);
      assert all[0] == m;
      assert tail == EncodeAll(all[1..]);
      assert EncodeAll(ms[1..]) <= EncodeAll(all[1..]);
      WholeMessagesArePrefix(ms[1..], all[1..]);
      assert ms == [m] + ms[1..] && all == [m] + all[1..];
    }
  }

  /** What the loop reads of a cut stream is a prefix of the stream's messages. */
  lemma ReadsPrefix(s: Bytes, all: seq<Message>, cap: nat)
    requires AllFit(all, TWO_32 - 1) && s <= EncodeAll(all)
    ensures ReadAll(s, cap).0 <= all
  {
    ReadAllConsumes(s, cap);
    var ms := ReadAll(s, cap).0;
    assert EncodeAll(ms) == s[..|EncodeAll(ms)|];
    WholeMessagesArePrefix(ms, all);
  }

  /** HEADER, ticks, and at most a DONE behind them. */
  ghost predicate IsStory(first: Message, ticks: seq<Message>, tail: seq<Message>) {
    && first.kind == MSG_HEADER && (forall t | t in ticks :: t.kind == MSG_TICK)
    && |tail| <= 1 && forall t | t in tail :: t.kind == MSG_DONE
  }

  /** Of a prefix of a story the loop keeps everything but DONE. */
  lemma KeepsStory(first: Message, ticks: seq<Message>, tail: seq<Message>, ms: seq<Message>)
    requires IsStory(first, ticks, tail) && ms <= [first] + (ticks + tail)
    ensures Kept(ms, false) == ms[..Min(|ms|, 1 + |ticks|)]
  {
    if ms != [] {
      var rest := ms[1..];
      StoryTail(first, ticks + tail, ms);
      KeepsTicks(ticks, tail, rest);
      KeptWhole(first, rest, Min(|rest|, |ticks|));
    }
  }

  lemma KeptWhole(first: Message, rest: seq<Message>, n: nat)
    requires first.kind == MSG_HEADER && n <= |rest| && Kept(rest, true) == rest[..n]
    ensures Kept([first] + rest, false) == ([first] + rest)[..n + 1]
  {
    KeptFirst(first, rest);
    PrefixCons(first, rest, n);
  }

  lemma StoryTail(first: Message, rest: seq<Message>, ms: seq<Message>)
    requires ms != [] && ms <= [first] + rest
    ensures ms == [first] + ms[1..] && ms[1..] <= rest
  {
  }

  lemma KeptFirst(first: Message, rest: seq<Message>)
    requires first.kind == MSG_HEADER
    ensures Kept([first] + rest, false) == [first] + Kept(rest, true)
  {
    assert ([first] + rest)[1..] == rest;
  }

  lemma PrefixCons(first: Message, rest: seq<Message>, n: nat)
    requires n <= |rest|
    ensures ([first] + rest)[..n + 1] == [first] + rest[..n]
  {
  }

  lemma {:induction false} KeepsTicks(ticks: seq<Message>, tail: seq<Message>, ms: seq<Message>)
    requires (forall t | t in ticks :: t.kind == MSG_TICK) && (forall t | t in tail :: t.kind == MSG_DONE)
    requires ms <= ticks + tail
    ensures Kept(ms, true) == ms[..Min(|ms|, |ticks|)]
    decreases |ms|
  {
    if ms == [] {
    } else if ticks == [] {
      assert ms[0] in tail;
    } else {
      assert ms[0] == ticks[0] && ms[1..] <= ticks[1..] + tail;
      KeepsTicks(ticks[1..], tail, ms[1..]);
      assert ms[..Min(|ms|, |ticks|)] == [ms[0]] + ms[1..][..Min(|ms| - 1, |ticks| - 1)];
    }
  }

  // ---------------------------------------------------------------------------
  // Main results
  // ---------------------------------------------------------------------------

  /**
   A live round as it happened: the recorder told `said`, a prefix of its story; `wire` is what of it
   reached the connection, behind the round id; `received` is what of that reached the server before its
   input ended; and `path` is any history of the round, with any subscribers, in which the writes are those
   of the ingest loop.
   */
  ghost predicate Broadcast<S>(h: Header, frames: seq<Frame>, over: bool, roundId: Uint64, said: seq<Message>,
                               wire: Bytes, received: Bytes, path: seq<LiveRounds.Event<S>>)
  {
    && AllFit(Story(h, frames, over), TWO_32 - 1)
    && said <= Story(h, frames, over)
    && wire <= LE(roundId, 8) + EncodeAll(said)
    && received <= wire && |received| >= 8
    && IsPath(Fresh<S>(), path)
    && Writes(path) == Feed(received[8..], false) + [LiveRounds.Event.Finish]
  }

  /** The messages the server read. */
  function Arrived(received: Bytes): seq<Message>
    requires |received| >= 8
  {
    ReadAll(received[8..], MAX_PAYLOAD_BYTES).0
  }

  lemma {:induction false} EncodeAllPrefix(ms: seq<Message>, all: seq<Message>)
    requires ms <= all
    ensures EncodeAll(ms) <= EncodeAll(all)
  {
    if ms != [] {
      EncodeAllPrefix(ms[1..], all[1..]);
    }
  }

  lemma ArrivedIsPrefix<S>(h: Header, frames: seq<Frame>, over: bool, roundId: Uint64, said: seq<Message>,
                           wire: Bytes, received: Bytes, path: seq<LiveRounds.Event<S>>)
    requires Broadcast(h, frames, over, roundId, said, wire, received, path)
    ensures Arrived(received) <= Story(h, frames, over)
  {
    EncodeAllPrefix(said, Story(h, frames, over));
    assert received <= LE(roundId, 8) + EncodeAll(said);
    assert received[8..] <= EncodeAll(said);
    ReadsPrefix(received[8..], Story(h, frames, over), MAX_PAYLOAD_BYTES);
  }

  /** The log of the finished round: what arrived, without the simulator's DONE, and the round's own DONE. */
  lemma LogOfBroadcast<S>(h: Header, frames: seq<Frame>, over: bool, roundId: Uint64, said: seq<Message>,
                          wire: Bytes, received: Bytes, path: seq<LiveRounds.Event<S>>)
    requires Broadcast(h, frames, over, roundId, said, wire, received, path)
    ensures var ms := Arrived(received);
      LiveRounds.After(Fresh<S>(), path).Log() == ms[..Min(|ms|, 1 + |frames|)] + [DONE]
  {
    ArrivedIsPrefix(h, frames, over, roundId, said, wire, received, path);
    StoryKept(h, frames, over, Arrived(received));
    FinishedLog(received[8..], path);
  }

  lemma StoryParts(h: Header, frames: seq<Frame>, over: bool)
    returns (first: Message, ticks: seq<Message>, tail: seq<Message>)
    ensures IsStory(first, ticks, tail) && |ticks| == |frames|
    ensures Story(h, frames, over) == [first] + (ticks + tail)
  {
    first, ticks := Message(MSG_HEADER, HeaderBytes(h)), TickMessages(frames);
    tail := if over then [Message(MSG_DONE, [])] else [];
    forall t | t in ticks ensures t.kind == MSG_TICK {
      var i :| 0 <= i < |ticks| && ticks[i] == t;
    }
    assert [first] + ticks + tail == [first] + (ticks + tail);
  }

  lemma StoryKept(h: Header, frames: seq<Frame>, over: bool, ms: seq<Message>)
    requires ms <= Story(h, frames, over)
    ensures Kept(ms, false) == ms[..Min(|ms|, 1 + |frames|)]
  {
    var first, ticks, tail := StoryParts(h, frames, over);
    KeepsStory(first, ticks, tail, ms);
  }

  /** Whatever subscribers do, the log is what the loop keeps of the input, and DONE. */
  lemma FinishedLog<S>(s: Bytes, path: seq<LiveRounds.Event<S>>)
    requires IsPath(Fresh<S>(), path) && Writes(path) == Feed(s, false) + [LiveRounds.Event.Finish]
    ensures LiveRounds.After(Fresh<S>(), path).Log() == Kept(ReadAll(s, MAX_PAYLOAD_BYTES).0, false) + [DONE]
  {
    WritesDecide(Fresh<S>(), path);
    FedAndFinished<S>(s);
    assert LiveRounds.After(Fresh<S>(), Writes(path)).Log() == LiveRounds.After(Fresh<S>(), path).Log();
  }

  lemma FedAndFinished<S>(s: Bytes)
    ensures var writes := Feed<S>(s, false) + [LiveRounds.Event.Finish];
      && IsPath(Fresh<S>(), writes)
      && LiveRounds.After(Fresh<S>(), writes).Log() == Kept(ReadAll(s, MAX_PAYLOAD_BYTES).0, false) + [DONE]
  {
    FedLog(Fresh<S>(), s);
    PathExtends(Fresh<S>(), Feed<S>(s, false), LiveRounds.Event.Finish);
  }

  /** The payloads of messages, one behind the other. */
  function Payloads(ms: seq<Message>): Bytes {
    if ms == [] then [] else ms[0].payload + Payloads(ms[1..])
  }

  /** HEADER payload, number of ticks, tick payloads: the file that a complete log spells out. */
  function ArchiveOf(log: seq<Message>): Bytes
    requires |log| >= 2
  {
    log[0].payload + (LE(|log| - 2, 4) + Payloads(log[1..|log| - 1]))
  }

  lemma {:induction false} PayloadsOfTicks(frames: seq<Frame>)
    ensures Payloads(TickMessages(frames)) == WriteList(FrameBytes, frames)
  {
    if frames != [] {
      var init := frames[..|frames| - 1];
      var last := frames[|frames| - 1];
      PayloadsOfTicks(init);
      PayloadsAppend(TickMessages(init), Message(MSG_TICK, FrameBytes(last)));
      WriteListAppend(FrameBytes, init, last);
      assert frames == init + [last];
    }
  }

  lemma {:induction false} PayloadsAppend(ms: seq<Message>, m: Message)
    ensures Payloads(ms + [m]) == Payloads(ms) + m.payload
  {
    if ms == [] {
      assert [] + [m] == [m];
      assert Payloads([m]) == m.payload + Payloads([m][1..]);
    } else {
      assert (ms + [m])[1..] == ms[1..] + [m];
      PayloadsAppend(ms[1..], m);
      Assoc(ms[0].payload, Payloads(ms[1..]), m.payload);
    }
  }

  /** The complete log spells out the replay file. */
  lemma StoryIsArchive(h: Header, frames: seq<Frame>)
    ensures ArchiveOf(Story(h, frames, true)) == FileBytes(Replay(h, frames))
  {
    var log := Story(h, frames, true);
    assert log[1..|log| - 1] == TickMessages(frames);
    PayloadsOfTicks(frames);
  }

  /**
   The simulator's DONE arrives exactly when the recording is over, every byte of its story has arrived, and no
   message of it is above the cap of the ingest loop.
   */
  lemma DoneArrivesIff<S>(h: Header, frames: seq<Frame>, over: bool, roundId: Uint64, said: seq<Message>,
                          wire: Bytes, received: Bytes, path: seq<LiveRounds.Event<S>>)
    requires Broadcast(h, frames, over, roundId, said, wire, received, path)
    ensures DONE in Arrived(received) <==>
      && over && received == LE(roundId, 8) + EncodeAll(Story(h, frames, true))
      && AllFit(Story(h, frames, true), 0x10_0000)
  {
    var story := Story(h, frames, true);
    if DONE in Arrived(received) {
      ArrivedIsPrefix(h, frames, over, roundId, said, wire, received, path);
      WholeStoryArrived(h, frames, over, Arrived(received));
      AllArrived(roundId, said, received, story);
    }
    if received == LE(roundId, 8) + EncodeAll(story) && AllFit(story, MAX_PAYLOAD_BYTES) {
      AllIsRead(h, frames, roundId, received);
    }
  }

  lemma AllIsRead(h: Header, frames: seq<Frame>, roundId: Uint64, received: Bytes)
    requires received == LE(roundId, 8) + EncodeAll(Story(h, frames, true)) && |received| >= 8
    requires AllFit(Story(h, frames, true), MAX_PAYLOAD_BYTES)
    ensures DONE in Arrived(received)
  {
    var story := Story(h, frames, true);
    assert received[8..] == EncodeAll(story);
    ReadAllEncodeAll(story, MAX_PAYLOAD_BYTES);
    assert story[|story| - 1] == DONE;
  }

  /** Of a prefix of a story that holds a DONE nothing is missing. */
  lemma WholeStoryArrived(h: Header, frames: seq<Frame>, over: bool, ms: seq<Message>)
    requires ms <= Story(h, frames, over) && DONE in ms
    ensures over && ms == Story(h, frames, true)
  {
    var story := Story(h, frames, false);
    assert DONE !in story;
    StoryEnds(h, frames);
    if ms <= story {
      NotInPrefix(ms, story);
    }
  }

  /** Messages that were all read took up all the bytes there were. */
  lemma AllArrived(roundId: Uint64, said: seq<Message>, received: Bytes, story: seq<Message>)
    requires said <= story && 8 <= |received| && received <= LE(roundId, 8) + EncodeAll(said)
    requires Arrived(received) == story
    ensures received == LE(roundId, 8) + EncodeAll(story) && AllFit(story, MAX_PAYLOAD_BYTES)
  {
    EncodeAllPrefix(said, story);
    ReadAllConsumes(received[8..], MAX_PAYLOAD_BYTES);
    assert received <= LE(roundId, 8) + EncodeAll(story);
    assert received[8..] <= EncodeAll(story) && EncodeAll(story) <= received[8..];
    assert received == LE(roundId, 8) + received[8..];
  }

  /**
   Live equals archive: a subscriber that got a DONE has got the whole log, and the header and the ticks it got
   are the first ones of the recording.  They are all of it -- and then the log spells out the replay file byte
   for byte -- exactly if the header and every tick reached the server, as they have if the simulator's own DONE
   arrived (`DoneArrivesIff`).
   */
  lemma LiveEqualsArchive<S>(h: Header, frames: seq<Frame>, over: bool, roundId: Uint64, said: seq<Message>,
                             wire: Bytes, received: Bytes, path: seq<LiveRounds.Event<S>>, s: S)
    requires Broadcast(h, frames, over, roundId, said, wire, received, path)
    requires s in LiveRounds.After(Fresh<S>(), path).chans && DONE in LiveRounds.After(Fresh<S>(), path).chans[s].sent
    ensures var sent := LiveRounds.After(Fresh<S>(), path).chans[s].sent;
      && sent == LiveRounds.After(Fresh<S>(), path).Log()
      && sent[..|sent| - 1] <= Story(h, frames, false)
      && (DONE in Arrived(received) ==> over && sent == Story(h, frames, true))
      && (sent == Story(h, frames, true) ==> ArchiveOf(sent) == FileBytes(Replay(h, frames)))
      && (sent == Story(h, frames, true) <==> Story(h, frames, false) <= Arrived(received))
  {
    SentAndArrived(h, frames, over, roundId, said, wire, received, path, s);
    var r := LiveRounds.After(Fresh<S>(), path);
    StoryIsArchive(h, frames);
    DoneIsLast(h, frames, over, Arrived(received), r.Log(), r.chans[s].sent);
    TicksAreComplete(h, frames, over, Arrived(received));
  }

  /** Log and subscriber against what reached the server. */
  lemma SentAndArrived<S>(h: Header, frames: seq<Frame>, over: bool, roundId: Uint64, said: seq<Message>,
                          wire: Bytes, received: Bytes, path: seq<LiveRounds.Event<S>>, s: S)
    requires Broadcast(h, frames, over, roundId, said, wire, received, path)
    requires s in LiveRounds.After(Fresh<S>(), path).chans
    ensures var r := LiveRounds.After(Fresh<S>(), path); var ms := Arrived(received);
      && r.chans[s].sent <= r.Log() && ms <= Story(h, frames, over)
      && r.Log() == ms[..Min(|ms|, 1 + |frames|)] + [DONE]
  {
    SubscribersSeeTheLog(path, s);
    LogOfBroadcast(h, frames, over, roundId, said, wire, received, path);
    ArrivedIsPrefix(h, frames, over, roundId, said, wire, received, path);
  }

  /** What is kept and the DONE of the round make up the story exactly if the header and every tick arrived. */
  lemma TicksAreComplete(h: Header, frames: seq<Frame>, over: bool, ms: seq<Message>)
    requires ms <= Story(h, frames, over)
    ensures ms[..Min(|ms|, 1 + |frames|)] + [DONE] == Story(h, frames, true) <==> Story(h, frames, false) <= ms
  {
    var story := Story(h, frames, false);
    var kept := ms[..Min(|ms|, 1 + |frames|)];
    StoryEnds(h, frames);
    assert |story| == 1 + |frames|;
    if story <= ms {
      assert kept == story;
    }
    if kept + [DONE] == story + [DONE] {
      assert kept == (kept + [DONE])[..|kept|] && |kept + [DONE]| == |story + [DONE]|;
      assert kept == story;
    }
  }

  lemma DoneIsLast(h: Header, frames: seq<Frame>, over: bool, ms: seq<Message>, log: seq<Message>, sent: seq<Message>)
    requires ms <= Story(h, frames, over) && log == ms[..Min(|ms|, 1 + |frames|)] + [DONE]
    requires sent <= log && DONE in sent
    ensures sent == log && sent[..|sent| - 1] <= Story(h, frames, false)
    ensures DONE in ms ==> over && sent == Story(h, frames, true)
  {
    var kept := ms[..Min(|ms|, 1 + |frames|)];
    var story := Story(h, frames, false);
    assert DONE !in story;
    assert kept <= story;
    assert DONE !in kept by { NotInPrefix(kept, story); }
    StoryEnds(h, frames);
    if DONE in ms {
      assert |ms| > 1 + |frames|;
    }
  }

  lemma NotInPrefix(a: seq<Message>, b: seq<Message>)
    requires a <= b && DONE !in b
    ensures DONE !in a
  {
    assert forall k | 0 <= k < |a| :: a[k] == b[k] && b[k] in b;
  }

  /** The same for a recorder object: complete live streams are the file, if it could be written. */
  lemma RecorderLiveEqualsFile<S>(rec: TickRecorder, received: Bytes, path: seq<LiveRounds.Event<S>>, s: S)
    requires rec.Valid() && rec.InOrder() && rec.streamer != null
    requires AllFit(Story(rec.RoundHeader(), rec.frames, !rec.recording), TWO_32 - 1)
    requires received <= rec.streamer.peer.written && |received| >= 8
    requires IsPath(Fresh<S>(), path) && Writes(path) == Feed(received[8..], false) + [LiveRounds.Event.Finish]
    requires s in LiveRounds.After(Fresh<S>(), path).chans && DONE in LiveRounds.After(Fresh<S>(), path).chans[s].sent
    ensures var sent := LiveRounds.After(Fresh<S>(), path).chans[s].sent;
      && sent[..|sent| - 1] <= Story(rec.RoundHeader(), rec.frames, false)
      && (DONE in Arrived(received) ==> |sent| >= 2 && (rec.file.Some? ==> rec.file.value == ArchiveOf(sent)))
  {
    LiveEqualsArchive(rec.RoundHeader(), rec.frames, !rec.recording, rec.streamer.roundId, rec.streamer.said,
                      rec.streamer.peer.written, received, path, s);
  }

  // ---------------------------------------------------------------------------
  // The live client
  // ---------------------------------------------------------------------------

  /** LiveStreamClient (game/playback/live_stream_client.gd): its two fields, and what it has emitted. */
  class LiveStreamClient {
    var marbleCount: nat
    var headerSeen: bool
    var header: Option<Header>
    var frames: seq<Frame>
    var over: bool

    ghost function View(): Client
      reads this
    {
      Client(marbleCount, headerSeen, header, frames, over)
    }

    constructor ()
      ensures View() == NewClient() && !headerSeen && header == None && frames == [] && !over
    {
      marbleCount, headerSeen, header, frames, over := 0, false, None, [], false;
    }

    /** _dispatch_packet. */
    method DispatchPacket(pkt: Bytes)
      modifies this
      ensures View() == old(View()).Dispatch(pkt)
    {
      if |pkt| < 5 {
        return;
      }
      var kind := pkt[0];
      var length := FromLE(pkt[1..5]);
      var payload := pkt[5..Min(|pkt|, 5 + length)];
      if |payload| != length {
        return;
      }
      if kind == MSG_HEADER {
        var h := ReplayCodec.DecodeHeader(payload);
        if h.Some? {
          marbleCount := |h.value.marbles|;
          headerSeen := true;
          header := h;
        }
      } else if kind == MSG_TICK {
        if headerSeen {
          var f := ReplayCodec.DecodeFrame(payload, marbleCount);
          if f.Some? {
            frames := frames + [f.value];
          }
        }
      } else if kind == MSG_DONE {
        over := true;
      }
    }
  }

  datatype Client = Client(marbleCount: nat, headerSeen: bool, header: Option<Header>, frames: seq<Frame>, over: bool) {

    /** What one packet does: malformed packets and undecodable payloads are dropped. */
    function Dispatch(pkt: Bytes): Client {
      if |pkt| < PREFIX then this
      else
        var length := FromLE(pkt[1..PREFIX]);
        var payload := pkt[PREFIX..Min(|pkt|, PREFIX + length)];
        if |payload| != length then this
        else Take(Message(pkt[0], payload))
    }

    function Take(m: Message): Client {
      if m.kind == MSG_HEADER then
        match ReadHeader(m.payload)
        case None => this
        case Some((h, _)) => this.(marbleCount := |h.marbles|, headerSeen := true, header := Some(h))
      else if m.kind == MSG_TICK && headerSeen then
        match ReadFrame(m.payload, marbleCount)
        case None => this
        case Some((f, _)) => this.(frames := frames + [f])
      else if m.kind == MSG_DONE then this.(over := true)
      else this
    }
  }

  function NewClient(): Client { Client(0, false, None, [], false) }

  /** One packet per message, as the server sends them. */
  function DispatchAll(c: Client, ms: seq<Message>): Client {
    if ms == [] then c else DispatchAll(c, ms[..|ms| - 1]).Dispatch(Encoded(ms[|ms| - 1]))
  }

  /** A packet is taken for exactly the message that the server put into it. */
  lemma PacketIsMessage(c: Client, m: Message)
    requires |m.payload| < TWO_32
    ensures c.Dispatch(Encoded(m)) == c.Take(m)
  {
    Word32(|m.payload|);
    assert Encoded(m)[1..PREFIX] == LE(|m.payload|, 4);
    assert Encoded(m)[PREFIX..PREFIX + |m.payload|] == m.payload;
  }

  /** What a client ignores: short or cut packets, kinds it does not know, and ticks ahead of the header. */
  lemma PacketIgnored(c: Client, pkt: Bytes)
    requires |pkt| < 5 || |pkt| < 5 + FromLE(pkt[1..5]) || pkt[0] !in {1, 2, 3} || (pkt[0] == 2 && !c.headerSeen)
    ensures c.Dispatch(pkt) == c
  {
  }

  /** Header and ticks, as the client has decoded them. */
  lemma {:induction false} ClientFollows(h: Header, frames: seq<Frame>)
    requires FitsHeader(h) && All(HasStates(|h.marbles|), frames) && AllFit(Story(h, frames, false), TWO_32 - 1)
    ensures DispatchAll(NewClient(), Story(h, frames, false))
      == Client(|h.marbles|, true, Some(NormalHeader(h)), Map(NormalFrame, frames), false)
    decreases |frames|
  {
    if frames == [] {
      HeaderTaken(h);
    } else {
      var init, last := frames[..|frames| - 1], frames[|frames| - 1];
      assert frames == init + [last];
      StoryGrows(h, init, last);
      FitsAppend(Story(h, init, false), Message(MSG_TICK, FrameBytes(last)));
      ClientFollows(h, init);
      DispatchAppend(NewClient(), Story(h, init, false), Message(MSG_TICK, FrameBytes(last)));
      TickTaken(h, init, last);
    }
  }

  lemma DispatchAppend(c: Client, ms: seq<Message>, m: Message)
    ensures DispatchAll(c, ms + [m]) == DispatchAll(c, ms).Dispatch(Encoded(m))
  {
    assert (ms + [m])[..|ms|] == ms;
  }

  lemma FitsAppend(ms: seq<Message>, m: Message)
    requires AllFit(ms + [m], TWO_32 - 1)
    ensures AllFit(ms, TWO_32 - 1) && |m.payload| < TWO_32
  {
    assert forall i | 0 <= i < |ms| :: (ms + [m])[i] == ms[i];
    assert (ms + [m])[|ms|] == m;
  }

  lemma HeaderTaken(h: Header)
    requires FitsHeader(h) && AllFit(Story(h, [], false), TWO_32 - 1)
    ensures DispatchAll(NewClient(), Story(h, [], false)) == Client(|h.marbles|, true, Some(NormalHeader(h)), [], false)
  {
    var m := Message(MSG_HEADER, HeaderBytes(h));
    assert Story(h, [], false) == [] + [m];
    FitsAppend([], m);
    DispatchAppend(NewClient(), [], m);
    PacketIsMessage(NewClient(), m);
    HeaderBack(h, []);
    assert HeaderBytes(h) + [] == HeaderBytes(h);
  }

  lemma TickTaken(h: Header, init: seq<Frame>, last: Frame)
    requires HasStates(|h.marbles|)(last) && |FrameBytes(last)| < TWO_32
    ensures var c := Client(|h.marbles|, true, Some(NormalHeader(h)), Map(NormalFrame, init), false);
      c.Dispatch(Encoded(Message(MSG_TICK, FrameBytes(last)))) == c.(frames := Map(NormalFrame, init + [last]))
  {
    var c := Client(|h.marbles|, true, Some(NormalHeader(h)), Map(NormalFrame, init), false);
    PacketIsMessage(c, Message(MSG_TICK, FrameBytes(last)));
    FrameBack(last, []);
    assert FrameBytes(last) + [] == FrameBytes(last);
    MapAppend(NormalFrame, init, last);
  }

  /** The state of a client that has followed a complete broadcast. */
  lemma ClientAfterStory(h: Header, frames: seq<Frame>)
    requires WellSized(Replay(h, frames)) && AllFit(Story(h, frames, true), TWO_32 - 1)
    ensures DispatchAll(NewClient(), Story(h, frames, true))
      == Client(|h.marbles|, true, Some(NormalHeader(h)), Map(NormalFrame, frames), true)
  {
    var done := Message(MSG_DONE, []);
    StoryEnds(h, frames);
    FitsAppend(Story(h, frames, false), done);
    ClientFollows(h, frames);
    DispatchAppend(NewClient(), Story(h, frames, false), done);
    PacketIsMessage(DispatchAll(NewClient(), Story(h, frames, false)), done);
  }

  /** A client that follows a complete broadcast decodes the very replay that the file decodes to. */
  lemma ClientSeesTheReplay(h: Header, frames: seq<Frame>)
    requires WellSized(Replay(h, frames)) && AllFit(Story(h, frames, true), TWO_32 - 1)
    ensures var c := DispatchAll(NewClient(), Story(h, frames, true));
      c.over && c.header.Some? && ReadBytes(FileBytes(Replay(h, frames))) == Some(Replay(c.header.value, c.frames))
  {
    ClientAfterStory(h, frames);
    RoundTripIff(Replay(h, frames));
  }
}
