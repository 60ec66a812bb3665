/**
 One live round of the stream (server/stream/stream.go): a log of messages fanned out to subscribers
 over bounded channels.  `LiveRound` is the value that the round's lock guards; subscribers are named by
 addresses of type S.

 A channel knows, as history, everything ever sent into it and received from it.  The preconditions of
 `Send` and `Close` are what Go enforces at run time: a send on a closed channel and a second close
 panic, a send on a full channel blocks.
 */
module LiveRounds {
  import opened Common
  import opened Messages

  datatype Chan = Chan(queue: seq<Message>, cap: nat, closed: bool, sent: seq<Message>, received: seq<Message>) {

    predicate Full() { |queue| >= cap }

    function Send(m: Message): Chan
      requires !closed && !Full()
    {
      this.(queue := queue + [m], sent := sent + [m])
    }

    function Close(): Chan
      requires !closed
    {
      this.(closed := true)
    }

    /** Receiving takes the oldest message; an empty channel has nothing to give. */
    function Recv(): Chan {
      if queue == [] then this else this.(queue := queue[1..], received := received + [queue[0]])
    }

    /** Several sends in a row, none of which may block. */
    function SendAll(ms: seq<Message>): (c: Chan)
      requires !closed && |queue| + |ms| <= cap
      ensures c == this.(queue := queue + ms, sent := sent + ms)
      decreases |ms|
    {
      if ms == [] then this else
        assert [ms[0]] + ms[1..] == ms;
        Send(ms[0]).SendAll(ms[1..])
    }

    /** A send that never blocks: a full channel is closed instead. */
    function Offer(m: Message): Chan
      requires !closed
    {
      if Full() then Close() else Send(m)
    }
  }

  datatype Error = HeaderTwice | HeaderRequired | RoundClosed

  const MIN_LIVE_BUFFER: nat := 16

  /** The headroom of a subscriber's channel after the backfill. */
  function Headroom(liveBuf: int): nat { if liveBuf < MIN_LIVE_BUFFER then MIN_LIVE_BUFFER else liveBuf }

  const DONE: Message := Message(MSG_DONE, [])

  function Opt(m: Option<Message>): seq<Message> { if m.Some? then [m.value] else [] }

  datatype LiveRound<!S(==)> = LiveRound(
    hdr: Option<Message>, tks: seq<Message>, done: bool, subs: set<S>, chans: map<S, Chan>) {

    /** What a late subscriber is given. */
    function Backfill(): seq<Message> { Opt(hdr) + tks }

    /** Everything the round has ever sent out. */
    function Log(): seq<Message> { Backfill() + if done then [DONE] else [] }

    ghost predicate ChanOk(s: S)
      requires s in chans
    {
      var c := chans[s];
      && c.received + c.queue == c.sent && |c.queue| <= c.cap
      && (s in subs ==> !c.closed && c.sent == Log())
      && (s !in subs ==> c.closed && c.sent <= Log())
    }

    ghost predicate Inv() {
      && subs <= chans.Keys
      && (hdr.None? ==> tks == [])
      && (hdr.Some? ==> hdr.value.kind == MSG_HEADER)
      && (forall t | t in tks :: t.kind == MSG_TICK)
      && (done ==> subs == {})
      && forall s | s in chans :: ChanOk(s)
    }

    /** fanoutLocked. */
    function Fanout(m: Message): LiveRound<S>
      requires forall s | s in subs :: s in chans && !chans[s].closed
    {
      this.(subs := (set s | s in subs && !chans[s].Full()),
            chans := (map s | s in chans :: if s in subs then chans[s].Offer(m) else chans[s]))
    }

    function WriteHeader(payload: Bytes): (LiveRound<S>, Option<Error>)
      requires Inv()
    {
      if hdr.Some? then (this, Some(HeaderTwice))
      else if done then (this, Some(RoundClosed))
      else
        var m := Message(MSG_HEADER, payload);
        (this.(hdr := Some(m)).Fanout(m), None)
    }

    function WriteTick(payload: Bytes): (LiveRound<S>, Option<Error>)
      requires Inv()
    {
      if hdr.None? then (this, Some(HeaderRequired))
      else if done then (this, Some(RoundClosed))
      else
        var m := Message(MSG_TICK, payload);
        (this.(tks := tks + [m]).Fanout(m), None)
    }

    /** Fans out DONE, then closes the channel of every subscriber that is left. */
    function Finish(): LiveRound<S>
      requires Inv()
    {
      if done then this
      else
        var r := this.(done := true).Fanout(DONE);
        r.(subs := {}, chans := (map s | s in r.chans :: if s in r.subs then r.chans[s].Close() else r.chans[s]))
    }

    /** The channel of a new subscriber: sized so that the backfill, and a DONE after it, never block. */
    function NewChannel(liveBuf: int): Chan {
      var c := Chan([], 1 + |tks| + Headroom(liveBuf), false, [], []).SendAll(Backfill());
      if done then c.Send(DONE).Close() else c
    }

    function Subscribe(s: S, liveBuf: int): LiveRound<S>
      requires Inv() && s !in chans
    {
      this.(subs := if done then subs else subs + {s}, chans := chans[s := NewChannel(liveBuf)])
    }

    function Unsubscribe(s: S): LiveRound<S>
      requires Inv()
    {
      if s in subs then this.(subs := subs - {s}, chans := chans[s := chans[s].Close()]) else this
    }

    function Recv(s: S): LiveRound<S>
      requires s in chans
    {
      this.(chans := chans[s := chans[s].Recv()])
    }
  }

  function Fresh<S(==)>(): LiveRound<S> { LiveRound(None, [], false, {}, map[]) }

  // ---------------------------------------------------------------------------
  // Histories
  // ---------------------------------------------------------------------------

  datatype Event<S> =
    | Header(payload: Bytes)
    | Tick(payload: Bytes)
    | Finish
    | Subscribe(s: S, liveBuf: int)
    | Unsubscribe(s: S)
    | Recv(s: S)

  /** Subscribers are fresh objects; only existing ones can leave or read. */
  predicate Possible<S(==)>(r: LiveRound<S>, e: Event<S>) {
    match e
    case Subscribe(s, _) => s !in r.chans
    case Unsubscribe(s) => s in r.chans
    case Recv(s) => s in r.chans
    case _ => true
  }

  function Step<S(==)>(r: LiveRound<S>, e: Event<S>): LiveRound<S>
    requires r.Inv() && Possible(r, e)
  {
    match e
    case Header(p) => r.WriteHeader(p).0
    case Tick(p) => r.WriteTick(p).0
    case Finish => r.Finish()
    case Subscribe(s, liveBuf) => r.Subscribe(s, liveBuf)
    case Unsubscribe(s) => r.Unsubscribe(s)
    case Recv(s) => r.Recv(s)
  }

  /** Offering the next message of the log to every subscriber. */
  lemma FanoutKeeps<S>(before: LiveRound<S>, r: LiveRound<S>, m: Message)
    requires before.Inv() && !before.done && r == before.(hdr := r.hdr, tks := r.tks, done := r.done)
    requires r.Log() == before.Log() + [m]
    ensures var after := r.Fanout(m);
      && after.Log() == r.Log() && after.subs <= r.subs && after.chans.Keys == r.chans.Keys
      && forall s | s in after.chans :: after.ChanOk(s)
  {
    var after := r.Fanout(m);
    forall s | s in after.chans ensures after.ChanOk(s) {
      assert before.ChanOk(s);
      assert s in after.subs <==> s in r.subs && !r.chans[s].Full();
    }
  }

  /**
   One event keeps the invariant.  As `Send` and `Close` demand an open channel, and `Send` room, no
   event ever sends on or closes a closed channel, and no event blocks.
   */
  lemma StepKeeps<S>(r: LiveRound<S>, e: Event<S>)
    requires r.Inv() && Possible(r, e)
    ensures Step(r, e).Inv()
    ensures r.Log() <= Step(r, e).Log()
  {
    match e
    case Header(p) => HeaderKeeps(r, p);
    case Tick(p) => TickKeeps(r, p);
    case Finish => FinishKeeps(r);
    case Subscribe(s, liveBuf) => SubscribeKeeps(r, s, liveBuf);
    case Unsubscribe(s) => UnsubscribeKeeps(r, s);
    case Recv(s) => RecvKeeps(r, s);
  }

  lemma HeaderKeeps<S>(r: LiveRound<S>, p: Bytes)
    requires r.Inv()
    ensures r.WriteHeader(p).0.Inv() && r.Log() <= r.WriteHeader(p).0.Log()
  {
    if r.hdr.None? && !r.done {
      FanoutKeeps(r, r.(hdr := Some(Message(MSG_HEADER, p))), Message(MSG_HEADER, p));
    }
  }

  lemma TickKeeps<S>(r: LiveRound<S>, p: Bytes)
    requires r.Inv()
    ensures r.WriteTick(p).0.Inv() && r.Log() <= r.WriteTick(p).0.Log()
  {
    if r.hdr.Some? && !r.done {
      var m := Message(MSG_TICK, p);
      assert r.(tks := r.tks + [m]).Log() == r.Log() + [m];
      FanoutKeeps(r, r.(tks := r.tks + [m]), m);
    }
  }

  lemma FinishKeeps<S>(r: LiveRound<S>)
    requires r.Inv()
    ensures r.Finish().Inv() && r.Log() <= r.Finish().Log()
  {
    if !r.done {
      var mid := r.(done := true).Fanout(DONE);
      FanoutKeeps(r, r.(done := true), DONE);
      var after := r.Finish();
      forall s | s in after.chans ensures after.ChanOk(s) {
        assert mid.ChanOk(s);
      }
    }
  }

  lemma SubscribeKeeps<S>(r: LiveRound<S>, s: S, liveBuf: int)
    requires r.Inv() && s !in r.chans
    ensures r.Subscribe(s, liveBuf).Inv() && r.Subscribe(s, liveBuf).Log() == r.Log()
  {
    var after := r.Subscribe(s, liveBuf);
    forall x | x in after.chans ensures after.ChanOk(x) {
      if x != s {
        assert r.ChanOk(x);
      }
    }
  }

  lemma UnsubscribeKeeps<S>(r: LiveRound<S>, s: S)
    requires r.Inv()
    ensures r.Unsubscribe(s).Inv() && r.Unsubscribe(s).Log() == r.Log()
  {
    var after := r.Unsubscribe(s);
    forall x | x in after.chans ensures after.ChanOk(x) {
      assert r.ChanOk(x);
    }
  }

  lemma RecvKeeps<S>(r: LiveRound<S>, s: S)
    requires r.Inv() && s in r.chans
    ensures r.Recv(s).Inv() && r.Recv(s).Log() == r.Log()
  {
    var after := r.Recv(s);
    RecvChan(r.chans[s]);
    assert r.ChanOk(s);
    forall x | x in after.chans ensures after.ChanOk(x) {
      assert r.ChanOk(x);
    }
  }

  lemma RecvChan(c: Chan)
    requires c.received + c.queue == c.sent && |c.queue| <= c.cap
    ensures c.Recv().received + c.Recv().queue == c.sent && |c.Recv().queue| <= c.cap
  {
    if c.queue != [] {
      assert c.queue == [c.queue[0]] + c.queue[1..];
      assert c.received + [c.queue[0]] + c.queue[1..] == c.received + c.queue;
    }
  }

  /** `path` can happen, starting from r. */
  ghost predicate IsPath<S>(r: LiveRound<S>, path: seq<Event<S>>)
    decreases |path|
  {
    r.Inv() && (path == [] || (Possible(r, path[0]) && IsPath(Step(r, path[0]), path[1..])))
  }

  ghost function After<S>(r: LiveRound<S>, path: seq<Event<S>>): LiveRound<S>
    requires IsPath(r, path)
    decreases |path|
  {
    if path == [] then r else After(Step(r, path[0]), path[1..])
  }

  /** A history never gets stuck: after any history, every event is possible but for a stale subscriber address. */
  lemma {:induction false} PathExtends<S>(r: LiveRound<S>, path: seq<Event<S>>, e: Event<S>)
    requires IsPath(r, path) && Possible(After(r, path), e)
    ensures After(r, path).Inv()
    ensures IsPath(r, path + [e]) && After(r, path + [e]) == Step(After(r, path), e)
    decreases |path|
  {
    if path == [] {
      StepKeeps(r, e);
      assert path + [e] == [e];
    } else {
      assert (path + [e])[1..] == path[1..] + [e];
      PathExtends(Step(r, path[0]), path[1..], e);
    }
  }

  lemma {:induction false} PathKeeps<S>(r: LiveRound<S>, path: seq<Event<S>>)
    requires IsPath(r, path)
    ensures After(r, path).Inv() && r.Log() <= After(r, path).Log()
    decreases |path|
  {
    if path != [] {
      StepKeeps(r, path[0]);
      PathKeeps(Step(r, path[0]), path[1..]);
    }
  }

  /** `log` is empty or HEADER TICK*, optionally followed by DONE; DONE may stand alone. */
  ghost predicate WellShaped(log: seq<Message>, done: bool) {
    exists front: seq<Message> ::
      && log == front + (if done then [DONE] else [])
      && (front == [] || (front[0].kind == MSG_HEADER && forall i | 1 <= i < |front| :: front[i].kind == MSG_TICK))
  }

  /**
   Over every history of a fresh round: a subscriber still attached has been sent exactly the whole log,
   over an open channel; any other has been sent a prefix of it, over a closed one; a reader has received
   a prefix of what was sent, in order; and the log has the shape HEADER TICK* [DONE], where only DONE
   may come without a HEADER.
   */
  lemma SubscribersSeeTheLog<S>(path: seq<Event<S>>, s: S)
    requires IsPath(Fresh<S>(), path) && s in After(Fresh<S>(), path).chans
    ensures var r := After(Fresh<S>(), path); var c := r.chans[s];
      && (if s in r.subs then !c.closed && c.sent == r.Log() else c.closed && c.sent <= r.Log())
      && c.received <= c.sent && c.received + c.queue == c.sent
      && WellShaped(r.Log(), r.done)
  {
    PathKeeps(Fresh<S>(), path);
    var r := After(Fresh<S>(), path);
    assert r.ChanOk(s);
    assert r.Log() == r.Backfill() + (if r.done then [DONE] else []);
    assert r.Backfill() == [] || (r.Backfill()[0].kind == MSG_HEADER
                                  && forall i | 1 <= i < |r.Backfill()| :: r.Backfill()[i] in r.tks);
  }

  /** A header is written before the round is finished. */
  predicate HeaderBeforeFinish<S(==)>(path: seq<Event<S>>) {
    path != [] && (path[0].Header? || (!path[0].Finish? && HeaderBeforeFinish(path[1..])))
  }

  predicate Finishes<S(==)>(path: seq<Event<S>>) {
    path != [] && (path[0].Finish? || Finishes(path[1..]))
  }

  lemma {:induction false} HeaderAndDone<S>(r: LiveRound<S>, path: seq<Event<S>>)
    requires IsPath(r, path)
    ensures After(r, path).hdr.Some? <==> r.hdr.Some? || (!r.done && HeaderBeforeFinish(path))
    ensures After(r, path).done <==> r.done || Finishes(path)
    decreases |path|
  {
    if path != [] {
      HeaderAndDone(Step(r, path[0]), path[1..]);
    }
  }

  lemma LogEnds<S>(r: LiveRound<S>)
    requires r.Inv()
    ensures r.hdr.None? ==> r.Log() == if r.done then [DONE] else []
    ensures r.hdr.Some? ==> r.Log() != [] && r.Log()[0].kind == MSG_HEADER
    ensures DONE in r.Log() <==> r.done
  {
    if r.hdr.Some? {
      assert r.Log()[0] == r.hdr.value;
    }
    if r.done {
      assert r.Log()[|r.Log()| - 1] == DONE;
    }
  }

  /**
   "HEADER must precede any DONE", exactly: over every history of a fresh round, DONE stands alone in the log if
   and only if the round was finished before any header was written; otherwise a log with a DONE begins with
   the HEADER.
   */
  lemma HeaderPrecedesDoneIff<S>(path: seq<Event<S>>)
    requires IsPath(Fresh<S>(), path)
    ensures var r := After(Fresh<S>(), path);
      && (r.Log() == [DONE] <==> Finishes(path) && !HeaderBeforeFinish(path))
      && (DONE in r.Log() <==> Finishes(path))
      && (r.Log() != [] && r.Log()[0].kind == MSG_HEADER <==> HeaderBeforeFinish(path))
  {
    PathKeeps(Fresh<S>(), path);
    HeaderAndDone(Fresh<S>(), path);
    var r := After(Fresh<S>(), path);
    LogEnds(r);
  }

  /** The refusal of a TICK without a HEADER has no counterpart for DONE. */
  lemma DoneWithoutHeader<S>()
    ensures IsPath(Fresh<S>(), [Event.Finish])
    ensures After(Fresh<S>(), [Event.Finish]).Log() == [DONE]
    ensures Fresh<S>().WriteTick([]).1 == Some(HeaderRequired)
  {
    StepKeeps(Fresh<S>(), Event.Finish);
    var e: seq<Event<S>> := [Event.Finish];
    assert e[1..] == [];
  }

  /**
   The first Finish logs DONE and sends it to every subscriber with room left; nobody stays attached, every channel
   is closed, and who was out before notices nothing.  A second Finish does nothing.
   */
  lemma FinishDelivers<S>(r: LiveRound<S>)
    requires r.Inv()
    ensures var after := r.Finish();
      && (r.done ==> after == r)
      && (!r.done ==> after.Log() == r.Log() + [Message(3, [])])
      && after.done && after.subs == {} && after.chans.Keys == r.chans.Keys
      && forall s | s in r.chans ::
        var c, c' := r.chans[s], after.chans[s];
        && c'.closed && c'.received == c.received && c'.cap == c.cap
        && (s in r.subs ==> c'.queue == c.queue + if |c.queue| < c.cap then [Message(3, [])] else [])
        && (s !in r.subs ==> c' == c)
  {
    forall s | s in r.chans ensures r.ChanOk(s) {
    }
  }

  lemma ChannelOfJoiner<S>(r: LiveRound<S>, liveBuf: int)
    ensures var c := r.NewChannel(liveBuf);
      && c.sent == c.queue == r.Log() && c.received == [] && (c.closed <==> r.done)
      && (!r.done ==> c.cap - |c.queue| >= 16 && c.cap - |c.queue| >= liveBuf)
      && (var room := c.cap - |c.queue| - if r.hdr.None? then 1 else 0; !r.done ==> room == 16 || room == liveBuf)
  {
  }

  /**
   A subscriber is given the whole log so far, DONE included, without blocking; on a running round there is then
   room for liveBuf messages more, and never for fewer than 16.
   */
  lemma LateJoiner<S>(r: LiveRound<S>, s: S, liveBuf: int)
    requires r.Inv() && s !in r.chans
    ensures var after := r.Subscribe(s, liveBuf); var c := after.chans[s];
      && c.sent == c.queue == r.Log() && c.received == [] && after.Log() == r.Log()
      && (s in after.subs <==> !r.done) && (c.closed <==> r.done)
      && (!r.done ==> c.cap - |c.queue| >= 16 && c.cap - |c.queue| >= liveBuf)
      && (var room := c.cap - |c.queue| - if r.hdr.None? then 1 else 0; !r.done ==> room == 16 || room == liveBuf)
      && forall x | x in r.chans :: after.chans[x] == r.chans[x] && (x in after.subs <==> x in r.subs)
  {
    ChannelOfJoiner(r, liveBuf);
  }

  /** Who leaves is detached at once, over a channel closed behind what was sent; nobody else notices. */
  lemma LeaverIsOut<S>(r: LiveRound<S>, s: S)
    requires r.Inv() && s in r.chans
    ensures var after := r.Unsubscribe(s);
      && s !in after.subs && s in after.chans && after.chans[s].closed
      && after.chans[s].sent == r.chans[s].sent && after.chans[s].queue == r.chans[s].queue
      && after.Log() == r.Log()
      && forall x | x in r.chans && x != s :: after.chans[x] == r.chans[x] && (x in after.subs <==> x in r.subs)
  {
    assert r.ChanOk(s);
  }

  /** A read takes the oldest message that is waiting, closed or not; nobody else notices. */
  lemma ReadConsumes<S>(r: LiveRound<S>, s: S)
    requires s in r.chans
    ensures var c, c' := r.chans[s], r.Recv(s).chans[s];
      && (c.queue == [] ==> c' == c)
      && (c.queue != [] ==> c'.received == c.received + [c.queue[0]] && c.queue == [c.queue[0]] + c'.queue)
      && c'.sent == c.sent && c'.closed == c.closed && c'.cap == c.cap
      && r.Recv(s).subs == r.subs && forall x | x in r.chans && x != s :: r.Recv(s).chans[x] == r.chans[x]
  {
  }

  /**
   What a write does: the header is accepted once and before the end, ticks only between header and end; an
   accepted message is the next of the log and reaches exactly the subscribers with room left, who stay.
   */
  lemma WriteOutcomes<S>(r: LiveRound<S>, p: Bytes)
    requires r.Inv()
    ensures r.WriteHeader(p).1 ==
      if r.hdr.Some? then Some(HeaderTwice) else if r.done then Some(RoundClosed) else None
    ensures r.WriteTick(p).1 ==
      if r.hdr.None? then Some(HeaderRequired) else if r.done then Some(RoundClosed) else None
    ensures r.WriteHeader(p).1.Some? ==> r.WriteHeader(p).0 == r
    ensures r.WriteTick(p).1.Some? ==> r.WriteTick(p).0 == r
    ensures r.WriteHeader(p).1.None? ==> Sends(r, r.WriteHeader(p).0, Message(1, p))
    ensures r.WriteTick(p).1.None? ==> Sends(r, r.WriteTick(p).0, Message(2, p))
  {
    assert r.tks + [Message(2, p)] != [] && Opt(r.hdr) + (r.tks + [Message(2, p)]) == r.Backfill() + [Message(2, p)];
  }

  /** From r to after, m has been logged and sent to whoever had room; the others are out. */
  ghost predicate Sends<S>(r: LiveRound<S>, after: LiveRound<S>, m: Message) {
    && after.Log() == r.Log() + [m] && after.chans.Keys == r.chans.Keys
    && forall s | s in r.chans ::
         var c, c' := r.chans[s], after.chans[s];
         if s in r.subs && |c.queue| < c.cap then s in after.subs && c'.queue == c.queue + [m] && !c'.closed
         else s !in after.subs && c'.queue == c.queue && c'.closed
  }

  // ---------------------------------------------------------------------------
  // The kick bound
  // ---------------------------------------------------------------------------

  /** An event that leaves subscriber s alone: it does not read, it does not leave, and the round goes on. */
  predicate Idle<S(==)>(e: Event<S>, s: S) {
    e != Recv(s) && e != Unsubscribe(s) && !e.Finish?
  }

  lemma IdleStep<S>(r: LiveRound<S>, e: Event<S>, s: S)
    requires r.Inv() && Possible(r, e) && Idle(e, s) && s in r.chans
    ensures var after := Step(r, e);
      && s in after.chans && after.chans[s].cap == r.chans[s].cap
      && |r.Log()| <= |after.Log()| <= |r.Log()| + 1
      && (s in r.subs ==>
          (s in after.subs <==> |r.chans[s].queue| + |after.Log()| - |r.Log()| <= r.chans[s].cap))
      && (s in after.subs ==>
          s in r.subs && |after.chans[s].queue| == |r.chans[s].queue| + |after.Log()| - |r.Log()|)
  {
    assert r.ChanOk(s);
  }

  /**
   A subscriber that reads nothing stays attached exactly as long as its channel can hold what the
   round has sent out since.
   */
  lemma {:induction false} SurvivesIff<S>(r: LiveRound<S>, path: seq<Event<S>>, s: S)
    requires IsPath(r, path) && s in r.chans && s in r.subs
    requires forall i | 0 <= i < |path| :: Idle(path[i], s)
    ensures s in After(r, path).subs <==>
      |r.chans[s].queue| + |After(r, path).Log()| - |r.Log()| <= r.chans[s].cap
    decreases |path|
  {
    if path != [] {
      var next := Step(r, path[0]);
      IdleStep(r, path[0], s);
      if s in next.subs {
        SurvivesIff(next, path[1..], s);
      } else {
        StaysOut(next, path[1..], s);
        PathKeeps(next, path[1..]);
      }
    } else {
      assert r.ChanOk(s);
    }
  }

  /** Once out, always out. */
  lemma {:induction false} StaysOut<S>(r: LiveRound<S>, path: seq<Event<S>>, s: S)
    requires IsPath(r, path) && s in r.chans && s !in r.subs
    ensures s in After(r, path).chans && s !in After(r, path).subs
    ensures After(r, path).chans[s].sent == r.chans[s].sent
    decreases |path|
  {
    if path != [] {
      StepKeeps(r, path[0]);
      StaysOut(Step(r, path[0]), path[1..], s);
    }
  }

  /**
   The headroom promise: after subscribing to a running round, a subscriber that reads nothing is still attached
   after 16 further messages and after liveBuf further messages; it survives exactly the larger of the two numbers,
   and one more if the header was still to come.
   */
  lemma KickBound<S>(r: LiveRound<S>, s: S, liveBuf: int, path: seq<Event<S>>)
    requires r.Inv() && !r.done && s !in r.chans
    requires IsPath(r.Subscribe(s, liveBuf), path) && forall i | 0 <= i < |path| :: Idle(path[i], s)
    ensures var after := After(r.Subscribe(s, liveBuf), path);
      var since := |after.Log()| - |r.Log()| - if r.hdr.None? then 1 else 0;
      && (since <= 16 || since <= liveBuf ==> s in after.subs)
      && (since > 16 && since > liveBuf ==> s !in after.subs)
  {
    SurvivesIff(r.Subscribe(s, liveBuf), path, s);
  }
}
