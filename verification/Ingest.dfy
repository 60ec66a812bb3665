/**
 The server's side of a simulator connection (server/stream/ingest.go): the read-dispatch loop that feeds
 one live round, and its deferred Done.  Deadlines and logging are not modelled.
 */
module Ingest {
  import opened Common
  import opened Words
  import opened Messages
  import opened LiveRounds
  import opened Hubs

  /** 1 << 20. */
  const MAX_PAYLOAD_BYTES: nat := 0x10_0000

  /**
   The writes the loop makes on an input that ends after `s`; `hdr` says whether a header was accepted
   before.  It stops at a read error, a refused write, a DONE or an unknown type.
   */
  function Feed<S>(s: Bytes, hdr: bool): seq<Event<S>>
    decreases |s|
  {
    match ReadOne(s, MAX_PAYLOAD_BYTES)
    case Err(_) => []
    case Ok(m) =>
      ReadOneConsumes(s, MAX_PAYLOAD_BYTES);
      if m.kind == MSG_HEADER && !hdr then [Event.Header(m.payload)] + Feed(s[|Encoded(m)|..], true)
      else if m.kind == MSG_TICK && hdr then [Event.Tick(m.payload)] + Feed(s[|Encoded(m)|..], hdr)
      else []
  }

  /** The same, message by message: what the loop accepts of a sequence of messages. */
  function Kept(ms: seq<Message>, hdr: bool): seq<Message> {
    if ms == [] then []
    else if ms[0].kind == MSG_HEADER && !hdr then [ms[0]] + Kept(ms[1..], true)
    else if ms[0].kind == MSG_TICK && hdr then [ms[0]] + Kept(ms[1..], hdr)
    else []
  }

  /** What is kept is the longest beginning that consists of a HEADER and TICKs behind it. */
  lemma {:induction false} KeptIsLongest(ms: seq<Message>, hdr: bool)
    ensures var n := |Kept(ms, hdr)|;
      && n <= |ms| && Kept(ms, hdr) == ms[..n]
      && (forall i | 0 <= i < n :: ms[i].kind == if i == 0 && !hdr then 1 else 2)
      && (n < |ms| ==> ms[n].kind != if n == 0 && !hdr then 1 else 2)
  {
    if ms != [] && Accepts(ms[0], hdr) {
      KeptIsLongest(ms[1..], true);
      var n := |Kept(ms, hdr)|;
      assert ms[..n] == [ms[0]] + ms[1..][..n - 1];
    }
  }

  /** handleConn with nobody else around: the round is opened, fed, finished and gone from the hub. */
  method HandleConn(hub: Hub, conn: Source) returns (r: Option<Round>)
    modifies hub, conn
    ensures r.Some? <==> |old(conn.unread)| >= 8 && FromLE(old(conn.unread)[..8]) !in old(hub.rounds)
    ensures hub.rounds == old(hub.rounds)
    ensures r.Some? ==> fresh(r.value) && r.value.Valid() && r.value.id == FromLE(old(conn.unread)[..8])
    ensures r.Some? ==>
      var events := Feed(old(conn.unread)[8..], false) + [Event.Finish];
      IsPath(Fresh<Subscriber>(), events) && r.value.View() == After(Fresh<Subscriber>(), events)
  {
    var idBuf := conn.ReadFull(8);
    if idBuf.Err? {
      return None;
    }
    LEInverse(idBuf.value);
    Widths();
    var opening := hub.Open(FromLE(idBuf.value));
    if opening.Err? {
      return None;
    }
    var round := opening.value;
    ghost var events: seq<Event<Subscriber>> := Feed(conn.unread, false);
    FeedRound(round, conn);
    PathExtends(Fresh<Subscriber>(), events, Event.Finish);
    round.Done();
    assert old(hub.rounds)[round.id := round] - {round.id} == old(hub.rounds);
    return Some(round);
  }

  /** The writes already made and the input still unread make up the writes of the whole input. */
  ghost predicate Feeding(view: LiveRound<Subscriber>, unread: Bytes, input: Bytes, made: seq<Event<Subscriber>>,
                          running: bool) {
    && IsPath(Fresh<Subscriber>(), made) && view == After(Fresh<Subscriber>(), made)
    && Feed(input, false) == made + if running then Feed(unread, view.hdr.Some?) else []
  }

  /** The loop of handleConn on a round without subscribers. */
  method FeedRound(round: Round, conn: Source)
    requires round.Valid() && round.View() == Fresh<Subscriber>()
    modifies round, conn
    ensures round.Valid() && round.known == {} && !round.done
    ensures IsPath(Fresh<Subscriber>(), Feed(old(conn.unread), false))
    ensures round.View() == After(Fresh<Subscriber>(), Feed(old(conn.unread), false))
  {
    ghost var made: seq<Event<Subscriber>> := [];
    ghost var input := conn.unread;
    var running := true;
    assert round.Chans().Keys == round.known;
    assert [] + Feed<Subscriber>(input, false) == Feed<Subscriber>(input, false);
    while running
      invariant round.Valid() && round.known == {} && !round.done
      invariant Feeding(round.View(), conn.unread, input, made, running)
      decreases |conn.unread|, running
    {
      running, made := Turn(round, conn, input, made);
    }
    assert made + [] == made;
  }

  method Turn(round: Round, conn: Source, ghost input: Bytes, ghost made: seq<Event<Subscriber>>)
    returns (running: bool, ghost made': seq<Event<Subscriber>>)
    requires round.Valid() && round.known == {} && !round.done
    requires Feeding(round.View(), conn.unread, input, made, true)
    modifies round, conn
    ensures round.Valid() && round.known == {} && !round.done
    ensures Feeding(round.View(), conn.unread, input, made', running)
    ensures |conn.unread| <= |old(conn.unread)| && (running ==> |conn.unread| < |old(conn.unread)|)
  {
    running, made' := false, made;
    FeedStep(made, conn.unread, round.hdr.Some?);
    var m := ReadMessage(conn, MAX_PAYLOAD_BYTES);
    if m.Ok? {
      running := Dispatch(round, m.value);
      if running {
        PathExtends(Fresh<Subscriber>(), made, WriteOf(m.value));
        made' := made + [WriteOf(m.value)];
      }
    }
  }

  /** Does the loop write this message and go on? */
  predicate Accepts(m: Message, hdr: bool) {
    (m.kind == MSG_HEADER && !hdr) || (m.kind == MSG_TICK && hdr)
  }

  /** The next message, if it is accepted. */
  ghost predicate GoesOn(s: Bytes, hdr: bool) {
    ReadOne(s, MAX_PAYLOAD_BYTES).Ok? && Accepts(ReadOne(s, MAX_PAYLOAD_BYTES).value, hdr)
  }

  /** The writes ahead, one message at a time. */
  lemma FeedStep(done: seq<Event<Subscriber>>, s: Bytes, hdr: bool)
    ensures !GoesOn(s, hdr) ==> done + Feed(s, hdr) == done + []
    ensures GoesOn(s, hdr) ==>
      var m := ReadOne(s, MAX_PAYLOAD_BYTES).value;
      |Encoded(m)| <= |s| && done + Feed(s, hdr) == done + [WriteOf(m)] + Feed(s[|Encoded(m)|..], true)
  {
    if GoesOn(s, hdr) {
      ReadOneConsumes(s, MAX_PAYLOAD_BYTES);
    }
  }

  /** The write a HEADER or TICK message asks for. */
  function WriteOf<S>(m: Message): Event<S> {
    if m.kind == MSG_HEADER then Event.Header(m.payload) else Event.Tick(m.payload)
  }

  /** One turn of the switch: a message is written, or it ends the loop and leaves the round as it is. */
  method Dispatch(round: Round, m: Message) returns (more: bool)
    requires round.Valid() && !round.done
    modifies round, round.known
    ensures round.Valid() && round.known == old(round.known) && !round.done
    ensures more <==> Accepts(m, old(round.hdr).Some?)
    ensures round.View() == if more then Step(old(round.View()), WriteOf(m)) else old(round.View())
    ensures more ==> round.hdr.Some?
  {
    if m.kind == MSG_HEADER {
      var err := round.WriteHeader(m.payload);
      return err.None?;
    }
    if m.kind == MSG_TICK {
      var err := round.WriteTick(m.payload);
      return err.None?;
    }
    return false;
  }
}
