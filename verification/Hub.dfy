/**
 The objects of the live stream (server/stream/stream.go): subscribers with their channels, rounds, and
 the hub that registers the rounds in progress; and the registration protocol, in which a Done holds
 first the round's lock and then, after a gap, the hub's.
 */
module Hubs {
  import opened Common
  import opened Messages
  import opened LiveRounds

  /** A subscriber is its channel; `sent` and `received` are history. */
  class Subscriber {
    const cap: nat
    var queue: seq<Message>
    var closed: bool
    ghost var sent: seq<Message>
    ghost var received: seq<Message>

    ghost function View(): Chan
      reads this
    {
      Chan(queue, cap, closed, sent, received)
    }

    constructor (cap: nat)
      ensures View() == Chan([], cap, false, [], [])
    {
      this.cap, queue, closed, sent, received := cap, [], false, [], [];
    }

    /** `s.send <- m`. */
    method Send(m: Message)
      requires !closed && |queue| < cap
      modifies this
      ensures View() == old(View()).Send(m)
    {
      queue := queue + [m];
      sent := sent + [m];
    }

    method Close()
      requires !closed
      modifies this
      ensures View() == old(View()).Close()
    {
      closed := true;
    }

    /** One turn of the fan-out: a send that does not block, or else the channel is closed. */
    method Offer(m: Message) returns (kept: bool)
      requires !closed
      modifies this
      ensures View() == old(View()).Offer(m)
      ensures kept <==> !old(View()).Full()
    {
      if |queue| < cap {
        Send(m);
        return true;
      }
      Close();
      return false;
    }

    /** Several sends in a row. */
    method SendAll(ms: seq<Message>)
      requires !closed && |queue| + |ms| <= cap
      modifies this
      ensures View() == old(View()).SendAll(ms)
    {
      for i := 0 to |ms|
        invariant View() == old(View()).(queue := old(queue) + ms[..i], sent := old(sent) + ms[..i])
      {
        Send(ms[i]);
      }
      assert ms[..|ms|] == ms;
    }

    /** `m, ok := <-s.C()`, as far as it does not block: None while the channel is empty. */
    method Receive() returns (m: Option<Message>, open: bool)
      modifies this
      ensures View() == old(View()).Recv()
      ensures m == (if old(queue) == [] then None else Some(old(queue)[0]))
      ensures open <==> m.Some? || !closed
      ensures old(queue) == Opt(m) + queue && received == old(received) + Opt(m)
      ensures sent == old(sent) && closed == old(closed)
    {
      if queue == [] {
        return None, !closed;
      }
      m, open := Some(queue[0]), true;
      received := received + [queue[0]];
      queue := queue[1..];
    }
  }

  class Round {
    const id: Uint64
    const hub: Hub
    var hdr: Option<Message>
    var tks: seq<Message>
    var done: bool
    var subs: set<Subscriber>
    ghost var known: set<Subscriber>

    ghost function Chans(): map<Subscriber, Chan>
      reads this`known, known
    {
      map s | s in known :: s.View()
    }

    ghost function View(): LiveRound<Subscriber>
      reads this, known
    {
      LiveRound(hdr, tks, done, subs, Chans())
    }

    lemma AllOpen()
      requires Valid()
      ensures subs <= known && forall s | s in subs :: !s.closed
    {
      forall s | s in subs ensures !s.closed {
        assert View().ChanOk(s);
      }
    }

    ghost predicate Valid()
      reads this, known
    {
      View().Inv()
    }

    constructor (id: Uint64, hub: Hub)
      ensures Valid() && View() == LiveRounds.Fresh() && this.id == id && this.hub == hub
    {
      this.id, this.hub, hdr, tks, done, subs, known := id, hub, None, [], false, {}, {};
    }

    method WriteHeader(payload: Bytes) returns (err: Option<Error>)
      requires Valid()
      modifies this, known
      ensures Valid() && known == old(known)
      ensures (View(), err) == old(View()).WriteHeader(payload)
    {
      StepKeeps(View(), Event.Header(payload));
      if hdr.Some? {
        return Some(HeaderTwice);
      }
      if done {
        return Some(RoundClosed);
      }
      AllOpen();
      var m := Message(MSG_HEADER, payload);
      hdr := Some(m);
      assert View() == old(View()).(hdr := Some(m));
      FanoutLocked(m);
      return None;
    }

    method WriteTick(payload: Bytes) returns (err: Option<Error>)
      requires Valid()
      modifies this, known
      ensures Valid() && known == old(known)
      ensures (View(), err) == old(View()).WriteTick(payload)
    {
      StepKeeps(View(), Event.Tick(payload));
      if hdr.None? {
        return Some(HeaderRequired);
      }
      if done {
        return Some(RoundClosed);
      }
      AllOpen();
      var m := Message(MSG_TICK, payload);
      tks := tks + [m];
      assert View() == old(View()).(tks := old(tks) + [m]);
      FanoutLocked(m);
      return None;
    }

    /** Offers m to every subscriber; whoever has no room is removed and its channel closed. */
    method FanoutLocked(m: Message)
      requires subs <= known && forall s | s in subs :: !s.closed
      modifies this`subs, subs
      ensures View() == old(View()).Fanout(m)
      ensures subs <= known && forall s | s in subs :: !s.closed
    {
      OfferAll(m);
      assert Chans() == old(View()).Fanout(m).chans;
    }

    method OfferAll(m: Message)
      requires forall s | s in subs :: !s.closed
      modifies this`subs, subs
      ensures subs == set s | s in old(subs) && !old(s.View()).Full()
      ensures forall s | s in old(subs) :: s.View() == old(s.View()).Offer(m)
    {
      var rest := subs;
      while rest != {}
        invariant rest <= old(subs) && rest <= subs <= old(subs)
        invariant forall s | s in rest :: s.View() == old(s.View())
        invariant forall s | s in old(subs) - rest :: s.View() == old(s.View()).Offer(m)
        invariant forall s | s in old(subs) - rest :: s in subs <==> !old(s.View()).Full()
        decreases |rest|
      {
        var s :| s in rest;
        var kept := s.Offer(m);
        if !kept {
          subs := subs - {s};
        }
        rest := rest - {s};
      }
    }

    /** Done, under the round's lock; the result says whether the hub is still to be told. */
    method Finish() returns (first: bool)
      requires Valid()
      modifies this, known
      ensures Valid() && known == old(known) && done && (first <==> !old(done))
      ensures View() == old(View()).Finish()
    {
      StepKeeps(View(), Event.Finish);
      if done {
        return false;
      }
      AllOpen();
      done := true;
      assert View() == old(View()).(done := true);
      FanoutLocked(DONE);
      CloseAll();
      return true;
    }

    /** Closes the channel of every subscriber and forgets them. */
    method CloseAll()
      requires subs <= known && forall s | s in subs :: !s.closed
      modifies this`subs, subs
      ensures View() == old(View()).(subs := {},
        chans := (map s | s in old(View()).chans ::
                    if s in old(subs) then old(View()).chans[s].Close() else old(View()).chans[s]))
    {
      CloseEach();
      subs := {};
    }

    method CloseEach()
      requires forall s | s in subs :: !s.closed
      modifies subs
      ensures forall s | s in subs :: s.View() == old(s.View()).Close()
    {
      var rest := subs;
      while rest != {}
        invariant rest <= subs
        invariant forall s | s in rest :: s.View() == old(s.View())
        invariant forall s | s in subs - rest :: s.View() == old(s.View()).Close()
        decreases |rest|
      {
        var s :| s in rest;
        s.Close();
        rest := rest - {s};
      }
    }

    /** Done as a whole, when nothing comes between its two locks. */
    method Done()
      requires Valid()
      modifies this, known, hub
      ensures Valid() && known == old(known)
      ensures View() == old(View()).Finish()
      ensures hub.rounds == if old(done) then old(hub.rounds) else old(hub.rounds) - {id}
    {
      var first := Finish();
      if first {
        hub.rounds := hub.rounds - {id};
      }
    }

    /** The new subscriber: header, every tick so far, and DONE if there is nothing to wait for. */
    method NewSubscriber(liveBuf: int) returns (s: Subscriber)
      ensures fresh(s) && s.View() == View().NewChannel(liveBuf)
      ensures !done ==> s.cap - |s.queue| >= 16 && s.cap - |s.queue| >= liveBuf
    {
      ChannelOfJoiner(View(), liveBuf);
      var buffer := if liveBuf < 16 then 16 else liveBuf;
      s := new Subscriber(1 + |tks| + buffer);
      if hdr.Some? {
        s.Send(hdr.value);
      }
      s.SendAll(tks);
      if done {
        s.Send(DONE);
        s.Close();
      }
    }

    /** History: s is a channel of this round. */
    ghost method Register(s: Subscriber)
      requires s !in known
      modifies this`known
      ensures known == old(known) + {s} && Chans() == old(Chans())[s := s.View()]
    {
      known := known + {s};
    }

    method Subscribe(liveBuf: int) returns (s: Subscriber)
      requires Valid()
      modifies this`subs, this`known
      ensures Valid() && fresh(s) && known == old(known) + {s}
      ensures View() == old(View()).Subscribe(s, liveBuf)
      ensures s.queue == s.sent == View().Log() && (s in subs <==> !done) && (s.closed <==> done)
      ensures !done ==> s.cap - |s.queue| >= 16 && s.cap - |s.queue| >= liveBuf
    {
      ChannelOfJoiner(View(), liveBuf);
      s := NewSubscriber(liveBuf);
      assert View() == old(View());
      SubscribeKeeps(View(), s, liveBuf);
      Register(s);
      if !done {
        subs := subs + {s};
      }
    }

    method Unsubscribe(s: Subscriber)
      requires Valid() && s in known
      modifies this`subs, s
      ensures Valid() && s.closed && s.queue == old(s.queue) && s.sent == old(s.sent)
      ensures subs == old(subs) - {s}
      ensures View() == old(View()).Unsubscribe(s)
    {
      StepKeeps(View(), Event.Unsubscribe(s));
      if s in subs {
        assert View().ChanOk(s);
        subs := subs - {s};
        s.Close();
      }
      assert View().chans == old(View()).Unsubscribe(s).chans;
    }
  }

  datatype HubError = RoundExists(id: Uint64)

  class Hub {
    var rounds: map<Uint64, Round>

    constructor ()
      ensures rounds == map[]
    {
      rounds := map[];
    }

    method Open(id: Uint64) returns (r: Result<Round, HubError>)
      modifies this
      ensures id in old(rounds) ==> r == Err(RoundExists(id)) && rounds == old(rounds)
      ensures id !in old(rounds) ==>
        && r.Ok? && fresh(r.value) && r.value.id == id && r.value.hub == this
        && r.value.Valid() && r.value.View() == LiveRounds.Fresh()
        && rounds == old(rounds)[id := r.value]
    {
      if id in rounds {
        return Err(RoundExists(id));
      }
      var round := new Round(id, this);
      rounds := rounds[id := round];
      return Ok(round);
    }

    method Lookup(id: Uint64) returns (r: Option<Round>)
      ensures r == if id in rounds then Some(rounds[id]) else None
    {
      if id in rounds {
        return Some(rounds[id]);
      }
      return None;
    }

    /** ActiveRounds: every live id once, in no particular order. */
    method ActiveRounds() returns (ids: seq<Uint64>)
      ensures multiset(ids) == multiset(rounds.Keys)
    {
      ids := [];
      var rest := rounds.Keys;
      while rest != {}
        invariant rest <= rounds.Keys
        invariant multiset(ids) + multiset(rest) == multiset(rounds.Keys)
        decreases |rest|
      {
        var id :| id in rest;
        ids := ids + [id];
        rest := rest - {id};
      }
    }
  }
}
