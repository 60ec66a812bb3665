/**
 The track rotation of the game server (server/rgs/manager.go): selectTrack avoids the previous track,
 GenerateRoundSpec and RunNextRound thread `prevTrack` through it.

 FNV-1a is a parameter `h`; what matters of it is only that any candidate may come out.
 */
module Tracks {
  import opened Common

  type Hash64 = nat -> Uint64

  /** The track chosen when the hash points at entry c of the pool. */
  function SelectAt(pool: seq<Byte>, c: nat, prev: int): Byte
    requires c < |pool|
  {
    if |pool| == 1 then pool[0]
    else if pool[c] == prev then pool[(c + 1) % |pool|]
    else pool[c]
  }

  function SelectTrack(pool: seq<Byte>, h: Hash64, roundId: nat, prev: int): Byte
    requires pool != []
  {
    SelectAt(pool, h(roundId) % |pool|, prev)
  }

  /**
   selectTrack takes the entry that the hash points at, unless that is the previous track: then the entry behind it,
   if there is another one.  With different cyclic neighbours it never takes the previous track.
   */
  lemma SelectTrackIs(pool: seq<Byte>, h: Hash64, roundId: nat, prev: int)
    requires pool != []
    ensures var c, track := h(roundId) % |pool|, SelectTrack(pool, h, roundId, prev);
      && (pool[c] != prev || |pool| == 1 ==> track == pool[c])
      && (pool[c] == prev && |pool| > 1 ==> track == pool[if c + 1 == |pool| then 0 else c + 1])
      && (NeighboursDiffer(pool) ==> track != prev)
  {
    var c := h(roundId) % |pool|;
    if c + 1 == |pool| {
      assert (c + 1) % |pool| == 0;
    } else {
      SmallMod(c + 1, |pool|);
    }
    if NeighboursDiffer(pool) {
      assert DiffersFromNext(pool, c);
    }
  }

  lemma SmallMod(c: nat, n: nat)
    requires c < n
    ensures c % n == c
  {
  }

  /** No entry of the pool equals the next one, cyclically. */
  ghost predicate NeighboursDiffer(pool: seq<Byte>) {
    |pool| >= 2 && forall c: nat | c < |pool| :: DiffersFromNext(pool, c)
  }

  predicate DiffersFromNext(pool: seq<Byte>, c: nat)
    requires c < |pool|
  {
    pool[c] != pool[(c + 1) % |pool|]
  }

  /** Whatever the hash, the previous track is avoided: exactly for pools whose cyclic neighbours differ. */
  lemma AvoidsPreviousIff(pool: seq<Byte>)
    requires pool != []
    ensures (forall c: nat, prev: int | c < |pool| :: SelectAt(pool, c, prev) != prev) <==> NeighboursDiffer(pool)
  {
    if forall c: nat, prev: int | c < |pool| :: SelectAt(pool, c, prev) != prev {
      assert SelectAt(pool, 0, pool[0]) != pool[0];
      forall c: nat | c < |pool| ensures DiffersFromNext(pool, c) {
        assert SelectAt(pool, c, pool[c]) != pool[c];
      }
    }
    if NeighboursDiffer(pool) {
      forall c: nat, prev: int | c < |pool| ensures SelectAt(pool, c, prev) != prev {
        assert DiffersFromNext(pool, c);
      }
    }
  }

  /**
   Whatever the hash, the track chosen differs from a given track of the pool: exactly when that very track is
   the previous one.
   */
  lemma AvoidsIff(pool: seq<Byte>, last: Byte, prev: int)
    requires NeighboursDiffer(pool) && last in pool
    ensures (forall c: nat | c < |pool| :: SelectAt(pool, c, prev) != last) <==> prev == last
  {
    AvoidsPreviousIff(pool);
    var c :| 0 <= c < |pool| && pool[c] == last;
    assert prev != last ==> SelectAt(pool, c, prev) == last;
  }

  // ---------------------------------------------------------------------------
  // Histories
  // ---------------------------------------------------------------------------

  /** prevTrack, the tracks of the queued specifications, and the tracks of the rounds run so far. */
  datatype Rotation = Rotation(prev: int, queue: seq<Byte>, ran: seq<Byte>) {

    /** The tracks raced and, behind them, those next in turn. */
    function Row(): seq<Byte> { ran + queue }
  }

  /** `GenerateRoundSpec`, or `RunNextRound` with its success; `hash` is that of the round id drawn from the clock. */
  datatype Event = Generate(hash: nat) | RunRound(hash: nat, ok: bool)

  const START := Rotation(-1, [], [])

  function Chosen(pool: seq<Byte>, s: Rotation, e: Event): Byte
    requires pool != []
  {
    SelectAt(pool, e.hash % |pool|, s.prev)
  }

  function Step(pool: seq<Byte>, s: Rotation, e: Event): Rotation
    requires pool != []
  {
    match e
    case Generate(_) =>
      var t := Chosen(pool, s, e);
      s.(prev := t, queue := s.queue + [t])
    case RunRound(_, ok) =>
      var t := if s.queue != [] then s.queue[0] else Chosen(pool, s, e);
      var rest := if s.queue != [] then s.queue[1..] else [];
      if ok then Rotation(t, rest, s.ran + [t]) else s.(queue := rest)
  }

  function After(pool: seq<Byte>, events: seq<Event>): Rotation
    requires pool != []
  {
    if events == [] then START else Step(pool, After(pool, events[..|events| - 1]), events[|events| - 1])
  }

  ghost predicate NoRepeat(row: seq<Byte>) {
    forall i | 0 < i < |row| :: row[i - 1] != row[i]
  }

  predicate Ends(row: seq<Byte>, t: int) { row != [] ==> row[|row| - 1] == t }

  // ---------------------------------------------------------------------------
  // When a call is safe
  // ---------------------------------------------------------------------------

  /**
   A new track is safe if prevTrack is the last one in turn; a failed round is safe unless its track was all
   that lay between the last round raced and one on the same track.
   */
  predicate Guard(s: Rotation, e: Event) {
    match e
    case Generate(_) => Ends(s.Row(), s.prev)
    case RunRound(_, ok) =>
      if s.queue == [] then ok ==> Ends(s.Row(), s.prev)
      else ok || |s.queue| == 1 || s.ran == [] || s.ran[|s.ran| - 1] != s.queue[1]
  }

  /** The same call with any hash. */
  predicate SameCall(a: Event, b: Event) {
    a == b.(hash := a.hash)
  }

  ghost predicate FromPool(pool: seq<Byte>, row: seq<Byte>) {
    forall t | t in row :: t in pool
  }

  /** A call keeps the row free of repeats, whatever its hash, if and only if its guard holds. */
  lemma SafeIff(pool: seq<Byte>, s: Rotation, e: Event)
    requires NeighboursDiffer(pool) && FromPool(pool, s.Row()) && NoRepeat(s.Row())
    ensures (forall e' | SameCall(e, e') :: NoRepeat(Step(pool, s, e').Row())) <==> Guard(s, e)
  {
    if Chooses(s, e) {
      ChoiceSafeIff(pool, s, e);
    } else {
      QueueSafeIff(pool, s, e);
    }
  }

  /** A call that chooses a track appends it to the row. */
  lemma RowGrows(pool: seq<Byte>, s: Rotation, e: Event)
    requires pool != [] && Chooses(s, e)
    ensures Step(pool, s, e).Row() == s.Row() + [Chosen(pool, s, e)]
  {
  }

  lemma AppendSafeIff(row: seq<Byte>, t: Byte)
    requires NoRepeat(row)
    ensures NoRepeat(row + [t]) <==> row == [] || row[|row| - 1] != t
  {
    if NoRepeat(row + [t]) && row != [] {
      assert (row + [t])[|row| - 1] != (row + [t])[|row|];
    }
  }

  /** Does this call choose a track? */
  predicate Chooses(s: Rotation, e: Event) { e.Generate? || (s.queue == [] && e.ok) }

  lemma GuardedChoiceIsSafe(pool: seq<Byte>, s: Rotation, e: Event)
    requires NeighboursDiffer(pool) && FromPool(pool, s.Row()) && NoRepeat(s.Row()) && Chooses(s, e) && Guard(s, e)
    ensures NoRepeat(Step(pool, s, e).Row())
  {
    var row := s.Row();
    RowGrows(pool, s, e);
    AppendSafeIff(row, Chosen(pool, s, e));
    if row != [] {
      AvoidsIff(pool, row[|row| - 1], s.prev);
    }
  }

  lemma UnguardedChoice(pool: seq<Byte>, s: Rotation, e: Event) returns (worst: Event)
    requires NeighboursDiffer(pool) && FromPool(pool, s.Row()) && NoRepeat(s.Row()) && Chooses(s, e) && !Guard(s, e)
    ensures SameCall(e, worst) && !NoRepeat(Step(pool, s, worst).Row())
  {
    var row := s.Row();
    var last := row[|row| - 1];
    AvoidsIff(pool, last, s.prev);
    var c: nat :| c < |pool| && SelectAt(pool, c, s.prev) == last;
    worst := e.(hash := c);
    SmallMod(c, |pool|);
    RowGrows(pool, s, worst);
    AppendSafeIff(row, last);
  }

  lemma ChoiceSafeIff(pool: seq<Byte>, s: Rotation, e: Event)
    requires NeighboursDiffer(pool) && FromPool(pool, s.Row()) && NoRepeat(s.Row()) && Chooses(s, e)
    ensures (forall e' | SameCall(e, e') :: NoRepeat(Step(pool, s, e').Row())) <==> Guard(s, e)
  {
    if Guard(s, e) {
      forall e' | SameCall(e, e') ensures NoRepeat(Step(pool, s, e').Row()) {
        GuardedChoiceIsSafe(pool, s, e');
      }
    } else {
      var worst := UnguardedChoice(pool, s, e);
    }
  }

  /** A call that chooses no track drops the head of the queue, or moves it. */
  lemma QueueSafeIff(pool: seq<Byte>, s: Rotation, e: Event)
    requires pool != [] && NoRepeat(s.Row()) && !Chooses(s, e)
    ensures (forall e' | SameCall(e, e') :: NoRepeat(Step(pool, s, e').Row())) <==> Guard(s, e)
  {
    assert SameCall(e, e);
    assert forall e' | SameCall(e, e') :: Step(pool, s, e') == Step(pool, s, e);
    if s.queue == [] {
    } else if e.ok {
      assert s.ran + [s.queue[0]] + s.queue[1..] == s.Row();
    } else {
      DropSafeIff(s.ran, s.queue);
    }
  }

  lemma DropSafeIff(ran: seq<Byte>, queue: seq<Byte>)
    requires queue != [] && NoRepeat(ran + queue)
    ensures NoRepeat(ran + queue[1..]) <==> |queue| == 1 || ran == [] || ran[|ran| - 1] != queue[1]
  {
    var row, rest := ran + queue, ran + queue[1..];
    assert forall i | 0 <= i < |ran| :: rest[i] == row[i];
    assert forall i | |ran| <= i < |rest| :: rest[i] == row[i + 1];
    if |queue| > 1 && ran != [] {
      assert rest[|ran| - 1] == ran[|ran| - 1] && rest[|ran|] == queue[1];
    }
    if NoRepeat(rest) {
      assert |queue| > 1 && ran != [] ==> rest[|ran| - 1] != rest[|ran|];
    }
    forall i | 0 < i < |rest| && i != |ran| ensures rest[i - 1] != rest[i] {
      if i > |ran| {
        assert row[i] != row[i + 1];
      } else {
        assert row[i - 1] != row[i];
      }
    }
  }

  // ---------------------------------------------------------------------------
  // When a history is safe
  // ---------------------------------------------------------------------------

  /** The same calls, each with any hash. */
  ghost predicate SameCalls(a: seq<Event>, b: seq<Event>) {
    |a| == |b| && forall i | 0 <= i < |a| :: SameCall(a[i], b[i])
  }

  /** At no time does the row repeat a track. */
  ghost predicate NeverRepeats(pool: seq<Byte>, events: seq<Event>)
    requires pool != []
  {
    NoRepeat(After(pool, events).Row()) && (events != [] ==> NeverRepeats(pool, events[..|events| - 1]))
  }

  /** Every call comes when it is safe. */
  ghost predicate Guarded(pool: seq<Byte>, events: seq<Event>)
    requires pool != []
  {
    events != [] ==>
      Guarded(pool, events[..|events| - 1]) && Guard(After(pool, events[..|events| - 1]), events[|events| - 1])
  }

  lemma {:induction false} RowFromPool(pool: seq<Byte>, events: seq<Event>)
    requires pool != []
    ensures FromPool(pool, After(pool, events).Row())
  {
    if events != [] {
      RowFromPool(pool, events[..|events| - 1]);
      var s, e := After(pool, events[..|events| - 1]), events[|events| - 1];
      var s' := Step(pool, s, e);
      assert forall t | t in s'.Row() :: t in s.Row() || t == Chosen(pool, s, e);
    }
  }

  /** With its guards kept, a history never repeats a track. */
  lemma {:induction false} GuardedNeverRepeats(pool: seq<Byte>, events: seq<Event>)
    requires NeighboursDiffer(pool) && Guarded(pool, events)
    ensures NeverRepeats(pool, events)
  {
    if events != [] {
      var before, e := events[..|events| - 1], events[|events| - 1];
      GuardedNeverRepeats(pool, before);
      RowFromPool(pool, before);
      SafeIff(pool, After(pool, before), e);
      assert SameCall(e, e);
    }
  }

  /** The history up to its first unsafe call, which is given a hash that repeats a track. */
  lemma {:induction false} UnguardedMayRepeat(pool: seq<Byte>, events: seq<Event>) returns (worst: seq<Event>)
    requires NeighboursDiffer(pool) && !Guarded(pool, events)
    ensures SameCalls(events, worst) && !NeverRepeats(pool, worst)
  {
    var before, e := events[..|events| - 1], events[|events| - 1];
    assert events == before + [e];
    if !Guarded(pool, before) {
      var w := UnguardedMayRepeat(pool, before);
      worst := w + [e];
      assert worst[..|worst| - 1] == w;
    } else {
      GuardedNeverRepeats(pool, before);
      RowFromPool(pool, before);
      SafeIff(pool, After(pool, before), e);
      var e' :| SameCall(e, e') && !NoRepeat(Step(pool, After(pool, before), e').Row());
      worst := before + [e'];
      assert worst[..|worst| - 1] == before;
    }
  }

  /**
   "No track twice in a row", exactly: a sequence of calls keeps the promise whatever the round ids hash to,
   if and only if, whatever they hash to, every call comes when it is safe.
   */
  lemma NeverRepeatsIff(pool: seq<Byte>, events: seq<Event>)
    requires NeighboursDiffer(pool)
    ensures (forall ev | SameCalls(events, ev) :: NeverRepeats(pool, ev))
       <==> (forall ev | SameCalls(events, ev) :: Guarded(pool, ev))
  {
    forall ev | SameCalls(events, ev) && Guarded(pool, ev) ensures NeverRepeats(pool, ev) {
      GuardedNeverRepeats(pool, ev);
    }
    if ev :| SameCalls(events, ev) && !Guarded(pool, ev) {
      var worst := UnguardedMayRepeat(pool, ev);
      assert SameCalls(events, worst);
    }
  }

  /** The row is what gets raced: as many successful rounds as are queued race it to the end. */
  lemma {:induction false} RowIsRaced(pool: seq<Byte>, events: seq<Event>) returns (rounds: seq<Event>)
    requires pool != []
    ensures forall i | 0 <= i < |rounds| :: rounds[i] == RunRound(0, true)
    ensures After(pool, events + rounds).ran == After(pool, events).Row()
    decreases |After(pool, events).queue|
  {
    var s := After(pool, events);
    if s.queue == [] {
      rounds := [];
      assert events + [] == events && s.Row() == s.ran;
    } else {
      var e := RunRound(0, true);
      assert (events + [e])[..|events|] == events;
      var rest := RowIsRaced(pool, events + [e]);
      rounds := [e] + rest;
      assert events + rounds == events + [e] + rest;
      assert s.ran + [s.queue[0]] + s.queue[1..] == s.Row();
    }
  }

  // ---------------------------------------------------------------------------
  // Safe and unsafe ways to call
  // ---------------------------------------------------------------------------

  /** Specifications are minted one at a time, and every round succeeds. */
  ghost predicate OneAtATime(pool: seq<Byte>, events: seq<Event>)
    requires pool != []
  {
    events == [] ||
    (var before := events[..|events| - 1]; var last := events[|events| - 1];
     && OneAtATime(pool, before)
     && (last.Generate? ==> After(pool, before).queue == [])
     && (last.RunRound? ==> last.ok))
  }

  /** With at most one queued specification and no failed round, no track is raced twice in a row. */
  lemma {:induction false} NeverTwiceInARow(pool: seq<Byte>, events: seq<Event>)
    requires NeighboursDiffer(pool) && OneAtATime(pool, events)
    ensures Guarded(pool, events) && NoRepeat(After(pool, events).ran)
    ensures var s := After(pool, events); |s.queue| <= 1 && Ends(s.Row(), s.prev)
  {
    if events != [] {
      NeverTwiceInARow(pool, events[..|events| - 1]);
    }
    GuardedNeverRepeats(pool, events);
    RanFirst(After(pool, events));
  }

  lemma RanFirst(s: Rotation)
    requires NoRepeat(s.Row())
    ensures NoRepeat(s.ran)
  {
    assert forall i | 0 <= i < |s.ran| :: s.Row()[i] == s.ran[i];
  }

  lemma {:induction false} MintedAhead(pool: seq<Byte>, minted: seq<Event>)
    requires NeighboursDiffer(pool) && forall i | 0 <= i < |minted| :: minted[i].Generate?
    ensures Guarded(pool, minted)
    ensures var s := After(pool, minted); |s.queue| == |minted| && s.ran == [] && Ends(s.Row(), s.prev)
  {
    if minted != [] {
      MintedAhead(pool, minted[..|minted| - 1]);
    }
  }

  /** So is any number of specifications minted before the first round. */
  lemma {:induction false} MintedAheadNeverRepeats(pool: seq<Byte>, minted: seq<Event>, rounds: seq<Event>)
    requires NeighboursDiffer(pool) && |rounds| <= |minted|
    requires forall i | 0 <= i < |minted| :: minted[i].Generate?
    requires forall i | 0 <= i < |rounds| :: rounds[i].RunRound? && rounds[i].ok
    ensures Guarded(pool, minted + rounds) && NeverRepeats(pool, minted + rounds)
    ensures |After(pool, minted + rounds).queue| == |minted| - |rounds|
    decreases |rounds|
  {
    var events := minted + rounds;
    if rounds == [] {
      assert events == minted;
      MintedAhead(pool, minted);
    } else {
      MintedAheadNeverRepeats(pool, minted, rounds[..|rounds| - 1]);
      assert events[..|events| - 1] == minted + rounds[..|rounds| - 1];
    }
    GuardedNeverRepeats(pool, events);
  }

  const TWO_TRACKS: seq<Byte> := [0, 1]

  /** The state after appending one event. */
  lemma Extend(events: seq<Event>, e: Event, s: Rotation)
    requires After(TWO_TRACKS, events) == s
    ensures After(TWO_TRACKS, events + [e]) == Step(TWO_TRACKS, s, e)
  {
    assert (events + [e])[..|events|] == events;
  }

  /**
   With two queued specifications the promise fails: the round run first writes its older track back
   into prevTrack, so the next specification may repeat the one still queued.
   */
  lemma TwoQueuedSpecsRepeat()
    ensures NeighboursDiffer(TWO_TRACKS)
    ensures
      var g := Generate(0); var r := RunRound(0, true);
      After(TWO_TRACKS, [] + [g] + [g] + [r] + [g] + [r] + [r]).ran == [0, 1, 1]
  {
    var g, r := Generate(0), RunRound(0, true);
    TwoQueued();
    Extend([] + [g] + [g] + [r], g, Rotation(0, [1], [0]));
    Extend([] + [g] + [g] + [r] + [g], r, Rotation(1, [1, 1], [0]));
    Extend([] + [g] + [g] + [r] + [g] + [r], r, Rotation(1, [1], [0, 1]));
  }

  lemma TwoQueued()
    ensures
      var g := Generate(0); var r := RunRound(0, true);
      After(TWO_TRACKS, [] + [g] + [g] + [r]) == Rotation(0, [1], [0])
  {
    var g, r := Generate(0), RunRound(0, true);
    Extend([], g, START);
    Extend([] + [g], g, Rotation(0, [0], []));
    Extend([] + [g] + [g], r, Rotation(1, [0, 1], []));
  }

  /** One failed round is enough as well: its specification is gone, but prevTrack still remembers it. */
  lemma FailedRoundRepeats()
    ensures
      var g := Generate(0); var r := RunRound(0, true);
      After(TWO_TRACKS, [] + [r] + [g] + [RunRound(0, false)] + [g] + [r]).ran == [0, 0]
  {
    var g, r, f := Generate(0), RunRound(0, true), RunRound(0, false);
    Extend([], r, START);
    Extend([] + [r], g, Rotation(0, [], [0]));
    Extend([] + [r] + [g], f, Rotation(1, [1], [0]));
    Extend([] + [r] + [g] + [f], g, Rotation(1, [], [0]));
    Extend([] + [r] + [g] + [f] + [g], r, Rotation(0, [0], [0]));
  }
}
