/**
 The track rotation under overlapping calls (server/rgs/manager.go): GenerateRoundSpec and RunNextRound in their
 separate lock-held sections, any number of calls at a time.

 A round counts as raced from the moment its track is fixed, in that order; a failed one no longer counts.
 A section whose call is not at that point changes nothing.
 */
module TrackSections {
  import opened Common
  import opened Tracks

  /** A round that has started, by its call. */
  datatype Start = Start(run: nat, track: Byte)

  datatype Section =
    | Draw(call: nat, hash: nat)      // GenerateRoundSpec: choose a track and write prevTrack
    | Publish(call: nat)              // GenerateRoundSpec: queue the specification
    | Pop(call: nat)                  // RunNextRound: take the oldest specification, or read prevTrack
    | DrawFresh(call: nat, hash: nat) // RunNextRound: choose a track against the prevTrack read before
    | Finish(call: nat, ok: bool)     // RunNextRound: write prevTrack, or return an error

  datatype Overlap = Overlap(
    prev: int,
    drawn: map<nat, Byte>,
    queue: seq<Byte>,
    waiting: map<nat, int>,
    started: seq<Start>,
    racing: set<nat>) {

    /** The tracks raced and, behind them, those next in turn. */
    function Row(): seq<Byte> { TracksOf(started) + queue }

    /** The state as the calls see it that nobody interrupts. */
    function Alone(): Rotation { Rotation(prev, queue, TracksOf(started)) }
  }

  const NOBODY := Overlap(-1, map[], [], map[], [], {})

  function TracksOf(started: seq<Start>): (r: seq<Byte>)
    ensures |r| == |started| && forall i | 0 <= i < |r| :: r[i] == started[i].track
  {
    seq(|started|, i requires 0 <= i < |started| => started[i].track)
  }

  /** Where the round of this call stands among the started ones; behind them if it is not there. */
  function PlaceOf(started: seq<Start>, call: nat): (i: nat)
    ensures i <= |started|
    ensures i < |started| ==> started[i].run == call
  {
    if started == [] then 0
    else if started[0].run == call then 0
    else 1 + PlaceOf(started[1..], call)
  }

  function Without<T>(s: seq<T>, i: nat): seq<T>
    requires i < |s|
  {
    s[..i] + s[i + 1..]
  }

  function Step(pool: seq<Byte>, s: Overlap, a: Section): Overlap
    requires pool != []
  {
    match a
    case Draw(g, hash) =>
      if g in s.drawn then s
      else
        var t := SelectAt(pool, hash % |pool|, s.prev);
        s.(prev := t, drawn := s.drawn[g := t])
    case Publish(g) =>
      if g !in s.drawn then s else s.(queue := s.queue + [s.drawn[g]], drawn := s.drawn - {g})
    case Pop(r) =>
      if r in s.waiting || PlaceOf(s.started, r) < |s.started| then s
      else if s.queue == [] then s.(waiting := s.waiting[r := s.prev])
      else s.(queue := s.queue[1..], started := s.started + [Start(r, s.queue[0])], racing := s.racing + {r})
    case DrawFresh(r, hash) =>
      if r !in s.waiting then s
      else
        var t := SelectAt(pool, hash % |pool|, s.waiting[r]);
        s.(waiting := s.waiting - {r}, started := s.started + [Start(r, t)], racing := s.racing + {r})
    case Finish(r, ok) =>
      var i := PlaceOf(s.started, r);
      if r !in s.racing || i == |s.started| then s
      else if ok then s.(prev := s.started[i].track, racing := s.racing - {r})
      else s.(started := Without(s.started, i), racing := s.racing - {r})
  }

  function After(pool: seq<Byte>, sections: seq<Section>): Overlap
    requires pool != []
  {
    if sections == [] then NOBODY
    else Step(pool, After(pool, sections[..|sections| - 1]), sections[|sections| - 1])
  }

  // ---------------------------------------------------------------------------
  // Calls that do not overlap
  // ---------------------------------------------------------------------------

  lemma GenerateAlone(pool: seq<Byte>, s: Overlap, g: nat, hash: nat)
    requires pool != [] && g !in s.drawn
    ensures var t := Step(pool, Step(pool, s, Draw(g, hash)), Publish(g));
      t.Alone() == Tracks.Step(pool, s.Alone(), Generate(hash)) && t.drawn == s.drawn
  {
  }

  lemma {:induction false} PlaceOfLast(started: seq<Start>, x: Start)
    requires PlaceOf(started, x.run) == |started|
    ensures PlaceOf(started + [x], x.run) == |started|
  {
    if started != [] {
      assert (started + [x])[1..] == started[1..] + [x];
      PlaceOfLast(started[1..], x);
    }
  }

  lemma StartAlone(pool: seq<Byte>, s: Overlap, r: nat, hash: nat)
    requires pool != [] && r !in s.waiting && PlaceOf(s.started, r) == |s.started|
    ensures
      var t := if s.queue != [] then s.queue[0] else SelectAt(pool, hash % |pool|, s.prev);
      var begun := Step(pool, Step(pool, s, Pop(r)), DrawFresh(r, hash));
      && begun.started == s.started + [Start(r, t)] && begun.prev == s.prev && r in begun.racing
      && begun.queue == if s.queue != [] then s.queue[1..] else []
  {
  }

  lemma FinishAlone(pool: seq<Byte>, s: Overlap, before: seq<Start>, x: Start, ok: bool)
    requires pool != [] && s.started == before + [x] && PlaceOf(before, x.run) == |before| && x.run in s.racing
    ensures var t := Step(pool, s, Finish(x.run, ok));
      && t.queue == s.queue && t.prev == (if ok then x.track else s.prev)
      && t.started == if ok then s.started else before
  {
    PlaceOfLast(before, x);
    assert Without(s.started, |before|) == before;
  }

  /** A run without interruption; the section that draws a fresh track does nothing if there was a specification. */
  lemma RunAlone(pool: seq<Byte>, s: Overlap, r: nat, hash: nat, ok: bool)
    requires pool != [] && r !in s.waiting && PlaceOf(s.started, r) == |s.started|
    ensures var begun := Step(pool, Step(pool, s, Pop(r)), DrawFresh(r, hash));
      Step(pool, begun, Finish(r, ok)).Alone() == Tracks.Step(pool, s.Alone(), RunRound(hash, ok))
  {
    var begun := Step(pool, Step(pool, s, Pop(r)), DrawFresh(r, hash));
    StartAlone(pool, s, r, hash);
    FinishAlone(pool, begun, s.started, begun.started[|s.started|], ok);
  }

  // ---------------------------------------------------------------------------
  // When a section is safe
  // ---------------------------------------------------------------------------

  predicate Guard(s: Overlap, a: Section) {
    match a
    case Publish(g) => g in s.drawn && s.Row() != [] ==> s.Row()[|s.Row()| - 1] != s.drawn[g]
    case DrawFresh(r, _) =>
      r in s.waiting ==>
        && (s.started != [] ==> s.started[|s.started| - 1].track == s.waiting[r])
        && (s.queue != [] ==> s.queue[0] == s.waiting[r])
    case Finish(r, ok) =>
      var i := PlaceOf(s.started, r);
      !ok && r in s.racing && 0 < i < |s.started| && i + 1 < |s.Row()| ==> s.Row()[i - 1] != s.Row()[i + 1]
    case _ => true
  }

  /** The same section with any hash. */
  predicate SameSection(a: Section, b: Section) {
    match a
    case Draw(g, _) => b.Draw? && b.call == g
    case DrawFresh(r, _) => b.DrawFresh? && b.call == r
    case _ => a == b
  }

  ghost predicate Sound(pool: seq<Byte>, s: Overlap) {
    FromPool(pool, s.Row()) && forall g | g in s.drawn :: s.drawn[g] in pool
  }

  lemma InsertIff(a: seq<Byte>, t: Byte, b: seq<Byte>)
    requires NoRepeat(a + b)
    ensures NoRepeat(a + [t] + b) <==> (a == [] || a[|a| - 1] != t) && (b == [] || t != b[0])
  {
    var row, old_ := a + [t] + b, a + b;
    assert forall i | 0 <= i < |a| :: row[i] == old_[i] == a[i];
    assert row[|a|] == t;
    assert forall i | |a| < i < |row| :: row[i] == old_[i - 1] == b[i - |a| - 1];
    if (a == [] || a[|a| - 1] != t) && (b == [] || t != b[0]) {
      forall i | 0 < i < |row| ensures row[i - 1] != row[i] {
        if i < |a| {
          assert old_[i - 1] != old_[i];
        } else if i > |a| + 1 {
          assert old_[i - 2] != old_[i - 1];
        }
      }
    }
    if NoRepeat(row) {
      assert a != [] ==> row[|a| - 1] != row[|a|];
      assert b != [] ==> row[|a|] != row[|a| + 1];
    }
  }

  lemma RemoveIff(row: seq<Byte>, i: nat)
    requires NoRepeat(row) && i < |row|
    ensures NoRepeat(Without(row, i)) <==> (0 < i && i + 1 < |row| ==> row[i - 1] != row[i + 1])
  {
    var rest := Without(row, i);
    assert forall k | 0 <= k < i :: rest[k] == row[k];
    assert forall k | i <= k < |rest| :: rest[k] == row[k + 1];
    if NoRepeat(rest) && 0 < i && i + 1 < |row| {
      assert rest[i - 1] != rest[i];
    }
    if 0 < i && i + 1 < |row| ==> row[i - 1] != row[i + 1] {
      forall k | 0 < k < |rest| ensures rest[k - 1] != rest[k] {
        if k < i {
          assert row[k - 1] != row[k];
        } else if k > i {
          assert row[k] != row[k + 1];
        }
      }
    }
  }

  lemma DrawFreshRow(pool: seq<Byte>, s: Overlap, r: nat, hash: nat)
    requires pool != [] && r in s.waiting
    ensures Step(pool, s, DrawFresh(r, hash)).Row()
      == TracksOf(s.started) + [SelectAt(pool, hash % |pool|, s.waiting[r])] + s.queue
  {
  }

  /** A guarded section keeps the row free of repeats. */
  lemma GuardedIsSafe(pool: seq<Byte>, s: Overlap, a: Section)
    requires NeighboursDiffer(pool) && Sound(pool, s) && NoRepeat(s.Row()) && Guard(s, a)
    ensures NoRepeat(Step(pool, s, a).Row())
  {
    match a
    case Publish(g) => PublishIff(pool, s, g);
    case Pop(r) => PopKeepsRow(pool, s, r);
    case DrawFresh(r, hash) =>
      if r in s.waiting {
        FreshIsSafe(pool, s, r, hash);
      }
    case Finish(r, ok) => FinishIff(pool, s, r, ok);
    case Draw(_, _) =>
  }

  lemma PublishIff(pool: seq<Byte>, s: Overlap, g: nat)
    requires pool != [] && NoRepeat(s.Row())
    ensures NoRepeat(Step(pool, s, Publish(g)).Row()) <==> Guard(s, Publish(g))
  {
    if g in s.drawn {
      assert Step(pool, s, Publish(g)).Row() == s.Row() + [s.drawn[g]];
      AppendSafeIff(s.Row(), s.drawn[g]);
    }
  }

  lemma PopKeepsRow(pool: seq<Byte>, s: Overlap, r: nat)
    requires pool != []
    ensures Step(pool, s, Pop(r)).Row() == s.Row()
  {
  }

  lemma FinishIff(pool: seq<Byte>, s: Overlap, r: nat, ok: bool)
    requires pool != [] && NoRepeat(s.Row())
    ensures NoRepeat(Step(pool, s, Finish(r, ok)).Row()) <==> Guard(s, Finish(r, ok))
  {
    var i := PlaceOf(s.started, r);
    if !ok && r in s.racing && i < |s.started| {
      assert Step(pool, s, Finish(r, ok)).Row() == Without(s.Row(), i);
      RemoveIff(s.Row(), i);
    }
  }

  lemma FreshIsSafe(pool: seq<Byte>, s: Overlap, r: nat, hash: nat)
    requires NeighboursDiffer(pool) && Sound(pool, s) && NoRepeat(s.Row()) && r in s.waiting
    requires Guard(s, DrawFresh(r, hash))
    ensures NoRepeat(Step(pool, s, DrawFresh(r, hash)).Row())
  {
    var raced := TracksOf(s.started);
    DrawFreshRow(pool, s, r, hash);
    InsertIff(raced, SelectAt(pool, hash % |pool|, s.waiting[r]), s.queue);
    if raced != [] {
      Avoided(pool, s, raced[|raced| - 1], s.waiting[r]);
    }
    if s.queue != [] {
      Avoided(pool, s, s.queue[0], s.waiting[r]);
    }
  }

  lemma Avoided(pool: seq<Byte>, s: Overlap, t: Byte, prev: int)
    requires NeighboursDiffer(pool) && Sound(pool, s) && (t in TracksOf(s.started) || t in s.queue)
    ensures t in pool
    ensures (forall c: nat | c < |pool| :: SelectAt(pool, c, prev) != t) <==> prev == t
  {
    assert t in s.Row();
    AvoidsIff(pool, t, prev);
  }

  /** An unguarded one repeats a track, for some hash. */
  lemma UnguardedSection(pool: seq<Byte>, s: Overlap, a: Section) returns (worst: Section)
    requires NeighboursDiffer(pool) && Sound(pool, s) && NoRepeat(s.Row()) && !Guard(s, a)
    ensures SameSection(a, worst) && !NoRepeat(Step(pool, s, worst).Row())
  {
    worst := a;
    match a
    case Publish(g) => PublishIff(pool, s, g);
    case Finish(r, ok) => FinishIff(pool, s, r, ok);
    case DrawFresh(r, _) => worst := UnguardedFresh(pool, s, r);
    case _ =>
  }

  lemma UnguardedFresh(pool: seq<Byte>, s: Overlap, r: nat) returns (worst: Section)
    requires NeighboursDiffer(pool) && Sound(pool, s) && NoRepeat(s.Row()) && !Guard(s, DrawFresh(r, 0))
    ensures SameSection(DrawFresh(r, 0), worst) && !NoRepeat(Step(pool, s, worst).Row())
  {
    var raced, prev := TracksOf(s.started), s.waiting[r];
    var t := if raced != [] && raced[|raced| - 1] != prev then raced[|raced| - 1] else s.queue[0];
    Avoided(pool, s, t, prev);
    var c: nat :| c < |pool| && SelectAt(pool, c, prev) == t;
    SmallMod(c, |pool|);
    worst := DrawFresh(r, c);
    DrawFreshRow(pool, s, r, c);
    InsertIff(raced, t, s.queue);
  }

  /** A section keeps the row free of repeats, whatever its hash, if and only if its guard holds. */
  lemma SectionSafeIff(pool: seq<Byte>, s: Overlap, a: Section)
    requires NeighboursDiffer(pool) && Sound(pool, s) && NoRepeat(s.Row())
    ensures (forall b | SameSection(a, b) :: NoRepeat(Step(pool, s, b).Row())) <==> Guard(s, a)
  {
    if Guard(s, a) {
      forall b | SameSection(a, b) ensures NoRepeat(Step(pool, s, b).Row()) {
        GuardedIsSafe(pool, s, b);
      }
    } else {
      var worst := UnguardedSection(pool, s, a);
    }
  }

  // ---------------------------------------------------------------------------
  // When a history is safe
  // ---------------------------------------------------------------------------

  lemma {:induction false} AlwaysSound(pool: seq<Byte>, sections: seq<Section>)
    requires pool != []
    ensures Sound(pool, After(pool, sections))
  {
    if sections != [] {
      AlwaysSound(pool, sections[..|sections| - 1]);
      SoundStep(pool, After(pool, sections[..|sections| - 1]), sections[|sections| - 1]);
    }
  }

  lemma SoundStep(pool: seq<Byte>, s: Overlap, a: Section)
    requires pool != [] && Sound(pool, s)
    ensures Sound(pool, Step(pool, s, a))
  {
    var s' := Step(pool, s, a);
    match a
    case Pop(r) => PopKeepsRow(pool, s, r);
    case DrawFresh(r, hash) =>
      if r in s.waiting {
        DrawFreshRow(pool, s, r, hash);
        InRow(TracksOf(s.started), [SelectAt(pool, hash % |pool|, s.waiting[r])], s.queue);
      }
    case Publish(g) =>
      if g in s.drawn {
        assert s'.Row() == s.Row() + [s.drawn[g]];
      }
    case Finish(r, ok) =>
      var i := PlaceOf(s.started, r);
      if !ok && r in s.racing && i < |s.started| {
        assert s'.Row() == Without(s.Row(), i);
      }
    case Draw(_, _) =>
  }

  lemma InRow(a: seq<Byte>, m: seq<Byte>, b: seq<Byte>)
    ensures forall t | t in a + m + b :: t in a + b || t in m
  {
  }

  /** The same sections, each with any hash. */
  ghost predicate SameSections(a: seq<Section>, b: seq<Section>) {
    |a| == |b| && forall i | 0 <= i < |a| :: SameSection(a[i], b[i])
  }

  /** At no time does the row repeat a track. */
  ghost predicate NeverRepeats(pool: seq<Byte>, sections: seq<Section>)
    requires pool != []
  {
    NoRepeat(After(pool, sections).Row()) && (sections != [] ==> NeverRepeats(pool, sections[..|sections| - 1]))
  }

  /** Every section comes when it is safe. */
  ghost predicate Guarded(pool: seq<Byte>, sections: seq<Section>)
    requires pool != []
  {
    sections != [] ==>
      && Guarded(pool, sections[..|sections| - 1])
      && Guard(After(pool, sections[..|sections| - 1]), sections[|sections| - 1])
  }

  lemma {:induction false} GuardedNeverRepeats(pool: seq<Byte>, sections: seq<Section>)
    requires NeighboursDiffer(pool) && Guarded(pool, sections)
    ensures NeverRepeats(pool, sections)
  {
    if sections != [] {
      var before := sections[..|sections| - 1];
      GuardedNeverRepeats(pool, before);
      AlwaysSound(pool, before);
      GuardedIsSafe(pool, After(pool, before), sections[|sections| - 1]);
    }
  }

  /** The history up to its first unsafe section, which is given a hash that repeats a track. */
  lemma {:induction false} UnguardedMayRepeat(pool: seq<Byte>, sections: seq<Section>) returns (worst: seq<Section>)
    requires NeighboursDiffer(pool) && !Guarded(pool, sections)
    ensures SameSections(sections, worst) && !NeverRepeats(pool, worst)
  {
    var before, a := sections[..|sections| - 1], sections[|sections| - 1];
    assert sections == before + [a];
    if !Guarded(pool, before) {
      var w := UnguardedMayRepeat(pool, before);
      worst := w + [a];
      assert worst[..|worst| - 1] == w;
    } else {
      GuardedNeverRepeats(pool, before);
      AlwaysSound(pool, before);
      var b := UnguardedSection(pool, After(pool, before), a);
      worst := before + [b];
      assert worst[..|worst| - 1] == before;
    }
  }

  /**
   "No track twice in a row", exactly, under every interleaving: a history of sections keeps the promise whatever
   the round ids hash to, if and only if, whatever they hash to, every section comes when it is safe.
   */
  lemma NeverRepeatsIff(pool: seq<Byte>, sections: seq<Section>)
    requires NeighboursDiffer(pool)
    ensures (forall w | SameSections(sections, w) :: NeverRepeats(pool, w))
       <==> (forall w | SameSections(sections, w) :: Guarded(pool, w))
  {
    forall w | SameSections(sections, w) && Guarded(pool, w) ensures NeverRepeats(pool, w) {
      GuardedNeverRepeats(pool, w);
    }
    if w :| SameSections(sections, w) && !Guarded(pool, w) {
      var worst := UnguardedMayRepeat(pool, w);
      assert SameSections(sections, worst);
    }
  }

  // ---------------------------------------------------------------------------
  // Overlapping rounds
  // ---------------------------------------------------------------------------

  /** The state after one more section. */
  lemma Extend(sections: seq<Section>, a: Section, s: Overlap)
    requires After(TWO_TRACKS, sections) == s
    ensures After(TWO_TRACKS, sections + [a]) == Step(TWO_TRACKS, s, a)
  {
    assert (sections + [a])[..|sections|] == sections;
  }

  /** Specification g is minted with a hash and queued. */
  function Mint(g: nat, hash: nat): seq<Section> { [Draw(g, hash), Publish(g)] }

  lemma ExtendMint(sections: seq<Section>, g: nat, hash: nat, s: Overlap)
    requires After(TWO_TRACKS, sections) == s && g !in s.drawn
    ensures After(TWO_TRACKS, sections + Mint(g, hash)) ==
      var t := SelectAt(TWO_TRACKS, hash % 2, s.prev); s.(prev := t, queue := s.queue + [t])
  {
    Extend(sections, Draw(g, hash), s);
    Extend(sections + [Draw(g, hash)], Publish(g), Step(TWO_TRACKS, s, Draw(g, hash)));
    assert sections + Mint(g, hash) == sections + [Draw(g, hash)] + [Publish(g)];
    assert s.drawn[g := SelectAt(TWO_TRACKS, hash % 2, s.prev)] - {g} == s.drawn;
  }

  /** The first two rounds under way, each with a specification of its own. */
  const TWO_ROUNDS: seq<Section> := [] + Mint(1, 0) + [Pop(1)] + Mint(2, 1) + [Pop(2)]

  lemma TwoRoundsUnderWay()
    ensures After(TWO_TRACKS, TWO_ROUNDS) == Overlap(1, map[], [], map[], [Start(1, 0), Start(2, 1)], {1, 2})
  {
    ExtendMint([], 1, 0, NOBODY);
    Extend([] + Mint(1, 0), Pop(1), Overlap(0, map[], [0], map[], [], {}));
    ExtendMint([] + Mint(1, 0) + [Pop(1)], 2, 1, Overlap(0, map[], [], map[], [Start(1, 0)], {1}));
    Extend([] + Mint(1, 0) + [Pop(1)] + Mint(2, 1), Pop(2), Overlap(1, map[], [1], map[], [Start(1, 0)], {1}));
  }

  /**
   Two rounds that overlap are enough for a repeat, with never more than one specification queued: the older
   round, when it ends, rewinds prevTrack behind the newer one.
   */
  lemma OverlapRepeats()
    ensures After(TWO_TRACKS, TWO_ROUNDS + [Finish(1, true)] + Mint(3, 1)).Row() == [0, 1, 1]
  {
    TwoRoundsUnderWay();
    var s := Overlap(1, map[], [], map[], [Start(1, 0), Start(2, 1)], {1, 2});
    Extend(TWO_ROUNDS, Finish(1, true), s);
    ExtendMint(TWO_ROUNDS + [Finish(1, true)], 3, 1, s.(prev := 0, racing := {2}));
  }
}
