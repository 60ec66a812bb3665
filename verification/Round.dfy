/**
 The life of one round (server/round/round.go): WAITING -> BUY_IN -> RACING -> SETTLE, and the
 audit manifest that a finished round yields (server/rgs/manager.go).

 SHA-256 is a parameter `sha`; instants are integers, 0 being Go's zero time.
 */
module Rounds {
  import opened Common
  import opened Text

  type Hash = Bytes -> Bytes

  datatype Phase = Waiting | BuyIn | Racing | Settle {
    function Rank(): nat {
      match this case Waiting => 0 case BuyIn => 1 case Racing => 2 case Settle => 3
    }
  }

  datatype Error = WrongPhase | RoundFull | EmptyName | TimeGoesBack | ResultMissing

  datatype Participant = Participant(marbleIndex: int, name: string, clientSeed: string)

  datatype RaceResult = RaceResult(winner: int, finishedAt: int)

  datatype RoundState = RoundState(
    id: nat, seed: Bytes, commit: Bytes, phase: Phase, phaseStart: int,
    participants: seq<Participant>, maxMarbles: int, result: Option<RaceResult>) {

    function Advance(next: Phase, now: int): (RoundState, Option<Error>) {
      if now < phaseStart then (this, Some(TimeGoesBack))
      else (this.(phase := next, phaseStart := now), None)
    }

    function OpenBuyIn(now: int): (RoundState, Option<Error>) {
      if phase != Waiting then (this, Some(WrongPhase)) else Advance(BuyIn, now)
    }

    function AddParticipant(p: Participant): (RoundState, Option<Error>) {
      if phase != BuyIn then (this, Some(WrongPhase))
      else if |participants| >= maxMarbles then (this, Some(RoundFull))
      else if p.name == "" then (this, Some(EmptyName))
      else (this.(participants := participants + [p.(marbleIndex := |participants|)]), None)
    }

    function StartRace(now: int): (RoundState, Option<Error>) {
      if phase != BuyIn then (this, Some(WrongPhase)) else Advance(Racing, now)
    }

    /** The result is recorded before the clock is checked, as in the source. */
    function FinishRace(r: RaceResult, now: int): (RoundState, Option<Error>) {
      if phase != Racing then (this, Some(WrongPhase))
      else if r.finishedAt == 0 then (this, Some(ResultMissing))
      else this.(result := Some(r)).Advance(Settle, now)
    }

    function RevealedSeed(): Option<Bytes> {
      if phase != Settle then None else Some(seed)
    }
  }

  function NewRound(sha: Hash, id: nat, seed: Bytes, maxMarbles: int, now: int): RoundState {
    RoundState(id, seed, sha(seed), Waiting, now, [], maxMarbles, None)
  }

  class Round {
    const id: nat
    const serverSeed: Bytes
    const serverSeedHash: Bytes
    const maxMarbles: int
    var phase: Phase
    var phaseStart: int
    var participants: seq<Participant>
    var result: Option<RaceResult>

    ghost function View(): RoundState
      reads this
    {
      RoundState(id, serverSeed, serverSeedHash, phase, phaseStart, participants, maxMarbles, result)
    }

    constructor (sha: Hash, id: nat, seed: Bytes, maxMarbles: int, now: int)
      ensures View() == NewRound(sha, id, seed, maxMarbles, now)
      ensures View() == RoundState(id, seed, sha(seed), Waiting, now, [], maxMarbles, None)
    {
      this.id, serverSeed, serverSeedHash, this.maxMarbles := id, seed, sha(seed), maxMarbles;
      phase, phaseStart, participants, result := Waiting, now, [], None;
    }

    method OpenBuyIn(now: int) returns (err: Option<Error>)
      modifies this
      ensures (View(), err) == old(View()).OpenBuyIn(now)
      ensures err ==
        if old(phase) != Waiting then Some(WrongPhase) else if now < old(phaseStart) then Some(TimeGoesBack) else None
      ensures err.None? ==> View() == old(View()).(phase := BuyIn, phaseStart := now)
      ensures err.Some? ==> View() == old(View())
    {
      if phase != Waiting {
        return Some(WrongPhase);
      }
      err := Advance(BuyIn, now);
    }

    method AddParticipant(p: Participant) returns (err: Option<Error>)
      modifies this
      ensures (View(), err) == old(View()).AddParticipant(p)
      ensures err ==
        if old(phase) != BuyIn then Some(WrongPhase)
        else if |old(participants)| >= maxMarbles then Some(RoundFull)
        else if p.name == "" then Some(EmptyName) else None
      ensures err.None? ==>
        View() == old(View()).(participants :=
          old(participants) + [Participant(|old(participants)|, p.name, p.clientSeed)])
      ensures err.Some? ==> View() == old(View())
    {
      if phase != BuyIn {
        return Some(WrongPhase);
      }
      if |participants| >= maxMarbles {
        return Some(RoundFull);
      }
      if p.name == "" {
        return Some(EmptyName);
      }
      participants := participants + [p.(marbleIndex := |participants|)];
      return None;
    }

    method StartRace(now: int) returns (err: Option<Error>)
      modifies this
      ensures (View(), err) == old(View()).StartRace(now)
      ensures err ==
        if old(phase) != BuyIn then Some(WrongPhase) else if now < old(phaseStart) then Some(TimeGoesBack) else None
      ensures err.None? ==> View() == old(View()).(phase := Racing, phaseStart := now)
      ensures err.Some? ==> View() == old(View())
    {
      if phase != BuyIn {
        return Some(WrongPhase);
      }
      err := Advance(Racing, now);
    }

    method FinishRace(r: RaceResult, now: int) returns (err: Option<Error>)
      modifies this
      ensures (View(), err) == old(View()).FinishRace(r, now)
      ensures err ==
        if old(phase) != Racing then Some(WrongPhase)
        else if r.finishedAt == 0 then Some(ResultMissing)
        else if now < old(phaseStart) then Some(TimeGoesBack) else None
      ensures err.None? ==> View() == old(View()).(phase := Settle, phaseStart := now, result := Some(r))
      ensures err == Some(TimeGoesBack) ==> View() == old(View()).(result := Some(r))
      ensures err == Some(WrongPhase) || err == Some(ResultMissing) ==> View() == old(View())
    {
      if phase != Racing {
        return Some(WrongPhase);
      }
      if r.finishedAt == 0 {
        return Some(ResultMissing);
      }
      result := Some(r);
      err := Advance(Settle, now);
    }

    method Advance(next: Phase, now: int) returns (err: Option<Error>)
      modifies this
      ensures (View(), err) == old(View()).Advance(next, now)
    {
      if now < phaseStart {
        return Some(TimeGoesBack);
      }
      phase := next;
      phaseStart := now;
      return None;
    }
  }

  // ---------------------------------------------------------------------------
  // Histories of calls
  // ---------------------------------------------------------------------------

  datatype Call =
    | OpenCall(now: int)
    | AddCall(p: Participant)
    | StartCall(now: int)
    | FinishCall(r: RaceResult, now: int)

  function Step(s: RoundState, c: Call): (RoundState, Option<Error>) {
    match c
    case OpenCall(now) => s.OpenBuyIn(now)
    case AddCall(p) => s.AddParticipant(p)
    case StartCall(now) => s.StartRace(now)
    case FinishCall(r, now) => s.FinishRace(r, now)
  }

  function Run(s: RoundState, calls: seq<Call>): RoundState {
    if calls == [] then s else Step(Run(s, calls[..|calls| - 1]), calls[|calls| - 1]).0
  }

  /** A finish that records its result but is refused because its time precedes the start of the race. */
  predicate RejectedFinish(s: RoundState, c: Call) {
    c.FinishCall? && s.phase == Racing && c.r.finishedAt != 0 && c.now < s.phaseStart
  }

  predicate AnyRejectedFinish(s: RoundState, calls: seq<Call>) {
    calls != [] &&
    var before := calls[..|calls| - 1];
    AnyRejectedFinish(s, before) || RejectedFinish(Run(s, before), calls[|calls| - 1])
  }

  ghost predicate WellNumbered(parts: seq<Participant>) {
    forall i | 0 <= i < |parts| :: parts[i].marbleIndex == i && parts[i].name != ""
  }

  /**
   What every history of a fresh round keeps: the commitment, the numbering and the cap; nobody is
   registered before BUY_IN; and a result exists exactly in SETTLE or after a finish whose time was
   rejected -- the one way to have a result without reaching SETTLE.
   */
  lemma {:induction false} RoundHistory(sha: Hash, id: nat, seed: Bytes, maxMarbles: nat, now: int, calls: seq<Call>)
    ensures var s := Run(NewRound(sha, id, seed, maxMarbles, now), calls);
      && s.id == id && s.seed == seed && s.commit == sha(seed) && s.maxMarbles == maxMarbles
      && |s.participants| <= maxMarbles && WellNumbered(s.participants)
      && (s.phase == Waiting ==> s.participants == [])
      && now <= s.phaseStart
      && (s.result.Some? <==>
          s.phase == Settle || AnyRejectedFinish(NewRound(sha, id, seed, maxMarbles, now), calls))
      && (s.result.Some? ==> s.phase.Rank() >= Racing.Rank() && s.result.value.finishedAt != 0)
  {
    if calls != [] {
      RoundHistory(sha, id, seed, maxMarbles, now, calls[..|calls| - 1]);
    }
  }

  /** From the start of the race on, the participants are locked; phases and their times never go back. */
  lemma {:induction false} PhasesOnlyAdvance(s: RoundState, calls: seq<Call>)
    ensures var t := Run(s, calls);
      && s.phase.Rank() <= t.phase.Rank() && s.phaseStart <= t.phaseStart
      && s.participants <= t.participants
      && (s.phase.Rank() >= Racing.Rank() ==> t.participants == s.participants)
      && (s.phase == Settle ==> t == s)
  {
    if calls != [] {
      PhasesOnlyAdvance(s, calls[..|calls| - 1]);
    }
  }

  function MovesOn(s: RoundState, c: Call): nat { if Step(s, c).0.phase != s.phase then 1 else 0 }

  /** The number of calls that changed the phase. */
  function PhaseChanges(s: RoundState, calls: seq<Call>): nat {
    if calls == [] then 0
    else var before := calls[..|calls| - 1]; PhaseChanges(s, before) + MovesOn(Run(s, before), calls[|calls| - 1])
  }

  /** No phase is skipped: the seed is out exactly after three phase changes, the last of them a finish. */
  lemma {:induction false} SeedOnlyAfterSettle(s: RoundState, calls: seq<Call>)
    requires s.phase == Waiting
    ensures var t := Run(s, calls);
      && t.phase.Rank() == PhaseChanges(s, calls)
      && (t.RevealedSeed().Some? <==> PhaseChanges(s, calls) == 3)
      && (t.RevealedSeed().Some? ==> t.RevealedSeed() == Some(s.seed))
  {
    if calls != [] {
      SeedOnlyAfterSettle(s, calls[..|calls| - 1]);
      assert Run(s, calls[..|calls| - 1]).seed == s.seed by { SeedIsFixed(s, calls[..|calls| - 1]); }
      SeedIsFixed(s, calls);
    }
  }

  lemma {:induction false} SeedIsFixed(s: RoundState, calls: seq<Call>)
    ensures Run(s, calls).seed == s.seed
  {
    if calls != [] {
      SeedIsFixed(s, calls[..|calls| - 1]);
    }
  }

  /** The documented equivalence "result if and only if SETTLE" fails when the clock steps back. */
  lemma ResultWithoutSettle(sha: Hash, seed: Bytes)
    ensures var s := Run(NewRound(sha, 1, seed, 1, 5),
                         [OpenCall(5), StartCall(9), FinishCall(RaceResult(0, 8), 8)]);
      s.result == Some(RaceResult(0, 8)) && s.phase == Racing && s.RevealedSeed().None?
  {
    var calls := [OpenCall(5), StartCall(9), FinishCall(RaceResult(0, 8), 8)];
    var s := NewRound(sha, 1, seed, 1, 5);
    assert calls[..2] == [OpenCall(5), StartCall(9)] && calls[..2][..1] == [OpenCall(5)] && calls[..2][..1][..0] == [];
    assert Run(s, calls[..2][..1]) == s.(phase := BuyIn);
    assert Run(s, calls[..2]) == s.(phase := Racing, phaseStart := 9);
  }

  // ---------------------------------------------------------------------------
  // From a round specification to the audit manifest
  // ---------------------------------------------------------------------------

  datatype RoundSpec = RoundSpec(roundId: nat, serverSeedHex: string, trackId: Byte)

  datatype Manifest = Manifest(
    roundId: nat, trackId: Byte, serverSeedHashHex: string, serverSeedHex: string,
    participants: seq<Participant>, winner: int)

  /** The instants RunNextRound reads, and the simulator's answer. */
  datatype Happening = Happening(buyInAt: int, startAt: int, finishAt: int, sim: Option<int>)

  datatype Failure = BadSeed | Refused(error: Error) | SimFailed

  const SEED_BYTES: nat := 32

  /** Go's `copy` into a 32-byte array: cut or padded with zeroes. */
  function Copy32(b: Bytes): (seed: Bytes)
    ensures |seed| == 32 && forall i | 0 <= i < 32 :: seed[i] == if i < |b| then b[i] else 0
  {
    if |b| >= SEED_BYTES then b[..SEED_BYTES] else b + seq(SEED_BYTES - |b|, _ => 0)
  }

  /** fmt.Sprintf("filler_%02d", i). */
  function FillerName(i: nat): string {
    "filler_" + (if i < 10 then "0" else "") + FormatUint(i)
  }

  /** Two digits, as far as two are enough. */
  lemma FillerText(i: nat)
    ensures i < 100 ==> FillerName(i) == "filler_" + ["0123456789"[i / 10], "0123456789"[i % 10]]
    ensures i >= 100 ==> FillerName(i) == "filler_" + FormatUint(i)
  {
    if i < 100 {
      TwoDigits(i);
    }
  }

  function NameAt(bettors: seq<string>, i: nat): string {
    if i < |bettors| then bettors[i] else FillerName(i)
  }

  /** The seats of a full field: the bettors in queue order, then the fillers. */
  function Field(bettors: seq<string>, n: nat): seq<Participant> {
    seq(n, i requires 0 <= i < n => Participant(i, NameAt(bettors, i), ""))
  }

  /** Can the field be seated? */
  predicate Seats(spec: RoundSpec, bettors: seq<string>, maxMarbles: nat) {
    && HexDecode(spec.serverSeedHex).Some?
    && |bettors| <= maxMarbles
    && (forall i | 0 <= i < |bettors| :: bettors[i] != "")
  }

  /** Is a seated round raced to its end? */
  predicate Races(h: Happening) {
    h.sim.Some? && h.buyInAt <= h.startAt <= h.finishAt && h.finishAt != 0
  }

  function SeedOf(spec: RoundSpec): Bytes
    requires HexDecode(spec.serverSeedHex).Some?
  {
    Copy32(HexDecode(spec.serverSeedHex).value)
  }

  /** A round in BUY_IN whose field is full: bettors first, then fillers. */
  function SeatedRound(sha: Hash, spec: RoundSpec, bettors: seq<string>, maxMarbles: nat, now: int): RoundState
    requires HexDecode(spec.serverSeedHex).Some?
  {
    RoundState(spec.roundId, SeedOf(spec), sha(SeedOf(spec)), BuyIn, now, Field(bettors, maxMarbles), maxMarbles, None)
  }

  /** What the audit manifest of this specification must say. */
  function AuditOf(sha: Hash, spec: RoundSpec, bettors: seq<string>, maxMarbles: nat, winner: int): Manifest
    requires HexDecode(spec.serverSeedHex).Some?
  {
    Manifest(spec.roundId, spec.trackId, HexEncode(sha(SeedOf(spec))), HexEncode(SeedOf(spec)),
             Field(bettors, maxMarbles), winner)
  }

  /** RunNextRound, seating: a fresh Round with the bettors in queue order and fillers up to the cap. */
  method SeatField(sha: Hash, spec: RoundSpec, bettors: seq<string>, maxMarbles: nat, now: int)
    returns (r: Result<Round, Failure>)
    ensures r.Ok? <==> Seats(spec, bettors, maxMarbles)
    ensures r.Ok? ==> fresh(r.value) && r.value.View() == SeatedRound(sha, spec, bettors, maxMarbles, now)
    ensures r.Ok? <==>
      HexDecode(spec.serverSeedHex).Some? && |bettors| <= maxMarbles && forall b | b in bettors :: b != ""
    ensures r == Err(BadSeed) <==> HexDecode(spec.serverSeedHex).None?
    ensures r.Ok? ==>
      && |r.value.participants| == maxMarbles
      && (forall i | 0 <= i < |bettors| :: r.value.participants[i] == Participant(i, bettors[i], ""))
      && (forall i | |bettors| <= i < maxMarbles :: r.value.participants[i] == Participant(i, FillerName(i), ""))
  {
    var decoded := HexDecode(spec.serverSeedHex);
    if decoded.None? {
      return Err(BadSeed);
    }
    var seed := Copy32(decoded.value);
    var round := new Round(sha, spec.roundId, seed, maxMarbles, now);
    var openErr := round.OpenBuyIn(now);
    var err := SeatBettors(round, bettors);
    Named(bettors);
    if err.Some? {
      return Err(Refused(err.value));
    }
    SeatFillers(round, bettors);
    return Ok(round);
  }

  lemma Named(names: seq<string>)
    ensures (forall b | b in names :: b != "") <==> forall i | 0 <= i < |names| :: names[i] != ""
  {
    if forall b | b in names :: b != "" {
      forall i | 0 <= i < |names| ensures names[i] != "" {
        assert names[i] in names;
      }
    }
  }

  method SeatBettors(round: Round, bettors: seq<string>) returns (err: Option<Error>)
    requires round.phase == BuyIn && round.participants == [] && round.maxMarbles >= 0
    modifies round
    ensures err.None? <==> |bettors| <= round.maxMarbles && forall i | 0 <= i < |bettors| :: bettors[i] != ""
    ensures err.None? ==> round.View() == old(round.View()).(participants := Field(bettors, |bettors|))
  {
    for i := 0 to |bettors|
      invariant round.View() == old(round.View()).(participants := Field(bettors, i))
      invariant i <= round.maxMarbles && forall j | 0 <= j < i :: bettors[j] != ""
    {
      err := round.AddParticipant(Participant(0, bettors[i], ""));
      if err.Some? {
        return;
      }
      assert round.participants == Field(bettors, i + 1);
    }
    return None;
  }

  method SeatFillers(round: Round, bettors: seq<string>)
    requires round.phase == BuyIn && round.participants == Field(bettors, |bettors|) && |bettors| <= round.maxMarbles
    modifies round
    ensures round.View() == old(round.View()).(participants := Field(bettors, round.maxMarbles))
  {
    for i := |bettors| to round.maxMarbles
      invariant round.View() == old(round.View()).(participants := Field(bettors, i))
    {
      var err := round.AddParticipant(Participant(0, FillerName(i), ""));
      assert round.participants == Field(bettors, i + 1);
    }
  }

  /** RunNextRound, race: starts and finishes a seated round and writes its manifest. */
  method RaceToManifest(round: Round, trackId: Byte, h: Happening) returns (r: Result<Manifest, Failure>)
    requires round.phase == BuyIn && round.phaseStart == h.buyInAt
    modifies round
    ensures r.Ok? <==> Races(h)
    ensures r.Err? && h.sim.None? && h.buyInAt <= h.startAt ==> r.error == SimFailed
    ensures r.Ok? ==>
      r.value == Manifest(round.id, trackId, HexEncode(round.serverSeedHash), HexEncode(round.serverSeed),
                          old(round.participants), h.sim.value)
  {
    var startErr := round.StartRace(h.startAt);
    if startErr.Some? {
      return Err(Refused(startErr.value));
    }
    if h.sim.None? {
      return Err(SimFailed);
    }
    var finishErr := round.FinishRace(RaceResult(h.sim.value, h.finishAt), h.finishAt);
    if finishErr.Some? {
      return Err(Refused(finishErr.value));
    }
    return Ok(Manifest(round.id, trackId, HexEncode(round.serverSeedHash), HexEncode(round.serverSeed),
                       round.participants, h.sim.value));
  }

  /**
   A whole round without sessions or bets: it succeeds exactly when the field can be seated and raced;
   its manifest then names the consumed specification, reveals a seed that hashes to its commitment,
   and lists exactly `maxMarbles` participants numbered by position.
   */
  method RunToManifest(sha: Hash, spec: RoundSpec, bettors: seq<string>, maxMarbles: nat, h: Happening)
    returns (r: Result<Manifest, Failure>)
    ensures r.Ok? <==> Seats(spec, bettors, maxMarbles) && Races(h)
    ensures r.Ok? <==>
      && HexDecode(spec.serverSeedHex).Some? && |bettors| <= maxMarbles && (forall b | b in bettors :: b != "")
      && h.buyInAt <= h.startAt <= h.finishAt && h.sim.Some? && h.finishAt != 0
    ensures r.Ok? ==>
      var m := r.value; var seed := Copy32(HexDecode(spec.serverSeedHex).value);
      && m.roundId == spec.roundId && m.trackId == spec.trackId
      && |m.participants| == maxMarbles
      && |bettors| <= maxMarbles
      && (forall i | 0 <= i < |bettors| :: m.participants[i] == Participant(i, bettors[i], ""))
      && (forall i | |bettors| <= i < maxMarbles :: m.participants[i] == Participant(i, FillerName(i), ""))
      && m.serverSeedHex == HexEncode(seed) && m.serverSeedHashHex == HexEncode(sha(seed))
      && Some(m.winner) == h.sim
  {
    var seated := SeatField(sha, spec, bettors, maxMarbles, h.buyInAt);
    if seated.Err? {
      return Err(seated.error);
    }
    var round := seated.value;
    assert round.View() == SeatedRound(sha, spec, bettors, maxMarbles, h.buyInAt);
    r := RaceToManifest(round, spec.trackId, h);
  }

  /**
   For a specification minted from a 32-byte seed nothing is lost between hex strings: the manifest
   reveals the very string of the specification, and decoding its two strings yields the seed and
   the hash that was committed to.
   */
  lemma MintedSeedIsRevealed(sha: Hash, seed: Bytes)
    requires |seed| == SEED_BYTES
    ensures var hex := HexEncode(seed);
      && HexDecode(hex).Some? && HexEncode(Copy32(HexDecode(hex).value)) == hex
      && HexDecode(HexEncode(sha(Copy32(HexDecode(hex).value)))) == Some(sha(seed))
  {
    HexRoundTrip(seed);
    assert seed[..SEED_BYTES] == seed;
    HexRoundTrip(sha(seed));
  }
}
