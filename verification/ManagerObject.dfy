/**
 The Manager object of the game server (server/rgs/manager.go): its fields, its lock-held sections,
 and whole calls that nothing interrupts.

 Each section is proved to do to `View()` what the same section does in the settlement machine, where
 sections of many calls interleave.  Fresh ids, seeds and instants are parameters.
 */
module Managers {
  import opened Common
  import opened Text
  import opened Sessions
  import opened Rounds
  import opened ManagerState
  import opened Settlement
  import opened Tracks
  import opened RunOutcomes
  import W = Wallet
  import Rtp

  /** A pre-minted round and the bets placed on it. */
  class Pending {
    const spec: RoundSpec
    var bets: seq<RoundBet>

    constructor (spec: RoundSpec)
      ensures this.spec == spec && bets == []
    {
      this.spec, bets := spec, [];
    }
  }

  function SpecOf(p: Option<Pending>): Option<RoundSpec> {
    if p.Some? then Some(p.value.spec) else None
  }

  ghost function BetsOn(p: Option<Pending>): seq<RoundBet>
    reads if p.Some? then {p.value} else {}
  {
    if p.Some? then p.value.bets else []
  }

  datatype CallError =
    | UnknownSession | ZeroAmount | EmptyPlayer
    | WalletError(outcome: W.Outcome)
    | Rejected(error: Sessions.Error)
    | UnknownRound | RoundAlreadyRun | InvalidMarble | InvalidAmount

  lemma QueueMovesUp(before: seq<Byte>, after: seq<Byte>)
    requires |after| == if before == [] then 0 else |before| - 1
    requires forall i | 0 <= i < |after| :: after[i] == before[i + 1]
    ensures after == if before == [] then [] else before[1..]
  {
  }

  /** What a run does to prevTrack and to the queue of rounds is what the rotation does. */
  lemma RunIsStep(pool: seq<Byte>, h: Hash64, w: World, s: Rotation, ok: bool, track: int)
    requires pool != []
    requires ok ==> track == if s.queue != [] then s.queue[0] else SelectTrack(pool, h, w.freshId, s.prev)
    ensures var next := Tracks.Step(pool, s, RunRound(h(w.freshId), ok));
      && next.prev == (if ok then track else s.prev)
      && next.queue == (if s.queue == [] then [] else s.queue[1..])
      && next.ran == if ok then s.ran + [track] else s.ran
  {
  }

  lemma ValuesOfFreshKey<K, V>(m: map<K, V>, k: K, v: V)
    requires k !in m
    ensures m[k := v].Values == m.Values + {v}
  {
    forall w | w in m.Values + {v} ensures w in m[k := v].Values {
      if w in m.Values {
        var j :| j in m && m[j] == w;
        assert m[k := v][j] == w;
      } else {
        assert m[k := v][k] == w;
      }
    }
  }

  class Manager {
    const cfg: Config
    const pool: seq<Byte>
    const h: Hash64
    const sha: Hash
    const wallet: W.MockWallet<string, TxId>
    var sessions: map<string, Session>
    var pending: seq<Session>
    var prevTrack: int
    var pendingRounds: seq<Pending>
    var roundBets: map<nat, seq<RoundBet>>
    ghost var known: set<Pending>

    ghost function SessionViews(): map<Session, SessionState>
      reads this`sessions, sessions.Values
    {
      map s | s in sessions.Values :: s.View()
    }

    ghost function RoundViews(): map<Pending, PendingRound>
      reads this`known, known
    {
      map p | p in known :: PendingRound(p.spec, p.bets)
    }

    /** The part of the state the lock guards, apart from the track rotation. */
    ghost function View(): Shared<Session, Pending>
      reads this, sessions.Values, known
    {
      Shared(SessionViews(), pending, RoundViews(), pendingRounds, roundBets)
    }

    /** The track rotation, after rounds on the tracks `ran`. */
    ghost function Turn(ran: seq<Byte>): Rotation
      reads this
    {
      Rotation(prevTrack, seq(|pendingRounds|, i requires 0 <= i < |pendingRounds| reads this =>
        pendingRounds[i].spec.trackId), ran)
    }

    /** What uninterrupted calls keep. */
    ghost predicate Valid()
      reads this, sessions.Values, known
    {
      && pool != []
      && (forall p | p in pendingRounds :: p in known)
      && (forall s | s in sessions.Values :: s.player != "")
      && (forall s | s in pending :: s in sessions.Values && Waits(s.View()))
      && NoDuplicates(pending)
      && (forall p | p in known :: Payable(p.bets))
    }

    constructor (cfg: Config, pool: seq<Byte>, h: Hash64, sha: Hash, wallet: W.MockWallet<string, TxId>)
      requires pool != []
      ensures Valid() && View() == Shared(map[], [], map[], [], map[]) && prevTrack == -1
      ensures this.cfg == cfg && this.pool == pool && this.h == h && this.sha == sha && this.wallet == wallet
    {
      this.cfg, this.pool, this.h, this.sha, this.wallet := cfg, pool, h, sha, wallet;
      sessions, pending, prevTrack, pendingRounds, roundBets := map[], [], -1, [], map[];
      known := {};
    }

    /** findPendingRound. */
    method FindPendingRound(roundId: nat) returns (r: Option<Pending>)
      requires forall p | p in pendingRounds :: p in known
      ensures r == View().FindPendingRound(roundId)
    {
      for i := 0 to |pendingRounds|
        invariant View().FindPendingRound(roundId) == View().FindFrom(roundId, i)
      {
        if pendingRounds[i].spec.roundId == roundId {
          return Some(pendingRounds[i]);
        }
      }
      return None;
    }

    /** OpenSession; the id is fresh. */
    method OpenSession(player: string, id: string) returns (r: Result<Session, CallError>)
      requires Valid() && id !in sessions
      modifies this
      ensures Valid()
      ensures r == Err(EmptyPlayer) <==> player == ""
      ensures r.Err? ==> player == "" && View() == old(View())
      ensures r.Ok? ==> fresh(r.value) && sessions == old(sessions)[id := r.value]
      ensures r.Ok? ==> View() == old(View()).(sessions := old(View()).sessions[r.value := Opened(player)])
    {
      if player == "" {
        return Err(EmptyPlayer);
      }
      var s := new Session(player);
      ValuesOfFreshKey(sessions, id, s);
      sessions := sessions[id := s];
      assert SessionViews() == old(SessionViews())[s := Opened(player)];
      assert RoundViews() == old(RoundViews());
      return Ok(s);
    }

    /** PlaceBet, between the two sections: one session is asked to take a bet. */
    method AskSession(s: Session, bet: SessionBet) returns (err: Option<Sessions.Error>)
      requires Valid() && s in sessions.Values
      modifies s
      ensures Valid()
      ensures (s.View(), err) == old(s.View()).PlaceBet(bet)
      ensures View() == old(View()).(sessions := old(View()).sessions[s := s.View()])
      ensures err.None? ==> Waits(s.View()) && s !in pending
      ensures err.Some? ==> View() == old(View())
    {
      err := s.PlaceBet(bet);
      assert err.Some? ==> SessionViews() == old(SessionViews());
    }

    /** PlaceBet, last section. */
    method Enqueue(s: Session)
      requires Valid() && s in sessions.Values && Waits(s.View()) && s !in pending
      modifies this`pending
      ensures Valid()
      ensures View() == old(View()).Enqueue(s)
    {
      pending := pending + [s];
    }

    /** PlaceBet, not interrupted: debit first, then ask the session; a refusal is refunded. */
    method PlaceBet(sessionId: string, amount: Uint64, betId: nat) returns (r: Result<SessionBet, CallError>)
      requires Valid()
      modifies this, sessions.Values, wallet
      ensures Valid() && sessions == old(sessions)
      ensures sessionId !in sessions ==> r == Err(UnknownSession)
      ensures sessionId in sessions && amount == 0 ==> r == Err(ZeroAmount)
      ensures sessionId !in sessions || amount == 0 ==> View() == old(View()) && wallet.View() == old(wallet.View())
      ensures sessionId in sessions && amount > 0 ==>
        var s := sessions[sessionId];
        var (paid, out) := old(wallet.View()).Debit(s.player, amount, BetTx(betId));
        var (session, err) := old(s.View()).PlaceBet(SessionBet(betId, amount, s.player, 0));
        if out != W.Applied then r == Err(WalletError(out)) && View() == old(View())
          && wallet.View() == old(wallet.View())
        else if err.Some? then
          && r == Err(Rejected(err.value)) && View() == old(View())
          && wallet.View() == paid.Credit(s.player, amount, RefundTx(betId)).0
        else
          && r == Ok(SessionBet(betId, amount, s.player, 0)) && wallet.View() == paid
          && View() == old(View()).(sessions := old(View()).sessions[s := session], queue := old(View()).queue + [s])
    {
      if sessionId !in sessions {
        return Err(UnknownSession);
      }
      var s := sessions[sessionId];
      if amount == 0 {
        return Err(ZeroAmount);
      }
      var out := wallet.Debit(s.player, amount, BetTx(betId));
      assert View() == old(View());
      if out != W.Applied {
        return Err(WalletError(out));
      }
      var bet := SessionBet(betId, amount, s.player, 0);
      var err := AskSession(s, bet);
      if err.Some? {
        var ignored := wallet.Credit(s.player, amount, RefundTx(betId));
        assert View() == old(View());
        return Err(Rejected(err.value));
      }
      Enqueue(s);
      return Ok(bet);
    }

    /** CloseSession. */
    method CloseSession(sessionId: string) returns (err: Option<CallError>)
      requires Valid()
      modifies sessions.Values
      ensures Valid()
      ensures sessionId !in sessions ==> err == Some(UnknownSession) && View() == old(View())
      ensures sessionId in sessions ==>
        var s := sessions[sessionId];
        var (session, e) := old(s.View()).Close();
        && View() == old(View()).(sessions := old(View()).sessions[s := session])
        && err == if e.Some? then Some(Rejected(e.value)) else None
    {
      if sessionId !in sessions {
        return Some(UnknownSession);
      }
      var e := sessions[sessionId].Close();
      return if e.Some? then Some(Rejected(e.value)) else None;
    }

    /** GenerateRoundSpec, last section. */
    method Mint(spec: RoundSpec) returns (p: Pending)
      requires Valid()
      modifies this`known, this`pendingRounds, this`roundBets
      ensures Valid() && fresh(p) && p.spec == spec && p.bets == []
      ensures pendingRounds == old(pendingRounds) + [p] && roundBets == old(roundBets)[spec.roundId := []]
      ensures View() == old(View()).Mint(p, spec)
    {
      p := new Pending(spec);
      known := known + {p};
      pendingRounds := pendingRounds + [p];
      roundBets := roundBets[spec.roundId := []];
      assert RoundViews() == old(RoundViews())[p := PendingRound(spec, [])];
      assert SessionViews() == old(SessionViews());
    }

    /** GenerateRoundSpec: selects a track and queues a fresh round; `seed` is None when no randomness is to be had. */
    method GenerateRoundSpec(roundId: nat, seed: Option<Bytes>) returns (r: Result<RoundSpec, RunError>)
      requires Valid()
      modifies this
      ensures Valid() && sessions == old(sessions)
      ensures seed.None? ==> r == Err(NoSeed) && View() == old(View()) && prevTrack == old(prevTrack)
      ensures seed.Some? ==>
        var track := SelectTrack(pool, h, roundId, old(prevTrack));
        var spec := RoundSpec(roundId, HexEncode(seed.value), track);
        && r == Ok(spec) && prevTrack == track && pendingRounds != []
        && fresh(pendingRounds[|pendingRounds| - 1])
        && View() == old(View()).Mint(pendingRounds[|pendingRounds| - 1], spec)
      ensures seed.Some? ==>
        && |pendingRounds| == |old(pendingRounds)| + 1 && pendingRounds[..|old(pendingRounds)|] == old(pendingRounds)
        && pendingRounds[|old(pendingRounds)|].spec == r.value && roundBets == old(roundBets)[roundId := []]
        && r.value.roundId == roundId && HexDecode(r.value.serverSeedHex) == seed && r.value.trackId == prevTrack
      ensures seed.Some? && NeighboursDiffer(pool) ==> prevTrack != old(prevTrack)
      ensures seed.Some? && pool[h(roundId) % |pool|] != old(prevTrack) ==> prevTrack == pool[h(roundId) % |pool|]
      ensures seed.Some? ==> forall ran :: Turn(ran) == Tracks.Step(pool, old(Turn(ran)), Generate(h(roundId)))
    {
      if seed.None? {
        return Err(NoSeed);
      }
      SelectTrackIs(pool, h, roundId, prevTrack);
      var track := SelectTrack(pool, h, roundId, prevTrack);
      prevTrack := track;
      var spec := RoundSpec(roundId, HexEncode(seed.value), track);
      assert View() == old(View());
      HexRoundTrip(seed.value);
      var p := Mint(spec);
      return Ok(spec);
    }

    /** May a bet be placed on this round now, money aside? */
    ghost predicate Acceptable(roundId: nat, marble: int, amount: real)
      requires forall p | p in pendingRounds :: p in known
      reads this, sessions.Values, known
    {
      0 <= marble < cfg.maxMarbles && amount > 0.0 && View().FindPendingRound(roundId).Some? && Units(amount) != 0
    }

    lemma PendingIff(roundId: nat)
      requires forall p | p in pendingRounds :: p in known
      ensures View().FindPendingRound(roundId).None? <==> forall p | p in pendingRounds :: p.spec.roundId != roundId
    {
      View().FindFromSpec(roundId, 0);
      if p :| p in pendingRounds && p.spec.roundId == roundId {
        var k :| 0 <= k < |pendingRounds| && pendingRounds[k] == p;
        assert View().rounds[View().pendingRounds[k]].spec.roundId == roundId;
      }
    }

    /** PlaceBetOnRound, first part: everything up to the debit. */
    method LookUpRound(roundId: nat, marble: int, amount: real) returns (r: Result<Pending, CallError>)
      requires Valid()
      ensures r.Ok? <==> Acceptable(roundId, marble, amount)
      ensures r.Ok? ==> View().FindPendingRound(roundId) == Some(r.value) && r.value in known
      ensures r.Ok? ==> 0 < Units(amount) && 0 <= PayoutUnits(amount)
      ensures r == Err(InvalidMarble) <==> !(0 <= marble < cfg.maxMarbles)
      ensures r == Err(InvalidAmount) <==>
        && 0 <= marble < cfg.maxMarbles
        && (amount <= 0.0 || (Units(amount) == 0 && exists p :: p in pendingRounds && p.spec.roundId == roundId))
      ensures r == Err(UnknownRound) || r == Err(RoundAlreadyRun) <==>
        0 <= marble < cfg.maxMarbles && amount > 0.0 && forall p | p in pendingRounds :: p.spec.roundId != roundId
      ensures r == Err(RoundAlreadyRun) ==> roundId in roundBets
      ensures r == Err(UnknownRound) ==> roundId !in roundBets
    {
      if marble < 0 || marble >= cfg.maxMarbles {
        return Err(InvalidMarble);
      }
      if amount <= 0.0 {
        return Err(InvalidAmount);
      }
      PendingIff(roundId);
      var p := FindPendingRound(roundId);
      if p.None? {
        return Err(if roundId in roundBets then RoundAlreadyRun else UnknownRound);
      }
      if Units(amount) == 0 {
        return Err(InvalidAmount);
      }
      View().FindFromSpec(roundId, 0);
      return Ok(p.value);
    }

    /** PlaceBetOnRound, last section, when the round id is still pending. */
    method Append(p: Pending, bet: RoundBet)
      requires Valid() && p in known && 0 <= PayoutUnits(bet.amount) < TWO_64
      requires View().FindPendingRound(bet.roundId).Some?
      modifies this`roundBets, p
      ensures Valid()
      ensures View() == old(View()).PlaceOnRound(p, bet).0
      ensures p.bets == old(p.bets) + [bet] && bet.roundId in roundBets
      ensures roundBets[bet.roundId]
        == (if bet.roundId in old(roundBets) then old(roundBets)[bet.roundId] else []) + [bet]
    {
      ghost var before := View();
      assert before.rounds[p] == PendingRound(p.spec, p.bets);
      p.bets := p.bets + [bet];
      roundBets := roundBets[bet.roundId := (if bet.roundId in roundBets then roundBets[bet.roundId] else []) + [bet]];
      assert RoundViews() == old(RoundViews())[p := PendingRound(p.spec, old(p.bets) + [bet])];
      assert SessionViews() == old(SessionViews());
    }

    /**
     PlaceBetOnRound, last part: the debit is done, `p` is the round found before it -- by now perhaps
     popped.  Either the bet is appended to the round and to the record of its id, or it is refunded.
     */
    method CommitRoundBet(p: Pending, bet: RoundBet) returns (err: Option<CallError>)
      requires Valid() && p in known && 0 <= PayoutUnits(bet.amount) < TWO_64 && 0 <= Units(bet.amount) < TWO_64
      modifies this, known, wallet
      ensures Valid() && sessions == old(sessions) && known == old(known)
      ensures View() == old(View()).PlaceOnRound(p, bet).0
      ensures err == if old(View()).FindPendingRound(bet.roundId).Some? then None else Some(RoundAlreadyRun)
      ensures err.None? ==> old(View()).PlaceOnRound(p, bet).1 && wallet.View() == old(wallet.View())
      ensures err.Some? ==>
        wallet.View() == old(wallet.View()).Credit(bet.player, Units(bet.amount), RefundTx(bet.id)).0
    {
      var found := FindPendingRound(bet.roundId);
      if found.None? {
        var ignored := wallet.Credit(bet.player, Units(bet.amount), RefundTx(bet.id));
        return Some(RoundAlreadyRun);
      }
      Append(p, bet);
      return None;
    }

    /** PlaceBetOnRound after the look-up, not interrupted: the debit is never refunded. */
    method DebitAndCommit(p: Pending, bet: RoundBet) returns (r: Result<Option<Uint64>, CallError>)
      requires Valid() && p in known && View().FindPendingRound(bet.roundId).Some?
      requires 0 <= Units(bet.amount) < TWO_64 && 0 <= PayoutUnits(bet.amount) < TWO_64
      modifies this, known, wallet
      ensures Valid() && sessions == old(sessions)
      ensures
        var (paid, out) := old(wallet.View()).Debit(bet.player, Units(bet.amount), BetTx(bet.id));
        && wallet.View() == paid
        && (out != W.Applied ==> r == Err(WalletError(out)) && View() == old(View()))
        && (out == W.Applied ==>
              r == Ok(Some(paid.balances[bet.player])) && View() == old(View()).PlaceOnRound(p, bet).0)
    {
      r := Charge(wallet, bet.player, Units(bet.amount), BetTx(bet.id));
      assert View() == old(View());
      if r.Ok? {
        var late := CommitRoundBet(p, bet);
      }
    }

    /** PlaceBetOnRound, not interrupted; with the bet comes the balance after the debit. */
    method PlaceBetOnRound(roundId: nat, player: string, marble: int, amount: real, betId: nat)
      returns (r: Result<(RoundBet, Option<Uint64>), CallError>)
      requires Valid() && PayoutUnits(amount) < TWO_64 && Units(amount) < TWO_64
      modifies this, known, wallet
      ensures Valid() && sessions == old(sessions)
      ensures r.Err? ==> View() == old(View()) && wallet.View() == old(wallet.View())
      ensures !old(Acceptable(roundId, marble, amount)) ==> r.Err?
      ensures r == Err(InvalidMarble) <==> !(0 <= marble < cfg.maxMarbles)
      ensures r == Err(InvalidAmount) <==>
        && 0 <= marble < cfg.maxMarbles
        && (amount <= 0.0 || (Units(amount) == 0 && exists p :: p in old(pendingRounds) && p.spec.roundId == roundId))
      ensures r == Err(UnknownRound) || r == Err(RoundAlreadyRun) <==>
        0 <= marble < cfg.maxMarbles && amount > 0.0 && forall p | p in old(pendingRounds) :: p.spec.roundId != roundId
      ensures r == Err(RoundAlreadyRun) ==> roundId in old(roundBets)
      ensures r == Err(UnknownRound) ==> roundId !in old(roundBets)
      ensures old(Acceptable(roundId, marble, amount)) ==>
        var p := old(View()).FindPendingRound(roundId).value;
        var bet := RoundBet(betId, player, roundId, marble, amount);
        var (paid, out) := old(wallet.View()).Debit(player, Units(amount), BetTx(betId));
        && (out != W.Applied ==> r == Err(WalletError(out)))
        && (out == W.Applied ==>
              && r == Ok((bet, Some(paid.balances[player]))) && wallet.View() == paid
              && p in old(known) && View() == old(View()).PlaceOnRound(p, bet).0)
    {
      var p := LookUpRound(roundId, marble, amount);
      if p.Err? {
        return Err(p.error);
      }
      var bet := RoundBet(betId, player, roundId, marble, amount);
      var balance := DebitAndCommit(p.value, bet);
      if balance.Err? {
        return Err(balance.error);
      }
      return Ok((bet, balance.value));
    }

    /** RunNextRound, first section. */
    method Take() returns (list: seq<Session>, p: Option<Pending>)
      requires Valid()
      modifies this`pending, this`pendingRounds
      ensures Valid()
      ensures (View(), list, p) == old(View()).Take()
      ensures p.Some? ==> p.value in known
      ensures NoDuplicates(list) && forall s | s in list :: s in sessions.Values && Waits(s.View())
    {
      list := pending;
      pending := [];
      p := None;
      if |pendingRounds| > 0 {
        p := Some(pendingRounds[0]);
        pendingRounds := pendingRounds[1..];
      }
    }

    /** RunNextRound, without a pre-minted round: a fresh one that never becomes pending. */
    method Register(spec: RoundSpec) returns (p: Pending)
      requires Valid()
      modifies this`known, this`roundBets
      ensures Valid() && fresh(p) && p.spec == spec && p.bets == [] && p in known
      ensures View() == old(View()).Register(p, spec)
    {
      p := new Pending(spec);
      known := known + {p};
      roundBets := roundBets[spec.roundId := []];
      assert RoundViews() == old(RoundViews())[p := PendingRound(spec, [])];
      assert SessionViews() == old(SessionViews());
    }

    /** The specification the next round will consume. */
    ghost function NextSpec(w: World): Option<RoundSpec>
      requires pool != []
      reads this
    {
      if pendingRounds != [] then Some(pendingRounds[0].spec)
      else if w.freshSeed.None? then None
      else Some(RoundSpec(w.freshId, HexEncode(w.freshSeed.value), SelectTrack(pool, h, w.freshId, prevTrack)))
    }

    /** The bets placed on it. */
    ghost function NextBets(): seq<RoundBet>
      reads this, known
      requires forall p | p in pendingRounds :: p in known
    {
      if pendingRounds != [] then pendingRounds[0].bets else []
    }

    /** The oldest pending round comes next, with its bets; without one, a fresh round on which nobody has bet. */
    lemma OldestComesNext(w: World)
      requires pool != [] && forall p | p in pendingRounds :: p in known
      ensures pendingRounds != [] ==>
        NextSpec(w) == Some(pendingRounds[0].spec) && NextBets() == pendingRounds[0].bets
      ensures pendingRounds == [] ==> NextBets() == [] && (NextSpec(w).None? <==> w.freshSeed.None?)
      ensures pendingRounds == [] && w.freshSeed.Some? ==>
        NextSpec(w).value.roundId == w.freshId && HexDecode(NextSpec(w).value.serverSeedHex) == w.freshSeed
    {
      if w.freshSeed.Some? {
        HexRoundTrip(w.freshSeed.value);
      }
    }

    /** RunNextRound, taking over: the queue, and the oldest pending round or a fresh one. */
    method Begin(w: World) returns (list: seq<Session>, p: Option<Pending>)
      requires Valid()
      modifies this`pending, this`pendingRounds, this`known, this`roundBets
      ensures Valid()
      ensures list == old(pending) && pending == []
      ensures pendingRounds == if old(pendingRounds) == [] then [] else old(pendingRounds)[1..]
      ensures p.Some? ==> p.value in known
      ensures SpecOf(p) == old(NextSpec(w)) && BetsOn(p) == old(NextBets())
      ensures p.Some? && old(pendingRounds) == [] ==> roundBets == old(roundBets)[w.freshId := []]
      ensures p.None? || old(pendingRounds) != [] ==> roundBets == old(roundBets)
      ensures NoDuplicates(list) && forall s | s in list :: s in sessions.Values
      ensures Views(list) == old(Views(pending)) && AllWait(Views(list))
    {
      list, p := Take();
      if p.None? {
        if w.freshSeed.None? {
          return;
        }
        var track := SelectTrack(pool, h, w.freshId, prevTrack);
        var minted := Register(RoundSpec(w.freshId, HexEncode(w.freshSeed.value), track));
        p := Some(minted);
      }
    }

    /**
     RunNextRound, not interrupted: `RunEnds` says when it succeeds and what it reports, and how far the
     sessions and the wallet have got either way.  On an error the queue and the pending round are gone all the
     same.
     */
    method RunNextRound(w: World) returns (r: Result<Report, RunError>)
      requires Valid()
      modifies this, pending, wallet
      ensures Valid() && sessions == old(sessions) && pending == []
      ensures pendingRounds == if old(pendingRounds) == [] then [] else old(pendingRounds)[1..]
      ensures RunEnds(r, old(NextSpec(w)), cfg, sha, w, old(pending), old(Views(pending)), old(NextBets()),
                      old(wallet.View()), wallet.View())
      ensures prevTrack == if r.Ok? then old(NextSpec(w)).value.trackId else old(prevTrack)
      ensures forall ran :: Turns(Tracks.Step(pool, old(Turn(ran)), RunRound(h(w.freshId), r.Ok?)), ran, r)
    {
      r := TakeAndRun(w);
      QueueMovesUp(old(Turn([])).queue, Turn([]).queue);
      forall ran ensures Turns(Tracks.Step(pool, old(Turn(ran)), RunRound(h(w.freshId), r.Ok?)), ran, r) {
        RunIsStep(pool, h, w, old(Turn(ran)), r.Ok?, prevTrack);
      }
    }

    /** All that RunNextRound does. */
    method TakeAndRun(w: World) returns (r: Result<Report, RunError>)
      requires Valid()
      modifies this, pending, wallet
      ensures Valid() && sessions == old(sessions) && pending == []
      ensures pendingRounds == if old(pendingRounds) == [] then [] else old(pendingRounds)[1..]
      ensures RunEnds(r, old(NextSpec(w)), cfg, sha, w, old(pending), old(Views(pending)), old(NextBets()),
                      old(wallet.View()), wallet.View())
      ensures prevTrack == if r.Ok? then old(NextSpec(w)).value.trackId else old(prevTrack)
    {
      ghost var seats := Views(pending);
      var list, p := Begin(w);
      assert wallet.View() == old(wallet.View()) && seats == Views(list);
      r := Conclude(list, p, w, seats);
    }

    /** The rotation is at s, and the track of a reported round has been raced. */
    ghost predicate Turns(s: Rotation, ran: seq<Byte>, r: Result<Report, RunError>)
      reads this
    {
      Turn(s.ran) == s && s.ran == ran + if r.Ok? then [r.value.manifest.trackId] else []
    }

    /** RunNextRound behind its first section: the round, and the track it leaves behind. */
    method Conclude(list: seq<Session>, p: Option<Pending>, w: World, ghost seats: seq<SessionState>)
      returns (r: Result<Report, RunError>)
      requires Valid() && pending == [] && (p.Some? ==> p.value in known)
      requires NoDuplicates(list) && seats == Views(list) && AllWait(seats)
      requires forall s | s in list :: s in sessions.Values
      modifies this`prevTrack, list, wallet
      ensures Valid()
      ensures RunEnds(r, SpecOf(p), cfg, sha, w, list, seats, BetsOn(p), old(wallet.View()), wallet.View())
      ensures prevTrack == if r.Ok? then SpecOf(p).value.trackId else old(prevTrack)
    {
      if p.None? {
        NothingRun(cfg, sha, w, list, seats, [], wallet.View());
        return Err(NoSeed);
      }
      r := ConcludeRound(list, p.value, w, seats);
    }

    method ConcludeRound(list: seq<Session>, p: Pending, w: World, ghost seats: seq<SessionState>)
      returns (r: Result<Report, RunError>)
      requires Valid() && pending == [] && p in known
      requires NoDuplicates(list) && seats == Views(list) && AllWait(seats)
      requires forall s | s in list :: s in sessions.Values
      modifies this`prevTrack, list, wallet
      ensures Valid()
      ensures RunEnds(r, Some(p.spec), cfg, sha, w, list, seats, p.bets, old(wallet.View()), wallet.View())
      ensures prevTrack == if r.Ok? then p.spec.trackId else old(prevTrack)
    {
      r := SettleRound(cfg, sha, wallet, p.spec, p.bets, list, w, seats);
      assert forall q | q in known :: q.bets == old(q.bets);
      if r.Ok? {
        prevTrack := p.spec.trackId;
      }
    }

    /** BetsForRound: the bets of one player, or of all when no player is named. */
    method BetsForRound(roundId: nat, player: string) returns (r: Result<seq<RoundBet>, CallError>)
      ensures r.Ok? <==> roundId in roundBets
      ensures r.Err? ==> r.error == UnknownRound
      ensures r.Ok? ==> r.value == OfPlayer(roundBets[roundId], player)
      ensures r.Ok? && player == "" ==> r.value == roundBets[roundId]
      ensures r.Ok? && player != "" ==>
        forall b :: b in r.value <==> b in roundBets[roundId] && b.player == player
      ensures r.Ok? ==> exists at: seq<nat> :: PicksOut(r.value, roundBets[roundId], player, at)
    {
      if roundId in roundBets {
        var at := WhereOfPlayer(roundBets[roundId], player);
        PickedOut(OfPlayer(roundBets[roundId], player), roundBets[roundId], player, at);
      }
      if roundId !in roundBets {
        return Err(UnknownRound);
      }
      var bets := roundBets[roundId];
      if player == "" {
        AllPlayers(bets);
        return Ok(bets);
      }
      var out := [];
      for i := 0 to |bets|
        invariant out == OfPlayer(bets[..i], player)
      {
        assert bets[..i + 1][..i] == bets[..i];
        if bets[i].player == player {
          out := out + [bets[i]];
        }
      }
      assert bets[..|bets|] == bets;
      return Ok(out);
    }
  }

  // ---------------------------------------------------------------------------
  // Debits
  // ---------------------------------------------------------------------------

  /** A debit and, if it was accepted, the balance behind it. */
  method Charge(wallet: W.MockWallet<string, TxId>, player: string, units: Uint64, tx: TxId)
    returns (r: Result<Option<Uint64>, CallError>)
    modifies wallet
    ensures
      var (paid, out) := old(wallet.View()).Debit(player, units, tx);
      && wallet.View() == paid
      && (out == W.Applied ==> player in paid.balances)
      && r == if out == W.Applied then Ok(Some(paid.balances[player])) else Err(WalletError(out))
  {
    var out := wallet.Debit(player, units, tx);
    if out != W.Applied {
      return Err(WalletError(out));
    }
    var balance := wallet.Balance(player);
    return Ok(balance);
  }

  // ---------------------------------------------------------------------------
  // RunNextRound
  // ---------------------------------------------------------------------------

  /** The players of the queue, in order. */
  method PlayersOf(list: seq<Session>) returns (names: seq<string>)
    ensures names == Names(Views(list))
  {
    names := [];
    for i := 0 to |list|
      invariant |names| == i && forall k | 0 <= k < i :: names[k] == list[k].player
    {
      names := names + [list[i].player];
    }
  }

  /** Step 3: seat i races as marble i.  No session refuses. */
  method AssignMarbles(list: seq<Session>) returns (err: Option<Sessions.Error>)
    requires NoDuplicates(list) && forall s | s in list :: Waits(s.View())
    modifies list
    ensures err.None?
    ensures forall i | 0 <= i < |list| :: list[i].View() == old(list[i].View()).AssignMarble(i).0
  {
    for i := 0 to |list|
      invariant forall k | 0 <= k < i :: list[k].View() == old(list[k].View()).AssignMarble(k).0
      invariant forall k | i <= k < |list| :: list[k].View() == old(list[k].View())
    {
      var e := list[i].AssignMarble(i);
      if e.Some? {
        return e;
      }
    }
    return None;
  }

  /** Step 7 for one seat: a winner is credited before the session settles. */
  method SettleSeat(s: Session, wallet: W.MockWallet<string, TxId>, i: nat, winner: int, prize: Uint64,
                    ghost seat: SessionState)
    returns (r: Result<Outcome, RunError>)
    requires Waits(seat) && s.View() == seat.AssignMarble(i).0
    modifies s, wallet
    ensures r.Ok? <==>
      (i == winner ==> old(wallet.View()).Credit(seat.player, prize, CreditTx(seat.bet.value.id)).1 == W.Applied)
    ensures r.Err? ==> r.error.CreditError? && s.View() == old(s.View()) && wallet.View() == old(wallet.View())
    ensures r.Ok? ==> r.value == SeatOutcome(seat, i, winner, prize) && s.View() == AfterRace(seat, i, winner, prize)
    ensures r.Ok? && i == winner ==>
      wallet.View() == old(wallet.View()).Credit(seat.player, prize, CreditTx(seat.bet.value.id)).0
    ensures r.Ok? && i != winner ==> wallet.View() == old(wallet.View())
  {
    var bet := s.bet.value;
    var won := bet.marble == winner;
    var amount: Uint64 := 0;
    if won {
      amount := prize;
      var out := wallet.Credit(s.player, amount, CreditTx(bet.id));
      if out != W.Applied {
        return Err(CreditError(out));
      }
    }
    var outcome := Outcome(bet.id, bet.player, bet.amount, won, amount, winner);
    var err := s.Settle(outcome);
    if err.Some? {
      assert false;
    }
    return Ok(outcome);
  }

  /**
   Step 7: credits the winning seat, if a bettor holds it, and settles every seat.  The only error left
   is a refused credit, and it leaves the winner and all seats behind it unsettled.
   */
  method SettleSeats(list: seq<Session>, wallet: W.MockWallet<string, TxId>, winner: int, prize: Uint64,
                     ghost seats: seq<SessionState>)
    returns (r: Result<seq<Outcome>, RunError>)
    requires NoDuplicates(list) && |seats| == |list| && AllWait(seats)
    requires forall i | 0 <= i < |list| :: list[i].View() == seats[i].AssignMarble(i).0
    modifies list, wallet
    ensures r.Ok? <==> AfterSeats(old(wallet.View()), seats, winner, prize).1 == W.Applied
    ensures wallet.View() == if r.Ok? then AfterSeats(old(wallet.View()), seats, winner, prize).0
      else old(wallet.View())
    ensures r.Ok? ==> |r.value| == |list|
    ensures r.Ok? ==> forall i | 0 <= i < |list| :: r.value[i] == SeatOutcome(seats[i], i, winner, prize)
    ensures r.Ok? ==> forall i | 0 <= i < |list| :: list[i].View() == AfterRace(seats[i], i, winner, prize)
    ensures r.Err? ==> r.error.CreditError? && 0 <= winner < |list|
    ensures r.Err? ==> forall i | 0 <= i < winner :: list[i].View() == AfterRace(seats[i], i, winner, prize)
    ensures r.Err? ==> forall i | winner <= i < |list| :: list[i].View() == old(list[i].View())
  {
    var outcomes := [];
    for i := 0 to |list|
      invariant |outcomes| == i
      invariant forall k | 0 <= k < i :: outcomes[k] == SeatOutcome(seats[k], k, winner, prize)
      invariant forall k | 0 <= k < i :: list[k].View() == AfterRace(seats[k], k, winner, prize)
      invariant forall k | i <= k < |list| :: list[k].View() == old(list[k].View())
      invariant 0 <= winner < i ==> AfterSeats(old(wallet.View()), seats, winner, prize).1 == W.Applied
      invariant wallet.View() ==
        if 0 <= winner < i then AfterSeats(old(wallet.View()), seats, winner, prize).0 else old(wallet.View())
    {
      var r := SettleSeat(list[i], wallet, i, winner, prize, seats[i]);
      if r.Err? {
        return Err(r.error);
      }
      outcomes := outcomes + [r.value];
    }
    return Ok(outcomes);
  }

  /** Step 9: credits every winning round bet in the order of placement; stops at the first refusal. */
  method SettleRoundBets(bets: seq<RoundBet>, wallet: W.MockWallet<string, TxId>, winner: int)
    returns (r: Result<seq<RoundOutcome>, RunError>)
    requires Payable(bets)
    modifies wallet
    ensures r.Ok? <==> AllApplied(old(wallet.View()), RoundCredits(bets, winner))
    ensures r.Err? ==> r.error.CreditError?
    ensures wallet.View() == UpToRefusal(old(wallet.View()), RoundCredits(bets, winner))
    ensures r.Ok? ==> |r.value| == |bets| && forall i | 0 <= i < |bets| :: r.value[i] == RoundVerdict(bets[i], winner)
  {
    var outcomes := [];
    for i := 0 to |bets|
      invariant |outcomes| == i
      invariant AllApplied(old(wallet.View()), RoundCredits(bets[..i], winner))
      invariant wallet.View() == W.Run(old(wallet.View()), RoundCredits(bets[..i], winner))
      invariant forall k | 0 <= k < i :: outcomes[k] == RoundVerdict(bets[k], winner)
    {
      var rb := bets[i];
      var won := rb.marble == winner;
      var units: int := 0;
      assert bets[..i + 1][..i] == bets[..i];
      if won {
        units := PayoutUnits(rb.amount);
        RunExtend(old(wallet.View()), RoundCredits(bets[..i], winner),
                  W.CreditCall(rb.player, units, CreditTx(rb.id)));
        var out := wallet.Credit(rb.player, units, CreditTx(rb.id));
        if out != W.Applied {
          CreditRefused(old(wallet.View()), bets, winner, i);
          return Err(CreditError(out));
        }
      } else {
        assert RoundCredits(bets[..i + 1], winner) == RoundCredits(bets[..i], winner);
      }
      outcomes := outcomes + [RoundOutcome(rb, won, units)];
    }
    assert bets[..|bets|] == bets;
    UpToRefusalConcat(old(wallet.View()), RoundCredits(bets, winner), []);
    return Ok(outcomes);
  }

  /** Steps 2 to 6: seats the field, races it and computes the prize. */
  method RaceRound(cfg: Config, sha: Hash, spec: RoundSpec, list: seq<Session>, w: World,
                   ghost seats: seq<SessionState>, ghost l: Ledger)
    returns (r: Result<(Manifest, Uint64), RunError>)
    requires NoDuplicates(list) && seats == Views(list) && AllWait(seats)
    modifies list
    ensures r.Ok? <==> Seats(spec, Names(seats), cfg.maxMarbles) && Raced(cfg, w)
    ensures r.Err? ==> FailsAs(r.error, Some(spec), cfg, w, seats, l)
    ensures r.Ok? ==> r.value == (AuditOf(sha, spec, Names(seats), cfg.maxMarbles, w.race.sim.value), Prize(cfg))
    ensures if Seats(spec, Names(seats), cfg.maxMarbles) then AllRacing(list, seats) else Views(list) == seats
  {
    var names := PlayersOf(list);
    var seated := Rounds.SeatField(sha, spec, names, cfg.maxMarbles, w.race.buyInAt);
    if seated.Err? {
      return Err(RoundError(seated.error));
    }
    var assignErr := AssignMarbles(list);
    assert AllRacing(list, seats);
    r := RaceField(cfg, sha, spec, seated.value, w, seats, l);
  }

  /** Steps 4 to 6, on a seated round. */
  method RaceField(cfg: Config, sha: Hash, spec: RoundSpec, round: Rounds.Round, w: World,
                   ghost seats: seq<SessionState>, ghost l: Ledger)
    returns (r: Result<(Manifest, Uint64), RunError>)
    requires AllWait(seats) && Seats(spec, Names(seats), cfg.maxMarbles)
    requires round.View() == SeatedRound(sha, spec, Names(seats), cfg.maxMarbles, w.race.buyInAt)
    modifies round
    ensures r.Ok? <==> Raced(cfg, w)
    ensures r.Err? ==> FailsAs(r.error, Some(spec), cfg, w, seats, l)
    ensures r.Ok? ==> r.value == (AuditOf(sha, spec, Names(seats), cfg.maxMarbles, w.race.sim.value), Prize(cfg))
  {
    var manifest := RaceToManifest(round, spec.trackId, w.race);
    if manifest.Err? {
      return Err(RoundError(manifest.error));
    }
    var split := Rtp.Settle(cfg.bps, Settlement.Stakes(cfg), w.race.sim.value);
    if split.Err? {
      return Err(RtpError(split.error));
    }
    PrizeIsTheShare(cfg, w.race.sim.value, split.value);
    return Ok((manifest.value, split.value.prize));
  }

  /** Steps 7 to 9: settles the seats, stores the replay, pays the round bets. */
  method PayRound(wallet: W.MockWallet<string, TxId>, list: seq<Session>, bets: seq<RoundBet>, winner: int,
                  prize: Uint64, saved: bool, ghost seats: seq<SessionState>)
    returns (r: Result<(seq<Outcome>, seq<RoundOutcome>), RunError>)
    requires NoDuplicates(list) && |seats| == |list| && AllWait(seats) && AllRacing(list, seats) && Payable(bets)
    modifies list, wallet
    ensures r.Ok? <==> saved && AllApplied(old(wallet.View()), Credits(seats, bets, winner, prize))
    ensures r.Err? ==>
      if !saved && AllApplied(old(wallet.View()), SeatCredits(seats, winner, prize)) then r.error == SaveError
      else r.error.CreditError?
    ensures wallet.View() == UpToRefusal(old(wallet.View()), CreditsTried(seats, bets, winner, prize, saved))
    ensures SeatsAfter(list, seats, winner, prize, AllApplied(old(wallet.View()), SeatCredits(seats, winner, prize)))
    ensures r.Ok? ==>
      && |r.value.0| == |seats|
        && (forall i | 0 <= i < |seats| :: r.value.0[i] == SeatOutcome(seats[i], i, winner, prize))
      && |r.value.1| == |bets| && (forall i | 0 <= i < |bets| :: r.value.1[i] == RoundVerdict(bets[i], winner))
  {
    SeatCreditsRun(wallet.View(), seats, winner, prize);
    RunConcat(wallet.View(), SeatCredits(seats, winner, prize), RoundCredits(bets, winner));
    UpToRefusalConcat(wallet.View(), SeatCredits(seats, winner, prize), RoundCredits(bets, winner));
    var outcomes := SettleSeats(list, wallet, winner, prize, seats);
    if outcomes.Err? {
      return Err(outcomes.error);
    }
    if !saved {
      return Err(SaveError);
    }
    var roundOutcomes := SettleRoundBets(bets, wallet, winner);
    if roundOutcomes.Err? {
      return Err(roundOutcomes.error);
    }
    return Ok((outcomes.value, roundOutcomes.value));
  }

  /** RunNextRound between its first and its last section, on the queue and the round it has taken. */
  method SettleRound(cfg: Config, sha: Hash, wallet: W.MockWallet<string, TxId>, spec: RoundSpec, bets: seq<RoundBet>,
                  list: seq<Session>, w: World, ghost seats: seq<SessionState>)
    returns (r: Result<Report, RunError>)
    requires NoDuplicates(list) && seats == Views(list) && AllWait(seats) && Payable(bets)
    modifies list, wallet
    ensures RunEnds(r, Some(spec), cfg, sha, w, list, seats, bets, old(wallet.View()), wallet.View())
  {
    var raced := RaceRound(cfg, sha, spec, list, w, seats, wallet.View());
    if raced.Err? {
      return Err(raced.error);
    }
    var paid := PayRound(wallet, list, bets, w.race.sim.value, raced.value.1, w.saved, seats);
    if paid.Err? {
      return Err(paid.error);
    }
    AllPaid(old(wallet.View()), seats, bets, w.race.sim.value, Prize(cfg));
    return Ok(Report(raced.value.0, paid.value.0, paid.value.1));
  }

  /** The bets of one player in order; the empty name stands for everybody. */
  function OfPlayer(bets: seq<RoundBet>, player: string): seq<RoundBet> {
    if bets == [] then []
    else
      var last := bets[|bets| - 1];
      OfPlayer(bets[..|bets| - 1], player) + if player == "" || last.player == player then [last] else []
  }

  /** `out` are the entries at the ascending places `at`, which are all those of this player, or of everybody. */
  ghost predicate PicksOut(out: seq<RoundBet>, bets: seq<RoundBet>, player: string, at: seq<nat>) {
    && |out| == |at|
    && (forall k | 0 <= k < |at| :: at[k] < |bets| && out[k] == bets[at[k]])
    && (forall j, k | 0 <= j < k < |at| :: at[j] < at[k])
    && (forall i: nat | i < |bets| :: i in at <==> player == "" || bets[i].player == player)
  }

  lemma {:induction false} WhereOfPlayer(bets: seq<RoundBet>, player: string) returns (at: seq<nat>)
    ensures PicksOut(OfPlayer(bets, player), bets, player, at)
  {
    if bets == [] {
      at := [];
    } else {
      var n := |bets| - 1;
      var before := WhereOfPlayer(bets[..n], player);
      at := before + if player == "" || bets[n].player == player then [n] else [];
      forall i: nat | i < |bets| ensures i in at <==> player == "" || bets[i].player == player {
        assert i < n ==> (i in before <==> player == "" || bets[..n][i].player == player);
      }
    }
  }

  lemma PickedOut(out: seq<RoundBet>, bets: seq<RoundBet>, player: string, at: seq<nat>)
    requires PicksOut(out, bets, player, at)
    ensures player != "" ==> forall b :: b in out <==> b in bets && b.player == player
  {
    if player != "" {
      forall b ensures b in out <==> b in bets && b.player == player {
        if b in bets && b.player == player {
          var i: nat :| i < |bets| && bets[i] == b;
          var k :| 0 <= k < |at| && at[k] == i;
          assert out[k] == b;
        }
        if b in out {
          var k :| 0 <= k < |out| && out[k] == b;
          assert at[k] in at;
        }
      }
    }
  }

  lemma {:induction false} AllPlayers(bets: seq<RoundBet>)
    ensures OfPlayer(bets, "") == bets
  {
    if bets != [] {
      AllPlayers(bets[..|bets| - 1]);
    }
  }
}
