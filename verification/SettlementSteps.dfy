/**
 Every action of the settlement machine keeps the invariant: for each action, one lemma per part of
 the invariant that the action can affect.
 */
module SettlementSteps {
  import opened Common
  import opened Sessions
  import opened Rounds
  import opened ManagerState
  import opened Settlement
  import opened SettlementInvariant
  import W = Wallet
  import Rtp

  // ---------------------------------------------------------------------------
  // Moves that concern only some of the parts
  // ---------------------------------------------------------------------------

  /** A bet appears or moves between stages that the round bookkeeping says nothing about. */
  lemma FilingOtherBet(s: State, b: nat, rec: BetRec)
    requires Filing(s) && Slot(rec.stage).None?
    requires b in s.bets ==> rec == s.bets[b].(stage := rec.stage) && Slot(s.bets[b].stage).None?
    requires rec.stage.RoundDebited? ==>
      rec.stage.r in s.sh.rounds && InRange(rec.stage.amount) && rec.units == Units(rec.stage.amount)
    ensures Filing(s.(bets := s.bets[b := rec]))
  {
    SlotsSameSlot(s.sh.rounds, s.bets, b, rec);
  }

  /** A run moves on without touching round bets. */
  lemma FilingOtherPc(s: State, t: nat, pc: Pc, winners: map<nat, int>)
    requires Filing(s) && t in s.runs && !s.runs[t].pc.Pay? && (pc.Pay? ==> pc.j == 0)
    requires winners == s.winners || (t !in s.winners && t in winners && winners == s.winners[t := winners[t]])
    ensures Filing(SetPc(s, t, pc).(winners := winners))
  {
    forall b | b in s.bets && s.bets[b].stage.RoundSettled?
      ensures Earned(s.sh.rounds, s.runner, winners, s.bets[b].stage)
    {
      assert Earned(s.sh.rounds, s.runner, s.winners, s.bets[b].stage);
    }
  }

  lemma FilingFail(s: State, t: nat)
    requires Filing(s) && t in s.runs
    ensures Filing(FailRun(s, t))
  {
  }

  /** A bet moves between stages that the session bookkeeping says nothing about. */
  lemma SeatingOtherBet(s: State, b: nat, rec: BetRec)
    requires Seating(s) && Seat(rec.stage).None? && !rec.stage.SeatSettled?
    requires b in s.bets ==>
      rec == s.bets[b].(stage := rec.stage) && Seat(s.bets[b].stage).None? && !s.bets[b].stage.SeatSettled?
    requires rec.stage.SessionDebited? ==>
      rec.stage.s in s.sh.sessions && s.sh.sessions[rec.stage.s].player == rec.player
    ensures Seating(s.(bets := s.bets[b := rec]))
  {
    SeatsSameSeat(s.sh.sessions, s.bets, b, rec);
    QueueOtherBet(s.sh.sessions, s.sh.queue, s.bets, b, rec);
    ReadyOtherBet(s.sh.sessions, s.bets, s.runs, s.winners, Prize(s.cfg), b, rec);
  }

  /** A run moves on without touching seats, possibly learning its winner. */
  lemma SeatingOtherPc(s: State, t: nat, run: Run, winners: map<nat, int>)
    requires Seating(s) && t in s.runs && RunShape(run, t in winners, s.cfg.maxMarbles)
    requires run.list == s.runs[t].list && run.Low() == s.runs[t].Low() && !s.runs[t].pc.Settle?
    requires forall k: nat | k < |run.list| :: run.Assigned(k) == s.runs[t].Assigned(k)
    requires winners == s.winners || (t !in s.winners && t in winners && winners == s.winners[t := winners[t]])
    ensures Seating(s.(runs := s.runs[t := run], winners := winners))
  {
    ReadySameSeats(s.sh.sessions, s.bets, s.runs, s.winners, Prize(s.cfg), t, run, winners);
    RunningSameSeats(s.bets, s.runs, s.failed, s.winners, Prize(s.cfg), t, run, winners);
    forall b | b in s.bets && s.bets[b].stage.SeatSettled?
      ensures SeatVerdict(s.runs[t := run], winners, s.bets[b].stage, Prize(s.cfg))
    {
      assert SeatVerdict(s.runs, s.winners, s.bets[b].stage, Prize(s.cfg));
    }
  }

  lemma SeatingStop(s: State, t: nat, fails: bool)
    requires Seating(s) && t in s.runs && !s.runs[t].pc.Settle?
    requires fails || s.runs[t].Low() == |s.runs[t].list|
    ensures Seating(s.(runs := s.runs - {t}, failed := if fails then s.failed + {t} else s.failed,
                       ended := if fails then s.ended else s.ended + {t}))
  {
    RunningStop(s.bets, s.runs, s.failed, s.winners, Prize(s.cfg), t, fails);
    forall u | u in s.runs - {t} ensures RunReady(s.sh.sessions, s.bets, s.runs[u], u, s.winners, Prize(s.cfg)) {
      assert RunReady(s.sh.sessions, s.bets, s.runs[u], u, s.winners, Prize(s.cfg));
    }
    forall b | b in s.bets && s.bets[b].stage.SeatSettled?
      ensures SeatVerdict(s.runs - {t}, s.winners, s.bets[b].stage, Prize(s.cfg))
    {
      assert SeatVerdict(s.runs, s.winners, s.bets[b].stage, Prize(s.cfg));
    }
  }

  // ---------------------------------------------------------------------------
  // Sessions
  // ---------------------------------------------------------------------------

  lemma OpenKeeps(s: State, x: Addr, player: string)
    requires Seating(s) && x !in s.sh.sessions && player != ""
    ensures Seating(s.(sh := s.sh.(sessions := s.sh.sessions[x := Opened(player)])))
  {
    SeatsOpen(s.sh.sessions, s.bets, x, player);
    forall b | b in s.bets && IsWaiting(s.bets[b].stage) ensures s.bets[b].stage.s != x {
      assert InPhaseBet(s.sh.sessions, s.bets[b].stage.s);
    }
    QueueOtherSession(s.sh.sessions, s.sh.queue, s.bets, x, Opened(player));
    ReadyOtherSession(s.sh.sessions, s.bets, s.runs, s.winners, Prize(s.cfg), x, Opened(player));
  }

  lemma CloseKeeps(s: State, x: Addr)
    requires Seating(s) && x in s.sh.sessions
    ensures Seating(s.(sh := s.sh.(sessions := s.sh.sessions[x := s.sh.sessions[x].Close().0])))
  {
    var session := s.sh.sessions[x].Close().0;
    assert SessionOk(s.sh.sessions[x], x, s.bets);
    if session == s.sh.sessions[x] {
      assert s.sh.sessions[x := session] == s.sh.sessions;
    } else {
      SeatsSameBet(s.sh.sessions, s.bets, x, session);
      SeatIsUnique(s.sh.sessions, s.bets, x);
      QueueOtherSession(s.sh.sessions, s.sh.queue, s.bets, x, session);
      ReadyOtherSession(s.sh.sessions, s.bets, s.runs, s.winners, Prize(s.cfg), x, session);
    }
  }

  /** The session that bet b asks, after it has answered. */
  function Asked(s: State, b: nat): (SessionState, Option<Sessions.Error>)
    requires b in s.bets && s.bets[b].stage.SessionDebited? && s.bets[b].stage.s in s.sh.sessions
  {
    s.sh.sessions[s.bets[b].stage.s].PlaceBet(SessionBet(b, s.bets[b].units, s.bets[b].player, 0))
  }

  function AskedStage(s: State, b: nat): Stage
    requires b in s.bets && s.bets[b].stage.SessionDebited? && s.bets[b].stage.s in s.sh.sessions
  {
    if Asked(s, b).1.None? then Seated(s.bets[b].stage.s) else SessionRefused
  }

  lemma AskKeeps(s: State, b: nat)
    requires Seating(s) && b in s.bets && s.bets[b].stage.SessionDebited? && s.bets[b].stage.s in s.sh.sessions
    ensures Seating(s.(sh := s.sh.(sessions := s.sh.sessions[s.bets[b].stage.s := Asked(s, b).0]),
                       bets := s.bets[b := s.bets[b].(stage := AskedStage(s, b))]))
  {
    SeatsAsk(s.sh.sessions, s.bets, b);
    AskQueue(s, b);
    AskReady(s, b);
    QuietRunning(s, b, AskedStage(s, b));
  }

  /** A bet that is neither running nor settled moves to such a stage again. */
  lemma QuietRunning(s: State, b: nat, st: Stage)
    requires RunningMatches(s.bets, s.runs, s.failed, s.winners, Prize(s.cfg))
    requires SeatsSettledOnce(s.bets, s.runs, s.winners, Prize(s.cfg)) && b in s.bets
    requires !IsRunning(st) && !st.SeatSettled?
    ensures
      var bets := s.bets[b := s.bets[b].(stage := st)];
      && RunningMatches(bets, s.runs, s.failed, s.winners, Prize(s.cfg))
      && SeatsSettledOnce(bets, s.runs, s.winners, Prize(s.cfg))
  {
  }

  lemma AskQueue(s: State, b: nat)
    requires SeatsMatch(s.sh.sessions, s.bets) && QueueMatches(s.sh.sessions, s.sh.queue, s.bets)
    requires b in s.bets && s.bets[b].stage.SessionDebited? && s.bets[b].stage.s in s.sh.sessions
    ensures QueueMatches(s.sh.sessions[s.bets[b].stage.s := Asked(s, b).0], s.sh.queue,
                         s.bets[b := s.bets[b].(stage := AskedStage(s, b))])
  {
    var x := s.bets[b].stage.s;
    var session := Asked(s, b).0;
    assert SessionOk(s.sh.sessions[x], x, s.bets);
    if Asked(s, b).1.None? {
      SeatIsUnique(s.sh.sessions, s.bets, x);
      QueueOtherSession(s.sh.sessions, s.sh.queue, s.bets, x, session);
    } else {
      assert s.sh.sessions[x := session] == s.sh.sessions;
    }
    QueueOtherBet(s.sh.sessions[x := session], s.sh.queue, s.bets, b, s.bets[b].(stage := AskedStage(s, b)));
  }

  lemma AskReady(s: State, b: nat)
    requires SeatsMatch(s.sh.sessions, s.bets) && SeatsReady(s.sh.sessions, s.bets, s.runs, s.winners, Prize(s.cfg))
    requires b in s.bets && s.bets[b].stage.SessionDebited? && s.bets[b].stage.s in s.sh.sessions
    ensures SeatsReady(s.sh.sessions[s.bets[b].stage.s := Asked(s, b).0],
                       s.bets[b := s.bets[b].(stage := AskedStage(s, b))], s.runs, s.winners, Prize(s.cfg))
  {
    var x := s.bets[b].stage.s;
    var session := Asked(s, b).0;
    assert SessionOk(s.sh.sessions[x], x, s.bets);
    ReadyOtherSession(s.sh.sessions, s.bets, s.runs, s.winners, Prize(s.cfg), x, session);
    ReadyOtherBet(s.sh.sessions[x := session], s.bets, s.runs, s.winners, Prize(s.cfg), b,
                  s.bets[b].(stage := AskedStage(s, b)));
  }

  lemma QueueKeeps(s: State, b: nat)
    requires Seating(s) && b in s.bets && s.bets[b].stage.Seated?
    ensures
      var x := s.bets[b].stage.s;
      Seating(s.(sh := s.sh.Enqueue(x), bets := s.bets[b := s.bets[b].(stage := Queued(x))]))
  {
    var rec := s.bets[b].(stage := Queued(s.bets[b].stage.s));
    SeatsSameSeat(s.sh.sessions, s.bets, b, rec);
    QueueAppend(s.sh.sessions, s.sh.queue, s.bets, b);
    ReadyOtherBet(s.sh.sessions, s.bets, s.runs, s.winners, Prize(s.cfg), b, rec);
  }

  // ---------------------------------------------------------------------------
  // Rounds
  // ---------------------------------------------------------------------------

  /** A fresh round: pending, or at once in the hands of run t. */
  lemma MintKeeps(s: State, r: Addr, spec: RoundSpec)
    requires Filing(s) && r !in s.sh.rounds && spec.roundId !in s.sh.roundBets
    ensures Filing(s.(sh := s.sh.Mint(r, spec)))
  {
    NewRoundIds(s.sh.rounds, s.sh.roundBets, r, spec);
    SlotsNewRound(s.sh.rounds, s.bets, r, spec);
    NewRoundEarnings(s, r, spec, s.runner);
    NoRunHas(s, r);
  }

  lemma RegisterKeeps(s: State, r: Addr, spec: RoundSpec, t: nat)
    requires Filing(s) && r !in s.sh.rounds && spec.roundId !in s.sh.roundBets
    requires t in s.runs && s.runs[t].r.None? && !s.runs[t].pc.Pay?
    ensures Filing(s.(sh := s.sh.Register(r, spec), runner := s.runner[r := t],
                      runs := s.runs[t := s.runs[t].(r := Some(r))]))
  {
    NewRoundIds(s.sh.rounds, s.sh.roundBets, r, spec);
    SlotsNewRound(s.sh.rounds, s.bets, r, spec);
    NewRoundEarnings(s, r, spec, s.runner[r := t]);
    RegisterRunner(s, r, t);
    RegisterProgress(s, r, t);
  }

  lemma RegisterRunner(s: State, r: Addr, t: nat)
    requires Popping(s.sh.rounds, s.sh.pendingRounds, s.runner) && RunnerMatches(s.runner, s.runs, s.failed, s.ended)
    requires PayInBounds(s.runs, s.sh.rounds) && r !in s.sh.rounds
    requires t in s.runs && s.runs[t].r.None? && !s.runs[t].pc.Pay?
    ensures var runs := s.runs[t := s.runs[t].(r := Some(r))];
      RunnerMatches(s.runner[r := t], runs, s.failed, s.ended)
    ensures forall spec: RoundSpec ::
      Popping(s.sh.rounds[r := PendingRound(spec, [])], s.sh.pendingRounds, s.runner[r := t])
    ensures forall spec: RoundSpec ::
      PayInBounds(s.runs[t := s.runs[t].(r := Some(r))], s.sh.rounds[r := PendingRound(spec, [])])
  {
    NoRunHas(s, r);
  }

  lemma NoRunHas(s: State, r: Addr)
    requires Popping(s.sh.rounds, s.sh.pendingRounds, s.runner) && RunnerMatches(s.runner, s.runs, s.failed, s.ended)
    requires r !in s.sh.rounds
    ensures r !in s.runner && forall t | t in s.runs :: s.runs[t].r != Some(r)
  {
  }

  lemma NewRoundEarnings(s: State, r: Addr, spec: RoundSpec, runner: map<Addr, nat>)
    requires Earnings(s.sh.rounds, s.bets, s.runner, s.winners) && r !in s.sh.rounds
    requires runner == s.runner || (r in runner && runner == s.runner[r := runner[r]])
    ensures Earnings(s.sh.rounds[r := PendingRound(spec, [])], s.bets, runner, s.winners)
  {
    forall b | b in s.bets && s.bets[b].stage.RoundSettled?
      ensures Earned(s.sh.rounds[r := PendingRound(spec, [])], runner, s.winners, s.bets[b].stage)
    {
      assert Earned(s.sh.rounds, s.runner, s.winners, s.bets[b].stage);
    }
  }

  lemma RegisterProgress(s: State, r: Addr, t: nat)
    requires SlotsMatch(s.sh.rounds, s.bets) && SlotProgress(s.bets, s.runner, s.runs, s.failed, s.ended)
    requires r !in s.sh.rounds && t in s.runs && !s.runs[t].pc.Pay?
    ensures SlotProgress(s.bets, s.runner[r := t], s.runs[t := s.runs[t].(r := Some(r))], s.failed, s.ended)
  {
    forall b | b in s.bets && Slot(s.bets[b].stage).Some? ensures Slot(s.bets[b].stage).value.0 != r {
      assert InItsSlot(s.sh.rounds, b, Slot(s.bets[b].stage).value.0, Slot(s.bets[b].stage).value.1);
    }
  }

  lemma NewRoundIds(rounds: RoundTable, roundBets: map<nat, seq<RoundBet>>, r: Addr, spec: RoundSpec)
    requires RoundIds(rounds, roundBets) && r !in rounds && spec.roundId !in roundBets
    ensures RoundIds(rounds[r := PendingRound(spec, [])], roundBets[spec.roundId := []])
  {
    forall q | q in rounds
      ensures rounds[q].spec.roundId != spec.roundId && Mirrored(rounds[q], roundBets[spec.roundId := []])
    {
      assert Mirrored(rounds[q], roundBets);
    }
  }

  /** With unique round ids, re-validation finds the very round that was looked up before the debit. */
  lemma RevalidationIsExact(s: State, r: Addr)
    requires Filing(s) && r in s.sh.rounds
    ensures s.sh.FindPendingRound(s.sh.rounds[r].spec.roundId) == (if r in s.sh.pendingRounds then Some(r) else None)
  {
    s.sh.FindFromSpec(s.sh.rounds[r].spec.roundId, 0);
  }

  /** The bet that re-validation files. */
  function NewEntry(s: State, b: nat): RoundBet
    requires b in s.bets && s.bets[b].stage.RoundDebited? && s.bets[b].stage.r in s.sh.rounds
  {
    var st := s.bets[b].stage;
    RoundBet(b, s.bets[b].player, s.sh.rounds[st.r].spec.roundId, st.marble, st.amount)
  }

  lemma PlaceKeeps(s: State, b: nat)
    requires Filing(s) && b in s.bets && s.bets[b].stage.RoundDebited? && s.bets[b].stage.r in s.sh.pendingRounds
    ensures s.bets[b].stage.r in s.sh.rounds
    ensures
      var r := s.bets[b].stage.r;
      && s.sh.PlaceOnRound(r, NewEntry(s, b)).1
      && Filing(s.(sh := s.sh.PlaceOnRound(r, NewEntry(s, b)).0,
                   bets := s.bets[b := s.bets[b].(stage := OnRound(r, |s.sh.rounds[r].bets|))]))
  {
    var r := s.bets[b].stage.r;
    var rb := NewEntry(s, b);
    RevalidationIsExact(s, r);
    PlaceRoundIds(s.sh.rounds, s.sh.roundBets, r, rb);
    SlotsAppend(s.sh.rounds, s.bets, b, rb);
    PlaceEarnings(s.sh.rounds, s.bets, s.runner, s.winners, r, b, rb);
    PlaceProgress(s, r, b, rb);
  }

  lemma PlaceEarnings(rounds: RoundTable, bets: Bets, runner: map<Addr, nat>, winners: map<nat, int>, r: Addr, b: nat,
                      rb: RoundBet)
    requires Earnings(rounds, bets, runner, winners) && b in bets && r in rounds
    ensures Earnings(rounds[r := rounds[r].(bets := rounds[r].bets + [rb])],
                     bets[b := bets[b].(stage := OnRound(r, |rounds[r].bets|))], runner, winners)
  {
    var rounds' := rounds[r := rounds[r].(bets := rounds[r].bets + [rb])];
    var bets' := bets[b := bets[b].(stage := OnRound(r, |rounds[r].bets|))];
    forall c | c in bets' && bets'[c].stage.RoundSettled? ensures Earned(rounds', runner, winners, bets'[c].stage) {
      assert Earned(rounds, runner, winners, bets[c].stage);
    }
  }

  lemma PlaceProgress(s: State, r: Addr, b: nat, rb: RoundBet)
    requires SlotProgress(s.bets, s.runner, s.runs, s.failed, s.ended) && PayInBounds(s.runs, s.sh.rounds)
    requires Popping(s.sh.rounds, s.sh.pendingRounds, s.runner) && r in s.sh.pendingRounds && b in s.bets
    ensures SlotProgress(s.bets[b := s.bets[b].(stage := OnRound(r, |s.sh.rounds[r].bets|))], s.runner, s.runs,
        s.failed, s.ended)
    ensures PayInBounds(s.runs, s.sh.rounds[r := s.sh.rounds[r].(bets := s.sh.rounds[r].bets + [rb])])
  {
  }

  lemma PlaceRoundIds(rounds: RoundTable, roundBets: map<nat, seq<RoundBet>>, r: Addr, rb: RoundBet)
    requires RoundIds(rounds, roundBets) && r in rounds && rb.roundId == rounds[r].spec.roundId
    ensures rb.roundId in roundBets
    ensures RoundIds(rounds[r := rounds[r].(bets := rounds[r].bets + [rb])],
                     roundBets[rb.roundId := roundBets[rb.roundId] + [rb]])
  {
    assert Mirrored(rounds[r], roundBets);
    var rounds' := rounds[r := rounds[r].(bets := rounds[r].bets + [rb])];
    var roundBets' := roundBets[rb.roundId := roundBets[rb.roundId] + [rb]];
    forall q | q in rounds' ensures Mirrored(rounds'[q], roundBets') {
      assert Mirrored(rounds[q], roundBets);
    }
  }

  // ---------------------------------------------------------------------------
  // Taking the queue and the next round
  // ---------------------------------------------------------------------------

  lemma TakeSeating(s: State, t: nat, r: Option<Addr>)
    requires Seating(s) && IsFresh(s, t)
    ensures Seating(s.(sh := s.sh.(queue := []), bets := LaunchAll(s.bets, t),
                       runs := s.runs[t := Run(s.sh.queue, r, Taken)]))
  {
    SeatsLaunch(s.sh.sessions, s.bets, t);
    TakeQueue(s.sh.sessions, s.sh.queue, s.bets, t);
    ReadyTake(s.sh.sessions, s.sh.queue, s.bets, s.runs, s.winners, Prize(s.cfg), t, r);
    RunningTake(s.sh.sessions, s.sh.queue, s.bets, s.runs, s.failed, s.winners, Prize(s.cfg), t, r);
    TakeVerdicts(s, t, r);
  }

  lemma TakeQueue(sessions: SessionTable, queue: seq<Addr>, bets: Bets, t: nat)
    requires QueueMatches(sessions, queue, bets)
    ensures QueueMatches(sessions, [], LaunchAll(bets, t))
  {
    var bets' := LaunchAll(bets, t);
    forall b | b in bets' && IsWaiting(bets'[b].stage) ensures InPhaseBet(sessions, bets'[b].stage.s) {
      assert IsWaiting(bets[b].stage);
    }
  }

  lemma TakeVerdicts(s: State, t: nat, r: Option<Addr>)
    requires SeatsSettledOnce(s.bets, s.runs, s.winners, Prize(s.cfg)) && IsFresh(s, t)
    requires RunsShape(s.runs, s.failed, s.ended, s.winners, s.cfg.maxMarbles)
    ensures SeatsSettledOnce(LaunchAll(s.bets, t), s.runs[t := Run(s.sh.queue, r, Taken)], s.winners, Prize(s.cfg))
    ensures RunsShape(s.runs[t := Run(s.sh.queue, r, Taken)], s.failed, s.ended, s.winners, s.cfg.maxMarbles)
      <==> NoDuplicates(s.sh.queue)
  {
    var bets := LaunchAll(s.bets, t);
    var runs := s.runs[t := Run(s.sh.queue, r, Taken)];
    forall b | b in bets && bets[b].stage.SeatSettled?
      ensures SeatVerdict(runs, s.winners, bets[b].stage, Prize(s.cfg))
    {
      assert SeatVerdict(s.runs, s.winners, s.bets[b].stage, Prize(s.cfg));
    }
    assert RunShape(runs[t], t in s.winners, s.cfg.maxMarbles) <==> NoDuplicates(s.sh.queue);
    if NoDuplicates(s.sh.queue) {
      forall u | u in runs
        ensures u !in s.failed && u !in s.ended && RunShape(runs[u], u in s.winners, s.cfg.maxMarbles) {}
    } else {
      assert !RunShape(runs[t], t in s.winners, s.cfg.maxMarbles);
    }
  }

  lemma TakeFiling(s: State, t: nat, list: seq<Addr>)
    requires Filing(s) && IsFresh(s, t)
    ensures
      var (sh, _, r) := s.sh.Take();
      Filing(s.(sh := sh, bets := LaunchAll(s.bets, t), runs := s.runs[t := Run(list, r, Taken)],
                runner := if r.Some? then s.runner[r.value := t] else s.runner))
  {
    var (sh, _, r) := s.sh.Take();
    TakeRounds(s, t);
    SlotsLaunch(s.sh.rounds, s.bets, t);
    TakeSettled(s, t, list, r);
  }

  lemma TakeRounds(s: State, t: nat)
    requires IsFresh(s, t)
    requires Popping(s.sh.rounds, s.sh.pendingRounds, s.runner)
    ensures
      var (sh, _, r) := s.sh.Take();
      && Popping(s.sh.rounds, sh.pendingRounds, if r.Some? then s.runner[r.value := t] else s.runner)
      && (r.Some? ==> r.value in s.sh.rounds && r.value !in s.runner)
  {
    if s.sh.pendingRounds != [] {
      var r := s.sh.pendingRounds[0];
      var rest := s.sh.pendingRounds[1..];
      forall i | 0 <= i < |rest| ensures rest[i] != r && rest[i] in s.sh.rounds {
        assert rest[i] == s.sh.pendingRounds[i + 1];
      }
      forall q | q in s.sh.rounds ensures q in rest <==> q !in s.runner[r := t] {
        assert q in s.sh.pendingRounds <==> q == r || q in rest;
      }
      assert NoDuplicates(rest);
    }
  }

  /** Taking a round leaves what was settled as it was. */
  lemma TakeSettled(s: State, t: nat, list: seq<Addr>, r: Option<Addr>)
    requires IsFresh(s, t)
    requires RunnerMatches(s.runner, s.runs, s.failed, s.ended)
    requires Earnings(s.sh.rounds, s.bets, s.runner, s.winners)
    requires SlotProgress(s.bets, s.runner, s.runs, s.failed, s.ended)
    requires PayInBounds(s.runs, s.sh.rounds)
    requires r.Some? ==> r.value in s.sh.rounds && r.value !in s.runner
    ensures
      var runner := if r.Some? then s.runner[r.value := t] else s.runner;
      var runs := s.runs[t := Run(list, r, Taken)];
      var bets := LaunchAll(s.bets, t);
      && RunnerMatches(runner, runs, s.failed, s.ended)
      && Earnings(s.sh.rounds, bets, runner, s.winners)
      && SlotProgress(bets, runner, runs, s.failed, s.ended)
      && PayInBounds(runs, s.sh.rounds)
  {
    var runner := if r.Some? then s.runner[r.value := t] else s.runner;
    var runs := s.runs[t := Run(list, r, Taken)];
    var bets := LaunchAll(s.bets, t);
    forall b | b in bets && bets[b].stage.RoundSettled?
      ensures Earned(s.sh.rounds, runner, s.winners, bets[b].stage)
      ensures || PastSlot(runner, runs, s.ended, bets[b].stage.r, bets[b].stage.i)
              || (bets[b].stage.r in runner && runner[bets[b].stage.r] in s.failed)
    {
      assert Earned(s.sh.rounds, s.runner, s.winners, s.bets[b].stage);
    }
    forall b | b in bets && bets[b].stage.OnRound?
      ensures !PastSlot(runner, runs, s.ended, bets[b].stage.r, bets[b].stage.i)
    {
      assert !PastSlot(s.runner, s.runs, s.ended, s.bets[b].stage.r, s.bets[b].stage.i);
    }
  }

  // ---------------------------------------------------------------------------
  // Racing and settling seats
  // ---------------------------------------------------------------------------

  /** The two halves of `Seating`: the seats, and the runs. */
  ghost predicate SeatedWell(s: State) {
    && SeatsMatch(s.sh.sessions, s.bets)
    && QueueMatches(s.sh.sessions, s.sh.queue, s.bets)
    && SeatsReady(s.sh.sessions, s.bets, s.runs, s.winners, Prize(s.cfg))
  }

  ghost predicate RunsWell(s: State) {
    && RunsShape(s.runs, s.failed, s.ended, s.winners, s.cfg.maxMarbles)
    && RunningMatches(s.bets, s.runs, s.failed, s.winners, Prize(s.cfg))
    && SeatsSettledOnce(s.bets, s.runs, s.winners, Prize(s.cfg))
  }

  /** The runs do not depend on what the Manager's lock guards. */
  lemma SessionsApart(s: State, s': State)
    requires RunsWell(s) && s' == s.(sh := s'.sh)
    ensures RunsWell(s')
  {
  }

  /** The seat whose turn it is to be assigned or settled. */
  lemma SeatInTurn(s: State, t: nat, i: nat)
    requires SeatedWell(s) && t in s.runs && s.runs[t].Low() <= i < |s.runs[t].list|
    ensures SeatReady(s.sh.sessions, s.bets, s.runs[t], t, i, s.winners, Prize(s.cfg))
    ensures var x := s.runs[t].list[i];
      && x in s.sh.sessions && s.sh.sessions[x].bet.Some? && SessionOk(s.sh.sessions[x], x, s.bets)
      && s.sh.sessions[x].bet.value.id in s.bets
  {
    assert RunReady(s.sh.sessions, s.bets, s.runs[t], t, s.winners, Prize(s.cfg));
    assert SeatReady(s.sh.sessions, s.bets, s.runs[t], t, i, s.winners, Prize(s.cfg));
  }

  /** The session that run t assigns next. */
  function InTurn(s: State, t: nat, i: nat): Addr
    requires t in s.runs && i < |s.runs[t].list|
  {
    s.runs[t].list[i]
  }

  /** The state once the session in turn has taken its marble. */
  function WithMarble(s: State, t: nat): State
    requires t in s.runs && s.runs[t].pc.Assign? && s.runs[t].pc.i < |s.runs[t].list|
    requires InTurn(s, t, s.runs[t].pc.i) in s.sh.sessions
  {
    var i := s.runs[t].pc.i;
    var x := InTurn(s, t, i);
    SetPc(s, t, Assign(i + 1)).(sh := s.sh.(sessions := s.sh.sessions[x := s.sh.sessions[x].AssignMarble(i).0]))
  }

  /** Assigning the next marble, which the session accepts. */
  lemma AssignKeeps(s: State, t: nat)
    requires Seating(s) && t in s.runs && s.runs[t].pc.Assign? && s.runs[t].pc.i < |s.runs[t].list|
    requires InTurn(s, t, s.runs[t].pc.i) in s.sh.sessions
    requires s.sh.sessions[InTurn(s, t, s.runs[t].pc.i)].AssignMarble(s.runs[t].pc.i).1.None?
    ensures Seating(WithMarble(s, t))
  {
    assert RunShape(s.runs[t], t in s.winners, s.cfg.maxMarbles);
    AssignKeepsSeats(s, t);
    AssignKeepsRuns(s, t);
  }

  lemma AssignKeepsRuns(s: State, t: nat)
    requires RunsWell(s) && t in s.runs && s.runs[t].pc.Assign? && s.runs[t].pc.i < |s.runs[t].list|
    requires InTurn(s, t, s.runs[t].pc.i) in s.sh.sessions
    ensures RunsWell(WithMarble(s, t))
  {
    AssignMovesOn(s, t);
    SessionsApart(SetPc(s, t, Assign(s.runs[t].pc.i + 1)), WithMarble(s, t));
  }

  lemma AssignKeepsSeats(s: State, t: nat)
    requires SeatedWell(s) && t in s.runs && NoDuplicates(s.runs[t].list) && s.runs[t].pc.Assign?
    requires s.runs[t].pc.i < |s.runs[t].list|
    requires InTurn(s, t, s.runs[t].pc.i) in s.sh.sessions
    requires s.sh.sessions[InTurn(s, t, s.runs[t].pc.i)].AssignMarble(s.runs[t].pc.i).1.None?
    ensures SeatedWell(WithMarble(s, t))
  {
    AssignSeats(s, t);
    AssignReady(s, t, s.sh.sessions[InTurn(s, t, s.runs[t].pc.i)].AssignMarble(s.runs[t].pc.i).0);
  }

  /** The session never refuses. */
  lemma AssignAccepted(s: State, t: nat)
    requires SeatedWell(s) && t in s.runs && s.runs[t].pc.Assign? && s.runs[t].pc.i < |s.runs[t].list|
    ensures InTurn(s, t, s.runs[t].pc.i) in s.sh.sessions
    ensures s.sh.sessions[InTurn(s, t, s.runs[t].pc.i)].AssignMarble(s.runs[t].pc.i).1.None?
  {
    SeatInTurn(s, t, s.runs[t].pc.i);
  }

  lemma AssignMovesOn(s: State, t: nat)
    requires RunsWell(s) && t in s.runs && s.runs[t].pc.Assign? && s.runs[t].pc.i < |s.runs[t].list|
    ensures RunsWell(SetPc(s, t, Assign(s.runs[t].pc.i + 1)))
  {
    var run := s.runs[t].(pc := Assign(s.runs[t].pc.i + 1));
    AssignShape(s, t, run);
    RunningSameSeats(s.bets, s.runs, s.failed, s.winners, Prize(s.cfg), t, run, s.winners);
    VerdictsOtherPc(s, t, run);
  }

  lemma AssignShape(s: State, t: nat, run: Run)
    requires RunsShape(s.runs, s.failed, s.ended, s.winners, s.cfg.maxMarbles)
    requires t in s.runs && s.runs[t].pc.Assign? && s.runs[t].pc.i < |s.runs[t].list|
    requires run == s.runs[t].(pc := Assign(s.runs[t].pc.i + 1))
    ensures RunsShape(s.runs[t := run], s.failed, s.ended, s.winners, s.cfg.maxMarbles)
  {
    assert RunShape(s.runs[t], t in s.winners, s.cfg.maxMarbles);
  }

  lemma AssignSeats(s: State, t: nat)
    requires SeatedWell(s) && t in s.runs && s.runs[t].pc.Assign? && s.runs[t].pc.i < |s.runs[t].list|
    requires InTurn(s, t, s.runs[t].pc.i) in s.sh.sessions
    ensures
      var x := InTurn(s, t, s.runs[t].pc.i);
      var session := s.sh.sessions[x].AssignMarble(s.runs[t].pc.i).0;
      && SeatsMatch(s.sh.sessions[x := session], s.bets)
      && QueueMatches(s.sh.sessions[x := session], s.sh.queue, s.bets)
  {
    var i := s.runs[t].pc.i;
    var x := InTurn(s, t, i);
    SeatInTurn(s, t, i);
    var session := s.sh.sessions[x].AssignMarble(i).0;
    SeatsSameBet(s.sh.sessions, s.bets, x, session);
    SeatIsUnique(s.sh.sessions, s.bets, x);
    QueueOtherSession(s.sh.sessions, s.sh.queue, s.bets, x, session);
  }

  lemma AssignReady(s: State, t: nat, session: SessionState)
    requires SeatedWell(s) && t in s.runs && NoDuplicates(s.runs[t].list) && s.runs[t].pc.Assign?
    requires s.runs[t].pc.i < |s.runs[t].list|
    requires s.runs[t].list[s.runs[t].pc.i] in s.sh.sessions
    requires (session, None) == s.sh.sessions[s.runs[t].list[s.runs[t].pc.i]].AssignMarble(s.runs[t].pc.i)
    ensures
      var i := s.runs[t].pc.i; var x := s.runs[t].list[i];
      SeatsReady(s.sh.sessions[x := session], s.bets, s.runs[t := s.runs[t].(pc := Assign(i + 1))],
                 s.winners, Prize(s.cfg))
  {
    var i := s.runs[t].pc.i;
    SeatInTurn(s, t, i);
    var b := session.bet.value.id;
    assert s.bets[b := s.bets[b].(stage := s.bets[b].stage)] == s.bets;
    ReadyOtherSeats(s.sh.sessions, s.bets, s.runs, s.winners, Prize(s.cfg), t, i, session, b, s.bets[b].stage,
        Assign(i + 1));
  }

  /** The settled seats of every run stay below its next seat. */
  lemma VerdictsOtherPc(s: State, t: nat, run: Run)
    requires SeatsSettledOnce(s.bets, s.runs, s.winners, Prize(s.cfg)) && t in s.runs
    requires run.Low() >= s.runs[t].Low()
    ensures SeatsSettledOnce(s.bets, s.runs[t := run], s.winners, Prize(s.cfg))
  {
    forall b | b in s.bets && s.bets[b].stage.SeatSettled?
      ensures SeatVerdict(s.runs[t := run], s.winners, s.bets[b].stage, Prize(s.cfg))
    {
      assert SeatVerdict(s.runs, s.winners, s.bets[b].stage, Prize(s.cfg));
    }
  }

  /** Crediting the winner moves its bet to the till. */
  lemma PayWinnerKeeps(s: State, t: nat)
    requires Seating(s) && t in s.runs && s.runs[t].pc.Settle? && t in s.winners && SeatIsWinner(s, t)
    requires !s.bets[SeatBet(s, t).id].stage.Paid?
    ensures
      var x := s.runs[t].list[s.runs[t].pc.i]; var b := SeatBet(s, t).id;
      && s.bets[b].stage == Running(x, t)
      && s.sh.sessions[x].player == s.bets[b].player
      && Seating(SetStage(s, b, Paid(x, t, Prize(s.cfg))))
  {
    var i := s.runs[t].pc.i;
    var x := s.runs[t].list[i];
    var b := SeatBet(s, t).id;
    var rec := s.bets[b].(stage := Paid(x, t, Prize(s.cfg)));
    SeatInTurn(s, t, i);
    SeatsSameSeat(s.sh.sessions, s.bets, b, rec);
    QueueOtherBet(s.sh.sessions, s.sh.queue, s.bets, b, rec);
    PayWinnerReady(s, t);
  }

  lemma PayWinnerReady(s: State, t: nat)
    requires Seating(s) && t in s.runs && s.runs[t].pc.Settle? && t in s.winners && SeatIsWinner(s, t)
    requires s.bets[SeatBet(s, t).id].stage == Running(s.runs[t].list[s.runs[t].pc.i], t)
    ensures
      var x := s.runs[t].list[s.runs[t].pc.i]; var b := SeatBet(s, t).id;
      SeatsReady(s.sh.sessions, s.bets[b := s.bets[b].(stage := Paid(x, t, Prize(s.cfg)))], s.runs, s.winners,
          Prize(s.cfg))
  {
    var i := s.runs[t].pc.i;
    var x := s.runs[t].list[i];
    var b := SeatBet(s, t).id;
    var bets := s.bets[b := s.bets[b].(stage := Paid(x, t, Prize(s.cfg)))];
    SeatInTurn(s, t, i);
    forall u | u in s.runs ensures RunReady(s.sh.sessions, bets, s.runs[u], u, s.winners, Prize(s.cfg)) {
      assert RunReady(s.sh.sessions, s.bets, s.runs[u], u, s.winners, Prize(s.cfg));
      forall k | s.runs[u].Low() <= k < |s.runs[u].list|
        ensures SeatReady(s.sh.sessions, bets, s.runs[u], u, k, s.winners, Prize(s.cfg))
      {
        assert SeatReady(s.sh.sessions, s.bets, s.runs[u], u, k, s.winners, Prize(s.cfg));
        assert SessionOk(s.sh.sessions[s.runs[u].list[k]], s.runs[u].list[k], s.bets);
      }
    }
  }

  /** What settling the seat in turn decides. */
  function Verdict(s: State, t: nat): Stage
    requires t in s.runs && s.runs[t].pc.Settle? && t in s.winners && SeatHasBet(s, t)
  {
    SeatSettled(t, s.runs[t].pc.i, if SeatIsWinner(s, t) then Some(Prize(s.cfg)) else None)
  }

  /** The state once the verdict is filed, before the session has been told. */
  function VerdictFiled(s: State, t: nat): State
    requires t in s.runs && s.runs[t].pc.Settle? && t in s.winners && SeatHasBet(s, t)
  {
    var b := SeatBet(s, t).id;
    s.(runs := s.runs[t := s.runs[t].(pc := Pc.Settle(s.runs[t].pc.i + 1))],
       bets := s.bets[b := s.bets[b].(stage := Verdict(s, t))])
  }

  /** The state once the session in turn has settled. */
  function WithVerdict(s: State, t: nat, o: Outcome): State
    requires t in s.runs && s.runs[t].pc.Settle? && t in s.winners && SeatHasBet(s, t)
  {
    var x := InTurn(s, t, s.runs[t].pc.i);
    VerdictFiled(s, t).(sh := s.sh.(sessions := s.sh.sessions[x := s.sh.sessions[x].Settle(o).0]))
  }

  /** Settling the seat in turn: the session never refuses. */
  lemma SettleKeeps(s: State, t: nat, o: Outcome)
    requires Seating(s) && t in s.runs && s.runs[t].pc.Settle? && t in s.winners && SeatHasBet(s, t)
    requires SeatIsWinner(s, t) ==> s.bets[SeatBet(s, t).id].stage.Paid?
    ensures s.sh.sessions[InTurn(s, t, s.runs[t].pc.i)].Settle(o).1.None?
    ensures Won(s.bets[SeatBet(s, t).id].stage) == Won(Verdict(s, t))
    ensures Seating(WithVerdict(s, t, o))
  {
    assert RunShape(s.runs[t], t in s.winners, s.cfg.maxMarbles);
    SettleAccepted(s, t, o);
    SettleKeepsSeats(s, t, o);
    SettleRunning(s, t);
    SettleMovesOn(s, t);
    SessionsApart(VerdictFiled(s, t), WithVerdict(s, t, o));
  }

  lemma SettleKeepsSeats(s: State, t: nat, o: Outcome)
    requires SeatedWell(s) && t in s.runs && NoDuplicates(s.runs[t].list) && s.runs[t].pc.Settle? && t in s.winners
    requires SeatHasBet(s, t)
    ensures SeatedWell(WithVerdict(s, t, o))
  {
    SettleSeats(s, t, o);
    SettleReady(s, t, s.sh.sessions[InTurn(s, t, s.runs[t].pc.i)].Settle(o).0);
  }

  lemma SettleAccepted(s: State, t: nat, o: Outcome)
    requires SeatedWell(s) && t in s.runs && s.runs[t].pc.Settle? && t in s.winners && SeatHasBet(s, t)
    requires SeatIsWinner(s, t) ==> s.bets[SeatBet(s, t).id].stage.Paid?
    ensures s.sh.sessions[InTurn(s, t, s.runs[t].pc.i)].Settle(o).1.None?
    ensures Won(s.bets[SeatBet(s, t).id].stage) == Won(Verdict(s, t))
    ensures SeatIsWinner(s, t) <==> s.runs[t].pc.i == s.winners[t]
  {
    SeatInTurn(s, t, s.runs[t].pc.i);
  }

  lemma SettleMovesOn(s: State, t: nat)
    requires RunsWell(s) && t in s.runs && s.runs[t].pc.Settle? && t in s.winners && SeatHasBet(s, t)
    requires SeatIsWinner(s, t) <==> s.runs[t].pc.i == s.winners[t]
    requires RunningMatches(VerdictFiled(s, t).bets, VerdictFiled(s, t).runs, s.failed, s.winners, Prize(s.cfg))
    ensures RunsWell(VerdictFiled(s, t))
  {
    SettleVerdicts(s, t);
    SettleShape(s, t);
  }

  lemma SettleReady(s: State, t: nat, session: SessionState)
    requires SeatedWell(s) && t in s.runs && NoDuplicates(s.runs[t].list) && s.runs[t].pc.Settle? && t in s.winners
    requires SeatHasBet(s, t)
    ensures
      var i := s.runs[t].pc.i; var x := s.runs[t].list[i]; var b := SeatBet(s, t).id;
      SeatsReady(s.sh.sessions[x := session], s.bets[b := s.bets[b].(stage := Verdict(s, t))],
                 s.runs[t := s.runs[t].(pc := Pc.Settle(i + 1))], s.winners, Prize(s.cfg))
  {
    var i := s.runs[t].pc.i;
    ReadyOtherSeats(s.sh.sessions, s.bets, s.runs, s.winners, Prize(s.cfg), t, i, session, SeatBet(s, t).id,
                    Verdict(s, t), Pc.Settle(i + 1));
  }

  lemma SettleShape(s: State, t: nat)
    requires RunsShape(s.runs, s.failed, s.ended, s.winners, s.cfg.maxMarbles)
    requires t in s.runs && s.runs[t].pc.Settle? && s.runs[t].pc.i < |s.runs[t].list|
    ensures RunsShape(s.runs[t := s.runs[t].(pc := Pc.Settle(s.runs[t].pc.i + 1))], s.failed, s.ended, s.winners,
        s.cfg.maxMarbles)
  {
    assert RunShape(s.runs[t], t in s.winners, s.cfg.maxMarbles);
  }

  lemma SettleSeats(s: State, t: nat, o: Outcome)
    requires SeatedWell(s) && t in s.runs && s.runs[t].pc.Settle? && t in s.winners && SeatHasBet(s, t)
    ensures
      var x := s.runs[t].list[s.runs[t].pc.i];
      var b := SeatBet(s, t).id;
      var (session, err) := s.sh.sessions[x].Settle(o);
      var bets := s.bets[b := s.bets[b].(stage := Verdict(s, t))];
      && err.None?
      && SeatsMatch(s.sh.sessions[x := session], bets)
      && QueueMatches(s.sh.sessions[x := session], s.sh.queue, bets)
  {
    var x := s.runs[t].list[s.runs[t].pc.i];
    var b := SeatBet(s, t).id;
    var session := s.sh.sessions[x].Settle(o).0;
    SeatInTurn(s, t, s.runs[t].pc.i);
    SeatsSettle(s.sh.sessions, s.bets, x, o, Verdict(s, t));
    SeatIsUnique(s.sh.sessions, s.bets, x);
    QueueOtherSession(s.sh.sessions, s.sh.queue, s.bets, x, session);
    QueueOtherBet(s.sh.sessions[x := session], s.sh.queue, s.bets, b, s.bets[b].(stage := Verdict(s, t)));
  }

  lemma SettleRunning(s: State, t: nat)
    requires SeatsMatch(s.sh.sessions, s.bets) && RunsWell(s) && t in s.runs && s.runs[t].pc.Settle? && t in s.winners
    requires SeatHasBet(s, t)
    ensures RunningMatches(VerdictFiled(s, t).bets, VerdictFiled(s, t).runs, s.failed, s.winners, Prize(s.cfg))
  {
    var i := s.runs[t].pc.i;
    var x := s.runs[t].list[i];
    var b := SeatBet(s, t).id;
    var bets := s.bets[b := s.bets[b].(stage := Verdict(s, t))];
    SeatIsUnique(s.sh.sessions, s.bets, x);
    assert RunningMatches(bets, s.runs, s.failed, s.winners, Prize(s.cfg));
    forall c | c in bets && IsRunning(bets[c].stage) && bets[c].stage.run == t
      ensures bets[c].stage.Running? && bets[c].stage.s != x
    {
      assert c != b;
      assert Seat(s.bets[c].stage) != Some(x);
    }
    RunningNextSeat(bets, s.runs, s.failed, s.winners, Prize(s.cfg), t, s.runs[t].(pc := Pc.Settle(i + 1)));
  }

  lemma SettleVerdicts(s: State, t: nat)
    requires RunsWell(s) && t in s.runs && s.runs[t].pc.Settle? && t in s.winners && SeatHasBet(s, t)
    requires SeatIsWinner(s, t) <==> s.runs[t].pc.i == s.winners[t]
    ensures
      var b := SeatBet(s, t).id;
      SeatsSettledOnce(s.bets[b := s.bets[b].(stage := Verdict(s, t))],
                       s.runs[t := s.runs[t].(pc := Pc.Settle(s.runs[t].pc.i + 1))], s.winners, Prize(s.cfg))
  {
    var b := SeatBet(s, t).id;
    var bets := s.bets[b := s.bets[b].(stage := Verdict(s, t))];
    var runs := s.runs[t := s.runs[t].(pc := Pc.Settle(s.runs[t].pc.i + 1))];
    forall c | c in bets && bets[c].stage.SeatSettled?
      ensures SeatVerdict(runs, s.winners, bets[c].stage, Prize(s.cfg))
      ensures c != b && bets[c].stage.run == t ==> bets[c].stage.seat < s.runs[t].pc.i
    {
      if c != b { assert SeatVerdict(s.runs, s.winners, s.bets[c].stage, Prize(s.cfg)); }
    }
  }

  /** The settlement loop ends. */
  lemma SettleEndKeeps(s: State, t: nat)
    requires Seating(s) && t in s.runs && s.runs[t].pc.Settle? && s.runs[t].pc.i >= |s.runs[t].list|
    ensures Seating(SetPc(s, t, Save))
  {
    var run := s.runs[t].(pc := Save);
    assert RunShape(s.runs[t], t in s.winners, s.cfg.maxMarbles);
    forall b | b in s.bets && IsRunning(s.bets[b].stage) && s.bets[b].stage.run == t ensures s.bets[b].stage.Running? {}
    RunningNextSeat(s.bets, s.runs, s.failed, s.winners, Prize(s.cfg), t, run);
    VerdictsOtherPc(s, t, run);
    var runs := s.runs[t := run];
    forall u | u in runs ensures RunReady(s.sh.sessions, s.bets, runs[u], u, s.winners, Prize(s.cfg)) {
      assert RunReady(s.sh.sessions, s.bets, s.runs[u], u, s.winners, Prize(s.cfg));
    }
  }

  // ---------------------------------------------------------------------------
  // Settling round bets
  // ---------------------------------------------------------------------------

  /** What settling the round bet in turn decides. */
  ghost function RoundVerdict(s: State, t: nat): Stage
    requires s.sh.WellFormed() && Enabled(s, PayNext(t))
  {
    var r := s.runs[t].r.value;
    var j := s.runs[t].pc.j;
    var rb := s.sh.rounds[r].bets[j];
    RoundSettled(r, j, if rb.marble == s.winners[t] then Some(PayoutUnits(rb.amount)) else None)
  }

  lemma PayFiling(s: State, t: nat)
    requires Filing(s) && Enabled(s, PayNext(t)) && t !in s.failed && t !in s.ended
    ensures
      var r := s.runs[t].r.value; var j := s.runs[t].pc.j; var rb := s.sh.rounds[r].bets[j];
      && s.bets[rb.id].stage == OnRound(r, j) && rb.player == s.bets[rb.id].player
      && Filing(SetStage(SetPc(s, t, Pay(j + 1)), rb.id, RoundVerdict(s, t)))
  {
    var r := s.runs[t].r.value;
    var j := s.runs[t].pc.j;
    var rb := s.sh.rounds[r].bets[j];
    assert s.runner[r] == t;
    assert SlotFilled(s.sh.rounds, s.bets, r, j);
    SlotsSameSlot(s.sh.rounds, s.bets, rb.id, s.bets[rb.id].(stage := RoundVerdict(s, t)));
    PayProgress(s, t);
  }

  lemma PayEarnings(s: State, t: nat)
    requires Earnings(s.sh.rounds, s.bets, s.runner, s.winners) && SlotsMatch(s.sh.rounds, s.bets)
    requires RunnerMatches(s.runner, s.runs, s.failed, s.ended) && s.sh.WellFormed() && Enabled(s, PayNext(t))
    ensures
      var r := s.runs[t].r.value; var b := s.sh.rounds[r].bets[s.runs[t].pc.j].id;
      Earnings(s.sh.rounds, s.bets[b := s.bets[b].(stage := RoundVerdict(s, t))], s.runner, s.winners)
  {
    var r := s.runs[t].r.value;
    var b := s.sh.rounds[r].bets[s.runs[t].pc.j].id;
    var bets := s.bets[b := s.bets[b].(stage := RoundVerdict(s, t))];
    assert s.runner[r] == t;
    forall c | c in bets && bets[c].stage.RoundSettled?
      ensures Earned(s.sh.rounds, s.runner, s.winners, bets[c].stage)
    {
      if c != b { assert Earned(s.sh.rounds, s.runner, s.winners, s.bets[c].stage); }
    }
  }

  lemma PayProgress(s: State, t: nat)
    requires Filing(s) && Enabled(s, PayNext(t))
    requires s.bets[s.sh.rounds[s.runs[t].r.value].bets[s.runs[t].pc.j].id].stage ==
      OnRound(s.runs[t].r.value, s.runs[t].pc.j)
    ensures
      var r := s.runs[t].r.value; var j := s.runs[t].pc.j; var b := s.sh.rounds[r].bets[j].id;
      var bets := s.bets[b := s.bets[b].(stage := RoundVerdict(s, t))];
      var runs := s.runs[t := s.runs[t].(pc := Pay(j + 1))];
      && Earnings(s.sh.rounds, bets, s.runner, s.winners)
      && SlotProgress(bets, s.runner, runs, s.failed, s.ended)
      && RunnerMatches(s.runner, runs, s.failed, s.ended)
      && PayInBounds(runs, s.sh.rounds)
  {
    var r := s.runs[t].r.value;
    var j := s.runs[t].pc.j;
    var b := s.sh.rounds[r].bets[j].id;
    var bets := s.bets[b := s.bets[b].(stage := RoundVerdict(s, t))];
    var runs := s.runs[t := s.runs[t].(pc := Pay(j + 1))];
    PayEarnings(s, t);
    PaySlots(s, t);
  }

  lemma PaySlots(s: State, t: nat)
    requires SlotsMatch(s.sh.rounds, s.bets) && SlotProgress(s.bets, s.runner, s.runs, s.failed, s.ended)
    requires RunnerMatches(s.runner, s.runs, s.failed, s.ended) && s.sh.WellFormed() && Enabled(s, PayNext(t))
    requires s.bets[s.sh.rounds[s.runs[t].r.value].bets[s.runs[t].pc.j].id].stage ==
      OnRound(s.runs[t].r.value, s.runs[t].pc.j)
    ensures
      var r := s.runs[t].r.value; var j := s.runs[t].pc.j; var b := s.sh.rounds[r].bets[j].id;
      SlotProgress(s.bets[b := s.bets[b].(stage := RoundVerdict(s, t))], s.runner,
                   s.runs[t := s.runs[t].(pc := Pay(j + 1))], s.failed, s.ended)
  {
    var r := s.runs[t].r.value;
    var j := s.runs[t].pc.j;
    var b := s.sh.rounds[r].bets[j].id;
    var bets := s.bets[b := s.bets[b].(stage := RoundVerdict(s, t))];
    var runs := s.runs[t := s.runs[t].(pc := Pay(j + 1))];
    assert s.runner[r] == t;
    forall c | c in bets && bets[c].stage.OnRound?
      ensures !PastSlot(s.runner, runs, s.ended, bets[c].stage.r, bets[c].stage.i)
    {
      SlotStillAhead(s, t, c);
    }
    forall c | c in bets && bets[c].stage.RoundSettled?
      ensures || PastSlot(s.runner, runs, s.ended, bets[c].stage.r, bets[c].stage.i)
              || (bets[c].stage.r in s.runner && s.runner[bets[c].stage.r] in s.failed)
    {
      if c != b { assert s.bets[c].stage.RoundSettled?; }
    }
  }

  /** The slots that are open after this one is settled are still ahead of the run. */
  lemma SlotStillAhead(s: State, t: nat, c: nat)
    requires SlotsMatch(s.sh.rounds, s.bets) && SlotProgress(s.bets, s.runner, s.runs, s.failed, s.ended)
    requires RunnerMatches(s.runner, s.runs, s.failed, s.ended) && s.sh.WellFormed() && Enabled(s, PayNext(t))
    requires c in s.bets && s.bets[c].stage.OnRound? && c != s.sh.rounds[s.runs[t].r.value].bets[s.runs[t].pc.j].id
    ensures !PastSlot(s.runner, s.runs[t := s.runs[t].(pc := Pay(s.runs[t].pc.j + 1))], s.ended,
                      s.bets[c].stage.r, s.bets[c].stage.i)
  {
    var r, i := s.bets[c].stage.r, s.bets[c].stage.i;
    assert !PastSlot(s.runner, s.runs, s.ended, r, i);
    assert InItsSlot(s.sh.rounds, c, r, i);
    if r in s.runner && s.runner[r] == t {
      assert s.runs[t].r == Some(r);
    }
  }

  lemma PaySeating(s: State, t: nat, b: nat, st: Stage)
    requires Seating(s) && t in s.runs && s.runs[t].pc.Pay? && b in s.bets
    requires s.bets[b].stage.OnRound? && st.RoundSettled?
    ensures Seating(SetStage(SetPc(s, t, Pay(s.runs[t].pc.j + 1)), b, st))
  {
    SeatingOtherBet(s, b, s.bets[b].(stage := st));
    var run := s.runs[t].(pc := Pay(s.runs[t].pc.j + 1));
    assert RunShape(s.runs[t], t in s.winners, s.cfg.maxMarbles);
    SeatingOtherPc(s.(bets := s.bets[b := s.bets[b].(stage := st)]), t, run, s.winners);
  }

  lemma FinishFiling(s: State, t: nat)
    requires Filing(s) && t in s.runs && s.runs[t].pc.Pay? && s.runs[t].r.Some? && s.runs[t].r.value in s.sh.rounds
    requires s.runs[t].pc.j == |s.sh.rounds[s.runs[t].r.value].bets| && t !in s.failed
    ensures Filing(s.(runs := s.runs - {t}, ended := s.ended + {t}))
  {
    forall b | b in s.bets && s.bets[b].stage.OnRound?
      ensures !PastSlot(s.runner, s.runs - {t}, s.ended + {t}, s.bets[b].stage.r, s.bets[b].stage.i)
    {
      var r := s.bets[b].stage.r;
      var i := s.bets[b].stage.i;
      assert !PastSlot(s.runner, s.runs, s.ended, r, i);
      assert InItsSlot(s.sh.rounds, b, r, i);
    }
  }

  // ---------------------------------------------------------------------------
  // All actions together, part by part
  // ---------------------------------------------------------------------------

  /** Is this a step of a RunNextRound? */
  predicate OfRun(a: Action) {
    a.TakeNext? || a.FreshRound? || a.SeatField? || a.AssignNext? || a.Race? || a.PayWinner? || a.SettleNext?
    || a.SaveAudit? || a.PayNext? || a.Finish? || a.Fail?
  }

  /** Is it one up to the race? */
  predicate StartsRun(a: Action) {
    a.TakeNext? || a.FreshRound? || a.SeatField? || a.AssignNext? || a.Race?
  }

  /** The session bet that a run is about to pay, and the round bet that it is about to settle. */
  ghost predicate Payable(s: State, a: Action)
    requires s.sh.WellFormed() && Enabled(s, a)
  {
    match a
    case PayWinner(t) =>
      var b := SeatBet(s, t).id;
      && s.bets[b].stage == Running(s.runs[t].list[s.runs[t].pc.i], t)
      && s.sh.sessions[s.runs[t].list[s.runs[t].pc.i]].player == s.bets[b].player
    case SettleNext(t) =>
      s.runs[t].pc.i < |s.runs[t].list| ==>
        var st := s.bets[SeatBet(s, t).id].stage; Won(st) == Won(Verdict(s, t)) && IsRunning(st)
    case PayNext(t) =>
      var r := s.runs[t].r.value;
      var rb := s.sh.rounds[r].bets[s.runs[t].pc.j];
      s.bets[rb.id].stage == OnRound(r, s.runs[t].pc.j) && rb.player == s.bets[rb.id].player
    case _ => true
  }

  lemma PayableSeat(s: State, a: Action)
    requires Seating(s) && s.sh.WellFormed() && Enabled(s, a) && (a.PayWinner? || a.SettleNext?)
    ensures Payable(s, a)
  {
    if a.PayWinner? {
      PayWinnerKeeps(s, a.t);
    } else if s.runs[a.t].pc.i < |s.runs[a.t].list| {
      SeatInTurn(s, a.t, s.runs[a.t].pc.i);
      SettleKeeps(s, a.t, Outcome(0, "", 0, false, 0, 0));
    }
  }

  lemma PayableRound(s: State, a: Action)
    requires Filing(s) && Enabled(s, a) && a.PayNext? && a.t !in s.failed && a.t !in s.ended
    ensures Payable(s, a)
  {
    PayFiling(s, a.t);
  }

  /** Every credit of prizes and refunds is applied: none of them repeats a transaction. */
  ghost predicate CreditsApply(s: State, a: Action)
    requires s.sh.WellFormed() && Enabled(s, a)
  {
    match a
    case PayWinner(t) =>
      CreditTo(s, s.sh.sessions[s.runs[t].list[s.runs[t].pc.i]].player, Prize(s.cfg),
          CreditTx(SeatBet(s, t).id)).1 == W.Applied
    case PayNext(t) =>
      var rb := s.sh.rounds[s.runs[t].r.value].bets[s.runs[t].pc.j];
      rb.marble == s.winners[t] ==> CreditTo(s, rb.player, PayoutUnits(rb.amount), CreditTx(rb.id)).1 == W.Applied
    case Refund(b) => CreditTo(s, s.bets[b].player, s.bets[b].units, RefundTx(b)).1 == W.Applied
    case _ => true
  }

  // ---- the books ----

  lemma BooksOfRefund(s: State, b: nat)
    requires Books(s) && s.sh.WellFormed() && Enabled(s, Refund(b))
    ensures CreditsApply(s, Refund(b)) && Books(Next(s, Refund(b)))
  {
    CreditBooks(s, b, s.bets[b].units, RefundTx(b), Refunded);
  }

  lemma BooksOfPrize(s: State, t: nat)
    requires Books(s) && s.sh.WellFormed() && Enabled(s, PayWinner(t)) && Payable(s, PayWinner(t))
    ensures CreditsApply(s, PayWinner(t)) && Books(Next(s, PayWinner(t)))
  {
    var b := SeatBet(s, t).id;
    CreditBooks(s, b, Prize(s.cfg), CreditTx(b), Paid(s.runs[t].list[s.runs[t].pc.i], t, Prize(s.cfg)));
  }

  lemma BooksOfWonRoundBet(s: State, t: nat)
    requires Books(s) && s.sh.WellFormed() && Enabled(s, PayNext(t)) && Payable(s, PayNext(t))
    requires s.sh.rounds[s.runs[t].r.value].bets[s.runs[t].pc.j].marble == s.winners[t]
    ensures CreditsApply(s, PayNext(t)) && Books(Next(s, PayNext(t)))
  {
    var r := s.runs[t].r.value;
    var rb := s.sh.rounds[r].bets[s.runs[t].pc.j];
    CreditBooks(s, rb.id, PayoutUnits(rb.amount), CreditTx(rb.id),
                RoundSettled(r, s.runs[t].pc.j, Some(PayoutUnits(rb.amount))));
  }

  lemma BooksOfDebits(s: State, a: Action)
    requires Books(s) && s.sh.WellFormed() && Enabled(s, a) && (a.DebitSession? || a.DebitRound?)
    ensures Books(Next(s, a))
  {
    match a
    case DebitSession(b, x, amount) =>
      DebitBooks(s.wallet, s.bets, b, BetRec(s.sh.sessions[x].player, amount, SessionDebited(x)), s.wraps, s.base);
    case DebitRound(b, r, player, marble, stake) =>
      DebitBooks(s.wallet, s.bets, b, BetRec(player, Units(stake), RoundDebited(r, marble, stake)), s.wraps, s.base);
  }

  lemma BooksOfMoves(s: State, a: Action)
    requires Books(s) && s.sh.WellFormed() && Enabled(s, a) && (a.AskSession? || a.QueueSession?)
    ensures Books(Next(s, a))
  {
    match a
    case AskSession(b) => QuietBooks(s.wallet, s.bets, b, AskedStage(s, b), s.wraps, s.base);
    case QueueSession(b) => QuietBooks(s.wallet, s.bets, b, Queued(s.bets[b].stage.s), s.wraps, s.base);
  }

  lemma BooksOfRevalidate(s: State, b: nat)
    requires Books(s) && s.sh.WellFormed() && Enabled(s, Revalidate(b))
    ensures Books(Next(s, Revalidate(b)))
  {
    QuietBooks(s.wallet, s.bets, b, Next(s, Revalidate(b)).bets[b].stage, s.wraps, s.base);
  }

  lemma BooksOfTake(s: State, t: nat)
    requires Books(s) && s.sh.WellFormed() && Enabled(s, TakeNext(t))
    ensures Books(Next(s, TakeNext(t)))
  {
    LaunchBooks(s.wallet, s.bets, t, s.wraps, s.base);
  }

  lemma BooksOfSettle(s: State, t: nat)
    requires Books(s) && s.sh.WellFormed() && Enabled(s, SettleNext(t)) && Payable(s, SettleNext(t))
    requires s.runs[t].pc.i < |s.runs[t].list| ==>
      s.sh.sessions[s.runs[t].list[s.runs[t].pc.i]].phase == Sessions.Phase.Racing
    ensures Books(Next(s, SettleNext(t)))
  {
    if s.runs[t].pc.i < |s.runs[t].list| {
      QuietBooks(s.wallet, s.bets, SeatBet(s, t).id, Verdict(s, t), s.wraps, s.base);
    }
  }

  lemma BooksUntouched(s: State, a: Action)
    requires Books(s) && s.sh.WellFormed() && Enabled(s, a)
    requires a.OpenSession? || a.CloseSession? || a.MintRound? || a.FreshRound? || a.SeatField? || a.AssignNext?
      || a.Race? || a.SaveAudit? || a.Finish? || a.Fail?
    ensures CreditsApply(s, a) && Books(Next(s, a))
  {
    WalletUntouched(s, a);
  }

  lemma WalletUntouched(s: State, a: Action)
    requires s.sh.WellFormed() && Enabled(s, a)
    requires a.OpenSession? || a.CloseSession? || a.MintRound? || a.FreshRound? || a.SeatField? || a.AssignNext?
      || a.Race? || a.SaveAudit? || a.Finish? || a.Fail?
    ensures
      var s' := Next(s, a);
      s'.wallet == s.wallet && s'.bets == s.bets && s'.wraps == s.wraps && s'.base == s.base
  {
    if OfRun(a) {
      WalletUntouchedByRuns(s, a);
    }
  }

  lemma WalletUntouchedByRuns(s: State, a: Action)
    requires s.sh.WellFormed() && Enabled(s, a)
    requires a.FreshRound? || a.SeatField? || a.AssignNext? || a.Race? || a.SaveAudit? || a.Finish? || a.Fail?
    ensures
      var s' := Next(s, a);
      s'.wallet == s.wallet && s'.bets == s.bets && s'.wraps == s.wraps && s'.base == s.base
  {
    if a.AssignNext? {
      WalletUntouchedByAssign(s, a.t);
    }
  }

  lemma WalletUntouchedByAssign(s: State, t: nat)
    requires s.sh.WellFormed() && Enabled(s, AssignNext(t))
    ensures
      var s' := Next(s, AssignNext(t));
      s'.wallet == s.wallet && s'.bets == s.bets && s'.wraps == s.wraps && s'.base == s.base
  {
  }

  lemma BooksOfLostRoundBet(s: State, a: Action)
    requires Books(s) && s.sh.WellFormed() && Enabled(s, a) && Payable(s, a) && a.PayNext?
    requires s.sh.rounds[s.runs[a.t].r.value].bets[s.runs[a.t].pc.j].marble != s.winners[a.t]
    ensures Books(Next(s, a))
  {
    var r := s.runs[a.t].r.value;
    var j := s.runs[a.t].pc.j;
    QuietBooks(s.wallet, s.bets, s.sh.rounds[r].bets[j].id, RoundSettled(r, j, None), s.wraps, s.base);
  }

  lemma BooksOfRoundBet(s: State, t: nat)
    requires Books(s) && s.sh.WellFormed() && Enabled(s, PayNext(t)) && Payable(s, PayNext(t))
    ensures CreditsApply(s, PayNext(t)) && Books(Next(s, PayNext(t)))
  {
    if s.sh.rounds[s.runs[t].r.value].bets[s.runs[t].pc.j].marble == s.winners[t] {
      BooksOfWonRoundBet(s, t);
    } else {
      BooksOfLostRoundBet(s, PayNext(t));
    }
  }

  lemma BooksKeepCalls(s: State, a: Action)
    requires Books(s) && s.sh.WellFormed() && Enabled(s, a) && !OfRun(a)
    ensures CreditsApply(s, a) && Books(Next(s, a))
  {
    match a
    case Refund(b) => BooksOfRefund(s, b);
    case DebitSession(_, _, _) => BooksOfDebits(s, a);
    case DebitRound(_, _, _, _, _) => BooksOfDebits(s, a);
    case AskSession(_) => BooksOfMoves(s, a);
    case QueueSession(_) => BooksOfMoves(s, a);
    case Revalidate(b) => BooksOfRevalidate(s, b);
    case _ => BooksUntouched(s, a);
  }

  lemma BooksKeepRuns(s: State, a: Action)
    requires Books(s) && s.sh.WellFormed() && Enabled(s, a) && Payable(s, a) && OfRun(a)
    requires a.SettleNext? && s.runs[a.t].pc.i < |s.runs[a.t].list| ==>
      s.sh.sessions[s.runs[a.t].list[s.runs[a.t].pc.i]].phase == Sessions.Phase.Racing
    ensures CreditsApply(s, a) && Books(Next(s, a))
  {
    if a.PayWinner? || a.PayNext? {
      BooksKeepPays(s, a);
    } else {
      BooksKeepOtherRuns(s, a);
    }
  }

  lemma BooksKeepPays(s: State, a: Action)
    requires Books(s) && s.sh.WellFormed() && Enabled(s, a) && Payable(s, a) && (a.PayWinner? || a.PayNext?)
    ensures CreditsApply(s, a) && Books(Next(s, a))
  {
    match a
    case PayWinner(t) => BooksOfPrize(s, t);
    case PayNext(t) => BooksOfRoundBet(s, t);
  }

  lemma BooksKeepOtherRuns(s: State, a: Action)
    requires Books(s) && s.sh.WellFormed() && Enabled(s, a) && Payable(s, a) && OfRun(a) && !a.PayWinner? && !a.PayNext?
    requires a.SettleNext? && s.runs[a.t].pc.i < |s.runs[a.t].list| ==>
      s.sh.sessions[s.runs[a.t].list[s.runs[a.t].pc.i]].phase == Sessions.Phase.Racing
    ensures CreditsApply(s, a) && Books(Next(s, a))
  {
    match a
    case TakeNext(t) => BooksOfTake(s, t);
    case SettleNext(t) => BooksOfSettle(s, t);
    case _ => BooksUntouched(s, a);
  }

  lemma BooksKeep(s: State, a: Action)
    requires Books(s) && s.sh.WellFormed() && Enabled(s, a) && Payable(s, a)
    requires a.SettleNext? && s.runs[a.t].pc.i < |s.runs[a.t].list| ==>
      s.sh.sessions[s.runs[a.t].list[s.runs[a.t].pc.i]].phase == Sessions.Phase.Racing
    ensures CreditsApply(s, a) && Books(Next(s, a))
  {
    if OfRun(a) {
      BooksKeepRuns(s, a);
    } else {
      BooksKeepCalls(s, a);
    }
  }

  // ---- the seats ----

  lemma SeatingOfSessions(s: State, a: Action)
    requires Seating(s) && s.sh.WellFormed() && Enabled(s, a)
    requires a.OpenSession? || a.CloseSession? || a.AskSession? || a.QueueSession?
    ensures Seating(Next(s, a))
  {
    match a
    case OpenSession(x, player) => OpenKeeps(s, x, player);
    case CloseSession(x) => CloseKeeps(s, x);
    case AskSession(b) => AskKeeps(s, b);
    case QueueSession(b) => QueueKeeps(s, b);
  }

  lemma SeatingOfDebits(s: State, a: Action)
    requires Seating(s) && s.sh.WellFormed() && Enabled(s, a) && (a.DebitSession? || a.DebitRound?)
    ensures Seating(Next(s, a))
  {
    match a
    case DebitSession(b, x, amount) =>
      SeatingOtherBet(s, b, BetRec(s.sh.sessions[x].player, amount, SessionDebited(x)));
    case DebitRound(b, r, player, marble, stake) =>
      SeatingOtherBet(s, b, BetRec(player, Units(stake), RoundDebited(r, marble, stake)));
  }

  lemma SeatingOfRefund(s: State, b: nat)
    requires Seating(s) && s.sh.WellFormed() && Enabled(s, Refund(b))
    ensures Seating(Next(s, Refund(b)))
  {
    SeatingOtherBet(s, b, s.bets[b].(stage := Refunded));
  }

  lemma SeatingOfRevalidate(s: State, b: nat)
    requires Seating(s) && s.sh.WellFormed() && Enabled(s, Revalidate(b))
    ensures Seating(Next(s, Revalidate(b)))
  {
    SeatingOtherBet(s, b, Next(s, Revalidate(b)).bets[b]);
  }

  lemma SeatingOfMint(s: State, a: Action)
    requires Seating(s) && s.sh.WellFormed() && Enabled(s, a) && a.MintRound?
    ensures Seating(Next(s, a))
  {
  }

  lemma SeatingOfTake(s: State, t: nat)
    requires Seating(s) && s.sh.WellFormed() && Enabled(s, TakeNext(t))
    ensures Seating(Next(s, TakeNext(t)))
  {
    TakeSeating(s, t, s.sh.Take().2);
  }

  lemma SeatingOfPc(s: State, a: Action)
    requires Seating(s) && s.sh.WellFormed() && Enabled(s, a)
    requires a.FreshRound? || a.Race? || a.SaveAudit?
    ensures Seating(Next(s, a))
  {
    assert RunShape(s.runs[a.t], a.t in s.winners, s.cfg.maxMarbles);
    match a
    case FreshRound(t, r, spec) => SeatingOtherPc(s, t, s.runs[t].(r := Some(r)), s.winners);
    case Race(t, winner) =>
      if Rtp.Refusal(s.cfg.bps, Settlement.Stakes(s.cfg), winner).Some? {
        SeatingStop(s, t, true);
      } else {
        SeatingOtherPc(s, t, s.runs[t].(pc := Pc.Settle(0)), s.winners[t := winner]);
      }
    case SaveAudit(t) => SeatingOtherPc(s, t, s.runs[t].(pc := Pay(0)), s.winners);
  }

  lemma SeatingOfField(s: State, t: nat)
    requires Seating(s) && s.sh.WellFormed() && Enabled(s, SeatField(t))
    ensures Seating(Next(s, SeatField(t)))
  {
    assert RunShape(s.runs[t], t in s.winners, s.cfg.maxMarbles);
    if |s.runs[t].list| > s.cfg.maxMarbles {
      SeatingStop(s, t, true);
    } else {
      SeatingOtherPc(s, t, s.runs[t].(pc := Assign(0)), s.winners);
    }
  }

  lemma SeatingOfStop(s: State, a: Action)
    requires Seating(s) && s.sh.WellFormed() && Enabled(s, a) && (a.Fail? || a.Finish?)
    ensures Seating(Next(s, a))
  {
    SeatingStop(s, a.t, a.Fail?);
  }

  lemma SeatingOfAssign(s: State, t: nat)
    requires Seating(s) && s.sh.WellFormed() && Enabled(s, AssignNext(t))
    ensures Seating(Next(s, AssignNext(t)))
  {
    if s.runs[t].pc.i < |s.runs[t].list| {
      SeatingOfAssignSeat(s, t);
    } else {
      SeatingOfAssignEnd(s, t);
    }
  }

  lemma NextOfAssign(s: State, t: nat)
    requires s.sh.WellFormed() && Enabled(s, AssignNext(t)) && s.runs[t].pc.i < |s.runs[t].list|
    requires s.sh.sessions[InTurn(s, t, s.runs[t].pc.i)].AssignMarble(s.runs[t].pc.i).1.None?
    ensures Next(s, AssignNext(t)) == WithMarble(s, t)
  {
  }

  lemma SeatingOfAssignSeat(s: State, t: nat)
    requires Seating(s) && s.sh.WellFormed() && Enabled(s, AssignNext(t)) && s.runs[t].pc.i < |s.runs[t].list|
    ensures Seating(Next(s, AssignNext(t)))
  {
    AssignAccepted(s, t);
    AssignKeeps(s, t);
    NextOfAssign(s, t);
  }

  lemma SeatingOfAssignEnd(s: State, t: nat)
    requires Seating(s) && s.sh.WellFormed() && Enabled(s, AssignNext(t)) && s.runs[t].pc.i >= |s.runs[t].list|
    ensures Seating(Next(s, AssignNext(t)))
  {
    assert RunShape(s.runs[t], t in s.winners, s.cfg.maxMarbles);
    SeatingOtherPc(s, t, s.runs[t].(pc := Sim), s.winners);
  }

  /** The outcome that the settlement loop reports for the seat in turn. */
  function OutcomeInTurn(s: State, t: nat): Outcome
    requires t in s.runs && s.runs[t].pc.Settle? && t in s.winners && SeatHasBet(s, t)
  {
    var bet := SeatBet(s, t);
    var won := SeatIsWinner(s, t);
    Outcome(bet.id, bet.player, bet.amount, won, if won then Prize(s.cfg) else 0, s.winners[t])
  }

  lemma NextOfSettle(s: State, t: nat)
    requires s.sh.WellFormed() && Enabled(s, SettleNext(t)) && s.runs[t].pc.i < |s.runs[t].list|
    requires s.sh.sessions[InTurn(s, t, s.runs[t].pc.i)].Settle(OutcomeInTurn(s, t)).1.None?
    ensures Next(s, SettleNext(t)) == WithVerdict(s, t, OutcomeInTurn(s, t))
  {
  }

  lemma SeatingOfSettleSeat(s: State, t: nat)
    requires Seating(s) && s.sh.WellFormed() && Enabled(s, SettleNext(t)) && s.runs[t].pc.i < |s.runs[t].list|
    ensures Seating(Next(s, SettleNext(t)))
  {
    SettleKeeps(s, t, OutcomeInTurn(s, t));
    NextOfSettle(s, t);
  }

  lemma SeatingOfSettle(s: State, t: nat)
    requires Seating(s) && s.sh.WellFormed() && Enabled(s, SettleNext(t))
    ensures Seating(Next(s, SettleNext(t)))
  {
    if s.runs[t].pc.i < |s.runs[t].list| {
      SeatingOfSettleSeat(s, t);
    } else {
      SettleEndKeeps(s, t);
    }
  }

  lemma SeatingOfPayWinner(s: State, t: nat)
    requires Seating(s) && s.sh.WellFormed() && Enabled(s, PayWinner(t)) && CreditsApply(s, PayWinner(t))
    ensures Seating(Next(s, PayWinner(t)))
  {
    PayWinnerKeeps(s, t);
  }

  /** The effect of settling a round bet, apart from the wallet. */
  lemma NextOfPay(s: State, t: nat)
    requires s.sh.WellFormed() && Enabled(s, PayNext(t)) && CreditsApply(s, PayNext(t))
    ensures
      var s' := Next(s, PayNext(t));
      var rb := s.sh.rounds[s.runs[t].r.value].bets[s.runs[t].pc.j];
      s' == SetStage(SetPc(s, t, Pay(s.runs[t].pc.j + 1)), rb.id, RoundVerdict(s, t)).(wallet := s'.wallet,
          wraps := s'.wraps)
  {
  }

  lemma SeatingOfPayNext(s: State, t: nat)
    requires Seating(s) && s.sh.WellFormed() && Enabled(s, PayNext(t))
    requires Payable(s, PayNext(t)) && CreditsApply(s, PayNext(t))
    ensures Seating(Next(s, PayNext(t)))
  {
    NextOfPay(s, t);
    PaySeating(s, t, s.sh.rounds[s.runs[t].r.value].bets[s.runs[t].pc.j].id, RoundVerdict(s, t));
  }

  lemma SeatingKeepsCalls(s: State, a: Action)
    requires Seating(s) && s.sh.WellFormed() && Enabled(s, a) && !OfRun(a)
    ensures Seating(Next(s, a))
  {
    if a.OpenSession? || a.CloseSession? || a.AskSession? || a.QueueSession? {
      SeatingOfSessions(s, a);
    } else if a.DebitSession? || a.DebitRound? {
      SeatingOfDebits(s, a);
    } else if a.Refund? {
      SeatingOfRefund(s, a.b);
    } else if a.Revalidate? {
      SeatingOfRevalidate(s, a.b);
    } else {
      SeatingOfMint(s, a);
    }
  }

  lemma SeatingKeepsStart(s: State, a: Action)
    requires Seating(s) && s.sh.WellFormed() && Enabled(s, a) && StartsRun(a)
    ensures Seating(Next(s, a))
  {
    match a
    case TakeNext(t) => SeatingOfTake(s, t);
    case SeatField(t) => SeatingOfField(s, t);
    case AssignNext(t) => SeatingOfAssign(s, t);
    case FreshRound(_, _, _) => SeatingOfPc(s, a);
    case Race(_, _) => SeatingOfPc(s, a);
  }

  lemma SeatingKeepsEnd(s: State, a: Action)
    requires Seating(s) && s.sh.WellFormed() && Enabled(s, a) && Payable(s, a) && CreditsApply(s, a)
    requires OfRun(a) && !StartsRun(a)
    ensures Seating(Next(s, a))
  {
    match a
    case SettleNext(t) => SeatingOfSettle(s, t);
    case PayWinner(t) => SeatingOfPayWinner(s, t);
    case PayNext(t) => SeatingOfPayNext(s, t);
    case SaveAudit(_) => SeatingOfPc(s, a);
    case Fail(_) => SeatingOfStop(s, a);
    case Finish(_) => SeatingOfStop(s, a);
  }

  lemma SeatingKeeps(s: State, a: Action)
    requires Seating(s) && s.sh.WellFormed() && Enabled(s, a) && Payable(s, a) && CreditsApply(s, a)
    ensures Seating(Next(s, a))
  {
    if StartsRun(a) {
      SeatingKeepsStart(s, a);
    } else if OfRun(a) {
      SeatingKeepsEnd(s, a);
    } else {
      SeatingKeepsCalls(s, a);
    }
  }

  // ---- the rounds ----

  lemma FilingOfBets(s: State, a: Action)
    requires Filing(s) && Enabled(s, a)
    requires a.DebitSession? || a.AskSession? || a.QueueSession? || a.Refund? || a.DebitRound?
    ensures Filing(Next(s, a))
  {
    match a
    case DebitSession(b, x, amount) =>
      FilingOtherBet(s, b, BetRec(s.sh.sessions[x].player, amount, SessionDebited(x)));
    case AskSession(b) => FilingOtherBet(s, b, s.bets[b].(stage := AskedStage(s, b)));
    case QueueSession(b) => FilingOtherBet(s, b, s.bets[b].(stage := Queued(s.bets[b].stage.s)));
    case Refund(b) => FilingOtherBet(s, b, s.bets[b].(stage := Refunded));
    case DebitRound(b, r, player, marble, stake) =>
      FilingOtherBet(s, b, BetRec(player, Units(stake), RoundDebited(r, marble, stake)));
  }

  lemma FilingOfRevalidate(s: State, b: nat)
    requires Filing(s) && Enabled(s, Revalidate(b))
    ensures Filing(Next(s, Revalidate(b)))
  {
    RevalidationIsExact(s, s.bets[b].stage.r);
    if s.bets[b].stage.r in s.sh.pendingRounds {
      PlaceKeeps(s, b);
    } else {
      FilingOtherBet(s, b, s.bets[b].(stage := RoundRefused));
    }
  }

  lemma FilingOfRounds(s: State, a: Action)
    requires Filing(s) && Enabled(s, a)
    requires a.MintRound? || a.FreshRound? || a.TakeNext?
    ensures Filing(Next(s, a))
  {
    match a
    case MintRound(r, spec) => MintKeeps(s, r, spec);
    case FreshRound(t, r, spec) => RegisterKeeps(s, r, spec, t);
    case TakeNext(t) => TakeFiling(s, t, s.sh.queue);
  }

  lemma FilingOfField(s: State, t: nat)
    requires Filing(s) && Enabled(s, SeatField(t)) && t !in s.failed
    ensures Filing(Next(s, SeatField(t)))
  {
    if |s.runs[t].list| > s.cfg.maxMarbles {
      FilingFail(s, t);
    } else {
      FilingOtherPc(s, t, Assign(0), s.winners);
    }
  }

  lemma FilingOfAssign(s: State, t: nat)
    requires Filing(s) && Enabled(s, AssignNext(t)) && t !in s.failed
    requires s.runs[t].pc.i < |s.runs[t].list| ==>
      s.sh.sessions[s.runs[t].list[s.runs[t].pc.i]].AssignMarble(s.runs[t].pc.i).1.None?
    ensures Filing(Next(s, AssignNext(t)))
  {
    FilingOtherPc(s, t, if s.runs[t].pc.i < |s.runs[t].list| then Assign(s.runs[t].pc.i + 1) else Sim, s.winners);
  }

  lemma FilingOfPc(s: State, a: Action)
    requires Filing(s) && Enabled(s, a) && (a.Race? || a.SaveAudit? || a.Fail? || a.Finish?) && a.t !in s.failed
    ensures Filing(Next(s, a))
  {
    match a
    case Race(t, winner) =>
      if Rtp.Refusal(s.cfg.bps, Settlement.Stakes(s.cfg), winner).Some? {
        FilingFail(s, t);
      } else {
        FilingOtherPc(s, t, Pc.Settle(0), s.winners[t := winner]);
      }
    case SaveAudit(t) => FilingOtherPc(s, t, Pay(0), s.winners);
    case Fail(t) => FilingFail(s, t);
    case Finish(t) => FinishFiling(s, t);
  }

  lemma FilingOfSettle(s: State, t: nat)
    requires Filing(s) && Enabled(s, SettleNext(t)) && Payable(s, SettleNext(t))
    requires s.runs[t].pc.i < |s.runs[t].list| ==>
      s.sh.sessions[s.runs[t].list[s.runs[t].pc.i]].phase == Sessions.Phase.Racing
    ensures Filing(Next(s, SettleNext(t)))
  {
    if s.runs[t].pc.i >= |s.runs[t].list| {
      FilingOtherPc(s, t, Save, s.winners);
    } else {
      NextOfSettle(s, t);
      FilingOfVerdict(s, t, OutcomeInTurn(s, t));
    }
  }

  lemma FilingOfVerdict(s: State, t: nat, o: Outcome)
    requires Filing(s) && t in s.runs && s.runs[t].pc.Settle? && t in s.winners && SeatHasBet(s, t)
    requires IsRunning(s.bets[SeatBet(s, t).id].stage)
    ensures Filing(WithVerdict(s, t, o))
  {
    var b := SeatBet(s, t).id;
    var settled := s.(bets := s.bets[b := s.bets[b].(stage := Verdict(s, t))]);
    var pc := Pc.Settle(s.runs[t].pc.i + 1);
    FilingOtherBet(s, b, settled.bets[b]);
    FilingNextSeat(settled, t, pc, WithVerdict(s, t, o).sh.sessions);
  }

  lemma FilingNextSeat(s: State, t: nat, pc: Pc, sessions: SessionTable)
    requires Filing(s) && t in s.runs && !s.runs[t].pc.Pay? && !pc.Pay?
    ensures Filing(s.(sh := s.sh.(sessions := sessions), runs := s.runs[t := s.runs[t].(pc := pc)]))
  {
    FilingOtherPc(s, t, pc, s.winners);
    FilingOtherSessions(SetPc(s, t, pc), sessions);
  }

  lemma FilingOtherSessions(s: State, sessions: SessionTable)
    requires Filing(s)
    ensures Filing(s.(sh := s.sh.(sessions := sessions)))
  {
  }

  lemma FilingOfPayWinner(s: State, t: nat)
    requires Filing(s) && Enabled(s, PayWinner(t)) && CreditsApply(s, PayWinner(t)) && Payable(s, PayWinner(t))
    ensures Filing(Next(s, PayWinner(t)))
  {
    var b := SeatBet(s, t).id;
    FilingOtherBet(s, b, s.bets[b].(stage := Paid(s.runs[t].list[s.runs[t].pc.i], t, Prize(s.cfg))));
  }

  lemma FilingOfPayNext(s: State, t: nat)
    requires Filing(s) && Enabled(s, PayNext(t)) && CreditsApply(s, PayNext(t)) && t !in s.failed && t !in s.ended
    ensures Filing(Next(s, PayNext(t)))
  {
    NextOfPay(s, t);
    PayFiling(s, t);
  }

  /** What a step of run t takes from the session bookkeeping. */
  ghost predicate SeatFacts(s: State, a: Action)
    requires s.sh.WellFormed() && Enabled(s, a)
  {
    && (a.PayNext? ==> a.t !in s.failed && a.t !in s.ended)
    && (a.Finish? || a.SeatField? || a.AssignNext? || a.Race? || a.SaveAudit? || a.Fail? ==> a.t !in s.failed)
    && (a.AssignNext? && s.runs[a.t].pc.i < |s.runs[a.t].list| ==>
        s.sh.sessions[s.runs[a.t].list[s.runs[a.t].pc.i]].AssignMarble(s.runs[a.t].pc.i).1.None?)
    && (a.SettleNext? && s.runs[a.t].pc.i < |s.runs[a.t].list| ==>
        s.sh.sessions[s.runs[a.t].list[s.runs[a.t].pc.i]].phase == Sessions.Phase.Racing)
  }

  lemma SeatFactsHold(s: State, a: Action)
    requires Seating(s) && s.sh.WellFormed() && Enabled(s, a)
    ensures SeatFacts(s, a)
  {
    if a.AssignNext? && s.runs[a.t].pc.i < |s.runs[a.t].list| {
      AssignAccepted(s, a.t);
    } else if a.SettleNext? && s.runs[a.t].pc.i < |s.runs[a.t].list| {
      SeatInTurn(s, a.t, s.runs[a.t].pc.i);
    }
  }

  lemma FilingKeepsCalls(s: State, a: Action)
    requires Filing(s) && Enabled(s, a) && !OfRun(a)
    ensures Filing(Next(s, a))
  {
    match a
    case OpenSession(_, _) =>
    case CloseSession(_) =>
    case Revalidate(b) => FilingOfRevalidate(s, b);
    case MintRound(_, _) => FilingOfRounds(s, a);
    case _ => FilingOfBets(s, a);
  }

  lemma FilingKeepsStart(s: State, a: Action)
    requires Filing(s) && Enabled(s, a) && SeatFacts(s, a) && StartsRun(a)
    ensures Filing(Next(s, a))
  {
    match a
    case FreshRound(_, _, _) => FilingOfRounds(s, a);
    case TakeNext(_) => FilingOfRounds(s, a);
    case SeatField(t) => FilingOfField(s, t);
    case AssignNext(t) => FilingOfAssign(s, t);
    case Race(_, _) => FilingOfPc(s, a);
  }

  lemma FilingKeepsEnd(s: State, a: Action)
    requires Filing(s) && Enabled(s, a) && Payable(s, a) && CreditsApply(s, a) && SeatFacts(s, a)
    requires OfRun(a) && !StartsRun(a)
    ensures Filing(Next(s, a))
  {
    match a
    case SettleNext(t) => FilingOfSettle(s, t);
    case PayWinner(t) => FilingOfPayWinner(s, t);
    case PayNext(t) => FilingOfPayNext(s, t);
    case SaveAudit(_) => FilingOfPc(s, a);
    case Fail(_) => FilingOfPc(s, a);
    case Finish(_) => FilingOfPc(s, a);
  }

  lemma FilingKeeps(s: State, a: Action)
    requires Filing(s) && Enabled(s, a) && Payable(s, a) && CreditsApply(s, a) && SeatFacts(s, a)
    ensures Filing(Next(s, a))
  {
    if StartsRun(a) {
      FilingKeepsStart(s, a);
    } else if OfRun(a) {
      FilingKeepsEnd(s, a);
    } else {
      FilingKeepsCalls(s, a);
    }
  }

  // ---- everything ----

  /** Every enabled action keeps the invariant, and no credit it makes is refused. */
  lemma StepKeeps(s: State, a: Action)
    requires Inv(s) && Enabled(s, a)
    ensures Payable(s, a) && CreditsApply(s, a) && SeatFacts(s, a)
    ensures Inv(Next(s, a))
  {
    SeatFactsHold(s, a);
    if a.PayWinner? || a.SettleNext? {
      PayableSeat(s, a);
    } else if a.PayNext? {
      PayableRound(s, a);
    }
    BooksKeep(s, a);
    SeatingKeeps(s, a);
    FilingKeeps(s, a);
  }
}
