/**
 Exactly which debited bets are settled in the end: those whose run got past its guards.

 A run loses its seats when its field is overfull, when it finds no seed, when the simulator or the clock
 fails it, or when the settlement arithmetic refuses the winner; it loses its round for the same reasons,
 or when the replay is not stored.
 */
module SettlementVerdicts {
  import opened Common
  import opened Settlement
  import opened SettlementInvariant
  import opened SettlementSteps
  import opened SettlementSafety
  import Rtp

  /** The action stops run t before its race has been settled. */
  predicate LosesSeats(s: State, a: Action, t: nat) {
    t in s.runs &&
    match a
    case SeatField(u) => u == t && |s.runs[t].list| > s.cfg.maxMarbles
    case Race(u, winner) => u == t && Rtp.Refusal(s.cfg.bps, Settlement.Stakes(s.cfg), winner).Some?
    case Fail(u) => u == t && s.runs[t].pc != Save
    case _ => false
  }

  /** The action stops run t before the bets of its round are settled. */
  predicate LosesRound(s: State, a: Action, t: nat) {
    LosesSeats(s, a, t) || (t in s.runs && a == Fail(t))
  }

  // ---------------------------------------------------------------------------
  // One step
  // ---------------------------------------------------------------------------

  /** A run fails at one of these guards and nowhere else. */
  lemma FailsIff(s: State, a: Action, t: nat)
    requires Inv(s) && s.sh.WellFormed() && Enabled(s, a)
    ensures t in Next(s, a).failed <==> t in s.failed || LosesRound(s, a, t)
  {
    SettlementDoesNotFail(s, a);
    OnlyGuardsFail(s, a, t);
  }

  predicate Settles(a: Action) { a.AssignNext? || a.PayWinner? || a.SettleNext? || a.PayNext? }

  predicate Guards(a: Action) { a.SeatField? || a.Race? || a.Fail? }

  lemma SettlementDoesNotFail(s: State, a: Action)
    requires Inv(s) && s.sh.WellFormed() && Enabled(s, a)
    ensures Settles(a) ==> Next(s, a).failed == s.failed
  {
    StepKeeps(s, a);
    NoErrorReturns(s, a);
  }

  lemma OnlyGuardsFail(s: State, a: Action, t: nat)
    requires s.sh.WellFormed() && Enabled(s, a) && (Settles(a) ==> Next(s, a).failed == s.failed)
    ensures t in Next(s, a).failed <==> t in s.failed || LosesRound(s, a, t)
  {
    if Guards(a) {
      GuardFails(s, a, t);
    } else if !Settles(a) {
      OthersDoNotFail(s, a);
    }
  }

  lemma GuardFails(s: State, a: Action, t: nat)
    requires s.sh.WellFormed() && Enabled(s, a) && Guards(a)
    ensures t in Next(s, a).failed <==> t in s.failed || LosesRound(s, a, t)
  {
  }

  lemma OthersDoNotFail(s: State, a: Action)
    requires s.sh.WellFormed() && Enabled(s, a) && !Settles(a) && !Guards(a)
    ensures Next(s, a).failed == s.failed
  {
  }

  /** Only a race that is not refused gives a run its winner. */
  lemma WinnerIff(s: State, a: Action, t: nat)
    requires s.sh.WellFormed() && Enabled(s, a)
    ensures t in Next(s, a).winners <==> t in s.winners || (a.Race? && a.t == t && !LosesSeats(s, a, t))
  {
    if !a.Race? {
      OthersFindNoWinner(s, a);
    }
  }

  lemma OthersFindNoWinner(s: State, a: Action)
    requires s.sh.WellFormed() && Enabled(s, a) && !a.Race?
    ensures Next(s, a).winners == s.winners
  {
    if a.PayWinner? || a.SettleNext? || a.PayNext? || a.Refund? {
      CreditsFindNoWinner(s, a);
    }
  }

  lemma CreditsFindNoWinner(s: State, a: Action)
    requires s.sh.WellFormed() && Enabled(s, a) && (a.PayWinner? || a.SettleNext? || a.PayNext? || a.Refund?)
    ensures Next(s, a).winners == s.winners
  {
  }

  // ---------------------------------------------------------------------------
  // A failed run loses all or nothing
  // ---------------------------------------------------------------------------

  /** A failed run that had raced has settled every seat; no failed run has settled a round bet. */
  ghost predicate AllOrNothing(s: State) {
    && (forall b | b in s.bets && s.bets[b].stage.Running? :: UnracedIfFailed(s, s.bets[b].stage.run))
    && (forall b | b in s.bets && s.bets[b].stage.RoundSettled? :: RunnerDidNotFail(s, s.bets[b].stage.r))
  }

  predicate UnracedIfFailed(s: State, t: nat) { t in s.failed ==> t !in s.winners }

  predicate RunnerDidNotFail(s: State, r: Addr) { r in s.runner && s.runner[r] !in s.failed }

  lemma AllOrNothingStep(s: State, a: Action)
    requires Inv(s) && s.sh.WellFormed() && Enabled(s, a) && AllOrNothing(s)
    ensures AllOrNothing(Next(s, a))
  {
    var s' := Next(s, a);
    forall b | b in s'.bets && s'.bets[b].stage.Running? ensures UnracedIfFailed(s', s'.bets[b].stage.run) {
      RunningStep(s, a, b);
    }
    forall b | b in s'.bets && s'.bets[b].stage.RoundSettled? ensures RunnerDidNotFail(s', s'.bets[b].stage.r) {
      SettledStep(s, a, b);
    }
  }

  lemma RunningStep(s: State, a: Action, b: nat)
    requires Inv(s) && s.sh.WellFormed() && Enabled(s, a) && AllOrNothing(s)
    requires b in Next(s, a).bets && Next(s, a).bets[b].stage.Running?
    ensures UnracedIfFailed(Next(s, a), Next(s, a).bets[b].stage.run)
  {
    var t := Next(s, a).bets[b].stage.run;
    FailsIff(s, a, t);
    WinnerIff(s, a, t);
    OldRunning(s, a, b);
    if s.bets[b].stage == Next(s, a).bets[b].stage {
      assert UnracedIfFailed(s, t);
      if LosesRound(s, a, t) {
        FailedUnraced(s, a, b);
      } else if t in s.failed {
        NotAlive(s, t);
      }
    }
  }

  lemma NotAlive(s: State, t: nat)
    requires Seating(s) && t in s.failed
    ensures t !in s.runs
  {
  }

  lemma SettledStep(s: State, a: Action, b: nat)
    requires Inv(s) && s.sh.WellFormed() && Enabled(s, a) && AllOrNothing(s)
    requires b in Next(s, a).bets && Next(s, a).bets[b].stage.RoundSettled?
    ensures RunnerDidNotFail(Next(s, a), Next(s, a).bets[b].stage.r)
  {
    NewlySettled(s, a, b);
    RunnerKept(s, a);
    var r := Next(s, a).bets[b].stage.r;
    FailsIff(s, a, s.runner[r]);
    if a != PayNext(s.runner[r]) {
      NothingLostNow(s, a, b);
    }
  }

  /** A bet is running because it was, or because its run has just taken it. */
  lemma OldRunning(s: State, a: Action, b: nat)
    requires s.sh.WellFormed() && Enabled(s, a) && b in Next(s, a).bets && Next(s, a).bets[b].stage.Running?
    ensures b in s.bets
    ensures s.bets[b].stage == Next(s, a).bets[b].stage || (a == TakeNext(Next(s, a).bets[b].stage.run))
  {
    if a.PayWinner? || a.SettleNext? || a.PayNext? || a.Refund? {
      OldRunningAtCredits(s, a, b);
    }
  }

  lemma OldRunningAtCredits(s: State, a: Action, b: nat)
    requires s.sh.WellFormed() && Enabled(s, a) && b in Next(s, a).bets && Next(s, a).bets[b].stage.Running?
    requires a.PayWinner? || a.SettleNext? || a.PayNext? || a.Refund?
    ensures b in s.bets && s.bets[b].stage == Next(s, a).bets[b].stage
  {
  }

  /** A run that fails with a bet still running has not raced. */
  lemma FailedUnraced(s: State, a: Action, b: nat)
    requires Seating(s) && b in s.bets && s.bets[b].stage.Running? && LosesRound(s, a, s.bets[b].stage.run)
    requires s.sh.WellFormed() && Enabled(s, a)
    ensures s.bets[b].stage.run !in s.winners
  {
    var t := s.bets[b].stage.run;
    assert RunShape(s.runs[t], t in s.winners, s.cfg.maxMarbles);
    assert Attended(s.runs, s.failed, s.bets[b].stage);
    assert t !in s.failed;
  }

  /** A settled round bet was settled before, or by the live run of its round just now. */
  lemma NewlySettled(s: State, a: Action, b: nat)
    requires Inv(s) && s.sh.WellFormed() && Enabled(s, a) && AllOrNothing(s)
    requires b in Next(s, a).bets && Next(s, a).bets[b].stage.RoundSettled?
    ensures var r := Next(s, a).bets[b].stage.r;
      && r in s.runner && s.runner[r] !in s.failed
      && ((b in s.bets && s.bets[b].stage == Next(s, a).bets[b].stage) || a == PayNext(s.runner[r]))
  {
    if a.PayNext? {
      SettledByPay(s, a.t, b);
    } else {
      OldSettled(s, a, b);
    }
    if b in s.bets && s.bets[b].stage.RoundSettled? {
      assert RunnerDidNotFail(s, s.bets[b].stage.r);
    }
  }

  lemma SettledByPay(s: State, t: nat, b: nat)
    requires Inv(s) && s.sh.WellFormed() && Enabled(s, PayNext(t))
    requires b in Next(s, PayNext(t)).bets && Next(s, PayNext(t)).bets[b].stage.RoundSettled?
    ensures t !in s.failed
    ensures var st := Next(s, PayNext(t)).bets[b].stage;
      (b in s.bets && s.bets[b].stage == st) || (st.r in s.runner && s.runner[st.r] == t)
  {
    StepKeeps(s, PayNext(t));
    NextOfPay(s, t);
    assert s.runner[s.runs[t].r.value] == t;
  }

  lemma OldSettled(s: State, a: Action, b: nat)
    requires s.sh.WellFormed() && Enabled(s, a) && !a.PayNext?
    requires b in Next(s, a).bets && Next(s, a).bets[b].stage.RoundSettled?
    ensures b in s.bets && s.bets[b].stage == Next(s, a).bets[b].stage
  {
    if a.PayWinner? || a.SettleNext? || a.Refund? {
      OldSettledAtCredits(s, a, b);
    }
  }

  lemma OldSettledAtCredits(s: State, a: Action, b: nat)
    requires s.sh.WellFormed() && Enabled(s, a) && (a.PayWinner? || a.SettleNext? || a.Refund?)
    requires b in Next(s, a).bets && Next(s, a).bets[b].stage.RoundSettled?
    ensures b in s.bets && s.bets[b].stage == Next(s, a).bets[b].stage
  {
  }

  /** The run of a settled round bet can no longer fail. */
  lemma NothingLostNow(s: State, a: Action, b: nat)
    requires Filing(s) && s.sh.WellFormed() && Enabled(s, a) && b in s.bets && s.bets[b].stage.RoundSettled?
    requires RunsShape(s.runs, s.failed, s.ended, s.winners, s.cfg.maxMarbles)
    requires s.bets[b].stage.r in s.runner && s.runner[s.bets[b].stage.r] !in s.failed
    ensures !LosesRound(s, a, s.runner[s.bets[b].stage.r])
  {
    var t := s.runner[s.bets[b].stage.r];
    assert PastSlot(s.runner, s.runs, s.ended, s.bets[b].stage.r, s.bets[b].stage.i);
    assert t in s.runs ==> t !in s.ended;
  }

  lemma {:induction false} AllOrNothingAlways(s: State, path: seq<Action>)
    requires Inv(s) && IsPath(s, path) && AllOrNothing(s)
    ensures AllOrNothing(After(s, path))
    decreases |path|
  {
    if path != [] {
      StepKeeps(s, path[0]);
      AllOrNothingStep(s, path[0]);
      AllOrNothingAlways(Next(s, path[0]), path[1..]);
    }
  }

  // ---------------------------------------------------------------------------
  // Whole runs of the machine
  // ---------------------------------------------------------------------------

  /** Somewhere on the path, run t loses its seats. */
  ghost predicate LosesSeatsOn(s: State, path: seq<Action>, t: nat)
    requires IsPath(s, path)
    decreases |path|
  {
    path != [] && (LosesSeats(s, path[0], t) || LosesSeatsOn(Next(s, path[0]), path[1..], t))
  }

  /** Somewhere on the path, run t loses its round. */
  ghost predicate LosesRoundOn(s: State, path: seq<Action>, t: nat)
    requires IsPath(s, path)
    decreases |path|
  {
    path != [] && (LosesRound(s, path[0], t) || LosesRoundOn(Next(s, path[0]), path[1..], t))
  }

  predicate FailedUnracedIn(s: State, t: nat) { t in s.failed && t !in s.winners }

  lemma SeatsLostStep(s: State, a: Action, t: nat)
    requires Inv(s) && s.sh.WellFormed() && Enabled(s, a)
    ensures FailedUnracedIn(Next(s, a), t) <==> FailedUnracedIn(s, t) || LosesSeats(s, a, t)
  {
    FailsIff(s, a, t);
    WinnerIff(s, a, t);
    UnracedUntilSave(s, a, t);
  }

  /** A run that loses its seats has no winner yet; one whose replay is not stored has one. */
  lemma UnracedUntilSave(s: State, a: Action, t: nat)
    requires Seating(s) && s.sh.WellFormed() && Enabled(s, a)
    ensures LosesSeats(s, a, t) ==> t !in s.winners
    ensures LosesRound(s, a, t) && !LosesSeats(s, a, t) ==> t in s.winners
    ensures t in s.runs ==> t !in s.failed
  {
    if t in s.runs {
      assert RunShape(s.runs[t], t in s.winners, s.cfg.maxMarbles);
    }
  }

  lemma {:induction false} LossesOnPath(s: State, path: seq<Action>, t: nat)
    requires Inv(s) && IsPath(s, path)
    ensures t in After(s, path).failed <==> t in s.failed || LosesRoundOn(s, path, t)
    ensures FailedUnracedIn(After(s, path), t) <==> FailedUnracedIn(s, t) || LosesSeatsOn(s, path, t)
    decreases |path|
  {
    if path != [] {
      StepKeeps(s, path[0]);
      FailsIff(s, path[0], t);
      SeatsLostStep(s, path[0], t);
      LossesOnPath(Next(s, path[0]), path[1..], t);
    }
  }

  /** A bet taken by a run as one of its seats. */
  predicate HasSeat(st: Stage) { st.Running? || st.Paid? || st.SeatSettled? }

  /**
   When nothing is in progress: a bet that a run took with its queue is settled exactly if that run raced,
   a bet on a round exactly if the run of that round ended without error, and every other bet is refunded.
   */
  lemma SettledByRun(s: State, b: nat)
    requires Inv(s) && AllOrNothing(s) && Quiescent(s) && b in s.bets
    ensures var st := s.bets[b].stage;
      && (HasSeat(st) ==>
            && (st.run in s.failed || st.run in s.ended)
            && (WhereIs(s, st) == Done <==> st.run in s.winners)
            && (WhereIs(s, st) == Done <==> !FailedUnracedIn(s, st.run)))
      && (Slot(st).Some? ==>
            var r := Slot(st).value.0;
            r in s.runner && (WhereIs(s, st) == Done <==> s.runner[r] in s.ended)
            && (s.runner[r] in s.ended <==> s.runner[r] !in s.failed))
      && (!HasSeat(st) && Slot(st).None? ==> st == Refunded)
  {
    var st := s.bets[b].stage;
    if HasSeat(st) {
      SeatOutcome(s, b);
    } else if Slot(st).Some? {
      SlotOutcome(s, b);
    } else {
      NothingQueued(s, b);
    }
  }

  lemma NothingQueued(s: State, b: nat)
    requires QueueMatches(s.sh.sessions, s.sh.queue, s.bets) && s.sh.queue == [] && b in s.bets
    ensures !s.bets[b].stage.Queued?
  {
  }

  lemma SeatOutcome(s: State, b: nat)
    requires Seating(s) && AllOrNothing(s) && s.runs == map[] && b in s.bets && HasSeat(s.bets[b].stage)
    ensures var st := s.bets[b].stage;
      && !st.Paid? && (st.run in s.failed || st.run in s.ended)
      && (st.SeatSettled? <==> st.run in s.winners) && (st.SeatSettled? <==> !FailedUnracedIn(s, st.run))
  {
    var st := s.bets[b].stage;
    if st.Running? {
      assert Attended(s.runs, s.failed, st) && UnracedIfFailed(s, st.run);
    } else if st.SeatSettled? {
      assert SeatVerdict(s.runs, s.winners, st, Prize(s.cfg));
    }
  }

  lemma SlotOutcome(s: State, b: nat)
    requires Filing(s) && AllOrNothing(s) && s.runs == map[] && s.sh.pendingRounds == [] && s.failed !! s.ended
    requires b in s.bets && Slot(s.bets[b].stage).Some?
    ensures var r := Slot(s.bets[b].stage).value.0;
      && r in s.runner && (s.runner[r] in s.ended <==> s.runner[r] !in s.failed)
      && (s.bets[b].stage.RoundSettled? <==> s.runner[r] in s.ended)
  {
    var (r, i) := Slot(s.bets[b].stage).value;
    assert InItsSlot(s.sh.rounds, b, r, i);
    if s.bets[b].stage.OnRound? {
      assert !PastSlot(s.runner, s.runs, s.ended, r, i);
    } else {
      assert RunnerDidNotFail(s, r);
    }
  }

  /**
   "Every debited bet is settled or refunded in the end", exactly.  Over every run of the machine that ends
   with nothing in progress, a bet in a session is settled if and only if its run never lost its seats (the
   field fitted, there was a seed, the simulator answered, the arithmetic did not refuse the answer); a bet on
   a round is settled if and only if the run of that round never lost it (and the replay was stored); every
   other bet is refunded.
   */
  lemma SettledIff(s0: State, path: seq<Action>, b: nat)
    requires Initial(s0) && IsPath(s0, path) && Quiescent(After(s0, path)) && b in After(s0, path).bets
    ensures var s := After(s0, path); var st := s.bets[b].stage;
      && (HasSeat(st) ==> (WhereIs(s, st) == Done <==> !LosesSeatsOn(s0, path, st.run)))
      && (Slot(st).Some? ==>
            var r := Slot(st).value.0;
            r in s.runner && (WhereIs(s, st) == Done <==> !LosesRoundOn(s0, path, s.runner[r])))
      && (!HasSeat(st) && Slot(st).None? ==> st == Refunded)
  {
    var s := After(s0, path);
    InitialInv(s0);
    PathKeeps(s0, path);
    AllOrNothingAlways(s0, path);
    SettledByRun(s, b);
    if HasSeat(s.bets[b].stage) {
      LossesOnPath(s0, path, s.bets[b].stage.run);
    } else if Slot(s.bets[b].stage).Some? {
      LossesOnPath(s0, path, s.runner[Slot(s.bets[b].stage).value.0]);
    }
  }

  /** A run that fails only because its replay is not stored strands its whole round and no session. */
  lemma UnsavedRunStrandsItsRound(s: State, t: nat, b: nat)
    requires Reachable(s) && s.sh.WellFormed() && Enabled(s, Fail(t)) && s.runs[t].pc == Save && b in s.bets
    ensures var s' := Next(s, Fail(t)); var st := s.bets[b].stage;
      && s'.bets == s.bets
      && (StrandedBy(s', st) == Some(t) <==> Slot(st).Some? && OfRound(s, Slot(st).value.0, t))
      && !(st.Running? && st.run == t)
  {
    UnsavedBetOf(s, t, b);
    StrandedNow(s, t, s.bets[b].stage);
  }

  /** Does run t race round r? */
  predicate OfRound(s: State, r: Addr, t: nat) { r in s.runner && s.runner[r] == t }

  lemma StrandedNow(s: State, t: nat, st: Stage)
    requires s.sh.WellFormed() && Enabled(s, Fail(t))
    ensures Next(s, Fail(t)).bets == s.bets
    ensures StrandedBy(Next(s, Fail(t)), st) == Some(t) <==>
      (st.Running? && st.run == t) || (st.OnRound? && OfRound(s, st.r, t))
  {
  }

  lemma UnsavedBetOf(s: State, t: nat, b: nat)
    requires Reachable(s) && t in s.runs && s.runs[t].pc == Save && b in s.bets
    ensures var st := s.bets[b].stage;
      !(st.Running? && st.run == t) && !(st.RoundSettled? && OfRound(s, st.r, t))
  {
    ReachableInv(s);
    UnsavedBet(s, t, b);
  }

  /** Behind the settlement loop no seat is open, and no bet of the round is settled before the replay is stored. */
  lemma UnsavedBet(s: State, t: nat, b: nat)
    requires Seating(s) && Filing(s) && t in s.runs && s.runs[t].pc == Save && b in s.bets
    ensures var st := s.bets[b].stage;
      !(st.Running? && st.run == t) && !(st.RoundSettled? && OfRound(s, st.r, t))
  {
    var st := s.bets[b].stage;
    assert t !in s.failed && t !in s.ended;
    if st.Running? {
      assert Attended(s.runs, s.failed, st);
    } else if st.RoundSettled? {
      assert PastSlot(s.runner, s.runs, s.ended, st.r, st.i) || (st.r in s.runner && s.runner[st.r] in s.failed);
    }
  }
}
