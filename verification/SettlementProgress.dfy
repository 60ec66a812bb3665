/**
 No step of the settlement machine is hidden by its guards: in every reachable state, each call in progress
 can take the next step of its program, whatever the wallet, the simulator and the clock answer.
 */
module SettlementProgress {
  import opened Rounds
  import opened Settlement
  import opened SettlementInvariant
  import opened SettlementSteps
  import opened SettlementSafety

  /** The next step of a bet's own call is possible. */
  ghost predicate CallGoesOn(s: State, b: nat)
    requires s.sh.WellFormed() && b in s.bets
  {
    match s.bets[b].stage
    case SessionDebited(_) => Enabled(s, AskSession(b))
    case SessionRefused => Enabled(s, Refund(b))
    case Seated(_) => Enabled(s, QueueSession(b))
    case RoundDebited(_, _, _) => Enabled(s, Revalidate(b))
    case RoundRefused => Enabled(s, Refund(b))
    case _ => true
  }

  /** The next step of a RunNextRound is possible, for every outcome of what it calls. */
  ghost predicate RunGoesOn(s: State, t: nat)
    requires s.sh.WellFormed() && t in s.runs
  {
    match s.runs[t].pc
    case Taken =>
      if s.runs[t].r.Some? then Enabled(s, SeatField(t))
      else
        && Enabled(s, Fail(t))
        && forall r: Addr, spec: RoundSpec | r !in s.sh.rounds && spec.roundId !in s.sh.roundBets ::
             Enabled(s, FreshRound(t, r, spec))
    case Assign(_) => Enabled(s, AssignNext(t))
    case Sim =>
      && Enabled(s, Fail(t))
      && forall winner: int :: Enabled(s, Race(t, winner))
    case Settle(i) => Enabled(s, PayWinner(t)) || Enabled(s, SettleNext(t))
    case Save => Enabled(s, SaveAudit(t)) && Enabled(s, Fail(t))
    case Pay(_) => Enabled(s, PayNext(t)) || Enabled(s, Finish(t))
  }

  lemma CallsGoOn(s: State, b: nat)
    requires Reachable(s) && s.sh.WellFormed() && b in s.bets
    ensures CallGoesOn(s, b)
  {
    ReachableInv(s);
    CallStep(s, b);
  }

  lemma CallStep(s: State, b: nat)
    requires SeatsMatch(s.sh.sessions, s.bets) && SlotsMatch(s.sh.rounds, s.bets) && s.sh.WellFormed() && b in s.bets
    ensures CallGoesOn(s, b)
  {
  }

  lemma RunsGoOn(s: State, t: nat)
    requires Reachable(s) && s.sh.WellFormed() && t in s.runs
    ensures RunGoesOn(s, t)
  {
    ReachableInv(s);
    assert RunShape(s.runs[t], t in s.winners, s.cfg.maxMarbles);
    match s.runs[t].pc
    case Assign(i) => AssignStep(s, t, i);
    case Settle(i) => SettleStep(s, t, i);
    case Pay(j) => PayStep(s, t, j);
    case _ => OtherStep(s, t);
  }

  lemma AssignStep(s: State, t: nat, i: nat)
    requires Seating(s) && s.sh.WellFormed() && t in s.runs && s.runs[t].pc == Assign(i)
    ensures Enabled(s, AssignNext(t))
  {
    if i < |s.runs[t].list| {
      SeatInTurn(s, t, i);
    }
  }

  lemma SettleStep(s: State, t: nat, i: nat)
    requires Seating(s) && s.sh.WellFormed() && t in s.runs && s.runs[t].pc == Pc.Settle(i)
    requires RunShape(s.runs[t], t in s.winners, s.cfg.maxMarbles)
    ensures Enabled(s, PayWinner(t)) || Enabled(s, SettleNext(t))
  {
    if i < |s.runs[t].list| {
      SeatInTurn(s, t, i);
    }
    PayOrSettle(s, t);
  }

  lemma PayOrSettle(s: State, t: nat)
    requires s.sh.WellFormed() && t in s.runs && s.runs[t].pc.Settle? && t in s.winners
    requires s.runs[t].pc.i < |s.runs[t].list| ==> SeatHasBet(s, t)
    ensures Enabled(s, PayWinner(t)) || Enabled(s, SettleNext(t))
  {
  }

  lemma OtherStep(s: State, t: nat)
    requires s.sh.WellFormed() && t in s.runs && RunShape(s.runs[t], t in s.winners, s.cfg.maxMarbles)
    requires s.runs[t].pc == Taken || s.runs[t].pc == Sim || s.runs[t].pc == Save
    ensures RunGoesOn(s, t)
  {
  }

  lemma PayStep(s: State, t: nat, j: nat)
    requires Filing(s) && s.sh.WellFormed() && t in s.runs && s.runs[t].pc == Pay(j)
    requires RunShape(s.runs[t], t in s.winners, s.cfg.maxMarbles)
    ensures Enabled(s, PayNext(t)) || Enabled(s, Finish(t))
  {
    var r := s.runs[t].r.value;
    assert r in s.runner && r in s.sh.rounds;
    if j < |s.sh.rounds[r].bets| {
      assert SlotFilled(s.sh.rounds, s.bets, r, j);
    }
  }
}
