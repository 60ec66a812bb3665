/**
 No call of the settlement machine goes on for ever: every step of a call uses up some of what it has left, and no
 step of another call gives it any back.
 */
module SettlementBounds {
  import opened Settlement
  import opened SettlementInvariant
  import opened SettlementSteps
  import opened SettlementSafety
  import opened Common

  /** The run a step belongs to. */
  function RunOf(a: Action): Option<nat> {
    match a
    case TakeNext(t) => Some(t)
    case FreshRound(t, _, _) => Some(t)
    case SeatField(t) => Some(t)
    case AssignNext(t) => Some(t)
    case Race(t, _) => Some(t)
    case PayWinner(t) => Some(t)
    case SettleNext(t) => Some(t)
    case SaveAudit(t) => Some(t)
    case PayNext(t) => Some(t)
    case Finish(t) => Some(t)
    case Fail(t) => Some(t)
    case _ => None
  }

  /** The bets on the round of run t. */
  function BetsOf(rounds: RoundTable, run: Run): nat {
    if run.r.Some? && run.r.value in rounds then |rounds[run.r.value].bets| else 0
  }

  predicate PaidBy(st: Stage, t: nat) { st.Paid? && st.run == t }

  /** Has run t credited the winner without having settled the session yet? */
  ghost predicate TillPaid(bets: Bets, t: nat) {
    exists b :: b in bets && PaidBy(bets[b].stage, t)
  }

  function Rest(n: nat, i: nat): nat { if i <= n then n - i else 0 }

  /** What is left of a run with n seats and m round bets, at most. */
  function Remaining(pc: Pc, roundless: bool, paid: bool, n: nat, m: nat): nat {
    match pc
    case Taken => m + 3 * n + 7 + if roundless then 1 else 0
    case Assign(i) => m + 2 * n + Rest(n, i) + 6
    case Sim => m + 2 * n + 5
    case Settle(i) => m + 2 * Rest(n, i) + if paid then 3 else 4
    case Save => m + 2
    case Pay(j) => Rest(m, j) + 1
  }

  ghost function Left(s: State, t: nat): nat
    requires t in s.runs
  {
    var run := s.runs[t];
    Remaining(run.pc, run.r.None?, TillPaid(s.bets, t), |run.list|, BetsOf(s.sh.rounds, run))
  }

  /** A run has at most three steps per seat, one per round bet, and eight more. */
  lemma LeftIsSmall(s: State, t: nat)
    requires t in s.runs
    ensures Left(s, t) <= 3 * |s.runs[t].list| + BetsOf(s.sh.rounds, s.runs[t]) + 8
  {
  }

  // ---------------------------------------------------------------------------
  // A step of the run itself
  // ---------------------------------------------------------------------------

  /** Run t has stopped, or has less left than before. */
  ghost predicate Lowered(s: State, s': State, t: nat)
    requires t in s.runs
  {
    t !in s'.runs || Left(s', t) < Left(s, t)
  }

  lemma GuardLowers(s: State, a: Action, t: nat)
    requires s.sh.WellFormed() && Enabled(s, a) && t in s.runs && RunOf(a) == Some(t)
    requires a.FreshRound? || a.SeatField? || a.Race? || a.SaveAudit? || a.Finish? || a.Fail?
    ensures Lowered(s, Next(s, a), t)
  {
  }

  lemma AssignLowers(s: State, t: nat)
    requires s.sh.WellFormed() && Enabled(s, AssignNext(t)) && RunShape(s.runs[t], t in s.winners, s.cfg.maxMarbles)
    ensures Lowered(s, Next(s, AssignNext(t)), t)
  {
  }

  lemma SettleLowers(s: State, t: nat)
    requires s.sh.WellFormed() && Enabled(s, SettleNext(t)) && RunShape(s.runs[t], t in s.winners, s.cfg.maxMarbles)
    ensures Lowered(s, Next(s, SettleNext(t)), t)
  {
  }

  lemma PayLowers(s: State, t: nat)
    requires s.sh.WellFormed() && Enabled(s, PayNext(t)) && CreditsApply(s, PayNext(t))
    ensures Lowered(s, Next(s, PayNext(t)), t)
  {
    NextOfPay(s, t);
  }

  /** A paid bet of the run is that of the seat in turn. */
  lemma PaidIsInTurn(s: State, t: nat, b: nat)
    requires Seating(s) && s.sh.WellFormed() && t in s.runs && s.runs[t].pc.Settle? && SeatHasBet(s, t)
    requires b in s.bets && PaidBy(s.bets[b].stage, t)
    ensures b == SeatBet(s, t).id
  {
    assert AtTheTill(s.runs, s.winners, s.bets[b].stage, Prize(s.cfg));
    assert InItsSeat(s.sh.sessions, b, s.bets[b].stage.s);
  }

  /** The winner is paid once. */
  lemma NotPaidYet(s: State, t: nat)
    requires Seating(s) && s.sh.WellFormed() && Enabled(s, PayWinner(t))
    ensures !TillPaid(s.bets, t)
  {
    forall b | b in s.bets && PaidBy(s.bets[b].stage, t) ensures b == SeatBet(s, t).id {
      PaidIsInTurn(s, t, b);
    }
  }

  lemma WinnerPaid(s: State, t: nat)
    requires s.sh.WellFormed() && Enabled(s, PayWinner(t)) && CreditsApply(s, PayWinner(t))
    ensures var s' := Next(s, PayWinner(t));
      s'.runs == s.runs && s'.sh == s.sh && TillPaid(s'.bets, t)
  {
    var b := SeatBet(s, t).id;
    assert PaidBy(Next(s, PayWinner(t)).bets[b].stage, t);
  }

  lemma PayWinnerLowers(s: State, t: nat)
    requires s.sh.WellFormed() && Enabled(s, PayWinner(t)) && CreditsApply(s, PayWinner(t)) && !TillPaid(s.bets, t)
    ensures Lowered(s, Next(s, PayWinner(t)), t)
  {
    WinnerPaid(s, t);
  }

  lemma CreditsAreApplied(s: State, a: Action)
    requires Inv(s) && Enabled(s, a)
    ensures CreditsApply(s, a)
  {
    StepKeeps(s, a);
  }

  /** Before its end, a run that takes a step has less left than before. */
  lemma OwnStepLowers(s: State, a: Action, t: nat)
    requires Inv(s) && Enabled(s, a) && t in s.runs && RunOf(a) == Some(t)
    ensures Lowered(s, Next(s, a), t)
  {
    if a.PayWinner? || a.PayNext? {
      CreditStepLowers(s, a, t);
    } else if a.AssignNext? || a.SettleNext? {
      LoopStepLowers(s, a, t);
    } else {
      NotTakenTwice(s, a, t);
      GuardLowers(s, a, t);
    }
  }

  lemma NotTakenTwice(s: State, a: Action, t: nat)
    requires s.sh.WellFormed() && Enabled(s, a) && t in s.runs && RunOf(a) == Some(t)
    ensures !a.TakeNext?
  {
  }

  lemma LoopStepLowers(s: State, a: Action, t: nat)
    requires Seating(s) && s.sh.WellFormed() && Enabled(s, a) && t in s.runs && RunOf(a) == Some(t)
    requires a.AssignNext? || a.SettleNext?
    ensures Lowered(s, Next(s, a), t)
  {
    assert RunShape(s.runs[t], t in s.winners, s.cfg.maxMarbles);
    if a.AssignNext? {
      AssignLowers(s, t);
    } else {
      SettleLowers(s, t);
    }
  }

  lemma CreditStepLowers(s: State, a: Action, t: nat)
    requires Inv(s) && Enabled(s, a) && t in s.runs && RunOf(a) == Some(t) && (a.PayWinner? || a.PayNext?)
    ensures Lowered(s, Next(s, a), t)
  {
    CreditsAreApplied(s, a);
    if a.PayWinner? {
      NotPaidYet(s, t);
      PayWinnerLowers(s, t);
    } else {
      PayLowers(s, t);
    }
  }

  // ---------------------------------------------------------------------------
  // A step of anybody else
  // ---------------------------------------------------------------------------

  lemma OthersSpareTheTill(s: State, a: Action, t: nat)
    requires s.sh.WellFormed() && Enabled(s, a) && OwnBetsOnly(s, a) && RunOf(a) != Some(t)
    ensures TillPaid(Next(s, a).bets, t) <==> TillPaid(s.bets, t)
  {
    forall b
      ensures b in Next(s, a).bets && PaidBy(Next(s, a).bets[b].stage, t)
        <==> b in s.bets && PaidBy(s.bets[b].stage, t)
    {
      if a.PayWinner? || a.SettleNext? || a.PayNext? {
        OtherRunSparesBet(s, a, t, b);
      } else {
        OtherCallSparesBet(s, a, t, b);
      }
    }
  }

  lemma OtherRunSparesBet(s: State, a: Action, t: nat, b: nat)
    requires s.sh.WellFormed() && Enabled(s, a) && OwnBetsOnly(s, a) && RunOf(a) != Some(t)
    requires a.PayWinner? || a.SettleNext? || a.PayNext?
    ensures b in Next(s, a).bets && PaidBy(Next(s, a).bets[b].stage, t) <==> b in s.bets && PaidBy(s.bets[b].stage, t)
  {
  }

  lemma OtherCallSparesBet(s: State, a: Action, t: nat, b: nat)
    requires s.sh.WellFormed() && Enabled(s, a) && !a.PayWinner? && !a.SettleNext? && !a.PayNext?
    ensures b in Next(s, a).bets && PaidBy(Next(s, a).bets[b].stage, t) <==> b in s.bets && PaidBy(s.bets[b].stage, t)
  {
  }

  lemma OthersSpareTheRun(s: State, a: Action, t: nat)
    requires s.sh.WellFormed() && Enabled(s, a) && t in s.runs && RunOf(a) != Some(t)
    ensures t in Next(s, a).runs && Next(s, a).runs[t] == s.runs[t]
  {
    if a.PayWinner? || a.SettleNext? || a.PayNext? || a.AssignNext? {
      OtherRunsSpareTheRun(s, a, t);
    }
  }

  lemma OtherRunsSpareTheRun(s: State, a: Action, t: nat)
    requires s.sh.WellFormed() && Enabled(s, a) && t in s.runs && RunOf(a) != Some(t)
    requires a.PayWinner? || a.SettleNext? || a.PayNext? || a.AssignNext?
    ensures t in Next(s, a).runs && Next(s, a).runs[t] == s.runs[t]
  {
    if a.AssignNext? || a.SettleNext? {
      OtherLoopsSpareTheRun(s, a, t);
    }
  }

  lemma OtherLoopsSpareTheRun(s: State, a: Action, t: nat)
    requires s.sh.WellFormed() && Enabled(s, a) && t in s.runs && RunOf(a) != Some(t)
    requires a.AssignNext? || a.SettleNext?
    ensures t in Next(s, a).runs && Next(s, a).runs[t] == s.runs[t]
  {
  }

  lemma OthersSpareTheRound(s: State, a: Action, t: nat)
    requires Filing(s) && Enabled(s, a) && t in s.runs
    ensures BetsOf(Next(s, a).sh.rounds, s.runs[t]) == BetsOf(s.sh.rounds, s.runs[t])
  {
    if s.runs[t].r.Some? {
      var r := s.runs[t].r.value;
      assert r in s.runner && r in s.sh.rounds;
      StepFreezes(s, a, r);
    }
  }

  /** Nobody else's step changes what a run has left. */
  lemma OtherStepSpares(s: State, a: Action, t: nat)
    requires Inv(s) && Enabled(s, a) && t in s.runs && RunOf(a) != Some(t)
    ensures t in Next(s, a).runs && Left(Next(s, a), t) == Left(s, t)
  {
    StepKeeps(s, a);
    OwnBets(s, a);
    OthersSpareTheRun(s, a, t);
    OthersSpareTheRound(s, a, t);
    OthersSpareTheTill(s, a, t);
  }

  // ---------------------------------------------------------------------------
  // Whole runs
  // ---------------------------------------------------------------------------

  /** The steps of run t on a path. */
  function StepsOf(path: seq<Action>, t: nat): nat {
    if path == [] then 0 else (if RunOf(path[0]) == Some(t) then 1 else 0) + StepsOf(path[1..], t)
  }

  predicate Over(s: State, t: nat) { t !in s.runs && (t in s.failed || t in s.ended) }

  /** The call has taken the queue. */
  predicate Known(s: State, t: nat) { t in s.runs || Over(s, t) }

  ghost function LeftNow(s: State, t: nat): nat { if t in s.runs then Left(s, t) else 0 }

  lemma StaysKnown(s: State, a: Action, t: nat)
    requires s.sh.WellFormed() && Enabled(s, a) && Known(s, t)
    ensures Known(Next(s, a), t) && (Over(s, t) ==> Over(Next(s, a), t) && RunOf(a) != Some(t))
  {
    if a.PayWinner? || a.SettleNext? || a.PayNext? || a.AssignNext? {
      StaysKnownInLoops(s, a, t);
    }
  }

  lemma StaysKnownInLoops(s: State, a: Action, t: nat)
    requires s.sh.WellFormed() && Enabled(s, a) && Known(s, t)
    requires a.PayWinner? || a.SettleNext? || a.PayNext? || a.AssignNext?
    ensures Known(Next(s, a), t) && (Over(s, t) ==> Over(Next(s, a), t) && RunOf(a) != Some(t))
  {
  }

  function Cost(a: Action, t: nat): nat { if RunOf(a) == Some(t) then 1 else 0 }

  /** Every step of a run uses up some of what it has left, and no other step changes that. */
  lemma StepUsesUp(s: State, a: Action, t: nat)
    requires Inv(s) && Enabled(s, a) && Known(s, t)
    ensures Known(Next(s, a), t) && Cost(a, t) + LeftNow(Next(s, a), t) <= LeftNow(s, t)
    ensures Cost(a, t) == 0 ==> LeftNow(Next(s, a), t) == LeftNow(s, t)
  {
    StaysKnown(s, a, t);
    if t in s.runs {
      LiveStepUsesUp(s, a, t);
    }
  }

  lemma LiveStepUsesUp(s: State, a: Action, t: nat)
    requires Inv(s) && Enabled(s, a) && t in s.runs
    ensures Cost(a, t) + LeftNow(Next(s, a), t) <= LeftNow(s, t)
    ensures Cost(a, t) == 0 ==> LeftNow(Next(s, a), t) == LeftNow(s, t)
  {
    if RunOf(a) == Some(t) {
      OwnStepLowers(s, a, t);
    } else {
      OtherStepSpares(s, a, t);
    }
  }

  lemma {:induction false} PathUsesUp(s: State, path: seq<Action>, t: nat)
    requires Inv(s) && IsPath(s, path) && Known(s, t)
    ensures StepsOf(path, t) + LeftNow(After(s, path), t) <= LeftNow(s, t)
    decreases |path|
  {
    if path != [] {
      StepKeeps(s, path[0]);
      StepUsesUp(s, path[0], t);
      PathUsesUp(Next(s, path[0]), path[1..], t);
    }
  }

  /**
   Whatever the other calls do, a RunNextRound that has taken n sessions and a round with m bets takes at most
   3n + m + 8 more steps.
   */
  lemma RunIsBounded(s: State, path: seq<Action>, t: nat)
    requires Inv(s) && IsPath(s, path) && t in s.runs
    ensures StepsOf(path, t) <= 3 * |s.runs[t].list| + BetsOf(s.sh.rounds, s.runs[t]) + 8
  {
    PathUsesUp(s, path, t);
    LeftIsSmall(s, t);
  }

  // ---------------------------------------------------------------------------
  // Bets
  // ---------------------------------------------------------------------------

  /** The bet whose own call takes this step. */
  function CallOf(a: Action): Option<nat> {
    match a
    case AskSession(b) => Some(b)
    case QueueSession(b) => Some(b)
    case Refund(b) => Some(b)
    case Revalidate(b) => Some(b)
    case _ => None
  }

  /** The steps that the call of a bet still has to take, at most. */
  function CallLeft(st: Stage): nat {
    match st
    case SessionDebited(_) => 2
    case RoundDebited(_, _, _) => 2
    case SessionRefused => 1
    case RoundRefused => 1
    case Seated(_) => 1
    case _ => 0
  }

  /**
   PlaceBet and PlaceBetOnRound: each of their steps behind the debit brings them nearer to their end, and no
   other does.
   */
  lemma CallIsBounded(s: State, a: Action, b: nat)
    requires Inv(s) && Enabled(s, a) && b in s.bets
    ensures b in Next(s, a).bets
    ensures if CallOf(a) == Some(b) then CallLeft(Next(s, a).bets[b].stage) < CallLeft(s.bets[b].stage)
      else CallLeft(Next(s, a).bets[b].stage) == CallLeft(s.bets[b].stage)
  {
    if a.PayWinner? || a.SettleNext? || a.PayNext? {
      StepKeeps(s, a);
      RunsSpareCalls(s, a, b);
    } else {
      CallStep(s, a, b);
    }
  }

  lemma RunsSpareCalls(s: State, a: Action, b: nat)
    requires s.sh.WellFormed() && Enabled(s, a) && Payable(s, a) && b in s.bets
    requires a.PayWinner? || a.SettleNext? || a.PayNext?
    ensures b in Next(s, a).bets && CallLeft(Next(s, a).bets[b].stage) == CallLeft(s.bets[b].stage)
  {
    if a.PayNext? {
      PaySparesCalls(s, a.t, b);
    }
  }

  lemma PaySparesCalls(s: State, t: nat, b: nat)
    requires s.sh.WellFormed() && Enabled(s, PayNext(t)) && Payable(s, PayNext(t)) && b in s.bets
    ensures b in Next(s, PayNext(t)).bets && CallLeft(Next(s, PayNext(t)).bets[b].stage) == CallLeft(s.bets[b].stage)
  {
  }

  lemma CallStep(s: State, a: Action, b: nat)
    requires s.sh.WellFormed() && Enabled(s, a) && b in s.bets && !a.PayWinner? && !a.SettleNext? && !a.PayNext?
    ensures b in Next(s, a).bets
    ensures if CallOf(a) == Some(b) then CallLeft(Next(s, a).bets[b].stage) < CallLeft(s.bets[b].stage)
      else CallLeft(Next(s, a).bets[b].stage) == CallLeft(s.bets[b].stage)
  {
    if CallOf(a).None? {
      OthersSpareCalls(s, a, b);
    }
  }

  lemma OthersSpareCalls(s: State, a: Action, b: nat)
    requires s.sh.WellFormed() && Enabled(s, a) && b in s.bets && !a.PayWinner? && !a.SettleNext? && !a.PayNext?
    requires CallOf(a).None?
    ensures b in Next(s, a).bets && CallLeft(Next(s, a).bets[b].stage) == CallLeft(s.bets[b].stage)
  {
  }
}
