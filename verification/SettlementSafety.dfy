/** The main results about the settlement machine, over every run from a funded, empty server. */
module SettlementSafety {
  import opened Common
  import opened Sums
  import opened Sessions
  import opened ManagerState
  import opened Settlement
  import opened SettlementInvariant
  import opened SettlementSteps
  import W = Wallet

  /** s is the state after some run of the machine. */
  ghost predicate Reachable(s: State) {
    exists s0, path :: Initial(s0) && IsPath(s0, path) && After(s0, path) == s
  }

  lemma {:induction false} PathKeeps(s: State, path: seq<Action>)
    requires Inv(s) && IsPath(s, path)
    ensures Inv(After(s, path))
    decreases |path|
  {
    if path != [] {
      StepKeeps(s, path[0]);
      PathKeeps(Next(s, path[0]), path[1..]);
    }
  }

  lemma ReachableInv(s: State)
    requires Reachable(s)
    ensures Inv(s)
  {
    var s0, path :| Initial(s0) && IsPath(s0, path) && After(s0, path) == s;
    InitialInv(s0);
    PathKeeps(s0, path);
  }

  // ---------------------------------------------------------------------------
  // Conservation of money
  // ---------------------------------------------------------------------------

  datatype Place = InFlight | Awaiting | InRace | Stranded | Done

  /** Where the stake of a bet is held. */
  function WhereIs(s: State, st: Stage): Place {
    match st
    case Queued(_) => Awaiting
    case OnRound(r, _) =>
      if r !in s.runner then Awaiting else if s.runner[r] in s.runs then InRace else Stranded
    case Running(_, t) => if t in s.runs then InRace else Stranded
    case Paid(_, t, _) => InRace
    case SeatSettled(_, _, _) => Done
    case RoundSettled(_, _, _) => Done
    case Refunded => Done
    case _ => InFlight
  }

  /** The stakes held in one place. */
  ghost function Stakes(s: State, p: Place): map<nat, int> {
    map b | b in s.bets :: StakeIn(s, s.bets[b], p)
  }

  /** What the house has taken from, or paid on, one bet. */
  function HouseShare(rec: BetRec): int {
    match rec.stage
    case SeatSettled(_, _, w) => rec.units - (match w case Some(p) => p case None => 0)
    case RoundSettled(_, _, w) => rec.units - (match w case Some(p) => p case None => 0)
    case Paid(_, _, p) => 0 - p
    case _ => 0
  }

  ghost function HouseShares(bets: Bets): map<nat, int> {
    map b | b in bets :: HouseShare(bets[b])
  }

  /** The signed balance of the house. */
  ghost function House(s: State): int { Sum(HouseShares(s.bets)) }

  /** The part of a bet's units held in place p. */
  function StakeIn(s: State, rec: BetRec, p: Place): int {
    if WhereIs(s, rec.stage) == p then rec.units else 0
  }

  lemma OutlayParts(s: State, rec: BetRec)
    ensures Outlay(rec) == StakeIn(s, rec, InFlight) + StakeIn(s, rec, Awaiting) + StakeIn(s, rec, InRace)
                           + StakeIn(s, rec, Stranded) + HouseShare(rec)
  {
  }

  lemma {:induction false} SumOfFive(a: map<nat, int>, b: map<nat, int>, c: map<nat, int>, d: map<nat, int>,
                                     e: map<nat, int>, t: map<nat, int>)
    requires a.Keys == b.Keys == c.Keys == d.Keys == e.Keys == t.Keys
    requires forall k | k in t :: t[k] == a[k] + b[k] + c[k] + d[k] + e[k]
    ensures Sum(t) == Sum(a) + Sum(b) + Sum(c) + Sum(d) + Sum(e)
    decreases |t|
  {
    if t == map[] {
      assert a == map[] && b == map[] && c == map[] && d == map[] && e == map[];
    } else {
      var k :| k in t;
      SumRemove(a, k);
      SumRemove(b, k);
      SumRemove(c, k);
      SumRemove(d, k);
      SumRemove(e, k);
      SumRemove(t, k);
      assert |t - {k}| < |t| by { assert (t - {k}).Keys == t.Keys - {k}; }
      SumOfFive(a - {k}, b - {k}, c - {k}, d - {k}, e - {k}, t - {k});
    }
  }

  lemma OutlaysSplit(s: State)
    ensures Sum(Outlays(s.bets)) == Sum(Stakes(s, InFlight)) + Sum(Stakes(s, Awaiting)) + Sum(Stakes(s, InRace))
      + Sum(Stakes(s, Stranded)) + House(s)
  {
    var t := Outlays(s.bets);
    forall b | b in t
      ensures t[b] == Stakes(s, InFlight)[b] + Stakes(s, Awaiting)[b] + Stakes(s, InRace)[b]
                      + Stakes(s, Stranded)[b] + HouseShares(s.bets)[b]
    {
      OutlayParts(s, s.bets[b]);
    }
    SumOfFive(Stakes(s, InFlight), Stakes(s, Awaiting), Stakes(s, InRace), Stakes(s, Stranded), HouseShares(s.bets), t);
  }

  /**
   In every reachable state, the wallets, the stakes in flight, waiting, racing and stranded, and the
   house together hold the initial money, less 2^64 for every credit that wrapped a balance around:
   conservation is exact if and only if no credit has overflowed.
   */
  lemma MoneyConserved(s: State)
    requires Reachable(s)
    ensures Sum(s.wallet.balances) + Sum(Stakes(s, InFlight)) + Sum(Stakes(s, Awaiting)) + Sum(Stakes(s, InRace))
      + Sum(Stakes(s, Stranded)) + House(s) == s.base - TWO_64 * s.wraps
  {
    ReachableInv(s);
    OutlaysSplit(s);
  }

  // ---------------------------------------------------------------------------
  // Exactly once
  // ---------------------------------------------------------------------------

  /** The wallet's log shows one debit per bet and never both a refund and a prize; the amounts are those of the bet. */
  lemma OneOutcomePerBet(s: State, b: nat)
    requires Reachable(s) && b in s.bets
    ensures BetTx(b) in s.wallet.applied && s.wallet.applied[BetTx(b)] == W.DebitMark(s.bets[b].units)
    ensures !(RefundTx(b) in s.wallet.applied && CreditTx(b) in s.wallet.applied)
    ensures RefundTx(b) in s.wallet.applied ==>
      s.bets[b].stage == Refunded && s.wallet.applied[RefundTx(b)] == W.CreditMark(s.bets[b].units)
    ensures CreditTx(b) in s.wallet.applied ==>
      Won(s.bets[b].stage).Some? && s.wallet.applied[CreditTx(b)] == W.CreditMark(Won(s.bets[b].stage).value)
  {
    ReachableInv(s);
    assert LogEntry(s.wallet, b, s.bets[b]);
  }

  /** Does round r list bet b at position i? */
  ghost predicate Lists(s: State, r: Addr, i: nat, b: nat) {
    r in s.sh.rounds && i < |s.sh.rounds[r].bets| && s.sh.rounds[r].bets[i].id == b
  }

  /**
   A bet is listed in at most one place of one round, with the amount that was debited; BetsForRound
   answers with the very list of the round; and a bet placed on a round, once its call has returned,
   is either listed exactly once or has been refunded in full.
   */
  lemma ListedOnceOrRefunded(s: State, b: nat)
    requires Reachable(s) && b in s.bets
    ensures forall r: Addr, i: nat :: Lists(s, r, i, b) <==> Slot(s.bets[b].stage) == Some((r, i))
    ensures forall r: Addr, i: nat | Lists(s, r, i, b) ::
      && s.bets[b].units == Units(s.sh.rounds[r].bets[i].amount)
      && s.sh.rounds[r].spec.roundId in s.sh.roundBets
      && s.sh.roundBets[s.sh.rounds[r].spec.roundId] == s.sh.rounds[r].bets
    ensures RefundTx(b) in s.wallet.applied ==> forall r: Addr, i: nat :: !Lists(s, r, i, b)
  {
    ReachableInv(s);
    assert LogEntry(s.wallet, b, s.bets[b]);
    if Slot(s.bets[b].stage).Some? {
      assert InItsSlot(s.sh.rounds, b, Slot(s.bets[b].stage).value.0, Slot(s.bets[b].stage).value.1);
    }
    forall r: Addr, i: nat | Lists(s, r, i, b)
      ensures Slot(s.bets[b].stage) == Some((r, i)) && s.bets[b].units == Units(s.sh.rounds[r].bets[i].amount)
      ensures Mirrored(s.sh.rounds[r], s.sh.roundBets)
    {
      assert SlotFilled(s.sh.rounds, s.bets, r, i);
    }
  }

  /** Once a run has popped a round, its bets are frozen; until then they only grow at the end. */
  lemma {:induction false} PoppedBetsFrozen(s: State, path: seq<Action>, r: Addr)
    requires Inv(s) && IsPath(s, path) && r in s.sh.rounds
    ensures r in After(s, path).sh.rounds && After(s, path).sh.rounds[r].spec == s.sh.rounds[r].spec
    ensures s.sh.rounds[r].bets <= After(s, path).sh.rounds[r].bets
    ensures r in s.runner ==>
      && r in After(s, path).runner && After(s, path).runner[r] == s.runner[r]
      && After(s, path).sh.rounds[r].bets == s.sh.rounds[r].bets
    decreases |path|
  {
    if path != [] {
      StepKeeps(s, path[0]);
      StepFreezes(s, path[0], r);
      PoppedBetsFrozen(Next(s, path[0]), path[1..], r);
    }
  }

  lemma StepFreezes(s: State, a: Action, r: Addr)
    requires Filing(s) && Enabled(s, a) && r in s.sh.rounds
    ensures Freezes(s, Next(s, a), r)
  {
    if a.Revalidate? {
      RevalidationIsExact(s, s.bets[a.b].stage.r);
      RevalidateFreezes(s, a.b, r);
    } else {
      OthersFreeze(s, a, r);
    }
  }

  /** From s to s', round r keeps its id, only appends while pending, and is frozen once it has a runner. */
  ghost predicate Freezes(s: State, s': State, r: Addr)
    requires r in s.sh.rounds
  {
    && r in s'.sh.rounds && s'.sh.rounds[r].spec == s.sh.rounds[r].spec
    && s.sh.rounds[r].bets <= s'.sh.rounds[r].bets
    && (r in s.runner ==>
        r in s'.runner && s'.runner[r] == s.runner[r] && s'.sh.rounds[r].bets == s.sh.rounds[r].bets)
  }

  lemma RevalidateFreezes(s: State, b: nat, r: Addr)
    requires s.sh.WellFormed() && Enabled(s, Revalidate(b)) && r in s.sh.rounds
    requires Popping(s.sh.rounds, s.sh.pendingRounds, s.runner)
    requires var q := s.bets[b].stage.r;
      s.sh.FindPendingRound(s.sh.rounds[q].spec.roundId) == (if q in s.sh.pendingRounds then Some(q) else None)
    ensures Freezes(s, Next(s, Revalidate(b)), r)
  {
  }

  lemma OthersFreeze(s: State, a: Action, r: Addr)
    requires s.sh.WellFormed() && Enabled(s, a) && !a.Revalidate? && r in s.sh.rounds
    requires Popping(s.sh.rounds, s.sh.pendingRounds, s.runner)
    ensures Freezes(s, Next(s, a), r)
  {
    if a.MintRound? || a.FreshRound? || a.TakeNext? {
      NewRoundsFreeze(s, a, r);
    } else {
      RoundsUntouched(s, a);
    }
  }

  lemma NewRoundsFreeze(s: State, a: Action, r: Addr)
    requires s.sh.WellFormed() && Enabled(s, a) && (a.MintRound? || a.FreshRound? || a.TakeNext?) && r in s.sh.rounds
    requires Popping(s.sh.rounds, s.sh.pendingRounds, s.runner)
    ensures Freezes(s, Next(s, a), r)
  {
  }

  lemma RoundsUntouched(s: State, a: Action)
    requires s.sh.WellFormed() && Enabled(s, a)
    requires !a.Revalidate? && !a.MintRound? && !a.FreshRound? && !a.TakeNext?
    ensures Next(s, a).sh.rounds == s.sh.rounds && Next(s, a).runner == s.runner
  {
    if !OfRun(a) {
      RoundsUntouchedByCalls(s, a);
    } else {
      RoundsUntouchedByRuns(s, a);
    }
  }

  lemma RoundsUntouchedByCalls(s: State, a: Action)
    requires s.sh.WellFormed() && Enabled(s, a)
    requires a.OpenSession? || a.CloseSession? || a.DebitSession? || a.AskSession? || a.QueueSession? || a.Refund?
      || a.DebitRound?
    ensures Next(s, a).sh.rounds == s.sh.rounds && Next(s, a).runner == s.runner
  {
  }

  lemma RoundsUntouchedByRuns(s: State, a: Action)
    requires s.sh.WellFormed() && Enabled(s, a)
    requires a.SeatField? || a.AssignNext? || a.Race? || a.PayWinner? || a.SettleNext? || a.SaveAudit? || a.PayNext?
      || a.Finish? || a.Fail?
    ensures Next(s, a).sh.rounds == s.sh.rounds && Next(s, a).runner == s.runner
  {
    if a.PayWinner? || a.SettleNext? || a.PayNext? {
      RoundsUntouchedByCredits(s, a);
    }
  }

  lemma RoundsUntouchedByCredits(s: State, a: Action)
    requires s.sh.WellFormed() && Enabled(s, a) && (a.PayWinner? || a.SettleNext? || a.PayNext?)
    ensures Next(s, a).sh.rounds == s.sh.rounds && Next(s, a).runner == s.runner
  {
  }

  // ---------------------------------------------------------------------------
  // Unreachable errors, single winners
  // ---------------------------------------------------------------------------

  /**
   The error returns of AssignMarble, of Settle and of every credit in RunNextRound are unreachable, and
   so is a refused refund: these steps never fail their run, and each credit moves money.
   */
  lemma SettlementErrorsUnreachable(s: State, a: Action)
    requires Reachable(s) && s.sh.WellFormed() && Enabled(s, a)
    ensures a.AssignNext? || a.PayWinner? || a.SettleNext? || a.PayNext? ==> Next(s, a).failed == s.failed
    ensures a.Refund? || a.PayWinner? ==> Next(s, a).wallet != s.wallet
  {
    ReachableInv(s);
    StepKeeps(s, a);
    NoErrorReturns(s, a);
  }

  lemma NoErrorReturns(s: State, a: Action)
    requires Books(s) && s.sh.WellFormed() && Enabled(s, a) && Payable(s, a) && CreditsApply(s, a) && SeatFacts(s, a)
    ensures a.AssignNext? || a.PayWinner? || a.SettleNext? || a.PayNext? ==> Next(s, a).failed == s.failed
    ensures a.Refund? || a.PayWinner? ==> Next(s, a).wallet != s.wallet
  {
    match a
    case Refund(b) => RefundMoves(s, b);
    case PayWinner(t) => PrizeMoves(s, t);
    case SettleNext(t) => LoopNeverFails(s, a);
    case AssignNext(t) => LoopNeverFails(s, a);
    case PayNext(t) => PayNeverFails(s, t);
    case _ =>
  }

  lemma LoopNeverFails(s: State, a: Action)
    requires s.sh.WellFormed() && Enabled(s, a) && SeatFacts(s, a) && (a.SettleNext? || a.AssignNext?)
    ensures Next(s, a).failed == s.failed
  {
  }

  lemma PayNeverFails(s: State, t: nat)
    requires s.sh.WellFormed() && Enabled(s, PayNext(t)) && CreditsApply(s, PayNext(t))
    ensures Next(s, PayNext(t)).failed == s.failed
  {
    NextOfPay(s, t);
  }

  lemma RefundMoves(s: State, b: nat)
    requires Books(s) && s.sh.WellFormed() && Enabled(s, Refund(b))
    ensures Next(s, Refund(b)).wallet != s.wallet
  {
    CreditBooks(s, b, s.bets[b].units, RefundTx(b), Refunded);
    assert RefundTx(b) in Next(s, Refund(b)).wallet.applied;
  }

  lemma PrizeMoves(s: State, t: nat)
    requires Books(s) && s.sh.WellFormed() && Enabled(s, PayWinner(t)) && Payable(s, PayWinner(t))
    ensures Next(s, PayWinner(t)).wallet != s.wallet && Next(s, PayWinner(t)).failed == s.failed
  {
    var b := SeatBet(s, t).id;
    CreditBooks(s, b, Prize(s.cfg), CreditTx(b), Paid(s.runs[t].list[s.runs[t].pc.i], t, Prize(s.cfg)));
    assert CreditTx(b) in Next(s, PayWinner(t)).wallet.applied;
  }

  /** The run whose seat prize a bet has received. */
  function PrizeRun(st: Stage): Option<nat> {
    match st
    case Paid(_, t, _) => Some(t)
    case SeatSettled(t, _, Some(_)) => Some(t)
    case _ => None
  }

  /** At most one session bet wins each run, and it is paid the RTP share of the full field. */
  lemma OneWinnerPerRun(s: State, b: nat, c: nat)
    requires Reachable(s) && b in s.bets && c in s.bets
    requires PrizeRun(s.bets[b].stage).Some? && PrizeRun(s.bets[b].stage) == PrizeRun(s.bets[c].stage)
    ensures b == c && Won(s.bets[b].stage) == Some(Prize(s.cfg))
  {
    ReachableInv(s);
    OneWinner(s.sh.sessions, s.bets, s.runs, s.winners, s.failed, Prize(s.cfg), b, c);
  }

  lemma OneWinner(sessions: SessionTable, bets: Bets, runs: RunTable, winners: map<nat, int>, failed: set<nat>,
                  p: Uint64, b: nat, c: nat)
    requires SeatsMatch(sessions, bets) && RunningMatches(bets, runs, failed, winners, p)
    requires SeatsSettledOnce(bets, runs, winners, p) && b in bets && c in bets
    requires PrizeRun(bets[b].stage).Some? && PrizeRun(bets[b].stage) == PrizeRun(bets[c].stage)
    ensures b == c && Won(bets[b].stage) == Some(p)
  {
    assert bets[b].stage.SeatSettled? ==> SeatVerdict(runs, winners, bets[b].stage, p);
    assert bets[c].stage.SeatSettled? ==> SeatVerdict(runs, winners, bets[c].stage, p);
    assert bets[b].stage.Paid? ==> AtTheTill(runs, winners, bets[b].stage, p);
    assert bets[c].stage.Paid? ==> AtTheTill(runs, winners, bets[c].stage, p);
    if bets[b].stage.Paid? && bets[c].stage.Paid? {
      assert InItsSeat(sessions, b, bets[b].stage.s) && InItsSeat(sessions, c, bets[c].stage.s);
    }
  }

  /** A round bet has won exactly if its marble is the winner of the run that popped its round. */
  lemma RoundBetVerdict(s: State, b: nat)
    requires Reachable(s) && b in s.bets && s.bets[b].stage.RoundSettled?
    ensures
      var st := s.bets[b].stage;
      && Lists(s, st.r, st.i, b) && st.r in s.runner && s.runner[st.r] in s.winners
      && var rb := s.sh.rounds[st.r].bets[st.i];
         && (st.won.Some? <==> rb.marble == s.winners[s.runner[st.r]])
         && (st.won.Some? ==> 19 * s.bets[b].units <= st.won.value <= 19 * s.bets[b].units + 18)
  {
    ReachableInv(s);
    VerdictOf(s.sh.rounds, s.bets, s.runner, s.winners, b);
  }

  lemma VerdictOf(rounds: RoundTable, bets: Bets, runner: map<Addr, nat>, winners: map<nat, int>, b: nat)
    requires SlotsMatch(rounds, bets) && Earnings(rounds, bets, runner, winners) && b in bets
    requires bets[b].stage.RoundSettled?
    ensures
      var st := bets[b].stage;
      && InItsSlot(rounds, b, st.r, st.i) && st.r in runner && runner[st.r] in winners
      && var rb := rounds[st.r].bets[st.i];
         && (st.won.Some? <==> rb.marble == winners[runner[st.r]])
         && (st.won.Some? ==> 19 * bets[b].units <= st.won.value <= 19 * bets[b].units + 18)
  {
    var st := bets[b].stage;
    assert Earned(rounds, runner, winners, st);
    assert InItsSlot(rounds, b, st.r, st.i);
    assert SlotFilled(rounds, bets, st.r, st.i);
    PayoutDust(rounds[st.r].bets[st.i].amount);
  }

  /** A session is in at most one of: the queue, and the unsettled seats of the runs; and there at most once. */
  lemma SessionHeldOnce(s: State, x: Addr)
    requires Reachable(s)
    ensures forall t, u | t in s.runs && u in s.runs && Awaits(s.runs[t], x) && Awaits(s.runs[u], x) :: t == u
    ensures x in s.sh.queue ==> forall t | t in s.runs :: !Awaits(s.runs[t], x)
    ensures NoDuplicates(s.sh.queue) && forall t | t in s.runs :: NoDuplicates(s.runs[t].list)
  {
    ReachableInv(s);
    HeldOnce(s, x);
  }

  lemma HeldOnce(s: State, x: Addr)
    requires Seating(s)
    ensures forall t, u | t in s.runs && u in s.runs && Awaits(s.runs[t], x) && Awaits(s.runs[u], x) :: t == u
    ensures x in s.sh.queue ==> forall t | t in s.runs :: !Awaits(s.runs[t], x)
    ensures NoDuplicates(s.sh.queue) && forall t | t in s.runs :: NoDuplicates(s.runs[t].list)
  {
    forall t | t in s.runs && Awaits(s.runs[t], x)
      ensures HoldsFor(s.sh.sessions, s.bets, x, t)
    {
      AwaitedIsRunning(s, t, x);
    }
    if x in s.sh.queue {
      var i :| 0 <= i < |s.sh.queue| && s.sh.queue[i] == x;
      assert Sits(s.sh.sessions, s.bets, s.sh.queue[i], Queued(s.sh.queue[i]));
    }
    forall t | t in s.runs ensures NoDuplicates(s.runs[t].list) {
      assert RunShape(s.runs[t], t in s.winners, s.cfg.maxMarbles);
    }
  }

  /** The bet of session x is in the hands of run t. */
  ghost predicate HoldsFor(sessions: SessionTable, bets: Bets, x: Addr, t: nat) {
    && x in sessions && sessions[x].bet.Some? && sessions[x].bet.value.id in bets
    && IsRunning(bets[sessions[x].bet.value.id].stage) && bets[sessions[x].bet.value.id].stage.run == t
  }

  lemma AwaitedIsRunning(s: State, t: nat, x: Addr)
    requires Seating(s) && t in s.runs && Awaits(s.runs[t], x)
    ensures HoldsFor(s.sh.sessions, s.bets, x, t)
  {
    var k :| s.runs[t].Low() <= k < |s.runs[t].list| && s.runs[t].list[k] == x;
    SeatInTurn(s, t, k);
  }

  // ---------------------------------------------------------------------------
  // Stranded stakes
  // ---------------------------------------------------------------------------

  /** The run that took a bet and returned an error before settling it. */
  function StrandedBy(s: State, st: Stage): Option<nat> {
    match st
    case Running(_, t) => if t in s.failed then Some(t) else None
    case OnRound(r, _) => if r in s.runner && s.runner[r] in s.failed then Some(s.runner[r]) else None
    case _ => None
  }

  /** No call is in progress and nothing waits for the next round. */
  ghost predicate Quiescent(s: State) {
    && s.runs == map[] && s.sh.queue == [] && s.sh.pendingRounds == []
    && forall b | b in s.bets :: WhereIs(s, s.bets[b].stage) != InFlight
  }

  /** In any reachable state, a stake is in the stranded compartment exactly when a failed run took it. */
  lemma StrandedIffRunFailed(s: State, b: nat)
    requires Reachable(s) && b in s.bets
    ensures WhereIs(s, s.bets[b].stage) == Stranded <==> StrandedBy(s, s.bets[b].stage).Some?
  {
    ReachableInv(s);
    StrandedIff(s, b);
  }

  lemma StrandedIff(s: State, b: nat)
    requires RunsShape(s.runs, s.failed, s.ended, s.winners, s.cfg.maxMarbles)
    requires RunningMatches(s.bets, s.runs, s.failed, s.winners, Prize(s.cfg))
    requires RunnerMatches(s.runner, s.runs, s.failed, s.ended) && SlotsMatch(s.sh.rounds, s.bets)
    requires SlotProgress(s.bets, s.runner, s.runs, s.failed, s.ended) && b in s.bets
    ensures WhereIs(s, s.bets[b].stage) == Stranded <==> StrandedBy(s, s.bets[b].stage).Some?
  {
    var st := s.bets[b].stage;
    if st.Running? {
      assert Attended(s.runs, s.failed, st);
      assert st.run in s.runs ==> st.run !in s.failed;
    } else if st.OnRound? {
      assert InItsSlot(s.sh.rounds, b, st.r, st.i);
      assert !PastSlot(s.runner, s.runs, s.ended, st.r, st.i);
    }
  }

  /** Nothing ever frees a stranded bet. */
  lemma {:induction false} StrandedForever(s: State, path: seq<Action>, b: nat)
    requires Inv(s) && IsPath(s, path) && b in s.bets && StrandedBy(s, s.bets[b].stage).Some?
    ensures b in After(s, path).bets && After(s, path).bets[b] == s.bets[b]
    ensures StrandedBy(After(s, path), s.bets[b].stage) == StrandedBy(s, s.bets[b].stage)
    decreases |path|
  {
    if path != [] {
      StrandedNext(s, path[0], b);
      StrandedForever(Next(s, path[0]), path[1..], b);
    }
  }

  lemma StrandedNext(s: State, a: Action, b: nat)
    requires Inv(s) && Enabled(s, a) && b in s.bets && StrandedBy(s, s.bets[b].stage).Some?
    ensures var s' := Next(s, a);
      Inv(s') && b in s'.bets && s'.bets[b] == s.bets[b]
        && StrandedBy(s', s.bets[b].stage) == StrandedBy(s, s.bets[b].stage)
  {
    StepKeeps(s, a);
    OwnBets(s, a);
    StrandedStep(s, a, b);
  }

  /** What a step of a live run may touch. */
  ghost predicate OwnBetsOnly(s: State, a: Action)
    requires s.sh.WellFormed() && Enabled(s, a)
  {
    && Payable(s, a) && CreditsApply(s, a)
    && (forall t | t in s.runs :: t !in s.failed)
    && (a.SettleNext? && s.runs[a.t].pc.i < |s.runs[a.t].list| ==> s.bets[SeatBet(s, a.t).id].stage.run == a.t)
  }

  lemma OwnBets(s: State, a: Action)
    requires Seating(s) && s.sh.WellFormed() && Enabled(s, a) && Payable(s, a) && CreditsApply(s, a)
    ensures OwnBetsOnly(s, a)
  {
    if a.SettleNext? && s.runs[a.t].pc.i < |s.runs[a.t].list| {
      SeatInTurn(s, a.t, s.runs[a.t].pc.i);
    }
    assert forall t | t in s.runs :: t !in s.failed;
  }

  lemma StrandedStep(s: State, a: Action, b: nat)
    requires s.sh.WellFormed() && Enabled(s, a) && OwnBetsOnly(s, a) && b in s.bets
    requires RunnerMatches(s.runner, s.runs, s.failed, s.ended) && Popping(s.sh.rounds, s.sh.pendingRounds, s.runner)
    requires StrandedBy(s, s.bets[b].stage).Some?
    ensures var s' := Next(s, a);
      b in s'.bets && s'.bets[b] == s.bets[b] && StrandedBy(s', s.bets[b].stage) == StrandedBy(s, s.bets[b].stage)
  {
    FailedOnlyGrows(s, a);
    RunnerKept(s, a);
    StageUntouched(s, a, b);
  }

  lemma RunnerKept(s: State, a: Action)
    requires s.sh.WellFormed() && Enabled(s, a) && Popping(s.sh.rounds, s.sh.pendingRounds, s.runner)
    ensures forall r | r in s.runner :: r in Next(s, a).runner && Next(s, a).runner[r] == s.runner[r]
  {
    forall r | r in s.runner ensures r in Next(s, a).runner && Next(s, a).runner[r] == s.runner[r] {
      if a.Revalidate? {
      } else {
        OthersFreeze(s, a, r);
      }
    }
  }

  lemma FailedOnlyGrows(s: State, a: Action)
    requires s.sh.WellFormed() && Enabled(s, a)
    ensures s.failed <= Next(s, a).failed
  {
  }

  /** A step changes the stage of a taken or filed bet only for the live run that holds it. */
  lemma StageUntouched(s: State, a: Action, b: nat)
    requires s.sh.WellFormed() && Enabled(s, a) && OwnBetsOnly(s, a) && b in s.bets
    requires RunnerMatches(s.runner, s.runs, s.failed, s.ended)
    requires StrandedBy(s, s.bets[b].stage).Some?
    ensures b in Next(s, a).bets && Next(s, a).bets[b] == s.bets[b]
  {
    if a.PayWinner? || a.SettleNext? || a.PayNext? {
      OwnRunOnly(s, a, b);
    } else {
      CallsOnly(s, a, b);
    }
  }

  lemma OwnRunOnly(s: State, a: Action, b: nat)
    requires s.sh.WellFormed() && Enabled(s, a) && OwnBetsOnly(s, a) && b in s.bets
    requires a.PayWinner? || a.SettleNext? || a.PayNext?
    requires RunnerMatches(s.runner, s.runs, s.failed, s.ended)
    requires StrandedBy(s, s.bets[b].stage).Some?
    ensures b in Next(s, a).bets && Next(s, a).bets[b] == s.bets[b]
  {
  }

  lemma CallsOnly(s: State, a: Action, b: nat)
    requires s.sh.WellFormed() && Enabled(s, a) && b in s.bets
    requires !a.PayWinner? && !a.SettleNext? && !a.PayNext?
    requires StrandedBy(s, s.bets[b].stage).Some?
    ensures b in Next(s, a).bets && Next(s, a).bets[b] == s.bets[b]
  {
  }

  /** Session x refuses this bet, and to close. */
  ghost predicate Locked(sessions: SessionTable, x: Addr, bet: SessionBet) {
    && x in sessions
    && sessions[x].PlaceBet(bet).1 == Some(WrongState)
    && sessions[x].Close().1 == Some(WrongState)
  }

  /** The session of a stranded bet can never again be bet with, nor closed. */
  lemma {:induction false} StrandedSessionLocked(s: State, path: seq<Action>, b: nat, bet: SessionBet)
    requires Inv(s) && IsPath(s, path) && b in s.bets && s.bets[b].stage.Running?
    requires StrandedBy(s, s.bets[b].stage).Some?
    ensures Locked(After(s, path).sh.sessions, s.bets[b].stage.s, bet)
    decreases |path|
  {
    if path == [] {
      BusyNow(s, b, bet);
    } else {
      StrandedNext(s, path[0], b);
      StrandedSessionLocked(Next(s, path[0]), path[1..], b, bet);
    }
  }

  lemma BusyNow(s: State, b: nat, bet: SessionBet)
    requires Inv(s) && b in s.bets && s.bets[b].stage.Running?
    ensures Locked(s.sh.sessions, s.bets[b].stage.s, bet)
  {
    SeatedSessionIsBusy(s.sh.sessions, s.bets, b, s.bets[b].stage.s, bet);
  }

  lemma SeatedSessionIsBusy(sessions: SessionTable, bets: Bets, b: nat, x: Addr, bet: SessionBet)
    requires SeatsMatch(sessions, bets) && b in bets && bets[b].stage.Running? && bets[b].stage.s == x
    ensures Locked(sessions, x, bet)
  {
    assert InItsSeat(sessions, b, x);
    assert SessionOk(sessions[x], x, bets);
  }

  /** Seating the field strands the whole queue exactly when more sessions queued than there are marbles. */
  lemma OverfullFieldStrands(s: State, t: nat)
    requires Inv(s) && Enabled(s, SeatField(t))
    ensures t in Next(s, SeatField(t)).failed <==> |s.runs[t].list| > s.cfg.maxMarbles
    ensures |s.runs[t].list| > s.cfg.maxMarbles ==>
      forall k | 0 <= k < |s.runs[t].list| :: SeatLost(s, Next(s, SeatField(t)), t, k)
  {
    assert t !in s.failed;
    if |s.runs[t].list| > s.cfg.maxMarbles {
      forall k | 0 <= k < |s.runs[t].list| ensures SeatLost(s, Next(s, SeatField(t)), t, k) {
        SeatOfOverfullField(s, t, k);
      }
    }
  }

  /** In s', the bet in seat k of run t of s is stranded by that run. */
  ghost predicate SeatLost(s: State, s': State, t: nat, k: nat)
    requires t in s.runs && k < |s.runs[t].list|
  {
    var x := s.runs[t].list[k];
    && x in s'.sh.sessions && s'.sh.sessions[x].bet.Some? && s'.sh.sessions[x].bet.value.id in s'.bets
    && StrandedBy(s', s'.bets[s'.sh.sessions[x].bet.value.id].stage) == Some(t)
  }

  lemma SeatOfOverfullField(s: State, t: nat, k: nat)
    requires Seating(s) && s.sh.WellFormed() && Enabled(s, SeatField(t))
    requires |s.runs[t].list| > s.cfg.maxMarbles && k < |s.runs[t].list|
    ensures SeatLost(s, Next(s, SeatField(t)), t, k)
  {
    SeatInTurn(s, t, k);
  }
}
