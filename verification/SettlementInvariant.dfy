/**
 What every interleaving of the settlement machine keeps.

 The invariant is a conjunction of small predicates, each over the components it speaks about, so that
 an action keeps a part at once when it leaves its components alone.  For every other pair of action
 and part there is one lemma, stated for the update the action performs.
 */
module SettlementInvariant {
  import opened Common
  import opened Sums
  import opened Sessions
  import opened Rounds
  import opened ManagerState
  import opened Settlement
  import W = Wallet

  type Bets = map<nat, BetRec>

  type Wallet = W.Ledger<string, TxId>

  type SessionTable = map<Addr, SessionState>

  type RoundTable = map<Addr, PendingRound>

  type RunTable = map<nat, Run>

  /** The session a bet sits in. */
  function Seat(st: Stage): Option<Addr> {
    match st
    case Seated(s) => Some(s)
    case Queued(s) => Some(s)
    case Running(s, _) => Some(s)
    case Paid(s, _, _) => Some(s)
    case _ => None
  }

  /** The entry of a round's bet list that a bet occupies. */
  function Slot(st: Stage): Option<(Addr, nat)> {
    match st
    case OnRound(r, i) => Some((r, i))
    case RoundSettled(r, i, _) => Some((r, i))
    case _ => None
  }

  /** The prize credited so far. */
  function Won(st: Stage): Option<Uint64> {
    match st
    case Paid(_, _, p) => Some(p)
    case SeatSettled(_, _, w) => w
    case RoundSettled(_, _, w) => w
    case _ => None
  }

  /** What a bet has cost its player so far: the debit less the credits. */
  function Outlay(rec: BetRec): int {
    match rec.stage
    case Refunded => 0
    case _ => rec.units - (match Won(rec.stage) case Some(p) => p case None => 0)
  }

  ghost function Outlays(bets: Bets): map<nat, int> {
    map b | b in bets :: Outlay(bets[b])
  }

  // ---------------------------------------------------------------------------
  // The wallet's log and the money
  // ---------------------------------------------------------------------------

  /** The log holds one debit of a bet, and a refund or a prize exactly when its stage says so. */
  ghost predicate LogMatches(w: Wallet, bets: Bets) {
    && (forall b | b in bets :: LogEntry(w, b, bets[b]))
    && (forall tx | tx in w.applied :: tx.bet in bets)
  }

  ghost predicate LogEntry(w: Wallet, b: nat, rec: BetRec) {
    && rec.player in w.balances
    && BetTx(b) in w.applied && w.applied[BetTx(b)] == W.DebitMark(rec.units)
    && (RefundTx(b) in w.applied <==> rec.stage == Refunded)
    && (CreditTx(b) in w.applied <==> Won(rec.stage).Some?)
    && (rec.stage == Refunded ==> w.applied[RefundTx(b)] == W.CreditMark(rec.units))
    && (Won(rec.stage).Some? ==> w.applied[CreditTx(b)] == W.CreditMark(Won(rec.stage).value))
  }

  ghost predicate MoneyKept(w: Wallet, bets: Bets, wraps: nat, base: int) {
    Sum(w.balances) + Sum(Outlays(bets)) + TWO_64 * wraps == base
  }

  lemma OutlaysUpdate(bets: Bets, b: nat, rec: BetRec)
    ensures Sum(Outlays(bets[b := rec])) ==
      Sum(Outlays(bets)) + Outlay(rec) - (if b in bets then Outlay(bets[b]) else 0)
  {
    assert Outlays(bets[b := rec]) == Outlays(bets)[b := Outlay(rec)];
    SumUpdate(Outlays(bets), b, Outlay(rec));
  }

  /** A wallet whose log gains one entry of bet b keeps the entries of all other bets. */
  lemma OtherEntries(w: Wallet, w': Wallet, bets: Bets, b: nat, tx: TxId)
    requires LogMatches(w, bets)
    requires w'.balances.Keys == w.balances.Keys && tx.bet == b
    requires tx in w'.applied && w'.applied == w.applied[tx := w'.applied[tx]]
    ensures forall c | c in bets && c != b :: LogEntry(w', c, bets[c])
    ensures forall e | e in w'.applied :: e.bet in bets || e == tx
  {
    forall c | c in bets && c != b ensures LogEntry(w', c, bets[c]) {
      assert LogEntry(w, c, bets[c]);
    }
  }

  /** A debit under a fresh bet id. */
  lemma DebitBooks(w: Wallet, bets: Bets, b: nat, rec: BetRec, wraps: nat, base: int)
    requires LogMatches(w, bets) && MoneyKept(w, bets, wraps, base)
    requires b !in bets && Won(rec.stage).None? && rec.stage != Refunded
    requires w.Debit(rec.player, rec.units, BetTx(b)).1 == W.Applied
    ensures var w' := w.Debit(rec.player, rec.units, BetTx(b)).0;
      LogMatches(w', bets[b := rec]) && MoneyKept(w', bets[b := rec], wraps, base)
  {
    var w' := w.Debit(rec.player, rec.units, BetTx(b)).0;
    assert BetTx(b) !in w.applied && RefundTx(b) !in w.applied && CreditTx(b) !in w.applied;
    DebitMoney(w, bets, b, rec, wraps, base);
    OtherEntries(w, w', bets, b, BetTx(b));
    assert LogEntry(w', b, rec);
  }

  lemma DebitMoney(w: Wallet, bets: Bets, b: nat, rec: BetRec, wraps: nat, base: int)
    requires MoneyKept(w, bets, wraps, base) && b !in bets && Won(rec.stage).None? && rec.stage != Refunded
    requires w.Debit(rec.player, rec.units, BetTx(b)).1 == W.Applied && BetTx(b) !in w.applied
    ensures MoneyKept(w.Debit(rec.player, rec.units, BetTx(b)).0, bets[b := rec], wraps, base)
  {
    SumUpdate<string>(w.balances, rec.player, w.balances[rec.player] - rec.units);
    OutlaysUpdate(bets, b, rec);
  }

  /** May `amount` be credited to bet b under `tx`, moving it to stage `st`? */
  predicate CreditFits(rec: BetRec, b: nat, amount: Uint64, tx: TxId, st: Stage) {
    && Won(rec.stage).None? && rec.stage != Refunded
    && ((tx == RefundTx(b) && amount == rec.units && st == Refunded) || (tx == CreditTx(b) && Won(st) == Some(amount)))
  }

  /** A credit under an id the log has not seen: always applied, and counted as a wrap when it overflows. */
  lemma CreditMoney(s: State, b: nat, amount: Uint64, tx: TxId, st: Stage)
    requires b in s.bets && s.bets[b].player in s.wallet.balances && tx !in s.wallet.applied
    requires MoneyKept(s.wallet, s.bets, s.wraps, s.base) && CreditFits(s.bets[b], b, amount, tx, st)
    ensures var (s', out) := CreditTo(s, s.bets[b].player, amount, tx);
      && out == W.Applied && MoneyKept(s'.wallet, s.bets[b := s.bets[b].(stage := st)], s'.wraps, s.base)
      && s' == s.(wallet := s'.wallet, wraps := s'.wraps)
  {
    var rec := s.bets[b];
    W.StepAccounts(s.wallet, W.CreditCall(rec.player, amount, tx));
    OutlaysUpdate(s.bets, b, rec.(stage := st));
    var (s', out) := CreditTo(s, rec.player, amount, tx);
    assert tx in s'.wallet.applied;
    assert Outlay(rec) - Outlay(rec.(stage := st)) == amount;
    assert s'.wraps == s.wraps + if s.wallet.Overflows(rec.player, amount) then 1 else 0;
  }

  lemma CreditBooks(s: State, b: nat, amount: Uint64, tx: TxId, st: Stage)
    requires LogMatches(s.wallet, s.bets) && MoneyKept(s.wallet, s.bets, s.wraps, s.base)
    requires b in s.bets && CreditFits(s.bets[b], b, amount, tx, st)
    ensures var (s', out) := CreditTo(s, s.bets[b].player, amount, tx);
      var bets' := s.bets[b := s.bets[b].(stage := st)];
      && out == W.Applied && tx !in s.wallet.applied
      && LogMatches(s'.wallet, bets') && MoneyKept(s'.wallet, bets', s'.wraps, s.base)
      && s' == s.(wallet := s'.wallet, wraps := s'.wraps)
  {
    assert LogEntry(s.wallet, b, s.bets[b]);
    assert tx !in s.wallet.applied;
    CreditMoney(s, b, amount, tx, st);
    CreditLog(s, b, amount, tx, st);
  }

  lemma CreditLog(s: State, b: nat, amount: Uint64, tx: TxId, st: Stage)
    requires LogMatches(s.wallet, s.bets) && b in s.bets && CreditFits(s.bets[b], b, amount, tx, st)
    requires tx !in s.wallet.applied
    ensures LogMatches(CreditTo(s, s.bets[b].player, amount, tx).0.wallet, s.bets[b := s.bets[b].(stage := st)])
  {
    var w' := CreditTo(s, s.bets[b].player, amount, tx).0.wallet;
    assert LogEntry(s.wallet, b, s.bets[b]);
    OtherEntries(s.wallet, w', s.bets, b, tx);
    assert LogEntry(w', b, s.bets[b].(stage := st));
  }

  /** A stage change that moves no money. */
  lemma QuietBooks(w: Wallet, bets: Bets, b: nat, st: Stage, wraps: nat, base: int)
    requires LogMatches(w, bets) && MoneyKept(w, bets, wraps, base)
    requires b in bets && Won(st) == Won(bets[b].stage) && (st == Refunded <==> bets[b].stage == Refunded)
    ensures var bets' := bets[b := bets[b].(stage := st)];
      LogMatches(w, bets') && MoneyKept(w, bets', wraps, base)
  {
    assert LogEntry(w, b, bets[b]);
    OutlaysUpdate(bets, b, bets[b].(stage := st));
  }

  ghost function LaunchAll(bets: Bets, t: nat): Bets {
    map b | b in bets :: Launch(bets[b], t)
  }

  lemma LaunchBooks(w: Wallet, bets: Bets, t: nat, wraps: nat, base: int)
    requires LogMatches(w, bets) && MoneyKept(w, bets, wraps, base)
    ensures LogMatches(w, LaunchAll(bets, t)) && MoneyKept(w, LaunchAll(bets, t), wraps, base)
  {
    LaunchLog(w, bets, t);
    LaunchOutlays(bets, t);
  }

  lemma LaunchLog(w: Wallet, bets: Bets, t: nat)
    requires LogMatches(w, bets)
    ensures LogMatches(w, LaunchAll(bets, t))
  {
    forall b | b in bets ensures LogEntry(w, b, Launch(bets[b], t)) {
      assert LogEntry(w, b, bets[b]);
    }
  }

  lemma LaunchOutlays(bets: Bets, t: nat)
    ensures Outlays(LaunchAll(bets, t)) == Outlays(bets)
  {
  }

  // ---------------------------------------------------------------------------
  // Sessions and the bets seated in them
  // ---------------------------------------------------------------------------

  ghost predicate SessionOk(session: SessionState, x: Addr, bets: Bets) {
    && session.Consistent() && session.player != ""
    && (session.bet.Some? ==>
        var bet := session.bet.value;
        && bet.id in bets && Seat(bets[bet.id].stage) == Some(x)
        && bets[bet.id].units == bet.amount
        && bets[bet.id].player == bet.player == session.player)
  }

  /** Sessions and seated bets point at each other. */
  ghost predicate SeatsMatch(sessions: SessionTable, bets: Bets) {
    && (forall x | x in sessions :: SessionOk(sessions[x], x, bets))
    && (forall b | b in bets && Seat(bets[b].stage).Some? :: InItsSeat(sessions, b, Seat(bets[b].stage).value))
    && (forall b | b in bets && bets[b].stage.SessionDebited? ::
        bets[b].stage.s in sessions && sessions[bets[b].stage.s].player == bets[b].player)
  }

  ghost predicate InItsSeat(sessions: SessionTable, b: nat, x: Addr) {
    x in sessions && sessions[x].bet.Some? && sessions[x].bet.value.id == b
  }

  lemma SeatsOpen(sessions: SessionTable, bets: Bets, x: Addr, player: string)
    requires SeatsMatch(sessions, bets) && x !in sessions && player != ""
    ensures SeatsMatch(sessions[x := Opened(player)], bets)
  {
    forall b | b in bets && Seat(bets[b].stage).Some?
      ensures InItsSeat(sessions[x := Opened(player)], b, Seat(bets[b].stage).value)
    {
      assert InItsSeat(sessions, b, Seat(bets[b].stage).value);
    }
  }

  /** A session whose bet is unchanged apart from its marble. */
  lemma SeatsSameBet(sessions: SessionTable, bets: Bets, x: Addr, session: SessionState)
    requires SeatsMatch(sessions, bets) && x in sessions && session.Consistent()
    requires session.player == sessions[x].player && session.bet.Some? == sessions[x].bet.Some?
    requires session.bet.Some? ==> session.bet.value.(marble := 0) == sessions[x].bet.value.(marble := 0)
    ensures SeatsMatch(sessions[x := session], bets)
  {
    assert SessionOk(sessions[x], x, bets);
    forall b | b in bets && Seat(bets[b].stage).Some?
      ensures InItsSeat(sessions[x := session], b, Seat(bets[b].stage).value)
    {
      assert InItsSeat(sessions, b, Seat(bets[b].stage).value);
    }
  }

  /** A bet appears or moves without changing seats. */
  lemma SeatsSameSeat(sessions: SessionTable, bets: Bets, b: nat, rec: BetRec)
    requires SeatsMatch(sessions, bets)
    requires if b in bets
      then rec == bets[b].(stage := rec.stage) && Seat(rec.stage) == Seat(bets[b].stage)
      else Seat(rec.stage).None?
    requires rec.stage.SessionDebited? ==> rec.stage.s in sessions && sessions[rec.stage.s].player == rec.player
    ensures SeatsMatch(sessions, bets[b := rec])
  {
    forall x | x in sessions ensures SessionOk(sessions[x], x, bets[b := rec]) {
      assert SessionOk(sessions[x], x, bets);
    }
    var bets' := bets[b := rec];
    forall c | c in bets' && Seat(bets'[c].stage).Some? ensures InItsSeat(sessions, c, Seat(bets'[c].stage).value) {
      assert c in bets && Seat(bets[c].stage).Some?;
    }
  }

  /** The session accepts or refuses the bet it is asked to take. */
  lemma SeatsAsk(sessions: SessionTable, bets: Bets, b: nat)
    requires SeatsMatch(sessions, bets) && b in bets && bets[b].stage.SessionDebited?
    ensures bets[b].stage.s in sessions
    ensures
      var x := bets[b].stage.s;
      var (session, err) := sessions[x].PlaceBet(SessionBet(b, bets[b].units, bets[b].player, 0));
      && (err.None? <==> sessions[x].phase == Open || sessions[x].phase == Settled)
      && SeatsMatch(sessions[x := session],
                    bets[b := bets[b].(stage := if err.None? then Seated(x) else SessionRefused)])
  {
    var x := bets[b].stage.s;
    assert SessionOk(sessions[x], x, bets);
    var (session, err) := sessions[x].PlaceBet(SessionBet(b, bets[b].units, bets[b].player, 0));
    var sessions' := sessions[x := session];
    var bets' := bets[b := bets[b].(stage := if err.None? then Seated(x) else SessionRefused)];
    forall y | y in sessions' ensures SessionOk(sessions'[y], y, bets') {
      assert SessionOk(sessions[y], y, bets);
    }
    forall c | c in bets' && Seat(bets'[c].stage).Some?
      ensures InItsSeat(sessions', c, Seat(bets'[c].stage).value)
    {
      if c != b {
        assert InItsSeat(sessions, c, Seat(bets[c].stage).value);
      }
    }
  }

  /** The session settles its bet. */
  lemma SeatsSettle(sessions: SessionTable, bets: Bets, x: Addr, o: Outcome, st: Stage)
    requires SeatsMatch(sessions, bets) && x in sessions && sessions[x].phase == Sessions.Phase.Racing
    requires Seat(st).None? && !st.SessionDebited?
    ensures sessions[x].bet.Some? && sessions[x].bet.value.id in bets &&
      var b := sessions[x].bet.value.id;
      sessions[x].Settle(o).1.None? &&
      SeatsMatch(sessions[x := sessions[x].Settle(o).0], bets[b := bets[b].(stage := st)])
  {
    assert SessionOk(sessions[x], x, bets);
    var b := sessions[x].bet.value.id;
    var sessions' := sessions[x := sessions[x].Settle(o).0];
    var bets' := bets[b := bets[b].(stage := st)];
    forall y | y in sessions' ensures SessionOk(sessions'[y], y, bets') {
      assert SessionOk(sessions[y], y, bets);
    }
    forall c | c in bets' && Seat(bets'[c].stage).Some?
      ensures InItsSeat(sessions', c, Seat(bets'[c].stage).value)
    {
      assert InItsSeat(sessions, c, Seat(bets[c].stage).value);
      assert InItsSeat(sessions, b, x);
    }
  }

  lemma SeatsLaunch(sessions: SessionTable, bets: Bets, t: nat)
    requires SeatsMatch(sessions, bets)
    ensures SeatsMatch(sessions, LaunchAll(bets, t))
  {
    var bets' := LaunchAll(bets, t);
    forall x | x in sessions ensures SessionOk(sessions[x], x, bets') {
      assert SessionOk(sessions[x], x, bets);
    }
    forall c | c in bets' && Seat(bets'[c].stage).Some?
      ensures InItsSeat(sessions, c, Seat(bets'[c].stage).value)
    {
      assert Seat(bets[c].stage) == Seat(bets'[c].stage);
    }
  }

  /** A session without a bet is nobody's seat; a session with a bet is the seat of that bet alone. */
  lemma SeatIsUnique(sessions: SessionTable, bets: Bets, x: Addr)
    requires SeatsMatch(sessions, bets)
    ensures forall b | b in bets && Seat(bets[b].stage) == Some(x) :: InItsSeat(sessions, b, x)
  {
  }

  // ---------------------------------------------------------------------------
  // The queue of pending sessions
  // ---------------------------------------------------------------------------

  /** Session x holds a bet at stage st. */
  ghost predicate Sits(sessions: SessionTable, bets: Bets, x: Addr, st: Stage) {
    && x in sessions && sessions[x].bet.Some?
    && sessions[x].bet.value.id in bets && bets[sessions[x].bet.value.id].stage == st
  }

  predicate IsWaiting(st: Stage) { st.Seated? || st.Queued? }

  /** m.pending holds exactly the sessions of the queued bets, each once; waiting bets sit in state BET. */
  ghost predicate QueueMatches(sessions: SessionTable, queue: seq<Addr>, bets: Bets) {
    && NoDuplicates(queue)
    && (forall i | 0 <= i < |queue| :: Sits(sessions, bets, queue[i], Queued(queue[i])))
    && (forall b | b in bets && bets[b].stage.Queued? :: bets[b].stage.s in queue)
    && (forall b | b in bets && IsWaiting(bets[b].stage) :: InPhaseBet(sessions, bets[b].stage.s))
  }

  ghost predicate InPhaseBet(sessions: SessionTable, x: Addr) {
    x in sessions && sessions[x].phase == Sessions.Phase.Bet
  }

  /** Any change of a session in which no bet is waiting. */
  lemma QueueOtherSession(sessions: SessionTable, queue: seq<Addr>, bets: Bets, x: Addr, session: SessionState)
    requires QueueMatches(sessions, queue, bets)
    requires forall b | b in bets && IsWaiting(bets[b].stage) :: bets[b].stage.s != x
    ensures QueueMatches(sessions[x := session], queue, bets)
  {
    var sessions' := sessions[x := session];
    forall i | 0 <= i < |queue| ensures Sits(sessions', bets, queue[i], Queued(queue[i])) {
      assert Sits(sessions, bets, queue[i], Queued(queue[i]));
    }
    forall b | b in bets && IsWaiting(bets[b].stage) ensures InPhaseBet(sessions', bets[b].stage.s) {
      assert InPhaseBet(sessions, bets[b].stage.s);
    }
  }

  /** A bet that was not queued appears at, or moves to, a stage that is not queued. */
  lemma QueueOtherBet(sessions: SessionTable, queue: seq<Addr>, bets: Bets, b: nat, rec: BetRec)
    requires QueueMatches(sessions, queue, bets)
    requires b in bets ==> !bets[b].stage.Queued?
    requires !rec.stage.Queued? && (rec.stage.Seated? ==> InPhaseBet(sessions, rec.stage.s))
    ensures QueueMatches(sessions, queue, bets[b := rec])
  {
    forall i | 0 <= i < |queue| ensures Sits(sessions, bets[b := rec], queue[i], Queued(queue[i])) {
      assert Sits(sessions, bets, queue[i], Queued(queue[i]));
    }
  }

  lemma QueueAppend(sessions: SessionTable, queue: seq<Addr>, bets: Bets, b: nat)
    requires QueueMatches(sessions, queue, bets) && SeatsMatch(sessions, bets)
    requires b in bets && bets[b].stage.Seated?
    ensures var x := bets[b].stage.s;
      QueueMatches(sessions, queue + [x], bets[b := bets[b].(stage := Queued(x))])
  {
    var x := bets[b].stage.s;
    var bets' := bets[b := bets[b].(stage := Queued(x))];
    assert InItsSeat(sessions, b, x) && InPhaseBet(sessions, x);
    forall i | 0 <= i < |queue| ensures queue[i] != x && Sits(sessions, bets', queue[i], Queued(queue[i])) {
      assert Sits(sessions, bets, queue[i], Queued(queue[i]));
    }
    forall i | 0 <= i < |queue + [x]| ensures Sits(sessions, bets', (queue + [x])[i], Queued((queue + [x])[i])) {
      if i < |queue| { assert Sits(sessions, bets', queue[i], Queued(queue[i])); }
    }
    forall c | c in bets' && bets'[c].stage.Queued? ensures bets'[c].stage.s in queue + [x] {
      if c != b { assert bets[c].stage.s in queue; }
    }
  }

  // ---------------------------------------------------------------------------
  // Runs in progress
  // ---------------------------------------------------------------------------

  ghost predicate RunsShape(runs: RunTable, failed: set<nat>, ended: set<nat>, winners: map<nat, int>, max: nat) {
    && (forall t | t in runs :: t !in failed && t !in ended && RunShape(runs[t], t in winners, max))
    && failed !! ended
    && (forall t | t in winners :: t in runs || t in failed || t in ended)
  }

  ghost predicate RunShape(run: Run, hasWinner: bool, max: nat) {
    && NoDuplicates(run.list)
    && (run.pc != Taken ==> run.r.Some? && |run.list| <= max)
    && (run.pc.Assign? || run.pc.Settle? ==> run.pc.i <= |run.list|)
    && (run.HasWinner() <==> hasWinner)
  }

  /** Seat k of run t holds a session with a running bet, racing with marble k once assigned. */
  ghost predicate SeatReady(sessions: SessionTable, bets: Bets, run: Run, t: nat, k: nat, winners: map<nat, int>,
                            p: Uint64)
    requires k < |run.list|
  {
    var x := run.list[k];
    && (Sits(sessions, bets, x, Running(x, t)) ||
        (run.pc == Pc.Settle(k) && t in winners && k == winners[t] && Sits(sessions, bets, x, Paid(x, t, p))))
    && (if run.Assigned(k)
        then sessions[x].phase == Sessions.Phase.Racing && sessions[x].bet.value.marble == k
        else sessions[x].phase == Sessions.Phase.Bet)
  }

  ghost predicate RunReady(sessions: SessionTable, bets: Bets, run: Run, t: nat, winners: map<nat, int>, p: Uint64) {
    forall k | run.Low() <= k < |run.list| :: SeatReady(sessions, bets, run, t, k, winners, p)
  }

  ghost predicate SeatsReady(sessions: SessionTable, bets: Bets, runs: RunTable, winners: map<nat, int>, p: Uint64) {
    forall t | t in runs :: RunReady(sessions, bets, runs[t], t, winners, p)
  }

  predicate IsRunning(st: Stage) { st.Running? || st.Paid? }

  predicate NotRunning(bets: Bets, b: nat) { b in bets ==> !IsRunning(bets[b].stage) }

  /** A session without a running bet appears or changes. */
  lemma ReadyOtherSession(sessions: SessionTable, bets: Bets, runs: RunTable, winners: map<nat, int>, p: Uint64,
                          x: Addr, session: SessionState)
    requires SeatsReady(sessions, bets, runs, winners, p)
    requires x in sessions && sessions[x].bet.Some? ==>
      session == sessions[x] || NotRunning(bets, sessions[x].bet.value.id)
    ensures SeatsReady(sessions[x := session], bets, runs, winners, p)
  {
    var sessions' := sessions[x := session];
    forall t | t in runs ensures RunReady(sessions', bets, runs[t], t, winners, p) {
      assert RunReady(sessions, bets, runs[t], t, winners, p);
      forall k | runs[t].Low() <= k < |runs[t].list|
        ensures SeatReady(sessions', bets, runs[t], t, k, winners, p)
      {
        assert SeatReady(sessions, bets, runs[t], t, k, winners, p);
      }
    }
  }

  /** A bet that is not running appears or changes. */
  lemma ReadyOtherBet(sessions: SessionTable, bets: Bets, runs: RunTable, winners: map<nat, int>, p: Uint64,
                      b: nat, rec: BetRec)
    requires SeatsReady(sessions, bets, runs, winners, p) && NotRunning(bets, b)
    ensures SeatsReady(sessions, bets[b := rec], runs, winners, p)
  {
    var bets' := bets[b := rec];
    forall t | t in runs ensures RunReady(sessions, bets', runs[t], t, winners, p) {
      assert RunReady(sessions, bets, runs[t], t, winners, p);
      forall k | runs[t].Low() <= k < |runs[t].list|
        ensures SeatReady(sessions, bets', runs[t], t, k, winners, p)
      {
        assert SeatReady(sessions, bets, runs[t], t, k, winners, p);
      }
    }
  }

  /** Within run t, the session of seat i and its bet change; every other seat of every run is untouched. */
  lemma ReadyOtherSeats(sessions: SessionTable, bets: Bets, runs: RunTable, winners: map<nat, int>, p: Uint64,
                        t: nat, i: nat, session: SessionState, b: nat, st: Stage, pc: Pc)
    requires SeatsReady(sessions, bets, runs, winners, p)
    requires t in runs && runs[t].Low() <= i < |runs[t].list| && NoDuplicates(runs[t].list)
    requires b in bets && runs[t].list[i] in sessions && sessions[runs[t].list[i]].bet.Some?
    requires sessions[runs[t].list[i]].bet.value.id == b
    requires SeatsMatch(sessions, bets)
    requires var run' := runs[t].(pc := pc);
      && run'.Low() >= runs[t].Low()
      && (forall k: nat | k != i :: run'.Assigned(k) == runs[t].Assigned(k))
      && (run'.Low() <= i ==> SeatReady(sessions[run'.list[i] := session], bets[b := bets[b].(stage := st)],
                                        run', t, i, winners, p))
    requires forall k: nat | k != i :: runs[t].pc != Pc.Settle(k)
    ensures SeatsReady(sessions[runs[t].list[i] := session], bets[b := bets[b].(stage := st)],
                       runs[t := runs[t].(pc := pc)], winners, p)
  {
    var x := runs[t].list[i];
    var sessions' := sessions[x := session];
    var bets' := bets[b := bets[b].(stage := st)];
    var runs' := runs[t := runs[t].(pc := pc)];
    assert RunReady(sessions, bets, runs[t], t, winners, p);
    assert SeatReady(sessions, bets, runs[t], t, i, winners, p);
    forall u | u in runs' ensures RunReady(sessions', bets', runs'[u], u, winners, p) {
      assert RunReady(sessions, bets, runs[u], u, winners, p);
      forall k | runs'[u].Low() <= k < |runs'[u].list|
        ensures SeatReady(sessions', bets', runs'[u], u, k, winners, p)
      {
        assert SeatReady(sessions, bets, runs[u], u, k, winners, p);
        var y := runs[u].list[k];
        if y != x {
          assert SessionOk(sessions[y], y, bets);
        }
      }
    }
  }

  /** A run changes without settling or assigning a seat, possibly learning its winner. */
  lemma ReadySameSeats(sessions: SessionTable, bets: Bets, runs: RunTable, winners: map<nat, int>, p: Uint64,
                       t: nat, run: Run, winners': map<nat, int>)
    requires SeatsReady(sessions, bets, runs, winners, p) && t in runs
    requires run.list == runs[t].list && run.Low() == runs[t].Low() && !runs[t].pc.Settle?
    requires forall k: nat | k < |run.list| :: run.Assigned(k) == runs[t].Assigned(k)
    requires winners' == winners || (t !in winners && t in winners' && winners' == winners[t := winners'[t]])
    ensures SeatsReady(sessions, bets, runs[t := run], winners', p)
  {
    var runs' := runs[t := run];
    forall u | u in runs' ensures RunReady(sessions, bets, runs'[u], u, winners', p) {
      assert RunReady(sessions, bets, runs[u], u, winners, p);
      forall k | runs'[u].Low() <= k < |runs'[u].list|
        ensures SeatReady(sessions, bets, runs'[u], u, k, winners', p)
      {
        assert SeatReady(sessions, bets, runs[u], u, k, winners, p);
      }
    }
  }

  /** A new run takes the whole queue. */
  lemma ReadyTake(sessions: SessionTable, queue: seq<Addr>, bets: Bets, runs: RunTable, winners: map<nat, int>,
                  p: Uint64, t: nat, r: Option<Addr>)
    requires SeatsReady(sessions, bets, runs, winners, p) && QueueMatches(sessions, queue, bets) && t !in runs
    ensures SeatsReady(sessions, LaunchAll(bets, t), runs[t := Run(queue, r, Taken)], winners, p)
  {
    var bets' := LaunchAll(bets, t);
    var runs' := runs[t := Run(queue, r, Taken)];
    forall u | u in runs' ensures RunReady(sessions, bets', runs'[u], u, winners, p) {
      if u != t { assert RunReady(sessions, bets, runs[u], u, winners, p); }
      forall k | runs'[u].Low() <= k < |runs'[u].list|
        ensures SeatReady(sessions, bets', runs'[u], u, k, winners, p)
      {
        if u != t {
          assert SeatReady(sessions, bets, runs[u], u, k, winners, p);
        } else {
          assert Sits(sessions, bets, queue[k], Queued(queue[k]));
          assert IsWaiting(bets[sessions[queue[k]].bet.value.id].stage);
        }
      }
    }
  }

  /** Does the run still have this session's seat to settle? */
  ghost predicate Awaits(run: Run, x: Addr) {
    exists k | run.Low() <= k < |run.list| :: run.list[k] == x
  }

  /** A running bet belongs to an unsettled seat of its live run, or its run has failed. */
  ghost predicate RunningMatches(bets: Bets, runs: RunTable, failed: set<nat>, winners: map<nat, int>, p: Uint64) {
    && (forall b | b in bets && bets[b].stage.Running? :: Attended(runs, failed, bets[b].stage))
    && (forall b | b in bets && bets[b].stage.Paid? :: AtTheTill(runs, winners, bets[b].stage, p))
  }

  ghost predicate Attended(runs: RunTable, failed: set<nat>, st: Stage)
    requires st.Running?
  {
    st.run in failed || (st.run in runs && Awaits(runs[st.run], st.s))
  }

  /** A paid bet is the winning seat that its run is about to settle. */
  predicate AtTheTill(runs: RunTable, winners: map<nat, int>, st: Stage, p: Uint64)
    requires st.Paid?
  {
    var t := st.run;
    && t in runs && runs[t].pc.Settle? && t in winners && runs[t].pc.i == winners[t]
    && runs[t].pc.i < |runs[t].list| && runs[t].list[runs[t].pc.i] == st.s
    && st.prize == p
  }

  /** A run keeps every seat it awaited, and does not leave a settlement step. */
  lemma RunningSameSeats(bets: Bets, runs: RunTable, failed: set<nat>, winners: map<nat, int>, p: Uint64,
                         t: nat, run: Run, winners': map<nat, int>)
    requires RunningMatches(bets, runs, failed, winners, p) && t in runs
    requires run.list == runs[t].list && run.Low() == runs[t].Low() && !runs[t].pc.Settle?
    requires winners' == winners || (t !in winners && t in winners' && winners' == winners[t := winners'[t]])
    ensures RunningMatches(bets, runs[t := run], failed, winners', p)
  {
    forall b | b in bets && bets[b].stage.Running? ensures Attended(runs[t := run], failed, bets[b].stage) {
      assert Attended(runs, failed, bets[b].stage);
      if bets[b].stage.run == t && t !in failed {
        var k :| runs[t].Low() <= k < |runs[t].list| && runs[t].list[k] == bets[b].stage.s;
        assert run.list[k] == bets[b].stage.s;
      }
    }
  }

  /** The run has settled seat i, and no bet is left at that seat. */
  lemma RunningNextSeat(bets: Bets, runs: RunTable, failed: set<nat>, winners: map<nat, int>, p: Uint64, t: nat,
                        run: Run)
    requires RunningMatches(bets, runs, failed, winners, p) && t in runs
    requires run.list == runs[t].list && runs[t].Low() <= run.Low() <= runs[t].Low() + 1
    requires forall b | b in bets && IsRunning(bets[b].stage) && bets[b].stage.run == t ::
      bets[b].stage.Running? &&
      (run.Low() > runs[t].Low() && runs[t].Low() < |run.list| ==> bets[b].stage.s != run.list[runs[t].Low()])
    ensures RunningMatches(bets, runs[t := run], failed, winners, p)
  {
    forall b | b in bets && bets[b].stage.Running? ensures Attended(runs[t := run], failed, bets[b].stage) {
      assert Attended(runs, failed, bets[b].stage);
      if bets[b].stage.run == t && t !in failed {
        var k :| runs[t].Low() <= k < |runs[t].list| && runs[t].list[k] == bets[b].stage.s;
        assert run.list[k] == bets[b].stage.s;
      }
    }
  }

  lemma RunningTake(sessions: SessionTable, queue: seq<Addr>, bets: Bets, runs: RunTable, failed: set<nat>,
                    winners: map<nat, int>, p: Uint64, t: nat, r: Option<Addr>)
    requires RunningMatches(bets, runs, failed, winners, p) && QueueMatches(sessions, queue, bets) && t !in runs
    ensures RunningMatches(LaunchAll(bets, t), runs[t := Run(queue, r, Taken)], failed, winners, p)
  {
    var bets' := LaunchAll(bets, t);
    var runs' := runs[t := Run(queue, r, Taken)];
    forall b | b in bets' && bets'[b].stage.Running? ensures Attended(runs', failed, bets'[b].stage) {
      if bets[b].stage.Queued? {
        var k :| 0 <= k < |queue| && queue[k] == bets[b].stage.s;
        assert runs'[t].list[k] == bets'[b].stage.s;
      } else {
        assert Attended(runs, failed, bets[b].stage);
      }
    }
    forall b | b in bets' && bets'[b].stage.Paid? ensures AtTheTill(runs', winners, bets'[b].stage, p) {
      assert AtTheTill(runs, winners, bets[b].stage, p);
    }
  }

  /** A run with nothing left at the till stops, by failing or with every seat settled. */
  lemma RunningStop(bets: Bets, runs: RunTable, failed: set<nat>, winners: map<nat, int>, p: Uint64, t: nat,
                    fails: bool)
    requires RunningMatches(bets, runs, failed, winners, p) && t in runs && !runs[t].pc.Settle?
    requires fails || runs[t].Low() == |runs[t].list|
    ensures RunningMatches(bets, runs - {t}, if fails then failed + {t} else failed, winners, p)
  {
    var failed' := if fails then failed + {t} else failed;
    forall b | b in bets && bets[b].stage.Running? ensures Attended(runs - {t}, failed', bets[b].stage) {
      assert Attended(runs, failed, bets[b].stage);
    }
    forall b | b in bets && bets[b].stage.Paid? ensures AtTheTill(runs - {t}, winners, bets[b].stage, p) {
      assert AtTheTill(runs, winners, bets[b].stage, p);
    }
  }

  // ---------------------------------------------------------------------------
  // Rounds and their bets
  // ---------------------------------------------------------------------------

  /** Round ids are unique, and BetsForRound's table mirrors the bets of every round. */
  ghost predicate RoundIds(rounds: RoundTable, roundBets: map<nat, seq<RoundBet>>) {
    && (forall r, q | r in rounds && q in rounds && r != q :: rounds[r].spec.roundId != rounds[q].spec.roundId)
    && (forall r | r in rounds :: Mirrored(rounds[r], roundBets))
  }

  ghost predicate Mirrored(round: PendingRound, roundBets: map<nat, seq<RoundBet>>) {
    round.spec.roundId in roundBets && roundBets[round.spec.roundId] == round.bets
  }

  /** A round is pending until exactly one run pops it. */
  ghost predicate Popping(rounds: RoundTable, pendingRounds: seq<Addr>, runner: map<Addr, nat>) {
    && NoDuplicates(pendingRounds)
    && (forall r | r in pendingRounds :: r in rounds)
    && (forall r | r in runner :: r in rounds)
    && (forall r | r in rounds :: r in pendingRounds <==> r !in runner)
  }

  ghost predicate RunnerMatches(runner: map<Addr, nat>, runs: RunTable, failed: set<nat>, ended: set<nat>) {
    && (forall r | r in runner ::
        && (runner[r] in runs || runner[r] in failed || runner[r] in ended)
        && (runner[r] in runs ==> runs[runner[r]].r == Some(r)))
    && (forall t | t in runs && runs[t].r.Some? :: runs[t].r.value in runner && runner[runs[t].r.value] == t)
  }

  /** Units and payout of a stake fit in a uint64 and the debit is not zero. */
  ghost predicate InRange(amount: real) {
    0 < Units(amount) < TWO_64 && 0 <= PayoutUnits(amount) < TWO_64
  }

  /** Entry i of round r is a debited bet, filed there and nowhere else. */
  ghost predicate SlotFilled(rounds: RoundTable, bets: Bets, r: Addr, i: nat)
    requires r in rounds && i < |rounds[r].bets|
  {
    var rb := rounds[r].bets[i];
    && rb.id in bets && Slot(bets[rb.id].stage) == Some((r, i))
    && rb.player == bets[rb.id].player && rb.roundId == rounds[r].spec.roundId
    && InRange(rb.amount) && bets[rb.id].units == Units(rb.amount)
  }

  ghost predicate InItsSlot(rounds: RoundTable, b: nat, r: Addr, i: nat) {
    r in rounds && i < |rounds[r].bets| && rounds[r].bets[i].id == b
  }

  ghost predicate SlotsMatch(rounds: RoundTable, bets: Bets) {
    && (forall r, i | r in rounds && 0 <= i < |rounds[r].bets| :: SlotFilled(rounds, bets, r, i))
    && (forall b | b in bets && Slot(bets[b].stage).Some? ::
        InItsSlot(rounds, b, Slot(bets[b].stage).value.0, Slot(bets[b].stage).value.1))
    && (forall b | b in bets && bets[b].stage.RoundDebited? ::
        && bets[b].stage.r in rounds && InRange(bets[b].stage.amount)
        && bets[b].units == Units(bets[b].stage.amount))
  }

  lemma SlotsNewRound(rounds: RoundTable, bets: Bets, r: Addr, spec: RoundSpec)
    requires SlotsMatch(rounds, bets) && r !in rounds
    ensures SlotsMatch(rounds[r := PendingRound(spec, [])], bets)
  {
    var rounds' := rounds[r := PendingRound(spec, [])];
    forall q, i | q in rounds' && 0 <= i < |rounds'[q].bets| ensures SlotFilled(rounds', bets, q, i) {
      assert SlotFilled(rounds, bets, q, i);
    }
    forall b | b in bets && Slot(bets[b].stage).Some?
      ensures InItsSlot(rounds', b, Slot(bets[b].stage).value.0, Slot(bets[b].stage).value.1)
    {
      assert InItsSlot(rounds, b, Slot(bets[b].stage).value.0, Slot(bets[b].stage).value.1);
    }
  }

  /** A bet appears or moves without changing slots. */
  lemma SlotsSameSlot(rounds: RoundTable, bets: Bets, b: nat, rec: BetRec)
    requires SlotsMatch(rounds, bets)
    requires if b in bets
      then rec == bets[b].(stage := rec.stage) && Slot(rec.stage) == Slot(bets[b].stage)
      else Slot(rec.stage).None?
    requires rec.stage.RoundDebited? ==>
      rec.stage.r in rounds && InRange(rec.stage.amount) && rec.units == Units(rec.stage.amount)
    ensures SlotsMatch(rounds, bets[b := rec])
  {
    var bets' := bets[b := rec];
    forall q, i | q in rounds && 0 <= i < |rounds[q].bets| ensures SlotFilled(rounds, bets', q, i) {
      assert SlotFilled(rounds, bets, q, i);
    }
    forall c | c in bets' && Slot(bets'[c].stage).Some?
      ensures InItsSlot(rounds, c, Slot(bets'[c].stage).value.0, Slot(bets'[c].stage).value.1)
    {
      assert c in bets && Slot(bets[c].stage) == Slot(bets'[c].stage);
    }
  }

  lemma SlotsLaunch(rounds: RoundTable, bets: Bets, t: nat)
    requires SlotsMatch(rounds, bets)
    ensures SlotsMatch(rounds, LaunchAll(bets, t))
  {
    var bets' := LaunchAll(bets, t);
    forall q, i | q in rounds && 0 <= i < |rounds[q].bets| ensures SlotFilled(rounds, bets', q, i) {
      assert SlotFilled(rounds, bets, q, i);
    }
    forall c | c in bets' && Slot(bets'[c].stage).Some?
      ensures InItsSlot(rounds, c, Slot(bets'[c].stage).value.0, Slot(bets'[c].stage).value.1)
    {
      assert Slot(bets[c].stage) == Slot(bets'[c].stage);
    }
  }

  /** A bet is appended to the round it was placed on. */
  lemma SlotsAppend(rounds: RoundTable, bets: Bets, b: nat, rb: RoundBet)
    requires SlotsMatch(rounds, bets) && b in bets && bets[b].stage.RoundDebited? && bets[b].stage.r in rounds
    requires rb == RoundBet(b, bets[b].player, rounds[bets[b].stage.r].spec.roundId,
                            bets[b].stage.marble, bets[b].stage.amount)
    ensures var r := bets[b].stage.r;
      SlotsMatch(rounds[r := rounds[r].(bets := rounds[r].bets + [rb])],
                 bets[b := bets[b].(stage := OnRound(r, |rounds[r].bets|))])
  {
    var r := bets[b].stage.r;
    var n := |rounds[r].bets|;
    var rounds' := rounds[r := rounds[r].(bets := rounds[r].bets + [rb])];
    var bets' := bets[b := bets[b].(stage := OnRound(r, n))];
    forall q, i | q in rounds' && 0 <= i < |rounds'[q].bets| ensures SlotFilled(rounds', bets', q, i) {
      if q != r || i < n {
        assert SlotFilled(rounds, bets, q, i);
      }
    }
    forall c | c in bets' && Slot(bets'[c].stage).Some?
      ensures InItsSlot(rounds', c, Slot(bets'[c].stage).value.0, Slot(bets'[c].stage).value.1)
    {
      if c != b {
        assert InItsSlot(rounds, c, Slot(bets[c].stage).value.0, Slot(bets[c].stage).value.1);
      }
    }
  }

  /** A settled entry has earned what the winner of its round's run decides. */
  ghost predicate Earnings(rounds: RoundTable, bets: Bets, runner: map<Addr, nat>, winners: map<nat, int>) {
    forall b | b in bets && bets[b].stage.RoundSettled? :: Earned(rounds, runner, winners, bets[b].stage)
  }

  ghost predicate Earned(rounds: RoundTable, runner: map<Addr, nat>, winners: map<nat, int>, st: Stage)
    requires st.RoundSettled?
  {
    && st.r in rounds && st.i < |rounds[st.r].bets| && st.r in runner && runner[st.r] in winners
    && var rb := rounds[st.r].bets[st.i];
       if rb.marble == winners[runner[st.r]]
       then st.won.Some? && st.won.value == PayoutUnits(rb.amount)
       else st.won == None
  }

  /** Has the run that popped round r got past entry i? */
  predicate PastSlot(runner: map<Addr, nat>, runs: RunTable, ended: set<nat>, r: Addr, i: nat) {
    r in runner &&
    (runner[r] in ended || (runner[r] in runs && runs[runner[r]].pc.Pay? && i < runs[runner[r]].pc.j))
  }

  /** Unless the run failed, an entry is settled exactly when its run has got past it. */
  ghost predicate SlotProgress(bets: Bets, runner: map<Addr, nat>, runs: RunTable, failed: set<nat>, ended: set<nat>) {
    && (forall b | b in bets && bets[b].stage.OnRound? ::
        !PastSlot(runner, runs, ended, bets[b].stage.r, bets[b].stage.i))
    && (forall b | b in bets && bets[b].stage.RoundSettled? ::
        || PastSlot(runner, runs, ended, bets[b].stage.r, bets[b].stage.i)
        || (bets[b].stage.r in runner && runner[bets[b].stage.r] in failed))
  }

  ghost predicate PayInBounds(runs: RunTable, rounds: RoundTable) {
    forall t | t in runs && runs[t].pc.Pay? && runs[t].r.Some? && runs[t].r.value in rounds ::
      runs[t].pc.j <= |rounds[runs[t].r.value].bets|
  }

  // ---------------------------------------------------------------------------
  // Settled seats
  // ---------------------------------------------------------------------------

  /** Within one run no seat is settled twice, and a settled seat has won exactly if it is the winner's. */
  ghost predicate SeatsSettledOnce(bets: Bets, runs: RunTable, winners: map<nat, int>, p: Uint64) {
    && (forall b | b in bets && bets[b].stage.SeatSettled? :: SeatVerdict(runs, winners, bets[b].stage, p))
    && (forall b, c | b in bets && c in bets && b != c
          && bets[b].stage.SeatSettled? && bets[c].stage.SeatSettled? ::
        bets[b].stage.run != bets[c].stage.run || bets[b].stage.seat != bets[c].stage.seat)
  }

  predicate SeatVerdict(runs: RunTable, winners: map<nat, int>, st: Stage, p: Uint64)
    requires st.SeatSettled?
  {
    && st.run in winners
    && st.won == (if st.seat == winners[st.run] then Some(p) else None)
    && (st.run in runs ==> st.seat < runs[st.run].Low())
  }

  // ---------------------------------------------------------------------------
  // The invariant
  // ---------------------------------------------------------------------------

  /** The wallet against the history of the bets. */
  ghost predicate Books(s: State) {
    && LogMatches(s.wallet, s.bets)
    && MoneyKept(s.wallet, s.bets, s.wraps, s.base)
  }

  /** Session bets: seats, the queue, the local lists of the runs, the verdicts. */
  ghost predicate Seating(s: State) {
    && SeatsMatch(s.sh.sessions, s.bets)
    && QueueMatches(s.sh.sessions, s.sh.queue, s.bets)
    && RunsShape(s.runs, s.failed, s.ended, s.winners, s.cfg.maxMarbles)
    && SeatsReady(s.sh.sessions, s.bets, s.runs, s.winners, Prize(s.cfg))
    && RunningMatches(s.bets, s.runs, s.failed, s.winners, Prize(s.cfg))
    && SeatsSettledOnce(s.bets, s.runs, s.winners, Prize(s.cfg))
  }

  /** Round bets: ids, pending rounds, bet lists, the progress and the earnings of settlement. */
  ghost predicate Filing(s: State) {
    && RoundIds(s.sh.rounds, s.sh.roundBets)
    && Popping(s.sh.rounds, s.sh.pendingRounds, s.runner)
    && RunnerMatches(s.runner, s.runs, s.failed, s.ended)
    && SlotsMatch(s.sh.rounds, s.bets)
    && Earnings(s.sh.rounds, s.bets, s.runner, s.winners)
    && SlotProgress(s.bets, s.runner, s.runs, s.failed, s.ended)
    && PayInBounds(s.runs, s.sh.rounds)
  }

  ghost predicate Inv(s: State) {
    Books(s) && Seating(s) && Filing(s)
  }

  lemma InitialInv(s: State)
    requires Initial(s)
    ensures Inv(s)
  {
    assert Outlays(s.bets) == map[];
  }
}
