/**
 The betting and settlement machine: every interleaving of the lock-held sections of PlaceBet,
 PlaceBetOnRound, GenerateRoundSpec, RunNextRound, OpenSession and CloseSession
 (server/rgs/manager.go), over one wallet.

 A call that has debited the wallet is identified by its bet id, and its program counter is the
 `Stage` of that bet; a RunNextRound in progress is a `Run`.  `bets`, `runner`, `winners`, `failed`,
 `ended` and `wraps` are history: no section reads them to decide what to do, except that a bet's
 stage says which section of its own call comes next.
 */
module Settlement {
  import opened Common
  import opened Sums
  import opened Sessions
  import opened Rounds
  import opened ManagerState
  import W = Wallet
  import Rtp

  type Addr = nat

  /** Wallet transaction ids: the bet id, alone or with ":refund" or ":credit" appended. */
  datatype TxId = BetTx(bet: nat) | RefundTx(bet: nat) | CreditTx(bet: nat)

  /** Where a debited bet stands. */
  datatype Stage =
    | SessionDebited(s: Addr)                          // PlaceBet: debited, session not asked yet
    | SessionRefused                                   // PlaceBet: the session refused, refund due
    | Seated(s: Addr)                                  // PlaceBet: in the session, not queued yet
    | Queued(s: Addr)                                  // waiting in m.pending
    | Running(s: Addr, run: nat)                       // in the local list of a RunNextRound
    | Paid(s: Addr, run: nat, prize: Uint64)           // winner credited, session not settled yet
    | SeatSettled(run: nat, seat: nat, won: Option<Uint64>)
    | RoundDebited(r: Addr, marble: nat, amount: real) // PlaceBetOnRound: debited, not re-validated yet
    | RoundRefused                                     // PlaceBetOnRound: too late, refund due
    | OnRound(r: Addr, i: nat)                         // entry i of the round's bet list
    | RoundSettled(r: Addr, i: nat, won: Option<Uint64>)
    | Refunded

  datatype BetRec = BetRec(player: string, units: Uint64, stage: Stage)

  datatype Pc = Taken | Assign(i: nat) | Sim | Settle(i: nat) | Save | Pay(j: nat)

  /** A RunNextRound in progress: its local list of sessions, its round, its program counter. */
  datatype Run = Run(list: seq<Addr>, r: Option<Addr>, pc: Pc) {
    /** Seats below this index are settled. */
    function Low(): nat {
      match pc
      case Settle(i) => i
      case Save => |list|
      case Pay(_) => |list|
      case _ => 0
    }

    /** Has the marble of seat k been assigned? */
    predicate Assigned(k: nat) {
      match pc
      case Taken => false
      case Assign(i) => k < i
      case _ => true
    }

    predicate HasWinner() { pc.Settle? || pc.Save? || pc.Pay? }
  }

  datatype Config = Config(maxMarbles: nat, buyIn: Uint64, bps: nat)

  datatype State = State(
    cfg: Config,
    sh: Shared<Addr, Addr>,
    wallet: W.Ledger<string, TxId>,
    runs: map<nat, Run>,
    // history
    bets: map<nat, BetRec>,
    runner: map<Addr, nat>,
    winners: map<nat, int>,
    failed: set<nat>,
    ended: set<nat>,
    wraps: nat,
    base: int)

  function Stakes(cfg: Config): seq<Uint64> { seq(cfg.maxMarbles, _ => cfg.buyIn) }

  /** The prize of one round: the RTP share of MaxMarbles * BuyIn, whatever was actually staked. */
  function Prize(cfg: Config): Uint64 {
    var pot := cfg.maxMarbles * cfg.buyIn;
    if cfg.bps <= Rtp.BASIS_POINTS && pot < TWO_64 then Rtp.Share(cfg.bps, pot).prize else 0
  }

  predicate IsFresh(s: State, t: nat) {
    t !in s.runs && t !in s.failed && t !in s.ended
  }

  // ---------------------------------------------------------------------------
  // Steps
  // ---------------------------------------------------------------------------

  datatype Action =
    | OpenSession(x: Addr, player: string)
    | CloseSession(x: Addr)
    | DebitSession(b: nat, x: Addr, amount: Uint64)
    | AskSession(b: nat)
    | QueueSession(b: nat)
    | Refund(b: nat)
    | MintRound(r: Addr, spec: RoundSpec)
    | DebitRound(b: nat, r: Addr, player: string, marble: nat, stake: real)
    | Revalidate(b: nat)
    | TakeNext(t: nat)
    | FreshRound(t: nat, r: Addr, spec: RoundSpec)
    | SeatField(t: nat)
    | AssignNext(t: nat)
    | Race(t: nat, winner: int)
    | PayWinner(t: nat)
    | SettleNext(t: nat)
    | SaveAudit(t: nat)
    | PayNext(t: nat)
    | Finish(t: nat)
    | Fail(t: nat)

  function SetStage(s: State, b: nat, st: Stage): State
    requires b in s.bets
  {
    s.(bets := s.bets[b := s.bets[b].(stage := st)])
  }

  function SetPc(s: State, t: nat, pc: Pc): State
    requires t in s.runs
  {
    s.(runs := s.runs[t := s.runs[t].(pc := pc)])
  }

  function FailRun(s: State, t: nat): State {
    s.(runs := s.runs - {t}, failed := s.failed + {t})
  }

  /** Credits `amount`, counting a wrap-around of the balance. */
  function CreditTo(s: State, player: string, amount: Uint64, tx: TxId): (State, W.Outcome) {
    var (l, out) := s.wallet.Credit(player, amount, tx);
    (s.(wallet := l,
        wraps := s.wraps + if l != s.wallet && s.wallet.Overflows(player, amount) then 1 else 0), out)
  }

  /** Which actions the code can take next, and the standing assumptions: fresh ids, amounts in range. */
  ghost predicate Enabled(s: State, a: Action)
    requires s.sh.WellFormed()
  {
    match a
    case OpenSession(x, player) => x !in s.sh.sessions && player != ""
    case CloseSession(x) => x in s.sh.sessions
    case DebitSession(b, x, amount) =>
      && x in s.sh.sessions && amount > 0 && b !in s.bets
      && s.wallet.Debit(s.sh.sessions[x].player, amount, BetTx(b)).1 == W.Applied
    case AskSession(b) =>
      b in s.bets && s.bets[b].stage.SessionDebited? && s.bets[b].stage.s in s.sh.sessions
    case QueueSession(b) => b in s.bets && s.bets[b].stage.Seated?
    case Refund(b) => b in s.bets && (s.bets[b].stage.SessionRefused? || s.bets[b].stage.RoundRefused?)
    case MintRound(r, spec) => r !in s.sh.rounds && spec.roundId !in s.sh.roundBets
    case DebitRound(b, r, player, marble, amount) =>
      && b !in s.bets && r in s.sh.rounds && marble < s.cfg.maxMarbles && amount > 0.0
      && 0 < Units(amount) && 0 <= PayoutUnits(amount) < TWO_64 && Units(amount) < TWO_64
      && s.wallet.Debit(player, Units(amount), BetTx(b)).1 == W.Applied
    case Revalidate(b) =>
      b in s.bets && s.bets[b].stage.RoundDebited? && s.bets[b].stage.r in s.sh.rounds
    case TakeNext(t) => IsFresh(s, t)
    case FreshRound(t, r, spec) =>
      && t in s.runs && s.runs[t].pc == Taken && s.runs[t].r == None
      && r !in s.sh.rounds && spec.roundId !in s.sh.roundBets
    case SeatField(t) => t in s.runs && s.runs[t].pc == Taken && s.runs[t].r.Some?
    case AssignNext(t) =>
      && t in s.runs && s.runs[t].pc.Assign?
      && (s.runs[t].pc.i < |s.runs[t].list| ==> s.runs[t].list[s.runs[t].pc.i] in s.sh.sessions)
    case Race(t, winner) =>
      t in s.runs && s.runs[t].pc == Sim && t !in s.winners
    case PayWinner(t) =>
      && t in s.runs && s.runs[t].pc.Settle? && t in s.winners && SeatIsWinner(s, t)
      && !s.bets[SeatBet(s, t).id].stage.Paid?
    case SettleNext(t) =>
      && t in s.runs && s.runs[t].pc.Settle? && t in s.winners
      && (s.runs[t].pc.i < |s.runs[t].list| ==>
          SeatHasBet(s, t) && (SeatIsWinner(s, t) ==> s.bets[SeatBet(s, t).id].stage.Paid?))
    case SaveAudit(t) => t in s.runs && s.runs[t].pc == Save
    case PayNext(t) =>
      && t in s.runs && s.runs[t].pc.Pay? && t in s.winners && s.runs[t].r.Some?
      && s.runs[t].r.value in s.sh.rounds
      && s.runs[t].pc.j < |s.sh.rounds[s.runs[t].r.value].bets|
      && s.sh.rounds[s.runs[t].r.value].bets[s.runs[t].pc.j].id in s.bets
      && 0 <= PayoutUnits(s.sh.rounds[s.runs[t].r.value].bets[s.runs[t].pc.j].amount) < TWO_64
    case Finish(t) =>
      && t in s.runs && s.runs[t].pc.Pay? && s.runs[t].r.Some? && s.runs[t].r.value in s.sh.rounds
      && s.runs[t].pc.j == |s.sh.rounds[s.runs[t].r.value].bets|
    case Fail(t) =>
      // no randomness for a fresh seed; the simulator or the clock; opening or saving the replay
      t in s.runs && ((s.runs[t].pc == Taken && s.runs[t].r == None) || s.runs[t].pc == Sim || s.runs[t].pc == Save)
  }

  /** The session whose turn it is in the settlement loop holds a bet known to the history. */
  predicate SeatHasBet(s: State, t: nat)
    requires t in s.runs && s.runs[t].pc.Settle?
  {
    var run := s.runs[t];
    && run.pc.i < |run.list| && run.list[run.pc.i] in s.sh.sessions
    && s.sh.sessions[run.list[run.pc.i]].bet.Some?
    && s.sh.sessions[run.list[run.pc.i]].bet.value.id in s.bets
  }

  function SeatBet(s: State, t: nat): SessionBet
    requires t in s.runs && s.runs[t].pc.Settle? && SeatHasBet(s, t)
  {
    s.sh.sessions[s.runs[t].list[s.runs[t].pc.i]].bet.value
  }

  predicate SeatIsWinner(s: State, t: nat)
    requires t in s.runs && s.runs[t].pc.Settle? && t in s.winners
  {
    SeatHasBet(s, t) && SeatBet(s, t).marble == s.winners[t]
  }

  ghost function Next(s: State, a: Action): State
    requires s.sh.WellFormed() && Enabled(s, a)
  {
    match a
    case OpenSession(x, player) => s.(sh := s.sh.(sessions := s.sh.sessions[x := Opened(player)]))
    case CloseSession(x) => s.(sh := s.sh.(sessions := s.sh.sessions[x := s.sh.sessions[x].Close().0]))
    case DebitSession(b, x, amount) =>
      var player := s.sh.sessions[x].player;
      s.(wallet := s.wallet.Debit(player, amount, BetTx(b)).0,
         bets := s.bets[b := BetRec(player, amount, SessionDebited(x))])
    case AskSession(b) =>
      var x := s.bets[b].stage.s;
      var (session, err) := s.sh.sessions[x].PlaceBet(SessionBet(b, s.bets[b].units, s.bets[b].player, 0));
      SetStage(s.(sh := s.sh.(sessions := s.sh.sessions[x := session])), b,
               if err.None? then Seated(x) else SessionRefused)
    case QueueSession(b) =>
      SetStage(s.(sh := s.sh.Enqueue(s.bets[b].stage.s)), b, Queued(s.bets[b].stage.s))
    case Refund(b) =>
      // the error of this credit is ignored
      SetStage(CreditTo(s, s.bets[b].player, s.bets[b].units, RefundTx(b)).0, b, Refunded)
    case MintRound(r, spec) => s.(sh := s.sh.Mint(r, spec))
    case DebitRound(b, r, player, marble, amount) =>
      s.(wallet := s.wallet.Debit(player, Units(amount), BetTx(b)).0,
         bets := s.bets[b := BetRec(player, Units(amount), RoundDebited(r, marble, amount))])
    case Revalidate(b) =>
      var st := s.bets[b].stage;
      var i := |s.sh.rounds[st.r].bets|;
      var bet := RoundBet(b, s.bets[b].player, s.sh.rounds[st.r].spec.roundId, st.marble, st.amount);
      var (sh, placed) := s.sh.PlaceOnRound(st.r, bet);
      SetStage(s.(sh := sh), b, if placed then OnRound(st.r, i) else RoundRefused)
    case TakeNext(t) =>
      var (sh, list, r) := s.sh.Take();
      s.(sh := sh,
         runs := s.runs[t := Run(list, r, Taken)],
         runner := if r.Some? then s.runner[r.value := t] else s.runner,
         bets := map b | b in s.bets :: Launch(s.bets[b], t))
    case FreshRound(t, r, spec) =>
      s.(sh := s.sh.Register(r, spec),
         runs := s.runs[t := s.runs[t].(r := Some(r))],
         runner := s.runner[r := t])
    case SeatField(t) =>
      if |s.runs[t].list| > s.cfg.maxMarbles then FailRun(s, t) else SetPc(s, t, Assign(0))
    case AssignNext(t) =>
      var i := s.runs[t].pc.i;
      if i >= |s.runs[t].list| then SetPc(s, t, Sim)
      else
        var x := s.runs[t].list[i];
        var (session, err) := s.sh.sessions[x].AssignMarble(i);
        if err.Some? then FailRun(s, t)
        else SetPc(s.(sh := s.sh.(sessions := s.sh.sessions[x := session])), t, Assign(i + 1))
    case Race(t, winner) =>
      if Rtp.Refusal(s.cfg.bps, Stakes(s.cfg), winner).Some? then FailRun(s, t)
      else SetPc(s, t, Pc.Settle(0)).(winners := s.winners[t := winner])
    case PayWinner(t) =>
      var x := s.runs[t].list[s.runs[t].pc.i];
      var b := SeatBet(s, t).id;
      var (s', out) := CreditTo(s, s.sh.sessions[x].player, Prize(s.cfg), CreditTx(b));
      if out != W.Applied then FailRun(s', t) else SetStage(s', b, Paid(x, t, Prize(s.cfg)))
    case SettleNext(t) =>
      var i := s.runs[t].pc.i;
      if i >= |s.runs[t].list| then SetPc(s, t, Save) else
      var x := s.runs[t].list[i];
      var bet := SeatBet(s, t);
      var won := SeatIsWinner(s, t);
      var outcome := Outcome(bet.id, bet.player, bet.amount, won, if won then Prize(s.cfg) else 0, s.winners[t]);
      var (session, err) := s.sh.sessions[x].Settle(outcome);
      if err.Some? then FailRun(s, t)
      else SetStage(SetPc(s.(sh := s.sh.(sessions := s.sh.sessions[x := session])), t, Pc.Settle(i + 1)), bet.id,
                    SeatSettled(t, i, if won then Some(Prize(s.cfg)) else None))
    case SaveAudit(t) => SetPc(s, t, Pay(0))
    case PayNext(t) =>
      var r := s.runs[t].r.value;
      var j := s.runs[t].pc.j;
      var rb := s.sh.rounds[r].bets[j];
      if rb.marble == s.winners[t] then
        var (s', out) := CreditTo(s, rb.player, PayoutUnits(rb.amount), CreditTx(rb.id));
        if out != W.Applied then FailRun(s', t)
        else SetStage(SetPc(s', t, Pay(j + 1)), rb.id, RoundSettled(r, j, Some(PayoutUnits(rb.amount))))
      else SetStage(SetPc(s, t, Pay(j + 1)), rb.id, RoundSettled(r, j, None))
    case Finish(t) => s.(runs := s.runs - {t}, ended := s.ended + {t})
    case Fail(t) => FailRun(s, t)
  }

  /** Taking the queue turns every queued bet into a running one. */
  function Launch(rec: BetRec, t: nat): BetRec {
    if rec.stage.Queued? then rec.(stage := Running(rec.stage.s, t)) else rec
  }

  /** A server with funded players and nothing else. */
  ghost predicate Initial(s: State) {
    && s.sh == Shared(map[], [], map[], [], map[])
    && s.wallet.applied == map[]
    && s.runs == map[] && s.bets == map[] && s.runner == map[] && s.winners == map[]
    && s.failed == {} && s.ended == {} && s.wraps == 0
    && s.base == Sum(s.wallet.balances)
  }

  /** `path` is a run of the machine: every action is enabled where it is taken. */
  ghost predicate IsPath(s: State, path: seq<Action>)
    decreases |path|
  {
    s.sh.WellFormed() &&
    (path == [] || (Enabled(s, path[0]) && IsPath(Next(s, path[0]), path[1..])))
  }

  ghost function After(s: State, path: seq<Action>): State
    requires IsPath(s, path)
    decreases |path|
  {
    if path == [] then s else After(Next(s, path[0]), path[1..])
  }
}
