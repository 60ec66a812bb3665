/**
 What a RunNextRound does to its sessions and to the wallet (server/rgs/manager.go), as functions of the sessions and
 bets it has taken: the credits it tries, how far it gets, and what it reports.
 */
module RunOutcomes {
  import opened Common
  import opened Sessions
  import opened Rounds
  import opened ManagerState
  import opened Settlement
  import opened Sums
  import W = Wallet
  import Rtp

  type WalletCall = W.Call<string, TxId>

  type Ledger = W.Ledger<string, TxId>

  datatype RunError =
    | NoSeed
    | RoundError(failure: Failure)
    | RtpError(refusal: Rtp.Error)
    | CreditError(outcome: W.Outcome)
    | SaveError

  datatype RoundOutcome = RoundOutcome(bet: RoundBet, won: bool, units: int)

  datatype Report = Report(manifest: Manifest, seats: seq<Outcome>, rounds: seq<RoundOutcome>)

  /** What happens outside the Manager during a run: instants and simulator, and whether the replay is stored. */
  datatype World = World(race: Happening, freshId: nat, freshSeed: Option<Bytes>, saved: bool)

  /** Can this round be raced and its prize computed? */
  predicate Raced(cfg: Config, w: World) {
    Races(w.race) && Rtp.Refusal(cfg.bps, Settlement.Stakes(cfg), w.race.sim.value).None?
  }

  // ---------------------------------------------------------------------------
  // Sessions
  // ---------------------------------------------------------------------------

  ghost function Views(list: seq<Session>): (v: seq<SessionState>)
    reads list
    ensures |v| == |list| && forall i | 0 <= i < |list| :: v[i] == list[i].View()
  {
    seq(|list|, i requires 0 <= i < |list| reads list => list[i].View())
  }

  ghost predicate AllWait(seats: seq<SessionState>) {
    forall i | 0 <= i < |seats| :: seats[i].bet.Some? && Waits(seats[i])
  }

  /** A session waiting for its race. */
  predicate Waits(s: SessionState) {
    s.phase == Sessions.Phase.Bet && s.bet.Some? && s.player != ""
  }

  function SeatOutcome(s: SessionState, seat: nat, winner: int, prize: Uint64): Outcome
    requires s.bet.Some?
  {
    var won := seat == winner;
    Outcome(s.bet.value.id, s.bet.value.player, s.bet.value.amount, won, if won then prize else 0, winner)
  }

  /** A waiting session after its race: the marble it was given is its place in the queue. */
  function AfterRace(s: SessionState, seat: nat, winner: int, prize: Uint64): SessionState
    requires s.bet.Some?
  {
    SessionState(s.player, Sessions.Phase.Settled, None, Some(SeatOutcome(s, seat, winner, prize)))
  }

  function RoundVerdict(bet: RoundBet, winner: int): RoundOutcome {
    RoundOutcome(bet, bet.marble == winner, if bet.marble == winner then PayoutUnits(bet.amount) else 0)
  }

  function Names(seats: seq<SessionState>): seq<string> {
    seq(|seats|, i requires 0 <= i < |seats| => seats[i].player)
  }

  /** Every session of the list is settled as its seat demands. */
  ghost predicate AllRaced(list: seq<Session>, seats: seq<SessionState>, winner: int, prize: Uint64)
    requires |list| == |seats| && AllWait(seats)
    reads list
  {
    forall i | 0 <= i < |list| :: list[i].View() == AfterRace(seats[i], i, winner, prize)
  }

  /** Every session of the list has its marble and still holds its bet. */
  ghost predicate AllRacing(list: seq<Session>, seats: seq<SessionState>)
    requires |list| == |seats|
    reads list
  {
    forall i | 0 <= i < |list| :: list[i].View() == seats[i].AssignMarble(i).0
  }

  /**
   The sessions after the settlement loop: all settled, or, if the winner's credit was refused, those before
   the winner settled and the others still racing.
   */
  ghost predicate SeatsAfter(list: seq<Session>, seats: seq<SessionState>, winner: int, prize: Uint64, credited: bool)
    requires |list| == |seats| && AllWait(seats)
    reads list
  {
    forall i | 0 <= i < |list| ::
      list[i].View() == if credited || i < winner then AfterRace(seats[i], i, winner, prize)
        else seats[i].AssignMarble(i).0
  }

  /** The report lists the outcome of every seat and of every round bet. */
  ghost predicate Reported(r: Report, seats: seq<SessionState>, bets: seq<RoundBet>, winner: int, prize: Uint64)
    requires AllWait(seats)
  {
    && |r.seats| == |seats| && |r.rounds| == |bets|
    && (forall i | 0 <= i < |seats| :: r.seats[i] == SeatOutcome(seats[i], i, winner, prize))
    && (forall i | 0 <= i < |bets| :: r.rounds[i] == RoundVerdict(bets[i], winner))
  }

  // ---------------------------------------------------------------------------
  // Credits
  // ---------------------------------------------------------------------------

  predicate Payable(bets: seq<RoundBet>) {
    forall i | 0 <= i < |bets| :: 0 <= PayoutUnits(bets[i].amount) < TWO_64
  }

  /** The credit of the winning seat: none if a filler won. */
  function SeatCredits(seats: seq<SessionState>, winner: int, prize: Uint64): seq<WalletCall>
    requires 0 <= winner < |seats| ==> seats[winner].bet.Some?
  {
    if 0 <= winner < |seats| then [W.CreditCall(seats[winner].player, prize, CreditTx(seats[winner].bet.value.id))]
    else []
  }

  /** The credits of the winning round bets, in the order of placement. */
  function RoundCredits(bets: seq<RoundBet>, winner: int): seq<WalletCall>
    requires Payable(bets)
  {
    if bets == [] then []
    else
      var last := bets[|bets| - 1];
      RoundCredits(bets[..|bets| - 1], winner)
      + if last.marble == winner then [W.CreditCall(last.player, PayoutUnits(last.amount), CreditTx(last.id))] else []
  }

  /** All credits of a round, in the order in which they are made. */
  function Credits(seats: seq<SessionState>, bets: seq<RoundBet>, winner: int, prize: Uint64): seq<WalletCall>
    requires Payable(bets) && (0 <= winner < |seats| ==> seats[winner].bet.Some?)
  {
    SeatCredits(seats, winner, prize) + RoundCredits(bets, winner)
  }

  /** The credits that a raced round tries to make: those of its round bets only once its replay is stored. */
  function CreditsTried(seats: seq<SessionState>, bets: seq<RoundBet>, winner: int, prize: Uint64, saved: bool)
    : seq<WalletCall>
    requires Payable(bets) && (0 <= winner < |seats| ==> seats[winner].bet.Some?)
  {
    if saved then Credits(seats, bets, winner, prize) else SeatCredits(seats, winner, prize)
  }

  /** Every call of the list is answered without error. */
  predicate AllApplied(l: Ledger, calls: seq<WalletCall>)
    decreases |calls|
  {
    calls == [] || (W.Step(l, calls[0]).1 == W.Applied && AllApplied(W.Step(l, calls[0]).0, calls[1..]))
  }

  lemma {:induction false} RunExtend(l: Ledger, calls: seq<WalletCall>, c: WalletCall)
    ensures W.Run(l, calls + [c]) == W.Step(W.Run(l, calls), c).0
    ensures AllApplied(l, calls + [c]) <==> AllApplied(l, calls) && W.Step(W.Run(l, calls), c).1 == W.Applied
    decreases |calls|
  {
    if calls == [] {
      assert [] + [c] == [c];
    } else {
      assert (calls + [c])[1..] == calls[1..] + [c];
      RunExtend(W.Step(l, calls[0]).0, calls[1..], c);
    }
  }

  lemma {:induction false} RunConcat(l: Ledger, a: seq<WalletCall>, b: seq<WalletCall>)
    ensures W.Run(l, a + b) == W.Run(W.Run(l, a), b)
    ensures AllApplied(l, a + b) <==> AllApplied(l, a) && AllApplied(W.Run(l, a), b)
    decreases |a|
  {
    if a == [] {
      assert a + b == b;
    } else {
      assert (a + b)[1..] == a[1..] + b;
      RunConcat(W.Step(l, a[0]).0, a[1..], b);
    }
  }

  /** The wallet after these calls, made one by one until one is refused. */
  function UpToRefusal(l: Ledger, calls: seq<WalletCall>): Ledger
    decreases |calls|
  {
    if calls == [] || W.Step(l, calls[0]).1 != W.Applied then l
    else UpToRefusal(W.Step(l, calls[0]).0, calls[1..])
  }

  lemma {:induction false} UpToRefusalConcat(l: Ledger, a: seq<WalletCall>, b: seq<WalletCall>)
    ensures UpToRefusal(l, a + b) == if AllApplied(l, a) then UpToRefusal(W.Run(l, a), b) else UpToRefusal(l, a)
    ensures AllApplied(l, a) ==> UpToRefusal(l, a) == W.Run(l, a)
    decreases |a|
  {
    if a == [] {
      assert a + b == b;
    } else {
      assert (a + b)[1..] == a[1..] + b;
      UpToRefusalConcat(W.Step(l, a[0]).0, a[1..], b);
    }
  }

  /** The wallet after the winning seat has been credited. */
  function AfterSeats(l: Ledger, seats: seq<SessionState>, winner: int, prize: Uint64): (Ledger, W.Outcome)
    requires 0 <= winner < |seats| ==> seats[winner].bet.Some?
  {
    if 0 <= winner < |seats| then l.Credit(seats[winner].player, prize, CreditTx(seats[winner].bet.value.id))
    else (l, W.Applied)
  }

  lemma SeatCreditsRun(l: Ledger, seats: seq<SessionState>, winner: int, prize: Uint64)
    requires 0 <= winner < |seats| ==> seats[winner].bet.Some?
    ensures AllApplied(l, SeatCredits(seats, winner, prize)) <==> AfterSeats(l, seats, winner, prize).1 == W.Applied
    ensures W.Run(l, SeatCredits(seats, winner, prize)) == AfterSeats(l, seats, winner, prize).0
    ensures UpToRefusal(l, SeatCredits(seats, winner, prize)) ==
      if AfterSeats(l, seats, winner, prize).1 == W.Applied then AfterSeats(l, seats, winner, prize).0 else l
  {
    if 0 <= winner < |seats| {
      var c := W.CreditCall(seats[winner].player, prize, CreditTx(seats[winner].bet.value.id));
      RunExtend(l, [], c);
      assert [] + [c] == [c];
    }
  }

  /** The first refused credit is the end of the settlement. */
  lemma CreditRefused(l: Ledger, bets: seq<RoundBet>, winner: int, i: nat)
    requires Payable(bets) && i < |bets| && bets[i].marble == winner
    requires AllApplied(l, RoundCredits(bets[..i], winner))
    requires var c := W.CreditCall(bets[i].player, PayoutUnits(bets[i].amount), CreditTx(bets[i].id));
      W.Step(W.Run(l, RoundCredits(bets[..i], winner)), c).1 != W.Applied
    ensures !AllApplied(l, RoundCredits(bets, winner))
    ensures UpToRefusal(l, RoundCredits(bets, winner)) == W.Run(l, RoundCredits(bets[..i], winner))
  {
    var front, rest := RoundCredits(bets[..i], winner), RoundCredits(bets[i + 1..], winner);
    var c := W.CreditCall(bets[i].player, PayoutUnits(bets[i].amount), CreditTx(bets[i].id));
    CreditsAround(bets, winner, i);
    RunConcat(l, front, [c] + rest);
    UpToRefusalConcat(l, front, [c] + rest);
  }

  lemma CreditsAround(bets: seq<RoundBet>, winner: int, i: nat)
    requires Payable(bets) && i < |bets| && bets[i].marble == winner
    ensures RoundCredits(bets, winner) == RoundCredits(bets[..i], winner)
      + ([W.CreditCall(bets[i].player, PayoutUnits(bets[i].amount), CreditTx(bets[i].id))]
         + RoundCredits(bets[i + 1..], winner))
  {
    RoundCreditsSplit(bets, winner, i + 1);
    assert bets[..i + 1][..i] == bets[..i];
  }

  lemma {:induction false} RoundCreditsSplit(bets: seq<RoundBet>, winner: int, i: nat)
    requires Payable(bets) && i <= |bets|
    ensures RoundCredits(bets, winner) == RoundCredits(bets[..i], winner) + RoundCredits(bets[i..], winner)
    decreases |bets|
  {
    if i == |bets| {
      assert bets[..i] == bets && bets[i..] == [];
    } else {
      var front := bets[..|bets| - 1];
      RoundCreditsSplit(front, winner, i);
      LastBetOut(bets, i);
    }
  }

  lemma LastBetOut(bets: seq<RoundBet>, i: nat)
    requires i < |bets|
    ensures bets[..|bets| - 1][..i] == bets[..i]
    ensures bets[..|bets| - 1][i..] == bets[i..][..|bets[i..]| - 1]
    ensures bets[i..][|bets[i..]| - 1] == bets[|bets| - 1]
  {
  }

  // ---------------------------------------------------------------------------
  // How a run ends
  // ---------------------------------------------------------------------------

  /**
   How a run that ended, well or not, leaves its sessions and the wallet.  Without a seed, or with too many
   sessions, nothing has changed.  If the race or its arithmetic failed, every session races for ever.  Otherwise
   the credits have been made up to the first refusal, and every seat is settled -- but for the winner's and those
   behind it if the winner was refused.
   */
  ghost predicate LeftBehind(spec: Option<RoundSpec>, cfg: Config, w: World, list: seq<Session>,
                             seats: seq<SessionState>, bets: seq<RoundBet>, before: Ledger, after: Ledger)
    requires |list| == |seats| && AllWait(seats) && Payable(bets)
    reads list
  {
    if spec.None? || !Seats(spec.value, Names(seats), cfg.maxMarbles) then after == before && Views(list) == seats
    else if !Raced(cfg, w) then after == before && AllRacing(list, seats)
    else
      var winner, prize := w.race.sim.value, Prize(cfg);
      && after == UpToRefusal(before, CreditsTried(seats, bets, winner, prize, w.saved))
      && SeatsAfter(list, seats, winner, prize, AllApplied(before, SeatCredits(seats, winner, prize)))
  }

  /**
   How a run ends.  It returns a report exactly when the field fits, the race and its settlement arithmetic
   succeed, every credit is accepted and the replay is stored; then every session is settled, seat by seat, the
   wallet has paid the winners and nobody else, and the report says so.
   */
  ghost predicate RunEnds(r: Result<Report, RunError>, spec: Option<RoundSpec>, cfg: Config, sha: Hash, w: World,
                          list: seq<Session>, seats: seq<SessionState>, bets: seq<RoundBet>,
                          before: Ledger, after: Ledger)
    requires |list| == |seats| && AllWait(seats) && Payable(bets)
    reads list
  {
    && LeftBehind(spec, cfg, w, list, seats, bets, before, after)
    && (r.Ok? <==>
          && spec.Some? && Seats(spec.value, Names(seats), cfg.maxMarbles) && Raced(cfg, w) && w.saved
          && AllApplied(before, Credits(seats, bets, w.race.sim.value, Prize(cfg))))
    && (r.Ok? ==>
          && r.value.manifest == AuditOf(sha, spec.value, Names(seats), cfg.maxMarbles, w.race.sim.value)
          && after == W.Run(before, Credits(seats, bets, w.race.sim.value, Prize(cfg)))
          && AllRaced(list, seats, w.race.sim.value, Prize(cfg))
          && Reported(r.value, seats, bets, w.race.sim.value, Prize(cfg)))
    && (r.Err? ==> FailsAs(r.error, spec, cfg, w, seats, before))
  }

  /** The first thing that went wrong. */
  predicate FailsAs(e: RunError, spec: Option<RoundSpec>, cfg: Config, w: World, seats: seq<SessionState>,
                    before: Ledger)
    requires forall i | 0 <= i < |seats| :: seats[i].bet.Some?
  {
    if spec.None? then e == NoSeed
    else if !Seats(spec.value, Names(seats), cfg.maxMarbles) || !Races(w.race) then e.RoundError?
    else
      var refusal := Rtp.Refusal(cfg.bps, Settlement.Stakes(cfg), w.race.sim.value);
      if refusal.Some? then e == RtpError(refusal.value)
      else if !AllApplied(before, SeatCredits(seats, w.race.sim.value, Prize(cfg))) then e.CreditError?
      else if !w.saved then e == SaveError
      else e.CreditError?
  }

  /** A run without a seed leaves everything as it was. */
  lemma NothingRun(cfg: Config, sha: Hash, w: World, list: seq<Session>, seats: seq<SessionState>, bets: seq<RoundBet>,
                   l: Ledger)
    requires seats == Views(list) && AllWait(seats) && Payable(bets)
    ensures RunEnds(Err(NoSeed), None, cfg, sha, w, list, seats, bets, l, l)
  {
  }

  /** With every credit accepted, everybody is settled and paid. */
  lemma AllPaid(before: Ledger, seats: seq<SessionState>, bets: seq<RoundBet>, winner: int, prize: Uint64)
    requires AllWait(seats) && Payable(bets) && AllApplied(before, Credits(seats, bets, winner, prize))
    ensures AllApplied(before, SeatCredits(seats, winner, prize))
    ensures UpToRefusal(before, Credits(seats, bets, winner, prize)) ==
      W.Run(before, Credits(seats, bets, winner, prize))
  {
    RunConcat(before, SeatCredits(seats, winner, prize), RoundCredits(bets, winner));
    UpToRefusalConcat(before, Credits(seats, bets, winner, prize), []);
  }

  lemma {:induction false} StakesSum(n: nat, buyIn: Uint64)
    ensures SeqSum(seq(n, _ => buyIn)) == n * buyIn
  {
    if n > 0 {
      StakesSum(n - 1, buyIn);
      assert seq(n, _ => buyIn)[..n - 1] == seq(n - 1, _ => buyIn);
    }
  }

  /** rtp.Settle on MaxMarbles equal stakes yields the prize the settlement machine uses. */
  lemma PrizeIsTheShare(cfg: Config, winner: int, split: Rtp.Split)
    requires Rtp.Refusal(cfg.bps, Settlement.Stakes(cfg), winner).None?
    requires Rtp.IsSplit(cfg.bps, SeqSum(Settlement.Stakes(cfg)), split)
    ensures split.prize == Prize(cfg)
  {
    StakesSum(cfg.maxMarbles, cfg.buyIn);
    Rtp.SplitIsUnique(cfg.bps, cfg.maxMarbles * cfg.buyIn, split, Rtp.Share(cfg.bps, cfg.maxMarbles * cfg.buyIn));
  }

  // ---------------------------------------------------------------------------
  // Credits under fresh ids
  // ---------------------------------------------------------------------------

  /** Credits to known players under distinct ids the log has not seen. */
  ghost predicate FreshCredits(l: Ledger, calls: seq<WalletCall>) {
    && (forall i | 0 <= i < |calls| ::
          calls[i].CreditCall? && calls[i].player in l.balances && calls[i].tx !in l.applied)
    && (forall i, j | 0 <= i < j < |calls| :: calls[i].tx != calls[j].tx)
  }

  lemma {:induction false} FreshCreditsApply(l: Ledger, calls: seq<WalletCall>)
    requires FreshCredits(l, calls)
    ensures AllApplied(l, calls)
    decreases |calls|
  {
    if calls != [] {
      var next := W.Step(l, calls[0]).0;
      forall i | 0 <= i < |calls| - 1
        ensures calls[1..][i].CreditCall? && calls[1..][i].player in next.balances && calls[1..][i].tx !in next.applied
      {
        assert calls[1..][i] == calls[i + 1];
      }
      FreshCreditsApply(next, calls[1..]);
    }
  }

  /**
   Every credit of a round belongs to one winning bet on it, and every winning bet has its credit, in the order of the
   bets.
   */
  lemma {:induction false} RoundCreditsAreWins(bets: seq<RoundBet>, winner: int) returns (at: seq<nat>)
    requires Payable(bets)
    ensures var calls := RoundCredits(bets, winner);
      && |at| == |calls|
      && (forall k | 0 <= k < |at| :: at[k] < |bets| && bets[at[k]].marble == winner)
      && (forall k | 0 <= k < |at| ::
          calls[k] == W.CreditCall(bets[at[k]].player, PayoutUnits(bets[at[k]].amount), CreditTx(bets[at[k]].id)))
      && (forall j, k | 0 <= j < k < |at| :: at[j] < at[k])
      && (forall i | 0 <= i < |bets| && bets[i].marble == winner :: i in at)
  {
    if bets == [] {
      at := [];
    } else {
      var before := RoundCreditsAreWins(bets[..|bets| - 1], winner);
      at := before;
      if bets[|bets| - 1].marble == winner {
        at := before + [|bets| - 1];
      }
      forall i | 0 <= i < |bets| && bets[i].marble == winner ensures i in at {
        assert i < |bets| - 1 ==> i in before;
      }
    }
  }

  /**
   With distinct bets, none of them paid before, and known players, no credit of a round is refused: the
   credit error returns of RunNextRound are not taken.
   */
  lemma CreditsAccepted(l: Ledger, seats: seq<SessionState>, bets: seq<RoundBet>, winner: int, prize: Uint64)
    requires Payable(bets) && AllWait(seats)
    requires forall i | 0 <= i < |seats| ::
      seats[i].player in l.balances && CreditTx(seats[i].bet.value.id) !in l.applied
    requires forall i | 0 <= i < |bets| :: bets[i].player in l.balances && CreditTx(bets[i].id) !in l.applied
    requires forall i, j | 0 <= i < j < |bets| :: bets[i].id != bets[j].id
    requires forall i, j | 0 <= i < |seats| && 0 <= j < |bets| :: seats[i].bet.value.id != bets[j].id
    ensures AllApplied(l, Credits(seats, bets, winner, prize))
  {
    var at := RoundCreditsAreWins(bets, winner);
    var calls := Credits(seats, bets, winner, prize);
    var n := |SeatCredits(seats, winner, prize)|;
    assert forall k | n <= k < |calls| :: calls[k] == RoundCredits(bets, winner)[k - n];
    FreshCreditsApply(l, calls);
  }
}
