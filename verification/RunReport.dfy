/**
 A report of RunNextRound is true (server/rgs/manager.go): of every bet it says what became of it, the wallet's log
 shows exactly the payouts it reports, and every player's balance has grown by what it reports for that player.
 */
module RunReports {
  import opened Common
  import opened Text
  import opened Sessions
  import opened Rounds
  import opened ManagerState
  import opened Settlement
  import opened RunOutcomes
  import W = Wallet

  // ---------------------------------------------------------------------------
  // Verdicts
  // ---------------------------------------------------------------------------

  /** Of each round bet, in order: it won exactly if its marble came in first, and then 19 times its amount. */
  lemma RoundBetsAreReported(r: Result<Report, RunError>, spec: Option<RoundSpec>, cfg: Config, sha: Hash, w: World,
                             list: seq<Session>, seats: seq<SessionState>, bets: seq<RoundBet>,
                             before: Ledger, after: Ledger)
    requires |list| == |seats| && AllWait(seats) && Payable(bets)
    requires RunEnds(r, spec, cfg, sha, w, list, seats, bets, before, after) && r.Ok?
    ensures |r.value.rounds| == |bets| && w.race.sim.Some?
    ensures forall i | 0 <= i < |bets| :: var o := r.value.rounds[i];
      && o.bet == bets[i] && (o.won <==> bets[i].marble == w.race.sim.value)
      && o.units == if o.won then (bets[i].amount * 19.0 * 100.0).Floor else 0
  {
    forall i | 0 <= i < |bets| ensures r.value.rounds[i] == RoundVerdict(bets[i], w.race.sim.value) {}
  }

  /**
   Of each session bet, seat by seat: it won exactly if its seat came in first, and then the whole prize; and the
   session is settled and shows that very outcome as its last.
   */
  lemma SeatsAreReported(r: Result<Report, RunError>, spec: Option<RoundSpec>, cfg: Config, sha: Hash, w: World,
                         list: seq<Session>, seats: seq<SessionState>, bets: seq<RoundBet>,
                         before: Ledger, after: Ledger)
    requires |list| == |seats| && AllWait(seats) && Payable(bets)
    requires RunEnds(r, spec, cfg, sha, w, list, seats, bets, before, after) && r.Ok?
    ensures |r.value.seats| == |seats| && w.race.sim.Some?
    ensures forall i | 0 <= i < |seats| :: var o, bet := r.value.seats[i], seats[i].bet.value;
      && o.betId == bet.id && o.player == bet.player && o.amount == bet.amount && o.winner == w.race.sim.value
      && (o.won <==> i == w.race.sim.value) && o.prize == if o.won then Prize(cfg) else 0
    ensures forall i | 0 <= i < |list| ::
      && list[i].player == seats[i].player && list[i].phase == Settled && list[i].bet == None
      && list[i].last == Some(r.value.seats[i])
  {
    forall i | 0 <= i < |list| ensures list[i].View() == AfterRace(seats[i], i, w.race.sim.value, Prize(cfg)) {}
  }

  /**
   The manifest of a report names the round that was consumed, its track and the winner, lists the players of the
   queue in order and fillers behind them, and reveals the seed together with its hash.
   */
  lemma ManifestIsReported(r: Result<Report, RunError>, spec: Option<RoundSpec>, cfg: Config, sha: Hash, w: World,
                           list: seq<Session>, seats: seq<SessionState>, bets: seq<RoundBet>,
                           before: Ledger, after: Ledger)
    requires |list| == |seats| && AllWait(seats) && Payable(bets)
    requires RunEnds(r, spec, cfg, sha, w, list, seats, bets, before, after) && r.Ok?
    ensures spec.Some? && HexDecode(spec.value.serverSeedHex).Some? && |seats| <= cfg.maxMarbles
    ensures var m := r.value.manifest; var seed := Copy32(HexDecode(spec.value.serverSeedHex).value);
      && m.roundId == spec.value.roundId && m.trackId == spec.value.trackId && Some(m.winner) == w.race.sim
      && m.serverSeedHex == HexEncode(seed) && m.serverSeedHashHex == HexEncode(sha(seed))
      && |m.participants| == cfg.maxMarbles
      && (forall i | 0 <= i < |seats| :: m.participants[i] == Participant(i, seats[i].player, ""))
      && forall i | |seats| <= i < cfg.maxMarbles :: m.participants[i] == Participant(i, FillerName(i), "")
  {
  }

  lemma RaceInNumbers(cfg: Config, w: World)
    ensures Raced(cfg, w) <==>
      && w.race.buyInAt <= w.race.startAt <= w.race.finishAt && w.race.finishAt != 0
      && w.race.sim.Some? && 0 <= w.race.sim.value < cfg.maxMarbles && cfg.bps <= 10_000
      && cfg.maxMarbles * cfg.buyIn < 0x1_0000_0000_0000_0000
      && cfg.maxMarbles * cfg.buyIn * cfg.bps < 0x1_0000_0000_0000_0000
  {
    StakesSum(cfg.maxMarbles, cfg.buyIn);
  }

  lemma SeatsInNumbers(spec: RoundSpec, seats: seq<SessionState>, maxMarbles: nat)
    requires AllWait(seats)
    ensures Seats(spec, Names(seats), maxMarbles) <==>
      HexDecode(spec.serverSeedHex).Some? && |seats| <= maxMarbles
  {
    assert forall i | 0 <= i < |seats| :: Names(seats)[i] == seats[i].player && Waits(seats[i]);
  }

  lemma UnpaidAreApplied(l: Ledger, seats: seq<SessionState>, bets: seq<RoundBet>, winner: int, prize: Uint64)
    requires AllWait(seats) && Payable(bets) && Unpaid(l, seats, bets)
    ensures AllApplied(l, Credits(seats, bets, winner, prize)) && AllApplied(l, SeatCredits(seats, winner, prize))
  {
    CreditsAreFresh(l, seats, bets, winner, prize);
    FreshCreditsApply(l, Credits(seats, bets, winner, prize));
    RunConcat(l, SeatCredits(seats, winner, prize), RoundCredits(bets, winner));
  }

  /**
   When a round is run to its end, in the configuration's own terms: with unpaid bets of known players, exactly if
   there is a seed in hexadecimal, everybody fits, the clock does not step back, the simulator names a marble of the
   field, the pot and its product with the RTP fit in 64 bits, and the replay is stored.
   */
  lemma RunSucceedsIff(r: Result<Report, RunError>, spec: Option<RoundSpec>, cfg: Config, sha: Hash, w: World,
                       list: seq<Session>, seats: seq<SessionState>, bets: seq<RoundBet>,
                       before: Ledger, after: Ledger)
    requires |list| == |seats| && AllWait(seats) && Payable(bets) && Unpaid(before, seats, bets)
    requires RunEnds(r, spec, cfg, sha, w, list, seats, bets, before, after)
    ensures var ready :=
        && spec.Some? && HexDecode(spec.value.serverSeedHex).Some? && |seats| <= cfg.maxMarbles
        && w.race.buyInAt <= w.race.startAt <= w.race.finishAt && w.race.finishAt != 0
        && w.race.sim.Some? && 0 <= w.race.sim.value < cfg.maxMarbles && cfg.bps <= 10_000
        && cfg.maxMarbles * cfg.buyIn < 0x1_0000_0000_0000_0000
        && cfg.maxMarbles * cfg.buyIn * cfg.bps < 0x1_0000_0000_0000_0000;
      && (r.Ok? <==> ready && w.saved)
      && (r == Err(SaveError) <==> ready && !w.saved)
      && (r == Err(NoSeed) <==> spec.None?)
  {
    RaceInNumbers(cfg, w);
    if spec.Some? {
      SeatsInNumbers(spec.value, seats, cfg.maxMarbles);
      if Raced(cfg, w) {
        UnpaidAreApplied(before, seats, bets, w.race.sim.value, Prize(cfg));
      }
    }
  }

  /** A run whose race failed leaves each session racing with its bet, on the marble of its seat. */
  lemma FailedRaceLeavesRacing(r: Result<Report, RunError>, spec: RoundSpec, cfg: Config, sha: Hash, w: World,
                               list: seq<Session>, seats: seq<SessionState>, bets: seq<RoundBet>,
                               before: Ledger, after: Ledger)
    requires |list| == |seats| && AllWait(seats) && Payable(bets)
    requires RunEnds(r, Some(spec), cfg, sha, w, list, seats, bets, before, after)
    requires Seats(spec, Names(seats), cfg.maxMarbles) && !Raced(cfg, w)
    ensures r.Err? && after == before
    ensures forall i | 0 <= i < |list| ::
      && list[i].player == seats[i].player && list[i].phase == Sessions.Phase.Racing
      && list[i].bet == Some(seats[i].bet.value.(marble := i)) && list[i].last == seats[i].last
  {
    forall i | 0 <= i < |list| ensures list[i].View() == seats[i].AssignMarble(i).0 {}
  }

  /** The prize of a full field of equal stakes, whoever has placed them: its RTP share, rounded down. */
  lemma PrizeInNumbers(cfg: Config)
    requires cfg.bps <= 10_000 && cfg.maxMarbles * cfg.buyIn < 0x1_0000_0000_0000_0000
    ensures var pot := cfg.maxMarbles * cfg.buyIn;
      Prize(cfg) * 10_000 <= pot * cfg.bps < (Prize(cfg) + 1) * 10_000 && Prize(cfg) <= pot
  {
  }

  // ---------------------------------------------------------------------------
  // The wallet's log
  // ---------------------------------------------------------------------------

  /** Is this transaction one of the calls? */
  ghost predicate IsMade(tx: TxId, calls: seq<WalletCall>) {
    exists k :: 0 <= k < |calls| && calls[k].tx == tx
  }

  lemma MadeConcat(a: seq<WalletCall>, b: seq<WalletCall>, tx: TxId)
    ensures IsMade(tx, a + b) <==> IsMade(tx, a) || IsMade(tx, b)
  {
    var all := a + b;
    if k :| 0 <= k < |a| && a[k].tx == tx {
      assert all[k].tx == tx;
    }
    if k :| 0 <= k < |b| && b[k].tx == tx {
      assert all[|a| + k].tx == tx;
    }
    if k :| 0 <= k < |all| && all[k].tx == tx {
      assert if k < |a| then a[k].tx == tx else b[k - |a|].tx == tx;
    }
  }

  /** Fresh credits are all logged, with their amounts, and nothing else is. */
  lemma {:induction false} FreshCreditsLogged(l: Ledger, calls: seq<WalletCall>)
    requires FreshCredits(l, calls)
    ensures var applied := W.Run(l, calls).applied;
      && (forall tx :: tx in applied <==> tx in l.applied || IsMade(tx, calls))
      && (forall k | 0 <= k < |calls| :: applied[calls[k].tx] == W.CreditMark(calls[k].amount))
      && (forall tx | tx in l.applied :: applied[tx] == l.applied[tx])
    decreases |calls|
  {
    if calls != [] {
      var next, rest := W.Step(l, calls[0]).0, calls[1..];
      RestIsFresh(l, calls);
      FreshCreditsLogged(next, rest);
      var applied := W.Run(l, calls).applied;
      assert calls == [calls[0]] + rest;
      forall tx ensures tx in applied <==> tx in l.applied || IsMade(tx, calls) {
        MadeConcat([calls[0]], rest, tx);
        assert [calls[0]][0] == calls[0];
      }
      forall k | 0 <= k < |calls| ensures applied[calls[k].tx] == W.CreditMark(calls[k].amount) {
        assert k > 0 ==> calls[k] == rest[k - 1];
      }
    }
  }

  lemma RestIsFresh(l: Ledger, calls: seq<WalletCall>)
    requires FreshCredits(l, calls) && calls != []
    ensures W.Moves(l, calls[0]) && FreshCredits(W.Step(l, calls[0]).0, calls[1..])
  {
    forall i | 0 <= i < |calls| - 1
      ensures var next := W.Step(l, calls[0]).0;
        calls[1..][i].CreditCall? && calls[1..][i].player in next.balances && calls[1..][i].tx !in next.applied
    {
      assert calls[1..][i] == calls[i + 1];
    }
  }

  /** Distinct bets of known players, none of them paid before. */
  ghost predicate Unpaid(l: Ledger, seats: seq<SessionState>, bets: seq<RoundBet>)
    requires AllWait(seats)
  {
    && (forall i | 0 <= i < |seats| :: seats[i].player in l.balances && CreditTx(seats[i].bet.value.id) !in l.applied)
    && (forall i | 0 <= i < |bets| :: bets[i].player in l.balances && CreditTx(bets[i].id) !in l.applied)
    && (forall i, j | 0 <= i < j < |seats| :: seats[i].bet.value.id != seats[j].bet.value.id)
    && (forall i, j | 0 <= i < j < |bets| :: bets[i].id != bets[j].id)
    && (forall i, j | 0 <= i < |seats| && 0 <= j < |bets| :: seats[i].bet.value.id != bets[j].id)
  }

  lemma CreditsAreFresh(l: Ledger, seats: seq<SessionState>, bets: seq<RoundBet>, winner: int, prize: Uint64)
    requires Payable(bets) && AllWait(seats) && Unpaid(l, seats, bets)
    ensures FreshCredits(l, Credits(seats, bets, winner, prize))
  {
    var at := RoundCreditsAreWins(bets, winner);
    var calls := Credits(seats, bets, winner, prize);
    var n := |SeatCredits(seats, winner, prize)|;
    assert forall k | n <= k < |calls| :: calls[k] == RoundCredits(bets, winner)[k - n];
  }

  /** Which bets the credits of a round are for: the seat that won, and the round bets on its marble. */
  lemma CreditedIff(seats: seq<SessionState>, bets: seq<RoundBet>, winner: int, prize: Uint64, tx: TxId)
    requires Payable(bets) && AllWait(seats)
    ensures IsMade(tx, Credits(seats, bets, winner, prize))
      <==> || (0 <= winner < |seats| && tx == CreditTx(seats[winner].bet.value.id))
           || (exists i :: 0 <= i < |bets| && bets[i].marble == winner && tx == CreditTx(bets[i].id))
  {
    MadeConcat(SeatCredits(seats, winner, prize), RoundCredits(bets, winner), tx);
    if 0 <= winner < |seats| {
      assert SeatCredits(seats, winner, prize)[0].tx == CreditTx(seats[winner].bet.value.id);
    }
    RoundCreditedIff(bets, winner, tx);
  }

  lemma RoundCreditedIff(bets: seq<RoundBet>, winner: int, tx: TxId)
    requires Payable(bets)
    ensures IsMade(tx, RoundCredits(bets, winner))
      <==> exists i :: 0 <= i < |bets| && bets[i].marble == winner && tx == CreditTx(bets[i].id)
  {
    var at := RoundCreditsAreWins(bets, winner);
    var calls := RoundCredits(bets, winner);
    if k :| 0 <= k < |calls| && calls[k].tx == tx {
      assert bets[at[k]].marble == winner && tx == CreditTx(bets[at[k]].id);
    }
    if i :| 0 <= i < |bets| && bets[i].marble == winner && tx == CreditTx(bets[i].id) {
      var k :| 0 <= k < |at| && at[k] == i;
      assert calls[k].tx == tx;
    }
  }

  lemma RoundCreditOf(seats: seq<SessionState>, bets: seq<RoundBet>, winner: int, prize: Uint64, i: nat)
    returns (k: nat)
    requires Payable(bets) && AllWait(seats) && i < |bets| && bets[i].marble == winner
    ensures var calls := Credits(seats, bets, winner, prize);
      k < |calls| && calls[k] == W.CreditCall(bets[i].player, PayoutUnits(bets[i].amount), CreditTx(bets[i].id))
  {
    var at := RoundCreditsAreWins(bets, winner);
    var j :| 0 <= j < |at| && at[j] == i;
    k := |SeatCredits(seats, winner, prize)| + j;
    assert Credits(seats, bets, winner, prize)[k] == RoundCredits(bets, winner)[j];
  }

  lemma RoundBetLogged(l: Ledger, seats: seq<SessionState>, bets: seq<RoundBet>, winner: int, prize: Uint64, i: nat)
    requires Payable(bets) && AllWait(seats) && Unpaid(l, seats, bets) && i < |bets|
    ensures var applied := W.Run(l, Credits(seats, bets, winner, prize)).applied;
      && (CreditTx(bets[i].id) in applied <==> bets[i].marble == winner)
      && (bets[i].marble == winner ==> applied[CreditTx(bets[i].id)] == W.CreditMark(PayoutUnits(bets[i].amount)))
  {
    CreditsAreFresh(l, seats, bets, winner, prize);
    FreshCreditsLogged(l, Credits(seats, bets, winner, prize));
    CreditedIff(seats, bets, winner, prize, CreditTx(bets[i].id));
    if bets[i].marble == winner {
      var k := RoundCreditOf(seats, bets, winner, prize, i);
    }
  }

  lemma SeatBetLogged(l: Ledger, seats: seq<SessionState>, bets: seq<RoundBet>, winner: int, prize: Uint64, i: nat)
    requires Payable(bets) && AllWait(seats) && Unpaid(l, seats, bets) && i < |seats|
    ensures var applied := W.Run(l, Credits(seats, bets, winner, prize)).applied;
      && (CreditTx(seats[i].bet.value.id) in applied <==> i == winner)
      && (i == winner ==> applied[CreditTx(seats[i].bet.value.id)] == W.CreditMark(prize))
  {
    var calls := Credits(seats, bets, winner, prize);
    CreditsAreFresh(l, seats, bets, winner, prize);
    FreshCreditsLogged(l, calls);
    CreditedIff(seats, bets, winner, prize, CreditTx(seats[i].bet.value.id));
    assert i == winner ==> calls[0] == W.CreditCall(seats[i].player, prize, CreditTx(seats[i].bet.value.id));
  }

  /**
   The log holds the credit of a bet exactly if the report says that it won, and then with the prize or the units
   reported.
   */
  lemma WinsAreCredited(r: Result<Report, RunError>, spec: Option<RoundSpec>, cfg: Config, sha: Hash, w: World,
                        list: seq<Session>, seats: seq<SessionState>, bets: seq<RoundBet>,
                        before: Ledger, after: Ledger)
    requires |list| == |seats| && AllWait(seats) && Payable(bets) && Unpaid(before, seats, bets)
    requires RunEnds(r, spec, cfg, sha, w, list, seats, bets, before, after) && r.Ok?
    ensures |r.value.rounds| == |bets| && |r.value.seats| == |seats|
    ensures forall i | 0 <= i < |bets| :: var o := r.value.rounds[i];
      && (CreditTx(bets[i].id) in after.applied <==> o.won)
      && (o.won ==> 0 <= o.units < TWO_64 && after.applied[CreditTx(bets[i].id)] == W.CreditMark(o.units))
    ensures forall i | 0 <= i < |seats| :: var o := r.value.seats[i];
      && (CreditTx(seats[i].bet.value.id) in after.applied <==> o.won)
      && (o.won ==> after.applied[CreditTx(seats[i].bet.value.id)] == W.CreditMark(o.prize))
  {
    var winner, prize := w.race.sim.value, Prize(cfg);
    RoundBetsAreReported(r, spec, cfg, sha, w, list, seats, bets, before, after);
    SeatsAreReported(r, spec, cfg, sha, w, list, seats, bets, before, after);
    forall i | 0 <= i < |bets|
      ensures var applied := W.Run(before, Credits(seats, bets, winner, prize)).applied;
        && (CreditTx(bets[i].id) in applied <==> bets[i].marble == winner)
        && (bets[i].marble == winner ==> applied[CreditTx(bets[i].id)] == W.CreditMark(PayoutUnits(bets[i].amount)))
    {
      RoundBetLogged(before, seats, bets, winner, prize, i);
    }
    forall i | 0 <= i < |seats|
      ensures var applied := W.Run(before, Credits(seats, bets, winner, prize)).applied;
        && (CreditTx(seats[i].bet.value.id) in applied <==> i == winner)
        && (i == winner ==> applied[CreditTx(seats[i].bet.value.id)] == W.CreditMark(prize))
    {
      SeatBetLogged(before, seats, bets, winner, prize, i);
    }
  }

  // ---------------------------------------------------------------------------
  // Balances
  // ---------------------------------------------------------------------------

  /** What is reported for player p: prizes of seats and units of round bets. */
  function SeatPay(outcomes: seq<Outcome>, p: string): int {
    if outcomes == [] then 0
    else
      var last := outcomes[|outcomes| - 1];
      SeatPay(outcomes[..|outcomes| - 1], p) + if last.player == p then last.prize else 0
  }

  function RoundPay(outcomes: seq<RoundOutcome>, p: string): int {
    if outcomes == [] then 0
    else
      var last := outcomes[|outcomes| - 1];
      RoundPay(outcomes[..|outcomes| - 1], p) + if last.bet.player == p then last.units else 0
  }

  /** The amounts that calls credit to p. */
  function Credited(calls: seq<WalletCall>, p: string): int {
    if calls == [] then 0
    else
      var last := calls[|calls| - 1];
      Credited(calls[..|calls| - 1], p) + if last.player == p then last.amount else 0
  }

  lemma {:induction false} CreditedConcat(a: seq<WalletCall>, b: seq<WalletCall>, p: string)
    ensures Credited(a + b, p) == Credited(a, p) + Credited(b, p)
    decreases |b|
  {
    if b == [] {
      assert a + b == a;
    } else {
      assert (a + b)[..|a + b| - 1] == a + b[..|b| - 1];
      CreditedConcat(a, b[..|b| - 1], p);
    }
  }

  lemma {:induction false} FreshNet(l: Ledger, calls: seq<WalletCall>, p: string)
    requires FreshCredits(l, calls)
    ensures W.Net(l, calls, p) == Credited(calls, p)
    decreases |calls|
  {
    if calls != [] {
      RestIsFresh(l, calls);
      FreshNet(W.Step(l, calls[0]).0, calls[1..], p);
      CreditedConcat([calls[0]], calls[1..], p);
      assert calls == [calls[0]] + calls[1..] && [calls[0]][..0] == [];
      assert Credited([calls[0]][..0], p) == 0;
    }
  }

  lemma {:induction false} RoundPayIsCredited(bets: seq<RoundBet>, winner: int, outcomes: seq<RoundOutcome>, p: string)
    requires Payable(bets) && |outcomes| == |bets|
    requires forall i | 0 <= i < |bets| :: outcomes[i] == RoundVerdict(bets[i], winner)
    ensures Credited(RoundCredits(bets, winner), p) == RoundPay(outcomes, p)
  {
    if bets != [] {
      var n := |bets| - 1;
      var front := RoundCredits(bets[..n], winner);
      RoundPayIsCredited(bets[..n], winner, outcomes[..n], p);
      assert outcomes[n] == RoundVerdict(bets[n], winner);
      if bets[n].marble == winner {
        var c := W.CreditCall(bets[n].player, PayoutUnits(bets[n].amount), CreditTx(bets[n].id));
        assert RoundCredits(bets, winner) == front + [c];
        assert (front + [c])[..|front|] == front;
      } else {
        assert RoundCredits(bets, winner) == front + [] == front;
      }
    }
  }

  lemma {:induction false} SeatPayIsPrize(seats: seq<SessionState>, winner: int, prize: Uint64, outcomes: seq<Outcome>,
                                          p: string)
    requires AllWait(seats) && |outcomes| == |seats|
    requires forall i | 0 <= i < |seats| :: outcomes[i] == SeatOutcome(seats[i], i, winner, prize)
    ensures SeatPay(outcomes, p) == if 0 <= winner < |seats| && seats[winner].bet.value.player == p then prize else 0
  {
    if seats != [] {
      var n := |seats| - 1;
      SeatPayIsPrize(seats[..n], winner, prize, outcomes[..n], p);
    }
  }

  /** What the credits of a report add to the balance of p. */
  lemma PayAsReported(rep: Report, seats: seq<SessionState>, bets: seq<RoundBet>, winner: int, prize: Uint64,
                      l: Ledger, p: string)
    requires AllWait(seats) && Payable(bets) && Unpaid(l, seats, bets) && Reported(rep, seats, bets, winner, prize)
    requires forall i | 0 <= i < |seats| :: seats[i].bet.value.player == seats[i].player
    requires p in l.balances
    ensures var after := W.Run(l, Credits(seats, bets, winner, prize));
      && p in after.balances
      && after.balances[p] == (l.balances[p] + (SeatPay(rep.seats, p) + RoundPay(rep.rounds, p))) % TWO_64
  {
    var calls := Credits(seats, bets, winner, prize);
    CreditsAreFresh(l, seats, bets, winner, prize);
    W.BalanceIsNet(l, calls, p);
    FreshNet(l, calls, p);
    CreditedConcat(SeatCredits(seats, winner, prize), RoundCredits(bets, winner), p);
    RoundPayIsCredited(bets, winner, rep.rounds, p);
    SeatPayIsPrize(seats, winner, prize, rep.seats, p);
    SeatCredited(seats, winner, prize, p);
  }

  /**
   Every player's balance has grown by what the report says that player has won, modulo 2^64: the report is complete,
   and nobody else has been paid.
   */
  lemma PlayersGetWhatIsReported(r: Result<Report, RunError>, spec: Option<RoundSpec>, cfg: Config, sha: Hash,
                                 w: World, list: seq<Session>, seats: seq<SessionState>, bets: seq<RoundBet>,
                                 before: Ledger, after: Ledger, p: string)
    requires |list| == |seats| && AllWait(seats) && Payable(bets) && Unpaid(before, seats, bets)
    requires forall i | 0 <= i < |seats| :: seats[i].bet.value.player == seats[i].player
    requires RunEnds(r, spec, cfg, sha, w, list, seats, bets, before, after) && r.Ok? && p in before.balances
    ensures var reported := SeatPay(r.value.seats, p) + RoundPay(r.value.rounds, p);
      p in after.balances && after.balances[p] == (before.balances[p] + reported) % TWO_64
  {
    PayAsReported(r.value, seats, bets, w.race.sim.value, Prize(cfg), before, p);
  }

  lemma SeatCredited(seats: seq<SessionState>, winner: int, prize: Uint64, p: string)
    requires AllWait(seats)
    ensures Credited(SeatCredits(seats, winner, prize), p) ==
      if 0 <= winner < |seats| && seats[winner].player == p then prize else 0
  {
    if 0 <= winner < |seats| {
      var calls := SeatCredits(seats, winner, prize);
      assert calls[..0] == [] && Credited(calls[..0], p) == 0;
    }
  }
}
