/** A concrete run of the settlement machine: the promise that every debited bet is settled or refunded fails. */
module SettlementExamples {
  import opened Common
  import opened Sums
  import opened Sessions
  import opened Rounds
  import opened ManagerState
  import opened Settlement
  import opened SettlementSafety
  import W = Wallet

  lemma {:induction false} PathGrows(s: State, path: seq<Action>, a: Action)
    requires IsPath(s, path) && After(s, path).sh.WellFormed()
    requires Enabled(After(s, path), a) && Next(After(s, path), a).sh.WellFormed()
    ensures IsPath(s, path + [a]) && After(s, path + [a]) == Next(After(s, path), a)
    decreases |path|
  {
    if path == [] {
      assert [] + [a] == [a] && [a][1..] == [];
    } else {
      assert (path + [a])[1..] == path[1..] + [a];
      PathGrows(Next(s, path[0]), path[1..], a);
    }
  }

  /** Whatever a reachable state enables leads to a reachable state. */
  lemma ReachesNext(s: State, a: Action)
    requires Reachable(s) && s.sh.WellFormed() && Enabled(s, a) && Next(s, a).sh.WellFormed()
    ensures Reachable(Next(s, a))
  {
    var s0, path :| Initial(s0) && IsPath(s0, path) && After(s0, path) == s;
    PathGrows(s0, path, a);
  }

  const CFG := Config(1, 5, 9500)

  const SPEC := RoundSpec(9, "", 0)

  /** A server with one marble, whose only player, "p", holds ten units. */
  function Start(): State {
    State(CFG, Shared(map[], [], map[], [], map[]), W.Ledger(map["p" := 10], map[]), map[], map[], map[], map[],
          {}, {}, 0, 10)
  }

  lemma StartIsReachable()
    ensures Reachable(Start())
  {
    SumUpdate<string>(map[], "p", 10);
    assert map[]["p" := 10] == map["p" := 10];
    assert IsPath(Start(), []) && After(Start(), []) == Start();
  }

  /** A session of "p" with bet b of five units. */
  function Betting(b: nat): SessionState {
    SessionState("p", Sessions.Phase.Bet, Some(SessionBet(b, 5, "p", -1)), None)
  }

  /** The bets so far, each of five units. */
  function BetAt(st: Stage): BetRec { BetRec("p", 5, st) }

  // Two sessions open, bet and queue.

  function Opened1(): State {
    var s := Start();
    s.(sh := s.sh.(sessions := map[0 := Opened("p")]))
  }

  function Opened2(): State {
    var s := Opened1();
    s.(sh := s.sh.(sessions := map[0 := Opened("p"), 1 := Opened("p")]))
  }

  function Debited1(): State {
    var s := Opened2();
    s.(wallet := W.Ledger(map["p" := 5], map[BetTx(1) := W.DebitMark(5)]), bets := map[1 := BetAt(SessionDebited(0))])
  }

  function Debited2(): State {
    var s := Debited1();
    s.(wallet := W.Ledger(map["p" := 0], map[BetTx(1) := W.DebitMark(5), BetTx(2) := W.DebitMark(5)]),
       bets := map[1 := BetAt(SessionDebited(0)), 2 := BetAt(SessionDebited(1))])
  }

  function Asked1(): State {
    var s := Debited2();
    s.(sh := s.sh.(sessions := map[0 := Betting(1), 1 := Opened("p")]),
       bets := map[1 := BetAt(Seated(0)), 2 := BetAt(SessionDebited(1))])
  }

  function Asked2(): State {
    var s := Asked1();
    s.(sh := s.sh.(sessions := map[0 := Betting(1), 1 := Betting(2)]),
       bets := map[1 := BetAt(Seated(0)), 2 := BetAt(Seated(1))])
  }

  function Waiting1(): State {
    var s := Asked2();
    s.(sh := s.sh.(queue := [0]), bets := map[1 := BetAt(Queued(0)), 2 := BetAt(Seated(1))])
  }

  function Waiting2(): State {
    var s := Waiting1();
    s.(sh := s.sh.(queue := [0, 1]), bets := map[1 := BetAt(Queued(0)), 2 := BetAt(Queued(1))])
  }

  // A round takes both, finds no specification waiting, makes one, and has a single seat.

  function TakenOver(): State {
    var s := Waiting2();
    s.(sh := s.sh.(queue := []), runs := map[7 := Run([0, 1], None, Taken)],
       bets := map[1 := BetAt(Running(0, 7)), 2 := BetAt(Running(1, 7))])
  }

  function Registered(): State {
    var s := TakenOver();
    s.(sh := s.sh.(rounds := map[3 := PendingRound(SPEC, [])], roundBets := map[9 := []]),
       runs := map[7 := Run([0, 1], Some(3), Taken)], runner := map[3 := 7])
  }

  function Lost(): State { Registered().(runs := map[], failed := {7}) }

  lemma ReachesAs(s: State, a: Action, s': State)
    requires Reachable(s) && s.sh.WellFormed() && Enabled(s, a) && Next(s, a) == s' && s'.sh.WellFormed()
    ensures Reachable(s')
  {
    ReachesNext(s, a);
  }

  lemma StepsOpen()
    ensures Enabled(Start(), OpenSession(0, "p")) && Next(Start(), OpenSession(0, "p")) == Opened1()
    ensures Enabled(Opened1(), OpenSession(1, "p")) && Next(Opened1(), OpenSession(1, "p")) == Opened2()
  {
    assert Start().sh.sessions[0 := Opened("p")] == Opened1().sh.sessions;
    assert Opened1().sh.sessions[1 := Opened("p")] == Opened2().sh.sessions;
  }

  lemma StepsDebit()
    ensures Enabled(Opened2(), DebitSession(1, 0, 5)) && Next(Opened2(), DebitSession(1, 0, 5)) == Debited1()
    ensures Enabled(Debited1(), DebitSession(2, 1, 5)) && Next(Debited1(), DebitSession(2, 1, 5)) == Debited2()
  {
    assert Opened2().wallet.balances["p" := 5] == Debited1().wallet.balances;
    assert Debited1().wallet.balances["p" := 0] == Debited2().wallet.balances;
    assert Debited1().wallet.applied[BetTx(2) := W.DebitMark(5)] == Debited2().wallet.applied;
    assert Debited1().bets[2 := BetAt(SessionDebited(1))] == Debited2().bets;
  }

  lemma StepAsk1()
    ensures Enabled(Debited2(), AskSession(1)) && Next(Debited2(), AskSession(1)) == Asked1()
  {
    assert Debited2().sh.sessions[0 := Betting(1)] == Asked1().sh.sessions;
    assert Debited2().bets[1 := BetAt(Seated(0))] == Asked1().bets;
  }

  lemma StepAsk2()
    ensures Enabled(Asked1(), AskSession(2)) && Next(Asked1(), AskSession(2)) == Asked2()
  {
    assert Asked1().sh.sessions[1 := Betting(2)] == Asked2().sh.sessions;
    assert Asked1().bets[2 := BetAt(Seated(1))] == Asked2().bets;
  }

  lemma StepsQueue()
    ensures Enabled(Asked2(), QueueSession(1)) && Next(Asked2(), QueueSession(1)) == Waiting1()
    ensures Enabled(Waiting1(), QueueSession(2)) && Next(Waiting1(), QueueSession(2)) == Waiting2()
  {
    assert Asked2().bets[1 := BetAt(Queued(0))] == Waiting1().bets;
    assert Waiting1().bets[2 := BetAt(Queued(1))] == Waiting2().bets;
  }

  lemma BothLaunched(bets: map<nat, BetRec>)
    requires bets == map[1 := BetAt(Queued(0)), 2 := BetAt(Queued(1))]
    ensures (map b | b in bets :: Launch(bets[b], 7)) == map[1 := BetAt(Running(0, 7)), 2 := BetAt(Running(1, 7))]
  {
  }

  lemma StepTake()
    ensures Enabled(Waiting2(), TakeNext(7)) && Next(Waiting2(), TakeNext(7)) == TakenOver()
  {
    BothLaunched(Waiting2().bets);
    assert Waiting2().runs[7 := Run([0, 1], None, Taken)] == TakenOver().runs;
  }

  lemma StepRegister()
    ensures Enabled(TakenOver(), FreshRound(7, 3, SPEC)) && Next(TakenOver(), FreshRound(7, 3, SPEC)) == Registered()
  {
    assert TakenOver().runs[7 := Run([0, 1], Some(3), Taken)] == Registered().runs;
    assert TakenOver().runner[3 := 7] == Registered().runner;
  }

  lemma StepSeat()
    ensures Enabled(Registered(), SeatField(7)) && Next(Registered(), SeatField(7)) == Lost()
  {
    assert Registered().runs - {7} == map[];
  }

  lemma BettingIsReachable()
    ensures Reachable(Debited2())
  {
    StartIsReachable();
    StepsOpen();
    ReachesAs(Start(), OpenSession(0, "p"), Opened1());
    ReachesAs(Opened1(), OpenSession(1, "p"), Opened2());
    StepsDebit();
    ReachesAs(Opened2(), DebitSession(1, 0, 5), Debited1());
    ReachesAs(Debited1(), DebitSession(2, 1, 5), Debited2());
  }

  lemma WaitingIsReachable()
    ensures Reachable(Waiting2())
  {
    BettingIsReachable();
    StepAsk1();
    ReachesAs(Debited2(), AskSession(1), Asked1());
    StepAsk2();
    ReachesAs(Asked1(), AskSession(2), Asked2());
    StepsQueue();
    ReachesAs(Asked2(), QueueSession(1), Waiting1());
    ReachesAs(Waiting1(), QueueSession(2), Waiting2());
  }

  lemma LostIsReachable()
    ensures Reachable(Lost())
  {
    WaitingIsReachable();
    StepTake();
    ReachesAs(Waiting2(), TakeNext(7), TakenOver());
    StepRegister();
    ReachesAs(TakenOver(), FreshRound(7, 3, SPEC), Registered());
    StepSeat();
    ReachesAs(Registered(), SeatField(7), Lost());
  }

  lemma LostIsQuiescent()
    ensures Quiescent(Lost())
    ensures forall b | b in Lost().bets :: WhereIs(Lost(), Lost().bets[b].stage) == Stranded
  {
    assert Lost().runs == map[] && Lost().sh.queue == [] && Lost().sh.pendingRounds == [];
  }

  /**
   Two sessions bet five units each on a server whose races have one marble; the round takes both, and
   seating the second is refused.  The call is over, nothing is in progress, and neither stake is settled or
   refunded.
   */
  lemma StakeStranded()
    ensures Reachable(Lost()) && Quiescent(Lost())
    ensures forall b | b in Lost().bets :: WhereIs(Lost(), Lost().bets[b].stage) == Stranded
    ensures Lost().bets.Keys == {1, 2} && Lost().sh.sessions == map[0 := Betting(1), 1 := Betting(2)]
    ensures Lost().wallet.balances == map["p" := 0] && Lost().wallet.applied.Keys == {BetTx(1), BetTx(2)}
  {
    LostIsReachable();
    LostIsQuiescent();
  }
}
