/**
 The state that `m.mu` guards in the game server's Manager (server/rgs/manager.go), and what each
 lock-held section does to it.

 Sessions and pending rounds are referred to by address: `S` and `R` stand for the pointers
 *Session and *pendingRound, so that the value model below serves both the object `Manager`
 (addresses are objects) and the settlement machine (addresses are numbers).
 */
module ManagerState {
  import opened Common
  import opened Sessions
  import opened Rounds

  /** A bet on a pre-minted round.  Amounts are exact reals where the source uses float64. */
  datatype RoundBet = RoundBet(id: nat, player: string, roundId: nat, marble: nat, amount: real)

  /** The payout factor of a winning round bet. */
  const PAYOUT_MULTIPLIER: real := 19.0

  /** Wallet units debited for a round bet: hundredths, rounded down. */
  function Units(amount: real): int { (amount * 100.0).Floor }

  /** Wallet units credited when it wins. */
  function PayoutUnits(amount: real): int { (amount * PAYOUT_MULTIPLIER * 100.0).Floor }

  /**
   The dust of a winning round bet: the credit exceeds 19 debits by at most 18 units, and by none
   exactly when the part of the stake below one unit is less than 1/19 of a unit.
   */
  lemma PayoutDust(amount: real)
    requires amount > 0.0
    ensures 19 * Units(amount) <= PayoutUnits(amount) <= 19 * Units(amount) + 18
    ensures PayoutUnits(amount) == 19 * Units(amount)
      <==> (amount * 100.0 - Units(amount) as real) * PAYOUT_MULTIPLIER < 1.0
  {
    var x := amount * 100.0;
    var d := x.Floor;
    assert amount * PAYOUT_MULTIPLIER * 100.0 == 19.0 * x;
    assert d as real <= x < d as real + 1.0;
    assert (19 * d) as real == 19.0 * d as real;
  }

  /** Both ends of the dust range are attained. */
  lemma DustEndsAttained()
    ensures Units(10.0) == 1000 && PayoutUnits(10.0) == 19 * Units(10.0)
    ensures Units(0.0199) == 1 && PayoutUnits(0.0199) == 19 * Units(0.0199) + 18
  {
    assert 0.0199 * 100.0 == 1.99;
    assert 0.0199 * PAYOUT_MULTIPLIER * 100.0 == 37.81;
  }

  datatype PendingRound = PendingRound(spec: RoundSpec, bets: seq<RoundBet>)

  datatype Shared<!S(==), !R(==)> = Shared(
    sessions: map<S, SessionState>,
    queue: seq<S>,
    rounds: map<R, PendingRound>,
    pendingRounds: seq<R>,
    roundBets: map<nat, seq<RoundBet>>) {

    ghost predicate WellFormed() {
      forall r | r in pendingRounds :: r in rounds
    }

    /** findPendingRound: the first queued round with this id. */
    ghost function FindFrom(id: nat, i: nat): Option<R>
      requires WellFormed() && i <= |pendingRounds|
      decreases |pendingRounds| - i
    {
      if i == |pendingRounds| then None
      else if rounds[pendingRounds[i]].spec.roundId == id then Some(pendingRounds[i])
      else FindFrom(id, i + 1)
    }

    ghost function FindPendingRound(id: nat): Option<R>
      requires WellFormed()
    {
      FindFrom(id, 0)
    }

    /** PlaceBet, last section: queue the session. */
    function Enqueue(s: S): Shared<S, R> {
      this.(queue := queue + [s])
    }

    /** RunNextRound, first section: take the whole queue and the oldest pending round. */
    function Take(): (Shared<S, R>, seq<S>, Option<R>) {
      if pendingRounds == [] then (this.(queue := []), queue, None)
      else (this.(queue := [], pendingRounds := pendingRounds[1..]), queue, Some(pendingRounds[0]))
    }

    /** GenerateRoundSpec, last section: a fresh pending round at address `r`. */
    function Mint(r: R, spec: RoundSpec): Shared<S, R> {
      this.(rounds := rounds[r := PendingRound(spec, [])],
            pendingRounds := pendingRounds + [r],
            roundBets := roundBets[spec.roundId := []])
    }

    /** RunNextRound without a pre-minted round: the fresh round is known but never pending. */
    function Register(r: R, spec: RoundSpec): Shared<S, R> {
      this.(rounds := rounds[r := PendingRound(spec, [])],
            roundBets := roundBets[spec.roundId := []])
    }

    /** PlaceBetOnRound, last section: re-validate the round id, then append to the round found earlier. */
    ghost function PlaceOnRound(r: R, bet: RoundBet): (Shared<S, R>, bool)
      requires WellFormed() && r in rounds
    {
      if FindPendingRound(bet.roundId).None? then (this, false)
      else
        var known := if bet.roundId in roundBets then roundBets[bet.roundId] else [];
        (this.(rounds := rounds[r := rounds[r].(bets := rounds[r].bets + [bet])],
               roundBets := roundBets[bet.roundId := known + [bet]]), true)
    }

    lemma {:induction false} FindFromSpec(id: nat, i: nat)
      requires WellFormed() && i <= |pendingRounds|
      ensures FindFrom(id, i).None? <==>
        forall k | i <= k < |pendingRounds| :: rounds[pendingRounds[k]].spec.roundId != id
      ensures FindFrom(id, i).Some? ==>
        exists k :: i <= k < |pendingRounds| && FindFrom(id, i).value == pendingRounds[k]
          && rounds[pendingRounds[k]].spec.roundId == id
          && forall j | i <= j < k :: rounds[pendingRounds[j]].spec.roundId != id
      decreases |pendingRounds| - i
    {
      if i < |pendingRounds| && rounds[pendingRounds[i]].spec.roundId != id {
        FindFromSpec(id, i + 1);
      }
    }
  }
}
