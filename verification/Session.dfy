/**
 One player's session (server/rgs/session.go): OPEN -> BET -> RACING -> SETTLED, and CLOSED.

 `SessionState` is the value a session holds, its functions say what each call does, and the class
 `Session` performs the calls in place.  Time stamps are not modelled.
 */
module Sessions {
  import opened Common

  datatype Phase = Open | Bet | Racing | Settled | Closed

  datatype Error = WrongState | BetExists | NoBet | SessionClosed

  /** A committed bet; `marble` is -1 until the race starts. */
  datatype SessionBet = SessionBet(id: nat, amount: Uint64, player: string, marble: int)

  datatype Outcome = Outcome(betId: nat, player: string, amount: Uint64, won: bool, prize: Uint64, winner: int)

  datatype SessionState = SessionState(player: string, phase: Phase, bet: Option<SessionBet>, last: Option<Outcome>) {

    function PlaceBet(b: SessionBet): (SessionState, Option<Error>) {
      if phase == Closed then (this, Some(SessionClosed))
      else if phase != Open && phase != Settled then (this, Some(WrongState))
      else if bet.Some? then (this, Some(BetExists))
      else (this.(phase := Bet, bet := Some(b.(marble := -1))), None)
    }

    function AssignMarble(index: int): (SessionState, Option<Error>) {
      if phase != Bet then (this, Some(WrongState))
      else if bet.None? then (this, Some(NoBet))
      else (this.(phase := Racing, bet := Some(bet.value.(marble := index))), None)
    }

    function Settle(o: Outcome): (SessionState, Option<Error>) {
      if phase != Racing then (this, Some(WrongState))
      else (this.(phase := Settled, bet := None, last := Some(o)), None)
    }

    function Close(): (SessionState, Option<Error>) {
      if phase == Bet || phase == Racing then (this, Some(WrongState))
      else (this.(phase := Closed), None)
    }

    /** A bet is held exactly while it is waiting or racing. */
    predicate Consistent() {
      bet.Some? <==> phase == Bet || phase == Racing
    }
  }

  function Opened(player: string): SessionState {
    SessionState(player, Open, None, None)
  }

  class Session {
    const player: string
    var phase: Phase
    var bet: Option<SessionBet>
    var last: Option<Outcome>

    ghost function View(): SessionState
      reads this
    {
      SessionState(player, phase, bet, last)
    }

    constructor (player: string)
      ensures View() == Opened(player) && this.player == player && phase == Open && bet == None && last == None
    {
      this.player, phase, bet, last := player, Open, None, None;
    }

    method PlaceBet(b: SessionBet) returns (err: Option<Error>)
      modifies this
      ensures (View(), err) == old(View()).PlaceBet(b)
      ensures err ==
        if old(phase) == Closed then Some(SessionClosed)
        else if old(phase) == Bet || old(phase) == Racing then Some(WrongState)
        else if old(bet).Some? then Some(BetExists) else None
      ensures err.None? ==>
        phase == Bet && bet == Some(SessionBet(b.id, b.amount, b.player, -1)) && last == old(last)
      ensures err.Some? ==> View() == old(View())
    {
      if phase == Closed {
        return Some(SessionClosed);
      }
      if phase != Open && phase != Settled {
        return Some(WrongState);
      }
      if bet.Some? {
        return Some(BetExists);
      }
      bet := Some(b.(marble := -1));
      phase := Bet;
      return None;
    }

    method AssignMarble(index: int) returns (err: Option<Error>)
      modifies this
      ensures (View(), err) == old(View()).AssignMarble(index)
      ensures err == if old(phase) != Bet then Some(WrongState) else if old(bet).None? then Some(NoBet) else None
      ensures err.None? ==>
        phase == Racing && bet == Some(old(bet).value.(marble := index)) && last == old(last)
      ensures err.Some? ==> View() == old(View())
    {
      if phase != Bet {
        return Some(WrongState);
      }
      if bet.None? {
        return Some(NoBet);
      }
      bet := Some(bet.value.(marble := index));
      phase := Racing;
      return None;
    }

    method Settle(outcome: Outcome) returns (err: Option<Error>)
      modifies this
      ensures (View(), err) == old(View()).Settle(outcome)
      ensures err == if old(phase) != Racing then Some(WrongState) else None
      ensures err.None? ==> phase == Settled && bet == None && last == Some(outcome)
      ensures err.Some? ==> View() == old(View())
    {
      if phase != Racing {
        return Some(WrongState);
      }
      last := Some(outcome);
      bet := None;
      phase := Settled;
      return None;
    }

    method Close() returns (err: Option<Error>)
      modifies this
      ensures (View(), err) == old(View()).Close()
      ensures err == if old(phase) == Bet || old(phase) == Racing then Some(WrongState) else None
      ensures err.None? ==> phase == Closed && bet == old(bet) && last == old(last)
      ensures err.Some? ==> View() == old(View())
    {
      if phase == Bet || phase == Racing {
        return Some(WrongState);
      }
      phase := Closed;
      return None;
    }
  }

  // ---------------------------------------------------------------------------
  // Histories of calls
  // ---------------------------------------------------------------------------

  datatype Call = PlaceCall(b: SessionBet) | AssignCall(index: int) | SettleCall(o: Outcome) | CloseCall

  function Step(s: SessionState, c: Call): (SessionState, Option<Error>) {
    match c
    case PlaceCall(b) => s.PlaceBet(b)
    case AssignCall(i) => s.AssignMarble(i)
    case SettleCall(o) => s.Settle(o)
    case CloseCall => s.Close()
  }

  function Run(s: SessionState, calls: seq<Call>): SessionState {
    if calls == [] then s else Step(Run(s, calls[..|calls| - 1]), calls[|calls| - 1]).0
  }

  /** The id of a bet this call takes on, if it succeeds in doing so. */
  function TakenOn(s: SessionState, c: Call): seq<nat> {
    if c.PlaceCall? && Step(s, c).1.None? then [c.b.id] else []
  }

  /** The id of the bet this call releases, if it succeeds in doing so. */
  function Released(s: SessionState, c: Call): seq<nat> {
    if c.SettleCall? && Step(s, c).1.None? && s.bet.Some? then [s.bet.value.id] else []
  }

  /** The ids of all bets accepted by a history, in order. */
  function Accepted(s: SessionState, calls: seq<Call>): seq<nat> {
    if calls == [] then []
    else var before := calls[..|calls| - 1]; Accepted(s, before) + TakenOn(Run(s, before), calls[|calls| - 1])
  }

  /** The ids of all bets settled by a history, in order. */
  function SettledBets(s: SessionState, calls: seq<Call>): seq<nat> {
    if calls == [] then []
    else var before := calls[..|calls| - 1]; SettledBets(s, before) + Released(Run(s, before), calls[|calls| - 1])
  }

  /** The bet currently held. */
  function Held(s: SessionState): seq<nat> {
    if s.bet.Some? then [s.bet.value.id] else []
  }

  /**
   Every accepted bet is settled at most once and in the order of acceptance: over any history of a
   fresh session, the accepted bets are the settled ones followed by the one still held, if any.
   The ErrBetExists and ErrNoBet returns are never taken.
   */
  lemma {:induction false} AcceptedIsSettledThenHeld(player: string, calls: seq<Call>)
    ensures var s := Run(Opened(player), calls);
      && s.Consistent() && s.player == player
      && Accepted(Opened(player), calls) == SettledBets(Opened(player), calls) + Held(s)
      && forall c: Call :: Step(s, c).1 != Some(BetExists) && Step(s, c).1 != Some(NoBet)
  {
    if calls != [] {
      AcceptedIsSettledThenHeld(player, calls[..|calls| - 1]);
    }
  }

  /** Closing succeeds exactly when no bet is held, and nothing changes a closed session afterwards. */
  lemma {:induction false} ClosedIsFinal(s: SessionState, calls: seq<Call>)
    requires s.Consistent()
    ensures s.Close().1.None? <==> s.bet.None?
    ensures s.Close().1.None? ==> Run(s.Close().0, calls) == s.Close().0
  {
    if calls != [] {
      ClosedIsFinal(s, calls[..|calls| - 1]);
    }
  }
}
