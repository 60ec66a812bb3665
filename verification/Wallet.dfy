/**
 The in-memory wallet of the game server (server/rgs/wallet.go).

 `Ledger` is the value a wallet holds; `Debit` and `Credit` say what one call does to it;
 `MockWallet` is the object whose methods update the two maps in place.  Amounts are uint64:
 a credit wraps modulo 2^64 and the transaction log stores amounts as int64, as the source does.
 */
module Wallet {
  import opened Common
  import opened Sums

  datatype Outcome = Applied | UnknownPlayer | InsufficientFunds | TxReused

  /** Go's conversion of a uint64 (or a negated int64) to int64: two's complement wrap-around. */
  function Int64(n: int): (r: int)
    ensures -TWO_63 <= r < TWO_63
  {
    var m := n % TWO_64;
    if m < TWO_63 then m else m - TWO_64
  }

  /** What the log records for a credit and for a debit of `amount`. */
  function CreditMark(amount: Uint64): int { Int64(amount) }

  function DebitMark(amount: Uint64): int { Int64(-Int64(amount)) }

  datatype Ledger<!P(==), !T(==)> = Ledger(balances: map<P, Uint64>, applied: map<T, int>) {

    function Debit(p: P, amount: Uint64, tx: T): (Ledger<P, T>, Outcome) {
      if p !in balances then (this, UnknownPlayer)
      else if tx in applied then (this, if applied[tx] != DebitMark(amount) then TxReused else Applied)
      else if balances[p] < amount then (this, InsufficientFunds)
      else (Ledger(balances[p := balances[p] - amount], applied[tx := DebitMark(amount)]), Applied)
    }

    function Credit(p: P, amount: Uint64, tx: T): (Ledger<P, T>, Outcome) {
      if p !in balances then (this, UnknownPlayer)
      else if tx in applied then (this, if applied[tx] != CreditMark(amount) then TxReused else Applied)
      else (Ledger(balances[p := (balances[p] + amount) % TWO_64], applied[tx := CreditMark(amount)]), Applied)
    }

    /** All the money players hold. */
    ghost function Money(): int { Sum(balances) }

    /** The net movement the transaction log records. */
    ghost function Logged(): int { Sum(applied) }

    /** Would crediting `amount` to `p` overflow the balance? */
    predicate Overflows(p: P, amount: Uint64)
      requires p in balances
    {
      balances[p] + amount >= TWO_64
    }
  }

  /** The wallet object: two maps that Debit and Credit update in place. */
  class MockWallet<P(==), T(==)> {
    var balances: map<P, Uint64>
    var applied: map<T, int>

    ghost function View(): Ledger<P, T>
      reads this
    {
      Ledger(balances, applied)
    }

    constructor ()
      ensures View() == Ledger(map[], map[])
    {
      balances := map[];
      applied := map[];
    }

    method Debit(p: P, amount: Uint64, tx: T) returns (out: Outcome)
      modifies this
      ensures (View(), out) == old(View()).Debit(p, amount, tx)
    {
      if p !in balances {
        return UnknownPlayer;
      }
      if tx in applied {
        if applied[tx] != Int64(-Int64(amount)) {
          return TxReused;
        }
        return Applied;
      }
      if balances[p] < amount {
        return InsufficientFunds;
      }
      balances := balances[p := balances[p] - amount];
      applied := applied[tx := Int64(-Int64(amount))];
      return Applied;
    }

    method Credit(p: P, amount: Uint64, tx: T) returns (out: Outcome)
      modifies this
      ensures (View(), out) == old(View()).Credit(p, amount, tx)
    {
      if p !in balances {
        return UnknownPlayer;
      }
      if tx in applied {
        if applied[tx] != Int64(amount) {
          return TxReused;
        }
        return Applied;
      }
      balances := balances[p := (balances[p] + amount) % TWO_64];
      applied := applied[tx := Int64(amount)];
      return Applied;
    }

    method Balance(p: P) returns (r: Option<Uint64>)
      ensures r == if p in balances then Some(balances[p]) else None
    {
      if p in balances {
        return Some(balances[p]);
      }
      return None;
    }
  }

  // ---------------------------------------------------------------------------
  // Histories of calls
  // ---------------------------------------------------------------------------

  datatype Call<P, T> =
    | DebitCall(player: P, amount: Uint64, tx: T)
    | CreditCall(player: P, amount: Uint64, tx: T)

  function Step<P(==), T(==)>(l: Ledger<P, T>, c: Call<P, T>): (Ledger<P, T>, Outcome) {
    match c
    case DebitCall(p, a, tx) => l.Debit(p, a, tx)
    case CreditCall(p, a, tx) => l.Credit(p, a, tx)
  }

  function Run<P(==), T(==)>(l: Ledger<P, T>, calls: seq<Call<P, T>>): Ledger<P, T>
    decreases |calls|
  {
    if calls == [] then l else Run(Step(l, calls[0]).0, calls[1..])
  }

  /** Does this call move money, rather than fail or replay a logged transaction? */
  predicate Moves<P(==), T(==)>(l: Ledger<P, T>, c: Call<P, T>) {
    c.player in l.balances && c.tx !in l.applied && (c.CreditCall? || c.amount <= l.balances[c.player])
  }

  /** The guard under which the log entry of a moving call equals the change of the balance. */
  predicate Faithful<P(==), T(==)>(l: Ledger<P, T>, c: Call<P, T>)
    requires Moves(l, c)
  {
    if c.DebitCall? then c.amount <= TWO_63
    else (c.amount < TWO_63) == !l.Overflows(c.player, c.amount)
  }

  /** The change of the player's balance when the call moves money; an overflowing credit wraps. */
  function Movement<P(==), T(==)>(l: Ledger<P, T>, c: Call<P, T>): int
    requires Moves(l, c)
  {
    if c.DebitCall? then 0 - c.amount
    else if l.Overflows(c.player, c.amount) then c.amount - TWO_64
    else c.amount
  }

  /** One call: what it does to the money held and to the log, in full. */
  lemma StepAccounts<P, T>(l: Ledger<P, T>, c: Call<P, T>)
    ensures var (l', out) := Step(l, c);
      && (!Moves(l, c) ==> l' == l)
      && (Moves(l, c) ==>
        && out == Applied
        && l'.applied.Keys == l.applied.Keys + {c.tx}
        && l'.Logged() == l.Logged() + (if c.DebitCall? then DebitMark(c.amount) else CreditMark(c.amount))
        && l'.Money() == l.Money() + Movement(l, c))
  {
    if Moves(l, c) {
      var l' := Step(l, c).0;
      SumUpdate<P>(l.balances, c.player, l'.balances[c.player]);
      SumUpdate(l.applied, c.tx, l'.applied[c.tx]);
    }
  }

  /** One wrap-around at most: int64 of any value a uint64 or a negated int64 can have. */
  lemma Int64Once(n: int)
    requires -TWO_63 <= n < TWO_64
    ensures Int64(n) == if n < TWO_63 then n else n - TWO_64
  {
    assert n < 0 ==> n % TWO_64 == n + TWO_64;
  }

  /** What a debit answers, and what an applied one does: the mark is -amount, up to 2^63. */
  lemma DebitOutcome<P, T>(l: Ledger<P, T>, p: P, amount: Uint64, tx: T)
    ensures var (l', out) := l.Debit(p, amount, tx);
      var mark := if amount <= 0x8000_0000_0000_0000 then 0 - amount else 0x1_0000_0000_0000_0000 - amount;
      && (out == UnknownPlayer <==> p !in l.balances)
      && (out == TxReused <==> p in l.balances && tx in l.applied && l.applied[tx] != mark)
      && (out == InsufficientFunds <==> p in l.balances && tx !in l.applied && l.balances[p] < amount)
      && (out == Applied && tx !in l.applied ==>
            l'.balances == l.balances[p := l.balances[p] - amount] && l'.applied == l.applied[tx := mark])
      && (out != Applied || tx in l.applied ==> l' == l)
  {
    Int64Once(amount);
    Int64Once(-Int64(amount));
  }

  /** The same for a credit: the mark is the amount, below 2^63; a sum of 2^64 or more wraps. */
  lemma CreditOutcome<P, T>(l: Ledger<P, T>, p: P, amount: Uint64, tx: T)
    ensures var (l', out) := l.Credit(p, amount, tx);
      var mark := if amount < 0x8000_0000_0000_0000 then amount else amount - 0x1_0000_0000_0000_0000;
      && (out == UnknownPlayer <==> p !in l.balances)
      && (out == TxReused <==> p in l.balances && tx in l.applied && l.applied[tx] != mark)
      && out != InsufficientFunds
      && (out == Applied && tx !in l.applied ==>
            && l'.applied == l.applied[tx := mark] && l'.balances.Keys == l.balances.Keys
            && (forall q | q in l.balances && q != p :: l'.balances[q] == l.balances[q])
            && l'.balances[p] == l.balances[p] + amount
                 - if l.balances[p] + amount < 0x1_0000_0000_0000_0000 then 0 else 0x1_0000_0000_0000_0000)
      && (out != Applied || tx in l.applied ==> l' == l)
  {
    Int64Once(amount);
  }

  /** How far the log entry of a moving call is from the change of the balance: a whole number of wraps. */
  lemma MarkError<P, T>(l: Ledger<P, T>, c: Call<P, T>)
    requires Moves(l, c)
    ensures var e := Movement(l, c) - (if c.DebitCall? then DebitMark(c.amount) else CreditMark(c.amount));
      (e == 0 || e == TWO_64 || e == -TWO_64) && (e == 0 <==> Faithful(l, c))
  {
    Int64Once(c.amount);
    Int64Once(-Int64(c.amount));
  }

  /** A call keeps `Money - Logged` if and only if it does not move money or its guard holds. */
  lemma StepExactIff<P, T>(l: Ledger<P, T>, c: Call<P, T>)
    ensures var l' := Step(l, c).0;
      && (l'.Money() - l'.Logged() == l.Money() - l.Logged() <==> (Moves(l, c) ==> Faithful(l, c)))
      && (l'.Money() - l'.Logged() - (l.Money() - l.Logged())) % TWO_64 == 0
  {
    StepAccounts(l, c);
    if Moves(l, c) {
      MarkError(l, c);
    }
  }

  lemma MultiplesAdd(a: int, b: int)
    requires a % TWO_64 == 0 && b % TWO_64 == 0
    ensures (a + b) % TWO_64 == 0
  {
  }

  /** Whatever is called, replayed or refused, money held and money logged agree modulo 2^64. */
  lemma {:induction false} LedgerBalanced<P, T>(l: Ledger<P, T>, calls: seq<Call<P, T>>)
    ensures var l' := Run(l, calls);
      (l'.Money() - l'.Logged() - (l.Money() - l.Logged())) % TWO_64 == 0
    decreases |calls|
  {
    if calls != [] {
      var m := Step(l, calls[0]).0;
      StepExactIff(l, calls[0]);
      LedgerBalanced(m, calls[1..]);
      var l' := Run(m, calls[1..]);
      MultiplesAdd(l'.Money() - l'.Logged() - (m.Money() - m.Logged()),
          m.Money() - m.Logged() - (l.Money() - l.Logged()));
    }
  }

  /** Every call of a history runs under the guard. */
  predicate AllFaithful<P(==), T(==)>(l: Ledger<P, T>, calls: seq<Call<P, T>>)
    decreases |calls|
  {
    calls == [] ||
    ((Moves(l, calls[0]) ==> Faithful(l, calls[0])) && AllFaithful(Step(l, calls[0]).0, calls[1..]))
  }

  /** Under the guard the books balance exactly: the balances are what the log says they are. */
  lemma {:induction false} LedgerExact<P, T>(l: Ledger<P, T>, calls: seq<Call<P, T>>)
    requires AllFaithful(l, calls)
    ensures var l' := Run(l, calls);
      l'.Money() == l.Money() + l'.Logged() - l.Logged()
    decreases |calls|
  {
    if calls != [] {
      StepExactIff(l, calls[0]);
      LedgerExact(Step(l, calls[0]).0, calls[1..]);
    }
  }

  /** Players and log entries are never forgotten or rewritten. */
  lemma {:induction false} RunOnlyAdds<P, T>(l: Ledger<P, T>, calls: seq<Call<P, T>>)
    ensures var l' := Run(l, calls);
      && l'.balances.Keys == l.balances.Keys
      && (forall tx | tx in l.applied :: tx in l'.applied && l'.applied[tx] == l.applied[tx])
    decreases |calls|
  {
    if calls != [] {
      var m := Step(l, calls[0]).0;
      assert m.balances.Keys == l.balances.Keys;
      RunOnlyAdds(m, calls[1..]);
    }
  }

  /** What a call moves for player p. */
  function Effect<P(==), T(==)>(l: Ledger<P, T>, c: Call<P, T>, p: P): int {
    if !Moves(l, c) || c.player != p then 0 else if c.DebitCall? then 0 - c.amount else c.amount
  }

  /** What the calls that moved money for player p add up to. */
  function Net<P(==), T(==)>(l: Ledger<P, T>, calls: seq<Call<P, T>>, p: P): int
    decreases |calls|
  {
    if calls == [] then 0 else Effect(l, calls[0], p) + Net(Step(l, calls[0]).0, calls[1..], p)
  }

  lemma WrapAgain(a: int, x: int, y: int)
    ensures ((a + x) % TWO_64 + y) % TWO_64 == (a + (x + y)) % TWO_64
  {
    var q := (a + x) / TWO_64;
    assert a + (x + y) == (a + x) % TWO_64 + y + q * TWO_64;
  }

  lemma StepBalance<P, T>(l: Ledger<P, T>, c: Call<P, T>, p: P)
    requires p in l.balances
    ensures p in Step(l, c).0.balances && Step(l, c).0.balances[p] == (l.balances[p] + Effect(l, c, p)) % TWO_64
  {
  }

  /** A player's balance is the initial one with the player's own calls, each counted once, modulo 2^64. */
  lemma {:induction false} BalanceIsNet<P, T>(l: Ledger<P, T>, calls: seq<Call<P, T>>, p: P)
    requires p in l.balances
    ensures p in Run(l, calls).balances && Run(l, calls).balances[p] == (l.balances[p] + Net(l, calls, p)) % TWO_64
    decreases |calls|
  {
    if calls != [] {
      var m := Step(l, calls[0]).0;
      StepBalance(l, calls[0], p);
      BalanceIsNet(m, calls[1..], p);
      WrapAgain(l.balances[p], Effect(l, calls[0], p), Net(m, calls[1..], p));
    }
  }

  /** Idempotency: once a call has succeeded, repeating it after any history succeeds and moves nothing. */
  lemma ReplayIsNoOp<P, T>(l: Ledger<P, T>, c: Call<P, T>, between: seq<Call<P, T>>)
    requires Step(l, c).1 == Applied
    ensures var later := Run(Step(l, c).0, between);
      Step(later, c) == (later, Applied)
  {
    RunOnlyAdds(Step(l, c).0, between);
  }

  /**
   A txID already spent on a debit shields it from a credit of the same amount exactly when the
   two int64 marks coincide: for 0 and for 2^63.  Every other amount is reported as a reuse.
   */
  lemma CreditOnDebitTx<P, T>(l: Ledger<P, T>, p: P, q: P, amount: Uint64, tx: T)
    requires Moves(l, DebitCall(p, amount, tx)) && q in l.balances
    ensures var l' := l.Debit(p, amount, tx).0;
      && l'.Credit(q, amount, tx).0 == l'
      && (l'.Credit(q, amount, tx).1 == Applied <==> amount == 0 || amount == TWO_63)
      && (l'.Credit(q, amount, tx).1 == TxReused <==> amount != 0 && amount != TWO_63)
  {
    Int64Once(amount);
    Int64Once(-Int64(amount));
  }
}
