/**
 Prize and house cut of one round (server/rtp/rtp.go), and the RTP block of the replay analyzer
 (scripts/analyze_replays.py).
 */
module Rtp {
  import opened Common
  import opened Sums

  const BASIS_POINTS: int := 10_000

  const MAX_UINT64: int := TWO_64 - 1

  datatype Error = RtpOutOfRange | NoBuyIns | WinnerIndex | PotOverflow | PrizeOverflow

  datatype Split = Split(prize: Uint64, houseCut: Uint64)

  /** The first error that applies, stated over true sums and products. */
  function Refusal(bps: nat, buyIns: seq<Uint64>, winner: int): Option<Error> {
    if bps > BASIS_POINTS then Some(RtpOutOfRange)
    else if buyIns == [] then Some(NoBuyIns)
    else if winner < 0 || winner >= |buyIns| then Some(WinnerIndex)
    else if SeqSum(buyIns) > MAX_UINT64 then Some(PotOverflow)
    else if SeqSum(buyIns) * bps > MAX_UINT64 then Some(PrizeOverflow)
    else None
  }

  /** The prize is the largest amount not above the RTP share, and the two parts make up the pot. */
  ghost predicate IsSplit(bps: nat, pot: int, s: Split) {
    && s.prize + s.houseCut == pot
    && s.prize * BASIS_POINTS <= pot * bps < (s.prize + 1) * BASIS_POINTS
  }

  lemma MulMono(a: int, b: int, c: nat)
    requires a <= b
    ensures a * c <= b * c
  {
    assert b * c - a * c == (b - a) * c;
  }

  lemma MulCancel(a: int, b: int, c: int)
    requires c > 0 && a * c < b * c
    ensures a < b
  {
    assert (b - a) * c == b * c - a * c > 0;
  }

  /** The defining bounds leave one quotient. */
  lemma FloorOf(n: int, d: int, q: int)
    requires d > 0 && q * d <= n < (q + 1) * d
    ensures n / d == q
  {
    var r := n / d;
    assert r * d <= n < (r + 1) * d;
    MulCancel(q, r + 1, d);
    MulCancel(r, q + 1, d);
  }

  lemma SplitIsUnique(bps: nat, pot: int, s: Split, t: Split)
    requires IsSplit(bps, pot, s) && IsSplit(bps, pot, t)
    ensures s == t
  {
    FloorOf(pot * bps, BASIS_POINTS, s.prize);
    FloorOf(pot * bps, BASIS_POINTS, t.prize);
  }

  lemma {:induction false} SumOfPrefix(s: seq<Uint64>, i: nat)
    requires i <= |s|
    ensures 0 <= SeqSum(s[..i]) <= SeqSum(s)
    decreases |s|, i
  {
    if i < |s| {
      assert s[..|s| - 1][..i] == s[..i];
      SumOfPrefix(s[..|s| - 1], i);
    } else {
      assert s[..i] == s;
      if i > 0 {
        SumOfPrefix(s[..|s| - 1], |s| - 1);
        assert s[..|s| - 1][..|s| - 1] == s[..|s| - 1];
      }
    }
  }

  /** The guard `total > MaxUint64 / bps` is an exact overflow test for the product. */
  lemma DivisionGuard(total: nat, bps: nat)
    requires bps > 0
    ensures total > MAX_UINT64 / bps <==> total * bps > MAX_UINT64
  {
    var q := MAX_UINT64 / bps;
    assert q * bps <= MAX_UINT64 < (q + 1) * bps;
    if total > q {
      assert total * bps >= (q + 1) * bps;
    } else {
      assert total * bps <= q * bps;
    }
  }

  lemma ShareIsBounded(total: nat, bps: nat)
    requires bps <= BASIS_POINTS
    ensures 0 <= total * bps / BASIS_POINTS <= total
  {
    assert total * bps <= total * BASIS_POINTS;
  }

  /**
   Settle, with the uint64 loop and guards of the source: it fails exactly as `Refusal` says, and
   otherwise returns the one split of the true pot.
   */
  method Settle(bps: nat, buyIns: seq<Uint64>, winner: int) returns (r: Result<Split, Error>)
    ensures r.Err? <==> Refusal(bps, buyIns, winner).Some?
    ensures r.Err? ==> r.error == Refusal(bps, buyIns, winner).value
    ensures r.Ok? ==> IsSplit(bps, SeqSum(buyIns), r.value)
    ensures r == Err(RtpOutOfRange) <==> bps > 10_000
    ensures r == Err(NoBuyIns) <==> bps <= 10_000 && buyIns == []
    ensures r == Err(WinnerIndex) <==> bps <= 10_000 && buyIns != [] && !(0 <= winner < |buyIns|)
    ensures r == Err(PotOverflow) <==>
      bps <= 10_000 && 0 <= winner < |buyIns| && SeqSum(buyIns) >= 0x1_0000_0000_0000_0000
    ensures r == Err(PrizeOverflow) <==>
      && bps <= 10_000 && 0 <= winner < |buyIns| && SeqSum(buyIns) < 0x1_0000_0000_0000_0000
      && SeqSum(buyIns) * bps >= 0x1_0000_0000_0000_0000
    ensures r.Ok? ==>
      && r.value.prize + r.value.houseCut == SeqSum(buyIns)
      && r.value.prize * 10_000 <= SeqSum(buyIns) * bps < (r.value.prize + 1) * 10_000
  {
    if bps > BASIS_POINTS {
      return Err(RtpOutOfRange);
    }
    if |buyIns| == 0 {
      return Err(NoBuyIns);
    }
    if winner < 0 || winner >= |buyIns| {
      return Err(WinnerIndex);
    }
    var total: Uint64 := 0;
    for i := 0 to |buyIns|
      invariant total == SeqSum(buyIns[..i])
    {
      var b := buyIns[i];
      assert buyIns[..i + 1][..i] == buyIns[..i];
      SumOfPrefix(buyIns, i + 1);
      if total > MAX_UINT64 - b {
        return Err(PotOverflow);
      }
      total := total + b;
    }
    assert buyIns[..|buyIns|] == buyIns;
    if bps > 0 {
      DivisionGuard(total, bps);
      if total > MAX_UINT64 / bps {
        return Err(PrizeOverflow);
      }
    }
    ShareIsBounded(total, bps);
    var prize: Uint64 := total * bps / BASIS_POINTS;
    return Ok(Split(prize, total - prize));
  }

  /** The split as a function, for the settlement machine: `Settle` returns this. */
  function Share(bps: nat, pot: Uint64): (s: Split)
    requires bps <= BASIS_POINTS
    ensures IsSplit(bps, pot, s)
  {
    ShareIsBounded(pot, bps);
    Split(pot * bps / BASIS_POINTS, pot - pot * bps / BASIS_POINTS)
  }

  // ---------------------------------------------------------------------------
  // The analyzer's RTP check
  // ---------------------------------------------------------------------------

  /** The effective RTP in basis points that the analyzer prints for `rounds` rounds. */
  function EffectiveBps(marbles: nat, buyIn: nat, rounds: nat, bps: nat): int {
    var perRound := marbles * buyIn;
    var totalStake := marbles * buyIn * rounds;
    var expectedHouse := (perRound - perRound * bps / BASIS_POINTS) * rounds;
    var expectedPayout := totalStake - expectedHouse;
    if totalStake != 0 then expectedPayout * BASIS_POINTS / totalStake else 0
  }

  function Drift(marbles: nat, buyIn: nat, rounds: nat, bps: nat): int {
    bps - EffectiveBps(marbles, buyIn, rounds, bps)
  }

  lemma QuotientScales(n: nat, d: nat, k: nat)
    requires d > 0 && k > 0
    ensures d * k > 0 && n * k / (d * k) == n / d
  {
    var q := n / d;
    assert q * d <= n < (q + 1) * d;
    MulMono(q * d, n, k);
    MulMono(n + 1, (q + 1) * d, k);
    assert q * d * k == q * (d * k) && (q + 1) * d * k == (q + 1) * (d * k);
    assert (n + 1) * k == n * k + k;
    MulMono(1, d, k);
    FloorOf(n * k, d * k, q);
  }

  /** The number of rounds cancels: the analyzer recomputes the prize of a single round. */
  lemma EffectiveIsPerRound(marbles: nat, buyIn: nat, rounds: nat, bps: nat)
    requires marbles * buyIn > 0 && rounds > 0
    ensures var stake := marbles * buyIn;
      EffectiveBps(marbles, buyIn, rounds, bps) == (stake * bps / BASIS_POINTS) * BASIS_POINTS / stake
  {
    var stake := marbles * buyIn;
    var prize := stake * bps / BASIS_POINTS;
    assert stake * rounds - (stake - prize) * rounds == prize * rounds;
    assert prize * rounds * BASIS_POINTS == prize * BASIS_POINTS * rounds;
    QuotientScales(prize * BASIS_POINTS, stake, rounds);
  }

  /** The least integer not below a / b. */
  function Ceil(a: nat, b: nat): nat
    requires b > 0
  {
    (a + b - 1) / b
  }

  /** What the prize of one round loses to rounding, in ten-thousandths of a unit. */
  function Lost(stake: nat, bps: nat): nat { stake * bps % BASIS_POINTS }

  /**
   The drift is what rounding loses per unit of stake, rounded up.  So it is never negative; it is within the
   documented 1 bp exactly when a round loses no more ten-thousandths than it stakes units, as it does from a
   stake of 9999 on; and it is zero exactly when the prize needs no rounding.  Without any stake the analyzer
   reports the whole RTP as drift.
   */
  lemma DriftIsBounded(marbles: nat, buyIn: nat, rounds: nat, bps: nat)
    ensures var stake := marbles * buyIn; var d := Drift(marbles, buyIn, rounds, bps);
      if stake == 0 || rounds == 0 then d == bps
      else
        && d == Ceil(Lost(stake, bps), stake)
        && (d <= 1 <==> Lost(stake, bps) <= stake)
        && (d == 0 <==> Lost(stake, bps) == 0)
        && (stake >= BASIS_POINTS - 1 ==> d <= 1)
        && d <= Ceil(BASIS_POINTS - 1, stake)
  {
    var stake := marbles * buyIn;
    if stake > 0 && rounds > 0 {
      EffectiveIsPerRound(marbles, buyIn, rounds, bps);
      DriftOfOneRound(stake, bps);
      CeilFacts(Lost(stake, bps), stake);
      CeilMono(Lost(stake, bps), BASIS_POINTS - 1, stake);
    } else {
      assert stake * rounds == 0;
    }
  }

  lemma DriftOfOneRound(stake: nat, bps: nat)
    requires stake > 0
    ensures bps - (stake * bps / BASIS_POINTS) * BASIS_POINTS / stake == Ceil(Lost(stake, bps), stake)
  {
    var prize := stake * bps / BASIS_POINTS;
    var e := prize * BASIS_POINTS / stake;
    var d := bps - e;
    assert prize * BASIS_POINTS == stake * bps - Lost(stake, bps);
    assert e * stake <= prize * BASIS_POINTS < (e + 1) * stake;
    assert d * stake == bps * stake - e * stake && bps * stake == stake * bps;
    assert (e + 1) * stake == e * stake + stake && (d + 1) * stake == d * stake + stake;
    FloorOf(Lost(stake, bps) + stake - 1, stake, d);
  }

  lemma CeilFacts(a: nat, b: nat)
    requires b > 0
    ensures (Ceil(a, b) == 0 <==> a == 0) && (Ceil(a, b) <= 1 <==> a <= b)
  {
    var c := Ceil(a, b);
    assert c * b <= a + b - 1 < (c + 1) * b;
    assert (c + 1) * b == c * b + b;
    if c >= 2 {
      MulMono(2, c, b);
    }
  }

  lemma CeilMono(a: nat, a': nat, b: nat)
    requires a <= a' && b > 0
    ensures Ceil(a, b) <= Ceil(a', b)
  {
    var c, d := Ceil(a, b), Ceil(a', b);
    assert c * b <= a + b - 1 && a' + b - 1 < (d + 1) * b;
    MulCancel(c, d + 1, b);
  }

  /** The documented bound fails: a stake of 3 at 9500 bps drifts by 2834 bp, whereas one of 20 does not drift. */
  lemma DriftCanExceedOne()
    ensures Drift(1, 3, 1, 9500) == 2834 && Drift(1, 20, 1, 9500) == 0
  {
  }
}
