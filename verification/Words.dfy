/** Fixed-width words as bytes, in both byte orders. */
module Words {
  import opened Common

  type Uint32 = n: int | 0 <= n < TWO_32

  function Pow256(k: nat): (p: nat)
    ensures p > 0
  {
    if k == 0 then 1 else 0x100 * Pow256(k - 1)
  }

  lemma Widths()
    ensures Pow256(1) == 0x100 && Pow256(4) == TWO_32 && Pow256(8) == TWO_64
  {
    assert Pow256(2) == 0x1_0000 && Pow256(3) == 0x100_0000;
    assert Pow256(6) == 0x1_0000 * TWO_32 by { assert Pow256(5) == 0x100 * TWO_32; }
  }

  /** The k low digits of n in base 256, least significant first. */
  function LE(n: nat, k: nat): (b: Bytes)
    ensures |b| == k
  {
    if k == 0 then [] else [n % 0x100] + LE(n / 0x100, k - 1)
  }

  function FromLE(b: Bytes): nat {
    if b == [] then 0 else b[0] as int + 0x100 * FromLE(b[1..])
  }

  /** The k low digits of n, most significant first. */
  function BE(n: nat, k: nat): (b: Bytes)
    ensures |b| == k
  {
    if k == 0 then [] else BE(n / 0x100, k - 1) + [n % 0x100]
  }

  function FromBE(b: Bytes): nat {
    if b == [] then 0 else 0x100 * FromBE(b[..|b| - 1]) + b[|b| - 1] as int
  }

  /** Quotient and remainder are determined by their bounds. */
  lemma ModIs(n: nat, d: nat, q: nat, r: nat)
    requires d > 0 && n == d * q + r && r < d
    ensures n % d == r && n / d == q
  {
    var q' := n / d;
    assert n == d * q' + n % d;
    MulGap(d, q, q');
    MulGap(d, q', q);
  }

  lemma MulGap(d: nat, a: nat, b: nat)
    ensures a < b ==> d * a + d <= d * b
  {
    if a < b {
      var t := b - a - 1;
      assert d * t >= 0 && d * (a + 1 + t) == d * a + d + d * t;
    }
  }

  /** The last digit and the rest make up a remainder of the next power. */
  lemma DigitStep(n: nat, k: nat)
    requires k > 0
    ensures n % Pow256(k) == 0x100 * (n / 0x100 % Pow256(k - 1)) + n % 0x100
  {
    var p := Pow256(k - 1);
    var m := n / 0x100;
    var q, r := m / p, m % p;
    assert m == p * q + r;
    assert n == 0x100 * m + n % 0x100;
    assert 0x100 * (p * q + r) == Pow256(k) * q + 0x100 * r;
    ModIs(n, Pow256(k), q, 0x100 * r + n % 0x100);
  }

  /** Only the low k bytes of a number survive. */
  lemma {:induction false} LERoundTrip(n: nat, k: nat)
    ensures FromLE(LE(n, k)) == n % Pow256(k)
  {
    if k > 0 {
      DigitStep(n, k);
      LERoundTrip(n / 0x100, k - 1);
      assert LE(n, k)[1..] == LE(n / 0x100, k - 1);
    }
  }

  /** Bytes are the encoding of the number they stand for. */
  lemma {:induction false} LEInverse(b: Bytes)
    ensures FromLE(b) < Pow256(|b|) && LE(FromLE(b), |b|) == b
  {
    if b != [] {
      LEInverse(b[1..]);
      var r := FromLE(b[1..]);
      var n: nat := FromLE(b);
      var d: nat := b[0];
      assert n == d + 0x100 * r;
      assert n % 0x100 == d && n / 0x100 == r;
      assert b == [b[0]] + b[1..];
    }
  }

  lemma {:induction false} BERoundTrip(n: nat, k: nat)
    ensures FromBE(BE(n, k)) == n % Pow256(k)
  {
    if k > 0 {
      DigitStep(n, k);
      BERoundTrip(n / 0x100, k - 1);
      assert BE(n, k)[..k - 1] == BE(n / 0x100, k - 1);
    }
  }

  lemma {:induction false} BEInverse(b: Bytes)
    ensures FromBE(b) < Pow256(|b|) && BE(FromBE(b), |b|) == b
  {
    if b != [] {
      var init := b[..|b| - 1];
      BEInverse(init);
      var r := FromBE(init);
      var n: nat := FromBE(b);
      var d: nat := b[|b| - 1];
      assert n == 0x100 * r + d;
      assert n % 0x100 == d && n / 0x100 == r;
      assert b == init + [b[|b| - 1]];
    }
  }

  /** A number that fits in 32 bits comes back from its four bytes. */
  lemma Word32(n: nat)
    requires n < TWO_32
    ensures FromLE(LE(n, 4)) == n
  {
    LERoundTrip(n, 4);
    Widths();
    ModIs(n, TWO_32, 0, n);
  }

  /** The four bytes of a word, by right shifts. */
  lemma Shifts(n: nat)
    ensures LE(n, 4) == [n % 0x100, n / 0x100 % 0x100, n / 0x1_0000 % 0x100, n / 0x100_0000 % 0x100]
  {
    var n1 := n / 0x100;
    var n2 := n1 / 0x100;
    assert n2 == n / 0x1_0000 && n2 / 0x100 == n / 0x100_0000;
    assert LE(n2, 2) == [n2 % 0x100] + LE(n2 / 0x100, 1);
    assert LE(n1, 3) == [n1 % 0x100] + LE(n2, 2);
    assert LE(n, 4) == [n % 0x100] + LE(n1, 3);
  }

  /** The eight bytes of a long word: those of its two halves. */
  lemma LongShifts(n: nat)
    ensures LE(n, 8) == LE(n, 4) + LE(n / 0x1_0000_0000, 4)
  {
    var n1 := n / 0x100;
    var n2 := n1 / 0x100;
    var n3 := n2 / 0x100;
    var n4 := n3 / 0x100;
    assert n2 == n / 0x1_0000 && n3 == n2 / 0x100 && n4 == n2 / 0x1_0000 == n / 0x1_0000_0000;
    assert LE(n3, 5) == [n3 % 0x100] + LE(n4, 4) && LE(n2, 6) == [n2 % 0x100] + LE(n3, 5);
    assert LE(n1, 7) == [n1 % 0x100] + LE(n2, 6) && LE(n, 8) == [n % 0x100] + LE(n1, 7);
    Shifts(n);
  }

  /** In network order the same bytes come the other way round. */
  lemma {:induction false} BEMirrorsLE(n: nat, k: nat, i: nat)
    requires i < k
    ensures BE(n, k)[k - 1 - i] == LE(n, k)[i]
  {
    if i > 0 {
      BEMirrorsLE(n / 0x100, k - 1, i - 1);
    }
  }

  /** n >> 8k. */
  function ShiftRight(n: nat, k: nat): nat {
    if k == 0 then n else ShiftRight(n / 0x100, k - 1)
  }

  /** The byte in front of the k low ones. */
  lemma {:induction false} BEFront(n: nat, k: nat)
    ensures BE(n, k + 1) == [ShiftRight(n, k) % 0x100] + BE(n, k)
  {
    if k == 0 {
      assert BE(n / 0x100, 0) == [];
    } else {
      BEFront(n / 0x100, k - 1);
      assert BE(n, k + 1) == BE(n / 0x100, k) + [n % 0x100];
      assert BE(n, k) == BE(n / 0x100, k - 1) + [n % 0x100];
    }
  }
}
