/** Decimal and hexadecimal text: strconv.FormatUint / ParseUint and encoding/hex, as far as they are used. */
module Text {
  import opened Common

  function DigitChar(d: nat): char
    requires d < 10
  {
    '0' + d as char
  }

  predicate IsDigit(c: char) { '0' <= c <= '9' }

  function DigitValue(c: char): nat
    requires IsDigit(c)
  {
    (c - '0') as nat
  }

  /** strconv.FormatUint(n, 10). */
  function FormatUint(n: nat): (s: string)
    ensures s != "" && forall i | 0 <= i < |s| :: IsDigit(s[i])
    ensures |s| > 1 ==> s[0] != '0'
    ensures n > 0 ==> s[0] != '0'
  {
    if n < 10 then [DigitChar(n)] else FormatUint(n / 10) + [DigitChar(n % 10)]
  }

  /** The value of a digit string; None if some character is not a digit or the string is empty. */
  function Digits(s: string): Option<nat> {
    if s == "" || !IsDigit(s[|s| - 1]) then None
    else if |s| == 1 then Some(DigitValue(s[0]))
    else match Digits(s[..|s| - 1])
      case None => None
      case Some(v) => Some(10 * v + DigitValue(s[|s| - 1]))
  }

  /** strconv.ParseUint(s, 10, 64): digits only, and the value must fit in 64 bits. */
  function ParseUint(s: string): Option<Uint64> {
    match Digits(s)
    case None => None
    case Some(v) => if v < TWO_64 then Some(v) else None
  }

  lemma {:induction false} DigitsOfFormat(n: nat)
    ensures Digits(FormatUint(n)) == Some(n)
  {
    if n >= 10 {
      DigitsOfFormat(n / 10);
      var s := FormatUint(n);
      assert s[..|s| - 1] == FormatUint(n / 10);
    }
  }

  lemma DigitText(d: nat)
    requires d < 10
    ensures DigitChar(d) == "0123456789"[d]
  {
    assert "0123456789"[0] == '0' && "0123456789"[1] == '1' && "0123456789"[2] == '2' && "0123456789"[3] == '3'
        && "0123456789"[4] == '4';
    assert "0123456789"[5] == '5' && "0123456789"[6] == '6' && "0123456789"[7] == '7' && "0123456789"[8] == '8'
        && "0123456789"[9] == '9';
  }

  /** Decimal notation: the last digit stands for n % 10, what is in front of it is the text of n / 10. */
  lemma DecimalText(n: nat)
    ensures FormatUint(n) == (if n < 10 then "" else FormatUint(n / 10)) + ["0123456789"[n % 10]]
  {
    DigitText(n % 10);
  }

  /** Two decimal digits. */
  lemma TwoDigits(n: nat)
    requires n < 100
    ensures (if n < 10 then "0" else "") + FormatUint(n) == ["0123456789"[n / 10], "0123456789"[n % 10]]
  {
    DigitText(n / 10);
    DigitText(n % 10);
    assert FormatUint(n / 10) == [DigitChar(n / 10)];
    if n < 10 {
      assert FormatUint(n) == [DigitChar(n)];
    } else {
      assert FormatUint(n) == FormatUint(n / 10) + [DigitChar(n % 10)];
    }
  }

  /** Any text of at most 19 decimal digits parses, leading zeros or not; nothing else but digits does. */
  lemma {:induction false} ParsesIff(s: string)
    ensures ParseUint(s).Some? ==> s != "" && forall c | c in s :: c in "0123456789"
    ensures 0 < |s| <= 19 && (forall c | c in s :: c in "0123456789") ==> ParseUint(s).Some?
  {
    DigitsIff(s);
    if Digits(s).Some? && |s| <= 19 {
      DigitsBound(s);
      Pow10Grows(|s|, 19);
      Pow10Of19();
    }
  }

  lemma {:induction false} DigitsIff(s: string)
    ensures Digits(s).Some? <==> s != "" && forall c | c in s :: c in "0123456789"
  {
    assert forall c: char :: c in "0123456789" <==> IsDigit(c);
    if |s| > 1 {
      var k := |s| - 1;
      DigitsIff(s[..k]);
      assert s == s[..k] + [s[k]];
    }
  }

  function Pow10(k: nat): (p: nat)
    ensures p > 0
  {
    if k == 0 then 1 else 10 * Pow10(k - 1)
  }

  lemma {:induction false} DigitsBound(s: string)
    requires Digits(s).Some?
    ensures Digits(s).value < Pow10(|s|)
  {
    if |s| > 1 {
      DigitsBound(s[..|s| - 1]);
    }
  }

  lemma Pow10Of19()
    ensures Pow10(19) == 10_000_000_000_000_000_000
  {
    assert Pow10(5) == 100_000 && Pow10(10) == 100_000 * 100_000;
    assert Pow10(15) == 100_000 * Pow10(10) && Pow10(19) == 10_000 * Pow10(15);
  }

  lemma {:induction false} Pow10Grows(k: nat, m: nat)
    requires k <= m
    ensures Pow10(k) <= Pow10(m)
  {
    if k < m {
      Pow10Grows(k, m - 1);
    }
  }

  /** Parsing a formatted id gives the id back. */
  lemma ParseFormat(n: Uint64)
    ensures ParseUint(FormatUint(n)) == Some(n)
  {
    DigitsOfFormat(n);
  }

  /** A text that does not start with a digit never parses. */
  lemma {:induction false} NoLeadingDigit(s: string)
    requires s != "" && !IsDigit(s[0])
    ensures Digits(s) == None
  {
    if |s| > 1 {
      NoLeadingDigit(s[..|s| - 1]);
    }
  }

  // ---------------------------------------------------------------------------
  // Hexadecimal
  // ---------------------------------------------------------------------------

  function HexChar(d: nat): char
    requires d < 16
  {
    if d < 10 then '0' + d as char else 'a' + (d - 10) as char
  }

  function HexValue(c: char): Option<nat> {
    if '0' <= c <= '9' then Some((c - '0') as nat)
    else if 'a' <= c <= 'f' then Some((c - 'a') as nat + 10)
    else if 'A' <= c <= 'F' then Some((c - 'A') as nat + 10)
    else None
  }

  /** hex.EncodeToString. */
  function HexEncode(b: Bytes): string {
    if b == [] then "" else [HexChar(b[0] / 16), HexChar(b[0] % 16)] + HexEncode(b[1..])
  }

  /** hex.DecodeString: None for an odd length or a character that is not a hex digit. */
  function HexDecode(s: string): Option<Bytes> {
    if s == "" then Some([])
    else if |s| == 1 then None
    else match (HexValue(s[0]), HexValue(s[1]), HexDecode(s[2..]))
      case (Some(hi), Some(lo), Some(rest)) => if hi < 16 && lo < 16 then Some([hi * 16 + lo] + rest) else None
      case _ => None
  }

  lemma HexDigitText(d: nat)
    requires d < 16
    ensures HexChar(d) == "0123456789abcdef"[d]
  {
    var t := "0123456789abcdef";
    if d < 10 {
      assert t[0] == '0' && t[1] == '1' && t[2] == '2' && t[3] == '3' && t[4] == '4';
      assert t[5] == '5' && t[6] == '6' && t[7] == '7' && t[8] == '8' && t[9] == '9';
    } else {
      assert t[10] == 'a' && t[11] == 'b' && t[12] == 'c' && t[13] == 'd' && t[14] == 'e' && t[15] == 'f';
    }
  }

  lemma {:induction false} HexCharAt(b: Bytes, i: nat)
    requires i < |b|
    ensures |HexEncode(b)| == 2 * |b|
    ensures HexEncode(b)[2 * i] == HexChar(b[i] / 16) && HexEncode(b)[2 * i + 1] == HexChar(b[i] % 16)
  {
    if |b| == 1 {
      assert HexEncode(b[1..]) == "";
    } else {
      HexCharAt(b[1..], if i == 0 then 0 else i - 1);
    }
  }

  /** Two lower-case digits per byte, the high half first. */
  lemma HexText(b: Bytes, i: nat)
    requires i < |b|
    ensures |HexEncode(b)| == 2 * |b|
    ensures HexEncode(b)[2 * i] == "0123456789abcdef"[b[i] / 16]
    ensures HexEncode(b)[2 * i + 1] == "0123456789abcdef"[b[i] % 16]
  {
    HexCharAt(b, i);
    HexDigitText(b[i] / 16);
    HexDigitText(b[i] % 16);
  }

  lemma {:induction false} HexRoundTrip(b: Bytes)
    ensures HexDecode(HexEncode(b)) == Some(b)
  {
    if b != [] {
      HexRoundTrip(b[1..]);
      var s := HexEncode(b);
      assert s[2..] == HexEncode(b[1..]);
      assert HexValue(s[0]) == Some(b[0] / 16) && HexValue(s[1]) == Some(b[0] % 16);
      assert b == [b[0]] + b[1..];
    }
  }
}
