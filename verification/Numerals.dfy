/** Decimal and hexadecimal numerals, and reading them back. */
module Numerals {
  import opened Basics

  const DIGITS: string := "0123456789abcdef"

  function Decimal(n: nat): string {
    if n < 10 then [DIGITS[n]] else Decimal(n / 10) + [DIGITS[n % 10]]
  }

  predicate IsDigit(ch: char) {
    '0' <= ch <= '9'
  }

  /** The value of a run of decimal digits. */
  function Numeral(s: string): nat
    requires forall ch :: ch in s ==> IsDigit(ch)
  {
    if s == "" then 0
    else
      assert IsDigit(s[|s| - 1]);
      Numeral(s[..|s| - 1]) * 10 + (s[|s| - 1] - '0') as nat
  }

  lemma DigitIs(n: nat)
    requires n < 10
    ensures IsDigit(DIGITS[n]) && (DIGITS[n] - '0') as nat == n
  {
  }

  lemma {:induction false} DecimalReadsBack(n: nat)
    ensures Decimal(n) != "" && (forall ch :: ch in Decimal(n) ==> IsDigit(ch)) && Numeral(Decimal(n)) == n
    ensures Decimal(n)[0] == '0' ==> n == 0 && Decimal(n) == "0"
    decreases n
  {
    DigitIs(n % 10);
    var d := Decimal(n);
    if n < 10 {
      assert d[..|d| - 1] == "";
    } else {
      DecimalReadsBack(n / 10);
      assert d[..|d| - 1] == Decimal(n / 10);
    }
  }

  /** The units come last. */
  lemma DecimalInOrder(n: nat, d: nat)
    requires 0 < n && d < 10
    ensures Decimal(d) == [("0123456789")[d]]
    ensures Decimal(10 * n + d) == Decimal(n) + [("0123456789")[d]]
  {
    assert (10 * n + d) / 10 == n && (10 * n + d) % 10 == d;
    assert DIGITS[..10] == "0123456789";
    assert DIGITS[d] == DIGITS[..10][d];
  }

  /* ---- hexadecimal, a fixed number of lower-case digits ---- */

  function Pow16(k: nat): nat {
    if k == 0 then 1 else 16 * Pow16(k - 1)
  }

  function Hex(n: nat, k: nat): (s: string)
    ensures |s| == k
  {
    if k == 0 then "" else Hex(n / 16, k - 1) + [DIGITS[n % 16]]
  }

  lemma HexInOrder(n: nat, d: nat, k: nat)
    requires d < 16
    ensures Hex(16 * n + d, k + 1) == Hex(n, k) + [("0123456789abcdef")[d]]
  {
    assert (16 * n + d) / 16 == n && (16 * n + d) % 16 == d;
  }

  function HexDigit(ch: char): Option<nat> {
    if '0' <= ch <= '9' then Some((ch - '0') as nat)
    else if 'a' <= ch <= 'f' then Some((ch - 'a') as nat + 10)
    else if 'A' <= ch <= 'F' then Some((ch - 'A') as nat + 10)
    else None
  }

  function HexValue(s: string): Option<nat> {
    if s == "" then Some(0)
    else
      match (HexValue(s[..|s| - 1]), HexDigit(s[|s| - 1]))
      case (Some(high), Some(low)) => Some(high * 16 + low)
      case _ => None
  }

  lemma HexDigitIs(n: nat)
    requires n < 16
    ensures HexDigit(DIGITS[n]) == Some(n) && DIGITS[n] != '-'
  {
  }

  lemma {:induction false} HexReadsBack(n: nat, k: nat)
    requires n < Pow16(k)
    ensures HexValue(Hex(n, k)) == Some(n)
    decreases k
  {
    if k > 0 {
      HexReadsBack(n / 16, k - 1);
      HexDigitIs(n % 16);
      var s := Hex(n, k);
      assert s[..|s| - 1] == Hex(n / 16, k - 1);
    }
  }

  /** Only hexadecimal digits. */
  lemma {:induction false} HexOnly(n: nat, k: nat)
    ensures forall ch :: ch in Hex(n, k) ==> HexDigit(ch).Some?
    decreases k
  {
    if k > 0 {
      HexOnly(n / 16, k - 1);
      HexDigitIs(n % 16);
    }
  }
}
