/**
 * Unsigned 16-bit port numbers and their decimal rendering, as Rust's
 * `u16::to_string` and the `{}` placeholder of `format!` produce it.
 */
module Decimal {

  /** Rust's `u16`. */
  type u16 = x: int | 0 <= x < 0x1_0000

  predicate IsDigit(c: char)
  {
    '0' <= c <= '9'
  }

  predicate AllDigits(s: string)
  {
    forall i :: 0 <= i < |s| ==> IsDigit(s[i])
  }

  function DigitChar(d: nat): (c: char)
    requires d < 10
    ensures IsDigit(c) && c as int - '0' as int == d
  {
    ('0' as int + d) as char
  }

  /** Canonical decimal rendering: at least one digit, no leading zero. */
  function Show(n: nat): (s: string)
    ensures |s| >= 1 && AllDigits(s)
    ensures s[0] == '0' <==> n == 0
    ensures s[0] == '0' ==> |s| == 1
    decreases n
  {
    if n < 10 then [DigitChar(n)] else Show(n / 10) + [DigitChar(n % 10)]
  }

  /** The number a string of digits denotes (most significant digit first). */
  function Value(s: string): nat
    requires AllDigits(s)
  {
    if s == [] then 0 else Value(s[..|s| - 1]) * 10 + (s[|s| - 1] as int - '0' as int)
  }

  /** Reading the rendering back gives the number: the rendering loses nothing. */
  lemma {:induction false} ValueShow(n: nat)
    ensures Value(Show(n)) == n
    decreases n
  {
    if n >= 10 {
      ValueShow(n / 10);
      var s := Show(n);
      assert s[..|s| - 1] == Show(n / 10);
    }
  }

  /** Distinct numbers render to distinct strings. */
  lemma ShowInjective(m: nat, n: nat)
    ensures Show(m) == Show(n) <==> m == n
  {
    ValueShow(m);
    ValueShow(n);
  }

  /** A number below 10^k has at most k digits. */
  lemma {:induction false} ShowLengthBelow(n: nat, k: nat)
    requires 1 <= k && n < Pow10(k)
    ensures |Show(n)| <= k
    decreases k
  {
    if n >= 10 {
      assert Pow10(1) == 10;
      assert n / 10 < Pow10(k - 1);
      ShowLengthBelow(n / 10, k - 1);
    }
  }

  function Pow10(k: nat): (p: nat)
    ensures p >= 1
  {
    if k == 0 then 1 else 10 * Pow10(k - 1)
  }

  /** A `u16` renders to between one and five digits. */
  lemma ShowU16Length(n: u16)
    ensures 1 <= |Show(n)| <= 5
  {
    assert Pow10(5) == 100000 by {
      assert Pow10(1) == 10;
      assert Pow10(2) == 100;
      assert Pow10(3) == 1000;
      assert Pow10(4) == 10000;
    }
    ShowLengthBelow(n, 5);
  }
}
