/**
 * Decimal text of the non-negative integers that appear in the emitted
 * markup (page and bounding-box sizes, image procedure numbers), as Rust's
 * `Display` writes them: the shortest digit string, no sign, no leading zero.
 */
module Decimal {

  predicate IsDigit(c: char) {
    '0' <= c <= '9'
  }

  function DigitChar(d: nat): (c: char)
    requires d < 10
    ensures IsDigit(c)
  {
    ('0' as int + d) as char
  }

  function DigitValue(c: char): nat
    requires IsDigit(c)
  {
    c as int - '0' as int
  }

  /** The decimal rendering of `n`. */
  function Show(n: nat): (s: string)
    ensures |s| >= 1
    ensures forall i :: 0 <= i < |s| ==> IsDigit(s[i])
    ensures s[0] == '0' <==> n == 0
    decreases n
  {
    if n < 10 then [DigitChar(n)] else Show(n / 10) + [DigitChar(n % 10)]
  }

  /** Reads a digit string back as a number (the inverse of Show). */
  function Parse(s: string): nat
    requires forall i :: 0 <= i < |s| ==> IsDigit(s[i])
  {
    if |s| == 0 then 0 else 10 * Parse(s[..|s| - 1]) + DigitValue(s[|s| - 1])
  }

  lemma {:induction false} ParseShow(n: nat)
    ensures Parse(Show(n)) == n
    decreases n
  {
    var s := Show(n);
    if n >= 10 {
      assert s[..|s| - 1] == Show(n / 10);
      ParseShow(n / 10);
    }
  }

  /** Distinct numbers have distinct renderings. */
  lemma ShowInjective(a: nat, b: nat)
    requires a != b
    ensures Show(a) != Show(b)
  {
    ParseShow(a);
    ParseShow(b);
  }

  /** The two sides of the 500 by 300 examples render as `500` and `300`. */
  lemma ShowFiveHundredAndThreeHundred()
    ensures Show(500) == "500" && Show(300) == "300"
  {
    assert DigitChar(0) == '0';
    assert DigitChar(5) == '5';
    assert DigitChar(3) == '3';
    assert Show(50) == Show(5) + ['0'];
    assert Show(30) == Show(3) + ['0'];
  }
}
