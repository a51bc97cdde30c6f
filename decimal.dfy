/**
 * Decimal rendering of integers, as a JavaScript template literal renders a
 * safe integer (`${page}`, `${response.status}`), with its inverse.
 */
module Decimal {

  predicate IsDigit(c: char) {
    '0' <= c <= '9'
  }

  predicate AllDigits(s: string) {
    forall i :: 0 <= i < |s| ==> IsDigit(s[i])
  }

  function DigitChar(d: nat): (c: char)
    requires d < 10
    ensures IsDigit(c) && c as int - '0' as int == d
  {
    (d + '0' as int) as char
  }

  /** The decimal digits of `n`, most significant first, without leading zeros. */
  function NatToString(n: nat): (s: string)
    ensures s != [] && AllDigits(s)
    ensures |s| > 1 ==> s[0] != '0'
  {
    if n < 10 then [DigitChar(n)] else NatToString(n / 10) + [DigitChar(n % 10)]
  }

  /** `${i}` for an integer `i`: a minus sign before the digits of a negative number. */
  function IntToString(i: int): (s: string)
    ensures s != [] && '/' !in s
  {
    if i < 0 then "-" + NatToString(-i) else NatToString(i)
  }

  /** The value of a string of decimal digits. */
  function ParseNat(s: string): nat
    requires AllDigits(s)
  {
    if s == [] then 0
    else ParseNat(s[..|s| - 1]) * 10 + (s[|s| - 1] as int - '0' as int)
  }

  /** Reading the rendered digits back gives the number. */
  lemma {:induction false} ParseNatToString(n: nat)
    ensures ParseNat(NatToString(n)) == n
  {
    var s := NatToString(n);
    if n >= 10 {
      ParseNatToString(n / 10);
      assert s[..|s| - 1] == NatToString(n / 10);
    }
  }

  /** Different integers render differently. */
  lemma IntToStringInjective(i: int, j: int)
    requires i != j
    ensures IntToString(i) != IntToString(j)
  {
    var si, sj := IntToString(i), IntToString(j);
    if i < 0 && j < 0 {
      if si == sj {
        assert si[1..] == NatToString(-i) && sj[1..] == NatToString(-j);
        ParseNatToString(-i);
        ParseNatToString(-j);
      }
    } else if i >= 0 && j >= 0 {
      if si == sj {
        ParseNatToString(i);
        ParseNatToString(j);
      }
    } else if i < 0 {
      assert si[0] == '-' && IsDigit(sj[0]);
    } else {
      assert sj[0] == '-' && IsDigit(si[0]);
    }
  }
}
