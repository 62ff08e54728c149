/**
 * Decimal rendering of integers, as a JavaScript template literal `${i}`
 * renders an integral number. The element ids of the suggestion list and the
 * selectors the controller looks them up with are built from it.
 */
module Decimal {

  /** The character of a decimal digit. */
  function Digit(d: nat): (c: char)
    requires d < 10
    ensures '0' <= c <= '9'
    ensures c as int - '0' as int == d
  {
    ('0' as int + d) as char
  }

  /** The decimal digits of n, most significant first, without leading zeros. */
  function FromNat(n: nat): (s: string)
    ensures |s| >= 1
    ensures forall k :: 0 <= k < |s| ==> '0' <= s[k] <= '9'
    decreases n
  {
    (if n < 10 then "" else FromNat(n / 10)) + [Digit(n % 10)]
  }

  /** A negative number is rendered with a leading minus sign. */
  function FromInt(i: int): (s: string)
    ensures |s| >= 1
    ensures (s[0] == '-') <==> i < 0
  {
    if i < 0 then "-" + FromNat(-i) else FromNat(i)
  }

  /** Distinct numbers are rendered as distinct strings. */
  lemma {:induction false} FromNatInjective(m: nat, n: nat)
    requires FromNat(m) == FromNat(n)
    ensures m == n
  {
    var sm, sn := FromNat(m), FromNat(n);
    assert sm[|sm| - 1] == Digit(m % 10);
    assert sn[|sn| - 1] == Digit(n % 10);
    assert m % 10 == n % 10;
    var pm := if m < 10 then "" else FromNat(m / 10);
    var pn := if n < 10 then "" else FromNat(n / 10);
    assert sm == pm + [Digit(m % 10)];
    assert sn == pn + [Digit(n % 10)];
    assert pm == sm[..|sm| - 1];
    assert pn == sn[..|sn| - 1];
    if m >= 10 && n >= 10 {
      FromNatInjective(m / 10, n / 10);
    }
  }

  /** Distinct integers, negative ones included, are rendered as distinct strings. */
  lemma FromIntInjective(i: int, j: int)
    requires FromInt(i) == FromInt(j)
    ensures i == j
  {
    if i < 0 {
      assert FromInt(i)[1..] == FromNat(-i);
      assert FromInt(j)[1..] == FromNat(-j);
      FromNatInjective(-i, -j);
    } else {
      FromNatInjective(i, j);
    }
  }
}
