/**
 * Decimal rendering of non-negative integers, and the parser that inverts it.
 * A template literal such as `(${num})` renders a JavaScript number holding a
 * whole value up to 2^53 (the safe integers) this way. Above that JavaScript
 * writes the shortest digits that round back to the same double, padded with
 * zeros, and from 10^21 up it switches to exponent form; neither is modelled
 * (the ids and segment numbers the catalog interpolates are 1 to 30).
 */
module Decimal {
  import opened Wrappers

  predicate IsDigit(c: char) {
    '0' <= c <= '9'
  }

  predicate AllDigits(s: string) {
    forall i :: 0 <= i < |s| ==> IsDigit(s[i])
  }

  /** The form in which a number is rendered: digits only, no leading zero except "0" itself. */
  predicate Canonical(s: string) {
    |s| >= 1 && AllDigits(s) && (s[0] == '0' ==> |s| == 1)
  }

  function DigitValue(c: char): (d: nat)
    requires IsDigit(c)
    ensures d < 10
  {
    c as int - '0' as int
  }

  function DigitChar(d: nat): (c: char)
    requires d < 10
    ensures IsDigit(c) && DigitValue(c) == d
  {
    (d + '0' as int) as char
  }

  /** The decimal digits of `n`, most significant first. */
  function FromNat(n: nat): (s: string)
    ensures Canonical(s)
  {
    if n < 10 then [DigitChar(n)] else FromNat(n / 10) + [DigitChar(n % 10)]
  }

  /** The value of a string of decimal digits; None for the empty string or any non-digit. */
  function ToNat(s: string): (r: Option<nat>)
    ensures r.Some? <==> |s| >= 1 && AllDigits(s)
  {
    if |s| == 0 || !IsDigit(s[|s| - 1]) then None
    else if |s| == 1 then Some(DigitValue(s[0]))
    else match ToNat(s[..|s| - 1])
      case None => None
      case Some(v) => Some(10 * v + DigitValue(s[|s| - 1]))
  }

  /** Parsing a rendered number gives the number back. */
  lemma {:induction false} ToNatFromNat(n: nat)
    ensures ToNat(FromNat(n)) == Some(n)
  {
    if n >= 10 {
      var s := FromNat(n);
      assert s[..|s| - 1] == FromNat(n / 10);
      ToNatFromNat(n / 10);
    }
  }

  /** Appending digit `d` to the digits of `v` gives the number 10 * v + d. */
  lemma AppendDigit(v: nat, d: nat)
    requires d < 10
    ensures (10 * v + d) / 10 == v && (10 * v + d) % 10 == d
  {
  }

  /** Rendering the value of a canonical digit string gives the string back. */
  lemma {:induction false} FromNatToNat(s: string)
    requires Canonical(s)
    ensures ToNat(s).Some? && FromNat(ToNat(s).value) == s
  {
    if |s| > 1 {
      var init, last := s[..|s| - 1], s[|s| - 1];
      assert Canonical(init) by {
        assert init[0] == s[0];
        assert forall i :: 0 <= i < |init| ==> init[i] == s[i];
      }
      FromNatToNat(init);
      var v, d := ToNat(init).value, DigitValue(last);
      assert ToNat(s) == Some(10 * v + d);
      assert v != 0 by {
        assert FromNat(0) == [DigitChar(0)];
        assert init[0] != '0';
      }
      AppendDigit(v, d);
      assert FromNat(10 * v + d) == init + [DigitChar(d)];
      assert DigitChar(d) == last;
      assert s == init + [last];
    }
  }

  /** Distinct numbers are rendered as distinct strings. */
  lemma FromNatInjective(m: nat, n: nat)
    ensures FromNat(m) == FromNat(n) <==> m == n
  {
    if FromNat(m) == FromNat(n) {
      ToNatFromNat(m);
      ToNatFromNat(n);
    }
  }
}
