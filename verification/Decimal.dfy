/** Decimal text: what `%u` and `%zu` print, and what a string of digits is worth. */
module Decimal {

  predicate IsDigit(c: char) {
    '0' <= c <= '9'
  }

  predicate AllDigits(s: string) {
    forall i :: 0 <= i < |s| ==> IsDigit(s[i])
  }

  function DigitValue(c: char): nat
    requires IsDigit(c)
  {
    c as int - '0' as int
  }

  /** The number written by s, most significant digit first; leading zeros add nothing. */
  function Value(s: string): nat
    requires AllDigits(s)
  {
    if s == "" then 0 else Value(s[..|s| - 1]) * 10 + DigitValue(s[|s| - 1])
  }

  function Digit(d: nat): char
    requires d < 10
  {
    ('0' as int + d) as char
  }

  function Text(n: nat): string {
    if n < 10 then [Digit(n)] else Text(n / 10) + [Digit(n % 10)]
  }

  lemma {:induction false} ValueOfText(n: nat)
    ensures AllDigits(Text(n)) && Text(n) != "" && Value(Text(n)) == n
  {
    if n >= 10 {
      ValueOfText(n / 10);
      assert Text(n)[..|Text(n)| - 1] == Text(n / 10);
    } else {
      assert Text(n)[..0] == "";
    }
  }

  /** Different numbers print differently. */
  lemma TextIsInjective(m: nat, n: nat)
    requires Text(m) == Text(n)
    ensures m == n
  {
    ValueOfText(m);
    ValueOfText(n);
  }

  /** A longer digit string is worth at least as much. */
  lemma {:induction false} PrefixIsWorthLess(s: string, k: nat)
    requires AllDigits(s) && k <= |s|
    ensures Value(s[..k]) <= Value(s)
  {
    if k < |s| {
      PrefixIsWorthLess(s[..|s| - 1], k);
      assert s[..|s| - 1][..k] == s[..k];
    } else {
      assert s[..k] == s;
    }
  }

  function Pow10(k: nat): nat {
    if k == 0 then 1 else 10 * Pow10(k - 1)
  }

  lemma {:induction false} TextIsShort(n: nat, k: nat)
    requires 0 < k && n < Pow10(k)
    ensures |Text(n)| <= k
  {
    if k > 1 && n >= 10 {
      TextIsShort(n / 10, k - 1);
    }
  }

  lemma {:induction false} TextGrows(m: nat, n: nat)
    requires m <= n
    ensures |Text(m)| <= |Text(n)|
  {
    if m >= 10 {
      TextGrows(m / 10, n / 10);
    }
  }

  /** The first digits of a number are those of a number, a smaller one if digits are left out. */
  lemma {:induction false} TextPrefix(n: nat, k: nat) returns (m: nat)
    requires 0 < n && 0 < k <= |Text(n)|
    ensures 0 < m <= n && Text(m) == Text(n)[..k]
    ensures k < |Text(n)| ==> m < n
  {
    if k == |Text(n)| {
      m := n;
    } else {
      m := TextPrefix(n / 10, k);
    }
  }

  lemma {:induction false} NoLeadingZero(n: nat)
    requires 0 < n
    ensures Text(n) != "" && Text(n)[0] != '0'
  {
    if n >= 10 {
      NoLeadingZero(n / 10);
    }
  }
}
