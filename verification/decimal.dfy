/** Decimal digit strings: how `std::stoul` reads a number out of text and how
    `operator<<` writes one into text. */
module Decimal {

  predicate IsDigit(c: char) {
    '0' <= c <= '9'
  }

  predicate IsDigits(s: string) {
    forall i :: 0 <= i < |s| ==> IsDigit(s[i])
  }

  function DigitValue(c: char): (d: nat)
    requires IsDigit(c)
    ensures d < 10
  {
    c as int - '0' as int
  }

  function DigitChar(d: nat): (c: char)
    requires d < 10
    ensures IsDigit(c) && DigitValue(c) == d
  {
    ('0' as int + d) as char
  }

  /** The number a digit string denotes, most significant digit first. */
  function Value(s: string): nat
    requires IsDigits(s)
  {
    if |s| == 0 then 0 else 10 * Value(s[..|s| - 1]) + DigitValue(s[|s| - 1])
  }

  /** The shortest decimal rendering of `n`: at least one digit, and no
      leading zero unless `n` is zero itself. */
  function Show(n: nat): (s: string)
    ensures 1 <= |s| && IsDigits(s)
    ensures n > 0 ==> s[0] != '0'
  {
    if n < 10 then [DigitChar(n)] else Show(n / 10) + [DigitChar(n % 10)]
  }

  /** Reading back what `Show` writes gives the number again. */
  lemma {:induction false} ValueOfShow(n: nat)
    ensures Value(Show(n)) == n
  {
    if n >= 10 {
      var s := Show(n / 10);
      ValueOfShow(n / 10);
      assert (s + [DigitChar(n % 10)])[..|s|] == s;
    }
  }

  /** Distinct numbers have distinct renderings. */
  lemma ShowInjective(a: nat, b: nat)
    requires Show(a) == Show(b)
    ensures a == b
  {
    ValueOfShow(a);
    ValueOfShow(b);
  }

  /** A rendered number holds no character other than a digit, so in
      particular no '/' or '.' separator. */
  lemma ShowHasNoSeparator(n: nat, sep: char)
    requires !IsDigit(sep)
    ensures sep !in Show(n)
  {
    var s := Show(n);
    forall i | 0 <= i < |s|
      ensures s[i] != sep
    {
      assert IsDigit(s[i]);
    }
  }
}
