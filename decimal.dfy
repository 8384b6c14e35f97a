/** Base-10 rendering of an unsigned integer, as `Print::print(uint8_t)` and
    `Print::println(uint8_t)` write a command ID to the display and to the
    status channel, together with the reading-back that shows the rendering
    loses nothing. */
module Decimal {

  predicate IsDigit(c: char) {
    '0' <= c <= '9'
  }

  predicate AllDigits(s: string) {
    forall i :: 0 <= i < |s| ==> IsDigit(s[i])
  }

  function DigitChar(d: nat): (c: char)
    requires d < 10
    ensures IsDigit(c)
    ensures DigitValue(c) == d
  {
    ('0' as int + d) as char
  }

  function DigitValue(c: char): (d: nat)
    requires IsDigit(c)
    ensures d < 10
  {
    c as int - '0' as int
  }

  /** The decimal digits of `n`, most significant first, without leading zeros. */
  function Digits(n: nat): (s: string)
    ensures 1 <= |s| && AllDigits(s)
    ensures s[0] == '0' <==> n == 0
    ensures n < 10 ==> |s| == 1
    ensures n < 100 ==> |s| <= 2
    ensures n < 1000 ==> |s| <= 3
  {
    if n < 10 then [DigitChar(n)] else Digits(n / 10) + [DigitChar(n % 10)]
  }

  /** The number a string of decimal digits denotes. */
  function Value(s: string): nat
    requires AllDigits(s)
  {
    if s == [] then 0 else Value(s[..|s| - 1]) * 10 + DigitValue(s[|s| - 1])
  }

  /** Rendering a number and reading it back gives the number again. */
  lemma {:induction false} ValueOfDigits(n: nat)
    ensures Value(Digits(n)) == n
  {
    if n >= 10 {
      var s := Digits(n);
      assert s[..|s| - 1] == Digits(n / 10);
      ValueOfDigits(n / 10);
    }
  }

  /** The longest prefix of `s` made of decimal digits. */
  function LeadingDigits(s: string): (p: string)
    ensures AllDigits(p) && p <= s
    ensures p == s || !IsDigit(s[|p|])
  {
    if s == [] || !IsDigit(s[0]) then [] else [s[0]] + LeadingDigits(s[1..])
  }

  /** A run of digits followed by anything that does not start with a digit
      is read back as exactly that run. */
  lemma {:induction false} LeadingDigitsOfConcat(d: string, t: string)
    requires AllDigits(d)
    requires t == [] || !IsDigit(t[0])
    ensures LeadingDigits(d + t) == d
  {
    if d != [] {
      assert (d + t)[1..] == d[1..] + t;
      LeadingDigitsOfConcat(d[1..], t);
    } else {
      assert d + t == t;
    }
  }
}
