/** Decimal rendering of integers, as JavaScript's `String(n)` produces it for an integer-valued
    number of moderate size, and its inverse. */
module Decimal {

  predicate IsDigit(c: char) {
    '0' <= c <= '9'
  }

  predicate AllDigits(s: string) {
    forall i :: 0 <= i < |s| ==> IsDigit(s[i])
  }

  function DigitChar(d: nat): (c: char)
    requires d < 10
    ensures IsDigit(c) && c as int - '0' as int == d
  {
    ('0' as int + d) as char
  }

  /** Digits of a natural number, most significant first, without leading zeros. */
  function NatDigits(n: nat): (s: string)
    ensures |s| >= 1 && AllDigits(s)
    ensures s[0] == '0' ==> n == 0
    decreases n
  {
    if n < 10 then [DigitChar(n)] else NatDigits(n / 10) + [DigitChar(n % 10)]
  }

  /** The value of a string of decimal digits. */
  function DigitsValue(s: string): nat
    requires AllDigits(s)
    decreases |s|
  {
    if s == [] then 0 else DigitsValue(s[..|s| - 1]) * 10 + (s[|s| - 1] as int - '0' as int)
  }

  /** `String(n)` for an integer `n`: an optional minus sign followed by the digits of `|n|`. */
  function NumberString(n: int): (s: string)
  {
    if n < 0 then "-" + NatDigits(-n) else NatDigits(n)
  }

  /** Characters `NumberString` can produce. */
  predicate IsNumberChar(c: char) {
    IsDigit(c) || c == '-'
  }

  /** Reads back what `NumberString` wrote. */
  function ParseNumber(s: string): int
  {
    if |s| > 0 && s[0] == '-' && AllDigits(s[1..]) then -(DigitsValue(s[1..]) as int)
    else if AllDigits(s) then DigitsValue(s)
    else 0
  }

  lemma {:induction false} NatDigitsRoundTrip(n: nat)
    ensures DigitsValue(NatDigits(n)) == n
    decreases n
  {
    if n >= 10 {
      var s := NatDigits(n);
      NatDigitsRoundTrip(n / 10);
      assert s[..|s| - 1] == NatDigits(n / 10);
    }
  }

  /** The rendering is never empty, uses only digits and '-', starts with '-' exactly for
      negative numbers, and reads back to the number it came from. */
  lemma NumberStringShape(n: int)
    ensures |NumberString(n)| >= 1
    ensures forall i :: 0 <= i < |NumberString(n)| ==> IsNumberChar(NumberString(n)[i])
    ensures NumberString(n)[0] == '-' <==> n < 0
    ensures ParseNumber(NumberString(n)) == n
  {
    var s := NumberString(n);
    if n < 0 {
      assert s[1..] == NatDigits(-n);
      NatDigitsRoundTrip(-n);
    } else {
      NatDigitsRoundTrip(n);
    }
  }

  /** Distinct numbers render differently, so a resolved address determines its coordinates. */
  lemma NumberStringInjective(m: int, n: int)
    requires NumberString(m) == NumberString(n)
    ensures m == n
  {
    NumberStringShape(m);
    NumberStringShape(n);
  }
}
