/** String helpers shared by the store and the checkout route: prefix tests and the decimal
    rendering JavaScript gives to a non-negative integer (a millisecond clock reading). */
module Text {

  /** `s.startsWith(prefix)` */
  predicate StartsWith(s: string, prefix: string) {
    |prefix| <= |s| && s[..|prefix|] == prefix
  }

  predicate IsDigit(c: char) {
    '0' <= c <= '9'
  }

  predicate AllDigits(s: string) {
    forall i :: 0 <= i < |s| ==> IsDigit(s[i])
  }

  function DigitChar(d: nat): (c: char)
    requires d < 10
    ensures IsDigit(c) && DigitValue(c) == d
  {
    (('0' as int) + d) as char
  }

  function DigitValue(c: char): int {
    (c as int) - ('0' as int)
  }

  /** `${n}` for a natural number below 10^21: its decimal digits, most significant first,
      without leading zeros. */
  function NatToDecimal(n: nat): (s: string)
    ensures |s| > 0 && AllDigits(s)
    ensures |s| > 1 ==> s[0] != '0'
    decreases n
  {
    if n < 10 then [DigitChar(n)] else NatToDecimal(n / 10) + [DigitChar(n % 10)]
  }

  /** The number a string of decimal digits denotes (the reading direction of NatToDecimal). */
  function DecimalValue(s: string): int {
    if s == [] then 0 else DecimalValue(s[..|s| - 1]) * 10 + DigitValue(s[|s| - 1])
  }

  lemma {:induction false} DecimalRoundTrip(n: nat)
    ensures DecimalValue(NatToDecimal(n)) == n
    decreases n
  {
    var s := NatToDecimal(n);
    if n >= 10 {
      DecimalRoundTrip(n / 10);
      assert s[..|s| - 1] == NatToDecimal(n / 10);
    }
  }

  /** Two different natural numbers never render to the same string. */
  lemma DecimalInjective(m: nat, n: nat)
    requires NatToDecimal(m) == NatToDecimal(n)
    ensures m == n
  {
    DecimalRoundTrip(m);
    DecimalRoundTrip(n);
  }

  /** A string `p + "-" + d` whose tail `d` is all digits determines `p` and `d`:
      the separator is the last '-' of the string. */
  lemma {:induction false} SplitAtLastDash(p1: string, d1: string, p2: string, d2: string)
    requires AllDigits(d1) && AllDigits(d2)
    requires p1 + "-" + d1 == p2 + "-" + d2
    ensures p1 == p2 && d1 == d2
  {
    var s := p1 + "-" + d1;
    assert s[|p1|] == '-' && s[|p1| + 1..] == d1;
    assert s[|p2|] == '-' && s[|p2| + 1..] == d2;
    assert !IsDigit('-');
    assert p1 == s[..|p1|] && p2 == s[..|p2|];
  }
}
