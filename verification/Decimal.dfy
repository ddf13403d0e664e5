/** Decimal numerals, as `str(int)` writes them and `int(str)` reads them. */
module Decimal {

  predicate IsDigit(c: char) {
    '0' <= c <= '9'
  }

  predicate AllDigits(s: string) {
    forall i | 0 <= i < |s| :: IsDigit(s[i])
  }

  function DigitChar(d: nat): (c: char)
    requires d < 10
    ensures IsDigit(c)
  {
    ('0' as int + d) as char
  }

  function DigitValue(c: char): nat
    requires IsDigit(c)
  {
    c as int - '0' as int
  }

  function Show(n: nat): (s: string)
    ensures |s| > 0 && AllDigits(s)
    ensures n >= 10 ==> |s| >= 2
  {
    if n < 10 then [DigitChar(n)] else Show(n / 10) + [DigitChar(n % 10)]
  }

  function Value(s: string): nat
    requires AllDigits(s)
  {
    if s == "" then 0 else Value(s[..|s| - 1]) * 10 + DigitValue(s[|s| - 1])
  }

  lemma {:induction false} ValueOfShow(n: nat)
    ensures Value(Show(n)) == n
  {
    if n >= 10 {
      ValueOfShow(n / 10);
      var s := Show(n);
      assert s[..|s| - 1] == Show(n / 10);
    } else {
      assert Show(n)[..0] == "";
    }
  }

  /** A numeral starts with a zero only when it is "0". */
  lemma {:induction false} LeadingDigit(n: nat)
    ensures Show(n)[0] == '0' <==> n == 0
  {
    if n >= 10 {
      LeadingDigit(n / 10);
    }
  }

  /** Two decimal places, as "%02d" writes a number below one hundred. */
  function TwoDigits(n: nat): (s: string)
    requires n < 100
    ensures |s| == 2 && AllDigits(s)
  {
    [DigitChar(n / 10), DigitChar(n % 10)]
  }

  /** The two places are those of the number, behind a zero when it has only one. */
  lemma TwoDigitsText(n: nat)
    requires n < 100
    ensures TwoDigits(n) == if n < 10 then ['0'] + Show(n) else Show(n)
  {
    if n >= 10 {
      assert Show(n) == Show(n / 10) + [DigitChar(n % 10)];
    }
  }

  lemma ValueOfTwoDigits(n: nat)
    requires n < 100
    ensures Value(TwoDigits(n)) == n
  {
    var s := TwoDigits(n);
    var tens := s[..1];
    assert tens == [DigitChar(n / 10)] && tens[..0] == "";
    assert Value(tens) == Value(tens[..0]) * 10 + n / 10;
    assert s[..|s| - 1] == tens;
  }
}
