/** Decimal numerals: digits, canonical printing, and the value of a digit string. */
module Decimal {

  predicate IsDigit(c: char)
  {
    '0' <= c <= '9'
  }

  predicate AllDigits(s: string)
  {
    forall i :: 0 <= i < |s| ==> IsDigit(s[i])
  }

  function DigitValue(c: char): (d: nat)
    requires IsDigit(c)
    ensures d < 10
  {
    (c - '0') as nat
  }

  function Digit(d: nat): (c: char)
    requires d < 10
    ensures IsDigit(c) && DigitValue(c) == d
  {
    '0' + d as char
  }

  function NatToString(n: nat): (s: string)
    ensures s != [] && AllDigits(s)
  {
    if n < 10 then [Digit(n)] else NatToString(n / 10) + [Digit(n % 10)]
  }

  function DecimalValue(s: string): (n: nat)
    requires AllDigits(s)
  {
    if s == [] then 0
    else
      assert IsDigit(s[|s| - 1]);
      DecimalValue(s[..|s| - 1]) * 10 + DigitValue(s[|s| - 1])
  }

  function Zeros(k: nat): (s: string)
    ensures |s| == k && AllDigits(s)
  {
    if k == 0 then [] else Zeros(k - 1) + ['0']
  }

  /** A numeral for `n`: its canonical digits behind any number of zeros. */
  ghost predicate IsNumeral(s: string, n: nat)
  {
    exists k: nat :: s == Zeros(k) + NatToString(n)
  }

  lemma ValueOfAppend(s: string, c: char)
    requires AllDigits(s) && IsDigit(c)
    ensures AllDigits(s + [c]) && DecimalValue(s + [c]) == 10 * DecimalValue(s) + DigitValue(c)
  {
    assert (s + [c])[..|s|] == s;
  }

  lemma {:induction false} ZerosCountNothing(k: nat)
    ensures DecimalValue(Zeros(k)) == 0
  {
    if k > 0 {
      ZerosCountNothing(k - 1);
      ValueOfAppend(Zeros(k - 1), '0');
    }
  }

  /** Leading zeros apart, printing and reading are inverse. */
  lemma {:induction false} NumeralHasItsValue(k: nat, n: nat)
    ensures AllDigits(Zeros(k) + NatToString(n)) && DecimalValue(Zeros(k) + NatToString(n)) == n
  {
    if n < 10 {
      ZerosCountNothing(k);
      ValueOfAppend(Zeros(k), Digit(n));
    } else {
      NumeralHasItsValue(k, n / 10);
      ValueOfAppend(Zeros(k) + NatToString(n / 10), Digit(n % 10));
      assert Zeros(k) + NatToString(n) == Zeros(k) + NatToString(n / 10) + [Digit(n % 10)];
    }
  }

  lemma {:induction false} DigitsAreANumeral(s: string) returns (k: nat)
    requires s != [] && AllDigits(s)
    ensures s == Zeros(k) + NatToString(DecimalValue(s))
  {
    var front, c := s[..|s| - 1], s[|s| - 1];
    assert s == front + [c] && IsDigit(c);
    ValueOfAppend(front, c);
    assert Digit(DigitValue(c)) == c;
    if front == [] {
      k := 0;
    } else {
      k := DigitsAreANumeral(front);
      var v := DecimalValue(front);
      if v == 0 {
        assert NatToString(0) == ['0'];
        k := k + 1;
      } else {
        var n := 10 * v + DigitValue(c);
        assert n / 10 == v && n % 10 == DigitValue(c);
      }
    }
  }

  /** Digit strings are exactly the numerals, each of its own value. */
  lemma NumeralsAreDigitStrings(s: string, n: nat)
    ensures IsNumeral(s, n) <==> s != [] && AllDigits(s) && DecimalValue(s) == n
  {
    if IsNumeral(s, n) {
      var k: nat :| s == Zeros(k) + NatToString(n);
      NumeralHasItsValue(k, n);
    }
    if s != [] && AllDigits(s) {
      var k := DigitsAreANumeral(s);
    }
  }
}
