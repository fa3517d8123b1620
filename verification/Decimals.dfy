/** Integers in decimal, as Python writes them. */
module Decimals {

  function Digits(n: nat): string {
    (if n < 10 then "" else Digits(n / 10)) + [(n % 10) as char + '0']
  }

  /** Python's `str` of an integer. */
  function Decimal(v: int): string {
    if v < 0 then "-" + Digits(-v) else Digits(v)
  }

  predicate DigitChar(c: char) {
    '0' <= c <= '9'
  }

  lemma {:induction false} DigitsAreDigits(n: nat)
    ensures Digits(n) != "" && forall c :: c in Digits(n) ==> DigitChar(c)
  {
    if n >= 10 {
      DigitsAreDigits(n / 10);
    }
  }

  lemma {:induction false} DigitsInjective(m: nat, n: nat)
    requires Digits(m) == Digits(n)
    ensures m == n
  {
    var s := Digits(m);
    assert s[|s| - 1] == (m % 10) as char + '0' == (n % 10) as char + '0';
    assert m % 10 == n % 10;
    var front := s[..|s| - 1];
    if m >= 10 {
      assert front == Digits(m / 10);
      DigitsAreDigits(m / 10);
    }
    if n >= 10 {
      assert front == Digits(n / 10);
      DigitsAreDigits(n / 10);
    }
    if m >= 10 && n >= 10 {
      DigitsInjective(m / 10, n / 10);
    }
  }

  lemma DecimalHead(v: int)
    ensures Decimal(v) != "" && (Decimal(v)[0] == '-' <==> v < 0)
  {
    if v >= 0 {
      DigitsAreDigits(v);
      assert Digits(v)[0] in Digits(v);
    }
  }

  lemma DecimalInjective(v: int, w: int)
    requires Decimal(v) == Decimal(w)
    ensures v == w
  {
    DecimalHead(v);
    DecimalHead(w);
    if v < 0 {
      assert Decimal(v)[1..] == Digits(-v) && Decimal(w)[1..] == Digits(-w);
      DigitsInjective(-v, -w);
    } else {
      DigitsInjective(v, w);
    }
  }
}
