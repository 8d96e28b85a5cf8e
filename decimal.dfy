/**
 * `Number.prototype.toString()` on integers: base ten, a leading '-' for
 * negative numbers, no leading zeros. Used for `limit` and `skip`.
 */
module Decimal {
  import opened Wrappers

  predicate IsDigit(c: char) {
    '0' <= c <= '9'
  }

  predicate AllDigits(s: string) {
    forall i :: 0 <= i < |s| ==> IsDigit(s[i])
  }

  function DigitChar(d: nat): (c: char)
    requires d < 10
    ensures IsDigit(c) && (c as int) - ('0' as int) == d
  {
    (('0' as int) + d) as char
  }

  function DigitValue(c: char): nat
    requires IsDigit(c)
  {
    (c as int) - ('0' as int)
  }

  /** The decimal digits of `n`, most significant first. */
  function Digits(n: nat): string
    decreases n
  {
    if n < 10 then [DigitChar(n)] else Digits(n / 10) + [DigitChar(n % 10)]
  }

  /** `String(n)` for an integer `n`: never empty, and it starts with '-' exactly for a negative number. */
  function Show(n: int): (s: string)
    ensures |s| > 0
    ensures s[0] == '-' <==> n < 0
  {
    if n < 0 then "-" + Digits(-n)
    else DigitsWellFormed(n); Digits(n)
  }

  /** The number a string of digits denotes. */
  function DigitsValue(s: string): nat
    requires AllDigits(s)
  {
    if s == [] then 0 else 10 * DigitsValue(s[..|s| - 1]) + DigitValue(s[|s| - 1])
  }

  /** Reads an optionally signed string of digits back as an integer. */
  function Parse(s: string): Option<int> {
    if s != [] && s[0] == '-' && |s| > 1 && AllDigits(s[1..]) then
      var magnitude: int := DigitsValue(s[1..]);
      Some(-magnitude)
    else if s != [] && AllDigits(s) then Some(DigitsValue(s))
    else None
  }

  /** Every digit string is non-empty, all digits, and has no leading zero. */
  lemma {:induction false} DigitsWellFormed(n: nat)
    ensures |Digits(n)| > 0 && AllDigits(Digits(n))
    ensures Digits(n)[0] == '0' ==> n == 0
    ensures n > 0 ==> Digits(n)[0] != '0'
    decreases n
  {
    if n >= 10 {
      DigitsWellFormed(n / 10);
    }
  }

  lemma {:induction false} DigitsRoundTrip(n: nat)
    ensures AllDigits(Digits(n)) && DigitsValue(Digits(n)) == n
    decreases n
  {
    DigitsWellFormed(n);
    if n >= 10 {
      DigitsRoundTrip(n / 10);
      var s := Digits(n);
      assert s[..|s| - 1] == Digits(n / 10);
    }
  }

  /** `Show` is inverted by `Parse`: the decimal string denotes exactly the number it came from. */
  lemma ShowRoundTrip(n: int)
    ensures Parse(Show(n)) == Some(n)
  {
    var s := Show(n);
    if n < 0 {
      var d := Digits(-n);
      DigitsRoundTrip(-n);
      assert s[1..] == d;
      assert s[0] == '-' && |s| > 1;
    } else {
      DigitsRoundTrip(n);
      assert IsDigit(s[0]);
    }
  }

  /** Distinct numbers have distinct decimal strings. */
  lemma ShowInjective(a: int, b: int)
    ensures Show(a) == Show(b) ==> a == b
  {
    ShowRoundTrip(a);
    ShowRoundTrip(b);
  }

  /** The decimal string of an integer is non-empty and is a '-' followed by digits, or digits only; it is never "undefined". */
  lemma ShowWellFormed(n: int)
    ensures |Show(n)| > 0
    ensures n < 0 ==> Show(n)[0] == '-' && AllDigits(Show(n)[1..])
    ensures n >= 0 ==> AllDigits(Show(n))
    ensures Show(n) != "undefined"
  {
    if n < 0 {
      DigitsWellFormed(-n);
      assert Show(n)[1..] == Digits(-n);
    } else {
      DigitsWellFormed(n);
      assert IsDigit(Show(n)[0]);
    }
  }

  lemma ShowExamples()
    ensures Show(0) == "0" && Show(10) == "10" && Show(5) == "5" && Show(-3) == "-3"
  {
  }
}
