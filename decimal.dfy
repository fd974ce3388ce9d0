/**
 * Decimal rendering of an integer, as `strconv.Itoa` and the `%d` verb of
 * `fmt.Sprintf` write it: an optional '-' followed by the digits of the
 * magnitude, without leading zeros. `ParseDecimal` reads it back.
 */
module Decimal {

  predicate IsDigit(c: char)
  {
    '0' <= c <= '9'
  }

  ghost predicate AllDigits(s: string)
  {
    forall i :: 0 <= i < |s| ==> IsDigit(s[i])
  }

  function DigitChar(d: nat): (c: char)
    requires d < 10
    ensures IsDigit(c) && c as int - '0' as int == d
  {
    "0123456789"[d]
  }

  /** The digits of `n`, most significant first. */
  function Digits(n: nat): (text: string)
    decreases n
  {
    if n < 10 then [DigitChar(n)] else Digits(n / 10) + [DigitChar(n % 10)]
  }

  function Itoa(n: int): (text: string)
  {
    if n < 0 then "-" + Digits(-n) else Digits(n)
  }

  /** The value of a string of digits. */
  function DigitsValue(s: string): nat
    decreases |s|
  {
    if s == [] then 0
    else if IsDigit(s[|s| - 1]) then DigitsValue(s[..|s| - 1]) * 10 + (s[|s| - 1] as int - '0' as int)
    else DigitsValue(s[..|s| - 1]) * 10
  }

  function ParseDecimal(s: string): int
  {
    if s != [] && s[0] == '-' then 0 - DigitsValue(s[1..]) as int else DigitsValue(s)
  }

  lemma {:induction false} DigitsRoundTrip(n: nat)
    ensures |Digits(n)| >= 1 && AllDigits(Digits(n))
    ensures DigitsValue(Digits(n)) == n
    decreases n
  {
    if n >= 10 {
      DigitsRoundTrip(n / 10);
      var s := Digits(n);
      assert s[..|s| - 1] == Digits(n / 10);
    }
  }

  /** Rendering and reading back are inverse, so `Itoa` is injective. */
  lemma ItoaRoundTrip(n: int)
    ensures ParseDecimal(Itoa(n)) == n
    ensures |Itoa(n)| >= 1
    ensures n >= 0 ==> AllDigits(Itoa(n))
    ensures n < 0 ==> Itoa(n)[0] == '-' && AllDigits(Itoa(n)[1..])
  {
    if n < 0 {
      DigitsRoundTrip(-n);
      assert Itoa(n)[1..] == Digits(-n);
    } else {
      DigitsRoundTrip(n);
    }
  }

  lemma ItoaInjective(a: int, b: int)
    requires Itoa(a) == Itoa(b)
    ensures a == b
  {
    ItoaRoundTrip(a);
    ItoaRoundTrip(b);
  }

  /** No character of a rendered integer is a separator of a URL. */
  lemma ItoaCharacters(n: int)
    ensures forall i :: 0 <= i < |Itoa(n)| ==> IsDigit(Itoa(n)[i]) || (i == 0 && Itoa(n)[i] == '-')
  {
    ItoaRoundTrip(n);
  }
}
