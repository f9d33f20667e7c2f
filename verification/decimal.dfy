/**
  Rendering of numbers as text, as Go's `fmt` does it for the verbs the
  channel uses: the decimal digits of an integer, and `%0.0f` for a float64
  (round to the nearest integer, ties to even, keeping the sign of a
  negative value that rounds to zero).
*/
module Decimal {

  predicate IsDigit(c: char) {
    '0' <= c <= '9'
  }

  predicate AllDigits(s: string) {
    forall i :: 0 <= i < |s| ==> IsDigit(s[i])
  }

  function DigitChar(d: nat): (c: char)
    requires d < 10
    ensures IsDigit(c)
  {
    ('0' as int + d) as char
  }

  function DigitValue(c: char): (d: nat)
    requires IsDigit(c)
    ensures d < 10
  {
    c as int - '0' as int
  }

  /** The shortest decimal text of `n`: digits only, no leading zero. */
  function Digits(n: nat): (s: string)
    ensures |s| > 0 && AllDigits(s)
    ensures s[0] == '0' ==> n == 0 && |s| == 1
  {
    if n < 10 then [DigitChar(n)] else Digits(n / 10) + [DigitChar(n % 10)]
  }

  /** Reads a string of decimal digits back as a number (the inverse of `Digits`). */
  function ParseDigits(s: string): nat
    requires AllDigits(s)
  {
    if |s| == 0 then 0 else 10 * ParseDigits(s[..|s| - 1]) + DigitValue(s[|s| - 1])
  }

  /** `Digits` loses nothing: parsing its text gives the number back. */
  lemma {:induction false} ParseDigitsOfDigits(n: nat)
    ensures ParseDigits(Digits(n)) == n
  {
    if n >= 10 {
      var s := Digits(n);
      assert s[..|s| - 1] == Digits(n / 10);
      ParseDigitsOfDigits(n / 10);
    }
  }

  /** `Digits` is one-to-one: distinct numbers get distinct texts. */
  lemma DigitsInjective(m: nat, n: nat)
    requires Digits(m) == Digits(n)
    ensures m == n
  {
    ParseDigitsOfDigits(m);
    ParseDigitsOfDigits(n);
  }

  /** Decimal text of a signed integer, with a leading '-' when negative. */
  function IntText(n: int): string {
    if n < 0 then "-" + Digits(-n) else Digits(n)
  }

  /** Decimal digits, optionally after a leading '-'. */
  predicate IsIntText(s: string) {
    && |s| > 0
    && (s[0] == '-' ==> AllDigits(s[1..]))
    && (s[0] != '-' ==> AllDigits(s))
  }

  /** The digits of a signed decimal text, without its sign. */
  function Magnitude(s: string): string
    requires |s| > 0
  {
    if s[0] == '-' then s[1..] else s
  }

  /** Reads a possibly signed decimal text back as an integer. */
  function ParseInt(s: string): int
    requires IsIntText(s)
  {
    if s[0] == '-' then -(ParseDigits(s[1..]) as int) else ParseDigits(s)
  }

  /** The nearest integer to `v`; a tie goes to the even neighbour. */
  function RoundHalfEven(v: real): (n: int)
    ensures v - 0.5 <= n as real <= v + 0.5
    ensures (n as real == v - 0.5 || n as real == v + 0.5) ==> n % 2 == 0
  {
    var f := v.Floor;
    var frac := v - f as real;
    if frac < 0.5 then f
    else if frac > 0.5 then f + 1
    else if f % 2 == 0 then f
    else f + 1
  }

  /**
    Go's `fmt.Sprintf("%0.0f", v)` for a finite float64 `v`: the rounded
    integer in decimal, and "-0" for a negative value that rounds to zero.
  */
  function FormatFixed0(v: real): (s: string)
    ensures IsIntText(s)
    ensures s[0] == '-' <==> v < 0.0
    ensures ParseInt(s) == RoundHalfEven(v)
    ensures |Magnitude(s)| > 0 && (Magnitude(s)[0] == '0' ==> |Magnitude(s)| == 1)
  {
    var n := RoundHalfEven(v);
    ParseDigitsOfDigits(if n < 0 then -n else n);
    if n < 0 then
      assert ("-" + Digits(-n))[1..] == Digits(-n);
      "-" + Digits(-n)
    else if v < 0.0 then
      assert "-0"[1..] == Digits(0);
      "-0"
    else
      Digits(n)
  }
}
