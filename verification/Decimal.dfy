/** Decimal rendering of integers, as strconv.Itoa and fmt's %d produce it. */
module Decimal {

  predicate IsDigit(c: char) { '0' <= c <= '9' }

  function DigitOf(d: nat): char
    requires d < 10
  {
    '0' + d as char
  }

  function Digits(n: nat): string {
    if n < 10 then [DigitOf(n)] else Digits(n / 10) + [DigitOf(n % 10)]
  }

  function Itoa(n: int): string {
    if n < 0 then "-" + Digits(-n) else Digits(n)
  }

  /** Left inverse of Digits: positional value, most significant digit first. */
  function Value(s: string): nat
    requires forall c :: c in s ==> IsDigit(c)
  {
    if s == "" then 0
    else assert IsDigit(s[|s| - 1]); 10 * Value(s[..|s| - 1]) + (s[|s| - 1] as int - '0' as int)
  }

  /** Every rendering is a non-empty run of digits that reads back as the number,
      with no leading zero except for zero itself. */
  lemma {:induction false} DigitsRoundTrip(n: nat)
    ensures Digits(n) != ""
    ensures forall c :: c in Digits(n) ==> IsDigit(c)
    ensures Value(Digits(n)) == n
    ensures Digits(n)[0] == '0' <==> n == 0
  {
    if n >= 10 {
      DigitsRoundTrip(n / 10);
      assert Digits(n)[..|Digits(n)| - 1] == Digits(n / 10);
    }
  }

  /** The number of digits is what the size of the number allows. */
  lemma {:induction false} DigitsLength(n: nat)
    ensures |Digits(n)| == 1 <==> n < 10
    ensures |Digits(n)| <= 5 <==> n < 100000
    ensures n >= 10 ==> |Digits(n)| == 1 + |Digits(n / 10)|
  {
    if n >= 10 {
      DigitsLength(n / 10);
      if n >= 100 { DigitsLength(n / 100); assert n / 10 / 10 == n / 100;
        if n >= 1000 { DigitsLength(n / 1000); assert n / 100 / 10 == n / 1000;
          if n >= 10000 { DigitsLength(n / 10000); assert n / 1000 / 10 == n / 10000; } } }
    }
  }

  lemma DigitsInjective(a: nat, b: nat)
    requires Digits(a) == Digits(b)
    ensures a == b
  {
    DigitsRoundTrip(a);
    DigitsRoundTrip(b);
  }
}
