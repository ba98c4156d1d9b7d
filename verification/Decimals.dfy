/** Numbers written in decimal, as header fields carry them. */
module Decimals {
  import opened Basics

  function Digit(d: nat): char
    requires d < 10
  {
    '0' + d as char
  }

  /** `Integer#to_s`. */
  function Decimal(n: nat): string
    decreases n
  {
    (if n < 10 then "" else Decimal(n / 10)) + [Digit(n % 10)]
  }

  /** The number that decimal digits say, as in a content-length (section 8.6 of RFC 9110). */
  function Number(digits: string): int
    decreases |digits|
  {
    if digits == [] then 0 else 10 * Number(Front(digits)) + (Last(digits) as int - '0' as int)
  }

  lemma NumberSnoc(digits: string, d: nat)
    requires d < 10
    ensures Number(digits + [Digit(d)]) == 10 * Number(digits) + d
  {
    assert Front(digits + [Digit(d)]) == digits;
  }

  lemma {:induction false} DecimalSaysItsNumber(n: nat)
    ensures Number(Decimal(n)) == n
    decreases n
  {
    var tens, ones := n / 10, n % 10;
    assert n == 10 * tens + ones;
    if n < 10 {
      NumberSnoc([], ones);
      assert [] + [Digit(ones)] == Decimal(n);
    } else {
      DecimalSaysItsNumber(tens);
      NumberSnoc(Decimal(tens), ones);
    }
  }
}
