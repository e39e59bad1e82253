/** Decimal text of an integer, as Python's `str` and `json.dumps` print it. */
module Digits {

  function Digit(d: nat): char
    requires d < 10
  {
    ('0' as int + d) as char
  }

  function Decimal(n: nat): (s: string)
    ensures |s| >= 1
  {
    if n < 10 then [Digit(n)] else Decimal(n / 10) + [Digit(n % 10)]
  }

  function Integer(n: int): string {
    if n < 0 then "-" + Decimal(-n) else Decimal(n)
  }

  /** The number a decimal text denotes. */
  function ValueOf(s: string): int {
    if s == "" then 0 else 10 * ValueOf(s[..|s| - 1]) + (s[|s| - 1] as int - '0' as int)
  }

  lemma {:induction false} DecimalRoundTrip(n: nat)
    ensures ValueOf(Decimal(n)) == n
  {
    if n < 10 {
      assert Decimal(n)[..0] == "";
    } else {
      DecimalRoundTrip(n / 10);
      assert Decimal(n)[..|Decimal(n)| - 1] == Decimal(n / 10);
    }
  }

  /** A longer number never prints shorter. */
  lemma {:induction false} DecimalMonotone(a: nat, b: nat)
    requires a <= b
    ensures |Decimal(a)| <= |Decimal(b)|
  {
    if a >= 10 {
      DecimalMonotone(a / 10, b / 10);
    }
  }

  /** The digit count grows so slowly that adding it to a base has a fixed point below twice the base. */
  lemma {:induction false} DecimalShort(n: nat)
    ensures |Decimal(n)| <= n / 2 + 1
  {
    if n >= 10 {
      DecimalShort(n / 10);
    }
  }

  /** A number is printed with a sign just when it is negative, and without a leading zero but for zero itself. */
  lemma IntegerIsPlain(n: int)
    ensures Integer(n)[0] == '-' <==> n < 0
    ensures n != 0 ==> Integer(n)[if n < 0 then 1 else 0] != '0'
    ensures Integer(0) == "0"
  {
    if n != 0 { NoLeadingZero(if n < 0 then -n else n); }
  }

  lemma {:induction false} NoLeadingZero(n: nat)
    requires n > 0
    ensures '1' <= Decimal(n)[0] <= '9'
  {
    if n >= 10 { NoLeadingZero(n / 10); }
  }
}
