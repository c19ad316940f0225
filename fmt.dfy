// Decimal rendering of integers, as `format!("{}", v)` prints them.
module Fmt {
  function DigitChar(d: nat): (c: char)
    requires d < 10
    ensures '0' <= c <= '9'
  {
    ['0', '1', '2', '3', '4', '5', '6', '7', '8', '9'][d]
  }

  /** The decimal digits of n, most significant first, without leading zeros. */
  function NatToString(n: nat): (s: string)
    ensures |s| >= 1 && (forall i :: 0 <= i < |s| ==> '0' <= s[i] <= '9')
    ensures |s| > 1 ==> s[0] != '0'
  {
    if n < 10 then [DigitChar(n)] else NatToString(n / 10) + [DigitChar(n % 10)]
  }

  /** `{}` of an integer: a minus sign for negatives, then the digits of its magnitude. */
  function IntToString(v: int): (s: string)
    ensures |s| >= 1 && (v < 0 <==> s[0] == '-')
  {
    if v < 0 then "-" + NatToString(-v) else NatToString(v)
  }
}
