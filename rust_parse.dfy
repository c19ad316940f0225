// Rust's `str::parse` for signed integers (`i32`, `i64`), which the strategy
// parameters and the command line rely on: an optional sign, then one or more
// ASCII digits, accumulated left to right with an overflow check at each step.
module RustParse {
  import opened Wrappers

  /** `std::num::IntErrorKind`, the reason a parse failed. */
  datatype IntErrorKind = Empty | InvalidDigit | PosOverflow | NegOverflow

  const I32Min: int := -0x8000_0000
  const I32Max: int := 0x7fff_ffff
  const I64Min: int := -0x8000_0000_0000_0000
  const I64Max: int := 0x7fff_ffff_ffff_ffff

  predicate IsDigit(c: char) { '0' <= c <= '9' }

  predicate AllDigits(ds: string)
  {
    forall i :: 0 <= i < |ds| ==> IsDigit(ds[i])
  }

  function DigitValue(c: char): (d: int)
    requires IsDigit(c)
    ensures 0 <= d <= 9
  {
    c as int - '0' as int
  }

  function Pow10(n: nat): (p: int)
    ensures p >= 1
  {
    if n == 0 then 1 else 10 * Pow10(n - 1)
  }

  /** The number a string of decimal digits denotes (most significant first). */
  function DigitsValue(ds: string): (v: int)
    requires AllDigits(ds)
    ensures v >= 0
  {
    if ds == [] then 0 else DigitValue(ds[0]) * Pow10(|ds| - 1) + DigitsValue(ds[1..])
  }

  /** The textual form the parser accepts: an optional sign and at least one digit. */
  predicate IsIntLiteral(s: string)
  {
    if |s| > 0 && (s[0] == '+' || s[0] == '-') then |s| > 1 && AllDigits(s[1..])
    else |s| > 0 && AllDigits(s)
  }

  /** The value of an integer literal. */
  function LiteralValue(s: string): int
    requires IsIntLiteral(s)
  {
    if s[0] == '-' then -DigitsValue(s[1..])
    else if s[0] == '+' then DigitsValue(s[1..])
    else DigitsValue(s)
  }

  /** The digit loop: one digit at a time, stopping at the first bad digit or overflow. */
  function ParseDigits(ds: string, acc: int, negative: bool, lo: int, hi: int): Result<int, IntErrorKind>
    decreases |ds|
  {
    if ds == [] then Ok(acc)
    else if !IsDigit(ds[0]) then Err(InvalidDigit)
    else
      var next := if negative then acc * 10 - DigitValue(ds[0]) else acc * 10 + DigitValue(ds[0]);
      if next > hi then Err(PosOverflow)
      else if next < lo then Err(NegOverflow)
      else ParseDigits(ds[1..], next, negative, lo, hi)
  }

  /**
   * `s.parse::<T>()` for a signed integer type with range lo..=hi. It succeeds
   * exactly on an integer literal whose value is in range, and then yields
   * that value.
   */
  function ParseInt(s: string, lo: int, hi: int): (r: Result<int, IntErrorKind>)
    requires lo < 0 < hi
    ensures r.Ok? <==> IsIntLiteral(s) && lo <= LiteralValue(s) <= hi
    ensures r.Ok? ==> r.value == LiteralValue(s)
    ensures s == [] ==> r == Err(Empty)
  {
    if s == [] then Err(Empty)
    else if (s[0] == '+' || s[0] == '-') && |s| == 1 then Err(InvalidDigit)
    else
      var negative := s[0] == '-';
      var ds := if s[0] == '+' || s[0] == '-' then s[1..] else s;
      ParseDigitsCorrect(ds, 0, negative, lo, hi);
      ParseDigits(ds, 0, negative, lo, hi)
  }

  /**
   * The digit loop accepts exactly the all-digit strings whose accumulated
   * value stays in range, because the partial values move monotonically away
   * from zero.
   */
  lemma {:induction false} ParseDigitsCorrect(ds: string, acc: int, negative: bool, lo: int, hi: int)
    requires lo <= acc <= hi
    requires negative ==> acc <= 0
    requires !negative ==> acc >= 0
    ensures var r := ParseDigits(ds, acc, negative, lo, hi);
      r.Ok? <==> AllDigits(ds) && lo <= Final(ds, acc, negative) <= hi
    ensures var r := ParseDigits(ds, acc, negative, lo, hi);
      r.Ok? ==> r.value == Final(ds, acc, negative)
    decreases |ds|
  {
    if ds == [] {
      assert Final(ds, acc, negative) == acc;
    } else if IsDigit(ds[0]) {
      var next := if negative then acc * 10 - DigitValue(ds[0]) else acc * 10 + DigitValue(ds[0]);
      FinalStep(ds, acc, negative);
      if lo <= next <= hi {
        ParseDigitsCorrect(ds[1..], next, negative, lo, hi);
      } else if AllDigits(ds) {
        FinalAway(ds[1..], next, negative);
      }
    }
  }

  /** The value the digit loop ends with when every character is a digit. */
  function Final(ds: string, acc: int, negative: bool): int
  {
    if AllDigits(ds) then
      (if negative then acc * Pow10(|ds|) - DigitsValue(ds) else acc * Pow10(|ds|) + DigitsValue(ds))
    else acc
  }

  /** Consuming one leading digit moves it from the string into the accumulator. */
  lemma FinalStep(ds: string, acc: int, negative: bool)
    requires ds != [] && IsDigit(ds[0])
    ensures AllDigits(ds) <==> AllDigits(ds[1..])
    ensures AllDigits(ds) ==>
      Final(ds, acc, negative) == Final(ds[1..], if negative then acc * 10 - DigitValue(ds[0]) else acc * 10 + DigitValue(ds[0]), negative)
  {
    var rest := ds[1..];
    assert AllDigits(rest) ==> AllDigits(ds) by {
      if AllDigits(rest) {
        forall i | 0 <= i < |ds| ensures IsDigit(ds[i]) {
          if i > 0 { assert ds[i] == rest[i - 1]; }
        }
      }
    }
    if AllDigits(ds) {
      var d := DigitValue(ds[0]);
      var p := Pow10(|rest|);
      assert Pow10(|ds|) == 10 * p;
      assert DigitsValue(ds) == d * p + DigitsValue(rest);
      assert acc * (10 * p) == (acc * 10) * p;
      assert (acc * 10 + d) * p == (acc * 10) * p + d * p;
      assert (acc * 10 - d) * p == (acc * 10) * p - d * p;
    }
  }

  /** The remaining digits only move the value further from zero. */
  lemma FinalAway(ds: string, x: int, negative: bool)
    requires AllDigits(ds)
    requires negative ==> x <= 0
    requires !negative ==> x >= 0
    ensures !negative ==> Final(ds, x, negative) >= x
    ensures negative ==> Final(ds, x, negative) <= x
  {
    var p := Pow10(|ds|);
    if negative {
      assert x * p <= x * 1;
    } else {
      assert x * p >= x * 1;
    }
  }

  /** `s.parse::<i32>()`. */
  function ParseI32(s: string): (r: Result<int, IntErrorKind>)
    ensures r.Ok? <==> IsIntLiteral(s) && I32Min <= LiteralValue(s) <= I32Max
    ensures r.Ok? ==> r.value == LiteralValue(s)
  {
    ParseInt(s, I32Min, I32Max)
  }

  /** `s.parse::<i64>()`. */
  function ParseI64(s: string): (r: Result<int, IntErrorKind>)
    ensures r.Ok? <==> IsIntLiteral(s) && I64Min <= LiteralValue(s) <= I64Max
    ensures r.Ok? ==> r.value == LiteralValue(s)
  {
    ParseInt(s, I64Min, I64Max)
  }

  /** The `{:?}` rendering of a `ParseIntError`, as it appears in error messages. */
  function IntErrorDebug(k: IntErrorKind): string
  {
    match k
    case Empty => "ParseIntError { kind: Empty }"
    case InvalidDigit => "ParseIntError { kind: InvalidDigit }"
    case PosOverflow => "ParseIntError { kind: PosOverflow }"
    case NegOverflow => "ParseIntError { kind: NegOverflow }"
  }
}
