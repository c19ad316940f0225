// Numeric conventions shared by the model.
//
// Floating-point values (`f32`, `f64`, Python `float`) are modelled as `real`.
// Integers are unbounded; the source's fixed widths are stated as subset types
// where a conversion depends on them.
module Num {
  type Int32 = x: int | -0x8000_0000 <= x < 0x8000_0000

  /** Division where a zero divisor yields 0 instead of an IEEE infinity or NaN. */
  function Div(a: real, b: real): (q: real)
    ensures b != 0.0 ==> q * b == a
    ensures b == 0.0 ==> q == 0.0
  {
    if b == 0.0 then 0.0 else a / b
  }

  function Abs(x: real): (r: real)
    ensures r >= 0.0 && (r == x || r == -x)
  {
    if x < 0.0 then -x else x
  }

  /** Rust's `x as i32` for a float: truncation toward zero, saturating at the i32 bounds. */
  function AsI32(x: real): (r: Int32)
    ensures -0x8000_0000 as real <= x < 0x8000_0000 as real ==> (r as real) <= x + 1.0 && x - 1.0 <= r as real
    ensures x >= 0.0 && x < 0x8000_0000 as real ==> r as real <= x < r as real + 1.0
    ensures x >= 0x8000_0000 as real ==> r == 0x7fff_ffff
    ensures x <= -0x8000_0000 as real ==> r == -0x8000_0000
  {
    if x >= 0x7fff_ffff as real then 0x7fff_ffff
    else if x <= -0x8000_0000 as real then -0x8000_0000
    else if x >= 0.0 then x.Floor
    else -((-x).Floor)
  }
}
