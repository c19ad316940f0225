// The candle decomposition used by the screening strategies: amplitude of the
// day's range against the previous close, and the upper shadow, body and lower
// shadow as percentages of the day's range.
module Shadow {
  import opened Num

  datatype Decomposition = Decomposition(amplitude: real, upper: real, body: real, lower: real)

  function Max(a: real, b: real): real { if a >= b then a else b }
  function Min(a: real, b: real): real { if a <= b then a else b }

  /**
   * `shadow(last_close, open, close, low, high)`. A flat day (high == low) is
   * all zeros. Otherwise the upper shadow runs from the top of the body to the
   * high, the body spans open..close, and the lower shadow runs from the low
   * to the bottom of the body, each as a percentage of high - low; together
   * they make up the whole range.
   */
  function Shadow(lastClose: real, open: real, close: real, low: real, high: real): (r: Decomposition)
    ensures high == low ==> r == Decomposition(0.0, 0.0, 0.0, 0.0)
    ensures high != low && lastClose != 0.0 ==> r.amplitude * lastClose == (high - low) * 100.0
    ensures high != low ==> r.upper * (high - low) == (high - Max(open, close)) * 100.0
    ensures high != low ==> r.body * (high - low) == Abs(close - open) * 100.0
    ensures high != low ==> r.lower * (high - low) == (Min(open, close) - low) * 100.0
  {
    if high == low then Decomposition(0.0, 0.0, 0.0, 0.0)
    else
      var amp := Div((high - low) * 100.0, lastClose);
      var base := high - low;
      if close > open then
        Decomposition(amp, (high - close) * 100.0 / base, (close - open) * 100.0 / base, (open - low) * 100.0 / base)
      else
        Decomposition(amp, (high - open) * 100.0 / base, (open - close) * 100.0 / base, (close - low) * 100.0 / base)
  }

  /** For a real range the three parts always add up to 100 percent. */
  lemma ShadowPartsSumToHundred(lastClose: real, open: real, close: real, low: real, high: real)
    requires high != low
    ensures var d := Shadow(lastClose, open, close, low, high); d.upper + d.body + d.lower == 100.0
  {
    var d := Shadow(lastClose, open, close, low, high);
    var base := high - low;
    calc {
      (d.upper + d.body + d.lower) * base;
      d.upper * base + d.body * base + d.lower * base;
      (high - Max(open, close)) * 100.0 + Abs(close - open) * 100.0 + (Min(open, close) - low) * 100.0;
      100.0 * base;
    }
    CancelFactor(d.upper + d.body + d.lower, 100.0, base);
  }

  lemma CancelFactor(x: real, y: real, b: real)
    requires b != 0.0 && x * b == y * b
    ensures x == y
  {
    assert (x - y) * b == 0.0;
  }

  /** For a well-formed candle (open and close inside [low, high]) every part is a percentage in [0, 100]. */
  lemma ShadowPartsInRange(lastClose: real, open: real, close: real, low: real, high: real)
    requires low <= open <= high && low <= close <= high && low != high
    ensures var d := Shadow(lastClose, open, close, low, high);
      0.0 <= d.upper <= 100.0 && 0.0 <= d.body <= 100.0 && 0.0 <= d.lower <= 100.0
  {
    PartsInRange(Shadow(lastClose, open, close, low, high), open, close, low, high);
  }

  lemma PartsInRange(d: Decomposition, open: real, close: real, low: real, high: real)
    requires low <= open <= high && low <= close <= high && low < high
    requires d.upper * (high - low) == (high - Max(open, close)) * 100.0
    requires d.body * (high - low) == Abs(close - open) * 100.0
    requires d.lower * (high - low) == (Min(open, close) - low) * 100.0
    ensures 0.0 <= d.upper <= 100.0 && 0.0 <= d.body <= 100.0 && 0.0 <= d.lower <= 100.0
  {
    var base := high - low;
    ShareBounds(d.upper, high - Max(open, close), base);
    ShareBounds(d.body, Abs(close - open), base);
    ShareBounds(d.lower, Min(open, close) - low, base);
  }

  /** A part `v` of a range `base`, as a percentage `p` of it, lies in [0, 100]. */
  lemma ShareBounds(p: real, v: real, base: real)
    requires base > 0.0 && 0.0 <= v <= base && p * base == v * 100.0
    ensures 0.0 <= p <= 100.0
  {
  }

  /** The previous close affects only the amplitude. */
  lemma ShadowPartsIgnoreLastClose(c1: real, c2: real, open: real, close: real, low: real, high: real)
    ensures var d1, d2 := Shadow(c1, open, close, low, high), Shadow(c2, open, close, low, high);
      d1.upper == d2.upper && d1.body == d2.body && d1.lower == d2.lower
  {
  }
}
