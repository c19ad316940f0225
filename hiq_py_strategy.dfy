// The three-part shadow helper of the older `hiq_py` strategy base class: no
// amplitude and no previous close.
module HiqPyStrategy {
  import Shadow

  /** `(0, 0)` for a flat day, otherwise (upper, body, lower). */
  datatype PyShadow3 = Pair(first: real, second: real) | Triple(upper: real, body: real, lower: real)

  /**
   * `BaseStrategy.shadow(open, close, low, high)`: on a real range the three
   * parts are the Rust decomposition's parts for any previous close.
   */
  function Shadow3(open: real, close: real, low: real, high: real): (r: PyShadow3)
    ensures high == low <==> r == Pair(0.0, 0.0)
    ensures high != low ==> forall lastClose: real {:trigger Shadow.Shadow(lastClose, open, close, low, high)} ::
      var d := Shadow.Shadow(lastClose, open, close, low, high);
      r == Triple(d.upper, d.body, d.lower)
  {
    if high == low then Pair(0.0, 0.0)
    else
      var base := high - low;
      if close > open then
        Triple((high - close) * 100.0 / base, (close - open) * 100.0 / base, (open - low) * 100.0 / base)
      else
        Triple((high - open) * 100.0 / base, (open - close) * 100.0 / base, (close - low) * 100.0 / base)
  }

  /** The three parts of a real range add up to 100 percent. */
  lemma Shadow3PartsSumToHundred(open: real, close: real, low: real, high: real)
    requires high != low
    ensures var t := Shadow3(open, close, low, high); t.Triple? && t.upper + t.body + t.lower == 100.0
  {
    Shadow.ShadowPartsSumToHundred(0.0, open, close, low, high);
    assert Shadow3(open, close, low, high).upper == Shadow.Shadow(0.0, open, close, low, high).upper;
  }
}
