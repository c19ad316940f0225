// The Python base class of the `hiq_py` strategies: the four-part shadow
// helper, the accepted categories and the per-category daily-bar loader
// dispatch.
module HiqPyBaseStrategy {
  import opened Wrappers
  import opened Num
  import Shadow
  import opened PyStrategy

  /**
   * What the Python helper returns: the two-element tuple `(0, 0)` for a flat
   * day, otherwise the four-element tuple (amplitude, upper, body, lower).
   */
  datatype PyShadow = Pair(first: real, second: real) | Quad(amplitude: real, upper: real, body: real, lower: real)


  /**
   * `BaseStrategy.shadow`. Unlike the Rust helper it returns a shorter tuple
   * for a flat day and raises on a zero previous close; otherwise it agrees
   * with the Rust decomposition part by part.
   */
  function PyShadow4(lastClose: real, open: real, close: real, low: real, high: real): (r: Outcome<PyShadow>)
    ensures high == low <==> r == Returned(Pair(0.0, 0.0))
    ensures high != low && lastClose == 0.0 <==> r.Raised?
    ensures high != low && lastClose != 0.0 ==>
      var d := Shadow.Shadow(lastClose, open, close, low, high);
      r == Returned(Quad(d.amplitude, d.upper, d.body, d.lower))
  {
    if high == low then Returned(Pair(0.0, 0.0))
    else if lastClose == 0.0 then Raised(ZeroDivisionError)
    else
      var amp := (high - low) * 100.0 / lastClose;
      var base := high - low;
      if close > open then
        Returned(Quad(amp, (high - close) * 100.0 / base, (close - open) * 100.0 / base, (open - low) * 100.0 / base))
      else
        Returned(Quad(amp, (high - open) * 100.0 / base, (open - close) * 100.0 / base, (close - low) * 100.0 / base))
  }

  /** The non-degenerate Python parts add up to 100 percent, as the Rust ones do. */
  lemma PyShadow4PartsSumToHundred(lastClose: real, open: real, close: real, low: real, high: real)
    requires high != low && lastClose != 0.0
    ensures PyShadow4(lastClose, open, close, low, high).Returned?
    ensures var q := PyShadow4(lastClose, open, close, low, high).value;
      q.Quad? && q.upper + q.body + q.lower == 100.0
  {
    Shadow.ShadowPartsSumToHundred(lastClose, open, close, low, high);
  }

  /** The loader's daily-bar tables, one per category. */
  datatype DailyTable = BondDaily | FundDaily | StockDaily | IndexDaily | StockConceptDaily | StockIndustryDaily

  /** The category -> daily loader table of `load_kdata`, for the six known categories. */
  function DailyTableOf(typ: int): (t: Option<DailyTable>)
    ensures t.Some? <==> 1 <= typ <= 6
  {
    if typ == Bond then Some(BondDaily)
    else if typ == Fund then Some(FundDaily)
    else if typ == Stock then Some(StockDaily)
    else if typ == Index then Some(IndexDaily)
    else if typ == Concept then Some(StockConceptDaily)
    else if typ == Industry then Some(StockIndustryDaily)
    else None
  }

  /** Distinct categories read distinct tables. */
  lemma DailyTableOfInjective(a: int, b: int)
    requires DailyTableOf(a).Some? && DailyTableOf(a) == DailyTableOf(b)
    ensures a == b
  {
  }

  /**
   * `load_kdata`: None without a loader or for a category outside the six;
   * otherwise the category's daily loader called with the caller's query
   * (filter, sort, limit, to_frame) unchanged.
   */
  function LoadKdata<Q, R>(loader: Option<(DailyTable, Q) -> R>, typ: int, query: Q): (r: Option<R>)
    ensures loader.None? ==> r.None?
    ensures r.Some? <==> loader.Some? && 1 <= typ <= 6
    ensures r.Some? ==> r.value == loader.value(DailyTableOf(typ).value, query)
  {
    if loader.None? then None
    else
      match DailyTableOf(typ)
      case None => None
      case Some(t) => Some(loader.value(t, query))
  }

  /** The strategy object: the categories it was constructed with. */
  class BaseStrategy {
    var strategyType: seq<int>

    /** `__init__` with an explicit category list. */
    constructor (strategyType: seq<int>)
      ensures this.strategyType == strategyType
    {
      this.strategyType := strategyType;
    }

    /** `__init__` with the default category list. */
    constructor Default()
      ensures strategyType == [Stock]
    {
      strategyType := [Stock];
    }

    /** `accept` hands back the construction-time category list. */
    function Accept(): (r: seq<int>)
      reads this
      ensures r == strategyType
    {
      strategyType
    }
  }
}
