// The records a strategy exchanges with the runner and the default bodies of
// the `Strategy` trait.
module StrategyContract {
  import opened Wrappers
  import opened Common
  import opened StrategyLib

  datatype Marker = Marker(key: string, val: string)

  /** How a strategy call ended: with a value, or with a Rust panic (an `unwrap` on None, an index underflow). */
  datatype Outcome<T> = Returned(value: T) | Panicked

  /** Five percentage changes. */
  datatype Stat = Stat(chgPct: seq<real>)

  /** A hit reported by a strategy for one code. */
  datatype StrategyResult = StrategyResult(code: string, name: string, marker: Option<seq<Marker>>, stat: Option<Stat>)

  /**
   * Parameters common to every strategy: the last day of the test window and
   * how many trading days it spans. (The trait's own record calls the second
   * field `min_trade_days` and stores a date only; the strategies and the
   * command line use `test_trade_days` and a date-time.)
   */
  datatype CommonParam = CommonParam(testEndDate: Option<DateTime>, testTradeDays: Option<int>)

  /** `CommonParam::default`: no end date, 60 trading days. */
  function DefaultCommonParam(): (p: CommonParam)
    ensures p.testEndDate.None? && p.testTradeDays == Some(60)
  {
    CommonParam(None, Some(60))
  }

  /** Default `help`: the empty string. */
  function DefaultHelp(): (s: string)
    ensures |s| == 0
  {
    ""
  }

  /** Default `name`: the empty string. */
  function DefaultName(): (s: string)
    ensures |s| == 0
  {
    ""
  }

  /** Default `prepare`: accepts any parameters and succeeds; the strategy keeps no state to change. */
  function DefaultPrepare(cmmParams: Option<CommonParam>, params: Option<map<string, string>>): (r: Result<(), Error>)
    ensures r.Ok?
  {
    Ok(())
  }

  /** Default `accept`: stocks only. */
  function DefaultAccept(): (r: seq<StrategyType>)
    ensures |r| == 1 && r[0] == Stock
  {
    [Stock]
  }

  /** Default `test`: no hit, for every category, code and name. */
  function DefaultTest(typ: StrategyType, code: string, name: string): (r: Result<Option<StrategyResult>, Error>)
    ensures r == Ok(None)
  {
    Ok(None)
  }
}
