// A real-time quote as the trading side sees it: the Sina fields plus the
// XueQiu fields merged into one record.
module Quote {
  import opened Common

  /** Five (volume, price) levels. */
  type Levels = s: seq<(real, real)> | |s| == 5 witness [(0.0, 0.0), (0.0, 0.0), (0.0, 0.0), (0.0, 0.0), (0.0, 0.0)]

  datatype Quot = Quot(
    code: string,
    name: string,
    open: real,
    lastClose: real,
    now: real,
    high: real,
    low: real,
    buy: real,
    sell: real,
    volume: int,
    amount: real,
    bid: Levels,
    ask: Levels,
    time: DateTime,
    chg: real,
    chgPct: real,
    turnover: real,
    totalValue: real,
    currencyValue: real,
    isTrading: bool)
}
