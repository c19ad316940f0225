// Shared market data records: the bar (candle) record and the bar frequency
// enum with its integer conversion.
module Common {
  import opened Num

  /**
   * A calendar date-time. `day` is a day number (consecutive calendar days are
   * consecutive integers) and `time` is the time of day in nanoseconds since
   * midnight. Date-times are ordered day first, then time, as chrono's
   * `NaiveDateTime` is.
   */
  datatype DateTime = DateTime(day: int, time: int)

  const NanosPerMinute: int := 60 * 1_000_000_000

  /** A time of day given in hours and minutes. */
  function HourMinute(h: int, m: int): int
  {
    (h * 60 + m) * NanosPerMinute
  }

  predicate Earlier(a: DateTime, b: DateTime)
  {
    a.day < b.day || (a.day == b.day && a.time < b.time)
  }

  /** One candle: prices, volume and the day-over-day percentages. */
  datatype Bar = Bar(
    code: string,
    name: string,
    tradeDate: DateTime,
    open: real,
    close: real,
    high: real,
    low: real,
    volume: nat,
    amount: real,
    turnover: real,
    chgPct: real,
    volumeChgPct: real,
    amountChgPct: real,
    hfqFactor: real)

  datatype BarFreq = Min1 | Min5 | Min15 | Min30 | Min60 | Daily | Weekly | Monthly | LooseDaily

  /** The enum's discriminant. */
  function BarFreqValue(f: BarFreq): int
  {
    match f
    case Min1 => 1
    case Min5 => 5
    case Min15 => 15
    case Min30 => 30
    case Min60 => 60
    case Daily => 101
    case Weekly => 102
    case Monthly => 103
    case LooseDaily => 1010
  }

  predicate IsBarFreqValue(v: int)
  {
    v == 1 || v == 5 || v == 15 || v == 30 || v == 60 || v == 101 || v == 102 || v == 103 || v == 1010
  }

  /** `From<i32>`: total; a discriminant maps back to its variant, anything else to Daily. */
  function BarFreqFromI32(v: Int32): (f: BarFreq)
    ensures IsBarFreqValue(v) ==> BarFreqValue(f) == v
    ensures !IsBarFreqValue(v) ==> f == Daily
  {
    match v
    case 1 => Min1
    case 5 => Min5
    case 15 => Min15
    case 30 => Min30
    case 60 => Min60
    case 101 => Daily
    case 1010 => LooseDaily
    case 102 => Weekly
    case 103 => Monthly
    case _ => Daily
  }

  /** Converting a variant to its discriminant and back gives the variant again. */
  lemma BarFreqRoundTrip(f: BarFreq)
    ensures IsBarFreqValue(BarFreqValue(f))
    ensures BarFreqFromI32(BarFreqValue(f)) == f
  {
  }
}
