// The data-shaping logic of the East Money bar fetch and of the real-time
// quote fetch: bar-list packaging, the per-response bar builder, the
// back-adjustment factor merge, the leading-bar skip, the request window,
// the XueQiu trading-hours flag and the Sina/XueQiu quote merge. The HTTP
// requests, the response parsing and the trade-calendar lookup are
// parameters.
module Fetch {
  import opened Wrappers
  import opened Num
  import opened Common
  import opened Quote
  import opened Scan
  import opened FetchLib
  import StrategyContract

  /**
   * `to_bar_ds`: the name is the given one, else the first bar's, else "";
   * the bars are kept unchanged, as None when there are none.
   */
  function ToBarDs(name: Option<string>, bars: seq<Bar>): (r: (string, Option<seq<Bar>>))
    ensures name.Some? ==> r.0 == name.value
    ensures name.None? && |bars| > 0 ==> r.0 == bars[0].name
    ensures name.None? && |bars| == 0 ==> r.0 == ""
    ensures r.1.Some? <==> |bars| > 0
    ensures r.1.Some? ==> r.1.value == bars
  {
    var stockName := if name.Some? then name.value else if |bars| > 0 then bars[0].name else "";
    (stockName, if |bars| > 0 then Some(bars) else None)
  }

  /** One parsed kline row of an East Money response. */
  datatype Row = Row(tradeDate: DateTime, open: real, close: real, high: real, low: real,
                     volume: nat, amount: real, chgPct: real, turnover: real)

  /** A response body that carries data: the instrument name and its rows, oldest first. */
  datatype Response = Response(name: string, rows: seq<Row>)

  /**
   * The i-th bar built from a response: the row's fields, factor 1.0, and
   * the volume and amount change against the previous row (0 for the first).
   */
  function BarAt(code: string, resp: Response, i: nat): (b: Bar)
    requires i < |resp.rows|
    ensures b.code == code && b.name == resp.name && b.hfqFactor == 1.0
    ensures b.tradeDate == resp.rows[i].tradeDate && b.close == resp.rows[i].close && b.volume == resp.rows[i].volume
    ensures i == 0 ==> b.volumeChgPct == 0.0 && b.amountChgPct == 0.0
    ensures i > 0 && resp.rows[i].volume == resp.rows[i - 1].volume ==> b.volumeChgPct == 0.0
    ensures i > 0 && resp.rows[i - 1].volume > 0 && resp.rows[i].volume > resp.rows[i - 1].volume ==> b.volumeChgPct > 0.0
  {
    var row := resp.rows[i];
    var volumeChg := if i == 0 then 0.0
      else Div(((row.volume - resp.rows[i - 1].volume) * 100) as real, resp.rows[i - 1].volume as real);
    var amountChg := if i == 0 then 0.0
      else Div((row.amount - resp.rows[i - 1].amount) * 100.0, resp.rows[i - 1].amount);
    Bar(code, resp.name, row.tradeDate, row.open, row.close, row.high, row.low, row.volume, row.amount,
        row.turnover, row.chgPct, volumeChg, amountChg, 1.0)
  }

  /** The row mapping of `fetch_bar`, carrying the previous bar along. */
  method ToBars(code: string, resp: Response) returns (bars: seq<Bar>)
    ensures |bars| == |resp.rows|
    ensures forall i :: 0 <= i < |bars| ==> bars[i] == BarAt(code, resp, i)
  {
    bars := [];
    var preItem: Option<Bar> := None;
    var i := 0;
    while i < |resp.rows|
      invariant 0 <= i <= |resp.rows| && |bars| == i
      invariant forall j :: 0 <= j < i ==> bars[j] == BarAt(code, resp, j)
      invariant preItem == if i == 0 then None else Some(bars[i - 1])
    {
      var row := resp.rows[i];
      var volumeChg, amountChg := 0.0, 0.0;
      if preItem.Some? {
        volumeChg := Div(((row.volume - preItem.value.volume) * 100) as real, preItem.value.volume as real);
        amountChg := Div((row.amount - preItem.value.amount) * 100.0, preItem.value.amount);
      }
      var bar := Bar(code, resp.name, row.tradeDate, row.open, row.close, row.high, row.low, row.volume,
                     row.amount, row.turnover, row.chgPct, volumeChg, amountChg, 1.0);
      bars := bars + [bar];
      preItem := Some(bar);
      i := i + 1;
    }
  }

  /**
   * The unadjusted bars with the back-adjustment factor hfq.close/nfq.close
   * filled in pairwise, when the adjusted response has as many bars;
   * otherwise the unadjusted bars unchanged.
   */
  function WithHfq(nfq: seq<Bar>, hfq: Option<seq<Bar>>): (r: seq<Bar>)
    ensures |r| == |nfq|
    ensures hfq.Some? && |hfq.value| == |nfq| ==>
      forall i :: 0 <= i < |r| ==> r[i] == nfq[i].(hfqFactor := Div(hfq.value[i].close, nfq[i].close))
    ensures !(hfq.Some? && |hfq.value| == |nfq|) ==> r == nfq
  {
    if hfq.Some? && |hfq.value| == |nfq| then
      seq(|nfq|, i requires 0 <= i < |nfq| => nfq[i].(hfqFactor := Div(hfq.value[i].close, nfq[i].close)))
    else nfq
  }

  /** The `iter_mut().zip(..)` update of `fetch_bar`, in place. */
  method MergeHfq(data: array<Bar>, hfq: seq<Bar>)
    modifies data
    ensures data[..] == WithHfq(old(data[..]), Some(hfq))
  {
    if data.Length == |hfq| {
      var i := 0;
      while i < data.Length
        invariant 0 <= i <= data.Length
        invariant forall j :: 0 <= j < i ==> data[j] == old(data[j]).(hfqFactor := Div(hfq[j].close, old(data[j]).close))
        invariant forall j :: i <= j < data.Length ==> data[j] == old(data[j])
      {
        data[i] := data[i].(hfqFactor := Div(hfq[i].close, data[i].close));
        i := i + 1;
      }
    }
  }

  /** Index i is a bar dated `firstDate` (as yyyymmdd, through the calendar `ymd`). */
  function OnDate(data: seq<Bar>, firstDate: int, ymd: int -> int): int -> bool
  {
    i => 0 <= i < |data| && ymd(data[i].tradeDate.day) == firstDate
  }

  /**
   * The bars after the leading ones dated `firstDate`: exactly the maximal
   * such prefix is dropped, and nothing without a first date.
   */
  function LeadingSkipped(data: seq<Bar>, firstDate: Option<int>, ymd: int -> int): (r: seq<Bar>)
    ensures firstDate.None? ==> r == data
    ensures |r| <= |data| && r == data[|data| - |r|..]
    ensures firstDate.Some? ==> forall i :: 0 <= i < |data| - |r| ==> ymd(data[i].tradeDate.day) == firstDate.value
    ensures firstDate.Some? && |r| > 0 ==> ymd(r[0].tradeDate.day) != firstDate.value
  {
    if firstDate.None? then data
    else
      var p := OnDate(data, firstDate.value, ymd);
      var skip := RunLength(p, 0, |data|);
      assert forall i :: 0 <= i < skip ==> ymd(data[i].tradeDate.day) == firstDate.value by {
        forall i | 0 <= i < skip
          ensures ymd(data[i].tradeDate.day) == firstDate.value
        {
          assert p(i);
        }
      }
      assert |data| - |data[skip..]| == skip;
      assert 0 < |data| - skip ==> !p(skip);
      data[skip..]
  }

  /** The `skip` counter loop of `fetch_bar`. */
  method SkipLeading(data: seq<Bar>, firstDate: Option<int>, ymd: int -> int) returns (r: seq<Bar>)
    ensures r == LeadingSkipped(data, firstDate, ymd)
  {
    r := data;
    if firstDate.Some? && |data| > 0 {
      var skip := 0;
      var i := 0;
      while i < |data|
        invariant 0 <= i <= |data| && skip == i
        invariant forall j :: 0 <= j < i ==> OnDate(data, firstDate.value, ymd)(j)
      {
        var d := ymd(data[i].tradeDate.day);
        if firstDate.value == d {
          skip := skip + 1;
        } else {
          break;
        }
        i := i + 1;
      }
      MaximalRunUnique(OnDate(data, firstDate.value, ymd), 0, |data|, skip);
      if skip > 0 {
        r := data[skip..];
      }
    }
  }

  /**
   * The last day requested. With `skip_rt`, a daily fetch before 15:00
   * stops at the given end when that is before today and otherwise at
   * yesterday; in every other case it is the given end, or today.
   */
  function EndDay(now: DateTime, skipRt: bool, freq: BarFreq, endDate: Option<int>): (d: int)
    ensures endDate.Some? ==> d <= endDate.value
    ensures endDate.None? ==> d <= now.day
    ensures skipRt && now.time < HourMinute(15, 0) && freq == Daily ==> d < now.day
  {
    if skipRt && now.time < HourMinute(15, 0) && freq == Daily then
      (if endDate.Some? && now.day > endDate.value then endDate.value else now.day - 1)
    else if endDate.Some? then endDate.value
    else now.day
  }

  /** The `klt` request parameter: LooseDaily is requested as Daily. */
  function KlineType(freq: BarFreq): (k: int)
    ensures freq != LooseDaily ==> k == BarFreqValue(freq)
    ensures k == BarFreqValue(Daily) <==> freq == Daily || freq == LooseDaily
  {
    if freq == LooseDaily then BarFreqValue(Daily) else BarFreqValue(freq)
  }

  /** A kline request: (adjustment, klt, begin yyyymmdd or None for "0", end day). */
  type Request = (AdjustFactor, int, Option<int>, int) -> Result<Option<Response>, string>

  /**
   * What `fetch_bar` returns: the previous trade date of `start` (through
   * `prevTradeDate`, as yyyymmdd) begins the request window; a window that
   * starts after its end gives no bars; otherwise the unadjusted request
   * (then the adjusted one) are made, the factors merged and the leading
   * bars dated the previous trade date dropped.
   */
  ghost function FetchBarSpec(code: string, freq: BarFreq, start: Option<int>, endDate: Option<int>, skipRt: bool,
                              now: DateTime, prevTradeDate: int -> Result<int, string>, ymd: int -> int,
                              request: Request): (r: Result<seq<Bar>, string>)
    ensures start.Some? && prevTradeDate(start.value).Err? ==> r == Err(prevTradeDate(start.value).error)
    ensures start.Some? && prevTradeDate(start.value).Ok? && start.value > EndDay(now, skipRt, freq, endDate) ==> r == Ok([])
    ensures r.Ok? ==> forall i :: 0 <= i < |r.value| ==> r.value[i].code == code
    ensures r.Ok? && start.Some? && |r.value| > 0 ==> ymd(r.value[0].tradeDate.day) != prevTradeDate(start.value).value
  {
    if start.Some? && prevTradeDate(start.value).Err? then Err(prevTradeDate(start.value).error)
    else
      var firstDate := if start.Some? then Some(prevTradeDate(start.value).value) else None;
      var endDay := EndDay(now, skipRt, freq, endDate);
      if start.Some? && start.value > endDay then Ok([])
      else RequestSpec(code, freq, firstDate, endDay, ymd, request)
  }

  /** The two requests of `fetch_bar` (unadjusted, then back-adjusted), merged and trimmed. */
  ghost function RequestSpec(code: string, freq: BarFreq, firstDate: Option<int>, endDay: int, ymd: int -> int,
                             request: Request): (r: Result<seq<Bar>, string>)
  {
    var nfq := request(NFQ, KlineType(freq), firstDate, ymd(endDay));
    if nfq.Err? then Err(nfq.error)
    else
      var hfq := request(HFQ, KlineType(freq), firstDate, ymd(endDay));
      if hfq.Err? then Err(hfq.error)
      else
        Ok(LeadingSkipped(MergedSpec(code, nfq.value, hfq.value), firstDate, ymd))
  }

  ghost function BarsOf(code: string, resp: Response): (bars: seq<Bar>)
    ensures |bars| == |resp.rows| && forall i :: 0 <= i < |bars| ==> bars[i] == BarAt(code, resp, i)
  {
    seq(|resp.rows|, i requires 0 <= i < |resp.rows| => BarAt(code, resp, i))
  }

  /** The bars of both responses, with the adjusted closes merged into the unadjusted bars. */
  ghost function MergedSpec(code: string, nfq: Option<Response>, hfq: Option<Response>): (data: seq<Bar>)
    ensures nfq.None? ==> data == []
    ensures forall i :: 0 <= i < |data| ==> data[i].code == code
  {
    var data := if nfq.Some? then BarsOf(code, nfq.value) else [];
    WithHfq(data, if hfq.Some? then Some(BarsOf(code, hfq.value)) else None)
  }

  /** The two response branches of `fetch_bar`'s request loop. */
  method Merged(code: string, nfq: Option<Response>, hfq: Option<Response>) returns (data: seq<Bar>)
    ensures data == MergedSpec(code, nfq, hfq)
  {
    data := [];
    if nfq.Some? {
      data := ToBars(code, nfq.value);
      assert data == BarsOf(code, nfq.value);
    }
    if hfq.Some? {
      var hfqBars := ToBars(code, hfq.value);
      assert hfqBars == BarsOf(code, hfq.value);
      var buffer := new Bar[|data|](i requires 0 <= i < |data| => data[i]);
      assert buffer[..] == data;
      MergeHfq(buffer, hfqBars);
      data := buffer[..];
    }
  }

  /** `fetch_bar` with the clock, the calendar lookup and the HTTP request as parameters. */
  method FetchBar(code: string, freq: BarFreq, start: Option<int>, endDate: Option<int>, skipRt: bool,
                  now: DateTime, prevTradeDate: int -> Result<int, string>, ymd: int -> int,
                  request: Request) returns (r: Result<seq<Bar>, string>)
    ensures r == FetchBarSpec(code, freq, start, endDate, skipRt, now, prevTradeDate, ymd, request)
  {
    var firstDate: Option<int> := None;
    if start.Some? {
      var prev := prevTradeDate(start.value);
      if prev.Err? {
        return Err(prev.error);
      }
      firstDate := Some(prev.value);
    }
    var endDay := EndDay(now, skipRt, freq, endDate);
    if start.Some? && start.value > endDay {
      return Ok([]);
    }
    r := RequestBars(code, freq, firstDate, endDay, ymd, request);
  }

  /** The request half of `fetch_bar`: an error of either request is passed on. */
  method RequestBars(code: string, freq: BarFreq, firstDate: Option<int>, endDay: int, ymd: int -> int,
                     request: Request) returns (r: Result<seq<Bar>, string>)
    ensures r == RequestSpec(code, freq, firstDate, endDay, ymd, request)
  {
    var nfq := request(NFQ, KlineType(freq), firstDate, ymd(endDay));
    if nfq.Err? {
      return Err(nfq.error);
    }
    var hfq := request(HFQ, KlineType(freq), firstDate, ymd(endDay));
    if hfq.Err? {
      return Err(hfq.error);
    }
    var data := Merged(code, nfq.value, hfq.value);
    var kept := SkipLeading(data, firstDate, ymd);
    return Ok(kept);
  }

  /** XueQiu's trading flag: the time of day is strictly inside (09:30, 11:30) or (13:00, 15:00). */
  predicate XqTrading(t: int)
  {
    (HourMinute(9, 30) < t < HourMinute(11, 30)) || (HourMinute(13, 0) < t < HourMinute(15, 0))
  }

  /** The session boundaries themselves are not trading time. */
  lemma XqBoundariesClosed()
    ensures !XqTrading(HourMinute(9, 30)) && !XqTrading(HourMinute(11, 30))
    ensures !XqTrading(HourMinute(13, 0)) && !XqTrading(HourMinute(15, 0))
  {
  }

  /**
   * At whole minutes of the day the flag is set exactly from 09:31 to
   * 11:29 and from 13:01 to 14:59.
   */
  lemma XqTradingByMinute(h: int, m: int)
    requires 0 <= h < 24 && 0 <= m < 60
    ensures XqTrading(HourMinute(h, m)) <==>
      (h == 9 && m > 30) || h == 10 || (h == 11 && m < 30) || (h == 13 && m > 0) || h == 14
  {
  }

  /** The Sina half of a real-time quote. */
  datatype QuotSn = QuotSn(code: string, name: string, open: real, lastClose: real, now: real, high: real,
                           low: real, buy: real, sell: real, volume: int, amount: real, bid: Levels, ask: Levels,
                           time: DateTime)

  /** The XueQiu half of a real-time quote. */
  datatype QuotXq = QuotXq(code: string, time: DateTime, lastClose: real, open: real, high: real, low: real,
                           chg: real, chgPct: real, turnover: real, totalValue: real, currencyValue: real,
                           isTrading: bool)

  /** One merged quote: the Sina prices and depth, the XueQiu change, value and trading flag. */
  function Combine(xq: QuotXq, sn: QuotSn): (q: Quot)
    ensures q.code == sn.code && q.now == sn.now && q.bid == sn.bid && q.ask == sn.ask && q.time == sn.time
    ensures q.chgPct == xq.chgPct && q.isTrading == xq.isTrading && q.totalValue == xq.totalValue
  {
    Quot(sn.code, sn.name, sn.open, sn.lastClose, sn.now, sn.high, sn.low, sn.buy, sn.sell, sn.volume,
         sn.amount, sn.bid, sn.ask, sn.time, xq.chg, xq.chgPct, xq.turnover, xq.totalValue,
         xq.currencyValue, xq.isTrading)
  }

  /**
   * `fetch_rt_quot` after both fetches: the XueQiu error first, then the
   * Sina one; maps of different sizes are an error; a Sina key missing
   * from XueQiu panics (`unwrap`); otherwise each Sina entry is combined
   * with the XueQiu entry of the same key.
   */
  function MergeRtQuot(xq: Result<map<string, QuotXq>, string>, sn: Result<map<string, QuotSn>, string>)
    : (r: StrategyContract.Outcome<Result<map<string, Quot>, string>>)
    ensures xq.Err? ==> r == StrategyContract.Returned(Err(xq.error))
    ensures xq.Ok? && sn.Err? ==> r == StrategyContract.Returned(Err(sn.error))
    ensures xq.Ok? && sn.Ok? && |xq.value| != |sn.value| ==> r == StrategyContract.Returned(Err("fail to fetch quot"))
    ensures r.Returned? && r.value.Ok? ==>
      && xq.Ok? && sn.Ok? && r.value.value.Keys == sn.value.Keys == xq.value.Keys
      && forall k :: k in sn.value ==> r.value.value[k] == Combine(xq.value[k], sn.value[k])
  {
    if xq.Err? then StrategyContract.Returned(Err(xq.error))
    else if sn.Err? then StrategyContract.Returned(Err(sn.error))
    else if |xq.value| != |sn.value| then StrategyContract.Returned(Err("fail to fetch quot"))
    else if exists k :: k in sn.value && k !in xq.value then StrategyContract.Panicked
    else
      SameSizeSubset(sn.value.Keys, xq.value.Keys);
      StrategyContract.Returned(Ok(map k | k in sn.value :: Combine(xq.value[k], sn.value[k])))
  }

  /** With maps of the same size, the merge panics exactly when their key sets differ. */
  lemma MergePanicsIffKeysDiffer(xq: map<string, QuotXq>, sn: map<string, QuotSn>)
    requires |xq| == |sn|
    ensures MergeRtQuot(Ok(xq), Ok(sn)).Panicked? <==> xq.Keys != sn.Keys
  {
    if xq.Keys != sn.Keys && forall k :: k in sn ==> k in xq {
      SameSizeSubset(sn.Keys, xq.Keys);
    }
  }

  lemma SameSizeSubset<K>(a: set<K>, b: set<K>)
    requires a <= b && |a| == |b|
    ensures a == b
  {
    if a != b {
      var x :| x in b && x !in a;
      assert a <= b - {x};
      SubsetCard(a, b - {x});
    }
  }

  lemma {:induction false} SubsetCard<K>(a: set<K>, b: set<K>)
    requires a <= b
    ensures |a| <= |b|
  {
    if a != {} {
      var x :| x in a;
      SubsetCard(a - {x}, b - {x});
    }
  }
}
