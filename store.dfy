// The data crate's in-memory cache of trade dates and basic infos, the data
// type enum and the loader's per-type dispatch.
module Store {
  import opened Wrappers
  import opened Common

  /**
   * The basic info of a bond, fund, stock or index as far as the cache and
   * the loader use it: the code it is keyed by and its display name.
   */
  datatype Info = Info(code: string, name: string)

  /** The map a cache setter builds: keyed by code, a later duplicate wins. */
  function ByCode(data: seq<Info>): map<string, Info>
    decreases |data|
  {
    if |data| == 0 then map[]
    else ByCode(data[..|data| - 1])[data[|data| - 1].code := data[|data| - 1]]
  }

  /** The keys of the cache are exactly the codes of the data. */
  lemma {:induction false} ByCodeKeys(data: seq<Info>)
    ensures forall c :: c in ByCode(data) <==> exists i :: 0 <= i < |data| && data[i].code == c
    decreases |data|
  {
    if |data| > 0 {
      var init := data[..|data| - 1];
      ByCodeKeys(init);
      forall c | c in ByCode(data)
        ensures exists i :: 0 <= i < |data| && data[i].code == c
      {
        if c != data[|data| - 1].code {
          assert c in ByCode(init);
          var i :| 0 <= i < |init| && init[i].code == c;
          assert data[i].code == c;
        }
      }
      forall c | exists i :: 0 <= i < |data| && data[i].code == c
        ensures c in ByCode(data)
      {
        var i :| 0 <= i < |data| && data[i].code == c;
        if i < |init| {
          assert init[i].code == c;
        }
      }
    }
  }

  /** The entry kept for a code is the last one in the data with that code. */
  lemma {:induction false} ByCodeLaterWins(data: seq<Info>, i: nat)
    requires i < |data|
    requires forall j :: i < j < |data| ==> data[j].code != data[i].code
    ensures data[i].code in ByCode(data) && ByCode(data)[data[i].code] == data[i]
    decreases |data|
  {
    if i < |data| - 1 {
      var init := data[..|data| - 1];
      assert init[i] == data[i];
      ByCodeLaterWins(init, i);
    }
  }

  /** Every cached entry is one of the data's entries, stored under its own code. */
  lemma {:induction false} ByCodeEntries(data: seq<Info>)
    ensures forall c :: c in ByCode(data) ==> ByCode(data)[c].code == c && ByCode(data)[c] in data
    decreases |data|
  {
    if |data| > 0 {
      var init := data[..|data| - 1];
      ByCodeEntries(init);
      forall c | c in ByCode(data)
        ensures ByCode(data)[c].code == c && ByCode(data)[c] in data
      {
        if c != data[|data| - 1].code {
          assert ByCode(data)[c] == ByCode(init)[c];
          var k :| 0 <= k < |init| && init[k] == ByCode(init)[c];
          assert data[k] == init[k];
        }
      }
    }
  }

  /**
   * `d` is the trade date following `date`: the first later day whose
   * yyyymmdd number (`ymd`) is in the cached set.
   */
  ghost predicate IsNextTradeDate(cache: set<int>, ymd: int -> int, date: int, d: int)
  {
    d > date && ymd(d) in cache && forall e :: date < e < d ==> ymd(e) !in cache
  }

  /** There is at most one next trade date. */
  lemma NextTradeDateUnique(cache: set<int>, ymd: int -> int, date: int, d1: int, d2: int)
    requires IsNextTradeDate(cache, ymd, date, d1) && IsNextTradeDate(cache, ymd, date, d2)
    ensures d1 == d2
  {
  }

  class HiqCache {
    var tradeDate: Option<set<int>>
    var indexInfo: Option<map<string, Info>>
    var stockInfo: Option<map<string, Info>>
    var bondInfo: Option<map<string, Info>>
    var fundInfo: Option<map<string, Info>>

    /** A new cache holds nothing. */
    constructor()
      ensures tradeDate.None? && indexInfo.None? && stockInfo.None?
      ensures bondInfo.None? && fundInfo.None?
    {
      tradeDate := None;
      indexInfo := None;
      stockInfo := None;
      bondInfo := None;
      fundInfo := None;
    }

    /**
     * The trade date after `date` (a day number), or `date` itself while no
     * trade dates are cached. The walk only ends at a cached date, so one
     * must exist.
     */
    method NextTradeDate(date: int, ymd: int -> int) returns (next: int)
      requires tradeDate.Some? ==> exists d :: d > date && ymd(d) in tradeDate.value
      ensures tradeDate.None? ==> next == date
      ensures tradeDate.Some? ==> IsNextTradeDate(tradeDate.value, ymd, date, next)
    {
      if tradeDate.None? {
        return date;
      }
      var cache := tradeDate.value;
      ghost var bound :| bound > date && ymd(bound) in cache;
      next := date + 1;
      while ymd(next) !in cache
        invariant date < next <= bound
        invariant forall e :: date < e < next ==> ymd(e) !in cache
        decreases bound - next
      {
        next := next + 1;
      }
    }

    /** Replaces the cached trade dates. */
    method CacheTradeDate(data: set<int>)
      modifies this
      ensures tradeDate == Some(data)
      ensures indexInfo == old(indexInfo) && stockInfo == old(stockInfo)
      ensures bondInfo == old(bondInfo) && fundInfo == old(fundInfo)
    {
      tradeDate := Some(data);
    }

    /** Replaces the cached index infos with the data keyed by code. */
    method CacheIndexInfo(data: seq<Info>)
      modifies this
      ensures indexInfo == Some(ByCode(data))
      ensures tradeDate == old(tradeDate) && stockInfo == old(stockInfo)
      ensures bondInfo == old(bondInfo) && fundInfo == old(fundInfo)
    {
      indexInfo := Some(ByCode(data));
    }

    /** Replaces the cached stock infos with the data keyed by code. */
    method CacheStockInfo(data: seq<Info>)
      modifies this
      ensures stockInfo == Some(ByCode(data))
      ensures tradeDate == old(tradeDate) && indexInfo == old(indexInfo)
      ensures bondInfo == old(bondInfo) && fundInfo == old(fundInfo)
    {
      stockInfo := Some(ByCode(data));
    }

    /** Replaces the cached bond infos with the data keyed by code. */
    method CacheBondInfo(data: seq<Info>)
      modifies this
      ensures bondInfo == Some(ByCode(data))
      ensures tradeDate == old(tradeDate) && indexInfo == old(indexInfo)
      ensures stockInfo == old(stockInfo) && fundInfo == old(fundInfo)
    {
      bondInfo := Some(ByCode(data));
    }

    /** Replaces the cached fund infos with the data keyed by code. */
    method CacheFundInfo(data: seq<Info>)
      modifies this
      ensures fundInfo == Some(ByCode(data))
      ensures tradeDate == old(tradeDate) && indexInfo == old(indexInfo)
      ensures stockInfo == old(stockInfo) && bondInfo == old(bondInfo)
    {
      fundInfo := Some(ByCode(data));
    }
  }

  /** The kinds of data the store syncs and loads; the values start at 1. */
  datatype DataType = Bond | Fund | Stock | Index | Concept | Industry

  function DataTypeValue(t: DataType): (v: int)
    ensures 1 <= v <= 6
  {
    match t
    case Bond => 1
    case Fund => 2
    case Stock => 3
    case Index => 4
    case Concept => 5
    case Industry => 6
  }

  lemma DataTypeValueInjective(a: DataType, b: DataType)
    ensures DataTypeValue(a) == DataTypeValue(b) ==> a == b
  {
  }

  /** The loader's basic-info tables. */
  datatype InfoTable = BondInfoTable | FundInfoTable | StockInfoTable | IndexInfoTable
    | StockConceptTable | StockIndustryTable

  /** The loader's daily-bar tables. */
  datatype DailyTable = BondDailyTable | FundDailyTable | StockDailyTable | IndexDailyTable
    | StockConceptDailyTable | StockIndustryDailyTable

  /** The info table `load_info` reads for a data type. */
  function InfoTableOf(t: DataType): (table: InfoTable)
    ensures t == Concept <==> table == StockConceptTable
    ensures t == Industry <==> table == StockIndustryTable
  {
    match t
    case Bond => BondInfoTable
    case Fund => FundInfoTable
    case Stock => StockInfoTable
    case Index => IndexInfoTable
    case Concept => StockConceptTable
    case Industry => StockIndustryTable
  }

  /** The daily table `load_daily` reads for a data type. */
  function DailyTableOf(t: DataType): (table: DailyTable)
    ensures t == Concept <==> table == StockConceptDailyTable
    ensures t == Industry <==> table == StockIndustryDailyTable
  {
    match t
    case Bond => BondDailyTable
    case Fund => FundDailyTable
    case Stock => StockDailyTable
    case Index => IndexDailyTable
    case Concept => StockConceptDailyTable
    case Industry => StockIndustryDailyTable
  }

  /** Each data type reads its own tables: no two types share one. */
  lemma DispatchInjective(a: DataType, b: DataType)
    ensures InfoTableOf(a) == InfoTableOf(b) ==> a == b
    ensures DailyTableOf(a) == DailyTableOf(b) ==> a == b
  {
  }

  /** The (code, name) pairs of loaded rows, in the loader's order. */
  function Pairs(rows: seq<Info>): (r: seq<(string, string)>)
    ensures |r| == |rows|
    ensures forall i :: 0 <= i < |rows| ==> r[i] == (rows[i].code, rows[i].name)
    decreases |rows|
  {
    if |rows| == 0 then [] else Pairs(rows[..|rows| - 1]) + [(rows[|rows| - 1].code, rows[|rows| - 1].name)]
  }

  /**
   * `load_info`: reads the type's info table with the query (filter, sort and
   * limit, carried as `q`) and keeps each row's code and name; a load error
   * is passed on.
   */
  function LoadInfo<Q>(t: DataType, q: Q, load: (InfoTable, Q) -> Result<seq<Info>, string>)
    : (r: Result<seq<(string, string)>, string>)
    ensures r.Err? <==> load(InfoTableOf(t), q).Err?
    ensures r.Err? ==> r.error == load(InfoTableOf(t), q).error
    ensures r.Ok? ==> |r.value| == |load(InfoTableOf(t), q).value|
    ensures r.Ok? ==> forall i :: 0 <= i < |r.value| ==>
      r.value[i] == (load(InfoTableOf(t), q).value[i].code, load(InfoTableOf(t), q).value[i].name)
  {
    var rows := load(InfoTableOf(t), q);
    if rows.Err? then Err(rows.error) else Ok(Pairs(rows.value))
  }

  /** `load_daily`: the bars of the type's own daily table, errors passed on. */
  function LoadDaily<Q>(t: DataType, q: Q, load: (DailyTable, Q) -> Result<seq<Bar>, string>)
    : (r: Result<seq<Bar>, string>)
    ensures r.Err? <==> load(DailyTableOf(t), q).Err?
    ensures r.Ok? ==> r.value == load(DailyTableOf(t), q).value
  {
    var rows := load(DailyTableOf(t), q);
    if rows.Err? then Err(rows.error) else Ok(rows.value)
  }
}
