// The data crate's sync destinations and sync data types, and their
// conversions from configuration strings and integers.
module SyncTypes {
  import opened Wrappers
  import opened Num
  import Fmt

  /** The data crate's error, reduced to the variants the modelled code raises. */
  datatype Error = NotImpl(what: string) | FetchError(message: string) | FetchTimeout(message: string) | Shutdown(message: string) | Custom(message: string)

  predicate IsUpper(c: char) { 'A' <= c <= 'Z' }

  /** `to_lowercase`, on ASCII letters. */
  function ToLower(s: string): (r: string)
    ensures |r| == |s|
    ensures forall i :: 0 <= i < |s| ==> r[i] == if IsUpper(s[i]) then (s[i] as int + 32) as char else s[i]
    ensures forall i :: 0 <= i < |r| ==> !IsUpper(r[i])
  {
    if s == [] then [] else
      var c := if IsUpper(s[0]) then (s[0] as int + 32) as char else s[0];
      [c] + ToLower(s[1..])
  }

  /** Lower-casing twice is lower-casing once, and a string without capitals is its own lower case. */
  lemma ToLowerIdempotent(s: string)
    ensures ToLower(ToLower(s)) == ToLower(s)
    ensures (forall i :: 0 <= i < |s| ==> !IsUpper(s[i])) ==> ToLower(s) == s
  {
  }

  /** A sync destination: a file path or a database URL. */
  datatype SyncDest = File(path: string) | MongoDB(url: string) | MySQL(url: string) | ClickHouse(url: string)

  /**
   * `SyncDest::try_from((kind, value))`: the kind is matched case-insensitively
   * against file, mongodb, mysql and clickhouse; the value is kept verbatim.
   */
  function SyncDestFrom(kind: string, value: string): (r: Result<SyncDest, Error>)
    ensures r.Ok? <==> ToLower(kind) in ["file", "mongodb", "mysql", "clickhouse"]
    ensures r.Ok? ==> r.value == match ToLower(kind)
      case "file" => File(value)
      case "mongodb" => MongoDB(value)
      case "mysql" => MySQL(value)
      case _ => ClickHouse(value)
    ensures r.Err? ==> r.error == Custom("Invalid SyncDest: " + ToLower(kind))
  {
    var typ := ToLower(kind);
    if typ == "file" then Ok(File(value))
    else if typ == "mongodb" then Ok(MongoDB(value))
    else if typ == "mysql" then Ok(MySQL(value))
    else if typ == "clickhouse" then Ok(ClickHouse(value))
    else Err(Custom("Invalid SyncDest: " + typ))
  }

  /** The kind is case-insensitive: any capitalisation of it gives the same destination. */
  lemma SyncDestCaseInsensitive(kind: string, value: string)
    ensures SyncDestFrom(kind, value) == SyncDestFrom(ToLower(kind), value)
  {
    ToLowerIdempotent(kind);
  }

  datatype SyncDestType = FileType | MongoDBType | MySQLType | ClickHouseType

  function SyncDestTypeValue(t: SyncDestType): int
  {
    match t
    case FileType => 1
    case MongoDBType => 2
    case MySQLType => 3
    case ClickHouseType => 4
  }

  /** `SyncDestType::try_from(i32)`: exactly 1..=4, each to the type with that discriminant. */
  function SyncDestTypeFrom(v: Int32): (r: Result<SyncDestType, Error>)
    ensures r.Ok? <==> 1 <= v <= 4
    ensures r.Ok? ==> SyncDestTypeValue(r.value) == v as int
    ensures r.Err? ==> r.error == Custom("Invalid SyncDestType: " + Fmt.IntToString(v as int))
  {
    match v
    case 1 => Ok(FileType)
    case 2 => Ok(MongoDBType)
    case 3 => Ok(MySQLType)
    case 4 => Ok(ClickHouseType)
    case _ => Err(Custom("Invalid SyncDestType: " + Fmt.IntToString(v as int)))
  }

  lemma SyncDestTypeRoundTrip(t: SyncDestType)
    ensures SyncDestTypeFrom(SyncDestTypeValue(t) as Int32) == Ok(t)
  {
  }

  datatype SyncDataType =
    | TradeDate
    | IndexInfo | IndexBar | StockInfo | StockBar | StockIndex
    | StockIndustry | StockIndustryDetail | StockIndustryBar
    | StockConcept | StockConceptDetail | StockConceptBar
    | StockYJBB | StockMargin
    | FundInfo | FundNet | FundBar
    | BondInfo | BondBar

  /** The discriminants, 1 (TradeDate) through 19 (BondBar), in declaration order. */
  function SyncDataTypeValue(t: SyncDataType): (v: int)
    ensures 1 <= v <= 19
  {
    match t
    case TradeDate => 1
    case IndexInfo => 2
    case IndexBar => 3
    case StockInfo => 4
    case StockBar => 5
    case StockIndex => 6
    case StockIndustry => 7
    case StockIndustryDetail => 8
    case StockIndustryBar => 9
    case StockConcept => 10
    case StockConceptDetail => 11
    case StockConceptBar => 12
    case StockYJBB => 13
    case StockMargin => 14
    case FundInfo => 15
    case FundNet => 16
    case FundBar => 17
    case BondInfo => 18
    case BondBar => 19
  }

  /** The configuration name of each type; the bar types are named `*_daily`. */
  function SyncDataTypeName(t: SyncDataType): string
  {
    match t
    case TradeDate => "trade_date"
    case IndexInfo => "index_info"
    case IndexBar => "index_daily"
    case StockInfo => "stock_info"
    case StockBar => "stock_daily"
    case StockIndex => "stock_index"
    case StockIndustry => "stock_industry"
    case StockIndustryDetail => "stock_industry_detail"
    case StockIndustryBar => "stock_industry_daily"
    case StockConcept => "stock_concept"
    case StockConceptDetail => "stock_concept_detail"
    case StockConceptBar => "stock_concept_daily"
    case StockYJBB => "stock_yjbb"
    case StockMargin => "stock_margin"
    case FundInfo => "fund_info"
    case FundNet => "fund_net"
    case FundBar => "fund_daily"
    case BondInfo => "bond_info"
    case BondBar => "bond_daily"
  }

  const AllSyncDataTypes: seq<SyncDataType> := [
    TradeDate, IndexInfo, IndexBar, StockInfo, StockBar, StockIndex, StockIndustry, StockIndustryDetail,
    StockIndustryBar, StockConcept, StockConceptDetail, StockConceptBar, StockYJBB, StockMargin,
    FundInfo, FundNet, FundBar, BondInfo, BondBar]

  lemma AllListed()
    ensures forall t :: t in AllSyncDataTypes
  {
    forall t
      ensures t in AllSyncDataTypes
    {
      SyncDataTypeI32RoundTrip(t);
      assert AllSyncDataTypes[SyncDataTypeValue(t) - 1] == t;
    }
  }

  /** `SyncDataType::try_from(i32)`: 1..=19 to the type with that discriminant, anything else an Err. */
  function SyncDataTypeFromI32(v: Int32): (r: Result<SyncDataType, Error>)
    ensures r.Ok? <==> 1 <= v <= 19
    ensures r.Ok? ==> SyncDataTypeValue(r.value) == v as int
    ensures r.Err? ==> r.error == Custom("Invalid SyncDataType: " + Fmt.IntToString(v as int))
  {
    if 1 <= v <= 19 then Ok(AllSyncDataTypes[v - 1])
    else Err(Custom("Invalid SyncDataType: " + Fmt.IntToString(v as int)))
  }

  lemma SyncDataTypeI32RoundTrip(t: SyncDataType)
    ensures SyncDataTypeFromI32(SyncDataTypeValue(t) as Int32) == Ok(t)
  {
  }

  /** The first type in `ts` whose name is `name`. */
  function Lookup(ts: seq<SyncDataType>, name: string): (r: Option<SyncDataType>)
    ensures r.Some? <==> exists t :: t in ts && SyncDataTypeName(t) == name
    ensures r.Some? ==> r.value in ts && SyncDataTypeName(r.value) == name
  {
    if ts == [] then None
    else if SyncDataTypeName(ts[0]) == name then Some(ts[0])
    else Lookup(ts[1..], name)
  }

  /**
   * `SyncDataType::try_from(&str)`: the lower-cased string must be one of
   * the 19 names; the Err message carries the lower-cased string.
   */
  function SyncDataTypeFromStr(s: string): (r: Result<SyncDataType, Error>)
    ensures r.Ok? <==> exists t :: SyncDataTypeName(t) == ToLower(s)
    ensures r.Ok? ==> SyncDataTypeName(r.value) == ToLower(s)
    ensures r.Err? ==> r.error == Custom("Invalid SyncDataType: " + ToLower(s))
  {
    var v := ToLower(s);
    match Lookup(AllSyncDataTypes, v)
    case Some(t) => Ok(t)
    case None =>
      AllListed();
      Err(Custom("Invalid SyncDataType: " + v))
  }

  /** The 19 names are pairwise distinct: no two types share a name. */
  lemma {:induction false} SyncDataTypeNamesDistinct(a: SyncDataType, b: SyncDataType)
    requires SyncDataTypeName(a) == SyncDataTypeName(b)
    ensures a == b
  {
    var na, nb := SyncDataTypeName(a), SyncDataTypeName(b);
    assert |na| == |nb| && na[..|na|] == nb[..|nb|];
    match a {
      case TradeDate =>
      case IndexInfo =>
      case IndexBar =>
      case StockInfo =>
      case StockBar =>
      case StockIndex =>
      case StockIndustry =>
      case StockIndustryDetail =>
      case StockIndustryBar =>
      case StockConcept =>
      case StockConceptDetail =>
      case StockConceptBar =>
      case StockYJBB =>
      case StockMargin =>
      case FundInfo =>
      case FundNet =>
      case FundBar =>
      case BondInfo =>
      case BondBar =>
    }
  }

  /** Every type's name, in any capitalisation, converts back to that type. */
  lemma SyncDataTypeStrRoundTrip(t: SyncDataType, s: string)
    requires ToLower(s) == SyncDataTypeName(t)
    ensures SyncDataTypeFromStr(s) == Ok(t)
  {
    var r := SyncDataTypeFromStr(s);
    SyncDataTypeNamesDistinct(r.value, t);
  }
}
