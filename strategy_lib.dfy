// The strategy crate's error type and the `StrategyType` category enum with
// its integer and string conversions.
module StrategyLib {
  import opened Num

  datatype Error = NotImpl(what: string) | Custom(message: string)

  datatype StrategyType = Bond | Fund | Stock | Index | Concept | Industry

  /** Discriminants run from Bond = 1 to Industry = 6. */
  function StrategyTypeValue(t: StrategyType): (v: int)
    ensures 1 <= v <= 6
  {
    match t
    case Bond => 1
    case Fund => 2
    case Stock => 3
    case Index => 4
    case Concept => 5
    case Industry => 6
  }

  /** `From<i32>`: 1..=6 give the variant with that discriminant, anything else is Stock. */
  function StrategyTypeFromI32(v: Int32): (t: StrategyType)
    ensures 1 <= v <= 6 ==> StrategyTypeValue(t) == v
    ensures !(1 <= v <= 6) ==> t == Stock
  {
    match v
    case 1 => Bond
    case 2 => Fund
    case 3 => Stock
    case 4 => Index
    case 5 => Concept
    case 6 => Industry
    case _ => Stock
  }

  /** The lowercase name `From<&str>` recognises for each variant. */
  function StrategyTypeName(t: StrategyType): string
  {
    match t
    case Bond => "bond"
    case Fund => "fund"
    case Stock => "stock"
    case Index => "index"
    case Concept => "concept"
    case Industry => "industry"
  }

  predicate IsStrategyTypeName(s: string)
  {
    s == "bond" || s == "fund" || s == "stock" || s == "index" || s == "concept" || s == "industry"
  }

  /**
   * `From<&str>`: only the exact lowercase names are recognised, each giving
   * the variant it names; every other string, "Stock" included, is Stock.
   */
  function StrategyTypeFromStr(s: string): (t: StrategyType)
    ensures IsStrategyTypeName(s) ==> StrategyTypeName(t) == s
    ensures !IsStrategyTypeName(s) ==> t == Stock
  {
    match s
    case "bond" => Bond
    case "fund" => Fund
    case "stock" => Stock
    case "index" => Index
    case "concept" => Concept
    case "industry" => Industry
    case _ => Stock
  }

  /** Both conversions invert the variant's discriminant and name. */
  lemma StrategyTypeRoundTrips(t: StrategyType)
    ensures StrategyTypeFromI32(StrategyTypeValue(t)) == t
    ensures StrategyTypeFromStr(StrategyTypeName(t)) == t
  {
  }

  /** The names are case-sensitive: the capitalised "Stock" is not recognised. */
  lemma CapitalisedNameIsNotRecognised()
    ensures !IsStrategyTypeName("Stock") && !IsStrategyTypeName("Bond")
    ensures StrategyTypeFromStr("Bond") == Stock
  {
  }
}
