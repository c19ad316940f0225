// The built-in strategies: the registry that resolves a strategy by name, and
// the two example strategies that hit a fixed set of codes (ExamStrategy,
// shipped with the runner, and TestStrategy, from the dynamically loaded
// example crate).
module Registry {
  import opened Wrappers
  import opened StrategyLib
  import opened StrategyContract

  datatype Builtin = ExamStrategy | TestStrategy

  /** The codes both example strategies report. */
  const Members: seq<string> := ["sz002805", "sz300827", "sz000762"]

  /** `name`: the strategy's type name. */
  function Name(s: Builtin): (n: string)
    ensures s == ExamStrategy <==> n == "ExamStrategy"
    ensures s == TestStrategy <==> n == "TestStrategy"
  {
    match s
    case ExamStrategy => "ExamStrategy"
    case TestStrategy => "TestStrategy"
  }

  /** `help`: the same one-line description for both. */
  function Help(s: Builtin): (h: string)
    ensures |h| == 4
  {
    "实例策略"
  }

  /**
   * `test`: a hit echoing the code and name, with neither marker nor stat,
   * exactly when the code is one of the three members; never an Err, and the
   * category and the loader are not consulted.
   */
  function Test(s: Builtin, typ: StrategyType, code: string, name: string): (r: Result<Option<StrategyResult>, Error>)
    ensures r.Ok?
    ensures r.value.Some? <==> code in Members
    ensures r.value.Some? ==> r.value.value == StrategyResult(code, name, None, None)
  {
    if code in Members then Ok(Some(StrategyResult(code, name, None, None))) else Ok(None)
  }

  /** `get_strategy`: only "ExamStrategy" (case-sensitively) resolves; any other name is "strategy <name> not found". */
  function GetStrategy(name: string): (r: Result<Builtin, Error>)
    ensures r.Ok? <==> name == "ExamStrategy"
    ensures r.Ok? ==> r.value == ExamStrategy && Name(r.value) == name
    ensures r.Err? ==> r.error == Custom("strategy " + name + " not found")
  {
    if name == "ExamStrategy" then Ok(ExamStrategy) else Err(Custom("strategy " + name + " not found"))
  }

  /** `strategies`: the one registered name, which `get_strategy` resolves. */
  function Strategies(): (names: seq<string>)
    ensures |names| == 1
    ensures forall n :: n in names ==> GetStrategy(n).Ok?
  {
    ["ExamStrategy"]
  }

  /** The two example strategies agree on every input, and neither looks at the category. */
  lemma ExamAndTestAgree(t1: StrategyType, t2: StrategyType, code: string, name: string)
    ensures Test(ExamStrategy, t1, code, name) == Test(TestStrategy, t2, code, name)
  {
  }

  /** The example strategy's lower-case spelling is not registered. */
  lemma RegistryIsCaseSensitive()
    ensures GetStrategy("examstrategy").Err?
  {
    assert "examstrategy"[0] != "ExamStrategy"[0];
  }
}
