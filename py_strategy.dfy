// The Python strategy base of `hiq_pystrategy`: category constants and their
// names, the `Stat` and `StrategyResult` records with their dictionary forms,
// `Strategy.run` and the base-class defaults.
module PyStrategy {
  import opened Wrappers

  /** Python values that cross these APIs. Dictionary keys are strings, integers or dates. */
  datatype PyKey = KStr(s: string) | KInt(i: int) | KDate(day: int)

  datatype PyValue =
    | PyNone
    | PyBool(b: bool)
    | PyInt(i: int)
    | PyFloat(f: real)
    | PyStr(s: string)
    | PyDate(day: int)
    | PyList(items: seq<PyValue>)
    | PyDict(entries: map<PyKey, PyValue>)

  /** Exceptions the model distinguishes (PanicException is a Rust panic surfacing through the bindings). */
  datatype PyError = KeyError(key: string) | TypeError | ValueError | IndexError | AttributeError | ZeroDivisionError | OverflowError | PanicException

  /** How a Python call ended: with a value or with a raised exception. */
  datatype Outcome<T> = Returned(value: T) | Raised(error: PyError)

  // `StrategyType` constants.
  const Bond: int := 1
  const Fund: int := 2
  const Stock: int := 3
  const Index: int := 4
  const Concept: int := 5
  const Industry: int := 6

  /** `StrategyType.str`: the six category numbers have names, anything else is ''. */
  function TypeStr(typ: int): (s: string)
    ensures 1 <= typ <= 6 <==> s != ""
    ensures typ == Stock ==> s == "Stock"
  {
    if typ == Bond then "Bond"
    else if typ == Fund then "Fund"
    else if typ == Stock then "Stock"
    else if typ == Index then "Index"
    else if typ == Concept then "Concept"
    else if typ == Industry then "Industry"
    else ""
  }

  /** Distinct categories have distinct names. */
  lemma TypeStrInjective(a: int, b: int)
    requires TypeStr(a) != "" && TypeStr(a) == TypeStr(b)
    ensures a == b
  {
  }

  /** Looking a key up the way `js[key]` does: a dict without it raises KeyError, a non-dict raises TypeError. */
  function Subscript(js: PyValue, key: string): (r: Outcome<PyValue>)
    ensures r.Returned? <==> js.PyDict? && KStr(key) in js.entries
    ensures r.Returned? ==> r.value == js.entries[KStr(key)]
    ensures js.PyDict? && KStr(key) !in js.entries ==> r == Raised(KeyError(key))
  {
    if !js.PyDict? then Raised(TypeError)
    else if KStr(key) !in js.entries then Raised(KeyError(key))
    else Returned(js.entries[KStr(key)])
  }

  /** The seven keys of a `Stat` dictionary, in assignment order. */
  const StatKeys: seq<string> := ["hit_chg_pct", "start", "end", "low", "high", "hit", "hit_max"]

  /** The dictionary `Stat.to_dict` builds from the seven field values, given in `StatKeys` order. */
  function StatDict(values: seq<PyValue>): (d: map<PyKey, PyValue>)
    requires |values| == 7
    ensures d.Keys == set i | 0 <= i < 7 :: KStr(StatKeys[i])
    ensures forall i :: 0 <= i < 7 ==> d[KStr(StatKeys[i])] == values[i]
  {
    map[KStr(StatKeys[0]) := values[0], KStr(StatKeys[1]) := values[1], KStr(StatKeys[2]) := values[2],
        KStr(StatKeys[3]) := values[3], KStr(StatKeys[4]) := values[4], KStr(StatKeys[5]) := values[5],
        KStr(StatKeys[6]) := values[6]]
  }

  /** How many leading `StatKeys` a value has (a non-dict has none). */
  function KeysPresent(js: PyValue): (n: nat)
    ensures n <= 7
    ensures js.PyDict? ==> forall i :: 0 <= i < n ==> KStr(StatKeys[i]) in js.entries
    ensures js.PyDict? && n < 7 ==> KStr(StatKeys[n]) !in js.entries
  {
    if !js.PyDict? then 0 else CountKeys(js.entries, 0)
  }

  function CountKeys(d: map<PyKey, PyValue>, i: nat): (n: nat)
    requires i <= 7
    ensures i <= n <= 7
    ensures forall j :: i <= j < n ==> KStr(StatKeys[j]) in d
    ensures n < 7 ==> KStr(StatKeys[n]) !in d
    decreases 7 - i
  {
    if i == 7 || KStr(StatKeys[i]) !in d then i else CountKeys(d, i + 1)
  }

  class Stat {
    var hitChgPct: PyValue
    var start: PyValue
    var end: PyValue
    var low: PyValue
    var high: PyValue
    var hit: PyValue
    var hitMax: PyValue

    /** The field values in `StatKeys` order. */
    function Values(): (v: seq<PyValue>)
      reads this
      ensures |v| == 7
    {
      [hitChgPct, start, end, low, high, hit, hitMax]
    }

    /** `Stat()`: every field None. */
    constructor ()
      ensures Values() == [PyNone, PyNone, PyNone, PyNone, PyNone, PyNone, PyNone]
    {
      hitChgPct, start, end, low, high, hit, hitMax := PyNone, PyNone, PyNone, PyNone, PyNone, PyNone, PyNone;
    }

    /** `to_dict`: the seven fields under their keys. */
    function ToDict(): (d: map<PyKey, PyValue>)
      reads this
      ensures d == StatDict(Values())
    {
      map[KStr("hit_chg_pct") := hitChgPct, KStr("start") := start, KStr("end") := end,
          KStr("low") := low, KStr("high") := high, KStr("hit") := hit, KStr("hit_max") := hitMax]
    }

    /**
     * `from_json`: assigns the seven fields from `js` in key order. The first
     * missing key raises KeyError and a non-dict raises TypeError; the fields
     * assigned before that keep their new values.
     */
    method FromJson(js: PyValue) returns (r: Outcome<()>)
      modifies this
      ensures var n := KeysPresent(js);
        && (r.Returned? <==> n == 7)
        && (!js.PyDict? ==> r == Raised(TypeError))
        && (js.PyDict? && n < 7 ==> r == Raised(KeyError(StatKeys[n])))
        && (forall i :: 0 <= i < 7 ==> Values()[i] == if i < n then js.entries[KStr(StatKeys[i])] else old(Values())[i])
    {
      var v := Subscript(js, StatKeys[0]);
      if v.Raised? { return Raised(v.error); }
      hitChgPct := v.value;
      v := Subscript(js, StatKeys[1]);
      if v.Raised? { return Raised(v.error); }
      start := v.value;
      v := Subscript(js, StatKeys[2]);
      if v.Raised? { return Raised(v.error); }
      end := v.value;
      v := Subscript(js, StatKeys[3]);
      if v.Raised? { return Raised(v.error); }
      low := v.value;
      v := Subscript(js, StatKeys[4]);
      if v.Raised? { return Raised(v.error); }
      high := v.value;
      v := Subscript(js, StatKeys[5]);
      if v.Raised? { return Raised(v.error); }
      hit := v.value;
      v := Subscript(js, StatKeys[6]);
      if v.Raised? { return Raised(v.error); }
      hitMax := v.value;
     
      return Returned(());
    }
  }

  /** Reading a `Stat` back from its own dictionary restores all seven fields. */
  method StatRoundTrip(s: Stat) returns (t: Stat)
    ensures fresh(t) && t.Values() == s.Values()
  {
    var js := PyDict(s.ToDict());
    assert KeysPresent(js) == 7 by {
      forall i | 0 <= i < 7 ensures KStr(StatKeys[i]) in js.entries { }
      KeysAllPresent(js.entries);
    }
    t := new Stat();
    var r := t.FromJson(js);
  }

  lemma KeysAllPresent(d: map<PyKey, PyValue>)
    requires forall i :: 0 <= i < 7 ==> KStr(StatKeys[i]) in d
    ensures CountKeys(d, 0) == 7
  {
  }

  class StrategyResult {
    var code: PyValue
    var name: PyValue
    var mark: PyValue
    var stat: Stat?

    constructor (code: PyValue, name: PyValue, mark: PyValue, stat: Stat?)
      ensures this.code == code && this.name == name && this.mark == mark && this.stat == stat
    {
      this.code, this.name, this.mark, this.stat := code, name, mark, stat;
    }

    /** `to_dict`: code, name and the stat's dictionary (or None); the marks are never included. */
    function ToDict(): (d: map<PyKey, PyValue>)
      reads this, stat
      ensures d.Keys == {KStr("code"), KStr("name"), KStr("stat")}
      ensures KStr("mark") !in d
      ensures d[KStr("code")] == code && d[KStr("name")] == name
      ensures d[KStr("stat")] == if stat == null then PyNone else PyDict(stat.ToDict())
    {
      map[KStr("code") := code, KStr("name") := name,
          KStr("stat") := if stat != null then PyDict(stat.ToDict()) else PyNone]
    }

    /**
     * `from_json`: code and name are required; mark is replaced only when the
     * key is present, and stat only when the key is present and its value
     * reads back as a `Stat`.
     */
    method FromJson(js: PyValue) returns (r: Outcome<()>)
      modifies this
      ensures !js.PyDict? ==> r == Raised(TypeError) && unchanged(this)
      ensures js.PyDict? ==>
        var e := js.entries;
        if KStr("code") !in e then r == Raised(KeyError("code")) && unchanged(this)
        else if KStr("name") !in e then r == Raised(KeyError("name")) && code == e[KStr("code")] && name == old(name) && mark == old(mark) && stat == old(stat)
        else
          && code == e[KStr("code")] && name == e[KStr("name")]
          && mark == (if KStr("mark") in e then e[KStr("mark")] else old(mark))
          && (KStr("stat") !in e ==> r == Returned(()) && stat == old(stat))
          && (KStr("stat") in e ==>
                var sj := e[KStr("stat")];
                if KeysPresent(sj) == 7 then
                  r == Returned(()) && stat != null && fresh(stat) && stat.Values() == seq(7, i requires 0 <= i < 7 => sj.entries[KStr(StatKeys[i])])
                else r.Raised? && stat == old(stat))
    {
      var c := Subscript(js, "code");
      if c.Raised? { return Raised(c.error); }
      code := c.value;
      var n := Subscript(js, "name");
      if n.Raised? { return Raised(n.error); }
      name := n.value;
      if KStr("mark") in js.entries {
        mark := js.entries[KStr("mark")];
      }
      if KStr("stat") in js.entries {
        var s := new Stat();
        var sr := s.FromJson(js.entries[KStr("stat")]);
        if sr.Raised? { return Raised(sr.error); }
        stat := s;
      }
      return Returned(());
    }
  }

  /**
   * A result without statistics does not survive its own dictionary form:
   * `to_dict` writes `stat: None`, and `from_json` then subscripts None.
   */
  lemma NoStatDictDoesNotReadBack(code: PyValue, name: PyValue)
    ensures var d := map[KStr("code") := code, KStr("name") := name, KStr("stat") := PyNone];
      KStr("stat") in d && KeysPresent(d[KStr("stat")]) < 7 && Subscript(d[KStr("stat")], "hit_chg_pct") == Raised(TypeError)
  {
  }

  /** The common parameters handed to a strategy. */
  datatype CommonParam = CommonParam(testEndDate: PyValue, testTradeDays: int)

  /**
   * `Strategy.run`: None when `test` found nothing, otherwise the result's
   * JSON text, `to_json`: the encoding `dumps` (`json.dumps` with the
   * module's default handler) of the result's dictionary.
   */
  method Run(rs: StrategyResult?, dumps: map<PyKey, PyValue> -> string) returns (js: Option<string>)
    ensures rs == null <==> js.None?
    ensures rs != null ==> js == Some(dumps(rs.ToDict()))
  {
    if rs == null {
      return None;
    }
    return Some(dumps(rs.ToDict()));
  }

  /** Base `help`: ''. */
  function DefaultHelp(): (s: string)
    ensures |s| == 0
  {
    ""
  }

  /** Base `name` reads `self.__qualname__`, which instances do not have: it always raises AttributeError. */
  function DefaultName(): (r: Outcome<string>)
    ensures r.Raised?
  {
    Raised(AttributeError)
  }

  /** Base `accept`: stocks only. */
  function DefaultAccept(): (r: seq<int>)
    ensures r == [Stock]
  {
    [Stock]
  }

  /** Base `prepare`: True. */
  function DefaultPrepare(): (ok: bool)
    ensures ok
  {
    true
  }
}
