// The Python MA-turn strategy: over a daily window ordered most recent first,
// the moving average must have risen for a few recent days (the turn), fallen
// for a while before that, and risen for a longer stretch before the fall.
module MaTurn {
  import opened Wrappers
  import opened Common
  import opened PyStrategy
  import MovingAverage
  import opened Scan

  /** Index i of the averaged series is above the older index i + 1. */
  function AboveOlder(ma: seq<real>): int -> bool
  {
    i => 0 <= i && i + 1 < |ma| && ma[i] > ma[i + 1]
  }

  /** Index i of the averaged series is below the older index i + 1. */
  function BelowOlder(ma: seq<real>): int -> bool
  {
    i => 0 <= i && i + 1 < |ma| && ma[i] < ma[i + 1]
  }

  function Closes(kdata: seq<Bar>): (c: seq<real>)
    ensures |c| == |kdata|
  {
    seq(|kdata|, i requires 0 <= i < |kdata| => kdata[i].close)
  }

  /** The three phase boundaries of a scan: hit, hit2 and hit3, and the three run lengths. */
  datatype Phases = Phases(run1: nat, run2: nat, run3: nat, hit: nat, hit2: nat, hit3: nat)

  /** The phases of the scan over an averaged series, with `n` the exclusive end of every phase. */
  function ScanPhases(ma: seq<real>, n: int): (p: Phases)
    ensures p.hit == p.run1 && p.hit2 == p.hit + p.run2 && p.hit3 == p.hit2 + p.run3
  {
    var run1 := RunLength(AboveOlder(ma), 0, n);
    var run2 := RunLength(BelowOlder(ma), run1 + 1, n);
    var run3 := RunLength(AboveOlder(ma), run1 + run2 + 1, n);
    Phases(run1, run2, run3, run1, run1 + run2, run1 + run2 + run3)
  }

  /** The marks: the bars at hit, hit2 and hit3 keyed by date (a later insert wins on a shared date). */
  function Marks(kdata: seq<Bar>, p: Phases): map<int, Bar>
    requires p.hit < |kdata| && p.hit2 < |kdata| && p.hit3 < |kdata|
  {
    map[kdata[p.hit].tradeDate.day := kdata[p.hit]][kdata[p.hit2].tradeDate.day := kdata[p.hit2]][kdata[p.hit3].tradeDate.day := kdata[p.hit3]]
  }

  /** The `StrategyResult` of a hit: code, name and marks; stat is None. */
  datatype Hit = Hit(code: string, name: string, mark: map<int, Bar>)

  /** Counts the run of indices from start (below end) that satisfy p, one `for` loop of the scan. */
  method CountRun(p: int -> bool, start: int, end: int) returns (hitDays: nat)
    ensures hitDays == RunLength(p, start, end)
  {
    hitDays := 0;
    var curr := start;
    while curr < end
      invariant curr == start + hitDays
      invariant hitDays == 0 || curr <= end
      invariant forall i :: start <= i < curr ==> p(i)
    {
      if p(curr) {
        hitDays := hitDays + 1;
        curr := curr + 1;
      } else {
        break;
      }
    }
    MaximalRunUnique(p, start, end, hitDays);
  }

  /** The parameter names `prepare` reads. */
  const MaKey: string := "ma"
  const MinUpDaysKey: string := "min_up_days"
  const MinUpPctKey: string := "min_up_pct"
  const MinDownDaysKey: string := "min_down_days"
  const MinTurnDaysKey: string := "min_turn_days"

  class MaTurn {
    var strategyType: seq<int>
    var cmmParams: Option<CommonParam>
    var params: Option<map<string, string>>
    var ma: int
    var minUpDays: int
    var minUpPct: real
    var minDownDays: int
    var minTurnDays: int
    var maxTurnDays: int

    /** `MaTurn(...)`: the defaults ma 5, min_up_days 10, min_up_pct 20, min_down_days 5, min_turn_days 2, max_turn_days 5. */
    constructor (strategyType: seq<int>, cmmParams: Option<CommonParam>, params: Option<map<string, string>>)
      ensures this.strategyType == strategyType && this.cmmParams == cmmParams && this.params == params
      ensures ma == 5 && minUpDays == 10 && minUpPct == 20.0 && minDownDays == 5 && minTurnDays == 2 && maxTurnDays == 5
    {
      this.strategyType := strategyType;
      this.cmmParams := cmmParams;
      this.params := params;
      ma := 5;
      minUpDays := 10;
      minUpPct := 20.0;
      minDownDays := 5;
      minTurnDays := 2;
      maxTurnDays := 5;
    }

    /**
     * `prepare`: converts ma, min_up_days, min_up_pct, min_down_days and
     * min_turn_days in that order with Python's `int`/`float` (given as
     * `toInt`/`toFloat`, None for a ValueError). The first failure returns
     * False, keeping the fields converted before it; max_turn_days is never
     * read from the parameters.
     */
    method Prepare(toInt: string -> Option<int>, toFloat: string -> Option<real>) returns (ok: bool)
      modifies this
      ensures strategyType == old(strategyType) && cmmParams == old(cmmParams) && params == old(params)
      ensures maxTurnDays == old(maxTurnDays)
      ensures params.None? ==>
        ok && ma == old(ma) && minUpDays == old(minUpDays) && minUpPct == old(minUpPct)
        && minDownDays == old(minDownDays) && minTurnDays == old(minTurnDays)
      ensures params.Some? ==>
        var p := params.value;
        var ok0 := Converts(p, MaKey, toInt);
        var ok1 := ok0 && Converts(p, MinUpDaysKey, toInt);
        var ok2 := ok1 && ConvertsFloat(p, MinUpPctKey, toFloat);
        var ok3 := ok2 && Converts(p, MinDownDaysKey, toInt);
        var ok4 := ok3 && Converts(p, MinTurnDaysKey, toInt);
        && ok == ok4
        && ma == (if MaKey in p && ok0 then toInt(p[MaKey]).value else old(ma))
        && minUpDays == (if MinUpDaysKey in p && ok1 then toInt(p[MinUpDaysKey]).value else old(minUpDays))
        && minUpPct == (if MinUpPctKey in p && ok2 then toFloat(p[MinUpPctKey]).value else old(minUpPct))
        && minDownDays == (if MinDownDaysKey in p && ok3 then toInt(p[MinDownDaysKey]).value else old(minDownDays))
        && minTurnDays == (if MinTurnDaysKey in p && ok4 then toInt(p[MinTurnDaysKey]).value else old(minTurnDays))
    {
      if params.Some? {
        var p := params.value;
        if MaKey in p {
          var v := toInt(p[MaKey]);
          if v.None? { return false; }
          ma := v.value;
        }
        if MinUpDaysKey in p {
          var v := toInt(p[MinUpDaysKey]);
          if v.None? { return false; }
          minUpDays := v.value;
        }
        if MinUpPctKey in p {
          var v := toFloat(p[MinUpPctKey]);
          if v.None? { return false; }
          minUpPct := v.value;
        }
        if MinDownDaysKey in p {
          var v := toInt(p[MinDownDaysKey]);
          if v.None? { return false; }
          minDownDays := v.value;
        }
        if MinTurnDaysKey in p {
          var v := toInt(p[MinTurnDaysKey]);
          if v.None? { return false; }
          minTurnDays := v.value;
        }
      }
      return true;
    }

    /**
     * `test` for one code. `load` is what `load_kdata` returned: None, or the
     * window of daily bars ending at test_end_date, most recent first. The
     * moving average of the closes is scanned in three phases from the most
     * recent day: a rise of min_turn_days..max_turn_days days, then (skipping
     * one index) a fall of at least min_down_days, then (skipping one index)
     * a rise of at least min_up_days. min_up_pct plays no part.
     */
    method Test(code: string, name: string, load: Option<seq<Bar>>) returns (o: Outcome<Option<Hit>>)
      ensures o == Expected(Config(ma, minUpDays, minDownDays, minTurnDays, maxTurnDays), cmmParams, code, name, load)
    {
      if cmmParams.None? {
        return Raised(AttributeError);
      }
      if load.None? || |load.value| < cmmParams.value.testTradeDays {
        return Returned(None);
      }
      o := Judge(Config(ma, minUpDays, minDownDays, minTurnDays, maxTurnDays), code, name, load.value);
    }
  }

  /** The part of `test` after the window is loaded: the bindings' errors, then the scan. */
  method Judge(c: Config, code: string, name: string, kdata: seq<Bar>) returns (o: Outcome<Option<Hit>>)
    ensures o == Verdict(c, code, name, kdata)
  {
    if c.ma < 0 {
      return Raised(OverflowError);
    }
    if c.ma == 0 && |kdata| > 0 {
      return Raised(PanicException);
    }
    var avg := MovingAverage.MA(Closes(kdata), c.ma);
    o := Decide(c, code, name, kdata, avg);
  }

  /** The scan of `test` over the averaged series and the hit it builds. */
  method Decide(c: Config, code: string, name: string, kdata: seq<Bar>, avg: seq<real>) returns (o: Outcome<Option<Hit>>)
    requires c.ma >= 0 && |avg| == |kdata|
    ensures o == Averaged(c, code, name, kdata, avg)
  {
    var found := ScanTurn(avg, |avg| - c.ma - 1, c);
    if found.None? {
      o := Returned(None);
    } else if |kdata| == 0 {
      o := Raised(IndexError);
    } else {
      o := Returned(Some(Hit(code, name, Marks(kdata, found.value))));
      ScannedHit(c, code, name, kdata, found.value);
    }
  }

  lemma ScannedHit(c: Config, code: string, name: string, kdata: seq<Bar>, p: Phases)
    requires Passes(p, c) && Fits(p, kdata) && |kdata| > 0
    ensures Scanned(c, code, name, kdata, p) == Returned(Some(Hit(code, name, Marks(kdata, p))))
  {
  }

  /** Passing phases index the window the average was taken over. */
  lemma PhasesFit(c: Config, kdata: seq<Bar>, avg: seq<real>)
    requires c.ma >= 0 && |avg| == |kdata|
    ensures Passes(ScanPhases(avg, |avg| - c.ma - 1), c) ==> Fits(ScanPhases(avg, |avg| - c.ma - 1), kdata)
  {
    PhasesInWindow(avg, c.ma);
  }

  /** The phase boundaries index a non-empty window. */
  predicate Fits(p: Phases, kdata: seq<Bar>)
  {
    |kdata| > 0 ==> p.hit < |kdata| && p.hit2 < |kdata| && p.hit3 < |kdata|
  }

  /** Whether the scanned phases pass every threshold. */
  predicate Passes(p: Phases, c: Config)
  {
    c.minTurnDays <= p.run1 <= c.maxTurnDays && p.run2 >= c.minDownDays && p.run3 >= c.minUpDays
  }

  /**
   * The three `for` loops of `test` with their early returns: the phases when
   * they pass the thresholds, None as soon as one phase falls short.
   */
  method ScanTurn(avg: seq<real>, n: int, c: Config) returns (found: Option<Phases>)
    ensures found.Some? <==> Passes(ScanPhases(avg, n), c)
    ensures found.Some? ==> found.value == ScanPhases(avg, n)
    ensures found.Some? ==> found.value.hit3 <= (if n > 0 then n else 0)
  {
    var run1 := CountRun(AboveOlder(avg), 0, n);
    var hit := run1;
    if run1 < c.minTurnDays || run1 > c.maxTurnDays {
      return None;
    }
    var run2 := CountRun(BelowOlder(avg), hit + 1, n);
    var hit2 := hit + run2;
    if run2 < c.minDownDays {
      return None;
    }
    var run3 := CountRun(AboveOlder(avg), hit2 + 1, n);
    var hit3 := hit2 + run3;
    if run3 < c.minUpDays {
      return None;
    }
    return Some(Phases(run1, run2, run3, hit, hit2, hit3));
  }

  /** The thresholds a scan reads. */
  datatype Config = Config(ma: int, minUpDays: int, minDownDays: int, minTurnDays: int, maxTurnDays: int)

  /**
   * What `test` yields: an AttributeError without common parameters, no hit
   * for a missing or short window, the bindings' errors for a negative or
   * zero average length, then the three-phase verdict, and an IndexError
   * when an empty window passes every threshold.
   */
  function Expected(c: Config, cmm: Option<CommonParam>, code: string, name: string, load: Option<seq<Bar>>): Outcome<Option<Hit>>
  {
    if cmm.None? then Raised(AttributeError)
    else if load.None? || |load.value| < cmm.value.testTradeDays then Returned(None)
    else Verdict(c, code, name, load.value)
  }

  /** What `test` yields once the window `kdata` is loaded. */
  function Verdict(c: Config, code: string, name: string, kdata: seq<Bar>): Outcome<Option<Hit>>
  {
    if c.ma < 0 then Raised(OverflowError)
    else if c.ma == 0 && |kdata| > 0 then Raised(PanicException)
    else Averaged(c, code, name, kdata, MovingAverage.MaSpec(Closes(kdata), c.ma))
  }

  /** The verdict over the averaged series `avg` of the window. */
  function Averaged(c: Config, code: string, name: string, kdata: seq<Bar>, avg: seq<real>): Outcome<Option<Hit>>
    requires c.ma >= 0 && |avg| == |kdata|
  {
    PhasesFit(c, kdata, avg);
    Scanned(c, code, name, kdata, ScanPhases(avg, |avg| - c.ma - 1))
  }

  /** The three-phase verdict from the scanned phases `p` of the window. */
  function Scanned(c: Config, code: string, name: string, kdata: seq<Bar>, p: Phases): Outcome<Option<Hit>>
    requires Passes(p, c) ==> Fits(p, kdata)
  {
    if !Passes(p, c) then Returned(None)
    else if |kdata| == 0 then Raised(IndexError)
    else Returned(Some(Hit(code, name, Marks(kdata, p))))
  }

  predicate Converts(p: map<string, string>, key: string, toInt: string -> Option<int>)
  {
    key !in p || toInt(p[key]).Some?
  }

  predicate ConvertsFloat(p: map<string, string>, key: string, toFloat: string -> Option<real>)
  {
    key !in p || toFloat(p[key]).Some?
  }

  /**
   * The phase boundaries are ordered and stay inside the scanned range, so
   * hit <= hit2 <= hit3 are indices of any non-empty window the average was
   * taken over (n = len - ma - 1 with ma >= 1 leaves the two oldest bars out).
   */
  lemma {:induction false} PhasesInWindow(avg: seq<real>, m: int)
    requires m >= 0
    ensures var p := ScanPhases(avg, |avg| - m - 1);
      p.hit <= p.hit2 <= p.hit3 && p.hit3 <= (if |avg| - m - 1 > 0 then |avg| - m - 1 else 0)
      && (|avg| > 0 ==> p.hit3 < |avg|)
  {
    var n := |avg| - m - 1;
    PhaseRunsWithin(AboveOlder(avg), BelowOlder(avg), n);
  }

  /** Three back-to-back runs, each starting one index past the previous, end by `n`. */
  lemma PhaseRunsWithin(rise: int -> bool, fall: int -> bool, n: int)
    ensures var r1 := RunLength(rise, 0, n);
      var r2 := RunLength(fall, r1 + 1, n);
      var r3 := RunLength(rise, r1 + r2 + 1, n);
      r1 + r2 + r3 <= (if n > 0 then n else 0)
  {
    var r1 := RunLength(rise, 0, n);
    var r2 := RunLength(fall, r1 + 1, n);
    var r3 := RunLength(rise, r1 + r2 + 1, n);
    assert r1 == 0 || r1 <= n;
    assert r2 == 0 || r1 + 1 + r2 <= n;
    assert r3 == 0 || r1 + r2 + 1 + r3 <= n;
  }

  /** A turn needs a rising average right at the most recent day: if index 0 is not above index 1, no window passes a positive min_turn_days. */
  lemma NoTurnWithoutRecentRise(avg: seq<real>, n: int)
    requires n > 0 && !AboveOlder(avg)(0)
    ensures ScanPhases(avg, n).run1 == 0
  {
  }
}
