// The Python shock-rise strategy: a recent break-up (a run of up days that each
// clear the previous day's high) following a long, quiet sideways stretch
// that stayed below today's close.
module ShockRise {
  import opened Wrappers
  import opened Num
  import opened Common
  import opened PyStrategy
  import opened Scan

  /**
   * A break-up day: not the oldest bar of the window, a non-negative change,
   * a white candle, and the next older day's high above this day's low.
   */
  function BreakDay(kdata: seq<Bar>): int -> bool
  {
    i => 0 <= i && i + 1 < |kdata| && kdata[i].chgPct >= 0.0 && kdata[i].close > kdata[i].open && kdata[i + 1].high > kdata[i].low
  }

  /** A quiet day: a daily move below the per-day maximum and a high below the latest close. */
  function ShockDay(kdata: seq<Bar>, latestClose: real, maxPerDayPct: real): int -> bool
  {
    i => 0 <= i < |kdata| && Abs(kdata[i].chgPct) < maxPerDayPct && kdata[i].high < latestClose
  }

  /** The sum of chg_pct over the bars a..b-1. */
  function SumChg(kdata: seq<Bar>, a: int, b: int): real
    requires 0 <= a && b <= |kdata|
    decreases b - a
  {
    if b <= a then 0.0 else SumChg(kdata, a, b - 1) + kdata[b - 1].chgPct
  }

  function MinInt(a: int, b: int): int { if a <= b then a else b }
  function MaxInt(a: int, b: int): int { if a >= b then a else b }

  /** The thresholds a scan reads. */
  datatype Config = Config(minBreakDays: int, minBreakUpPct: real, minShockDays: int, maxShockPerDayPct: real, maxShockPct: real)

  /** What phase 1 records: run length, hit, hit_max and the summed change. */
  datatype BreakUp = BreakUp(run: nat, hit: nat, hitMax: nat, pct: real)

  /** What phase 2 records: run length, shock_index, shock_max_index and the signed change over the counted days. */
  datatype Shock = Shock(run: nat, startIndex: nat, endIndex: nat, pct: real)

  /** The break-up phase over a window, as the first loop leaves it. */
  function BreakUpOf(kdata: seq<Bar>, minBreakDays: int): (b: BreakUp)
    ensures b.run <= |kdata| && b.hit < |kdata| + 1 && b.hitMax < |kdata| + 1
    ensures kdata != [] ==> b.hit < |kdata| && b.hitMax < |kdata|
  {
    var run := RunLength(BreakDay(kdata), 0, |kdata|);
    BreakUp(run, if 1 <= minBreakDays <= run then minBreakDays - 1 else 0, if run > 0 then run - 1 else 0, SumChg(kdata, 0, run))
  }

  /**
   * The quiet phase over kdata[start..], as the second loop leaves it: the
   * run length, the index of the last counted day, the index of the last
   * day of the run, and the signed change summed over the first
   * min_shock_days days of the run.
   */
  function ShockOf(kdata: seq<Bar>, start: nat, c: Config): (s: Shock)
    requires 0 < |kdata| && start <= |kdata|
    ensures s.startIndex < |kdata| && s.endIndex < |kdata|
  {
    var run := RunLength(ShockDay(kdata, kdata[0].close, c.maxShockPerDayPct), start, |kdata|);
    var counted := MinInt(run, MaxInt(c.minShockDays, 0));
    Shock(run, if counted > 0 then start + counted - 1 else 0, if run > 0 then start + run - 1 else 0, SumChg(kdata, start, start + counted))
  }

  /** The marks of a hit, inserted in the order hit, hit_max, shock_start, shock_end (a later insert wins on a shared date). */
  function Marks(kdata: seq<Bar>, b: BreakUp, s: Shock): map<int, string>
    requires b.hit < |kdata| && b.hitMax < |kdata| && s.startIndex < |kdata| && s.endIndex < |kdata|
  {
    map[kdata[b.hit].tradeDate.day := "hit"][kdata[b.hitMax].tradeDate.day := "hit_max"]
       [kdata[s.startIndex].tradeDate.day := "shock_start"][kdata[s.endIndex].tradeDate.day := "shock_end"]
  }

  datatype Hit<S> = Hit(code: string, name: string, mark: map<int, string>, stat: S)

  /**
   * What `test` yields for the thresholds `c`: an AttributeError without
   * common parameters; no hit when min_shock_days exceeds test_trade_days or
   * the window is missing or short; an IndexError on an empty window (its
   * first close is read); then the break-up phase must reach min_break_days
   * days and min_break_up_pct in total, at least min_shock_days bars must
   * remain after hit_max, and the quiet phase that follows must last
   * min_shock_days days with a net move of at most max_shock_pct.
   */
  function Expected<S>(c: Config, cmm: Option<CommonParam>, code: string, name: string, load: Option<seq<Bar>>,
                       stat: (seq<Bar>, nat, nat) -> Outcome<S>): Outcome<Option<Hit<S>>>
  {
    if cmm.None? then Raised(AttributeError)
    else if c.minShockDays > cmm.value.testTradeDays then Returned(None)
    else if load.None? || |load.value| < cmm.value.testTradeDays then Returned(None)
    else
      var kdata := load.value;
      if kdata == [] then Raised(IndexError)
      else
        var b := BreakUpOf(kdata, c.minBreakDays);
        if b.run < c.minBreakDays || b.pct < c.minBreakUpPct then Returned(None)
        else if |kdata| - (b.hitMax + 1) < c.minShockDays then Returned(None)
        else
          var s := ShockOf(kdata, b.hitMax + 1, c);
          if Abs(s.pct) > c.maxShockPct || s.run < c.minShockDays then Returned(None)
          else
            match stat(kdata, b.hit, b.hitMax)
            case Raised(e) => Raised(e)
            case Returned(st) => Returned(Some(Hit(code, name, Marks(kdata, b, s), st)))
  }

  /** The first loop of `test`: the break-up run from the most recent day. */
  method ScanBreakUp(kdata: seq<Bar>, minBreakDays: int) returns (b: BreakUp)
    ensures b == BreakUpOf(kdata, minBreakDays)
  {
    var hitDays := 0;
    var hit, hitMax := 0, 0;
    var breakUpPct := 0.0;
    var index := 0;
    while index < |kdata|
      invariant 0 <= index <= |kdata| && hitDays == index
      invariant forall i :: 0 <= i < index ==> BreakDay(kdata)(i)
      invariant breakUpPct == SumChg(kdata, 0, index)
      invariant hit == if 1 <= minBreakDays <= hitDays then minBreakDays - 1 else 0
      invariant hitMax == if hitDays > 0 then hitDays - 1 else 0
    {
      if index + 1 < |kdata| {
        var lastHigh := kdata[index + 1].high;
        var d := kdata[index];
        if d.chgPct >= 0.0 && d.close > d.open && lastHigh > d.low {
          hitDays := hitDays + 1;
          breakUpPct := breakUpPct + d.chgPct;
          if hitDays == minBreakDays {
            hit := index;
          }
          hitMax := index;
          index := index + 1;
          continue;
        }
      }
      break;
    }
    MaximalRunUnique(BreakDay(kdata), 0, |kdata|, hitDays);
    b := BreakUp(hitDays, hit, hitMax, breakUpPct);
  }

  /** The second loop of `test`: the quiet run over kdata[start..] (indices reported in kdata's terms). */
  method ScanShock(kdata: seq<Bar>, start: nat, c: Config) returns (s: Shock)
    requires 0 < |kdata| && start <= |kdata|
    ensures s == ShockOf(kdata, start, c)
  {
    var nClose := kdata[0].close;
    var testData := kdata[start..];
    var shockHitDays := 0;
    var shockPct := 0.0;
    var shockIndex, shockMaxIndex := 0, 0;
    var index := 0;
    ghost var p := ShockDay(kdata, nClose, c.maxShockPerDayPct);
    while index < |testData|
      invariant 0 <= index <= |testData| && shockHitDays == index
      invariant forall i :: start <= i < start + index ==> p(i)
      invariant var counted := MinInt(index, MaxInt(c.minShockDays, 0));
        shockPct == SumChg(kdata, start, start + counted)
        && shockIndex == (if counted > 0 then start + counted - 1 else 0)
      invariant shockMaxIndex == if index > 0 then start + index - 1 else 0
    {
      var d := testData[index];
      if Abs(d.chgPct) < c.maxShockPerDayPct && d.high < nClose {
        assert p(start + index);
        shockHitDays := shockHitDays + 1;
        if index < c.minShockDays {
          shockIndex := index + start;
          shockPct := shockPct + d.chgPct;
        }
        shockMaxIndex := index + start;
        index := index + 1;
        continue;
      }
      break;
    }
    MaximalRunUnique(p, start, |kdata|, shockHitDays);
    s := Shock(shockHitDays, shockIndex, shockMaxIndex, shockPct);
  }

  class ShockRise {
    var strategyType: seq<int>
    var cmmParams: Option<CommonParam>
    var params: Option<map<string, string>>
    var minBreakDays: int
    var minBreakUpPct: real
    /** Set only by `prepare`; the constructor does not create it. */
    var maxUpperShadowPct: Option<real>
    var minShockDays: int
    var maxShockPerDayPct: real
    var maxShockPct: real

    function Current(): Config
      reads this
    {
      Config(minBreakDays, minBreakUpPct, minShockDays, maxShockPerDayPct, maxShockPct)
    }

    /** `ShockRise(...)`: defaults 3 break days, 5% break-up, 15 quiet days, 7% per day, 15% in total. */
    constructor (strategyType: seq<int>, cmmParams: Option<CommonParam>, params: Option<map<string, string>>)
      ensures this.strategyType == strategyType && this.cmmParams == cmmParams && this.params == params
      ensures Current() == Config(3, 5.0, 15, 7.0, 15.0) && maxUpperShadowPct.None?
    {
      this.strategyType := strategyType;
      this.cmmParams := cmmParams;
      this.params := params;
      minBreakDays := 3;
      minBreakUpPct := 5.0;
      maxUpperShadowPct := None;
      minShockDays := 15;
      maxShockPerDayPct := 7.0;
      maxShockPct := 15.0;
    }

    /**
     * `prepare`: converts min_break_days, min_break_up_pct,
     * max_upper_shadow_pct, min_shock_days, max_shock_per_day_pct and
     * max_shock_pct in that order. A ValueError (None from `toInt`/`toFloat`)
     * returns False, and so does a min_shock_days above test_trade_days
     * (after it has been stored); comparing it without common parameters
     * raises AttributeError. Fields converted before the stop keep their
     * new values.
     */
    method Prepare(toInt: string -> Option<int>, toFloat: string -> Option<real>) returns (o: Outcome<bool>)
      modifies this
      ensures strategyType == old(strategyType) && cmmParams == old(cmmParams) && params == old(params)
      ensures params.None? ==> o == Returned(true) && Current() == old(Current()) && maxUpperShadowPct == old(maxUpperShadowPct)
      ensures params.Some? ==>
        var p := params.value;
        var ok2 := BreakConverts(p, toInt, toFloat);
        var shockGiven := ok2 && "min_shock_days" in p && toInt(p["min_shock_days"]).Some?;
        && (o.Raised? <==> shockGiven && cmmParams.None?)
        && (o.Raised? ==> o.error == AttributeError)
        && (o == Returned(true) <==> ok2 && ShockConverts(p, cmmParams, toInt, toFloat))
        && minBreakDays == (if "min_break_days" in p && IntConverts(p, "min_break_days", toInt) then toInt(p["min_break_days"]).value else old(minBreakDays))
        && minBreakUpPct == (if "min_break_up_pct" in p && IntConverts(p, "min_break_days", toInt) && FloatConverts(p, "min_break_up_pct", toFloat) then toFloat(p["min_break_up_pct"]).value else old(minBreakUpPct))
        && maxUpperShadowPct == (if "max_upper_shadow_pct" in p && ok2 then Some(toFloat(p["max_upper_shadow_pct"]).value) else old(maxUpperShadowPct))
        && minShockDays == (if shockGiven then toInt(p["min_shock_days"]).value else old(minShockDays))
        && maxShockPerDayPct == (if "max_shock_per_day_pct" in p && ok2 && ShockDaysFit(p, cmmParams, toInt) && FloatConverts(p, "max_shock_per_day_pct", toFloat) then toFloat(p["max_shock_per_day_pct"]).value else old(maxShockPerDayPct))
        && maxShockPct == (if "max_shock_pct" in p && ok2 && ShockConverts(p, cmmParams, toInt, toFloat) then toFloat(p["max_shock_pct"]).value else old(maxShockPct))
    {
      if params.Some? {
        var ok := PrepareBreak(params.value, toInt, toFloat);
        if !ok {
          return Returned(false);
        }
        o := PrepareShock(params.value, toInt, toFloat);
      } else {
        o := Returned(true);
      }
    }

    /** The first three conversions of `prepare`. */
    method PrepareBreak(p: map<string, string>, toInt: string -> Option<int>, toFloat: string -> Option<real>) returns (ok: bool)
      modifies this
      ensures strategyType == old(strategyType) && cmmParams == old(cmmParams) && params == old(params)
      ensures minShockDays == old(minShockDays) && maxShockPerDayPct == old(maxShockPerDayPct) && maxShockPct == old(maxShockPct)
      ensures ok == BreakConverts(p, toInt, toFloat)
      ensures minBreakDays == (if "min_break_days" in p && IntConverts(p, "min_break_days", toInt) then toInt(p["min_break_days"]).value else old(minBreakDays))
      ensures minBreakUpPct == (if "min_break_up_pct" in p && IntConverts(p, "min_break_days", toInt) && FloatConverts(p, "min_break_up_pct", toFloat) then toFloat(p["min_break_up_pct"]).value else old(minBreakUpPct))
      ensures maxUpperShadowPct == (if "max_upper_shadow_pct" in p && ok then Some(toFloat(p["max_upper_shadow_pct"]).value) else old(maxUpperShadowPct))
    {
      if "min_break_days" in p {
        var v := toInt(p["min_break_days"]);
        if v.None? { return false; }
        minBreakDays := v.value;
      }
      if "min_break_up_pct" in p {
        var v := toFloat(p["min_break_up_pct"]);
        if v.None? { return false; }
        minBreakUpPct := v.value;
      }
      if "max_upper_shadow_pct" in p {
        var v := toFloat(p["max_upper_shadow_pct"]);
        if v.None? { return false; }
        maxUpperShadowPct := Some(v.value);
      }
      return true;
    }

    /** The last three conversions of `prepare`, with the test_trade_days bound on min_shock_days. */
    method PrepareShock(p: map<string, string>, toInt: string -> Option<int>, toFloat: string -> Option<real>) returns (o: Outcome<bool>)
      modifies this
      ensures strategyType == old(strategyType) && cmmParams == old(cmmParams) && params == old(params)
      ensures minBreakDays == old(minBreakDays) && minBreakUpPct == old(minBreakUpPct) && maxUpperShadowPct == old(maxUpperShadowPct)
      ensures o.Raised? <==> "min_shock_days" in p && toInt(p["min_shock_days"]).Some? && cmmParams.None?
      ensures o.Raised? ==> o.error == AttributeError
      ensures o == Returned(true) <==> ShockConverts(p, cmmParams, toInt, toFloat)
      ensures minShockDays == (if "min_shock_days" in p && toInt(p["min_shock_days"]).Some? then toInt(p["min_shock_days"]).value else old(minShockDays))
      ensures maxShockPerDayPct == (if "max_shock_per_day_pct" in p && ShockDaysFit(p, cmmParams, toInt) && FloatConverts(p, "max_shock_per_day_pct", toFloat) then toFloat(p["max_shock_per_day_pct"]).value else old(maxShockPerDayPct))
      ensures maxShockPct == (if "max_shock_pct" in p && ShockConverts(p, cmmParams, toInt, toFloat) then toFloat(p["max_shock_pct"]).value else old(maxShockPct))
    {
      if "min_shock_days" in p {
        var v := toInt(p["min_shock_days"]);
        if v.None? { return Returned(false); }
        minShockDays := v.value;
        if cmmParams.None? { return Raised(AttributeError); }
        if minShockDays > cmmParams.value.testTradeDays { return Returned(false); }
      }
      if "max_shock_per_day_pct" in p {
        var v := toFloat(p["max_shock_per_day_pct"]);
        if v.None? { return Returned(false); }
        maxShockPerDayPct := v.value;
      }
      if "max_shock_pct" in p {
        var v := toFloat(p["max_shock_pct"]);
        if v.None? { return Returned(false); }
        maxShockPct := v.value;
      }
      return Returned(true);
    }

    /**
     * `test` for one code. `load` is what `load_kdata` returned (None, or the
     * window of daily bars, most recent first); `stat` is `stat_result`.
     */
    method Test<S>(code: string, name: string, load: Option<seq<Bar>>, stat: (seq<Bar>, nat, nat) -> Outcome<S>)
      returns (o: Outcome<Option<Hit<S>>>)
      ensures o == Expected(Current(), cmmParams, code, name, load, stat)
    {
      if cmmParams.None? {
        return Raised(AttributeError);
      }
      if minShockDays > cmmParams.value.testTradeDays {
        return Returned(None);
      }
      if load.None? || |load.value| < cmmParams.value.testTradeDays {
        return Returned(None);
      }
      var kdata := load.value;
      if |kdata| == 0 {
        return Raised(IndexError);
      }
      var c := Current();
      var b := ScanBreakUp(kdata, minBreakDays);
      if b.run < minBreakDays {
        return Returned(None);
      }
      if b.pct < minBreakUpPct {
        return Returned(None);
      }
      if |kdata[b.hitMax + 1..]| < minShockDays {
        return Returned(None);
      }
      var s := ScanShock(kdata, b.hitMax + 1, c);
      if Abs(s.pct) > maxShockPct || s.run < minShockDays {
        return Returned(None);
      }
      var st := stat(kdata, b.hit, b.hitMax);
      if st.Raised? {
        return Raised(st.error);
      }
      return Returned(Some(Hit(code, name, Marks(kdata, b, s), st.value)));
    }
  }

  predicate IntConverts(p: map<string, string>, key: string, toInt: string -> Option<int>)
  {
    key !in p || toInt(p[key]).Some?
  }

  predicate FloatConverts(p: map<string, string>, key: string, toFloat: string -> Option<real>)
  {
    key !in p || toFloat(p[key]).Some?
  }

  /** The first three keys of `prepare` all convert. */
  predicate BreakConverts(p: map<string, string>, toInt: string -> Option<int>, toFloat: string -> Option<real>)
  {
    IntConverts(p, "min_break_days", toInt) && FloatConverts(p, "min_break_up_pct", toFloat)
    && FloatConverts(p, "max_upper_shadow_pct", toFloat)
  }

  /** min_shock_days, when given, converts and does not exceed test_trade_days. */
  predicate ShockDaysFit(p: map<string, string>, cmm: Option<CommonParam>, toInt: string -> Option<int>)
  {
    "min_shock_days" in p ==>
      toInt(p["min_shock_days"]).Some? && cmm.Some? && toInt(p["min_shock_days"]).value <= cmm.value.testTradeDays
  }

  /** The last three keys of `prepare` all convert and min_shock_days fits. */
  predicate ShockConverts(p: map<string, string>, cmm: Option<CommonParam>, toInt: string -> Option<int>, toFloat: string -> Option<real>)
  {
    ShockDaysFit(p, cmm, toInt) && FloatConverts(p, "max_shock_per_day_pct", toFloat) && FloatConverts(p, "max_shock_pct", toFloat)
  }

  /**
   * On a hit with min_shock_days >= 1 the shock marks sit min_shock_days and
   * `run` days past hit_max, every day between hit_max and the shock end is
   * quiet, and the oldest bar of the window never counts as a break-up day.
   */
  lemma ShockMarksPositions(kdata: seq<Bar>, c: Config)
    requires 0 < |kdata|
    requires var b := BreakUpOf(kdata, c.minBreakDays); b.hitMax + 1 <= |kdata|
    requires var b := BreakUpOf(kdata, c.minBreakDays); ShockOf(kdata, b.hitMax + 1, c).run >= c.minShockDays >= 1
    ensures var b := BreakUpOf(kdata, c.minBreakDays); var s := ShockOf(kdata, b.hitMax + 1, c);
      s.startIndex == b.hitMax + c.minShockDays && s.endIndex == b.hitMax + s.run
    ensures var b := BreakUpOf(kdata, c.minBreakDays); var s := ShockOf(kdata, b.hitMax + 1, c);
      forall i :: b.hitMax < i <= s.endIndex ==> Abs(kdata[i].chgPct) < c.maxShockPerDayPct && kdata[i].high < kdata[0].close
    ensures !BreakDay(kdata)(|kdata| - 1)
  {
    var b := BreakUpOf(kdata, c.minBreakDays);
    var s := ShockOf(kdata, b.hitMax + 1, c);
    var p := ShockDay(kdata, kdata[0].close, c.maxShockPerDayPct);
    assert IsMaximalRun(p, b.hitMax + 1, |kdata|, s.run);
    forall i | b.hitMax < i <= s.endIndex
      ensures Abs(kdata[i].chgPct) < c.maxShockPerDayPct && kdata[i].high < kdata[0].close
    {
      assert p(i);
    }
  }
}
