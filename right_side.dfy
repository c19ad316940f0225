// The right-side strategy: a stock qualifies when its most recent days form a
// run of moderate rises (positive change, volume and amount not shrinking too
// much, short upper and lower shadows) at least min_rise_days long.
module RightSide {
  import opened Wrappers
  import opened Num
  import opened Common
  import opened StrategyLib
  import opened StrategyContract
  import Shadow
  import RustParse
  import opened Scan

  /** The strategy's tunable thresholds, as read by one scan. */
  datatype Thresholds = Thresholds(minRiseDays: Int32, maxShadowPct: real, minVolumeChgPct: real, minAmountChgPct: real)

  /**
   * A qualifying day: a rise whose volume and amount changes reach their
   * minimums and whose upper and lower shadows stay within the maximum. The
   * shadow is computed with the previous close rebuilt as close * (1 + chg_pct / 100).
   */
  predicate RisingDay(b: Bar, c: Thresholds)
  {
    var d := Shadow.Shadow(b.close * (1.0 + b.chgPct / 100.0), b.open, b.close, b.low, b.high);
    b.chgPct > 0.0
    && b.volumeChgPct >= c.minVolumeChgPct
    && b.amountChgPct >= c.minAmountChgPct
    && d.upper <= c.maxShadowPct
    && d.lower <= c.maxShadowPct
  }

  /** The per-index condition of the scan over a window ordered most recent first. */
  function RisingAt(kdata: seq<Bar>, c: Thresholds): int -> bool
  {
    i => 0 <= i < |kdata| && RisingDay(kdata[i], c)
  }

  /** The index recorded as `hit`: the day the run reaches min_rise_days, or 0 if it never does. */
  function HitIndex(run: nat, c: Thresholds): nat
  {
    if 1 <= c.minRiseDays <= run then c.minRiseDays - 1 else 0
  }

  /** The index recorded as `hit_max`: the last (oldest) day of the run, or 0 for an empty run. */
  function HitMaxIndex(run: nat): nat
  {
    if run > 0 then run - 1 else 0
  }

  /** The marks: the bars at hit and hit_max keyed by their dates (the later insert wins on a shared date). */
  function Marks(kdata: seq<Bar>, hit: nat, hitMax: nat): map<int, Bar>
    requires hit < |kdata| && hitMax < |kdata|
  {
    map[kdata[hit].tradeDate.day := kdata[hit]][kdata[hitMax].tradeDate.day := kdata[hitMax]]
  }

  /** What a successful test reports (the constructor the strategy calls takes date-keyed marks). */
  datatype Hit<S> = Hit(code: string, name: string, mark: map<int, Bar>, stat: S)

  /** The window is too short when fewer than test_trade_days bars came back; a negative i64 cast to usize is huge. */
  predicate TooShort(kdata: seq<Bar>, testTradeDays: int)
  {
    testTradeDays < 0 || |kdata| < testTradeDays
  }

  /** The parameter names `prepare` reads. */
  const MinRiseDaysKey: string := "min_rise_days"
  const MaxShadowPctKey: string := "max_shadow_pct"
  const MinVolumeChgPctKey: string := "min_volume_chg_pct"
  const MinAmountChgPctKey: string := "min_amount_chg_pct"

  class RightSide {
    var cmmParams: CommonParam
    var minRiseDays: Int32
    var maxShadowPct: real
    var minVolumeChgPct: real
    var minAmountChgPct: real

    function Current(): Thresholds
      reads this
    {
      Thresholds(minRiseDays, maxShadowPct, minVolumeChgPct, minAmountChgPct)
    }

    /** `RightSide::default`. */
    constructor ()
      ensures cmmParams == DefaultCommonParam()
      ensures Current() == Thresholds(3, 20.0, -10.0, -10.0)
    {
      cmmParams := DefaultCommonParam();
      minRiseDays := 3;
      maxShadowPct := 20.0;
      minVolumeChgPct := -10.0;
      minAmountChgPct := -10.0;
    }

    /**
     * `prepare`: adopts the common parameters when given, then parses
     * min_rise_days (i32), max_shadow_pct, min_volume_chg_pct and
     * min_amount_chg_pct (f32) in that order. Absent keys keep their values;
     * the first value that does not parse ends the call with an error, and
     * the fields assigned before it keep their new values. `parseF32` is
     * Rust's float parser, returning the error's `{:?}` text on failure.
     */
    method Prepare(cmm: Option<CommonParam>, params: Option<map<string, string>>, parseF32: string -> Result<real, string>)
      returns (r: Result<(), Error>)
      modifies this
      ensures cmmParams == if cmm.Some? then cmm.value else old(cmmParams)
      ensures params.None? ==> r.Ok? && Current() == old(Current())
      ensures params.Some? ==>
        var p := params.value;
        var ok0 := IntOk(p, MinRiseDaysKey);
        var ok1 := ok0 && FloatOk(p, MaxShadowPctKey, parseF32);
        var ok2 := ok1 && FloatOk(p, MinVolumeChgPctKey, parseF32);
        var ok3 := ok2 && FloatOk(p, MinAmountChgPctKey, parseF32);
        && (r.Ok? <==> ok3)
        && minRiseDays == (if MinRiseDaysKey in p && ok0 then RustParse.ParseI32(p[MinRiseDaysKey]).value else old(minRiseDays))
        && maxShadowPct == (if MaxShadowPctKey in p && ok1 then parseF32(p[MaxShadowPctKey]).value else old(maxShadowPct))
        && minVolumeChgPct == (if MinVolumeChgPctKey in p && ok2 then parseF32(p[MinVolumeChgPctKey]).value else old(minVolumeChgPct))
        && minAmountChgPct == (if MinAmountChgPctKey in p && ok3 then parseF32(p[MinAmountChgPctKey]).value else old(minAmountChgPct))
    {
      if cmm.Some? {
        cmmParams := cmm.value;
      }
      if params.Some? {
        var p := params.value;
        if MinRiseDaysKey in p {
          var v := RustParse.ParseI32(p[MinRiseDaysKey]);
          if v.Err? {
            return Err(Custom("parse min_rise_days error: " + RustParse.IntErrorDebug(v.error)));
          }
          minRiseDays := v.value;
        }
        if MaxShadowPctKey in p {
          var v := parseF32(p[MaxShadowPctKey]);
          if v.Err? {
            return Err(Custom("parse max_shadow_pct error: " + v.error));
          }
          maxShadowPct := v.value;
        }
        if MinVolumeChgPctKey in p {
          var v := parseF32(p[MinVolumeChgPctKey]);
          if v.Err? {
            return Err(Custom("parse min_volume_chg_pct error: " + v.error));
          }
          minVolumeChgPct := v.value;
        }
        if MinAmountChgPctKey in p {
          var v := parseF32(p[MinAmountChgPctKey]);
          if v.Err? {
            return Err(Custom("parse min_amount_chg_pct error: " + v.error));
          }
          minAmountChgPct := v.value;
        }
      }
      return Ok(());
    }

    /**
     * `test` for one code. `load` is what the loader returned for the window
     * of test_trade_days bars ending at test_end_date (most recent first), or
     * its error; `stat` is the statistics helper. The scan counts the run of
     * rising days from the most recent bar; a run shorter than min_rise_days
     * is no hit, a long enough one reports the bars at hit and hit_max.
     */
    method Test<S>(code: string, name: string, load: Result<seq<Bar>, Error>, stat: (seq<Bar>, nat, nat) -> Result<S, Error>)
      returns (o: Outcome<Result<Option<Hit<S>>, Error>>)
      ensures cmmParams.testEndDate.None? || cmmParams.testTradeDays.None? ==> o.Panicked?
      ensures cmmParams.testEndDate.Some? && cmmParams.testTradeDays.Some? ==>
        if load.Err? then o == Returned(Err(load.error))
        else
          var kdata := load.value;
          var c := Current();
          var run := RunLength(RisingAt(kdata, c), 0, |kdata|);
          var hit, hitMax := HitIndex(run, c), HitMaxIndex(run);
          if TooShort(kdata, cmmParams.testTradeDays.value) || run < minRiseDays then o == Returned(Ok(None))
          else if stat(kdata, hit, hitMax).Err? then o == Returned(Err(stat(kdata, hit, hitMax).error))
          else if kdata == [] then o.Panicked?
          else o == Returned(Ok(Some(Hit(code, name, Marks(kdata, hit, hitMax), stat(kdata, hit, hitMax).value))))
    {
      if cmmParams.testEndDate.None? || cmmParams.testTradeDays.None? {
        return Panicked;
      }
      var testTradeDays := cmmParams.testTradeDays.value;
      if load.Err? {
        return Returned(Err(load.error));
      }
      var kdata := load.value;
      if TooShort(kdata, testTradeDays) {
        return Returned(Ok(None));
      }
      var c := Current();
      var hitDays := 0;
      var hit, hitMax := 0, 0;
      var index := 0;
      while index < |kdata|
        invariant 0 <= index <= |kdata|
        invariant hitDays == index
        invariant forall i :: 0 <= i < index ==> RisingAt(kdata, c)(i)
        invariant hit == HitIndex(hitDays, c)
        invariant hitMax == HitMaxIndex(hitDays)
      {
        if RisingDay(kdata[index], c) {
          hitDays := hitDays + 1;
          if hitDays == minRiseDays {
            hit := index;
          }
          hitMax := index;
          index := index + 1;
        } else {
          break;
        }
      }
      MaximalRunUnique(RisingAt(kdata, c), 0, |kdata|, hitDays);
      if hitDays < minRiseDays {
        return Returned(Ok(None));
      }
      var s := stat(kdata, hit, hitMax);
      if s.Err? {
        return Returned(Err(s.error));
      }
      if |kdata| == 0 {
        return Panicked;
      }
      return Returned(Ok(Some(Hit(code, name, Marks(kdata, hit, hitMax), s.value))));
    }
  }

  predicate IntOk(p: map<string, string>, key: string)
  {
    key !in p || RustParse.ParseI32(p[key]).Ok?
  }

  predicate FloatOk(p: map<string, string>, key: string, parseF32: string -> Result<real, string>)
  {
    key !in p || parseF32(p[key]).Ok?
  }

  /**
   * A hit's run facts: with min_rise_days >= 1, hit = min_rise_days - 1 and
   * hit_max = run - 1 lie inside the window in that order, and every day from
   * the most recent one down to hit_max is a rising day.
   */
  lemma HitWithinRun(kdata: seq<Bar>, c: Thresholds)
    requires 1 <= c.minRiseDays <= RunLength(RisingAt(kdata, c), 0, |kdata|)
    ensures var run := RunLength(RisingAt(kdata, c), 0, |kdata|);
      HitIndex(run, c) == c.minRiseDays - 1 <= HitMaxIndex(run) == run - 1 < |kdata|
    ensures var run := RunLength(RisingAt(kdata, c), 0, |kdata|);
      forall i :: 0 <= i <= HitMaxIndex(run) ==> RisingDay(kdata[i], c)
    ensures var run := RunLength(RisingAt(kdata, c), 0, |kdata|);
      run < |kdata| ==> !RisingDay(kdata[run], c)
  {
    var run := RunLength(RisingAt(kdata, c), 0, |kdata|);
    forall i | 0 <= i <= HitMaxIndex(run) ensures RisingDay(kdata[i], c) {
      assert RisingAt(kdata, c)(i);
    }
    if run < |kdata| {
      assert !RisingAt(kdata, c)(run);
    }
  }
}
