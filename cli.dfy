// The command line of the strategy runner: `key=value` arguments become the
// strategy's parameters, two of which are the common parameters.
module Cli {
  import opened Wrappers
  import opened Common
  import opened StrategyContract
  import RustParse
  import SyncTypes

  function Count(s: string, c: char): nat
  {
    if s == [] then 0 else (if s[0] == c then 1 else 0) + Count(s[1..], c)
  }

  /** `str::split(sep)`: the pieces between separators, one more than there are separators. */
  function Split(s: string, sep: char): (parts: seq<string>)
    ensures |parts| == Count(s, sep) + 1
    ensures forall i :: 0 <= i < |parts| ==> sep !in parts[i]
  {
    if s == [] then [""]
    else
      var rest := Split(s[1..], sep);
      if s[0] == sep then [""] + rest else [[s[0]] + rest[0]] + rest[1..]
  }

  /** The pieces glued back with the separator between them. */
  function Join(parts: seq<string>, sep: char): string
  {
    if parts == [] then "" else if |parts| == 1 then parts[0] else parts[0] + [sep] + Join(parts[1..], sep)
  }

  /** Splitting loses nothing: joining the pieces restores the string. */
  lemma {:induction false} SplitJoin(s: string, sep: char)
    ensures Join(Split(s, sep), sep) == s
  {
    if s != [] {
      var rest := Split(s[1..], sep);
      SplitJoin(s[1..], sep);
      if s[0] == sep {
        assert Split(s, sep) == [""] + rest;
        assert ([""] + rest)[1..] == rest;
      } else {
        var parts := Split(s, sep);
        if |rest| == 1 {
          assert Join(parts, sep) == [s[0]] + rest[0];
        } else {
          assert parts[1..] == rest[1..];
          assert Join(parts, sep) == [s[0]] + rest[0] + [sep] + Join(rest[1..], sep);
        }
      }
    }
  }

  /** An argument of the form key=value: exactly one '='. */
  predicate IsPair(e: string)
  {
    |Split(e, '=')| == 2
  }

  function Key(e: string): string
    requires IsPair(e)
  {
    Split(e, '=')[0]
  }

  function Value(e: string): string
    requires IsPair(e)
  {
    Split(e, '=')[1]
  }

  /** A pair's key and value are the text around its only '='. */
  lemma PairParts(e: string)
    requires IsPair(e)
    ensures e == Key(e) + "=" + Value(e) && '=' !in Key(e) && '=' !in Value(e)
  {
    SplitJoin(e, '=');
    assert Split(e, '=')[1..] == [Value(e)];
  }

  /** `build_params` from the accumulated map `acc`: the first bad argument decides the Err. */
  function ParamsFrom(args: seq<string>, acc: map<string, string>): Result<map<string, string>, string>
  {
    if args == [] then Ok(acc)
    else if !IsPair(args[0]) then Err("invalid dest format")
    else if Key(args[0]) in acc then Err("duplicate param key: " + Key(args[0]))
    else ParamsFrom(args[1..], acc[Key(args[0]) := Value(args[0])])
  }

  predicate AllPairs(args: seq<string>)
  {
    forall i :: 0 <= i < |args| ==> IsPair(args[i])
  }

  predicate DistinctKeys(args: seq<string>)
    requires AllPairs(args)
  {
    forall i, j :: 0 <= i < j < |args| ==> Key(args[i]) != Key(args[j])
  }

  /** `build_params` succeeds exactly when every argument is key=value and no key repeats or is already in `acc`. */
  lemma {:induction false} ParamsFromOk(args: seq<string>, acc: map<string, string>)
    ensures ParamsFrom(args, acc).Ok? <==>
      AllPairs(args) && DistinctKeys(args) && forall i :: 0 <= i < |args| ==> Key(args[i]) !in acc
  {
    if args != [] {
      var tail := args[1..];
      if IsPair(args[0]) && Key(args[0]) !in acc {
        var acc' := acc[Key(args[0]) := Value(args[0])];
        ParamsFromOk(tail, acc');
        assert forall i :: 0 < i < |args| ==> args[i] == tail[i - 1];
      }
    }
  }

  /** When `build_params` succeeds, the map holds `acc` and exactly the given pairs. */
  lemma {:induction false} ParamsFromContents(args: seq<string>, acc: map<string, string>)
    requires AllPairs(args) && ParamsFrom(args, acc).Ok?
    ensures var m := ParamsFrom(args, acc).value;
      (forall k :: k in acc ==> k in m && m[k] == acc[k])
      && (forall i :: 0 <= i < |args| ==> Key(args[i]) in m && m[Key(args[i])] == Value(args[i]))
      && (forall k :: k in m ==> k in acc || exists i :: 0 <= i < |args| && Key(args[i]) == k)
  {
    if args != [] {
      var tail := args[1..];
      var acc' := acc[Key(args[0]) := Value(args[0])];
      ParamsFromContents(tail, acc');
      var m := ParamsFrom(args, acc).value;
      assert forall i :: 0 < i < |args| ==> args[i] == tail[i - 1];
      forall k | k in m
        ensures k in acc || exists i :: 0 <= i < |args| && Key(args[i]) == k
      {
        if k !in acc' {
          var i :| 0 <= i < |tail| && Key(tail[i]) == k;
          assert args[i + 1] == tail[i];
        }
      }
    }
  }

  /** `build_params`: the arguments in order into a map. */
  method BuildParams(args: seq<string>) returns (r: Result<map<string, string>, string>)
    ensures r == ParamsFrom(args, map[])
  {
    var m: map<string, string> := map[];
    var i := 0;
    while i < |args|
      invariant 0 <= i <= |args|
      invariant ParamsFrom(args, map[]) == ParamsFrom(args[i..], m)
    {
      var s := Split(args[i], '=');
      assert args[i..][1..] == args[i + 1..];
      if |s| != 2 {
        return Err("invalid dest format");
      }
      var (k, v) := (s[0], s[1]);
      if k in m {
        return Err("duplicate param key: " + k);
      }
      m := m[k := v];
      i := i + 1;
    }
    return Ok(m);
  }

  /** The two date layouts `build_cmm_params` tries, in order. */
  datatype DateFormat = Dashed | Compact

  /** The end day of the test window: `%Y-%m-%d`, else `%Y%m%d`. */
  function EndDay(s: string, parseDate: (string, DateFormat) -> Option<int>): Option<int>
  {
    if parseDate(s, Dashed).Some? then parseDate(s, Dashed) else parseDate(s, Compact)
  }

  const DateFormatError := "test_end_date format is not correct, expect: %Y-%m-%d or %Y%m%d"
  const DaysFormatError := "test_trade_days is not number"

  /**
   * `build_cmm_params`: an unreadable test_end_date is the first Err, an
   * unreadable test_trade_days (an i64) the second; then None without an end
   * date, else the end date at 00:00:00 with test_trade_days (default 60).
   * `parseDate` is the calendar parser, giving a day number.
   */
  method BuildCmmParams(params: map<string, string>, parseDate: (string, DateFormat) -> Option<int>)
    returns (r: Result<Option<CommonParam>, string>)
    ensures var dateBad := "test_end_date" in params && EndDay(params["test_end_date"], parseDate).None?;
      var daysBad := "test_trade_days" in params && RustParse.ParseI64(params["test_trade_days"]).Err?;
      && (r.Err? <==> dateBad || daysBad)
      && (dateBad ==> r == Err(DateFormatError))
      && (!dateBad && daysBad ==> r == Err(DaysFormatError))
      && (r == Ok(None) <==> !dateBad && !daysBad && "test_end_date" !in params)
      && (r.Ok? && r.value.Some? ==>
        r.value.value.testEndDate == Some(DateTime(EndDay(params["test_end_date"], parseDate).value, 0))
        && r.value.value.testTradeDays == Some(if "test_trade_days" in params then RustParse.ParseI64(params["test_trade_days"]).value else 60))
  {
    var testEndDate: Option<DateTime> := None;
    if "test_end_date" in params {
      var s := params["test_end_date"];
      var date := parseDate(s, Dashed);
      if date.None? {
        date := parseDate(s, Compact);
        if date.None? {
          return Err(DateFormatError);
        }
      }
      testEndDate := Some(DateTime(date.value, 0));
    }
    var testTradeDays: Option<int> := Some(60);
    if "test_trade_days" in params {
      var days := RustParse.ParseI64(params["test_trade_days"]);
      if days.Err? {
        return Err(DaysFormatError);
      }
      testTradeDays := Some(days.value);
    }
    if testEndDate.None? || testTradeDays.None? {
      return Ok(None);
    }
    return Ok(Some(CommonParam(testEndDate, testTradeDays)));
  }

  predicate IsCommonKey(k: string)
  {
    k == "test_end_date" || k == "test_trade_days"
  }

  /**
   * `build_strategy_params`: every parameter except the two common ones,
   * None when nothing remains.
   */
  method BuildStrategyParams(params: map<string, string>) returns (r: Option<map<string, string>>)
    ensures r.None? <==> forall k :: k in params ==> IsCommonKey(k)
    ensures r.Some? ==> forall k :: k in r.value <==> k in params && !IsCommonKey(k)
    ensures r.Some? ==> forall k :: k in r.value ==> r.value[k] == params[k]
  {
    var m: map<string, string> := map[];
    var pending := params.Keys;
    while pending != {}
      invariant pending <= params.Keys
      invariant forall k :: k in m <==> k in params && k !in pending && !IsCommonKey(k)
      invariant forall k :: k in m ==> m[k] == params[k]
      decreases pending
    {
      var k :| k in pending;
      pending := pending - {k};
      if k == "test_end_date" || k == "test_trade_days" {
        continue;
      }
      m := m[k := params[k]];
    }
    if m == map[] {
      return None;
    }
    return Some(m);
  }

  /**
   * The destination check of `build_loader`: the argument must be
   * kind=value, and the kind a known sync destination.
   */
  function LoaderDest(orgS: string): (r: Result<SyncTypes.SyncDest, string>)
    ensures !IsPair(orgS) ==> r == Err("invalid dest format")
    ensures r.Ok? ==> IsPair(orgS) && SyncTypes.SyncDestFrom(Key(orgS), Value(orgS)) == Ok(r.value)
    ensures IsPair(orgS) && SyncTypes.SyncDestFrom(Key(orgS), Value(orgS)).Err? ==>
      r == Err("try from (" + Key(orgS) + ", " + Value(orgS) + ") error")
  {
    var s := Split(orgS, '=');
    if |s| != 2 then Err("invalid dest format")
    else
      match SyncTypes.SyncDestFrom(s[0], s[1])
      case Ok(dest) => Ok(dest)
      case Err(_) => Err("try from (" + s[0] + ", " + s[1] + ") error")
  }
}
