# rwinq core, modelled in Dafny

rwinq is a quantitative-trading toolkit for the Chinese A-share market,
written in Rust with Python bindings and Python strategy packages. This
project models its core logic and proves properties of it:

- **Candle and indicator primitives**: the shadow decomposition, in its
  Rust form and its two Python forms; the sliding-window moving average;
  and the chip (cost) distribution with its winner-ratio and cost-price
  reductions.
- **Screening strategies**: the scans of the right-side strategy (Rust)
  and of the MA-turn and shock-rise strategies (Python). Each counts the
  maximal run of qualifying days from the most recent bar, chains further
  phases, and checks thresholds. Their `prepare` parameter parsing is
  modelled too.
- **Strategy runner and strategy contract**:
  - the `split_code` chunking, the per-task and per-group aggregation, the
    category guard and the per-category run;
  - the trait defaults, the registry and the example strategies;
  - the Python `Stat`/`StrategyResult` dictionary forms;
  - the command-line `key=value` parsing;
  - the enum conversions, and Rust's integer `parse`.
- **Trading state machines**: the session-event flags of the real-time
  quotation, the append-only subscription lists, the simulated broker's
  FIFO queue, and the stop-loss/take-profit rule.
- **Data fetch shaping**: bar packaging, the leading-bar skip, the
  back-adjustment merge, the request window, the XueQiu trading-hours
  flag, and the Sina/XueQiu quote merge.
- **Data sync scheduling**:
  - the sync type conversions and the in-memory cache;
  - retry with backoff and the daily start gate;
  - the one-time store initialisation, the task partition and the
    fetch/save channel protocol;
  - the Mongo store's syncer registration;
  - the quarterly-report (yjbb) season enumeration.

One Dafny module models each source file. State the source updates in
place is a `class` whose methods carry `modifies` clauses. Each method is
proved against a specification function, and the properties of that
function are proved as lemmas.

Conventions used throughout:
- `f32`, `f64` and Python `float` are `real`. `Num.Div` returns 0 for a
  zero divisor where IEEE arithmetic would give an infinity or NaN.
- Dates are integer day numbers and times of day are nanoseconds since
  midnight (`Common.DateTime`). The yyyymmdd rendering of a day is a
  function parameter `ymd`.
- The clock, HTTP responses, database queries, loaders, `stat_result`,
  `emit`/`sell` and float text parsing are function or value parameters.
- A BTreeMap is a strictly key-sorted sequence of entries. A Rust HashMap
  is a `map`; where the source iterates one, the order is a parameter.
- Tokio tasks run one after another. A shutdown is an input saying at
  which step it arrives.
- Rust panics the caller cannot avoid are modelled as outcomes:
  - the `Panicked` outcome for an `unwrap` on None;
  - the `PanicException` raised through the Python bindings;
  - `Err` results.

  Panics on inputs the caller controls are excluded by `requires`:
  - a zero divisor in `split_code`, in the sync partition and in
    `prepare_heavy_syncer`;
  - a zero moving-average window;
  - u16 underflow in the season enumeration;
  - `next_trade_date` without a later trade date, where the source loops
    forever.

## Model

| member | source | states |
|---|---|---|
| Shadow.Shadow | strategy/src/util.rs:2-28 | a flat day (high == low) gives four zeros; otherwise amplitude × last_close = range × 100, and upper, body and lower are the stretches high..max(open, close), open..close and min(open, close)..low as percentages of the range, in both the up and the down/flat branch |
| Shadow.ShadowPartsSumToHundred | strategy/src/util.rs:13-28 | for a real range, upper + body + lower = 100 |
| Shadow.ShadowPartsInRange | strategy/src/util.rs:13-28 | when open and close lie within [low, high], each of the three parts lies in [0, 100] |
| Shadow.ShadowPartsIgnoreLastClose | strategy/src/util.rs:12-28 | last_close changes only the amplitude; the three parts are the same for any previous close |
| HiqPyBaseStrategy.PyShadow4 | python/hiq_py/hiq_py/strategy/base_strategy.py:20-34 | a flat day returns the pair (0, 0) and nothing else does; a zero previous close on a real range raises; otherwise the 4-tuple equals the Rust decomposition part by part |
| HiqPyBaseStrategy.PyShadow4PartsSumToHundred | python/hiq_py/hiq_py/strategy/base_strategy.py:23-34 | a non-degenerate call returns a 4-tuple whose upper + body + lower = 100 |
| HiqPyBaseStrategy.DailyTableOf | python/hiq_py/hiq_py/strategy/base_strategy.py:42-49 | exactly the six categories 1..6 have a daily loader |
| HiqPyBaseStrategy.DailyTableOfInjective | python/hiq_py/hiq_py/strategy/base_strategy.py:42-49 | no two categories share a daily loader |
| HiqPyBaseStrategy.LoadKdata | python/hiq_py/hiq_py/strategy/base_strategy.py:36-54 | None without a loader or for a category outside the six; otherwise the category's daily loader called with the caller's query unchanged |
| HiqPyBaseStrategy.BaseStrategy.constructor | python/hiq_py/hiq_py/strategy/base_strategy.py:10-13 | stores the category list it is given |
| HiqPyBaseStrategy.BaseStrategy.Default | python/hiq_py/hiq_py/strategy/base_strategy.py:10-13 | without an argument the category list is [Stock] |
| HiqPyBaseStrategy.BaseStrategy.Accept | python/hiq_py/hiq_py/strategy/base_strategy.py:16-17 | returns exactly the construction-time category list |
| HiqPyStrategy.Shadow3 | python/hiq_py/hiq_py/strategy/strategy.py:10-23 | the pair (0, 0) exactly for a flat day; otherwise (upper, body, lower) equal to the Rust decomposition's parts for every previous close |
| HiqPyStrategy.Shadow3PartsSumToHundred | python/hiq_py/hiq_py/strategy/strategy.py:13-23 | a real range gives a triple whose parts add up to 100 |
| MovingAverage.MaSpec | strategy/src/ta/ma.rs:3-17 | the averaged series has the input's length |
| MovingAverage.MA | strategy/src/ta/ma.rs:3-17 | the walk from the oldest bar with a running sum, then the reversal, yields at each position the mean of the window of ma_type bars starting there, or 0 where no full window remains |
| MovingAverage.WindowStep | strategy/src/ta/ma.rs:8-14 | adding the next older-to-newer bar completes the window that starts there, and subtracting the bar ma_type - 1 places newer keeps the running sum of the newest ma_type - 1 bars |
| MovingAverage.MaOfOneIsIdentity | strategy/src/ta/ma.rs:7-16 | with ma_type 1 the output equals the input |
| MovingAverage.MaTooShortIsZero | strategy/src/ta/ma.rs:9-12 | with ma_type longer than the series every entry is 0 |
| MovingAverage.MaZeroTail | strategy/src/ta/ma.rs:9-16 | position i is 0 when i > len - ma_type, and otherwise ma_type times it equals the sum of bars i..i + ma_type |
| Common.BarFreqFromI32 | common/src/cmm.rs:71-86 | total: each of the nine discriminants maps to the variant with that discriminant, every other integer to Daily |
| Common.BarFreqRoundTrip | common/src/cmm.rs:48-86 | a variant's discriminant converts back to the same variant |
| FetchLib.MarketValue | fetch/src/lib.rs:68-72 | SZ is 0 and SH is 1 |
| FetchLib.MarketTypeValue | fetch/src/lib.rs:75-81 | the discriminants lie in 0..2 |
| FetchLib.MarketTypeFromI32 | fetch/src/lib.rs:83-92 | 0..=2 map to the variant with that discriminant, any other value to Stock |
| FetchLib.MarketTypeRoundTrip | fetch/src/lib.rs:75-92 | a variant's discriminant converts back to the same variant |
| FetchLib.AdjustFactorValue | fetch/src/lib.rs:95-101 | discriminants lie in 0..2, and 2 is HFQ |
| FetchLib.Defaults | fetch/src/lib.rs:75-101 | the default market type is Stock (2) and the default adjustment is HFQ (2) |
| FetchLib.ToStdCode | fetch/src/util.rs:4-31 | a code whose UTF-8 length (`len()`, in bytes) is not 6 is returned unchanged; a code of six bytes gets an "sh"/"sz" prefix and keeps the code as its tail, eight bytes in all, with "sz" for bonds starting "12", "sz" for funds starting "15" and "sh" for stocks starting "6" |
| FetchLib.Utf8Width | fetch/src/util.rs:5 | a character takes one to four bytes in UTF-8, one exactly when it is ASCII |
| FetchLib.Utf8Len | fetch/src/util.rs:5 | a string's byte length lies between its character count and four times it |
| FetchLib.Utf8LenAppend | fetch/src/util.rs:5 | the byte length of a concatenation is the sum of the byte lengths |
| FetchLib.AsciiUtf8Len | fetch/src/util.rs:5 | for an ASCII code the byte length is the character count |
| FetchLib.ByteLengthDecides | fetch/src/util.rs:5-30 | a six-character code with a full-width digit (eight bytes) is left alone, while the ASCII "600000" becomes "sh600000" |
| FetchLib.ToStdCodeIdempotent | fetch/src/util.rs:4-31 | normalising twice gives the same code as normalising once |
| StrategyLib.StrategyTypeValue | strategy/src/lib.rs:28-36 | the discriminants run from Bond = 1 to Industry = 6 |
| StrategyLib.StrategyTypeFromI32 | strategy/src/lib.rs:38-50 | 1..=6 give the variant with that discriminant; any other integer gives Stock |
| StrategyLib.StrategyTypeFromStr | strategy/src/lib.rs:51-63 | only the six exact lowercase names are recognised, each giving the variant it names; every other string gives Stock |
| StrategyLib.StrategyTypeRoundTrips | strategy/src/lib.rs:38-63 | a variant's discriminant and its lowercase name both convert back to the variant |
| StrategyLib.CapitalisedNameIsNotRecognised | strategy/src/lib.rs:51-63 | "Stock" and "Bond" are not recognised names, and "Bond" converts to Stock |
| StrategyContract.DefaultCommonParam | strategy/src/strategy.rs:37-44 | no end date and 60 trading days |
| StrategyContract.DefaultHelp | strategy/src/strategy.rs:48-50 | the default help text is empty |
| StrategyContract.DefaultName | strategy/src/strategy.rs:51-53 | the default name is empty |
| StrategyContract.DefaultPrepare | strategy/src/strategy.rs:54-61 | the default prepare succeeds for any parameters |
| StrategyContract.DefaultAccept | strategy/src/strategy.rs:62-64 | the default accepted categories are exactly [Stock] |
| StrategyContract.DefaultTest | strategy/src/strategy.rs:65-73 | the default test gives Ok(None) for every category, code and name |
| Registry.Name | strategy/src/mystrategy/exam_strategy.rs:12-14 | each example strategy's name is its own type name, "ExamStrategy" or "TestStrategy" |
| Registry.Help | strategy/src/mystrategy/exam_strategy.rs:15-17 | both example strategies share one four-character help text |
| Registry.Test | strategy/src/mystrategy/exam_strategy.rs:18-40 | never an Err; a hit exactly when the code is one of sz002805, sz300827, sz000762, echoing code and name with no marker and no stat |
| Registry.ExamAndTestAgree | examples/strategy/test_strategy/src/test_strategy.rs:17-39 | TestStrategy gives the same answer as ExamStrategy on every code and name, whatever category either is given |
| Registry.GetStrategy | strategy/src/mystrategy/mod.rs:7-14 | Ok exactly for "ExamStrategy", resolving to the strategy of that name; any other name is the error "strategy <name> not found" |
| Registry.Strategies | strategy/src/mystrategy/mod.rs:16-18 | one registered name, and `get_strategy` resolves every listed name |
| Registry.RegistryIsCaseSensitive | strategy/src/mystrategy/mod.rs:7-14 | the lowercase "examstrategy" is not found |
| Cli.Split | strategy/src/main.rs:255 | `split("=")` yields one piece more than there are '=' characters, and no piece contains '=' |
| Cli.SplitJoin | strategy/src/main.rs:255 | joining the pieces with '=' restores the argument, so splitting loses nothing |
| Cli.PairParts | strategy/src/main.rs:255-259 | an argument that splits into exactly two pieces is key + "=" + value, with no '=' in either |
| Cli.ParamsFromOk | strategy/src/main.rs:252-266 | `build_params` succeeds exactly when every argument is key=value and no key repeats |
| Cli.ParamsFromContents | strategy/src/main.rs:252-266 | on success the map holds exactly the given pairs: every argument's key maps to its value and every key comes from some argument |
| Cli.BuildParams | strategy/src/main.rs:252-266 | the loop returns the first bad argument's error ("invalid dest format" or "duplicate param key: k") or the map of all pairs, as the specification function does |
| Cli.BuildCmmParams | strategy/src/main.rs:268-306 | an unreadable test_end_date (neither %Y-%m-%d nor %Y%m%d) is the first Err and a non-i64 test_trade_days the second; otherwise Ok(None) exactly when test_end_date is absent, else the end day at 00:00:00 with test_trade_days defaulting to 60 |
| Cli.BuildStrategyParams | strategy/src/main.rs:308-321 | None exactly when every key is test_end_date or test_trade_days; otherwise the input with those two keys removed and every other value unchanged |
| Cli.LoaderDest | strategy/src/main.rs:223-230 | an argument that is not kind=value is "invalid dest format"; a known destination is Ok with that destination; an unknown one is "try from (k, v) error" |
| RustParse.ParseInt | strategy/src/main.rs:290 | a signed-integer parse succeeds exactly on an optional sign followed by at least one digit whose value is in the type's range, and then yields that value; the empty string is the Empty error |
| RustParse.ParseDigitsCorrect | strategy/src/main.rs:290 | the digit loop accepts exactly the all-digit strings whose value stays within range, and then returns that value |
| RustParse.ParseI64 | strategy/src/main.rs:290 | `parse::<i64>()` succeeds exactly on an integer literal within the i64 range, with its value |
| RustParse.ParseI32 | strategy/src/mystrategy/right_side.rs:61-62 | `parse::<i32>()` succeeds exactly on an integer literal within the i32 range, with its value |
| RightSide.RightSide.constructor | strategy/src/mystrategy/right_side.rs:21-31 | the defaults: min_rise_days 3, max_shadow_pct 20, min_volume_chg_pct -10, min_amount_chg_pct -10 and the default common parameters |
| RightSide.RightSide.Prepare | strategy/src/mystrategy/right_side.rs:49-91 | the common parameters are adopted when given; the four keys are parsed in fixed order; absent keys keep their values; the result is Ok exactly when every present key parses; each field takes its parsed value only if it and every earlier key parsed, so the fields set before the first bad value stay updated |
| RightSide.RightSide.Test | strategy/src/mystrategy/right_side.rs:92-177 | panics without test_end_date or test_trade_days; passes on a load error; no hit when fewer than test_trade_days bars came back or the maximal run of qualifying days from index 0 is shorter than min_rise_days; otherwise the stat helper's error, or a hit whose marks are the bars at hit = min_rise_days - 1 and hit_max = run - 1 keyed by date |
| RightSide.HitWithinRun | strategy/src/mystrategy/right_side.rs:123-145 | when min_rise_days >= 1 and the run reaches it, hit = min_rise_days - 1 <= hit_max = run - 1 < len, every day 0..hit_max qualifies, and the day after the run does not |
| Scan.RunLength | strategy/src/mystrategy/right_side.rs:123-145 | the count is the maximal run: every index from the start up to the count satisfies the condition, and the next index below the end does not |
| Scan.MaximalRunUnique | strategy/src/mystrategy/right_side.rs:123-145 | any run that stops exactly where the condition first fails has the length the count gives |
| MaTurn.MaTurn.constructor | python/hiq_py/hiq_py/strategy/test/ma_turn.py:16-24 | the defaults: ma 5, min_up_days 10, min_up_pct 20, min_down_days 5, min_turn_days 2, max_turn_days 5 |
| MaTurn.MaTurn.Prepare | python/hiq_py/hiq_py/strategy/test/ma_turn.py:37-55 | True without parameters, leaving every field; otherwise True exactly when every present key converts; each field takes its converted value only if it and every earlier key converted, so fields set before a ValueError stay updated; max_turn_days is never changed |
| MaTurn.MaTurn.Test | python/hiq_py/hiq_py/strategy/test/ma_turn.py:57-121 | follows the specification function: no hit for a missing window or one shorter than test_trade_days, then the three-phase verdict on the moving average of the closes |
| MaTurn.Judge | python/hiq_py/hiq_py/strategy/test/ma_turn.py:70-121 | a negative ma raises OverflowError and a zero ma on a non-empty window raises the binding's panic; otherwise the verdict over the moving average `MA` computes |
| MaTurn.Decide | python/hiq_py/hiq_py/strategy/test/ma_turn.py:73-121 | on the averaged series: no hit unless all three phases pass their thresholds, an IndexError for an empty window that passes, otherwise a hit whose marks are the bars at hit, hit2 and hit3 |
| MaTurn.CountRun | python/hiq_py/hiq_py/strategy/test/ma_turn.py:76-82 | each `for` loop counts the maximal run of indices from its start, below n, that satisfy its comparison |
| MaTurn.ScanTurn | python/hiq_py/hiq_py/strategy/test/ma_turn.py:73-111 | the phases are found exactly when the rise run lies in min_turn_days..max_turn_days, the fall run (starting one past hit) reaches min_down_days and the second rise (one past hit2) reaches min_up_days; then hit = run1, hit2 = hit + run2 and hit3 = hit2 + run3 <= n |
| MaTurn.ScanPhases | python/hiq_py/hiq_py/strategy/test/ma_turn.py:73-108 | the boundaries chain: hit is the first run, hit2 = hit + the second run, hit3 = hit2 + the third run |
| MaTurn.PhasesFit | python/hiq_py/hiq_py/strategy/test/ma_turn.py:113-119 | phases that pass the thresholds index the loaded window, so the three marks can be read |
| MaTurn.PhasesInWindow | python/hiq_py/hiq_py/strategy/test/ma_turn.py:73-108 | hit <= hit2 <= hit3 <= max(n, 0), and hit3 is an index of any non-empty window |
| MaTurn.ScannedHit | python/hiq_py/hiq_py/strategy/test/ma_turn.py:113-121 | passing phases on a non-empty window give the hit with code, name and the three date-keyed marks |
| MaTurn.NoTurnWithoutRecentRise | python/hiq_py/hiq_py/strategy/test/ma_turn.py:76-85 | if the most recent average is not above the one before it, the first run is 0, so a positive min_turn_days rejects |
| ShockRise.BreakUpOf | python/pywq/pywq/strategy/test/shock_rise.py:84-104 | the break-up phase stays inside the window: run, hit and hit_max index it whenever it is non-empty |
| ShockRise.ShockOf | python/pywq/pywq/strategy/test/shock_rise.py:112-130 | the shock marks (shock_index, shock_max_index) are indices of the window |
| ShockRise.ScanBreakUp | python/pywq/pywq/strategy/test/shock_rise.py:84-104 | the first loop leaves the maximal run of break-up days from the latest bar, hit at the min_break_days-th of them, hit_max at the last and the sum of their chg_pct |
| ShockRise.ScanShock | python/pywq/pywq/strategy/test/shock_rise.py:112-130 | the second loop leaves the maximal quiet run after hit_max, shock_index at its min_shock_days-th day, shock_max_index at its last, and the chg_pct summed over the first min_shock_days quiet days |
| ShockRise.ShockRise.constructor | python/pywq/pywq/strategy/test/shock_rise.py:19-25 | defaults 3 break days, 5% break-up, 15 quiet days, 7% per day, 15% in total, no max_upper_shadow_pct |
| ShockRise.ShockRise.Prepare | python/pywq/pywq/strategy/test/shock_rise.py:37-63 | True without parameters; else True exactly when all six keys convert and min_shock_days fits test_trade_days, AttributeError when min_shock_days is compared without common parameters, and each field updated only if it and every earlier step succeeded |
| ShockRise.ShockRise.PrepareBreak | python/pywq/pywq/strategy/test/shock_rise.py:40-47 | the first three conversions: success exactly when each present key converts, each field set only when it and the earlier keys converted |
| ShockRise.ShockRise.PrepareShock | python/pywq/pywq/strategy/test/shock_rise.py:48-58 | the last three conversions: min_shock_days is stored before its test_trade_days bound is checked, the later fields only after the bound holds |
| ShockRise.ShockRise.Test | python/pywq/pywq/strategy/test/shock_rise.py:65-143 | equals the specification: AttributeError without common parameters, no hit for a too-large min_shock_days or a short window, IndexError on an empty one, otherwise a hit exactly when both phases pass, marked at hit, hit_max, shock_start and shock_end |
| ShockRise.ShockMarksPositions | python/pywq/pywq/strategy/test/shock_rise.py:112-141 | on a passing quiet phase, shock_start is min_shock_days and shock_end `run` bars past hit_max, every bar between them is quiet, and the oldest bar is never a break-up day |
| Runner.ChunkSize | strategy/src/runner.rs:222-236 | the chunk size is at least 1 and at most the universe's length |
| Runner.KeptLength | strategy/src/runner.rs:222-236 | the kept codes number at most the universe, and fewer than one chunk is left over |
| Runner.Kept | strategy/src/runner.rs:222-236 | the kept codes are a prefix of the universe of KeptLength codes |
| Runner.SplitCode | strategy/src/runner.rs:222-236 | `split_code` returns len / chunk-size chunks, each of exactly ChunkSize codes, which concatenate to the kept prefix in input order |
| Runner.NothingDroppedWhen | strategy/src/runner.rs:222-236 | no code is dropped when the universe divides evenly by the task count or there are at least as many tasks as codes |
| Runner.RemainderNeverTested | strategy/src/runner.rs:222-236 | the hits over a universe are the hits over the kept prefix followed by the hits over the dropped tail |
| Runner.HitsAgree | strategy/src/runner.rs:195-214 | two `test` functions that agree on every code give the same hits |
| Runner.RunIgnoresRemainder | strategy/src/runner.rs:10-133 | two `test` functions that agree on every kept code of every accepted category give the same `run` result, whatever they do on the dropped tail |
| Runner.RemainderHitsLost | strategy/src/runner.rs:10-133 | when every universe loads and `test` hits nothing among the kept codes, `run` returns None even if every dropped code would have been a hit |
| Runner.NeverHits | strategy/src/runner.rs:195-214 | a `test` that finds nothing on any code gives no hits |
| Runner.HitsAppend | strategy/src/runner.rs:195-214 | the hits over two lists of codes concatenate |
| Runner.HitsComeFromTest | strategy/src/runner.rs:195-214 | every hit is `test`'s Ok(Some) result for one of the codes, and there are no more hits than codes |
| Runner.RunTask | strategy/src/runner.rs:186-220 | a shutdown before the end gives Ok(None); otherwise the hits over the chunk in code order, None when there are none |
| Runner.JoinGroup | strategy/src/runner.rs:161-184 | the first panicked task gives Err("join error: ..."); otherwise the tasks' hits concatenated in task order, tasks that returned Err skipped, None when empty |
| Runner.FirstJoinErrorSnoc | strategy/src/runner.rs:167-168 | appending a task keeps an earlier join error and otherwise adds its own |
| Runner.FirstJoinErrorPrefix | strategy/src/runner.rs:167-168 | once the first join error is in a prefix, later tasks do not change it |
| Runner.GroupIsHitsOfChunks | strategy/src/runner.rs:161-220 | with no panic and no shutdown, a category's collected hits are the hits over the concatenation of its chunks |
| Runner.Fit | strategy/src/runner.rs:135-159 | a category outside `accept` is Err naming it and the accepted list; otherwise `test`'s result, or Ok(None) when the shutdown comes first |
| Runner.Universe | strategy/src/runner.rs:19-81 | each category reads its own info table, except Concept and Industry which read the stock table |
| Runner.FirstLoadErrorNone | strategy/src/runner.rs:19-85 | past categories whose universes loaded, the first load error is that of the remaining categories |
| Runner.LoadUniverses | strategy/src/runner.rs:17-85 | Err exactly when some accepted universe fails to load, with the first such error; otherwise the categories with a non-empty kept universe, each mapped to chunks that concatenate to it |
| Runner.RunGroup | strategy/src/runner.rs:87-104 | one category's tasks and join give its hits over all chunks, None when there are none |
| Runner.Run | strategy/src/runner.rs:10-133 | without panics or shutdown, `run` is the first load error, or the map from each accepted category with hits to its hits over the kept codes, None when empty |
| PyStrategy.TypeStr | python/hiq-pystrategy/hiq_pystrategy/strategy.py:22-34 | a name exactly for the six category numbers 1..6, '' for anything else, 'Stock' for 3 |
| PyStrategy.TypeStrInjective | python/hiq-pystrategy/hiq_pystrategy/strategy.py:22-34 | two numbers with the same non-empty name are the same category |
| PyStrategy.Subscript | python/hiq-pystrategy/hiq_pystrategy/strategy.py:57-63 | `js[key]` yields the entry exactly when js is a dict holding the key; a dict without it raises KeyError(key) |
| PyStrategy.StatDict | python/hiq-pystrategy/hiq_pystrategy/strategy.py:47-54 | the dictionary has exactly the seven stat keys, each mapped to its field |
| PyStrategy.KeysPresent | python/hiq-pystrategy/hiq_pystrategy/strategy.py:56-63 | counts the leading stat keys present: all counted keys are in the dict and the next one is not |
| PyStrategy.CountKeys | python/hiq-pystrategy/hiq_pystrategy/strategy.py:56-63 | from position i, the keys up to the count are present and the one at the count is missing |
| PyStrategy.Stat.Values | python/hiq-pystrategy/hiq_pystrategy/strategy.py:37-45 | the seven fields, in key order |
| PyStrategy.Stat.constructor | python/hiq-pystrategy/hiq_pystrategy/strategy.py:38-45 | every field starts as None |
| PyStrategy.Stat.ToDict | python/hiq-pystrategy/hiq_pystrategy/strategy.py:47-54 | `to_dict` maps each of the seven keys to its field |
| PyStrategy.Stat.FromJson | python/hiq-pystrategy/hiq_pystrategy/strategy.py:56-63 | returns exactly when all seven keys are present; a non-dict raises TypeError, the first missing key raises KeyError naming it; fields before the failure take the dict's values, the rest keep theirs |
| PyStrategy.StatRoundTrip | python/hiq-pystrategy/hiq_pystrategy/strategy.py:47-63 | reading a Stat back from its own `to_dict` restores all seven fields |
| PyStrategy.KeysAllPresent | python/hiq-pystrategy/hiq_pystrategy/strategy.py:56-63 | a dict holding all seven keys counts seven |
| PyStrategy.StrategyResult.constructor | python/hiq-pystrategy/hiq_pystrategy/strategy.py:70-74 | the four fields are the arguments |
| PyStrategy.StrategyResult.ToDict | python/hiq-pystrategy/hiq_pystrategy/strategy.py:76-77 | exactly code, name and stat (the stat's dict or None); the marks are never written |
| PyStrategy.StrategyResult.FromJson | python/hiq-pystrategy/hiq_pystrategy/strategy.py:79-88 | code and name are required (KeyError otherwise, code already stored when only name is missing); mark is replaced only when present; stat only when present and readable as a Stat, else the Stat's error is raised |
| PyStrategy.NoStatDictDoesNotReadBack | python/hiq-pystrategy/hiq_pystrategy/strategy.py:76-88 | a result without stat writes `stat: None`, and reading that back raises TypeError: the round trip fails |
| PyStrategy.Run | python/hiq-pystrategy/hiq_pystrategy/strategy.py:90-91 | None exactly when `test` found nothing, otherwise the result's JSON text: `json.dumps` applied to its dictionary |
| PyStrategy.DefaultHelp | python/hiq-pystrategy/hiq_pystrategy/strategy.py:124-125 | the base help is empty |
| PyStrategy.DefaultName | python/hiq-pystrategy/hiq_pystrategy/strategy.py:127-128 | the base name always raises (instances have no `__qualname__`) |
| PyStrategy.DefaultAccept | python/hiq-pystrategy/hiq_pystrategy/strategy.py:130-131 | the base accepts stocks only |
| PyStrategy.DefaultPrepare | python/hiq-pystrategy/hiq_pystrategy/strategy.py:133-134 | the base prepare succeeds |
| StopLostProfit.Default | strategy/src/mystrategy/risk/stop_lost_profit.rs:58-67 | the default has 20% take-profit and 3% stop-loss rates and no absolute marks |
| StopLostProfit.GetPrice | strategy/src/mystrategy/risk/stop_lost_profit.rs:30-42 | the fourth bid level's price, the last price when that level is at most 0.0001, 0.0 for a code without a quote |
| StopLostProfit.GetSignal | strategy/src/mystrategy/risk/stop_lost_profit.rs:43-55 | a Sell from the StopLostProfit risk source of the position's whole available volume at the given price |
| StopLostProfit.Decide | strategy/src/mystrategy/risk/stop_lost_profit.rs:86-128 | a signal exactly when take-profit, stop-loss or stop-loss-rate matches, the first match giving the reason; it sells the available volume at GetPrice |
| StopLostProfit.ProfitRateIgnored | strategy/src/mystrategy/risk/stop_lost_profit.rs:84-134 | changing profit_rate never changes a decision: no check reads it |
| StopLostProfit.SignalsSellPositions | strategy/src/mystrategy/risk/stop_lost_profit.rs:84-134 | at most one signal per position, each a Sell of some position's available volume |
| StopLostProfit.FirstFailure | strategy/src/mystrategy/risk/stop_lost_profit.rs:129-131 | the first signal whose sell fails, with every earlier one succeeding; none when all succeed |
| StopLostProfit.OnRisk | strategy/src/mystrategy/risk/stop_lost_profit.rs:84-134 | every position's signal is sold in position order; Ok after all succeed, else the first failing sell's error, with no signal handed on after it |
| StopLostProfit.SentNext | strategy/src/mystrategy/risk/stop_lost_profit.rs:86-132 | one more position keeps the loop state: everything sent so far sold |
| StopLostProfit.SentFailed | strategy/src/mystrategy/risk/stop_lost_profit.rs:129-131 | a failing sell is the first failure among all signals, and what was sent is the prefix up to it |
| StopLostProfit.SentAll | strategy/src/mystrategy/risk/stop_lost_profit.rs:86-133 | after the last position all signals were sent and none failed |
| StopLostProfit.SignalsPrefix | strategy/src/mystrategy/risk/stop_lost_profit.rs:86-132 | the signals of a prefix of the positions are a prefix of all signals |
| StopLostProfit.FirstFailureAt | strategy/src/mystrategy/risk/stop_lost_profit.rs:129-131 | a failure preceded only by successes is the first failure |
| StopLostProfit.FirstFailureNone | strategy/src/mystrategy/risk/stop_lost_profit.rs:129-133 | no failure when every sell succeeds |
| SimulateBroker.Committed | strategy/src/mystrategy/broker/simulate.rs:32-36 | the committed copy carries the order's id as broker id, status Commit and the default time; code, volumes and price unchanged |
| SimulateBroker.Dealt | strategy/src/mystrategy/broker/simulate.rs:42-43 | the queued copy is Deal with the whole volume dealt, otherwise the committed copy |
| SimulateBroker.Simulate.constructor | strategy/src/mystrategy/broker/simulate.rs:13-17 | nothing is waiting |
| SimulateBroker.Simulate.OnEntrust | strategy/src/mystrategy/broker/simulate.rs:32-48 | emits the committed copy; only when the emit succeeds is the dealt copy queued at the back |
| SimulateBroker.Simulate.OnPoll | strategy/src/mystrategy/broker/simulate.rs:49-64 | an empty queue emits nothing; otherwise the oldest order is removed and then emitted, so a failing emit loses it |
| Quotation.EventOf | trade/src/quotation.rs:45-50 | flags 0..3 name the four session events |
| Quotation.LowestUnset | trade/src/quotation.rs:42-54 | the lowest flag up to idx still unset, every flag before it set; none when all up to idx are set |
| Quotation.LowestFrom | trade/src/quotation.rs:42-54 | the same search starting at flag i |
| Quotation.SessionIndex | trade/src/quotation.rs:56-88 | the session index is below 4: (09:15,11:30] is 0, (11:30,13:00] 1, (13:00,15:00] 2, anything else 3 |
| Quotation.NewCodes | trade/src/quotation.rs:98-107 | never more codes than the input |
| Quotation.NewCodesExactly | trade/src/quotation.rs:98-107 | the added codes are exactly the input codes not already subscribed |
| Quotation.SubscribeCovers | trade/src/quotation.rs:98-107 | after `add_codes` every input code is subscribed and the old list is a prefix of the new one |
| Quotation.SubscribeIdempotent | trade/src/quotation.rs:98-107 | a batch of codes that are all subscribed adds nothing |
| Quotation.MyQuotation.constructor | trade/src/quotation.rs:140-152 | no codes, not started, no trade date, no session flag set |
| Quotation.MyQuotation.FireBaseEvent | trade/src/quotation.rs:41-55 | sets the lowest unset flag up to idx and returns its event; with all set, None and nothing changes |
| Quotation.MyQuotation.GetBaseEvent | trade/src/quotation.rs:56-97 | without a trade date nothing happens; otherwise the lowest unset flag up to the current session index fires |
| Quotation.MyQuotation.AddCodes | trade/src/quotation.rs:98-107 | the codes become the old codes followed by the new input codes; nothing else changes |
| Quotation.MyQuotation.ResetTradeDate | trade/src/quotation.rs:108-118 | on a first or different date the flags are cleared; the trade date becomes now's date either way |
| Quotation.MyQuotation.Fetch | trade/src/quotation.rs:160-194 | codes added first; the first call reports Start only; a calendar error is passed on and a non-trading day gives None; on a trading day the flags reset for a new date, a pending session event is reported, otherwise quotes while a session is open and codes exist |
| Quotation.Polled | trade/src/quotation.rs:185-193 | quotes are reported only while a session is open and codes are subscribed, and exactly those `fetch_rt_quot` returned; an error comes only from it |
| Quotation.LowestIs | trade/src/quotation.rs:42-54 | an unset flag preceded only by set flags is the lowest unset one |
| Quotation.LowestNone | trade/src/quotation.rs:42-54 | all flags set up to idx: nothing to fire |
| Quotation.Raised | trade/src/quotation.rs:31 | the number of set flags is at most the number of flags |
| Quotation.FiringRaisesOne | trade/src/quotation.rs:41-55 | each fired event sets exactly one more flag, so at most four fire per trade date |
| Quotation.Trading | trade/src/quotation.rs:35-39 | `is_trading`: a trade date is set and the morning session (flags 0, 1) or the afternoon session (flags 2, 3) has opened but not closed |
| Quotation.MyQuotation.IsTrading | trade/src/quotation.rs:35-39 | the same test on the object's trade date and flag array |
| Quotation.FiredInOrder | trade/src/quotation.rs:41-55 | a flag is set only when every earlier flag is |
| Quotation.FiringKeepsOrder | trade/src/quotation.rs:41-55 | firing the lowest unset flag, and resetting for a trade date, keep the flags in firing order |
| Quotation.TradingIffOpenedLast | trade/src/quotation.rs:35-39 | with flags in firing order, `is_trading` holds exactly when a trade date is set and one or three events have fired, so the last one was MorningOpen or NoonOpen |
| Quotation.EarlyMorningFiresOpen | trade/src/quotation.rs:80-92 | a poll at or before 09:15 on a new trade date falls in index 3 and fires MorningOpen before the market opens |
| QuotSub.RealtimeQuotation.constructor | trade/src/quot.rs:41-45 | nothing subscribed |
| QuotSub.RealtimeQuotation.Subscribe | trade/src/quot.rs:49-58 | always Ok; appends the input codes not yet subscribed, so the old list is a prefix and every input code is subscribed |
| QuotSub.BacktestQuotation.Subscribe | trade/src/quot.rs:29-31 | always Ok |
| Fetch.ToBarDs | fetch/src/comm/fetch.rs:27-39 | the name is the given one, else the first bar's, else ''; the bars come back unchanged, None exactly when there are none |
| Fetch.BarAt | fetch/src/comm/fetch.rs:121-167 | each bar carries the code, the response's name, the row's date, close and volume and factor 1.0; volume change 0 for the first row or an unchanged volume, positive for a rise from a positive volume |
| Fetch.ToBars | fetch/src/comm/fetch.rs:114-171 | one bar per kline row, the i-th built against the (i-1)-th |
| Fetch.WithHfq | fetch/src/comm/fetch.rs:173-185 | the factor hfq.close / nfq.close is set pairwise when the adjusted response has as many bars; otherwise the unadjusted bars are unchanged |
| Fetch.MergeHfq | fetch/src/comm/fetch.rs:176-183 | the in-place `zip` update leaves the array equal to the merged bars |
| Fetch.LeadingSkipped | fetch/src/comm/fetch.rs:187-208 | exactly the maximal prefix of bars dated the first date is dropped; nothing without a first date |
| Fetch.SkipLeading | fetch/src/comm/fetch.rs:187-208 | the `skip` counter loop drops that prefix |
| Fetch.EndDay | fetch/src/comm/fetch.rs:58-82 | the end never passes the given end or today; with `skip_rt`, a daily fetch before 15:00 stops before today |
| Fetch.KlineType | fetch/src/comm/fetch.rs:91-95 | LooseDaily is requested as Daily, every other frequency as itself |
| Fetch.FetchBarSpec | fetch/src/comm/fetch.rs:42-211 | a calendar error is passed on; a start after the end gives no bars; every bar carries the code and no returned bar starts on the previous trade date |
| Fetch.BarsOf | fetch/src/comm/fetch.rs:114-171 | the bars of a response, one per row, as BarAt builds them |
| Fetch.MergedSpec | fetch/src/comm/fetch.rs:172-185 | no unadjusted response gives no bars, and every merged bar carries the code |
| Fetch.Merged | fetch/src/comm/fetch.rs:172-185 | the request loop's two branches give the merged bars |
| Fetch.FetchBar | fetch/src/comm/fetch.rs:42-211 | `fetch_bar` follows its specification, with the clock, calendar and HTTP requests as parameters |
| Fetch.RequestBars | fetch/src/comm/fetch.rs:97-208 | the two requests, merged and trimmed; an error of either request is passed on |
| Fetch.XqTrading | fetch/src/comm/fetch.rs:243-251 | XueQiu's `is_trading`: the time of day lies strictly inside (09:30, 11:30) or (13:00, 15:00) |
| Fetch.XqTradingByMinute | fetch/src/comm/fetch.rs:243-251 | at whole minutes the flag is set exactly from 09:31 to 11:29 and from 13:01 to 14:59 |
| Fetch.XqBoundariesClosed | fetch/src/comm/fetch.rs:243-251 | 09:30, 11:30, 13:00 and 15:00 themselves are not trading time |
| Fetch.Combine | fetch/src/comm/fetch.rs:444-470 | a merged quote takes code, now, depth and time from Sina and the change, value and trading flag from XueQiu |
| Fetch.MergeRtQuot | fetch/src/comm/fetch.rs:436-474 | the XueQiu error first, then Sina's; maps of different sizes give 'fail to fetch quot'; otherwise each Sina entry is combined with the XueQiu entry under the same key |
| Fetch.MergePanicsIffKeysDiffer | fetch/src/comm/fetch.rs:440-447 | with maps of the same size, the merge panics (`unwrap` on a missing key) exactly when the key sets differ |
| ChipDist.Put | fetch/src/ta/chip_dist.rs:109-114 | the inserted map is non-empty and starts with the new key or the old first entry |
| ChipDist.PutSpec | fetch/src/ta/chip_dist.rs:109-114 | `BTreeMap::insert` keeps the key order, maps the key to the value, leaves every other key alone and adds no other entry |
| ChipDist.PutKeyed | fetch/src/ta/chip_dist.rs:109-114 | insertion keeps the keys strictly increasing |
| ChipDist.PutGet | fetch/src/ta/chip_dist.rs:109-114 | after insertion the key maps to the value and other keys keep their values |
| ChipDist.PutMembers | fetch/src/ta/chip_dist.rs:109-114 | insertion brings in no entry but the new one |
| ChipDist.Prune | fetch/src/ta/chip_dist.rs:74-83 | decay never adds entries |
| ChipDist.Decayed | fetch/src/ta/chip_dist.rs:75-80 | an entry is dropped exactly when its decayed mass is below 1, else kept with that mass |
| ChipDist.PruneKeyed | fetch/src/ta/chip_dist.rs:74-83 | decay keeps the key order and adds no key below the first |
| ChipDist.PruneHeavy | fetch/src/ta/chip_dist.rs:74-83 | after decay every remaining mass is at least 1 |
| ChipDist.Surviving | fetch/src/ta/chip_dist.rs:75-80 | a decayed mass survives exactly when it is at least 1 |
| ChipDist.PruneGet | fetch/src/ta/chip_dist.rs:74-83 | after decay a key maps to its decayed mass if that is at least 1, otherwise it is gone |
| ChipDist.KeyedTail | fetch/src/ta/chip_dist.rs:30 | the tail of an ordered map is ordered |
| ChipDist.GetFront | fetch/src/ta/chip_dist.rs:30 | lookup in a map with one entry in front |
| ChipDist.KeyedTailMisses | fetch/src/ta/chip_dist.rs:30 | the first key of an ordered map is not in its tail |
| ChipDist.GetBelowFirst | fetch/src/ta/chip_dist.rs:30 | a key below the first key is absent |
| ChipDist.SpreadSpec | fetch/src/ta/chip_dist.rs:85-112 | spreading the day's volume keeps the key order and every mass at least 1 |
| ChipDist.AddAtSpec | fetch/src/ta/chip_dist.rs:105-111 | adding a mass of at least 1 adds it to the key's existing mass or inserts it, keeping order and masses at least 1 |
| ChipDist.GetIn | fetch/src/ta/chip_dist.rs:106 | a found value is an entry of the map |
| ChipDist.StepSpec | fetch/src/ta/chip_dist.rs:68-115 | one processed bar leaves every mass at least 1, snapshots the chip under the bar's yyyymmdd and leaves other snapshots alone |
| ChipDist.FoldSpec | fetch/src/ta/chip_dist.rs:59-115 | over a run of bars the chip is unchanged or every mass is at least 1, the seed's snapshots are kept and each processed bar's date has a snapshot |
| ChipDist.FoldedNext | fetch/src/ta/chip_dist.rs:59-115 | one more bar keeps those facts |
| ChipDist.LastKey | fetch/src/ta/chip_dist.rs:52-56 | the last key of the snapshots, None for none |
| ChipDist.Decay | fetch/src/ta/chip_dist.rs:74-83 | the in-place decay equals the pruning function |
| ChipDist.SpreadDay | fetch/src/ta/chip_dist.rs:85-112 | the `for i in 0..st_len` loop adds the day's triangular distribution step by step |
| ChipDist.CalcChipDist | fetch/src/ta/chip_dist.rs:43-118 | always Ok: from the seed (or empty), each bar dated after the seed's last snapshot decays, spreads and is snapshot, in order; ac defaults to 1 |
| ChipDist.FoldPrefix | fetch/src/ta/chip_dist.rs:59-115 | one loop pass is the fold over one more bar |
| ChipDist.BelowWithinTotal | fetch/src/ta/chip_dist.rs:151-160 | the mass below a price lies between 0 and the total |
| ChipDist.RatioBounds | fetch/src/ta/chip_dist.rs:151-161 | with non-negative masses the winner ratio lies in [0, 1] |
| ChipDist.WinnerOf | fetch/src/ta/chip_dist.rs:151-162 | the inner loop's ratio is the mass below the price over the total, 0 without mass |
| ChipDist.CalcWinner | fetch/src/ta/chip_dist.rs:123-167 | neither or both of data and price is an error with its message; otherwise one ratio per snapshot in date order, against the i-th close (0 past the end) or the given price |
| ChipDist.FirstReached | fetch/src/ta/chip_dist.rs:179-185 | the first entry from `from` whose cumulative share reaches the target, none reaching it before; none when no entry reaches it |
| ChipDist.CostOf | fetch/src/ta/chip_dist.rs:176-186 | the loop's price is the key / 100 of the first entry reaching the share, else 0 |
| ChipDist.CalcCost | fetch/src/ta/chip_dist.rs:170-190 | always Ok, one cost price per snapshot date in date order for the share ratio / 100 |
| SyncTypes.ToLower | data/src/types.rs:26 | same length; each capital letter lowered, every other character kept; no capitals remain |
| SyncTypes.ToLowerIdempotent | data/src/types.rs:26 | lower-casing twice is lower-casing once, and a string without capitals is its own lower case |
| SyncTypes.SyncDestFrom | data/src/types.rs:22-36 | Ok exactly when the lower-cased kind is file, mongodb, mysql or clickhouse, with that destination and the value verbatim; otherwise 'Invalid SyncDest: ' and the lower-cased kind |
| SyncTypes.SyncDestCaseInsensitive | data/src/types.rs:25-33 | the kind's capitalisation never changes the destination |
| SyncTypes.SyncDestTypeFrom | data/src/types.rs:47-59 | Ok exactly for 1..=4, to the type with that discriminant; otherwise 'Invalid SyncDestType: ' and the number |
| SyncTypes.SyncDestTypeRoundTrip | data/src/types.rs:38-59 | each destination type's discriminant converts back to it |
| SyncTypes.SyncDataTypeValue | data/src/types.rs:92-118 | the discriminants lie in 1..=19 |
| SyncTypes.AllListed | data/src/types.rs:92-118 | the list of all sync data types holds every one of them |
| SyncTypes.SyncDataTypeFromI32 | data/src/types.rs:120-152 | Ok exactly for 1..=19, to the type with that discriminant; otherwise 'Invalid SyncDataType: ' and the number |
| SyncTypes.SyncDataTypeI32RoundTrip | data/src/types.rs:92-152 | each type's discriminant converts back to it |
| SyncTypes.Lookup | data/src/types.rs:160-185 | a type is found exactly when one in the list has the name, and the one found has it |
| SyncTypes.SyncDataTypeFromStr | data/src/types.rs:154-191 | Ok exactly when the lower-cased string is one of the 19 names, to the type of that name; otherwise 'Invalid SyncDataType: ' and the lower-cased string |
| SyncTypes.SyncDataTypeNamesDistinct | data/src/types.rs:160-184 | no two types share a name |
| SyncTypes.SyncDataTypeStrRoundTrip | data/src/types.rs:154-191 | every type's name, in any capitalisation, converts back to that type |
| Store.ByCodeKeys | data/src/store/mod.rs:145-149 | the cache's keys are exactly the codes of the data |
| Store.ByCodeLaterWins | data/src/store/mod.rs:145-149 | the entry kept for a code is its last occurrence in the data |
| Store.ByCodeEntries | data/src/store/mod.rs:145-149 | every cached entry is one of the data's entries, under its own code |
| Store.NextTradeDateUnique | data/src/store/mod.rs:121-136 | there is at most one next trade date |
| Store.HiqCache.constructor | data/src/store/mod.rs:112-120 | a new cache holds nothing |
| Store.HiqCache.NextTradeDate | data/src/store/mod.rs:121-136 | the date itself without cached dates; otherwise the first later day whose yyyymmdd is cached |
| Store.HiqCache.CacheTradeDate | data/src/store/mod.rs:137-141 | replaces the trade dates and nothing else |
| Store.HiqCache.CacheIndexInfo | data/src/store/mod.rs:145-149 | replaces the index infos with the data keyed by code, nothing else |
| Store.HiqCache.CacheStockInfo | data/src/store/mod.rs:153-157 | replaces the stock infos with the data keyed by code, nothing else |
| Store.HiqCache.CacheBondInfo | data/src/store/mod.rs:161-165 | replaces the bond infos with the data keyed by code, nothing else |
| Store.HiqCache.CacheFundInfo | data/src/store/mod.rs:169-173 | replaces the fund infos with the data keyed by code, nothing else |
| Store.DataTypeValue | data/src/store/mod.rs:179-187 | the discriminants lie in 1..=6 |
| Store.DataTypeValueInjective | data/src/store/mod.rs:179-187 | distinct data types have distinct discriminants |
| Store.InfoTableOf | data/src/store/mod.rs:321-357 | Concept reads the concept table and Industry the industry table, and only they |
| Store.DailyTableOf | data/src/store/mod.rs:368-375 | Concept reads the concept daily table and Industry the industry daily table, and only they |
| Store.DispatchInjective | data/src/store/mod.rs:314-377 | no two data types read the same info or daily table |
| Store.Pairs | data/src/store/mod.rs:321-357 | one (code, name) pair per row, in row order |
| Store.LoadInfo | data/src/store/mod.rs:314-360 | a load error is passed on; otherwise the (code, name) of every row of the type's own table, in order |
| Store.LoadDaily | data/src/store/mod.rs:361-377 | a load error is passed on; otherwise exactly the bars of the type's own daily table |
| Syncer.Sleeps | data/src/syncer.rs:15-26 | the n-th failed attempt sleeps 500 * 2^n milliseconds |
| Syncer.SleepsNext | data/src/syncer.rs:21-25 | each further failure adds the doubled sleep at the end |
| Syncer.SleepsTotal | data/src/syncer.rs:15-26 | n failed attempts together wait 500 * (2^n - 1) milliseconds |
| Syncer.Returned | data/src/syncer.rs:14-30 | the attempt whose result is returned: the first that succeeds, or the seventh, with every attempt before it failed |
| Syncer.Retry | data/src/syncer.rs:14-30 | returns the first successful call's result, or the seventh failure's error after seven doubling sleeps (500 ms up to 32 s) |
| Syncer.PowMonotone | data/src/syncer.rs:22-25 | the backoff grows strictly, so it reaches 64 only at the seventh attempt |
| Syncer.RetryFailsIffAllFail | data/src/syncer.rs:14-30 | `retry` fails exactly when all seven attempts fail, and then returns the last error |
| Syncer.NeedToStart | data/src/syncer.rs:32-51 | start without a previous start or after an earlier day; never for a future start day; on the same day only after 15:05 |
| Sync.BuildStoresOk | data/src/sync.rs:49-57 | building succeeds exactly when every destination's store builds, and the stores are then keyed by exactly the destinations' types |
| Sync.BuildStoresPrefixErr | data/src/sync.rs:51-53 | the first failing destination's error is the error of the whole build |
| Sync.Sync.constructor | data/src/sync.rs:32-44 | destinations and funcs as given, no store, not initialised |
| Sync.Sync.Init | data/src/sync.rs:48-61 | a second call changes nothing; the first builds every store in destination order, storing them only when all build, otherwise returning the first error and staying uninitialised |
| Sync.Range | data/src/sync.rs:126-134 | the syncer indices lo..hi-1 in order |
| Sync.SyncPartition | data/src/sync.rs:126-161 | the fetch tasks cover every syncer index once, in order; with len = syncers / tasks > 0 there are exactly task_count tasks, all of len indices but the last, which holds the rest; with len 0 a single task of all indices (none for no syncers) |
| Sync.PartitionFinished | data/src/sync.rs:151-161 | the pending indices close the partition with that shape |
| Sync.PartitionStep | data/src/sync.rs:133-150 | one loop pass keeps the partition invariant: the cut chunks and the pending one hold the indices so far, each cut chunk has len indices, and the last chunk is never cut |
| Sync.Tagged | data/src/sync.rs:188 | one fetch's data items on syncer x's channel, in order |
| Sync.Finished | data/src/sync.rs:184-193 | a shutdown during a fetch stops the task before that syncer's Done |
| Sync.FetchTask | data/src/sync.rs:177-200 | each finished syncer's fetched data then its Done, in index order; a shutdown ends the task without the interrupted syncer's Done |
| Sync.ChannelAppend | data/src/sync.rs:194 | a channel's messages over two runs of sends concatenate |
| Sync.Wrap | data/src/sync.rs:188 | fetched items as data messages, in order |
| Sync.ChannelOfTagged | data/src/sync.rs:186-188 | a syncer's data reaches only its own channel |
| Sync.ChannelOfStep | data/src/sync.rs:184-197 | one finished syncer's messages reach only its own channel |
| Sync.ChannelOfDone | data/src/sync.rs:194 | a Done reaches only its own syncer's channel |
| Sync.ChannelOfSends | data/src/sync.rs:177-200 | a syncer handled exactly once sees exactly its fetched data followed by one Done; a syncer not handled sees nothing |
| Sync.BeforeDoneOfFetch | data/src/sync.rs:211-227 | a save task reading one whole fetch stops at its Done with exactly that fetch's data |
| Sync.SaveTask | data/src/sync.rs:202-231 | saves the channel's items in arrival order up to the first Done or the channel's end; a shutdown while saving an item stops before that item |
| Sync.FetchedIsSaved | data/src/sync.rs:177-231 | with no shutdown, a syncer's save task saves exactly what its fetch produced |
| Sync.DonesAppend | data/src/sync.rs:194 | the Done messages over two runs of sends concatenate |
| Sync.DonesOfTagged | data/src/sync.rs:188 | data messages carry no Done |
| Sync.DonesOfSends | data/src/sync.rs:184-197 | the Done messages of a fetch task name its finished syncers, in order |
| Mongo.Contains | data/src/store/mongo/mongo.rs:141-147 | a type is configured when no function list is given, and otherwise exactly when it is in the list |
| Mongo.KeepAppend | data/src/store/mongo/mongo.rs:148-153 | filtering registrations by the configured types distributes over concatenation, so successive add_syncer calls compose |
| Mongo.KeepOne | data/src/store/mongo/mongo.rs:148-153 | one add_syncer call keeps the syncer exactly when its type is configured |
| Mongo.KeepMembers | data/src/store/mongo/mongo.rs:141-153 | a syncer ends up registered exactly when it was offered and its type is configured |
| Mongo.Margins | data/src/store/mongo/mongo.rs:171-173 | the margin stocks of a chunk are a subsequence no longer than the chunk |
| Mongo.MarginsAppend | data/src/store/mongo/mongo.rs:171-173 | collecting margin stocks distributes over concatenation |
| Mongo.Chunks | data/src/store/mongo/mongo.rs:166-204 | the loop cuts exactly c chunks of len stocks |
| Mongo.Cut | data/src/store/mongo/mongo.rs:166-205 | the stocks left pending after the loop always hold at least one whole chunk of len stocks |
| Mongo.CodesAppend | data/src/store/mongo/mongo.rs:154-231 | the stocks handed to daily-bar and to margin syncers distribute over concatenation of registrations |
| Mongo.ChunkSyncersCodes | data/src/store/mongo/mongo.rs:178-200 | the two syncers of a cut chunk hand out the chunk to the daily-bar syncer and its margin stocks to the margin syncer |
| Mongo.PlanOfCodes | data/src/store/mongo/mongo.rs:170-205 | the loop's syncers hand out the concatenated chunks and their margin stocks |
| Mongo.ChunksFlatten | data/src/store/mongo/mongo.rs:166-205 | the first c chunks, concatenated, are the first len * c stocks |
| Mongo.InLoopCodes | data/src/store/mongo/mongo.rs:170-205 | the loop's daily-bar syncers receive the stocks before the cut, and its margin syncers their margin stocks |
| Mongo.TailCodes | data/src/store/mongo/mongo.rs:206-231 | after the loop the rest goes to a daily-bar syncer when it has at least len stocks, and its margin stocks to a margin syncer only when there are at least len of them |
| Mongo.PlanCodes | data/src/store/mongo/mongo.rs:154-231 | the daily-bar syncers receive every stock exactly once in order; the margin syncers receive the margin stocks of the cut chunks, plus those of the rest only when at least len |
| Mongo.FourStocksSplit | data/src/store/mongo/mongo.rs:166-167 | four stocks split two ways give chunks of two and leave the last two pending |
| Mongo.TrailingMarginDropped | data/src/store/mongo/mongo.rs:219-231 | a margin stock in a final chunk with fewer than len margin stocks reaches no margin syncer (four stocks, split two, only the last a margin stock) |
| Mongo.PendingInit | data/src/store/mongo/mongo.rs:165-169 | before the loop nothing is cut and nothing is pending |
| Mongo.PendingKeep | data/src/store/mongo/mongo.rs:170-177 | a stock taken without a cut extends the pending chunk (and its margin chunk) and keeps the loop's bookkeeping |
| Mongo.PendingCut | data/src/store/mongo/mongo.rs:170-204 | a chunk filled before index len * split_count - 1 is cut and the pending chunks restart empty |
| Mongo.RegisteredKeep | data/src/store/mongo/mongo.rs:170-177 | taking a stock without a cut registers nothing |
| Mongo.RegisteredCut | data/src/store/mongo/mongo.rs:178-204 | a cut registers the chunk's daily-bar and margin syncers with the incremented task number |
| Mongo.LoopEnd | data/src/store/mongo/mongo.rs:170-205 | after the loop exactly the expected number of whole chunks is cut and the pending chunk is the stocks from the cut on, with its margin stocks |
| Mongo.FinishPlan | data/src/store/mongo/mongo.rs:170-231 | the loop's registrations followed by those of the rest are the whole heavy plan |
| Mongo.HeavyKeep | data/src/store/mongo/mongo.rs:154-231 | filtering the heavy plan by configured types is filtering the loop's part and the rest's part separately |
| Mongo.Lights | data/src/store/mongo/mongo.rs:233-377 | one whole-type syncer per listed type, in order |
| Mongo.TypesDisjoint | data/src/store/mongo/mongo.rs:233-377 | no basic-info type is among the whole-type syncers registered regardless of skip_basic |
| Mongo.SkipBasicPlansNoBasic | data/src/store/mongo/mongo.rs:234 | with skip_basic no basic-info syncer is offered |
| Mongo.BasicPlannedFirst | data/src/store/mongo/mongo.rs:233-377 | without skip_basic the five basic-info syncers are offered first, followed by the other whole-type syncers in registration order |
| Mongo.FirstError | data/src/store/mongo/mongo.rs:77-117 | there is no load error exactly when all five cache inputs loaded |
| Mongo.MongoStore.constructor | data/src/store/mongo/mongo.rs:45-75 | the store keeps skip_basic, split_count and the function list, with no syncers and an empty cache |
| Mongo.MongoStore.AddSyncer | data/src/store/mongo/mongo.rs:148-153 | the syncer is appended exactly when its type is configured |
| Mongo.MongoStore.AddSyncers | data/src/store/mongo/mongo.rs:148-153 | a run of add_syncer calls appends the configured syncers of the plan, in order |
| Mongo.MongoStore.PrepareHeavySyncer | data/src/store/mongo/mongo.rs:154-232 | the registered syncers grow by the configured part of the heavy plan (see PlanCodes for what each syncer receives) |
| Mongo.MongoStore.CutChunks | data/src/store/mongo/mongo.rs:165-205 | the loop leaves whole chunks cut and the rest pending, and registers the two syncers of each cut chunk |
| Mongo.MongoStore.TakeStock | data/src/store/mongo/mongo.rs:170-204 | one pass of the loop preserves the loop's bookkeeping and registrations |
| Mongo.MongoStore.AddChunkSyncers | data/src/store/mongo/mongo.rs:180-200 | the daily-bar then margin syncer of a cut chunk are added when configured |
| Mongo.MongoStore.AddRest | data/src/store/mongo/mongo.rs:206-231 | the rest's daily-bar syncer, then its margin syncer, are added when long enough and configured |
| Mongo.MongoStore.PrepareSyncer | data/src/store/mongo/mongo.rs:233-379 | the registered syncers grow by the configured whole-type syncers (basic ones only without skip_basic) followed by the configured heavy plan |
| Mongo.MongoStore.PrepareCache | data/src/store/mongo/mongo.rs:76-140 | the first load error (from remote without skip_basic, from the database with it) is returned with the cache untouched; otherwise all five caches are replaced and it fails exactly when one input is empty |
| Mongo.MongoStore.Init | data/src/store/mongo/mongo.rs:399-406 | a connection or cache error is returned and no syncer is registered; on success the whole-type and heavy syncers are registered |
| StockYjbb.Row | data/src/store/mongo/stock_yjbb.rs:69-74 | one year's row of the enumeration holds at most s seasons |
| StockYjbb.RowSnoc | data/src/store/mongo/stock_yjbb.rs:69-74 | the inner loop appends season s + 1 unless it is before the stored season of the first year |
| StockYjbb.PendingSeasons | data/src/store/mongo/stock_yjbb.rs:59-83 | the nested loops enumerate exactly the (year, season) pairs Wanted describes, for each of the three cases: same year, earlier year, nothing stored |
| StockYjbb.RowStep | data/src/store/mongo/stock_yjbb.rs:69-74 | one pass of the inner loop extends the enumeration by that season |
| StockYjbb.SinceNext | data/src/store/mongo/stock_yjbb.rs:68-75 | one pass of the outer loop appends that year's row |
| StockYjbb.RowMembers | data/src/store/mongo/stock_yjbb.rs:69-74 | a row holds exactly the seasons from the start season through s of its year |
| StockYjbb.SinceMembers | data/src/store/mongo/stock_yjbb.rs:68-75 | the earlier-year enumeration holds exactly the pairs from the stored season of the stored year through season 4 of the last year |
| StockYjbb.SinceSnoc | data/src/store/mongo/stock_yjbb.rs:68-75 | every year after the first contributes a full row of four seasons |
| StockYjbb.ConcatIncreasing | data/src/store/mongo/stock_yjbb.rs:59-83 | two time-ordered enumerations, the first wholly before the second, concatenate to a time-ordered one |
| StockYjbb.RowIncreasing | data/src/store/mongo/stock_yjbb.rs:69-74 | a row is in season order, all in its year and no later than season s |
| StockYjbb.SinceIncreasing | data/src/store/mongo/stock_yjbb.rs:68-75 | the earlier-year enumeration is in time order and ends in the last year |
| StockYjbb.WantedIncreasing | data/src/store/mongo/stock_yjbb.rs:59-83 | in every case the pairs are enumerated in time order, so none is fetched twice |
| StockYjbb.EarlierYearMembers | data/src/store/mongo/stock_yjbb.rs:67-76 | with an earlier stored year, exactly the pairs from the stored one through season 4 of the current year are fetched, the stored season included |
| StockYjbb.NothingStoredMembers | data/src/store/mongo/stock_yjbb.rs:77-83 | with nothing stored, every season of every year from 1991 through the current year is fetched |
| StockYjbb.SameYearSeasons | data/src/store/mongo/stock_yjbb.rs:63-66 | within the current year seasons 1 through 5 - season are fetched: with season 3 stored, season 1 is fetched again and season 3 is not |
| StockYjbb.NotStored | data/src/store/mongo/stock_yjbb.rs:104-109 | the filter keeps no more reports than it is given |
| StockYjbb.NotStoredMembers | data/src/store/mongo/stock_yjbb.rs:104-109 | the filter keeps exactly the reports whose code is not stored |
| StockYjbb.NotStoredNone | data/src/store/mongo/stock_yjbb.rs:106-112 | with no stored code the filter keeps every report, so the source's empty-set shortcut agrees with filtering |
| StockYjbb.Fresh | data/src/store/mongo/stock_yjbb.rs:104-112 | the reports to send are all fetched ones when nothing is stored, and in general exactly the fetched reports whose code is not stored |
| StockYjbb.SendAll | data/src/store/mongo/stock_yjbb.rs:84-130 | the send loop's outcome and batches are those of the walk Run, stopping at the first fetch or query error |
| StockYjbb.RunStops | data/src/store/mongo/stock_yjbb.rs:93-102 | once a pair's fetch or query fails, later pairs neither send nor change the outcome |
| StockYjbb.RunOk | data/src/store/mongo/stock_yjbb.rs:84-130 | the walk succeeds exactly when every pair's fetch and query succeed |
| StockYjbb.RunSent | data/src/store/mongo/stock_yjbb.rs:114-119 | at most one batch per pair is sent, each non-empty and produced by one pair's step, so save's first-element lookup always finds one |
| StockYjbb.SentIsFresh | data/src/store/mongo/stock_yjbb.rs:94-119 | every report sent was fetched for its pair and its code was not stored for that pair |
| StockYjbb.Fetch | data/src/store/mongo/stock_yjbb.rs:47-131 | an error looking up the latest stored report is returned with nothing sent; otherwise the enumerated pairs are walked |

## Left out

- The HTTP clients and response parsing are not modelled. This covers the
  rest of `fetch_bar`, the regex/JSON parsing in `fetch_rt_quot_sn`/`_xq`,
  and the fund, bond and stock fetch crates. Their outcomes are parameters.
- MongoDB I/O is not modelled: queries, inserts, the index builder, and the
  per-type info/daily syncers other than yjbb. Query outcomes are parameters.
  Syncers are represented by the data type and the codes they are given.
- Concurrency is not modelled: tokio `spawn`/`select!`, the broadcast
  shutdown, join handles and the mpsc channels. Runner and sync tasks run in
  sequence. A panicked task is a value. A channel is the sequence of
  messages sent on it.
- `Sync::sync`, which spawns the fetch and save tasks for every store, is
  not one member. Its parts are modelled: `Sync.SyncPartition`,
  `Sync.FetchTask` and `Sync.SaveTask`.
- Sync.FetchTask: a failing `send` is not modelled, neither the syncers'
  data nor the `Done` after each syncer, whose failure would end the task
  with "send data error". A send fails only once the save task has dropped
  its receiver.
- Retry sleeps are returned as the list of durations (`Syncer.Retry`) and
  are not performed.
- IEEE floating point is not modelled: rounding, infinities, NaN, and f32
  against f64. `Num.Div` yields 0 for a zero divisor.
- Float text parsing (Rust `f32::from_str`, Python `float()`/`int()`) and
  chrono date parsing and formatting are function parameters. Rust's
  integer `parse` is modelled exactly (`RustParse`).
- `SyncTypes.ToLower` lower-cases ASCII letters only. Rust's
  `to_lowercase` also folds non-ASCII letters, which no accepted name
  contains.
- The Python bindings (PyO3 glue), the strategy and data CLIs' `main`, the
  logger, dynamic library loading of strategies, the axum server and the
  progress display are not modelled.
- `Context::emit`, `get_quot` and the backtest quotation's `fetch` are
  `todo!()` in the source and are not modelled. The backtest
  `subscribe` is modelled.
- Python strategy discovery (`os.walk` and `importlib`) and packaging are
  not modelled.
- The Python `right_side.py` strategy is not modelled. It refers to
  undefined names and duplicates the Rust strategy.
- `StopLostProfit.OnRisk` takes the positions as a sequence. The source
  iterates a HashMap, whose order is unspecified.
- `Mongo.MongoStore.PrepareHeavySyncer` takes the stocks as a sequence: the
  cached stock map's iteration order. The link between the cache's
  contents and that sequence is not modelled.
- `StockYjbb.Fetch` takes the current year as a parameter (the local
  clock). Each fetch result stands for the outcome after `retry`. A
  failing `send` on the channel is not modelled: the receiver outlives the
  sender.
- The `save` of the yjbb syncer, a single `insert_many`, is not modelled.
  `StockYjbb.RunSent` shows that every batch it receives is non-empty.
- `Quotation.MyQuotation.Fetch` models the first-call branch and the poll
  of one session event. The quote fetch itself is a parameter.
- Registry.Help: states only that the description has four characters.
  Both strategies return the same literal, which its contract does not
  repeat.
- `PyStrategy.Run` takes the result of `test` as a value, so the call into
  user code is not modelled. The JSON text encoder `json.dumps` and its
  default handler are a parameter.
- PyStrategy.CommonParam: `testTradeDays` is an integer. Python's
  `CommonParam` stores any value there, None included. The Python strategies
  compare it with integers, so the model gives it that type.
- StopLostProfit signals do not carry the random UUID `id` or the
  clock-derived `time` of `Signal`. The description `desc` is the `Reason`
  datatype rather than the formatted text.
- The Python base strategy's `stat_result` is a parameter.
- `MovingAverage.MA` builds a sequence rather than pushing to a vector. The
  in-place `reverse` at the end becomes a reversed copy.

## Source behaviour the model keeps

The model follows the code as written. The following behaviours are
proved as stated:

- `split_code` drops the remainder of the universe when its length does not
  divide evenly. Those codes are never tested. Whatever `test` does on them,
  `run` returns the same thing, so a hit among them is lost:
  `Runner.RunIgnoresRemainder`, `Runner.RemainderHitsLost`,
  `Runner.NothingDroppedWhen`.
- `prepare_heavy_syncer` hands the rest's margin stocks to a margin syncer
  only when there are at least `len` of them, so trailing margin stocks can
  go unsynced: `Mongo.TrailingMarginDropped`, `Mongo.PlanCodes`.
- Within the current year the yjbb syncer fetches seasons 1 through
  5 - season rather than season through 4: `StockYjbb.SameYearSeasons`.
- On a new trade date, a poll at or before 09:15 falls in the last
  session's index and fires MorningOpen early:
  `Quotation.EarlyMorningFiresOpen`.
- `on_poll` removes the oldest order before emitting it, so a failed
  emit loses it: `SimulateBroker.Simulate.OnPoll`.
- The take-profit rate `profit_rate` is never consulted:
  `StopLostProfit.ProfitRateIgnored`.
- `MaTurn.prepare` never reads `max_turn_days`, and `test` never reads
  `min_up_pct`: `MaTurn.MaTurn.Prepare`, `MaTurn.MaTurn.Test`.
- A Python `StrategyResult` without stat does not read back from its own
  dictionary: `PyStrategy.NoStatDictDoesNotReadBack`.
- The Python base `name()` always raises: `PyStrategy.DefaultName`.
- `build_cmm_params` parses `test_end_date` before `test_trade_days`, so
  a bad date is reported ahead of a bad day count: `Cli.BuildCmmParams`.
  The code decides this order, and the model follows the code.
- The `Strategy` trait's `CommonParam` names its second field
  `min_trade_days` and stores a date. The strategies and the command line
  use `test_trade_days` and a date-time. The two versions are unified as
  `StrategyContract.CommonParam(testEndDate, testTradeDays)`.
