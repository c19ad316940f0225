// Chip (cost) distribution: per price key, how much of the float was bought
// at that price, decayed by each day's turnover and refreshed with a
// triangular distribution of the day's volume over its price range; plus
// the two read-only reductions, the winner (profit) ratio and the cost price.
//
// A BTreeMap is modelled as a sequence of (key, value) entries in strictly
// increasing key order, which is also its iteration order.
module ChipDist {
  import opened Wrappers
  import opened Num
  import opened Common

  /** Price key (price in cents) to chip mass. */
  type Chip = seq<(int, real)>

  /** A BTreeMap's shape: keys strictly increasing. */
  ghost predicate Keyed<V>(s: seq<(int, V)>)
  {
    forall i, j :: 0 <= i < j < |s| ==> s[i].0 < s[j].0
  }

  /** Every mass is at least 1. */
  ghost predicate Heavy(c: Chip)
  {
    forall e :: e in c ==> e.1 >= 1.0
  }

  /** `BTreeMap::get`. */
  function Get<V>(s: seq<(int, V)>, k: int): Option<V>
  {
    if s == [] then None else if s[0].0 == k then Some(s[0].1) else Get(s[1..], k)
  }

  /** `BTreeMap::insert`: a new key goes in its ordered place; an existing key's value is replaced. */
  function Put<V>(s: seq<(int, V)>, k: int, v: V): (r: seq<(int, V)>)
    ensures |r| > 0 && (r[0].0 == k || (|s| > 0 && r[0] == s[0]))
  {
    if s == [] then [(k, v)]
    else if k < s[0].0 then [(k, v)] + s
    else if k == s[0].0 then [(k, v)] + s[1..]
    else [s[0]] + Put(s[1..], k, v)
  }

  /** Insertion keeps the map shape, maps k to v, leaves every other key alone and brings in no other entry. */
  lemma PutSpec<V>(s: seq<(int, V)>, k: int, v: V)
    requires Keyed(s)
    ensures Keyed(Put(s, k, v))
    ensures Get(Put(s, k, v), k) == Some(v)
    ensures forall j :: j != k ==> Get(Put(s, k, v), j) == Get(s, j)
    ensures forall e :: e in Put(s, k, v) ==> e in s || e == (k, v)
  {
    PutKeyed(s, k, v);
    PutGet(s, k, v);
    PutMembers(s, k, v);
  }

  lemma {:induction false} PutKeyed<V>(s: seq<(int, V)>, k: int, v: V)
    requires Keyed(s)
    ensures Keyed(Put(s, k, v))
  {
    if s == [] {
    } else if k < s[0].0 {
      var r := [(k, v)] + s;
      forall i, j | 0 <= i < j < |r|
        ensures r[i].0 < r[j].0
      {
        if i == 0 {
          assert s[0].0 <= s[j - 1].0;
        }
      }
    } else if k == s[0].0 {
      var r := [(k, v)] + s[1..];
      forall i, j | 0 <= i < j < |r|
        ensures r[i].0 < r[j].0
      {
        assert r[j] == s[j];
        if i > 0 {
          assert r[i] == s[i];
        }
      }
    } else {
      var rest := Put(s[1..], k, v);
      PutKeyed(s[1..], k, v);
      assert |s| > 1 ==> s[0].0 < s[1].0;
      assert s[0].0 < rest[0].0;
      var r := [s[0]] + rest;
      forall i, j | 0 <= i < j < |r|
        ensures r[i].0 < r[j].0
      {
        if i == 0 && j > 1 {
          assert rest[0].0 < rest[j - 1].0;
        }
      }
    }
  }

  lemma {:induction false} PutGet<V>(s: seq<(int, V)>, k: int, v: V)
    ensures Get(Put(s, k, v), k) == Some(v)
    ensures forall j :: j != k ==> Get(Put(s, k, v), j) == Get(s, j)
  {
    if s == [] {
    } else if k < s[0].0 {
      assert ([(k, v)] + s)[1..] == s;
    } else if k == s[0].0 {
      assert ([(k, v)] + s[1..])[1..] == s[1..];
    } else {
      PutGet(s[1..], k, v);
      assert ([s[0]] + Put(s[1..], k, v))[1..] == Put(s[1..], k, v);
    }
  }

  lemma {:induction false} PutMembers<V>(s: seq<(int, V)>, k: int, v: V)
    ensures forall e :: e in Put(s, k, v) ==> e in s || e == (k, v)
  {
    if s != [] && k > s[0].0 {
      PutMembers(s[1..], k, v);
      assert forall e :: e in s[1..] ==> e in s;
    } else if s != [] && k == s[0].0 {
      assert forall e :: e in s[1..] ==> e in s;
    }
  }

  /**
   * The decay of `calc_chip_dist`: every mass multiplied by `factor`,
   * entries that fall below 1 removed.
   */
  function Prune(c: Chip, factor: real): (r: Chip)
    ensures |r| <= |c|
  {
    if c == [] then [] else Decayed(c[0], factor) + Prune(c[1..], factor)
  }

  /** One entry after decay: kept with its decayed mass when that is at least 1. */
  function Decayed(e: (int, real), factor: real): (r: Chip)
    ensures |r| <= 1
    ensures r == [] <==> e.1 * factor < 1.0
    ensures r != [] ==> r[0] == (e.0, e.1 * factor)
  {
    if e.1 * factor >= 1.0 then [(e.0, e.1 * factor)] else []
  }

  /** Decay keeps the map shape and never brings in a key below the first one. */
  lemma {:induction false} PruneKeyed(c: Chip, factor: real)
    requires Keyed(c)
    ensures Keyed(Prune(c, factor))
    ensures |Prune(c, factor)| > 0 ==> |c| > 0 && Prune(c, factor)[0].0 >= c[0].0
  {
    if c != [] {
      var rest := Prune(c[1..], factor);
      PruneKeyed(c[1..], factor);
      if |rest| > 0 {
        assert c[0].0 < c[1].0 <= rest[0].0;
      }
      var v := c[0].1 * factor;
      if v >= 1.0 {
        var r := Decayed(c[0], factor) + rest;
        forall i, j | 0 <= i < j < |r|
          ensures r[i].0 < r[j].0
        {
          if i == 0 && j > 1 {
            assert rest[0].0 < rest[j - 1].0;
          }
        }
      }
    }
  }

  /** After decay every remaining mass is at least 1. */
  lemma {:induction false} PruneHeavy(c: Chip, factor: real)
    ensures Heavy(Prune(c, factor))
  {
    if c != [] {
      PruneHeavy(c[1..], factor);
    }
  }

  /** A mass after decay, if it stays at least 1. */
  function Surviving(m: Option<real>, factor: real): (r: Option<real>)
    ensures r.Some? <==> m.Some? && m.value * factor >= 1.0
    ensures r.Some? ==> r.value == m.value * factor
  {
    if m.Some? && m.value * factor >= 1.0 then Some(m.value * factor) else None
  }

  /** A key keeps its decayed mass iff that mass is at least 1. */
  lemma {:induction false} PruneGet(c: Chip, factor: real, k: int)
    requires Keyed(c)
    ensures Get(Prune(c, factor), k) == Surviving(Get(c, k), factor)
  {
    if c != [] {
      KeyedTail(c);
      PruneGet(c[1..], factor, k);
      var rest := Prune(c[1..], factor);
      assert Prune(c, factor) == Decayed(c[0], factor) + rest;
      assert [c[0]] + c[1..] == c;
      GetFront(c[0], c[1..], k);
      if k == c[0].0 {
        KeyedTailMisses(c);
      }
      if c[0].1 * factor >= 1.0 {
        assert Decayed(c[0], factor) == [(c[0].0, c[0].1 * factor)];
        GetFront((c[0].0, c[0].1 * factor), rest, k);
        if c[0].0 == k {
          // The option's value first: its equality alone is not found.
          var sv := Surviving(Get(c, k), factor);
          assert sv.Some? && sv.value == c[0].1 * factor;
        }
      } else {
        assert Decayed(c[0], factor) + rest == rest;
      }
    }
  }

  lemma KeyedTail<V>(s: seq<(int, V)>)
    requires Keyed(s) && s != []
    ensures Keyed(s[1..])
  {
    forall i, j | 0 <= i < j < |s| - 1
      ensures s[1..][i].0 < s[1..][j].0
    {
      assert s[1..][i] == s[i + 1] && s[1..][j] == s[j + 1];
    }
  }

  /** Looking up a map with one entry in front of `rest`. */
  lemma GetFront<V>(e: (int, V), rest: seq<(int, V)>, k: int)
    ensures Get([e] + rest, k) == if e.0 == k then Some(e.1) else Get(rest, k)
  {
    assert ([e] + rest)[1..] == rest;
  }

  /** The first key of a map is not found in its tail. */
  lemma {:induction false} KeyedTailMisses<V>(s: seq<(int, V)>)
    requires Keyed(s) && s != []
    ensures Get(s[1..], s[0].0).None?
  {
    GetBelowFirst(s[1..], s[0].0);
  }

  lemma {:induction false} GetBelowFirst<V>(s: seq<(int, V)>, k: int)
    requires Keyed(s) && (s == [] || k < s[0].0)
    ensures Get(s, k).None?
  {
    if s != [] {
      assert |s| > 1 ==> s[0].0 < s[1].0;
      GetBelowFirst(s[1..], k);
    }
  }

  /** `get_mut(key) += value`, or `insert(key, value)` when the key is new. */
  function AddAt(c: Chip, k: int, v: real): Chip
  {
    Put(c, k, if Get(c, k).Some? then Get(c, k).value + v else v)
  }

  const St: real := 0.01

  /** `(x as isize)` for the number of price steps: truncation toward zero. */
  function Steps(x: real): int
  {
    if x >= 0.0 then x.Floor else -((-x).Floor)
  }

  /** The number of 0.01 price steps between the day's low and high. */
  function StepCount(bar: Bar): int
  {
    Steps(Div(bar.high - bar.low, St))
  }

  /**
   * The mass the triangular distribution puts on step i, scaled by the
   * day's turnover and the decay coefficient, and its price key.
   */
  function StepMass(bar: Bar, ac: real, i: nat): (int, real)
  {
    var h := Div(2.0, bar.high - bar.low);
    var avg := Div(bar.amount, (bar.volume * 100) as real);
    var x1 := i as real * St + bar.low;
    var x2 := x1 + St;
    var y1 := if x1 < avg then Div(h * (x1 - bar.low), avg - bar.low) else Div(h * (bar.high - x1), bar.high - avg);
    var y2 := if x1 < avg then Div(h * (x2 - bar.low), avg - bar.low) else Div(h * (bar.high - x2), bar.high - avg);
    var area := St * (y1 + y2) / 2.0;
    var dist := area * bar.volume as real;
    (AsI32(x1 * 100.0), dist * (bar.turnover / 100.0 * ac))
  }

  /** The first n steps of the day's new mass added to `c`; a step adds only when its mass is at least 1. */
  function Spread(c: Chip, bar: Bar, ac: real, n: int): Chip
    decreases n
  {
    if n <= 0 then c
    else
      var prev := Spread(c, bar, ac, n - 1);
      var (k, v) := StepMass(bar, ac, n - 1);
      if v >= 1.0 then AddAt(prev, k, v) else prev
  }

  /** Spreading new mass keeps the map shape and keeps every mass at least 1. */
  lemma {:induction false} SpreadSpec(c: Chip, bar: Bar, ac: real, n: int)
    requires Keyed(c) && Heavy(c)
    ensures Keyed(Spread(c, bar, ac, n)) && Heavy(Spread(c, bar, ac, n))
    decreases n
  {
    if n > 0 {
      var prev := Spread(c, bar, ac, n - 1);
      SpreadSpec(c, bar, ac, n - 1);
      var (k, v) := StepMass(bar, ac, n - 1);
      if v >= 1.0 {
        AddAtSpec(prev, k, v);
      }
    }
  }

  /** Adding a mass of at least 1 keeps the map shape and every mass at least 1. */
  lemma AddAtSpec(c: Chip, k: int, v: real)
    requires Keyed(c) && Heavy(c) && v >= 1.0
    ensures Keyed(AddAt(c, k, v)) && Heavy(AddAt(c, k, v))
    ensures Get(AddAt(c, k, v), k) == Some(if Get(c, k).Some? then Get(c, k).value + v else v)
  {
    var nv := if Get(c, k).Some? then Get(c, k).value + v else v;
    GetIn(c, k);
    PutSpec(c, k, nv);
  }

  lemma {:induction false} GetIn<V>(s: seq<(int, V)>, k: int)
    ensures Get(s, k).Some? ==> (k, Get(s, k).value) in s
  {
    if s != [] && s[0].0 != k {
      GetIn(s[1..], k);
    }
  }

  /** The decay factor of one day: 1 - turnover% * ac. */
  function DecayFactor(bar: Bar, ac: real): real
  {
    1.0 - (bar.turnover / 100.0) * ac
  }

  /** The current chip and the per-date snapshots. */
  datatype ChipDistState = ChipDistState(chip: Chip, chipList: seq<(int, Chip)>)

  /** One processed bar: decay, then spread, then snapshot under the bar's yyyymmdd. */
  function Step(d: ChipDistState, bar: Bar, ac: real, ymd: int -> int): ChipDistState
  {
    var chip := Spread(Prune(d.chip, DecayFactor(bar, ac)), bar, ac, StepCount(bar));
    ChipDistState(chip, Put(d.chipList, ymd(bar.tradeDate.day), chip))
  }

  /** A processed bar leaves every mass at least 1 and snapshots the chip under its date; other snapshots stay. */
  lemma StepSpec(d: ChipDistState, bar: Bar, ac: real, ymd: int -> int)
    requires Keyed(d.chip) && Keyed(d.chipList)
    ensures var r := Step(d, bar, ac, ymd);
      && Keyed(r.chip) && Keyed(r.chipList) && Heavy(r.chip)
      && Get(r.chipList, ymd(bar.tradeDate.day)) == Some(r.chip)
      && forall k :: k != ymd(bar.tradeDate.day) ==> Get(r.chipList, k) == Get(d.chipList, k)
  {
    var pruned := Prune(d.chip, DecayFactor(bar, ac));
    PruneKeyed(d.chip, DecayFactor(bar, ac));
    PruneHeavy(d.chip, DecayFactor(bar, ac));
    SpreadSpec(pruned, bar, ac, StepCount(bar));
    PutSpec(d.chipList, ymd(bar.tradeDate.day), Spread(pruned, bar, ac, StepCount(bar)));
  }

  /** Whether a bar is processed: it is dated after the seed's last snapshot, if there is one. */
  predicate After(bar: Bar, lastDate: Option<int>, ymd: int -> int)
  {
    lastDate.None? || ymd(bar.tradeDate.day) > lastDate.value
  }

  /** The state after the bars of `bars` that are dated after `lastDate`, in order. */
  function Fold(d: ChipDistState, bars: seq<Bar>, lastDate: Option<int>, ac: real, ymd: int -> int): ChipDistState
  {
    if bars == [] then d
    else
      var prev := Fold(d, bars[..|bars| - 1], lastDate, ac, ymd);
      var bar := bars[|bars| - 1];
      if After(bar, lastDate, ymd) then Step(prev, bar, ac, ymd) else prev
  }

  /**
   * Over a run of bars: the chip is unchanged (nothing processed) or every
   * mass is at least 1; seed snapshots are kept; every processed bar's date
   * has a snapshot.
   */
  lemma {:induction false} FoldSpec(d: ChipDistState, bars: seq<Bar>, lastDate: Option<int>, ac: real, ymd: int -> int)
    requires Keyed(d.chip) && Keyed(d.chipList)
    ensures Folded(d, bars, lastDate, ymd, Fold(d, bars, lastDate, ac, ymd))
  {
    if bars != [] {
      var n := |bars| - 1;
      FoldSpec(d, bars[..n], lastDate, ac, ymd);
      FoldedNext(d, bars, lastDate, ac, ymd, Fold(d, bars[..n], lastDate, ac, ymd), Fold(d, bars, lastDate, ac, ymd));
    }
  }

  /**
   * What `FoldSpec` states of the state `r` reached from `d` over `bars`: the
   * chip is unchanged or every mass is at least 1, seed snapshots are kept,
   * and every processed bar's date has a snapshot.
   */
  ghost predicate Folded(d: ChipDistState, bars: seq<Bar>, lastDate: Option<int>, ymd: int -> int, r: ChipDistState)
  {
    && Keyed(r.chip) && Keyed(r.chipList)
    && (r.chip == d.chip || Heavy(r.chip))
    && (forall k :: Get(d.chipList, k).Some? ==> Get(r.chipList, k).Some?)
    && (forall i :: 0 <= i < |bars| && After(bars[i], lastDate, ymd) ==> Get(r.chipList, ymd(bars[i].tradeDate.day)).Some?)
  }

  /** One more bar keeps `Folded`. */
  lemma FoldedNext(d: ChipDistState, bars: seq<Bar>, lastDate: Option<int>, ac: real, ymd: int -> int,
    prev: ChipDistState, r: ChipDistState)
    requires |bars| > 0 && Folded(d, bars[..|bars| - 1], lastDate, ymd, prev)
    requires var bar := bars[|bars| - 1]; r == if After(bar, lastDate, ymd) then Step(prev, bar, ac, ymd) else prev
    ensures Folded(d, bars, lastDate, ymd, r)
  {
    var n := |bars| - 1;
    if After(bars[n], lastDate, ymd) {
      StepSpec(prev, bars[n], ac, ymd);
    }
    assert forall i :: 0 <= i < n ==> bars[..n][i] == bars[i];
  }

  /** The last key of a map, if any. */
  function LastKey<V>(s: seq<(int, V)>): (k: Option<int>)
    ensures k.Some? <==> |s| > 0
    ensures k.Some? ==> k.value == s[|s| - 1].0
  {
    if s == [] then None else Some(s[|s| - 1].0)
  }

  /** The decay half of a processed bar, in place over the entries. */
  method Decay(chip: Chip, factor: real) returns (r: Chip)
    ensures r == Prune(chip, factor)
  {
    r := [];
    var i := 0;
    while i < |chip|
      invariant 0 <= i <= |chip|
      invariant r + Prune(chip[i..], factor) == Prune(chip, factor)
    {
      assert chip[i..][1..] == chip[i + 1..];
      r := r + Decayed(chip[i], factor);
      i := i + 1;
    }
    assert chip[i..] == [];
  }

  /** The spreading half of a processed bar: the `for i in 0..st_len` loop. */
  method SpreadDay(chip: Chip, bar: Bar, ac: real) returns (r: Chip)
    ensures r == Spread(chip, bar, ac, StepCount(bar))
  {
    r := chip;
    var stLen := StepCount(bar);
    var i := 0;
    while i < stLen
      invariant 0 <= i && (i <= stLen || i == 0)
      invariant r == Spread(chip, bar, ac, i)
    {
      var (key, value) := StepMass(bar, ac, i);
      if value >= 1.0 {
        var existing := Get(r, key);
        if existing.Some? {
          r := Put(r, key, existing.value + value);
        } else {
          r := Put(r, key, value);
        }
      }
      i := i + 1;
    }
  }

  /**
   * `calc_chip_dist`: starting from the seed (or empty maps), each bar dated
   * after the seed's last snapshot decays and refreshes the chip and is
   * snapshot under its yyyymmdd (`ymd` is the calendar). Never an error.
   */
  method CalcChipDist(data: seq<Bar>, ac: Option<real>, seed: Option<ChipDistState>, ymd: int -> int)
    returns (r: Result<ChipDistState, string>)
    ensures var start := if seed.Some? then seed.value else ChipDistState([], []);
      r == Ok(Fold(start, data, LastKey(start.chipList), if ac.Some? then ac.value else 1.0, ymd))
  {
    var chip: Chip, chipList: seq<(int, Chip)> := [], [];
    if seed.Some? {
      chip, chipList := seed.value.chip, seed.value.chipList;
    }
    ghost var start := ChipDistState(chip, chipList);
    var lastTradeDate := LastKey(chipList);
    var a := if ac.Some? then ac.value else 1.0;
    var i := 0;
    while i < |data|
      invariant 0 <= i <= |data|
      invariant ChipDistState(chip, chipList) == Fold(start, data[..i], lastTradeDate, a, ymd)
    {
      var bar := data[i];
      ghost var prev := ChipDistState(chip, chipList);
      if lastTradeDate.None? || ymd(bar.tradeDate.day) > lastTradeDate.value {
        chip := Decay(chip, DecayFactor(bar, a));
        chip := SpreadDay(chip, bar, a);
        chipList := Put(chipList, ymd(bar.tradeDate.day), chip);
      }
      FoldPrefix(start, data, i, lastTradeDate, a, ymd, prev, chip, chipList);
      i := i + 1;
    }
    assert data[..i] == data;
    return Ok(ChipDistState(chip, chipList));
  }

  /** The fold over one more bar of `data`. */
  lemma FoldPrefix(d: ChipDistState, data: seq<Bar>, i: nat, lastDate: Option<int>, ac: real, ymd: int -> int,
    prev: ChipDistState, chip: Chip, chipList: seq<(int, Chip)>)
    requires i < |data| && prev == Fold(d, data[..i], lastDate, ac, ymd)
    requires After(data[i], lastDate, ymd) ==>
      && chip == Spread(Prune(prev.chip, DecayFactor(data[i], ac)), data[i], ac, StepCount(data[i]))
      && chipList == Put(prev.chipList, ymd(data[i].tradeDate.day), chip)
    requires !After(data[i], lastDate, ymd) ==> chip == prev.chip && chipList == prev.chipList
    ensures ChipDistState(chip, chipList) == Fold(d, data[..i + 1], lastDate, ac, ymd)
  {
    assert data[..i + 1][..i] == data[..i];
  }

  lemma DivAtMostOne(b: real, t: real)
    requires 0.0 <= b <= t && t > 0.0
    ensures b / t <= 1.0
  {
    var q := b / t;
    assert q * t == b;
  }

  /** The total mass. */
  function Total(c: Chip): real
  {
    if c == [] then 0.0 else Total(c[..|c| - 1]) + c[|c| - 1].1
  }

  /** The mass whose price (key / 100) is below `close`. */
  function Below(c: Chip, close: real): real
  {
    if c == [] then 0.0
    else Below(c[..|c| - 1], close) + (if c[|c| - 1].0 as real / 100.0 < close then c[|c| - 1].1 else 0.0)
  }

  /** The winner ratio: mass below the price over the total, 0 without mass. */
  function Ratio(c: Chip, close: real): real
  {
    if Total(c) > 0.0 then Below(c, close) / Total(c) else 0.0
  }

  /** With non-negative masses the mass below any price is between 0 and the total. */
  lemma {:induction false} BelowWithinTotal(c: Chip, close: real)
    requires forall e :: e in c ==> e.1 >= 0.0
    ensures 0.0 <= Below(c, close) <= Total(c)
  {
    if c != [] {
      var n := |c| - 1;
      assert forall e :: e in c[..n] ==> e in c;
      assert c[n] in c;
      BelowWithinTotal(c[..n], close);
    }
  }

  /** With non-negative masses the winner ratio lies in [0, 1]. */
  lemma RatioBounds(c: Chip, close: real)
    requires forall e :: e in c ==> e.1 >= 0.0
    ensures 0.0 <= Ratio(c, close) <= 1.0
  {
    BelowWithinTotal(c, close);
    if Total(c) > 0.0 {
      DivAtMostOne(Below(c, close), Total(c));
    }
  }

  /** The inner `for_each` of `calc_winner`. */
  method WinnerOf(c: Chip, close: real) returns (ratio: real)
    ensures ratio == Ratio(c, close)
  {
    var profit, total := 0.0, 0.0;
    var i := 0;
    while i < |c|
      invariant 0 <= i <= |c|
      invariant total == Total(c[..i]) && profit == Below(c[..i], close)
    {
      assert c[..i + 1][..i] == c[..i];
      total := total + c[i].1;
      if c[i].0 as real / 100.0 < close {
        profit := profit + c[i].1;
      }
      i := i + 1;
    }
    assert c[..i] == c;
    ratio := if total > 0.0 then profit / total else 0.0;
  }

  /** The price for the i-th snapshot: the i-th bar's close (0.0 past the end) with data, else the given price. */
  function PriceAt(data: Option<seq<Bar>>, price: Option<real>, i: nat): real
  {
    if data.Some? then (if i < |data.value| then data.value[i].close else 0.0)
    else if price.Some? then price.value else 0.0
  }

  /**
   * `calc_winner`: exactly one of `data` and `price` must be given; the
   * result has one ratio per snapshot date, in date order.
   */
  method CalcWinner(d: ChipDistState, data: Option<seq<Bar>>, price: Option<real>)
    returns (r: Result<seq<(int, real)>, string>)
    ensures data.None? && price.None? ==> r == Err("data / price should not both none")
    ensures data.Some? && price.Some? ==> r == Err("data / price should not both some")
    ensures data.Some? != price.Some? ==>
      && r.Ok? && |r.value| == |d.chipList|
      && forall i :: 0 <= i < |r.value| ==>
           r.value[i] == (d.chipList[i].0, Ratio(d.chipList[i].1, PriceAt(data, price, i)))
  {
    if data.None? && price.None? {
      return Err("data / price should not both none");
    }
    if data.Some? && price.Some? {
      return Err("data / price should not both some");
    }
    var profit := [];
    var i := 0;
    while i < |d.chipList|
      invariant 0 <= i <= |d.chipList| && |profit| == i
      invariant forall j :: 0 <= j < i ==> profit[j] == (d.chipList[j].0, Ratio(d.chipList[j].1, PriceAt(data, price, j)))
    {
      var ratio := WinnerOf(d.chipList[i].1, PriceAt(data, price, i));
      profit := profit + [(d.chipList[i].0, ratio)];
      i := i + 1;
    }
    return Ok(profit);
  }

  /** The cumulative share of the mass up to and including entry j reaches `target`. */
  predicate Reached(c: Chip, j: nat, target: real)
    requires j < |c|
  {
    Div(Total(c[..j + 1]), Total(c)) >= target
  }

  /** The first entry at or after `from` whose cumulative share reaches `target`. */
  function FirstReached(c: Chip, target: real, from: nat): (j: Option<nat>)
    ensures j.Some? ==>
      && from <= j.value < |c| && Reached(c, j.value, target)
      && forall m :: from <= m < j.value ==> !Reached(c, m, target)
    ensures j.None? ==> forall m :: from <= m < |c| ==> !Reached(c, m, target)
    decreases |c| - from
  {
    if from >= |c| then None
    else if Reached(c, from, target) then Some(from)
    else FirstReached(c, target, from + 1)
  }

  /** The cost price of one snapshot: the key / 100 of the first entry whose cumulative share reaches `target`, else 0. */
  function Cost(c: Chip, target: real): real
  {
    var j := FirstReached(c, target, 0);
    if j.Some? then c[j.value].0 as real / 100.0 else 0.0
  }

  /** The per-snapshot loop of `calc_cost`. */
  method CostOf(c: Chip, target: real) returns (price: real)
    ensures price == Cost(c, target)
  {
    var sum := 0.0;
    var k := 0;
    while k < |c|
      invariant 0 <= k <= |c| && sum == Total(c[..k])
    {
      assert c[..k + 1][..k] == c[..k];
      sum := sum + c[k].1;
      k := k + 1;
    }
    assert c[..k] == c;
    var sumToRatio := 0.0;
    price := 0.0;
    var i := 0;
    while i < |c|
      invariant 0 <= i <= |c| && sumToRatio == Total(c[..i])
      invariant FirstReached(c, target, 0) == FirstReached(c, target, i)
    {
      assert c[..i + 1][..i] == c[..i];
      sumToRatio := sumToRatio + c[i].1;
      if Div(sumToRatio, sum) >= target {
        price := c[i].0 as real / 100.0;
        return;
      }
      i := i + 1;
    }
  }

  /** `calc_cost(ratio)`: one cost price per snapshot date, in date order, for the share ratio / 100. */
  method CalcCost(d: ChipDistState, ratio: int) returns (r: Result<seq<(int, real)>, string>)
    ensures r.Ok? && |r.value| == |d.chipList|
    ensures forall i :: 0 <= i < |r.value| ==> r.value[i] == (d.chipList[i].0, Cost(d.chipList[i].1, ratio as real / 100.0))
  {
    var target := ratio as real / 100.0;
    var cost := [];
    var i := 0;
    while i < |d.chipList|
      invariant 0 <= i <= |d.chipList| && |cost| == i
      invariant forall j :: 0 <= j < i ==> cost[j] == (d.chipList[j].0, Cost(d.chipList[j].1, target))
    {
      var price := CostOf(d.chipList[i].1, target);
      cost := cost + [(d.chipList[i].0, price)];
      i := i + 1;
    }
    return Ok(cost);
  }
}
