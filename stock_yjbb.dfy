// The quarterly results (yjbb) syncer of the mongo store: which
// (year, season) pairs it fetches, and which fetched reports it sends on.
module StockYjbb {
  import opened Wrappers
  import opened SyncTypes

  /** One quarterly report, reduced to the stock code it is keyed by and its name. */
  datatype Report = Report(code: string, name: string)

  /** A (year, season) pair; seasons are numbered 1 to 4. */
  type Pair = (nat, nat)

  /** The pairs (y, t) for t = 1..s, skipping the seasons before `from`, in season order. */
  function Row(y: nat, from: nat, s: nat): (r: seq<Pair>)
    ensures |r| <= s
  {
    var lo := if from < 1 then 1 else from;
    if lo > s then [] else seq(s + 1 - lo, i requires 0 <= i < s + 1 - lo => (y, lo + i))
  }

  /** A row grows by season s + 1 unless that season is skipped. */
  lemma RowSnoc(y: nat, from: nat, s: nat)
    ensures Row(y, from, s + 1) == Row(y, from, s) + (if s + 1 < from then [] else [(y, s + 1)])
  {
    var lo := if from < 1 then 1 else from;
    if lo <= s {
      assert Row(y, from, s + 1) == Row(y, from, s) + [(y, s + 1)];
    } else if lo == s + 1 {
      assert Row(y, from, s + 1) == [(y, s + 1)];
    }
  }

  /**
   * The pairs from season `from` of `year` through season 4 of `last`,
   * year by year, four seasons per later year.
   */
  function Since(year: nat, from: nat, last: int): seq<Pair>
    decreases last - year
  {
    if last < year then []
    else if last == year then Row(year, from, Seasons)
    else Since(year, from, last - 1) + Row(last, 1, Seasons)
  }

  /** The seasons of a year. */
  const Seasons: nat := 4

  /** The first year the syncer fetches when nothing is stored. */
  const FirstYear: nat := 1991

  /**
   * The pairs to fetch, given the latest stored pair and the current year.
   * Within the current year the source counts seasons 1..5-season rather
   * than season..4.
   */
  function Wanted(latest: Option<Pair>, nYear: nat): seq<Pair>
    requires NoUnderflow(latest, nYear)
  {
    match latest
    case None => Since(FirstYear, 1, nYear)
    case Some((year, season)) =>
      if year == nYear then Row(year, 1, 5 - season) else Since(year, season, nYear)
  }

  /** What the u16 arithmetic of the enumeration needs to stay above zero. */
  predicate NoUnderflow(latest: Option<Pair>, nYear: nat)
  {
    match latest
    case None => nYear >= FirstYear
    case Some((year, season)) => year <= nYear && (year == nYear ==> season <= 4)
  }

  /**
   * The (year, season) enumeration of the syncer's `fetch`, built by the
   * same nested loops.
   */
  method PendingSeasons(latest: Option<Pair>, nYear: nat) returns (sVec: seq<Pair>)
    requires NoUnderflow(latest, nYear)
    ensures sVec == Wanted(latest, nYear)
  {
    sVec := [];
    if latest.Some? {
      var (year, season) := latest.value;
      if year == nYear {
        var s := 0;
        while s < 4 - season + 1
          invariant s <= 5 - season
          invariant sVec == Row(year, 1, s)
        {
          RowSnoc(year, 1, s);
          sVec := sVec + [(year, s + 1)];
          s := s + 1;
        }
      } else {
        var y := 0;
        while y < nYear - year + 1
          invariant y <= nYear - year + 1
          invariant sVec == Since(year, season, year + y - 1)
        {
          var from := if y == 0 then season else 1;
          var s := 0;
          while s < 4
            invariant s <= 4
            invariant sVec == Since(year, season, year + y - 1) + Row(year + y, from, s)
          {
            RowStep(Since(year, season, year + y - 1), year + y, from, s);
            if y == 0 && s + 1 < season {
              s := s + 1;
              continue;
            }
            sVec := sVec + [(year + y, s + 1)];
            s := s + 1;
          }
          SinceNext(year, season, y);
          y := y + 1;
        }
      }
    } else {
      var y := 0;
      while y < nYear - FirstYear + 1
        invariant y <= nYear - FirstYear + 1
        invariant sVec == Since(FirstYear, 1, FirstYear + y - 1)
      {
        var s := 0;
        while s < 4
          invariant s <= 4
          invariant sVec == Since(FirstYear, 1, FirstYear + y - 1) + Row(FirstYear + y, 1, s)
        {
          RowStep(Since(FirstYear, 1, FirstYear + y - 1), FirstYear + y, 1, s);
          sVec := sVec + [(y + FirstYear, s + 1)];
          s := s + 1;
        }
        SinceNext(FirstYear, 1, y);
        y := y + 1;
      }
    }
  }

  /** The inner loop's step: one more season of the row after the earlier pairs. */
  lemma RowStep(done: seq<Pair>, y: nat, from: nat, s: nat)
    ensures done + Row(y, from, s + 1) == (done + Row(y, from, s)) + (if s + 1 < from then [] else [(y, s + 1)])
  {
    RowSnoc(y, from, s);
  }

  /** The outer loop's step: a whole row completes the year. */
  lemma SinceNext(year: nat, from: nat, y: nat)
    ensures Since(year, from, year + y - 1) + Row(year + y, if y == 0 then from else 1, Seasons)
      == Since(year, from, year + y)
  {
    if y == 0 {
      assert Since(year, from, year - 1) == [];
    }
  }

  /** A row holds exactly the seasons from..s of its year. */
  lemma RowMembers(y: nat, from: nat, s: nat, p: Pair)
    ensures p in Row(y, from, s) <==> p.0 == y && 1 <= p.1 <= s && p.1 >= from
  {
    var lo := if from < 1 then 1 else from;
    if p.0 == y && 1 <= p.1 <= s && p.1 >= from {
      assert Row(y, from, s)[p.1 - lo] == p;
    }
  }

  /** The pairs from season `from` of `year` through the last season of `last`. */
  predicate InSince(year: nat, from: nat, last: int, p: Pair)
  {
    year <= p.0 <= last && 1 <= p.1 <= Seasons && (p.0 == year ==> p.1 >= from)
  }

  /** The enumeration holds exactly those pairs. */
  lemma {:induction false} SinceMembers(year: nat, from: nat, last: int, p: Pair)
    ensures p in Since(year, from, last) <==> InSince(year, from, last, p)
    decreases last - year
  {
    if last == year {
      RowMembers(year, from, Seasons, p);
    } else if last > year {
      SinceMembers(year, from, last - 1, p);
      SinceSnoc(year, from, last);
      RowMembers(last, 1, Seasons, p);
      InConcat(Since(year, from, last - 1), Row(last, 1, Seasons), p);
    }
  }

  lemma InConcat(a: seq<Pair>, b: seq<Pair>, p: Pair)
    ensures p in a + b <==> p in a || p in b
  {
  }

  /** The last year of the enumeration is a full row of four seasons after the earlier years. */
  lemma SinceSnoc(year: nat, from: nat, last: int)
    requires last > year
    ensures Since(year, from, last) == Since(year, from, last - 1) + Row(last, 1, Seasons)
  {
  }

  /** `a` comes before `b`: an earlier year, or the same year and an earlier season. */
  predicate Before(a: Pair, b: Pair)
  {
    a.0 < b.0 || (a.0 == b.0 && a.1 < b.1)
  }

  predicate Increasing(r: seq<Pair>)
  {
    forall i, j :: 0 <= i < j < |r| ==> Before(r[i], r[j])
  }

  lemma ConcatIncreasing(a: seq<Pair>, b: seq<Pair>)
    requires Increasing(a) && Increasing(b)
    requires forall i, j :: 0 <= i < |a| && 0 <= j < |b| ==> Before(a[i], b[j])
    ensures Increasing(a + b)
  {
    forall i, j | 0 <= i < j < |a + b|
      ensures Before((a + b)[i], (a + b)[j])
    {
      if j < |a| {
        assert (a + b)[i] == a[i] && (a + b)[j] == a[j];
      } else if i < |a| {
        assert (a + b)[i] == a[i] && (a + b)[j] == b[j - |a|];
      } else {
        assert (a + b)[i] == b[i - |a|] && (a + b)[j] == b[j - |a|];
      }
    }
  }

  lemma RowIncreasing(y: nat, from: nat, s: nat)
    ensures Increasing(Row(y, from, s))
    ensures forall i :: 0 <= i < |Row(y, from, s)| ==> Row(y, from, s)[i].0 == y && Row(y, from, s)[i].1 <= s
  {
  }

  lemma {:induction false} SinceIncreasing(year: nat, from: nat, last: int)
    ensures Increasing(Since(year, from, last))
    ensures forall i :: 0 <= i < |Since(year, from, last)| ==> Since(year, from, last)[i].0 <= last
    decreases last - year
  {
    if last == year {
      RowIncreasing(year, from, Seasons);
    } else if last > year {
      SinceIncreasing(year, from, last - 1);
      RowIncreasing(last, 1, Seasons);
      ConcatIncreasing(Since(year, from, last - 1), Row(last, 1, Seasons));
    }
  }

  /**
   * The enumeration visits its pairs in time order, so each at most once.
   */
  lemma WantedIncreasing(latest: Option<Pair>, nYear: nat)
    requires NoUnderflow(latest, nYear)
    ensures Increasing(Wanted(latest, nYear))
  {
    match latest
    case None => SinceIncreasing(FirstYear, 1, nYear);
    case Some((year, season)) =>
      if year == nYear {
        RowIncreasing(year, 1, 5 - season);
      } else {
        SinceIncreasing(year, season, nYear);
      }
  }

  /**
   * With an earlier stored year, the syncer fetches exactly the pairs from
   * the stored one through the last season of the current year, so the
   * latest stored season is fetched again.
   */
  lemma EarlierYearMembers(year: nat, season: nat, nYear: nat, p: Pair)
    requires year < nYear
    ensures p in Wanted(Some((year, season)), nYear) <==>
      1 <= p.1 <= 4 && p.0 <= nYear && (p.0 > year || (p.0 == year && p.1 >= season))
  {
    SinceMembers(year, season, nYear, p);
  }

  /** With nothing stored, every season of every year from 1991 on is fetched. */
  lemma NothingStoredMembers(nYear: nat, p: Pair)
    requires nYear >= FirstYear
    ensures p in Wanted(None, nYear) <==> FirstYear <= p.0 <= nYear && 1 <= p.1 <= 4
  {
    SinceMembers(FirstYear, 1, nYear, p);
  }

  /**
   * Within the current year the seasons fetched are 1..5-season: with
   * season 3 stored, seasons 1 and 2 are fetched again and seasons 3 and 4
   * are not.
   */
  lemma SameYearSeasons(year: nat, season: nat, p: Pair)
    requires season <= 4
    ensures p in Wanted(Some((year, season)), year) <==> p.0 == year && 1 <= p.1 <= 5 - season
    ensures (year, 3) !in Wanted(Some((year, 3)), year) && (year, 1) in Wanted(Some((year, 3)), year)
  {
    RowMembers(year, 1, 5 - season, p);
    RowMembers(year, 1, 2, (year, 3));
    RowMembers(year, 1, 2, (year, 1));
  }

  /** The reports whose code is not among the stored codes, in order. */
  function NotStored(info: seq<Report>, codes: seq<string>): (r: seq<Report>)
    ensures |r| <= |info|
    decreases |info|
  {
    if |info| == 0 then []
    else
      var last := info[|info| - 1];
      NotStored(info[..|info| - 1], codes) + (if last.code in codes then [] else [last])
  }

  /** The filter keeps exactly the reports whose code is not stored. */
  lemma {:induction false} NotStoredMembers(info: seq<Report>, codes: seq<string>, e: Report)
    ensures e in NotStored(info, codes) <==> e in info && e.code !in codes
    decreases |info|
  {
    if |info| > 0 {
      NotStoredMembers(info[..|info| - 1], codes, e);
      assert info == info[..|info| - 1] + [info[|info| - 1]];
    }
  }

  lemma {:induction false} NotStoredNone(info: seq<Report>)
    ensures NotStored(info, []) == info
    decreases |info|
  {
    if |info| > 0 {
      NotStoredNone(info[..|info| - 1]);
    }
  }

  /**
   * The reports of one pair not yet in the database: all of them when no
   * code is stored for the pair, else those whose code is not stored.
   */
  function Fresh(info: seq<Report>, stored: seq<string>): (r: seq<Report>)
    ensures |stored| == 0 ==> r == info
    ensures forall e :: e in r <==> e in info && e.code !in stored
  {
    if |stored| > 0 then
      var r := NotStored(info, stored);
      assert forall e :: e in r <==> e in info && e.code !in stored by {
        forall e {
          NotStoredMembers(info, stored, e);
        }
      }
      r
    else info
  }

  /**
   * One pair's step: the fetch (after its retries) and, when it returned
   * reports, the query of the codes already stored for the pair. The value
   * is the batch to send, empty when there is nothing to send.
   */
  function Step(p: Pair, fetched: Pair -> Result<seq<Report>, Error>,
                stored: Pair -> Result<seq<string>, Error>): Result<seq<Report>, Error>
  {
    var f := fetched(p);
    if f.Err? then Err(f.error)
    else if |f.value| == 0 then Ok([])
    else
      var st := stored(p);
      if st.Err? then Err(st.error) else Ok(Fresh(f.value, st.value))
  }

  /** The outcome and the batches sent after walking `pairs`; the first error ends the walk. */
  function Run(pairs: seq<Pair>, fetched: Pair -> Result<seq<Report>, Error>,
               stored: Pair -> Result<seq<string>, Error>): (Result<(), Error>, seq<seq<Report>>)
    decreases |pairs|
  {
    if |pairs| == 0 then (Ok(()), [])
    else
      var (r, sent) := Run(pairs[..|pairs| - 1], fetched, stored);
      if r.Err? then (r, sent)
      else
        var b := Step(pairs[|pairs| - 1], fetched, stored);
        if b.Err? then (Err(b.error), sent)
        else if |b.value| > 0 then (Ok(()), sent + [b.value])
        else (Ok(()), sent)
  }

  /** The send loop of `fetch` over the enumerated pairs. */
  method SendAll(pairs: seq<Pair>, fetched: Pair -> Result<seq<Report>, Error>,
                 stored: Pair -> Result<seq<string>, Error>)
    returns (r: Result<(), Error>, sent: seq<seq<Report>>)
    ensures (r, sent) == Run(pairs, fetched, stored)
  {
    sent := [];
    var i := 0;
    while i < |pairs|
      invariant i <= |pairs|
      invariant Run(pairs[..i], fetched, stored) == (Ok(()), sent)
    {
      assert pairs[..i + 1][..i] == pairs[..i];
      var p := pairs[i];
      var data := fetched(p);
      if data.Err? {
        RunStops(pairs, fetched, stored, i + 1);
        return Err(data.error), sent;
      }
      if |data.value| > 0 {
        var dbData := stored(p);
        if dbData.Err? {
          RunStops(pairs, fetched, stored, i + 1);
          return Err(dbData.error), sent;
        }
        var batch := Fresh(data.value, dbData.value);
        if |batch| > 0 {
          sent := sent + [batch];
        }
      }
      i := i + 1;
    }
    assert pairs[..i] == pairs;
    return Ok(()), sent;
  }

  /** Once the walk has failed, the later pairs change nothing. */
  lemma {:induction false} RunStops(pairs: seq<Pair>, fetched: Pair -> Result<seq<Report>, Error>,
                                    stored: Pair -> Result<seq<string>, Error>, k: nat)
    requires k <= |pairs|
    requires Run(pairs[..k], fetched, stored).0.Err?
    ensures Run(pairs, fetched, stored) == Run(pairs[..k], fetched, stored)
    decreases |pairs| - k
  {
    if k < |pairs| {
      assert pairs[..k + 1][..k] == pairs[..k];
      RunStops(pairs, fetched, stored, k + 1);
    } else {
      assert pairs[..k] == pairs;
    }
  }

  /** The walk succeeds exactly when every pair's step does. */
  lemma {:induction false} RunOk(pairs: seq<Pair>, fetched: Pair -> Result<seq<Report>, Error>,
                                 stored: Pair -> Result<seq<string>, Error>)
    ensures Run(pairs, fetched, stored).0.Ok? <==>
      forall i :: 0 <= i < |pairs| ==> Step(pairs[i], fetched, stored).Ok?
    decreases |pairs|
  {
    if |pairs| > 0 {
      var init := pairs[..|pairs| - 1];
      RunOk(init, fetched, stored);
      assert forall i :: 0 <= i < |init| ==> init[i] == pairs[i];
    }
  }

  /** `b` is what one of the pairs' steps sends. */
  ghost predicate SentFor(pairs: seq<Pair>, fetched: Pair -> Result<seq<Report>, Error>,
                          stored: Pair -> Result<seq<string>, Error>, b: seq<Report>)
  {
    exists i :: 0 <= i < |pairs| && Step(pairs[i], fetched, stored) == Ok(b)
  }

  lemma SentForPrefix(init: seq<Pair>, pairs: seq<Pair>, fetched: Pair -> Result<seq<Report>, Error>,
                      stored: Pair -> Result<seq<string>, Error>, b: seq<Report>)
    requires init <= pairs && SentFor(init, fetched, stored, b)
    ensures SentFor(pairs, fetched, stored, b)
  {
    var i :| 0 <= i < |init| && Step(init[i], fetched, stored) == Ok(b);
    assert pairs[i] == init[i];
  }

  /**
   * At most one batch per pair is sent; every batch sent is non-empty and is
   * what one of the pairs' steps produced.
   */
  lemma {:induction false} RunSent(pairs: seq<Pair>, fetched: Pair -> Result<seq<Report>, Error>,
                                   stored: Pair -> Result<seq<string>, Error>)
    ensures |Run(pairs, fetched, stored).1| <= |pairs|
    ensures forall b :: b in Run(pairs, fetched, stored).1 ==> |b| > 0 && SentFor(pairs, fetched, stored, b)
    decreases |pairs|
  {
    if |pairs| > 0 {
      var init := pairs[..|pairs| - 1];
      RunSent(init, fetched, stored);
      var sent := Run(init, fetched, stored).1;
      forall b | b in sent
        ensures SentFor(pairs, fetched, stored, b)
      {
        SentForPrefix(init, pairs, fetched, stored, b);
      }
      var last := Step(pairs[|pairs| - 1], fetched, stored);
      if last.Ok? {
        assert SentFor(pairs, fetched, stored, last.value);
      }
    }
  }

  /** Nothing sent for a pair holds a report whose code was already stored for it. */
  lemma SentIsFresh(p: Pair, fetched: Pair -> Result<seq<Report>, Error>,
                    stored: Pair -> Result<seq<string>, Error>, e: Report)
    requires Step(p, fetched, stored).Ok?
    ensures e in Step(p, fetched, stored).value ==>
      fetched(p).Ok? && e in fetched(p).value && stored(p).Ok? && e.code !in stored(p).value
  {
  }

  /**
   * `StockYJBBSyncer::fetch`: looks up the latest stored pair, enumerates
   * the pairs to fetch and sends each pair's fresh reports. `nYear` is the
   * current year of the local clock.
   */
  method Fetch(latest: Result<Option<Pair>, Error>, nYear: nat,
               fetched: Pair -> Result<seq<Report>, Error>,
               stored: Pair -> Result<seq<string>, Error>)
    returns (r: Result<(), Error>, sent: seq<seq<Report>>)
    requires latest.Ok? ==> NoUnderflow(latest.value, nYear)
    ensures latest.Err? ==> r == Err(latest.error) && sent == []
    ensures latest.Ok? ==> (r, sent) == Run(Wanted(latest.value, nYear), fetched, stored)
  {
    if latest.Err? {
      return Err(latest.error), [];
    }
    var pairs := PendingSeasons(latest.value, nYear);
    r, sent := SendAll(pairs, fetched, stored);
  }
}
