// The strategy runner: split each category's universe into equal chunks, test
// every code of every chunk, and collect the hits per category. Tasks run
// one after another here; the spawned tokio tasks and the broadcast shutdown
// are reduced to the values they deliver.
module Runner {
  import opened Wrappers
  import opened StrategyLib

  /** A (code, name) pair of the universe. */
  type Code = (string, string)

  function Flatten<T>(xs: seq<seq<T>>): seq<T>
  {
    if xs == [] then [] else Flatten(xs[..|xs| - 1]) + xs[|xs| - 1]
  }

  lemma {:induction false} MulAtLeast(q: nat, c: nat)
    requires c >= 1
    ensures q * c >= q
    decreases c
  {
    if c > 1 {
      MulAtLeast(q, c - 1);
      assert q * c == q * (c - 1) + q;
    }
  }

  /** The quotient and remainder of n by k are the only q, r with q * k + r == n and r < k. */
  lemma DivMul(n: nat, k: nat, q: nat, r: nat)
    requires k >= 1 && q * k + r == n && r < k
    ensures q == n / k && r == n % k
  {
    var q', r' := n / k, n % k;
    assert q' * k + r' == n;
    if q > q' {
      MulAtLeast(k, q - q');
    } else if q < q' {
      MulAtLeast(k, q' - q);
    }
  }

  /** The chunk size `split_code` ends up using: len / count, or 1 when that is 0. */
  function ChunkSize(len: nat, count: nat): (k: nat)
    requires count > 0
    ensures k >= 1 && (len >= 1 ==> k <= len)
  {
    var t := len / count;
    DivMul(len, count, t, len % count);
    MulAtLeast(t, count);
    if t >= 1 then t else 1
  }

  /** How many codes `split_code` keeps: the whole chunks. */
  function KeptLength(len: nat, count: nat): (n: nat)
    requires count > 0
    ensures n <= len && len - n < ChunkSize(len, count)
  {
    var k := ChunkSize(len, count);
    DivMul(len, k, len / k, len % k);
    (len / k) * k
  }

  /** The part of a universe that `split_code` keeps: the longest prefix made of whole chunks. */
  function Kept<T>(codes: seq<T>, count: nat): (kept: seq<T>)
    requires count > 0
    ensures |kept| == KeptLength(|codes|, count) && kept == codes[..|kept|]
  {
    codes[..KeptLength(|codes|, count)]
  }

  /**
   * `split_code`: chunks of exactly ChunkSize elements, in input order; the
   * trailing remainder that does not fill a chunk is dropped.
   */
  method SplitCode<T>(codes: seq<T>, count: nat) returns (result: seq<seq<T>>)
    requires count > 0
    ensures forall i :: 0 <= i < |result| ==> |result[i]| == ChunkSize(|codes|, count)
    ensures |result| == |codes| / ChunkSize(|codes|, count)
    ensures Flatten(result) == Kept(codes, count)
  {
    var taskCount := |codes| / count;
    ghost var k := ChunkSize(|codes|, count);
    ghost var start := 0;
    result := [];
    var taskVec := [];
    var i := 0;
    while i < |codes|
      invariant 0 <= start <= i <= |codes|
      invariant start == |result| * k && start + |taskVec| == i && |taskVec| < k
      invariant forall j :: 0 <= j < |result| ==> |result[j]| == k
      invariant Flatten(result) == codes[..start]
      invariant taskVec == codes[start..i]
    {
      taskVec := taskVec + [codes[i]];
      i := i + 1;
      if |taskVec| < taskCount {
        continue;
      }
      assert |taskVec| == k;
      assert Flatten(result + [taskVec]) == Flatten(result) + taskVec;
      assert codes[..start] + codes[start..i] == codes[..i];
      assert (|result| + 1) * k == |result| * k + k;
      result := result + [taskVec];
      start := i;
      taskVec := [];
    }
    DivMul(|codes|, k, |result|, |taskVec|);
  }

  /** Nothing is dropped when the universe divides evenly or there are at least as many tasks as codes. */
  lemma NothingDroppedWhen<T>(codes: seq<T>, count: nat)
    requires count > 0
    requires count >= |codes| || |codes| % ChunkSize(|codes|, count) == 0
    ensures Kept(codes, count) == codes
  {
    var n, k := |codes|, ChunkSize(|codes|, count);
    if count >= n {
      if n == count {
        DivMul(n, count, 1, 0);
      } else {
        DivMul(n, count, 0, n);
      }
      assert k == 1;
      DivMul(n, 1, n, 0);
    } else {
      DivMul(n, k, n / k, n % k);
    }
  }

  /** One code's outcome of `test`, kept only when it is Ok(Some). */
  function HitOf<R>(r: Result<Option<R>, Error>): seq<R>
  {
    if r.Ok? && r.value.Some? then [r.value.value] else []
  }

  /** The hits of `test` over a list of codes, in code order; errors and misses are skipped. */
  function Hits<R>(typ: StrategyType, test: (StrategyType, string, string) -> Result<Option<R>, Error>, codes: seq<Code>): seq<R>
  {
    if codes == [] then []
    else
      var c := codes[|codes| - 1];
      Hits(typ, test, codes[..|codes| - 1]) + HitOf(test(typ, c.0, c.1))
  }

  lemma {:induction false} HitsAppend<R>(typ: StrategyType, test: (StrategyType, string, string) -> Result<Option<R>, Error>, a: seq<Code>, b: seq<Code>)
    ensures Hits(typ, test, a + b) == Hits(typ, test, a) + Hits(typ, test, b)
    decreases |b|
  {
    if b == [] {
      assert a + b == a;
    } else {
      assert (a + b)[..|a + b| - 1] == a + b[..|b| - 1];
      HitsAppend(typ, test, a, b[..|b| - 1]);
    }
  }

  /** Every hit is what `test` returned for one of the codes. */
  lemma {:induction false} HitsComeFromTest<R>(typ: StrategyType, test: (StrategyType, string, string) -> Result<Option<R>, Error>, codes: seq<Code>)
    ensures forall x :: x in Hits(typ, test, codes) ==>
      exists j :: 0 <= j < |codes| && test(typ, codes[j].0, codes[j].1) == Ok(Some(x))
    ensures |Hits(typ, test, codes)| <= |codes|
  {
    if codes != [] {
      var init := codes[..|codes| - 1];
      HitsComeFromTest(typ, test, init);
      forall x | x in Hits(typ, test, codes)
        ensures exists j :: 0 <= j < |codes| && test(typ, codes[j].0, codes[j].1) == Ok(Some(x))
      {
        if x in Hits(typ, test, init) {
          var j :| 0 <= j < |init| && test(typ, init[j].0, init[j].1) == Ok(Some(x));
          assert codes[j] == init[j];
        } else {
          assert test(typ, codes[|codes| - 1].0, codes[|codes| - 1].1) == Ok(Some(x));
        }
      }
    }
  }

  function NoneIfEmpty<R>(xs: seq<R>): Option<seq<R>>
  {
    if xs == [] then None else Some(xs)
  }

  /**
   * `run_task`: tests the chunk's codes in order. `shutdownAt` is the index
   * of the code whose test the shutdown signal overtakes (None: no signal);
   * that drops every hit so far.
   */
  method RunTask<R>(typ: StrategyType, test: (StrategyType, string, string) -> Result<Option<R>, Error>, codes: seq<Code>, shutdownAt: Option<nat>)
    returns (r: Result<Option<seq<R>>, Error>)
    ensures shutdownAt.Some? && shutdownAt.value < |codes| ==> r == Ok(None)
    ensures !(shutdownAt.Some? && shutdownAt.value < |codes|) ==> r == Ok(NoneIfEmpty(Hits(typ, test, codes)))
  {
    var rsVec := [];
    var i := 0;
    while i < |codes|
      invariant 0 <= i <= |codes|
      invariant rsVec == Hits(typ, test, codes[..i])
      invariant shutdownAt.Some? ==> shutdownAt.value >= i
    {
      if shutdownAt == Some(i) {
        return Ok(None);
      }
      var (code, name) := codes[i];
      var res := test(typ, code, name);
      assert codes[..i + 1][..i] == codes[..i];
      i := i + 1;
      if res.Err? {
        continue;
      }
      if res.value.Some? {
        rsVec := rsVec + [res.value.value];
      }
    }
    assert codes[..i] == codes;
    if rsVec == [] {
      return Ok(None);
    }
    return Ok(Some(rsVec));
  }

  /** How a spawned task ends: with its value, or with a JoinError (the task panicked). */
  datatype Joined<T> = Finished(value: T) | JoinError(message: string)

  /** The first JoinError among the tasks, in order. */
  function FirstJoinError<T>(tasks: seq<Joined<T>>): Option<string>
  {
    if tasks == [] then None
    else if tasks[0].JoinError? then Some(tasks[0].message)
    else FirstJoinError(tasks[1..])
  }

  /** The results the tasks collected, in task order; tasks that returned Err are skipped. */
  function Collected<R>(tasks: seq<Joined<Result<Option<seq<R>>, Error>>>): seq<R>
  {
    if tasks == [] then []
    else
      var t := tasks[|tasks| - 1];
      Collected(tasks[..|tasks| - 1]) + (if t.Finished? && t.value.Ok? && t.value.value.Some? then t.value.value.value else [])
  }

  lemma {:induction false} FirstJoinErrorSnoc<T>(tasks: seq<Joined<T>>, t: Joined<T>)
    requires FirstJoinError(tasks).None?
    ensures FirstJoinError(tasks + [t]) == if t.JoinError? then Some(t.message) else None
  {
    if tasks != [] {
      assert (tasks + [t])[1..] == tasks[1..] + [t];
      FirstJoinErrorSnoc(tasks[1..], t);
    }
  }

  /**
   * `join_group`: the first JoinError is the group's Err; otherwise the
   * group's hits are the tasks' hits in order, None when there are none.
   */
  method JoinGroup<R>(typ: StrategyType, tasks: seq<Joined<Result<Option<seq<R>>, Error>>>)
    returns (r: Result<Option<(StrategyType, seq<R>)>, Error>)
    ensures FirstJoinError(tasks).Some? ==> r == Err(Custom("join error: " + FirstJoinError(tasks).value))
    ensures FirstJoinError(tasks).None? ==>
      r == (if Collected(tasks) == [] then Ok(None) else Ok(Some((typ, Collected(tasks)))))
  {
    var rsVec := [];
    var i := 0;
    while i < |tasks|
      invariant 0 <= i <= |tasks|
      invariant FirstJoinError(tasks[..i]).None?
      invariant rsVec == Collected(tasks[..i])
    {
      assert tasks[..i + 1] == tasks[..i] + [tasks[i]];
      FirstJoinErrorSnoc(tasks[..i], tasks[i]);
      if tasks[i].JoinError? {
        FirstJoinErrorPrefix(tasks, i + 1);
        return Err(Custom("join error: " + tasks[i].message));
      }
      var res := tasks[i].value;
      assert tasks[..i + 1][..i] == tasks[..i];
      i := i + 1;
      if res.Err? {
        continue;
      }
      if res.value.Some? {
        rsVec := rsVec + res.value.value;
      }
    }
    assert tasks[..i] == tasks;
    if rsVec == [] {
      return Ok(None);
    }
    return Ok(Some((typ, rsVec)));
  }

  lemma {:induction false} FirstJoinErrorPrefix<T>(tasks: seq<Joined<T>>, n: nat)
    requires n <= |tasks| && FirstJoinError(tasks[..n]).Some?
    ensures FirstJoinError(tasks) == FirstJoinError(tasks[..n])
  {
    if tasks[0].JoinError? {
    } else {
      assert tasks[..n][1..] == tasks[1..][..n - 1];
      FirstJoinErrorPrefix(tasks[1..], n - 1);
    }
  }

  /** The tasks of one category when every task ran to the end: Finished(run_task of its chunk). */
  function TasksOf<R>(typ: StrategyType, test: (StrategyType, string, string) -> Result<Option<R>, Error>, chunks: seq<seq<Code>>): seq<Joined<Result<Option<seq<R>>, Error>>>
  {
    seq(|chunks|, i requires 0 <= i < |chunks| => Finished(Ok(NoneIfEmpty(Hits(typ, test, chunks[i])))))
  }

  /** Without panics or shutdown, a group's hits are the hits over its chunks' codes, in order. */
  lemma {:induction false} GroupIsHitsOfChunks<R>(typ: StrategyType, test: (StrategyType, string, string) -> Result<Option<R>, Error>, chunks: seq<seq<Code>>)
    ensures FirstJoinError(TasksOf(typ, test, chunks)).None?
    ensures Collected(TasksOf(typ, test, chunks)) == Hits(typ, test, Flatten(chunks))
    decreases |chunks|
  {
    var tasks := TasksOf(typ, test, chunks);
    if chunks == [] {
    } else {
      var init := chunks[..|chunks| - 1];
      assert tasks[..|tasks| - 1] == TasksOf(typ, test, init);
      assert tasks == TasksOf(typ, test, init) + [tasks[|tasks| - 1]];
      GroupIsHitsOfChunks(typ, test, init);
      FirstJoinErrorSnoc(TasksOf(typ, test, init), tasks[|tasks| - 1]);
      HitsAppend(typ, test, Flatten(init), chunks[|chunks| - 1]);
    }
  }

  /** `fit`: a category outside `accept` is an Err and `test` is not consulted; otherwise `test`, or None when the shutdown signal comes first. */
  function Fit<R>(accept: seq<StrategyType>, typ: StrategyType, code: string, name: string,
                  test: (StrategyType, string, string) -> Result<Option<R>, Error>, shutdownFirst: bool): (r: Result<Option<R>, Error>)
    ensures typ !in accept ==> r == Err(Custom("strategy not suitable for type: " + TypeDebug(typ) + ", only valid for " + TypesDebug(accept)))
    ensures typ in accept && shutdownFirst ==> r == Ok(None)
    ensures typ in accept && !shutdownFirst ==> r == test(typ, code, name)
  {
    if typ !in accept then
      Err(Custom("strategy not suitable for type: " + TypeDebug(typ) + ", only valid for " + TypesDebug(accept)))
    else if shutdownFirst then Ok(None)
    else test(typ, code, name)
  }

  /** `{:?}` of a StrategyType: the variant name. */
  function TypeDebug(t: StrategyType): string
  {
    match t
    case Bond => "Bond"
    case Fund => "Fund"
    case Stock => "Stock"
    case Index => "Index"
    case Concept => "Concept"
    case Industry => "Industry"
  }

  /** `{:?}` of a Vec<StrategyType>. */
  function TypesDebug(ts: seq<StrategyType>): string
  {
    "[" + JoinDebug(ts) + "]"
  }

  function JoinDebug(ts: seq<StrategyType>): string
  {
    if ts == [] then "" else if |ts| == 1 then TypeDebug(ts[0]) else TypeDebug(ts[0]) + ", " + JoinDebug(ts[1..])
  }

  /** The loader's info tables `run` reads. */
  datatype InfoTable = BondInfo | FundInfo | StockInfo | IndexInfo

  /** The universe of a category: Concept and Industry use the stock table. */
  function Universe(t: StrategyType): (table: InfoTable)
    ensures t == Concept || t == Industry ==> table == StockInfo
  {
    match t
    case Bond => BondInfo
    case Fund => FundInfo
    case Stock => StockInfo
    case Index => IndexInfo
    case Concept => StockInfo
    case Industry => StockInfo
  }

  /** The word naming the category in `run`'s load error. */
  function LoadWord(t: StrategyType): string
  {
    match t
    case Bond => "bond"
    case Fund => "fund"
    case Stock => "stock"
    case Index => "index"
    case Concept => "concept"
    case Industry => "industry"
  }

  /** The Err of the first category (in `accept` order) whose universe fails to load. */
  function FirstLoadError(accept: seq<StrategyType>, loadInfo: InfoTable -> Result<seq<Code>, string>): Option<Error>
  {
    if accept == [] then None
    else if loadInfo(Universe(accept[0])).Err? then
      Some(Custom("query " + LoadWord(accept[0]) + " info error: " + loadInfo(Universe(accept[0])).error))
    else FirstLoadError(accept[1..], loadInfo)
  }

  /** The hits of one category: the codes `split_code` keeps, tested in order. */
  function CategoryHits<R>(t: StrategyType, loadInfo: InfoTable -> Result<seq<Code>, string>, concurrent: nat,
                           test: (StrategyType, string, string) -> Result<Option<R>, Error>): seq<R>
    requires concurrent > 0 && loadInfo(Universe(t)).Ok?
  {
    Hits(t, test, Kept(loadInfo(Universe(t)).value, concurrent))
  }

  /** A category of `run`'s result: accepted, its universe loaded, and at least one hit. */
  predicate HasHits<R>(accept: seq<StrategyType>, t: StrategyType, loadInfo: InfoTable -> Result<seq<Code>, string>, concurrent: nat,
                       test: (StrategyType, string, string) -> Result<Option<R>, Error>)
    requires concurrent > 0
  {
    t in accept && loadInfo(Universe(t)).Ok? && CategoryHits(t, loadInfo, concurrent, test) != []
  }

  /**
   * What `run` returns when no task panics and no shutdown arrives: the first
   * load error, or the map from each accepted category with hits to those
   * hits, None when the map is empty.
   */
  function RunExpected<R>(accept: seq<StrategyType>, loadInfo: InfoTable -> Result<seq<Code>, string>, concurrent: nat,
                          test: (StrategyType, string, string) -> Result<Option<R>, Error>): Result<Option<map<StrategyType, seq<R>>>, Error>
    requires concurrent > 0
  {
    if FirstLoadError(accept, loadInfo).Some? then Err(FirstLoadError(accept, loadInfo).value)
    else
      var m := map t | HasHits(accept, t, loadInfo, concurrent, test) :: CategoryHits(t, loadInfo, concurrent, test);
      if m == map[] then Ok(None) else Ok(Some(m))
  }

  lemma {:induction false} FirstLoadErrorNone(accept: seq<StrategyType>, loadInfo: InfoTable -> Result<seq<Code>, string>, i: nat)
    requires i <= |accept| && forall j :: 0 <= j < i ==> loadInfo(Universe(accept[j])).Ok?
    ensures FirstLoadError(accept, loadInfo) == FirstLoadError(accept[i..], loadInfo)
  {
    if i > 0 {
      assert accept[1..][i - 1..] == accept[i..];
      FirstLoadErrorNone(accept[1..], loadInfo, i - 1);
    }
  }

  /**
   * The first loop of `run`: load each accepted category's universe and keep
   * its chunks when there are any.
   */
  method LoadUniverses(accept: seq<StrategyType>, loadInfo: InfoTable -> Result<seq<Code>, string>, concurrent: nat)
    returns (r: Result<map<StrategyType, seq<seq<Code>>>, Error>)
    requires concurrent > 0
    ensures FirstLoadError(accept, loadInfo).Some? <==> r.Err?
    ensures r.Err? ==> r.error == FirstLoadError(accept, loadInfo).value
    ensures r.Ok? ==> forall t :: t in accept ==> loadInfo(Universe(t)).Ok?
    ensures r.Ok? ==> forall t :: t in r.value <==> t in accept && Kept(loadInfo(Universe(t)).value, concurrent) != []
    ensures r.Ok? ==> forall t :: t in r.value ==> Flatten(r.value[t]) == Kept(loadInfo(Universe(t)).value, concurrent)
  {
    var testCodes: map<StrategyType, seq<seq<Code>>> := map[];
    var i := 0;
    while i < |accept|
      invariant 0 <= i <= |accept|
      invariant forall j :: 0 <= j < i ==> loadInfo(Universe(accept[j])).Ok?
      invariant forall t :: t in testCodes <==> t in accept[..i] && Kept(loadInfo(Universe(t)).value, concurrent) != []
      invariant forall t :: t in testCodes ==> Flatten(testCodes[t]) == Kept(loadInfo(Universe(t)).value, concurrent)
    {
      var typ := accept[i];
      var info := loadInfo(Universe(typ));
      if info.Err? {
        FirstLoadErrorNone(accept, loadInfo, i);
        return Err(Custom("query " + LoadWord(typ) + " info error: " + info.error));
      }
      var codes := SplitCode(info.value, concurrent);
      if codes != [] {
        testCodes := testCodes[typ := codes];
      } else {
        assert Flatten(codes) == [];
      }
      assert accept[..i + 1] == accept[..i] + [typ];
      i := i + 1;
    }
    FirstLoadErrorNone(accept, loadInfo, |accept|);
    assert accept[..i] == accept;
    return Ok(testCodes);
  }

  /** The tasks and the join of one category: its hits, None when there are none. */
  method RunGroup<R>(typ: StrategyType, test: (StrategyType, string, string) -> Result<Option<R>, Error>, chunks: seq<seq<Code>>)
    returns (r: Result<Option<(StrategyType, seq<R>)>, Error>)
    ensures r == (if Hits(typ, test, Flatten(chunks)) == [] then Ok(None) else Ok(Some((typ, Hits(typ, test, Flatten(chunks))))))
  {
    var handler := [];
    var k := 0;
    while k < |chunks|
      invariant 0 <= k <= |chunks|
      invariant handler == TasksOf(typ, test, chunks[..k])
    {
      var res := RunTask(typ, test, chunks[k], None);
      handler := handler + [Finished(res)];
      k := k + 1;
    }
    assert chunks[..k] == chunks;
    GroupIsHitsOfChunks(typ, test, chunks);
    r := JoinGroup(typ, handler);
  }

  /**
   * `run` without panics or shutdown: loads every accepted category's
   * universe (the first failure is the Err), splits it into `concurrent`
   * chunks, runs one task per chunk and joins each category's tasks.
   */
  method Run<R>(accept: seq<StrategyType>, loadInfo: InfoTable -> Result<seq<Code>, string>, concurrent: nat,
                test: (StrategyType, string, string) -> Result<Option<R>, Error>)
    returns (r: Result<Option<map<StrategyType, seq<R>>>, Error>)
    requires concurrent > 0
    ensures r == RunExpected(accept, loadInfo, concurrent, test)
  {
    var loaded := LoadUniverses(accept, loadInfo, concurrent);
    if loaded.Err? {
      return Err(loaded.error);
    }
    var testCodes := loaded.value;
    var retMap: map<StrategyType, seq<R>> := map[];
    var remaining := testCodes.Keys;
    while remaining != {}
      invariant remaining <= testCodes.Keys
      invariant forall t :: t in retMap <==> t in testCodes && t !in remaining && HasHits(accept, t, loadInfo, concurrent, test)
      invariant forall t :: t in retMap ==> retMap[t] == CategoryHits(t, loadInfo, concurrent, test)
      decreases remaining
    {
      var typ :| typ in remaining;
      var group := RunGroup(typ, test, testCodes[typ]);
      if group.Ok? && group.value.Some? {
        retMap := retMap[typ := group.value.value.1];
      }
      remaining := remaining - {typ};
    }
    ghost var m := map t | HasHits(accept, t, loadInfo, concurrent, test) :: CategoryHits(t, loadInfo, concurrent, test);
    forall t | HasHits(accept, t, loadInfo, concurrent, test)
      ensures t in testCodes
    {
      assert Hits(t, test, []) == [];
    }
    SameEntries(retMap, m);
    if retMap == map[] {
      return Ok(None);
    }
    return Ok(Some(retMap));
  }

  /** Two maps with the same keys and the same value at each key are equal. */
  lemma SameEntries<K, V>(a: map<K, V>, b: map<K, V>)
    requires forall k :: k in a <==> k in b
    requires forall k :: k in a ==> a[k] == b[k]
    ensures a == b
  {
  }

  /** The codes past the last whole chunk are never tested: a hit among them does not appear. */
  lemma RemainderNeverTested<R>(t: StrategyType, codes: seq<Code>, concurrent: nat,
                                test: (StrategyType, string, string) -> Result<Option<R>, Error>)
    requires concurrent > 0
    ensures Hits(t, test, codes) == Hits(t, test, Kept(codes, concurrent)) + Hits(t, test, codes[|Kept(codes, concurrent)|..])
  {
    var kept := Kept(codes, concurrent);
    assert codes == kept + codes[|kept|..];
    HitsAppend(t, test, kept, codes[|kept|..]);
  }

  /** Two `test` functions that agree on every code of a list find the same hits in it. */
  lemma {:induction false} HitsAgree<R>(typ: StrategyType, test1: (StrategyType, string, string) -> Result<Option<R>, Error>,
                                        test2: (StrategyType, string, string) -> Result<Option<R>, Error>, codes: seq<Code>)
    requires forall c :: c in codes ==> test1(typ, c.0, c.1) == test2(typ, c.0, c.1)
    ensures Hits(typ, test1, codes) == Hits(typ, test2, codes)
    decreases |codes|
  {
    if codes != [] {
      assert codes[|codes| - 1] in codes;
      HitsAgree(typ, test1, test2, codes[..|codes| - 1]);
    }
  }

  /**
   * `run` depends on `test` only through the codes `split_code` keeps: two
   * `test` functions that agree on every kept code of every accepted
   * category give the same result, whatever they answer for the dropped
   * remainder.
   */
  lemma RunIgnoresRemainder<R>(accept: seq<StrategyType>, loadInfo: InfoTable -> Result<seq<Code>, string>, concurrent: nat,
                               test1: (StrategyType, string, string) -> Result<Option<R>, Error>,
                               test2: (StrategyType, string, string) -> Result<Option<R>, Error>)
    requires concurrent > 0
    requires forall t, c :: t in accept && loadInfo(Universe(t)).Ok? && c in Kept(loadInfo(Universe(t)).value, concurrent) ==>
      test1(t, c.0, c.1) == test2(t, c.0, c.1)
    ensures RunExpected(accept, loadInfo, concurrent, test1) == RunExpected(accept, loadInfo, concurrent, test2)
  {
    forall t | t in accept && loadInfo(Universe(t)).Ok?
      ensures CategoryHits(t, loadInfo, concurrent, test1) == CategoryHits(t, loadInfo, concurrent, test2)
    {
      HitsAgree(t, test1, test2, Kept(loadInfo(Universe(t)).value, concurrent));
    }
    var m1 := map t | HasHits(accept, t, loadInfo, concurrent, test1) :: CategoryHits(t, loadInfo, concurrent, test1);
    var m2 := map t | HasHits(accept, t, loadInfo, concurrent, test2) :: CategoryHits(t, loadInfo, concurrent, test2);
    SameEntries(m1, m2);
  }

  /**
   * A hit that only the dropped remainder holds is lost: when every
   * universe loads and `test` finds nothing among the kept codes, `run`
   * reports no hit at all, however many codes of the remainder hit.
   */
  lemma RemainderHitsLost<R>(accept: seq<StrategyType>, loadInfo: InfoTable -> Result<seq<Code>, string>, concurrent: nat,
                             test: (StrategyType, string, string) -> Result<Option<R>, Error>)
    requires concurrent > 0 && FirstLoadError(accept, loadInfo).None?
    requires forall t, c :: t in accept && loadInfo(Universe(t)).Ok? && c in Kept(loadInfo(Universe(t)).value, concurrent) ==>
      test(t, c.0, c.1) == Ok(None)
    ensures RunExpected(accept, loadInfo, concurrent, test) == Ok(None)
  {
    var never: (StrategyType, string, string) -> Result<Option<R>, Error> := (t, code, name) => Ok(None);
    RunIgnoresRemainder(accept, loadInfo, concurrent, test, never);
    forall t | t in accept && loadInfo(Universe(t)).Ok?
      ensures CategoryHits(t, loadInfo, concurrent, never) == []
    {
      NeverHits(t, never, Kept(loadInfo(Universe(t)).value, concurrent));
    }
    assert forall t :: !HasHits(accept, t, loadInfo, concurrent, never);
  }

  /** A `test` that never hits finds nothing. */
  lemma {:induction false} NeverHits<R>(typ: StrategyType, test: (StrategyType, string, string) -> Result<Option<R>, Error>, codes: seq<Code>)
    requires forall c :: c in codes ==> test(typ, c.0, c.1) == Ok(None)
    ensures Hits(typ, test, codes) == []
    decreases |codes|
  {
    if codes != [] {
      assert codes[|codes| - 1] in codes;
      NeverHits(typ, test, codes[..|codes| - 1]);
    }
  }
}
