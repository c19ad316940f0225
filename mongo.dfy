// The MongoDB store's set-up: the cache is filled once, then the syncers
// are registered in a fixed order, filtered by the configured data types, with
// the stock list split into chunks for the daily-bar and margin syncers.
module Mongo {
  import opened Wrappers
  import opened SyncTypes
  import Store
  import Sync
  import Runner

  /** A cached stock info as the heavy syncers use it. */
  datatype StockCode = StockCode(code: string, name: string, isMargin: bool)

  /**
   * A registered syncer: a light one syncs a whole data type, a heavy one
   * the daily bars or the margin data of one chunk of stocks, numbered by
   * its task.
   */
  datatype SyncerSpec = Light(typ: SyncDataType) | Heavy(typ: SyncDataType, codes: seq<StockCode>, taskN: nat)

  /** `contains`: every type is synced when no list is configured. */
  function Contains(funcs: Option<seq<SyncDataType>>, typ: SyncDataType): (b: bool)
    ensures funcs.None? ==> b
    ensures funcs.Some? ==> (b <==> typ in funcs.value)
  {
    funcs.None? || typ in funcs.value
  }

  /** The syncers of a plan that `add_syncer` keeps, in order. */
  function Keep(funcs: Option<seq<SyncDataType>>, plan: seq<SyncerSpec>): seq<SyncerSpec>
    decreases |plan|
  {
    if |plan| == 0 then []
    else
      var last := plan[|plan| - 1];
      Keep(funcs, plan[..|plan| - 1]) + (if Contains(funcs, last.typ) then [last] else [])
  }

  lemma {:induction false} KeepAppend(funcs: Option<seq<SyncDataType>>, a: seq<SyncerSpec>, b: seq<SyncerSpec>)
    ensures Keep(funcs, a + b) == Keep(funcs, a) + Keep(funcs, b)
    decreases |b|
  {
    if |b| > 0 {
      var b' := b[..|b| - 1];
      KeepAppend(funcs, a, b');
      assert (a + b)[..|a + b| - 1] == a + b';
    } else {
      assert a + b == a;
    }
  }

  /** `add_syncer` appends a syncer exactly when its type is configured. */
  lemma KeepOne(funcs: Option<seq<SyncDataType>>, s: SyncerSpec)
    ensures Keep(funcs, [s]) == if Contains(funcs, s.typ) then [s] else []
  {
    assert [s][..0] == [];
  }

  /** A syncer is kept exactly when it is planned and its type is configured. */
  lemma {:induction false} KeepMembers(funcs: Option<seq<SyncDataType>>, plan: seq<SyncerSpec>)
    ensures forall s :: s in Keep(funcs, plan) <==> s in plan && Contains(funcs, s.typ)
    decreases |plan|
  {
    if |plan| > 0 {
      var init := plan[..|plan| - 1];
      KeepMembers(funcs, init);
      assert plan == init + [plan[|plan| - 1]];
    }
  }

  /** The margin stocks of a chunk, in order. */
  function Margins(codes: seq<StockCode>): (r: seq<StockCode>)
    ensures |r| <= |codes|
    decreases |codes|
  {
    if |codes| == 0 then []
    else Margins(codes[..|codes| - 1]) + (if codes[|codes| - 1].isMargin then [codes[|codes| - 1]] else [])
  }

  lemma {:induction false} MarginsAppend(a: seq<StockCode>, b: seq<StockCode>)
    ensures Margins(a + b) == Margins(a) + Margins(b)
    decreases |b|
  {
    if |b| > 0 {
      var b' := b[..|b| - 1];
      MarginsAppend(a, b');
      assert (a + b)[..|a + b| - 1] == a + b';
    } else {
      assert a + b == a;
    }
  }

  /** The k-th whole chunk of len stocks. */
  function Chunk(stocks: seq<StockCode>, len: nat, k: nat): seq<StockCode>
    requires Sync.Mul(len, k + 1) <= |stocks|
  {
    stocks[Sync.Mul(len, k)..Sync.Mul(len, k + 1)]
  }

  /** The daily-bar and the margin syncer of one chunk, numbered by task. */
  function ChunkSyncers(chunk: seq<StockCode>, task: nat): seq<SyncerSpec>
  {
    [Heavy(StockBar, chunk, task), Heavy(StockMargin, Margins(chunk), task)]
  }

  /** The first c whole chunks. */
  function Chunks(stocks: seq<StockCode>, len: nat, c: nat): (chs: seq<seq<StockCode>>)
    requires Sync.Mul(len, c) <= |stocks|
    ensures |chs| == c
    decreases c
  {
    if c == 0 then [] else Chunks(stocks, len, c - 1) + [Chunk(stocks, len, c - 1)]
  }

  /** The syncers the loop registers for its chunks, the k-th pair numbered k + 1. */
  function PlanOf(chs: seq<seq<StockCode>>): seq<SyncerSpec>
    decreases |chs|
  {
    if |chs| == 0 then [] else PlanOf(chs[..|chs| - 1]) + ChunkSyncers(chs[|chs| - 1], |chs|)
  }

  /** The syncers registered inside the loop for the first c chunks. */
  function InLoop(stocks: seq<StockCode>, len: nat, c: nat): seq<SyncerSpec>
    requires Sync.Mul(len, c) <= |stocks|
  {
    PlanOf(Chunks(stocks, len, c))
  }

  /** The chunk length: the stock count divided by the split count. */
  function ChunkLen(stocks: seq<StockCode>, splitCount: nat): nat
    requires splitCount > 0
  {
    Sync.Quotient(|stocks|, splitCount)
  }

  /** How many chunks the loop cuts: splitCount - 1, or none when the chunk length is 0. */
  function CutCount(len: nat, splitCount: nat): nat
    requires splitCount > 0
  {
    if len > 0 then splitCount - 1 else 0
  }

  /** Where the rest starts: after the chunks the loop cuts. The rest always holds a whole chunk. */
  function Cut(stocks: seq<StockCode>, splitCount: nat): (cut: nat)
    requires splitCount > 0
    ensures cut + ChunkLen(stocks, splitCount) <= |stocks|
  {
    var len := ChunkLen(stocks, splitCount);
    Sync.QuotientBound(|stocks|, splitCount);
    assert len > 0 ==> Sync.Mul(len, splitCount) == Sync.Mul(len, splitCount - 1) + len;
    Sync.Mul(len, CutCount(len, splitCount))
  }

  /** The daily-bar syncer of the rest, when it holds len stocks. */
  function BarTail(rest: seq<StockCode>, len: nat, n: nat): seq<SyncerSpec>
  {
    if |rest| >= len then [Heavy(StockBar, rest, n + 1)] else []
  }

  /** The margin syncer of the rest, when it holds len margin stocks. */
  function MarginTail(rest: seq<StockCode>, len: nat, n: nat): seq<SyncerSpec>
  {
    var task := if |rest| >= len then n + 1 else n;
    if |Margins(rest)| >= len then [Heavy(StockMargin, Margins(rest), task + 1)] else []
  }

  /**
   * The heavy syncers `prepare_heavy_syncer` registers (before filtering):
   * a daily-bar and a margin syncer for each whole chunk cut in the loop,
   * then those of the rest.
   */
  function HeavyPlan(stocks: seq<StockCode>, splitCount: nat): seq<SyncerSpec>
    requires splitCount > 0
  {
    var len := ChunkLen(stocks, splitCount);
    var rest := stocks[Cut(stocks, splitCount)..];
    var n := CutCount(len, splitCount);
    InLoop(stocks, len, n) + BarTail(rest, len, n) + MarginTail(rest, len, n)
  }

  /** The stocks handed to the daily-bar syncers of a plan, in order. */
  function BarCodes(plan: seq<SyncerSpec>): seq<StockCode>
    decreases |plan|
  {
    if |plan| == 0 then []
    else
      var last := plan[|plan| - 1];
      BarCodes(plan[..|plan| - 1]) + (if last.Heavy? && last.typ == StockBar then last.codes else [])
  }

  /** The stocks handed to the margin syncers of a plan, in order. */
  function MarginCodes(plan: seq<SyncerSpec>): seq<StockCode>
    decreases |plan|
  {
    if |plan| == 0 then []
    else
      var last := plan[|plan| - 1];
      MarginCodes(plan[..|plan| - 1]) + (if last.Heavy? && last.typ == StockMargin then last.codes else [])
  }

  lemma {:induction false} CodesAppend(a: seq<SyncerSpec>, b: seq<SyncerSpec>)
    ensures BarCodes(a + b) == BarCodes(a) + BarCodes(b)
    ensures MarginCodes(a + b) == MarginCodes(a) + MarginCodes(b)
    decreases |b|
  {
    if |b| > 0 {
      var b' := b[..|b| - 1];
      CodesAppend(a, b');
      assert (a + b)[..|a + b| - 1] == a + b';
    } else {
      assert a + b == a;
    }
  }

  lemma CodesOfOne(s: SyncerSpec)
    ensures BarCodes([s]) == if s.Heavy? && s.typ == StockBar then s.codes else []
    ensures MarginCodes([s]) == if s.Heavy? && s.typ == StockMargin then s.codes else []
  {
    assert [s][..0] == [];
  }

  lemma ChunkSyncersCodes(chunk: seq<StockCode>, task: nat)
    ensures BarCodes(ChunkSyncers(chunk, task)) == chunk
    ensures MarginCodes(ChunkSyncers(chunk, task)) == Margins(chunk)
  {
    var pair := ChunkSyncers(chunk, task);
    assert pair == [pair[0]] + [pair[1]];
    CodesAppend([pair[0]], [pair[1]]);
    CodesOfOne(pair[0]);
    CodesOfOne(pair[1]);
  }

  /** The stocks up to one more cut are those up to the last cut and the next chunk. */
  lemma PrefixStep(stocks: seq<StockCode>, len: nat, c: nat)
    requires Sync.Mul(len, c + 1) <= |stocks|
    ensures stocks[..Sync.Mul(len, c + 1)] == stocks[..Sync.Mul(len, c)] + Chunk(stocks, len, c)
  {
  }

  /** Appending one chunk's syncers appends the chunk to the codes handed out. */
  lemma LoopCodesStep(loop: seq<SyncerSpec>, prev: seq<StockCode>, chunk: seq<StockCode>, task: nat)
    requires BarCodes(loop) == prev && MarginCodes(loop) == Margins(prev)
    ensures BarCodes(loop + ChunkSyncers(chunk, task)) == prev + chunk
    ensures MarginCodes(loop + ChunkSyncers(chunk, task)) == Margins(prev + chunk)
  {
    CodesAppend(loop, ChunkSyncers(chunk, task));
    ChunkSyncersCodes(chunk, task);
    MarginsAppend(prev, chunk);
  }

  /** The loop's syncers hand out the chunks' stocks, and their margin stocks. */
  lemma {:induction false} PlanOfCodes(chs: seq<seq<StockCode>>)
    ensures BarCodes(PlanOf(chs)) == Runner.Flatten(chs)
    ensures MarginCodes(PlanOf(chs)) == Margins(Runner.Flatten(chs))
    decreases |chs|
  {
    if |chs| > 0 {
      var init := chs[..|chs| - 1];
      PlanOfCodes(init);
      LoopCodesStep(PlanOf(init), Runner.Flatten(init), chs[|chs| - 1], |chs|);
    }
  }

  /** The first c chunks are the stocks up to the c-th cut. */
  lemma {:induction false} ChunksFlatten(stocks: seq<StockCode>, len: nat, c: nat)
    requires Sync.Mul(len, c) <= |stocks|
    ensures Runner.Flatten(Chunks(stocks, len, c)) == stocks[..Sync.Mul(len, c)]
    decreases c
  {
    if c > 0 {
      var chs := Chunks(stocks, len, c);
      assert chs[..c - 1] == Chunks(stocks, len, c - 1);
      ChunksFlatten(stocks, len, c - 1);
      PrefixStep(stocks, len, c - 1);
    }
  }

  /** The loop's chunks are the stocks up to the cut, and their margin syncers its margin stocks. */
  lemma InLoopCodes(stocks: seq<StockCode>, len: nat, c: nat)
    requires Sync.Mul(len, c) <= |stocks|
    ensures BarCodes(InLoop(stocks, len, c)) == stocks[..Sync.Mul(len, c)]
    ensures MarginCodes(InLoop(stocks, len, c)) == Margins(stocks[..Sync.Mul(len, c)])
  {
    PlanOfCodes(Chunks(stocks, len, c));
    ChunksFlatten(stocks, len, c);
  }

  lemma TailCodes(rest: seq<StockCode>, len: nat, n: nat)
    ensures BarCodes(BarTail(rest, len, n) + MarginTail(rest, len, n)) == (if |rest| >= len then rest else [])
    ensures MarginCodes(BarTail(rest, len, n) + MarginTail(rest, len, n))
      == (if |Margins(rest)| >= len then Margins(rest) else [])
  {
    CodesAppend(BarTail(rest, len, n), MarginTail(rest, len, n));
    if |rest| >= len {
      CodesOfOne(Heavy(StockBar, rest, n + 1));
    }
    if |Margins(rest)| >= len {
      CodesOfOne(MarginTail(rest, len, n)[0]);
    }
  }

  /**
   * What the heavy syncers get: the daily-bar syncers every stock exactly
   * once, in order; the margin syncers the margin stocks of the whole
   * chunks, and those of the rest only when there are len of them.
   */
  lemma PlanCodes(stocks: seq<StockCode>, splitCount: nat)
    requires splitCount > 0
    ensures BarCodes(HeavyPlan(stocks, splitCount)) == stocks
    ensures var len := ChunkLen(stocks, splitCount);
      var cut := Cut(stocks, splitCount);
      MarginCodes(HeavyPlan(stocks, splitCount))
        == Margins(stocks[..cut]) + (if |Margins(stocks[cut..])| >= len then Margins(stocks[cut..]) else [])
  {
    var len := ChunkLen(stocks, splitCount);
    var cut := Cut(stocks, splitCount);
    var n := CutCount(len, splitCount);
    var rest := stocks[cut..];
    var loop := InLoop(stocks, len, n);
    var tail := BarTail(rest, len, n) + MarginTail(rest, len, n);
    assert HeavyPlan(stocks, splitCount) == loop + tail;
    CodesAppend(loop, tail);
    InLoopCodes(stocks, len, n);
    TailCodes(rest, len, n);
    SplitAt(stocks, cut);
  }

  lemma SplitAt<T>(s: seq<T>, k: nat)
    requires k <= |s|
    ensures s[..k] + s[k..] == s
  {
  }


  lemma MarginsOfOne(x: StockCode)
    ensures Margins([x]) == if x.isMargin then [x] else []
  {
    assert [x][..0] == [];
  }

  /** Four stocks, only the last of them a margin stock. */
  const FourStocks: seq<StockCode> := [StockCode("a", "A", false), StockCode("b", "B", false),
    StockCode("c", "C", false), StockCode("d", "D", true)]

  lemma FourStocksSplit()
    ensures ChunkLen(FourStocks, 2) == 2 && Cut(FourStocks, 2) == 2
  {
    assert Sync.Quotient(4, 2) == 2 by {
      assert Sync.Quotient(0, 2) == 0;
      assert Sync.Quotient(2, 2) == 1;
    }
    assert Sync.Mul(2, 1) == 2;
  }

  lemma FourStocksMargins()
    ensures Margins(FourStocks[..2]) == []
    ensures Margins(FourStocks[2..]) == [FourStocks[3]]
    ensures Margins(FourStocks) == [FourStocks[3]]
  {
    var s := FourStocks;
    FirstHalfMargins();
    SecondHalfMargins();
    assert s == s[..2] + s[2..];
    MarginsAppend(s[..2], s[2..]);
  }

  lemma FirstHalfMargins()
    ensures Margins(FourStocks[..2]) == []
  {
    var s := FourStocks;
    MarginsOfOne(s[0]);
    MarginsOfOne(s[1]);
    assert s[..2] == [s[0]] + [s[1]];
    MarginsAppend([s[0]], [s[1]]);
  }

  lemma SecondHalfMargins()
    ensures Margins(FourStocks[2..]) == [FourStocks[3]]
  {
    var s := FourStocks;
    MarginsOfOne(s[2]);
    MarginsOfOne(s[3]);
    assert s[2..] == [s[2]] + [s[3]];
    MarginsAppend([s[2]], [s[3]]);
  }

  /**
   * The final margin chunk is dropped when it has fewer than len stocks:
   * with four stocks split in two, the margin stock in the second half
   * reaches no margin syncer.
   */
  lemma TrailingMarginDropped()
    ensures Margins(FourStocks) == [FourStocks[3]]
    ensures MarginCodes(HeavyPlan(FourStocks, 2)) == []
  {
    FourStocksSplit();
    FourStocksMargins();
    PlanCodes(FourStocks, 2);
  }


  /** Cutting a full pending chunk keeps the loop's bookkeeping in step. */
  lemma CutStep<T>(stocks: seq<T>, done: seq<seq<T>>, sub: seq<T>, len: nat, i: nat)
    requires Chunked(stocks, len, i, done, sub) && |sub| == len
    ensures Chunked(stocks, len, i, done + [sub], [])
  {
    Sync.AppendChunk(done, sub, len);
    assert Runner.Flatten(done + [sub]) + [] == Runner.Flatten(done + [sub]);
  }

  /**
   * The first i stocks are the cut chunks, each of len stocks, followed by
   * the pending ones.
   */
  ghost predicate Chunked<T>(stocks: seq<T>, len: nat, i: nat, done: seq<seq<T>>, sub: seq<T>)
  {
    && i <= |stocks|
    && Runner.Flatten(done) + sub == stocks[..i]
    && (forall k :: 0 <= k < |done| ==> |done[k]| == len)
    && |Runner.Flatten(done)| == Sync.Mul(len, |done|)
  }

  /** The rest's two registrations, one after the other. */
  lemma RestPlanned(funcs: Option<seq<SyncDataType>>, v0: seq<SyncerSpec>, v1: seq<SyncerSpec>, v2: seq<SyncerSpec>,
    bars: seq<SyncerSpec>, margins: seq<SyncerSpec>)
    requires v1 == v0 + Keep(funcs, bars) && v2 == v1 + Keep(funcs, margins)
    ensures v2 == v0 + Keep(funcs, bars + margins)
  {
    KeepAppend(funcs, bars, margins);
    AppendAssoc(v0, Keep(funcs, bars), Keep(funcs, margins));
  }

  /** Nothing is kept of an empty plan. */
  lemma KeepNone(funcs: Option<seq<SyncDataType>>, v: seq<SyncerSpec>)
    ensures v == v + Keep(funcs, [])
  {
  }

  lemma AppendAssoc<T>(a: seq<T>, b: seq<T>, c: seq<T>)
    ensures (a + b) + c == a + (b + c)
  {
  }

  /** One more chunk adds its two syncers to the loop's plan. */
  /** The syncers registered so far, after the two of a newly cut chunk. */
  lemma PlannedCut(funcs: Option<seq<SyncDataType>>, base: seq<SyncerSpec>, done: seq<seq<StockCode>>,
    chunk: seq<StockCode>, marginChunk: seq<StockCode>, v: seq<SyncerSpec>)
    requires marginChunk == Margins(chunk)
    requires v == (base + Keep(funcs, PlanOf(done)))
      + Keep(funcs, [Heavy(StockBar, chunk, |done| + 1), Heavy(StockMargin, marginChunk, |done| + 1)])
    ensures v == base + Keep(funcs, PlanOf(done + [chunk]))
  {
    PlanOfSnoc(funcs, done, chunk);
    AppendAssoc(base, Keep(funcs, PlanOf(done)),
      Keep(funcs, [Heavy(StockBar, chunk, |done| + 1), Heavy(StockMargin, marginChunk, |done| + 1)]));
  }

  lemma PlanOfSnoc(funcs: Option<seq<SyncDataType>>, done: seq<seq<StockCode>>, chunk: seq<StockCode>)
    ensures Keep(funcs, PlanOf(done + [chunk])) == Keep(funcs, PlanOf(done))
      + Keep(funcs, [Heavy(StockBar, chunk, |done| + 1), Heavy(StockMargin, Margins(chunk), |done| + 1)])
  {
    assert (done + [chunk])[..|done|] == done;
    KeepAppend(funcs, PlanOf(done), ChunkSyncers(chunk, |done| + 1));
  }

  /** One more stock joins the pending chunk and, if it is a margin stock, the pending margin chunk. */
  lemma PendingStep(stocks: seq<StockCode>, i: nat, cut: seq<StockCode>, sub: seq<StockCode>, marginSub: seq<StockCode>)
    requires i < |stocks| && cut + sub == stocks[..i] && marginSub == Margins(sub)
    ensures cut + (sub + [stocks[i]]) == stocks[..i + 1]
    ensures (if stocks[i].isMargin then marginSub + [stocks[i]] else marginSub) == Margins(sub + [stocks[i]])
  {
    assert stocks[..i + 1] == stocks[..i] + [stocks[i]];
    MarginsAppend(sub, [stocks[i]]);
    MarginsOfOne(stocks[i]);
  }

  /** Chunks of len that line up with the start of the stocks are the whole chunks. */
  lemma {:induction false} DoneAreChunks(stocks: seq<StockCode>, len: nat, done: seq<seq<StockCode>>)
    requires forall k :: 0 <= k < |done| ==> |done[k]| == len
    requires |Runner.Flatten(done)| == Sync.Mul(len, |done|) <= |stocks|
    requires Runner.Flatten(done) == stocks[..Sync.Mul(len, |done|)]
    ensures done == Chunks(stocks, len, |done|)
    decreases |done|
  {
    if |done| > 0 {
      var c := |done| - 1;
      var init := done[..c];
      Sync.AppendChunk(init, done[c], len);
      assert done == init + [done[c]];
      var prev := Runner.Flatten(init);
      assert stocks[..Sync.Mul(len, c)] == prev by {
        assert stocks[..Sync.Mul(len, c)] == stocks[..Sync.Mul(len, |done|)][..Sync.Mul(len, c)];
      }
      DoneAreChunks(stocks, len, init);
      PrefixStep(stocks, len, c);
    }
  }

  /**
   * The loop's state after i stocks: the cut chunks (each of len stocks)
   * and the pending chunk together are the stocks so far, the pending
   * margin chunk holds the pending chunk's margin stocks, and no chunk is
   * cut once index len * splitCount - 1 is reached.
   */
  ghost predicate Pending(stocks: seq<StockCode>, splitCount: nat, lenN: nat, i: nat,
    done: seq<seq<StockCode>>, sub: seq<StockCode>, marginSub: seq<StockCode>)
  {
    && splitCount > 0
    && var len := ChunkLen(stocks, splitCount);
    && lenN == Sync.Mul(len, splitCount)
    && Chunked(stocks, len, i, done, sub)
    && marginSub == Margins(sub)
    && (len == 0 ==> |done| == 0)
    && (len > 0 ==> |done| <= splitCount - 1)
    && (i < lenN ==> |sub| < len)
    && (len > 0 && i >= lenN ==> |done| == splitCount - 1)
  }

  lemma PendingInit(stocks: seq<StockCode>, splitCount: nat)
    requires splitCount > 0
    ensures Pending(stocks, splitCount, Sync.Mul(ChunkLen(stocks, splitCount), splitCount), 0, [], [], [])
  {
    var len := ChunkLen(stocks, splitCount);
    assert len == 0 ==> Sync.Mul(len, splitCount) == 0 by {
      Sync.MulIsProduct(len, splitCount);
    }
  }

  /** Taking stock i into the pending chunks, without a cut. */
  lemma PendingKeep(stocks: seq<StockCode>, splitCount: nat, lenN: nat, i: nat,
    done: seq<seq<StockCode>>, sub: seq<StockCode>, marginSub: seq<StockCode>,
    sub': seq<StockCode>, marginSub': seq<StockCode>)
    requires Pending(stocks, splitCount, lenN, i, done, sub, marginSub) && i < |stocks|
    requires sub' == sub + [stocks[i]]
    requires marginSub' == if stocks[i].isMargin then marginSub + [stocks[i]] else marginSub
    requires i + 1 >= lenN || |sub'| < ChunkLen(stocks, splitCount)
    ensures Pending(stocks, splitCount, lenN, i + 1, done, sub', marginSub')
  {
    var len := ChunkLen(stocks, splitCount);
    PendingStep(stocks, i, Runner.Flatten(done), sub, marginSub);
    if len > 0 && i + 1 == lenN {
      Sync.LastChunkStarts(|done|, len, splitCount, lenN, |sub| + 1);
    }
  }

  /** Taking stock i into the pending chunk fills it before the last cut: it is cut. */
  lemma PendingCut(stocks: seq<StockCode>, splitCount: nat, lenN: nat, i: nat,
    done: seq<seq<StockCode>>, sub: seq<StockCode>, marginSub: seq<StockCode>,
    sub': seq<StockCode>, marginSub': seq<StockCode>)
    requires Pending(stocks, splitCount, lenN, i, done, sub, marginSub) && i < |stocks|
    requires sub' == sub + [stocks[i]]
    requires marginSub' == if stocks[i].isMargin then marginSub + [stocks[i]] else marginSub
    requires i + 1 < lenN && |sub'| >= ChunkLen(stocks, splitCount)
    ensures marginSub' == Margins(sub')
    ensures Pending(stocks, splitCount, lenN, i + 1, done + [sub'], [], [])
  {
    var len := ChunkLen(stocks, splitCount);
    PendingStep(stocks, i, Runner.Flatten(done), sub, marginSub);
    assert len > 0 && |sub'| == len && Sync.Mul(len, |done|) + len == i + 1;
    Sync.CutBeforeLast(|done|, len, splitCount, lenN);
    CutStep(stocks, done, sub', len, i + 1);
    assert Margins([]) == [];
    assert |done + [sub']| <= splitCount - 1;
  }

  /**
   * The state of the heavy loop at position i: the pending chunks, and the
   * syncers registered so far on top of `base`.
   */
  ghost predicate Registered(funcs: Option<seq<SyncDataType>>, stocks: seq<StockCode>, splitCount: nat,
    lenN: nat, i: nat, done: seq<seq<StockCode>>, sub: seq<StockCode>, marginSub: seq<StockCode>,
    taskN: nat, base: seq<SyncerSpec>, v: seq<SyncerSpec>)
  {
    && Pending(stocks, splitCount, lenN, i, done, sub, marginSub)
    && |done| == taskN
    && v == base + Keep(funcs, PlanOf(done))
  }

  /** A stock taken into the pending chunk without a cut registers nothing. */
  lemma RegisteredKeep(funcs: Option<seq<SyncDataType>>, stocks: seq<StockCode>, splitCount: nat,
    lenN: nat, i: nat, done: seq<seq<StockCode>>, sub: seq<StockCode>, marginSub: seq<StockCode>,
    taskN: nat, base: seq<SyncerSpec>, v: seq<SyncerSpec>,
    sub': seq<StockCode>, marginSub': seq<StockCode>)
    requires Registered(funcs, stocks, splitCount, lenN, i, done, sub, marginSub, taskN, base, v) && i < |stocks|
    requires sub' == sub + [stocks[i]]
    requires marginSub' == if stocks[i].isMargin then marginSub + [stocks[i]] else marginSub
    requires i + 1 >= lenN || |sub'| < ChunkLen(stocks, splitCount)
    ensures Registered(funcs, stocks, splitCount, lenN, i + 1, done, sub', marginSub', taskN, base, v)
  {
    PendingKeep(stocks, splitCount, lenN, i, done, sub, marginSub, sub', marginSub');
  }

  /** A cut in the heavy loop: the chunk's two syncers are registered and it joins the cut chunks. */
  lemma RegisteredCut(funcs: Option<seq<SyncDataType>>, stocks: seq<StockCode>, splitCount: nat,
    lenN: nat, i: nat, done: seq<seq<StockCode>>, sub: seq<StockCode>, marginSub: seq<StockCode>,
    taskN: nat, base: seq<SyncerSpec>, v: seq<SyncerSpec>,
    sub': seq<StockCode>, marginSub': seq<StockCode>, done': seq<seq<StockCode>>, taskN': nat, v': seq<SyncerSpec>)
    requires Registered(funcs, stocks, splitCount, lenN, i, done, sub, marginSub, taskN, base, v) && i < |stocks|
    requires sub' == sub + [stocks[i]] && done' == done + [sub'] && taskN' == taskN + 1
    requires marginSub' == if stocks[i].isMargin then marginSub + [stocks[i]] else marginSub
    requires i + 1 < lenN && |sub'| >= ChunkLen(stocks, splitCount)
    requires v' == v + Keep(funcs, [Heavy(StockBar, sub', taskN'), Heavy(StockMargin, marginSub', taskN')])
    ensures Registered(funcs, stocks, splitCount, lenN, i + 1, done', [], [], taskN', base, v')
  {
    PendingCut(stocks, splitCount, lenN, i, done, sub, marginSub, sub', marginSub');
    PlannedCut(funcs, base, done, sub', marginSub', v');
  }

  /** Where the loop leaves off: the whole chunks are cut, the rest is pending. */
  lemma LoopEnd(stocks: seq<StockCode>, splitCount: nat, lenN: nat,
    done: seq<seq<StockCode>>, sub: seq<StockCode>, marginSub: seq<StockCode>)
    requires Pending(stocks, splitCount, lenN, |stocks|, done, sub, marginSub)
    ensures |done| == CutCount(ChunkLen(stocks, splitCount), splitCount)
    ensures done == Chunks(stocks, ChunkLen(stocks, splitCount), |done|)
    ensures sub == stocks[Cut(stocks, splitCount)..] && marginSub == Margins(sub)
  {
    var len := ChunkLen(stocks, splitCount);
    Sync.QuotientBound(|stocks|, splitCount);
    assert stocks[..|stocks|] == stocks;
    assert Runner.Flatten(done) == stocks[..|Runner.Flatten(done)|];
    DoneAreChunks(stocks, len, done);
  }

  /** The loop's syncers followed by those of the rest are the heavy plan. */
  lemma FinishPlan(funcs: Option<seq<SyncDataType>>, stocks: seq<StockCode>, splitCount: nat, lenN: nat,
    done: seq<seq<StockCode>>, sub: seq<StockCode>, marginSub: seq<StockCode>, prefix: seq<SyncerSpec>)
    requires Pending(stocks, splitCount, lenN, |stocks|, done, sub, marginSub)
    ensures var len := Sync.Quotient(|stocks|, splitCount);
      prefix + Keep(funcs, PlanOf(done)) + Keep(funcs, BarTail(sub, len, |done|) + MarginTail(sub, len, |done|))
        == prefix + Keep(funcs, HeavyPlan(stocks, splitCount))
  {
    LoopEnd(stocks, splitCount, lenN, done, sub, marginSub);
    HeavyKeep(funcs, stocks, splitCount);
    var len := Sync.Quotient(|stocks|, splitCount);
    AppendAssoc(prefix, Keep(funcs, PlanOf(done)), Keep(funcs, BarTail(sub, len, |done|) + MarginTail(sub, len, |done|)));
  }

  /** Keeping a heavy plan piece by piece. */
  lemma HeavyKeep(funcs: Option<seq<SyncDataType>>, stocks: seq<StockCode>, splitCount: nat)
    requires splitCount > 0
    ensures var len := ChunkLen(stocks, splitCount);
      var rest := stocks[Cut(stocks, splitCount)..];
      var n := CutCount(len, splitCount);
      Keep(funcs, HeavyPlan(stocks, splitCount))
        == Keep(funcs, PlanOf(Chunks(stocks, len, n))) + Keep(funcs, BarTail(rest, len, n) + MarginTail(rest, len, n))
  {
    var len := ChunkLen(stocks, splitCount);
    var rest := stocks[Cut(stocks, splitCount)..];
    var n := CutCount(len, splitCount);
    assert HeavyPlan(stocks, splitCount) == InLoop(stocks, len, n) + (BarTail(rest, len, n) + MarginTail(rest, len, n));
    KeepAppend(funcs, InLoop(stocks, len, n), BarTail(rest, len, n) + MarginTail(rest, len, n));
  }

  /** The five basic-info syncers, registered only without skip_basic. */
  const BasicTypes: seq<SyncDataType> := [BondInfo, IndexInfo, StockInfo, FundInfo, TradeDate]

  /** The other whole-type syncers, in registration order. */
  const LightTypes: seq<SyncDataType> := [BondBar, FundBar, FundNet, IndexBar, StockIndex,
    StockIndustry, StockIndustryBar, StockIndustryDetail, StockConcept, StockConceptBar,
    StockConceptDetail, StockYJBB]

  function Lights(ts: seq<SyncDataType>): (r: seq<SyncerSpec>)
    ensures |r| == |ts| && forall j :: 0 <= j < |ts| ==> r[j] == Light(ts[j])
  {
    seq(|ts|, j requires 0 <= j < |ts| => Light(ts[j]))
  }

  /** The light syncers `prepare_syncer` registers (before filtering). */
  function LightPlan(skipBasic: bool): seq<SyncerSpec>
  {
    (if skipBasic then [] else Lights(BasicTypes)) + Lights(LightTypes)
  }

  /** No basic-info type is among the other whole-type syncers. */
  lemma TypesDisjoint()
    ensures forall t :: t in LightTypes ==> t !in BasicTypes
  {
  }

  /** With skip_basic no basic-info syncer is planned. */
  lemma SkipBasicPlansNoBasic()
    ensures forall s :: s in LightPlan(true) ==> s.typ !in BasicTypes
  {
    TypesDisjoint();
    forall s | s in LightPlan(true)
      ensures s.typ in LightTypes
    {
      var j :| 0 <= j < |LightTypes| && Lights(LightTypes)[j] == s;
    }
  }

  /** Without skip_basic every basic-info syncer is planned, ahead of the others. */
  lemma BasicPlannedFirst()
    ensures forall j :: 0 <= j < |BasicTypes| ==> LightPlan(false)[j] == Light(BasicTypes[j])
    ensures forall j :: 0 <= j < |LightTypes| ==> LightPlan(false)[|BasicTypes| + j] == Light(LightTypes[j])
  {
  }

  /** The five cache inputs, each either loaded or the error of loading it. */
  datatype Basic = Basic(
    bond: Result<seq<Store.Info>, Error>,
    index: Result<seq<Store.Info>, Error>,
    stock: Result<seq<Store.Info>, Error>,
    fund: Result<seq<Store.Info>, Error>,
    tradeDate: Result<set<int>, Error>)

  /** The first load error, in the order bond, index, stock, fund, trade date. */
  function FirstError(b: Basic): (e: Option<Error>)
    ensures e.None? <==> b.bond.Ok? && b.index.Ok? && b.stock.Ok? && b.fund.Ok? && b.tradeDate.Ok?
  {
    if b.bond.Err? then Some(b.bond.error)
    else if b.index.Err? then Some(b.index.error)
    else if b.stock.Err? then Some(b.stock.error)
    else if b.fund.Err? then Some(b.fund.error)
    else if b.tradeDate.Err? then Some(b.tradeDate.error)
    else None
  }

  const CacheEmpty: string := "cache info is empty, try not skip basic"

  class MongoStore {
    const skipBasic: bool
    const splitCount: nat
    const funcs: Option<seq<SyncDataType>>
    const cache: Store.HiqCache
    var syncerVec: seq<SyncerSpec>

    constructor(skipBasic: bool, splitCount: nat, funcs: Option<seq<SyncDataType>>)
      ensures this.skipBasic == skipBasic && this.splitCount == splitCount && this.funcs == funcs
      ensures syncerVec == []
      ensures fresh(cache) && cache.tradeDate.None? && cache.indexInfo.None? && cache.stockInfo.None?
      ensures cache.bondInfo.None? && cache.fundInfo.None?
    {
      this.skipBasic := skipBasic;
      this.splitCount := splitCount;
      this.funcs := funcs;
      cache := new Store.HiqCache();
      syncerVec := [];
    }

    /** `add_syncer`: appends the syncer when its type is configured. */
    method AddSyncer(s: SyncerSpec)
      modifies this
      ensures syncerVec == old(syncerVec) + Keep(funcs, [s])
    {
      assert [s][..0] == [];
      if Contains(funcs, s.typ) {
        syncerVec := syncerVec + [s];
      }
    }

    /** A run of `add_syncer` calls, one per planned syncer. */
    method AddSyncers(plan: seq<SyncerSpec>)
      modifies this
      ensures syncerVec == old(syncerVec) + Keep(funcs, plan)
    {
      for k := 0 to |plan|
        invariant syncerVec == old(syncerVec) + Keep(funcs, plan[..k])
      {
        AddSyncer(plan[k]);
        KeepAppend(funcs, plan[..k], [plan[k]]);
        assert plan[..k + 1] == plan[..k] + [plan[k]];
      }
      assert plan[..|plan|] == plan;
    }

    /**
     * `prepare_heavy_syncer`: walks the stocks (the cached stock infos in
     * the map's iteration order), cutting a chunk of len stocks whenever
     * one is full before index len * splitCount - 1, and registers a
     * daily-bar and a margin syncer per chunk, then the rest.
     */
    method PrepareHeavySyncer(stocks: seq<StockCode>, splitCount: nat)
      requires splitCount > 0
      modifies this
      ensures syncerVec == old(syncerVec) + Keep(funcs, HeavyPlan(stocks, splitCount))
    {
      var len := Sync.Quotient(|stocks|, splitCount);
      var lenN := Sync.Mul(len, splitCount);
      var sub, marginSub, taskN, done := CutChunks(stocks, splitCount, lenN);
      AddRest(sub, marginSub, len, taskN);
      FinishPlan(funcs, stocks, splitCount, lenN, done, sub, marginSub, old(syncerVec));
    }

    /**
     * The loop of `prepare_heavy_syncer`: walks the stocks, collecting each
     * into the pending chunk (and its margin stocks into the pending margin
     * chunk), and registers the two syncers of every chunk of len stocks
     * completed before position lenN. Returns what is pending and the
     * number of chunks cut.
     */
    method CutChunks(stocks: seq<StockCode>, splitCount: nat, lenN: nat)
      returns (sub: seq<StockCode>, marginSub: seq<StockCode>, taskN: nat, ghost done: seq<seq<StockCode>>)
      requires splitCount > 0 && lenN == Sync.Mul(ChunkLen(stocks, splitCount), splitCount)
      modifies this
      ensures Pending(stocks, splitCount, lenN, |stocks|, done, sub, marginSub) && |done| == taskN
      ensures syncerVec == old(syncerVec) + Keep(funcs, PlanOf(done))
    {
      taskN := 0;
      var len := Sync.Quotient(|stocks|, splitCount);
      sub := [];
      marginSub := [];
      done := [];
      PendingInit(stocks, splitCount);
      for i := 0 to |stocks|
        invariant Registered(funcs, stocks, splitCount, lenN, i, done, sub, marginSub, taskN, old(syncerVec), syncerVec)
      {
        sub, marginSub, taskN, done := TakeStock(stocks, splitCount, lenN, len, i, sub, marginSub, taskN, done, old(syncerVec));
      }
    }

    /**
     * One pass of the loop in `prepare_heavy_syncer`: stock `i` joins the
     * pending chunk, and a full chunk is cut and registered unless i + 1 has
     * reached lenN.
     */
    method TakeStock(stocks: seq<StockCode>, splitCount: nat, lenN: nat, len: nat, i: nat,
      sub: seq<StockCode>, marginSub: seq<StockCode>, taskN: nat, ghost done: seq<seq<StockCode>>,
      ghost base: seq<SyncerSpec>)
      returns (sub': seq<StockCode>, marginSub': seq<StockCode>, taskN': nat, ghost done': seq<seq<StockCode>>)
      requires i < |stocks| && splitCount > 0 && len == ChunkLen(stocks, splitCount)
      requires Registered(funcs, stocks, splitCount, lenN, i, done, sub, marginSub, taskN, base, syncerVec)
      modifies this
      ensures Registered(funcs, stocks, splitCount, lenN, i + 1, done', sub', marginSub', taskN', base, syncerVec)
    {
      var code := stocks[i];
      marginSub' := marginSub;
      if code.isMargin {
        marginSub' := marginSub + [code];
      }
      sub' := sub + [code];
      if i + 1 < lenN && |sub'| >= len {
        taskN' := taskN + 1;
        done' := done + [sub'];
        ghost var v0 := syncerVec;
        AddChunkSyncers(sub', marginSub', taskN');
        RegisteredCut(funcs, stocks, splitCount, lenN, i, done, sub, marginSub, taskN, base, v0,
          sub', marginSub', done', taskN', syncerVec);
        sub', marginSub' := [], [];
      } else {
        taskN', done' := taskN, done;
        RegisteredKeep(funcs, stocks, splitCount, lenN, i, done, sub, marginSub, taskN, base, syncerVec,
          sub', marginSub');
      }
    }

    /** The two `add_syncer` calls for a chunk cut in the loop. */
    method AddChunkSyncers(chunk: seq<StockCode>, marginChunk: seq<StockCode>, taskN: nat)
      modifies this
      ensures syncerVec == old(syncerVec) + Keep(funcs, [Heavy(StockBar, chunk, taskN), Heavy(StockMargin, marginChunk, taskN)])
    {
      AddSyncer(Heavy(StockBar, chunk, taskN));
      AddSyncer(Heavy(StockMargin, marginChunk, taskN));
      KeepAppend(funcs, [Heavy(StockBar, chunk, taskN)], [Heavy(StockMargin, marginChunk, taskN)]);
      assert [Heavy(StockBar, chunk, taskN)] + [Heavy(StockMargin, marginChunk, taskN)]
        == [Heavy(StockBar, chunk, taskN), Heavy(StockMargin, marginChunk, taskN)];
    }

    /** The `add_syncer` calls for the rest after the loop. */
    method AddRest(rest: seq<StockCode>, marginRest: seq<StockCode>, len: nat, n: nat)
      requires marginRest == Margins(rest)
      modifies this
      ensures syncerVec == old(syncerVec) + Keep(funcs, BarTail(rest, len, n) + MarginTail(rest, len, n))
    {
      ghost var v0 := syncerVec;
      var taskN := n;
      if |rest| >= len {
        taskN := taskN + 1;
        AddSyncer(Heavy(StockBar, rest, taskN));
        assert BarTail(rest, len, n) == [Heavy(StockBar, rest, taskN)];
      } else {
        KeepNone(funcs, v0);
      }
      ghost var v1 := syncerVec;
      if |marginRest| >= len {
        taskN := taskN + 1;
        AddSyncer(Heavy(StockMargin, marginRest, taskN));
        assert MarginTail(rest, len, n) == [Heavy(StockMargin, marginRest, taskN)];
      } else {
        KeepNone(funcs, v1);
      }
      RestPlanned(funcs, v0, v1, syncerVec, BarTail(rest, len, n), MarginTail(rest, len, n));
    }

    /**
     * `prepare_syncer`: the basic-info syncers unless skip_basic, the other
     * whole-type syncers, then the heavy ones.
     */
    method PrepareSyncer(stocks: seq<StockCode>, splitCount: nat)
      requires splitCount > 0
      modifies this
      ensures syncerVec == old(syncerVec) + Keep(funcs, LightPlan(skipBasic)) + Keep(funcs, HeavyPlan(stocks, splitCount))
    {
      ghost var v0 := syncerVec;
      var basic: seq<SyncerSpec> := [];
      if !skipBasic {
        basic := Lights(BasicTypes);
        AddSyncers(basic);
      } else {
        KeepNone(funcs, v0);
      }
      ghost var v1 := syncerVec;
      var lights := Lights(LightTypes);
      AddSyncers(lights);
      assert LightPlan(skipBasic) == basic + lights;
      RestPlanned(funcs, v0, v1, syncerVec, basic, lights);
      PrepareHeavySyncer(stocks, splitCount);
    }

    /**
     * `prepare_cache`: loads the five inputs (from the remote side without
     * skip_basic, from the database with it), stopping at the first error;
     * then replaces all five caches and fails if any input was empty.
     */
    method PrepareCache(remote: Basic, db: Basic) returns (r: Result<(), Error>)
      modifies cache
      ensures var b := if skipBasic then db else remote;
        match FirstError(b)
        case Some(e) =>
          && r == Err(e)
          && cache.tradeDate == old(cache.tradeDate) && cache.indexInfo == old(cache.indexInfo)
          && cache.stockInfo == old(cache.stockInfo) && cache.bondInfo == old(cache.bondInfo)
          && cache.fundInfo == old(cache.fundInfo)
        case None =>
          && cache.bondInfo == Some(Store.ByCode(b.bond.value))
          && cache.indexInfo == Some(Store.ByCode(b.index.value))
          && cache.stockInfo == Some(Store.ByCode(b.stock.value))
          && cache.fundInfo == Some(Store.ByCode(b.fund.value))
          && cache.tradeDate == Some(b.tradeDate.value)
          && (r.Err? <==> (b.bond.value == [] || b.index.value == [] || b.stock.value == []
                          || b.fund.value == [] || b.tradeDate.value == {}))
          && (r.Err? ==> r.error == Custom(CacheEmpty))
    {
      var b := if skipBasic then db else remote;
      if b.bond.Err? {
        return Err(b.bond.error);
      }
      if b.index.Err? {
        return Err(b.index.error);
      }
      if b.stock.Err? {
        return Err(b.stock.error);
      }
      if b.fund.Err? {
        return Err(b.fund.error);
      }
      if b.tradeDate.Err? {
        return Err(b.tradeDate.error);
      }
      cache.CacheBondInfo(b.bond.value);
      cache.CacheIndexInfo(b.index.value);
      cache.CacheStockInfo(b.stock.value);
      cache.CacheFundInfo(b.fund.value);
      cache.CacheTradeDate(b.tradeDate.value);
      if b.bond.value == [] || b.index.value == [] || b.stock.value == []
        || b.fund.value == [] || b.tradeDate.value == {}
      {
        return Err(Custom(CacheEmpty));
      }
      return Ok(());
    }

    /**
     * `init`: connects (its failure is `client`), fills the cache, then
     * registers the syncers. `stocks` is the cached stock map's iteration
     * order as `prepare_heavy_syncer` reads it.
     */
    method Init(client: Result<(), Error>, remote: Basic, db: Basic, stocks: seq<StockCode>)
      returns (r: Result<(), Error>)
      requires splitCount > 0
      modifies this, cache
      ensures client.Err? ==> r == Err(client.error) && syncerVec == old(syncerVec)
      ensures client.Ok? && FirstError(if skipBasic then db else remote).Some? ==>
        r == Err(FirstError(if skipBasic then db else remote).value) && syncerVec == old(syncerVec)
      ensures r.Ok? ==> syncerVec == old(syncerVec) + Keep(funcs, LightPlan(skipBasic)) + Keep(funcs, HeavyPlan(stocks, splitCount))
      ensures r.Err? ==> syncerVec == old(syncerVec)
    {
      if client.Err? {
        return Err(client.error);
      }
      r := PrepareCache(remote, db);
      if r.Err? {
        return;
      }
      PrepareSyncer(stocks, splitCount);
    }
  }
}
