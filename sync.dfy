// The data sync driver: the stores are built once, each store's syncers are
// split into fetch tasks by index, and every syncer has a save task that
// drains its channel. Tasks run one after another here; a shutdown is an
// input saying at which step it arrives.
module Sync {
  import opened Wrappers
  import opened SyncTypes
  import Runner

  /** Builds all destinations' stores in order; the first failure is returned. */
  function BuildStores<S>(dest: seq<SyncDest>, getStore: SyncDest -> Result<(SyncDestType, S), Error>)
    : Result<map<SyncDestType, S>, Error>
    decreases |dest|
  {
    if |dest| == 0 then Ok(map[])
    else
      var prev := BuildStores(dest[..|dest| - 1], getStore);
      var last := getStore(dest[|dest| - 1]);
      if prev.Err? then prev
      else if last.Err? then Err(last.error)
      else Ok(prev.value[last.value.0 := last.value.1])
  }

  /**
   * Building succeeds exactly when every destination's store builds, and then
   * the stores are keyed by exactly the destinations' types.
   */
  lemma {:induction false} BuildStoresOk<S>(dest: seq<SyncDest>, getStore: SyncDest -> Result<(SyncDestType, S), Error>)
    ensures BuildStores(dest, getStore).Ok? <==> forall i :: 0 <= i < |dest| ==> getStore(dest[i]).Ok?
    ensures BuildStores(dest, getStore).Ok? ==> forall t :: t in BuildStores(dest, getStore).value <==>
      exists i :: 0 <= i < |dest| && getStore(dest[i]).value.0 == t
    decreases |dest|
  {
    if |dest| > 0 {
      var init := dest[..|dest| - 1];
      BuildStoresOk(init, getStore);
      assert forall i :: 0 <= i < |init| ==> init[i] == dest[i];
      if BuildStores(dest, getStore).Ok? {
        var m := BuildStores(dest, getStore).value;
        forall t | t in m
          ensures exists i :: 0 <= i < |dest| && getStore(dest[i]).value.0 == t
        {
          if t != getStore(dest[|dest| - 1]).value.0 {
            var i :| 0 <= i < |init| && getStore(init[i]).value.0 == t;
            assert getStore(dest[i]).value.0 == t;
          }
        }
        forall t | exists i :: 0 <= i < |dest| && getStore(dest[i]).value.0 == t
          ensures t in m
        {
          var i :| 0 <= i < |dest| && getStore(dest[i]).value.0 == t;
          if i < |init| {
            assert getStore(init[i]).value.0 == t;
          }
        }
      }
    }
  }

  class Sync<S> {
    const dest: seq<SyncDest>
    const funcs: Option<seq<SyncDataType>>
    var store: Option<map<SyncDestType, S>>
    var isInit: bool

    constructor(dest: seq<SyncDest>, funcs: Option<seq<SyncDataType>>)
      ensures this.dest == dest && this.funcs == funcs
      ensures store.None? && !isInit
    {
      this.dest := dest;
      this.funcs := funcs;
      store := None;
      isInit := false;
    }

    /**
     * `init`: builds every destination's store (`getStore` stands for
     * `get_store` with the skip-basic flag, split count and funcs applied),
     * but only the first time it succeeds; a failure leaves nothing built.
     */
    method Init(getStore: SyncDest -> Result<(SyncDestType, S), Error>) returns (r: Result<(), Error>)
      modifies this
      ensures old(isInit) ==> r.Ok? && store == old(store) && isInit
      ensures !old(isInit) ==> match BuildStores(dest, getStore)
        case Ok(m) => r.Ok? && store == Some(m) && isInit
        case Err(e) => r == Err(e) && store == old(store) && !isInit
    {
      if !isInit {
        var built: map<SyncDestType, S> := map[];
        for i := 0 to |dest|
          invariant BuildStores(dest[..i], getStore) == Ok(built)
          invariant store == old(store) && isInit == old(isInit)
        {
          assert dest[..i + 1][..i] == dest[..i];
          var s := getStore(dest[i]);
          if s.Err? {
            BuildStoresPrefixErr(dest, getStore, i + 1);
            return Err(s.error);
          }
          built := built[s.value.0 := s.value.1];
        }
        assert dest[..|dest|] == dest;
        store := Some(built);
        isInit := true;
      }
      return Ok(());
    }
  }

  /** Once a prefix fails to build, the whole list fails with the same error. */
  lemma {:induction false} BuildStoresPrefixErr<S>(dest: seq<SyncDest>, getStore: SyncDest -> Result<(SyncDestType, S), Error>, n: nat)
    requires n <= |dest| && BuildStores(dest[..n], getStore).Err?
    ensures BuildStores(dest, getStore) == BuildStores(dest[..n], getStore)
    decreases |dest| - n
  {
    if n < |dest| {
      assert dest[..n + 1][..n] == dest[..n];
      BuildStoresPrefixErr(dest, getStore, n + 1);
    } else {
      assert dest[..n] == dest;
    }
  }

  /** The syncer indices lo, lo + 1, ..., hi - 1. */
  function Range(lo: int, hi: int): (r: seq<int>)
    requires lo <= hi
    ensures |r| == hi - lo && forall j :: 0 <= j < |r| ==> r[j] == lo + j
  {
    seq(hi - lo, j => lo + j)
  }

  /**
   * len * count, spelled out so that the partition loops can carry the bound
   * without handing the solver a product of two variables.
   */
  function Mul(len: nat, count: nat): nat
    decreases count
  {
    if count == 0 then 0 else Mul(len, count - 1) + len
  }

  /**
   * n / d, spelled out by repeated subtraction for the same reason as Mul;
   * QuotientIsDiv shows that it is the integer quotient.
   */
  function Quotient(n: nat, d: nat): nat
    requires d > 0
    decreases n
  {
    if n < d then 0 else Quotient(n - d, d) + 1
  }

  lemma {:induction false} QuotientIsDiv(n: nat, d: nat)
    requires d > 0
    ensures Quotient(n, d) == n / d
    decreases n
  {
    if n >= d {
      QuotientIsDiv(n - d, d);
      assert (n - d) / d + 1 == n / d by {
        Runner.DivMul(n, d, (n - d) / d + 1, (n - d) % d);
      }
    } else {
      Runner.DivMul(n, d, 0, n);
    }
  }

  /** The whole chunks never exceed the indices: Quotient(n, d) * d <= n. */
  lemma QuotientBound(n: nat, d: nat)
    requires d > 0
    ensures Mul(Quotient(n, d), d) <= n
  {
    QuotientIsDiv(n, d);
    MulIsProduct(n / d, d);
  }

  lemma {:induction false} MulIsProduct(len: nat, count: nat)
    ensures Mul(len, count) == len * count
    decreases count
  {
    if count > 0 {
      MulIsProduct(len, count - 1);
      assert len * (count - 1) + len == len * count;
    }
  }

  lemma {:induction false} MulStrictMono(len: nat, a: nat, b: nat)
    ensures len > 0 && a < b ==> Mul(len, a) < Mul(len, b)
    decreases b
  {
    if len > 0 && a + 1 < b {
      MulStrictMono(len, a, b - 1);
    }
  }

  /**
   * A chunk of len cut while fewer than lenN = len * taskCount indices are
   * seen is never the last of the taskCount chunks.
   */
  lemma CutBeforeLast(c: nat, len: nat, taskCount: nat, lenN: nat)
    requires len > 0 && lenN == Mul(len, taskCount)
    requires Mul(len, c) + len < lenN
    ensures c + 1 <= taskCount - 1
  {
    assert Mul(len, c + 1) == Mul(len, c) + len;
    MulStrictMono(len, taskCount, c + 1);
  }

  /** Once lenN indices are seen, the pending chunk is the last one. */
  lemma LastChunkStarts(c: nat, len: nat, taskCount: nat, lenN: nat, pending: nat)
    requires len > 0 && taskCount > 0 && lenN == Mul(len, taskCount)
    requires Mul(len, c) + pending == lenN
    requires pending <= len && c <= taskCount - 1
    ensures c == taskCount - 1
  {
    assert Mul(len, taskCount) == Mul(len, taskCount - 1) + len;
    MulStrictMono(len, c, taskCount - 1);
  }

  /** The last chunk holds at least len indices. */
  lemma LastChunkSize(c: nat, len: nat, taskCount: nat, lenN: nat, n: nat)
    requires taskCount > 0 && lenN == Mul(len, taskCount) && n >= lenN
    requires c == taskCount - 1
    ensures n - Mul(len, c) >= len
  {
  }

  /**
   * The split of a store's syncer indices into fetch tasks inside `sync_task`:
   * with len = syncerLen / taskCount, taskCount - 1 chunks of len indices and
   * a last chunk with the rest, or a single chunk of everything when len is 0.
   */
  method SyncPartition(syncerLen: nat, taskCount: nat) returns (chunks: seq<seq<int>>)
    requires taskCount > 0
    ensures Runner.Flatten(chunks) == Range(0, syncerLen)
    ensures syncerLen / taskCount == 0 ==> chunks == (if syncerLen == 0 then [] else [Range(0, syncerLen)])
    ensures syncerLen / taskCount > 0 ==> |chunks| == taskCount
    ensures syncerLen / taskCount > 0 ==> forall k :: 0 <= k < taskCount - 1 ==> |chunks[k]| == syncerLen / taskCount
    ensures syncerLen / taskCount > 0 ==> |chunks[taskCount - 1]| >= syncerLen / taskCount
  {
    var len := Quotient(syncerLen, taskCount);
    var lenN := Mul(len, taskCount);
    assert len == 0 ==> lenN == 0 by {
      MulIsProduct(len, taskCount);
    }
    var sub: seq<int> := [];
    chunks := [];
    for i := 0 to syncerLen
      invariant Partitioning(len, taskCount, lenN, i, chunks, sub)
    {
      chunks, sub := PartitionStep(len, taskCount, lenN, i, chunks, sub);
    }
    ghost var full := chunks;
    if |sub| > 0 {
      chunks := chunks + [sub];
    }
    PartitionFinished(syncerLen, taskCount, len, lenN, full, sub, chunks);
  }

  /** After the last index, the pending chunk (when not empty) closes the partition. */
  lemma PartitionFinished(syncerLen: nat, taskCount: nat, len: nat, lenN: nat,
                          full: seq<seq<int>>, sub: seq<int>, chunks: seq<seq<int>>)
    requires taskCount > 0 && len == Quotient(syncerLen, taskCount) && lenN == Mul(len, taskCount)
    requires Partitioning(len, taskCount, lenN, syncerLen, full, sub)
    requires chunks == if |sub| > 0 then full + [sub] else full
    ensures Runner.Flatten(chunks) == Range(0, syncerLen)
    ensures syncerLen / taskCount == 0 ==> chunks == (if syncerLen == 0 then [] else [Range(0, syncerLen)])
    ensures syncerLen / taskCount > 0 ==> |chunks| == taskCount
    ensures syncerLen / taskCount > 0 ==> forall k :: 0 <= k < taskCount - 1 ==> |chunks[k]| == syncerLen / taskCount
    ensures syncerLen / taskCount > 0 ==> |chunks[taskCount - 1]| >= syncerLen / taskCount
  {
    QuotientBound(syncerLen, taskCount);
    assert |Runner.Flatten(full) + sub| == syncerLen;
    FinishFlatten(full, sub, chunks, syncerLen);
    if len == 0 {
      FinishSingle(full, sub, chunks, syncerLen);
    } else {
      FinishShape(full, sub, chunks, syncerLen, taskCount, len);
    }
    assert len == syncerLen / taskCount by {
      QuotientIsDiv(syncerLen, taskCount);
    }
  }

  /**
   * The state of the loop in `sync` after index `i`: the cut chunks and the
   * pending chunk `sub` hold 0..i in order, every cut chunk has `len`
   * indices, and the last chunk (index taskCount - 1) is never cut.
   */
  ghost predicate Partitioning(len: nat, taskCount: nat, lenN: nat, i: nat, chunks: seq<seq<int>>, sub: seq<int>)
  {
    && Runner.Flatten(chunks) + sub == Range(0, i)
    && (forall k :: 0 <= k < |chunks| ==> |chunks[k]| == len)
    && |Runner.Flatten(chunks)| == Mul(len, |chunks|)
    && (len == 0 ==> chunks == [])
    && (len > 0 ==> |chunks| <= taskCount - 1)
    && (i < lenN ==> |sub| < len)
    && (len > 0 && i >= lenN ==> |chunks| == taskCount - 1)
  }

  /**
   * One pass of the loop in `sync`: index `i` joins the pending chunk, and a
   * full chunk is cut unless i + 1 has reached len * taskCount.
   */
  method PartitionStep(len: nat, taskCount: nat, lenN: nat, i: nat, chunks: seq<seq<int>>, sub: seq<int>)
    returns (chunks': seq<seq<int>>, sub': seq<int>)
    requires taskCount > 0 && lenN == Mul(len, taskCount) && (len == 0 ==> lenN == 0)
    requires Partitioning(len, taskCount, lenN, i, chunks, sub)
    ensures Partitioning(len, taskCount, lenN, i + 1, chunks', sub')
  {
    assert Range(0, i + 1) == Range(0, i) + [i];
    chunks', sub' := chunks, sub + [i];
    if i + 1 >= lenN {
      if len > 0 && i + 1 == lenN {
        LastChunkStarts(|chunks|, len, taskCount, lenN, |sub'|);
      }
      return;
    }
    if |sub'| >= len {
      CutBeforeLast(|chunks|, len, taskCount, lenN);
      AppendChunk(chunks, sub', len);
      chunks', sub' := chunks + [sub'], [];
    }
  }

  /** Cutting a full pending chunk keeps the flattened chunks and their length in step. */
  lemma AppendChunk<T>(chunks: seq<seq<T>>, sub: seq<T>, len: nat)
    requires |sub| == len && |Runner.Flatten(chunks)| == Mul(len, |chunks|)
    ensures Runner.Flatten(chunks + [sub]) == Runner.Flatten(chunks) + sub
    ensures |Runner.Flatten(chunks + [sub])| == Mul(len, |chunks + [sub]|)
  {
    assert (chunks + [sub])[..|chunks|] == chunks;
  }

  /** Appending the pending indices to the chunks completes the range. */
  lemma FinishFlatten(chunks: seq<seq<int>>, sub: seq<int>, all: seq<seq<int>>, syncerLen: nat)
    requires all == if |sub| > 0 then chunks + [sub] else chunks
    requires Runner.Flatten(chunks) + sub == Range(0, syncerLen)
    ensures Runner.Flatten(all) == Range(0, syncerLen)
  {
    if |sub| > 0 {
      assert (chunks + [sub])[..|chunks|] == chunks;
    } else {
      assert Runner.Flatten(chunks) + sub == Runner.Flatten(chunks);
    }
  }

  /** With len = 0 nothing was cut, so the pending indices are all of them. */
  lemma FinishSingle(chunks: seq<seq<int>>, sub: seq<int>, all: seq<seq<int>>, syncerLen: nat)
    requires all == if |sub| > 0 then chunks + [sub] else chunks
    requires Runner.Flatten(chunks) + sub == Range(0, syncerLen)
    requires chunks == []
    ensures all == (if syncerLen == 0 then [] else [Range(0, syncerLen)])
  {
    assert Runner.Flatten(chunks) == [];
    assert sub == Range(0, syncerLen);
  }

  /** With len > 0, taskCount - 1 chunks of len and a last one of at least len. */
  lemma FinishShape<T>(chunks: seq<seq<T>>, sub: seq<T>, all: seq<seq<T>>, syncerLen: nat, taskCount: nat, len: nat)
    requires all == if |sub| > 0 then chunks + [sub] else chunks
    requires taskCount > 0 && len > 0 && Mul(len, taskCount) <= syncerLen
    requires Mul(len, |chunks|) + |sub| == syncerLen
    requires forall k :: 0 <= k < |chunks| ==> |chunks[k]| == len
    requires |chunks| == taskCount - 1
    ensures |all| == taskCount
    ensures forall k :: 0 <= k < taskCount - 1 ==> |all[k]| == len
    ensures |all[taskCount - 1]| >= len
  {
    LastChunkSize(|chunks|, len, taskCount, Mul(len, taskCount), syncerLen);
  }

  /** A message on a syncer's channel: fetched data, or the end of one fetch. */
  datatype SyncData<D> = Data(item: D) | Done

  /** The data items of one fetch, as messages on the channel of syncer `x`. */
  function Tagged<D>(x: int, ds: seq<D>): (r: seq<(int, SyncData<D>)>)
    ensures |r| == |ds| && forall j :: 0 <= j < |ds| ==> r[j] == (x, Data(ds[j]))
  {
    seq(|ds|, j requires 0 <= j < |ds| => (x, Data(ds[j])))
  }

  /**
   * The messages of fetch task that completes the syncers `xs` in order:
   * each syncer's fetched data followed by its Done, all tagged with the
   * syncer's index.
   */
  function Sends<D>(xs: seq<int>, fetched: int -> seq<D>): seq<(int, SyncData<D>)>
    decreases |xs|
  {
    if |xs| == 0 then []
    else Sends(xs[..|xs| - 1], fetched) + Tagged(xs[|xs| - 1], fetched(xs[|xs| - 1])) + [(xs[|xs| - 1], Done)]
  }

  /** How many syncers of a fetch task finish: all, or those before the shutdown. */
  function Finished(indices: seq<int>, shutdownAt: Option<nat>): (n: nat)
    ensures n <= |indices|
  {
    if shutdownAt.Some? && shutdownAt.value < |indices| then shutdownAt.value else |indices|
  }

  /**
   * `fetch_task`: runs the fetches of its syncers in order, each followed by
   * a Done on that syncer's channel. A shutdown during the fetch at position
   * `shutdownAt` ends the task without that Done (the interrupted fetch's
   * data is not modelled). Returns the messages sent.
   */
  method FetchTask<D>(indices: seq<int>, fetched: int -> seq<D>, shutdownAt: Option<nat>)
    returns (sent: seq<(int, SyncData<D>)>)
    ensures sent == Sends(indices[..Finished(indices, shutdownAt)], fetched)
  {
    sent := [];
    var k := 0;
    while k < |indices|
      invariant k <= Finished(indices, shutdownAt)
      invariant sent == Sends(indices[..k], fetched)
    {
      if shutdownAt == Some(k) {
        break;
      }
      var index := indices[k];
      assert indices[..k + 1][..k] == indices[..k];
      sent := sent + Tagged(index, fetched(index)) + [(index, Done)];
      k := k + 1;
    }
  }

  /** The messages on the channel of syncer `x`, in sending order. */
  function Channel<D>(events: seq<(int, SyncData<D>)>, x: int): seq<SyncData<D>>
    decreases |events|
  {
    if |events| == 0 then []
    else
      var last := events[|events| - 1];
      Channel(events[..|events| - 1], x) + (if last.0 == x then [last.1] else [])
  }

  lemma {:induction false} ChannelAppend<D>(a: seq<(int, SyncData<D>)>, b: seq<(int, SyncData<D>)>, x: int)
    ensures Channel(a + b, x) == Channel(a, x) + Channel(b, x)
    decreases |b|
  {
    if |b| > 0 {
      var b' := b[..|b| - 1];
      ChannelAppend(a, b', x);
      assert (a + b)[..|a + b| - 1] == a + b';
    } else {
      assert a + b == a;
    }
  }

  function Wrap<D>(ds: seq<D>): (r: seq<SyncData<D>>)
    ensures |r| == |ds| && forall j :: 0 <= j < |ds| ==> r[j] == Data(ds[j])
  {
    seq(|ds|, j requires 0 <= j < |ds| => Data(ds[j]))
  }

  lemma {:induction false} ChannelOfTagged<D>(y: int, ds: seq<D>, x: int)
    ensures Channel(Tagged(y, ds), x) == if x == y then Wrap(ds) else []
    decreases |ds|
  {
    if |ds| > 0 {
      var init := ds[..|ds| - 1];
      ChannelOfTagged(y, init, x);
      assert Tagged(y, ds)[..|ds| - 1] == Tagged(y, init);
      if x == y {
        assert Wrap(init) + [Data(ds[|ds| - 1])] == Wrap(ds);
      }
    }
  }

  /** One finished syncer's messages reach only its own channel. */
  lemma ChannelOfStep<D>(prefix: seq<(int, SyncData<D>)>, y: int, ds: seq<D>, x: int)
    ensures Channel(prefix + Tagged(y, ds) + [(y, Done)], x)
      == Channel(prefix, x) + (if x == y then Wrap(ds) + [Done] else [])
  {
    var tagged := Tagged(y, ds);
    ChannelOfDone(prefix + tagged, y, x);
    ChannelAppend(prefix, tagged, x);
    ChannelOfTagged(y, ds, x);
    JoinTail(Channel(prefix, x), if x == y then Wrap(ds) else [], if x == y then [Done] else []);
  }

  /** A Done for syncer `y` adds one message to y's channel and none to any other. */
  lemma ChannelOfDone<D>(events: seq<(int, SyncData<D>)>, y: int, x: int)
    ensures Channel(events + [(y, Done)], x) == Channel(events, x) + (if x == y then [Done] else [])
  {
    assert (events + [(y, Done)])[..|events|] == events;
  }

  lemma JoinTail<T>(a: seq<T>, b: seq<T>, c: seq<T>)
    ensures a + b + c == a + (b + c)
  {
  }

  /**
   * Protocol: a syncer that a completed fetch task handled exactly once sees
   * on its channel exactly its fetched data followed by one Done; a syncer
   * the task did not handle sees nothing.
   */
  lemma {:induction false} ChannelOfSends<D>(xs: seq<int>, fetched: int -> seq<D>, x: int)
    ensures multiset(xs)[x] == 0 ==> Channel(Sends(xs, fetched), x) == []
    ensures multiset(xs)[x] == 1 ==> Channel(Sends(xs, fetched), x) == Wrap(fetched(x)) + [Done]
    decreases |xs|
  {
    if |xs| > 0 {
      var init, y := xs[..|xs| - 1], xs[|xs| - 1];
      assert xs == init + [y];
      assert multiset(xs)[x] == multiset(init)[x] + (if x == y then 1 else 0);
      ChannelOfSends(init, fetched, x);
      ChannelOfStep(Sends(init, fetched), y, fetched(y), x);
    }
  }

  /** The data items that precede the first Done. */
  function BeforeDone<D>(rx: seq<SyncData<D>>): seq<D>
    decreases |rx|
  {
    if |rx| == 0 || rx[0].Done? then [] else [rx[0].item] + BeforeDone(rx[1..])
  }

  /** A save task reading one whole fetch saves exactly that fetch's data. */
  lemma {:induction false} BeforeDoneOfFetch<D>(ds: seq<D>, rest: seq<SyncData<D>>)
    ensures BeforeDone(Wrap(ds) + [Done] + rest) == ds
    decreases |ds|
  {
    if |ds| > 0 {
      BeforeDoneOfFetch(ds[1..], rest);
      assert (Wrap(ds) + [Done] + rest)[1..] == Wrap(ds[1..]) + [Done] + rest;
    }
  }

  function Min(a: nat, b: nat): nat
  {
    if a < b then a else b
  }

  /**
   * `save_task`: saves the items of its channel in arrival order until the
   * first Done or the channel's end (`rx` holds every message until then). A
   * shutdown while saving the item at position `shutdownAt` stops the task
   * before that item is saved.
   */
  method SaveTask<D>(rx: seq<SyncData<D>>, shutdownAt: Option<nat>) returns (saved: seq<D>)
    ensures saved == BeforeDone(rx)[..if shutdownAt.Some? then Min(shutdownAt.value, |BeforeDone(rx)|) else |BeforeDone(rx)|]
  {
    saved := [];
    var i := 0;
    while i < |rx|
      invariant i <= |rx|
      invariant BeforeDone(rx) == saved + BeforeDone(rx[i..])
      invariant shutdownAt.Some? ==> |saved| <= shutdownAt.value
      decreases |rx| - i
    {
      if rx[i].Done? {
        break;
      }
      if shutdownAt == Some(|saved|) {
        break;
      }
      assert rx[i..][1..] == rx[i + 1..];
      saved := saved + [rx[i].item];
      i := i + 1;
    }
  }

  /**
   * End to end: when a syncer's fetch completes and no shutdown comes, its
   * save task saves exactly what was fetched.
   */
  lemma FetchedIsSaved<D>(xs: seq<int>, fetched: int -> seq<D>, x: int)
    requires multiset(xs)[x] == 1
    ensures BeforeDone(Channel(Sends(xs, fetched), x)) == fetched(x)
  {
    ChannelOfSends(xs, fetched, x);
    BeforeDoneOfFetch(fetched(x), []);
    assert Wrap(fetched(x)) + [Done] + [] == Wrap(fetched(x)) + [Done];
  }

  function Dones<D>(events: seq<(int, SyncData<D>)>): seq<int>
    decreases |events|
  {
    if |events| == 0 then []
    else
      var last := events[|events| - 1];
      Dones(events[..|events| - 1]) + (if last.1.Done? then [last.0] else [])
  }

  lemma {:induction false} DonesAppend<D>(a: seq<(int, SyncData<D>)>, b: seq<(int, SyncData<D>)>)
    ensures Dones(a + b) == Dones(a) + Dones(b)
    decreases |b|
  {
    if |b| > 0 {
      var b' := b[..|b| - 1];
      DonesAppend(a, b');
      assert (a + b)[..|a + b| - 1] == a + b';
    } else {
      assert a + b == a;
    }
  }

  lemma {:induction false} DonesOfTagged<D>(y: int, ds: seq<D>)
    ensures Dones(Tagged(y, ds)) == []
    decreases |ds|
  {
    if |ds| > 0 {
      DonesOfTagged(y, ds[..|ds| - 1]);
      assert Tagged(y, ds)[..|ds| - 1] == Tagged(y, ds[..|ds| - 1]);
    }
  }

  /** The Done messages of a fetch task name its finished syncers, in order. */
  lemma {:induction false} DonesOfSends<D>(xs: seq<int>, fetched: int -> seq<D>)
    ensures Dones(Sends(xs, fetched)) == xs
    decreases |xs|
  {
    if |xs| > 0 {
      var init, y := xs[..|xs| - 1], xs[|xs| - 1];
      DonesOfSends(init, fetched);
      DonesAppend(Sends(init, fetched) + Tagged(y, fetched(y)), [(y, Done)]);
      DonesAppend(Sends(init, fetched), Tagged(y, fetched(y)));
      DonesOfTagged(y, fetched(y));
      var done: seq<(int, SyncData<D>)> := [(y, Done)];
      assert done[..0] == [];
      assert Dones(done) == [y];
      assert init + [y] == xs;
    }
  }
}
