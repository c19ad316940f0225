// The sync crate's retry-with-backoff loop and the daily start gate.
module Syncer {
  import opened Wrappers

  function Pow2(k: nat): (p: nat)
    ensures p >= 1
  {
    if k == 0 then 1 else 2 * Pow2(k - 1)
  }

  /** The backoff factor doubles up to this value; reaching it ends the retries. */
  const MaxBackoff: nat := 64

  /** The milliseconds slept after each failed attempt: 500, 1000, 2000, ... */
  function Sleeps(n: nat): (s: seq<nat>)
    ensures |s| == n
    ensures forall j :: 0 <= j < n ==> s[j] == 500 * Pow2(j)
    decreases n
  {
    if n == 0 then [] else Sleeps(n - 1) + [500 * Pow2(n - 1)]
  }

  lemma SleepsNext(n: nat)
    ensures Sleeps(n + 1) == Sleeps(n) + [500 * Pow2(n)]
  {
  }

  function Sum(s: seq<nat>): nat
    decreases |s|
  {
    if |s| == 0 then 0 else Sum(s[..|s| - 1]) + s[|s| - 1]
  }

  /** All the failed attempts together wait 500 * (2^n - 1) milliseconds. */
  lemma {:induction false} SleepsTotal(n: nat)
    ensures Sum(Sleeps(n)) == 500 * (Pow2(n) - 1)
    decreases n
  {
    if n > 0 {
      SleepsTotal(n - 1);
      assert Sleeps(n)[..n - 1] == Sleeps(n - 1);
    }
  }

  /**
   * The index of the attempt whose result `retry` returns, looking from
   * attempt `k` on: the first that succeeds, or the seventh (index 6).
   * `call(j)` is what the function returns on its j-th call.
   */
  function Returned<T, E>(call: nat -> Result<T, E>, k: nat): (n: nat)
    requires k <= 6
    ensures k <= n <= 6
    ensures call(n).Ok? || n == 6
    ensures forall j :: k <= j < n ==> call(j).Err?
    decreases 6 - k
  {
    if k == 6 || call(k).Ok? then k else Returned(call, k + 1)
  }

  /**
   * `retry`: calls until a call succeeds, sleeping after each failure with a
   * doubling backoff; the seventh failure (after its sleep) is returned.
   * The sleeps are returned instead of performed.
   */
  method Retry<T, E>(call: nat -> Result<T, E>) returns (r: Result<T, E>, slept: seq<nat>)
    ensures r == call(Returned(call, 0))
    ensures slept == Sleeps(if r.Ok? then Returned(call, 0) else 7)
  {
    var backoff: nat := 1;
    var k: nat := 0;
    slept := [];
    while true
      invariant k <= 6 && backoff == Pow2(k)
      invariant slept == Sleeps(k)
      invariant forall j :: 0 <= j < k ==> call(j).Err?
      invariant Returned(call, 0) == Returned(call, k)
      decreases 6 - k
    {
      var rest := call(k);
      if rest.Err? {
        SleepsNext(k);
        slept := slept + [backoff * 500];
        if backoff >= MaxBackoff {
          assert k == 6 by {
            if k < 6 {
              PowMonotone(k, 6);
            }
          }
          return rest, slept;
        }
        assert k < 6;
        backoff := backoff * 2;
        k := k + 1;
        continue;
      }
      return rest, slept;
    }
  }

  lemma {:induction false} PowMonotone(a: nat, b: nat)
    requires a < b
    ensures Pow2(a) < Pow2(b)
    decreases b - a
  {
    if a + 1 < b {
      PowMonotone(a + 1, b);
    }
  }

  /** `retry` fails only when all seven attempts fail, and it then returns the last error. */
  lemma RetryFailsIffAllFail<T, E>(call: nat -> Result<T, E>)
    ensures call(Returned(call, 0)).Err? <==> forall j :: 0 <= j < 7 ==> call(j).Err?
    ensures call(Returned(call, 0)).Err? ==> Returned(call, 0) == 6
  {
  }

  /**
   * `need_to_start`: whether a sync that last started on day `start` should
   * run now (`today`, `hour`, `minute` of the local clock).
   */
  function NeedToStart(start: Option<int>, today: int, hour: nat, minute: nat): (b: bool)
    ensures start.None? ==> b
    ensures start.Some? && start.value > today ==> !b
    ensures start.Some? && start.value < today ==> b
    ensures start.Some? && start.value == today ==> (b <==> hour > 15 || (hour == 15 && minute > 5))
  {
    if start.Some? then
      var s := start.value;
      if s == today && hour <= 15 then hour == 15 && minute > 5
      else !(s > today)
    else true
  }
}
