// The sliding-window moving average over a series ordered most recent first.
module MovingAverage {
  /** Sum of a series. */
  function Sum(s: seq<real>): real
  {
    if s == [] then 0.0 else s[0] + Sum(s[1..])
  }

  /** Extending a window at its old end adds that element to the sum. */
  lemma {:induction false} SumSnoc(s: seq<real>, x: real)
    ensures Sum(s + [x]) == Sum(s) + x
  {
    if s != [] {
      assert (s + [x])[1..] == s[1..] + [x];
      SumSnoc(s[1..], x);
    }
  }

  /**
   * The average at position i: the mean of the m bars starting at i (bar i
   * and the m - 1 bars before it in time), or 0 where fewer than m bars
   * remain.
   */
  function MaAt(bar: seq<real>, m: nat, i: int): real
    requires 0 <= i < |bar|
  {
    if m >= 1 && i + m <= |bar| then Sum(bar[i..i + m]) / (m as real) else 0.0
  }

  /** The whole averaged series, position by position. */
  function MaSpec(bar: seq<real>, m: nat): (r: seq<real>)
    ensures |r| == |bar|
  {
    seq(|bar|, i requires 0 <= i < |bar| => MaAt(bar, m, i))
  }

  /**
   * `MA(bar, ma_type)`: walks the series from the oldest bar keeping a running
   * sum of the last ma_type bars, then reverses the pushed values. The result
   * is the windowed mean at every position that has a full window and 0 at
   * the ma_type - 1 oldest positions. A zero ma_type on a non-empty series
   * makes the source's index arithmetic underflow, hence the precondition.
   */
  method MA(bar: seq<real>, m: nat) returns (ma: seq<real>)
    requires m >= 1 || |bar| == 0
    ensures |ma| == |bar|
    ensures ma == MaSpec(bar, m)
  {
    var len := |bar|;
    var acc: seq<real> := [];
    var sum := 0.0;
    var k := 0;
    while k < len
      invariant 0 <= k <= len
      invariant |acc| == k
      invariant forall t :: 0 <= t < k ==> acc[t] == MaAt(bar, m, len - 1 - t)
      invariant m >= 1 ==> sum == RunningSum(bar, m, k)
    {
      var j := len - 1 - k;
      WindowStep(bar, m, k);
      sum := sum + bar[j];
      if k + 1 < m {
        acc := acc + [0.0];
      } else {
        acc := acc + [sum / (m as real)];
        sum := sum - bar[len - 1 - (k + 1 - m)];
      }
      k := k + 1;
    }
    ma := seq(len, i requires 0 <= i < len => acc[len - 1 - i]);
  }

  /**
   * The running sum after k steps from the oldest end: the sum of the
   * newest m - 1 (or fewer, early on) of the k bars visited.
   */
  ghost function RunningSum(bar: seq<real>, m: nat, k: nat): real
    requires m >= 1 && k <= |bar|
  {
    Sum(bar[|bar| - k .. |bar| - k + (if k < m then k else m - 1)])
  }

  /**
   * One step of the walk: adding the next bar completes the window that
   * starts there, and dropping the bar m - 1 places newer keeps the running
   * sum.
   */
  lemma WindowStep(bar: seq<real>, m: nat, k: nat)
    requires m >= 1 && k < |bar|
    ensures k + 1 >= m ==> Sum(bar[|bar| - 1 - k .. |bar| - 1 - k + m]) == bar[|bar| - 1 - k] + RunningSum(bar, m, k)
    ensures RunningSum(bar, m, k + 1) ==
      if k + 1 < m then bar[|bar| - 1 - k] + RunningSum(bar, m, k)
      else bar[|bar| - 1 - k] + RunningSum(bar, m, k) - bar[|bar| - 1 - k + m - 1]
  {
    var j := |bar| - 1 - k;
    var w := if k < m then k else m - 1;
    assert bar[j .. j + 1 + w] == [bar[j]] + bar[|bar| - k .. |bar| - k + w];
    if k + 1 >= m {
      assert bar[j .. j + m] == bar[j .. j + m - 1] + [bar[j + m - 1]];
      SumSnoc(bar[j .. j + m - 1], bar[j + m - 1]);
    }
  }

  /** A window of one is the series itself. */
  lemma MaOfOneIsIdentity(bar: seq<real>)
    ensures MaSpec(bar, 1) == bar
  {
    forall i | 0 <= i < |bar| ensures MaSpec(bar, 1)[i] == bar[i] {
      assert bar[i..i + 1] == [bar[i]];
      assert [bar[i]][1..] == [];
      assert Sum([bar[i]]) == bar[i] + Sum([]);
    }
  }

  /** A window longer than the series leaves every position 0. */
  lemma MaTooShortIsZero(bar: seq<real>, m: nat)
    requires m > |bar|
    ensures forall i :: 0 <= i < |bar| ==> MaSpec(bar, m)[i] == 0.0
  {
  }

  /** The oldest m - 1 positions are 0, the others hold a full-window mean. */
  lemma MaZeroTail(bar: seq<real>, m: nat, i: int)
    requires m >= 1 && 0 <= i < |bar|
    ensures i > |bar| - m ==> MaSpec(bar, m)[i] == 0.0
    ensures i <= |bar| - m ==> MaSpec(bar, m)[i] * (m as real) == Sum(bar[i..i + m])
  {
  }
}
