// The shape shared by the screening strategies' scans: starting at some index,
// count how many consecutive indices satisfy a per-day condition, stopping at
// the first one that does not.
module Scan {
  /**
   * len is the length of the maximal run of indices start, start+1, ... below
   * end that all satisfy p: every index in the run satisfies p, and the run
   * ends at end or at an index that fails p.
   */
  ghost predicate IsMaximalRun(p: int -> bool, start: int, end: int, len: nat)
  {
    (len == 0 || start + len <= end)
    && (forall i :: start <= i < start + len ==> p(i))
    && (start + len < end ==> !p(start + len))
  }

  /** The length of the run of indices from start (below end) that satisfy p. */
  function RunLength(p: int -> bool, start: int, end: int): (n: nat)
    ensures IsMaximalRun(p, start, end, n)
    ensures start >= end ==> n == 0
    decreases end - start
  {
    if start < end && p(start) then 1 + RunLength(p, start + 1, end) else 0
  }

  /** The maximal run is unique: any run that stops where p first fails is the one RunLength counts. */
  lemma {:induction false} MaximalRunUnique(p: int -> bool, start: int, end: int, len: nat)
    requires IsMaximalRun(p, start, end, len)
    ensures RunLength(p, start, end) == len
    decreases end - start
  {
    if len > 0 {
      assert p(start);
      assert IsMaximalRun(p, start + 1, end, len - 1);
      MaximalRunUnique(p, start + 1, end, len - 1);
    }
  }
}
