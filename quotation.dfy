// The real-time quotation source of the trading engine: a session-event state
// machine (morning open/close, noon open/close, four flags per trading day)
// and the list of subscribed codes.
module Quotation {
  import opened Wrappers
  import opened Common
  import opened Quote

  datatype QuotEvent = Start | MorningOpen | MorningClose | NoonOpen | NoonClose | End | QuotData(quot: map<string, Quot>)

  /** The session event of flag i. */
  function EventOf(i: nat): (e: QuotEvent)
    requires i < 4
    ensures e in {MorningOpen, MorningClose, NoonOpen, NoonClose}
  {
    [MorningOpen, MorningClose, NoonOpen, NoonClose][i]
  }

  /** The lowest flag among 0..=idx that is still false. */
  function LowestUnset(flags: seq<bool>, idx: nat): (k: Option<nat>)
    requires idx < |flags|
    ensures k.Some? ==> k.value <= idx && !flags[k.value] && forall j :: 0 <= j < k.value ==> flags[j]
    ensures k.None? ==> forall j :: 0 <= j <= idx ==> flags[j]
  {
    LowestFrom(flags, 0, idx)
  }

  function LowestFrom(flags: seq<bool>, i: nat, idx: nat): (k: Option<nat>)
    requires idx < |flags|
    ensures k.Some? ==> i <= k.value <= idx && !flags[k.value] && forall j :: i <= j < k.value ==> flags[j]
    ensures k.None? ==> forall j :: i <= j <= idx ==> flags[j]
    decreases idx + 1 - i
  {
    if i > idx then None else if !flags[i] then Some(i) else LowestFrom(flags, i + 1, idx)
  }

  /** The session index of a time on the trade date: (09:15,11:30] is 0, (11:30,13:00] 1, (13:00,15:00] 2, anything else 3. */
  function SessionIndex(n: DateTime, tradeDate: int): (idx: nat)
    ensures idx < 4
  {
    var mStart := DateTime(tradeDate, HourMinute(9, 15));
    var mEnd := DateTime(tradeDate, HourMinute(11, 30));
    var nStart := DateTime(tradeDate, HourMinute(13, 0));
    var nEnd := DateTime(tradeDate, HourMinute(15, 0));
    if Earlier(mStart, n) && !Earlier(mEnd, n) then 0
    else if Earlier(mEnd, n) && !Earlier(nStart, n) then 1
    else if Earlier(nStart, n) && !Earlier(nEnd, n) then 2
    else 3
  }

  /** The flags after `reset_trade_date` for `n`: cleared on a new (or first) trade date, else kept. */
  function ResetFlags(flags: seq<bool>, tradeDate: Option<int>, n: DateTime): seq<bool>
  {
    if tradeDate.None? || tradeDate.value != n.day then [false, false, false, false] else flags
  }

  /** Whether a session is open: a trade date is set and the morning or the afternoon session has opened but not closed. */
  predicate Trading(flags: seq<bool>, tradeDate: Option<int>)
    requires |flags| == 4
  {
    tradeDate.Some? && ((flags[0] && !flags[1]) || (flags[2] && !flags[3]))
  }

  /** The subscription rule: the input codes not already subscribed, in input order (repeats within the input kept). */
  function NewCodes(input: seq<string>, existing: seq<string>): (r: seq<string>)
    ensures |r| <= |input|
  {
    if input == [] then []
    else
      var last := input[|input| - 1];
      NewCodes(input[..|input| - 1], existing) + (if last in existing then [] else [last])
  }

  /** The added codes are exactly the input codes not already subscribed. */
  lemma {:induction false} NewCodesExactly(input: seq<string>, existing: seq<string>)
    ensures forall c :: c in NewCodes(input, existing) <==> c in input && c !in existing
  {
    if input != [] {
      var n := |input| - 1;
      NewCodesExactly(input[..n], existing);
      assert input == input[..n] + [input[n]];
    }
  }

  /** After a subscription every input code is subscribed and nothing was removed or reordered. */
  lemma SubscribeCovers(input: seq<string>, existing: seq<string>)
    ensures existing <= existing + NewCodes(input, existing)
    ensures forall c :: c in input ==> c in existing + NewCodes(input, existing)
  {
    NewCodesExactly(input, existing);
  }

  /** A subscription that brings nothing new changes nothing. */
  lemma {:induction false} SubscribeIdempotent(input: seq<string>, existing: seq<string>)
    requires forall c :: c in input ==> c in existing
    ensures NewCodes(input, existing) == []
  {
    if input != [] {
      SubscribeIdempotent(input[..|input| - 1], existing);
    }
  }

  /**
   * `MyQuotation` behind `RealtimeQuotation` (which derefs to it): the
   * subscribed codes, the start flag, the current trade date and the four
   * session flags.
   */
  class MyQuotation {
    var codes: seq<string>
    var isStart: bool
    var isEnd: bool
    var tradeDate: Option<int>
    const baseEvent: array<bool>

    ghost predicate Valid()
      reads this
    {
      baseEvent.Length == 4
    }

    /** `RealtimeQuotation::new`: no codes, not started, no trade date, no session event fired. */
    constructor ()
      ensures Valid() && fresh(baseEvent)
      ensures codes == [] && !isStart && !isEnd && tradeDate.None? && baseEvent[..] == [false, false, false, false]
    {
      codes := [];
      isStart := false;
      isEnd := false;
      tradeDate := None;
      baseEvent := new bool[4](_ => false);
    }

    /** `is_trading`. */
    predicate IsTrading()
      requires Valid()
      reads this, baseEvent
    {
      Trading(baseEvent[..], tradeDate)
    }

    /**
     * `fire_base_event(idx)`: sets the lowest flag among 0..=idx that is
     * still false and returns its event; with all of them set it returns
     * None and changes nothing. Flags never go back to false here.
     */
    method FireBaseEvent(idx: nat) returns (r: Option<QuotEvent>)
      requires Valid() && idx < 4
      modifies baseEvent
      ensures var k := LowestUnset(old(baseEvent[..]), idx);
        && (k.None? ==> r.None? && baseEvent[..] == old(baseEvent[..]))
        && (k.Some? ==> r == Some(EventOf(k.value)) && baseEvent[..] == old(baseEvent[..])[k.value := true])
    {
      ghost var before := baseEvent[..];
      var i := 0;
      while i <= idx
        invariant 0 <= i <= idx + 1
        invariant baseEvent[..] == before
        invariant forall j :: 0 <= j < i ==> before[j]
      {
        if !baseEvent[i] {
          baseEvent[i] := true;
          LowestIs(before, idx, i);
          return Some(EventOf(i));
        }
        i := i + 1;
      }
      LowestNone(before, idx);
      return None;
    }

    /**
     * `get_base_event(n)`: without a trade date nothing happens; otherwise
     * the lowest unset flag up to n's session index fires.
     */
    method GetBaseEvent(n: DateTime) returns (r: Option<QuotEvent>)
      requires Valid()
      modifies baseEvent
      ensures tradeDate.None? ==> r.None? && baseEvent[..] == old(baseEvent[..])
      ensures tradeDate.Some? ==>
        var k := LowestUnset(old(baseEvent[..]), SessionIndex(n, tradeDate.value));
        && (k.None? ==> r.None? && baseEvent[..] == old(baseEvent[..]))
        && (k.Some? ==> r == Some(EventOf(k.value)) && baseEvent[..] == old(baseEvent[..])[k.value := true])
    {
      if tradeDate.Some? {
        var idx := SessionIndex(n, tradeDate.value);
        ghost var before := baseEvent[..];
        var i := 0;
        while i <= idx
          invariant 0 <= i <= idx + 1
          invariant baseEvent[..] == before
          invariant forall j :: 0 <= j < i ==> before[j]
        {
          if !baseEvent[i] {
            r := FireBaseEvent(i);
            LowestIs(before, i, i);
            LowestIs(before, idx, i);
            return;
          }
          i := i + 1;
        }
        LowestNone(before, idx);
      }
      return None;
    }

    /** `add_codes` (and `subscribe`): append the input codes not yet subscribed. */
    method AddCodes(input: seq<string>)
      modifies this
      ensures codes == old(codes) + NewCodes(input, old(codes))
      ensures isStart == old(isStart) && isEnd == old(isEnd) && tradeDate == old(tradeDate)
    {
      var added := [];
      var i := 0;
      while i < |input|
        invariant 0 <= i <= |input|
        invariant codes == old(codes) && isStart == old(isStart) && isEnd == old(isEnd) && tradeDate == old(tradeDate)
        invariant added == NewCodes(input[..i], codes)
      {
        assert input[..i + 1][..i] == input[..i];
        if input[i] !in codes {
          added := added + [input[i]];
        }
        i := i + 1;
      }
      assert input[..i] == input;
      if added != [] {
        codes := codes + added;
      }
    }

    /** `reset_trade_date(n)`: on a first or different date, clear the flags and store n's date; else nothing changes. */
    method ResetTradeDate(n: DateTime)
      requires Valid()
      modifies this, baseEvent
      ensures baseEvent[..] == ResetFlags(old(baseEvent[..]), old(tradeDate), n)
      ensures tradeDate == Some(n.day)
      ensures codes == old(codes) && isStart == old(isStart) && isEnd == old(isEnd)
    {
      if tradeDate.None? || tradeDate.value != n.day {
        var i := 0;
        while i < 4
          invariant 0 <= i <= 4
          invariant forall j :: 0 <= j < i ==> !baseEvent[j]
          invariant codes == old(codes) && isStart == old(isStart) && isEnd == old(isEnd)
        {
          baseEvent[i] := false;
          i := i + 1;
        }
        tradeDate := Some(n.day);
      }
    }

    /**
     * `RealtimeQuotation::fetch` at local time `now`. `isTradeDate` is the
     * trade-calendar lookup and `quote` the real-time quote fetch. New codes
     * are added first; the first call only reports Start; on a trading day
     * the flags are reset for a new date, a pending session event is
     * reported, and otherwise quotes are fetched while a session is open and
     * codes are subscribed.
     */
    method Fetch(input: Option<seq<string>>, now: DateTime, isTradeDate: Result<bool, string>,
                 quote: seq<string> -> Result<map<string, Quot>, string>) returns (r: Result<Option<QuotEvent>, string>)
      requires Valid()
      modifies this, baseEvent
      ensures codes == old(codes) + (if input.Some? then NewCodes(input.value, old(codes)) else [])
      ensures isStart
      ensures !old(isStart) ==> r == Ok(Some(Start)) && tradeDate == old(tradeDate) && baseEvent[..] == old(baseEvent[..])
      ensures old(isStart) && !(isTradeDate == Ok(true)) ==>
        r == (if isTradeDate.Err? then Err(isTradeDate.error) else Ok(None))
        && tradeDate == old(tradeDate) && baseEvent[..] == old(baseEvent[..])
      ensures old(isStart) && isTradeDate == Ok(true) ==>
        var flags := ResetFlags(old(baseEvent[..]), old(tradeDate), now);
        var k := LowestUnset(flags, SessionIndex(now, now.day));
        && tradeDate == Some(now.day)
        && (k.Some? ==> r == Ok(Some(EventOf(k.value))) && baseEvent[..] == flags[k.value := true])
        && (k.None? ==> baseEvent[..] == flags && r == Polled(flags, Some(now.day), codes, quote))
    {
      if input.Some? {
        AddCodes(input.value);
      }
      if !isStart {
        isStart := true;
        return Ok(Some(Start));
      }
      if isTradeDate.Err? {
        return Err(isTradeDate.error);
      }
      if !isTradeDate.value {
        return Ok(None);
      }
      ResetTradeDate(now);
      var be := GetBaseEvent(now);
      if be.Some? {
        return Ok(be);
      }
      if !IsTrading() || codes == [] {
        return Ok(None);
      }
      var q := quote(codes);
      if q.Err? {
        return Err(q.error);
      }
      return Ok(Some(QuotData(q.value)));
    }
  }

  /** Fetch's last step once no session event is pending: quotes while a session is open and codes are subscribed. */
  function Polled(flags: seq<bool>, tradeDate: Option<int>, codes: seq<string>,
                  quote: seq<string> -> Result<map<string, Quot>, string>): (r: Result<Option<QuotEvent>, string>)
    requires |flags| == 4
    ensures r.Ok? && r.value.Some? ==> Trading(flags, tradeDate) && codes != [] && r.value.value.QuotData? && quote(codes) == Ok(r.value.value.quot)
    ensures r.Err? ==> quote(codes).Err?
  {
    if !Trading(flags, tradeDate) || codes == [] then Ok(None)
    else match quote(codes)
      case Ok(q) => Ok(Some(QuotData(q)))
      case Err(e) => Err(e)
  }

  lemma LowestIs(flags: seq<bool>, idx: nat, i: nat)
    requires i <= idx < |flags| && !flags[i] && forall j :: 0 <= j < i ==> flags[j]
    ensures LowestUnset(flags, idx) == Some(i)
  {
  }

  lemma LowestNone(flags: seq<bool>, idx: nat)
    requires idx < |flags| && forall j :: 0 <= j <= idx ==> flags[j]
    ensures LowestUnset(flags, idx).None?
  {
  }

  /** The number of flags set. */
  function Raised(flags: seq<bool>): (n: nat)
    ensures n <= |flags|
  {
    if flags == [] then 0 else Raised(flags[..|flags| - 1]) + (if flags[|flags| - 1] then 1 else 0)
  }

  /** Session events fire in order: a flag is only set once every earlier one is. */
  predicate FiredInOrder(flags: seq<bool>)
  {
    forall i, j :: 0 <= i < j < |flags| && flags[j] ==> flags[i]
  }

  /** Firing the lowest unset event, and resetting for a trade date, keep the flags in firing order. */
  lemma FiringKeepsOrder(flags: seq<bool>, idx: nat, tradeDate: Option<int>, n: DateTime)
    requires idx < |flags| && FiredInOrder(flags)
    ensures LowestUnset(flags, idx).Some? ==> FiredInOrder(flags[LowestUnset(flags, idx).value := true])
    ensures |flags| == 4 ==> FiredInOrder(ResetFlags(flags, tradeDate, n))
  {
  }

  /**
   * With the flags set in firing order, a session is open exactly when a
   * trade date is set and the last event fired is an opening one
   * (MorningOpen, one flag, or NoonOpen, three flags).
   */
  lemma TradingIffOpenedLast(flags: seq<bool>, tradeDate: Option<int>)
    requires |flags| == 4 && FiredInOrder(flags)
    ensures Trading(flags, tradeDate) <==> tradeDate.Some? && (Raised(flags) == 1 || Raised(flags) == 3)
  {
    assert flags[..3][..2] == flags[..2] && flags[..2][..1] == flags[..1] && flags[..1][..0] == [];
    assert Raised(flags[..1]) == (if flags[0] then 1 else 0);
    assert Raised(flags[..2]) == Raised(flags[..1]) + (if flags[1] then 1 else 0);
    assert Raised(flags[..3]) == Raised(flags[..2]) + (if flags[2] then 1 else 0);
    assert Raised(flags) == Raised(flags[..3]) + (if flags[3] then 1 else 0);
  }

  /**
   * Each session event that fires sets exactly one more flag, so at most
   * four fire per trade date.
   */
  lemma {:induction false} FiringRaisesOne(flags: seq<bool>, k: nat)
    requires k < |flags| && !flags[k]
    ensures Raised(flags[k := true]) == Raised(flags) + 1
  {
    var n := |flags| - 1;
    assert flags[k := true][..n] == if k == n then flags[..n] else flags[..n][k := true];
    if k < n {
      FiringRaisesOne(flags[..n], k);
    }
  }

  /**
   * Before 09:15 on a fresh trade date the session index is 3, so the first
   * poll of the day fires MorningOpen before the market opens.
   */
  lemma EarlyMorningFiresOpen(n: DateTime, prev: Option<int>)
    requires prev != Some(n.day)
    requires 0 <= n.time <= HourMinute(9, 15)
    ensures SessionIndex(n, n.day) == 3
    ensures LowestUnset(ResetFlags([true, true, true, true], prev, n), SessionIndex(n, n.day)) == Some(0)
  {
  }
}
