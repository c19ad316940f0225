// The stop-loss / take-profit risk rule: sell a whole available position as
// soon as its profit reaches the take-profit mark or falls to a stop-loss mark.
module StopLostProfit {
  import opened Wrappers
  import opened Quote
  import opened TradeComm

  /** The thresholds; `profitRate` is configurable but no check reads it. */
  datatype StopLostProfit = StopLostProfit(profit: Option<real>, profitRate: Option<real>, lost: Option<real>, lostRate: Option<real>)

  /** `Default`: 20% take-profit rate and 3% stop-loss rate, no absolute marks. */
  function Default(): (s: StopLostProfit)
    ensures s.profit.None? && s.lost.None?
    ensures s.profitRate == Some(0.2) && s.lostRate == Some(0.03)
  {
    StopLostProfit(None, Some(0.2), None, Some(0.03))
  }

  /** Why a signal was raised, with the numbers its description prints. */
  datatype Reason = TakeProfit(threshold: real, profit: real) | StopLoss(threshold: real, profit: real) | StopLossRate(rate: real, profitRate: real)

  /**
   * `get_price`: the fourth bid level's price (a fast exit), the last price
   * when that level is empty (at most 0.0001), 0.0 for a code without a quote.
   */
  function GetPrice(quots: map<string, Quot>, code: string): (price: real)
    ensures code !in quots ==> price == 0.0
    ensures code in quots && quots[code].bid[3].1 > 0.0001 ==> price == quots[code].bid[3].1
    ensures code in quots && quots[code].bid[3].1 <= 0.0001 ==> price == quots[code].now
  {
    if code in quots then
      var price := quots[code].bid[3].1;
      if price <= 0.0001 then quots[code].now else price
    else 0.0
  }

  /** `get_signal`: sell the whole available volume of the position at `price`. */
  function GetSignal(p: Position, price: real, why: Reason): (s: Signal<Reason>)
    ensures s.typ == Sell && s.source == Risk("StopLostProfit")
    ensures s.code == p.code && s.name == p.name && s.volume == p.volumeAvailable
    ensures s.price == price && s.desc == why
  {
    Signal(Sell, Risk("StopLostProfit"), p.code, p.name, price, p.volumeAvailable, why)
  }

  predicate ProfitHit(s: StopLostProfit, p: Position) { s.profit.Some? && p.profit >= s.profit.value }
  predicate LostHit(s: StopLostProfit, p: Position) { s.lost.Some? && p.profit <= s.lost.value }
  predicate LostRateHit(s: StopLostProfit, p: Position) { s.lostRate.Some? && p.profitRate <= s.lostRate.value }

  /**
   * The decision of `on_risk` for one position: at most one signal, raised
   * iff one of the three checks matches, and the first matching check (take
   * profit, then stop loss, then stop-loss rate) gives the reason.
   */
  function Decide(s: StopLostProfit, p: Position, quots: map<string, Quot>): (r: Option<Signal<Reason>>)
    ensures r.Some? <==> ProfitHit(s, p) || LostHit(s, p) || LostRateHit(s, p)
    ensures r.Some? ==>
      r.value.typ == Sell && r.value.code == p.code && r.value.volume == p.volumeAvailable
      && r.value.price == GetPrice(quots, p.code)
    ensures ProfitHit(s, p) ==> r.value.desc.TakeProfit?
    ensures !ProfitHit(s, p) && LostHit(s, p) ==> r.value.desc.StopLoss?
    ensures !ProfitHit(s, p) && !LostHit(s, p) && LostRateHit(s, p) ==> r.value.desc.StopLossRate?
  {
    var price := GetPrice(quots, p.code);
    if ProfitHit(s, p) then Some(GetSignal(p, price, TakeProfit(s.profit.value, p.profit)))
    else if LostHit(s, p) then Some(GetSignal(p, price, StopLoss(s.lost.value, p.profit)))
    else if LostRateHit(s, p) then Some(GetSignal(p, price, StopLossRate(s.lostRate.value, p.profitRate)))
    else None
  }

  /** The take-profit rate never changes a decision. */
  lemma ProfitRateIgnored(s: StopLostProfit, rate: Option<real>, p: Position, quots: map<string, Quot>)
    ensures Decide(s.(profitRate := rate), p, quots) == Decide(s, p, quots)
  {
  }

  /** The signals the positions raise, in position order. */
  function Signals(s: StopLostProfit, positions: seq<Position>, quots: map<string, Quot>): seq<Signal<Reason>>
  {
    if positions == [] then []
    else
      var init := positions[..|positions| - 1];
      var last := Decide(s, positions[|positions| - 1], quots);
      Signals(s, init, quots) + (if last.Some? then [last.value] else [])
  }

  /** Every signal sells the available volume of some position, at most one per position. */
  lemma {:induction false} SignalsSellPositions(s: StopLostProfit, positions: seq<Position>, quots: map<string, Quot>)
    ensures |Signals(s, positions, quots)| <= |positions|
    ensures forall g :: g in Signals(s, positions, quots) ==>
      g.typ == Sell && exists i :: 0 <= i < |positions| && g.code == positions[i].code && g.volume == positions[i].volumeAvailable
  {
    if positions != [] {
      var init := positions[..|positions| - 1];
      SignalsSellPositions(s, init, quots);
      forall g | g in Signals(s, positions, quots)
        ensures exists i :: 0 <= i < |positions| && g.code == positions[i].code && g.volume == positions[i].volumeAvailable
      {
        if g in Signals(s, init, quots) {
          var i :| 0 <= i < |init| && g.code == init[i].code && g.volume == init[i].volumeAvailable;
          assert positions[i] == init[i];
        }
      }
    }
  }

  /** The index of the first signal whose sell fails. */
  function FirstFailure<E>(sigs: seq<Signal<Reason>>, sell: Signal<Reason> -> Result<(), E>): (k: Option<nat>)
    ensures k.Some? ==> k.value < |sigs| && sell(sigs[k.value]).Err? && forall j :: 0 <= j < k.value ==> sell(sigs[j]).Ok?
    ensures k.None? ==> forall j :: 0 <= j < |sigs| ==> sell(sigs[j]).Ok?
  {
    if sigs == [] then None
    else if sell(sigs[0]).Err? then Some(0)
    else
      var k := FirstFailure(sigs[1..], sell);
      if k.Some? then Some(k.value + 1) else None
  }

  /**
   * `on_risk` over the account's positions (in the order the account map
   * yields them): each raised signal goes to `sell` (the context's sell), and
   * the first failing sell ends the round with its error. `sent` lists the
   * signals handed to `sell`.
   */
  method OnRisk<E>(s: StopLostProfit, positions: seq<Position>, quots: map<string, Quot>, sell: Signal<Reason> -> Result<(), E>)
    returns (r: Result<(), E>, sent: seq<Signal<Reason>>)
    ensures var all := Signals(s, positions, quots); var k := FirstFailure(all, sell);
      && (k.None? ==> r.Ok? && sent == all)
      && (k.Some? ==> r == sell(all[k.value]) && sent == all[..k.value + 1])
  {
    sent := [];
    var i := 0;
    while i < |positions|
      invariant SentSoFar(s, positions, quots, sell, i, sent)
    {
      ghost var sent0 := sent;
      var signal := Decide(s, positions[i], quots);
      if signal.Some? {
        sent := sent + [signal.value];
        var res := sell(signal.value);
        if res.Err? {
          SentFailed(s, positions, quots, sell, i, sent0, signal, sent);
          return res, sent;
        }
      }
      SentNext(s, positions, quots, sell, i, sent0, signal, sent);
      i := i + 1;
    }
    SentAll(s, positions, quots, sell, sent);
    return Ok(()), sent;
  }

  /** The loop state of `on_risk` after i positions: every signal so far was sold. */
  ghost predicate SentSoFar<E>(s: StopLostProfit, positions: seq<Position>, quots: map<string, Quot>,
    sell: Signal<Reason> -> Result<(), E>, i: nat, sent: seq<Signal<Reason>>)
  {
    && i <= |positions|
    && sent == Signals(s, positions[..i], quots)
    && forall j :: 0 <= j < |sent| ==> sell(sent[j]).Ok?
  }

  lemma SentNext<E>(s: StopLostProfit, positions: seq<Position>, quots: map<string, Quot>,
    sell: Signal<Reason> -> Result<(), E>, i: nat, sent: seq<Signal<Reason>>,
    signal: Option<Signal<Reason>>, sent': seq<Signal<Reason>>)
    requires SentSoFar(s, positions, quots, sell, i, sent) && i < |positions|
    requires signal == Decide(s, positions[i], quots)
    requires sent' == if signal.Some? then sent + [signal.value] else sent
    requires signal.Some? ==> sell(signal.value).Ok?
    ensures SentSoFar(s, positions, quots, sell, i + 1, sent')
  {
    assert positions[..i + 1][..i] == positions[..i];
  }

  lemma SentFailed<E>(s: StopLostProfit, positions: seq<Position>, quots: map<string, Quot>,
    sell: Signal<Reason> -> Result<(), E>, i: nat, sent: seq<Signal<Reason>>,
    signal: Option<Signal<Reason>>, sent': seq<Signal<Reason>>)
    requires SentSoFar(s, positions, quots, sell, i, sent) && i < |positions|
    requires signal == Decide(s, positions[i], quots) && signal.Some? && sell(signal.value).Err?
    requires sent' == sent + [signal.value]
    ensures var all := Signals(s, positions, quots); var k := FirstFailure(all, sell);
      k.Some? && all[k.value] == signal.value && sent' == all[..k.value + 1]
  {
    assert positions[..i + 1][..i] == positions[..i];
    SignalsPrefix(s, positions, quots, i + 1);
    var all := Signals(s, positions, quots);
    assert sent' == all[..|sent'|];
    FirstFailureAt(all, sell, |sent|);
  }

  lemma SentAll<E>(s: StopLostProfit, positions: seq<Position>, quots: map<string, Quot>,
    sell: Signal<Reason> -> Result<(), E>, sent: seq<Signal<Reason>>)
    requires SentSoFar(s, positions, quots, sell, |positions|, sent)
    ensures sent == Signals(s, positions, quots) && FirstFailure(sent, sell).None?
  {
    assert positions[..|positions|] == positions;
    FirstFailureNone(sent, sell);
  }

  lemma {:induction false} SignalsPrefix(s: StopLostProfit, positions: seq<Position>, quots: map<string, Quot>, n: nat)
    requires n <= |positions|
    ensures Signals(s, positions[..n], quots) <= Signals(s, positions, quots)
    decreases |positions| - n
  {
    if n < |positions| {
      SignalsPrefix(s, positions, quots, n + 1);
      assert positions[..n + 1][..n] == positions[..n];
    } else {
      assert positions[..n] == positions;
    }
  }

  lemma {:induction false} FirstFailureAt<E>(sigs: seq<Signal<Reason>>, sell: Signal<Reason> -> Result<(), E>, k: nat)
    requires k < |sigs| && sell(sigs[k]).Err? && forall j :: 0 <= j < k ==> sell(sigs[j]).Ok?
    ensures FirstFailure(sigs, sell) == Some(k)
  {
    if k > 0 {
      FirstFailureAt(sigs[1..], sell, k - 1);
    }
  }

  lemma FirstFailureNone<E>(sigs: seq<Signal<Reason>>, sell: Signal<Reason> -> Result<(), E>)
    requires forall j :: 0 <= j < |sigs| ==> sell(sigs[j]).Ok?
    ensures FirstFailure(sigs, sell).None?
  {
  }
}
