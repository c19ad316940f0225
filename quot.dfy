// The `Quotation` trait's two subscription implementations: the real-time
// one keeps an append-only code list, the backtest one ignores codes.
module QuotSub {
  import opened Wrappers
  import Quotation

  /** `RealtimeQuotation` of the trait module: only the subscribed codes. */
  class RealtimeQuotation {
    var codes: seq<string>

    /** `RealtimeQuotation::new`: nothing subscribed. */
    constructor ()
      ensures codes == []
    {
      codes := [];
    }

    /**
     * `subscribe`: the input codes not yet subscribed are appended in input
     * order (repeats inside one batch all appended); always Ok.
     */
    method Subscribe(input: seq<string>) returns (r: Result<(), string>)
      modifies this
      ensures r.Ok?
      ensures codes == old(codes) + Quotation.NewCodes(input, old(codes))
      ensures old(codes) <= codes && forall c :: c in input ==> c in codes
    {
      var added := [];
      var i := 0;
      while i < |input|
        invariant 0 <= i <= |input|
        invariant codes == old(codes)
        invariant added == Quotation.NewCodes(input[..i], codes)
      {
        assert input[..i + 1][..i] == input[..i];
        if input[i] !in codes {
          added := added + [input[i]];
        }
        i := i + 1;
      }
      assert input[..i] == input;
      if |added| > 0 {
        codes := codes + added;
      }
      Quotation.SubscribeCovers(input, old(codes));
      return Ok(());
    }
  }

  /** `BacktestQuotation`: stateless. */
  class BacktestQuotation {
    constructor ()
    {
    }

    /** `subscribe`: always Ok, and nothing changes. */
    method Subscribe(input: seq<string>) returns (r: Result<(), string>)
      ensures r.Ok?
    {
      return Ok(());
    }
  }
}
