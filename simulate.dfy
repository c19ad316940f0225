// The simulated broker: every order is accepted at once and reported as fully
// dealt on a later poll, oldest first.
module SimulateBroker {
  import opened Wrappers
  import opened TradeComm

  /** The order as `on_entrust` first reports it: stamped with the broker id and committed. */
  function Committed(e: Entrust): (c: Entrust)
    ensures c.brokerEntrustId == Some(e.id) && c.status == Commit && c.time == DefaultTime
    ensures c.id == e.id && c.code == e.code && c.volume == e.volume && c.volumeDeal == e.volumeDeal && c.price == e.price
  {
    e.(brokerEntrustId := Some(e.id), time := DefaultTime, status := Commit)
  }

  /** The order as the queue keeps it: committed, then fully dealt. */
  function Dealt(e: Entrust): (d: Entrust)
    ensures d.status == Deal && d.volumeDeal == e.volume && d.brokerEntrustId == Some(e.id)
    ensures d.id == e.id && d.code == e.code && d.volume == e.volume && d.price == e.price && d.typ == e.typ
  {
    Committed(e).(status := Deal, volumeDeal := e.volume)
  }

  class Simulate {
    /** The dealt orders waiting to be reported, oldest first. */
    var entrust: seq<Entrust>

    /** `new`: nothing waiting. */
    constructor ()
      ensures entrust == []
    {
      entrust := [];
    }

    /**
     * `on_entrust`: emit the committed copy of the order; only when that
     * succeeds is the dealt copy queued at the back. `emit` is the context's
     * event emitter.
     */
    method OnEntrust<E>(e: Entrust, emit: seq<Entrust> -> Result<(), E>) returns (r: Result<(), E>)
      modifies this
      ensures r == emit([Committed(e)])
      ensures r.Ok? ==> entrust == old(entrust) + [Dealt(e)]
      ensures r.Err? ==> entrust == old(entrust)
    {
      var copy := e.(brokerEntrustId := Some(e.id));
      copy := copy.(time := DefaultTime);
      copy := copy.(status := Commit);
      r := emit([copy]);
      if r.Err? {
        return;
      }
      copy := copy.(status := Deal);
      copy := copy.(volumeDeal := copy.volume);
      entrust := entrust + [copy];
    }

    /**
     * `on_poll`: take the oldest order off the queue and emit it. The order is
     * removed before the emit, so a failing emit loses it. An empty queue
     * emits nothing. `emitted` is what was handed to `emit`.
     */
    method OnPoll<E>(emit: seq<Entrust> -> Result<(), E>) returns (r: Result<(), E>, emitted: Option<Entrust>)
      modifies this
      ensures old(entrust) == [] ==> r.Ok? && emitted.None? && entrust == []
      ensures old(entrust) != [] ==>
        emitted == Some(old(entrust)[0]) && entrust == old(entrust)[1..] && r == emit([old(entrust)[0]])
    {
      if |entrust| > 0 {
        var front := entrust[0];
        entrust := entrust[1..];
        emitted := Some(front);
        r := emit([front]);
      } else {
        emitted := None;
        r := Ok(());
      }
    }
  }
}
