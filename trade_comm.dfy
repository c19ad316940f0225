// The trading records exchanged between risk rules, brokers and the account.
module TradeComm {
  import opened Wrappers
  import opened Common

  datatype TradeType = Buy | Sell | Cancel

  datatype EntrustStatus = Init | Commit | Deal | PartDeal | Cancelled

  /** An order (entrust) as a broker sees it. */
  datatype Entrust = Entrust(
    id: string,
    code: string,
    name: string,
    time: DateTime,
    brokerEntrustId: Option<string>,
    typ: TradeType,
    status: EntrustStatus,
    price: real,
    volume: int,
    volumeDeal: int)

  /** The part of a held position the risk rules read. */
  datatype Position = Position(
    code: string,
    name: string,
    volume: int,
    volumeAvailable: int,
    profitRate: real,
    profit: real)

  /** Where a signal comes from; a risk rule names itself. */
  datatype SignalSource = Risk(rule: string) | Strategy | Broker | Manual

  /** A trading signal; `desc` says why it was raised. */
  datatype Signal<D> = Signal(typ: TradeType, source: SignalSource, code: string, name: string, price: real, volume: int, desc: D)

  /** chrono's default date-time, 1970-01-01 00:00:00, with day 0 as the epoch day. */
  const DefaultTime: DateTime := DateTime(0, 0)
}
