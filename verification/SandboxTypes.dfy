/**
 The record kept by the sandbox executor: orders, trades and the switches around them.
 Money is in whole paise and time in whole milliseconds since the epoch.

 A hashed identity is modelled by the tuple that is hashed: a trade by its day and signal, an order by its trade,
 kind and sequence number. An order's broker tag is its identity.
 */
module SandboxTypes {
  import opened Wrappers

  datatype Signal = Signal(strategy: string, expiry: string, instrument: string, contract: string,
        identity: Option<string>)
  datatype TradeId = TradeId(day: int, signal: Signal)
  datatype Kind = EntryKind | StopKind | ExitKind
  datatype OrderId = OrderId(trade: TradeId, kind: Kind, seqNo: nat)

  datatype OrderState =
    | Queued | Submitting | Uncertain | Acknowledged | Open | Partial
    | Complete | Cancelled | Rejected | Expired

  datatype CancelState = NoCancel | CancelSubmitting | CancelUncertain | CancelAcknowledged | CancelRejected

  datatype Order = Order(
    id: OrderId,
    quantity: int,
    price: int,
    trigger: int,
    state: OrderState,
    brokerId: Option<string>,
    filled: int,
    average: int,
    cancelState: CancelState,
    submittedAt: Option<int>,
    wantCancel: bool,
    cancelStartedAt: Option<int>,
    cancelAttempts: nat)

  datatype ExitReason =
    | KillSwitch | Restart | TimeExit | DailyLossExit | StopBreached | TargetReached
    | ProtectiveStopRejected | ProtectiveStopEnded | ModelExit | OwnerResolved

  datatype Trade = Trade(
    id: TradeId,
    createdAt: int,
    entryExpiresAt: int,
    tickSize: int,
    quantity: int,
    stop: int,
    stopLimit: int,
    target: int,
    plannedRisk: int,
    costReserve: int,
    breakoutId: Option<string>,
    exitReason: Option<ExitReason>,
    closedAt: Option<int>,
    netPnl: int,
    buys: int,
    resolved: bool)

  datatype Policy = Policy(
    capital: int, perTradeRisk: int, dailyLoss: int, costReserve: int,
    maxTradesPerDay: int, maxConsecutiveLosses: int)

  datatype Halt =
    | OrderReconciliationRequired | CancellationNotConfirmed | PositionQuoteStale | ExitAttemptsExhausted
    | CancelReconciliationRequired | SubmitReconciliationRequired | ServiceError

  datatype Operation = StopOperation | ArmOperation
  datatype Command =
    | ControlCommand(operation: Operation)
    | PolicyCommand(dailyLoss: int, perTradeRisk: Option<int>, maxConsecutiveLosses: Option<int>)
    | ResolveCommand(trade: TradeId, reason: string)

  datatype Lease = Lease(owner: string, until: int)

  // Orders and trades are kept in the order they were added, as the source's string-keyed objects iterate.
  datatype State = State(
    armed: bool,
    armedDay: Option<int>,
    killed: bool,
    haltReason: Option<Halt>,
    bootId: Option<string>,
    reconciledAt: Option<int>,
    orders: seq<Order>,
    trades: seq<Trade>,
    commands: map<string, Command>,
    lockedDays: set<int>,
    policy: Policy,
    archivedPnl: int,
    archivedTrades: nat,
    lease: Option<Lease>)

  datatype RowStatus = RowComplete | RowCancelled | RowRejected | RowWorking | RowUnknown

  // One row of a broker's order book. A tag that is not one of ours is None.
  datatype BookRow = BookRow(
    orderId: string,
    tag: Option<OrderId>,
    instrument: string,
    quantity: int,
    buy: bool,
    intraday: bool,
    stopOrder: bool,
    price: int,
    trigger: int,
    filled: int,
    average: int,
    status: RowStatus)

  datatype Position = Position(instrument: string, quantity: int, intraday: bool)
  datatype Quote = Quote(bid: int, ask: int, receivedAt: int)

  datatype ActionKind = PlaceAction | CancelAction
  datatype Action = Action(kind: ActionKind, order: Order)

  // What a broker call reported back to the worker that made it.
  datatype Reply = AckReply(brokerId: Option<string>) | RejectReply | LostReply

  datatype Error =
    | BrokerReconciliationRequired | PriorDayExposureUnverified | InvalidBrokerBook | OrderUnreconciled
    | BrokerOrderMismatch | UnknownBrokerOrderStatus | BrokerStatusRegression | UnmanagedSandboxOrder
    | UnmanagedPendingOrder | OversellDetected | InvalidBrokerPosition | BrokerPositionMismatch
    | InvalidRequest | RequestIdReused | CommandLimit | FreshReconciliationRequired | FlatAccountRequired
    | StopFirst | TradeAlreadyClosed | OnlyPriorDayTrades | UnknownOrder | InvalidTransition | CorruptRecord
    | InvalidState | StorageFailed

  const DAY_MS := 86400000
  const IST_OFFSET := 19800000
  const FRESH_MS := 10000
  const CANCEL_RETRY_MS := 15000
  const ENTRY_TTL_MS := 15000
  const LEASE_MS := 30000

  /** The IST calendar day of an instant, counted from the epoch. */
  function Day(t: int): int {
    (t + IST_OFFSET) / DAY_MS
  }

  /** Minutes since IST midnight. */
  function Minutes(t: int): int {
    ((t + IST_OFFSET) % DAY_MS) / 60000
  }

  predicate Terminal(o: Order) {
    o.state in {Complete, Cancelled, Rejected, Expired}
  }

  predicate Working(o: Order) {
    !Terminal(o)
  }

  predicate Closed(t: Trade) {
    t.closedAt.Some?
  }

  predicate IsBuy(o: Order) {
    o.id.kind.EntryKind?
  }

  function Instrument(id: TradeId): string {
    id.signal.instrument
  }

  function Max(a: int, b: int): int {
    if a < b then b else a
  }

  function Min(a: int, b: int): int {
    if a < b then a else b
  }
}
