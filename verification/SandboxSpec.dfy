/**
 What each step of the sandbox executor does to its record, as functions on values.
 A step that raises an error yields Err; the store then keeps the record it had.
 */
module SandboxSpec {
  import opened Wrappers
  import opened SandboxTypes
  import opened Totals

  /** The record before anything happened, under any policy. */
  function InitialState(policy: Policy): State {
    State(false, None, true, None, None, None, [], [], map[], {}, policy, 0, 0, None)
  }

  /** Stops new entries and remembers why. */
  function Halted(s: State, reason: Halt): State {
    s.(haltReason := Some(reason), armed := false)
  }

  predicate TradeOpenIn(ts: seq<Trade>, id: TradeId) {
    exists t :: t in ts && t.id == id && !Closed(t)
  }

  predicate HasTrade(ts: seq<Trade>, id: TradeId) {
    exists t :: t in ts && t.id == id
  }

  predicate TradeClosedIn(ts: seq<Trade>, id: TradeId) {
    exists t :: t in ts && t.id == id && Closed(t)
  }

  predicate AnyOpen(ts: seq<Trade>) {
    exists t :: t in ts && !Closed(t)
  }

  predicate AnyWorking(os: seq<Order>) {
    exists o :: o in os && Working(o)
  }

  /** The first order of a trade with the given kind, or the number of orders when there is none. */
  function FirstOf(os: seq<Order>, t: TradeId, k: Kind): (i: nat)
    ensures i <= |os|
    ensures i < |os| ==> os[i].id.trade == t && os[i].id.kind == k
    ensures forall j :: 0 <= j < i ==> !(os[j].id.trade == t && os[j].id.kind == k)
  {
    if os == [] then 0
    else if os[0].id.trade == t && os[0].id.kind == k then 0
    else 1 + FirstOf(os[1..], t, k)
  }

  /** A new QUEUED order for a trade, numbered after the orders of its kind. */
  function NewOrder(os: seq<Order>, t: TradeId, k: Kind, quantity: int, price: int, trigger: int): Order {
    var n := Total(Placed(k), t, os);
    Order(OrderId(t, k, if n < 0 then 0 else n), quantity, price, trigger, Queued, None, 0, 0, NoCancel, None, false,
      None, 0)
  }

  // Realised results.

  /** Sum of the results of the trades that closed on a day; bought selects only those that filled. */
  function DayPnl(ts: seq<Trade>, day: int, bought: bool): int {
    if ts == [] then 0 else
      var t := ts[|ts| - 1];
      DayPnl(ts[..|ts| - 1], day, bought) +
      if Closed(t) && Day(t.closedAt.value) == day && (bought ==> t.buys > 0) then t.netPnl else 0
  }

  /** Sum of the results of the closed trades that OPENED on a day. */
  function OpenedDayPnl(ts: seq<Trade>, day: int): int {
    if ts == [] then 0 else
      var t := ts[|ts| - 1];
      OpenedDayPnl(ts[..|ts| - 1], day) + if Closed(t) && t.id.day == day then t.netPnl else 0
  }

  function ClosedPnl(ts: seq<Trade>): int {
    if ts == [] then 0 else
      var t := ts[|ts| - 1];
      ClosedPnl(ts[..|ts| - 1]) + if Closed(t) && t.buys > 0 then t.netPnl else 0
  }

  function OpenedOn(ts: seq<Trade>, day: int): nat {
    if ts == [] then 0 else
      OpenedOn(ts[..|ts| - 1], day) + if ts[|ts| - 1].id.day == day then 1 else 0
  }

  /** Today's filled and closed trades, by closing time; trades that closed together keep their order. */
  function ByClose(ts: seq<Trade>, day: int): seq<Trade> {
    if ts == [] then [] else
      var t, rest := ts[|ts| - 1], ByClose(ts[..|ts| - 1], day);
      if Closed(t) && t.buys > 0 && Day(t.closedAt.value) == day then InsertByClose(rest, t) else rest
  }

  function InsertByClose(sorted: seq<Trade>, t: Trade): seq<Trade>
    requires Closed(t)
  {
    if sorted == [] then [t]
    else
      var last := sorted[|sorted| - 1];
      if Closed(last) && last.closedAt.value > t.closedAt.value
      then InsertByClose(sorted[..|sorted| - 1], t) + [last]
      else sorted + [t]
  }

  /** How many of the last trades in the list lost money, counted back to the latest that did not. */
  function LosingTail(sorted: seq<Trade>): nat {
    if sorted == [] || sorted[|sorted| - 1].netPnl >= 0 then 0
    else 1 + LosingTail(sorted[..|sorted| - 1])
  }

  function LosingStreak(s: State, now: int): nat {
    LosingTail(ByClose(s.trades, Day(now)))
  }

  // Owner commands.

  predicate RequestChar(c: char) {
    'a' <= c <= 'z' || 'A' <= c <= 'Z' || '0' <= c <= '9' || c == '_' || c == '-'
  }

  predicate ValidRequest(requestId: string) {
    16 <= |requestId| <= 100 && forall i :: 0 <= i < |requestId| ==> RequestChar(requestId[i])
  }

  function ExitAll(ts: seq<Trade>, reason: ExitReason): seq<Trade> {
    seq(|ts|, i requires 0 <= i < |ts| => if Closed(ts[i]) then ts[i] else ts[i].(exitReason := Some(reason)))
  }

  predicate Reconciled(s: State, now: int) {
    s.reconciledAt.Some? && now - s.reconciledAt.value <= FRESH_MS && s.reconciledAt.value <= now
  }

  function Control(s: State, operation: Operation, requestId: string, now: int): Result<State, Error> {
    if !ValidRequest(requestId) then Err(InvalidRequest)
    else if requestId in s.commands then
      if s.commands[requestId] == ControlCommand(operation) then Ok(s) else Err(RequestIdReused)
    else
      var done :=
        match operation
        case StopOperation => Ok(s.(killed := true, armed := false, trades := ExitAll(s.trades, KillSwitch)))
        case ArmOperation =>
          if |s.commands| >= 1000 then Err(CommandLimit)
          else if !Reconciled(s, now) then Err(FreshReconciliationRequired)
          else if AnyWorking(s.orders) || AnyOpen(s.trades) then Err(FlatAccountRequired)
          else Ok(s.(killed := false, haltReason := None, armed := true, armedDay := Some(Day(now))));
      match done
      case Err(e) => Err(e)
      case Ok(s') => Ok(if |s'.commands| < 1000
        then s'.(commands := s'.commands[requestId := ControlCommand(operation)]) else s')
  }

  function ConfigurePolicy(s: State, dailyLoss: int, perTradeRisk: Option<int>, maxLosses: Option<int>,
                           requestId: string, now: int): Result<State, Error> {
    var command := PolicyCommand(dailyLoss, perTradeRisk, maxLosses);
    if !ValidRequest(requestId) || !(0 < dailyLoss <= 100000)
       || (perTradeRisk.Some? && !(0 < perTradeRisk.value <= dailyLoss && s.policy.costReserve < perTradeRisk.value))
       || (maxLosses.Some? && !(1 <= maxLosses.value <= 5)) then Err(InvalidRequest)
    else if requestId in s.commands then
      if s.commands[requestId] == command then Ok(s) else Err(RequestIdReused)
    else if !s.killed || s.armed || AnyOpen(s.trades) || AnyWorking(s.orders) then Err(StopFirst)
    else if |s.commands| >= 1000 then Err(CommandLimit)
    else
      var risk := if perTradeRisk.Some? then perTradeRisk.value else Min(s.policy.perTradeRisk, dailyLoss);
      var streak := if maxLosses.Some? then maxLosses.value else s.policy.maxConsecutiveLosses;
      var policy := s.policy.(dailyLoss := dailyLoss, perTradeRisk := risk, maxConsecutiveLosses := streak);
      var locked := if DayPnl(s.trades, Day(now), false) <= -dailyLoss then s.lockedDays + {Day(now)} else s.lockedDays;
      Ok(s.(policy := policy, lockedDays := locked, commands := s.commands[requestId := command]))
  }

  /** 15:30 IST on a day, the instant an owner-resolved trade is booked at. */
  function SessionClose(day: int): int {
    day * DAY_MS - IST_OFFSET + 55800000
  }

  function ExpireTrade(os: seq<Order>, t: TradeId): seq<Order> {
    seq(|os|, i requires 0 <= i < |os| =>
      if os[i].id.trade == t && Working(os[i]) then os[i].(state := Expired, cancelState := NoCancel) else os[i])
  }

  function TradeIndex(ts: seq<Trade>, id: TradeId): (i: nat)
    ensures i <= |ts|
    ensures i < |ts| ==> ts[i].id == id
    ensures forall j :: 0 <= j < i ==> ts[j].id != id
  {
    if ts == [] then 0 else if ts[0].id == id then 0 else 1 + TradeIndex(ts[1..], id)
  }

  function NetResult(t: Trade, os: seq<Order>): int {
    if Total(Bought, t.id, os) != 0
    then Total(Received, t.id, os) - Total(Spent, t.id, os) - t.costReserve
    else 0
  }

  /** Blank characters and line ends, as trimming a string removes them. */
  predicate Blank(c: char) {
    c in {' ', '\t', '\n', '\r'}
      || c as int in {0x0B, 0x0C, 0xA0, 0x1680, 0x2028, 0x2029, 0x202F, 0x205F, 0x3000, 0xFEFF}
    || 0x2000 <= c as int <= 0x200A
  }

  /** The length of a text without the blanks around it. */
  function TrimmedLength(text: string): nat
    decreases |text|
  {
    if text == "" then 0
    else if Blank(text[0]) then TrimmedLength(text[1..])
    else if Blank(text[|text| - 1]) then TrimmedLength(text[..|text| - 1])
    else |text|
  }

  function ResolveTrade(s: State, id: TradeId, reason: string, requestId: string, now: int): Result<State, Error> {
    var i := TradeIndex(s.trades, id);
    if !ValidRequest(requestId) || i == |s.trades| || TrimmedLength(reason) < 3 || |reason| > 200
      then Err(InvalidRequest)
    else if requestId in s.commands then
      if s.commands[requestId] == ResolveCommand(id, reason) then Ok(s) else Err(RequestIdReused)
    else if !s.killed || s.armed then Err(StopFirst)
    else if Closed(s.trades[i]) then Err(TradeAlreadyClosed)
    else if !(id.day < Day(now)) then Err(OnlyPriorDayTrades)
    else if |s.commands| >= 1000 then Err(CommandLimit)
    else
      var t := s.trades[i];
      var t' := t.(closedAt := Some(SessionClose(id.day)), buys := Total(Bought, id, s.orders),
                   netPnl := NetResult(t, s.orders),
                   exitReason := if t.exitReason.None? then Some(OwnerResolved) else t.exitReason,
                   resolved := true);
      Ok(s.(orders := ExpireTrade(s.orders, id), trades := s.trades[i := t'],
            commands := s.commands[requestId := ResolveCommand(id, reason)]))
  }

  function RequestModelExit(s: State, id: TradeId, now: int): State {
    var i := TradeIndex(s.trades, id);
    if i == |s.trades| || Closed(s.trades[i]) || id.day != Day(now) || s.trades[i].exitReason.Some? then s
    else s.(trades := s.trades[i := s.trades[i].(exitReason := Some(ModelExit))])
  }

  // A new process takes over.

  function Interrupted(o: Order): Order {
    o.(state := if o.state == Submitting then Uncertain else o.state,
       cancelState := if o.cancelState == CancelSubmitting then CancelUncertain else o.cancelState)
  }

  function InterruptAll(os: seq<Order>): seq<Order> {
    seq(|os|, i requires 0 <= i < |os| => Interrupted(os[i]))
  }

  function Recover(s: State, bootId: string): State {
    if s.bootId == Some(bootId) then s
    else s.(bootId := Some(bootId), armed := false, killed := true, reconciledAt := None,
            orders := InterruptAll(s.orders), trades := ExitAll(s.trades, Restart))
  }

  // Planning an entry.

  datatype Pick = Pick(signal: Signal, stop: int, target: int, deadline: Option<int>, breakoutId: Option<string>)

  // analysisAt is None when the timestamp is unreadable; pick is None when no candidate qualifies.
  datatype Decision = Decision(analysisAt: Option<int>, marketOpen: bool, pick: Option<Pick>)

  // matchesLeg: underlying, expiry, option type and strike are those of the picked leg.
  datatype Meta = Meta(instrument: string, matchesLeg: bool, session: int, lotSize: int, tick: int)

  datatype EntryPlan = EntryPlan(price: int, stopLimit: int, risk: int)

  datatype PlanResult =
    | PlanQueued | Disarmed | ReconciliationStale | EntryWindowClosed | StaleDecision | NoCandidate
    | InstrumentMetadataRequired | FreshQuoteRequired | SpreadTooWide | ExecutableExitPlanRequired
    | DailyLossLock | LosingStreakLock | ExposureAlreadyExists | StateCapacityLimit | DailyTradeLimit
    | RiskLimit | CapitalLimit | SignalAlreadyConsumed | BreakoutAlreadyConsumed

  function CeilTo(x: int, tick: int): int
    requires tick > 0
  {
    (x + tick - 1) / tick * tick
  }

  function FloorTo(x: int, tick: int): int
    requires tick > 0
  {
    x / tick * tick
  }

  /** The stop's own limit: the stop less the larger of one tick and half a percent of it, rounded down to a tick. */
  function StopLimit(stop: int, tick: int): int
    requires tick > 0
  {
    (200 * stop - Max(200 * tick, stop)) / (200 * tick) * tick
  }

  predicate FreshQuote(q: Option<Quote>, now: int) {
    q.Some? && q.value.receivedAt <= now && now - q.value.receivedAt <= FRESH_MS
    && q.value.bid > 0 && q.value.ask > 0 && q.value.ask >= q.value.bid
  }

  predicate MetaUsable(meta: Option<Meta>, pick: Pick, now: int) {
    meta.Some? && meta.value.instrument == pick.signal.instrument && meta.value.matchesLeg
    && meta.value.session == Day(now) && 0 < meta.value.lotSize <= 100000 && meta.value.tick > 0
  }

  function PricesOf(s: State, pick: Pick, meta: Meta, quote: Quote): EntryPlan
    requires meta.tick > 0
  {
    var price := CeilTo(quote.ask, meta.tick);
    var stopLimit := StopLimit(pick.stop, meta.tick);
    EntryPlan(price, stopLimit, (price - stopLimit) * meta.lotSize + s.policy.costReserve)
  }

  /** Why an entry is refused, or PlanQueued when nothing stands in its way. */
  function PlanVerdict(s: State, d: Decision, quote: Option<Quote>, meta: Option<Meta>, now: int): PlanResult {
    if !s.armed || s.killed || s.haltReason.Some? || s.armedDay != Some(Day(now)) then Disarmed
    else if !Reconciled(s, now) then ReconciliationStale
    else if Minutes(now) < 570 || Minutes(now) >= 900 || !d.marketOpen then EntryWindowClosed
    else if d.analysisAt.None? || d.analysisAt.value > now || now - d.analysisAt.value > 60000 then StaleDecision
    else if d.pick.None? then NoCandidate
    else if !MetaUsable(meta, d.pick.value, now) then InstrumentMetadataRequired
    else if !FreshQuote(quote, now) then FreshQuoteRequired
    else if 40 * (quote.value.ask - quote.value.bid) > quote.value.ask then SpreadTooWide
    else PlanBudget(s, d.pick.value, PricesOf(s, d.pick.value, meta.value, quote.value), meta.value, now)
  }

  function PlanBudget(s: State, pick: Pick, plan: EntryPlan, meta: Meta, now: int): PlanResult
  {
    var pnlToday := DayPnl(s.trades, Day(now), true);
    var totalPnl := ClosedPnl(s.trades) + s.archivedPnl;
    if pick.stop <= 0 || pick.target <= 0 || pick.stop >= plan.price || pick.target <= plan.price || plan.stopLimit <= 0
      then ExecutableExitPlanRequired
    else if Day(now) in s.lockedDays || pnlToday <= -s.policy.dailyLoss then DailyLossLock
    else if LosingStreak(s, now) >= s.policy.maxConsecutiveLosses then LosingStreakLock
    else if AnyOpen(s.trades) || AnyWorking(s.orders) then ExposureAlreadyExists
    else if |s.orders| >= 500 || |s.trades| >= 100 then StateCapacityLimit
    else if OpenedOn(s.trades, Day(now)) >= s.policy.maxTradesPerDay then DailyTradeLimit
    else if plan.risk > s.policy.perTradeRisk || plan.risk > s.policy.dailyLoss - Max(0, -pnlToday) then RiskLimit
    else if plan.price * meta.lotSize + s.policy.costReserve > Max(0, s.policy.capital + Min(0, totalPnl))
      then CapitalLimit
    else if HasTrade(s.trades, TradeId(Day(now), pick.signal)) then SignalAlreadyConsumed
    else if pick.breakoutId.Some? && exists t :: t in s.trades && t.breakoutId == pick.breakoutId
      then BreakoutAlreadyConsumed
    else PlanQueued
  }

  function PlannedTrade(s: State, pick: Pick, plan: EntryPlan, meta: Meta, now: int): Trade {
    Trade(TradeId(Day(now), pick.signal), now,
          if pick.deadline.Some? then Min(now + ENTRY_TTL_MS, pick.deadline.value) else now + ENTRY_TTL_MS,
          meta.tick, meta.lotSize, pick.stop, plan.stopLimit, pick.target, plan.risk, s.policy.costReserve,
          pick.breakoutId, None, None, 0, 0, false)
  }

  function PlanEntry(s: State, d: Decision, quote: Option<Quote>, meta: Option<Meta>, now: int): (State, PlanResult) {
    var verdict := PlanVerdict(s, d, quote, meta, now);
    if verdict != PlanQueued then (s, verdict)
    else
      var plan := PricesOf(s, d.pick.value, meta.value, quote.value);
      var t := PlannedTrade(s, d.pick.value, plan, meta.value, now);
      (s.(trades := s.trades + [t],
          orders := s.orders + [NewOrder(s.orders, t.id, EntryKind, t.quantity, plan.price, 0)]), PlanQueued)
  }

  // Reconciling with the broker's order book.

  predicate UniqueRowIds(book: seq<BookRow>) {
    forall i, j :: 0 <= i < j < |book| ==> book[i].orderId != book[j].orderId
  }

  predicate ValidBook(book: seq<BookRow>) {
    UniqueRowIds(book) && forall b :: b in book ==> b.orderId != ""
  }

  predicate Concerns(b: BookRow, o: Order) {
    if o.brokerId.Some? then b.orderId == o.brokerId.value else b.tag == Some(o.id)
  }

  function RowsFor(o: Order, book: seq<BookRow>): seq<BookRow> {
    if book == [] then [] else
      var rest := RowsFor(o, book[..|book| - 1]);
      if Concerns(book[|book| - 1], o) then rest + [book[|book| - 1]] else rest
  }

  predicate RowMatches(b: BookRow, o: Order) {
    b.tag == Some(o.id) && b.instrument == Instrument(o.id.trade) && b.quantity == o.quantity && b.buy == IsBuy(o)
    && b.intraday && b.stopOrder == o.id.kind.StopKind? && b.price == o.price && b.trigger == o.trigger
    && o.filled <= b.filled <= o.quantity && (b.filled > 0 ==> b.average > 0)
  }

  function StateFromRow(b: BookRow): Option<OrderState> {
    match b.status
    case RowComplete => if b.filled == b.quantity then Some(Complete) else None
    case RowCancelled => Some(Cancelled)
    case RowRejected => if b.filled == 0 then Some(Rejected) else None
    case RowWorking => Some(if b.filled != 0 then Partial else Open)
    case RowUnknown => None
  }

  datatype Judgement = Skip | Unmatched | Judged(order: Order, exhausted: bool) | Failed(error: Error)

  function JudgeOrder(o: Order, tradeClosed: bool, book: seq<BookRow>, now: int): Judgement {
    if o.state == Queued || o.state == Expired then Skip
    else if Terminal(o) && tradeClosed then Skip
    else
      var rows := RowsFor(o, book);
      if |rows| != 1 then Unmatched
      else if !RowMatches(rows[0], o) then Failed(BrokerOrderMismatch)
      else
        match StateFromRow(rows[0])
        case None => Failed(UnknownBrokerOrderStatus)
        case Some(state) =>
          if Terminal(o) && o.state != state then Failed(BrokerStatusRegression)
          else Adopt(o, rows[0], state, now)
  }

  function Adopt(o: Order, b: BookRow, state: OrderState, now: int): Judgement {
    var o' := o.(brokerId := Some(b.orderId), filled := b.filled, average := if b.filled != 0 then b.average else 0,
      state := state);
    if Terminal(o') then Judged(o'.(cancelState := NoCancel), false)
    else if o.cancelState != NoCancel && o.cancelStartedAt.Some?
      && now - o.cancelStartedAt.value >= CANCEL_RETRY_MS then
      if o.cancelAttempts < 3 then Judged(o'.(cancelState := NoCancel), false) else Judged(o', true)
    else Judged(o', false)
  }

  function ReconcileOrder(s: State, i: nat, book: seq<BookRow>, now: int, derived: bool): Result<State, Error>
    requires i < |s.orders|
  {
    match JudgeOrder(s.orders[i], TradeClosedIn(s.trades, s.orders[i].id.trade), book, now)
    case Skip => Ok(s)
    case Unmatched => if derived then Err(OrderUnreconciled) else Ok(Halted(s, OrderReconciliationRequired))
    case Failed(e) => Err(e)
    case Judged(o, exhausted) =>
      var s' := s.(orders := s.orders[i := o]);
      Ok(if exhausted then Halted(s', CancellationNotConfirmed) else s')
  }

  function ReconcileOrders(s: State, i: nat, book: seq<BookRow>, now: int, derived: bool): (r: Result<State, Error>)
    requires i <= |s.orders|
    ensures r.Ok? ==> |r.value.orders| == |s.orders|
    decreases |s.orders| - i
  {
    if i == |s.orders| then Ok(s)
    else
      var s' :- ReconcileOrder(s, i, book, now, derived);
      ReconcileOrders(s', i + 1, book, now, derived)
  }

  predicate Owned(b: BookRow, os: seq<Order>) {
    exists o :: o in os && o.brokerId == Some(b.orderId)
  }

  predicate AllTerminal(os: seq<Order>, t: TradeId) {
    forall o :: o in os && o.id.trade == t ==> Terminal(o)
  }

  function Close(s: State, i: nat, now: int): State
    requires i < |s.trades|
  {
    var t := s.trades[i];
    var t' := t.(closedAt := Some(now), buys := Total(Bought, t.id, s.orders), netPnl := NetResult(t, s.orders));
    var s' := s.(trades := s.trades[i := t']);
    if DayPnl(s'.trades, Day(now), false) <= -s.policy.dailyLoss then s'.(lockedDays := s'.lockedDays + {Day(now)})
      else s'
  }

  function ReconcileTrade(s: State, i: nat, now: int): Result<State, Error>
    requires i < |s.trades|
  {
    var t := s.trades[i];
    if Net(t.id, s.orders) < 0 then Err(OversellDetected)
    else if !t.resolved && !Closed(t) && AllTerminal(s.orders, t.id) && Net(t.id, s.orders) == 0
      then Ok(Close(s, i, now))
    else Ok(s)
  }

  function ReconcileTrades(s: State, i: nat, now: int): (r: Result<State, Error>)
    requires i <= |s.trades|
    ensures r.Ok? ==> |r.value.trades| == |s.trades| && r.value.orders == s.orders
    decreases |s.trades| - i
  {
    if i == |s.trades| then Ok(s)
    else
      var s' :- ReconcileTrade(s, i, now);
      ReconcileTrades(s', i + 1, now)
  }

  /** What the record says is held of an instrument. */
  function Expected(ts: seq<Trade>, os: seq<Order>, instrument: string): int {
    if ts == [] then 0 else
      var t := ts[|ts| - 1];
      Expected(ts[..|ts| - 1], os, instrument) +
      if !t.resolved && Instrument(t.id) == instrument then Net(t.id, os) else 0
  }

  /** What the broker says is held of an instrument. */
  function Held(ps: seq<Position>, instrument: string): int {
    if ps == [] then 0 else
      var p := ps[|ps| - 1];
      Held(ps[..|ps| - 1], instrument) + if p.instrument == instrument then p.quantity else 0
  }

  predicate PositionsAgree(s: State, ps: seq<Position>) {
    && (forall t :: t in s.trades && !t.resolved ==>
          Expected(s.trades, s.orders, Instrument(t.id)) == Held(ps, Instrument(t.id)))
    && (forall p :: p in ps ==> Expected(s.trades, s.orders, p.instrument) == Held(ps, p.instrument))
  }

  predicate RowFinished(b: BookRow) {
    b.status in {RowComplete, RowCancelled, RowRejected}
  }

  predicate PriorDayOpen(s: State, now: int) {
    exists t :: t in s.trades && !Closed(t) && t.id.day != Day(now)
  }

  /** positions is None when the broker has no positions to read; the book alone then has to explain every order. */
  function Reconcile(s: State, book: seq<BookRow>, positions: Option<seq<Position>>, now: int): Result<State, Error> {
    var derived := positions.None?;
    if derived && PriorDayOpen(s, now) then Err(PriorDayExposureUnverified)
    else if !ValidBook(book) then Err(InvalidBrokerBook)
    else
      var s1 :- ReconcileOrders(s, 0, book, now, derived);
      if derived && exists b :: b in book && !Owned(b, s1.orders) then Err(UnmanagedSandboxOrder)
      else if exists b :: b in book && !Owned(b, s1.orders) && !RowFinished(b) then Err(UnmanagedPendingOrder)
      else
        var s2 :- ReconcileTrades(s1, 0, now);
        if !derived && exists p :: p in positions.value && !p.intraday then Err(InvalidBrokerPosition)
        else if !derived && !PositionsAgree(s2, positions.value) then Err(BrokerPositionMismatch)
        else Ok(s2.(reconciledAt := Some(now)))
  }

  // Managing the open trade.

  function WithReason(t: Trade, condition: bool, reason: ExitReason): Trade {
    if condition && t.exitReason.None? then t.(exitReason := Some(reason)) else t
  }

  /** Freezes a filled or out-of-time entry so that what was bought can be protected. */
  function FreezeEntry(o: Order, t: Trade, now: int): Order {
    if Working(o) && (o.filled > 0 || now >= t.entryExpiresAt) then o.(wantCancel := true) else o
  }

  /** While a trade is leaving, its entry and stop are withdrawn; a stop only while there is a quote to exit on. */
  function Withdraw(o: Order, t: TradeId, live: bool): Order {
    if o.id.trade != t || o.id.kind.ExitKind? || Terminal(o) then o
    else if o.state == Queued then o.(state := Expired)
    else if o.id.kind.EntryKind? || live then o.(wantCancel := true)
    else o
  }

  function WithdrawAll(os: seq<Order>, t: TradeId, live: bool): seq<Order> {
    seq(|os|, i requires 0 <= i < |os| => Withdraw(os[i], t, live))
  }

  /** An exit that has not filled in time is cancelled so that the next one can be priced afresh. */
  function ChaseExit(o: Order, t: TradeId, now: int): Order {
    if o.id.trade == t && o.id.kind.ExitKind? && Working(o) && o.submittedAt.Some?
      && now - o.submittedAt.value >= CANCEL_RETRY_MS
    then o.(wantCancel := true) else o
  }

  function ChaseExits(os: seq<Order>, t: TradeId, now: int): seq<Order> {
    seq(|os|, i requires 0 <= i < |os| => ChaseExit(os[i], t, now))
  }

  predicate GuardsWorking(os: seq<Order>, t: TradeId) {
    exists o :: o in os && o.id.trade == t && !o.id.kind.ExitKind? && Working(o)
  }

  predicate ExitWorking(os: seq<Order>, t: TradeId) {
    exists o :: o in os && o.id.trade == t && o.id.kind.ExitKind? && Working(o)
  }

  /** Marks the position to the bid: a breached loss limit, stop or target asks for an exit. */
  function MarkToMarket(s: State, t: Trade, q: Quote, now: int): (Trade, set<int>) {
    var net := Net(t.id, s.orders);
    var marked := q.bid * net + Total(Received, t.id, s.orders) - Total(Spent, t.id, s.orders) - t.costReserve;
    var lost := OpenedDayPnl(s.trades, Day(now)) + marked <= -s.policy.dailyLoss;
    var t1 := WithReason(t, lost, DailyLossExit);
    var t2 := WithReason(t1, q.bid <= t.stop, StopBreached);
    (WithReason(t2, q.bid >= t.target, TargetReached), if lost then s.lockedDays + {Day(now)} else s.lockedDays)
  }

  /** Leaving: withdraw the entry and the stop, and once both are finished sell what is held. */
  function Leave(s: State, t: Trade, live: bool, bid: int, now: int): State
    requires t.tickSize > 0
  {
    var net := Net(t.id, s.orders);
    var s1 := s.(orders := WithdrawAll(s.orders, t.id, live));
    if GuardsWorking(s1.orders, t.id) then s1
    else if net > 0 && live && !ExitWorking(s1.orders, t.id) && Total(Placed(ExitKind), t.id, s1.orders) >= 3
      then Halted(s1, ExitAttemptsExhausted)
    else
      // The exits to chase are those that were there before; a new one was not sent yet.
      var s2 := s1.(orders := ChaseExits(s1.orders, t.id, now));
      if net > 0 && live && !ExitWorking(s1.orders, t.id) && FloorTo(bid, t.tickSize) > 0
      then s2.(orders := s2.orders + [NewOrder(s1.orders, t.id, ExitKind, net, FloorTo(bid, t.tickSize), 0)])
      else s2
  }

  /** Staying: once the entry is finished, what was bought gets its protective stop. */
  function Protect(s: State, t: Trade, now: int): State {
    var net := Net(t.id, s.orders);
    var entry, stop := FirstOf(s.orders, t.id, EntryKind), FirstOf(s.orders, t.id, StopKind);
    var s1 := s.(orders := ChaseExits(s.orders, t.id, now));
    if entry < |s.orders| && Terminal(s.orders[entry]) && net > 0 && stop == |s.orders|
    then s1.(orders := s1.orders + [NewOrder(s.orders, t.id, StopKind, net, t.stopLimit, t.stop)])
    else s1
  }

  /** The trade's reason to leave before any quote is looked at. */
  function Reasoned(s: State, t: Trade, now: int): Trade {
    WithReason(t, s.killed || t.id.day != Day(now) || Minutes(now) >= 915, if s.killed then KillSwitch else TimeExit)
  }

  /** Freezes the entry, and halts when a position has no usable quote. */
  function Freeze(s: State, t: Trade, e: nat, live: bool, now: int): State
    requires e < |s.orders|
  {
    var frozen := s.(orders := s.orders[e := FreezeEntry(s.orders[e], t, now)]);
    if !live && Net(t.id, s.orders) > 0 then Halted(frozen, PositionQuoteStale) else frozen
  }

  /** The trade with every reason to leave that the quote and its stop give, and the days locked by the loss limit. */
  function Review(s: State, t: Trade, quote: Option<Quote>, now: int): (Trade, set<int>) {
    var live, net, k := FreshQuote(quote, now), Net(t.id, s.orders), FirstOf(s.orders, t.id, StopKind);
    var (t2, locked) := if live && net > 0 then MarkToMarket(s, t, quote.value, now) else (t, s.lockedDays);
    var t3 := WithReason(t2, k < |s.orders| && s.orders[k].state == Rejected, ProtectiveStopRejected);
    (WithReason(t3, k < |s.orders| && Terminal(s.orders[k]) && net > 0, ProtectiveStopEnded), locked)
  }

  predicate EntryLapsed(s: State, t: Trade, e: nat, now: int)
    requires e < |s.orders|
  {
    s.orders[e].state == Queued && (t.exitReason.Some? || now >= t.entryExpiresAt)
  }

  /** Everything up to the decision whether to leave or to stay. */
  function Prepare(s: State, i: nat, t: Trade, e: nat, quote: Option<Quote>, now: int): State
    requires i < |s.trades| && e < |s.orders|
  {
    var s1 := Freeze(s, t, e, FreshQuote(quote, now), now);
    var (t', locked) := Review(s1, t, quote, now);
    s1.(trades := s1.trades[i := t'], lockedDays := locked)
  }

  function Act(s: State, t: Trade, quote: Option<Quote>, now: int): State
    requires t.tickSize > 0
  {
    var live := FreshQuote(quote, now);
    if t.exitReason.Some? then Leave(s, t, live, if live then quote.value.bid else 0, now) else Protect(s, t, now)
  }

  function ManageTrade(s: State, i: nat, quote: Option<Quote>, now: int): State
    requires i < |s.trades|
    requires !Closed(s.trades[i]) ==>
      s.trades[i].tickSize > 0 && FirstOf(s.orders, s.trades[i].id, EntryKind) < |s.orders|
  {
    if Closed(s.trades[i]) then s
    else
      var e := FirstOf(s.orders, s.trades[i].id, EntryKind);
      var t := Reasoned(s, s.trades[i], now);
      if EntryLapsed(s, t, e, now)
      then s.(trades := s.trades[i := t], orders := s.orders[e := s.orders[e].(state := Expired)])
      else
        var s1 := Prepare(s, i, t, e, quote, now);
        Act(s1, s1.trades[i], quote, now)
  }

  /** Every open trade has the entry it was planned with, and a positive tick. */
  predicate Manageable(s: State) {
    forall t :: t in s.trades && !Closed(t) ==> t.tickSize > 0 && FirstOf(s.orders, t.id, EntryKind) < |s.orders|
  }

  function QuoteFor(quotes: map<string, Quote>, id: TradeId): Option<Quote> {
    if Instrument(id) in quotes then Some(quotes[Instrument(id)]) else None
  }

  // Sending and cancelling.

  predicate InFlight(o: Order) {
    o.state in {Submitting, Uncertain} || o.cancelState in {CancelSubmitting, CancelUncertain}
  }

  predicate CancelDue(o: Order) {
    o.wantCancel && o.brokerId.Some? && Working(o) && o.cancelState == NoCancel
  }

  function FirstCancelDue(os: seq<Order>): (i: nat)
    ensures i <= |os|
    ensures i < |os| ==> CancelDue(os[i])
    ensures forall j :: 0 <= j < i ==> !CancelDue(os[j])
  {
    if os == [] || CancelDue(os[0]) then 0 else 1 + FirstCancelDue(os[1..])
  }

  function FirstQueued(os: seq<Order>, k: Kind): (i: nat)
    ensures i <= |os|
    ensures i < |os| ==> os[i].state == Queued && os[i].id.kind == k
    ensures forall j :: 0 <= j < i ==> !(os[j].state == Queued && os[j].id.kind == k)
  {
    if os == [] || (os[0].state == Queued && os[0].id.kind == k) then 0 else 1 + FirstQueued(os[1..], k)
  }

  function BeginCancel(o: Order, now: int): Order {
    o.(cancelState := CancelSubmitting, cancelStartedAt := Some(now), cancelAttempts := o.cancelAttempts + 1)
  }

  function BeginSubmit(o: Order, now: int): Order {
    o.(state := Submitting, submittedAt := Some(now))
  }

  predicate EntriesHaveTrades(s: State) {
    forall o :: o in s.orders && o.id.kind.EntryKind? ==> TradeIndex(s.trades, o.id.trade) < |s.trades|
  }

  /** Everything the planner required is asked again just before an entry may be sent. */
  predicate EntryBlocked(s: State, o: Order, now: int, allowed: bool)
    requires TradeIndex(s.trades, o.id.trade) < |s.trades|
  {
    !allowed || !s.armed || s.killed || s.haltReason.Some? || Minutes(now) < 570 || Minutes(now) >= 900
    || now >= s.trades[TradeIndex(s.trades, o.id.trade)].entryExpiresAt
  }

  predicate Sendable(s: State, o: Order, now: int, allowed: bool)
    requires o.id.kind.EntryKind? ==> TradeIndex(s.trades, o.id.trade) < |s.trades|
  {
    o.state == Queued && o.id.kind.EntryKind? && !EntryBlocked(s, o, now, allowed)
  }

  function FirstSendable(s: State, os: seq<Order>, now: int, allowed: bool): (i: nat)
    requires forall o :: o in os && o.id.kind.EntryKind? ==> TradeIndex(s.trades, o.id.trade) < |s.trades|
    ensures i <= |os|
    ensures i < |os| ==> Sendable(s, os[i], now, allowed)
    ensures forall j :: 0 <= j < i ==> !Sendable(s, os[j], now, allowed)
  {
    if os == [] || Sendable(s, os[0], now, allowed) then 0 else 1 + FirstSendable(s, os[1..], now, allowed)
  }

  /** The queued entries among the first i orders expire. */
  function LapseBefore(os: seq<Order>, i: nat): seq<Order> {
    seq(|os|, k requires 0 <= k < |os| =>
      if k < i && os[k].state == Queued && os[k].id.kind.EntryKind? then os[k].(state := Expired) else os[k])
  }

  /** The queued entries in turn: a blocked one expires, the first that is not is sent. */
  function ClaimEntry(s: State, now: int, allowed: bool): (State, Option<Action>)
    requires EntriesHaveTrades(s)
  {
    var i := FirstSendable(s, s.orders, now, allowed);
    var os := LapseBefore(s.orders, i);
    if i == |os| then (s.(orders := os), None)
    else (s.(orders := os[i := BeginSubmit(os[i], now)]), Some(Action(PlaceAction, BeginSubmit(os[i], now))))
  }

  function Claim(s: State, now: int, allowed: bool): (State, Option<Action>)
    requires EntriesHaveTrades(s)
  {
    var c, stop, exit := FirstCancelDue(s.orders), FirstQueued(s.orders, StopKind), FirstQueued(s.orders, ExitKind);
    if s.reconciledAt.None? || now - s.reconciledAt.value > FRESH_MS then (s, None)
    else if exists o :: o in s.orders && InFlight(o) then (s, None)
    else if c < |s.orders| then
      (s.(orders := s.orders[c := BeginCancel(s.orders[c], now)]),
        Some(Action(CancelAction, BeginCancel(s.orders[c], now))))
    else if stop < |s.orders| then
      (s.(orders := s.orders[stop := BeginSubmit(s.orders[stop], now)]),
        Some(Action(PlaceAction, BeginSubmit(s.orders[stop], now))))
    else if exit < |s.orders| then
      (s.(orders := s.orders[exit := BeginSubmit(s.orders[exit], now)]),
        Some(Action(PlaceAction, BeginSubmit(s.orders[exit], now))))
    else ClaimEntry(s, now, allowed)
  }

  function OrderIndex(os: seq<Order>, id: OrderId): (i: nat)
    ensures i <= |os|
    ensures i < |os| ==> os[i].id == id
    ensures forall j :: 0 <= j < i ==> os[j].id != id
  {
    if os == [] || os[0].id == id then 0 else 1 + OrderIndex(os[1..], id)
  }

  function Finish(s: State, a: Action, reply: Reply): Result<State, Error> {
    var i := OrderIndex(s.orders, a.order.id);
    if i == |s.orders| then Err(UnknownOrder)
    else
      var o := s.orders[i];
      match a.kind
      case CancelAction =>
        if o.cancelState != CancelSubmitting then Err(InvalidTransition)
        else
          var c :=
            match reply
            case AckReply(_) => CancelAcknowledged
            case RejectReply => CancelRejected
            case LostReply => CancelUncertain;
          var s' := s.(orders := s.orders[i := o.(cancelState := c)]);
          Ok(if c != CancelAcknowledged then Halted(s', CancelReconciliationRequired) else s')
      case PlaceAction =>
        if o.state != Submitting then Err(InvalidTransition)
        else
          match reply
          case AckReply(Some(id)) => Ok(s.(orders := s.orders[i := o.(state := Acknowledged, brokerId := Some(id))]))
          case RejectReply => Ok(s.(orders := s.orders[i := o.(state := Rejected)]))
          case _ => Ok(Halted(s.(orders := s.orders[i := o.(state := Uncertain)]), SubmitReconciliationRequired))
  }

  predicate EmergencyDue(o: Order, now: int) {
    o.id.kind.EntryKind? && o.brokerId.Some? && Working(o) && o.cancelAttempts < 3
    && (o.cancelStartedAt.None? || now - o.cancelStartedAt.value >= CANCEL_RETRY_MS)
  }

  function FirstEmergency(os: seq<Order>, now: int): (i: nat)
    ensures i <= |os|
    ensures i < |os| ==> EmergencyDue(os[i], now)
    ensures forall j :: 0 <= j < i ==> !EmergencyDue(os[j], now)
  {
    if os == [] || EmergencyDue(os[0], now) then 0 else 1 + FirstEmergency(os[1..], now)
  }

  function ClaimEmergencyCancel(s: State, now: int): (State, Option<Action>) {
    var i := FirstEmergency(s.orders, now);
    if (!s.killed && s.haltReason.None?) || i == |s.orders| then (s, None)
    else (s.(orders := s.orders[i := BeginCancel(s.orders[i], now)]),
      Some(Action(CancelAction, BeginCancel(s.orders[i], now))))
  }

  // Archiving.

  datatype ArchiveRow = ArchiveRow(trade: Trade, orders: seq<Order>)

  function OrdersOf(t: TradeId, os: seq<Order>): seq<Order> {
    if os == [] then [] else
      var rest := OrdersOf(t, os[..|os| - 1]);
      var o := os[|os| - 1];
      if o.id.trade == t then rest + [o] else rest
  }

  function DropTrade(ts: seq<Trade>, id: TradeId): seq<Trade> {
    if ts == [] then [] else
      var rest := DropTrade(ts[..|ts| - 1], id);
      if ts[|ts| - 1].id == id then rest else rest + [ts[|ts| - 1]]
  }

  predicate Archivable(s: State, t: Trade, now: int) {
    Closed(t) && t.id.day < Day(now) && AllTerminal(s.orders, t.id)
  }

  function ArchiveOne(s: State, t: Trade): State {
    s.(archivedPnl := s.archivedPnl + (if t.buys > 0 then t.netPnl else 0), archivedTrades := s.archivedTrades + 1,
       orders := Without(t.id, s.orders), trades := DropTrade(s.trades, t.id))
  }

  /** Moves closed trades of earlier days out of the record, at most max of them, oldest first. */
  function Archive(s: State, todo: seq<Trade>, max: nat, now: int): (State, seq<ArchiveRow>)
    decreases |todo|
  {
    if todo == [] || max == 0 then (s, [])
    else if !Archivable(s, todo[0], now) then Archive(s, todo[1..], max, now)
    else
      var (s', rows) := Archive(ArchiveOne(s, todo[0]), todo[1..], max - 1, now);
      (s', [ArchiveRow(todo[0], OrdersOf(todo[0].id, s.orders))] + rows)
  }

  // Managing keeps every trade but its exit reason, and keeps every order in its place.

  predicate SameButReasons(ts: seq<Trade>, us: seq<Trade>) {
    |ts| == |us| && forall i :: 0 <= i < |ts| ==> us[i] == ts[i].(exitReason := us[i].exitReason)
  }

  predicate SameIds(os: seq<Order>, ps: seq<Order>) {
    |os| <= |ps| && forall i :: 0 <= i < |os| ==> ps[i].id == os[i].id
  }

  lemma FirstOfKept(os: seq<Order>, ps: seq<Order>, t: TradeId, k: Kind)
    requires SameIds(os, ps) && FirstOf(os, t, k) < |os|
    ensures FirstOf(ps, t, k) == FirstOf(os, t, k)
  {
    var i, j := FirstOf(os, t, k), FirstOf(ps, t, k);
    assert ps[i].id == os[i].id;
  }

  lemma LeaveShape(s: State, t: Trade, live: bool, bid: int, now: int)
    requires t.tickSize > 0
    ensures Leave(s, t, live, bid, now).trades == s.trades
    ensures SameIds(s.orders, Leave(s, t, live, bid, now).orders)
  {
    var ws := WithdrawAll(s.orders, t.id, live);
    assert SameIds(s.orders, ws);
    assert SameIds(ws, ChaseExits(ws, t.id, now));
  }

  lemma ActShape(s: State, t: Trade, quote: Option<Quote>, now: int)
    requires t.tickSize > 0
    ensures Act(s, t, quote, now).trades == s.trades
    ensures SameIds(s.orders, Act(s, t, quote, now).orders)
  {
    hide Leave, Protect, SameIds;
    if t.exitReason.Some? {
      var live := FreshQuote(quote, now);
      LeaveShape(s, t, live, if live then quote.value.bid else 0, now);
    } else {
      ProtectShape(s, t, now);
    }
  }

  lemma ProtectShape(s: State, t: Trade, now: int)
    ensures Protect(s, t, now).trades == s.trades
    ensures SameIds(s.orders, Protect(s, t, now).orders)
  {
    hide Net, Total, NewOrder;
    assert SameIds(s.orders, ChaseExits(s.orders, t.id, now));
  }

  lemma ReviewKeepsTrade(s: State, t: Trade, quote: Option<Quote>, now: int)
    ensures var t' := Review(s, t, quote, now).0;
      t' == t.(exitReason := t'.exitReason) && (t.exitReason.Some? ==> t'.exitReason.Some?)
  {
  }

  lemma PrepareShape(s: State, i: nat, t: Trade, e: nat, quote: Option<Quote>, now: int)
    requires i < |s.trades| && e < |s.orders| && t == s.trades[i].(exitReason := t.exitReason)
    ensures SameButReasons(s.trades, Prepare(s, i, t, e, quote, now).trades)
    ensures SameIds(s.orders, Prepare(s, i, t, e, quote, now).orders)
  {
    ReviewKeepsTrade(Freeze(s, t, e, FreshQuote(quote, now), now), t, quote, now);
  }

  lemma ManageTradeShape(s: State, i: nat, quote: Option<Quote>, now: int)
    requires i < |s.trades|
    requires !Closed(s.trades[i]) ==>
      s.trades[i].tickSize > 0 && FirstOf(s.orders, s.trades[i].id, EntryKind) < |s.orders|
    ensures SameButReasons(s.trades, ManageTrade(s, i, quote, now).trades)
    ensures SameIds(s.orders, ManageTrade(s, i, quote, now).orders)
  {
    if !Closed(s.trades[i]) {
      var e := FirstOf(s.orders, s.trades[i].id, EntryKind);
      var t := Reasoned(s, s.trades[i], now);
      if !EntryLapsed(s, t, e, now) {
        PrepareShape(s, i, t, e, quote, now);
        var s1 := Prepare(s, i, t, e, quote, now);
        ActShape(s1, s1.trades[i], quote, now);
      }
    }
  }

  lemma ManageableKept(s: State, s': State)
    requires Manageable(s) && SameButReasons(s.trades, s'.trades) && SameIds(s.orders, s'.orders)
    ensures Manageable(s')
  {
    forall t' | t' in s'.trades && !Closed(t')
      ensures t'.tickSize > 0 && FirstOf(s'.orders, t'.id, EntryKind) < |s'.orders|
    {
      var i :| 0 <= i < |s'.trades| && s'.trades[i] == t';
      assert s.trades[i] in s.trades;
      FirstOfKept(s.orders, s'.orders, t'.id, EntryKind);
    }
  }

  function ManageAll(s: State, i: nat, quotes: map<string, Quote>, now: int): State
    requires i <= |s.trades| && Manageable(s)
    decreases |s.trades| - i
  {
    if i == |s.trades| then s
    else
      assert s.trades[i] in s.trades;
      var s' := ManageTrade(s, i, QuoteFor(quotes, s.trades[i].id), now);
      ManageTradeShape(s, i, QuoteFor(quotes, s.trades[i].id), now);
      ManageableKept(s, s');
      ManageAll(s', i + 1, quotes, now)
  }
}
