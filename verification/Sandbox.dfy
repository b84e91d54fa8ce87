/**
 The record as the executor changes it: fields updated in place, lists walked by loops.
 Each method is tied to the function on values that the safety results are about. A method that reports a fault may
 have changed the record already; the store then throws that copy away.
 */
module Sandboxes {
  import opened Wrappers
  import opened SandboxTypes
  import opened Totals
  import opened SandboxSpec

  datatype Outcome = Passed | Fault(error: Error)

  /** The method did to the record what the function says, or raised the error it says. */
  predicate Agrees(spec: Result<State, Error>, outcome: Outcome, after: State) {
    match spec
    case Ok(s) => outcome == Passed && after == s
    case Err(e) => outcome == Fault(e)
  }

  class Sandbox {
    var armed: bool
    var armedDay: Option<int>
    var killed: bool
    var haltReason: Option<SandboxTypes.Halt>
    var bootId: Option<string>
    var reconciledAt: Option<int>
    var orders: seq<Order>
    var trades: seq<Trade>
    var commands: map<string, Command>
    var lockedDays: set<int>
    var policy: Policy
    var archivedPnl: int
    var archivedTrades: nat
    var lease: Option<Lease>

    function View(): State
      reads this
    {
      State(armed, armedDay, killed, haltReason, bootId, reconciledAt, orders, trades, commands, lockedDays, policy,
            archivedPnl, archivedTrades, lease)
    }

    constructor (s: State)
      ensures View() == s
    {
      armed, armedDay, killed, haltReason, bootId := s.armed, s.armedDay, s.killed, s.haltReason, s.bootId;
      reconciledAt, orders, trades, commands := s.reconciledAt, s.orders, s.trades, s.commands;
      lockedDays, policy, archivedPnl, archivedTrades, lease := s.lockedDays, s.policy, s.archivedPnl,
        s.archivedTrades, s.lease;
    }

    method Halt(reason: SandboxTypes.Halt)
      modifies this
      ensures View() == Halted(old(View()), reason)
    {
      haltReason := Some(reason);
      armed := false;
    }

    // Owner commands.

    method Control(operation: Operation, requestId: string, now: int) returns (outcome: Outcome)
      modifies this
      ensures Agrees(SandboxSpec.Control(old(View()), operation, requestId, now), outcome, View())
      ensures outcome.Fault? ==> View() == old(View())
    {
      hide ValidRequest, Reconciled, AnyWorking, AnyOpen, ExitAll;
      if !ValidRequest(requestId) {
        return Fault(InvalidRequest);
      }
      if requestId in commands {
        return if commands[requestId] == ControlCommand(operation) then Passed else Fault(RequestIdReused);
      }
      match operation {
        case StopOperation =>
          killed := true;
          armed := false;
          GiveReasons(KillSwitch);
        case ArmOperation =>
          if |commands| >= 1000 {
            return Fault(CommandLimit);
          }
          if !Reconciled(View(), now) {
            return Fault(FreshReconciliationRequired);
          }
          if AnyWorking(orders) || AnyOpen(trades) {
            return Fault(FlatAccountRequired);
          }
          killed, haltReason, armed, armedDay := false, None, true, Some(Day(now));
      }
      if |commands| < 1000 {
        commands := commands[requestId := ControlCommand(operation)];
      }
      outcome := Passed;
    }

    /** Every open trade is to be left, for the reason given. */
    method GiveReasons(reason: ExitReason)
      modifies this
      ensures View() == old(View()).(trades := ExitAll(old(trades), reason))
    {
      var i := 0;
      while i < |trades|
        invariant i <= |trades| == |old(trades)|
        invariant View() == old(View()).(trades := trades)
        invariant forall k :: 0 <= k < i ==> trades[k] == ExitAll(old(trades), reason)[k]
        invariant forall k :: i <= k < |trades| ==> trades[k] == old(trades)[k]
      {
        if !Closed(trades[i]) {
          trades := trades[i := trades[i].(exitReason := Some(reason))];
        }
        i := i + 1;
      }
      assert trades == ExitAll(old(trades), reason);
    }

    method ConfigurePolicy(dailyLoss: int, perTradeRisk: Option<int>, maxLosses: Option<int>, requestId: string,
          now: int)
            returns (outcome: Outcome)
      modifies this
      ensures Agrees(SandboxSpec.ConfigurePolicy(old(View()), dailyLoss, perTradeRisk, maxLosses, requestId, now),
        outcome, View())
      ensures outcome.Fault? ==> View() == old(View())
    {
      var command := PolicyCommand(dailyLoss, perTradeRisk, maxLosses);
      if !ValidRequest(requestId) || !(0 < dailyLoss <= 100000)
         || (perTradeRisk.Some? && !(0 < perTradeRisk.value <= dailyLoss && policy.costReserve < perTradeRisk.value))
         || (maxLosses.Some? && !(1 <= maxLosses.value <= 5)) {
        return Fault(InvalidRequest);
      }
      if requestId in commands {
        return if commands[requestId] == command then Passed else Fault(RequestIdReused);
      }
      if !killed || armed || AnyOpen(trades) || AnyWorking(orders) {
        return Fault(StopFirst);
      }
      if |commands| >= 1000 {
        return Fault(CommandLimit);
      }
      policy := policy.(
        dailyLoss := dailyLoss,
        perTradeRisk := if perTradeRisk.Some? then perTradeRisk.value else Min(policy.perTradeRisk, dailyLoss),
        maxConsecutiveLosses := if maxLosses.Some? then maxLosses.value else policy.maxConsecutiveLosses);
      if DayPnl(trades, Day(now), false) <= -dailyLoss {
        lockedDays := lockedDays + {Day(now)};
      }
      commands := commands[requestId := command];
      outcome := Passed;
    }

    method ResolveTrade(id: TradeId, reason: string, requestId: string, now: int) returns (outcome: Outcome)
      modifies this
      ensures Agrees(SandboxSpec.ResolveTrade(old(View()), id, reason, requestId, now), outcome, View())
      ensures outcome.Fault? ==> View() == old(View())
    {
      var i := TradeIndex(trades, id);
      if !ValidRequest(requestId) || i == |trades| || TrimmedLength(reason) < 3 || |reason| > 200 {
        return Fault(InvalidRequest);
      }
      if requestId in commands {
        return if commands[requestId] == ResolveCommand(id, reason) then Passed else Fault(RequestIdReused);
      }
      if !killed || armed {
        return Fault(StopFirst);
      }
      if Closed(trades[i]) {
        return Fault(TradeAlreadyClosed);
      }
      if !(id.day < Day(now)) {
        return Fault(OnlyPriorDayTrades);
      }
      if |commands| >= 1000 {
        return Fault(CommandLimit);
      }
      var t := trades[i];
      var bought, result := Total(Bought, id, orders), NetResult(t, orders);
      ExpireOrders(id);
      trades := trades[i := t.(closedAt := Some(SessionClose(id.day)), buys := bought, netPnl := result,
                               exitReason := if t.exitReason.None? then Some(OwnerResolved) else t.exitReason,
                               resolved := true)];
      commands := commands[requestId := ResolveCommand(id, reason)];
      outcome := Passed;
    }

    method ExpireOrders(id: TradeId)
      modifies this
      ensures View() == old(View()).(orders := ExpireTrade(old(orders), id))
    {
      var i := 0;
      while i < |orders|
        invariant i <= |orders| == |old(orders)|
        invariant View() == old(View()).(orders := orders)
        invariant forall k :: 0 <= k < i ==> orders[k] == ExpireTrade(old(orders), id)[k]
        invariant forall k :: i <= k < |orders| ==> orders[k] == old(orders)[k]
      {
        if orders[i].id.trade == id && Working(orders[i]) {
          orders := orders[i := orders[i].(state := Expired, cancelState := NoCancel)];
        }
        i := i + 1;
      }
      assert orders == ExpireTrade(old(orders), id);
    }

    method RequestModelExit(id: TradeId, now: int)
      modifies this
      ensures View() == SandboxSpec.RequestModelExit(old(View()), id, now)
    {
      var i := TradeIndex(trades, id);
      if i == |trades| || Closed(trades[i]) || id.day != Day(now) {
        return;
      }
      if trades[i].exitReason.None? {
        trades := trades[i := trades[i].(exitReason := Some(ModelExit))];
      }
    }

    method Recover(boot: string)
      modifies this
      ensures View() == SandboxSpec.Recover(old(View()), boot)
    {
      if bootId == Some(boot) {
        return;
      }
      bootId, armed, killed, reconciledAt := Some(boot), false, true, None;
      Interrupt();
      GiveReasons(Restart);
    }

    /** A call that was being made when the process ended may or may not have landed. */
    method Interrupt()
      modifies this
      ensures View() == old(View()).(orders := InterruptAll(old(orders)))
    {
      var i := 0;
      while i < |orders|
        invariant i <= |orders| == |old(orders)|
        invariant View() == old(View()).(orders := orders)
        invariant forall k :: 0 <= k < i ==> orders[k] == Interrupted(old(orders)[k])
        invariant forall k :: i <= k < |orders| ==> orders[k] == old(orders)[k]
      {
        if orders[i].state == Submitting {
          orders := orders[i := orders[i].(state := Uncertain)];
        }
        if orders[i].cancelState == CancelSubmitting {
          orders := orders[i := orders[i].(cancelState := CancelUncertain)];
        }
        i := i + 1;
      }
      assert orders == InterruptAll(old(orders));
    }

    // Planning.

    method Streak(now: int) returns (streak: nat)
      ensures streak == LosingStreak(View(), now)
    {
      var today := ByClose(trades, Day(now));
      var i: nat := |today|;
      streak := 0;
      assert today[..i] == today;
      while i > 0 && today[i - 1].netPnl < 0
        invariant i <= |today|
        invariant streak + LosingTail(today[..i]) == LosingTail(today)
      {
        assert today[..i][..i - 1] == today[..i - 1];
        i := i - 1;
        streak := streak + 1;
      }
    }

    method PlanEntry(d: Decision, quote: Option<Quote>, meta: Option<Meta>, now: int) returns (result: PlanResult)
      modifies this
      ensures (View(), result) == SandboxSpec.PlanEntry(old(View()), d, quote, meta, now)
    {
      if !armed || killed || haltReason.Some? || armedDay != Some(Day(now)) {
        return Disarmed;
      }
      if !Reconciled(View(), now) {
        return ReconciliationStale;
      }
      if Minutes(now) < 570 || Minutes(now) >= 900 || !d.marketOpen {
        return EntryWindowClosed;
      }
      if d.analysisAt.None? || d.analysisAt.value > now || now - d.analysisAt.value > 60000 {
        return StaleDecision;
      }
      if d.pick.None? {
        return NoCandidate;
      }
      if !MetaUsable(meta, d.pick.value, now) {
        return InstrumentMetadataRequired;
      }
      if !FreshQuote(quote, now) {
        return FreshQuoteRequired;
      }
      if 40 * (quote.value.ask - quote.value.bid) > quote.value.ask {
        return SpreadTooWide;
      }
      var plan := PricesOf(View(), d.pick.value, meta.value, quote.value);
      result := Budget(d.pick.value, plan, meta.value, now);
      if result == PlanQueued {
        var t := PlannedTrade(View(), d.pick.value, plan, meta.value, now);
        trades := trades + [t];
        orders := orders + [NewOrder(orders, t.id, EntryKind, t.quantity, plan.price, 0)];
      }
    }

    /** Whether the plan fits every limit. */
    method Budget(pick: Pick, plan: EntryPlan, meta: Meta, now: int) returns (result: PlanResult)
      ensures result == PlanBudget(View(), pick, plan, meta, now)
    {
      hide DayPnl, ClosedPnl, LosingStreak, AnyOpen, AnyWorking, OpenedOn, HasTrade;
      if pick.stop <= 0 || pick.target <= 0 || pick.stop >= plan.price || pick.target <= plan.price
          || plan.stopLimit <= 0 {
        return ExecutableExitPlanRequired;
      }
      var pnlToday := DayPnl(trades, Day(now), true);
      var totalPnl := ClosedPnl(trades) + archivedPnl;
      var streak := Streak(now);
      if Day(now) in lockedDays || pnlToday <= -policy.dailyLoss {
        return DailyLossLock;
      }
      if streak >= policy.maxConsecutiveLosses {
        return LosingStreakLock;
      }
      if AnyOpen(trades) || AnyWorking(orders) {
        return ExposureAlreadyExists;
      }
      if |orders| >= 500 || |trades| >= 100 {
        return StateCapacityLimit;
      }
      if OpenedOn(trades, Day(now)) >= policy.maxTradesPerDay {
        return DailyTradeLimit;
      }
      if plan.risk > policy.perTradeRisk || plan.risk > policy.dailyLoss - Max(0, -pnlToday) {
        return RiskLimit;
      }
      if plan.price * meta.lotSize + policy.costReserve > Max(0, policy.capital + Min(0, totalPnl)) {
        return CapitalLimit;
      }
      if HasTrade(trades, TradeId(Day(now), pick.signal)) {
        return SignalAlreadyConsumed;
      }
      if pick.breakoutId.Some? && exists t :: t in trades && t.breakoutId == pick.breakoutId {
        return BreakoutAlreadyConsumed;
      }
      return PlanQueued;
    }

    // Reconciling.

    /** Book ids have to be there and to be distinct. */
    static method CheckBook(book: seq<BookRow>) returns (ok: bool)
      ensures ok == ValidBook(book)
    {
      var seen: set<string>, i := {}, 0;
      while i < |book|
        invariant i <= |book|
        invariant forall id :: id in seen <==> exists j :: 0 <= j < i && book[j].orderId == id
        invariant forall j, k :: 0 <= j < k < i ==> book[j].orderId != book[k].orderId
        invariant forall j :: 0 <= j < i ==> book[j].orderId != ""
      {
        if book[i].orderId == "" || book[i].orderId in seen {
          assert book[i] in book;
          return false;
        }
        seen := seen + {book[i].orderId};
        i := i + 1;
      }
      return true;
    }

    method HearOrder(i: nat, book: seq<BookRow>, now: int, derived: bool) returns (outcome: Outcome)
      requires i < |orders|
      modifies this
      ensures Agrees(ReconcileOrder(old(View()), i, book, now, derived), outcome, View())
      ensures |orders| == |old(orders)|
    {
      hide TradeClosedIn, RowsFor, RowMatches, StateFromRow, Terminal;
      var o := orders[i];
      if o.state == Queued || o.state == Expired {
        return Passed;
      }
      if Terminal(o) && TradeClosedIn(trades, o.id.trade) {
        return Passed;
      }
      var rows := RowsFor(o, book);
      if |rows| != 1 {
        if derived {
          return Fault(OrderUnreconciled);
        }
        Halt(OrderReconciliationRequired);
        return Passed;
      }
      var b := rows[0];
      if !RowMatches(b, o) {
        return Fault(BrokerOrderMismatch);
      }
      var state := StateFromRow(b);
      if state.None? {
        return Fault(UnknownBrokerOrderStatus);
      }
      if Terminal(o) && o.state != state.value {
        return Fault(BrokerStatusRegression);
      }
      o := o.(brokerId := Some(b.orderId), filled := b.filled, average := if b.filled != 0 then b.average else 0,
        state := state.value);
      if Terminal(o) {
        o := o.(cancelState := NoCancel);
      } else if o.cancelState != NoCancel && o.cancelStartedAt.Some?
          && now - o.cancelStartedAt.value >= CANCEL_RETRY_MS {
        if o.cancelAttempts < 3 {
          o := o.(cancelState := NoCancel);
        } else {
          Halt(CancellationNotConfirmed);
        }
      }
      orders := orders[i := o];
      outcome := Passed;
    }

    method HearOrders(book: seq<BookRow>, now: int, derived: bool) returns (outcome: Outcome)
      modifies this
      ensures Agrees(ReconcileOrders(old(View()), 0, book, now, derived), outcome, View())
    {
      var i := 0;
      while i < |orders|
        invariant i <= |orders|
        invariant ReconcileOrders(View(), i, book, now, derived) == ReconcileOrders(old(View()), 0, book, now, derived)
      {
        outcome := HearOrder(i, book, now, derived);
        if outcome.Fault? {
          return;
        }
        i := i + 1;
      }
      outcome := Passed;
    }

    /** Books the trade when all its orders are finished and nothing of it is held. */
    method SettleTrade(i: nat, now: int) returns (outcome: Outcome)
      requires i < |trades|
      modifies this
      ensures Agrees(ReconcileTrade(old(View()), i, now), outcome, View())
      ensures |trades| == |old(trades)|
    {
      var t := trades[i];
      if Net(t.id, orders) < 0 {
        return Fault(OversellDetected);
      }
      if !t.resolved && !Closed(t) && AllTerminal(orders, t.id) && Net(t.id, orders) == 0 {
        trades := trades[i :=
          t.(closedAt := Some(now), buys := Total(Bought, t.id, orders), netPnl := NetResult(t, orders))];
        if DayPnl(trades, Day(now), false) <= -policy.dailyLoss {
          lockedDays := lockedDays + {Day(now)};
        }
      }
      outcome := Passed;
    }

    method SettleTrades(now: int) returns (outcome: Outcome)
      modifies this
      ensures Agrees(ReconcileTrades(old(View()), 0, now), outcome, View())
    {
      var i := 0;
      while i < |trades|
        invariant i <= |trades|
        invariant ReconcileTrades(View(), i, now) == ReconcileTrades(old(View()), 0, now)
      {
        outcome := SettleTrade(i, now);
        if outcome.Fault? {
          return;
        }
        i := i + 1;
      }
      outcome := Passed;
    }

    method Reconcile(book: seq<BookRow>, positions: Option<seq<Position>>, now: int) returns (outcome: Outcome)
      modifies this
      ensures Agrees(SandboxSpec.Reconcile(old(View()), book, positions, now), outcome, View())
    {
      var derived := positions.None?;
      if derived && PriorDayOpen(View(), now) {
        return Fault(PriorDayExposureUnverified);
      }
      var valid := CheckBook(book);
      if !valid {
        return Fault(InvalidBrokerBook);
      }
      outcome := HearOrders(book, now, derived);
      if outcome.Fault? {
        return;
      }
      if derived && exists b :: b in book && !Owned(b, orders) {
        return Fault(UnmanagedSandboxOrder);
      }
      if exists b :: b in book && !Owned(b, orders) && !RowFinished(b) {
        return Fault(UnmanagedPendingOrder);
      }
      outcome := SettleTrades(now);
      if outcome.Fault? {
        return;
      }
      if !derived && exists p :: p in positions.value && !p.intraday {
        return Fault(InvalidBrokerPosition);
      }
      if !derived && !PositionsAgree(View(), positions.value) {
        return Fault(BrokerPositionMismatch);
      }
      reconciledAt := Some(now);
    }

    // Managing.

    method WithdrawGuards(id: TradeId, live: bool)
      modifies this
      ensures View() == old(View()).(orders := WithdrawAll(old(orders), id, live))
    {
      var i := 0;
      while i < |orders|
        invariant i <= |orders| == |old(orders)|
        invariant View() == old(View()).(orders := orders)
        invariant forall k :: 0 <= k < i ==> orders[k] == Withdraw(old(orders)[k], id, live)
        invariant forall k :: i <= k < |orders| ==> orders[k] == old(orders)[k]
      {
        if orders[i].id.trade == id && !orders[i].id.kind.ExitKind? && Working(orders[i]) {
          if orders[i].state == Queued {
            orders := orders[i := orders[i].(state := Expired)];
          } else if orders[i].id.kind.EntryKind? || live {
            orders := orders[i := orders[i].(wantCancel := true)];
          }
        }
        i := i + 1;
      }
      assert orders == WithdrawAll(old(orders), id, live);
    }

    /** Only the orders among the first upTo are looked at: an exit added just now was not sent yet. */
    method Chase(id: TradeId, upTo: nat, now: int)
      requires upTo <= |orders|
      modifies this
      ensures View() == old(View()).(orders := ChaseExits(old(orders)[..upTo], id, now) + old(orders)[upTo..])
    {
      var i := 0;
      while i < upTo
        invariant i <= upTo <= |orders| == |old(orders)|
        invariant View() == old(View()).(orders := orders)
        invariant forall k :: 0 <= k < i ==> orders[k] == ChaseExit(old(orders)[k], id, now)
        invariant forall k :: i <= k < |orders| ==> orders[k] == old(orders)[k]
      {
        var o := orders[i];
        if o.id.trade == id && o.id.kind.ExitKind? && Working(o) && o.submittedAt.Some?
            && now - o.submittedAt.value >= CANCEL_RETRY_MS {
          orders := orders[i := o.(wantCancel := true)];
        }
        i := i + 1;
      }
      assert orders[..upTo] == ChaseExits(old(orders)[..upTo], id, now);
      assert orders == orders[..upTo] + orders[upTo..];
    }

    method Leave(t: Trade, live: bool, bid: int, now: int)
      requires t.tickSize > 0
      modifies this
      ensures View() == SandboxSpec.Leave(old(View()), t, live, bid, now)
    {
      var net := Net(t.id, orders);
      var before := |orders|;
      WithdrawGuards(t.id, live);
      if GuardsWorking(orders, t.id) {
        return;
      }
      if net > 0 && live && !ExitWorking(orders, t.id) {
        if Total(Placed(ExitKind), t.id, orders) >= 3 {
          Halt(ExitAttemptsExhausted);
          return;
        }
        var price := FloorTo(bid, t.tickSize);
        if price > 0 {
          orders := orders + [NewOrder(orders, t.id, ExitKind, net, price, 0)];
        }
      }
      ghost var grown := orders;
      Chase(t.id, before, now);
      assert grown[..before] + grown[before..] == grown;
      assert grown[..before] == WithdrawAll(old(orders), t.id, live);
    }

    method Protect(t: Trade, now: int)
      modifies this
      ensures View() == SandboxSpec.Protect(old(View()), t, now)
    {
      var net, before := Net(t.id, orders), |orders|;
      var entry, stop := FirstOf(orders, t.id, EntryKind), FirstOf(orders, t.id, StopKind);
      if entry < |orders| && Terminal(orders[entry]) && net > 0 && stop == |orders| {
        orders := orders + [NewOrder(orders, t.id, StopKind, net, t.stopLimit, t.stop)];
      }
      ghost var grown := orders;
      Chase(t.id, before, now);
      assert grown[..before] == old(orders);
    }

    /** Marks the position to the bid, which may lock the day. */
    method Mark(t: Trade, quote: Quote, now: int) returns (marked: Trade)
      modifies this
      ensures (marked, lockedDays) == MarkToMarket(old(View()), t, quote, now)
      ensures View() == old(View()).(lockedDays := lockedDays)
    {
      hide OpenedDayPnl, Net, Total;
      var net := Net(t.id, orders);
      var result := quote.bid * net + Total(Received, t.id, orders) - Total(Spent, t.id, orders) - t.costReserve;
      marked := t;
      if OpenedDayPnl(trades, Day(now)) + result <= -policy.dailyLoss {
        marked := WithReason(marked, true, DailyLossExit);
        lockedDays := lockedDays + {Day(now)};
      }
      marked := WithReason(marked, quote.bid <= t.stop, StopBreached);
      marked := WithReason(marked, quote.bid >= t.target, TargetReached);
    }

    /** The quote and the protective stop may each give a reason to leave. */
    method LookAt(i: nat, quote: Option<Quote>, now: int)
      requires i < |trades|
      modifies this
      ensures var (t, locked) := Review(old(View()), old(trades)[i], quote, now);
        View() == old(View()).(trades := old(trades)[i := t], lockedDays := locked)
    {
      hide MarkToMarket, WithReason, Terminal, Net, Total, FirstOf;
      var t := trades[i];
      var net, k := Net(t.id, orders), FirstOf(orders, t.id, StopKind);
      if FreshQuote(quote, now) && net > 0 {
        t := Mark(t, quote.value, now);
      }
      t := WithReason(t, k < |orders| && orders[k].state == Rejected, ProtectiveStopRejected);
      t := WithReason(t, k < |orders| && Terminal(orders[k]) && net > 0, ProtectiveStopEnded);
      trades := trades[i := t];
    }

    method ManageTrade(i: nat, quote: Option<Quote>, now: int)
      requires i < |trades|
      requires !Closed(trades[i]) ==> trades[i].tickSize > 0 && FirstOf(orders, trades[i].id, EntryKind) < |orders|
      modifies this
      ensures View() == SandboxSpec.ManageTrade(old(View()), i, quote, now)
    {
      hide SandboxSpec.Prepare, SandboxSpec.Leave, SandboxSpec.Protect, Net, Total;
      if Closed(trades[i]) {
        return;
      }
      var e := FirstOf(orders, trades[i].id, EntryKind);
      var live := FreshQuote(quote, now);
      trades := trades[i := Reasoned(View(), trades[i], now)];
      if orders[e].state == Queued && (trades[i].exitReason.Some? || now >= trades[i].entryExpiresAt) {
        orders := orders[e := orders[e].(state := Expired)];
        return;
      }
      PrepareShape(View(), i, trades[i], e, quote, now);
      ReasonFirst(old(View()), i, trades[i], e, quote, now);
      PrepareTrade(i, e, quote, now);
      if trades[i].exitReason.Some? {
        Leave(trades[i], live, if live then quote.value.bid else 0, now);
      } else {
        Protect(trades[i], now);
      }
    }

    static lemma {:induction false} OpenTradePnl(ts: seq<Trade>, i: nat, t: Trade, day: int)
      requires i < |ts| && t == ts[i].(exitReason := t.exitReason)
      ensures OpenedDayPnl(ts[i := t], day) == OpenedDayPnl(ts, day)
    {
      var last := |ts| - 1;
      if i < last {
        assert ts[i := t][..last] == ts[..last][i := t];
        OpenTradePnl(ts[..last], i, t, day);
      } else {
        assert ts[i := t][..last] == ts[..last];
      }
    }

    /** Storing the trade's reason before looking at the quote changes nothing the look depends on. */
    static lemma ReasonFirst(s: State, i: nat, t: Trade, e: nat, quote: Option<Quote>, now: int)
      requires i < |s.trades| && e < |s.orders| && t == s.trades[i].(exitReason := t.exitReason)
      ensures Prepare(s.(trades := s.trades[i := t]), i, t, e, quote, now) == Prepare(s, i, t, e, quote, now)
    {
      hide Review, OpenedDayPnl, Net, Total, FreezeEntry;
      OpenTradePnl(s.trades, i, t, Day(now));
      var r := s.(trades := s.trades[i := t]);
      var frozen, frozen' := Freeze(s, t, e, FreshQuote(quote, now), now), Freeze(r, t, e, FreshQuote(quote, now), now);
      SameReview(frozen, frozen', t, quote, now);
      var u := Review(frozen, t, quote, now).0;
      assert s.trades[i := t][i := u] == s.trades[i := u];
    }

    static lemma SameReview(s: State, r: State, t: Trade, quote: Option<Quote>, now: int)
      requires r == s.(trades := r.trades) && OpenedDayPnl(r.trades, Day(now)) == OpenedDayPnl(s.trades, Day(now))
      ensures Review(r, t, quote, now) == Review(s, t, quote, now)
    {
      hide OpenedDayPnl, Net, Total, FirstOf;
    }

    /** Freezes the entry, halts on a stale quote, and looks for reasons to leave. */
    method PrepareTrade(i: nat, e: nat, quote: Option<Quote>, now: int)
      requires i < |trades| && e < |orders|
      modifies this
      ensures View() == Prepare(old(View()), i, old(trades)[i], e, quote, now)
    {
      var t := trades[i];
      if Working(orders[e]) && (orders[e].filled > 0 || now >= t.entryExpiresAt) {
        orders := orders[e := orders[e].(wantCancel := true)];
      }
      FrozenNet(old(orders), e, t, now);
      assert orders == old(orders)[e := FreezeEntry(old(orders)[e], t, now)];
      if !FreshQuote(quote, now) && Net(t.id, orders) > 0 {
        Halt(PositionQuoteStale);
      }
      LookAt(i, quote, now);
    }

    lemma FrozenNet(os: seq<Order>, e: nat, t: Trade, now: int)
      requires e < |os|
      ensures Net(t.id, os[e := FreezeEntry(os[e], t, now)]) == Net(t.id, os)
    {
      TotalUpdate(Bought, t.id, os, e, FreezeEntry(os[e], t, now));
      TotalUpdate(Sold, t.id, os, e, FreezeEntry(os[e], t, now));
    }

    method Manage(quotes: map<string, Quote>, now: int)
      requires Manageable(View())
      modifies this
      ensures View() == ManageAll(old(View()), 0, quotes, now)
    {
      var i := 0;
      while i < |trades|
        invariant i <= |trades| && Manageable(View())
        invariant ManageAll(View(), i, quotes, now) == ManageAll(old(View()), 0, quotes, now)
      {
        assert trades[i] in trades;
        var quote := QuoteFor(quotes, trades[i].id);
        ManageTradeShape(View(), i, quote, now);
        ManageableKept(View(), SandboxSpec.ManageTrade(View(), i, quote, now));
        ManageTrade(i, quote, now);
        i := i + 1;
      }
    }

    // Sending.

    method Claim(now: int, allowed: bool) returns (action: Option<Action>)
      requires EntriesHaveTrades(View())
      modifies this
      ensures (View(), action) == SandboxSpec.Claim(old(View()), now, allowed)
    {
      hide EntriesHaveTrades, InFlight, BeginCancel, BeginSubmit, CancelDue, FirstCancelDue, FirstQueued;
      hide SandboxSpec.ClaimEntry;
      if reconciledAt.None? || now - reconciledAt.value > FRESH_MS {
        return None;
      }
      if exists o :: o in orders && InFlight(o) {
        return None;
      }
      var i := 0;
      while i < |orders|
        invariant i <= |orders| && View() == old(View())
        invariant forall k :: 0 <= k < i ==> !CancelDue(orders[k])
      {
        if CancelDue(orders[i]) {
          orders := orders[i := BeginCancel(orders[i], now)];
          return Some(Action(CancelAction, orders[i]));
        }
        i := i + 1;
      }
      action := ClaimQueued(StopKind, now);
      if action.Some? {
        return;
      }
      action := ClaimQueued(ExitKind, now);
      if action.Some? {
        return;
      }
      action := ClaimEntry(now, allowed);
    }

    /** The queued orders by urgency: stops, then exits, then entries, each in the order they were added. */
    method ClaimQueued(kind: Kind, now: int) returns (action: Option<Action>)
      modifies this
      ensures var q := FirstQueued(old(orders), kind);
        if q == |old(orders)| then action == None && View() == old(View())
        else
          && action == Some(Action(PlaceAction, BeginSubmit(old(orders)[q], now)))
          && View() == old(View()).(orders := old(orders)[q := BeginSubmit(old(orders)[q], now)])
    {
      var i := 0;
      while i < |orders|
        invariant i <= |orders| && View() == old(View())
        invariant forall k :: 0 <= k < i ==> !(orders[k].state == Queued && orders[k].id.kind == kind)
      {
        if orders[i].state == Queued && orders[i].id.kind == kind {
          orders := orders[i := BeginSubmit(orders[i], now)];
          return Some(Action(PlaceAction, orders[i]));
        }
        i := i + 1;
      }
      action := None;
    }

    /** The entries in turn: a blocked one lapses, the first that is not is sent. */
    method ClaimEntry(now: int, allowed: bool) returns (action: Option<Action>)
      requires EntriesHaveTrades(View())
      modifies this
      ensures (View(), action) == SandboxSpec.ClaimEntry(old(View()), now, allowed)
    {
      hide EntryBlocked, FirstSendable, LapseBefore, Sendable;
      ghost var s := View();
      var i := 0;
      LapsedNothing(orders);
      while i < |orders|
        invariant i <= |orders| == |s.orders|
        invariant View() == s.(orders := LapseBefore(s.orders, i))
        invariant forall k :: 0 <= k < i ==> s.orders[k] in s.orders && !Sendable(s, s.orders[k], now, allowed)
      {
        var o := orders[i];
        LapseOne(s.orders, i);
        assert o in s.orders;
        SendableIs(s, View(), o, now, allowed);
        if o.state == Queued && o.id.kind.EntryKind? {
          if !EntryBlocked(View(), o, now, allowed) {
            FirstSendableIs(s, i, now, allowed);
            orders := orders[i := BeginSubmit(o, now)];
            return Some(Action(PlaceAction, orders[i]));
          }
          orders := orders[i := o.(state := Expired)];
        }
        i := i + 1;
      }
      FirstSendableIs(s, i, now, allowed);
      action := None;
    }

    static lemma LapsedNothing(os: seq<Order>)
      ensures LapseBefore(os, 0) == os
    {
    }

    static lemma LapseOne(os: seq<Order>, i: nat)
      requires i < |os|
      ensures |LapseBefore(os, i)| == |os| && LapseBefore(os, i)[i] == os[i]
      ensures LapseBefore(os, i + 1) ==
        if os[i].state == Queued && os[i].id.kind.EntryKind? then LapseBefore(os, i)[i := os[i].(state := Expired)]
          else LapseBefore(os, i)
    {
    }

    static lemma FirstSendableIs(s: State, i: nat, now: int, allowed: bool)
      requires EntriesHaveTrades(s) && i <= |s.orders|
      requires forall k :: 0 <= k < i ==> s.orders[k] in s.orders && !Sendable(s, s.orders[k], now, allowed)
      requires i < |s.orders| ==> s.orders[i] in s.orders && Sendable(s, s.orders[i], now, allowed)
      ensures FirstSendable(s, s.orders, now, allowed) == i
      ensures |LapseBefore(s.orders, i)| == |s.orders|
    {
      hide Sendable;
    }

    static lemma SendableIs(s: State, r: State, o: Order, now: int, allowed: bool)
      requires r == s.(orders := r.orders)
      requires o.id.kind.EntryKind? ==> TradeIndex(s.trades, o.id.trade) < |s.trades|
      ensures Sendable(s, o, now, allowed)
        <==> o.state == Queued && o.id.kind.EntryKind? && !EntryBlocked(r, o, now, allowed)
    {
      if o.id.kind.EntryKind? {
        SameBlocked(s, r, o, now, allowed);
      }
    }

    static lemma SameBlocked(s: State, r: State, o: Order, now: int, allowed: bool)
      requires r == s.(orders := r.orders) && TradeIndex(s.trades, o.id.trade) < |s.trades|
      ensures EntryBlocked(r, o, now, allowed) == EntryBlocked(s, o, now, allowed)
    {
    }

    method Finish(a: Action, reply: Reply) returns (outcome: Outcome)
      modifies this
      ensures Agrees(SandboxSpec.Finish(old(View()), a, reply), outcome, View())
      ensures outcome.Fault? ==> View() == old(View())
    {
      var i := OrderIndex(orders, a.order.id);
      if i == |orders| {
        return Fault(UnknownOrder);
      }
      match a.kind {
        case CancelAction =>
          if orders[i].cancelState != CancelSubmitting {
            return Fault(InvalidTransition);
          }
          var told :=
            match reply
            case AckReply(_) => CancelAcknowledged
            case RejectReply => CancelRejected
            case LostReply => CancelUncertain;
          orders := orders[i := orders[i].(cancelState := told)];
          if told != CancelAcknowledged {
            Halt(CancelReconciliationRequired);
          }
        case PlaceAction =>
          if orders[i].state != Submitting {
            return Fault(InvalidTransition);
          }
          match reply {
            case AckReply(Some(id)) =>
              orders := orders[i := orders[i].(state := Acknowledged, brokerId := Some(id))];
            case RejectReply =>
              orders := orders[i := orders[i].(state := Rejected)];
            case _ =>
              orders := orders[i := orders[i].(state := Uncertain)];
              Halt(SubmitReconciliationRequired);
          }
      }
      outcome := Passed;
    }

    method ClaimEmergencyCancel(now: int) returns (action: Option<Action>)
      modifies this
      ensures (View(), action) == SandboxSpec.ClaimEmergencyCancel(old(View()), now)
    {
      if !killed && haltReason.None? {
        return None;
      }
      var i := 0;
      while i < |orders|
        invariant i <= |orders| && View() == old(View())
        invariant forall k :: 0 <= k < i ==> !EmergencyDue(orders[k], now)
      {
        if EmergencyDue(orders[i], now) {
          orders := orders[i := BeginCancel(orders[i], now)];
          return Some(Action(CancelAction, orders[i]));
        }
        i := i + 1;
      }
      action := None;
    }

    // Archiving.

    /** The rows are for the archive, in the same transaction; the list walked is the one there was at the start. */
    method ArchiveClosed(max: nat, now: int) returns (queue: seq<ArchiveRow>)
      modifies this
      ensures (View(), queue) == Archive(old(View()), old(trades), max, now)
    {
      hide ArchiveOne, Archivable, OrdersOf;
      var todo := trades;
      queue := [];
      EmptyFirst(Archive(View(), todo, max, now).1);
      while todo != [] && |queue| < max
        invariant |queue| <= max
        invariant var rest := Archive(View(), todo, max - |queue|, now);
          Archive(old(View()), old(trades), max, now) == (rest.0, queue + rest.1)
        decreases |todo|
      {
        var t := todo[0];
        if Archivable(View(), t, now) {
          OneMore(queue, ArchiveRow(t, OrdersOf(t.id, orders)),
            Archive(ArchiveOne(View(), t), todo[1..], max - |queue| - 1, now).1);
          queue := queue + [ArchiveRow(t, OrdersOf(t.id, orders))];
          MoveOut(t);
        }
        todo := todo[1..];
      }
      assert queue + [] == queue;
    }

    method MoveOut(t: Trade)
      modifies this
      ensures View() == ArchiveOne(old(View()), t)
    {
      archivedPnl := archivedPnl + if t.buys > 0 then t.netPnl else 0;
      archivedTrades := archivedTrades + 1;
      orders, trades := Without(t.id, orders), DropTrade(trades, t.id);
    }

    static lemma EmptyFirst(rows: seq<ArchiveRow>)
      ensures [] + rows == rows
    {
    }

    static lemma OneMore(queue: seq<ArchiveRow>, row: ArchiveRow, rows: seq<ArchiveRow>)
      ensures queue + ([row] + rows) == queue + [row] + rows
    {
    }
  }
}
