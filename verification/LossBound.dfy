/**
 The daily loss bound: with a broker that honours limit prices and no exit priced below its trade's stop limit,
 no trade loses more than it was planned to, and the day's realised result never falls below the daily loss limit.
 */
module LossBound {
  import opened Wrappers
  import opened SandboxTypes
  import opened Totals
  import opened SandboxSpec
  import opened SandboxInvariant
  import opened SandboxSteps
  import opened SandboxArchive
  import opened SandboxService
  import opened SandboxWorld
  import opened SandboxRuns

  predicate LimitKept(o: Order) {
    o.filled > 0 ==> if IsBuy(o) then o.average <= o.price else o.price <= o.average
  }

  predicate RowLimitKept(b: BookRow) {
    b.filled > 0 ==> if b.buy then b.average <= b.price else b.price <= b.average
  }

  /** The orders of the day's trades filled within their limits. */
  ghost predicate LimitsKept(os: seq<Order>, day: int) {
    forall o :: o in os && o.id.trade.day == day ==> LimitKept(o)
  }

  predicate BookKeepsLimits(book: seq<BookRow>, day: int) {
    forall b :: b in book && b.tag.Some? && b.tag.value.trade.day == day ==> RowLimitKept(b)
  }

  predicate ExitsAbove(t: Trade, os: seq<Order>) {
    forall o :: o in os && o.id.trade == t.id && o.id.kind.ExitKind? ==> t.stopLimit <= o.price
  }

  /** No exit of a trade of the day is priced below the stop limit the trade's risk was planned with. */
  predicate ExitsAboveStop(s: State, day: int) {
    forall t :: t in s.trades && t.id.day == day ==> ExitsAbove(t, s.orders)
  }

  // One trade.

  lemma {:induction false} SpentWithin(t: TradeId, os: seq<Order>, price: int)
    requires forall o :: o in os && o.id.trade == t && IsBuy(o) ==>
      0 <= o.filled && (o.filled > 0 ==> o.average <= price)
    ensures Total(Spent, t, os) <= price * Total(Bought, t, os)
  {
    if os != [] {
      var init, o := os[..|os| - 1], os[|os| - 1];
      SpentWithin(t, init, price);
      assert price * (Total(Bought, t, init) + Weight(Bought, t, o)) == price * Total(Bought, t, init)
        + price * Weight(Bought, t, o);
      if o.id.trade == t && IsBuy(o) && o.filled > 0 {
        MulMonotone(o.filled, o.average, price);
      }
    }
  }

  lemma MulMonotone(k: int, a: int, b: int)
    requires 0 <= k && a <= b
    ensures k * a <= k * b && k * a <= b * k
  {
  }

  lemma {:induction false} ReceivedAtLeast(t: TradeId, os: seq<Order>, price: int)
    requires forall o :: o in os && o.id.trade == t && !IsBuy(o) ==>
      0 <= o.filled && (o.filled > 0 ==> price <= o.average)
    ensures price * Total(Sold, t, os) <= Total(Received, t, os)
  {
    if os != [] {
      var init, o := os[..|os| - 1], os[|os| - 1];
      ReceivedAtLeast(t, init, price);
      assert price * (Total(Sold, t, init) + Weight(Sold, t, o)) == price * Total(Sold, t, init)
        + price * Weight(Sold, t, o);
      if o.id.trade == t && !IsBuy(o) && o.filled > 0 {
        MulMonotone(o.filled, price, o.average);
      }
    }
  }

  lemma {:induction false} BoughtWithinOrdered(t: TradeId, os: seq<Order>)
    requires forall o :: o in os ==> OrderOk(o)
    ensures 0 <= Total(Bought, t, os) <= Total(Ordered, t, os)
  {
    if os != [] {
      BoughtWithinOrdered(t, os[..|os| - 1]);
      assert os[|os| - 1] in os;
    }
  }

  /** All entries of a trade carry the one price its risk was planned with. */
  lemma EntryPrice(t: Trade, os: seq<Order>) returns (price: int)
    requires TradeOk(t, os)
    ensures t.stopLimit < price && (price - t.stopLimit) * t.quantity + t.costReserve == t.plannedRisk
    ensures forall o :: o in os && o.id.trade == t.id && IsBuy(o) ==> o.price == price
  {
    var e := FirstOf(os, t.id, EntryKind);
    if e == |os| {
      NonePlaced(EntryKind, t.id, os);
    }
    price := os[e].price;
    forall o | o in os && o.id.trade == t.id && IsBuy(o) ensures o.price == price {
      var k :| 0 <= k < |os| && os[k] == o;
      var x, y, q := o.price - t.stopLimit, price - t.stopLimit, t.quantity;
      assert x * q == y * q;
      SameFactor(x, y, q);
    }
  }

  lemma SameFactor(x: int, y: int, q: int)
    requires q > 0 && x * q == y * q
    ensures x == y
  {
    if x != y {
      NonZeroProduct(x - y, q);
    }
  }

  lemma NonZeroProduct(d: int, q: int)
    requires q > 0 && d != 0
    ensures d * q != 0
  {
  }

  lemma SellPrices(t: Trade, os: seq<Order>)
    requires TradeOk(t, os) && ExitsAbove(t, os)
    ensures forall o :: o in os && o.id.trade == t.id && !IsBuy(o) ==> t.stopLimit <= o.price
  {
    forall o | o in os && o.id.trade == t.id && !IsBuy(o) ensures t.stopLimit <= o.price {
      var k :| 0 <= k < |os| && os[k] == o;
    }
  }

  lemma RiskArithmetic(received: int, spent: int, bought: int, quantity: int, price: int, stopLimit: int)
    requires 0 <= bought <= quantity && stopLimit < price
    requires stopLimit * bought <= received && spent <= price * bought
    ensures received - spent >= -((price - stopLimit) * quantity)
  {
    assert (price - stopLimit) * bought == price * bought - stopLimit * bought;
    MulMonotone(price - stopLimit, bought, quantity);
  }

  /** A flat trade whose fills honoured their limits lost at most what it was planned to lose. */
  lemma TradeLossBound(t: Trade, os: seq<Order>)
    requires TradeOk(t, os) && (forall o :: o in os ==> OrderOk(o)) && Net(t.id, os) == 0
    requires (forall o :: o in os && o.id.trade == t.id ==> LimitKept(o)) && ExitsAbove(t, os)
    ensures NetResult(t, os) >= -t.plannedRisk
  {
    var price := EntryPrice(t, os);
    SellPrices(t, os);
    forall o | o in os ensures 0 <= o.filled {
      assert OrderOk(o);
    }
    SpentWithin(t.id, os, price);
    ReceivedAtLeast(t.id, os, t.stopLimit);
    BoughtWithinOrdered(t.id, os);
    RiskArithmetic(Total(Received, t.id, os), Total(Spent, t.id, os), Total(Bought, t.id, os), t.quantity, price,
      t.stopLimit);
    RiskArithmetic(0, 0, 0, t.quantity, price, t.stopLimit);
  }

  // How exact the condition on exits is.

  /** The whole of an order fills, at no worse than its limit. */
  ghost predicate FillsWithin(o: Order, p: Order) {
    OrderStep(o, p) && p.state == Complete && p.filled == o.quantity && LimitKept(p)
  }

  /** An exit that is working, not filled yet, and for all that is held. */
  ghost predicate LastExit(t: Trade, os: seq<Order>, i: nat) {
    && i < |os| && os[i].id.trade == t.id && os[i].id.kind.ExitKind? && Working(os[i])
    && os[i].filled == 0 && os[i].quantity == Net(t.id, os)
  }

  /** The trade's result if all that is held were sold at this price. */
  function SoldOut(t: Trade, os: seq<Order>, price: int): int {
    Total(Received, t.id, os) + Net(t.id, os) * price - Total(Spent, t.id, os) - t.costReserve
  }

  lemma ExitFills(t: Trade, os: seq<Order>, i: nat, p: Order)
    requires TradeOk(t, os) && !Closed(t) && (forall o :: o in os ==> OrderOk(o)) && LastExit(t, os, i)
    requires FillsWithin(os[i], p) && 0 < Total(Bought, t.id, os)
    ensures TradeOk(t, os[i := p]) && Net(t.id, os[i := p]) == 0
    ensures NetResult(t, os[i := p]) == SoldOut(t, os, p.average)
  {
    forall k | 0 <= k < |os| ensures OrderStep(os[k], os[i := p][k]) {
      assert os[k] in os;
    }
    OrderStepsKeepTrade(t, os, os[i := p]);
    forall m ensures Total(m, t.id, os[i := p]) == Total(m, t.id, os) - Weight(m, t.id, os[i]) + Weight(m, t.id, p) {
      TotalUpdate(m, t.id, os, i, p);
    }
    hide TradeOk, OrderOk, Total;
  }

  lemma SoldOutMonotone(t: Trade, os: seq<Order>, a: int, b: int)
    requires 0 <= Net(t.id, os) && a <= b
    ensures SoldOut(t, os, a) <= SoldOut(t, os, b)
  {
    hide Net;
    MulMonotone(Net(t.id, os), a, b);
  }

  /** The order filled at exactly its limit. */
  function AtLimit(o: Order): Order {
    o.(state := Complete, brokerId := if o.brokerId.None? then Some("") else o.brokerId, filled := o.quantity,
      average := o.price)
  }

  /**
   The condition on exits is exact. Of a trade whose last exit is working, some fill that honours the exit's limit makes
   it lose more than was planned if and only if selling what is held at that very limit does.
   */
  lemma ExitFillExact(t: Trade, os: seq<Order>, i: nat)
    requires TradeOk(t, os) && !Closed(t) && (forall o :: o in os ==> OrderOk(o)) && LastExit(t, os, i)
    ensures (exists p :: FillsWithin(os[i], p) && NetResult(t, os[i := p]) < -t.plannedRisk)
            <==> SoldOut(t, os, os[i].price) < -t.plannedRisk
  {
    assert OrderOk(os[i]) && OrderOk(AtLimit(os[i]));
    BoughtSomething(t, os);
    hide TradeOk, OrderOk, Total, Net, NetResult, SoldOut;
    forall p | FillsWithin(os[i], p) ensures NetResult(t, os[i := p]) >= SoldOut(t, os, os[i].price) {
      ExitFills(t, os, i, p);
      SoldOutMonotone(t, os, os[i].price, p.average);
    }
    assert FillsWithin(os[i], AtLimit(os[i]));
    ExitFills(t, os, i, AtLimit(os[i]));
  }

  lemma BoughtSomething(t: Trade, os: seq<Order>)
    requires TradeOk(t, os) && (forall o :: o in os ==> OrderOk(o)) && 0 < Net(t.id, os)
    ensures 0 < Total(Bought, t.id, os)
  {
    SoldNonNegative(t.id, os);
  }

  lemma {:induction false} SoldNonNegative(t: TradeId, os: seq<Order>)
    requires forall o :: o in os ==> OrderOk(o)
    ensures 0 <= Total(Sold, t, os)
  {
    if os != [] {
      SoldNonNegative(t, os[..|os| - 1]);
      assert os[|os| - 1] in os;
    }
  }

  /**
   When the entry filled in full at its limit and nothing was sold yet, that is so if and only if the exit is priced
   below the stop limit.
   */
  lemma ExitLimitExact(t: Trade, os: seq<Order>, i: nat)
    requires TradeOk(t, os) && !Closed(t) && (forall o :: o in os ==> OrderOk(o)) && LastExit(t, os, i)
    requires Total(Sold, t.id, os) == 0 && Total(Received, t.id, os) == 0 && Total(Bought, t.id, os) == t.quantity
    requires forall o :: o in os && o.id.trade == t.id && IsBuy(o) && o.filled > 0 ==> o.average == o.price
    ensures (exists p :: FillsWithin(os[i], p) && NetResult(t, os[i := p]) < -t.plannedRisk)
      <==> os[i].price < t.stopLimit
  {
    hide TradeOk, Total, Net, NetResult, SoldOut, FillsWithin;
    ExitFillExact(t, os, i);
    var price := EntryPrice(t, os);
    forall o | o in os && o.id.trade == t.id && IsBuy(o) && o.filled != 0 ensures o.average == price {
      assert OrderOk(o);
    }
    SpentExactly(t.id, os, price);
    hide OrderOk;
    var q, x, k := t.quantity, os[i].price, t.stopLimit;
    SoldOutAfterEntry(t, os, x);
    QuantityPositive(t, os);
    assert (price - k) * q == price * q - k * q;
    assert SoldOut(t, os, x) + t.plannedRisk == q * x - q * k;
    if x < k {
      MulMonotone(q, x + 1, k);
    } else {
      MulMonotone(q, k, x);
    }
  }

  lemma SoldOutAfterEntry(t: Trade, os: seq<Order>, x: int)
    requires Total(Sold, t.id, os) == 0 && Total(Received, t.id, os) == 0
    ensures SoldOut(t, os, x) == Total(Bought, t.id, os) * x - Total(Spent, t.id, os) - t.costReserve
  {
    hide Total;
  }

  lemma QuantityPositive(t: Trade, os: seq<Order>)
    requires TradeOk(t, os)
    ensures 0 < t.quantity
  {
  }

  lemma {:induction false} SpentExactly(t: TradeId, os: seq<Order>, price: int)
    requires forall o :: o in os && o.id.trade == t && IsBuy(o) && o.filled != 0 ==> o.average == price
    ensures Total(Spent, t, os) == price * Total(Bought, t, os)
  {
    if os != [] {
      var init, o := os[..|os| - 1], os[|os| - 1];
      SpentExactly(t, init, price);
      assert price * (Total(Bought, t, init) + Weight(Bought, t, o)) == price * Total(Bought, t, init)
        + price * Weight(Bought, t, o);
    }
  }

  // The day.

  predicate ClosedOn(t: Trade, day: int) {
    Closed(t) && Day(t.closedAt.value) == day
  }

  /** What holds of every trade and of the day's result, on a day that began flat. */
  ghost predicate Budget(s: State, day: int) {
    && -s.policy.dailyLoss <= DayPnl(s.trades, day, false)
    && (forall t :: t in s.trades && ClosedOn(t, day) ==>
          t.id.day == day && t.netPnl >= -t.plannedRisk && (t.buys <= 0 ==> t.netPnl == 0))
    && (forall t :: t in s.trades && !Closed(t) ==>
          t.id.day == day && t.plannedRisk <= s.policy.dailyLoss - Max(0, -DayPnl(s.trades, day, false)))
  }

  lemma {:induction false} DayPnlBought(ts: seq<Trade>, day: int)
    requires forall t :: t in ts && ClosedOn(t, day) && t.buys <= 0 ==> t.netPnl == 0
    ensures DayPnl(ts, day, true) == DayPnl(ts, day, false)
  {
    if ts != [] {
      DayPnlBought(ts[..|ts| - 1], day);
      assert ts[|ts| - 1] in ts;
    }
  }

  lemma {:induction false} DayPnlReasons(ts: seq<Trade>, us: seq<Trade>, day: int)
    requires SameButReasons(ts, us)
    ensures DayPnl(us, day, false) == DayPnl(ts, day, false)
  {
    if ts != [] {
      DayPnlReasons(ts[..|ts| - 1], us[..|us| - 1], day);
    }
  }

  lemma ReasonPartner(ts: seq<Trade>, us: seq<Trade>, u: Trade) returns (t: Trade)
    requires SameButReasons(ts, us) && u in us
    ensures t in ts && u == t.(exitReason := u.exitReason)
  {
    var i :| 0 <= i < |us| && us[i] == u;
    t := ts[i];
  }

  lemma BudgetReasons(s: State, s': State, day: int)
    requires Budget(s, day) && SameButReasons(s.trades, s'.trades) && s'.policy.dailyLoss == s.policy.dailyLoss
    ensures Budget(s', day)
  {
    hide DayPnl, SameButReasons;
    DayPnlReasons(s.trades, s'.trades, day);
    forall u | u in s'.trades
      ensures ClosedOn(u, day) ==> u.id.day == day && u.netPnl >= -u.plannedRisk && (u.buys <= 0 ==> u.netPnl == 0)
      ensures !Closed(u) ==>
        u.id.day == day && u.plannedRisk <= s.policy.dailyLoss - Max(0, -DayPnl(s.trades, day, false))
    {
      var t := ReasonPartner(s.trades, s'.trades, u);
    }
  }

  lemma {:induction false} DayPnlUpdate(ts: seq<Trade>, i: nat, t: Trade, day: int)
    requires i < |ts| && !Closed(ts[i])
    ensures DayPnl(ts[i := t], day, false) == DayPnl(ts, day, false) + if ClosedOn(t, day) then t.netPnl else 0
  {
    var last := |ts| - 1;
    if i == last {
      assert ts[i := t][..last] == ts[..last];
    } else {
      assert ts[i := t][..last] == ts[..last][i := t];
      DayPnlUpdate(ts[..last], i, t, day);
    }
  }

  /** A closed trade lost at most what it was planned to, and nothing when it never bought. */
  lemma ClosedResult(s: State, i: nat, now: int)
    requires Sound(s) && i < |s.trades| && !Closed(s.trades[i]) && Net(s.trades[i].id, s.orders) == 0
    requires LimitsKept(s.orders, s.trades[i].id.day) && ExitsAboveStop(s, s.trades[i].id.day)
    ensures var u := Close(s, i, now).trades[i];
      u.netPnl >= -s.trades[i].plannedRisk && (u.buys <= 0 ==> u.netPnl == 0)
  {
    hide Sound, ExitsAbove, LimitKept, DayPnl;
    var t := s.trades[i];
    assert t in s.trades;
    SoundShape(s);
    TradeLossBound(t, s.orders);
    BoughtWithinOrdered(t.id, s.orders);
  }

  lemma CloseBudget(s: State, i: nat, now: int)
    requires Sound(s) && i < |s.trades| && !Closed(s.trades[i]) && Net(s.trades[i].id, s.orders) == 0
    requires Budget(s, Day(now)) && LimitsKept(s.orders, Day(now)) && ExitsAboveStop(s, Day(now))
    ensures Budget(Close(s, i, now), Day(now))
  {
    hide Sound, LimitsKept, ExitsAboveStop, DayPnl, Net, Total, NetResult;
    var t, s' := s.trades[i], Close(s, i, now);
    assert t in s.trades;
    ClosedResult(s, i, now);
    DayPnlUpdate(s.trades, i, s'.trades[i], Day(now));
    OthersClosed(s, i, now);
    forall u | u in s'.trades && u != s'.trades[i] ensures u in s.trades {
      var k :| 0 <= k < |s'.trades| && s'.trades[k] == u;
    }
  }

  lemma OthersClosed(s: State, i: nat, now: int)
    requires Sound(s) && i < |s.trades| && !Closed(s.trades[i])
    ensures forall u :: u in Close(s, i, now).trades ==> Closed(u)
  {
    forall u | u in Close(s, i, now).trades ensures Closed(u) {
      var k :| 0 <= k < |s.trades| && Close(s, i, now).trades[k] == u;
    }
  }

  lemma CloseExits(s: State, i: nat, now: int)
    requires i < |s.trades| && ExitsAboveStop(s, Day(now))
    ensures ExitsAboveStop(Close(s, i, now), Day(now))
  {
    var s' := Close(s, i, now);
    forall u | u in s'.trades && u.id.day == Day(now) ensures ExitsAbove(u, s'.orders) {
      var k :| 0 <= k < |s'.trades| && s'.trades[k] == u;
      assert s.trades[k] in s.trades && ExitsAbove(s.trades[k], s.orders);
    }
  }

  lemma {:induction false} ReconcileTradesBudget(s: State, i: nat, now: int)
    requires Sound(s) && i <= |s.trades|
    requires Budget(s, Day(now)) && LimitsKept(s.orders, Day(now)) && ExitsAboveStop(s, Day(now))
    ensures var r := ReconcileTrades(s, i, now); r.Ok? ==> Budget(r.value, Day(now)) && r.value.policy == s.policy
    decreases |s.trades| - i
  {
    hide Sound, Budget, LimitsKept, ExitsAboveStop, Close;
    if i < |s.trades| {
      var r := ReconcileTrade(s, i, now);
      if r.Ok? {
        ReconcileTradeSound(s, i, now);
        if r.value != s {
          CloseBudget(s, i, now);
          CloseExits(s, i, now);
          ClosePolicy(s, i, now);
        }
        ReconcileTradesBudget(r.value, i + 1, now);
      }
    }
  }

  lemma ClosePolicy(s: State, i: nat, now: int)
    requires i < |s.trades|
    ensures Close(s, i, now).policy == s.policy && Close(s, i, now).orders == s.orders
    ensures |Close(s, i, now).trades| == |s.trades|
  {
  }

  // The steps of a tick.

  /** No fill, average or price changes, and what is new is unfilled. */
  ghost predicate PricesStay(os: seq<Order>, ps: seq<Order>) {
    && |os| <= |ps|
    && (forall i :: 0 <= i < |os| ==>
          ps[i].id == os[i].id && ps[i].filled == os[i].filled && ps[i].average == os[i].average
            && ps[i].price == os[i].price)
    && (forall i :: |os| <= i < |ps| ==> ps[i].filled == 0)
  }

  lemma LimitsStay(os: seq<Order>, ps: seq<Order>, day: int)
    requires LimitsKept(os, day) && PricesStay(os, ps)
    ensures LimitsKept(ps, day)
  {
    forall p | p in ps && p.id.trade.day == day ensures LimitKept(p) {
      var i :| 0 <= i < |ps| && ps[i] == p;
      if i < |os| {
        assert os[i] in os;
      }
    }
  }

  lemma QuietPrices(os: seq<Order>, ps: seq<Order>)
    requires Quiet(os, ps)
    ensures PricesStay(os, ps)
  {
  }

  lemma ClaimedPrices(os: seq<Order>, ps: seq<Order>, a: Option<Action>, now: int)
    requires Claimed(os, ps, a, now)
    ensures PricesStay(os, ps)
  {
  }

  lemma HeardLimits(os: seq<Order>, ps: seq<Order>, book: seq<BookRow>, day: int)
    requires LimitsKept(os, day) && AllHeard(os, ps, book) && BookKeepsLimits(book, day)
    ensures LimitsKept(ps, day)
  {
    forall p | p in ps && p.id.trade.day == day ensures LimitKept(p) {
      var i :| 0 <= i < |ps| && ps[i] == p;
      assert os[i] in os && Heard(os[i], ps[i], book);
    }
  }

  lemma HeardExits(s: State, s': State, book: seq<BookRow>, day: int)
    requires ExitsAboveStop(s, day) && s'.trades == s.trades && AllHeard(s.orders, s'.orders, book)
    ensures ExitsAboveStop(s', day)
  {
    forall t, p |
      t in s'.trades && t.id.day == day && p in s'.orders && p.id.trade == t.id && p.id.kind.ExitKind?
      ensures t.stopLimit <= p.price
    {
      var i :| 0 <= i < |s'.orders| && s'.orders[i] == p;
      assert Heard(s.orders[i], p, book) && s.orders[i] in s.orders;
      assert ExitsAbove(t, s.orders);
    }
  }

  ghost predicate WithinDay(s: State, day: int) {
    Sound(s) && LimitsKept(s.orders, day) && Budget(s, day)
  }

  lemma ReconcileWithinDay(s: State, book: seq<BookRow>, positions: Option<seq<Position>>, readAt: int)
    requires WithinDay(s, Day(readAt)) && ExitsAboveStop(s, Day(readAt)) && FinishedStay(s, book)
    requires BookKeepsLimits(book, Day(readAt))
    ensures var r := Reconcile(s, book, positions, readAt);
      r.Ok? ==> WithinDay(r.value, Day(readAt)) && r.value.policy == s.policy
  {
    hide Sound, LimitsKept, ExitsAboveStop, FinishedStay, AllHeard, ReconcileOrders, ReconcileTrades, PositionsAgree;
    hide Budget, ValidBook, Owned, PriorDayOpen;
    ReconcileOrdersSound(s, book, readAt, positions.None?);
    ReconcileOrdersShape(s, 0, book, readAt, positions.None?);
    var r1 := ReconcileOrders(s, 0, book, readAt, positions.None?);
    if r1.Ok? {
      HeardLimits(s.orders, r1.value.orders, book, Day(readAt));
      HeardExits(s, r1.value, book, Day(readAt));
      BudgetElsewhere(s, r1.value, Day(readAt));
      ReconcileTradesSound(r1.value, 0, readAt);
      ReconcileTradesBudget(r1.value, 0, readAt);
      var r2 := ReconcileTrades(r1.value, 0, readAt);
      if r2.Ok? {
        SoundElsewhere(r2.value, r2.value.(reconciledAt := Some(readAt)));
        BudgetElsewhere(r2.value, r2.value.(reconciledAt := Some(readAt)), Day(readAt));
      }
    }
  }

  lemma {:induction false} DropTradeDayPnl(ts: seq<Trade>, id: TradeId, day: int)
    requires forall t :: t in ts && t.id == id ==> !ClosedOn(t, day)
    ensures DayPnl(DropTrade(ts, id), day, false) == DayPnl(ts, day, false)
  {
    if ts != [] {
      var init, last := ts[..|ts| - 1], ts[|ts| - 1];
      DropTradeDayPnl(init, id, day);
      if last.id != id {
        assert (DropTrade(init, id) + [last])[..|DropTrade(init, id)|] == DropTrade(init, id);
      } else {
        assert last in ts;
      }
    }
  }

  lemma ArchiveOneBudget(s: State, t: Trade, day: int)
    requires Budget(s, day) && t.id.day < day && forall u :: u in s.trades && u.id == t.id ==> Closed(u)
    ensures Budget(ArchiveOne(s, t), day)
  {
    hide DayPnl, DropTrade, Without;
    DropTradeDayPnl(s.trades, t.id, day);
    DropTradeMembers(s.trades, t.id);
  }

  lemma WithoutLimits(t: TradeId, os: seq<Order>, day: int)
    requires LimitsKept(os, day)
    ensures LimitsKept(Without(t, os), day)
  {
    hide Without;
    WithoutMembers(t, os);
  }

  lemma OnlyOf(s: State, t: Trade)
    requires Sound(s) && t in s.trades
    ensures forall u :: u in s.trades && u.id == t.id ==> u == t
  {
    hide OrdersOk, TradesOk;
    forall u | u in s.trades && u.id == t.id ensures u == t {
      var i, j :| 0 <= i < |s.trades| && 0 <= j < |s.trades| && s.trades[i] == u && s.trades[j] == t;
    }
  }

  lemma ArchiveOneWithinDay(s: State, t: Trade, now: int)
    requires WithinDay(s, Day(now)) && t in s.trades && Archivable(s, t, now)
    ensures WithinDay(ArchiveOne(s, t), Day(now))
  {
    hide Sound, LimitsKept, Budget, AllTerminal;
    ArchiveOneSound(s, t);
    OnlyOf(s, t);
    ArchiveOneBudget(s, t, Day(now));
    WithoutLimits(t.id, s.orders, Day(now));
  }

  lemma {:induction false} ArchiveWithinDay(s: State, todo: seq<Trade>, max: nat, now: int)
    requires WithinDay(s, Day(now)) && UniqueTrades(todo) && forall t :: t in todo ==> t in s.trades
    ensures var s' := Archive(s, todo, max, now).0; WithinDay(s', Day(now)) && s'.policy == s.policy
    decreases |todo|
  {
    hide WithinDay, ArchiveOne, Archivable;
    if todo != [] && max > 0 {
      var t := todo[0];
      forall u | u in todo[1..] ensures u in todo && u.id != t.id {
      }
      if !Archivable(s, t, now) {
        ArchiveWithinDay(s, todo[1..], max, now);
      } else {
        ArchiveOneWithinDay(s, t, now);
        StillThere(s, t, todo[1..]);
        ArchivePolicy(s, t);
        ArchiveWithinDay(ArchiveOne(s, t), todo[1..], max - 1, now);
      }
    }
  }

  lemma ArchivePolicy(s: State, t: Trade)
    ensures ArchiveOne(s, t).policy == s.policy
  {
  }

  lemma ReasonsWithinDay(s: State, s': State, day: int)
    requires WithinDay(s, day) && Sound(s') && Quiet(s.orders, s'.orders)
    requires SameButReasons(s.trades, s'.trades) && s'.policy.dailyLoss == s.policy.dailyLoss
    ensures WithinDay(s', day)
  {
    hide Sound, Quiet, Budget;
    QuietPrices(s.orders, s'.orders);
    LimitsStay(s.orders, s'.orders, day);
    BudgetReasons(s, s', day);
  }

  lemma NewTradeBudget(s: State, t: Trade, day: int)
    requires Budget(s, day) && !AnyOpen(s.trades) && !Closed(t) && t.id.day == day
    requires t.plannedRisk <= s.policy.dailyLoss - Max(0, -DayPnl(s.trades, day, true))
    ensures Budget(s.(trades := s.trades + [t]), day)
  {
    DayPnlBought(s.trades, day);
    assert (s.trades + [t])[..|s.trades|] == s.trades;
  }

  lemma BudgetElsewhere(s: State, s': State, day: int)
    requires Budget(s, day) && s'.trades == s.trades && s'.policy.dailyLoss == s.policy.dailyLoss
    ensures Budget(s', day)
  {
  }

  lemma PlanWithinDay(s: State, inputs: TickInputs, now: int)
    requires WithinDay(s, Day(now))
    ensures WithinDay(Planned(s, inputs, now), Day(now)) && Planned(s, inputs, now).policy == s.policy
  {
    hide Sound, Quiet, Budget, LosingStreak, LimitsKept;
    var d, quote, meta := inputs.decision, PlanQuote(inputs), inputs.meta;
    var s' := Planned(s, inputs, now);
    PlanSound(s, d, quote, meta, now);
    QuietPrices(s.orders, s'.orders);
    LimitsStay(s.orders, s'.orders, Day(now));
    if PlanVerdict(s, d, quote, meta, now) == PlanQueued {
      var plan := PricesOf(s, d.pick.value, meta.value, quote.value);
      var t := PlannedTrade(s, d.pick.value, plan, meta.value, now);
      NewTradeBudget(s, t, Day(now));
      BudgetElsewhere(s.(trades := s.trades + [t]), s', Day(now));
    }
  }

  // Runs within a day.

  /** The event is of this day, changes no policy, and any book it reads honours the limits of the day's orders. */
  ghost predicate OfDay(e: Event, now: int, day: int) {
    Day(now) == day &&
    match e
    case PrepareEvent(x, inputs) => Day(inputs.readAt) == day && BookKeepsLimits(inputs.book, day)
    case PolicyEvent(_, _, _, _) => false
    case _ => true
  }

  ghost predicate DayInv(w: World, day: int) {
    Safe(w) && WithinDay(w.s, day)
  }

  lemma SameTradesWithinDay(s: State, s': State, day: int)
    requires WithinDay(s, day) && Sound(s') && s'.trades == s.trades && s'.policy == s.policy
    requires PricesStay(s.orders, s'.orders)
    ensures WithinDay(s', day)
  {
    hide Sound, PricesStay, DayPnl;
    LimitsStay(s.orders, s'.orders, day);
  }

  lemma ManagedWithinDay(s: State, inputs: TickInputs, now: int)
    requires WithinDay(s, Day(now)) && Manageable(Advised(s, inputs, now))
    ensures var s' := ManageAll(Advised(s, inputs, now), 0, inputs.quotes, now);
      WithinDay(s', Day(now)) && s'.policy == s.policy
  {
    hide Sound, Quiet, LimitsKept, Budget, ManageAll, Advised, Manageable;
    var advised := Advised(s, inputs, now);
    AdvisedSound(s, inputs, now);
    AdvisedPolicy(s, inputs, now);
    ReasonsWithinDay(s, advised, Day(now));
    ManageSound(advised, 0, inputs.quotes, now);
    ManageKeepsTrades(advised, 0, inputs.quotes, now);
    ManagePolicy(advised, 0, inputs.quotes, now);
    ReasonsWithinDay(advised, ManageAll(advised, 0, inputs.quotes, now), Day(now));
  }

  lemma AdvisedPolicy(s: State, inputs: TickInputs, now: int)
    ensures Advised(s, inputs, now).policy == s.policy
  {
  }

  lemma {:induction false} ManagePolicy(s: State, i: nat, quotes: map<string, Quote>, now: int)
    requires Manageable(s) && i <= |s.trades|
    ensures ManageAll(s, i, quotes, now).policy == s.policy
    decreases |s.trades| - i
  {
    hide ManageTrade, Manageable;
    if i < |s.trades| {
      OpenTradeManageable(s, i);
      var quote := QuoteFor(quotes, s.trades[i].id);
      ManageTradeShape(s, i, quote, now);
      ManageTradePolicy(s, i, quote, now);
      ManageableKept(s, ManageTrade(s, i, quote, now));
      ManagePolicy(ManageTrade(s, i, quote, now), i + 1, quotes, now);
    }
  }

  lemma ManageTradePolicy(s: State, i: nat, quote: Option<Quote>, now: int)
    requires i < |s.trades|
    requires !Closed(s.trades[i]) ==>
      s.trades[i].tickSize > 0 && FirstOf(s.orders, s.trades[i].id, EntryKind) < |s.orders|
    ensures ManageTrade(s, i, quote, now).policy == s.policy
  {
    hide Prepare, Act;
    if !Closed(s.trades[i]) {
      var e, t := FirstOf(s.orders, s.trades[i].id, EntryKind), Reasoned(s, s.trades[i], now);
      if !EntryLapsed(s, t, e, now) {
        PreparePolicy(s, i, t, e, quote, now);
        PrepareShape(s, i, t, e, quote, now);
        ActPolicy(Prepare(s, i, t, e, quote, now), Prepare(s, i, t, e, quote, now).trades[i], quote, now);
      }
    }
  }

  lemma PreparePolicy(s: State, i: nat, t: Trade, e: nat, quote: Option<Quote>, now: int)
    requires i < |s.trades| && e < |s.orders|
    ensures Prepare(s, i, t, e, quote, now).policy == s.policy
  {
    hide Review, FreezeEntry, Net;
  }

  lemma ActPolicy(s: State, t: Trade, quote: Option<Quote>, now: int)
    requires t.tickSize > 0
    ensures Act(s, t, quote, now).policy == s.policy
  {
    hide WithdrawAll, ChaseExits, NewOrder, GuardsWorking, ExitWorking, Net, FloorTo, Total, FirstOf;
  }

  lemma PrepareWithinDay(w: World, x: string, inputs: TickInputs, now: int)
    requires DayInv(w, Day(now)) && ExitsAboveStop(w.s, Day(now)) && Honest(inputs.book, w.out.rows)
    requires OfDay(PrepareEvent(x, inputs), now, Day(now))
    ensures var r := PrepareTick(w.s, inputs, now);
      r.Ok? ==> WithinDay(r.value.state, Day(now)) && r.value.state.policy == w.s.policy
  {
    HonestBooksStay(w, inputs.book);
    ReconcileWithinDay(w.s, inputs.book, inputs.positions, inputs.readAt);
    var reconciled := Reconcile(w.s, inputs.book, inputs.positions, inputs.readAt);
    if reconciled.Ok? {
      TradesUnique(reconciled.value, Day(now));
      PrepareRestWithinDay(reconciled.value, w.s, inputs, now);
    }
  }

  lemma TradesUnique(s: State, day: int)
    requires WithinDay(s, day)
    ensures UniqueTrades(s.trades)
  {
  }

  lemma PrepareRestWithinDay(s1: State, s: State, inputs: TickInputs, now: int)
    requires WithinDay(s1, Day(now)) && UniqueTrades(s1.trades) && s1.policy == s.policy
    requires Reconcile(s, inputs.book, inputs.positions, inputs.readAt) == Ok(s1)
    ensures var r := PrepareTick(s, inputs, now);
      r.Ok? ==> WithinDay(r.value.state, Day(now)) && r.value.state.policy == s.policy
  {
    hide WithinDay, Reconcile, Archive, ManageAll, Claim, Advised, Planned, Manageable, EntriesHaveTrades, EntryPending;
    ArchiveWithinDay(s1, s1.trades, ARCHIVE_BATCH, now);
    var kept := Archive(s1, s1.trades, ARCHIVE_BATCH, now).0;
    var advised := Advised(kept, inputs, now);
    if Manageable(advised) {
      ManagedWithinDay(kept, inputs, now);
      var managed := ManageAll(advised, 0, inputs.quotes, now);
      PlanWithinDay(managed, inputs, now);
      var planned := Planned(managed, inputs, now);
      if EntriesHaveTrades(planned) {
        ClaimWithinDay(planned, now, !EntryPending(planned) || inputs.allowed, Day(now));
      }
    }
  }

  lemma ClaimWithinDay(s: State, now: int, allowed: bool, day: int)
    requires WithinDay(s, day) && EntriesHaveTrades(s)
    ensures var s' := Claim(s, now, allowed).0; WithinDay(s', day) && s'.policy == s.policy
  {
    hide Sound, LimitsKept, Budget, EntriesHaveTrades;
    ClaimSound(s, now, allowed);
    var r := Claim(s, now, allowed);
    ClaimedPrices(s.orders, r.0.orders, r.1, now);
    SameTradesWithinDay(s, r.0, day);
  }

  lemma FailWithinDay(s: State, x: string, grace: bool, now: int, day: int)
    requires WithinDay(s, day)
    ensures var s' := FailTick(s, x, grace, now).0; WithinDay(s', day) && s'.policy == s.policy
  {
    hide Sound, LimitsKept, Budget;
    if Owns(s, x) && !(grace && Flat(s)) {
      var halted := Halted(s, ServiceError).(reconciledAt := None);
      SoundElsewhere(s, halted);
      EmergencySound(halted, now);
      var r := ClaimEmergencyCancel(halted, now);
      ClaimedPrices(halted.orders, r.0.orders, r.1, now);
      SameTradesWithinDay(s, r.0, day);
    }
  }

  lemma RecordWithinDay(s: State, x: string, a: Action, reply: Reply, day: int)
    requires WithinDay(s, day)
    ensures WithinDay(Record(s, x, a, reply), day) && Record(s, x, a, reply).policy == s.policy
  {
    hide Sound, LimitsKept, Budget, Finish;
    FinishSound(s, a, reply);
    FinishAnswers(s, a, reply);
    var r := Finish(s, a, reply);
    if r.Ok? {
      assert PricesStay(s.orders, r.value.orders);
      SameTradesWithinDay(s, r.value, day);
    }
  }

  lemma GiveUpWithinDay(s: State, id: OrderId, day: int)
    requires WithinDay(s, day) && GiveUp(s, id).Some?
    ensures WithinDay(GiveUp(s, id).value, day) && GiveUp(s, id).value.policy == s.policy
  {
    hide Sound, LimitsKept, Budget;
    GiveUpSound(s, OrderIndex(s.orders, id));
    SameTradesWithinDay(s, GiveUp(s, id).value, day);
  }

  lemma AcquireWithinDay(s: State, x: string, now: int, day: int)
    requires WithinDay(s, day) && Acquire(s, x, now).Some?
    ensures WithinDay(Acquire(s, x, now).value, day) && Acquire(s, x, now).value.policy == s.policy
  {
    hide Sound, LimitsKept, Budget, Quiet;
    RecoverSound(s, x);
    SoundElsewhere(Recover(s, x), Acquire(s, x, now).value);
    ReasonsWithinDay(s, Acquire(s, x, now).value, day);
  }

  lemma ControlWithinDay(s: State, operation: Operation, requestId: string, now: int, day: int)
    requires WithinDay(s, day)
    ensures var r := Control(s, operation, requestId, now);
      r.Ok? ==> WithinDay(r.value, day) && r.value.policy == s.policy
  {
    hide Sound, LimitsKept, Budget, Quiet;
    ControlSound(s, operation, requestId, now);
    QuietUnchanged(s);
    var r := Control(s, operation, requestId, now);
    if r.Ok? {
      ReasonsWithinDay(s, r.value, day);
    }
  }

  /** The trades still open are of today, so the owner has none to resolve. */
  lemma ResolveWithinDay(s: State, id: TradeId, reason: string, requestId: string, now: int)
    requires WithinDay(s, Day(now))
    ensures var r := ResolveTrade(s, id, reason, requestId, now); r.Ok? ==> r.value == s
  {
    hide Sound, LimitsKept, DayPnl;
    var i := TradeIndex(s.trades, id);
    if i < |s.trades| {
      assert s.trades[i] in s.trades;
    }
  }

  lemma DayStep(w: World, e: Event, now: int)
    requires DayInv(w, Day(now)) && ExitsAboveStop(w.s, Day(now)) && Enabled(w, e, now)
    requires OfDay(e, now, Day(now))
    ensures DayInv(Step(w, e, now), Day(now)) && Step(w, e, now).s.policy == w.s.policy
  {
    hide Safe, WithinDay, ExitsAboveStop, PrepareTick, Acquire, FailTick, Record, GiveUp, Honest, Lands, Control;
    hide ConfigurePolicy, ResolveTrade;
    StepSafe(w, e, now);
    match e
    case AcquireEvent(x) =>
      if Acquire(w.s, x, now).Some? {
        AcquireWithinDay(w.s, x, now, Day(now));
      }
    case PrepareEvent(x, inputs) =>
      PrepareWithinDay(w, x, inputs, now);
    case GiveUpEvent(x) =>
      if GiveUp(w.s, w.out.flights[x].action.order.id).Some? {
        GiveUpWithinDay(w.s, w.out.flights[x].action.order.id, Day(now));
      }
    case RecordEvent(x) =>
      RecordWithinDay(w.s, x, w.out.flights[x].action, w.out.flights[x].reply, Day(now));
    case FailEvent(x, grace) =>
      FailWithinDay(w.s, x, grace, now, Day(now));
    case ControlEvent(operation, requestId) =>
      ControlWithinDay(w.s, operation, requestId, now, Day(now));
    case ResolveEvent(id, reason, requestId) =>
      ResolveWithinDay(w.s, id, reason, requestId, now);
    case _ =>
  }

  ghost predicate FollowsOfDay(w: World, w': World, day: int) {
    exists e, now :: Enabled(w, e, now) && OfDay(e, now, day) && w' == Step(w, e, now)
  }

  /** The part of a run that falls on one day, from a state reached with no open trade and none closed that day. */
  ghost predicate HonestDay(ws: seq<World>, day: int) {
    && ws != [] && Safe(ws[0]) && LimitsKept(ws[0].s.orders, day)
    && (forall t :: t in ws[0].s.trades ==> Closed(t) && Day(t.closedAt.value) != day)
    && (forall i :: 0 < i < |ws| ==> FollowsOfDay(ws[i - 1], ws[i], day))
  }

  /** Such a day on which no exit of a trade of the day is priced below its stop limit. */
  ghost predicate DayOfRun(ws: seq<World>, day: int) {
    HonestDay(ws, day) && forall i :: 0 <= i < |ws| ==> ExitsAboveStop(ws[i].s, day)
  }

  lemma {:induction false} NothingToday(ts: seq<Trade>, day: int)
    requires forall t :: t in ts ==> !ClosedOn(t, day)
    ensures DayPnl(ts, day, false) == 0
  {
    if ts != [] {
      NothingToday(ts[..|ts| - 1], day);
      assert ts[|ts| - 1] in ts;
    }
  }

  lemma DayBegins(w: World, day: int)
    requires Safe(w) && LimitsKept(w.s.orders, day)
    requires forall t :: t in w.s.trades ==> Closed(t) && Day(t.closedAt.value) != day
    ensures DayInv(w, day)
  {
    hide LimitsKept;
    NothingToday(w.s.trades, day);
  }

  lemma FollowsWithinDay(w: World, w': World, day: int)
    requires DayInv(w, day) && ExitsAboveStop(w.s, day) && FollowsOfDay(w, w', day)
    ensures DayInv(w', day) && w'.s.policy == w.s.policy
  {
    hide DayInv, ExitsAboveStop;
    var e, now :| Enabled(w, e, now) && OfDay(e, now, day) && w' == Step(w, e, now);
    DayStep(w, e, now);
  }

  lemma {:induction false} DayHolds(ws: seq<World>, day: int, i: nat)
    requires DayOfRun(ws, day) && i < |ws|
    ensures DayInv(ws[i], day) && ws[i].s.policy == ws[0].s.policy
  {
    hide DayInv, ExitsAboveStop, LimitsKept, Safe, FollowsOfDay;
    if i == 0 {
      DayBegins(ws[0], day);
    } else {
      DayHolds(ws, day, i - 1);
      FollowsWithinDay(ws[i - 1], ws[i], day);
    }
  }

  /**
   At every moment of the day the realised result is at or above minus the daily loss limit, and every trade closed
   that day lost at most what it was planned to. The budget of an open trade is what keeps the first: what is lost
   already and what it may still lose fit the limit together.
   */
  lemma DailyLossBound(ws: seq<World>, day: int, i: nat)
    requires DayOfRun(ws, day) && i < |ws|
    ensures var s := ws[i].s;
      && -ws[0].s.policy.dailyLoss <= DayPnl(s.trades, day, false)
      && (forall t :: t in s.trades && ClosedOn(t, day) ==> t.netPnl >= -t.plannedRisk)
      && (forall t :: t in s.trades && !Closed(t) ==>
            -ws[0].s.policy.dailyLoss <= DayPnl(s.trades, day, false) - t.plannedRisk)
  {
    hide Safe, Sound, DayPnl, LimitsKept, ExitsAboveStop, DayOfRun;
    DayHolds(ws, day, i);
  }
}
