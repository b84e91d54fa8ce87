/**
 What every step of the sandbox executor keeps.

 Sound says, of the whole record: one open trade at most, every working order in it, one entry, at most one stop and
 three exits per trade, never a stop and an exit working together, at most three cancel requests per order, at most
 one submission in doubt, and per trade that everything the SELL side has sold or may still sell was bought.
 */
module SandboxInvariant {
  import opened SandboxTypes
  import opened Totals
  import opened SandboxSpec

  ghost predicate UniqueOrders(os: seq<Order>) {
    forall i, j :: 0 <= i < j < |os| ==> os[i].id != os[j].id
  }

  ghost predicate UniqueTrades(ts: seq<Trade>) {
    forall i, j :: 0 <= i < j < |ts| ==> ts[i].id != ts[j].id
  }

  ghost predicate OneOpen(ts: seq<Trade>) {
    forall i, j :: 0 <= i < j < |ts| ==> Closed(ts[i]) || Closed(ts[j])
  }

  ghost predicate OneEntryPerBreakout(ts: seq<Trade>) {
    forall i, j :: 0 <= i < j < |ts| && ts[i].breakoutId.Some? ==> ts[i].breakoutId != ts[j].breakoutId
  }

  ghost predicate WithinDailyLimit(ts: seq<Trade>, limit: int) {
    forall day :: OpenedOn(ts, day) <= Max(limit, 0)
  }

  /** The broker may have been asked to place this order, and has not said. */
  predicate InDoubt(o: Order) {
    o.state in {Submitting, Uncertain}
  }

  ghost predicate OneInDoubt(os: seq<Order>) {
    forall i, j :: 0 <= i < j < |os| ==> !InDoubt(os[i]) || !InDoubt(os[j])
  }

  predicate OrderOk(o: Order) {
    && 0 <= o.filled <= o.quantity && 0 < o.quantity
    && o.cancelAttempts <= 3
    && (Working(o) && o.cancelState == NoCancel ==> o.cancelAttempts < 3)
    && (o.brokerId.None? ==> o.filled == 0)
    && (o.state == Queued ==> o.brokerId.None?)
    && o.price > 0 && (if o.id.kind.StopKind? then o.price < o.trigger else o.trigger == 0)
    && o.id.seqNo < if o.id.kind.ExitKind? then 3 else 1
  }

  /** An order belongs to a trade of the record, and works only while that trade is open. */
  ghost predicate Homed(ts: seq<Trade>, o: Order) {
    exists i :: 0 <= i < |ts| && ts[i].id == o.id.trade && (Working(o) ==> !Closed(ts[i]))
  }

  ghost predicate OrdersOk(ts: seq<Trade>, os: seq<Order>) {
    UniqueOrders(os) && forall i :: 0 <= i < |os| ==> OrderOk(os[i]) && Homed(ts, os[i])
  }

  ghost predicate NumberedInTurn(t: TradeId, os: seq<Order>) {
    forall i :: 0 <= i < |os| && os[i].id.trade == t ==> os[i].id.seqNo < Total(Placed(os[i].id.kind), t, os)
  }

  /** Nothing is sold before the entry is finished, and a stop and an exit never work together. */
  ghost predicate InSequence(t: TradeId, os: seq<Order>) {
    forall i, j :: 0 <= i < |os| && 0 <= j < |os| && os[i].id.trade == t && os[j].id.trade == t && Working(os[i]) ==>
      && (os[i].id.kind.EntryKind? ==> os[j].id.kind.EntryKind?)
      && (os[i].id.kind.StopKind? && os[j].id.kind.ExitKind? ==> Terminal(os[j]))
  }

  ghost predicate ExitsExplained(t: Trade, os: seq<Order>) {
    !Closed(t) && t.exitReason.None? ==> forall i :: 0 <= i < |os| && os[i].id.trade == t.id ==>
      !os[i].id.kind.ExitKind?
  }

  predicate TermsOk(t: Trade) {
    t.tickSize > 0 && 0 < t.quantity <= 100000 && 0 < t.stopLimit < t.stop && 0 <= t.costReserve
  }

  /** The entry's price and the stop's prices are those the risk was planned with. */
  ghost predicate PricedAsPlanned(t: Trade, os: seq<Order>) {
    forall i :: 0 <= i < |os| && os[i].id.trade == t.id ==>
      && (os[i].id.kind.EntryKind? ==>
            t.stopLimit < os[i].price && (os[i].price - t.stopLimit) * t.quantity + t.costReserve == t.plannedRisk)
      && (os[i].id.kind.StopKind? ==> os[i].price == t.stopLimit && os[i].trigger == t.stop)
  }

  ghost predicate TradeOk(t: Trade, os: seq<Order>) {
    && TermsOk(t)
    && Total(Ordered, t.id, os) == t.quantity
    && Total(Placed(EntryKind), t.id, os) == 1 && Total(Placed(StopKind), t.id, os) <= 1
       && Total(Placed(ExitKind), t.id, os) <= 3
    && NumberedInTurn(t.id, os)
    && InSequence(t.id, os)
    && PricedAsPlanned(t, os)
    && ExitsExplained(t, os)
    && Total(Committed, t.id, os) <= Total(Bought, t.id, os)
    && (Closed(t) && !t.resolved ==> Net(t.id, os) == 0)
    && (t.resolved ==> Closed(t))
  }

  ghost predicate TradesOk(ts: seq<Trade>, os: seq<Order>) {
    forall i :: 0 <= i < |ts| ==> TradeOk(ts[i], os)
  }

  /** What the record's own check asks of the policy before and after every step. */
  predicate PolicyOk(p: Policy) {
    && 0 < p.capital <= 1000000 && 0 < p.perTradeRisk <= p.dailyLoss <= 100000 && 0 <= p.costReserve
    && 1 <= p.maxTradesPerDay <= 10 && 1 <= p.maxConsecutiveLosses <= 5
  }

  ghost predicate Sound(s: State) {
    && PolicyOk(s.policy)
    && UniqueTrades(s.trades) && OneOpen(s.trades) && OneEntryPerBreakout(s.trades)
    && WithinDailyLimit(s.trades, s.policy.maxTradesPerDay)
    && OrdersOk(s.trades, s.orders) && OneInDoubt(s.orders)
    && TradesOk(s.trades, s.orders)
  }

  // One order changing in place.

  ghost predicate OrderStep(o: Order, p: Order) {
    && p.id == o.id && p.quantity == o.quantity && p.price == o.price && p.trigger == o.trigger
    && OrderOk(p)
    && o.filled <= p.filled
    && (Terminal(o) ==> Terminal(p) && p.filled == o.filled)
    && (p.state == Queued ==> o.state == Queued)
  }

  ghost predicate OrderSteps(os: seq<Order>, ps: seq<Order>) {
    |os| == |ps| && forall i :: 0 <= i < |os| ==> OrderStep(os[i], ps[i])
  }

  lemma OrderStepsTotals(t: TradeId, os: seq<Order>, ps: seq<Order>)
    requires OrderSteps(os, ps)
    ensures forall k :: Total(Placed(k), t, ps) == Total(Placed(k), t, os)
    ensures Total(Ordered, t, ps) == Total(Ordered, t, os)
    ensures Total(Committed, t, ps) <= Total(Committed, t, os)
    ensures Total(Bought, t, os) <= Total(Bought, t, ps)
    ensures AllTerminal(os, t) ==> Net(t, ps) == Net(t, os)
  {
    forall k ensures Total(Placed(k), t, ps) == Total(Placed(k), t, os) {
      assert forall i :: 0 <= i < |os| ==> Weight(Placed(k), t, os[i]) == Weight(Placed(k), t, ps[i]);
      TotalSame(Placed(k), t, os, ps);
    }
    TotalSame(Ordered, t, os, ps);
    TotalMonotone(Committed, t, ps, os);
    TotalMonotone(Bought, t, os, ps);
    if AllTerminal(os, t) {
      forall i | 0 <= i < |os|
        ensures Weight(Bought, t, os[i]) == Weight(Bought, t, ps[i])
        ensures Weight(Sold, t, os[i]) == Weight(Sold, t, ps[i])
      {
        assert os[i] in os;
      }
      TotalSame(Bought, t, os, ps);
      TotalSame(Sold, t, os, ps);
    }
  }

  lemma ClosedMeansTerminal(ts: seq<Trade>, os: seq<Order>, i: nat)
    requires UniqueTrades(ts) && OrdersOk(ts, os) && i < |ts| && Closed(ts[i])
    ensures AllTerminal(os, ts[i].id)
  {
    forall o | o in os && o.id.trade == ts[i].id ensures Terminal(o) {
      var k :| 0 <= k < |os| && os[k] == o;
      assert Homed(ts, os[k]);
    }
  }

  lemma OrderStepsKeepTrade(t: Trade, os: seq<Order>, ps: seq<Order>)
    requires TradeOk(t, os) && OrderSteps(os, ps) && (Closed(t) ==> AllTerminal(os, t.id))
    ensures TradeOk(t, ps)
  {
    OrderStepsTotals(t.id, os, ps);
  }

  /** Changing orders in place keeps the structure of the record. */
  lemma OrderStepsKeep(ts: seq<Trade>, os: seq<Order>, ps: seq<Order>)
    requires UniqueTrades(ts) && OrdersOk(ts, os) && TradesOk(ts, os) && OrderSteps(os, ps)
    ensures OrdersOk(ts, ps) && TradesOk(ts, ps)
  {
    forall i | 0 <= i < |ps| ensures Homed(ts, ps[i]) {
      assert Homed(ts, os[i]);
    }
    forall i | 0 <= i < |ts| ensures TradeOk(ts[i], ps) {
      if Closed(ts[i]) {
        ClosedMeansTerminal(ts, os, i);
      }
      OrderStepsKeepTrade(ts[i], os, ps);
    }
  }

  /** A trade that only gained a reason to leave, or was settled while flat, is as well formed as before. */
  lemma TradeFieldsKeep(t: Trade, u: Trade, os: seq<Order>)
    requires TradeOk(t, os) && SameTerms(t, u)
    requires Closed(u) || (!Closed(t) && (t.exitReason.Some? ==> u.exitReason.Some?))
    requires Closed(u) && !u.resolved ==> Net(t.id, os) == 0
    requires u.resolved ==> Closed(u)
    ensures TradeOk(u, os)
  {
    hide Net;
  }

  /** What a trade keeps of its plan for good. */
  predicate SameTerms(t: Trade, u: Trade) {
    && u.id == t.id && u.breakoutId == t.breakoutId && u.tickSize == t.tickSize && u.quantity == t.quantity
    && u.stop == t.stop && u.stopLimit == t.stopLimit && u.plannedRisk == t.plannedRisk
       && u.costReserve == t.costReserve
  }

  /** Trades may gain a reason to leave. */
  lemma ReasonsKeep(ts: seq<Trade>, us: seq<Trade>, os: seq<Order>)
    requires SameButReasons(ts, us)
    requires forall i :: 0 <= i < |ts| && ts[i].exitReason.Some? ==> us[i].exitReason.Some?
    requires OrdersOk(ts, os) && TradesOk(ts, os)
    ensures OrdersOk(us, os) && TradesOk(us, os)
  {
    hide OrderOk;
    forall i | 0 <= i < |os| ensures Homed(us, os[i]) {
      assert Homed(ts, os[i]);
      var k :| 0 <= k < |ts| && ts[k].id == os[i].id.trade && (Working(os[i]) ==> !Closed(ts[k]));
      assert us[k].id == ts[k].id;
    }
    forall i | 0 <= i < |us| ensures TradeOk(us[i], os) {
      ReasonKeeps(ts[i], us[i], os);
    }
  }

  lemma ReasonKeeps(t: Trade, u: Trade, os: seq<Order>)
    requires TradeOk(t, os) && u == t.(exitReason := u.exitReason) && (t.exitReason.Some? ==> u.exitReason.Some?)
    ensures TradeOk(u, os)
  {
    TradeFieldsKeep(t, u, os);
  }

  // Adding an order.

  ghost predicate MayAdd(t: Trade, os: seq<Order>, o: Order) {
    && !Closed(t) && o.id.trade == t.id && OrderOk(o) && o.state == Queued
    && o.id.seqNo == Total(Placed(o.id.kind), t.id, os)
    && !o.id.kind.EntryKind?
    && (forall i :: 0 <= i < |os| && os[i].id.trade == t.id ==> Terminal(os[i]))
    && (o.id.kind.ExitKind? ==> t.exitReason.Some?)
    && (o.id.kind.StopKind? ==> o.price == t.stopLimit && o.trigger == t.stop)
    && o.quantity <= Net(t.id, os)
  }

  lemma CommittedIsSold(t: TradeId, os: seq<Order>)
    requires forall i :: 0 <= i < |os| && os[i].id.trade == t ==> Terminal(os[i])
    ensures Total(Committed, t, os) == Total(Sold, t, os)
  {
    if os != [] {
      CommittedIsSold(t, os[..|os| - 1]);
    }
  }

  lemma AddKeeps(ts: seq<Trade>, os: seq<Order>, k: nat, o: Order)
    requires UniqueTrades(ts) && OrdersOk(ts, os) && TradesOk(ts, os) && k < |ts| && MayAdd(ts[k], os, o)
    ensures OrdersOk(ts, os + [o]) && TradesOk(ts, os + [o])
  {
    var ps := os + [o];
    forall i | 0 <= i < |os| ensures os[i].id != o.id && Homed(ts, os[i]) && OrderOk(os[i]) {
      assert NumberedInTurn(ts[k].id, os);
    }
    assert Homed(ts, o);
    forall i | 0 <= i < |ts| ensures TradeOk(ts[i], ps) {
      assert TradeOk(ts[i], os);
      AddToTrade(ts[k], ts[i], os, o);
    }
  }

  /** An order of another trade changes nothing for this one. */
  lemma AddElsewhere(u: Trade, os: seq<Order>, o: Order)
    requires TradeOk(u, os) && o.id.trade != u.id
    ensures TradeOk(u, os + [o])
  {
    forall m ensures Total(m, u.id, os + [o]) == Total(m, u.id, os) {
      TotalAppend(m, u.id, os, o);
    }
  }

  lemma AddToTrade(t: Trade, u: Trade, os: seq<Order>, o: Order)
    requires MayAdd(t, os, o) && TradeOk(u, os) && (u.id == t.id ==> u == t)
    ensures TradeOk(u, os + [o])
  {
    if u != t {
      AddElsewhere(u, os, o);
    } else {
      CommittedIsSold(t.id, os);
      AddToOwn(t, os, o);
    }
  }

  lemma AddToOwn(t: Trade, os: seq<Order>, o: Order)
    requires MayAdd(t, os, o) && TradeOk(t, os) && Total(Committed, t.id, os) == Total(Sold, t.id, os)
    ensures TradeOk(t, os + [o])
  {
    hide NumberedInTurn, PricedAsPlanned, InSequence, ExitsExplained, Total;
    forall m ensures Total(m, t.id, os + [o]) == Total(m, t.id, os) + Weight(m, t.id, o) {
      TotalAppend(m, t.id, os, o);
    }
    AddedInTurn(t, os, o);
    AddedInPlace(t, os, o);
  }

  lemma AddedInTurn(t: Trade, os: seq<Order>, o: Order)
    requires o.id.trade == t.id && o.id.seqNo == Total(Placed(o.id.kind), t.id, os) && NumberedInTurn(t.id, os)
    ensures NumberedInTurn(t.id, os + [o])
  {
    forall k ensures Total(Placed(k), t.id, os + [o]) == Total(Placed(k), t.id, os) + if o.id.kind == k then 1 else 0 {
      TotalAppend(Placed(k), t.id, os, o);
    }
    hide Total;
  }

  lemma AddedInPlace(t: Trade, os: seq<Order>, o: Order)
    requires MayAdd(t, os, o) && PricedAsPlanned(t, os) && ExitsExplained(t, os)
    ensures InSequence(t.id, os + [o]) && PricedAsPlanned(t, os + [o]) && ExitsExplained(t, os + [o])
  {
    hide Total;
  }
}
