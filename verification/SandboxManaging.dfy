/**
 What managing one open trade does, said on the record, the quote and the clock alone: when the trade leaves and why,
 when the day locks and the record halts, what happens to each order, and which order is added.
 */
module SandboxManaging {
  import opened Wrappers
  import opened SandboxTypes
  import opened Totals
  import opened SandboxSpec
  import SandboxDecisions

  /** A quote that came within the last ten seconds, with a bid not above the ask. */
  predicate Live(quote: Option<Quote>, now: int) {
    quote.Some? && quote.value.receivedAt <= now <= quote.value.receivedAt + 10000 && 0 < quote.value.bid
    && quote.value.bid <= quote.value.ask
  }

  /** Trading stopped by the owner, a trade of another day, or 15:15 and later. */
  predicate TimeIsUp(s: State, t: Trade, now: int) {
    s.killed || t.id.day != Day(now) || Minutes(now) >= 15 * 60 + 15
  }

  /** The results of the trades opened today and that of this one sold at the bid reach the day's loss limit. */
  predicate LossReached(s: State, t: Trade, bid: int, now: int) {
    OpenedDayPnl(s.trades, Day(now))
    + (bid * Net(t.id, s.orders) + Total(Received, t.id, s.orders) - Total(Spent, t.id, s.orders) - t.costReserve)
    <= -s.policy.dailyLoss
  }

  /** The trade's entry was never sent, and it is too late to send it or the trade is leaving. */
  predicate NeverSent(s: State, t: Trade, now: int) {
    var e := FirstOf(s.orders, t.id, EntryKind);
    e < |s.orders| && s.orders[e].state == Queued
    && (t.exitReason.Some? || TimeIsUp(s, t, now) || now >= t.entryExpiresAt)
  }

  predicate Manages(s: State, i: nat) {
    i < |s.trades| && !Closed(s.trades[i]) && s.trades[i].tickSize > 0
    && FirstOf(s.orders, s.trades[i].id, EntryKind) < |s.orders|
  }

  predicate StopIs(s: State, t: Trade, states: set<OrderState>) {
    var k := FirstOf(s.orders, t.id, StopKind);
    k < |s.orders| && s.orders[k].state in states
  }

  // Freezing the entry changes nothing the decision looks at.

  lemma FrozenTotal(m: Measure, u: TradeId, os: seq<Order>, e: nat, t: Trade, now: int)
    requires e < |os|
    ensures Total(m, u, os[e := FreezeEntry(os[e], t, now)]) == Total(m, u, os)
  {
    TotalUpdate(m, u, os, e, FreezeEntry(os[e], t, now));
  }

  lemma FrozenFirst(os: seq<Order>, e: nat, t: Trade, u: TradeId, k: Kind, now: int)
    requires e < |os|
    ensures FirstOf(os[e := FreezeEntry(os[e], t, now)], u, k) == FirstOf(os, u, k)
  {
    var ps := os[e := FreezeEntry(os[e], t, now)];
    assert forall j :: 0 <= j < |os| ==> ps[j].id == os[j].id;
  }

  /** The reasons that a look at the quote and at the stop gives a trade that has none, in their order. */
  lemma ReviewReason(s: State, t: Trade, quote: Option<Quote>, now: int)
    requires t.exitReason.None?
    ensures var (t', locked) := Review(s, t, quote, now);
      var net := Net(t.id, s.orders);
      var lost := Live(quote, now) && net > 0 && LossReached(s, t, quote.value.bid, now);
      && locked == s.lockedDays + (if lost then {Day(now)} else {})
      && (lost ==> t'.exitReason == Some(DailyLossExit))
      && (!lost && Live(quote, now) && net > 0 && quote.value.bid <= t.stop ==> t'.exitReason == Some(StopBreached))
      && (!lost && Live(quote, now) && net > 0 && quote.value.bid > t.stop && quote.value.bid >= t.target ==>
            t'.exitReason == Some(TargetReached))
      && (!lost && (Live(quote, now) && net > 0 ==> t.stop < quote.value.bid < t.target) ==>
            t'.exitReason ==
            if StopIs(s, t, {Rejected}) then Some(ProtectiveStopRejected)
            else if net > 0 && StopIs(s, t, {Complete, Cancelled, Expired}) then Some(ProtectiveStopEnded)
            else None)
  {
    hide Net, Total, OpenedDayPnl, FirstOf;
  }

  /** The days locked by a look at the quote, whatever reason the trade has. */
  lemma ReviewLocks(s: State, t: Trade, quote: Option<Quote>, now: int)
    ensures var lost := Live(quote, now) && Net(t.id, s.orders) > 0 && LossReached(s, t, quote.value.bid, now);
      Review(s, t, quote, now).1 == s.lockedDays + if lost then {Day(now)} else {}
    ensures t.exitReason.Some? ==> Review(s, t, quote, now).0 == t
  {
    hide Net, Total, OpenedDayPnl, FirstOf;
  }

  /** The record with the entry frozen gives the same answers. */
  lemma FrozenAnswers(s: State, t: Trade, e: nat, live: bool, quote: Option<Quote>, now: int)
    requires e < |s.orders|
    ensures var f := Freeze(s, t, e, live, now);
      && Net(t.id, f.orders) == Net(t.id, s.orders) && f.lockedDays == s.lockedDays && f.trades == s.trades
      && (quote.Some? ==> LossReached(f, t, quote.value.bid, now) == LossReached(s, t, quote.value.bid, now))
      && forall states :: StopIs(f, t, states) == StopIs(s, t, states)
  {
    hide OpenedDayPnl, Net, Total, FirstOf;
    FrozenNet(s.orders, e, t, now);
    FrozenTotal(Received, t.id, s.orders, e, t, now);
    FrozenTotal(Spent, t.id, s.orders, e, t, now);
    FrozenFirst(s.orders, e, t, t.id, StopKind, now);
  }

  lemma FrozenNet(os: seq<Order>, e: nat, t: Trade, now: int)
    requires e < |os|
    ensures Net(t.id, os[e := FreezeEntry(os[e], t, now)]) == Net(t.id, os)
  {
    FrozenTotal(Bought, t.id, os, e, t, now);
    FrozenTotal(Sold, t.id, os, e, t, now);
  }

  lemma ActKeeps(s: State, t: Trade, quote: Option<Quote>, now: int)
    requires t.tickSize > 0
    ensures Act(s, t, quote, now).lockedDays == s.lockedDays && Act(s, t, quote, now).trades == s.trades
  {
    hide Net, Total, FirstOf, WithdrawAll, ChaseExits, NewOrder, FloorTo;
  }

  /**
   Why a trade without a reason leaves, the first of the source's reasons in its order, and that it stays when there
   is none.
   */
  lemma ManageReason(s: State, i: nat, quote: Option<Quote>, now: int)
    requires Manages(s, i) && s.trades[i].exitReason.None?
    ensures |ManageTrade(s, i, quote, now).trades| == |s.trades|
    ensures var t, reason := s.trades[i], ManageTrade(s, i, quote, now).trades[i].exitReason;
      var held := !NeverSent(s, t, now) && Net(t.id, s.orders) > 0;
      var marked := held && Live(quote, now);
      var lost := marked && LossReached(s, t, quote.value.bid, now);
      if s.killed then reason == Some(KillSwitch)
      else if TimeIsUp(s, t, now) then reason == Some(TimeExit)
      else if lost then reason == Some(DailyLossExit)
      else if marked && quote.value.bid <= t.stop then reason == Some(StopBreached)
      else if marked && quote.value.bid >= t.target then reason == Some(TargetReached)
      else if !NeverSent(s, t, now) && StopIs(s, t, {Rejected}) then reason == Some(ProtectiveStopRejected)
      else if held && StopIs(s, t, {Complete, Cancelled, Expired}) then reason == Some(ProtectiveStopEnded)
      else reason == None
  {
    hide Net, Total, OpenedDayPnl, FirstOf, Freeze, Review, Act, StopIs, LossReached;
    var e := FirstOf(s.orders, s.trades[i].id, EntryKind);
    var t := Reasoned(s, s.trades[i], now);
    if !EntryLapsed(s, t, e, now) {
      var live := FreshQuote(quote, now);
      var f := Freeze(s, t, e, live, now);
      FrozenAnswers(s, t, e, live, quote, now);
      ReviewKeepsTrade(f, t, quote, now);
      if t.exitReason.None? {
        ReviewReason(f, t, quote, now);
      } else {
        ReviewLocks(f, t, quote, now);
      }
      var s1 := Prepare(s, i, t, e, quote, now);
      ActKeeps(s1, s1.trades[i], quote, now);
    }
  }

  /** When managing a trade locks the day, and that it changes no trade but the reason of this one. */
  lemma ManageLocks(s: State, i: nat, quote: Option<Quote>, now: int)
    requires Manages(s, i)
    ensures var t, s' := s.trades[i], ManageTrade(s, i, quote, now);
      && |s'.trades| == |s.trades| && s'.trades == s.trades[i := t.(exitReason := s'.trades[i].exitReason)]
      && (t.exitReason.Some? ==> s'.trades == s.trades)
      && s'.lockedDays == s.lockedDays
         + if !NeverSent(s, t, now) && Net(t.id, s.orders) > 0 && Live(quote, now)
              && LossReached(s, t, quote.value.bid, now) then {Day(now)} else {}
  {
    hide Net, Total, OpenedDayPnl, FirstOf, Freeze, Review, Act, StopIs, LossReached;
    var e := FirstOf(s.orders, s.trades[i].id, EntryKind);
    var t := Reasoned(s, s.trades[i], now);
    if !EntryLapsed(s, t, e, now) {
      var live := FreshQuote(quote, now);
      var f := Freeze(s, t, e, live, now);
      FrozenAnswers(s, s.trades[i], e, live, quote, now);
      FrozenAnswers(s, t, e, live, quote, now);
      ReviewKeepsTrade(f, t, quote, now);
      ReviewLocks(f, t, quote, now);
      SameLoss(s, s.trades[i], t, quote, now);
      var s1 := Prepare(s, i, t, e, quote, now);
      ActKeeps(s1, s1.trades[i], quote, now);
    }
  }

  lemma SameLoss(s: State, t: Trade, u: Trade, quote: Option<Quote>, now: int)
    requires u == t.(exitReason := u.exitReason)
    ensures quote.Some? ==> LossReached(s, u, quote.value.bid, now) == LossReached(s, t, quote.value.bid, now)
  {
  }

  // Orders.

  /** Every entry and stop of the trade is finished, or was never sent and so expires when the trade leaves. */
  ghost predicate GuardsOver(os: seq<Order>, t: TradeId) {
    forall k :: 0 <= k < |os| && os[k].id.trade == t && !os[k].id.kind.ExitKind? ==>
      Terminal(os[k]) || os[k].state.Queued?
  }

  ghost predicate NoExitWorks(os: seq<Order>, t: TradeId) {
    forall k :: 0 <= k < |os| && os[k].id.trade == t && os[k].id.kind.ExitKind? ==> Terminal(os[k])
  }

  /** What is held can be sold, but three exits were tried already. */
  ghost predicate OutOfExits(os: seq<Order>, t: TradeId, live: bool) {
    live && Net(t, os) > 0 && GuardsOver(os, t) && NoExitWorks(os, t) && Total(Placed(ExitKind), t, os) >= 3
  }

  /** An entry or stop of a leaving trade: one that was never sent expires, any other is to be cancelled. */
  predicate GuardLeaves(o: Order, o': Order, live: bool) {
    o' == if Terminal(o) then o
      else if o.state == Queued then o.(state := Expired)
      else if o.id.kind.EntryKind? || live then o.(wantCancel := true)
      else o
  }

  /** An exit that did not fill within fifteen seconds is to be cancelled. */
  predicate ExitChased(o: Order, o': Order, now: int) {
    o' == o.(wantCancel := o.wantCancel
      || (Working(o) && o.submittedAt.Some? && now - o.submittedAt.value >= 15000))
  }

  lemma WithdrawnGuards(os: seq<Order>, t: TradeId, live: bool)
    ensures var ws := WithdrawAll(os, t, live);
      GuardsWorking(ws, t) == !GuardsOver(os, t) && ExitWorking(ws, t) == !NoExitWorks(os, t)
  {
    var ws := WithdrawAll(os, t, live);
    if GuardsOver(os, t) {
      forall o | o in ws && o.id.trade == t && !o.id.kind.ExitKind? ensures Terminal(o) {
        var k :| 0 <= k < |ws| && ws[k] == o;
        assert os[k].id == o.id;
      }
    } else {
      var k :| 0 <= k < |os| && os[k].id.trade == t && !os[k].id.kind.ExitKind? && !Terminal(os[k])
        && !os[k].state.Queued?;
      assert ws[k] in ws;
    }
    if NoExitWorks(os, t) {
      forall o | o in ws && o.id.trade == t && o.id.kind.ExitKind? ensures Terminal(o) {
        var k :| 0 <= k < |ws| && ws[k] == o;
        assert os[k].id == o.id;
      }
    } else {
      var k :| 0 <= k < |os| && os[k].id.trade == t && os[k].id.kind.ExitKind? && !Terminal(os[k]);
      assert ws[k] in ws;
    }
  }

  lemma WithdrawnPlaced(os: seq<Order>, t: TradeId, live: bool)
    ensures Total(Placed(ExitKind), t, WithdrawAll(os, t, live)) == Total(Placed(ExitKind), t, os)
  {
    TotalSame(Placed(ExitKind), t, WithdrawAll(os, t, live), os);
  }

  /** One order while its trade leaves; exits are looked at only once the guards are over and an exit may be tried. */
  predicate OrderLeaves(o: Order, o': Order, t: TradeId, live: bool, chase: bool, now: int) {
    if o.id.trade != t then o' == o
    else if !o.id.kind.ExitKind? then GuardLeaves(o, o', live)
    else if chase then ExitChased(o, o', now)
    else o' == o
  }

  /** One order while its trade stays. */
  predicate OrderStays(o: Order, o': Order, t: TradeId, now: int) {
    if o.id.trade == t && o.id.kind.ExitKind? then ExitChased(o, o', now) else o' == o
  }

  /** An exit is added: everything is finished, something is held, and the bid pays for at least one tick. */
  ghost predicate ExitAdded(os: seq<Order>, t: Trade, live: bool, bid: int) {
    GuardsOver(os, t.id) && NoExitWorks(os, t.id) && live && Net(t.id, os) > 0
    && Total(Placed(ExitKind), t.id, os) < 3 && bid >= t.tickSize
  }

  /** An order that was not sent yet sells all that is held. */
  predicate SellsAll(o: Order, t: Trade, kind: Kind, net: int) {
    o.id.trade == t.id && o.id.kind == kind && o.quantity == net && o.state == Queued && o.brokerId.None?
    && o.filled == 0 && o.cancelState == NoCancel && o.submittedAt.None? && !o.wantCancel && o.cancelAttempts == 0
  }

  lemma TickPaid(bid: int, tick: int)
    requires tick > 0
    ensures FloorTo(bid, tick) > 0 <==> bid >= tick
  {
    SandboxDecisions.FloorToIs(bid, tick);
    if FloorTo(bid, tick) > 0 {
      MultipleIsNoLess(FloorTo(bid, tick), tick);
    }
  }

  lemma MultipleIsNoLess(f: int, tick: int)
    requires tick > 0 && f % tick == 0 && f > 0
    ensures f >= tick
  {
  }

  lemma LeaveOrders(s: State, t: Trade, live: bool, bid: int, now: int)
    requires t.tickSize > 0
    ensures var s' := Leave(s, t, live, bid, now);
      && |s'.orders| >= |s.orders|
      && var chase := GuardsOver(s.orders, t.id) && !OutOfExits(s.orders, t.id, live);
      forall k :: 0 <= k < |s.orders| ==> OrderLeaves(s.orders[k], s'.orders[k], t.id, live, chase, now)
  {
    hide Net, Total, NewOrder, FloorTo, GuardsOver, GuardsWorking, ExitWorking, NoExitWorks;
    WithdrawnGuards(s.orders, t.id, live);
    WithdrawnPlaced(s.orders, t.id, live);
  }

  lemma LeaveAdds(s: State, t: Trade, live: bool, bid: int, now: int)
    requires t.tickSize > 0
    ensures var s', os := Leave(s, t, live, bid, now), s.orders;
      && (if OutOfExits(os, t.id, live) then s'.haltReason == Some(ExitAttemptsExhausted) && !s'.armed
          else s'.haltReason == s.haltReason && s'.armed == s.armed)
      && |s'.orders| == |os| + (if ExitAdded(os, t, live, bid) then 1 else 0)
      && (ExitAdded(os, t, live, bid) ==>
            var o := s'.orders[|os|];
            && SellsAll(o, t, ExitKind, Net(t.id, os)) && o.trigger == 0
            && o.price % t.tickSize == 0 && bid - t.tickSize < o.price <= bid)
  {
    hide Net, Total, FloorTo, GuardsOver, GuardsWorking, ExitWorking, NoExitWorks, ChaseExit, Withdraw;
    WithdrawnGuards(s.orders, t.id, live);
    WithdrawnPlaced(s.orders, t.id, live);
    SandboxDecisions.FloorToIs(bid, t.tickSize);
    TickPaid(bid, t.tickSize);
  }

  /** A stop is added: the entry is finished, something is held, and there is no stop yet. */
  ghost predicate StopAdded(os: seq<Order>, t: Trade) {
    var e := FirstOf(os, t.id, EntryKind);
    && e < |os| && Terminal(os[e]) && Net(t.id, os) > 0
    && forall k :: 0 <= k < |os| ==> !(os[k].id.trade == t.id && os[k].id.kind.StopKind?)
  }

  lemma ProtectAdds(s: State, t: Trade, now: int)
    ensures var s', os := Protect(s, t, now), s.orders;
      && s'.haltReason == s.haltReason && s'.armed == s.armed
      && |s'.orders| == |os| + (if StopAdded(os, t) then 1 else 0)
      && (StopAdded(os, t) ==>
            && SellsAll(s'.orders[|os|], t, StopKind, Net(t.id, os))
            && s'.orders[|os|].price == t.stopLimit && s'.orders[|os|].trigger == t.stop)
  {
    hide Net, Total, ChaseExit;
    var k := FirstOf(s.orders, t.id, StopKind);
  }

  lemma ProtectOrders(s: State, t: Trade, now: int)
    ensures var s' := Protect(s, t, now);
      && |s'.orders| >= |s.orders|
      && forall k :: 0 <= k < |s.orders| ==> OrderStays(s.orders[k], s'.orders[k], t.id, now)
  {
    hide Net, Total, FirstOf, NewOrder;
  }

  /** The orders once the entry is frozen: nothing more may be bought when some was, or when its time is over. */
  function EntryFrozen(os: seq<Order>, e: nat, t: Trade, now: int): (r: seq<Order>)
    requires e < |os|
    ensures |r| == |os|
  {
    var o := os[e];
    os[e := o.(wantCancel := o.wantCancel || (!Terminal(o) && (o.filled > 0 || now >= t.entryExpiresAt)))]
  }

  /** An entry that was not sent in time expires, and nothing else happens. */
  lemma ManageUnsent(s: State, i: nat, quote: Option<Quote>, now: int)
    requires Manages(s, i) && NeverSent(s, s.trades[i], now)
    ensures var s', e := ManageTrade(s, i, quote, now), FirstOf(s.orders, s.trades[i].id, EntryKind);
      s' == s.(trades := s'.trades, orders := s.orders[e := s.orders[e].(state := Expired)])
  {
    hide Net, Total, FirstOf, Prepare, Act;
  }

  /** Managing is preparing and then leaving or staying, with the frozen entry. */
  lemma ManageActs(s: State, i: nat, quote: Option<Quote>, now: int) returns (s1: State)
    requires Manages(s, i) && !NeverSent(s, s.trades[i], now)
    ensures var s', e := ManageTrade(s, i, quote, now), FirstOf(s.orders, s.trades[i].id, EntryKind);
      && |s'.trades| == |s.trades|
      && var os, t, live := EntryFrozen(s.orders, e, s.trades[i], now), s'.trades[i], Live(quote, now);
      && t == s.trades[i].(exitReason := t.exitReason) && s1.orders == os
      && s1.haltReason == (if !live && Net(t.id, os) > 0 then Some(PositionQuoteStale) else s.haltReason)
      && s1.armed == (s.armed && (live || Net(t.id, os) <= 0))
      && s' == if t.exitReason.Some? then Leave(s1, t, live, if live then quote.value.bid else 0, now)
               else Protect(s1, t, now)
  {
    hide Net, Total, FirstOf, Leave, Protect, Review;
    var e := FirstOf(s.orders, s.trades[i].id, EntryKind);
    var t := Reasoned(s, s.trades[i], now);
    var live := FreshQuote(quote, now);
    var f := Freeze(s, t, e, live, now);
    FrozenNet(s.orders, e, t, now);
    ReviewKeepsTrade(f, t, quote, now);
    s1 := Prepare(s, i, t, e, quote, now);
    ActShape(s1, s1.trades[i], quote, now);
    assert s1.orders == EntryFrozen(s.orders, e, s.trades[i], now);
  }

  /** What managing does to each order there is. */
  lemma ManageOrders(s: State, i: nat, quote: Option<Quote>, now: int)
    requires Manages(s, i) && !NeverSent(s, s.trades[i], now)
    ensures var s', e := ManageTrade(s, i, quote, now), FirstOf(s.orders, s.trades[i].id, EntryKind);
      && |s'.trades| == |s.trades| && |s'.orders| >= |s.orders|
      && var os, t, live := EntryFrozen(s.orders, e, s.trades[i], now), s'.trades[i], Live(quote, now);
      forall k :: 0 <= k < |s.orders| ==>
        if t.exitReason.Some?
        then OrderLeaves(os[k], s'.orders[k], t.id, live, GuardsOver(os, t.id) && !OutOfExits(os, t.id, live), now)
        else OrderStays(os[k], s'.orders[k], t.id, now)
  {
    hide Net, Total, FirstOf, Leave, Protect, OrderLeaves, OrderStays, GuardsOver, OutOfExits, NeverSent, ManageTrade;
    var s1 := ManageActs(s, i, quote, now);
    var t, live := ManageTrade(s, i, quote, now).trades[i], Live(quote, now);
    if t.exitReason.Some? {
      LeaveOrders(s1, t, live, if live then quote.value.bid else 0, now);
    } else {
      ProtectOrders(s1, t, now);
    }
  }

  /** Sells all that is held at the highest tick not above the bid. */
  predicate SellsAtBid(o: Order, t: Trade, net: int, bid: int) {
    SellsAll(o, t, ExitKind, net) && o.trigger == 0 && t.tickSize > 0
    && o.price % t.tickSize == 0 && bid - t.tickSize < o.price <= bid
  }

  predicate SellsAtStop(o: Order, t: Trade, net: int) {
    SellsAll(o, t, StopKind, net) && o.price == t.stopLimit && o.trigger == t.stop
  }

  /** The orders as they were in number, with one more at the end when there is something to add. */
  ghost predicate Adds(os: seq<Order>, os': seq<Order>, t: Trade, quote: Option<Quote>, now: int) {
    if t.exitReason.Some? && Live(quote, now) && ExitAdded(os, t, true, quote.value.bid) then
      |os'| == |os| + 1 && SellsAtBid(os'[|os|], t, Net(t.id, os), quote.value.bid)
    else if t.exitReason.None? && StopAdded(os, t) then
      |os'| == |os| + 1 && SellsAtStop(os'[|os|], t, Net(t.id, os))
    else |os'| == |os|
  }

  /** Entries stop when a position has no usable quote, or when it cannot be sold after three exits. */
  ghost predicate Halts(s: State, s': State, os: seq<Order>, t: Trade, live: bool) {
    if t.exitReason.Some? && OutOfExits(os, t.id, live)
    then s'.haltReason == Some(ExitAttemptsExhausted) && !s'.armed
    else if !live && Net(t.id, os) > 0 then s'.haltReason == Some(PositionQuoteStale) && !s'.armed
    else s'.haltReason == s.haltReason && s'.armed == s.armed
  }

  /** Which order managing adds, and when it halts. */
  lemma ManageAdds(s: State, i: nat, quote: Option<Quote>, now: int)
    requires Manages(s, i) && !NeverSent(s, s.trades[i], now)
    ensures var s', e := ManageTrade(s, i, quote, now), FirstOf(s.orders, s.trades[i].id, EntryKind);
      && |s'.trades| == |s.trades|
      && var os, t := EntryFrozen(s.orders, e, s.trades[i], now), s'.trades[i];
      Halts(s, s', os, t, Live(quote, now)) && Adds(os, s'.orders, t, quote, now)
  {
    hide Net, Total, FirstOf, Leave, Protect, SellsAll, GuardsOver, NoExitWorks, StopAdded, NeverSent, ManageTrade;
    hide EntryFrozen;
    var s1 := ManageActs(s, i, quote, now);
    var t, live := ManageTrade(s, i, quote, now).trades[i], Live(quote, now);
    if t.exitReason.Some? {
      LeaveAdds(s1, t, live, if live then quote.value.bid else 0, now);
    } else {
      ProtectAdds(s1, t, now);
    }
  }
}
