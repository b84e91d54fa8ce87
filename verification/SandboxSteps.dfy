/** Each step of the executor keeps the record sound. */
module SandboxSteps {
  import opened Wrappers
  import opened SandboxTypes
  import opened Totals
  import opened SandboxSpec
  import opened SandboxInvariant

  // Steps that only send orders towards their end without hearing from the broker.

  /** The broker's part of an order is untouched; a queued order may expire, a submission may become uncertain. */
  ghost predicate QuietStep(o: Order, p: Order) {
    && OrderStep(o, p) && p.filled == o.filled && p.average == o.average && p.brokerId == o.brokerId
    && (p.state == o.state || (o.state == Queued && p.state == Expired)
       || (o.state == Submitting && p.state == Uncertain))
  }

  ghost predicate Unsent(o: Order) {
    o.state in {Queued, Expired} && o.brokerId.None? && o.filled == 0 && o.average == 0
  }

  ghost predicate Quiet(os: seq<Order>, ps: seq<Order>) {
    && |os| <= |ps|
    && (forall i :: 0 <= i < |os| ==> QuietStep(os[i], ps[i]))
    && (forall i :: |os| <= i < |ps| ==> Unsent(ps[i]))
  }

  lemma QuietSelf(ts: seq<Trade>, os: seq<Order>)
    requires OrdersOk(ts, os)
    ensures Quiet(os, os) && OrderSteps(os, os)
  {
  }

  lemma QuietUnchanged(s: State)
    requires Sound(s)
    ensures Quiet(s.orders, s.orders)
  {
    QuietSelf(s.trades, s.orders);
  }

  lemma OrderOkAt(s: State, i: nat)
    requires Sound(s) && i < |s.orders|
    ensures OrderOk(s.orders[i])
  {
  }

  lemma SoundElsewhere(s: State, s': State)
    requires Sound(s) && s'.orders == s.orders && s'.trades == s.trades && s'.policy == s.policy
    ensures Sound(s')
  {
  }

  lemma QuietCompose(os: seq<Order>, ps: seq<Order>, qs: seq<Order>)
    requires Quiet(os, ps) && Quiet(ps, qs)
    ensures Quiet(os, qs)
  {
    forall i | 0 <= i < |os| ensures QuietStep(os[i], qs[i]) {
      assert QuietStep(os[i], ps[i]) && QuietStep(ps[i], qs[i]);
    }
    forall i | |os| <= i < |qs| ensures Unsent(qs[i]) {
      if i < |ps| {
        assert Unsent(ps[i]) && QuietStep(ps[i], qs[i]);
      }
    }
  }

  lemma QuietInPlace(s: State, s': State)
    requires Sound(s) && Quiet(s.orders, s'.orders) && |s'.orders| == |s.orders|
    requires s'.trades == s.trades && s'.policy == s.policy
    ensures Sound(s')
  {
    hide TradesOk, OrdersOk, WithinDailyLimit, OneEntryPerBreakout;
    OrderStepsKeep(s.trades, s.orders, s'.orders);
  }

  lemma OpenedOnSame(ts: seq<Trade>, us: seq<Trade>, day: int)
    requires |ts| == |us| && forall i :: 0 <= i < |ts| ==> us[i].id == ts[i].id
    ensures OpenedOn(us, day) == OpenedOn(ts, day)
  {
    if ts != [] {
      OpenedOnSame(ts[..|ts| - 1], us[..|us| - 1], day);
    }
  }

  lemma ReasonsSound(s: State, s': State)
    requires Sound(s) && SameButReasons(s.trades, s'.trades)
    requires forall i :: 0 <= i < |s.trades| && s.trades[i].exitReason.Some? ==> s'.trades[i].exitReason.Some?
    requires s'.orders == s.orders && s'.policy == s.policy
    ensures Sound(s')
  {
    ReasonsKeep(s.trades, s'.trades, s.orders);
    forall day ensures OpenedOn(s'.trades, day) == OpenedOn(s.trades, day) {
      OpenedOnSame(s.trades, s'.trades, day);
    }
    forall i, j | 0 <= i < j < |s.trades|
      ensures s'.trades[i].id != s'.trades[j].id
      ensures Closed(s'.trades[i]) || Closed(s'.trades[j])
      ensures s'.trades[i].breakoutId.Some? ==> s'.trades[i].breakoutId != s'.trades[j].breakoutId
    {
      assert Closed(s.trades[i]) || Closed(s.trades[j]);
    }
  }

  // Owner commands and take-over.

  lemma ControlSound(s: State, operation: Operation, requestId: string, now: int)
    requires Sound(s)
    ensures var r := Control(s, operation, requestId, now); r.Ok? ==> Sound(r.value) && r.value.orders == s.orders
  {
    if operation == StopOperation {
      ReasonsSound(s, s.(killed := true, armed := false, trades := ExitAll(s.trades, KillSwitch)));
    }
  }

  lemma ConfigureSound(s: State, dailyLoss: int, risk: Option<int>, losses: Option<int>, requestId: string, now: int)
    requires Sound(s)
    ensures var r := ConfigurePolicy(s, dailyLoss, risk, losses, requestId, now);
      r.Ok? ==> Sound(r.value) && r.value.orders == s.orders && r.value.trades == s.trades
  {
  }

  lemma RecoverSound(s: State, bootId: string)
    requires Sound(s)
    ensures Sound(Recover(s, bootId)) && Quiet(s.orders, Recover(s, bootId).orders)
  {
    hide Sound;
    if s.bootId == Some(bootId) {
      QuietUnchanged(s);
    } else {
      var s1 := s.(trades := ExitAll(s.trades, Restart));
      ReasonsSound(s, s1);
      forall i | 0 <= i < |s.orders| ensures QuietStep(s.orders[i], Interrupted(s.orders[i])) {
        OrderOkAt(s, i);
      }
      var s2 := s1.(orders := InterruptAll(s.orders));
      QuietInPlace(s1, s2);
      SoundElsewhere(s2, Recover(s, bootId));
    }
  }

  lemma ModelExitSound(s: State, id: TradeId, now: int)
    requires Sound(s)
    ensures Sound(RequestModelExit(s, id, now)) && RequestModelExit(s, id, now).orders == s.orders
  {
    hide Sound;
    ReasonsSound(s, RequestModelExit(s, id, now));
  }

  lemma SettleSound(s: State, s': State, i: nat)
    requires Sound(s) && i < |s.trades| == |s'.trades| && Closed(s'.trades[i])
    requires s'.trades == s.trades[i := s'.trades[i]] && s'.policy == s.policy
    requires SameTerms(s.trades[i], s'.trades[i])
    requires s'.orders == s.orders && AllTerminal(s.orders, s.trades[i].id)
    requires s'.trades[i].resolved || Net(s.trades[i].id, s.orders) == 0
    ensures Sound(s')
  {
    hide OrderOk, TradeOk, Net;
    var ts, us := s.trades, s'.trades;
    forall k | 0 <= k < |s.orders| ensures Homed(us, s.orders[k]) {
      assert Homed(ts, s.orders[k]) && s.orders[k] in s.orders;
      var h :| 0 <= h < |ts| && ts[h].id == s.orders[k].id.trade && (Working(s.orders[k]) ==> !Closed(ts[h]));
      assert us[h].id == ts[h].id;
    }
    forall k | 0 <= k < |us| ensures TradeOk(us[k], s.orders) {
      assert TradeOk(ts[k], s.orders);
      if k == i {
        TradeFieldsKeep(ts[i], us[i], s.orders);
      }
    }
    forall day ensures OpenedOn(us, day) == OpenedOn(ts, day) {
      OpenedOnSame(ts, us, day);
    }
  }

  lemma ExpireSound(s: State, id: TradeId)
    requires Sound(s)
    ensures Sound(s.(orders := ExpireTrade(s.orders, id))) && OrderSteps(s.orders, ExpireTrade(s.orders, id))
    ensures AllTerminal(ExpireTrade(s.orders, id), id)
  {
    var os := ExpireTrade(s.orders, id);
    forall k | 0 <= k < |s.orders| ensures OrderStep(s.orders[k], os[k]) {
      assert OrderOk(s.orders[k]);
    }
    OrderStepsKeep(s.trades, s.orders, os);
  }

  lemma ResolveSound(s: State, id: TradeId, reason: string, requestId: string, now: int)
    requires Sound(s)
    ensures var r := ResolveTrade(s, id, reason, requestId, now); r.Ok? ==> Sound(r.value)
  {
    var r := ResolveTrade(s, id, reason, requestId, now);
    var i := TradeIndex(s.trades, id);
    if r.Ok? && r.value != s {
      var s1 := s.(orders := ExpireTrade(s.orders, id));
      ExpireSound(s, id);
      SettleSound(s1, r.value.(commands := s.commands), i);
    }
  }

  // Planning.

  lemma PlanSound(s: State, d: Decision, quote: Option<Quote>, meta: Option<Meta>, now: int)
    requires Sound(s)
    ensures var (s', r) := PlanEntry(s, d, quote, meta, now); Sound(s') && Quiet(s.orders, s'.orders)
  {
    hide LosingStreak, DayPnl, ClosedPnl, StopLimit;
    var (s', r) := PlanEntry(s, d, quote, meta, now);
    QuietSelf(s.trades, s.orders);
    if r == PlanQueued {
      var pick := d.pick.value;
      var plan := PricesOf(s, pick, meta.value, quote.value);
      var t := PlannedTrade(s, pick, plan, meta.value, now);
      StopLimitBelow(pick.stop, meta.value.tick);
      NewTradeSound(s, t, NewOrder(s.orders, t.id, EntryKind, t.quantity, plan.price, 0));
    }
  }

  lemma StopLimitBelow(stop: int, tick: int)
    requires tick > 0
    ensures StopLimit(stop, tick) <= stop - tick
  {
    var x, y := 200 * stop - Max(200 * tick, stop), 200 * tick;
    assert x / y * y <= x;
    assert 200 * (x / y * tick) == x / y * y;
  }

  lemma NewTradeSound(s: State, t: Trade, o: Order)
    requires Sound(s) && !AnyOpen(s.trades) && !HasTrade(s.trades, t.id)
    requires t.breakoutId.Some? ==> forall u :: u in s.trades ==> u.breakoutId != t.breakoutId
    requires OpenedOn(s.trades, t.id.day) < s.policy.maxTradesPerDay
    requires !Closed(t) && t.exitReason.None? && !t.resolved && TermsOk(t)
    requires o == NewOrder(s.orders, t.id, EntryKind, t.quantity, o.price, 0) && t.stopLimit < o.price
    requires (o.price - t.stopLimit) * t.quantity + t.costReserve == t.plannedRisk
    ensures Sound(s.(trades := s.trades + [t], orders := s.orders + [o]))
    ensures Quiet(s.orders, s.orders + [o])
  {
    hide TradesOk, OneOpen, OneEntryPerBreakout, WithinDailyLimit, UniqueTrades, AnyOpen, HasTrade;
    var ts, us, os, ps := s.trades, s.trades + [t], s.orders, s.orders + [o];
    NewTradeList(ts, t, s.policy.maxTradesPerDay);
    NewTradeOrders(ts, t, os);
    TotalAbsent(Placed(EntryKind), t.id, os);
    NewTradeTotals(ts, t, os, o);
    QuietSelf(ts, os);
    assert us[|ts|] == t;
    assert Homed(us, o);
  }

  lemma NewTradeList(ts: seq<Trade>, t: Trade, limit: int)
    requires UniqueTrades(ts) && OneOpen(ts) && OneEntryPerBreakout(ts) && WithinDailyLimit(ts, limit)
    requires !AnyOpen(ts) && !HasTrade(ts, t.id)
    requires t.breakoutId.Some? ==> forall u :: u in ts ==> u.breakoutId != t.breakoutId
    requires OpenedOn(ts, t.id.day) < limit
    ensures UniqueTrades(ts + [t]) && OneOpen(ts + [t]) && OneEntryPerBreakout(ts + [t])
    ensures WithinDailyLimit(ts + [t], limit)
  {
    var us := ts + [t];
    assert forall i :: 0 <= i < |ts| ==> us[i] in ts;
    assert us[..|ts|] == ts;
  }

  /** A trade the record does not have yet owns none of its orders. */
  lemma NewTradeOrders(ts: seq<Trade>, t: Trade, os: seq<Order>)
    requires OrdersOk(ts, os) && !HasTrade(ts, t.id)
    ensures forall i :: 0 <= i < |os| ==> os[i].id.trade != t.id && Homed(ts + [t], os[i])
  {
    forall i | 0 <= i < |os| ensures os[i].id.trade != t.id && Homed(ts + [t], os[i]) {
      assert Homed(ts, os[i]);
      var k :| 0 <= k < |ts| && ts[k].id == os[i].id.trade && (Working(os[i]) ==> !Closed(ts[k]));
      assert ts[k] in ts && (ts + [t])[k] == ts[k];
    }
  }

  lemma FirstOrderOk(t: Trade, os: seq<Order>, o: Order)
    requires forall i :: 0 <= i < |os| ==> os[i].id.trade != t.id
    requires o.id == OrderId(t.id, EntryKind, 0) && o.filled == 0 && Working(o) && o.quantity == t.quantity
    requires t.stopLimit < o.price && (o.price - t.stopLimit) * t.quantity + t.costReserve == t.plannedRisk
    requires !Closed(t) && t.exitReason.None? && !t.resolved && TermsOk(t)
    ensures TradeOk(t, os + [o])
  {
    forall m ensures Total(m, t.id, os + [o]) == Weight(m, t.id, o) {
      TotalAppend(m, t.id, os, o);
      TotalAbsent(m, t.id, os);
    }
  }

  lemma NewTradeTotals(ts: seq<Trade>, t: Trade, os: seq<Order>, o: Order)
    requires TradesOk(ts, os) && !HasTrade(ts, t.id)
    requires forall i :: 0 <= i < |os| ==> os[i].id.trade != t.id
    requires o.id == OrderId(t.id, EntryKind, 0) && o.filled == 0 && Working(o) && o.quantity == t.quantity
    requires t.stopLimit < o.price && (o.price - t.stopLimit) * t.quantity + t.costReserve == t.plannedRisk
    requires !Closed(t) && t.exitReason.None? && !t.resolved && TermsOk(t)
    ensures TradesOk(ts + [t], os + [o])
  {
    hide TradeOk;
    forall i | 0 <= i < |ts| + 1 ensures TradeOk((ts + [t])[i], os + [o]) {
      if i < |ts| {
        assert ts[i] in ts;
        AddElsewhere(ts[i], os, o);
      } else {
        FirstOrderOk(t, os, o);
      }
    }
  }

  // Managing.

  lemma FreezeSound(s: State, t: Trade, e: nat, live: bool, now: int)
    requires Sound(s) && e < |s.orders|
    ensures Sound(Freeze(s, t, e, live, now)) && Quiet(s.orders, Freeze(s, t, e, live, now).orders)
  {
    hide Sound;
    QuietUnchanged(s);
    OrderOkAt(s, e);
    var frozen := s.(orders := s.orders[e := FreezeEntry(s.orders[e], t, now)]);
    QuietInPlace(s, frozen);
    SoundElsewhere(frozen, Freeze(s, t, e, live, now));
  }

  lemma PrepareSound(s: State, i: nat, t: Trade, e: nat, quote: Option<Quote>, now: int)
    requires Sound(s) && i < |s.trades| && e < |s.orders|
    requires t == s.trades[i].(exitReason := t.exitReason) && (s.trades[i].exitReason.Some? ==> t.exitReason.Some?)
    ensures Sound(Prepare(s, i, t, e, quote, now)) && Quiet(s.orders, Prepare(s, i, t, e, quote, now).orders)
    ensures |Prepare(s, i, t, e, quote, now).trades| == |s.trades|
    ensures var t' := Prepare(s, i, t, e, quote, now).trades[i];
      t' == s.trades[i].(exitReason := t'.exitReason)
  {
    var s1 := Freeze(s, t, e, FreshQuote(quote, now), now);
    FreezeSound(s, t, e, FreshQuote(quote, now), now);
    ReviewKeepsTrade(s1, t, quote, now);
    var (t', locked) := Review(s1, t, quote, now);
    ReasonSound(s1, i, t', locked);
  }

  lemma ReasonSound(s: State, i: nat, t: Trade, locked: set<int>)
    requires Sound(s) && i < |s.trades|
    requires t == s.trades[i].(exitReason := t.exitReason) && (s.trades[i].exitReason.Some? ==> t.exitReason.Some?)
    ensures Sound(s.(trades := s.trades[i := t], lockedDays := locked))
  {
    ReasonsSound(s, s.(trades := s.trades[i := t], lockedDays := locked));
  }

  lemma TotalsQuiet(m: Measure, t: TradeId, os: seq<Order>, ps: seq<Order>)
    requires Quiet(os, ps) && |os| == |ps| && m != Committed && !m.Capped?
    ensures Total(m, t, ps) == Total(m, t, os)
  {
    forall i | 0 <= i < |os| ensures Weight(m, t, os[i]) == Weight(m, t, ps[i]) {
      assert QuietStep(os[i], ps[i]);
    }
    TotalSame(m, t, os, ps);
  }

  lemma NetQuiet(t: TradeId, os: seq<Order>, ps: seq<Order>)
    requires Quiet(os, ps) && |os| == |ps|
    ensures Net(t, ps) == Net(t, os)
    ensures forall k :: Total(Placed(k), t, ps) == Total(Placed(k), t, os)
  {
    TotalsQuiet(Bought, t, os, ps);
    TotalsQuiet(Sold, t, os, ps);
    forall k ensures Total(Placed(k), t, ps) == Total(Placed(k), t, os) {
      TotalsQuiet(Placed(k), t, os, ps);
    }
  }

  lemma WithdrawSound(s: State, t: TradeId, live: bool)
    requires Sound(s)
    ensures var os := WithdrawAll(s.orders, t, live);
      Sound(s.(orders := os)) && Quiet(s.orders, os) && |os| == |s.orders|
  {
    hide Sound;
    forall i | 0 <= i < |s.orders| ensures QuietStep(s.orders[i], Withdraw(s.orders[i], t, live)) {
      OrderOkAt(s, i);
    }
    QuietInPlace(s, s.(orders := WithdrawAll(s.orders, t, live)));
  }

  lemma ChaseSound(s: State, t: TradeId, now: int)
    requires Sound(s)
    ensures var os := ChaseExits(s.orders, t, now);
      Sound(s.(orders := os)) && Quiet(s.orders, os) && |os| == |s.orders|
    ensures forall i :: 0 <= i < |s.orders| ==>
      ChaseExits(s.orders, t, now)[i].state == s.orders[i].state && ChaseExits(s.orders, t, now)[i].id == s.orders[i].id
  {
    hide Sound;
    forall i | 0 <= i < |s.orders| ensures QuietStep(s.orders[i], ChaseExit(s.orders[i], t, now)) {
      OrderOkAt(s, i);
    }
    QuietInPlace(s, s.(orders := ChaseExits(s.orders, t, now)));
  }

  lemma AddSound(s: State, k: nat, o: Order)
    requires Sound(s) && k < |s.trades| && MayAdd(s.trades[k], s.orders, o) && Unsent(o)
    ensures Sound(s.(orders := s.orders + [o])) && Quiet(s.orders, s.orders + [o])
  {
    QuietSelf(s.trades, s.orders);
    AddKeeps(s.trades, s.orders, k, o);
  }

  lemma PlacedNonNegative(k: Kind, t: TradeId, os: seq<Order>)
    ensures Total(Placed(k), t, os) >= 0
  {
    if os != [] {
      PlacedNonNegative(k, t, os[..|os| - 1]);
    }
  }

  /** With the entry and the stop finished and no exit working, all of the trade's orders are finished. */
  lemma NothingWorking(t: TradeId, os: seq<Order>)
    requires !GuardsWorking(os, t) && !ExitWorking(os, t)
    ensures forall i :: 0 <= i < |os| && os[i].id.trade == t ==> Terminal(os[i])
  {
    forall i | 0 <= i < |os| && os[i].id.trade == t ensures Terminal(os[i]) {
      assert os[i] in os;
    }
  }

  lemma LeaveSound(s: State, i: nat, live: bool, bid: int, now: int)
    requires Sound(s) && i < |s.trades| && !Closed(s.trades[i]) && s.trades[i].exitReason.Some?
    requires s.trades[i].tickSize > 0
    ensures Sound(Leave(s, s.trades[i], live, bid, now))
    ensures Quiet(s.orders, Leave(s, s.trades[i], live, bid, now).orders)
  {
    hide Sound, Quiet;
    var t := s.trades[i];
    var s1 := s.(orders := WithdrawAll(s.orders, t.id, live));
    WithdrawSound(s, t.id, live);
    SoundElsewhere(s1, Halted(s1, ExitAttemptsExhausted));
    var s2 := s1.(orders := ChaseExits(s1.orders, t.id, now));
    ChaseSound(s1, t.id, now);
    QuietCompose(s.orders, s1.orders, s2.orders);
    var net, price := Net(t.id, s.orders), FloorTo(bid, t.tickSize);
    if !GuardsWorking(s1.orders, t.id) && net > 0 && live && !ExitWorking(s1.orders, t.id)
       && Total(Placed(ExitKind), t.id, s1.orders) < 3 && price > 0 {
      NetQuiet(t.id, s.orders, s1.orders);
      NetQuiet(t.id, s1.orders, s2.orders);
      PlacedNonNegative(ExitKind, t.id, s1.orders);
      NothingWorking(t.id, s1.orders);
      var o := NewOrder(s1.orders, t.id, ExitKind, net, price, 0);
      AddSound(s2, i, o);
      QuietCompose(s.orders, s2.orders, s2.orders + [o]);
    }
  }

  /** A trade has one entry, so once that is finished and nothing else was placed, all of its orders are finished. */
  lemma OnlyEntry(s: State, i: nat, e: nat)
    requires Sound(s) && i < |s.trades| && !Closed(s.trades[i]) && s.trades[i].exitReason.None?
    requires e < |s.orders| && s.orders[e].id.trade == s.trades[i].id && s.orders[e].id.kind.EntryKind?
    requires Terminal(s.orders[e])
    requires FirstOf(s.orders, s.trades[i].id, StopKind) == |s.orders|
    ensures forall k :: 0 <= k < |s.orders| && s.orders[k].id.trade == s.trades[i].id ==> Terminal(s.orders[k])
    ensures 0 < s.trades[i].stopLimit < s.trades[i].stop
  {
    var t, os := s.trades[i], s.orders;
    assert TradeOk(t, os);
    forall k | 0 <= k < |os| && os[k].id.trade == t.id ensures k == e {
      assert OrderOk(os[k]) && OrderOk(os[e]);
      assert os[k].id == os[e].id;
    }
  }

  lemma ProtectSound(s: State, i: nat, now: int)
    requires Sound(s) && i < |s.trades| && !Closed(s.trades[i]) && s.trades[i].exitReason.None?
    ensures Sound(Protect(s, s.trades[i], now))
    ensures Quiet(s.orders, Protect(s, s.trades[i], now).orders)
  {
    hide Sound, Quiet;
    var t := s.trades[i];
    var s1 := s.(orders := ChaseExits(s.orders, t.id, now));
    ChaseSound(s, t.id, now);
    var net, e, k := Net(t.id, s.orders), FirstOf(s.orders, t.id, EntryKind), FirstOf(s.orders, t.id, StopKind);
    if e < |s.orders| && Terminal(s.orders[e]) && net > 0 && k == |s.orders| {
      NetQuiet(t.id, s.orders, s1.orders);
      NonePlaced(StopKind, t.id, s.orders);
      OnlyEntry(s, i, e);
      var o := NewOrder(s.orders, t.id, StopKind, net, t.stopLimit, t.stop);
      AddSound(s1, i, o);
      QuietCompose(s.orders, s1.orders, s1.orders + [o]);
    }
  }

  lemma {:induction false} NonePlaced(k: Kind, t: TradeId, os: seq<Order>)
    requires forall i :: 0 <= i < |os| ==> !(os[i].id.trade == t && os[i].id.kind == k)
    ensures Total(Placed(k), t, os) == 0
  {
    if os != [] {
      NonePlaced(k, t, os[..|os| - 1]);
    }
  }

  lemma ActSound(s: State, i: nat, quote: Option<Quote>, now: int)
    requires Sound(s) && i < |s.trades| && !Closed(s.trades[i]) && s.trades[i].tickSize > 0
    ensures Sound(Act(s, s.trades[i], quote, now)) && Quiet(s.orders, Act(s, s.trades[i], quote, now).orders)
  {
    hide Sound, Leave, Protect;
    if s.trades[i].exitReason.Some? {
      var live := FreshQuote(quote, now);
      LeaveSound(s, i, live, if live then quote.value.bid else 0, now);
    } else {
      ProtectSound(s, i, now);
    }
  }

  lemma LapseSound(s: State, i: nat, t: Trade, e: nat)
    requires Sound(s) && i < |s.trades| && e < |s.orders| && s.orders[e].state == Queued
    requires t == s.trades[i].(exitReason := t.exitReason) && (s.trades[i].exitReason.Some? ==> t.exitReason.Some?)
    ensures var s' := s.(trades := s.trades[i := t], orders := s.orders[e := s.orders[e].(state := Expired)]);
      Sound(s') && Quiet(s.orders, s'.orders)
  {
    hide Sound;
    var s1 := s.(trades := s.trades[i := t]);
    ReasonsSound(s, s1);
    QuietUnchanged(s);
    OrderOkAt(s, e);
    QuietInPlace(s1, s1.(orders := s.orders[e := s.orders[e].(state := Expired)]));
  }

  lemma ManageTradeSound(s: State, i: nat, quote: Option<Quote>, now: int)
    requires Sound(s) && i < |s.trades|
    requires !Closed(s.trades[i]) ==>
      s.trades[i].tickSize > 0 && FirstOf(s.orders, s.trades[i].id, EntryKind) < |s.orders|
    ensures Sound(ManageTrade(s, i, quote, now)) && Quiet(s.orders, ManageTrade(s, i, quote, now).orders)
  {
    hide Sound, Prepare, Act;
    if Closed(s.trades[i]) {
      QuietUnchanged(s);
    } else {
      var e := FirstOf(s.orders, s.trades[i].id, EntryKind);
      var t := Reasoned(s, s.trades[i], now);
      if EntryLapsed(s, t, e, now) {
        LapseSound(s, i, t, e);
      } else {
        var s1 := Prepare(s, i, t, e, quote, now);
        PrepareSound(s, i, t, e, quote, now);
        ActSound(s1, i, quote, now);
        QuietCompose(s.orders, s1.orders, ManageTrade(s, i, quote, now).orders);
      }
    }
  }

  lemma SoundIsManageable(s: State)
    requires Sound(s)
    ensures Manageable(s)
  {
    forall t | t in s.trades ensures t.tickSize > 0 && FirstOf(s.orders, t.id, EntryKind) < |s.orders| {
      var i :| 0 <= i < |s.trades| && s.trades[i] == t;
      assert TradeOk(s.trades[i], s.orders);
      if FirstOf(s.orders, t.id, EntryKind) == |s.orders| {
        NonePlaced(EntryKind, t.id, s.orders);
      }
    }
  }

  lemma {:induction false} ManageSound(s: State, i: nat, quotes: map<string, Quote>, now: int)
    requires Sound(s) && i <= |s.trades| && Manageable(s)
    ensures Sound(ManageAll(s, i, quotes, now)) && Quiet(s.orders, ManageAll(s, i, quotes, now).orders)
    decreases |s.trades| - i
  {
    hide Sound, ManageTrade, SameButReasons, SameIds, Quiet, FirstOf;
    if i == |s.trades| {
      QuietUnchanged(s);
    } else {
      var quote := QuoteFor(quotes, s.trades[i].id);
      assert s.trades[i] in s.trades;
      ManageTradeSound(s, i, quote, now);
      var s' := ManageTrade(s, i, quote, now);
      ManageTradeShape(s, i, quote, now);
      ManageableKept(s, s');
      ManageSound(s', i + 1, quotes, now);
      QuietCompose(s.orders, s'.orders, ManageAll(s, i, quotes, now).orders);
    }
  }

  lemma SameButReasonsCompose(ts: seq<Trade>, us: seq<Trade>, vs: seq<Trade>)
    requires SameButReasons(ts, us) && SameButReasons(us, vs)
    ensures SameButReasons(ts, vs)
  {
    forall i | 0 <= i < |ts| ensures vs[i] == ts[i].(exitReason := vs[i].exitReason) {
      assert us[i] == ts[i].(exitReason := us[i].exitReason);
    }
  }

  lemma {:induction false} ManageKeepsTrades(s: State, i: nat, quotes: map<string, Quote>, now: int)
    requires Manageable(s) && i <= |s.trades|
    ensures SameButReasons(s.trades, ManageAll(s, i, quotes, now).trades)
    decreases |s.trades| - i
  {
    hide ManageTrade, Manageable;
    if i < |s.trades| {
      OpenTradeManageable(s, i);
      var quote := QuoteFor(quotes, s.trades[i].id);
      var s' := ManageTrade(s, i, quote, now);
      ManageTradeShape(s, i, quote, now);
      ManageableKept(s, s');
      ManageKeepsTrades(s', i + 1, quotes, now);
      SameButReasonsCompose(s.trades, s'.trades, ManageAll(s, i, quotes, now).trades);
    }
  }

  lemma OpenTradeManageable(s: State, i: nat)
    requires Manageable(s) && i < |s.trades|
    ensures !Closed(s.trades[i]) ==>
      s.trades[i].tickSize > 0 && FirstOf(s.orders, s.trades[i].id, EntryKind) < |s.orders|
  {
    assert s.trades[i] in s.trades;
  }

  // Reconciling.

  /** The order took over what a row of the book says about it. */
  ghost predicate HeardFrom(o: Order, p: Order, b: BookRow) {
    && Concerns(b, o) && RowMatches(b, o) && StateFromRow(b) == Some(p.state)
    && o.state != Queued && o.state != Expired && (Terminal(o) ==> o.state == p.state)
    && p == o.(brokerId := Some(b.orderId), filled := b.filled, average := if b.filled != 0 then b.average else 0,
               state := p.state, cancelState := p.cancelState)
    && (Terminal(p) ==> p.cancelState == NoCancel)
    && (p.cancelState == o.cancelState || (p.cancelState == NoCancel && (Terminal(p) || o.cancelAttempts < 3)))
  }

  ghost predicate Heard(o: Order, p: Order, book: seq<BookRow>) {
    p == o || exists b :: b in book && HeardFrom(o, p, b)
  }

  /** Of an open trade's finished order, the book says what it said when that order finished. */
  ghost predicate FinishedStay(s: State, book: seq<BookRow>) {
    forall k, b :: 0 <= k < |s.orders| && b in book && Terminal(s.orders[k]) && s.orders[k].state != Expired
                   && !TradeClosedIn(s.trades, s.orders[k].id.trade) && Concerns(b, s.orders[k])
                      && RowMatches(b, s.orders[k])
      ==> b.filled == s.orders[k].filled
  }

  lemma RowsForMembers(o: Order, book: seq<BookRow>)
    ensures forall b :: b in RowsFor(o, book) <==> b in book && Concerns(b, o)
  {
    if book != [] {
      RowsForMembers(o, book[..|book| - 1]);
      assert book == book[..|book| - 1] + [book[|book| - 1]];
    }
  }

  lemma JudgedIsHeard(o: Order, closed: bool, book: seq<BookRow>, now: int)
    ensures var j := JudgeOrder(o, closed, book, now);
      j.Judged? ==> exists b :: b in book && HeardFrom(o, j.order, b)
  {
    var j := JudgeOrder(o, closed, book, now);
    if j.Judged? {
      var b := RowsFor(o, book)[0];
      RowsForMembers(o, book);
      assert b in book && HeardFrom(o, j.order, b);
    }
  }

  /** What reconciling leaves in an order's place. */
  function AfterBook(ts: seq<Trade>, o: Order, book: seq<BookRow>, now: int): Order {
    match JudgeOrder(o, TradeClosedIn(ts, o.id.trade), book, now)
    case Judged(p, _) => p
    case _ => o
  }

  ghost predicate AllHeard(os: seq<Order>, ps: seq<Order>, book: seq<BookRow>) {
    |ps| == |os| && forall k :: 0 <= k < |os| ==> Heard(os[k], ps[k], book)
  }

  lemma ReconcileOrderShape(s: State, i: nat, book: seq<BookRow>, now: int, derived: bool)
    requires i < |s.orders|
    ensures var r := ReconcileOrder(s, i, book, now, derived);
      r.Ok? ==>
        && r.value.trades == s.trades && r.value.policy == s.policy
        && r.value.orders == s.orders[i := AfterBook(s.trades, s.orders[i], book, now)]
  {
    hide JudgeOrder;
    assert s.orders[i := s.orders[i]] == s.orders;
  }

  /** From order i on, the book is read for each order on its own. */
  lemma {:induction false} ReconcileOrdersShape(s: State, i: nat, book: seq<BookRow>, now: int, derived: bool)
    requires i <= |s.orders|
    ensures var r := ReconcileOrders(s, i, book, now, derived);
      r.Ok? ==>
        && r.value.trades == s.trades && r.value.policy == s.policy
        && (forall k :: 0 <= k < i ==> r.value.orders[k] == s.orders[k])
        && (forall k :: i <= k < |s.orders| ==> r.value.orders[k] == AfterBook(s.trades, s.orders[k], book, now))
    decreases |s.orders| - i
  {
    hide ReconcileOrder, AfterBook;
    if i < |s.orders| {
      var r := ReconcileOrder(s, i, book, now, derived);
      ReconcileOrderShape(s, i, book, now, derived);
      if r.Ok? {
        ReconcileOrdersShape(r.value, i + 1, book, now, derived);
      }
    }
  }

  lemma AfterBookStep(s: State, k: nat, book: seq<BookRow>, now: int)
    requires k < |s.orders| && OrderOk(s.orders[k]) && FinishedStay(s, book)
    ensures var p := AfterBook(s.trades, s.orders[k], book, now);
      OrderStep(s.orders[k], p) && Heard(s.orders[k], p, book) && (InDoubt(p) ==> InDoubt(s.orders[k]))
  {
    JudgedIsHeard(s.orders[k], TradeClosedIn(s.trades, s.orders[k].id.trade), book, now);
  }

  lemma ReconcileOrdersSound(s: State, book: seq<BookRow>, now: int, derived: bool)
    requires Sound(s) && FinishedStay(s, book)
    ensures var r := ReconcileOrders(s, 0, book, now, derived);
      r.Ok? ==> Sound(r.value) && r.value.trades == s.trades && AllHeard(s.orders, r.value.orders, book)
  {
    hide OrderOk, Homed, TradeOk, Heard, OrderStep, AfterBook, FinishedStay;
    var r := ReconcileOrders(s, 0, book, now, derived);
    ReconcileOrdersShape(s, 0, book, now, derived);
    if r.Ok? {
      forall k | 0 <= k < |s.orders|
        ensures OrderStep(s.orders[k], r.value.orders[k]) && Heard(s.orders[k], r.value.orders[k], book)
        ensures InDoubt(r.value.orders[k]) ==> InDoubt(s.orders[k])
      {
        assert OrderOk(s.orders[k]);
        AfterBookStep(s, k, book, now);
      }
      OrderStepsKeep(s.trades, s.orders, r.value.orders);
    }
  }

  lemma ReplaceSound(s: State, i: nat, p: Order)
    requires Sound(s) && i < |s.orders| && OrderStep(s.orders[i], p)
    requires InDoubt(p) ==> InDoubt(s.orders[i])
    ensures Sound(s.(orders := s.orders[i := p]))
  {
    QuietSelf(s.trades, s.orders);
    assert OrderSteps(s.orders, s.orders[i := p]);
    OrderStepsKeep(s.trades, s.orders, s.orders[i := p]);
  }

  lemma ReconcileTradeSound(s: State, i: nat, now: int)
    requires Sound(s) && i < |s.trades|
    ensures var r := ReconcileTrade(s, i, now); r.Ok? ==> Sound(r.value) && SameButClosing(s.trades, r.value.trades)
  {
    var r := ReconcileTrade(s, i, now);
    if r.Ok? && r.value != s {
      SettleSound(s, r.value, i);
    }
  }

  lemma {:induction false} ReconcileTradesSound(s: State, i: nat, now: int)
    requires Sound(s) && i <= |s.trades|
    ensures var r := ReconcileTrades(s, i, now); r.Ok? ==> Sound(r.value) && SameButClosing(s.trades, r.value.trades)
    decreases |s.trades| - i
  {
    hide Sound;
    if i < |s.trades| {
      ReconcileTradeSound(s, i, now);
      var r := ReconcileTrade(s, i, now);
      if r.Ok? {
        ReconcileTradesSound(r.value, i + 1, now);
      }
    }
  }

  ghost predicate SameButClosing(ts: seq<Trade>, us: seq<Trade>) {
    |ts| == |us| && forall i :: 0 <= i < |ts| ==>
      us[i] == ts[i].(closedAt := us[i].closedAt, buys := us[i].buys, netPnl := us[i].netPnl)
  }

  lemma ReconcileSound(s: State, book: seq<BookRow>, positions: Option<seq<Position>>, now: int)
    requires Sound(s) && FinishedStay(s, book)
    ensures var r := Reconcile(s, book, positions, now);
      r.Ok? ==> Sound(r.value) && SameButClosing(s.trades, r.value.trades) && AllHeard(s.orders, r.value.orders, book)
  {
    hide Sound;
    ReconcileOrdersSound(s, book, now, positions.None?);
    var r := ReconcileOrders(s, 0, book, now, positions.None?);
    if r.Ok? {
      ReconcileTradesSound(r.value, 0, now);
      var q := ReconcileTrades(r.value, 0, now);
      if q.Ok? {
        SoundElsewhere(q.value, q.value.(reconciledAt := Some(now)));
      }
    }
  }

  // Sending.

  lemma CancelSound(s: State, i: nat, now: int)
    requires Sound(s) && i < |s.orders| && Working(s.orders[i]) && s.orders[i].brokerId.Some?
    requires s.orders[i].cancelAttempts < 3
    ensures Sound(s.(orders := s.orders[i := BeginCancel(s.orders[i], now)]))
  {
    hide Sound;
    OrderOkAt(s, i);
    ReplaceSound(s, i, BeginCancel(s.orders[i], now));
  }

  lemma SubmitSound(s: State, i: nat, now: int)
    requires Sound(s) && i < |s.orders| && s.orders[i].state == Queued
    requires NoneInDoubt(s.orders)
    ensures Sound(s.(orders := s.orders[i := BeginSubmit(s.orders[i], now)]))
  {
    var p := BeginSubmit(s.orders[i], now);
    assert OrderOk(s.orders[i]);
    QuietSelf(s.trades, s.orders);
    OrderStepsKeep(s.trades, s.orders, s.orders[i := p]);
  }

  /** What claiming does: entries may expire, and at most one order is sent or asked to be cancelled. */
  ghost predicate Claimed(os: seq<Order>, ps: seq<Order>, a: Option<Action>, now: int) {
    && |ps| == |os|
    && match a
       case None => forall k :: 0 <= k < |os| ==> ps[k] == os[k] || Lapsed(os[k], ps[k])
       case Some(a) => exists i :: 0 <= i < |os| && ClaimedAt(os, ps, a, i, now)
  }

  ghost predicate Lapsed(o: Order, p: Order) {
    o.state == Queued && p == o.(state := Expired)
  }

  ghost predicate ClaimedAt(os: seq<Order>, ps: seq<Order>, a: Action, i: nat, now: int)
    requires |os| == |ps| && i < |os|
  {
    && a.order == ps[i]
    && (forall k :: 0 <= k < |os| && k != i ==> ps[k] == os[k] || Lapsed(os[k], ps[k]))
    && match a.kind
       case PlaceAction => os[i].state == Queued && ps[i] == BeginSubmit(os[i], now)
       case CancelAction => Working(os[i]) && os[i].brokerId.Some? && ps[i] == BeginCancel(os[i], now)
  }

  ghost predicate NoneInDoubt(os: seq<Order>) {
    forall k :: 0 <= k < |os| ==> !InDoubt(os[k])
  }

  ghost predicate ClaimOk(s: State, s': State, a: Option<Action>, now: int) {
    Sound(s') && s'.trades == s.trades && Claimed(s.orders, s'.orders, a, now)
  }

  lemma SubmitClaims(s: State, i: nat, now: int)
    requires Sound(s) && i < |s.orders| && s.orders[i].state == Queued && NoneInDoubt(s.orders)
    ensures var os := s.orders[i := BeginSubmit(s.orders[i], now)];
      ClaimOk(s, s.(orders := os), Some(Action(PlaceAction, os[i])), now)
  {
    SubmitSound(s, i, now);
    var os := s.orders[i := BeginSubmit(s.orders[i], now)];
    assert ClaimedAt(s.orders, os, Action(PlaceAction, os[i]), i, now);
  }

  lemma CancelClaims(s: State, i: nat, now: int)
    requires Sound(s) && i < |s.orders| && Working(s.orders[i]) && s.orders[i].brokerId.Some?
    requires s.orders[i].cancelAttempts < 3
    ensures var os := s.orders[i := BeginCancel(s.orders[i], now)];
      ClaimOk(s, s.(orders := os), Some(Action(CancelAction, os[i])), now)
  {
    CancelSound(s, i, now);
    var os := s.orders[i := BeginCancel(s.orders[i], now)];
    assert ClaimedAt(s.orders, os, Action(CancelAction, os[i]), i, now);
  }

  lemma LapseBeforeSound(s: State, i: nat)
    requires Sound(s) && NoneInDoubt(s.orders)
    ensures Sound(s.(orders := LapseBefore(s.orders, i))) && NoneInDoubt(LapseBefore(s.orders, i))
  {
    hide Sound;
    var os := LapseBefore(s.orders, i);
    forall k | 0 <= k < |s.orders| ensures QuietStep(s.orders[k], os[k]) {
      OrderOkAt(s, k);
    }
    QuietInPlace(s, s.(orders := os));
  }

  lemma LapsedThenSent(os: seq<Order>, i: nat, now: int)
    requires i < |os| && os[i].state == Queued
    ensures var qs := LapseBefore(os, i);
      Claimed(os, qs[i := BeginSubmit(qs[i], now)], Some(Action(PlaceAction, BeginSubmit(qs[i], now))), now)
  {
    var qs := LapseBefore(os, i);
    assert ClaimedAt(os, qs[i := BeginSubmit(qs[i], now)], Action(PlaceAction, BeginSubmit(qs[i], now)), i, now);
  }

  lemma ClaimEntrySound(s: State, now: int, allowed: bool)
    requires Sound(s) && EntriesHaveTrades(s) && NoneInDoubt(s.orders)
    ensures var r := ClaimEntry(s, now, allowed); ClaimOk(s, r.0, r.1, now)
  {
    var i := FirstSendable(s, s.orders, now, allowed);
    var s1 := s.(orders := LapseBefore(s.orders, i));
    LapseBeforeSound(s, i);
    if i < |s.orders| {
      SubmitSound(s1, i, now);
      LapsedThenSent(s.orders, i, now);
      assert ClaimEntry(s, now, allowed).0 == s1.(orders := s1.orders[i := BeginSubmit(s1.orders[i], now)]);
    } else {
      assert ClaimEntry(s, now, allowed).0 == s1;
    }
  }

  lemma NothingInFlight(os: seq<Order>)
    requires !exists o :: o in os && InFlight(o)
    ensures NoneInDoubt(os)
  {
    forall k | 0 <= k < |os| ensures !InDoubt(os[k]) {
      assert os[k] in os;
    }
  }

  predicate MayClaim(s: State, now: int) {
    s.reconciledAt.Some? && now - s.reconciledAt.value <= FRESH_MS && !exists o :: o in s.orders && InFlight(o)
  }

  lemma ClaimSound(s: State, now: int, allowed: bool)
    requires Sound(s) && EntriesHaveTrades(s)
    ensures var r := Claim(s, now, allowed); ClaimOk(s, r.0, r.1, now) && (r.1.Some? ==> NoneInDoubt(s.orders))
  {
    var c, stop, exit := FirstCancelDue(s.orders), FirstQueued(s.orders, StopKind), FirstQueued(s.orders, ExitKind);
    var r := Claim(s, now, allowed);
    if !MayClaim(s, now) {
      assert r == (s, None);
    } else {
      NothingInFlight(s.orders);
      if c < |s.orders| {
        assert OrderOk(s.orders[c]);
        CancelClaims(s, c, now);
      } else if stop < |s.orders| {
        SubmitClaims(s, stop, now);
      } else if exit < |s.orders| {
        SubmitClaims(s, exit, now);
      } else {
        ClaimEntrySound(s, now, allowed);
      }
    }
  }

  lemma SoundHasTrades(s: State)
    requires Sound(s)
    ensures EntriesHaveTrades(s)
  {
    forall o | o in s.orders ensures TradeIndex(s.trades, o.id.trade) < |s.trades| {
      var k :| 0 <= k < |s.orders| && s.orders[k] == o;
      assert Homed(s.trades, s.orders[k]);
    }
  }

  lemma EmergencySound(s: State, now: int)
    requires Sound(s)
    ensures var (s', a) := ClaimEmergencyCancel(s, now);
      Sound(s') && s'.trades == s.trades && Claimed(s.orders, s'.orders, a, now)
        && (a.Some? ==> a.value.kind == CancelAction)
  {
    var i := FirstEmergency(s.orders, now);
    if (s.killed || s.haltReason.Some?) && i < |s.orders| {
      CancelClaims(s, i, now);
    }
  }

  /** What a reply does to the one order it is about. */
  ghost predicate Answered(o: Order, p: Order, a: Action, reply: Reply) {
    match a.kind
    case CancelAction => o.cancelState == CancelSubmitting && p == o.(cancelState := p.cancelState)
      && p.cancelState != NoCancel
    case PlaceAction =>
      o.state == Submitting
      && match reply
         case AckReply(Some(id)) => p == o.(state := Acknowledged, brokerId := Some(id))
         case RejectReply => p == o.(state := Rejected)
         case _ => p == o.(state := Uncertain)
  }

  lemma FinishAnswers(s: State, a: Action, reply: Reply)
    ensures var r, i := Finish(s, a, reply), OrderIndex(s.orders, a.order.id);
      r.Ok? ==>
        && i < |s.orders| == |r.value.orders|
        && r.value.trades == s.trades && r.value.policy == s.policy
        && r.value.orders == s.orders[i := r.value.orders[i]] && Answered(s.orders[i], r.value.orders[i], a, reply)
  {
  }

  lemma AnsweredStep(o: Order, p: Order, a: Action, reply: Reply)
    requires OrderOk(o) && Answered(o, p, a, reply)
    ensures OrderStep(o, p) && (InDoubt(p) ==> InDoubt(o))
  {
  }

  lemma FinishSound(s: State, a: Action, reply: Reply)
    requires Sound(s)
    ensures var r, i := Finish(s, a, reply), OrderIndex(s.orders, a.order.id);
      r.Ok? ==>
        && Sound(r.value) && r.value.trades == s.trades && i < |s.orders| == |r.value.orders|
        && r.value.orders == s.orders[i := r.value.orders[i]] && Answered(s.orders[i], r.value.orders[i], a, reply)
  {
    hide Sound, Finish, Answered, OrderStep, InDoubt;
    var r, i := Finish(s, a, reply), OrderIndex(s.orders, a.order.id);
    FinishAnswers(s, a, reply);
    if r.Ok? {
      OrderOkAt(s, i);
      AnsweredStep(s.orders[i], r.value.orders[i], a, reply);
      ReplaceSound(s, i, r.value.orders[i]);
      SoundElsewhere(s.(orders := s.orders[i := r.value.orders[i]]), r.value);
    }
  }

  /** The recheck just before an entry is sent gives the order up. */
  lemma GiveUpSound(s: State, i: nat)
    requires Sound(s) && i < |s.orders|
    ensures Sound(s.(orders := s.orders[i := s.orders[i].(state := Expired)]))
  {
    hide Sound;
    OrderOkAt(s, i);
    ReplaceSound(s, i, s.orders[i].(state := Expired));
  }
}
