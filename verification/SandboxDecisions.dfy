/** What the executor's decisions mean: why an entry was allowed, what is sent first, what a stop and an exit cover. */
module SandboxDecisions {
  import opened Wrappers
  import opened SandboxTypes
  import opened Totals
  import opened SandboxSpec

  // Prices on the tick.

  lemma CeilToIs(x: int, tick: int)
    requires tick > 0
    ensures CeilTo(x, tick) % tick == 0 && x <= CeilTo(x, tick) < x + tick
  {
    TickMultiple((x + tick - 1) / tick, tick);
  }

  lemma FloorToIs(x: int, tick: int)
    requires tick > 0
    ensures FloorTo(x, tick) % tick == 0 && x - tick < FloorTo(x, tick) <= x
  {
    TickMultiple(x / tick, tick);
  }

  lemma TickMultiple(k: int, tick: int)
    requires tick > 0
    ensures k * tick % tick == 0
  {
    var q, r := k * tick / tick, k * tick % tick;
    assert (k - q) * tick == r;
    if k - q >= 1 {
      AtLeastOne(k - q, tick);
    } else if k - q <= -1 {
      AtLeastOne(q - k, tick);
    }
  }

  lemma AtLeastOne(d: int, tick: int)
    requires tick > 0 && d >= 1
    ensures d * tick >= tick
  {
  }

  /** The stop's limit is the highest tick at least one tick, and half a percent of the stop, below the stop. */
  lemma StopLimitIs(stop: int, tick: int)
    requires tick > 0
    ensures var l := StopLimit(stop, tick);
      && l % tick == 0 && l + tick <= stop && 200 * l <= 199 * stop
      && (200 * (l + 2 * tick) > 200 * stop || 200 * (l + tick) > 199 * stop)
  {
    var k := (200 * stop - Max(200 * tick, stop)) / (200 * tick);
    TickMultiple(k, tick);
    assert 200 * (k * tick) == k * (200 * tick);
    assert k * (200 * tick) <= 200 * stop - Max(200 * tick, stop) < k * (200 * tick) + 200 * tick;
  }

  // Results.

  /** A result counts for the day its trade closed on, or opened on, or for all days; only trades that filled count. */
  lemma ResultOfOne(t: Trade, day: int)
    ensures DayPnl([t], day, true) ==
            if t.closedAt.Some? && Day(t.closedAt.value) == day && t.buys > 0 then t.netPnl else 0
    ensures DayPnl([t], day, false) == if t.closedAt.Some? && Day(t.closedAt.value) == day then t.netPnl else 0
    ensures OpenedDayPnl([t], day) == if t.closedAt.Some? && t.id.day == day then t.netPnl else 0
    ensures ClosedPnl([t]) == if t.closedAt.Some? && t.buys > 0 then t.netPnl else 0
    ensures OpenedOn([t], day) == if t.id.day == day then 1 else 0
  {
    assert [t][..0] == [];
    assert DayPnl([], day, true) == 0 && DayPnl([], day, false) == 0 && OpenedDayPnl([], day) == 0;
    assert ClosedPnl([]) == 0 && OpenedOn([], day) == 0;
  }

  /** The results of two lists of trades are those of both together. */
  lemma {:induction false} ResultsAdd(xs: seq<Trade>, ys: seq<Trade>, day: int, bought: bool)
    ensures DayPnl(xs + ys, day, bought) == DayPnl(xs, day, bought) + DayPnl(ys, day, bought)
    ensures OpenedDayPnl(xs + ys, day) == OpenedDayPnl(xs, day) + OpenedDayPnl(ys, day)
    ensures ClosedPnl(xs + ys) == ClosedPnl(xs) + ClosedPnl(ys)
    ensures OpenedOn(xs + ys, day) == OpenedOn(xs, day) + OpenedOn(ys, day)
  {
    if ys == [] {
      assert xs + ys == xs;
    } else {
      ResultsAdd(xs, ys[..|ys| - 1], day, bought);
      assert (xs + ys)[..|xs + ys| - 1] == xs + ys[..|ys| - 1];
    }
  }

  /** What one order adds to its trade's totals: an entry buys, any other order sells, each at its average price. */
  lemma TotalOfOne(o: Order, t: TradeId)
    ensures var mine, buys := o.id.trade == t, o.id.kind.EntryKind?;
      && Total(Bought, t, [o]) == (if mine && buys then o.filled else 0)
      && Total(Sold, t, [o]) == (if mine && !buys then o.filled else 0)
      && Total(Spent, t, [o]) == (if mine && buys then o.filled * o.average else 0)
      && Total(Received, t, [o]) == (if mine && !buys then o.filled * o.average else 0)
      && Total(Placed(ExitKind), t, [o]) == (if mine && o.id.kind.ExitKind? then 1 else 0)
  {
    TotalAppend(Bought, t, [], o);
    TotalAppend(Sold, t, [], o);
    TotalAppend(Spent, t, [], o);
    TotalAppend(Received, t, [], o);
    TotalAppend(Placed(ExitKind), t, [], o);
    assert [] + [o] == [o];
  }

  lemma {:induction false} TotalsAdd(m: Measure, t: TradeId, os: seq<Order>, ps: seq<Order>)
    ensures Total(m, t, os + ps) == Total(m, t, os) + Total(m, t, ps)
  {
    if ps == [] {
      assert os + ps == os;
    } else {
      TotalsAdd(m, t, os, ps[..|ps| - 1]);
      assert (os + ps)[..|os + ps| - 1] == os + ps[..|ps| - 1];
    }
  }

  // Planning.

  /** What the record, the clock and the quote must be for an entry to be queued as planned. */
  ghost predicate WithinLimits(s: State, plan: EntryPlan, pick: Pick, meta: Meta, quote: Quote, now: int) {
    && s.armed && !s.killed && s.haltReason.None? && s.armedDay == Some(Day(now))
    && s.reconciledAt.Some? && s.reconciledAt.value <= now <= s.reconciledAt.value + 10000
    && 9 * 60 + 30 <= Minutes(now) < 15 * 60
    && quote.receivedAt <= now <= quote.receivedAt + 10000 && 0 < quote.bid <= quote.ask
    && 40 * (quote.ask - quote.bid) <= quote.ask
    && IsPlan(plan, pick, meta, quote, s.policy.costReserve) && InBudget(s, plan, pick, meta, now)
  }

  /** The plan can be left again at both ends, fits every limit of the policy, and nothing of its kind was entered. */
  ghost predicate InBudget(s: State, plan: EntryPlan, pick: Pick, meta: Meta, now: int) {
    var today := DayPnl(s.trades, Day(now), true);
    && 0 < plan.stopLimit && 0 < pick.stop < plan.price < pick.target
    && plan.risk <= s.policy.perTradeRisk && plan.risk + Max(0, -today) <= s.policy.dailyLoss
    && -s.policy.dailyLoss < today
    && plan.price * meta.lotSize + s.policy.costReserve
       <= Max(0, s.policy.capital + Min(0, ClosedPnl(s.trades) + s.archivedPnl))
    && (forall t :: t in s.trades ==> t.closedAt.Some?) && (forall o :: o in s.orders ==> Terminal(o))
    && |s.orders| < 500 && |s.trades| < 100 && Day(now) !in s.lockedDays
    && OpenedOn(s.trades, Day(now)) < s.policy.maxTradesPerDay && LosingStreak(s, now) < s.policy.maxConsecutiveLosses
    && (forall t :: t in s.trades ==> t.id != TradeId(Day(now), pick.signal))
    && (pick.breakoutId.Some? ==> forall t :: t in s.trades ==> t.breakoutId != pick.breakoutId)
  }

  /**
   The price is the least tick not below the ask, the stop's limit the highest tick at least one tick and half a percent
   of the stop below the stop, and the risk what is lost between them.
   */
  predicate IsPlan(plan: EntryPlan, pick: Pick, meta: Meta, quote: Quote, costReserve: int) {
    var l, tick := plan.stopLimit, meta.tick;
    tick > 0 && plan.price % tick == 0 && quote.ask <= plan.price < quote.ask + tick
    && l % tick == 0 && l + tick <= pick.stop && 200 * l <= 199 * pick.stop
    && (200 * (l + 2 * tick) > 200 * pick.stop || 200 * (l + tick) > 199 * pick.stop)
    && plan.risk == (plan.price - l) * meta.lotSize + costReserve
  }

  /** The analysis is a minute old at most, a candidate was picked, and what is known of its leg fits it today. */
  predicate Offered(d: Decision, quote: Option<Quote>, meta: Option<Meta>, now: int) {
    d.marketOpen && d.analysisAt.Some? && d.analysisAt.value <= now <= d.analysisAt.value + 60000
    && d.pick.Some? && quote.Some? && meta.Some?
    && meta.value.instrument == d.pick.value.signal.instrument && meta.value.matchesLeg
    && meta.value.session == Day(now) && 0 < meta.value.lotSize <= 100000
  }

  lemma PricesAreThePlan(s: State, pick: Pick, meta: Meta, quote: Quote)
    requires meta.tick > 0
    ensures forall plan ::
      IsPlan(plan, pick, meta, quote, s.policy.costReserve) <==> plan == PricesOf(s, pick, meta, quote)
  {
    var tick, p := meta.tick, PricesOf(s, pick, meta, quote);
    CeilToIs(quote.ask, tick);
    StopLimitIs(pick.stop, tick);
    forall plan | IsPlan(plan, pick, meta, quote, s.policy.costReserve) ensures plan == p {
      SameTick(plan.price, p.price, tick);
      SameTick(plan.stopLimit, p.stopLimit, tick);
    }
  }

  lemma SameTick(x: int, y: int, tick: int)
    requires tick > 0 && x % tick == 0 && y % tick == 0 && -tick < x - y < tick
    ensures x == y
  {
    var a, b := x / tick, y / tick;
    assert x - y == (a - b) * tick;
    if a - b >= 1 {
      AtLeastOne(a - b, tick);
    } else if b - a >= 1 {
      AtLeastOne(b - a, tick);
    }
  }

  lemma BudgetIff(s: State, pick: Pick, plan: EntryPlan, meta: Meta, now: int)
    ensures PlanBudget(s, pick, plan, meta, now) == PlanQueued <==> InBudget(s, plan, pick, meta, now)
  {
    hide DayPnl, ClosedPnl, LosingStreak, OpenedOn;
  }

  lemma VerdictIff(s: State, d: Decision, quote: Option<Quote>, meta: Option<Meta>, now: int)
    ensures PlanVerdict(s, d, quote, meta, now) == PlanQueued <==>
      && Offered(d, quote, meta, now) && meta.value.tick > 0
      && WithinLimits(s, PricesOf(s, d.pick.value, meta.value, quote.value), d.pick.value, meta.value, quote.value, now)
  {
    hide PlanBudget, InBudget, IsPlan, PricesOf;
    if d.pick.Some? && quote.Some? && meta.Some? && meta.value.tick > 0 {
      BudgetIff(s, d.pick.value, PricesOf(s, d.pick.value, meta.value, quote.value), meta.value, now);
      PricesAreThePlan(s, d.pick.value, meta.value, quote.value);
    }
  }

  /** An entry is queued exactly when a candidate is offered and some plan for it is within every limit. */
  lemma PlannedIff(s: State, d: Decision, quote: Option<Quote>, meta: Option<Meta>, now: int)
    ensures PlanEntry(s, d, quote, meta, now).1 == PlanQueued <==>
      && Offered(d, quote, meta, now)
      && exists plan :: WithinLimits(s, plan, d.pick.value, meta.value, quote.value, now)
    ensures PlanEntry(s, d, quote, meta, now).1 != PlanQueued ==> PlanEntry(s, d, quote, meta, now).0 == s
  {
    hide PlanVerdict, InBudget, PricesOf;
    VerdictIff(s, d, quote, meta, now);
    if Offered(d, quote, meta, now) && meta.value.tick > 0 {
      PricesAreThePlan(s, d.pick.value, meta.value, quote.value);
    }
  }

  /** What is added is one open trade with the planned limits and one queued order that buys it at the planned price. */
  lemma PlannedMeans(s: State, d: Decision, quote: Option<Quote>, meta: Option<Meta>, now: int)
    requires PlanEntry(s, d, quote, meta, now).1 == PlanQueued
    ensures d.pick.Some? && quote.Some? && meta.Some? && meta.value.tick > 0
    ensures var plan := PricesOf(s, d.pick.value, meta.value, quote.value);
      && WithinLimits(s, plan, d.pick.value, meta.value, quote.value, now)
      && var s' := PlanEntry(s, d, quote, meta, now).0;
      |s'.trades| == |s.trades| + 1 && |s'.orders| == |s.orders| + 1
      && var t, o := s'.trades[|s.trades|], s'.orders[|s.orders|];
      && s' == s.(trades := s.trades + [t], orders := s.orders + [o])
      && PlannedAs(t, d.pick.value, plan, meta.value, s.policy.costReserve, now)
      && o.id.trade == t.id && IsBuy(o) && o.state == Queued
      && o.quantity == meta.value.lotSize && o.price == plan.price
      && o.trigger == 0 && o.filled == 0 && o.brokerId.None? && o.cancelState == NoCancel && !o.wantCancel
  {
    hide PlanVerdict, WithinLimits, PricesOf, Total;
    VerdictIff(s, d, quote, meta, now);
  }

  /** An open trade as planned: its entry may be sent for fifteen seconds, and never past the candidate's deadline. */
  predicate PlannedAs(t: Trade, pick: Pick, plan: EntryPlan, meta: Meta, costReserve: int, now: int) {
    && t.id == TradeId(Day(now), pick.signal) && t.createdAt == now
    && t.closedAt.None? && t.exitReason.None? && !t.resolved
    && t.tickSize == meta.tick && t.quantity == meta.lotSize && t.stop == pick.stop && t.stopLimit == plan.stopLimit
    && t.target == pick.target && t.plannedRisk == plan.risk && t.costReserve == costReserve
    && t.breakoutId == pick.breakoutId && t.entryExpiresAt <= now + 15000
    && (if pick.deadline.Some? && pick.deadline.value < now + 15000 then t.entryExpiresAt == pick.deadline.value
        else t.entryExpiresAt == now + 15000)
  }

  // Claiming.

  /** What is sent first, and what an entry needs to be sent at all. */
  lemma ClaimMeans(s: State, now: int, allowed: bool)
    requires EntriesHaveTrades(s)
    ensures var (s', a) := Claim(s, now, allowed);
      a.Some? ==>
        && s.reconciledAt.Some? && now - s.reconciledAt.value <= FRESH_MS
           && (forall o :: o in s.orders ==> !InFlight(o))
        && (a.value.kind == PlaceAction ==>
              && (forall o :: o in s.orders ==> !CancelDue(o))
              && (!a.value.order.id.kind.StopKind? ==> forall o :: o in s.orders && o.state == Queued ==>
                 !o.id.kind.StopKind?)
              && (a.value.order.id.kind.EntryKind? ==>
                    && allowed && s.armed && !s.killed && s.haltReason.None? && 570 <= Minutes(now) < 900
                    && forall o :: o in s.orders && o.state == Queued ==> o.id.kind.EntryKind?))
  {
    hide CancelDue, InFlight, LapseBefore;
    NoneBefore(s.orders);
    forall o | o in s.orders && FirstCancelDue(s.orders) == |s.orders| ensures !CancelDue(o) {
      var k :| 0 <= k < |s.orders| && s.orders[k] == o;
    }
    var i := FirstSendable(s, s.orders, now, allowed);
    LapseKeeps(s.orders, i);
    if i < |s.orders| {
      assert s.orders[i] in s.orders && Sendable(s, s.orders[i], now, allowed);
    }
  }

  lemma NoneBefore(os: seq<Order>)
    ensures forall o, k :: o in os && o.state == Queued && FirstQueued(os, k) == |os| ==> o.id.kind != k
  {
    forall o, k | o in os && o.state == Queued && FirstQueued(os, k) == |os| ensures o.id.kind != k {
      var j :| 0 <= j < |os| && os[j] == o;
    }
  }

  lemma LapseKeeps(os: seq<Order>, i: nat)
    requires i <= |os|
    ensures |LapseBefore(os, i)| == |os| && (i < |os| ==> LapseBefore(os, i)[i] == os[i])
  {
  }

  // Leaving and protecting.

  /**
   An exit sells exactly what is held, at the bid rounded down to a tick, and only once the entry and the stop are
   finished.
   */
  lemma ExitMeans(s: State, t: Trade, live: bool, bid: int, now: int)
    requires t.tickSize > 0 && |Leave(s, t, live, bid, now).orders| > |s.orders|
    ensures var os := Leave(s, t, live, bid, now).orders;
      && |os| == |s.orders| + 1
      && var o := os[|s.orders|];
      && o.id.trade == t.id && o.id.kind.ExitKind? && o.state == Queued && o.trigger == 0
      && o.quantity == Net(t.id, s.orders) > 0 && live && o.price % t.tickSize == 0 && bid - t.tickSize < o.price <= bid
      && (forall k :: 0 <= k < |s.orders| && os[k].id.trade == t.id ==> Terminal(os[k]))
  {
    hide Net, Total, FloorTo;
    FloorToIs(bid, t.tickSize);
    var ws := WithdrawAll(s.orders, t.id, live);
    var os := Leave(s, t, live, bid, now).orders;
    forall k | 0 <= k < |s.orders| && os[k].id.trade == t.id ensures Terminal(os[k]) {
      assert ws[k] in ws && os[k] == ChaseExit(ws[k], t.id, now);
    }
  }

  /**
   The protective stop covers exactly what is held, at the planned prices, once, and only when the entry is finished.
   */
  lemma StopMeans(s: State, t: Trade, now: int)
    requires |Protect(s, t, now).orders| > |s.orders|
    ensures var os := Protect(s, t, now).orders;
      && |os| == |s.orders| + 1
      && var o := os[|s.orders|];
      && o.id.trade == t.id && o.id.kind.StopKind? && o.state == Queued && o.price == t.stopLimit && o.trigger == t.stop
      && o.quantity == Net(t.id, s.orders) > 0
      && (forall p :: p in s.orders && p.id.trade == t.id ==> !p.id.kind.StopKind?)
  {
    hide Net, Total;
    forall p | p in s.orders && p.id.trade == t.id ensures !p.id.kind.StopKind? {
      var k :| 0 <= k < |s.orders| && s.orders[k] == p;
    }
  }

  // The losing streak.

  predicate ClosedToday(t: Trade, day: int) {
    Closed(t) && t.buys > 0 && Day(t.closedAt.value) == day
  }

  ghost predicate InClosingOrder(ts: seq<Trade>) {
    (forall t :: t in ts ==> Closed(t))
    && forall i, j :: 0 <= i < j < |ts| && Closed(ts[i]) && Closed(ts[j]) ==>
       ts[i].closedAt.value <= ts[j].closedAt.value
  }

  lemma AppendInOrder(ts: seq<Trade>, t: Trade)
    requires InClosingOrder(ts) && Closed(t)
    requires forall u :: u in ts && Closed(u) ==> u.closedAt.value <= t.closedAt.value
    ensures InClosingOrder(ts + [t])
  {
    var us := ts + [t];
    forall i, j | 0 <= i < j < |us| && Closed(us[i]) && Closed(us[j])
      ensures us[i].closedAt.value <= us[j].closedAt.value
    {
      if j == |ts| {
        assert ts[i] in ts;
      }
    }
  }

  lemma LastClosed(ts: seq<Trade>, u: Trade)
    requires InClosingOrder(ts) && u in ts
    ensures Closed(u) && u.closedAt.value <= ts[|ts| - 1].closedAt.value && Closed(ts[|ts| - 1])
  {
    var k :| 0 <= k < |ts| && ts[k] == u;
    assert ts[|ts| - 1] in ts;
  }

  lemma InitInOrder(ts: seq<Trade>)
    requires ts != [] && InClosingOrder(ts)
    ensures InClosingOrder(ts[..|ts| - 1])
  {
  }

  lemma {:induction false} InsertByCloseIs(sorted: seq<Trade>, t: Trade)
    requires InClosingOrder(sorted) && Closed(t)
    ensures InClosingOrder(InsertByClose(sorted, t))
    ensures forall u :: u in InsertByClose(sorted, t) <==> u in sorted || u == t
  {
    if sorted == [] {
      assert InsertByClose(sorted, t) == [t];
    } else {
      hide InClosingOrder;
      var init, last := sorted[..|sorted| - 1], sorted[|sorted| - 1];
      assert sorted == init + [last] && last in sorted;
      LastClosed(sorted, last);
      forall u | u in sorted ensures Closed(u) && u.closedAt.value <= last.closedAt.value {
        LastClosed(sorted, u);
      }
      if last.closedAt.value > t.closedAt.value {
        InitInOrder(sorted);
        InsertByCloseIs(init, t);
        AppendInOrder(InsertByClose(init, t), last);
      } else {
        AppendInOrder(sorted, t);
      }
    }
  }

  lemma {:induction false} ByCloseIs(ts: seq<Trade>, day: int)
    ensures InClosingOrder(ByClose(ts, day))
    ensures forall t :: t in ByClose(ts, day) <==> t in ts && ClosedToday(t, day)
  {
    if ts != [] {
      var init, t := ts[..|ts| - 1], ts[|ts| - 1];
      ByCloseIs(init, day);
      assert ts == init + [t];
      if ClosedToday(t, day) {
        InsertByCloseIs(ByClose(init, day), t);
      }
    }
  }

  lemma {:induction false} LosingTailIs(sorted: seq<Trade>)
    ensures var n := LosingTail(sorted);
      && n <= |sorted| && (forall i :: |sorted| - n <= i < |sorted| ==> sorted[i].netPnl < 0)
      && (n < |sorted| ==> sorted[|sorted| - n - 1].netPnl >= 0)
  {
    if !(sorted == [] || sorted[|sorted| - 1].netPnl >= 0) {
      LosingTailIs(sorted[..|sorted| - 1]);
    }
  }

  predicate ClosedThen(t: Trade, c: int) {
    Closed(t) && t.buys > 0 && t.closedAt.value == c
  }

  /** The filled trades that closed at one instant, in the order of the list. */
  function ClosedAt(ts: seq<Trade>, c: int): seq<Trade> {
    if ts == [] then []
    else ClosedAt(ts[..|ts| - 1], c) + if ClosedThen(ts[|ts| - 1], c) then [ts[|ts| - 1]] else []
  }

  lemma ClosedAtAppend(ts: seq<Trade>, t: Trade, c: int)
    ensures ClosedAt(ts + [t], c) == ClosedAt(ts, c) + if ClosedThen(t, c) then [t] else []
  {
    assert (ts + [t])[..|ts|] == ts;
  }

  lemma {:induction false} InsertByCloseAt(sorted: seq<Trade>, t: Trade, c: int)
    requires Closed(t)
    ensures ClosedAt(InsertByClose(sorted, t), c) == ClosedAt(sorted, c) + if ClosedThen(t, c) then [t] else []
  {
    if sorted == [] {
      ClosedAtAppend([], t, c);
      assert [] + [t] == [t];
    } else {
      var init, last := sorted[..|sorted| - 1], sorted[|sorted| - 1];
      if Closed(last) && last.closedAt.value > t.closedAt.value {
        InsertByCloseAt(init, t, c);
        ClosedAtAppend(InsertByClose(init, t), last, c);
      } else {
        ClosedAtAppend(sorted, t, c);
      }
    }
  }

  lemma {:induction false} ByCloseAt(ts: seq<Trade>, day: int, c: int)
    requires Day(c) == day
    ensures ClosedAt(ByClose(ts, day), c) == ClosedAt(ts, c)
  {
    if ts != [] {
      var init, t := ts[..|ts| - 1], ts[|ts| - 1];
      ByCloseAt(init, day, c);
      if ClosedToday(t, day) {
        InsertByCloseAt(ByClose(init, day), t, c);
      }
    }
  }

  /**
   The trades that were filled and closed on the day, in the order they closed; those that closed together are the
   record's own, each once and in its order.
   */
  ghost predicate IsToday(s: State, today: seq<Trade>, day: int) {
    && InClosingOrder(today) && (forall t :: t in today <==> t in s.trades && ClosedToday(t, day))
    && forall c :: Day(c) == day ==> ClosedAt(today, c) == ClosedAt(s.trades, c)
  }

  lemma {:induction false} ClosedAtMembers(ts: seq<Trade>, c: int)
    ensures forall t :: t in ClosedAt(ts, c) <==> t in ts && ClosedThen(t, c)
  {
    if ts != [] {
      ClosedAtMembers(ts[..|ts| - 1], c);
      assert ts == ts[..|ts| - 1] + [ts[|ts| - 1]];
    }
  }

  ghost predicate SameInstants(xs: seq<Trade>, ys: seq<Trade>) {
    forall c :: ClosedAt(xs, c) == ClosedAt(ys, c)
  }

  predicate AllFilled(ts: seq<Trade>) {
    forall t :: t in ts ==> Closed(t) && t.buys > 0
  }

  /** The last of one list closed no later than the last of the other. */
  lemma LastReaches(xs: seq<Trade>, ys: seq<Trade>)
    requires InClosingOrder(ys) && AllFilled(xs) && SameInstants(xs, ys) && xs != []
    ensures ys != [] && Closed(ys[|ys| - 1]) && xs[|xs| - 1].closedAt.value <= ys[|ys| - 1].closedAt.value
  {
    var last := xs[|xs| - 1];
    ClosedAtMembers(xs, last.closedAt.value);
    ClosedAtMembers(ys, last.closedAt.value);
    assert last in xs && last in ClosedAt(ys, last.closedAt.value);
    LastClosed(ys, last);
  }

  lemma DropLast(xs: seq<Trade>, ys: seq<Trade>, x: Trade, y: Trade)
    requires xs + [x] == ys + [y]
    ensures xs == ys && x == y
  {
    assert (xs + [x])[..|xs|] == xs && (ys + [y])[..|ys|] == ys;
    assert (xs + [x])[|xs|] == x && (ys + [y])[|ys|] == y;
  }

  lemma SameBefore(xs: seq<Trade>, ys: seq<Trade>, x: Trade, c: int)
    requires ClosedAt(xs + [x], c) == ClosedAt(ys + [x], c)
    ensures ClosedAt(xs, c) == ClosedAt(ys, c)
  {
    ClosedAtAppend(xs, x, c);
    ClosedAtAppend(ys, x, c);
    hide ClosedAt;
    if ClosedThen(x, c) {
      DropLast(ClosedAt(xs, c), ClosedAt(ys, c), x, x);
    } else {
      assert ClosedAt(xs, c) + [] == ClosedAt(xs, c) && ClosedAt(ys, c) + [] == ClosedAt(ys, c);
    }
  }

  /** Both lists end with the same trade. */
  lemma SameLast(xs: seq<Trade>, ys: seq<Trade>)
    requires InClosingOrder(xs) && InClosingOrder(ys) && AllFilled(xs) && AllFilled(ys) && SameInstants(xs, ys)
    requires xs != []
    ensures ys != [] && xs[|xs| - 1] == ys[|ys| - 1]
  {
    hide ClosedAt, InClosingOrder;
    LastReaches(xs, ys);
    LastReaches(ys, xs);
    var init, x := xs[..|xs| - 1], xs[|xs| - 1];
    var rest, y := ys[..|ys| - 1], ys[|ys| - 1];
    var at := x.closedAt.value;
    assert xs == init + [x] && ys == rest + [y] && x in xs && y in ys;
    ClosedAtAppend(init, x, at);
    ClosedAtAppend(rest, y, at);
    DropLast(ClosedAt(init, at), ClosedAt(rest, at), x, y);
  }

  /** A list in closing order is known by what closed at each instant. */
  lemma {:induction false} OneClosingOrder(xs: seq<Trade>, ys: seq<Trade>)
    requires InClosingOrder(xs) && InClosingOrder(ys) && AllFilled(xs) && AllFilled(ys) && SameInstants(xs, ys)
    ensures xs == ys
    decreases |xs|
  {
    hide ClosedAt, InClosingOrder;
    if xs == [] {
      if ys != [] {
        LastReaches(ys, xs);
      }
    } else {
      SameLast(xs, ys);
      var init, rest, x := xs[..|xs| - 1], ys[..|ys| - 1], xs[|xs| - 1];
      assert xs == init + [x] && ys == rest + [x];
      forall c ensures ClosedAt(init, c) == ClosedAt(rest, c) {
        assert ClosedAt(xs, c) == ClosedAt(ys, c);
        SameBefore(init, rest, x, c);
      }
      InitInOrder(xs);
      InitInOrder(ys);
      OneClosingOrder(init, rest);
    }
  }

  /** There is only one such list. */
  lemma OneToday(s: State, today: seq<Trade>, other: seq<Trade>, day: int)
    requires IsToday(s, today, day) && IsToday(s, other, day)
    ensures today == other
  {
    forall c ensures ClosedAt(today, c) == ClosedAt(other, c) {
      if Day(c) != day {
        NoneThen(today, day, c);
        NoneThen(other, day, c);
      }
    }
    OneClosingOrder(today, other);
  }

  lemma NoneThen(ts: seq<Trade>, day: int, c: int)
    requires Day(c) != day && forall t :: t in ts ==> ClosedToday(t, day)
    ensures ClosedAt(ts, c) == []
  {
    ClosedAtMembers(ts, c);
    if ClosedAt(ts, c) != [] {
      assert ClosedAt(ts, c)[0] in ClosedAt(ts, c);
    }
  }

  /** The n losses that end the list, and no more. */
  ghost predicate EndsInLosses(today: seq<Trade>, n: nat) {
    && n <= |today| && (forall i :: |today| - n <= i < |today| ==> today[i].netPnl < 0)
    && (n < |today| ==> today[|today| - n - 1].netPnl >= 0)
  }

  /**
   The streak is the longest run of losses at the end of today's filled and closed trades, by closing time: there is
   one such list, and it ends in exactly that many losses.
   */
  lemma StreakMeans(s: State, now: int)
    ensures exists today: seq<Trade> :: IsToday(s, today, Day(now))
    ensures forall today: seq<Trade> :: IsToday(s, today, Day(now)) ==> EndsInLosses(today, LosingStreak(s, now))
  {
    var sorted := ByClose(s.trades, Day(now));
    ByCloseIs(s.trades, Day(now));
    forall c | Day(c) == Day(now) ensures ClosedAt(sorted, c) == ClosedAt(s.trades, c) {
      ByCloseAt(s.trades, Day(now), c);
    }
    LosingTailIs(sorted);
    assert IsToday(s, sorted, Day(now)) && EndsInLosses(sorted, LosingStreak(s, now));
    forall today: seq<Trade> | IsToday(s, today, Day(now)) ensures today == sorted {
      OneToday(s, today, sorted, Day(now));
    }
  }
}
