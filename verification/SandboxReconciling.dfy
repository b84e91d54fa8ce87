/**
 What reconciling with the broker's books does, said on the rows of the book alone: when it fails, what each order and
 trade is told, and when entries are halted.
 */
module SandboxReconciling {
  import opened Wrappers
  import opened SandboxTypes
  import opened Totals
  import opened SandboxSpec

  /** The row is that of an order the broker numbered, or carries the tag of one it did not. */
  predicate Shows(b: BookRow, o: Order) {
    if o.brokerId.Some? then b.orderId == o.brokerId.value else b.tag == Some(o.id)
  }

  /** Row j is the only one in the book that shows the order. */
  ghost predicate OnlyRow(book: seq<BookRow>, o: Order, j: nat) {
    j < |book| && Shows(book[j], o) && forall k :: 0 <= k < |book| && k != j ==> !Shows(book[k], o)
  }

  ghost predicate ShownOnce(book: seq<BookRow>, o: Order) {
    exists j: nat :: OnlyRow(book, o, j)
  }

  /** Orders that were sent are heard, but for the finished ones of a closed trade. */
  ghost predicate MustHear(ts: seq<Trade>, o: Order) {
    !o.state.Queued? && !o.state.Expired?
    && !(o.state in {Complete, Cancelled, Rejected}
         && exists t :: t in ts && t.id == o.id.trade && t.closedAt.Some?)
  }

  predicate RowEnded(b: BookRow) {
    b.status in {RowComplete, RowCancelled, RowRejected}
  }

  /** The row is of this very order, its fill did not go back, and its status fits its fill. */
  predicate Acceptable(o: Order, b: BookRow) {
    b.tag == Some(o.id) && b.instrument == o.id.trade.signal.instrument && b.quantity == o.quantity
    && b.buy == o.id.kind.EntryKind? && b.intraday && b.stopOrder == o.id.kind.StopKind? && b.price == o.price
    && b.trigger == o.trigger && o.filled <= b.filled <= o.quantity && (b.filled > 0 ==> b.average > 0)
    && !b.status.RowUnknown? && (b.status.RowComplete? ==> b.filled == o.quantity)
    && (b.status.RowRejected? ==> b.filled == 0)
    && (o.state.Complete? ==> b.status.RowComplete?) && (o.state.Cancelled? ==> b.status.RowCancelled?)
    && (o.state.Rejected? ==> b.status.RowRejected?)
  }

  /** A cancel begun fifteen seconds ago or more has not ended the order. */
  predicate CancelOverdue(o: Order, b: BookRow, now: int) {
    !RowEnded(b) && o.cancelState != NoCancel && o.cancelStartedAt.Some? && now - o.cancelStartedAt.value >= 15000
  }

  /** The order with what its row says; a finished one, or one with attempts left, may be cancelled again. */
  predicate Adopts(o: Order, o': Order, b: BookRow, now: int) {
    && o' == o.(brokerId := Some(b.orderId), filled := b.filled, average := o'.average, state := o'.state,
                cancelState := o'.cancelState)
    && o'.average == (if b.filled == 0 then 0 else b.average)
    && o'.state == (match b.status
                    case RowComplete => Complete
                    case RowCancelled => Cancelled
                    case RowRejected => Rejected
                    case _ => if b.filled == 0 then Open else Partial)
    && o'.cancelState == if RowEnded(b) || (CancelOverdue(o, b, now) && o.cancelAttempts < 3) then NoCancel
                         else o.cancelState
  }

  lemma {:induction false} NoRows(o: Order, book: seq<BookRow>)
    ensures RowsFor(o, book) == [] <==> forall j :: 0 <= j < |book| ==> !Shows(book[j], o)
  {
    if book != [] {
      var init := book[..|book| - 1];
      NoRows(o, init);
      if RowsFor(o, book) == [] {
        forall j | 0 <= j < |book| ensures !Shows(book[j], o) {
          assert j < |init| ==> init[j] == book[j];
        }
      }
    }
  }

  lemma {:induction false} OneRow(o: Order, book: seq<BookRow>, j: nat)
    requires OnlyRow(book, o, j)
    ensures RowsFor(o, book) == [book[j]]
  {
    var init := book[..|book| - 1];
    if j < |init| {
      OneRow(o, init, j);
    } else {
      NoRows(o, init);
    }
  }

  lemma {:induction false} FindRow(o: Order, book: seq<BookRow>) returns (j: nat)
    requires |RowsFor(o, book)| == 1
    ensures OnlyRow(book, o, j)
  {
    var init := book[..|book| - 1];
    if Shows(book[|init|], o) {
      j := |init|;
      NoRows(o, init);
    } else {
      j := FindRow(o, init);
    }
  }

  /** An order that must be heard is shown once by an acceptable row, or, where positions are read too, is not. */
  ghost predicate CanHear(ts: seq<Trade>, o: Order, book: seq<BookRow>, derived: bool) {
    MustHear(ts, o) ==>
      if ShownOnce(book, o) then exists j: nat :: OnlyRow(book, o, j) && Acceptable(o, book[j]) else !derived
  }

  /** What the order is afterwards. */
  ghost predicate Told(ts: seq<Trade>, o: Order, o': Order, book: seq<BookRow>, now: int) {
    if MustHear(ts, o) && ShownOnce(book, o) then exists j: nat :: OnlyRow(book, o, j) && Adopts(o, o', book[j], now)
    else o' == o
  }

  ghost predicate Overdue(o: Order, book: seq<BookRow>, now: int) {
    exists j: nat :: OnlyRow(book, o, j) && CancelOverdue(o, book[j], now)
  }

  /** The order has no row or several, or its third cancel has not ended it. */
  ghost predicate Troubled(ts: seq<Trade>, o: Order, book: seq<BookRow>, now: int) {
    MustHear(ts, o) && (!ShownOnce(book, o) || (Overdue(o, book, now) && o.cancelAttempts >= 3))
  }

  ghost predicate HaltedFor(s': State, o: Order, book: seq<BookRow>) {
    !s'.armed
    && s'.haltReason == Some(if ShownOnce(book, o) then CancellationNotConfirmed else OrderReconciliationRequired)
  }

  lemma JudgeMeans(o: Order, closed: bool, book: seq<BookRow>, now: int, j: nat)
    requires !o.state.Queued? && !o.state.Expired? && !(Terminal(o) && closed) && OnlyRow(book, o, j)
    ensures var v := JudgeOrder(o, closed, book, now);
      if Acceptable(o, book[j])
      then v.Judged? && Adopts(o, v.order, book[j], now)
           && v.exhausted == (CancelOverdue(o, book[j], now) && o.cancelAttempts >= 3)
      else v.Failed?
  {
    hide RowsFor, OnlyRow;
    OneRow(o, book, j);
  }

  lemma OrderHeard(s: State, i: nat, book: seq<BookRow>, now: int, derived: bool)
    requires i < |s.orders|
    ensures var r, o := ReconcileOrder(s, i, book, now, derived), s.orders[i];
      && r.Ok? == CanHear(s.trades, o, book, derived)
      && (r.Ok? ==>
            && |r.value.orders| == |s.orders|
            && r.value == s.(orders := s.orders[i := r.value.orders[i]], armed := r.value.armed,
                             haltReason := r.value.haltReason)
            && Told(s.trades, o, r.value.orders[i], book, now)
            && if Troubled(s.trades, o, book, now) then HaltedFor(r.value, o, book)
               else r.value.armed == s.armed && r.value.haltReason == s.haltReason)
  {
    hide RowsFor, OnlyRow, Acceptable, Adopts, JudgeOrder, CancelOverdue;
    var o := s.orders[i];
    var closed := TradeClosedIn(s.trades, o.id.trade);
    assert MustHear(s.trades, o) <==> !o.state.Queued? && !o.state.Expired? && !(Terminal(o) && closed);
    if MustHear(s.trades, o) {
      if j: nat :| OnlyRow(book, o, j) {
        OnlyOne(book, o, j);
        JudgeMeans(o, closed, book, now, j);
      } else {
        Unshown(o, closed, book, now);
      }
    } else {
      Unheard(o, closed, book, now);
    }
  }

  lemma OnlyOne(book: seq<BookRow>, o: Order, j: nat)
    requires OnlyRow(book, o, j)
    ensures j < |book| && forall k: nat :: OnlyRow(book, o, k) ==> k == j
  {
  }

  lemma Unshown(o: Order, closed: bool, book: seq<BookRow>, now: int)
    requires !o.state.Queued? && !o.state.Expired? && !(Terminal(o) && closed) && !ShownOnce(book, o)
    ensures JudgeOrder(o, closed, book, now) == Unmatched
  {
    hide RowsFor, OnlyRow;
    if |RowsFor(o, book)| == 1 {
      var j := FindRow(o, book);
    }
  }

  lemma Unheard(o: Order, closed: bool, book: seq<BookRow>, now: int)
    requires o.state.Queued? || o.state.Expired? || (Terminal(o) && closed)
    ensures JudgeOrder(o, closed, book, now) == Skip
  {
  }

  ghost predicate AllCanHear(s: State, i: nat, book: seq<BookRow>, derived: bool) {
    forall k :: i <= k < |s.orders| ==> CanHear(s.trades, s.orders[k], book, derived)
  }

  ghost predicate AllTold(s: State, i: nat, os': seq<Order>, book: seq<BookRow>, now: int) {
    && |os'| == |s.orders|
    && (forall k :: 0 <= k < |os'| && k < i ==> os'[k] == s.orders[k])
    && forall k :: i <= k < |os'| ==> Told(s.trades, s.orders[k], os'[k], book, now)
  }

  ghost predicate NoTrouble(s: State, i: nat, book: seq<BookRow>, now: int) {
    forall k :: i <= k < |s.orders| ==> !Troubled(s.trades, s.orders[k], book, now)
  }

  /** Entries are halted for the last troubled order, and left as they were when there is none. */
  ghost predicate HaltsIff(s: State, i: nat, s': State, book: seq<BookRow>, now: int) {
    && (NoTrouble(s, i, book, now) ==> s'.armed == s.armed && s'.haltReason == s.haltReason)
    && forall k | i <= k < |s.orders| && Troubled(s.trades, s.orders[k], book, now) && NoTrouble(s, k + 1, book, now) ::
      HaltedFor(s', s.orders[k], book)
  }

  lemma {:induction false} OrdersHeard(s: State, i: nat, book: seq<BookRow>, now: int, derived: bool)
    requires i <= |s.orders|
    ensures var r := ReconcileOrders(s, i, book, now, derived);
      && r.Ok? == AllCanHear(s, i, book, derived)
      && (r.Ok? ==>
            && r.value == s.(orders := r.value.orders, armed := r.value.armed, haltReason := r.value.haltReason)
            && AllTold(s, i, r.value.orders, book, now) && HaltsIff(s, i, r.value, book, now))
    decreases |s.orders| - i
  {
    hide CanHear, Told, Troubled, HaltedFor, ReconcileOrder;
    if i < |s.orders| {
      OrderHeard(s, i, book, now, derived);
      var first := ReconcileOrder(s, i, book, now, derived);
      if first.Ok? {
        OrdersHeard(first.value, i + 1, book, now, derived);
        SameAhead(s, first.value, i, book, now, derived);
        if AllCanHear(s, i + 1, book, derived) {
          var last := ReconcileOrders(first.value, i + 1, book, now, derived).value;
          assert AllTold(s, i, last.orders, book, now);
          HaltsFirst(s, first.value, last, i, book, now);
          assert ReconcileOrders(s, i, book, now, derived) == Ok(last);
        } else {
          assert !AllCanHear(s, i, book, derived);
        }
      } else {
        assert !CanHear(s.trades, s.orders[i], book, derived);
        assert !AllCanHear(s, i, book, derived);
      }
    }
  }

  lemma SameAhead(s: State, s1: State, i: nat, book: seq<BookRow>, now: int, derived: bool)
    requires i < |s.orders| == |s1.orders| && s1.trades == s.trades
    requires s1.orders == s.orders[i := s1.orders[i]]
    ensures AllCanHear(s1, i + 1, book, derived) == AllCanHear(s, i + 1, book, derived)
    ensures forall k: nat :: k > i ==> NoTrouble(s1, k, book, now) == NoTrouble(s, k, book, now)
  {
    hide CanHear, Troubled;
    assert forall k :: i < k < |s.orders| ==> s1.orders[k] == s.orders[k];
  }

  lemma HaltsFirst(s: State, s1: State, s': State, i: nat, book: seq<BookRow>, now: int)
    requires i < |s.orders| == |s1.orders| && s1.trades == s.trades && s1.orders == s.orders[i := s1.orders[i]]
    requires if Troubled(s.trades, s.orders[i], book, now) then HaltedFor(s1, s.orders[i], book)
             else s1.armed == s.armed && s1.haltReason == s.haltReason
    requires HaltsIff(s1, i + 1, s', book, now)
    ensures HaltsIff(s, i, s', book, now)
  {
    hide Troubled;
    SameAhead(s, s1, i, book, now, false);
    assert NoTrouble(s, i, book, now) ==> NoTrouble(s, i + 1, book, now) && !Troubled(s.trades, s.orders[i], book, now);
    forall k | i <= k < |s.orders| && Troubled(s.trades, s.orders[k], book, now) && NoTrouble(s, k + 1, book, now)
      ensures HaltedFor(s', s.orders[k], book)
    {
      if k > i {
        assert s1.orders[k] == s.orders[k];
      }
    }
  }

  // Trades.

  /** All orders of an open trade are finished and nothing is held. */
  ghost predicate Ends(t: Trade, os: seq<Order>) {
    t.closedAt.None? && !t.resolved && Net(t.id, os) == 0
    && forall k :: 0 <= k < |os| && os[k].id.trade == t.id ==> Terminal(os[k])
  }

  /** The trade as it was, or closed now with what it bought and what it earned. */
  ghost predicate Settled(t: Trade, t': Trade, os: seq<Order>, now: int) {
    if !Ends(t, os) then t' == t
    else
      && t' == t.(closedAt := Some(now), buys := Total(Bought, t.id, os), netPnl := t'.netPnl)
      && t'.netPnl == if t'.buys == 0 then 0 else
        Total(Received, t.id, os) - Total(Spent, t.id, os) - t.costReserve
  }

  /** With trade k just closed and the later ones as they were, the day's results reach the loss limit. */
  ghost predicate LocksAt(s: State, ts': seq<Trade>, k: nat, now: int) {
    k < |s.trades| == |ts'| && Ends(s.trades[k], s.orders)
    && DayPnl(ts'[..k + 1] + s.trades[k + 1..], Day(now), false) <= -s.policy.dailyLoss
  }

  ghost predicate Locks(s: State, i: nat, ts': seq<Trade>, now: int) {
    exists k: nat :: k >= i && LocksAt(s, ts', k, now)
  }

  ghost predicate TradesSettled(s: State, i: nat, s': State, now: int) {
    && |s'.trades| == |s.trades|
    && (forall k :: 0 <= k < |s.trades| && k < i ==> s'.trades[k] == s.trades[k])
    && (forall k :: i <= k < |s.trades| ==> Settled(s.trades[k], s'.trades[k], s.orders, now))
    && s' == s.(trades := s'.trades, lockedDays := s'.lockedDays)
    && s'.lockedDays == s.lockedDays + if Locks(s, i, s'.trades, now) then {Day(now)} else {}
  }

  ghost predicate NoOversold(s: State, i: nat) {
    forall k :: i <= k < |s.trades| ==> Net(s.trades[k].id, s.orders) >= 0
  }

  lemma EndsMeans(t: Trade, os: seq<Order>)
    ensures Ends(t, os) == (!t.resolved && !Closed(t) && AllTerminal(os, t.id) && Net(t.id, os) == 0)
  {
    hide Net;
    if AllTerminal(os, t.id) {
      forall k | 0 <= k < |os| && os[k].id.trade == t.id ensures Terminal(os[k]) {
        assert os[k] in os;
      }
    }
  }

  lemma TradeSettled(s: State, i: nat, now: int)
    requires i < |s.trades|
    ensures var r := ReconcileTrade(s, i, now);
      && r.Ok? == (Net(s.trades[i].id, s.orders) >= 0)
      && (r.Ok? ==>
            && |r.value.trades| == |s.trades|
            && r.value == s.(trades := s.trades[i := r.value.trades[i]], lockedDays := r.value.lockedDays)
            && Settled(s.trades[i], r.value.trades[i], s.orders, now)
            && r.value.lockedDays == s.lockedDays
               + if LocksAt(s, r.value.trades, i, now) then {Day(now)} else {})
  {
    hide Net, Total, DayPnl, Ends, AllTerminal;
    EndsMeans(s.trades[i], s.orders);
    var r := ReconcileTrade(s, i, now);
    if r.Ok? {
      assert r.value.trades[..i + 1] + s.trades[i + 1..] == r.value.trades;
    }
  }

  lemma {:induction false} TradesSettle(s: State, i: nat, now: int)
    requires i <= |s.trades|
    ensures var r := ReconcileTrades(s, i, now);
      r.Ok? == NoOversold(s, i) && (r.Ok? ==> TradesSettled(s, i, r.value, now))
    decreases |s.trades| - i
  {
    hide Net, Settled, LocksAt, ReconcileTrade;
    if i < |s.trades| {
      TradeSettled(s, i, now);
      var first := ReconcileTrade(s, i, now);
      if first.Ok? {
        TradesSettle(first.value, i + 1, now);
        assert forall k :: i < k < |s.trades| ==> first.value.trades[k] == s.trades[k];
        if NoOversold(first.value, i + 1) {
          var last := ReconcileTrades(first.value, i + 1, now).value;
          LocksLater(s, first.value, last, i, now);
        }
      }
    } else {
      assert !Locks(s, i, s.trades, now) by {
        NoLockAfter(s, now);
      }
    }
  }

  lemma LocksLater(s: State, s1: State, s': State, i: nat, now: int)
    requires i < |s.trades| == |s1.trades|
    requires s1 == s.(trades := s.trades[i := s1.trades[i]], lockedDays := s1.lockedDays)
    requires s1.lockedDays == s.lockedDays + if LocksAt(s, s1.trades, i, now) then {Day(now)} else {}
    requires Settled(s.trades[i], s1.trades[i], s.orders, now)
    requires TradesSettled(s1, i + 1, s', now)
    ensures TradesSettled(s, i, s', now)
  {
    hide Net, Settled, Ends, DayPnl;
    assert s'.trades[..i + 1] == s1.trades[..i + 1];
    assert LocksAt(s, s1.trades, i, now) == LocksAt(s, s'.trades, i, now) by {
      assert s1.trades[..i + 1] + s.trades[i + 1..] == s'.trades[..i + 1] + s.trades[i + 1..];
    }
    forall k: nat | k > i ensures LocksAt(s1, s'.trades, k, now) == LocksAt(s, s'.trades, k, now) {
      if k < |s.trades| {
        assert s1.trades[k] == s.trades[k] && s1.trades[k + 1..] == s.trades[k + 1..];
      }
    }
  }

  lemma NoLockAfter(s: State, now: int)
    ensures !Locks(s, |s.trades|, s.trades, now)
  {
  }

  // The whole reconciliation.

  /** The order carries the row's number, or is about to adopt it. */
  ghost predicate Carries(ts: seq<Trade>, o: Order, book: seq<BookRow>, b: BookRow) {
    if o.brokerId.Some? then o.brokerId.value == b.orderId
    else MustHear(ts, o) && exists j: nat :: OnlyRow(book, o, j) && book[j].orderId == b.orderId
  }

  ghost predicate Ours(s: State, book: seq<BookRow>, b: BookRow) {
    exists k :: 0 <= k < |s.orders| && Carries(s.trades, s.orders[k], book, b)
  }

  lemma ToldCarries(ts: seq<Trade>, o: Order, o': Order, book: seq<BookRow>, b: BookRow, now: int)
    requires Told(ts, o, o', book, now)
    ensures o'.brokerId == Some(b.orderId) <==> Carries(ts, o, book, b)
  {
    if j: nat :| OnlyRow(book, o, j) {
      OnlyOne(book, o, j);
      assert Shows(book[j], o);
    }
  }

  lemma OwnedIsOurs(s: State, os': seq<Order>, book: seq<BookRow>, b: BookRow, now: int)
    requires AllTold(s, 0, os', book, now)
    ensures Owned(b, os') == Ours(s, book, b)
  {
    hide Told, Carries;
    forall k | 0 <= k < |os'| ensures os'[k].brokerId == Some(b.orderId) <==> Carries(s.trades, s.orders[k], book, b) {
      ToldCarries(s.trades, s.orders[k], os'[k], book, b, now);
    }
    if Ours(s, book, b) {
      var k :| 0 <= k < |s.orders| && Carries(s.trades, s.orders[k], book, b);
      assert os'[k] in os';
    }
  }

  /** What is told is determined. */
  lemma OneTelling(s: State, os': seq<Order>, os'': seq<Order>, book: seq<BookRow>, now: int)
    requires AllTold(s, 0, os', book, now) && AllTold(s, 0, os'', book, now)
    ensures os' == os''
  {
    hide Told;
    forall k | 0 <= k < |os'| ensures os'[k] == os''[k] {
      ToldOnce(s.trades, s.orders[k], os'[k], os''[k], book, now);
    }
  }

  lemma ToldOnce(ts: seq<Trade>, o: Order, o': Order, o'': Order, book: seq<BookRow>, now: int)
    requires Told(ts, o, o', book, now) && Told(ts, o, o'', book, now)
    ensures o' == o''
  {
    hide OnlyRow;
    if j: nat :| OnlyRow(book, o, j) {
      OnlyOne(book, o, j);
    }
  }

  /** On every instrument the broker holds what the trades that are not resolved bought and did not sell. */
  ghost predicate HeldAsExpected(ts: seq<Trade>, os: seq<Order>, ps: seq<Position>) {
    forall x: string :: Expected(ts, os, x) == Held(ps, x)
  }

  lemma {:induction false} NothingExpected(ts: seq<Trade>, os: seq<Order>, x: string)
    requires forall t :: t in ts && !t.resolved ==> Instrument(t.id) != x
    ensures Expected(ts, os, x) == 0
  {
    if ts != [] {
      assert ts[|ts| - 1] in ts;
      NothingExpected(ts[..|ts| - 1], os, x);
    }
  }

  lemma {:induction false} NothingHeld(ps: seq<Position>, x: string)
    requires forall p :: p in ps ==> p.instrument != x
    ensures Held(ps, x) == 0
  {
    if ps != [] {
      assert ps[|ps| - 1] in ps;
      NothingHeld(ps[..|ps| - 1], x);
    }
  }

  lemma AgreeEverywhere(s: State, ps: seq<Position>)
    ensures PositionsAgree(s, ps) == HeldAsExpected(s.trades, s.orders, ps)
  {
    hide Expected, Held;
    if PositionsAgree(s, ps) {
      forall x: string ensures Expected(s.trades, s.orders, x) == Held(ps, x) {
        if t :| t in s.trades && !t.resolved && Instrument(t.id) == x {
          assert Expected(s.trades, s.orders, Instrument(t.id)) == Held(ps, Instrument(t.id));
        } else if p :| p in ps && p.instrument == x {
          assert Expected(s.trades, s.orders, p.instrument) == Held(ps, p.instrument);
        } else {
          NothingExpected(s.trades, s.orders, x);
          NothingHeld(ps, x);
        }
      }
    }
  }

  lemma {:induction false} SettledExpected(ts: seq<Trade>, us: seq<Trade>, os: seq<Order>, x: string)
    requires |ts| == |us| && forall k :: 0 <= k < |ts| ==> us[k].id == ts[k].id && us[k].resolved == ts[k].resolved
    ensures Expected(us, os, x) == Expected(ts, os, x)
  {
    if ts != [] {
      SettledExpected(ts[..|ts| - 1], us[..|us| - 1], os, x);
    }
  }

  /** What a reconciliation needs of the record, the book and the positions to go through. */
  ghost predicate Explained(s: State, book: seq<BookRow>, positions: Option<seq<Position>>, os': seq<Order>, now: int) {
    && (positions.None? ==> forall t :: t in s.trades && t.closedAt.None? ==> t.id.day == Day(now))
    && (forall i, j :: 0 <= i < j < |book| ==> book[i].orderId != book[j].orderId)
    && (forall b :: b in book ==> b.orderId != "")
    && AllCanHear(s, 0, book, positions.None?) && AllTold(s, 0, os', book, now)
    && (forall b :: b in book && !Ours(s, book, b) ==> positions.Some? && RowEnded(b))
    && (forall k :: 0 <= k < |s.trades| ==> Net(s.trades[k].id, os') >= 0)
    && (positions.Some? ==>
          (forall p :: p in positions.value ==> p.intraday) && HeldAsExpected(s.trades, os', positions.value))
  }

  /** What a reconciliation leaves behind: the orders told, the trades settled, and the halt, if any. */
  ghost predicate Leaves(s: State, book: seq<BookRow>, s': State, now: int) {
    var heard := s.(orders := s'.orders, armed := s'.armed, haltReason := s'.haltReason);
    && AllTold(s, 0, s'.orders, book, now) && HaltsIff(s, 0, s', book, now)
    && TradesSettled(heard, 0, s'.(reconciledAt := s.reconciledAt), now) && s'.reconciledAt == Some(now)
  }

  /** The books after the orders are heard. */
  lemma BooksChecked(s: State, s1: State, book: seq<BookRow>, derived: bool, now: int)
    requires AllTold(s, 0, s1.orders, book, now)
    ensures (!(derived && exists b :: b in book && !Owned(b, s1.orders))
             && !exists b :: b in book && !Owned(b, s1.orders) && !RowFinished(b))
      <==> forall b :: b in book && !Ours(s, book, b) ==> !derived && RowEnded(b)
  {
    hide AllTold, Ours, Owned;
    forall b ensures Owned(b, s1.orders) == Ours(s, book, b) {
      OwnedIsOurs(s, s1.orders, book, b, now);
    }
  }

  lemma PositionsChecked(s1: State, s2: State, ps: seq<Position>, now: int)
    requires TradesSettled(s1, 0, s2, now)
    ensures PositionsAgree(s2, ps) == HeldAsExpected(s1.trades, s1.orders, ps)
  {
    hide Expected, Held, PositionsAgree, Ends, Locks;
    AgreeEverywhere(s2, ps);
    forall x: string ensures Expected(s2.trades, s2.orders, x) == Expected(s1.trades, s1.orders, x) {
      SettledExpected(s1.trades, s2.trades, s1.orders, x);
    }
  }

  /**
   A reconciliation goes through exactly when the book and the positions explain the record; then every order and
   trade is told what they say, and entries are halted exactly when an order was not shown once or a third cancel did
   not end one.
   */
  lemma ReconcileIff(s: State, book: seq<BookRow>, positions: Option<seq<Position>>, now: int)
    ensures var r := Reconcile(s, book, positions, now);
      && (r.Ok? <==> exists os' :: Explained(s, book, positions, os', now))
      && (r.Ok? ==> Leaves(s, book, r.value, now))
  {
    hide ReconcileOrders, ReconcileTrades, AllCanHear, AllTold, HaltsIff, Ours, Owned, RowFinished, RowEnded;
    hide HeldAsExpected, PositionsAgree, Net;
    OrdersHeard(s, 0, book, now, positions.None?);
    var r1 := ReconcileOrders(s, 0, book, now, positions.None?);
    if r1.Ok? {
      var s1 := r1.value;
      BooksChecked(s, s1, book, positions.None?, now);
      TradesSettle(s1, 0, now);
      forall os' | Explained(s, book, positions, os', now) ensures os' == s1.orders {
        OneTelling(s, os', s1.orders, book, now);
      }
      var r2 := ReconcileTrades(s1, 0, now);
      if r2.Ok? && positions.Some? {
        PositionsChecked(s1, r2.value, positions.value, now);
      }
      if Reconcile(s, book, positions, now).Ok? {
        assert Explained(s, book, positions, s1.orders, now);
        LeftBehind(s, s1, r2.value, book, now);
      }
    }
  }

  lemma LeftBehind(s: State, s1: State, s2: State, book: seq<BookRow>, now: int)
    requires s1 == s.(orders := s1.orders, armed := s1.armed, haltReason := s1.haltReason)
    requires AllTold(s, 0, s1.orders, book, now) && HaltsIff(s, 0, s1, book, now) && TradesSettled(s1, 0, s2, now)
    ensures Leaves(s, book, s2.(reconciledAt := Some(now)), now)
  {
    hide AllTold, NoTrouble, Troubled, Settled, Locks;
    assert s2.(reconciledAt := Some(now)).(reconciledAt := s.reconciledAt) == s2;
  }

  lemma {:induction false} LastTrouble(s: State, i: nat, book: seq<BookRow>, now: int) returns (k: nat)
    requires i <= |s.orders| && !NoTrouble(s, i, book, now)
    ensures i <= k < |s.orders| && Troubled(s.trades, s.orders[k], book, now) && NoTrouble(s, k + 1, book, now)
    decreases |s.orders| - i
  {
    hide Troubled;
    if NoTrouble(s, i + 1, book, now) {
      k := i;
    } else {
      k := LastTrouble(s, i + 1, book, now);
    }
  }

  /** Entries are halted anew exactly when some order that must be heard is troubled. */
  lemma ReconcileHalts(s: State, book: seq<BookRow>, positions: Option<seq<Position>>, now: int)
    requires Reconcile(s, book, positions, now).Ok?
    ensures var s' := Reconcile(s, book, positions, now).value;
      if exists o :: o in s.orders && Troubled(s.trades, o, book, now)
      then !s'.armed && s'.haltReason in {Some(OrderReconciliationRequired), Some(CancellationNotConfirmed)}
      else s'.armed == s.armed && s'.haltReason == s.haltReason
  {
    hide Reconcile, Troubled, TradesSettled, AllTold, ShownOnce;
    ReconcileIff(s, book, positions, now);
    if o :| o in s.orders && Troubled(s.trades, o, book, now) {
      var k := LastTrouble(s, 0, book, now);
    }
  }
}
