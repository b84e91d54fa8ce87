/**
 Trades the owner resolved by hand. Their working orders are expired in the record without asking the broker, who may
 still fill them; what they can sell at most is still within what was bought, on every run.
 */
module SandboxResolved {
  import opened Wrappers
  import opened SandboxTypes
  import opened Totals
  import opened SandboxSpec
  import opened SandboxInvariant
  import opened SandboxSteps
  import opened SandboxArchive
  import opened SandboxService
  import opened SandboxWorld
  import opened SandboxRuns

  // What is known of an order whether or not its trade was resolved.

  predicate PlacingDue(f: Flight) {
    f.Due? && f.action.kind == PlaceAction
  }

  /** The orders that were sent, or that a process is about to send. */
  function Sent(out: Outside): set<OrderId> {
    (set id | id in out.placed)
      + (set x | x in out.flights && PlacingDue(out.flights[x]) :: out.flights[x].action.order.id)
  }

  ghost predicate Loose(out: Outside, o: Order) {
    && (Terminal(o) && o.state != Expired ==>
          o.id in out.placed && forall r :: r in out.rows && r.tag == o.id ==> r.finished && r.filled == o.filled)
    && (forall r :: r in out.rows && r.tag == o.id ==> o.filled <= r.filled && r.quantity == o.quantity)
    && (o.filled > 0 ==> exists r :: r in out.rows && r.tag == o.id)
  }

  ghost predicate Bounded(out: Outside, t: TradeId, os: seq<Order>) {
    Total(Capped(Sent(out)), t, os) <= Total(Bought, t, os)
  }

  ghost predicate Settled(w: World) {
    && (forall o :: IsOrder(w, o) ==> Loose(w.out, o))
    && (forall t :: t in w.s.trades && t.resolved ==> Bounded(w.out, t.id, w.s.orders))
    && (forall a :: a in w.archive && a.trade.resolved ==> Bounded(w.out, a.trade.id, a.orders))
  }

  lemma SentIs(out: Outside)
    ensures forall id :: id in Sent(out) <==> id in out.placed || IsDue(out, id)
  {
    forall id ensures id in Sent(out) <==> id in out.placed || IsDue(out, id) {
      if x :| x in out.flights && PlaceDue(out.flights[x], id) {
        assert PlacingDue(out.flights[x]);
      }
      if x :| x in out.flights && PlacingDue(out.flights[x]) && out.flights[x].action.order.id == id {
        assert PlaceDue(out.flights[x], id);
      }
    }
  }

  /** Everything sent is of an order that the record or the archive knows. */
  lemma SentIsKnown(w: World, id: OrderId)
    requires Safe(w) && id in Sent(w.out)
    ensures Known(w, id)
  {
    hide Sound, ArchiveOk, OutsideOk, AllLinked;
    SentIs(w.out);
    if id !in w.out.placed {
      var x :| x in w.out.flights && PlaceDue(w.out.flights[x], id);
      assert KnownSize(w, w.out.flights[x].action.order);
    }
  }

  lemma UnresolvedLoose(w: World, o: Order)
    requires Safe(w) && IsOrder(w, o) && !Resolved(w, o.id.trade)
    ensures Loose(w.out, o)
  {
    hide Sound, ArchiveOk, OutsideOk, AllKnown;
    assert Linked(w.out, o);
  }

  lemma UnsentUnseen(w: World, id: OrderId)
    requires Safe(w) && id !in Sent(w.out)
    ensures forall r :: r in w.out.rows ==> r.tag != id
  {
    SentIs(w.out);
    forall r | r in w.out.rows ensures r.tag != id {
      var i :| 0 <= i < |w.out.rows| && w.out.rows[i] == r;
    }
  }

  // Steps in place.

  predicate RestStep(o: Order, p: Order) {
    p.id == o.id && p.quantity == o.quantity && p.filled == o.filled && p.state == o.state
  }

  /** The orders of closed trades rest; new orders were never sent. */
  ghost predicate ClosedRest(ts: seq<Trade>, os: seq<Order>, ps: seq<Order>) {
    && |os| <= |ps|
    && (forall i :: 0 <= i < |os| ==> ps[i].id == os[i].id)
    && (forall i :: 0 <= i < |os| && TradeClosedIn(ts, os[i].id.trade) ==> RestStep(os[i], ps[i]))
    && (forall i :: |os| <= i < |ps| ==> Unsent(ps[i]))
  }

  ghost predicate ResolvedSame(ts: seq<Trade>, us: seq<Trade>) {
    forall u :: u in us && u.resolved ==> exists t :: t in ts && t.id == u.id && t.resolved
  }

  /** What is sent now was sent before, or is not of a resolved trade. */
  ghost predicate SentOnward(w: World, w': World) {
    forall id :: id in Sent(w'.out) ==> id in Sent(w.out) || !Resolved(w, id.trade)
  }

  ghost predicate LooseOnward(w: World, w': World) {
    forall o :: IsOrder(w, o) && Resolved(w, o.id.trade) && Loose(w.out, o) ==> Loose(w'.out, o)
  }

  lemma ResolvedIsClosed(w: World, t: Trade)
    requires Safe(w) && t in w.s.trades && t.resolved
    ensures TradeClosedIn(w.s.trades, t.id) && Resolved(w, t.id)
  {
    var k :| 0 <= k < |w.s.trades| && w.s.trades[k] == t;
    assert TradeOk(w.s.trades[k], w.s.orders);
    assert IsTrade(w, t);
  }

  lemma {:induction false} PrefixBought(t: TradeId, os: seq<Order>, ps: seq<Order>)
    requires |os| <= |ps|
    requires forall i :: 0 <= i < |os| ==> Weight(Bought, t, ps[i]) == Weight(Bought, t, os[i])
    requires forall i :: |os| <= i < |ps| ==> Weight(Bought, t, ps[i]) == 0
    ensures Total(Bought, t, ps) == Total(Bought, t, os)
    decreases |ps|
  {
    if |os| < |ps| {
      PrefixBought(t, os, ps[..|ps| - 1]);
    } else if ps != [] {
      PrefixBought(t, os[..|os| - 1], ps[..|ps| - 1]);
    }
  }

  lemma ResolvedStaysHot(w: World, w': World, id: TradeId)
    requires Safe(w) && Safe(w') && w'.archive == w.archive && ResolvedSame(w.s.trades, w'.s.trades)
    requires Resolved(w', id) && HasTrade(w'.s.trades, id)
    ensures TradeClosedIn(w.s.trades, id) && Resolved(w, id)
  {
    hide Sound, OutsideOk, AllKnown, AllLinked;
    var u :| IsTrade(w', u) && u.id == id && u.resolved;
    var h :| h in w'.s.trades && h.id == id;
    assert !InRows(w'.archive, u);
    var t :| t in w.s.trades && t.id == u.id && t.resolved;
    ResolvedIsClosed(w, t);
  }

  /** Nothing new is sent for a resolved trade, so a new order of one was not sent either. */
  lemma NewNotSent(w: World, w': World, i: nat)
    requires Safe(w) && Safe(w') && w'.archive == w.archive && ClosedRest(w.s.trades, w.s.orders, w'.s.orders)
    requires SentOnward(w, w') && |w.s.orders| <= i < |w'.s.orders| && Resolved(w, w'.s.orders[i].id.trade)
    ensures w'.s.orders[i].id !in Sent(w'.out)
  {
    hide Safe;
    NewUnknown(w, w', i);
    if w'.s.orders[i].id in Sent(w.out) {
      SentIsKnown(w, w'.s.orders[i].id);
    }
  }

  lemma NewUnknown(w: World, w': World, i: nat)
    requires Safe(w') && w'.archive == w.archive && |w.s.orders| <= i < |w'.s.orders|
    requires forall k :: 0 <= k < |w.s.orders| ==> w'.s.orders[k].id == w.s.orders[k].id
    ensures !Known(w, w'.s.orders[i].id)
  {
    var p := w'.s.orders[i];
    assert p in w'.s.orders;
    forall o | IsOrder(w, o) ensures o.id != p.id {
      if o in w.s.orders {
        var j :| 0 <= j < |w.s.orders| && w.s.orders[j] == o;
        assert w'.s.orders[j].id != w'.s.orders[i].id;
      } else {
        var a :| a in w.archive && o in a.orders;
        HotApart(w', a, p);
      }
    }
  }

  lemma RestLoose(out: Outside, o: Order, p: Order)
    requires Loose(out, o) && RestStep(o, p)
    ensures Loose(out, p)
  {
  }

  lemma NewLoose(out: Outside, p: Order)
    requires Unsent(p) && forall r :: r in out.rows ==> r.tag != p.id
    ensures Loose(out, p)
  {
  }

  lemma HotLoose(w: World, w': World, i: nat)
    requires Safe(w) && Safe(w') && Settled(w) && w'.archive == w.archive
    requires ClosedRest(w.s.trades, w.s.orders, w'.s.orders) && ResolvedSame(w.s.trades, w'.s.trades)
    requires SentOnward(w, w') && LooseOnward(w, w') && i < |w'.s.orders|
    ensures Loose(w'.out, w'.s.orders[i])
  {
    hide Safe, Loose;
    var p := w'.s.orders[i];
    if !Resolved(w', p.id.trade) {
      UnresolvedLoose(w', p);
    } else {
      SafeIsSound(w');
      HotOrderHasTrade(w'.s, p);
      ResolvedStaysHot(w, w', p.id.trade);
      if i < |w.s.orders| {
        assert IsOrder(w, w.s.orders[i]);
        RestLoose(w'.out, w.s.orders[i], p);
      } else {
        NewNotSent(w, w', i);
        UnsentUnseen(w', p.id);
        NewLoose(w'.out, p);
      }
    }
  }

  lemma ArchivedLoose(w: World, w': World, o: Order)
    requires Safe(w') && Settled(w) && w'.archive == w.archive && LooseOnward(w, w') && OrderInRows(w.archive, o)
    requires Resolved(w', o.id.trade) ==> Resolved(w, o.id.trade)
    ensures Loose(w'.out, o)
  {
    hide Safe, Loose;
    assert IsOrder(w, o) && IsOrder(w', o);
    if !Resolved(w', o.id.trade) {
      UnresolvedLoose(w', o);
    }
  }

  /** An archived trade is not in the record, so it was resolved before if it is now. */
  lemma ArchivedResolved(w: World, w': World, o: Order)
    requires Safe(w') && w'.archive == w.archive && OrderInRows(w.archive, o) && Resolved(w', o.id.trade)
    ensures Resolved(w, o.id.trade)
  {
    hide Sound, OutsideOk, AllKnown, AllLinked;
    var u :| IsTrade(w', u) && u.id == o.id.trade && u.resolved;
    var a :| a in w'.archive && o in a.orders;
    assert u !in w'.s.trades;
    assert IsTrade(w, u);
  }

  lemma RestWeight(sent: set<OrderId>, sent': set<OrderId>, t: TradeId, o: Order, p: Order)
    requires p.id == o.id && (o.id.trade == t ==> RestStep(o, p) && 0 <= o.quantity)
    requires o.id.trade == t && o.id in sent' ==> o.id in sent
    ensures Weight(Capped(sent'), t, p) <= Weight(Capped(sent), t, o) && Weight(Bought, t, p) == Weight(Bought, t, o)
  {
  }

  lemma NewWeight(sent': set<OrderId>, t: TradeId, p: Order)
    requires Unsent(p) && (p.id.trade == t ==> p.id !in sent')
    ensures Weight(Capped(sent'), t, p) == 0 && Weight(Bought, t, p) == 0
  {
  }

  lemma HotWeights(w: World, w': World, t: TradeId, i: nat)
    requires Safe(w) && Safe(w') && w'.archive == w.archive && ClosedRest(w.s.trades, w.s.orders, w'.s.orders)
    requires SentOnward(w, w') && Resolved(w, t) && TradeClosedIn(w.s.trades, t) && i < |w'.s.orders|
    ensures var p, m, m' := w'.s.orders[i], Capped(Sent(w.out)), Capped(Sent(w'.out));
      if i < |w.s.orders|
      then Weight(m', t, p) <= Weight(m, t, w.s.orders[i]) && Weight(Bought, t, p) == Weight(Bought, t, w.s.orders[i])
      else Weight(m', t, p) == 0 && Weight(Bought, t, p) == 0
  {
    hide Safe, Sent, Weight, Resolved, TradeClosedIn;
    var p := w'.s.orders[i];
    if i < |w.s.orders| {
      OrderOkIn(w, i);
      RestWeight(Sent(w.out), Sent(w'.out), t, w.s.orders[i], p);
    } else {
      if p.id.trade == t {
        NewNotSent(w, w', i);
      }
      NewWeight(Sent(w'.out), t, p);
    }
  }

  lemma OrderOkIn(w: World, i: nat)
    requires Safe(w) && i < |w.s.orders|
    ensures 0 <= w.s.orders[i].quantity
  {
    OrderOkAt(w.s, i);
  }

  lemma HotBounded(w: World, w': World, u: Trade)
    requires Safe(w) && Safe(w') && Settled(w) && w'.archive == w.archive
    requires ClosedRest(w.s.trades, w.s.orders, w'.s.orders) && ResolvedSame(w.s.trades, w'.s.trades)
    requires SentOnward(w, w') && u in w'.s.trades && u.resolved
    ensures Bounded(w'.out, u.id, w'.s.orders)
  {
    hide Safe, Sent;
    var t :| t in w.s.trades && t.id == u.id && t.resolved;
    ResolvedIsClosed(w, t);
    var m, m' := Capped(Sent(w.out)), Capped(Sent(w'.out));
    forall i | 0 <= i < |w'.s.orders|
      ensures i < |w.s.orders| ==>
        Weight(m', t.id, w'.s.orders[i]) <= Weight(m, t.id, w.s.orders[i])
        && Weight(Bought, t.id, w'.s.orders[i]) == Weight(Bought, t.id, w.s.orders[i])
      ensures i >= |w.s.orders| ==> Weight(m', t.id, w'.s.orders[i]) == 0 && Weight(Bought, t.id, w'.s.orders[i]) == 0
    {
      HotWeights(w, w', t.id, i);
    }
    PrefixBought(t.id, w.s.orders, w'.s.orders);
    PrefixChange(m, m', t.id, w.s.orders, w'.s.orders);
  }

  lemma {:induction false} PrefixChange(m: Measure, m': Measure, t: TradeId, os: seq<Order>, ps: seq<Order>)
    requires |os| <= |ps|
    requires forall i :: 0 <= i < |os| ==> Weight(m', t, ps[i]) <= Weight(m, t, os[i])
    requires forall i :: |os| <= i < |ps| ==> Weight(m', t, ps[i]) == 0
    ensures Total(m', t, ps) <= Total(m, t, os)
    decreases |ps|
  {
    if |os| < |ps| {
      PrefixChange(m, m', t, os, ps[..|ps| - 1]);
    } else if ps != [] {
      PrefixChange(m, m', t, os[..|os| - 1], ps[..|ps| - 1]);
    }
  }

  lemma ArchivedBounded(w: World, w': World, a: ArchiveRow)
    requires Safe(w') && Settled(w) && w'.archive == w.archive && SentOnward(w, w') && a in w.archive
    requires a.trade.resolved
    ensures Bounded(w'.out, a.trade.id, a.orders)
  {
    assert IsTrade(w, a.trade) && Resolved(w, a.trade.id);
    var m, m' := Capped(Sent(w.out)), Capped(Sent(w'.out));
    assert ArchivedWhole(a);
    hide Safe, Sent;
    forall i | 0 <= i < |a.orders| ensures Weight(m', a.trade.id, a.orders[i]) <= Weight(m, a.trade.id, a.orders[i]) {
      assert a.orders[i] in a.orders;
    }
    PrefixChange(m, m', a.trade.id, a.orders, a.orders);
  }

  /** Any step that lets the orders of closed trades rest, and sends nothing new for a resolved one. */
  lemma StaysSettled(w: World, w': World)
    requires Safe(w) && Safe(w') && Settled(w) && w'.archive == w.archive
    requires ClosedRest(w.s.trades, w.s.orders, w'.s.orders) && ResolvedSame(w.s.trades, w'.s.trades)
    requires SentOnward(w, w') && LooseOnward(w, w')
    ensures Settled(w')
  {
    hide Safe, Loose, Bounded, ClosedRest, ResolvedSame, SentOnward, LooseOnward;
    forall o | IsOrder(w', o) ensures Loose(w'.out, o) {
      if o in w'.s.orders {
        var i :| 0 <= i < |w'.s.orders| && w'.s.orders[i] == o;
        HotLoose(w, w', i);
      } else {
        if Resolved(w', o.id.trade) {
          ArchivedResolved(w, w', o);
        }
        ArchivedLoose(w, w', o);
      }
    }
    forall u | u in w'.s.trades && u.resolved ensures Bounded(w'.out, u.id, w'.s.orders) {
      HotBounded(w, w', u);
    }
    forall a | a in w'.archive && a.trade.resolved ensures Bounded(w'.out, a.trade.id, a.orders) {
      ArchivedBounded(w, w', a);
    }
  }

  // The events, one by one.

  lemma SameSent(w: World, w': World)
    requires forall id :: id in Sent(w'.out) ==> id in Sent(w.out)
    ensures SentOnward(w, w')
  {
  }

  lemma SameLoose(w: World, w': World)
    requires w'.out.rows == w.out.rows && forall id :: id in w.out.placed ==> id in w'.out.placed
    ensures LooseOnward(w, w')
  {
    hide Resolved;
  }

  lemma SelfRests(ts: seq<Trade>, os: seq<Order>)
    ensures ClosedRest(ts, os, os) && ResolvedSame(ts, ts)
  {
  }

  /** A step of the record alone. */
  lemma RecordSettled(w: World, s': State, now: int)
    requires Safe(w) && Settled(w) && Safe(w.(s := s', now := now))
    requires ClosedRest(w.s.trades, w.s.orders, s'.orders) && ResolvedSame(w.s.trades, s'.trades)
    ensures Settled(w.(s := s', now := now))
  {
    hide Safe, Settled, ClosedRest, ResolvedSame;
    SameSent(w, w.(s := s', now := now));
    SameLoose(w, w.(s := s', now := now));
    StaysSettled(w, w.(s := s', now := now));
  }

  lemma QuietRests(s: State, ps: seq<Order>)
    requires Sound(s) && Quiet(s.orders, ps)
    ensures ClosedRest(s.trades, s.orders, ps)
  {
    forall i | 0 <= i < |s.orders| ensures ps[i].id == s.orders[i].id
      ensures TradeClosedIn(s.trades, s.orders[i].id.trade) ==> RestStep(s.orders[i], ps[i])
    {
      assert QuietStep(s.orders[i], ps[i]);
      if TradeClosedIn(s.trades, s.orders[i].id.trade) {
        ClosedIsTerminal(s, i);
      }
    }
  }

  lemma ClosedIsTerminal(s: State, i: nat)
    requires Sound(s) && i < |s.orders| && TradeClosedIn(s.trades, s.orders[i].id.trade)
    ensures Terminal(s.orders[i])
  {
    var t :| t in s.trades && t.id == s.orders[i].id.trade && Closed(t);
    var k :| 0 <= k < |s.trades| && s.trades[k] == t;
    ClosedMeansTerminal(s.trades, s.orders, k);
    assert s.orders[i] in s.orders;
  }

  lemma ReasonsResolved(ts: seq<Trade>, us: seq<Trade>)
    requires SameButReasons(ts, us)
    ensures ResolvedSame(ts, us)
  {
    forall u | u in us && u.resolved ensures exists t :: t in ts && t.id == u.id && t.resolved {
      var i :| 0 <= i < |us| && us[i] == u;
      assert ts[i] in ts;
    }
  }

  lemma ClosingResolved(ts: seq<Trade>, us: seq<Trade>)
    requires SameButClosing(ts, us)
    ensures ResolvedSame(ts, us)
  {
    forall u | u in us && u.resolved ensures exists t :: t in ts && t.id == u.id && t.resolved {
      var i :| 0 <= i < |us| && us[i] == u;
      assert ts[i] in ts;
    }
  }

  lemma ReconcileParts(s: State, book: seq<BookRow>, positions: Option<seq<Position>>, readAt: int)
    ensures var r, r1 := Reconcile(s, book, positions, readAt), ReconcileOrders(s, 0, book, readAt, positions.None?);
      r.Ok? ==> r1.Ok? && r.value.orders == r1.value.orders
  {
    hide ReconcileOrders, ReconcileTrades, PositionsAgree, ValidBook, Owned, PriorDayOpen;
  }

  /** The book is not asked about the orders of a closed trade. */
  lemma ReconcileRests(s: State, book: seq<BookRow>, positions: Option<seq<Position>>, readAt: int)
    requires Sound(s) && FinishedStay(s, book)
    ensures var r := Reconcile(s, book, positions, readAt);
      r.Ok? ==> ClosedRest(s.trades, s.orders, r.value.orders) && ResolvedSame(s.trades, r.value.trades)
  {
    hide Reconcile, ReconcileOrders, AfterBook, Heard, Sound, FinishedStay, ResolvedSame, TradeClosedIn;
    ReconcileParts(s, book, positions, readAt);
    ReconcileSound(s, book, positions, readAt);
    ReconcileOrdersShape(s, 0, book, readAt, positions.None?);
    var r := Reconcile(s, book, positions, readAt);
    if r.Ok? {
      ClosingResolved(s.trades, r.value.trades);
      forall i | 0 <= i < |s.orders| ensures r.value.orders[i].id == s.orders[i].id
        ensures TradeClosedIn(s.trades, s.orders[i].id.trade) ==> RestStep(s.orders[i], r.value.orders[i])
      {
        HeardId(s.orders[i], r.value.orders[i], book);
        if TradeClosedIn(s.trades, s.orders[i].id.trade) {
          ClosedIsTerminal(s, i);
          SkippedRests(s, i, book, readAt);
        }
      }
    }
  }

  lemma HeardId(o: Order, p: Order, book: seq<BookRow>)
    requires Heard(o, p, book)
    ensures p.id == o.id
  {
  }

  lemma SkippedRests(s: State, i: nat, book: seq<BookRow>, readAt: int)
    requires i < |s.orders| && Terminal(s.orders[i]) && TradeClosedIn(s.trades, s.orders[i].id.trade)
    ensures AfterBook(s.trades, s.orders[i], book, readAt) == s.orders[i]
  {
  }

  lemma ReconcileSettled(w: World, book: seq<BookRow>, positions: Option<seq<Position>>, readAt: int, now: int)
    requires Safe(w) && Settled(w) && Honest(book, w.out.rows) && w.now <= now
    ensures var r := Reconcile(w.s, book, positions, readAt); r.Ok? ==> Settled(w.(s := r.value, now := now))
  {
    hide Settled, Reconcile, Honest, ClosedRest, ResolvedSame;
    hide Safe;
    ReconcileSafe(w, book, positions, readAt, now);
    HonestBooksStay(w, book);
    SafeIsSound(w);
    ReconcileRests(w.s, book, positions, readAt);
    var r := Reconcile(w.s, book, positions, readAt);
    if r.Ok? {
      RecordSettled(w, r.value, now);
    }
  }

  lemma ManagedSettled(w: World, inputs: TickInputs, now: int)
    requires Safe(w) && Settled(w) && w.now <= now
    ensures var advised := Advised(w.s, inputs, now);
      Manageable(advised) && Settled(w.(s := ManageAll(advised, 0, inputs.quotes, now), now := now))
  {
    hide Safe, Settled, Sound, Quiet, ManageAll, Advised, Manageable, ClosedRest, ResolvedSame;
    SafeIsSound(w);
    ManagedSafe(w, inputs, now);
    var advised := Advised(w.s, inputs, now);
    AdvisedSound(w.s, inputs, now);
    ManageSound(advised, 0, inputs.quotes, now);
    ManageKeepsTrades(advised, 0, inputs.quotes, now);
    var s' := ManageAll(advised, 0, inputs.quotes, now);
    QuietCompose(w.s.orders, advised.orders, s'.orders);
    SameButReasonsCompose(w.s.trades, advised.trades, s'.trades);
    QuietRests(w.s, s'.orders);
    ReasonsResolved(w.s.trades, s'.trades);
    RecordSettled(w, s', now);
  }

  lemma PlannedResolved(s: State, inputs: TickInputs, now: int)
    ensures ResolvedSame(s.trades, Planned(s, inputs, now).trades)
  {
    hide PlanVerdict, PricesOf;
  }

  lemma PlannedSettled(w: World, inputs: TickInputs, now: int)
    requires Safe(w) && Settled(w) && w.now <= now
    ensures Settled(w.(s := Planned(w.s, inputs, now), now := now))
  {
    hide Safe, Settled, Sound, Quiet, EntriesHaveTrades, ClosedRest, ResolvedSame;
    SafeIsSound(w);
    PlannedSafe(w, inputs, now);
    PlanSound(w.s, inputs.decision, PlanQuote(inputs), inputs.meta, now);
    QuietRests(w.s, Planned(w.s, inputs, now).orders);
    PlannedResolved(w.s, inputs, now);
    RecordSettled(w, Planned(w.s, inputs, now), now);
  }

  /** Only working orders are claimed, and those are of open trades. */
  lemma ClaimedRests(s: State, ps: seq<Order>, a: Option<Action>, now: int)
    requires Sound(s) && Claimed(s.orders, ps, a, now)
    ensures ClosedRest(s.trades, s.orders, ps)
    ensures a.Some? ==> exists i :: 0 <= i < |s.orders| && s.orders[i].id == a.value.order.id && Working(s.orders[i])
  {
    forall i | 0 <= i < |s.orders| ensures ps[i].id == s.orders[i].id
      ensures TradeClosedIn(s.trades, s.orders[i].id.trade) ==> RestStep(s.orders[i], ps[i])
    {
      if TradeClosedIn(s.trades, s.orders[i].id.trade) {
        ClosedIsTerminal(s, i);
      }
    }
  }

  lemma WorkingUnresolved(w: World, i: nat)
    requires Safe(w) && i < |w.s.orders| && Working(w.s.orders[i])
    ensures !Resolved(w, w.s.orders[i].id.trade)
  {
    if Resolved(w, w.s.orders[i].id.trade) {
      SafeIsSound(w);
      HotOrderHasTrade(w.s, w.s.orders[i]);
      SelfRests(w.s.trades, w.s.orders);
      hide Safe;
      ResolvedStaysHot(w, w, w.s.orders[i].id.trade);
      ClosedIsTerminal(w.s, i);
    }
  }

  lemma TakenSent(w: World, s': State, x: string, a: Option<Action>, now: int)
    requires x !in w.out.flights && (a.Some? ==> !Resolved(w, a.value.order.id.trade))
    ensures SentOnward(w, Taken(w.(s := s', now := now), x, a))
  {
    hide Resolved;
    var w' := Taken(w.(s := s', now := now), x, a);
    SentIs(w.out);
    SentIs(w'.out);
    forall id | id in Sent(w'.out) ensures id in Sent(w.out) || !Resolved(w, id.trade) {
      if y :| y in w'.out.flights && PlaceDue(w'.out.flights[y], id) {
        assert y == x || PlaceDue(w.out.flights[y], id);
      }
    }
  }

  lemma ClaimedSettled(w: World, x: string, s': State, a: Option<Action>, claimedAt: int, now: int)
    requires Safe(w) && Settled(w) && x !in w.out.flights && w.now <= now
    requires Sound(s') && s'.trades == w.s.trades && Claimed(w.s.orders, s'.orders, a, claimedAt)
    ensures Settled(Taken(w.(s := s', now := now), x, a))
  {
    hide Safe, Settled, Sound, Claimed, ClosedRest, ResolvedSame, LooseOnward, SentOnward, Sent;
    ClaimSafe(w, x, s', a, claimedAt, now);
    SafeIsSound(w);
    var w' := Taken(w.(s := s', now := now), x, a);
    ClaimedRests(w.s, s'.orders, a, claimedAt);
    if a.Some? {
      var i :| 0 <= i < |w.s.orders| && w.s.orders[i].id == a.value.order.id && Working(w.s.orders[i]);
      WorkingUnresolved(w, i);
    }
    SelfRests(w.s.trades, w.s.orders);
    TakenSent(w, s', x, a, now);
    SameLoose(w, w');
    StaysSettled(w, w');
  }

  lemma FailSettled(w: World, x: string, grace: bool, now: int)
    requires Safe(w) && Settled(w) && w.now <= now && x !in w.out.flights
    ensures var (s', a) := FailTick(w.s, x, grace, now); Settled(Taken(w.(s := s', now := now), x, a))
  {
    hide Safe, Settled, Sound, ClaimEmergencyCancel, Claimed, ClosedRest, ResolvedSame;
    SafeIsSound(w);
    LaterSafe(w, now);
    SelfRests(w.s.trades, w.s.orders);
    if !Owns(w.s, x) || (grace && Flat(w.s)) {
      RecordSettled(w, w.s, now);
    } else {
      var halted := Halted(w.s, ServiceError).(reconciledAt := None);
      SoundElsewhere(w.s, halted);
      EmergencySound(halted, now);
      var (s', a) := ClaimEmergencyCancel(halted, now);
      ClaimedSettled(w, x, s', a, now, now);
    }
  }

  // Calls.

  lemma EvolvedLoose(out: Outside, out': Outside, o: Order)
    requires Loose(out, o) && Evolves(out.rows, out'.rows) && out'.placed == out.placed
    ensures Loose(out', o)
  {
    RowsMatchUp(out.rows, out'.rows);
  }

  /** The step changes the broker's rows, the flights, or both, and nothing of the record. */
  lemma OutsideSettled(w: World, w': World)
    requires Safe(w) && Safe(w') && Settled(w) && w'.s == w.s && w'.archive == w.archive
    requires SentOnward(w, w') && LooseOnward(w, w')
    ensures Settled(w')
  {
    hide Safe, Settled, SentOnward, LooseOnward, ClosedRest, ResolvedSame;
    SelfRests(w.s.trades, w.s.orders);
    StaysSettled(w, w');
  }

  lemma BrokerSettled(w: World, w': World)
    requires Safe(w) && Safe(w') && Settled(w) && w'.s == w.s && w'.archive == w.archive
    requires Evolves(w.out.rows, w'.out.rows) && w'.out.placed == w.out.placed
    requires forall id :: id in Sent(w'.out) ==> id in Sent(w.out)
    ensures Settled(w')
  {
    hide Safe, Settled, Evolves, Loose, Resolved;
    SameSent(w, w');
    forall o | Loose(w.out, o) ensures Loose(w'.out, o) {
      EvolvedLoose(w.out, w'.out, o);
    }
    OutsideSettled(w, w');
  }

  lemma SelfEvolves(w: World)
    requires Safe(w)
    ensures Evolves(w.out.rows, w.out.rows)
  {
  }

  lemma FewerSent(out: Outside, x: string)
    ensures forall id :: id in Sent(out.(flights := out.flights - {x})) ==> id in Sent(out)
  {
  }

  lemma DroppedSettled(w: World, x: string)
    requires Safe(w) && Settled(w)
    ensures Settled(w.(out := w.out.(flights := w.out.flights - {x})))
  {
    hide Safe, Settled, Sent, Evolves;
    DropFlightSafe(w, x);
    SelfEvolves(w);
    FewerSent(w.out, x);
    BrokerSettled(w, w.(out := w.out.(flights := w.out.flights - {x})));
  }

  lemma AnsweredSent(out: Outside, x: string, rows: seq<Row>, reply: Reply)
    requires x in out.flights
    ensures forall id ::
      id in Sent(out.(rows := rows, flights := out.flights[x := Done(out.flights[x].action, reply)])) ==>
      id in Sent(out)
  {
  }

  lemma CancelledSettled(w: World, x: string, rows: seq<Row>, reply: Reply)
    requires Safe(w) && Settled(w) && HasDue(w, x, CancelAction) && Evolves(w.out.rows, rows)
    ensures Settled(w.(out :=
      w.out.(rows := rows, flights := w.out.flights[x := Done(w.out.flights[x].action, reply)])))
  {
    hide Safe, Settled, Sent, Evolves;
    BrokerSafe(w, rows);
    CancelSentSafe(w.(out := w.out.(rows := rows)), x, reply);
    AnsweredSent(w.out, x, rows, reply);
    BrokerSettled(w, w.(out :=
      w.out.(rows := rows, flights := w.out.flights[x := Done(w.out.flights[x].action, reply)])));
  }

  lemma PlacedSent(out: Outside, x: string, rows: seq<Row>, reply: Reply)
    requires x in out.flights && out.flights[x].Due? && out.flights[x].action.kind == PlaceAction
    ensures var a := out.flights[x].action;
      forall id :: id in Sent(Outside(rows, out.flights[x := Done(a, reply)], out.placed + [a.order.id])) ==>
        id in Sent(out)
  {
    assert PlacingDue(out.flights[x]);
  }

  lemma PlacedLoose(w: World, x: string, rows: seq<Row>, reply: Reply, o: Order)
    requires Safe(w) && HasDue(w, x, PlaceAction) && Lands(w.out.rows, rows, w.out.flights[x].action.order, reply)
    requires IsOrder(w, o) && Loose(w.out, o)
    ensures var a := w.out.flights[x].action;
      Loose(Outside(rows, w.out.flights[x := Done(a, reply)], w.out.placed + [a.order.id]), o)
  {
    var a := w.out.flights[x].action;
    SizeOf(w, x, o);
    assert FlightOk(w.out, w.out.flights[x]);
    DueUnseen(w, x);
    LandedLoose(w.out, x, rows, reply, o);
  }

  /** What is still to be placed has no row. */
  lemma DueUnseen(w: World, x: string)
    requires Safe(w) && HasDue(w, x, PlaceAction)
    ensures forall r :: r in w.out.rows ==> r.tag != w.out.flights[x].action.order.id
    ensures w.out.flights[x].action.order.id !in w.out.placed
  {
    assert FlightOk(w.out, w.out.flights[x]);
    forall r | r in w.out.rows ensures r.tag != w.out.flights[x].action.order.id {
      var i :| 0 <= i < |w.out.rows| && w.out.rows[i] == r;
    }
  }

  lemma LandedLoose(out: Outside, x: string, rows: seq<Row>, reply: Reply, o: Order)
    requires x in out.flights && out.flights[x].Due? && out.flights[x].action.kind == PlaceAction
    requires Lands(out.rows, rows, out.flights[x].action.order, reply) && Loose(out, o) && 0 <= o.filled
    requires out.flights[x].action.order.id !in out.placed
    requires forall r :: r in out.rows ==> r.tag != out.flights[x].action.order.id
    requires o.id == out.flights[x].action.order.id ==> o.quantity == out.flights[x].action.order.quantity
    ensures Loose(Outside(rows, out.flights[x := Done(out.flights[x].action, reply)],
      out.placed + [out.flights[x].action.order.id]), o)
  {
    if rows != out.rows {
      var r :| rows == out.rows + [r] && IsRowOf(r, out.flights[x].action.order, reply);
      assert forall q :: q in rows <==> q in out.rows || q == r;
    }
  }

  lemma PlacedSettled(w: World, x: string, rows: seq<Row>, reply: Reply)
    requires Safe(w) && Settled(w) && HasDue(w, x, PlaceAction)
    requires Lands(w.out.rows, rows, w.out.flights[x].action.order, reply)
    ensures var a := w.out.flights[x].action;
      Settled(w.(out := Outside(rows, w.out.flights[x := Done(a, reply)], w.out.placed + [a.order.id])))
  {
    hide Safe, Settled, Loose, Lands, Sent, Resolved;
    var a := w.out.flights[x].action;
    var w' := w.(out := Outside(rows, w.out.flights[x := Done(a, reply)], w.out.placed + [a.order.id]));
    SendSafe(w, x, rows, reply);
    PlacedSent(w.out, x, rows, reply);
    SameSent(w, w');
    forall o | IsOrder(w, o) && Loose(w.out, o) ensures Loose(w'.out, o) {
      PlacedLoose(w, x, rows, reply, o);
    }
    OutsideSettled(w, w');
  }

  // Recording replies and giving up.

  lemma OneRests(s: State, i: nat, p: Order)
    requires i < |s.orders| && p.id == s.orders[i].id
    requires TradeClosedIn(s.trades, p.id.trade) ==> RestStep(s.orders[i], p)
    ensures ClosedRest(s.trades, s.orders, s.orders[i := p])
  {
    hide TradeClosedIn;
  }

  lemma AnsweredRest(o: Order, p: Order, a: Action, reply: Reply)
    requires Answered(o, p, a, reply) && Terminal(o)
    ensures RestStep(o, p)
  {
  }

  lemma AnsweredId(o: Order, p: Order, a: Action, reply: Reply)
    requires Answered(o, p, a, reply)
    ensures p.id == o.id
  {
  }

  lemma AnswerRests(s: State, worker: string, a: Action, reply: Reply)
    requires Sound(s)
    ensures ClosedRest(s.trades, s.orders, Record(s, worker, a, reply).orders)
    ensures Record(s, worker, a, reply).trades == s.trades
  {
    hide Sound, Finish, Answered, ClosedRest, TradeClosedIn, RestStep;
    SelfRests(s.trades, s.orders);
    FinishAnswers(s, a, reply);
    var r, i := Finish(s, a, reply), OrderIndex(s.orders, a.order.id);
    if r.Ok? {
      var o, p := s.orders[i], r.value.orders[i];
      AnsweredId(o, p, a, reply);
      if TradeClosedIn(s.trades, o.id.trade) {
        ClosedIsTerminal(s, i);
        AnsweredRest(o, p, a, reply);
      }
      OneRests(s, i, p);
    }
  }

  lemma RecordedSettled(w: World, x: string)
    requires Safe(w) && Settled(w) && x in w.out.flights && w.out.flights[x].Done?
    ensures var f := w.out.flights[x];
      Settled(w.(s := Record(w.s, x, f.action, f.reply), out := w.out.(flights := w.out.flights - {x})))
  {
    hide Safe, Settled, Sound, Record, ClosedRest, ResolvedSame;
    var f := w.out.flights[x];
    SafeIsSound(w);
    RecordOneSafe(w, x);
    AnswerRests(w.s, x, f.action, f.reply);
    SelfRests(w.s.trades, w.s.orders);
    RecordSettled(w, Record(w.s, x, f.action, f.reply), w.now);
    DroppedSettled(w.(s := Record(w.s, x, f.action, f.reply)), x);
  }

  /** What is given up was never sent; of a closed trade it had expired already. */
  lemma GaveUpRests(w: World, x: string)
    requires Safe(w) && Settled(w) && HasDue(w, x, PlaceAction) && GiveUp(w.s, w.out.flights[x].action.order.id).Some?
    ensures var s' := GiveUp(w.s, w.out.flights[x].action.order.id).value;
      ClosedRest(w.s.trades, w.s.orders, s'.orders) && s'.trades == w.s.trades
  {
    hide Safe, Settled, Sound, ClosedRest, TradeClosedIn;
    var i := OrderIndex(w.s.orders, w.out.flights[x].action.order.id);
    var o := w.s.orders[i];
    SafeIsSound(w);
    DueUnseen(w, x);
    if TradeClosedIn(w.s.trades, o.id.trade) {
      ClosedIsTerminal(w.s, i);
      UnplacedExpired(w, o);
    }
    OneRests(w.s, i, o.(state := Expired));
  }

  lemma UnplacedExpired(w: World, o: Order)
    requires Settled(w) && o in w.s.orders && Terminal(o) && o.id !in w.out.placed
    ensures o.state == Expired
  {
    assert IsOrder(w, o) && Loose(w.out, o);
  }

  lemma GaveUpSettled(w: World, x: string)
    requires Safe(w) && Settled(w) && HasDue(w, x, PlaceAction) && GiveUp(w.s, w.out.flights[x].action.order.id).Some?
    ensures Settled(w.(s := GiveUp(w.s, w.out.flights[x].action.order.id).value,
      out := w.out.(flights := w.out.flights - {x})))
  {
    hide Safe, Settled, GiveUp, ClosedRest, ResolvedSame, Sent, LooseOnward, SentOnward;
    var w' := w.(s := GiveUp(w.s, w.out.flights[x].action.order.id).value,
      out := w.out.(flights := w.out.flights - {x}));
    GaveUpRests(w, x);
    GiveUpSafe(w, x);
    FewerSent(w.out, x);
    SelfRests(w.s.trades, w.s.orders);
    SameSent(w, w');
    SameLoose(w, w');
    StaysSettled(w, w');
  }

  // Owner commands and take-over.

  lemma AcquiredSettled(w: World, x: string, now: int)
    requires Safe(w) && Settled(w) && w.now <= now && Acquire(w.s, x, now).Some?
    ensures Settled(w.(s := Acquire(w.s, x, now).value, now := now))
  {
    hide Safe, Settled, Sound, Quiet, ClosedRest, ResolvedSame, Recover;
    SafeIsSound(w);
    AcquireSafe(w, x, now);
    RecoverSound(w.s, x);
    RecoverReasons(w.s, x);
    QuietRests(w.s, Recover(w.s, x).orders);
    ReasonsResolved(w.s.trades, Recover(w.s, x).trades);
    RecordSettled(w, Acquire(w.s, x, now).value, now);
  }

  lemma RecoverReasons(s: State, bootId: string)
    ensures SameButReasons(s.trades, Recover(s, bootId).trades)
  {
    hide InterruptAll;
  }

  lemma ControlledSettled(w: World, operation: Operation, requestId: string, now: int)
    requires Safe(w) && Settled(w) && w.now <= now
    ensures var r := Control(w.s, operation, requestId, now); r.Ok? ==> Settled(w.(s := r.value, now := now))
  {
    SafeIsSound(w);
    ControlSafe(w, operation, requestId, now);
    ControlSound(w.s, operation, requestId, now);
    hide Safe, Settled, Sound, ClosedRest, ResolvedSame;
    SelfRests(w.s.trades, w.s.orders);
    var r := Control(w.s, operation, requestId, now);
    if r.Ok? {
      ReasonsResolved(w.s.trades, r.value.trades);
      RecordSettled(w, r.value, now);
    }
  }

  lemma PolicySettled(w: World, loss: int, risk: Option<int>, losses: Option<int>, requestId: string, now: int)
    requires Safe(w) && Settled(w) && w.now <= now
    ensures var r := ConfigurePolicy(w.s, loss, risk, losses, requestId, now);
      r.Ok? ==> Settled(w.(s := r.value, now := now))
  {
    hide Safe, Settled, DayPnl, ClosedRest, ResolvedSame;
    ConfigureSafe(w, loss, risk, losses, requestId, now);
    SelfRests(w.s.trades, w.s.orders);
    var r := ConfigurePolicy(w.s, loss, risk, losses, requestId, now);
    if r.Ok? {
      RecordSettled(w, r.value, now);
    }
  }

  // Resolving.

  lemma ExpiredLoose(out: Outside, o: Order, p: Order)
    requires Loose(out, o) && p.id == o.id && p.quantity == o.quantity && p.filled == o.filled
    requires p.state == o.state || p.state == Expired
    ensures Loose(out, p)
  {
  }

  /** Expiring a working order that was sent leaves it room for all of its quantity, as the record had counted. */
  lemma ExpiredWeight(sent: set<OrderId>, t: TradeId, os: seq<Order>, i: nat)
    requires i < |os| && 0 <= os[i].filled <= os[i].quantity
    requires os[i].id.trade == t && os[i].state == Expired ==> os[i].id !in sent
    ensures var o, p := os[i], ExpireTrade(os, t)[i];
      Weight(Capped(sent), t, p) <= Weight(Committed, t, o) && Weight(Bought, t, p) == Weight(Bought, t, o)
  {
  }

  lemma ExpiredUnsent(w: World, i: nat)
    requires Safe(w) && i < |w.s.orders| && !Resolved(w, w.s.orders[i].id.trade) && w.s.orders[i].state == Expired
    ensures w.s.orders[i].id !in Sent(w.out)
  {
    hide Sound, ArchiveOk, OutsideOk, AllKnown;
    SentIs(w.out);
    assert IsOrder(w, w.s.orders[i]) && Linked(w.out, w.s.orders[i]);
  }

  lemma NewlyBounded(w: World, id: TradeId)
    requires Safe(w) && HasTrade(w.s.trades, id) && !TradeClosedIn(w.s.trades, id)
    ensures Bounded(w.out, id, ExpireTrade(w.s.orders, id))
  {
    OpenUnresolved(w, id);
    var os, ps := w.s.orders, ExpireTrade(w.s.orders, id);
    var t :| t in w.s.trades && t.id == id;
    var k :| 0 <= k < |w.s.trades| && w.s.trades[k] == t;
    assert TradeOk(w.s.trades[k], os);
    hide Safe, Sound, Sent, ExpireTrade, Resolved, TradeOk, Weight;
    ExpireLength(os, id);
    forall i | 0 <= i < |os|
      ensures Weight(Capped(Sent(w.out)), id, ps[i]) <= Weight(Committed, id, os[i])
      ensures Weight(Bought, id, ps[i]) == Weight(Bought, id, os[i])
    {
      SafeIsSound(w);
      OrderOkAt(w.s, i);
      if os[i].id.trade == id && os[i].state == Expired {
        ExpiredUnsent(w, i);
      }
      ExpiredWeight(Sent(w.out), id, os, i);
    }
    PrefixChange(Committed, Capped(Sent(w.out)), id, os, ps);
    PrefixBought(id, os, ps);
    assert Total(Committed, t.id, os) <= Total(Bought, t.id, os);
  }

  lemma ExpireLength(os: seq<Order>, id: TradeId)
    ensures |ExpireTrade(os, id)| == |os|
  {
  }

  lemma StillBounded(out: Outside, id: TradeId, t: TradeId, os: seq<Order>)
    requires Bounded(out, t, os) && t != id
    ensures Bounded(out, t, ExpireTrade(os, id))
  {
    hide Sent;
    var ps := ExpireTrade(os, id);
    PrefixChange(Capped(Sent(out)), Capped(Sent(out)), t, os, ps);
    PrefixBought(t, os, ps);
  }

  lemma ResolvedLoose(w: World, id: TradeId, i: nat)
    requires Settled(w) && i < |w.s.orders|
    ensures Loose(w.out, ExpireTrade(w.s.orders, id)[i])
  {
    assert IsOrder(w, w.s.orders[i]) && Loose(w.out, w.s.orders[i]);
    ExpiredLoose(w.out, w.s.orders[i], ExpireTrade(w.s.orders, id)[i]);
  }

  lemma OpenAt(s: State, i: nat)
    requires Sound(s) && i < |s.trades| && !Closed(s.trades[i])
    ensures HasTrade(s.trades, s.trades[i].id) && !TradeClosedIn(s.trades, s.trades[i].id)
  {
    assert s.trades[i] in s.trades;
    forall t | t in s.trades && t.id == s.trades[i].id ensures !Closed(t) {
      var k :| 0 <= k < |s.trades| && s.trades[k] == t;
    }
  }

  /** The one step that stops asking about orders that may still fill. */
  lemma ExpiredSettled(w: World, s': State, id: TradeId, now: int)
    requires Safe(w) && Settled(w) && HasTrade(w.s.trades, id) && !TradeClosedIn(w.s.trades, id)
    requires s'.orders == ExpireTrade(w.s.orders, id)
    requires forall u :: u in s'.trades && u.id != id ==> u in w.s.trades
    ensures Settled(w.(s := s', now := now))
  {
    hide Safe, Loose, Bounded, ExpireTrade;
    var w' := w.(s := s', now := now);
    NewlyBounded(w, id);
    ExpireLength(w.s.orders, id);
    forall o | IsOrder(w', o) ensures Loose(w'.out, o) {
      if o in s'.orders {
        var i :| 0 <= i < |s'.orders| && s'.orders[i] == o;
        ResolvedLoose(w, id, i);
      } else {
        assert IsOrder(w, o);
      }
    }
    forall u | u in s'.trades && u.resolved ensures Bounded(w'.out, u.id, s'.orders) {
      if u.id != id {
        StillBounded(w.out, id, u.id, w.s.orders);
      }
    }
  }

  lemma ResolveSettled(w: World, id: TradeId, reason: string, requestId: string, now: int)
    requires Safe(w) && Settled(w) && w.now <= now
    ensures var r := ResolveTrade(w.s, id, reason, requestId, now); r.Ok? ==> Settled(w.(s := r.value, now := now))
  {
    hide Safe, Settled, Sound, ExpireTrade, NetResult, TrimmedLength, ClosedRest, ResolvedSame;
    ResolveSafe(w, id, reason, requestId, now);
    SafeIsSound(w);
    var r, i := ResolveTrade(w.s, id, reason, requestId, now), TradeIndex(w.s.trades, id);
    if r.Ok? {
      if r.value == w.s {
        SelfRests(w.s.trades, w.s.orders);
        RecordSettled(w, w.s, now);
      } else {
        OpenAt(w.s, i);
        OthersStay(w.s.trades, i, r.value.trades[i]);
        ExpiredSettled(w, r.value, id, now);
      }
    }
  }

  lemma OthersStay(ts: seq<Trade>, i: nat, t: Trade)
    requires i < |ts| && t.id == ts[i].id
    ensures forall u :: u in ts[i := t] && u.id != t.id ==> u in ts
  {
  }

  // Archiving.

  lemma ArchivedSettled(w: World, now: int)
    requires Safe(w) && Settled(w)
    ensures var (kept, rows) := Archive(w.s, w.s.trades, ARCHIVE_BATCH, now);
      Settled(w.(s := kept, archive := w.archive + rows, now := now))
  {
    hide Safe, Sound, Archive, Loose, Total;
    SafeIsSound(w);
    TradesOnce(w.s);
    ArchiveConserves(w.s, w.s.trades, ARCHIVE_BATCH, now);
    ArchiveMoves(w.s, w.s.trades, ARCHIVE_BATCH, now);
    var (kept, rows) := Archive(w.s, w.s.trades, ARCHIVE_BATCH, now);
    MovedSettled(w, w.(s := kept, archive := w.archive + rows, now := now), rows, now);
  }

  lemma MovedSettled(w: World, w': World, rows: seq<ArchiveRow>, now: int)
    requires Settled(w) && w'.out == w.out && w'.archive == w.archive + rows
    requires Conserved(w.s, w'.s, rows, now) && Moved(w.s, w'.s, rows)
    ensures Settled(w')
  {
    hide Loose, Total, ArchivedWhole, Sent;
    forall o | IsOrder(w', o) ensures IsOrder(w, o) {
      assert OrderInRows(w'.archive, o) ==> OrderInRows(w.archive, o) || OrderInRows(rows, o);
    }
    forall u | u in w'.s.trades && u.resolved ensures Bounded(w'.out, u.id, w'.s.orders) {
      assert u in w.s.trades && Bounded(w.out, u.id, w.s.orders);
    }
    forall a | a in w'.archive && a.trade.resolved ensures Bounded(w'.out, a.trade.id, a.orders) {
      if a in rows {
        assert a.trade in w.s.trades && Bounded(w.out, a.trade.id, w.s.orders);
      }
    }
  }

  // Runs.

  lemma PrepareSettled(w: World, x: string, inputs: TickInputs, now: int)
    requires Safe(w) && Settled(w) && w.now <= now && x !in w.out.flights && Honest(inputs.book, w.out.rows)
    ensures var r := PrepareTick(w.s, inputs, now);
      r.Ok? ==> Settled(Taken(w.(s := r.value.state, archive := w.archive + r.value.archived, now := now), x,
        r.value.action))
  {
    hide Safe, Settled, Reconcile, Archive, ManageAll, Claim, Advised, Planned, Manageable, EntriesHaveTrades;
    hide EntryPending;
    var reconciled := Reconcile(w.s, inputs.book, inputs.positions, inputs.readAt);
    ReconcileSafe(w, inputs.book, inputs.positions, inputs.readAt, now);
    ReconcileSettled(w, inputs.book, inputs.positions, inputs.readAt, now);
    if reconciled.Ok? {
      var w1 := w.(s := reconciled.value, now := now);
      ArchivedSafe(w1, now);
      ArchivedSettled(w1, now);
      var (kept, rows) := Archive(w1.s, w1.s.trades, ARCHIVE_BATCH, now);
      var w2 := w1.(s := kept, archive := w.archive + rows);
      ManagedSafe(w2, inputs, now);
      ManagedSettled(w2, inputs, now);
      var w3 := w2.(s := ManageAll(Advised(kept, inputs, now), 0, inputs.quotes, now));
      PlannedSafe(w3, inputs, now);
      PlannedSettled(w3, inputs, now);
      var w4 := w3.(s := Planned(w3.s, inputs, now));
      SafeIsSound(w4);
      ClaimSound(w4.s, now, !EntryPending(w4.s) || inputs.allowed);
      var (claimed, action) := Claim(w4.s, now, !EntryPending(w4.s) || inputs.allowed);
      ClaimedSettled(w4, x, claimed, action, now, now);
    }
  }

  lemma LaterSettled(w: World, now: int)
    requires Safe(w) && Settled(w) && w.now <= now
    ensures Settled(w.(now := now))
  {
    hide Safe, Settled, ClosedRest, ResolvedSame;
    LaterSafe(w, now);
    SelfRests(w.s.trades, w.s.orders);
    RecordSettled(w, w.s, now);
  }

  /** Every event keeps what resolved trades can still sell within what they bought. */
  lemma StepSettled(w: World, e: Event, now: int)
    requires Safe(w) && Settled(w) && Enabled(w, e, now)
    ensures Settled(Step(w, e, now))
  {
    hide Safe, Settled, PrepareTick, Acquire, FailTick, Record, GiveUp, Honest, Lands, Evolves, Control;
    hide ConfigurePolicy, ResolveTrade;
    LaterSafe(w, now);
    LaterSettled(w, now);
    var later := w.(now := now);
    match e
    case AcquireEvent(x) =>
      if Acquire(w.s, x, now).Some? {
        AcquiredSettled(w, x, now);
      }
    case PrepareEvent(x, inputs) => PrepareSettled(w, x, inputs, now);
    case GiveUpEvent(x) =>
      if GiveUp(w.s, w.out.flights[x].action.order.id).Some? {
        GaveUpSettled(later, x);
      } else {
        DroppedSettled(later, x);
      }
    case PlaceEvent(x, rows, reply) => PlacedSettled(later, x, rows, reply);
    case CancelEvent(x, rows, reply) => CancelledSettled(later, x, rows, reply);
    case RecordEvent(x) => RecordedSettled(later, x);
    case FailEvent(x, grace) => FailSettled(w, x, grace, now);
    case CrashEvent(x) => DroppedSettled(later, x);
    case ControlEvent(operation, requestId) => ControlledSettled(w, operation, requestId, now);
    case PolicyEvent(loss, risk, losses, requestId) => PolicySettled(w, loss, risk, losses, requestId, now);
    case ResolveEvent(id, reason, requestId) => ResolveSettled(w, id, reason, requestId, now);
    case BrokerEvent(rows) =>
      BrokerSafe(later, rows);
      RowsSettled(later, rows);
  }

  lemma RowsSettled(w: World, rows: seq<Row>)
    requires Safe(w) && Settled(w) && Evolves(w.out.rows, rows)
    ensures Settled(w.(out := w.out.(rows := rows)))
  {
    hide Safe, Settled, Evolves;
    BrokerSafe(w, rows);
    BrokerSettled(w, w.(out := w.out.(rows := rows)));
  }

  lemma FollowsSettled(w: World, w': World)
    requires Safe(w) && Settled(w) && Follows(w, w')
    ensures Settled(w')
  {
    hide Safe, Settled;
    var e, now :| Enabled(w, e, now) && w' == Step(w, e, now);
    StepSettled(w, e, now);
  }

  /** In every state of every run, what a resolved trade can still sell is within what it bought. */
  lemma {:induction false} RunSettled(ws: seq<World>, i: nat)
    requires Run(ws) && i < |ws|
    ensures Settled(ws[i])
  {
    hide Safe, Follows;
    if i > 0 {
      RunSettled(ws, i - 1);
      RunSafe(ws, i - 1);
      FollowsSettled(ws[i - 1], ws[i]);
    }
  }
}
