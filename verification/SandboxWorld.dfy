/**
 Any number of executor processes, the owner and one broker around the stored record, in any interleaving.

 A process may stop at any point, be slow, or go on after its lease was taken over; a broker call may land without
 its reply arriving. The broker is arbitrary, except that a fill never shrinks, a finished row never changes, and
 what it reports about one of our orders was true of it at some time.
 */
module SandboxWorld {
  import opened Wrappers
  import opened SandboxTypes
  import opened SandboxSpec
  import opened SandboxInvariant
  import opened SandboxSteps
  import opened SandboxArchive
  import opened SandboxService

  /** A row the broker keeps for an order that was placed. */
  datatype Row = Row(id: string, tag: OrderId, quantity: int, filled: int, finished: bool)

  /** What a process holds between two transactions: a call to make, or a reply to record. */
  datatype Flight = Due(action: Action) | Done(action: Action, reply: Reply)

  /** Everything outside the store; placed lists every placeOrder call ever made, in order. */
  datatype Outside = Outside(rows: seq<Row>, flights: map<string, Flight>, placed: seq<OrderId>)

  datatype World = World(s: State, archive: seq<ArchiveRow>, out: Outside, now: int)

  predicate RowReports(b: BookRow, r: Row) {
    b.orderId == r.id && b.tag == Some(r.tag) && b.filled <= r.filled
    && (RowFinished(b) ==> r.finished && b.filled == r.filled)
  }

  /** Every tagged row of a reported book is, or once was, a row the broker keeps. */
  ghost predicate Honest(book: seq<BookRow>, rows: seq<Row>) {
    forall b :: b in book && b.tag.Some? ==> exists r :: r in rows && RowReports(b, r)
  }

  /** The broker's own progress. */
  ghost predicate Evolves(rows: seq<Row>, rows': seq<Row>) {
    |rows'| == |rows| && forall i :: 0 <= i < |rows| ==>
      && rows'[i].id == rows[i].id && rows'[i].tag == rows[i].tag && rows'[i].quantity == rows[i].quantity
      && rows[i].filled <= rows'[i].filled <= rows'[i].quantity
      && (rows[i].finished ==> rows'[i] == rows[i])
  }

  // The invariant.

  predicate PlaceDue(f: Flight, id: OrderId) {
    f.Due? && f.action.kind == PlaceAction && f.action.order.id == id
  }

  predicate IsDue(out: Outside, id: OrderId) {
    exists x :: x in out.flights && PlaceDue(out.flights[x], id)
  }

  ghost predicate RowsOk(out: Outside) {
    && (forall i, j :: 0 <= i < j < |out.rows| ==> out.rows[i].tag != out.rows[j].tag)
    && (forall i :: 0 <= i < |out.rows| ==>
       out.rows[i].tag in out.placed && 0 <= out.rows[i].filled <= out.rows[i].quantity)
  }

  ghost predicate PlacedOnce(placed: seq<OrderId>) {
    forall i, j :: 0 <= i < j < |placed| ==> placed[i] != placed[j]
  }

  ghost predicate FlightOk(out: Outside, f: Flight) {
    f.action.kind == PlaceAction ==>
      match f
      case Due(a) => a.order.id !in out.placed
      case Done(a, reply) =>
        a.order.id in out.placed
        && (reply == RejectReply ==> forall r :: r in out.rows && r.tag == a.order.id ==> r.finished && r.filled == 0)
  }

  ghost predicate FlightsOk(out: Outside) {
    && (forall x :: x in out.flights ==> FlightOk(out, out.flights[x]))
    && (forall x, y :: x in out.flights && y in out.flights && x != y && out.flights[x].Due? ==>
          !PlaceDue(out.flights[x], out.flights[y].action.order.id) || out.flights[y].action.kind == CancelAction)
  }

  ghost predicate OutsideOk(out: Outside) {
    RowsOk(out) && PlacedOnce(out.placed) && FlightsOk(out)
  }

  /** What the record says of an order agrees with what was sent and with the broker's row. */
  ghost predicate Linked(out: Outside, o: Order) {
    && (o.state in {Queued, Expired} ==> o.id !in out.placed && !IsDue(out, o.id))
    && (Terminal(o) && o.state != Expired ==>
          o.id in out.placed && forall r :: r in out.rows && r.tag == o.id ==> r.finished && r.filled == o.filled)
    && (forall r :: r in out.rows && r.tag == o.id ==> o.filled <= r.filled && r.quantity == o.quantity)
    && (o.filled > 0 ==> exists r :: r in out.rows && r.tag == o.id)
  }

  predicate IsOrder(w: World, o: Order) {
    o in w.s.orders || OrderInRows(w.archive, o)
  }

  predicate IsTrade(w: World, t: Trade) {
    t in w.s.trades || InRows(w.archive, t)
  }

  ghost predicate Resolved(w: World, id: TradeId) {
    exists t :: IsTrade(w, t) && t.id == id && t.resolved
  }

  ghost predicate ArchiveOk(w: World) {
    && (forall a :: a in w.archive ==> ArchivedWhole(a) && a.trade.id.day < Day(w.now))
    && (forall a, t :: a in w.archive && t in w.s.trades ==> a.trade.id != t.id)
    && (forall i, j :: 0 <= i < j < |w.archive| ==> w.archive[i].trade.id != w.archive[j].trade.id)
  }

  ghost predicate Known(w: World, id: OrderId) {
    exists o :: IsOrder(w, o) && o.id == id
  }

  ghost predicate KnownSize(w: World, p: Order) {
    exists o :: IsOrder(w, o) && o.id == p.id && o.quantity == p.quantity
  }

  ghost predicate AllKnown(w: World) {
    && (forall id :: id in w.out.placed ==> Known(w, id))
    && (forall x :: x in w.out.flights && w.out.flights[x].action.kind == PlaceAction ==>
       KnownSize(w, w.out.flights[x].action.order))
  }

  ghost predicate AllLinked(w: World) {
    forall o :: IsOrder(w, o) && !Resolved(w, o.id.trade) ==> Linked(w.out, o)
  }

  ghost predicate Safe(w: World) {
    Sound(w.s) && ArchiveOk(w) && OutsideOk(w.out) && AllKnown(w) && AllLinked(w)
  }

  lemma DayMonotone(a: int, b: int)
    requires a <= b
    ensures Day(a) <= Day(b)
  {
  }

  // Steps of the record alone.

  /** Order changes that cannot break the link to the broker. */
  ghost predicate LinkStep(o: Order, p: Order) {
    && p.id == o.id && p.quantity == o.quantity && p.filled == o.filled
    && (p.state == o.state || (o.state == Queued && p.state == Expired)
       || (o.state == Submitting && p.state == Uncertain))
  }

  ghost predicate TradesKeep(ts: seq<Trade>, us: seq<Trade>, today: int) {
    && |ts| <= |us|
    && (forall i :: 0 <= i < |ts| ==> us[i].id == ts[i].id && (ts[i].resolved ==> us[i].resolved))
    && (forall i :: |ts| <= i < |us| ==> us[i].id.day == today)
  }

  ghost predicate OrdersLink(w: World, s': State) {
    && |w.s.orders| <= |s'.orders|
    && SameSizes(w.s.orders, s'.orders)
    && (forall i ::
          0 <= i < |w.s.orders| && !Resolved(w.(s := s'), s'.orders[i].id.trade) && Linked(w.out, w.s.orders[i]) ==>
          Linked(w.out, s'.orders[i]))
    && (forall i :: |w.s.orders| <= i < |s'.orders| ==> Unsent(s'.orders[i]))
  }

  lemma ResolvedGrows(w: World, s': State, today: int)
    requires TradesKeep(w.s.trades, s'.trades, today)
    ensures forall id :: Resolved(w, id) ==> Resolved(w.(s := s'), id)
  {
    forall id | Resolved(w, id) ensures Resolved(w.(s := s'), id) {
      var t :| IsTrade(w, t) && t.id == id && t.resolved;
      if t in w.s.trades {
        var i :| 0 <= i < |w.s.trades| && w.s.trades[i] == t;
        assert IsTrade(w.(s := s'), s'.trades[i]);
      } else {
        assert IsTrade(w.(s := s'), t);
      }
    }
  }

  lemma ArchiveStaysApart(w: World, s': State, now: int)
    requires ArchiveOk(w) && w.now <= now && TradesKeep(w.s.trades, s'.trades, Day(now))
    ensures ArchiveOk(w.(s := s', now := now))
  {
    DayMonotone(w.now, now);
    forall a, t | a in w.archive && t in s'.trades ensures a.trade.id != t.id {
      var i :| 0 <= i < |s'.trades| && s'.trades[i] == t;
      if i < |w.s.trades| {
        assert w.s.trades[i] in w.s.trades;
      }
    }
  }

  ghost predicate SameSizes(os: seq<Order>, ps: seq<Order>) {
    |os| <= |ps| && forall i :: 0 <= i < |os| ==> ps[i].id == os[i].id && ps[i].quantity == os[i].quantity
  }

  lemma KnownStays(w: World, w': World)
    requires AllKnown(w) && SameSizes(w.s.orders, w'.s.orders) && w'.archive == w.archive && w'.out == w.out
    ensures AllKnown(w')
  {
    forall o | IsOrder(w, o) ensures exists p :: IsOrder(w', p) && p.id == o.id && p.quantity == o.quantity {
      if o in w.s.orders {
        var i :| 0 <= i < |w.s.orders| && w.s.orders[i] == o;
        assert IsOrder(w', w'.s.orders[i]);
      } else {
        assert IsOrder(w', o);
      }
    }
  }

  /** A new order was never sent: whatever was sent is an older order of the record or of the archive. */
  lemma NewOrderUnsent(w: World, s': State, i: nat)
    requires ArchiveOk(w.(s := s')) && AllKnown(w) && OutsideOk(w.out) && Sound(s')
    requires |w.s.orders| <= i < |s'.orders| && Unsent(s'.orders[i])
    requires forall j :: 0 <= j < |w.s.orders| ==> s'.orders[j].id == w.s.orders[j].id
    ensures Linked(w.out, s'.orders[i])
  {
    var p := s'.orders[i];
    forall o | IsOrder(w, o) ensures o.id != p.id {
      if o in w.s.orders {
        var j :| 0 <= j < |w.s.orders| && w.s.orders[j] == o;
        assert s'.orders[j].id != s'.orders[i].id;
      } else {
        var a :| a in w.archive && o in a.orders;
        assert Homed(s'.trades, p);
        var k :| 0 <= k < |s'.trades| && s'.trades[k].id == p.id.trade;
        assert s'.trades[k] in s'.trades;
      }
    }
    assert p.id !in w.out.placed && !IsDue(w.out, p.id);
    forall r | r in w.out.rows ensures r.tag != p.id {
      var j :| 0 <= j < |w.out.rows| && w.out.rows[j] == r;
    }
  }

  /** A step of the record alone keeps the world safe. */
  lemma RecordStep(w: World, s': State, now: int)
    requires Safe(w) && Sound(s') && w.now <= now
    requires OrdersLink(w, s') && TradesKeep(w.s.trades, s'.trades, Day(now))
    ensures Safe(w.(s := s', now := now))
  {
    hide Sound, Linked, OutsideOk, ArchiveOk;
    var w' := w.(s := s', now := now);
    ArchiveStaysApart(w, s', now);
    assert ArchiveOk(w.(s := s')) by {
      ArchiveApartNow(w, s', now);
    }
    ResolvedGrows(w, s', Day(now));
    KnownStays(w, w');
    forall o | IsOrder(w', o) && !Resolved(w', o.id.trade) ensures Linked(w'.out, o) {
      SameResolved(w.(s := s'), w', o.id.trade);
      if o in s'.orders {
        var i :| 0 <= i < |s'.orders| && s'.orders[i] == o;
        if i < |w.s.orders| {
          assert IsOrder(w, w.s.orders[i]);
        } else {
          NewOrderUnsent(w, s', i);
        }
      } else {
        assert IsOrder(w, o);
      }
    }
  }

  lemma ArchiveApartNow(w: World, s': State, now: int)
    requires ArchiveOk(w) && ArchiveOk(w.(s := s', now := now))
    ensures ArchiveOk(w.(s := s'))
  {
  }

  lemma SameResolved(w: World, w': World, id: TradeId)
    requires w'.s.trades == w.s.trades && w'.archive == w.archive
    ensures Resolved(w, id) <==> Resolved(w', id)
  {
    assert forall t :: IsTrade(w, t) <==> IsTrade(w', t);
  }

  lemma LinkStepKeeps(out: Outside, o: Order, p: Order)
    requires Linked(out, o) && LinkStep(o, p)
    ensures Linked(out, p)
  {
  }

  /** The steps that say nothing new about the broker. */
  lemma QuietStepSafe(w: World, s': State, now: int)
    requires Safe(w) && Sound(s') && w.now <= now
    requires Quiet(w.s.orders, s'.orders) && TradesKeep(w.s.trades, s'.trades, Day(now))
    ensures Safe(w.(s := s', now := now))
  {
    hide Sound, Linked, OutsideOk, ArchiveOk, AllKnown, AllLinked;
    forall i | 0 <= i < |w.s.orders| && Linked(w.out, w.s.orders[i]) ensures Linked(w.out, s'.orders[i]) {
      assert QuietStep(w.s.orders[i], s'.orders[i]);
      LinkStepKeeps(w.out, w.s.orders[i], s'.orders[i]);
    }
    RecordStep(w, s', now);
  }

  // Hearing from the broker.

  lemma OpenUnresolved(w: World, id: TradeId)
    requires Safe(w) && HasTrade(w.s.trades, id) && !TradeClosedIn(w.s.trades, id)
    ensures !Resolved(w, id)
  {
    var u :| u in w.s.trades && u.id == id;
    forall t | IsTrade(w, t) && t.id == id ensures !t.resolved {
      assert !InRows(w.archive, t);
      var i :| 0 <= i < |w.s.trades| && w.s.trades[i] == t;
      assert TradeOk(w.s.trades[i], w.s.orders);
    }
  }

  lemma HotOrderHasTrade(s: State, o: Order)
    requires Sound(s) && o in s.orders
    ensures HasTrade(s.trades, o.id.trade)
  {
    var k :| 0 <= k < |s.orders| && s.orders[k] == o;
    assert Homed(s.trades, s.orders[k]);
    var h :| 0 <= h < |s.trades| && s.trades[h].id == o.id.trade;
    assert s.trades[h] in s.trades;
  }

  lemma HonestBooksStay(w: World, book: seq<BookRow>)
    requires Safe(w) && Honest(book, w.out.rows)
    ensures FinishedStay(w.s, book)
  {
    hide Sound, ArchiveOk, OutsideOk, AllKnown;
    forall k, b | 0 <= k < |w.s.orders| && b in book && Terminal(w.s.orders[k]) && w.s.orders[k].state != Expired
                  && !TradeClosedIn(w.s.trades, w.s.orders[k].id.trade) && Concerns(b, w.s.orders[k])
                     && RowMatches(b, w.s.orders[k])
      ensures b.filled == w.s.orders[k].filled
    {
      var o := w.s.orders[k];
      HotOrderHasTrade(w.s, o);
      OpenUnresolved(w, o.id.trade);
      assert IsOrder(w, o);
      var r :| r in w.out.rows && RowReports(b, r);
    }
  }

  lemma OneRowPerTag(out: Outside, r: Row)
    requires RowsOk(out) && r in out.rows
    ensures forall q :: q in out.rows && q.tag == r.tag ==> q == r
  {
    var i :| 0 <= i < |out.rows| && out.rows[i] == r;
    forall q | q in out.rows && q.tag == r.tag ensures q == r {
      var j :| 0 <= j < |out.rows| && out.rows[j] == q;
    }
  }

  lemma RowKeepsLink(out: Outside, o: Order, p: Order, b: BookRow, r: Row)
    requires RowsOk(out) && Linked(out, o) && HeardFrom(o, p, b) && r in out.rows && RowReports(b, r)
    requires forall q :: q in out.rows && q.tag == r.tag ==> q == r
    ensures Linked(out, p)
  {
    hide IsDue;
    var i :| 0 <= i < |out.rows| && out.rows[i] == r;
  }

  lemma HeardKeepsLink(out: Outside, o: Order, p: Order, book: seq<BookRow>)
    requires OutsideOk(out) && Linked(out, o) && Honest(book, out.rows) && Heard(o, p, book)
    ensures Linked(out, p)
  {
    hide Linked, HeardFrom, RowReports, RowsOk, FlightsOk, PlacedOnce;
    if p != o {
      var b :| b in book && HeardFrom(o, p, b);
      HeardTag(o, p, b);
      var r :| r in out.rows && RowReports(b, r);
      OneRowPerTag(out, r);
      RowKeepsLink(out, o, p, b, r);
    }
  }

  lemma HeardTag(o: Order, p: Order, b: BookRow)
    requires HeardFrom(o, p, b)
    ensures b.tag.Some?
  {
  }

  lemma ReconcileSafe(w: World, book: seq<BookRow>, positions: Option<seq<Position>>, readAt: int, now: int)
    requires Safe(w) && Honest(book, w.out.rows) && w.now <= now
    ensures var r := Reconcile(w.s, book, positions, readAt); r.Ok? ==> Safe(w.(s := r.value, now := now))
  {
    hide Sound, ArchiveOk, Linked, OutsideOk, AllKnown, AllLinked, Reconcile;
    HonestBooksStay(w, book);
    ReconcileSound(w.s, book, positions, readAt);
    var r := Reconcile(w.s, book, positions, readAt);
    if r.Ok? {
      forall i | 0 <= i < |w.s.orders| && Linked(w.out, w.s.orders[i])
        ensures Linked(w.out, r.value.orders[i])
      {
        assert Heard(w.s.orders[i], r.value.orders[i], book);
        HeardKeepsLink(w.out, w.s.orders[i], r.value.orders[i], book);
      }
      forall i | 0 <= i < |w.s.orders|
        ensures r.value.orders[i].id == w.s.orders[i].id && r.value.orders[i].quantity == w.s.orders[i].quantity
      {
        assert Heard(w.s.orders[i], r.value.orders[i], book);
      }
      RecordStep(w, r.value, now);
    }
  }

  // Archiving.

  lemma ArchiveSafe(w: World, s': State, rows: seq<ArchiveRow>, now: int)
    requires Safe(w) && Sound(s') && Conserved(w.s, s', rows, now) && w.now <= now
    ensures Safe(w.(s := s', archive := w.archive + rows, now := now))
  {
    hide Sound, Linked, OutsideOk;
    var w' := w.(s := s', archive := w.archive + rows, now := now);
    DayMonotone(w.now, now);
    forall a ensures a in w'.archive <==> a in w.archive || a in rows {
    }
    forall o ensures IsOrder(w', o) <==> IsOrder(w, o) {
      assert OrderInRows(w'.archive, o) <==> OrderInRows(w.archive, o) || OrderInRows(rows, o);
    }
    forall t ensures IsTrade(w', t) <==> IsTrade(w, t) {
      assert InRows(w'.archive, t) <==> InRows(w.archive, t) || InRows(rows, t);
    }
    forall id ensures Resolved(w', id) <==> Resolved(w, id) {
    }
    forall a | a in rows ensures InRows(rows, a.trade) && a.trade in w.s.trades {
    }
    forall i, j | 0 <= i < j < |w'.archive| ensures w'.archive[i].trade.id != w'.archive[j].trade.id {
      if i < |w.archive| <= j {
        assert w.archive[i] in w.archive && rows[j - |w.archive|] in rows;
      }
    }
    assert ArchiveOk(w');
  }

  // Flights.

  lemma OneOrderPerId(w: World, i: nat, o: Order)
    requires Safe(w) && i < |w.s.orders| && IsOrder(w, o) && o.id == w.s.orders[i].id
    ensures o == w.s.orders[i]
  {
    var p := w.s.orders[i];
    HotOrderHasTrade(w.s, p);
    var t :| t in w.s.trades && t.id == p.id.trade;
    assert !OrderInRows(w.archive, o);
    var j :| 0 <= j < |w.s.orders| && w.s.orders[j] == o;
  }

  lemma DropFlightOk(out: Outside, x: string)
    requires OutsideOk(out)
    ensures OutsideOk(out.(flights := out.flights - {x}))
  {
    var out' := out.(flights := out.flights - {x});
    forall y | y in out'.flights ensures FlightOk(out', out'.flights[y]) {
      assert FlightOk(out, out.flights[y]);
    }
  }

  lemma DroppedLinked(out: Outside, x: string, o: Order)
    requires Linked(out, o)
    ensures Linked(out.(flights := out.flights - {x}), o)
  {
    assert IsDue(out.(flights := out.flights - {x}), o.id) ==> IsDue(out, o.id);
  }

  /** A process drops what it held: it crashed, or it recorded the reply. */
  lemma DropFlightSafe(w: World, x: string)
    requires Safe(w)
    ensures Safe(w.(out := w.out.(flights := w.out.flights - {x})))
  {
    hide Sound, Linked, OutsideOk;
    var out' := w.out.(flights := w.out.flights - {x});
    DropFlightOk(w.out, x);
    SameRecord(w, w.(out := out'));
    forall o | IsOrder(w, o) && !Resolved(w, o.id.trade) ensures Linked(out', o) {
      DroppedLinked(w.out, x, o);
    }
  }

  lemma SameRecord(w: World, w': World)
    requires w'.s == w.s && w'.archive == w.archive
    ensures forall o :: IsOrder(w', o) <==> IsOrder(w, o)
    ensures forall id :: Resolved(w', id) <==> Resolved(w, id)
    ensures forall id :: Known(w', id) <==> Known(w, id)
    ensures forall p :: KnownSize(w', p) <==> KnownSize(w, p)
  {
    assert forall o :: IsOrder(w', o) <==> IsOrder(w, o);
    forall id ensures Resolved(w', id) <==> Resolved(w, id) {
      SameResolved(w, w', id);
    }
  }

  lemma AddCancelOk(out: Outside, x: string, a: Action)
    requires OutsideOk(out) && x !in out.flights && a.kind == CancelAction
    ensures OutsideOk(out.(flights := out.flights[x := Due(a)]))
  {
    var out' := out.(flights := out.flights[x := Due(a)]);
    forall y | y in out'.flights ensures FlightOk(out', out'.flights[y]) {
      assert y in out.flights ==> FlightOk(out, out.flights[y]);
    }
  }

  lemma AddCancelLinked(out: Outside, x: string, a: Action, o: Order)
    requires Linked(out, o) && x !in out.flights && a.kind == CancelAction
    ensures Linked(out.(flights := out.flights[x := Due(a)]), o)
  {
    var out' := out.(flights := out.flights[x := Due(a)]);
    assert IsDue(out', o.id) ==> IsDue(out, o.id);
  }

  /** A process takes on a cancel request. */
  lemma AddCancelSafe(w: World, x: string, a: Action)
    requires Safe(w) && x !in w.out.flights && a.kind == CancelAction
    ensures Safe(w.(out := w.out.(flights := w.out.flights[x := Due(a)])))
  {
    hide Sound, Linked, OutsideOk;
    var out' := w.out.(flights := w.out.flights[x := Due(a)]);
    AddCancelOk(w.out, x, a);
    SameRecord(w, w.(out := out'));
    forall o | IsOrder(w, o) && !Resolved(w, o.id.trade) ensures Linked(out', o) {
      AddCancelLinked(w.out, x, a, o);
    }
  }

  /** A queued order belongs to an open trade, and was neither sent nor taken on. */
  lemma QueuedUnsent(w: World, i: nat)
    requires Safe(w) && i < |w.s.orders| && w.s.orders[i].state == Queued
    ensures !Resolved(w, w.s.orders[i].id.trade) && w.s.orders[i].id !in w.out.placed && !IsDue(w.out, w.s.orders[i].id)
  {
    var o := w.s.orders[i];
    assert Homed(w.s.trades, o);
    var k :| 0 <= k < |w.s.trades| && w.s.trades[k].id == o.id.trade && (Working(o) ==> !Closed(w.s.trades[k]));
    assert w.s.trades[k] in w.s.trades;
    forall t | t in w.s.trades && t.id == o.id.trade ensures !Closed(t) {
      var j :| 0 <= j < |w.s.trades| && w.s.trades[j] == t;
    }
    OpenUnresolved(w, o.id.trade);
    assert IsOrder(w, o);
  }

  lemma AddDueOk(out: Outside, x: string, p: Order)
    requires OutsideOk(out) && x !in out.flights && p.id !in out.placed && !IsDue(out, p.id)
    ensures OutsideOk(out.(flights := out.flights[x := Due(Action(PlaceAction, p))]))
  {
    var out' := out.(flights := out.flights[x := Due(Action(PlaceAction, p))]);
    forall y | y in out.flights ensures FlightOk(out', out.flights[y]) && !PlaceDue(out.flights[y], p.id) {
      assert FlightOk(out, out.flights[y]);
    }
  }

  lemma SameTradesResolved(w: World, w': World)
    requires w'.s.trades == w.s.trades && w'.archive == w.archive
    ensures forall id :: Resolved(w', id) <==> Resolved(w, id)
  {
    forall id ensures Resolved(w', id) <==> Resolved(w, id) {
      SameResolved(w, w', id);
    }
  }

  lemma LinkedBeside(out: Outside, x: string, p: Order, q: Order)
    requires Linked(out, q) && q.id != p.id && x !in out.flights
    ensures Linked(out.(flights := out.flights[x := Due(Action(PlaceAction, p))]), q)
  {
    var out' := out.(flights := out.flights[x := Due(Action(PlaceAction, p))]);
    assert IsDue(out', q.id) ==> IsDue(out, q.id);
  }

  lemma PlacedLink(w: World, x: string, i: nat, now: int, q: Order)
    requires Safe(w) && x !in w.out.flights && i < |w.s.orders| && w.s.orders[i].state == Queued
    requires var p := BeginSubmit(w.s.orders[i], now);
      q in w.s.orders[i := p] || OrderInRows(w.archive, q)
    requires !Resolved(w, q.id.trade)
    ensures Linked(w.out.(flights := w.out.flights[x := Due(Action(PlaceAction, BeginSubmit(w.s.orders[i], now)))]), q)
  {
    var o, p := w.s.orders[i], BeginSubmit(w.s.orders[i], now);
    if q == p {
      QueuedUnsent(w, i);
      assert IsOrder(w, o);
    } else {
      if q in w.s.orders[i := p] {
        var j :| 0 <= j < |w.s.orders| && w.s.orders[i := p][j] == q;
        assert w.s.orders[j] == q && j != i;
      } else {
        HotOrderHasTrade(w.s, o);
        var t :| t in w.s.trades && t.id == o.id.trade;
      }
      assert IsOrder(w, q) && q.id != p.id;
      LinkedBeside(w.out, x, p, q);
    }
  }

  /** A process takes on the placing of an order that was queued until now. */
  lemma AddPlaceSafe(w: World, x: string, i: nat, now: int)
    requires Safe(w) && x !in w.out.flights && i < |w.s.orders| && w.s.orders[i].state == Queued
    requires Sound(w.s.(orders := w.s.orders[i := BeginSubmit(w.s.orders[i], now)]))
    ensures var p := BeginSubmit(w.s.orders[i], now);
      Safe(w.(s := w.s.(orders := w.s.orders[i := p]),
        out := w.out.(flights := w.out.flights[x := Due(Action(PlaceAction, p))])))
  {
    hide Sound, Linked, OutsideOk;
    var p := BeginSubmit(w.s.orders[i], now);
    var w1 := w.(s := w.s.(orders := w.s.orders[i := p]));
    var out' := w.out.(flights := w.out.flights[x := Due(Action(PlaceAction, p))]);
    var w' := w1.(out := out');
    QueuedUnsent(w, i);
    AddDueOk(w.out, x, p);
    KnownStays(w, w1);
    SameRecord(w1, w');
    assert IsOrder(w', w1.s.orders[i]);
    SameTradesResolved(w, w');
    forall q | IsOrder(w', q) && !Resolved(w', q.id.trade) ensures Linked(out', q) {
      PlacedLink(w, x, i, now, q);
    }
  }

  ghost function Taken(w: World, x: string, a: Option<Action>): World {
    if a.None? then w else w.(out := w.out.(flights := w.out.flights[x := Due(a.value)]))
  }

  /** Claiming, with whatever it takes on, keeps the world safe. */
  lemma ClaimSafe(w: World, x: string, s': State, a: Option<Action>, claimedAt: int, now: int)
    requires Safe(w) && x !in w.out.flights && w.now <= now
    requires Sound(s') && s'.trades == w.s.trades && Claimed(w.s.orders, s'.orders, a, claimedAt)
    ensures Safe(Taken(w.(s := s', now := now), x, a))
  {
    hide Sound, ArchiveOk, OutsideOk, AllKnown, AllLinked;
    if a.Some? && a.value.kind == PlaceAction {
      var i :| 0 <= i < |w.s.orders| && ClaimedAt(w.s.orders, s'.orders, a.value, i, claimedAt);
      var before := s'.(orders := s'.orders[i := w.s.orders[i]]);
      assert before.orders[i := BeginSubmit(w.s.orders[i], claimedAt)] == s'.orders;
      UnsubmitSound(w.s, s', i, claimedAt);
      LinkStepsSafe(w, before, now);
      AddPlaceSafe(w.(s := before, now := now), x, i, claimedAt);
    } else {
      LinkStepsSafe(w, s', now);
      if a.Some? {
        AddCancelSafe(w.(s := s', now := now), x, a.value);
      }
    }
  }

  ghost predicate LinkSteps(os: seq<Order>, ps: seq<Order>) {
    |os| == |ps| && forall i :: 0 <= i < |os| ==> LinkStep(os[i], ps[i])
  }

  lemma LinkStepsSafe(w: World, s': State, now: int)
    requires Safe(w) && Sound(s') && w.now <= now && s'.trades == w.s.trades && LinkSteps(w.s.orders, s'.orders)
    ensures Safe(w.(s := s', now := now))
  {
    hide Sound, Linked, OutsideOk, ArchiveOk, AllKnown, AllLinked;
    forall i | 0 <= i < |w.s.orders| && Linked(w.out, w.s.orders[i]) ensures Linked(w.out, s'.orders[i]) {
      LinkStepKeeps(w.out, w.s.orders[i], s'.orders[i]);
    }
    RecordStep(w, s', now);
  }

  /** Before the claimed order was marked, the entries that lapsed on the way had lapsed already. */
  lemma UnsubmitSound(s: State, s': State, i: nat, claimedAt: int)
    requires Sound(s) && Sound(s') && s'.trades == s.trades
    requires |s.orders| == |s'.orders| && i < |s.orders| && s.orders[i].state == Queued
    requires s'.orders[i] == BeginSubmit(s.orders[i], claimedAt)
    requires forall k :: 0 <= k < |s.orders| && k != i ==>
      s'.orders[k] == s.orders[k] || Lapsed(s.orders[k], s'.orders[k])
    ensures Sound(s'.(orders := s'.orders[i := s.orders[i]]))
  {
    hide Sound, QuietStep, Lapsed;
    var qs := s'.orders[i := s.orders[i]];
    SoundWithOrders(s, s');
    forall k | 0 <= k < |s.orders| ensures QuietStep(s.orders[k], qs[k]) {
      OrderOkAt(s, k);
      SameOrLapsed(s.orders[k], qs[k]);
    }
    QuietInPlace(s'.(orders := s.orders), s'.(orders := qs));
  }

  lemma SameOrLapsed(o: Order, q: Order)
    requires OrderOk(o) && (q == o || Lapsed(o, q))
    ensures QuietStep(o, q)
  {
  }

  lemma SoundWithOrders(s: State, s': State)
    requires Sound(s) && Sound(s') && s'.trades == s.trades
    ensures Sound(s'.(orders := s.orders))
  {
    hide OrdersOk, TradesOk, OneInDoubt;
  }

  // Recording replies and giving up.

  ghost predicate OneChanged(w: World, s': State, i: nat) {
    i < |w.s.orders| == |s'.orders| && s'.orders == w.s.orders[i := s'.orders[i]] && s'.trades == w.s.trades
    && s'.orders[i].id == w.s.orders[i].id && s'.orders[i].quantity == w.s.orders[i].quantity
  }

  lemma OneOrderSafe(w: World, s': State, i: nat)
    requires Safe(w) && Sound(s') && OneChanged(w, s', i)
    requires !Resolved(w, w.s.orders[i].id.trade) ==> Linked(w.out, s'.orders[i])
    ensures Safe(w.(s := s'))
  {
    hide Sound, Linked, OutsideOk, ArchiveOk, AllKnown, AllLinked;
    SameTradesResolved(w, w.(s := s'));
    RecordStep(w, s', w.now);
  }

  lemma AnswerLinked(w: World, x: string, i: nat, p: Order)
    requires Safe(w) && x in w.out.flights && w.out.flights[x].Done? && i < |w.s.orders|
    requires w.out.flights[x].action.order.id == w.s.orders[i].id
    requires Answered(w.s.orders[i], p, w.out.flights[x].action, w.out.flights[x].reply)
    requires !Resolved(w, w.s.orders[i].id.trade)
    ensures Linked(w.out, p)
  {
    var o := w.s.orders[i];
    assert IsOrder(w, o);
    assert OrderOk(o);
    assert FlightOk(w.out, w.out.flights[x]);
  }

  lemma RecordSafe(w: World, x: string)
    requires Safe(w) && x in w.out.flights && w.out.flights[x].Done?
    ensures var f := w.out.flights[x];
      Safe(w.(s := Record(w.s, x, f.action, f.reply), out := w.out.(flights := w.out.flights - {x})))
  {
    hide Safe;
    var f := w.out.flights[x];
    var s' := Record(w.s, x, f.action, f.reply);
    if s' != w.s {
      RecordOneSafe(w, x);
    }
    DropFlightSafe(w.(s := s'), x);
  }

  lemma RecordOneSafe(w: World, x: string)
    requires Safe(w) && x in w.out.flights && w.out.flights[x].Done?
    ensures Safe(w.(s := Record(w.s, x, w.out.flights[x].action, w.out.flights[x].reply)))
  {
    hide Sound, Linked, OutsideOk, ArchiveOk, AllKnown, AllLinked, Finish;
    var f := w.out.flights[x];
    var r, i := Finish(w.s, f.action, f.reply), OrderIndex(w.s.orders, f.action.order.id);
    FinishSound(w.s, f.action, f.reply);
    if Owns(w.s, x) && r.Ok? {
      if !Resolved(w, w.s.orders[i].id.trade) {
        AnswerLinked(w, x, i, r.value.orders[i]);
      }
      OneOrderSafe(w, r.value, i);
    }
  }

  /** The order a process gives up was never sent, and no other process may send it. */
  lemma GiveUpSafe(w: World, x: string)
    requires Safe(w) && x in w.out.flights && w.out.flights[x].Due? && w.out.flights[x].action.kind == PlaceAction
    requires GiveUp(w.s, w.out.flights[x].action.order.id).Some?
    ensures Safe(w.(s := GiveUp(w.s, w.out.flights[x].action.order.id).value,
      out := w.out.(flights := w.out.flights - {x})))
  {
    hide Sound, ArchiveOk, AllKnown;
    var id := w.out.flights[x].action.order.id;
    var i := OrderIndex(w.s.orders, id);
    var w1 := w.(out := w.out.(flights := w.out.flights - {x}));
    DropFlightSafe(w, x);
    GiveUpSound(w.s, i);
    SameRecord(w, w1);
    if !Resolved(w, id.trade) {
      assert IsOrder(w1, w.s.orders[i]);
      assert FlightOk(w.out, w.out.flights[x]);
      assert !IsDue(w1.out, id);
    }
    OneOrderSafe(w1, GiveUp(w.s, id).value, i);
  }

  // The broker.

  lemma BrokerSafe(w: World, rows': seq<Row>)
    requires Safe(w) && Evolves(w.out.rows, rows')
    ensures Safe(w.(out := w.out.(rows := rows')))
  {
    hide Sound;
    var out' := w.out.(rows := rows');
    var w' := w.(out := out');
    SameRecord(w, w');
    forall x | x in out'.flights ensures FlightOk(out', out'.flights[x]) {
      assert FlightOk(w.out, w.out.flights[x]);
      RowsMatchUp(w.out.rows, rows');
    }
    assert OutsideOk(out');
    forall o | Linked(w.out, o) ensures Linked(out', o) {
      EvolvedLink(w.out, rows', o);
    }
  }

  predicate Grew(r: Row, r': Row) {
    r.tag == r'.tag && r.quantity == r'.quantity && r.filled <= r'.filled && (r.finished ==> r' == r)
  }

  lemma RowsMatchUp(rows: seq<Row>, rows': seq<Row>)
    requires Evolves(rows, rows')
    ensures forall r' :: r' in rows' ==> exists r :: r in rows && Grew(r, r')
    ensures forall r :: r in rows ==> exists r' :: r' in rows' && r'.tag == r.tag
  {
    forall r' | r' in rows'
      ensures exists r :: r in rows && Grew(r, r')
    {
      var i :| 0 <= i < |rows'| && rows'[i] == r';
      assert rows[i] in rows && Grew(rows[i], r');
    }
    forall r | r in rows ensures exists r' :: r' in rows' && r'.tag == r.tag {
      var i :| 0 <= i < |rows| && rows[i] == r;
      assert rows'[i] in rows';
    }
  }

  lemma EvolvedLink(out: Outside, rows': seq<Row>, o: Order)
    requires Linked(out, o) && Evolves(out.rows, rows')
    ensures Linked(out.(rows := rows'), o)
  {
    RowsMatchUp(out.rows, rows');
    assert IsDue(out.(rows := rows'), o.id) <==> IsDue(out, o.id);
  }

  predicate IsRowOf(r: Row, p: Order, reply: Reply) {
    r.tag == p.id && r.quantity == p.quantity && r.filled == 0 && (reply == RejectReply ==> r.finished)
  }

  /** What one placeOrder call may do at the broker: keep a new row, or none; and whatever the caller learns of it. */
  ghost predicate Lands(rows: seq<Row>, rows': seq<Row>, p: Order, reply: Reply) {
    rows' == rows || exists r: Row :: rows' == rows + [r] && IsRowOf(r, p, reply)
  }

  lemma SendSafe(w: World, x: string, rows': seq<Row>, reply: Reply)
    requires Safe(w) && x in w.out.flights && w.out.flights[x].Due? && w.out.flights[x].action.kind == PlaceAction
    requires Lands(w.out.rows, rows', w.out.flights[x].action.order, reply)
    ensures var a := w.out.flights[x].action;
      Safe(w.(out := Outside(rows', w.out.flights[x := Done(a, reply)], w.out.placed + [a.order.id])))
  {
    hide Sound;
    var a := w.out.flights[x].action;
    var out' := Outside(rows', w.out.flights[x := Done(a, reply)], w.out.placed + [a.order.id]);
    var w' := w.(out := out');
    SameRecord(w, w');
    SizePositive(w, x);
    SentOutsideOk(w.out, x, rows', reply);
    assert AllKnown(w') by {
      assert KnownSize(w, a.order);
      assert Known(w, a.order.id);
    }
    forall o | IsOrder(w, o) && !Resolved(w, o.id.trade) ensures Linked(out', o) {
      assert Linked(w.out, o);
      SizeOf(w, x, o);
      SentLinked(w.out, x, rows', reply, o);
    }
  }

  lemma SizeOf(w: World, x: string, o: Order)
    requires Safe(w) && x in w.out.flights && w.out.flights[x].action.kind == PlaceAction && IsOrder(w, o)
    ensures 0 <= o.filled
    ensures (o.id == w.out.flights[x].action.order.id ==> o.quantity == w.out.flights[x].action.order.quantity)
  {
    var p := w.out.flights[x].action.order;
    if o in w.s.orders {
      var i :| 0 <= i < |w.s.orders| && w.s.orders[i] == o;
      assert OrderOk(w.s.orders[i]);
      forall q | IsOrder(w, q) && q.id == o.id ensures q == o {
        OneOrderPerId(w, i, q);
      }
    } else {
      var a :| a in w.archive && o in a.orders;
      forall q | IsOrder(w, q) && q.id == o.id ensures q == o {
        ArchivedOnce(w, a, o, q);
      }
    }
  }

  lemma SizePositive(w: World, x: string)
    requires Safe(w) && x in w.out.flights && w.out.flights[x].action.kind == PlaceAction
    ensures 0 < w.out.flights[x].action.order.quantity
  {
    var p := w.out.flights[x].action.order;
    assert KnownSize(w, p);
    var o :| IsOrder(w, o) && o.id == p.id && o.quantity == p.quantity;
    assert OrderOk(o);
  }

  lemma HotApart(w: World, a: ArchiveRow, p: Order)
    requires Safe(w) && a in w.archive && p in w.s.orders
    ensures p.id.trade != a.trade.id
  {
    HotOrderHasTrade(w.s, p);
    var t :| t in w.s.trades && t.id == p.id.trade;
    assert a.trade.id != t.id;
  }

  lemma ArchivedOnce(w: World, a: ArchiveRow, o: Order, q: Order)
    requires Safe(w) && a in w.archive && o in a.orders && IsOrder(w, q) && q.id == o.id
    ensures q == o
  {
    hide Sound, OutsideOk, AllKnown, AllLinked;
    forall p | p in w.s.orders ensures p.id.trade != a.trade.id {
      HotApart(w, a, p);
    }
    assert q !in w.s.orders;
    var b :| b in w.archive && q in b.orders;
    var i, j :| 0 <= i < |w.archive| && 0 <= j < |w.archive| && w.archive[i] == a && w.archive[j] == b;
    assert a == b;
    var k, l :| 0 <= k < |a.orders| && 0 <= l < |a.orders| && a.orders[k] == o && a.orders[l] == q;
  }

  lemma SentOutsideOk(out: Outside, x: string, rows': seq<Row>, reply: Reply)
    requires OutsideOk(out) && x in out.flights && out.flights[x].Due? && out.flights[x].action.kind == PlaceAction
    requires Lands(out.rows, rows', out.flights[x].action.order, reply) && 0 < out.flights[x].action.order.quantity
    ensures OutsideOk(Outside(rows', out.flights[x := Done(out.flights[x].action, reply)],
      out.placed + [out.flights[x].action.order.id]))
  {
  }

  lemma SentLinked(out: Outside, x: string, rows': seq<Row>, reply: Reply, o: Order)
    requires OutsideOk(out) && x in out.flights && out.flights[x].Due? && out.flights[x].action.kind == PlaceAction
    requires Lands(out.rows, rows', out.flights[x].action.order, reply)
    requires Linked(out, o) && 0 <= o.filled
    requires o.id == out.flights[x].action.order.id ==> o.quantity == out.flights[x].action.order.quantity
    ensures Linked(Outside(rows', out.flights[x := Done(out.flights[x].action, reply)],
      out.placed + [out.flights[x].action.order.id]), o)
  {
  }

  // Owner commands and take-over.

  lemma ReasonsKeepTrades(ts: seq<Trade>, us: seq<Trade>, today: int)
    requires SameButReasons(ts, us)
    ensures TradesKeep(ts, us, today)
  {
  }

  lemma AcquireSafe(w: World, x: string, now: int)
    requires Safe(w) && w.now <= now && Acquire(w.s, x, now).Some?
    ensures Safe(w.(s := Acquire(w.s, x, now).value, now := now))
  {
    hide Sound, Quiet, ArchiveOk, OutsideOk, AllKnown, AllLinked;
    RecoverSound(w.s, x);
    var s1 := Recover(w.s, x);
    SoundElsewhere(s1, Acquire(w.s, x, now).value);
    ReasonsKeepTrades(w.s.trades, s1.trades, Day(now));
    QuietStepSafe(w, Acquire(w.s, x, now).value, now);
  }

  lemma ControlSafe(w: World, operation: Operation, requestId: string, now: int)
    requires Safe(w) && w.now <= now
    ensures var r := Control(w.s, operation, requestId, now); r.Ok? ==> Safe(w.(s := r.value, now := now))
  {
    hide Sound, Quiet, ArchiveOk, OutsideOk, AllKnown, AllLinked;
    ControlSound(w.s, operation, requestId, now);
    QuietUnchanged(w.s);
    var r := Control(w.s, operation, requestId, now);
    if r.Ok? {
      ReasonsKeepTrades(w.s.trades, r.value.trades, Day(now));
      QuietStepSafe(w, r.value, now);
    }
  }

  lemma ConfigureSafe(w: World, dailyLoss: int, risk: Option<int>, losses: Option<int>, requestId: string, now: int)
    requires Safe(w) && w.now <= now
    ensures var r := ConfigurePolicy(w.s, dailyLoss, risk, losses, requestId, now);
      r.Ok? ==> Safe(w.(s := r.value, now := now))
  {
    hide Sound, Quiet, ArchiveOk, OutsideOk, AllKnown, AllLinked, ConfigurePolicy;
    ConfigureSound(w.s, dailyLoss, risk, losses, requestId, now);
    QuietUnchanged(w.s);
    var r := ConfigurePolicy(w.s, dailyLoss, risk, losses, requestId, now);
    if r.Ok? {
      QuietStepSafe(w, r.value, now);
    }
  }

  lemma ResolveSafe(w: World, id: TradeId, reason: string, requestId: string, now: int)
    requires Safe(w) && w.now <= now
    ensures var r := ResolveTrade(w.s, id, reason, requestId, now); r.Ok? ==> Safe(w.(s := r.value, now := now))
  {
    hide Sound, Linked, ArchiveOk, OutsideOk, AllKnown, AllLinked;
    ResolveSound(w.s, id, reason, requestId, now);
    var r := ResolveTrade(w.s, id, reason, requestId, now);
    if r.Ok? {
      if r.value.orders != w.s.orders {
        var i := TradeIndex(w.s.trades, id);
        assert IsTrade(w.(s := r.value), r.value.trades[i]);
        assert Resolved(w.(s := r.value), id);
      }
      RecordStep(w, r.value, now);
    }
  }
}
