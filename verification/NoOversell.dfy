/**
 The broker never sells more of a trade than it bought, on any run, and no order is ever placed twice.
 The argument compares the broker's own rows with the record, order by order.
 */
module NoOversell {
  import opened SandboxTypes
  import opened Totals
  import opened SandboxSpec
  import opened SandboxInvariant
  import opened SandboxArchive
  import opened SandboxService
  import opened SandboxWorld
  import opened SandboxResolved
  import opened SandboxRuns

  predicate OfSide(id: OrderId, t: TradeId, buy: bool) {
    id.trade == t && id.kind.EntryKind? == buy
  }

  /** What the broker really bought, or sold, for a trade. */
  function Filled(rows: seq<Row>, t: TradeId, buy: bool): int {
    if rows == [] then 0 else
      var r := rows[|rows| - 1];
      Filled(rows[..|rows| - 1], t, buy) + if OfSide(r.tag, t, buy) then r.filled else 0
  }

  /** What the broker filled under one tag. */
  function FilledAs(rows: seq<Row>, id: OrderId): int {
    if rows == [] then 0 else
      var r := rows[|rows| - 1];
      FilledAs(rows[..|rows| - 1], id) + if r.tag == id then r.filled else 0
  }

  /** The same, added up over the orders of a list. */
  function FilledFor(os: seq<Order>, rows: seq<Row>, t: TradeId, buy: bool): int {
    if os == [] then 0 else
      var o := os[|os| - 1];
      FilledFor(os[..|os| - 1], rows, t, buy) + if OfSide(o.id, t, buy) then FilledAs(rows, o.id) else 0
  }

  lemma {:induction false} FilledForNothing(os: seq<Order>, t: TradeId, buy: bool)
    ensures FilledFor(os, [], t, buy) == 0
  {
    if os != [] {
      FilledForNothing(os[..|os| - 1], t, buy);
    }
  }

  /** One more row counts once, for the one order it is tagged with. */
  lemma {:induction false} FilledForAdd(os: seq<Order>, rows: seq<Row>, r: Row, t: TradeId, buy: bool)
    requires UniqueOrders(os)
    ensures FilledFor(os, rows + [r], t, buy) ==
            FilledFor(os, rows, t, buy) + if OfSide(r.tag, t, buy) && exists o :: o in os && o.id == r.tag
              then r.filled else 0
  {
    if os != [] {
      var init, o := os[..|os| - 1], os[|os| - 1];
      FilledForAdd(init, rows, r, t, buy);
      assert (rows + [r])[..|rows|] == rows;
      assert forall p :: p in os <==> p in init || p == o;
      if o.id == r.tag {
        forall p | p in init ensures p.id != o.id {
          var k :| 0 <= k < |init| && init[k] == p;
          assert os[k] == p;
        }
      }
    }
  }

  /** Rows whose tags are all in the list add up the same either way. */
  lemma {:induction false} FilledMatches(os: seq<Order>, rows: seq<Row>, t: TradeId, buy: bool)
    requires UniqueOrders(os)
    requires forall r :: r in rows && OfSide(r.tag, t, buy) ==> exists o :: o in os && o.id == r.tag
    ensures Filled(rows, t, buy) == FilledFor(os, rows, t, buy)
  {
    if rows == [] {
      FilledForNothing(os, t, buy);
    } else {
      var init, r := rows[..|rows| - 1], rows[|rows| - 1];
      assert init + [r] == rows;
      FilledMatches(os, init, t, buy);
      FilledForAdd(os, init, r, t, buy);
    }
  }

  lemma {:induction false} FilledAsIs(rows: seq<Row>, id: OrderId)
    requires forall i, j :: 0 <= i < j < |rows| ==> rows[i].tag != rows[j].tag
    ensures forall r :: r in rows && r.tag == id ==> FilledAs(rows, id) == r.filled
    ensures (forall r :: r in rows ==> r.tag != id) ==> FilledAs(rows, id) == 0
  {
    if rows != [] {
      var init, last := rows[..|rows| - 1], rows[|rows| - 1];
      FilledAsIs(init, id);
      assert forall r :: r in rows <==> r in init || r == last;
      if last.tag == id {
        forall r | r in init ensures r.tag != id {
          var k :| 0 <= k < |init| && init[k] == r;
          assert rows[k] == r;
        }
      }
    }
  }

  /** The broker bought at least what the record counts for an order, and sold at most what the measure counts. */
  ghost predicate Covered(m: Measure, out: Outside, o: Order) {
    if IsBuy(o) then Weight(Bought, o.id.trade, o) <= FilledAs(out.rows, o.id)
    else FilledAs(out.rows, o.id) <= Weight(m, o.id.trade, o)
  }

  lemma OrderWithin(out: Outside, o: Order)
    requires RowsOk(out) && Linked(out, o) && OrderOk(o)
    ensures Covered(Committed, out, o)
  {
    FilledAsIs(out.rows, o.id);
    if r :| r in out.rows && r.tag == o.id {
      var k :| 0 <= k < |out.rows| && out.rows[k] == r;
    }
  }

  /**
   A finished order of a resolved trade: an expired one that was sent may have filled, and one that was not may not.
   */
  lemma LooseWithin(out: Outside, sent: set<OrderId>, o: Order)
    requires RowsOk(out) && Loose(out, o) && OrderOk(o) && Terminal(o)
    requires o.id !in sent ==> forall r :: r in out.rows ==> r.tag != o.id
    ensures Covered(Capped(sent), out, o)
  {
    FilledAsIs(out.rows, o.id);
    if r :| r in out.rows && r.tag == o.id {
      var k :| 0 <= k < |out.rows| && out.rows[k] == r;
    }
  }

  lemma ResolvedOrderWithin(w: World, o: Order)
    requires Safe(w) && Loose(w.out, o) && OrderOk(o) && Terminal(o)
    ensures Covered(Capped(Sent(w.out)), w.out, o)
  {
    hide Sent, Loose, Covered, Sound, ArchiveOk, AllKnown, AllLinked;
    if o.id !in Sent(w.out) {
      UnsentUnseen(w, o.id);
    }
    LooseWithin(w.out, Sent(w.out), o);
  }

  lemma {:induction false} TradeWithin(m: Measure, out: Outside, os: seq<Order>, t: TradeId)
    requires m == Committed || m.Capped?
    requires forall o :: o in os && o.id.trade == t ==> Covered(m, out, o)
    ensures FilledFor(os, out.rows, t, false) <= Total(m, t, os)
    ensures Total(Bought, t, os) <= FilledFor(os, out.rows, t, true)
  {
    if os != [] {
      var init, o := os[..|os| - 1], os[|os| - 1];
      TradeWithin(m, out, init, t);
      assert o in os;
    }
  }

  lemma RowsKnown(w: World, t: TradeId, os: seq<Order>)
    requires Safe(w) && forall o :: IsOrder(w, o) && o.id.trade == t ==> o in os
    ensures forall r :: r in w.out.rows && r.tag.trade == t ==> exists o :: o in os && o.id == r.tag
  {
    hide Sound, ArchiveOk, AllLinked;
    forall r | r in w.out.rows && r.tag.trade == t ensures exists o :: o in os && o.id == r.tag {
      var k :| 0 <= k < |w.out.rows| && w.out.rows[k] == r;
      assert Known(w, r.tag);
    }
  }

  lemma TradeOfListWithin(w: World, m: Measure, t: TradeId, os: seq<Order>)
    requires Safe(w) && UniqueOrders(os) && (m == Committed || m.Capped?)
    requires forall o :: IsOrder(w, o) && o.id.trade == t ==> o in os
    requires forall o :: o in os && o.id.trade == t ==> Covered(m, w.out, o)
    ensures Filled(w.out.rows, t, false) <= Total(m, t, os)
    ensures Total(Bought, t, os) <= Filled(w.out.rows, t, true)
  {
    hide Sound, ArchiveOk, Linked;
    RowsKnown(w, t, os);
    FilledMatches(os, w.out.rows, t, false);
    FilledMatches(os, w.out.rows, t, true);
    TradeWithin(m, w.out, os, t);
  }

  lemma HotTradeWithin(w: World, t: Trade)
    requires Safe(w) && Settled(w) && t in w.s.trades
    ensures Filled(w.out.rows, t.id, false) <= Filled(w.out.rows, t.id, true)
  {
    var k :| 0 <= k < |w.s.trades| && w.s.trades[k] == t;
    assert TradeOk(w.s.trades[k], w.s.orders);
    var m := if t.resolved then Capped(Sent(w.out)) else Committed;
    SafeIsSound(w);
    hide TradeOk, Sent;
    if !t.resolved {
      HotUnresolved(w, t);
    }
    forall o | o in w.s.orders && o.id.trade == t.id ensures Covered(m, w.out, o) {
      var i :| 0 <= i < |w.s.orders| && w.s.orders[i] == o;
      assert IsOrder(w, o) && OrderOk(w.s.orders[i]);
      if t.resolved {
        ResolvedIsClosed(w, t);
        ClosedIsTerminal(w.s, i);
        ResolvedOrderWithin(w, o);
      } else {
        OrderWithin(w.out, o);
      }
    }
    HotOrders(w, t);
    TradeOfListWithin(w, m, t.id, w.s.orders);
    assert t.resolved ==> Bounded(w.out, t.id, w.s.orders);
  }

  lemma HotOrders(w: World, t: Trade)
    requires Safe(w) && t in w.s.trades
    ensures UniqueOrders(w.s.orders)
    ensures forall o :: IsOrder(w, o) && o.id.trade == t.id ==> o in w.s.orders
  {
  }

  lemma HotUnresolved(w: World, t: Trade)
    requires Safe(w) && t in w.s.trades && !t.resolved
    ensures !Resolved(w, t.id)
  {
    hide AllLinked, OutsideOk, AllKnown;
    forall u | IsTrade(w, u) && u.id == t.id ensures !u.resolved {
      assert !InRows(w.archive, u);
      var i, j :| 0 <= i < |w.s.trades| && 0 <= j < |w.s.trades| && w.s.trades[i] == u && w.s.trades[j] == t;
    }
  }

  lemma ArchivedTradeWithin(w: World, a: ArchiveRow)
    requires Safe(w) && Settled(w) && a in w.archive
    ensures Filled(w.out.rows, a.trade.id, false) <= Filled(w.out.rows, a.trade.id, true)
  {
    var m := if a.trade.resolved then Capped(Sent(w.out)) else Committed;
    if !a.trade.resolved {
      ArchivedUnresolved(w, a);
    }
    forall o | o in a.orders ensures o.id.trade == a.trade.id && Terminal(o) && Covered(m, w.out, o) {
      assert IsOrder(w, o) && OrderOk(o);
      if a.trade.resolved {
        ResolvedOrderWithin(w, o);
      } else {
        OrderWithin(w.out, o);
      }
    }
    ArchivedOrders(w, a);
    forall i | 0 <= i < |a.orders| ensures Terminal(a.orders[i]) {
      assert a.orders[i] in a.orders;
    }
    CommittedIsSold(a.trade.id, a.orders);
    TradeOfListWithin(w, m, a.trade.id, a.orders);
  }

  lemma ArchivedUnresolved(w: World, a: ArchiveRow)
    requires Safe(w) && a in w.archive && !a.trade.resolved
    ensures !Resolved(w, a.trade.id)
  {
    hide AllLinked, OutsideOk, AllKnown, Sound;
    forall u | IsTrade(w, u) && u.id == a.trade.id ensures !u.resolved {
      assert u !in w.s.trades;
      var b :| b in w.archive && b.trade == u;
      var i, j :| 0 <= i < |w.archive| && 0 <= j < |w.archive| && w.archive[i] == a && w.archive[j] == b;
    }
  }

  lemma ArchivedOrders(w: World, a: ArchiveRow)
    requires Safe(w) && a in w.archive
    ensures forall o :: IsOrder(w, o) && o.id.trade == a.trade.id ==> o in a.orders
  {
    forall p | p in w.s.orders ensures p.id.trade != a.trade.id {
      HotApart(w, a, p);
    }
    forall o | IsOrder(w, o) && o.id.trade == a.trade.id ensures o in a.orders {
      var b :| b in w.archive && o in b.orders;
      var i, j :| 0 <= i < |w.archive| && 0 <= j < |w.archive| && w.archive[i] == a && w.archive[j] == b;
    }
  }

  /**
   On every run, for every trade ever planned, the broker has sold at most what it bought. This is about the broker's
   own rows, whatever the record has heard of them so far, and whether or not the owner resolved the trade by hand.
   */
  lemma NeverOversold(ws: seq<World>, i: nat, t: Trade)
    requires Run(ws) && i < |ws| && IsTrade(ws[i], t)
    ensures Filled(ws[i].out.rows, t.id, false) <= Filled(ws[i].out.rows, t.id, true)
  {
    hide Safe, Settled;
    RunSafe(ws, i);
    RunSettled(ws, i);
    if t in ws[i].s.trades {
      HotTradeWithin(ws[i], t);
    } else {
      var a :| a in ws[i].archive && a.trade == t;
      ArchivedTradeWithin(ws[i], a);
    }
  }

  // Submission.

  lemma PlacedGrows(w: World, w': World)
    requires Follows(w, w')
    ensures w.out.placed <= w'.out.placed
  {
    hide PrepareTick, Acquire, FailTick, Record, GiveUp, Honest, Lands, Control, ConfigurePolicy, ResolveTrade;
  }

  lemma {:induction false} PlacedPrefix(ws: seq<World>, i: nat, j: nat)
    requires Run(ws) && i <= j < |ws|
    ensures ws[i].out.placed <= ws[j].out.placed
  {
    if i < j {
      PlacedPrefix(ws, i, j - 1);
      PlacedGrows(ws[j - 1], ws[j]);
    }
  }

  /**
   The log of placeOrder calls only grows and never repeats an order; an order that was placed is not queued again;
   and the record is never in doubt about two submissions at once.
   */
  lemma PlacedAtMostOnce(ws: seq<World>, i: nat, j: nat)
    requires Run(ws) && i <= j < |ws|
    ensures ws[i].out.placed <= ws[j].out.placed && PlacedOnce(ws[j].out.placed)
    ensures forall o :: o in ws[j].s.orders && o.id in ws[i].out.placed ==> o.state != Queued
    ensures OneInDoubt(ws[j].s.orders)
  {
    PlacedPrefix(ws, i, j);
    RunSafe(ws, j);
    var w := ws[j];
    forall o | o in w.s.orders && o.id in ws[i].out.placed ensures o.state != Queued {
      var k :| 0 <= k < |w.s.orders| && w.s.orders[k] == o;
      if o.state == Queued {
        QueuedUnsent(w, k);
      }
    }
  }
}
