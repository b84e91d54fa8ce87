/** Moving closed trades to the archive loses nothing: no trade, no order and no rupee of the result so far. */
module SandboxArchive {
  import opened SandboxTypes
  import opened Totals
  import opened SandboxSpec
  import opened SandboxInvariant

  lemma {:induction false} DropTradeMembers(ts: seq<Trade>, id: TradeId)
    ensures forall t :: t in DropTrade(ts, id) <==> t in ts && t.id != id
  {
    if ts != [] {
      DropTradeMembers(ts[..|ts| - 1], id);
      assert ts == ts[..|ts| - 1] + [ts[|ts| - 1]];
    }
  }

  /** Dropping a trade keeps the rest a sublist: what holds of every pair still does. */
  lemma {:induction false} DropTradePairs(ts: seq<Trade>, id: TradeId)
    requires UniqueTrades(ts) && OneOpen(ts) && OneEntryPerBreakout(ts)
    ensures UniqueTrades(DropTrade(ts, id)) && OneOpen(DropTrade(ts, id)) && OneEntryPerBreakout(DropTrade(ts, id))
  {
    if ts != [] {
      var init, last := ts[..|ts| - 1], ts[|ts| - 1];
      DropTradePairs(init, id);
      var rest := DropTrade(init, id);
      if last.id != id {
        forall i | 0 <= i < |rest|
          ensures rest[i].id != last.id && (Closed(rest[i]) || Closed(last))
          ensures rest[i].breakoutId.Some? ==> rest[i].breakoutId != last.breakoutId
        {
          DropTradeMembers(init, id);
          assert rest[i] in rest;
          var k :| 0 <= k < |init| && init[k] == rest[i];
          assert ts[k] == rest[i] && ts[|ts| - 1] == last;
        }
      }
    }
  }

  lemma {:induction false} DropTradeCounts(ts: seq<Trade>, id: TradeId, day: int)
    ensures OpenedOn(DropTrade(ts, id), day) <= OpenedOn(ts, day)
  {
    if ts != [] {
      var init := ts[..|ts| - 1];
      DropTradeCounts(init, id, day);
      if ts[|ts| - 1].id != id {
        assert DropTrade(ts, id)[..|DropTrade(ts, id)| - 1] == DropTrade(init, id);
      }
    }
  }

  lemma {:induction false} WithoutUnique(t: TradeId, os: seq<Order>)
    requires UniqueOrders(os)
    ensures UniqueOrders(Without(t, os))
  {
    if os != [] {
      var init, last := os[..|os| - 1], os[|os| - 1];
      WithoutUnique(t, init);
      var rest := Without(t, init);
      forall i | 0 <= i < |rest| ensures rest[i].id != last.id {
        WithoutMembers(t, init);
        assert rest[i] in rest;
      }
    }
  }

  lemma {:induction false} WithoutInDoubt(t: TradeId, os: seq<Order>)
    requires OneInDoubt(os)
    ensures OneInDoubt(Without(t, os))
  {
    if os != [] {
      var init, last := os[..|os| - 1], os[|os| - 1];
      WithoutInDoubt(t, init);
      var rest := Without(t, init);
      forall i | 0 <= i < |rest| ensures !InDoubt(rest[i]) || !InDoubt(last) {
        WithoutMembers(t, init);
        assert rest[i] in rest;
        var k :| 0 <= k < |init| && init[k] == rest[i];
        assert os[k] == rest[i] && os[|os| - 1] == last;
      }
    }
  }

  lemma WithoutTrade(t: TradeId, u: Trade, os: seq<Order>)
    requires TradeOk(u, os) && u.id != t
    ensures TradeOk(u, Without(t, os))
  {
    hide Net, TermsOk;
    var ps := Without(t, os);
    WithoutMembers(t, os);
    forall m ensures Total(m, u.id, ps) == Total(m, u.id, os) {
      WithoutTotal(m, t, u.id, os);
    }
    assert Net(u.id, ps) == Net(u.id, os) by {
      WithoutNet(t, u.id, os);
    }
    forall i | 0 <= i < |ps| ensures ps[i] in os {
      assert ps[i] in ps;
    }
  }

  lemma WithoutNet(t: TradeId, u: TradeId, os: seq<Order>)
    requires t != u
    ensures Net(u, Without(t, os)) == Net(u, os)
  {
    WithoutTotal(Bought, t, u, os);
    WithoutTotal(Sold, t, u, os);
  }

  lemma WithoutHomed(ts: seq<Trade>, t: TradeId, os: seq<Order>)
    requires OrdersOk(ts, os)
    ensures OrdersOk(DropTrade(ts, t), Without(t, os))
  {
    WithoutUnique(t, os);
    var ps, us := Without(t, os), DropTrade(ts, t);
    forall i | 0 <= i < |ps| ensures OrderOk(ps[i]) && Homed(us, ps[i]) {
      WithoutMembers(t, os);
      assert ps[i] in ps;
      var k :| 0 <= k < |os| && os[k] == ps[i];
      assert OrderOk(os[k]) && Homed(ts, os[k]);
      var h :| 0 <= h < |ts| && ts[h].id == ps[i].id.trade && (Working(ps[i]) ==> !Closed(ts[h]));
      DropTradeMembers(ts, t);
      assert ts[h] in us;
    }
  }

  lemma ArchiveOneSound(s: State, t: Trade)
    requires Sound(s)
    ensures Sound(ArchiveOne(s, t))
  {
    hide OrderOk;
    var us := DropTrade(s.trades, t.id);
    DropTradePairs(s.trades, t.id);
    forall day ensures OpenedOn(us, day) <= OpenedOn(s.trades, day) {
      DropTradeCounts(s.trades, t.id, day);
    }
    WithoutHomed(s.trades, t.id, s.orders);
    WithoutInDoubt(t.id, s.orders);
    forall i | 0 <= i < |us| ensures TradeOk(us[i], Without(t.id, s.orders)) {
      DropTradeMembers(s.trades, t.id);
      assert us[i] in us;
      WithoutTrade(t.id, us[i], s.orders);
    }
  }

  lemma {:induction false} DropTradePnl(ts: seq<Trade>, t: Trade)
    requires UniqueTrades(ts) && t in ts && Closed(t)
    ensures ClosedPnl(DropTrade(ts, t.id)) == ClosedPnl(ts) - (if t.buys > 0 then t.netPnl else 0)
  {
    var init, last := ts[..|ts| - 1], ts[|ts| - 1];
    if last == t {
      DropAbsent(init, t.id);
    } else {
      assert t in init;
      DropTradePnl(init, t);
      var rest := DropTrade(init, t.id);
      assert last.id != t.id;
      assert (rest + [last])[..|rest|] == rest;
    }
  }

  lemma {:induction false} DropAbsent(ts: seq<Trade>, id: TradeId)
    requires forall i :: 0 <= i < |ts| ==> ts[i].id != id
    ensures DropTrade(ts, id) == ts
  {
    if ts != [] {
      DropAbsent(ts[..|ts| - 1], id);
      assert ts == ts[..|ts| - 1] + [ts[|ts| - 1]];
    }
  }

  lemma {:induction false} OrdersOfMembers(t: TradeId, os: seq<Order>)
    ensures forall o :: o in OrdersOf(t, os) <==> o in os && o.id.trade == t
  {
    if os != [] {
      OrdersOfMembers(t, os[..|os| - 1]);
      assert os == os[..|os| - 1] + [os[|os| - 1]];
    }
  }

  lemma {:induction false} OrdersOfTotal(m: Measure, t: TradeId, os: seq<Order>)
    ensures Total(m, t, OrdersOf(t, os)) == Total(m, t, os)
  {
    if os != [] {
      var init, last := os[..|os| - 1], os[|os| - 1];
      OrdersOfTotal(m, t, init);
      if last.id.trade == t {
        assert OrdersOf(t, os) == OrdersOf(t, init) + [last];
        TotalAppend(m, t, OrdersOf(t, init), last);
      } else {
        assert OrdersOf(t, os) == OrdersOf(t, init);
      }
    }
  }

  lemma {:induction false} OrdersOfUnique(t: TradeId, os: seq<Order>)
    requires UniqueOrders(os)
    ensures UniqueOrders(OrdersOf(t, os))
  {
    if os != [] {
      var init, last := os[..|os| - 1], os[|os| - 1];
      OrdersOfUnique(t, init);
      var rest := OrdersOf(t, init);
      forall i | 0 <= i < |rest| ensures rest[i].id != last.id {
        OrdersOfMembers(t, init);
        assert rest[i] in rest;
      }
    }
  }

  /** A row of the archive: a closed trade with all of its orders, finished and, unless the owner resolved it, flat. */
  ghost predicate ArchivedWhole(a: ArchiveRow) {
    && Closed(a.trade) && UniqueOrders(a.orders)
    && (forall o :: o in a.orders ==> o.id.trade == a.trade.id && Terminal(o) && OrderOk(o))
    && (!a.trade.resolved ==> Net(a.trade.id, a.orders) == 0)
  }

  predicate InRows(rows: seq<ArchiveRow>, t: Trade) {
    exists a :: a in rows && a.trade == t
  }

  predicate OrderInRows(rows: seq<ArchiveRow>, o: Order) {
    exists a :: a in rows && o in a.orders
  }

  /** What one transaction moved: nothing appears, nothing is lost, and the total result stays what it was. */
  ghost predicate Conserved(s: State, s': State, rows: seq<ArchiveRow>, now: int) {
    && (forall t :: t in s.trades <==> t in s'.trades || InRows(rows, t))
    && (forall o :: o in s.orders <==> o in s'.orders || OrderInRows(rows, o))
    && (forall a, t :: a in rows && t in s'.trades ==> a.trade.id != t.id)
    && (forall i, j :: 0 <= i < j < |rows| ==> rows[i].trade.id != rows[j].trade.id)
    && (forall a :: a in rows ==> ArchivedWhole(a) && a.trade.id.day < Day(now))
    && ClosedPnl(s'.trades) + s'.archivedPnl == ClosedPnl(s.trades) + s.archivedPnl
    && s'.archivedTrades == s.archivedTrades + |rows|
    && s'.policy == s.policy
  }

  lemma ArchivedRow(s: State, t: Trade, now: int)
    requires Sound(s) && t in s.trades && Archivable(s, t, now)
    ensures ArchivedWhole(ArchiveRow(t, OrdersOf(t.id, s.orders)))
  {
    var k :| 0 <= k < |s.trades| && s.trades[k] == t;
    assert TradeOk(s.trades[k], s.orders);
    OrdersOfUnique(t.id, s.orders);
    OrdersOfMembers(t.id, s.orders);
    OrdersOfTotal(Bought, t.id, s.orders);
    OrdersOfTotal(Sold, t.id, s.orders);
  }

  lemma OneOfId(ts: seq<Trade>, t: Trade)
    requires UniqueTrades(ts) && t in ts
    ensures forall u :: u in ts && u.id == t.id ==> u == t
  {
    forall u | u in ts && u.id == t.id ensures u == t {
      var i, j :| 0 <= i < |ts| && 0 <= j < |ts| && ts[i] == u && ts[j] == t;
    }
  }

  /** The trade itself goes, and no other. */
  lemma OneTradeMoves(s: State, t: Trade, row: ArchiveRow)
    requires UniqueTrades(s.trades) && t in s.trades && row.trade == t
    ensures forall u :: u in s.trades <==> u in DropTrade(s.trades, t.id) || InRows([row], u)
    ensures forall u :: u in DropTrade(s.trades, t.id) ==> u.id != t.id
  {
    hide UniqueTrades;
    DropTradeMembers(s.trades, t.id);
    OneOfId(s.trades, t);
    assert row in [row];
  }

  /** Its orders go with it, and no other's. */
  lemma ItsOrdersMove(s: State, t: Trade, row: ArchiveRow)
    requires row.orders == OrdersOf(t.id, s.orders)
    ensures forall o :: o in s.orders <==> o in Without(t.id, s.orders) || OrderInRows([row], o)
  {
    WithoutMembers(t.id, s.orders);
    OrdersOfMembers(t.id, s.orders);
    assert row in [row];
  }

  lemma TradesOnce(s: State)
    requires Sound(s)
    ensures UniqueTrades(s.trades)
  {
  }

  lemma ArchiveOneConserves(s: State, t: Trade, now: int)
    requires Sound(s) && t in s.trades && Archivable(s, t, now)
    ensures Conserved(s, ArchiveOne(s, t), [ArchiveRow(t, OrdersOf(t.id, s.orders))], now)
  {
    hide Sound, UniqueTrades, ArchivedWhole, DropTrade, Without, OrdersOf, ClosedPnl, AllTerminal, InRows, OrderInRows;
    var row := ArchiveRow(t, OrdersOf(t.id, s.orders));
    TradesOnce(s);
    ArchivedRow(s, t, now);
    OneTradeMoves(s, t, row);
    ItsOrdersMove(s, t, row);
    DropTradePnl(s.trades, t);
  }

  lemma ConservedCompose(s: State, s1: State, s2: State, a: ArchiveRow, rows: seq<ArchiveRow>, now: int)
    requires Conserved(s, s1, [a], now) && Conserved(s1, s2, rows, now)
    ensures Conserved(s, s2, [a] + rows, now)
  {
    var all := [a] + rows;
    assert forall r :: r in all <==> r == a || r in rows;
    assert a in [a];
    forall t ensures t in s.trades <==> t in s2.trades || InRows(all, t) {
      assert InRows([a], t) <==> t == a.trade;
      assert InRows(all, t) <==> t == a.trade || InRows(rows, t);
    }
    forall o ensures o in s.orders <==> o in s2.orders || OrderInRows(all, o) {
      assert OrderInRows([a], o) <==> o in a.orders;
      assert OrderInRows(all, o) <==> o in a.orders || OrderInRows(rows, o);
    }
    forall r | r in rows ensures r.trade.id != a.trade.id {
      assert InRows(rows, r.trade);
      assert r.trade in s1.trades;
    }
  }

  lemma ConservedNothing(s: State, now: int)
    ensures Conserved(s, s, [], now)
  {
  }

  /** Archiving at any time, of any number of trades, keeps the record sound and conserves everything. */
  lemma {:induction false} ArchiveConserves(s: State, todo: seq<Trade>, max: nat, now: int)
    requires Sound(s) && UniqueTrades(todo) && forall t :: t in todo ==> t in s.trades
    ensures var (s', rows) := Archive(s, todo, max, now); Sound(s') && Conserved(s, s', rows, now)
    decreases |todo|
  {
    hide Sound, Conserved, ArchiveOne, Archivable;
    if todo == [] || max == 0 {
      ConservedNothing(s, now);
    } else {
      var t := todo[0];
      forall u | u in todo[1..] ensures u in todo && u.id != t.id {
      }
      if !Archivable(s, t, now) {
        ArchiveConserves(s, todo[1..], max, now);
      } else {
        ArchiveOneSound(s, t);
        ArchiveOneConserves(s, t, now);
        StillThere(s, t, todo[1..]);
        ArchiveConserves(ArchiveOne(s, t), todo[1..], max - 1, now);
        var (s', rows) := Archive(ArchiveOne(s, t), todo[1..], max - 1, now);
        ConservedCompose(s, ArchiveOne(s, t), s', ArchiveRow(t, OrdersOf(t.id, s.orders)), rows, now);
      }
    }
  }

  lemma StillThere(s: State, t: Trade, todo: seq<Trade>)
    requires forall u :: u in todo ==> u in s.trades && u.id != t.id
    ensures forall u :: u in todo ==> u in ArchiveOne(s, t).trades
  {
    DropTradeMembers(s.trades, t.id);
  }

  // What moved, in figures.

  /** The results of archived trades that filled. */
  function RowsPnl(rows: seq<ArchiveRow>): int {
    if rows == [] then 0
    else
      var a := rows[|rows| - 1];
      RowsPnl(rows[..|rows| - 1]) + if a.trade.buys > 0 then a.trade.netPnl else 0
  }

  lemma {:induction false} RowsPnlConcat(xs: seq<ArchiveRow>, ys: seq<ArchiveRow>)
    ensures RowsPnl(xs + ys) == RowsPnl(xs) + RowsPnl(ys)
  {
    if ys == [] {
      assert xs + ys == xs;
    } else {
      RowsPnlConcat(xs, ys[..|ys| - 1]);
      assert (xs + ys)[..|xs + ys| - 1] == xs + ys[..|ys| - 1];
    }
  }

  /** Every sum over the orders of a trade is what it was, wherever the trade is now; and so is the archived result. */
  ghost predicate Moved(s: State, s': State, rows: seq<ArchiveRow>) {
    && (forall a, m :: a in rows ==> Total(m, a.trade.id, a.orders) == Total(m, a.trade.id, s.orders))
    && (forall t, m :: t in s'.trades ==> Total(m, t.id, s'.orders) == Total(m, t.id, s.orders))
    && (forall a :: a in rows ==> a.trade in s.trades)
    && s'.archivedPnl == s.archivedPnl + RowsPnl(rows)
  }

  lemma ArchiveOneMoves(s: State, t: Trade)
    requires t in s.trades
    ensures Moved(s, ArchiveOne(s, t), [ArchiveRow(t, OrdersOf(t.id, s.orders))])
  {
    var s', row := ArchiveOne(s, t), ArchiveRow(t, OrdersOf(t.id, s.orders));
    DropTradeMembers(s.trades, t.id);
    assert [row][..0] == [];
    assert RowsPnl([row]) == if t.buys > 0 then t.netPnl else 0;
    hide DropTrade, Without, OrdersOf, Total, RowsPnl;
    forall a, m | a in [row] ensures Total(m, a.trade.id, a.orders) == Total(m, a.trade.id, s.orders) {
      OrdersOfTotal(m, t.id, s.orders);
    }
    forall u, m | u in s'.trades ensures Total(m, u.id, s'.orders) == Total(m, u.id, s.orders) {
      WithoutTotal(m, t.id, u.id, s.orders);
    }
  }

  lemma MovedCompose(s: State, s1: State, s2: State, a: ArchiveRow, rows: seq<ArchiveRow>, now: int)
    requires Moved(s, s1, [a]) && Moved(s1, s2, rows) && Conserved(s, s1, [a], now) && Conserved(s1, s2, rows, now)
    ensures Moved(s, s2, [a] + rows)
  {
    hide Total, ArchivedWhole;
    var all := [a] + rows;
    RowsPnlConcat([a], rows);
    assert a in [a];
    forall r, m | r in all ensures Total(m, r.trade.id, r.orders) == Total(m, r.trade.id, s.orders) {
      if r in rows {
        assert r.trade in s1.trades;
      }
    }
    forall t, m | t in s2.trades ensures Total(m, t.id, s2.orders) == Total(m, t.id, s.orders) {
      assert t in s1.trades;
    }
    forall r | r in all ensures r.trade in s.trades {
      if r in rows {
        assert r.trade in s1.trades;
      }
    }
  }

  /** The sums over a trade's orders go with it into the archive. */
  lemma {:induction false} ArchiveMoves(s: State, todo: seq<Trade>, max: nat, now: int)
    requires Sound(s) && UniqueTrades(todo) && forall t :: t in todo ==> t in s.trades
    ensures var (s', rows) := Archive(s, todo, max, now); Moved(s, s', rows)
    decreases |todo|
  {
    hide Sound, Moved, Conserved, ArchiveOne, Archivable;
    if todo == [] || max == 0 {
      NothingMoves(s);
    } else {
      var t := todo[0];
      forall u | u in todo[1..] ensures u in todo && u.id != t.id {
      }
      if !Archivable(s, t, now) {
        ArchiveMoves(s, todo[1..], max, now);
      } else {
        ArchiveOneSound(s, t);
        ArchiveOneConserves(s, t, now);
        ArchiveOneMoves(s, t);
        StillThere(s, t, todo[1..]);
        ArchiveConserves(ArchiveOne(s, t), todo[1..], max - 1, now);
        ArchiveMoves(ArchiveOne(s, t), todo[1..], max - 1, now);
        var (s', rows) := Archive(ArchiveOne(s, t), todo[1..], max - 1, now);
        MovedCompose(s, ArchiveOne(s, t), s', ArchiveRow(t, OrdersOf(t.id, s.orders)), rows, now);
      }
    }
  }

  lemma NothingMoves(s: State)
    ensures Moved(s, s, [])
  {
  }
}
