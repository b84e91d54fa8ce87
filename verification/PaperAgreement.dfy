/**
 The executor's record and the paper broker's book agree: reconciling with what the paper broker reports raises no
 error, and leaves every order with the fill, the state and the id of its row.
 */
module PaperAgreement {
  import opened Wrappers
  import opened SandboxTypes
  import opened Totals
  import opened SandboxSpec
  import opened SandboxInvariant
  import opened SandboxSteps
  import opened SandboxWorld
  import opened NoOversell
  import opened PaperSpec

  predicate OfDayOrder(o: Order, day: int) {
    o.id.trade.day == day
  }

  /** A row was placed with the order's own terms. */
  predicate Carries(r: PaperRow, o: Order) {
    && r.tag == o.id && r.instrument == Instrument(o.id.trade) && r.quantity == o.quantity && r.price == o.price
    && r.trigger == o.trigger && r.buy == IsBuy(o) && r.stopOrder == o.id.kind.StopKind?
  }

  ghost predicate Explained(os: seq<Order>, rows: seq<PaperRow>, day: int) {
    forall r :: r in rows ==> r.tag.trade.day == day && exists o :: o in os && Carries(r, o)
  }

  predicate SameAsRow(o: Order, r: PaperRow) {
    o.brokerId == Some(r.id) && o.filled == r.filled && StateFromRow(Reported(r)) == Some(o.state)
  }

  /** The record knows no more of an order than its row says; of a finished order it knows all. */
  ghost predicate Tracked(o: Order, rows: seq<PaperRow>) {
    && (o.brokerId.Some? ==> exists r :: r in rows && r.tag == o.id && r.id == o.brokerId.value)
    && (forall r :: r in rows && r.tag == o.id ==>
          o.filled <= r.filled && o.state != Queued && (Terminal(o) ==> SameAsRow(o, r)))
  }

  ghost predicate AllTracked(os: seq<Order>, rows: seq<PaperRow>, day: int) {
    forall o :: o in os && OfDayOrder(o, day) ==> Tracked(o, rows)
  }

  /** The record knows everything the rows say. */
  ghost predicate Settled(o: Order, rows: seq<PaperRow>) {
    && (forall r :: r in rows && r.tag == o.id ==> SameAsRow(o, r))
    && ((forall r :: r in rows ==> r.tag != o.id) ==> o.filled == 0)
  }

  /** Trades of other days are closed; none of today was resolved by hand. */
  ghost predicate TodayOnly(ts: seq<Trade>, day: int) {
    forall t :: t in ts ==> if t.id.day == day then !t.resolved else Closed(t)
  }

  // One order against the book.

  lemma ReportMembers(rows: seq<PaperRow>)
    ensures forall r :: r in rows ==> Reported(r) in Report(rows)
    ensures forall b :: b in Report(rows) ==> exists r :: r in rows && Reported(r) == b
  {
    forall r | r in rows ensures Reported(r) in Report(rows) {
      var i :| 0 <= i < |rows| && rows[i] == r;
      assert Report(rows)[i] == Reported(r);
    }
    forall b | b in Report(rows) ensures exists r :: r in rows && Reported(r) == b {
      var i :| 0 <= i < |rows| && Report(rows)[i] == b;
      assert rows[i] in rows;
    }
  }

  lemma {:induction false} NoRowFor(o: Order, book: seq<BookRow>)
    requires forall b :: b in book ==> !Concerns(b, o)
    ensures RowsFor(o, book) == []
  {
    if book != [] {
      NoRowFor(o, book[..|book| - 1]);
      assert book[|book| - 1] in book;
    }
  }

  lemma {:induction false} OneRowFor(o: Order, book: seq<BookRow>, k: nat)
    requires k < |book| && Concerns(book[k], o) && forall j :: 0 <= j < |book| && j != k ==> !Concerns(book[j], o)
    ensures RowsFor(o, book) == [book[k]]
  {
    var init := book[..|book| - 1];
    if k == |book| - 1 {
      NoRowFor(o, init);
    } else {
      OneRowFor(o, init, k);
    }
  }

  /** The book holds at most one row of an order, and it is the one that carries its tag. */
  lemma RowOfOrder(o: Order, rows: seq<PaperRow>, day: int)
    requires BookOk(rows) && Tracked(o, rows) && forall r :: r in rows ==> r.day == day
    ensures (forall r :: r in rows ==> r.tag != o.id) ==> RowsFor(o, Report(rows)) == []
    ensures forall r :: r in rows && r.tag == o.id ==> RowsFor(o, Report(rows)) == [Reported(r)]
  {
    var book := Report(rows);
    forall i, j | 0 <= i < j < |rows| ensures rows[i].tag != rows[j].tag {
      assert rows[i] in rows && rows[j] in rows;
    }
    if forall r :: r in rows ==> r.tag != o.id {
      forall b | b in book ensures !Concerns(b, o) {
        ReportMembers(rows);
      }
      NoRowFor(o, book);
    }
    forall r | r in rows && r.tag == o.id ensures RowsFor(o, book) == [Reported(r)] {
      var k :| 0 <= k < |rows| && rows[k] == r;
      if o.brokerId.Some? {
        var q :| q in rows && q.tag == o.id && q.id == o.brokerId.value;
        var j :| 0 <= j < |rows| && rows[j] == q;
        assert q == r;
      }
      forall j | 0 <= j < |book| && j != k ensures !Concerns(book[j], o) {
        assert rows[j].tag != rows[k].tag && rows[j].id != rows[k].id;
      }
      assert Concerns(book[k], o);
      OneRowFor(o, book, k);
    }
  }

  lemma CarriesMatches(o: Order, r: PaperRow)
    requires Carries(r, o) && RowOk(r) && o.filled <= r.filled
    ensures RowMatches(Reported(r), o) && StateFromRow(Reported(r)).Some?
  {
  }

  lemma AdoptSettles(o: Order, r: PaperRow, state: OrderState, now: int)
    requires StateFromRow(Reported(r)) == Some(state) && RowOk(r)
    ensures var j := Adopt(o, Reported(r), state, now); j.Judged? && j.order.id == o.id && SameAsRow(j.order, r)
  {
  }

  /** Judging an order by its one row never fails, and leaves it saying what the row says. */
  lemma JudgeByRow(o: Order, closed: bool, book: seq<BookRow>, r: PaperRow, now: int)
    requires RowsFor(o, book) == [Reported(r)] && Carries(r, o) && RowOk(r)
    requires o.filled <= r.filled && o.state != Queued && (Terminal(o) ==> SameAsRow(o, r))
    ensures var j := JudgeOrder(o, closed, book, now);
      if j.Judged? then j.order.id == o.id && SameAsRow(j.order, r) else j == Skip && SameAsRow(o, r)
  {
    hide RowsFor, Adopt;
    CarriesMatches(o, r);
    AdoptSettles(o, r, StateFromRow(Reported(r)).value, now);
  }

  lemma JudgeWithoutRow(o: Order, closed: bool, book: seq<BookRow>, now: int)
    requires RowsFor(o, book) == []
    ensures var j := JudgeOrder(o, closed, book, now); j == Skip || j == Unmatched
  {
  }

  lemma OneRowPerTag(rows: seq<PaperRow>, day: int, r: PaperRow)
    requires BookOk(rows) && r in rows && forall q :: q in rows ==> q.day == day
    ensures forall q :: q in rows && q.tag == r.tag ==> q == r
  {
    forall q | q in rows && q.tag == r.tag ensures q == r {
      var i, k :| 0 <= i < |rows| && 0 <= k < |rows| && rows[i] == q && rows[k] == r;
    }
  }

  /** Judging an order by the paper book never fails, and leaves it settled. */
  lemma JudgeAgrees(o: Order, closed: bool, rows: seq<PaperRow>, day: int, now: int)
    requires BookOk(rows) && Tracked(o, rows) && OrderOk(o) && forall r :: r in rows ==> r.day == day
    requires forall r :: r in rows && r.tag == o.id ==> Carries(r, o)
    ensures var j := JudgeOrder(o, closed, Report(rows), now);
      && !j.Failed?
      && Settled(if j.Judged? then j.order else o, rows)
  {
    hide JudgeOrder, Carries, SameAsRow, RowsFor;
    RowOfOrder(o, rows, day);
    if r :| r in rows && r.tag == o.id {
      JudgeByRow(o, closed, Report(rows), r, now);
      OneRowPerTag(rows, day, r);
    } else {
      JudgeWithoutRow(o, closed, Report(rows), now);
    }
  }

  /** The orders of another day belong to closed trades, so the book is not asked about them. */
  lemma EarlierSkipped(s: State, o: Order, book: seq<BookRow>, now: int, day: int)
    requires Sound(s) && TodayOnly(s.trades, day) && o in s.orders && !OfDayOrder(o, day)
    ensures Terminal(o) && JudgeOrder(o, TradeClosedIn(s.trades, o.id.trade), book, now) == Skip
  {
    var k :| 0 <= k < |s.orders| && s.orders[k] == o;
    assert Homed(s.trades, s.orders[k]);
    var h :| 0 <= h < |s.trades| && s.trades[h].id == o.id.trade && (Working(o) ==> !Closed(s.trades[h]));
    assert s.trades[h] in s.trades;
  }

  // All orders against the book.

  ghost predicate Agreeing(s: State, rows: seq<PaperRow>, day: int) {
    && Sound(s) && TodayOnly(s.trades, day) && BookOk(rows) && (forall r :: r in rows ==> r.day == day)
    && Explained(s.orders, rows, day) && AllTracked(s.orders, rows, day)
  }

  lemma SameTerms(s: State, rows: seq<PaperRow>, day: int, o: Order)
    requires Agreeing(s, rows, day) && o in s.orders
    ensures forall r :: r in rows && r.tag == o.id ==> Carries(r, o)
  {
    forall r | r in rows && r.tag == o.id ensures Carries(r, o) {
      var p :| p in s.orders && Carries(r, p);
      var i, j :| 0 <= i < |s.orders| && 0 <= j < |s.orders| && s.orders[i] == o && s.orders[j] == p;
    }
  }

  lemma OrderAgrees(s: State, rows: seq<PaperRow>, day: int, o: Order, now: int)
    requires Agreeing(s, rows, day) && o in s.orders
    ensures !JudgeOrder(o, TradeClosedIn(s.trades, o.id.trade), Report(rows), now).Failed?
    ensures OfDayOrder(o, day) ==> Settled(AfterBook(s.trades, o, Report(rows), now), rows)
  {
    if OfDayOrder(o, day) {
      SameTerms(s, rows, day, o);
      var k :| 0 <= k < |s.orders| && s.orders[k] == o;
      OrderOkAt(s, k);
      hide Sound;
      JudgeAgrees(o, TradeClosedIn(s.trades, o.id.trade), rows, day, now);
    } else {
      EarlierSkipped(s, o, Report(rows), now, day);
    }
  }

  /** No order fails, so the whole loop over the orders succeeds. */
  lemma {:induction false} OrdersAgree(s: State, i: nat, book: seq<BookRow>, now: int)
    requires i <= |s.orders|
    requires forall k :: i <= k < |s.orders| ==>
      !JudgeOrder(s.orders[k], TradeClosedIn(s.trades, s.orders[k].id.trade), book, now).Failed?
    ensures ReconcileOrders(s, i, book, now, false).Ok?
    decreases |s.orders| - i
  {
    hide JudgeOrder, AfterBook;
    if i < |s.orders| {
      ReconcileOrderShape(s, i, book, now, false);
      OrdersAgree(ReconcileOrder(s, i, book, now, false).value, i + 1, book, now);
    }
  }

  // The trades.

  lemma {:induction false} SoldWithinCommitted(t: TradeId, os: seq<Order>)
    requires forall o :: o in os ==> OrderOk(o)
    ensures Total(Sold, t, os) <= Total(Committed, t, os)
  {
    if os != [] {
      SoldWithinCommitted(t, os[..|os| - 1]);
      assert os[|os| - 1] in os;
    }
  }

  lemma NetNotNegative(s: State, i: nat)
    requires Sound(s) && i < |s.trades|
    ensures 0 <= Net(s.trades[i].id, s.orders)
  {
    assert TradeOk(s.trades[i], s.orders);
    forall o | o in s.orders ensures OrderOk(o) {
      var k :| 0 <= k < |s.orders| && s.orders[k] == o;
    }
    SoldWithinCommitted(s.trades[i].id, s.orders);
  }

  /** A sound record is never oversold, so settling the trades succeeds. */
  lemma {:induction false} TradesAgree(s: State, i: nat, now: int)
    requires Sound(s) && i <= |s.trades|
    ensures ReconcileTrades(s, i, now).Ok?
    decreases |s.trades| - i
  {
    hide Sound, Net, Close;
    if i < |s.trades| {
      NetNotNegative(s, i);
      ReconcileTradeSound(s, i, now);
      TradesAgree(ReconcileTrade(s, i, now).value, i + 1, now);
    }
  }

  // The positions.

  function Kept(r: PaperRow): Row {
    Row(r.id, r.tag, r.quantity, r.filled, !WorkingRow(r))
  }

  function KeptAll(rows: seq<PaperRow>): seq<Row> {
    seq(|rows|, i requires 0 <= i < |rows| => Kept(rows[i]))
  }

  function RowNet(rows: seq<PaperRow>, t: TradeId): int {
    if rows == [] then 0 else
      var r := rows[|rows| - 1];
      RowNet(rows[..|rows| - 1], t) + if r.tag.trade == t then Signed(r) else 0
  }

  lemma {:induction false} RowNetFilled(rows: seq<PaperRow>, t: TradeId)
    requires forall r :: r in rows ==> r.buy == r.tag.kind.EntryKind?
    ensures RowNet(rows, t) == Filled(KeptAll(rows), t, true) - Filled(KeptAll(rows), t, false)
  {
    if rows != [] {
      var init, r := rows[..|rows| - 1], rows[|rows| - 1];
      RowNetFilled(init, t);
      assert KeptAll(rows)[..|rows| - 1] == KeptAll(init);
      assert r in rows;
    }
  }

  lemma SettledFill(o: Order, rows: seq<PaperRow>)
    requires Settled(o, rows) && forall i, j :: 0 <= i < j < |rows| ==> rows[i].tag != rows[j].tag
    ensures FilledAs(KeptAll(rows), o.id) == o.filled
  {
    var ks := KeptAll(rows);
    FilledAsIs(ks, o.id);
    if r :| r in rows && r.tag == o.id {
      var i :| 0 <= i < |rows| && rows[i] == r;
      assert ks[i] in ks;
    } else {
      forall k | k in ks ensures k.tag != o.id {
        var i :| 0 <= i < |ks| && ks[i] == k;
        assert rows[i] in rows;
      }
    }
  }

  lemma {:induction false} SettledTotals(os: seq<Order>, rows: seq<PaperRow>, t: TradeId)
    requires forall i, j :: 0 <= i < j < |rows| ==> rows[i].tag != rows[j].tag
    requires forall o :: o in os && o.id.trade == t ==> Settled(o, rows)
    ensures FilledFor(os, KeptAll(rows), t, true) == Total(Bought, t, os)
    ensures FilledFor(os, KeptAll(rows), t, false) == Total(Sold, t, os)
  {
    hide Settled;
    if os != [] {
      var init, o := os[..|os| - 1], os[|os| - 1];
      SettledTotals(init, rows, t);
      if o.id.trade == t {
        SettledFill(o, rows);
      }
    }
  }

  /** Of a settled trade, the record holds what its rows say. */
  lemma NetIsRowNet(os: seq<Order>, rows: seq<PaperRow>, t: TradeId, day: int)
    requires UniqueOrders(os) && BookOk(rows) && (forall r :: r in rows ==> r.day == day) && Explained(os, rows, day)
    requires forall o :: o in os && o.id.trade == t ==> Settled(o, rows)
    ensures Net(t, os) == RowNet(rows, t)
  {
    forall i, j | 0 <= i < j < |rows| ensures rows[i].tag != rows[j].tag {
      assert rows[i] in rows && rows[j] in rows;
    }
    hide Settled;
    var ks := KeptAll(rows);
    forall k | k in ks ensures exists o :: o in os && o.id == k.tag {
      var i :| 0 <= i < |ks| && ks[i] == k;
      assert rows[i] in rows;
    }
    SettledTotals(os, rows, t);
    FilledMatches(os, ks, t, true);
    FilledMatches(os, ks, t, false);
    RowNetFilled(rows, t);
  }

  lemma {:induction false} NoRowsNoNet(rows: seq<PaperRow>, t: TradeId)
    requires forall r :: r in rows ==> r.tag.trade != t
    ensures RowNet(rows, t) == 0
  {
    if rows != [] {
      NoRowsNoNet(rows[..|rows| - 1], t);
      assert rows[|rows| - 1] in rows;
    }
  }

  /** The rows' net quantity of an instrument, added up trade by trade. */
  function NetOver(ts: seq<Trade>, rows: seq<PaperRow>, instrument: string): int {
    if ts == [] then 0 else
      var t := ts[|ts| - 1];
      NetOver(ts[..|ts| - 1], rows, instrument) + if Instrument(t.id) == instrument then RowNet(rows, t.id) else 0
  }

  lemma {:induction false} NetOverNothing(ts: seq<Trade>, instrument: string)
    ensures NetOver(ts, [], instrument) == 0
  {
    if ts != [] {
      NetOverNothing(ts[..|ts| - 1], instrument);
    }
  }

  lemma RowNetAdd(rows: seq<PaperRow>, r: PaperRow, t: TradeId)
    ensures RowNet(rows + [r], t) == RowNet(rows, t) + if r.tag.trade == t then Signed(r) else 0
  {
    assert (rows + [r])[..|rows|] == rows;
  }

  lemma {:induction false} NetOverAdd(ts: seq<Trade>, rows: seq<PaperRow>, r: PaperRow, instrument: string)
    requires UniqueTrades(ts)
    ensures NetOver(ts, rows + [r], instrument) ==
            NetOver(ts, rows, instrument) + if HasTrade(ts, r.tag.trade) && Instrument(r.tag.trade) == instrument
              then Signed(r) else 0
  {
    if ts != [] {
      var init, t := ts[..|ts| - 1], ts[|ts| - 1];
      NetOverAdd(init, rows, r, instrument);
      RowNetAdd(rows, r, t.id);
      assert forall u :: u in ts <==> u in init || u == t;
      if t.id == r.tag.trade {
        forall u | u in init ensures u.id != t.id {
          var k :| 0 <= k < |init| && init[k] == u;
          assert ts[k] == u;
        }
      }
    }
  }

  lemma {:induction false} BookNetOver(ts: seq<Trade>, rows: seq<PaperRow>, instrument: string)
    requires UniqueTrades(ts)
    requires forall r :: r in rows ==> HasTrade(ts, r.tag.trade) && r.instrument == Instrument(r.tag.trade)
    ensures BookNet(rows, instrument) == NetOver(ts, rows, instrument)
  {
    if rows == [] {
      NetOverNothing(ts, instrument);
    } else {
      var init, r := rows[..|rows| - 1], rows[|rows| - 1];
      BookNetOver(ts, init, instrument);
      assert init + [r] == rows && r in rows;
      NetOverAdd(ts, init, r, instrument);
    }
  }

  ghost predicate TradeAgrees(t: Trade, os: seq<Order>, rows: seq<PaperRow>) {
    RowNet(rows, t.id) == if t.resolved then 0 else Net(t.id, os)
  }

  lemma {:induction false} ExpectedIsNetOver(ts: seq<Trade>, os: seq<Order>, rows: seq<PaperRow>, instrument: string)
    requires forall t :: t in ts ==> TradeAgrees(t, os, rows)
    ensures Expected(ts, os, instrument) == NetOver(ts, rows, instrument)
  {
    if ts != [] {
      ExpectedIsNetOver(ts[..|ts| - 1], os, rows, instrument);
      assert ts[|ts| - 1] in ts;
    }
  }

  /** After the orders are settled, each trade holds what its rows say; trades of other days hold nothing. */
  lemma TradesAgreeWithRows(s: State, rows: seq<PaperRow>, day: int, t: Trade)
    requires Sound(s) && TodayOnly(s.trades, day) && BookOk(rows) && (forall r :: r in rows ==> r.day == day)
    requires Explained(s.orders, rows, day) && t in s.trades
    requires forall o :: o in s.orders && OfDayOrder(o, day) ==> Settled(o, rows)
    ensures TradeAgrees(t, s.orders, rows)
  {
    if t.id.day == day {
      NetIsRowNet(s.orders, rows, t.id, day);
    } else {
      NoRowsNoNet(rows, t.id);
      var k :| 0 <= k < |s.trades| && s.trades[k] == t;
      assert TradeOk(s.trades[k], s.orders);
    }
  }

  lemma RowsHaveTrades(s: State, rows: seq<PaperRow>, day: int)
    requires Sound(s) && Explained(s.orders, rows, day)
    ensures forall r :: r in rows ==> HasTrade(s.trades, r.tag.trade) && r.instrument == Instrument(r.tag.trade)
  {
    forall r | r in rows ensures HasTrade(s.trades, r.tag.trade) {
      var o :| o in s.orders && Carries(r, o);
      HotOrderHasTrade(s, o);
    }
  }

  lemma ExpectedIsBookNet(s: State, rows: seq<PaperRow>, day: int, instrument: string)
    requires Sound(s) && TodayOnly(s.trades, day) && BookOk(rows) && (forall r :: r in rows ==> r.day == day)
    requires Explained(s.orders, rows, day)
    requires forall o :: o in s.orders && OfDayOrder(o, day) ==> Settled(o, rows)
    ensures Expected(s.trades, s.orders, instrument) == BookNet(rows, instrument)
  {
    RowsHaveTrades(s, rows, day);
    forall t | t in s.trades ensures TradeAgrees(t, s.orders, rows) {
      TradesAgreeWithRows(s, rows, day, t);
    }
    ExpectedIsNetOver(s.trades, s.orders, rows, instrument);
    BookNetOver(s.trades, rows, instrument);
  }

  // All together.

  predicate AllIntraday(ps: seq<Position>) {
    forall p :: p in ps ==> p.intraday
  }

  predicate HeldAsBooked(ps: seq<Position>, rows: seq<PaperRow>, instrument: string) {
    Held(ps, instrument) == BookNet(rows, instrument)
  }

  /** The positions are those of the book, as they are whenever no fill came between the two reads. */
  ghost predicate NetsMatch(ps: seq<Position>, rows: seq<PaperRow>) {
    forall instrument: string :: HeldAsBooked(ps, rows, instrument)
  }

  predicate HeldAsExpected(s: State, ps: seq<Position>, instrument: string) {
    Expected(s.trades, s.orders, instrument) == Held(ps, instrument)
  }

  lemma {:induction false} NothingHeld(ps: seq<Position>, instrument: string)
    requires forall p :: p in ps ==> p.instrument != instrument
    ensures Held(ps, instrument) == 0
  {
    if ps != [] {
      NothingHeld(ps[..|ps| - 1], instrument);
      assert ps[|ps| - 1] in ps;
    }
  }

  lemma {:induction false} NothingExpected(ts: seq<Trade>, os: seq<Order>, instrument: string)
    requires forall t :: t in ts && !t.resolved ==> Instrument(t.id) != instrument
    ensures Expected(ts, os, instrument) == 0
  {
    if ts != [] {
      NothingExpected(ts[..|ts| - 1], os, instrument);
      assert ts[|ts| - 1] in ts;
    }
  }

  /** The check looks at the instruments of either side only; of any other, nothing is held and nothing expected. */
  lemma AgreeEverywhere(s: State, ps: seq<Position>)
    ensures PositionsAgree(s, ps) <==> forall instrument: string :: HeldAsExpected(s, ps, instrument)
  {
    if PositionsAgree(s, ps) {
      forall instrument: string ensures HeldAsExpected(s, ps, instrument) {
        if !(exists t :: t in s.trades && !t.resolved && Instrument(t.id) == instrument)
           && !(exists p :: p in ps && p.instrument == instrument) {
          NothingHeld(ps, instrument);
          NothingExpected(s.trades, s.orders, instrument);
        }
      }
    } else if t :| t in s.trades && !t.resolved && !HeldAsExpected(s, ps, Instrument(t.id)) {
    } else {
      var p :| p in ps && !HeldAsExpected(s, ps, p.instrument);
    }
  }

  lemma StillExplained(os: seq<Order>, ps: seq<Order>, rows: seq<PaperRow>, book: seq<BookRow>, day: int)
    requires Explained(os, rows, day) && AllHeard(os, ps, book)
    ensures Explained(ps, rows, day)
  {
    forall r | r in rows ensures exists p :: p in ps && Carries(r, p) {
      var o :| o in os && Carries(r, o);
      var k :| 0 <= k < |os| && os[k] == o;
      assert Heard(os[k], ps[k], book);
      assert ps[k] in ps && Carries(r, ps[k]);
    }
  }

  lemma AllOwned(os: seq<Order>, rows: seq<PaperRow>, day: int)
    requires Explained(os, rows, day) && forall o :: o in os && OfDayOrder(o, day) ==> Settled(o, rows)
    ensures forall b :: b in Report(rows) ==> Owned(b, os)
  {
    forall b | b in Report(rows) ensures Owned(b, os) {
      ReportMembers(rows);
      var r :| r in rows && Reported(r) == b;
      var o :| o in os && Carries(r, o);
      assert Settled(o, rows) && o.brokerId == Some(b.orderId);
    }
  }

  lemma ReportValid(rows: seq<PaperRow>)
    requires BookOk(rows)
    ensures ValidBook(Report(rows))
  {
    forall b | b in Report(rows) ensures b.orderId != "" {
      ReportMembers(rows);
      var r :| r in rows && Reported(r) == b;
      assert RowOk(r);
    }
  }

  /** What a finished row said, it still says. */
  lemma PaperFinishedStay(s: State, rows: seq<PaperRow>, day: int)
    requires Agreeing(s, rows, day)
    ensures FinishedStay(s, Report(rows))
  {
    forall k, b | 0 <= k < |s.orders| && b in Report(rows) && Terminal(s.orders[k]) && s.orders[k].state != Expired
                  && !TradeClosedIn(s.trades, s.orders[k].id.trade) && Concerns(b, s.orders[k])
                     && RowMatches(b, s.orders[k])
      ensures b.filled == s.orders[k].filled
    {
      var o := s.orders[k];
      if !OfDayOrder(o, day) {
        EarlierSkipped(s, o, Report(rows), 0, day);
      }
      ReportMembers(rows);
      var r :| r in rows && Reported(r) == b;
      assert o in s.orders && Tracked(o, rows);
    }
  }

  /** The state between the two loops: every order heard, each of today settled. */
  lemma OrdersSettle(s: State, rows: seq<PaperRow>, day: int, now: int)
    requires Agreeing(s, rows, day)
    ensures var r := ReconcileOrders(s, 0, Report(rows), now, false);
      && r.Ok? && Sound(r.value) && r.value.trades == s.trades && AllHeard(s.orders, r.value.orders, Report(rows))
      && Explained(r.value.orders, rows, day)
      && forall o :: o in r.value.orders && OfDayOrder(o, day) ==> Settled(o, rows)
  {
    var book := Report(rows);
    forall k | 0 <= k < |s.orders|
      ensures !JudgeOrder(s.orders[k], TradeClosedIn(s.trades, s.orders[k].id.trade), book, now).Failed?
      ensures OfDayOrder(s.orders[k], day) ==> Settled(AfterBook(s.trades, s.orders[k], book, now), rows)
    {
      assert s.orders[k] in s.orders;
      OrderAgrees(s, rows, day, s.orders[k], now);
    }
    OrdersAgree(s, 0, book, now);
    PaperFinishedStay(s, rows, day);
    ReconcileOrdersShape(s, 0, book, now, false);
    ReconcileOrdersSound(s, book, now, false);
    hide Sound, JudgeOrder, AfterBook, Settled;
    var s1 := ReconcileOrders(s, 0, book, now, false).value;
    StillExplained(s.orders, s1.orders, rows, book, day);
    forall o | o in s1.orders && OfDayOrder(o, day) ensures Settled(o, rows) {
      var k :| 0 <= k < |s1.orders| && s1.orders[k] == o;
      assert Heard(s.orders[k], s1.orders[k], book);
    }
  }

  /**
   Settling the trades leaves them holding what the book says, so the positions agree exactly when they do with that.
   */
  lemma PositionsMatch(s1: State, rows: seq<PaperRow>, ps: seq<Position>, day: int, now: int)
    requires Sound(s1) && TodayOnly(s1.trades, day) && BookOk(rows) && (forall r :: r in rows ==> r.day == day)
    requires Explained(s1.orders, rows, day)
    requires forall o :: o in s1.orders && OfDayOrder(o, day) ==> Settled(o, rows)
    ensures var r := ReconcileTrades(s1, 0, now);
      r.Ok? && (PositionsAgree(r.value, ps) <==> NetsMatch(ps, rows)) && TodayOnly(r.value.trades, day)
  {
    hide Sound, Settled, BookOk, Expected;
    TradesAgree(s1, 0, now);
    ReconcileTradesSound(s1, 0, now);
    ClosedStay(s1, 0, now);
    var s2 := ReconcileTrades(s1, 0, now).value;
    ClosingToday(s1.trades, s2.trades, day);
    AgreeEverywhere(s2, ps);
    forall instrument: string ensures HeldAsExpected(s2, ps, instrument) <==> HeldAsBooked(ps, rows, instrument) {
      ExpectedIsBookNet(s2, rows, day, instrument);
    }
  }

  lemma {:induction false} ClosedStay(s: State, i: nat, now: int)
    requires i <= |s.trades|
    ensures var r := ReconcileTrades(s, i, now);
      r.Ok? ==> |r.value.trades| == |s.trades| && forall k :: 0 <= k < |s.trades| && Closed(s.trades[k]) ==>
        Closed(r.value.trades[k])
    decreases |s.trades| - i
  {
    hide Net, DayPnl, NetResult, Total;
    if i < |s.trades| {
      var r := ReconcileTrade(s, i, now);
      if r.Ok? {
        ClosedStay(r.value, i + 1, now);
      }
    }
  }

  /**
   Reconciling with the paper broker's rows and positions raises none of the errors a broker could cause but one, and
   that one exactly when the positions are not those of the rows. If it goes through, every order of today that has a
   row has its fill, its state and its id.
   */
  lemma ReconcileAgrees(s: State, rows: seq<PaperRow>, ps: seq<Position>, day: int, now: int)
    requires Agreeing(s, rows, day) && AllIntraday(ps)
    ensures var r := Reconcile(s, Report(rows), Some(ps), now);
      && (if NetsMatch(ps, rows) then r.Ok? else r == Err(BrokerPositionMismatch))
      && (r.Ok? ==>
            && TodayOnly(r.value.trades, day)
            && AllHeard(s.orders, r.value.orders, Report(rows))
            && forall o :: o in r.value.orders && OfDayOrder(o, day) ==> Settled(o, rows))
  {
    hide Sound, Settled, BookOk, ReconcileOrders, ReconcileTrades, PositionsAgree, Report, ValidBook;
    hide AllTracked, TodayOnly, Explained, AllHeard, NetsMatch;
    OrdersSettle(s, rows, day, now);
    var s1 := ReconcileOrders(s, 0, Report(rows), now, false).value;
    ReportValid(rows);
    AllOwned(s1.orders, rows, day);
    PositionsMatch(s1, rows, ps, day, now);
  }

  lemma ClosingToday(ts: seq<Trade>, us: seq<Trade>, day: int)
    requires TodayOnly(ts, day) && SameButClosing(ts, us)
    requires forall i :: 0 <= i < |ts| && Closed(ts[i]) ==> Closed(us[i])
    ensures TodayOnly(us, day)
  {
    forall u | u in us ensures if u.id.day == day then !u.resolved else Closed(u) {
      var i :| 0 <= i < |us| && us[i] == u;
      assert ts[i] in ts;
    }
  }
}
