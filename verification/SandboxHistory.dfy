/**
 The whole history on every run: no trade is ever lost or kept twice, a closed trade never changes again, the archive
 only grows, and the result behind the capital ceiling is the sum over every trade that ever filled and closed.
 */
module SandboxHistory {
  import opened Wrappers
  import opened SandboxTypes
  import opened SandboxSpec
  import opened SandboxInvariant
  import opened SandboxSteps
  import opened SandboxArchive
  import opened SandboxService
  import opened SandboxWorld
  import opened SandboxRuns

  /** A trade keeps what it was planned with; once closed, it keeps everything. */
  predicate Keeps(t: Trade, u: Trade) {
    && u == t.(exitReason := u.exitReason, closedAt := u.closedAt, netPnl := u.netPnl, buys := u.buys,
       resolved := u.resolved)
    && (Closed(t) ==> u == t)
  }

  /** No trade leaves the record, and nothing is booked as archived. */
  ghost predicate BooksGrown(s: State, s': State) {
    && |s.trades| <= |s'.trades|
    && (forall i :: 0 <= i < |s.trades| ==> Keeps(s.trades[i], s'.trades[i]))
    && s'.archivedPnl == s.archivedPnl && s'.archivedTrades == s.archivedTrades
    && s'.policy.capital == s.policy.capital
  }

  ghost predicate BooksKept(s: State, s': State) {
    BooksGrown(s, s') && |s'.trades| == |s.trades|
  }

  lemma SameBooks(s: State, s': State)
    requires s'.trades == s.trades && s'.archivedPnl == s.archivedPnl && s'.archivedTrades == s.archivedTrades
    requires s'.policy.capital == s.policy.capital
    ensures BooksKept(s, s')
  {
  }

  lemma BooksThen(s: State, m: State, s': State)
    requires BooksKept(s, m) && BooksKept(m, s')
    ensures BooksKept(s, s')
  {
    forall i | 0 <= i < |s.trades| ensures Keeps(s.trades[i], s'.trades[i]) {
      assert Keeps(s.trades[i], m.trades[i]) && Keeps(m.trades[i], s'.trades[i]);
    }
  }

  // The steps of the record.

  lemma ControlBooks(s: State, operation: Operation, requestId: string, now: int)
    ensures var r := Control(s, operation, requestId, now); r.Ok? ==> BooksKept(s, r.value)
  {
    hide ValidRequest, Reconciled, AnyWorking, AnyOpen;
  }

  lemma PolicyBooks(s: State, loss: int, risk: Option<int>, losses: Option<int>, requestId: string, now: int)
    ensures var r := ConfigurePolicy(s, loss, risk, losses, requestId, now); r.Ok? ==> BooksKept(s, r.value)
  {
    hide ValidRequest, AnyWorking, AnyOpen, DayPnl;
  }

  lemma ResolveBooks(s: State, id: TradeId, reason: string, requestId: string, now: int)
    ensures var r := ResolveTrade(s, id, reason, requestId, now); r.Ok? ==> BooksKept(s, r.value)
  {
    hide ValidRequest, TrimmedLength, NetResult, ExpireTrade, SessionClose;
  }

  lemma AcquireBooks(s: State, x: string, now: int)
    ensures Acquire(s, x, now).Some? ==> BooksKept(s, Acquire(s, x, now).value)
  {
    hide InterruptAll;
  }

  lemma AdvisedBooks(s: State, inputs: TickInputs, now: int)
    ensures BooksKept(s, Advised(s, inputs, now))
  {
  }

  lemma PlannedBooks(s: State, inputs: TickInputs, now: int)
    ensures BooksGrown(s, Planned(s, inputs, now))
  {
    hide PlanVerdict, PricesOf, NewOrder;
  }

  lemma ClaimedBooks(s: State, now: int, allowed: bool)
    requires EntriesHaveTrades(s)
    ensures BooksKept(s, Claim(s, now, allowed).0)
  {
    hide FirstCancelDue, FirstQueued, FirstSendable, LapseBefore, InFlight, EntriesHaveTrades;
  }

  lemma FailBooks(s: State, x: string, grace: bool, now: int)
    ensures BooksKept(s, FailTick(s, x, grace, now).0)
  {
    hide Flat, FirstEmergency;
  }

  lemma RecordBooks(s: State, x: string, a: Action, reply: Reply)
    ensures BooksKept(s, Record(s, x, a, reply))
  {
    hide OrderIndex;
  }

  lemma GiveUpBooks(s: State, id: OrderId)
    ensures GiveUp(s, id).Some? ==> BooksKept(s, GiveUp(s, id).value)
  {
    hide OrderIndex;
  }

  // Reconciling.

  lemma ReconcileOrderBooks(s: State, i: nat, book: seq<BookRow>, now: int, derived: bool)
    requires i < |s.orders|
    ensures var r := ReconcileOrder(s, i, book, now, derived);
      r.Ok? ==> BooksKept(s, r.value) && |r.value.orders| == |s.orders|
  {
    hide JudgeOrder, TradeClosedIn;
  }

  lemma {:induction false} ReconcileOrdersBooks(s: State, i: nat, book: seq<BookRow>, now: int, derived: bool)
    requires i <= |s.orders|
    ensures var r := ReconcileOrders(s, i, book, now, derived); r.Ok? ==> BooksKept(s, r.value)
    decreases |s.orders| - i
  {
    hide ReconcileOrder, BooksKept;
    SameBooks(s, s);
    if i < |s.orders| {
      var r := ReconcileOrder(s, i, book, now, derived);
      ReconcileOrderBooks(s, i, book, now, derived);
      if r.Ok? {
        ReconcileOrdersBooks(r.value, i + 1, book, now, derived);
        var r' := ReconcileOrders(r.value, i + 1, book, now, derived);
        if r'.Ok? {
          BooksThen(s, r.value, r'.value);
        }
      }
    }
  }

  lemma ReconcileTradeBooks(s: State, i: nat, now: int)
    requires i < |s.trades|
    ensures var r := ReconcileTrade(s, i, now); r.Ok? ==> BooksKept(s, r.value)
  {
    hide DayPnl, NetResult, AllTerminal;
  }

  lemma {:induction false} ReconcileTradesBooks(s: State, i: nat, now: int)
    requires i <= |s.trades|
    ensures var r := ReconcileTrades(s, i, now); r.Ok? ==> BooksKept(s, r.value)
    decreases |s.trades| - i
  {
    hide ReconcileTrade, BooksKept;
    SameBooks(s, s);
    if i < |s.trades| {
      var r := ReconcileTrade(s, i, now);
      ReconcileTradeBooks(s, i, now);
      if r.Ok? {
        ReconcileTradeLength(s, i, now);
        ReconcileTradesBooks(r.value, i + 1, now);
        var r' := ReconcileTrades(r.value, i + 1, now);
        if r'.Ok? {
          BooksThen(s, r.value, r'.value);
        }
      }
    }
  }

  lemma ReconcileTradeLength(s: State, i: nat, now: int)
    requires i < |s.trades| && ReconcileTrade(s, i, now).Ok?
    ensures |ReconcileTrade(s, i, now).value.trades| == |s.trades|
  {
  }

  lemma ReconcileBooks(s: State, book: seq<BookRow>, positions: Option<seq<Position>>, readAt: int)
    ensures var r := Reconcile(s, book, positions, readAt); r.Ok? ==> BooksKept(s, r.value)
  {
    hide ReconcileOrders, ReconcileTrades, PositionsAgree, ValidBook, Owned, PriorDayOpen, BooksKept;
    var r1 := ReconcileOrders(s, 0, book, readAt, positions.None?);
    ReconcileOrdersBooks(s, 0, book, readAt, positions.None?);
    if r1.Ok? {
      var r2 := ReconcileTrades(r1.value, 0, readAt);
      ReconcileTradesBooks(r1.value, 0, readAt);
      if r2.Ok? {
        BooksThen(s, r1.value, r2.value);
        SameBooks(r2.value, r2.value.(reconciledAt := Some(readAt)));
        BooksThen(s, r2.value, r2.value.(reconciledAt := Some(readAt)));
      }
    }
  }

  // Managing.

  lemma PrepareBooks(s: State, i: nat, t: Trade, e: nat, quote: Option<Quote>, now: int)
    requires i < |s.trades| && e < |s.orders| && !Closed(s.trades[i]) && t == s.trades[i].(exitReason := t.exitReason)
    ensures BooksKept(s, Prepare(s, i, t, e, quote, now))
  {
    hide Review, FreezeEntry, FreshQuote;
    ReviewKeepsTrade(Freeze(s, t, e, FreshQuote(quote, now), now), t, quote, now);
  }

  lemma ActBooks(s: State, t: Trade, quote: Option<Quote>, now: int)
    requires t.tickSize > 0
    ensures BooksKept(s, Act(s, t, quote, now))
  {
    hide WithdrawAll, ChaseExits, NewOrder, GuardsWorking, ExitWorking, FloorTo, FirstOf, FreshQuote;
  }

  lemma ManageTradeBooks(s: State, i: nat, quote: Option<Quote>, now: int)
    requires i < |s.trades|
    requires !Closed(s.trades[i]) ==>
      s.trades[i].tickSize > 0 && FirstOf(s.orders, s.trades[i].id, EntryKind) < |s.orders|
    ensures BooksKept(s, ManageTrade(s, i, quote, now))
  {
    hide Prepare, Act;
    if !Closed(s.trades[i]) {
      var e, t := FirstOf(s.orders, s.trades[i].id, EntryKind), Reasoned(s, s.trades[i], now);
      if !EntryLapsed(s, t, e, now) {
        PrepareBooks(s, i, t, e, quote, now);
        var s1 := Prepare(s, i, t, e, quote, now);
        PrepareShape(s, i, t, e, quote, now);
        ActBooks(s1, s1.trades[i], quote, now);
        BooksThen(s, s1, Act(s1, s1.trades[i], quote, now));
      }
    }
  }

  lemma {:induction false} ManageBooks(s: State, i: nat, quotes: map<string, Quote>, now: int)
    requires Manageable(s) && i <= |s.trades|
    ensures BooksKept(s, ManageAll(s, i, quotes, now))
    decreases |s.trades| - i
  {
    hide ManageTrade, Manageable, BooksKept;
    SameBooks(s, s);
    if i < |s.trades| {
      OpenTradeManageable(s, i);
      var quote := QuoteFor(quotes, s.trades[i].id);
      var s' := ManageTrade(s, i, quote, now);
      ManageTradeShape(s, i, quote, now);
      ManageTradeBooks(s, i, quote, now);
      ManageableKept(s, s');
      ManageBooks(s', i + 1, quotes, now);
      BooksThen(s, s', ManageAll(s', i + 1, quotes, now));
    }
  }

  // The record and its archive together.

  ghost predicate KeptIn(w: World, t: Trade) {
    exists u :: IsTrade(w, u) && Keeps(t, u)
  }

  /** The archive only grows, every trade is still there, and what is booked as archived moves with the archive. */
  ghost predicate Lasts(w: World, w': World) {
    && w.archive <= w'.archive
    && (forall t :: IsTrade(w, t) ==> KeptIn(w', t))
    && w'.s.archivedPnl - RowsPnl(w'.archive) == w.s.archivedPnl - RowsPnl(w.archive)
    && w'.s.archivedTrades - |w'.archive| == w.s.archivedTrades - |w.archive|
  }

  lemma BooksLast(w: World, w': World)
    requires BooksGrown(w.s, w'.s) && w'.archive == w.archive
    ensures Lasts(w, w')
  {
    forall t | IsTrade(w, t) ensures KeptIn(w', t) {
      if t in w.s.trades {
        var i :| 0 <= i < |w.s.trades| && w.s.trades[i] == t;
        assert IsTrade(w', w'.s.trades[i]);
      } else {
        assert IsTrade(w', t);
      }
    }
  }

  lemma LastsThen(w: World, m: World, w': World)
    requires Lasts(w, m) && Lasts(m, w')
    ensures Lasts(w, w')
  {
    hide IsTrade;
    forall t | IsTrade(w, t) ensures KeptIn(w', t) {
      var u :| IsTrade(m, u) && Keeps(t, u);
      var v :| IsTrade(w', v) && Keeps(u, v);
    }
  }

  lemma MovedLasts(w: World, w': World, rows: seq<ArchiveRow>, now: int)
    requires Conserved(w.s, w'.s, rows, now) && Moved(w.s, w'.s, rows) && w'.archive == w.archive + rows
    ensures Lasts(w, w')
  {
    hide RowsPnl, ClosedPnl, ArchivedWhole;
    RowsPnlConcat(w.archive, rows);
    forall t | IsTrade(w, t) ensures KeptIn(w', t) {
      assert InRows(w'.archive, t) <==> InRows(w.archive, t) || InRows(rows, t);
      assert IsTrade(w', t) && Keeps(t, t);
    }
  }

  lemma ArchivedLasts(w: World, now: int)
    requires Safe(w)
    ensures var (kept, rows) := Archive(w.s, w.s.trades, ARCHIVE_BATCH, now);
      Lasts(w, w.(s := kept, archive := w.archive + rows, now := now))
  {
    hide Archive, Safe, Sound, Conserved, Moved, Lasts;
    SafeIsSound(w);
    TradesOnce(w.s);
    ArchiveConserves(w.s, w.s.trades, ARCHIVE_BATCH, now);
    ArchiveMoves(w.s, w.s.trades, ARCHIVE_BATCH, now);
    var (kept, rows) := Archive(w.s, w.s.trades, ARCHIVE_BATCH, now);
    MovedLasts(w, w.(s := kept, archive := w.archive + rows, now := now), rows, now);
  }

  lemma PreparedLasts(w: World, x: string, inputs: TickInputs, now: int)
    requires Safe(w) && w.now <= now && x !in w.out.flights && Honest(inputs.book, w.out.rows)
    ensures var r := PrepareTick(w.s, inputs, now);
      r.Ok? ==> Lasts(w, Taken(w.(s := r.value.state, archive := w.archive + r.value.archived, now := now), x,
        r.value.action))
  {
    hide Safe, Lasts, Reconcile, Archive, ManageAll, Claim, Advised, Planned, Manageable, EntriesHaveTrades;
    hide EntryPending, BooksGrown;
    var reconciled := Reconcile(w.s, inputs.book, inputs.positions, inputs.readAt);
    ReconcileSafe(w, inputs.book, inputs.positions, inputs.readAt, now);
    ReconcileBooks(w.s, inputs.book, inputs.positions, inputs.readAt);
    if reconciled.Ok? {
      var w1 := w.(s := reconciled.value, now := now);
      BooksLast(w, w1);
      ArchivedLasts(w1, now);
      var (kept, rows) := Archive(w1.s, w1.s.trades, ARCHIVE_BATCH, now);
      var w2 := w1.(s := kept, archive := w.archive + rows);
      var advised := Advised(kept, inputs, now);
      AdvisedBooks(kept, inputs, now);
      if Manageable(advised) {
        var managed := ManageAll(advised, 0, inputs.quotes, now);
        ManageBooks(advised, 0, inputs.quotes, now);
        var planned := Planned(managed, inputs, now);
        PlannedBooks(managed, inputs, now);
        if EntriesHaveTrades(planned) {
          var (claimed, action) := Claim(planned, now, !EntryPending(planned) || inputs.allowed);
          ClaimedBooks(planned, now, !EntryPending(planned) || inputs.allowed);
          BooksThen(kept, advised, managed);
          BooksLast(w2, w2.(s := managed));
          BooksLast(w2.(s := managed), w2.(s := planned));
          BooksLast(w2.(s := planned), Taken(w2.(s := claimed), x, action));
          LastsThen(w, w1, w2);
          LastsThen(w, w2, w2.(s := managed));
          LastsThen(w, w2.(s := managed), w2.(s := planned));
          LastsThen(w, w2.(s := planned), Taken(w2.(s := claimed), x, action));
        }
      }
    }
  }

  /** Every event of every process, of the owner and of the broker keeps the history. */
  lemma StepLasts(w: World, e: Event, now: int)
    requires Safe(w) && Enabled(w, e, now)
    ensures Lasts(w, Step(w, e, now))
  {
    hide Safe, Lasts, PrepareTick, Acquire, FailTick, Record, GiveUp, Honest, Lands, Evolves, Control, ConfigurePolicy;
    hide ResolveTrade, BooksGrown;
    var w' := Step(w, e, now);
    SameBooks(w.s, w.s);
    match e
    case AcquireEvent(x) =>
      AcquireBooks(w.s, x, now);
      BooksLast(w, w');
    case PrepareEvent(x, inputs) =>
      PreparedLasts(w, x, inputs, now);
      BooksLast(w, w.(now := now));
    case GiveUpEvent(x) =>
      GiveUpBooks(w.s, w.out.flights[x].action.order.id);
      BooksLast(w, w');
    case RecordEvent(x) =>
      RecordBooks(w.s, x, w.out.flights[x].action, w.out.flights[x].reply);
      BooksLast(w, w');
    case FailEvent(x, grace) =>
      FailBooks(w.s, x, grace, now);
      BooksLast(w, w');
    case ControlEvent(operation, requestId) =>
      ControlBooks(w.s, operation, requestId, now);
      BooksLast(w, w');
    case PolicyEvent(loss, risk, losses, requestId) =>
      PolicyBooks(w.s, loss, risk, losses, requestId, now);
      BooksLast(w, w');
    case ResolveEvent(id, reason, requestId) =>
      ResolveBooks(w.s, id, reason, requestId, now);
      BooksLast(w, w');
    case _ => BooksLast(w, w');
  }

  lemma FollowsLasts(w: World, w': World)
    requires Safe(w) && Follows(w, w')
    ensures Lasts(w, w')
  {
    hide Safe, Lasts;
    var e, now :| Enabled(w, e, now) && w' == Step(w, e, now);
    StepLasts(w, e, now);
  }

  lemma SelfLasts(w: World)
    ensures Lasts(w, w)
  {
    SameBooks(w.s, w.s);
    BooksLast(w, w);
  }

  lemma {:induction false} RunLasts(ws: seq<World>, i: nat, j: nat)
    requires Run(ws) && i <= j < |ws|
    ensures Lasts(ws[i], ws[j])
  {
    hide Safe, Lasts, Follows;
    if i < j {
      RunLasts(ws, i, j - 1);
      RunSafe(ws, j - 1);
      FollowsLasts(ws[j - 1], ws[j]);
      LastsThen(ws[i], ws[j - 1], ws[j]);
    } else {
      SelfLasts(ws[i]);
    }
  }

  /**
   From any moment of any run to any later one: the archive only grows, row by row unchanged; every trade is still
   known, with the plan it was made with; and a trade that was closed is there without the slightest change.
   */
  lemma HistoryLasts(ws: seq<World>, i: nat, j: nat, t: Trade)
    requires Run(ws) && i <= j < |ws| && IsTrade(ws[i], t)
    ensures ws[i].archive <= ws[j].archive
    ensures exists u :: IsTrade(ws[j], u) && Keeps(t, u)
    ensures Closed(t) ==> IsTrade(ws[j], t)
  {
    hide Run, IsTrade;
    RunLasts(ws, i, j);
    assert KeptIn(ws[j], t);
  }

  // All trades there ever were.

  function ArchivedTrades(rows: seq<ArchiveRow>): (ts: seq<Trade>)
    ensures |ts| == |rows| && forall i :: 0 <= i < |rows| ==> ts[i] == rows[i].trade
  {
    if rows == [] then [] else ArchivedTrades(rows[..|rows| - 1]) + [rows[|rows| - 1].trade]
  }

  function EveryTrade(w: World): seq<Trade> {
    ArchivedTrades(w.archive) + w.s.trades
  }

  lemma {:induction false} ArchivedPnl(rows: seq<ArchiveRow>)
    requires forall a :: a in rows ==> Closed(a.trade)
    ensures ClosedPnl(ArchivedTrades(rows)) == RowsPnl(rows)
  {
    if rows != [] {
      ArchivedPnl(rows[..|rows| - 1]);
      assert rows[|rows| - 1] in rows;
      assert ArchivedTrades(rows)[..|rows| - 1] == ArchivedTrades(rows[..|rows| - 1]);
    }
  }

  lemma {:induction false} ClosedPnlConcat(ts: seq<Trade>, us: seq<Trade>)
    ensures ClosedPnl(ts + us) == ClosedPnl(ts) + ClosedPnl(us)
  {
    if us == [] {
      assert ts + us == ts;
    } else {
      ClosedPnlConcat(ts, us[..|us| - 1]);
      assert (ts + us)[..|ts + us| - 1] == ts + us[..|us| - 1];
    }
  }

  lemma EveryTradeOnce(w: World)
    requires Safe(w)
    ensures UniqueTrades(EveryTrade(w))
    ensures forall t :: t in EveryTrade(w) <==> IsTrade(w, t)
  {
    hide OutsideOk, AllKnown, AllLinked;
    hide Sound;
    SafeIsSound(w);
    TradesOnce(w.s);
    var all := EveryTrade(w);
    forall i, j | 0 <= i < j < |all| ensures all[i].id != all[j].id {
      if i < |w.archive| <= j {
        assert w.archive[i] in w.archive && w.s.trades[j - |w.archive|] in w.s.trades;
      }
    }
    forall t ensures t in ArchivedTrades(w.archive) <==> InRows(w.archive, t) {
      if InRows(w.archive, t) {
        var a :| a in w.archive && a.trade == t;
        var k :| 0 <= k < |w.archive| && w.archive[k] == a;
        assert ArchivedTrades(w.archive)[k] == t;
      }
    }
  }

  /**
   At every moment of every run each trade ever planned is in exactly one place, and the total that sets the capital
   ceiling is the sum of the results of every trade that ever filled and closed.
   */
  lemma HistoryCounted(ws: seq<World>, j: nat)
    requires Run(ws) && j < |ws|
    ensures var w := ws[j];
      && UniqueTrades(EveryTrade(w)) && (forall t :: t in EveryTrade(w) <==> IsTrade(w, t))
      && ClosedPnl(w.s.trades) + w.s.archivedPnl == ClosedPnl(EveryTrade(w))
      && |w.s.trades| + w.s.archivedTrades == |EveryTrade(w)|
  {
    hide Sound, OutsideOk, AllKnown, AllLinked;
    var w := ws[j];
    RunSafe(ws, j);
    EveryTradeOnce(w);
    RunLasts(ws, 0, j);
    assert RowsPnl(ws[0].archive) == 0;
    ArchivedPnl(w.archive);
    ClosedPnlConcat(ArchivedTrades(w.archive), w.s.trades);
  }
}
