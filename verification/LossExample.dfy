/**
 A day on which every limit price is honoured and the daily loss limit is broken nevertheless: the bid falls through
 the stop before the stop was sent, and the exit is priced at the bid.
 */
module LossExample {
  import opened Wrappers
  import opened SandboxTypes
  import opened Totals
  import opened SandboxSpec
  import opened SandboxService
  import opened SandboxWorld
  import opened SandboxRuns
  import opened LossBound

  // Ten in the morning of a day; the entry is offered at 100.00 rupees and the bid then falls to 80.00.
  const TODAY := 20000
  const NOW := TODAY * DAY_MS - IST_OFFSET + 36000000
  const SIGNAL := Signal("OPENING", "2024-10-31", "NSE_FO|CE", "CE", None)
  const TRADE := TradeId(TODAY, SIGNAL)
  const POLICY := Policy(1000000, 40000, 40000, 5000, 3, 2)

  const LIVE := Quote(9990, 10000, NOW)
  const FALLEN := Quote(8000, 8010, NOW)
  const PICK := Decision(Some(NOW), true, Some(Pick(SIGNAL, 9500, 11000, None, None)))
  const NOTHING := Decision(None, false, None)
  const META := Meta("NSE_FO|CE", true, TODAY, 50, 5)

  const PLANNED := Trade(TRADE, NOW, NOW + ENTRY_TTL_MS, 5, 50, 9500, 9450, 11000, 32500, 5000, None, None, None, 0, 0,
    false)
  const LEAVING := PLANNED.(exitReason := Some(DailyLossExit))
  const LOST := LEAVING.(closedAt := Some(NOW), buys := 50, netPnl := -105000)

  const ENTRY := Order(OrderId(TRADE, EntryKind, 0), 50, 10000, 0, Submitting, None, 0, 0, NoCancel, Some(NOW), false,
    None, 0)
  const EXIT := Order(OrderId(TRADE, ExitKind, 0), 50, 8000, 0, Submitting, None, 0, 0, NoCancel, Some(NOW), false,
    None, 0)

  function Acked(o: Order, id: string): Order {
    o.(state := Acknowledged, brokerId := Some(id))
  }

  function Whole(o: Order, id: string): Order {
    o.(state := Complete, brokerId := Some(id), filled := 50, average := o.price)
  }

  function Kept(o: Order, id: string, filled: int): Row {
    Row(id, o.id, 50, filled, filled == 50)
  }

  function Shown(o: Order, id: string): BookRow {
    BookRow(id, Some(o.id), "NSE_FO|CE", 50, IsBuy(o), true, false, o.price, 0, 50, o.price, RowComplete)
  }

  const ARMED :=
    InitialState(POLICY).(armed := true, armedDay := Some(TODAY), killed := false,
      lease := Some(Lease("w", NOW + LEASE_MS)))

  /** The record after a reconciliation. */
  function After(trades: seq<Trade>, orders: seq<Order>, locked: set<int>): State {
    ARMED.(reconciledAt := Some(NOW), trades := trades, orders := orders, lockedDays := locked)
  }

  function Inputs(book: seq<BookRow>, quote: Quote, decision: Decision): TickInputs {
    TickInputs(book, None, NOW, None, map["NSE_FO|CE" := quote], decision, Some(META), true)
  }

  const ENTERING := Inputs([], LIVE, PICK)
  const FALLING := Inputs([Shown(ENTRY, "1")], FALLEN, NOTHING)
  const CLOSING := Inputs([Shown(ENTRY, "1"), Shown(EXIT, "2")], FALLEN, NOTHING)

  // Short lists.

  lemma OneTotal(m: Measure, t: TradeId, a: Order)
    ensures Total(m, t, [a]) == Weight(m, t, a)
  {
    assert [a][..0] == [];
  }

  lemma TwoTotal(m: Measure, t: TradeId, a: Order, b: Order)
    ensures Total(m, t, [a, b]) == Weight(m, t, a) + Weight(m, t, b)
  {
    assert [a, b][..1] == [a];
    OneTotal(m, t, a);
  }

  lemma Today()
    ensures Day(NOW) == TODAY && Minutes(NOW) == 600
  {
  }

  // The three transactions.

  lemma EntryPlanned()
    ensures Planned(After([], [], {}), ENTERING, NOW)
      == After([PLANNED], [ENTRY.(state := Queued, submittedAt := None)], {})
  {
    Today();
    var s := After([], [], {});
    assert PlanQuote(ENTERING) == Some(LIVE);
    var plan := PricesOf(s, PICK.pick.value, META, LIVE);
    assert plan == EntryPlan(10000, 9450, 32500);
    assert LosingStreak(s, NOW) == 0;
    assert PlanVerdict(s, PICK, Some(LIVE), Some(META), NOW) == PlanQueued;
  }

  lemma EntryClaimed()
    ensures EntriesHaveTrades(After([PLANNED], [ENTRY.(state := Queued, submittedAt := None)], {}))
    ensures Claim(After([PLANNED], [ENTRY.(state := Queued, submittedAt := None)], {}), NOW, true)
            == (After([PLANNED], [ENTRY], {}), Some(Action(PlaceAction, ENTRY)))
  {
    Today();
    var e := ENTRY.(state := Queued, submittedAt := None);
    assert [e][0] == e && [PLANNED][0] == PLANNED;
    assert [e][1..] == [];
    assert TradeIndex([PLANNED], TRADE) == 0;
    assert LapseBefore([e], 0) == [e];
    var s := After([PLANNED], [e], {});
    assert FirstCancelDue([e]) == 1 && FirstQueued([e], StopKind) == 1 && FirstQueued([e], ExitKind) == 1;
    assert !(exists o :: o in s.orders && InFlight(o));
    assert Sendable(s, e, NOW, true);
    assert FirstSendable(s, s.orders, NOW, true) == 0;
    assert BeginSubmit(e, NOW) == ENTRY;
    assert [e][0 := ENTRY] == [ENTRY];
    assert ClaimEntry(s, NOW, true) == (After([PLANNED], [ENTRY], {}), Some(Action(PlaceAction, ENTRY)));
  }

  lemma NothingHeard()
    ensures Reconcile(ARMED, [], None, NOW) == Ok(After([], [], {}))
  {
  }

  lemma NothingManaged()
    ensures var s := After([], [], {});
      && Archive(s, s.trades, ARCHIVE_BATCH, NOW) == (s, []) && Advised(s, ENTERING, NOW) == s
      && Manageable(s) && ManageAll(s, 0, ENTERING.quotes, NOW) == s
  {
  }

  lemma Entered()
    ensures PrepareTick(ARMED, ENTERING, NOW)
      == Ok(Prepared(After([PLANNED], [ENTRY], {}), [], Some(Action(PlaceAction, ENTRY))))
  {
    hide Reconcile, Archive, Advised, ManageAll, Manageable, Planned, EntriesHaveTrades, Claim;
    NothingHeard();
    NothingManaged();
    EntryPlanned();
    EntryClaimed();
  }

  lemma HeardWhole(o: Order, id: string, book: seq<BookRow>)
    requires o == Acked(ENTRY, id) || o == Acked(EXIT, id) || o == Whole(ENTRY, id) || o == Whole(EXIT, id)
    requires RowsFor(o, book) == [Shown(o, id)]
    ensures JudgeOrder(o, false, book, NOW) == Judged(Whole(o, id), false)
  {
  }

  lemma EntryHeard()
    ensures Reconcile(After([PLANNED], [Acked(ENTRY, "1")], {}), FALLING.book, None, NOW)
            == Ok(After([PLANNED], [Whole(ENTRY, "1")], {}))
  {
    Today();
    var s, s', b := After([PLANNED], [Acked(ENTRY, "1")], {}), After([PLANNED], [Whole(ENTRY, "1")], {}),
      Shown(ENTRY, "1");
    assert [b][..0] == [];
    assert RowsFor(s.orders[0], [b]) == [b];
    HeardWhole(s.orders[0], "1", [b]);
    assert [Acked(ENTRY, "1")][0 := Whole(ENTRY, "1")] == [Whole(ENTRY, "1")];
    assert ReconcileOrder(s, 0, [b], NOW, true) == Ok(s');
    assert ReconcileOrders(s, 0, [b], NOW, true) == Ok(s');
    assert s'.orders[0] in s'.orders && Owned(b, s'.orders);
    OneTotal(Bought, TRADE, Whole(ENTRY, "1"));
    OneTotal(Sold, TRADE, Whole(ENTRY, "1"));
    assert ReconcileTrade(s', 0, NOW) == Ok(s');
    assert ReconcileTrades(s', 0, NOW) == Ok(s');
  }

  const HELD := Whole(ENTRY, "1")
  const QUEUED := EXIT.(state := Queued, submittedAt := None)

  lemma BidFell()
    ensures Net(TRADE, [HELD]) == 50
    ensures MarkToMarket(After([PLANNED], [HELD], {}), PLANNED, FALLEN, NOW) == (LEAVING, {TODAY})
  {
    Today();
    var s := After([PLANNED], [HELD], {});
    forall m ensures Total(m, TRADE, [HELD]) == Weight(m, TRADE, HELD) {
      OneTotal(m, TRADE, HELD);
    }
    assert OpenedDayPnl(s.trades, TODAY) == 0 by {
      assert [PLANNED][..0] == [];
    }
    assert Total(Spent, TRADE, s.orders) == 500000 && Total(Received, TRADE, s.orders) == 0;
    assert {} + {TODAY} == {TODAY};
    assert WithReason(PLANNED, true, DailyLossExit) == LEAVING;
    assert MarkToMarket(s, PLANNED, FALLEN, NOW).0 == LEAVING;
    assert MarkToMarket(s, PLANNED, FALLEN, NOW).1 == {TODAY};
  }

  /** The bid is below the stop and the day's limit is gone: the trade leaves, and its exit is priced at the bid. */
  lemma ExitPriced()
    ensures var s := After([PLANNED], [HELD], {});
      Manageable(s) && ManageAll(s, 0, FALLING.quotes, NOW) == After([LEAVING], [HELD, QUEUED], {TODAY})
  {
    Today();
    var s := After([PLANNED], [HELD], {});
    assert FirstOf(s.orders, TRADE, EntryKind) == 0;
    assert FirstOf(s.orders, TRADE, StopKind) == 1 by {
      assert [HELD][1..] == [];
    }
    forall m ensures Total(m, TRADE, [HELD]) == Weight(m, TRADE, HELD) {
      OneTotal(m, TRADE, HELD);
    }
    assert Reasoned(s, PLANNED, NOW) == PLANNED;
    assert Freeze(s, PLANNED, 0, true, NOW) == s by {
      assert s.orders[0 := HELD] == s.orders;
    }
    BidFell();
    assert Review(s, PLANNED, Some(FALLEN), NOW) == (LEAVING, {TODAY});
    var s1 := After([LEAVING], [HELD], {TODAY});
    assert Prepare(s, 0, PLANNED, 0, Some(FALLEN), NOW) == s1 by {
      assert s.trades[0 := LEAVING] == s1.trades;
    }
    assert WithdrawAll([HELD], TRADE, true) == [HELD] && ChaseExits([HELD], TRADE, NOW) == [HELD];
    assert NewOrder([HELD], TRADE, ExitKind, 50, 8000, 0) == QUEUED;
    assert Leave(s1, LEAVING, true, 8000, NOW) == After([LEAVING], [HELD, QUEUED], {TODAY});
    assert ManageTrade(s, 0, Some(FALLEN), NOW) == After([LEAVING], [HELD, QUEUED], {TODAY});
  }

  lemma NothingPlanned(s: State, inputs: TickInputs)
    requires inputs.decision == NOTHING
    ensures Planned(s, inputs, NOW) == s
  {
  }

  lemma ExitClaimed()
    ensures var s := After([LEAVING], [HELD, QUEUED], {TODAY});
      EntriesHaveTrades(s)
        && Claim(s, NOW, true) == (After([LEAVING], [HELD, EXIT], {TODAY}), Some(Action(PlaceAction, EXIT)))
  {
    var s := After([LEAVING], [HELD, QUEUED], {TODAY});
    assert [HELD, QUEUED][1..] == [QUEUED] && [QUEUED][1..] == [];
    assert FirstCancelDue(s.orders) == 2;
    assert FirstQueued(s.orders, StopKind) == 2 && FirstQueued(s.orders, ExitKind) == 1;
    assert TradeIndex(s.trades, TRADE) == 0;
    assert BeginSubmit(QUEUED, NOW) == EXIT;
    assert s.orders[1 := EXIT] == [HELD, EXIT];
  }

  lemma NotArchived(s: State)
    requires s.trades == [PLANNED] || s.trades == [LOST]
    ensures Archive(s, s.trades, ARCHIVE_BATCH, NOW) == (s, [])
  {
    Today();
    assert s.trades[1..] == [];
    assert !Archivable(s, s.trades[0], NOW);
    assert Archive(s, [], ARCHIVE_BATCH, NOW) == (s, []);
  }

  lemma Left()
    ensures PrepareTick(After([PLANNED], [Acked(ENTRY, "1")], {}), FALLING, NOW)
            == Ok(Prepared(After([LEAVING], [HELD, EXIT], {TODAY}), [], Some(Action(PlaceAction, EXIT))))
  {
    hide Reconcile, Archive, ManageAll, Planned, Claim, Manageable, EntriesHaveTrades;
    EntryHeard();
    NotArchived(After([PLANNED], [HELD], {}));
    ExitPriced();
    NothingPlanned(After([LEAVING], [HELD, QUEUED], {TODAY}), FALLING);
    ExitClaimed();
  }

  const SOLD := Whole(EXIT, "2")

  lemma TwoRows(o: Order, b: BookRow, c: BookRow)
    ensures RowsFor(o, [b, c]) == (if Concerns(b, o) then [b] else []) + (if Concerns(c, o) then [c] else [])
  {
    assert [b, c][..1] == [b] && [b][..0] == [];
    assert RowsFor(o, [b]) == if Concerns(b, o) then [b] else [];
  }

  lemma ExitTaken()
    ensures ReconcileOrders(After([LEAVING], [HELD, Acked(EXIT, "2")], {TODAY}), 0, CLOSING.book, NOW, true)
            == Ok(After([LEAVING], [HELD, SOLD], {TODAY}))
  {
    var s, s' := After([LEAVING], [HELD, Acked(EXIT, "2")], {TODAY}), After([LEAVING], [HELD, SOLD], {TODAY});
    var b, c := Shown(ENTRY, "1"), Shown(EXIT, "2");
    var book := [b, c];
    TwoRows(s.orders[0], b, c);
    TwoRows(s.orders[1], b, c);
    HeardWhole(s.orders[0], "1", book);
    HeardWhole(s.orders[1], "2", book);
    hide JudgeOrder, RowsFor;
    assert s.orders[0 := HELD] == s.orders && s.orders[1 := SOLD] == [HELD, SOLD];
    assert ReconcileOrder(s, 0, book, NOW, true) == Ok(s);
    assert ReconcileOrder(s, 1, book, NOW, true) == Ok(s');
    assert ReconcileOrders(s', 2, book, NOW, true) == Ok(s');
    assert ReconcileOrders(s, 1, book, NOW, true) == Ok(s');
  }

  lemma ExitHeard()
    ensures Reconcile(After([LEAVING], [HELD, Acked(EXIT, "2")], {TODAY}), CLOSING.book, None, NOW)
            == Ok(After([LOST], [HELD, SOLD], {TODAY}))
  {
    Today();
    ExitTaken();
    TradeLost();
    var s, s' := After([LEAVING], [HELD, SOLD], {TODAY}), After([LOST], [HELD, SOLD], {TODAY});
    hide ReconcileOrders, ReconcileTrade;
    assert s.orders[0] in s.orders && s.orders[1] in s.orders;
    assert Owned(Shown(ENTRY, "1"), s.orders) && Owned(Shown(EXIT, "2"), s.orders);
    assert ReconcileTrades(s', 1, NOW) == Ok(s');
    assert ReconcileTrades(s, 0, NOW) == Ok(s');
  }

  lemma DayLost(ts: seq<Trade>)
    requires ts == [LOST]
    ensures DayPnl(ts, TODAY, false) == -105000
  {
    Today();
    assert ts[..0] == [];
  }

  lemma TradeLost()
    ensures ReconcileTrade(After([LEAVING], [HELD, SOLD], {TODAY}), 0, NOW) == Ok(After([LOST], [HELD, SOLD], {TODAY}))
  {
    Today();
    var s := After([LEAVING], [HELD, SOLD], {TODAY});
    forall m ensures Total(m, TRADE, [HELD, SOLD]) == Weight(m, TRADE, HELD) + Weight(m, TRADE, SOLD) {
      TwoTotal(m, TRADE, HELD, SOLD);
    }
    DayLost([LOST]);
    assert s.trades[0 := LOST] == [LOST];
    assert Net(TRADE, s.orders) == 0 && Total(Bought, TRADE, s.orders) == 50;
    assert Total(Received, TRADE, s.orders) == 400000 && Total(Spent, TRADE, s.orders) == 500000;
    assert NetResult(LEAVING, s.orders) == -105000;
    assert AllTerminal(s.orders, TRADE);
    assert Close(s, 0, NOW) == After([LOST], [HELD, SOLD], {TODAY});
  }

  lemma NothingClaimed()
    ensures var s := After([LOST], [HELD, SOLD], {TODAY}); EntriesHaveTrades(s) && Claim(s, NOW, true) == (s, None)
  {
    var s := After([LOST], [HELD, SOLD], {TODAY});
    assert [HELD, SOLD][1..] == [SOLD] && [SOLD][1..] == [];
    assert FirstCancelDue(s.orders) == 2 && FirstQueued(s.orders, StopKind) == 2
      && FirstQueued(s.orders, ExitKind) == 2;
    assert TradeIndex(s.trades, TRADE) == 0;
    assert FirstSendable(s, [SOLD], NOW, true) == 1;
    assert FirstSendable(s, s.orders, NOW, true) == 2;
    assert LapseBefore(s.orders, 2) == s.orders;
  }

  lemma Finished()
    ensures PrepareTick(After([LEAVING], [HELD, Acked(EXIT, "2")], {TODAY}), CLOSING, NOW)
            == Ok(Prepared(After([LOST], [HELD, SOLD], {TODAY}), [], None))
  {
    var s := After([LOST], [HELD, SOLD], {TODAY});
    assert ManageAll(s, 0, CLOSING.quotes, NOW) == s;
    hide Reconcile, Archive, ManageAll, Planned, Claim, EntriesHaveTrades;
    ExitHeard();
    NotArchived(s);
    NothingPlanned(s, CLOSING);
    NothingClaimed();
  }

  // The day.

  function Outer(rows: seq<Row>, flight: Option<Flight>, placed: seq<OrderId>): Outside {
    Outside(rows, if flight.None? then map[] else map["w" := flight.value], placed)
  }

  const ASKED := [ENTRY.id]
  const BOTH := [ENTRY.id, EXIT.id]
  const PLACE_ENTRY := Action(PlaceAction, ENTRY)
  const PLACE_EXIT := Action(PlaceAction, EXIT)

  function At(k: nat): World
    requires k < 10
  {
    var (s, out) :=
      match k
      case 0 => (ARMED, Outer([], None, []))
      case 1 => (After([PLANNED], [ENTRY], {}), Outer([], Some(Due(PLACE_ENTRY)), []))
      case 2 => (After([PLANNED], [ENTRY], {}),
        Outer([Kept(ENTRY, "1", 0)], Some(Done(PLACE_ENTRY, AckReply(Some("1")))), ASKED))
      case 3 => (After([PLANNED], [Acked(ENTRY, "1")], {}), Outer([Kept(ENTRY, "1", 0)], None, ASKED))
      case 4 => (After([PLANNED], [Acked(ENTRY, "1")], {}), Outer([Kept(ENTRY, "1", 50)], None, ASKED))
      case 5 => (After([LEAVING], [HELD, EXIT], {TODAY}), Outer([Kept(ENTRY, "1", 50)], Some(Due(PLACE_EXIT)), ASKED))
      case 6 => (After([LEAVING], [HELD, EXIT], {TODAY}),
                 Outer([Kept(ENTRY, "1", 50), Kept(EXIT, "2", 0)], Some(Done(PLACE_EXIT, AckReply(Some("2")))), BOTH))
      case 7 => (After([LEAVING], [HELD, Acked(EXIT, "2")], {TODAY}),
        Outer([Kept(ENTRY, "1", 50), Kept(EXIT, "2", 0)], None, BOTH))
      case 8 => (After([LEAVING], [HELD, Acked(EXIT, "2")], {TODAY}),
        Outer([Kept(ENTRY, "1", 50), Kept(EXIT, "2", 50)], None, BOTH))
      case _ => (After([LOST], [HELD, SOLD], {TODAY}), Outer([Kept(ENTRY, "1", 50), Kept(EXIT, "2", 50)], None, BOTH));
    World(s, [], out, NOW)
  }

  function EventAt(k: nat): Event
    requires k < 9
  {
    match k
    case 0 => PrepareEvent("w", ENTERING)
    case 1 => PlaceEvent("w", [Kept(ENTRY, "1", 0)], AckReply(Some("1")))
    case 2 => RecordEvent("w")
    case 3 => BrokerEvent([Kept(ENTRY, "1", 50)])
    case 4 => PrepareEvent("w", FALLING)
    case 5 => PlaceEvent("w", [Kept(ENTRY, "1", 50), Kept(EXIT, "2", 0)], AckReply(Some("2")))
    case 6 => RecordEvent("w")
    case 7 => BrokerEvent([Kept(ENTRY, "1", 50), Kept(EXIT, "2", 50)])
    case _ => PrepareEvent("w", CLOSING)
  }

  lemma ReadsRows(k: nat)
    requires k in {0, 4, 8}
    ensures Honest(EventAt(k).inputs.book, At(k).out.rows)
  {
    forall b | b in EventAt(k).inputs.book ensures exists r :: r in At(k).out.rows && RowReports(b, r) {
      var i := if b.orderId == "1" then 0 else 1;
      assert At(k).out.rows[i] in At(k).out.rows && RowReports(b, At(k).out.rows[i]);
    }
  }

  lemma PrepareStep(w: World, inputs: TickInputs, p: Prepared)
    requires HoldsLease(w.s, "w", w.now) && "w" !in w.out.flights && Honest(inputs.book, w.out.rows)
    requires PrepareTick(w.s, inputs, w.now) == Ok(p) && p.archived == []
    ensures Enabled(w, PrepareEvent("w", inputs), w.now)
    ensures Step(w, PrepareEvent("w", inputs), w.now) == Taken(w.(s := p.state), "w", p.action)
  {
    hide PrepareTick, Honest;
    assert w.archive + [] == w.archive;
  }

  lemma Prepares(k: nat)
    requires k in {0, 4, 8}
    ensures Enabled(At(k), EventAt(k), NOW) && Step(At(k), EventAt(k), NOW) == At(k + 1)
  {
    hide PrepareTick, Honest, Enabled, Step;
    ReadsRows(k);
    if k == 0 {
      Entered();
      PrepareStep(At(0), ENTERING, Prepared(At(1).s, [], Some(PLACE_ENTRY)));
    } else if k == 4 {
      Left();
      PrepareStep(At(4), FALLING, Prepared(At(5).s, [], Some(PLACE_EXIT)));
    } else {
      Finished();
      PrepareStep(At(8), CLOSING, Prepared(At(9).s, [], None));
    }
  }

  lemma Places(k: nat)
    requires k in {1, 5}
    ensures Enabled(At(k), EventAt(k), NOW) && Step(At(k), EventAt(k), NOW) == At(k + 1)
  {
    var o := if k == 1 then ENTRY else EXIT;
    var r := Kept(o, if k == 1 then "1" else "2", 0);
    assert EventAt(k).rows == At(k).out.rows + [r] && IsRowOf(r, o, EventAt(k).reply);
    assert [ENTRY.id] + [EXIT.id] == BOTH;
  }

  lemma Records(k: nat)
    requires k in {2, 6}
    ensures Enabled(At(k), EventAt(k), NOW) && Step(At(k), EventAt(k), NOW) == At(k + 1)
  {
    var i := if k == 2 then 0 else 1;
    assert [HELD, EXIT][1..] == [EXIT];
    assert OrderIndex(At(k).s.orders, At(k).s.orders[i].id) == i;
    assert At(k).s.orders[i := At(k + 1).s.orders[i]] == At(k + 1).s.orders;
    assert At(k).out.flights - {"w"} == map[];
  }

  lemma Moves(k: nat)
    requires k < 9
    ensures Enabled(At(k), EventAt(k), NOW) && OfDay(EventAt(k), NOW, TODAY)
    ensures Step(At(k), EventAt(k), NOW) == At(k + 1)
  {
    Today();
    if k in {0, 4, 8} {
      Prepares(k);
    } else if k in {1, 5} {
      Places(k);
    } else if k in {2, 6} {
      Records(k);
    } else {
      hide PrepareTick;
    }
  }

  lemma StartSafe()
    ensures Safe(At(0)) && LimitsKept(At(0).s.orders, TODAY)
  {
  }

  /**
   Without the condition on exits the daily loss bound is false: a day on which every fill honours its order's limit,
   and which ends more than twice the daily loss limit down, on one trade that was planned to lose less than it.
   */
  lemma LimitBroken() returns (ws: seq<World>)
    ensures HonestDay(ws, TODAY)
    ensures var s := ws[|ws| - 1].s;
      && DayPnl(s.trades, TODAY, false) < -2 * s.policy.dailyLoss && s.policy == ws[0].s.policy
      && s.trades == [LOST] && LOST.netPnl < -LOST.plannedRisk && LOST.plannedRisk < s.policy.dailyLoss
  {
    ws := seq(10, k requires 0 <= k < 10 => At(k));
    StartSafe();
    forall k | 0 < k < 10 ensures FollowsOfDay(ws[k - 1], ws[k], TODAY) {
      Moves(k - 1);
    }
    DayLost(At(9).s.trades);
  }
}
