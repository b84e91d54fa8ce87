/**
 The capital ceiling: on every run an open position never needs more than the capital the owner allowed less all that
 was ever lost, whether the losses are still in the record or archived long ago.
 */
module CapitalBound {
  import opened SandboxTypes
  import opened SandboxSpec
  import opened SandboxInvariant
  import opened SandboxSteps
  import opened SandboxArchive
  import opened SandboxService
  import opened SandboxDecisions
  import opened SandboxWorld
  import opened SandboxRuns
  import opened SandboxHistory

  /** What the entry costs at its limit, with the cost reserve: the planned risk and the value at the stop limit. */
  function Needs(t: Trade): int {
    t.plannedRisk + t.stopLimit * t.quantity
  }

  function Ceiling(capital: int, result: int): int {
    Max(0, capital + Min(0, result))
  }

  ghost predicate CapitalOk(s: State) {
    forall t :: t in s.trades && !Closed(t) ==>
      Needs(t) <= Ceiling(s.policy.capital, ClosedPnl(s.trades) + s.archivedPnl)
  }

  lemma {:induction false} SameResult(ts: seq<Trade>, us: seq<Trade>)
    requires |us| == |ts| && forall i :: 0 <= i < |ts| ==> Keeps(ts[i], us[i]) && (Closed(us[i]) ==> Closed(ts[i]))
    ensures ClosedPnl(us) == ClosedPnl(ts)
  {
    if ts != [] {
      SameResult(ts[..|ts| - 1], us[..|us| - 1]);
    }
  }

  /** The one open trade that closes leaves none open; if none closes, the result stays what it was. */
  lemma KeptCapital(s: State, s': State)
    requires Sound(s) && BooksKept(s, s') && CapitalOk(s)
    ensures CapitalOk(s')
  {
    hide ClosedPnl, OrdersOk, TradesOk, OneInDoubt, WithinDailyLimit, UniqueTrades, OneEntryPerBreakout;
    var ts, us := s.trades, s'.trades;
    if k :| 0 <= k < |ts| && Closed(us[k]) && !Closed(ts[k]) {
      forall u | u in us ensures Closed(u) {
        var i :| 0 <= i < |us| && us[i] == u;
        assert Keeps(ts[i], us[i]) && Keeps(ts[k], us[k]);
      }
    } else {
      forall i | 0 <= i < |ts| ensures Keeps(ts[i], us[i]) && (Closed(us[i]) ==> Closed(ts[i])) {
      }
      SameResult(ts, us);
      forall u | u in us && !Closed(u) ensures Needs(u) <= Ceiling(s'.policy.capital, ClosedPnl(us) + s'.archivedPnl) {
        var i :| 0 <= i < |us| && us[i] == u;
        assert ts[i] in ts && Keeps(ts[i], us[i]);
      }
    }
  }

  lemma ConservedCapital(s: State, s': State, rows: seq<ArchiveRow>, now: int)
    requires Conserved(s, s', rows, now) && CapitalOk(s)
    ensures CapitalOk(s')
  {
    hide ClosedPnl, ArchivedWhole;
  }

  lemma ArchivedCapital(s: State, now: int)
    requires Sound(s) && CapitalOk(s)
    ensures CapitalOk(Archive(s, s.trades, ARCHIVE_BATCH, now).0)
  {
    TradesOnce(s);
    hide Archive, Sound, Conserved, CapitalOk;
    ArchiveConserves(s, s.trades, ARCHIVE_BATCH, now);
    var (kept, rows) := Archive(s, s.trades, ARCHIVE_BATCH, now);
    ConservedCapital(s, kept, rows, now);
  }

  lemma NewPosition(plan: EntryPlan, quantity: int, reserve: int)
    requires plan.risk == (plan.price - plan.stopLimit) * quantity + reserve
    ensures plan.risk + plan.stopLimit * quantity == plan.price * quantity + reserve
  {
  }

  /** A planned entry is within what all past losses, archived ones included, leave of the capital. */
  lemma PlannedCapital(s: State, inputs: TickInputs, now: int)
    requires CapitalOk(s)
    ensures CapitalOk(Planned(s, inputs, now))
  {
    hide PlanVerdict, ClosedPnl, LosingStreak, DayPnl;
    var d, quote := inputs.decision, PlanQuote(inputs);
    if PlanVerdict(s, d, quote, inputs.meta, now) == PlanQueued {
      PlannedMeans(s, d, quote, inputs.meta, now);
      var plan := PricesOf(s, d.pick.value, inputs.meta.value, quote.value);
      var t := PlannedTrade(s, d.pick.value, plan, inputs.meta.value, now);
      NewPosition(plan, t.quantity, t.costReserve);
      OpenAddsNothing(s.trades, t);
      assert Needs(t) == plan.price * t.quantity + t.costReserve;
      forall u | u in s.trades + [t] && !Closed(u) ensures u == t {
      }
    }
  }

  lemma OpenAddsNothing(ts: seq<Trade>, t: Trade)
    requires !Closed(t)
    ensures ClosedPnl(ts + [t]) == ClosedPnl(ts)
  {
    assert (ts + [t])[..|ts|] == ts;
  }

  lemma PreparedCapital(w: World, x: string, inputs: TickInputs, now: int)
    requires Safe(w) && CapitalOk(w.s) && w.now <= now && x !in w.out.flights && Honest(inputs.book, w.out.rows)
    ensures var r := PrepareTick(w.s, inputs, now); r.Ok? ==> CapitalOk(r.value.state)
  {
    hide Safe, CapitalOk, Reconcile, Archive, ManageAll, Claim, Advised, Planned, Manageable, EntriesHaveTrades;
    hide EntryPending, BooksKept, Sound;
    SafeIsSound(w);
    var reconciled := Reconcile(w.s, inputs.book, inputs.positions, inputs.readAt);
    ReconcileSafe(w, inputs.book, inputs.positions, inputs.readAt, now);
    ReconcileBooks(w.s, inputs.book, inputs.positions, inputs.readAt);
    if reconciled.Ok? {
      KeptCapital(w.s, reconciled.value);
      var w1 := w.(s := reconciled.value, now := now);
      SafeIsSound(w1);
      ArchivedCapital(w1.s, now);
      ArchivedSafe(w1, now);
      var (kept, rows) := Archive(w1.s, w1.s.trades, ARCHIVE_BATCH, now);
      var w2 := w1.(s := kept, archive := w.archive + rows);
      SafeIsSound(w2);
      ManagedCapital(w2.s, inputs, now);
      ManagedSafe(w2, inputs, now);
      var managed := ManageAll(Advised(kept, inputs, now), 0, inputs.quotes, now);
      PlannedCapital(managed, inputs, now);
      PlannedSafe(w2.(s := managed), inputs, now);
      var w4 := w2.(s := Planned(managed, inputs, now));
      SafeIsSound(w4);
      ClaimedBooks(w4.s, now, !EntryPending(w4.s) || inputs.allowed);
      KeptCapital(w4.s, Claim(w4.s, now, !EntryPending(w4.s) || inputs.allowed).0);
    }
  }

  lemma ManagedCapital(s: State, inputs: TickInputs, now: int)
    requires Sound(s) && CapitalOk(s)
    ensures var advised := Advised(s, inputs, now);
      Manageable(advised) && CapitalOk(ManageAll(advised, 0, inputs.quotes, now))
  {
    hide Sound, CapitalOk, Quiet, ManageAll, Advised, Manageable, BooksKept;
    var advised := Advised(s, inputs, now);
    AdvisedSound(s, inputs, now);
    AdvisedBooks(s, inputs, now);
    KeptCapital(s, advised);
    ManageBooks(advised, 0, inputs.quotes, now);
    KeptCapital(advised, ManageAll(advised, 0, inputs.quotes, now));
  }

  lemma StepCapital(w: World, e: Event, now: int)
    requires Safe(w) && CapitalOk(w.s) && Enabled(w, e, now)
    ensures CapitalOk(Step(w, e, now).s)
  {
    hide Safe, CapitalOk, PrepareTick, Acquire, FailTick, Record, GiveUp, Honest, Lands, Evolves, Control;
    hide ConfigurePolicy, ResolveTrade, BooksKept, Sound;
    SafeIsSound(w);
    var s' := Step(w, e, now).s;
    SameBooks(w.s, w.s);
    match e
    case AcquireEvent(x) =>
      AcquireBooks(w.s, x, now);
      KeptCapital(w.s, s');
    case PrepareEvent(x, inputs) =>
      PreparedCapital(w, x, inputs, now);
    case GiveUpEvent(x) =>
      GiveUpBooks(w.s, w.out.flights[x].action.order.id);
      KeptCapital(w.s, s');
    case RecordEvent(x) =>
      RecordBooks(w.s, x, w.out.flights[x].action, w.out.flights[x].reply);
      KeptCapital(w.s, s');
    case FailEvent(x, grace) =>
      FailBooks(w.s, x, grace, now);
      KeptCapital(w.s, s');
    case ControlEvent(operation, requestId) =>
      ControlBooks(w.s, operation, requestId, now);
      KeptCapital(w.s, s');
    case PolicyEvent(loss, risk, losses, requestId) =>
      PolicyBooks(w.s, loss, risk, losses, requestId, now);
      KeptCapital(w.s, s');
    case ResolveEvent(id, reason, requestId) =>
      ResolveBooks(w.s, id, reason, requestId, now);
      KeptCapital(w.s, s');
    case _ =>
  }

  lemma FollowsCapital(w: World, w': World)
    requires Safe(w) && CapitalOk(w.s) && Follows(w, w')
    ensures CapitalOk(w'.s)
  {
    hide Safe, CapitalOk;
    var e, now :| Enabled(w, e, now) && w' == Step(w, e, now);
    StepCapital(w, e, now);
  }

  lemma {:induction false} RunCapital(ws: seq<World>, i: nat)
    requires Run(ws) && i < |ws|
    ensures CapitalOk(ws[i].s)
  {
    hide Safe, Follows;
    if i > 0 {
      RunCapital(ws, i - 1);
      RunSafe(ws, i - 1);
      FollowsCapital(ws[i - 1], ws[i]);
    }
  }

  lemma TradePriced(s: State, t: Trade, o: Order)
    requires Sound(s) && t in s.trades && o in s.orders && o.id.trade == t.id && IsBuy(o)
    ensures (o.price - t.stopLimit) * t.quantity + t.costReserve == t.plannedRisk
  {
    hide OrdersOk, OneInDoubt, OneOpen, OneEntryPerBreakout, WithinDailyLimit, NumberedInTurn, InSequence;
    hide ExitsExplained;
    var k :| 0 <= k < |s.trades| && s.trades[k] == t;
    assert TradeOk(s.trades[k], s.orders);
    var i :| 0 <= i < |s.orders| && s.orders[i] == o;
  }

  lemma EntryNeeds(s: State, t: Trade, o: Order)
    requires Sound(s) && t in s.trades && o in s.orders && o.id.trade == t.id && IsBuy(o)
    ensures Needs(t) == o.price * t.quantity + t.costReserve
  {
    hide Sound;
    TradePriced(s, t, o);
    var x, k, q := o.price, t.stopLimit, t.quantity;
    assert (x - k) * q == x * q - k * q;
  }

  /**
   At every moment of every run, what the entry of the open trade costs at its limit, with the cost reserve, is within
   the capital less the losses of all trades that ever filled and closed, were they archived since or not.
   */
  lemma WithinCapital(ws: seq<World>, i: nat, t: Trade, o: Order)
    requires Run(ws) && i < |ws| && t in ws[i].s.trades && !Closed(t)
    requires o in ws[i].s.orders && o.id.trade == t.id && IsBuy(o)
    ensures o.price * t.quantity + t.costReserve
            <= Max(0, ws[i].s.policy.capital + Min(0, ClosedPnl(EveryTrade(ws[i]))))
  {
    hide Run, Safe, Sound, EveryTrade, ClosedPnl;
    RunCapital(ws, i);
    RunSafe(ws, i);
    SafeIsSound(ws[i]);
    HistoryCounted(ws, i);
    EntryNeeds(ws[i].s, t, o);
  }
}
