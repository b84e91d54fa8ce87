/** Every run of the executor processes, the owner and the broker, from an empty record. */
module SandboxRuns {
  import opened Wrappers
  import opened SandboxTypes
  import opened Totals
  import opened SandboxSpec
  import opened SandboxInvariant
  import opened SandboxSteps
  import opened SandboxArchive
  import opened SandboxService
  import opened SandboxWorld

  datatype Event =
    | AcquireEvent(worker: string)
    | PrepareEvent(worker: string, inputs: TickInputs)
    | GiveUpEvent(worker: string)
    | PlaceEvent(worker: string, rows: seq<Row>, reply: Reply)
    | CancelEvent(worker: string, rows: seq<Row>, reply: Reply)
    | RecordEvent(worker: string)
    | FailEvent(worker: string, grace: bool)
    | CrashEvent(worker: string)
    | ControlEvent(operation: Operation, requestId: string)
    | PolicyEvent(dailyLoss: int, risk: Option<int>, losses: Option<int>, requestId: string)
    | ResolveEvent(trade: TradeId, reason: string, requestId: string)
    | BrokerEvent(rows: seq<Row>)

  predicate HasDue(w: World, x: string, kind: ActionKind) {
    x in w.out.flights && w.out.flights[x].Due? && w.out.flights[x].action.kind == kind
  }

  /** A process runs one tick at a time; the clock the record is stamped with does not go back. */
  ghost predicate Enabled(w: World, e: Event, now: int) {
    w.now <= now &&
    match e
    case AcquireEvent(x) => x !in w.out.flights
    case PrepareEvent(x, inputs) => x !in w.out.flights && Honest(inputs.book, w.out.rows)
    case GiveUpEvent(x) => HasDue(w, x, PlaceAction)
    case PlaceEvent(x, rows, reply) => HasDue(w, x, PlaceAction)
      && Lands(w.out.rows, rows, w.out.flights[x].action.order, reply)
    case CancelEvent(x, rows, reply) => HasDue(w, x, CancelAction) && Evolves(w.out.rows, rows)
    case RecordEvent(x) => x in w.out.flights && w.out.flights[x].Done?
    case FailEvent(x, grace) => x !in w.out.flights
    case BrokerEvent(rows) => Evolves(w.out.rows, rows)
    case _ => true
  }

  function Stored(w: World, r: Result<State, Error>, now: int): World {
    if r.Ok? then w.(s := r.value, now := now) else w.(now := now)
  }

  ghost function Step(w: World, e: Event, now: int): World
    requires Enabled(w, e, now)
  {
    match e
    case AcquireEvent(x) =>
      var s' := Acquire(w.s, x, now);
      if s'.Some? then w.(s := s'.value, now := now) else w.(now := now)
    case PrepareEvent(x, inputs) =>
      var r := PrepareTick(w.s, inputs, now);
      if HoldsLease(w.s, x, now) && r.Ok?
      then Taken(w.(s := r.value.state, archive := w.archive + r.value.archived, now := now), x, r.value.action)
      else w.(now := now)
    case GiveUpEvent(x) =>
      var s' := GiveUp(w.s, w.out.flights[x].action.order.id);
      w.(s := if s'.Some? then s'.value else w.s, out := w.out.(flights := w.out.flights - {x}), now := now)
    case PlaceEvent(x, rows, reply) =>
      var a := w.out.flights[x].action;
      w.(out := Outside(rows, w.out.flights[x := Done(a, reply)], w.out.placed + [a.order.id]), now := now)
    case CancelEvent(x, rows, reply) =>
      w.(out := w.out.(rows := rows, flights := w.out.flights[x := Done(w.out.flights[x].action, reply)]), now := now)
    case RecordEvent(x) =>
      var f := w.out.flights[x];
      w.(s := Record(w.s, x, f.action, f.reply), out := w.out.(flights := w.out.flights - {x}), now := now)
    case FailEvent(x, grace) =>
      var (s', a) := FailTick(w.s, x, grace, now);
      Taken(w.(s := s', now := now), x, a)
    case CrashEvent(x) => w.(out := w.out.(flights := w.out.flights - {x}), now := now)
    case ControlEvent(operation, requestId) => Stored(w, Control(w.s, operation, requestId, now), now)
    case PolicyEvent(loss, risk, losses, requestId) => Stored(w,
      ConfigurePolicy(w.s, loss, risk, losses, requestId, now), now)
    case ResolveEvent(id, reason, requestId) => Stored(w, ResolveTrade(w.s, id, reason, requestId, now), now)
    case BrokerEvent(rows) => w.(out := w.out.(rows := rows), now := now)
  }

  function InitialWorld(policy: Policy, now: int): World {
    World(InitialState(policy), [], Outside([], map[], []), now)
  }

  lemma InitiallySafe(policy: Policy, now: int)
    requires PolicyOk(policy)
    ensures Safe(InitialWorld(policy, now))
  {
  }

  lemma LaterSafe(w: World, now: int)
    requires Safe(w) && w.now <= now
    ensures Safe(w.(now := now))
  {
    DayMonotone(w.now, now);
    SameRecord(w, w.(now := now));
  }

  lemma PlanKeepsTrades(s: State, inputs: TickInputs, now: int)
    ensures TradesKeep(s.trades, Planned(s, inputs, now).trades, Day(now))
  {
    hide PlanVerdict, PricesOf;
  }

  /** From the reconciled and archived record to the one that plans are made on. */
  lemma ManagedSafe(w: World, inputs: TickInputs, now: int)
    requires Safe(w) && w.now <= now
    ensures var advised := Advised(w.s, inputs, now);
      Manageable(advised) && Safe(w.(s := ManageAll(advised, 0, inputs.quotes, now), now := now))
  {
    hide Sound, Quiet, ArchiveOk, OutsideOk, AllKnown, AllLinked, ManageAll, Advised, Manageable;
    var advised := Advised(w.s, inputs, now);
    AdvisedSound(w.s, inputs, now);
    ManageSound(advised, 0, inputs.quotes, now);
    ManageKeepsTrades(advised, 0, inputs.quotes, now);
    ReasonsKeepTrades(w.s.trades, advised.trades, Day(now));
    QuietStepSafe(w, advised, now);
    ReasonsKeepTrades(advised.trades, ManageAll(advised, 0, inputs.quotes, now).trades, Day(now));
    QuietStepSafe(w.(s := advised, now := now), ManageAll(advised, 0, inputs.quotes, now), now);
  }

  lemma PlannedSafe(w: World, inputs: TickInputs, now: int)
    requires Safe(w) && w.now <= now
    ensures Safe(w.(s := Planned(w.s, inputs, now), now := now)) && EntriesHaveTrades(Planned(w.s, inputs, now))
  {
    hide Sound, Quiet, ArchiveOk, OutsideOk, AllKnown, AllLinked, EntriesHaveTrades;
    PlanSound(w.s, inputs.decision, PlanQuote(inputs), inputs.meta, now);
    PlanKeepsTrades(w.s, inputs, now);
    QuietStepSafe(w, Planned(w.s, inputs, now), now);
    SoundHasTrades(Planned(w.s, inputs, now));
  }

  lemma ArchivedSafe(w: World, now: int)
    requires Safe(w) && w.now <= now
    ensures var (kept, rows) := Archive(w.s, w.s.trades, ARCHIVE_BATCH, now);
      Safe(w.(s := kept, archive := w.archive + rows, now := now))
  {
    hide ArchiveOk, OutsideOk, AllKnown, AllLinked, Archive, OrdersOk, TradesOk;
    ArchiveConserves(w.s, w.s.trades, ARCHIVE_BATCH, now);
    var (kept, rows) := Archive(w.s, w.s.trades, ARCHIVE_BATCH, now);
    ArchiveSafe(w, kept, rows, now);
  }

  /** The main transaction never finds the record corrupt, and keeps the world safe. */
  lemma PrepareSafe(w: World, x: string, inputs: TickInputs, now: int)
    requires Safe(w) && w.now <= now && x !in w.out.flights && Honest(inputs.book, w.out.rows)
    ensures var r := PrepareTick(w.s, inputs, now);
      && (r.Ok? ==> Safe(Taken(w.(s := r.value.state, archive := w.archive + r.value.archived, now := now), x,
         r.value.action)))
      && (r.Err? ==> Reconcile(w.s, inputs.book, inputs.positions, inputs.readAt) == Err(r.error))
  {
    hide Safe, Reconcile, Archive, ManageAll, Claim, Advised, Planned, Manageable, EntriesHaveTrades, EntryPending;
    var reconciled := Reconcile(w.s, inputs.book, inputs.positions, inputs.readAt);
    ReconcileSafe(w, inputs.book, inputs.positions, inputs.readAt, now);
    if reconciled.Ok? {
      var w1 := w.(s := reconciled.value, now := now);
      ArchivedSafe(w1, now);
      var (kept, rows) := Archive(w1.s, w1.s.trades, ARCHIVE_BATCH, now);
      var w2 := w1.(s := kept, archive := w.archive + rows);
      ManagedSafe(w2, inputs, now);
      var w3 := w2.(s := ManageAll(Advised(kept, inputs, now), 0, inputs.quotes, now));
      PlannedSafe(w3, inputs, now);
      var w4 := w3.(s := Planned(w3.s, inputs, now));
      SafeIsSound(w4);
      ClaimSound(w4.s, now, !EntryPending(w4.s) || inputs.allowed);
      var (claimed, action) := Claim(w4.s, now, !EntryPending(w4.s) || inputs.allowed);
      ClaimSafe(w4, x, claimed, action, now, now);
    }
  }

  lemma SafeIsSound(w: World)
    requires Safe(w)
    ensures Sound(w.s)
  {
  }

  lemma FailSafe(w: World, x: string, grace: bool, now: int)
    requires Safe(w) && w.now <= now && x !in w.out.flights
    ensures var (s', a) := FailTick(w.s, x, grace, now); Safe(Taken(w.(s := s', now := now), x, a))
  {
    hide Safe, Sound, ClaimEmergencyCancel;
    SafeIsSound(w);
    if !Owns(w.s, x) || (grace && Flat(w.s)) {
      LaterSafe(w, now);
    } else {
      var halted := Halted(w.s, ServiceError).(reconciledAt := None);
      SoundElsewhere(w.s, halted);
      EmergencySound(halted, now);
      var (s', a) := ClaimEmergencyCancel(halted, now);
      ClaimSafe(w, x, s', a, now, now);
    }
  }

  lemma CancelSentOk(out: Outside, x: string, reply: Reply)
    requires OutsideOk(out) && x in out.flights && out.flights[x].Due? && out.flights[x].action.kind == CancelAction
    ensures OutsideOk(out.(flights := out.flights[x := Done(out.flights[x].action, reply)]))
  {
    var out' := out.(flights := out.flights[x := Done(out.flights[x].action, reply)]);
    forall y | y in out'.flights ensures FlightOk(out', out'.flights[y]) {
      assert FlightOk(out, out.flights[y]);
    }
  }

  lemma CancelSentLinked(out: Outside, x: string, reply: Reply, o: Order)
    requires x in out.flights && out.flights[x].Due? && out.flights[x].action.kind == CancelAction && Linked(out, o)
    ensures Linked(out.(flights := out.flights[x := Done(out.flights[x].action, reply)]), o)
  {
    var out' := out.(flights := out.flights[x := Done(out.flights[x].action, reply)]);
    assert IsDue(out', o.id) ==> IsDue(out, o.id);
  }

  lemma CancelSentSafe(w: World, x: string, reply: Reply)
    requires Safe(w) && HasDue(w, x, CancelAction)
    ensures Safe(w.(out := w.out.(flights := w.out.flights[x := Done(w.out.flights[x].action, reply)])))
  {
    hide Sound, Linked, OutsideOk;
    var out' := w.out.(flights := w.out.flights[x := Done(w.out.flights[x].action, reply)]);
    CancelSentOk(w.out, x, reply);
    SameRecord(w, w.(out := out'));
    forall o | IsOrder(w, o) && !Resolved(w, o.id.trade) ensures Linked(out', o) {
      CancelSentLinked(w.out, x, reply, o);
    }
  }

  /** One event of any process, of the owner or of the broker keeps the world safe. */
  lemma StepSafe(w: World, e: Event, now: int)
    requires Safe(w) && Enabled(w, e, now)
    ensures Safe(Step(w, e, now))
  {
    hide Safe, PrepareTick, Acquire, FailTick, Record, GiveUp, Honest, Lands, Control, ConfigurePolicy, ResolveTrade;
    LaterSafe(w, now);
    var later := w.(now := now);
    match e
    case AcquireEvent(x) =>
      if Acquire(w.s, x, now).Some? {
        AcquireSafe(w, x, now);
      }
    case PrepareEvent(x, inputs) =>
      PrepareSafe(w, x, inputs, now);
    case GiveUpEvent(x) =>
      if GiveUp(w.s, w.out.flights[x].action.order.id).Some? {
        GiveUpSafe(later, x);
      } else {
        DropFlightSafe(later, x);
      }
    case PlaceEvent(x, rows, reply) =>
      SendSafe(later, x, rows, reply);
    case CancelEvent(x, rows, reply) =>
      BrokerSafe(later, rows);
      CancelSentSafe(later.(out := later.out.(rows := rows)), x, reply);
    case RecordEvent(x) =>
      RecordSafe(later, x);
    case FailEvent(x, grace) =>
      FailSafe(w, x, grace, now);
    case CrashEvent(x) =>
      DropFlightSafe(later, x);
    case ControlEvent(operation, requestId) =>
      ControlSafe(w, operation, requestId, now);
    case PolicyEvent(loss, risk, losses, requestId) =>
      ConfigureSafe(w, loss, risk, losses, requestId, now);
    case ResolveEvent(id, reason, requestId) =>
      ResolveSafe(w, id, reason, requestId, now);
    case BrokerEvent(rows) =>
      BrokerSafe(later, rows);
  }

  ghost predicate Follows(w: World, w': World) {
    exists e, now :: Enabled(w, e, now) && w' == Step(w, e, now)
  }

  lemma FollowsSafe(w: World, w': World)
    requires Safe(w) && Follows(w, w')
    ensures Safe(w')
  {
    hide Safe;
    var e, now :| Enabled(w, e, now) && w' == Step(w, e, now);
    StepSafe(w, e, now);
  }

  ghost predicate Run(ws: seq<World>) {
    && ws != [] && (exists policy, now :: PolicyOk(policy) && ws[0] == InitialWorld(policy, now))
    && forall i :: 0 < i < |ws| ==> Follows(ws[i - 1], ws[i])
  }

  /** Every state of every run is safe. */
  lemma {:induction false} RunSafe(ws: seq<World>, i: nat)
    requires Run(ws) && i < |ws|
    ensures Safe(ws[i])
  {
    hide Safe;
    if i == 0 {
      var policy, now :| PolicyOk(policy) && ws[0] == InitialWorld(policy, now);
      InitiallySafe(policy, now);
    } else {
      RunSafe(ws, i - 1);
      FollowsSafe(ws[i - 1], ws[i]);
    }
  }

  /** The shape of the record in every state of every run. */
  lemma RunStructure(ws: seq<World>, i: nat)
    requires Run(ws) && i < |ws|
    ensures var s := ws[i].s;
      && (forall t, u :: t in s.trades && u in s.trades && !Closed(t) && !Closed(u) ==> t == u)
      && (forall o :: o in s.orders && Working(o) ==> TradeOpenIn(s.trades, o.id.trade))
      && (forall t :: t in s.trades ==>
            && Total(Placed(EntryKind), t.id, s.orders) == 1
            && Total(Placed(StopKind), t.id, s.orders) <= 1
            && Total(Placed(ExitKind), t.id, s.orders) <= 3
            && Total(Committed, t.id, s.orders) <= Total(Bought, t.id, s.orders))
      && (forall o, p :: o in s.orders && p in s.orders && Working(o) && Working(p) && o.id.kind.StopKind? ==>
         !p.id.kind.ExitKind?)
      && (forall o :: o in s.orders ==> o.cancelAttempts <= 3)
      && (forall day :: OpenedOn(s.trades, day) <= Max(s.policy.maxTradesPerDay, 0))
      && (forall t, u :: t in s.trades && u in s.trades && t.breakoutId.Some? && t.breakoutId == u.breakoutId ==>
         t == u)
  {
    RunSafe(ws, i);
    SafeIsSound(ws[i]);
    SoundShape(ws[i].s);
  }

  lemma WorkingOrderHome(s: State, o: Order)
    requires Sound(s) && o in s.orders && Working(o)
    ensures exists t :: t in s.trades && t.id == o.id.trade && !Closed(t)
  {
    var k :| 0 <= k < |s.orders| && s.orders[k] == o;
    assert Homed(s.trades, s.orders[k]);
    var h :| 0 <= h < |s.trades| && s.trades[h].id == o.id.trade && (Working(o) ==> !Closed(s.trades[h]));
    assert s.trades[h] in s.trades;
  }

  lemma OpenTradesEqual(s: State, t: Trade, u: Trade)
    requires Sound(s) && t in s.trades && u in s.trades
    ensures !Closed(t) && !Closed(u) ==> t == u
    ensures t.breakoutId.Some? && t.breakoutId == u.breakoutId ==> t == u
  {
    var i, j :| 0 <= i < |s.trades| && 0 <= j < |s.trades| && s.trades[i] == t && s.trades[j] == u;
  }

  lemma StopOrExit(s: State, o: Order, p: Order)
    requires Sound(s) && o in s.orders && p in s.orders && Working(o) && Working(p) && o.id.kind.StopKind?
    ensures !p.id.kind.ExitKind?
  {
    WorkingOrderHome(s, o);
    WorkingOrderHome(s, p);
    var t :| t in s.trades && t.id == o.id.trade && !Closed(t);
    var u :| u in s.trades && u.id == p.id.trade && !Closed(u);
    OpenTradesEqual(s, t, u);
    var k :| 0 <= k < |s.trades| && s.trades[k] == t;
    assert TradeOk(s.trades[k], s.orders);
    var i, j :| 0 <= i < |s.orders| && 0 <= j < |s.orders| && s.orders[i] == o && s.orders[j] == p;
  }

  lemma SoundShape(s: State)
    requires Sound(s)
    ensures forall t, u :: t in s.trades && u in s.trades && !Closed(t) && !Closed(u) ==> t == u
    ensures forall o :: o in s.orders && Working(o) ==> TradeOpenIn(s.trades, o.id.trade)
    ensures forall t :: t in s.trades ==> TradeOk(t, s.orders)
    ensures forall o, p :: o in s.orders && p in s.orders && Working(o) && Working(p) && o.id.kind.StopKind? ==>
      !p.id.kind.ExitKind?
    ensures forall o :: o in s.orders ==> OrderOk(o)
    ensures forall t, u :: t in s.trades && u in s.trades && t.breakoutId.Some? && t.breakoutId == u.breakoutId ==>
      t == u
  {
    forall t, u | t in s.trades && u in s.trades
      ensures !Closed(t) && !Closed(u) ==> t == u
      ensures t.breakoutId.Some? && t.breakoutId == u.breakoutId ==> t == u
    {
      OpenTradesEqual(s, t, u);
    }
    forall o | o in s.orders && Working(o) ensures TradeOpenIn(s.trades, o.id.trade) {
      WorkingOrderHome(s, o);
    }
    forall o, p | o in s.orders && p in s.orders && Working(o) && Working(p) && o.id.kind.StopKind?
      ensures !p.id.kind.ExitKind?
    {
      StopOrExit(s, o, p);
    }
    forall t | t in s.trades ensures TradeOk(t, s.orders) {
      var k :| 0 <= k < |s.trades| && s.trades[k] == t;
    }
    forall o | o in s.orders ensures OrderOk(o) {
      var k :| 0 <= k < |s.orders| && s.orders[k] == o;
    }
  }
}
