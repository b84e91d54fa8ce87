/** An order that left the queue never comes back to it, not even after its trade was archived. */
module NoRequeue {
  import opened Wrappers
  import opened SandboxTypes
  import opened SandboxSpec
  import opened SandboxInvariant
  import opened SandboxSteps
  import opened SandboxArchive
  import opened SandboxService
  import opened SandboxWorld
  import opened SandboxRuns

  ghost predicate QueuedIn(w: World, id: OrderId) {
    exists o :: IsOrder(w, o) && o.id == id && o.state == Queued
  }

  /** No id is forgotten, and what is queued was queued before or is new. */
  ghost predicate Onward(w: World, w': World) {
    && (forall id :: Known(w, id) ==> Known(w', id))
    && (forall id :: QueuedIn(w', id) ==> QueuedIn(w, id) || !Known(w, id))
  }

  lemma OnwardThen(w: World, m: World, w': World)
    requires Onward(w, m) && Onward(m, w')
    ensures Onward(w, w')
  {
    hide Known, QueuedIn;
  }

  lemma SameOnward(w: World, w': World)
    requires forall o :: IsOrder(w', o) <==> IsOrder(w, o)
    ensures Onward(w, w')
  {
  }

  /** Orders change in place, none back to the queue, and new ones are added. */
  ghost predicate StayOut(os: seq<Order>, ps: seq<Order>) {
    |os| <= |ps| && forall i :: 0 <= i < |os| ==>
      ps[i].id == os[i].id && (ps[i].state == Queued ==> os[i].state == Queued)
  }

  /** A new order has an id that neither the record nor the archive knows. */
  lemma NewIsUnknown(w: World, w': World, i: nat)
    requires Safe(w') && w'.archive == w.archive && StayOut(w.s.orders, w'.s.orders)
    requires |w.s.orders| <= i < |w'.s.orders|
    ensures !Known(w, w'.s.orders[i].id)
  {
    var p := w'.s.orders[i];
    assert p in w'.s.orders;
    forall o | IsOrder(w, o) ensures o.id != p.id {
      if o in w.s.orders {
        var j :| 0 <= j < |w.s.orders| && w.s.orders[j] == o;
        assert w'.s.orders[j].id != w'.s.orders[i].id;
      } else {
        var a :| a in w.archive && o in a.orders;
        HotApart(w', a, p);
      }
    }
  }

  lemma RecordOnward(w: World, w': World)
    requires Safe(w') && w'.archive == w.archive && StayOut(w.s.orders, w'.s.orders)
    ensures Onward(w, w')
  {
    hide Safe;
    forall o | IsOrder(w, o) ensures Known(w', o.id) {
      if o in w.s.orders {
        var i :| 0 <= i < |w.s.orders| && w.s.orders[i] == o;
        assert IsOrder(w', w'.s.orders[i]);
      } else {
        assert IsOrder(w', o);
      }
    }
    forall p | IsOrder(w', p) && p.state == Queued ensures QueuedIn(w, p.id) || !Known(w, p.id) {
      if p in w'.s.orders {
        var i :| 0 <= i < |w'.s.orders| && w'.s.orders[i] == p;
        if i < |w.s.orders| {
          assert IsOrder(w, w.s.orders[i]);
        } else {
          NewIsUnknown(w, w', i);
        }
      } else {
        assert IsOrder(w, p);
      }
    }
  }

  lemma QuietStaysOut(os: seq<Order>, ps: seq<Order>)
    requires Quiet(os, ps)
    ensures StayOut(os, ps)
  {
    forall i | 0 <= i < |os| ensures ps[i].id == os[i].id && (ps[i].state == Queued ==> os[i].state == Queued) {
      assert QuietStep(os[i], ps[i]);
    }
  }

  lemma HeardStaysOut(os: seq<Order>, ps: seq<Order>, book: seq<BookRow>)
    requires AllHeard(os, ps, book)
    ensures StayOut(os, ps)
  {
    forall i | 0 <= i < |os| ensures ps[i].id == os[i].id && (ps[i].state == Queued ==> os[i].state == Queued) {
      assert Heard(os[i], ps[i], book);
    }
  }

  lemma ClaimedStaysOut(os: seq<Order>, ps: seq<Order>, a: Option<Action>, now: int)
    requires Claimed(os, ps, a, now)
    ensures StayOut(os, ps)
  {
  }

  lemma ReconcileOnward(w: World, book: seq<BookRow>, positions: Option<seq<Position>>, readAt: int, now: int)
    requires Safe(w) && Honest(book, w.out.rows) && w.now <= now
    ensures var r := Reconcile(w.s, book, positions, readAt); r.Ok? ==> Onward(w, w.(s := r.value, now := now))
  {
    hide Reconcile, AllHeard, Honest, StayOut;
    hide Safe;
    ReconcileSafe(w, book, positions, readAt, now);
    HonestBooksStay(w, book);
    SafeIsSound(w);
    ReconcileSound(w.s, book, positions, readAt);
    var r := Reconcile(w.s, book, positions, readAt);
    if r.Ok? {
      HeardStaysOut(w.s.orders, r.value.orders, book);
      RecordOnward(w, w.(s := r.value, now := now));
    }
  }

  lemma ArchiveOnward(w: World, now: int)
    requires Safe(w)
    ensures var (kept, rows) := Archive(w.s, w.s.trades, ARCHIVE_BATCH, now);
      Onward(w, w.(s := kept, archive := w.archive + rows, now := now))
  {
    hide Archive;
    SafeIsSound(w);
    TradesOnce(w.s);
    ArchiveConserves(w.s, w.s.trades, ARCHIVE_BATCH, now);
    var (kept, rows) := Archive(w.s, w.s.trades, ARCHIVE_BATCH, now);
    var w' := w.(s := kept, archive := w.archive + rows, now := now);
    forall o ensures IsOrder(w', o) <==> IsOrder(w, o) {
      assert OrderInRows(w'.archive, o) <==> OrderInRows(w.archive, o) || OrderInRows(rows, o);
    }
    SameOnward(w, w');
  }

  lemma ManagedOnward(w: World, inputs: TickInputs, now: int)
    requires Safe(w) && w.now <= now
    ensures var advised := Advised(w.s, inputs, now);
      Manageable(advised) && Onward(w, w.(s := ManageAll(advised, 0, inputs.quotes, now), now := now))
  {
    hide Safe, Sound, Quiet, ManageAll, Advised, Manageable;
    SafeIsSound(w);
    ManagedSafe(w, inputs, now);
    var advised := Advised(w.s, inputs, now);
    AdvisedSound(w.s, inputs, now);
    ManageSound(advised, 0, inputs.quotes, now);
    QuietCompose(w.s.orders, advised.orders, ManageAll(advised, 0, inputs.quotes, now).orders);
    QuietStaysOut(w.s.orders, ManageAll(advised, 0, inputs.quotes, now).orders);
    RecordOnward(w, w.(s := ManageAll(advised, 0, inputs.quotes, now), now := now));
  }

  lemma PlannedOnward(w: World, inputs: TickInputs, now: int)
    requires Safe(w) && w.now <= now
    ensures Onward(w, w.(s := Planned(w.s, inputs, now), now := now))
  {
    hide Safe, Sound, Quiet, EntriesHaveTrades;
    SafeIsSound(w);
    PlannedSafe(w, inputs, now);
    PlanSound(w.s, inputs.decision, PlanQuote(inputs), inputs.meta, now);
    QuietStaysOut(w.s.orders, Planned(w.s, inputs, now).orders);
    RecordOnward(w, w.(s := Planned(w.s, inputs, now), now := now));
  }

  lemma ClaimedOnward(w: World, x: string, s': State, a: Option<Action>, claimedAt: int, now: int)
    requires Safe(w) && x !in w.out.flights && w.now <= now
    requires Sound(s') && s'.trades == w.s.trades && Claimed(w.s.orders, s'.orders, a, claimedAt)
    ensures Onward(w, Taken(w.(s := s', now := now), x, a))
  {
    hide Safe, Sound, Claimed;
    ClaimSafe(w, x, s', a, claimedAt, now);
    ClaimedStaysOut(w.s.orders, s'.orders, a, claimedAt);
    RecordOnward(w, Taken(w.(s := s', now := now), x, a));
  }

  /** The main transaction, stage by stage. */
  lemma PrepareOnward(w: World, x: string, inputs: TickInputs, now: int)
    requires Safe(w) && w.now <= now && x !in w.out.flights && Honest(inputs.book, w.out.rows)
    ensures var r := PrepareTick(w.s, inputs, now);
      r.Ok? ==> Onward(w, Taken(w.(s := r.value.state, archive := w.archive + r.value.archived, now := now), x,
        r.value.action))
  {
    hide Safe, Onward, Reconcile, Archive, ManageAll, Claim, Advised, Planned, Manageable, EntriesHaveTrades;
    hide EntryPending;
    var reconciled := Reconcile(w.s, inputs.book, inputs.positions, inputs.readAt);
    ReconcileSafe(w, inputs.book, inputs.positions, inputs.readAt, now);
    ReconcileOnward(w, inputs.book, inputs.positions, inputs.readAt, now);
    if reconciled.Ok? {
      var w1 := w.(s := reconciled.value, now := now);
      ArchivedSafe(w1, now);
      ArchiveOnward(w1, now);
      var (kept, rows) := Archive(w1.s, w1.s.trades, ARCHIVE_BATCH, now);
      var w2 := w1.(s := kept, archive := w.archive + rows);
      ManagedSafe(w2, inputs, now);
      ManagedOnward(w2, inputs, now);
      var w3 := w2.(s := ManageAll(Advised(kept, inputs, now), 0, inputs.quotes, now));
      PlannedSafe(w3, inputs, now);
      PlannedOnward(w3, inputs, now);
      var w4 := w3.(s := Planned(w3.s, inputs, now));
      SafeIsSound(w4);
      ClaimSound(w4.s, now, !EntryPending(w4.s) || inputs.allowed);
      var (claimed, action) := Claim(w4.s, now, !EntryPending(w4.s) || inputs.allowed);
      ClaimedOnward(w4, x, claimed, action, now, now);
      OnwardThen(w, w1, w2);
      OnwardThen(w, w2, w3);
      OnwardThen(w, w3, w4);
      OnwardThen(w, w4, Taken(w4.(s := claimed, now := now), x, action));
    }
  }

  lemma FailOnward(w: World, x: string, grace: bool, now: int)
    requires Safe(w) && w.now <= now && x !in w.out.flights
    ensures var (s', a) := FailTick(w.s, x, grace, now); Onward(w, Taken(w.(s := s', now := now), x, a))
  {
    hide Safe, Sound, ClaimEmergencyCancel, Claimed;
    SafeIsSound(w);
    FailSafe(w, x, grace, now);
    var (s', a) := FailTick(w.s, x, grace, now);
    if !Owns(w.s, x) || (grace && Flat(w.s)) {
      RecordOnward(w, Taken(w.(s := s', now := now), x, a));
    } else {
      var halted := Halted(w.s, ServiceError).(reconciledAt := None);
      SoundElsewhere(w.s, halted);
      EmergencySound(halted, now);
      ClaimedStaysOut(w.s.orders, s'.orders, a, now);
      RecordOnward(w, Taken(w.(s := s', now := now), x, a));
    }
  }

  lemma RecordedOut(s: State, worker: string, a: Action, reply: Reply)
    ensures StayOut(s.orders, Record(s, worker, a, reply).orders)
  {
    hide Finish;
    FinishAnswers(s, a, reply);
  }

  lemma GaveUpOut(s: State, id: OrderId)
    ensures GiveUp(s, id).Some? ==> StayOut(s.orders, GiveUp(s, id).value.orders)
  {
  }

  lemma OwnerOut(s: State, e: Event, now: int)
    requires e.ControlEvent? || e.PolicyEvent? || e.ResolveEvent? || e.AcquireEvent?
    ensures match e
      case ControlEvent(op, id) => Control(s, op, id, now).Ok? ==>
        StayOut(s.orders, Control(s, op, id, now).value.orders)
      case PolicyEvent(loss, risk, losses, id) =>
        ConfigurePolicy(s, loss, risk, losses, id, now).Ok? ==>
          StayOut(s.orders, ConfigurePolicy(s, loss, risk, losses, id, now).value.orders)
      case ResolveEvent(t, reason, id) =>
        ResolveTrade(s, t, reason, id, now).Ok? ==> StayOut(s.orders, ResolveTrade(s, t, reason, id, now).value.orders)
      case AcquireEvent(x) => Acquire(s, x, now).Some? ==> StayOut(s.orders, Acquire(s, x, now).value.orders)
      case _ => true
  {
    hide DayPnl, NetResult, ExitAll, ValidRequest;
  }

  /** Every event moves orders onward only. */
  lemma StepOnward(w: World, e: Event, now: int)
    requires Safe(w) && Enabled(w, e, now)
    ensures Onward(w, Step(w, e, now))
  {
    hide Safe, Onward, StayOut, PrepareTick, Acquire, FailTick, Record, GiveUp, Honest, Lands, Evolves, Control;
    hide ConfigurePolicy, ResolveTrade;
    StepSafe(w, e, now);
    var w' := Step(w, e, now);
    match e
    case PrepareEvent(x, inputs) =>
      PrepareOnward(w, x, inputs, now);
      UntouchedOnward(w, w.(now := now));
    case FailEvent(x, grace) =>
      FailOnward(w, x, grace, now);
    case GiveUpEvent(x) =>
      GaveUpOut(w.s, w.out.flights[x].action.order.id);
      StayOutSelf(w.s.orders);
      RecordOnward(w, w');
    case RecordEvent(x) =>
      RecordedOut(w.s, x, w.out.flights[x].action, w.out.flights[x].reply);
      RecordOnward(w, w');
    case PlaceEvent(_, _, _) => UntouchedOnward(w, w');
    case CancelEvent(_, _, _) => UntouchedOnward(w, w');
    case CrashEvent(_) => UntouchedOnward(w, w');
    case BrokerEvent(_) => UntouchedOnward(w, w');
    case _ =>
      OwnerOut(w.s, e, now);
      StayOutSelf(w.s.orders);
      RecordOnward(w, w');
  }

  lemma StayOutSelf(os: seq<Order>)
    ensures StayOut(os, os)
  {
  }

  lemma UntouchedOnward(w: World, w': World)
    requires w'.s == w.s && w'.archive == w.archive
    ensures Onward(w, w')
  {
    assert forall o :: IsOrder(w', o) <==> IsOrder(w, o);
    SameOnward(w, w');
  }

  lemma FollowsOnward(w: World, w': World)
    requires Safe(w) && Follows(w, w')
    ensures Onward(w, w')
  {
    hide Safe, Onward;
    var e, now :| Enabled(w, e, now) && w' == Step(w, e, now);
    StepOnward(w, e, now);
  }

  /** On every run: an order, once known and out of the queue, is known for good and never queued again. */
  lemma {:induction false} NeverQueuedAgain(ws: seq<World>, i: nat, j: nat, id: OrderId)
    requires Run(ws) && i <= j < |ws| && Known(ws[i], id) && !QueuedIn(ws[i], id)
    ensures Known(ws[j], id) && !QueuedIn(ws[j], id)
  {
    hide Safe, Known, QueuedIn, Follows;
    if i < j {
      NeverQueuedAgain(ws, i, j - 1, id);
      RunSafe(ws, j - 1);
      FollowsOnward(ws[j - 1], ws[j]);
    }
  }
}
