/**
 One IST day of the executor on the paper broker: one process at a time, restarted at will, whose calls may land late
 or lose their acknowledgement. Each move is a move of the executor beside an arbitrary honest broker, so that world's
 safety carries over; and the record tracks the paper book closely enough for reconciling never to raise an error.
 */
module PaperRuns {
  import opened Wrappers
  import opened SandboxTypes
  import opened SandboxSpec
  import opened SandboxInvariant
  import opened SandboxSteps
  import opened SandboxArchive
  import opened SandboxService
  import opened SandboxWorld
  import opened SandboxRuns
  import opened PaperSpec
  import opened PaperAgreement

  /**
   What the running process has read of the broker in this tick; the positions come after the book. The two reads are
   crossed when a read that a former process had begun filled orders between them.
   */
  datatype Snapshot = Snapshot(rows: seq<PaperRow>, positions: Option<seq<Position>>, crossed: bool)

  /**
   older is what was kept of orders of earlier days. begun is when the running process began the book read it is waiting
   for; former holds the same of processes replaced while they waited, whose reads may still land.
   */
  datatype PaperWorld = PaperWorld(
    w: World,
    older: seq<Row>,
    paper: seq<PaperRow>,
    worker: string,
    snap: Option<Snapshot>,
    begun: Option<int>,
    former: multiset<int>)

  /**
   caller is the process that made a call, running or dead. A call that did not land left no trace in the book; one that
   was not heard landed, but its reply was lost. A book read is begun at one time and lands at a later one; a late read
   is one that a former process had begun, whose fills land now.
   */
  datatype PaperEvent =
    | Restarted(worker: string)
    | Acquired
    | ReadBegun
    | BookRead(live: map<string, LiveQuote>, started: int)
    | LateRead(live: map<string, LiveQuote>, started: int)
    | PositionsRead
    | Ticked(inputs: TickInputs)
    | GaveUp
    | PlaceCalled(caller: string, id: string, asked: int, landed: bool, heard: bool)
    | CancelCalled(caller: string, landed: bool, heard: bool)
    | Recorded
    | Dropped(caller: string)
    | TickFailed(grace: bool)
    | OwnerControl(operation: Operation, requestId: string)
    | OwnerPolicy(dailyLoss: int, risk: Option<int>, losses: Option<int>, requestId: string)
    | OwnerResolve(trade: TradeId, reason: string, requestId: string)

  function RequestOf(o: Order): Request {
    Request(Instrument(o.id.trade), o.quantity, o.price, IsBuy(o), o.id, o.id.kind.StopKind?, o.trigger)
  }

  function BrokerIdOf(o: Order): string {
    if o.brokerId.Some? then o.brokerId.value else ""
  }

  function Idle(pw: PaperWorld): bool {
    pw.worker !in pw.w.out.flights
  }

  /** The process runs its tick in order: begin and finish the book read, read the positions, prepare, call, record. */
  predicate PaperEnabled(pw: PaperWorld, e: PaperEvent, now: int) {
    pw.w.now <= now && Day(now) == Day(pw.w.now) &&
    match e
    case Restarted(y) => y != pw.worker && y !in pw.w.out.flights
    case Acquired => Idle(pw)
    case ReadBegun => Idle(pw) && pw.begun.None?
    case BookRead(live, started) => Idle(pw) && pw.begun == Some(started) && Day(started) == Day(now)
    case LateRead(live, started) => started in pw.former
    case PositionsRead => pw.snap.Some? && pw.snap.value.positions.None?
    case Ticked(inputs) =>
      && Idle(pw) && pw.snap.Some? && pw.snap.value.positions.Some? && Day(inputs.readAt) == Day(now)
      && inputs.book == Report(pw.snap.value.rows) && inputs.positions == pw.snap.value.positions
    case GaveUp => HasDue(pw.w, pw.worker, PlaceAction)
    case PlaceCalled(y, id, asked, landed, heard) =>
      HasDue(pw.w, y, PlaceAction) && id != "" && forall r :: r in pw.paper ==> r.id != id
    case CancelCalled(y, landed, heard) => HasDue(pw.w, y, CancelAction)
    case Recorded => pw.worker in pw.w.out.flights && pw.w.out.flights[pw.worker].Done?
    case TickFailed(grace) => Idle(pw)
    case _ => true
  }

  function PaperAfter(pw: PaperWorld, e: PaperEvent, now: int): seq<PaperRow> {
    match e
    case BookRead(live, started) => ReadBook(pw.paper, live, started, now).0
    case LateRead(live, started) => ReadBook(pw.paper, live, started, now).0
    case PlaceCalled(y, id, asked, landed, heard) =>
      if y in pw.w.out.flights && landed
        then Place(pw.paper, RequestOf(pw.w.out.flights[y].action.order), id, asked, now).0 else pw.paper
    case CancelCalled(y, landed, heard) =>
      if y in pw.w.out.flights && landed then CancelRow(pw.paper, BrokerIdOf(pw.w.out.flights[y].action.order)).0
        else pw.paper
    case _ => pw.paper
  }

  function RowsOf(older: seq<Row>, paper: seq<PaperRow>, day: int): seq<Row> {
    older + KeptAll(Shown(paper, day))
  }

  /** What the executor beside an arbitrary broker would call this event. */
  function AsEvent(pw: PaperWorld, e: PaperEvent, now: int): Event {
    var rows := RowsOf(pw.older, PaperAfter(pw, e, now), Day(now));
    match e
    case Restarted(y) => CrashEvent(y)
    case Acquired => AcquireEvent(pw.worker)
    case ReadBegun => CrashEvent(pw.worker)
    case BookRead(live, started) => BrokerEvent(rows)
    case LateRead(live, started) => BrokerEvent(rows)
    case PositionsRead => CrashEvent(pw.worker)
    case Ticked(inputs) => PrepareEvent(pw.worker, inputs)
    case GaveUp => GiveUpEvent(pw.worker)
    case PlaceCalled(y, id, asked, landed, heard) =>
      if y in pw.w.out.flights then
        var reply := Place(pw.paper, RequestOf(pw.w.out.flights[y].action.order), id, asked, now).1;
        // A call with an order the paper broker refuses to read raises an error: nothing is left to record.
        if reply.Err? then CrashEvent(y) else PlaceEvent(y, rows, if landed && heard then reply.value else LostReply)
      else CrashEvent(y)
    case CancelCalled(y, landed, heard) =>
      if y in pw.w.out.flights then
        var reply := CancelRow(pw.paper, BrokerIdOf(pw.w.out.flights[y].action.order)).1;
        CancelEvent(y, rows, if landed && heard then reply else LostReply)
      else CrashEvent(y)
    case Recorded => RecordEvent(pw.worker)
    case Dropped(y) => CrashEvent(y)
    case TickFailed(grace) => FailEvent(pw.worker, grace)
    case OwnerControl(operation, requestId) => ControlEvent(operation, requestId)
    case OwnerPolicy(loss, risk, losses, requestId) => PolicyEvent(loss, risk, losses, requestId)
    case OwnerResolve(id, reason, requestId) => ResolveEvent(id, reason, requestId)
  }

  function SnapAfter(pw: PaperWorld, e: PaperEvent, now: int): Option<Snapshot> {
    match e
    case BookRead(live, started) => Some(Snapshot(ReadBook(pw.paper, live, started, now).1, None, false))
    case LateRead(_, _) =>
      if pw.snap.Some? && pw.snap.value.positions.None? then Some(pw.snap.value.(crossed := true)) else pw.snap
    case PositionsRead =>
      if pw.snap.Some? then Some(pw.snap.value.(positions := Some(Positions(Shown(pw.paper, Day(now)))))) else None
    case Restarted(_) => None
    case ReadBegun => None
    case Ticked(_) => None
    case TickFailed(_) => None
    case _ => pw.snap
  }

  /** A tick that fails waits for no read any more. */
  function BegunAfter(pw: PaperWorld, e: PaperEvent, now: int): Option<int> {
    match e
    case ReadBegun => Some(now)
    case BookRead(_, _) => None
    case Restarted(_) => None
    case TickFailed(_) => None
    case _ => pw.begun
  }

  function FormerAfter(pw: PaperWorld, e: PaperEvent): multiset<int> {
    match e
    case Restarted(_) => if pw.begun.Some? then pw.former + multiset{pw.begun.value} else pw.former
    case LateRead(_, started) => pw.former - multiset{started}
    case _ => pw.former
  }

  ghost function PaperStep(pw: PaperWorld, e: PaperEvent, now: int): PaperWorld {
    var w' := if Enabled(pw.w, AsEvent(pw, e, now), now) then Step(pw.w, AsEvent(pw, e, now), now)
      else pw.w.(now := now);
    PaperWorld(w', pw.older, PaperAfter(pw, e, now), if e.Restarted? then e.worker else pw.worker,
      SnapAfter(pw, e, now), BegunAfter(pw, e, now), FormerAfter(pw, e))
  }

  // The invariant.

  ghost predicate OlderOk(older: seq<Row>, day: int) {
    forall r :: r in older ==> r.tag.trade.day != day
  }

  predicate SameSizeAndPrice(o: Order, p: Order) {
    p.id == o.id && p.quantity == o.quantity && p.price == o.price && p.trigger == o.trigger
  }

  predicate InBook(rows: seq<PaperRow>, tag: OrderId, id: string) {
    exists r :: r in rows && r.tag == tag && r.id == id
  }

  /** A placement to make is of an order of the record; one that was made is answered as the book shows. */
  ghost predicate FlightFits(os: seq<Order>, f: Flight, rows: seq<PaperRow>, day: int) {
    f.action.kind == PlaceAction ==>
      && OfDayOrder(f.action.order, day)
      && (exists o :: o in os && SameSizeAndPrice(f.action.order, o))
      && (f.Done? ==>
            match f.reply
            case AckReply(id) => id.Some? && InBook(rows, f.action.order.id, id.value)
            case RejectReply => forall r :: r in rows ==> r.tag != f.action.order.id
            case LostReply => true)
  }

  ghost predicate FlightsFit(w: World, rows: seq<PaperRow>, day: int) {
    forall x :: x in w.out.flights ==> FlightFits(w.s.orders, w.out.flights[x], rows, day)
  }

  ghost predicate SameFills(rows: seq<PaperRow>, ps: seq<PaperRow>) {
    && |rows| <= |ps|
    && (forall i :: 0 <= i < |rows| ==> ps[i].filled == rows[i].filled)
    && (forall i :: |rows| <= i < |ps| ==> ps[i].filled == 0)
  }

  ghost predicate SnapOk(pw: PaperWorld, day: int) {
    pw.snap.Some? ==>
      var rows := pw.snap.value.rows;
      && Idle(pw) && BookOk(rows) && (forall r :: r in rows ==> r.day == day)
      && AllGrown(rows, Shown(pw.paper, day)) && AllTracked(pw.w.s.orders, rows, day)
      && match pw.snap.value.positions
         case None => !pw.snap.value.crossed ==> SameFills(rows, Shown(pw.paper, day))
         case Some(ps) => AllIntraday(ps) && (!pw.snap.value.crossed ==> NetsMatch(ps, rows))
  }

  ghost predicate RecordFits(w: World, rows: seq<PaperRow>, day: int) {
    && TodayOnly(w.s.trades, day) && Explained(w.s.orders, rows, day) && AllTracked(w.s.orders, rows, day)
    && FlightsFit(w, rows, day)
  }

  ghost predicate PaperOk(pw: PaperWorld, day: int) {
    && Safe(pw.w) && Day(pw.w.now) == day
    && BookOk(pw.paper) && pw.w.out.rows == RowsOf(pw.older, pw.paper, day) && OlderOk(pw.older, day)
    && RecordFits(pw.w, Shown(pw.paper, day), day)
    && SnapOk(pw, day)
  }

  // How orders may change between two readings.

  /** What the record knows from the broker stays; only a queued order may end. */
  predicate TrackStep(o: Order, p: Order) {
    && SameSizeAndPrice(o, p) && p.brokerId == o.brokerId && p.filled == o.filled
    && (Terminal(p) ==> p.state == o.state || o.state == Queued)
    && (p.state == Queued ==> o.state == Queued)
  }

  ghost predicate Fresh(os: seq<Order>, p: Order) {
    p.brokerId.None? && p.filled == 0 && forall o :: o in os ==> o.id != p.id
  }

  ghost predicate Derived(os: seq<Order>, p: Order) {
    Fresh(os, p) || exists o :: o in os && TrackStep(o, p)
  }

  ghost predicate Survives(o: Order, ps: seq<Order>) {
    exists p :: p in ps && SameSizeAndPrice(o, p)
  }

  ghost predicate Descends(os: seq<Order>, ps: seq<Order>, day: int) {
    && (forall p :: p in ps && OfDayOrder(p, day) ==> Derived(os, p))
    && (forall o :: o in os && OfDayOrder(o, day) ==> Survives(o, ps))
  }

  lemma DerivedCompose(os: seq<Order>, ps: seq<Order>, q: Order, day: int)
    requires Descends(os, ps, day) && Derived(ps, q) && OfDayOrder(q, day)
    ensures Derived(os, q)
  {
    if Fresh(ps, q) {
      forall o | o in os ensures o.id != q.id {
        if OfDayOrder(o, day) {
          assert Survives(o, ps);
          var p :| p in ps && SameSizeAndPrice(o, p);
          assert p.id != q.id;
        }
      }
    } else {
      var p :| p in ps && TrackStep(p, q);
      assert Derived(os, p);
      if !Fresh(os, p) {
        var o :| o in os && TrackStep(o, p);
        assert TrackStep(o, q);
      }
    }
  }

  lemma SurvivesCompose(o: Order, ps: seq<Order>, qs: seq<Order>, day: int)
    requires Survives(o, ps) && Descends(ps, qs, day) && OfDayOrder(o, day)
    ensures Survives(o, qs)
  {
    hide Derived;
    var p :| p in ps && SameSizeAndPrice(o, p);
    assert Survives(p, qs);
    var q :| q in qs && SameSizeAndPrice(p, q);
    assert SameSizeAndPrice(o, q);
  }

  lemma DescendsCompose(os: seq<Order>, ps: seq<Order>, qs: seq<Order>, day: int)
    requires Descends(os, ps, day) && Descends(ps, qs, day)
    ensures Descends(os, qs, day)
  {
    hide Derived, Survives;
    forall q | q in qs && OfDayOrder(q, day) ensures Derived(os, q) {
      DerivedCompose(os, ps, q, day);
    }
    forall o | o in os && OfDayOrder(o, day) ensures Survives(o, qs) {
      SurvivesCompose(o, ps, qs, day);
    }
  }

  lemma InPlaceDescends(os: seq<Order>, ps: seq<Order>, day: int)
    requires |os| == |ps| && forall i :: 0 <= i < |os| ==> TrackStep(os[i], ps[i])
    ensures Descends(os, ps, day)
  {
    forall p | p in ps ensures exists o :: o in os && TrackStep(o, p) {
      var i :| 0 <= i < |ps| && ps[i] == p;
      assert os[i] in os;
    }
    forall o | o in os ensures exists p :: p in ps && SameSizeAndPrice(o, p) {
      var i :| 0 <= i < |os| && os[i] == o;
      assert ps[i] in ps && TrackStep(os[i], ps[i]);
    }
  }

  lemma QuietDescends(os: seq<Order>, ps: seq<Order>, day: int)
    requires Quiet(os, ps) && UniqueOrders(ps)
    ensures Descends(os, ps, day)
  {
    forall i | 0 <= i < |os| ensures TrackStep(os[i], ps[i]) {
      assert QuietStep(os[i], ps[i]);
    }
    var qs := ps[..|os|];
    InPlaceDescends(os, qs, day);
    forall p | p in ps ensures Fresh(os, p) || exists o :: o in os && TrackStep(o, p) {
      var i :| 0 <= i < |ps| && ps[i] == p;
      if i < |os| {
        assert os[i] in os;
      } else {
        forall o | o in os ensures o.id != p.id {
          var j :| 0 <= j < |os| && os[j] == o;
          assert ps[j].id == o.id;
        }
      }
    }
    forall o | o in os && OfDayOrder(o, day) ensures exists p :: p in ps && SameSizeAndPrice(o, p) {
      var p :| p in qs && SameSizeAndPrice(o, p);
      assert p in ps;
    }
  }

  lemma ClaimedDescends(os: seq<Order>, ps: seq<Order>, a: Option<Action>, now: int, day: int)
    requires Claimed(os, ps, a, now)
    ensures Descends(os, ps, day)
  {
    forall i | 0 <= i < |os| ensures TrackStep(os[i], ps[i]) {
    }
    InPlaceDescends(os, ps, day);
  }

  lemma ArchiveDescends(s: State, s': State, rows: seq<ArchiveRow>, now: int)
    requires Conserved(s, s', rows, now)
    ensures Descends(s.orders, s'.orders, Day(now))
  {
    forall p | p in s'.orders ensures p in s.orders && TrackStep(p, p) {
    }
    forall o | o in s.orders && OfDayOrder(o, Day(now)) ensures o in s'.orders && SameSizeAndPrice(o, o) {
      assert !OrderInRows(rows, o);
    }
  }

  lemma CarryOne(os: seq<Order>, p: Order, rows: seq<PaperRow>, day: int)
    requires Derived(os, p) && AllTracked(os, rows, day) && Explained(os, rows, day) && OfDayOrder(p, day)
    ensures Tracked(p, rows)
  {
    if Fresh(os, p) {
      forall r | r in rows ensures r.tag != p.id {
        var o :| o in os && Carries(r, o);
      }
    } else {
      var o :| o in os && TrackStep(o, p);
      assert OfDayOrder(o, day) && Tracked(o, rows);
    }
  }

  lemma CarryRow(os: seq<Order>, ps: seq<Order>, r: PaperRow, day: int)
    requires Descends(os, ps, day) && r.tag.trade.day == day && exists o :: o in os && Carries(r, o)
    ensures exists p :: p in ps && Carries(r, p)
  {
    hide Derived;
    var o :| o in os && Carries(r, o);
    assert Survives(o, ps);
    var p :| p in ps && SameSizeAndPrice(o, p);
    assert Carries(r, p);
  }

  lemma Carry(os: seq<Order>, ps: seq<Order>, rows: seq<PaperRow>, day: int)
    requires Descends(os, ps, day) && AllTracked(os, rows, day) && Explained(os, rows, day)
    ensures AllTracked(ps, rows, day) && Explained(ps, rows, day)
  {
    hide Derived, Survives, Tracked, Carries;
    forall p | p in ps && OfDayOrder(p, day) ensures Tracked(p, rows) {
      CarryOne(os, p, rows, day);
    }
    forall r | r in rows ensures exists p :: p in ps && Carries(r, p) {
      CarryRow(os, ps, r, day);
    }
  }

  lemma CarryFlight(os: seq<Order>, ps: seq<Order>, f: Flight, rows: seq<PaperRow>, day: int)
    requires Descends(os, ps, day) && FlightFits(os, f, rows, day)
    ensures FlightFits(ps, f, rows, day)
  {
    hide Derived, InBook;
    if f.action.kind == PlaceAction {
      var o :| o in os && SameSizeAndPrice(f.action.order, o);
      assert Survives(o, ps);
      var p :| p in ps && SameSizeAndPrice(o, p);
      assert SameSizeAndPrice(f.action.order, p);
    }
  }

  lemma CarryFlights(w: World, w': World, rows: seq<PaperRow>, day: int)
    requires FlightsFit(w, rows, day) && Descends(w.s.orders, w'.s.orders, day)
    requires forall x :: x in w'.out.flights ==> x in w.out.flights && w'.out.flights[x] == w.out.flights[x]
    ensures FlightsFit(w', rows, day)
  {
    hide Descends, FlightFits;
    forall x | x in w'.out.flights ensures FlightFits(w'.s.orders, w'.out.flights[x], rows, day) {
      CarryFlight(w.s.orders, w'.s.orders, w.out.flights[x], rows, day);
    }
  }

  /** The steps that leave the book and the flights alone, but for flights dropped. */
  lemma RecordMoves(pw: PaperWorld, pw': PaperWorld, day: int)
    requires PaperOk(pw, day) && Safe(pw'.w) && Day(pw'.w.now) == day
    requires pw'.paper == pw.paper && pw'.older == pw.older && pw'.w.out.rows == pw.w.out.rows
    requires forall x :: x in pw'.w.out.flights ==> x in pw.w.out.flights && pw'.w.out.flights[x] == pw.w.out.flights[x]
    requires Descends(pw.w.s.orders, pw'.w.s.orders, day) && TodayOnly(pw'.w.s.trades, day)
    requires pw'.snap.None? || (pw'.snap == pw.snap && pw'.worker == pw.worker)
    ensures PaperOk(pw', day)
  {
    hide Safe, BookOk, Tracked, Carries, FlightFits, RowsOf, Descends, TodayOnly;
    var rows := Shown(pw.paper, day);
    Carry(pw.w.s.orders, pw'.w.s.orders, rows, day);
    CarryFlights(pw.w, pw'.w, rows, day);
    if pw'.snap.Some? {
      SnapExplained(pw.w.s.orders, pw.snap.value.rows, rows, day);
      Carry(pw.w.s.orders, pw'.w.s.orders, pw.snap.value.rows, day);
    }
  }

  lemma SnapExplained(os: seq<Order>, rows: seq<PaperRow>, ps: seq<PaperRow>, day: int)
    requires Explained(os, ps, day) && AllGrown(rows, ps)
    ensures Explained(os, rows, day)
  {
    forall r | r in rows ensures r.tag.trade.day == day && exists o :: o in os && Carries(r, o) {
      var i :| 0 <= i < |rows| && rows[i] == r;
      assert ps[i] in ps && Grown(rows[i], ps[i]);
      var o :| o in os && Carries(ps[i], o);
      assert Carries(r, o);
    }
  }

  lemma SameDescends(s: State, day: int)
    requires Sound(s)
    ensures Descends(s.orders, s.orders, day)
  {
    forall i | 0 <= i < |s.orders| ensures TrackStep(s.orders[i], s.orders[i]) {
    }
    InPlaceDescends(s.orders, s.orders, day);
  }

  lemma SoundUnique(s: State)
    requires Sound(s)
    ensures UniqueOrders(s.orders)
  {
  }

  lemma ReasonsToday(ts: seq<Trade>, us: seq<Trade>, day: int)
    requires TodayOnly(ts, day) && SameButReasons(ts, us)
    ensures TodayOnly(us, day)
  {
    forall u | u in us ensures if u.id.day == day then !u.resolved else Closed(u) {
      var i :| 0 <= i < |us| && us[i] == u;
      assert ts[i] in ts;
    }
  }

  lemma AcquireFits(s: State, x: string, now: int, day: int)
    requires Sound(s) && TodayOnly(s.trades, day) && Acquire(s, x, now).Some?
    ensures var s' := Acquire(s, x, now).value; Descends(s.orders, s'.orders, day) && TodayOnly(s'.trades, day)
  {
    hide Sound, Quiet, TodayOnly, Descends;
    RecoverSound(s, x);
    SoundUnique(Recover(s, x));
    QuietDescends(s.orders, Recover(s, x).orders, day);
    ReasonsToday(s.trades, Recover(s, x).trades, day);
  }

  lemma ControlFits(s: State, operation: Operation, requestId: string, now: int, day: int)
    requires Sound(s) && TodayOnly(s.trades, day)
    ensures var r := Control(s, operation, requestId, now);
      r.Ok? ==> Descends(s.orders, r.value.orders, day) && TodayOnly(r.value.trades, day)
  {
    hide Sound, TodayOnly, Descends;
    ControlSound(s, operation, requestId, now);
    SameDescends(s, day);
    var r := Control(s, operation, requestId, now);
    if r.Ok? {
      ReasonsToday(s.trades, r.value.trades, day);
    }
  }

  lemma PolicyFits(s: State, loss: int, risk: Option<int>, losses: Option<int>, requestId: string, now: int, day: int)
    requires Sound(s) && TodayOnly(s.trades, day)
    ensures var r := ConfigurePolicy(s, loss, risk, losses, requestId, now);
      r.Ok? ==> Descends(s.orders, r.value.orders, day) && TodayOnly(r.value.trades, day)
  {
    hide Sound, TodayOnly, Descends, DayPnl;
    SameDescends(s, day);
  }

  /** There is no open trade of an earlier day to resolve. */
  lemma ResolveFits(s: State, id: TradeId, reason: string, requestId: string, now: int, day: int)
    requires Sound(s) && TodayOnly(s.trades, day) && Day(now) == day
    ensures var r := ResolveTrade(s, id, reason, requestId, now);
      r.Ok? ==> Descends(s.orders, r.value.orders, day) && TodayOnly(r.value.trades, day)
  {
    hide Sound, Descends, ExpireTrade, NetResult;
    SameDescends(s, day);
    var i := TradeIndex(s.trades, id);
    if i < |s.trades| {
      assert s.trades[i] in s.trades;
    }
  }

  // The main transaction.

  lemma HeardRow(o: Order, p: Order, rows: seq<PaperRow>)
    requires Heard(o, p, Report(rows)) && p != o
    ensures p.id == o.id && exists r :: r in rows && r.tag == p.id && p.brokerId == Some(r.id)
  {
    var b :| b in Report(rows) && HeardFrom(o, p, b);
    ReportMembers(rows);
    var r :| r in rows && Reported(r) == b;
    assert r.tag == p.id && p.brokerId == Some(r.id);
  }

  lemma SettledTracked(o: Order, p: Order, rows: seq<PaperRow>)
    requires Tracked(o, rows) && Heard(o, p, Report(rows)) && Settled(p, rows)
    ensures Tracked(p, rows)
  {
    hide Heard;
    if p != o {
      HeardRow(o, p, rows);
    }
  }

  lemma LaterRow(p: Order, rows: seq<PaperRow>, later: seq<PaperRow>, i: nat)
    requires Tracked(p, rows) && Settled(p, rows) && AllGrown(rows, later) && i < |rows| && later[i].tag == p.id
    ensures var q := later[i]; p.filled <= q.filled && p.state != Queued && (Terminal(p) ==> SameAsRow(p, q))
  {
    assert rows[i] in rows && Grown(rows[i], later[i]);
  }

  /** A row that landed after the reading is of an order the reading said nothing about. */
  lemma UnreadRow(o: Order, p: Order, rows: seq<PaperRow>, later: seq<PaperRow>, j: nat, day: int)
    requires Heard(o, p, Report(rows)) && AllGrown(rows, later) && BookOk(later)
    requires forall r :: r in later ==> r.day == day
    requires |rows| <= j < |later| && later[j].tag == p.id
    ensures p == o
  {
    hide Heard;
    forall r | r in rows ensures r.tag != p.id {
      var i :| 0 <= i < |rows| && rows[i] == r;
      assert Grown(rows[i], later[i]) && later[i] in later && later[j] in later;
    }
    if p != o {
      HeardRow(o, p, rows);
    }
  }

  lemma BrokerIdLater(p: Order, rows: seq<PaperRow>, later: seq<PaperRow>)
    requires Tracked(p, rows) && AllGrown(rows, later) && p.brokerId.Some?
    ensures exists r :: r in later && r.tag == p.id && r.id == p.brokerId.value
  {
    var r :| r in rows && r.tag == p.id && r.id == p.brokerId.value;
    var i :| 0 <= i < |rows| && rows[i] == r;
    assert Grown(rows[i], later[i]) && later[i] in later;
  }

  /** What was read is settled, and what landed since is as it was before the reading. */
  lemma SettledTrackedLater(o: Order, p: Order, rows: seq<PaperRow>, later: seq<PaperRow>, day: int)
    requires Tracked(o, rows) && Tracked(o, later) && Heard(o, p, Report(rows)) && Settled(p, rows)
    requires AllGrown(rows, later) && BookOk(later) && forall r :: r in later ==> r.day == day
    ensures Tracked(p, later)
  {
    hide Heard, SameAsRow, Terminal, BookOk, Settled, AllGrown;
    SettledTracked(o, p, rows);
    if p.brokerId.Some? {
      BrokerIdLater(p, rows, later);
    }
    forall q | q in later && q.tag == p.id
      ensures p.filled <= q.filled && p.state != Queued && (Terminal(p) ==> SameAsRow(p, q))
    {
      var j :| 0 <= j < |later| && later[j] == q;
      if j < |rows| {
        LaterRow(p, rows, later, j);
      } else {
        UnreadRow(o, p, rows, later, j, day);
      }
    }
  }

  lemma ReconciledTracked(os: seq<Order>, ps: seq<Order>, rows: seq<PaperRow>, later: seq<PaperRow>, day: int)
    requires AllTracked(os, rows, day) && AllTracked(os, later, day) && AllHeard(os, ps, Report(rows))
    requires forall p :: p in ps && OfDayOrder(p, day) ==> Settled(p, rows)
    requires AllGrown(rows, later) && BookOk(later) && forall r :: r in later ==> r.day == day
    requires Explained(os, later, day)
    ensures AllTracked(ps, later, day) && Explained(ps, later, day)
  {
    hide Tracked, Settled, BookOk, AllGrown;
    forall p | p in ps && OfDayOrder(p, day) ensures Tracked(p, later) {
      var k :| 0 <= k < |ps| && ps[k] == p;
      assert Heard(os[k], ps[k], Report(rows));
      assert os[k] in os;
      SettledTrackedLater(os[k], p, rows, later, day);
    }
    StillExplained(os, ps, later, Report(rows), day);
  }

  lemma HeardFlights(os: seq<Order>, ps: seq<Order>, book: seq<BookRow>, f: Flight, rows: seq<PaperRow>, day: int)
    requires AllHeard(os, ps, book) && FlightFits(os, f, rows, day)
    ensures FlightFits(ps, f, rows, day)
  {
    if f.action.kind == PlaceAction {
      var o :| o in os && SameSizeAndPrice(f.action.order, o);
      var k :| 0 <= k < |os| && os[k] == o;
      assert Heard(os[k], ps[k], book);
      assert ps[k] in ps && SameSizeAndPrice(f.action.order, ps[k]);
    }
  }

  lemma ArchiveToday(s: State, s': State, rows: seq<ArchiveRow>, now: int, day: int)
    requires Conserved(s, s', rows, now) && TodayOnly(s.trades, day)
    ensures TodayOnly(s'.trades, day)
  {
  }

  lemma PlanToday(s: State, inputs: TickInputs, now: int)
    requires TodayOnly(s.trades, Day(now))
    ensures TodayOnly(Planned(s, inputs, now).trades, Day(now))
  {
    hide PlanVerdict, PricesOf;
  }

  lemma AdvisedManaged(s: State, inputs: TickInputs, now: int, day: int)
    requires Sound(s) && TodayOnly(s.trades, day) && Manageable(Advised(s, inputs, now))
    ensures var s' := ManageAll(Advised(s, inputs, now), 0, inputs.quotes, now);
      Sound(s') && Descends(s.orders, s'.orders, day) && TodayOnly(s'.trades, day)
  {
    hide Sound, Quiet, TodayOnly, Descends, ManageAll, Manageable, Advised;
    var advised := Advised(s, inputs, now);
    AdvisedSound(s, inputs, now);
    SoundUnique(advised);
    QuietDescends(s.orders, advised.orders, day);
    ReasonsToday(s.trades, advised.trades, day);
    ManageSound(advised, 0, inputs.quotes, now);
    ManageKeepsTrades(advised, 0, inputs.quotes, now);
    var s' := ManageAll(advised, 0, inputs.quotes, now);
    SoundUnique(s');
    QuietDescends(advised.orders, s'.orders, day);
    ReasonsToday(advised.trades, s'.trades, day);
    DescendsCompose(s.orders, advised.orders, s'.orders, day);
  }

  lemma PlannedFits(s: State, inputs: TickInputs, now: int)
    requires Sound(s) && TodayOnly(s.trades, Day(now))
    ensures var s' := Planned(s, inputs, now);
      Sound(s') && Descends(s.orders, s'.orders, Day(now)) && TodayOnly(s'.trades, Day(now))
  {
    hide Sound, Quiet, TodayOnly, Descends;
    PlanSound(s, inputs.decision, PlanQuote(inputs), inputs.meta, now);
    var s' := Planned(s, inputs, now);
    SoundUnique(s');
    QuietDescends(s.orders, s'.orders, Day(now));
    PlanToday(s, inputs, now);
  }

  lemma ArchivedFits(s: State, now: int)
    requires Sound(s) && TodayOnly(s.trades, Day(now))
    ensures var s' := Archive(s, s.trades, ARCHIVE_BATCH, now).0;
      Sound(s') && Descends(s.orders, s'.orders, Day(now)) && TodayOnly(s'.trades, Day(now))
  {
    hide Sound, TodayOnly, Descends, Archive, Conserved;
    SoundTradesUnique(s);
    ArchiveConserves(s, s.trades, ARCHIVE_BATCH, now);
    var (s', rows) := Archive(s, s.trades, ARCHIVE_BATCH, now);
    ArchiveDescends(s, s', rows, now);
    ArchiveToday(s, s', rows, now, Day(now));
  }

  lemma SoundTradesUnique(s: State)
    requires Sound(s)
    ensures UniqueTrades(s.trades)
  {
  }

  /** A claimed order is one of the record, and one that was queued is of today. */
  lemma ClaimFits(s: State, now: int, allowed: bool)
    requires Sound(s) && TodayOnly(s.trades, Day(now)) && EntriesHaveTrades(s)
    ensures var (s', a) := Claim(s, now, allowed);
      && Descends(s.orders, s'.orders, Day(now)) && s'.trades == s.trades
      && (a.Some? && a.value.kind == PlaceAction ==> a.value.order in s'.orders && OfDayOrder(a.value.order, Day(now)))
  {
    hide Sound, TodayOnly, Descends, EntriesHaveTrades, Claim;
    ClaimSound(s, now, allowed);
    var (s', a) := Claim(s, now, allowed);
    ClaimedDescends(s.orders, s'.orders, a, now, Day(now));
    if a.Some? && a.value.kind == PlaceAction {
      var i :| 0 <= i < |s.orders| && ClaimedAt(s.orders, s'.orders, a.value, i, now);
      assert s'.orders[i] in s'.orders;
      WorkingToday(s, s.orders[i], Day(now));
    }
  }

  lemma WorkingToday(s: State, o: Order, day: int)
    requires Sound(s) && TodayOnly(s.trades, day) && o in s.orders && Working(o)
    ensures OfDayOrder(o, day)
  {
    if !OfDayOrder(o, day) {
      EarlierSkipped(s, o, [], 0, day);
    }
  }

  ghost predicate ActionFits(s: State, a: Option<Action>, day: int) {
    a.Some? && a.value.kind == PlaceAction ==> a.value.order in s.orders && OfDayOrder(a.value.order, day)
  }

  /** From the reconciled record to the end of the transaction. */
  lemma PreparedFits(s1: State, s: State, inputs: TickInputs, now: int)
    requires Sound(s1) && TodayOnly(s1.trades, Day(now))
    requires Reconcile(s, inputs.book, inputs.positions, inputs.readAt) == Ok(s1)
    ensures var r := PrepareTick(s, inputs, now);
      r.Ok? ==>
        && Descends(s1.orders, r.value.state.orders, Day(now)) && TodayOnly(r.value.state.trades, Day(now))
        && ActionFits(r.value.state, r.value.action, Day(now))
  {
    hide Sound, TodayOnly, Descends, Reconcile, Archive, ManageAll, Claim, Advised, Planned, Manageable;
    hide EntriesHaveTrades, EntryPending;
    ArchivedFits(s1, now);
    var kept := Archive(s1, s1.trades, ARCHIVE_BATCH, now).0;
    var advised := Advised(kept, inputs, now);
    if Manageable(advised) {
      AdvisedManaged(kept, inputs, now, Day(now));
      var managed := ManageAll(advised, 0, inputs.quotes, now);
      DescendsCompose(s1.orders, kept.orders, managed.orders, Day(now));
      PlannedFits(managed, inputs, now);
      var planned := Planned(managed, inputs, now);
      DescendsCompose(s1.orders, managed.orders, planned.orders, Day(now));
      if EntriesHaveTrades(planned) {
        var allowed := !EntryPending(planned) || inputs.allowed;
        ClaimFits(planned, now, allowed);
        DescendsCompose(s1.orders, planned.orders, Claim(planned, now, allowed).0.orders, Day(now));
      }
    }
  }
}
