/** Every move of a day on the paper broker keeps the record and the book in step. */
module PaperSafety {
  import opened Wrappers
  import opened SandboxTypes
  import opened SandboxSpec
  import opened SandboxInvariant
  import opened SandboxSteps
  import opened SandboxService
  import opened SandboxWorld
  import opened SandboxRuns
  import opened PaperSpec
  import opened PaperAgreement
  import opened PaperRuns

  // Each move is one the safety of the executor already covers.

  lemma GrownEvolves(older: seq<Row>, rows: seq<PaperRow>, ps: seq<PaperRow>)
    requires |rows| == |ps| && AllGrown(rows, ps) && RowsWellFormed(ps)
    requires forall r :: r in older ==> r.filled <= r.quantity
    ensures Evolves(older + KeptAll(rows), older + KeptAll(ps))
  {
    var a, b := older + KeptAll(rows), older + KeptAll(ps);
    forall i | 0 <= i < |a|
      ensures b[i].id == a[i].id && b[i].tag == a[i].tag && b[i].quantity == a[i].quantity
      ensures a[i].filled <= b[i].filled <= b[i].quantity
      ensures a[i].finished ==> b[i] == a[i]
    {
      if i < |older| {
        assert older[i] in older;
      } else {
        var k := i - |older|;
        assert Grown(rows[k], ps[k]) && ps[k] in ps;
      }
    }
  }

  lemma OlderWithin(pw: PaperWorld, day: int)
    requires PaperOk(pw, day)
    ensures forall r :: r in pw.older ==> r.filled <= r.quantity
  {
    forall r | r in pw.older ensures r.filled <= r.quantity {
      var i :| 0 <= i < |pw.older| && pw.older[i] == r;
      assert pw.w.out.rows[i] == r;
    }
  }

  lemma ReadGrows(paper: seq<PaperRow>, live: map<string, LiveQuote>, started: int, now: int)
    requires BookOk(paper)
    ensures var ps := ReadBook(paper, live, started, now).0;
      && BookOk(ps) && |ps| == |paper|
      && |Shown(ps, Day(started))| == |Shown(paper, Day(started))|
         && AllGrown(Shown(paper, Day(started)), Shown(ps, Day(started)))
  {
    hide BookOk, FillAll, Shown;
    FillAllGrows(paper, live, Day(started), now);
    FillAllLength(paper, live, Day(started), now);
    SelfGrown(paper);
    ShownGrows(paper, ReadBook(paper, live, started, now).0, Day(started));
  }

  /** A read begun on another day fills nothing. */
  lemma LateReadGrows(paper: seq<PaperRow>, live: map<string, LiveQuote>, started: int, now: int)
    requires BookOk(paper)
    ensures var ps, day := ReadBook(paper, live, started, now).0, Day(now);
      BookOk(ps) && |Shown(ps, day)| == |Shown(paper, day)| && AllGrown(Shown(paper, day), Shown(ps, day))
  {
    if Day(started) == Day(now) {
      hide ReadBook, Shown, BookOk;
      ReadGrows(paper, live, started, now);
    } else {
      hide Shown, BookOk;
      SelfGrown(Shown(paper, Day(now)));
    }
  }

  lemma FillAllLength(paper: seq<PaperRow>, live: map<string, LiveQuote>, today: int, now: int)
    ensures |FillAll(paper, live, today, now)| == |paper|
  {
  }

  lemma SelfGrown(rows: seq<PaperRow>)
    ensures AllGrown(rows, rows)
  {
  }

  lemma {:induction false} ShownSameFills(rows: seq<PaperRow>, ps: seq<PaperRow>, today: int)
    requires |rows| == |ps|
    requires forall i :: 0 <= i < |rows| ==> ps[i].day == rows[i].day && ps[i].filled == rows[i].filled
    ensures |Shown(rows, today)| == |Shown(ps, today)|
    ensures SameFills(Shown(rows, today), Shown(ps, today))
  {
    if rows != [] {
      ShownSameFills(rows[..|rows| - 1], ps[..|ps| - 1], today);
    }
  }

  lemma CancelShown(paper: seq<PaperRow>, id: string, day: int)
    requires BookOk(paper)
    ensures var ps := CancelRow(paper, id).0;
      && BookOk(ps)
      && |Shown(ps, day)| == |Shown(paper, day)| && AllGrown(Shown(paper, day), Shown(ps, day))
      && SameFills(Shown(paper, day), Shown(ps, day))
  {
    var ps := CancelRow(paper, id).0;
    CancelGrows(paper, id);
    ShownGrows(paper, ps, day);
    ShownSameFills(paper, ps, day);
  }

  /** The rows of a reading are, or have become, rows of the book. */
  lemma SnapHonest(pw: PaperWorld, day: int)
    requires PaperOk(pw, day) && pw.snap.Some?
    ensures Honest(Report(pw.snap.value.rows), pw.w.out.rows)
  {
    hide Safe, RecordFits, BookOk, AllTracked, SameFills, NetsMatch, OlderOk, Shown;
    var rows, shown := pw.snap.value.rows, Shown(pw.paper, day);
    forall b | b in Report(rows) ensures exists r :: r in pw.w.out.rows && RowReports(b, r) {
      var i :| 0 <= i < |rows| && Report(rows)[i] == b;
      assert Grown(rows[i], shown[i]);
      assert KeptAll(shown)[i] == Kept(shown[i]);
      assert pw.w.out.rows[|pw.older| + i] == Kept(shown[i]);
      assert RowReports(b, Kept(shown[i]));
    }
  }

  lemma TodayUnresolved(pw: PaperWorld, id: TradeId, day: int)
    requires PaperOk(pw, day) && id.day == day
    ensures !Resolved(pw.w, id)
  {
    hide Sound, OutsideOk, AllKnown, AllLinked, BookOk;
    forall t | IsTrade(pw.w, t) && t.id == id ensures !t.resolved {
    }
  }

  lemma ShownIsKept(pw: PaperWorld, day: int)
    requires pw.w.out.rows == RowsOf(pw.older, pw.paper, day)
    ensures forall r :: r in Shown(pw.paper, day) ==> Kept(r) in pw.w.out.rows
  {
    hide Shown;
    var rows := Shown(pw.paper, day);
    forall r | r in rows ensures Kept(r) in pw.w.out.rows {
      var i :| 0 <= i < |rows| && rows[i] == r;
      assert KeptAll(rows)[i] == Kept(r);
      assert pw.w.out.rows[|pw.older| + i] == Kept(r);
    }
  }

  /** Before a placement is made, the book has no row for it and its order is waiting. */
  lemma DueFresh(pw: PaperWorld, y: string, day: int)
    requires PaperOk(pw, day) && HasDue(pw.w, y, PlaceAction)
    ensures var p := pw.w.out.flights[y].action.order;
      && (forall r :: r in Shown(pw.paper, day) ==> r.tag != p.id)
      && (forall o :: o in pw.w.s.orders && o.id == p.id ==> Working(o) && o.state != Queued && o.filled == 0)
  {
    hide BookOk, ArchiveOk, AllKnown, Explained, AllTracked, TodayOnly;
    var p := pw.w.out.flights[y].action.order;
    assert FlightOk(pw.w.out, pw.w.out.flights[y]);
    ShownIsKept(pw, day);
    forall r | r in pw.w.out.rows ensures r.tag != p.id {
      var i :| 0 <= i < |pw.w.out.rows| && pw.w.out.rows[i] == r;
    }
    forall o | o in pw.w.s.orders && o.id == p.id ensures Working(o) && o.state != Queued && o.filled == 0 {
      assert FlightFits(pw.w.s.orders, pw.w.out.flights[y], Shown(pw.paper, day), day);
      TodayUnresolved(pw, o.id.trade, day);
      assert IsOrder(pw.w, o);
      assert PlaceDue(pw.w.out.flights[y], p.id) && IsDue(pw.w.out, p.id);
      var k :| 0 <= k < |pw.w.s.orders| && pw.w.s.orders[k] == o;
      OrderOkAt(pw.w.s, k);
    }
  }

  lemma PlaceShown(paper: seq<PaperRow>, q: Request, id: string, asked: int, now: int, older: seq<Row>)
    requires BookOk(paper) && id != "" && forall r :: r in paper ==> r.id != id
    ensures var (ps, reply) := Place(paper, q, id, asked, now);
      && BookOk(ps)
      && (Shown(ps, Day(now)) == Shown(paper, Day(now))
         || Shown(ps, Day(now)) == Shown(paper, Day(now)) + [NewRow(q, id, now)])
      && (Shown(ps, Day(now)) != Shown(paper, Day(now)) ==>
            reply == Ok(AckReply(Some(id)))
              && RowsOf(older, ps, Day(now)) == RowsOf(older, paper, Day(now)) + [Kept(NewRow(q, id, now))])
  {
    hide Place, BookOk, Shown;
    PlaceKeeps(paper, q, id, asked, now);
    var ps := Place(paper, q, id, asked, now).0;
    if Shown(ps, Day(now)) != Shown(paper, Day(now)) {
      assert KeptAll(Shown(paper, Day(now)) + [NewRow(q, id, now)]) == KeptAll(Shown(paper, Day(now)))
        + [Kept(NewRow(q, id, now))];
    }
  }

  /** The paper broker is one of the brokers the executor is safe with: its moves are allowed there. */
  lemma AsEventEnabled(pw: PaperWorld, e: PaperEvent, now: int, day: int)
    requires PaperOk(pw, day) && PaperEnabled(pw, e, now)
    ensures Enabled(pw.w, AsEvent(pw, e, now), now)
  {
    hide Safe, Place, ReadBook, CancelRow, Shown, RecordFits, KeptAll, Honest, Evolves, BookOk, AllGrown, Fill, Report;
    hide OlderOk;
    OlderWithin(pw, day);
    match e
    case BookRead(live, started) =>
      ReadGrows(pw.paper, live, started, now);
      ShownWellFormed(PaperAfter(pw, e, now), day);
      GrownEvolves(pw.older, Shown(pw.paper, day), Shown(PaperAfter(pw, e, now), day));
    case LateRead(live, started) =>
      LateReadGrows(pw.paper, live, started, now);
      ShownWellFormed(PaperAfter(pw, e, now), day);
      GrownEvolves(pw.older, Shown(pw.paper, day), Shown(PaperAfter(pw, e, now), day));
    case Ticked(inputs) =>
      SnapHonest(pw, day);
    case PlaceCalled(y, id, asked, landed, heard) =>
      PlaceShown(pw.paper, RequestOf(pw.w.out.flights[y].action.order), id, asked, now, pw.older);
      var r := Kept(NewRow(RequestOf(pw.w.out.flights[y].action.order), id, now));
      assert IsRowOf(r, pw.w.out.flights[y].action.order, AckReply(Some(id)))
        && IsRowOf(r, pw.w.out.flights[y].action.order, LostReply);
    case CancelCalled(y, landed, heard) =>
      CancelShown(pw.paper, BrokerIdOf(pw.w.out.flights[y].action.order), day);
      SelfGrown(Shown(pw.paper, day));
      ShownWellFormed(PaperAfter(pw, e, now), day);
      GrownEvolves(pw.older, Shown(pw.paper, day), Shown(PaperAfter(pw, e, now), day));
    case _ =>
  }

  lemma ShownWellFormed(paper: seq<PaperRow>, day: int)
    requires BookOk(paper)
    ensures BookOk(Shown(paper, day)) && RowsWellFormed(Shown(paper, day))
    ensures forall r :: r in Shown(paper, day) ==> r.day == day
  {
    ShownKeeps(paper, day);
    ShownMembers(paper, day);
  }

  // The record against a book that grew.

  lemma GrownTracked(o: Order, rows: seq<PaperRow>, ps: seq<PaperRow>)
    requires Tracked(o, rows) && |rows| == |ps| && AllGrown(rows, ps)
    ensures Tracked(o, ps)
  {
    if o.brokerId.Some? {
      BrokerIdLater(o, rows, ps);
    }
    forall p | p in ps && p.tag == o.id
      ensures o.filled <= p.filled && o.state != Queued && (Terminal(o) ==> SameAsRow(o, p))
    {
      var i :| 0 <= i < |ps| && ps[i] == p;
      assert Grown(rows[i], ps[i]) && rows[i] in rows;
    }
  }

  lemma GrownExplained(os: seq<Order>, rows: seq<PaperRow>, ps: seq<PaperRow>, day: int)
    requires Explained(os, rows, day) && |rows| == |ps| && AllGrown(rows, ps)
    ensures Explained(os, ps, day)
  {
    forall p | p in ps ensures p.tag.trade.day == day && exists o :: o in os && Carries(p, o) {
      var i :| 0 <= i < |ps| && ps[i] == p;
      assert Grown(rows[i], ps[i]) && rows[i] in rows;
      var o :| o in os && Carries(rows[i], o);
      assert Carries(p, o);
    }
  }

  lemma GrownFlight(os: seq<Order>, f: Flight, rows: seq<PaperRow>, ps: seq<PaperRow>, day: int)
    requires FlightFits(os, f, rows, day) && AllGrown(rows, ps)
    requires f.Done? && f.reply.RejectReply? && f.action.kind == PlaceAction ==> forall i :: |rows| <= i < |ps| ==>
      ps[i].tag != f.action.order.id
    ensures FlightFits(os, f, ps, day)
  {
    if f.action.kind == PlaceAction && f.Done? {
      match f.reply
      case AckReply(id) =>
        var r :| r in rows && r.tag == f.action.order.id && r.id == id.value;
        var i :| 0 <= i < |rows| && rows[i] == r;
        assert Grown(rows[i], ps[i]) && ps[i] in ps;
      case RejectReply =>
        forall p | p in ps ensures p.tag != f.action.order.id {
          var i :| 0 <= i < |ps| && ps[i] == p;
          if i < |rows| {
            assert Grown(rows[i], ps[i]) && rows[i] in rows;
          }
        }
      case LostReply =>
    }
  }

  lemma GrownFits(w: World, w': World, rows: seq<PaperRow>, ps: seq<PaperRow>, day: int)
    requires RecordFits(w, rows, day) && |rows| == |ps| && AllGrown(rows, ps) && w'.s == w.s
    requires forall x :: x in w'.out.flights ==>
      x in w.out.flights && (w'.out.flights[x] == w.out.flights[x] || w'.out.flights[x].action.kind == CancelAction)
    ensures RecordFits(w', ps, day)
  {
    hide AllGrown, Tracked, Carries, FlightFits;
    forall o | o in w.s.orders && OfDayOrder(o, day) ensures Tracked(o, ps) {
      GrownTracked(o, rows, ps);
    }
    GrownExplained(w.s.orders, rows, ps, day);
    forall x | x in w'.out.flights ensures FlightFits(w'.s.orders, w'.out.flights[x], ps, day) {
      if w'.out.flights[x] == w.out.flights[x] {
        GrownFlight(w.s.orders, w.out.flights[x], rows, ps, day);
      } else {
        CancelFits(w.s.orders, w'.out.flights[x], ps, day);
      }
    }
  }

  lemma CancelFits(os: seq<Order>, f: Flight, rows: seq<PaperRow>, day: int)
    requires f.action.kind == CancelAction
    ensures FlightFits(os, f, rows, day)
  {
  }

  lemma BookReadOk(pw: PaperWorld, e: PaperEvent, now: int, day: int)
    requires PaperOk(pw, day) && PaperEnabled(pw, e, now) && e.BookRead? && Safe(PaperStep(pw, e, now).w)
    ensures PaperOk(PaperStep(pw, e, now), day)
  {
    hide Safe, ReadBook, Shown, BookOk, Tracked, Carries, Explained, TodayOnly, FlightsFit;
    AsEventEnabled(pw, e, now, day);
    ReadGrows(pw.paper, e.live, e.started, now);
    ReadShown(pw.paper, e.live, e.started, now);
    var pw' := PaperStep(pw, e, now);
    var rows := Shown(pw'.paper, day);
    GrownFits(pw.w, pw'.w, Shown(pw.paper, day), rows, day);
    ShownWellFormed(pw'.paper, day);
    SelfGrown(rows);
    assert SameFills(rows, rows);
  }

  /** The fills of a late read leave what was read true, though no longer the latest. */
  lemma LateReadOk(pw: PaperWorld, e: PaperEvent, now: int, day: int)
    requires PaperOk(pw, day) && PaperEnabled(pw, e, now) && e.LateRead? && Safe(PaperStep(pw, e, now).w)
    ensures PaperOk(PaperStep(pw, e, now), day)
  {
    hide Safe, ReadBook, Shown, BookOk, Tracked, Carries, Explained, TodayOnly, FlightsFit, AllGrown, SameFills;
    hide NetsMatch;
    AsEventEnabled(pw, e, now, day);
    LateReadGrows(pw.paper, e.live, e.started, now);
    var pw' := PaperStep(pw, e, now);
    GrownFits(pw.w, pw'.w, Shown(pw.paper, day), Shown(pw'.paper, day), day);
    ShownWellFormed(pw'.paper, day);
    if pw.snap.Some? {
      GrownTransitive(pw.snap.value.rows, Shown(pw.paper, day), Shown(pw'.paper, day));
    }
  }

  lemma ReadShown(paper: seq<PaperRow>, live: map<string, LiveQuote>, started: int, now: int)
    ensures ReadBook(paper, live, started, now).1 == Shown(ReadBook(paper, live, started, now).0, Day(started))
  {
  }

  lemma GrownTransitive(rows: seq<PaperRow>, ps: seq<PaperRow>, qs: seq<PaperRow>)
    requires AllGrown(rows, ps) && AllGrown(ps, qs)
    ensures AllGrown(rows, qs)
  {
    forall i | 0 <= i < |rows| ensures Grown(rows[i], qs[i]) {
      assert Grown(rows[i], ps[i]) && Grown(ps[i], qs[i]);
    }
  }

  lemma SameFillsTransitive(rows: seq<PaperRow>, ps: seq<PaperRow>, qs: seq<PaperRow>)
    requires SameFills(rows, ps) && SameFills(ps, qs)
    ensures SameFills(rows, qs)
  {
  }

  lemma CancelCalledOk(pw: PaperWorld, e: PaperEvent, now: int, day: int)
    requires PaperOk(pw, day) && PaperEnabled(pw, e, now) && e.CancelCalled? && Safe(PaperStep(pw, e, now).w)
    ensures PaperOk(PaperStep(pw, e, now), day)
  {
    hide Safe, CancelRow, Shown, BookOk, Tracked, Carries, Explained, TodayOnly, FlightsFit, AllGrown, SameFills;
    hide NetsMatch;
    AsEventEnabled(pw, e, now, day);
    var pw' := PaperStep(pw, e, now);
    var shown, rows := Shown(pw.paper, day), Shown(pw'.paper, day);
    CancelShown(pw.paper, BrokerIdOf(pw.w.out.flights[e.caller].action.order), day);
    SelfGrown(shown);
    SelfFills(pw.paper, day);
    GrownFits(pw.w, pw'.w, shown, rows, day);
    if pw.snap.Some? {
      GrownTransitive(pw.snap.value.rows, shown, rows);
      if SameFills(pw.snap.value.rows, shown) {
        SameFillsTransitive(pw.snap.value.rows, shown, rows);
      }
    }
  }

  lemma SelfFills(paper: seq<PaperRow>, day: int)
    ensures SameFills(Shown(paper, day), Shown(paper, day))
  {
  }

  // A placement that lands.

  lemma LandedTracked(o: Order, rows: seq<PaperRow>, r: PaperRow)
    requires Tracked(o, rows) && (r.tag == o.id ==> Working(o) && o.state != Queued && o.filled == 0) && r.filled == 0
    ensures Tracked(o, rows + [r])
  {
    assert forall q :: q in rows + [r] <==> q in rows || q == r;
  }

  lemma LandedExplained(os: seq<Order>, rows: seq<PaperRow>, r: PaperRow, day: int)
    requires Explained(os, rows, day) && r.tag.trade.day == day && exists o :: o in os && Carries(r, o)
    ensures Explained(os, rows + [r], day)
  {
  }

  lemma RequestCarries(p: Order, o: Order, id: string, now: int)
    requires SameSizeAndPrice(p, o)
    ensures Carries(NewRow(RequestOf(p), id, now), o)
  {
  }

  lemma LandedFlights(w: World, w': World, y: string, rows: seq<PaperRow>, r: PaperRow, reply: Reply, day: int)
    requires FlightsFit(w, rows, day) && HasDue(w, y, PlaceAction) && r.tag == w.out.flights[y].action.order.id
    requires OutsideOk(w.out) && w'.s == w.s
    requires w'.out.flights == w.out.flights[y := Done(w.out.flights[y].action, reply)]
    requires reply == LostReply || reply == AckReply(Some(r.id))
    ensures FlightsFit(w', rows + [r], day)
  {
    hide RowsOk, PlacedOnce;
    var ps := rows + [r];
    SelfGrown(rows);
    assert AllGrown(rows, ps);
    forall x | x in w'.out.flights ensures FlightFits(w'.s.orders, w'.out.flights[x], ps, day) {
      assert FlightFits(w.s.orders, w.out.flights[x], rows, day) && FlightOk(w.out, w.out.flights[x])
        && FlightOk(w.out, w.out.flights[y]);
      if x == y {
        assert r in ps;
        assert InBook(ps, r.tag, r.id);
      } else {
        GrownFlight(w.s.orders, w.out.flights[x], rows, ps, day);
      }
    }
  }

  lemma LandedFits(w: World, w': World, y: string, rows: seq<PaperRow>, id: string, now: int, reply: Reply, day: int)
    requires RecordFits(w, rows, day) && HasDue(w, y, PlaceAction) && OutsideOk(w.out)
    requires w'.s == w.s && w'.out.flights == w.out.flights[y := Done(w.out.flights[y].action, reply)]
    requires reply == LostReply || reply == AckReply(Some(id))
    requires forall o :: o in w.s.orders && o.id == w.out.flights[y].action.order.id ==>
      Working(o) && o.state != Queued && o.filled == 0
    ensures RecordFits(w', rows + [NewRow(RequestOf(w.out.flights[y].action.order), id, now)], day)
  {
    hide OutsideOk, Tracked, Carries;
    var p := w.out.flights[y].action.order;
    var r := NewRow(RequestOf(p), id, now);
    assert FlightFits(w.s.orders, w.out.flights[y], rows, day);
    var o :| o in w.s.orders && SameSizeAndPrice(p, o);
    RequestCarries(p, o, id, now);
    LandedExplained(w.s.orders, rows, r, day);
    forall q | q in w.s.orders && OfDayOrder(q, day) ensures Tracked(q, rows + [r]) {
      LandedTracked(q, rows, r);
    }
    LandedFlights(w, w', y, rows, r, reply, day);
  }

  /** The call changed nothing in the book: the flight is dropped, or answered by a refusal or a lost reply. */
  lemma UnlandedFits(w: World, w': World, y: string, rows: seq<PaperRow>, reply: Reply, day: int)
    requires RecordFits(w, rows, day) && HasDue(w, y, PlaceAction) && w'.s == w.s
    requires w'.out.flights == w.out.flights - {y}
      || w'.out.flights == w.out.flights[y := Done(w.out.flights[y].action, reply)]
    requires reply == LostReply
      || (reply == RejectReply && forall r :: r in rows ==> r.tag != w.out.flights[y].action.order.id)
    ensures RecordFits(w', rows, day)
  {
    hide Tracked, Explained, TodayOnly;
    forall x | x in w'.out.flights ensures FlightFits(w'.s.orders, w'.out.flights[x], rows, day) {
      assert FlightFits(w.s.orders, w.out.flights[x], rows, day);
    }
  }

  lemma NoneExisting(paper: seq<PaperRow>, tag: OrderId, day: int)
    requires forall r :: r in Shown(paper, day) ==> r.tag != tag
    ensures Existing(paper, tag, day) == |paper|
  {
    ShownMembers(paper, day);
    forall j | 0 <= j < |paper| && paper[j].day == day ensures paper[j].tag != tag {
      assert paper[j] in paper;
    }
  }

  lemma AppendedShown(paper: seq<PaperRow>, r: PaperRow, kept: int, today: int)
    requires kept <= today == r.day
    ensures Shown(Since(paper + [r], kept), today) == Shown(paper, today) + [r]
  {
    hide Since, Shown;
    ShownSince(paper + [r], kept, today);
    ShownAppend(paper, r, today);
  }

  /** Nothing with the tag is shown, so the placement never answers with another row. */
  lemma FirstPlacement(paper: seq<PaperRow>, q: Request, id: string, asked: int, now: int)
    requires forall r :: r in Shown(paper, Day(now)) ==> r.tag != q.tag
    ensures var (ps, reply) := Place(paper, q, id, asked, now);
      reply.Ok? ==> reply.value == RejectReply || (reply.value == AckReply(Some(id)))
    ensures var (ps, reply) := Place(paper, q, id, asked, now);
      !(reply.Ok? && reply.value == AckReply(Some(id))) ==> ps == paper
    ensures var (ps, reply) := Place(paper, q, id, asked, now);
      reply.Ok? && reply.value == AckReply(Some(id)) ==>
        Shown(ps, Day(now)) == Shown(paper, Day(now)) + [NewRow(q, id, now)]
  {
    hide Shown, Since, WellFormed, InSession, Existing;
    NoneExisting(paper, q.tag, Day(now));
    AppendedShown(paper, NewRow(q, id, now), Day(now - KEPT_MS), Day(now));
  }

  lemma LandedSnap(pw: PaperWorld, y: string, id: string, now: int, day: int)
    requires PaperOk(pw, day) && HasDue(pw.w, y, PlaceAction) && pw.snap.Some?
    ensures var more := Shown(pw.paper, day) + [NewRow(RequestOf(pw.w.out.flights[y].action.order), id, now)];
      AllGrown(pw.snap.value.rows, more)
        && (SameFills(pw.snap.value.rows, Shown(pw.paper, day)) ==> SameFills(pw.snap.value.rows, more))
  {
  }

  /** The three ways a call to place can go: refused without a trace, not landed, landed. */
  lemma PlaceCalledOk(pw: PaperWorld, e: PaperEvent, now: int, day: int)
    requires PaperOk(pw, day) && PaperEnabled(pw, e, now) && e.PlaceCalled? && Safe(PaperStep(pw, e, now).w)
    ensures PaperOk(PaperStep(pw, e, now), day)
  {
    hide Safe, Place, Shown, BookOk, Tracked, Carries, Explained;
    hide TodayOnly, FlightsFit, AllGrown, SameFills, NetsMatch, RecordFits, OlderOk;
    AsEventEnabled(pw, e, now, day);
    DueFresh(pw, e.caller, day);
    var pw' := PaperStep(pw, e, now);
    var p := pw.w.out.flights[e.caller].action.order;
    var rows := Shown(pw.paper, day);
    PlaceShown(pw.paper, RequestOf(p), e.id, e.asked, now, pw.older);
    FirstPlacement(pw.paper, RequestOf(p), e.id, e.asked, now);
    var reply := Place(pw.paper, RequestOf(p), e.id, e.asked, now).1;
    if reply.Ok? && e.landed && reply.value == AckReply(Some(e.id)) {
      SafeOutside(pw.w);
      LandedFits(pw.w, pw'.w, e.caller, rows, e.id, now, if e.heard then reply.value else LostReply, day);
      if pw.snap.Some? {
        LandedSnap(pw, e.caller, e.id, now, day);
      }
    } else {
      var told := if reply.Ok? && e.landed && e.heard then reply.value else LostReply;
      UnlandedFits(pw.w, pw'.w, e.caller, rows, told, day);
    }
  }

  lemma SafeOutside(w: World)
    requires Safe(w)
    ensures OutsideOk(w.out) && Sound(w.s)
  {
  }

  // Recording, giving up and claiming.

  /** An order that expired was never sent, so the book has no row of it. */
  lemma ExpiredUnseen(pw: PaperWorld, day: int, o: Order)
    requires Safe(pw.w) && Day(pw.w.now) == day && pw.w.out.rows == RowsOf(pw.older, pw.paper, day)
    requires TodayOnly(pw.w.s.trades, day) && o in pw.w.s.orders && OfDayOrder(o, day) && o.state == Expired
    ensures forall r :: r in Shown(pw.paper, day) ==> r.tag != o.id
  {
    hide Sound, AllKnown;
    forall t | IsTrade(pw.w, t) && t.id == o.id.trade ensures !t.resolved {
    }
    assert IsOrder(pw.w, o);
    var rows := Shown(pw.paper, day);
    forall r | r in rows ensures r.tag != o.id {
      var i :| 0 <= i < |rows| && rows[i] == r;
      assert KeptAll(rows)[i] == Kept(r);
      assert pw.w.out.rows[|pw.older| + i] == Kept(r);
    }
  }

  /** One order changed; the others did not. */
  lemma OneOrderFits(w: World, w': World, i: nat, rows: seq<PaperRow>, day: int)
    requires RecordFits(w, rows, day) && i < |w.s.orders| && w'.s.trades == w.s.trades
    requires |w'.s.orders| == |w.s.orders| && w'.s.orders == w.s.orders[i := w'.s.orders[i]]
    requires SameSizeAndPrice(w.s.orders[i], w'.s.orders[i])
    requires (OfDayOrder(w.s.orders[i], day) ==> Tracked(w'.s.orders[i], rows))
    requires forall x :: x in w'.out.flights ==> x in w.out.flights && w'.out.flights[x] == w.out.flights[x]
    ensures RecordFits(w', rows, day)
  {
    hide Tracked, FlightFits, TodayOnly;
    var os, ps := w.s.orders, w'.s.orders;
    forall p | p in ps && OfDayOrder(p, day) ensures Tracked(p, rows) {
      var k :| 0 <= k < |ps| && ps[k] == p;
      assert os[k] in os;
    }
    forall r | r in rows ensures exists p :: p in ps && Carries(r, p) {
      var o :| o in os && Carries(r, o);
      var k :| 0 <= k < |os| && os[k] == o;
      assert ps[k] in ps && Carries(r, ps[k]);
    }
    forall x | x in w'.out.flights ensures FlightFits(ps, w'.out.flights[x], rows, day) {
      OneOrderFlight(os, ps, i, w.out.flights[x], rows, day);
    }
  }

  lemma OneOrderFlight(os: seq<Order>, ps: seq<Order>, i: nat, f: Flight, rows: seq<PaperRow>, day: int)
    requires FlightFits(os, f, rows, day) && i < |os| == |ps| && ps == os[i := ps[i]] && SameSizeAndPrice(os[i], ps[i])
    ensures FlightFits(ps, f, rows, day)
  {
    hide InBook;
    if f.action.kind == PlaceAction {
      var o :| o in os && SameSizeAndPrice(f.action.order, o);
      var k :| 0 <= k < |os| && os[k] == o;
      assert ps[k] in ps && SameSizeAndPrice(f.action.order, ps[k]);
    }
  }

  lemma AnsweredTracked(o: Order, p: Order, f: Flight, os: seq<Order>, rows: seq<PaperRow>, day: int)
    requires f.Done? && Answered(o, p, f.action, f.reply) && f.action.order.id == o.id
    requires FlightFits(os, f, rows, day) && (OfDayOrder(o, day) ==> Tracked(o, rows))
    ensures SameSizeAndPrice(o, p) && (OfDayOrder(o, day) ==> Tracked(p, rows))
  {
  }

  lemma RecordedOk(pw: PaperWorld, now: int, day: int)
    requires PaperOk(pw, day) && PaperEnabled(pw, Recorded, now) && Safe(PaperStep(pw, Recorded, now).w)
    ensures PaperOk(PaperStep(pw, Recorded, now), day)
  {
    hide Safe, Shown, BookOk, Tracked, Carries, TodayOnly, AllGrown, SameFills, NetsMatch, OlderOk, Finish, Answered;
    hide FlightFits, Sound;
    AsEventEnabled(pw, Recorded, now, day);
    var pw' := PaperStep(pw, Recorded, now);
    var s, f, rows := pw.w.s, pw.w.out.flights[pw.worker], Shown(pw.paper, day);
    SafeIsSound(pw.w);
    if pw'.w.s == s {
      SameFits(pw.w, pw'.w, rows, day);
    } else {
      var i := OrderIndex(s.orders, f.action.order.id);
      FinishSound(s, f.action, f.reply);
      assert s.orders[i] in s.orders;
      assert FlightFits(s.orders, f, rows, day);
      AnsweredTracked(s.orders[i], pw'.w.s.orders[i], f, s.orders, rows, day);
      OneOrderFits(pw.w, pw'.w, i, rows, day);
    }
  }

  lemma SameFits(w: World, w': World, rows: seq<PaperRow>, day: int)
    requires RecordFits(w, rows, day) && w'.s.orders == w.s.orders && w'.s.trades == w.s.trades
    requires forall x :: x in w'.out.flights ==> x in w.out.flights && w'.out.flights[x] == w.out.flights[x]
    ensures RecordFits(w', rows, day)
  {
    hide Tracked, Carries, TodayOnly;
    forall x | x in w'.out.flights ensures FlightFits(w'.s.orders, w'.out.flights[x], rows, day) {
      assert FlightFits(w.s.orders, w.out.flights[x], rows, day);
    }
  }

  lemma GaveUpOk(pw: PaperWorld, now: int, day: int)
    requires PaperOk(pw, day) && PaperEnabled(pw, GaveUp, now) && Safe(PaperStep(pw, GaveUp, now).w)
    ensures PaperOk(PaperStep(pw, GaveUp, now), day)
  {
    hide Safe, Shown, BookOk, Tracked, Carries, TodayOnly, AllGrown, SameFills, NetsMatch, OlderOk, FlightFits, Sound;
    AsEventEnabled(pw, GaveUp, now, day);
    var pw' := PaperStep(pw, GaveUp, now);
    var s, rows := pw.w.s, Shown(pw.paper, day);
    var i := OrderIndex(s.orders, pw.w.out.flights[pw.worker].action.order.id);
    if i == |s.orders| {
      SameFits(pw.w, pw'.w, rows, day);
    } else {
      assert pw'.w.s.orders[i] in pw'.w.s.orders && s.orders[i] in s.orders;
      if OfDayOrder(s.orders[i], day) {
        ExpiredUnseen(pw', day, pw'.w.s.orders[i]);
        UnseenTracked(s.orders[i], pw'.w.s.orders[i], rows);
      }
      OneOrderFits(pw.w, pw'.w, i, rows, day);
    }
  }

  lemma UnseenTracked(o: Order, p: Order, rows: seq<PaperRow>)
    requires Tracked(o, rows) && p == o.(state := Expired) && forall r :: r in rows ==> r.tag != p.id
    ensures Tracked(p, rows)
  {
  }

  /** A step of the record, with what the process takes on. */
  lemma TakenFits(w: World, w': World, x: string, a: Option<Action>, rows: seq<PaperRow>, day: int)
    requires AllTracked(w'.s.orders, rows, day) && Explained(w'.s.orders, rows, day) && TodayOnly(w'.s.trades, day)
    requires FlightsFit(w.(s := w'.s), rows, day) && ActionFits(w'.s, a, day)
    requires w'.out.flights == if a.Some? then w.out.flights[x := Due(a.value)] else w.out.flights
    ensures RecordFits(w', rows, day)
  {
    hide Tracked, Carries, TodayOnly;
    forall y | y in w'.out.flights ensures FlightFits(w'.s.orders, w'.out.flights[y], rows, day) {
      if y in w.out.flights && w'.out.flights[y] == w.out.flights[y] {
        assert FlightFits(w'.s.orders, w.out.flights[y], rows, day);
      } else if a.value.kind == PlaceAction {
        assert SameSizeAndPrice(a.value.order, a.value.order);
      }
    }
  }

  lemma EmergencyFits(s: State, now: int, day: int)
    requires Sound(s)
    ensures var (s', a) := ClaimEmergencyCancel(s, now);
      && Descends(s.orders, s'.orders, day) && s'.trades == s.trades && (a.Some? ==> a.value.kind == CancelAction)
  {
    hide Sound, Descends;
    EmergencySound(s, now);
    var (s', a) := ClaimEmergencyCancel(s, now);
    ClaimedDescends(s.orders, s'.orders, a, now, day);
  }

  lemma FailFits(s: State, x: string, grace: bool, now: int, day: int)
    requires Sound(s)
    ensures var (s', a) := FailTick(s, x, grace, now);
      && Descends(s.orders, s'.orders, day) && s'.trades == s.trades && (a.Some? ==> a.value.kind == CancelAction)
  {
    hide Sound, Descends, ClaimEmergencyCancel;
    SameDescends(s, day);
    if Owns(s, x) && !(grace && Flat(s)) {
      var halted := Halted(s, ServiceError).(reconciledAt := None);
      SoundElsewhere(s, halted);
      EmergencyFits(halted, now, day);
    }
  }

  lemma FailedOk(pw: PaperWorld, grace: bool, now: int, day: int)
    requires PaperOk(pw, day) && PaperEnabled(pw, TickFailed(grace), now)
    requires Safe(PaperStep(pw, TickFailed(grace), now).w)
    ensures PaperOk(PaperStep(pw, TickFailed(grace), now), day)
  {
    hide Safe, Shown, BookOk, Tracked, Carries, TodayOnly, AllGrown, SameFills, NetsMatch, OlderOk, FlightFits, Sound;
    hide FailTick, Descends;
    AsEventEnabled(pw, TickFailed(grace), now, day);
    var pw' := PaperStep(pw, TickFailed(grace), now);
    var rows := Shown(pw.paper, day);
    SafeIsSound(pw.w);
    FailFits(pw.w.s, pw.worker, grace, now, day);
    var (s', a) := FailTick(pw.w.s, pw.worker, grace, now);
    Carry(pw.w.s.orders, s'.orders, rows, day);
    CarryFlights(pw.w, pw.w.(s := s'), rows, day);
    TakenFits(pw.w, pw'.w, pw.worker, a, rows, day);
  }

  lemma HeardFlightsFit(w: World, s1: State, book: seq<BookRow>, rows: seq<PaperRow>, day: int)
    requires FlightsFit(w, rows, day) && AllHeard(w.s.orders, s1.orders, book)
    ensures FlightsFit(w.(s := s1), rows, day)
  {
    hide FlightFits, AllHeard;
    forall x | x in w.out.flights ensures FlightFits(s1.orders, w.out.flights[x], rows, day) {
      HeardFlights(w.s.orders, s1.orders, book, w.out.flights[x], rows, day);
    }
  }

  lemma SnapAgrees(pw: PaperWorld, day: int)
    requires PaperOk(pw, day) && pw.snap.Some?
    ensures Agreeing(pw.w.s, pw.snap.value.rows, day)
  {
    hide BookOk, Tracked, Carries, Shown, Sound;
    SafeIsSound(pw.w);
    SnapExplained(pw.w.s.orders, pw.snap.value.rows, Shown(pw.paper, day), day);
  }

  /**
   Reconciling with what was read goes through exactly when the positions read are those of the book read, as they are
   unless the two reads were crossed; and it leaves the record in step with the book as it is now.
   */
  lemma TickReconciles(pw: PaperWorld, inputs: TickInputs, now: int, day: int)
    requires PaperOk(pw, day) && PaperEnabled(pw, Ticked(inputs), now)
    ensures var r := Reconcile(pw.w.s, inputs.book, inputs.positions, inputs.readAt);
      && (if NetsMatch(inputs.positions.value, pw.snap.value.rows) then r.Ok? else r == Err(BrokerPositionMismatch))
      && (!pw.snap.value.crossed ==> r.Ok?)
      && (r.Ok? ==>
            && Sound(r.value) && TodayOnly(r.value.trades, day)
            && AllTracked(r.value.orders, Shown(pw.paper, day), day)
               && Explained(r.value.orders, Shown(pw.paper, day), day)
            && FlightsFit(pw.w.(s := r.value), Shown(pw.paper, day), day)
            && forall o :: o in r.value.orders && OfDayOrder(o, day) ==> Settled(o, pw.snap.value.rows))
  {
    hide Safe, Shown, BookOk, Tracked, Carries, Explained, TodayOnly, AllGrown;
    hide SameFills, OlderOk, FlightFits, Sound, Reconcile, Settled, AllHeard, Report, NetsMatch;
    var rows, later := pw.snap.value.rows, Shown(pw.paper, day);
    SnapAgrees(pw, day);
    ReconcileAgrees(pw.w.s, rows, pw.snap.value.positions.value, day, inputs.readAt);
    var r := Reconcile(pw.w.s, inputs.book, inputs.positions, inputs.readAt);
    if r.Ok? {
      AgreeingSound(pw.w.s, rows, day);
      PaperFinishedStay(pw.w.s, rows, day);
      ReconcileSound(pw.w.s, inputs.book, inputs.positions, inputs.readAt);
      ShownWellFormed(pw.paper, day);
      ReconciledTracked(pw.w.s.orders, r.value.orders, rows, later, day);
      HeardFlightsFit(pw.w, r.value, inputs.book, later, day);
    }
  }

  lemma AgreeingSound(s: State, rows: seq<PaperRow>, day: int)
    requires Agreeing(s, rows, day)
    ensures Sound(s)
  {
  }

  lemma PreparedReconciled(s: State, inputs: TickInputs, now: int)
    ensures PrepareTick(s, inputs, now).Ok? ==> Reconcile(s, inputs.book, inputs.positions, inputs.readAt).Ok?
  {
    hide Reconcile, Archive, ManageAll, Claim, Advised, Planned, Manageable, EntriesHaveTrades, EntryPending;
  }

  lemma TickedOk(pw: PaperWorld, inputs: TickInputs, now: int, day: int)
    requires PaperOk(pw, day) && PaperEnabled(pw, Ticked(inputs), now) && Safe(PaperStep(pw, Ticked(inputs), now).w)
    ensures PaperOk(PaperStep(pw, Ticked(inputs), now), day)
  {
    hide Safe, Shown, BookOk, Tracked, Carries, TodayOnly, AllGrown, SameFills;
    hide OlderOk, FlightFits, Sound, Reconcile, Settled, PrepareTick, Descends, Report, NetsMatch;
    AsEventEnabled(pw, Ticked(inputs), now, day);
    var pw', rows := PaperStep(pw, Ticked(inputs), now), Shown(pw.paper, day);
    var r := PrepareTick(pw.w.s, inputs, now);
    if HoldsLease(pw.w.s, pw.worker, now) && r.Ok? {
      TickReconciles(pw, inputs, now, day);
      PreparedReconciled(pw.w.s, inputs, now);
      var s1 := Reconcile(pw.w.s, inputs.book, inputs.positions, inputs.readAt).value;
      PreparedFits(s1, pw.w.s, inputs, now);
      Carry(s1.orders, r.value.state.orders, rows, day);
      CarryFlights(pw.w.(s := s1), pw.w.(s := r.value.state), rows, day);
      TakenFits(pw.w, pw'.w, pw.worker, r.value.action, rows, day);
    } else {
      SameFits(pw.w, pw'.w, rows, day);
    }
  }

  // The rest.

  lemma PositionsReadOk(pw: PaperWorld, now: int, day: int)
    requires PaperOk(pw, day) && PaperEnabled(pw, PositionsRead, now) && Safe(PaperStep(pw, PositionsRead, now).w)
    ensures PaperOk(PaperStep(pw, PositionsRead, now), day)
  {
    hide Safe, Shown, BookOk, Tracked, Carries, TodayOnly, OlderOk, FlightFits, Sound, Positions, BookNet;
    AsEventEnabled(pw, PositionsRead, now, day);
    var pw', rows := PaperStep(pw, PositionsRead, now), Shown(pw.paper, day);
    SameFits(pw.w, pw'.w, rows, day);
    FilledNonNegative(pw.paper, day);
    PositionsAreNet(rows, "");
    if !pw.snap.value.crossed {
      forall instrument: string ensures HeldAsBooked(Positions(rows), pw.snap.value.rows, instrument) {
        PositionsAreNet(rows, instrument);
        BookNetSame(pw.snap.value.rows, rows, instrument);
      }
    }
  }

  lemma FilledNonNegative(paper: seq<PaperRow>, day: int)
    requires BookOk(paper)
    ensures forall r :: r in Shown(paper, day) ==> 0 <= r.filled
  {
    ShownMembers(paper, day);
  }

  lemma {:induction false} BookNetSame(rows: seq<PaperRow>, ps: seq<PaperRow>, instrument: string)
    requires AllGrown(rows, ps) && SameFills(rows, ps)
    ensures BookNet(rows, instrument) == BookNet(ps, instrument)
    decreases |ps|
  {
    if |ps| > |rows| {
      BookNetSame(rows, ps[..|ps| - 1], instrument);
    } else if rows != [] {
      var last := |rows| - 1;
      BookNetSame(rows[..last], ps[..last], instrument);
      assert Grown(rows[last], ps[last]);
    }
  }

  predicate QuietMove(e: Event) {
    e.CrashEvent? || e.AcquireEvent? || e.ControlEvent? || e.PolicyEvent? || e.ResolveEvent?
  }

  /** What the moves that change the record alone do to it. */
  lemma QuietMoveFits(w: World, e: Event, now: int)
    requires Sound(w.s) && TodayOnly(w.s.trades, Day(now)) && Enabled(w, e, now) && QuietMove(e)
    ensures var s' := Step(w, e, now).s;
      Descends(w.s.orders, s'.orders, Day(now)) && TodayOnly(s'.trades, Day(now))
  {
    hide Acquire, Control, ConfigurePolicy, ResolveTrade, Sound, Descends, TodayOnly;
    var s, day := w.s, Day(now);
    SameDescends(s, day);
    match e
    case AcquireEvent(x) =>
      if Acquire(s, x, now).Some? {
        AcquireFits(s, x, now, day);
      }
    case ControlEvent(operation, requestId) => ControlFits(s, operation, requestId, now, day);
    case PolicyEvent(loss, risk, losses, requestId) => PolicyFits(s, loss, risk, losses, requestId, now, day);
    case ResolveEvent(id, reason, requestId) => ResolveFits(s, id, reason, requestId, now, day);
    case CrashEvent(_) =>
  }

  lemma QuietEventFits(pw: PaperWorld, e: PaperEvent, now: int, day: int)
    requires PaperOk(pw, day) && PaperEnabled(pw, e, now) && QuietEvent(e)
    ensures var s, s' := pw.w.s, PaperStep(pw, e, now).w.s;
      Descends(s.orders, s'.orders, day) && TodayOnly(s'.trades, day)
  {
    hide PaperOk, Safe, Enabled, Step, AsEvent, Sound, Descends, TodayOnly, QuietEvent, QuietMove;
    hide PaperAfter, SnapAfter;
    AsEventEnabled(pw, e, now, day);
    DayOfOk(pw, day);
    PaperIsSafe(pw, day);
    SafeIsSound(pw.w);
    FitsToday(pw, day);
    QuietAsEvent(pw, e, now);
    QuietMoveFits(pw.w, AsEvent(pw, e, now), now);
  }

  predicate QuietEvent(e: PaperEvent) {
    || e.Restarted? || e.Acquired? || e.ReadBegun? || e.Dropped?
    || e.OwnerControl? || e.OwnerPolicy? || e.OwnerResolve?
  }

  /** The broker's rows stay, and at most one flight goes. */
  lemma QuietStepFrame(w: World, e: Event, now: int)
    requires Enabled(w, e, now) && QuietMove(e)
    ensures var w' := Step(w, e, now);
      && w'.now == now && w'.out.rows == w.out.rows
      && forall x :: x in w'.out.flights ==> x in w.out.flights && w'.out.flights[x] == w.out.flights[x]
  {
    hide Acquire, Control, ConfigurePolicy, ResolveTrade;
  }

  lemma QuietAsEvent(pw: PaperWorld, e: PaperEvent, now: int)
    requires QuietEvent(e)
    ensures QuietMove(AsEvent(pw, e, now))
  {
    hide RowsOf, PaperAfter, Place, CancelRow, RequestOf;
  }

  lemma QuietEventFrame(pw: PaperWorld, e: PaperEvent, now: int, day: int)
    requires PaperOk(pw, day) && PaperEnabled(pw, e, now) && QuietEvent(e)
    ensures var pw' := PaperStep(pw, e, now);
      && Day(pw'.w.now) == day && pw'.paper == pw.paper && pw'.older == pw.older && pw'.w.out.rows == pw.w.out.rows
      && (forall x :: x in pw'.w.out.flights ==> x in pw.w.out.flights && pw'.w.out.flights[x] == pw.w.out.flights[x])
      && (pw'.snap.None? || (pw'.snap == pw.snap && pw'.worker == pw.worker))
  {
    hide PaperOk, Enabled, AsEvent, Step, Place, CancelRow, RequestOf, ReadBook;
    DayOfOk(pw, day);
    AsEventEnabled(pw, e, now, day);
    QuietAsEvent(pw, e, now);
    QuietStepFrame(pw.w, AsEvent(pw, e, now), now);
  }

  lemma DayOfOk(pw: PaperWorld, day: int)
    requires PaperOk(pw, day)
    ensures Day(pw.w.now) == day
  {
  }

  /** The events that change the record alone, or drop a call. */
  lemma QuietEventOk(pw: PaperWorld, e: PaperEvent, now: int, day: int)
    requires PaperOk(pw, day) && PaperEnabled(pw, e, now) && Safe(PaperStep(pw, e, now).w) && QuietEvent(e)
    ensures PaperOk(PaperStep(pw, e, now), day)
  {
    hide PaperOk, PaperStep, PaperEnabled, Safe, Descends, TodayOnly, QuietEvent;
    QuietEventFits(pw, e, now, day);
    QuietEventFrame(pw, e, now, day);
    RecordMoves(pw, PaperStep(pw, e, now), day);
  }

  lemma FitsToday(pw: PaperWorld, day: int)
    requires PaperOk(pw, day)
    ensures TodayOnly(pw.w.s.trades, day)
  {
  }

  /** Every event of the day keeps the invariant. */
  lemma PaperStepOk(pw: PaperWorld, e: PaperEvent, now: int, day: int)
    requires PaperOk(pw, day) && PaperEnabled(pw, e, now)
    ensures PaperOk(PaperStep(pw, e, now), day)
  {
    hide PaperOk, PaperStep, Safe, PaperEnabled, AsEvent;
    SafeNext(pw, e, now, day);
    match e
    case BookRead(_, _) => BookReadOk(pw, e, now, day);
    case LateRead(_, _) => LateReadOk(pw, e, now, day);
    case PositionsRead => PositionsReadOk(pw, now, day);
    case Ticked(inputs) => TickedOk(pw, inputs, now, day);
    case GaveUp => GaveUpOk(pw, now, day);
    case PlaceCalled(_, _, _, _, _) => PlaceCalledOk(pw, e, now, day);
    case CancelCalled(_, _, _) => CancelCalledOk(pw, e, now, day);
    case Recorded => RecordedOk(pw, now, day);
    case TickFailed(grace) => FailedOk(pw, grace, now, day);
    case _ => QuietEventOk(pw, e, now, day);
  }

  lemma PaperIsSafe(pw: PaperWorld, day: int)
    requires PaperOk(pw, day)
    ensures Safe(pw.w)
  {
  }

  lemma SafeNext(pw: PaperWorld, e: PaperEvent, now: int, day: int)
    requires PaperOk(pw, day) && PaperEnabled(pw, e, now)
    ensures Safe(PaperStep(pw, e, now).w)
  {
    hide Safe, RecordFits, SnapOk, BookOk, Step;
    AsEventEnabled(pw, e, now, day);
    StepSafe(pw.w, AsEvent(pw, e, now), now);
  }

  // Runs.

  ghost predicate PaperFollows(pw: PaperWorld, pw': PaperWorld) {
    exists e, now :: PaperEnabled(pw, e, now) && pw' == PaperStep(pw, e, now)
  }

  /** The day begins with nothing in flight, no trade of the day and none open, and no row of the day. */
  ghost predicate DayStart(pw: PaperWorld) {
    var day := Day(pw.w.now);
    && Safe(pw.w) && pw.w.out.flights == map[] && pw.w.out.rows == pw.older && pw.snap.None? && pw.begun.None?
    && BookOk(pw.paper) && (forall r :: r in pw.paper ==> r.day != day)
    && (forall t :: t in pw.w.s.trades ==> t.id.day != day && Closed(t))
  }

  ghost predicate PaperDay(pws: seq<PaperWorld>) {
    pws != [] && DayStart(pws[0]) && forall i :: 0 < i < |pws| ==> PaperFollows(pws[i - 1], pws[i])
  }

  lemma {:induction false} NothingShown(paper: seq<PaperRow>, day: int)
    requires forall r :: r in paper ==> r.day != day
    ensures Shown(paper, day) == []
  {
    if paper != [] {
      NothingShown(paper[..|paper| - 1], day);
      assert paper[|paper| - 1] in paper;
    }
  }

  /** Whatever was placed before was of an order of an earlier trade. */
  lemma OlderRows(pw: PaperWorld)
    requires DayStart(pw)
    ensures OlderOk(pw.older, Day(pw.w.now))
  {
    var day := Day(pw.w.now);
    forall r | r in pw.older ensures r.tag.trade.day != day {
      var i :| 0 <= i < |pw.w.out.rows| && pw.w.out.rows[i] == r;
      assert Known(pw.w, r.tag);
      var o :| IsOrder(pw.w, o) && o.id == r.tag;
      if o in pw.w.s.orders {
        HotOrderHasTrade(pw.w.s, o);
      } else {
        var a :| a in pw.w.archive && o in a.orders;
      }
    }
  }

  lemma EarlierOrders(pw: PaperWorld)
    requires DayStart(pw)
    ensures forall o :: o in pw.w.s.orders ==> !OfDayOrder(o, Day(pw.w.now))
  {
    forall o | o in pw.w.s.orders ensures !OfDayOrder(o, Day(pw.w.now)) {
      HotOrderHasTrade(pw.w.s, o);
    }
  }

  lemma DayStartOk(pw: PaperWorld)
    requires DayStart(pw)
    ensures PaperOk(pw, Day(pw.w.now))
  {
    hide Safe, BookOk;
    OlderRows(pw);
    EarlierOrders(pw);
    NothingShown(pw.paper, Day(pw.w.now));
  }

  lemma PaperFollowsOk(pw: PaperWorld, pw': PaperWorld, day: int)
    requires PaperOk(pw, day) && PaperFollows(pw, pw')
    ensures PaperOk(pw', day)
  {
    hide PaperOk;
    var e, now :| PaperEnabled(pw, e, now) && pw' == PaperStep(pw, e, now);
    PaperStepOk(pw, e, now, day);
  }

  lemma {:induction false} PaperDayOk(pws: seq<PaperWorld>, i: nat)
    requires PaperDay(pws) && i < |pws|
    ensures PaperOk(pws[i], Day(pws[0].w.now))
  {
    hide PaperOk, DayStart, PaperFollows;
    if i == 0 {
      DayStartOk(pws[0]);
    } else {
      PaperDayOk(pws, i - 1);
      PaperFollowsOk(pws[i - 1], pws[i], Day(pws[0].w.now));
    }
  }

  /** Every order of the day has the fill, the state and the id of its row as read. */
  predicate AsRead(s: State, book: seq<BookRow>, day: int) {
    forall o, b :: o in s.orders && OfDayOrder(o, day) && b in book && b.tag == Some(o.id) ==>
      o.brokerId == Some(b.orderId) && o.filled == b.filled && StateFromRow(b) == Some(o.state)
  }

  lemma TickPrepares(pw: PaperWorld, inputs: TickInputs, now: int, day: int)
    requires PaperOk(pw, day) && PaperEnabled(pw, Ticked(inputs), now)
    ensures Reconcile(pw.w.s, inputs.book, inputs.positions, inputs.readAt).Ok?
      <==> PrepareTick(pw.w.s, inputs, now).Ok?
  {
    hide PaperOk, Reconcile, PrepareTick, Safe, Honest;
    PaperIsSafe(pw, day);
    SnapHonest(pw, day);
    PrepareSafe(pw.w, pw.worker, inputs, now);
    PreparedReconciled(pw.w.s, inputs, now);
  }

  lemma TickFailsAsReconcile(pw: PaperWorld, inputs: TickInputs, now: int, day: int)
    requires PaperOk(pw, day) && PaperEnabled(pw, Ticked(inputs), now)
    ensures var r := PrepareTick(pw.w.s, inputs, now);
      r.Err? ==> Reconcile(pw.w.s, inputs.book, inputs.positions, inputs.readAt) == Err(r.error)
  {
    hide PaperOk, Reconcile, PrepareTick, Safe, Honest;
    PaperIsSafe(pw, day);
    SnapHonest(pw, day);
    PrepareSafe(pw.w, pw.worker, inputs, now);
  }

  lemma SettledAsRead(s: State, rows: seq<PaperRow>, day: int)
    requires forall o :: o in s.orders && OfDayOrder(o, day) ==> Settled(o, rows)
    ensures AsRead(s, Report(rows), day)
  {
    hide Settled, Report;
    forall o, b | o in s.orders && OfDayOrder(o, day) && b in Report(rows) && b.tag == Some(o.id)
      ensures o.brokerId == Some(b.orderId) && o.filled == b.filled && StateFromRow(b) == Some(o.state)
    {
      SettledReport(o, rows, b);
    }
  }

  /**
   On every day on the paper broker, whenever a tick prepares: reconciling raises no mismatch, regression, unmanaged
   order or oversell; it goes through, and the transaction with it, exactly when the positions read are those of the
   book read, which they are unless a former process's read filled orders between the two; and then every order of the
   day has the fill, the state and the id of its row as read.
   */
  lemma PaperNeverDisagrees(pws: seq<PaperWorld>, i: nat, inputs: TickInputs, now: int)
    requires PaperDay(pws) && i < |pws| && PaperEnabled(pws[i], Ticked(inputs), now)
    ensures var r, snap := Reconcile(pws[i].w.s, inputs.book, inputs.positions, inputs.readAt), pws[i].snap.value;
      && (r.Ok? <==> NetsMatch(inputs.positions.value, snap.rows)) && (!snap.crossed ==> r.Ok?)
      && (r.Err? ==> r.error == BrokerPositionMismatch)
      && (r.Ok? <==> PrepareTick(pws[i].w.s, inputs, now).Ok?)
      && (r.Ok? ==> AsRead(r.value, inputs.book, Day(now)))
  {
    hide PaperDay, PaperOk, Reconcile, PrepareTick, Settled, NetsMatch, Explained, AllTracked, FlightsFit, TodayOnly;
    hide Sound, AsRead;
    var pw, day := pws[i], Day(pws[0].w.now);
    PaperDayOk(pws, i);
    DayOfOk(pw, day);
    TickReconciles(pw, inputs, now, day);
    TickPrepares(pw, inputs, now, day);
    var r := Reconcile(pw.w.s, inputs.book, inputs.positions, inputs.readAt);
    if r.Ok? {
      SettledAsRead(r.value, pw.snap.value.rows, day);
    }
  }

  /** A tick that fails on the paper broker fails with the error that reconciling raised. */
  lemma FailsAsReconcile(pws: seq<PaperWorld>, i: nat, inputs: TickInputs, now: int)
    requires PaperDay(pws) && i < |pws| && PaperEnabled(pws[i], Ticked(inputs), now)
    ensures var r := PrepareTick(pws[i].w.s, inputs, now);
      r.Err? ==> Reconcile(pws[i].w.s, inputs.book, inputs.positions, inputs.readAt) == Err(r.error)
  {
    hide PaperDay, PaperOk, PaperEnabled, Reconcile, PrepareTick;
    PaperDayOk(pws, i);
    TickFailsAsReconcile(pws[i], inputs, now, Day(pws[0].w.now));
  }

  /** Only a read that was begun by a process since replaced can come between the two reads. */
  ghost predicate NothingFormer(pw: PaperWorld) {
    pw.former == multiset{} && (pw.snap.Some? ==> !pw.snap.value.crossed)
  }

  lemma SameProcessFollows(pw: PaperWorld, pw': PaperWorld)
    requires NothingFormer(pw) && PaperFollows(pw, pw') && pw'.worker == pw.worker
    ensures NothingFormer(pw')
  {
    hide PaperAfter, AsEvent, Enabled, Step, ReadBook, Positions, Shown, Report, HasDue;
  }

  lemma {:induction false} SameProcessOn(pws: seq<PaperWorld>, i: nat)
    requires PaperDay(pws) && i < |pws| && pws[0].former == multiset{}
    requires forall j :: 0 <= j <= i ==> pws[j].worker == pws[0].worker
    ensures NothingFormer(pws[i])
  {
    hide PaperFollows;
    if i > 0 {
      SameProcessOn(pws, i - 1);
      SameProcessFollows(pws[i - 1], pws[i]);
    }
  }

  /** While one process runs, with no read of an earlier one still on its way, reconciling always goes through. */
  lemma OneProcessAgrees(pws: seq<PaperWorld>, i: nat, inputs: TickInputs, now: int)
    requires PaperDay(pws) && i < |pws| && PaperEnabled(pws[i], Ticked(inputs), now) && pws[0].former == multiset{}
    requires forall j :: 0 <= j <= i ==> pws[j].worker == pws[0].worker
    ensures Reconcile(pws[i].w.s, inputs.book, inputs.positions, inputs.readAt).Ok?
    ensures PrepareTick(pws[i].w.s, inputs, now).Ok?
  {
    hide PaperDay, Reconcile, PrepareTick, NetsMatch, AsRead;
    SameProcessOn(pws, i);
    PaperNeverDisagrees(pws, i, inputs, now);
  }

  predicate NetStayed(rows: seq<PaperRow>, later: seq<PaperRow>, instrument: string) {
    BookNet(rows, instrument) == BookNet(later, instrument)
  }

  /**
   If the positions were read now, the tick would go through if and only if no net has moved since the book was read.
   */
  lemma CrossedExactly(pw: PaperWorld, day: int)
    requires PaperOk(pw, day) && pw.snap.Some?
    ensures var rows, later := pw.snap.value.rows, Shown(pw.paper, day);
      NetsMatch(Positions(later), rows) <==> forall instrument: string :: NetStayed(rows, later, instrument)
  {
    hide Safe, SnapOk, RecordFits, BookOk, Shown, Positions, BookNet;
    var rows, later := pw.snap.value.rows, Shown(pw.paper, day);
    FilledNonNegative(pw.paper, day);
    forall instrument: string
      ensures HeldAsBooked(Positions(later), rows, instrument) <==> NetStayed(rows, later, instrument)
    {
      PositionsAreNet(later, instrument);
    }
  }

  lemma SettledReport(o: Order, rows: seq<PaperRow>, b: BookRow)
    requires Settled(o, rows) && b in Report(rows) && b.tag == Some(o.id)
    ensures o.brokerId == Some(b.orderId) && o.filled == b.filled && StateFromRow(b) == Some(o.state)
  {
    ReportMembers(rows);
  }
}
