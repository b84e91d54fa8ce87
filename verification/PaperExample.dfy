/**
 A day on the paper broker on which a read that a replaced process had begun fills the entry between the new process's
 two reads, so that its tick fails.
 */
module PaperExample {
  import opened Wrappers
  import opened SandboxTypes
  import opened SandboxSpec
  import opened SandboxService
  import opened SandboxWorld
  import opened SandboxRuns
  import opened PaperSpec
  import opened PaperAgreement
  import opened PaperRuns
  import opened PaperSafety
  import L = LossExample

  // The new process takes over when the lease of the first has run out.
  const FIRST := L.NOW
  const LATER := L.NOW + LEASE_MS

  const KEY := "NSE_FO|CE"
  const TAKEN := L.PLANNED.(exitReason := Some(Restart))
  const ACKED := L.Acked(L.ENTRY, "1")
  const OPEN := PaperRow("1", L.TODAY, FIRST, L.ENTRY.id, KEY, 50, 10000, 0, true, false, PaperOpen, 0, 0)
  const FILLED := OPEN.(status := PaperComplete, filled := 50, average := 10000)
  const HELD := Position(KEY, 50, true)

  const ENTERING := L.ENTERING.(positions := Some([]))
  const TICK := TickInputs(Report([OPEN]), Some([HELD]), LATER, None, map[], L.NOTHING, None, true)

  const ENTERED := L.After([L.PLANNED], [L.ENTRY], {})
  const SENT := L.After([L.PLANNED], [ACKED], {})
  const TAKEOVER :=
    SENT.(bootId := Some("x"), armed := false, killed := true, reconciledAt := None, trades := [TAKEN],
          lease := Some(Lease("x", LATER + LEASE_MS)))

  function Outer(paper: seq<PaperRow>, flight: Option<Flight>): Outside {
    Outside(KeptAll(paper), if flight.None? then map[] else map["w" := flight.value],
            if paper == [] then [] else [L.ENTRY.id])
  }

  function Early(s: State, paper: seq<PaperRow>, flight: Option<Flight>, snap: Option<Snapshot>, begun: Option<int>)
      : PaperWorld
  {
    PaperWorld(World(s, [], Outer(paper, flight), FIRST), [], paper, "w", snap, begun, multiset{})
  }

  function Late(s: State, now: int, paper: seq<PaperRow>, snap: Option<Snapshot>, begun: Option<int>,
        former: multiset<int>)
      : PaperWorld
  {
    PaperWorld(World(s, [], Outer(paper, None), now), [], paper, "x", snap, begun, former)
  }

  /** Plan, send and hear of the entry; begin a read; be replaced; the new process reads, and the old read lands. */
  function At(k: nat): PaperWorld
    requires k < 14
  {
    match k
    case 0 => Early(L.ARMED, [], None, None, None)
    case 1 => Early(L.ARMED, [], None, None, Some(FIRST))
    case 2 => Early(L.ARMED, [], None, Some(Snapshot([], None, false)), None)
    case 3 => Early(L.ARMED, [], None, Some(Snapshot([], Some([]), false)), None)
    case 4 => Early(ENTERED, [], Some(Due(L.PLACE_ENTRY)), None, None)
    case 5 => Early(ENTERED, [OPEN], Some(Done(L.PLACE_ENTRY, AckReply(Some("1")))), None, None)
    case 6 => Early(SENT, [OPEN], None, None, None)
    case 7 => Early(SENT, [OPEN], None, None, Some(FIRST))
    case 8 => Late(SENT, FIRST, [OPEN], None, None, multiset{FIRST})
    case 9 => Late(TAKEOVER, LATER, [OPEN], None, None, multiset{FIRST})
    case 10 => Late(TAKEOVER, LATER, [OPEN], None, Some(LATER), multiset{FIRST})
    case 11 => Late(TAKEOVER, LATER, [OPEN], Some(Snapshot([OPEN], None, false)), None, multiset{FIRST})
    case 12 => Late(TAKEOVER, LATER, [FILLED], Some(Snapshot([OPEN], None, true)), None, multiset{})
    case _ => Late(TAKEOVER, LATER, [FILLED], Some(Snapshot([OPEN], Some([HELD]), true)), None, multiset{})
  }

  function EventAt(k: nat): PaperEvent
    requires k < 13
  {
    match k
    case 0 => ReadBegun
    case 1 => BookRead(map[], FIRST)
    case 2 => PositionsRead
    case 3 => Ticked(ENTERING)
    case 4 => PlaceCalled("w", "1", FIRST, true, true)
    case 5 => Recorded
    case 6 => ReadBegun
    case 7 => Restarted("x")
    case 8 => Acquired
    case 9 => ReadBegun
    case 10 => BookRead(map[], LATER)
    case 11 => LateRead(QUOTED, FIRST)
    case _ => PositionsRead
  }

  function TimeAt(k: nat): int {
    if k < 8 then FIRST else LATER
  }

  ghost predicate Moves(k: nat)
    requires k < 13
  {
    && PaperEnabled(At(k), EventAt(k), TimeAt(k))
    && PaperStep(At(k), EventAt(k), TimeAt(k)) == At(k + 1)
  }

  lemma Times()
    ensures Day(FIRST) == Day(LATER) == L.TODAY && InSession(FIRST) && InSession(LATER)
    ensures Day(FIRST - KEPT_MS) <= L.TODAY
  {
  }

  lemma Rows(r: PaperRow)
    requires r == OPEN || r == FILLED
    ensures Shown([r], L.TODAY) == [r] && Report([r]) == [Reported(r)] && KeptAll([r]) == [Kept(r)]
    ensures RowsOf([], [r], L.TODAY) == [Kept(r)]
  {
    assert [r][..0] == [] && [] + [r] == [r];
    assert [] + [Kept(r)] == [Kept(r)];
  }

  lemma NoRows()
    ensures Shown([], L.TODAY) == [] && RowsOf([], [], L.TODAY) == [] && KeptAll([]) == [] && Report([]) == []
  {
  }

  // The moves.

  // The general world sees the next moves as crashes of a process that holds nothing.

  lemma Begins(k: nat)
    requires k in {0, 6, 9}
    ensures Moves(k)
  {
    hide ReadBook, Shown, KeptAll, Report;
    Times();
    assert map[] - {At(k).worker} == At(k).w.out.flights;
  }

  lemma Counts()
    ensures Positions([]) == [] && Positions([FILLED]) == [HELD]
  {
    assert [FILLED][..0] == [];
  }

  lemma Positioned(k: nat)
    requires k in {2, 12}
    ensures Moves(k)
  {
    hide ReadBook, Shown, KeptAll, Report, Positions;
    Times();
    NoRows();
    Rows(FILLED);
    Counts();
    assert map[] - {At(k).worker} == At(k).w.out.flights;
  }

  lemma Replaced()
    ensures Moves(7)
  {
    hide ReadBook, Shown, KeptAll, Report;
    Times();
    assert map[] - {"x"} == At(7).w.out.flights;
    assert multiset{} + multiset{FIRST} == multiset{FIRST};
  }

  lemma SameEvolves(paper: seq<PaperRow>)
    requires paper == [] || paper == [OPEN]
    ensures Evolves(KeptAll(paper), KeptAll(paper))
  {
  }

  lemma NoQuotes(paper: seq<PaperRow>, started: int, now: int)
    ensures ReadBook(paper, map[], started, now) == (paper, Shown(paper, Day(started)))
  {
  }

  lemma BrokerMoves(w: World, rows: seq<Row>, now: int)
    requires Evolves(w.out.rows, rows) && w.now <= now
    ensures Enabled(w, BrokerEvent(rows), now)
    ensures Step(w, BrokerEvent(rows), now) == w.(out := w.out.(rows := rows), now := now)
  {
  }

  /** A read that gets no quotes fills nothing. */
  lemma ReadsNothing(k: nat)
    requires k in {1, 10}
    ensures Moves(k)
  {
    hide ReadBook, Evolves, Shown, KeptAll, Report, Enabled, Step;
    Times();
    NoRows();
    Rows(OPEN);
    NoQuotes(At(k).paper, TimeAt(k), TimeAt(k));
    SameEvolves(At(k).paper);
    BrokerMoves(At(k).w, KeptAll(At(k).paper), TimeAt(k));
  }

  const QUOTED := map[KEY := LiveQuote(9990, 10000, LATER)]

  lemma OldRead()
    ensures ReadBook([OPEN], QUOTED, FIRST, LATER).0 == [FILLED]
    ensures Evolves([Kept(OPEN)], [Kept(FILLED)])
  {
    Times();
    assert Fill(OPEN, LiveFor(QUOTED, KEY), LATER) == FILLED;
    assert FillAll([OPEN], QUOTED, L.TODAY, LATER) == [FILLED];
  }

  /** The read begun by the first process gets a quote within the entry's limit. */
  lemma OldReadFills()
    ensures Moves(11)
  {
    hide ReadBook, Evolves, Shown, KeptAll, Report, Enabled, Step;
    Times();
    Rows(OPEN);
    Rows(FILLED);
    OldRead();
    BrokerMoves(At(11).w, [Kept(FILLED)], LATER);
    assert multiset{FIRST} - multiset{FIRST} == multiset{};
  }

  lemma EnteredOnPaper()
    ensures PrepareTick(L.ARMED, ENTERING, FIRST) == Ok(Prepared(ENTERED, [], Some(L.PLACE_ENTRY)))
  {
    hide Reconcile, Archive, Advised, ManageAll, Manageable, Planned, EntriesHaveTrades, Claim;
    NothingHeard();
    L.NothingManaged();
    SameAdvice(L.After([], [], {}));
    L.EntryPlanned();
    L.EntryClaimed();
  }

  lemma NothingHeard()
    ensures Reconcile(L.ARMED, [], Some([]), FIRST) == Ok(L.After([], [], {}))
  {
  }

  /** The positions read are no part of what is advised and planned. */
  lemma SameAdvice(s: State)
    ensures Advised(s, ENTERING, FIRST) == Advised(s, L.ENTERING, FIRST)
    ensures Planned(s, ENTERING, FIRST) == Planned(s, L.ENTERING, FIRST)
  {
    hide PlanEntry;
  }

  lemma NothingRead(rows: seq<Row>)
    ensures Honest([], rows)
  {
  }

  lemma Ticks()
    ensures Moves(3)
  {
    hide PrepareTick, Enabled, Step, Honest;
    Times();
    NoRows();
    EnteredOnPaper();
    NothingRead(At(3).w.out.rows);
    L.PrepareStep(At(3).w, ENTERING, Prepared(ENTERED, [], Some(L.PLACE_ENTRY)));
  }

  lemma OnePlaced()
    ensures Place([], RequestOf(L.ENTRY), "1", FIRST, FIRST) == ([OPEN], Ok(AckReply(Some("1"))))
  {
    Times();
    assert InstrumentKey(KEY);
    assert NewRow(RequestOf(L.ENTRY), "1", FIRST) == OPEN && [] + [OPEN] == [OPEN];
    assert Since([OPEN], Day(FIRST - KEPT_MS)) == [OPEN] by {
      assert [OPEN][..0] == [];
    }
  }

  lemma OneLands()
    ensures Lands([], [Kept(OPEN)], L.ENTRY, AckReply(Some("1")))
  {
    assert [] + [Kept(OPEN)] == [Kept(OPEN)] && IsRowOf(Kept(OPEN), L.ENTRY, AckReply(Some("1")));
  }

  lemma Sends()
    ensures var e := PlaceEvent("w", [Kept(OPEN)], AckReply(Some("1")));
      Enabled(At(4).w, e, FIRST) && Step(At(4).w, e, FIRST) == At(5).w
  {
    Rows(OPEN);
    NoRows();
    OneLands();
    hide Lands;
  }

  lemma Places()
    ensures Moves(4)
  {
    hide Place, ReadBook, Shown, KeptAll, Report, Enabled, Step;
    Times();
    NoRows();
    Rows(OPEN);
    OnePlaced();
    Sends();
  }

  lemma Answers()
    ensures Enabled(At(5).w, RecordEvent("w"), FIRST) && Step(At(5).w, RecordEvent("w"), FIRST) == At(6).w
  {
    assert OrderIndex([L.ENTRY], L.ENTRY.id) == 0;
    assert [L.ENTRY][0 := ACKED] == [ACKED];
    assert At(5).w.out.flights - {"w"} == map[];
  }

  lemma Records()
    ensures Moves(5)
  {
    hide ReadBook, Shown, KeptAll, Report, Enabled, Step;
    Times();
    Answers();
  }

  lemma LeaseLapsed()
    ensures Acquire(SENT, "x", LATER) == Some(TAKEOVER)
  {
    assert InterruptAll([ACKED]) == [ACKED];
    assert ExitAll([L.PLANNED], Restart) == [TAKEN];
  }

  lemma TakesOver()
    ensures Moves(8)
  {
    hide Acquire, ReadBook, Shown, KeptAll, Report;
    Times();
    Rows(OPEN);
    LeaseLapsed();
  }

  lemma AllMove(k: nat)
    requires k < 13
    ensures Moves(k)
  {
    hide Moves;
    if k in {0, 6, 9} {
      Begins(k);
    } else if k in {2, 12} {
      Positioned(k);
    } else if k == 7 {
      Replaced();
    } else if k in {1, 10} {
      ReadsNothing(k);
    } else if k == 3 {
      Ticks();
    } else if k == 4 {
      Places();
    } else if k == 5 {
      Records();
    } else if k == 8 {
      TakesOver();
    } else {
      OldReadFills();
    }
  }

  // The day.

  lemma StartSafe()
    ensures Safe(At(0).w)
  {
  }

  lemma StartsDay()
    ensures DayStart(At(0))
  {
    hide Safe;
    StartSafe();
    Times();
    NoRows();
  }

  lemma NothingHeld()
    ensures !NetsMatch([HELD], [OPEN])
  {
    assert [HELD][..0] == [] && [OPEN][..0] == [];
    assert Held([], KEY) == 0 && BookNet([], KEY) == 0;
    assert HELD.instrument == KEY && HELD.quantity == 50 && Signed(OPEN) == 0;
    assert Held([HELD], KEY) == 50;
    assert BookNet([OPEN], KEY) == 0;
    assert !HeldAsBooked([HELD], [OPEN], KEY);
  }

  lemma ReadyToTick()
    ensures PaperEnabled(At(13), Ticked(TICK), LATER) && HoldsLease(At(13).w.s, "x", LATER)
  {
    Times();
  }

  /**
   A day on the paper broker on which a process that holds the lease, and that has read the book and the positions as it
   should, fails its tick with a position mismatch: a read begun by the process it replaced filled the entry in between.
   */
  lemma ReadsCrossed() returns (pws: seq<PaperWorld>)
    ensures PaperDay(pws) && pws[0].former == multiset{}
    ensures var pw := pws[|pws| - 1];
      && PaperEnabled(pw, Ticked(TICK), LATER) && HoldsLease(pw.w.s, pw.worker, LATER)
      && Reconcile(pw.w.s, TICK.book, TICK.positions, TICK.readAt) == Err(BrokerPositionMismatch)
      && PrepareTick(pw.w.s, TICK, LATER) == Err(BrokerPositionMismatch)
  {
    hide DayStart, PaperEnabled, PaperStep, Reconcile, PrepareTick, NetsMatch, HoldsLease, AsRead, Report;
    pws := seq(14, k requires 0 <= k < 14 => At(k));
    StartsDay();
    forall k | 0 < k < 14 ensures PaperFollows(pws[k - 1], pws[k]) {
      AllMove(k - 1);
    }
    ReadyToTick();
    NothingHeld();
    PaperNeverDisagrees(pws, 13, TICK, LATER);
    FailsAsReconcile(pws, 13, TICK, LATER);
  }
}
