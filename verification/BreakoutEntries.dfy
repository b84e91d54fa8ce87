/**
 What an offered entry rests on, and what becomes of a breakout whose closes are revised.
 */
module BreakoutEntries {
  import opened Wrappers
  import opened BreakoutSpec
  import opened BreakoutSafety
  import opened BreakoutSittings

  // Entries.

  /**
   Ten minutes of freshness against two minutes of confirmation: while a breakout that settled is fresh, the newest
   candle expected by now is the crossing candle or the one after it.
   */
  lemma LatestIsNear(day: int, t: int, now: int)
    requires OnGrid(day, t) && OpenOf(day) <= t
    requires t + FIVE + SETTLE_MS + CONFIRM_MS <= now && now - (t + FIVE) <= ENTRY_FRESHNESS_MS
    ensures ExpectedLatest(day, now) == Some(t) || ExpectedLatest(day, now) == Some(t + FIVE)
  {
    var m := (t - OpenOf(day)) / FIVE;
    assert t == OpenOf(day) + m * FIVE;
    var k := (now - SETTLE_MS - CONFIRM_MS - FIVE - OpenOf(day)) / FIVE;
    assert k == m || k == m + 1;
  }

  /** A trusted evaluation merged the breakouts it shows. */
  lemma TrustedMerge(st: SessionState, c: Call)
    requires StatusAt(st, c) == StatusOk && Next(st, c).anchor.Some?
    ensures Readable(st, c)
    ensures var st' := Ingest(st, c.source, c.now);
      && st'.anchor.Some? && !st'.anchorConflict
      && Next(st, c) == st'.(breakouts := Merged(st', Derived(st'), c.now), trustAfter := None)
  {
    hide Ingest, Merged, Derived, Covered, TrustRestored;
  }

  /** No read of this candle ever went against what was settled before it. */
  ghost predicate NeverRevised(states: seq<SessionState>, calls: seq<Call>, t: int, k: nat)
    requires k < |calls| < |states|
  {
    forall j, x :: 0 <= j <= k && ReadAs(states[j], calls[j], t, x) && t in states[j].settled ==>
      !Apart(states[j].settled[t], x)
  }

  lemma RevisedStays(st: SessionState, c: Call, t: int)
    requires WellFormed(c.source)
    ensures t in st.revised ==> t in Next(st, c).revised
    ensures forall x :: ReadAs(st, c, t, x) && t in st.settled && Apart(st.settled[t], x) ==> t in Next(st, c).revised
  {
    hide Next;
    NextSlot(st, c, t);
    if x :| ReadAs(st, c, t, x) {
      assert SlotOf(Next(st, c), t) == SlotStep(SlotOf(st, t), x, c.now);
    } else {
      assert SlotOf(Next(st, c), t) == SlotOf(st, t);
    }
  }

  lemma {:induction false} RevisedForGood(day: int, states: seq<SessionState>, calls: seq<Call>, i: nat, j: nat, t: int)
    requires Sitting(day, states, calls) && i <= j <= |calls| && t in states[i].revised
    ensures t in states[j].revised
  {
    hide Next, Built;
    if i < j {
      RevisedForGood(day, states, calls, i, j - 1, t);
      BuiltIsWellFormed(calls[j - 1].source);
      RevisedStays(states[j - 1], calls[j - 1], t);
    }
  }

  lemma UnrevisedNeverRevised(day: int, states: seq<SessionState>, calls: seq<Call>, k: nat, t: int)
    requires Sitting(day, states, calls) && k < |calls| && t !in states[k + 1].revised
    ensures NeverRevised(states, calls, t, k)
  {
    hide Next, Built;
    forall j, x | 0 <= j <= k && ReadAs(states[j], calls[j], t, x) && t in states[j].settled
      ensures !Apart(states[j].settled[t], x)
    {
      BuiltIsWellFormed(calls[j].source);
      RevisedStays(states[j], calls[j], t);
      if t in states[j + 1].revised {
        RevisedForGood(day, states, calls, j + 1, k + 1, t);
      }
    }
  }

  /** What an entry rests on, in the state it is offered in. */
  ghost predicate Grounded(st: SessionState, id: BreakoutId, now: int) {
    var t, latest := id.crossing, ExpectedLatest(st.day, now);
    && st.anchor.Some? && t in st.settled && t - FIVE in st.settled && t !in st.revised && t - FIVE !in st.revised
    && !Beyond(id.direction, st.settled[t - FIVE], Level(st, id.direction))
    && (latest == Some(t) || latest == Some(t + FIVE))
    && (forall u :: t <= u <= latest.value && OnGrid(st.day, u) ==>
       u in st.settled && Beyond(id.direction, st.settled[u], Level(st, id.direction)))
  }

  /** What the merge says of a confirmed breakout, read off the state after the evaluation. */
  ghost predicate Lasting(st: SessionState, id: BreakoutId) {
    && st.anchor.Some? && Crosses(st, id.direction, id.crossing) && !RevisedInput(st, id.crossing)
    && forall u :: u in st.settled && id.crossing < u ==> Beyond(id.direction, st.settled[u], Level(st, id.direction))
  }

  lemma MergedLasts(st: SessionState, after: SessionState, now: int, id: BreakoutId)
    requires st.anchor.Some? && ReasonsFit(st.breakouts)
    requires after == st.(breakouts := Merged(st, Derived(st), now), trustAfter := None)
    requires id in after.breakouts && after.breakouts[id].confirmed
    ensures Lasting(after, id)
  {
    hide Merged, Derived, InvalidatedAt;
    MergedConfirmed(st, now, id);
    NotEndedMeansBeyond(st, id.direction, id.crossing);
  }

  lemma ReadyFacts(st: SessionState, c: Call, id: BreakoutId)
    requires EntryReady(st, c, id)
    ensures c.source.Source? && StatusAt(st, c) == StatusOk && Next(st, c).anchor.Some?
    ensures id in Next(st, c).breakouts && Next(st, c).breakouts[id].confirmed
    ensures c.now - (id.crossing + FIVE) <= ENTRY_FRESHNESS_MS
  {
    hide Read;
  }

  lemma ReadyLasts(st: SessionState, c: Call, id: BreakoutId)
    requires ReasonsFit(st.breakouts) && EntryReady(st, c, id)
    ensures Lasting(Next(st, c), id)
  {
    hide Next, Ingest, Merged, Derived, StatusAt, EntryReady;
    ReadyFacts(st, c, id);
    TrustedMerge(st, c);
    IngestFrame(st, c.source, c.now);
    MergedLasts(Ingest(st, c.source, c.now), Next(st, c), c.now, id);
  }

  lemma LatestSettled(st: SessionState, c: Call)
    requires StatusAt(st, c) == StatusOk
    ensures ExpectedLatest(st.day, c.now).Some? && ExpectedLatest(st.day, c.now).value in Next(st, c).settled
  {
    hide Ingest, Merged, Derived, TrustRestored;
    NextFrame(st, c);
    if Readable(st, c) {
      IngestFrame(st, c.source, c.now);
    }
  }

  lemma LastingIsGrounded(st: SessionState, id: BreakoutId, now: int)
    requires Lasting(st, id) && OnGrid(st.day, id.crossing)
    requires ExpectedLatest(st.day, now) == Some(id.crossing) || ExpectedLatest(st.day, now) == Some(id.crossing + FIVE)
    requires ExpectedLatest(st.day, now).value in st.settled
    ensures Grounded(st, id, now)
  {
    hide ExpectedLatest;
    var t, latest := id.crossing, ExpectedLatest(st.day, now);
    forall u | t <= u <= latest.value && OnGrid(st.day, u)
      ensures u in st.settled && Beyond(id.direction, st.settled[u], Level(st, id.direction))
    {
      GridNeighbours(st.day, t, u);
    }
  }

  lemma ReadyIsGrounded(st: SessionState, c: Call, id: BreakoutId, before: int)
    requires SessionOk(st, before) && before <= c.now && WellFormed(c.source) && EntryReady(st, c, id)
    ensures Grounded(Next(st, c), id, c.now)
  {
    hide Next, SessionOk, EntryReady, StatusAt, ExpectedLatest, Grounded;
    SessionReasons(st, before);
    ReadyFacts(st, c, id);
    ReadyLasts(st, c, id);
    NextSlots(st, c, before);
    SlotsGridded(Next(st, c), c.now);
    NextFrame(st, c);
    LatestSettled(st, c);
    LatestIsNear(st.day, id.crossing, c.now);
    LastingIsGrounded(Next(st, c), id, c.now);
  }

  lemma SessionReasons(st: SessionState, now: int)
    requires SessionOk(st, now)
    ensures ReasonsFit(st.breakouts) && SlotsOk(st, now)
  {
  }

  lemma GridNeighbours(day: int, t: int, u: int)
    requires OnGrid(day, t) && OnGrid(day, u) && t <= u <= t + FIVE
    ensures u == t || u == t + FIVE
  {
  }

  lemma GroundedUnrevised(st: SessionState, id: BreakoutId, now: int)
    ensures Grounded(st, id, now) ==> id.crossing !in st.revised && id.crossing - FIVE !in st.revised
  {
  }

  /**
   Whenever an evaluation offers an entry: the crossing candle and the one before it are settled and no read ever
   went against either, the one before closed not beyond the level, and every candle from the crossing through the
   newest that must have been confirmed is settled and closed beyond it.
   */
  lemma EntrySound(day: int, states: seq<SessionState>, calls: seq<Call>, k: nat, id: BreakoutId)
    requires Sitting(day, states, calls) && k < |calls| && EntryReady(states[k], calls[k], id)
    ensures Grounded(states[k + 1], id, calls[k].now)
    ensures NeverRevised(states, calls, id.crossing, k) && NeverRevised(states, calls, id.crossing - FIVE, k)
  {
    hide SessionOk, Next, Built, EntryReady, Grounded;
    SittingOk(day, states, calls, k);
    BuiltIsWellFormed(calls[k].source);
    GroundedUnrevised(states[k + 1], id, calls[k].now);
    ReadyIsGrounded(states[k], calls[k], id, ClockAt(calls, k));
    UnrevisedNeverRevised(day, states, calls, k, id.crossing);
    UnrevisedNeverRevised(day, states, calls, k, id.crossing - FIVE);
  }

  // Revised breakouts.

  /** No confirmed breakout rests on a close that was revised. */
  ghost predicate RevisedSafe(st: SessionState) {
    forall id :: id in st.breakouts && st.breakouts[id].confirmed ==> !RevisedInput(st, id.crossing)
  }

  /** The read goes against a settled close that a confirmed breakout rests on. */
  ghost predicate Overturns(st: SessionState, c: Call, id: BreakoutId, u: int, x: real) {
    && id in st.breakouts && st.breakouts[id].confirmed && (u == id.crossing || u == id.crossing - FIVE)
    && ReadAs(st, c, u, x) && u in st.settled && Apart(st.settled[u], x)
  }

  /** It does so in a response that contradicts the frozen range, or after one did: then no merge follows. */
  ghost predicate Overlooked(st: SessionState, c: Call) {
    && Readable(st, c) && st.anchor.Some? && (st.anchorConflict || AnchorOf(c.source) != st.anchor.value)
    && exists id, u, x :: Overturns(st, c, id, u, x)
  }

  lemma RevisedWhen(st: SessionState, c: Call, u: int)
    requires WellFormed(c.source)
    ensures u in Next(st, c).revised <==>
            u in st.revised || exists x :: ReadAs(st, c, u, x) && u in st.settled && Apart(st.settled[u], x)
  {
    hide Next;
    NextSlot(st, c, u);
    if x :| ReadAs(st, c, u, x) {
      assert SlotOf(Next(st, c), u) == SlotStep(SlotOf(st, u), x, c.now);
      forall y | ReadAs(st, c, u, y) ensures y == x {
        OneReading(st, c, u, x, y);
      }
    } else {
      assert SlotOf(Next(st, c), u) == SlotOf(st, u);
    }
  }

  lemma MergeIsSafe(st: SessionState, c: Call)
    requires Readable(st, c) && ReasonsFit(st.breakouts)
    requires Ingest(st, c.source, c.now).anchor.Some? && !Ingest(st, c.source, c.now).anchorConflict
    ensures RevisedSafe(Next(st, c))
  {
    hide Ingest, Merged, Derived;
    var st' := Ingest(st, c.source, c.now);
    IngestFrame(st, c.source, c.now);
    var m := Merged(st', Derived(st'), c.now);
    forall id | id in m && m[id].confirmed ensures !RevisedInput(st', id.crossing) {
      MergedConfirmed(st', c.now, id);
    }
    SafeElsewhere(st'.(breakouts := m), Next(st, c));
  }

  lemma SafeElsewhere(st: SessionState, st': SessionState)
    requires RevisedSafe(st) && st'.breakouts == st.breakouts && st'.revised == st.revised
    ensures RevisedSafe(st')
  {
  }

  lemma UnmergedBreakouts(st: SessionState, c: Call)
    requires !Readable(st, c) || Next(st, c).anchor.None? || Next(st, c).anchorConflict
    ensures Next(st, c).breakouts == st.breakouts
  {
    hide Ingest, Merged, Derived;
    if Readable(st, c) {
      IngestFrame(st, c.source, c.now);
    }
  }

  lemma UnmergedSafe(st: SessionState, c: Call)
    requires WellFormed(c.source) && RevisedSafe(st) && Next(st, c).breakouts == st.breakouts
    ensures RevisedSafe(Next(st, c)) <==> !exists id, u, x :: Overturns(st, c, id, u, x)
  {
    hide Next, ReadAs, Apart;
    var st' := Next(st, c);
    if id, u, x :| Overturns(st, c, id, u, x) {
      RevisedWhen(st, c, u);
      assert RevisedInput(st', id.crossing);
    } else {
      forall id | id in st'.breakouts && st'.breakouts[id].confirmed ensures !RevisedInput(st', id.crossing) {
        NotOverturned(st, c, id, id.crossing);
        NotOverturned(st, c, id, id.crossing - FIVE);
      }
    }
  }

  lemma NotOverturned(st: SessionState, c: Call, id: BreakoutId, u: int)
    requires WellFormed(c.source) && id in st.breakouts && st.breakouts[id].confirmed
    requires (u == id.crossing || u == id.crossing - FIVE)
    requires u !in st.revised && forall x :: !Overturns(st, c, id, u, x)
    ensures u !in Next(st, c).revised
  {
    hide Next;
    RevisedWhen(st, c, u);
    forall x | ReadAs(st, c, u, x) && u in st.settled ensures !Apart(st.settled[u], x) {
      assert !Overturns(st, c, id, u, x);
    }
  }

  /** One evaluation leaves no confirmed breakout on a revised close, exactly unless it overlooks one. */
  lemma RevisedStep(st: SessionState, c: Call, before: int)
    requires SessionOk(st, before) && WellFormed(c.source) && RevisedSafe(st)
    ensures RevisedSafe(Next(st, c)) <==> !Overlooked(st, c)
  {
    hide Next, SlotsOk, ReadAs, Overturns, RevisedSafe;
    AnchorMoves(st, c);
    var st' := Next(st, c);
    if Readable(st, c) && st'.anchor.Some? && !st'.anchorConflict {
      IngestFrame(st, c.source, c.now);
      MergeIsSafe(st, c);
    } else {
      UnmergedBreakouts(st, c);
      if Readable(st, c) && st.anchor.Some? {
        UnmergedSafe(st, c);
      } else {
        Untouched(st, c);
      }
    }
  }

  lemma Untouched(st: SessionState, c: Call)
    requires RevisedSafe(st) && Next(st, c).breakouts == st.breakouts && (!Readable(st, c) || st.breakouts == map[])
    ensures RevisedSafe(Next(st, c))
  {
    hide Ingest, Merged, Derived;
  }

  /** After a conflict about the range nothing takes a confirmed breakout back. */
  lemma UnsafeStays(st: SessionState, c: Call)
    requires st.anchorConflict && !RevisedSafe(st) && WellFormed(c.source)
    ensures Next(st, c).anchorConflict && !RevisedSafe(Next(st, c))
  {
    hide Next;
    AnchorMoves(st, c);
    UnmergedBreakouts(st, c);
    var id :| id in st.breakouts && st.breakouts[id].confirmed && RevisedInput(st, id.crossing);
    RevisedStays(st, c, id.crossing);
    RevisedStays(st, c, id.crossing - FIVE);
    assert RevisedInput(Next(st, c), id.crossing);
  }

  lemma OverlookedConflicts(st: SessionState, c: Call)
    requires Overlooked(st, c)
    ensures Next(st, c).anchorConflict
  {
    hide Next;
    AnchorMoves(st, c);
  }

  /**
   In every sitting: no confirmed breakout rests on a revised close, exactly as long as no evaluation overlooked one.
   The breakouts stay as they were last merged once the range was contradicted.
   */
  lemma {:induction false} RevisedNeverConfirmed(day: int, states: seq<SessionState>, calls: seq<Call>, k: nat)
    requires Sitting(day, states, calls) && k <= |calls|
    ensures RevisedSafe(states[k]) <==> forall j :: 0 <= j < k ==> !Overlooked(states[j], calls[j])
    ensures !RevisedSafe(states[k]) ==> states[k].anchorConflict
  {
    hide Next, Overlooked, RevisedSafe, Built, SessionOk;
    if k == 0 {
      FreshIsSafe(day);
    } else {
      RevisedNeverConfirmed(day, states, calls, k - 1);
      SittingOk(day, states, calls, k - 1);
      BuiltIsWellFormed(calls[k - 1].source);
      if RevisedSafe(states[k - 1]) {
        RevisedStep(states[k - 1], calls[k - 1], ClockAt(calls, k - 1));
        if Overlooked(states[k - 1], calls[k - 1]) {
          OverlookedConflicts(states[k - 1], calls[k - 1]);
        }
      } else {
        UnsafeStays(states[k - 1], calls[k - 1]);
      }
    }
  }

  lemma FreshIsSafe(day: int)
    ensures RevisedSafe(Fresh(day))
  {
  }

  // Trust after a conflict.

  /** A settled, unrevised candle that started after the given time. */
  ghost predicate FreshCandle(st: SessionState, now: int) {
    exists t :: t in st.settled && t !in st.revised && now < t
  }

  lemma NextTrust(st: SessionState, c: Call)
    requires WellFormed(c.source) && Readable(st, c)
    ensures (exists t, x :: ReadAs(st, c, t, x) && t in st.settled && Apart(st.settled[t], x)) ==>
      AnyRevised(IngestAnchor(st, c.source, c.now), c.source.candles, c.now)
  {
    RevisedIff(IngestAnchor(st, c.source, c.now), c.source.candles, c.now);
    forall t, x | ReadAs(st, c, t, x) && t in st.settled && Apart(st.settled[t], x)
      ensures Candle(t, x) in c.source.candles && Revises(IngestAnchor(st, c.source, c.now), Candle(t, x), c.now)
    {
    }
  }

  /** The evaluation whose read revised a settled close is not trusted before a later candle is confirmed. */
  lemma ConflictThenTrust(st: SessionState, c: Call, t: int, x: real)
    requires WellFormed(c.source) && ReadAs(st, c, t, x) && t in st.settled && Apart(st.settled[t], x)
    ensures StatusAt(st, c) == StatusOk ==> FreshCandle(Next(st, c), c.now)
    ensures StatusAt(st, c) != StatusOk ==>
      FreshCandle(Next(st, c), c.now) || Next(st, c).trustAfter == Some(NextStart(c.now))
  {
    hide Merged, Derived, Covered, Ingest, ReadAs, Apart;
    ConflictMarks(st, c, t, x);
    LaterStart(c.now);
  }

  lemma ConflictMarks(st: SessionState, c: Call, t: int, x: real)
    requires WellFormed(c.source) && ReadAs(st, c, t, x) && t in st.settled && Apart(st.settled[t], x)
    ensures Readable(st, c) && Ingest(st, c.source, c.now).trustAfter == Some(NextStart(c.now))
  {
    hide AnyRevised, IngestCandles, IngestAnchor;
    NextTrust(st, c);
  }

  lemma LaterStart(now: int)
    ensures now < NextStart(now)
  {
  }

  /** The evaluation's read goes against some settled close. */
  ghost predicate Conflicts(st: SessionState, c: Call) {
    exists t, x :: ReadAs(st, c, t, x) && t in st.settled && Apart(st.settled[t], x)
  }

  ghost predicate Waiting(st: SessionState, at: int) {
    FreshCandle(st, at) || st.trustAfter == Some(NextStart(at))
  }

  lemma QuietSlots(st: SessionState, c: Call, t: int)
    requires WellFormed(c.source) && !Conflicts(st, c)
    ensures t in st.settled ==> t in Next(st, c).settled
    ensures t in st.settled && t !in st.revised ==> t !in Next(st, c).revised
  {
    hide Next;
    NextSlot(st, c, t);
    if x :| ReadAs(st, c, t, x) {
      assert SlotOf(Next(st, c), t) == SlotStep(SlotOf(st, t), x, c.now);
    } else {
      assert SlotOf(Next(st, c), t) == SlotOf(st, t);
    }
  }

  lemma NothingRevised(st: SessionState, c: Call)
    requires WellFormed(c.source) && Readable(st, c) && !Conflicts(st, c)
    ensures !AnyRevised(IngestAnchor(st, c.source, c.now), c.source.candles, c.now)
  {
    var st1 := IngestAnchor(st, c.source, c.now);
    assert st1.settled == st.settled;
    RevisedIff(st1, c.source.candles, c.now);
    hide IngestAnchor, AnyRevised;
    forall k | k in c.source.candles ensures !Revises(st1, k, c.now) {
      assert k == Candle(k.time, k.close);
    }
  }

  lemma IngestedTrust(st: SessionState, source: Source, now: int)
    requires source.Source? && !AnyRevised(IngestAnchor(st, source, now), source.candles, now)
    ensures Ingest(st, source, now).trustAfter == st.trustAfter
  {
    hide IngestCandles, AnyRevised;
    CandlesFrame(IngestAnchor(st, source, now), source.candles, now);
    AnchorTrust(st, source, now);
  }

  lemma AnchorTrust(st: SessionState, source: Source, now: int)
    requires source.Source?
    ensures IngestAnchor(st, source, now).trustAfter == st.trustAfter
  {
  }

  lemma QuietTrust(st: SessionState, c: Call)
    requires WellFormed(c.source) && !Conflicts(st, c)
    ensures Read(st, c).trustAfter == st.trustAfter
  {
    if Readable(st, c) {
      NothingRevised(st, c);
      IngestedTrust(st, c.source, c.now);
    }
    hide Ingest, Merged, Derived;
  }

  lemma JudgedTrust(st: SessionState, c: Call, at: int)
    requires Waiting(st, at)
    ensures Waiting(Judge(st, c).1, at)
    ensures Judge(st, c).0 == StatusOk ==> FreshCandle(Judge(st, c).1, at)
  {
    hide Covered, ExpectedLatest, NextStart;
    LaterStart(at);
  }

  lemma WaitingOn(st: SessionState, c: Call, at: int)
    requires WellFormed(c.source) && !Conflicts(st, c) && Waiting(st, at)
    ensures Waiting(Next(st, c), at) && (StatusAt(st, c) == StatusOk ==> FreshCandle(Next(st, c), at))
  {
    if FreshCandle(st, at) {
      var t :| t in st.settled && t !in st.revised && at < t;
      QuietSlots(st, c, t);
      hide Next;
      assert FreshCandle(Next(st, c), at);
    } else {
      QuietTrust(st, c);
      hide Read;
      JudgedTrust(Read(st, c), c, at);
    }
  }

  lemma ConflictWaits(st: SessionState, c: Call)
    requires WellFormed(c.source) && Conflicts(st, c)
    ensures Waiting(Next(st, c), c.now) && (StatusAt(st, c) == StatusOk ==> FreshCandle(Next(st, c), c.now))
  {
    var t, x :| ReadAs(st, c, t, x) && t in st.settled && Apart(st.settled[t], x);
    hide Next, StatusAt, Conflicts;
    ConflictThenTrust(st, c, t, x);
  }

  lemma {:induction false} StillWaiting(day: int, states: seq<SessionState>, calls: seq<Call>, j: nat, k: nat)
    requires Sitting(day, states, calls) && j <= k < |calls| && Conflicts(states[j], calls[j])
    requires forall m :: j < m <= k ==> !Conflicts(states[m], calls[m])
    ensures Waiting(states[k + 1], calls[j].now)
    ensures StatusAt(states[k], calls[k]) == StatusOk ==> FreshCandle(states[k + 1], calls[j].now)
  {
    hide Next, Conflicts, Built, StatusAt, Waiting, FreshCandle;
    BuiltIsWellFormed(calls[k].source);
    if j == k {
      ConflictWaits(states[k], calls[k]);
    } else {
      StillWaiting(day, states, calls, j, k - 1);
      WaitingOn(states[k], calls[k], calls[j].now);
    }
  }

  /**
   After a read went against a settled close, no evaluation trusts the data again until a candle that started after
   that read has been confirmed and not been revised.
   */
  lemma TrustNeedsLaterCandle(day: int, states: seq<SessionState>, calls: seq<Call>, j: nat, k: nat)
    requires Sitting(day, states, calls) && j <= k < |calls| && Conflicts(states[j], calls[j])
    requires forall m :: j < m <= k ==> !Conflicts(states[m], calls[m])
    requires StatusAt(states[k], calls[k]) == StatusOk
    ensures FreshCandle(states[k + 1], calls[j].now)
  {
    hide Next, Conflicts, Sitting, StatusAt, FreshCandle;
    StillWaiting(day, states, calls, j, k);
  }
}
