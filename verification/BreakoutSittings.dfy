/**
 Sittings: every sequence of evaluations of one session with a clock that does not go back.

 An entry is only ever offered on settled, unrevised closes that are all beyond the level up to now. A close counts
 once two reads a minute apart agreed on it and nothing read between them differed. The frozen range stays.
 */
module BreakoutSittings {
  import opened Wrappers
  import opened BreakoutSpec
  import opened BreakoutSafety

  ghost predicate Built(source: Source) {
    source == Unavailable || exists raw, at :: source == BuildSource(raw, at)
  }

  ghost predicate Sitting(day: int, states: seq<SessionState>, calls: seq<Call>) {
    && |states| == |calls| + 1 && states[0] == Fresh(day)
    && (forall i :: 0 <= i < |calls| ==> Session(calls[i].now) == day && Built(calls[i].source))
    && (forall i, j :: 0 <= i < j < |calls| ==> calls[i].now <= calls[j].now)
    && (forall i :: 0 <= i < |calls| ==> states[i + 1] == Next(states[i], calls[i]))
  }

  lemma BuiltIsWellFormed(source: Source)
    requires Built(source)
    ensures WellFormed(source)
  {
    if source != Unavailable {
      var raw, at :| source == BuildSource(raw, at);
      BuiltWellFormed(raw, at);
    }
  }

  // One evaluation.

  lemma IngestSlot(st: SessionState, c: Call, t: int)
    requires WellFormed(c.source) && Readable(st, c)
    ensures forall x :: ReadAs(st, c, t, x) ==>
      SlotOf(Ingest(st, c.source, c.now), t) == SlotStep(SlotOf(st, t), x, c.now)
    ensures (forall x :: !ReadAs(st, c, t, x)) ==> SlotOf(Ingest(st, c.source, c.now), t) == SlotOf(st, t)
  {
    var st1 := IngestAnchor(st, c.source, c.now);
    assert SlotOf(st1, t) == SlotOf(st, t);
    CandlesSlot(st1, c.source.candles, c.now, t);
    assert SlotOf(Ingest(st, c.source, c.now), t) == SlotOf(IngestCandles(st1, c.source.candles, c.now), t);
    hide SlotOf, SlotStep, IngestAnchor;
    if forall x :: !ReadAs(st, c, t, x) {
      forall x | Candle(t, x) in c.source.candles ensures TooFresh(Candle(t, x), c.now) {
        assert !ReadAs(st, c, t, x);
      }
    }
  }

  lemma NextSlot(st: SessionState, c: Call, t: int)
    requires WellFormed(c.source)
    ensures forall x :: ReadAs(st, c, t, x) ==> SlotOf(Next(st, c), t) == SlotStep(SlotOf(st, t), x, c.now)
    ensures (forall x :: !ReadAs(st, c, t, x)) ==> SlotOf(Next(st, c), t) == SlotOf(st, t)
  {
    hide Ingest, SlotStep, Merged, Derived;
    if Readable(st, c) {
      IngestSlot(st, c, t);
    }
    assert SlotOf(Next(st, c), t) == SlotOf(if Readable(st, c) then Ingest(st, c.source, c.now) else st, t);
  }

  /** What an evaluation leaves alone: the day, a frozen range, a conflict once found. */
  lemma IngestFrame(st: SessionState, source: Source, now: int)
    requires source.Source?
    ensures var st' := Ingest(st, source, now);
      && st'.day == st.day && st'.breakouts == st.breakouts
      && st'.anchor == IngestAnchor(st, source, now).anchor
         && st'.anchorPending == IngestAnchor(st, source, now).anchorPending
      && st'.anchorConflict == IngestAnchor(st, source, now).anchorConflict
  {
    hide IngestAnchor, IngestCandles, AnyRevised;
    CandlesFrame(IngestAnchor(st, source, now), source.candles, now);
    RangeFrame(st, source, now);
  }

  lemma RangeFrame(st: SessionState, source: Source, now: int)
    requires source.Source?
    ensures var st' := IngestAnchor(st, source, now);
      st' == st.(anchor := st'.anchor, anchorPending := st'.anchorPending, anchorConflict := st'.anchorConflict)
  {
  }

  lemma NextFrame(st: SessionState, c: Call)
    ensures var st' := Next(st, c);
      && st'.day == st.day && (st.anchor.Some? ==> st'.anchor == st.anchor)
         && (st.anchorConflict ==> st'.anchorConflict)
  {
    if Readable(st, c) {
      IngestFrame(st, c.source, c.now);
    }
    hide Ingest, Merged, Derived;
  }

  // What holds of every state.

  predicate SlotOk(day: int, t: int, s: Slot, now: int) {
    && (s.settled.Some? ==>
       OnGrid(day, t) && OpenOf(day) <= t && t + FIVE + SETTLE_MS + CONFIRM_MS <= now && s.pending.None?)
    && (s.pending.Some? ==>
       OnGrid(day, t) && OpenOf(day) <= t && t + FIVE + SETTLE_MS <= s.pending.value.firstAt <= now)
    && (s.revised ==> s.settled.Some?)
  }

  ghost predicate SlotsOk(st: SessionState, now: int) {
    forall t :: SlotOk(st.day, t, SlotOf(st, t), now)
  }

  ghost predicate RangeOk(st: SessionState) {
    && Ranged(st) && (st.anchorPending.Some? ==> st.anchorPending.value.anchor.low < st.anchorPending.value.anchor.high)
    && (st.anchor.None? ==> st.breakouts == map[] && !st.anchorConflict)
  }

  ghost predicate BreakoutsOk(st: SessionState) {
    && OneConfirmed(st.breakouts) && ReasonsFit(st.breakouts)
    && (st.anchor.Some? ==> forall id :: id in st.breakouts ==> st.breakouts[id].level == Level(st, id.direction))
  }

  ghost predicate SessionOk(st: SessionState, now: int) {
    SlotsOk(st, now) && RangeOk(st) && BreakoutsOk(st)
  }

  lemma SlotKeeps(day: int, t: int, s: Slot, x: real, before: int, now: int)
    requires SlotOk(day, t, s, before) && before <= now && OnGrid(day, t) && OpenOf(day) <= t
    requires t + FIVE + SETTLE_MS <= now
    ensures SlotOk(day, t, SlotStep(s, x, now), now)
  {
  }

  lemma NextSlots(st: SessionState, c: Call, before: int)
    requires SlotsOk(st, before) && before <= c.now && WellFormed(c.source)
    ensures SlotsOk(Next(st, c), c.now)
  {
    hide Next, SlotStep, SlotOf;
    NextFrame(st, c);
    forall t ensures SlotOk(st.day, t, SlotOf(Next(st, c), t), c.now) {
      NextSlot(st, c, t);
      assert SlotOk(st.day, t, SlotOf(st, t), before);
      if x :| ReadAs(st, c, t, x) {
        SlotKeeps(st.day, t, SlotOf(st, t), x, before, c.now);
      }
    }
  }

  lemma SlotsGridded(st: SessionState, now: int)
    requires SlotsOk(st, now)
    ensures Gridded(st)
    ensures forall t :: t in st.settled ==> t + FIVE + SETTLE_MS + CONFIRM_MS <= now
  {
    forall t | t in st.settled
      ensures OnGrid(st.day, t) && OpenOf(st.day) <= t && t + FIVE + SETTLE_MS + CONFIRM_MS <= now
    {
      assert SlotOk(st.day, t, SlotOf(st, t), now);
    }
  }

  lemma AnchorMoves(st: SessionState, c: Call)
    ensures var st' := Next(st, c);
      if !Readable(st, c) then st'.anchor == st.anchor && st'.anchorPending == st.anchorPending
        && st'.anchorConflict == st.anchorConflict
      else var moved := IngestAnchor(st, c.source, c.now);
        st'.anchor == moved.anchor && st'.anchorPending == moved.anchorPending
          && st'.anchorConflict == moved.anchorConflict
  {
    if Readable(st, c) {
      IngestFrame(st, c.source, c.now);
    }
    hide Ingest, Merged, Derived, IngestAnchor;
  }

  lemma NoBreakoutsWithoutRange(st: SessionState, c: Call)
    ensures Next(st, c).anchor.None? ==> Next(st, c).breakouts == st.breakouts
  {
    if Readable(st, c) {
      IngestFrame(st, c.source, c.now);
    }
    hide Ingest, Merged, Derived, IngestAnchor;
  }

  lemma NextRange(st: SessionState, c: Call)
    requires RangeOk(st) && WellFormed(c.source)
    ensures RangeOk(Next(st, c))
  {
    hide Next;
    AnchorMoves(st, c);
    NoBreakoutsWithoutRange(st, c);
  }

  lemma MergedLevels(st: SessionState, now: int)
    requires st.anchor.Some? && forall id :: id in st.breakouts ==> st.breakouts[id].level == Level(st, id.direction)
    ensures var m := Merged(st, Derived(st), now); forall id :: id in m ==> m[id].level == Level(st, id.direction)
  {
  }

  lemma MergedOk(st: SessionState, now: int)
    requires st.anchor.Some? && Ranged(st) && Gridded(st) && BreakoutsOk(st)
    ensures BreakoutsOk(st.(breakouts := Merged(st, Derived(st), now)))
  {
    hide Merged, Derived, OneConfirmed;
    MergedOneConfirmed(st, now);
    MergedLevels(st, now);
  }

  lemma IngestedGridded(st: SessionState, c: Call, before: int)
    requires SlotsOk(st, before) && before <= c.now && WellFormed(c.source) && Readable(st, c)
    ensures Gridded(Ingest(st, c.source, c.now))
  {
    hide Merged, Derived;
    hide Ingest;
    NextSlots(st, c, before);
    SlotsGridded(Next(st, c), c.now);
    IngestFrame(st, c.source, c.now);
    assert Next(st, c).settled == Ingest(st, c.source, c.now).settled;
  }

  lemma IngestedBreakouts(st: SessionState, st': SessionState, source: Source, now: int)
    requires source.Source? && BreakoutsOk(st) && RangeOk(st) && st'.breakouts == st.breakouts
    requires st'.anchor == IngestAnchor(st, source, now).anchor
    ensures BreakoutsOk(st')
  {
  }

  lemma NextBreakouts(st: SessionState, c: Call, before: int)
    requires SessionOk(st, before) && before <= c.now && WellFormed(c.source)
    ensures BreakoutsOk(Next(st, c))
  {
    hide Ingest, Merged, Derived, OneConfirmed, ReasonsFit, SlotsOk, RangeOk, BreakoutsOk;
    if Readable(st, c) {
      var st' := Ingest(st, c.source, c.now);
      IngestFrame(st, c.source, c.now);
      IngestedGridded(st, c, before);
      IngestedBreakouts(st, st', c.source, c.now);
      NextRange(st, c);
      if st'.anchor.Some? && !st'.anchorConflict {
        RangedAfter(st, c);
        MergedOk(st', c.now);
        BreakoutsElsewhere(st'.(breakouts := Merged(st', Derived(st'), c.now)), Next(st, c));
      } else {
        BreakoutsElsewhere(st', Next(st, c));
      }
    } else {
      BreakoutsElsewhere(st, Next(st, c));
    }
  }

  lemma BreakoutsElsewhere(st: SessionState, st': SessionState)
    requires BreakoutsOk(st) && st'.breakouts == st.breakouts && st'.anchor == st.anchor
    ensures BreakoutsOk(st')
  {
  }

  lemma RangedAfter(st: SessionState, c: Call)
    requires RangeOk(st) && WellFormed(c.source) && Readable(st, c)
    ensures Ranged(Ingest(st, c.source, c.now))
  {
    hide Ingest;
    IngestFrame(st, c.source, c.now);
  }

  lemma NextOk(st: SessionState, c: Call, before: int)
    requires SessionOk(st, before) && before <= c.now && WellFormed(c.source)
    ensures SessionOk(Next(st, c), c.now)
  {
    NextSlots(st, c, before);
    NextRange(st, c);
    NextBreakouts(st, c, before);
  }

  /** The time of the evaluation before, or of the first one. */
  function ClockAt(calls: seq<Call>, i: nat): int
    requires i <= |calls| && calls != []
  {
    if i == 0 then calls[0].now else calls[i - 1].now
  }

  lemma FreshOk(day: int, now: int)
    ensures SessionOk(Fresh(day), now)
  {
  }

  lemma {:induction false} SittingOk(day: int, states: seq<SessionState>, calls: seq<Call>, i: nat)
    requires Sitting(day, states, calls) && i <= |calls| && calls != []
    ensures SessionOk(states[i], ClockAt(calls, i)) && states[i].day == day
  {
    hide SessionOk, Next, Built;
    if i == 0 {
      FreshOk(day, calls[0].now);
    } else {
      SittingOk(day, states, calls, i - 1);
      BuiltIsWellFormed(calls[i - 1].source);
      assert ClockAt(calls, i - 1) <= calls[i - 1].now;
      NextOk(states[i - 1], calls[i - 1], ClockAt(calls, i - 1));
      NextFrame(states[i - 1], calls[i - 1]);
    }
  }

  /** At most one breakout, of either direction, is ever confirmed at a time. */
  lemma AtMostOneConfirmed(day: int, states: seq<SessionState>, calls: seq<Call>, i: nat)
    requires Sitting(day, states, calls) && i <= |calls| && calls != []
    ensures OneConfirmed(states[i].breakouts)
  {
    hide Sitting, OneConfirmed;
    SittingOk(day, states, calls, i);
  }

  /** Once the range is frozen it stays what it was. */
  lemma {:induction false} FrozenRange(day: int, states: seq<SessionState>, calls: seq<Call>, i: nat, j: nat)
    requires Sitting(day, states, calls) && i <= j <= |calls| && states[i].anchor.Some?
    ensures states[j].anchor == states[i].anchor
  {
    if i < j {
      FrozenRange(day, states, calls, i, j - 1);
      NextFrame(states[j - 1], calls[j - 1]);
    }
  }

  // Confirmation.

  /** The read at i found this first, and every read of the candle since, before k, agreed with it. */
  ghost predicate AgreedSince(states: seq<SessionState>, calls: seq<Call>, t: int, j: int, k: nat, close: real)
    requires k <= |calls| < |states|
  {
    && 0 <= j < k && ReadAs(states[j], calls[j], t, close)
    && forall m, x :: j < m < k && ReadAs(states[m], calls[m], t, x) ==> !Apart(close, x)
  }

  ghost predicate PendingExplained(states: seq<SessionState>, calls: seq<Call>, t: int, k: nat)
    requires k <= |calls| < |states|
  {
    t in states[k].pending ==>
      exists j :: AgreedSince(states, calls, t, j, k, states[k].pending[t].close)
        && calls[j].now == states[k].pending[t].firstAt
  }

  lemma OneReading(st: SessionState, c: Call, t: int, x: real, y: real)
    requires WellFormed(c.source) && ReadAs(st, c, t, x) && ReadAs(st, c, t, y)
    ensures x == y
  {
    var cs := c.source.candles;
    var i :| 0 <= i < |cs| && cs[i] == Candle(t, x);
    var j :| 0 <= j < |cs| && cs[j] == Candle(t, y);
  }

  lemma ExplainedOnward(states: seq<SessionState>, calls: seq<Call>, t: int, k: nat)
    requires k < |calls| < |states| && states[k + 1] == Next(states[k], calls[k]) && WellFormed(calls[k].source)
    requires PendingExplained(states, calls, t, k) && (t in states[k].settled ==> t !in states[k].pending)
    ensures PendingExplained(states, calls, t, k + 1)
  {
    hide Next;
    NextSlot(states[k], calls[k], t);
    if t in states[k + 1].pending {
      var p := states[k + 1].pending[t];
      if x :| ReadAs(states[k], calls[k], t, x) {
        assert SlotOf(states[k + 1], t) == SlotStep(SlotOf(states[k], t), x, calls[k].now);
        if t in states[k].pending && states[k].pending[t] == p {
          var j :| AgreedSince(states, calls, t, j, k, p.close) && calls[j].now == p.firstAt;
          assert !Apart(p.close, x);
          forall m, y | j < m < k + 1 && ReadAs(states[m], calls[m], t, y) ensures !Apart(p.close, y) {
            if m == k {
              OneReading(states[k], calls[k], t, x, y);
            }
          }
          assert AgreedSince(states, calls, t, j, k + 1, p.close);
        } else {
          assert AgreedSince(states, calls, t, k, k + 1, p.close);
        }
      } else {
        assert SlotOf(states[k + 1], t) == SlotOf(states[k], t);
        var j :| AgreedSince(states, calls, t, j, k, p.close) && calls[j].now == p.firstAt;
        assert AgreedSince(states, calls, t, j, k + 1, p.close);
      }
    }
  }

  lemma {:induction false} Explained(day: int, states: seq<SessionState>, calls: seq<Call>, t: int, k: nat)
    requires Sitting(day, states, calls) && k <= |calls| && calls != []
    ensures PendingExplained(states, calls, t, k)
  {
    hide Next, PendingExplained;
    if k == 0 {
      NothingPending(states, calls, t);
    } else {
      Explained(day, states, calls, t, k - 1);
      SittingOk(day, states, calls, k - 1);
      NotBoth(states[k - 1], ClockAt(calls, k - 1), t);
      BuiltIsWellFormed(calls[k - 1].source);
      ExplainedOnward(states, calls, t, k - 1);
    }
  }

  lemma NothingPending(states: seq<SessionState>, calls: seq<Call>, t: int)
    requires 0 < |calls| < |states| && states[0].pending == map[]
    ensures PendingExplained(states, calls, t, 0)
  {
  }

  lemma NotBoth(st: SessionState, now: int, t: int)
    requires SessionOk(st, now)
    ensures t in st.settled ==> t !in st.pending
  {
    assert SlotOk(st.day, t, SlotOf(st, t), now);
  }

  /**
   A close settles only on a read at least a minute after one that already found it, that one a minute or more after
   the candle's own end, and with every read between, and this one, in agreement.
   */
  lemma SettledTwice(day: int, states: seq<SessionState>, calls: seq<Call>, k: nat, t: int)
    requires Sitting(day, states, calls) && k < |calls| && t !in states[k].settled && t in states[k + 1].settled
    ensures exists j, first ::
      && AgreedSince(states, calls, t, j, k, first)
      && t + FIVE + SETTLE_MS <= calls[j].now && calls[j].now + CONFIRM_MS <= calls[k].now
      && ReadAs(states[k], calls[k], t, states[k + 1].settled[t]) && !Apart(first, states[k + 1].settled[t])
  {
    Explained(day, states, calls, t, k);
    SittingOk(day, states, calls, k);
    BuiltIsWellFormed(calls[k].source);
    NextSlot(states[k], calls[k], t);
    hide Next, SessionOk, Sitting;
    var x :| ReadAs(states[k], calls[k], t, x);
    assert SlotOf(states[k + 1], t) == SlotStep(SlotOf(states[k], t), x, calls[k].now);
    var p := states[k].pending[t];
    var j :| AgreedSince(states, calls, t, j, k, p.close) && calls[j].now == p.firstAt;
  }

  /** The range, too, is frozen only by a second reading, a minute after the first and the same. */
  ghost predicate RangeReadAs(states: seq<SessionState>, calls: seq<Call>, j: nat, anchor: Anchor)
    requires j < |calls| < |states|
  {
    Readable(states[j], calls[j]) && AnchorOf(calls[j].source) == anchor
      && anchor.completedAt + SETTLE_MS <= calls[j].now
  }

  /** The range read at j was read again, the same, at k a minute later or more. */
  ghost predicate RangeReadTwice(states: seq<SessionState>, calls: seq<Call>, j: int, k: nat, anchor: Anchor)
    requires k < |calls| < |states|
  {
    && 0 <= j < k && RangeReadAs(states, calls, j, anchor) && RangeReadAs(states, calls, k, anchor)
    && calls[j].now + CONFIRM_MS <= calls[k].now
  }

  ghost predicate RangeExplained(states: seq<SessionState>, calls: seq<Call>, k: nat)
    requires k <= |calls| < |states|
  {
    states[k].anchorPending.Some? ==>
      exists j :: 0 <= j < k && RangeReadAs(states, calls, j, states[k].anchorPending.value.anchor)
        && calls[j].now == states[k].anchorPending.value.firstAt
  }

  lemma {:induction false} RangeIsExplained(day: int, states: seq<SessionState>, calls: seq<Call>, k: nat)
    requires Sitting(day, states, calls) && k <= |calls|
    ensures RangeExplained(states, calls, k)
  {
    hide Next;
    if k > 0 {
      RangeIsExplained(day, states, calls, k - 1);
      AnchorMoves(states[k - 1], calls[k - 1]);
      if states[k].anchorPending.Some? {
        var anchor := states[k].anchorPending.value.anchor;
        if states[k].anchorPending == states[k - 1].anchorPending {
          var j :| 0 <= j < k - 1 && RangeReadAs(states, calls, j, anchor)
            && calls[j].now == states[k].anchorPending.value.firstAt;
        } else {
          assert RangeReadAs(states, calls, k - 1, anchor);
        }
      }
    }
  }

  lemma RangeFrozenTwice(day: int, states: seq<SessionState>, calls: seq<Call>, k: nat)
    requires Sitting(day, states, calls) && k < |calls| && states[k].anchor.None? && states[k + 1].anchor.Some?
    ensures exists j, anchor :: RangeReadTwice(states, calls, j, k, anchor) && states[k + 1].anchor == Some(anchor)
  {
    hide Next;
    RangeIsExplained(day, states, calls, k);
    AnchorMoves(states[k], calls[k]);
    var j :| 0 <= j < k && RangeReadAs(states, calls, j, states[k].anchorPending.value.anchor)
      && calls[j].now == states[k].anchorPending.value.firstAt;
    assert RangeReadTwice(states, calls, j, k, states[k + 1].anchor.value);
  }
}
