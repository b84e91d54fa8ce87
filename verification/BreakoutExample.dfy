/** A sitting in which a confirmed breakout outlives the revision of its crossing candle. */
module BreakoutExample {
  import opened Wrappers
  import opened BreakoutSpec
  import opened BreakoutSafety
  import opened BreakoutSittings
  import opened BreakoutEntries

  // Day 0: the opening bars, and the bar from 09:30 that crosses.
  const T := 13500000
  const Crossing := T + 3 * FIVE

  function Bars(high: real, close: real): seq<Raw> {
    [Raw(T, 10.0, high, 5.0, 10.0), Raw(T + FIVE, 10.0, 20.0, 5.0, 10.0), Raw(T + 2 * FIVE, 10.0, 20.0, 5.0, 10.0),
     Raw(Crossing, 15.0, 30.0, 10.0, close)]
  }

  function Response(high: real, close: real): Source {
    Source(0, high, 5.0, Crossing,
      [Candle(T, 10.0), Candle(T + FIVE, 10.0), Candle(T + 2 * FIVE, 10.0), Candle(Crossing, close)])
  }

  lemma {:induction false} InOrder(raw: seq<Raw>, day: int, now: int)
    requires forall i :: 0 <= i < |raw| ==> Usable(raw[i], day, now)
    requires forall i, j :: 0 <= i < j < |raw| ==> raw[i].time <= raw[j].time
    ensures UsableRows(raw, day, now) == raw
  {
    if raw != [] {
      InOrder(raw[..|raw| - 1], day, now);
    }
  }

  lemma FirstThree(raw: seq<Raw>, end: int)
    requires |raw| == 4 && raw[0].time < end && raw[1].time < end && raw[2].time < end && end <= raw[3].time
    ensures Before(raw, end) == [raw[0], raw[1], raw[2]]
  {
    assert raw[..3][..2] == raw[..2] && raw[..2][..1] == raw[..1] && raw[..1][..0] == [];
    assert Before(raw[..1], end) == [raw[0]];
    assert Before(raw[..2], end) == [raw[0], raw[1]];
    assert Before(raw[..3], end) == [raw[0], raw[1], raw[2]];
  }

  lemma RangeOfThree(a: Raw, b: Raw, c: Raw)
    ensures HighOf([a, b, c]) == MaxReal(MaxReal(a.high, b.high), c.high)
    ensures LowOf([a, b, c]) == MinReal(MinReal(a.low, b.low), c.low)
  {
    assert [a, b, c][..2] == [a, b] && [a, b][..1] == [a];
    assert HighOf([a, b]) == MaxReal(a.high, b.high) && LowOf([a, b]) == MinReal(a.low, b.low);
  }

  lemma BarsBuilt(high: real, close: real, now: int)
    requires 20.0 <= high <= 21.0 && 10.0 <= close <= 30.0 && Crossing + FIVE <= now < T + 75 * FIVE
    ensures Built(Response(high, close))
  {
    var raw := Bars(high, close);
    assert Session(now) == 0;
    InOrder(raw, 0, now);
    FirstThree(raw, Crossing);
    RangeOfThree(raw[0], raw[1], raw[2]);
    assert Candles(raw) == Response(high, close).candles;
    assert BuildSource(raw, now) == Response(high, close);
  }

  const Id := BreakoutId(Up, Crossing)
  const First := Call(Crossing + FIVE + SETTLE_MS, true, Response(20.0, 25.0), Gates(true, None, true, true, true))
  const Second := First.(now := First.now + CONFIRM_MS)
  // The crossing candle is revised, in a response that also shows another opening range.
  const Third := Second.(now := Second.now + CONFIRM_MS, source := Response(21.0, 15.0))

  function BarClose(t: int, close: real): Option<real> {
    if t in [T, T + FIVE, T + 2 * FIVE] then Some(10.0) else if t == Crossing then Some(close) else None
  }

  lemma ResponseFits(high: real, close: real)
    requires 5.0 < high
    ensures WellFormed(Response(high, close))
  {
  }

  lemma Reads(st: SessionState, c: Call, t: int, high: real, close: real)
    requires c.marketOpen && st.day == 0 && c.source == Response(high, close) && Crossing + FIVE + SETTLE_MS <= c.now
    ensures Readable(st, c)
    ensures BarClose(t, close).Some? ==> ReadAs(st, c, t, BarClose(t, close).value)
    ensures BarClose(t, close).None? ==> forall x :: !ReadAs(st, c, t, x)
  {
    var cs := c.source.candles;
    assert cs[0] in cs && cs[1] in cs && cs[2] in cs && cs[3] in cs;
  }

  /** After the second evaluation the four bars are settled, nothing else is, and the range is frozen. */
  lemma SecondSettles(st1: SessionState, st2: SessionState)
    requires st1 == Next(Fresh(0), First) && st2 == Next(st1, Second)
    ensures forall t :: SlotOf(st2, t) == Slot(BarClose(t, 25.0), None, false)
    ensures st1.day == 0 && st2.day == 0 && st1.breakouts == map[]
    ensures st2.anchor == Some(Anchor(20.0, 5.0, Crossing)) && !st2.anchorConflict && st1.anchor.None?
  {
    hide Next, Readable, ReadAs;
    NextFrame(Fresh(0), First);
    NextFrame(st1, Second);
    Reads(Fresh(0), First, T, 20.0, 25.0);
    Reads(st1, Second, T, 20.0, 25.0);
    AnchorMoves(Fresh(0), First);
    AnchorMoves(st1, Second);
    NoBreakoutsWithoutRange(Fresh(0), First);
    forall t ensures SlotOf(st2, t) == Slot(BarClose(t, 25.0), None, false) {
      SlotSettles(st1, st2, t);
    }
  }

  lemma SlotSettles(st1: SessionState, st2: SessionState, t: int)
    requires st1 == Next(Fresh(0), First) && st2 == Next(st1, Second) && st1.day == 0
    ensures SlotOf(st2, t) == Slot(BarClose(t, 25.0), None, false)
  {
    hide Next, ReadAs, Readable;
    ResponseFits(20.0, 25.0);
    Reads(Fresh(0), First, t, 20.0, 25.0);
    Reads(st1, Second, t, 20.0, 25.0);
    NextSlot(Fresh(0), First, t);
    NextSlot(st1, Second, t);
  }

  lemma CrossingLasts(st: SessionState)
    requires st.day == 0 && st.anchor == Some(Anchor(20.0, 5.0, Crossing))
    requires forall t :: SlotOf(st, t) == Slot(BarClose(t, 25.0), None, false)
    ensures Crosses(st, Up, Crossing) && InvalidatedAt(st, Up, Crossing).None? && !RevisedInput(st, Crossing)
    ensures Id in IdsOf(st)
  {
    assert SlotOf(st, Crossing) == Slot(Some(25.0), None, false);
    assert SlotOf(st, Crossing - FIVE) == Slot(Some(10.0), None, false);
    forall u | u in st.settled ensures u <= Crossing {
      assert SlotOf(st, u).settled.Some?;
    }
  }

  lemma LastingMerged(st: SessionState, now: int)
    requires st.anchor.Some? && Crosses(st, Up, Crossing) && InvalidatedAt(st, Up, Crossing).None?
    requires !RevisedInput(st, Crossing)
    requires Id in IdsOf(st) && st.breakouts == map[]
    ensures var m := Merged(st, Derived(st), now); Id in m && m[Id].confirmed
  {
    hide InvalidatedAt, Crosses, RevisedInput, IdsOf;
    assert Id in Derived(st);
  }

  lemma SecondConfirms(st1: SessionState, st2: SessionState)
    requires st1 == Next(Fresh(0), First) && st2 == Next(st1, Second)
    ensures Id in st2.breakouts && st2.breakouts[Id].confirmed
  {
    hide Next, Ingest, Merged, Derived, SlotOf, Readable, ReadAs;
    SecondSettles(st1, st2);
    Reads(st1, Second, Crossing, 20.0, 25.0);
    IngestFrame(st1, Second.source, Second.now);
    SecondMerges(st1, st2);
    var st' := Ingest(st1, Second.source, Second.now);
    forall t ensures SlotOf(st', t) == Slot(BarClose(t, 25.0), None, false) {
      SameSlot(st2, st', t);
    }
    CrossingLasts(st');
    LastingMerged(st', Second.now);
  }

  lemma SameSlot(st: SessionState, st': SessionState, t: int)
    requires st.settled == st'.settled && st.pending == st'.pending && st.revised == st'.revised
    ensures SlotOf(st, t) == SlotOf(st', t)
  {
  }

  lemma SecondMerges(st1: SessionState, st2: SessionState)
    requires st1 == Next(Fresh(0), First) && st2 == Next(st1, Second)
    requires Readable(st1, Second) && st2.anchor.Some? && !st2.anchorConflict
    ensures var st' := Ingest(st1, Second.source, Second.now);
      && st'.anchor.Some? && st2.breakouts == Merged(st', Derived(st'), Second.now)
      && st2.settled == st'.settled && st2.pending == st'.pending && st2.revised == st'.revised
         && st2.anchor == st'.anchor && st2.day == st'.day
  {
    hide Ingest, Merged, Derived;
    IngestFrame(st1, Second.source, Second.now);
    AnchorMoves(st1, Second);
  }

  lemma ThirdOverlooks(st1: SessionState, st2: SessionState)
    requires st1 == Next(Fresh(0), First) && st2 == Next(st1, Second)
    ensures Overlooked(st2, Third)
  {
    hide Next, SlotOf;
    hide ReadAs, Readable;
    SecondSettles(st1, st2);
    SecondConfirms(st1, st2);
    Reads(st2, Third, Crossing, 21.0, 15.0);
    assert SlotOf(st2, Crossing) == Slot(Some(25.0), None, false);
    SlotSettled(st2, Crossing);
    assert Overturns(st2, Third, Id, Crossing, 15.0);
  }

  lemma SlotSettled(st: SessionState, t: int)
    ensures SlotOf(st, t).settled.Some? ==> t in st.settled && st.settled[t] == SlotOf(st, t).settled.value
  {
  }

  lemma SittingOfThree(st1: SessionState, st2: SessionState, st3: SessionState)
    requires st1 == Next(Fresh(0), First) && st2 == Next(st1, Second) && st3 == Next(st2, Third)
    ensures Sitting(0, [Fresh(0), st1, st2, st3], [First, Second, Third])
  {
    hide Next, Built;
    BarsBuilt(20.0, 25.0, First.now);
    BarsBuilt(21.0, 15.0, First.now);
  }

  /** The third evaluation overlooks the revision, so the breakout stays confirmed on a close that was taken back. */
  lemma RevisedYetConfirmed()
    ensures exists states, calls :: Sitting(0, states, calls) && |calls| == 3 && !RevisedSafe(states[3])
  {
    hide Next, Overlooked, Sitting;
    var st1 := Next(Fresh(0), First);
    var st2 := Next(st1, Second);
    var states, calls := [Fresh(0), st1, st2, Next(st2, Third)], [First, Second, Third];
    SittingOfThree(st1, st2, Next(st2, Third));
    ThirdOverlooks(st1, st2);
    RevisedNeverConfirmed(0, states, calls, 3);
    assert Overlooked(states[2], calls[2]);
  }
}
