/**
 What one evaluation of the breakout tracker answers, said on candles, closes and the clock alone: when a close
 settles, when a breakout is confirmed, when the data are trusted, and when an entry is offered.
 */
module BreakoutAnswers {
  import opened Wrappers
  import opened BreakoutSpec
  import opened BreakoutSafety
  import opened BreakoutSittings
  import BreakoutEntries

  /** A five-minute candle is read once it is a minute over. */
  ghost predicate Reads(st: SessionState, c: Call, t: int, x: real) {
    c.marketOpen && c.source.Source? && c.source.session == st.day && Candle(t, x) in c.source.candles
    && t + 6 * 60000 <= c.now
  }

  predicate Agree(x: real, y: real) {
    -0.005 <= x - y <= 0.005
  }

  // Closes.

  /**
   What a read makes of a candle: a first or a differing one waits, an agreeing one a minute later settles it, and a
   settled close that is read differently is replaced and marked.
   */
  ghost predicate ReadChanges(st: SessionState, after: SessionState, t: int, x: real, now: int) {
    if t in st.settled then
      && t in after.settled && after.settled[t] == (if Agree(st.settled[t], x) then st.settled[t] else x)
      && (t in after.revised <==> t in st.revised || !Agree(st.settled[t], x))
    else
      && (t in after.revised <==> t in st.revised)
      && (t in after.settled <==>
          t in st.pending && Agree(st.pending[t].close, x) && st.pending[t].firstAt + 60000 <= now)
      && (t in after.settled ==> after.settled[t] == x && t !in after.pending)
      && (t !in after.settled ==> t in after.pending)
      && (t !in after.settled ==> after.pending[t] == if t in st.pending && Agree(st.pending[t].close, x)
          then st.pending[t] else Pending(x, now))
  }

  ghost predicate SameCandle(st: SessionState, after: SessionState, t: int) {
    && (t in after.settled <==> t in st.settled) && (t in st.settled ==> after.settled[t] == st.settled[t])
    && (t in after.pending <==> t in st.pending) && (t in st.pending ==> after.pending[t] == st.pending[t])
    && (t in after.revised <==> t in st.revised)
  }

  /** Each candle is changed by the one close the response gives for it, and by nothing else. */
  lemma CloseIff(st: SessionState, c: Call, t: int)
    requires WellFormed(c.source)
    ensures var after := Next(st, c);
      && (forall x :: Reads(st, c, t, x) ==> ReadChanges(st, after, t, x, c.now))
      && ((forall x :: !Reads(st, c, t, x)) ==> SameCandle(st, after, t))
  {
    hide Next;
    NextSlot(st, c, t);
    forall x ensures Reads(st, c, t, x) == ReadAs(st, c, t, x) {
    }
    var after := Next(st, c);
    if x :| Reads(st, c, t, x) {
      assert SlotOf(after, t) == SlotStep(SlotOf(st, t), x, c.now);
      StepChanges(st, after, t, x, c.now);
      forall y | Reads(st, c, t, y) ensures y == x {
        OneReading(st, c, t, x, y);
      }
    } else {
      assert forall x :: !ReadAs(st, c, t, x) by {
        assert forall x :: !Reads(st, c, t, x);
      }
      SameSlot(st, after, t);
    }
  }

  lemma StepChanges(st: SessionState, after: SessionState, t: int, x: real, now: int)
    requires SlotOf(after, t) == SlotStep(SlotOf(st, t), x, now)
    ensures ReadChanges(st, after, t, x, now)
  {
    assert SlotOf(after, t).settled.Some? == (t in after.settled);
    assert SlotOf(after, t).pending.Some? == (t in after.pending);
  }

  lemma SameSlot(st: SessionState, after: SessionState, t: int)
    requires SlotOf(after, t) == SlotOf(st, t)
    ensures SameCandle(st, after, t)
  {
    assert SlotOf(after, t).settled.Some? == (t in after.settled);
    assert SlotOf(after, t).pending.Some? == (t in after.pending);
  }

  // The opening range.

  /** A usable bar of the first fifteen minutes of the session. */
  predicate OpeningBar(r: Raw, day: int, now: int) {
    Usable(r, day, now) && r.time < OpenOf(day) + 15 * 60000
  }

  lemma {:induction false} BeforeIs(rows: seq<Raw>, end: int)
    ensures forall r :: r in Before(rows, end) <==> r in rows && r.time < end
  {
    if rows != [] {
      BeforeIs(rows[..|rows| - 1], end);
      assert rows == rows[..|rows| - 1] + [rows[|rows| - 1]];
    }
  }

  lemma {:induction false} ExtremesAre(rows: seq<Raw>)
    requires rows != []
    ensures (forall r :: r in rows ==> LowOf(rows) <= r.low && r.high <= HighOf(rows))
    ensures (exists r :: r in rows && r.high == HighOf(rows)) && exists r :: r in rows && r.low == LowOf(rows)
  {
    if |rows| == 1 {
      assert rows[0] in rows;
    } else {
      var init, last := rows[..|rows| - 1], rows[|rows| - 1];
      ExtremesAre(init);
      assert rows == init + [last] && last in rows;
      var top :| top in init && top.high == HighOf(init);
      var bottom :| bottom in init && bottom.low == LowOf(init);
      assert top in rows && bottom in rows;
    }
  }

  lemma {:induction false} BeforeOrdered(rows: seq<Raw>, end: int)
    requires SortedRows(rows) && DistinctTimes(rows)
    ensures SortedRows(Before(rows, end)) && DistinctTimes(Before(rows, end))
  {
    if rows != [] {
      var init, last := rows[..|rows| - 1], rows[|rows| - 1];
      BeforeOrdered(init, end);
      BeforeIs(init, end);
      var some := Before(init, end);
      forall r | r in some ensures r.time < last.time {
        var k :| 0 <= k < |init| && init[k] == r;
        assert rows[k] == r;
      }
      OrderedWith(some, last);
      assert some + [] == some;
    }
  }

  lemma OrderedWith(rows: seq<Raw>, last: Raw)
    requires SortedRows(rows) && DistinctTimes(rows) && forall r :: r in rows ==> r.time < last.time
    ensures SortedRows(rows + [last]) && DistinctTimes(rows + [last])
  {
    forall i | 0 <= i < |rows| ensures rows[i].time < last.time {
      assert rows[i] in rows;
    }
  }

  /** The bars that start at 09:15, 09:20 and 09:25. */
  ghost predicate WholeOpening(rows: seq<Raw>, day: int) {
    && (exists r :: r in rows && r.time == OpenOf(day)) && (exists r :: r in rows && r.time == OpenOf(day) + 300000)
    && exists r :: r in rows && r.time == OpenOf(day) + 600000
  }

  lemma {:induction false} GridRises(rows: seq<Raw>, day: int, i: nat)
    requires SortedRows(rows) && DistinctTimes(rows) && i < |rows|
    requires forall r :: r in rows ==> OnGrid(day, r.time) && OpenOf(day) <= r.time
    ensures rows[i].time >= OpenOf(day) + i * 300000
  {
    assert rows[i] in rows;
    if i > 0 {
      GridRises(rows, day, i - 1);
      assert rows[i - 1] in rows;
      GridStep(day, rows[i].time, rows[i - 1].time);
    }
  }

  lemma ThreeBars(rows: seq<Raw>, day: int)
    requires SortedRows(rows) && DistinctTimes(rows)
    requires forall r :: r in rows ==> OnGrid(day, r.time) && OpenOf(day) <= r.time < RangeEnd(day)
    ensures |rows| == 3 <==> WholeOpening(rows, day)
  {
    if |rows| >= 1 {
      GridRises(rows, day, 0);
    }
    if |rows| >= 2 {
      GridRises(rows, day, 1);
    }
    if |rows| >= 3 {
      GridRises(rows, day, 2);
      assert rows[0] in rows && rows[1] in rows && rows[2] in rows;
    }
    if |rows| >= 4 {
      assert rows[3] in rows;
      GridRises(rows, day, 3);
    }
    if |rows| == 3 {
      GridStep(day, OpenOf(day) + 600000, rows[2].time);
      GridStep(day, rows[2].time, rows[1].time);
      GridStep(day, rows[1].time, rows[0].time);
      GridStep(day, RangeEnd(day), rows[2].time);
    }
  }

  /**
   There is a range exactly when 09:30 has passed, no time came twice, the three bars of the opening are there, and the
   highest high of the bars before 09:30 is above their lowest low; these are the range.
   */
  lemma RangeOfBars(raw: seq<Raw>, now: int)
    ensures var s, day, rows := BuildSource(raw, now), Session(now), UsableRows(raw, Session(now), now);
      && (s.Source? <==>
          && now >= OpenOf(day) + 15 * 60000 && DistinctTimes(rows) && WholeOpening(rows, day)
          && exists r, q | r in raw && OpeningBar(r, day, now) && q in raw && OpeningBar(q, day, now) :: q.low < r.high)
      && (s.Source? ==>
            && s.session == day && s.completedAt == OpenOf(day) + 15 * 60000 && s.low < s.high
            && (forall r :: r in raw && OpeningBar(r, day, now) ==> s.low <= r.low && r.high <= s.high)
            && (exists r :: r in raw && OpeningBar(r, day, now) && r.high == s.high)
            && exists r :: r in raw && OpeningBar(r, day, now) && r.low == s.low)
  {
    hide UsableRows, Before, HighOf, LowOf, WholeOpening, DistinctTimes, SortedRows;
    var day := Session(now);
    var rows := UsableRows(raw, day, now);
    UsableRowsAre(raw, day, now);
    var opening := Before(rows, RangeEnd(day));
    BeforeIs(rows, RangeEnd(day));
    WholeBefore(rows, opening, day);
    if DistinctTimes(rows) {
      BeforeOrdered(rows, RangeEnd(day));
      ThreeBars(opening, day);
    }
    if opening != [] {
      ExtremesAre(opening);
    }
    assert forall r :: r in opening <==> r in raw && OpeningBar(r, day, now);
  }

  lemma WholeBefore(rows: seq<Raw>, opening: seq<Raw>, day: int)
    requires forall r :: r in opening <==> r in rows && r.time < RangeEnd(day)
    ensures WholeOpening(opening, day) == WholeOpening(rows, day)
  {
  }

  // Breakouts.

  /** The side of the range the direction leaves. */
  function Edge(st: SessionState, dir: Direction): real
    requires st.anchor.Some?
  {
    match dir
    case Up => st.anchor.value.high
    case Down => st.anchor.value.low
  }

  predicate Outside(dir: Direction, price: real, edge: real) {
    match dir
    case Up => price > edge
    case Down => price < edge
  }

  /** From 09:30 on, a close outside the range right after one that was not. */
  predicate Crossed(st: SessionState, id: BreakoutId) {
    var t := id.crossing;
    && st.anchor.Some? && t >= OpenOf(st.day) + 15 * 60000 && t in st.settled && t - 300000 in st.settled
    && Outside(id.direction, st.settled[t], Edge(st, id.direction))
    && !Outside(id.direction, st.settled[t - 300000], Edge(st, id.direction))
  }

  /** Every settled close since is outside the range, and neither close of the crossing was revised. */
  ghost predicate Lasts(st: SessionState, id: BreakoutId) {
    && st.anchor.Some? && id.crossing !in st.revised && id.crossing - 300000 !in st.revised
    && forall u :: u in st.settled && u > id.crossing ==> Outside(id.direction, st.settled[u], Edge(st, id.direction))
  }

  predicate ForeverInvalid(st: SessionState, id: BreakoutId) {
    id in st.breakouts && !st.breakouts[id].confirmed && st.breakouts[id].reason == CrossingCandleRevised
  }

  lemma CrossedIs(st: SessionState, id: BreakoutId)
    requires st.anchor.Some?
    ensures Crosses(st, id.direction, id.crossing) == Crossed(st, id)
  {
  }

  lemma LastsIs(st: SessionState, id: BreakoutId)
    requires st.anchor.Some?
    ensures Lasts(st, id)
      <==> !RevisedInput(st, id.crossing) && InvalidatedAt(st, id.direction, id.crossing).None?
  {
    hide InvalidatedAt;
    var edge := Level(st, id.direction);
    assert forall x: real :: Beyond(id.direction, x, edge) == Outside(id.direction, x, Edge(st, id.direction));
    if InvalidatedAt(st, id.direction, id.crossing).None? {
      NotEndedMeansBeyond(st, id.direction, id.crossing);
    } else {
      EndedMeansBack(st, id.direction, id.crossing);
    }
  }

  lemma EndedMeansBack(st: SessionState, dir: Direction, t: int)
    requires st.anchor.Some? && InvalidatedAt(st, dir, t).Some?
    ensures exists u :: IsBack(st, dir, t, u)
  {
  }

  /** Which breakouts there are after a merge, and which of them are confirmed. */
  ghost predicate Confirms(st: SessionState, after: SessionState) {
    forall id ::
      && (id in after.breakouts <==> id in st.breakouts || Crossed(after, id))
      && (id in after.breakouts ==> (after.breakouts[id].confirmed <==>
             Crossed(after, id) && Lasts(after, id) && !ForeverInvalid(st, id)))
  }

  lemma MergeIff(st: SessionState, now: int)
    requires st.anchor.Some? && ReasonsFit(st.breakouts)
    ensures Confirms(st, st.(breakouts := Merged(st, Derived(st), now)))
  {
    var after := st.(breakouts := Merged(st, Derived(st), now));
    hide InvalidatedAt, Crosses, Crossed, Lasts, RevisedInput;
    forall id
      ensures id in after.breakouts <==> id in st.breakouts || Crossed(after, id)
      ensures id in after.breakouts ==> (after.breakouts[id].confirmed <==>
                Crossed(after, id) && Lasts(after, id) && !ForeverInvalid(st, id))
    {
      CrossedIs(st, id);
      LastsIs(st, id);
      SameElsewhere(st, after, id);
      CrossedId(st, id);
    }
  }

  lemma CrossedId(st: SessionState, id: BreakoutId)
    ensures Crossed(st, id) ==> id in IdsOf(st)
  {
  }

  lemma SameElsewhere(st: SessionState, after: SessionState, id: BreakoutId)
    requires after == st.(breakouts := after.breakouts, trustAfter := after.trustAfter)
    ensures Crossed(after, id) == Crossed(st, id) && Lasts(after, id) == Lasts(st, id)
  {
  }

  /** After an evaluation that could read and was not contradicted the breakouts are those of the closes. */
  lemma BreakoutIff(st: SessionState, c: Call)
    requires ReasonsFit(st.breakouts)
    ensures var after := Next(st, c);
      if Readable(st, c) && after.anchor.Some? && !after.anchorConflict then Confirms(st, after)
      else after.breakouts == st.breakouts
  {
    hide Ingest, Merged, Derived, Confirms;
    var after := Next(st, c);
    if Readable(st, c) && after.anchor.Some? && !after.anchorConflict {
      var read := Ingest(st, c.source, c.now);
      IngestFrame(st, c.source, c.now);
      MergeIff(read, c.now);
      ConfirmsElsewhere(st, read, read.(breakouts := Merged(read, Derived(read), c.now)), after);
    } else {
      BreakoutEntries.UnmergedBreakouts(st, c);
    }
  }

  lemma ConfirmsElsewhere(st: SessionState, read: SessionState, merged: SessionState, after: SessionState)
    requires read.breakouts == st.breakouts && Confirms(read, merged)
    requires after == merged.(trustAfter := after.trustAfter)
    ensures Confirms(st, after)
  {
    hide Crossed, Lasts;
    forall id ensures Crossed(after, id) == Crossed(merged, id) && Lasts(after, id) == Lasts(merged, id) {
      SameElsewhere(merged, after, id);
    }
  }

  // The range.

  /** The range of the response, which is over for a minute, as the frozen one or as the one waiting to be frozen. */
  ghost predicate RangeChanges(st: SessionState, after: SessionState, high: real, low: real, completedAt: int, now: int)
  {
    var read := Anchor(high, low, completedAt);
    if st.anchor.Some? then
      && after.anchor == st.anchor && after.anchorPending == st.anchorPending
      && after.anchorConflict == (st.anchorConflict || st.anchor.value != read)
    else
      var waiting := st.anchorPending.Some? && st.anchorPending.value.anchor == read;
      var over := completedAt + 60000 <= now;
      && after.anchorConflict == st.anchorConflict
      && (after.anchor.Some? <==> over && waiting && st.anchorPending.value.firstAt + 60000 <= now)
      && (after.anchor.Some? ==> after.anchor == Some(read) && after.anchorPending.None?)
      && var pending := if over && !waiting then Some(PendingAnchor(read, now)) else st.anchorPending;
      after.anchor.None? ==> after.anchorPending == pending
  }

  lemma RangeIff(st: SessionState, c: Call)
    ensures var after := Next(st, c);
      if Readable(st, c) then RangeChanges(st, after, c.source.high, c.source.low, c.source.completedAt, c.now)
      else
        after.anchor == st.anchor && after.anchorPending == st.anchorPending
        && after.anchorConflict == st.anchorConflict
  {
    hide Next;
    AnchorMoves(st, c);
  }

  // Trust.

  /** The newest candle of the day whose start is seven minutes ago or more: over, a minute old, and read twice. */
  predicate Newest(day: int, now: int, t: int) {
    t >= OpenOf(day) && (t - OpenOf(day)) % 300000 == 0 && t + 420000 <= now < t + 720000
  }

  lemma NewestIs(day: int, now: int, t: int)
    ensures ExpectedLatest(day, now) == Some(t) <==> Newest(day, now, t)
  {
    var k := (now - SETTLE_MS - CONFIRM_MS - FIVE - OpenOf(day)) / FIVE;
    if Newest(day, now, t) {
      var m := (t - OpenOf(day)) / FIVE;
      assert t == OpenOf(day) + m * FIVE;
      assert k == m;
    }
  }

  /** The response holds the newest candle that must be there and every one of the day before it. */
  ghost predicate Whole(candles: seq<Candle>, day: int, now: int) {
    && OpenOf(day) + 420000 <= now
    && forall t :: OpenOf(day) <= t && (t - OpenOf(day)) % 300000 == 0 && t + 420000 <= now ==> HasCandle(candles, t)
  }

  lemma WholeIs(candles: seq<Candle>, day: int, now: int)
    ensures Covered(candles, day, now) == Whole(candles, day, now)
  {
    hide HasCandle;
    var last := ExpectedLatest(day, now);
    if last.Some? {
      NewestIs(day, now, last.value);
      forall t | OpenOf(day) <= t && OnGrid(day, t) ensures t <= last.value <==> t + 420000 <= now {
        GridStep(day, t, last.value);
      }
    }
  }

  lemma GridStep(day: int, t: int, u: int)
    requires OnGrid(day, t) && OnGrid(day, u)
    ensures t > u ==> t >= u + FIVE
  {
  }

  /** A read of this evaluation goes against a settled close. */
  ghost predicate Disputed(st: SessionState, c: Call) {
    exists t, x :: Reads(st, c, t, x) && t in st.settled && !Agree(st.settled[t], x)
  }

  /** What trust waits for: the first five-minute mark after a dispute, or what it waited for before. */
  ghost predicate WaitsFor(st: SessionState, c: Call, mark: Option<int>) {
    if Disputed(st, c) then mark.Some? && mark.value % 300000 == 0 && c.now < mark.value <= c.now + 300000
    else mark == st.trustAfter
  }

  /** A candle from the mark on was read twice and never revised. */
  ghost predicate Cleared(after: SessionState, mark: Option<int>) {
    mark.None?
    || exists t :: t in after.settled && mark.value <= t && t !in after.revised && t in after.readCounts
                   && after.readCounts[t] >= 2
  }

  lemma DisputedIs(st: SessionState, c: Call)
    requires WellFormed(c.source) && Readable(st, c)
    ensures AnyRevised(IngestAnchor(st, c.source, c.now), c.source.candles, c.now) == Disputed(st, c)
  {
    var st1 := IngestAnchor(st, c.source, c.now);
    RangeFrame(st, c.source, c.now);
    RevisedIff(st1, c.source.candles, c.now);
    if k :| k in c.source.candles && Revises(st1, k, c.now) {
      assert k == Candle(k.time, k.close);
      assert Reads(st, c, k.time, k.close);
    }
    if t, x :| Reads(st, c, t, x) && t in st.settled && !Agree(st.settled[t], x) {
      assert Revises(st1, Candle(t, x), c.now);
    }
  }

  lemma MarkIs(st: SessionState, c: Call)
    requires WellFormed(c.source) && Readable(st, c)
    ensures forall mark :: WaitsFor(st, c, mark) <==> mark == Ingest(st, c.source, c.now).trustAfter
  {
    hide IngestCandles, AnyRevised, Disputed;
    DisputedIs(st, c);
    RangeFrame(st, c.source, c.now);
    CandlesFrame(IngestAnchor(st, c.source, c.now), c.source.candles, c.now);
    OneMark(c.now);
  }

  lemma OneMark(now: int)
    ensures forall m :: m % 300000 == 0 && now < m <= now + 300000 <==> m == NextStart(now)
  {
  }

  lemma ClearedIs(after: SessionState, mark: int)
    ensures TrustRestored(after, mark) == Cleared(after, Some(mark))
  {
    if Cleared(after, Some(mark)) {
      var t :| t in after.settled && mark <= t && t !in after.revised && t in after.readCounts
        && after.readCounts[t] >= 2;
      assert ReadsOf(after, t) >= 2;
    } else if t :| t in after.settled && mark <= t && ReadsOf(after, t) >= 2 && t !in after.revised {
      assert t in after.readCounts;
    }
  }

  /** The newest candle that must be there is settled. */
  ghost predicate NewestSettled(after: SessionState, now: int) {
    exists t :: Newest(after.day, now, t) && t in after.settled
  }

  /**
   The data are trusted exactly when the market is open, the response is whole, it never contradicted the range, the
   newest candle that must be there is settled, and any dispute was cleared.
   */
  lemma TrustedIff(st: SessionState, c: Call)
    requires WellFormed(c.source)
    ensures var after := Next(st, c);
      StatusAt(st, c) == StatusOk <==>
        && c.marketOpen && c.source.Source? && c.source.session == st.day && !after.anchorConflict
        && Whole(c.source.candles, st.day, c.now) && NewestSettled(after, c.now)
        && exists mark :: WaitsFor(st, c, mark) && Cleared(after, mark)
  {
    hide Ingest, Merged, Derived, Whole, Covered, WaitsFor, TrustRestored, Newest, ExpectedLatest;
    NextFrame(st, c);
    if Readable(st, c) {
      var r := Read(st, c);
      IngestFrame(st, c.source, c.now);
      MarkIs(st, c);
      WholeIs(c.source.candles, st.day, c.now);
      if r.trustAfter.Some? {
        ClearedIs(r, r.trustAfter.value);
      }
      SettledIs(r, c.now);
      if Covered(c.source.candles, st.day, c.now) {
        CoveredHasNewest(c.source.candles, st.day, c.now);
      }
      assert WaitsFor(st, c, r.trustAfter);
      var after := Next(st, c);
      assert after == r.(trustAfter := after.trustAfter);
      assert NewestSettled(after, c.now) == NewestSettled(r, c.now);
      assert Cleared(after, r.trustAfter) == Cleared(r, r.trustAfter);
    }
  }

  lemma CoveredHasNewest(candles: seq<Candle>, day: int, now: int)
    requires Covered(candles, day, now)
    ensures ExpectedLatest(day, now).Some?
  {
  }

  lemma SettledIs(r: SessionState, now: int)
    ensures NewestSettled(r, now)
      <==> ExpectedLatest(r.day, now).Some? && ExpectedLatest(r.day, now).value in r.settled
  {
    hide ExpectedLatest;
    forall t ensures ExpectedLatest(r.day, now) == Some(t) <==> Newest(r.day, now, t) {
      NewestIs(r.day, now, t);
    }
    var latest := ExpectedLatest(r.day, now);
    assert latest.Some? ==> Newest(r.day, now, latest.value);
  }

  // Entries.

  /** The spot is past the level by no more than half the range. */
  predicate SpotInReach(dir: Direction, spot: real, level: real, width: real) {
    match dir
    case Up => level < spot <= level + 0.5 * width
    case Down => level - 0.5 * width <= spot < level
  }

  /** No breakout of its direction crossed later. */
  ghost predicate LastOfItsSide(st: SessionState, id: BreakoutId) {
    id in st.breakouts && forall other :: other in st.breakouts && other.direction == id.direction ==>
      other.crossing <= id.crossing
  }

  /** The newest candle that must be there closed past the level. */
  ghost predicate ClosedBeyond(after: SessionState, id: BreakoutId, level: real, now: int) {
    exists t :: Newest(after.day, now, t) && t in after.settled && Outside(id.direction, after.settled[t], level)
  }

  /**
   An entry is offered exactly when the last breakout of its direction is confirmed and ten minutes old at most, the
   data are trusted, the four gates of the plan are open, the newest close is past the level, and so is the spot, by
   no more than half the range.
   */
  lemma EntryIff(st: SessionState, c: Call, id: BreakoutId)
    ensures EntryReady(st, c, id) <==>
      && var after := Next(st, c);
      && after.anchor.Some? && LastOfItsSide(after, id)
      && var b, range := after.breakouts[id], after.anchor.value;
      && b.confirmed && StatusAt(st, c) == StatusOk && c.now <= id.crossing + 5 * 60000 + 10 * 60000
      && c.gates.aligned && c.gates.triggerReady && c.gates.priceReady && c.gates.liquidityReady
      && ClosedBeyond(after, id, b.level, c.now)
      && c.gates.spot.Some? && SpotInReach(id.direction, c.gates.spot.value, b.level, range.high - range.low)
  {
    hide Read, Judge, ExpectedLatest, Newest;
    NextFrame(st, c);
    var after := Next(st, c);
    if id in after.breakouts {
      BeyondIs(after, id, after.breakouts[id].level, c.now);
    }
  }

  lemma BeyondIs(after: SessionState, id: BreakoutId, level: real, now: int)
    ensures ClosedBeyond(after, id, level, now) <==>
      && var latest := ExpectedLatest(after.day, now);
      latest.Some? && latest.value in after.settled && Beyond(id.direction, after.settled[latest.value], level)
  {
    hide ExpectedLatest;
    forall t ensures ExpectedLatest(after.day, now) == Some(t) <==> Newest(after.day, now, t) {
      NewestIs(after.day, now, t);
    }
    var latest := ExpectedLatest(after.day, now);
    assert latest.Some? ==> Newest(after.day, now, latest.value);
  }
}
