/**
 What holds of the breakout tracker over every sitting: any sequence of evaluations of one session, with any
 responses, as long as the clock does not go back.
 */
module BreakoutSafety {
  import opened Wrappers
  import opened BreakoutSpec

  // The candle source is well formed.

  ghost predicate WellFormed(source: Source) {
    source.Source? ==>
      && (forall i, j :: 0 <= i < j < |source.candles| ==> source.candles[i].time < source.candles[j].time)
      && (forall c :: c in source.candles ==> OnGrid(source.session, c.time) && OpenOf(source.session) <= c.time)
      && source.low < source.high && source.completedAt == RangeEnd(source.session)
  }

  predicate SortedRows(rows: seq<Raw>) {
    forall i, j :: 0 <= i < j < |rows| ==> rows[i].time <= rows[j].time
  }

  lemma {:induction false} InsertSorted(rows: seq<Raw>, r: Raw)
    requires SortedRows(rows)
    ensures SortedRows(InsertByTime(rows, r))
    ensures forall q :: q in InsertByTime(rows, r) <==> q in rows || q == r
  {
    if rows != [] && rows[|rows| - 1].time > r.time {
      var init, last := rows[..|rows| - 1], rows[|rows| - 1];
      InsertSorted(init, r);
      assert rows == init + [last];
      var before := InsertByTime(init, r);
      forall i | 0 <= i < |before| ensures before[i].time <= last.time {
        assert before[i] in before;
      }
    }
  }

  /** Nothing usable is lost, nothing else is kept, and the bars are in order. */
  lemma {:induction false} UsableRowsAre(raw: seq<Raw>, day: int, now: int)
    ensures SortedRows(UsableRows(raw, day, now))
    ensures forall r :: r in UsableRows(raw, day, now) <==> r in raw && Usable(r, day, now)
  {
    if raw != [] {
      var init, r := raw[..|raw| - 1], raw[|raw| - 1];
      UsableRowsAre(init, day, now);
      InsertSorted(UsableRows(init, day, now), r);
      assert raw == init + [r];
    }
  }

  lemma BuiltWellFormed(raw: seq<Raw>, now: int)
    ensures WellFormed(BuildSource(raw, now))
    ensures var s := BuildSource(raw, now);
      s.Source? ==> forall r :: r in raw && Usable(r, s.session, now) ==> Candle(r.time, r.close) in s.candles
  {
    var day := Session(now);
    var rows := UsableRows(raw, day, now);
    UsableRowsAre(raw, day, now);
    var cs := Candles(rows);
    forall c | c in cs ensures OnGrid(day, c.time) && OpenOf(day) <= c.time {
      var i :| 0 <= i < |cs| && cs[i] == c;
      assert rows[i] in rows;
    }
    forall r | r in rows ensures Candle(r.time, r.close) in cs {
      var i :| 0 <= i < |rows| && rows[i] == r;
      assert cs[i] == Candle(r.time, r.close);
    }
  }

  // One candle's part of the state.

  datatype Slot = Slot(settled: Option<real>, pending: Option<Pending>, revised: bool)

  function SlotOf(st: SessionState, t: int): Slot {
    Slot(if t in st.settled then Some(st.settled[t]) else None, if t in st.pending then Some(st.pending[t]) else None,
      t in st.revised)
  }

  /** What one read of a candle, old enough to be read, does to it. */
  function SlotStep(s: Slot, close: real, now: int): Slot {
    if s.settled.Some? then
      if Apart(s.settled.value, close) then s.(settled := Some(close), revised := true) else s
    else if s.pending.None? || Apart(s.pending.value.close, close) then s.(pending := Some(Pending(close, now)))
    else if now - s.pending.value.firstAt >= CONFIRM_MS then s.(settled := Some(close), pending := None)
    else s
  }

  /** The response gives this close for the candle, and it is old enough to be read. */
  predicate ReadAs(st: SessionState, c: Call, t: int, close: real) {
    Readable(st, c) && Candle(t, close) in c.source.candles && !TooFresh(Candle(t, close), c.now)
  }

  lemma CandleSlot(st: SessionState, c: Candle, now: int, t: int)
    ensures SlotOf(IngestCandle(st, c, now), t) ==
            if c.time == t && !TooFresh(c, now) then SlotStep(SlotOf(st, t), c.close, now) else SlotOf(st, t)
  {
  }

  ghost predicate Increasing(candles: seq<Candle>) {
    forall i, j :: 0 <= i < j < |candles| ==> candles[i].time < candles[j].time
  }

  lemma {:induction false} CandlesSlot(st: SessionState, candles: seq<Candle>, now: int, t: int)
    requires Increasing(candles)
    ensures forall x :: Candle(t, x) in candles && !TooFresh(Candle(t, x), now) ==>
      SlotOf(IngestCandles(st, candles, now), t) == SlotStep(SlotOf(st, t), x, now)
    ensures (forall x :: Candle(t, x) in candles ==> TooFresh(Candle(t, x), now)) ==>
      SlotOf(IngestCandles(st, candles, now), t) == SlotOf(st, t)
  {
    if candles != [] {
      var init, last := candles[..|candles| - 1], candles[|candles| - 1];
      CandlesSlot(st, init, now, t);
      CandleSlot(IngestCandles(st, init, now), last, now, t);
      forall c | c in candles ensures c in init || c == last {
      }
      forall c | c in init ensures c.time < last.time && c in candles {
        var k :| 0 <= k < |init| && init[k] == c;
        assert candles[k] == c;
      }
      hide SlotOf, SlotStep, IngestCandle, IngestCandles;
      assert last == Candle(last.time, last.close);
    }
  }

  lemma {:induction false} CandlesFrame(st: SessionState, candles: seq<Candle>, now: int)
    ensures var st' := IngestCandles(st, candles, now);
      st' == st.(settled := st'.settled, readCounts := st'.readCounts, pending := st'.pending, revised := st'.revised)
  {
    if candles != [] {
      CandlesFrame(st, candles[..|candles| - 1], now);
    }
  }

  lemma {:induction false} RevisedIff(st: SessionState, candles: seq<Candle>, now: int)
    requires Increasing(candles)
    ensures AnyRevised(st, candles, now) <==> exists c :: c in candles && Revises(st, c, now)
  {
    if candles != [] {
      var init, last := candles[..|candles| - 1], candles[|candles| - 1];
      RevisedIff(st, init, now);
      CandlesSlot(st, init, now, last.time);
      forall k | 0 <= k < |init| ensures init[k].time < last.time {
        assert candles[k] == init[k];
      }
      assert SlotOf(IngestCandles(st, init, now), last.time) == SlotOf(st, last.time);
      assert Revises(IngestCandles(st, init, now), last, now) <==> Revises(st, last, now);
      assert forall c :: c in candles <==> c in init || c == last;
    }
  }

  // Breakouts of one direction follow one another.

  ghost predicate Gridded(st: SessionState) {
    forall t :: t in st.settled ==> OnGrid(st.day, t) && OpenOf(st.day) <= t
  }

  ghost predicate Ranged(st: SessionState) {
    st.anchor.Some? ==> st.anchor.value.low < st.anchor.value.high
  }

  lemma {:induction false} HasLeast(s: set<int>, u: int)
    requires u in s
    ensures exists least :: least in s && forall v :: v in s ==> least <= v
    decreases |s|
  {
    var rest := s - {u};
    if w :| w in rest {
      HasLeast(rest, w);
      var least :| least in rest && forall v :: v in rest ==> least <= v;
      var smaller := if u < least then u else least;
      assert smaller in s;
      forall v | v in s ensures smaller <= v {
        assert v == u || v in rest;
      }
    } else {
      forall v | v in s ensures u <= v {
        assert v == u || v in rest;
      }
    }
  }

  lemma BackMeansEnded(st: SessionState, dir: Direction, t: int, u: int)
    requires st.anchor.Some? && IsBack(st, dir, t, u)
    ensures exists first ::
      IsFirstBack(st, dir, t, first) && first <= u && InvalidatedAt(st, dir, t) == Some(first + FIVE)
  {
    var backs := set v | v in st.settled && IsBack(st, dir, t, v);
    assert u in backs;
    HasLeast(backs, u);
    var least :| least in backs && forall v :: v in backs ==> least <= v;
    assert forall v :: IsBack(st, dir, t, v) ==> v in backs;
    assert IsFirstBack(st, dir, t, least);
    var chosen :| IsFirstBack(st, dir, t, chosen) && InvalidatedAt(st, dir, t) == Some(chosen + FIVE);
  }

  lemma NotEndedMeansBeyond(st: SessionState, dir: Direction, t: int)
    requires st.anchor.Some? && InvalidatedAt(st, dir, t).None?
    ensures forall u :: u in st.settled && t < u ==> Beyond(dir, st.settled[u], Level(st, dir))
  {
    forall u | u in st.settled && t < u ensures Beyond(dir, st.settled[u], Level(st, dir)) {
      if IsBack(st, dir, t, u) {
        BackMeansEnded(st, dir, t, u);
      }
    }
  }

  /** The earlier of two breakouts of a direction ended before the later one crossed. */
  lemma NoOverlap(st: SessionState, dir: Direction, t: int, u: int)
    requires st.anchor.Some? && Gridded(st) && Crosses(st, dir, t) && Crosses(st, dir, u) && t < u
    ensures var ended := InvalidatedAt(st, dir, t); ended.Some? && ended.value <= u
  {
    assert t <= u - FIVE by {
      assert OnGrid(st.day, t) && OnGrid(st.day, u);
    }
    assert IsBack(st, dir, t, u - FIVE);
    BackMeansEnded(st, dir, t, u - FIVE);
  }

  /** An up and a down breakout cannot both last: the latest settled close is on one side of the range only. */
  lemma OneDirection(st: SessionState, t: int, u: int)
    requires st.anchor.Some? && Ranged(st) && Crosses(st, Up, t) && Crosses(st, Down, u)
    ensures InvalidatedAt(st, Up, t).Some? || InvalidatedAt(st, Down, u).Some?
  {
    if t < u {
      assert IsBack(st, Up, t, u);
      BackMeansEnded(st, Up, t, u);
    } else if u < t {
      assert IsBack(st, Down, u, t);
      BackMeansEnded(st, Down, u, t);
    }
  }

  ghost predicate OneConfirmed(breakouts: map<BreakoutId, Breakout>) {
    forall a, b :: a in breakouts && b in breakouts && breakouts[a].confirmed && breakouts[b].confirmed ==> a == b
  }

  ghost predicate ReasonsFit(breakouts: map<BreakoutId, Breakout>) {
    forall id :: id in breakouts && breakouts[id].reason == CrossingCandleRevised ==> !breakouts[id].confirmed
  }

  /** A breakout that is confirmed after a merge is in the closes, has not ended, and rests on no revised close. */
  lemma MergedConfirmed(st: SessionState, now: int, id: BreakoutId)
    requires st.anchor.Some? && ReasonsFit(st.breakouts)
    requires var m := Merged(st, Derived(st), now); id in m && m[id].confirmed
    ensures Crosses(st, id.direction, id.crossing) && InvalidatedAt(st, id.direction, id.crossing).None?
    ensures !RevisedInput(st, id.crossing)
  {
  }

  lemma MergedOneConfirmed(st: SessionState, now: int)
    requires st.anchor.Some? && Ranged(st) && Gridded(st) && ReasonsFit(st.breakouts)
    ensures OneConfirmed(Merged(st, Derived(st), now)) && ReasonsFit(Merged(st, Derived(st), now))
  {
    var m := Merged(st, Derived(st), now);
    forall a, b | a in m && b in m && m[a].confirmed && m[b].confirmed ensures a == b {
      hide Merged, Derived, InvalidatedAt, Crosses;
      MergedConfirmed(st, now, a);
      MergedConfirmed(st, now, b);
      OnlyOneLasts(st, a, b);
    }
  }

  lemma OnlyOneLasts(st: SessionState, a: BreakoutId, b: BreakoutId)
    requires st.anchor.Some? && Ranged(st) && Gridded(st)
    requires Crosses(st, a.direction, a.crossing) && InvalidatedAt(st, a.direction, a.crossing).None?
    requires Crosses(st, b.direction, b.crossing) && InvalidatedAt(st, b.direction, b.crossing).None?
    ensures a == b
  {
    hide InvalidatedAt, Crosses;
    if a.direction == b.direction {
      if a.crossing < b.crossing {
        NoOverlap(st, a.direction, a.crossing, b.crossing);
      } else if b.crossing < a.crossing {
        NoOverlap(st, a.direction, b.crossing, a.crossing);
      }
    } else if a.direction == Up {
      OneDirection(st, a.crossing, b.crossing);
    } else {
      OneDirection(st, b.crossing, a.crossing);
    }
  }
}
