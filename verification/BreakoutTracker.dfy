/**
 The tracker as it runs: maps and sets changed in place, candles and breakouts walked by loops.
 Rebuilding the breakouts is proved against their definition, not against another loop.
 */
module BreakoutTrackers {
  import opened Wrappers
  import opened BreakoutSpec
  import opened BreakoutSafety

  datatype Found = Found(id: BreakoutId, d: Derivation)

  ghost predicate StrictlySorted(times: seq<int>) {
    forall i, j :: 0 <= i < j < |times| ==> times[i] < times[j]
  }

  /** The walk has decided this breakout's end: the first close after it that went back. */
  ghost predicate Ended(st: SessionState, f: Found)
    requires st.anchor.Some?
  {
    exists u :: IsFirstBack(st, f.id.direction, f.id.crossing, u) && f.d.invalidatedAt == Some(u + FIVE)
  }

  /** Among the first k times nothing after the crossing went back. */
  ghost predicate Lasts(st: SessionState, f: Found, times: seq<int>, k: nat)
    requires st.anchor.Some? && k <= |times|
  {
    f.d.invalidatedAt.None? && forall i :: 0 <= i < k && f.id.crossing < times[i] ==>
      !IsBack(st, f.id.direction, f.id.crossing, times[i])
  }

  ghost predicate FoundIn(found: seq<Found>, id: BreakoutId) {
    exists f :: f in found && f.id == id
  }

  /** What was found of a direction among the first k times; only the last find may still be active. */
  ghost predicate Walked(st: SessionState, dir: Direction, times: seq<int>, k: nat, found: seq<Found>, active: bool)
    requires st.anchor.Some? && k <= |times|
  {
    && (forall i :: 0 <= i < |found| ==>
          && found[i].id.direction == dir && Crosses(st, dir, found[i].id.crossing)
             && found[i].id.crossing in times[..k]
          && found[i].d.revisedInput == RevisedInput(st, found[i].id.crossing))
    && (forall t :: t in times[..k] && Crosses(st, dir, t) ==> FoundIn(found, BreakoutId(dir, t)))
    && (forall i, j :: 0 <= i < j < |found| ==> found[i].id != found[j].id)
    && (forall i :: 0 <= i < |found| && !(active && i == |found| - 1) ==> Ended(st, found[i]))
    && (active ==> found != [] && Lasts(st, found[|found| - 1], times, k))
  }

  /** The list holds exactly the breakouts of the definition, each once. */
  ghost predicate Lists(st: SessionState, found: seq<Found>, derived: map<BreakoutId, Derivation>) {
    && (forall i, j :: 0 <= i < j < |found| ==> found[i].id != found[j].id)
    && (forall f :: f in found ==> f.id in derived && derived[f.id] == f.d)
    && (forall id :: id in derived ==> FoundIn(found, id))
  }

  ghost function IdsIn(found: seq<Found>, k: nat): set<BreakoutId>
    requires k <= |found|
  {
    set j | 0 <= j < k :: found[j].id
  }

  /** The breakouts seen so far are brought up to date, the others are as they were. */
  ghost predicate PartlyMerged(st: SessionState, derived: map<BreakoutId, Derivation>, seen: set<BreakoutId>,
                               breakouts: map<BreakoutId, Breakout>, now: int)
    requires st.anchor.Some?
  {
    && breakouts.Keys == st.breakouts.Keys + seen
    && forall id :: id in breakouts ==>
         if id in seen
         then id in derived && breakouts[id]
           == Updated(Known(st.breakouts, id), derived[id], Level(st, id.direction), now)
         else breakouts[id] == st.breakouts[id]
  }

  lemma NothingMerged(st: SessionState, derived: map<BreakoutId, Derivation>, now: int)
    requires st.anchor.Some?
    ensures PartlyMerged(st, derived, {}, st.breakouts, now)
  {
  }

  lemma MergeOne(st: SessionState, derived: map<BreakoutId, Derivation>, seen: set<BreakoutId>,
                 breakouts: map<BreakoutId, Breakout>, f: Found, now: int)
    requires st.anchor.Some? && PartlyMerged(st, derived, seen, breakouts, now)
    requires f.id !in seen && f.id in derived && derived[f.id] == f.d
    ensures PartlyMerged(st, derived, seen + {f.id},
                         breakouts[f.id := Updated(Known(breakouts, f.id), f.d, Level(st, f.id.direction), now)], now)
  {
    hide Updated;
    assert Known(breakouts, f.id) == Known(st.breakouts, f.id);
  }

  lemma ListedNext(st: SessionState, found: seq<Found>, derived: map<BreakoutId, Derivation>, i: nat)
    requires Lists(st, found, derived) && i < |found|
    ensures found[i].id !in IdsIn(found, i) && found[i].id in derived && derived[found[i].id] == found[i].d
    ensures IdsIn(found, i + 1) == IdsIn(found, i) + {found[i].id}
  {
    assert found[i] in found;
  }

  lemma AllSeen(st: SessionState, found: seq<Found>, derived: map<BreakoutId, Derivation>)
    requires Lists(st, found, derived)
    ensures IdsIn(found, |found|) == derived.Keys
  {
    forall id | id in derived ensures id in IdsIn(found, |found|) {
      assert FoundIn(found, id);
      var f :| f in found && f.id == id;
      var j :| 0 <= j < |found| && found[j] == f;
    }
    forall id | id in IdsIn(found, |found|) ensures id in derived {
      var j :| 0 <= j < |found| && found[j].id == id;
      assert found[j] in found;
    }
  }

  class BreakoutTracker {
    var day: int
    var anchor: Option<Anchor>
    var anchorPending: Option<PendingAnchor>
    var anchorConflict: bool
    var settled: map<int, real>
    var readCounts: map<int, nat>
    var pending: map<int, Pending>
    var revised: set<int>
    var trustAfter: Option<int>
    var breakouts: map<BreakoutId, Breakout>

    function View(): SessionState
      reads this
    {
      SessionState(day, anchor, anchorPending, anchorConflict, settled, readCounts, pending, revised, trustAfter,
        breakouts)
    }

    constructor (session: int)
      ensures View() == Fresh(session)
    {
      day, anchor, anchorPending, anchorConflict := session, None, None, false;
      settled, readCounts, pending, revised := map[], map[], map[], {};
      trustAfter, breakouts := None, map[];
    }

    method ReadRange(source: Source, now: int)
      requires source.Source?
      modifies this
      ensures View() == IngestAnchor(old(View()), source, now)
    {
      var seen := Anchor(source.high, source.low, source.completedAt);
      if anchor.Some? {
        if seen != anchor.value {
          anchorConflict := true;
        }
        return;
      }
      if now < seen.completedAt + SETTLE_MS {
        return;
      }
      if anchorPending.None? || anchorPending.value.anchor != seen {
        anchorPending := Some(PendingAnchor(seen, now));
      } else if now - anchorPending.value.firstAt >= CONFIRM_MS {
        anchor, anchorPending := Some(seen), None;
      }
    }

    method ReadCandle(c: Candle, now: int) returns (conflict: bool)
      modifies this
      ensures View() == IngestCandle(old(View()), c, now)
      ensures conflict == Revises(old(View()), c, now)
    {
      conflict := false;
      if TooFresh(c, now) {
        return;
      }
      if c.time in settled {
        if Apart(settled[c.time], c.close) {
          conflict := true;
          revised := revised + {c.time};
          settled := settled[c.time := c.close];
          readCounts := readCounts[c.time := 1];
        } else {
          readCounts := readCounts[c.time := ReadsOf(View(), c.time) + 1];
        }
        return;
      }
      if c.time !in pending || Apart(pending[c.time].close, c.close) {
        pending := pending[c.time := Pending(c.close, now)];
      } else if now - pending[c.time].firstAt >= CONFIRM_MS {
        settled := settled[c.time := c.close];
        readCounts := readCounts[c.time := 2];
        pending := pending - {c.time};
      }
    }

    method ReadResponse(source: Source, now: int)
      requires source.Source?
      modifies this
      ensures View() == Ingest(old(View()), source, now)
    {
      ReadRange(source, now);
      ghost var st := View();
      var conflict, i := false, 0;
      while i < |source.candles|
        invariant i <= |source.candles|
        invariant View() == IngestCandles(st, source.candles[..i], now)
        invariant conflict == AnyRevised(st, source.candles[..i], now)
      {
        assert source.candles[..i + 1][..i] == source.candles[..i];
        var one := ReadCandle(source.candles[i], now);
        conflict := conflict || one;
        i := i + 1;
      }
      assert source.candles[..i] == source.candles;
      if conflict {
        trustAfter := Some(NextStart(now));
      }
    }

    /** Put before the first that is later, a new time keeps the times in order. */
    static lemma Placed(before: seq<int>, i: nat, t: int)
      requires StrictlySorted(before) && t !in before && i <= |before|
      requires (forall j :: 0 <= j < i ==> before[j] < t) && (i < |before| ==> t <= before[i])
      ensures StrictlySorted(before[..i] + [t] + before[i..])
      ensures forall u :: u in before[..i] + [t] + before[i..] <==> u in before || u == t
    {
      assert before == before[..i] + before[i..];
      assert i < |before| ==> before[i] in before;
    }

    /** The settled times in order. */
    method SortedTimes() returns (times: seq<int>)
      ensures StrictlySorted(times)
      ensures forall t :: t in times <==> t in settled
    {
      times := [];
      var rest := settled.Keys;
      while exists t :: t in rest
        invariant rest <= settled.Keys
        invariant StrictlySorted(times)
        invariant forall t :: t in settled.Keys <==> t in times || t in rest
        invariant forall t :: t in rest ==> t !in times
        decreases |rest|
      {
        var t :| t in rest;
        var i := 0;
        while i < |times| && times[i] < t
          invariant i <= |times|
          invariant forall j :: 0 <= j < i ==> times[j] < t
        {
          i := i + 1;
        }
        ghost var before := times;
        times := times[..i] + [t] + times[i..];
        Placed(before, i, t);
        rest := rest - {t};
      }
    }

    /** The breakouts of one direction among the settled closes, each with its end if it had one. */
    method Walk(dir: Direction, times: seq<int>) returns (found: seq<Found>)
      requires anchor.Some? && Gridded(View())
      requires StrictlySorted(times) && forall t :: t in times <==> t in settled
      ensures exists active :: Walked(View(), dir, times, |times|, found, active)
    {
      hide Walked, Beyond, Gridded;
      found := [];
      var active, k := false, 0;
      WalkStart(View(), dir, times);
      while k < |times|
        invariant k <= |times|
        invariant Walked(View(), dir, times, k, found, active)
      {
        var t := times[k];
        WalkActive(View(), dir, times, k, found, active);
        ghost var before := found;
        if t < RangeEnd(day) {
          WalkPast(View(), dir, times, k, found, active);
        } else if active {
          if !Beyond(dir, settled[t], Level(View(), dir)) {
            var last := found[|found| - 1];
            var ended := last.(d := last.d.(invalidatedAt := Some(t + FIVE)));
            found := found[..|found| - 1] + [ended];
            WalkEnd(View(), dir, times, k, before, found);
            active := false;
          } else {
            WalkOn(View(), dir, times, k, found);
          }
        } else if t - FIVE in settled && !Beyond(dir, settled[t - FIVE], Level(View(), dir))
            && Beyond(dir, settled[t], Level(View(), dir)) {
          var f := Found(BreakoutId(dir, t), Derivation(RevisedInput(View(), t), None));
          found := found + [f];
          active := true;
          WalkNew(View(), dir, times, k, before, f);
        } else {
          WalkPast(View(), dir, times, k, found, active);
        }
        k := k + 1;
      }
      assert Walked(View(), dir, times, |times|, found, active);
    }

    /** Both directions; the list is what the definition says. */
    method Derive() returns (found: seq<Found>)
      requires anchor.Some? && Gridded(View())
      ensures Lists(View(), found, Derived(View()))
    {
      var times := SortedTimes();
      var ups := Walk(Up, times);
      var downs := Walk(Down, times);
      found := ups + downs;
      WalksAreLists(View(), times, ups, downs);
    }

    /** Brings the breakouts up to date with the list. */
    method Merge(found: seq<Found>, now: int)
      requires anchor.Some? && Gridded(View()) && Lists(View(), found, Derived(View()))
      modifies this
      ensures View() == old(View()).(breakouts := Merged(old(View()), Derived(old(View())), now))
    {
      hide Derived, Updated, Dropped;
      ghost var st := View();
      var seen := UpdateFound(found, now, Derived(st));
      DropUnseen(seen, now);
      assert breakouts == Merged(st, Derived(st), now);
    }

    method UpdateFound(found: seq<Found>, now: int, ghost derived: map<BreakoutId, Derivation>)
      returns (seen: set<BreakoutId>)
      requires anchor.Some? && Lists(View(), found, derived)
      modifies this
      ensures View() == old(View()).(breakouts := breakouts)
      ensures seen == derived.Keys && PartlyMerged(old(View()), derived, seen, breakouts, now)
    {
      hide PartlyMerged, Updated, Lists;
      ghost var st := View();
      seen := {};
      var i := 0;
      NothingMerged(st, derived, now);
      while i < |found|
        invariant i <= |found|
        invariant View() == st.(breakouts := breakouts)
        invariant seen == IdsIn(found, i)
        invariant PartlyMerged(st, derived, seen, breakouts, now)
      {
        var f := found[i];
        ListedNext(st, found, derived, i);
        MergeOne(st, derived, seen, breakouts, f, now);
        seen := seen + {f.id};
        breakouts := breakouts[f.id := Updated(Known(breakouts, f.id), f.d, Level(View(), f.id.direction), now)];
        i := i + 1;
      }
      AllSeen(st, found, derived);
    }

    /** Breakouts that the closes no longer show are marked, for good. */
    method DropUnseen(seen: set<BreakoutId>, now: int)
      modifies this
      ensures View() == old(View()).(breakouts := breakouts) && breakouts.Keys == old(breakouts.Keys)
      ensures forall id :: id in breakouts ==>
        breakouts[id] == if id in seen then old(breakouts)[id] else Dropped(old(breakouts)[id], now)
    {
      var rest := breakouts.Keys - seen;
      while exists id :: id in rest
        invariant rest <= breakouts.Keys - seen
        invariant View() == old(View()).(breakouts := breakouts) && breakouts.Keys == old(breakouts.Keys)
        invariant forall id :: id in breakouts ==>
          breakouts[id] == if id in seen || id in rest then old(breakouts)[id] else Dropped(old(breakouts)[id], now)
        decreases |rest|
      {
        var id :| id in rest;
        rest := rest - {id};
        breakouts := breakouts[id := Dropped(breakouts[id], now)];
      }
    }

    method DataStatusOf(c: Call) returns (status: DataStatus)
      modifies this
      ensures (status, View()) == Judge(old(View()), c)
    {
      if !c.marketOpen {
        return MarketClosed;
      }
      if !Readable(View(), c) {
        return DataUnavailable;
      }
      if anchorConflict {
        return AnchorRevised;
      }
      var covered := CoversTo(c.source.candles, c.now);
      if !covered {
        return IncompleteCandles;
      }
      if trustAfter.Some? {
        if !TrustRestored(View(), trustAfter.value) {
          return DataConflictUnresolved;
        }
        trustAfter := None;
      }
      var latest := ExpectedLatest(day, c.now);
      return if latest.Some? && latest.value !in settled then CandleUnconfirmed else StatusOk;
    }

    /** Walks the five-minute marks from 09:15 up to the newest candle that must have been confirmed. */
    method CoversTo(candles: seq<Candle>, now: int) returns (all: bool)
      ensures all == Covered(candles, day, now)
    {
      var last := ExpectedLatest(day, now);
      if last.None? {
        return false;
      }
      var t := OpenOf(day);
      while t <= last.value
        invariant OpenOf(day) <= t && OnGrid(day, t)
        invariant forall u :: OpenOf(day) <= u < t && OnGrid(day, u) ==> HasCandle(candles, u)
        decreases last.value - t
      {
        if !HasCandle(candles, t) {
          return false;
        }
        assert forall u :: t < u < t + FIVE ==> !OnGrid(day, u);
        t := t + FIVE;
      }
      return true;
    }

    /** One evaluation: read, rebuild and merge, then judge. */
    method Evaluate(c: Call) returns (status: DataStatus)
      requires Gridded(View()) && WellFormed(c.source)
      modifies this
      ensures View() == Next(old(View()), c) && status == StatusAt(old(View()), c)
      ensures Gridded(View())
    {
      hide Ingest, Merged, Derived, Lists, Gridded, WellFormed, Judge;
      ghost var st := View();
      if Readable(View(), c) {
        ReadResponse(c.source, c.now);
        ResponseGridded(st, c);
        if anchor.Some? && !anchorConflict {
          var found := Derive();
          Merge(found, c.now);
        }
      }
      StaysGridded(st, c);
      status := DataStatusOf(c);
    }
  }

  // The walk, step by step.

  lemma ResponseGridded(st: SessionState, c: Call)
    requires Gridded(st) && WellFormed(c.source) && Readable(st, c)
    ensures Gridded(Ingest(st, c.source, c.now))
  {
    var st1 := IngestAnchor(st, c.source, c.now);
    CandlesGridded(st1, c.source.candles, c.now, c.source.session);
    assert st1.settled == st.settled && st1.day == st.day;
    CandlesFrame(st1, c.source.candles, c.now);
  }

  lemma StaysGridded(st: SessionState, c: Call)
    requires Gridded(st) && WellFormed(c.source)
    ensures Gridded(Next(st, c))
  {
    hide Ingest, Merged, Derived, Gridded, WellFormed, Judge;
    if Readable(st, c) {
      ResponseGridded(st, c);
    }
    ReadSettles(st, c);
    JudgeSettles(Read(st, c), c);
    SameSlotsGridded(if Readable(st, c) then Ingest(st, c.source, c.now) else st, Next(st, c));
  }

  lemma ReadSettles(st: SessionState, c: Call)
    ensures var st', r := Read(st, c), if Readable(st, c) then Ingest(st, c.source, c.now) else st;
      st'.settled == r.settled && st'.day == r.day
  {
    hide Ingest, Merged, Derived;
  }

  lemma JudgeSettles(st: SessionState, c: Call)
    ensures Judge(st, c).1.settled == st.settled && Judge(st, c).1.day == st.day
  {
    hide Covered, ExpectedLatest;
  }

  lemma SameSlotsGridded(st: SessionState, st': SessionState)
    requires Gridded(st) && st'.settled == st.settled && st'.day == st.day
    ensures Gridded(st')
  {
  }

  lemma {:induction false} CandlesGridded(st: SessionState, candles: seq<Candle>, now: int, day: int)
    requires Gridded(st) && st.day == day && forall c :: c in candles ==> OnGrid(day, c.time) && OpenOf(day) <= c.time
    ensures Gridded(IngestCandles(st, candles, now)) && IngestCandles(st, candles, now).day == day
  {
    if candles != [] {
      CandlesGridded(st, candles[..|candles| - 1], now, day);
    }
  }

  lemma WalkStart(st: SessionState, dir: Direction, times: seq<int>)
    requires st.anchor.Some?
    ensures Walked(st, dir, times, 0, [], false)
  {
  }

  lemma WalkActive(st: SessionState, dir: Direction, times: seq<int>, k: nat, found: seq<Found>, active: bool)
    requires st.anchor.Some? && k <= |times| && Walked(st, dir, times, k, found, active)
    ensures active ==> found != []
  {
  }

  /** A time at which nothing starts or ends, in no breakout. */
  lemma WalkPast(st: SessionState, dir: Direction, times: seq<int>, k: nat, found: seq<Found>, active: bool)
    requires st.anchor.Some? && k < |times| && Walked(st, dir, times, k, found, active)
    requires StrictlySorted(times) && !Crosses(st, dir, times[k])
    requires active ==> times[k] < RangeEnd(st.day)
    ensures Walked(st, dir, times, k + 1, found, active)
  {
    assert times[..k + 1] == times[..k] + [times[k]];
  }

  /** In a breakout, a close beyond the level neither ends it nor starts another. */
  lemma WalkOn(st: SessionState, dir: Direction, times: seq<int>, k: nat, found: seq<Found>)
    requires st.anchor.Some? && Gridded(st) && k < |times| && Walked(st, dir, times, k, found, true)
    requires StrictlySorted(times) && forall t :: t in times <==> t in st.settled
    requires Beyond(dir, st.settled[times[k]], Level(st, dir))
    ensures Walked(st, dir, times, k + 1, found, true)
  {
    var t, last := times[k], found[|found| - 1];
    assert times[..k + 1] == times[..k] + [t];
    if t - FIVE in st.settled {
      PreviousBeyond(st, dir, times, k, last);
    }
    assert !Crosses(st, dir, t);
  }

  /** In a breakout, the close five minutes ago is beyond the level too. */
  lemma PreviousBeyond(st: SessionState, dir: Direction, times: seq<int>, k: nat, last: Found)
    requires st.anchor.Some? && Gridded(st) && k < |times| && Lasts(st, last, times, k)
    requires StrictlySorted(times) && forall t :: t in times <==> t in st.settled
    requires last.id.direction == dir && Crosses(st, dir, last.id.crossing) && last.id.crossing in times[..k]
    requires times[k] - FIVE in st.settled
    ensures Beyond(dir, st.settled[times[k] - FIVE], Level(st, dir))
  {
    var t := times[k];
    var j :| 0 <= j < k && times[j] == last.id.crossing;
    var p :| 0 <= p < |times| && times[p] == t - FIVE;
    assert t in times && OnGrid(st.day, t) && OnGrid(st.day, last.id.crossing);
    assert p < k && last.id.crossing <= t - FIVE;
    assert last.id.crossing < times[p] ==> !IsBack(st, dir, last.id.crossing, times[p]);
  }

  lemma WalkEnd(st: SessionState, dir: Direction, times: seq<int>, k: nat, before: seq<Found>, found: seq<Found>)
    requires st.anchor.Some? && k < |times| && Walked(st, dir, times, k, before, true)
    requires StrictlySorted(times) && forall t :: t in times <==> t in st.settled
    requires !Beyond(dir, st.settled[times[k]], Level(st, dir))
    requires var last := before[|before| - 1];
      found == before[..|before| - 1] + [last.(d := last.d.(invalidatedAt := Some(times[k] + FIVE)))]
    ensures Walked(st, dir, times, k + 1, found, false)
  {
    hide Crosses, Beyond, IsFirstBack, RevisedInput, Ended, Lasts, FoundIn, StrictlySorted;
    var t, last := times[k], before[|before| - 1];
    assert times[..k + 1] == times[..k] + [t];
    LastEnded(st, dir, times, k, last);
    forall u | u in times[..k + 1] && Crosses(st, dir, u) ensures FoundIn(found, BreakoutId(dir, u)) {
      if u == t {
        StaysWithin(st, dir, t);
      }
      SameIdsFound(before, found, BreakoutId(dir, u));
    }
  }

  /** A close on the near side of the level is no crossing. */
  lemma StaysWithin(st: SessionState, dir: Direction, t: int)
    requires st.anchor.Some? && t in st.settled && !Beyond(dir, st.settled[t], Level(st, dir))
    ensures !Crosses(st, dir, t)
  {
  }

  lemma LastEnded(st: SessionState, dir: Direction, times: seq<int>, k: nat, last: Found)
    requires st.anchor.Some? && k < |times| && Lasts(st, last, times, k) && last.id.direction == dir
    requires last.id.crossing in times[..k]
    requires StrictlySorted(times) && forall t :: t in times <==> t in st.settled
    requires !Beyond(dir, st.settled[times[k]], Level(st, dir))
    ensures Ended(st, last.(d := last.d.(invalidatedAt := Some(times[k] + FIVE))))
  {
    FirstBackHere(st, dir, times, k, last);
  }

  /** The first close since the crossing to go back is this one. */
  lemma FirstBackHere(st: SessionState, dir: Direction, times: seq<int>, k: nat, last: Found)
    requires st.anchor.Some? && k < |times| && Lasts(st, last, times, k) && last.id.direction == dir
    requires last.id.crossing in times[..k]
    requires StrictlySorted(times) && forall t :: t in times <==> t in st.settled
    requires !Beyond(dir, st.settled[times[k]], Level(st, dir))
    ensures IsFirstBack(st, dir, last.id.crossing, times[k])
  {
    hide Beyond;
    var j :| 0 <= j < k && times[j] == last.id.crossing;
    assert times[k] in times;
    forall v | IsBack(st, dir, last.id.crossing, v) ensures times[k] <= v {
      assert v in times;
      var p :| 0 <= p < |times| && times[p] == v;
    }
  }

  lemma SameIdsFound(before: seq<Found>, found: seq<Found>, id: BreakoutId)
    requires |before| == |found| && forall i :: 0 <= i < |before| ==> found[i].id == before[i].id
    ensures FoundIn(before, id) ==> FoundIn(found, id)
  {
    if FoundIn(before, id) {
      var f :| f in before && f.id == id;
      var i :| 0 <= i < |before| && before[i] == f;
      assert found[i] in found;
    }
  }

  lemma WalkNew(st: SessionState, dir: Direction, times: seq<int>, k: nat, before: seq<Found>, f: Found)
    requires st.anchor.Some? && k < |times| && Walked(st, dir, times, k, before, false)
    requires StrictlySorted(times) && Crosses(st, dir, times[k])
    requires f == Found(BreakoutId(dir, times[k]), Derivation(RevisedInput(st, times[k]), None))
    ensures Walked(st, dir, times, k + 1, before + [f], true)
  {
    var found := before + [f];
    assert times[..k + 1] == times[..k] + [times[k]];
    forall u | u in times[..k + 1] && Crosses(st, dir, u) ensures FoundIn(found, BreakoutId(dir, u)) {
      if u == times[k] {
        assert f in found;
      } else {
        var g :| g in before && g.id == BreakoutId(dir, u);
        assert g in found;
      }
    }
    forall i | 0 <= i < |before| ensures before[i].id != f.id {
      var j :| 0 <= j < k && times[j] == before[i].id.crossing;
    }
  }

  lemma FirstBackIs(st: SessionState, dir: Direction, t: int, u: int)
    requires st.anchor.Some? && IsFirstBack(st, dir, t, u)
    ensures InvalidatedAt(st, dir, t) == Some(u + FIVE)
  {
    BackMeansEnded(st, dir, t, u);
  }

  lemma InDerived(st: SessionState, f: Found)
    requires st.anchor.Some? && Crosses(st, f.id.direction, f.id.crossing)
    requires f.d == Derivation(RevisedInput(st, f.id.crossing), InvalidatedAt(st, f.id.direction, f.id.crossing))
    ensures f.id in Derived(st) && Derived(st)[f.id] == f.d
  {
    hide InvalidatedAt, RevisedInput;
  }

  lemma EndedIsDerived(st: SessionState, f: Found)
    requires st.anchor.Some? && Crosses(st, f.id.direction, f.id.crossing) && Ended(st, f)
    requires f.d.revisedInput == RevisedInput(st, f.id.crossing)
    ensures f.id in Derived(st) && Derived(st)[f.id] == f.d
  {
    hide InvalidatedAt, Derived;
    var u :| IsFirstBack(st, f.id.direction, f.id.crossing, u) && f.d.invalidatedAt == Some(u + FIVE);
    FirstBackIs(st, f.id.direction, f.id.crossing, u);
    InDerived(st, f);
  }

  lemma LastingIsDerived(st: SessionState, f: Found, times: seq<int>)
    requires st.anchor.Some? && Crosses(st, f.id.direction, f.id.crossing) && Lasts(st, f, times, |times|)
    requires f.d.revisedInput == RevisedInput(st, f.id.crossing) && forall t :: t in times <==> t in st.settled
    ensures f.id in Derived(st) && Derived(st)[f.id] == f.d
  {
    forall u ensures !IsFirstBack(st, f.id.direction, f.id.crossing, u) {
      if u in times {
        var p :| 0 <= p < |times| && times[p] == u;
      }
    }
    assert InvalidatedAt(st, f.id.direction, f.id.crossing).None?;
    hide InvalidatedAt, Derived;
    InDerived(st, f);
  }

  /** At the end of the walk each find has the end its definition gives it. */
  lemma WalkedIsDerived(st: SessionState, dir: Direction, times: seq<int>, found: seq<Found>, active: bool, i: nat)
    requires st.anchor.Some? && Walked(st, dir, times, |times|, found, active) && i < |found|
    requires forall t :: t in times <==> t in st.settled
    ensures found[i].id in Derived(st) && Derived(st)[found[i].id] == found[i].d
  {
    hide Derived, Crosses, Ended, Lasts;
    if active && i == |found| - 1 {
      LastingIsDerived(st, found[i], times);
    } else {
      EndedIsDerived(st, found[i]);
    }
  }

  lemma WalksAreLists(st: SessionState, times: seq<int>, ups: seq<Found>, downs: seq<Found>)
    requires st.anchor.Some? && forall t :: t in times <==> t in st.settled
    requires exists active :: Walked(st, Up, times, |times|, ups, active)
    requires exists active :: Walked(st, Down, times, |times|, downs, active)
    ensures Lists(st, ups + downs, Derived(st))
  {
    var a :| Walked(st, Up, times, |times|, ups, a);
    var b :| Walked(st, Down, times, |times|, downs, b);
    var found := ups + downs;
    assert times[..|times|] == times;
    forall f | f in found ensures f.id in Derived(st) && Derived(st)[f.id] == f.d {
      if f in ups {
        var i :| 0 <= i < |ups| && ups[i] == f;
        WalkedIsDerived(st, Up, times, ups, a, i);
      } else {
        var i :| 0 <= i < |downs| && downs[i] == f;
        WalkedIsDerived(st, Down, times, downs, b, i);
      }
    }
    forall id | id in Derived(st) ensures FoundIn(found, id) {
      assert Crosses(st, id.direction, id.crossing);
      var g :| (g in ups || g in downs) && g.id == id;
      assert g in found;
    }
  }
}
