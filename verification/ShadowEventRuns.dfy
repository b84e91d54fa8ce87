/** What the recorded events keep over any replay of polls. */
module ShadowEventRuns {
  import opened Wrappers
  import opened ShadowEvents

  // One event.

  /** Best and worst bound every sample that has points, and zero. */
  predicate Bounds(c: Contract) {
    && (c.best.Some? <==> c.worst.Some?) && (c.best.Some? ==> c.worst.value <= 0 <= c.best.value)
    && forall s :: s in c.samples && s.points.Some? ==> c.best.Some? && c.worst.value <= s.points.value <= c.best.value
  }

  predicate AllDecided(c: Contract) {
    5 in c.horizons && 15 in c.horizons && 30 in c.horizons
  }

  predicate EventOk(e: Event) {
    && (forall c :: c in e.contracts ==> Bounds(c))
    && (e.complete ==> e.status != Confirmed && forall c :: c in e.contracts ==> AllDecided(c))
  }

  /** The contract goes on: horizons decided stay as they are, samples are only added, the first replacement stays. */
  predicate Continues(c: Contract, d: Contract) {
    && d.tier == c.tier && d.plan == c.plan && d.entryMark == c.entryMark
    && (forall m :: m in c.horizons ==> m in d.horizons && d.horizons[m] == c.horizons[m])
    && c.samples <= d.samples && (c.replacedAt.Some? ==> d.replacedAt == c.replacedAt)
  }

  ghost predicate Follows(e: Event, f: Event) {
    && f.id == e.id && f.level == e.level && f.detectedAt == e.detectedAt && f.expiresAt == e.expiresAt
    && (e.status != Confirmed ==> f.status == e.status)
    && (e.complete ==> f == e)
    && |f.contracts| == |e.contracts| && forall i :: 0 <= i < |e.contracts| ==>
       Continues(e.contracts[i], f.contracts[i])
  }

  lemma SampledContinues(c: Contract, e: Event, now: int, exit: Option<int>)
    requires Bounds(c)
    ensures Bounds(Sampled(c, e, now, exit)) && Continues(c, Sampled(c, e, now, exit))
  {
  }

  lemma DecidedContinues(c: Contract, e: Event, now: int, exit: Option<int>, minutes: int)
    requires Bounds(c)
    ensures var d := Decided(c, e, now, exit, minutes);
      Bounds(d) && Continues(c, d) && (now >= e.expiresAt ==> minutes in d.horizons)
  {
  }

  lemma ContinuesThen(c: Contract, d: Contract, f: Contract)
    requires Continues(c, d) && Continues(d, f)
    ensures Continues(c, f)
  {
  }

  lemma ReplacedContinues(c: Contract, p: Poll)
    requires Bounds(c)
    ensures Bounds(Replaced(c, p)) && Continues(c, Replaced(c, p))
  {
  }

  lemma DecidedAllContinues(c: Contract, e: Event, now: int, exit: Option<int>)
    requires Bounds(c)
    ensures var d := DecidedAll(c, e, now, exit); Bounds(d) && Continues(c, d) && (now >= e.expiresAt ==> AllDecided(d))
  {
    hide Bounds, Decided;
    var c1 := Decided(c, e, now, exit, 5);
    var c2 := Decided(c1, e, now, exit, 15);
    DecidedContinues(c, e, now, exit, 5);
    DecidedContinues(c1, e, now, exit, 15);
    DecidedContinues(c2, e, now, exit, 30);
    ContinuesThen(c, c1, c2);
    ContinuesThen(c, c2, Decided(c2, e, now, exit, 30));
  }

  /** A watched contract goes on, and at the end of the window all three horizons are decided. */
  lemma WatchedContinues(c: Contract, e: Event, p: Poll)
    requires Bounds(c)
    ensures var d := Watched(c, e, p); Bounds(d) && Continues(c, d) && (p.now >= e.expiresAt ==> AllDecided(d))
  {
    hide Bounds, Continues, AllDecided, Replaced, Sampled, DecidedAll, ExitMark;
    var exit := ExitMark(c, e, p);
    var c0 := Replaced(c, p);
    var c1 := Sampled(c0, e, p.now, exit);
    ReplacedContinues(c, p);
    SampledContinues(c0, e, p.now, exit);
    DecidedAllContinues(c1, e, p.now, exit);
    ContinuesThen(c, c0, c1);
    ContinuesThen(c, c1, DecidedAll(c1, e, p.now, exit));
  }

  lemma JudgedKeeps(e: Event, p: Poll, gap: bool)
    ensures var f := Judged(e, p, gap);
      f == e.(status := f.status, lastTime := f.lastTime, lastClose := f.lastClose)
  {
  }

  /** The event as it stands once the poll's candle was judged. */
  function JudgedEvent(e: Event, p: Poll): Event {
    var gap := p.now - e.lastObservedAt > GAP;
    var counted := if gap then e.(gapCount := e.gapCount + 1) else e;
    if counted.status == Confirmed then Judged(counted, p, gap) else counted
  }

  lemma JudgedEventKeeps(e: Event, p: Poll)
    ensures var f := JudgedEvent(e, p);
      && f.id == e.id && f.level == e.level && f.detectedAt == e.detectedAt && f.expiresAt == e.expiresAt
      && f.contracts == e.contracts && f.complete == e.complete && (e.status != Confirmed ==> f.status == e.status)
  {
    hide Judged;
    var gap := p.now - e.lastObservedAt > GAP;
    JudgedKeeps(if gap then e.(gapCount := e.gapCount + 1) else e, p, gap);
  }

  lemma ConcludedOk(e: Event, judged: Event, watched: seq<Contract>, now: int)
    requires !e.complete && !judged.complete && |watched| == |e.contracts|
    requires judged.id == e.id && judged.level == e.level && judged.detectedAt == e.detectedAt
    requires judged.expiresAt == e.expiresAt
    requires e.status != Confirmed ==> judged.status == e.status
    requires forall i :: 0 <= i < |watched| ==>
      Bounds(watched[i]) && Continues(e.contracts[i], watched[i]) && (now >= e.expiresAt ==> AllDecided(watched[i]))
    ensures var f := Concluded(judged.(contracts := watched, lastObservedAt := now), now); EventOk(f) && Follows(e, f)
  {
    hide Bounds, Continues, AllDecided;
  }

  /**
   One poll: a status that is no longer confirmed is final but for the end of the window, and a finished event rests.
   */
  lemma FollowedOk(e: Event, p: Poll, isNew: bool)
    requires EventOk(e)
    ensures EventOk(Followed(e, p, isNew)) && Follows(e, Followed(e, p, isNew))
  {
    if e.complete || (p.now <= e.lastObservedAt && !isNew) {
      SelfFollows(e);
    } else {
      var judged := JudgedEvent(e, p);
      JudgedEventKeeps(e, p);
      hide JudgedEvent, Judged, Watched, Bounds, Continues, AllDecided, Concluded, Follows;
      var watched := WatchedAll(judged.contracts, judged, p);
      forall i | 0 <= i < |watched|
        ensures Bounds(watched[i]) && Continues(e.contracts[i], watched[i])
        ensures (p.now >= e.expiresAt ==> AllDecided(watched[i]))
      {
        assert judged.contracts[i] in e.contracts;
        WatchedContinues(judged.contracts[i], judged, p);
      }
      ConcludedOk(e, judged, watched, p.now);
      FollowedIs(e, p, isNew);
    }
  }

  lemma FollowedIs(e: Event, p: Poll, isNew: bool)
    requires !(e.complete || (p.now <= e.lastObservedAt && !isNew))
    ensures var judged := JudgedEvent(e, p);
      Followed(e, p, isNew)
        == Concluded(judged.(contracts := WatchedAll(judged.contracts, judged, p), lastObservedAt := p.now), p.now)
  {
    hide Judged, WatchedAll, Concluded;
  }

  lemma SelfFollows(e: Event)
    ensures Follows(e, e)
  {
  }

  // Everything ever recorded.

  /** All events in the table, finished or not; a poll reads only the unfinished ones. */
  datatype Table = Table(cursor: Option<Cursor>, events: seq<Event>)

  function Pending(events: seq<Event>): seq<Event> {
    if events == [] then []
    else Pending(events[..|events| - 1]) + if events[|events| - 1].complete then [] else [events[|events| - 1]]
  }

  /** The unfinished events are replaced by what they became, and a new one is added. */
  function Stored(events: seq<Event>, p: Poll, found: Option<EventId>): seq<Event> {
    var kept := FollowedAll(events, p, found);
    if found.Some? && p.source.Some? then kept + [Followed(NewEvent(found.value, p), p, true)] else kept
  }

  function AfterPoll(t: Table, p: Poll): Table {
    if t.cursor.Some? && t.cursor.value.lastPollAt >= p.now then t
    else Table(NextCursor(t.cursor, p), Stored(t.events, p, Found(t.cursor, Pending(t.events), p)))
  }

  lemma {:induction false} FollowedPending(events: seq<Event>, p: Poll, found: Option<EventId>)
    requires forall e :: e in events ==> found != Some(e.id)
    ensures FollowedAll(Pending(events), p, found) == PendingBefore(events, FollowedAll(events, p, found))
  {
    if events != [] {
      var init, e := events[..|events| - 1], events[|events| - 1];
      assert e in events;
      FollowedPending(init, p, found);
      assert FollowedAll(events, p, found)[..|init|] == FollowedAll(init, p, found);
      if !e.complete {
        assert FollowedAll(Pending(init) + [e], p, found) == FollowedAll(Pending(init), p, found)
          + [Followed(e, p, found == Some(e.id))];
      }
    }
  }

  /** What became of the events that were unfinished. */
  function PendingBefore(events: seq<Event>, later: seq<Event>): seq<Event>
    requires |events| == |later|
  {
    if events == [] then []
    else
      PendingBefore(events[..|events| - 1], later[..|later| - 1]) +
      if events[|events| - 1].complete then [] else [later[|later| - 1]]
  }

  /** The cursor is at or beyond every crossing of its session, and its session is the latest one. */
  predicate CursorLeads(t: Table) {
    && (t.cursor.Some? ==> t.cursor.value.session <= DayOf(t.cursor.value.lastPollAt))
    && forall e :: e in t.events ==>
         && t.cursor.Some?
         && (e.id.session < t.cursor.value.session
             || (e.id.session == t.cursor.value.session && e.id.crossing <= t.cursor.value.time))
  }

  ghost predicate UniqueIds(events: seq<Event>) {
    forall i, j :: 0 <= i < j < |events| ==> events[i].id != events[j].id
  }

  ghost predicate TableOk(t: Table) {
    CursorLeads(t) && UniqueIds(t.events) && forall e :: e in t.events ==> EventOk(e)
  }

  /** Within a session the cursor's candle never goes back; a new session is a later one. */
  lemma CursorMoves(cursor: Option<Cursor>, p: Poll)
    requires cursor.Some? ==> cursor.value.session <= DayOf(cursor.value.lastPollAt) && cursor.value.lastPollAt < p.now
    ensures var next := NextCursor(cursor, p);
      && (next.Some? ==> next.value.session <= DayOf(next.value.lastPollAt))
      && (cursor.Some? ==> next.Some?)
      && (cursor.Some? && cursor.value.session == next.value.session ==> cursor.value.time <= next.value.time)
      && (cursor.Some? ==> cursor.value.session <= next.value.session)
  {
    if cursor.Some? {
      assert DayOf(cursor.value.lastPollAt) <= DayOf(p.now);
    }
  }

  /** A crossing is one candle beyond the cursor, so it is none that was recorded before. */
  lemma CrossingIsNew(t: Table, p: Poll)
    requires CursorLeads(t) && Crossing(t.cursor, p).Some?
    ensures !Recorded(t.events, Crossing(t.cursor, p).value)
    ensures var id, next := Crossing(t.cursor, p).value, NextCursor(t.cursor, p);
      next.Some? && id.session == next.value.session && id.crossing == next.value.time && p.source.Some?
  {
  }

  lemma NewEventOk(id: EventId, p: Poll)
    requires p.source.Some?
    ensures EventOk(NewEvent(id, p)) && NewEvent(id, p).id == id
  {
    hide Opened, Bounds;
    OpenedOk(p, TierA, id.bullish);
    OpenedOk(p, TierB, id.bullish);
    OpenedOk(p, TierC, id.bullish);
  }

  lemma OpenedOk(p: Poll, tier: Tier, bullish: bool)
    ensures forall c :: c in Opened(p, tier, bullish) ==> Bounds(c)
  {
    hide Mark, UsableQuotes;
  }

  lemma StoredOk(t: Table, p: Poll, found: Option<EventId>)
    requires TableOk(t) && found == Found(t.cursor, Pending(t.events), p)
    ensures var events := Stored(t.events, p, found);
      && UniqueIds(events) && (forall e :: e in events ==> EventOk(e))
      && |t.events| <= |events| && (forall i :: 0 <= i < |t.events| ==> Follows(t.events[i], events[i]))
      && (forall i :: |t.events| <= i < |events| ==> found == Some(events[i].id))
  {
    hide Followed, EventOk, NewEvent, Crossing;
    var kept := FollowedAll(t.events, p, found);
    forall i | 0 <= i < |t.events| ensures EventOk(kept[i]) && Follows(t.events[i], kept[i]) {
      assert t.events[i] in t.events;
      FollowedOk(t.events[i], p, found == Some(t.events[i].id));
    }
    if found.Some? {
      CrossingIsNew(t, p);
      NewEventOk(found.value, p);
      FollowedOk(NewEvent(found.value, p), p, true);
      forall i | 0 <= i < |t.events| ensures kept[i].id != found.value {
        assert t.events[i] in t.events;
      }
    }
  }

  lemma PollOk(t: Table, p: Poll)
    requires TableOk(t)
    ensures TableOk(AfterPoll(t, p))
    ensures var later := AfterPoll(t, p).events;
      |t.events| <= |later| && forall i :: 0 <= i < |t.events| ==> Follows(t.events[i], later[i])
  {
    if t.cursor.Some? && t.cursor.value.lastPollAt >= p.now {
      forall i | 0 <= i < |t.events| ensures Follows(t.events[i], t.events[i]) {
        SelfFollows(t.events[i]);
      }
    } else {
      var found := Found(t.cursor, Pending(t.events), p);
      StoredOk(t, p, found);
      CursorMoves(t.cursor, p);
      hide Stored, EventOk, NextCursor, Crossing;
      var next := AfterPoll(t, p);
      forall e | e in next.events
        ensures next.cursor.Some?
        ensures e.id.session < next.cursor.value.session
                || (e.id.session == next.cursor.value.session && e.id.crossing <= next.cursor.value.time)
      {
        var i :| 0 <= i < |next.events| && next.events[i] == e;
        if i < |t.events| {
          assert Follows(t.events[i], next.events[i]) && t.events[i] in t.events;
        } else {
          CrossingIsNew(t, p);
        }
      }
    }
  }

  /** The table is what the poll's own result is written back to: no crossing it finds meets a row that is finished. */
  lemma PollIsAdvance(t: Table, p: Poll)
    requires TableOk(t) && !(t.cursor.Some? && t.cursor.value.lastPollAt >= p.now)
    ensures var (cursor, active) := Advance(t.cursor, Pending(t.events), p);
      && AfterPoll(t, p).cursor == cursor
      && active == PendingBefore(t.events, AfterPoll(t, p).events[..|t.events|]) + AfterPoll(t, p).events[|t.events|..]
  {
    hide Followed, NewEvent, Crossing, NextCursor, Pending, PendingBefore, CursorLeads, EventOk;
    var found := Found(t.cursor, Pending(t.events), p);
    FoundIsNew(t, p);
    FollowedPending(t.events, p, found);
    var kept := FollowedAll(t.events, p, found);
    if found.Some? {
      var e := NewEvent(found.value, p);
      NewEventOk(found.value, p);
      FollowedAppend(Pending(t.events), e, p, found);
      assert Stored(t.events, p, found)[..|t.events|] == kept;
      assert Stored(t.events, p, found)[|t.events|..] == [Followed(e, p, true)];
    } else {
      assert kept[..|t.events|] == kept && kept[|t.events|..] == [];
    }
  }

  lemma FoundIsNew(t: Table, p: Poll)
    requires TableOk(t)
    ensures var found := Found(t.cursor, Pending(t.events), p);
      && (found.Some? ==> p.source.Some?)
      && forall e :: e in t.events ==> found != Some(e.id)
  {
    hide Crossing, Pending;
    if Crossing(t.cursor, p).Some? {
      CrossingIsNew(t, p);
    }
  }

  lemma FollowedAppend(events: seq<Event>, e: Event, p: Poll, found: Option<EventId>)
    ensures FollowedAll(events + [e], p, found) == FollowedAll(events, p, found) + [Followed(e, p, found == Some(e.id))]
  {
    hide Followed;
  }

  // Replays.

  ghost predicate Replay(ts: seq<Table>, ps: seq<Poll>) {
    |ts| == |ps| + 1 && ts[0] == Table(None, []) && forall i :: 0 <= i < |ps| ==> ts[i + 1] == AfterPoll(ts[i], ps[i])
  }

  lemma {:induction false} ReplayOk(ts: seq<Table>, ps: seq<Poll>, i: nat)
    requires Replay(ts, ps) && i <= |ps|
    ensures TableOk(ts[i])
  {
    if i > 0 {
      hide TableOk, AfterPoll;
      ReplayOk(ts, ps, i - 1);
      PollOk(ts[i - 1], ps[i - 1]);
    }
  }

  /**
   Over any replay: no crossing is recorded twice, finished or not; best and worst bound every sample; and a finished
   event is confirmed no more and has all its horizons decided.
   */
  lemma RecordedOnce(ts: seq<Table>, ps: seq<Poll>, i: nat)
    requires Replay(ts, ps) && i <= |ps|
    ensures UniqueIds(ts[i].events)
    ensures forall e, c :: e in ts[i].events && c in e.contracts ==> Bounds(c) && (e.complete ==> AllDecided(c))
    ensures forall e :: e in ts[i].events && e.complete ==> e.status != Confirmed
  {
    ReplayOk(ts, ps, i);
  }

  lemma FollowsThen(e: Event, f: Event, g: Event)
    requires Follows(e, f) && Follows(f, g)
    ensures Follows(e, g)
  {
    forall i | 0 <= i < |e.contracts| ensures Continues(e.contracts[i], g.contracts[i]) {
      ContinuesThen(e.contracts[i], f.contracts[i], g.contracts[i]);
    }
  }

  /** What was recorded at one time goes on from there: no status comes back, no decided horizon is written again. */
  lemma {:induction false} RecordsGoOn(ts: seq<Table>, ps: seq<Poll>, i: nat, j: nat, k: nat)
    requires Replay(ts, ps) && i <= j <= |ps| && k < |ts[i].events|
    ensures k < |ts[j].events| && Follows(ts[i].events[k], ts[j].events[k])
  {
    if i == j {
      SelfFollows(ts[i].events[k]);
    } else {
      hide AfterPoll;
      RecordsGoOn(ts, ps, i, j - 1, k);
      ReplayOk(ts, ps, j - 1);
      PollOk(ts[j - 1], ps[j - 1]);
      FollowsThen(ts[i].events[k], ts[j - 1].events[k], ts[j].events[k]);
    }
  }
}
