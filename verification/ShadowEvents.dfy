/**
 Recording breakouts of the opening range for later study: each crossing once, followed until its window ends with
 sampled option marks. Prices and marks are integers of the smallest step; a hashed identity is the tuple hashed.
 */
module ShadowEvents {
  import opened Wrappers

  const FIVE := 300000
  const GAP := 90000
  const DAY_MS := 86400000
  const IST_OFFSET := 19800000
  const MINUTE := 60000
  const WINDOW := 30 * MINUTE
  const SESSION_END := 55800000
  const SAMPLE_LIMIT := 120

  datatype Candle = Candle(time: int, close: int)
  datatype Source = Source(session: int, high: int, low: int, completedAt: int, latest: Candle,
        previous: Option<Candle>)
  datatype Leg = Leg(buy: bool, instrument: string)
  datatype Plan = Plan(strategy: string, calls: bool, legs: seq<Leg>)
  datatype Quote = Quote(bid: int, ask: int)
  datatype Tier = TierA | TierB | TierC

  // candidates holds the tiers with a usable plan; quotesAt is None when the quotes carry no usable time.
  datatype Poll = Poll(
    now: int, open: bool, source: Option<Source>, candidates: map<Tier, Plan>, quotes: map<string, Quote>,
      quotesAt: Option<int>)

  datatype Cursor = Cursor(
    session: int, high: int, low: int, completedAt: int, time: int, close: int, observedAt: Option<int>,
      lastPollAt: int)

  datatype EventId = EventId(session: int, completedAt: int, high: int, low: int, bullish: bool, crossing: int)
  datatype Status = Confirmed | Invalidated | Unknown | Expired
  datatype Horizon = Observed(at: int, exit: int, points: int) | Missed
  datatype Sample = Sample(at: int, exit: Option<int>, points: Option<int>)

  datatype Contract = Contract(
    tier: Tier, plan: Plan, entryMark: Option<int>, replacedAt: Option<int>, samples: seq<Sample>, missingQuotes: nat,
    horizons: map<int, Horizon>, best: Option<int>, worst: Option<int>)

  datatype Event = Event(
    id: EventId, level: int, detectedAt: int, expiresAt: int, status: Status, lastTime: int, lastClose: int,
    lastObservedAt: int, gapCount: nat, complete: bool, contracts: seq<Contract>)

  function DayOf(t: int): int {
    (t + IST_OFFSET) / DAY_MS
  }

  /** 15:30 IST. */
  function CloseOf(session: int): int {
    session * DAY_MS - IST_OFFSET + SESSION_END
  }

  function Smaller(a: int, b: int): int {
    if a < b then a else b
  }

  function Larger(a: int, b: int): int {
    if a < b then b else a
  }

  predicate FreshSource(p: Poll) {
    p.open && p.source.Some? && p.source.value.session == DayOf(p.now)
    && p.source.value.latest.time + FIVE <= p.now && p.now - p.source.value.latest.time - FIVE <= FIVE + GAP
  }

  function UsableQuotes(p: Poll): map<string, Quote> {
    if p.open && p.quotesAt.Some? && p.quotesAt.value <= p.now && p.now - p.quotesAt.value <= GAP then p.quotes
      else map[]
  }

  /** What the legs are worth now, or cost at entry; nothing when a leg has no quote. */
  function Mark(legs: seq<Leg>, quotes: map<string, Quote>, entry: bool): Option<int> {
    if legs == [] || exists l :: l in legs && l.instrument !in quotes then None else Some(Worth(legs, quotes, entry))
  }

  function Worth(legs: seq<Leg>, quotes: map<string, Quote>, entry: bool): int
    requires forall l :: l in legs ==> l.instrument in quotes
  {
    if legs == [] then 0
    else
      var l := legs[|legs| - 1];
      var q := quotes[l.instrument];
      Worth(legs[..|legs| - 1], quotes, entry) +
      if l.buy then (if entry then q.ask else q.bid) else -(if entry then q.bid else q.ask)
  }

  // Crossings.

  predicate Comparable(c: Cursor, s: Source) {
    c.session == s.session && c.high == s.high && c.low == s.low && c.completedAt == s.completedAt
  }

  /** The candle before the latest is the one the cursor saw, and the look at it was recent. */
  predicate SeenThrough(c: Cursor, s: Source, now: int) {
    Comparable(c, s) && s.latest.time == c.time + FIVE && s.previous == Some(Candle(c.time, c.close))
    && c.observedAt.Some? && now - c.observedAt.value <= GAP
  }

  predicate CrossesUp(c: Cursor, s: Source) {
    c.close <= s.high < s.latest.close
  }

  predicate CrossesDown(c: Cursor, s: Source) {
    s.latest.close < s.low <= c.close
  }

  /** The crossing this poll shows, if it shows one. */
  function Crossing(cursor: Option<Cursor>, p: Poll): Option<EventId> {
    if !FreshSource(p) || cursor.None? || !SeenThrough(cursor.value, p.source.value, p.now) then None
    else
      var c, s := cursor.value, p.source.value;
      if CrossesDown(c, s) then Some(EventId(s.session, s.completedAt, s.high, s.low, false, s.latest.time))
      else if CrossesUp(c, s) then Some(EventId(s.session, s.completedAt, s.high, s.low, true, s.latest.time))
      else None
  }

  function Positive(m: Option<int>): Option<int> {
    if m.Some? && m.value > 0 then m else None
  }

  function Opened(p: Poll, tier: Tier, bullish: bool): seq<Contract> {
    if tier !in p.candidates || p.candidates[tier].calls != bullish then []
    else
      var plan := p.candidates[tier];
      [Contract(tier, plan, Positive(Mark(plan.legs, UsableQuotes(p), true)), None, [], 0, map[], None, None)]
  }

  function NewEvent(id: EventId, p: Poll): Event
    requires p.source.Some?
  {
    var s := p.source.value;
    Event(id, if id.bullish then s.high else s.low, p.now, Smaller(p.now + WINDOW, CloseOf(s.session)), Confirmed,
          s.latest.time, s.latest.close, p.now, 0, false,
          Opened(p, TierA, id.bullish) + Opened(p, TierB, id.bullish) + Opened(p, TierC, id.bullish))
  }

  function NextCursor(cursor: Option<Cursor>, p: Poll): Option<Cursor> {
    if FreshSource(p) then
      var s := p.source.value;
      if cursor.None? || cursor.value.session != s.session || s.latest.time >= cursor.value.time
      then Some(Cursor(s.session, s.high, s.low, s.completedAt, s.latest.time, s.latest.close, Some(p.now), p.now))
      else cursor
    // Continuity is broken; what was seen stays known.
    else if cursor.Some? then Some(cursor.value.(observedAt := None, lastPollAt := p.now))
    else None
  }

  // Following one event.

  predicate LostTrack(e: Event, s: Source, gap: bool) {
    gap || !(s.latest.time == e.lastTime + FIVE && s.previous == Some(Candle(e.lastTime, e.lastClose)))
  }

  predicate Back(e: Event, s: Source) {
    if e.id.bullish then s.latest.close <= e.level else s.latest.close >= e.level
  }

  /** The status after this poll, while the event was confirmed. */
  function Judged(e: Event, p: Poll, gap: bool): Event {
    if !FreshSource(p) || e.id.session != p.source.value.session || p.source.value.latest.time + FIVE > e.expiresAt
      then e.(status := Unknown)
    else
      var s := p.source.value;
      if s.high != e.id.high || s.low != e.id.low || s.completedAt != e.id.completedAt then e.(status := Unknown)
      else if s.latest.time > e.lastTime then
        e.(status := if LostTrack(e, s, gap) then Unknown else if Back(e, s) then Invalidated else Confirmed,
           lastTime := s.latest.time, lastClose := s.latest.close)
      else if s.latest.time == e.lastTime && s.latest.close != e.lastClose then e.(status := Unknown)
      else e
  }

  function PointsOf(c: Contract, exit: Option<int>): Option<int> {
    if exit.Some? && c.entryMark.Some? then Some(exit.value - c.entryMark.value) else None
  }

  /** A sample while the event's window is open, with the best and worst so far. */
  function Sampled(c: Contract, e: Event, now: int, exit: Option<int>): Contract {
    if now > e.expiresAt then c
    else
      var points := PointsOf(c, exit);
      c.(missingQuotes := c.missingQuotes + (if exit.None? then 1 else 0),
         samples := if |c.samples| < SAMPLE_LIMIT then c.samples + [Sample(now, exit, points)] else c.samples,
         best := if points.Some? then Some(Larger(if c.best.Some? then c.best.value else 0, points.value)) else c.best,
         worst := if points.Some? then Some(Smaller(if c.worst.Some? then c.worst.value else 0, points.value))
           else c.worst)
  }

  /** A horizon is decided once: at its time if a mark is there, or as missed when it is over or the window is. */
  function Decided(c: Contract, e: Event, now: int, exit: Option<int>, minutes: int): Contract {
    var due, points := e.detectedAt + minutes * MINUTE, PointsOf(c, exit);
    if minutes in c.horizons || (now < due && now < e.expiresAt) then c
    else if due <= e.expiresAt && due <= now && now - due <= GAP && points.Some?
      then c.(horizons := c.horizons[minutes := Observed(now, exit.value, points.value)])
    else c.(horizons := c.horizons[minutes := Missed])
  }

  /** The first poll that no longer proposes the same plan replaces it. */
  function Replaced(c: Contract, p: Poll): Contract {
    if c.replacedAt.None? && (c.tier !in p.candidates || p.candidates[c.tier] != c.plan)
      then c.(replacedAt := Some(p.now)) else c
  }

  /** The mark to leave at, a little beyond the window at most and never on another day. */
  function ExitMark(c: Contract, e: Event, p: Poll): Option<int> {
    if p.now <= e.expiresAt + GAP && DayOf(p.now) == e.id.session then Mark(c.plan.legs, UsableQuotes(p), false)
      else None
  }

  function DecidedAll(c: Contract, e: Event, now: int, exit: Option<int>): Contract {
    Decided(Decided(Decided(c, e, now, exit, 5), e, now, exit, 15), e, now, exit, 30)
  }

  function Watched(c: Contract, e: Event, p: Poll): Contract {
    var exit := ExitMark(c, e, p);
    DecidedAll(Sampled(Replaced(c, p), e, p.now, exit), e, p.now, exit)
  }

  function WatchedAll(cs: seq<Contract>, e: Event, p: Poll): seq<Contract> {
    seq(|cs|, i requires 0 <= i < |cs| => Watched(cs[i], e, p))
  }

  function Concluded(e: Event, now: int): Event {
    if now >= e.expiresAt then e.(complete := true, status := if e.status == Confirmed then Expired else e.status)
      else e
  }

  /** One poll for one event; isNew when this poll found it. */
  function Followed(e: Event, p: Poll, isNew: bool): Event {
    if e.complete || (p.now <= e.lastObservedAt && !isNew) then e
    else
      var gap := p.now - e.lastObservedAt > GAP;
      var counted := if gap then e.(gapCount := e.gapCount + 1) else e;
      var judged := if counted.status == Confirmed then Judged(counted, p, gap) else counted;
      Concluded(judged.(contracts := WatchedAll(judged.contracts, judged, p), lastObservedAt := p.now), p.now)
  }

  predicate Recorded(events: seq<Event>, id: EventId) {
    exists e :: e in events && e.id == id
  }

  function FollowedAll(events: seq<Event>, p: Poll, found: Option<EventId>): seq<Event> {
    seq(|events|, i requires 0 <= i < |events| => Followed(events[i], p, found == Some(events[i].id)))
  }

  /** The crossing that is new to the events given. */
  function Found(cursor: Option<Cursor>, events: seq<Event>, p: Poll): Option<EventId> {
    var id := Crossing(cursor, p);
    if id.Some? && !Recorded(events, id.value) then id else None
  }

  /** One poll: a new crossing is added, the cursor moves, and every event is followed. */
  function Advance(cursor: Option<Cursor>, events: seq<Event>, p: Poll): (Option<Cursor>, seq<Event>) {
    if cursor.Some? && cursor.value.lastPollAt >= p.now then (cursor, events)
    else
      var found := Found(cursor, events, p);
      var active := if found.Some? then events + [NewEvent(found.value, p)] else events;
      (NextCursor(cursor, p), FollowedAll(active, p, found))
  }

  /** The loop over the events and, inside it, over contracts and horizons. */
  method AdvanceEvents(cursor: Option<Cursor>, events: seq<Event>, p: Poll)
    returns (next: Option<Cursor>, active: seq<Event>)
    ensures (next, active) == Advance(cursor, events, p)
  {
    hide Followed, NewEvent;
    if cursor.Some? && cursor.value.lastPollAt >= p.now {
      return cursor, events;
    }
    active := events;
    var found := Found(cursor, events, p);
    if found.Some? {
      active := active + [NewEvent(found.value, p)];
    }
    next := NextCursor(cursor, p);
    ghost var before := active;
    var i := 0;
    while i < |active|
      invariant i <= |active| == |before|
      invariant forall j :: 0 <= j < i ==> active[j] == Followed(before[j], p, found == Some(before[j].id))
      invariant forall j :: i <= j < |active| ==> active[j] == before[j]
    {
      var e := FollowEvent(active[i], p, found == Some(active[i].id));
      active := active[i := e];
      i := i + 1;
    }
    assert active == FollowedAll(before, p, found);
  }

  method FollowEvent(event: Event, p: Poll, isNew: bool) returns (e: Event)
    ensures e == Followed(event, p, isNew)
  {
    hide Judged, Watched, Concluded;
    e := event;
    if e.complete || (p.now <= e.lastObservedAt && !isNew) {
      return;
    }
    var gap := p.now - e.lastObservedAt > GAP;
    if gap {
      e := e.(gapCount := e.gapCount + 1);
    }
    if e.status == Confirmed {
      e := Judged(e, p, gap);
    }
    ghost var judged := e;
    var cs, i := e.contracts, 0;
    while i < |cs|
      invariant i <= |cs| == |judged.contracts|
      invariant forall j :: 0 <= j < i ==> cs[j] == Watched(judged.contracts[j], judged, p)
      invariant forall j :: i <= j < |cs| ==> cs[j] == judged.contracts[j]
    {
      var c := WatchContract(cs[i], e, p);
      cs := cs[i := c];
      i := i + 1;
    }
    assert cs == WatchedAll(judged.contracts, judged, p);
    e := Concluded(e.(contracts := cs, lastObservedAt := p.now), p.now);
  }

  method WatchContract(contract: Contract, e: Event, p: Poll) returns (c: Contract)
    ensures c == Watched(contract, e, p)
  {
    hide Mark, Sampled, Decided;
    c := contract;
    if c.replacedAt.None? && (c.tier !in p.candidates || p.candidates[c.tier] != c.plan) {
      c := c.(replacedAt := Some(p.now));
    }
    var exit := None;
    if p.now <= e.expiresAt + GAP && DayOf(p.now) == e.id.session {
      exit := Mark(c.plan.legs, UsableQuotes(p), false);
    }
    c := Sampled(c, e, p.now, exit);
    var horizons, i := [5, 15, 30], 0;
    ghost var start := c;
    while i < 3
      invariant i <= 3 == |horizons| && horizons == [5, 15, 30]
      invariant i == 0 ==> c == start
      invariant i == 1 ==> c == Decided(start, e, p.now, exit, 5)
      invariant i == 2 ==> c == Decided(Decided(start, e, p.now, exit, 5), e, p.now, exit, 15)
      invariant i == 3 ==>
        c == Decided(Decided(Decided(start, e, p.now, exit, 5), e, p.now, exit, 15), e, p.now, exit, 30)
    {
      c := Decided(c, e, p.now, exit, horizons[i]);
      i := i + 1;
    }
    assert c == DecidedAll(start, e, p.now, exit);
  }
}
