/**
 What one poll says of the recorded breakouts, said on candles, quotes and the clock alone: which crossing it shows,
 what becomes of an event, what a plan is worth, and when a horizon is decided.
 */
module ShadowAnswers {
  import opened Wrappers
  import opened ShadowEvents

  // Crossings.

  /** The market is open, and the latest candle of today ended within the last six and a half minutes. */
  predicate Current(p: Poll) {
    p.open && p.source.Some? && p.source.value.session == DayOf(p.now)
    && p.source.value.latest.time + 300000 <= p.now <= p.source.value.latest.time + 2 * 300000 + 90000
  }

  /** The last look, at most ninety seconds ago, saw the candle right before the latest one, and the same range. */
  predicate LookedBefore(c: Cursor, s: Source, now: int) {
    (c.session, c.high, c.low, c.completedAt) == (s.session, s.high, s.low, s.completedAt)
    && s.previous == Some(Candle(c.time, c.close)) && s.latest.time - c.time == 300000
    && c.observedAt.Some? && now <= c.observedAt.value + 90000
  }

  /** Down: from the low or above to below it; up: from the high or below to above it. */
  predicate Breaks(bullish: bool, before: int, after: int, s: Source) {
    if bullish then before <= s.high && after > s.high else before >= s.low && after < s.low
  }

  /** A poll shows a crossing exactly when it saw both candles and the close left the range between them. */
  lemma CrossingIff(cursor: Option<Cursor>, p: Poll)
    ensures forall id :: Crossing(cursor, p) == Some(id) <==>
      && Current(p) && cursor.Some? && LookedBefore(cursor.value, p.source.value, p.now)
      && var s := p.source.value;
      && Breaks(id.bullish, cursor.value.close, s.latest.close, s) && id.crossing == s.latest.time
      && (id.bullish ==> !Breaks(false, cursor.value.close, s.latest.close, s))
      && (id.session, id.completedAt, id.high, id.low) == (s.session, s.completedAt, s.high, s.low)
  {
  }

  /** Where the cursor stands after a poll: at the newest candle of the session, or cut off when nothing was seen. */
  lemma CursorIff(cursor: Option<Cursor>, p: Poll)
    ensures var next := NextCursor(cursor, p);
      if Current(p) then
        var s := p.source.value;
        if cursor.Some? && cursor.value.session == s.session && s.latest.time < cursor.value.time then next == cursor
        else
          var c := s.latest;
          next == Some(Cursor(s.session, s.high, s.low, s.completedAt, c.time, c.close, Some(p.now), p.now))
      else if cursor.Some? then next == Some(cursor.value.(observedAt := None, lastPollAt := p.now))
      else next == None
  {
  }

  /** The quotes of the poll, if the market is open and they are at most ninety seconds old. */
  function QuotesNow(p: Poll): map<string, Quote> {
    if p.open && p.quotesAt.Some? && p.quotesAt.value <= p.now <= p.quotesAt.value + 90000 then p.quotes else map[]
  }

  /** A contract begins with the plan of its tier, if that is of the crossing's side, and what it costs, if quoted. */
  predicate BeginsContract(cs: seq<Contract>, tier: Tier, bullish: bool, p: Poll) {
    if tier in p.candidates && p.candidates[tier].calls == bullish then
      var cost := Mark(p.candidates[tier].legs, QuotesNow(p), true);
      && |cs| == 1 && cs[0].tier == tier && cs[0].plan == p.candidates[tier] && cs[0].replacedAt == None
      && cs[0].samples == [] && cs[0].horizons == map[]
      && cs[0].entryMark == if cost.Some? && cost.value > 0 then cost else None
    else cs == []
  }

  /** A new event has the level it crossed and is followed for thirty minutes, but not beyond 15:30. */
  lemma NewEventIff(id: EventId, p: Poll)
    requires p.source.Some?
    ensures var s, e := p.source.value, NewEvent(id, p);
      && e.id == id && e.status == Confirmed && !e.complete && e.gapCount == 0 && e.detectedAt == p.now
      && e.level == (if id.bullish then s.high else s.low)
      && e.lastTime == s.latest.time && e.lastClose == s.latest.close && e.lastObservedAt == p.now
      && e.expiresAt <= p.now + 30 * 60000
      && e.expiresAt <= s.session * 86400000 - 19800000 + (15 * 60 + 30) * 60000
      && e.expiresAt in {p.now + 30 * 60000, s.session * 86400000 - 19800000 + (15 * 60 + 30) * 60000}
      && exists a, b, c :: e.contracts == a + b + c && BeginsContract(a, TierA, id.bullish, p)
           && BeginsContract(b, TierB, id.bullish, p) && BeginsContract(c, TierC, id.bullish, p)
  {
    hide Mark;
    assert BeginsContract(Opened(p, TierA, id.bullish), TierA, id.bullish, p);
    assert BeginsContract(Opened(p, TierB, id.bullish), TierB, id.bullish, p);
    assert BeginsContract(Opened(p, TierC, id.bullish), TierC, id.bullish, p);
  }

  // Events.

  /** The latest candle is of the event's window and its range. */
  predicate Covers(e: Event, p: Poll) {
    Current(p)
    && var s := p.source.value;
    (s.session, s.high, s.low, s.completedAt) == (e.id.session, e.id.high, e.id.low, e.id.completedAt)
    && s.latest.time + 300000 <= e.expiresAt
  }

  /** It is the next candle after the last one seen, without a gap, or that one again. */
  predicate Connects(e: Event, p: Poll)
    requires p.source.Some?
  {
    var s := p.source.value;
    if s.latest.time > e.lastTime then
      s.latest.time == e.lastTime + 300000 && s.previous == Some(Candle(e.lastTime, e.lastClose))
      && p.now <= e.lastObservedAt + 90000
    else s.latest.time == e.lastTime ==> s.latest.close == e.lastClose
  }

  /** A new close is no longer past the level. */
  predicate FellBack(e: Event, p: Poll)
    requires p.source.Some?
  {
    var s := p.source.value;
    s.latest.time > e.lastTime && if e.id.bullish then s.latest.close <= e.level else s.latest.close >= e.level
  }

  /**
   A confirmed event stays so until a candle is missed or changed, a close falls back, or its window ends; any other
   status is kept.
   */
  lemma StatusIff(e: Event, p: Poll, isNew: bool)
    requires !e.complete && (p.now > e.lastObservedAt || isNew)
    ensures var e' := Followed(e, p, isNew);
      && e'.status == (if e.status != Confirmed then e.status
                       else if !Covers(e, p) || !Connects(e, p) then Unknown
                       else if FellBack(e, p) then Invalidated
                       else if p.now >= e.expiresAt then Expired
                       else Confirmed)
      && e'.complete == (p.now >= e.expiresAt) && e'.lastObservedAt == p.now
      && e'.gapCount == e.gapCount + if p.now > e.lastObservedAt + 90000 then 1 else 0
  {
    hide WatchedAll;
  }

  // Marks.

  /** An option bought alone costs the ask and is left at the bid. */
  lemma LongMark(key: string, quotes: map<string, Quote>)
    ensures Mark([Leg(true, key)], quotes, true) == (if key in quotes then Some(quotes[key].ask) else None)
    ensures Mark([Leg(true, key)], quotes, false) == (if key in quotes then Some(quotes[key].bid) else None)
  {
    var legs := [Leg(true, key)];
    assert legs[..0] == [] && legs[0] in legs;
    assert forall l :: l in legs ==> l == legs[0];
    assert Worth([], quotes, true) == 0 && Worth([], quotes, false) == 0;
  }

  /** A spread costs the ask of what is bought less the bid of what is sold, and is left the other way round. */
  lemma SpreadMark(bought: string, sold: string, quotes: map<string, Quote>)
    ensures var legs := [Leg(true, bought), Leg(false, sold)];
      if bought in quotes && sold in quotes then
        && Mark(legs, quotes, true) == Some(quotes[bought].ask - quotes[sold].bid)
        && Mark(legs, quotes, false) == Some(quotes[bought].bid - quotes[sold].ask)
      else Mark(legs, quotes, true) == None && Mark(legs, quotes, false) == None
  {
    var legs := [Leg(true, bought), Leg(false, sold)];
    LongMark(bought, quotes);
    assert legs[..1] == [Leg(true, bought)] && legs[0] in legs && legs[1] in legs;
    assert forall l :: l in legs ==> l == legs[0] || l == legs[1];
  }

  // Horizons.

  /** What the poll knows of a contract: its gain at the quotes, within ninety seconds of the window and on its day. */
  function GainNow(c: Contract, e: Event, p: Poll): Option<int> {
    var exit := Mark(c.plan.legs, QuotesNow(p), false);
    if p.now <= e.expiresAt + 90000 && DayOf(p.now) == e.id.session && c.entryMark.Some? && exit.Some?
    then Some(exit.value - c.entryMark.value) else None
  }

  /** A horizon is decided once: as observed within ninety seconds of its time, or as missed when that is over. */
  predicate Decides(c: Contract, c': Contract, e: Event, p: Poll, minutes: int) {
    var due := e.detectedAt + minutes * 60000;
    if minutes in c.horizons then minutes in c'.horizons && c'.horizons[minutes] == c.horizons[minutes]
    else if p.now < due && p.now < e.expiresAt then minutes !in c'.horizons
    else
      && minutes in c'.horizons
      && (c'.horizons[minutes].Observed? <==>
          due <= e.expiresAt && due <= p.now <= due + 90000 && GainNow(c, e, p).Some?)
      && (c'.horizons[minutes].Observed? ==>
            c'.horizons[minutes].at == p.now && Some(c'.horizons[minutes].points) == GainNow(c, e, p))
  }

  /** What one decision leaves alone. */
  ghost predicate SameBut(c: Contract, c': Contract, minutes: int) {
    c'.plan == c.plan && c'.entryMark == c.entryMark
    && (forall m :: m != minutes ==> (m in c'.horizons <==> m in c.horizons))
    && forall m :: m != minutes && m in c.horizons && m in c'.horizons ==> c'.horizons[m] == c.horizons[m]
  }

  lemma OneDecides(c: Contract, e: Event, p: Poll, minutes: int)
    ensures var c' := Decided(c, e, p.now, ExitMark(c, e, p), minutes);
      Decides(c, c', e, p, minutes) && SameBut(c, c', minutes)
  {
    hide Mark;
  }

  lemma SameAnswers(c: Contract, d: Contract, c': Contract, d': Contract, e: Event, p: Poll, minutes: int)
    requires Decides(d, d', e, p, minutes) && d.plan == c.plan && d.entryMark == c.entryMark
    requires minutes in d.horizons <==> minutes in c.horizons
    requires minutes in c.horizons ==> d.horizons[minutes] == c.horizons[minutes]
    requires minutes in c'.horizons <==> minutes in d'.horizons
    requires minutes in d'.horizons ==> c'.horizons[minutes] == d'.horizons[minutes]
    ensures Decides(c, c', e, p, minutes)
  {
    hide Mark;
  }

  lemma HorizonIff(c: Contract, e: Event, p: Poll)
    ensures var c' := Watched(c, e, p);
      Decides(c, c', e, p, 5) && Decides(c, c', e, p, 15) && Decides(c, c', e, p, 30)
  {
    hide Decided, Decides, Mark, ExitMark;
    var exit := ExitMark(c, e, p);
    var d0 := Sampled(Replaced(c, p), e, p.now, exit);
    SampledSame(c, e, p);
    var d1 := Decided(d0, e, p.now, exit, 5);
    OneDecides(d0, e, p, 5);
    SameMark(d0, d1, e, p);
    var d2 := Decided(d1, e, p.now, exit, 15);
    OneDecides(d1, e, p, 15);
    SameMark(d1, d2, e, p);
    var d3 := Decided(d2, e, p.now, exit, 30);
    OneDecides(d2, e, p, 30);
    SameAnswers(c, d0, d3, d1, e, p, 5);
    SameAnswers(c, d1, d3, d2, e, p, 15);
    SameAnswers(c, d2, d3, d3, e, p, 30);
  }

  lemma SampledSame(c: Contract, e: Event, p: Poll)
    ensures var d := Sampled(Replaced(c, p), e, p.now, ExitMark(c, e, p));
      d.plan == c.plan && d.entryMark == c.entryMark && d.horizons == c.horizons
      && ExitMark(d, e, p) == ExitMark(c, e, p)
  {
    hide Mark;
  }

  lemma SameMark(c: Contract, d: Contract, e: Event, p: Poll)
    requires d.plan == c.plan
    ensures ExitMark(d, e, p) == ExitMark(c, e, p)
  {
  }
}
