/**
 The V3 breakout tracker of one IST session, as functions on values: which five-minute closes count, which breakouts
 of the opening range they make, and when one may be entered.

 Times are milliseconds, prices are reals. Candles are named by their start.
 */
module BreakoutSpec {
  import opened Wrappers

  const FIVE := 300000
  const SETTLE_MS := 60000
  const CONFIRM_MS := 60000
  const ENTRY_FRESHNESS_MS := 600000
  const CHASE_FRACTION := 0.5
  const EPS := 0.005
  const DAY_MS := 86400000
  const IST_OFFSET := 19800000

  datatype Direction = Up | Down

  // Reading the provider's candles.

  datatype Raw = Raw(time: int, open: real, high: real, low: real, close: real)
  datatype Candle = Candle(time: int, close: real)
  datatype Source =
    | Unavailable
    | Source(session: int, high: real, low: real, completedAt: int, candles: seq<Candle>)

  function Session(t: int): int {
    (t + IST_OFFSET) / DAY_MS
  }

  /** 09:15 IST. */
  function OpenOf(day: int): int {
    day * DAY_MS + 13500000
  }

  /** 09:30 IST, the end of the opening range. */
  function RangeEnd(day: int): int {
    OpenOf(day) + 3 * FIVE
  }

  function MaxReal(a: real, b: real): real {
    if a < b then b else a
  }

  function MinReal(a: real, b: real): real {
    if a < b then a else b
  }

  /** A completed bar of the session that starts on a five-minute mark and is in order within itself. */
  predicate Usable(r: Raw, day: int, now: int) {
    && OpenOf(day) <= r.time < OpenOf(day) + 75 * FIVE && (r.time - OpenOf(day)) % FIVE == 0 && r.time + FIVE <= now
    && r.low > 0.0 && r.high >= MaxReal(MaxReal(r.open, r.close), r.low) && r.low <= MinReal(r.open, r.close)
  }

  function InsertByTime(rows: seq<Raw>, r: Raw): seq<Raw> {
    if rows == [] || rows[|rows| - 1].time <= r.time then rows + [r]
    else InsertByTime(rows[..|rows| - 1], r) + [rows[|rows| - 1]]
  }

  /** The usable bars by time; bars of the same time keep their order. */
  function UsableRows(raw: seq<Raw>, day: int, now: int): seq<Raw> {
    if raw == [] then []
    else
      var rest, r := UsableRows(raw[..|raw| - 1], day, now), raw[|raw| - 1];
      if Usable(r, day, now) then InsertByTime(rest, r) else rest
  }

  function Before(rows: seq<Raw>, end: int): seq<Raw> {
    if rows == [] then []
    else Before(rows[..|rows| - 1], end) + if rows[|rows| - 1].time < end then [rows[|rows| - 1]] else []
  }

  predicate DistinctTimes(rows: seq<Raw>) {
    forall i, j :: 0 <= i < j < |rows| ==> rows[i].time != rows[j].time
  }

  function HighOf(rows: seq<Raw>): real
    requires rows != []
  {
    if |rows| == 1 then rows[0].high else MaxReal(HighOf(rows[..|rows| - 1]), rows[|rows| - 1].high)
  }

  function LowOf(rows: seq<Raw>): real
    requires rows != []
  {
    if |rows| == 1 then rows[0].low else MinReal(LowOf(rows[..|rows| - 1]), rows[|rows| - 1].low)
  }

  function Candles(rows: seq<Raw>): seq<Candle> {
    seq(|rows|, i requires 0 <= i < |rows| => Candle(rows[i].time, rows[i].close))
  }

  /** The opening range and the completed candles, or nothing when the range is not whole. */
  function BuildSource(raw: seq<Raw>, now: int): Source {
    var day := Session(now);
    var rows := UsableRows(raw, day, now);
    var opening := Before(rows, RangeEnd(day));
    if !DistinctTimes(rows) || now < RangeEnd(day) || |opening| != 3 || HighOf(opening) <= LowOf(opening)
      then Unavailable
    else Source(day, HighOf(opening), LowOf(opening), RangeEnd(day), Candles(rows))
  }

  // The state of a session.

  datatype Anchor = Anchor(high: real, low: real, completedAt: int)
  datatype PendingAnchor = PendingAnchor(anchor: Anchor, firstAt: int)
  datatype Pending = Pending(close: real, firstAt: int)
  datatype Reason = CompletedCandleCrossing | CrossingCandleRevised | CloseBackThroughAnchor
  datatype BreakoutId = BreakoutId(direction: Direction, crossing: int)
  datatype Breakout = Breakout(level: real, detectedAt: int, confirmed: bool, reason: Reason,
        invalidatedAt: Option<int>)

  datatype SessionState = SessionState(
    day: int,
    anchor: Option<Anchor>,
    anchorPending: Option<PendingAnchor>,
    anchorConflict: bool,
    settled: map<int, real>,
    readCounts: map<int, nat>,
    pending: map<int, Pending>,
    revised: set<int>,
    trustAfter: Option<int>,
    breakouts: map<BreakoutId, Breakout>)

  function Fresh(day: int): SessionState {
    SessionState(day, None, None, false, map[], map[], map[], {}, None, map[])
  }

  predicate Apart(a: real, b: real) {
    a - b > EPS || b - a > EPS
  }

  // Reading the range.

  function AnchorOf(source: Source): Anchor
    requires source.Source?
  {
    Anchor(source.high, source.low, source.completedAt)
  }

  /** The range is frozen by a second reading a minute after the first that found it the same. */
  function IngestAnchor(st: SessionState, source: Source, now: int): SessionState
    requires source.Source?
  {
    var anchor := AnchorOf(source);
    if st.anchor.Some? then
      if anchor == st.anchor.value then st else st.(anchorConflict := true)
    else if now < anchor.completedAt + SETTLE_MS then st
    else if st.anchorPending.None? || st.anchorPending.value.anchor != anchor
      then st.(anchorPending := Some(PendingAnchor(anchor, now)))
    else if now - st.anchorPending.value.firstAt >= CONFIRM_MS
      then st.(anchor := Some(anchor), anchorPending := None)
    else st
  }

  // Reading candles.

  predicate TooFresh(c: Candle, now: int) {
    c.time + FIVE + SETTLE_MS > now
  }

  /** The read disagrees with a close that was settled. */
  predicate Revises(st: SessionState, c: Candle, now: int) {
    !TooFresh(c, now) && c.time in st.settled && Apart(st.settled[c.time], c.close)
  }

  function ReadsOf(st: SessionState, t: int): nat {
    if t in st.readCounts then st.readCounts[t] else 0
  }

  function IngestCandle(st: SessionState, c: Candle, now: int): SessionState {
    if TooFresh(c, now) then st
    else if c.time in st.settled then
      if Apart(st.settled[c.time], c.close)
      then st.(revised := st.revised + {c.time}, settled := st.settled[c.time := c.close],
        readCounts := st.readCounts[c.time := 1])
      else st.(readCounts := st.readCounts[c.time := ReadsOf(st, c.time) + 1])
    else if c.time !in st.pending || Apart(st.pending[c.time].close, c.close)
      then st.(pending := st.pending[c.time := Pending(c.close, now)])
    else if now - st.pending[c.time].firstAt >= CONFIRM_MS
      then st.(settled := st.settled[c.time := c.close], readCounts := st.readCounts[c.time := 2],
        pending := st.pending - {c.time})
    else st
  }

  function IngestCandles(st: SessionState, candles: seq<Candle>, now: int): SessionState {
    if candles == [] then st
    else IngestCandle(IngestCandles(st, candles[..|candles| - 1], now), candles[|candles| - 1], now)
  }

  /** Whether any candle of the list was revised on the way. */
  predicate AnyRevised(st: SessionState, candles: seq<Candle>, now: int) {
    candles != [] &&
    (AnyRevised(st, candles[..|candles| - 1], now)
     || Revises(IngestCandles(st, candles[..|candles| - 1], now), candles[|candles| - 1], now))
  }

  /** After a conflict, trust waits for a candle that starts later. */
  function NextStart(now: int): int {
    now / FIVE * FIVE + FIVE
  }

  function Ingest(st: SessionState, source: Source, now: int): SessionState
    requires source.Source?
  {
    var st1 := IngestAnchor(st, source, now);
    var st2 := IngestCandles(st1, source.candles, now);
    if AnyRevised(st1, source.candles, now) then st2.(trustAfter := Some(NextStart(now))) else st2
  }

  // Breakouts, by definition.

  predicate Beyond(dir: Direction, close: real, level: real) {
    if dir == Up then close > level else close < level
  }

  function Level(st: SessionState, dir: Direction): real
    requires st.anchor.Some?
  {
    if dir == Up then st.anchor.value.high else st.anchor.value.low
  }

  /** A settled close beyond the level right after a settled close that was not. */
  predicate Crosses(st: SessionState, dir: Direction, t: int)
    requires st.anchor.Some?
  {
    && RangeEnd(st.day) <= t && t in st.settled && t - FIVE in st.settled
    && !Beyond(dir, st.settled[t - FIVE], Level(st, dir)) && Beyond(dir, st.settled[t], Level(st, dir))
  }

  predicate IsBack(st: SessionState, dir: Direction, t: int, u: int)
    requires st.anchor.Some?
  {
    t < u && u in st.settled && !Beyond(dir, st.settled[u], Level(st, dir))
  }

  /** The first settled close after t that is not beyond the level. */
  ghost predicate IsFirstBack(st: SessionState, dir: Direction, t: int, u: int)
    requires st.anchor.Some?
  {
    IsBack(st, dir, t, u) && forall v :: IsBack(st, dir, t, v) ==> u <= v
  }

  ghost function InvalidatedAt(st: SessionState, dir: Direction, t: int): Option<int>
    requires st.anchor.Some?
  {
    if u :| IsFirstBack(st, dir, t, u) then Some(u + FIVE) else None
  }

  predicate RevisedInput(st: SessionState, t: int) {
    t in st.revised || t - FIVE in st.revised
  }

  datatype Derivation = Derivation(revisedInput: bool, invalidatedAt: Option<int>)

  function IdsOf(st: SessionState): set<BreakoutId> {
    (set t | t in st.settled :: BreakoutId(Up, t)) + (set t | t in st.settled :: BreakoutId(Down, t))
  }

  /** The breakouts of the settled closes, each with its end if it had one. */
  ghost function Derived(st: SessionState): map<BreakoutId, Derivation>
    requires st.anchor.Some?
  {
    map id | id in IdsOf(st) && Crosses(st, id.direction, id.crossing) ::
      Derivation(RevisedInput(st, id.crossing), InvalidatedAt(st, id.direction, id.crossing))
  }

  /** What a breakout found in the closes becomes; one that was once built on a revised close stays invalid. */
  function Updated(known: Option<Breakout>, d: Derivation, level: real, now: int): Breakout {
    var b := if known.Some? then known.value else Breakout(level, now, false, CompletedCandleCrossing, None);
    if known.Some? && !b.confirmed && b.reason == CrossingCandleRevised then b
    else if d.revisedInput then
      b.(confirmed := false, reason := CrossingCandleRevised,
         invalidatedAt := if b.invalidatedAt.Some? then b.invalidatedAt else Some(now))
    else if d.invalidatedAt.Some?
      then b.(confirmed := false, reason := CloseBackThroughAnchor, invalidatedAt := d.invalidatedAt)
    else b.(confirmed := true, reason := CompletedCandleCrossing)
  }

  /** A breakout that is no longer in the closes was never real. */
  function Dropped(b: Breakout, now: int): Breakout {
    if b.reason == CrossingCandleRevised then b
    else b.(confirmed := false, reason := CrossingCandleRevised, invalidatedAt := Some(now))
  }

  function Known(breakouts: map<BreakoutId, Breakout>, id: BreakoutId): Option<Breakout> {
    if id in breakouts then Some(breakouts[id]) else None
  }

  ghost function Merged(st: SessionState, derived: map<BreakoutId, Derivation>, now: int): map<BreakoutId, Breakout>
    requires st.anchor.Some?
  {
    map id | id in st.breakouts.Keys + derived.Keys ::
      if id in derived then Updated(Known(st.breakouts, id), derived[id], Level(st, id.direction), now)
      else Dropped(st.breakouts[id], now)
  }

  // Whether the data can be trusted.

  datatype DataStatus =
    | StatusOk | MarketClosed | DataUnavailable | AnchorRevised | IncompleteCandles | DataConflictUnresolved
    | CandleUnconfirmed

  /** The newest candle that must have been confirmed by now. */
  function ExpectedLatest(day: int, now: int): Option<int> {
    var k := (now - SETTLE_MS - CONFIRM_MS - FIVE - OpenOf(day)) / FIVE;
    if k < 0 then None else Some(OpenOf(day) + k * FIVE)
  }

  predicate HasCandle(candles: seq<Candle>, t: int) {
    exists c :: c in candles && c.time == t
  }

  predicate OnGrid(day: int, t: int) {
    (t - OpenOf(day)) % FIVE == 0
  }

  /** The response holds every candle from 09:15 through the newest that must have been confirmed. */
  predicate Covered(candles: seq<Candle>, day: int, now: int) {
    var last := ExpectedLatest(day, now);
    last.Some? && forall t :: OpenOf(day) <= t <= last.value && OnGrid(day, t) ==> HasCandle(candles, t)
  }

  predicate TrustRestored(st: SessionState, after: int) {
    exists t :: t in st.settled && after <= t && ReadsOf(st, t) >= 2 && t !in st.revised
  }

  // What one evaluation is given; the gates of the entry plan are arbitrary answers.
  datatype Gates = Gates(aligned: bool, spot: Option<real>, triggerReady: bool, priceReady: bool, liquidityReady: bool)
  datatype Call = Call(now: int, marketOpen: bool, source: Source, gates: Gates)

  predicate Readable(st: SessionState, c: Call) {
    c.marketOpen && c.source.Source? && c.source.session == st.day
  }

  /** Reads the response and brings the breakouts up to date, unless the frozen range was contradicted. */
  ghost function Read(st: SessionState, c: Call): SessionState {
    if !Readable(st, c) then st
    else
      var st' := Ingest(st, c.source, c.now);
      if st'.anchor.Some? && !st'.anchorConflict then st'.(breakouts := Merged(st', Derived(st'), c.now)) else st'
  }

  /** The status, and the state with trust restored if it was. */
  function Judge(st: SessionState, c: Call): (DataStatus, SessionState) {
    if !c.marketOpen then (MarketClosed, st)
    else if !Readable(st, c) then (DataUnavailable, st)
    else if st.anchorConflict then (AnchorRevised, st)
    else if !Covered(c.source.candles, st.day, c.now) then (IncompleteCandles, st)
    else if st.trustAfter.Some? && !TrustRestored(st, st.trustAfter.value) then (DataConflictUnresolved, st)
    else
      var st' := st.(trustAfter := None);
      var latest := ExpectedLatest(st.day, c.now);
      (if latest.Some? && latest.value !in st'.settled then CandleUnconfirmed else StatusOk, st')
  }

  ghost function Next(st: SessionState, c: Call): SessionState {
    Judge(Read(st, c), c).1
  }

  ghost function StatusAt(st: SessionState, c: Call): DataStatus {
    Judge(Read(st, c), c).0
  }

  /** The breakout of a direction that crossed last. */
  predicate IsLatest(st: SessionState, id: BreakoutId) {
    id in st.breakouts && forall other :: other in st.breakouts && other.direction == id.direction ==>
      other.crossing <= id.crossing
  }

  /** Spot's distance past the level. */
  function Distance(dir: Direction, spot: real, level: real): real {
    if dir == Up then spot - level else level - spot
  }

  datatype Blocker =
    | NoBlocker | BreakoutNotConfirmed | DataNotTrusted(status: DataStatus) | EntryWindowElapsed | RegimeNotAligned
    | PriceBackInsideRange | ChaseLimit | TriggerNotReady | PriceNotReady | LiquidityNotReady

  /** Why the latest breakout of its direction may not be entered now. */
  function BlockerOf(st: SessionState, status: DataStatus, id: BreakoutId, c: Call): Blocker
    requires id in st.breakouts && st.anchor.Some?
  {
    var b, anchor := st.breakouts[id], st.anchor.value;
    var latest := if status == StatusOk then ExpectedLatest(st.day, c.now) else None;
    if !b.confirmed then BreakoutNotConfirmed
    else if status != StatusOk then DataNotTrusted(status)
    else if c.now - (id.crossing + FIVE) > ENTRY_FRESHNESS_MS then EntryWindowElapsed
    else if !c.gates.aligned then RegimeNotAligned
    else if c.gates.spot.None? || Distance(id.direction, c.gates.spot.value, b.level) <= 0.0
      || latest.None? || latest.value !in st.settled || !Beyond(id.direction, st.settled[latest.value], b.level)
        then PriceBackInsideRange
    else if Distance(id.direction, c.gates.spot.value, b.level) > CHASE_FRACTION * (anchor.high - anchor.low)
      then ChaseLimit
    else if !c.gates.triggerReady then TriggerNotReady
    else if !c.gates.priceReady then PriceNotReady
    else if !c.gates.liquidityReady then LiquidityNotReady
    else NoBlocker
  }

  /** The evaluation says the breakout may be entered. */
  ghost predicate EntryReady(st: SessionState, c: Call, id: BreakoutId) {
    var after := Next(st, c);
    after.anchor.Some? && IsLatest(after, id) && BlockerOf(after, StatusAt(st, c), id, c) == NoBlocker
  }
}
