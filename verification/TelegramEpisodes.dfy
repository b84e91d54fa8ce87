/**
 The reducer that turns backend observations into Telegram events: ready episodes that start and end, a daily record
 with its counters, and a warning when observations stop. Times are milliseconds; a hashed identity is the tuple hashed.
 */
module TelegramEpisodes {
  import opened Wrappers

  const FRESH_MS := 90000
  const READY_TTL_MS := 45000
  const DAY_MS := 86400000
  const IST_OFFSET := 19800000
  const SUMMARY_AT := 56700000

  datatype Phase = OpenPhase | ClosedPhase | PreOpenPhase
  datatype Observation = Observation(at: int, phase: Phase, ready: bool, identity: string, coalesced: nat)

  // An announced episode, or one found running when observation began and never announced.
  datatype Episode = Alert(at: int, identity: string) | Baseline(bootId: string, at: int, identity: string)

  datatype Reason = ContractChanged | BackendGateEnded | MarketClosed

  datatype Daily = Daily(
    day: int, openPolls: nat, readyAlerts: nat, invalidations: nat, gapCount: nat, maxGapMs: int, coalesced: nat,
    firstObservedAt: Option<int>, lastObservedAt: Option<int>, summaryQueued: bool)

  datatype Event =
    | ExecutionReady(episode: Episode)
    | ReadyInvalidated(episode: Episode, reason: Reason)
    | CollectorStale(bootId: string, lastObservedAt: int)
    | DailySummary(daily: Daily)

  datatype State = State(
    bootId: Option<string>, baselineRequired: bool, active: Option<Episode>, latest: Option<Observation>,
    daily: Option<Daily>, staleWarnedFor: Option<int>)

  datatype Context = Context(
    observation: Option<Observation>, now: int, bootId: string, phase: Phase, startedAt: int, resetBaseline: bool,
      dailySummary: bool)

  const Initial := State(None, false, None, None, None, None)

  function DayOf(t: int): int {
    (t + IST_OFFSET) / DAY_MS
  }

  /** 15:45 IST. */
  function SummaryTime(day: int): int {
    day * DAY_MS - IST_OFFSET + SUMMARY_AT
  }

  function Booted(s: State, bootId: string): State {
    if s.bootId == Some(bootId) then s else s.(bootId := Some(bootId), baselineRequired := true, active := None)
  }

  function Summarized(s: State, c: Context): (State, seq<Event>) {
    if !c.dailySummary || s.daily.None? || s.daily.value.openPolls == 0 || s.daily.value.summaryQueued
       || c.now < SummaryTime(s.daily.value.day) then (s, [])
    else (s.(daily := Some(s.daily.value.(summaryQueued := true))), [DailySummary(s.daily.value)])
  }

  /** Yesterday's summary goes out before today's record replaces it. */
  function RolledOver(s: State, c: Context): (State, seq<Event>) {
    if c.observation.Some? && s.daily.Some? && s.daily.value.day != DayOf(c.observation.value.at) then Summarized(s, c)
      else (s, [])
  }

  predicate News(s: State, o: Observation) {
    s.latest.None? || o.at > s.latest.value.at
  }

  /** Nothing was missed since the last observation. */
  predicate Continuous(s: State, c: Context, o: Observation) {
    && !s.baselineRequired && !c.resetBaseline && o.coalesced == 0
    && s.latest.Some? && DayOf(s.latest.value.at) == DayOf(o.at) && o.at - s.latest.value.at <= FRESH_MS
  }

  predicate NewDaily(s: State, o: Observation) {
    s.daily.None? || s.daily.value.day != DayOf(o.at)
  }

  function DailyFor(s: State, o: Observation): Daily {
    if NewDaily(s, o) then Daily(DayOf(o.at), 0, 0, 0, 0, 0, 0, None, None, false) else s.daily.value
  }

  function Larger(a: int, b: int): int {
    if a < b then b else a
  }

  function Polled(d: Daily, o: Observation): Daily {
    if o.phase != OpenPhase then d
    else
      var gap := if d.lastObservedAt.Some? then o.at - d.lastObservedAt.value else 0;
      d.(gapCount := d.gapCount + (if gap > FRESH_MS || o.coalesced > 0 then 1 else 0),
        maxGapMs := Larger(d.maxGapMs, gap),
         openPolls := d.openPolls + 1, coalesced := d.coalesced + o.coalesced,
         firstObservedAt := if d.firstObservedAt.Some? then d.firstObservedAt
           else Some(o.at), lastObservedAt := Some(o.at))
  }

  predicate Changed(s: State, o: Observation) {
    s.latest.Some? && s.latest.value.identity != o.identity
  }

  predicate Ends(s: State, c: Context, o: Observation) {
    Continuous(s, c, o) && s.active.Some? && (!o.ready || Changed(s, o))
  }

  /** What is still active once the observation has ended what it ends. */
  function Carried(s: State, c: Context, o: Observation): Option<Episode> {
    if !Continuous(s, c, o) || Ends(s, c, o) then None else s.active
  }

  predicate Starts(s: State, c: Context, o: Observation) {
    o.ready && Carried(s, c, o).None? && Continuous(s, c, o)
  }

  function ActiveAfter(s: State, c: Context, o: Observation): Option<Episode> {
    if !o.ready then None
    else if Carried(s, c, o).Some? then Carried(s, c, o)
    else if Continuous(s, c, o) then Some(Alert(o.at, o.identity))
    else Some(Baseline(c.bootId, o.at, o.identity))
  }

  function Observed(s: State, c: Context, o: Observation): (State, seq<Event>) {
    var daily := Polled(DailyFor(s, o), o);
    var counted := daily.(invalidations := daily.invalidations + (if Ends(s, c, o) then 1 else 0),
                          readyAlerts := daily.readyAlerts + (if Starts(s, c, o) then 1 else 0));
    var ended := if Ends(s, c, o)
      then [ReadyInvalidated(s.active.value, if Changed(s, o) then ContractChanged else BackendGateEnded)] else [];
    var started := if Starts(s, c, o) then [ExecutionReady(Alert(o.at, o.identity))] else [];
    (State(s.bootId, false, ActiveAfter(s, c, o), Some(o), Some(counted), None), ended + started)
  }

  function Fed(s: State, c: Context): (State, seq<Event>) {
    if c.observation.Some? && News(s, c.observation.value) then Observed(s, c, c.observation.value) else (s, [])
  }

  /** Observations stopped while the market is open: warn once per last observation, and start over. */
  function Warned(s: State, c: Context): (State, seq<Event>) {
    if s.latest.Some? && s.latest.value.phase == OpenPhase && c.phase == OpenPhase && c.now - c.startedAt > FRESH_MS
       && c.now - s.latest.value.at > FRESH_MS && s.staleWarnedFor != Some(s.latest.value.at)
    then (s.(staleWarnedFor := Some(s.latest.value.at), active := None, baselineRequired := true),
          [CollectorStale(c.bootId, s.latest.value.at)])
    else (s, [])
  }

  /** The market closed on an active episode. */
  function Shut(s: State, c: Context): (State, seq<Event>) {
    if c.phase == ClosedPhase && s.active.Some? && !s.baselineRequired
    then (s.(active := None,
             daily := if s.daily.Some? then Some(s.daily.value.(invalidations := s.daily.value.invalidations + 1))
               else None),
          [ReadyInvalidated(s.active.value, MarketClosed)])
    else (s, [])
  }

  function Advance(s: State, c: Context): (State, seq<Event>) {
    var (s1, e1) := RolledOver(Booted(s, c.bootId), c);
    var (s2, e2) := Fed(s1, c);
    var (s3, e3) := Warned(s2, c);
    var (s4, e4) := Shut(s3, c);
    var (s5, e5) := Summarized(s4, c);
    (s5, e1 + e2 + e3 + e4 + e5)
  }

  /** Whether a ready event may still be sent: it has to be the active episode of fresh observations. */
  predicate Deliverable(episode: Episode, eventBoot: string, occurredAt: int, s: State, now: int, phase: Phase,
        bootId: string)
  {
    && now < occurredAt + READY_TTL_MS && occurredAt <= now + 5000
    && eventBoot == bootId && s.bootId == Some(bootId) && phase == OpenPhase
    && s.latest.Some? && s.latest.value.ready && s.active == Some(episode)
       && s.latest.value.identity == episode.identity
    && now - s.latest.value.at <= READY_TTL_MS
  }

  /** The reducer as it runs: one state cloned and changed, events pushed as they arise. */
  class Reducer {
    var bootId: Option<string>
    var baselineRequired: bool
    var active: Option<Episode>
    var latest: Option<Observation>
    var daily: Option<Daily>
    var staleWarnedFor: Option<int>
    var events: seq<Event>

    function View(): State
      reads this
    {
      State(bootId, baselineRequired, active, latest, daily, staleWarnedFor)
    }

    constructor (s: State)
      ensures View() == s && events == []
    {
      bootId, baselineRequired, active, latest := s.bootId, s.baselineRequired, s.active, s.latest;
      daily, staleWarnedFor, events := s.daily, s.staleWarnedFor, [];
    }

    method SummaryDue(c: Context)
      modifies this
      ensures View() == Summarized(old(View()), c).0 && events == old(events) + Summarized(old(View()), c).1
    {
      if !c.dailySummary || daily.None? || daily.value.openPolls == 0 || daily.value.summaryQueued
         || c.now < SummaryTime(daily.value.day) {
        return;
      }
      events := events + [DailySummary(daily.value)];
      daily := Some(daily.value.(summaryQueued := true));
    }

    /** The day's record begins with its first observation. */
    method Tally(o: Observation)
      modifies this
      ensures View() == old(View()).(daily := Some(Polled(DailyFor(old(View()), o), o))) && events == old(events)
    {
      hide Polled;
      if daily.None? || daily.value.day != DayOf(o.at) {
        daily := Some(Daily(DayOf(o.at), 0, 0, 0, 0, 0, 0, None, None, false));
      }
      daily := Some(Polled(daily.value, o));
    }

    method Observe(c: Context, o: Observation)
      modifies this
      ensures View() == Observed(old(View()), c, o).0 && events == old(events) + Observed(old(View()), c, o).1
    {
      hide Polled, DailyFor, Continuous, Changed;
      var continuous, changed := Continuous(View(), c, o), Changed(View(), o);
      Tally(o);
      if continuous && active.Some? && (!o.ready || changed) {
        events := events + [ReadyInvalidated(active.value, if changed then ContractChanged else BackendGateEnded)];
        daily := Some(daily.value.(invalidations := daily.value.invalidations + 1));
        active := None;
      }
      if !continuous {
        active := None;
      }
      if o.ready && active.None? {
        if continuous {
          active := Some(Alert(o.at, o.identity));
          events := events + [ExecutionReady(active.value)];
          daily := Some(daily.value.(readyAlerts := daily.value.readyAlerts + 1));
        } else {
          active := Some(Baseline(c.bootId, o.at, o.identity));
        }
      }
      if !o.ready {
        active := None;
      }
      latest, baselineRequired, staleWarnedFor := Some(o), false, None;
    }

    method Boot(boot: string)
      modifies this
      ensures View() == Booted(old(View()), boot) && events == old(events)
    {
      if bootId != Some(boot) {
        bootId, baselineRequired, active := Some(boot), true, None;
      }
    }

    method WarnStale(c: Context)
      modifies this
      ensures View() == Warned(old(View()), c).0 && events == old(events) + Warned(old(View()), c).1
    {
      if latest.Some? && latest.value.phase == OpenPhase && c.phase == OpenPhase && c.now - c.startedAt > FRESH_MS
         && c.now - latest.value.at > FRESH_MS && staleWarnedFor != Some(latest.value.at) {
        events := events + [CollectorStale(c.bootId, latest.value.at)];
        staleWarnedFor, active, baselineRequired := Some(latest.value.at), None, true;
      }
    }

    method CloseMarket(c: Context)
      modifies this
      ensures View() == Shut(old(View()), c).0 && events == old(events) + Shut(old(View()), c).1
    {
      if c.phase == ClosedPhase && active.Some? && !baselineRequired {
        events := events + [ReadyInvalidated(active.value, MarketClosed)];
        active := None;
        if daily.Some? {
          daily := Some(daily.value.(invalidations := daily.value.invalidations + 1));
        }
      }
    }

    method Take(c: Context)
      modifies this
      ensures View() == Advance(old(View()), c).0
      ensures events == old(events) + Advance(old(View()), c).1
    {
      hide Observed, Summarized, Warned, Shut, Booted, News;
      Boot(c.bootId);
      if c.observation.Some? && daily.Some? && daily.value.day != DayOf(c.observation.value.at) {
        SummaryDue(c);
      }
      if c.observation.Some? && News(View(), c.observation.value) {
        Observe(c, c.observation.value);
      }
      WarnStale(c);
      CloseMarket(c);
      SummaryDue(c);
    }
  }
}
