/**
 Which events one call of the reducer emits, said on the state, the observation and the clock alone: exactly when each
 kind is emitted, and with which reason.
 */
module TelegramAnswers {
  import opened Wrappers
  import opened TelegramEpisodes

  predicate IsNew(s: State, c: Context) {
    c.observation.Some? && (s.latest.Some? ==> s.latest.value.at < c.observation.value.at)
  }

  /** The process is the one the state was kept by. */
  predicate SameProcess(s: State, c: Context) {
    s.bootId == Some(c.bootId)
  }

  /** The new observation follows the last one of its day within ninety seconds, and nothing was missed or reset. */
  predicate Unbroken(s: State, c: Context) {
    IsNew(s, c) && SameProcess(s, c) && !s.baselineRequired && !c.resetBaseline && s.latest.Some?
    && var o, last := c.observation.value, s.latest.value;
    o.coalesced == 0 && o.at <= last.at + 90000 && DayOf(o.at) == DayOf(last.at)
  }

  predicate OtherContract(s: State, c: Context) {
    s.latest.Some? && c.observation.Some? && s.latest.value.identity != c.observation.value.identity
  }

  /** The episode goes on: it is active, still ready, and of the same contract. */
  predicate GoesOn(s: State, c: Context) {
    Unbroken(s, c) && s.active.Some? && c.observation.value.ready && !OtherContract(s, c)
  }

  /** The episode active once the observation was taken. */
  function ActiveNow(s: State, c: Context): Option<Episode> {
    if !IsNew(s, c) then if SameProcess(s, c) then s.active else None
    else
      var o := c.observation.value;
      if !o.ready then None
      else if GoesOn(s, c) then s.active
      else Some(if Unbroken(s, c) then Alert(o.at, o.identity) else Baseline(c.bootId, o.at, o.identity))
  }

  /** The observation that is the latest once this one was taken. */
  function LatestNow(s: State, c: Context): Option<Observation> {
    if IsNew(s, c) then c.observation else s.latest
  }

  /** The market is open and nothing was observed for ninety seconds, which was not said yet. */
  predicate Stale(s: State, c: Context) {
    c.phase == OpenPhase && LatestNow(s, c).Some? && LatestNow(s, c).value.phase == OpenPhase
    && LatestNow(s, c).value.at + 90000 < c.now && c.startedAt + 90000 < c.now
    && (IsNew(s, c) || s.staleWarnedFor != Some(s.latest.value.at))
  }

  /** The market closed on an episode that observation without a break found or kept active. */
  predicate ClosedOn(s: State, c: Context, e: Episode) {
    c.phase == ClosedPhase && ActiveNow(s, c) == Some(e) && (IsNew(s, c) || !s.baselineRequired)
  }

  lemma SummaryOnly(s: State, c: Context)
    ensures var (s', es) := Summarized(s, c);
      s' == s.(daily := s'.daily) && forall ev :: ev in es ==> ev.DailySummary?
  {
  }

  /** One observation taken: the events of its own, and what it leaves. */
  lemma FedIs(s: State, c: Context)
    ensures var (s', es) := Fed(Booted(s, c.bootId), c);
      && s'.active == ActiveNow(s, c) && s'.latest == LatestNow(s, c)
      && s'.baselineRequired == (!IsNew(s, c) && (s.baselineRequired || !SameProcess(s, c)))
      && s'.staleWarnedFor == (if IsNew(s, c) then None else s.staleWarnedFor)
      && (forall e :: ExecutionReady(e) in es <==>
            Unbroken(s, c) && c.observation.value.ready && !GoesOn(s, c)
            && e == Alert(c.observation.value.at, c.observation.value.identity))
      && (forall e, why :: ReadyInvalidated(e, why) in es <==>
            Unbroken(s, c) && s.active == Some(e) && !GoesOn(s, c)
            && why == if OtherContract(s, c) then ContractChanged else BackendGateEnded)
      && (forall ev :: ev in es ==> ev.ExecutionReady? || ev.ReadyInvalidated?)
  {
    hide Polled, DailyFor;
  }

  lemma RolledOnly(s: State, c: Context)
    ensures var b, (s', es) := Booted(s, c.bootId), RolledOver(Booted(s, c.bootId), c);
      s' == b.(daily := s'.daily) && forall ev :: ev in es ==> ev.DailySummary?
  {
    hide Summarized;
    SummaryOnly(Booted(s, c.bootId), c);
  }

  /** The record of the day has no part in what an observation does to the rest. */
  lemma FedElsewhere(s: State, r: State, c: Context)
    requires r == s.(daily := r.daily)
    ensures Fed(r, c).1 == Fed(s, c).1 && Fed(r, c).0 == Fed(s, c).0.(daily := Fed(r, c).0.daily)
  {
    hide Polled, DailyFor;
  }

  /** Everything up to the summary at the end. */
  lemma MiddleIs(s: State, c: Context, s2: State)
    requires s2.active == ActiveNow(s, c) && s2.latest == LatestNow(s, c)
    requires s2.baselineRequired == (!IsNew(s, c) && (s.baselineRequired || !SameProcess(s, c)))
    requires s2.staleWarnedFor == if IsNew(s, c) then None else s.staleWarnedFor
    ensures var (s3, e3) := Warned(s2, c);
      var (s4, e4) := Shut(s3, c);
      && e3 == (if Stale(s, c) then [CollectorStale(c.bootId, LatestNow(s, c).value.at)] else [])
      && (forall e, why :: ReadyInvalidated(e, why) in e4 <==> why == MarketClosed && ClosedOn(s, c, e))
      && (forall ev :: ev in e4 ==> ev.ReadyInvalidated?)
  {
  }

  /**
   A ready event is emitted exactly for the episode an unbroken observation begins; an invalidation exactly for the one
   it ends, or that the market closes on, with its reason; a warning exactly when observations stopped.
   */
  lemma EventsIff(s: State, c: Context)
    ensures var es := Advance(s, c).1;
      && (forall e :: ExecutionReady(e) in es <==>
            Unbroken(s, c) && c.observation.value.ready && !GoesOn(s, c)
            && e == Alert(c.observation.value.at, c.observation.value.identity))
      && (forall e, why :: ReadyInvalidated(e, why) in es <==>
            || (Unbroken(s, c) && s.active == Some(e) && !GoesOn(s, c)
                && why == if OtherContract(s, c) then ContractChanged else BackendGateEnded)
            || (why == MarketClosed && ClosedOn(s, c, e)))
      && (forall boot, at :: CollectorStale(boot, at) in es <==>
            Stale(s, c) && boot == c.bootId && at == LatestNow(s, c).value.at)
  {
    hide Fed, Warned, Shut, Summarized, RolledOver, Booted, Unbroken, GoesOn, OtherContract, ClosedOn, Stale, ActiveNow;
    var b := Booted(s, c.bootId);
    var (s1, e1) := RolledOver(b, c);
    RolledOnly(s, c);
    FedIs(s, c);
    FedElsewhere(b, s1, c);
    var (s2, e2) := Fed(s1, c);
    MiddleIs(s, c, s2);
    var (s3, e3) := Warned(s2, c);
    var (s4, e4) := Shut(s3, c);
    var (s5, e5) := Summarized(s4, c);
    SummaryOnly(s4, c);
    assert Advance(s, c).1 == e1 + e2 + e3 + e4 + e5;
    assert forall ev :: ev in Advance(s, c).1 <==> ev in e1 || ev in e2 || ev in e3 || ev in e4 || ev in e5;
  }

  /** What the call leaves: the latest observation, the active episode, and whether observation begins anew. */
  lemma StateIff(s: State, c: Context)
    ensures var s' := Advance(s, c).0;
      && s'.bootId == Some(c.bootId) && s'.latest == LatestNow(s, c)
      && s'.active == (if Stale(s, c) || (ActiveNow(s, c).Some? && ClosedOn(s, c, ActiveNow(s, c).value)) then None
                       else ActiveNow(s, c))
      && s'.baselineRequired == (Stale(s, c) || (!IsNew(s, c) && (s.baselineRequired || !SameProcess(s, c))))
  {
    hide Fed, Summarized, RolledOver, Unbroken, GoesOn, OtherContract;
    var b := Booted(s, c.bootId);
    var s1 := RolledOver(b, c).0;
    RolledOnly(s, c);
    FedIs(s, c);
    FedBoot(b, c);
    FedElsewhere(b, s1, c);
    var s4 := Shut(Warned(Fed(s1, c).0, c).0, c).0;
    SummaryOnly(s4, c);
  }

  lemma FedBoot(s: State, c: Context)
    ensures Fed(s, c).0.bootId == s.bootId
  {
    hide Polled, DailyFor;
  }

  /** A summary was asked for, the day was observed open, its summary was not queued, and it is 15:45 of that day. */
  predicate Due(d: Daily, c: Context) {
    c.dailySummary && d.openPolls > 0 && !d.summaryQueued
    && c.now >= d.day * 86400000 - 19800000 + (15 * 60 + 45) * 60000
  }

  /** The observation is of another day than the record. */
  predicate RollsOver(s: State, c: Context) {
    c.observation.Some? && s.daily.Some? && s.daily.value.day != DayOf(c.observation.value.at)
  }

  /** Only due summaries are emitted, yesterday's before today's record begins, and none stays due. */
  lemma SummaryIff(s: State, c: Context)
    ensures var (s', es) := Advance(s, c);
      && (forall d :: DailySummary(d) in es ==> Due(d, c))
      && (s'.daily.Some? ==> !Due(s'.daily.value, c))
      && (RollsOver(s, c) && Due(s.daily.value, c) ==> DailySummary(s.daily.value) in es)
  {
    hide Fed, Warned, Shut, Due, Summarized;
    var b := Booted(s, c.bootId);
    var (s1, e1) := RolledOver(b, c);
    SummarizedIs(b, c);
    var (s2, e2) := Fed(s1, c);
    NoSummary(s1, s2, c);
    var (s3, e3) := Warned(s2, c);
    var (s4, e4) := Shut(s3, c);
    SummarizedIs(s4, c);
    var (s5, e5) := Summarized(s4, c);
    assert Advance(s, c).1 == e1 + e2 + e3 + e4 + e5;
    assert forall ev :: ev in Advance(s, c).1 <==> ev in e1 || ev in e2 || ev in e3 || ev in e4 || ev in e5;
  }

  lemma SummarizedIs(s: State, c: Context)
    ensures var (s', es) := Summarized(s, c);
      && (forall d :: DailySummary(d) in es <==> s.daily == Some(d) && Due(d, c))
      && (s'.daily.Some? ==> !Due(s'.daily.value, c))
  {
  }

  lemma NoSummary(s1: State, s2: State, c: Context)
    ensures forall d :: DailySummary(d) !in Fed(s1, c).1 && DailySummary(d) !in Warned(s2, c).1
    ensures forall d :: DailySummary(d) !in Shut(Warned(s2, c).0, c).1
  {
    hide Polled, DailyFor;
  }

  /** The day's record the observation is counted in: the one there is, or a new one on another day. */
  function RecordFor(s: State, day: int): Daily {
    if s.daily.Some? && s.daily.value.day == day then s.daily.value
    else Daily(day, 0, 0, 0, 0, 0, 0, None, None, false)
  }

  /** What one more poll while the market is open adds to the record of its day. */
  predicate Counts(d: Daily, d': Daily, o: Observation) {
    var gap := if d.lastObservedAt.Some? then o.at - d.lastObservedAt.value else 0;
    && d'.day == d.day && d'.openPolls == d.openPolls + 1 && d'.coalesced == d.coalesced + o.coalesced
    && d'.gapCount == d.gapCount + (if gap > 90000 || o.coalesced > 0 then 1 else 0)
    && d'.maxGapMs >= gap && d'.maxGapMs >= d.maxGapMs && d'.maxGapMs in {gap, d.maxGapMs}
    && d'.firstObservedAt == (if d.firstObservedAt.Some? then d.firstObservedAt else Some(o.at))
    && d'.lastObservedAt == Some(o.at)
  }

  predicate SamePolls(d: Daily, d': Daily) {
    (d'.day, d'.openPolls, d'.gapCount, d'.maxGapMs, d'.coalesced, d'.firstObservedAt, d'.lastObservedAt)
    == (d.day, d.openPolls, d.gapCount, d.maxGapMs, d.coalesced, d.firstObservedAt, d.lastObservedAt)
  }

  /** Every new observation while the market is open is counted once, in the record of its own day. */
  lemma PollsIff(s: State, c: Context)
    ensures var s' := Advance(s, c).0;
      if IsNew(s, c) then
        && s'.daily.Some?
        && var o, d := c.observation.value, RecordFor(s, DayOf(c.observation.value.at));
        if o.phase == OpenPhase then Counts(d, s'.daily.value, o) else SamePolls(d, s'.daily.value)
      else
        && (s'.daily.Some? <==> s.daily.Some?) && (s.daily.Some? ==> SamePolls(s.daily.value, s'.daily.value))
  {
    hide Warned, Shut, Summarized, Counts, SamePolls, Fed;
    var b := Booted(s, c.bootId);
    var s1 := RolledOver(b, c).0;
    SummaryPolls(b, c);
    var s2 := Fed(s1, c).0;
    FedPolls(s1, s, c);
    var s3 := Warned(s2, c).0;
    var s4 := Shut(s3, c).0;
    ShutPolls(s2, c);
    SummaryPolls(s4, c);
    PollsElsewhere();
  }

  ghost predicate PollsKept(s: State, s': State) {
    (s'.daily.Some? <==> s.daily.Some?) && (s.daily.Some? ==> SamePolls(s.daily.value, s'.daily.value))
  }

  lemma SummaryPolls(s: State, c: Context)
    ensures PollsKept(s, Summarized(s, c).0) && Summarized(s, c).0.latest == s.latest
  {
  }

  lemma ShutPolls(s: State, c: Context)
    ensures PollsKept(s, Shut(Warned(s, c).0, c).0)
  {
  }

  lemma PollsElsewhere()
    ensures forall d, e, f :: SamePolls(d, e) && SamePolls(e, f) ==> SamePolls(d, f)
    ensures forall d, e, f, o :: Counts(d, e, o) && SamePolls(e, f) ==> Counts(d, f, o)
  {
  }

  lemma FedPolls(r: State, s: State, c: Context)
    requires r.latest == s.latest && PollsKept(s, r)
    ensures var s' := Fed(r, c).0;
      if IsNew(s, c) then
        && s'.daily.Some?
        && var o, d := c.observation.value, RecordFor(s, DayOf(c.observation.value.at));
        if o.phase == OpenPhase then Counts(d, s'.daily.value, o) else SamePolls(d, s'.daily.value)
      else s'.daily == r.daily
  {
  }
}
