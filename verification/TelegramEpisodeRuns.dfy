/** What the reducer's events say over any stream of observations, restarts and silences. */
module TelegramEpisodeRuns {
  import opened Wrappers
  import opened TelegramEpisodes

  // Episodes and events, as an automaton over the events alone.

  /**
   A ready event needs nothing active; an invalidation names what is active. Only an episode found running when
   observation began, and so never announced, may end without having started.
   */
  predicate Legal(active: Option<Episode>, events: seq<Event>)
    decreases |events|
  {
    events == [] ||
    match events[0]
    case ExecutionReady(e) => active.None? && Legal(Some(e), events[1..])
    case ReadyInvalidated(e, _) => (active == Some(e) || (active.None? && e.Baseline?)) && Legal(None, events[1..])
    case CollectorStale(_, _) => Legal(None, events[1..])
    case DailySummary(_) => Legal(active, events[1..])
  }

  function Replayed(active: Option<Episode>, events: seq<Event>): Option<Episode>
    decreases |events|
  {
    if events == [] then active
    else
      match events[0]
      case ExecutionReady(e) => Replayed(Some(e), events[1..])
      case ReadyInvalidated(_, _) => Replayed(None, events[1..])
      case CollectorStale(_, _) => Replayed(None, events[1..])
      case DailySummary(_) => Replayed(active, events[1..])
  }

  lemma {:induction false} LegalConcat(active: Option<Episode>, xs: seq<Event>, ys: seq<Event>)
    requires Legal(active, xs) && Legal(Replayed(active, xs), ys)
    ensures Legal(active, xs + ys) && Replayed(active, xs + ys) == Replayed(Replayed(active, xs), ys)
    decreases |xs|
  {
    if xs == [] {
      assert xs + ys == ys;
    } else {
      assert (xs + ys)[1..] == xs[1..] + ys;
      match xs[0]
      case ExecutionReady(e) => LegalConcat(Some(e), xs[1..], ys);
      case ReadyInvalidated(_, _) => LegalConcat(None, xs[1..], ys);
      case CollectorStale(_, _) => LegalConcat(None, xs[1..], ys);
      case DailySummary(_) => LegalConcat(active, xs[1..], ys);
    }
  }

  predicate Silent(active: Option<Episode>) {
    active.Some? && active.value.Baseline?
  }

  /** The events take the automaton from what was active to what is, unless that was never announced. */
  predicate Follows(start: Option<Episode>, events: seq<Event>, active: Option<Episode>) {
    Legal(start, events) && (active == Replayed(start, events) || (Replayed(start, events).None? && Silent(active)))
  }

  /** To the automaton, an unannounced episode is no different from none. */
  lemma {:induction false} SilentIsNone(active: Option<Episode>, events: seq<Event>)
    requires Silent(active) && Legal(active, events)
    ensures Legal(None, events)
    ensures Replayed(None, events) == Replayed(active, events)
      || (Replayed(None, events).None? && Replayed(active, events) == active)
    decreases |events|
  {
    if events != [] && events[0].DailySummary? {
      SilentIsNone(active, events[1..]);
    }
  }

  lemma FollowsThen(start: Option<Episode>, xs: seq<Event>, mid: Option<Episode>, ys: seq<Event>, end: Option<Episode>)
    requires Follows(start, xs, mid) && Follows(mid, ys, end)
    ensures Follows(start, xs + ys, end)
  {
    hide Legal, Replayed;
    if mid != Replayed(start, xs) {
      SilentIsNone(mid, ys);
    }
    LegalConcat(start, xs, ys);
  }

  lemma NothingFollows(active: Option<Episode>)
    ensures Follows(active, [], active)
  {
  }

  lemma OneFollows(active: Option<Episode>, e: Event)
    requires match e
      case ExecutionReady(_) => active.None?
      case ReadyInvalidated(x, _) => active == Some(x)
      case _ => true
    ensures Follows(active, [e],
      match e case ExecutionReady(x) => Some(x) case DailySummary(_) => active case _ => None)
  {
    assert [e][1..] == [];
  }

  // The reducer, stage by stage.

  lemma SummarizedFollows(s: State, c: Context)
    ensures var (s', es) := Summarized(s, c); s' == s.(daily := s'.daily) && Follows(s.active, es, s'.active)
  {
    NothingFollows(s.active);
    if s.daily.Some? {
      OneFollows(s.active, DailySummary(s.daily.value));
    }
  }

  lemma ObservedFollows(s: State, c: Context, o: Observation)
    ensures Follows(if Continuous(s, c, o) then s.active else None, Observed(s, c, o).1, Observed(s, c, o).0.active)
  {
    var start := if Continuous(s, c, o) then s.active else None;
    var (s', es) := Observed(s, c, o);
    var alert := ExecutionReady(Alert(o.at, o.identity));
    NothingFollows(start);
    OneFollows(None, alert);
    NothingFollows(None);
    if Ends(s, c, o) {
      var ended := ReadyInvalidated(s.active.value, if Changed(s, o) then ContractChanged else BackendGateEnded);
      OneFollows(start, ended);
      FollowsThen(start, [ended], None, if o.ready then [alert] else [],
        if o.ready then Some(Alert(o.at, o.identity)) else None);
      assert es == [ended] + if o.ready then [alert] else [];
    } else if Starts(s, c, o) {
      assert es == [alert];
    } else {
      assert es == [];
      hide Follows;
      SilentFollows(start, s'.active);
    }
  }

  lemma SilentFollows(start: Option<Episode>, active: Option<Episode>)
    requires active == start || (start.None? && Silent(active))
    ensures Follows(start, [], active)
  {
  }

  lemma WarnedFollows(s: State, c: Context)
    ensures var (s', es) := Warned(s, c); Follows(s.active, es, s'.active)
  {
    NothingFollows(s.active);
    if s.latest.Some? {
      OneFollows(s.active, CollectorStale(c.bootId, s.latest.value.at));
    }
  }

  lemma ShutFollows(s: State, c: Context)
    ensures var (s', es) := Shut(s, c); Follows(s.active, es, s'.active)
  {
    NothingFollows(s.active);
    if s.active.Some? {
      OneFollows(s.active, ReadyInvalidated(s.active.value, MarketClosed));
    }
  }

  /** The active episode outlives the call's own interruptions: the same process, and nothing missed. */
  predicate Kept(s: State, c: Context) {
    s.bootId == Some(c.bootId)
    && (c.observation.Some? && News(s, c.observation.value) ==> Continuous(s, c, c.observation.value))
  }

  /**
   One call: every invalidation ends exactly the episode active at that point, no ready event comes while one is
   active, and afterwards active is what the events say, or an episode that was never announced.
   */
  lemma AdvanceFollows(s: State, c: Context)
    ensures var (s', es) := Advance(s, c); Follows(if Kept(s, c) then s.active else None, es, s'.active)
  {
    var start := if Kept(s, c) then s.active else None;
    var (s1, e1) := RolledOver(Booted(s, c.bootId), c);
    SummarizedFollows(Booted(s, c.bootId), c);
    var (s2, e2) := Fed(s1, c);
    var (s3, e3) := Warned(s2, c);
    var (s4, e4) := Shut(s3, c);
    var (s5, e5) := Summarized(s4, c);
    assert Follows(start, e1, start) by {
      NothingFollows(start);
      SummaryAlone(s, c, start);
    }
    assert Follows(start, e2, s2.active) by {
      if c.observation.Some? && News(s1, c.observation.value) {
        ObservedFollows(s1, c, c.observation.value);
      } else {
        NothingFollows(start);
      }
    }
    WarnedFollows(s2, c);
    ShutFollows(s3, c);
    SummarizedFollows(s4, c);
    hide Follows, Warned, Shut, Summarized, Fed, RolledOver;
    FollowsThen(start, e1, start, e2, s2.active);
    FollowsThen(start, e1 + e2, s2.active, e3, s3.active);
    FollowsThen(start, e1 + e2 + e3, s3.active, e4, s4.active);
    FollowsThen(start, e1 + e2 + e3 + e4, s4.active, e5, s5.active);
  }

  lemma SummaryAlone(s: State, c: Context, start: Option<Episode>)
    ensures Follows(start, RolledOver(Booted(s, c.bootId), c).1, start)
  {
    NothingFollows(start);
    var b := Booted(s, c.bootId);
    if b.daily.Some? {
      OneFollows(start, DailySummary(b.daily.value));
    }
  }

  // Runs.

  ghost predicate Run(states: seq<State>, contexts: seq<Context>, outs: seq<seq<Event>>) {
    && |states| == |contexts| + 1 && |outs| == |contexts| && states[0] == Initial
    && forall i :: 0 <= i < |contexts| ==> (states[i + 1], outs[i]) == Advance(states[i], contexts[i])
  }

  /** An episode is no later than the latest observation, and there is a record of the day beside it. */
  predicate StateOk(s: State) {
    s.active.Some? ==> s.latest.Some? && s.active.value.at <= s.latest.value.at && s.daily.Some?
  }

  /** An episode of the past that is not active. */
  predicate Over(s: State, e: Episode) {
    s.latest.Some? && e.at <= s.latest.value.at && s.active != Some(e)
  }

  predicate Names(ev: Event, e: Episode) {
    match ev
    case ExecutionReady(x) => x == e
    case ReadyInvalidated(x, _) => x == e
    case _ => false
  }

  function Ended(events: seq<Event>): seq<Episode> {
    if events == [] then []
    else
      var ev := events[|events| - 1];
      Ended(events[..|events| - 1]) + if ev.ReadyInvalidated? then [ev.episode] else []
  }

  predicate NoRepeats(es: seq<Episode>) {
    forall i, j :: 0 <= i < j < |es| ==> es[i] != es[j]
  }

  /** What is over stays over and is not named again; what ends is over; what is active was so, or was announced. */
  ghost predicate Stage(s: State, s': State, events: seq<Event>) {
    && StateOk(s')
    && (forall e :: Over(s, e) ==> Over(s', e) && forall ev :: ev in events ==> !Names(ev, e))
    && (forall e :: e in Ended(events) ==> Over(s', e))
    && NoRepeats(Ended(events))
    && (forall e :: (e in Ended(events) || s'.active == Some(e)) && e.Alert? ==>
       s.active == Some(e) || ExecutionReady(e) in events)
  }

  lemma {:induction false} EndedConcat(xs: seq<Event>, ys: seq<Event>)
    ensures Ended(xs + ys) == Ended(xs) + Ended(ys)
  {
    if ys == [] {
      assert xs + ys == xs;
    } else {
      EndedConcat(xs, ys[..|ys| - 1]);
      assert (xs + ys)[..|xs + ys| - 1] == xs + ys[..|ys| - 1];
    }
  }

  lemma {:induction false} EndedNames(events: seq<Event>, e: Episode)
    requires e in Ended(events)
    ensures exists ev :: ev in events && Names(ev, e)
  {
    var init, ev := events[..|events| - 1], events[|events| - 1];
    assert events == init + [ev];
    if e in Ended(init) {
      EndedNames(init, e);
      var old' :| old' in init && Names(old', e);
      assert old' in events;
    } else {
      assert Names(ev, e) && ev in events;
    }
  }

  lemma StageThen(s: State, m: State, s': State, xs: seq<Event>, ys: seq<Event>)
    requires Stage(s, m, xs) && Stage(m, s', ys)
    ensures Stage(s, s', xs + ys)
  {
    hide Names, Over;
    EndedConcat(xs, ys);
    forall e | e in Ended(xs) ensures e !in Ended(ys) {
      if e in Ended(ys) {
        EndedNames(ys, e);
      }
    }
    var all := Ended(xs) + Ended(ys);
    forall i, j | 0 <= i < j < |all| ensures all[i] != all[j] {
      if i < |Ended(xs)| <= j {
        assert all[i] in Ended(xs) && all[j] in Ended(ys);
      }
    }
  }

  lemma OneEnded(ev: Event)
    ensures Ended([]) == [] && Ended([ev]) == if ev.ReadyInvalidated? then [ev.episode] else []
  {
    assert [ev][..0] == [];
  }

  lemma QuietStage(s: State, s': State, events: seq<Event>)
    requires StateOk(s) && s'.latest == s.latest && (s.daily.Some? ==> s'.daily.Some?)
    requires s'.active == s.active || s'.active.None?
    requires events == [] || (|events| == 1 && (events[0].DailySummary? || events[0].CollectorStale?))
    ensures Stage(s, s', events)
  {
    if events != [] {
      OneEnded(events[0]);
      assert events == [events[0]];
    }
  }

  lemma ShutStage(s: State, c: Context)
    requires StateOk(s)
    ensures Stage(s, Shut(s, c).0, Shut(s, c).1)
  {
    var (s', es) := Shut(s, c);
    if es == [] {
      QuietStage(s, s, []);
    } else {
      assert es == [ReadyInvalidated(s.active.value, MarketClosed)];
      EndingStage(s, s', es[0]);
    }
  }

  lemma EndingStage(s: State, s': State, ev: Event)
    requires StateOk(s) && ev.ReadyInvalidated? && s.active == Some(ev.episode)
    requires s'.latest == s.latest && s'.active.None? && s.latest.Some?
    ensures Stage(s, s', [ev])
  {
    OneEnded(ev);
  }

  lemma ObservedStage(s: State, c: Context, o: Observation)
    requires StateOk(s) && News(s, o)
    ensures Stage(s, Observed(s, c, o).0, Observed(s, c, o).1)
  {
    var (s', es) := Observed(s, c, o);
    var alert := ExecutionReady(Alert(o.at, o.identity));
    OneEnded(alert);
    if Ends(s, c, o) {
      var ended := ReadyInvalidated(s.active.value, if Changed(s, o) then ContractChanged else BackendGateEnded);
      OneEnded(ended);
      EndedConcat([ended], if Starts(s, c, o) then [alert] else []);
      assert Ended(es) == [s.active.value];
    } else {
      assert es == if Starts(s, c, o) then [alert] else [];
      assert Ended(es) == [];
    }
    hide Ended, Polled, DailyFor, Continuous, Changed;
    forall e | Over(s, e) ensures Over(s', e) && forall ev :: ev in es ==> !Names(ev, e) {
    }
  }

  /** Each call is a stage, made of five. */
  lemma AdvanceStage(s: State, c: Context)
    requires StateOk(s)
    ensures Stage(s, Advance(s, c).0, Advance(s, c).1)
  {
    hide Stage, Observed, Fed, Shut, StateOk;
    var b := Booted(s, c.bootId);
    var (s1, e1) := RolledOver(b, c);
    var (s2, e2) := Fed(s1, c);
    var (s3, e3) := Warned(s2, c);
    var (s4, e4) := Shut(s3, c);
    var (s5, e5) := Summarized(s4, c);
    QuietStage(s, b, []);
    QuietStage(b, s1, e1);
    StageThen(s, b, s1, [], e1);
    assert [] + e1 == e1;
    StageState(s, s1, e1);
    FedStage(s1, c);
    StageState(s1, s2, e2);
    QuietStage(s2, s3, e3);
    StageState(s2, s3, e3);
    ShutStage(s3, c);
    StageState(s3, s4, e4);
    QuietStage(s4, s5, e5);
    StageThen(s, s1, s2, e1, e2);
    StageThen(s, s2, s3, e1 + e2, e3);
    StageThen(s, s3, s4, e1 + e2 + e3, e4);
    StageThen(s, s4, s5, e1 + e2 + e3 + e4, e5);
  }

  lemma StageState(s: State, s': State, events: seq<Event>)
    requires Stage(s, s', events)
    ensures StateOk(s')
  {
  }

  lemma FedStage(s: State, c: Context)
    requires StateOk(s)
    ensures Stage(s, Fed(s, c).0, Fed(s, c).1)
  {
    if c.observation.Some? && News(s, c.observation.value) {
      ObservedStage(s, c, c.observation.value);
    } else {
      QuietStage(s, s, []);
    }
  }

  function Flat(outs: seq<seq<Event>>): seq<Event> {
    if outs == [] then [] else Flat(outs[..|outs| - 1]) + outs[|outs| - 1]
  }

  lemma {:induction false} RunStage(states: seq<State>, contexts: seq<Context>, outs: seq<seq<Event>>, i: nat)
    requires Run(states, contexts, outs) && i <= |contexts|
    ensures Stage(states[0], states[i], Flat(outs[..i])) && StateOk(states[i])
  {
    hide Advance, Stage;
    if i == 0 {
      QuietStage(Initial, Initial, []);
    } else {
      RunStage(states, contexts, outs, i - 1);
      AdvanceStage(states[i - 1], contexts[i - 1]);
      StageThen(states[0], states[i - 1], states[i], Flat(outs[..i - 1]), outs[i - 1]);
      assert outs[..i][..i - 1] == outs[..i - 1];
      StageState(states[0], states[i], Flat(outs[..i]));
    }
  }

  /** Over the whole stream no episode ends twice, and every announced kind of episode that ended was announced. */
  lemma EndsOnce(states: seq<State>, contexts: seq<Context>, outs: seq<seq<Event>>, i: nat)
    requires Run(states, contexts, outs) && i <= |contexts|
    ensures NoRepeats(Ended(Flat(outs[..i])))
    ensures forall e :: e in Ended(Flat(outs[..i])) && e.Alert? ==> ExecutionReady(e) in Flat(outs[..i])
  {
    RunStage(states, contexts, outs, i);
  }

  lemma {:induction false} OverForGood(states: seq<State>, contexts: seq<Context>, outs: seq<seq<Event>>, i: nat,
        j: nat, e: Episode)
    requires Run(states, contexts, outs) && i <= j <= |contexts| && Over(states[i], e)
    ensures Over(states[j], e)
  {
    if i < j {
      OverForGood(states, contexts, outs, i, j - 1, e);
      RunStage(states, contexts, outs, j - 1);
      AdvanceStage(states[j - 1], contexts[j - 1]);
      hide Advance;
    }
  }

  /** Once an episode was invalidated, its ready event is never sent any more, whatever the clock and the phase. */
  lemma EndedNeverDelivered(states: seq<State>, contexts: seq<Context>, outs: seq<seq<Event>>, i: nat, j: nat,
                            e: Episode, eventBoot: string, occurredAt: int, now: int, phase: Phase, boot: string)
    requires Run(states, contexts, outs) && i <= j <= |contexts| && e in Ended(Flat(outs[..i]))
    ensures !Deliverable(e, eventBoot, occurredAt, states[j], now, phase, boot)
  {
    RunStage(states, contexts, outs, i);
    OverForGood(states, contexts, outs, i, j, e);
  }

  // The daily counters.

  function Announced(events: seq<Event>): nat {
    if events == [] then 0 else Announced(events[..|events| - 1]) + if events[|events| - 1].ExecutionReady? then 1
      else 0
  }

  lemma {:induction false} AnnouncedConcat(xs: seq<Event>, ys: seq<Event>)
    ensures Announced(xs + ys) == Announced(xs) + Announced(ys)
  {
    if ys == [] {
      assert xs + ys == xs;
    } else {
      AnnouncedConcat(xs, ys[..|ys| - 1]);
      assert (xs + ys)[..|xs + ys| - 1] == xs + ys[..|ys| - 1];
    }
  }

  /** The call begins a new day's record. */
  predicate Begins(s: State, c: Context) {
    c.observation.Some? && News(s, c.observation.value) && NewDaily(s, c.observation.value)
  }

  /** The events since the record of the day was begun. */
  function Since(states: seq<State>, contexts: seq<Context>, outs: seq<seq<Event>>, i: nat): seq<Event>
    requires |states| == |contexts| + 1 && |outs| == |contexts| && i <= |contexts|
  {
    if i == 0 then []
    else if Begins(states[i - 1], contexts[i - 1]) then outs[i - 1]
    else Since(states, contexts, outs, i - 1) + outs[i - 1]
  }

  /** The counters moved by what the events say, from nothing if the record is new. */
  ghost predicate Counts(s: State, s': State, events: seq<Event>, renewed: bool) {
    if s'.daily.None? then Announced(events) == 0 && Ended(events) == [] && s.daily.None?
    else
      var ready, ended := if s.daily.None? || renewed then 0 else s.daily.value.readyAlerts,
                          if s.daily.None? || renewed then 0 else s.daily.value.invalidations;
      s'.daily.value.readyAlerts == ready + Announced(events) && s'.daily.value.invalidations == ended + |Ended(events)|
  }

  lemma OneAnnounced(ev: Event)
    ensures Announced([]) == 0 && Announced([ev]) == if ev.ExecutionReady? then 1 else 0
  {
    assert [ev][..0] == [];
  }

  lemma SummarizedCounts(s: State, c: Context)
    ensures Counts(s, Summarized(s, c).0, Summarized(s, c).1, false)
    ensures Announced(Summarized(s, c).1) == 0 && Ended(Summarized(s, c).1) == []
  {
    if s.daily.Some? {
      OneAnnounced(DailySummary(s.daily.value));
      OneEnded(DailySummary(s.daily.value));
    }
  }

  lemma ObservedCounts(s: State, c: Context, o: Observation)
    ensures Counts(s, Observed(s, c, o).0, Observed(s, c, o).1, NewDaily(s, o))
  {
    hide Ended, Announced, Continuous, Changed;
    var alert := ExecutionReady(Alert(o.at, o.identity));
    var ended := if Ends(s, c, o)
      then [ReadyInvalidated(s.active.value, if Changed(s, o) then ContractChanged else BackendGateEnded)] else [];
    var started := if Starts(s, c, o) then [alert] else [];
    OneAnnounced(alert);
    OneEnded(alert);
    if Ends(s, c, o) {
      OneAnnounced(ended[0]);
      OneEnded(ended[0]);
      assert ended == [ended[0]];
    }
    AnnouncedConcat(ended, started);
    EndedConcat(ended, started);
  }

  lemma WarnedCounts(s: State, c: Context)
    ensures Counts(s, Warned(s, c).0, Warned(s, c).1, false)
  {
    if s.latest.Some? {
      OneAnnounced(CollectorStale(c.bootId, s.latest.value.at));
      OneEnded(CollectorStale(c.bootId, s.latest.value.at));
    }
  }

  lemma ShutCounts(s: State, c: Context)
    requires StateOk(s)
    ensures Counts(s, Shut(s, c).0, Shut(s, c).1, false)
  {
    if s.active.Some? {
      OneAnnounced(ReadyInvalidated(s.active.value, MarketClosed));
      OneEnded(ReadyInvalidated(s.active.value, MarketClosed));
    }
  }

  lemma CountsThen(s: State, m: State, s': State, xs: seq<Event>, ys: seq<Event>, renewed: bool)
    requires Counts(s, m, xs, renewed) && Counts(m, s', ys, false)
    ensures Counts(s, s', xs + ys, renewed)
  {
    AnnouncedConcat(xs, ys);
    EndedConcat(xs, ys);
  }

  lemma FedCounts(s: State, c: Context)
    requires StateOk(s)
    ensures Counts(s, Fed(s, c).0, Fed(s, c).1, Begins(s, c)) && StateOk(Fed(s, c).0)
  {
    FedStage(s, c);
    if c.observation.Some? && News(s, c.observation.value) {
      ObservedCounts(s, c, c.observation.value);
    } else {
      NothingCounts(s);
    }
  }

  lemma NothingCounts(s: State)
    ensures Counts(s, s, [], false)
  {
  }

  /** Whatever the call does, the counters of the record it leaves moved by its events. */
  lemma AdvanceCounts(s: State, c: Context)
    requires StateOk(s)
    ensures Counts(s, Advance(s, c).0, Advance(s, c).1, Begins(s, c))
  {
    var b := Booted(s, c.bootId);
    var (s1, e1) := RolledOver(b, c);
    var (s2, e2) := Fed(s1, c);
    var (s3, e3) := Warned(s2, c);
    var (s4, e4) := Shut(s3, c);
    var (s5, e5) := Summarized(s4, c);
    SummarizedCounts(b, c);
    NothingCounts(b);
    FedCounts(s1, c);
    WarnedCounts(s2, c);
    ShutCounts(s3, c);
    SummarizedCounts(s4, c);
    FirstCounts(s, c);
    hide Counts, Fed, Warned, Shut, Summarized, RolledOver;
    CountsThen(s, s2, s3, e1 + e2, e3, Begins(s, c));
    CountsThen(s, s3, s4, e1 + e2 + e3, e4, Begins(s, c));
    CountsThen(s, s4, s5, e1 + e2 + e3 + e4, e5, Begins(s, c));
  }

  /** The roll-over emits at most a summary, so the first two stages count like the observation alone. */
  lemma FirstCounts(s: State, c: Context)
    requires StateOk(s)
    ensures var (s1, e1) := RolledOver(Booted(s, c.bootId), c);
      Counts(s, Fed(s1, c).0, e1 + Fed(s1, c).1, Begins(s, c))
  {
    var b := Booted(s, c.bootId);
    var (s1, e1) := RolledOver(b, c);
    SummarizedCounts(b, c);
    NothingCounts(b);
    assert Announced(e1) == 0 && Ended(e1) == [];
    assert Begins(s1, c) == Begins(s, c);
    FedCounts(s1, c);
    AnnouncedConcat(e1, Fed(s1, c).1);
    EndedConcat(e1, Fed(s1, c).1);
    hide Ended, Announced, Fed, Summarized;
    assert [] + Ended(Fed(s1, c).1) == Ended(Fed(s1, c).1);
  }

  /** The day's counters equal the events emitted since its record was begun. */
  lemma {:induction false} CountersEqualEvents(states: seq<State>, contexts: seq<Context>, outs: seq<seq<Event>>,
        i: nat)
    requires Run(states, contexts, outs) && i <= |contexts|
    ensures var d, since := states[i].daily, Since(states, contexts, outs, i);
      if d.None? then Announced(since) == 0 && Ended(since) == []
      else d.value.readyAlerts == Announced(since) && d.value.invalidations == |Ended(since)|
  {
    if i > 0 {
      CountersEqualEvents(states, contexts, outs, i - 1);
      RunStage(states, contexts, outs, i - 1);
      AdvanceCounts(states[i - 1], contexts[i - 1]);
      AnnouncedConcat(Since(states, contexts, outs, i - 1), outs[i - 1]);
      EndedConcat(Since(states, contexts, outs, i - 1), outs[i - 1]);
      hide Advance, Announced, Ended;
    }
  }
}
