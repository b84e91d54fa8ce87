/** The atomic store steps of one executor tick. Broker calls happen between them, outside any transaction. */
module SandboxService {
  import opened Wrappers
  import opened SandboxTypes
  import opened SandboxSpec
  import opened SandboxInvariant
  import opened SandboxSteps

  datatype TickInputs = TickInputs(
    book: seq<BookRow>,
    positions: Option<seq<Position>>,
    readAt: int,
    modelExit: Option<TradeId>,
    quotes: map<string, Quote>,
    decision: Decision,
    meta: Option<Meta>,
    allowed: bool)

  datatype Prepared = Prepared(state: State, archived: seq<ArchiveRow>, action: Option<Action>)

  const ARCHIVE_BATCH := 20

  /** Takes or renews the lease, unless another process holds one that has not run out. */
  function Acquire(s: State, worker: string, now: int): Option<State> {
    if s.lease.Some? && s.lease.value.owner != worker && s.lease.value.until > now then None
    else Some(Recover(s, worker).(lease := Some(Lease(worker, now + LEASE_MS))))
  }

  predicate Owns(s: State, worker: string) {
    s.lease.Some? && s.lease.value.owner == worker
  }

  predicate HoldsLease(s: State, worker: string, now: int) {
    Owns(s, worker) && s.lease.value.until > now
  }

  function PlanQuote(inputs: TickInputs): Option<Quote> {
    if inputs.decision.pick.Some? && inputs.decision.pick.value.signal.instrument in inputs.quotes
    then Some(inputs.quotes[inputs.decision.pick.value.signal.instrument]) else None
  }

  predicate EntryPending(s: State) {
    exists o :: o in s.orders && o.id.kind.EntryKind? && o.state == Queued
  }

  /** A fresh model decision to leave is one more reason to exit. */
  function Advised(s: State, inputs: TickInputs, now: int): State {
    if inputs.modelExit.Some? then RequestModelExit(s, inputs.modelExit.value, now) else s
  }

  function Planned(s: State, inputs: TickInputs, now: int): State {
    PlanEntry(s, inputs.decision, PlanQuote(inputs), inputs.meta, now).0
  }

  /**
   The main transaction of a tick: reconcile, archive, manage, plan and claim, all or nothing.
   A record with an order whose trade is missing would raise an error here; a sound one never does.
   */
  function PrepareTick(s: State, inputs: TickInputs, now: int): Result<Prepared, Error> {
    var reconciled :- Reconcile(s, inputs.book, inputs.positions, inputs.readAt);
    var (kept, rows) := Archive(reconciled, reconciled.trades, ARCHIVE_BATCH, now);
    var advised := Advised(kept, inputs, now);
    if !Manageable(advised) then Err(CorruptRecord)
    else
      var planned := Planned(ManageAll(advised, 0, inputs.quotes, now), inputs, now);
      if !EntriesHaveTrades(planned) then Err(CorruptRecord)
      else
        var (claimed, action) := Claim(planned, now, !EntryPending(planned) || inputs.allowed);
        Ok(Prepared(claimed, rows, action))
  }

  lemma AdvisedSound(s: State, inputs: TickInputs, now: int)
    requires Sound(s)
    ensures Sound(Advised(s, inputs, now)) && Manageable(Advised(s, inputs, now))
    ensures Quiet(s.orders, Advised(s, inputs, now).orders) && SameButReasons(s.trades, Advised(s, inputs, now).trades)
  {
    hide Sound, Quiet;
    QuietUnchanged(s);
    if inputs.modelExit.Some? {
      ModelExitSound(s, inputs.modelExit.value, now);
    }
    SoundIsManageable(Advised(s, inputs, now));
  }

  /** An entry whose conditions no longer hold is given up before it is sent. */
  function GiveUp(s: State, id: OrderId): Option<State> {
    var i := OrderIndex(s.orders, id);
    if i == |s.orders| then None
    else Some(s.(orders := s.orders[i := s.orders[i].(state := Expired)]))
  }

  /** The reply is recorded only by the process that still owns the lease; a refused transition changes nothing. */
  function Record(s: State, worker: string, a: Action, reply: Reply): State {
    if !Owns(s, worker) then s
    else match Finish(s, a, reply)
      case Ok(s') => s'
      case Err(_) => s
  }

  predicate Flat(s: State) {
    !AnyWorking(s.orders) && !AnyOpen(s.trades)
  }

  /** After any failure: halt, distrust the last reconciliation, and cancel a live entry. */
  function FailTick(s: State, worker: string, grace: bool, now: int): (State, Option<Action>) {
    if !Owns(s, worker) || (grace && Flat(s)) then (s, None)
    else ClaimEmergencyCancel(Halted(s, ServiceError).(reconciledAt := None), now)
  }
}
