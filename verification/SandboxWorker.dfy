/**
 One executor process: its tick as successive transactions on the store, each on a fresh copy of the record that is
 kept only if the transaction goes through. Broker calls happen between them, and their replies are passed in.
 */
module SandboxWorkers {
  import opened Wrappers
  import opened SandboxTypes
  import opened SandboxSpec
  import opened SandboxInvariant
  import opened SandboxService
  import opened SandboxStores
  import opened Sandboxes

  /** Just before an entry is sent everything that allowed it is asked again. */
  function Recheck(s: State, worker: string, id: OrderId, allowed: bool): (State, bool) {
    if s.killed || !s.armed || !Owns(s, worker) || !allowed then
      (if GiveUp(s, id).Some? then GiveUp(s, id).value else s, false)
    else (s, true)
  }

  class SandboxWorker {
    const bootId: string
    const store: SandboxStore

    constructor (bootId: string, store: SandboxStore)
      ensures this.bootId == bootId && this.store == store
    {
      this.bootId, this.store := bootId, store;
    }

    method AcquireLease(now: int) returns (held: bool)
      requires PolicyOk(store.saved.policy)
      modifies store
      ensures store.archive == old(store.archive)
      ensures match Acquire(old(store.saved), bootId, now)
        case Some(s) => held && store.saved == s
        case None => !held && store.saved == old(store.saved)
    {
      var box := new Sandbox(store.saved);
      if box.lease.Some? && box.lease.value.owner != bootId && box.lease.value.until > now {
        return false;
      }
      box.Recover(bootId);
      box.lease := Some(Lease(bootId, now + LEASE_MS));
      InsertedNothing(store.archive);
      var error := store.Save(box.View(), [], None);
      held := error.None?;
    }

    /**
     The main transaction: reconcile, archive, manage, plan and claim. Any fault on the way leaves the store as it was.
     */
    method Prepare(inputs: TickInputs, now: int) returns (outcome: Outcome, action: Option<Action>)
      requires PolicyOk(store.saved.policy)
      modifies store
      ensures !HoldsLease(old(store.saved), bootId, now) ==>
        outcome == Passed && action == None && store.saved == old(store.saved) && store.archive == old(store.archive)
      ensures HoldsLease(old(store.saved), bootId, now) ==>
        match PrepareTick(old(store.saved), inputs, now)
        case Ok(p) =>
          PolicyOk(p.state.policy) ==>
            outcome == Passed && action == p.action && store.saved == p.state
              && store.archive == Inserted(old(store.archive), p.archived)
        case Err(e) => outcome == Fault(e) && store.saved == old(store.saved) && store.archive == old(store.archive)
    {
      var box := new Sandbox(store.saved);
      if !HoldsLease(box.View(), bootId, now) {
        return Passed, None;
      }
      var queue;
      outcome, queue, action := PrepareRecord(box, inputs, now);
      if outcome == Passed {
        var error := store.Save(box.View(), queue, None);
        if error.Some? {
          outcome := Fault(error.value);
        }
      }
    }

    /** The steps of the main transaction on one copy of the record. */
    method PrepareRecord(box: Sandbox, inputs: TickInputs, now: int)
      returns (outcome: Outcome, queue: seq<ArchiveRow>, action: Option<Action>)
      modifies box
      ensures match PrepareTick(old(box.View()), inputs, now)
        case Ok(p) => outcome == Passed && box.View() == p.state && queue == p.archived && action == p.action
        case Err(e) => outcome == Fault(e)
    {
      hide Reconcile, Archive, RequestModelExit, ManageAll, PlanEntry, Claim, Manageable, EntriesHaveTrades;
      queue, action := [], None;
      outcome := box.Reconcile(inputs.book, inputs.positions, inputs.readAt);
      if outcome.Fault? {
        return;
      }
      queue := box.ArchiveClosed(ARCHIVE_BATCH, now);
      if inputs.modelExit.Some? {
        box.RequestModelExit(inputs.modelExit.value, now);
      }
      if !Manageable(box.View()) {
        return Fault(CorruptRecord), queue, None;
      }
      box.Manage(inputs.quotes, now);
      var result := box.PlanEntry(inputs.decision, PlanQuote(inputs), inputs.meta, now);
      if !EntriesHaveTrades(box.View()) {
        return Fault(CorruptRecord), queue, None;
      }
      action := box.Claim(now, !EntryPending(box.View()) || inputs.allowed);
    }

    method RecheckEntry(a: Action, allowed: bool) returns (go: bool)
      requires PolicyOk(store.saved.policy)
      modifies store
      ensures (store.saved, go) == Recheck(old(store.saved), bootId, a.order.id, allowed)
      ensures store.archive == old(store.archive)
    {
      var box := new Sandbox(store.saved);
      if !(box.killed || !box.armed || !Owns(box.View(), bootId) || !allowed) {
        return true;
      }
      var i := OrderIndex(box.orders, a.order.id);
      if i < |box.orders| {
        box.orders := box.orders[i := box.orders[i].(state := Expired)];
      }
      InsertedNothing(store.archive);
      var error := store.Save(box.View(), [], None);
      go := false;
    }

    /** Recorded only while this process owns the lease; a refused transition leaves the store as it was. */
    method RecordReply(a: Action, reply: Reply)
      requires PolicyOk(store.saved.policy)
      modifies store
      ensures store.saved == Record(old(store.saved), bootId, a, reply) && store.archive == old(store.archive)
    {
      if !Owns(store.saved, bootId) {
        return;
      }
      var box := new Sandbox(store.saved);
      var outcome := box.Finish(a, reply);
      if outcome.Fault? {
        return;
      }
      InsertedNothing(store.archive);
      var error := store.Save(box.View(), [], None);
    }

    /** After any failure: halt, distrust the last reconciliation, and claim the cancelling of a live entry. */
    method HandleFailure(grace: bool, now: int) returns (action: Option<Action>)
      requires PolicyOk(store.saved.policy)
      modifies store
      ensures (store.saved, action) == FailTick(old(store.saved), bootId, grace, now)
      ensures store.archive == old(store.archive)
    {
      var box := new Sandbox(store.saved);
      if !Owns(box.View(), bootId) || (grace && Flat(box.View())) {
        return None;
      }
      box.Halt(ServiceError);
      box.reconciledAt := None;
      action := box.ClaimEmergencyCancel(now);
      InsertedNothing(store.archive);
      var error := store.Save(box.View(), [], None);
    }

    static lemma InsertedNothing(archive: seq<ArchiveRow>)
      ensures Inserted(archive, []) == archive
    {
    }
  }
}
