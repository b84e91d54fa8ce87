/** Which order is sent next, said on the record and the clock alone: exactly when, in which order, and when none is. */
module SandboxClaiming {
  import opened Wrappers
  import opened SandboxTypes
  import opened SandboxSpec

  /** Asked to be cancelled, known to the broker, not finished, and no cancel of it begun. */
  predicate ToCancel(o: Order) {
    o.wantCancel && o.brokerId.Some? && o.cancelState == NoCancel
    && o.state !in {Complete, Cancelled, Rejected, Expired}
  }

  predicate Waits(o: Order, kind: Kind) {
    o.state == Queued && o.id.kind == kind
  }

  /** An entry may be sent while everything the planner required still holds and its time is not over. */
  predicate MaySend(s: State, o: Order, now: int, allowed: bool) {
    var i := TradeIndex(s.trades, o.id.trade);
    allowed && s.armed && !s.killed && s.haltReason.None? && 9 * 60 + 30 <= Minutes(now) < 15 * 60
    && i < |s.trades| && now < s.trades[i].entryExpiresAt
  }

  /** Reconciled within the last ten seconds, and the outcome of every call is known. */
  ghost predicate Quiet(s: State, now: int) {
    s.reconciledAt.Some? && now <= s.reconciledAt.value + 10000
    && forall k :: 0 <= k < |s.orders| ==>
      s.orders[k].state !in {Submitting, Uncertain} && s.orders[k].cancelState !in {CancelSubmitting, CancelUncertain}
  }

  ghost predicate FirstToCancel(os: seq<Order>, k: nat) {
    k < |os| && ToCancel(os[k]) && forall j :: 0 <= j < k ==> !ToCancel(os[j])
  }

  ghost predicate FirstWaiting(os: seq<Order>, kind: Kind, k: nat) {
    k < |os| && Waits(os[k], kind) && forall j :: 0 <= j < k ==> !Waits(os[j], kind)
  }

  ghost predicate FirstEntry(s: State, k: nat, now: int, allowed: bool) {
    && k < |s.orders| && Waits(s.orders[k], EntryKind) && MaySend(s, s.orders[k], now, allowed)
    && forall j :: 0 <= j < k ==> !(Waits(s.orders[j], EntryKind) && MaySend(s, s.orders[j], now, allowed))
  }

  ghost predicate NoneToCancel(os: seq<Order>) {
    forall k :: 0 <= k < |os| ==> !ToCancel(os[k])
  }

  ghost predicate NoneWaits(os: seq<Order>, kind: Kind) {
    forall k :: 0 <= k < |os| ==> !Waits(os[k], kind)
  }

  /** Order k alone changed: its cancel is begun, counted and timed, and that is the action. */
  ghost predicate Cancels(s: State, s': State, a: Option<Action>, k: nat, now: int) {
    && k < |s.orders| && |s'.orders| == |s.orders| && s' == s.(orders := s.orders[k := s'.orders[k]])
    && s'.orders[k] == s.orders[k].(cancelState := CancelSubmitting, cancelStartedAt := Some(now),
                                    cancelAttempts := s.orders[k].cancelAttempts + 1)
    && a == Some(Action(CancelAction, s'.orders[k]))
  }

  /** Order k is being submitted from now on, and that is the action. */
  ghost predicate Places(o: Order, o': Order, a: Option<Action>, now: int) {
    o' == o.(state := Submitting, submittedAt := Some(now)) && a == Some(Action(PlaceAction, o'))
  }

  ghost predicate PlacesOnly(s: State, s': State, a: Option<Action>, k: nat, now: int) {
    && k < |s.orders| && |s'.orders| == |s.orders| && s' == s.(orders := s.orders[k := s'.orders[k]])
    && Places(s.orders[k], s'.orders[k], a, now)
  }

  /** The waiting entries before order k expired, and nothing else changed but order k itself. */
  ghost predicate Lapses(s: State, s': State, k: nat) {
    && |s'.orders| == |s.orders| && s' == s.(orders := s'.orders)
    && forall j :: 0 <= j < |s.orders| && j != k ==>
       s'.orders[j] == if j < k && Waits(s.orders[j], EntryKind) then s.orders[j].(state := Expired) else s.orders[j]
  }

  /** A cancel comes first, then stops, then exits, then entries; each kind in the order of the record. */
  ghost predicate Claims(s: State, s': State, a: Option<Action>, now: int, allowed: bool) {
    && (!Quiet(s, now) ==> s' == s && a == None)
    && (Quiet(s, now) ==>
          && (forall k: nat :: FirstToCancel(s.orders, k) ==> Cancels(s, s', a, k, now))
          && (NoneToCancel(s.orders) ==>
                && (forall k: nat :: FirstWaiting(s.orders, StopKind, k) ==> PlacesOnly(s, s', a, k, now))
                && (NoneWaits(s.orders, StopKind) ==>
                      && (forall k: nat :: FirstWaiting(s.orders, ExitKind, k) ==> PlacesOnly(s, s', a, k, now))
                      && (NoneWaits(s.orders, ExitKind) ==> ClaimsEntry(s, s', a, now, allowed)))))
  }

  ghost predicate ClaimsEntry(s: State, s': State, a: Option<Action>, now: int, allowed: bool) {
    && (forall k: nat :: FirstEntry(s, k, now, allowed) ==>
          Lapses(s, s', k) && Places(s.orders[k], s'.orders[k], a, now))
    && ((forall k: nat :: !FirstEntry(s, k, now, allowed)) ==> Lapses(s, s', |s.orders|) && a == None)
  }

  lemma QuietMeans(s: State, now: int)
    ensures Quiet(s, now) ==
      (s.reconciledAt.Some? && now - s.reconciledAt.value <= FRESH_MS && !exists o :: o in s.orders && InFlight(o))
  {
    if o :| o in s.orders && InFlight(o) {
      var k :| 0 <= k < |s.orders| && s.orders[k] == o;
    } else {
      assert forall k :: 0 <= k < |s.orders| ==> s.orders[k] in s.orders && !InFlight(s.orders[k]);
    }
  }

  lemma CancelFirst(os: seq<Order>)
    ensures var c := FirstCancelDue(os);
      if c < |os| then FirstToCancel(os, c) && !NoneToCancel(os) && forall k: nat :: FirstToCancel(os, k) ==> k == c
      else NoneToCancel(os) && forall k: nat :: !FirstToCancel(os, k)
  {
    assert forall k :: 0 <= k < |os| ==> CancelDue(os[k]) == ToCancel(os[k]);
  }

  lemma WaitingFirst(os: seq<Order>, kind: Kind)
    ensures var q := FirstQueued(os, kind);
      if q < |os| then
        FirstWaiting(os, kind, q) && !NoneWaits(os, kind) && forall k: nat :: FirstWaiting(os, kind, k) ==> k == q
      else NoneWaits(os, kind) && forall k: nat :: !FirstWaiting(os, kind, k)
  {
    assert forall k :: 0 <= k < |os| ==> (os[k].state == Queued && os[k].id.kind == kind) == Waits(os[k], kind);
  }

  lemma EntryIndex(s: State, now: int, allowed: bool)
    requires EntriesHaveTrades(s)
    ensures var i := FirstSendable(s, s.orders, now, allowed);
      if i < |s.orders| then
        FirstEntry(s, i, now, allowed) && forall k: nat :: FirstEntry(s, k, now, allowed) ==> k == i
      else forall k: nat :: !FirstEntry(s, k, now, allowed)
  {
    hide FirstSendable, Sendable, MaySend;
    var i := FirstSendable(s, s.orders, now, allowed);
    forall k | 0 <= k < |s.orders|
      ensures Sendable(s, s.orders[k], now, allowed)
        == (Waits(s.orders[k], EntryKind) && MaySend(s, s.orders[k], now, allowed))
    {
      assert s.orders[k] in s.orders;
      SendableMeans(s, s.orders[k], now, allowed);
    }
  }

  lemma EntryFirst(s: State, now: int, allowed: bool)
    requires EntriesHaveTrades(s)
    ensures var (s', a) := ClaimEntry(s, now, allowed);
      ClaimsEntry(s, s', a, now, allowed)
  {
    hide FirstSendable, FirstEntry;
    EntryIndex(s, now, allowed);
    var i := FirstSendable(s, s.orders, now, allowed);
    LapseIs(s.orders, i);
  }

  lemma LapseIs(os: seq<Order>, i: nat)
    ensures var ps := LapseBefore(os, i);
      && |ps| == |os|
      && forall j :: 0 <= j < |os| ==>
        ps[j] == if j < i && Waits(os[j], EntryKind) then os[j].(state := Expired) else os[j]
  {
  }

  lemma SendableMeans(s: State, o: Order, now: int, allowed: bool)
    requires EntriesHaveTrades(s) && o in s.orders
    ensures Sendable(s, o, now, allowed) == (Waits(o, EntryKind) && MaySend(s, o, now, allowed))
  {
  }

  /** What is sent next is exactly what the source's order of urgency says, and nothing only when there is nothing. */
  lemma ClaimIff(s: State, now: int, allowed: bool)
    requires EntriesHaveTrades(s)
    ensures var (s', a) := Claim(s, now, allowed);
      Claims(s, s', a, now, allowed)
  {
    hide Quiet, InFlight, FirstToCancel, FirstWaiting, NoneToCancel, NoneWaits, ClaimEntry, ClaimsEntry, FirstCancelDue;
    hide FirstQueued;
    QuietMeans(s, now);
    CancelFirst(s.orders);
    WaitingFirst(s.orders, StopKind);
    WaitingFirst(s.orders, ExitKind);
    EntryFirst(s, now, allowed);
  }

  // The emergency cancel.

  /** A live entry whose cancel was tried less than three times, and not in the last fifteen seconds. */
  predicate MayCancel(o: Order, now: int) {
    o.id.kind.EntryKind? && o.brokerId.Some? && o.state !in {Complete, Cancelled, Rejected, Expired}
    && o.cancelAttempts <= 2 && (o.cancelStartedAt.Some? ==> o.cancelStartedAt.value + 15000 <= now)
  }

  ghost predicate FirstToStop(os: seq<Order>, k: nat, now: int) {
    k < |os| && MayCancel(os[k], now) && forall j :: 0 <= j < k ==> !MayCancel(os[j], now)
  }

  /** Once trading is stopped or halted, the first live entry with cancels left is cancelled, asking nothing else. */
  lemma EmergencyIff(s: State, now: int)
    ensures var (s', a) := ClaimEmergencyCancel(s, now);
      && (forall k: nat :: FirstToStop(s.orders, k, now) && (s.killed || s.haltReason.Some?) ==>
            Cancels(s, s', a, k, now))
      && ((forall k: nat :: !FirstToStop(s.orders, k, now)) || !(s.killed || s.haltReason.Some?) ==>
            s' == s && a == None)
  {
    hide FirstEmergency, MayCancel, EmergencyDue;
    var i := FirstEmergency(s.orders, now);
    forall k | 0 <= k < |s.orders| ensures EmergencyDue(s.orders[k], now) == MayCancel(s.orders[k], now) {
      MayCancelIs(s.orders[k], now);
    }
    if i < |s.orders| {
      assert FirstToStop(s.orders, i, now);
    }
  }

  lemma MayCancelIs(o: Order, now: int)
    ensures EmergencyDue(o, now) == MayCancel(o, now)
  {
  }

  // Replies.

  /** The one order the reply is for, and what the reply makes of it. */
  ghost predicate Answers(s: State, s': State, k: nat, o': Order, halt: Option<Halt>) {
    && k < |s.orders|
    && s' == s.(orders := s.orders[k := o'], armed := s.armed && halt.None?,
                haltReason := if halt.Some? then halt else s.haltReason)
  }

  ghost predicate FirstWithId(os: seq<Order>, id: OrderId, k: nat) {
    k < |os| && os[k].id == id && forall j :: 0 <= j < k ==> os[j].id != id
  }

  /**
   A submission ends acknowledged with the broker's number, rejected, or in doubt, which halts; a cancel ends
   acknowledged, or in doubt or rejected, which halts. Only an order that was being sent or cancelled takes a reply.
   */
  lemma FinishIff(s: State, a: Action, reply: Reply, k: nat)
    requires FirstWithId(s.orders, a.order.id, k)
    ensures var r, o := Finish(s, a, reply), s.orders[k];
      && (r.Ok? <==> if a.kind.PlaceAction? then o.state.Submitting? else o.cancelState.CancelSubmitting?)
      && (r.Ok? && a.kind.PlaceAction? ==>
            if reply.AckReply? && reply.brokerId.Some?
            then Answers(s, r.value, k, o.(state := Acknowledged, brokerId := reply.brokerId), None)
            else if reply.RejectReply? then Answers(s, r.value, k, o.(state := Rejected), None)
            else Answers(s, r.value, k, o.(state := Uncertain), Some(SubmitReconciliationRequired)))
      && (r.Ok? && a.kind.CancelAction? ==>
            if reply.AckReply? then Answers(s, r.value, k, o.(cancelState := CancelAcknowledged), None)
            else
              var c := if reply.RejectReply? then CancelRejected else CancelUncertain;
              Answers(s, r.value, k, o.(cancelState := c), Some(CancelReconciliationRequired)))
  {
    hide OrderIndex;
  }
}
