/** What the outbox does, said on rows and the clock alone: which row is sent, when, and what becomes of it. */
module OutboxAnswers {
  import opened Wrappers
  import opened TelegramOutbox

  /** A send under way for fifteen seconds or more: whether it was accepted is not known. */
  predicate LeaseOver(r: OutRow, now: int) {
    r.status.Sending? && r.leaseUntil.Some? && r.leaseUntil.value <= now
  }

  predicate Waiting(r: OutRow, now: int) {
    r.status.Pending? && now >= r.nextAttemptAt
  }

  /** The waiting row that was put in first, then the most urgent, then the first by id. */
  ghost predicate NextUp(rows: seq<OutRow>, k: nat, now: int) {
    && k < |rows| && Waiting(rows[k], now)
    && forall j :: 0 <= j < |rows| && Waiting(rows[j], now) && j != k ==> Precedes(rows[k], rows[j], k < j)
  }

  /** In order by time, priority and id; of equal ones the one that stands first. */
  predicate Precedes(a: OutRow, b: OutRow, first: bool) {
    && a.createdAt <= b.createdAt
    && (a.createdAt == b.createdAt ==> a.priority <= b.priority)
    && (a.createdAt == b.createdAt && a.priority == b.priority ==> a.id <= b.id)
    && (a.createdAt == b.createdAt && a.priority == b.priority && a.id == b.id ==> first)
  }

  lemma {:induction false} NextDueIs(rows: seq<OutRow>, now: int)
    ensures var i := NextDue(rows, now);
      if i < |rows| then NextUp(rows, i, now) else forall k :: 0 <= k < |rows| ==> !Waiting(rows[k], now)
  {
    if rows != [] {
      var init := rows[..|rows| - 1];
      NextDueIs(init, now);
      assert forall k :: 0 <= k < |init| ==> init[k] == rows[k];
    }
  }

  lemma OneNextUp(rows: seq<OutRow>, i: nat, k: nat, now: int)
    requires NextUp(rows, i, now) && NextUp(rows, k, now)
    ensures i == k
  {
  }

  /** The rows once sends that ran out of time are in doubt; these are never sent again. */
  ghost predicate DoubtMarked(rows: seq<OutRow>, rows': seq<OutRow>, now: int) {
    |rows'| == |rows|
    && forall i :: 0 <= i < |rows| ==>
      rows'[i] == if LeaseOver(rows[i], now) then rows[i].(status := Uncertain, leaseUntil := None) else rows[i]
  }

  /** The row is being sent from now on, for fifteen seconds, and the attempt is counted. */
  predicate StartsSending(r: OutRow, r': OutRow, now: int) {
    r' == r.(status := Sending, attempts := r.attempts + 1, leaseUntil := Some(now + 15000))
  }

  /**
   A row is claimed exactly when the recipient is not cooling down, the last attempt was a second and a half ago, and a
   row waits; it is the first of those that wait.
   */
  lemma ClaimIff(box: Outbox, now: int)
    ensures var (box', claimed) := Claim(box, now);
      var free := now >= box.cooldownUntil && now >= box.lastAttemptAt + 1500;
      exists marked :: DoubtMarked(box.rows, marked, now)
        && (claimed.Some? <==> free && exists k :: 0 <= k < |marked| && Waiting(marked[k], now))
        && (claimed.None? ==> box' == box.(rows := marked))
        && forall k: nat :: claimed.Some? && NextUp(marked, k, now) ==> ClaimsRow(box, marked, box', claimed, k, now)
  {
    hide NextDue, InterruptAll, NextUp;
    var marked := InterruptAll(box.rows, now);
    MarkedIs(box.rows, now);
    NextDueIs(marked, now);
    var i := NextDue(marked, now);
    forall k: nat | i < |marked| && NextUp(marked, k, now) ensures k == i {
      OneNextUp(marked, i, k, now);
    }
  }

  lemma MarkedIs(rows: seq<OutRow>, now: int)
    ensures DoubtMarked(rows, InterruptAll(rows, now), now)
  {
  }

  ghost predicate ClaimsRow(box: Outbox, marked: seq<OutRow>, box': Outbox, claimed: Option<Claimed>, k: nat, now: int)
  {
    && k < |marked| && |box'.rows| == |marked|
    && box' == box.(rows := marked[k := box'.rows[k]], lastAttemptAt := now)
    && StartsSending(marked[k], box'.rows[k], now)
    && claimed == Some(Claimed(marked[k].id, marked[k].attempts + 1))
  }

  /** Every other row stays as it is; the one being sent under this id gets the outcome and gives up its lease. */
  ghost predicate Outcome(rows: seq<OutRow>, rows': seq<OutRow>, id: int, status: Status, again: Option<int>) {
    |rows'| == |rows|
    && forall i :: 0 <= i < |rows| ==>
      if rows[i].id != id || !rows[i].status.Sending? then rows'[i] == rows[i]
      else
        rows'[i] == rows[i].(status := status, leaseUntil := None,
                             nextAttemptAt := if again.Some? then again.value else rows[i].nextAttemptAt)
  }

  lemma RecordedAll(rows: seq<OutRow>, id: int, status: Status, again: Option<int>)
    ensures Outcome(rows, RecordAll(rows, id, status, again), id, status, again)
  {
  }

  /**
   An accepted send is sent, a refused one failed, one without an answer in doubt; a rate-limited one waits until the
   time named, for the whole recipient, and has failed after four attempts.
   */
  lemma SettleIff(box: Outbox, id: int, attempts: nat, answer: Answer)
    ensures var box' := Settle(box, id, attempts, answer);
      && box'.lastAttemptAt == box.lastAttemptAt
      && (answer.Accepted? ==> Outcome(box.rows, box'.rows, id, Sent, None) && box'.cooldownUntil == box.cooldownUntil)
      && (answer.Refused? ==> Outcome(box.rows, box'.rows, id, Failed, None) && box'.cooldownUntil == box.cooldownUntil)
      && (answer.Unknown? ==>
            Outcome(box.rows, box'.rows, id, Uncertain, None) && box'.cooldownUntil == box.cooldownUntil)
      && (answer.RateLimited? ==>
            && (if attempts <= 3 then Outcome(box.rows, box'.rows, id, Pending, Some(answer.until))
                else Outcome(box.rows, box'.rows, id, Failed, None))
            && box'.cooldownUntil >= box.cooldownUntil && box'.cooldownUntil >= answer.until
            && box'.cooldownUntil in {box.cooldownUntil, answer.until})
  {
    hide RecordAll, Outcome;
    var status := StatusFor(answer, attempts);
    RecordedAll(box.rows, id, status, if status == Pending then Some(answer.until) else None);
  }

  /** A new event waits at once, untried; a known one is left alone. */
  lemma EnqueueIff(box: Outbox, id: int, priority: int, now: int)
    ensures var box' := Enqueue(box, id, priority, now);
      if exists i :: 0 <= i < |box.rows| && box.rows[i].id == id then box' == box
      else
        && box' == box.(rows := box.rows + [box'.rows[|box.rows|]])
        && var r := box'.rows[|box.rows|];
        r.id == id && r.priority == priority && r.createdAt == now && Waiting(r, now) && r.attempts == 0
        && r.leaseUntil.None?
  {
    if HasEvent(box.rows, id) {
      var r :| r in box.rows && r.id == id;
      var i :| 0 <= i < |box.rows| && box.rows[i] == r;
    }
  }
}
