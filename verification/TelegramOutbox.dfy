/**
 Delivering Telegram events through an outbox: rows are claimed under a lease, sent outside any transaction, and the
 outcome is recorded only on a row still being sent. Event ids are modelled by integers in the same order.
 */
module TelegramOutbox {
  import opened Wrappers

  datatype Status = Pending | Sending | Sent | Expired | Failed | Uncertain

  datatype OutRow = OutRow(
    id: int, priority: int, createdAt: int, status: Status, attempts: nat, nextAttemptAt: int, leaseUntil: Option<int>)

  datatype Outbox = Outbox(rows: seq<OutRow>, lastAttemptAt: int, cooldownUntil: int)

  const SEND_LEASE_MS := 15000
  const SPACING_MS := 1500
  const MAX_ATTEMPTS := 4

  predicate HasEvent(rows: seq<OutRow>, id: int) {
    exists r :: r in rows && r.id == id
  }

  /** An event that is in the outbox already is not put there again. */
  function Enqueue(box: Outbox, id: int, priority: int, now: int): Outbox {
    if HasEvent(box.rows, id) then box
    else box.(rows := box.rows + [OutRow(id, priority, now, Pending, 0, now, None)])
  }

  /** A send whose lease ran out may have been accepted: it is never retried. */
  function Interrupt(r: OutRow, now: int): OutRow {
    if r.status == Sending && r.leaseUntil.Some? && r.leaseUntil.value <= now
      then r.(status := Uncertain, leaseUntil := None) else r
  }

  function InterruptAll(rows: seq<OutRow>, now: int): seq<OutRow> {
    seq(|rows|, i requires 0 <= i < |rows| => Interrupt(rows[i], now))
  }

  predicate Due(r: OutRow, now: int) {
    r.status == Pending && r.nextAttemptAt <= now
  }

  predicate Before(a: OutRow, b: OutRow) {
    a.createdAt < b.createdAt
    || (a.createdAt == b.createdAt && (a.priority < b.priority || (a.priority == b.priority && a.id < b.id)))
  }

  /** The due row that comes first, or the number of rows. */
  function NextDue(rows: seq<OutRow>, now: int): (i: nat)
    ensures i <= |rows| && (i < |rows| ==> Due(rows[i], now))
  {
    if rows == [] then 0
    else
      var last := |rows| - 1;
      var i := NextDue(rows[..last], now);
      if i == last then (if Due(rows[last], now) then last else |rows|)
      else if Due(rows[last], now) && Before(rows[last], rows[i]) then last
      else i
  }

  datatype Claimed = Claimed(id: int, attempts: nat)

  function Claim(box: Outbox, now: int): (Outbox, Option<Claimed>) {
    var rows := InterruptAll(box.rows, now);
    var i := NextDue(rows, now);
    if now < box.cooldownUntil || now - box.lastAttemptAt < SPACING_MS || i == |rows| then (box.(rows := rows), None)
    else
      var r := rows[i].(status := Sending, attempts := rows[i].attempts + 1, leaseUntil := Some(now + SEND_LEASE_MS));
      (Outbox(rows[i := r], now, box.cooldownUntil), Some(Claimed(r.id, r.attempts)))
  }

  function Latest(a: int, b: int): int {
    if a < b then b else a
  }

  function Record(r: OutRow, id: int, status: Status, nextAttemptAt: Option<int>): OutRow {
    if r.id == id && r.status == Sending
    then r.(status := status, nextAttemptAt := if nextAttemptAt.Some? then nextAttemptAt.value else r.nextAttemptAt,
      leaseUntil := None)
    else r
  }

  function RecordAll(rows: seq<OutRow>, id: int, status: Status, nextAttemptAt: Option<int>): seq<OutRow> {
    seq(|rows|, i requires 0 <= i < |rows| => Record(rows[i], id, status, nextAttemptAt))
  }

  /** Flood control is for the recipient, not only for the event. */
  function Finish(box: Outbox, id: int, status: Status, nextAttemptAt: Option<int>, cooldown: Option<int>): Outbox {
    Outbox(RecordAll(box.rows, id, status, nextAttemptAt), box.lastAttemptAt,
           if cooldown.Some? then Latest(box.cooldownUntil, cooldown.value) else box.cooldownUntil)
  }

  // What a sender makes of the answer.

  datatype Answer = Accepted | RateLimited(until: int) | Refused | Unknown

  function StatusFor(answer: Answer, attempts: nat): Status {
    match answer
    case Accepted => Sent
    case RateLimited(_) => if attempts < MAX_ATTEMPTS then Pending else Failed
    case Refused => Failed
    case Unknown => Uncertain
  }

  function Settle(box: Outbox, id: int, attempts: nat, answer: Answer): Outbox {
    var status := StatusFor(answer, attempts);
    Finish(box, id, status, if status == Pending then Some(answer.until) else None,
           if answer.RateLimited? then Some(answer.until) else None)
  }

  /** The outbox tables as the workers' transactions change them. */
  class OutboxStore {
    var rows: seq<OutRow>
    var lastAttemptAt: int
    var cooldownUntil: int

    function View(): Outbox
      reads this
    {
      Outbox(rows, lastAttemptAt, cooldownUntil)
    }

    constructor ()
      ensures View() == Outbox([], 0, 0)
    {
      rows, lastAttemptAt, cooldownUntil := [], 0, 0;
    }

    method Put(id: int, priority: int, now: int)
      modifies this
      ensures View() == Enqueue(old(View()), id, priority, now)
    {
      var i := 0;
      while i < |rows|
        invariant i <= |rows| && View() == old(View())
        invariant forall j :: 0 <= j < i ==> rows[j].id != id
      {
        if rows[i].id == id {
          return;
        }
        i := i + 1;
      }
      rows := rows + [OutRow(id, priority, now, Pending, 0, now, None)];
    }

    method InterruptExpired(now: int)
      modifies this
      ensures View() == old(View()).(rows := InterruptAll(old(rows), now))
    {
      var i := 0;
      while i < |rows|
        invariant i <= |rows| == |old(rows)| && View() == old(View()).(rows := rows)
        invariant forall j :: 0 <= j < i ==> rows[j] == Interrupt(old(rows)[j], now)
        invariant forall j :: i <= j < |rows| ==> rows[j] == old(rows)[j]
      {
        if rows[i].status == Sending && rows[i].leaseUntil.Some? && rows[i].leaseUntil.value <= now {
          rows := rows[i := rows[i].(status := Uncertain, leaseUntil := None)];
        }
        i := i + 1;
      }
      assert rows == InterruptAll(old(rows), now);
    }

    method FindNext(now: int) returns (next: nat)
      ensures next == NextDue(rows, now)
    {
      next := 0;
      var found, i := false, 0;
      while i < |rows|
        invariant i <= |rows| && next == NextDue(rows[..i], now) && found == (next < i)
      {
        assert rows[..i + 1][..i] == rows[..i];
        if Due(rows[i], now) && (!found || Before(rows[i], rows[next])) {
          next, found := i, true;
        } else if !found {
          next := i + 1;
        }
        i := i + 1;
      }
      assert rows[..i] == rows;
    }

    method ClaimNext(now: int) returns (claimed: Option<Claimed>)
      modifies this
      ensures (View(), claimed) == Claim(old(View()), now)
    {
      InterruptExpired(now);
      if now < cooldownUntil || now - lastAttemptAt < SPACING_MS {
        return None;
      }
      var i := FindNext(now);
      if i == |rows| {
        return None;
      }
      var r := rows[i].(status := Sending, attempts := rows[i].attempts + 1, leaseUntil := Some(now + SEND_LEASE_MS));
      rows := rows[i := r];
      lastAttemptAt := now;
      claimed := Some(Claimed(r.id, r.attempts));
    }

    method FinishSend(id: int, status: Status, nextAttemptAt: Option<int>, cooldown: Option<int>)
      modifies this
      ensures View() == Finish(old(View()), id, status, nextAttemptAt, cooldown)
    {
      if cooldown.Some? {
        cooldownUntil := Latest(cooldownUntil, cooldown.value);
      }
      ghost var before := View();
      var i := 0;
      while i < |rows|
        invariant i <= |rows| == |before.rows| && View() == before.(rows := rows)
        invariant forall j :: 0 <= j < i ==> rows[j] == Record(before.rows[j], id, status, nextAttemptAt)
        invariant forall j :: i <= j < |rows| ==> rows[j] == before.rows[j]
      {
        if rows[i].id == id && rows[i].status == Sending {
          rows := rows[i := rows[i].(status := status,
                                     nextAttemptAt := if nextAttemptAt.Some? then nextAttemptAt.value
                                       else rows[i].nextAttemptAt,
                                     leaseUntil := None)];
        }
        i := i + 1;
      }
      assert rows == RecordAll(before.rows, id, status, nextAttemptAt);
    }
  }

  /**
   One sender's tick: claim, ask again whether the event is still current, call the provider, record the outcome.
   current and answer are what the world outside says when asked;
     a sender that stops on the way leaves its row as sending.
   */
  class TelegramSender {
    const store: OutboxStore

    constructor (store: OutboxStore)
      ensures this.store == store
    {
      this.store := store;
    }

    method Tick(now: int, current: bool, answer: Answer) returns (sent: Option<int>)
      modifies store
      ensures var (box, claimed) := Claim(old(store.View()), now);
        match claimed
        case None => store.View() == box && sent == None
        case Some(c) =>
          if current then store.View() == Settle(box, c.id, c.attempts, answer) && sent == Some(c.id)
          else store.View() == Finish(box, c.id, Expired, None, None) && sent == None
    {
      var claimed := store.ClaimNext(now);
      if claimed.None? {
        return None;
      }
      var id, attempts := claimed.value.id, claimed.value.attempts;
      if !current {
        store.FinishSend(id, Expired, None, None);
        return None;
      }
      sent := Some(id);
      match answer {
        case Accepted =>
          store.FinishSend(id, Sent, None, None);
        case RateLimited(until) =>
          if attempts < MAX_ATTEMPTS {
            store.FinishSend(id, Pending, Some(until), Some(until));
          } else {
            store.FinishSend(id, Failed, None, Some(until));
          }
        case Refused =>
          store.FinishSend(id, Failed, None, None);
        case Unknown =>
          store.FinishSend(id, Uncertain, None, None);
      }
    }
  }
}
