/**
 Any number of senders on one outbox, in any interleaving: they may stop at any point, be slow beyond their lease, or
 lose an answer. An event is sent again only when every earlier send of it was answered with a rate limit.
 */
module TelegramDelivery {
  import opened Wrappers
  import opened TelegramOutbox

  /** What a sender holds between two transactions: a claimed event, or the answer to its send. */
  datatype Hold = Holding(id: int, attempts: nat) | Answered(id: int, attempts: nat, answer: Answer)

  /** One call of the provider, with what its sender learned of it. */
  datatype Send = Send(id: int, answer: Answer)

  datatype Delivery = Delivery(box: Outbox, holds: map<string, Hold>, log: seq<Send>)

  datatype Move =
    | Put(id: int, priority: int, now: int)
    | Take(sender: string, now: int)
    | GiveUp(sender: string)
    | Call(sender: string, answer: Answer)
    | Report(sender: string)
    | Crash(sender: string)

  predicate Possible(d: Delivery, m: Move) {
    match m
    case Put(_, _, _) => true
    case Take(x, _) => x !in d.holds
    case GiveUp(x) => x in d.holds && d.holds[x].Holding?
    case Call(x, _) => x in d.holds && d.holds[x].Holding?
    case Report(x) => x in d.holds && d.holds[x].Answered?
    case Crash(x) => true
  }

  function After(d: Delivery, m: Move): Delivery
    requires Possible(d, m)
  {
    match m
    case Put(id, priority, now) => d.(box := Enqueue(d.box, id, priority, now))
    case Take(x, now) =>
      var (box, claimed) := Claim(d.box, now);
      d.(box := box, holds :=
        if claimed.Some? then d.holds[x := Holding(claimed.value.id, claimed.value.attempts)] else d.holds)
    // No longer worth sending: the row expires unsent.
    case GiveUp(x) => d.(box := Finish(d.box, d.holds[x].id, Expired, None, None), holds := d.holds - {x})
    case Call(x, answer) =>
      var h := d.holds[x];
      d.(holds := d.holds[x := Answered(h.id, h.attempts, answer)], log := d.log + [Send(h.id, answer)])
    case Report(x) =>
      var h := d.holds[x];
      d.(box := Settle(d.box, h.id, h.attempts, h.answer), holds := d.holds - {x})
    case Crash(x) => d.(holds := d.holds - {x})
  }

  /** The claimed row comes first among all that are due; nothing is claimed only when nothing is due. */
  lemma {:induction false} NextDueIsFirst(rows: seq<OutRow>, now: int)
    ensures var i := NextDue(rows, now);
      && (i == |rows| ==> forall j :: 0 <= j < |rows| ==> !Due(rows[j], now))
      && (i < |rows| ==> Due(rows[i], now) && forall j :: 0 <= j < |rows| && Due(rows[j], now) ==>
         !Before(rows[j], rows[i]))
  {
    if rows != [] {
      NextDueIsFirst(rows[..|rows| - 1], now);
    }
  }

  // The invariant.

  function Sends(log: seq<Send>, id: int): nat {
    if log == [] then 0 else Sends(log[..|log| - 1], id) + if log[|log| - 1].id == id then 1 else 0
  }

  ghost predicate OneRowEach(rows: seq<OutRow>) {
    forall i, j :: 0 <= i < j < |rows| ==> rows[i].id != rows[j].id
  }

  ghost predicate HeldOnce(holds: map<string, Hold>) {
    forall x, y :: x in holds && y in holds && holds[x].id == holds[y].id ==> x == y
  }

  /** Every send of the event so far was answered with a rate limit. */
  ghost predicate AllLimited(log: seq<Send>, id: int) {
    forall k :: 0 <= k < |log| && log[k].id == id ==> log[k].answer.RateLimited?
  }

  ghost predicate HoldOk(d: Delivery, r: OutRow, h: Hold) {
    && r.status in {Sending, Uncertain} && r.attempts == h.attempts
    && match h
       case Holding(id, attempts) => AllLimited(d.log, id) && Sends(d.log, id) < attempts
       case Answered(id, attempts, answer) => answer.RateLimited? ==> AllLimited(d.log, id)
  }

  ghost predicate RowFits(d: Delivery, r: OutRow) {
    && r.attempts <= MAX_ATTEMPTS && Sends(d.log, r.id) <= r.attempts
    && (r.status == Pending ==> r.attempts < MAX_ATTEMPTS && AllLimited(d.log, r.id) && forall x :: x in d.holds ==>
       d.holds[x].id != r.id)
    && (forall x :: x in d.holds && d.holds[x].id == r.id ==> HoldOk(d, r, d.holds[x]))
  }

  ghost predicate ResendsLimited(log: seq<Send>) {
    forall j, k :: 0 <= j < k < |log| && log[j].id == log[k].id ==> log[j].answer.RateLimited?
  }

  ghost predicate DeliveryOk(d: Delivery) {
    && OneRowEach(d.box.rows) && HeldOnce(d.holds) && ResendsLimited(d.log)
    && (forall i :: 0 <= i < |d.box.rows| ==> RowFits(d, d.box.rows[i]))
    && (forall x :: x in d.holds ==> HasEvent(d.box.rows, d.holds[x].id))
    && (forall s :: s in d.log ==> HasEvent(d.box.rows, s.id))
  }

  lemma {:induction false} NotSent(log: seq<Send>, id: int)
    requires forall s :: s in log ==> s.id != id
    ensures Sends(log, id) == 0
  {
    if log != [] {
      NotSent(log[..|log| - 1], id);
      assert log[|log| - 1] in log;
    }
  }

  lemma SendsMore(log: seq<Send>, s: Send, id: int)
    ensures Sends(log + [s], id) == Sends(log, id) + if s.id == id then 1 else 0
  {
    assert (log + [s])[..|log|] == log;
  }

  predicate Final(status: Status) {
    status in {Sent, Expired, Failed, Uncertain}
  }

  lemma PutOk(d: Delivery, id: int, priority: int, now: int)
    requires DeliveryOk(d)
    ensures DeliveryOk(d.(box := Enqueue(d.box, id, priority, now)))
  {
    var d' := d.(box := Enqueue(d.box, id, priority, now));
    if !HasEvent(d.box.rows, id) {
      NotSent(d.log, id);
      forall e | HasEvent(d.box.rows, e) ensures HasEvent(d'.box.rows, e) {
        var r :| r in d.box.rows && r.id == e;
        assert r in d'.box.rows;
      }
      forall i | 0 <= i < |d'.box.rows| ensures RowFits(d', d'.box.rows[i]) {
        if i < |d.box.rows| {
          assert RowFits(d, d.box.rows[i]);
        }
      }
      forall i | 0 <= i < |d.box.rows| ensures d.box.rows[i].id != id {
        assert d.box.rows[i] in d.box.rows;
      }
    }
  }

  /** Changing rows in place, each still fitting what is held and sent. */
  lemma InPlace(d: Delivery, d': Delivery)
    requires DeliveryOk(d) && d'.log == d.log && |d'.box.rows| == |d.box.rows|
    requires forall i :: 0 <= i < |d.box.rows| ==> d'.box.rows[i].id == d.box.rows[i].id && RowFits(d', d'.box.rows[i])
    requires HeldOnce(d'.holds) && forall x :: x in d'.holds ==> HasEvent(d.box.rows, d'.holds[x].id)
    ensures DeliveryOk(d')
  {
    hide RowFits;
    forall e | HasEvent(d.box.rows, e) ensures HasEvent(d'.box.rows, e) {
      var r :| r in d.box.rows && r.id == e;
      var i :| 0 <= i < |d.box.rows| && d.box.rows[i] == r;
      assert d'.box.rows[i] in d'.box.rows;
    }
  }

  lemma InterruptFits(d: Delivery, now: int)
    requires DeliveryOk(d)
    ensures DeliveryOk(d.(box := d.box.(rows := InterruptAll(d.box.rows, now))))
  {
    var d' := d.(box := d.box.(rows := InterruptAll(d.box.rows, now)));
    forall i | 0 <= i < |d.box.rows| ensures RowFits(d', d'.box.rows[i]) {
      InterruptRow(d, d', i, now);
    }
    InPlace(d, d');
  }

  lemma InterruptRow(d: Delivery, d': Delivery, i: nat, now: int)
    requires i < |d.box.rows| && RowFits(d, d.box.rows[i]) && d'.log == d.log && d'.holds == d.holds
    ensures RowFits(d', Interrupt(d.box.rows[i], now))
  {
    hide Sends, AllLimited;
    var r := d.box.rows[i];
    forall x | x in d.holds && d.holds[x].id == r.id ensures HoldOk(d', Interrupt(r, now), d.holds[x]) {
      assert HoldOk(d, r, d.holds[x]);
    }
  }

  lemma TakeOk(d: Delivery, x: string, now: int)
    requires DeliveryOk(d) && Possible(d, Take(x, now))
    ensures DeliveryOk(After(d, Take(x, now)))
  {
    hide DeliveryOk, Interrupt, Due;
    InterruptFits(d, now);
    var rows := InterruptAll(d.box.rows, now);
    var i := NextDue(rows, now);
    if !(now < d.box.cooldownUntil || now - d.box.lastAttemptAt < SPACING_MS || i == |rows|) {
      var d1 := d.(box := d.box.(rows := rows));
      TakenOk(d1, x, i, now);
    } else {
      TimesElsewhere(d.(box := d.box.(rows := rows)), After(d, Take(x, now)));
    }
  }

  lemma TimesElsewhere(d: Delivery, d': Delivery)
    requires DeliveryOk(d) && d'.box.rows == d.box.rows && d'.holds == d.holds && d'.log == d.log
    ensures DeliveryOk(d')
  {
    hide HoldOk, Sends, AllLimited;
    forall i | 0 <= i < |d.box.rows| ensures RowFits(d', d'.box.rows[i]) {
      SameFit(d, d', d.box.rows[i]);
    }
  }

  lemma SameFit(d: Delivery, d': Delivery, r: OutRow)
    requires RowFits(d, r) && d'.log == d.log
    requires forall x :: x in d'.holds && d'.holds[x].id == r.id ==> x in d.holds && d'.holds[x] == d.holds[x]
    ensures RowFits(d', r)
  {
    forall x | x in d'.holds && d'.holds[x].id == r.id ensures HoldOk(d', r, d'.holds[x]) {
      assert HoldOk(d, r, d.holds[x]);
    }
  }

  lemma TakenOk(d: Delivery, x: string, i: nat, now: int)
    requires DeliveryOk(d) && x !in d.holds && i < |d.box.rows| && Due(d.box.rows[i], now)
    ensures var r := d.box.rows[i].(status := Sending, attempts := d.box.rows[i].attempts + 1,
      leaseUntil := Some(now + SEND_LEASE_MS));
      DeliveryOk(Delivery(Outbox(d.box.rows[i := r], now, d.box.cooldownUntil),
        d.holds[x := Holding(r.id, r.attempts)], d.log))
  {
    var was := d.box.rows[i];
    var r := was.(status := Sending, attempts := was.attempts + 1, leaseUntil := Some(now + SEND_LEASE_MS));
    var d' := Delivery(Outbox(d.box.rows[i := r], now, d.box.cooldownUntil), d.holds[x := Holding(r.id, r.attempts)],
      d.log);
    assert RowFits(d, was) && was in d.box.rows;
    forall k | 0 <= k < |d.box.rows| ensures RowFits(d', d'.box.rows[k]) {
      if k != i {
        assert RowFits(d, d.box.rows[k]) && d.box.rows[k].id != was.id;
        SameFit(d, d', d.box.rows[k]);
      }
    }
    hide RowFits;
    InPlace(d, d');
  }

  /** The hold ends: no other hold is on that event. */
  lemma DropOk(d: Delivery, x: string)
    requires DeliveryOk(d)
    ensures DeliveryOk(d.(holds := d.holds - {x}))
  {
    var d' := d.(holds := d.holds - {x});
    forall i | 0 <= i < |d.box.rows| ensures RowFits(d', d'.box.rows[i]) {
      SameFit(d, d', d.box.rows[i]);
    }
    hide RowFits;
    InPlace(d, d');
  }

  lemma RecordedRow(d: Delivery, d': Delivery, r: OutRow, x: string, status: Status, next: Option<int>)
    requires RowFits(d, r) && x in d.holds && HeldOnce(d.holds) && d'.log == d.log && d'.holds == d.holds - {x}
    requires status == Pending ==>
      d.holds[x].Answered? && d.holds[x].answer.RateLimited? && d.holds[x].attempts < MAX_ATTEMPTS
    ensures RowFits(d', Record(r, d.holds[x].id, status, next))
  {
    hide Sends, AllLimited;
    var id := d.holds[x].id;
    var r' := Record(r, id, status, next);
    if r.id == id {
      assert HoldOk(d, r, d.holds[x]);
      forall y | y in d'.holds ensures d'.holds[y].id != id {
      }
    } else {
      forall y | y in d'.holds && d'.holds[y].id == r.id ensures HoldOk(d', r', d'.holds[y]) {
        assert HoldOk(d, r, d.holds[y]);
      }
    }
  }

  lemma RecordOk(d: Delivery, x: string, status: Status, next: Option<int>, cooldown: Option<int>)
    requires DeliveryOk(d) && x in d.holds
    requires status == Pending ==>
      d.holds[x].Answered? && d.holds[x].answer.RateLimited? && d.holds[x].attempts < MAX_ATTEMPTS
    ensures DeliveryOk(d.(box := Finish(d.box, d.holds[x].id, status, next, cooldown), holds := d.holds - {x}))
  {
    var d' := d.(box := Finish(d.box, d.holds[x].id, status, next, cooldown), holds := d.holds - {x});
    forall i | 0 <= i < |d.box.rows| ensures RowFits(d', d'.box.rows[i]) {
      RecordedRow(d, d', d.box.rows[i], x, status, next);
    }
    hide RowFits;
    InPlace(d, d');
  }

  lemma CalledRow(d: Delivery, d': Delivery, r: OutRow, x: string, answer: Answer)
    requires RowFits(d, r) && x in d.holds && d.holds[x].Holding? && HeldOnce(d.holds)
    requires var h := d.holds[x];
      d'.holds == d.holds[x := Answered(h.id, h.attempts, answer)] && d'.log == d.log + [Send(h.id, answer)]
    ensures RowFits(d', r)
  {
    hide Sends;
    var h := d.holds[x];
    SendsMore(d.log, Send(h.id, answer), r.id);
    if r.id == h.id {
      assert HoldOk(d, r, h);
      forall y | y in d'.holds && d'.holds[y].id == r.id ensures HoldOk(d', r, d'.holds[y]) {
        assert y == x;
      }
    } else {
      forall y | y in d'.holds && d'.holds[y].id == r.id ensures HoldOk(d', r, d'.holds[y]) {
        assert HoldOk(d, r, d.holds[y]);
        SendsMore(d.log, Send(h.id, answer), d.holds[y].id);
      }
    }
  }

  lemma CallOk(d: Delivery, x: string, answer: Answer)
    requires DeliveryOk(d) && Possible(d, Call(x, answer))
    ensures DeliveryOk(After(d, Call(x, answer)))
  {
    var d', h := After(d, Call(x, answer)), d.holds[x];
    forall i | 0 <= i < |d.box.rows| ensures RowFits(d', d'.box.rows[i]) {
      CalledRow(d, d', d.box.rows[i], x, answer);
    }
    HeldIsLimited(d, x);
    hide RowFits;
    assert HasEvent(d.box.rows, h.id);
  }

  /** What is about to be sent was only ever answered with rate limits. */
  lemma HeldIsLimited(d: Delivery, x: string)
    requires DeliveryOk(d) && x in d.holds && d.holds[x].Holding?
    ensures AllLimited(d.log, d.holds[x].id)
  {
    var r :| r in d.box.rows && r.id == d.holds[x].id;
    var i :| 0 <= i < |d.box.rows| && d.box.rows[i] == r;
    assert RowFits(d, d.box.rows[i]) && HoldOk(d, r, d.holds[x]);
  }

  /** Every move of every sender keeps the invariant. */
  lemma MoveOk(d: Delivery, m: Move)
    requires DeliveryOk(d) && Possible(d, m)
    ensures DeliveryOk(After(d, m))
  {
    hide DeliveryOk, Enqueue, Claim, Finish;
    match m
    case Put(id, priority, now) => PutOk(d, id, priority, now);
    case Take(x, now) => TakeOk(d, x, now);
    case GiveUp(x) => RecordOk(d, x, Expired, None, None);
    case Call(x, answer) => CallOk(d, x, answer);
    case Report(x) =>
      var h := d.holds[x];
      var status := StatusFor(h.answer, h.attempts);
      RecordOk(d, x, status, if status == Pending then Some(h.answer.until) else None,
               if h.answer.RateLimited? then Some(h.answer.until) else None);
    case Crash(x) => DropOk(d, x);
  }

  // Runs.

  ghost predicate Run(ds: seq<Delivery>, ms: seq<Move>) {
    && |ds| == |ms| + 1 && ds[0] == Delivery(Outbox([], 0, 0), map[], [])
    && forall i :: 0 <= i < |ms| ==> Possible(ds[i], ms[i]) && ds[i + 1] == After(ds[i], ms[i])
  }

  lemma {:induction false} RunOk(ds: seq<Delivery>, ms: seq<Move>, i: nat)
    requires Run(ds, ms) && i <= |ms|
    ensures DeliveryOk(ds[i])
  {
    if i > 0 {
      hide DeliveryOk, After, Possible;
      RunOk(ds, ms, i - 1);
      MoveOk(ds[i - 1], ms[i - 1]);
    } else {
      assert ds[0].box.rows == [];
    }
  }

  lemma SendsOfRow(d: Delivery, id: int)
    requires DeliveryOk(d)
    ensures Sends(d.log, id) <= MAX_ATTEMPTS
  {
    if s :| s in d.log && s.id == id {
      var r :| r in d.box.rows && r.id == id;
      var i :| 0 <= i < |d.box.rows| && d.box.rows[i] == r;
      assert RowFits(d, d.box.rows[i]);
    } else {
      NotSent(d.log, id);
    }
  }

  /**
   On every run: an event is sent at most four times, and sent again only when every earlier send of it was answered
   with a rate limit.
   */
  lemma SentAgainOnlyWhenLimited(ds: seq<Delivery>, ms: seq<Move>, i: nat, id: int)
    requires Run(ds, ms) && i <= |ms|
    ensures Sends(ds[i].log, id) <= MAX_ATTEMPTS
    ensures forall j, k :: 0 <= j < k < |ds[i].log| && ds[i].log[j].id == ds[i].log[k].id ==>
      ds[i].log[j].answer.RateLimited?
  {
    RunOk(ds, ms, i);
    SendsOfRow(ds[i], id);
  }

  predicate Later(a: OutRow, b: OutRow) {
    b.id == a.id && a.attempts <= b.attempts && (Final(a.status) ==> b == a)
  }

  /** A row with a final status never changes again, whoever finishes or interrupts whatever. */
  lemma RowsOnly(d: Delivery, m: Move)
    requires Possible(d, m)
    ensures var rows' := After(d, m).box.rows;
      |d.box.rows| <= |rows'| && forall i :: 0 <= i < |d.box.rows| ==> Later(d.box.rows[i], rows'[i])
  {
  }

  lemma {:induction false} FinalForGood(ds: seq<Delivery>, ms: seq<Move>, i: nat, j: nat, k: nat)
    requires Run(ds, ms) && i <= j <= |ms| && k < |ds[i].box.rows|
    ensures k < |ds[j].box.rows| && Later(ds[i].box.rows[k], ds[j].box.rows[k])
  {
    if i < j {
      FinalForGood(ds, ms, i, j - 1, k);
      RowsOnly(ds[j - 1], ms[j - 1]);
      hide After, Possible;
    }
  }

  lemma CooldownGrows(d: Delivery, m: Move)
    requires Possible(d, m)
    ensures d.box.cooldownUntil <= After(d, m).box.cooldownUntil
    ensures m.Report? && d.holds[m.sender].answer.RateLimited? ==>
      d.holds[m.sender].answer.until <= After(d, m).box.cooldownUntil
  {
    hide RecordAll, InterruptAll, NextDue;
  }

  /** After a reported rate limit no sender claims anything, for any event, before the time it named. */
  lemma {:induction false} RateLimitHonoured(ds: seq<Delivery>, ms: seq<Move>, i: nat, j: nat)
    requires Run(ds, ms) && i < j < |ms| && ms[i].Report? && ds[i].holds[ms[i].sender].answer.RateLimited?
    requires ms[j].Take? && ds[j + 1].holds != ds[j].holds
    ensures ds[i].holds[ms[i].sender].answer.until <= ms[j].now
  {
    hide InterruptAll, NextDue;
    CooldownStays(ds, ms, i, j);
  }

  lemma {:induction false} CooldownStays(ds: seq<Delivery>, ms: seq<Move>, i: nat, j: nat)
    requires Run(ds, ms) && i < j <= |ms| && ms[i].Report? && ds[i].holds[ms[i].sender].answer.RateLimited?
    ensures ds[i].holds[ms[i].sender].answer.until <= ds[j].box.cooldownUntil
  {
    hide After;
    CooldownGrows(ds[j - 1], ms[j - 1]);
    if i < j - 1 {
      CooldownStays(ds, ms, i, j - 1);
    }
  }
}
