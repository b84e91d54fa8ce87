/** What the paper broker answers, said on rows, quotes and the clock alone: when a row opens and when it fills. */
module PaperAnswers {
  import opened Wrappers
  import opened SandboxTypes
  import opened PaperSpec

  /** The market is open: 09:15 to 15:30 IST. */
  predicate Trading(t: int) {
    9 * 60 + 15 <= Minutes(t) < 15 * 60 + 30
  }

  /** There are quotes, and the session of the read is still open when the rows are written. */
  predicate Effective(live: map<string, LiveQuote>, started: int, now: int) {
    live != map[] && Trading(started) && Trading(now) && Day(now) == Day(started)
  }

  /** The exchange's own time of the quote is at most ten seconds old, and at most a second ahead. */
  predicate Quoted(live: map<string, LiveQuote>, r: PaperRow, now: int) {
    r.instrument in live
    && var q := live[r.instrument];
    0 < q.bid && q.bid <= q.ask && now - 10000 <= q.exchangeAt <= now + 1000
  }

  predicate Pending(r: PaperRow) {
    r.status == TriggerPending
  }

  /** A pending stop waits for a bid at its trigger or below. */
  predicate Triggered(r: PaperRow, q: LiveQuote) {
    !Pending(r) || q.bid <= r.trigger
  }

  /** A buyer pays the ask, a seller gets the bid. */
  function Counterprice(r: PaperRow, q: LiveQuote): int {
    if r.buy then q.ask else q.bid
  }

  /** No worse than the limit: a buyer pays no more, a seller gets no less. */
  predicate Crosses(r: PaperRow, q: LiveQuote) {
    if r.buy then Counterprice(r, q) <= r.price else Counterprice(r, q) >= r.price
  }

  /** What one read makes of one row: filled whole at the counterprice, only opened, or left as it is. */
  predicate ReadsRow(r: PaperRow, r': PaperRow, live: map<string, LiveQuote>, started: int, now: int) {
    if !(Effective(live, started, now) && r.day == Day(started) && r.status in {TriggerPending, PaperOpen}
         && Quoted(live, r, now) && Triggered(r, live[r.instrument]))
    then r' == r
    else if Crosses(r, live[r.instrument])
    then r' == r.(status := PaperComplete, filled := r.quantity, average := Counterprice(r, live[r.instrument]))
    else r' == r.(status := PaperOpen)
  }

  /**
   Every row after a read: it is filled exactly when it worked today, its quote is usable, its trigger was reached and
   its limit is met.
   */
  lemma ReadIff(rows: seq<PaperRow>, live: map<string, LiveQuote>, started: int, now: int)
    ensures var rows' := ReadBook(rows, live, started, now).0;
      && |rows'| == |rows|
      && forall i :: 0 <= i < |rows| ==> ReadsRow(rows[i], rows'[i], live, started, now)
  {
    hide Shown;
    assert |live| > 0 <==> live != map[];
    if Effective(live, started, now) {
      forall i | 0 <= i < |rows|
        ensures ReadsRow(rows[i], FillShown(rows[i], live, Day(started), now), live, started, now)
      {
        RowRead(rows[i], live, started, now);
      }
    }
  }

  lemma RowRead(r: PaperRow, live: map<string, LiveQuote>, started: int, now: int)
    requires Effective(live, started, now)
    ensures ReadsRow(r, FillShown(r, live, Day(started), now), live, started, now)
  {
  }

  // Placing.

  /** An instrument key of the derivatives segment, a limit price, and a trigger exactly for a stop that sells. */
  predicate Placeable(q: Request) {
    && |q.instrument| >= 8 && q.instrument[..7] == "NSE_FO|"
    && (forall i :: 7 <= i < |q.instrument| ==>
          var c := q.instrument[i]; 'a' <= c <= 'z' || 'A' <= c <= 'Z' || '0' <= c <= '9')
    && 1 <= q.quantity <= 100000 && q.price > 0
    && (if q.stopOrder then !q.buy && q.trigger > q.price else q.trigger == 0)
  }

  /** A row that was not filled yet, with the terms it was asked for. */
  predicate Fresh(r: PaperRow, q: Request, id: string, now: int) {
    && r.id == id && r.day == Day(now) && r.placedAt == now && r.tag == q.tag && r.instrument == q.instrument
    && r.quantity == q.quantity && r.price == q.price && r.trigger == q.trigger && r.buy == q.buy
    && r.stopOrder == q.stopOrder && r.filled == 0 && r.average == 0
    && r.status == if q.stopOrder then TriggerPending else PaperOpen
  }

  /** The row already kept today for the tag. */
  ghost predicate KeptFor(rows: seq<PaperRow>, q: Request, i: nat, now: int) {
    && i < |rows| && rows[i].tag == q.tag && rows[i].day == Day(now)
    && forall j :: 0 <= j < i ==> !(rows[j].tag == q.tag && rows[j].day == Day(now))
  }

  /**
   A placement is refused, rejected outside the session, answered with the row that is there, or written, and then
   rows older than a week go.
   */
  lemma PlaceIff(rows: seq<PaperRow>, q: Request, id: string, asked: int, now: int)
    ensures var (ps, reply) := Place(rows, q, id, asked, now);
      && (reply.Err? <==> !Placeable(q))
      && (reply == Ok(RejectReply) <==> Placeable(q) && !(Trading(asked) && Trading(now)))
      && (reply.Err? || reply == Ok(RejectReply) ==> ps == rows)
      && (Placeable(q) && Trading(asked) && Trading(now) ==>
            && (forall i: nat :: KeptFor(rows, q, i, now) ==> ps == rows && reply == Ok(AckReply(Some(rows[i].id))))
            && ((forall i: nat :: !KeptFor(rows, q, i, now)) ==>
                  Written(rows, ps, q, id, now) && reply == Ok(AckReply(Some(id)))))
  {
    hide Shown, Since, Existing, KeptFor, Written, Placeable, WellFormed;
    PlaceableMeans(q);
    KeptIs(rows, q, now);
    WrittenIs(rows, q, id, now);
  }

  lemma PlaceableMeans(q: Request)
    ensures WellFormed(q) == Placeable(q)
  {
    assert INSTRUMENT_PREFIX <= q.instrument <==> |q.instrument| >= 7 && q.instrument[..7] == INSTRUMENT_PREFIX;
  }

  lemma KeptIs(rows: seq<PaperRow>, q: Request, now: int)
    ensures var i := Existing(rows, q.tag, Day(now));
      if i < |rows| then KeptFor(rows, q, i, now) && forall k: nat :: KeptFor(rows, q, k, now) ==> k == i
      else forall k: nat :: !KeptFor(rows, q, k, now)
  {
    hide Existing;
  }

  lemma WrittenIs(rows: seq<PaperRow>, q: Request, id: string, now: int)
    ensures Written(rows, Since(rows + [NewRow(q, id, now)], Day(now - KEPT_MS)), q, id, now)
  {
    hide Since;
    SinceOnly(rows, NewRow(q, id, now), Day(now - KEPT_MS));
    SinceMembers(rows, Day(now - KEPT_MS));
  }

  ghost predicate Written(rows: seq<PaperRow>, ps: seq<PaperRow>, q: Request, id: string, now: int) {
    && ps != [] && Fresh(ps[|ps| - 1], q, id, now)
    && forall r :: r in ps[..|ps| - 1] <==> r in rows && r.day >= Day(now - 7 * 86400000)
  }

  // Cancelling.

  ghost predicate FirstWith(rows: seq<PaperRow>, id: string, i: nat) {
    i < |rows| && rows[i].id == id && forall j :: 0 <= j < i ==> rows[j].id != id
  }

  /** A row that is known and still works is cancelled, and nothing else changes; any other request is rejected. */
  lemma CancelIff(rows: seq<PaperRow>, id: string)
    ensures var (ps, reply) := CancelRow(rows, id);
      && (reply == AckReply(Some(id)) || (reply == RejectReply && ps == rows))
      && (reply != RejectReply <==>
          exists i: nat :: FirstWith(rows, id, i) && rows[i].status in {TriggerPending, PaperOpen})
      && forall i: nat :: FirstWith(rows, id, i) && reply != RejectReply ==>
        |ps| == |rows| && ps[i] == rows[i].(status := PaperCancelled) && ps == rows[i := ps[i]]
  {
    hide RowIndex;
    var i := RowIndex(rows, id);
    if i < |rows| {
      assert FirstWith(rows, id, i);
    }
  }
}
