/**
 The paper broker: an order book of its own, filled against live quotes when it is read.
 A placed order keeps its row for a week; only the rows of the current IST day are ever shown.
 */
module PaperSpec {
  import opened Wrappers
  import opened SandboxTypes
  import opened SandboxSpec

  datatype PaperStatus = TriggerPending | PaperOpen | PaperComplete | PaperCancelled

  datatype PaperRow = PaperRow(
    id: string,
    day: int,
    placedAt: int,
    tag: OrderId,
    instrument: string,
    quantity: int,
    price: int,
    trigger: int,
    buy: bool,
    stopOrder: bool,
    status: PaperStatus,
    filled: int,
    average: int)

  // What placeOrder is called with.
  datatype Request = Request(instrument: string, quantity: int, price: int, buy: bool, tag: OrderId, stopOrder: bool,
        trigger: int)

  datatype LiveQuote = LiveQuote(bid: int, ask: int, exchangeAt: int)

  datatype PaperError = InvalidOrder

  const KEPT_MS := 7 * DAY_MS
  const SKEW_MS := 1000
  const INSTRUMENT_PREFIX := "NSE_FO|"

  /** 09:15 to 15:30 IST. */
  predicate InSession(t: int) {
    555 <= Minutes(t) < 930
  }

  predicate WorkingRow(r: PaperRow) {
    r.status in {TriggerPending, PaperOpen}
  }

  predicate AlphaNumeric(c: char) {
    'a' <= c <= 'z' || 'A' <= c <= 'Z' || '0' <= c <= '9'
  }

  predicate InstrumentKey(k: string) {
    |INSTRUMENT_PREFIX| < |k| && INSTRUMENT_PREFIX <= k
    && forall i :: |INSTRUMENT_PREFIX| <= i < |k| ==> AlphaNumeric(k[i])
  }

  predicate WellFormed(q: Request) {
    && InstrumentKey(q.instrument) && 0 < q.quantity <= 100000 && 0 < q.price
    && (if q.stopOrder then !q.buy && q.price < q.trigger else q.trigger == 0)
  }

  // Filling.

  predicate Usable(q: LiveQuote, now: int) {
    0 < q.bid <= q.ask && q.exchangeAt <= now + SKEW_MS && now - q.exchangeAt <= FRESH_MS
  }

  /** A BUY pays the ask, a SELL gets the bid. */
  function FillPrice(r: PaperRow, q: LiveQuote): int {
    if r.buy then q.ask else q.bid
  }

  predicate WithinLimit(r: PaperRow, q: LiveQuote) {
    if r.buy then q.ask <= r.price else r.price <= q.bid
  }

  /**
   A pending stop opens once the bid is at its trigger; an open row fills whole when the quote is within its limit.
   */
  function Fill(r: PaperRow, quote: Option<LiveQuote>, now: int): PaperRow {
    if quote.None? || !Usable(quote.value, now) then r
    else
      var q := quote.value;
      var r1 := if r.status == TriggerPending && q.bid <= r.trigger then r.(status := PaperOpen) else r;
      if r1.status == PaperOpen && WithinLimit(r1, q)
      then r1.(status := PaperComplete, filled := r1.quantity, average := FillPrice(r1, q))
      else r1
  }

  function LiveFor(live: map<string, LiveQuote>, instrument: string): Option<LiveQuote> {
    if instrument in live then Some(live[instrument]) else None
  }

  function FillShown(r: PaperRow, live: map<string, LiveQuote>, today: int, now: int): PaperRow {
    if r.day == today && WorkingRow(r) then Fill(r, LiveFor(live, r.instrument), now) else r
  }

  function FillAll(rows: seq<PaperRow>, live: map<string, LiveQuote>, today: int, now: int): seq<PaperRow> {
    seq(|rows|, i requires 0 <= i < |rows| => FillShown(rows[i], live, today, now))
  }

  // The book.

  function Shown(rows: seq<PaperRow>, today: int): seq<PaperRow> {
    if rows == [] then [] else
      var r := rows[|rows| - 1];
      Shown(rows[..|rows| - 1], today) + if r.day == today then [r] else []
  }

  function Since(rows: seq<PaperRow>, day: int): seq<PaperRow> {
    if rows == [] then [] else
      var r := rows[|rows| - 1];
      Since(rows[..|rows| - 1], day) + if day <= r.day then [r] else []
  }

  /** The row already kept today for a tag, or the number of rows. */
  function Existing(rows: seq<PaperRow>, tag: OrderId, today: int): (i: nat)
    ensures i <= |rows|
    ensures i < |rows| ==> rows[i].tag == tag && rows[i].day == today
    ensures forall j :: 0 <= j < i ==> !(rows[j].tag == tag && rows[j].day == today)
  {
    if rows == [] || (rows[0].tag == tag && rows[0].day == today) then 0 else 1 + Existing(rows[1..], tag, today)
  }

  function NewRow(q: Request, id: string, now: int): PaperRow {
    PaperRow(id, Day(now), now, q.tag, q.instrument, q.quantity, q.price, q.trigger, q.buy, q.stopOrder,
             if q.stopOrder then TriggerPending else PaperOpen, 0, 0)
  }

  /** A placement asked for at one time and written at a later one; the session has to be open at both. */
  function Place(rows: seq<PaperRow>, q: Request, id: string, asked: int, now: int)
      : (seq<PaperRow>, Result<Reply, PaperError>)
  {
    var i := Existing(rows, q.tag, Day(now));
    if !WellFormed(q) then (rows, Err(InvalidOrder))
    else if !InSession(asked) || !InSession(now) then (rows, Ok(RejectReply))
    else if i < |rows| then (rows, Ok(AckReply(Some(rows[i].id))))
    else (Since(rows + [NewRow(q, id, now)], Day(now - KEPT_MS)), Ok(AckReply(Some(id))))
  }

  function RowIndex(rows: seq<PaperRow>, id: string): (i: nat)
    ensures i <= |rows|
    ensures i < |rows| ==> rows[i].id == id
    ensures forall j :: 0 <= j < i ==> rows[j].id != id
  {
    if rows == [] || rows[0].id == id then 0 else 1 + RowIndex(rows[1..], id)
  }

  function CancelRow(rows: seq<PaperRow>, id: string): (seq<PaperRow>, Reply) {
    var i := RowIndex(rows, id);
    if i == |rows| || !WorkingRow(rows[i]) then (rows, RejectReply)
    else (rows[i := rows[i].(status := PaperCancelled)], AckReply(Some(id)))
  }

  /** A read started at one time fills at a later one, and not at all after the close or on another day. */
  function ReadBook(rows: seq<PaperRow>, live: map<string, LiveQuote>, started: int, now: int)
      : (seq<PaperRow>, seq<PaperRow>)
  {
    var today := Day(started);
    var filled := if |live| > 0 && InSession(started) && Day(now) == today && InSession(now)
      then FillAll(rows, live, today, now) else rows;
    (filled, Shown(filled, today))
  }

  function Reported(r: PaperRow): BookRow {
    BookRow(r.id, Some(r.tag), r.instrument, r.quantity, r.buy, true, r.stopOrder, r.price, r.trigger, r.filled,
      r.average,
            if r.status == PaperComplete then RowComplete else if r.status == PaperCancelled then RowCancelled
              else RowWorking)
  }

  function Report(rows: seq<PaperRow>): seq<BookRow> {
    seq(|rows|, i requires 0 <= i < |rows| => Reported(rows[i]))
  }

  // Positions.

  function Signed(r: PaperRow): int {
    if r.buy then r.filled else -r.filled
  }

  /** Adds a quantity to the one position of an instrument. */
  function AddPosition(ps: seq<Position>, instrument: string, quantity: int): seq<Position> {
    if ps == [] then [Position(instrument, quantity, true)]
    else if ps[0].instrument == instrument then [ps[0].(quantity := ps[0].quantity + quantity)] + ps[1..]
    else [ps[0]] + AddPosition(ps[1..], instrument, quantity)
  }

  function Positions(rows: seq<PaperRow>): seq<Position> {
    if rows == [] then [] else
      var r, rest := rows[|rows| - 1], Positions(rows[..|rows| - 1]);
      if r.filled > 0 then AddPosition(rest, r.instrument, Signed(r)) else rest
  }

  /** What the rows say was bought less what was sold of an instrument. */
  function BookNet(rows: seq<PaperRow>, instrument: string): int {
    if rows == [] then 0 else
      var r := rows[|rows| - 1];
      BookNet(rows[..|rows| - 1], instrument) + if r.instrument == instrument then Signed(r) else 0
  }

  // What the book keeps.

  /** A row fills whole or not at all, and only within its limit. */
  predicate RowOk(r: PaperRow) {
    && r.id != "" && 0 < r.quantity && 0 < r.price
    && (r.stopOrder ==> !r.buy)
    && (r.status == TriggerPending ==> r.stopOrder)
    && r.filled == (if r.status == PaperComplete then r.quantity else 0)
    && (r.status == PaperComplete ==> 0 < r.average && if r.buy then r.average <= r.price else r.price <= r.average)
  }

  ghost predicate RowsWellFormed(rows: seq<PaperRow>) {
    forall r :: r in rows ==> RowOk(r)
  }

  ghost predicate UniqueIds(rows: seq<PaperRow>) {
    forall i, j :: 0 <= i < j < |rows| ==> rows[i].id != rows[j].id
  }

  /** One day, one row per tag: what makes a repeated placement harmless. */
  ghost predicate UniqueTags(rows: seq<PaperRow>) {
    forall i, j :: 0 <= i < j < |rows| && rows[i].day == rows[j].day ==> rows[i].tag != rows[j].tag
  }

  ghost predicate BookOk(rows: seq<PaperRow>) {
    RowsWellFormed(rows) && UniqueIds(rows) && UniqueTags(rows)
  }

  /** A row's terms never change, a finished row changes no more, and an opened stop does not close again. */
  predicate Grown(r: PaperRow, p: PaperRow) {
    && p == r.(status := p.status, filled := p.filled, average := p.average)
    && (!WorkingRow(r) ==> p == r)
    && (r.status == PaperOpen ==> p.status != TriggerPending)
    && r.filled <= p.filled
  }

  ghost predicate AllGrown(rows: seq<PaperRow>, ps: seq<PaperRow>) {
    |rows| <= |ps| && forall i :: 0 <= i < |rows| ==> Grown(rows[i], ps[i])
  }

  lemma FillGrows(r: PaperRow, quote: Option<LiveQuote>, now: int)
    requires RowOk(r)
    ensures RowOk(Fill(r, quote, now)) && (WorkingRow(r) ==> Grown(r, Fill(r, quote, now)))
  {
  }

  lemma FillAllGrows(rows: seq<PaperRow>, live: map<string, LiveQuote>, today: int, now: int)
    requires BookOk(rows)
    ensures BookOk(FillAll(rows, live, today, now)) && AllGrown(rows, FillAll(rows, live, today, now))
  {
    hide Fill;
    var ps := FillAll(rows, live, today, now);
    forall i | 0 <= i < |rows| ensures RowOk(ps[i]) && Grown(rows[i], ps[i]) {
      assert rows[i] in rows;
      FillGrows(rows[i], LiveFor(live, rows[i].instrument), now);
    }
  }

  lemma CancelGrows(rows: seq<PaperRow>, id: string)
    requires BookOk(rows)
    ensures BookOk(CancelRow(rows, id).0) && AllGrown(rows, CancelRow(rows, id).0)
  {
    var ps := CancelRow(rows, id).0;
    forall k | 0 <= k < |rows| ensures RowOk(ps[k]) {
      assert rows[k] in rows;
    }
  }

  lemma {:induction false} SinceMembers(rows: seq<PaperRow>, day: int)
    ensures forall r :: r in Since(rows, day) <==> r in rows && day <= r.day
  {
    if rows != [] {
      SinceMembers(rows[..|rows| - 1], day);
      assert rows == rows[..|rows| - 1] + [rows[|rows| - 1]];
    }
  }

  lemma {:induction false} ShownMembers(rows: seq<PaperRow>, today: int)
    ensures forall r :: r in Shown(rows, today) <==> r in rows && r.day == today
  {
    if rows != [] {
      ShownMembers(rows[..|rows| - 1], today);
      assert rows == rows[..|rows| - 1] + [rows[|rows| - 1]];
    }
  }

  lemma {:induction false} SinceKeeps(rows: seq<PaperRow>, day: int)
    requires BookOk(rows)
    ensures BookOk(Since(rows, day))
  {
    if rows != [] {
      var init, last := rows[..|rows| - 1], rows[|rows| - 1];
      SinceKeeps(init, day);
      SinceMembers(init, day);
      var kept := Since(init, day);
      forall i | 0 <= i < |kept|
        ensures kept[i].id != last.id && (kept[i].day == last.day ==> kept[i].tag != last.tag)
      {
        assert kept[i] in kept;
        var k :| 0 <= k < |init| && init[k] == kept[i];
        assert rows[k] == kept[i];
      }
    }
  }

  lemma {:induction false} ShownKeeps(rows: seq<PaperRow>, today: int)
    requires BookOk(rows)
    ensures BookOk(Shown(rows, today))
  {
    if rows != [] {
      var init, last := rows[..|rows| - 1], rows[|rows| - 1];
      ShownKeeps(init, today);
      ShownMembers(init, today);
      var kept := Shown(init, today);
      forall i | 0 <= i < |kept|
        ensures kept[i].id != last.id && (kept[i].day == last.day ==> kept[i].tag != last.tag)
      {
        assert kept[i] in kept;
        var k :| 0 <= k < |init| && init[k] == kept[i];
        assert rows[k] == kept[i];
      }
    }
  }

  lemma ShownAppend(rows: seq<PaperRow>, r: PaperRow, today: int)
    ensures Shown(rows + [r], today) == Shown(rows, today) + if r.day == today then [r] else []
  {
    assert (rows + [r])[..|rows|] == rows;
  }

  /** Dropping rows older than the day that is shown changes nothing shown. */
  lemma {:induction false} ShownSince(rows: seq<PaperRow>, day: int, today: int)
    requires day <= today
    ensures Shown(Since(rows, day), today) == Shown(rows, today)
  {
    if rows != [] {
      var init, r := rows[..|rows| - 1], rows[|rows| - 1];
      ShownSince(init, day, today);
      if day <= r.day {
        ShownAppend(Since(init, day), r, today);
      } else {
        assert Since(rows, day) == Since(init, day);
      }
    }
  }

  lemma {:induction false} ShownGrows(rows: seq<PaperRow>, ps: seq<PaperRow>, today: int)
    requires |rows| == |ps| && AllGrown(rows, ps)
    ensures |Shown(rows, today)| == |Shown(ps, today)| && AllGrown(Shown(rows, today), Shown(ps, today))
  {
    if rows != [] {
      ShownGrows(rows[..|rows| - 1], ps[..|ps| - 1], today);
    }
  }

  /** A placement keeps the book, and shows at most one row more. */
  lemma PlaceKeeps(rows: seq<PaperRow>, q: Request, id: string, asked: int, now: int)
    requires BookOk(rows) && id != "" && forall r :: r in rows ==> r.id != id
    ensures var (ps, reply) := Place(rows, q, id, asked, now);
      && BookOk(ps)
      && (Shown(ps, Day(now)) == Shown(rows, Day(now))
          || (reply == Ok(AckReply(Some(id))) && Shown(ps, Day(now)) == Shown(rows, Day(now)) + [NewRow(q, id, now)]
              && forall r :: r in Shown(rows, Day(now)) ==> r.tag != q.tag))
  {
    var (ps, reply) := Place(rows, q, id, asked, now);
    if ps != rows {
      var more := rows + [NewRow(q, id, now)];
      forall i | 0 <= i < |rows| ensures rows[i].id != id {
        assert rows[i] in rows;
      }
      assert BookOk(more);
      SinceKeeps(more, Day(now - KEPT_MS));
      ShownSince(more, Day(now - KEPT_MS), Day(now));
      ShownAppend(rows, NewRow(q, id, now), Day(now));
      ShownMembers(rows, Day(now));
    }
  }

  /** Placing again under the same tag on the same day answers with the first row and changes nothing. */
  lemma PlaceAgain(rows: seq<PaperRow>, q: Request, id: string, asked: int, now: int, id': string, asked': int,
        now': int)
    requires WellFormed(q) && InSession(asked) && InSession(now) && InSession(asked') && InSession(now')
    requires Day(now') == Day(now)
    ensures var (ps, reply) := Place(rows, q, id, asked, now); Place(ps, q, id', asked', now') == (ps, reply)
  {
    var (ps, reply) := Place(rows, q, id, asked, now);
    if ps != rows {
      var more := rows + [NewRow(q, id, now)];
      SinceOnly(rows, NewRow(q, id, now), Day(now - KEPT_MS));
      assert ps == Since(rows, Day(now - KEPT_MS)) + [NewRow(q, id, now)];
      SinceMembers(rows, Day(now - KEPT_MS));
      var j := Existing(ps, q.tag, Day(now));
      forall k | 0 <= k < |ps| - 1 ensures !(ps[k].tag == q.tag && ps[k].day == Day(now)) {
        assert ps[k] in Since(rows, Day(now - KEPT_MS));
        var h :| 0 <= h < |rows| && rows[h] == ps[k];
      }
      assert ps[|ps| - 1] == NewRow(q, id, now);
    }
  }

  lemma SinceOnly(rows: seq<PaperRow>, r: PaperRow, day: int)
    requires day <= r.day
    ensures Since(rows + [r], day) == Since(rows, day) + [r]
  {
    assert (rows + [r])[..|rows|] == rows;
  }

  // Positions are the signed fills of the rows.

  lemma {:induction false} HeldCons(p: Position, ps: seq<Position>, instrument: string)
    ensures Held([p] + ps, instrument) == (if p.instrument == instrument then p.quantity else 0) + Held(ps, instrument)
  {
    if ps == [] {
      assert [p] + ps == [p];
      assert Held([p], instrument) == Held([], instrument) + if p.instrument == instrument then p.quantity else 0;
    } else {
      HeldCons(p, ps[..|ps| - 1], instrument);
      assert ([p] + ps)[..|ps|] == [p] + ps[..|ps| - 1];
    }
  }

  lemma {:induction false} HeldAdd(ps: seq<Position>, key: string, quantity: int, instrument: string)
    ensures Held(AddPosition(ps, key, quantity), instrument) == Held(ps, instrument) + if key == instrument
      then quantity else 0
  {
    if ps == [] {
      HeldCons(Position(key, quantity, true), [], instrument);
      assert [Position(key, quantity, true)] + [] == [Position(key, quantity, true)];
    } else {
      assert ps == [ps[0]] + ps[1..];
      HeldCons(ps[0], ps[1..], instrument);
      if ps[0].instrument == key {
        HeldCons(ps[0].(quantity := ps[0].quantity + quantity), ps[1..], instrument);
      } else {
        HeldAdd(ps[1..], key, quantity, instrument);
        HeldCons(ps[0], AddPosition(ps[1..], key, quantity), instrument);
      }
    }
  }

  lemma {:induction false} AddedIntraday(ps: seq<Position>, key: string, quantity: int)
    requires forall p :: p in ps ==> p.intraday
    ensures forall p :: p in AddPosition(ps, key, quantity) ==> p.intraday
  {
    if ps != [] {
      AddedIntraday(ps[1..], key, quantity);
    }
  }

  lemma {:induction false} PositionsAreNet(rows: seq<PaperRow>, instrument: string)
    requires forall r :: r in rows ==> 0 <= r.filled
    ensures Held(Positions(rows), instrument) == BookNet(rows, instrument)
    ensures forall p :: p in Positions(rows) ==> p.intraday
  {
    if rows != [] {
      var init, r := rows[..|rows| - 1], rows[|rows| - 1];
      PositionsAreNet(init, instrument);
      assert r in rows;
      HeldAdd(Positions(init), r.instrument, Signed(r), instrument);
      AddedIntraday(Positions(init), r.instrument, Signed(r));
    }
  }
}
