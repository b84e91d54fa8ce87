/** The paper broker's book as it is kept: rows are pushed, dropped and changed in place. */
module PaperBrokers {
  import opened Wrappers
  import opened SandboxTypes
  import opened SandboxSpec
  import opened PaperSpec

  class PaperBroker {
    var orders: seq<PaperRow>

    ghost predicate Valid()
      reads this
    {
      BookOk(orders)
    }

    constructor ()
      ensures Valid() && orders == []
    {
      orders := [];
    }

    /** The id is one nothing in the book carries: a random one with the paper broker's prefix. */
    method PlaceOrder(q: Request, id: string, asked: int, now: int) returns (reply: Result<Reply, PaperError>)
      requires Valid() && id != "" && forall r :: r in orders ==> r.id != id
      modifies this
      ensures Valid()
      ensures (orders, reply) == Place(old(orders), q, id, asked, now)
    {
      PlaceKeeps(orders, q, id, asked, now);
      if !WellFormed(q) {
        return Err(InvalidOrder);
      }
      if !InSession(asked) || !InSession(now) {
        return Ok(RejectReply);
      }
      var i := 0;
      while i < |orders| && !(orders[i].tag == q.tag && orders[i].day == Day(now))
        invariant i <= |orders|
        invariant forall j :: 0 <= j < i ==> !(orders[j].tag == q.tag && orders[j].day == Day(now))
      {
        i := i + 1;
      }
      if i < |orders| {
        return Ok(AckReply(Some(orders[i].id)));
      }
      orders := orders + [NewRow(q, id, now)];
      DropBefore(Day(now - KEPT_MS));
      reply := Ok(AckReply(Some(id)));
    }

    /** Rows of days before the given one go; the others keep their order. */
    method DropBefore(day: int)
      modifies this
      ensures orders == Since(old(orders), day)
    {
      var kept, i := [], 0;
      while i < |orders|
        invariant i <= |orders| && orders == old(orders)
        invariant kept == Since(orders[..i], day)
      {
        assert orders[..i + 1][..i] == orders[..i];
        if day <= orders[i].day {
          kept := kept + [orders[i]];
        }
        i := i + 1;
      }
      assert orders[..i] == orders;
      orders := kept;
    }

    method Cancel(orderId: string) returns (reply: Reply)
      requires Valid()
      modifies this
      ensures Valid() && AllGrown(old(orders), orders)
      ensures (orders, reply) == CancelRow(old(orders), orderId)
    {
      CancelGrows(orders, orderId);
      var i := 0;
      while i < |orders| && orders[i].id != orderId
        invariant i <= |orders|
        invariant forall j :: 0 <= j < i ==> orders[j].id != orderId
      {
        i := i + 1;
      }
      if i == |orders| || !WorkingRow(orders[i]) {
        return RejectReply;
      }
      orders := orders[i := orders[i].(status := PaperCancelled)];
      reply := AckReply(Some(orderId));
    }

    /** Fills what the live quotes allow, one decision for every working row of today, then shows today's rows. */
    method Read(live: map<string, LiveQuote>, started: int, now: int) returns (shown: seq<PaperRow>)
      requires Valid()
      modifies this
      ensures Valid() && AllGrown(old(orders), orders)
      ensures (orders, shown) == ReadBook(old(orders), live, started, now)
    {
      var today := Day(started);
      FillAllGrows(orders, live, today, now);
      if |live| > 0 && InSession(started) && Day(now) == today && InSession(now) {
        var i := 0;
        while i < |orders|
          invariant i <= |orders| == |old(orders)|
          invariant forall j :: 0 <= j < i ==> orders[j] == FillShown(old(orders)[j], live, today, now)
          invariant forall j :: i <= j < |orders| ==> orders[j] == old(orders)[j]
        {
          if orders[i].day == today && WorkingRow(orders[i]) {
            FillRow(i, LiveFor(live, orders[i].instrument), now);
          }
          i := i + 1;
        }
        assert orders == FillAll(old(orders), live, today, now);
      }
      shown := Shown(orders, today);
    }

    method FillRow(i: nat, quote: Option<LiveQuote>, now: int)
      requires i < |orders|
      modifies this
      ensures orders == old(orders)[i := Fill(old(orders)[i], quote, now)]
    {
      if quote.None? || !Usable(quote.value, now) {
        return;
      }
      var q := quote.value;
      if orders[i].status == TriggerPending {
        if q.bid <= orders[i].trigger {
          orders := orders[i := orders[i].(status := PaperOpen)];
        } else {
          return;
        }
      }
      if orders[i].status != PaperOpen || !WithinLimit(orders[i], q) {
        return;
      }
      orders := orders[i :=
        orders[i].(status := PaperComplete, filled := orders[i].quantity, average := FillPrice(orders[i], q))];
    }

    /** The net quantity per instrument of today's filled rows. */
    method GetPositions(today: int) returns (ps: seq<Position>)
      requires Valid()
      ensures ps == Positions(Shown(orders, today))
      ensures forall instrument: string :: Held(ps, instrument) == BookNet(Shown(orders, today), instrument)
    {
      var rows := Shown(orders, today);
      var i := 0;
      ps := [];
      while i < |rows|
        invariant i <= |rows| && ps == Positions(rows[..i])
      {
        assert rows[..i + 1][..i] == rows[..i];
        if rows[i].filled > 0 {
          ps := AddPosition(ps, rows[i].instrument, Signed(rows[i]));
        }
        i := i + 1;
      }
      assert rows[..i] == rows;
      ShownMembers(orders, today);
      forall instrument: string ensures Held(ps, instrument) == BookNet(rows, instrument) {
        PositionsAreNet(rows, instrument);
      }
    }
  }
}
