/** Sums over the orders of one trade, and how they move when an order is added, changed or removed. */
module Totals {
  import opened SandboxTypes

  /**
   Bought and Sold are filled quantities, Spent and Received their values. Ordered is the quantity of the BUY side.
   Committed is what the SELL side may still sell: what a finished order sold, all of a working one.
   Placed counts the orders of a kind. Capped is what the SELL side may have sold at most once the record stopped
   asking: an expired order that was sent, or is about to be, may have sold all of its quantity.
   */
  datatype Measure =
    | Bought | Sold | Spent | Received | Ordered | Committed | Placed(kind: Kind) | Capped(sent: set<OrderId>)

  function Weight(m: Measure, t: TradeId, o: Order): int {
    if o.id.trade != t then 0 else
      match m
      case Bought => if IsBuy(o) then o.filled else 0
      case Sold => if IsBuy(o) then 0 else o.filled
      case Spent => if IsBuy(o) then o.filled * o.average else 0
      case Received => if IsBuy(o) then 0 else o.filled * o.average
      case Ordered => if IsBuy(o) then o.quantity else 0
      case Committed => if IsBuy(o) then 0 else if Terminal(o) then o.filled else o.quantity
      case Placed(k) => if o.id.kind == k then 1 else 0
      case Capped(sent) =>
        if IsBuy(o) then 0
        else if o.state != Expired then o.filled
        else if o.id in sent then o.quantity
        else 0
  }

  function Total(m: Measure, t: TradeId, os: seq<Order>): int {
    if os == [] then 0 else Total(m, t, os[..|os| - 1]) + Weight(m, t, os[|os| - 1])
  }

  function Net(t: TradeId, os: seq<Order>): int {
    Total(Bought, t, os) - Total(Sold, t, os)
  }

  lemma TotalAppend(m: Measure, t: TradeId, os: seq<Order>, o: Order)
    ensures Total(m, t, os + [o]) == Total(m, t, os) + Weight(m, t, o)
  {
    assert (os + [o])[..|os|] == os;
  }

  lemma {:induction false} TotalUpdate(m: Measure, t: TradeId, os: seq<Order>, i: nat, o: Order)
    requires i < |os|
    ensures Total(m, t, os[i := o]) == Total(m, t, os) - Weight(m, t, os[i]) + Weight(m, t, o)
  {
    var last := |os| - 1;
    if i == last {
      assert os[i := o][..last] == os[..last];
    } else {
      assert os[i := o][..last] == os[..last][i := o];
      TotalUpdate(m, t, os[..last], i, o);
    }
  }

  /** Pointwise comparison of two lists of orders, in either direction. */
  lemma {:induction false} TotalMonotone(m: Measure, t: TradeId, os: seq<Order>, ps: seq<Order>)
    requires |os| == |ps|
    requires forall i :: 0 <= i < |os| ==> Weight(m, t, os[i]) <= Weight(m, t, ps[i])
    ensures Total(m, t, os) <= Total(m, t, ps)
  {
    if os != [] {
      var last := |os| - 1;
      TotalMonotone(m, t, os[..last], ps[..last]);
    }
  }

  lemma TotalSame(m: Measure, t: TradeId, os: seq<Order>, ps: seq<Order>)
    requires |os| == |ps|
    requires forall i :: 0 <= i < |os| ==> Weight(m, t, os[i]) == Weight(m, t, ps[i])
    ensures Total(m, t, os) == Total(m, t, ps)
  {
    TotalMonotone(m, t, os, ps);
    TotalMonotone(m, t, ps, os);
  }

  lemma {:induction false} TotalAbsent(m: Measure, t: TradeId, os: seq<Order>)
    requires forall i :: 0 <= i < |os| ==> os[i].id.trade != t
    ensures Total(m, t, os) == 0
  {
    if os != [] {
      TotalAbsent(m, t, os[..|os| - 1]);
    }
  }

  /** The orders of every other trade. */
  function Without(t: TradeId, os: seq<Order>): seq<Order> {
    if os == [] then [] else
      var rest := Without(t, os[..|os| - 1]);
      var o := os[|os| - 1];
      if o.id.trade == t then rest else rest + [o]
  }

  lemma {:induction false} WithoutMembers(t: TradeId, os: seq<Order>)
    ensures forall o :: o in Without(t, os) <==> o in os && o.id.trade != t
  {
    if os != [] {
      WithoutMembers(t, os[..|os| - 1]);
      assert os == os[..|os| - 1] + [os[|os| - 1]];
    }
  }

  lemma {:induction false} WithoutTotal(m: Measure, t: TradeId, u: TradeId, os: seq<Order>)
    requires t != u
    ensures Total(m, u, Without(t, os)) == Total(m, u, os)
  {
    if os != [] {
      var init, o := os[..|os| - 1], os[|os| - 1];
      WithoutTotal(m, t, u, init);
      if o.id.trade == t {
        assert Without(t, os) == Without(t, init);
      } else {
        assert Without(t, os) == Without(t, init) + [o];
        TotalAppend(m, u, Without(t, init), o);
      }
    }
  }
}
