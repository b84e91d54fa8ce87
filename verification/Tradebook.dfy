/**
 First-in-first-out matching of imported broker fills. Prices are in whole paise; times and broker ids are modelled by
 integers in the same order.

 The definition works unit by unit: every bought unit queues up, every sold unit takes the one at the head. The
 program keeps lots and matches as much of a lot at a time as it can.
 */
module Tradebook {
  import opened Wrappers

  datatype Fill = Fill(key: string, symbol: string, buy: bool, quantity: nat, price: int, time: int, orderId: int,
        tradeId: int)
  datatype Lot = Lot(quantity: nat, price: int)
  datatype Episode = Episode(quantity: nat, openedAt: int, closedAt: int, inValue: int, outValue: int, gross: int)

  // One contract, unit by unit.

  /** units holds the prices of the units held, oldest first; the figures after it are of the episode in progress. */
  datatype Ledger = Ledger(
    units: seq<int>, openedAt: int, inValue: int, outValue: int, quantity: nat, gross: int,
    matched: nat, unmatched: nat, episodes: seq<Episode>)

  const Empty := Ledger([], 0, 0, 0, 0, 0, 0, 0, [])

  function Least(a: nat, b: nat): nat {
    if a < b then a else b
  }

  function Repeat(quantity: nat, price: int): seq<int> {
    seq(quantity, i => price)
  }

  function Sum(xs: seq<int>): int {
    if xs == [] then 0 else Sum(xs[..|xs| - 1]) + xs[|xs| - 1]
  }

  /** What is gained by selling these units at a price. */
  function Gain(units: seq<int>, price: int): int {
    |units| * price - Sum(units)
  }

  function Buy(l: Ledger, f: Fill): Ledger {
    var l0 := if l.units == [] then l.(openedAt := f.time, inValue := 0, outValue := 0, quantity := 0, gross := 0)
      else l;
    l0.(units := l0.units + Repeat(f.quantity, f.price), inValue := l0.inValue + f.quantity * f.price,
      quantity := l0.quantity + f.quantity)
  }

  /** Units sold beyond those held are left unmatched: no profit is inferred from them. */
  function Sell(l: Ledger, f: Fill): Ledger {
    var m := Least(f.quantity, |l.units|);
    l.(units := l.units[m..], outValue := l.outValue + m * f.price, gross := l.gross + Gain(l.units[..m], f.price),
       matched := l.matched + m, unmatched := l.unmatched + (f.quantity - m))
  }

  /** An episode ends when nothing is held any more. */
  function Close(l: Ledger, f: Fill): Ledger {
    if l.quantity > 0 && l.units == [] then
      l.(episodes := l.episodes + [Episode(l.quantity, l.openedAt, f.time, l.inValue, l.outValue, l.gross)],
         openedAt := 0, inValue := 0, outValue := 0, quantity := 0, gross := 0)
    else l
  }

  function Step(l: Ledger, f: Fill): Ledger {
    if f.buy then Buy(l, f) else Close(Sell(l, f), f)
  }

  function Run(fills: seq<Fill>): Ledger {
    if fills == [] then Empty else Step(Run(fills[..|fills| - 1]), fills[|fills| - 1])
  }

  function Traded(fills: seq<Fill>, buy: bool): nat {
    if fills == [] then 0
    else Traded(fills[..|fills| - 1], buy) + if fills[|fills| - 1].buy == buy then fills[|fills| - 1].quantity else 0
  }

  function BoughtUnits(fills: seq<Fill>): seq<int> {
    if fills == [] then []
    else
      var f := fills[|fills| - 1];
      BoughtUnits(fills[..|fills| - 1]) + if f.buy then Repeat(f.quantity, f.price) else []
  }

  /** The prices at which units held were sold, in order; units sold short are not among them. */
  function MatchedUnits(fills: seq<Fill>): seq<int> {
    if fills == [] then []
    else
      var init, f := fills[..|fills| - 1], fills[|fills| - 1];
      MatchedUnits(init) + if f.buy then [] else Repeat(Least(f.quantity, |Run(init).units|), f.price)
  }

  function Grosses(episodes: seq<Episode>): int {
    if episodes == [] then 0 else Grosses(episodes[..|episodes| - 1]) + episodes[|episodes| - 1].gross
  }

  function Quantities(episodes: seq<Episode>): nat {
    if episodes == [] then 0 else Quantities(episodes[..|episodes| - 1]) + episodes[|episodes| - 1].quantity
  }

  lemma {:induction false} SumConcat(xs: seq<int>, ys: seq<int>)
    ensures Sum(xs + ys) == Sum(xs) + Sum(ys)
  {
    if ys == [] {
      assert xs + ys == xs;
    } else {
      SumConcat(xs, ys[..|ys| - 1]);
      assert (xs + ys)[..|xs + ys| - 1] == xs + ys[..|ys| - 1];
    }
  }

  lemma {:induction false} SumRepeat(quantity: nat, price: int)
    ensures Sum(Repeat(quantity, price)) == quantity * price
  {
    if quantity > 0 {
      SumRepeat(quantity - 1, price);
      assert Repeat(quantity, price)[..quantity - 1] == Repeat(quantity - 1, price);
    }
  }

  lemma SumSplit(units: seq<int>, m: nat)
    requires m <= |units|
    ensures Sum(units) == Sum(units[..m]) + Sum(units[m..])
  {
    SumConcat(units[..m], units[m..]);
    assert units == units[..m] + units[m..];
  }

  /** The episode in progress: what was paid is what was received less the gain, plus what is still held at cost. */
  predicate InBalance(l: Ledger) {
    && l.gross == l.outValue - (l.inValue - Sum(l.units))
    && (l.units == [] ==> l.quantity == 0 && l.gross == 0)
    && |l.units| <= l.quantity
    && (forall e :: e in l.episodes ==> e.gross == e.outValue - e.inValue && 0 < e.quantity)
  }

  lemma StepBalances(l: Ledger, f: Fill)
    requires InBalance(l) && 0 < f.quantity
    ensures InBalance(Step(l, f))
  {
    if f.buy {
      SumConcat(l.units, Repeat(f.quantity, f.price));
      SumConcat([], Repeat(f.quantity, f.price));
      SumRepeat(f.quantity, f.price);
    } else {
      SumSplit(l.units, Least(f.quantity, |l.units|));
    }
  }

  predicate Positive(fills: seq<Fill>) {
    forall f :: f in fills ==> 0 < f.quantity
  }

  /** Every completed episode gained what it was sold for less what it was bought for. */
  lemma {:induction false} EpisodesBalance(fills: seq<Fill>)
    requires Positive(fills)
    ensures InBalance(Run(fills))
  {
    if fills != [] {
      EpisodesBalance(fills[..|fills| - 1]);
      hide InBalance, Step;
      StepBalances(Run(fills[..|fills| - 1]), fills[|fills| - 1]);
    }
  }

  /**
   Bought is matched or held, sold is matched or unmatched; and the episodes hold all that was bought but the one in
   progress.
   */
  lemma {:induction false} FifoConserves(fills: seq<Fill>)
    requires Positive(fills)
    ensures var l := Run(fills);
      && l.matched + |l.units| == Traded(fills, true) && l.matched + l.unmatched == Traded(fills, false)
      && Quantities(l.episodes) + l.quantity == Traded(fills, true)
  {
    if fills != [] {
      var init, f := fills[..|fills| - 1], fills[|fills| - 1];
      FifoConserves(init);
      EpisodesBalance(init);
      var l := Run(init);
      var after := Sell(l, f);
      if !f.buy && after.quantity > 0 && after.units == [] {
        var e := Episode(after.quantity, after.openedAt, f.time, after.inValue, after.outValue, after.gross);
        assert (l.episodes + [e])[..|l.episodes|] == l.episodes;
      }
    }
  }

  lemma SellTakesOldest(units: seq<int>, bought: seq<int>, k: nat, m: nat)
    requires k + |units| == |bought| && units == bought[k..] && m <= |units|
    ensures units[m..] == bought[k + m..] && bought[..k + m] == bought[..k] + units[..m]
  {
  }

  /** The units sold so far, in order, paired with the units bought, in order. */
  predicate Paired(l: Ledger, bought: seq<int>, sold: seq<int>) {
    && |sold| == l.matched && l.matched + |l.units| == |bought| && l.units == bought[l.matched..]
    && Grosses(l.episodes) + l.gross == Sum(sold) - Sum(bought[..l.matched])
  }

  lemma PairedBuy(l: Ledger, f: Fill, bought: seq<int>, sold: seq<int>)
    requires Paired(l, bought, sold) && (l.units == [] ==> l.gross == 0)
    ensures Paired(Buy(l, f), bought + Repeat(f.quantity, f.price), sold)
  {
    hide Sum, Grosses, Repeat;
    var more := bought + Repeat(f.quantity, f.price);
    assert more[l.matched..] == bought[l.matched..] + Repeat(f.quantity, f.price);
    assert more[..l.matched] == bought[..l.matched];
  }

  lemma PairedSell(l: Ledger, f: Fill, bought: seq<int>, sold: seq<int>)
    requires Paired(l, bought, sold)
    ensures Paired(Sell(l, f), bought, sold + Repeat(Least(f.quantity, |l.units|), f.price))
  {
    hide Sum, Grosses;
    var m := Least(f.quantity, |l.units|);
    SellTakesOldest(l.units, bought, l.matched, m);
    SumConcat(bought[..l.matched], l.units[..m]);
    SumConcat(sold, Repeat(m, f.price));
    SumRepeat(m, f.price);
  }

  lemma PairedClose(l: Ledger, f: Fill, bought: seq<int>, sold: seq<int>)
    requires Paired(l, bought, sold)
    ensures Paired(Close(l, f), bought, sold)
  {
    hide Sum, Grosses;
    ClosedGross(l, f);
  }

  /**
   First in, first out: the k-th unit that found a match was sold against the k-th unit bought, what is held are the
   units bought last, and the gains of all episodes with the one in progress are the gains of these pairs.
   */
  lemma {:induction false} FirstInFirstOut(fills: seq<Fill>)
    requires Positive(fills)
    ensures Paired(Run(fills), BoughtUnits(fills), MatchedUnits(fills))
  {
    if fills != [] {
      var init, f := fills[..|fills| - 1], fills[|fills| - 1];
      EpisodesBalance(init);
      FirstInFirstOut(init);
      UnitsStep(fills);
      var l, bought, sold := Run(init), BoughtUnits(init), MatchedUnits(init);
      hide Run, BoughtUnits, MatchedUnits, Paired, Buy, Sell, Close, Repeat;
      if f.buy {
        PairedBuy(l, f, bought, sold);
      } else {
        PairedSell(l, f, bought, sold);
        PairedClose(Sell(l, f), f, bought, MatchedUnits(fills));
      }
    }
  }

  lemma UnitsStep(fills: seq<Fill>)
    requires fills != []
    ensures var init, f := fills[..|fills| - 1], fills[|fills| - 1];
      && Run(fills) == Step(Run(init), f)
      && BoughtUnits(fills) == (if f.buy then BoughtUnits(init) + Repeat(f.quantity, f.price) else BoughtUnits(init))
      && MatchedUnits(fills) ==
         if f.buy then MatchedUnits(init)
           else MatchedUnits(init) + Repeat(Least(f.quantity, |Run(init).units|), f.price)
  {
    hide Step, Repeat;
  }

  lemma ClosedGross(l: Ledger, f: Fill)
    ensures var c := Close(l, f); Grosses(c.episodes) + c.gross == Grosses(l.episodes) + l.gross
    ensures var c := Close(l, f); c.units == l.units && c.matched == l.matched
  {
    if l.quantity > 0 && l.units == [] {
      var e := Episode(l.quantity, l.openedAt, f.time, l.inValue, l.outValue, l.gross);
      assert (l.episodes + [e])[..|l.episodes|] == l.episodes;
    }
  }

  // One contract, lot by lot.

  function Expand(lots: seq<Lot>): seq<int> {
    if lots == [] then [] else Repeat(lots[0].quantity, lots[0].price) + Expand(lots[1..])
  }

  predicate NoEmptyLot(lots: seq<Lot>) {
    forall i :: 0 <= i < |lots| ==> 0 < lots[i].quantity
  }

  lemma {:induction false} ExpandAppend(lots: seq<Lot>, lot: Lot)
    ensures Expand(lots + [lot]) == Expand(lots) + Repeat(lot.quantity, lot.price)
  {
    if lots == [] {
      assert [lot][1..] == [];
      assert Expand([]) == [];
    } else {
      ExpandAppend(lots[1..], lot);
      assert (lots + [lot])[1..] == lots[1..] + [lot];
    }
  }

  lemma ExpandEmpty(lots: seq<Lot>)
    requires NoEmptyLot(lots)
    ensures Expand(lots) == [] <==> lots == []
  {
    if lots != [] {
      assert |Repeat(lots[0].quantity, lots[0].price)| > 0;
    }
  }

  /** Taking from the head lot takes that many units of its price. */
  lemma TakeFromHead(lots: seq<Lot>, m: nat, price: int)
    requires lots != [] && m <= lots[0].quantity
    ensures var left := lots[0].quantity - m;
      && m <= |Expand(lots)|
      && Expand(lots)[..m] == Repeat(m, lots[0].price)
      && Expand(lots)[m..] == Expand(if left == 0 then lots[1..] else [lots[0].(quantity := left)] + lots[1..])
      && Gain(Expand(lots)[..m], price) == (price - lots[0].price) * m
  {
    var left := lots[0].quantity - m;
    assert Expand(lots)[..m] == Repeat(m, lots[0].price);
    SumRepeat(m, lots[0].price);
    if left > 0 {
      var rest := [lots[0].(quantity := left)] + lots[1..];
      assert rest[1..] == lots[1..];
      assert Repeat(lots[0].quantity, lots[0].price)[m..] == Repeat(left, lots[0].price);
    }
  }

  lemma GainSplit(units: seq<int>, k: nat, m: nat, price: int)
    requires k + m <= |units|
    ensures Gain(units[..k + m], price) == Gain(units[..k], price) + Gain(units[k..][..m], price)
    ensures units[k..][m..] == units[k + m..]
  {
    assert units[..k + m] == units[..k] + units[k..][..m];
    SumConcat(units[..k], units[k..][..m]);
  }

  lemma NoGain(units: seq<int>, price: int)
    ensures Gain(units[..0], price) == 0 && units[0..] == units
  {
  }

  /** Sells against the lots from the head on, a lot or what is left of the sale at a time. */
  method MatchLots(lots: seq<Lot>, quantity: nat, price: int) returns (left: seq<Lot>, matched: nat, gross: int)
    requires NoEmptyLot(lots)
    ensures NoEmptyLot(left) && matched == Least(quantity, |Expand(lots)|)
    ensures Expand(left) == Expand(lots)[matched..] && gross == Gain(Expand(lots)[..matched], price)
  {
    hide Gain, Sum, Expand, Repeat;
    left, matched, gross := lots, 0, 0;
    var remaining: nat := quantity;
    ghost var units := Expand(lots);
    NoGain(units, price);
    while remaining > 0 && left != []
      invariant matched + remaining == quantity && NoEmptyLot(left)
      invariant matched <= |units| && Expand(left) == units[matched..]
      invariant gross == Gain(units[..matched], price)
    {
      var lot := left[0];
      var taken := Least(remaining, lot.quantity);
      TakeFromHead(left, taken, price);
      GainSplit(units, matched, taken, price);
      gross := gross + (price - lot.price) * taken;
      matched := matched + taken;
      remaining := remaining - taken;
      left := if lot.quantity == taken then left[1..] else [lot.(quantity := lot.quantity - taken)] + left[1..];
    }
    ExpandEmpty(left);
  }

  /** The running figures of one contract, as the loop over its fills changes them. */
  class ContractWalk {
    var lots: seq<Lot>
    var startedAt: int
    var inValue: int
    var outValue: int
    var quantity: nat
    var gross: int
    var matched: nat
    var unmatched: nat
    var episodes: seq<Episode>

    ghost predicate Valid()
      reads this
    {
      NoEmptyLot(lots)
    }

    /** The unit-by-unit ledger these figures stand for. */
    ghost function View(): Ledger
      reads this
    {
      Ledger(Expand(lots), startedAt, inValue, outValue, quantity, gross, matched, unmatched, episodes)
    }

    constructor ()
      ensures Valid() && View() == Empty
    {
      lots, startedAt, inValue, outValue, quantity, gross := [], 0, 0, 0, 0, 0;
      matched, unmatched, episodes := 0, 0, [];
    }

    method TakeBuy(f: Fill)
      requires Valid() && 0 < f.quantity
      modifies this
      ensures Valid() && View() == Buy(old(View()), f)
    {
      ExpandEmpty(lots);
      ExpandAppend(lots, Lot(f.quantity, f.price));
      hide Expand, Repeat;
      if lots == [] {
        startedAt, inValue, outValue, quantity, gross := f.time, 0, 0, 0, 0;
      }
      lots := lots + [Lot(f.quantity, f.price)];
      inValue := inValue + f.quantity * f.price;
      quantity := quantity + f.quantity;
    }

    method TakeSell(f: Fill)
      requires Valid()
      modifies this
      ensures Valid() && View() == Close(Sell(old(View()), f), f)
    {
      hide Expand, Repeat, Gain, NoEmptyLot;
      MatchSell(f);
      ExpandEmpty(lots);
      if quantity > 0 && lots == [] {
        episodes := episodes + [Episode(quantity, startedAt, f.time, inValue, outValue, gross)];
        startedAt, inValue, outValue, quantity, gross := 0, 0, 0, 0, 0;
      }
    }

    method MatchSell(f: Fill)
      requires Valid()
      modifies this
      ensures Valid() && View() == Sell(old(View()), f)
    {
      hide Expand, Repeat, Gain, NoEmptyLot;
      var left, m, gained := MatchLots(lots, f.quantity, f.price);
      lots := left;
      outValue := outValue + m * f.price;
      gross := gross + gained;
      matched := matched + m;
      unmatched := unmatched + (f.quantity - m);
    }
  }

  /** Walks one contract's fills; what it ends with is the unit-by-unit ledger. */
  method WalkContract(fills: seq<Fill>) returns (walk: ContractWalk)
    requires Positive(fills)
    ensures fresh(walk) && walk.Valid() && walk.View() == Run(fills)
  {
    hide Buy, Sell, Close;
    walk := new ContractWalk();
    var i := 0;
    while i < |fills|
      invariant i <= |fills| && fresh(walk) && walk.Valid() && walk.View() == Run(fills[..i])
    {
      var f := fills[i];
      assert f in fills && fills[..i + 1][..i] == fills[..i];
      if f.buy {
        walk.TakeBuy(f);
      } else {
        walk.TakeSell(f);
      }
      i := i + 1;
    }
    assert fills[..i] == fills;
  }

  // All contracts.

  predicate InTime(a: Fill, b: Fill) {
    a.time < b.time || (a.time == b.time
      && (a.orderId < b.orderId || (a.orderId == b.orderId && a.tradeId <= b.tradeId)))
  }

  function InsertFill(fills: seq<Fill>, f: Fill): seq<Fill> {
    if fills == [] || InTime(fills[|fills| - 1], f) then fills + [f]
    else InsertFill(fills[..|fills| - 1], f) + [fills[|fills| - 1]]
  }

  /** By time, order and trade; equal fills keep their order. */
  function ByTime(fills: seq<Fill>): seq<Fill> {
    if fills == [] then [] else InsertFill(ByTime(fills[..|fills| - 1]), fills[|fills| - 1])
  }

  // The order of the fills.

  /** No fill is before an earlier one: by time, then by order, then by trade. */
  ghost predicate InTradeOrder(rows: seq<Fill>) {
    forall i, j :: 0 <= i < j < |rows| ==> NotAfter(rows[i], rows[j])
  }

  predicate NotAfter(a: Fill, b: Fill) {
    && a.time <= b.time
    && (a.time == b.time ==> a.orderId <= b.orderId)
    && (a.time == b.time && a.orderId == b.orderId ==> a.tradeId <= b.tradeId)
  }

  predicate Tied(a: Fill, b: Fill) {
    a.time == b.time && a.orderId == b.orderId && a.tradeId == b.tradeId
  }

  /** The fills of one time, order and trade, in the order of the list. */
  function TiedWith(rows: seq<Fill>, f: Fill): seq<Fill> {
    if rows == [] then []
    else TiedWith(rows[..|rows| - 1], f) + if Tied(rows[|rows| - 1], f) then [rows[|rows| - 1]] else []
  }

  /** The same fills in trade order, ties as they were. */
  ghost predicate IsTradeOrderOf(rows: seq<Fill>, fills: seq<Fill>) {
    InTradeOrder(rows) && multiset(rows) == multiset(fills) && SameTies(rows, fills)
  }

  ghost predicate SameTies(rows: seq<Fill>, fills: seq<Fill>) {
    forall f :: TiedWith(rows, f) == TiedWith(fills, f)
  }

  lemma TiedAppend(rows: seq<Fill>, last: Fill, f: Fill)
    ensures TiedWith(rows + [last], f) == TiedWith(rows, f) + if Tied(last, f) then [last] else []
  {
    assert (rows + [last])[..|rows|] == rows;
  }

  lemma AppendOrdered(rows: seq<Fill>, f: Fill)
    requires InTradeOrder(rows) && forall r :: r in rows ==> NotAfter(r, f)
    ensures InTradeOrder(rows + [f])
  {
    var more := rows + [f];
    forall i, j | 0 <= i < j < |more| ensures NotAfter(more[i], more[j]) {
      assert more[i] in rows;
    }
  }

  lemma InitOrdered(rows: seq<Fill>)
    requires rows != [] && InTradeOrder(rows)
    ensures var init, last := rows[..|rows| - 1], rows[|rows| - 1];
      InTradeOrder(init) && forall r :: r in init ==> NotAfter(r, last)
  {
  }

  lemma {:induction false} InsertMultiset(rows: seq<Fill>, f: Fill)
    ensures multiset(InsertFill(rows, f)) == multiset(rows) + multiset{f}
    ensures forall g :: g in InsertFill(rows, f) <==> g in rows || g == f
  {
    if rows != [] && !InTime(rows[|rows| - 1], f) {
      var init := rows[..|rows| - 1];
      assert rows == init + [rows[|rows| - 1]];
      InsertMultiset(init, f);
    }
  }

  lemma {:induction false} InsertOrdered(rows: seq<Fill>, f: Fill)
    requires InTradeOrder(rows)
    ensures InTradeOrder(InsertFill(rows, f))
  {
    if rows == [] {
      AppendOrdered(rows, f);
    } else {
      hide InTradeOrder;
      var init, last := rows[..|rows| - 1], rows[|rows| - 1];
      assert rows == init + [last];
      InitOrdered(rows);
      if InTime(last, f) {
        AppendOrdered(rows, f);
      } else {
        InsertOrdered(init, f);
        InsertMultiset(init, f);
        AppendOrdered(InsertFill(init, f), last);
      }
    }
  }

  lemma {:induction false} InsertTies(rows: seq<Fill>, f: Fill, g: Fill)
    ensures TiedWith(InsertFill(rows, f), g) == TiedWith(rows, g) + if Tied(f, g) then [f] else []
  {
    if rows == [] || InTime(rows[|rows| - 1], f) {
      TiedAppend(rows, f, g);
    } else {
      var init, last := rows[..|rows| - 1], rows[|rows| - 1];
      InsertTies(init, f, g);
      TiedAppend(InsertFill(init, f), last, g);
    }
  }

  /** Sorting gives the same fills in trade order, ties as they were. */
  lemma {:induction false} ByTimeIs(fills: seq<Fill>)
    ensures IsTradeOrderOf(ByTime(fills), fills)
  {
    if fills != [] {
      var init, f := fills[..|fills| - 1], fills[|fills| - 1];
      ByTimeIs(init);
      InsertOrdered(ByTime(init), f);
      InsertMultiset(ByTime(init), f);
      assert fills == init + [f];
      forall g ensures TiedWith(ByTime(fills), g) == TiedWith(fills, g) {
        InsertTies(ByTime(init), f, g);
        TiedAppend(init, f, g);
      }
    }
  }

  lemma {:induction false} TiedMembers(rows: seq<Fill>, f: Fill)
    ensures forall g :: g in TiedWith(rows, f) <==> g in rows && Tied(g, f)
  {
    if rows != [] {
      TiedMembers(rows[..|rows| - 1], f);
      assert rows == rows[..|rows| - 1] + [rows[|rows| - 1]];
    }
  }

  /** The last fill of one list is not after the last of the other. */
  lemma LastNotAfter(xs: seq<Fill>, ys: seq<Fill>)
    requires InTradeOrder(ys) && SameTies(xs, ys) && xs != []
    ensures ys != [] && NotAfter(xs[|xs| - 1], ys[|ys| - 1])
  {
    var last := xs[|xs| - 1];
    TiedMembers(xs, last);
    TiedMembers(ys, last);
    assert last in TiedWith(ys, last);
    var k :| 0 <= k < |ys| && ys[k] == last;
    assert k == |ys| - 1 || NotAfter(ys[k], ys[|ys| - 1]);
  }

  lemma SameEnd(xs: seq<Fill>, ys: seq<Fill>, x: Fill, y: Fill)
    requires xs + [x] == ys + [y]
    ensures xs == ys && x == y
  {
    assert (xs + [x])[..|xs|] == xs && (ys + [y])[..|ys|] == ys;
    assert (xs + [x])[|xs|] == x && (ys + [y])[|ys|] == y;
  }

  lemma SameTiesBefore(xs: seq<Fill>, ys: seq<Fill>, x: Fill)
    requires SameTies(xs + [x], ys + [x])
    ensures SameTies(xs, ys)
  {
    hide TiedWith;
    forall f ensures TiedWith(xs, f) == TiedWith(ys, f) {
      TiedAppend(xs, x, f);
      TiedAppend(ys, x, f);
      assert TiedWith(xs + [x], f) == TiedWith(ys + [x], f);
      if Tied(x, f) {
        SameEnd(TiedWith(xs, f), TiedWith(ys, f), x, x);
      } else {
        assert TiedWith(xs, f) + [] == TiedWith(xs, f) && TiedWith(ys, f) + [] == TiedWith(ys, f);
      }
    }
  }

  lemma SameLast(xs: seq<Fill>, ys: seq<Fill>)
    requires InTradeOrder(xs) && InTradeOrder(ys) && SameTies(xs, ys) && xs != []
    ensures ys != [] && xs[|xs| - 1] == ys[|ys| - 1]
  {
    hide TiedWith, InTradeOrder;
    LastNotAfter(xs, ys);
    LastNotAfter(ys, xs);
    var x, y := xs[|xs| - 1], ys[|ys| - 1];
    assert xs == xs[..|xs| - 1] + [x] && ys == ys[..|ys| - 1] + [y];
    TiedAppend(xs[..|xs| - 1], x, x);
    TiedAppend(ys[..|ys| - 1], y, x);
    SameEnd(TiedWith(xs[..|xs| - 1], x), TiedWith(ys[..|ys| - 1], x), x, y);
  }

  /** There is only one such order. */
  lemma {:induction false} OneTradeOrder(xs: seq<Fill>, ys: seq<Fill>)
    requires InTradeOrder(xs) && InTradeOrder(ys) && SameTies(xs, ys)
    ensures xs == ys
    decreases |xs|
  {
    hide TiedWith, InTradeOrder;
    if xs == [] {
      if ys != [] {
        LastNotAfter(ys, xs);
      }
    } else {
      SameLast(xs, ys);
      var init, rest, x := xs[..|xs| - 1], ys[..|ys| - 1], xs[|xs| - 1];
      assert xs == init + [x] && ys == rest + [x];
      SameTiesBefore(init, rest, x);
      InitOrdered(xs);
      InitOrdered(ys);
      OneTradeOrder(init, rest);
    }
  }

  function OfSymbol(fills: seq<Fill>, symbol: string): seq<Fill> {
    if fills == [] then []
    else
      var rest, f := OfSymbol(fills[..|fills| - 1], symbol), fills[|fills| - 1];
      if f.symbol == symbol then rest + [f] else rest
  }

  lemma {:induction false} InsertTraded(fills: seq<Fill>, f: Fill, buy: bool)
    ensures Traded(InsertFill(fills, f), buy) == Traded(fills, buy) + if f.buy == buy then f.quantity else 0
    ensures forall g :: g in InsertFill(fills, f) <==> g in fills || g == f
  {
    if fills == [] || InTime(fills[|fills| - 1], f) {
      assert (fills + [f])[..|fills|] == fills;
    } else {
      var init, last := fills[..|fills| - 1], fills[|fills| - 1];
      InsertTraded(init, f, buy);
      var before := InsertFill(init, f);
      assert (before + [last])[..|before|] == before;
      assert fills == init + [last];
    }
  }

  lemma {:induction false} ByTimeTraded(fills: seq<Fill>, buy: bool)
    ensures Traded(ByTime(fills), buy) == Traded(fills, buy)
    ensures forall g :: g in ByTime(fills) <==> g in fills
  {
    if fills != [] {
      var init, f := fills[..|fills| - 1], fills[|fills| - 1];
      ByTimeTraded(init, buy);
      InsertTraded(ByTime(init), f, buy);
      assert fills == init + [f];
    }
  }

  predicate Distinct(symbols: seq<string>) {
    forall i, j :: 0 <= i < j < |symbols| ==> symbols[i] != symbols[j]
  }

  /** Quantities added up contract by contract. */
  function TradedOver(symbols: seq<string>, fills: seq<Fill>, buy: bool): nat {
    if symbols == [] then 0
    else TradedOver(symbols[..|symbols| - 1], fills, buy) + Traded(OfSymbol(fills, symbols[|symbols| - 1]), buy)
  }

  lemma {:induction false} TradedOverNothing(symbols: seq<string>, buy: bool)
    ensures TradedOver(symbols, [], buy) == 0
  {
    if symbols != [] {
      TradedOverNothing(symbols[..|symbols| - 1], buy);
    }
  }

  lemma OfSymbolTraded(fills: seq<Fill>, f: Fill, symbol: string, buy: bool)
    ensures Traded(OfSymbol(fills + [f], symbol), buy) ==
            Traded(OfSymbol(fills, symbol), buy) + if f.symbol == symbol && f.buy == buy then f.quantity else 0
  {
    assert (fills + [f])[..|fills|] == fills;
    var some := OfSymbol(fills, symbol);
    assert (some + [f])[..|some|] == some;
  }

  lemma {:induction false} TradedOverAdd(symbols: seq<string>, fills: seq<Fill>, f: Fill, buy: bool)
    requires Distinct(symbols)
    ensures TradedOver(symbols, fills + [f], buy) ==
            TradedOver(symbols, fills, buy) + if f.symbol in symbols && f.buy == buy then f.quantity else 0
  {
    if symbols != [] {
      var init, last := symbols[..|symbols| - 1], symbols[|symbols| - 1];
      TradedOverAdd(init, fills, f, buy);
      OfSymbolTraded(fills, f, last, buy);
      assert symbols == init + [last];
    }
  }

  /** Distinct contracts that cover all fills split them without loss. */
  lemma {:induction false} ContractsCover(symbols: seq<string>, fills: seq<Fill>, buy: bool)
    requires Distinct(symbols) && forall f :: f in fills ==> f.symbol in symbols
    ensures TradedOver(symbols, fills, buy) == Traded(fills, buy)
  {
    if fills == [] {
      TradedOverNothing(symbols, buy);
    } else {
      var init, f := fills[..|fills| - 1], fills[|fills| - 1];
      ContractsCover(symbols, init, buy);
      assert init + [f] == fills && f in fills;
      TradedOverAdd(symbols, init, f, buy);
    }
  }

  lemma {:induction false} OfSymbolMembers(fills: seq<Fill>, symbol: string)
    ensures forall f :: f in OfSymbol(fills, symbol) <==> f in fills && f.symbol == symbol
  {
    if fills != [] {
      OfSymbolMembers(fills[..|fills| - 1], symbol);
      assert fills == fills[..|fills| - 1] + [fills[|fills| - 1]];
    }
  }

  /** The contracts in the order they first appear. */
  function ContractsOf(fills: seq<Fill>): seq<string> {
    if fills == [] then []
    else
      var rest, symbol := ContractsOf(fills[..|fills| - 1]), fills[|fills| - 1].symbol;
      if symbol in rest then rest else rest + [symbol]
  }

  lemma {:induction false} ContractsAre(fills: seq<Fill>)
    ensures Distinct(ContractsOf(fills))
    ensures forall symbol :: symbol in ContractsOf(fills) <==> exists f :: f in fills && f.symbol == symbol
  {
    if fills != [] {
      var init, last := fills[..|fills| - 1], fills[|fills| - 1];
      ContractsAre(init);
      assert fills == init + [last] && last in fills;
    }
  }

  method Contracts(fills: seq<Fill>) returns (symbols: seq<string>)
    ensures symbols == ContractsOf(fills)
    ensures Distinct(symbols) && forall f :: f in fills ==> f.symbol in symbols
  {
    ContractsAre(fills);
    symbols := [];
    var i := 0;
    while i < |fills|
      invariant i <= |fills| && symbols == ContractsOf(fills[..i])
    {
      assert fills[..i + 1][..i] == fills[..i];
      if fills[i].symbol !in symbols {
        symbols := symbols + [fills[i].symbol];
      }
      i := i + 1;
    }
    assert fills[..i] == fills;
  }

  function ContractLedger(fills: seq<Fill>, symbol: string): Ledger {
    Run(ByTime(OfSymbol(fills, symbol)))
  }

  lemma ContractConserves(fills: seq<Fill>, symbol: string)
    requires Positive(fills)
    ensures Positive(ByTime(OfSymbol(fills, symbol)))
    ensures var l := ContractLedger(fills, symbol);
      && l.matched + |l.units| == Traded(OfSymbol(fills, symbol), true)
      && l.matched + l.unmatched == Traded(OfSymbol(fills, symbol), false)
  {
    var rows := OfSymbol(fills, symbol);
    OfSymbolMembers(fills, symbol);
    ByTimeTraded(rows, true);
    ByTimeTraded(rows, false);
    FifoConserves(ByTime(rows));
  }

  function LotTotal(lots: seq<Lot>): nat {
    if lots == [] then 0 else lots[0].quantity + LotTotal(lots[1..])
  }

  lemma {:induction false} LotTotalIs(lots: seq<Lot>)
    ensures LotTotal(lots) == |Expand(lots)|
  {
    if lots != [] {
      LotTotalIs(lots[1..]);
    }
  }

  datatype Summary = Summary(episodes: seq<Episode>, matched: nat, unmatched: nat, open: nat)

  /** The completed episodes, contract by contract. */
  function EpisodesOver(symbols: seq<string>, fills: seq<Fill>): seq<Episode> {
    if symbols == [] then []
    else EpisodesOver(symbols[..|symbols| - 1], fills) + ContractLedger(fills, symbols[|symbols| - 1]).episodes
  }

  /** The unit-by-unit ledger of these rows ends with the summary's episodes and totals. */
  ghost predicate IsSummaryOf(s: Summary, rows: seq<Fill>) {
    var l := Run(rows);
    s.episodes == l.episodes && s.matched == l.matched && s.unmatched == l.unmatched && s.open == |l.units|
  }

  /** One contract on its own. */
  method SummarizeContract(fills: seq<Fill>, symbol: string) returns (s: Summary)
    requires Positive(fills)
    ensures s.matched + s.open == Traded(OfSymbol(fills, symbol), true)
    ensures s.matched + s.unmatched == Traded(OfSymbol(fills, symbol), false)
    ensures s.episodes == ContractLedger(fills, symbol).episodes
    ensures exists rows :: IsTradeOrderOf(rows, OfSymbol(fills, symbol)) && IsSummaryOf(s, rows)
    ensures forall e :: e in s.episodes ==> e.gross == e.outValue - e.inValue && 0 < e.quantity
  {
    hide Run, ByTime, OfSymbol, Traded;
    ContractConserves(fills, symbol);
    ByTimeIs(OfSymbol(fills, symbol));
    EpisodesBalance(ByTime(OfSymbol(fills, symbol)));
    var walk := WalkContract(ByTime(OfSymbol(fills, symbol)));
    LotTotalIs(walk.lots);
    s := Summary(walk.episodes, walk.matched, walk.unmatched, LotTotal(walk.lots));
  }

  /**
   The totals over all contracts: nothing bought or sold is lost or counted twice, and the episodes are all those of
   the contracts' unit-by-unit ledgers, each of which balances.
   */
  method Summarize(fills: seq<Fill>) returns (s: Summary)
    requires Positive(fills)
    ensures s.matched + s.open == Traded(fills, true) && s.matched + s.unmatched == Traded(fills, false)
    ensures s.episodes == EpisodesOver(ContractsOf(fills), fills)
    ensures forall e :: e in s.episodes ==> e.gross == e.outValue - e.inValue && 0 < e.quantity
  {
    hide Traded, OfSymbol, ContractLedger, Distinct, ContractsOf;
    var symbols := Contracts(fills);
    s := Summary([], 0, 0, 0);
    var i := 0;
    while i < |symbols|
      invariant i <= |symbols|
      invariant s.matched + s.open == TradedOver(symbols[..i], fills, true)
      invariant s.matched + s.unmatched == TradedOver(symbols[..i], fills, false)
      invariant s.episodes == EpisodesOver(symbols[..i], fills)
      invariant forall e :: e in s.episodes ==> e.gross == e.outValue - e.inValue && 0 < e.quantity
    {
      assert symbols[..i + 1][..i] == symbols[..i];
      var c := SummarizeContract(fills, symbols[i]);
      s := Summary(s.episodes + c.episodes, s.matched + c.matched, s.unmatched + c.unmatched, s.open + c.open);
      i := i + 1;
    }
    assert symbols[..i] == symbols;
    ContractsCover(symbols, fills, true);
    ContractsCover(symbols, fills, false);
  }

  // Importing.

  datatype ImportError = InvalidBatch | ClientMismatch | ImportLimit | DuplicateConflict

  const MAX_BATCH := 120
  const MAX_STORED := 5000

  datatype Book = Book(client: Option<string>, fills: seq<Fill>)

  predicate UniqueFills(fills: seq<Fill>) {
    forall i, j :: 0 <= i < j < |fills| ==> fills[i].key != fills[j].key
  }

  predicate HasKey(fills: seq<Fill>, key: string) {
    exists f :: f in fills && f.key == key
  }

  /** What a batch adds: the fills of keys not seen before. It conflicts when a known key comes with other content. */
  function Additions(known: seq<Fill>, batch: seq<Fill>): Result<seq<Fill>, ImportError> {
    if batch == [] then Ok([])
    else
      var before :- Additions(known, batch[..|batch| - 1]);
      var f := batch[|batch| - 1];
      if !HasKey(known + before, f.key) then Ok(before + [f])
      else if f in known + before then Ok(before)
      else Err(DuplicateConflict)
  }

  function Import(b: Book, client: string, batch: seq<Fill>): Result<Book, ImportError> {
    if !(1 <= |batch| <= MAX_BATCH) then Err(InvalidBatch)
    else if b.client.Some? && b.client.value != client then Err(ClientMismatch)
    else if |b.fills| > MAX_STORED then Err(ImportLimit)
    else
      var added :- Additions(b.fills, batch);
      if |b.fills| + |added| > MAX_STORED then Err(ImportLimit) else Ok(Book(Some(client), b.fills + added))
  }

  lemma {:induction false} AdditionsAre(known: seq<Fill>, batch: seq<Fill>)
    requires UniqueFills(known)
    ensures var r := Additions(known, batch);
      r.Ok? ==>
        && UniqueFills(known + r.value) && (forall f :: f in batch ==> f in known + r.value)
        && forall f :: f in r.value ==> f in batch
  {
    if batch == [] {
      assert known + [] == known;
    } else {
      var init, f := batch[..|batch| - 1], batch[|batch| - 1];
      AdditionsAre(known, init);
      assert batch == init + [f];
      var r := Additions(known, init);
      if r.Ok? && !HasKey(known + r.value, f.key) {
        var all := known + r.value;
        assert known + (r.value + [f]) == all + [f];
        forall i | 0 <= i < |all| ensures all[i].key != f.key {
          assert all[i] in all;
        }
      }
    }
  }

  lemma {:induction false} AllKnown(known: seq<Fill>, batch: seq<Fill>)
    requires forall f :: f in batch ==> f in known
    ensures Additions(known, batch) == Ok([])
  {
    if batch != [] {
      var init, f := batch[..|batch| - 1], batch[|batch| - 1];
      AllKnown(known, init);
      assert known + [] == known;
      assert f in batch && HasKey(known, f.key);
    }
  }

  /**
   Importing keeps one fill per key, keeps what was there, takes in the whole batch, and a second time adds nothing.
   */
  lemma ImportTwice(b: Book, client: string, batch: seq<Fill>)
    requires UniqueFills(b.fills) && Import(b, client, batch).Ok?
    ensures var b' := Import(b, client, batch).value;
      && UniqueFills(b'.fills) && b.fills <= b'.fills && (forall f :: f in batch ==> f in b'.fills)
      && (forall f :: f in b'.fills ==> f in b.fills || f in batch)
      && Import(b', client, batch) == Ok(b')
  {
    hide Additions;
    AdditionsAre(b.fills, batch);
    var b' := Import(b, client, batch).value;
    AllKnown(b'.fills, batch);
    assert b'.fills + [] == b'.fills;
  }

  lemma UniqueKey(fills: seq<Fill>, f: Fill, g: Fill)
    requires UniqueFills(fills) && f in fills && g in fills && f.key == g.key
    ensures f == g
  {
    var i, j :| 0 <= i < |fills| && 0 <= j < |fills| && fills[i] == f && fills[j] == g;
  }

  /** The map finds exactly the fills of the list, by key. */
  ghost predicate Indexes(known: map<string, Fill>, fills: seq<Fill>) {
    && (forall key :: key in known <==> HasKey(fills, key))
    && (forall key :: key in known ==> known[key] in fills && known[key].key == key)
  }

  lemma Looked(known: map<string, Fill>, fills: seq<Fill>, f: Fill)
    requires Indexes(known, fills)
    ensures f.key in known <==> HasKey(fills, f.key)
    ensures f.key in known ==> known[f.key] in fills && known[f.key].key == f.key
  {
  }

  lemma IndexMore(known: map<string, Fill>, fills: seq<Fill>, f: Fill)
    requires Indexes(known, fills) && f.key !in known
    ensures Indexes(known[f.key := f], fills + [f])
  {
    forall key ensures HasKey(fills + [f], key) <==> HasKey(fills, key) || key == f.key {
      if key == f.key {
        assert f in fills + [f];
      }
      if HasKey(fills, key) {
        var g :| g in fills && g.key == key;
        assert g in fills + [f];
      }
    }
  }

  lemma NewKey(fills: seq<Fill>, i: nat)
    requires UniqueFills(fills) && i < |fills|
    ensures !HasKey(fills[..i], fills[i].key)
  {
    forall f | f in fills[..i] ensures f.key != fills[i].key {
      var k :| 0 <= k < i && fills[k] == f;
    }
  }

  class BrokerBook {
    var client: Option<string>
    var fills: seq<Fill>

    function View(): Book
      reads this
    {
      Book(client, fills)
    }

    method Index() returns (known: map<string, Fill>)
      requires UniqueFills(fills)
      ensures Indexes(known, fills)
    {
      known := map[];
      var i := 0;
      while i < |fills|
        invariant i <= |fills| && Indexes(known, fills[..i])
      {
        assert fills[..i + 1] == fills[..i] + [fills[i]];
        NewKey(fills, i);
        IndexMore(known, fills[..i], fills[i]);
        known := known[fills[i].key := fills[i]];
        i := i + 1;
      }
      assert fills[..i] == fills;
    }

    /** The fills of the batch that are not there yet, unless one of them contradicts what is. */
    method Select(batch: seq<Fill>) returns (selected: Result<seq<Fill>, ImportError>)
      requires UniqueFills(fills)
      ensures selected == Additions(fills, batch)
      ensures selected.Ok? ==> UniqueFills(fills + selected.value)
    {
      hide UniqueFills, Indexes;
      AdditionsAre(fills, batch);
      var known := Index();
      var next, i := [], 0;
      assert fills + [] == fills;
      while i < |batch|
        invariant i <= |batch| && Additions(fills, batch[..i]) == Ok(next)
        invariant UniqueFills(fills + next) && Indexes(known, fills + next)
      {
        var f := batch[i];
        assert batch[..i + 1][..i] == batch[..i];
        AdditionsAre(fills, batch[..i + 1]);
        Looked(known, fills + next, f);
        if f.key in known {
          if f != known[f.key] {
            ConflictStays(fills, batch, i + 1, known[f.key], next);
            return Err(DuplicateConflict);
          }
        } else {
          IndexMore(known, fills + next, f);
          assert fills + next + [f] == fills + (next + [f]);
          known := known[f.key := f];
          next := next + [f];
        }
        i := i + 1;
      }
      assert batch[..i] == batch;
      selected := Ok(next);
    }

    /** A batch is taken as a whole or not at all; fills already there are skipped. */
    method ImportBatch(from: string, batch: seq<Fill>) returns (r: Result<nat, ImportError>)
      requires UniqueFills(fills)
      modifies this
      ensures UniqueFills(fills)
      ensures match Import(old(View()), from, batch)
        case Ok(b) => View() == b && r == Ok(|b.fills| - |old(fills)|)
        case Err(e) => View() == old(View()) && r == Err(e)
    {
      hide UniqueFills, Additions;
      if !(1 <= |batch| <= MAX_BATCH) {
        return Err(InvalidBatch);
      }
      if client.Some? && client.value != from {
        return Err(ClientMismatch);
      }
      if |fills| > MAX_STORED {
        return Err(ImportLimit);
      }
      var selected := Select(batch);
      if selected.Err? {
        return Err(selected.error);
      }
      if |fills| + |selected.value| > MAX_STORED {
        return Err(ImportLimit);
      }
      client, fills := Some(from), fills + selected.value;
      r := Ok(|selected.value|);
    }
  }

  /** One conflicting fill spoils the batch, whatever follows it. */
  lemma {:induction false} FailedStays(known: seq<Fill>, batch: seq<Fill>, i: nat)
    requires i <= |batch| && Additions(known, batch[..i]).Err?
    ensures Additions(known, batch) == Additions(known, batch[..i])
    decreases |batch|
  {
    if i == |batch| {
      assert batch[..i] == batch;
    } else {
      assert batch[..|batch| - 1][..i] == batch[..i];
      FailedStays(known, batch[..|batch| - 1], i);
    }
  }

  lemma ConflictStays(known: seq<Fill>, batch: seq<Fill>, i: nat, other: Fill, next: seq<Fill>)
    requires 0 < i <= |batch| && Additions(known, batch[..i - 1]) == Ok(next) && UniqueFills(known + next)
    requires other in known + next && other.key == batch[i - 1].key && other != batch[i - 1]
    ensures Additions(known, batch) == Err(DuplicateConflict)
  {
    hide UniqueFills, Additions, HasKey;
    assert batch[..i][..i - 1] == batch[..i - 1] && batch[..i][i - 1] == batch[i - 1];
    OtherContent(known + next, batch[i - 1], other);
    LastConflicts(known, batch[..i], next);
    FailedStays(known, batch, i);
  }

  lemma LastConflicts(known: seq<Fill>, batch: seq<Fill>, next: seq<Fill>)
    requires batch != [] && Additions(known, batch[..|batch| - 1]) == Ok(next)
    requires HasKey(known + next, batch[|batch| - 1].key) && batch[|batch| - 1] !in known + next
    ensures Additions(known, batch) == Err(DuplicateConflict)
  {
  }

  lemma OtherContent(fills: seq<Fill>, f: Fill, other: Fill)
    requires UniqueFills(fills) && other in fills && other.key == f.key && other != f
    ensures HasKey(fills, f.key) && f !in fills
  {
    if f in fills {
      UniqueKey(fills, f, other);
    }
  }
}
