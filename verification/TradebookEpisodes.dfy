/** Which episodes a contract's fills make: one for each stretch from the buy that opens it until nothing is held. */
module TradebookEpisodes {
  import opened Tradebook

  /** The units held after the first k fills; a sale takes no more than there is. */
  function Held(rows: seq<Fill>, k: nat): nat
    requires k <= |rows|
  {
    if k == 0 then 0
    else
      var before, f := Held(rows, k - 1), rows[k - 1];
      if f.buy then before + f.quantity else if f.quantity < before then before - f.quantity else 0
  }

  /** The units bought by the fills from i to k, and what was paid for them. */
  function BoughtIn(rows: seq<Fill>, i: nat, k: nat): (nat, int)
    requires i <= k <= |rows|
    decreases k
  {
    if k == i then (0, 0)
    else
      var (units, paid), f := BoughtIn(rows, i, k - 1), rows[k - 1];
      if f.buy then (units + f.quantity, paid + f.quantity * f.price) else (units, paid)
  }

  /** What the sales from i to k received for units that were held. */
  function ReceivedIn(rows: seq<Fill>, i: nat, k: nat): int
    requires i <= k <= |rows|
    decreases k
  {
    if k == i then 0
    else
      var f := rows[k - 1];
      ReceivedIn(rows, i, k - 1) + if f.buy then 0 else Least(f.quantity, Held(rows, k - 1)) * f.price
  }

  /** Nothing was held when fill i bought, and something has been held ever since, up to k. */
  ghost predicate OpenSince(rows: seq<Fill>, i: nat, k: nat) {
    i < k <= |rows| && rows[i].buy && Held(rows, i) == 0 && forall j :: i < j <= k ==> Held(rows, j) > 0
  }

  /** The stretch that fill i opened and fill k ended. */
  ghost predicate IsEpisode(e: Episode, rows: seq<Fill>, i: nat, k: nat) {
    && OpenSince(rows, i, k) && k < |rows| && Held(rows, k + 1) == 0
    && e.openedAt == rows[i].time && e.closedAt == rows[k].time
    && (e.quantity, e.inValue) == BoughtIn(rows, i, k + 1) && e.outValue == ReceivedIn(rows, i, k + 1)
    && e.gross == e.outValue - e.inValue
  }

  /** The ledger holds as many units as are held, and its figures are those of the stretch in progress. */
  ghost predicate Tracks(l: Ledger, rows: seq<Fill>, k: nat)
    requires k <= |rows|
  {
    && |l.units| == Held(rows, k)
    && (Held(rows, k) == 0 ==> l.quantity == 0)
    && (Held(rows, k) > 0 ==> exists i :: TracksFrom(l, rows, i, k))
  }

  ghost predicate TracksFrom(l: Ledger, rows: seq<Fill>, i: nat, k: nat)
    requires k <= |rows|
  {
    && OpenSince(rows, i, k) && l.openedAt == rows[i].time
    && (l.quantity, l.inValue) == BoughtIn(rows, i, k) && l.outValue == ReceivedIn(rows, i, k)
  }

  lemma BuyTracks(l: Ledger, rows: seq<Fill>, k: nat)
    requires k < |rows| && rows[k].buy && 0 < rows[k].quantity && Tracks(l, rows, k)
    ensures Tracks(Buy(l, rows[k]), rows, k + 1)
  {
    var l' := Buy(l, rows[k]);
    if Held(rows, k) == 0 {
      assert BoughtIn(rows, k, k) == (0, 0) && ReceivedIn(rows, k, k) == 0;
      assert TracksFrom(l', rows, k, k + 1);
    } else {
      var i :| TracksFrom(l, rows, i, k);
      assert TracksFrom(l', rows, i, k + 1);
    }
  }

  lemma SellShort(l: Ledger, rows: seq<Fill>, k: nat)
    requires k < |rows| && !rows[k].buy && Tracks(l, rows, k) && Held(rows, k) == 0
    ensures var l' := Close(Sell(l, rows[k]), rows[k]); Tracks(l', rows, k + 1) && l'.episodes == l.episodes
  {
  }

  lemma SellSome(l: Ledger, rows: seq<Fill>, k: nat)
    requires k < |rows| && !rows[k].buy && Tracks(l, rows, k) && Held(rows, k + 1) > 0
    ensures var l' := Close(Sell(l, rows[k]), rows[k]); Tracks(l', rows, k + 1) && l'.episodes == l.episodes
  {
    hide Gain;
    var i :| TracksFrom(l, rows, i, k);
    assert TracksFrom(Close(Sell(l, rows[k]), rows[k]), rows, i, k + 1);
  }

  lemma SellRest(l: Ledger, rows: seq<Fill>, k: nat)
    requires k < |rows| && !rows[k].buy && 0 < rows[k].quantity && Tracks(l, rows, k) && InBalance(l)
    requires Held(rows, k) > 0 && Held(rows, k + 1) == 0
    ensures var l' := Close(Sell(l, rows[k]), rows[k]);
      Tracks(l', rows, k + 1) && exists e, i :: IsEpisode(e, rows, i, k) && l'.episodes == l.episodes + [e]
  {
    hide Sum;
    var i :| TracksFrom(l, rows, i, k);
    var sold := Sell(l, rows[k]);
    assert l.units[..|l.units|] == l.units;
    var e := Episode(sold.quantity, sold.openedAt, rows[k].time, sold.inValue, sold.outValue, sold.gross);
    assert IsEpisode(e, rows, i, k);
  }

  /** What fill k adds to the episodes: one when it sells the last unit held, and none otherwise. */
  ghost predicate AddsEpisode(before: seq<Episode>, after: seq<Episode>, rows: seq<Fill>, k: nat) {
    if exists i :: OpenSince(rows, i, k) && k < |rows| && Held(rows, k + 1) == 0
    then exists e, i :: IsEpisode(e, rows, i, k) && after == before + [e]
    else after == before
  }

  /** The ledger of the first k fills. */
  function LedgerAt(rows: seq<Fill>, k: nat): Ledger
    requires k <= |rows|
  {
    Run(rows[..k])
  }

  lemma LedgerStep(rows: seq<Fill>, k: nat)
    requires k < |rows|
    ensures LedgerAt(rows, k + 1) == Step(LedgerAt(rows, k), rows[k])
  {
    hide Step;
    assert rows[..k + 1][..k] == rows[..k];
  }

  lemma OpenWhileHeld(l: Ledger, rows: seq<Fill>, k: nat)
    requires k <= |rows| && Tracks(l, rows, k)
    ensures Held(rows, k) > 0 <==> exists i :: OpenSince(rows, i, k)
  {
    if Held(rows, k) > 0 {
      var i :| TracksFrom(l, rows, i, k);
      assert OpenSince(rows, i, k);
    }
  }

  lemma FillTracks(l: Ledger, rows: seq<Fill>, k: nat)
    requires k < |rows| && 0 < rows[k].quantity && Tracks(l, rows, k) && InBalance(l)
    ensures var l' := Step(l, rows[k]); Tracks(l', rows, k + 1) && AddsEpisode(l.episodes, l'.episodes, rows, k)
  {
    hide Tracks, InBalance, Buy, Sell, Close, IsEpisode, OpenSince;
    OpenWhileHeld(l, rows, k);
    if rows[k].buy {
      BuyTracks(l, rows, k);
      BuyAdds(l, rows[k]);
    } else if Held(rows, k) == 0 {
      SellShort(l, rows, k);
    } else if Held(rows, k + 1) > 0 {
      SellSome(l, rows, k);
    } else {
      SellRest(l, rows, k);
    }
  }

  lemma BuyAdds(l: Ledger, f: Fill)
    ensures Buy(l, f).episodes == l.episodes
  {
  }

  lemma {:induction false} RunTracks(rows: seq<Fill>, k: nat)
    requires Positive(rows) && k <= |rows|
    ensures Tracks(LedgerAt(rows, k), rows, k)
    ensures k < |rows| ==> AddsEpisode(LedgerAt(rows, k).episodes, LedgerAt(rows, k + 1).episodes, rows, k)
  {
    hide Tracks, AddsEpisode, Step, LedgerAt;
    if k == 0 {
      NothingTracked(rows);
    } else {
      RunTracks(rows, k - 1);
      LedgerStep(rows, k - 1);
      assert rows[k - 1] in rows;
      PrefixBalances(rows, k - 1);
      FillTracks(LedgerAt(rows, k - 1), rows, k - 1);
    }
    if k < |rows| {
      LedgerStep(rows, k);
      assert rows[k] in rows;
      PrefixBalances(rows, k);
      FillTracks(LedgerAt(rows, k), rows, k);
    }
  }

  lemma NothingTracked(rows: seq<Fill>)
    ensures Tracks(LedgerAt(rows, 0), rows, 0)
  {
  }

  lemma PrefixBalances(rows: seq<Fill>, k: nat)
    requires Positive(rows) && k <= |rows|
    ensures InBalance(LedgerAt(rows, k))
  {
    EpisodesBalance(rows[..k]);
  }

  /**
   The episodes of a contract are exactly the stretches in which something was held, each ended by the sale of the last
   unit, with what was bought and received in it.
   */
  lemma EpisodesAre(rows: seq<Fill>, k: nat)
    requires Positive(rows) && k < |rows|
    ensures Run(rows[..0]).episodes == []
    ensures AddsEpisode(Run(rows[..k]).episodes, Run(rows[..k + 1]).episodes, rows, k)
  {
    RunTracks(rows, k);
  }
}
