/** The store: one record and the archive beside it, changed together or not at all. */
module SandboxStores {
  import opened Wrappers
  import opened SandboxTypes
  import opened SandboxSpec
  import opened SandboxInvariant
  import opened SandboxArchive

  /** What a reducer leaves: the record, the rows it moved out of it, and its answer. */
  datatype Change<R> = Change(state: State, queue: seq<ArchiveRow>, result: R)

  predicate HasRow(archive: seq<ArchiveRow>, id: TradeId) {
    exists a :: a in archive && a.trade.id == id
  }

  /** A row whose id is in the archive already is left out. */
  function Inserted(archive: seq<ArchiveRow>, queue: seq<ArchiveRow>): seq<ArchiveRow> {
    if queue == [] then archive
    else
      var before := Inserted(archive, queue[..|queue| - 1]);
      var row := queue[|queue| - 1];
      if HasRow(before, row.trade.id) then before else before + [row]
  }

  class SandboxStore {
    var saved: State
    var archive: seq<ArchiveRow>

    constructor (policy: Policy)
      ensures saved == InitialState(policy) && archive == []
    {
      saved := InitialState(policy);
      archive := [];
    }

    /**
     Runs the reducer on the record and commits what it leaves, with its archive rows. failsAt is None when every
     query goes through, and otherwise says after how many inserted rows the database gives up.
     */
    method Mutate<R>(reducer: State -> Result<Change<R>, Error>, failsAt: Option<nat>) returns (r: Result<R, Error>)
      modifies this
      ensures r.Err? ==> saved == old(saved) && archive == old(archive)
      ensures r.Ok? ==>
        && reducer(old(saved)).Ok?
        && var change := reducer(old(saved)).value;
        saved == change.state && archive == Inserted(old(archive), change.queue) && r.value == change.result
          && PolicyOk(saved.policy)
      ensures
        failsAt.None? && PolicyOk(old(saved).policy) && reducer(old(saved)).Ok?
        && PolicyOk(reducer(old(saved)).value.state.policy) ==>
        r.Ok?
    {
      if !PolicyOk(saved.policy) {
        return Err(InvalidState);
      }
      var done := reducer(saved);
      if done.Err? {
        return Err(done.error);
      }
      var error := Save(done.value.state, done.value.queue, failsAt);
      r := if error.Some? then Err(error.value) else Ok(done.value.result);
    }

    /** Commits the record with its archive rows, or puts everything back. */
    method Save(s: State, queue: seq<ArchiveRow>, failsAt: Option<nat>) returns (error: Option<Error>)
      modifies this
      ensures error.Some? ==> saved == old(saved) && archive == old(archive)
      ensures error.None? ==> saved == s && archive == Inserted(old(archive), queue) && PolicyOk(s.policy)
      ensures failsAt.None? && PolicyOk(s.policy) ==> error.None?
    {
      if !PolicyOk(s.policy) {
        return Some(InvalidState);
      }
      var before, i := archive, 0;
      while i < |queue| && (failsAt.None? || i < failsAt.value)
        invariant i <= |queue|
        invariant saved == old(saved) && archive == Inserted(old(archive), queue[..i])
      {
        assert queue[..i + 1][..i] == queue[..i];
        if !HasRow(archive, queue[i].trade.id) {
          archive := archive + [queue[i]];
        }
        i := i + 1;
      }
      if failsAt.Some? {
        archive := before;
        return Some(StorageFailed);
      }
      assert queue[..i] == queue;
      saved := s;
      error := None;
    }
  }

  // No trade is ever in both places, and none is lost.

  /** Every trade has one home: the record or the archive. */
  ghost predicate OneHome(s: State, archive: seq<ArchiveRow>) {
    && UniqueTrades(s.trades)
    && (forall i, j :: 0 <= i < j < |archive| ==> archive[i].trade.id != archive[j].trade.id)
    && (forall a, t :: a in archive && t in s.trades ==> a.trade.id != t.id)
  }

  ghost predicate Planted(s: State, archive: seq<ArchiveRow>, t: Trade) {
    t in s.trades || InRows(archive, t)
  }

  /** Rows of trades that are not archived yet all go in, in order. */
  lemma {:induction false} AllInserted(archive: seq<ArchiveRow>, queue: seq<ArchiveRow>)
    requires forall a, b :: a in archive && b in queue ==> a.trade.id != b.trade.id
    requires forall i, j :: 0 <= i < j < |queue| ==> queue[i].trade.id != queue[j].trade.id
    ensures Inserted(archive, queue) == archive + queue
  {
    if queue != [] {
      var init, row := queue[..|queue| - 1], queue[|queue| - 1];
      AllInserted(archive, init);
      forall a | a in archive + init ensures a.trade.id != row.trade.id {
        if a in init {
          var k :| 0 <= k < |init| && init[k] == a;
          assert queue[k].trade.id != queue[|queue| - 1].trade.id;
        }
      }
    }
  }

  /**
   Archiving in a committed transaction loses nothing, not even to the rule that skips rows already archived: every
   trade and order is in the record or the archive as before, each trade in one of them only, and the result that
   sets the capital ceiling is unchanged.
   */
  lemma ArchivingKeepsHistory(s: State, archive: seq<ArchiveRow>, max: nat, now: int)
    requires Sound(s) && OneHome(s, archive)
    ensures var (s', rows) := Archive(s, s.trades, max, now);
      && Inserted(archive, rows) == archive + rows
      && OneHome(s', Inserted(archive, rows))
      && (forall t :: Planted(s, archive, t) <==> Planted(s', Inserted(archive, rows), t))
      && ClosedPnl(s'.trades) + s'.archivedPnl == ClosedPnl(s.trades) + s.archivedPnl
  {
    hide Sound, Archive;
    ArchiveConserves(s, s.trades, max, now);
    var (s', rows) := Archive(s, s.trades, max, now);
    ArchivedSound(s, max, now);
    forall a, b | a in archive && b in rows ensures a.trade.id != b.trade.id {
      assert InRows(rows, b.trade);
    }
    AllInserted(archive, rows);
    var both := archive + rows;
    forall t ensures InRows(both, t) <==> InRows(archive, t) || InRows(rows, t) {
    }
    forall i, j | 0 <= i < j < |both| ensures both[i].trade.id != both[j].trade.id {
      if i < |archive| <= j {
        assert archive[i] in archive && rows[j - |archive|] in rows;
      }
    }
  }

  lemma ArchivedSound(s: State, max: nat, now: int)
    requires Sound(s) && UniqueTrades(s.trades)
    ensures UniqueTrades(Archive(s, s.trades, max, now).0.trades)
  {
    hide Archive;
    ArchiveConserves(s, s.trades, max, now);
  }
}
