/** What a load returns and when it fails, said on the rows alone. */
module ArchiveAnswers {
  import opened Wrappers
  import opened ArchiveLoader
  import opened ArchiveLoaderProofs

  /** The rows of a load are in order of time, and of the key when the time is the same. */
  lemma LoadedInOrder(prior: Option<Cache>, snap: seq<Row>)
    requires PriorOk(prior) && Snapshot(snap) && Load(prior, snap).Ok?
    ensures var rows := Load(prior, snap).value.cache.entries;
      forall i, j :: 0 <= i < j < |rows| ==>
        rows[i].at <= rows[j].at && (rows[i].at == rows[j].at ==> rows[i].key <= rows[j].key)
  {
    hide Load, PriorOk, Snapshot, NoRepeats, SizeOf;
    LoadKeepsCache(prior, snap);
  }

  lemma CarriedBytes(prior: Option<Cache>, snap: seq<Row>)
    requires PriorOk(prior)
    ensures var p := PlanLoad(prior, snap); BytesBefore(prior, p) == SizeOf(p.kept)
  {
    hide PlanLoad, InOrder, NoRepeats;
    PlanCounts(prior, snap);
  }

  /** The rows of a plan that carried nothing stale over are those of the snapshot, and so are their bytes. */
  lemma PlanBytes(prior: Option<Cache>, snap: seq<Row>)
    requires PriorOk(prior) && Snapshot(snap) && Undisturbed(prior, snap)
    ensures var p := PlanLoad(prior, snap); SizeOf(p.kept) + SizeOf(p.evidence) == SizeOf(snap)
  {
    hide PlanLoad, Joined, Sorted, SizeOf;
    var p := PlanLoad(prior, snap);
    if prior.Some? {
      PlanIsOk(prior.value, snap);
    } else {
      ColdIsOk(snap);
    }
    PlanCounts(prior, snap);
    WithKeysIs(Cached(prior), Keys(snap));
    EntriesAre(p, Cached(prior), snap);
    SameRowsExact(Joined(p.kept, Sorted(p.evidence)), snap);
    SizeOfSorted(snap);
  }

  /**
   A load that carries nothing stale over fails exactly when the archive has more than fifty thousand rows, or when
   something was fetched and the rows take more than thirty-two megabytes.
   */
  lemma LoadFailsIff(prior: Option<Cache>, snap: seq<Row>)
    requires PriorOk(prior) && Snapshot(snap) && Undisturbed(prior, snap)
    ensures Load(prior, snap).Err? <==>
      |snap| > 50000 || (PlanLoad(prior, snap).evidence != [] && SizeOf(snap) > 32 * 1024 * 1024)
  {
    hide PlanLoad, Finish, SizeOf, PriorOk, Snapshot, Undisturbed, BytesBefore;
    var p := PlanLoad(prior, snap);
    PlanCounts(prior, snap);
    CarriedBytes(prior, snap);
    PlanBytes(prior, snap);
    NoMismatch(prior, snap);
  }

  lemma NoMismatch(prior: Option<Cache>, snap: seq<Row>)
    requires PriorOk(prior) && Snapshot(snap)
    ensures forall total :: Finish(prior, PlanLoad(prior, snap), total, |snap|).Ok?
  {
    hide PlanLoad, Joined, Sorted, RawSizeOf, MaxSeq, InOrder, NoRepeats, Snapshot;
    var p := PlanLoad(prior, snap);
    if prior.Some? {
      PlanIsOk(prior.value, snap);
    } else {
      ColdIsOk(snap);
    }
    PlanCounts(prior, snap);
    EntriesAre(p, Cached(prior), snap);
  }
}
