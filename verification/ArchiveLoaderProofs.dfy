/** The cache against the archive: what every load keeps, when it equals a full read, and what the fallback is for. */
module ArchiveLoaderProofs {
  import opened Wrappers
  import opened ArchiveLoader

  ghost predicate InOrder(rows: seq<Row>) {
    forall i, j :: 0 <= i < j < |rows| ==> !Earlier(rows[j], rows[i])
  }

  ghost predicate NoRepeats(rows: seq<Row>) {
    forall i, j :: 0 <= i < j < |rows| ==> rows[i] != rows[j]
  }

  ghost predicate UniqueKeys(rows: seq<Row>) {
    forall i, j :: 0 <= i < j < |rows| ==> rows[i].key != rows[j].key
  }

  /** One snapshot of the archive: the key is the primary key. */
  ghost predicate Snapshot(snap: seq<Row>) {
    UniqueKeys(snap)
  }

  /** What every cache keeps, whatever happened to the archive. */
  ghost predicate CacheOk(c: Cache) {
    && InOrder(c.entries) && NoRepeats(c.entries)
    && (forall r :: r in c.entries ==> r.seqNo <= c.cursor)
    && c.bytes == SizeOf(c.entries)
  }

  /** The cache is what a full read of the snapshot returns. */
  ghost predicate Exact(c: Cache, snap: seq<Row>) {
    c.entries == Sorted(snap)
  }

  // Sorting.

  lemma {:induction false} InsertIs(rows: seq<Row>, r: Row)
    requires InOrder(rows)
    ensures InOrder(InsertRow(rows, r)) && |InsertRow(rows, r)| == |rows| + 1
    ensures multiset(InsertRow(rows, r)) == multiset(rows) + multiset{r}
  {
    if rows != [] && Earlier(r, rows[|rows| - 1]) {
      var init, last := rows[..|rows| - 1], rows[|rows| - 1];
      InsertIs(init, r);
      assert rows == init + [last];
      InsertedBefore(InsertRow(init, r), init, r, last);
    }
  }

  lemma InsertedBefore(before: seq<Row>, init: seq<Row>, r: Row, last: Row)
    requires multiset(before) == multiset(init) + multiset{r} && InOrder(before)
    requires InOrder(init + [last]) && Earlier(r, last)
    ensures InOrder(before + [last])
  {
    forall i | 0 <= i < |before| ensures !Earlier(last, before[i]) {
      assert before[i] in multiset(before);
      if before[i] != r {
        assert before[i] in multiset(init);
        var k :| 0 <= k < |init| && init[k] == before[i];
        assert (init + [last])[k] == before[i] && (init + [last])[|init|] == last;
      }
    }
  }

  lemma {:induction false} SortedIs(rows: seq<Row>)
    ensures InOrder(Sorted(rows)) && |Sorted(rows)| == |rows| && multiset(Sorted(rows)) == multiset(rows)
  {
    hide InOrder, InsertRow;
    if rows == [] {
      NothingInOrder();
    }
    if rows != [] {
      var init, last := rows[..|rows| - 1], rows[|rows| - 1];
      SortedIs(init);
      InsertIs(Sorted(init), last);
      assert rows == init + [last];
    }
  }

  lemma NothingInOrder()
    ensures InOrder([])
  {
  }

  lemma SortedMembers(rows: seq<Row>)
    ensures forall r :: r in Sorted(rows) <==> r in rows
  {
    SortedIs(rows);
    forall r ensures r in Sorted(rows) <==> r in rows {
      assert r in Sorted(rows) <==> r in multiset(Sorted(rows));
    }
  }

  lemma NoRepeatsCount(rows: seq<Row>)
    ensures NoRepeats(rows) <==> forall r :: multiset(rows)[r] <= 1
  {
    if rows != [] {
      var init, last := rows[..|rows| - 1], rows[|rows| - 1];
      NoRepeatsCount(init);
      assert rows == init + [last];
      if NoRepeats(rows) {
        assert last !in init;
      } else if NoRepeats(init) {
        var i :| 0 <= i < |init| && init[i] == last;
        assert multiset(rows)[last] >= 2;
      } else {
        var r :| multiset(init)[r] > 1;
        assert multiset(rows)[r] > 1;
      }
    }
  }

  lemma SortedNoRepeats(rows: seq<Row>)
    ensures NoRepeats(Sorted(rows)) <==> NoRepeats(rows)
  {
    SortedIs(rows);
    NoRepeatsCount(rows);
    NoRepeatsCount(Sorted(rows));
  }

  /** Rows with distinct keys have one order only. */
  lemma {:induction false} OneOrder(xs: seq<Row>, ys: seq<Row>)
    requires InOrder(xs) && InOrder(ys) && UniqueKeys(xs) && UniqueKeys(ys)
    requires forall r :: r in xs <==> r in ys
    ensures xs == ys
    decreases |xs|
  {
    hide InOrder, UniqueKeys;
    assert ys == [] || ys[0] in xs;
    if xs != [] {
      assert xs[|xs| - 1] in ys;
      LastIsGreatest(xs, ys);
      var xinit, yinit, last := xs[..|xs| - 1], ys[..|ys| - 1], xs[|xs| - 1];
      assert xs == xinit + [last] && ys == yinit + [last];
      InitKeeps(xs);
      InitKeeps(ys);
      forall r ensures r in xinit <==> r in yinit {
        InitMembers(xs, r);
        InitMembers(ys, r);
      }
      OneOrder(xinit, yinit);
    }
  }

  lemma InitKeeps(xs: seq<Row>)
    requires xs != [] && InOrder(xs) && UniqueKeys(xs)
    ensures InOrder(xs[..|xs| - 1]) && UniqueKeys(xs[..|xs| - 1])
  {
  }

  lemma InitMembers(xs: seq<Row>, r: Row)
    requires xs != [] && UniqueKeys(xs)
    ensures r in xs[..|xs| - 1] <==> r in xs && r != xs[|xs| - 1]
  {
    assert xs == xs[..|xs| - 1] + [xs[|xs| - 1]];
    if r in xs[..|xs| - 1] {
      var i :| 0 <= i < |xs| - 1 && xs[i] == r;
    }
  }

  lemma LastIsGreatest(xs: seq<Row>, ys: seq<Row>)
    requires xs != [] && ys != [] && InOrder(xs) && InOrder(ys) && UniqueKeys(xs) && UniqueKeys(ys)
    requires forall r :: r in xs <==> r in ys
    ensures xs[|xs| - 1] == ys[|ys| - 1]
  {
    var x, y := xs[|xs| - 1], ys[|ys| - 1];
    assert x in ys && y in xs;
    var i :| 0 <= i < |xs| && xs[i] == y;
    var j :| 0 <= j < |ys| && ys[j] == x;
    assert i == |xs| - 1 || !Earlier(x, y);
    assert j == |ys| - 1 || !Earlier(y, x);
  }

  // Queries.

  lemma {:induction false} AfterIs(snap: seq<Row>, cursor: nat)
    ensures forall r :: r in After(snap, cursor) <==> r in snap && r.seqNo > cursor
    ensures UniqueKeys(snap) ==> UniqueKeys(After(snap, cursor))
  {
    if snap != [] {
      var init, last := snap[..|snap| - 1], snap[|snap| - 1];
      AfterIs(init, cursor);
      assert snap == init + [last];
      if UniqueKeys(snap) {
        PickedUnique(init, After(init, cursor), last);
      }
    }
  }

  lemma PickedUnique(init: seq<Row>, picked: seq<Row>, last: Row)
    requires UniqueKeys(init + [last]) && UniqueKeys(picked) && forall r :: r in picked ==> r in init
    ensures UniqueKeys(picked + [last])
  {
    forall i | 0 <= i < |picked| ensures picked[i].key != last.key {
      assert picked[i] in picked;
      var k :| 0 <= k < |init| && init[k] == picked[i];
      assert (init + [last])[k].key != (init + [last])[|init|].key;
    }
  }

  lemma {:induction false} WithKeysIs(snap: seq<Row>, keys: set<int>)
    ensures forall r :: r in WithKeys(snap, keys) <==> r in snap && r.key in keys
    ensures UniqueKeys(snap) ==> UniqueKeys(WithKeys(snap, keys))
  {
    if snap != [] {
      var init, last := snap[..|snap| - 1], snap[|snap| - 1];
      WithKeysIs(init, keys);
      assert snap == init + [last];
      if UniqueKeys(snap) {
        assert UniqueKeys(init);
        PickedUnique(init, WithKeys(init, keys), last);
      }
    }
  }

  lemma UniqueMeansNoRepeats(rows: seq<Row>)
    requires UniqueKeys(rows)
    ensures NoRepeats(rows)
  {
  }

  /** Two lists without repeats and without a common row. */
  lemma JoinedNoRepeats(xs: seq<Row>, ys: seq<Row>)
    requires NoRepeats(xs) && NoRepeats(ys) && forall r :: r in xs ==> r !in ys
    ensures NoRepeats(xs + ys)
  {
    forall i, j | 0 <= i < j < |xs + ys| ensures (xs + ys)[i] != (xs + ys)[j] {
      if i < |xs| <= j {
        assert xs[i] in xs && ys[j - |xs|] in ys;
      }
    }
  }

  /** A list without repeats of a set of rows, as long as the set is all of it. */
  lemma SameLengthSameRows(xs: seq<Row>, snap: seq<Row>)
    requires NoRepeats(xs) && NoRepeats(snap) && |xs| == |snap| && forall r :: r in xs ==> r in snap
    ensures forall r :: r in snap ==> r in xs
  {
    var a, b := set r | r in xs, set r | r in snap;
    RowsCount(xs);
    RowsCount(snap);
    assert a <= b;
    if r :| r in snap && r !in xs {
      assert a <= b - {r};
      SubsetSize(a, b - {r});
    }
  }

  lemma SubsetSize(a: set<Row>, b: set<Row>)
    requires a <= b
    ensures |a| <= |b|
  {
    assert b == a + (b - a);
  }

  lemma {:induction false} RowsCount(xs: seq<Row>)
    requires NoRepeats(xs)
    ensures |set r | r in xs| == |xs|
  {
    if xs != [] {
      var init, last := xs[..|xs| - 1], xs[|xs| - 1];
      RowsCount(init);
      assert (set r | r in xs) == (set r | r in init) + {last};
      assert last !in init;
    }
  }

  // What was fetched.

  /** The rows that were fetched are of the snapshot, none of them cached, and none twice. */
  ghost predicate PlanOk(p: Plan, cached: seq<Row>, snap: seq<Row>) {
    && NoRepeats(p.evidence) && (forall r :: r in p.evidence ==> r in snap)
    && (forall r :: r in p.evidence ==> r !in p.kept)
    && (forall r :: r in p.kept ==> r in cached) && NoRepeats(p.kept) && InOrder(p.kept)
  }

  lemma {:induction false} KeptKeeps(rows: seq<Row>, keys: set<int>)
    requires InOrder(rows) && NoRepeats(rows)
    ensures InOrder(WithKeys(rows, keys)) && NoRepeats(WithKeys(rows, keys))
  {
    if rows != [] {
      var init, last := rows[..|rows| - 1], rows[|rows| - 1];
      KeptKeeps(init, keys);
      WithKeysIs(init, keys);
      var kept := WithKeys(init, keys);
      forall i | 0 <= i < |kept| ensures !Earlier(last, kept[i]) && kept[i] != last {
        assert kept[i] in kept;
        var k :| 0 <= k < |init| && init[k] == kept[i];
        assert rows[k] == kept[i] && rows[|init|] == last;
      }
    }
  }

  lemma FreshRows(c: Cache, snap: seq<Row>)
    requires CacheOk(c) && Snapshot(snap)
    ensures var newer := After(snap, c.cursor);
      NoRepeats(newer) && forall r :: r in newer ==> r in snap && r !in c.entries
  {
    AfterIs(snap, c.cursor);
    UniqueMeansNoRepeats(After(snap, c.cursor));
  }

  /** Rows fetched by keys that are neither cached nor fetched already. */
  lemma MissingRows(c: Cache, snap: seq<Row>, fetched: seq<Row>, keys: set<int>)
    requires CacheOk(c) && Snapshot(snap) && NoRepeats(fetched)
    requires forall r :: r in fetched ==> r in snap && r !in c.entries
    ensures var more := fetched + WithKeys(snap, keys - Keys(c.entries) - Keys(fetched));
      NoRepeats(more) && forall r :: r in more ==> r in snap && r !in c.entries
  {
    var wanted := keys - Keys(c.entries) - Keys(fetched);
    WithKeysIs(snap, wanted);
    UniqueMeansNoRepeats(WithKeys(snap, wanted));
    forall r | r in fetched ensures r !in WithKeys(snap, wanted) {
      assert r.key in Keys(fetched);
    }
    forall r | r in WithKeys(snap, wanted) ensures r !in c.entries {
      assert r in c.entries ==> r.key in Keys(c.entries);
    }
    JoinedNoRepeats(fetched, WithKeys(snap, wanted));
  }

  lemma PlanIsOk(c: Cache, snap: seq<Row>)
    requires CacheOk(c) && Snapshot(snap)
    ensures PlanOk(PlanLoad(Some(c), snap), c.entries, snap)
  {
    hide After, WithKeys;
    FreshRows(c, snap);
    UniqueMeansNoRepeats(snap);
    var newer := After(snap, c.cursor);
    MissingRows(c, snap, newer, WindowKeys(snap, c.cursor));
    var near := newer + WithKeys(snap, WindowKeys(snap, c.cursor) - Keys(c.entries) - Keys(newer));
    MissingRows(c, snap, near, Keys(snap));
    KeptKeeps(c.entries, Keys(snap));
    WithKeysIs(c.entries, Keys(snap));
  }

  // What every load keeps.

  lemma JoinedIs(kept: seq<Row>, added: seq<Row>)
    requires InOrder(kept) && InOrder(added)
    ensures var all := Joined(kept, added);
      InOrder(all) && |all| == |kept| + |added| && multiset(all) == multiset(kept) + multiset(added)
  {
    SortedIs(kept + added);
    if !(kept != [] && added != [] && Earlier(added[0], kept[|kept| - 1])) {
      var all := kept + added;
      forall i, j | 0 <= i < j < |all| ensures !Earlier(all[j], all[i]) {
        if i < |kept| <= j {
          assert !Earlier(kept[|kept| - 1], kept[i]) || i == |kept| - 1;
          assert !Earlier(added[j - |kept|], added[0]) || j == |kept|;
        }
      }
    }
  }

  lemma {:induction false} SizeOfConcat(xs: seq<Row>, ys: seq<Row>)
    ensures SizeOf(xs + ys) == SizeOf(xs) + SizeOf(ys)
  {
    if ys == [] {
      assert xs + ys == xs;
    } else {
      SizeOfConcat(xs, ys[..|ys| - 1]);
      assert (xs + ys)[..|xs + ys| - 1] == xs + ys[..|ys| - 1];
    }
  }

  lemma {:induction false} SizeOfInsert(rows: seq<Row>, r: Row)
    ensures SizeOf(InsertRow(rows, r)) == SizeOf(rows) + r.size
  {
    if rows == [] || !Earlier(r, rows[|rows| - 1]) {
      SizeOfConcat(rows, [r]);
      assert SizeOf([r]) == r.size;
    } else {
      SizeOfInsert(rows[..|rows| - 1], r);
      var before, last := InsertRow(rows[..|rows| - 1], r), rows[|rows| - 1];
      assert (before + [last])[..|before|] == before;
    }
  }

  lemma {:induction false} SizeOfSorted(rows: seq<Row>)
    ensures SizeOf(Sorted(rows)) == SizeOf(rows)
  {
    if rows != [] {
      SizeOfSorted(rows[..|rows| - 1]);
      SizeOfInsert(Sorted(rows[..|rows| - 1]), rows[|rows| - 1]);
    }
  }

  lemma SizeOfJoined(kept: seq<Row>, added: seq<Row>)
    ensures SizeOf(Joined(kept, added)) == SizeOf(kept) + SizeOf(added)
  {
    SizeOfConcat(kept, added);
    SizeOfSorted(kept + added);
  }

  lemma {:induction false} MaxSeqDominates(rows: seq<Row>, least: nat)
    ensures least <= MaxSeq(rows, least) && forall r :: r in rows ==> r.seqNo <= MaxSeq(rows, least)
  {
    if rows != [] {
      MaxSeqDominates(rows[..|rows| - 1], least);
      assert rows == rows[..|rows| - 1] + [rows[|rows| - 1]];
    }
  }

  lemma EntriesAre(p: Plan, cached: seq<Row>, snap: seq<Row>)
    requires PlanOk(p, cached, snap)
    ensures var entries := Joined(p.kept, Sorted(p.evidence));
      && InOrder(entries) && NoRepeats(entries) && |entries| == |p.kept| + |p.evidence|
      && (forall r :: r in entries <==> r in p.kept || r in p.evidence)
      && SizeOf(entries) == SizeOf(p.kept) + SizeOf(p.evidence)
  {
    hide Joined, Sorted;
    SortedIs(p.evidence);
    SortedMembers(p.evidence);
    JoinedIs(p.kept, Sorted(p.evidence));
    SizeOfSorted(p.evidence);
    SizeOfJoined(p.kept, Sorted(p.evidence));
    var entries := Joined(p.kept, Sorted(p.evidence));
    JoinedNoRepeats(p.kept, p.evidence);
    NoRepeatsCount(p.kept + p.evidence);
    NoRepeatsCount(entries);
    assert multiset(entries) == multiset(p.kept + p.evidence);
    forall r ensures r in entries <==> r in p.kept || r in p.evidence {
      assert r in entries <==> r in multiset(entries);
      assert r in p.kept + p.evidence <==> r in multiset(p.kept + p.evidence);
    }
  }

  lemma ColdIsOk(snap: seq<Row>)
    requires Snapshot(snap)
    ensures PlanOk(PlanLoad(None, snap), [], snap)
  {
    UniqueMeansNoRepeats(snap);
  }

  ghost predicate PriorOk(prior: Option<Cache>) {
    prior.Some? ==> CacheOk(prior.value)
  }

  function Cached(prior: Option<Cache>): seq<Row> {
    if prior.Some? then prior.value.entries else []
  }

  /**
   Every load leaves the entries in order, none twice, the cursor at or above every cached sequence number, and the
   byte count equal to the summed size of the entries, whatever happened to the archive in between. The final count
   test never fails.
   */
  lemma LoadKeepsCache(prior: Option<Cache>, snap: seq<Row>)
    requires PriorOk(prior) && Snapshot(snap)
    ensures var r := Load(prior, snap);
      && (r.Ok? ==> CacheOk(r.value.cache) && |r.value.cache.entries| == |snap|)
      && (r.Err? ==> r.error == SourceLimit)
  {
    hide PlanLoad, Joined, Sorted, RawSizeOf, MaxSeq, InOrder, NoRepeats, Snapshot;
    var p := PlanLoad(prior, snap);
    if prior.Some? {
      PlanIsOk(prior.value, snap);
    } else {
      ColdIsOk(snap);
    }
    PlanCounts(prior, snap);
    EntriesAre(p, Cached(prior), snap);
    var entries := Joined(p.kept, Sorted(p.evidence));
    MaxSeqDominates(entries, CursorBefore(prior, p));
  }

  /** The path taken is the one whose count came out right; the first two keep the whole cache. */
  lemma PlanCounts(prior: Option<Cache>, snap: seq<Row>)
    ensures var p := PlanLoad(prior, snap);
      && |p.kept| + |p.evidence| == |snap|
      && (p.path in {Quick, Windowed, Scanned} ==> prior.Some?)
      && (p.path in {Quick, Windowed} ==> p.kept == prior.value.entries)
      && (p.path in {Cold, Fallback} ==> p.kept == [] && p.evidence == snap)
      && (p.path == Scanned ==> p.kept == WithKeys(prior.value.entries, Keys(snap)))
  {
    hide After, WithKeys;
  }

  // When a load equals a full read.

  /** No cached row that the load would carry over has left the archive or changed in it. */
  ghost predicate Undisturbed(prior: Option<Cache>, snap: seq<Row>) {
    match PlanLoad(prior, snap).path
    case Quick => forall e :: e in prior.value.entries ==> e in snap
    case Windowed => forall e :: e in prior.value.entries ==> e in snap
    case Scanned => forall e :: e in prior.value.entries && e.key in Keys(snap) ==> e in snap
    case _ => true
  }

  lemma SameRowsExact(entries: seq<Row>, snap: seq<Row>)
    requires InOrder(entries) && NoRepeats(entries) && Snapshot(snap) && |entries| == |snap|
    requires forall r :: r in entries ==> r in snap
    ensures entries == Sorted(snap)
  {
    UniqueMeansNoRepeats(snap);
    SameLengthSameRows(entries, snap);
    SortedIs(snap);
    SortedMembers(snap);
    SortedUnique(snap);
    KeysUnique(entries, snap);
    OneOrder(entries, Sorted(snap));
  }

  lemma KeysUnique(entries: seq<Row>, snap: seq<Row>)
    requires NoRepeats(entries) && UniqueKeys(snap) && forall r :: r in entries ==> r in snap
    ensures UniqueKeys(entries)
  {
    forall i, j | 0 <= i < j < |entries| ensures entries[i].key != entries[j].key {
      assert entries[i] in entries && entries[j] in entries;
      var k :| 0 <= k < |snap| && snap[k] == entries[i];
      var l :| 0 <= l < |snap| && snap[l] == entries[j];
    }
  }

  lemma SortedUnique(snap: seq<Row>)
    requires UniqueKeys(snap)
    ensures UniqueKeys(Sorted(snap))
  {
    UniqueMeansNoRepeats(snap);
    SortedNoRepeats(snap);
    SortedMembers(snap);
    KeysUnique(Sorted(snap), snap);
  }

  /**
   A load that succeeds returns what a full read of the same snapshot would, exactly when no cached row it carried
   over had been deleted or replaced. On the two paths decided by a count alone that means no cached row at all.
   */
  lemma LoadExactIff(prior: Option<Cache>, snap: seq<Row>)
    requires PriorOk(prior) && Snapshot(snap) && Load(prior, snap).Ok?
    ensures Exact(Load(prior, snap).value.cache, snap) <==> Undisturbed(prior, snap)
  {
    hide PlanLoad, Joined, Sorted, CacheOk;
    var p := PlanLoad(prior, snap);
    if prior.Some? {
      PlanIsOk(prior.value, snap);
    } else {
      ColdIsOk(snap);
    }
    PlanCounts(prior, snap);
    WithKeysIs(Cached(prior), Keys(snap));
    EntriesAre(p, Cached(prior), snap);
    SortedMembers(snap);
    var entries := Joined(p.kept, Sorted(p.evidence));
    if Undisturbed(prior, snap) {
      SameRowsExact(entries, snap);
    }
  }

  /** Between two loads of an archive that only grows, nothing is disturbed, whatever sequence numbers commit late. */
  lemma GrowingUndisturbed(c: Cache, before: seq<Row>, snap: seq<Row>)
    requires Exact(c, before) && forall r :: r in before ==> r in snap
    ensures Undisturbed(Some(c), snap)
  {
    hide PlanLoad;
    SortedMembers(before);
  }

  // Runs of loads.

  ghost predicate Loads(caches: seq<Option<Cache>>, snaps: seq<seq<Row>>) {
    && |caches| == |snaps| + 1 && caches[0] == None
    && (forall i :: 0 <= i < |snaps| ==> Snapshot(snaps[i]))
    && (forall i :: 0 <= i < |snaps| ==>
          caches[i + 1] == if Load(caches[i], snaps[i]).Ok? then Some(Load(caches[i], snaps[i]).value.cache)
            else caches[i])
  }

  /** A failed load leaves the cache of the last that succeeded. */
  lemma {:induction false} LoadsOk(caches: seq<Option<Cache>>, snaps: seq<seq<Row>>, i: nat)
    requires Loads(caches, snaps) && i <= |snaps|
    ensures PriorOk(caches[i])
  {
    hide Load, CacheOk;
    if i > 0 {
      LoadsOk(caches, snaps, i - 1);
      LoadKeepsCache(caches[i - 1], snaps[i - 1]);
    }
  }

  /** Over an archive that only grows, every load that succeeds is exactly a full read. */
  lemma {:induction false} GrowingLoadsExact(caches: seq<Option<Cache>>, snaps: seq<seq<Row>>, i: nat)
    requires Loads(caches, snaps) && i < |snaps|
    requires forall j, k, r :: 0 <= j <= k < |snaps| && r in snaps[j] ==> r in snaps[k]
    ensures Load(caches[i], snaps[i]).Ok? ==> Exact(Load(caches[i], snaps[i]).value.cache, snaps[i])
    ensures caches[i].Some? ==> exists j :: 0 <= j < i && Exact(caches[i].value, snaps[j])
  {
    hide Load, CacheOk, Exact, Undisturbed;
    LoadsOk(caches, snaps, i);
    if i > 0 {
      GrowingLoadsExact(caches, snaps, i - 1);
    }
    if caches[i].Some? {
      var j :| 0 <= j < i && Exact(caches[i].value, snaps[j]);
      GrowingUndisturbed(caches[i].value, snaps[j], snaps[i]);
    } else {
      ColdUndisturbed(snaps[i]);
    }
    if Load(caches[i], snaps[i]).Ok? {
      LoadExactIff(caches[i], snaps[i]);
    }
  }

  lemma ColdUndisturbed(snap: seq<Row>)
    ensures Undisturbed(None, snap)
  {
  }

  // The fallback.

  lemma {:induction false} KeysCount(rows: seq<Row>)
    requires UniqueKeys(rows)
    ensures |Keys(rows)| == |rows|
  {
    if rows != [] {
      var init, last := rows[..|rows| - 1], rows[|rows| - 1];
      LastKey(rows);
      hide Keys;
      KeysCount(init);
    }
  }

  lemma LastKey(rows: seq<Row>)
    requires rows != [] && UniqueKeys(rows)
    ensures var init, last := rows[..|rows| - 1], rows[|rows| - 1];
      Keys(rows) == Keys(init) + {last.key} && last.key !in Keys(init) && UniqueKeys(init)
  {
    var init, last := rows[..|rows| - 1], rows[|rows| - 1];
    assert rows == init + [last];
    forall r | r in init ensures r.key != last.key {
      var k :| 0 <= k < |init| && init[k] == r;
      assert rows[k].key != rows[|rows| - 1].key;
    }
  }

  /** A cached key is in the archive under a sequence number beyond the cursor: it was deleted and written again. */
  ghost predicate Rewritten(c: Cache, snap: seq<Row>) {
    exists r :: r in snap && r.seqNo > c.cursor && r.key in Keys(c.entries)
  }

  function ScanRows(c: Cache, snap: seq<Row>): seq<Row> {
    var newer := After(snap, c.cursor);
    var near := newer + WithKeys(snap, WindowKeys(snap, c.cursor) - Keys(c.entries) - Keys(newer));
    near + WithKeys(snap, Keys(snap) - Keys(c.entries) - Keys(near))
  }

  /** After the whole-archive scan, exactly the rows beyond the cursor and the rows of unknown keys are at hand. */
  lemma ScanRowsAre(c: Cache, snap: seq<Row>)
    requires CacheOk(c) && Snapshot(snap)
    ensures forall r :: r in ScanRows(c, snap) <==> r in snap && (r.seqNo > c.cursor || r.key !in Keys(c.entries))
    ensures NoRepeats(ScanRows(c, snap)) && UniqueKeys(ScanRows(c, snap))
  {
    hide WithKeys, After;
    AfterIs(snap, c.cursor);
    var newer := After(snap, c.cursor);
    var w1 := WindowKeys(snap, c.cursor) - Keys(c.entries) - Keys(newer);
    WithKeysIs(snap, w1);
    var near := newer + WithKeys(snap, w1);
    var w2 := Keys(snap) - Keys(c.entries) - Keys(near);
    WithKeysIs(snap, w2);
    FreshRows(c, snap);
    MissingRows(c, snap, newer, WindowKeys(snap, c.cursor));
    MissingRows(c, snap, near, Keys(snap));
    forall r | r in snap && r.key !in Keys(c.entries) ensures r in ScanRows(c, snap) {
      if r.key in Keys(near) {
        SameKeySameRow(snap, near, r);
      }
    }
    KeysUnique(ScanRows(c, snap), snap);
  }

  lemma SameKeySameRow(snap: seq<Row>, some: seq<Row>, r: Row)
    requires UniqueKeys(snap) && r in snap && r.key in Keys(some) && forall q :: q in some ==> q in snap
    ensures r in some
  {
    var q :| q in some && q.key == r.key;
    var i, j :| 0 <= i < |snap| && 0 <= j < |snap| && snap[i] == q && snap[j] == r;
  }

  /** The scan leaves every key of the archive in the cache or among the fetched rows, and nothing else. */
  lemma ScanCoversKeys(c: Cache, snap: seq<Row>)
    requires CacheOk(c) && Snapshot(snap)
    ensures Keys(Kept(c.entries, Keys(snap))) + Keys(ScanRows(c, snap)) == Keys(snap)
  {
    hide ScanRows, CacheOk;
    ScanRowsAre(c, snap);
    WithKeysIs(c.entries, Keys(snap));
    var kept := Kept(c.entries, Keys(snap));
    forall k | k in Keys(snap) ensures k in Keys(kept) + Keys(ScanRows(c, snap)) {
      var r :| r in snap && r.key == k;
      if k in Keys(c.entries) {
        var e :| e in c.entries && e.key == k;
        assert e in kept;
      } else {
        assert r in ScanRows(c, snap);
      }
    }
  }

  lemma {:induction false} OverlapCounts(kept: set<int>, fetched: set<int>)
    ensures |kept| + |fetched| == |kept + fetched| + |kept * fetched|
  {
    assert kept + fetched == kept + (fetched - kept);
    assert fetched == (fetched - kept) + (kept * fetched);
  }

  /** A key that is kept twice is counted twice. */
  lemma {:induction false} KeysAtMost(rows: seq<Row>)
    ensures |Keys(rows)| <= |rows| && (|Keys(rows)| == |rows| <==> UniqueKeys(rows))
  {
    if rows != [] {
      var init, last := rows[..|rows| - 1], rows[|rows| - 1];
      KeysAtMost(init);
      KeysGrow(rows);
    }
  }

  lemma KeysGrow(rows: seq<Row>)
    requires rows != []
    ensures var init, last := rows[..|rows| - 1], rows[|rows| - 1];
      && |Keys(rows)| == |Keys(init)| + (if last.key in Keys(init) then 0 else 1)
      && (UniqueKeys(rows) <==> UniqueKeys(init) && last.key !in Keys(init))
  {
    hide UniqueKeys, Keys;
    var init, last := rows[..|rows| - 1], rows[|rows| - 1];
    LastUnique(rows);
    KeysOfLast(rows);
    if last.key in Keys(init) {
      assert Keys(init) + {last.key} == Keys(init);
    }
  }

  lemma KeysOfLast(rows: seq<Row>)
    requires rows != []
    ensures Keys(rows) == Keys(rows[..|rows| - 1]) + {rows[|rows| - 1].key}
  {
    assert rows == rows[..|rows| - 1] + [rows[|rows| - 1]];
  }

  lemma LastUnique(rows: seq<Row>)
    requires rows != []
    ensures var init, last := rows[..|rows| - 1], rows[|rows| - 1];
      UniqueKeys(rows) <==> UniqueKeys(init) && last.key !in Keys(init)
  {
    var init, last := rows[..|rows| - 1], rows[|rows| - 1];
    if UniqueKeys(rows) {
      forall r | r in init ensures r.key != last.key {
        var k :| 0 <= k < |init| && init[k] == r;
        assert rows[k].key != rows[|rows| - 1].key;
      }
    }
    if last.key !in Keys(init) {
      forall k | 0 <= k < |init| ensures init[k].key != last.key {
        assert init[k] in init;
      }
    }
  }

  /** A key both kept and fetched is one that was written again beyond the cursor. */
  lemma OverlapIsRewritten(c: Cache, snap: seq<Row>)
    requires CacheOk(c) && Snapshot(snap)
    ensures Rewritten(c, snap) <==> Keys(Kept(c.entries, Keys(snap))) * Keys(ScanRows(c, snap)) != {}
  {
    hide WithKeys, After, ScanRows;
    var kept, fetched := Kept(c.entries, Keys(snap)), ScanRows(c, snap);
    ScanRowsAre(c, snap);
    WithKeysIs(c.entries, Keys(snap));
    if Rewritten(c, snap) {
      var r :| r in snap && r.seqNo > c.cursor && r.key in Keys(c.entries);
      var e :| e in c.entries && e.key == r.key;
      assert e in kept && r in fetched;
      assert r.key in Keys(kept) * Keys(fetched);
    } else {
      forall k | k in Keys(kept) ensures k !in Keys(fetched) {
        var e :| e in kept && e.key == k;
        assert k in Keys(c.entries);
      }
    }
  }

  /**
   Once the whole archive was scanned, the full read is needed exactly when a cached key was written again beyond the
   cursor, or the cache holds a key of the archive twice: the keys are right in any case, but then one is counted twice.
   */
  lemma FallbackIff(c: Cache, snap: seq<Row>)
    requires CacheOk(c) && Snapshot(snap) && PlanLoad(Some(c), snap).path in {Scanned, Fallback}
    ensures PlanLoad(Some(c), snap).path == Fallback <==>
            Rewritten(c, snap) || !UniqueKeys(Kept(c.entries, Keys(snap)))
  {
    hide WithKeys, After, ScanRows, Rewritten, CacheOk;
    hide PlanLoad, Keys;
    var kept, fetched := Kept(c.entries, Keys(snap)), ScanRows(c, snap);
    ScanRowsAre(c, snap);
    ScanCoversKeys(c, snap);
    OverlapIsRewritten(c, snap);
    KeysAtMost(kept);
    KeysCount(fetched);
    KeysCount(snap);
    OverlapCounts(Keys(kept), Keys(fetched));
    PathIs(c, snap);
    EmptyCounts(Keys(kept) * Keys(fetched));
  }

  lemma EmptyCounts(keys: set<int>)
    ensures keys == {} <==> |keys| == 0
  {
  }

  lemma PathIs(c: Cache, snap: seq<Row>)
    ensures PlanLoad(Some(c), snap).path == Fallback ==> |Kept(c.entries, Keys(snap))| + |ScanRows(c, snap)| != |snap|
    ensures PlanLoad(Some(c), snap).path == Scanned ==> |Kept(c.entries, Keys(snap))| + |ScanRows(c, snap)| == |snap|
  {
    hide WithKeys, After;
  }

  /** Over a growing archive no payload is ever downloaded a second time. */
  lemma NothingFetchedTwice(c: Cache, before: seq<Row>, snap: seq<Row>)
    requires CacheOk(c) && Exact(c, before) && Snapshot(before) && Snapshot(snap)
    requires forall r :: r in before ==> r in snap
    ensures forall r :: r in PlanLoad(Some(c), snap).evidence ==> r !in c.entries
  {
    hide After, WithKeys, Sorted;
    PlanIsOk(c, snap);
    SortedMembers(before);
    SortedUnique(before);
    WithKeysIs(c.entries, Keys(snap));
    NothingRewritten(c, snap);
    KeysUnique(c.entries, snap);
    KeptUnique(c.entries, Keys(snap));
    if PlanLoad(Some(c), snap).path in {Scanned, Fallback} {
      FallbackIff(c, snap);
    }
    var p := PlanLoad(Some(c), snap);
    forall r | r in p.evidence ensures r !in c.entries {
      assert r in snap && r.key in Keys(snap);
    }
  }

  lemma KeptUnique(entries: seq<Row>, keys: set<int>)
    requires UniqueKeys(entries)
    ensures UniqueKeys(Kept(entries, keys))
  {
    WithKeysIs(entries, keys);
  }

  lemma NothingRewritten(c: Cache, snap: seq<Row>)
    requires CacheOk(c) && Snapshot(snap) && forall r :: r in c.entries ==> r in snap
    ensures !Rewritten(c, snap)
  {
    forall r | r in snap && r.key in Keys(c.entries) ensures r.seqNo <= c.cursor {
      var e :| e in c.entries && e.key == r.key;
      var i, j :| 0 <= i < |snap| && 0 <= j < |snap| && snap[i] == e && snap[j] == r;
    }
  }

  // The count alone is not enough.

  /** The one cached row was deleted while a row with a lower sequence number committed late: the counts agree. */
  lemma CountCoincidence()
    ensures exists c, before, snap ::
      && Snapshot(before) && Snapshot(snap) && CacheOk(c) && Exact(c, before)
      && Load(Some(c), snap).Ok? && Load(Some(c), snap).value.mode == Incremental
         && !Exact(Load(Some(c), snap).value.cache, snap)
  {
    var gone, late := Row(1, 10, 5, "a", 1, 1), Row(2, 11, 3, "b", 1, 1);
    var c := Cache([gone], 5, 1, 1);
    assert [gone][..0] == [] && [late][..0] == [];
    assert Sorted([gone]) == [gone] && Sorted([late]) == [late];
    assert SizeOf([gone]) == 1;
    assert After([late], 5) == [];
    assert PlanLoad(Some(c), [late]) == Plan(Quick, [], [gone]);
    assert Joined([gone], Sorted([])) == [gone];
    assert Exact(c, [gone]) && Snapshot([gone]) && Snapshot([late]) && CacheOk(c);
    assert MaxSeq([gone], 5) == 5 && SizeOf([]) == 0 && RawSizeOf([]) == 0 && Sorted([]) == [];
    assert Load(Some(c), [late]) == Ok(Loaded(Cache([gone], 5, 1, 1), Incremental, 0));
    assert !Exact(Cache([gone], 5, 1, 1), [late]);
  }

  // Runs that reach the fallback.

  ghost predicate FallsBack(prior: Option<Cache>, snap: seq<Row>) {
    prior.Some? && PlanLoad(prior, snap).path == Fallback
  }

  ghost predicate FallsBackUnwritten(prior: Option<Cache>, snap: seq<Row>) {
    FallsBack(prior, snap) && !Rewritten(prior.value, snap)
  }

  lemma OneRow(r: Row)
    ensures Sorted([r]) == [r] && SizeOf([r]) == r.size && RawSizeOf([r]) == r.rawSize
    ensures Sorted([]) == [] && SizeOf([]) == 0 && RawSizeOf([]) == 0
    ensures forall least: nat :: MaxSeq([r], least) == if least < r.seqNo then r.seqNo else least
  {
    assert [r][..0] == [];
  }

  /** A single row: what the first load of it caches. */
  lemma FirstLoad(r: Row)
    requires r.size <= BYTE_LIMIT
    ensures Load(None, [r]) == Ok(Loaded(Cache([r], r.seqNo, r.size, r.rawSize), Full, 1))
  {
    OneRow(r);
    assert [] + [r] == [r];
  }

  lemma NothingKept(rows: seq<Row>, keys: set<int>)
    requires forall r :: r in rows ==> r.key !in keys
    ensures WithKeys(rows, keys) == []
  {
    WithKeysIs(rows, keys);
    assert WithKeys(rows, keys) == [] || WithKeys(rows, keys)[0] in WithKeys(rows, keys);
  }

  lemma {:induction false} AllKept(rows: seq<Row>, keys: set<int>)
    requires forall r :: r in rows ==> r.key in keys
    ensures WithKeys(rows, keys) == rows
  {
    if rows != [] {
      AllKept(rows[..|rows| - 1], keys);
      assert rows[|rows| - 1] in rows;
    }
  }

  lemma KeptLater(rows: seq<Row>, r: Row, keys: set<int>)
    ensures WithKeys(rows + [r], keys) == WithKeys(rows, keys) + if r.key in keys then [r] else []
  {
    assert (rows + [r])[..|rows|] == rows;
  }

  lemma AfterLater(rows: seq<Row>, r: Row, cursor: nat)
    ensures After(rows + [r], cursor) == After(rows, cursor) + if r.seqNo > cursor then [r] else []
  {
    assert (rows + [r])[..|rows|] == rows;
  }

  function CacheAfter(prior: Option<Cache>, snap: seq<Row>): Option<Cache> {
    if Load(prior, snap).Ok? then Some(Load(prior, snap).value.cache) else prior
  }

  lemma RewrittenPath(first: Row, again: Row)
    requires again.key == first.key && 1 < again.seqNo
    ensures PlanLoad(Some(Cache([first], 1, 1, 1)), [again]).path == Fallback
  {
    hide Joined, Sorted;
    AfterLater([], again, 1);
    assert [] + [again] == [again] && again in [again] && first in [first];
    NothingKept([again], WindowKeys([again], 1) - Keys([first]) - Keys([again]));
    NothingKept([again], Keys([again]) - Keys([first]) - Keys([again]));
    assert [again] + [] == [again];
    AllKept([first], Keys([again]));
  }

  /** The one cached row was deleted and its key written again: the second load reads everything. */
  lemma RewrittenFallsBack()
    ensures exists caches, snaps :: Loads(caches, snaps) && |snaps| == 2 && FallsBack(caches[1], snaps[1])
  {
    hide Load, PlanLoad;
    var first, again := Row(1, 10, 1, "a", 1, 1), Row(1, 12, 2, "b", 1, 1);
    FirstLoad(first);
    var c := Cache([first], 1, 1, 1);
    RewrittenPath(first, again);
    assert Loads([None, Some(c), CacheAfter(Some(c), [again])], [[first], [again]]);
  }

  /** Two rows of one key, the older of them gone from the archive, carried over because the counts agreed. */
  lemma SecondOfKey(older: Row, newer: Row, other: Row)
    requires older.key == newer.key && other.key != newer.key && other.seqNo <= older.seqNo < newer.seqNo
    requires older.at < newer.at && older.size + newer.size <= BYTE_LIMIT
    ensures var c := Cache([older], older.seqNo, older.size, older.rawSize);
      Load(Some(c), [other, newer]) ==
      Ok(Loaded(Cache([older, newer], newer.seqNo, older.size + newer.size, older.rawSize + newer.rawSize),
        Incremental, 1))
  {
    var c := Cache([older], older.seqNo, older.size, older.rawSize);
    OneRow(newer);
    assert [other, newer] == [other] + [newer] && [other] == [] + [other];
    AfterLater([], other, older.seqNo);
    AfterLater([other], newer, older.seqNo);
    assert After([other, newer], older.seqNo) == [newer];
    assert PlanLoad(Some(c), [other, newer]) == Plan(Quick, [newer], [older]);
    assert Joined([older], [newer]) == [older, newer];
    assert [older, newer][..1] == [older];
    OneRow(older);
    var p := PlanLoad(Some(c), [other, newer]);
    assert BytesBefore(Some(c), p) + SizeOf(p.evidence) == older.size + newer.size;
    assert RawBefore(Some(c), p) + RawSizeOf(p.evidence) == older.rawSize + newer.rawSize;
    assert MaxSeq([older, newer], older.seqNo) == newer.seqNo;
    hide PlanLoad, SizeOf, RawSizeOf, MaxSeq, Joined, Sorted;
  }

  /** A cache that holds a key twice reaches the fallback although nothing was written beyond its cursor. */
  lemma DuplicateFallsBack()
    ensures exists caches, snaps :: Loads(caches, snaps) && |snaps| == 3 && FallsBackUnwritten(caches[2], snaps[2])
  {
    hide Load, PlanLoad, Rewritten;
    var older, newer := Row(1, 10, 5, "a", 1, 1), Row(1, 12, 6, "b", 1, 1);
    var x, y := Row(2, 11, 1, "c", 1, 1), Row(3, 13, 2, "d", 1, 1);
    FirstLoad(older);
    SecondOfKey(older, newer, x);
    var c1, c2, snap := Cache([older], 5, 1, 1), Cache([older, newer], 6, 2, 2), [x, y, newer];
    DuplicateNear(c2, older, newer, x, y);
    DuplicatePath(c2, older, newer, x, y);
    assert Loads([None, Some(c1), Some(c2), CacheAfter(Some(c2), snap)], [[older], [x, newer], snap]);
  }

  lemma NothingAfter(x: Row, y: Row, z: Row, cursor: nat)
    requires x.seqNo <= cursor && y.seqNo <= cursor && z.seqNo <= cursor
    ensures After([x, y, z], cursor) == []
  {
    assert [x, y, z][..2] == [x, y] && [x, y][..1] == [x] && [x][..0] == [];
    AfterFirst([x, y, z], cursor);
    AfterFirst([x, y], cursor);
    AfterFirst([x], cursor);
  }

  lemma AfterFirst(rows: seq<Row>, cursor: nat)
    requires rows != [] && rows[|rows| - 1].seqNo <= cursor
    ensures After(rows, cursor) == After(rows[..|rows| - 1], cursor)
  {
  }

  lemma FirstTwoKept(x: Row, y: Row, z: Row, keys: set<int>)
    requires x.key in keys && y.key in keys && z.key !in keys
    ensures WithKeys([x, y, z], keys) == [x, y]
  {
    hide WithKeys;
    assert [x, y, z] == [] + [x] + [y] + [z];
    KeptLater([], x, keys);
    KeptLater([] + [x], y, keys);
    KeptLater([] + [x] + [y], z, keys);
    NothingKept([], keys);
  }

  /** Beyond the cursor nothing is found, in the window the two rows of unknown keys. */
  lemma DuplicateNear(c: Cache, older: Row, newer: Row, x: Row, y: Row)
    requires c == Cache([older, newer], 6, 2, 2) && older.key == newer.key == 1 && x.key == 2 && y.key == 3
    requires x.seqNo == 1 && y.seqNo == 2 && newer.seqNo == 6
    ensures var snap := [x, y, newer];
      && Keys(c.entries) == {1} && After(snap, 6) == [] && !Rewritten(c, snap)
      && WithKeys(snap, WindowKeys(snap, 6) - {1} - Keys([])) == [x, y]
  {
    hide After, WithKeys;
    var snap := [x, y, newer];
    NothingAfter(x, y, newer, 6);
    assert newer in snap && x in snap && y in snap;
    assert newer in c.entries;
    assert x.key in WindowKeys(snap, 6) && y.key in WindowKeys(snap, 6);
    FirstTwoKept(x, y, newer, WindowKeys(snap, 6) - {1} - Keys([]));
  }

  lemma DuplicatePath(c: Cache, older: Row, newer: Row, x: Row, y: Row)
    requires c == Cache([older, newer], 6, 2, 2) && older.key == newer.key == 1 && x.key == 2 && y.key == 3
    requires var snap := [x, y, newer];
      && Keys(c.entries) == {1} && After(snap, 6) == []
      && WithKeys(snap, WindowKeys(snap, 6) - {1} - Keys([])) == [x, y]
    ensures PlanLoad(Some(c), [x, y, newer]).path == Fallback
  {
    hide After, WindowKeys;
    var snap := [x, y, newer];
    assert [] + [x, y] == [x, y];
    assert Keys([x, y]) == {2, 3} by {
      assert x in [x, y] && y in [x, y];
    }
    assert Keys(snap) == {1, 2, 3} by {
      assert x in snap && y in snap && newer in snap;
    }
    NothingKept(snap, {1, 2, 3} - {1} - {2, 3});
    assert [x, y] + [] == [x, y];
    AllKept(c.entries, {1, 2, 3});
    hide WithKeys, Keys;
  }
}
