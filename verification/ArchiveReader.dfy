/** The load as it runs: one snapshot, a few queries, variables updated as the counts are compared. */
module ArchiveReader {
  import opened Wrappers
  import opened ArchiveLoader

  /** Rows of the snapshot whose keys are wanted, neither cached nor fetched so far. */
  method FetchMissing(snap: seq<Row>, listed: set<int>, known: set<int>, fetched: seq<Row>) returns (evidence: seq<Row>)
    ensures evidence == fetched + WithKeys(snap, listed - known - Keys(fetched))
  {
    var missing := listed - known - Keys(fetched);
    evidence := fetched;
    if missing != {} {
      evidence := evidence + WithKeys(snap, missing);
    } else {
      NothingWithNoKeys(snap);
      assert fetched + [] == fetched;
    }
  }

  lemma {:induction false} NothingWithNoKeys(snap: seq<Row>)
    ensures WithKeys(snap, {}) == []
  {
    if snap != [] {
      NothingWithNoKeys(snap[..|snap| - 1]);
    }
  }

  /** The fetch, gap by gap, until the count comes out right. */
  method Fetch(prior: Option<Cache>, snap: seq<Row>) returns (plan: Plan)
    ensures plan == PlanLoad(prior, snap)
  {
    if prior.None? {
      return Plan(Cold, snap, []);
    }
    var cached, cursor := prior.value.entries, prior.value.cursor;
    var known := Keys(cached);
    var evidence := After(snap, cursor);
    if |cached| + |evidence| == |snap| {
      return Plan(Quick, evidence, cached);
    }
    evidence := FetchMissing(snap, WindowKeys(snap, cursor), known, evidence);
    if |cached| + |evidence| == |snap| {
      return Plan(Windowed, evidence, cached);
    }
    var listed := Keys(snap);
    evidence := FetchMissing(snap, listed, known, evidence);
    var kept := DropUnlisted(cached, listed);
    if |kept| + |evidence| != |snap| {
      return Plan(Fallback, snap, []);
    }
    return Plan(Scanned, evidence, kept);
  }

  /** Entries whose key is gone from the archive leave the cache; the others keep their order. */
  method DropUnlisted(entries: seq<Row>, listed: set<int>) returns (kept: seq<Row>)
    ensures kept == Kept(entries, listed)
  {
    kept := [];
    var i := 0;
    while i < |entries|
      invariant i <= |entries| && kept == Kept(entries[..i], listed)
    {
      assert entries[..i + 1][..i] == entries[..i];
      if entries[i].key in listed {
        kept := kept + [entries[i]];
      }
      i := i + 1;
    }
    assert entries[..i] == entries;
  }

  lemma {:induction false} SizeOfPrefix(rows: seq<Row>, i: nat)
    requires i <= |rows|
    ensures SizeOf(rows[..i]) <= SizeOf(rows)
    decreases |rows|
  {
    if i < |rows| {
      SizeOfPrefix(rows[..|rows| - 1], i);
      assert rows[..|rows| - 1][..i] == rows[..i];
    } else {
      assert rows[..i] == rows;
    }
  }

  /** Unpacks what was fetched, stopping as soon as the cache would hold too much. */
  method Count(evidence: seq<Row>, kept: nat, scanned: nat) returns (ok: bool, bytes: nat, rawBytes: nat)
    ensures ok <==> evidence == [] || kept + SizeOf(evidence) <= BYTE_LIMIT
    ensures ok ==> bytes == kept + SizeOf(evidence) && rawBytes == scanned + RawSizeOf(evidence)
  {
    bytes, rawBytes, ok := kept, scanned, true;
    var i := 0;
    while i < |evidence|
      invariant i <= |evidence|
      invariant bytes == kept + SizeOf(evidence[..i]) && rawBytes == scanned + RawSizeOf(evidence[..i])
      invariant i > 0 ==> bytes <= BYTE_LIMIT
    {
      assert evidence[..i + 1][..i] == evidence[..i];
      rawBytes := rawBytes + evidence[i].rawSize;
      bytes := bytes + evidence[i].size;
      if bytes > BYTE_LIMIT {
        SizeOfPrefix(evidence, i + 1);
        return false, bytes, rawBytes;
      }
      i := i + 1;
    }
    assert evidence[..i] == evidence;
  }

  /** The whole load. */
  method LoadSource(prior: Option<Cache>, snap: seq<Row>) returns (r: Result<Loaded, LoadError>)
    ensures r == Load(prior, snap)
  {
    hide PlanLoad, Finish, SizeOf, RawSizeOf;
    if |snap| > ROW_LIMIT {
      return Err(SourceLimit);
    }
    var plan := Fetch(prior, snap);
    if |plan.evidence| > ROW_LIMIT {
      return Err(SourceLimit);
    }
    var ok, bytes, rawBytes := Count(plan.evidence, BytesBefore(prior, plan), RawBefore(prior, plan));
    if !ok {
      return Err(SourceLimit);
    }
    r := Assemble(prior, plan, bytes, rawBytes, |snap|);
  }

  method Assemble(prior: Option<Cache>, plan: Plan, bytes: nat, rawBytes: nat, count: nat)
    returns (r: Result<Loaded, LoadError>)
    requires rawBytes == RawBefore(prior, plan) + RawSizeOf(plan.evidence)
    ensures r == Finish(prior, plan, bytes, count)
  {
    var entries := Joined(plan.kept, Sorted(plan.evidence));
    if |entries| != count {
      return Err(CountMismatch);
    }
    var cursor := MaxSeq(entries, CursorBefore(prior, plan));
    r := Ok(Loaded(Cache(entries, cursor, bytes, rawBytes), ModeOf(plan.path), |plan.evidence|));
  }
}
