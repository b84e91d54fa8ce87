/**
 Reading the evidence archive into a cache: only rows after a sequence cursor are fetched, and counts decide whether
 that was enough. Keys and times are modelled by integers in the same order; a row carries its projected record,
 whose size is counted, and the size of its unpacked payload.
 */
module ArchiveLoader {
  import opened Wrappers

  datatype Row = Row(key: int, at: int, seqNo: nat, record: string, size: nat, rawSize: nat)

  /** What is carried from one load to the next. */
  datatype Cache = Cache(entries: seq<Row>, cursor: nat, bytes: nat, rawBytes: nat)

  datatype Mode = Full | Incremental | GapRecovery
  datatype LoadError = SourceLimit | CountMismatch
  datatype Loaded = Loaded(cache: Cache, mode: Mode, fetched: nat)

  const ROW_LIMIT := 50000
  const BYTE_LIMIT := 32 * 1024 * 1024
  const WINDOW := 5000

  // Order.

  predicate Earlier(a: Row, b: Row) {
    a.at < b.at || (a.at == b.at && a.key < b.key)
  }

  function InsertRow(rows: seq<Row>, r: Row): seq<Row> {
    if rows == [] || !Earlier(r, rows[|rows| - 1]) then rows + [r]
    else InsertRow(rows[..|rows| - 1], r) + [rows[|rows| - 1]]
  }

  /** By time, then key; equal rows keep their order. */
  function Sorted(rows: seq<Row>): seq<Row> {
    if rows == [] then [] else InsertRow(Sorted(rows[..|rows| - 1]), rows[|rows| - 1])
  }

  // Queries on one snapshot.

  function After(snap: seq<Row>, cursor: nat): seq<Row> {
    if snap == [] then []
    else
      var rest, r := After(snap[..|snap| - 1], cursor), snap[|snap| - 1];
      if r.seqNo > cursor then rest + [r] else rest
  }

  function Keys(rows: seq<Row>): set<int> {
    set r | r in rows :: r.key
  }

  function WithKeys(snap: seq<Row>, keys: set<int>): seq<Row> {
    if snap == [] then []
    else
      var rest, r := WithKeys(snap[..|snap| - 1], keys), snap[|snap| - 1];
      if r.key in keys then rest + [r] else rest
  }

  /** The keys of the rows that took a sequence number shortly before the cursor. */
  function WindowKeys(snap: seq<Row>, cursor: nat): set<int> {
    set r | r in snap && (if cursor > WINDOW then cursor - WINDOW else 0) < r.seqNo <= cursor :: r.key
  }

  function Kept(entries: seq<Row>, keys: set<int>): seq<Row> {
    WithKeys(entries, keys)
  }

  // What to fetch and what to drop.

  datatype Path = Cold | Quick | Windowed | Scanned | Fallback

  /** path says which test was the last; evidence is what was fetched, kept what stays of the cache. */
  datatype Plan = Plan(path: Path, evidence: seq<Row>, kept: seq<Row>)

  function PlanLoad(prior: Option<Cache>, snap: seq<Row>): Plan {
    if prior.None? then Plan(Cold, snap, [])
    else
      var cached, cursor := prior.value.entries, prior.value.cursor;
      var newer := After(snap, cursor);
      if |cached| + |newer| == |snap| then Plan(Quick, newer, cached)
      else
        var near := newer + WithKeys(snap, WindowKeys(snap, cursor) - Keys(cached) - Keys(newer));
        if |cached| + |near| == |snap| then Plan(Windowed, near, cached)
        else
          var all := near + WithKeys(snap, Keys(snap) - Keys(cached) - Keys(near));
          var kept := Kept(cached, Keys(snap));
          if |kept| + |all| == |snap| then Plan(Scanned, all, kept) else Plan(Fallback, snap, [])
  }

  function ModeOf(path: Path): Mode {
    match path
    case Cold => Full
    case Quick => Incremental
    case Windowed => GapRecovery
    case Scanned => GapRecovery
    case Fallback => Full
  }

  function SizeOf(rows: seq<Row>): nat {
    if rows == [] then 0 else SizeOf(rows[..|rows| - 1]) + rows[|rows| - 1].size
  }

  function RawSizeOf(rows: seq<Row>): nat {
    if rows == [] then 0 else RawSizeOf(rows[..|rows| - 1]) + rows[|rows| - 1].rawSize
  }

  function MaxSeq(rows: seq<Row>, least: nat): nat {
    if rows == [] then least
    else
      var m := MaxSeq(rows[..|rows| - 1], least);
      if m < rows[|rows| - 1].seqNo then rows[|rows| - 1].seqNo else m
  }

  /** New rows behind the last kept one force a full sort; otherwise they are appended. */
  function Joined(kept: seq<Row>, added: seq<Row>): seq<Row> {
    if kept != [] && added != [] && Earlier(added[0], kept[|kept| - 1]) then Sorted(kept + added) else kept + added
  }

  /** A cold or full read starts from nothing. */
  predicate Carried(p: Plan) {
    p.path in {Quick, Windowed, Scanned}
  }

  /** A scan may have dropped rows, so it counts what it kept afresh. */
  function BytesBefore(prior: Option<Cache>, p: Plan): nat {
    if prior.None? || !Carried(p) then 0 else if p.path == Scanned then SizeOf(p.kept) else prior.value.bytes
  }

  function RawBefore(prior: Option<Cache>, p: Plan): nat {
    if prior.None? || !Carried(p) then 0 else prior.value.rawBytes
  }

  function CursorBefore(prior: Option<Cache>, p: Plan): nat {
    if prior.None? || !Carried(p) then 0 else prior.value.cursor
  }

  function Finish(prior: Option<Cache>, p: Plan, total: nat, count: nat): Result<Loaded, LoadError> {
    var entries := Joined(p.kept, Sorted(p.evidence));
    if |entries| != count then Err(CountMismatch)
    else
      Ok(Loaded(Cache(entries, MaxSeq(entries, CursorBefore(prior, p)), total,
        RawBefore(prior, p) + RawSizeOf(p.evidence)),
                ModeOf(p.path), |p.evidence|))
  }

  function Load(prior: Option<Cache>, snap: seq<Row>): Result<Loaded, LoadError> {
    if |snap| > ROW_LIMIT then Err(SourceLimit)
    else
      var p := PlanLoad(prior, snap);
      var total := BytesBefore(prior, p) + SizeOf(p.evidence);
      if |p.evidence| > ROW_LIMIT || (p.evidence != [] && total > BYTE_LIMIT) then Err(SourceLimit)
      else Finish(prior, p, total, |snap|)
  }
}
