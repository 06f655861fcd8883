/** The device's own rows: what it last saw of each file and last agreed on with the remote. */
module Records {
  import opened Ordering
  import opened Options
  import opened Manifest

  datatype Residency = Local | Evicted

  datatype FileRecord = FileRecord(
    path: Path,
    size: nat,
    mtime: int,
    contentHash: Hash,
    lastSynced: Option<Hash>,
    residency: Residency,
    syncedAt: Option<int>,
    hydratedAt: Option<int>)

  type Baseline = map<Path, FileRecord>

  datatype LocalEntry = LocalEntry(path: Path, size: nat, mtime: int, hash: Hash)

  datatype StubMeta = StubMeta(path: Path, size: nat, hash: Hash, objectKey: Text, mtime: Option<int>)

  function BaseOf(b: Baseline, p: Path): Option<Hash>
  {
    if p in b then b[p].lastSynced else None
  }

  predicate IsEvicted(b: Baseline, p: Path)
  {
    p in b && b[p].residency == Evicted
  }

  function ConfirmSync(b: Baseline, p: Path, size: nat, mtime: int, hash: Hash, now: int): Baseline
  {
    var hydrated := if p in b then b[p].hydratedAt else None;
    b[p := FileRecord(p, size, mtime, hash, Some(hash), Local, Some(now), hydrated)]
  }

  function ConfirmPlaceholder(b: Baseline, p: Path, size: nat, hash: Hash, now: int): Baseline
  {
    if p in b then b[p := b[p].(size := size, contentHash := hash, lastSynced := Some(hash), syncedAt := Some(now),
            residency := Evicted)]
    else b[p := FileRecord(p, size, 0, hash, Some(hash), Evicted, Some(now), None)]
  }

  function SetResidency(b: Baseline, p: Path, residency: Residency): Baseline
  {
    if p in b then b[p := b[p].(residency := residency)] else b
  }

  function RecordHydrated(b: Baseline, p: Path, now: int): Baseline
  {
    if p in b then b[p := b[p].(hydratedAt := Some(now))] else b
  }

  function Removed(b: Baseline, p: Path): Baseline
  {
    b - {p}
  }

  /** What the scan saw of one file: only a confirmed transfer may advance `lastSynced`. */
  function RecordScanned(b: Baseline, e: LocalEntry): Baseline
  {
    if e.path in b then
      b[e.path := b[e.path].(size := e.size, mtime := e.mtime, contentHash := e.hash, residency := Local)]
    else b[e.path := FileRecord(e.path, e.size, e.mtime, e.hash, None, Local, None, None)]
  }

  /** A scan records what it saw and agrees on nothing: last agreement and times stay. */
  lemma ScanAgreesOnNothing(b: Baseline, e: LocalEntry, q: Path)
    ensures var t := RecordScanned(b, e);
            && e.path in t && t[e.path].size == e.size && t[e.path].mtime == e.mtime
            && t[e.path].contentHash == e.hash && t[e.path].residency == Local
            && BaseOf(t, q) == BaseOf(b, q)
            && t[e.path].syncedAt == (if e.path in b then b[e.path].syncedAt else None)
            && t[e.path].hydratedAt == (if e.path in b then b[e.path].hydratedAt else None)
            && (q != e.path ==> (q in t <==> q in b) && (q in b ==> t[q] == b[q]))
  {
  }
}
