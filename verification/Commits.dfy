/**
 What a pass makes durable, in order: delta objects, rows of the device's baseline, and the
 files and placeholders it writes or deletes. A crash leaves a prefix.
 */
module Commits {
  import opened Options
  import opened Manifest
  import opened Records

  /** A row change held back until its delta is durable. */
  datatype BaselineOp =
    | Confirm(path: Path, size: nat, mtime: int, hash: Hash)
    | MarkHydrated(path: Path)
    | PutPlaceholder(meta: StubMeta)
    | Remove(path: Path)

  function OpPath(op: BaselineOp): Path
  {
    match op
    case Confirm(p, _, _, _) => p
    case MarkHydrated(p) => p
    case PutPlaceholder(meta) => meta.path
    case Remove(p) => p
  }

  /** Whether the row change claims an agreement with the remote. */
  predicate Advances(op: BaselineOp)
  {
    op.Confirm? || op.PutPlaceholder?
  }

  function Row(b: Baseline, op: BaselineOp, now: int): Baseline
  {
    match op
    case Confirm(p, size, mtime, hash) => ConfirmSync(b, p, size, mtime, hash, now)
    case MarkHydrated(p) => RecordHydrated(b, p, now)
    case PutPlaceholder(meta) => ConfirmPlaceholder(b, meta.path, meta.size, meta.hash, now)
    case Remove(p) => Removed(b, p)
  }

  /** Only `Confirm` and `PutPlaceholder` give a path an agreed version, and only their own. */
  lemma RowFrame(b: Baseline, op: BaselineOp, now: int, p: Path)
    requires BaseOf(Row(b, op, now), p).Some?
    ensures BaseOf(b, p).Some? || (Advances(op) && OpPath(op) == p)
  {
  }

  /** What a row change leaves, field by field: its own row, and every other as it was. */
  lemma RowFields(b: Baseline, op: BaselineOp, now: int, q: Path)
    ensures var p, t := OpPath(op), Row(b, op, now);
            && (q != p ==> (q in t <==> q in b) && (q in b ==> t[q] == b[q]))
            && (op.Remove? ==> p !in t)
            && (op.Confirm? ==>
                 p in t && t[p].size == op.size && t[p].mtime == op.mtime && t[p].contentHash == op.hash
                 && t[p].lastSynced == Some(op.hash) && t[p].residency == Local && t[p].syncedAt == Some(now)
                 && t[p].hydratedAt == if p in b then b[p].hydratedAt else None)
            && (op.PutPlaceholder? ==>
                 p in t && t[p].size == op.meta.size && t[p].contentHash == op.meta.hash
                 && t[p].lastSynced == Some(op.meta.hash) && t[p].residency == Evicted && t[p].syncedAt == Some(now)
                 && t[p].mtime == (if p in b then b[p].mtime else 0)
                 && t[p].hydratedAt == if p in b then b[p].hydratedAt else None)
            && (op.MarkHydrated? ==>
                 (p in t <==> p in b)
                 && (p in b ==> t[p].hydratedAt == Some(now)
                                && t[p].(hydratedAt := b[p].hydratedAt) == b[p]))
  {
  }

  function PathsOf(deltas: set<DeltaEntry>): set<Path>
  {
    set d | d in deltas :: d.path
  }
}
