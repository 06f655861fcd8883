# Verified model of the encrypted file mirror and its backup repository

The repository keeps a directory in step across devices through an encrypted object store
(`mirror-core`), and a deduplicating backup repository in the same bucket (`backup-core`).
Both are protocols over an object store that promises only single puts and deletes, so what
they guarantee is spread over many functions and has to survive a crash after any request.
This project models those protocols and the algorithms under them and proves the guarantees.

`dafny verify dfyconfig.toml` checks everything.

## The parts

**Backup repository.** The bucket is maps of packs, index objects, snapshots and locks.
`Locking` is the put-then-list lock. `Blobs`, `Index` and `Store` say what is in the bucket
and when it is consistent. `Prune` marks, `PrunePlan` decides about each pack and copies,
`Sweep` is the sequence of single requests that follows. `RepositoryWriter` is the shared
write state with every section between two await points as one step, `RepositoryHandle` the
object whose methods are those sections, and `WriterModel` the summary it refines; `WriterRun`
puts the sections of one backup into a run of the protocol below, and `Flushing` has the run
in which every write succeeds and the backup is published.
`BackupProtocol` runs any number of backups and prunes over one bucket under the locks:
every snapshot is restorable in every state of every run. `Archiver` is the walk that decides
in which order a backup saves its blobs.

**Mirror.** `Manifest` is the merge of the delta log, `Engine` the three-way reconcile,
`MirrorProtocol` any number of devices and one compactor, `Garbage` the collection of content
objects that ends a compaction. `Apply` is the durable trace of one pass, `ApplySafety` what
every prefix of it guarantees, `LogContents` what is written in it, field by
field, `Applier` the object that produces it, and `Sync` shows that
each prefix is a run of the protocol, as `Resume` does for the uploads finished before it.
`Pinned` and `Losers` say exactly what a failed relocation's source and an evicted conflict
loser keep. `Evict` has eviction and hydration crash point by crash
point. `Convergence` and `QuietApply` say when repeated passes come to rest. `Records` and
`Commits` are a device's rows and the changes to them.

**Streams and uploads.** `Stream` is the framing: every frame is sealed by an abstract pair of
functions that adds the 16-byte tag of section 2.8 of RFC 8439. `Upload` is the single and the
resumable multipart upload over it.

**Restore, formats, retention.** `Codec` has the pack and index formats byte for byte,
`Restore` and `RestoreFiles` the coalesced reads and the files they make, `Retention` the
choice of snapshots to keep. `Ordering` and `Options` are shared.

Functions and datatypes model the source's expressions; classes (`Index.View`,
`Prune.Marker`, `RepositoryHandle.Repository`, `Applier.Run`, `Stream.StreamingEncryptor`,
`Stream.StreamingDecryptor`, `Codec.Writer`) and methods with loops model what it updates in
place, each proved against a function or predicate of the state.

## Hypotheses

Runs are unrestricted except for these, which the code depends on:

- A live lock's time never falls STALE_AFTER behind the bucket's clock (`Locking.Timely`).
- No sweep request falls between a backup's opening of the repository and its lock
  (`BackupProtocol.NoOpeningDuringSweep`): the index is loaded at
  crates/backup-core/src/repo.rs:182, the lock taken at crates/backup-core/src/archiver.rs:243,
  and a parent's chunk lists are reused without an index check
  (crates/backup-core/src/archiver.rs:835-845).
- No file chunk has the ID of a tree (`Blobs.ChunksAreNotTrees`). `Prune.ChunkTreeClash` shows
  it is needed.
- A pass reads snapshot and log in one step, one compactor works at a time, and a device runs
  one pass at a time.
- An entry is logged soon after its object was stored (or, for a tombstone, while its object
  is still named), a collection is short next to the retention time, and nobody uploads again
  an object the running collection has already listed as garbage (`Garbage.Prompt`,
  `Garbage.NoReupload`). `Garbage.LateLogIsLost` and `Garbage.ReuploadIsLost` show that the
  first and the last of these are needed.

## Where the code differs from what is written about it

- crates/mirror-core/src/store.rs:117-136 promises 10,000 parts at most, but counts plaintext and
  not the frames' tags. The ceiling is exceeded exactly for lengths strictly between 655,360,000 k
  and 655,520,000 k, k at least 128 (`Upload.CeilingExceededIff`), so first at 83,886,080,001
  bytes, and by 3 at most (`Upload.PartsAreBounded`, `Upload.CeilingIsExceeded`).
- The source of a failed relocation "must not be tombstoned or advanced" in that pass
  (crates/mirror-core/src/apply/execute.rs:338-339). It is never tombstoned, but its row changes
  exactly if a local delete or a conflict is planned for it or a transfer for its own path
  succeeds (`Pinned.PinnedRowChangesIff`); `Pinned.OvertakenSource` is an input.
- An evicted conflict loser is promised to stay until its bytes are relocated. When the
  relocation fails, it stays exactly as `Losers.LoserStaysIff` says. It is forgotten in three
  cases: the merge left nothing at its path, so its placeholder and row are deleted
  (`Losers.ForgottenLoser`); another path's placeholder at its path is relocated onto it with
  other bytes (`Losers.OvertakenLoser`); its row went with a file just renamed
  (`Losers.DroppedLoser`).
- A third undisturbed pass is not always idle: a placeholder copied or renamed to another path
  may get its turn late. `Convergence.Late` says exactly when.
- A failure of `finish` inside `save_blob` (crates/backup-core/src/repo.rs:316) is not
  remembered as other failures are; at targets up to 16 MiB it cannot happen
  (`RepositoryWriter.FilledCases`).

## Model

| member | source | states |
|---|---|---|
| `Locking.NextKeepsInv` | crates/backup-core/src/lock.rs:85-220 | Every request of acquire, refresh, release and remove_stale, and every crash, keeps the lock invariant as long as live locks are refreshed in time. |
| `Locking.RunKeepsInv` | crates/backup-core/src/lock.rs:85-220 | The invariant holds in every state of every timely run. |
| `Locking.MutualExclusion` | crates/backup-core/src/lock.rs:85-148 | In every state of every timely run an exclusive holder is the only holder; a holder still has its object and is not marked lost; an ID whose acquisition failed never holds. |
| `Locking.ExclusiveIsAlone` | crates/backup-core/src/lock.rs:94-120 | Of two processes past their listing the later one saw the earlier one, so an exclusive holder and any other holder are the same process. |
| `Locking.RemoveStaleSparesTheLiving` | crates/backup-core/src/lock.rs:153-166 | In every run each delete made by remove_stale leaves the object of every acquiring or holding process in place. |
| `Locking.ListSeesTheRecent` | crates/backup-core/src/lock.rs:75-113 | Listing sees exactly the other objects written less than 1800 seconds before its own, or after it. |
| `Locking.StaleAreCollected` | crates/backup-core/src/lock.rs:153-166 | remove_stale collects exactly the other objects written 1800 seconds or more before the holder locked. |
| `Locking.AbandonedDoNotBlock` | crates/backup-core/src/lock.rs:85-148 | However many processes crashed with locks of any kind, half an hour later anybody may take either lock in three steps nothing can refuse. |
| `Locking.InspectRefusesIff` | crates/backup-core/src/lock.rs:110-126 | An inspected lock refuses exactly if one of the two is exclusive or it cannot be read. |
| `Locking.RefreshNotices` | crates/backup-core/src/lock.rs:195-220 | A refresh writes the object again only after seeing it is still there; if it is gone the holder knows from then on. |
| `Blobs.ClosedCovers` | crates/backup-core/src/prune.rs:391-419 | A set of IDs closed under tree references that holds a root holds everything restoring that root needs. |
| `Index.AddEntriesSpec` | crates/backup-core/src/index.rs:75-84 | Adding a pack keeps the location of every blob already known, and makes every listed blob findable. |
| `Index.MergeSpec` | crates/backup-core/src/index.rs:291-322 | The merged index finds a blob exactly when some index object lists it, at a location some object lists. |
| `Index.FlattenSpec` | crates/backup-core/src/index.rs:291-322 | Loading objects in some order records exactly the listings those objects hold. |
| `Index.MergeOrderIrrelevant` | crates/backup-core/src/index.rs:75-84 | Two merge orders of the same listings know the same blobs, each at a location that is listed. |
| `Index.View.AddPack` | crates/backup-core/src/index.rs:75-84 | The shared maps after the call are the old ones merged with the pack; nothing already known moves. |
| `Index.View.Lookup` | crates/backup-core/src/index.rs:86-93 | Found exactly if some recorded listing has the blob, and then at a listed location. |
| `Index.AddObject` | crates/backup-core/src/index.rs:291-322 | Merging one object records its packs in order after the ones already there. |
| `Index.Load` | crates/backup-core/src/index.rs:291-322 | Loads every listed object, in listing order, into one fresh view. |
| `Store.ResolvesInAnyOrder` | crates/backup-core/src/index.rs:75-84 | In a consistent bucket, merging the index objects in any order finds every blob a snapshot needs in a pack that exists and holds it. |
| `Prune.Marker.Mark` | crates/backup-core/src/prune.rs:391-419 | Terminates; records only what the tree needs; computes the depth-first walk with one visited set; with chunk and tree IDs apart everything recorded has its references recorded; fails only on a needed tree that is not listed or not readable. |
| `Prune.Marker.MarkNodes` | crates/backup-core/src/prune.rs:407-416 | The loop over one tree keeps all of that, subdirectory by subdirectory and file by file. |
| `Prune.MarkAll` | crates/backup-core/src/prune.rs:217-228 | The result is exactly the set of blobs the remaining roots need, and it fails only if some root is blocked. |
| `Prune.LoadTree` | crates/backup-core/src/prune.rs:401-406 | Succeeds exactly if the tree is listed and its pack really holds it; otherwise the tree blocks the walk. |
| `Prune.Marker.MarkNew` | crates/backup-core/src/prune.rs:398-417 | A tree met for the first time is recorded, read and walked, with the same promises as Mark. |
| `Prune.Marker.MarkNode` | crates/backup-core/src/prune.rs:407-415 | A subdirectory is walked, a file adds its chunks, anything else nothing; only what the tree needs is recorded. |
| `Prune.ChunkTreeClash` | crates/backup-core/src/prune.rs:398-413 | The hypothesis that no chunk has a tree ID is needed: a concrete forest where the walk never records a chunk the root needs. |
| `PrunePlan.GroupByPack` | crates/backup-core/src/prune.rs:230-237 | Groups every indexed blob under the pack its location names, once and only there. |
| `PrunePlan.Classify` | crates/backup-core/src/prune.rs:250-293 | Each stored pack gets the verdict its listed, referenced and unused bytes, and for an orphan its age, call for: doomed, kept or repacked. |
| `PrunePlan.CopyNeeded` | crates/backup-core/src/prune.rs:344-375 | The new packs concatenate to exactly the needed blobs; all but the last have 16 MiB or more, and none had so much before its last blob; it stops at a blob the pack does not really hold. |
| `PrunePlan.WriteGroups` | crates/backup-core/src/prune.rs:344-389 | Each group becomes one new pack under an unused ID, listed with exactly its blobs. |
| `PrunePlan.RootsOf` | crates/backup-core/src/prune.rs:211-214 | The roots are those of exactly the snapshots not forgotten. |
| `PrunePlan.RewriteAll` | crates/backup-core/src/prune.rs:312-316 | The new packs hold exactly the blobs to be copied and list every one; the only failure is a corrupt blob. |
| `PrunePlan.LoadAndMark` | crates/backup-core/src/prune.rs:197-228 | On success the referenced set is exact; on a consistent bucket loading and marking cannot fail. |
| `PrunePlan.LayOut` | crates/backup-core/src/prune.rs:230-338 | On a consistent bucket the plan is always laid out and justified. Whatever the bucket, the packs it deletes are exactly those that must go; the new index lists every blob of a pack that stays as it was, needed or not; the new packs hold exactly the needed blobs of packs that go, and nothing else is listed. |
| `PrunePlan.ThoroughByAge` | crates/backup-core/src/prune.rs:256-268 | A pack the merged view has no blob in goes exactly if it was written seven days or more before now; one that cannot be dated, or is dated in the future, stays. |
| `PrunePlan.LayoutReindexes` | crates/backup-core/src/prune.rs:269-325 | From the verdicts: kept packs keep all their listed blobs, and exactly the needed blobs of the others are copied and listed. |
| `PrunePlan.PlanPrune` | crates/backup-core/src/prune.rs:183-340 | Refuses exactly the requests that name an unknown snapshot; on a consistent bucket everything else succeeds with a justified plan. A plan deletes exactly the packs that must go, judged over the merged view: indexed ones with no needed blob, indexed ones at least a fifth waste, and unindexed ones past the grace period. A pack no index object lists goes exactly if it was written seven days ago or more. |
| `PrunePlan.JudgedRight` | crates/backup-core/src/prune.rs:254-293 | A pack is doomed or rewritten exactly if it must go, whatever order its entries were grouped in. |
| `PrunePlan.BytesOfSame` | crates/backup-core/src/prune.rs:271-272 | The bytes counted as unused depend only on which blobs they are. |
| `Sweep.AfterIsStepwise` | crates/backup-core/src/prune.rs:300-338 | The bucket after k requests is the one after k-1 with exactly the k-th put or delete applied. |
| `Sweep.SweepKeepsSound` | crates/backup-core/src/prune.rs:300-338 | After any number of requests every listing of every index object is true: the pack exists and holds the blob. |
| `Sweep.SweepKeepsCovered` | crates/backup-core/src/prune.rs:300-338 | After any number of requests every blob a surviving snapshot needs is listed. |
| `Sweep.SweepIsSafe` | crates/backup-core/src/prune.rs:217-339 | Whichever request is the last one made, the bucket left behind is consistent. |
| `Sweep.FailedCopyIsJustified` | crates/backup-core/src/prune.rs:302-316 | A prune whose copying fails part of the way, with snapshots deleted and some new packs uploaded, leaves a consistent bucket. |
| `BackupProtocol.NextKeepsInv` | crates/backup-core/src/archiver.rs:243-350 | Every step of any backup, prune or lock request, and every crash, keeps locks, bucket and all actors consistent under the three hypotheses. |
| `BackupProtocol.RunKeepsInv` | crates/backup-core/src/archiver.rs:243-350 | The invariant holds in every state of every run. |
| `BackupProtocol.SweepKeepsInv` | crates/backup-core/src/prune.rs:300-338 | One request of a running sweep keeps the bucket consistent while other processes wait, fail or crash. |
| `BackupProtocol.PublishedIsRestorable` | crates/backup-core/src/archiver.rs:316-343 | What a backup publishes after flush is closed under reference and listed, therefore restorable. |
| `BackupProtocol.EverySnapshotIsRestorable` | crates/backup-core/src/archiver.rs:243-350 | In every state of every run, with crashes anywhere, every snapshot in the bucket decodes and each blob it needs resolves, in any merge order, to a pack that exists and holds it. |
| `Archiver.ScheduleIsArchived` | crates/backup-core/src/archiver.rs:584-816 | However the tasks of a directory interleave, every tree is saved after everything its entries refer to; skipped files leave only chunks behind. |
| `Archiver.InterleavedChildrenFirst` | crates/backup-core/src/archiver.rs:669-816 | Shuffling two orders that put children first gives another one. |
| `Archiver.WalkIsASchedule` | crates/backup-core/src/archiver.rs:669-816 | One entry after the other is one of these orders. |
| `Archiver.WalkIsEnabled` | crates/backup-core/src/archiver.rs:584-816 | In every run, with the first blobs of the walk's order saved and whatever else has happened meanwhile, saving the next one is a step BackupProtocol allows. |
| `Archiver.WalkedRootIsUsable` | crates/backup-core/src/archiver.rs:316-343 | Once the walk is through, the root is among what the run may publish. |
| `RepositoryWriter.NextKeepsInv` | crates/backup-core/src/repo.rs:266-500 | Every section of save_blob, upload_pack, flush, adopt_orphans and save_snapshot, in any interleaving, keeps the write-state invariant. |
| `RepositoryWriter.RunKeepsInv` | crates/backup-core/src/repo.rs:266-500 | The invariant holds in every state of every run of sections. |
| `RepositoryWriter.PublishingIsSafe` | crates/backup-core/src/repo.rs:545-564 | In any state that keeps the invariant, going ahead means every returned ID was known at opening or is listed in a stored pack. |
| `RepositoryWriter.Steady` | crates/backup-core/src/repo.rs:364-390 | A failure is never forgotten, and only the final check publishes. |
| `RepositoryWriter.PackedOnce` | crates/backup-core/src/repo.rs:276-362 | In every interleaving no ID is packed twice, a packed or returned ID is in the open pack, in flight or indexed, and lost uploads stay in flight. |
| `RepositoryWriter.FullPackFits` | crates/backup-core/src/repo.rs:315-319 | A pack under 16 MiB before its last blob has a header that finish accepts. |
| `RepositoryWriter.FilledCases` | crates/backup-core/src/repo.rs:310-324 | So filling a pack has only two outcomes, room left or one upload; the finish failure in save_blob, which would not be sticky, cannot occur. |
| `RepositoryWriter.PublishedIsListed` | crates/backup-core/src/repo.rs:395-447 | In every run, when save_snapshot goes ahead every returned ID was known at opening or is in a stored pack that a stored index object lists. |
| `RepositoryWriter.LostBlobsBlock` | crates/backup-core/src/repo.rs:545-564 | A failure that slips in between ensure_writable and the check is caught by the check, since lost blobs never leave the in-flight set. |
| `RepositoryWriter.RefusesForever` | crates/backup-core/src/repo.rs:364-390 | After any failed pack or index write no snapshot is ever published through the handle. |
| `RepositoryWriter.Refines` | crates/backup-core/src/repo.rs:276-447 | Every section moves the summary that BackupProtocol runs by one of its moves, or not at all. |
| `RepositoryWriter.MovesAreAllowed` | crates/backup-core/src/repo.rs:276-564 | Each such move is open to the summary when the section makes it: packs going up hold pending blobs, an index object covers unlisted packs, and a snapshot is published with nothing pending, unlisted or failed. |
| `WriterRun.SectionsAreARun` | crates/backup-core/src/repo.rs:276-564 | Interleaved with whatever other processes and locks do, the sections of one backup are a run of BackupProtocol: every event is enabled where it comes, and at the end the run's writer is the summary and the bucket has its packs. |
| `WriterRun.SectionCouples` | crates/backup-core/src/repo.rs:276-564 | One section, given fresh random names and children saved first, is one enabled event or none and keeps the two in step. |
| `WriterRun.OtherCouples` | crates/backup-core/src/prune.rs:300-338 | No event of another process takes a stored pack away while the backup runs: a sweep would need the lock alone. |
| `WriterRun.BegunIsCoupled` | crates/backup-core/src/repo.rs:205-226 | A handle just opened is in step with a run just begun. |
| `RepositoryHandle.Repository.CheckBlob` | crates/backup-core/src/repo.rs:276-289 | The first section of save_blob: refuses after a failure, recognises what is pending or indexed, changes nothing else. |
| `RepositoryHandle.Repository.PlaceBlob` | crates/backup-core/src/repo.rs:301-324 | The second section: checks again, appends the blob to the open pack, and takes the pack out for upload exactly once it has reached the target; refuses exactly after a failure, past 4 GiB, or if the header cannot fit. |
| `RepositoryHandle.Repository.Fill` | crates/backup-core/src/repo.rs:310-324 | Pushes the sealed blob; a pack taken for upload is registered in flight with exactly its entries. |
| `RepositoryHandle.Repository.AddPack` | crates/backup-core/src/index.rs:75-84 | The pack's blobs enter the shared index one by one before they leave the in-flight set. |
| `RepositoryHandle.Repository.OpenFlush` | crates/backup-core/src/repo.rs:396-417 | Takes the open pack for upload if it holds anything, with exactly its entries. |
| `RepositoryHandle.Repository.PutEnded` | crates/backup-core/src/repo.rs:336-342 | A failed put poisons the handle and leaves the IDs in flight. |
| `RepositoryHandle.Repository.LandPack` | crates/backup-core/src/repo.rs:349-361 | The uploaded pack is recorded for the next index object and its blobs leave the in-flight set. |
| `RepositoryHandle.Repository.TakePacks` | crates/backup-core/src/repo.rs:419-428 | Hands over exactly the packs landed so far, and only if nothing is in flight. |
| `RepositoryHandle.Repository.IndexWritten` | crates/backup-core/src/repo.rs:430-447 | Only a stored index object clears its packs; a failure is remembered. |
| `RepositoryHandle.Repository.MayPublish` | crates/backup-core/src/repo.rs:545-564 | Goes ahead exactly if no blob is in the open pack or in flight and no landed pack waits for an index object, and then counts as published; every blob handed out is then listed in a stored pack. |
| `Flushing.FlushPublishes` | crates/backup-core/src/repo.rs:395-447 | With nothing under way and no failure, flush and save_snapshot go through if their writes succeed: the open pack lands, the index object covers it, and a snapshot is published. |
| `Flushing.FlushedRunPublishes` | crates/backup-core/src/repo.rs:276-564 | In any run of saves, however interleaved, in which every put and index write succeeds: once nothing is in flight, flush and then save_snapshot publish one more snapshot. |
| `Ordering.BelowTotal` | crates/mirror-core/src/manifest.rs:172-196 | The order of byte strings is total and antisymmetric. |
| `Manifest.BeatsTotal` | crates/mirror-core/src/manifest.rs:172-196 | The winner key covers every field but the path: two entries for one path tie only if they are equal. |
| `Manifest.BeatsTrans` | crates/mirror-core/src/manifest.rs:172-196 | Beating is transitive. |
| `Manifest.MergeUnique` | crates/mirror-core/src/manifest.rs:198-266 | A set of entries has one merge. |
| `Manifest.MergeDeltas` | crates/mirror-core/src/manifest.rs:163-266 | The fold returns the merge and the greatest clock of all entries read. Compared by clock, device, hash, base hash, deleted, deletion time, size, time and object key, in that order, every entry read is at most its path's winner; every reported conflict is between two entries really read. |
| `Manifest.WinnerIsGreatest` | crates/mirror-core/src/manifest.rs:163-195 | In any merge the winner is the greatest of its path's entries, field by field in that order. |
| `Ordering.BelowIff` | crates/mirror-core/src/manifest.rs:185-195 | One text is below another exactly if it ends, or is smaller, where the two first differ. |
| `Manifest.SnapshotLamport` | crates/mirror-core/src/manifest.rs:201-204 | The clock a snapshot carries is its greatest. |
| `Manifest.Fold` | crates/mirror-core/src/manifest.rs:206-259 | The loop extends merge and clock from what was read to the whole log. |
| `Manifest.MergeStep` | crates/mirror-core/src/manifest.rs:206-259 | One turn extends merge, clock and conflicts by one entry. |
| `Manifest.NoteConflict` | crates/mirror-core/src/manifest.rs:224-248 | A pair is reported exactly when the two contents differ and neither was written from the other, with the greater entry as the winner. |
| `Manifest.DominatedMerge` | crates/mirror-core/src/manifest.rs:72-136 | Dropping entries beaten by something kept does not change the merge. |
| `Manifest.MergeOrderIrrelevant` | crates/mirror-core/src/manifest.rs:198-266 | Manifest and clock are unchanged by reordering, repeating or moving entries between snapshot and log. |
| `Manifest.MergeSplits` | crates/mirror-core/src/manifest.rs:198-266 | Folding part of the log into the snapshot first gives the same merge as one fold. |
| `MirrorProtocol.NextKeepsInv` | crates/mirror-core/src/manifest.rs:72-136 | Every step of any pass or of a lone compaction, and every crash, keeps the log, row and key invariants. |
| `MirrorProtocol.RunKeepsInv` | crates/mirror-core/src/manifest.rs:72-136 | The invariant holds in every state of every run. |
| `MirrorProtocol.CompactionIsInvisible` | crates/mirror-core/src/manifest.rs:72-136 | In every run, after every single put or delete of a compaction and whatever is logged meanwhile, newest snapshot plus log merges to the manifest and clock of everything ever logged. |
| `MirrorProtocol.BaselineIsLogged` | crates/mirror-core/src/apply/execute.rs:66-100 | In every run a row has an agreed version only if the merged manifest has an entry for its path. |
| `MirrorProtocol.DeleteLocalHasTombstone` | crates/mirror-core/src/engine.rs:113-260 | In every run, whatever the scan finds, each planned DeleteLocal is backed by a tombstone in the log. |
| `MirrorProtocol.DeltasAreNewAndWin` | crates/mirror-core/src/manifest.rs:268-288 | In every run, including crashes before the clock is recorded, a delta goes under a key never used before and beats everything its pass had read. |
| `MirrorProtocol.ReadClockIsPast` | crates/mirror-core/src/manifest.rs:256-266 | The clock a reader computes is past every key ever written, by anyone. |
| `MirrorProtocol.NextKeyIsNew` | crates/mirror-core/src/manifest.rs:268-288 | The next key of a pass has never been written, also right after resumed uploads. |
| `MirrorProtocol.NoFalseRollback` | crates/mirror-core/src/manifest.rs:363-408 | In every run the rollback check passes: the newest snapshot is never older than one the device has seen. |
| `MirrorProtocol.RollbackIsRefused` | crates/mirror-core/src/manifest.rs:363-390 | A listing whose newest snapshot is older than one this device has seen starts neither a pass nor a compaction. |
| `MirrorProtocol.MismatchDeletesNothing` | crates/mirror-core/src/manifest.rs:95-136 | A compactor deletes only after reading back exactly what it stored; otherwise it stops with nothing deleted. |
| `MirrorProtocol.VerifyPasses` | crates/mirror-core/src/manifest.rs:93-102 | A lone compactor always reads back the snapshot it wrote. |
| `MirrorProtocol.PutMerge` | crates/mirror-core/src/manifest.rs:320-355 | Storing the folded snapshot leaves what is visible deciding every path as the full history does. |
| `MirrorProtocol.LoggedMerge` | crates/mirror-core/src/manifest.rs:268-288 | So does a delta logged by any device at any time. |
| `MirrorProtocol.DeleteMerge` | crates/mirror-core/src/manifest.rs:103-108 | Deleting one folded delta object leaves what is visible deciding every path as the full history does. |
| `Garbage.NextKeepsInv` | crates/mirror-core/src/manifest.rs:118-136 | Uploads, logging, compaction and every step of a collection keep every visible version stored, under the hypotheses of the module. |
| `Garbage.EveryVersionStays` | crates/mirror-core/src/manifest.rs:140-167 | In every such run every version the merged manifest names, live or buried, is in the bucket, after every single delete of a collection. |
| `Garbage.SeenGrows` | crates/mirror-core/src/manifest.rs:72-136 | Only logging makes an entry visible; storing a compacted snapshot shows no new one. |
| `Garbage.DeleteKeepsInv` | crates/mirror-core/src/manifest.rs:152-165 | What a collection deletes is named by no visible entry. |
| `Garbage.DeletableIff` | crates/mirror-core/src/manifest.rs:119-161 | A collection may delete exactly the objects that no entry of its manifest or of the log names and that are as old as the retention time. |
| `Garbage.ReuploadIsLost` | crates/mirror-core/src/manifest.rs:140-167 | In any state, uploading and logging again what the collection is about to delete ends with a logged version that is gone. |
| `Garbage.ReuploadIsPrompt` | crates/mirror-core/src/manifest.rs:140-167 | Those steps keep every other hypothesis. |
| `Garbage.LateLogIsLost` | crates/mirror-core/src/manifest.rs:140-167 | Being prompt is needed too: logging late, without a new upload, what the collection is about to delete loses it just the same. |
| `Garbage.ReuploadHappens` | crates/mirror-core/src/apply/upload.rs:185-207 | A run keeping to every hypothesis reaches a state where either can happen, since keys depend on path and content only. |
| `Garbage.CollectGarbage` | crates/mirror-core/src/manifest.rs:140-161 | One collection leaves exactly the objects that are referenced, undated, younger than the retention time in seconds, or whose delete fails. |
| `Engine.Reconcile` | crates/mirror-core/src/engine.rs:113-188 | The plan has exactly the actions that are due by the three sides of each path (file, last agreed, remote) and its placeholder, policy and hydrate request; relocations name the live version of the path a placeholder stands for; transfers come before metadata, deletes and conflicts. |
| `Engine.KindIsDue` | crates/mirror-core/src/engine.rs:127-248 | Each of the nine actions is chosen exactly if it is due: one side overwrites another only if that one is what was agreed on, and what moved apart is a conflict. |
| `Engine.HydratesWanted` | crates/mirror-core/src/engine.rs:207-226 | With only its own placeholder and a live version, a path is hydrated exactly if somebody asked for it or the policy keeps it local. |
| `Engine.PlanUnique` | crates/mirror-core/src/engine.rs:113-188 | The plan is determined by its inputs, whatever order paths are visited in. |
| `Engine.DeleteLocalIsBacked` | crates/mirror-core/src/engine.rs:113-260 | A local delete needs an agreed version, no live remote one, and local bytes equal to what was agreed. |
| `Engine.DeleteRemoteIsWanted` | crates/mirror-core/src/engine.rs:113-260 | A tombstone needs the remote to be exactly what was agreed and neither a file nor a placeholder at the path. |
| `Engine.TransfersOverwriteOnlyAgreed` | crates/mirror-core/src/engine.rs:232-260 | A transfer overwrites only a side that still holds what was agreed on, or nothing; sides that moved apart are kept apart. |
| `Engine.NothingForFileIffAgreed` | crates/mirror-core/src/engine.rs:232-260 | A real file gets no action exactly when it agrees with the remote. |
| `Commits.RowFrame` | crates/mirror-core/src/state.rs:121-194 | Only Confirm and Placeholder give a path an agreed version, and only their own path. |
| `Apply.BatchesAhead` | crates/mirror-core/src/apply/execute.rs:66-100 | However effects fall into batches, nothing is lost, doubled or reordered, and a row is only changed after the deltas of its effect and of all earlier ones are logged. |
| `Apply.TraceAhead` | crates/mirror-core/src/apply/execute.rs:211-523 | The same for the whole durable trace of a call, stopped by an error or not. |
| `Apply.ActionsKeep` | crates/mirror-core/src/apply/execute.rs:420-507 | Through both phases every delta is signed by this device and clock, and every agreement claimed was read or is logged no later. |
| `ApplySafety.RowsAreBacked` | crates/mirror-core/src/apply/execute.rs:66-100 | At every crash point an agreed version has been recorded only for a path read from the remote or already logged. |
| `ApplySafety.RowAfterLog` | crates/mirror-core/src/apply/execute.rs:66-100 | A row change in the trace belongs to an effect whose deltas, and all earlier ones, are then logged. |
| `ApplySafety.TombstoneIsLate` | crates/mirror-core/src/apply/execute.rs:464-483 | A tombstone in the log means all transfers' deltas are in the log, and its path is not pinned. |
| `ApplySafety.MovedBytesAreLogged` | crates/mirror-core/src/apply/execute.rs:338-483 | At every crash point, if a placeholder's old path is tombstoned then every relocation of its bytes planned in the pass is logged earlier or in the same object. |
| `ApplySafety.LoserMovesAfterItsBytes` | crates/mirror-core/src/apply/execute.rs:338-449 | At every crash point the row of a relocation's source claims another version only if its bytes are logged under their new path, or a transfer for that path itself, which nothing holds back, succeeded. |
| `ApplySafety.JoinedOps` | crates/mirror-core/src/apply/execute.rs:343-402 | The joins change exactly the rows, and log exactly the paths, that their successful transfers are for. |
| `ApplySafety.PlaceholderIsLate` | crates/mirror-core/src/apply/execute.rs:422-449 | A row changed by a placeholder action comes after all transfers are logged, and never for a pinned path. |
| `ApplySafety.PinnedIsNotBuried` | crates/mirror-core/src/apply/execute.rs:338-387 | A source whose relocation failed is never tombstoned. |
| `ApplySafety.PinnedRowGoesIffDeleted` | crates/mirror-core/src/apply/execute.rs:450-456 | But its row is removed exactly if a local delete was planned for it. |
| `Pinned.PinnedRowChangesOnlyIf` | crates/mirror-core/src/apply/execute.rs:338-487 | At every crash point the row of a failed relocation's source has changed only if a local delete or a conflict is planned for it, or a transfer for that path itself succeeded. |
| `Pinned.PinnedRowChangesIff` | crates/mirror-core/src/apply/execute.rs:338-487 | Unless an error stops the call, exactly then: the promise at lines 338-339 holds of the row if and only if none of the three is there. |
| `Pinned.PinnedIsLoggedIff` | crates/mirror-core/src/apply/execute.rs:338-483 | Something about a failed relocation's source is logged exactly if an upload or a relocation onto it succeeded. |
| `Pinned.OvertakenSource` | crates/mirror-core/src/apply/execute.rs:338-374 | An input where it fails: a renamed placeholder whose relocation fails while a new file at its old path is uploaded; the next pass would relocate the new file's bytes. |
| `Applier.Run.Flush` | crates/mirror-core/src/apply/execute.rs:66-100 | One delta object, then row after row; the batch is empty afterwards. |
| `Applier.Run.Add` | crates/mirror-core/src/apply/execute.rs:405-418 | An effect joins the batch, which is flushed at 25 row changes. |
| `Applier.Run.PutStub` | crates/mirror-core/src/apply/execute.rs:422-449 | A placeholder from the manifest's entry, unless the path is pinned; a missing entry stops the call. |
| `Applier.Run.Bury` | crates/mirror-core/src/apply/execute.rs:457-487 | A tombstone of the manifest's entry, unless the path is pinned. |
| `Applier.Run.Join` | crates/mirror-core/src/apply/execute.rs:338-418 | One finished transfer changes manifest, pinned sources, batch and trace as specified. |
| `Applier.Run.Act` | crates/mirror-core/src/apply/execute.rs:420-507 | One metadata action does the same. |
| `Applier.Run.Go` | crates/mirror-core/src/apply/execute.rs:326-523 | From first result to last flush the object makes exactly the specified trace durable. |
| `Applier.ApplyPlan` | crates/mirror-core/src/apply/execute.rs:211-523 | Refuses, before anything is durable, exactly the plans that download or relocate something unknown; otherwise its trace is the specified one, and unless it is stopped every version sent is in the log under the key of the object stored. |
| `LogContents.SentIsLogged` | crates/mirror-core/src/apply/execute.rs:106-137 | Every version a call sent has an entry in the log with its path, the key of the object stored, its hash and size, alive, and the hash of the version it replaces. |
| `LogContents.LoggedIsSent` | crates/mirror-core/src/apply/execute.rs:106-137 | At every crash point each entry in the log is a sent version's or a planned deletion's, field by field. |
| `LogContents.DeletionIsLogged` | crates/mirror-core/src/apply/execute.rs:457-483 | Every planned deletion of an unpinned path the pass knows has a tombstone with what the manifest had there, its object key included. |
| `LogContents.PlaceholderIsPut` | crates/mirror-core/src/apply/execute.rs:424-449 | Every planned placeholder of an unpinned path is put with the manifest's key, hash and size, and its time in nanoseconds if that fits. |
| `LogContents.TransferIsRecorded` | crates/mirror-core/src/apply/execute.rs:358-402 | Every successful transfer's row change is made, with the sizes, times and hashes of its result. |
| `LogContents.ManifestAfterJoins` | crates/mirror-core/src/apply/execute.rs:362-390 | What a pass has for a path is what it sent last, or what it read. |
| `Apply.BatchIsSmall` | crates/mirror-core/src/apply/execute.rs:404-418 | At most 24 row changes ever wait for a flush. |
| `Commits.RowFields` | crates/mirror-core/src/apply/execute.rs:84-97 | What each row change leaves in its row, field by field, and that other rows stay. |
| `Records.ScanAgreesOnNothing` | crates/mirror-core/src/state.rs:696-725 | A scan records what it saw of its file and leaves last agreement, times and other rows as they were. |
| `Sync.AddLosers` | crates/mirror-core/src/sync.rs:214-229 | Conflict losers join the plan as relocations, hydrates of their paths become placeholder updates, and order is kept. |
| `Sync.PreserveLosers` | crates/mirror-core/src/apply/remote_conflict.rs:33-100 | Exactly the files with a losing version of this device are renamed, exactly their rows dropped, nothing else appears or is lost, and exactly the losers are chosen that meet no file, also one an earlier conflict has just renamed, and whose evicted row stood for them. |
| `Sync.ChosenLosers` | crates/mirror-core/src/apply/remote_conflict.rs:50-72 | A chosen loser has no file, its path is no loser's new name, and its row still stands for it unless it was dropped with a renamed file. |
| `Sync.LosersKeepOthers` | crates/mirror-core/src/sync.rs:214-229 | Every other action of the plan stays as it was. |
| `Sync.LosersArePlanned` | crates/mirror-core/src/sync.rs:214-227 | Every loser taken in is to be relocated to its new name, from a loser's version of that name. |
| `Losers.LoserDeletedIffWinnerIs` | crates/mirror-core/src/engine.rs:191-230 | The plan deletes a chosen loser's path locally exactly if its row is left, the merge left nothing there, and no other path's placeholder has taken its place. |
| `Losers.LoserTransfer` | crates/mirror-core/src/sync.rs:212-229 | A transfer for a chosen loser's path is a relocation of another path's placeholder onto it, or a download if its row is gone. |
| `Losers.LoserRowChangesIff` | crates/mirror-core/src/apply/execute.rs:338-487 | With its relocation failed, an evicted loser's row changes exactly if the merge left nothing at its path or another placeholder was relocated onto it; with a live winner only the latter. |
| `Losers.LoserStaysIff` | crates/mirror-core/src/apply/remote_conflict.rs:60-70 | For every chosen loser: with its relocation failed, its row stands for it afterwards, so that the next pass chooses it again, exactly if the same bytes were relocated onto its path, or nothing was, its row was left and the merge left something or another placeholder is there. |
| `Losers.ForgottenLoser` | crates/mirror-core/src/apply/execute.rs:450-456 | The shortest input with a deletion for a winner: a genuine conflict, a loser chosen for relocation, a tombstone as apply writes it, and all that becomes durable is the loss of placeholder and row. |
| `Losers.OvertakenLoser` | crates/mirror-core/src/apply/execute.rs:368-390 | The shortest input with a live winner: another path's placeholder copied over the loser's is relocated, the loser's own relocation fails, and its row stands for the copy. |
| `Losers.DroppedLoser` | crates/mirror-core/src/apply/remote_conflict.rs:40-97 | An input where the row goes before the pass plans anything: a file with an earlier losing version's bytes, saved over an evicted later one, is renamed, and the later one is chosen without a row. |
| `Sync.ApplyIsOrderly` | crates/mirror-core/src/apply/execute.rs:211-523 | The trace of apply obeys the protocol's rules for logging and recording. |
| `Sync.ApplyIsARun` | crates/mirror-core/src/apply/execute.rs:211-523 | Every crash point of apply is a state of a run of MirrorProtocol with the rows the trace says, so all its invariants hold there. |
| `Resume.ResumeUploads` | crates/mirror-core/src/sync.rs:456-556 | With any error nothing is logged; otherwise exactly the finished uploads are, each with the object stored, its content and what it replaces, in one object, then the clock is recorded, then their rows confirmed, and the rest of the pass knows them. |
| `Resume.ResumeIsARun` | crates/mirror-core/src/sync.rs:542-556 | Every crash point of resume_uploads is a state of a run of MirrorProtocol, and it ends past the clock it used with no object under the next. |
| `Resume.PassIsARun` | crates/mirror-core/src/sync.rs:243-300 | Resumed uploads and then apply, with the clock it computes anew, are one run of MirrorProtocol, whatever is finished and wherever the pass stops. |
| `Evict.EligibleIsSettled` | crates/mirror-core/src/apply/evict.rs:61-82 | An eligible path needs nothing from reconcile: local, agreed and remote versions are one. |
| `Evict.EligibleIff` | crates/mirror-core/src/apply/evict.rs:61-82 | Eligible are exactly tracked paths whose own file is the agreed and the remote version, with no upload pending. |
| `Evict.Replace` | crates/mirror-core/src/apply/evict.rs:305-339 | Mark, placeholder, rename: at every crash point the real file or its own placeholder stands; a file that changed is put back, the mark and placeholder undone. |
| `Evict.GiveBack` | crates/mirror-core/src/apply/evict.rs:317-326 | A file that changed goes back before its placeholder and mark go. |
| `Evict.EvictOne` | crates/mirror-core/src/apply/evict.rs:239-340 | Evicts exactly if eligible, hashed to the remote version, the remote object has the length of that version's ciphertext, verification passed if asked for, and the file is unchanged at the rename. Nothing is touched before that, no crash point loses the path or, until the last step, the bytes. |
| `Evict.HydrateOne` | crates/mirror-core/src/apply/execute.rs:139-173 | The file arrives before the placeholder goes, and the row is confirmed after both, as local and hydrated now; from the first step on the path is there, also for an evicted row whose placeholder was gone. |
| `Evict.NeverTombstoned` | crates/mirror-core/src/engine.rs:144-172 | Wherever eviction or hydration stopped, and whatever the log says next, no pass plans DeleteRemote for the path. |
| `Evict.AbsentIsTombstoned` | crates/mirror-core/src/engine.rs:163-172 | The condition is sharp: with neither file nor placeholder an agreed path is tombstoned. |
| `Evict.PlanPolicyEvictions` | crates/mirror-core/src/apply/evict.rs:92-109 | Picks exactly the online-only paths whose file is the agreed and the remote version, with no upload pending, and whose last sync is unknown or at least the grace period ago, in seconds. |
| `Evict.PlanSpaceEvictions` | crates/mirror-core/src/apply/evict.rs:119-138 | Picks least recently used first, no more than needed and never over the limit. |
| `Convergence.KindIsCellKind` | crates/mirror-core/src/engine.rs:113-230 | Reconcile looks at nothing but a path's own file, placeholder, row, remote version and, for a moved placeholder, the version it names. |
| `Convergence.EmptyPlanAgrees` | crates/mirror-core/src/engine.rs:113-260 | An empty plan means local and remote content agree on every path without a placeholder. |
| `Convergence.OnePassSettles` | crates/mirror-core/src/sync.rs:243-378 | One quiet pass leaves each path settled, emptied, owed a conflict's winner, or a placeholder for another path. |
| `Convergence.SecondPassSettles` | crates/mirror-core/src/sync.rs:243-378 | Whatever the first pass left, other than a placeholder for another path, a second settles. |
| `Convergence.ThirdPassActsOnLate` | crates/mirror-core/src/sync.rs:243-378 | After two quiet passes the third acts on a path exactly if it held a late placeholder for another path. |
| `Convergence.ThirdPassIsEmptyIff` | crates/mirror-core/src/sync.rs:243-378 | So the third pass plans nothing exactly if there was no late placeholder. |
| `Convergence.ThirdPassIsEmpty` | crates/mirror-core/src/sync.rs:243-378 | In particular it plans nothing if no placeholder stands for another path. |
| `Convergence.EvictionFollows` | crates/mirror-core/src/apply/evict.rs:61-82 | What a quiet pass may evict is what eligible allows, with the file still the remote version. |
| `Convergence.LateExample` | crates/mirror-core/src/engine.rs:191-200 | A concrete replica with the two quiet passes that follow it, whose third plan holds a hydrate. |
| `QuietApply.TurnDone` | crates/mirror-core/src/apply/execute.rs:338-507 | One effect of apply moves its own path as specified, makes the conflicted copy if any, and touches nothing else. |
| `QuietApply.PassIsQuiet` | crates/mirror-core/src/sync.rs:243-320 | apply's effects for any order of finished transfers, then the scan's rows, then the evictions, are a quiet pass. |
| `QuietApply.ThirdPlanIsEmptyIff` | crates/mirror-core/src/sync.rs:147-378 | Two undisturbed passes of apply leave a third an empty plan exactly if no placeholder was late. |
| `Stream.SealedLen` | crates/mirror-core/src/crypto/content.rs:20-23 | Nonce plus frames is exactly ciphertext_len of the plaintext. |
| `Stream.ObjectLen` | crates/mirror-core/src/crypto/content.rs:13-23 | A ciphertext has 19 bytes of nonce, the file, and 16 for every 64 KiB begun, or for an empty file once. |
| `Stream.CiphertextLenInjective` | crates/mirror-core/src/crypto/content.rs:20-23 | The stored length determines the plaintext length, so a size check is a length check. |
| `Stream.PartIsNext` | crates/mirror-core/src/crypto/content.rs:90-164 | A part is the next piece of the remaining ciphertext, for exactly the plaintext it reports. |
| `Stream.PartIsFull` | crates/mirror-core/src/crypto/content.rs:103-158 | Every part but the last has the least number of whole frames that reaches the requested size. |
| `Stream.PartsMakeTheObject` | crates/mirror-core/src/crypto/content.rs:90-164 | For every sequence of requested sizes, nonce and parts together are encrypt_bytes of the whole file. |
| `Stream.StreamingEncryptor.EncryptNextPart` | crates/mirror-core/src/crypto/content.rs:90-164 | The encryptor object returns that part and moves on; once done it returns nothing. |
| `Stream.EncryptAll` | crates/mirror-core/src/crypto/content.rs:247-280 | The loop of encrypt_bytes computes nonce and all frames, the last one flagged, even if empty. |
| `Stream.DecryptionInverts` | crates/mirror-core/src/crypto/content.rs:208-243 | However the ciphertext is cut, feed emits a prefix of the plaintext and finish the rest. |
| `Stream.DrainEmits` | crates/mirror-core/src/crypto/content.rs:208-227 | One call emits the next stretch of the plaintext and holds back at most a frame. |
| `Stream.FeedAllEmits` | crates/mirror-core/src/crypto/content.rs:208-227 | So does any sequence of calls. |
| `Stream.FeedEmitsPrefixes` | crates/mirror-core/src/crypto/content.rs:208-227 | Wherever a download is cut off and however it was cut up, what feed emitted is a prefix of the plaintext, in whole frames, and nothing was refused. |
| `Stream.HeldBackIsLast` | crates/mirror-core/src/crypto/content.rs:232-243 | What is held back when everything has been fed is exactly the last frame. |
| `Stream.StreamingDecryptor.FeedBytes` | crates/mirror-core/src/crypto/content.rs:208-227 | The decryptor object computes that step. |
| `Stream.StreamingDecryptor.Finish` | crates/mirror-core/src/crypto/content.rs:232-243 | Once a whole ciphertext has been fed, it returns the rest of the plaintext. |
| `Stream.DecryptAll` | crates/mirror-core/src/crypto/content.rs:283-303 | decrypt_bytes inverts encrypt_bytes under the nonce in front and refuses anything shorter than a nonce. Where only the frames of one file open, each in its place, it returns something exactly for that file's whole ciphertext. |
| `Stream.AcceptsIffGenuine` | crates/mirror-core/src/crypto/content.rs:212-243 | The same for feed and finish: what drains and closes is the whole genuine ciphertext and gives its plaintext. |
| `Stream.TruncatedIsRefused` | crates/mirror-core/src/crypto/content.rs:232-243 | A ciphertext cut short anywhere, at the end of a frame too, is refused. |
| `Stream.AcceptsIffFraming` | crates/mirror-core/src/crypto/content.rs:212-243 | For a cipher that opens only what it sealed, data comes out exactly of its ciphertext and, for a whole number of chunks, of one more framing that encrypt_bytes never writes: no frame flagged but an empty last one. |
| `Upload.WirePartsMakeTheObject` | crates/mirror-core/src/apply/upload.rs:216-253 | The parts on the wire concatenate to the object, the nonce once, at the front. |
| `Upload.PartListCount` | crates/mirror-core/src/apply/upload.rs:233-253 | A file takes ceil(len / (65536 * k)) parts of k whole frames, the last one aside. |
| `Upload.CeilingExceededIff` | crates/mirror-core/src/store.rs:117-136 | More than 10,000 parts exactly if the length lies strictly between 655,360,000 k and 655,520,000 k for some k of at least 128. |
| `Upload.CeilingExceededAt` | crates/mirror-core/src/store.rs:117-136 | Only k = len / 655,520,000 + 1 needs to be looked at. |
| `Upload.CeilingByFrames` | crates/mirror-core/src/store.rs:117-136 | More than 10,000 exactly if 10,000 parts of that many whole frames hold less than the file. |
| `Upload.PartsAreBounded` | crates/mirror-core/src/store.rs:117-136 | In particular a multipart file takes at most 10,000 parts up to 83,886,080,000 bytes, and none takes more than 10,003. |
| `Upload.CeilingIsExceeded` | crates/mirror-core/src/store.rs:117-136 | One byte over 83,886,080,000 takes 10,001 parts, 131,103,999,999 bytes take 10,003, and the longer 84,000,000,000 take only 9,936. |
| `Upload.PartsAreLargeEnough` | crates/mirror-core/src/store.rs:117-136 | Every part but the last has at least 5 MiB. |
| `Upload.CheckAcceptsIff` | crates/mirror-core/src/apply/upload.rs:287-299 | A complete object is accepted exactly if the file still has the length that was hashed. |
| `Upload.UploadSingle` | crates/mirror-core/src/apply/upload.rs:195-208 | A small file is sent whole, as encrypt_bytes, or refused if its length changed. |
| `Upload.SendOne` | crates/mirror-core/src/apply/upload.rs:92-112 | A part is sent before it is recorded; cut off in between, it is sent again with the same bytes. |
| `Upload.AssembledIsConcat` | crates/mirror-core/src/apply/upload.rs:117-130 | Recorded numbers in order assemble to the concatenation of the parts. |
| `Upload.Conclude` | crates/mirror-core/src/apply/upload.rs:117-130 | Completes exactly if the length fits, and then the object is encrypt_bytes of the file. |
| `Upload.SendParts` | crates/mirror-core/src/apply/upload.rs:32-141 | From any confirmed prefix of parts: none is skipped, doubled or sent with other bytes; what is completed is encrypt_bytes of the file. |
| `Upload.UploadWithCrashes` | crates/mirror-core/src/apply/upload.rs:32-141 | Cut off after any number of steps and resumed any number of times, the object completed is the uninterrupted one, and enough steps complete it. |
| `Upload.Attempt` | crates/mirror-core/src/apply/upload.rs:32-141 | One call on a remembered upload, with crashes, transport errors, lost replies and aborts anywhere: what stands at the key is whole or untouched, success is claimed only for the whole object, an upload the store has closed is given up, and the row goes exactly when the call ends. |
| `Upload.Lifetime` | crates/mirror-core/src/sync.rs:456-535 | Over any number of attempts the same, until the first one that is not cut off; however often it was cut off before, the first one left alone uploads the file. |
| `Codec.Num32Inverts` | crates/backup-core/src/pack.rs:127-138 | A 32-bit number survives its little-endian bytes. |
| `Codec.EntryRoundTrip` | crates/backup-core/src/pack.rs:127-180 | An entry takes 46 bytes and decodes to itself. |
| `Codec.EntryLayout` | crates/backup-core/src/pack.rs:127-142 | The 46 bytes by position: type, compression, ID, and three 32-bit numbers, least significant byte first. |
| `Codec.EntryCanonical` | crates/backup-core/src/pack.rs:142-180 | Accepted entry bytes are the encoding of what they decode to. |
| `Codec.CountedRoundTrip` | crates/backup-core/src/pack.rs:142-180 | A counted list decodes to itself; the hostile-count check never refuses a real encoding. |
| `Codec.CountCheckOnlyHastens` | crates/backup-core/src/pack.rs:142-155 | The count check refuses only what reading on would have refused. |
| `Codec.ReadAll` | crates/backup-core/src/pack.rs:156-178 | The decoding loop over a shrinking rest computes the specified parse. |
| `Codec.ReadCounted` | crates/backup-core/src/pack.rs:142-180 | Reads the count, refuses an impossible one, and parses that many. |
| `Codec.Append` | crates/backup-core/src/pack.rs:127-138 | The encoding loop appends exactly the encoding. |
| `Codec.EntriesRoundTrip` | crates/backup-core/src/pack.rs:127-180 | Entry lists round-trip in front of any rest. |
| `Codec.EntriesCanonical` | crates/backup-core/src/pack.rs:142-180 | Accepted lists re-encode to the bytes they were read from. |
| `Codec.ListingRoundTrip` | crates/backup-core/src/index.rs:156-211 | One pack's listing round-trips in front of any rest. |
| `Codec.ListingCanonical` | crates/backup-core/src/index.rs:167-211 | Accepted listings re-encode to the bytes they were read from. |
| `Codec.IndexRoundTrip` | crates/backup-core/src/index.rs:156-211 | An index object decodes to what was encoded. |
| `Codec.IndexLayout` | crates/backup-core/src/index.rs:156-170 | By position: version 1, the number of packs, and each pack's ID and number of entries; an empty index object is 1, 0, 0, 0, 0, 0, 0, 0. |
| `Codec.IndexCanonical` | crates/backup-core/src/index.rs:167-211 | Accepted index bytes re-encode to themselves. |
| `Codec.ReadIndex` | crates/backup-core/src/index.rs:167-211 | The decoding loop computes the specified parse. |
| `Codec.WriteIndex` | crates/backup-core/src/index.rs:156-165 | The encoding loop computes the specified bytes. |
| `Codec.FooterRoundTrip` | crates/backup-core/src/pack.rs:182-214 | Header lengths up to the maximum survive the footer. |
| `Codec.FooterLayout` | crates/backup-core/src/pack.rs:182-189 | The twelve bytes by position: header length, RFMB, version 1. |
| `Codec.FooterIsSane` | crates/backup-core/src/pack.rs:191-214 | Anything accepted as a footer has magic and version and claims 64 MiB at most. |
| `Codec.ParsedIsInside` | crates/backup-core/src/pack.rs:428-447 | Every blob an accepted header lists lies in front of it. |
| `Codec.FooterCanonical` | crates/backup-core/src/pack.rs:191-214 | An accepted footer is the encoding of its header length. |
| `Codec.LoadHeaderSized` | crates/backup-core/src/pack.rs:464-494 | Reading the tail, and once more only if the header is longer, returns exactly what parse_header does on the whole object. |
| `Codec.TilesAreInside` | crates/backup-core/src/pack.rs:105-112 | Entries that tile the blob region all end inside it. |
| `Codec.Writer.Push` | crates/backup-core/src/pack.rs:336-357 | Refuses a duplicate, and what a 32-bit offset cannot address; otherwise appends, and the new entry's slice is the blob. Entries tile the buffer throughout. |
| `Codec.Writer.Finish` | crates/backup-core/src/pack.rs:360-380 | Fails exactly on an empty pack or an oversized header; what it makes parses back to its entries. |
| `Codec.FinishedParses` | crates/backup-core/src/pack.rs:428-445 | Blobs, sealed header and footer put together parse back to exactly the entries. |
| `Codec.HeaderSizeIsReal` | crates/backup-core/src/pack.rs:360-380 | The header size bounded for save_blob's packs is the sealed length of the real encoding. |
| `Codec.PackCanonical` | crates/backup-core/src/pack.rs:386-445 | What parse_header accepts is blobs, a seal over the one encoding of the entries, and the one footer; every entry lies among the blobs. |
| `Restore.GroupReads` | crates/backup-core/src/restorer.rs:524-541 | The groups concatenate to the sorted reads; within a group gaps are at most MERGE_GAP, between groups larger. |
| `Restore.SpanIsBounded` | crates/backup-core/src/restorer.rs:524-541 | A group of n reads spans at most the sum of their lengths and n-1 gaps. |
| `Restore.DecodeGroup` | crates/backup-core/src/restorer.rs:484-505 | Every chunk cut out of a merged read is in bounds and is what a read of its own would have returned. |
| `Restore.ReadGroup` | crates/backup-core/src/restorer.rs:473-509 | One merged read fails exactly when some chunk's own read would, and fetches no more than the bound. |
| `Restore.ReadPack` | crates/backup-core/src/restorer.rs:473-509 | Coalesced reading makes exactly the writes of reading chunk by chunk, or fails exactly when that would, and fetches at most the chunks and the gaps between those read together. |
| `RestoreFiles.PlanFile` | crates/backup-core/src/restorer.rs:413-442 | Plans a file exactly if all its chunks are listed and their lengths add up to its size. |
| `RestoreFiles.PlanReads` | crates/backup-core/src/restorer.rs:410-442 | Every distinct chunk is planned once, under its pack, with every place it goes. |
| `RestoreFiles.SortedBlobs` | crates/backup-core/src/restorer.rs:473-484 | Every planned read once, by offset. |
| `RestoreFiles.AddWantKeeps` | crates/backup-core/src/restorer.rs:423-433 | Another use of a chunk adds a destination, never a second read. |
| `RestoreFiles.PlacesTile` | crates/backup-core/src/restorer.rs:413-434 | Destinations tile a file: holding each chunk in its place means being their concatenation. |
| `RestoreFiles.WantIsInPlace` | crates/backup-core/src/restorer.rs:413-434 | A destination lies inside its file, and the file's chunk is what belongs there. |
| `RestoreFiles.PackWrites` | crates/backup-core/src/restorer.rs:473-509 | Reading a pack's plan writes every chunk to every destination planned for it and nothing else, and fails only for a chunk that cannot be had. |
| `RestoreFiles.WriteAll` | crates/backup-core/src/restorer.rs:545-559 | A pack's writes settle its chunks and unsettle none. |
| `RestoreFiles.RestorePack` | crates/backup-core/src/restorer.rs:473-509 | Reading a pack settles all chunks wanted from it; failure means a chunk that cannot be had. |
| `RestoreFiles.RestoreAll` | crates/backup-core/src/restorer.rs:379-470 | Succeeds exactly if restoring every file chunk by chunk would, with the same bytes. |
| `Retention.NewestIsKept` | crates/backup-core/src/prune.rs:66-137 | Any rule that counts at all keeps its group's newest snapshot. |
| `Retention.BucketsSurvive` | crates/backup-core/src/prune.rs:111-125 | Among what a rule keeps, the first buckets are all still represented. |
| `Retention.ReasonsIff` | crates/backup-core/src/prune.rs:111-136 | A snapshot has a reason exactly if it survives. |
| `Retention.RuleIsStable` | crates/backup-core/src/prune.rs:111-125 | Applied to what survived, a rule keeps the same snapshots. |
| `Retention.SelectIsStable` | crates/backup-core/src/prune.rs:66-137 | The whole policy again forgets nothing and gives every survivor the same reasons. |
| `Retention.ApplyRule` | crates/backup-core/src/prune.rs:114-123 | The loop keeps exactly the newest snapshot of each of the first N distinct buckets, newest first. |
| `Retention.SortNewest` | crates/backup-core/src/prune.rs:113-113 | Newest first, ties by ID, nothing lost. |
| `Retention.ApplyRules` | crates/backup-core/src/prune.rs:114-124 | All rules in turn give each snapshot of the group exactly its reasons. |
| `Retention.AllReasons` | crates/backup-core/src/prune.rs:111-125 | Every group's reasons, each from its own group only. |
| `Retention.Select` | crates/backup-core/src/prune.rs:66-137 | Refuses exactly the empty policy; keep and forget partition the input, latest first, and each snapshot is kept with exactly the rules for which, among its host and paths, no later one is in its bucket and later ones fill fewer than the count. |
| `Retention.LatestIsKept` | crates/backup-core/src/prune.rs:111-125 | The latest snapshot of a host and set of paths is kept under any policy that counts. |
| `Retention.OthersDoNotMatter` | crates/backup-core/src/prune.rs:98-125 | Snapshots of other hosts or path sets change neither a snapshot's fate nor its reasons. |
| `Retention.KeptAreSurvivors` | crates/backup-core/src/prune.rs:127-136 | Kept are exactly each group's survivors, forgotten exactly the others. |
| `Retention.SelectAgain` | crates/backup-core/src/prune.rs:66-137 | Selecting from what was kept forgets nothing and keeps each for the same reasons. |

## Left out

- Log reads in two steps (crates/mirror-core/src/sync.rs:158-159): a read is atomic here, so pruning between the two listings is not covered.
- Clock skew between devices and the store: one clock decides what is stale or expired.
- The list of `conflicts` from `merge_deltas`: proved to hold genuine pairs only; which ones it holds depends on the order of the fold, and a retained old delta can be reported.
- PrunePlan.Classify: compares with the exact fraction one fifth where the code multiplies by the floating-point 0.2.
- PrunePlan.WriteGroups: random pack IDs are drawn by counting up from an unused number.
- QuietApply.PassIsQuiet: an effect's delta and row are carried out together; that batching keeps their order is `Apply.BatchesAhead`.
- Applier.Run.Go: files written by finished downloads are not part of the durable trace; `QuietApply.Arrived` has them.
- Restore.ReadPack: decoding one sealed blob is an abstract function that may fail; `decode_blob`'s checks are inside it.
- Stream.EncryptAll: the 32-bit frame counter's overflow, beyond 256 TiB, is not modelled.
- Codec.Writer.Push: sealed blobs are under 2^32 bytes, as the 32-bit length field assumes.
- Upload.Lifetime: starts with the multipart upload open and its row written; one that the store has and no row remembers is only left open. The file does not change between attempts; a changed file is dropped before resuming by its hash (crates/mirror-core/src/sync.rs:480-483).
- Evict.PlanSpaceEvictions: candidates and their disk usage are given; reading them from the file system is left out.
- Cipher, hash, key derivation and compression internals: abstract seal and open functions and fixed IDs.
- The chunker: a file node already lists the chunks it is made of.
- The local metadata cache and the resume journal's file format: a journal entry is used if all its chunks are indexed.
- File-based `encrypt` and `decrypt` in crates/mirror-core/src/crypto/content.rs:306-430: not used outside its own checks, and for an empty file they write only the nonce.
- Edits made by the user between scan and apply: downloads do not check again, so nothing is claimed about them.
- Repair of missing remote objects, ignore rules, residency patterns, JSON, configuration, time zones.
- Metadata, hard links, symlinks and directories in restore: only file contents are modelled.
- Sizes as unbounded numbers: 64-bit overflow of byte counts is not modelled.
- The object store client, SQLite, file-system calls and the task runtime: atomic map operations and explicit steps.
- The command line, text interface, tray, service, control socket and progress reports: user interface.
