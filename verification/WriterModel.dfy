/**
 A backup's handle on the repository with its concurrency summed up: what the in-memory
 index knows, what is on its way up, and which uploaded packs no index object lists yet.
 `RepositoryWriter` refines it; `BackupProtocol` runs it.
 */
module WriterModel {
  import opened Blobs
  import opened Index

  datatype Writer = Writer(index: set<Id>, pending: set<Id>, newPacks: map<Id, seq<Entry>>, failed: bool)

  function Start(index: set<Id>): Writer
  {
    Writer(index, {}, map[], false)
  }

  function IdsOf(entries: seq<Entry>): set<Id>
  {
    set e | e in entries :: e.id
  }

  /** After a failure only blobs the index already knows are accepted. */
  predicate Refuses(w: Writer, id: Id)
  {
    id !in w.index && w.failed
  }

  function Save(w: Writer, id: Id): Writer
    requires !Refuses(w, id)
  {
    if id in w.index then w else w.(pending := w.pending + {id})
  }

  /** A pack's upload ended. A failure is sticky, and its blobs stay pending. */
  function Uploaded(w: Writer, packId: Id, entries: seq<Entry>, ok: bool): Writer
  {
    if ok then
      w.(index := w.index + IdsOf(entries), pending := w.pending - IdsOf(entries),
      newPacks := w.newPacks[packId := entries])
    else w.(failed := true)
  }

  function AdoptPack(w: Writer, packId: Id, entries: seq<Entry>): Writer
  {
    w.(index := w.index + IdsOf(entries), newPacks := w.newPacks[packId := entries])
  }

  /** An index object over `flushed` was written, or its write failed. */
  function Flushed(w: Writer, flushed: set<Id>, ok: bool): Writer
  {
    w.(newPacks := w.newPacks - flushed, failed := w.failed || !ok)
  }

  function Restrict(packs: map<Id, seq<Entry>>, ids: set<Id>): map<Id, seq<Entry>>
  {
    map pk | pk in packs && pk in ids :: packs[pk]
  }

  /** A listing of exactly the packs in `packs`. */
  predicate ListsExactly(listing: seq<PackEntries>, packs: map<Id, seq<Entry>>)
  {
    && (forall p :: p in listing ==> p.packId in packs && p.entries == packs[p.packId])
    && (forall pk :: pk in packs ==> PackEntries(pk, packs[pk]) in listing)
  }
}
