/**
 The backup repository as the bucket holds it: packs, index objects and snapshots. A
 consistent bucket is one where every index listing is true (the pack exists and holds
 the blob) and every snapshot's blobs are all listed.
 */
module Store {
  import opened Blobs
  import opened Index
  import opened Options

  datatype Pack = Pack(size: nat, entries: seq<Entry>, written: Option<nat>)

  datatype Bucket = Bucket(packs: map<Id, Pack>,
                           indexes: map<Id, seq<PackEntries>>,
                           snaps: map<Id, Id>)

  datatype Op =
    | PutPack(packId: Id, pack: Pack)
    | PutIndex(indexId: Id, listing: seq<PackEntries>)
    | PutSnap(snapId: Id, root: Id)
    | DelSnap(snapId: Id)
    | DelIndex(indexId: Id)
    | DelPack(packId: Id)

  /** One request to the object store. */
  function Apply(b: Bucket, op: Op): Bucket
  {
    match op
    case PutPack(id, pack) => b.(packs := b.packs[id := pack])
    case PutIndex(id, listing) => b.(indexes := b.indexes[id := listing])
    case PutSnap(id, root) => b.(snaps := b.snaps[id := root])
    case DelSnap(id) => b.(snaps := b.snaps - {id})
    case DelIndex(id) => b.(indexes := b.indexes - {id})
    case DelPack(id) => b.(packs := b.packs - {id})
  }

  predicate PackHolds(b: Bucket, pk: Id, id: Id)
  {
    pk in b.packs && HasId(b.packs[pk].entries, id)
  }

  /** Index object `ix` says pack `pk` holds `id`. */
  predicate Lists(b: Bucket, ix: Id, pk: Id, id: Id)
  {
    ix in b.indexes && exists p :: p in b.indexes[ix] && p.packId == pk && HasId(p.entries, id)
  }

  ghost predicate Covered(b: Bucket, id: Id)
  {
    exists ix, pk :: Lists(b, ix, pk, id)
  }

  /** Every listing in every index object is true. */
  ghost predicate Sound(b: Bucket)
  {
    forall ix, pk, id :: Lists(b, ix, pk, id) ==> PackHolds(b, pk, id)
  }

  /** Everything restoring `root` needs can be found. */
  ghost predicate Restorable(g: Forest, b: Bucket, root: Id)
  {
    Decodes(g, root) && forall id :: Needs(g, root, id) ==> Covered(b, id)
  }

  ghost predicate Consistent(g: Forest, b: Bucket)
  {
    Sound(b) && forall s :: s in b.snaps ==> Restorable(g, b, b.snaps[s])
  }

  /** In a consistent bucket, merging the index objects in any order finds every blob a
      snapshot needs, in a pack that exists and holds it. */
  lemma {:induction false} ResolvesInAnyOrder(g: Forest, b: Bucket, order: seq<Id>, s: Id, id: Id)
    requires Consistent(g, b) && s in b.snaps && Needs(g, b.snaps[s], id)
    requires forall ix :: ix in order <==> ix in b.indexes
    ensures id in Merge(Flatten(b.indexes, order))
    ensures PackHolds(b, Merge(Flatten(b.indexes, order))[id].packId, id)
  {
    var all := Flatten(b.indexes, order);
    FlattenSpec(b.indexes, order);
    MergeSpec(all);
    assert Covered(b, id);
    var ix, pk :| Lists(b, ix, pk, id);
    var p :| p in b.indexes[ix] && p.packId == pk && HasId(p.entries, id);
    assert p in all && ListsId(all, id);
    var at := Merge(all)[id];
    var q :| q in all && q.packId == at.packId && at.entry in q.entries && at.entry.id == id;
    var jx :| jx in order && q in b.indexes[jx];
    assert HasId(q.entries, id);
    assert Lists(b, jx, at.packId, id);
  }
}
