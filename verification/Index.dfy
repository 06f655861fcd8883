/**
 The blob index: which pack holds a blob. Index objects are merged in listing order and
 a blob that is already known keeps its location, so which copy wins depends on the
 order, but whether a blob is found does not.
 */
module Index {
  import opened Blobs
  import opened Options

  datatype Entry = Entry(id: Id, length: nat)

  datatype PackEntries = PackEntries(packId: Id, entries: seq<Entry>)

  datatype Location = Location(packId: Id, entry: Entry)

  predicate HasId(entries: seq<Entry>, id: Id)
  {
    exists e :: e in entries && e.id == id
  }

  /** Some pack in `all` is said to hold `id` at `at`. */
  predicate ListsAt(all: seq<PackEntries>, id: Id, at: Location)
  {
    exists p :: p in all && p.packId == at.packId && at.entry in p.entries && at.entry.id == id
  }

  predicate ListsId(all: seq<PackEntries>, id: Id)
  {
    exists p :: p in all && HasId(p.entries, id)
  }

  /** `blobs` after recording a pack: first location wins. */
  function AddEntries(blobs: map<Id, Location>, packId: Id, entries: seq<Entry>): map<Id, Location>
  {
    if entries == [] then blobs
    else
      var m := AddEntries(blobs, packId, entries[..|entries| - 1]);
      var e := entries[|entries| - 1];
      if e.id in m then m else m[e.id := Location(packId, e)]
  }

  function Merge(all: seq<PackEntries>): map<Id, Location>
  {
    if all == [] then map[]
    else AddEntries(Merge(all[..|all| - 1]), all[|all| - 1].packId, all[|all| - 1].entries)
  }

  function PackIds(all: seq<PackEntries>): set<Id>
  {
    if all == [] then {} else PackIds(all[..|all| - 1]) + {all[|all| - 1].packId}
  }

  lemma {:induction false} AddEntriesSpec(blobs: map<Id, Location>, packId: Id, entries: seq<Entry>)
    ensures forall id :: id in blobs ==>
              id in AddEntries(blobs, packId, entries) && AddEntries(blobs, packId, entries)[id] == blobs[id]
    ensures forall id :: id in AddEntries(blobs, packId, entries) && id !in blobs ==>
                           && AddEntries(blobs, packId, entries)[id].packId == packId
                           && AddEntries(blobs, packId, entries)[id].entry in entries
                           && AddEntries(blobs, packId, entries)[id].entry.id == id
    ensures forall e :: e in entries ==> e.id in AddEntries(blobs, packId, entries)
  {
    if entries != [] {
      var init := entries[..|entries| - 1];
      AddEntriesSpec(blobs, packId, init);
      assert entries == init + [entries[|entries| - 1]];
    }
  }

  /** The merged view finds a blob exactly when some object lists it, and always at a
      location some object lists for it, whatever the order of the objects. */
  lemma {:induction false} MergeSpec(all: seq<PackEntries>)
    ensures forall id :: id in Merge(all) <==> ListsId(all, id)
    ensures forall id :: id in Merge(all) ==> ListsAt(all, id, Merge(all)[id])
  {
    if all != [] {
      var init, last := all[..|all| - 1], all[|all| - 1];
      MergeSpec(init);
      AddEntriesSpec(Merge(init), last.packId, last.entries);
      assert all == init + [last];
      forall id | id in Merge(all) ensures ListsId(all, id) && ListsAt(all, id, Merge(all)[id]) {
        if id in Merge(init) {
          var p :| p in init && p.packId == Merge(init)[id].packId && Merge(init)[id].entry in p.entries
              && Merge(init)[id].entry.id == id;
          assert p in all && HasId(p.entries, id);
        } else {
          assert last in all && HasId(last.entries, id);
        }
      }
      forall id | ListsId(all, id) ensures id in Merge(all) {
        var p :| p in all && HasId(p.entries, id);
        if p in init { assert ListsId(init, id); }
      }
    }
  }

  /** Two merge orders of the same objects know the same blobs. */
  lemma {:induction false} MergeOrderIrrelevant(a: seq<PackEntries>, b: seq<PackEntries>)
    requires forall p :: p in a <==> p in b
    ensures Merge(a).Keys == Merge(b).Keys
    ensures forall id :: id in Merge(a) ==> ListsAt(b, id, Merge(a)[id])
  {
    MergeSpec(a);
    MergeSpec(b);
    forall id | id in Merge(a) ensures id in Merge(b) && ListsAt(b, id, Merge(a)[id]) {
      var p :| p in a && HasId(p.entries, id);
      assert p in b;
    }
    forall id | id in Merge(b) ensures id in Merge(a) {
      var p :| p in b && HasId(p.entries, id);
      assert p in a;
    }
  }

  /** The in-memory view a run consults and extends. */
  class View {
    var blobs: map<Id, Location>
    /** Pack ID to how many blobs it was recorded with. */
    var packs: map<Id, nat>
    var sources: seq<Id>
    /** Everything recorded so far, in order. */
    ghost var recorded: seq<PackEntries>

    ghost predicate Valid()
      reads this
    {
      && blobs == Merge(recorded)
      && packs.Keys == PackIds(recorded)
    }

    constructor ()
      ensures Valid() && recorded == [] && sources == [] && blobs == map[]
    {
      blobs, packs, sources, recorded := map[], map[], [], [];
    }

    method AddPack(packId: Id, entries: seq<Entry>)
      requires Valid()
      modifies this
      ensures Valid() && recorded == old(recorded) + [PackEntries(packId, entries)]
      ensures blobs == AddEntries(old(blobs), packId, entries)
      ensures sources == old(sources)
      ensures packs.Keys == old(packs.Keys) + {packId}
    {
      packs := packs[packId := (if packId in packs then packs[packId] else 0) + |entries|];
      ghost var before := blobs;
      for i := 0 to |entries|
        invariant blobs == AddEntries(before, packId, entries[..i])
        invariant sources == old(sources) && recorded == old(recorded)
        invariant packs.Keys == old(packs.Keys) + {packId}
      {
        var e := entries[i];
        assert entries[..i + 1][..i] == entries[..i];
        if e.id !in blobs {
          blobs := blobs[e.id := Location(packId, e)];
        }
      }
      assert entries[..|entries|] == entries;
      recorded := recorded + [PackEntries(packId, entries)];
      assert recorded[..|recorded| - 1] == old(recorded);
    }

    method AddSource(id: Id)
      requires Valid()
      modifies this`sources
      ensures Valid() && sources == old(sources) + [id]
    {
      sources := sources + [id];
    }

    method Lookup(id: Id) returns (r: Option<Location>)
      requires Valid()
      ensures r.Some? <==> ListsId(recorded, id)
      ensures r.Some? ==> ListsAt(recorded, id, r.value)
    {
      MergeSpec(recorded);
      r := if id in blobs then Some(blobs[id]) else None;
    }
  }

  /** The packs of several index objects, in the order they are merged. */
  function Flatten(objects: map<Id, seq<PackEntries>>, order: seq<Id>): (r: seq<PackEntries>)
    requires forall id :: id in order ==> id in objects
  {
    if order == [] then []
    else Flatten(objects, order[..|order| - 1]) + objects[order[|order| - 1]]
  }

  lemma {:induction false} FlattenSpec(objects: map<Id, seq<PackEntries>>, order: seq<Id>)
    requires forall id :: id in order ==> id in objects
    ensures forall p :: p in Flatten(objects, order) <==> exists id :: id in order && p in objects[id]
  {
    if order != [] {
      var init, last := order[..|order| - 1], order[|order| - 1];
      FlattenSpec(objects, init);
      assert order == init + [last];
      forall p ensures p in Flatten(objects, order) <==> exists id :: id in order && p in objects[id] {
        if p in Flatten(objects, init) {
          var id :| id in init && p in objects[id];
          assert id in order;
        }
        if id :| id in order && p in objects[id] {
          if id in init { assert p in Flatten(objects, init); }
        }
      }
    }
  }

  lemma OnePackMore(before: seq<PackEntries>, packs: seq<PackEntries>, j: nat)
    requires j < |packs|
    ensures before + packs[..j] + [packs[j]] == before + packs[..j + 1]
  {
    assert packs[..j + 1] == packs[..j] + [packs[j]];
  }

  /** Merges one object's packs into `view`, in order. */
  method AddObject(view: View, packs: seq<PackEntries>)
    requires view.Valid()
    modifies view
    ensures view.Valid() && view.recorded == old(view.recorded) + packs && view.sources == old(view.sources)
  {
    for j := 0 to |packs|
      invariant view.Valid()
      invariant view.recorded == old(view.recorded) + packs[..j] && view.sources == old(view.sources)
    {
      OnePackMore(old(view.recorded), packs, j);
      view.AddPack(packs[j].packId, packs[j].entries);
    }
    assert packs[..|packs|] == packs;
  }

  /** Reads every index object of `order` and merges them. */
  method Load(objects: map<Id, seq<PackEntries>>, order: seq<Id>) returns (view: View)
    requires forall id :: id in order ==> id in objects
    ensures view.Valid() && fresh(view)
    ensures view.recorded == Flatten(objects, order) && view.sources == order
  {
    view := new View();
    for i := 0 to |order|
      invariant fresh(view) && view.Valid()
      invariant view.recorded == Flatten(objects, order[..i]) && view.sources == order[..i]
    {
      AddObject(view, objects[order[i]]);
      view.AddSource(order[i]);
      assert order[..i + 1][..i] == order[..i];
    }
    assert order[..|order|] == order;
  }
}
