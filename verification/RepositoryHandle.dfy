/**
 `Repository` as the object the tasks share. The fields are the shared index and
 `WriteState`; each method is one section under the mutex, and ends in the state
 `RepositoryWriter.Next` gives, so every run of methods has the properties proved there.
 */
module RepositoryHandle {
  import opened Blobs
  import opened Index
  import opened Options
  import opened WriterModel
  import opened RepositoryWriter

  datatype Reply =
    | RunFailed
    | Known
    | Unknown
    | Rejected
    | Added
    | Full(packId: Id, entries: seq<Entry>)

  /** What becomes of a blob pushed onto the open pack: there is room, the pack is full, or the
      blob cannot be addressed or the header would not fit. */
  ghost predicate Replies(open: Open, id: Id, length: nat, target: nat, r: Reply)
  {
    var size := Bytes(open.entries) + length;
    if size >= 0x1_0000_0000 then r == Rejected
    else if size < target then r == Added
    else if HeaderSize(|open.entries| + 1) > 64 * 1024 * 1024 then r == Rejected
    else r == Full(open.packId, open.entries + [Entry(id, length)])
  }

  class Repository {
    const target: nat
    var index: set<Id>
    var writer: Option<Open>
    var inflight: set<Id>
    var newPacks: map<Id, seq<Entry>>
    var failed: bool
    // what the tasks and the bucket hold, and the history
    ghost var others: State

    ghost function View(): State
      reads this
    {
      others.(target := target, index := index, writer := writer, inflight := inflight,
      newPacks := newPacks, failed := failed)
    }

    constructor (target: nat, base: set<Id>, ghost drawn: set<Id>)
      ensures View() == Init(target, base, drawn)
    {
      this.target := target;
      index, writer, inflight, newPacks, failed := base, None, {}, map[], false;
      others := Init(target, base, drawn);
    }

    method Pending(id: Id) returns (found: bool)
      ensures found == IsPending(View(), id)
    {
      found := id in inflight;
      if writer.Some? {
        var i := 0;
        while i < |writer.value.entries| && !found
          invariant i <= |writer.value.entries|
          invariant found <==> id in inflight || id in IdsOf(writer.value.entries[..i])
        {
          PushIds(writer.value.entries[..i], writer.value.entries[i]);
          assert writer.value.entries[..i] + [writer.value.entries[i]] == writer.value.entries[..i + 1];
          found := writer.value.entries[i].id == id;
          i := i + 1;
        }
        assert i == |writer.value.entries| ==> writer.value.entries[..i] == writer.value.entries;
      }
    }

    /** `save_blob` before sealing, with the mutex. */
    method CheckBlob(id: Id) returns (r: Reply)
      modifies this
      ensures View() == Next(old(View()), CheckPending(id))
      ensures r == if old(failed) then RunFailed else if old(IsPending(View(), id)) then Known else Unknown
    {
      ghost var was := View();
      if failed { return RunFailed; }
      var pending := Pending(id);
      r := if pending then Known else Unknown;
      others := Next(was, CheckPending(id));
    }

    /** Pushing a sealed blob, and taking the pack if that fills it. */
    method Fill(id: Id, length: nat) returns (r: Reply)
      requires writer.Some?
      modifies this
      ensures View() == Filled(old(View()), id, length)
      ensures r == Added ==> writer.Some? && writer.value.packId == old(writer).value.packId
                             && writer.value.entries == old(writer).value.entries + [Entry(id, length)]
      ensures r.Full? ==> writer == None && inflight == old(inflight) + IdsOf(r.entries)
      ensures Replies(old(writer).value, id, length, target, r)
      ensures r == Added ==> id in View().returned
      ensures r.Full? ==> FlightHas(View().flights, r.packId, id) && r.entries == View().flights[r.packId].entries
    {
      others := Filled(View(), id, length);
      var open := writer.value;
      var size := Size(open.entries);
      if size + length >= U32_LIMIT { return Rejected; }
      PushIds(open.entries, Entry(id, length));
      open := open.(entries := open.entries + [Entry(id, length)]);
      if size + length < target {
        writer := Some(open);
        return Added;
      }
      writer := None;
      if HeaderSize(|open.entries|) > MAX_HEADER_SIZE { return Rejected; }
      inflight := inflight + IdsOf(open.entries);
      return Full(open.packId, open.entries);
    }

    /** `save_blob` after sealing: the blob goes into the open pack unless someone was faster. */
    method PlaceBlob(id: Id, length: nat, newId: Id) returns (r: Reply)
      requires Enabled(View(), Place(id, length, newId))
      modifies this
      ensures View() == Next(old(View()), Place(id, length, newId))
      ensures r == Added ==> writer.Some? && writer.value.entries == old(OpenEntries(View())) + [Entry(id, length)]
      ensures r.Full? ==> writer == None && r.entries == old(OpenEntries(View())) + [Entry(id, length)]
                          && inflight == old(inflight) + IdsOf(r.entries)
      ensures r == RunFailed <==> old(failed)
      ensures r == Known <==> !old(failed) && (id in old(index) || old(IsPending(View(), id)))
      ensures r == Added <==>
                !old(failed) && id !in old(index) && !old(IsPending(View(), id))
                && Bytes(old(OpenEntries(View()))) + length < 0x1_0000_0000
                && Bytes(old(OpenEntries(View()))) + length < target
      ensures r.Full? <==>
                !old(failed) && id !in old(index) && !old(IsPending(View(), id))
                && target <= Bytes(old(OpenEntries(View()))) + length < 0x1_0000_0000
                && HeaderSize(|old(OpenEntries(View()))| + 1) <= 64 * 1024 * 1024
      ensures r == Known || r == Added ==> id in View().returned
      ensures r.Full? ==> FlightHas(View().flights, r.packId, id) && r.entries == View().flights[r.packId].entries
    {
      if failed { return RunFailed; }
      var pending := Pending(id);
      if id in index || pending {
        others := Return(View(), id);
        return Known;
      }
      others := Opened(View(), newId);
      if writer.None? {
        writer := Some(Open(newId, []));
      }
      r := Fill(id, length);
    }

    method Size(entries: seq<Entry>) returns (n: nat)
      ensures n == Bytes(entries)
    {
      n := 0;
      for i := 0 to |entries|
        invariant n == Bytes(entries[..i])
      {
        assert entries[..i + 1][..i] == entries[..i];
        n := n + entries[i].length;
      }
      assert entries[..|entries|] == entries;
    }

    /** `upload_pack` after the put. */
    method PutEnded(packId: Id, ok: bool)
      requires Enabled(View(), Put(packId, ok))
      modifies this
      ensures View() == Next(old(View()), Put(packId, ok))
      ensures failed <==> old(failed) || !ok
    {
      others := Next(View(), Put(packId, ok));
      if !ok {
        failed := true;
      }
    }

    /** `Index::add_pack`, blob by blob. */
    method AddPack(packId: Id, entries: seq<Entry>)
      requires Enabled(View(), IndexPack(packId)) && entries == View().flights[packId].entries
      modifies this
      ensures View() == Next(old(View()), IndexPack(packId))
      ensures index == old(index) + IdsOf(entries)
    {
      others := Next(View(), IndexPack(packId));
      for i := 0 to |entries|
        invariant View() == Next(old(View()), IndexPack(packId)).(index := index)
        invariant index == old(index) + IdsOf(entries[..i])
      {
        PushIds(entries[..i], entries[i]);
        assert entries[..i] + [entries[i]] == entries[..i + 1];
        index := index + {entries[i].id};
      }
      assert entries[..|entries|] == entries;
    }

    /** The end of `upload_pack`: the blobs leave the in-flight set one by one. */
    method LandPack(packId: Id, entries: seq<Entry>)
      requires Enabled(View(), Land(packId)) && entries == View().flights[packId].entries
      modifies this
      ensures View() == Next(old(View()), Land(packId))
      ensures inflight == old(inflight) - IdsOf(entries) && newPacks == old(newPacks)[packId := entries]
    {
      others := Next(View(), Land(packId));
      for i := 0 to |entries|
        invariant View() == Next(old(View()), Land(packId)).(inflight := inflight, newPacks := newPacks)
        invariant inflight == old(inflight) - IdsOf(entries[..i]) && newPacks == old(newPacks)
      {
        PushIds(entries[..i], entries[i]);
        assert entries[..i] + [entries[i]] == entries[..i + 1];
        inflight := inflight - {entries[i].id};
      }
      assert entries[..|entries|] == entries;
      newPacks := newPacks[packId := entries];
    }

    /** `flush` up to the point where the open pack, if it holds anything, is uploaded. */
    method OpenFlush() returns (r: Reply)
      requires Enabled(View(), FlushOpen)
      modifies this
      ensures View() == Next(old(View()), FlushOpen)
      ensures writer == None && newPacks == old(newPacks)
      ensures inflight == if r.Full? then old(inflight) + IdsOf(r.entries) else old(inflight)
      ensures r == Unknown <==> old(OpenEntries(View())) == []
      ensures r == RunFailed <==> old(OpenEntries(View())) != [] && !Fits(old(OpenEntries(View())))
      ensures r == Unknown || r == RunFailed || (r.Full? && r.entries == old(OpenEntries(View())))
      ensures r.Full? ==> r.packId in View().flights && r.entries == View().flights[r.packId].entries
    {
      others := Next(View(), FlushOpen);
      var open := writer;
      writer := None;
      if open.None? || open.value.entries == [] { return Unknown; }
      if HeaderSize(|open.value.entries|) > MAX_HEADER_SIZE {
        failed := true;
        return RunFailed;
      }
      inflight := inflight + IdsOf(open.value.entries);
      return Full(open.value.packId, open.value.entries);
    }

    /** `flush` taking the packs its index object will cover. */
    method TakePacks() returns (packs: map<Id, seq<Entry>>, ok: bool)
      requires Enabled(View(), FlushTake)
      modifies this
      ensures View() == Next(old(View()), FlushTake)
      ensures ok <==> old(inflight) == {}
      ensures packs == if ok then old(newPacks) else map[]
      ensures newPacks == if ok then map[] else old(newPacks)
    {
      others := Next(View(), FlushTake);
      if inflight != {} { return map[], false; }
      packs, ok := newPacks, true;
      newPacks := map[];
    }

    /** `flush` after writing the index object. */
    method IndexWritten(stored: bool)
      requires Enabled(View(), FlushSave(stored))
      modifies this
      ensures View() == Next(old(View()), FlushSave(stored))
      ensures failed <==> old(failed) || !stored
    {
      others := Next(View(), FlushSave(stored));
      if !stored {
        failed := true;
      }
    }

    /** `save_snapshot` deciding whether to go ahead. With the invariants, it goes ahead only
        if every blob handed out is listed by an index object, in a pack that is stored. */
    method MayPublish() returns (ok: bool)
      requires Inv(View()) && Enabled(View(), SnapCheck)
      modifies this
      ensures View() == Next(old(View()), SnapCheck)
      ensures ok <==> (old(writer).None? || old(writer).value.entries == []) && old(inflight) == {}
                      && old(newPacks) == map[]
      ensures ok <==> View().published == old(View()).published + 1
      ensures ok ==> forall id :: id in old(View()).returned ==> id in old(View()).base || Safe(old(View()), id)
      ensures old(failed) ==> !ok
    {
      if failed { LostBlobsBlock(View()); }
      ok := inflight == {} && newPacks == map[] && (writer.None? || writer.value.entries == []);
      if ok { PublishingIsSafe(View()); }
      others := Next(View(), SnapCheck);
    }
  }
}
