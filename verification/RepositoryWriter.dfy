/**
 The write side of `Repository`: concurrent `save_blob` calls filling an open pack, packs
 uploaded outside the mutex, and the coordinating task's `adopt_orphans`, `flush` and
 `save_snapshot`. Every stretch of code between two await points is one atomic section;
 `State` is everything the sections share and `Next` what each does.
 */
module RepositoryWriter {
  // Calls keep no state of their own between sections that the next section does not check
  // again, so any sequence of sections is an interleaving of calls. `RepositoryHandle` is the
  // object itself.

  import opened Blobs
  import opened Index
  import opened Options
  import opened WriterModel

  /** Bytes a pack aims for before a new one is started. */
  const TARGET_SIZE: nat := 16 * 1024 * 1024
  const MAX_HEADER_SIZE: nat := 64 * 1024 * 1024
  /** Nonce and tag: no sealed blob is shorter. */
  const MIN_SEALED: nat := 19 + 16
  const U32_LIMIT: nat := 0x1_0000_0000

  datatype Open = Open(packId: Id, entries: seq<Entry>)

  datatype Stage = Sent | Stored | Indexed

  /** A finished pack on its way up, and the blob whose save is waiting for it, if any. */
  datatype Flight = Flight(entries: seq<Entry>, stage: Stage, saver: Option<Id>)

  /** Where the coordinating task is. */
  datatype Coordinator =
    | Free
    | Adopting(packId: Id, entries: seq<Entry>)
    | Opening
    | Finishing(packId: Id)
    | Draining
    | Saving(packs: map<Id, seq<Entry>>)
    | Publishing

  datatype State = State(
    target: nat,
    base: set<Id>,
    index: set<Id>,
    writer: Option<Open>,
    inflight: set<Id>,
    newPacks: map<Id, seq<Entry>>,
    failed: bool,
    flights: map<Id, Flight>,
    coord: Coordinator,
    // the bucket's side: packs acknowledged as stored, and what the index objects written list
    stored: map<Id, seq<Entry>>,
    listed: map<Id, seq<Entry>>,
    // history: pack IDs drawn, blobs pushed into packs, IDs returned to callers, blobs of
    // failed uploads, whether an index write failed, snapshots written
    drawn: set<Id>,
    packed: seq<Id>,
    returned: set<Id>,
    lost: set<Id>,
    unlisted: bool,
    published: nat)

  datatype Event =
    | CheckIndex(id: Id)
    | CheckPending(id: Id)
    | Place(id: Id, length: nat, newId: Id)
    | Put(packId: Id, ok: bool)
    | IndexPack(packId: Id)
    | Land(packId: Id)
    | AdoptIndex(packId: Id, entries: seq<Entry>)
    | AdoptPush
    | FlushStart
    | FlushOpen
    | FlushTake
    | FlushSave(ok: bool)
    | SnapStart
    | SnapCheck

  function OpenEntries(s: State): seq<Entry>
  {
    if s.writer.Some? then s.writer.value.entries else []
  }

  function OpenIds(s: State): set<Id>
  {
    IdsOf(OpenEntries(s))
  }

  predicate IsPending(s: State, id: Id)
  {
    id in OpenIds(s) || id in s.inflight
  }

  function Bytes(entries: seq<Entry>): nat
  {
    if entries == [] then 0 else Bytes(entries[..|entries| - 1]) + entries[|entries| - 1].length
  }

  /** The sealed header of a pack with `n` entries: 46 bytes each and a count, sealed in
      frames of 64 KiB. */
  function HeaderSize(n: nat): nat
  {
    var plain := 4 + 46 * n;
    19 + plain + 16 * ((plain + 65535) / 65536)
  }

  /** `finish` refuses a pack whose header is over the limit. */
  predicate Fits(entries: seq<Entry>)
  {
    HeaderSize(|entries|) <= MAX_HEADER_SIZE
  }

  /** A blob that cannot be addressed in the pack is refused. */
  predicate TooFar(entries: seq<Entry>, length: nat)
  {
    Bytes(entries) + length >= U32_LIMIT
  }

  predicate Unflushed(s: State)
  {
    OpenEntries(s) != [] || s.inflight != {} || s.newPacks != map[]
  }

  predicate InStage(s: State, pk: Id, stage: Stage)
  {
    pk in s.flights && s.flights[pk].stage == stage
  }

  predicate Enabled(s: State, e: Event)
  {
    match e
    case CheckIndex(_) => true
    case CheckPending(_) => true
    case Place(_, length, newId) => MIN_SEALED <= length < U32_LIMIT && newId !in s.drawn
    case Put(pk, _) => InStage(s, pk, Sent)
    case IndexPack(pk) => InStage(s, pk, Stored)
    case Land(pk) => InStage(s, pk, Indexed)
    // orphans are adopted before anything is saved
    case AdoptIndex(pk, _) => s.coord == Free && s.packed == [] && pk !in s.drawn
    case AdoptPush => s.coord.Adopting?
    case FlushStart => s.coord.Free?
    case FlushOpen => s.coord.Opening?
    case FlushTake => s.coord.Draining?
    case FlushSave(_) => s.coord.Saving?
    case SnapStart => s.coord.Free?
    case SnapCheck => s.coord.Publishing?
  }

  function Return(s: State, id: Id): State
  {
    s.(returned := s.returned + {id})
  }

  /** The open pack becomes a finished one, in flight. */
  function Launch(s: State, saver: Option<Id>): (t: State)
    requires s.writer.Some?
    ensures t.base == s.base && t.published == s.published && t.failed == s.failed && t.stored == s.stored
  {
    var open := s.writer.value;
    s.(writer := None, inflight := s.inflight + IdsOf(open.entries),
    flights := s.flights[open.packId := Flight(open.entries, Sent, saver)])
  }

  function Opened(s: State, newId: Id): (t: State)
    ensures t.base == s.base && t.published == s.published && t.failed == s.failed && t.stored == s.stored
  {
    if s.writer.Some? then s else s.(writer := Some(Open(newId, [])), drawn := s.drawn + {newId})
  }

  function Pushed(s: State, id: Id, length: nat): (t: State)
    requires s.writer.Some?
    ensures t.base == s.base && t.published == s.published && t.failed == s.failed && t.stored == s.stored
  {
    s.(writer := Some(s.writer.value.(entries := OpenEntries(s) + [Entry(id, length)])), packed := s.packed + [id])
  }

  /** Pushing onto the open pack, and launching it once full. If finishing a full pack
      fails, the pack is gone and only this call hears of it. */
  function Filled(s: State, id: Id, length: nat): (t: State)
    requires s.writer.Some?
    ensures t.base == s.base && t.published == s.published && t.failed == s.failed && t.stored == s.stored
  {
    if TooFar(OpenEntries(s), length) then s
    else
      var u := Pushed(s, id, length);
      if Bytes(OpenEntries(s)) + length < s.target then Return(u, id)
      else if !Fits(OpenEntries(u)) then u.(writer := None)
      else Launch(u, Some(id))
  }

  /** `save_blob` after sealing: it checks again before it pushes. */
  function Placed(s: State, id: Id, length: nat, newId: Id): (t: State)
    ensures t.base == s.base && t.published == s.published && t.failed == s.failed && t.stored == s.stored
  {
    if s.failed then s
    else if id in s.index || IsPending(s, id) then Return(s, id)
    else Filled(Opened(s, newId), id, length)
  }

  function FlushOpened(s: State): State
  {
    if OpenEntries(s) == [] then s.(writer := None, coord := Draining)
    else if !Fits(OpenEntries(s)) then s.(writer := None, failed := true, coord := Free)
    else Launch(s, None).(coord := Finishing(s.writer.value.packId))
  }

  function Landed(s: State, pk: Id): State
    requires pk in s.flights
  {
    var f := s.flights[pk];
    s.(inflight := s.inflight - IdsOf(f.entries), newPacks := s.newPacks[pk := f.entries],
    flights := s.flights - {pk},
    returned := if f.saver.Some? then s.returned + {f.saver.value} else s.returned,
    coord := if s.coord == Finishing(pk) then Draining else s.coord)
  }

  function UploadEnded(s: State, pk: Id, ok: bool): State
    requires pk in s.flights
  {
    var f := s.flights[pk];
    if ok then s.(stored := s.stored[pk := f.entries], flights := s.flights[pk := f.(stage := Stored)])
    else
      s.(failed := true, lost := s.lost + IdsOf(f.entries), flights := s.flights - {pk},
      coord := if s.coord == Finishing(pk) then Free else s.coord)
  }

  function Checked(s: State, id: Id): State
  {
    if !s.failed && IsPending(s, id) then Return(s, id) else s
  }

  /** `Index::add_pack` for a stored pack: its blobs are known before they leave the in-flight set. */
  function Recorded(s: State, pk: Id): State
    requires pk in s.flights
  {
    s.(index := s.index + IdsOf(s.flights[pk].entries), flights := s.flights[pk := s.flights[pk].(stage := Indexed)])
  }

  function Adopted(s: State, pk: Id, entries: seq<Entry>): State
  {
    s.(index := s.index + IdsOf(entries), stored := s.stored[pk := entries], drawn := s.drawn + {pk},
    coord := Adopting(pk, entries))
  }

  function AdoptedPushed(s: State): State
    requires s.coord.Adopting?
  {
    s.(newPacks := s.newPacks[s.coord.packId := s.coord.entries], coord := Free)
  }

  function FlushTaken(s: State): State
  {
    if s.inflight != {} || s.newPacks == map[] then s.(coord := Free)
    else s.(coord := Saving(s.newPacks), newPacks := map[])
  }

  function FlushSaved(s: State, ok: bool): State
    requires s.coord.Saving?
  {
    if ok then s.(listed := s.listed + s.coord.packs, coord := Free)
    else s.(failed := true, unlisted := true, coord := Free)
  }

  /** `save_snapshot` after `ensure_writable`: refuses unless everything is flushed. */
  function SnapChecked(s: State): State
  {
    if Unflushed(s) then s.(coord := Free) else s.(coord := Free, published := s.published + 1)
  }

  function Next(s: State, e: Event): State
    requires Enabled(s, e)
  {
    match e
    case CheckIndex(id) => if id in s.index then Return(s, id) else s
    case CheckPending(id) => Checked(s, id)
    case Place(id, length, newId) => Placed(s, id, length, newId)
    case Put(pk, ok) => UploadEnded(s, pk, ok)
    case IndexPack(pk) => Recorded(s, pk)
    case Land(pk) => Landed(s, pk)
    case AdoptIndex(pk, entries) => Adopted(s, pk, entries)
    case AdoptPush => AdoptedPushed(s)
    case FlushStart => if s.failed then s else s.(coord := Opening)
    case FlushOpen => FlushOpened(s)
    case FlushTake => FlushTaken(s)
    case FlushSave(ok) => FlushSaved(s, ok)
    case SnapStart => if s.failed then s else s.(coord := Publishing)
    case SnapCheck => SnapChecked(s)
  }

  /** A handle just opened: `base` is what the loaded index knows, `drawn` the pack IDs it has seen. */
  function Init(target: nat, base: set<Id>, drawn: set<Id>): State
  {
    State(target, base, base, None, {}, map[], false, map[], Free, map[], map[], drawn, [], {}, {}, false, 0)
  }

  // ----- Invariants -----

  ghost predicate NoRepeats(ids: seq<Id>)
  {
    forall i, j :: 0 <= i < j < |ids| ==> ids[i] != ids[j]
  }

  function Elems(ids: seq<Id>): set<Id>
  {
    set id | id in ids
  }

  /** Nothing is pushed twice, and whatever was pushed or returned is in the open pack, in
      flight or in the index, in the open pack only if nowhere else. */
  ghost predicate PackedInv(open: set<Id>, inflight: set<Id>, index: set<Id>, packed: seq<Id>, returned: set<Id>)
  {
    && NoRepeats(packed)
    && Elems(packed) <= open + inflight + index
    && returned <= open + inflight + index
    && open !! inflight && open !! index
  }

  predicate FlightHas(flights: map<Id, Flight>, pk: Id, id: Id)
  {
    pk in flights && id in IdsOf(flights[pk].entries)
  }

  ghost predicate InFlight(flights: map<Id, Flight>, id: Id)
  {
    exists pk :: FlightHas(flights, pk, id)
  }

  /** The in-flight set is the flights' blobs and those of failed uploads, all apart. */
  ghost predicate FlightInv(flights: map<Id, Flight>, inflight: set<Id>, lost: set<Id>)
  {
    && (forall id :: id in inflight ==> id in lost || InFlight(flights, id))
    && (forall pk, id :: FlightHas(flights, pk, id) ==> id in inflight && id !in lost)
    && (forall pk, qk, id :: FlightHas(flights, pk, id) && FlightHas(flights, qk, id) ==> pk == qk)
    && lost <= inflight
  }

  /** What a flight's stage says about the index and the bucket, and whose save it carries. */
  ghost predicate StageInv(flights: map<Id, Flight>, index: set<Id>, stored: map<Id, seq<Entry>>)
  {
    && (forall pk :: pk in flights ==> flights[pk].entries != [])
    && (forall pk, id :: FlightHas(flights, pk, id) ==> (id in index <==> flights[pk].stage == Indexed))
    && (forall pk :: pk in flights && flights[pk].saver.Some? ==> FlightHas(flights, pk, flights[pk].saver.value))
    && (forall pk :: pk in flights ==> if flights[pk].stage == Sent then pk !in stored
                                       else pk in stored && stored[pk] == flights[pk].entries)
  }

  function CoordPacks(c: Coordinator): map<Id, seq<Entry>>
  {
    match c
    case Adopting(pk, entries) => map[pk := entries]
    case Saving(packs) => packs
    case _ => map[]
  }

  function Indexing(flights: map<Id, Flight>): set<Id>
  {
    set pk | pk in flights && flights[pk].stage == Indexed
  }

  /** Packs the index knows through this handle but no index object may list yet. */
  function Unlisted(s: State): set<Id>
  {
    s.newPacks.Keys + CoordPacks(s.coord).Keys + Indexing(s.flights)
  }

  ghost predicate Within(packs: map<Id, seq<Entry>>, stored: map<Id, seq<Entry>>)
  {
    forall pk :: pk in packs ==> pk in stored && stored[pk] == packs[pk]
  }

  ghost predicate Homed(base: set<Id>, packs: set<Id>, stored: map<Id, seq<Entry>>, id: Id)
  {
    id in base || exists pk :: pk in packs && pk in stored && id in IdsOf(stored[pk])
  }

  /** Whatever the index knows was there from the start or is in a stored pack that an
      index object lists or is about to list. */
  ghost predicate HomeInv(base: set<Id>, index: set<Id>, packs: set<Id>, stored: map<Id, seq<Entry>>)
  {
    forall id :: id in index ==> Homed(base, packs, stored, id)
  }

  /** A pack is in one place at a time, and its ID is drawn once. */
  ghost predicate PlaceInv(s: State)
  {
    && s.flights.Keys <= s.drawn && s.stored.Keys <= s.drawn
    && (s.writer.Some? ==> var pk := s.writer.value.packId; pk in s.drawn && pk !in s.flights && pk !in s.stored)
    && s.flights.Keys !! s.newPacks.Keys
    && s.flights.Keys !! CoordPacks(s.coord).Keys
    && s.newPacks.Keys !! CoordPacks(s.coord).Keys
    && Within(s.newPacks, s.stored) && Within(s.listed, s.stored) && Within(CoordPacks(s.coord), s.stored)
    && (s.packed == [] ==> s.flights == map[] && OpenEntries(s) == [] && s.inflight == {})
  }

  ghost predicate AllSealed(entries: seq<Entry>)
  {
    forall e :: e in entries ==> e.length >= MIN_SEALED
  }

  /** The open pack is under its target and made of sealed blobs. */
  ghost predicate SizeInv(target: nat, open: seq<Entry>)
  {
    target <= TARGET_SIZE && (open == [] || Bytes(open) < target) && AllSealed(open)
  }

  /** A write has failed exactly if an upload lost blobs or an index object was not written. */
  ghost predicate FailInv(s: State)
  {
    && (s.failed <==> s.lost != {} || s.unlisted)
    && (s.coord.Publishing? ==> !s.unlisted)
  }

  /** Where every blob is. */
  ghost predicate BlobInv(s: State)
  {
    && PackedInv(OpenIds(s), s.inflight, s.index, s.packed, s.returned)
    && FlightInv(s.flights, s.inflight, s.lost)
    && StageInv(s.flights, s.index, s.stored)
  }

  /** Where every pack is. */
  ghost predicate PackInv(s: State)
  {
    && PlaceInv(s)
    && (!s.unlisted ==> HomeInv(s.base, s.index, Unlisted(s) + s.listed.Keys, s.stored))
    && SizeInv(s.target, OpenEntries(s))
    && FailInv(s)
  }

  ghost predicate Inv(s: State)
  {
    BlobInv(s) && PackInv(s)
  }

  lemma InitInv(target: nat, base: set<Id>, drawn: set<Id>)
    requires target <= TARGET_SIZE
    ensures Inv(Init(target, base, drawn))
  {
  }

  // ----- Packs always fit -----

  lemma {:induction false} BytesAtLeast(entries: seq<Entry>)
    requires AllSealed(entries)
    ensures Bytes(entries) >= MIN_SEALED * |entries|
  {
    if entries != [] {
      BytesAtLeast(entries[..|entries| - 1]);
      assert entries[|entries| - 1] in entries;
    }
  }

  /** A pack that was under the 16 MiB target before its last blob has a header that fits,
      so `finish` accepts it. */
  lemma {:induction false} FullPackFits(entries: seq<Entry>, last: Entry)
    requires AllSealed(entries) && (entries == [] || Bytes(entries) < TARGET_SIZE)
    ensures Fits(entries) && Fits(entries + [last])
  {
    BytesAtLeast(entries);
  }

  // ----- What a flight's departure, progress and end do -----

  lemma PushElems(ids: seq<Id>, id: Id)
    ensures Elems(ids + [id]) == Elems(ids) + {id}
  {
    assert forall x :: x in ids + [id] <==> x in ids || x == id;
  }

  lemma PushIds(entries: seq<Entry>, e: Entry)
    ensures IdsOf(entries + [e]) == IdsOf(entries) + {e.id}
  {
    var all := entries + [e];
    assert all[|entries|] == e;
    forall x | x in entries ensures x in all {
      var i :| 0 <= i < |entries| && entries[i] == x;
      assert all[i] == x;
    }
  }

  lemma FlightLeaves(flights: map<Id, Flight>, inflight: set<Id>, lost: set<Id>, pk: Id, f: Flight)
    requires FlightInv(flights, inflight, lost)
    requires pk !in flights && IdsOf(f.entries) !! inflight
    ensures FlightInv(flights[pk := f], inflight + IdsOf(f.entries), lost)
  {
    var flights' := flights[pk := f];
    forall id | id in inflight + IdsOf(f.entries) ensures id in lost || InFlight(flights', id) {
      if id in IdsOf(f.entries) {
        assert FlightHas(flights', pk, id);
      } else if id !in lost {
        var qk :| FlightHas(flights, qk, id);
        assert FlightHas(flights', qk, id);
      }
    }
    assert forall qk, id :: FlightHas(flights', qk, id) && qk != pk ==> FlightHas(flights, qk, id);
  }

  lemma FlightMoves(flights: map<Id, Flight>, inflight: set<Id>, lost: set<Id>, pk: Id, stage: Stage)
    requires FlightInv(flights, inflight, lost) && pk in flights
    ensures FlightInv(flights[pk := flights[pk].(stage := stage)], inflight, lost)
  {
    var flights' := flights[pk := flights[pk].(stage := stage)];
    assert forall qk, id :: FlightHas(flights', qk, id) <==> FlightHas(flights, qk, id);
    forall id | id in inflight ensures id in lost || InFlight(flights', id) {
      if id !in lost {
        var qk :| FlightHas(flights, qk, id);
        assert FlightHas(flights', qk, id);
      }
    }
  }

  lemma FlightEnds(flights: map<Id, Flight>, inflight: set<Id>, lost: set<Id>, pk: Id)
    requires FlightInv(flights, inflight, lost) && pk in flights
    ensures FlightInv(flights - {pk}, inflight - IdsOf(flights[pk].entries), lost)
    ensures FlightInv(flights - {pk}, inflight, lost + IdsOf(flights[pk].entries))
  {
    var ids := IdsOf(flights[pk].entries);
    var flights' := flights - {pk};
    assert forall id :: FlightHas(flights, pk, id) <==> id in ids;
    assert forall qk, id :: FlightHas(flights', qk, id) <==> FlightHas(flights, qk, id) && qk != pk;
    forall id | id in inflight && id !in ids && id !in lost ensures InFlight(flights', id) {
      var qk :| FlightHas(flights, qk, id);
      assert FlightHas(flights', qk, id);
    }
  }

  // ----- Every section keeps the invariants -----

  lemma HomeGrows(base: set<Id>, index: set<Id>, packs: set<Id>, packs': set<Id>,
                  stored: map<Id, seq<Entry>>, stored': map<Id, seq<Entry>>)
    requires HomeInv(base, index, packs, stored)
    requires packs <= packs' && Within(stored, stored')
    ensures HomeInv(base, index, packs', stored')
  {
    forall id | id in index ensures Homed(base, packs', stored', id) {
      if id !in base {
        var pk :| pk in packs && pk in stored && id in IdsOf(stored[pk]);
        assert pk in packs' && pk in stored';
      }
    }
  }

  lemma HomeGrowsIf(s: State, t: State)
    requires !s.unlisted ==> HomeInv(s.base, s.index, Unlisted(s) + s.listed.Keys, s.stored)
    requires t.base == s.base && t.index == s.index && Unlisted(s) + s.listed.Keys <= Unlisted(t) + t.listed.Keys
    requires Within(s.stored, t.stored) && (s.unlisted ==> t.unlisted)
    ensures !t.unlisted ==> HomeInv(t.base, t.index, Unlisted(t) + t.listed.Keys, t.stored)
  {
    if !t.unlisted {
      HomeGrows(s.base, s.index, Unlisted(s) + s.listed.Keys, Unlisted(t) + t.listed.Keys, s.stored, t.stored);
    }
  }

  lemma CoordMoves(s: State, c: Coordinator, published: nat)
    requires Inv(s) && (s.unlisted ==> !c.Publishing?)
    requires CoordPacks(s.coord) == map[] && CoordPacks(c) == map[]
    ensures Inv(s.(coord := c, published := published))
  {
    assert Unlisted(s.(coord := c, published := published)) == Unlisted(s);
  }

  lemma LaunchBlobs(s: State, saver: Option<Id>)
    requires BlobInv(s) && PlaceInv(s) && s.writer.Some? && OpenEntries(s) != []
    requires saver.Some? ==> saver.value in OpenIds(s)
    ensures BlobInv(Launch(s, saver))
  {
    var t := Launch(s, saver);
    var open := s.writer.value;
    FlightLeaves(s.flights, s.inflight, s.lost, open.packId, Flight(open.entries, Sent, saver));
    assert forall pk, id :: FlightHas(t.flights, pk, id) ==>
             FlightHas(s.flights, pk, id) || (pk == open.packId && id in IdsOf(open.entries));
    assert OpenIds(t) == {};
  }

  lemma LaunchPacks(s: State, saver: Option<Id>)
    requires PlaceInv(s) && FailInv(s) && s.target <= TARGET_SIZE && s.writer.Some? && s.packed != []
    requires !s.unlisted ==> HomeInv(s.base, s.index, Unlisted(s) + s.listed.Keys, s.stored)
    ensures PackInv(Launch(s, saver))
  {
    var t := Launch(s, saver);
    assert Unlisted(t) == Unlisted(s);
  }

  lemma FlushTakenKeeps(s: State)
    requires Inv(s) && s.coord.Draining?
    ensures Inv(FlushTaken(s))
  {
    if s.inflight != {} || s.newPacks == map[] {
      CoordMoves(s, Free, s.published);
    } else {
      SavingKeeps(s);
    }
  }

  lemma SavingKeeps(s: State)
    requires Inv(s) && s.coord.Draining?
    ensures Inv(s.(coord := Saving(s.newPacks), newPacks := map[]))
  {
    assert Unlisted(s.(coord := Saving(s.newPacks), newPacks := map[])) == Unlisted(s);
  }

  /** Blobs are where they were. */
  lemma SameBlobs(s: State, t: State)
    requires BlobInv(s) && OpenIds(t) == OpenIds(s) && t.inflight == s.inflight && t.index == s.index
    requires t.packed == s.packed && t.returned == s.returned && t.flights == s.flights && t.lost == s.lost
             && t.stored == s.stored
    ensures BlobInv(t)
  {
  }

  lemma FlushSavedPlace(s: State, ok: bool)
    requires PlaceInv(s) && s.coord.Saving?
    ensures PlaceInv(FlushSaved(s, ok))
  {
    var t := FlushSaved(s, ok);
    assert Within(CoordPacks(s.coord), s.stored) && CoordPacks(t.coord) == map[];
    forall pk | pk in t.listed ensures pk in t.stored && t.stored[pk] == t.listed[pk] {
      if ok && pk in s.coord.packs { assert pk in CoordPacks(s.coord); }
    }
  }

  lemma FlushSavedHome(s: State, ok: bool)
    requires !s.unlisted ==> HomeInv(s.base, s.index, Unlisted(s) + s.listed.Keys, s.stored)
    requires s.coord.Saving?
    ensures var t := FlushSaved(s, ok); !t.unlisted ==> HomeInv(t.base, t.index, Unlisted(t) + t.listed.Keys, t.stored)
  {
    if ok { HomeGrowsIf(s, FlushSaved(s, ok)); }
  }

  lemma FlushSavedKeeps(s: State, ok: bool)
    requires Inv(s) && s.coord.Saving?
    ensures Inv(FlushSaved(s, ok))
  {
    SameBlobs(s, FlushSaved(s, ok));
    FlushSavedPlace(s, ok);
    FlushSavedHome(s, ok);
  }

  lemma UploadEndedBlobs(s: State, pk: Id, ok: bool)
    requires Inv(s) && InStage(s, pk, Sent)
    ensures BlobInv(UploadEnded(s, pk, ok))
  {
    var t := UploadEnded(s, pk, ok);
    var ids := IdsOf(s.flights[pk].entries);
    assert forall id :: FlightHas(s.flights, pk, id) <==> id in ids;
    assert forall qk, id :: FlightHas(t.flights, qk, id) ==> FlightHas(s.flights, qk, id);
    FlightMoves(s.flights, s.inflight, s.lost, pk, Stored);
    FlightEnds(s.flights, s.inflight, s.lost, pk);
  }

  lemma UploadStoredPlace(s: State, pk: Id)
    requires PlaceInv(s) && InStage(s, pk, Sent) && pk !in s.stored
    ensures PlaceInv(UploadEnded(s, pk, true))
  {
    var t := UploadEnded(s, pk, true);
    assert t.flights.Keys == s.flights.Keys && t.stored.Keys == s.stored.Keys + {pk};
  }

  lemma UploadStoredPacks(s: State, pk: Id)
    requires Inv(s) && InStage(s, pk, Sent)
    ensures PackInv(UploadEnded(s, pk, true))
  {
    UploadStoredPlace(s, pk);
    HomeGrowsIf(s, UploadEnded(s, pk, true));
  }

  lemma UploadFailedPacks(s: State, pk: Id)
    requires Inv(s) && InStage(s, pk, Sent)
    ensures PackInv(UploadEnded(s, pk, false))
  {
    assert s.flights[pk].entries[0].id in IdsOf(s.flights[pk].entries);
    HomeGrowsIf(s, UploadEnded(s, pk, false));
  }

  lemma RecordedBlobs(s: State, pk: Id)
    requires Inv(s) && InStage(s, pk, Stored)
    ensures BlobInv(Recorded(s, pk))
  {
    var t := Recorded(s, pk);
    var ids := IdsOf(s.flights[pk].entries);
    assert forall id :: FlightHas(s.flights, pk, id) <==> id in ids;
    assert forall qk, id :: FlightHas(t.flights, qk, id) ==> FlightHas(s.flights, qk, id);
    FlightMoves(s.flights, s.inflight, s.lost, pk, Indexed);
  }

  lemma RecordedPlace(s: State, pk: Id)
    requires PlaceInv(s) && InStage(s, pk, Stored)
    ensures PlaceInv(Recorded(s, pk))
  {
    assert Recorded(s, pk).flights.Keys == s.flights.Keys;
  }

  lemma RecordedHome(s: State, pk: Id)
    requires !s.unlisted ==> HomeInv(s.base, s.index, Unlisted(s) + s.listed.Keys, s.stored)
    requires InStage(s, pk, Stored) && pk in s.stored && s.stored[pk] == s.flights[pk].entries
    ensures var t := Recorded(s, pk); !t.unlisted ==> HomeInv(t.base, t.index, Unlisted(t) + t.listed.Keys, t.stored)
  {
    var t := Recorded(s, pk);
    assert Unlisted(t) == Unlisted(s) + {pk};
    HomeGrowsIf(s, t.(index := s.index));
  }

  lemma RecordedPacks(s: State, pk: Id)
    requires Inv(s) && InStage(s, pk, Stored)
    ensures PackInv(Recorded(s, pk))
  {
    RecordedPlace(s, pk);
    RecordedHome(s, pk);
  }

  lemma LandedBlobs(s: State, pk: Id)
    requires Inv(s) && InStage(s, pk, Indexed)
    ensures BlobInv(Landed(s, pk))
  {
    var t := Landed(s, pk);
    var ids := IdsOf(s.flights[pk].entries);
    assert forall id :: FlightHas(s.flights, pk, id) <==> id in ids;
    assert forall qk, id :: FlightHas(t.flights, qk, id) ==> FlightHas(s.flights, qk, id);
    FlightEnds(s.flights, s.inflight, s.lost, pk);
  }

  lemma LandedPlace(s: State, pk: Id)
    requires PlaceInv(s) && StageInv(s.flights, s.index, s.stored) && InStage(s, pk, Indexed)
    requires s.flights[pk].entries != []
    ensures PlaceInv(Landed(s, pk))
  {
    var t := Landed(s, pk);
    assert t.newPacks.Keys == s.newPacks.Keys + {pk};
    assert CoordPacks(t.coord) == CoordPacks(s.coord);
    assert Within(t.newPacks, t.stored);
  }

  lemma LandedPacks(s: State, pk: Id)
    requires Inv(s) && InStage(s, pk, Indexed)
    ensures PackInv(Landed(s, pk))
  {
    LandedPlace(s, pk);
    assert Unlisted(Landed(s, pk)) == Unlisted(s);
  }

  lemma AdoptedKeeps(s: State, pk: Id, entries: seq<Entry>)
    requires Inv(s) && s.coord == Free && s.packed == [] && pk !in s.drawn
    ensures Inv(Adopted(s, pk, entries))
  {
    var t := Adopted(s, pk, entries);
    assert t.stored[pk] == entries && pk in Unlisted(t);
    HomeGrowsIf(s, t.(index := s.index));
  }

  lemma AdoptedPushedPlace(s: State)
    requires PlaceInv(s) && s.coord.Adopting?
    ensures PlaceInv(AdoptedPushed(s)) && Unlisted(AdoptedPushed(s)) == Unlisted(s)
  {
    assert s.coord.packId in CoordPacks(s.coord);
  }

  lemma AdoptedPushedKeeps(s: State)
    requires Inv(s) && s.coord.Adopting?
    ensures Inv(AdoptedPushed(s))
  {
    SameBlobs(s, AdoptedPushed(s));
    AdoptedPushedPlace(s);
  }

  lemma OpenedKeeps(s: State, newId: Id)
    requires Inv(s) && newId !in s.drawn
    ensures Inv(Opened(s, newId))
  {
    if s.writer.None? {
      var t := Opened(s, newId);
      assert OpenEntries(t) == OpenEntries(s) && Unlisted(t) == Unlisted(s);
    }
  }

  lemma ReturnedKeeps(s: State, id: Id)
    requires Inv(s) && (id in s.index || IsPending(s, id))
    ensures Inv(Return(s, id))
  {
    var t := Return(s, id);
    assert Unlisted(t) == Unlisted(s);
  }

  lemma PushedBlobs(s: State, id: Id, length: nat)
    requires Inv(s) && s.writer.Some? && id !in s.index && !IsPending(s, id)
    ensures BlobInv(Pushed(s, id, length))
  {
    var t := Pushed(s, id, length);
    PushIds(OpenEntries(s), Entry(id, length));
    assert OpenIds(t) == OpenIds(s) + {id};
    PushElems(s.packed, id);
  }

  lemma PushedPlace(s: State, id: Id, length: nat)
    requires Inv(s) && s.writer.Some?
    ensures PlaceInv(Pushed(s, id, length))
  {
    PushElems(s.packed, id);
  }

  lemma FullKeeps(s: State, id: Id, length: nat)
    requires Inv(s) && s.writer.Some? && id !in s.index && !IsPending(s, id) && length >= MIN_SEALED
    requires Bytes(OpenEntries(s)) + length >= s.target
    ensures Inv(Launch(Pushed(s, id, length), Some(id)))
  {
    var u := Pushed(s, id, length);
    PushedBlobs(s, id, length);
    PushedPlace(s, id, length);
    PushIds(OpenEntries(s), Entry(id, length));
    assert Unlisted(u) == Unlisted(s);
    LaunchBlobs(u, Some(id));
    LaunchPacks(u, Some(id));
  }

  lemma RoomKeeps(s: State, id: Id, length: nat)
    requires Inv(s) && s.writer.Some? && id !in s.index && !IsPending(s, id) && length >= MIN_SEALED
    requires Bytes(OpenEntries(s)) + length < s.target
    ensures Inv(Return(Pushed(s, id, length), id))
  {
    var u := Pushed(s, id, length);
    PushedBlobs(s, id, length);
    PushedPlace(s, id, length);
    PushIds(OpenEntries(s), Entry(id, length));
    assert Unlisted(u) == Unlisted(s);
    assert OpenEntries(u)[..|OpenEntries(u)| - 1] == OpenEntries(s);
    ReturnedKeeps(u, id);
  }

  lemma FilledKeeps(s: State, id: Id, length: nat)
    requires Inv(s) && s.writer.Some? && id !in s.index && !IsPending(s, id) && length >= MIN_SEALED
    ensures Inv(Filled(s, id, length))
  {
    FilledCases(s, id, length);
    if Bytes(OpenEntries(s)) + length < s.target {
      RoomKeeps(s, id, length);
    } else {
      FullKeeps(s, id, length);
    }
  }

  /** Under the 16 MiB target a full pack always fits, so no pack is ever dropped. */
  lemma FilledCases(s: State, id: Id, length: nat)
    requires s.writer.Some? && SizeInv(s.target, OpenEntries(s))
    ensures Filled(s, id, length) == s || Filled(s, id, length) ==
            if Bytes(OpenEntries(s)) + length < s.target then Return(Pushed(s, id, length), id)
            else Launch(Pushed(s, id, length), Some(id))
  {
    FullPackFits(OpenEntries(s), Entry(id, length));
  }

  lemma PlacedKeeps(s: State, id: Id, length: nat, newId: Id)
    requires Inv(s) && newId !in s.drawn && length >= MIN_SEALED
    ensures Inv(Placed(s, id, length, newId))
  {
    if id in s.index || IsPending(s, id) {
      ReturnedKeeps(s, id);
    } else {
      OpenedKeeps(s, newId);
      FilledKeeps(Opened(s, newId), id, length);
    }
  }

  lemma {:induction false} FitsAlone(entries: seq<Entry>)
    requires AllSealed(entries) && (entries == [] || Bytes(entries) < TARGET_SIZE)
    ensures Fits(entries)
  {
    BytesAtLeast(entries);
  }

  lemma FlushOpenedEmpty(s: State)
    requires Inv(s) && s.coord.Opening? && OpenEntries(s) == []
    ensures Inv(FlushOpened(s))
  {
    var u := s.(writer := None);
    SameBlobs(s, u);
    assert PackInv(u) by {
      assert Unlisted(u) == Unlisted(s);
    }
    CoordMoves(u, Draining, u.published);
  }

  lemma FlushOpenedFull(s: State)
    requires Inv(s) && s.coord.Opening? && OpenEntries(s) != []
    ensures Inv(FlushOpened(s))
  {
    FitsAlone(OpenEntries(s));
    LaunchBlobs(s, None);
    LaunchPacks(s, None);
    var u := Launch(s, None);
    CoordMoves(u, Finishing(s.writer.value.packId), u.published);
  }

  lemma FlushOpenedKeeps(s: State)
    requires Inv(s) && s.coord.Opening?
    ensures Inv(FlushOpened(s))
  {
    if OpenEntries(s) == [] { FlushOpenedEmpty(s); } else { FlushOpenedFull(s); }
  }

  lemma SaverKeepsInv(s: State, e: Event)
    requires Inv(s) && Enabled(s, e)
    requires e.CheckIndex? || e.CheckPending? || e.Place? || e.Put? || e.IndexPack? || e.Land?
    ensures Inv(Next(s, e))
  {
    match e
    case CheckIndex(id) => if id in s.index { ReturnedKeeps(s, id); }
    case CheckPending(id) => if IsPending(s, id) { ReturnedKeeps(s, id); }
    case Place(id, length, newId) => PlacedKeeps(s, id, length, newId);
    case Put(pk, ok) => UploadEndedBlobs(s, pk,
            ok); if ok { UploadStoredPacks(s, pk); } else { UploadFailedPacks(s, pk); }
    case IndexPack(pk) => RecordedBlobs(s, pk); RecordedPacks(s, pk);
    case Land(pk) => LandedBlobs(s, pk); LandedPacks(s, pk);
    case _ =>
  }

  lemma FlushKeepsInv(s: State, e: Event)
    requires Inv(s) && Enabled(s, e) && (e.FlushStart? || e.FlushOpen? || e.FlushTake? || e.FlushSave?)
    ensures Inv(Next(s, e))
  {
    match e
    case FlushStart => if !s.failed { CoordMoves(s, Opening, s.published); }
    case FlushOpen => FlushOpenedKeeps(s);
    case FlushTake => FlushTakenKeeps(s);
    case FlushSave(ok) => FlushSavedKeeps(s, ok);
    case _ =>
  }

  lemma AdoptKeepsInv(s: State, e: Event)
    requires Inv(s) && Enabled(s, e) && (e.AdoptIndex? || e.AdoptPush?)
    ensures Inv(Next(s, e))
  {
    match e
    case AdoptIndex(pk, entries) => AdoptedKeeps(s, pk, entries);
    case AdoptPush => AdoptedPushedKeeps(s);
    case _ =>
  }

  lemma SnapKeepsInv(s: State, e: Event)
    requires Inv(s) && Enabled(s, e) && (e.SnapStart? || e.SnapCheck?)
    ensures Inv(Next(s, e))
  {
    if e.SnapCheck? {
      CoordMoves(s, Free, if Unflushed(s) then s.published else s.published + 1);
    } else if !s.failed {
      CoordMoves(s, Publishing, s.published);
    }
  }

  lemma NextKeepsInv(s: State, e: Event)
    requires Inv(s) && Enabled(s, e)
    ensures Inv(Next(s, e))
  {
    if e.CheckIndex? || e.CheckPending? || e.Place? || e.Put? || e.IndexPack? || e.Land? {
      SaverKeepsInv(s, e);
    } else if e.AdoptIndex? || e.AdoptPush? {
      AdoptKeepsInv(s, e);
    } else if e.SnapStart? || e.SnapCheck? {
      SnapKeepsInv(s, e);
    } else {
      FlushKeepsInv(s, e);
    }
  }

  // ----- Runs -----

  ghost predicate ValidRun(s: State, es: seq<Event>)
    decreases es
  {
    es != [] ==> Enabled(s, es[0]) && ValidRun(Next(s, es[0]), es[1..])
  }

  ghost function After(s: State, es: seq<Event>): State
    requires ValidRun(s, es)
    decreases es
  {
    if es == [] then s else After(Next(s, es[0]), es[1..])
  }

  lemma {:induction false} RunKeepsInv(s: State, es: seq<Event>)
    requires Inv(s) && ValidRun(s, es)
    ensures Inv(After(s, es))
    decreases es
  {
    if es != [] {
      NextKeepsInv(s, es[0]);
      RunKeepsInv(Next(s, es[0]), es[1..]);
    }
  }

  /** In every interleaving of calls, no blob is packed twice, a packed blob is always in the
      open pack, in flight or in the index, and the blobs of a failed upload stay in flight. */
  lemma {:induction false} PackedOnce(target: nat, base: set<Id>, drawn: set<Id>, es: seq<Event>)
    requires target <= TARGET_SIZE && ValidRun(Init(target, base, drawn), es)
    ensures var s := After(Init(target, base, drawn), es);
            && NoRepeats(s.packed) && s.lost <= s.inflight
            && (forall id :: id in s.packed || id in s.returned ==> id in s.index || IsPending(s, id))
  {
    InitInv(target, base, drawn);
    RunKeepsInv(Init(target, base, drawn), es);
  }

  /** An index object written through this handle lists `id` in a pack that is stored. */
  ghost predicate Safe(s: State, id: Id)
  {
    exists pk :: pk in s.listed && id in IdsOf(s.listed[pk]) && pk in s.stored && s.stored[pk] == s.listed[pk]
  }

  /** When `save_snapshot` goes ahead, every ID any call returned was known when the handle
      was opened or is in an uploaded pack that a stored index object lists. */
  lemma PublishingIsSafe(s: State)
    requires Inv(s) && s.coord == Publishing && !Unflushed(s)
    ensures forall id :: id in s.returned ==> id in s.base || Safe(s, id)
  {
    forall id | id in s.returned && id !in s.base ensures Safe(s, id) {
      assert id in s.index;
      var pk :| pk in Unlisted(s) + s.listed.Keys && pk in s.stored && id in IdsOf(s.stored[pk]);
      if pk in Indexing(s.flights) {
        assert FlightHas(s.flights, pk, id);
      }
      assert pk in s.listed;
    }
  }

  lemma {:induction false} PublishedIsListed(target: nat, base: set<Id>, drawn: set<Id>, es: seq<Event>, id: Id)
    requires target <= TARGET_SIZE && ValidRun(Init(target, base, drawn), es)
    requires var s := After(Init(target, base, drawn), es);
             s.coord == Publishing && !Unflushed(s) && id in s.returned
    ensures var s := After(Init(target, base, drawn), es); id in base || Safe(s, id)
  {
    InitInv(target, base, drawn);
    RunKeepsInv(Init(target, base, drawn), es);
    BaseStays(Init(target, base, drawn), es);
    PublishingIsSafe(After(Init(target, base, drawn), es));
  }

  lemma BaseIsFixed(s: State, e: Event)
    requires Enabled(s, e)
    ensures Next(s, e).base == s.base
  {
    match e
    case Place(id, length, newId) =>
    case Put(pk, ok) =>
    case FlushOpen =>
    case _ =>
  }

  lemma FailureStays(s: State, e: Event)
    requires Enabled(s, e) && s.failed
    ensures Next(s, e).failed
  {
    match e
    case Place(id, length, newId) =>
    case Put(pk, ok) =>
    case FlushOpen =>
    case _ =>
  }

  lemma OnlyTheCheckPublishes(s: State, e: Event)
    requires Enabled(s, e)
    ensures Next(s, e).published != s.published ==> e.SnapCheck? && !Unflushed(s)
  {
    match e
    case Place(id, length, newId) =>
    case Put(pk, ok) =>
    case FlushOpen =>
    case _ =>
  }

  lemma Steady(s: State, e: Event)
    requires Enabled(s, e)
    ensures Next(s, e).base == s.base
    ensures s.failed ==> Next(s, e).failed
    ensures Next(s, e).published != s.published ==> e.SnapCheck? && !Unflushed(s)
  {
    BaseIsFixed(s, e);
    if s.failed { FailureStays(s, e); }
    OnlyTheCheckPublishes(s, e);
  }

  lemma {:induction false} BaseStays(s: State, es: seq<Event>)
    requires ValidRun(s, es)
    ensures After(s, es).base == s.base
    decreases es
  {
    if es != [] {
      Steady(s, es[0]);
      BaseStays(Next(s, es[0]), es[1..]);
    }
  }

  /** A failure that slips in between `ensure_writable` and the check is caught by the check:
      the lost blobs never leave the in-flight set. */
  lemma LostBlobsBlock(s: State)
    requires Inv(s) && s.failed && s.coord.Publishing?
    ensures Unflushed(s)
  {
  }

  /** After any pack or index write failed, no snapshot is ever written through the handle. */
  lemma {:induction false} RefusesForever(s: State, es: seq<Event>)
    requires Inv(s) && s.failed && ValidRun(s, es)
    ensures After(s, es).failed && After(s, es).published == s.published
    decreases es
  {
    if es != [] {
      if es[0].SnapCheck? {
        LostBlobsBlock(s);
      }
      NextKeepsInv(s, es[0]);
      Steady(s, es[0]);
      RefusesForever(Next(s, es[0]), es[1..]);
    }
  }

  // ----- Refinement of the summary a backup runs on -----

  function Summary(s: State): Writer
  {
    Writer(s.index, (OpenIds(s) + s.inflight) - s.index, Restrict(s.stored, Unlisted(s)), s.failed)
  }

  /** The summary's move for a section, if the section is visible at all. */
  function Visible(s: State, e: Event): Writer
    requires Enabled(s, e)
  {
    var w := Summary(s);
    match e
    case Place(id, length, newId) => if Placed(s, id, length, newId).packed == s.packed then w else Save(w, id)
    case Put(pk, ok) => if ok then w else Uploaded(w, pk, s.flights[pk].entries, false)
    case IndexPack(pk) => Uploaded(w, pk, s.flights[pk].entries, true)
    case AdoptIndex(pk, entries) => AdoptPack(w, pk, entries)
    case FlushSave(ok) => Flushed(w, s.coord.packs.Keys, ok)
    case _ => w
  }

  lemma SameSummary(s: State, t: State)
    requires t.index == s.index && t.failed == s.failed && t.stored == s.stored && Unlisted(t) == Unlisted(s)
    requires OpenIds(t) + t.inflight + s.index == OpenIds(s) + s.inflight + s.index
    ensures Summary(t) == Summary(s)
  {
  }

  lemma PushedRefines(s: State, id: Id, length: nat)
    requires s.writer.Some? && id !in s.index && !s.failed
    ensures Summary(Pushed(s, id, length)) == Save(Summary(s), id)
  {
    PushIds(OpenEntries(s), Entry(id, length));
    assert Unlisted(Pushed(s, id, length)) == Unlisted(s);
  }

  lemma LaunchRefines(s: State, saver: Option<Id>)
    requires s.writer.Some? && s.writer.value.packId !in s.flights
    ensures Summary(Launch(s, saver)) == Summary(s)
  {
    assert Unlisted(Launch(s, saver)) == Unlisted(s);
    assert OpenIds(Launch(s, saver)) == {};
  }

  lemma FilledRefines(s: State, id: Id, length: nat)
    requires s.writer.Some? && id !in s.index && !s.failed && length >= MIN_SEALED
    requires SizeInv(s.target, OpenEntries(s)) && s.writer.value.packId !in s.flights
    ensures var t := Filled(s, id, length);
            Summary(t) == if t.packed == s.packed then Summary(s) else Save(Summary(s), id)
  {
    FullPackFits(OpenEntries(s), Entry(id, length));
    var u := Pushed(s, id, length);
    PushedRefines(s, id, length);
    LaunchRefines(u, Some(id));
    SameSummary(u, Return(u, id));
    assert u.packed != s.packed;
  }

  lemma PlaceRefines(s: State, id: Id, length: nat, newId: Id)
    requires Enabled(s, Place(id, length, newId)) && newId !in s.flights
    requires SizeInv(s.target, OpenEntries(s)) && (s.writer.Some? ==> s.writer.value.packId !in s.flights)
    ensures Summary(Placed(s, id, length, newId)) == Visible(s, Place(id, length, newId))
  {
    var o := Opened(s, newId);
    SameSummary(s, o);
    SameSummary(s, Return(s, id));
    if !s.failed && id !in s.index {
      FilledRefines(o, id, length);
    }
  }

  lemma PutRefines(s: State, pk: Id, ok: bool)
    requires InStage(s, pk, Sent) && pk !in Unlisted(s)
    ensures Summary(UploadEnded(s, pk, ok)) == Visible(s, Put(pk, ok))
  {
    assert Unlisted(UploadEnded(s, pk, ok)) == Unlisted(s);
  }

  lemma IndexPackRefines(s: State, pk: Id)
    requires InStage(s, pk, Stored) && pk in s.stored && s.stored[pk] == s.flights[pk].entries
    ensures Summary(Recorded(s, pk)) == Visible(s, IndexPack(pk))
  {
    assert Unlisted(Recorded(s, pk)) == Unlisted(s) + {pk};
  }

  lemma LandRefines(s: State, pk: Id)
    requires InStage(s, pk, Indexed) && IdsOf(s.flights[pk].entries) <= s.index
    requires CoordPacks(s.coord) == map[] || s.coord != Finishing(pk)
    ensures Summary(Landed(s, pk)) == Summary(s)
  {
    assert Unlisted(Landed(s, pk)) == Unlisted(s);
    SameSummary(s, Landed(s, pk));
  }

  lemma FlushSaveRefines(s: State, ok: bool)
    requires s.coord.Saving? && s.coord.packs.Keys !! s.newPacks.Keys && s.coord.packs.Keys !! s.flights.Keys
    ensures Summary(FlushSaved(s, ok)) == Visible(s, FlushSave(ok))
  {
    var t := FlushSaved(s, ok);
    assert Unlisted(t) == Unlisted(s) - s.coord.packs.Keys;
    RestrictWithout(s.stored, Unlisted(s), s.coord.packs.Keys);
  }

  lemma RestrictWithout(packs: map<Id, seq<Entry>>, ids: set<Id>, gone: set<Id>)
    ensures Restrict(packs, ids - gone) == Restrict(packs, ids) - gone
  {
  }

  lemma FlushOpenRefines(s: State)
    requires s.coord.Opening? && Fits(OpenEntries(s)) && (s.writer.Some? ==> s.writer.value.packId !in s.flights)
    ensures Summary(FlushOpened(s)) == Summary(s)
  {
    if OpenEntries(s) != [] {
      LaunchRefines(s, None);
      SameSummary(Launch(s, None), FlushOpened(s));
    } else {
      SameSummary(s, FlushOpened(s));
    }
  }

  lemma AdoptRefines(s: State, pk: Id, entries: seq<Entry>)
    requires Enabled(s, AdoptIndex(pk, entries)) && OpenIds(s) == {} && s.inflight == {} && pk !in Unlisted(s)
    ensures Summary(Adopted(s, pk, entries)) == Visible(s, AdoptIndex(pk, entries))
  {
    assert Unlisted(Adopted(s, pk, entries)) == Unlisted(s) + {pk};
  }

  /** What the invariants say about the section's pack, as the lemmas above need it. */
  lemma PackFacts(s: State, e: Event)
    requires Inv(s) && Enabled(s, e)
    ensures e.Put? ==> e.packId !in Unlisted(s)
    ensures e.IndexPack? ==> e.packId in s.stored && s.stored[e.packId] == s.flights[e.packId].entries
    ensures e.Land? ==> IdsOf(s.flights[e.packId].entries) <= s.index
    ensures e.AdoptIndex? ==> OpenIds(s) == {} && s.inflight == {} && e.packId !in Unlisted(s)
    ensures e.FlushOpen? ==> Fits(OpenEntries(s))
  {
    if e.Land? {
      assert forall id :: id in IdsOf(s.flights[e.packId].entries) ==> FlightHas(s.flights, e.packId, id);
    } else if e.FlushOpen? {
      FitsAlone(OpenEntries(s));
    }
  }

  lemma CoordRefines(s: State, t: State)
    requires t == s.(coord := t.coord, newPacks := t.newPacks, returned := t.returned, published := t.published)
    requires t.newPacks.Keys + CoordPacks(t.coord).Keys == s.newPacks.Keys + CoordPacks(s.coord).Keys
    ensures Summary(t) == Summary(s)
  {
    SameSummary(s, t);
  }

  lemma QuietRefines(s: State, e: Event)
    requires Enabled(s, e)
    requires e.CheckIndex? || e.CheckPending? || e.FlushStart? || e.SnapStart?
    ensures Summary(Next(s, e)) == Summary(s)
  {
    match e
    case CheckIndex(id) => CoordRefines(s, Return(s, id));
    case CheckPending(id) => CoordRefines(s, Checked(s, id));
    case FlushStart => CoordRefines(s, s.(coord := Opening));
    case SnapStart => CoordRefines(s, s.(coord := Publishing));
    case _ =>
  }

  lemma AdoptPushRefines(s: State)
    requires s.coord.Adopting?
    ensures Summary(AdoptedPushed(s)) == Summary(s)
  {
    CoordRefines(s, AdoptedPushed(s));
  }

  lemma FlushTakeRefines(s: State)
    requires s.coord.Draining?
    ensures Summary(FlushTaken(s)) == Summary(s)
  {
    CoordRefines(s, FlushTaken(s));
  }

  lemma SnapCheckRefines(s: State)
    requires s.coord.Publishing?
    ensures Summary(SnapChecked(s)) == Summary(s)
  {
    CoordRefines(s, SnapChecked(s));
  }

  /** Every section is one of the summary's moves or none. */
  lemma Refines(s: State, e: Event)
    requires Inv(s) && Enabled(s, e)
    ensures Summary(Next(s, e)) == Visible(s, e)
  {
    PackFacts(s, e);
    match e
    case Place(id, length, newId) => PlaceRefines(s, id, length, newId);
    case Put(pk, ok) => PutRefines(s, pk, ok);
    case IndexPack(pk) => IndexPackRefines(s, pk);
    case Land(pk) => LandRefines(s, pk);
    case AdoptIndex(pk, entries) => AdoptRefines(s, pk, entries);
    case FlushOpen => FlushOpenRefines(s);
    case FlushSave(ok) => FlushSaveRefines(s, ok);
    case AdoptPush => AdoptPushRefines(s);
    case FlushTake => FlushTakeRefines(s);
    case SnapCheck => SnapCheckRefines(s);
    case _ => QuietRefines(s, e);
  }

  /** What `BackupProtocol` asks of the summary before it makes the section's move: a pack that
      goes up or is taken in holds pending blobs, an index object covers packs not listed yet,
      and a snapshot is published with nothing pending or unlisted and no failure. */
  ghost predicate Allowed(s: State, e: Event)
    requires Enabled(s, e)
  {
    var w := Summary(s);
    match e
    case Place(id, length, newId) => Placed(s, id, length, newId).packed != s.packed ==> !Refuses(w, id)
    case Put(pk, _) => pk !in s.stored && IdsOf(s.flights[pk].entries) <= w.pending
    case IndexPack(pk) => pk in s.stored && s.stored[pk] == s.flights[pk].entries
        && IdsOf(s.flights[pk].entries) <= w.pending
    case FlushSave(_) => s.coord.packs.Keys <= w.newPacks.Keys
        && Restrict(w.newPacks, s.coord.packs.Keys) == s.coord.packs
    case SnapCheck => !Unflushed(s) ==> !w.failed && w.pending == {} && w.newPacks == map[]
    case _ => true
  }

  lemma FlightIsPending(s: State, pk: Id)
    requires Inv(s) && pk in s.flights && s.flights[pk].stage != Indexed
    ensures IdsOf(s.flights[pk].entries) <= Summary(s).pending
  {
    assert forall id :: id in IdsOf(s.flights[pk].entries) ==> FlightHas(s.flights, pk, id);
  }

  lemma SavingIsUnlisted(s: State)
    requires Inv(s) && s.coord.Saving?
    ensures s.coord.packs.Keys <= Summary(s).newPacks.Keys
    ensures Restrict(Summary(s).newPacks, s.coord.packs.Keys) == s.coord.packs
  {
    assert CoordPacks(s.coord) == s.coord.packs;
  }

  lemma FlushedIsClear(s: State)
    requires Inv(s) && s.coord.Publishing? && !Unflushed(s)
    ensures !s.failed && Summary(s).pending == {} && Summary(s).newPacks == map[]
  {
    if s.failed { LostBlobsBlock(s); }
    forall pk | pk in s.flights ensures false {
      var e := s.flights[pk].entries[0];
      assert e in s.flights[pk].entries && FlightHas(s.flights, pk, e.id);
    }
    assert Indexing(s.flights) == {} && Unlisted(s) == {};
  }

  /** The move `Refines` has for a section is open to the summary. `WriterRun` makes runs of both. */
  lemma MovesAreAllowed(s: State, e: Event)
    requires Inv(s) && Enabled(s, e)
    ensures Allowed(s, e)
  {
    match e
    case Put(pk, _) => FlightIsPending(s, pk);
    case IndexPack(pk) => FlightIsPending(s, pk);
    case FlushSave(_) => SavingIsUnlisted(s);
    case SnapCheck => if !Unflushed(s) { FlushedIsClear(s); }
    case _ =>
  }
}
