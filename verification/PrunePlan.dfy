/** `prune_locked` up to its sweep. */
module PrunePlan {
  // `prune_locked` up to its sweep: it reads the bucket under the exclusive lock, marks what
  // the remaining snapshots need, gives every stored pack a verdict, copies the needed blobs
  // of the packs to be rewritten, and lays out the sweep. On a consistent bucket the plan
  // never fails and is `Justified`, so every prefix of its sweep is safe.

  import opened Blobs
  import opened Index
  import opened Options
  import opened Store
  import opened Sweep
  import opened Prune

  /** Seconds a pack that no index lists is left for the next backup to adopt. */
  const ORPHAN_GRACE: nat := 7 * 24 * 3600
  /** Bytes a rewritten pack aims for. */
  const TARGET_SIZE: nat := 16 * 1024 * 1024

  datatype Error =
    | SnapshotNotFound(snap: Id)
    | Unmarkable(cause: MarkError)
    | NotIndexed(blob: Id)
    | Corrupt(packId: Id, blob: Id)

  datatype Result = Planned(plan: Plan) | Rejected(error: Error)

  /** What is done with a stored pack. */
  datatype Verdict =
    | LeaveOrphan
    | Doom
    | Rewrite(needed: seq<Entry>)
    | Keep(entries: seq<Entry>)

  function Bytes(entries: seq<Entry>): nat
  {
    if entries == [] then 0 else entries[0].length + Bytes(entries[1..])
  }

  /** The entries whose blob is (or is not) in `ids`, in order. */
  function Filter(entries: seq<Entry>, ids: set<Id>, wanted: bool): (r: seq<Entry>)
    ensures forall e :: e in r <==> e in entries && (e.id in ids <==> wanted)
  {
    if entries == [] then []
    else (if (entries[0].id in ids) == wanted then [entries[0]] else []) + Filter(entries[1..], ids, wanted)
  }

  predicate Recent(written: Option<nat>, now: nat)
  {
    written.None? || written.value > now || now - written.value < ORPHAN_GRACE
  }

  /** `entries` are the blobs whose indexed location is in the pack, if any index lists it. */
  function Judge(pack: Pack, entries: Option<seq<Entry>>, referenced: set<Id>, now: nat): Verdict
  {
    match entries
    case None => if Recent(pack.written, now) then LeaveOrphan else Doom
    case Some(all) =>
      var needed, unneeded := Filter(all, referenced, true), Filter(all, referenced, false);
      if needed == [] then Doom
      // rewritten once a fifth of it is unneeded
      else if 5 * Bytes(unneeded) >= pack.size then Rewrite(needed)
      else Keep(needed + unneeded)
  }

  ghost predicate Distinct(entries: seq<Entry>)
  {
    forall i, j :: 0 <= i < j < |entries| ==> entries[i].id != entries[j].id
  }

  /** Every merged location of `ids` appears under its pack, once, and nothing else does. */
  ghost predicate Grouped(blobs: map<Id, Location>, ids: set<Id>, byPack: map<Id, seq<Entry>>)
  {
    && (forall id :: id in ids && id in blobs ==>
                       blobs[id].packId in byPack && blobs[id].entry in byPack[blobs[id].packId])
    && (forall pk, e :: pk in byPack && e in byPack[pk] ==>
                          e.id in ids && e.id in blobs && blobs[e.id] == Location(pk, e))
    && (forall pk :: pk in byPack ==> byPack[pk] != [] && Distinct(byPack[pk]))
  }

  ghost predicate SelfNamed(blobs: map<Id, Location>)
  {
    forall id :: id in blobs ==> blobs[id].entry.id == id
  }

  function Filed(byPack: map<Id, seq<Entry>>, at: Location): map<Id, seq<Entry>>
  {
    byPack[at.packId := (if at.packId in byPack then byPack[at.packId] else []) + [at.entry]]
  }

  lemma FiledOneMore(blobs: map<Id, Location>, ids: set<Id>, byPack: map<Id, seq<Entry>>, id: Id)
    requires Grouped(blobs, ids, byPack) && SelfNamed(blobs) && id in blobs && id !in ids
    ensures Grouped(blobs, ids + {id}, Filed(byPack, blobs[id]))
  {
    var at := blobs[id];
    var more := Filed(byPack, at);
    var was := if at.packId in byPack then byPack[at.packId] else [];
    assert more[at.packId] == was + [at.entry];
    forall pk: Id, e: Entry | pk in more && e in more[pk]
      ensures e.id in ids + {id} && e.id in blobs && blobs[e.id] == Location(pk, e) {
      if pk in byPack && e in byPack[pk] { assert e.id in ids; }
    }
    forall i, j | 0 <= i < j < |more[at.packId]| ensures more[at.packId][i].id != more[at.packId][j].id {
      assert was[i] in was;
      if j < |was| { assert was == byPack[at.packId]; }
    }
  }

  method GroupByPack(blobs: map<Id, Location>) returns (byPack: map<Id, seq<Entry>>)
    requires SelfNamed(blobs)
    ensures Grouped(blobs, blobs.Keys, byPack)
  {
    byPack := map[];
    var todo := blobs.Keys;
    while todo != {}
      invariant todo <= blobs.Keys
      invariant Grouped(blobs, blobs.Keys - todo, byPack)
      decreases todo
    {
      var id :| id in todo;
      FiledOneMore(blobs, blobs.Keys - todo, byPack, id);
      byPack := Filed(byPack, blobs[id]);
      assert blobs.Keys - (todo - {id}) == blobs.Keys - todo + {id};
      todo := todo - {id};
    }
  }

  function VerdictOf(b: Bucket, byPack: map<Id, seq<Entry>>, referenced: set<Id>, now: nat, pk: Id): Verdict
    requires pk in b.packs
  {
    Judge(b.packs[pk], if pk in byPack then Some(byPack[pk]) else None, referenced, now)
  }

  method Enumerate(ids: set<Id>) returns (listing: seq<Id>)
    ensures forall id :: id in listing <==> id in ids
  {
    listing := [];
    var todo := ids;
    while todo != {}
      invariant todo <= ids
      invariant forall id :: id in listing <==> id in ids && id !in todo
      decreases todo
    {
      var id :| id in todo;
      listing := listing + [id];
      todo := todo - {id};
    }
  }

  /** The three lists the classification loop fills, for the packs of `stored`. */
  ghost predicate Sorted(b: Bucket, byPack: map<Id, seq<Entry>>, referenced: set<Id>, now: nat, stored: seq<Id>,
                         doomed: seq<Id>, kept: seq<PackEntries>, repack: seq<PackEntries>)
  {
    && (forall pk :: pk in stored ==> pk in b.packs)
    && (forall pk :: pk in doomed <==> pk in stored && VerdictOf(b, byPack, referenced, now, pk) == Doom)
    && (forall p :: p in kept <==>
          p.packId in stored && VerdictOf(b, byPack, referenced, now, p.packId) == Keep(p.entries))
    && (forall p :: p in repack <==>
          p.packId in stored && VerdictOf(b, byPack, referenced, now, p.packId) == Rewrite(p.entries))
  }

  method Classify(b: Bucket, byPack: map<Id, seq<Entry>>, referenced: set<Id>, now: nat, stored: seq<Id>)
    returns (doomed: seq<Id>, kept: seq<PackEntries>, repack: seq<PackEntries>)
    requires forall pk :: pk in stored ==> pk in b.packs
    ensures Sorted(b, byPack, referenced, now, stored, doomed, kept, repack)
  {
    doomed, kept, repack := [], [], [];
    for i := 0 to |stored|
      invariant Sorted(b, byPack, referenced, now, stored[..i], doomed, kept, repack)
    {
      var pk := stored[i];
      assert stored[..i + 1] == stored[..i] + [pk];
      match VerdictOf(b, byPack, referenced, now, pk)
      case LeaveOrphan =>
      case Doom => doomed := doomed + [pk];
      case Rewrite(needed) => repack := repack + [PackEntries(pk, needed)];
      case Keep(entries) => kept := kept + [PackEntries(pk, entries)];
    }
    assert stored[..|stored|] == stored;
  }

  function Concat(groups: seq<seq<Entry>>): seq<Entry>
  {
    if groups == [] then [] else Concat(groups[..|groups| - 1]) + groups[|groups| - 1]
  }

  /** The pack was under the target before its last blob. */
  predicate JustOver(group: seq<Entry>)
    requires group != []
  {
    Bytes(group[..|group| - 1]) < TARGET_SIZE
  }

  /** The first `i` needed blobs are checked and packed, the last of them in the open writer. */
  ghost predicate Copying(b: Bucket, packId: Id, needed: seq<Entry>, i: nat, groups: seq<seq<Entry>>,
                          writer: seq<Entry>)
    requires i <= |needed|
  {
    && Concat(groups) + writer == needed[..i]
    && (forall k :: 0 <= k < i ==> PackHolds(b, packId, needed[k].id))
    && (forall j :: 0 <= j < |groups| ==> groups[j] != [] && Bytes(groups[j]) >= TARGET_SIZE && JustOver(groups[j]))
  }

  lemma CopyOne(b: Bucket, packId: Id, needed: seq<Entry>, i: nat, groups: seq<seq<Entry>>, writer: seq<Entry>)
    requires i < |needed| && Copying(b, packId, needed, i, groups, writer) && PackHolds(b, packId, needed[i].id)
    ensures Copying(b, packId, needed, i + 1, groups, writer + [needed[i]])
  {
    assert needed[..i + 1] == needed[..i] + [needed[i]];
  }

  lemma CloseGroup(b: Bucket, packId: Id, needed: seq<Entry>, i: nat, groups: seq<seq<Entry>>, writer: seq<Entry>)
    requires i <= |needed| && Copying(b, packId, needed, i, groups, writer) && writer != []
             && Bytes(writer) >= TARGET_SIZE && JustOver(writer)
    ensures Copying(b, packId, needed, i, groups + [writer], [])
  {
    ConcatAppend(groups, writer);
    assert Concat(groups) + writer + [] == Concat(groups) + writer;
  }

  lemma PushedJustOver(writer: seq<Entry>, e: Entry)
    requires Bytes(writer) < TARGET_SIZE
    ensures JustOver(writer + [e])
  {
    assert (writer + [e])[..|writer + [e]| - 1] == writer;
  }

  /** One blob more, and a new pack once the open one is full. */
  lemma CopyStep(b: Bucket, packId: Id, needed: seq<Entry>, i: nat, groups: seq<seq<Entry>>, writer: seq<Entry>)
    requires i < |needed| && Copying(b, packId, needed, i, groups, writer) && PackHolds(b, packId, needed[i].id)
    requires Bytes(writer) < TARGET_SIZE
    ensures var more := writer + [needed[i]];
            && Bytes(more) == Bytes(writer) + needed[i].length
            && if Bytes(more) >= TARGET_SIZE then Copying(b, packId, needed, i + 1, groups + [more], [])
               else Copying(b, packId, needed, i + 1, groups, more)
  {
    var more := writer + [needed[i]];
    BytesAppend(writer, needed[i]);
    CopyOne(b, packId, needed, i, groups, writer);
    PushedJustOver(writer, needed[i]);
    if Bytes(more) >= TARGET_SIZE { CloseGroup(b, packId, needed, i + 1, groups, more); }
  }

  /** The needed blobs in order, in packs of 16 MiB or just over, the last one excepted. */
  ghost predicate Split(needed: seq<Entry>, groups: seq<seq<Entry>>)
  {
    && Concat(groups) == needed
    && forall i :: 0 <= i < |groups| ==>
         && groups[i] != [] && Bytes(groups[i][..|groups[i]| - 1]) < 16 * 1024 * 1024
         && (i < |groups| - 1 ==> Bytes(groups[i]) >= 16 * 1024 * 1024)
  }

  lemma LastGroup(b: Bucket, packId: Id, needed: seq<Entry>, groups: seq<seq<Entry>>, writer: seq<Entry>)
    requires Copying(b, packId, needed, |needed|, groups, writer) && Bytes(writer) < TARGET_SIZE
    ensures Split(needed, if writer == [] then groups else groups + [writer])
    ensures forall e :: e in needed ==> PackHolds(b, packId, e.id)
  {
    assert needed[..|needed|] == needed;
    if writer == [] {
      assert Concat(groups) + [] == Concat(groups);
    } else {
      var all := groups + [writer];
      ConcatAppend(groups, writer);
      BytesWithoutLast(writer);
      forall i | 0 <= i < |all| ensures all[i] != [] && JustOver(all[i]) && (i < |all| - 1 ==> all[i] == groups[i]) {
        assert i < |groups| ==> all[i] == groups[i] && JustOver(groups[i]);
      }
    }
  }

  lemma BytesWithoutLast(group: seq<Entry>)
    requires group != []
    ensures Bytes(group[..|group| - 1]) <= Bytes(group)
  {
    assert group == group[..|group| - 1] + [group[|group| - 1]];
    BytesAppend(group[..|group| - 1], group[|group| - 1]);
  }

  /** `copy_needed`: the needed blobs of one pack, split into new packs of TARGET_SIZE or
      just over, the last one excepted. Each blob is checked before it is copied. */
  method CopyNeeded(b: Bucket, packId: Id, needed: seq<Entry>) returns (bad: Option<Entry>, groups: seq<seq<Entry>>)
    ensures bad.None? ==> Split(needed, groups) && forall e :: e in needed ==> PackHolds(b, packId, e.id)
    ensures bad.Some? ==> bad.value in needed && !PackHolds(b, packId, bad.value.id)
  {
    groups := [];
    var writer: seq<Entry>, size := [], 0;
    for i := 0 to |needed|
      invariant Copying(b, packId, needed, i, groups, writer) && size == Bytes(writer) < TARGET_SIZE
    {
      if !PackHolds(b, packId, needed[i].id) {
        return Some(needed[i]), [];
      }
      CopyStep(b, packId, needed, i, groups, writer);
      writer, size := writer + [needed[i]], size + needed[i].length;
      if size >= TARGET_SIZE {
        groups, writer, size := groups + [writer], [], 0;
      }
    }
    LastGroup(b, packId, needed, groups, writer);
    if writer != [] {
      groups := groups + [writer];
    }
    bad := None;
  }

  lemma {:induction false} ConcatAppend(groups: seq<seq<Entry>>, last: seq<Entry>)
    ensures Concat(groups + [last]) == Concat(groups) + last
  {
    assert (groups + [last])[..|groups|] == groups;
  }

  lemma {:induction false} BytesAppend(entries: seq<Entry>, e: Entry)
    ensures Bytes(entries + [e]) == Bytes(entries) + e.length
  {
    if entries != [] {
      BytesAppend(entries[1..], e);
      assert (entries + [e])[1..] == entries[1..] + [e];
    }
  }

  /** The packs written for `copied` get the IDs from `first` on, in order. */
  ghost predicate Written(newPacks: seq<(Id, Pack)>, copied: seq<PackEntries>, first: Id)
  {
    && |newPacks| == |copied|
    && forall i :: 0 <= i < |newPacks| ==>
                     && newPacks[i].0 == first + i
                     && copied[i] == PackEntries(newPacks[i].0, newPacks[i].1.entries)
  }

  lemma {:induction false} ListedOneMore(groups: seq<seq<Entry>>, i: nat, listing: seq<PackEntries>, next: Id)
    requires i < |groups| && forall e :: e in Concat(groups[..i]) ==> ListsId(listing, e.id)
    ensures forall e :: e in Concat(groups[..i + 1]) ==> ListsId(listing + [PackEntries(next, groups[i])], e.id)
  {
    var more := listing + [PackEntries(next, groups[i])];
    assert more[|listing|] == PackEntries(next, groups[i]);
    assert groups[..i + 1][..i] == groups[..i];
    forall e | e in Concat(groups[..i + 1]) ensures ListsId(more, e.id) {
      if e in groups[i] {
        assert HasId(PackEntries(next, groups[i]).entries, e.id);
      } else {
        assert e in Concat(groups[..i]);
        var p :| p in listing && HasId(p.entries, e.id);
        assert p in more;
      }
    }
  }

  /** A new pack has the entry. */
  ghost predicate PackedIn(packs: seq<(Id, Pack)>, e: Entry)
  {
    exists p :: p in packs && e in p.1.entries
  }

  /** A pack to be rewritten has the entry among those to be copied. */
  ghost predicate ToCopy(repack: seq<PackEntries>, e: Entry)
  {
    exists p :: p in repack && e in p.entries
  }

  lemma PackedOneMore(packs: seq<(Id, Pack)>, p: (Id, Pack), e: Entry)
    ensures PackedIn(packs + [p], e) <==> PackedIn(packs, e) || e in p.1.entries
  {
    assert forall q :: q in packs + [p] <==> q in packs || q == p;
  }

  lemma ToCopyOneMore(repack: seq<PackEntries>, p: PackEntries, e: Entry)
    ensures ToCopy(repack + [p], e) <==> ToCopy(repack, e) || e in p.entries
  {
    assert forall q :: q in repack + [p] <==> q in repack || q == p;
  }

  lemma InOneMore(groups: seq<seq<Entry>>, i: nat, e: Entry)
    requires i < |groups|
    ensures e in Concat(groups[..i + 1]) <==> e in Concat(groups[..i]) || e in groups[i]
  {
    assert groups[..i + 1][..i] == groups[..i];
  }

  /** Uploads one new pack per group. Random pack IDs are modelled by counting up from
      `first`, above every ID in use. */
  method WriteGroups(groups: seq<seq<Entry>>, newPacks: seq<(Id, Pack)>, copied: seq<PackEntries>, ghost first: Id,
                     next: Id, now: nat)
    returns (packs: seq<(Id, Pack)>, listing: seq<PackEntries>, next': Id)
    requires Written(newPacks, copied, first) && next == first + |newPacks|
    ensures Written(packs, listing, first) && next' == first + |packs|
    ensures forall p :: p in copied ==> p in listing
    ensures forall e :: e in Concat(groups) ==> ListsId(listing, e.id)
    ensures forall e :: PackedIn(packs, e) <==> PackedIn(newPacks, e) || e in Concat(groups)
  {
    packs, listing, next' := newPacks, copied, next;
    for i := 0 to |groups|
      invariant Written(packs, listing, first) && next' == first + |packs|
      invariant forall p :: p in copied ==> p in listing
      invariant forall e :: e in Concat(groups[..i]) ==> ListsId(listing, e.id)
      invariant forall e :: PackedIn(packs, e) <==> PackedIn(newPacks, e) || e in Concat(groups[..i])
    {
      ListedOneMore(groups, i, listing, next');
      forall e ensures PackedIn(packs + [(next', Pack(Bytes(groups[i]), groups[i], Some(now)))], e) <==>
                         PackedIn(newPacks, e) || e in Concat(groups[..i + 1]) {
        PackedOneMore(packs, (next', Pack(Bytes(groups[i]), groups[i], Some(now))), e);
        InOneMore(groups, i, e);
      }
      packs := packs + [(next', Pack(Bytes(groups[i]), groups[i], Some(now)))];
      listing := listing + [PackEntries(next', groups[i])];
      next' := next' + 1;
    }
    assert groups[..|groups|] == groups;
  }

  /** Copies out of every pack to be rewritten. */
  method RewriteAll(b: Bucket, repack: seq<PackEntries>, first: Id, now: nat)
    returns (error: Option<Error>, newPacks: seq<(Id, Pack)>, copied: seq<PackEntries>)
    ensures error.Some? ==>
              error.value.Corrupt? && exists p, e :: p in repack && e in p.entries && !PackHolds(b, p.packId, e.id)
    ensures error.None? ==> Written(newPacks, copied, first)
    ensures error.None? ==> forall p, e :: p in repack && e in p.entries ==> ListsId(copied, e.id)
    ensures error.None? ==> forall e :: PackedIn(newPacks, e) <==> ToCopy(repack, e)
    ensures repack == [] ==> error.None? && newPacks == [] && copied == []
  {
    newPacks, copied := [], [];
    var next := first;
    for i := 0 to |repack|
      invariant Written(newPacks, copied, first) && next == first + |newPacks|
      invariant forall p, e :: p in repack[..i] && e in p.entries ==> ListsId(copied, e.id)
      invariant forall e :: PackedIn(newPacks, e) <==> ToCopy(repack[..i], e)
      invariant i == 0 ==> newPacks == [] && copied == []
    {
      var bad, groups := CopyNeeded(b, repack[i].packId, repack[i].entries);
      if bad.Some? {
        assert repack[i] in repack;
        return Some(Corrupt(repack[i].packId, bad.value.id)), [], [];
      }
      ghost var before := copied;
      newPacks, copied, next := WriteGroups(groups, newPacks, copied, first, next, now);
      assert repack[..i + 1] == repack[..i] + [repack[i]];
      ListsMore(before, copied);
      forall e ensures PackedIn(newPacks, e) <==> ToCopy(repack[..i + 1], e) {
        ToCopyOneMore(repack[..i], repack[i], e);
      }
    }
    assert repack[..|repack|] == repack;
    error := None;
  }

  lemma ListsMore(a: seq<PackEntries>, b: seq<PackEntries>)
    requires forall p :: p in a ==> p in b
    ensures forall id :: ListsId(a, id) ==> ListsId(b, id)
  {
  }

  /** IDs at or above `next` are unused. */
  predicate Unused(b: Bucket, next: Id)
  {
    (forall pk :: pk in b.packs ==> pk < next) && (forall ix :: ix in b.indexes ==> ix < next)
  }

  /** Where the merged view says a blob is, on a consistent bucket. */
  ghost predicate ViewOf(b: Bucket, blobs: map<Id, Location>)
  {
    && SelfNamed(blobs)
    && (forall id :: id in blobs ==> exists ix :: Lists(b, ix, blobs[id].packId, id))
    && (forall id :: Covered(b, id) ==> id in blobs)
  }

  lemma {:induction false} LoadedView(b: Bucket, order: seq<Id>)
    requires forall ix :: ix in order <==> ix in b.indexes
    ensures ViewOf(b, Merge(Flatten(b.indexes, order)))
  {
    var all := Flatten(b.indexes, order);
    FlattenSpec(b.indexes, order);
    MergeSpec(all);
    forall id | id in Merge(all) ensures exists ix :: Lists(b, ix, Merge(all)[id].packId, id) {
      var at := Merge(all)[id];
      var p :| p in all && p.packId == at.packId && at.entry in p.entries && at.entry.id == id;
      var ix :| ix in order && p in b.indexes[ix];
      assert HasId(p.entries, id);
      assert Lists(b, ix, at.packId, id);
    }
    forall id | Covered(b, id) ensures id in Merge(all) {
      var ix, pk :| Lists(b, ix, pk, id);
      var p :| p in b.indexes[ix] && p.packId == pk && HasId(p.entries, id);
      assert p in all;
    }
  }

  /** On a consistent bucket marking a remaining snapshot cannot fail. */
  lemma NeverBlocked(g: Forest, b: Bucket, blobs: map<Id, Location>, s: Id)
    requires Consistent(g, b) && ViewOf(b, blobs) && s in b.snaps
    ensures !Blocked(g, b, blobs, b.snaps[s])
    ensures forall id :: Needs(g, b.snaps[s], id) ==> id in blobs
  {
    var root := b.snaps[s];
    forall t | ReachesTree(g, root, t) ensures t in blobs && Readable(g, b, blobs[t], t) {
      assert Needs(g, root, t);
      assert Covered(b, t);
    }
  }

  /** The roots of the snapshots that stay. */
  ghost predicate RemainingRoots(b: Bucket, forget: seq<Id>, roots: seq<Id>)
  {
    && (forall s :: s in b.snaps && s !in forget ==> b.snaps[s] in roots)
    && (forall r :: r in roots ==> exists s :: s in b.snaps && s !in forget && b.snaps[s] == r)
  }

  /** A blob that an entry of `byPack` names is really in that pack. */
  lemma GroupedIsTrue(b: Bucket, blobs: map<Id, Location>, byPack: map<Id, seq<Entry>>, pk: Id, e: Entry)
    requires Grouped(blobs, blobs.Keys, byPack) && ViewOf(b, blobs) && Sound(b)
    requires pk in byPack && e in byPack[pk]
    ensures PackHolds(b, pk, e.id)
  {
    assert blobs[e.id] == Location(pk, e);
    var ix :| Lists(b, ix, blobs[e.id].packId, e.id);
  }

  /** A verdict only ever speaks of entries indexed in that pack. */
  lemma VerdictEntries(b: Bucket, byPack: map<Id, seq<Entry>>, referenced: set<Id>, now: nat, pk: Id)
    requires pk in b.packs
    ensures match VerdictOf(b, byPack, referenced, now, pk)
            case Rewrite(es) => pk in byPack && (forall e :: e in es ==> e in byPack[pk])
                                && (forall e :: e in byPack[pk] && e.id in referenced ==> e in es)
            case Keep(es) => pk in byPack && (forall e :: e in es <==> e in byPack[pk])
            case Doom => pk !in byPack || forall e :: e in byPack[pk] ==> e.id !in referenced
            case LeaveOrphan => pk !in byPack
  {
  }

  /** A referenced blob's pack is kept or rewritten, and listed there. */
  lemma ReferencedSurvives(b: Bucket, blobs: map<Id, Location>, byPack: map<Id, seq<Entry>>, referenced: set<Id>,
                           now: nat, stored: seq<Id>, doomed: seq<Id>, kept: seq<PackEntries>,
                           repack: seq<PackEntries>, id: Id)
    requires Grouped(blobs, blobs.Keys, byPack) && Sorted(b, byPack, referenced, now, stored, doomed, kept, repack)
    requires forall pk :: pk in b.packs ==> pk in stored
    requires ViewOf(b, blobs) && Sound(b) && id in referenced && id in blobs
    ensures ListsId(kept, id) || exists p, e :: p in repack && e in p.entries && e.id == id
  {
    var at := blobs[id];
    assert at.entry in byPack[at.packId] && at.entry.id == id;
    assert at.packId in stored by { GroupedIsTrue(b, blobs, byPack, at.packId, at.entry); }
    EntrySurvives(b, byPack, referenced, now, stored, doomed, kept, repack, at.packId, at.entry);
  }

  lemma EntrySurvives(b: Bucket, byPack: map<Id, seq<Entry>>, referenced: set<Id>, now: nat, stored: seq<Id>,
                      doomed: seq<Id>, kept: seq<PackEntries>, repack: seq<PackEntries>, pk: Id, e: Entry)
    requires Sorted(b, byPack, referenced, now, stored, doomed, kept, repack)
    requires pk in stored && pk in byPack && e in byPack[pk] && e.id in referenced
    ensures ListsId(kept, e.id) || exists p, x :: p in repack && x in p.entries && x.id == e.id
  {
    VerdictEntries(b, byPack, referenced, now, pk);
    match VerdictOf(b, byPack, referenced, now, pk)
    case Rewrite(needed) =>
      assert PackEntries(pk, needed) in repack;
    case Keep(entries) =>
      assert HasId(entries, e.id);
      assert PackEntries(pk, entries) in kept;
    case Doom =>
    case LeaveOrphan =>
  }

  /** What is kept is listed truthfully, and what is rewritten can be read. */
  lemma ListsAreTrue(b: Bucket, blobs: map<Id, Location>, byPack: map<Id, seq<Entry>>, referenced: set<Id>,
                     now: nat, stored: seq<Id>, doomed: seq<Id>, kept: seq<PackEntries>, repack: seq<PackEntries>)
    requires Grouped(blobs, blobs.Keys, byPack) && Sorted(b, byPack, referenced, now, stored, doomed, kept, repack)
    requires ViewOf(b, blobs) && Sound(b)
    ensures forall p, e :: p in kept && e in p.entries ==> PackHolds(b, p.packId, e.id)
    ensures forall p, e :: p in repack && e in p.entries ==> PackHolds(b, p.packId, e.id)
  {
    forall p, e | (p in kept || p in repack) && e in p.entries ensures PackHolds(b, p.packId, e.id) {
      VerdictEntries(b, byPack, referenced, now, p.packId);
      GroupedIsTrue(b, blobs, byPack, p.packId, e);
    }
  }

  /** Packs kept are neither doomed nor rewritten. */
  lemma ListsAreApart(b: Bucket, byPack: map<Id, seq<Entry>>, referenced: set<Id>, now: nat, stored: seq<Id>,
                      doomed: seq<Id>, kept: seq<PackEntries>, repack: seq<PackEntries>)
    requires Sorted(b, byPack, referenced, now, stored, doomed, kept, repack)
    ensures forall p :: p in kept ==> p.packId !in doomed
    ensures forall p, q :: p in kept && q in repack ==> p.packId != q.packId
  {
    forall p, q | p in kept && q in repack ensures p.packId != q.packId {
      assert VerdictOf(b, byPack, referenced, now, p.packId).Keep?;
      assert VerdictOf(b, byPack, referenced, now, q.packId).Rewrite?;
    }
  }

  function PackIdsOf(packs: seq<PackEntries>): seq<Id>
  {
    seq(|packs|, i requires 0 <= i < |packs| => packs[i].packId)
  }

  /** The sweep `prune_locked` goes on to make. */
  function Layout(forget: seq<Id>, newPacks: seq<(Id, Pack)>, kept: seq<PackEntries>, doomed: seq<Id>,
                  order: seq<Id>, indexId: Id): Plan
  {
    if doomed == [] then Plan(forget, newPacks, None, [], [])
    else Plan(forget, newPacks, if kept == [] then None else Some((indexId, kept)), order, doomed)
  }

  /** What the passes over the bucket have established by the time the sweep is laid out. */
  ghost predicate Surveyed(g: Forest, b: Bucket, forget: seq<Id>, roots: seq<Id>, order: seq<Id>,
                           blobs: map<Id, Location>, byPack: map<Id, seq<Entry>>, referenced: set<Id>,
                           now: nat, stored: seq<Id>, doomed: seq<Id>, kept: seq<PackEntries>,
                           repack: seq<PackEntries>)
  {
    && RemainingRoots(b, forget, roots)
    && (forall ix :: ix in order <==> ix in b.indexes)
    && ViewOf(b, blobs)
    && (forall id :: id in referenced <==> NeededByAny(g, roots, id))
    && Grouped(blobs, blobs.Keys, byPack)
    && (forall pk :: pk in stored <==> pk in b.packs)
    && Sorted(b, byPack, referenced, now, stored, doomed, kept, repack)
  }

  ghost predicate Copied(repack: seq<PackEntries>, newPacks: seq<(Id, Pack)>, copied: seq<PackEntries>, first: Id)
  {
    && Written(newPacks, copied, first)
    && (forall p, e :: p in repack && e in p.entries ==> ListsId(copied, e.id))
    && (repack == [] ==> newPacks == [])
  }

  lemma LayoutCovers(g: Forest, b: Bucket, forget: seq<Id>, roots: seq<Id>, order: seq<Id>,
                     blobs: map<Id, Location>, byPack: map<Id, seq<Entry>>, referenced: set<Id>,
                     now: nat, stored: seq<Id>, doomed: seq<Id>, kept: seq<PackEntries>,
                     repack: seq<PackEntries>, copied: seq<PackEntries>, s: Id, id: Id)
    requires Surveyed(g, b, forget, roots, order, blobs, byPack, referenced, now, stored, doomed, kept, repack)
    requires forall p, e :: p in repack && e in p.entries ==> ListsId(copied, e.id)
    requires Consistent(g, b) && s in b.snaps && s !in forget && Needs(g, b.snaps[s], id)
    ensures ListsId(kept + copied, id)
  {
    NeverBlocked(g, b, blobs, s);
    NeededByRoot(g, roots, b.snaps[s]);
    ReferencedSurvives(b, blobs, byPack, referenced, now, stored, doomed, kept, repack, id);
    ListsMore(kept, kept + copied);
    ListsMore(copied, kept + copied);
  }

  lemma LayoutBacked(b: Bucket, blobs: map<Id, Location>, byPack: map<Id, seq<Entry>>, referenced: set<Id>,
                     now: nat, stored: seq<Id>, doomed: seq<Id>, kept: seq<PackEntries>, repack: seq<PackEntries>,
                     newPacks: seq<(Id, Pack)>, copied: seq<PackEntries>, first: Id, plan: Plan)
    requires Grouped(blobs, blobs.Keys, byPack) && ViewOf(b, blobs) && Sound(b)
    requires Sorted(b, byPack, referenced, now, stored, doomed, kept, repack)
    requires Copied(repack, newPacks, copied, first) && Unused(b, first)
    requires plan.doomed == doomed + PackIdsOf(repack) && plan.newPacks == newPacks
    ensures forall p, e :: p in kept + copied && e in p.entries ==> Backed(b, plan, p.packId, e.id)
  {
    ListsAreTrue(b, blobs, byPack, referenced, now, stored, doomed, kept, repack);
    ListsAreApart(b, byPack, referenced, now, stored, doomed, kept, repack);
    forall p, e | p in kept + copied && e in p.entries ensures Backed(b, plan, p.packId, e.id) {
      if p in kept {
        assert p.packId !in PackIdsOf(repack);
      } else {
        var i :| 0 <= i < |copied| && copied[i] == p;
        assert newPacks[i] in newPacks && HasId(newPacks[i].1.entries, e.id);
      }
    }
  }

  lemma LayoutJustified(g: Forest, b: Bucket, forget: seq<Id>, roots: seq<Id>, order: seq<Id>,
                        blobs: map<Id, Location>, byPack: map<Id, seq<Entry>>, referenced: set<Id>,
                        now: nat, stored: seq<Id>, doomed: seq<Id>, kept: seq<PackEntries>,
                        repack: seq<PackEntries>, newPacks: seq<(Id, Pack)>, copied: seq<PackEntries>, first: Id)
    requires Surveyed(g, b, forget, roots, order, blobs, byPack, referenced, now, stored, doomed, kept, repack)
    requires Copied(repack, newPacks, copied, first) && Unused(b, first) && Consistent(g, b)
    ensures Justified(g, b,
                Layout(forget, newPacks, kept + copied, doomed + PackIdsOf(repack), order, first + |newPacks|))
  {
    var plan := Layout(forget, newPacks, kept + copied, doomed + PackIdsOf(repack), order, first + |newPacks|);
    if plan.doomed != [] {
      LayoutBacked(b, blobs, byPack, referenced, now, stored, doomed, kept, repack, newPacks, copied, first, plan);
      forall s | s in b.snaps && s !in plan.forget ensures CoveredByNew(g, plan, b.snaps[s]) {
        forall id | Needs(g, b.snaps[s], id) ensures plan.index.Some? && ListsId(plan.index.value.1, id) {
          LayoutCovers(g, b, forget, roots, order, blobs, byPack, referenced, now, stored, doomed, kept, repack,
                  copied, s, id);
        }
      }
      forall pk | pk in plan.doomed ensures pk in b.packs {
        if pk !in doomed {
          var i :| 0 <= i < |repack| && repack[i].packId == pk;
          assert repack[i] in repack;
        }
      }
    }
  }

  // ----- What the new index and the new packs hold -----

  /** Once packs go, every blob the merged view has in a pack that stays is listed there as it
      was, needed or not. */
  ghost predicate RestKept(b: Bucket, blobs: map<Id, Location>, plan: Plan)
  {
    plan.doomed != [] ==>
      forall id :: id in blobs && blobs[id].packId in b.packs && blobs[id].packId !in plan.doomed ==>
                     plan.index.Some? && ListsAt(plan.index.value.1, id, blobs[id])
  }

  /** The new packs hold exactly the needed blobs the merged view has in packs that go. */
  ghost predicate NeededCopied(g: Forest, b: Bucket, roots: seq<Id>, blobs: map<Id, Location>, plan: Plan)
  {
    forall e :: PackedIn(plan.newPacks, e) <==>
                  && NeededByAny(g, roots, e.id) && e.id in blobs && blobs[e.id].entry == e
                  && blobs[e.id].packId in b.packs && blobs[e.id].packId in plan.doomed
  }

  /** The new index lists nothing but those two. */
  ghost predicate NothingElse(blobs: map<Id, Location>, plan: Plan)
  {
    plan.index.Some? ==>
      forall p, e :: p in plan.index.value.1 && e in p.entries ==>
                       || (p.packId !in plan.doomed && e.id in blobs && blobs[e.id] == Location(p.packId, e))
                       || exists n :: n in plan.newPacks && n.0 == p.packId && e in n.1.entries
  }

  ghost predicate Reindexed(g: Forest, b: Bucket, roots: seq<Id>, blobs: map<Id, Location>, plan: Plan)
  {
    RestKept(b, blobs, plan) && NeededCopied(g, b, roots, blobs, plan) && NothingElse(blobs, plan)
  }

  /** What becomes of the pack a blob is in. */
  lemma {:induction false} LocatedIsListed(b: Bucket, blobs: map<Id, Location>, byPack: map<Id, seq<Entry>>,
                                           referenced: set<Id>, now: nat, stored: seq<Id>, doomed: seq<Id>,
                                           kept: seq<PackEntries>, repack: seq<PackEntries>, id: Id)
    requires Grouped(blobs, blobs.Keys, byPack) && SelfNamed(blobs)
    requires Sorted(b, byPack, referenced, now, stored, doomed, kept, repack)
    requires id in blobs && blobs[id].packId in stored
    ensures var pk := blobs[id].packId;
            if pk in doomed + PackIdsOf(repack) then id in referenced ==> ToCopy(repack, blobs[id].entry)
            else ListsAt(kept, id, blobs[id])
  {
    var at := blobs[id];
    assert at.packId in byPack && at.entry in byPack[at.packId];
    RewrittenIffJudged(b, byPack, referenced, now, stored, doomed, kept, repack, at.packId);
    VerdictEntries(b, byPack, referenced, now, at.packId);
    match VerdictOf(b, byPack, referenced, now, at.packId)
    case Rewrite(es) => assert PackEntries(at.packId, es) in repack;
    case Keep(es) => assert PackEntries(at.packId, es) in kept;
    case Doom =>
    case LeaveOrphan =>
  }

  lemma {:induction false} CopiedIsNeeded(b: Bucket, blobs: map<Id, Location>, byPack: map<Id, seq<Entry>>,
                                          referenced: set<Id>, now: nat, stored: seq<Id>, doomed: seq<Id>,
                                          kept: seq<PackEntries>, repack: seq<PackEntries>, e: Entry)
    requires Grouped(blobs, blobs.Keys, byPack)
    requires Sorted(b, byPack, referenced, now, stored, doomed, kept, repack) && ToCopy(repack, e)
    ensures e.id in referenced && e.id in blobs && blobs[e.id].entry == e
    ensures blobs[e.id].packId in stored && blobs[e.id].packId in PackIdsOf(repack)
  {
    var p :| p in repack && e in p.entries;
    RepackVerdict(b, byPack, referenced, now, stored, doomed, kept, repack, p);
    RewritesNeeded(b, byPack, referenced, now, p.packId);
    GroupedAt(blobs, byPack, p.packId, e);
    IsRepacked(repack, p);
  }

  lemma RepackVerdict(b: Bucket, byPack: map<Id, seq<Entry>>, referenced: set<Id>, now: nat, stored: seq<Id>,
                      doomed: seq<Id>, kept: seq<PackEntries>, repack: seq<PackEntries>, p: PackEntries)
    requires Sorted(b, byPack, referenced, now, stored, doomed, kept, repack) && p in repack
    ensures p.packId in stored && p.packId in b.packs
    ensures VerdictOf(b, byPack, referenced, now, p.packId) == Rewrite(p.entries)
  {
  }

  lemma GroupedAt(blobs: map<Id, Location>, byPack: map<Id, seq<Entry>>, pk: Id, e: Entry)
    requires Grouped(blobs, blobs.Keys, byPack) && pk in byPack && e in byPack[pk]
    ensures e.id in blobs && blobs[e.id] == Location(pk, e)
  {
  }

  lemma IsRepacked(repack: seq<PackEntries>, p: PackEntries)
    requires p in repack
    ensures p.packId in PackIdsOf(repack)
  {
    var i :| 0 <= i < |repack| && repack[i] == p;
    assert PackIdsOf(repack)[i] == p.packId;
  }

  lemma RewritesNeeded(b: Bucket, byPack: map<Id, seq<Entry>>, referenced: set<Id>, now: nat, pk: Id)
    requires pk in b.packs && VerdictOf(b, byPack, referenced, now, pk).Rewrite?
    ensures pk in byPack
    ensures forall e :: e in VerdictOf(b, byPack, referenced, now, pk).needed ==> e in byPack[pk] && e.id in referenced
  {
  }

  lemma {:induction false} KeptAreLocated(b: Bucket, blobs: map<Id, Location>, byPack: map<Id, seq<Entry>>,
                                          referenced: set<Id>, now: nat, stored: seq<Id>, doomed: seq<Id>,
                                          kept: seq<PackEntries>, repack: seq<PackEntries>, p: PackEntries, e: Entry)
    requires Grouped(blobs, blobs.Keys, byPack)
    requires Sorted(b, byPack, referenced, now, stored, doomed, kept, repack) && p in kept && e in p.entries
    ensures p.packId !in doomed + PackIdsOf(repack) && e.id in blobs && blobs[e.id] == Location(p.packId, e)
  {
    VerdictEntries(b, byPack, referenced, now, p.packId);
    RewrittenIffJudged(b, byPack, referenced, now, stored, doomed, kept, repack, p.packId);
  }

  /** The plan laid out indexes what stays and copies what is needed. */
  lemma {:induction false} LayoutReindexes(g: Forest, b: Bucket, forget: seq<Id>, roots: seq<Id>, order: seq<Id>,
                                           blobs: map<Id, Location>, byPack: map<Id, seq<Entry>>,
                                           referenced: set<Id>, now: nat, stored: seq<Id>, doomed: seq<Id>,
                                           kept: seq<PackEntries>, repack: seq<PackEntries>,
                                           newPacks: seq<(Id, Pack)>, copied: seq<PackEntries>, first: Id)
    requires Surveyed(g, b, forget, roots, order, blobs, byPack, referenced, now, stored, doomed, kept, repack)
    requires Written(newPacks, copied, first) && forall e :: PackedIn(newPacks, e) <==> ToCopy(repack, e)
    ensures Reindexed(g, b, roots, blobs,
                Layout(forget, newPacks, kept + copied, doomed + PackIdsOf(repack), order, first + |newPacks|))
  {
    var plan := Layout(forget, newPacks, kept + copied, doomed + PackIdsOf(repack), order, first + |newPacks|);
    RestIsKept(b, blobs, byPack, referenced, now, stored, doomed, kept, repack, copied, plan);
    ListedIsReal(b, blobs, byPack, referenced, now, stored, doomed, kept, repack, newPacks, copied, first, plan);
    forall e ensures PackedIn(newPacks, e) <==>
                       && NeededByAny(g, roots, e.id) && e.id in blobs && blobs[e.id].entry == e
                       && blobs[e.id].packId in b.packs && blobs[e.id].packId in plan.doomed {
      if ToCopy(repack, e) {
        CopiedIsNeeded(b, blobs, byPack, referenced, now, stored, doomed, kept, repack, e);
        assert blobs[e.id].packId in doomed + PackIdsOf(repack);
      } else if e.id in blobs && blobs[e.id].packId in b.packs {
        LocatedIsListed(b, blobs, byPack, referenced, now, stored, doomed, kept, repack, e.id);
      }
    }
  }

  lemma {:induction false} RestIsKept(b: Bucket, blobs: map<Id, Location>, byPack: map<Id, seq<Entry>>,
                                      referenced: set<Id>, now: nat, stored: seq<Id>, doomed: seq<Id>,
                                      kept: seq<PackEntries>, repack: seq<PackEntries>, copied: seq<PackEntries>,
                                      plan: Plan)
    requires Grouped(blobs, blobs.Keys, byPack) && SelfNamed(blobs)
    requires Sorted(b, byPack, referenced, now, stored, doomed, kept, repack)
    requires forall pk :: pk in b.packs ==> pk in stored
    requires plan.doomed == doomed + PackIdsOf(repack)
    requires plan.doomed != [] && kept + copied != [] ==> plan.index.Some? && plan.index.value.1 == kept + copied
    ensures RestKept(b, blobs, plan)
  {
    forall id | plan.doomed != [] && id in blobs && blobs[id].packId in b.packs && blobs[id].packId !in plan.doomed
      ensures plan.index.Some? && ListsAt(plan.index.value.1, id, blobs[id]) {
      LocatedIsListed(b, blobs, byPack, referenced, now, stored, doomed, kept, repack, id);
      var p :| p in kept && p.packId == blobs[id].packId && blobs[id].entry in p.entries;
      assert p in kept + copied;
    }
  }

  lemma {:induction false} ListedIsReal(b: Bucket, blobs: map<Id, Location>, byPack: map<Id, seq<Entry>>,
                                        referenced: set<Id>, now: nat, stored: seq<Id>, doomed: seq<Id>,
                                        kept: seq<PackEntries>, repack: seq<PackEntries>,
                                        newPacks: seq<(Id, Pack)>, copied: seq<PackEntries>, first: Id, plan: Plan)
    requires Grouped(blobs, blobs.Keys, byPack) && Written(newPacks, copied, first)
    requires Sorted(b, byPack, referenced, now, stored, doomed, kept, repack)
    requires plan.doomed == doomed + PackIdsOf(repack) && plan.newPacks == newPacks
    requires plan.index.Some? ==> plan.index.value.1 == kept + copied
    ensures NothingElse(blobs, plan)
  {
    forall p, e | plan.index.Some? && p in plan.index.value.1 && e in p.entries
      ensures (p.packId !in plan.doomed && e.id in blobs && blobs[e.id] == Location(p.packId, e))
              || exists n :: n in plan.newPacks && n.0 == p.packId && e in n.1.entries {
      if p in kept {
        KeptAreLocated(b, blobs, byPack, referenced, now, stored, doomed, kept, repack, p, e);
      } else {
        var i :| 0 <= i < |copied| && copied[i] == p;
        assert newPacks[i] in newPacks;
      }
    }
  }

  method RootsOf(b: Bucket, forget: seq<Id>) returns (roots: seq<Id>)
    ensures RemainingRoots(b, forget, roots)
  {
    var snaps := Enumerate(b.snaps.Keys);
    roots := [];
    for i := 0 to |snaps|
      invariant forall j :: 0 <= j < i && snaps[j] !in forget ==> b.snaps[snaps[j]] in roots
      invariant forall r :: r in roots ==> exists s :: s in b.snaps && s !in forget && b.snaps[s] == r
    {
      if snaps[i] !in forget {
        roots := roots + [b.snaps[snaps[i]]];
      }
    }
    forall s | s in b.snaps && s !in forget ensures b.snaps[s] in roots {
      var j :| 0 <= j < |snaps| && snaps[j] == s;
    }
  }

  // ----- Which packs go -----

  /** The merged view has a blob in the pack that is needed, or one that is not. */
  ghost predicate Holds(g: Forest, roots: seq<Id>, blobs: map<Id, Location>, pk: Id, needed: bool)
  {
    exists id :: id in blobs && blobs[id].packId == pk && (NeededByAny(g, roots, id) <==> needed)
  }

  /** `waste` is everything the merged view has in the pack that no root needs. */
  ghost predicate IsWaste(g: Forest, roots: seq<Id>, blobs: map<Id, Location>, pk: Id, waste: seq<Entry>)
  {
    && Distinct(waste)
    && forall e :: e in waste <==> e.id in blobs && blobs[e.id] == Location(pk, e) && !NeededByAny(g, roots, e.id)
  }

  /** At least a fifth of the pack is waste. */
  ghost predicate Wasteful(g: Forest, b: Bucket, roots: seq<Id>, blobs: map<Id, Location>, pk: Id)
    requires pk in b.packs
  {
    exists waste: seq<Entry> :: IsWaste(g, roots, blobs, pk, waste) && 5 * Bytes(waste) >= b.packs[pk].size
  }

  /** A pack no index accounts for goes once it was written seven days ago or more; one that
      cannot be dated, or is dated later than now, stays. */
  predicate OldEnough(pack: Pack, now: nat)
  {
    pack.written.Some? && pack.written.value + 7 * 24 * 3600 <= now
  }

  /** The packs a prune deletes: of those in the merged view the ones nobody needs a blob of,
      and the wasteful ones; of the others the ones written a week ago. */
  ghost predicate MustGo(g: Forest, b: Bucket, roots: seq<Id>, blobs: map<Id, Location>, now: nat, pk: Id)
    requires pk in b.packs
  {
    if Holds(g, roots, blobs, pk, true) then Wasteful(g, b, roots, blobs, pk)
    else Holds(g, roots, blobs, pk, false) || OldEnough(b.packs[pk], now)
  }

  ghost predicate Thorough(g: Forest, b: Bucket, roots: seq<Id>, blobs: map<Id, Location>, now: nat, plan: Plan)
  {
    forall pk :: pk in b.packs ==> (pk in plan.doomed <==> MustGo(g, b, roots, blobs, now, pk))
  }

  /** The packs the merged view has no blob in go by their age alone. */
  ghost predicate OrphansByAge(b: Bucket, blobs: map<Id, Location>, now: nat, plan: Plan)
  {
    forall pk :: pk in b.packs && (forall id :: id in blobs ==> blobs[id].packId != pk) ==>
                   (pk in plan.doomed <==>
                     b.packs[pk].written.Some? && b.packs[pk].written.value + 7 * 24 * 3600 <= now)
  }

  lemma ThoroughByAge(g: Forest, b: Bucket, roots: seq<Id>, blobs: map<Id, Location>, now: nat, plan: Plan)
    requires Thorough(g, b, roots, blobs, now, plan)
    ensures OrphansByAge(b, blobs, now, plan)
  {
    forall pk | pk in b.packs && (forall id :: id in blobs ==> blobs[id].packId != pk)
      ensures pk in plan.doomed <==> OldEnough(b.packs[pk], now)
    {
      assert !Holds(g, roots, blobs, pk, true) && !Holds(g, roots, blobs, pk, false);
    }
  }

  /** No index object lists the pack. */
  ghost predicate Unlisted(b: Bucket, pk: Id)
  {
    forall ix, p :: ix in b.indexes && p in b.indexes[ix] ==> p.packId != pk
  }

  lemma UnlistedIsNowhere(b: Bucket, order: seq<Id>, pk: Id)
    requires Unlisted(b, pk) && forall ix :: ix in order <==> ix in b.indexes
    ensures var blobs := Merge(Flatten(b.indexes, order)); forall id :: id in blobs ==> blobs[id].packId != pk
  {
    FlattenSpec(b.indexes, order);
    MergeSpec(Flatten(b.indexes, order));
  }

  /** In a list without repeats, what is left without one entry is everything else. */
  lemma WithoutOne(entries: seq<Entry>, i: nat, e: Entry)
    requires Distinct(entries) && i < |entries|
    ensures Distinct(entries[..i] + entries[i + 1..])
    ensures e in entries[..i] + entries[i + 1..] <==> e in entries && e != entries[i]
  {
    var rest := entries[..i] + entries[i + 1..];
    if e in entries && e != entries[i] {
      var k :| 0 <= k < |entries| && entries[k] == e;
      assert rest[if k < i then k else k - 1] == e;
    }
    if e in rest {
      var k :| 0 <= k < |rest| && rest[k] == e;
      assert entries[if k < i then k else k + 1] == e;
    }
  }

  /** The bytes of a list depend only on what is in it. */
  lemma {:induction false} BytesOfSame(a: seq<Entry>, b: seq<Entry>)
    requires Distinct(a) && Distinct(b) && forall e :: e in a <==> e in b
    ensures Bytes(a) == Bytes(b)
    decreases |a|
  {
    if a == [] {
      assert b != [] ==> b[0] in b;
    } else {
      assert a[0] in a;
      var i :| 0 <= i < |b| && b[i] == a[0];
      var rest := b[..i] + b[i + 1..];
      assert a[..0] + a[1..] == a[1..];
      forall e ensures e in a[1..] <==> e in rest {
        WithoutOne(a, 0, e);
        WithoutOne(b, i, e);
      }
      WithoutOne(b, i, a[0]);
      BytesOfSame(a[1..], rest);
      BytesWithout(b, i);
    }
  }

  lemma {:induction false} BytesWithout(entries: seq<Entry>, i: nat)
    requires i < |entries|
    ensures Bytes(entries) == entries[i].length + Bytes(entries[..i] + entries[i + 1..])
    decreases i
  {
    var rest := entries[..i] + entries[i + 1..];
    if i == 0 {
      assert rest == entries[1..];
    } else {
      BytesWithout(entries[1..], i - 1);
      assert rest[0] == entries[0] && rest[1..] == entries[1..][..i - 1] + entries[1..][i..];
    }
  }

  lemma {:induction false} FilterIsDistinct(entries: seq<Entry>, ids: set<Id>, wanted: bool)
    requires Distinct(entries)
    ensures Distinct(Filter(entries, ids, wanted))
    decreases |entries|
  {
    if entries != [] {
      FilterIsDistinct(entries[1..], ids, wanted);
      var rest := Filter(entries[1..], ids, wanted);
      forall k | 0 <= k < |rest| ensures rest[k].id != entries[0].id {
        assert rest[k] in entries[1..];
        var j :| 0 <= j < |entries[1..]| && entries[1..][j] == rest[k];
        assert entries[j + 1] == rest[k];
      }
    }
  }

  /** An indexed pack has a needed blob exactly if its filtered entries show one. */
  lemma {:induction false} JudgedNeeded(g: Forest, roots: seq<Id>, blobs: map<Id, Location>,
                                        byPack: map<Id, seq<Entry>>,
                                        referenced: set<Id>, pk: Id)
    requires forall id :: id in referenced <==> NeededByAny(g, roots, id)
    requires Grouped(blobs, blobs.Keys, byPack) && SelfNamed(blobs) && pk in byPack
    ensures Filter(byPack[pk], referenced, true) == [] <==> !Holds(g, roots, blobs, pk, true)
    ensures Holds(g, roots, blobs, pk, true) || Holds(g, roots, blobs, pk, false)
  {
    var all := byPack[pk];
    HeldEntry(g, roots, blobs, byPack, pk, all[0]);
    var needed := Filter(all, referenced, true);
    if needed != [] {
      assert needed[0] in needed;
      HeldEntry(g, roots, blobs, byPack, pk, needed[0]);
    }
    forall id | id in blobs && blobs[id].packId == pk && NeededByAny(g, roots, id) ensures blobs[id].entry in needed {
      assert id in blobs.Keys && blobs[id].entry in all;
    }
  }

  lemma HeldEntry(g: Forest, roots: seq<Id>, blobs: map<Id, Location>, byPack: map<Id, seq<Entry>>, pk: Id, e: Entry)
    requires Grouped(blobs, blobs.Keys, byPack) && pk in byPack && e in byPack[pk]
    ensures Holds(g, roots, blobs, pk, NeededByAny(g, roots, e.id))
  {
    assert blobs[e.id].packId == pk;
  }

  lemma {:induction false} FilteredIsWaste(g: Forest, roots: seq<Id>, blobs: map<Id, Location>,
                                           byPack: map<Id, seq<Entry>>,
                                           referenced: set<Id>, pk: Id)
    requires forall id :: id in referenced <==> NeededByAny(g, roots, id)
    requires Grouped(blobs, blobs.Keys, byPack) && SelfNamed(blobs) && pk in byPack
    ensures IsWaste(g, roots, blobs, pk, Filter(byPack[pk], referenced, false))
  {
    FilterIsDistinct(byPack[pk], referenced, false);
    forall e ensures e in byPack[pk] <==> e.id in blobs && blobs[e.id] == Location(pk, e) {
      if e.id in blobs && blobs[e.id] == Location(pk, e) { assert e.id in blobs.Keys; }
    }
  }

  /** Any list of the waste has the same bytes, so it is enough to look at one. */
  lemma {:induction false} WastefulByOne(g: Forest, b: Bucket, roots: seq<Id>, blobs: map<Id, Location>, pk: Id,
                                         waste: seq<Entry>)
    requires pk in b.packs && IsWaste(g, roots, blobs, pk, waste)
    ensures 5 * Bytes(waste) >= b.packs[pk].size <==> Wasteful(g, b, roots, blobs, pk)
  {
    if Wasteful(g, b, roots, blobs, pk) {
      var other: seq<Entry> :| IsWaste(g, roots, blobs, pk, other) && 5 * Bytes(other) >= b.packs[pk].size;
      BytesOfSame(other, waste);
    }
  }

  lemma {:induction false} JudgedIndexed(g: Forest, b: Bucket, roots: seq<Id>, blobs: map<Id, Location>,
                                         byPack: map<Id, seq<Entry>>,
                                         referenced: set<Id>, now: nat, pk: Id)
    requires forall id :: id in referenced <==> NeededByAny(g, roots, id)
    requires Grouped(blobs, blobs.Keys, byPack) && SelfNamed(blobs) && pk in b.packs && pk in byPack
    ensures var v := Judge(b.packs[pk], Some(byPack[pk]), referenced, now);
            v.Doom? || v.Rewrite? <==> MustGo(g, b, roots, blobs, now, pk)
  {
    JudgedNeeded(g, roots, blobs, byPack, referenced, pk);
    FilteredIsWaste(g, roots, blobs, byPack, referenced, pk);
    WastefulByOne(g, b, roots, blobs, pk, Filter(byPack[pk], referenced, false));
    JudgeIndexed(b.packs[pk], byPack[pk], referenced, now);
    MustGoIndexed(g, b, roots, blobs, now, pk);
  }

  lemma {:induction false} JudgeIndexed(pack: Pack, all: seq<Entry>, referenced: set<Id>, now: nat)
    ensures var v := Judge(pack, Some(all), referenced, now);
            v.Doom? || v.Rewrite? <==>
                  Filter(all, referenced, true) == [] || 5 * Bytes(Filter(all, referenced, false)) >= pack.size
  {
  }

  lemma MustGoIndexed(g: Forest, b: Bucket, roots: seq<Id>, blobs: map<Id, Location>, now: nat, pk: Id)
    requires pk in b.packs && (Holds(g, roots, blobs, pk, true) || Holds(g, roots, blobs, pk, false))
    ensures MustGo(g, b, roots, blobs, now, pk) <==>
              !Holds(g, roots, blobs, pk, true) || Wasteful(g, b, roots, blobs, pk)
  {
  }

  lemma {:induction false} HeldNowhere(g: Forest, roots: seq<Id>, blobs: map<Id, Location>,
                                       byPack: map<Id, seq<Entry>>, pk: Id, needed: bool)
    requires Grouped(blobs, blobs.Keys, byPack) && pk !in byPack
    ensures !Holds(g, roots, blobs, pk, needed)
  {
    forall id | id in blobs ensures blobs[id].packId != pk {
      assert id in blobs.Keys;
    }
  }

  /** A pack is doomed or rewritten exactly if it must go. */
  lemma {:induction false} JudgedRight(g: Forest, b: Bucket, forget: seq<Id>, roots: seq<Id>, order: seq<Id>,
                                       blobs: map<Id, Location>, byPack: map<Id, seq<Entry>>, referenced: set<Id>,
                                       now: nat, stored: seq<Id>, doomed: seq<Id>, kept: seq<PackEntries>,
                                       repack: seq<PackEntries>, pk: Id)
    requires Surveyed(g, b, forget, roots, order, blobs, byPack, referenced, now, stored, doomed, kept, repack)
    requires pk in b.packs
    ensures pk in doomed + PackIdsOf(repack) <==> MustGo(g, b, roots, blobs, now, pk)
  {
    RewrittenIffJudged(b, byPack, referenced, now, stored, doomed, kept, repack, pk);
    if pk in byPack {
      JudgedIndexed(g, b, roots, blobs, byPack, referenced, now, pk);
    } else {
      HeldNowhere(g, roots, blobs, byPack, pk, true);
      HeldNowhere(g, roots, blobs, byPack, pk, false);
    }
  }

  lemma RewrittenIffJudged(b: Bucket, byPack: map<Id, seq<Entry>>, referenced: set<Id>, now: nat, stored: seq<Id>,
                           doomed: seq<Id>, kept: seq<PackEntries>, repack: seq<PackEntries>, pk: Id)
    requires Sorted(b, byPack, referenced, now, stored, doomed, kept, repack) && pk in stored
    ensures var v := VerdictOf(b, byPack, referenced, now, pk);
            pk in doomed + PackIdsOf(repack) <==> v.Doom? || v.Rewrite?
  {
    assert forall p :: p in repack ==> p.packId in PackIdsOf(repack) by {
      forall p | p in repack ensures p.packId in PackIdsOf(repack) {
        var i :| 0 <= i < |repack| && repack[i] == p;
        assert PackIdsOf(repack)[i] == p.packId;
      }
    }
    if pk in PackIdsOf(repack) {
      var i :| 0 <= i < |repack| && PackIdsOf(repack)[i] == pk;
      assert repack[i] in repack;
    }
    match VerdictOf(b, byPack, referenced, now, pk)
    case Rewrite(es) => assert PackEntries(pk, es) in repack;
    case _ =>
  }

  method FirstUnknown(b: Bucket, forget: seq<Id>) returns (unknown: Option<Id>)
    ensures unknown.Some? ==> unknown.value in forget && unknown.value !in b.snaps
    ensures unknown.None? ==> forall s :: s in forget ==> s in b.snaps
  {
    for i := 0 to |forget|
      invariant forall j :: 0 <= j < i ==> forget[j] in b.snaps
    {
      if forget[i] !in b.snaps {
        return Some(forget[i]);
      }
    }
    unknown := None;
  }

  /** Loads the index and marks. Nothing can go wrong on a consistent bucket. */
  method LoadAndMark(g: Forest, b: Bucket, forget: seq<Id>)
    returns (error: Option<Error>, order: seq<Id>, blobs: map<Id, Location>, roots: seq<Id>, referenced: set<Id>)
    requires ChunksAreNotTrees(g)
    ensures error.Some? ==> !error.value.SnapshotNotFound? && !Consistent(g, b)
    ensures RemainingRoots(b, forget, roots) && (forall ix :: ix in order <==> ix in b.indexes) && ViewOf(b, blobs)
    ensures blobs == Merge(Flatten(b.indexes, order))
    ensures error.None? ==> forall id :: id in referenced <==> NeededByAny(g, roots, id)
  {
    order := Enumerate(b.indexes.Keys);
    var view := Load(b.indexes, order);
    blobs := view.blobs;
    LoadedView(b, order);
    roots := RootsOf(b, forget);
    var marked;
    marked, referenced := MarkAll(g, b, blobs, roots);
    if Consistent(g, b) { RootsMark(g, b, blobs, forget, roots); }
    if marked.Failed? {
      error := Some(Unmarkable(marked.error));
    } else if missing :| missing in referenced && missing !in blobs {
      error := Some(NotIndexed(missing));
    } else {
      error := None;
    }
  }

  /** For some order of the index objects, the packs that go are exactly those that must, by
      what the merged view and the remaining snapshots say. */
  ghost predicate Exact(g: Forest, b: Bucket, forget: seq<Id>, now: nat, plan: Plan)
  {
    exists roots: seq<Id>, order: seq<Id> :: ExactFor(g, b, forget, now, plan, roots, order)
  }

  ghost predicate ExactFor(g: Forest, b: Bucket, forget: seq<Id>, now: nat, plan: Plan, roots: seq<Id>, order: seq<Id>)
  {
    && RemainingRoots(b, forget, roots) && (forall ix :: ix in order <==> ix in b.indexes)
    && Thorough(g, b, roots, Merge(Flatten(b.indexes, order)), now, plan)
    && OrphansByAge(b, Merge(Flatten(b.indexes, order)), now, plan)
    && Reindexed(g, b, roots, Merge(Flatten(b.indexes, order)), plan)
  }

  /** Plans a prune that forgets `forget`. `first` is above every ID in use. An unknown
      snapshot is refused. On a consistent bucket any other request succeeds, its sweep is
      justified, and it deletes exactly the packs that must go. */
  method PlanPrune(g: Forest, b: Bucket, forget: seq<Id>, now: nat, first: Id) returns (r: Result)
    requires ChunksAreNotTrees(g) && Unused(b, first)
    ensures (exists s :: s in forget && s !in b.snaps) <==> r.Rejected? && r.error.SnapshotNotFound?
    ensures Consistent(g, b) && r.Rejected? ==> r.error.SnapshotNotFound?
    ensures Consistent(g, b) && r.Planned? ==> Justified(g, b, r.plan) && r.plan.forget == forget
    ensures r.Planned? ==> Exact(g, b, forget, now, r.plan)
    ensures r.Planned? ==> forall pk :: pk in b.packs && Unlisted(b, pk) ==>
              (pk in r.plan.doomed <==> b.packs[pk].written.Some? && b.packs[pk].written.value + 7 * 24 * 3600 <= now)
  {
    var unknown := FirstUnknown(b, forget);
    if unknown.Some? {
      return Rejected(SnapshotNotFound(unknown.value));
    }
    var error, order, blobs, roots, referenced := LoadAndMark(g, b, forget);
    if error.Some? {
      return Rejected(error.value);
    }
    r := LayOut(g, b, forget, now, first, order, blobs, roots, referenced);
    assert r.Planned? ==> ExactFor(g, b, forget, now, r.plan, roots, order);
    forall pk | pk in b.packs && Unlisted(b, pk) ensures forall id :: id in blobs ==> blobs[id].packId != pk {
      UnlistedIsNowhere(b, order, pk);
    }
  }

  /** Judges every stored pack, copies what must move, and lays the sweep out. */
  method LayOut(g: Forest, b: Bucket, forget: seq<Id>, now: nat, first: Id, order: seq<Id>,
                blobs: map<Id, Location>, ghost roots: seq<Id>, referenced: set<Id>)
    returns (r: Result)
    requires RemainingRoots(b, forget, roots) && (forall ix :: ix in order <==> ix in b.indexes) && ViewOf(b, blobs)
    requires forall id :: id in referenced <==> NeededByAny(g, roots, id)
    requires Unused(b, first)
    ensures r.Rejected? ==> !r.error.SnapshotNotFound? && !Consistent(g, b)
    ensures Consistent(g, b) ==> r.Planned? && Justified(g, b, r.plan)
    ensures r.Planned? ==> Thorough(g, b, roots, blobs, now, r.plan) && OrphansByAge(b, blobs, now, r.plan)
    ensures r.Planned? ==> Reindexed(g, b, roots, blobs, r.plan)
    ensures r.Planned? ==> r.plan.forget == forget
  {
    var byPack := GroupByPack(blobs);
    var stored := Enumerate(b.packs.Keys);
    var doomed, kept, repack := Classify(b, byPack, referenced, now, stored);
    if Consistent(g, b) { ListsAreTrue(b, blobs, byPack, referenced, now, stored, doomed, kept, repack); }
    var error, newPacks, copied := RewriteAll(b, repack, first, now);
    if error.Some? {
      return Rejected(error.value);
    }
    r := Planned(Layout(forget, newPacks, kept + copied, doomed + PackIdsOf(repack), order, first + |newPacks|));
    if Consistent(g, b) {
      LayoutJustified(g, b, forget, roots, order, blobs, byPack, referenced, now, stored, doomed, kept, repack,
                      newPacks, copied, first);
    }
    forall pk | pk in b.packs ensures pk in r.plan.doomed <==> MustGo(g, b, roots, blobs, now, pk) {
      JudgedRight(g, b, forget, roots, order, blobs, byPack, referenced, now, stored, doomed, kept, repack, pk);
    }
    ThoroughByAge(g, b, roots, blobs, now, r.plan);
    LayoutReindexes(g, b, forget, roots, order, blobs, byPack, referenced, now, stored, doomed, kept, repack,
                    newPacks, copied, first);
  }

  /** On a consistent bucket every remaining root can be marked, and all it needs is indexed. */
  lemma RootsMark(g: Forest, b: Bucket, blobs: map<Id, Location>, forget: seq<Id>, roots: seq<Id>)
    requires Consistent(g, b) && ViewOf(b, blobs) && RemainingRoots(b, forget, roots)
    ensures forall root :: root in roots ==> !Blocked(g, b, blobs, root)
    ensures forall id :: NeededByAny(g, roots, id) ==> id in blobs
  {
    forall root | root in roots
      ensures !Blocked(g, b, blobs, root) && forall id :: Needs(g, root, id) ==> id in blobs
    {
      var s :| s in b.snaps && s !in forget && b.snaps[s] == root;
      NeverBlocked(g, b, blobs, s);
    }
  }
}
