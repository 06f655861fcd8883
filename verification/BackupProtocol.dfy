/** Backups and prunes sharing one bucket: every snapshot can be restored in every state of every run. */
module BackupProtocol {
  // Backups and prunes sharing one bucket. Any number of processes run them in any
  // interleaving of single requests, each may crash at any step, and the lock protocol of
  // `Locking` decides who may proceed. The invariant is that the bucket is consistent: every
  // snapshot in it can be restored.
  //
  // Hypotheses of a run: live locks are refreshed in time (`Timely`), no sweep request falls
  // between a backup's opening of the repository and its lock (`NoOpeningDuringSweep`), and
  // no file chunk has the ID of a tree (`ChunksAreNotTrees`).

  import opened Blobs
  import opened Index
  import opened Store
  import opened Sweep
  import opened WriterModel
  import L = Locking

  type Proc = nat

  datatype Actor =
    | Outside
      /** The index is loaded and perhaps a parent chosen, but no lock is held yet. */
    | Opening(index: set<Id>, parent: set<Id>)
      /** Holding a shared lock. `usable` has the IDs the run's trees may mention. */
    | Running(w: Writer, usable: set<Id>)
      /** A prune that read `base` and has made the first `k` requests of its sweep. */
    | Sweeping(base: Bucket, plan: Plan, k: nat)

  datatype State = State(locks: L.State, bucket: Bucket, actors: map<Proc, Actor>)

  datatype Event =
    | Lock(e: L.Event)
    | Open(p: Proc, index: set<Id>)
    | ChooseParent(p: Proc, snap: Id, chunks: set<Id>)
    | GiveUp(p: Proc)
    | Begin(p: Proc)
    | Adopt(p: Proc, packId: Id)
    | Resume(p: Proc, chunks: set<Id>)
    | SaveBlob(p: Proc, id: Id)
      /** A put of a pack ended: whether the bucket has it, and whether the run was told so. */
    | Upload(p: Proc, packId: Id, pack: Pack, stored: bool, ok: bool)
      /** The blobs of a pack that is up enter the index. */
    | TakeIn(p: Proc, packId: Id)
    | Flush(p: Proc, indexId: Id, flushed: set<Id>, listing: seq<PackEntries>, stored: bool, reported: bool)
    | Publish(p: Proc, snap: Id, root: Id)
    | StartSweep(p: Proc, plan: Plan)
    | SweepRequest(p: Proc)

  function ActorOf(s: State, p: Proc): Actor
  {
    if p in s.actors then s.actors[p] else Outside
  }

  function Become(s: State, p: Proc, a: Actor): State
  {
    s.(actors := s.actors[p := a])
  }

  /** The process an event belongs to may touch the bucket's content only as a holder. */
  ghost predicate Enabled(g: Forest, s: State, e: Event)
  {
    match e
    case Lock(l) => L.Enabled(s.locks, l)
    case Open(p, index) =>
      ActorOf(s, p).Outside? && L.PhaseOf(s.locks, p).Idle? && forall id :: id in index ==> Covered(s.bucket, id)
    case ChooseParent(p, snap, chunks) =>
      && ActorOf(s, p).Opening? && snap in s.bucket.snaps
      && forall id :: id in chunks ==> exists t :: ReachesTree(g, s.bucket.snaps[snap], t) && HoldsChunk(g, t, id)
    case GiveUp(p) => ActorOf(s, p).Opening?
    case Begin(p) => ActorOf(s, p).Opening? && L.Holds(s.locks, p) && !L.HoldsExclusive(s.locks, p)
    case Adopt(p, pk) => ActorOf(s, p).Running? && pk in s.bucket.packs
    case Resume(p, chunks) =>
      ActorOf(s, p).Running? && chunks <= ActorOf(s, p).w.index && forall id :: id in chunks ==> id !in g
    case SaveBlob(p, id) =>
      && ActorOf(s, p).Running?
         // a directory is saved after everything in it, and its entries name saved trees
      && (id in g ==> forall x :: Refers(g[id], x) ==> x in ActorOf(s, p).usable)
      && (id in g ==> forall u :: Dir(u) in g[id] ==> u in g)
    case Upload(p, pk, pack, stored, ok) =>
      && ActorOf(s, p).Running? && pk !in s.bucket.packs && (ok ==> stored)
      && IdsOf(pack.entries) <= ActorOf(s, p).w.pending
    case TakeIn(p, pk) =>
      && ActorOf(s, p).Running? && pk in s.bucket.packs
      && IdsOf(s.bucket.packs[pk].entries) <= ActorOf(s, p).w.pending
    case Flush(p, ix, flushed, listing, _, _) =>
      && ActorOf(s, p).Running? && ix !in s.bucket.indexes
      && flushed <= ActorOf(s, p).w.newPacks.Keys
      && ListsExactly(listing, Restrict(ActorOf(s, p).w.newPacks, flushed))
    case Publish(p, snap, root) =>
      && ActorOf(s, p).Running? && !ActorOf(s, p).w.failed && L.Holds(s.locks, p) && !L.PhaseOf(s.locks, p).lost
      && ActorOf(s, p).w.pending == {} && ActorOf(s, p).w.newPacks == map[]
      && root in ActorOf(s, p).usable && root in g && snap !in s.bucket.snaps
    case StartSweep(p, plan) =>
      ActorOf(s, p).Outside? && L.HoldsExclusive(s.locks, p) && Justified(g, s.bucket, plan)
    case SweepRequest(p) =>
      ActorOf(s, p).Sweeping? && ActorOf(s, p).k < ActorOf(s, p).plan.Length()
  }

  ghost function Next(g: Forest, s: State, e: Event): State
    requires Enabled(g, s, e)
  {
    match e
    case Lock(l) =>
      var t := s.(locks := L.Next(s.locks, l));
      // releasing the lock ends the run, and so does a crash
      if l.Release? || l.Crash? then Become(t, l.p, Outside) else t
    case Open(p, index) => Become(s, p, Opening(index, {}))
    case ChooseParent(p, _, chunks) => Become(s, p, ActorOf(s, p).(parent := chunks))
    case GiveUp(p) => Become(s, p, Outside)
    case Begin(p) =>
      Become(s, p, Running(Start(ActorOf(s, p).index), ActorOf(s, p).parent))
    case Adopt(p, pk) =>
      var a := ActorOf(s, p);
      Become(s, p, a.(w := AdoptPack(a.w, pk, s.bucket.packs[pk].entries)))
    case Resume(p, chunks) =>
      var a := ActorOf(s, p);
      Become(s, p, a.(usable := a.usable + chunks))
    case SaveBlob(p, id) =>
      var a := ActorOf(s, p);
      if Refuses(a.w, id) then s
      else Become(s, p, Running(Save(a.w, id), a.usable + {id}))
    case Upload(p, pk, pack, stored, ok) =>
      var a := ActorOf(s, p);
      var b := if stored then Apply(s.bucket, PutPack(pk, pack)) else s.bucket;
      Become(s.(bucket := b), p, if ok then a else a.(w := Uploaded(a.w, pk, pack.entries, false)))
    case TakeIn(p, pk) =>
      var a := ActorOf(s, p);
      Become(s, p, a.(w := Uploaded(a.w, pk, s.bucket.packs[pk].entries, true)))
    case Flush(p, ix, flushed, listing, stored, reported) =>
      var a := ActorOf(s, p);
      var b := if stored then Apply(s.bucket, PutIndex(ix, listing)) else s.bucket;
      Become(s.(bucket := b), p, a.(w := Flushed(a.w, flushed, stored && reported)))
    case Publish(p, snap, root) =>
      s.(bucket := Apply(s.bucket, PutSnap(snap, root)))
    case StartSweep(p, plan) => Become(s, p, Sweeping(s.bucket, plan, 0))
    case SweepRequest(p) =>
      var a := ActorOf(s, p);
      Become(s.(bucket := Apply(s.bucket, a.plan.Request(a.k))), p, a.(k := a.k + 1))
  }

  // ----- The invariant -----

  /** The blob is listed by an index object, or is in a pack this run has uploaded and will list. */
  ghost predicate Findable(b: Bucket, w: Writer, id: Id)
  {
    Covered(b, id) || exists pk :: pk in w.newPacks && HasId(w.newPacks[pk], id)
  }

  ghost predicate WriterOk(g: Forest, b: Bucket, w: Writer, usable: set<Id>)
  {
    && (forall pk :: pk in w.newPacks ==> pk in b.packs && b.packs[pk].entries == w.newPacks[pk])
    && (!w.failed ==> forall id :: id in w.index ==> Findable(b, w, id))
    && (!w.failed ==> forall id :: id in usable ==> id in w.index || id in w.pending || Covered(b, id))
    && Closed(g, usable) && DirsDecode(g, usable)
  }

  ghost predicate ActorOk(g: Forest, s: State, p: Proc)
  {
    match ActorOf(s, p)
    case Outside => true
    case Opening(index, parent) =>
      && (forall id :: id in index ==> Covered(s.bucket, id))
      && (forall id :: id in parent ==> Covered(s.bucket, id) && id !in g)
    case Running(w, usable) =>
      L.Holds(s.locks, p) && !L.HoldsExclusive(s.locks, p) && WriterOk(g, s.bucket, w, usable)
    case Sweeping(base, plan, k) =>
      && L.HoldsExclusive(s.locks, p)
      && Consistent(g, base) && Justified(g, base, plan) && k <= plan.Length()
      && s.bucket == After(base, plan, k)
  }

  ghost predicate Inv(g: Forest, s: State)
  {
    L.Inv(s.locks) && Consistent(g, s.bucket) && forall p :: ActorOk(g, s, p)
  }

  ghost predicate NoOpeningDuringSweep(s: State, e: Event)
  {
    e.SweepRequest? ==> forall q :: !ActorOf(s, q).Opening?
  }

  // ----- Buckets only grow while a backup holds the lock -----

  ghost predicate Grows(b: Bucket, c: Bucket)
  {
    && (forall pk :: pk in b.packs ==> pk in c.packs && c.packs[pk] == b.packs[pk])
    && (forall ix :: ix in b.indexes ==> ix in c.indexes && c.indexes[ix] == b.indexes[ix])
  }

  lemma GrowsCovers(b: Bucket, c: Bucket)
    requires Grows(b, c)
    ensures forall id :: Covered(b, id) ==> Covered(c, id)
  {
    forall id | Covered(b, id) ensures Covered(c, id) {
      var ix, pk :| Lists(b, ix, pk, id);
      assert Lists(c, ix, pk, id);
    }
  }

  lemma WriterOkGrows(g: Forest, b: Bucket, c: Bucket, w: Writer, usable: set<Id>)
    requires Grows(b, c) && WriterOk(g, b, w, usable)
    ensures WriterOk(g, c, w, usable)
  {
    GrowsCovers(b, c);
  }

  /** While a backup runs nobody sweeps, so a growing bucket harms no other actor. */
  lemma OthersGrow(g: Forest, s: State, t: State, p: Proc)
    requires Inv(g, s) && t.locks == s.locks && Grows(s.bucket, t.bucket)
    requires ActorOf(s, p).Running?
    requires forall q :: q != p ==> ActorOf(t, q) == ActorOf(s, q)
    ensures forall q :: q != p ==> ActorOk(g, t, q)
  {
    assert ActorOk(g, s, p);
    GrowsCovers(s.bucket, t.bucket);
    forall q | q != p ensures ActorOk(g, t, q) {
      assert ActorOk(g, s, q);
      match ActorOf(s, q)
      case Outside =>
      case Opening(_, _) =>
      case Running(w, usable) => WriterOkGrows(g, s.bucket, t.bucket, w, usable);
      case Sweeping(_, _, _) => L.ExclusiveIsAlone(s.locks, q, p);
    }
  }

  lemma BecomeFrame(s: State, p: Proc, a: Actor)
    ensures ActorOf(Become(s, p, a), p) == a
    ensures forall q :: q != p ==> ActorOf(Become(s, p, a), q) == ActorOf(s, q)
  {
  }

  /** Adding an index listing of packs that are there keeps a bucket consistent. */
  lemma PutIndexConsistent(g: Forest, b: Bucket, ix: Id, listing: seq<PackEntries>, packs: map<Id, seq<Entry>>)
    requires Consistent(g, b) && ix !in b.indexes && ListsExactly(listing, packs)
    requires forall pk :: pk in packs ==> pk in b.packs && b.packs[pk].entries == packs[pk]
    ensures Consistent(g, Apply(b, PutIndex(ix, listing)))
    ensures Grows(b, Apply(b, PutIndex(ix, listing)))
    ensures forall pk, id :: pk in packs && HasId(packs[pk], id) ==> Covered(Apply(b, PutIndex(ix, listing)), id)
  {
    var c := Apply(b, PutIndex(ix, listing));
    GrowsCovers(b, c);
    forall jx, pk, id | Lists(c, jx, pk, id) ensures PackHolds(c, pk, id) {
      if jx != ix { assert Lists(b, jx, pk, id); }
    }
    forall pk, id | pk in packs && HasId(packs[pk], id) ensures Covered(c, id) {
      assert PackEntries(pk, packs[pk]) in c.indexes[ix];
      assert Lists(c, ix, pk, id);
    }
    forall x | x in c.snaps ensures Restorable(g, c, c.snaps[x]) {
      assert Restorable(g, b, b.snaps[x]);
    }
  }

  lemma PutPackConsistent(g: Forest, b: Bucket, pk: Id, pack: Pack)
    requires Consistent(g, b) && pk !in b.packs
    ensures Consistent(g, Apply(b, PutPack(pk, pack))) && Grows(b, Apply(b, PutPack(pk, pack)))
  {
    var c := Apply(b, PutPack(pk, pack));
    GrowsCovers(b, c);
    forall ix, qk, id | Lists(c, ix, qk, id) ensures PackHolds(c, qk, id) {
      assert Lists(b, ix, qk, id);
    }
    forall x | x in c.snaps ensures Restorable(g, c, c.snaps[x]) {
      assert Restorable(g, b, b.snaps[x]);
    }
  }

  // ----- Each kind of step keeps the invariant -----

  lemma LockKeepsActor(g: Forest, s: State, e: Event, p: Proc)
    requires ActorOk(g, s, p) && e.Lock? && Enabled(g, s, e)
    ensures ActorOk(g, Next(g, s, e), p)
  {
    L.NextFrame(s.locks, e.e);
  }

  lemma LockKeepsInv(g: Forest, s: State, e: Event)
    requires Inv(g, s) && e.Lock? && Enabled(g, s, e) && L.Timely(s.locks)
    ensures Inv(g, Next(g, s, e))
  {
    L.NextKeepsInv(s.locks, e.e);
    forall p ensures ActorOk(g, Next(g, s, e), p) {
      LockKeepsActor(g, s, e, p);
    }
  }

  lemma OpeningKeepsInv(g: Forest, s: State, e: Event)
    requires ChunksAreNotTrees(g)
    requires Inv(g, s) && Enabled(g, s, e)
    requires e.Open? || e.ChooseParent? || e.GiveUp? || e.Begin? || e.StartSweep?
    ensures Inv(g, Next(g, s, e))
  {
    var t := Next(g, s, e);
    BecomeFrame(s, e.p, ActorOf(t, e.p));
    assert ActorOk(g, s, e.p);
    if e.ChooseParent? {
      forall id | id in e.chunks ensures Covered(s.bucket, id) && id !in g {
        var u :| ReachesTree(g, s.bucket.snaps[e.snap], u) && HoldsChunk(g, u, id);
        assert Needs(g, s.bucket.snaps[e.snap], id);
        assert Restorable(g, s.bucket, s.bucket.snaps[e.snap]);
      }
    } else if e.StartSweep? {
      AfterNothing(s.bucket, e.plan);
    }
    forall q | q != e.p ensures ActorOk(g, t, q) {
      assert ActorOk(g, s, q);
    }
    assert ActorOk(g, t, e.p);
  }

  /** Taking over a pack keeps what was findable findable, and its own blobs are found in it. */
  lemma AdoptedStaysFindable(b: Bucket, w: Writer, pk: Id, entries: seq<Entry>, id: Id)
    requires pk !in w.newPacks || w.newPacks[pk] == entries
    requires id in w.index ==> Findable(b, w, id)
    requires id in AdoptPack(w, pk, entries).index
    ensures Findable(b, AdoptPack(w, pk, entries), id)
  {
    var w' := AdoptPack(w, pk, entries);
    if id in w.index {
      if !Covered(b, id) {
        var q :| q in w.newPacks && HasId(w.newPacks[q], id);
        assert HasId(w'.newPacks[q], id);
      }
    } else {
      assert HasId(w'.newPacks[pk], id);
    }
  }

  /** A step of a run that leaves locks and bucket alone concerns nobody else. */
  lemma WriteKeepsInv(g: Forest, s: State, p: Proc, a: Actor)
    requires Inv(g, s) && a.Running? && ActorOf(s, p).Running? && WriterOk(g, s.bucket, a.w, a.usable)
    ensures Inv(g, Become(s, p, a))
  {
    var t := Become(s, p, a);
    BecomeFrame(s, p, a);
    assert ActorOk(g, s, p);
    forall q | q != p ensures ActorOk(g, t, q) {
      assert ActorOk(g, s, q);
    }
    assert ActorOk(g, t, p);
  }

  lemma AdoptKeepsInv(g: Forest, s: State, e: Event)
    requires Inv(g, s) && e.Adopt? && Enabled(g, s, e)
    ensures Inv(g, Next(g, s, e))
  {
    assert ActorOk(g, s, e.p);
    var w := ActorOf(s, e.p).w;
    var w' := AdoptPack(w, e.packId, s.bucket.packs[e.packId].entries);
    forall id | id in w'.index && !w'.failed ensures Findable(s.bucket, w', id) {
      AdoptedStaysFindable(s.bucket, w, e.packId, s.bucket.packs[e.packId].entries, id);
    }
    WriteKeepsInv(g, s, e.p, ActorOf(s, e.p).(w := w'));
  }

  lemma TakeInKeepsInv(g: Forest, s: State, e: Event)
    requires Inv(g, s) && e.TakeIn? && Enabled(g, s, e)
    ensures Inv(g, Next(g, s, e))
  {
    assert ActorOk(g, s, e.p);
    var entries := s.bucket.packs[e.packId].entries;
    var w := ActorOf(s, e.p).w;
    var w' := Uploaded(w, e.packId, entries, true);
    forall id | id in w'.index && !w'.failed ensures Findable(s.bucket, w', id) {
      AdoptedStaysFindable(s.bucket, w, e.packId, entries, id);
    }
    WriteKeepsInv(g, s, e.p, ActorOf(s, e.p).(w := w'));
  }

  lemma ResumeKeepsInv(g: Forest, s: State, e: Event)
    requires Inv(g, s) && e.Resume? && Enabled(g, s, e)
    ensures Inv(g, Next(g, s, e))
  {
    assert ActorOk(g, s, e.p);
    var a := ActorOf(s, e.p);
    WriteKeepsInv(g, s, e.p, a.(usable := a.usable + e.chunks));
  }

  lemma SaveBlobKeepsInv(g: Forest, s: State, e: Event)
    requires Inv(g, s) && e.SaveBlob? && Enabled(g, s, e)
    ensures Inv(g, Next(g, s, e))
  {
    assert ActorOk(g, s, e.p);
    var a := ActorOf(s, e.p);
    if !Refuses(a.w, e.id) {
      WriteKeepsInv(g, s, e.p, Running(Save(a.w, e.id), a.usable + {e.id}));
    }
  }

  lemma UploadKeepsInv(g: Forest, s: State, e: Event)
    requires Inv(g, s) && e.Upload? && Enabled(g, s, e)
    ensures Inv(g, Next(g, s, e))
  {
    var t := Next(g, s, e);
    assert ActorOk(g, s, e.p);
    PutPackConsistent(g, s.bucket, e.packId, e.pack);
    OthersGrow(g, s, t, e.p);
    WriterOkGrows(g, s.bucket, t.bucket, ActorOf(s, e.p).w, ActorOf(s, e.p).usable);
    assert ActorOk(g, t, e.p);
  }

  lemma FlushKeepsInv(g: Forest, s: State, e: Event)
    requires Inv(g, s) && e.Flush? && Enabled(g, s, e)
    ensures Inv(g, Next(g, s, e))
  {
    var t := Next(g, s, e);
    assert ActorOk(g, s, e.p);
    var w := ActorOf(s, e.p).w;
    PutIndexConsistent(g, s.bucket, e.indexId, e.listing, Restrict(w.newPacks, e.flushed));
    OthersGrow(g, s, t, e.p);
    WriterOkGrows(g, s.bucket, t.bucket, w, ActorOf(s, e.p).usable);
    var w' := ActorOf(t, e.p).w;
    if e.stored && e.reported && !w.failed {
      forall id | id in w'.index ensures Findable(t.bucket, w', id) {
        assert Findable(s.bucket, w, id);
        if Covered(s.bucket, id) {
          GrowsCovers(s.bucket, t.bucket);
        } else {
          var pk :| pk in w.newPacks && HasId(w.newPacks[pk], id);
          if pk in e.flushed {
            assert HasId(Restrict(w.newPacks, e.flushed)[pk], id);
          } else {
            assert HasId(w'.newPacks[pk], id);
          }
        }
      }
    }
    assert ActorOk(g, t, e.p);
  }

  /** The heart of the matter: what the run published is closed under reference, flushed,
      and therefore restorable. */
  lemma PublishedIsRestorable(g: Forest, s: State, p: Proc, root: Id)
    requires Inv(g, s) && ActorOf(s, p).Running?
    requires var w := ActorOf(s, p).w; !w.failed && w.pending == {} && w.newPacks == map[]
    requires root in ActorOf(s, p).usable && root in g
    ensures Restorable(g, s.bucket, root)
  {
    var w, usable := ActorOf(s, p).w, ActorOf(s, p).usable;
    assert ActorOk(g, s, p);
    ClosedCovers(g, usable, root);
    ClosedDecodes(g, usable, root);
    forall id | Needs(g, root, id) ensures Covered(s.bucket, id) {
      assert id in usable;
      if id in w.index { assert Findable(s.bucket, w, id); }
    }
  }

  lemma PublishKeepsInv(g: Forest, s: State, e: Event)
    requires Inv(g, s) && e.Publish? && Enabled(g, s, e)
    ensures Inv(g, Next(g, s, e))
  {
    var t := Next(g, s, e);
    assert ActorOk(g, s, e.p);
    PublishedIsRestorable(g, s, e.p, e.root);
    assert Grows(s.bucket, t.bucket);
    GrowsCovers(s.bucket, t.bucket);
    OthersGrow(g, s, t, e.p);
    WriterOkGrows(g, s.bucket, t.bucket, ActorOf(s, e.p).w, ActorOf(s, e.p).usable);
    forall ix, pk, id | Lists(t.bucket, ix, pk, id) ensures PackHolds(t.bucket, pk, id) {
      assert Lists(s.bucket, ix, pk, id);
    }
    forall x | x in t.bucket.snaps ensures Restorable(g, t.bucket, t.bucket.snaps[x]) {
      if x != e.snap { assert Restorable(g, s.bucket, s.bucket.snaps[x]); }
    }
    assert ActorOk(g, t, e.p);
  }

  lemma SweepKeepsInv(g: Forest, s: State, e: Event)
    requires Inv(g, s) && e.SweepRequest? && Enabled(g, s, e) && NoOpeningDuringSweep(s, e)
    ensures Inv(g, Next(g, s, e))
  {
    var t := Next(g, s, e);
    var a := ActorOf(s, e.p);
    assert ActorOk(g, s, e.p);
    AfterIsStepwise(g, a.base, a.plan, a.k);
    SweepIsSafe(g, a.base, a.plan, a.k + 1);
    assert ActorOk(g, t, e.p);
    forall q | q != e.p ensures ActorOk(g, t, q) {
      assert ActorOk(g, s, q);
      if ActorOf(s, q).Running? || ActorOf(s, q).Sweeping? {
        L.ExclusiveIsAlone(s.locks, e.p, q);
      }
    }
  }

  lemma NextKeepsInv(g: Forest, s: State, e: Event)
    requires ChunksAreNotTrees(g)
    requires Inv(g, s) && Enabled(g, s, e) && L.Timely(s.locks) && NoOpeningDuringSweep(s, e)
    ensures Inv(g, Next(g, s, e))
  {
    match e
    case Lock(_) => LockKeepsInv(g, s, e);
    case Open(_, _) => OpeningKeepsInv(g, s, e);
    case ChooseParent(_, _, _) => OpeningKeepsInv(g, s, e);
    case GiveUp(_) => OpeningKeepsInv(g, s, e);
    case Begin(_) => OpeningKeepsInv(g, s, e);
    case StartSweep(_, _) => OpeningKeepsInv(g, s, e);
    case Adopt(_, _) => AdoptKeepsInv(g, s, e);
    case Resume(_, _) => ResumeKeepsInv(g, s, e);
    case SaveBlob(_, _) => SaveBlobKeepsInv(g, s, e);
    case TakeIn(_, _) => TakeInKeepsInv(g, s, e);
    case Upload(_, _, _, _, _) => UploadKeepsInv(g, s, e);
    case Flush(_, _, _, _, _, _) => FlushKeepsInv(g, s, e);
    case Publish(_, _, _) => PublishKeepsInv(g, s, e);
    case SweepRequest(_) => SweepKeepsInv(g, s, e);
  }

  // ----- Whole runs -----

  function Init(clock: nat): State
  {
    State(L.Init(clock), Bucket(map[], map[], map[]), map[])
  }

  /** A run of backups and prunes from an empty repository, under the three hypotheses. */
  ghost predicate Run(g: Forest, states: seq<State>, events: seq<Event>)
  {
    && ChunksAreNotTrees(g)
    && |states| == |events| + 1
    && states[0] == Init(states[0].locks.clock)
    && (forall i :: 0 <= i < |states| ==> L.Timely(states[i].locks))
    && (forall i :: 0 <= i < |events| ==>
                      && Enabled(g, states[i], events[i]) && NoOpeningDuringSweep(states[i], events[i])
                      && states[i + 1] == Next(g, states[i], events[i]))
  }

  lemma {:induction false} RunKeepsInv(g: Forest, states: seq<State>, events: seq<Event>, i: nat)
    requires Run(g, states, events) && i < |states|
    ensures Inv(g, states[i])
    decreases i
  {
    if i == 0 {
      L.InitInv(states[0].locks.clock);
    } else {
      RunKeepsInv(g, states, events, i - 1);
      NextKeepsInv(g, states[i - 1], events[i - 1]);
    }
  }

  /** In every state of every run, whatever crashed and whoever is running, every snapshot
      object in the bucket can be restored: merging the index objects in any order finds
      each blob it needs in a pack that exists and holds it, and every directory decodes. */
  lemma {:induction false} EverySnapshotIsRestorable(g: Forest, states: seq<State>, events: seq<Event>, i: nat,
                                  order: seq<Id>, snap: Id)
    requires Run(g, states, events) && i < |states| && snap in states[i].bucket.snaps
    requires forall ix :: ix in order <==> ix in states[i].bucket.indexes
    ensures var b := states[i].bucket;
            && Decodes(g, b.snaps[snap])
            && forall id :: Needs(g, b.snaps[snap], id) ==>
                              && id in Merge(Flatten(b.indexes, order))
                              && PackHolds(b, Merge(Flatten(b.indexes, order))[id].packId, id)
  {
    RunKeepsInv(g, states, events, i);
    var b := states[i].bucket;
    assert Restorable(g, b, b.snaps[snap]);
    forall id | Needs(g, b.snaps[snap], id)
      ensures id in Merge(Flatten(b.indexes, order)) && PackHolds(b, Merge(Flatten(b.indexes, order))[id].packId, id)
    {
      ResolvesInAnyOrder(g, b, order, snap, id);
    }
  }
}
