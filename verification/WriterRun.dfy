/**
 The writer inside the protocol: whatever the other processes do meanwhile, the sections a
 backup's `Repository` goes through are, one after the other, events `BackupProtocol` allows.
 What the writer does not decide itself, such as the names drawn at random, the objects a
 request leaves behind and the order in which the archiver saves blobs, comes with each turn.
 */
module WriterRun {
  import opened Blobs
  import opened Index
  import opened Store
  import opened WriterModel
  import B = BackupProtocol
  import L = Locking
  import W = RepositoryWriter

  /** What a section leaves to the bucket: the object a put makes, whether it got there and
      whether the process was told so. */
  datatype Met = Met(pack: Pack, indexId: Id, listing: seq<PackEntries>, snap: Id, root: Id, stored: bool,
                     reported: bool)

  /** One section of the process, or an event that leaves its run alone: another process's, or
      a lock request of its own. */
  datatype Turn = Own(section: W.Event, met: Met) | Other(event: B.Event)

  /** The section hands the ID back to its caller at once, or pushes the blob. */
  predicate Takes(s: W.State, e: W.Event)
    requires W.Enabled(s, e)
  {
    match e
    case CheckIndex(id) => id in s.index
    case CheckPending(id) => !s.failed && W.IsPending(s, id)
    case Place(id, length, newId) =>
      (!s.failed && (id in s.index || W.IsPending(s, id))) || W.Placed(s, id, length, newId).packed != s.packed
    case _ => false
  }

  /** The protocol's event for a turn, if it has one. */
  function EventOf(p: B.Proc, s: W.State, turn: Turn): (r: seq<B.Event>)
    requires turn.Own? ==> W.Enabled(s, turn.section)
    ensures |r| <= 1
  {
    match turn
    case Other(event) => [event]
    case Own(e, x) =>
      match e
      case CheckIndex(id) => if Takes(s, e) then [B.SaveBlob(p, id)] else []
      case CheckPending(id) => if Takes(s, e) then [B.SaveBlob(p, id)] else []
      case Place(id, _, _) => if Takes(s, e) then [B.SaveBlob(p, id)] else []
      case Put(pk, ok) => [B.Upload(p, pk, x.pack, x.stored, ok)]
      case IndexPack(pk) => [B.TakeIn(p, pk)]
      case AdoptIndex(pk, _) => [B.Adopt(p, pk)]
      case FlushSave(_) => [B.Flush(p, x.indexId, s.coord.packs.Keys, x.listing, x.stored, x.reported)]
      case SnapCheck => if !W.Unflushed(s) && x.stored then [B.Publish(p, x.snap, x.root)] else []
      case _ => []
  }

  function SectionOf(s: W.State, turn: Turn): W.State
    requires turn.Own? ==> W.Enabled(s, turn.section)
  {
    if turn.Own? then W.Next(s, turn.section) else s
  }

  /** The process runs in the protocol as its sections say, and the bucket has its packs. */
  ghost predicate Coupled(b: B.State, p: B.Proc, s: W.State)
  {
    && B.ActorOf(b, p).Running? && B.ActorOf(b, p).w == W.Summary(s)
    && forall pk :: pk in s.stored ==> pk in b.bucket.packs && b.bucket.packs[pk].entries == s.stored[pk]
  }

  /** The lock is held and no refresh has found it gone. */
  predicate KeepsLock(b: B.State, p: B.Proc)
  {
    L.Holds(b.locks, p) && !L.PhaseOf(b.locks, p).lost
  }

  /** A directory is saved after everything in it. */
  ghost predicate ChildrenFirst(g: Forest, usable: set<Id>, id: Id)
  {
    id in g ==> (forall x :: Refers(g[id], x) ==> x in usable) && forall u :: Dir(u) in g[id] ==> u in g
  }

  /** What is not the writer's own doing: names drawn at random are new, an object holds what
      was sent, the archiver goes children first, and a snapshot is written under the lock. */
  ghost predicate Faces(g: Forest, b: B.State, p: B.Proc, s: W.State, e: W.Event, x: Met)
    requires B.ActorOf(b, p).Running? && W.Enabled(s, e)
  {
    var usable := B.ActorOf(b, p).usable;
    match e
    case CheckIndex(id) => Takes(s, e) ==> ChildrenFirst(g, usable, id)
    case CheckPending(id) => Takes(s, e) ==> ChildrenFirst(g, usable, id)
    case Place(id, _, _) => Takes(s, e) ==> ChildrenFirst(g, usable, id)
    case Put(pk, ok) => pk !in b.bucket.packs && x.pack.entries == s.flights[pk].entries && (ok ==> x.stored)
    case AdoptIndex(pk, entries) => pk in b.bucket.packs && b.bucket.packs[pk].entries == entries
    case FlushSave(ok) =>
      x.indexId !in b.bucket.indexes && ListsExactly(x.listing, s.coord.packs) && ok == (x.stored && x.reported)
    case SnapCheck =>
      x.stored ==> x.snap !in b.bucket.snaps && x.root in usable && x.root in g && KeepsLock(b, p)
    case _ => true
  }

  ghost predicate May(g: Forest, b: B.State, p: B.Proc, s: W.State, turn: Turn)
    requires B.ActorOf(b, p).Running?
  {
    match turn
    case Own(e, x) => W.Enabled(s, e) && Faces(g, b, p, s, e, x)
    case Other(event) =>
      && B.Enabled(g, b, event) && B.NoOpeningDuringSweep(b, event)
      && B.ActorOf(B.Next(g, b, event), p) == B.ActorOf(b, p)
  }

  ghost function MovedBy(g: Forest, b: B.State, es: seq<B.Event>): B.State
  {
    if es != [] && B.Enabled(g, b, es[0]) then B.Next(g, b, es[0]) else b
  }

  // ----- One section -----

  lemma StaysCoupled(b: B.State, p: B.Proc, s: W.State, t: W.State)
    requires Coupled(b, p, s) && t.stored == s.stored && W.Summary(t) == W.Summary(s)
    ensures Coupled(b, p, t)
  {
  }

  lemma SaveCouples(g: Forest, b: B.State, p: B.Proc, s: W.State, t: W.State, id: Id)
    requires Coupled(b, p, s) && ChildrenFirst(g, B.ActorOf(b, p).usable, id) && !Refuses(W.Summary(s), id)
    requires t.stored == s.stored && W.Summary(t) == Save(W.Summary(s), id)
    ensures B.Enabled(g, b, B.SaveBlob(p, id)) && Coupled(B.Next(g, b, B.SaveBlob(p, id)), p, t)
  {
  }

  /** A section is an event the protocol allows, or none, and leaves the two in step. */
  ghost predicate InStep(g: Forest, b: B.State, p: B.Proc, s: W.State, e: W.Event, x: Met)
    requires W.Enabled(s, e)
  {
    var es := EventOf(p, s, Own(e, x));
    && (es != [] ==> B.Enabled(g, b, es[0]) && !es[0].SweepRequest?)
    && Coupled(MovedBy(g, b, es), p, W.Next(s, e))
  }

  lemma CheckIndexCouples(g: Forest, b: B.State, p: B.Proc, s: W.State, id: Id, x: Met)
    requires Coupled(b, p, s) && Faces(g, b, p, s, W.CheckIndex(id), x)
    ensures InStep(g, b, p, s, W.CheckIndex(id), x)
  {
    var t := W.Next(s, W.CheckIndex(id));
    W.SameSummary(s, t);
    if id in s.index {
      SaveCouples(g, b, p, s, t, id);
    } else {
      StaysCoupled(b, p, s, t);
    }
  }

  lemma CheckPendingCouples(g: Forest, b: B.State, p: B.Proc, s: W.State, id: Id, x: Met)
    requires Coupled(b, p, s) && Faces(g, b, p, s, W.CheckPending(id), x)
    ensures InStep(g, b, p, s, W.CheckPending(id), x)
  {
    var t := W.Next(s, W.CheckPending(id));
    W.SameSummary(s, t);
    if !s.failed && W.IsPending(s, id) {
      SaveCouples(g, b, p, s, t, id);
    } else {
      StaysCoupled(b, p, s, t);
    }
  }

  lemma PlacedMoves(s: W.State, e: W.Event)
    requires W.Inv(s) && W.Enabled(s, e) && e.Place?
    ensures W.Next(s, e).stored == s.stored
    ensures Takes(s, e) ==> !Refuses(W.Summary(s), e.id) && W.Summary(W.Next(s, e)) == Save(W.Summary(s), e.id)
    ensures !Takes(s, e) ==> W.Summary(W.Next(s, e)) == W.Summary(s)
  {
    W.Refines(s, e);
    W.MovesAreAllowed(s, e);
    if W.Placed(s, e.id, e.length, e.newId).packed == s.packed && Takes(s, e) {
      assert e.id in s.index || W.IsPending(s, e.id);
    }
  }

  lemma StepsWith(g: Forest, b: B.State, p: B.Proc, s: W.State, e: W.Event, x: Met, event: B.Event)
    requires W.Enabled(s, e) && EventOf(p, s, Own(e, x)) == [event] && !event.SweepRequest?
    requires B.Enabled(g, b, event) && Coupled(B.Next(g, b, event), p, W.Next(s, e))
    ensures InStep(g, b, p, s, e, x)
  {
  }

  lemma PlaceCouples(g: Forest, b: B.State, p: B.Proc, s: W.State, e: W.Event, x: Met)
    requires W.Inv(s) && Coupled(b, p, s) && W.Enabled(s, e) && Faces(g, b, p, s, e, x) && e.Place?
    ensures InStep(g, b, p, s, e, x)
  {
    PlacedMoves(s, e);
    if Takes(s, e) {
      SaveCouples(g, b, p, s, W.Next(s, e), e.id);
      StepsWith(g, b, p, s, e, x, B.SaveBlob(p, e.id));
    } else {
      StaysCoupled(b, p, s, W.Next(s, e));
    }
  }

  /** A put that ended; if the process was told that the pack is up, it is. */
  lemma UploadCouples(g: Forest, b: B.State, p: B.Proc, s: W.State, t: W.State, event: B.Event)
    requires Coupled(b, p, s) && event.Upload? && event.p == p && B.Enabled(g, b, event)
    requires var w := W.Summary(s);
             W.Summary(t) == if event.ok then w else Uploaded(w, event.packId, event.pack.entries, false)
    requires t.stored == if event.ok then s.stored[event.packId := event.pack.entries] else s.stored
    ensures Coupled(B.Next(g, b, event), p, t)
  {
  }

  lemma PutCouples(g: Forest, b: B.State, p: B.Proc, s: W.State, e: W.Event, x: Met)
    requires W.Inv(s) && Coupled(b, p, s) && W.Enabled(s, e) && Faces(g, b, p, s, e, x) && e.Put?
    ensures InStep(g, b, p, s, e, x)
  {
    W.Refines(s, e);
    W.MovesAreAllowed(s, e);
    UploadCouples(g, b, p, s, W.Next(s, e), B.Upload(p, e.packId, x.pack, x.stored, e.ok));
  }

  lemma TakeInCouples(g: Forest, b: B.State, p: B.Proc, s: W.State, t: W.State, pk: Id, entries: seq<Entry>)
    requires Coupled(b, p, s) && pk in s.stored && s.stored[pk] == entries && IdsOf(entries) <= W.Summary(s).pending
    requires t.stored == s.stored && W.Summary(t) == Uploaded(W.Summary(s), pk, entries, true)
    ensures B.Enabled(g, b, B.TakeIn(p, pk)) && Coupled(B.Next(g, b, B.TakeIn(p, pk)), p, t)
  {
  }

  lemma RecordedMoves(s: W.State, e: W.Event)
    requires W.Inv(s) && W.Enabled(s, e) && e.IndexPack?
    ensures var entries := s.flights[e.packId].entries; var t := W.Next(s, e);
            && e.packId in s.stored && s.stored[e.packId] == entries && IdsOf(entries) <= W.Summary(s).pending
            && t.stored == s.stored && W.Summary(t) == Uploaded(W.Summary(s), e.packId, entries, true)
  {
    W.Refines(s, e);
    W.MovesAreAllowed(s, e);
  }

  lemma IndexPackCouples(g: Forest, b: B.State, p: B.Proc, s: W.State, e: W.Event, x: Met)
    requires W.Inv(s) && Coupled(b, p, s) && W.Enabled(s, e) && Faces(g, b, p, s, e, x) && e.IndexPack?
    ensures InStep(g, b, p, s, e, x)
  {
    RecordedMoves(s, e);
    TakeInCouples(g, b, p, s, W.Next(s, e), e.packId, s.flights[e.packId].entries);
    StepsWith(g, b, p, s, e, x, B.TakeIn(p, e.packId));
  }

  lemma AdoptCouples(g: Forest, b: B.State, p: B.Proc, s: W.State, e: W.Event, x: Met)
    requires W.Inv(s) && Coupled(b, p, s) && W.Enabled(s, e) && Faces(g, b, p, s, e, x) && e.AdoptIndex?
    ensures InStep(g, b, p, s, e, x)
  {
    W.Refines(s, e);
  }

  lemma SavingMoves(s: W.State, e: W.Event)
    requires W.Inv(s) && W.Enabled(s, e) && e.FlushSave?
    ensures var w, packs, t := W.Summary(s), s.coord.packs, W.Next(s, e);
            && packs.Keys <= w.newPacks.Keys && Restrict(w.newPacks, packs.Keys) == packs
            && t.stored == s.stored && W.Summary(t) == Flushed(w, packs.Keys, e.ok)
  {
    W.Refines(s, e);
    W.MovesAreAllowed(s, e);
  }

  lemma IndexCouples(g: Forest, b: B.State, p: B.Proc, s: W.State, t: W.State, event: B.Event)
    requires Coupled(b, p, s) && event.Flush? && event.p == p && B.Enabled(g, b, event)
    requires t.stored == s.stored
    requires W.Summary(t) == Flushed(W.Summary(s), event.flushed, event.stored && event.reported)
    ensures Coupled(B.Next(g, b, event), p, t)
  {
  }

  lemma FlushCouples(g: Forest, b: B.State, p: B.Proc, s: W.State, e: W.Event, x: Met)
    requires W.Inv(s) && Coupled(b, p, s) && W.Enabled(s, e) && Faces(g, b, p, s, e, x) && e.FlushSave?
    ensures InStep(g, b, p, s, e, x)
  {
    SavingMoves(s, e);
    var event := B.Flush(p, x.indexId, s.coord.packs.Keys, x.listing, x.stored, x.reported);
    IndexCouples(g, b, p, s, W.Next(s, e), event);
    StepsWith(g, b, p, s, e, x, event);
  }

  lemma CheckedMoves(s: W.State, e: W.Event)
    requires W.Inv(s) && W.Enabled(s, e) && e.SnapCheck?
    ensures W.Next(s, e).stored == s.stored && W.Summary(W.Next(s, e)) == W.Summary(s)
    ensures var w := W.Summary(s); !W.Unflushed(s) ==> !w.failed && w.pending == {} && w.newPacks == map[]
  {
    W.Refines(s, e);
    W.MovesAreAllowed(s, e);
  }

  lemma SnapCouples(g: Forest, b: B.State, p: B.Proc, s: W.State, t: W.State, event: B.Event)
    requires Coupled(b, p, s) && Coupled(b, p, t) && event.Publish? && event.p == p && B.Enabled(g, b, event)
    ensures Coupled(B.Next(g, b, event), p, t)
  {
  }

  lemma PublishCouples(g: Forest, b: B.State, p: B.Proc, s: W.State, e: W.Event, x: Met)
    requires W.Inv(s) && Coupled(b, p, s) && W.Enabled(s, e) && Faces(g, b, p, s, e, x) && e.SnapCheck?
    ensures InStep(g, b, p, s, e, x)
  {
    CheckedMoves(s, e);
    StaysCoupled(b, p, s, W.Next(s, e));
    if !W.Unflushed(s) && x.stored {
      SnapCouples(g, b, p, s, W.Next(s, e), B.Publish(p, x.snap, x.root));
      StepsWith(g, b, p, s, e, x, B.Publish(p, x.snap, x.root));
    }
  }

  lemma QuietStored(s: W.State, e: W.Event)
    requires W.Enabled(s, e)
    requires e.Land? || e.AdoptPush? || e.FlushStart? || e.FlushOpen? || e.FlushTake? || e.SnapStart?
    ensures W.Next(s, e).stored == s.stored
  {
    match e
    case Land(pk) => assert W.Landed(s, pk).stored == s.stored;
    case AdoptPush => assert W.AdoptedPushed(s).stored == s.stored;
    case FlushOpen => assert W.FlushOpened(s).stored == s.stored;
    case FlushTake => assert W.FlushTaken(s).stored == s.stored;
    case _ =>
  }

  lemma QuietCouples(g: Forest, b: B.State, p: B.Proc, s: W.State, e: W.Event, x: Met)
    requires W.Inv(s) && Coupled(b, p, s) && W.Enabled(s, e)
    requires e.Land? || e.AdoptPush? || e.FlushStart? || e.FlushOpen? || e.FlushTake? || e.SnapStart?
    ensures InStep(g, b, p, s, e, x)
  {
    W.Refines(s, e);
    QuietStored(s, e);
    StaysCoupled(b, p, s, W.Next(s, e));
  }

  lemma SectionCouples(g: Forest, b: B.State, p: B.Proc, s: W.State, e: W.Event, x: Met)
    requires W.Inv(s) && Coupled(b, p, s) && W.Enabled(s, e) && Faces(g, b, p, s, e, x)
    ensures InStep(g, b, p, s, e, x)
  {
    match e
    case CheckIndex(id) => CheckIndexCouples(g, b, p, s, id, x);
    case CheckPending(id) => CheckPendingCouples(g, b, p, s, id, x);
    case Place(_, _, _) => PlaceCouples(g, b, p, s, e, x);
    case Put(_, _) => PutCouples(g, b, p, s, e, x);
    case IndexPack(_) => IndexPackCouples(g, b, p, s, e, x);
    case AdoptIndex(_, _) => AdoptCouples(g, b, p, s, e, x);
    case FlushSave(_) => FlushCouples(g, b, p, s, e, x);
    case SnapCheck => PublishCouples(g, b, p, s, e, x);
    case _ => QuietCouples(g, b, p, s, e, x);
  }

  lemma PacksStay(g: Forest, b: B.State, event: B.Event)
    requires B.Enabled(g, b, event) && !event.SweepRequest?
    ensures forall pk :: pk in b.bucket.packs ==>
              pk in B.Next(g, b, event).bucket.packs && B.Next(g, b, event).bucket.packs[pk] == b.bucket.packs[pk]
  {
  }

  /** No sweep goes on while the process runs: it would need the lock alone. */
  lemma NoSweepMeanwhile(g: Forest, b: B.State, p: B.Proc, event: B.Event)
    requires B.Inv(g, b) && B.ActorOf(b, p).Running? && B.Enabled(g, b, event)
    ensures !event.SweepRequest?
  {
    assert B.ActorOk(g, b, p);
    if event.SweepRequest? {
      assert B.ActorOk(g, b, event.p);
      L.ExclusiveIsAlone(b.locks, event.p, p);
    }
  }

  /** Nothing another process does takes a stored pack away. */
  lemma OtherCouples(g: Forest, b: B.State, p: B.Proc, s: W.State, event: B.Event)
    requires B.Inv(g, b) && Coupled(b, p, s) && May(g, b, p, s, Other(event))
    ensures Coupled(B.Next(g, b, event), p, s)
  {
    NoSweepMeanwhile(g, b, p, event);
    PacksStay(g, b, event);
  }

  // ----- Whole runs -----

  /** The protocol's states as the turns go by, each of which is open where it is taken. */
  ghost predicate Runs(g: Forest, b: B.State, p: B.Proc, s: W.State, turns: seq<Turn>)
    decreases turns
  {
    && L.Timely(b.locks)
    && (turns != [] ==>
          && B.ActorOf(b, p).Running? && May(g, b, p, s, turns[0])
          && Runs(g, MovedBy(g, b, EventOf(p, s, turns[0])), p, SectionOf(s, turns[0]), turns[1..]))
  }

  lemma TurnCouples(g: Forest, b: B.State, p: B.Proc, s: W.State, turn: Turn)
    requires ChunksAreNotTrees(g) && L.Timely(b.locks)
    requires B.Inv(g, b) && W.Inv(s) && Coupled(b, p, s) && May(g, b, p, s, turn)
    ensures var es := EventOf(p, s, turn); var next := MovedBy(g, b, es);
            && (es != [] ==> B.Enabled(g, b, es[0]) && B.NoOpeningDuringSweep(b, es[0]))
            && B.Inv(g, next) && W.Inv(SectionOf(s, turn)) && Coupled(next, p, SectionOf(s, turn))
  {
    var es := EventOf(p, s, turn);
    if turn.Own? {
      SectionCouples(g, b, p, s, turn.section, turn.met);
      assert InStep(g, b, p, s, turn.section, turn.met);
      W.NextKeepsInv(s, turn.section);
    } else {
      OtherCouples(g, b, p, s, turn.event);
    }
    if es != [] { B.NextKeepsInv(g, b, es[0]); }
  }

  /** States and events in a row, each event open where it comes. */
  ghost predicate Steps(g: Forest, states: seq<B.State>, events: seq<B.Event>)
  {
    && |states| == |events| + 1
    && forall i :: 0 <= i < |events| ==>
         B.Enabled(g, states[i], events[i]) && B.NoOpeningDuringSweep(states[i], events[i])
         && states[i + 1] == B.Next(g, states[i], events[i])
  }

  lemma StepFirst(g: Forest, b: B.State, event: B.Event, states: seq<B.State>, events: seq<B.Event>)
    requires Steps(g, states, events) && B.Enabled(g, b, event) && B.NoOpeningDuringSweep(b, event)
    requires states[0] == B.Next(g, b, event)
    ensures Steps(g, [b] + states, [event] + events)
  {
    var ss, es := [b] + states, [event] + events;
    forall i | 0 <= i < |es|
      ensures B.Enabled(g, ss[i], es[i]) && B.NoOpeningDuringSweep(ss[i], es[i])
              && ss[i + 1] == B.Next(g, ss[i], es[i]) {
      if i > 0 { assert es[i] == events[i - 1] && ss[i] == states[i - 1]; }
    }
  }

  /** The process's own sections among the turns. */
  function SectionsOf(turns: seq<Turn>): seq<W.Event>
  {
    if turns == [] then []
    else if turns[0].Own? then [turns[0].section] + SectionsOf(turns[1..]) else SectionsOf(turns[1..])
  }

  /** The events are a run of the protocol, the turns' sections one of the writer, and at the
      end the two are in step. */
  ghost predicate Together(g: Forest, b: B.State, p: B.Proc, s: W.State, turns: seq<Turn>, states: seq<B.State>,
                           events: seq<B.Event>)
  {
    && Steps(g, states, events) && states[0] == b
    && W.ValidRun(s, SectionsOf(turns)) && Coupled(states[|events|], p, W.After(s, SectionsOf(turns)))
  }

  lemma SectionFirst(s: W.State, turns: seq<Turn>)
    requires turns != [] && (turns[0].Own? ==> W.Enabled(s, turns[0].section))
    requires W.ValidRun(SectionOf(s, turns[0]), SectionsOf(turns[1..]))
    ensures W.ValidRun(s, SectionsOf(turns))
    ensures W.After(s, SectionsOf(turns)) == W.After(SectionOf(s, turns[0]), SectionsOf(turns[1..]))
  {
    if turns[0].Own? {
      assert SectionsOf(turns)[1..] == SectionsOf(turns[1..]);
    }
  }

  lemma {:induction false} TurnFirst(g: Forest, b: B.State, p: B.Proc, s: W.State, turns: seq<Turn>,
                                     states: seq<B.State>, events: seq<B.Event>)
    requires turns != [] && (turns[0].Own? ==> W.Enabled(s, turns[0].section))
    requires var es := EventOf(p, s, turns[0]);
             && (es != [] ==> B.Enabled(g, b, es[0]) && B.NoOpeningDuringSweep(b, es[0]))
             && Together(g, MovedBy(g, b, es), p, SectionOf(s, turns[0]), turns[1..], states, events)
    ensures var es := EventOf(p, s, turns[0]);
            Together(g, b, p, s, turns, if es == [] then states else [b] + states, es + events)
  {
    var es := EventOf(p, s, turns[0]);
    SectionFirst(s, turns);
    if es == [] {
      assert es + events == events;
    } else {
      StepFirst(g, b, es[0], states, events);
      assert es == [es[0]];
    }
  }

  /** Whatever happens meanwhile, the sections of one process are a run of the protocol: every
      event is enabled where it comes, and the two stay in step to the end. */
  lemma {:induction false} SectionsAreARun(g: Forest, b: B.State, p: B.Proc, s: W.State, turns: seq<Turn>)
    returns (states: seq<B.State>, events: seq<B.Event>)
    requires ChunksAreNotTrees(g) && B.Inv(g, b) && W.Inv(s) && Coupled(b, p, s) && Runs(g, b, p, s, turns)
    ensures Together(g, b, p, s, turns, states, events)
    decreases turns
  {
    if turns == [] {
      states, events := [b], [];
    } else {
      var es := EventOf(p, s, turns[0]);
      TurnCouples(g, b, p, s, turns[0]);
      states, events := SectionsAreARun(g, MovedBy(g, b, es), p, SectionOf(s, turns[0]), turns[1..]);
      TurnFirst(g, b, p, s, turns, states, events);
      states, events := if es == [] then states else [b] + states, es + events;
    }
  }

  /** Where a backup begins: a handle just opened is in step with a run just begun. */
  lemma BegunIsCoupled(g: Forest, b: B.State, p: B.Proc, target: nat, drawn: set<Id>)
    requires B.Enabled(g, b, B.Begin(p)) && target <= W.TARGET_SIZE
    ensures var s := W.Init(target, B.ActorOf(b, p).index, drawn);
            W.Inv(s) && Coupled(B.Next(g, b, B.Begin(p)), p, s)
  {
    W.InitInv(target, B.ActorOf(b, p).index, drawn);
  }
}
