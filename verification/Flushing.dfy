/** A backup whose writes all succeed is published. */
module Flushing {
  // `RepositoryWriter` says what is never published; this is the other side. Once every
  // `save_blob` call has returned and no put or index write has failed, `flush` goes through,
  // leaves nothing behind, and `save_snapshot` goes ahead.

  import opened Blobs
  import opened Options
  import opened RepositoryWriter

  /** The sections of `flush` and `save_snapshot`, every write succeeding. */
  function FlushEvents(s: State): seq<Event>
  {
    [FlushStart] + ([FlushOpen] + AfterOpening(s.writer, s.newPacks == map[]))
  }

  function AfterOpening(writer: Option<Open>, nothing: bool): seq<Event>
  {
    if writer.None? || writer.value.entries == [] then TakeEvents(nothing) else LandEvents(writer.value.packId)
  }

  function LandEvents(pk: Id): seq<Event>
  {
    [Put(pk, true)] + ([IndexPack(pk)] + ([Land(pk)] + TakeEvents(false)))
  }

  function TakeEvents(nothing: bool): seq<Event>
  {
    if nothing then [FlushTake] + [SnapStart, SnapCheck]
    else [FlushTake] + ([FlushSave(true)] + [SnapStart, SnapCheck])
  }

  /** Nothing is under way or has failed: every `save_blob` call has returned. */
  ghost predicate Rests(s: State)
  {
    Inv(s) && !s.failed && s.flights == map[]
  }

  /** The events can all happen, and the last of them publishes. */
  ghost predicate Publishes(s: State, es: seq<Event>)
  {
    ValidRun(s, es) && After(s, es).published == s.published + 1
  }

  lemma FirstThen(s: State, e: Event, es: seq<Event>)
    requires Enabled(s, e) && Next(s, e).published == s.published && Publishes(Next(s, e), es)
    ensures Publishes(s, [e] + es)
  {
    assert ([e] + es)[1..] == es;
  }

  lemma RestsInflight(s: State)
    requires Rests(s)
    ensures s.inflight == {}
  {
    assert forall id :: !InFlight(s.flights, id);
  }

  lemma CheckPublishes(s: State)
    requires Rests(s) && s.coord.Free? && OpenEntries(s) == [] && s.newPacks == map[]
    ensures Publishes(s, [SnapStart, SnapCheck])
  {
    RestsInflight(s);
    var t := Next(s, SnapStart);
    var u := Next(t, SnapCheck);
    assert !Unflushed(t) && u.published == s.published + 1;
    assert [SnapCheck][1..] == [] && ValidRun(u, []) && After(u, []) == u;
    assert Publishes(t, [SnapCheck]);
    FirstThen(s, SnapStart, [SnapCheck]);
    assert [SnapStart] + [SnapCheck] == [SnapStart, SnapCheck];
  }

  /** `flush` from where its own pack, if any, has landed. */
  lemma {:induction false} TakePublishes(s: State)
    requires Rests(s) && s.coord.Draining? && OpenEntries(s) == []
    ensures Publishes(s, TakeEvents(s.newPacks == map[]))
  {
    RestsInflight(s);
    var t := Next(s, FlushTake);
    NextKeepsInv(s, FlushTake);
    if s.newPacks == map[] {
      CheckPublishes(t);
      FirstThen(s, FlushTake, [SnapStart, SnapCheck]);
    } else {
      NextKeepsInv(t, FlushSave(true));
      CheckPublishes(Next(t, FlushSave(true)));
      FirstThen(t, FlushSave(true), [SnapStart, SnapCheck]);
      FirstThen(s, FlushTake, [FlushSave(true)] + [SnapStart, SnapCheck]);
    }
  }

  /** The open pack goes up and enters the index. */
  lemma {:induction false} SentPack(s: State, pk: Id)
    requires Inv(s) && !s.failed && s.coord == Finishing(pk) && OpenEntries(s) == []
    requires InStage(s, pk, Sent) && s.flights.Keys == {pk}
    ensures var t := Next(s, Put(pk, true));
            && Inv(t) && !t.failed && t.coord == Finishing(pk) && OpenEntries(t) == []
            && InStage(t, pk, Stored) && t.flights.Keys == {pk} && t.published == s.published
  {
    NextKeepsInv(s, Put(pk, true));
  }

  lemma {:induction false} IndexedPack(t: State, pk: Id)
    requires Inv(t) && !t.failed && t.coord == Finishing(pk) && OpenEntries(t) == []
    requires InStage(t, pk, Stored) && t.flights.Keys == {pk}
    ensures var u := Next(t, IndexPack(pk));
            && Inv(u) && !u.failed && u.coord == Finishing(pk) && OpenEntries(u) == []
            && InStage(u, pk, Indexed) && u.flights.Keys == {pk} && u.published == t.published
  {
    NextKeepsInv(t, IndexPack(pk));
  }

  /** And lands. */
  lemma {:induction false} LandedPack(u: State, pk: Id)
    requires Inv(u) && !u.failed && u.coord == Finishing(pk) && OpenEntries(u) == []
    requires InStage(u, pk, Indexed) && u.flights.Keys == {pk}
    ensures var v := Next(u, Land(pk));
            && Rests(v) && v.coord.Draining? && OpenEntries(v) == [] && pk in v.newPacks
            && v.published == u.published
  {
    NextKeepsInv(u, Land(pk));
    assert Next(u, Land(pk)).flights == map[];
  }

  lemma {:induction false} LandPublishes(s: State, pk: Id)
    requires Inv(s) && !s.failed && s.coord == Finishing(pk) && OpenEntries(s) == []
    requires InStage(s, pk, Sent) && s.flights.Keys == {pk}
    ensures Publishes(s, LandEvents(pk))
  {
    var t := Next(s, Put(pk, true));
    var u := Next(t, IndexPack(pk));
    SentPack(s, pk);
    IndexedPack(t, pk);
    LandedPack(u, pk);
    TakePublishes(Next(u, Land(pk)));
    FirstThen(u, Land(pk), TakeEvents(false));
    FirstThen(t, IndexPack(pk), [Land(pk)] + TakeEvents(false));
    FirstThen(s, Put(pk, true), [IndexPack(pk)] + ([Land(pk)] + TakeEvents(false)));
  }

  /** `flush` up to its first upload, or past it if there is nothing to upload. */
  lemma {:induction false} OpenedFlush(t: State)
    requires Rests(t) && t.coord.Opening?
    ensures var u := Next(t, FlushOpen);
            && OpenEntries(u) == [] && u.published == t.published && u.newPacks == t.newPacks
            && if OpenEntries(t) == [] then Rests(u) && u.coord.Draining?
               else var pk := t.writer.value.packId;
                    Inv(u) && !u.failed && u.coord == Finishing(pk) && InStage(u, pk, Sent) && u.flights.Keys == {pk}
  {
    NextKeepsInv(t, FlushOpen);
    FitsAlone(OpenEntries(t));
  }

  lemma StartedFlush(s: State)
    requires Rests(s) && s.coord.Free?
    ensures var t := Next(s, FlushStart);
            && Rests(t) && t.coord.Opening? && t.published == s.published
            && t.writer == s.writer && t.newPacks == s.newPacks
  {
    NextKeepsInv(s, FlushStart);
  }

  lemma {:induction false} OpenPublishes(t: State)
    requires Rests(t) && t.coord.Opening?
    ensures Publishes(t, [FlushOpen] + AfterOpening(t.writer, t.newPacks == map[]))
  {
    var u := Next(t, FlushOpen);
    OpenedFlush(t);
    if OpenEntries(t) == [] {
      TakePublishes(u);
    } else {
      LandPublishes(u, t.writer.value.packId);
    }
    FirstThen(t, FlushOpen, AfterOpening(t.writer, t.newPacks == map[]));
  }

  /** From any state in which nothing is under way, flushing and saving the snapshot publish. */
  lemma {:induction false} FlushPublishes(s: State)
    requires Rests(s) && s.coord.Free?
    ensures Publishes(s, FlushEvents(s))
  {
    StartedFlush(s);
    OpenPublishes(Next(s, FlushStart));
    FirstThen(s, FlushStart, [FlushOpen] + AfterOpening(s.writer, s.newPacks == map[]));
  }

  // ----- Whole runs -----

  /** Every put and every index write in the run succeeds. */
  ghost predicate AllSucceed(es: seq<Event>)
  {
    forall e :: e in es ==> (e.Put? ==> e.ok) && (e.FlushSave? ==> e.ok)
  }

  /** Only a failed write fails a handle. */
  lemma SucceedsOn(s: State, e: Event)
    requires Inv(s) && Enabled(s, e) && !s.failed && (e.Put? ==> e.ok) && (e.FlushSave? ==> e.ok)
    ensures !Next(s, e).failed
  {
    match e
    case Place(id, length, newId) =>
    case FlushOpen => FitsAlone(OpenEntries(s));
    case _ =>
  }

  lemma {:induction false} RunSucceeds(s: State, es: seq<Event>)
    requires Inv(s) && !s.failed && ValidRun(s, es) && AllSucceed(es)
    ensures !After(s, es).failed
    decreases es
  {
    if es != [] {
      SucceedsOn(s, es[0]);
      NextKeepsInv(s, es[0]);
      RunSucceeds(Next(s, es[0]), es[1..]);
    }
  }

  lemma {:induction false} RunConcat(s: State, a: seq<Event>, b: seq<Event>)
    requires ValidRun(s, a) && ValidRun(After(s, a), b)
    ensures ValidRun(s, a + b) && After(s, a + b) == After(After(s, a), b)
    decreases a
  {
    if a == [] {
      assert a + b == b;
    } else {
      assert (a + b)[1..] == a[1..] + b;
      RunConcat(Next(s, a[0]), a[1..], b);
    }
  }

  /** Any run of saves, however interleaved, in which every write succeeds: once nothing is in
      flight, `flush` and then `save_snapshot` go through and one more snapshot is published. */
  lemma {:induction false} FlushedRunPublishes(target: nat, base: set<Id>, drawn: set<Id>, es: seq<Event>)
    requires target <= TARGET_SIZE && ValidRun(Init(target, base, drawn), es) && AllSucceed(es)
    requires var s := After(Init(target, base, drawn), es); s.flights == map[] && s.coord.Free?
    ensures var s0 := Init(target, base, drawn); var s := After(s0, es);
            && ValidRun(s0, es + FlushEvents(s)) && AllSucceed(es + FlushEvents(s))
            && After(s0, es + FlushEvents(s)).published == s.published + 1
  {
    var s0 := Init(target, base, drawn);
    InitInv(target, base, drawn);
    RunRests(s0, es);
    var s := After(s0, es);
    FlushPublishes(s);
    RunConcat(s0, es, FlushEvents(s));
    FlushSucceeds(s, es);
  }

  lemma FlushSucceeds(s: State, es: seq<Event>)
    requires AllSucceed(es)
    ensures AllSucceed(es + FlushEvents(s))
  {
    var rest := AfterOpening(s.writer, s.newPacks == map[]);
    assert forall e :: e in TakeEvents(true) || e in TakeEvents(false) ==> !e.Put? && (e.FlushSave? ==> e.ok);
    assert forall e :: e in rest ==> (e.Put? ==> e.ok) && (e.FlushSave? ==> e.ok);
    assert forall e :: e in es + FlushEvents(s) ==> e in es || e in rest || e == FlushStart || e == FlushOpen;
  }

  /** Where a run that went well stands once nothing is in flight. */
  lemma {:induction false} RunRests(s0: State, es: seq<Event>)
    requires Inv(s0) && !s0.failed && ValidRun(s0, es) && AllSucceed(es) && After(s0, es).flights == map[]
    ensures Rests(After(s0, es))
  {
    RunKeepsInv(s0, es);
    RunSucceeds(s0, es);
  }
}
