/**
 `apply` as it runs: one object holding the batch, the manifest and the pinned sources,
 filled by the join loop and the action loop and emptied by `flush`. What it makes durable
 is exactly `Apply.TraceOf`, so `ApplySafety` speaks about every prefix of it.
 */
module Applier {
  import opened Options
  import opened Manifest
  import opened Records
  import opened Engine
  import opened Commits
  import opened Apply
  import opened ApplySafety
  import C = LogContents

  lemma {:induction false} PushBatch(effects: seq<Effect>, e: Effect)
    ensures Batches(effects + [e]) == FlushedIfFull(Taken(Batches(effects), e))
  {
    assert (effects + [e])[..|effects|] == effects;
  }

  class Run {
    const c: Context
    var manifest: Entries
    var deltas: seq<DeltaEntry>
    var ops: seq<BaselineOp>
    var pinned: set<Path>
    var stopped: bool
    // what has reached the bucket, the rows and the disk
    var trace: seq<Step>
    ghost var effects: seq<Effect>

    ghost function Now(): Progress
      reads this
    {
      Progress(effects, manifest, pinned, stopped)
    }

    ghost function Open(): Batch
      reads this
    {
      Batch(trace, deltas, ops)
    }

    constructor (c: Context, manifest: Entries)
      ensures this.c == c && Now() == Progress([], manifest, {}, false) && Open() == Batches([])
    {
      this.c, this.manifest := c, manifest;
      deltas, ops, trace, effects := [], [], [], [];
      pinned, stopped := {}, false;
    }

    /** One durable commit step: the delta object, then row after row. */
    method Flush()
      modifies this`trace, this`deltas, this`ops
      ensures Open() == Flushed(old(Open()))
    {
      if deltas != [] {
        trace := trace + [LogDeltas(deltas)];
        deltas := [];
      }
      assert trace == old(trace) + LogStep(old(deltas));
      ghost var was := trace;
      for i := 0 to |ops|
        invariant ops == old(ops) && deltas == []
        invariant trace == was + Rows(ops[..i])
      {
        assert Rows(ops[..i + 1]) == Rows(ops[..i]) + [SetRow(ops[i])];
        trace := trace + [SetRow(ops[i])];
      }
      assert ops[..|ops|] == ops;
      ops := [];
    }

    method Push(e: Effect)
      modifies this`trace, this`deltas, this`ops
      ensures Open() == FlushedIfFull(Taken(old(Open()), e))
    {
      trace, deltas, ops := trace + e.now, deltas + e.deltas, ops + e.ops;
      if |ops| >= FLUSH_BATCH {
        Flush();
      }
    }

    /** What one result or action contributes, and the flush once the batch is full. */
    method Add(e: Effect)
      requires Open() == Batches(effects)
      modifies this`trace, this`deltas, this`ops, this`effects
      ensures Now() == Adds(old(Now()), e) && Open() == Batches(effects)
    {
      Push(e);
      PushBatch(effects, e);
      effects := effects + [e];
    }

    /** A version that was sent: its delta, and the row change that waits for it. */
    method LogSent(path: Path, r: Uploaded, op: BaselineOp)
      requires Open() == Batches(effects)
      modifies this
      ensures Open() == Batches(effects)
      ensures var d := NewDelta(c, old(manifest), path, r);
              Now() == Adds(old(Now()), Effect([], [d], [op])).(manifest := old(manifest)[path := d])
    {
      var entry := NewDelta(c, manifest, path, r);
      manifest := manifest[path := entry];
      Add(Effect([], [entry], [op]));
    }

    /** A version that was fetched: nothing to log, only its row. */
    method LogFetched(path: Path, size: nat, mtime: int, hash: Hash, hydrated: bool)
      requires Open() == Batches(effects)
      modifies this
      ensures Open() == Batches(effects)
      ensures var marks := if hydrated then [MarkHydrated(path)] else [];
              Now() == Adds(old(Now()), Effect([], [], [Confirm(path, size, mtime, hash)] + marks))
    {
      var marks := if hydrated then [MarkHydrated(path)] else [];
      Add(Effect([], [], [Confirm(path, size, mtime, hash)] + marks));
    }

    /** One turn of the join loop. */
    method Join(j: Joined)
      requires Open() == Batches(effects)
      modifies this
      ensures Now() == JoinOne(c, old(Now()), j) && Open() == Batches(effects)
    {
      var path := j.action.path;
      match j.transfer {
        case Failed =>
          if path in c.plan.relocations {
            pinned := pinned + {c.plan.relocations[path].path};
          }
        case Deferred =>
        case Sent(r) =>
          LogSent(path, r, Confirm(path, r.size, r.mtime, r.hash));
        case Relocated(r) =>
          LogSent(path, r, PutPlaceholder(StubMeta(path, r.size, r.hash, r.objectKey, Some(r.mtime))));
        case Fetched(size, mtime, hash) =>
          LogFetched(path, size, mtime, hash, j.action.kind == Hydrate);
      }
    }

    method PutStub(path: Path)
      requires Open() == Batches(effects)
      modifies this
      ensures Now() == Stub(old(Now()), path) && Open() == Batches(effects)
    {
      if path in pinned { return; }
      if path !in manifest {
        stopped := true;
        return;
      }
      Add(Effect([], [], [PutPlaceholder(StubFor(manifest[path], path))]));
    }

    method Bury(path: Path)
      requires Open() == Batches(effects)
      modifies this
      ensures Now() == Buried(c, old(Now()), path) && Open() == Batches(effects)
    {
      if path in pinned { return; }
      var tombstones := [];
      if path in manifest {
        tombstones := [Tombstone(c, manifest[path], path)];
      }
      manifest := manifest - {path};
      Add(Effect([], tombstones, [Remove(path)]));
    }

    /** One turn of the action loop. */
    method Act(a: Action)
      requires Open() == Batches(effects) && !stopped
      modifies this
      ensures Now() == ActOne(c, old(Now()), a) && Open() == Batches(effects)
    {
      match a.kind {
        case CreatePlaceholder => PutStub(a.path);
        case UpdatePlaceholder => PutStub(a.path);
        case DeleteLocal => Add(Effect([DropFile(a.path)], [], [Remove(a.path)]));
        case DeleteRemote => Bury(a.path);
        case Conflicting => Add(Effect([SetAside(a.path)], [], []));
        case _ =>
      }
    }

    /** The join loop. */
    method JoinAll(joined: seq<Joined>)
      requires Now() == Progress([], manifest, {}, false) && Open() == Batches([])
      modifies this
      ensures Now() == AfterJoins(c, old(manifest), joined) && Open() == Batches(effects) && !stopped
    {
      for i := 0 to |joined|
        invariant Now() == AfterJoins(c, old(manifest), joined[..i]) && Open() == Batches(effects)
        invariant !stopped
      {
        assert joined[..i + 1][..i] == joined[..i];
        Join(joined[i]);
      }
      assert joined[..|joined|] == joined;
    }

    /** `apply` from the first joined transfer to the last flush. */
    method Go(joined: seq<Joined>)
      requires Now() == Progress([], manifest, {}, false) && Open() == Batches([])
      modifies this
      ensures Now() == Ended(c, old(manifest), joined)
      ensures trace == TraceOf(Ended(c, old(manifest), joined))
    {
      JoinAll(joined);
      ghost var first := Now();
      var n := 0;
      while n < |c.plan.actions| && !stopped
        invariant n <= |c.plan.actions|
        invariant Now() == AfterActions(c, first, c.plan.actions[..n]) && Open() == Batches(effects)
      {
        assert c.plan.actions[..n + 1][..n] == c.plan.actions[..n];
        Act(c.plan.actions[n]);
        n := n + 1;
      }
      if stopped {
        StoppedStays(c, first, c.plan.actions, n);
        return;
      }
      assert c.plan.actions[..n] == c.plan.actions;
      Flush();
    }
  }

  lemma {:induction false} StoppedStays(c: Context, p: Progress, actions: seq<Action>, n: nat)
    requires n <= |actions| && AfterActions(c, p, actions[..n]).stopped
    ensures AfterActions(c, p, actions) == AfterActions(c, p, actions[..n])
    decreases |actions|
  {
    if n < |actions| {
      var init := actions[..|actions| - 1];
      assert init[..n] == actions[..n];
      StoppedStays(c, p, init, n);
    } else {
      assert actions[..n] == actions;
    }
  }

  /** `apply` refuses a plan that downloads or relocates something the manifest or the plan
      does not have; nothing is durable then. */
  method ApplyPlan(c: Context, manifest: Entries, joined: seq<Joined>) returns (ok: bool, trace: seq<Step>)
    ensures ok <==> forall a :: a in c.plan.actions ==>
                      (a.kind == Download || a.kind == Hydrate ==> a.path in manifest)
                          && (a.kind == Relocate ==> a.path in c.plan.relocations)
    ensures trace == if ok then TraceOf(Ended(c, manifest, joined)) else []
    ensures ok && !Ended(c, manifest, joined).stopped ==>
              forall i :: 0 <= i < |joined| && C.Sends(joined[i]) ==>
                            C.AnnouncedIn(c, manifest, joined, i, LoggedIn(trace))
  {
    for i := 0 to |c.plan.actions|
      invariant forall a :: a in c.plan.actions[..i] ==>
                  (a.kind == Download || a.kind == Hydrate ==> a.path in manifest)
                      && (a.kind == Relocate ==> a.path in c.plan.relocations)
    {
      var a := c.plan.actions[i];
      assert a in c.plan.actions;
      if (a.kind == Download || a.kind == Hydrate) && a.path !in manifest { return false, []; }
      if a.kind == Relocate && a.path !in c.plan.relocations { return false, []; }
    }
    var run := new Run(c, manifest);
    run.Go(joined);
    if !Ended(c, manifest, joined).stopped {
      forall i | 0 <= i < |joined| && C.Sends(joined[i])
        ensures C.AnnouncedIn(c, manifest, joined, i, LoggedIn(run.trace)) {
        C.SentIsLogged(c, manifest, joined, i);
      }
    }
    return true, run.trace;
  }
}
