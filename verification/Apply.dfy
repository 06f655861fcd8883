/**
 `apply`: transfers are joined in whatever order they finish, then metadata and deletes run
 in plan order. Each result adds deltas and row changes to the current batch; a flush logs
 the batch's deltas in one object and only then changes the rows. A crash, or an error
 anywhere, leaves a prefix of the trace.
 */
module Apply {
  import opened Ordering
  import opened Options
  import opened Manifest
  import opened Records
  import opened Engine
  import opened Commits

  const FLUSH_BATCH: nat := 25

  datatype Uploaded = Uploaded(objectKey: Text, hash: Hash, size: nat, mtime: int)

  /** How a transfer task ended. `Deferred`: the file changed while it was hashed. */
  datatype Transfer =
    | Failed
    | Deferred
    | Sent(result: Uploaded)
    | Relocated(result: Uploaded)
    | Fetched(size: nat, mtime: int, hash: Hash)

  datatype Joined = Joined(action: Action, transfer: Transfer)

  datatype Step =
    | LogDeltas(deltas: seq<DeltaEntry>)
    | SetRow(op: BaselineOp)
    | DropFile(path: Path)
    | SetAside(path: Path)

  /** What one result or action adds: to the trace at once, and to the current batch. */
  datatype Effect = Effect(now: seq<Step>, deltas: seq<DeltaEntry>, ops: seq<BaselineOp>)

  /** The constants of one call. */
  datatype Context = Context(plan: Plan, lamport: nat, device: Device, time: nat)

  /** Where a call is: the effects so far, its manifest, the sources a failed relocation
      pins, and whether an error has stopped it. */
  datatype Progress = Progress(effects: seq<Effect>, manifest: Entries, pinned: set<Path>, stopped: bool)

  function NewDelta(c: Context, m: Entries, p: Path, r: Uploaded): DeltaEntry
  {
    DeltaEntry(p, r.objectKey, r.hash, r.size, c.time, false, 0, c.lamport, c.device,
               if p in m then Some(m[p].hash) else None)
  }

  function Tombstone(c: Context, e: DeltaEntry, p: Path): DeltaEntry
  {
    DeltaEntry(p, e.objectKey, e.hash, e.size, e.mtime, true, c.time, c.lamport, c.device, Some(e.hash))
  }

  function Adds(p: Progress, e: Effect): Progress
  {
    p.(effects := p.effects + [e])
  }

  /** One joined transfer. */
  function JoinOne(c: Context, p: Progress, j: Joined): Progress
  {
    var path := j.action.path;
    match j.transfer
    case Failed =>
      if path in c.plan.relocations then p.(pinned := p.pinned + {c.plan.relocations[path].path}) else p
    case Deferred => p
    case Sent(r) =>
      var d := NewDelta(c, p.manifest, path, r);
      Adds(p, Effect([], [d], [Confirm(path, r.size, r.mtime, r.hash)])).(manifest := p.manifest[path := d])
    case Relocated(r) =>
      var d := NewDelta(c, p.manifest, path, r);
      Adds(p, Effect([], [d], [PutPlaceholder(StubMeta(path, r.size, r.hash, r.objectKey, Some(r.mtime)))]))
      .(manifest := p.manifest[path := d])
    case Fetched(size, mtime, hash) =>
      Adds(p, Effect([], [], [Confirm(path, size, mtime, hash)] + if j.action.kind
                                                                  == Hydrate then [MarkHydrated(path)] else []))
  }

  /** One action of the second phase. */
  function ActOne(c: Context, p: Progress, a: Action): Progress
  {
    if p.stopped then p
    else
      match a.kind
      case CreatePlaceholder => Stub(p, a.path)
      case UpdatePlaceholder => Stub(p, a.path)
      case DeleteLocal => Adds(p, Effect([DropFile(a.path)], [], [Remove(a.path)]))
      case DeleteRemote => Buried(c, p, a.path)
      case Conflicting => Adds(p, Effect([SetAside(a.path)], [], []))
      case _ => p
  }

  function StubFor(e: DeltaEntry, p: Path): StubMeta
  {
    var ns := e.mtime * 1_000_000_000;
    StubMeta(p, e.size, e.hash, e.objectKey, if 0 < ns < 0x8000_0000_0000_0000 then Some(ns) else None)
  }

  function Stub(p: Progress, path: Path): Progress
  {
    if path in p.pinned then p
    else if path !in p.manifest then p.(stopped := true)
    else Adds(p, Effect([], [], [PutPlaceholder(StubFor(p.manifest[path], path))]))
  }

  /** Tombstone only, and not while a failed relocation needs the version. */
  function Buried(c: Context, p: Progress, path: Path): Progress
  {
    if path in p.pinned then p
    else
      Adds(p, Effect([], if path in p.manifest then [Tombstone(c, p.manifest[path], path)] else [], [Remove(path)]))
      .(manifest := p.manifest - {path})
  }

  function AfterJoins(c: Context, m: Entries, joined: seq<Joined>): Progress
  {
    if joined == [] then Progress([], m, {}, false)
    else JoinOne(c, AfterJoins(c, m, joined[..|joined| - 1]), joined[|joined| - 1])
  }

  function AfterActions(c: Context, p: Progress, actions: seq<Action>): Progress
  {
    if actions == [] then p
    else ActOne(c, AfterActions(c, p, actions[..|actions| - 1]), actions[|actions| - 1])
  }

  // ----- Batches -----

  datatype Batch = Batch(trace: seq<Step>, deltas: seq<DeltaEntry>, ops: seq<BaselineOp>)

  function Rows(ops: seq<BaselineOp>): seq<Step>
  {
    seq(|ops|, i requires 0 <= i < |ops| => SetRow(ops[i]))
  }

  function LogStep(deltas: seq<DeltaEntry>): seq<Step>
  {
    if deltas == [] then [] else [LogDeltas(deltas)]
  }

  function Flushed(b: Batch): Batch
  {
    Batch(b.trace + LogStep(b.deltas) + Rows(b.ops), [], [])
  }

  function Taken(b: Batch, e: Effect): Batch
  {
    Batch(b.trace + e.now, b.deltas + e.deltas, b.ops + e.ops)
  }

  function FlushedIfFull(b: Batch): Batch
  {
    if |b.ops| >= FLUSH_BATCH then Flushed(b) else b
  }

  function Batches(effects: seq<Effect>): Batch
  {
    if effects == [] then Batch([], [], [])
    else FlushedIfFull(Taken(Batches(effects[..|effects| - 1]), effects[|effects| - 1]))
  }

  /** Everything a call makes durable, in order. An error stops it before the last flush. */
  function TraceOf(p: Progress): seq<Step>
  {
    if p.stopped then Batches(p.effects).trace else Flushed(Batches(p.effects)).trace
  }

  function DeltasOf(effects: seq<Effect>): seq<DeltaEntry>
  {
    if effects == [] then [] else DeltasOf(effects[..|effects| - 1]) + effects[|effects| - 1].deltas
  }

  function OpsOf(effects: seq<Effect>): seq<BaselineOp>
  {
    if effects == [] then [] else OpsOf(effects[..|effects| - 1]) + effects[|effects| - 1].ops
  }

  /** The deltas a trace has logged, in order. */
  function LoggedIn(trace: seq<Step>): seq<DeltaEntry>
  {
    if trace == [] then []
    else
      LoggedIn(trace[..|trace| - 1]) + if trace[|trace| - 1].LogDeltas? then trace[|trace| - 1].deltas else []
  }

  /** The row changes a trace has made, in order, leaving out conflicts' own. */
  function RowsIn(trace: seq<Step>): seq<BaselineOp>
  {
    if trace == [] then []
    else RowsIn(trace[..|trace| - 1]) + if trace[|trace| - 1].SetRow? then [trace[|trace| - 1].op] else []
  }

  // ----- Log first, rows second -----

  /** A row is changed only once the deltas of its own effect and of every earlier one are
      logged, whichever prefix of the trace survives. */
  ghost predicate WriteAhead(trace: seq<Step>, effects: seq<Effect>)
  {
    forall i, k :: 0 <= i <= |trace| && 0 <= k < |effects| && |RowsIn(trace[..i])| > |OpsOf(effects[..k])|
                   ==> |LoggedIn(trace[..i])| >= |DeltasOf(effects[..k + 1])|
  }

  /** Nothing is lost, doubled or reordered between the effects and the trace. */
  ghost predicate Faithful(b: Batch, effects: seq<Effect>)
  {
    LoggedIn(b.trace) + b.deltas == DeltasOf(effects) && RowsIn(b.trace) + b.ops == OpsOf(effects)
  }

  lemma {:induction false} LoggedConcat(a: seq<Step>, b: seq<Step>)
    ensures LoggedIn(a + b) == LoggedIn(a) + LoggedIn(b)
    ensures RowsIn(a + b) == RowsIn(a) + RowsIn(b)
  {
    if b == [] {
      assert a + b == a;
    } else {
      var init := b[..|b| - 1];
      LoggedConcat(a, init);
      assert (a + b)[..|a + b| - 1] == a + init && (a + b)[|a + b| - 1] == b[|b| - 1];
      assert LoggedIn(a + b) == LoggedIn(a) + LoggedIn(init) + if b[|b| - 1].LogDeltas? then b[|b| - 1].deltas else [];
      assert RowsIn(a + b) == RowsIn(a) + RowsIn(init) + if b[|b| - 1].SetRow? then [b[|b| - 1].op] else [];
    }
  }

  lemma {:induction false} RowsOnly(ops: seq<BaselineOp>)
    ensures LoggedIn(Rows(ops)) == [] && RowsIn(Rows(ops)) == ops
  {
    if ops != [] {
      RowsOnly(ops[..|ops| - 1]);
      assert Rows(ops)[..|ops| - 1] == Rows(ops[..|ops| - 1]);
      assert ops == ops[..|ops| - 1] + [ops[|ops| - 1]];
    }
  }

  /** `now` steps touch files only: they log nothing and change no row of a batch. */
  ghost predicate Quiet(steps: seq<Step>)
  {
    forall x :: x in steps ==> x.DropFile? || x.SetAside?
  }

  lemma {:induction false} QuietAdds(steps: seq<Step>)
    requires Quiet(steps)
    ensures LoggedIn(steps) == [] && RowsIn(steps) == []
  {
    if steps != [] {
      assert steps[|steps| - 1] in steps;
      QuietAdds(steps[..|steps| - 1]);
    }
  }

  ghost predicate QuietEffects(effects: seq<Effect>)
  {
    forall e :: e in effects ==> Quiet(e.now)
  }

  lemma {:induction false} DeltasPrefix(effects: seq<Effect>, k: nat)
    requires k <= |effects|
    ensures DeltasOf(effects[..k]) <= DeltasOf(effects) && OpsOf(effects[..k]) <= OpsOf(effects)
    decreases |effects|
  {
    if k < |effects| {
      var init := effects[..|effects| - 1];
      DeltasPrefix(init, k);
      assert init[..k] == effects[..k];
    } else {
      assert effects[..k] == effects;
    }
  }

  lemma {:induction false} LogStepAdds(deltas: seq<DeltaEntry>)
    ensures LoggedIn(LogStep(deltas)) == deltas && RowsIn(LogStep(deltas)) == []
  {
    if deltas != [] { assert LogStep(deltas)[..0] == []; }
  }

  lemma {:induction false} FlushAdds(trace: seq<Step>, log: seq<Step>, rows: seq<Step>)
    requires RowsIn(log) == [] && LoggedIn(rows) == []
    ensures LoggedIn(trace + log + rows) == LoggedIn(trace) + LoggedIn(log)
    ensures RowsIn(trace + log + rows) == RowsIn(trace) + RowsIn(rows)
  {
    LoggedConcat(trace, log);
    LoggedConcat(trace + log, rows);
  }

  lemma {:induction false} FlushedFaithful(b: Batch, effects: seq<Effect>)
    requires Faithful(b, effects)
    ensures Faithful(Flushed(b), effects)
  {
    LogStepAdds(b.deltas);
    RowsOnly(b.ops);
    FlushAdds(b.trace, LogStep(b.deltas), Rows(b.ops));
  }

  /** Past its first step a flush has logged every delta so far. */
  lemma {:induction false} FlushedPrefix(b: Batch, effects: seq<Effect>, i: nat)
    requires Faithful(b, effects) && |b.trace| < i <= |Flushed(b).trace|
    ensures LoggedIn(Flushed(b).trace[..i]) == DeltasOf(effects)
  {
    var log := LogStep(b.deltas);
    var n := i - |b.trace| - |log|;
    LogStepAdds(b.deltas);
    RowsOnly(b.ops[..n]);
    FlushAdds(b.trace, log, Rows(b.ops[..n]));
    assert Flushed(b).trace[..i] == b.trace + log + Rows(b.ops[..n]);
  }

  lemma FlushedAhead(b: Batch, effects: seq<Effect>)
    requires Faithful(b, effects) && WriteAhead(b.trace, effects)
    ensures WriteAhead(Flushed(b).trace, effects)
  {
    var t := Flushed(b).trace;
    forall i, k | 0 <= i <= |t| && 0 <= k < |effects| && |RowsIn(t[..i])| > |OpsOf(effects[..k])|
      ensures |LoggedIn(t[..i])| >= |DeltasOf(effects[..k + 1])|
    {
      if i <= |b.trace| {
        assert t[..i] == b.trace[..i];
      } else {
        FlushedPrefix(b, effects, i);
        DeltasPrefix(effects, k + 1);
      }
    }
  }

  lemma {:induction false} RowsGrow(trace: seq<Step>, i: nat)
    requires i <= |trace|
    ensures RowsIn(trace[..i]) <= RowsIn(trace) && LoggedIn(trace[..i]) <= LoggedIn(trace)
    decreases |trace|
  {
    if i < |trace| {
      var init := trace[..|trace| - 1];
      RowsGrow(init, i);
      assert init[..i] == trace[..i];
    } else {
      assert trace[..i] == trace;
    }
  }

  lemma TakenFaithful(b: Batch, effects: seq<Effect>, e: Effect)
    requires Faithful(b, effects) && Quiet(e.now)
    ensures Faithful(Taken(b, e), effects + [e])
  {
    var all := effects + [e];
    assert all[..|all| - 1] == effects;
    QuietAdds(e.now);
    LoggedConcat(b.trace, e.now);
  }

  /** Quiet steps at the end change neither count. */
  lemma QuietTail(trace: seq<Step>, now: seq<Step>, i: nat) returns (j: nat)
    requires Quiet(now) && i <= |trace + now|
    ensures j <= |trace|
    ensures RowsIn((trace + now)[..i]) == RowsIn(trace[..j]) && LoggedIn((trace + now)[..i]) == LoggedIn(trace[..j])
  {
    j := if i <= |trace| then i else |trace|;
    assert (trace + now)[..i] == trace[..j] + now[..i - j];
    QuietAdds(now[..i - j]);
    LoggedConcat(trace[..j], now[..i - j]);
  }

  lemma {:induction false} TakenAheadAt(trace: seq<Step>, now: seq<Step>, effects: seq<Effect>, all: seq<Effect>,
                                        i: nat, k: nat)
    requires Quiet(now) && WriteAhead(trace, effects) && RowsIn(trace) <= OpsOf(effects)
    requires |all| == |effects| + 1 && all[..|effects|] == effects
    requires i <= |trace + now| && k < |all| && |RowsIn((trace + now)[..i])| > |OpsOf(all[..k])|
    ensures |LoggedIn((trace + now)[..i])| >= |DeltasOf(all[..k + 1])|
  {
    var j := QuietTail(trace, now, i);
    RowsGrow(trace, j);
    assert all[..k] == effects[..k];
    DeltasPrefix(effects, k);
    assert k < |effects| by {
      assert effects[..|effects|] == effects;
    }
    assert all[..k + 1] == effects[..k + 1];
  }

  lemma {:induction false} TakenAhead(b: Batch, effects: seq<Effect>, e: Effect)
    requires Faithful(b, effects) && WriteAhead(b.trace, effects) && Quiet(e.now)
    ensures WriteAhead(Taken(b, e).trace, effects + [e])
  {
    var all := effects + [e];
    var t := b.trace + e.now;
    forall i, k | 0 <= i <= |t| && 0 <= k < |all| && |RowsIn(t[..i])| > |OpsOf(all[..k])|
      ensures |LoggedIn(t[..i])| >= |DeltasOf(all[..k + 1])|
    {
      TakenAheadAt(b.trace, e.now, effects, all, i, k);
    }
  }

  /** Batching, whatever the sizes of the effects, is faithful and writes ahead. */
  lemma {:induction false} BatchesAhead(effects: seq<Effect>)
    requires QuietEffects(effects)
    ensures Faithful(Batches(effects), effects) && WriteAhead(Batches(effects).trace, effects)
  {
    if effects != [] {
      var init, e := effects[..|effects| - 1], effects[|effects| - 1];
      assert effects == init + [e];
      BatchesAhead(init);
      TakenFaithful(Batches(init), init, e);
      TakenAhead(Batches(init), init, e);
      FlushedFaithful(Taken(Batches(init), e), effects);
      FlushedAhead(Taken(Batches(init), e), effects);
    }
  }

  /** At most 24 row changes ever wait for a flush, if no result makes more than two: a crash
      loses that much of the work and no more. */
  lemma {:induction false} BatchIsSmall(effects: seq<Effect>)
    requires QuietEffects(effects) && forall e :: e in effects ==> |e.ops| <= 2
    ensures |Batches(effects).ops| < 25
    ensures |OpsOf(effects)| - |RowsIn(Batches(effects).trace)| < 25
  {
    BatchesAhead(effects);
    if effects != [] { BatchIsSmall(effects[..|effects| - 1]); }
  }

  lemma TraceAhead(p: Progress)
    requires QuietEffects(p.effects)
    ensures WriteAhead(TraceOf(p), p.effects)
    ensures LoggedIn(TraceOf(p)) <= DeltasOf(p.effects) && RowsIn(TraceOf(p)) <= OpsOf(p.effects)
    ensures !p.stopped ==> LoggedIn(TraceOf(p)) == DeltasOf(p.effects) && RowsIn(TraceOf(p)) == OpsOf(p.effects)
  {
    BatchesAhead(p.effects);
    FlushedFaithful(Batches(p.effects), p.effects);
    FlushedAhead(Batches(p.effects), p.effects);
  }

  // ----- What the two phases add -----

  lemma {:induction false} PushEffect(effects: seq<Effect>, e: Effect)
    ensures DeltasOf(effects + [e]) == DeltasOf(effects) + e.deltas
    ensures OpsOf(effects + [e]) == OpsOf(effects) + e.ops
  {
    assert (effects + [e])[..|effects|] == effects;
  }

  /** What holds of a call between two results: who signs the deltas, which paths the
      manifest knows, and that every agreement claimed is known by then. */
  ghost predicate ProgressInv(c: Context, m: Entries, p: Progress)
  {
    && QuietEffects(p.effects)
    && (forall d :: d in DeltasOf(p.effects) ==> d.lamport == c.lamport && d.device == c.device)
    && p.manifest.Keys <= m.Keys + PathsOf(Elems(DeltasOf(p.effects)))
    && (forall k :: 0 <= k < |p.effects| ==> Known(m, p.effects, k))
  }

  /** Effect `k` only claims agreement on paths that were read, or logged with it or before. */
  ghost predicate Known(m: Entries, effects: seq<Effect>, k: nat)
    requires k < |effects|
  {
    forall op :: op in effects[k].ops && Advances(op) ==>
                   OpPath(op) in m.Keys + PathsOf(Elems(DeltasOf(effects[..k + 1])))
  }

  lemma KnownStays(m: Entries, effects: seq<Effect>, more: seq<Effect>, k: nat)
    requires k < |effects| <= |more| && more[..|effects|] == effects && Known(m, effects, k)
    ensures Known(m, more, k)
  {
    assert more[k] == effects[k] && more[..k + 1] == effects[..k + 1];
  }

  lemma ExtendKnown(c: Context, m: Entries, p: Progress, e: Effect, q: Progress)
    requires ProgressInv(c, m, p) && q.effects == p.effects + [e] && Quiet(e.now)
    requires forall d :: d in e.deltas ==> d.lamport == c.lamport && d.device == c.device
    requires q.manifest.Keys <= p.manifest.Keys + PathsOf(Elems(e.deltas))
    requires forall op :: op in e.ops && Advances(op) ==>
                            OpPath(op) in m.Keys + p.manifest.Keys + PathsOf(Elems(e.deltas))
    ensures ProgressInv(c, m, q)
  {
    PushEffect(p.effects, e);
    ConcatPaths(DeltasOf(p.effects), e.deltas);
    KnownLast(m, p.effects, e, p.manifest.Keys);
    forall k | 0 <= k < |p.effects| ensures Known(m, q.effects, k) {
      KnownStays(m, p.effects, q.effects, k);
    }
  }

  lemma {:induction false} KnownLast(m: Entries, effects: seq<Effect>, e: Effect, keys: set<Path>)
    requires keys <= m.Keys + PathsOf(Elems(DeltasOf(effects)))
    requires forall op :: op in e.ops && Advances(op) ==> OpPath(op) in m.Keys + keys + PathsOf(Elems(e.deltas))
    ensures Known(m, effects + [e], |effects|)
  {
    PushEffect(effects, e);
    ConcatPaths(DeltasOf(effects), e.deltas);
    assert (effects + [e])[..|effects| + 1] == effects + [e];
  }

  lemma ConcatPaths(a: seq<DeltaEntry>, b: seq<DeltaEntry>)
    ensures PathsOf(Elems(a + b)) == PathsOf(Elems(a)) + PathsOf(Elems(b))
  {
    assert forall d :: d in a + b <==> d in a || d in b;
    assert Elems(a + b) == Elems(a) + Elems(b);
  }

  /** A transfer that fetched was planned for a path the manifest has; relocations send the
      bytes of the version they name. */
  ghost predicate Answers(c: Context, m: Entries, j: Joined)
  {
    && (j.transfer.Fetched? ==> j.action.path in m)
    && (j.transfer.Relocated? ==> j.action.kind == Relocate && j.action.path in c.plan.relocations
                                  && j.transfer.result.hash == c.plan.relocations[j.action.path].hash)
    && (j.action.kind == Relocate ==> j.transfer.Failed? || j.transfer.Relocated?)
  }

  ghost predicate AllAnswer(c: Context, m: Entries, joined: seq<Joined>)
  {
    forall j :: j in joined ==> Answers(c, m, j)
  }

  /** What was joined had been planned, and ended as its kind of transfer can. */
  ghost predicate FromPlan(c: Context, joined: seq<Joined>)
  {
    forall j :: j in joined ==>
                  && j.action in c.plan.actions
                  && (j.transfer.Fetched? ==> j.action.kind == Download || j.action.kind == Hydrate)
                  && (j.transfer.Sent? ==> j.action.kind == Upload)
  }

  lemma JoinKeeps(c: Context, m: Entries, p: Progress, j: Joined)
    requires ProgressInv(c, m, p) && Answers(c, m, j)
    ensures ProgressInv(c, m, JoinOne(c, p, j))
  {
    var q := JoinOne(c, p, j);
    if q.effects != p.effects {
      var e := q.effects[|p.effects|];
      assert q.effects == p.effects + [e];
      ExtendKnown(c, m, p, e, q);
    }
  }

  lemma StubKeeps(c: Context, m: Entries, p: Progress, path: Path)
    requires ProgressInv(c, m, p)
    ensures ProgressInv(c, m, Stub(p, path))
  {
    if path !in p.pinned && path in p.manifest {
      ExtendKnown(c, m, p, Effect([], [], [PutPlaceholder(StubFor(p.manifest[path], path))]), Stub(p, path));
    }
  }

  lemma TombstoneKeeps(c: Context, m: Entries, p: Progress, path: Path)
    requires ProgressInv(c, m, p)
    ensures ProgressInv(c, m, Buried(c, p, path))
  {
    if path !in p.pinned {
      var deltas := if path in p.manifest then [Tombstone(c, p.manifest[path], path)] else [];
      ExtendKnown(c, m, p, Effect([], deltas, [Remove(path)]), Buried(c, p, path));
    }
  }

  lemma ActKeeps(c: Context, m: Entries, p: Progress, a: Action)
    requires ProgressInv(c, m, p)
    ensures ProgressInv(c, m, ActOne(c, p, a))
  {
    StubKeeps(c, m, p, a.path);
    TombstoneKeeps(c, m, p, a.path);
    var drop, aside := Effect([DropFile(a.path)], [], [Remove(a.path)]), Effect([SetAside(a.path)], [], []);
    ExtendKnown(c, m, p, drop, Adds(p, drop));
    ExtendKnown(c, m, p, aside, Adds(p, aside));
  }

  lemma {:induction false} JoinsKeep(c: Context, m: Entries, joined: seq<Joined>)
    requires AllAnswer(c, m, joined)
    ensures ProgressInv(c, m, AfterJoins(c, m, joined))
  {
    if joined != [] {
      JoinsKeep(c, m, joined[..|joined| - 1]);
      JoinKeeps(c, m, AfterJoins(c, m, joined[..|joined| - 1]), joined[|joined| - 1]);
    }
  }

  lemma {:induction false} ActionsKeep(c: Context, m: Entries, p: Progress, actions: seq<Action>)
    requires ProgressInv(c, m, p)
    ensures ProgressInv(c, m, AfterActions(c, p, actions))
  {
    if actions != [] {
      ActionsKeep(c, m, p, actions[..|actions| - 1]);
      ActKeeps(c, m, AfterActions(c, p, actions[..|actions| - 1]), actions[|actions| - 1]);
    }
  }
}
