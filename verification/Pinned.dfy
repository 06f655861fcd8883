/** What a failed relocation's source keeps. */
module Pinned {
  // The source's path is pinned for the rest of the pass: it is never tombstoned and no
  // placeholder action moves its row. A local delete, a conflict and a transfer for the path
  // itself do not look at the pins, and exactly those change its row.

  import opened Options
  import opened Manifest
  import opened Records
  import opened Engine
  import opened Commits
  import opened Apply
  import opened ApplySafety

  // ----- Conflicts change their rows at once -----

  ghost predicate SetsAside(effects: seq<Effect>, path: Path)
  {
    exists e :: e in effects && SetAside(path) in e.now
  }

  lemma SetsAsideConcat(effects: seq<Effect>, e: Effect, path: Path)
    ensures SetsAside(effects + [e], path) <==> SetsAside(effects, path) || SetAside(path) in e.now
  {
    assert forall x :: x in effects + [e] <==> x in effects || x == e;
  }

  /** The steps a batch has put in the trace, other than what a flush adds, are its effects'. */
  lemma {:induction false} BatchesSetAside(effects: seq<Effect>, path: Path)
    ensures SetAside(path) in Batches(effects).trace <==> SetsAside(effects, path)
  {
    if effects != [] {
      var init, e := effects[..|effects| - 1], effects[|effects| - 1];
      assert effects == init + [e];
      BatchesSetAside(init, path);
      SetsAsideConcat(init, e, path);
      FlushSetsNothing(Taken(Batches(init), e), path);
    }
  }

  lemma FlushSetsNothing(b: Batch, path: Path)
    ensures SetAside(path) in Flushed(b).trace <==> SetAside(path) in b.trace
  {
    assert forall x :: x in Rows(b.ops) ==> x.SetRow?;
    assert forall x :: x in LogStep(b.deltas) ==> x.LogDeltas?;
  }

  lemma TraceSetAside(p: Progress, path: Path)
    ensures SetAside(path) in TraceOf(p) <==> SetsAside(p.effects, path)
  {
    BatchesSetAside(p.effects, path);
    FlushSetsNothing(Batches(p.effects), path);
  }

  lemma {:induction false} JoinsSetNothing(c: Context, m: Entries, joined: seq<Joined>, path: Path)
    ensures !SetsAside(AfterJoins(c, m, joined).effects, path) && !AfterJoins(c, m, joined).stopped
  {
    if joined != [] {
      var init, j := joined[..|joined| - 1], joined[|joined| - 1];
      var p, q := AfterJoins(c, m, init), AfterJoins(c, m, joined);
      JoinsSetNothing(c, m, init, path);
      if q.effects != p.effects {
        assert q.effects == p.effects + [q.effects[|p.effects|]];
        SetsAsideConcat(p.effects, q.effects[|p.effects|], path);
      }
    }
  }

  lemma ActSetsAside(c: Context, p: Progress, a: Action, path: Path)
    requires !p.stopped
    ensures SetsAside(ActOne(c, p, a).effects, path) <==> SetsAside(p.effects, path) || a == Action(path, Conflicting)
  {
    var q := ActOne(c, p, a);
    if q.effects != p.effects {
      assert q.effects == p.effects + [q.effects[|p.effects|]];
      SetsAsideConcat(p.effects, q.effects[|p.effects|], path);
    }
  }

  lemma {:induction false} ActionsSetAside(c: Context, p: Progress, actions: seq<Action>, path: Path)
    ensures var q := AfterActions(c, p, actions);
            && (SetsAside(q.effects, path) ==> SetsAside(p.effects, path) || Action(path, Conflicting) in actions)
            && (!q.stopped ==> !p.stopped)
            && (!q.stopped && (SetsAside(p.effects, path) || Action(path, Conflicting) in actions) ==>
                  SetsAside(q.effects, path))
  {
    if actions != [] {
      var init, a := actions[..|actions| - 1], actions[|actions| - 1];
      var mid := AfterActions(c, p, init);
      assert actions == init + [a];
      ActionsSetAside(c, p, init, path);
      if !mid.stopped { ActSetsAside(c, mid, a, path); }
    }
  }

  // ----- The row of a pinned path -----

  /** A trace changes the row of a path. */
  ghost predicate RowTouched(trace: seq<Step>, path: Path)
  {
    Touches(RowsIn(trace), path) || SetAside(path) in trace
  }

  /** What does not look at the pins: a local delete, a conflict, and a transfer for the path. */
  ghost predicate Unheld(c: Context, joined: seq<Joined>, path: Path)
  {
    || Action(path, DeleteLocal) in c.plan.actions
    || Action(path, Conflicting) in c.plan.actions
    || TransferredTo(joined, path)
  }

  lemma TouchesMore(some: seq<BaselineOp>, more: seq<BaselineOp>, path: Path)
    requires some <= more && Touches(some, path)
    ensures Touches(more, path)
  {
    var op :| op in some && OpPath(op) == path;
    assert op in more;
  }

  /** The second phase touches a pinned row only with a local delete, and logs nothing for it. */
  lemma OpInSecond(p: Progress, q: Progress, actions: seq<Action>, op: BaselineOp)
    requires SecondPhase(p, q, actions) && OpPath(op) in p.pinned && op in OpsOf(q.effects) && op !in OpsOf(p.effects)
    ensures op.Remove? && Action(op.path, DeleteLocal) in actions
  {
    assert q.effects[..|p.effects|] == p.effects;
    TailDeltas(q.effects, |p.effects|);
    var k :| |p.effects| <= k < |q.effects| && op in q.effects[k].ops;
    assert Lawful(p.pinned, actions, q.effects[k]);
  }

  lemma DeltaInSecond(p: Progress, q: Progress, actions: seq<Action>, d: DeltaEntry)
    requires SecondPhase(p, q, actions) && d in DeltasOf(q.effects) && d !in DeltasOf(p.effects)
    ensures d.path !in p.pinned
  {
    assert q.effects[..|p.effects|] == p.effects;
    TailDeltas(q.effects, |p.effects|);
    var k :| |p.effects| <= k < |q.effects| && d in q.effects[k].deltas;
    assert Lawful(p.pinned, actions, q.effects[k]);
  }

  /** A row change of a failed relocation's source is a transfer's or a planned local delete's. */
  lemma PinnedOp(c: Context, m: Entries, joined: seq<Joined>, j: Joined, op: BaselineOp)
    requires AllAnswer(c, m, joined) && j in joined && j.transfer.Failed? && j.action.path in c.plan.relocations
    requires op in OpsOf(Ended(c, m, joined).effects) && OpPath(op) == c.plan.relocations[j.action.path].path
    ensures OpJoined(joined, op) || (op.Remove? && Action(op.path, DeleteLocal) in c.plan.actions)
  {
    var p := AfterJoins(c, m, joined);
    EndedPhases(c, m, joined);
    JoinedOps(c, m, joined, OpPath(op));
    assert Settled(c, p, j);
    if op !in OpsOf(p.effects) {
      OpInSecond(p, Ended(c, m, joined), c.plan.actions, op);
    }
  }

  lemma TouchedStays(p: Progress, q: Progress, path: Path)
    requires p.effects <= q.effects && Touches(OpsOf(p.effects), path)
    ensures Touches(OpsOf(q.effects), path)
  {
    assert q.effects[..|p.effects|] == p.effects;
    DeltasPrefix(q.effects, |p.effects|);
    TouchesMore(OpsOf(p.effects), OpsOf(q.effects), path);
  }

  lemma {:induction false} TouchedIsUnheld(c: Context, m: Entries, joined: seq<Joined>, j: Joined)
    requires AllAnswer(c, m, joined) && j in joined && j.transfer.Failed? && j.action.path in c.plan.relocations
    requires Touches(OpsOf(Ended(c, m, joined).effects), c.plan.relocations[j.action.path].path)
    ensures Unheld(c, joined, c.plan.relocations[j.action.path].path)
  {
    var s := c.plan.relocations[j.action.path].path;
    var op :| op in OpsOf(Ended(c, m, joined).effects) && OpPath(op) == s;
    PinnedOp(c, m, joined, j, op);
    if OpJoined(joined, op) { JoinedIsTransfer(joined, op); }
  }

  lemma AsideIsUnheld(c: Context, m: Entries, joined: seq<Joined>, path: Path)
    requires SetAside(path) in TraceOf(Ended(c, m, joined))
    ensures Action(path, Conflicting) in c.plan.actions
  {
    TraceSetAside(Ended(c, m, joined), path);
    ActionsSetAside(c, AfterJoins(c, m, joined), c.plan.actions, path);
    JoinsSetNothing(c, m, joined, path);
  }

  /** At every crash point, the row of a failed relocation's source has changed only if a local
      delete or a conflict is planned for it, or a transfer for that path itself succeeded. */
  lemma {:induction false} PinnedRowChangesOnlyIf(c: Context, m: Entries, joined: seq<Joined>, j: Joined, i: nat)
    requires AllAnswer(c, m, joined) && j in joined && j.transfer.Failed? && j.action.path in c.plan.relocations
    requires i <= |TraceOf(Ended(c, m, joined))|
    requires RowTouched(TraceOf(Ended(c, m, joined))[..i], c.plan.relocations[j.action.path].path)
    ensures Unheld(c, joined, c.plan.relocations[j.action.path].path)
  {
    var s := c.plan.relocations[j.action.path].path;
    var q := Ended(c, m, joined);
    var t := TraceOf(q);
    if SetAside(s) in t[..i] {
      AsideIsUnheld(c, m, joined, s);
    } else {
      EndedPhases(c, m, joined);
      TraceAhead(q);
      RowsGrow(t, i);
      TouchesMore(RowsIn(t[..i]), OpsOf(q.effects), s);
      TouchedIsUnheld(c, m, joined, j);
    }
  }

  /** And unless an error stops the call, exactly then. */
  lemma PinnedRowChangesIff(c: Context, m: Entries, joined: seq<Joined>, j: Joined)
    requires AllAnswer(c, m, joined) && j in joined && j.transfer.Failed? && j.action.path in c.plan.relocations
    requires !Ended(c, m, joined).stopped
    ensures var s := c.plan.relocations[j.action.path].path;
            RowTouched(TraceOf(Ended(c, m, joined)), s) <==> Unheld(c, joined, s)
  {
    var s := c.plan.relocations[j.action.path].path;
    var p, q := AfterJoins(c, m, joined), Ended(c, m, joined);
    var t := TraceOf(q);
    EndedPhases(c, m, joined);
    TraceAhead(q);
    if RowTouched(t, s) {
      assert t[..|t|] == t;
      PinnedRowChangesOnlyIf(c, m, joined, j, |t|);
    }
    if Action(s, DeleteLocal) in c.plan.actions {
      assert OpPath(Remove(s)) == s;
    } else if TransferredTo(joined, s) {
      TouchedInFirst(c, m, joined, s);
      TouchedStays(p, q, s);
    } else {
      TraceSetAside(q, s);
      ActionsSetAside(c, p, c.plan.actions, s);
    }
  }

  /** A new version of a failed relocation's source is logged exactly if some transfer sent one;
      nothing else about the path is. */
  lemma PinnedIsLoggedIff(c: Context, m: Entries, joined: seq<Joined>, j: Joined)
    requires AllAnswer(c, m, joined) && j in joined && j.transfer.Failed? && j.action.path in c.plan.relocations
    requires !Ended(c, m, joined).stopped
    ensures var s := c.plan.relocations[j.action.path].path;
            Names(LoggedIn(TraceOf(Ended(c, m, joined))), s) <==> SentTo(joined, s)
  {
    var s := c.plan.relocations[j.action.path].path;
    var p, q := AfterJoins(c, m, joined), Ended(c, m, joined);
    EndedPhases(c, m, joined);
    TraceAhead(q);
    JoinedOps(c, m, joined, s);
    assert Settled(c, p, j);
    assert q.effects[..|p.effects|] == p.effects;
    if Names(DeltasOf(q.effects), s) {
      var d :| d in DeltasOf(q.effects) && d.path == s;
      if d !in DeltasOf(p.effects) { DeltaInSecond(p, q, c.plan.actions, d); }
    }
    if Names(DeltasOf(p.effects), s) {
      DeltasPrefix(q.effects, |p.effects|);
      var d :| d in DeltasOf(p.effects) && d.path == s;
      assert d in DeltasOf(q.effects);
    }
  }

  // ----- Rows after a trace -----

  function RowStep(b: Baseline, step: Step, now: int): Baseline
  {
    match step
    case SetRow(op) => Row(b, op, now)
    case SetAside(p) => Removed(b, p)
    case _ => b
  }

  /** The device's rows once a trace is durable. */
  function RowsAfter(b: Baseline, trace: seq<Step>, now: int): Baseline
  {
    if trace == [] then b else RowStep(RowsAfter(b, trace[..|trace| - 1], now), trace[|trace| - 1], now)
  }

  /** A trace that does not touch a row leaves it as it was. */
  lemma {:induction false} UntouchedRow(b: Baseline, trace: seq<Step>, now: int, path: Path)
    requires !RowTouched(trace, path)
    ensures path in RowsAfter(b, trace, now) <==> path in b
    ensures path in b ==> RowsAfter(b, trace, now)[path] == b[path]
  {
    if trace != [] {
      var init, step := trace[..|trace| - 1], trace[|trace| - 1];
      assert step in trace;
      if step.SetRow? { assert step.op in RowsIn(trace); }
      if Touches(RowsIn(init), path) { TouchesMore(RowsIn(init), RowsIn(trace), path); }
      UntouchedRow(b, init, now, path);
    }
  }

  /** Every change a trace makes to a row removes it. */
  ghost predicate OnlyRemoves(ops: seq<BaselineOp>, path: Path)
  {
    forall op :: op in ops && OpPath(op) == path ==> op.Remove?
  }

  lemma {:induction false} RemovedRow(b: Baseline, trace: seq<Step>, now: int, path: Path)
    requires RowTouched(trace, path) && OnlyRemoves(RowsIn(trace), path)
    ensures path !in RowsAfter(b, trace, now)
  {
    var init, step := trace[..|trace| - 1], trace[|trace| - 1];
    assert trace == init + [step];
    LastRow(trace, path);
    if RowTouched(init, path) {
      RemovedRow(b, init, now, path);
    }
  }

  /** The last step's part in what a trace does to a row. */
  lemma LastRow(trace: seq<Step>, path: Path)
    requires trace != []
    ensures var init, step := trace[..|trace| - 1], trace[|trace| - 1];
            && RowsIn(init) <= RowsIn(trace)
            && (step.SetRow? ==> step.op in RowsIn(trace))
            && (RowTouched(trace, path) <==>
                 RowTouched(init, path) || step == SetAside(path) || (step.SetRow? && OpPath(step.op) == path))
  {
    var init, step := trace[..|trace| - 1], trace[|trace| - 1];
    assert trace == init + [step];
    if step.SetRow? {
      assert RowsIn(trace) == RowsIn(init) + [step.op];
      assert step.op in RowsIn(trace);
    }
    if Touches(RowsIn(init), path) { TouchesMore(RowsIn(init), RowsIn(trace), path); }
  }

  lemma {:induction false} UnevictedRow(b: Baseline, trace: seq<Step>, now: int, path: Path)
    requires !IsEvicted(b, path)
    requires forall op :: op in RowsIn(trace) && OpPath(op) == path ==> op.Remove? || op.Confirm?
    ensures !IsEvicted(RowsAfter(b, trace, now), path)
  {
    if trace != [] {
      LastRow(trace, path);
      UnevictedRow(b, trace[..|trace| - 1], now, path);
    }
  }

  /** Every change a trace makes to a row puts a placeholder of one version there. */
  ghost predicate OnlyStubs(trace: seq<Step>, path: Path, hash: Hash)
  {
    && SetAside(path) !in trace
    && forall op :: op in RowsIn(trace) && OpPath(op) == path ==> op.PutPlaceholder? && op.meta.hash == hash
  }

  lemma {:induction false} StubbedRow(b: Baseline, trace: seq<Step>, now: int, path: Path, hash: Hash)
    requires RowTouched(trace, path) && OnlyStubs(trace, path, hash)
    ensures var rows := RowsAfter(b, trace, now); IsEvicted(rows, path) && BaseOf(rows, path) == Some(hash)
  {
    var init, step := trace[..|trace| - 1], trace[|trace| - 1];
    assert trace == init + [step];
    LastRow(trace, path);
    if RowTouched(init, path) {
      StubbedRow(b, init, now, path, hash);
    }
  }

  // ----- A source overtaken -----

  lemma {:induction false} TransfersOnly(c: Context, p: Progress, actions: seq<Action>)
    requires forall a :: a in actions ==> a.kind == Relocate || a.kind == Upload
    ensures AfterActions(c, p, actions) == p
  {
    if actions != [] {
      assert actions[|actions| - 1] in actions;
      TransfersOnly(c, p, actions[..|actions| - 1]);
    }
  }

  lemma {:induction false} FailedThenJoined(c: Context, m: Entries, failed: Joined, done: Joined)
    requires failed.transfer.Failed? && (done.transfer.Sent? || done.transfer.Relocated?)
    ensures var p := AfterJoins(c, m, [failed, done]);
            var d := NewDelta(c, m, done.action.path, done.transfer.result);
            p.effects == [Effect([], [d], JoinOps(done))] && !p.stopped
  {
    var joined := [failed, done];
    assert joined[..1] == [failed] && [failed][..0] == [];
    var first := AfterJoins(c, m, [failed]);
    assert first == JoinOne(c, AfterJoins(c, m, []), failed);
    assert first.effects == [] && first.manifest == m && !first.stopped;
    assert AfterJoins(c, m, joined) == JoinOne(c, first, done);
  }

  lemma {:induction false} OneEffectTrace(p: Progress, d: DeltaEntry, op: BaselineOp)
    requires p.effects == [Effect([], [d], [op])] && !p.stopped
    ensures TraceOf(p) == [LogDeltas([d]), SetRow(op)]
  {
    assert p.effects[..0] == [];
    assert Batches(p.effects) == Batch([], [d], [op]);
    assert Rows([op]) == [SetRow(op)];
  }

  /** A relocation that fails and a transfer that succeeds, with no metadata to write. */
  lemma {:induction false} FailedThenDone(c: Context, m: Entries, failed: Joined, done: Joined)
    requires forall a :: a in c.plan.actions ==> a.kind == Relocate || a.kind == Upload
    requires failed.transfer.Failed? && (done.transfer.Sent? || done.transfer.Relocated?)
    ensures TraceOf(Ended(c, m, [failed, done])) ==
              [LogDeltas([NewDelta(c, m, done.action.path, done.transfer.result)]), SetRow(JoinOps(done)[0])]
  {
    FailedThenJoined(c, m, failed, done);
    var p := AfterJoins(c, m, [failed, done]);
    TransfersOnly(c, p, c.plan.actions);
    OneEffectTrace(p, NewDelta(c, m, done.action.path, done.transfer.result), JoinOps(done)[0]);
  }

  /** A placeholder was renamed and a new file saved in its place: both transfers are due. */
  lemma OvertakenPlan(was: DeltaEntry)
    requires was.path == [1] && !was.deleted && was.hash == 5
    ensures var p, to := [1], [2];
            var local := map[p := LocalEntry(p, 1, 1, 6)];
            var rows := map[p := FileRecord(p, 1, 0, 5, Some(5), Evicted, None, None)];
            var view := ResidencyView(map[to := StubMeta(p, 1, 5, was.objectKey, None)], Policy(x => Auto, false), {});
            && Plans([Action(to, Relocate), Action(p, Upload)], AllPaths(local, rows, map[p := was], view), local, rows,
                     map[p := was], view)
            && Relocates(map[to := was], AllPaths(local, rows, map[p := was], view), local, map[p := was], view)
  {
  }

  /** The relocation fails and the upload of the file succeeds. The renamed placeholder still
      stands for the old version, but what the next pass reads from the log would fill it with
      the new file. */
  lemma {:induction false} OvertakenSource(was: DeltaEntry, time: nat, device: Device)
    requires was.path == [1] && !was.deleted && was.hash == 5
    ensures var p, to := [1], [2];
            var view := ResidencyView(map[to := StubMeta(p, 1, 5, was.objectKey, None)], Policy(x => Auto, false), {});
            var c := Context(Plan([Action(to, Relocate), Action(p, Upload)], map[to := was]), was.lamport + 1, device,
                             time);
            var sent := Uploaded([9], 6, 1, 1);
            var joined := [Joined(Action(to, Relocate), Failed), Joined(Action(p, Upload), Sent(sent))];
            var next := NewDelta(c, map[p := was], p, sent);
            && TraceOf(Ended(c, map[p := was], joined)) == [LogDeltas([next]), SetRow(Confirm(p, 1, 1, 6))]
            && IsMerge(map[p := next], {was, next})
            && RelocationSource(to, map[p := next], view) == Some(next) && next.hash != was.hash
  {
    var p, to := [1], [2];
    var c := Context(Plan([Action(to, Relocate), Action(p, Upload)], map[to := was]), was.lamport + 1, device, time);
    var done := Joined(Action(p, Upload), Sent(Uploaded([9], 6, 1, 1)));
    FailedThenDone(c, map[p := was], Joined(Action(to, Relocate), Failed), done);
    assert JoinOps(done) == [Confirm(p, 1, 1, 6)];
  }
}
