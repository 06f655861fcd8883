/** What becomes of evicted conflict losers. */
module Losers {
  // An evicted conflict loser is promised to be kept until its bytes are relocated. When the
  // relocation fails, a pass keeps that promise exactly if the loser's row had not been dropped
  // with a renamed file, and its path is neither deleted nor taken by another path's
  // placeholder that is relocated onto it.

  import opened Options
  import opened Manifest
  import opened Records
  import opened Engine
  import opened Commits
  import opened Apply
  import opened ApplySafety
  import opened Pinned
  import opened Sync

  /** A pass that chose losers: what it planned by itself, `actions`, what it joined of the plan
      with the losers taken in, and one of them. */
  datatype LosingPass = LosingPass(c: Context, m: Entries, joined: seq<Joined>, l: Loser, losers: seq<Loser>,
                                   actions: seq<Action>, local: Files, b: Baseline, view: ResidencyView)

  // ----- What can happen at a chosen loser's path -----

  /** As `Sync.ChosenLosers` has them: no file, and a row that stands for the losing version
      unless it was dropped with a file just renamed. */
  predicate ChosenLoser(l: Loser, local: Files, b: Baseline)
  {
    l.version.path !in local && (l.version.path in b ==> StandsFor(l.version, b))
  }

  /** The placeholder at the path was moved or copied there and stands for another path. */
  predicate ForeignAt(view: ResidencyView, p: Path)
  {
    p in view.placeholders && view.placeholders[p].path != p
  }

  /** The merge left nothing at the path, and its own placeholder or none is there. */
  predicate Gone(m: Entries, view: ResidencyView, p: Path)
  {
    ThereOf(m, p).None? && !ForeignAt(view, p)
  }

  /** What `reconcile` can want at a chosen loser's path. */
  lemma LoserKind(l: Loser, local: Files, b: Baseline, m: Entries, view: ResidencyView)
    requires ChosenLoser(l, local, b)
    ensures var p := l.version.path; var kind := KindFor(p, local, b, m, view);
            && (kind == Some(DeleteLocal) <==> p in b && Gone(m, view, p))
            && (kind == Some(Relocate) ==> ForeignAt(view, p))
            && (kind == Some(Download) ==> p !in b && !ForeignAt(view, p))
            && kind != Some(Upload) && kind != Some(Conflicting)
  {
  }

  /** The plan deletes a loser's path locally exactly when its row is left, the merge left
      nothing there and no other path's placeholder has taken its place. */
  lemma {:induction false} LoserDeletedIffWinnerIs(l: Loser, losers: seq<Loser>, actions: seq<Action>, local: Files,
                                                   b: Baseline, m: Entries, view: ResidencyView)
    requires ChosenLoser(l, local, b)
    requires Plans(actions, AllPaths(local, b, m, view), local, b, m, view)
    ensures Action(l.version.path, DeleteLocal) in WithLosers(actions, losers) <==>
              l.version.path in b && Gone(m, view, l.version.path)
  {
    var p := l.version.path;
    LosersKeepOthers(actions, losers, Action(p, DeleteLocal));
    assert p in b ==> p in AllPaths(local, b, m, view);
    LoserKind(l, local, b, m, view);
    assert p in b && Gone(m, view, p) ==> Action(p, DeleteLocal) in actions;
  }

  lemma {:induction false} LosersAreNotHydrated(actions: seq<Action>, losers: seq<Loser>, l: Loser)
    requires l in losers
    ensures Action(l.version.path, Hydrate) !in WithLosers(actions, losers)
  {
    var init, last := losers[..|losers| - 1], losers[|losers| - 1];
    var before := WithLosers(actions, init);
    assert losers == init + [last];
    if l in init { LosersAreNotHydrated(actions, init, l); }
    forall a | a in WithLosers(actions, losers) ensures a != Action(l.version.path, Hydrate) {
      if a != Action(last.to, Relocate) {
        var i :| 0 <= i < |before| && a == Turned(before[i], last.version.path);
        assert before[i] in before;
      }
    }
  }

  /** Taking losers in adds relocations to their own names only. */
  lemma {:induction false} RelocationsAdded(actions: seq<Action>, losers: seq<Loser>, p: Path)
    requires Action(p, Relocate) in WithLosers(actions, losers) && forall k :: k in losers ==> k.to != p
    ensures Action(p, Relocate) in actions
  {
    if losers != [] {
      var init, last := losers[..|losers| - 1], losers[|losers| - 1];
      var before := WithLosers(actions, init);
      assert last in losers;
      var i :| 0 <= i < |before| && Action(p, Relocate) == Turned(before[i], last.version.path);
      assert before[i] in before;
      RelocationsAdded(actions, init, p);
    }
  }

  /** The pass takes in chosen losers, none of whose new names is the loser's path. */
  ghost predicate TakesIn(s: LosingPass)
  {
    && ChosenLoser(s.l, s.local, s.b) && s.l in s.losers && (forall k :: k in s.losers ==> k.to != s.l.version.path)
    && Plans(s.actions, AllPaths(s.local, s.b, s.m, s.view), s.local, s.b, s.m, s.view)
    && (forall a :: a in s.c.plan.actions <==> a in WithLosers(s.actions, s.losers))
    && AllAnswer(s.c, s.m, s.joined) && FromPlan(s.c, s.joined)
  }

  /** Relocating the loser failed. */
  ghost predicate Fails(c: Context, joined: seq<Joined>, l: Loser)
  {
    && l.to in c.plan.relocations && c.plan.relocations[l.to] == l.version
    && exists j :: j in joined && j.transfer.Failed? && j.action.path == l.to
  }

  /** What can be planned for a chosen loser's path. */
  ghost predicate LoserAction(s: LosingPass, a: Action)
  {
    || (a.kind == Relocate && ForeignAt(s.view, a.path))
    || (a.kind == DeleteLocal && a.path in s.b && Gone(s.m, s.view, a.path))
    || (a.kind == Download && a.path !in s.b && !ForeignAt(s.view, a.path))
    || a.kind == DeleteRemote || a.kind == UpdatePlaceholder || a.kind == CreatePlaceholder
  }

  lemma KindPlanned(s: LosingPass, a: Action)
    requires Plans(s.actions, AllPaths(s.local, s.b, s.m, s.view), s.local, s.b, s.m, s.view) && a in s.actions
    ensures KindFor(a.path, s.local, s.b, s.m, s.view) == Some(a.kind)
  {
  }

  lemma TakenIn(s: LosingPass, a: Action)
    requires TakesIn(s) && a in s.c.plan.actions && a.path == s.l.version.path
    ensures a.kind != Hydrate && (a.kind == UpdatePlaceholder || a in s.actions)
  {
    LosersAreNotHydrated(s.actions, s.losers, s.l);
    if a.kind == Relocate {
      RelocationsAdded(s.actions, s.losers, a.path);
    } else if a.kind != UpdatePlaceholder && a.kind != Hydrate {
      LosersKeepOthers(s.actions, s.losers, a);
    }
  }

  lemma {:induction false} LoserActions(s: LosingPass, a: Action)
    requires TakesIn(s) && a in s.c.plan.actions && a.path == s.l.version.path
    ensures LoserAction(s, a)
  {
    TakenIn(s, a);
    if a.kind != UpdatePlaceholder {
      KindPlanned(s, a);
      LoserKind(s.l, s.local, s.b, s.m, s.view);
    }
  }

  /** What a transfer for a chosen loser's path can be: a relocation of another path's
      placeholder onto it, or a download if its row is gone. */
  lemma {:induction false} LoserTransfer(s: LosingPass, x: Joined)
    requires TakesIn(s) && x in s.joined && Transferred(x) && x.action.path == s.l.version.path
    ensures Answers(s.c, s.m, x)
    ensures || (x.transfer.Relocated? && ForeignAt(s.view, s.l.version.path))
            || (x.transfer.Fetched? && x.action.kind == Download && s.l.version.path !in s.b
                && !ForeignAt(s.view, s.l.version.path))
  {
    assert Answers(s.c, s.m, x);
    LoserActions(s, x.action);
  }

  lemma LoserNotConflicting(s: LosingPass)
    requires TakesIn(s)
    ensures Action(s.l.version.path, Conflicting) !in s.c.plan.actions
  {
    if Action(s.l.version.path, Conflicting) in s.c.plan.actions {
      LoserActions(s, Action(s.l.version.path, Conflicting));
    }
  }

  lemma {:induction false} RelocatedIsForeign(s: LosingPass)
    requires TakesIn(s) && RelocatedTo(s.joined, s.l.version.path)
    ensures s.l.version.path in s.c.plan.relocations && ForeignAt(s.view, s.l.version.path)
    ensures Unheld(s.c, s.joined, s.l.version.path)
  {
    var x :| x in s.joined && x.transfer.Relocated? && x.action.path == s.l.version.path;
    assert Transferred(x);
    LoserTransfer(s, x);
  }

  lemma {:induction false} LoserIsUnheldIff(s: LosingPass)
    requires TakesIn(s) && s.l.version.path in s.b
    ensures Unheld(s.c, s.joined, s.l.version.path) <==>
              Gone(s.m, s.view, s.l.version.path) || RelocatedTo(s.joined, s.l.version.path)
  {
    var p := s.l.version.path;
    LoserDeletedIffWinnerIs(s.l, s.losers, s.actions, s.local, s.b, s.m, s.view);
    LoserNotConflicting(s);
    if TransferredTo(s.joined, p) {
      var x :| x in s.joined && Transferred(x) && x.action.path == p;
      LoserTransfer(s, x);
    }
    if RelocatedTo(s.joined, p) { RelocatedIsForeign(s); }
  }

  // ----- When the relocation fails -----

  /** When relocating an evicted loser fails, its row changes all the same exactly in two
      cases: the merge left nothing at its path, or another path's placeholder, put in its
      place, was relocated onto it. With a live winner only the second is left. */
  lemma {:induction false} LoserRowChangesIff(s: LosingPass)
    requires TakesIn(s) && Fails(s.c, s.joined, s.l) && s.l.version.path in s.b
    requires !Ended(s.c, s.m, s.joined).stopped
    ensures RowTouched(TraceOf(Ended(s.c, s.m, s.joined)), s.l.version.path) <==>
              Gone(s.m, s.view, s.l.version.path) || RelocatedTo(s.joined, s.l.version.path)
  {
    var j :| j in s.joined && j.transfer.Failed? && j.action.path == s.l.to;
    PinnedRowChangesIff(s.c, s.m, s.joined, j);
    LoserIsUnheldIff(s);
  }

  /** What changes the row of a chosen loser whose relocation failed. */
  ghost predicate LoserOp(s: LosingPass, op: BaselineOp)
  {
    var p := s.l.version.path;
    || (op.Remove? && p in s.b && Gone(s.m, s.view, p))
    || (op.PutPlaceholder? && RelocatedTo(s.joined, p) && ForeignAt(s.view, p) && p in s.c.plan.relocations
        && op.meta.hash == s.c.plan.relocations[p].hash)
    || (op.Confirm? && p !in s.b && !ForeignAt(s.view, p))
  }

  lemma TransferOp(s: LosingPass, x: Joined, op: BaselineOp)
    requires Answers(s.c, s.m, x) && x in s.joined && op in JoinOps(x) && x.action.path == s.l.version.path
    requires || (x.transfer.Relocated? && ForeignAt(s.view, s.l.version.path))
             || (x.transfer.Fetched? && x.action.kind == Download && s.l.version.path !in s.b
                 && !ForeignAt(s.view, s.l.version.path))
    ensures LoserOp(s, op)
  {
  }

  lemma {:induction false} LoserJoinedOp(s: LosingPass, op: BaselineOp)
    requires TakesIn(s) && OpJoined(s.joined, op) && OpPath(op) == s.l.version.path
    ensures LoserOp(s, op)
  {
    var x :| x in s.joined && op in JoinOps(x);
    LoserTransfer(s, x);
    TransferOp(s, x, op);
  }

  lemma {:induction false} LoserOps(s: LosingPass, op: BaselineOp)
    requires TakesIn(s) && Fails(s.c, s.joined, s.l)
    requires op in OpsOf(Ended(s.c, s.m, s.joined).effects) && OpPath(op) == s.l.version.path
    ensures LoserOp(s, op)
  {
    var j :| j in s.joined && j.transfer.Failed? && j.action.path == s.l.to;
    PinnedOp(s.c, s.m, s.joined, j, op);
    if OpJoined(s.joined, op) {
      LoserJoinedOp(s, op);
    } else {
      LoserActions(s, Action(op.path, DeleteLocal));
    }
  }

  /** The row after changes of these kinds. */
  lemma {:induction false} RowStaysIff(s: LosingPass, trace: seq<Step>, now: int)
    requires ChosenLoser(s.l, s.local, s.b) && SetAside(s.l.version.path) !in trace
    requires forall op :: op in RowsIn(trace) && OpPath(op) == s.l.version.path ==> LoserOp(s, op)
    requires RelocatedTo(s.joined, s.l.version.path) ==>
               RowTouched(trace, s.l.version.path) && ForeignAt(s.view, s.l.version.path)
               && s.l.version.path in s.c.plan.relocations
    requires s.l.version.path in s.b ==>
               (RowTouched(trace, s.l.version.path) <==>
                 Gone(s.m, s.view, s.l.version.path) || RelocatedTo(s.joined, s.l.version.path))
    ensures StandsFor(s.l.version, RowsAfter(s.b, trace, now)) <==>
              if RelocatedTo(s.joined, s.l.version.path)
              then s.c.plan.relocations[s.l.version.path].hash == s.l.version.hash
              else s.l.version.path in s.b && !Gone(s.m, s.view, s.l.version.path)
  {
    var p := s.l.version.path;
    if RelocatedTo(s.joined, p) {
      StubbedRow(s.b, trace, now, p, s.c.plan.relocations[p].hash);
    } else if p !in s.b {
      UnevictedRow(s.b, trace, now, p);
    } else if Gone(s.m, s.view, p) {
      RemovedRow(s.b, trace, now, p);
    } else {
      UntouchedRow(s.b, trace, now, p);
    }
  }

  /** When relocating a chosen loser fails, its row stands for the losing version afterwards, so
      that the next pass chooses it again, exactly if the same bytes were relocated onto its
      path, or none were, its row was left and neither did the merge leave nothing there.
      Otherwise nothing on this device remembers the losing version. */
  lemma {:induction false} LoserStaysIff(s: LosingPass, now: int)
    requires TakesIn(s) && Fails(s.c, s.joined, s.l) && !Ended(s.c, s.m, s.joined).stopped
    ensures RelocatedTo(s.joined, s.l.version.path) ==> s.l.version.path in s.c.plan.relocations
    ensures StandsFor(s.l.version, RowsAfter(s.b, TraceOf(Ended(s.c, s.m, s.joined)), now)) <==>
              if RelocatedTo(s.joined, s.l.version.path)
              then s.c.plan.relocations[s.l.version.path].hash == s.l.version.hash
              else s.l.version.path in s.b && !Gone(s.m, s.view, s.l.version.path)
  {
    var p, q := s.l.version.path, Ended(s.c, s.m, s.joined);
    if p in s.b { LoserRowChangesIff(s); }
    if RelocatedTo(s.joined, p) {
      RelocatedIsForeign(s);
      var j :| j in s.joined && j.transfer.Failed? && j.action.path == s.l.to;
      PinnedRowChangesIff(s.c, s.m, s.joined, j);
    }
    LoserNotConflicting(s);
    if SetAside(p) in TraceOf(q) { AsideIsUnheld(s.c, s.m, s.joined, p); }
    forall op | op in RowsIn(TraceOf(q)) && OpPath(op) == p ensures LoserOp(s, op) {
      EndedPhases(s.c, s.m, s.joined);
      TraceAhead(q);
      LoserOps(s, op);
    }
    RowStaysIff(s, TraceOf(q), now);
  }

  // ----- Three losers forgotten -----

  /** The shortest such pass: the winner is a tombstone, as `apply` writes them, of a version
      this device's does not descend from; its own version lost and is chosen for relocation;
      the relocation fails, and the only thing that becomes durable is that the placeholder
      and its row are gone. */
  lemma ForgottenLoser(time: nat, device: Device)
    ensures var p, to := [1], [2];
            var lost := DeltaEntry(p, [7], 5, 1, 1, false, 0, 3, device, None);
            var winner := DeltaEntry(p, [8], 6, 1, 1, true, 1, 4, device + [1], Some(6));
            var row := FileRecord(p, 1, 0, 5, Some(5), Evicted, None, None);
            var view := ResidencyView(map[p := StubMeta(p, 1, 5, [7], None)], Policy(x => Auto, false), {});
            var c := Context(Plan([Action(to, Relocate), Action(p, DeleteLocal)], map[to := lost]), 5, device, time);
            && GenuineConflict(Conflict(winner, lost), {winner, lost})
            && Stays(Conflict(winner, lost), device, map[p := row])
            && KindFor(p, map[], map[p := row], map[p := winner], view) == Some(DeleteLocal)
            && TraceOf(Ended(c, map[p := winner], [Joined(Action(to, Relocate), Failed)]))
               == [DropFile(p), SetRow(Remove(p))]
  {
    var p, to := [1], [2];
    var lost := DeltaEntry(p, [7], 5, 1, 1, false, 0, 3, device, None);
    var winner := DeltaEntry(p, [8], 6, 1, 1, true, 1, 4, device + [1], Some(6));
    var c := Context(Plan([Action(to, Relocate), Action(p, DeleteLocal)], map[to := lost]), 5, device, time);
    ForgottenTrace(c, p, to, map[p := winner]);
  }

  /** And the shortest with a live winner: the user has copied another path's placeholder over
      the loser's. The loser's own relocation fails and the copy's succeeds, so the row moves on
      to the copied version, and the losing one is logged nowhere. */
  lemma {:induction false} OvertakenLoser(time: nat, device: Device)
    ensures var p, to, other := [1], [2], [3];
            var lost := DeltaEntry(p, [7], 5, 1, 1, false, 0, 3, device, None);
            var winner := DeltaEntry(p, [8], 6, 1, 1, false, 0, 4, device + [1], None);
            var copied := DeltaEntry(other, [9], 8, 1, 1, false, 0, 4, device, None);
            var l := Loser(to, lost);
            var sent := Uploaded([4], 8, 1, 0);
            var b := TwoEvicted(p, other);
            var m := map[p := winner, other := copied];
            var view := CopiedOver(p, other);
            var c := Context(Plan([Action(p, Relocate), Action(to, Relocate)], map[p := copied, to := lost]), 5,
                             device, time);
            var joined := [Joined(Action(to, Relocate), Failed), Joined(Action(p, Relocate), Relocated(sent))];
            var t := TraceOf(Ended(c, m, joined));
            && GenuineConflict(Conflict(winner, lost), {winner, lost, copied})
            && Stays(Conflict(winner, lost), device, b)
            && TakesIn(LosingPass(c, m, joined, l, [l], [Action(p, Relocate)], map[], b, view)) && Fails(c, joined, l)
            && t == [LogDeltas([NewDelta(c, m, p, sent)]), SetRow(PutPlaceholder(StubMeta(p, 1, 8, [4], Some(0))))]
            && !Stays(Conflict(winner, lost), device, RowsAfter(b, t, 0))
  {
    var p, to, other := [1], [2], [3];
    var lost := DeltaEntry(p, [7], 5, 1, 1, false, 0, 3, device, None);
    var winner := DeltaEntry(p, [8], 6, 1, 1, false, 0, 4, device + [1], None);
    var copied := DeltaEntry(other, [9], 8, 1, 1, false, 0, 4, device, None);
    var m := map[p := winner, other := copied];
    var c := Context(Plan([Action(p, Relocate), Action(to, Relocate)], map[p := copied, to := lost]), 5, device, time);
    var failed := Joined(Action(to, Relocate), Failed);
    var done := Joined(Action(p, Relocate), Relocated(Uploaded([4], 8, 1, 0)));
    CopiedOverPlan(c, m, failed, done, Loser(to, lost), p, other);
    CopiedOverRows(c, m, failed, done, TwoEvicted(p, other), lost);
  }

  lemma {:induction false} CopiedOverRows(c: Context, m: Entries, failed: Joined, done: Joined, b: Baseline,
                                          lost: DeltaEntry)
    requires forall a :: a in c.plan.actions ==> a.kind == Relocate || a.kind == Upload
    requires failed.transfer.Failed? && done.transfer.Relocated? && done.action.path == lost.path
    requires done.transfer.result.hash != lost.hash
    ensures var t := TraceOf(Ended(c, m, [failed, done])); var r := done.transfer.result;
            && t == [LogDeltas([NewDelta(c, m, lost.path, r)]),
                     SetRow(PutPlaceholder(StubMeta(lost.path, r.size, r.hash, r.objectKey, Some(r.mtime))))]
            && !StandsFor(lost, RowsAfter(b, t, 0))
  {
    var r := done.transfer.result;
    FailedThenDone(c, m, failed, done);
    var op := PutPlaceholder(StubMeta(lost.path, r.size, r.hash, r.objectKey, Some(r.mtime)));
    assert JoinOps(done) == [op];
    StubbedAfter(b, [NewDelta(c, m, lost.path, r)], op);
  }

  function TwoEvicted(p: Path, other: Path): Baseline
  {
    map[p := FileRecord(p, 1, 0, 5, Some(5), Evicted, None, None),
        other := FileRecord(other, 1, 0, 8, Some(8), Evicted, None, None)]
  }

  function CopiedOver(p: Path, other: Path): ResidencyView
  {
    ResidencyView(map[p := StubMeta(other, 1, 8, [9], None), other := StubMeta(other, 1, 8, [9], None)],
                  Policy(x => Auto, false), {})
  }

  lemma CopiedOverReconciled(m: Entries, p: Path, other: Path)
    requires p != other && m.Keys == {p, other}
    requires m[p].hash == 6 && !m[p].deleted && m[other].hash == 8 && !m[other].deleted
    ensures var b, view := TwoEvicted(p, other), CopiedOver(p, other);
            Plans([Action(p, Relocate)], AllPaths(map[], b, m, view), map[], b, m, view)
  {
    var b, view := TwoEvicted(p, other), CopiedOver(p, other);
    assert AllPaths(map[], b, m, view) == {p, other};
    assert KindFor(p, map[], b, m, view) == Some(Relocate);
    assert KindFor(other, map[], b, m, view).None?;
  }

  lemma {:induction false} CopiedOverPlan(c: Context, m: Entries, failed: Joined, done: Joined, l: Loser, p: Path,
                                          other: Path)
    requires p != other && l.version.path == p && l.version.hash == 5 && l.to != p
    requires m.Keys == {p, other} && m[p].hash == 6 && !m[p].deleted && m[other].hash == 8 && !m[other].deleted
    requires c.plan.actions == [done.action, failed.action] && p in c.plan.relocations
    requires done == Joined(Action(p, Relocate), done.transfer) && done.transfer.Relocated?
    requires failed == Joined(Action(l.to, Relocate), Failed)
    requires done.transfer.result.hash == c.plan.relocations[p].hash
    ensures TakesIn(LosingPass(c, m, [failed, done], l, [l], [Action(p, Relocate)], map[], TwoEvicted(p, other),
                               CopiedOver(p, other)))
    ensures l.to in c.plan.relocations && c.plan.relocations[l.to] == l.version ==> Fails(c, [failed, done], l)
  {
    assert failed in [failed, done];
    CopiedOverReconciled(m, p, other);
    assert [l][..0] == [] && WithLosers([Action(p, Relocate)], []) == [Action(p, Relocate)];
    assert WithLosers([Action(p, Relocate)], [l]) == [Action(p, Relocate), Action(l.to, Relocate)];
  }

  /** The third: a file put back over an evicted one has the bytes of an earlier losing version
      of this device. Renaming it drops the row that stood for the later one, which is chosen
      all the same; should its relocation fail, nothing says that it is still to be kept. */
  lemma DroppedLoser(name: Path -> Path, device: Device, files: Files, rows: Baseline, losers: seq<Loser>)
    ensures var p: Path := [1];
            var first := DeltaEntry(p, [6], 4, 1, 1, false, 0, 2, device, None);
            var lost := DeltaEntry(p, [7], 5, 1, 1, false, 0, 3, device, Some(4));
            var winner := DeltaEntry(p, [8], 6, 1, 1, false, 0, 4, device + [1], None);
            var s := Setting([Conflict(winner, first), Conflict(winner, lost)], device, name,
                             map[p := LocalEntry(p, 1, 1, 4)],
                             map[p := FileRecord(p, 1, 0, 5, Some(5), Evicted, None, None)], {p});
            && GenuineConflict(s.conflicts[0], {first, lost, winner})
            && GenuineConflict(s.conflicts[1], {first, lost, winner})
            && Stays(s.conflicts[1], device, s.was)
            && (Preserved(s, 2, files, rows, losers) ==>
                  Loser(name(p), lost) in losers && p !in rows && !Stays(s.conflicts[1], device, rows))
  {
    var p: Path := [1];
    var first := DeltaEntry(p, [6], 4, 1, 1, false, 0, 2, device, None);
    var lost := DeltaEntry(p, [7], 5, 1, 1, false, 0, 3, device, Some(4));
    var winner := DeltaEntry(p, [8], 6, 1, 1, false, 0, 4, device + [1], None);
    var s := Setting([Conflict(winner, first), Conflict(winner, lost)], device, name, map[p := LocalEntry(p, 1, 1, 4)],
                     map[p := FileRecord(p, 1, 0, 5, Some(5), Evicted, None, None)], {p});
    assert Renames(s, s.conflicts[0]);
    assert GoneBy(s, 1, p) && GoneBy(s, 2, p);
    assert Relocating(s, 1) && LoserOf(s, 1) == Loser(name(p), lost);
    assert ChosenBy(s, 2, Loser(name(p), lost));
  }

  lemma {:induction false} StubbedAfter(b: Baseline, deltas: seq<DeltaEntry>, op: BaselineOp)
    ensures RowsAfter(b, [LogDeltas(deltas), SetRow(op)], 0) == Row(b, op, 0)
  {
    var t := [LogDeltas(deltas), SetRow(op)];
    assert t[..1] == [LogDeltas(deltas)] && t[..1][..0] == [];
    assert RowsAfter(b, [], 0) == b;
    assert RowsAfter(b, t[..1], 0) == RowStep(b, LogDeltas(deltas), 0);
  }

  lemma {:induction false} ForgottenTrace(c: Context, p: Path, to: Path, m: Entries)
    requires c.plan.actions == [Action(to, Relocate), Action(p, DeleteLocal)]
    requires to in c.plan.relocations && c.plan.relocations[to].path == p
    ensures TraceOf(Ended(c, m, [Joined(Action(to, Relocate), Failed)])) == [DropFile(p), SetRow(Remove(p))]
  {
    var joined := [Joined(Action(to, Relocate), Failed)];
    assert joined[..|joined| - 1] == [];
    assert AfterJoins(c, m, joined) == JoinOne(c, AfterJoins(c, m, []), joined[0]);
    var first := AfterJoins(c, m, joined);
    assert first == Progress([], m, {p}, false);
    var actions := c.plan.actions;
    assert actions[..1] == [Action(to, Relocate)];
    assert actions[..1][..0] == [];
    assert AfterActions(c, first, actions[..1]) == ActOne(c, AfterActions(c, first, []), actions[0]);
    var e := Effect([DropFile(p)], [], [Remove(p)]);
    var q := AfterActions(c, first, actions);
    assert q == Adds(first, e);
    assert q.effects == [e] && q.effects[..0] == [];
    assert Batches(q.effects) == FlushedIfFull(Taken(Batches([]), e));
    assert Rows([Remove(p)]) == [SetRow(Remove(p))];
  }
}
