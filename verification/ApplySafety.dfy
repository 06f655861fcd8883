/** What every crash point of `apply` guarantees. */
module ApplySafety {
  // What every crash point of `apply` guarantees: rows never run ahead of the log, a moved
  // placeholder's old path is tombstoned only with or after every relocation of its bytes, and
  // a source's row moves on only after its bytes are logged elsewhere. `Pinned` says exactly
  // when the last one fails.

  import opened Options
  import opened Manifest
  import opened Records
  import opened Engine
  import opened Commits
  import opened Apply

  lemma {:induction false} Locate(effects: seq<Effect>, r: nat) returns (k: nat)
    requires r < |OpsOf(effects)|
    ensures k < |effects| && |OpsOf(effects[..k])| <= r && OpsOf(effects)[r] in effects[k].ops
    decreases |effects|
  {
    var init := effects[..|effects| - 1];
    if r < |OpsOf(init)| {
      k := Locate(init, r);
      assert init[..k] == effects[..k];
    } else {
      k := |effects| - 1;
      assert OpsOf(effects)[r] == effects[k].ops[r - |OpsOf(init)|];
    }
  }

  lemma StepRow(trace: seq<Step>, i: nat)
    requires i < |trace|
    ensures trace[i].SetRow? ==> RowsIn(trace[..i + 1]) == RowsIn(trace[..i]) + [trace[i].op]
    ensures trace[i].SetRow? ==> LoggedIn(trace[..i + 1]) == LoggedIn(trace[..i])
  {
    assert trace[..i + 1][..i] == trace[..i];
  }

  /** The effect a row change belongs to, whose deltas and all earlier ones are then logged. */
  lemma RowAfterLog(p: Progress, i: nat) returns (k: nat)
    requires QuietEffects(p.effects) && i < |TraceOf(p)| && TraceOf(p)[i].SetRow?
    ensures k < |p.effects| && TraceOf(p)[i].op in p.effects[k].ops
    ensures DeltasOf(p.effects[..k + 1]) <= LoggedIn(TraceOf(p)[..i])
  {
    var t := TraceOf(p);
    TraceAhead(p);
    StepRow(t, i);
    RowsGrow(t, i + 1);
    var r := |RowsIn(t[..i])|;
    assert OpsOf(p.effects)[r] == t[i].op;
    k := Locate(p.effects, r);
    assert |LoggedIn(t[..i + 1])| >= |DeltasOf(p.effects[..k + 1])|;
    DeltasPrefix(p.effects, k + 1);
    assert LoggedIn(t[..i + 1]) <= DeltasOf(p.effects);
  }

  function Ended(c: Context, m: Entries, joined: seq<Joined>): Progress
  {
    AfterActions(c, AfterJoins(c, m, joined), c.plan.actions)
  }

  /** Every path the trace has made known to the remote log by step `i`. */
  function KnownBy(m: Entries, trace: seq<Step>, i: nat): set<Path>
    requires i <= |trace|
  {
    m.Keys + PathsOf(Elems(LoggedIn(trace[..i])))
  }

  /** At every crash point, an agreed version is only recorded for a path the pass read from
      the remote or has already logged. */
  lemma RowsAreBacked(c: Context, m: Entries, joined: seq<Joined>, i: nat)
    requires AllAnswer(c, m, joined)
    requires var t := TraceOf(Ended(c, m, joined)); i < |t| && t[i].SetRow? && Advances(t[i].op)
    ensures var t := TraceOf(Ended(c, m, joined)); OpPath(t[i].op) in KnownBy(m, t, i)
  {
    var p := Ended(c, m, joined);
    JoinsKeep(c, m, joined);
    ActionsKeep(c, m, AfterJoins(c, m, joined), c.plan.actions);
    var k := RowAfterLog(p, i);
    assert Known(m, p.effects, k);
  }

  // ----- The first phase -----

  ghost predicate Carries(deltas: seq<DeltaEntry>, p: Path, hash: Hash)
  {
    exists d :: d in deltas && d.path == p && !d.deleted && d.hash == hash
  }

  /** What one joined transfer has left behind. */
  ghost predicate Settled(c: Context, p: Progress, j: Joined)
  {
    && (j.transfer.Failed? && j.action.path in c.plan.relocations ==>
         c.plan.relocations[j.action.path].path in p.pinned)
    && (j.transfer.Relocated? ==> Carries(DeltasOf(p.effects), j.action.path, j.transfer.result.hash))
  }

  ghost predicate RelocatedTo(joined: seq<Joined>, path: Path)
  {
    exists j :: j in joined && j.transfer.Relocated? && j.action.path == path
  }

  ghost predicate FirstPhase(c: Context, p: Progress, joined: seq<Joined>)
  {
    && !p.stopped
    && (forall d :: d in DeltasOf(p.effects) ==> !d.deleted)
    && (forall j :: j in joined ==> Settled(c, p, j))
    && (forall op :: op in OpsOf(p.effects) && op.PutPlaceholder? ==> RelocatedTo(joined, op.meta.path))
    && (forall op :: op in OpsOf(p.effects) ==> !op.Remove?)
  }

  lemma SettledStays(c: Context, p: Progress, q: Progress, j: Joined)
    requires Settled(c, p, j) && p.pinned <= q.pinned && DeltasOf(p.effects) <= DeltasOf(q.effects)
    ensures Settled(c, q, j)
  {
    if j.transfer.Relocated? {
      var d :| d in DeltasOf(p.effects) && d.path == j.action.path && !d.deleted && d.hash == j.transfer.result.hash;
      assert d in DeltasOf(q.effects);
    }
  }

  lemma JoinGrows(c: Context, p: Progress, j: Joined)
    ensures var q := JoinOne(c, p, j);
            && p.pinned <= q.pinned && DeltasOf(p.effects) <= DeltasOf(q.effects) && Settled(c, q, j)
            && (forall d :: d in DeltasOf(q.effects) ==> d in DeltasOf(p.effects) || !d.deleted)
            && (forall op :: op in OpsOf(q.effects) ==>
                  || op in OpsOf(p.effects)
                  || (!op.Remove? && (op.PutPlaceholder? ==> j.transfer.Relocated? && op.meta.path == j.action.path)))
            && q.stopped == p.stopped
  {
    var q := JoinOne(c, p, j);
    if q.effects != p.effects {
      var e := q.effects[|p.effects|];
      assert q.effects == p.effects + [e];
      PushEffect(p.effects, e);
      if j.transfer.Relocated? {
        var d := NewDelta(c, p.manifest, j.action.path, j.transfer.result);
        assert d in e.deltas && d in DeltasOf(q.effects);
      }
    }
  }

  lemma {:induction false} JoinsSettle(c: Context, m: Entries, joined: seq<Joined>)
    ensures FirstPhase(c, AfterJoins(c, m, joined), joined)
  {
    if joined != [] {
      var init, j := joined[..|joined| - 1], joined[|joined| - 1];
      var p := AfterJoins(c, m, init);
      var q := AfterJoins(c, m, joined);
      JoinsSettle(c, m, init);
      JoinGrows(c, p, j);
      assert joined == init + [j];
      forall x | x in joined ensures Settled(c, q, x) {
        if x in init {
          SettledStays(c, p, q, x);
        }
      }
      forall op | op in OpsOf(q.effects) && op.PutPlaceholder? ensures RelocatedTo(joined, op.meta.path) {
        if op in OpsOf(p.effects) {
          var x :| x in init && x.transfer.Relocated? && x.action.path == op.meta.path;
          assert x in joined;
        } else {
          assert j in joined;
        }
      }
    }
  }

  /** The row changes one joined transfer makes. */
  function JoinOps(j: Joined): seq<BaselineOp>
  {
    var path := j.action.path;
    match j.transfer
    case Sent(r) => [Confirm(path, r.size, r.mtime, r.hash)]
    case Relocated(r) => [PutPlaceholder(StubMeta(path, r.size, r.hash, r.objectKey, Some(r.mtime)))]
    case Fetched(size, mtime, hash) =>
      [Confirm(path, size, mtime, hash)] + if j.action.kind == Hydrate then [MarkHydrated(path)] else []
    case _ => []
  }

  predicate Transferred(j: Joined)
  {
    j.transfer.Sent? || j.transfer.Relocated? || j.transfer.Fetched?
  }

  /** Some transfer for the path itself succeeded. */
  ghost predicate TransferredTo(joined: seq<Joined>, path: Path)
  {
    exists j :: j in joined && Transferred(j) && j.action.path == path
  }

  predicate SendsTo(j: Joined, path: Path)
  {
    (j.transfer.Sent? || j.transfer.Relocated?) && j.action.path == path
  }

  /** Some transfer gave the path a new version. */
  ghost predicate SentTo(joined: seq<Joined>, path: Path)
  {
    exists j :: j in joined && SendsTo(j, path)
  }

  ghost predicate OpJoined(joined: seq<Joined>, op: BaselineOp)
  {
    exists j :: j in joined && op in JoinOps(j)
  }

  ghost predicate Names(deltas: seq<DeltaEntry>, path: Path)
  {
    exists d :: d in deltas && d.path == path
  }

  lemma NamesConcat(a: seq<DeltaEntry>, b: seq<DeltaEntry>, path: Path)
    ensures Names(a + b, path) <==> Names(a, path) || Names(b, path)
  {
    assert forall d :: d in a + b <==> d in a || d in b;
  }

  /** The delta one joined transfer logs. */
  function JoinDeltas(c: Context, m: Entries, j: Joined): seq<DeltaEntry>
  {
    if j.transfer.Sent? || j.transfer.Relocated? then [NewDelta(c, m, j.action.path, j.transfer.result)] else []
  }

  lemma {:induction false} JoinEffect(c: Context, p: Progress, j: Joined)
    ensures var q := JoinOne(c, p, j); var e := Effect([], JoinDeltas(c, p.manifest, j), JoinOps(j));
            q.effects == if Transferred(j) then p.effects + [e] else p.effects
    ensures !Transferred(j) ==> JoinDeltas(c, p.manifest, j) == [] && JoinOps(j) == []
  {
  }

  lemma {:induction false} JoinAdds(c: Context, p: Progress, j: Joined, x: Path)
    ensures var q := JoinOne(c, p, j);
            && OpsOf(q.effects) == OpsOf(p.effects) + JoinOps(j)
            && (Names(DeltasOf(q.effects), x) <==> Names(DeltasOf(p.effects), x) || SendsTo(j, x))
  {
    var deltas := JoinDeltas(c, p.manifest, j);
    JoinEffect(c, p, j);
    if Transferred(j) {
      PushEffect(p.effects, Effect([], deltas, JoinOps(j)));
      NamesConcat(DeltasOf(p.effects), deltas, x);
      assert Names(deltas, x) <==> SendsTo(j, x) by {
        if SendsTo(j, x) { assert deltas[0] in deltas; }
      }
    }
  }

  /** The first phase changes exactly the rows, and logs exactly the paths, that its transfers
      are for. */
  lemma {:induction false} JoinedOps(c: Context, m: Entries, joined: seq<Joined>, x: Path)
    ensures var p := AfterJoins(c, m, joined);
            && (forall op :: op in OpsOf(p.effects) <==> OpJoined(joined, op))
            && (Names(DeltasOf(p.effects), x) <==> SentTo(joined, x))
  {
    if joined != [] {
      var init, j := joined[..|joined| - 1], joined[|joined| - 1];
      var p, q := AfterJoins(c, m, init), AfterJoins(c, m, joined);
      JoinedOps(c, m, init, x);
      JoinAdds(c, p, j, x);
      assert joined == init + [j];
      forall op ensures op in OpsOf(q.effects) <==> OpJoined(joined, op) {
        OneMoreJoined(init, j, op, x);
      }
      OneMoreJoined(init, j, Remove(x), x);
    }
  }

  lemma OneMoreJoined(init: seq<Joined>, j: Joined, op: BaselineOp, x: Path)
    ensures OpJoined(init + [j], op) <==> OpJoined(init, op) || op in JoinOps(j)
    ensures SentTo(init + [j], x) <==> SentTo(init, x) || SendsTo(j, x)
  {
    assert forall y :: y in init + [j] <==> y in init || y == j;
  }

  ghost predicate Touches(ops: seq<BaselineOp>, path: Path)
  {
    exists op :: op in ops && OpPath(op) == path
  }

  lemma JoinedIsTransfer(joined: seq<Joined>, op: BaselineOp)
    requires OpJoined(joined, op)
    ensures TransferredTo(joined, OpPath(op))
  {
    var j :| j in joined && op in JoinOps(j);
    assert Transferred(j);
  }

  lemma TouchedInFirst(c: Context, m: Entries, joined: seq<Joined>, s: Path)
    ensures Touches(OpsOf(AfterJoins(c, m, joined).effects), s) <==> TransferredTo(joined, s)
  {
    JoinedOps(c, m, joined, s);
    var ops := OpsOf(AfterJoins(c, m, joined).effects);
    if Touches(ops, s) {
      var op :| op in ops && OpPath(op) == s;
      JoinedIsTransfer(joined, op);
    }
    if TransferredTo(joined, s) {
      var j :| j in joined && Transferred(j) && j.action.path == s;
      var op := JoinOps(j)[0];
      assert op in JoinOps(j);
      assert OpJoined(joined, op);
    }
  }

  // ----- The second phase -----

  /** A tombstone or a placeholder never touches a pinned path; only a local delete does. */
  ghost predicate Lawful(pinned: set<Path>, actions: seq<Action>, e: Effect)
  {
    && (forall d :: d in e.deltas ==> d.deleted && d.path !in pinned && Action(d.path, DeleteRemote) in actions)
    && (forall op :: op in e.ops ==> op.PutPlaceholder? || op.Remove?)
    && (forall op :: op in e.ops && OpPath(op) in pinned ==> op.Remove? && Action(op.path, DeleteLocal) in actions)
  }

  ghost predicate SecondPhase(p: Progress, q: Progress, actions: seq<Action>)
  {
    && q.pinned == p.pinned && p.effects <= q.effects
    && (forall k :: |p.effects| <= k < |q.effects| ==> Lawful(p.pinned, actions, q.effects[k]))
    && (!q.stopped ==> forall x :: Action(x, DeleteLocal) in actions ==> Remove(x) in OpsOf(q.effects))
  }

  lemma AddsLawful(p: Progress, e: Effect, actions: seq<Action>)
    requires Lawful(p.pinned, actions, e)
    ensures exists x :: Adds(p, e).effects == p.effects + [x] && Lawful(p.pinned, actions, x)
    ensures forall op :: op in e.ops ==> op in OpsOf(Adds(p, e).effects)
  {
    PushEffect(p.effects, e);
  }

  lemma BuriedLawful(c: Context, p: Progress, path: Path, actions: seq<Action>)
    requires Action(path, DeleteRemote) in actions && path !in p.pinned
    ensures Lawful(p.pinned, actions, Buried(c, p, path).effects[|p.effects|])
  {
  }

  lemma ActLawful(c: Context, p: Progress, a: Action, actions: seq<Action>)
    requires a in actions
    ensures var q := ActOne(c, p, a);
            && q.pinned == p.pinned && (p.stopped ==> q.stopped)
            && (q.effects == p.effects || exists e :: q.effects == p.effects + [e] && Lawful(p.pinned, actions, e))
            && (!q.stopped && a.kind == DeleteLocal ==> Remove(a.path) in OpsOf(q.effects))
  {
    assert a == Action(a.path, a.kind);
    if p.stopped {
    } else if a.kind == DeleteLocal {
      AddsLawful(p, Effect([DropFile(a.path)], [], [Remove(a.path)]), actions);
    } else if a.kind == DeleteRemote && a.path !in p.pinned {
      BuriedLawful(c, p, a.path, actions);
      AddsLawful(p, Buried(c, p, a.path).effects[|p.effects|], actions);
    } else if a.kind == Conflicting {
      AddsLawful(p, Effect([SetAside(a.path)], [], []), actions);
    } else if a.path !in p.pinned && a.path in p.manifest {
      AddsLawful(p, Effect([], [], [PutPlaceholder(StubFor(p.manifest[a.path], a.path))]), actions);
    }
  }

  lemma LawfulMore(pinned: set<Path>, some: seq<Action>, all: seq<Action>, e: Effect)
    requires Lawful(pinned, some, e) && forall a :: a in some ==> a in all
    ensures Lawful(pinned, all, e)
  {
  }

  lemma OneMoreLawful(p: Progress, mid: Progress, q: Progress, init: seq<Action>, actions: seq<Action>)
    requires SecondPhase(p, mid, init) && forall a :: a in init ==> a in actions
    requires q.effects == mid.effects || exists e :: q.effects == mid.effects + [e] && Lawful(p.pinned, actions, e)
    ensures p.effects <= q.effects
    ensures forall k :: |p.effects| <= k < |q.effects| ==> Lawful(p.pinned, actions, q.effects[k])
  {
    forall k | |p.effects| <= k < |mid.effects| ensures Lawful(p.pinned, actions, q.effects[k]) {
      LawfulMore(p.pinned, init, actions, mid.effects[k]);
    }
  }

  lemma StillRemoved(mid: Progress, q: Progress, x: Path)
    requires mid.effects <= q.effects && Remove(x) in OpsOf(mid.effects)
    ensures Remove(x) in OpsOf(q.effects)
  {
    assert q.effects[..|mid.effects|] == mid.effects;
    DeltasPrefix(q.effects, |mid.effects|);
  }

  lemma {:induction false} ActionsLawful(c: Context, p: Progress, actions: seq<Action>)
    requires !p.stopped
    ensures SecondPhase(p, AfterActions(c, p, actions), actions)
  {
    if actions != [] {
      var init, a := actions[..|actions| - 1], actions[|actions| - 1];
      var mid, q := AfterActions(c, p, init), AfterActions(c, p, actions);
      assert actions == init + [a];
      ActionsLawful(c, p, init);
      ActLawful(c, mid, a, actions);
      OneMoreLawful(p, mid, q, init, actions);
      if !q.stopped {
        forall x | Action(x, DeleteLocal) in actions ensures Remove(x) in OpsOf(q.effects) {
          if Action(x, DeleteLocal) in init {
            StillRemoved(mid, q, x);
          }
        }
      }
    }
  }

  lemma {:induction false} TailDeltas(effects: seq<Effect>, n: nat)
    requires n <= |effects|
    ensures forall d :: d in DeltasOf(effects) ==>
              d in DeltasOf(effects[..n]) || exists k :: n <= k < |effects| && d in effects[k].deltas
    ensures forall op :: op in OpsOf(effects) ==>
              op in OpsOf(effects[..n]) || exists k :: n <= k < |effects| && op in effects[k].ops
    decreases |effects|
  {
    if n < |effects| {
      var init := effects[..|effects| - 1];
      TailDeltas(init, n);
      assert init[..n] == effects[..n];
      forall d | d in DeltasOf(effects) && d !in DeltasOf(effects[..n])
        ensures exists k :: n <= k < |effects| && d in effects[k].deltas {
        if d in DeltasOf(init) {
          var k :| n <= k < |init| && d in init[k].deltas;
          assert d in effects[k].deltas;
        } else {
          assert d in effects[|effects| - 1].deltas;
        }
      }
      forall op | op in OpsOf(effects) && op !in OpsOf(effects[..n])
        ensures exists k :: n <= k < |effects| && op in effects[k].ops {
        if op in OpsOf(init) {
          var k :| n <= k < |init| && op in init[k].ops;
          assert op in effects[k].ops;
        } else {
          assert op in effects[|effects| - 1].ops;
        }
      }
    } else {
      assert effects[..n] == effects;
    }
  }

  // ----- The whole call -----

  /** Every relocation planned was joined. */
  ghost predicate AllJoined(c: Context, joined: seq<Joined>)
  {
    forall a :: a in c.plan.actions && a.kind == Relocate ==> exists j :: j in joined && j.action == a
  }

  lemma {:induction false} EndedPhases(c: Context, m: Entries, joined: seq<Joined>)
    requires AllAnswer(c, m, joined)
    ensures FirstPhase(c, AfterJoins(c, m, joined), joined)
    ensures SecondPhase(AfterJoins(c, m, joined), Ended(c, m, joined), c.plan.actions)
    ensures QuietEffects(Ended(c, m, joined).effects)
  {
    JoinsSettle(c, m, joined);
    ActionsLawful(c, AfterJoins(c, m, joined), c.plan.actions);
    JoinsKeep(c, m, joined);
    ActionsKeep(c, m, AfterJoins(c, m, joined), c.plan.actions);
  }

  /** A tombstone logged means the first phase's deltas are all logged, and its path is not pinned. */
  lemma {:induction false} TombstoneIsLate(c: Context, m: Entries, joined: seq<Joined>, i: nat, y: DeltaEntry)
    requires AllAnswer(c, m, joined)
    requires i <= |TraceOf(Ended(c, m, joined))| && y in LoggedIn(TraceOf(Ended(c, m, joined))[..i]) && y.deleted
    ensures var p := AfterJoins(c, m, joined);
            DeltasOf(p.effects) <= LoggedIn(TraceOf(Ended(c, m, joined))[..i]) && y.path !in p.pinned
  {
    var p, q := AfterJoins(c, m, joined), Ended(c, m, joined);
    EndedPhases(c, m, joined);
    TraceAhead(q);
    RowsGrow(TraceOf(q), i);
    var logged := LoggedIn(TraceOf(q)[..i]);
    assert logged <= DeltasOf(q.effects);
    assert q.effects[..|p.effects|] == p.effects;
    DeltasPrefix(q.effects, |p.effects|);
    assert |logged| <= |DeltasOf(p.effects)| ==> logged <= DeltasOf(p.effects);
    TailDeltas(q.effects, |p.effects|);
    var k :| |p.effects| <= k < |q.effects| && y in q.effects[k].deltas;
    assert Lawful(p.pinned, c.plan.actions, q.effects[k]);
  }

  /** Unless it failed, a relocation's delta is among the first phase's. */
  lemma {:induction false} RelocationSettled(c: Context, m: Entries, joined: seq<Joined>, to: Path)
    requires AllAnswer(c, m, joined) && AllJoined(c, joined)
    requires Action(to, Relocate) in c.plan.actions && to in c.plan.relocations
    ensures var p := AfterJoins(c, m, joined);
            || c.plan.relocations[to].path in p.pinned
            || Carries(DeltasOf(p.effects), to, c.plan.relocations[to].hash)
  {
    JoinsSettle(c, m, joined);
    var j :| j in joined && j.action == Action(to, Relocate);
    assert Answers(c, m, j) && Settled(c, AfterJoins(c, m, joined), j);
  }

  lemma CarriesMore(some: seq<DeltaEntry>, more: seq<DeltaEntry>, p: Path, hash: Hash)
    requires Carries(some, p, hash) && some <= more
    ensures Carries(more, p, hash)
  {
    var d :| d in some && d.path == p && !d.deleted && d.hash == hash;
    assert d in more;
  }

  /** At every crash point, if a placeholder's old path is tombstoned in the log, then every
      relocation of its bytes planned in the pass is logged too: in an earlier object or in
      the same one. */
  lemma MovedBytesAreLogged(c: Context, m: Entries, joined: seq<Joined>, i: nat, y: DeltaEntry, to: Path)
    requires AllAnswer(c, m, joined) && AllJoined(c, joined)
    requires i <= |TraceOf(Ended(c, m, joined))| && y in LoggedIn(TraceOf(Ended(c, m, joined))[..i]) && y.deleted
    requires Action(to, Relocate) in c.plan.actions && to in c.plan.relocations && c.plan.relocations[to].path == y.path
    ensures Carries(LoggedIn(TraceOf(Ended(c, m, joined))[..i]), to, c.plan.relocations[to].hash)
  {
    TombstoneIsLate(c, m, joined, i, y);
    RelocationSettled(c, m, joined, to);
    CarriesMore(DeltasOf(AfterJoins(c, m, joined).effects), LoggedIn(TraceOf(Ended(c, m, joined))[..i]), to,
                c.plan.relocations[to].hash);
  }

  /** A row changed by a placeholder action comes after all of the first phase is logged, and
      never for a pinned path. */
  lemma {:induction false} PlaceholderIsLate(c: Context, m: Entries, joined: seq<Joined>, i: nat)
    requires AllAnswer(c, m, joined)
    requires var t := TraceOf(Ended(c, m, joined));
             i < |t| && t[i].SetRow? && t[i].op.PutPlaceholder? && !RelocatedTo(joined, t[i].op.meta.path)
    ensures var t := TraceOf(Ended(c, m, joined)); var p := AfterJoins(c, m, joined);
            DeltasOf(p.effects) <= LoggedIn(t[..i]) && t[i].op.meta.path !in p.pinned
  {
    var p, q := AfterJoins(c, m, joined), Ended(c, m, joined);
    var op := TraceOf(q)[i].op;
    EndedPhases(c, m, joined);
    var k := RowAfterLog(q, i);
    assert op !in OpsOf(p.effects);
    if k < |p.effects| {
      assert q.effects[k] == p.effects[k];
      OpIn(p.effects, k, op);
    }
    assert k >= |p.effects|;
    assert Lawful(p.pinned, c.plan.actions, q.effects[k]);
    assert q.effects[..k + 1][..|p.effects|] == p.effects;
    DeltasPrefix(q.effects[..k + 1], |p.effects|);
  }

  lemma {:induction false} OpIn(effects: seq<Effect>, k: nat, op: BaselineOp)
    requires k < |effects| && op in effects[k].ops
    ensures op in OpsOf(effects)
  {
    assert effects[..k + 1][..k] == effects[..k];
    assert op in OpsOf(effects[..k + 1]);
    DeltasPrefix(effects, k + 1);
  }

  /** At every crash point, the row of a relocation's source claims another version only if its
      bytes are already logged under their new path, or a transfer for that path itself, which
      nothing holds back, succeeded. */
  lemma {:induction false} LoserMovesAfterItsBytes(c: Context, m: Entries, joined: seq<Joined>, i: nat, to: Path)
    requires AllAnswer(c, m, joined) && AllJoined(c, joined)
    requires Action(to, Relocate) in c.plan.actions && to in c.plan.relocations
    requires var t := TraceOf(Ended(c, m, joined));
             i < |t| && t[i].SetRow? && Advances(t[i].op) && OpPath(t[i].op) == c.plan.relocations[to].path
    ensures || TransferredTo(joined, c.plan.relocations[to].path)
            || Carries(LoggedIn(TraceOf(Ended(c, m, joined))[..i]), to, c.plan.relocations[to].hash)
  {
    var q := Ended(c, m, joined);
    var op := TraceOf(q)[i].op;
    if !TransferredTo(joined, OpPath(op)) {
      TouchedInFirst(c, m, joined, OpPath(op));
      AdvanceIsAStub(c, m, joined, i);
      NoTransferNoRelocation(joined, OpPath(op));
      PlaceholderIsLate(c, m, joined, i);
      RelocationSettled(c, m, joined, to);
      CarriesMore(DeltasOf(AfterJoins(c, m, joined).effects), LoggedIn(TraceOf(q)[..i]), to,
                  c.plan.relocations[to].hash);
    }
  }

  lemma NoTransferNoRelocation(joined: seq<Joined>, path: Path)
    requires !TransferredTo(joined, path)
    ensures !RelocatedTo(joined, path)
  {
  }

  /** Past the first phase only placeholders claim a version. */
  lemma {:induction false} AdvanceIsAStub(c: Context, m: Entries, joined: seq<Joined>, i: nat)
    requires AllAnswer(c, m, joined)
    requires var t := TraceOf(Ended(c, m, joined));
             && i < |t| && t[i].SetRow? && Advances(t[i].op)
             && !Touches(OpsOf(AfterJoins(c, m, joined).effects), OpPath(t[i].op))
    ensures TraceOf(Ended(c, m, joined))[i].op.PutPlaceholder?
  {
    var p, q := AfterJoins(c, m, joined), Ended(c, m, joined);
    var op := TraceOf(q)[i].op;
    EndedPhases(c, m, joined);
    var k := RowAfterLog(q, i);
    if k < |p.effects| {
      assert q.effects[k] == p.effects[k];
      OpIn(p.effects, k, op);
    }
    assert k >= |p.effects| ==> Lawful(p.pinned, c.plan.actions, q.effects[k]);
  }

  /** A source whose relocation failed is never tombstoned. */
  lemma PinnedIsNotBuried(c: Context, m: Entries, joined: seq<Joined>, j: Joined, y: DeltaEntry)
    requires AllAnswer(c, m, joined) && j in joined && j.transfer.Failed? && j.action.path in c.plan.relocations
    requires y in LoggedIn(TraceOf(Ended(c, m, joined))) && y.deleted
    ensures y.path != c.plan.relocations[j.action.path].path
  {
    var t := TraceOf(Ended(c, m, joined));
    JoinsSettle(c, m, joined);
    assert Settled(c, AfterJoins(c, m, joined), j);
    assert t[..|t|] == t;
    TombstoneIsLate(c, m, joined, |t|, y);
  }

  lemma RemovedInSecond(p: Progress, q: Progress, actions: seq<Action>, s: Path)
    requires SecondPhase(p, q, actions) && s in p.pinned && Remove(s) !in OpsOf(p.effects)
    requires Remove(s) in OpsOf(q.effects)
    ensures Action(s, DeleteLocal) in actions
  {
    assert q.effects[..|p.effects|] == p.effects;
    TailDeltas(q.effects, |p.effects|);
    var k :| |p.effects| <= k < |q.effects| && Remove(s) in q.effects[k].ops;
    assert Lawful(p.pinned, actions, q.effects[k]);
  }

  /** But a planned local delete removes its row all the same: unless an error stops the call,
      exactly then. */
  lemma PinnedRowGoesIffDeleted(c: Context, m: Entries, joined: seq<Joined>, j: Joined)
    requires AllAnswer(c, m, joined) && j in joined && j.transfer.Failed? && j.action.path in c.plan.relocations
    requires !Ended(c, m, joined).stopped
    ensures var s := c.plan.relocations[j.action.path].path;
            Remove(s) in RowsIn(TraceOf(Ended(c, m, joined))) <==> Action(s, DeleteLocal) in c.plan.actions
  {
    var s := c.plan.relocations[j.action.path].path;
    var p, q := AfterJoins(c, m, joined), Ended(c, m, joined);
    EndedPhases(c, m, joined);
    TraceAhead(q);
    assert Settled(c, p, j);
    assert Remove(s) !in OpsOf(p.effects);
    if Remove(s) in OpsOf(q.effects) {
      RemovedInSecond(p, q, c.plan.actions, s);
    }
  }
}
