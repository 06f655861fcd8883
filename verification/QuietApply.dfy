/**
 Why a pass really moves paths as `Convergence` says: the effects `apply` adds for its
 transfers and actions, carried out on the device and on the remote, then the scan's rows,
 then the evictions, make a `QuietPass`.

 Each effect is carried out as a whole. Distinct effects of a plan are about distinct paths,
 so the order batching puts their deltas and rows in does not show here; that it keeps the
 log ahead of the rows is `Apply.BatchesAhead`.
 */
module QuietApply {
  import opened Options
  import opened Manifest
  import opened Records
  import opened Engine
  import opened Convergence
  import A = Apply
  import K = Commits
  import Evict

  // ----- Carrying out an effect -----

  function AllLogged(s: Replica, deltas: seq<DeltaEntry>): Replica
    decreases |deltas|
  {
    if deltas == [] then s else AllLogged(s.(remote := Folded(s.remote, deltas[0])), deltas[1..])
  }

  /** A row change; a placeholder's row is written after the placeholder. */
  function Recorded(s: Replica, op: K.BaselineOp, now: int): Replica
  {
    var t := s.(rows := K.Row(s.rows, op, now));
    if op.PutPlaceholder? then t.(stubs := s.stubs[op.meta.path := op.meta]) else t
  }

  function AllRecorded(s: Replica, ops: seq<K.BaselineOp>, now: int): Replica
    decreases |ops|
  {
    if ops == [] then s else AllRecorded(Recorded(s, ops[0], now), ops[1..], now)
  }

  /** Deleting a file takes its placeholder along; a conflict renames the file, if there is
      one, and drops the row. */
  function Touched(s: Replica, step: A.Step, copies: map<Path, Path>): Replica
  {
    match step
    case DropFile(p) => s.(files := s.files - {p}, stubs := s.stubs - {p})
    case SetAside(p) =>
      var t := s.(files := s.files - {p}, rows := s.rows - {p});
      if p in s.files && p in copies then t.(files := t.files[copies[p] := s.files[p].(path := copies[p])]) else t
    case _ => s
  }

  function AllTouched(s: Replica, steps: seq<A.Step>, copies: map<Path, Path>): Replica
    decreases |steps|
  {
    if steps == [] then s else AllTouched(Touched(s, steps[0], copies), steps[1..], copies)
  }

  function Performed(s: Replica, e: A.Effect, copies: map<Path, Path>, now: int): Replica
  {
    AllRecorded(AllLogged(AllTouched(s, e.now, copies), e.deltas), e.ops, now)
  }

  /** What `q` has done beyond `p`: at most one effect. */
  function Onward(s: Replica, p: A.Progress, q: A.Progress, copies: map<Path, Path>, now: int): Replica
  {
    if |q.effects| == |p.effects| + 1 then Performed(s, q.effects[|p.effects|], copies, now) else s
  }

  /** The file a finished download leaves; hydration drops the placeholder. */
  function Arrived(s: Replica, j: A.Joined): Replica
  {
    var p := j.action.path;
    if !j.transfer.Fetched? then s
    else
      var t := s.(files := s.files[p := LocalEntry(p, j.transfer.size, j.transfer.mtime, j.transfer.hash)]);
      if j.action.kind == Hydrate then t.(stubs := s.stubs - {p}) else t
  }

  function Joins(c: A.Context, s: Replica, joined: seq<A.Joined>, copies: map<Path, Path>, now: int): Replica
  {
    if joined == [] then s
    else
      var init, j := joined[..|joined| - 1], joined[|joined| - 1];
      var p := A.AfterJoins(c, s.remote, init);
      Onward(Arrived(Joins(c, s, init, copies, now), j), p, A.JoinOne(c, p, j), copies, now)
  }

  /** The second phase, from `p` and what the first left. */
  function Acts(c: A.Context, p: A.Progress, s: Replica, actions: seq<Action>, copies: map<Path, Path>,
                now: int): Replica
  {
    if actions == [] then s
    else
      var init, a := actions[..|actions| - 1], actions[|actions| - 1];
      var q := A.AfterActions(c, p, init);
      Onward(Acts(c, p, s, init, copies, now), q, A.ActOne(c, q, a), copies, now)
  }

  /** A real file's own placeholder is dropped before anything is planned. */
  function Started(r: Replica): Replica
  {
    r.(stubs := PlannedStubs(r))
  }

  /** `record_scan` with the files seen before `apply`: every entry touches its own row. */
  function RowsScanned(s: Replica, seen: Files): Replica
  {
    s.(rows := map p | p in s.rows.Keys + seen.Keys ::
                 if p in seen then RecordScanned(s.rows, seen[p].(path := p))[p] else s.rows[p])
  }

  /** Every chosen path evicted, as one `evict_one` ends: file gone, own placeholder, row marked. */
  function EvictedAll(s: Replica, paths: set<Path>): Replica
    requires forall p :: p in paths ==> p in s.files
  {
    s.(files := s.files - paths,
    stubs := s.stubs + (map p | p in paths :: StubMeta(p, s.files[p].size, s.files[p].hash, [], None)),
    rows := map p | p in s.rows :: if p in paths then s.rows[p].(residency := Evicted) else s.rows[p])
  }

  /** Of the chosen paths, those `evict_one` does not refuse: eligible, and the file still the
      remote version. A path wanted here is never chosen. */
  function Evictable(s: Replica, policy: Policy, chosen: set<Path>): set<Path>
  {
    set p | p in chosen && p in s.files && policy.mode(p) != LocalOnly
            && Evict.Eligible(s.rows, s.remote, {}, p).None? && HereOf(s.files, p) == ThereOf(s.remote, p)
  }

  /** A whole pass. */
  function Pass(c: A.Context, r: Replica, joined: seq<A.Joined>, policy: Policy, copies: map<Path, Path>,
                chosen: set<Path>, now: int): Replica
  {
    var s := Joins(c, Started(r), joined, copies, now);
    var t := Acts(c, A.AfterJoins(c, r.remote, joined), s, c.plan.actions, copies, now);
    var u := RowsScanned(t, r.files);
    EvictedAll(u, Evictable(u, policy, chosen))
  }

  // ----- Quiet conditions -----

  predicate Transfers(k: ActionKind)
  {
    k == Download || k == Hydrate || k == Relocate || k == Upload
  }

  /** The transfer of a planned action succeeded, and moved the version it was planned for. */
  predicate Succeeded(c: A.Context, r: Replica, j: A.Joined)
  {
    && j.action in c.plan.actions
    && match j.action.kind
       case Download => j.transfer.Fetched? && Some(j.transfer.hash) == ThereOf(r.remote, j.action.path)
       case Hydrate => j.transfer.Fetched? && Some(j.transfer.hash) == ThereOf(r.remote, j.action.path)
       case Upload => j.transfer.Sent? && Some(j.transfer.result.hash) == HereOf(r.files, j.action.path)
       case Relocate =>
         && j.transfer.Relocated? && j.action.path in c.plan.relocations
         && j.transfer.result.hash == c.plan.relocations[j.action.path].hash
       case _ => false
  }

  /** No other writer, no failed transfer, every transfer joined once, fresh conflict names. */
  ghost predicate Quiet(c: A.Context, r: Replica, joined: seq<A.Joined>, policy: Policy, copies: map<Path, Path>)
  {
    && Plans(c.plan.actions, AllPaths(r.files, r.rows, r.remote, ViewOf(r, policy)), r.files, r.rows, r.remote,
           ViewOf(r, policy))
    && Relocates(c.plan.relocations, AllPaths(r.files, r.rows, r.remote, ViewOf(r, policy)), r.files, r.remote,
           ViewOf(r, policy))
    && (forall q :: q in r.remote ==> r.remote[q].lamport < c.lamport)
    && (forall j :: j in joined ==> Succeeded(c, r, j))
    && (forall i, k :: 0 <= i < k < |joined| ==> joined[i].action != joined[k].action)
    && (forall a :: a in c.plan.actions && Transfers(a.kind) ==> exists j :: j in joined && j.action == a)
    && (forall p :: p in copies <==> p in r.files && Kind(r, policy, p) == Some(Conflicting))
    && (forall p :: p in copies ==> Unused(r, copies[p]))
    && (forall p, x :: p in copies && x in copies && copies[p] == copies[x] ==> p == x)
  }

  // ----- Part of the way -----

  /** The paths of `done` have moved as `Applied` says, the others have not moved at all. */
  ghost predicate Half(r: Replica, policy: Policy, copies: map<Path, Path>, done: set<Path>, p: A.Progress, s: Replica)
  {
    && !p.stopped && p.pinned == {}
    && (forall q :: q !in copies.Values ==> CellOf(s, q) == if q in done then Moved(r, policy, q) else CellOf(r, q))
    && (forall x :: x in copies ==>
          CellOf(s, copies[x]) == Cell(if x in done then HereOf(r.files, x) else None, NoStub, None, None))
    && (forall q :: q !in done ==> SameAt(r.remote, p.manifest, q) && SameAt(r.remote, s.remote, q))
  }

  function Moved(r: Replica, policy: Policy, q: Path): Cell
  {
    Applied(CellOf(r, q), Kind(r, policy, q), SourceOf(r, q))
  }

  predicate SameAt(a: Entries, b: Entries, q: Path)
  {
    (q in a <==> q in b) && (q in a ==> a[q] == b[q])
  }

  lemma HalfMore(r: Replica, policy: Policy, copies: map<Path, Path>, done: set<Path>, p: A.Progress, s: Replica,
                 path: Path, q: A.Progress, t: Replica)
    requires Half(r, policy, copies, done, p, s) && path !in done && path !in copies.Values
    requires !q.stopped && q.pinned == {}
    requires forall x :: x != path ==> SameAt(p.manifest, q.manifest, x) && SameAt(s.remote, t.remote, x)
    requires forall x :: x != path && x !in copies.Values ==> CellOf(t, x) == CellOf(s, x)
    requires CellOf(t, path) == Moved(r, policy, path)
    requires forall x :: x in copies ==>
                           CellOf(t, copies[x])
                           == if x == path then Cell(HereOf(r.files, x), NoStub, None, None) else CellOf(s, copies[x])
    ensures Half(r, policy, copies, done + {path}, q, t)
  {
    var more := done + {path};
    forall x | x !in copies.Values ensures CellOf(t, x) == if x in more then Moved(r, policy, x) else CellOf(r, x) {
      assert CellOf(s, x) == if x in done then Moved(r, policy, x) else CellOf(r, x);
    }
    forall x | x in copies
      ensures CellOf(t, copies[x]) == Cell(if x in more then HereOf(r.files, x) else None, NoStub, None, None) {
      assert CellOf(s, copies[x]) == Cell(if x in done then HereOf(r.files, x) else None, NoStub, None, None);
    }
    forall x | x !in more ensures SameAt(r.remote, q.manifest, x) && SameAt(r.remote, t.remote, x) {
      assert SameAt(r.remote, p.manifest, x) && SameAt(r.remote, s.remote, x);
      assert SameAt(p.manifest, q.manifest, x) && SameAt(s.remote, t.remote, x);
    }
  }

  // ----- One turn -----

  /** What an effect does to its own path, step by step. */
  function RowOn(c: Cell, op: K.BaselineOp): Cell
  {
    match op
    case Confirm(_, _, _, h) => c.(row := Some(Row(h, Some(h), false)))
    case PutPlaceholder(meta) => c.(stub := Own, row := Some(Row(meta.hash, Some(meta.hash), true)))
    case MarkHydrated(_) => c
    case Remove(_) => c.(row := None)
  }

  function RowsOn(c: Cell, ops: seq<K.BaselineOp>): Cell
    decreases |ops|
  {
    if ops == [] then c else RowsOn(RowOn(c, ops[0]), ops[1..])
  }

  function TouchOn(c: Cell, step: A.Step): Cell
  {
    match step
    case DropFile(_) => c.(here := None, stub := NoStub)
    case SetAside(_) => c.(here := None, row := None)
    case _ => c
  }

  function EffectOn(c: Cell, e: A.Effect): Cell
    requires |e.now| <= 1 && |e.deltas| <= 1
  {
    var d := if e.now == [] then c else TouchOn(c, e.now[0]);
    var f := if e.deltas == [] then d else d.(there := if e.deltas[0].deleted then None else Some(e.deltas[0].hash));
    RowsOn(f, e.ops)
  }

  /** Everything in the effect is about `path`. */
  predicate About(e: A.Effect, path: Path)
  {
    && |e.now| <= 1 && (forall x :: x in e.now ==> x == A.DropFile(path) || x == A.SetAside(path))
    && |e.deltas| <= 1 && (forall d :: d in e.deltas ==> d.path == path)
    && (forall op :: op in e.ops ==> K.OpPath(op) == path)
  }

  lemma RecordedCells(s: Replica, op: K.BaselineOp, now: int)
    ensures forall x :: x != K.OpPath(op) ==> CellOf(Recorded(s, op, now), x) == CellOf(s, x)
    ensures Recorded(s, op, now).remote == s.remote && Recorded(s, op, now).files == s.files
    ensures CellOf(Recorded(s, op, now), K.OpPath(op)) == RowOn(CellOf(s, K.OpPath(op)), op)
  {
  }

  lemma {:induction false} AllRecordedCells(s: Replica, ops: seq<K.BaselineOp>, path: Path, now: int)
    requires forall op :: op in ops ==> K.OpPath(op) == path
    ensures forall x :: x != path ==> CellOf(AllRecorded(s, ops, now), x) == CellOf(s, x)
    ensures AllRecorded(s, ops, now).remote == s.remote
    ensures CellOf(AllRecorded(s, ops, now), path) == RowsOn(CellOf(s, path), ops)
    decreases |ops|
  {
    if ops != [] {
      RecordedCells(s, ops[0], now);
      AllRecordedCells(Recorded(s, ops[0], now), ops[1..], path, now);
    }
  }

  /** A delta newer than the path's version replaces it. */
  lemma {:induction false} LoggedCells(s: Replica, deltas: seq<DeltaEntry>, path: Path)
    requires |deltas| <= 1 && forall d :: d in deltas ==>
                                d.path == path && (path in s.remote ==> s.remote[path].lamport < d.lamport)
    ensures var t := AllLogged(s, deltas);
            && (forall x :: x != path ==> CellOf(t, x) == CellOf(s, x) && SameAt(s.remote, t.remote, x))
            && CellOf(t, path)
               == if deltas == [] then CellOf(s, path)
                  else CellOf(s, path).(there := if deltas[0].deleted then None else Some(deltas[0].hash))
  {
    if deltas != [] {
      assert deltas[1..] == [];
      assert AllLogged(s, deltas) == s.(remote := Folded(s.remote, deltas[0]));
    }
  }

  lemma DropCells(s: Replica, path: Path, copies: map<Path, Path>)
    ensures var t := Touched(s, A.DropFile(path), copies);
            && t.remote == s.remote && (forall x :: x != path ==> CellOf(t, x) == CellOf(s, x))
            && CellOf(t, path) == CellOf(s, path).(here := None, stub := NoStub)
  {
  }

  /** A conflict also makes its copy. */
  lemma AsideCells(s: Replica, path: Path, copies: map<Path, Path>)
    requires path in copies ==> copies[path] != path && CellOf(s, copies[path]).here.None?
    ensures var t := Touched(s, A.SetAside(path), copies);
            && t.remote == s.remote
            && (forall x :: x != path && (path in copies ==> x != copies[path]) ==> CellOf(t, x) == CellOf(s, x))
            && CellOf(t, path) == CellOf(s, path).(here := None, row := None)
            && (path in copies ==> CellOf(t, copies[path]) == CellOf(s, copies[path]).(here := HereOf(s.files, path)))
  {
  }

  lemma {:induction false} TouchedCells(s: Replica, steps: seq<A.Step>, copies: map<Path, Path>, path: Path)
    requires |steps| <= 1 && forall x :: x in steps ==> x == A.DropFile(path) || x == A.SetAside(path)
    requires path in copies ==> copies[path] != path && CellOf(s, copies[path]).here.None?
    ensures var t := AllTouched(s, steps, copies);
            && t.remote == s.remote
            && (forall x :: x != path && (path in copies ==> x != copies[path]) ==> CellOf(t, x) == CellOf(s, x))
            && CellOf(t, path) == (if steps == [] then CellOf(s, path) else TouchOn(CellOf(s, path), steps[0]))
            && (path in copies ==> CellOf(t, copies[path]) == CellOf(s, copies[path]).(here :=
                  if steps == [A.SetAside(path)] then HereOf(s.files, path) else None))
  {
    if steps != [] {
      assert steps[1..] == [] && steps[0] in steps;
      assert AllTouched(s, steps, copies) == Touched(s, steps[0], copies);
      if steps[0] == A.DropFile(path) { DropCells(s, path, copies); } else { AsideCells(s, path, copies); }
    }
  }

  lemma {:induction false} PerformedCells(s: Replica, e: A.Effect, copies: map<Path, Path>, path: Path, now: int)
    requires About(e, path)
    requires forall d :: d in e.deltas ==> path in s.remote ==> s.remote[path].lamport < d.lamport
    requires path in copies ==> copies[path] != path && CellOf(s, copies[path]).here.None?
    ensures var t := Performed(s, e, copies, now);
            && (forall x :: x != path ==> SameAt(s.remote, t.remote, x))
            && (forall x :: x != path && (path in copies ==> x != copies[path]) ==> CellOf(t, x) == CellOf(s, x))
            && CellOf(t, path) == EffectOn(CellOf(s, path), e)
            && (path in copies ==> CellOf(t, copies[path]) == CellOf(s, copies[path]).(here :=
                  if e.now == [A.SetAside(path)] then HereOf(s.files, path) else None))
  {
    var t := AllTouched(s, e.now, copies);
    var u := AllLogged(t, e.deltas);
    TouchedCells(s, e.now, copies, path);
    LoggedCells(t, e.deltas, path);
    AllRecordedCells(u, e.ops, path, now);
  }

  /** What a turn needs to know about its action. */
  ghost predicate Due(c: A.Context, r: Replica, policy: Policy, copies: map<Path, Path>, a: Action)
  {
    && a.path !in copies.Values
    && Moved(r, policy, a.path) == Applied(CellOf(r, a.path), Some(a.kind), SourceOf(r, a.path))
    && (a.path in r.remote ==> r.remote[a.path].lamport < c.lamport)
    && (a.path in copies <==> a.kind == Conflicting && a.path in r.files)
    && (forall x :: x in copies && x != a.path && a.path in copies ==> copies[x] != copies[a.path])
    && (a.kind == Relocate && a.path in c.plan.relocations ==>
         SourceOf(r, a.path) == Some(c.plan.relocations[a.path].hash))
    && (a.kind == CreatePlaceholder || a.kind == UpdatePlaceholder ==> ThereOf(r.remote, a.path).Some?)
  }

  lemma PlannedIsDue(c: A.Context, r: Replica, joined: seq<A.Joined>, policy: Policy, copies: map<Path, Path>,
                     a: Action)
    requires Quiet(c, r, joined, policy, copies) && PlannedStubs(r) == r.stubs && a in c.plan.actions
    ensures Due(c, r, policy, copies, a)
  {
    PlannedIsNoCopy(c, r, joined, policy, copies, a);
    PlannedFor(c, r, policy, a);
    if a.path in c.plan.relocations { PlannedSource(c, r, policy, a); }
  }

  lemma PlannedFor(c: A.Context, r: Replica, policy: Policy, a: Action)
    requires Plans(c.plan.actions, AllPaths(r.files, r.rows, r.remote, ViewOf(r, policy)), r.files, r.rows, r.remote,
                 ViewOf(r, policy))
    requires a in c.plan.actions
    ensures Kind(r, policy, a.path) == Some(a.kind)
    ensures a.kind == CreatePlaceholder || a.kind == UpdatePlaceholder ==> ThereOf(r.remote, a.path).Some?
  {
    StubNeedsLive(r, policy, a.path);
  }

  lemma StubNeedsLive(r: Replica, policy: Policy, p: Path)
    ensures Kind(r, policy, p) == Some(CreatePlaceholder) || Kind(r, policy, p) == Some(UpdatePlaceholder) ==>
              ThereOf(r.remote, p).Some?
  {
  }

  lemma PlannedSource(c: A.Context, r: Replica, policy: Policy, a: Action)
    requires Relocates(c.plan.relocations, AllPaths(r.files, r.rows, r.remote, ViewOf(r, policy)), r.files, r.remote,
                 ViewOf(r, policy))
    requires PlannedStubs(r) == r.stubs && a.path in c.plan.relocations
    ensures SourceOf(r, a.path) == Some(c.plan.relocations[a.path].hash)
  {
  }

  lemma PlannedIsNoCopy(c: A.Context, r: Replica, joined: seq<A.Joined>, policy: Policy, copies: map<Path, Path>,
                        a: Action)
    requires Quiet(c, r, joined, policy, copies) && a in c.plan.actions
    ensures a.path !in copies.Values
  {
    PlannedFor(c, r, policy, a);
    forall x | x in copies ensures copies[x] != a.path {
      assert Unused(r, copies[x]);
      if copies[x] == a.path { UnusedNeedsNothing(r, policy, a.path); }
    }
  }

  lemma UnusedNeedsNothing(r: Replica, policy: Policy, p: Path)
    requires Unused(r, p)
    ensures Kind(r, policy, p).None?
  {
    KindIsCellKind(r, policy, p);
  }

  /** One effect, about a path not moved yet, that moves it as it should be moved. `s1` is `s`
      after the transfer's own file work. */
  lemma {:induction false} TurnDone(r: Replica, policy: Policy, copies: map<Path, Path>, done: set<Path>,
                                    p: A.Progress, s: Replica,
                                    s1: Replica, path: Path, e: A.Effect, q: A.Progress, now: int)
    requires Half(r, policy, copies, done, p, s) && path !in done && path !in copies.Values && About(e, path)
    requires s1.remote == s.remote && forall x :: x != path ==> CellOf(s1, x) == CellOf(s, x)
    requires forall d :: d in e.deltas ==> path in r.remote ==> r.remote[path].lamport < d.lamport
    requires q.effects == p.effects + [e] && !q.stopped && q.pinned == {}
    requires forall x :: x != path ==> SameAt(p.manifest, q.manifest, x)
    requires EffectOn(CellOf(s1, path), e) == Moved(r, policy, path)
    requires path in copies ==> e.now == [A.SetAside(path)] && s1 == s
    requires forall x :: x in copies && x != path && path in copies ==> copies[x] != copies[path]
    ensures Half(r, policy, copies, done + {path}, q, Onward(s1, p, q, copies, now))
  {
    var t := Onward(s1, p, q, copies, now);
    assert SameAt(r.remote, s.remote, path);
    if path in copies {
      assert CellOf(s, copies[path]) == Cell(None, NoStub, None, None);
      assert CellOf(s, path) == CellOf(r, path);
    }
    PerformedCells(s1, e, copies, path, now);
    forall x | x in copies
      ensures CellOf(t, copies[x])
              == if x == path then Cell(HereOf(r.files, x), NoStub, None, None) else CellOf(s, copies[x])
    {
      assert copies[x] in copies.Values;
    }
    HalfMore(r, policy, copies, done, p, s, path, q, t);
  }

  lemma {:induction false} RowsOnFew(c: Cell, a: K.BaselineOp, b: K.BaselineOp)
    ensures RowsOn(c, [a]) == RowOn(c, a) && RowsOn(c, [a] + []) == RowOn(c, a)
            && RowsOn(c, [a] + [b]) == RowOn(RowOn(c, a), b)
  {
    assert [a][1..] == [] && [a] + [] == [a];
    var two := [a] + [b];
    assert two[0] == a && two[1..] == [b] && [b][1..] == [];
    assert RowsOn(RowOn(c, a), [b]) == RowOn(RowOn(c, a), b);
  }

  lemma {:induction false} SentCell(c: Cell, e: A.Effect, d: DeltaEntry, op: K.BaselineOp, kind: ActionKind, h: Hash,
                                    source: Option<Hash>)
    requires e == A.Effect([], [d], [op]) && !d.deleted && d.hash == h
    requires if kind == Upload then c.here == Some(h) && op.Confirm? && op.hash == h
             else kind == Relocate && source == Some(h) && op.PutPlaceholder? && op.meta.hash == h
    ensures EffectOn(c, e) == Applied(c, Some(kind), source)
  {
    RowsOnFew(c.(there := Some(h)), op, op);
  }

  lemma {:induction false} SentTurn(c: A.Context, r: Replica, policy: Policy, copies: map<Path, Path>, done: set<Path>,
                                    p: A.Progress, s: Replica, j: A.Joined, now: int)
    requires Due(c, r, policy, copies, j.action) && Half(r, policy, copies, done, p, s)
    requires Succeeded(c, r, j) && j.action.path !in done && (j.transfer.Sent? || j.transfer.Relocated?)
    ensures Half(r, policy, copies, done + {j.action.path}, A.JoinOne(c, p, j),
                Onward(Arrived(s, j), p, A.JoinOne(c, p, j), copies, now))
  {
    var path := j.action.path;
    var q := A.JoinOne(c, p, j);
    var e := q.effects[|p.effects|];
    assert CellOf(s, path) == CellOf(r, path);
    SentCell(CellOf(r, path), e, e.deltas[0], e.ops[0], j.action.kind, j.transfer.result.hash, SourceOf(r, path));
    TurnDone(r, policy, copies, done, p, s, s, path, e, q, now);
  }

  lemma {:induction false} FetchedCell(s: Replica, j: A.Joined, path: Path, e: A.Effect, source: Option<Hash>)
    requires j.transfer.Fetched? && (j.action.kind == Download || j.action.kind == Hydrate) && path == j.action.path
    requires ThereOf(s.remote, path) == Some(j.transfer.hash)
    requires e.now == [] && e.deltas == []
    requires e.ops == [K.Confirm(path, j.transfer.size, j.transfer.mtime, j.transfer.hash)]
                      + if j.action.kind == Hydrate then [K.MarkHydrated(path)] else []
    ensures forall x :: x != path ==> CellOf(Arrived(s, j), x) == CellOf(s, x)
    ensures Arrived(s, j).remote == s.remote
    ensures EffectOn(CellOf(Arrived(s, j), path), e) == Applied(CellOf(s, path), Some(j.action.kind), source)
  {
    RowsOnFew(CellOf(Arrived(s, j), path), e.ops[0], K.MarkHydrated(path));
  }

  lemma {:induction false} FetchedTurn(c: A.Context, r: Replica, policy: Policy, copies: map<Path, Path>,
                                       done: set<Path>,
                                       p: A.Progress, s: Replica, j: A.Joined, now: int)
    requires Due(c, r, policy, copies, j.action) && Half(r, policy, copies, done, p, s)
    requires Succeeded(c, r, j) && j.action.path !in done && j.transfer.Fetched?
    ensures Half(r, policy, copies, done + {j.action.path}, A.JoinOne(c, p, j),
                Onward(Arrived(s, j), p, A.JoinOne(c, p, j), copies, now))
  {
    var path := j.action.path;
    var q := A.JoinOne(c, p, j);
    var e := q.effects[|p.effects|];
    assert CellOf(s, path) == CellOf(r, path);
    FetchedCell(s, j, path, e, SourceOf(r, path));
    TurnDone(r, policy, copies, done, p, s, Arrived(s, j), path, e, q, now);
  }

  lemma {:induction false} StubTurn(c: A.Context, r: Replica, policy: Policy, copies: map<Path, Path>, done: set<Path>,
                                    p: A.Progress, s: Replica, a: Action, now: int)
    requires Due(c, r, policy, copies, a) && Half(r, policy, copies, done, p, s)
    requires a.path !in done && (a.kind == CreatePlaceholder || a.kind == UpdatePlaceholder)
    ensures Half(r, policy, copies, done + {a.path}, A.ActOne(c, p, a), Onward(s, p, A.ActOne(c, p, a), copies, now))
  {
    assert CellOf(s, a.path) == CellOf(r, a.path) && SameAt(r.remote, p.manifest, a.path);
    var q := A.ActOne(c, p, a);
    assert a.path in p.manifest && !p.manifest[a.path].deleted;
    var e := q.effects[|p.effects|];
    RowsOnFew(CellOf(s, a.path), e.ops[0], e.ops[0]);
    TurnDone(r, policy, copies, done, p, s, s, a.path, e, q, now);
  }

  lemma {:induction false} RemovalCell(c: Cell, e: A.Effect, path: Path, kind: ActionKind, source: Option<Hash>)
    requires e.ops == [K.Remove(path)]
    requires if kind == DeleteLocal then e.now == [A.DropFile(path)] && e.deltas == []
             else
               kind == DeleteRemote && e.now == [] && |e.deltas| <= 1
               && (if e.deltas == [] then c.there == None else e.deltas[0].deleted)
    ensures EffectOn(c, e) == Applied(c, Some(kind), source)
  {
    RowsOnFew(c, K.Remove(path), K.Remove(path));
    RowsOnFew(c.(here := None, stub := NoStub), K.Remove(path), K.Remove(path));
    RowsOnFew(c.(there := None), K.Remove(path), K.Remove(path));
  }

  lemma {:induction false} RemovalTurn(c: A.Context, r: Replica, policy: Policy, copies: map<Path, Path>,
                                       done: set<Path>,
                                       p: A.Progress, s: Replica, a: Action, now: int)
    requires Due(c, r, policy, copies, a) && Half(r, policy, copies, done, p, s)
    requires a.path !in done && (a.kind == DeleteLocal || a.kind == DeleteRemote)
    ensures Half(r, policy, copies, done + {a.path}, A.ActOne(c, p, a), Onward(s, p, A.ActOne(c, p, a), copies, now))
  {
    assert CellOf(s, a.path) == CellOf(r, a.path) && SameAt(r.remote, p.manifest, a.path);
    var q := A.ActOne(c, p, a);
    var e := q.effects[|p.effects|];
    RemovalCell(CellOf(r, a.path), e, a.path, a.kind, SourceOf(r, a.path));
    TurnDone(r, policy, copies, done, p, s, s, a.path, e, q, now);
  }

  lemma {:induction false} AsideTurn(c: A.Context, r: Replica, policy: Policy, copies: map<Path, Path>, done: set<Path>,
                                     p: A.Progress, s: Replica, a: Action, now: int)
    requires Due(c, r, policy, copies, a) && Half(r, policy, copies, done, p, s)
    requires a.path !in done && a.kind == Conflicting
    ensures Half(r, policy, copies, done + {a.path}, A.ActOne(c, p, a), Onward(s, p, A.ActOne(c, p, a), copies, now))
  {
    assert CellOf(s, a.path) == CellOf(r, a.path);
    var q := A.ActOne(c, p, a);
    TurnDone(r, policy, copies, done, p, s, s, a.path, q.effects[|p.effects|], q, now);
  }

  // ----- Both phases -----

  function JoinedPaths(joined: seq<A.Joined>): set<Path>
  {
    set j | j in joined :: j.action.path
  }

  function ActedPaths(actions: seq<Action>): set<Path>
  {
    set a | a in actions :: a.path
  }

  /** One action a path. */
  lemma SamePathSameAction(c: A.Context, r: Replica, joined: seq<A.Joined>, policy: Policy, copies: map<Path, Path>,
                           a: Action, b: Action)
    requires Quiet(c, r, joined, policy, copies) && a in c.plan.actions && b in c.plan.actions && a.path == b.path
    ensures a == b
  {
    PlannedFor(c, r, policy, a);
    PlannedFor(c, r, policy, b);
  }

  lemma JoinTurn(c: A.Context, r: Replica, policy: Policy, copies: map<Path, Path>, done: set<Path>,
                 p: A.Progress, s: Replica, j: A.Joined, now: int)
    requires Due(c, r, policy, copies, j.action) && Half(r, policy, copies, done, p, s)
    requires Succeeded(c, r, j) && j.action.path !in done
    ensures Half(r, policy, copies, done + {j.action.path}, A.JoinOne(c, p, j),
                Onward(Arrived(s, j), p, A.JoinOne(c, p, j), copies, now))
  {
    if j.transfer.Fetched? {
      FetchedTurn(c, r, policy, copies, done, p, s, j, now);
    } else {
      SentTurn(c, r, policy, copies, done, p, s, j, now);
    }
  }

  lemma ActTurn(c: A.Context, r: Replica, policy: Policy, copies: map<Path, Path>, done: set<Path>,
                p: A.Progress, s: Replica, a: Action, now: int)
    requires Due(c, r, policy, copies, a) && Half(r, policy, copies, done, p, s)
    requires Transfers(a.kind) <==> a.path in done
    ensures Half(r, policy, copies, done + {a.path}, A.ActOne(c, p, a), Onward(s, p, A.ActOne(c, p, a), copies, now))
  {
    if Transfers(a.kind) {
      assert done + {a.path} == done;
    } else {
      match a.kind
      case CreatePlaceholder => StubTurn(c, r, policy, copies, done, p, s, a, now);
      case UpdatePlaceholder => StubTurn(c, r, policy, copies, done, p, s, a, now);
      case Conflicting => AsideTurn(c, r, policy, copies, done, p, s, a, now);
      case _ => RemovalTurn(c, r, policy, copies, done, p, s, a, now);
    }
  }

  ghost predicate JoinReady(c: A.Context, r: Replica, joined: seq<A.Joined>, policy: Policy, copies: map<Path, Path>,
                            n: nat)
    requires n < |joined|
  {
    Due(c, r, policy, copies, joined[n].action) && Succeeded(c, r, joined[n])
        && joined[n].action.path !in JoinedPaths(joined[..n])
  }

  /** A joined transfer is the first for its path. */
  lemma JoinedOnce(c: A.Context, r: Replica, joined: seq<A.Joined>, policy: Policy, copies: map<Path, Path>, n: nat)
    requires Quiet(c, r, joined, policy, copies) && PlannedStubs(r) == r.stubs && n < |joined|
    ensures JoinReady(c, r, joined, policy, copies, n)
  {
    var j := joined[n];
    assert j in joined;
    PlannedIsDue(c, r, joined, policy, copies, j.action);
    forall i | 0 <= i < n ensures joined[i].action.path != j.action.path {
      assert joined[i] in joined;
      if joined[i].action.path == j.action.path {
        SamePathSameAction(c, r, joined, policy, copies, joined[i].action, j.action);
      }
    }
  }

  lemma {:induction false} JoinsStep(c: A.Context, s: Replica, joined: seq<A.Joined>, copies: map<Path, Path>, n: nat,
                                     now: int)
    requires n < |joined|
    ensures var p, j := A.AfterJoins(c, s.remote, joined[..n]), joined[n];
            && A.AfterJoins(c, s.remote, joined[..n + 1]) == A.JoinOne(c, p, j)
            && Joins(c, s, joined[..n + 1], copies, now)
               == Onward(Arrived(Joins(c, s, joined[..n], copies, now), j), p, A.JoinOne(c, p, j), copies, now)
            && JoinedPaths(joined[..n + 1]) == JoinedPaths(joined[..n]) + {j.action.path}
  {
    var some := joined[..n + 1];
    assert some[..|some| - 1] == joined[..n] && some[|some| - 1] == joined[n] && some == joined[..n] + [joined[n]];
  }

  lemma {:induction false} JoinsOne(c: A.Context, r: Replica, joined: seq<A.Joined>, policy: Policy,
                                    copies: map<Path, Path>, n: nat, now: int,
                                    p: A.Progress, s: Replica)
    requires n < |joined| && JoinReady(c, r, joined, policy, copies, n)
    requires p == A.AfterJoins(c, r.remote, joined[..n]) && s == Joins(c, r, joined[..n], copies, now)
    requires Half(r, policy, copies, JoinedPaths(joined[..n]), p, s)
    ensures Half(r, policy, copies, JoinedPaths(joined[..n + 1]), A.AfterJoins(c, r.remote, joined[..n + 1]),
                Joins(c, r, joined[..n + 1], copies, now))
  {
    var done := JoinedPaths(joined[..n]);
    JoinTurn(c, r, policy, copies, done, p, s, joined[n], now);
    JoinsStep(c, r, joined, copies, n, now);
  }

  lemma {:induction false} JoinsHalf(c: A.Context, r: Replica, joined: seq<A.Joined>, policy: Policy,
                                     copies: map<Path, Path>, n: nat, now: int)
    requires (forall k :: 0 <= k < |joined| ==> JoinReady(c, r, joined, policy, copies, k)) && n <= |joined|
    requires Half(r, policy, copies, {}, A.Progress([], r.remote, {}, false), r)
    ensures Half(r, policy, copies, JoinedPaths(joined[..n]), A.AfterJoins(c, r.remote, joined[..n]),
                Joins(c, r, joined[..n], copies, now))
    decreases n
  {
    if n == 0 {
      assert joined[..0] == [] && JoinedPaths([]) == {};
    } else {
      JoinsHalf(c, r, joined, policy, copies, n - 1, now);
      var p, s := A.AfterJoins(c, r.remote, joined[..n - 1]), Joins(c, r, joined[..n - 1], copies, now);
      JoinsOne(c, r, joined, policy, copies, n - 1, now, p, s);
    }
  }

  lemma NothingDone(r: Replica, policy: Policy, copies: map<Path, Path>, p: A.Progress)
    requires p == A.Progress([], r.remote, {}, false) && forall x :: x in copies ==> Unused(r, copies[x])
    ensures Half(r, policy, copies, {}, p, r)
  {
  }

  ghost predicate ActReady(c: A.Context, r: Replica, joined: seq<A.Joined>, policy: Policy, copies: map<Path, Path>,
                           n: nat)
    requires n < |c.plan.actions|
  {
    && Due(c, r, policy, copies, c.plan.actions[n])
    && (Transfers(c.plan.actions[n].kind) <==>
         c.plan.actions[n].path in JoinedPaths(joined) + ActedPaths(c.plan.actions[..n]))
  }

  lemma {:induction false} ActsStep(c: A.Context, p: A.Progress, s: Replica, actions: seq<Action>,
                                    copies: map<Path, Path>, n: nat, now: int)
    requires n < |actions|
    ensures var q, a := A.AfterActions(c, p, actions[..n]), actions[n];
            && A.AfterActions(c, p, actions[..n + 1]) == A.ActOne(c, q, a)
            && Acts(c, p, s, actions[..n + 1], copies, now)
               == Onward(Acts(c, p, s, actions[..n], copies, now), q, A.ActOne(c, q, a), copies, now)
            && ActedPaths(actions[..n + 1]) == ActedPaths(actions[..n]) + {a.path}
  {
    var some := actions[..n + 1];
    assert some[..|some| - 1] == actions[..n] && some[|some| - 1] == actions[n] && some == actions[..n] + [actions[n]];
  }

  function Done(c: A.Context, joined: seq<A.Joined>, n: nat): set<Path>
    requires n <= |c.plan.actions|
  {
    JoinedPaths(joined) + ActedPaths(c.plan.actions[..n])
  }

  lemma {:induction false} ActsOne(c: A.Context, r: Replica, joined: seq<A.Joined>, policy: Policy,
                                   copies: map<Path, Path>, n: nat,
                                   p: A.Progress, s: Replica, now: int, q: A.Progress, t: Replica)
    requires n < |c.plan.actions| && ActReady(c, r, joined, policy, copies, n)
    requires q == A.AfterActions(c, p, c.plan.actions[..n]) && t == Acts(c, p, s, c.plan.actions[..n], copies, now)
    requires Half(r, policy, copies, Done(c, joined, n), q, t)
    ensures Half(r, policy, copies, Done(c, joined, n + 1),
                 A.AfterActions(c, p, c.plan.actions[..n + 1]), Acts(c, p, s, c.plan.actions[..n + 1], copies, now))
  {
    var a := c.plan.actions[n];
    ActTurn(c, r, policy, copies, Done(c, joined, n), q, t, a, now);
    ActsStep(c, p, s, c.plan.actions, copies, n, now);
    assert Done(c, joined, n + 1) == Done(c, joined, n) + {a.path};
  }

  lemma {:induction false} ActsHalf(c: A.Context, r: Replica, joined: seq<A.Joined>, policy: Policy,
                                    copies: map<Path, Path>, n: nat,
                                    p: A.Progress, s: Replica, now: int)
    requires (forall k :: 0 <= k < |c.plan.actions| ==> ActReady(c, r, joined, policy, copies, k))
              && n <= |c.plan.actions|
    requires Half(r, policy, copies, JoinedPaths(joined), p, s)
    ensures Half(r, policy, copies, Done(c, joined, n),
                 A.AfterActions(c, p, c.plan.actions[..n]), Acts(c, p, s, c.plan.actions[..n], copies, now))
    decreases n
  {
    var all := c.plan.actions;
    if n == 0 {
      assert all[..0] == [] && Done(c, joined, 0) == JoinedPaths(joined);
    } else {
      ActsHalf(c, r, joined, policy, copies, n - 1, p, s, now);
      var q, t := A.AfterActions(c, p, all[..n - 1]), Acts(c, p, s, all[..n - 1], copies, now);
      ActsOne(c, r, joined, policy, copies, n - 1, p, s, now, q, t);
    }
  }

  /** When an action's turn comes its path has moved exactly if it is a transfer. */
  lemma {:induction false} NotActedYet(c: A.Context, r: Replica, joined: seq<A.Joined>, policy: Policy,
                                       copies: map<Path, Path>, n: nat)
    requires Quiet(c, r, joined, policy, copies) && PlannedStubs(r) == r.stubs && n < |c.plan.actions|
    ensures ActReady(c, r, joined, policy, copies, n)
  {
    var all, a := c.plan.actions, c.plan.actions[n];
    PlannedIsDue(c, r, joined, policy, copies, a);
    if Transfers(a.kind) {
      var j :| j in joined && j.action == a;
    } else {
      forall j | j in joined ensures j.action.path != a.path {
        if j.action.path == a.path { SamePathSameAction(c, r, joined, policy, copies, j.action, a); }
      }
      forall i | 0 <= i < n ensures all[i].path != a.path {
        if all[i].path == a.path {
          SamePathSameAction(c, r, joined, policy, copies, all[i], a);
          assert Before(all[i], all[n]);
          BeforeTotal(a, a);
        }
      }
    }
  }

  // ----- The whole pass -----

  lemma StartedCells(r: Replica, policy: Policy)
    ensures PlannedStubs(Started(r)) == PlannedStubs(r)
    ensures forall q :: CellOf(Started(r), q) == Trimmed(CellOf(r, q))
    ensures forall q :: SourceOf(Started(r), q) == SourceOf(r, q)
    ensures forall q :: Kind(Started(r), policy, q) == Kind(r, policy, q)
  {
  }

  lemma StartedQuiet(c: A.Context, r: Replica, joined: seq<A.Joined>, policy: Policy, copies: map<Path, Path>)
    requires Quiet(c, r, joined, policy, copies)
    ensures Quiet(c, Started(r), joined, policy, copies)
  {
    StartedCells(r, policy);
    forall p | p in copies ensures Unused(Started(r), copies[p]) {
      assert Unused(r, copies[p]);
    }
  }

  /** A path no action is planned for stays as it is. */
  lemma UnplannedStays(c: A.Context, r: Replica, joined: seq<A.Joined>, policy: Policy, copies: map<Path, Path>,
                       q: Path)
    requires Quiet(c, r, joined, policy, copies) && PlannedStubs(r) == r.stubs && q !in ActedPaths(c.plan.actions)
    ensures Moved(r, policy, q) == CellOf(r, q)
  {
    assert Kind(r, policy, q).Some? ==> q in AllPaths(r.files, r.rows, r.remote, ViewOf(r, policy));
  }

  lemma {:induction false} AllActed(c: A.Context, r: Replica, joined: seq<A.Joined>, policy: Policy,
                                    copies: map<Path, Path>, now: int)
    requires Quiet(c, r, joined, policy, copies) && PlannedStubs(r) == r.stubs
    ensures var s := Joins(c, r, joined, copies, now);
            var t := Acts(c, A.AfterJoins(c, r.remote, joined), s, c.plan.actions, copies, now);
            && (forall q :: q !in copies.Values ==> CellOf(t, q) == Moved(r, policy, q))
            && (forall x :: x in copies ==> CellOf(t, copies[x]) == Cell(HereOf(r.files, x), NoStub, None, None))
  {
    var all := c.plan.actions;
    var p, s := A.AfterJoins(c, r.remote, joined), Joins(c, r, joined, copies, now);
    forall k | 0 <= k < |joined| ensures JoinReady(c, r, joined, policy, copies, k) {
      JoinedOnce(c, r, joined, policy, copies, k);
    }
    NothingDone(r, policy, copies, A.Progress([], r.remote, {}, false));
    JoinsHalf(c, r, joined, policy, copies, |joined|, now);
    assert joined[..|joined|] == joined;
    forall k | 0 <= k < |all| ensures ActReady(c, r, joined, policy, copies, k) {
      NotActedYet(c, r, joined, policy, copies, k);
    }
    ActsHalf(c, r, joined, policy, copies, |all|, p, s, now);
    assert all[..|all|] == all;
    HalfIsAll(c, r, joined, policy, copies, A.AfterActions(c, p, all), Acts(c, p, s, all, copies, now));
  }

  lemma HalfIsAll(c: A.Context, r: Replica, joined: seq<A.Joined>, policy: Policy, copies: map<Path, Path>,
                  p: A.Progress, t: Replica)
    requires Quiet(c, r, joined, policy, copies) && PlannedStubs(r) == r.stubs
    requires Half(r, policy, copies, Done(c, joined, |c.plan.actions|), p, t)
    ensures forall q :: q !in copies.Values ==> CellOf(t, q) == Moved(r, policy, q)
    ensures forall x :: x in copies ==> CellOf(t, copies[x]) == Cell(HereOf(r.files, x), NoStub, None, None)
  {
    var all := c.plan.actions;
    assert all[..|all|] == all;
    forall q | q !in copies.Values ensures CellOf(t, q) == Moved(r, policy, q) {
      if q !in Done(c, joined, |all|) { UnplannedStays(c, r, joined, policy, copies, q); }
    }
    forall x | x in copies ensures x in Done(c, joined, |all|) {
      assert Kind(r, policy, x) == Some(Conflicting) && x in r.files;
      assert Action(x, Conflicting) in all;
    }
  }

  lemma ScannedCells(t: Replica, seen: Files)
    ensures forall q :: CellOf(RowsScanned(t, seen), q) == Scanned(CellOf(t, q), HereOf(seen, q))
  {
    forall q ensures CellOf(RowsScanned(t, seen), q) == Scanned(CellOf(t, q), HereOf(seen, q)) {
      if q in seen { RowsFollow(t.rows, q, 0, 0, 0, 0, seen[q].(path := q)); }
    }
  }

  lemma EvictedCells(u: Replica, paths: set<Path>)
    requires forall p :: p in paths ==> p in u.files && p in u.rows
    ensures forall q :: CellOf(EvictedAll(u, paths), q)
                        == if q in paths then AfterEviction(CellOf(u, q)) else CellOf(u, q)
  {
  }

  /** One path through scan and eviction. */
  lemma PathAfterPass(r: Replica, policy: Policy, u: Replica, v: Replica, chosen: set<Path>, q: Path)
    requires CellOf(u, q) == Scanned(Moved(Started(r), policy, q), HereOf(r.files, q))
    requires v == EvictedAll(u, Evictable(u, policy, chosen))
    ensures CellOf(v, q)
            == AfterPass(CellOf(r, q), SourceOf(r, q), policy.mode(q), policy.defaultOnlineOnly, q in chosen)
  {
    StartedCells(r, policy);
    KindIsCellKind(r, policy, q);
    EvictionFollows(u, policy, q);
    EvictedCells(u, Evictable(u, policy, chosen));
  }

  /** A fresh conflicted copy is neither scanned nor evicted. */
  lemma CopyAfterPass(r: Replica, policy: Policy, u: Replica, v: Replica, chosen: set<Path>, q: Path, h: Option<Hash>)
    requires CellOf(u, q) == Cell(h, NoStub, None, None)
    requires v == EvictedAll(u, Evictable(u, policy, chosen))
    ensures CellOf(v, q) == CellOf(u, q)
  {
    EvictedCells(u, Evictable(u, policy, chosen));
  }

  /** A pass in which nothing goes wrong and nobody interferes is a quiet pass: `apply`'s own
      effects for any order of finished transfers, the scan's rows and the evictions move
      every path as `AfterPass` says. */
  lemma {:induction false} PassIsQuiet(c: A.Context, r: Replica, joined: seq<A.Joined>, policy: Policy,
                                       copies: map<Path, Path>, chosen: set<Path>, now: int)
    requires Quiet(c, r, joined, policy, copies)
    ensures QuietPass(r, Pass(c, r, joined, policy, copies, chosen, now), policy, copies, chosen)
  {
    var r0 := Started(r);
    StartedCells(r, policy);
    StartedQuiet(c, r, joined, policy, copies);
    AllActed(c, r0, joined, policy, copies, now);
    var t := Acts(c, A.AfterJoins(c, r.remote, joined), Joins(c, r0, joined, copies, now), c.plan.actions, copies, now);
    var u := RowsScanned(t, r.files);
    ScannedCells(t, r.files);
    var v := Pass(c, r, joined, policy, copies, chosen, now);
    forall q | q !in copies.Values
      ensures CellOf(v, q)
              == AfterPass(CellOf(r, q), SourceOf(r, q), policy.mode(q), policy.defaultOnlineOnly, q in chosen)
    {
      assert CellOf(t, q) == Moved(r0, policy, q);
      PathAfterPass(r, policy, u, v, chosen, q);
    }
    forall p | p in copies ensures CellOf(v, copies[p]) == Cell(HereOf(r.files, p), NoStub, None, None) {
      assert Unused(r, copies[p]);
      assert CellOf(t, copies[p]) == Cell(HereOf(r.files, p), NoStub, None, None);
      CopyAfterPass(r, policy, u, v, chosen, copies[p], HereOf(r.files, p));
    }
    assert forall p :: p in copies <==> p in r.files && Kind(r, policy, p) == Some(Conflicting);
  }

  /** So after two such passes the third plans nothing exactly if no placeholder was late. */
  lemma {:induction false} ThirdPlanIsEmptyIff(r: Replica, policy: Policy, c1: A.Context, joined1: seq<A.Joined>,
                                               copies1: map<Path, Path>, chosen1: set<Path>,
                                               c2: A.Context, joined2: seq<A.Joined>, copies2: map<Path, Path>,
                                               chosen2: set<Path>, now: int, plan: Plan)
    requires Quiet(c1, r, joined1, policy, copies1)
    requires Quiet(c2, Pass(c1, r, joined1, policy, copies1, chosen1, now), joined2, policy, copies2)
    requires var w := Pass(c2, Pass(c1, r, joined1, policy, copies1, chosen1, now), joined2, policy, copies2, chosen2,
                 now);
             Plans(plan.actions, AllPaths(w.files, w.rows, w.remote, ViewOf(w, policy)), w.files, w.rows, w.remote,
                     ViewOf(w, policy))
    ensures plan.actions == [] <==> forall p :: !Late(r, policy, p)
  {
    var v := Pass(c1, r, joined1, policy, copies1, chosen1, now);
    var w := Pass(c2, v, joined2, policy, copies2, chosen2, now);
    PassIsQuiet(c1, r, joined1, policy, copies1, chosen1, now);
    PassIsQuiet(c2, v, joined2, policy, copies2, chosen2, now);
    ThirdPassIsEmptyIff(r, v, w, policy, copies1, copies2, chosen1, chosen2, plan);
  }
}
