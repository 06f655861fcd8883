/** When repeated undisturbed passes come to rest. */
module Convergence {
  // Quiet passes: no user edits, no other writers, no failed transfers, no explicit hydrate or
  // evict requests, no conflict losers to preserve. What a pass does to a path depends on that
  // path alone, and for a moved placeholder on the path it names; `Cell` is everything there is
  // to know about one path.
  //
  // The third pass plans nothing, except for placeholders that stand for another path and get
  // their turn late; `Late` says exactly which.

  import opened Options
  import opened Manifest
  import opened Records
  import opened Engine
  import opened Evict

  datatype Stub = NoStub | Own | Foreign(source: Path)

  datatype Row = Row(content: Hash, base: Option<Hash>, evicted: bool)

  datatype Cell = Cell(here: Option<Hash>, stub: Stub, row: Option<Row>, there: Option<Hash>)

  /** A device and the merged remote it reads. */
  datatype Replica = Replica(files: Files, stubs: map<Path, StubMeta>, rows: Baseline, remote: Entries)

  function StubOf(stubs: map<Path, StubMeta>, p: Path): Stub
  {
    if p !in stubs then NoStub else if stubs[p].path == p then Own else Foreign(stubs[p].path)
  }

  function RowOf(rows: Baseline, p: Path): Option<Row>
  {
    if p in rows then Some(Row(rows[p].contentHash, rows[p].lastSynced, rows[p].residency == Evicted)) else None
  }

  function CellOf(r: Replica, p: Path): Cell
  {
    Cell(HereOf(r.files, p), StubOf(r.stubs, p), RowOf(r.rows, p), ThereOf(r.remote, p))
  }

  /** The placeholders a pass plans with: a real file's own placeholder is dropped first. */
  function PlannedStubs(r: Replica): map<Path, StubMeta>
  {
    Unstale(World(r.files, r.stubs, r.rows, None))
  }

  function ViewOf(r: Replica, policy: Policy): ResidencyView
  {
    ResidencyView(PlannedStubs(r), policy, {})
  }

  function Kind(r: Replica, policy: Policy, p: Path): Option<ActionKind>
  {
    KindFor(p, r.files, r.rows, r.remote, ViewOf(r, policy))
  }

  // ----- One path -----

  function Trimmed(c: Cell): Cell
  {
    if c.here.Some? && c.stub.Own? then c.(stub := NoStub) else c
  }

  function BaseIn(c: Cell): Option<Hash>
  {
    if c.row.Some? then c.row.value.base else None
  }

  function IsEvictedIn(c: Cell): bool
  {
    c.row.Some? && c.row.value.evicted
  }

  /** `KindFor` on a cell; `source` is the live version of the path a foreign placeholder names. */
  function CellKind(c: Cell, source: Option<Hash>, mode: Mode, defaultOnlineOnly: bool): Option<ActionKind>
  {
    var base := BaseIn(c);
    var there := Classify(c.there, base);
    if c.here.Some? then Decide(Classify(c.here, base), there, c.here, c.there)
    else if c.stub.Foreign? then (if source.Some? then Some(Relocate) else None)
    else if c.stub.Own? then
      var refresh := if mode == LocalOnly then Hydrate else UpdatePlaceholder;
      match (base, there)
      case (None, Created) => Some(refresh)
      case (None, _) => None
      case (Some(_), Unchanged) =>
        if mode == LocalOnly then Some(Hydrate) else if IsEvictedIn(c) then None else Some(UpdatePlaceholder)
      case (Some(_), Deleted) => Some(DeleteLocal)
      case (Some(_), _) => Some(refresh)
    else if IsEvictedIn(c) then
      match there
      case Unchanged => Some(DeleteRemote)
      case Deleted => Some(DeleteLocal)
      case _ => Some(Hydrate)
    else
      var kind := Decide(Classify(None, base), there, None, c.there);
      if kind == Some(Download)
          && (mode == OnlineOnly || (mode == Auto && defaultOnlineOnly)) then Some(CreatePlaceholder) else kind
  }

  function SourceOf(r: Replica, p: Path): Option<Hash>
  {
    if StubOf(r.stubs, p).Foreign? then ThereOf(r.remote, StubOf(r.stubs, p).source) else None
  }

  /** Reconcile looks at nothing but the cell and its source. */
  lemma KindIsCellKind(r: Replica, policy: Policy, p: Path)
    ensures Kind(r, policy, p)
            == CellKind(Trimmed(CellOf(r, p)), SourceOf(r, p), policy.mode(p), policy.defaultOnlineOnly)
  {
  }

  /** What `apply` does to a path, the transfer having succeeded. */
  function Applied(c: Cell, kind: Option<ActionKind>, source: Option<Hash>): Cell
  {
    match kind
    case None => c
    case Some(k) =>
      match k
      case Download => if c.there.None? then c else c.(here := c.there, row := Some(Row(c.there.value, c.there, false)))
      case Hydrate => if c.there.None? then c else Cell(c.there, NoStub, Some(Row(c.there.value, c.there, false)),
              c.there)
      case Relocate => if source.None? then c else Cell(c.here, Own, Some(Row(source.value, source, true)), source)
      case Upload => if c.here.None? then c else c.(there := c.here, row := Some(Row(c.here.value, c.here, false)))
      case CreatePlaceholder => if c.there.None? then c else c.(stub := Own,
              row := Some(Row(c.there.value, c.there, true)))
      case UpdatePlaceholder => if c.there.None? then c else c.(stub := Own,
              row := Some(Row(c.there.value, c.there, true)))
      case DeleteLocal => c.(here := None, stub := NoStub, row := None)
      case DeleteRemote => c.(there := None, row := None)
      case Conflicting => c.(here := None, row := None)
  }

  /** `record_scan` runs after `apply` with what the scan saw before it. */
  function Scanned(c: Cell, seen: Option<Hash>): Cell
  {
    if seen.None? then c
    else if c.row.Some? then c.(row := Some(Row(seen.value, c.row.value.base, false)))
    else c.(row := Some(Row(seen.value, None, false)))
  }

  predicate MayEvict(c: Cell, mode: Mode)
  {
    && mode != LocalOnly && c.row.Some? && !c.row.value.evicted && c.row.value.base == Some(c.row.value.content)
    && c.there == Some(c.row.value.content) && c.here == c.there
  }

  function AfterEviction(c: Cell): Cell
    requires c.row.Some?
  {
    c.(here := None, stub := Own, row := Some(c.row.value.(evicted := true)))
  }

  /** The cell after one quiet pass. Policy or space may evict it if it is eligible. */
  function AfterPass(c: Cell, source: Option<Hash>, mode: Mode, defaultOnlineOnly: bool, evict: bool): Cell
  {
    var t := Trimmed(c);
    var d := Scanned(Applied(t, CellKind(t, source, mode, defaultOnlineOnly), source), t.here);
    if evict && MayEvict(d, mode) then AfterEviction(d) else d
  }

  /** The cell moves are the row changes and the eligibility test that `apply`, the scan and
      eviction really use. */
  lemma RowsFollow(b: Baseline, p: Path, size: nat, mtime: int, h: Hash, now: int, e: LocalEntry)
    ensures RowOf(ConfirmSync(b, p, size, mtime, h, now), p) == Some(Row(h, Some(h), false))
    ensures RowOf(ConfirmPlaceholder(b, p, size, h, now), p) == Some(Row(h, Some(h), true))
    ensures RowOf(Removed(b, p), p) == None
    ensures RowOf(RecordScanned(b, e), e.path) == Scanned(Cell(None, NoStub, RowOf(b, e.path), None), Some(e.hash)).row
    ensures p in b ==> RowOf(SetResidency(b, p, Evicted), p) == Some(RowOf(b, p).value.(evicted := true))
  {
  }

  lemma EvictionFollows(r: Replica, policy: Policy, p: Path)
    ensures MayEvict(CellOf(r, p), policy.mode(p)) <==>
            policy.mode(p) != LocalOnly && Eligible(r.rows, r.remote, {}, p).None?
                && HereOf(r.files, p) == ThereOf(r.remote, p)
  {
  }

  // ----- One pass over all paths -----

  /** A conflicted-copy name nothing has used: no file, placeholder, row or remote version, and
      no placeholder stands for it. */
  ghost predicate Unused(r: Replica, q: Path)
  {
    CellOf(r, q) == Cell(None, NoStub, None, None) && forall x :: x in r.stubs ==> r.stubs[x].path != q
  }

  /** `v` is what one quiet pass makes of `r`: `copies` names the conflicted copies, `evicted`
      what was chosen for eviction. */
  ghost predicate QuietPass(r: Replica, v: Replica, policy: Policy, copies: map<Path, Path>, evicted: set<Path>)
  {
    && (forall p :: p in copies <==> p in r.files && Kind(r, policy, p) == Some(Conflicting))
    && (forall p :: p in copies ==> Unused(r, copies[p]))
    && (forall p, x :: p in copies && x in copies && copies[p] == copies[x] ==> p == x)
    && (forall p :: p in copies ==> CellOf(v, copies[p]) == Cell(HereOf(r.files, p), NoStub, None, None))
    && (forall p :: p !in copies.Values ==>
          CellOf(v, p)
          == AfterPass(CellOf(r, p), SourceOf(r, p), policy.mode(p), policy.defaultOnlineOnly, p in evicted))
  }

  // ----- Empty plans -----

  /** `plan` is what reconcile plans on `r`. */
  ghost predicate PlanOf(r: Replica, policy: Policy, plan: Plan)
  {
    var view := ViewOf(r, policy);
    Plans(plan.actions, AllPaths(r.files, r.rows, r.remote, view), r.files, r.rows, r.remote, view)
  }

  lemma PlanCovers(r: Replica, policy: Policy, plan: Plan, p: Path)
    requires PlanOf(r, policy, plan)
    requires p in AllPaths(r.files, r.rows, r.remote, ViewOf(r, policy))
    ensures Kind(r, policy, p).Some? ==> plan.actions != []
  {
  }

  /** An empty plan means both sides hold the same content on every path without a placeholder. */
  lemma EmptyPlanAgrees(r: Replica, policy: Policy, plan: Plan, p: Path)
    requires PlanOf(r, policy, plan)
    requires plan.actions == [] && p !in PlannedStubs(r)
    ensures HereOf(r.files, p) == ThereOf(r.remote, p)
  {
    if p in AllPaths(r.files, r.rows, r.remote, ViewOf(r, policy)) {
      PlanCovers(r, policy, plan, p);
      KindIsCellKind(r, policy, p);
      NothingIsAgreement(Trimmed(CellOf(r, p)), SourceOf(r, p), policy.mode(p), policy.defaultOnlineOnly);
    }
  }

  lemma NothingIsAgreement(c: Cell, source: Option<Hash>, mode: Mode, online: bool)
    requires CellKind(c, source, mode, online).None? && c.stub.NoStub?
    ensures c.here == c.there
  {
  }

  // ----- What is left after one pass -----

  /** A placeholder for another path with no file beside it. */
  predicate Loose(c: Cell)
  {
    c.here.None? && c.stub.Foreign?
  }

  /** A path that was synced as a placeholder but is wanted here. */
  predicate Owed(c: Cell, mode: Mode)
  {
    c.here.None? && c.stub.Own? && IsEvictedIn(c) && BaseIn(c) == c.there && c.there.Some? && mode == LocalOnly
  }

  /** The remains of a conflict: the winner is still to come. */
  predicate Vacated(c: Cell)
  {
    c.here.None? && c.stub.NoStub? && BaseIn(c).None? && !IsEvictedIn(c)
  }

  predicate Rests(c: Cell, mode: Mode)
  {
    forall online :: CellKind(Trimmed(c), None, mode, online).None?
  }

  /** One pass settles a cell, but for a winner still to download after a conflict, a
      placeholder for another path, and a relocated path wanted here. */
  lemma OnePassSettles(c: Cell, source: Option<Hash>, mode: Mode, online: bool, evict: bool)
    ensures var d := AfterPass(c, source, mode, online, evict);
            Rests(d, mode) || Vacated(d) || Loose(d) || Owed(d, mode)
  {
  }

  lemma LooseAfter(c: Cell, source: Option<Hash>, mode: Mode, online: bool, evict: bool)
    ensures var d := AfterPass(c, source, mode, online, evict);
            var kind := CellKind(Trimmed(c), source, mode, online);
            && (Loose(d) <==> c.stub.Foreign? && (if c.here.None? then source.None? else kind == Some(Conflicting)))
            && (Loose(d) ==> d.stub == c.stub)
            && (c.stub.Foreign? && d.stub.Foreign? ==> d.stub == c.stub)
  {
  }

  lemma ThereAfter(c: Cell, source: Option<Hash>, mode: Mode, online: bool, evict: bool)
    ensures var d := AfterPass(c, source, mode, online, evict);
            var kind := CellKind(Trimmed(c), source, mode, online);
            d.there.Some? <==>
                  kind == Some(Upload) || kind == Some(Relocate) || (c.there.Some? && kind != Some(DeleteRemote))
  {
  }

  // ----- The second pass -----

  /** What one pass leaves, other than a placeholder for another path, needs one more at most. */
  lemma SecondPassSettles(d: Cell, mode: Mode, online: bool, evict: bool)
    requires !Loose(d) && (Rests(d, mode) || Vacated(d) || Owed(d, mode))
    ensures var e := AfterPass(d, None, mode, online, evict); Rests(e, mode) && !Loose(e)
  {
  }

  /** A conflicted copy is uploaded by the second pass and left alone by the third. */
  lemma CopySettles(h: Hash, mode: Mode, online: bool, evict: bool)
    ensures CellKind(Cell(Some(h), NoStub, None, None), None, mode, online) == Some(Upload)
    ensures var e := AfterPass(Cell(Some(h), NoStub, None, None), None, mode, online, evict);
            Rests(e, mode) && !Loose(e)
  {
  }

  lemma LooseSecond(d: Cell, source: Option<Hash>, mode: Mode, online: bool, evict: bool)
    requires Loose(d)
    ensures var e := AfterPass(d, source, mode, online, evict);
            if source.Some? then !Loose(e) && (CellKind(Trimmed(e), None, mode, online).Some? <==> mode == LocalOnly)
            else e == d
  {
  }

  /** A source matters only to a loose placeholder. */
  lemma SourceMatters(c: Cell, source: Option<Hash>, mode: Mode, online: bool, evict: bool)
    requires !Loose(c)
    ensures CellKind(Trimmed(c), source, mode, online) == CellKind(Trimmed(c), None, mode, online)
    ensures AfterPass(c, source, mode, online, evict) == AfterPass(c, None, mode, online, evict)
  {
  }

  // ----- Placeholders that get their turn late -----

  /** After this pass, `p` has only a placeholder for another path. */
  predicate LooseNext(r: Replica, policy: Policy, p: Path)
  {
    && StubOf(r.stubs, p).Foreign?
    && if p in r.files then Kind(r, policy, p) == Some(Conflicting) else SourceOf(r, p).None?
  }

  /** After this pass, the remote has a live version of `s`. */
  predicate LiveNext(r: Replica, policy: Policy, s: Path)
  {
    var kind := Kind(r, policy, s);
    kind == Some(Upload) || kind == Some(Relocate) || (ThereOf(r.remote, s).Some? && kind != Some(DeleteRemote))
  }

  /**
   The placeholders the third pass still acts on: one left loose by the first pass and
   relocated by the second, if the path is wanted here (it is hydrated next); or one whose
   source is itself only relocated by the second.
   */
  predicate Late(r: Replica, policy: Policy, p: Path)
  {
    && LooseNext(r, policy, p)
    && var s := StubOf(r.stubs, p).source;
    if LiveNext(r, policy, s) then policy.mode(p) == LocalOnly
    else LooseNext(r, policy, s) && LiveNext(r, policy, StubOf(r.stubs, s).source)
  }

  /** How a path stands after the first pass, unless it is a conflicted copy. */
  lemma AfterFirst(r: Replica, v: Replica, policy: Policy, copies: map<Path, Path>, evicted: set<Path>, p: Path)
    requires QuietPass(r, v, policy, copies, evicted) && p !in copies.Values
    ensures var d := CellOf(v, p);
            && (Loose(d) <==> LooseNext(r, policy, p)) && (Loose(d) ==> d.stub == StubOf(r.stubs, p))
            && (d.there.Some? <==> LiveNext(r, policy, p))
            && (Rests(d, policy.mode(p)) || Vacated(d) || Loose(d) || Owed(d, policy.mode(p)))
  {
    var c, source, mode, online := CellOf(r, p), SourceOf(r, p), policy.mode(p), policy.defaultOnlineOnly;
    KindIsCellKind(r, policy, p);
    LooseAfter(c, source, mode, online, p in evicted);
    ThereAfter(c, source, mode, online, p in evicted);
    OnePassSettles(c, source, mode, online, p in evicted);
  }

  /** A path some placeholder stands for is never a conflicted copy. */
  lemma SourceIsNoCopy(r: Replica, v: Replica, policy: Policy, copies: map<Path, Path>, evicted: set<Path>, p: Path)
    requires QuietPass(r, v, policy, copies, evicted) && StubOf(r.stubs, p).Foreign?
    ensures StubOf(r.stubs, p).source !in copies.Values && p !in copies.Values
  {
    forall x | x in copies ensures copies[x] != StubOf(r.stubs, p).source && copies[x] != p {
      assert Unused(r, copies[x]);
    }
  }

  /** The second pass finds no conflict. */
  lemma NoSecondConflict(r: Replica, v: Replica, policy: Policy, copies: map<Path, Path>, evicted: set<Path>, p: Path)
    requires QuietPass(r, v, policy, copies, evicted)
    ensures Kind(v, policy, p) != Some(Conflicting)
  {
    KindIsCellKind(v, policy, p);
    if p in copies.Values {
      var x :| x in copies && copies[x] == p;
      CopySettles(r.files[x].hash, policy.mode(p), policy.defaultOnlineOnly, false);
    } else {
      AfterFirst(r, v, policy, copies, evicted, p);
      NotConflicting(CellOf(v, p), SourceOf(v, p), policy.mode(p), policy.defaultOnlineOnly);
    }
  }

  lemma NotConflicting(d: Cell, source: Option<Hash>, mode: Mode, online: bool)
    requires Rests(d, mode) || Vacated(d) || Loose(d) || Owed(d, mode)
    ensures CellKind(Trimmed(d), source, mode, online) != Some(Conflicting)
    ensures CellKind(Trimmed(d), source, mode, online) != Some(Upload)
    ensures !Loose(d) ==> CellKind(Trimmed(d), source, mode, online) != Some(Relocate)
  {
    if !Loose(d) {
      SourceMatters(d, source, mode, online, false);
    }
  }

  // ----- The third pass -----

  /** A conflicted copy is settled when the third pass comes. */
  lemma CopyRests(r: Replica, v: Replica, w: Replica, policy: Policy, copies: map<Path, Path>, evicted: set<Path>,
                  evicted2: set<Path>, p: Path)
    requires QuietPass(r, v, policy, copies, evicted) && QuietPass(v, w, policy, map[], evicted2) && p in copies.Values
    ensures Kind(w, policy, p).None? && !LooseNext(r, policy, p)
  {
    var x :| x in copies && copies[x] == p;
    assert Unused(r, copies[x]);
    CopySettles(r.files[x].hash, policy.mode(p), policy.defaultOnlineOnly, p in evicted2);
    KindIsCellKind(w, policy, p);
    SourceMatters(CellOf(w, p), SourceOf(w, p), policy.mode(p), policy.defaultOnlineOnly, false);
  }

  /** So is any path that is not left loose. */
  lemma TightRests(r: Replica, v: Replica, w: Replica, policy: Policy, copies: map<Path, Path>, evicted: set<Path>,
                   evicted2: set<Path>, p: Path)
    requires QuietPass(r, v, policy, copies, evicted) && QuietPass(v, w, policy, map[], evicted2)
    requires p !in copies.Values && !LooseNext(r, policy, p)
    ensures Kind(w, policy, p).None?
  {
    var d, mode, online := CellOf(v, p), policy.mode(p), policy.defaultOnlineOnly;
    AfterFirst(r, v, policy, copies, evicted, p);
    SourceMatters(d, SourceOf(v, p), mode, online, p in evicted2);
    SecondPassSettles(d, mode, online, p in evicted2);
    KindIsCellKind(w, policy, p);
    SourceMatters(CellOf(w, p), SourceOf(w, p), mode, online, false);
  }

  /** A source that is not live when the second pass starts is live when the third does exactly
      if the second relocated it. */
  lemma LiveAtThird(r: Replica, v: Replica, w: Replica, policy: Policy, copies: map<Path, Path>, evicted: set<Path>,
                    evicted2: set<Path>, s: Path)
    requires QuietPass(r, v, policy, copies, evicted) && QuietPass(v, w, policy, map[], evicted2)
    requires s !in copies.Values && !LiveNext(r, policy, s)
    ensures ThereOf(w.remote, s).Some? <==> LooseNext(r, policy, s) && LiveNext(r, policy, StubOf(r.stubs, s).source)
  {
    var d, source, mode, online := CellOf(v, s), SourceOf(v, s), policy.mode(s), policy.defaultOnlineOnly;
    AfterFirst(r, v, policy, copies, evicted, s);
    NotConflicting(d, source, mode, online);
    ThereAfter(d, source, mode, online, s in evicted2);
    if LooseNext(r, policy, s) {
      SourceIsNoCopy(r, v, policy, copies, evicted, s);
      AfterFirst(r, v, policy, copies, evicted, StubOf(r.stubs, s).source);
    }
    assert CellOf(w, s).there == ThereOf(w.remote, s);
  }

  /** A path left loose by the first pass is acted on by the third exactly if it is late. */
  lemma LooseAtThird(r: Replica, v: Replica, w: Replica, policy: Policy, copies: map<Path, Path>, evicted: set<Path>,
                     evicted2: set<Path>, p: Path)
    requires QuietPass(r, v, policy, copies, evicted) && QuietPass(v, w, policy, map[], evicted2)
    requires p !in copies.Values && LooseNext(r, policy, p)
    ensures Kind(w, policy, p).Some? <==> Late(r, policy, p)
  {
    var d, source, mode, online := CellOf(v, p), SourceOf(v, p), policy.mode(p), policy.defaultOnlineOnly;
    var s := StubOf(r.stubs, p).source;
    AfterFirst(r, v, policy, copies, evicted, p);
    SourceIsNoCopy(r, v, policy, copies, evicted, p);
    AfterFirst(r, v, policy, copies, evicted, s);
    assert source == CellOf(v, s).there;
    LooseSecond(d, source, mode, online, p in evicted2);
    KindIsCellKind(w, policy, p);
    if source.Some? {
      SourceMatters(CellOf(w, p), SourceOf(w, p), mode, online, false);
    } else {
      LiveAtThird(r, v, w, policy, copies, evicted, evicted2, s);
    }
  }

  /** After two quiet passes the third acts on a path exactly if its placeholder was late. */
  lemma ThirdPassActsOnLate(r: Replica, v: Replica, w: Replica, policy: Policy, copies: map<Path, Path>,
                            copies2: map<Path, Path>,
                            evicted: set<Path>, evicted2: set<Path>, p: Path)
    requires QuietPass(r, v, policy, copies, evicted) && QuietPass(v, w, policy, copies2, evicted2)
    ensures Kind(w, policy, p).Some? <==> Late(r, policy, p)
  {
    forall x ensures x !in copies2 {
      NoSecondConflict(r, v, policy, copies, evicted, x);
    }
    assert copies2 == map[];
    if p in copies.Values {
      CopyRests(r, v, w, policy, copies, evicted, evicted2, p);
    } else if LooseNext(r, policy, p) {
      LooseAtThird(r, v, w, policy, copies, evicted, evicted2, p);
    } else {
      TightRests(r, v, w, policy, copies, evicted, evicted2, p);
    }
  }

  lemma PlanEmptyIff(r: Replica, policy: Policy, plan: Plan)
    requires PlanOf(r, policy, plan)
    ensures plan.actions == [] <==> forall p :: Kind(r, policy, p).None?
  {
    if plan.actions == [] {
      forall p ensures Kind(r, policy, p).None? {
        if p in AllPaths(r.files, r.rows, r.remote, ViewOf(r, policy)) {
          PlanCovers(r, policy, plan, p);
        }
      }
    } else {
      assert Kind(r, policy, plan.actions[0].path) == Some(plan.actions[0].kind);
    }
  }

  /** The third pass plans nothing exactly if no placeholder is late. */
  lemma ThirdPassIsEmptyIff(r: Replica, v: Replica, w: Replica, policy: Policy, copies: map<Path, Path>,
                            copies2: map<Path, Path>,
                            evicted: set<Path>, evicted2: set<Path>, plan: Plan)
    requires QuietPass(r, v, policy, copies, evicted) && QuietPass(v, w, policy, copies2, evicted2)
    requires PlanOf(w, policy, plan)
    ensures plan.actions == [] <==> forall p :: !Late(r, policy, p)
  {
    forall p ensures Kind(w, policy, p).Some? <==> Late(r, policy, p) {
      ThirdPassActsOnLate(r, v, w, policy, copies, copies2, evicted, evicted2, p);
    }
    PlanEmptyIff(w, policy, plan);
  }

  /** In particular with no placeholder that stands for another path. */
  lemma ThirdPassIsEmpty(r: Replica, v: Replica, w: Replica, policy: Policy, copies: map<Path, Path>,
                         copies2: map<Path, Path>,
                         evicted: set<Path>, evicted2: set<Path>, plan: Plan)
    requires QuietPass(r, v, policy, copies, evicted) && QuietPass(v, w, policy, copies2, evicted2)
    requires forall p :: p in r.stubs ==> r.stubs[p].path == p
    requires PlanOf(w, policy, plan)
    ensures plan.actions == []
  {
    ThirdPassIsEmptyIff(r, v, w, policy, copies, copies2, evicted, evicted2, plan);
  }

  /** A file another path's placeholder stands for, not on the remote yet. */
  function LateStart(mtime: int): Replica
  {
    Replica(map[[1] := LocalEntry([1], 1, mtime, 5)], map[[2] := StubMeta([1], 1, 5, [7], None)], map[], map[])
  }

  /** A placeholder for another path is late, for one, when that path is not on the remote yet:
      the first pass uploads it, the second relocates the placeholder, and the third hydrates
      it. `v` and `w` are what the two passes leave. */
  lemma {:induction false} LateExample(policy: Policy, mtime: int) returns (v: Replica, w: Replica)
    requires policy.mode([2]) == LocalOnly
    ensures Late(LateStart(mtime), policy, [2])
    ensures QuietPass(LateStart(mtime), v, policy, map[], {}) && QuietPass(v, w, policy, map[], {})
    ensures Kind(w, policy, [2]) == Some(Hydrate)
    ensures forall plan: Plan :: PlanOf(w, policy, plan) ==> Action([2], Hydrate) in plan.actions
  {
    var r := LateStart(mtime);
    var one := DeltaEntry([1], [7], 5, 1, 0, false, 0, 1, [9], None);
    var two := DeltaEntry([2], [8], 5, 1, 0, false, 0, 2, [9], None);
    var row1 := FileRecord([1], 1, mtime, 5, Some(5), Local, Some(0), None);
    var row2 := FileRecord([2], 1, 0, 5, Some(5), Evicted, Some(0), None);
    v := r.(rows := map[[1] := row1], remote := map[[1] := one]);
    w := Replica(r.files, map[[2] := StubMeta([2], 1, 5, [8], None)], map[[1] := row1, [2] := row2],
                 map[[1] := one, [2] := two]);
    assert [1] != [2] by { assert [1][0] != [2][0]; }
    KindIsCellKind(w, policy, [2]);
    LateFirst(r, v, policy, one, row1, mtime);
    LateSecond(v, w, policy);
    forall plan: Plan | PlanOf(w, policy, plan) ensures Action([2], Hydrate) in plan.actions {
      assert [2] in AllPaths(w.files, w.rows, w.remote, ViewOf(w, policy));
    }
    ThirdPassActsOnLate(r, v, w, policy, map[], map[], {}, {}, [2]);
  }

  lemma {:induction false} LateFirst(r: Replica, v: Replica, policy: Policy, one: DeltaEntry, row1: FileRecord,
                                     mtime: int)
    requires r == LateStart(mtime) && v == r.(rows := map[[1] := row1], remote := map[[1] := one])
    requires one.hash == 5 && !one.deleted
    requires row1.contentHash == 5 && row1.lastSynced == Some(5) && row1.residency == Local
    ensures QuietPass(r, v, policy, map[], {})
  {
    assert [1] != [2] by { assert [1][0] != [2][0]; }
    forall p
      ensures CellOf(v, p) == AfterPass(CellOf(r, p), SourceOf(r, p), policy.mode(p), policy.defaultOnlineOnly, false)
      ensures Kind(r, policy, p) != Some(Conflicting)
    {
      KindIsCellKind(r, policy, p);
    }
  }

  lemma {:induction false} LateSecond(v: Replica, w: Replica, policy: Policy)
    requires v.files.Keys == {[1]} && v.files[[1]].hash == 5 && w.files == v.files
    requires v.stubs.Keys == {[2]} && v.stubs[[2]].path == [1] && w.stubs.Keys == {[2]} && w.stubs[[2]].path == [2]
    requires v.rows.Keys == {[1]} && RowOf(v.rows, [1]) == Some(Row(5, Some(5), false))
    requires w.rows.Keys == {[1], [2]} && w.rows[[1]] == v.rows[[1]]
    requires RowOf(w.rows, [2]) == Some(Row(5, Some(5), true))
    requires v.remote.Keys == {[1]} && ThereOf(v.remote, [1]) == Some(5)
    requires w.remote.Keys == {[1], [2]} && ThereOf(w.remote, [1]) == Some(5) && ThereOf(w.remote, [2]) == Some(5)
    ensures QuietPass(v, w, policy, map[], {})
  {
    assert [1] != [2] by { assert [1][0] != [2][0]; }
    forall p
      ensures CellOf(w, p) == AfterPass(CellOf(v, p), SourceOf(v, p), policy.mode(p), policy.defaultOnlineOnly, false)
      ensures Kind(v, policy, p) != Some(Conflicting)
    {
      KindIsCellKind(v, policy, p);
    }
  }
}
