/**
 Three-way reconcile. For each path the local file, the last agreed version and the merged
 remote decide one action; placeholders and evicted rows stand in for files whose bytes are
 not here. The plan is ordered by kind, transfers before deletes.
 */
module Engine {
  import opened Ordering
  import opened Options
  import opened Manifest
  import opened Records

  datatype ActionKind =
    | Download
    | Hydrate
    | Relocate
    | Upload
    | CreatePlaceholder
    | UpdatePlaceholder
    | DeleteLocal
    | DeleteRemote
    | Conflicting

  datatype Action = Action(path: Path, kind: ActionKind)

  datatype Plan = Plan(actions: seq<Action>, relocations: map<Path, DeltaEntry>)

  datatype Change = Unchanged | Created | Modified | Deleted

  datatype Mode = Auto | LocalOnly | OnlineOnly

  datatype Policy = Policy(mode: Path -> Mode, defaultOnlineOnly: bool)

  datatype ResidencyView = ResidencyView(placeholders: map<Path, StubMeta>, policy: Policy, hydrate: set<Path>)

  type Files = map<Path, LocalEntry>

  predicate ArrivesOnlineOnly(policy: Policy, p: Path)
  {
    match policy.mode(p)
    case LocalOnly => false
    case OnlineOnly => true
    case Auto => policy.defaultOnlineOnly
  }

  function Classify(current: Option<Hash>, base: Option<Hash>): Change
  {
    match (current, base)
    case (None, None) => Unchanged
    case (None, Some(_)) => Deleted
    case (Some(_), None) => Created
    case (Some(c), Some(b)) => if c == b then Unchanged else Modified
  }

  function HereOf(local: Files, p: Path): Option<Hash>
  {
    if p in local then Some(local[p].hash) else None
  }

  function ThereOf(remote: Entries, p: Path): Option<Hash>
  {
    if p in remote && !remote[p].deleted then Some(remote[p].hash) else None
  }

  function Decide(here: Change, there: Change, localHash: Option<Hash>, remoteHash: Option<Hash>): Option<ActionKind>
  {
    match (here, there)
    case (Unchanged, Unchanged) => None
    case (Unchanged, Deleted) => Some(DeleteLocal)
    case (Unchanged, _) => Some(Download)
    case (Deleted, Unchanged) => Some(DeleteRemote)
    case (Deleted, Deleted) => None
    case (Deleted, _) => Some(Conflicting)
    case (_, Unchanged) => Some(Upload)
    case (_, Deleted) => Some(Conflicting)
    case (_, _) => if localHash == remoteHash then None else Some(Conflicting)
  }

  /** The version a moved or copied placeholder stands for. */
  function RelocationSource(p: Path, remote: Entries, view: ResidencyView): Option<DeltaEntry>
  {
    if p in view.placeholders && view.placeholders[p].path != p && ThereOf(remote, view.placeholders[p].path).Some?
    then Some(remote[view.placeholders[p].path]) else None
  }

  predicate WantsLocal(view: ResidencyView, p: Path)
  {
    p in view.hydrate || view.policy.mode(p) == LocalOnly
  }

  /** What a path wants where all there is of its file is a placeholder. */
  function PlaceholderAction(p: Path, baseline: Baseline, remote: Entries, view: ResidencyView): Option<ActionKind>
    requires p in view.placeholders
  {
    if view.placeholders[p].path != p then
      (if RelocationSource(p, remote, view).Some? then Some(Relocate) else None)
    else
      var refresh := if WantsLocal(view, p) then Hydrate else UpdatePlaceholder;
      match (BaseOf(baseline, p), Classify(ThereOf(remote, p), BaseOf(baseline, p)))
      case (None, Created) => Some(refresh)
      case (None, _) => None
      case (Some(_), Unchanged) =>
        if WantsLocal(view, p) then Some(Hydrate)
        else if IsEvicted(baseline, p) then None
        else Some(UpdatePlaceholder)
      case (Some(_), Deleted) => Some(DeleteLocal)
      case (Some(_), _) => Some(refresh)
  }

  /** What the pass does about one path. A real file wins over a placeholder or an evicted row. */
  function KindFor(p: Path, local: Files, baseline: Baseline, remote: Entries, view: ResidencyView): Option<ActionKind>
  {
    var base := BaseOf(baseline, p);
    var here := HereOf(local, p);
    var there := ThereOf(remote, p);
    var thereChange := Classify(there, base);
    if here.Some? then Decide(Classify(here, base), thereChange, here, there)
    else if p in view.placeholders then PlaceholderAction(p, baseline, remote, view)
    else if IsEvicted(baseline, p) then
      match thereChange
      case Unchanged => Some(DeleteRemote)
      case Deleted => Some(DeleteLocal)
      case _ => Some(Hydrate)
    else
      var kind := Decide(Classify(None, base), thereChange, None, there);
      if kind == Some(Download) && ArrivesOnlineOnly(view.policy, p) then Some(CreatePlaceholder) else kind
  }

  // ----- The plan -----

  function Rank(k: ActionKind): nat
  {
    match k
    case Download => 0
    case Hydrate => 1
    case Relocate => 2
    case Upload => 3
    case CreatePlaceholder => 4
    case UpdatePlaceholder => 5
    case DeleteLocal => 6
    case DeleteRemote => 7
    case Conflicting => 8
  }

  predicate Before(a: Action, b: Action)
  {
    Rank(a.kind) < Rank(b.kind) || (a.kind == b.kind && Below(a.path, b.path))
  }

  ghost predicate Sorted(actions: seq<Action>)
  {
    forall i, j :: 0 <= i < j < |actions| ==> Before(actions[i], actions[j])
  }

  /** Every path any of the four sources names. */
  function AllPaths(local: Files, baseline: Baseline, remote: Entries, view: ResidencyView): set<Path>
  {
    local.Keys + baseline.Keys + remote.Keys + view.placeholders.Keys
  }

  /** `actions` is the plan for the paths in `done`: one action where one is due, in order. */
  ghost predicate Plans(actions: seq<Action>, done: set<Path>, local: Files, baseline: Baseline, remote: Entries,
                        view: ResidencyView)
  {
    && Sorted(actions)
    && (forall a :: a in actions ==> a.path in done && KindFor(a.path, local, baseline, remote, view) == Some(a.kind))
    && (forall p :: p in done && KindFor(p, local, baseline, remote, view).Some? ==>
                      Action(p, KindFor(p, local, baseline, remote, view).value) in actions)
  }

  /** `relocations` has the source version for exactly the relocations due among `done`. */
  ghost predicate Relocates(relocations: map<Path, DeltaEntry>, done: set<Path>, local: Files, remote: Entries,
                            view: ResidencyView)
  {
    && (forall p :: p in relocations <==> p in done && p !in local && RelocationSource(p, remote, view).Some?)
    && (forall p :: p in relocations ==> RelocationSource(p, remote, view) == Some(relocations[p]))
  }

  lemma BeforeTotal(a: Action, b: Action)
    ensures Before(a, b) || a == b || Before(b, a)
    ensures !(Before(a, b) && Before(b, a)) && !Before(a, a)
  {
    BelowTotal(a.path, b.path);
    BelowTotal(a.path, a.path);
  }

  lemma BeforeTrans(a: Action, b: Action, c: Action)
    requires Before(a, b) && Before(b, c)
    ensures Before(a, c)
  {
    if a.kind == b.kind == c.kind {
      BelowTrans(a.path, b.path, c.path);
    }
  }

  /** Putting an action in its place; the sort, one action at a time. */
  method Insert(actions: seq<Action>, a: Action) returns (r: seq<Action>)
    requires Sorted(actions) && a !in actions
    ensures Sorted(r)
    ensures forall x :: x in r <==> x in actions || x == a
  {
    var i := 0;
    while i < |actions| && Before(actions[i], a)
      invariant i <= |actions|
      invariant forall j :: 0 <= j < i ==> Before(actions[j], a)
    {
      i := i + 1;
    }
    r := actions[..i] + [a] + actions[i..];
    assert forall x :: x in actions <==> x in actions[..i] || x in actions[i..] by {
      assert actions == actions[..i] + actions[i..];
    }
    forall j | i <= j < |actions| ensures Before(a, actions[j]) {
      assert actions[j] in actions;
      BeforeTotal(a, actions[i]);
      if j > i && Before(a, actions[i]) {
        BeforeTrans(a, actions[i], actions[j]);
      }
    }
  }

  // ----- The plan, side by side -----

  /** All that is known of a path: the file's content, the version last agreed on and the live
      remote one, whether the row is evicted, whether a placeholder is there and stands for
      this path or for another live one, whether the bytes are wanted here, and whether a new
      file of another device arrives as a placeholder. */
  datatype Sides = Sides(here: Option<Hash>, base: Option<Hash>, there: Option<Hash>, evicted: bool,
                         own: bool, foreign: bool, source: bool, wanted: bool, online: bool)

  function SidesOf(p: Path, local: Files, baseline: Baseline, remote: Entries, view: ResidencyView): Sides
  {
    var stub := p in view.placeholders;
    Sides(
      if p in local then Some(local[p].hash) else None,
      if p in baseline then baseline[p].lastSynced else None,
      if p in remote && !remote[p].deleted then Some(remote[p].hash) else None,
      p in baseline && baseline[p].residency == Evicted,
      stub && view.placeholders[p].path == p,
      stub && view.placeholders[p].path != p,
      stub && view.placeholders[p].path in remote && !remote[view.placeholders[p].path].deleted,
      p in view.hydrate || view.policy.mode(p) == LocalOnly,
      view.policy.mode(p) == OnlineOnly || (view.policy.mode(p) == Auto && view.policy.defaultOnlineOnly))
  }

  /** When each action is due, in terms of the three sides: one side overwrites the other only if
      that one is what was agreed on, and whatever moved apart is a conflict. */
  predicate Due(k: ActionKind, s: Sides)
  {
    var bare := s.here.None? && !s.own && !s.foreign;
    match k
    case Upload => s.here.Some? && s.here != s.base && s.there == s.base
    case Download =>
      || (s.here.Some? && s.here == s.base && s.there.Some? && s.there != s.base)
      || (bare && !s.evicted && s.base.None? && s.there.Some? && !s.online)
    case CreatePlaceholder => bare && !s.evicted && s.base.None? && s.there.Some? && s.online
    case Conflicting =>
      || (s.here.Some? && s.here != s.base && s.there != s.base && s.here != s.there)
      || (bare && !s.evicted && s.base.Some? && s.there.Some? && s.there != s.base)
    case DeleteLocal =>
      s.base.Some? && s.there.None? && (s.here == s.base || (s.here.None? && s.own) || (bare && s.evicted))
    case DeleteRemote => bare && s.there == s.base && (s.base.Some? || s.evicted)
    case Hydrate => s.there.Some? && ((s.here.None? && s.own && s.wanted) || (bare && s.evicted && s.there != s.base))
    case UpdatePlaceholder => s.here.None? && s.own && s.there.Some? && !s.wanted && !(s.evicted && s.there == s.base)
    case Relocate => s.here.None? && s.foreign && s.source
  }

  lemma KindIsDue(k: ActionKind, p: Path, local: Files, baseline: Baseline, remote: Entries, view: ResidencyView)
    ensures KindFor(p, local, baseline, remote, view) == Some(k) <==>
              Due(k, SidesOf(p, local, baseline, remote, view))
  {
    if p in local {
      FileIsDue(k, p, local, baseline, remote, view);
    } else if p in view.placeholders {
      StubIsDue(k, p, local, baseline, remote, view);
    } else {
      BareIsDue(k, p, local, baseline, remote, view);
    }
  }

  lemma FileIsDue(k: ActionKind, p: Path, local: Files, baseline: Baseline, remote: Entries, view: ResidencyView)
    requires p in local
    ensures KindFor(p, local, baseline, remote, view) == Some(k) <==>
              Due(k, SidesOf(p, local, baseline, remote, view))
  {
  }

  lemma StubIsDue(k: ActionKind, p: Path, local: Files, baseline: Baseline, remote: Entries, view: ResidencyView)
    requires p !in local && p in view.placeholders
    ensures KindFor(p, local, baseline, remote, view) == Some(k) <==>
              Due(k, SidesOf(p, local, baseline, remote, view))
  {
  }

  lemma BareIsDue(k: ActionKind, p: Path, local: Files, baseline: Baseline, remote: Entries, view: ResidencyView)
    requires p !in local && p !in view.placeholders
    ensures KindFor(p, local, baseline, remote, view) == Some(k) <==>
              Due(k, SidesOf(p, local, baseline, remote, view))
  {
  }

  /** The plan has exactly the actions that are due. */
  ghost predicate ActionsDue(actions: seq<Action>, local: Files, baseline: Baseline, remote: Entries,
                             view: ResidencyView)
  {
    forall a :: a in actions <==> Due(a.kind, SidesOf(a.path, local, baseline, remote, view))
  }

  lemma PlannedAreDue(actions: seq<Action>, local: Files, baseline: Baseline, remote: Entries, view: ResidencyView)
    requires Plans(actions, AllPaths(local, baseline, remote, view), local, baseline, remote, view)
    ensures ActionsDue(actions, local, baseline, remote, view)
  {
    forall a ensures a in actions <==> Due(a.kind, SidesOf(a.path, local, baseline, remote, view)) {
      KindIsDue(a.kind, a.path, local, baseline, remote, view);
      PlannedIff(a, actions, local, baseline, remote, view);
    }
  }

  lemma PlannedIff(a: Action, actions: seq<Action>, local: Files, baseline: Baseline, remote: Entries,
                   view: ResidencyView)
    requires Plans(actions, AllPaths(local, baseline, remote, view), local, baseline, remote, view)
    ensures a in actions <==> KindFor(a.path, local, baseline, remote, view) == Some(a.kind)
  {
    assert a == Action(a.path, a.kind);
    if KindFor(a.path, local, baseline, remote, view).Some? {
      assert a.path in AllPaths(local, baseline, remote, view);
    }
  }

  /** A placeholder that stands for another path is to be filled with that path's live version. */
  ghost predicate SourcesLive(relocations: map<Path, DeltaEntry>, local: Files, remote: Entries, view: ResidencyView)
  {
    && (forall p :: p in relocations <==>
                      && p !in local && p in view.placeholders && view.placeholders[p].path != p
                      && view.placeholders[p].path in remote && !remote[view.placeholders[p].path].deleted)
    && (forall p :: p in relocations ==> relocations[p] == remote[view.placeholders[p].path])
  }

  /** Transfers come first, then metadata, then deletes, and conflicts last. */
  const KINDS: seq<ActionKind> :=
    [Download, Hydrate, Relocate, Upload, CreatePlaceholder, UpdatePlaceholder, DeleteLocal, DeleteRemote, Conflicting]

  ghost predicate InKindOrder(actions: seq<Action>)
  {
    forall i, j :: 0 <= i < j < |actions| ==> NotLater(actions[i], actions[j])
  }

  ghost predicate NotLater(a: Action, b: Action)
  {
    || (a.kind == b.kind && Below(a.path, b.path))
    || exists x, y :: 0 <= x < y < |KINDS| && KINDS[x] == a.kind && KINDS[y] == b.kind
  }

  lemma SortedByKind(actions: seq<Action>)
    requires Sorted(actions)
    ensures InKindOrder(actions)
  {
    forall i, j | 0 <= i < j < |actions| ensures NotLater(actions[i], actions[j]) {
      var a, b := actions[i], actions[j];
      assert Before(a, b);
      if a.kind != b.kind {
        RankIsPlace(a.kind);
        RankIsPlace(b.kind);
        assert 0 <= Rank(a.kind) < Rank(b.kind) < |KINDS|;
      }
    }
  }

  lemma RankIsPlace(k: ActionKind)
    ensures Rank(k) < |KINDS| && KINDS[Rank(k)] == k
  {
  }

  lemma RelocatesLive(relocations: map<Path, DeltaEntry>, local: Files, baseline: Baseline, remote: Entries,
                      view: ResidencyView)
    requires Relocates(relocations, AllPaths(local, baseline, remote, view), local, remote, view)
    ensures SourcesLive(relocations, local, remote, view)
  {
  }

  /** A path that has only its own placeholder, and a live version behind it, is hydrated exactly
      if somebody asked for it or the policy keeps it local. */
  lemma HydratesWanted(actions: seq<Action>, local: Files, baseline: Baseline, remote: Entries, view: ResidencyView)
    requires ActionsDue(actions, local, baseline, remote, view)
    ensures forall p :: p !in local && p in view.placeholders && view.placeholders[p].path == p
                        && p in remote && !remote[p].deleted ==>
              (Action(p, Hydrate) in actions <==> p in view.hydrate || view.policy.mode(p) == LocalOnly)
  {
    forall p | p !in local && p in view.placeholders && view.placeholders[p].path == p && p in remote
               && !remote[p].deleted
      ensures Action(p, Hydrate) in actions <==> p in view.hydrate || view.policy.mode(p) == LocalOnly
    {
      var a := Action(p, Hydrate);
      assert a in actions <==> Due(a.kind, SidesOf(a.path, local, baseline, remote, view));
    }
  }

  /** `reconcile_with`: the paths are visited in some order, the actions end up sorted. */
  method Reconcile(local: Files, baseline: Baseline, remote: Entries, view: ResidencyView) returns (plan: Plan)
    ensures Plans(plan.actions, AllPaths(local, baseline, remote, view), local, baseline, remote, view)
    ensures Relocates(plan.relocations, AllPaths(local, baseline, remote, view), local, remote, view)
    ensures ActionsDue(plan.actions, local, baseline, remote, view) && InKindOrder(plan.actions)
    ensures SourcesLive(plan.relocations, local, remote, view)
    ensures forall p :: p !in local && p in view.placeholders && view.placeholders[p].path == p
                        && p in remote && !remote[p].deleted ==>
              (Action(p, Hydrate) in plan.actions <==> p in view.hydrate || view.policy.mode(p) == LocalOnly)
  {
    var actions: seq<Action> := [];
    var relocations: map<Path, DeltaEntry> := map[];
    var rest := AllPaths(local, baseline, remote, view);
    ghost var done: set<Path> := {};
    while rest != {}
      invariant done !! rest && done + rest == AllPaths(local, baseline, remote, view)
      invariant Plans(actions, done, local, baseline, remote, view)
      invariant Relocates(relocations, done, local, remote, view)
    {
      var p :| p in rest;
      if p !in local && RelocationSource(p, remote, view).Some? {
        relocations := relocations[p := RelocationSource(p, remote, view).value];
      }
      var kind := KindFor(p, local, baseline, remote, view);
      if kind.Some? {
        actions := Insert(actions, Action(p, kind.value));
      }
      rest, done := rest - {p}, done + {p};
    }
    assert done == AllPaths(local, baseline, remote, view);
    plan := Plan(actions, relocations);
    PlannedAreDue(actions, local, baseline, remote, view);
    HydratesWanted(actions, local, baseline, remote, view);
    SortedByKind(actions);
    RelocatesLive(relocations, local, baseline, remote, view);
  }

  lemma {:induction false} SortedUnique(a: seq<Action>, b: seq<Action>)
    requires Sorted(a) && Sorted(b) && forall x :: x in a <==> x in b
    ensures a == b
  {
    if a != [] || b != [] {
      assert a != [] && b != [] by {
        if a != [] { assert a[0] in b; }
        if b != [] { assert b[0] in a; }
      }
      assert a[0] in b && b[0] in a;
      BeforeTotal(a[0], b[0]);
      assert a[0] == b[0];
      forall x ensures x in a[1..] <==> x in b[1..] {
        TailOf(a, x);
        TailOf(b, x);
      }
      SortedUnique(a[1..], b[1..]);
      assert a == [a[0]] + a[1..] && b == [b[0]] + b[1..];
    }
  }

  lemma TailOf(a: seq<Action>, x: Action)
    requires Sorted(a) && a != []
    ensures x in a[1..] <==> x in a && x != a[0]
  {
    BeforeTotal(a[0], a[0]);
    if x in a[1..] {
      var i :| 0 <= i < |a[1..]| && a[1..][i] == x;
      assert Before(a[0], a[i + 1]);
    }
    if x in a && x != a[0] {
      var i :| 0 <= i < |a| && a[i] == x;
      assert a[1..][i - 1] == x;
    }
  }

  /** The plan is a function of its inputs: the order paths are visited in does not show. */
  lemma PlanUnique(p: Plan, q: Plan, local: Files, baseline: Baseline, remote: Entries, view: ResidencyView)
    requires Plans(p.actions, AllPaths(local, baseline, remote, view), local, baseline, remote, view)
    requires Plans(q.actions, AllPaths(local, baseline, remote, view), local, baseline, remote, view)
    ensures p.actions == q.actions
  {
    SortedUnique(p.actions, q.actions);
  }

  // ----- What each destructive action may rely on -----

  /** A file is deleted here only if the remote has no live version, something was agreed on
      before, and any bytes here are exactly what was agreed on. */
  lemma DeleteLocalIsBacked(p: Path, local: Files, baseline: Baseline, remote: Entries, view: ResidencyView)
    requires KindFor(p, local, baseline, remote, view) == Some(DeleteLocal)
    ensures BaseOf(baseline, p).Some? && ThereOf(remote, p).None?
    ensures p in local ==> Some(local[p].hash) == BaseOf(baseline, p)
    ensures p !in local ==> p in view.placeholders || IsEvicted(baseline, p)
  {
  }

  /** The remote version is tombstoned only if it is exactly what was last agreed on and
      neither a real file nor a placeholder stands at its path. An evicted row always has an
      agreed version, so there is something to tombstone. */
  lemma DeleteRemoteIsWanted(p: Path, local: Files, baseline: Baseline, remote: Entries, view: ResidencyView)
    requires KindFor(p, local, baseline, remote, view) == Some(DeleteRemote)
    ensures p !in local && p !in view.placeholders
    ensures ThereOf(remote, p) == BaseOf(baseline, p)
    ensures (IsEvicted(baseline, p) ==> BaseOf(baseline, p).Some?) ==> ThereOf(remote, p).Some?
  {
  }

  /** A transfer overwrites one side only if that side still holds what was last agreed on,
      or nothing; when both sides moved apart the files are kept apart. */
  lemma TransfersOverwriteOnlyAgreed(p: Path, local: Files, baseline: Baseline, remote: Entries, view: ResidencyView)
    ensures var k := KindFor(p, local, baseline, remote, view); var base := BaseOf(baseline, p);
            var here, there := HereOf(local, p), ThereOf(remote, p);
            && (k == Some(Download) ==> here == base && there.Some? && there != base)
            && (k == Some(Upload) ==> here.Some? && here != base && there == base)
            && (k == Some(Hydrate) || k == Some(CreatePlaceholder) || k == Some(UpdatePlaceholder) ==>
                 here.None? && there.Some?)
            && (k == Some(Conflicting) ==>
                 here != there && (here.Some? || (base.Some? && there.Some? && there != base)))
            && (here.Some? && here != base && there != base && there != here ==> k == Some(Conflicting))
  {
  }

  /** With a real file, nothing is planned exactly when it agrees with the remote. */
  lemma NothingForFileIffAgreed(p: Path, local: Files, baseline: Baseline, remote: Entries, view: ResidencyView)
    requires p in local
    ensures KindFor(p, local, baseline, remote, view).None? <==> HereOf(local, p) == ThereOf(remote, p)
  {
    var here, there, base := HereOf(local, p), ThereOf(remote, p), BaseOf(baseline, p);
    var h, t := Classify(here, base), Classify(there, base);
    assert KindFor(p, local, baseline, remote, view) == Decide(h, t, here, there);
    assert here.Some?;
    assert h.Unchanged? || h.Created? || h.Modified?;
    assert h == Unchanged ==> here == base;
    assert t == Unchanged ==> there == base;
  }
}
