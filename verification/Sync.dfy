/**
 Around `apply`: conflict losers whose bytes are only remote join the plan as relocations,
 and what `apply` makes durable is a run of the device in `MirrorProtocol`.
 */
module Sync {
  import opened Options
  import opened Manifest
  import opened Records
  import opened Engine
  import opened Commits
  import opened Apply
  import opened ApplySafety
  import opened Pinned
  import MirrorProtocol

  /** An evicted conflict loser and the conflicted-copy path its version goes to. */
  datatype Loser = Loser(to: Path, version: DeltaEntry)

  // ----- Losers in the plan -----

  predicate NotAfter(a: Action, b: Action)
  {
    a == b || Before(a, b)
  }

  ghost predicate InOrder(actions: seq<Action>)
  {
    forall i, j :: 0 <= i < j < |actions| ==> NotAfter(actions[i], actions[j])
  }

  lemma InsertedInOrder(actions: seq<Action>, i: nat, a: Action)
    requires InOrder(actions) && i <= |actions|
    requires forall j :: 0 <= j < i ==> NotAfter(actions[j], a)
    requires forall j :: i <= j < |actions| ==> NotAfter(a, actions[j])
    ensures InOrder(actions[..i] + [a] + actions[i..])
  {
    var r := actions[..i] + [a] + actions[i..];
    forall j, k | 0 <= j < k < |r| ensures NotAfter(r[j], r[k]) {
      assert r[j] == if j < i then actions[j] else if j == i then a else actions[j - 1];
      assert r[k] == if k < i then actions[k] else if k == i then a else actions[k - 1];
    }
  }

  method InsertAgain(actions: seq<Action>, a: Action) returns (r: seq<Action>)
    requires InOrder(actions)
    ensures InOrder(r) && |r| == |actions| + 1
    ensures forall x :: x in r <==> x in actions || x == a
  {
    var i := 0;
    while i < |actions| && Before(actions[i], a)
      invariant i <= |actions|
      invariant forall j :: 0 <= j < i ==> Before(actions[j], a)
    {
      i := i + 1;
    }
    forall j | i <= j < |actions| ensures NotAfter(a, actions[j]) {
      BeforeTotal(a, actions[i]);
      if j > i && Before(a, actions[i]) && Before(actions[i], actions[j]) {
        BeforeTrans(a, actions[i], actions[j]);
      }
    }
    InsertedInOrder(actions, i, a);
    r := actions[..i] + [a] + actions[i..];
    assert actions == actions[..i] + actions[i..];
  }

  /** A hydrate of a loser's path would move its row on whatever happens to its bytes. */
  function Turned(a: Action, path: Path): Action
  {
    if a.path == path && a.kind == Hydrate then Action(a.path, UpdatePlaceholder) else a
  }

  method TurnAll(actions: seq<Action>, path: Path) returns (r: seq<Action>)
    ensures |r| == |actions| && forall i :: 0 <= i < |r| ==> r[i] == Turned(actions[i], path)
  {
    r := [];
    for i := 0 to |actions|
      invariant |r| == i && forall k :: 0 <= k < i ==> r[k] == Turned(actions[k], path)
    {
      r := r + [Turned(actions[i], path)];
    }
  }

  /** The plan with the first losers taken in: hydrates of their paths turned, relocations added. */
  function WithLosers(actions: seq<Action>, losers: seq<Loser>): (r: seq<Action>)
  {
    if losers == [] then actions
    else
      var before := WithLosers(actions, losers[..|losers| - 1]);
      var l := losers[|losers| - 1];
      seq(|before|, i requires 0 <= i < |before| => Turned(before[i], l.version.path)) + [Action(l.to, Relocate)]
  }

  function LoserSources(relocations: map<Path, DeltaEntry>, losers: seq<Loser>): map<Path, DeltaEntry>
  {
    if losers == [] then relocations
    else LoserSources(relocations, losers[..|losers| - 1])[losers[|losers| - 1].to := losers[|losers| - 1].version]
  }

  /** `plan_pass` after `reconcile_with`. */
  method AddLosers(plan: Plan, losers: seq<Loser>) returns (r: Plan)
    ensures InOrder(r.actions)
    ensures forall a :: a in r.actions <==> a in WithLosers(plan.actions, losers)
    ensures r.relocations == LoserSources(plan.relocations, losers)
  {
    var actions, relocations := plan.actions, plan.relocations;
    for n := 0 to |losers|
      invariant actions == WithLosers(plan.actions, losers[..n])
      invariant relocations == LoserSources(plan.relocations, losers[..n])
    {
      assert losers[..n + 1][..n] == losers[..n];
      var turned := TurnAll(actions, losers[n].version.path);
      actions := turned + [Action(losers[n].to, Relocate)];
      relocations := relocations[losers[n].to := losers[n].version];
    }
    assert losers[..|losers|] == losers;
    var sorted: seq<Action> := [];
    for n := 0 to |actions|
      invariant InOrder(sorted)
      invariant forall a :: a in sorted <==> a in actions[..n]
    {
      assert forall a :: a in actions[..n + 1] <==> a in actions[..n] || a == actions[n];
      sorted := InsertAgain(sorted, actions[n]);
    }
    assert actions[..|actions|] == actions;
    r := Plan(sorted, relocations);
  }

  /** Taking losers in adds relocations and turns hydrates; every other action stays as it was. */
  lemma {:induction false} LosersKeepOthers(actions: seq<Action>, losers: seq<Loser>, a: Action)
    requires a.kind != Relocate && a.kind != Hydrate && a.kind != UpdatePlaceholder
    ensures a in WithLosers(actions, losers) <==> a in actions
  {
    if losers != [] {
      var before := WithLosers(actions, losers[..|losers| - 1]);
      var after := WithLosers(actions, losers);
      var l := losers[|losers| - 1];
      LosersKeepOthers(actions, losers[..|losers| - 1], a);
      if a in before {
        var i :| 0 <= i < |before| && before[i] == a;
        assert after[i] == Turned(before[i], l.version.path);
      }
      if a in after {
        var i :| 0 <= i < |after| && after[i] == a;
        assert i < |before| && after[i] == Turned(before[i], l.version.path);
      }
    }
  }

  /** Every loser taken in is to be relocated, from its own version unless a later one has the
      same new name. */
  lemma {:induction false} LosersArePlanned(plan: Plan, losers: seq<Loser>, l: Loser)
    requires l in losers
    ensures Action(l.to, Relocate) in WithLosers(plan.actions, losers)
    ensures var sources := LoserSources(plan.relocations, losers);
            l.to in sources && exists k :: k in losers && k.to == l.to && k.version == sources[l.to]
  {
    var init, last := losers[..|losers| - 1], losers[|losers| - 1];
    var before, after := WithLosers(plan.actions, init), WithLosers(plan.actions, losers);
    assert losers == init + [last] && last in losers;
    if l in init {
      LosersArePlanned(plan, init, l);
      var i :| 0 <= i < |before| && before[i] == Action(l.to, Relocate);
      assert after[i] == Turned(before[i], last.version.path);
    } else {
      assert after[|before|] == Action(last.to, Relocate);
    }
  }

  // ----- Which losers there are -----

  /** The row is evicted and stands for this version. */
  predicate StandsFor(v: DeltaEntry, rows: Baseline)
  {
    IsEvicted(rows, v.path) && BaseOf(rows, v.path) == Some(v.hash)
  }

  /** This device's version lost, and its row still stands for that version, evicted. */
  predicate Stays(c: Conflict, device: Device, rows: Baseline)
  {
    c.loser.device == device && StandsFor(c.loser, rows)
  }

  /** What `preserve_conflict_losers` works on; `stable` are the files that can be hashed. */
  datatype Setting = Setting(conflicts: seq<Conflict>, device: Device, name: Path -> Path, local: Files,
                             was: Baseline, stable: set<Path>)

  /** The conflicted-copy names: new, and each for one path. */
  ghost predicate FreshNames(s: Setting)
  {
    && (forall p :: s.name(p) !in s.local)
    && (forall p, q :: s.name(p) == s.name(q) ==> p == q)
    && (forall c, p :: c in s.conflicts ==> c.loser.path != s.name(p))
  }

  /** The file at the path has the bytes of this device's losing version. */
  predicate Renames(s: Setting, c: Conflict)
  {
    && c.loser.device == s.device && c.loser.path in s.local && c.loser.path in s.stable
    && s.local[c.loser.path].hash == c.loser.hash
  }

  /** One of the first `n` conflicts renames the file. */
  ghost predicate GoneBy(s: Setting, n: nat, p: Path)
    requires n <= |s.conflicts|
  {
    exists k :: 0 <= k < n && s.conflicts[k].loser.path == p && Renames(s, s.conflicts[k])
  }

  /** Conflict `k` finds no file, and an evicted row that stood for the losing version. */
  ghost predicate Relocating(s: Setting, k: nat)
    requires k < |s.conflicts|
  {
    var lost := s.conflicts[k].loser;
    && lost.device == s.device && lost.path in s.was
    && s.was[lost.path].residency == Evicted && s.was[lost.path].lastSynced == Some(lost.hash)
    && (lost.path !in s.local || GoneBy(s, k, lost.path))
  }

  function LoserOf(s: Setting, k: nat): Loser
    requires k < |s.conflicts|
  {
    Loser(s.name(s.conflicts[k].loser.path), s.conflicts[k].loser)
  }

  ghost predicate ChosenBy(s: Setting, n: nat, l: Loser)
    requires n <= |s.conflicts|
  {
    exists k :: 0 <= k < n && Relocating(s, k) && l == LoserOf(s, k)
  }

  /** The bytes of `local` are all in `files`, where they were or under their new names, and
      nothing else is. */
  ghost predicate NothingLost(s: Setting, files: Files)
  {
    && (forall p :: p in s.local ==>
                      if p in files then files[p] == s.local[p]
                      else s.name(p) in files && files[s.name(p)] == s.local[p].(path := s.name(p)))
    && (forall p :: p in files && p !in s.local ==> exists q :: q in s.local && q !in files && p == s.name(q))
  }

  /** Exactly the files of the first `n` conflicts' losing versions are renamed. */
  ghost predicate RenamedBy(s: Setting, n: nat, files: Files)
    requires n <= |s.conflicts|
  {
    NothingLost(s, files) && forall p :: p in s.local ==> (p in files <==> !GoneBy(s, n, p))
  }

  /** Exactly those files' rows are dropped. */
  ghost predicate DroppedBy(s: Setting, n: nat, rows: Baseline)
    requires n <= |s.conflicts|
  {
    && (forall p :: p in rows <==> p in s.was && !GoneBy(s, n, p))
    && (forall p :: p in rows ==> rows[p] == s.was[p])
  }

  /** Exactly the losers without a file are chosen. */
  ghost predicate Chosen(s: Setting, n: nat, losers: seq<Loser>)
    requires n <= |s.conflicts|
  {
    forall l :: l in losers <==> ChosenBy(s, n, l)
  }

  /** The first `n` conflicts are dealt with. */
  ghost predicate Preserved(s: Setting, n: nat, files: Files, rows: Baseline, losers: seq<Loser>)
    requires n <= |s.conflicts|
  {
    RenamedBy(s, n, files) && DroppedBy(s, n, rows) && Chosen(s, n, losers)
  }

  lemma OneMoreGone(s: Setting, n: nat, p: Path)
    requires n < |s.conflicts|
    ensures GoneBy(s, n + 1, p) <==>
              GoneBy(s, n, p) || (s.conflicts[n].loser.path == p && Renames(s, s.conflicts[n]))
  {
  }

  lemma OneMoreChosen(s: Setting, n: nat, l: Loser)
    requires n < |s.conflicts|
    ensures ChosenBy(s, n + 1, l) <==> ChosenBy(s, n, l) || (Relocating(s, n) && l == LoserOf(s, n))
  {
  }

  /** A conflict's path is among the files only as it was. */
  lemma LoserFile(s: Setting, n: nat, files: Files)
    requires FreshNames(s) && NothingLost(s, files) && n < |s.conflicts|
    ensures var p := s.conflicts[n].loser.path; p in files ==> p in s.local && files[p] == s.local[p]
  {
    assert s.conflicts[n] in s.conflicts;
  }

  /** One file under its conflicted-copy name. */
  function Moved(s: Setting, files: Files, p: Path): Files
    requires p in files
  {
    (files - {p})[s.name(p) := files[p].(path := s.name(p))]
  }

  lemma {:induction false} MovedIsKept(s: Setting, files: Files, p: Path, q: Path)
    requires FreshNames(s) && NothingLost(s, files) && p in files && q in s.local
    requires p in s.local && files[p] == s.local[p] && s.name(q) != p
    ensures var t := Moved(s, files, p);
            && (q in t <==> q in files && q != p)
            && if q in t then t[q] == s.local[q]
               else s.name(q) in t && t[s.name(q)] == s.local[q].(path := s.name(q))
  {
    assert s.name(p) !in s.local;
  }

  lemma {:induction false} MoveLosesNothing(s: Setting, n: nat, files: Files)
    requires FreshNames(s) && NothingLost(s, files) && n < |s.conflicts| && s.conflicts[n].loser.path in files
    ensures NothingLost(s, Moved(s, files, s.conflicts[n].loser.path))
    ensures forall x :: x in s.local ==>
              (x in Moved(s, files, s.conflicts[n].loser.path) <==> x in files && x != s.conflicts[n].loser.path)
  {
    var p := s.conflicts[n].loser.path;
    LoserFile(s, n, files);
    var t := Moved(s, files, p);
    assert s.conflicts[n] in s.conflicts;
    forall q | q in s.local
      ensures && (q in t <==> q in files && q != p)
              && if q in t then t[q] == s.local[q]
                 else s.name(q) in t && t[s.name(q)] == s.local[q].(path := s.name(q)) {
      MovedIsKept(s, files, p, q);
    }
    forall x | x in t && x !in s.local ensures exists q :: q in s.local && q !in t && x == s.name(q) {
      if x == s.name(p) {
        assert p !in t;
      } else {
        var q :| q in s.local && q !in files && x == s.name(q);
        assert q !in t;
      }
    }
  }

  lemma {:induction false} RenamedOne(s: Setting, n: nat, files: Files)
    requires FreshNames(s) && n < |s.conflicts| && RenamedBy(s, n, files) && Renames(s, s.conflicts[n])
    requires s.conflicts[n].loser.path in files
    ensures RenamedBy(s, n + 1, Moved(s, files, s.conflicts[n].loser.path))
  {
    MoveLosesNothing(s, n, files);
    forall x | x in s.local ensures x in Moved(s, files, s.conflicts[n].loser.path) <==> !GoneBy(s, n + 1, x) {
      OneMoreGone(s, n, x);
    }
  }

  lemma {:induction false} DroppedOne(s: Setting, n: nat, rows: Baseline)
    requires n < |s.conflicts| && DroppedBy(s, n, rows) && Renames(s, s.conflicts[n])
    ensures DroppedBy(s, n + 1, rows - {s.conflicts[n].loser.path})
  {
    forall x ensures GoneBy(s, n + 1, x) <==> GoneBy(s, n, x) || x == s.conflicts[n].loser.path {
      OneMoreGone(s, n, x);
    }
  }

  lemma {:induction false} SameGone(s: Setting, n: nat, files: Files, rows: Baseline)
    requires n < |s.conflicts| && RenamedBy(s, n, files) && DroppedBy(s, n, rows)
    requires Renames(s, s.conflicts[n]) ==> GoneBy(s, n, s.conflicts[n].loser.path)
    ensures RenamedBy(s, n + 1, files) && DroppedBy(s, n + 1, rows)
  {
    forall x ensures GoneBy(s, n + 1, x) <==> GoneBy(s, n, x) { OneMoreGone(s, n, x); }
  }

  /** A conflict without a file is one that renames nothing now. */
  lemma {:induction false} RelocatingIff(s: Setting, n: nat, files: Files)
    requires FreshNames(s) && n < |s.conflicts| && RenamedBy(s, n, files)
    ensures Relocating(s, n) <==> s.conflicts[n].loser.path !in files && Stays(s.conflicts[n], s.device, s.was)
  {
    LoserFile(s, n, files);
  }

  lemma {:induction false} ChooseOne(s: Setting, n: nat, losers: seq<Loser>, more: seq<Loser>)
    requires n < |s.conflicts| && Chosen(s, n, losers)
    requires more == if Relocating(s, n) then losers + [LoserOf(s, n)] else losers
    ensures Chosen(s, n + 1, more)
  {
    forall l ensures l in more <==> ChosenBy(s, n + 1, l) { OneMoreChosen(s, n, l); }
  }

  /**
   `preserve_conflict_losers`: of the conflicts this device lost, a file that still has the
   losing bytes is renamed and its row dropped; without a file, an evicted row that stood for
   the losing version makes a relocation.
   */
  method PreserveLosers(s: Setting) returns (files: Files, rows: Baseline, losers: seq<Loser>)
    requires FreshNames(s)
    ensures Preserved(s, |s.conflicts|, files, rows, losers)
  {
    files, rows, losers := s.local, s.was, [];
    for i := 0 to |s.conflicts|
      invariant Preserved(s, i, files, rows, losers)
    {
      var c := s.conflicts[i];
      var p := c.loser.path;
      LoserFile(s, i, files);
      RelocatingIff(s, i, files);
      ghost var before := losers;
      if c.loser.device == s.device && p in files && p in s.stable && files[p].hash == c.loser.hash {
        DroppedOne(s, i, rows);
        RenamedOne(s, i, files);
        files := Moved(s, files, p);
        rows := rows - {p};
      } else {
        SameGone(s, i, files, rows);
        if c.loser.device == s.device && p !in files && Stays(c, s.device, s.was) {
          losers := losers + [Loser(s.name(p), c.loser)];
        }
      }
      ChooseOne(s, i, before, losers);
    }
  }

  /** A chosen loser has no file, its new name is no chosen loser's path, and its row stands for
      it still, unless another conflict has just renamed the file and dropped the row. */
  lemma ChosenLosers(s: Setting, files: Files, rows: Baseline, losers: seq<Loser>, l: Loser)
    requires FreshNames(s) && Preserved(s, |s.conflicts|, files, rows, losers) && l in losers
    ensures l.version.path !in files && forall k :: k in losers ==> k.to != l.version.path
    ensures if l.version.path in s.local then l.version.path !in rows else StandsFor(l.version, rows)
  {
    var n := |s.conflicts|;
    var k :| 0 <= k < n && Relocating(s, k) && l == LoserOf(s, k);
    var p := l.version.path;
    assert s.conflicts[k] in s.conflicts;
    if p in s.local {
      var i :| 0 <= i < k && s.conflicts[i].loser.path == p && Renames(s, s.conflicts[i]);
      assert GoneBy(s, n, p);
    }
    forall x | x in losers ensures x.to != p {
      var i :| 0 <= i < n && Relocating(s, i) && x == LoserOf(s, i);
    }
    assert forall q :: s.name(q) != p;
  }

  // ----- A call of `apply` is a run of the device -----

  /** The protocol steps a durable step stands for. Deleting a file touches neither log nor rows. */
  function StepEvents(d: Device, step: Step, now: int): seq<MirrorProtocol.Event>
  {
    match step
    case LogDeltas(deltas) => [MirrorProtocol.Log(d, deltas)]
    case SetRow(op) => [MirrorProtocol.Record(d, op, now)]
    case SetAside(p) => [MirrorProtocol.Record(d, Remove(p), now)]
    case DropFile(_) => []
  }

  function Events(d: Device, trace: seq<Step>, now: int): seq<MirrorProtocol.Event>
  {
    if trace == [] then [] else Events(d, trace[..|trace| - 1], now) + StepEvents(d, trace[|trace| - 1], now)
  }

  /** Each step may be taken where the trace takes it: rows on known paths, objects that are
      not empty and are signed by this pass. */
  ghost predicate Orderly(d: Device, lamport: nat, known: set<Path>, trace: seq<Step>)
  {
    && (forall i :: 0 <= i < |trace| && trace[i].SetRow? && Advances(trace[i].op) ==>
                      OpPath(trace[i].op) in known + PathsOf(Elems(LoggedIn(trace[..i]))))
    && (forall i :: 0 <= i < |trace| && trace[i].LogDeltas? ==> trace[i].deltas != [])
    && (forall e :: e in LoggedIn(trace) ==> e.lamport == lamport && e.device == d)
  }

  lemma {:induction false} RunAppend(s: MirrorProtocol.State, es: seq<MirrorProtocol.Event>, e: MirrorProtocol.Event)
    requires MirrorProtocol.ValidRun(s, es) && MirrorProtocol.Enabled(MirrorProtocol.After(s, es), e)
    ensures MirrorProtocol.ValidRun(s, es + [e])
    ensures MirrorProtocol.After(s, es + [e]) == MirrorProtocol.Next(MirrorProtocol.After(s, es), e)
    decreases es
  {
    if es == [] {
      assert es + [e] == [e];
    } else {
      assert (es + [e])[1..] == es[1..] + [e];
      RunAppend(MirrorProtocol.Next(s, es[0]), es[1..], e);
    }
  }

  lemma StepPrefix(trace: seq<Step>, i: nat)
    requires i < |trace|
    ensures LoggedIn(trace[..i + 1]) == LoggedIn(trace[..i]) + if trace[i].LogDeltas? then trace[i].deltas else []
    ensures forall b, now :: RowsAfter(b, trace[..i + 1], now) == RowStep(RowsAfter(b, trace[..i], now), trace[i], now)
  {
    assert trace[..i + 1][..i] == trace[..i];
  }

  /** After `n` steps the device is where the pass stands: same clock, the logged paths known,
      the rows changed as the trace says. */
  ghost predicate Stands(s: MirrorProtocol.State, t: MirrorProtocol.State, d: Device, trace: seq<Step>, n: nat,
                         now: int)
    requires MirrorProtocol.InPass(s, d) && n <= |trace|
  {
    && MirrorProtocol.InPass(t, d)
    && t.devices[d].baseline == RowsAfter(s.devices[d].baseline, trace[..n], now)
    && MirrorProtocol.PassOf(t, d).lamport == MirrorProtocol.PassOf(s, d).lamport
    && MirrorProtocol.PassOf(t, d).known == MirrorProtocol.PassOf(s, d).known + PathsOf(Elems(LoggedIn(trace[..n])))
  }

  lemma InConcat(a: seq<DeltaEntry>, b: seq<DeltaEntry>, all: seq<DeltaEntry>, x: DeltaEntry)
    requires a + b <= all && x in b
    ensures x in all
  {
    var i :| 0 <= i < |b| && b[i] == x;
    assert all[|a| + i] == (a + b)[|a| + i] == x;
  }

  lemma StepRuns(s: MirrorProtocol.State, t: MirrorProtocol.State, d: Device, trace: seq<Step>, n: nat, now: int,
                 e: MirrorProtocol.Event)
    requires MirrorProtocol.InPass(s, d) && n < |trace| && Stands(s, t, d, trace, n, now)
    requires Orderly(d, MirrorProtocol.PassOf(s, d).lamport, MirrorProtocol.PassOf(s, d).known, trace)
    requires StepEvents(d, trace[n], now) == [e]
    ensures MirrorProtocol.Enabled(t, e) && Stands(s, MirrorProtocol.Next(t, e), d, trace, n + 1, now)
  {
    StepPrefix(trace, n);
    RowsGrow(trace, n + 1);
    if trace[n].LogDeltas? {
      forall x | x in trace[n].deltas ensures x in LoggedIn(trace) {
        InConcat(LoggedIn(trace[..n]), trace[n].deltas, LoggedIn(trace), x);
      }
      ConcatPaths(LoggedIn(trace[..n]), trace[n].deltas);
    } else {
      assert LoggedIn(trace[..n]) + [] == LoggedIn(trace[..n]);
    }
  }

  /** Every crash point of `apply` is reached by a run of the protocol, so all its invariants
      hold there. */
  lemma {:induction false} ApplyIsARun(s: MirrorProtocol.State, d: Device, trace: seq<Step>, n: nat, now: int)
    requires MirrorProtocol.InPass(s, d) && n <= |trace|
    requires Orderly(d, MirrorProtocol.PassOf(s, d).lamport, MirrorProtocol.PassOf(s, d).known, trace)
    ensures MirrorProtocol.ValidRun(s, Events(d, trace[..n], now))
    ensures Stands(s, MirrorProtocol.After(s, Events(d, trace[..n], now)), d, trace, n, now)
    decreases n
  {
    if n == 0 {
      assert trace[..0] == [];
      assert Elems([]) == {};
    } else {
      ApplyIsARun(s, d, trace, n - 1, now);
      var before := Events(d, trace[..n - 1], now);
      assert trace[..n][..n - 1] == trace[..n - 1];
      assert Events(d, trace[..n], now) == before + StepEvents(d, trace[n - 1], now);
      OneStepRuns(s, d, trace, n - 1, now, before);
    }
  }

  /** A run up to step `n` goes on through it. */
  lemma OneStepRuns(s: MirrorProtocol.State, d: Device, trace: seq<Step>, n: nat, now: int,
                    before: seq<MirrorProtocol.Event>)
    requires MirrorProtocol.InPass(s, d) && n < |trace|
    requires Orderly(d, MirrorProtocol.PassOf(s, d).lamport, MirrorProtocol.PassOf(s, d).known, trace)
    requires MirrorProtocol.ValidRun(s, before) && Stands(s, MirrorProtocol.After(s, before), d, trace, n, now)
    ensures var all := before + StepEvents(d, trace[n], now);
            MirrorProtocol.ValidRun(s, all) && Stands(s, MirrorProtocol.After(s, all), d, trace, n + 1, now)
  {
    var step := StepEvents(d, trace[n], now);
    if step == [] {
      assert before + step == before;
      StepPrefix(trace, n);
      assert LoggedIn(trace[..n]) + [] == LoggedIn(trace[..n]);
    } else {
      StepRuns(s, MirrorProtocol.After(s, before), d, trace, n, now, step[0]);
      assert before + step == before + [step[0]];
      RunAppend(s, before, step[0]);
    }
  }

  /** The trace of `apply` is orderly: the log is written first, the rows second. */
  lemma ApplyIsOrderly(c: Context, m: Entries, joined: seq<Joined>)
    requires AllAnswer(c, m, joined)
    ensures Orderly(c.device, c.lamport, m.Keys, TraceOf(ApplySafety.Ended(c, m, joined)))
  {
    var p := ApplySafety.Ended(c, m, joined);
    var t := TraceOf(p);
    JoinsKeep(c, m, joined);
    ActionsKeep(c, m, AfterJoins(c, m, joined), c.plan.actions);
    TraceAhead(p);
    forall i | 0 <= i < |t| && t[i].SetRow? && Advances(t[i].op)
      ensures OpPath(t[i].op) in m.Keys + PathsOf(Elems(LoggedIn(t[..i])))
    {
      RowsAreBacked(c, m, joined, i);
    }
    ObjectsNotEmpty(p.effects);
  }

  lemma {:induction false} ObjectsNotEmpty(effects: seq<Effect>)
    requires QuietEffects(effects)
    ensures forall x :: x in Batches(effects).trace && x.LogDeltas? ==> x.deltas != []
    ensures forall x :: x in Flushed(Batches(effects)).trace && x.LogDeltas? ==> x.deltas != []
  {
    if effects != [] {
      var init, e := effects[..|effects| - 1], effects[|effects| - 1];
      ObjectsNotEmpty(init);
      var b := Taken(Batches(init), e);
      assert forall x :: x in b.trace && x.LogDeltas? ==> x.deltas != [];
      assert forall x :: x in Flushed(b).trace && x.LogDeltas? ==> x.deltas != [];
    }
  }
}
