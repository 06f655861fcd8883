/** What one call of `apply` writes, field by field. */
module LogContents {
  // `ApplySafety` says when a call's entries and rows become durable; this module says what is
  // in them: the object that was stored, the content it has, what it replaces. `Announces`,
  // `Buries` and `StandsIn` compare the fields one by one with the transfer or with the
  // manifest entry they stand for.

  import opened Options
  import opened Manifest
  import opened Records
  import opened Engine
  import opened Commits
  import opened Apply
  import opened ApplySafety

  /** The entry makes the stored object the path's version, in place of `base`. */
  predicate Announces(c: Context, d: DeltaEntry, path: Path, r: Uploaded, base: Option<Hash>)
  {
    && d.path == path && d.objectKey == r.objectKey && d.hash == r.hash && d.size == r.size
    && !d.deleted && d.deletedAt == 0 && d.baseHash == base
    && d.mtime == c.time && d.lamport == c.lamport && d.device == c.device
  }

  /** The entry deletes the path, whose version was `e`; the object it names is still that one's. */
  predicate Buries(c: Context, d: DeltaEntry, e: DeltaEntry, path: Path)
  {
    && d.path == path && d.objectKey == e.objectKey && d.hash == e.hash && d.size == e.size && d.mtime == e.mtime
    && d.deleted && d.deletedAt == c.time && d.baseHash == Some(e.hash)
    && d.lamport == c.lamport && d.device == c.device
  }

  /** The placeholder stands for version `e` of the path, with the time it has in seconds in
      nanoseconds, if that fits 64 bits. */
  predicate StandsIn(meta: StubMeta, e: DeltaEntry, path: Path)
  {
    && meta.path == path && meta.size == e.size && meta.hash == e.hash && meta.objectKey == e.objectKey
    && meta.mtime == if 0 < e.mtime && e.mtime * 1_000_000_000 < 0x8000_0000_0000_0000
                     then Some(e.mtime * 1_000_000_000) else None
  }

  predicate Sends(j: Joined)
  {
    j.transfer.Sent? || j.transfer.Relocated?
  }

  /** The content the pass has for a path after some transfers: the last it sent, or else what
      it read. */
  function KnownHash(m: Entries, joined: seq<Joined>, path: Path): Option<Hash>
  {
    if joined == [] then (if path in m then Some(m[path].hash) else None)
    else
      var j := joined[|joined| - 1];
      if Sends(j) && j.action.path == path then Some(j.transfer.result.hash)
      else KnownHash(m, joined[..|joined| - 1], path)
  }

  /** Transfer `i` is announced by the entry. */
  predicate AnnouncesAt(c: Context, m: Entries, joined: seq<Joined>, i: nat, d: DeltaEntry)
    requires i < |joined|
  {
    var j := joined[i];
    Sends(j) && Announces(c, d, j.action.path, j.transfer.result, KnownHash(m, joined[..i], j.action.path))
  }

  // ----- The first phase -----

  /** The manifest the pass works on: what was sent last, or what was read. */
  lemma {:induction false} ManifestAfterJoins(c: Context, m: Entries, joined: seq<Joined>, path: Path)
    ensures var p := AfterJoins(c, m, joined);
            && KnownHash(m, joined, path) == (if path in p.manifest then Some(p.manifest[path].hash) else None)
            && (!SentTo(joined, path) ==>
                 (path in p.manifest <==> path in m) && (path in m ==> p.manifest[path] == m[path]))
  {
    if joined != [] {
      var init, j := joined[..|joined| - 1], joined[|joined| - 1];
      ManifestAfterJoins(c, m, init, path);
      assert joined == init + [j];
      OneMoreJoined(init, j, Remove(path), path);
    }
  }

  /** What a transfer appends to the log. */
  lemma JoinAnnounces(c: Context, m: Entries, joined: seq<Joined>)
    requires joined != []
    ensures var init, j := joined[..|joined| - 1], joined[|joined| - 1];
            var before := DeltasOf(AfterJoins(c, m, init).effects);
            var after := DeltasOf(AfterJoins(c, m, joined).effects);
            if Sends(j) then |after| == |before| + 1 && after[..|before|] == before
                             && AnnouncesAt(c, m, joined, |joined| - 1, after[|before|])
            else after == before
  {
    var init, j := joined[..|joined| - 1], joined[|joined| - 1];
    var p := AfterJoins(c, m, init);
    ManifestAfterJoins(c, m, init, j.action.path);
    JoinEffect(c, p, j);
    if Transferred(j) {
      PushEffect(p.effects, Effect([], JoinDeltas(c, p.manifest, j), JoinOps(j)));
    }
  }

  /** Transfer `i` has an entry among `ds`. */
  ghost predicate AnnouncedIn(c: Context, m: Entries, joined: seq<Joined>, i: nat, ds: seq<DeltaEntry>)
    requires i < |joined|
  {
    exists d :: d in ds && AnnouncesAt(c, m, joined, i, d)
  }

  /** The entry is some transfer's. */
  ghost predicate IsSent(c: Context, m: Entries, joined: seq<Joined>, d: DeltaEntry)
  {
    exists i :: 0 <= i < |joined| && AnnouncesAt(c, m, joined, i, d)
  }

  lemma PrefixAnnounces(c: Context, m: Entries, joined: seq<Joined>, n: nat, i: nat, d: DeltaEntry)
    requires i < n <= |joined|
    ensures AnnouncesAt(c, m, joined[..n], i, d) <==> AnnouncesAt(c, m, joined, i, d)
  {
    assert joined[..n][..i] == joined[..i];
  }

  lemma {:induction false} StillAnnounced(c: Context, m: Entries, joined: seq<Joined>, n: nat, i: nat,
                                          before: seq<DeltaEntry>, after: seq<DeltaEntry>)
    requires i < n <= |joined| && AnnouncedIn(c, m, joined[..n], i, before) && before <= after
    ensures AnnouncedIn(c, m, joined, i, after)
  {
    var d :| d in before && AnnouncesAt(c, m, joined[..n], i, d);
    PrefixAnnounces(c, m, joined, n, i, d);
    assert d in after;
  }

  lemma {:induction false} StillSent(c: Context, m: Entries, joined: seq<Joined>, n: nat, d: DeltaEntry)
    requires n <= |joined| && IsSent(c, m, joined[..n], d)
    ensures IsSent(c, m, joined, d)
  {
    var i :| 0 <= i < n && AnnouncesAt(c, m, joined[..n], i, d);
    PrefixAnnounces(c, m, joined, n, i, d);
  }

  /** The first phase logs one entry for each transfer that sent something, and nothing else. */
  lemma {:induction false} JoinsAnnounce(c: Context, m: Entries, joined: seq<Joined>)
    ensures var ds := DeltasOf(AfterJoins(c, m, joined).effects);
            && (forall i :: 0 <= i < |joined| && Sends(joined[i]) ==> AnnouncedIn(c, m, joined, i, ds))
            && (forall d :: d in ds ==> IsSent(c, m, joined, d))
  {
    if joined != [] {
      var n := |joined| - 1;
      var before := DeltasOf(AfterJoins(c, m, joined[..n]).effects);
      var after := DeltasOf(AfterJoins(c, m, joined).effects);
      JoinsAnnounce(c, m, joined[..n]);
      JoinAnnounces(c, m, joined);
      LastAnnounced(c, m, joined, before, after);
    }
  }

  lemma {:induction false} LastAnnounced(c: Context, m: Entries, joined: seq<Joined>, before: seq<DeltaEntry>,
                                         after: seq<DeltaEntry>)
    requires joined != []
    requires forall i :: 0 <= i < |joined| - 1 && Sends(joined[i]) ==>
               AnnouncedIn(c, m, joined[..|joined| - 1], i, before)
    requires forall d :: d in before ==> IsSent(c, m, joined[..|joined| - 1], d)
    requires if Sends(joined[|joined| - 1]) then |after| == |before| + 1 && after[..|before|] == before
                             && AnnouncesAt(c, m, joined, |joined| - 1, after[|before|])
             else after == before
    ensures forall i :: 0 <= i < |joined| && Sends(joined[i]) ==> AnnouncedIn(c, m, joined, i, after)
    ensures forall d :: d in after ==> IsSent(c, m, joined, d)
  {
    var n := |joined| - 1;
    forall i | 0 <= i < |joined| && Sends(joined[i]) ensures AnnouncedIn(c, m, joined, i, after) {
      if i < n {
        StillAnnounced(c, m, joined, n, i, before, after);
      } else {
        assert after[|before|] in after;
      }
    }
    forall d | d in after ensures IsSent(c, m, joined, d) {
      if d in before {
        StillSent(c, m, joined, n, d);
      } else {
        assert d == after[|before|];
      }
    }
  }

  // ----- The second phase -----

  /** What the actions add to log and rows stands for what the manifest had before them. */
  ghost predicate SpeaksFor(c: Context, p: Progress, e: Effect, actions: seq<Action>)
  {
    && (forall d :: d in e.deltas ==>
          && Action(d.path, DeleteRemote) in actions && d.path !in p.pinned
          && d.path in p.manifest && Buries(c, d, p.manifest[d.path], d.path))
    && (forall op :: op in e.ops && op.PutPlaceholder? ==>
          && op.meta.path in p.manifest && op.meta.path !in p.pinned
          && StandsIn(op.meta, p.manifest[op.meta.path], op.meta.path))
  }

  /** The manifest only shrinks, and by what was buried. */
  ghost predicate Shrinks(c: Context, p: Progress, q: Progress)
  {
    && q.pinned == p.pinned
    && (forall x :: x in q.manifest ==> x in p.manifest && q.manifest[x] == p.manifest[x])
    && (forall x :: x in p.manifest && x !in q.manifest ==> Buried(c, p, q, x))
  }

  ghost predicate Buried(c: Context, p: Progress, q: Progress, x: Path)
    requires x in p.manifest
  {
    exists d :: d in DeltasOf(q.effects) && Buries(c, d, p.manifest[x], x)
  }

  ghost predicate Placed(p: Progress, q: Progress, x: Path)
  {
    x in p.manifest && exists op :: op in OpsOf(q.effects) && op.PutPlaceholder?
                                    && StandsIn(op.meta, p.manifest[x], x)
  }

  /** Every deletion and every placeholder planned is there, unless its path is pinned. */
  ghost predicate Done(c: Context, p: Progress, q: Progress, actions: seq<Action>)
  {
    && (forall x :: Action(x, DeleteRemote) in actions && x !in p.pinned && x in p.manifest ==> Buried(c, p, q, x))
    && (forall x :: Stubs(actions, x) && x !in p.pinned ==> Placed(p, q, x))
  }

  predicate Stubs(actions: seq<Action>, x: Path)
  {
    Action(x, CreatePlaceholder) in actions || Action(x, UpdatePlaceholder) in actions
  }

  /** One action, on a manifest that has shrunk so far. */
  lemma {:induction false} ActSpeaks(c: Context, p: Progress, mid: Progress, a: Action, actions: seq<Action>)
    requires Shrinks(c, p, mid) && a in actions && !mid.stopped
    ensures var q := ActOne(c, mid, a);
            q.effects == mid.effects
            || (exists e :: q.effects == mid.effects + [e] && SpeaksFor(c, p, e, actions))
    ensures var q := ActOne(c, mid, a);
            && q.pinned == p.pinned
            && forall x :: x in q.manifest ==> x in mid.manifest && q.manifest[x] == mid.manifest[x]
  {
    assert a == Action(a.path, a.kind);
    var q := ActOne(c, mid, a);
    if q.effects != mid.effects {
      var e := q.effects[|mid.effects|];
      assert q.effects == mid.effects + [e];
      EffectSpeaks(c, p, mid, a, actions);
      assert SpeaksFor(c, p, e, actions);
    }
  }

  lemma {:induction false} EffectSpeaks(c: Context, p: Progress, mid: Progress, a: Action, actions: seq<Action>)
    requires Shrinks(c, p, mid) && Action(a.path, a.kind) in actions && !mid.stopped
    requires |ActOne(c, mid, a).effects| == |mid.effects| + 1
    ensures SpeaksFor(c, p, ActOne(c, mid, a).effects[|mid.effects|], actions)
  {
    match a.kind
    case DeleteRemote =>
    case CreatePlaceholder =>
    case UpdatePlaceholder =>
    case _ =>
  }

  /** What the action itself was planned for is then done. */
  lemma {:induction false} ActDoes(c: Context, p: Progress, mid: Progress, a: Action)
    requires Shrinks(c, p, mid) && !ActOne(c, mid, a).stopped && a.path !in p.pinned
    ensures var q := ActOne(c, mid, a);
            && (a.kind == DeleteRemote && a.path in p.manifest ==> Buried(c, p, q, a.path))
            && (a.kind == CreatePlaceholder || a.kind == UpdatePlaceholder ==> Placed(p, q, a.path))
  {
    if a.kind == DeleteRemote && a.path in p.manifest {
      BuryDoes(c, p, mid, a.path);
    }
    if a.kind == CreatePlaceholder || a.kind == UpdatePlaceholder {
      StubDoes(c, p, mid, a.path);
    }
  }

  lemma {:induction false} BuryDoes(c: Context, p: Progress, mid: Progress, x: Path)
    requires Shrinks(c, p, mid) && x !in p.pinned && x in p.manifest
    ensures Buried(c, p, Apply.Buried(c, mid, x), x)
  {
    var q := Apply.Buried(c, mid, x);
    if x in mid.manifest {
      var d := Tombstone(c, mid.manifest[x], x);
      PushEffect(mid.effects, Effect([], [d], [Remove(x)]));
      assert d in DeltasOf(q.effects);
    } else {
      StaysBuried(c, p, mid, q, x);
    }
  }

  lemma {:induction false} StubDoes(c: Context, p: Progress, mid: Progress, x: Path)
    requires Shrinks(c, p, mid) && x !in p.pinned && x in mid.manifest
    ensures Placed(p, Stub(mid, x), x)
  {
    var op := PutPlaceholder(StubFor(mid.manifest[x], x));
    PushEffect(mid.effects, Effect([], [], [op]));
    assert op in OpsOf(Stub(mid, x).effects);
  }

  lemma StaysBuried(c: Context, p: Progress, mid: Progress, q: Progress, x: Path)
    requires x in p.manifest && Buried(c, p, mid, x) && mid.effects <= q.effects
    ensures Buried(c, p, q, x)
  {
    assert q.effects[..|mid.effects|] == mid.effects;
    DeltasPrefix(q.effects, |mid.effects|);
    var d :| d in DeltasOf(mid.effects) && Buries(c, d, p.manifest[x], x);
    assert d in DeltasOf(q.effects);
  }

  lemma StaysPlaced(p: Progress, mid: Progress, q: Progress, x: Path)
    requires Placed(p, mid, x) && mid.effects <= q.effects
    ensures Placed(p, q, x)
  {
    assert q.effects[..|mid.effects|] == mid.effects;
    DeltasPrefix(q.effects, |mid.effects|);
    var op :| op in OpsOf(mid.effects) && op.PutPlaceholder? && StandsIn(op.meta, p.manifest[x], x);
    assert op in OpsOf(q.effects);
  }

  ghost predicate Speaks(c: Context, p: Progress, q: Progress, actions: seq<Action>)
  {
    && Shrinks(c, p, q) && p.effects <= q.effects
    && (forall k :: |p.effects| <= k < |q.effects| ==> SpeaksFor(c, p, q.effects[k], actions))
    && (!q.stopped ==> Done(c, p, q, actions))
  }

  lemma SpeaksMore(c: Context, p: Progress, e: Effect, some: seq<Action>, all: seq<Action>)
    requires SpeaksFor(c, p, e, some) && forall a :: a in some ==> a in all
    ensures SpeaksFor(c, p, e, all)
  {
  }

  lemma {:induction false} EffectsSpeak(c: Context, p: Progress, mid: Progress, q: Progress, init: seq<Action>,
                                        actions: seq<Action>)
    requires Speaks(c, p, mid, init) && forall a :: a in init ==> a in actions
    requires q.effects == mid.effects
             || (exists e :: q.effects == mid.effects + [e] && SpeaksFor(c, p, e, actions))
    ensures p.effects <= mid.effects <= q.effects
    ensures forall k :: |p.effects| <= k < |q.effects| ==> SpeaksFor(c, p, q.effects[k], actions)
  {
    forall k | |p.effects| <= k < |q.effects| ensures SpeaksFor(c, p, q.effects[k], actions) {
      if k < |mid.effects| {
        SpeaksMore(c, p, mid.effects[k], init, actions);
      }
    }
  }

  lemma {:induction false} ShrinksOn(c: Context, p: Progress, mid: Progress, q: Progress, a: Action)
    requires Shrinks(c, p, mid) && q == ActOne(c, mid, a) && !mid.stopped && mid.effects <= q.effects
    requires a.path !in p.pinned && !q.stopped ==>
               (a.kind == DeleteRemote && a.path in p.manifest ==> Buried(c, p, q, a.path))
    ensures Shrinks(c, p, q)
  {
    forall x | x in p.manifest && x !in q.manifest ensures Buried(c, p, q, x) {
      if x !in mid.manifest { StaysBuried(c, p, mid, q, x); }
    }
  }

  lemma {:induction false} DoneOn(c: Context, p: Progress, mid: Progress, q: Progress, init: seq<Action>, a: Action)
    requires Done(c, p, mid, init) && mid.effects <= q.effects
    requires a.path !in p.pinned ==>
               && (a.kind == DeleteRemote && a.path in p.manifest ==> Buried(c, p, q, a.path))
               && (a.kind == CreatePlaceholder || a.kind == UpdatePlaceholder ==> Placed(p, q, a.path))
    ensures Done(c, p, q, init + [a])
  {
    var actions := init + [a];
    assert forall x :: x in actions <==> x in init || x == a;
    forall x | Action(x, DeleteRemote) in actions && x !in p.pinned && x in p.manifest ensures Buried(c, p, q, x) {
      if Action(x, DeleteRemote) in init { StaysBuried(c, p, mid, q, x); }
    }
    forall x | Stubs(actions, x) && x !in p.pinned ensures Placed(p, q, x) {
      if Stubs(init, x) { StaysPlaced(p, mid, q, x); }
    }
  }

  lemma {:induction false} ActionsSpeak(c: Context, p: Progress, actions: seq<Action>)
    requires !p.stopped
    ensures Speaks(c, p, AfterActions(c, p, actions), actions)
  {
    if actions != [] {
      var init, a := actions[..|actions| - 1], actions[|actions| - 1];
      var mid, q := AfterActions(c, p, init), AfterActions(c, p, actions);
      assert actions == init + [a];
      ActionsSpeak(c, p, init);
      if mid.stopped {
        StoppedSpeaks(c, p, mid, init, actions);
      } else {
        ActSpeaks(c, p, mid, a, actions);
        EffectsSpeak(c, p, mid, q, init, actions);
        if !q.stopped && a.path !in p.pinned { ActDoes(c, p, mid, a); }
        ShrinksOn(c, p, mid, q, a);
        if !q.stopped { DoneOn(c, p, mid, q, init, a); }
      }
    }
  }

  lemma {:induction false} StoppedSpeaks(c: Context, p: Progress, q: Progress, init: seq<Action>, actions: seq<Action>)
    requires Speaks(c, p, q, init) && q.stopped && forall a :: a in init ==> a in actions
    ensures Speaks(c, p, q, actions)
  {
    EffectsSpeak(c, p, q, q, init, actions);
  }

  // ----- The whole call -----

  lemma {:induction false} QuietJoins(c: Context, m: Entries, joined: seq<Joined>)
    ensures QuietEffects(AfterJoins(c, m, joined).effects) && !AfterJoins(c, m, joined).stopped
  {
    if joined != [] { QuietJoins(c, m, joined[..|joined| - 1]); }
  }

  lemma {:induction false} QuietActions(c: Context, p: Progress, actions: seq<Action>)
    requires QuietEffects(p.effects)
    ensures QuietEffects(AfterActions(c, p, actions).effects)
  {
    if actions != [] { QuietActions(c, p, actions[..|actions| - 1]); }
  }

  lemma EndedSpeaks(c: Context, m: Entries, joined: seq<Joined>)
    ensures Speaks(c, AfterJoins(c, m, joined), Ended(c, m, joined), c.plan.actions)
    ensures QuietEffects(Ended(c, m, joined).effects)
  {
    QuietJoins(c, m, joined);
    ActionsSpeak(c, AfterJoins(c, m, joined), c.plan.actions);
    QuietActions(c, AfterJoins(c, m, joined), c.plan.actions);
  }

  lemma MoreAnnounced(c: Context, m: Entries, joined: seq<Joined>, i: nat, some: seq<DeltaEntry>,
                      more: seq<DeltaEntry>)
    requires i < |joined| && AnnouncedIn(c, m, joined, i, some) && some <= more
    ensures AnnouncedIn(c, m, joined, i, more)
  {
    var d :| d in some && AnnouncesAt(c, m, joined, i, d);
    assert d in more;
  }

  /** Every version a call sent is in the log, under the key of the object that was stored, with
      the content that was sent and the one it replaces. */
  lemma {:induction false} SentIsLogged(c: Context, m: Entries, joined: seq<Joined>, i: nat)
    requires !Ended(c, m, joined).stopped && i < |joined| && Sends(joined[i])
    ensures AnnouncedIn(c, m, joined, i, LoggedIn(TraceOf(Ended(c, m, joined))))
  {
    var p, q := AfterJoins(c, m, joined), Ended(c, m, joined);
    EndedSpeaks(c, m, joined);
    TraceAhead(q);
    JoinsAnnounce(c, m, joined);
    assert q.effects[..|p.effects|] == p.effects;
    DeltasPrefix(q.effects, |p.effects|);
    MoreAnnounced(c, m, joined, i, DeltasOf(p.effects), DeltasOf(q.effects));
  }

  /** The entry deletes a path the plan says to delete, and stands for what the pass had there. */
  ghost predicate Deletes(c: Context, m: Entries, joined: seq<Joined>, d: DeltaEntry)
  {
    var p := AfterJoins(c, m, joined);
    && Action(d.path, DeleteRemote) in c.plan.actions && d.path !in p.pinned
    && d.path in p.manifest && Buries(c, d, p.manifest[d.path], d.path)
  }

  /** At every crash point, nothing is in the log that was not sent or deleted. */
  lemma {:induction false} LoggedIsSent(c: Context, m: Entries, joined: seq<Joined>, n: nat, d: DeltaEntry)
    requires n <= |TraceOf(Ended(c, m, joined))| && d in LoggedIn(TraceOf(Ended(c, m, joined))[..n])
    ensures IsSent(c, m, joined, d) || Deletes(c, m, joined, d)
  {
    var q := Ended(c, m, joined);
    EndedSpeaks(c, m, joined);
    TraceAhead(q);
    RowsGrow(TraceOf(q), n);
    assert d in DeltasOf(q.effects);
    if d in DeltasOf(AfterJoins(c, m, joined).effects) {
      JoinsAnnounce(c, m, joined);
    } else {
      LaterDeletes(c, m, joined, d);
    }
  }

  lemma {:induction false} LaterDeletes(c: Context, m: Entries, joined: seq<Joined>, d: DeltaEntry)
    requires d in DeltasOf(Ended(c, m, joined).effects) && d !in DeltasOf(AfterJoins(c, m, joined).effects)
    ensures Deletes(c, m, joined, d)
  {
    var p, q := AfterJoins(c, m, joined), Ended(c, m, joined);
    EndedSpeaks(c, m, joined);
    assert q.effects[..|p.effects|] == p.effects;
    TailDeltas(q.effects, |p.effects|);
    var k :| |p.effects| <= k < |q.effects| && d in q.effects[k].deltas;
    assert SpeaksFor(c, p, q.effects[k], c.plan.actions);
  }

  /** Every deletion planned is in the log with what the manifest had, unless its path is pinned
      or was unknown. */
  lemma {:induction false} DeletionIsLogged(c: Context, m: Entries, joined: seq<Joined>, x: Path)
    requires !Ended(c, m, joined).stopped && Action(x, DeleteRemote) in c.plan.actions
    requires var p := AfterJoins(c, m, joined); x !in p.pinned && x in p.manifest
    ensures exists d :: d in LoggedIn(TraceOf(Ended(c, m, joined)))
                        && Buries(c, d, AfterJoins(c, m, joined).manifest[x], x)
  {
    EndedSpeaks(c, m, joined);
    TraceAhead(Ended(c, m, joined));
    assert Buried(c, AfterJoins(c, m, joined), Ended(c, m, joined), x);
  }

  /** Every placeholder planned is put with what the manifest had, unless its path is pinned. */
  lemma {:induction false} PlaceholderIsPut(c: Context, m: Entries, joined: seq<Joined>, x: Path)
    requires !Ended(c, m, joined).stopped && Stubs(c.plan.actions, x)
    requires x !in AfterJoins(c, m, joined).pinned
    ensures x in AfterJoins(c, m, joined).manifest
    ensures exists op :: op in RowsIn(TraceOf(Ended(c, m, joined))) && op.PutPlaceholder?
                         && StandsIn(op.meta, AfterJoins(c, m, joined).manifest[x], x)
  {
    EndedSpeaks(c, m, joined);
    TraceAhead(Ended(c, m, joined));
    assert Placed(AfterJoins(c, m, joined), Ended(c, m, joined), x);
  }

  /** The row changes one transfer makes, field by field. */
  predicate Recorded(j: Joined, op: BaselineOp)
  {
    var path := j.action.path;
    match j.transfer
    case Sent(r) => op.Confirm? && op.path == path && op.size == r.size && op.mtime == r.mtime && op.hash == r.hash
    case Relocated(r) =>
      && op.PutPlaceholder? && op.meta.path == path && op.meta.size == r.size && op.meta.hash == r.hash
      && op.meta.objectKey == r.objectKey && op.meta.mtime == Some(r.mtime)
    case Fetched(size, mtime, hash) =>
      || (op.Confirm? && op.path == path && op.size == size && op.mtime == mtime && op.hash == hash)
      || (op.MarkHydrated? && op.path == path && j.action.kind == Hydrate)
    case _ => false
  }

  lemma JoinOpsRecord(j: Joined)
    requires Transferred(j)
    ensures JoinOps(j) != [] && !JoinOps(j)[0].MarkHydrated? && forall op :: op in JoinOps(j) ==> Recorded(j, op)
    ensures j.transfer.Fetched? && j.action.kind == Hydrate ==> MarkHydrated(j.action.path) in JoinOps(j)
  {
    assert j.transfer.Fetched? && j.action.kind == Hydrate ==> JoinOps(j)[1] == MarkHydrated(j.action.path);
  }

  lemma {:induction false} JoinOpIsMade(c: Context, m: Entries, joined: seq<Joined>, j: Joined, op: BaselineOp)
    requires !Ended(c, m, joined).stopped && j in joined && op in JoinOps(j)
    ensures op in RowsIn(TraceOf(Ended(c, m, joined)))
  {
    var p, q := AfterJoins(c, m, joined), Ended(c, m, joined);
    EndedSpeaks(c, m, joined);
    TraceAhead(q);
    JoinedOps(c, m, joined, j.action.path);
    assert OpJoined(joined, op);
    assert q.effects[..|p.effects|] == p.effects;
    DeltasPrefix(q.effects, |p.effects|);
  }

  /** Every successful transfer's row change is made. */
  lemma {:induction false} TransferIsRecorded(c: Context, m: Entries, joined: seq<Joined>, j: Joined)
    requires !Ended(c, m, joined).stopped && j in joined && Transferred(j)
    ensures exists op :: op in RowsIn(TraceOf(Ended(c, m, joined))) && !op.MarkHydrated? && Recorded(j, op)
    ensures j.transfer.Fetched? && j.action.kind == Hydrate ==>
              MarkHydrated(j.action.path) in RowsIn(TraceOf(Ended(c, m, joined)))
  {
    JoinOpsRecord(j);
    assert JoinOps(j)[0] in JoinOps(j);
    JoinOpIsMade(c, m, joined, j, JoinOps(j)[0]);
    if j.transfer.Fetched? && j.action.kind == Hydrate {
      JoinOpIsMade(c, m, joined, j, MarkHydrated(j.action.path));
    }
  }
}
