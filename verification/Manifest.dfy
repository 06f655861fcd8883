/**
 The remote manifest: an append-only log of delta entries folded over a snapshot. For each
 path the entry with the greatest key wins. The key covers every field, so the winner does
 not depend on the order, the repetition or the split of what was read.
 */
module Manifest {
  import opened Ordering
  import opened Options

  type Path = Text
  // 256-bit hashes as numbers, most significant byte first
  type Hash = nat
  type Device = Text

  datatype DeltaEntry = DeltaEntry(
    path: Path,
    objectKey: Text,
    hash: Hash,
    size: nat,
    mtime: nat,
    deleted: bool,
    deletedAt: nat,
    lamport: nat,
    device: Device,
    baseHash: Option<Hash>)

  type Entries = map<Path, DeltaEntry>

  datatype Conflict = Conflict(winner: DeltaEntry, loser: DeltaEntry)

  /** `None` sorts before any hash. */
  predicate OptionBelow(a: Option<Hash>, b: Option<Hash>)
  {
    b.Some? && (a.None? || a.value < b.value)
  }

  /** `winner_key(a) > winner_key(b)`: the tuples compared field by field. */
  predicate Beats(a: DeltaEntry, b: DeltaEntry)
  {
    if a.lamport != b.lamport then a.lamport > b.lamport
    else if a.device != b.device then Below(b.device, a.device)
    else if a.hash != b.hash then a.hash > b.hash
    else if a.baseHash != b.baseHash then OptionBelow(b.baseHash, a.baseHash)
    else if a.deleted != b.deleted then a.deleted
    else if a.deletedAt != b.deletedAt then a.deletedAt > b.deletedAt
    else if a.size != b.size then a.size > b.size
    else if a.mtime != b.mtime then a.mtime > b.mtime
    else Below(b.objectKey, a.objectKey)
  }

  /** The key covers every field but the path, so a tie is the same entry twice. */
  lemma BeatsTotal(a: DeltaEntry, b: DeltaEntry)
    ensures !(Beats(a, b) && Beats(b, a)) && !Beats(a, a)
    ensures !Beats(a, b) && !Beats(b, a) && a.path == b.path ==> a == b
  {
    BelowTotal(a.device, b.device);
    BelowTotal(a.objectKey, b.objectKey);
  }

  lemma BeatsTrans(a: DeltaEntry, b: DeltaEntry, c: DeltaEntry)
    requires Beats(a, b) && Beats(b, c)
    ensures Beats(a, c)
  {
    if Below(c.device, b.device) && Below(b.device, a.device) {
      BelowTrans(c.device, b.device, a.device);
    }
    if Below(c.objectKey, b.objectKey) && Below(b.objectKey, a.objectKey) {
      BelowTrans(c.objectKey, b.objectKey, a.objectKey);
    }
    BelowTotal(a.device, c.device);
    BelowTotal(b.device, c.device);
  }

  /** Entries for different paths may tie, so this is not the contrapositive of transitivity. */
  lemma NotBeatsTrans(a: DeltaEntry, b: DeltaEntry, c: DeltaEntry)
    requires a.path == b.path == c.path && !Beats(a, b) && !Beats(b, c)
    ensures !Beats(a, c)
  {
    BeatsTotal(a, b);
    BeatsTotal(b, c);
    BeatsTotal(a, c);
    if a != b && b != c {
      BeatsTrans(c, b, a);
    }
  }

  /** A later clock wins whatever else the entries say. */
  lemma LaterBeats(a: DeltaEntry, b: DeltaEntry)
    requires a.lamport > b.lamport
    ensures Beats(a, b) && !Beats(b, a)
  {
  }

  /** Compared field by field in this order, the first field in which the two differ is greater
      in `w`: clock, device, content, what it descends from, deleted last, then the rest. */
  predicate AtMost(d: DeltaEntry, w: DeltaEntry)
  {
    && d.lamport <= w.lamport
    && (d.lamport == w.lamport ==>
         && (d.device == w.device || Below(d.device, w.device))
         && (d.device == w.device ==>
              && d.hash <= w.hash
              && (d.hash == w.hash ==> BaseAtMost(d, w))))
  }

  predicate BaseAtMost(d: DeltaEntry, w: DeltaEntry)
  {
    && (d.baseHash.Some? ==> w.baseHash.Some? && d.baseHash.value <= w.baseHash.value)
    && (d.baseHash == w.baseHash ==>
         && (d.deleted ==> w.deleted)
         && (d.deleted == w.deleted ==>
              && d.deletedAt <= w.deletedAt
              && (d.deletedAt == w.deletedAt ==>
                   && d.size <= w.size
                   && (d.size == w.size ==>
                        && d.mtime <= w.mtime
                        && (d.mtime == w.mtime ==> d.objectKey == w.objectKey || Below(d.objectKey, w.objectKey))))))
  }

  lemma AtMostIff(d: DeltaEntry, w: DeltaEntry)
    ensures AtMost(d, w) <==> !Beats(d, w)
  {
    BelowTotal(d.device, w.device);
    BelowTotal(d.objectKey, w.objectKey);
  }

  /** The winner of a merge is the greatest of its path's entries, field by field. */
  lemma WinnerIsGreatest(m: Entries, all: set<DeltaEntry>)
    requires IsMerge(m, all)
    ensures forall d :: d in all ==> d.path in m && m[d.path] in all && AtMost(d, m[d.path])
  {
    forall d | d in all ensures AtMost(d, m[d.path]) {
      AtMostIff(d, m[d.path]);
    }
  }

  predicate WellKeyed(m: Entries)
  {
    forall p :: p in m ==> m[p].path == p
  }

  function Elems(deltas: seq<DeltaEntry>): set<DeltaEntry>
  {
    set d | d in deltas
  }

  /** `m` is what merging `all` must give: for each path named, its greatest entry. */
  ghost predicate IsMerge(m: Entries, all: set<DeltaEntry>)
  {
    && (forall p :: p in m ==> m[p] in all && m[p].path == p)
    && (forall d :: d in all ==> d.path in m && !Beats(d, m[d.path]))
  }

  ghost predicate IsMaxLamport(n: nat, all: set<DeltaEntry>)
  {
    && (forall d :: d in all ==> d.lamport <= n)
    && (all == {} ==> n == 0)
    && (all != {} ==> exists d :: d in all && d.lamport == n)
  }

  lemma MergeUnique(m: Entries, m': Entries, all: set<DeltaEntry>)
    requires IsMerge(m, all) && IsMerge(m', all)
    ensures m == m'
  {
    assert forall p :: p in m ==> p in m';
    assert forall p :: p in m' ==> p in m;
    forall p | p in m ensures m[p] == m'[p] {
      BeatsTotal(m[p], m'[p]);
    }
  }

  lemma MaxUnique(n: nat, n': nat, all: set<DeltaEntry>)
    requires IsMaxLamport(n, all) && IsMaxLamport(n', all)
    ensures n == n'
  {
  }

  ghost predicate Kept(some: set<DeltaEntry>, d: DeltaEntry)
  {
    exists w :: w in some && w.path == d.path && !Beats(d, w)
  }

  /** Every entry of `all` has one in `some` for its path that it does not beat. */
  ghost predicate Dominates(some: set<DeltaEntry>, all: set<DeltaEntry>)
  {
    some <= all && forall d {:trigger Kept(some, d)} :: d in all ==> Kept(some, d)
  }

  lemma KeptCovered(m: Entries, some: set<DeltaEntry>, d: DeltaEntry)
    requires IsMerge(m, some) && Kept(some, d)
    ensures d.path in m && !Beats(d, m[d.path])
  {
    var w :| w in some && w.path == d.path && !Beats(d, w);
    NotBeatsTrans(d, w, m[w.path]);
  }

  lemma WinnerKept(m: Entries, some: set<DeltaEntry>, all: set<DeltaEntry>, p: Path)
    requires Dominates(some, all) && IsMerge(m, all) && p in m
    ensures m[p] in some
  {
    assert Kept(some, m[p]);
    var w :| w in some && w.path == p && !Beats(m[p], w);
    BeatsTotal(m[p], w);
  }

  /** Dropping entries that something kept is not beaten by does not change the merge. */
  lemma DominatedMerge(m: Entries, some: set<DeltaEntry>, all: set<DeltaEntry>)
    requires Dominates(some, all)
    ensures IsMerge(m, some) <==> IsMerge(m, all)
  {
    if IsMerge(m, some) {
      forall d | d in all ensures d.path in m && !Beats(d, m[d.path]) {
        KeptCovered(m, some, d);
      }
    }
    if IsMerge(m, all) {
      forall p | p in m ensures m[p] in some {
        WinnerKept(m, some, all, p);
      }
    }
  }

  lemma KeptAsLate(some: set<DeltaEntry>, d: DeltaEntry) returns (w: DeltaEntry)
    requires Kept(some, d)
    ensures w in some && w.lamport >= d.lamport
  {
    w :| w in some && w.path == d.path && !Beats(d, w);
    if w.lamport < d.lamport {
      LaterBeats(d, w);
    }
  }

  lemma LatestKept(n: nat, some: set<DeltaEntry>, all: set<DeltaEntry>, d: DeltaEntry)
    requires some <= all && d in all && Kept(some, d)
    ensures IsMaxLamport(n, some) ==> d.lamport <= n
    ensures IsMaxLamport(n, all) && d.lamport == n ==> IsMaxLamport(n, some)
  {
    var w := KeptAsLate(some, d);
  }

  lemma DominatedMax(n: nat, some: set<DeltaEntry>, all: set<DeltaEntry>)
    requires Dominates(some, all) && IsMaxLamport(n, some)
    ensures IsMaxLamport(n, all)
  {
    forall d | d in all ensures d.lamport <= n {
      LatestKept(n, some, all, d);
    }
    if all != {} {
      var d :| d in all;
      assert Kept(some, d);
      var w :| w in some && w.lamport == n;
      assert w in all;
    }
  }

  predicate IsConflict(a: DeltaEntry, b: DeltaEntry)
  {
    a.hash != b.hash && a.baseHash != Some(b.hash) && b.baseHash != Some(a.hash)
  }

  ghost predicate GenuineConflict(c: Conflict, all: set<DeltaEntry>)
  {
    && c.winner in all && c.loser in all && c.winner.path == c.loser.path && AtMost(c.loser, c.winner)
    && c.winner.hash != c.loser.hash
    && c.winner.baseHash != Some(c.loser.hash) && c.loser.baseHash != Some(c.winner.hash)
  }

  /** The clock a snapshot carries. */
  method SnapshotLamport(snapshot: Entries) returns (lamport: nat)
    ensures IsMaxLamport(lamport, snapshot.Values)
  {
    lamport := 0;
    var rest := snapshot.Values;
    ghost var seen: set<DeltaEntry> := {};
    while rest != {}
      invariant seen + rest == snapshot.Values
      invariant IsMaxLamport(lamport, seen)
    {
      var d :| d in rest;
      MaxOne(lamport, seen, d);
      if d.lamport > lamport {
        lamport := d.lamport;
      }
      rest, seen := rest - {d}, seen + {d};
    }
    assert seen == snapshot.Values;
  }

  /** `merge_deltas`. */
  method MergeDeltas(snapshot: Entries, deltas: seq<DeltaEntry>)
    returns (m: Entries, conflicts: seq<Conflict>, lamport: nat)
    requires WellKeyed(snapshot)
    ensures IsMerge(m, snapshot.Values + Elems(deltas))
    ensures IsMaxLamport(lamport, snapshot.Values + Elems(deltas))
    ensures forall d :: d in snapshot.Values + Elems(deltas) ==> d.path in m && AtMost(d, m[d.path])
    ensures AllGenuine(conflicts, snapshot.Values + Elems(deltas))
  {
    SnapshotIsMerge(snapshot);
    lamport := SnapshotLamport(snapshot);
    m, conflicts, lamport := Fold(snapshot, lamport, deltas, snapshot.Values);
    WinnerIsGreatest(m, snapshot.Values + Elems(deltas));
  }

  method Fold(was: Entries, clock: nat, deltas: seq<DeltaEntry>, ghost base: set<DeltaEntry>)
    returns (m: Entries, conflicts: seq<Conflict>, lamport: nat)
    requires IsMerge(was, base) && IsMaxLamport(clock, base)
    ensures IsMerge(m, base + Elems(deltas)) && IsMaxLamport(lamport, base + Elems(deltas))
    ensures AllGenuine(conflicts, base + Elems(deltas))
  {
    m, conflicts, lamport := was, [], clock;
    ghost var seen := base;
    for i := 0 to |deltas|
      invariant seen == base + Elems(deltas[..i])
      invariant IsMerge(m, seen) && IsMaxLamport(lamport, seen) && AllGenuine(conflicts, seen)
    {
      ElemsTakeOne(base, deltas, i);
      m, conflicts, lamport := MergeStep(m, conflicts, lamport, deltas[i], seen);
      seen := seen + {deltas[i]};
    }
    assert deltas[..|deltas|] == deltas;
  }

  /** One turn of the fold. */
  method MergeStep(was: Entries, noted: seq<Conflict>, clock: nat, delta: DeltaEntry, ghost seen: set<DeltaEntry>)
    returns (m: Entries, conflicts: seq<Conflict>, lamport: nat)
    requires IsMerge(was, seen) && IsMaxLamport(clock, seen) && AllGenuine(noted, seen)
    ensures IsMerge(m, seen + {delta}) && IsMaxLamport(lamport, seen + {delta})
    ensures AllGenuine(conflicts, seen + {delta})
  {
    conflicts := NoteConflict(was, noted, delta, seen);
    MergeOne(was, seen, delta);
    MaxOne(clock, seen, delta);
    m, lamport := was, clock;
    if delta.path !in m {
      m := m[delta.path := delta];
    } else if Beats(delta, m[delta.path]) {
      m := m[delta.path := delta];
    }
    if delta.lamport > lamport {
      lamport := delta.lamport;
    }
  }

  /** The part of the fold that reports two concurrent writes of different content. */
  method NoteConflict(m: Entries, conflicts: seq<Conflict>, delta: DeltaEntry, ghost seen: set<DeltaEntry>)
    returns (conflicts': seq<Conflict>)
    requires IsMerge(m, seen) && AllGenuine(conflicts, seen)
    ensures AllGenuine(conflicts', seen + {delta})
    ensures conflicts' == conflicts <==>
              delta.path !in m || delta.hash == m[delta.path].hash || delta.baseHash == Some(m[delta.path].hash)
              || m[delta.path].baseHash == Some(delta.hash)
    ensures conflicts' != conflicts ==>
              && |conflicts'| == |conflicts| + 1 && conflicts' == conflicts + [conflicts'[|conflicts|]]
              && var c := conflicts'[|conflicts|];
                 && (c == Conflict(delta, m[delta.path]) || c == Conflict(m[delta.path], delta))
                 && AtMost(c.loser, c.winner)
  {
    conflicts' := conflicts;
    if delta.path in m && IsConflict(delta, m[delta.path]) {
      var existing := m[delta.path];
      BeatsTotal(delta, existing);
      AtMostIff(delta, existing);
      AtMostIff(existing, delta);
      conflicts' := conflicts + [if Beats(delta, existing) then Conflict(delta, existing) else Conflict(existing,
              delta)];
      assert |conflicts'| == |conflicts| + 1;
    }
  }

  ghost predicate AllGenuine(conflicts: seq<Conflict>, all: set<DeltaEntry>)
  {
    forall c :: c in conflicts ==> GenuineConflict(c, all)
  }

  lemma ElemsTakeOne(base: set<DeltaEntry>, deltas: seq<DeltaEntry>, i: nat)
    requires i < |deltas|
    ensures base + Elems(deltas[..i + 1]) == base + Elems(deltas[..i]) + {deltas[i]}
  {
    assert deltas[..i + 1] == deltas[..i] + [deltas[i]];
    ElemsPush(deltas[..i], deltas[i]);
  }

  lemma ElemsPush(deltas: seq<DeltaEntry>, d: DeltaEntry)
    ensures Elems(deltas + [d]) == Elems(deltas) + {d}
  {
    assert forall x :: x in deltas + [d] <==> x in deltas || x == d;
  }

  lemma SnapshotIsMerge(m: Entries)
    requires WellKeyed(m)
    ensures IsMerge(m, m.Values)
  {
    forall d | d in m.Values ensures d.path in m && !Beats(d, m[d.path]) {
      BeatsTotal(d, d);
    }
  }

  /** `m` after one more entry: it takes its path if the path is new or it beats what is there. */
  function Folded(m: Entries, d: DeltaEntry): Entries
  {
    if d.path !in m || Beats(d, m[d.path]) then m[d.path := d] else m
  }

  lemma MergeOne(m: Entries, seen: set<DeltaEntry>, d: DeltaEntry)
    requires IsMerge(m, seen)
    ensures IsMerge(Folded(m, d), seen + {d})
  {
    var m' := Folded(m, d);
    BeatsTotal(d, d);
    forall e | e in seen + {d} ensures e.path in m' && !Beats(e, m'[e.path]) {
      if e in seen && e.path == d.path && d.path in m && Beats(d, m[d.path]) {
        BeatsTotal(d, m[d.path]);
        NotBeatsTrans(e, m[d.path], d);
      }
    }
  }

  lemma MaxOne(n: nat, seen: set<DeltaEntry>, d: DeltaEntry)
    requires IsMaxLamport(n, seen)
    ensures IsMaxLamport(if d.lamport > n then d.lamport else n, seen + {d})
  {
    if d.lamport <= n && seen != {} {
      var e :| e in seen && e.lamport == n;
      assert e in seen + {d};
    }
    assert d in seen + {d};
  }

  /** Reordering, repeating, or moving entries between snapshot and log changes neither the
      manifest nor the clock: both are determined by the set of entries read. */
  lemma MergeOrderIrrelevant(snapshot: Entries, deltas: seq<DeltaEntry>, snapshot': Entries, deltas': seq<DeltaEntry>,
                             m: Entries, n: nat, m': Entries, n': nat)
    requires snapshot.Values + Elems(deltas) == snapshot'.Values + Elems(deltas')
    requires IsMerge(m, snapshot.Values + Elems(deltas)) && IsMaxLamport(n, snapshot.Values + Elems(deltas))
    requires IsMerge(m', snapshot'.Values + Elems(deltas')) && IsMaxLamport(n', snapshot'.Values + Elems(deltas'))
    ensures m == m' && n == n'
  {
    MergeUnique(m, m', snapshot.Values + Elems(deltas));
    MaxUnique(n, n', snapshot.Values + Elems(deltas));
  }

  /** Folding part of the log into the snapshot first gives the same merge as one fold. */
  lemma MergeSplits(first: set<DeltaEntry>, rest: set<DeltaEntry>, folded: Entries, m: Entries)
    requires IsMerge(folded, first)
    ensures IsMerge(m, folded.Values + rest) <==> IsMerge(m, first + rest)
    ensures Dominates(folded.Values + rest, first + rest)
  {
    forall d | d in first + rest ensures Kept(folded.Values + rest, d) {
      BeatsTotal(d, d);
      if d in first {
        var w := folded[d.path];
        assert w in folded.Values + rest && w.path == d.path && !Beats(d, w);
      } else {
        assert d in folded.Values + rest;
      }
    }
    DominatedMerge(m, folded.Values + rest, first + rest);
  }
}
