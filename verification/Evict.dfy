/**
 Eviction and hydration, one disk or row update at a time. At every crash point the path
 has its real file or its own placeholder, so no later pass takes it for a deletion.
 */
module Evict {
  import opened Ordering
  import opened Options
  import opened Manifest
  import opened Records
  import opened Engine
  import Stream

  datatype Skip = NotTracked | AlreadyEvicted | NotSynced | PendingUpload | RemoteUnverified | FileChanged

  /** What one device has on disk and in its rows. `aside` is the temporary name an evicted
      file goes through. */
  datatype World = World(files: Files, stubs: map<Path, StubMeta>, rows: Baseline, aside: Option<LocalEntry>)

  // ----- Eligibility -----

  function Eligible(rows: Baseline, m: Entries, pending: set<Path>, p: Path): Option<Skip>
  {
    if p !in rows then Some(NotTracked)
    else if rows[p].residency == Evicted then Some(AlreadyEvicted)
    else if rows[p].lastSynced != Some(rows[p].contentHash) then Some(NotSynced)
    else if p in pending then Some(PendingUpload)
    else if ThereOf(m, p) != Some(rows[p].contentHash) then Some(NotSynced)
    else None
  }

  /** Eligible are exactly the tracked paths whose own file is what was last agreed on and what
      the remote has, and for which no upload is pending. */
  lemma EligibleIff(rows: Baseline, m: Entries, pending: set<Path>, p: Path)
    ensures Eligible(rows, m, pending, p).None? <==> p in rows && InStep(rows[p], m, p) && p !in pending
    ensures p in rows && p in pending && InStep(rows[p], m, p) ==>
              Eligible(rows, m, pending, p) == Some(PendingUpload)
  {
  }

  /** The row's own file is what was last agreed on and what the remote has. */
  predicate InStep(r: FileRecord, m: Entries, p: Path)
  {
    && r.residency == Local && r.lastSynced == Some(r.contentHash)
    && p in m && !m[p].deleted && m[p].hash == r.contentHash
  }

  /** An eligible path needs nothing from reconcile while its file is the one recorded: all
      three sides agree. */
  lemma EligibleIsSettled(rows: Baseline, m: Entries, pending: set<Path>, p: Path, files: Files, view: ResidencyView)
    requires Eligible(rows, m, pending, p).None? && p in files && files[p].hash == rows[p].contentHash
    ensures KindFor(p, files, rows, m, view).None?
  {
  }

  // ----- One eviction -----

  function Marked(w: World, p: Path): World
  {
    w.(rows := SetResidency(w.rows, p, Evicted))
  }

  function Stubbed(w: World, meta: StubMeta): World
  {
    w.(stubs := w.stubs[meta.path := meta])
  }

  /** The rename aside. What is moved may differ from what was hashed: a writer can race. */
  function MovedAside(w: World, p: Path, found: LocalEntry): World
  {
    w.(files := w.files - {p}, aside := Some(found))
  }

  function PutBack(w: World, p: Path): World
    requires w.aside.Some?
  {
    w.(files := w.files[p := w.aside.value], aside := None)
  }

  /** The path has its real file, or its own placeholder. */
  predicate Present(w: World, p: Path)
  {
    p in w.files || (p in w.stubs && w.stubs[p].path == p)
  }

  ghost predicate SameBut<V>(a: map<Path, V>, b: map<Path, V>, p: Path)
  {
    forall q :: q != p ==> (q in a <==> q in b) && (q in a ==> a[q] == b[q])
  }

  /** Only `p` may differ. */
  ghost predicate SameElsewhere(w: World, v: World, p: Path)
  {
    SameBut(w.files, v.files, p) && SameBut(w.stubs, v.stubs, p) && SameBut(w.rows, v.rows, p)
  }

  ghost predicate CrashSafe(start: World, w: World, p: Path)
  {
    Present(w, p) && SameElsewhere(start, w, p)
  }

  ghost predicate PresentThroughout(worlds: seq<World>, p: Path, start: World)
  {
    forall w :: w in worlds ==> CrashSafe(start, w, p)
  }

  /** One system call or one row: a crash falls before it or after it. */
  predicate OneStep(w: World, v: World)
  {
    || (w.stubs == v.stubs && w.rows == v.rows)
    || (w.files == v.files && w.aside == v.aside && w.rows == v.rows)
    || (w.files == v.files && w.aside == v.aside && w.stubs == v.stubs)
  }

  ghost predicate Stepwise(worlds: seq<World>)
  {
    forall i :: 0 < i < |worlds| ==> OneStep(worlds[i - 1], worlds[i])
  }

  /** A step that changes only `p`, and leaves its file or its placeholder, is safe. */
  lemma StepIsSafe(start: World, w: World, v: World, p: Path)
    requires CrashSafe(start, w, p) && SameElsewhere(w, v, p) && Present(v, p)
    ensures CrashSafe(start, v, p)
  {
  }

  function Unstubbed(w: World, p: Path): World
  {
    w.(stubs := w.stubs - {p})
  }

  function Unmarked(w: World, p: Path): World
  {
    w.(rows := SetResidency(w.rows, p, Local))
  }

  /** The file's bytes are still on this disk, in place or under the temporary name. */
  predicate BytesHere(w: World, p: Path, start: World, found: LocalEntry)
  {
    (p in w.files && p in start.files && (w.files[p] == start.files[p] || w.files[p] == found))
        || w.aside == Some(found)
  }

  /** `evict_one` once every check has passed: what a crash can leave, in order. */
  method Replace(start: World, p: Path, meta: StubMeta, hashed: LocalEntry, found: LocalEntry)
    returns (crashes: seq<World>, end: World, changed: bool)
    requires p in start.files && start.aside.None? && meta.path == p
    requires p in start.rows && start.rows[p].residency == Local
    ensures PresentThroughout(crashes, p, start) && crashes != [] && crashes[|crashes| - 1] == end
    ensures Stepwise([start] + crashes)
    ensures forall w :: w in crashes ==> BytesHere(w, p, start, found) || (!changed && w == end)
    ensures changed <==> found.size != hashed.size || found.mtime != hashed.mtime
    ensures !changed ==> end == Stubbed(Marked(start, p), meta).(files := start.files - {p})
    ensures changed ==> end == start.(files := start.files[p := found], stubs := start.stubs - {p})
  {
    changed := found.size != hashed.size || found.mtime != hashed.mtime;
    var marked := Marked(start, p);
    var stubbed := Stubbed(marked, meta);
    var moved := MovedAside(stubbed, p, found);
    StepIsSafe(start, start, marked, p);
    StepIsSafe(start, marked, stubbed, p);
    StepIsSafe(start, stubbed, moved, p);
    crashes := [marked, stubbed, moved];
    if !changed {
      end := moved.(aside := None);
      StepIsSafe(start, moved, end, p);
      crashes := crashes + [end];
    } else {
      var back := GiveBack(start, moved, p);
      StepwiseJoin([start] + crashes, back);
      assert [start] + (crashes + back) == ([start] + crashes) + back;
      crashes := crashes + back;
      end := back[2];
      Restored(start, p, meta, found);
    }
  }

  /** The file turned out to have changed: it goes back, then its placeholder and mark go. */
  method GiveBack(start: World, moved: World, p: Path) returns (crashes: seq<World>)
    requires CrashSafe(start, moved, p) && moved.aside.Some?
    ensures |crashes| == 3 && crashes[0] == PutBack(moved, p)
    ensures crashes[2] == Unmarked(Unstubbed(PutBack(moved, p), p), p)
    ensures Stepwise(crashes) && PresentThroughout(crashes, p, start)
    ensures forall w :: w in crashes ==> p in w.files && w.files[p] == moved.aside.value
  {
    var back := PutBack(moved, p);
    var bare := Unstubbed(back, p);
    var end := Unmarked(bare, p);
    StepIsSafe(start, moved, back, p);
    StepIsSafe(start, back, bare, p);
    StepIsSafe(start, bare, end, p);
    crashes := [back, bare, end];
  }

  lemma StepwiseJoin(a: seq<World>, b: seq<World>)
    requires Stepwise(a) && Stepwise(b) && a != [] && b != [] && OneStep(a[|a| - 1], b[0])
    ensures Stepwise(a + b)
  {
    var all := a + b;
    forall i | 0 < i < |all| ensures OneStep(all[i - 1], all[i]) {
      assert i > |a| ==> all[i - 1] == b[i - 1 - |a|] && all[i] == b[i - |a|];
    }
  }

  lemma Restored(start: World, p: Path, meta: StubMeta, found: LocalEntry)
    requires p in start.rows && start.rows[p].residency == Local && meta.path == p && start.aside.None?
    ensures Unmarked(Unstubbed(PutBack(MovedAside(Stubbed(Marked(start, p), meta), p, found), p), p), p)
            == start.(files := start.files[p := found], stubs := start.stubs - {p})
  {
    assert SetResidency(SetResidency(start.rows, p, Evicted), p, Local) == start.rows;
    assert (start.files - {p})[p := found] == start.files[p := found];
    assert start.stubs[p := meta] - {p} == start.stubs - {p};
  }

  /** The object found at the version's key has the length of that version's ciphertext, and so
      of no version of another size. */
  predicate RightSize(m: Entries, p: Path, remoteLen: Option<nat>)
  {
    p in m && remoteLen == Some(Stream.CiphertextLen(m[p].size))
  }

  /**
   `evict_one`. `hashed` is the stable read of the file, if it succeeded; `remoteLen` the length
   of the object at the version's key, if there is one; `verified` whether fetching it succeeded,
   if that was asked for; `found` what the rename moved. `crashes` is every state a crash can
   leave, in order, the last one being how it ends.
   */
  method EvictOne(start: World, p: Path, m: Entries, pending: set<Path>,
                  hashed: Option<LocalEntry>, remoteLen: Option<nat>, verified: bool, found: LocalEntry)
    returns (crashes: seq<World>, skip: Option<Skip>)
    requires p in start.files && start.aside.None?
    ensures crashes != [] && crashes[0] == start && Stepwise(crashes) && PresentThroughout(crashes, p, start)
    ensures Eligible(start.rows, m, pending, p).Some? ==> skip == Eligible(start.rows, m, pending, p)
    ensures skip.None? <==>
            && Eligible(start.rows, m, pending, p).None?
            && hashed.Some? && Some(hashed.value.hash) == ThereOf(m, p) && RightSize(m, p, remoteLen) && verified
            && found.size == hashed.value.size && found.mtime == hashed.value.mtime
    ensures skip.None? <==>
            && p in start.rows && InStep(start.rows[p], m, p) && p !in pending
            && hashed.Some? && hashed.value.hash == m[p].hash && verified
            && remoteLen == Some(Stream.CiphertextLen(m[p].size))
            && found.size == hashed.value.size && found.mtime == hashed.value.mtime
    // nothing is touched before the remote version is known to be there, and until the very
    // last step the bytes are here as well
    ensures |crashes| > 1 ==> RightSize(m, p, remoteLen) && verified && Eligible(start.rows, m, pending, p).None?
    ensures forall w :: w in crashes ==> BytesHere(w, p, start, found) || (skip.None? && w == crashes[|crashes| - 1])
    ensures skip.None? ==> var w := crashes[|crashes| - 1];
                           && p !in w.files && p in w.stubs && w.stubs[p].path == p
                           && w.stubs[p].hash == m[p].hash && w.stubs[p].objectKey == m[p].objectKey
                           && w.stubs[p].size == found.size && w.stubs[p].mtime == Some(found.mtime)
                           && IsEvicted(w.rows, p) && BaseOf(w.rows, p) == ThereOf(m, p)
    ensures skip.Some? ==> var w := crashes[|crashes| - 1];
                           w == start || w == start.(files := start.files[p := found], stubs := start.stubs - {p})
  {
    crashes := [start];
    skip := Eligible(start.rows, m, pending, p);
    if skip.Some? { return; }
    if hashed.None? { return crashes, Some(FileChanged); }
    if hashed.value.hash != m[p].hash { return crashes, Some(NotSynced); }
    if !RightSize(m, p, remoteLen) || !verified { return crashes, Some(RemoteUnverified); }
    var meta := StubMeta(p, hashed.value.size, hashed.value.hash, m[p].objectKey, Some(hashed.value.mtime));
    var more, end, changed := Replace(start, p, meta, hashed.value, found);
    crashes := crashes + more;
    if changed { skip := Some(FileChanged); }
  }

  // ----- One hydration -----

  /** `hydrate`, then the row at the next flush: the file first, the placeholder after it. From
      the first step on the path is there, and before it if its placeholder was. */
  method HydrateOne(start: World, p: Path, entry: LocalEntry, now: int) returns (crashes: seq<World>, end: World)
    ensures |crashes| > 1 && crashes[0] == start && crashes[|crashes| - 1] == end && Stepwise(crashes)
    ensures PresentThroughout(crashes[1..], p, start)
    ensures Present(start, p) ==> PresentThroughout(crashes, p, start)
    ensures end == start.(files := start.files[p := entry], stubs := start.stubs - {p}, rows := end.rows)
    ensures !IsEvicted(end.rows, p) && BaseOf(end.rows, p) == Some(entry.hash)
    ensures end.rows == start.rows[p := FileRecord(p, entry.size, entry.mtime, entry.hash, Some(entry.hash), Local,
                                                   Some(now), Some(now))]
  {
    var filed := start.(files := start.files[p := entry]);
    var bare := Unstubbed(filed, p);
    var confirmed := bare.(rows := ConfirmSync(bare.rows, p, entry.size, entry.mtime, entry.hash, now));
    end := confirmed.(rows := RecordHydrated(confirmed.rows, p, now));
    assert CrashSafe(start, filed, p);
    StepIsSafe(start, filed, bare, p);
    StepIsSafe(start, bare, confirmed, p);
    StepIsSafe(start, confirmed, end, p);
    crashes := [start, filed, bare, confirmed, end];
    assert crashes[1..] == [filed, bare, confirmed, end];
  }

  // ----- What the next pass makes of a crash -----

  /** `plan_pass` drops a path's own placeholder if the real file is there. */
  function Unstale(w: World): map<Path, StubMeta>
  {
    map p | p in w.stubs && !(p in w.files && w.stubs[p].path == p) :: w.stubs[p]
  }

  /** Wherever eviction or hydration was cut off, whatever the remote log says by the next
      pass and whatever residency is wanted, the path is not tombstoned. */
  lemma NeverTombstoned(w: World, p: Path, remote: Entries, policy: Policy, hydrate: set<Path>)
    requires Present(w, p)
    ensures KindFor(p, w.files, w.rows, remote, ResidencyView(Unstale(w), policy, hydrate)) != Some(DeleteRemote)
  {
    var view := ResidencyView(Unstale(w), policy, hydrate);
    if KindFor(p, w.files, w.rows, remote, view) == Some(DeleteRemote) {
      DeleteRemoteIsWanted(p, w.files, w.rows, remote, view);
    }
  }

  /** The test is sharp: with neither, an agreed and unchanged path is tombstoned. */
  lemma AbsentIsTombstoned(w: World, p: Path, remote: Entries, policy: Policy, hydrate: set<Path>)
    requires p !in w.files && p !in w.stubs && BaseOf(w.rows, p).Some? && ThereOf(remote, p) == BaseOf(w.rows, p)
    ensures KindFor(p, w.files, w.rows, remote, ResidencyView(Unstale(w), policy, hydrate)) == Some(DeleteRemote)
  {
  }

  // ----- Choosing what to evict -----

  const I64_MAX: int := 0x7FFF_FFFF_FFFF_FFFF

  function SaturatingSub(a: int, b: int): int
  {
    if a - b > I64_MAX then I64_MAX else if a - b < -I64_MAX - 1 then -I64_MAX - 1 else a - b
  }

  /** `grace` in seconds, clamped to a signed 64-bit count. */
  predicate PastGrace(r: FileRecord, grace: nat, now: int)
  {
    r.syncedAt.None? || SaturatingSub(now, r.syncedAt.value) >= if grace > I64_MAX then I64_MAX else grace
  }

  predicate PolicyEvicts(rows: Baseline, m: Entries, pending: set<Path>, policy: Policy, grace: nat, now: int, p: Path)
  {
    p in rows && policy.mode(p) == OnlineOnly && Eligible(rows, m, pending, p).None? && PastGrace(rows[p], grace, now)
  }

  /** In seconds: `grace` after the last sync, or after as many as a signed count can hold. */
  lemma DueInSeconds(rows: Baseline, m: Entries, pending: set<Path>, policy: Policy, grace: nat, now: int, p: Path)
    ensures PolicyEvicts(rows, m, pending, policy, grace, now, p) <==>
              && p in rows && policy.mode(p) == OnlineOnly && InStep(rows[p], m, p) && p !in pending
              && (rows[p].syncedAt.None?
                  || now - rows[p].syncedAt.value >= grace || now - rows[p].syncedAt.value >= 0x7FFF_FFFF_FFFF_FFFF)
  {
  }

  method PlanPolicyEvictions(rows: Baseline, m: Entries, pending: set<Path>, policy: Policy, grace: nat, now: int)
    returns (paths: set<Path>)
    ensures forall p :: p in paths <==> PolicyEvicts(rows, m, pending, policy, grace, now, p)
    ensures forall p :: p in paths <==>
              && p in rows && policy.mode(p) == OnlineOnly && InStep(rows[p], m, p) && p !in pending
              && (rows[p].syncedAt.None?
                  || now - rows[p].syncedAt.value >= grace || now - rows[p].syncedAt.value >= 0x7FFF_FFFF_FFFF_FFFF)
  {
    paths := {};
    var rest := rows.Keys;
    while rest != {}
      invariant rest <= rows.Keys
      invariant forall p :: p in paths <==> p !in rest && PolicyEvicts(rows, m, pending, policy, grace, now, p)
    {
      var p :| p in rest;
      if policy.mode(p) == OnlineOnly && Eligible(rows, m, pending, p).None? && PastGrace(rows[p], grace, now) {
        paths := paths + {p};
      }
      rest := rest - {p};
    }
    forall p ensures p in paths <==>
              && p in rows && policy.mode(p) == OnlineOnly && InStep(rows[p], m, p) && p !in pending
              && (rows[p].syncedAt.None?
                  || now - rows[p].syncedAt.value >= grace || now - rows[p].syncedAt.value >= 0x7FFF_FFFF_FFFF_FFFF)
    {
      DueInSeconds(rows, m, pending, policy, grace, now, p);
    }
  }

  datatype Candidate = Candidate(path: Path, bytes: nat, lastUsed: int)

  predicate UsedBefore(a: Candidate, b: Candidate)
  {
    a.lastUsed < b.lastUsed || (a.lastUsed == b.lastUsed && Below(a.path, b.path))
  }

  ghost predicate ByUse(cs: seq<Candidate>)
  {
    forall i, j :: 0 <= i < j < |cs| ==> !UsedBefore(cs[j], cs[i])
  }

  function BytesOf(cs: seq<Candidate>): nat
  {
    if cs == [] then 0 else BytesOf(cs[..|cs| - 1]) + cs[|cs| - 1].bytes
  }

  lemma NotUsedBeforeTrans(a: Candidate, b: Candidate, c: Candidate)
    requires !UsedBefore(b, a) && !UsedBefore(c, b)
    ensures !UsedBefore(c, a)
  {
    BelowTotal(a.path, b.path);
    BelowTotal(b.path, c.path);
    BelowTotal(a.path, c.path);
    if UsedBefore(c, a) && a.path != b.path && b.path != c.path && Below(c.path, a.path) && Below(a.path, b.path) {
      BelowTrans(c.path, a.path, b.path);
    }
  }

  method SortByUse(cs: seq<Candidate>) returns (r: seq<Candidate>)
    ensures ByUse(r) && multiset(r) == multiset(cs)
  {
    r := [];
    for i := 0 to |cs|
      invariant ByUse(r) && multiset(r) == multiset(cs[..i])
    {
      assert cs[..i + 1] == cs[..i] + [cs[i]];
      r := InsertByUse(r, cs[i]);
    }
    assert cs[..|cs|] == cs;
  }

  method InsertByUse(cs: seq<Candidate>, c: Candidate) returns (r: seq<Candidate>)
    requires ByUse(cs)
    ensures ByUse(r) && multiset(r) == multiset(cs) + multiset{c}
  {
    var i := 0;
    while i < |cs| && !UsedBefore(c, cs[i])
      invariant i <= |cs|
      invariant forall j :: 0 <= j < i ==> !UsedBefore(c, cs[j])
    {
      i := i + 1;
    }
    InsertedByUse(cs, i, c);
    assert cs == cs[..i] + cs[i..];
    r := cs[..i] + [c] + cs[i..];
  }

  lemma {:induction false} InsertedByUse(cs: seq<Candidate>, i: nat, c: Candidate)
    requires ByUse(cs) && i <= |cs| && (i < |cs| ==> UsedBefore(c, cs[i]))
    requires forall j :: 0 <= j < i ==> !UsedBefore(c, cs[j])
    ensures ByUse(cs[..i] + [c] + cs[i..])
  {
    var r := cs[..i] + [c] + cs[i..];
    forall j | i <= j < |cs| ensures !UsedBefore(cs[j], c) {
      BelowTotal(c.path, cs[i].path);
      if j > i {
        NotUsedBeforeTrans(c, cs[i], cs[j]);
      }
    }
    forall j, k | 0 <= j < k < |r| ensures !UsedBefore(r[k], r[j]) {
      assert r[j] == if j < i then cs[j] else if j == i then c else cs[j - 1];
      assert r[k] == if k < i then cs[k] else if k == i then c else cs[k - 1];
    }
  }

  /** Least recently used first, and no more than needed: some order of the candidates by use
      is cut after the first prefix that frees enough, or at the limit. */
  method PlanSpaceEvictions(cs: seq<Candidate>, needed: nat, limit: nat)
    returns (paths: seq<Path>, ghost sorted: seq<Candidate>)
    ensures ByUse(sorted) && multiset(sorted) == multiset(cs)
    ensures forall i, j :: 0 <= i < j < |sorted| ==>
              sorted[i].lastUsed < sorted[j].lastUsed
              || (sorted[i].lastUsed == sorted[j].lastUsed && !Below(sorted[j].path, sorted[i].path))
    ensures |paths| <= |sorted| && |paths| <= limit
    ensures forall i :: 0 <= i < |paths| ==> paths[i] == sorted[i].path
    ensures |paths| == |sorted| || |paths| == limit || BytesOf(sorted[..|paths|]) >= needed
    ensures forall n :: 0 <= n < |paths| ==> BytesOf(sorted[..n]) < needed
  {
    var order := SortByUse(cs);
    sorted := order;
    paths := [];
    var freed := 0;
    var i := 0;
    while i < |order| && freed < needed && |paths| < limit
      invariant i <= |order| && |paths| == i && i <= limit
      invariant freed == BytesOf(order[..i])
      invariant forall k :: 0 <= k < i ==> paths[k] == order[k].path
      invariant forall n :: 0 <= n < i ==> BytesOf(order[..n]) < needed
    {
      assert order[..i + 1][..i] == order[..i];
      freed := freed + order[i].bytes;
      paths := paths + [order[i].path];
      i := i + 1;
    }
  }
}
