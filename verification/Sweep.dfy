/** The sweep of a prune, safe to stop after any single request. */
module Sweep {
  // The sweep of a prune: forgotten snapshots are deleted, repacked blobs are uploaded, one
  // new index object is written, the old index objects are deleted, and only then the packs.
  // `SweepIsSafe` says that stopping after any single request leaves a consistent bucket.

  import opened Blobs
  import opened Index
  import opened Options
  import opened Store

  datatype Plan = Plan(forget: seq<Id>,
                       newPacks: seq<(Id, Pack)>,
                       index: Option<(Id, seq<PackEntries>)>,
                       oldIndexes: seq<Id>,
                       doomed: seq<Id>)
  {
    /** Positions in the request list where each stage ends. */
    function AfterForget(): nat { |forget| }
    function AfterPacks(): nat { AfterForget() + |newPacks| }
    function AfterIndex(): nat { AfterPacks() + if index.Some? then 1 else 0 }
    function AfterOld(): nat { AfterIndex() + |oldIndexes| }
    function Length(): nat { AfterOld() + |doomed| }

    /** The `k`-th request. */
    function Request(k: nat): Op
      requires k < Length()
    {
      if k < AfterForget() then DelSnap(forget[k])
      else if k < AfterPacks() then PutPack(newPacks[k - AfterForget()].0, newPacks[k - AfterForget()].1)
      else if k < AfterIndex() then PutIndex(index.value.0, index.value.1)
      else if k < AfterOld() then DelIndex(oldIndexes[k - AfterIndex()])
      else DelPack(doomed[k - AfterOld()])
    }
  }

  /** How many requests of the stage that spans [from, to) are among the first `k`. */
  function Done(k: nat, from: nat, to: nat): nat
    requires from <= to
  {
    if k < from then 0 else if k < to then k - from else to - from
  }

  function Elems(s: seq<Id>): set<Id>
  {
    set x | x in s
  }

  function PackMap(packs: seq<(Id, Pack)>): map<Id, Pack>
  {
    if packs == [] then map[] else PackMap(packs[..|packs| - 1])[packs[|packs| - 1].0 := packs[|packs| - 1].1]
  }

  /** The bucket once the first `k` requests of `plan` have been made on `b`. */
  function After(b: Bucket, plan: Plan, k: nat): Bucket
    requires k <= plan.Length()
  {
    var snaps := Done(k, 0, plan.AfterForget());
    var added := Done(k, plan.AfterForget(), plan.AfterPacks());
    var indexed := Done(k, plan.AfterPacks(), plan.AfterIndex());
    var dropped := Done(k, plan.AfterIndex(), plan.AfterOld());
    var deleted := Done(k, plan.AfterOld(), plan.Length());
    Bucket(
      (b.packs + PackMap(plan.newPacks[..added])) - Elems(plan.doomed[..deleted]),
      (if indexed == 1 then b.indexes[plan.index.value.0 := plan.index.value.1] else b.indexes)
        - Elems(plan.oldIndexes[..dropped]),
      b.snaps - Elems(plan.forget[..snaps]))
  }

  predicate NewPackHolds(packs: seq<(Id, Pack)>, pk: Id, id: Id)
  {
    exists p :: p in packs && p.0 == pk && HasId(p.1.entries, id)
  }

  /** What a prune must have established about the bucket it read for its sweep to be safe. */
  ghost predicate Justified(g: Forest, b: Bucket, plan: Plan)
  {
    // new packs and the new index get IDs nobody has used
    && (forall p :: p in plan.newPacks ==> p.0 !in b.packs)
    && (forall i, j :: 0 <= i < j < |plan.newPacks| ==> plan.newPacks[i].0 != plan.newPacks[j].0)
    && (plan.index.Some? ==> plan.index.value.0 !in b.indexes)
    && (forall ix :: ix in plan.oldIndexes ==> ix in b.indexes)
    && (forall pk :: pk in plan.doomed ==> pk in b.packs)
       // the index is not touched unless some pack goes, and then every old index object goes
    && (plan.doomed == [] ==> plan.index.None? && plan.oldIndexes == [])
    && (plan.doomed != [] ==> forall ix :: ix in b.indexes ==> ix in plan.oldIndexes)
       // the new index lists only packs that stay or are new, truthfully
    && (plan.index.Some? ==> forall p, e :: p in plan.index.value.1 && e in p.entries ==>
                               Backed(b, plan, p.packId, e.id))
       // and it lists everything a remaining snapshot needs
    && (plan.doomed != [] ==> forall s :: s in b.snaps && s !in plan.forget ==> CoveredByNew(g, plan, b.snaps[s]))
  }

  /** Pack `pk` holds `id` and will still be there after the sweep. */
  predicate Backed(b: Bucket, plan: Plan, pk: Id, id: Id)
  {
    (pk !in plan.doomed && PackHolds(b, pk, id)) || NewPackHolds(plan.newPacks, pk, id)
  }

  ghost predicate CoveredByNew(g: Forest, plan: Plan, root: Id)
  {
    forall id :: Needs(g, root, id) ==> plan.index.Some? && ListsId(plan.index.value.1, id)
  }

  lemma {:induction false} PackMapSpec(packs: seq<(Id, Pack)>, n: nat)
    requires n <= |packs|
    requires forall i, j :: 0 <= i < j < |packs| ==> packs[i].0 != packs[j].0
    ensures forall pk :: pk in PackMap(packs[..n]) <==> exists i :: 0 <= i < n && packs[i].0 == pk
    ensures forall i :: 0 <= i < n ==>
              packs[i].0 in PackMap(packs[..n]) && PackMap(packs[..n])[packs[i].0] == packs[i].1
  {
    if n > 0 {
      PackMapSpec(packs, n - 1);
      assert packs[..n][..n - 1] == packs[..n - 1] && packs[..n][n - 1] == packs[n - 1];
    }
  }

  lemma TakeOneMore(s: seq<Id>, n: nat)
    requires n < |s|
    ensures Elems(s[..n + 1]) == Elems(s[..n]) + {s[n]}
  {
    assert s[..n + 1] == s[..n] + [s[n]];
  }

  lemma PackMapOneMore(packs: seq<(Id, Pack)>, n: nat)
    requires n < |packs|
    ensures PackMap(packs[..n + 1]) == PackMap(packs[..n])[packs[n].0 := packs[n].1]
  {
    assert packs[..n + 1][..n] == packs[..n];
  }

  lemma StepForget(b: Bucket, plan: Plan, k: nat)
    requires k < plan.AfterForget()
    ensures Apply(After(b, plan, k), plan.Request(k)) == After(b, plan, k + 1)
  {
    TakeOneMore(plan.forget, k);
    var i := plan.forget[k];
    assert b.snaps - Elems(plan.forget[..k]) - {i} == b.snaps - Elems(plan.forget[..k + 1]);
  }

  lemma StepPacks(b: Bucket, plan: Plan, k: nat)
    requires plan.AfterForget() <= k < plan.AfterPacks()
    ensures Apply(After(b, plan, k), plan.Request(k)) == After(b, plan, k + 1)
  {
    var i := k - plan.AfterForget();
    PackMapOneMore(plan.newPacks, i);
    var before, after := PackMap(plan.newPacks[..i]), PackMap(plan.newPacks[..i + 1]);
    assert plan.doomed[..0] == [] && Elems(plan.doomed[..0]) == {};
    assert (b.packs + before - {})[plan.newPacks[i].0 := plan.newPacks[i].1] == b.packs + after - {};
  }

  lemma StepIndex(g: Forest, b: Bucket, plan: Plan, k: nat)
    requires Justified(g, b, plan) && plan.AfterPacks() <= k < plan.AfterIndex()
    ensures Apply(After(b, plan, k), plan.Request(k)) == After(b, plan, k + 1)
  {
    assert plan.oldIndexes[..0] == [] && Elems(plan.oldIndexes[..0]) == {};
    var ix, listing := plan.index.value.0, plan.index.value.1;
    assert (b.indexes - {})[ix := listing] == b.indexes[ix := listing] - {};
  }

  lemma StepOld(b: Bucket, plan: Plan, k: nat)
    requires plan.AfterIndex() <= k < plan.AfterOld()
    ensures Apply(After(b, plan, k), plan.Request(k)) == After(b, plan, k + 1)
  {
    var i := k - plan.AfterIndex();
    TakeOneMore(plan.oldIndexes, i);
    var m := if plan.index.Some? then b.indexes[plan.index.value.0 := plan.index.value.1] else b.indexes;
    assert m - Elems(plan.oldIndexes[..i]) - {plan.oldIndexes[i]} == m - Elems(plan.oldIndexes[..i + 1]);
  }

  lemma StepDoomed(b: Bucket, plan: Plan, k: nat)
    requires plan.AfterOld() <= k < plan.Length()
    ensures Apply(After(b, plan, k), plan.Request(k)) == After(b, plan, k + 1)
  {
    var i := k - plan.AfterOld();
    TakeOneMore(plan.doomed, i);
    var m := b.packs + PackMap(plan.newPacks[..|plan.newPacks|]);
    assert m - Elems(plan.doomed[..i]) - {plan.doomed[i]} == m - Elems(plan.doomed[..i + 1]);
  }

  /** `After` really is the effect of making the requests one by one. */
  lemma AfterIsStepwise(g: Forest, b: Bucket, plan: Plan, k: nat)
    requires Justified(g, b, plan) && k < plan.Length()
    ensures Apply(After(b, plan, k), plan.Request(k)) == After(b, plan, k + 1)
  {
    if k < plan.AfterForget() { StepForget(b, plan, k); }
    else if k < plan.AfterPacks() { StepPacks(b, plan, k); }
    else if k < plan.AfterIndex() { StepIndex(g, b, plan, k); }
    else if k < plan.AfterOld() { StepOld(b, plan, k); }
    else { StepDoomed(b, plan, k); }
  }

  lemma AfterNothing(b: Bucket, plan: Plan)
    ensures After(b, plan, 0) == b
  {
    assert plan.newPacks[..0] == [] && plan.forget[..0] == [] && plan.oldIndexes[..0] == [] && plan.doomed[..0] == [];
    assert b.packs + map[] - {} == b.packs;
  }

  lemma NewPackInMap(packs: seq<(Id, Pack)>, pk: Id, id: Id)
    requires forall i, j :: 0 <= i < j < |packs| ==> packs[i].0 != packs[j].0
    requires NewPackHolds(packs, pk, id)
    ensures pk in PackMap(packs) && HasId(PackMap(packs)[pk].entries, id)
  {
    PackMapSpec(packs, |packs|);
    assert packs[..|packs|] == packs;
    var q :| q in packs && q.0 == pk && HasId(q.1.entries, id);
    var i :| 0 <= i < |packs| && packs[i] == q;
    assert PackMap(packs)[packs[i].0] == packs[i].1;
  }

  lemma NewPackNotDoomed(g: Forest, b: Bucket, plan: Plan, pk: Id, id: Id)
    requires Justified(g, b, plan) && NewPackHolds(plan.newPacks, pk, id)
    ensures pk !in plan.doomed
  {
  }

  /** Once all are uploaded, a new pack stays: it is never doomed. */
  lemma NewPackStays(g: Forest, b: Bucket, plan: Plan, k: nat, pk: Id, id: Id)
    requires Justified(g, b, plan) && plan.AfterIndex() <= k <= plan.Length()
    requires NewPackHolds(plan.newPacks, pk, id)
    ensures PackHolds(After(b, plan, k), pk, id)
  {
    NewPackInMap(plan.newPacks, pk, id);
    assert plan.newPacks[..|plan.newPacks|] == plan.newPacks;
    NewPackNotDoomed(g, b, plan, pk, id);
  }

  lemma OldPackStays(g: Forest, b: Bucket, plan: Plan, k: nat, pk: Id, id: Id)
    requires Justified(g, b, plan) && k <= plan.Length()
    requires PackHolds(b, pk, id) && pk !in plan.doomed
    ensures PackHolds(After(b, plan, k), pk, id)
  {
    PackMapSpec(plan.newPacks, Done(k, plan.AfterForget(), plan.AfterPacks()));
  }

  /** A pack the new index names is in the bucket from the moment the index is. */
  lemma ListedByNewIndex(g: Forest, b: Bucket, plan: Plan, k: nat, p: PackEntries, e: Entry)
    requires Justified(g, b, plan) && plan.AfterIndex() <= k <= plan.Length()
    requires plan.index.Some? && p in plan.index.value.1 && e in p.entries
    ensures PackHolds(After(b, plan, k), p.packId, e.id)
  {
    assert Backed(b, plan, p.packId, e.id);
    if NewPackHolds(plan.newPacks, p.packId, e.id) {
      NewPackStays(g, b, plan, k, p.packId, e.id);
    } else {
      OldPackStays(g, b, plan, k, p.packId, e.id);
    }
  }

  /** An old index object still there means no pack has been deleted yet. */
  lemma ListedByOldIndex(g: Forest, b: Bucket, plan: Plan, k: nat, ix: Id, pk: Id, id: Id)
    requires Justified(g, b, plan) && Sound(b) && k <= plan.Length()
    requires ix in b.indexes && ix in After(b, plan, k).indexes && Lists(b, ix, pk, id)
    ensures PackHolds(After(b, plan, k), pk, id)
  {
    var dropped := Done(k, plan.AfterIndex(), plan.AfterOld());
    assert plan.oldIndexes[..|plan.oldIndexes|] == plan.oldIndexes;
    assert plan.doomed == [] || ix in plan.oldIndexes;
    var added := Done(k, plan.AfterForget(), plan.AfterPacks());
    PackMapSpec(plan.newPacks, added);
    assert PackHolds(b, pk, id);
  }

  lemma SweepKeepsSound(g: Forest, b: Bucket, plan: Plan, k: nat)
    requires Justified(g, b, plan) && Sound(b) && k <= plan.Length()
    ensures Sound(After(b, plan, k))
  {
    var a := After(b, plan, k);
    forall ix, pk, id | Lists(a, ix, pk, id) ensures PackHolds(a, pk, id) {
      var p :| p in a.indexes[ix] && p.packId == pk && HasId(p.entries, id);
      if ix in b.indexes {
        assert Lists(b, ix, pk, id);
        ListedByOldIndex(g, b, plan, k, ix, pk, id);
      } else {
        var e :| e in p.entries && e.id == id;
        ListedByNewIndex(g, b, plan, k, p, e);
      }
    }
  }

  lemma SweepKeepsCovered(g: Forest, b: Bucket, plan: Plan, k: nat, s: Id, id: Id)
    requires Justified(g, b, plan) && Consistent(g, b) && k <= plan.Length()
    requires s in After(b, plan, k).snaps && Needs(g, b.snaps[s], id)
    ensures Covered(After(b, plan, k), id)
  {
    var a := After(b, plan, k);
    if k <= plan.AfterIndex() || plan.doomed == [] {
      var ix, pk :| Lists(b, ix, pk, id);
      assert Lists(a, ix, pk, id);
    } else {
      assert plan.forget[..|plan.forget|] == plan.forget;
      assert s in b.snaps && s !in plan.forget && Needs(g, b.snaps[s], id);
      assert CoveredByNew(g, plan, b.snaps[s]);
      var listing := plan.index.value.1;
      var p :| p in listing && HasId(p.entries, id);
      assert Lists(a, plan.index.value.0, p.packId, id);
    }
  }

  /** Whichever request is the last one made, the bucket is consistent: every listing of
      every index object is true, and every snapshot still there can be restored. */
  lemma SweepIsSafe(g: Forest, b: Bucket, plan: Plan, k: nat)
    requires Justified(g, b, plan) && Consistent(g, b) && k <= plan.Length()
    ensures Consistent(g, After(b, plan, k))
  {
    var a := After(b, plan, k);
    SweepKeepsSound(g, b, plan, k);
    forall s | s in a.snaps ensures Restorable(g, a, a.snaps[s]) {
      assert Restorable(g, b, b.snaps[s]);
      forall id | Needs(g, a.snaps[s], id) ensures Covered(a, id) {
        SweepKeepsCovered(g, b, plan, k, s, id);
      }
    }
  }

  /** A prune whose copying fails part of the way: the forgotten snapshots are gone, some new
      packs are there, and nothing follows. That needs nothing of the bucket but unused IDs. */
  lemma {:induction false} FailedCopyIsJustified(g: Forest, b: Bucket, forget: seq<Id>, newPacks: seq<(Id, Pack)>)
    requires forall p :: p in newPacks ==> p.0 !in b.packs
    requires forall i, j :: 0 <= i < j < |newPacks| ==> newPacks[i].0 != newPacks[j].0
    ensures Justified(g, b, Plan(forget, newPacks, None, [], []))
    ensures Consistent(g, b) ==> Consistent(g, After(b, Plan(forget, newPacks, None, [], []), |forget| + |newPacks|))
  {
    var plan := Plan(forget, newPacks, None, [], []);
    if Consistent(g, b) {
      SweepIsSafe(g, b, plan, |forget| + |newPacks|);
    }
  }
}
