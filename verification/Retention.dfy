/**
 Choosing which snapshots to forget. Each host and set of paths is a group of its own; a rule
 keeps the newest snapshot in each of the most recent buckets it counts, and a snapshot
 survives if any rule keeps it.

 `KeptBy` says which those are without any order of visiting; the loops over lists sorted
 newest first are proved against it, and so is running the whole selection again on what
 it kept.
 */
module Retention {
  import opened Blobs
  import opened Options

  datatype Snap = Snap(id: Id, time: int, host: nat, paths: seq<nat>)

  /** A rule's bucket is the hour, day, week or so a snapshot falls in, as text; `last` has a
      bucket per snapshot. */
  datatype Rule = Rule(name: nat, count: nat, bucket: Snap -> nat)

  /** Same host, same paths in whatever order. */
  predicate SameGroup(a: Snap, b: Snap)
  {
    a.host == b.host && multiset(a.paths) == multiset(b.paths)
  }

  /** Newest first; the ID decides between snapshots of one instant. */
  predicate Newer(a: Snap, b: Snap)
  {
    a.time > b.time || (a.time == b.time && a.id < b.id)
  }

  /** Snapshots are objects named by their ID. */
  ghost predicate Distinct(all: seq<Snap>)
  {
    forall i, j :: 0 <= i < j < |all| ==> all[i].id != all[j].id
  }

  ghost predicate DistinctIds(s: set<Snap>)
  {
    forall a, b :: a in s && b in s && a.id == b.id ==> a == b
  }

  // ----- What a rule keeps -----

  /** The buckets of the snapshots newer than `s`. */
  function BucketsBefore(group: set<Snap>, s: Snap, bucket: Snap -> nat): set<nat>
  {
    set t | t in group && Newer(t, s) :: bucket(t)
  }

  /** `s` is the newest of its bucket, and its bucket is among the first `count`. */
  ghost predicate KeptBy(group: set<Snap>, s: Snap, r: Rule)
  {
    && (forall t :: t in group && Newer(t, s) ==> r.bucket(t) != r.bucket(s))
    && |BucketsBefore(group, s, r.bucket)| < r.count
  }

  ghost function Survivors(group: set<Snap>, rules: seq<Rule>): set<Snap>
  {
    set s | s in group && exists r :: r in rules && KeptBy(group, s, r)
  }

  lemma SubsetSize(a: set<nat>, b: set<nat>)
    requires a <= b
    ensures |a| <= |b|
  {
    var rest := b - a;
    assert b == a + rest && a * rest == {};
    assert |a + rest| == |a| + |rest|;
  }

  lemma {:induction false} NewestOf(s: set<Snap>) returns (n: Snap)
    requires s != {} && DistinctIds(s)
    ensures n in s && forall t :: t in s ==> t == n || Newer(n, t)
    decreases |s|
  {
    n :| n in s;
    var rest := s - {n};
    if rest == {} {
      assert forall t :: t in s ==> t == n || t in rest;
    } else {
      var m := NewestOf(rest);
      assert n.id != m.id;
      var was := n;
      if Newer(m, n) {
        n := m;
      }
      forall t | t in s ensures t == n || Newer(n, t) {
        assert t == was || t in rest;
      }
    }
  }

  /** Among the snapshots a rule keeps, the first buckets are all still there. */
  lemma BucketsSurvive(group: set<Snap>, kept: set<Snap>, f: Snap, r: Rule)
    requires DistinctIds(group) && kept <= group && forall s :: s in group && KeptBy(group, s, r) ==> s in kept
    requires |BucketsBefore(group, f, r.bucket)| >= r.count
    ensures |BucketsBefore(kept, f, r.bucket)| >= r.count
  {
    var before := BucketsBefore(kept, f, r.bucket);
    if |before| < r.count {
      var gone := set t | t in group && Newer(t, f) && r.bucket(t) !in before;
      if gone == {} {
        forall b | b in BucketsBefore(group, f, r.bucket) ensures b in before {
          var t :| t in group && Newer(t, f) && r.bucket(t) == b;
          assert t !in gone;
        }
        SubsetSize(BucketsBefore(group, f, r.bucket), before);
      } else {
        var g := NewestOf(gone);
        FirstGoneIsKept(group, before, gone, f, g, r);
      }
    }
  }

  /** The newest snapshot of a bucket not among `before` is newest of its bucket, and only
      buckets of `before` precede it. */
  lemma FirstGoneIsKept(group: set<Snap>, before: set<nat>, gone: set<Snap>, f: Snap, g: Snap, r: Rule)
    requires |before| < r.count && gone == set t | t in group && Newer(t, f) && r.bucket(t) !in before
    requires g in gone && forall t :: t in gone ==> t == g || Newer(g, t)
    ensures KeptBy(group, g, r)
  {
    forall t | t in group && Newer(t, g) ensures r.bucket(t) in before && r.bucket(t) != r.bucket(g) {
      assert t !in gone;
    }
    SubsetSize(BucketsBefore(group, g, r.bucket), before);
  }

  /** Applied again to what survived, a rule keeps the same snapshots. */
  lemma RuleIsStable(group: set<Snap>, kept: set<Snap>, s: Snap, r: Rule)
    requires DistinctIds(group) && kept <= group && s in kept
    requires forall x :: x in group && KeptBy(group, x, r) ==> x in kept
    ensures KeptBy(kept, s, r) <==> KeptBy(group, s, r)
  {
    if KeptBy(group, s, r) {
      SubsetSize(BucketsBefore(kept, s, r.bucket), BucketsBefore(group, s, r.bucket));
    }
    if KeptBy(kept, s, r) && !KeptBy(group, s, r) {
      var same := set t | t in group && (t == s || Newer(t, s)) && r.bucket(t) == r.bucket(s);
      assert s in same;
      var f := NewestOf(same);
      forall t | t in group && Newer(t, f) ensures r.bucket(t) != r.bucket(f) {
        assert t !in same;
      }
      assert KeptBy(group, f, r) ==> f in kept;
      BucketsSurvive(group, kept, f, r);
      SubsetSize(BucketsBefore(kept, f, r.bucket), BucketsBefore(kept, s, r.bucket));
    }
  }

  /** Running the whole policy again on the survivors forgets nothing and gives every one the
      same reasons. */
  lemma SelectIsStable(group: set<Snap>, rules: seq<Rule>, s: Snap, r: Rule)
    requires DistinctIds(group) && s in Survivors(group, rules) && r in rules
    ensures KeptBy(Survivors(group, rules), s, r) <==> KeptBy(group, s, r)
    ensures Survivors(Survivors(group, rules), rules) == Survivors(group, rules)
  {
    var kept := Survivors(group, rules);
    RuleIsStable(group, kept, s, r);
    forall x | x in kept ensures x in Survivors(kept, rules) {
      var q :| q in rules && KeptBy(group, x, q);
      RuleIsStable(group, kept, x, q);
    }
  }

  /** Any rule that counts at all keeps its group's newest. */
  lemma NewestIsKept(group: set<Snap>, n: Snap, r: Rule)
    requires n in group && (forall t :: t in group ==> t == n || Newer(n, t)) && r.count > 0
    ensures KeptBy(group, n, r)
  {
    assert BucketsBefore(group, n, r.bucket) == {};
  }

  // ----- `select` -----

  /** A snapshot that survives, with the names of the rules that kept it. */
  datatype Kept = Kept(snap: Snap, reasons: seq<nat>)

  datatype Selection = Selection(keep: seq<Kept>, forget: seq<Snap>)

  function GroupOf(all: seq<Snap>, s: Snap): set<Snap>
  {
    set t | t in all && SameGroup(t, s)
  }

  /** The rules that keep `s`, in the order of the policy. */
  ghost function Reasons(group: set<Snap>, s: Snap, rules: seq<Rule>): seq<nat>
  {
    if rules == [] then []
    else
      Reasons(group, s, rules[..|rules| - 1])
      + if KeptBy(group, s, rules[|rules| - 1]) then [rules[|rules| - 1].name] else []
  }

  lemma {:induction false} ReasonsIff(group: set<Snap>, s: Snap, rules: seq<Rule>)
    requires s in group
    ensures Reasons(group, s, rules) != [] <==> s in Survivors(group, rules)
  {
    if rules != [] {
      var init, last := rules[..|rules| - 1], rules[|rules| - 1];
      ReasonsIff(group, s, init);
      assert forall r :: r in rules <==> r in init || r == last;
    }
  }

  ghost predicate NewestFirst(list: seq<Snap>)
  {
    forall i, j :: 0 <= i < j < |list| ==> Newer(list[i], list[j])
  }

  lemma InsertedIsNewestFirst(list: seq<Snap>, i: nat, s: Snap)
    requires NewestFirst(list) && i <= |list|
    requires forall j :: 0 <= j < i ==> Newer(list[j], s)
    requires i < |list| ==> Newer(s, list[i])
    ensures NewestFirst(list[..i] + [s] + list[i..])
  {
    var r := list[..i] + [s] + list[i..];
    forall j | i <= j < |list| ensures Newer(s, list[j]) {
      assert j > i ==> Newer(list[i], list[j]);
    }
    forall j, k | 0 <= j < k < |r| ensures Newer(r[j], r[k]) {
      assert r[j] == if j < i then list[j] else if j == i then s else list[j - 1];
      assert r[k] == if k < i then list[k] else if k == i then s else list[k - 1];
    }
  }

  lemma InsertedIsAll(list: seq<Snap>, i: nat, s: Snap)
    requires i <= |list|
    ensures multiset(list[..i] + [s] + list[i..]) == multiset(list) + multiset{s}
  {
    assert list == list[..i] + list[i..];
  }

  method InsertNewest(list: seq<Snap>, s: Snap) returns (r: seq<Snap>)
    requires NewestFirst(list) && forall t :: t in list ==> t.id != s.id
    ensures NewestFirst(r) && multiset(r) == multiset(list) + multiset{s}
  {
    var i := 0;
    while i < |list| && Newer(list[i], s)
      invariant i <= |list|
      invariant forall j :: 0 <= j < i ==> Newer(list[j], s)
    {
      i := i + 1;
    }
    assert i < |list| ==> list[i] in list;
    InsertedIsNewestFirst(list, i, s);
    InsertedIsAll(list, i, s);
    r := list[..i] + [s] + list[i..];
  }

  method SortNewest(list: seq<Snap>) returns (r: seq<Snap>)
    requires Distinct(list)
    ensures NewestFirst(r) && multiset(r) == multiset(list)
  {
    r := [];
    for i := 0 to |list|
      invariant NewestFirst(r) && multiset(r) == multiset(list[..i])
    {
      assert list[..i + 1] == list[..i] + [list[i]];
      forall t | t in r ensures t.id != list[i].id {
        assert t in multiset(list[..i]);
        var k :| 0 <= k < i && list[k] == t;
      }
      r := InsertNewest(r, list[i]);
    }
    assert list[..|list|] == list;
  }

  /** `list` is the group, newest first. */
  ghost predicate Lists(list: seq<Snap>, group: set<Snap>)
  {
    NewestFirst(list) && forall s :: s in list <==> s in group
  }

  function Buckets(list: seq<Snap>, bucket: Snap -> nat): set<nat>
  {
    set s | s in list :: bucket(s)
  }

  /** In a list newest first, what comes before is what is newer. */
  lemma BeforeIsNewer(list: seq<Snap>, group: set<Snap>, i: nat, bucket: Snap -> nat)
    requires Lists(list, group) && i < |list|
    ensures forall t :: t in group && Newer(t, list[i]) <==> t in list[..i]
    ensures BucketsBefore(group, list[i], bucket) == Buckets(list[..i], bucket)
  {
    forall t ensures t in group && Newer(t, list[i]) <==> t in list[..i] {
      if t in group && Newer(t, list[i]) {
        var k :| 0 <= k < |list| && list[k] == t;
        assert k < i;
        assert list[..i][k] == t;
      }
    }
  }

  /** Whether the list's next snapshot is kept shows in the buckets seen so far. */
  lemma NextIsKeptIff(list: seq<Snap>, group: set<Snap>, i: nat, r: Rule)
    requires Lists(list, group) && i < |list|
    ensures KeptBy(group, list[i], r) <==>
            r.bucket(list[i]) !in Buckets(list[..i], r.bucket) && |Buckets(list[..i], r.bucket)| < r.count
    ensures Buckets(list[..i + 1], r.bucket) == Buckets(list[..i], r.bucket) + {r.bucket(list[i])}
  {
    BeforeIsNewer(list, group, i, r.bucket);
    assert list[..i + 1] == list[..i] + [list[i]];
  }

  /** Once enough buckets have been seen nothing more is kept. */
  lemma RestIsDropped(list: seq<Snap>, group: set<Snap>, i: nat, k: nat, r: Rule)
    requires Lists(list, group) && i <= k < |list| && |Buckets(list[..i], r.bucket)| >= r.count
    ensures !KeptBy(group, list[k], r)
  {
    NextIsKeptIff(list, group, k, r);
    assert list[..k] == list[..i] + list[i..k];
    SubsetSize(Buckets(list[..i], r.bucket), Buckets(list[..k], r.bucket));
  }

  /** What a rule has decided about the first `i` of a list. */
  ghost predicate Decided(list: seq<Snap>, group: set<Snap>, i: nat, r: Rule, kept: set<Id>)
    requires i <= |list|
  {
    && (forall id :: id in kept ==> exists k :: 0 <= k < i && list[k].id == id)
    && (forall k :: 0 <= k < i ==> (list[k].id in kept <==> KeptBy(group, list[k], r)))
  }

  lemma DecideNext(list: seq<Snap>, group: set<Snap>, i: nat, r: Rule, kept: set<Id>)
    requires Lists(list, group) && DistinctIds(group) && i < |list| && Decided(list, group, i, r, kept)
    ensures Decided(list, group, i + 1, r, if KeptBy(group, list[i], r) then kept + {list[i].id} else kept)
  {
    forall k | 0 <= k < i ensures list[k].id != list[i].id {
      assert list[k] in group && list[i] in group && Newer(list[k], list[i]);
    }
    assert list[i].id !in kept;
  }

  lemma OneBucketMore(seen: set<nat>, b: nat)
    ensures |seen + {b}| == if b in seen then |seen| else |seen| + 1
  {
    if b in seen { assert seen + {b} == seen; }
  }

  lemma RestIsDecided(list: seq<Snap>, group: set<Snap>, i: nat, r: Rule, kept: set<Id>)
    requires Lists(list, group) && DistinctIds(group) && i <= |list| && Decided(list, group, i, r, kept)
    requires i < |list| ==> |Buckets(list[..i], r.bucket)| >= r.count
    ensures Decided(list, group, |list|, r, kept)
  {
    forall k | i <= k < |list| ensures !KeptBy(group, list[k], r) && list[k].id !in kept {
      RestIsDropped(list, group, i, k, r);
      forall j | 0 <= j < i ensures list[j].id != list[k].id {
        assert list[j] in group && list[k] in group && Newer(list[j], list[k]);
      }
    }
  }

  /** One rule over one group: it stops once it has seen as many buckets as it counts. */
  method ApplyRule(list: seq<Snap>, ghost group: set<Snap>, r: Rule) returns (kept: set<Id>)
    requires Lists(list, group) && DistinctIds(group)
    ensures Decided(list, group, |list|, r, kept)
  {
    kept := {};
    var seen: set<nat> := {};
    var i := 0;
    while i < |list| && |seen| != r.count
      invariant i <= |list| && seen == Buckets(list[..i], r.bucket) && |seen| <= r.count
      invariant Decided(list, group, i, r, kept)
    {
      NextIsKeptIff(list, group, i, r);
      DecideNext(list, group, i, r, kept);
      OneBucketMore(seen, r.bucket(list[i]));
      if r.bucket(list[i]) !in seen {
        kept := kept + {list[i].id};
      }
      seen := seen + {r.bucket(list[i])};
      i := i + 1;
    }
    RestIsDecided(list, group, i, r, kept);
  }

  lemma SameIndex(all: seq<Snap>, i: nat, j: nat)
    requires Distinct(all) && i < |all| && j < |all| && all[i].id == all[j].id
    ensures i == j
  {
  }

  lemma SameId(all: seq<Snap>, a: Snap, b: Snap)
    requires Distinct(all) && a in all && b in all && a.id == b.id
    ensures a == b
  {
    var i :| 0 <= i < |all| && all[i] == a;
    var j :| 0 <= j < |all| && all[j] == b;
    SameIndex(all, i, j);
  }

  lemma GroupIsDistinct(all: seq<Snap>, s: Snap)
    requires Distinct(all)
    ensures DistinctIds(GroupOf(all, s))
  {
    forall a, b | a in GroupOf(all, s) && b in GroupOf(all, s) && a.id == b.id ensures a == b {
      SameId(all, a, b);
    }
  }

  /** The groups, each in the order the snapshots came. */
  method Members(all: seq<Snap>, s: Snap) returns (group: seq<Snap>)
    requires Distinct(all)
    ensures Distinct(group) && forall t :: t in group <==> t in GroupOf(all, s)
  {
    group := [];
    for i := 0 to |all|
      invariant Distinct(group)
      invariant forall t :: t in group <==> t in all[..i] && SameGroup(t, s)
    {
      assert all[..i + 1] == all[..i] + [all[i]];
      if SameGroup(all[i], s) {
        forall t | t in group ensures t.id != all[i].id {
          var k :| 0 <= k < i && all[k] == t;
        }
        group := group + [all[i]];
      }
    }
    assert all[..|all|] == all;
  }

  /** The reasons found so far are those of the first `n` rules. */
  ghost predicate Reasoned(list: seq<Snap>, group: set<Snap>, rules: seq<Rule>, n: nat, reasons: map<Id, seq<nat>>)
    requires n <= |rules|
  {
    && (forall id :: id in reasons <==> exists s :: s in list && s.id == id)
    && (forall s :: s in list ==> s.id in reasons && reasons[s.id] == Reasons(group, s, rules[..n]))
  }

  lemma {:induction false} ReasonsPush(group: set<Snap>, s: Snap, rules: seq<Rule>, n: nat)
    requires n < |rules|
    ensures Reasons(group, s, rules[..n + 1])
            == Reasons(group, s, rules[..n]) + if KeptBy(group, s, rules[n]) then [rules[n].name] else []
  {
    assert rules[..n + 1][..n] == rules[..n];
  }

  /** All rules over one group. */
  method ApplyRules(list: seq<Snap>, ghost group: set<Snap>, rules: seq<Rule>) returns (reasons: map<Id, seq<nat>>)
    requires Lists(list, group) && DistinctIds(group)
    ensures Reasoned(list, group, rules, |rules|, reasons)
  {
    var ids := set s | s in list :: s.id;
    reasons := map id | id in ids :: [];
    for n := 0 to |rules|
      invariant Reasoned(list, group, rules, n, reasons)
    {
      var kept := ApplyRule(list, group, rules[n]);
      ghost var was := reasons;
      reasons := map id | id in reasons :: reasons[id] + if id in kept then [rules[n].name] else [];
      forall s | s in list ensures s.id in reasons && reasons[s.id] == Reasons(group, s, rules[..n + 1]) {
        ReasonsPush(group, s, rules, n);
        var k :| 0 <= k < |list| && list[k] == s;
        assert was[s.id] == Reasons(group, s, rules[..n]);
      }
    }
    assert rules[..|rules|] == rules;
  }

  ghost function Snaps(keep: seq<Kept>): seq<Snap>
  {
    seq(|keep|, i requires 0 <= i < |keep| => keep[i].snap)
  }

  /** `sel` sorts the snapshots of `list` into kept and forgotten, in their order, each kept one
      with exactly the rules that keep it. */
  ghost predicate Selects(sel: Selection, list: seq<Snap>, all: seq<Snap>, rules: seq<Rule>)
  {
    && NewestFirst(Snaps(sel.keep)) && NewestFirst(sel.forget)
    && multiset(Snaps(sel.keep)) + multiset(sel.forget) == multiset(list)
    && (forall k :: k in sel.keep ==> k.reasons == Reasons(GroupOf(all, k.snap), k.snap, rules) && k.reasons != [])
    && (forall s :: s in sel.forget ==> Reasons(GroupOf(all, s), s, rules) == [])
  }

  lemma GroupsAgree(all: seq<Snap>, s: Snap, t: Snap)
    requires SameGroup(s, t)
    ensures GroupOf(all, s) == GroupOf(all, t)
  {
  }

  ghost predicate ReasonsSoFar(reasons: map<Id, seq<nat>>, all: seq<Snap>, rules: seq<Rule>)
  {
    forall s :: s in all && s.id in reasons ==> reasons[s.id] == Reasons(GroupOf(all, s), s, rules)
  }

  /** The reasons of one group: sorted newest first, then every rule over it. */
  method GroupReasons(all: seq<Snap>, s: Snap, rules: seq<Rule>) returns (reasons: map<Id, seq<nat>>)
    requires Distinct(all) && s in all
    ensures s.id in reasons && ReasonsSoFar(reasons, all, rules)
  {
    var members := Members(all, s);
    var list := SortNewest(members);
    ghost var group := GroupOf(all, s);
    forall t ensures t in list <==> t in group {
      assert t in multiset(list) <==> t in multiset(members);
    }
    GroupIsDistinct(all, s);
    reasons := ApplyRules(list, group, rules);
    assert s in group && s in list;
    assert rules[..|rules|] == rules;
    forall t | t in all && t.id in reasons ensures reasons[t.id] == Reasons(GroupOf(all, t), t, rules) {
      var x :| x in list && x.id == t.id;
      SameId(all, x, t);
      GroupsAgree(all, x, s);
    }
  }

  /** Every group's rules applied once. */
  method AllReasons(all: seq<Snap>, rules: seq<Rule>) returns (reasons: map<Id, seq<nat>>)
    requires Distinct(all)
    ensures ReasonsSoFar(reasons, all, rules) && forall s :: s in all ==> s.id in reasons
  {
    reasons := map[];
    for i := 0 to |all|
      invariant ReasonsSoFar(reasons, all, rules)
      invariant forall k :: 0 <= k < i ==> all[k].id in reasons
    {
      if all[i].id !in reasons {
        var more := GroupReasons(all, all[i], rules);
        reasons := reasons + more;
      }
    }
  }

  method HasRule(rules: seq<Rule>) returns (counts: bool)
    ensures counts <==> exists q :: q in rules && q.count != 0
  {
    counts := false;
    for i := 0 to |rules|
      invariant counts <==> exists q :: q in rules[..i] && q.count != 0
    {
      assert rules[..i + 1] == rules[..i] + [rules[i]];
      counts := counts || rules[i].count != 0;
    }
    assert rules[..|rules|] == rules;
  }

  lemma NextAfter(list: seq<Snap>, i: nat)
    requires NewestFirst(list) && i < |list|
    ensures list[..i + 1] == list[..i] + [list[i]]
    ensures forall t :: t in list[..i] ==> Newer(t, list[i])
  {
  }

  lemma PushOldest(list: seq<Snap>, s: Snap)
    requires NewestFirst(list) && forall t :: t in list ==> Newer(t, s)
    ensures NewestFirst(list + [s])
  {
  }

  lemma AllNewer(part: seq<Snap>, other: seq<Snap>, list: seq<Snap>, s: Snap)
    requires multiset(part) + multiset(other) == multiset(list) && forall t :: t in list ==> Newer(t, s)
    ensures forall t :: t in part || t in other ==> Newer(t, s)
  {
    forall t | t in part || t in other ensures Newer(t, s) {
      assert t in multiset(part) + multiset(other);
      assert t in multiset(list);
    }
  }

  lemma {:induction false} KeepNext(keep: seq<Kept>, forget: seq<Snap>, list: seq<Snap>, all: seq<Snap>,
                                    rules: seq<Rule>, k: Kept)
    requires Selects(Selection(keep, forget), list, all, rules) && forall t :: t in list ==> Newer(t, k.snap)
    requires k.reasons == Reasons(GroupOf(all, k.snap), k.snap, rules) && k.reasons != []
    ensures Selects(Selection(keep + [k], forget), list + [k.snap], all, rules)
  {
    AllNewer(Snaps(keep), forget, list, k.snap);
    PushOldest(Snaps(keep), k.snap);
    assert Snaps(keep + [k]) == Snaps(keep) + [k.snap];
  }

  lemma {:induction false} ForgetNext(keep: seq<Kept>, forget: seq<Snap>, list: seq<Snap>, all: seq<Snap>,
                                      rules: seq<Rule>, s: Snap)
    requires Selects(Selection(keep, forget), list, all, rules) && forall t :: t in list ==> Newer(t, s)
    requires Reasons(GroupOf(all, s), s, rules) == []
    ensures Selects(Selection(keep, forget + [s]), list + [s], all, rules)
  {
    AllNewer(Snaps(keep), forget, list, s);
    PushOldest(forget, s);
  }

  // ----- In times -----

  /** The rule keeps `s`: no snapshot of the same host and paths that is later, or of the same
      instant with a smaller ID, falls in its bucket, and those fall in fewer than `count`. */
  ghost predicate KeptInTime(all: seq<Snap>, s: Snap, r: Rule)
  {
    && (forall t :: (t in all && t.host == s.host && multiset(t.paths) == multiset(s.paths)
                     && (t.time > s.time || (t.time == s.time && t.id < s.id))) ==> r.bucket(t) != r.bucket(s))
    && |set t | t in all && t.host == s.host && multiset(t.paths) == multiset(s.paths)
                && (t.time > s.time || (t.time == s.time && t.id < s.id)) :: r.bucket(t)| < r.count
  }

  lemma KeptByIsInTime(all: seq<Snap>, s: Snap, r: Rule)
    ensures KeptBy(GroupOf(all, s), s, r) <==> KeptInTime(all, s, r)
  {
    var group := GroupOf(all, s);
    assert BucketsBefore(group, s, r.bucket)
           == set t | t in all && t.host == s.host && multiset(t.paths) == multiset(s.paths)
                      && (t.time > s.time || (t.time == s.time && t.id < s.id)) :: r.bucket(t);
    assert forall t :: t in group && Newer(t, s) <==>
                         t in all && t.host == s.host && multiset(t.paths) == multiset(s.paths)
                         && (t.time > s.time || (t.time == s.time && t.id < s.id));
  }

  /** The names of the rules that keep `s`, in the order of the policy. */
  ghost function NamesInTime(all: seq<Snap>, s: Snap, rules: seq<Rule>): seq<nat>
  {
    if rules == [] then []
    else
      NamesInTime(all, s, rules[..|rules| - 1])
      + if KeptInTime(all, s, rules[|rules| - 1]) then [rules[|rules| - 1].name] else []
  }

  lemma {:induction false} ReasonsAreInTime(all: seq<Snap>, s: Snap, rules: seq<Rule>)
    ensures Reasons(GroupOf(all, s), s, rules) == NamesInTime(all, s, rules)
  {
    if rules != [] {
      ReasonsAreInTime(all, s, rules[..|rules| - 1]);
      KeptByIsInTime(all, s, rules[|rules| - 1]);
    }
  }

  /** Later ones first. */
  ghost predicate LatestFirst(list: seq<Snap>)
  {
    forall i, j :: 0 <= i < j < |list| ==>
                     list[i].time > list[j].time || (list[i].time == list[j].time && list[i].id < list[j].id)
  }

  /** The same selection in times and names. */
  ghost predicate SelectsInTime(sel: Selection, all: seq<Snap>, rules: seq<Rule>)
  {
    && LatestFirst(Snaps(sel.keep)) && LatestFirst(sel.forget)
    && (forall s :: s in all ==>
                      var names := NamesInTime(all, s, rules);
                      if names == [] then s in sel.forget else Kept(s, names) in sel.keep)
  }

  lemma {:induction false} SelectionInTime(sel: Selection, all: seq<Snap>, rules: seq<Rule>)
    requires Selects(sel, all, all, rules)
    ensures SelectsInTime(sel, all, rules)
  {
    forall s | s in all
      ensures var names := NamesInTime(all, s, rules);
              if names == [] then s in sel.forget else Kept(s, names) in sel.keep
    {
      ReasonsAreInTime(all, s, rules);
      SelectedByReasons(sel, all, rules, s);
    }
  }

  lemma {:induction false} SelectedByReasons(sel: Selection, all: seq<Snap>, rules: seq<Rule>, s: Snap)
    requires Selects(sel, all, all, rules) && s in all
    ensures var names := Reasons(GroupOf(all, s), s, rules);
            if names == [] then s in sel.forget else Kept(s, names) in sel.keep
  {
    KeptAreSurvivors(sel, all, rules, s);
    ReasonsIff(GroupOf(all, s), s, rules);
    if s in Snaps(sel.keep) {
      var i :| 0 <= i < |sel.keep| && sel.keep[i].snap == s;
      assert sel.keep[i] in sel.keep && sel.keep[i] == Kept(s, sel.keep[i].reasons);
    }
  }

  /** The latest snapshot of a host and set of paths is kept under any policy that counts. */
  lemma {:induction false} LatestIsKept(sel: Selection, all: seq<Snap>, rules: seq<Rule>, s: Snap, r: Rule)
    requires Selects(sel, all, all, rules) && s in all && r in rules && r.count > 0
    requires forall t :: t in all && t.host == s.host && multiset(t.paths) == multiset(s.paths) ==>
               t.time < s.time || (t.time == s.time && s.id <= t.id)
    ensures s in Snaps(sel.keep) && s !in sel.forget
  {
    assert BucketsBefore(GroupOf(all, s), s, r.bucket) == {};
    assert KeptBy(GroupOf(all, s), s, r);
    KeptAreSurvivors(sel, all, rules, s);
  }

  /** Snapshots of other hosts or path sets change nothing about a snapshot's fate. */
  lemma {:induction false} OthersDoNotMatter(sel: Selection, all: seq<Snap>, sel': Selection, all': seq<Snap>,
                                             rules: seq<Rule>, s: Snap)
    requires Selects(sel, all, all, rules) && Selects(sel', all', all', rules) && s in all && s in all'
    requires forall t: Snap :: t.host == s.host && multiset(t.paths) == multiset(s.paths) ==> (t in all <==> t in all')
    ensures s in sel.forget <==> s in sel'.forget
    ensures forall names :: Kept(s, names) in sel.keep <==> Kept(s, names) in sel'.keep
  {
    assert GroupOf(all, s) == GroupOf(all', s);
    SelectedByReasons(sel, all, rules, s);
    SelectedByReasons(sel', all', rules, s);
    KeptAreSurvivors(sel, all, rules, s);
    KeptAreSurvivors(sel', all', rules, s);
    forall names | Kept(s, names) in sel.keep ensures Kept(s, names) in sel'.keep {
      KeptIsNamed(sel, all, rules, Kept(s, names));
    }
    forall names | Kept(s, names) in sel'.keep ensures Kept(s, names) in sel.keep {
      KeptIsNamed(sel', all', rules, Kept(s, names));
    }
  }

  lemma KeptIsNamed(sel: Selection, all: seq<Snap>, rules: seq<Rule>, k: Kept)
    requires Selects(sel, all, all, rules) && k in sel.keep
    ensures k.reasons == Reasons(GroupOf(all, k.snap), k.snap, rules) && k.reasons != []
  {
  }

  /**
   `select`: an empty policy is refused. Keep and forget are the snapshots split in two, newest
   first, and each one's reasons are exactly the rules that keep it in its own group.
   */
  method Select(all: seq<Snap>, rules: seq<Rule>) returns (r: Option<Selection>)
    requires Distinct(all)
    ensures r.None? <==> forall q :: q in rules ==> q.count == 0
    ensures r.Some? ==> Selects(r.value, all, all, rules) && SelectsInTime(r.value, all, rules)
  {
    var counts := HasRule(rules);
    if !counts { return None; }
    var reasons := AllReasons(all, rules);
    var ordered := SortNewest(all);
    var keep: seq<Kept>, forget: seq<Snap> := [], [];
    for i := 0 to |ordered|
      invariant Selects(Selection(keep, forget), ordered[..i], all, rules)
    {
      var s := ordered[i];
      assert s in multiset(ordered);
      NextAfter(ordered, i);
      if reasons[s.id] != [] {
        KeepNext(keep, forget, ordered[..i], all, rules, Kept(s, reasons[s.id]));
        keep := keep + [Kept(s, reasons[s.id])];
      } else {
        ForgetNext(keep, forget, ordered[..i], all, rules, s);
        forget := forget + [s];
      }
    }
    assert ordered[..|ordered|] == ordered;
    r := Some(Selection(keep, forget));
    SelectionInTime(r.value, all, rules);
  }

  /** A selection keeps exactly the survivors of each group. */
  lemma KeptAreSurvivors(sel: Selection, all: seq<Snap>, rules: seq<Rule>, s: Snap)
    requires Selects(sel, all, all, rules) && s in all
    ensures s in Snaps(sel.keep) <==> s in Survivors(GroupOf(all, s), rules)
    ensures s in sel.forget <==> s !in Survivors(GroupOf(all, s), rules)
  {
    ReasonsIff(GroupOf(all, s), s, rules);
    assert s in multiset(all);
    assert s in multiset(Snaps(sel.keep)) + multiset(sel.forget);
    if s in Snaps(sel.keep) {
      var i :| 0 <= i < |sel.keep| && sel.keep[i].snap == s;
      assert sel.keep[i] in sel.keep;
    }
  }

  lemma {:induction false} ReasonsAreStable(group: set<Snap>, rules: seq<Rule>, n: nat, s: Snap)
    requires DistinctIds(group) && s in Survivors(group, rules) && n <= |rules|
    ensures Reasons(Survivors(group, rules), s, rules[..n]) == Reasons(group, s, rules[..n])
    decreases n
  {
    if n > 0 {
      ReasonsAreStable(group, rules, n - 1, s);
      assert rules[..n][..n - 1] == rules[..n - 1];
      SelectIsStable(group, rules, s, rules[n - 1]);
    }
  }

  lemma GroupOfKept(sel: Selection, all: seq<Snap>, rules: seq<Rule>, s: Snap)
    requires Selects(sel, all, all, rules) && s in all
    ensures GroupOf(Snaps(sel.keep), s) == Survivors(GroupOf(all, s), rules)
  {
    forall t ensures t in GroupOf(Snaps(sel.keep), s) <==> t in Survivors(GroupOf(all, s), rules) {
      if t in Snaps(sel.keep) {
        assert t in multiset(Snaps(sel.keep)) + multiset(sel.forget);
        assert t in multiset(all);
      }
      if t in all && SameGroup(t, s) {
        KeptAreSurvivors(sel, all, rules, t);
        GroupsAgree(all, t, s);
      }
    }
  }

  /** Selecting again from what was kept forgets nothing, and keeps each for the same reasons. */
  lemma SelectAgain(sel: Selection, again: Selection, all: seq<Snap>, rules: seq<Rule>, k: Kept)
    requires Distinct(all) && Selects(sel, all, all, rules)
    requires Selects(again, Snaps(sel.keep), Snaps(sel.keep), rules)
    ensures again.forget == []
    ensures k in again.keep ==> k in sel.keep
  {
    if again.forget != [] {
      var s := again.forget[0];
      assert s in again.forget;
      assert s in multiset(Snaps(again.keep)) + multiset(again.forget);
      assert s in multiset(Snaps(sel.keep));
      KeptReasons(sel, all, rules, s);
    }
    if k in again.keep {
      var i :| 0 <= i < |again.keep| && again.keep[i] == k;
      assert Snaps(again.keep)[i] == k.snap;
      assert k.snap in multiset(Snaps(again.keep)) + multiset(again.forget);
      assert k.snap in multiset(Snaps(sel.keep));
      KeptReasons(sel, all, rules, k.snap);
    }
  }

  lemma {:induction false} KeptReasons(sel: Selection, all: seq<Snap>, rules: seq<Rule>, s: Snap)
    requires Distinct(all) && Selects(sel, all, all, rules) && s in Snaps(sel.keep)
    ensures Kept(s, Reasons(GroupOf(Snaps(sel.keep), s), s, rules)) in sel.keep
    ensures Reasons(GroupOf(Snaps(sel.keep), s), s, rules) != []
  {
    var i :| 0 <= i < |sel.keep| && sel.keep[i].snap == s;
    assert sel.keep[i] in sel.keep;
    assert s in multiset(Snaps(sel.keep)) + multiset(sel.forget);
    assert s in multiset(all);
    GroupIsDistinct(all, s);
    GroupOfKept(sel, all, rules, s);
    KeptAreSurvivors(sel, all, rules, s);
    ReasonsAreStable(GroupOf(all, s), rules, |rules|, s);
    assert rules[..|rules|] == rules;
    assert sel.keep[i] == Kept(s, sel.keep[i].reasons);
  }
}
