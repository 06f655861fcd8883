/**
 Pruning: marking the blobs the remaining snapshots need, deciding what to do with each
 stored pack, and the sweep that follows. The sweep is a fixed list of single requests;
 whichever one is the last to run, the bucket it leaves is consistent.
 */
module Prune {
  import opened Blobs
  import opened Index
  import opened Store

  // ----- Mark -----

  datatype MarkError = TreeNotIndexed(tree: Id) | Unreadable(tree: Id)

  datatype MarkResult = Marked | Failed(error: MarkError)

  /** `tree` can be read through `at`: the pack holds it and its plaintext decodes. */
  predicate Readable(g: Forest, b: Bucket, at: Location, tree: Id)
  {
    PackHolds(b, at.packId, tree) && tree in g
  }

  /** Trees recorded since `before` have all their references recorded too. */
  ghost predicate Expanded(g: Forest, before: set<Id>, after: set<Id>)
  {
    forall t, id :: t in after && t !in before && t in g && Refers(g[t], id) ==> id in after
  }

  lemma ExpandedTwice(g: Forest, a: set<Id>, b: set<Id>, c: set<Id>)
    requires Expanded(g, a, b) && Expanded(g, b, c) && b <= c
    ensures Expanded(g, a, c)
  {
  }

  ghost predicate RefersInto(nodes: seq<Node>, ids: set<Id>)
  {
    forall id :: Refers(nodes, id) ==> id in ids
  }

  lemma RefersIntoStep(nodes: seq<Node>, i: nat, before: set<Id>, after: set<Id>)
    requires i < |nodes| && RefersInto(nodes[..i], before) && before <= after
    requires forall id :: NodeRefers(nodes[i], id) ==> id in after
    ensures RefersInto(nodes[..i + 1], after)
  {
    forall id | Refers(nodes[..i + 1], id) ensures id in after {
      var n :| n in nodes[..i + 1] && NodeRefers(n, id);
      assert n in nodes[..i] || n == nodes[i];
      if n in nodes[..i] { assert Refers(nodes[..i], id); }
    }
  }

  /** The walk's bound: it never goes deeper than the indexed trees not yet recorded. */
  ghost predicate Deep(blobs: map<Id, Location>, referenced: set<Id>, depth: nat)
  {
    |blobs.Keys - referenced| < depth
  }

  lemma DeepShrinks(blobs: map<Id, Location>, before: set<Id>, after: set<Id>, depth: nat)
    requires Deep(blobs, before, depth) && before <= after
    ensures Deep(blobs, after, depth)
  {
    var x, y := blobs.Keys - before, blobs.Keys - after;
    assert x - y + y == x;
  }

  lemma DeepStep(blobs: map<Id, Location>, before: set<Id>, t: Id, depth: nat)
    requires Deep(blobs, before, depth) && t in blobs && t !in before
    ensures depth > 0 && Deep(blobs, before + {t}, depth - 1)
  {
    var x, y := blobs.Keys - before, blobs.Keys - (before + {t});
    assert y + {t} == x && t !in y;
  }

  /** `load_tree`: found through the index and readable, or the tree is what blocks the walk. */
  method LoadTree(g: Forest, b: Bucket, blobs: map<Id, Location>, tree: Id) returns (r: MarkResult)
    ensures r.Marked? <==> tree in blobs && Readable(g, b, blobs[tree], tree)
    ensures r.Failed? ==> Blocked(g, b, blobs, tree)
  {
    if tree !in blobs {
      BlockedHere(g, b, blobs, tree);
      return Failed(TreeNotIndexed(tree));
    }
    if !Readable(g, b, blobs[tree], tree) {
      BlockedHere(g, b, blobs, tree);
      return Failed(Unreadable(tree));
    }
    return Marked;
  }

  /** What marking one new tree adds to what its nodes did. */
  lemma TreeMarked(g: Forest, before: set<Id>, tree: Id, after: set<Id>)
    requires tree !in before && before + {tree} <= after
    requires forall id :: id in after && id !in before + {tree} ==> Needs(g, tree, id)
    ensures forall id :: id in after && id !in before ==> Needs(g, tree, id)
    ensures Expanded(g, before + {tree} - {tree}, after) ==> Expanded(g, before, after)
  {
    RootIsNeeded(g, tree);
    assert before + {tree} - {tree} == before;
  }

  lemma DirMarked(g: Forest, t: Id, u: Id, before: set<Id>, after: set<Id>)
    requires t in g && Dir(u) in g[t] && forall id :: id in after && id !in before ==> Needs(g, u, id)
    ensures forall id :: id in after && id !in before ==> Needs(g, t, id)
  {
    forall id | id in after && id !in before ensures Needs(g, t, id) {
      NeedsBelow(g, t, u, id);
    }
  }

  lemma FileMarked(g: Forest, t: Id, content: seq<Id>, before: set<Id>)
    requires t in g && File(content) in g[t]
    ensures forall id :: id in content ==> Needs(g, t, id)
    ensures ChunksAreNotTrees(g) ==> Expanded(g, before, before + set id | id in content)
  {
    forall id | id in content ensures HoldsChunk(g, t, id) && Needs(g, t, id) {
      assert File(content) in g[t] && id in File(content).content;
      NeedsChunk(g, t, id);
    }
  }

  class Marker {
    var referenced: set<Id>

    constructor ()
      ensures referenced == {}
    {
      referenced := {};
    }

    /** Records one node of tree `t`: a subdirectory is walked, a file's chunks are added. */
    method MarkNode(g: Forest, b: Bucket, blobs: map<Id, Location>, t: Id, n: Node, ghost depth: nat)
      returns (r: MarkResult)
      requires t in g && n in g[t] && t in referenced
      requires Deep(blobs, referenced, depth)
      modifies this
      ensures old(referenced) <= referenced
      ensures forall id :: id in referenced && id !in old(referenced) ==> Needs(g, t, id)
      ensures r.Marked? ==> referenced == WalkNode(g, old(referenced), n, depth)
      ensures r.Marked? ==> forall id :: NodeRefers(n, id) ==> id in referenced
      ensures r.Marked? && ChunksAreNotTrees(g) ==> Expanded(g, old(referenced), referenced)
      ensures r.Failed? ==> Blocked(g, b, blobs, t)
      decreases depth, 2
    {
      match n {
        case Dir(u) =>
          r := Mark(g, b, blobs, u, depth);
          DirMarked(g, t, u, old(referenced), referenced);
          if r.Failed? { BlockedBelow(g, b, blobs, t, u); }
        case File(content) =>
          referenced := referenced + set id | id in content;
          FileMarked(g, t, content, old(referenced));
          r := Marked;
        case Symlink =>
          r := Marked;
      }
    }

    /** Records everything reachable from `tree`; shared subtrees are walked once. It
        computes `Walk`, records nothing `tree` does not need, and fails only if some
        needed tree is missing from the index or cannot be read. */
    method Mark(g: Forest, b: Bucket, blobs: map<Id, Location>, tree: Id, ghost depth: nat)
      returns (r: MarkResult)
      requires Deep(blobs, referenced, depth)
      modifies this
      ensures old(referenced) <= referenced
      ensures forall id :: id in referenced && id !in old(referenced) ==> Needs(g, tree, id)
      ensures r.Marked? ==> referenced == Walk(g, old(referenced), tree, depth) && tree in referenced
      ensures r.Marked? && ChunksAreNotTrees(g) ==> Expanded(g, old(referenced), referenced)
      ensures r.Failed? ==> Blocked(g, b, blobs, tree)
      decreases depth, 1
    {
      if tree in referenced {
        return Marked;
      }
      r := MarkNew(g, b, blobs, tree, depth);
    }

    /** A tree met for the first time: recorded, then found, read and walked. */
    method MarkNew(g: Forest, b: Bucket, blobs: map<Id, Location>, tree: Id, ghost depth: nat)
      returns (r: MarkResult)
      requires Deep(blobs, referenced, depth) && tree !in referenced
      modifies this
      ensures old(referenced) <= referenced
      ensures forall id :: id in referenced && id !in old(referenced) ==> Needs(g, tree, id)
      ensures r.Marked? ==> referenced == Walk(g, old(referenced), tree, depth) && tree in referenced
      ensures r.Marked? && ChunksAreNotTrees(g) ==> Expanded(g, old(referenced), referenced)
      ensures r.Failed? ==> Blocked(g, b, blobs, tree)
      decreases depth, 0
    {
      ghost var before := referenced;
      referenced := referenced + {tree};
      r := LoadTree(g, b, blobs, tree);
      if r.Marked? {
        DeepStep(blobs, before, tree, depth);
        r := MarkNodes(g, b, blobs, tree, depth - 1);
      }
      TreeMarked(g, before, tree, referenced);
    }

    /** The loop over one tree's nodes. */
    method MarkNodes(g: Forest, b: Bucket, blobs: map<Id, Location>, t: Id, ghost depth: nat)
      returns (r: MarkResult)
      requires t in g && t in referenced
      requires Deep(blobs, referenced, depth)
      modifies this
      ensures old(referenced) <= referenced
      ensures forall id :: id in referenced && id !in old(referenced) ==> Needs(g, t, id)
      ensures r.Marked? ==> referenced == WalkNodes(g, old(referenced), g[t], depth)
      ensures r.Marked? && ChunksAreNotTrees(g) ==> Expanded(g, old(referenced) - {t}, referenced)
      ensures r.Failed? ==> Blocked(g, b, blobs, t)
      decreases depth, 3
    {
      var nodes := g[t];
      for i := 0 to |nodes|
        invariant old(referenced) <= referenced
        invariant forall id :: id in referenced && id !in old(referenced) ==> Needs(g, t, id)
        invariant ChunksAreNotTrees(g) ==> Expanded(g, old(referenced), referenced)
        invariant RefersInto(nodes[..i], referenced)
        invariant WalkNodes(g, old(referenced), nodes, depth) == WalkNodes(g, referenced, nodes[i..], depth)
      {
        assert Deep(blobs, referenced, depth) by {
          DeepShrinks(blobs, old(referenced), referenced, depth);
        }
        ghost var before := referenced;
        r := MarkNode(g, b, blobs, t, nodes[i], depth);
        if r.Failed? { return; }
        RefersIntoStep(nodes, i, before, referenced);
        if ChunksAreNotTrees(g) { ExpandedTwice(g, old(referenced), before, referenced); }
        assert nodes[i..][1..] == nodes[i + 1..];
      }
      assert nodes[..|nodes|] == nodes;
      r := Marked;
    }
  }

  /** What `Mark` records when every tree it meets can be read: `done` is the visited set
      shared by trees and chunks, and `depth` bounds the recursion. */
  function Walk(g: Forest, done: set<Id>, tree: Id, depth: nat): set<Id>
    decreases depth, 0, 0
  {
    if tree in done || tree !in g || depth == 0 then done
    else WalkNodes(g, done + {tree}, g[tree], depth - 1)
  }

  function WalkNode(g: Forest, done: set<Id>, n: Node, depth: nat): set<Id>
    decreases depth, 1, 0
  {
    match n
    case Dir(u) => Walk(g, done, u, depth)
    case File(content) => done + set id | id in content
    case Symlink => done
  }

  function WalkNodes(g: Forest, done: set<Id>, nodes: seq<Node>, depth: nat): set<Id>
    decreases depth, 2, |nodes|
  {
    if nodes == [] then done else WalkNodes(g, WalkNode(g, done, nodes[0], depth), nodes[1..], depth)
  }

  /** Some tree `root` needs cannot be found through `blobs`, or cannot be read. */
  ghost predicate Blocked(g: Forest, b: Bucket, blobs: map<Id, Location>, root: Id)
  {
    exists t :: ReachesTree(g, root, t) && !(t in blobs && Readable(g, b, blobs[t], t))
  }

  lemma BlockedHere(g: Forest, b: Bucket, blobs: map<Id, Location>, t: Id)
    requires !(t in blobs && Readable(g, b, blobs[t], t))
    ensures Blocked(g, b, blobs, t)
  {
    RootIsNeeded(g, t);
  }

  lemma BlockedBelow(g: Forest, b: Bucket, blobs: map<Id, Location>, t: Id, u: Id)
    requires t in g && Dir(u) in g[t] && Blocked(g, b, blobs, u)
    ensures Blocked(g, b, blobs, t)
  {
    var v :| ReachesTree(g, u, v) && !(v in blobs && Readable(g, b, blobs[v], v));
    ReachesBelow(g, t, u, v);
  }

  ghost predicate NeededByAny(g: Forest, roots: seq<Id>, id: Id)
  {
    exists root :: root in roots && Needs(g, root, id)
  }

  lemma NeededByRoot(g: Forest, roots: seq<Id>, root: Id)
    requires root in roots
    ensures forall id :: Needs(g, root, id) ==> NeededByAny(g, roots, id)
  {
  }

  lemma ClosedCoversAll(g: Forest, ids: set<Id>, roots: seq<Id>)
    requires Closed(g, ids) && forall root :: root in roots ==> root in ids
    ensures forall id :: NeededByAny(g, roots, id) ==> id in ids
  {
    forall root, id | root in roots && Needs(g, root, id) ensures id in ids {
      ClosedCovers(g, ids, root);
    }
  }

  /** What marking the first `n` roots has recorded. */
  ghost predicate MarkedFor(g: Forest, roots: seq<Id>, n: nat, referenced: set<Id>)
    requires n <= |roots|
  {
    && Expanded(g, {}, referenced)
    && (forall root :: root in roots[..n] ==> root in referenced)
    && (forall id :: id in referenced ==> NeededByAny(g, roots, id))
  }

  lemma MarkedOneMore(g: Forest, roots: seq<Id>, n: nat, before: set<Id>, after: set<Id>)
    requires n < |roots| && MarkedFor(g, roots, n, before) && before <= after && roots[n] in after
    requires Expanded(g, before, after)
    requires forall id :: id in after && id !in before ==> Needs(g, roots[n], id)
    ensures MarkedFor(g, roots, n + 1, after)
  {
    NeededByRoot(g, roots, roots[n]);
    ExpandedTwice(g, {}, before, after);
    assert roots[..n + 1] == roots[..n] + [roots[n]];
  }

  lemma MarkedIsExact(g: Forest, roots: seq<Id>, referenced: set<Id>)
    requires MarkedFor(g, roots, |roots|, referenced)
    ensures forall id :: id in referenced <==> NeededByAny(g, roots, id)
  {
    assert roots[..|roots|] == roots;
    assert Closed(g, referenced);
    ClosedCoversAll(g, referenced, roots);
  }

  lemma DeepEnough(blobs: map<Id, Location>, referenced: set<Id>)
    ensures Deep(blobs, referenced, |blobs.Keys| + 1)
  {
    assert blobs.Keys - {} == blobs.Keys;
    DeepShrinks(blobs, {}, referenced, |blobs.Keys| + 1);
  }

  /** Marks every root in turn. The result is exactly what the roots need, and it fails
      only when some root's trees cannot all be read. */
  method MarkAll(g: Forest, b: Bucket, blobs: map<Id, Location>, roots: seq<Id>)
    returns (r: MarkResult, referenced: set<Id>)
    requires ChunksAreNotTrees(g)
    ensures r.Marked? ==> forall id :: id in referenced <==> NeededByAny(g, roots, id)
    ensures r.Failed? ==> exists root :: root in roots && Blocked(g, b, blobs, root)
  {
    var marker := new Marker();
    for i := 0 to |roots|
      invariant fresh(marker) && MarkedFor(g, roots, i, marker.referenced)
    {
      ghost var before := marker.referenced;
      DeepEnough(blobs, before);
      r := marker.Mark(g, b, blobs, roots[i], |blobs.Keys| + 1);
      if r.Failed? {
        return r, marker.referenced;
      }
      MarkedOneMore(g, roots, i, before, marker.referenced);
    }
    referenced := marker.referenced;
    MarkedIsExact(g, roots, referenced);
    r := Marked;
  }

  lemma {:induction false} ClashWalk(forest: Forest, depth: nat)
    requires depth >= 2 && forest == map[1 := [File([2]), Dir(2)], 2 := [File([3])]]
    ensures Walk(forest, {}, 1, depth) == {1, 2}
  {
    var nodes := [File([2]), Dir(2)];
    assert forest[1] == nodes && nodes[1..] == [Dir(2)] && [Dir(2)][1..] == [];
    assert Walk(forest, {}, 1, depth) == WalkNodes(forest, {} + {1}, nodes, depth - 1);
    assert {} + {1} == {1};
    assert WalkNode(forest, {1}, File([2]), depth - 1) == {1, 2};
    assert Walk(forest, {1, 2}, 2, depth - 1) == {1, 2};
    assert WalkNodes(forest, {1, 2}, [Dir(2)], depth - 1) == WalkNodes(forest, {1, 2}, [], depth - 1);
  }

  /** The hypothesis is needed: with a chunk ID equal to a tree ID, marking the file first
      hides the directory's contents. In `forest` the root lists a file whose only chunk has
      the ID of a directory listed after it; however deep, the walk `Mark` computes records 2
      as a chunk, takes the directory for one already walked, and never records chunk 3. */
  lemma {:induction false} ChunkTreeClash(depth: nat)
    requires depth >= 2
    ensures var forest: Forest := map[1 := [File([2]), Dir(2)], 2 := [File([3])]];
            && !ChunksAreNotTrees(forest)
            && Needs(forest, 1, 3)
            && Walk(forest, {}, 1, depth) == {1, 2}
  {
    var forest: Forest := map[1 := [File([2]), Dir(2)], 2 := [File([3])]];
    assert forest[1][0] == File([2]) && forest[1][1] == Dir(2) && forest[2][0] == File([3]);
    assert HoldsChunk(forest, 1, 2) && HoldsChunk(forest, 2, 3);
    NeedsChunk(forest, 2, 3);
    NeedsBelow(forest, 1, 2, 3);
    ClashWalk(forest, depth);
  }
}
