/**
 Blobs and the trees that refer to them. A blob ID is a keyed hash of its plaintext,
 so what a tree ID decodes to never changes: `Forest` is that fixed map. Reachability
 is stated by descending paths, so it makes sense for any forest.
 */
module Blobs {
  type Id = nat

  datatype Node = Dir(subtree: Id) | File(content: seq<Id>) | Symlink

  /** Tree ID to the nodes its plaintext decodes to. */
  type Forest = map<Id, seq<Node>>

  predicate NodeRefers(n: Node, id: Id)
  {
    match n
    case Dir(t) => t == id
    case File(content) => id in content
    case Symlink => false
  }

  predicate Refers(nodes: seq<Node>, id: Id)
  {
    exists n :: n in nodes && NodeRefers(n, id)
  }

  /** `p` goes down from its first tree, one directory entry at a time. */
  ghost predicate Descends(g: Forest, p: seq<Id>)
  {
    && |p| > 0
    && forall i :: 0 <= i < |p| - 1 ==> p[i] in g && Dir(p[i + 1]) in g[p[i]]
  }

  ghost predicate ReachesTree(g: Forest, root: Id, t: Id)
  {
    exists p :: Descends(g, p) && p[0] == root && p[|p| - 1] == t
  }

  ghost predicate HoldsChunk(g: Forest, t: Id, id: Id)
  {
    t in g && exists n :: n in g[t] && n.File? && id in n.content
  }

  /** Restoring `root` reads `id`: as a directory below it, or as a chunk of some file. */
  ghost predicate Needs(g: Forest, root: Id, id: Id)
  {
    ReachesTree(g, root, id) || exists t :: ReachesTree(g, root, t) && HoldsChunk(g, t, id)
  }

  /** No file chunk has the ID of a tree. */
  ghost predicate ChunksAreNotTrees(g: Forest)
  {
    forall t, id :: HoldsChunk(g, t, id) ==> id !in g
  }

  /** Every directory below `root` decodes. */
  ghost predicate Decodes(g: Forest, root: Id)
  {
    forall t :: ReachesTree(g, root, t) ==> t in g
  }

  /** `ids` contains everything the trees inside it refer to. */
  ghost predicate Closed(g: Forest, ids: set<Id>)
  {
    forall t, id :: t in ids && t in g && Refers(g[t], id) ==> id in ids
  }

  lemma RootIsNeeded(g: Forest, root: Id)
    ensures ReachesTree(g, root, root) && Needs(g, root, root)
  {
    assert Descends(g, [root]);
  }

  lemma ReachesBelow(g: Forest, t: Id, u: Id, v: Id)
    requires t in g && Dir(u) in g[t] && ReachesTree(g, u, v)
    ensures ReachesTree(g, t, v)
  {
    var p :| Descends(g, p) && p[0] == u && p[|p| - 1] == v;
    var q := [t] + p;
    assert forall i :: 0 < i < |q| ==> q[i] == p[i - 1];
    assert Descends(g, q);
  }

  /** What a subdirectory needs, its parent needs. */
  lemma NeedsBelow(g: Forest, t: Id, u: Id, id: Id)
    requires t in g && Dir(u) in g[t] && Needs(g, u, id)
    ensures Needs(g, t, id)
  {
    if ReachesTree(g, u, id) {
      ReachesBelow(g, t, u, id);
    } else {
      var v :| ReachesTree(g, u, v) && HoldsChunk(g, v, id);
      ReachesBelow(g, t, u, v);
    }
  }

  lemma NeedsChunk(g: Forest, t: Id, id: Id)
    requires HoldsChunk(g, t, id)
    ensures Needs(g, t, id)
  {
    RootIsNeeded(g, t);
  }

  lemma {:induction false} ClosedCoversPath(g: Forest, ids: set<Id>, p: seq<Id>)
    requires Closed(g, ids) && Descends(g, p) && p[0] in ids
    ensures p[|p| - 1] in ids
    decreases |p|
  {
    if |p| > 1 {
      var q := p[..|p| - 1];
      assert Descends(g, q);
      ClosedCoversPath(g, ids, q);
      var t := p[|p| - 2];
      assert NodeRefers(Dir(p[|p| - 1]), p[|p| - 1]) && Dir(p[|p| - 1]) in g[t];
      assert Refers(g[t], p[|p| - 1]);
    }
  }

  /** A closed set holding a root holds everything restoring that root needs. */
  lemma ClosedCovers(g: Forest, ids: set<Id>, root: Id)
    requires Closed(g, ids) && root in ids
    ensures forall id :: Needs(g, root, id) ==> id in ids
  {
    forall t | ReachesTree(g, root, t) ensures t in ids {
      var p :| Descends(g, p) && p[0] == root && p[|p| - 1] == t;
      ClosedCoversPath(g, ids, p);
    }
    forall t, id | ReachesTree(g, root, t) && HoldsChunk(g, t, id) ensures id in ids {
      var n :| n in g[t] && n.File? && id in n.content;
      assert NodeRefers(n, id);
      assert Refers(g[t], id);
    }
  }

  /** Every directory entry of a tree in `ids` names something that decodes. */
  ghost predicate DirsDecode(g: Forest, ids: set<Id>)
  {
    forall t, u :: t in ids && t in g && Dir(u) in g[t] ==> u in g
  }

  lemma ClosedDecodes(g: Forest, ids: set<Id>, root: Id)
    requires Closed(g, ids) && DirsDecode(g, ids) && root in ids && root in g
    ensures Decodes(g, root)
  {
    forall t | ReachesTree(g, root, t) ensures t in g {
      var p :| Descends(g, p) && p[0] == root && p[|p| - 1] == t;
      if |p| > 1 {
        var q := p[..|p| - 1];
        assert Descends(g, q);
        ClosedCoversPath(g, ids, q);
        assert q[|q| - 1] == p[|p| - 2];
        assert p[|p| - 2] in g && Dir(p[|p| - 1]) in g[p[|p| - 2]];
      }
    }
  }
}
