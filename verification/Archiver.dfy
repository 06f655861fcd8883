/**
 The archiver's walk. Entries of a directory are archived in any interleaving, and the
 directory itself is saved once all of them are, so each tree is saved after everything it
 refers to. That is all `BackupProtocol` asks of the blobs a run saves.
 */
module Archiver {
  import opened Blobs
  import opened WriterModel
  import B = BackupProtocol

  /** What is archived. A file's chunks are saved in order, unless it is unchanged or was
      finished by an interrupted run: then they are reused. One that fails to be read part of
      the way is skipped, with some of its chunks saved. */
  datatype Entry =
    | Folder(entries: seq<Entry>, id: Id)
    | Leaf(content: seq<Id>, reused: bool)
    | Link
    | Skipped(saved: seq<Id>)

  function NodeOf(e: Entry): Node
    requires !e.Skipped?
  {
    match e
    case Folder(_, id) => Dir(id)
    case Leaf(content, _) => File(content)
    case Link => Symlink
  }

  /** Every folder's tree decodes to the nodes of its entries, in whatever order; reused chunks
      are among `have`. */
  ghost predicate Represents(g: Forest, have: set<Id>, e: Entry)
  {
    match e
    case Folder(entries, id) =>
      && id in g
      && (forall n :: n in g[id] <==> exists x :: x in entries && !x.Skipped? && NodeOf(x) == n)
      && (forall x :: x in entries ==> Represents(g, have, x))
    case Leaf(content, reused) => reused ==> forall c :: c in content ==> c in have
    case Link => true
    // no chunk has the ID of a tree; of the others `ChunksAreNotTrees` says so
    case Skipped(saved) => forall c :: c in saved ==> c !in g
  }

  // ----- In what order blobs are saved -----

  /** `c` is `a` and `b` shuffled together. */
  ghost predicate Interleaves(a: seq<Id>, b: seq<Id>, c: seq<Id>)
    decreases |c|
  {
    if c == [] then a == [] && b == []
    else
      || (a != [] && a[0] == c[0] && Interleaves(a[1..], b, c[1..]))
      || (b != [] && b[0] == c[0] && Interleaves(a, b[1..], c[1..]))
  }

  /** The orders in which archiving `e` may save blobs. */
  ghost predicate Schedule(e: Entry, order: seq<Id>)
    decreases e, 1
  {
    match e
    case Folder(entries, id) => order != [] && order[|order| - 1] == id && ScheduleAll(entries, order[..|order| - 1])
    case Leaf(content, reused) => order == if reused then [] else content
    case Link => order == []
    case Skipped(saved) => order == saved
  }

  /** Entries side by side, in any interleaving. */
  ghost predicate ScheduleAll(entries: seq<Entry>, order: seq<Id>)
    decreases entries, 0
  {
    if entries == [] then order == []
    else exists a, b :: Schedule(entries[0], a) && ScheduleAll(entries[1..], b) && Interleaves(a, b, order)
  }

  /** The order without any concurrency: one entry after the other. */
  function Walk(e: Entry): seq<Id>
    decreases e, 1
  {
    match e
    case Folder(entries, id) => WalkAll(entries) + [id]
    case Leaf(content, reused) => if reused then [] else content
    case Link => []
    case Skipped(saved) => saved
  }

  function WalkAll(entries: seq<Entry>): seq<Id>
    decreases entries, 0
  {
    if entries == [] then [] else Walk(entries[0]) + WalkAll(entries[1..])
  }

  lemma {:induction false} OneAfterTheOther(a: seq<Id>, b: seq<Id>)
    ensures Interleaves(a, b, a + b)
    decreases |a| + |b|
  {
    if a != [] {
      OneAfterTheOther(a[1..], b);
      assert (a + b)[1..] == a[1..] + b;
    } else if b != [] {
      OneAfterTheOther(a, b[1..]);
      assert (a + b)[1..] == a + b[1..];
    }
  }

  lemma {:induction false} WalkIsASchedule(e: Entry)
    ensures Schedule(e, Walk(e))
    decreases e, 1
  {
    if e.Folder? {
      WalkAllIsASchedule(e.entries);
      assert Walk(e)[..|Walk(e)| - 1] == WalkAll(e.entries);
    }
  }

  lemma {:induction false} WalkAllIsASchedule(entries: seq<Entry>)
    ensures ScheduleAll(entries, WalkAll(entries))
    decreases entries, 0
  {
    if entries != [] {
      WalkIsASchedule(entries[0]);
      WalkAllIsASchedule(entries[1..]);
      OneAfterTheOther(Walk(entries[0]), WalkAll(entries[1..]));
    }
  }

  /** `id` may be saved once `have` is: if it is a tree, all it refers to is there. */
  ghost predicate Ready(g: Forest, have: set<Id>, id: Id)
  {
    id in g ==> (forall x :: Refers(g[id], x) ==> x in have) && (forall u :: Dir(u) in g[id] ==> u in g)
  }

  ghost predicate ChildrenFirst(g: Forest, have: set<Id>, order: seq<Id>)
    decreases |order|
  {
    order != [] ==> Ready(g, have, order[0]) && ChildrenFirst(g, have + {order[0]}, order[1..])
  }

  function Elems(order: seq<Id>): set<Id>
  {
    set id | id in order
  }

  lemma {:induction false} MoreIsEnough(g: Forest, have: set<Id>, more: set<Id>, order: seq<Id>)
    requires ChildrenFirst(g, have, order) && have <= more
    ensures ChildrenFirst(g, more, order)
    decreases |order|
  {
    if order != [] {
      MoreIsEnough(g, have + {order[0]}, more + {order[0]}, order[1..]);
    }
  }

  /** Interleaving orders that put children first gives another one. */
  lemma {:induction false} InterleavedChildrenFirst(g: Forest, have: set<Id>, a: seq<Id>, b: seq<Id>, c: seq<Id>)
    requires ChildrenFirst(g, have, a) && ChildrenFirst(g, have, b) && Interleaves(a, b, c)
    ensures ChildrenFirst(g, have, c)
    decreases |c|
  {
    if c != [] {
      if a != [] && a[0] == c[0] && Interleaves(a[1..], b, c[1..]) {
        MoreIsEnough(g, have, have + {c[0]}, b);
        InterleavedChildrenFirst(g, have + {c[0]}, a[1..], b, c[1..]);
      } else {
        MoreIsEnough(g, have, have + {c[0]}, a);
        InterleavedChildrenFirst(g, have + {c[0]}, a, b[1..], c[1..]);
      }
    }
  }

  lemma FirstAndRest(order: seq<Id>)
    requires order != []
    ensures Elems(order) == {order[0]} + Elems(order[1..])
  {
    assert order == [order[0]] + order[1..];
  }

  lemma {:induction false} InterleavedElems(a: seq<Id>, b: seq<Id>, c: seq<Id>)
    requires Interleaves(a, b, c)
    ensures Elems(c) == Elems(a) + Elems(b)
    decreases |c|
  {
    if c != [] {
      FirstAndRest(c);
      if a != [] && a[0] == c[0] && Interleaves(a[1..], b, c[1..]) {
        InterleavedElems(a[1..], b, c[1..]);
        FirstAndRest(a);
      } else {
        InterleavedElems(a, b[1..], c[1..]);
        FirstAndRest(b);
      }
    }
  }

  lemma {:induction false} ChunksChildrenFirst(g: Forest, have: set<Id>, order: seq<Id>)
    requires forall c :: c in order ==> c !in g
    ensures ChildrenFirst(g, have, order)
    decreases |order|
  {
    if order != [] {
      ChunksChildrenFirst(g, have + {order[0]}, order[1..]);
    }
  }

  lemma {:induction false} ThenOneMore(g: Forest, have: set<Id>, order: seq<Id>, id: Id)
    requires ChildrenFirst(g, have, order) && Ready(g, have + Elems(order), id)
    ensures ChildrenFirst(g, have, order + [id])
    decreases |order|
  {
    if order == [] {
      assert have + Elems([]) == have && ([] + [id])[1..] == [];
    } else {
      assert order == [order[0]] + order[1..];
      assert have + Elems(order) == have + {order[0]} + Elems(order[1..]);
      ThenOneMore(g, have + {order[0]}, order[1..], id);
      assert (order + [id])[1..] == order[1..] + [id];
    }
  }

  predicate EntryRefers(e: Entry, id: Id)
  {
    !e.Skipped? && NodeRefers(NodeOf(e), id)
  }

  /** What an entry's node refers to is there once it has been archived, and its chunks are no
      trees: some tree lists it. */
  ghost predicate Archived(g: Forest, have: set<Id>, e: Entry, order: seq<Id>)
  {
    ChildrenFirst(g, have, order) && forall x :: EntryRefers(e, x) ==> x in have + Elems(order)
  }

  /** Archiving puts children first, however its tasks interleave. */
  lemma {:induction false} ScheduleIsArchived(g: Forest, have: set<Id>, e: Entry, order: seq<Id>)
    requires ChunksAreNotTrees(g) && Represents(g, have, e) && Schedule(e, order)
    requires e.Leaf? ==> exists t :: t in g && File(e.content) in g[t]
    ensures Archived(g, have, e, order)
    decreases e, 1
  {
    match e
    case Folder(entries, id) =>
      var before := order[..|order| - 1];
      assert order == before + [id];
      forall x | x in entries && x.Leaf? ensures exists t :: t in g && File(x.content) in g[t] {
        assert NodeOf(x) in g[id];
      }
      ScheduleAllIsArchived(g, have, entries, before);
      FolderIsReady(g, have, entries, id, before);
      ThenOneMore(g, have, before, id);
    case Leaf(content, reused) =>
      var t :| t in g && File(content) in g[t];
      forall c | c in content ensures c !in g {
        assert HoldsChunk(g, t, c);
      }
      ChunksChildrenFirst(g, have, order);
    case Skipped(saved) => ChunksChildrenFirst(g, have, order);
    case Link =>
  }

  lemma FolderIsReady(g: Forest, have: set<Id>, entries: seq<Entry>, id: Id, before: seq<Id>)
    requires Represents(g, have, Folder(entries, id))
    requires forall e, x :: e in entries && EntryRefers(e, x) ==> x in have + Elems(before)
    ensures Ready(g, have + Elems(before), id)
  {
    forall x | Refers(g[id], x) ensures x in have + Elems(before) {
      var n :| n in g[id] && NodeRefers(n, x);
      var e :| e in entries && !e.Skipped? && NodeOf(e) == n;
    }
    forall u | Dir(u) in g[id] ensures u in g {
      var e :| e in entries && !e.Skipped? && NodeOf(e) == Dir(u);
      assert Represents(g, have, e);
    }
  }

  lemma {:induction false} ScheduleAllIsArchived(g: Forest, have: set<Id>, entries: seq<Entry>, order: seq<Id>)
    requires ChunksAreNotTrees(g) && ScheduleAll(entries, order)
    requires forall e :: e in entries ==> Represents(g, have, e)
    requires forall e :: e in entries && e.Leaf? ==> exists t :: t in g && File(e.content) in g[t]
    ensures ChildrenFirst(g, have, order)
    ensures forall e, x :: e in entries && EntryRefers(e, x) ==> x in have + Elems(order)
    decreases entries, 0
  {
    if entries != [] {
      var a, b :| Schedule(entries[0], a) && ScheduleAll(entries[1..], b) && Interleaves(a, b, order);
      assert entries[0] in entries;
      ScheduleIsArchived(g, have, entries[0], a);
      ScheduleAllIsArchived(g, have, entries[1..], b);
      InterleavedChildrenFirst(g, have, a, b, order);
      InterleavedElems(a, b, order);
      forall e, x | e in entries && EntryRefers(e, x) ensures x in have + Elems(order) {
        if e == entries[0] {
          assert x in have + Elems(a);
        } else {
          assert e in entries[1..] && x in have + Elems(b);
        }
      }
    }
  }

  // ----- In a run -----

  /** Whatever a running backup or anybody else does, what its trees may mention stays. */
  lemma UsableGrows(g: Forest, s: B.State, e: B.Event, p: B.Proc)
    requires B.Enabled(g, s, e) && B.ActorOf(s, p).Running? && B.ActorOf(B.Next(g, s, e), p).Running?
    ensures B.ActorOf(s, p).usable <= B.ActorOf(B.Next(g, s, e), p).usable
    ensures e.SaveBlob? && e.p == p && !Refuses(B.ActorOf(s, p).w, e.id) ==>
              e.id in B.ActorOf(B.Next(g, s, e), p).usable
  {
  }

  /** From state `from` to state `to` of a run, `p` is running a backup. */
  ghost predicate RunsFrom(g: Forest, states: seq<B.State>, events: seq<B.Event>, p: B.Proc, from: nat, to: nat)
  {
    && from <= to < |states| && |states| == |events| + 1
    && (forall i :: from <= i <= to ==> B.ActorOf(states[i], p).Running?)
    && (forall i :: from <= i < to ==>
          B.Enabled(g, states[i], events[i]) && states[i + 1] == B.Next(g, states[i], events[i]))
  }

  ghost predicate SavedBy(states: seq<B.State>, events: seq<B.Event>, p: B.Proc, from: nat, to: nat, id: Id)
    requires to < |states| && |states| == |events| + 1
  {
    exists j :: from <= j < to && events[j] == B.SaveBlob(p, id)
                && B.ActorOf(states[j], p).Running? && !Refuses(B.ActorOf(states[j], p).w, id)
  }

  lemma {:induction false} UsableStays(g: Forest, states: seq<B.State>, events: seq<B.Event>, p: B.Proc, from: nat,
                                       to: nat)
    requires RunsFrom(g, states, events, p, from, to)
    ensures B.ActorOf(states[from], p).usable <= B.ActorOf(states[to], p).usable
    decreases if from <= to then to - from else 0
  {
    if from < to {
      assert B.ActorOf(states[from + 1], p).Running?;
      UsableGrows(g, states[from], events[from], p);
      UsableStays(g, states, events, p, from + 1, to);
    }
  }

  lemma {:induction false} SavedIsUsable(g: Forest, states: seq<B.State>, events: seq<B.Event>, p: B.Proc, from: nat,
                                         to: nat, id: Id)
    requires RunsFrom(g, states, events, p, from, to) && SavedBy(states, events, p, from, to, id)
    ensures id in B.ActorOf(states[to], p).usable
  {
    var j :| from <= j < to && events[j] == B.SaveBlob(p, id) && !Refuses(B.ActorOf(states[j], p).w, id);
    UsableGrows(g, states[j], events[j], p);
    UsableStays(g, states, events, p, j + 1, to);
  }

  lemma {:induction false} NextIsReady(g: Forest, have: set<Id>, order: seq<Id>, n: nat)
    requires ChildrenFirst(g, have, order) && n < |order|
    ensures Ready(g, have + Elems(order[..n]), order[n])
    decreases |order|
  {
    if n == 0 {
      assert have + Elems(order[..0]) == have;
    } else {
      NextIsReady(g, have + {order[0]}, order[1..], n - 1);
      assert order[..n] == [order[0]] + order[1..][..n - 1];
      assert have + {order[0]} + Elems(order[1..][..n - 1]) == have + Elems(order[..n]);
    }
  }

  /** The walk never waits for the protocol: with the first `n` blobs of its order saved,
      whatever else has happened meanwhile, saving the next one is open to it. */
  lemma {:induction false} WalkIsEnabled(g: Forest, states: seq<B.State>, events: seq<B.Event>, p: B.Proc, from: nat,
                                         to: nat,
                                         have: set<Id>, root: Entry, order: seq<Id>, n: nat)
    requires ChunksAreNotTrees(g) && root.Folder? && Represents(g, have, root) && Schedule(root, order) && n < |order|
    requires RunsFrom(g, states, events, p, from, to) && have <= B.ActorOf(states[from], p).usable
    requires forall k :: 0 <= k < n ==> SavedBy(states, events, p, from, to, order[k])
    ensures B.Enabled(g, states[to], B.SaveBlob(p, order[n]))
  {
    ScheduleIsArchived(g, have, root, order);
    NextIsReady(g, have, order, n);
    UsableStays(g, states, events, p, from, to);
    forall k | 0 <= k < n ensures order[k] in B.ActorOf(states[to], p).usable {
      SavedIsUsable(g, states, events, p, from, to, order[k]);
    }
    assert have + Elems(order[..n]) <= B.ActorOf(states[to], p).usable;
  }

  /** And once all of them are, the root may be published, as far as the trees go. */
  lemma {:induction false} WalkedRootIsUsable(g: Forest, states: seq<B.State>, events: seq<B.Event>, p: B.Proc,
                                              from: nat,
                                              to: nat, have: set<Id>, root: Entry, order: seq<Id>)
    requires root.Folder? && Represents(g, have, root) && Schedule(root, order)
    requires RunsFrom(g, states, events, p, from, to)
    requires forall k :: 0 <= k < |order| ==> SavedBy(states, events, p, from, to, order[k])
    ensures root.id in B.ActorOf(states[to], p).usable && root.id in g
  {
    SavedIsUsable(g, states, events, p, from, to, order[|order| - 1]);
  }
}
