/** Collecting content objects that no entry of the log refers to. */
module Garbage {
  // Collecting content objects nothing refers to. After pruning, a compaction reads the log
  // again, lists the objects, and deletes those that are old and that no entry names, while
  // other devices go on uploading and logging.
  //
  // Hypotheses of a run: an entry is logged while a visible entry names its object, or within
  // `patience` of the object's upload; a collection takes no longer than `sweep`, and the two
  // fit into the retention time (`Prompt`); and nobody uploads again, under the same key, an
  // object the collection has listed as garbage (`NoReupload`). Keys are derived from path
  // and content, so restoring an old version of a file does reuse its key.

  import opened Options
  import opened Ordering
  import opened Manifest
  import M = MirrorProtocol

  type Key = Text

  datatype Limits = Limits(retention: nat, patience: nat, sweep: nat)

  /** `listed` is what the collection found in the bucket: when each object was stored. */
  datatype Collection =
    | Idle
    | Marked(began: nat, referenced: set<Key>)
    | Deleting(began: nat, referenced: set<Key>, listed: map<Key, nat>)

  /** `objects` says when each object was stored. `stored` remembers it for deleted ones too. */
  datatype State = State(mirror: M.State, clock: nat, objects: map<Key, nat>, collection: Collection,
                         stored: map<Key, nat>)

  datatype Event =
    | Mirror(e: M.Event)
    | Tick(to: nat)
    | Upload(key: Key)
    | Mark
    | List
    | Delete(key: Key)
    | Finish

  predicate Expired(at: nat, retention: nat, now: nat)
  {
    at <= now && now - at >= retention
  }

  function KeysOf(entries: set<DeltaEntry>): set<Key>
  {
    set e | e in entries :: e.objectKey
  }

  /** The entries a reader of the newest snapshot and the log would see. */
  function Seen(s: State): set<DeltaEntry>
  {
    M.Visible(s.mirror, s.mirror.top)
  }

  ghost predicate Enabled(l: Limits, s: State, e: Event)
  {
    match e
    case Mirror(m) =>
      // collecting is the last thing a compaction does
      M.Enabled(s.mirror, m) && (!s.collection.Idle? ==> !m.CompactDelete? && !m.CompactDropOld? && !m.CompactEnd?)
    case Tick(to) => to >= s.clock
    case Upload(key) => true
    case Mark => s.collection.Idle? && s.mirror.compactor.Pruning?
    case List => s.collection.Marked?
    case Delete(key) =>
      && s.collection.Deleting? && key in s.collection.listed && key !in s.collection.referenced
      && Expired(s.collection.listed[key], l.retention, s.clock)
    case Finish => !s.collection.Idle?
  }

  ghost function Next(l: Limits, s: State, e: Event): State
    requires Enabled(l, s, e)
  {
    match e
    case Mirror(m) => s.(mirror := M.Next(s.mirror, m))
    case Tick(to) => s.(clock := to)
    case Upload(key) => s.(objects := s.objects[key := s.clock], stored := s.stored[key := s.clock])
    case Mark =>
      var all := s.mirror.compactor.manifest.Values + M.EntriesUnder(s.mirror.log, s.mirror.log.Keys);
      s.(collection := Marked(s.clock, KeysOf(all)))
    case List => s.(collection := Deleting(s.collection.began, s.collection.referenced, s.objects))
    case Delete(key) => s.(objects := s.objects - {key})
    case Finish => s.(collection := Idle)
  }

  /** A collection that marks and lists may delete exactly the objects that no entry of its
      manifest and none in the log names, and that are as old as the retention time. */
  lemma DeletableIff(l: Limits, s: State, key: Key)
    requires Enabled(l, s, Mark) && Enabled(l, Next(l, s, Mark), List)
    ensures var t := Next(l, Next(l, s, Mark), List);
            Enabled(l, t, Delete(key)) <==>
              && key in s.objects && s.objects[key] + l.retention <= s.clock
              && (forall p :: p in s.mirror.compactor.manifest ==> s.mirror.compactor.manifest[p].objectKey != key)
              && forall k, d :: k in s.mirror.log && d in s.mirror.log[k] ==> d.objectKey != key
  {
    var all := s.mirror.compactor.manifest.Values + M.EntriesUnder(s.mirror.log, s.mirror.log.Keys);
    assert key in KeysOf(all) <==> exists d :: d in all && d.objectKey == key;
    forall p | p in s.mirror.compactor.manifest ensures s.mirror.compactor.manifest[p] in all {
    }
    forall k, d | k in s.mirror.log && d in s.mirror.log[k] ensures d in all {
    }
  }

  // ----- Hypotheses -----

  predicate Recent(l: Limits, s: State, key: Key)
  {
    key in s.stored && s.clock < s.stored[key] + l.patience
  }

  /** A live entry is logged soon after its upload; a tombstone names the object of the
      version it buries. */
  ghost predicate Prompt(l: Limits, s: State, e: Event)
  {
    && l.patience + l.sweep <= l.retention
    && (!s.collection.Idle? ==> s.clock <= s.collection.began + l.sweep)
    && (e.Mirror? && e.e.Log? ==>
          forall x :: x in e.e.deltas ==> x.objectKey in KeysOf(Seen(s)) || Recent(l, s, x.objectKey))
  }

  predicate Garbage(c: Collection, key: Key)
  {
    c.Deleting? && key in c.listed && key !in c.referenced
  }

  predicate NoReupload(s: State, e: Event)
  {
    e.Upload? ==> !Garbage(s.collection, e.key)
  }

  // ----- The invariant -----

  predicate ObjectsInv(l: Limits, s: State)
  {
    && (forall k :: k in s.objects ==> k in s.stored && s.objects[k] == s.stored[k])
    && (forall k :: k in s.stored && s.clock < s.stored[k] + l.retention ==> k in s.objects)
    && (forall k :: k in s.stored ==> s.stored[k] <= s.clock)
  }

  /** Every version a reader can see is there. */
  predicate SeenInv(s: State)
  {
    forall k :: k in KeysOf(Seen(s)) ==> k in s.objects
  }

  /** A collection spares whatever is visible: it is referenced, or too young all along. */
  predicate Spared(l: Limits, s: State, key: Key)
  {
    !s.collection.Idle? ==>
      key in s.collection.referenced || (key in s.stored && s.stored[key] + l.retention > s.collection.began + l.sweep)
  }

  ghost predicate CollectInv(l: Limits, s: State)
  {
    && (!s.collection.Idle? ==> s.mirror.compactor.Pruning? && s.collection.began <= s.clock)
    && (forall k :: k in KeysOf(Seen(s)) ==> Spared(l, s, k))
    && (forall k :: Garbage(s.collection, k) ==> k in s.stored && s.stored[k] == s.collection.listed[k])
  }

  /** What a compactor has folded but not stored yet was visible, and still is. */
  ghost predicate FoldInv(s: State)
  {
    s.mirror.compactor.Folding? ==> s.mirror.compactor.manifest.Values <= Seen(s)
  }

  ghost predicate Inv(l: Limits, s: State)
  {
    M.Inv(s.mirror) && ObjectsInv(l, s) && SeenInv(s) && CollectInv(l, s) && FoldInv(s)
  }

  /** Nothing but logging makes an entry visible: storing a snapshot shows no new ones. */
  lemma SeenGrows(s: State, m: M.Event)
    requires M.Inv(s.mirror) && FoldInv(s) && M.Enabled(s.mirror, m)
    ensures var t := s.(mirror := M.Next(s.mirror, m));
            Seen(t) <= Seen(s) + if m.Log? then Elems(m.deltas) else {}
  {
    match m
    case Log(d, deltas) => M.NextKeyIsNew(s.mirror, d);
    case CompactPut(gen) => M.LatestIsTop(s.mirror, gen);
    case CompactVerify(gen) => M.LatestIsTop(s.mirror, gen);
    case CompactDropOld =>
    case _ =>
  }

  lemma FoldStays(s: State, m: M.Event)
    requires M.Inv(s.mirror) && FoldInv(s) && M.Enabled(s.mirror, m)
    ensures FoldInv(s.(mirror := M.Next(s.mirror, m)))
  {
    match m
    case CompactRead(d, gen, folded) =>
      M.LatestIsTop(s.mirror, gen);
      M.MergeKeeps(folded, Seen(s));
    case Log(d, deltas) =>
      if s.mirror.compactor.Folding? {
        M.NextKeyIsNew(s.mirror, d);
        LogShows(s, d, deltas);
      }
    case _ =>
  }

  lemma LogShows(s: State, d: Device, deltas: seq<DeltaEntry>)
    requires M.Inv(s.mirror) && M.Enabled(s.mirror, M.Log(d, deltas))
    ensures Seen(s) <= Seen(s.(mirror := M.Logged(s.mirror, d, deltas)))
  {
    M.NextKeyIsNew(s.mirror, d);
    var t := M.Logged(s.mirror, d, deltas);
    var k := M.LogKey(M.PassOf(s.mirror, d).lamport, d, M.PassOf(s.mirror, d).next);
    M.LogEntries(s.mirror.log, k, deltas);
    assert t.log.Keys == s.mirror.log.Keys + {k};
  }

  lemma MirrorKeepsInv(l: Limits, s: State, m: M.Event)
    requires Inv(l, s) && Enabled(l, s, Mirror(m)) && Prompt(l, s, Mirror(m))
    ensures Inv(l, Next(l, s, Mirror(m)))
  {
    var t := Next(l, s, Mirror(m));
    M.NextKeepsInv(s.mirror, m);
    SeenGrows(s, m);
    FoldStays(s, m);
    forall k | k in KeysOf(Seen(t)) ensures k in s.objects && Spared(l, s, k) {
      var x :| x in Seen(t) && x.objectKey == k;
      if x in Seen(s) {
        assert k in KeysOf(Seen(s));
      } else {
        assert m.Log? && x in m.deltas;
      }
    }
  }

  lemma UploadKeepsInv(l: Limits, s: State, key: Key)
    requires Inv(l, s) && NoReupload(s, Upload(key)) && Enabled(l, s, Upload(key))
    ensures Inv(l, Next(l, s, Upload(key)))
  {
    var t := Next(l, s, Upload(key));
    forall k | k in KeysOf(Seen(t)) ensures Spared(l, t, k) {
      assert Spared(l, s, k);
    }
  }

  /** Once the log is read again, everything visible is referenced. */
  lemma MarkKeepsInv(l: Limits, s: State)
    requires Inv(l, s) && Enabled(l, s, Mark)
    ensures Inv(l, Next(l, s, Mark))
  {
    assert M.SnapshotAt(s.mirror.snaps, s.mirror.top) == s.mirror.compactor.manifest;
  }

  /** What is deleted is not visible, and not young. */
  lemma DeleteKeepsInv(l: Limits, s: State, key: Key)
    requires Inv(l, s) && Enabled(l, s, Delete(key)) && Prompt(l, s, Delete(key))
    ensures key !in KeysOf(Seen(s))
    ensures Inv(l, Next(l, s, Delete(key)))
  {
    assert Garbage(s.collection, key);
    assert key in KeysOf(Seen(s)) ==> Spared(l, s, key);
  }

  lemma NextKeepsInv(l: Limits, s: State, e: Event)
    requires Inv(l, s) && Enabled(l, s, e) && Prompt(l, s, e) && NoReupload(s, e)
    ensures Inv(l, Next(l, s, e))
  {
    match e
    case Mirror(m) => MirrorKeepsInv(l, s, m);
    case Tick(to) =>
      forall k | k in KeysOf(Seen(s)) ensures Spared(l, Next(l, s, e), k) {
        assert Spared(l, s, k);
      }
    case Upload(key) => UploadKeepsInv(l, s, key);
    case Mark => MarkKeepsInv(l, s);
    case List =>
      forall k | k in KeysOf(Seen(s)) ensures Spared(l, Next(l, s, e), k) {
        assert Spared(l, s, k);
      }
    case Delete(key) => DeleteKeepsInv(l, s, key);
    case Finish =>
  }

  // ----- Whole runs -----

  ghost predicate ValidRun(l: Limits, s: State, es: seq<Event>)
    decreases es
  {
    es != [] ==> Enabled(l, s, es[0]) && ValidRun(l, Next(l, s, es[0]), es[1..])
  }

  ghost function After(l: Limits, s: State, es: seq<Event>): State
    requires ValidRun(l, s, es)
    decreases es
  {
    if es == [] then s else After(l, Next(l, s, es[0]), es[1..])
  }

  ghost predicate Careful(l: Limits, s: State, es: seq<Event>)
    requires ValidRun(l, s, es)
    decreases es
  {
    es != [] ==> Prompt(l, s, es[0]) && NoReupload(s, es[0]) && Careful(l, Next(l, s, es[0]), es[1..])
  }

  ghost predicate Init(s: State)
  {
    M.Init(s.mirror) && s.objects == map[] && s.stored == map[] && s.collection.Idle?
  }

  lemma InitInv(l: Limits, s: State)
    requires Init(s)
    ensures Inv(l, s)
  {
    M.InitInv(s.mirror);
  }

  lemma {:induction false} RunKeepsInv(l: Limits, s: State, es: seq<Event>)
    requires Inv(l, s) && ValidRun(l, s, es) && Careful(l, s, es)
    ensures Inv(l, After(l, s, es))
    decreases es
  {
    if es != [] {
      NextKeepsInv(l, s, es[0]);
      RunKeepsInv(l, Next(l, s, es[0]), es[1..]);
    }
  }

  /** In every run, at every moment of any compaction or collection, every version the merged
      manifest names, live or buried, can still be fetched. */
  lemma {:induction false} EveryVersionStays(l: Limits, s0: State, es: seq<Event>, gen: nat, m: Entries, p: Path)
    requires Init(s0) && ValidRun(l, s0, es) && Careful(l, s0, es)
    requires var s := After(l, s0, es);
             M.IsLatest(s.mirror.snaps, gen) && IsMerge(m, M.Visible(s.mirror, gen)) && p in m
    ensures m[p].objectKey in After(l, s0, es).objects
  {
    var s := After(l, s0, es);
    InitInv(l, s0);
    RunKeepsInv(l, s0, es);
    M.LatestIsTop(s.mirror, gen);
    M.MergeKeeps(m, Seen(s));
    assert m[p] in Seen(s);
  }

  // ----- Uploading again what is listed as garbage -----

  lemma {:induction false} OneMore(l: Limits, s: State, es: seq<Event>, e: Event)
    requires ValidRun(l, s, es) && Enabled(l, After(l, s, es), e)
    ensures ValidRun(l, s, es + [e]) && After(l, s, es + [e]) == Next(l, After(l, s, es), e)
    ensures Careful(l, s, es + [e]) <==>
              Careful(l, s, es) && Prompt(l, After(l, s, es), e) && NoReupload(After(l, s, es), e)
    decreases es
  {
    if es == [] {
      assert ([] + [e])[1..] == [];
      assert ValidRun(l, Next(l, s, e), []);
    } else {
      OneMore(l, Next(l, s, es[0]), es[1..], e);
      assert (es + [e])[1..] == es[1..] + [e];
    }
  }

  /** The three steps of a device that uploads again what is about to be deleted, and logs it. */
  function Reupload(d: Device, x: DeltaEntry): seq<Event>
  {
    [Upload(x.objectKey), Mirror(M.Log(d, [x])), Delete(x.objectKey)]
  }

  /** Up to the delete no hypothesis but `NoReupload` is broken. */
  lemma {:induction false} ReuploadIsPrompt(l: Limits, s: State, d: Device, x: DeltaEntry)
    requires Enabled(l, s, Delete(x.objectKey)) && M.Enabled(s.mirror, M.Log(d, [x]))
    requires Prompt(l, s, Tick(s.clock)) && l.patience > 0
    ensures var s1 := Next(l, s, Upload(x.objectKey));
            && Prompt(l, s, Upload(x.objectKey)) && Prompt(l, s1, Mirror(M.Log(d, [x])))
            && Prompt(l, Next(l, s1, Mirror(M.Log(d, [x]))), Delete(x.objectKey))
  {
  }

  /** Whatever the collection is about to delete, a device that uploads it again just then and
      logs it at once loses it: the log shows a version that is not there. */
  lemma {:induction false} ReuploadIsLost(l: Limits, s: State, d: Device, x: DeltaEntry)
    requires M.Inv(s.mirror) && Enabled(l, s, Delete(x.objectKey))
    requires M.Enabled(s.mirror, M.Log(d, [x]))
    ensures ValidRun(l, s, Reupload(d, x))
    ensures x in Seen(After(l, s, Reupload(d, x))) && x.objectKey !in After(l, s, Reupload(d, x)).objects
  {
    var key := x.objectKey;
    var s1 := Next(l, s, Upload(key));
    var s2 := Next(l, s1, Mirror(M.Log(d, [x])));
    var s3 := Next(l, s2, Delete(key));
    var es := Reupload(d, x);
    assert ValidRun(l, s, []) && After(l, s, []) == s;
    OneMore(l, s, [], es[0]);
    OneMore(l, s, [es[0]], es[1]);
    OneMore(l, s, [es[0], es[1]], es[2]);
    assert [] + [es[0]] == [es[0]] && [es[0]] + [es[1]] == [es[0], es[1]] && [es[0], es[1]] + [es[2]] == es;
    assert After(l, s, es) == s3;
    LogShowsNew(s1, d, x);
  }

  /** Being prompt is needed too: logging, without a new upload, a version whose object the
      collection is about to delete loses it just the same. */
  lemma {:induction false} LateLogIsLost(l: Limits, s: State, d: Device, x: DeltaEntry)
    requires M.Inv(s.mirror) && Enabled(l, s, Delete(x.objectKey))
    requires M.Enabled(s.mirror, M.Log(d, [x]))
    ensures var es := [Mirror(M.Log(d, [x])), Delete(x.objectKey)];
            && ValidRun(l, s, es)
            && x in Seen(After(l, s, es)) && x.objectKey !in After(l, s, es).objects
            && NoReupload(s, es[0]) && NoReupload(Next(l, s, es[0]), es[1])
  {
    var es := [Mirror(M.Log(d, [x])), Delete(x.objectKey)];
    assert ValidRun(l, s, []) && After(l, s, []) == s;
    OneMore(l, s, [], es[0]);
    OneMore(l, s, [es[0]], es[1]);
    assert [] + [es[0]] == [es[0]] && [es[0]] + [es[1]] == es;
    LogShowsNew(s, d, x);
  }

  lemma LogShowsNew(s: State, d: Device, x: DeltaEntry)
    requires M.Inv(s.mirror) && M.Enabled(s.mirror, M.Log(d, [x]))
    ensures x in Seen(s.(mirror := M.Logged(s.mirror, d, [x])))
  {
    var t := M.Logged(s.mirror, d, [x]);
    var k := M.LogKey(M.PassOf(s.mirror, d).lamport, d, M.PassOf(s.mirror, d).next);
    assert x in t.log[k];
  }

  ghost predicate Reaches(l: Limits, s0: State, es: seq<Event>, s: State)
  {
    ValidRun(l, s0, es) && Careful(l, s0, es) && After(l, s0, es) == s
  }

  lemma {:induction false} ReachesOn(l: Limits, s0: State, es: seq<Event>, s: State, e: Event)
    returns (longer: seq<Event>)
    requires Reaches(l, s0, es, s) && Enabled(l, s, e) && Prompt(l, s, e) && NoReupload(s, e)
    ensures Reaches(l, s0, longer, Next(l, s, e))
  {
    OneMore(l, s0, es, e);
    longer := es + [e];
  }

  /** A device whose earlier pass stored an object and logged nothing, in a new pass much later. */
  function Interrupted(l: Limits, d: Device, key: Key): State
  {
    var pass := M.Pass({}, {}, 1, 0, false);
    State(M.State(map[], map[], map[d := M.DeviceState(0, map[], 0, Some(pass))], M.Compactor.Idle, 0, {}, {}),
          l.retention, map[key := 0], Collection.Idle, map[key := 0])
  }

  lemma {:induction false} InterruptedHappens(l: Limits, d: Device, key: Key) returns (s0: State, es: seq<Event>)
    requires l.patience + l.sweep <= l.retention
    ensures Init(s0) && Reaches(l, s0, es, Interrupted(l, d, key))
  {
    s0 := State(M.State(map[], map[], map[], M.Compactor.Idle, 0, {}, {}), 0, map[], Collection.Idle, map[]);
    es := [];
    var s := s0;
    es := ReachesOn(l, s0, es, s, Mirror(M.Join(d)));
    s := Next(l, s, Mirror(M.Join(d)));
    es := ReachesOn(l, s0, es, s, Upload(key));
    s := Next(l, s, Upload(key));
    es := ReachesOn(l, s0, es, s, Tick(l.retention));
    s := Next(l, s, Tick(l.retention));
    assert M.Visible(s.mirror, 0) == {};
    var none: Entries := map[];
    assert none.Keys == {};
    es := ReachesOn(l, s0, es, s, Mirror(M.BeginPass(d, 0, none, 0)));
    s := Next(l, s, Mirror(M.BeginPass(d, 0, none, 0)));
    assert s.mirror.devices[d] == Interrupted(l, d, key).mirror.devices[d];
    assert s.mirror.devices == Interrupted(l, d, key).mirror.devices && s.objects == Interrupted(l, d, key).objects;
  }

  /** A compaction then folds the empty log. */
  function Folded(l: Limits, d: Device, key: Key): State
  {
    var s := Interrupted(l, d, key);
    var dev := s.mirror.devices[d].(seen := 1);
    s.(mirror := M.State(map[1 := map[]], map[], map[d := dev], M.Pruning(d, 0, {}, map[]), 1, {}, {}))
  }

  lemma {:induction false} FoldingHappens(l: Limits, d: Device, key: Key, s0: State, before: seq<Event>)
    returns (es: seq<Event>, s: State)
    requires l.patience + l.sweep <= l.retention && Reaches(l, s0, before, Interrupted(l, d, key))
    ensures var was := Interrupted(l, d, key);
            Reaches(l, s0, es, s) && s == was.(mirror := was.mirror.(compactor := M.Folding(d, 0, {}, map[])))
  {
    var none: Entries := map[];
    s := Interrupted(l, d, key);
    assert M.Visible(s.mirror, 0) == {};
    es := ReachesOn(l, s0, before, s, Mirror(M.CompactRead(d, 0, none)));
    s := Next(l, s, Mirror(M.CompactRead(d, 0, none)));
    assert s.mirror.compactor.keys == {};
    assert s.mirror.devices == Interrupted(l, d, key).mirror.devices;
  }

  lemma {:induction false} FoldedHappens(l: Limits, d: Device, key: Key, s0: State, before: seq<Event>)
    returns (es: seq<Event>)
    requires l.patience + l.sweep <= l.retention && Reaches(l, s0, before, Interrupted(l, d, key))
    ensures Reaches(l, s0, es, Folded(l, d, key))
  {
    var s;
    es, s := FoldingHappens(l, d, key, s0, before);
    es := ReachesOn(l, s0, es, s, Mirror(M.CompactPut(0)));
    s := Next(l, s, Mirror(M.CompactPut(0)));
    assert s.mirror.snaps == map[1 := map[]] && 1 in s.mirror.snaps;
    es := ReachesOn(l, s0, es, s, Mirror(M.CompactVerify(1)));
    s := Next(l, s, Mirror(M.CompactVerify(1)));
    assert s.mirror.devices == Folded(l, d, key).mirror.devices;
  }

  /** And lists the object as garbage. */
  lemma {:induction false} ListedHappens(l: Limits, d: Device, key: Key, s0: State, before: seq<Event>)
    returns (es: seq<Event>, s: State)
    requires l.patience + l.sweep <= l.retention && Reaches(l, s0, before, Folded(l, d, key))
    ensures Reaches(l, s0, es, s) && Enabled(l, s, Delete(key))
    ensures M.InPass(s.mirror, d) && M.PassOf(s.mirror, d).lamport == 1
  {
    s := Folded(l, d, key);
    es := ReachesOn(l, s0, before, s, Mark);
    s := Next(l, s, Mark);
    assert s.collection.referenced == {};
    es := ReachesOn(l, s0, es, s, List);
    s := Next(l, s, List);
  }

  /** And it comes to either in a run that keeps to every hypothesis up to then: an upload whose
      device crashed before logging it, and a compaction much later. */
  lemma {:induction false} ReuploadHappens(l: Limits, d: Device, x: DeltaEntry) returns (s0: State, es: seq<Event>)
    requires l.patience + l.sweep <= l.retention && x.device == d && x.lamport == 1
    ensures Init(s0) && ValidRun(l, s0, es) && Careful(l, s0, es)
    ensures var s := After(l, s0, es); Enabled(l, s, Delete(x.objectKey)) && M.Enabled(s.mirror, M.Log(d, [x]))
  {
    var s;
    s0, es := InterruptedHappens(l, d, x.objectKey);
    es := FoldedHappens(l, d, x.objectKey, s0, es);
    es, s := ListedHappens(l, d, x.objectKey, s0, es);
  }

  // ----- One collection -----

  /** `collect_garbage` over one listing: exactly the expired objects nothing references go,
      unless their delete fails. An object of unknown age stays. */
  method CollectGarbage(objects: map<Key, Option<nat>>, referenced: set<Key>, retention: nat, now: nat,
                        failing: set<Key>)
    returns (left: map<Key, Option<nat>>, deleted: nat)
    ensures forall k :: k in left <==>
              k in objects
                  && (k in referenced || objects[k].None? || !Expired(objects[k].value, retention, now) || k in failing)
    ensures forall k :: k in left <==>
              k in objects
                  && (k in referenced || k in failing || objects[k].None? || now < objects[k].value + retention)
    ensures forall k :: k in left ==> left[k] == objects[k]
    ensures deleted + |left| == |objects|
  {
    left, deleted := objects, 0;
    var todo := objects.Keys;
    while todo != {}
      invariant todo <= objects.Keys
      invariant forall k :: k in left <==>
                  k in objects
                      && (|| k in todo || k in referenced || objects[k].None?
                          || !Expired(objects[k].value, retention, now) || k in failing)
      invariant forall k :: k in left ==> left[k] == objects[k]
      invariant deleted + |left| == |objects|
      decreases |todo|
    {
      var key :| key in todo;
      todo := todo - {key};
      if key in referenced || objects[key].None? || !Expired(objects[key].value, retention, now) {
        continue;
      }
      if key !in failing {
        DropOne(left, key);
        left, deleted := left - {key}, deleted + 1;
      }
    }
  }

  lemma DropOne<T>(m: map<Key, T>, key: Key)
    requires key in m
    ensures |m - {key}| == |m| - 1
  {
    assert (m - {key}).Keys == m.Keys - {key};
    assert |(m - {key}).Keys| == |m - {key}| && |m.Keys| == |m|;
  }
}
