/** Any number of devices syncing through one bucket, and one compactor at a time. */
module MirrorProtocol {
  // Any number of devices syncing through one bucket, and one compactor at a time. A device
  // runs one pass at a time; it reads snapshot and log in one step, logs its deltas, and only
  // then advances its baseline. Any device may crash between any two steps, and so may the
  // compactor.

  import opened Options
  import opened Manifest
  import opened Records
  import opened Engine
  import opened Commits

  datatype LogKey = LogKey(lamport: nat, device: Device, seq_: nat)

  /** A pass under way: what it read, which paths it may confirm, and its next delta key. */
  datatype Pass = Pass(read: set<DeltaEntry>, known: set<Path>, lamport: nat, next: nat, claimed: bool)

  datatype DeviceState = DeviceState(clock: nat, baseline: Baseline, seen: nat, pass: Option<Pass>)

  datatype Compactor =
    | Idle
    | Folding(device: Device, base: nat, keys: set<LogKey>, manifest: Entries)
    | Stored(device: Device, base: nat, keys: set<LogKey>, manifest: Entries)
    | Pruning(device: Device, base: nat, keys: set<LogKey>, manifest: Entries)

  datatype State = State(
    snaps: map<nat, Entries>,
    log: map<LogKey, seq<DeltaEntry>>,
    devices: map<Device, DeviceState>,
    compactor: Compactor,
    // history: the newest generation, every entry and every key ever logged
    top: nat,
    ever: set<DeltaEntry>,
    keys: set<LogKey>)

  datatype Event =
    | Join(device: Device)
    | BeginPass(device: Device, gen: nat, manifest: Entries, remoteLamport: nat)
    | Log(device: Device, deltas: seq<DeltaEntry>)
    | Claim(device: Device)
    | Record(device: Device, op: BaselineOp, now: int)
    | Scan(device: Device, entry: LocalEntry)
    | Residency(device: Device, path: Path, residency: Residency)
    | EndPass(device: Device)
    | Crash(device: Device)
    | CompactRead(device: Device, gen: nat, manifest: Entries)
    | CompactPut(gen: nat)
    | CompactVerify(gen: nat)
    | CompactDelete(key: LogKey)
    | CompactDropOld
    | CompactEnd

  /** The last snapshot of a listing: keys sort by generation. Zero if there is none. */
  ghost predicate IsLatest(snaps: map<nat, Entries>, gen: nat)
  {
    if snaps == map[] then gen == 0 else gen in snaps && forall g :: g in snaps ==> g <= gen
  }

  function SnapshotAt(snaps: map<nat, Entries>, gen: nat): Entries
  {
    if gen in snaps then snaps[gen] else map[]
  }

  function EntriesUnder(log: map<LogKey, seq<DeltaEntry>>, keys: set<LogKey>): set<DeltaEntry>
  {
    set k, d | k in keys && k in log && d in log[k] :: d
  }

  /** What a reader of snapshot `gen` and the log sees. */
  function Visible(s: State, gen: nat): set<DeltaEntry>
  {
    SnapshotAt(s.snaps, gen).Values + EntriesUnder(s.log, s.log.Keys)
  }

  predicate InPass(s: State, d: Device)
  {
    d in s.devices && s.devices[d].pass.Some?
  }

  function PassOf(s: State, d: Device): Pass
    requires InPass(s, d)
  {
    s.devices[d].pass.value
  }

  function Max(a: nat, b: nat): nat
  {
    if a < b then b else a
  }

  /** `from_store` refuses a snapshot older than the last one this device has seen. */
  predicate NoRollback(s: State, d: Device, gen: nat)
    requires d in s.devices
  {
    s.snaps == map[] || s.devices[d].seen <= gen
  }

  ghost predicate Enabled(s: State, e: Event)
  {
    match e
    case Join(d) => d !in s.devices
    case BeginPass(d, gen, m, n) =>
      && d in s.devices && s.devices[d].pass.None?
      && IsLatest(s.snaps, gen) && NoRollback(s, d, gen)
      && IsMerge(m, Visible(s, gen)) && IsMaxLamport(n, Visible(s, gen))
    case Log(d, deltas) =>
      && InPass(s, d) && deltas != []
      && forall e :: e in deltas ==> e.device == d && e.lamport == PassOf(s, d).lamport
    case Claim(d) => InPass(s, d) && !PassOf(s, d).claimed
    case Record(d, op, _) => InPass(s, d) && (Advances(op) ==> OpPath(op) in PassOf(s, d).known)
    case Scan(d, _) => InPass(s, d)
    case Residency(d, _, _) => InPass(s, d)
    case EndPass(d) => InPass(s, d)
    case Crash(d) => InPass(s, d)
    case CompactRead(d, gen, m) =>
      && s.compactor.Idle? && d in s.devices
      && IsLatest(s.snaps, gen) && NoRollback(s, d, gen) && IsMerge(m, Visible(s, gen))
    case CompactPut(gen) => s.compactor.Folding? && IsLatest(s.snaps, gen) && s.compactor.device in s.devices
    case CompactVerify(gen) => s.compactor.Stored? && IsLatest(s.snaps, gen)
    case CompactDelete(k) => s.compactor.Pruning? && k in s.compactor.keys
    case CompactDropOld => s.compactor.Pruning? && s.compactor.base in s.snaps
    case CompactEnd => !s.compactor.Idle?
  }

  function WithDevice(s: State, d: Device, dev: DeviceState): State
  {
    s.(devices := s.devices[d := dev])
  }

  /** The generation the compactor writes: one past what it lists, or past what it has seen. */
  function NextGen(s: State, gen: nat): nat
    requires s.compactor.Folding? && s.compactor.device in s.devices
  {
    if s.snaps == map[] then s.devices[s.compactor.device].seen + 1 else gen + 1
  }

  function Begun(s: State, d: Device, gen: nat, m: Entries, n: nat): State
    requires d in s.devices
  {
    var dev := s.devices[d];
    var pass := Pass(Visible(s, gen), m.Keys, Max(n, dev.clock) + 1, 0, false);
    WithDevice(s, d, dev.(seen := Max(dev.seen, gen), pass := Some(pass)))
  }

  function Logged(s: State, d: Device, deltas: seq<DeltaEntry>): State
    requires InPass(s, d)
  {
    var dev := s.devices[d];
    var p := PassOf(s, d);
    var k := LogKey(p.lamport, d, p.next);
    WithDevice(s, d, dev.(pass := Some(p.(known := p.known + PathsOf(Elems(deltas)), next := p.next + 1))))
    .(log := s.log[k := deltas], ever := s.ever + Elems(deltas), keys := s.keys + {k})
  }

  /** `resume_uploads` records its clock so that `apply` starts past it. */
  function Claimed(s: State, d: Device): State
    requires InPass(s, d)
  {
    var dev := s.devices[d];
    var p := PassOf(s, d);
    WithDevice(s, d, dev.(clock := p.lamport, pass := Some(p.(lamport := p.lamport + 1, next := 0, claimed := true))))
  }

  function WithRows(s: State, d: Device, b: Baseline): State
    requires d in s.devices
  {
    WithDevice(s, d, s.devices[d].(baseline := b))
  }

  function Ended(s: State, d: Device): State
    requires InPass(s, d)
  {
    WithDevice(s, d, s.devices[d].(clock := PassOf(s, d).lamport, pass := None))
  }

  function Put(s: State, gen: nat): State
    requires s.compactor.Folding? && s.compactor.device in s.devices
  {
    var c := s.compactor;
    var g := NextGen(s, gen);
    WithDevice(s, c.device, s.devices[c.device].(seen := g))
    .(snaps := s.snaps[g := c.manifest], top := g, compactor := Stored(c.device, c.base, c.keys, c.manifest))
  }

  function Verified(s: State, gen: nat): State
    requires s.compactor.Stored?
  {
    var c := s.compactor;
    if SnapshotAt(s.snaps, gen) == c.manifest then s.(compactor := Pruning(c.device, c.base, c.keys, c.manifest))
    else s.(compactor := Idle)
  }

  ghost function Next(s: State, e: Event): State
    requires Enabled(s, e)
  {
    match e
    case Join(d) => WithDevice(s, d, DeviceState(0, map[], 0, None))
    case BeginPass(d, gen, m, n) => Begun(s, d, gen, m, n)
    case Log(d, deltas) => Logged(s, d, deltas)
    case Claim(d) => Claimed(s, d)
    case Record(d, op, now) => WithRows(s, d, Row(s.devices[d].baseline, op, now))
    case Scan(d, entry) => WithRows(s, d, RecordScanned(s.devices[d].baseline, entry))
    case Residency(d, p, r) => WithRows(s, d, SetResidency(s.devices[d].baseline, p, r))
    case EndPass(d) => Ended(s, d)
    case Crash(d) => WithDevice(s, d, s.devices[d].(pass := None))
    case CompactRead(d, gen, m) =>
      WithDevice(s, d, s.devices[d].(seen := Max(s.devices[d].seen, gen))).(compactor := Folding(d, gen, s.log.Keys, m))
    case CompactPut(gen) => Put(s, gen)
    case CompactVerify(gen) => Verified(s, gen)
    case CompactDelete(k) => s.(log := s.log - {k})
    case CompactDropOld => s.(snaps := s.snaps - {s.compactor.base})
    case CompactEnd => s.(compactor := Idle)
  }

  ghost predicate Init(s: State)
  {
    s == State(map[], map[], map[], Idle, 0, {}, {})
  }

  // ----- Invariants -----

  /** The newest snapshot and the log together still decide every path as the full history would. */
  ghost predicate MergeInv(s: State)
  {
    && IsLatest(s.snaps, s.top)
    && Dominates(Visible(s, s.top), s.ever)
  }

  ghost predicate KeptAll(some: set<DeltaEntry>, all: set<DeltaEntry>)
  {
    forall d {:trigger Kept(some, d)} :: d in all ==> Kept(some, d)
  }

  /** What the compactor holds covers the snapshot it read and every delta it may delete. */
  ghost predicate CompactInv(s: State)
  {
    s.compactor != Idle ==>
      var c := s.compactor;
      && c.manifest.Values <= s.ever && c.keys <= s.keys
      && KeptAll(c.manifest.Values, EntriesUnder(s.log, c.keys))
      && (c.Folding? ==> c.base == s.top && KeptAll(c.manifest.Values, SnapshotAt(s.snaps, s.top).Values))
      && (!c.Folding? ==> c.base < s.top && SnapshotAt(s.snaps, s.top) == c.manifest && s.top in s.snaps)
  }

  ghost predicate HasLamport(all: set<DeltaEntry>, n: nat)
  {
    exists d :: d in all && d.lamport == n
  }

  /** Every key ever written carried an entry with its clock. */
  ghost predicate KeyInv(s: State)
  {
    && s.log.Keys <= s.keys
    && (forall k :: k in s.keys ==> k.device in s.devices && HasLamport(s.ever, k.lamport))
  }

  ghost predicate PassInv(d: Device, p: Pass, ever: set<DeltaEntry>, keys: set<LogKey>)
  {
    && p.read <= ever && p.known <= PathsOf(ever)
    && (forall e :: e in p.read ==> e.lamport < p.lamport)
    && (forall k :: k in keys && k.device == d ==> k.lamport < p.lamport || (k.lamport == p.lamport && k.seq_ < p.next))
  }

  ghost predicate DeviceInv(d: Device, dev: DeviceState, top: nat, ever: set<DeltaEntry>, keys: set<LogKey>)
  {
    && dev.seen <= top
    && (forall p :: BaseOf(dev.baseline, p).Some? ==> p in PathsOf(ever))
    && (dev.pass.Some? ==> PassInv(d, dev.pass.value, ever, keys))
  }

  ghost predicate DevicesInv(s: State)
  {
    forall d :: d in s.devices ==> DeviceInv(d, s.devices[d], s.top, s.ever, s.keys)
  }

  ghost predicate Inv(s: State)
  {
    MergeInv(s) && CompactInv(s) && KeyInv(s) && DevicesInv(s)
  }

  lemma InitInv(s: State)
    requires Init(s)
    ensures Inv(s)
  {
  }

  // ----- What reads and compaction do to the merge -----

  lemma LatestIsTop(s: State, gen: nat)
    requires IsLatest(s.snaps, s.top) && IsLatest(s.snaps, gen)
    ensures gen == s.top
  {
  }

  lemma KeptTrans(some: set<DeltaEntry>, mid: set<DeltaEntry>, d: DeltaEntry)
    requires Kept(mid, d) && KeptAll(some, mid)
    ensures Kept(some, d)
  {
    var w :| w in mid && w.path == d.path && !Beats(d, w);
    assert Kept(some, w);
    var v :| v in some && v.path == w.path && !Beats(w, v);
    NotBeatsTrans(d, w, v);
  }

  lemma KeptSelf(some: set<DeltaEntry>, d: DeltaEntry)
    requires d in some
    ensures Kept(some, d)
  {
    BeatsTotal(d, d);
  }

  lemma KeptMore(some: set<DeltaEntry>, more: set<DeltaEntry>, d: DeltaEntry)
    requires Kept(some, d) && some <= more
    ensures Kept(more, d)
  {
    var w :| w in some && w.path == d.path && !Beats(d, w);
    assert w in more;
  }

  /** Replacing what is visible by something that keeps all of it still keeps the full history. */
  lemma DominatesTrans(some: set<DeltaEntry>, mid: set<DeltaEntry>, all: set<DeltaEntry>)
    requires Dominates(mid, all) && KeptAll(some, mid) && some <= all
    ensures Dominates(some, all)
  {
    forall d | d in all ensures Kept(some, d) {
      KeptTrans(some, mid, d);
    }
  }

  /** The merge keeps everything merged. */
  lemma MergeKeeps(m: Entries, all: set<DeltaEntry>)
    requires IsMerge(m, all)
    ensures KeptAll(m.Values, all) && m.Values <= all
  {
    forall d | d in all ensures Kept(m.Values, d) {
      var w := m[d.path];
      assert w in m.Values && w.path == d.path && !Beats(d, w);
    }
  }

  // ----- Devices -----

  /** A device's facts survive history growing, as long as no new key is its own. */
  lemma DeviceGrows(d: Device, dev: DeviceState, top: nat, top': nat, ever: set<DeltaEntry>, ever': set<DeltaEntry>,
                    keys: set<LogKey>, keys': set<LogKey>)
    requires DeviceInv(d, dev, top, ever, keys)
    requires top <= top' && ever <= ever' && forall k :: k in keys' && k.device == d ==> k in keys
    ensures DeviceInv(d, dev, top', ever', keys')
  {
    PathsGrow(ever, ever');
  }

  lemma PathsGrow(ever: set<DeltaEntry>, ever': set<DeltaEntry>)
    requires ever <= ever'
    ensures PathsOf(ever) <= PathsOf(ever')
  {
  }

  lemma OthersGrow(s: State, d: Device, dev: DeviceState, top': nat, ever': set<DeltaEntry>, keys': set<LogKey>)
    requires DevicesInv(s) && DeviceInv(d, dev, top', ever', keys')
    requires s.top <= top' && s.ever <= ever' && forall k :: k in keys' && k.device != d ==> k in s.keys
    ensures DevicesInv(WithDevice(s, d, dev).(top := top', ever := ever', keys := keys'))
  {
    var t := WithDevice(s, d, dev).(top := top', ever := ever', keys := keys');
    forall x | x in t.devices ensures DeviceInv(x, t.devices[x], top', ever', keys') {
      if x != d {
        DeviceGrows(x, s.devices[x], s.top, top', s.ever, ever', s.keys, keys');
      }
    }
  }

  /** A step that only touches one device keeps everything but that device's facts. */
  lemma DeviceStep(s: State, d: Device, dev: DeviceState)
    requires Inv(s) && DeviceInv(d, dev, s.top, s.ever, s.keys)
    ensures Inv(WithDevice(s, d, dev))
  {
    OthersGrow(s, d, dev, s.top, s.ever, s.keys);
    assert WithDevice(s, d, dev).(top := s.top, ever := s.ever, keys := s.keys) == WithDevice(s, d, dev);
    assert Visible(WithDevice(s, d, dev), s.top) == Visible(s, s.top);
  }

  /** The clock a reader computes is past every key ever written, by anyone. */
  lemma ReadClockIsPast(s: State, gen: nat, n: nat, k: LogKey)
    requires MergeInv(s) && KeyInv(s) && IsLatest(s.snaps, gen) && IsMaxLamport(n, Visible(s, gen)) && k in s.keys
    ensures k.lamport <= n
  {
    LatestIsTop(s, gen);
    DominatedMax(n, Visible(s, gen), s.ever);
  }

  lemma BegunKeeps(s: State, d: Device, gen: nat, m: Entries, n: nat)
    requires Inv(s) && Enabled(s, BeginPass(d, gen, m, n))
    ensures Inv(Begun(s, d, gen, m, n))
  {
    LatestIsTop(s, gen);
    var dev := Begun(s, d, gen, m, n).devices[d];
    var p := dev.pass.value;
    assert DeviceInv(d, s.devices[d], s.top, s.ever, s.keys);
    forall k | k in s.keys ensures k.lamport < p.lamport {
      ReadClockIsPast(s, gen, n, k);
    }
    forall x | x in m ensures x in PathsOf(s.ever) {
      assert m[x] in s.ever;
    }
    DeviceStep(s, d, dev);
  }

  lemma RowsKeep(s: State, d: Device, b: Baseline)
    requires Inv(s) && d in s.devices
    requires forall p :: BaseOf(b, p).Some? ==> p in PathsOf(s.ever)
    ensures Inv(WithRows(s, d, b))
  {
    DeviceStep(s, d, s.devices[d].(baseline := b));
  }

  lemma RecordKeeps(s: State, d: Device, op: BaselineOp, now: int)
    requires Inv(s) && Enabled(s, Record(d, op, now))
    ensures Inv(Next(s, Record(d, op, now)))
  {
    var b := s.devices[d].baseline;
    assert DeviceInv(d, s.devices[d], s.top, s.ever, s.keys);
    forall p | BaseOf(Row(b, op, now), p).Some? ensures p in PathsOf(s.ever) {
      RowFrame(b, op, now, p);
    }
    RowsKeep(s, d, Row(b, op, now));
  }

  // ----- The log -----

  lemma LogEntries(log: map<LogKey, seq<DeltaEntry>>, k: LogKey, deltas: seq<DeltaEntry>)
    requires k !in log
    ensures EntriesUnder(log[k := deltas], log.Keys + {k}) == EntriesUnder(log, log.Keys) + Elems(deltas)
  {
    var log' := log[k := deltas];
    forall d | d in Elems(deltas) ensures d in EntriesUnder(log', log.Keys + {k}) {
      assert k in log' && d in log'[k];
    }
    forall d | d in EntriesUnder(log, log.Keys) ensures d in EntriesUnder(log', log.Keys + {k}) {
      var j :| j in log.Keys && j in log && d in log[j];
      assert j in log' && d in log'[j];
    }
  }

  lemma LoggedMerge(s: State, d: Device, deltas: seq<DeltaEntry>)
    requires MergeInv(s) && InPass(s, d) && LogKey(PassOf(s, d).lamport, d, PassOf(s, d).next) !in s.log
    ensures MergeInv(Logged(s, d, deltas))
  {
    var t := Logged(s, d, deltas);
    var k := LogKey(PassOf(s, d).lamport, d, PassOf(s, d).next);
    assert t.log.Keys == s.log.Keys + {k};
    LogEntries(s.log, k, deltas);
    assert Visible(t, s.top) == Visible(s, s.top) + Elems(deltas);
    forall e | e in t.ever ensures Kept(Visible(t, s.top), e) {
      if e in Elems(deltas) {
        KeptSelf(Visible(t, s.top), e);
      } else {
        KeptMore(Visible(s, s.top), Visible(t, s.top), e);
      }
    }
  }

  lemma LoggedCompact(s: State, d: Device, deltas: seq<DeltaEntry>)
    requires CompactInv(s) && InPass(s, d) && LogKey(PassOf(s, d).lamport, d, PassOf(s, d).next) !in s.keys
    ensures CompactInv(Logged(s, d, deltas))
  {
    var t := Logged(s, d, deltas);
    if s.compactor != Idle {
      assert EntriesUnder(t.log, s.compactor.keys) <= EntriesUnder(s.log, s.compactor.keys);
    }
  }

  /** The next key of a pass has never been written. */
  lemma NextKeyIsNew(s: State, d: Device)
    requires DevicesInv(s) && InPass(s, d)
    ensures LogKey(PassOf(s, d).lamport, d, PassOf(s, d).next) !in s.keys
  {
    assert DeviceInv(d, s.devices[d], s.top, s.ever, s.keys);
  }

  lemma LoggedKeys(s: State, d: Device, deltas: seq<DeltaEntry>)
    requires KeyInv(s) && Enabled(s, Log(d, deltas))
    ensures KeyInv(Logged(s, d, deltas))
  {
    var t := Logged(s, d, deltas);
    assert deltas[0] in t.ever && deltas[0].lamport == PassOf(s, d).lamport;
    forall k | k in t.keys ensures k.device in t.devices && HasLamport(t.ever, k.lamport) {
      if k in s.keys {
        var e :| e in s.ever && e.lamport == k.lamport;
        assert e in t.ever;
      }
    }
  }

  lemma LoggedKeeps(s: State, d: Device, deltas: seq<DeltaEntry>)
    requires Inv(s) && Enabled(s, Log(d, deltas))
    ensures Inv(Logged(s, d, deltas))
  {
    var t := Logged(s, d, deltas);
    NextKeyIsNew(s, d);
    LoggedMerge(s, d, deltas);
    LoggedCompact(s, d, deltas);
    LoggedKeys(s, d, deltas);
    LoggedDevice(s, d, deltas);
    OthersGrow(s, d, t.devices[d], s.top, t.ever, t.keys);
  }

  lemma LoggedDevice(s: State, d: Device, deltas: seq<DeltaEntry>)
    requires DevicesInv(s) && InPass(s, d)
    ensures var t := Logged(s, d, deltas); DeviceInv(d, t.devices[d], t.top, t.ever, t.keys)
  {
    var t := Logged(s, d, deltas);
    assert DeviceInv(d, s.devices[d], s.top, s.ever, s.keys);
    PathsGrow(s.ever, t.ever);
    PathsGrow(Elems(deltas), t.ever);
  }

  // ----- The compactor -----

  lemma CompactReadKeeps(s: State, d: Device, gen: nat, m: Entries)
    requires Inv(s) && Enabled(s, CompactRead(d, gen, m))
    ensures Inv(Next(s, CompactRead(d, gen, m)))
  {
    LatestIsTop(s, gen);
    assert DeviceInv(d, s.devices[d], s.top, s.ever, s.keys);
    DeviceStep(s, d, s.devices[d].(seen := Max(s.devices[d].seen, gen)));
    MergeKeeps(m, Visible(s, gen));
  }

  lemma PutMerge(s: State, gen: nat)
    requires Inv(s) && Enabled(s, CompactPut(gen))
    ensures MergeInv(Put(s, gen))
  {
    var t := Put(s, gen);
    var c := s.compactor;
    LatestIsTop(s, gen);
    assert DeviceInv(c.device, s.devices[c.device], s.top, s.ever, s.keys);
    assert forall g :: g in s.snaps ==> g < t.top;
    var now := Visible(t, t.top);
    assert now == c.manifest.Values + EntriesUnder(s.log, s.log.Keys);
    forall d | d in Visible(s, s.top) ensures Kept(now, d) {
      if d in EntriesUnder(s.log, s.log.Keys) {
        KeptSelf(now, d);
      } else {
        KeptMore(c.manifest.Values, now, d);
      }
    }
    DominatesTrans(now, Visible(s, s.top), s.ever);
  }

  lemma PutKeeps(s: State, gen: nat)
    requires Inv(s) && Enabled(s, CompactPut(gen))
    ensures Inv(Put(s, gen))
  {
    var t := Put(s, gen);
    var c := s.compactor;
    PutMerge(s, gen);
    LatestIsTop(s, gen);
    assert DeviceInv(c.device, s.devices[c.device], s.top, s.ever, s.keys);
    DeviceGrows(c.device, s.devices[c.device].(seen := t.top), t.top, t.top, s.ever, s.ever, s.keys, s.keys);
    OthersGrow(s, c.device, t.devices[c.device], t.top, s.ever, s.keys);
  }

  /** A lone compactor always finds the snapshot it just wrote. */
  lemma VerifyPasses(s: State, gen: nat)
    requires Inv(s) && Enabled(s, CompactVerify(gen))
    ensures Verified(s, gen).compactor.Pruning?
  {
    LatestIsTop(s, gen);
  }

  lemma StillUnder(log: map<LogKey, seq<DeltaEntry>>, k: LogKey, j: LogKey, d: DeltaEntry)
    requires j in log && d in log[j]
    ensures j != k ==> d in EntriesUnder(log - {k}, (log - {k}).Keys)
  {
    if j != k {
      assert j in log - {k} && d in (log - {k})[j];
    }
  }

  lemma DeleteMerge(s: State, k: LogKey)
    requires MergeInv(s) && CompactInv(s) && Enabled(s, CompactDelete(k))
    ensures MergeInv(s.(log := s.log - {k}))
  {
    var t := s.(log := s.log - {k});
    var c := s.compactor;
    var now := Visible(t, s.top);
    forall d | d in Visible(s, s.top) ensures Kept(now, d) {
      if d in now {
        KeptSelf(now, d);
      } else {
        var j :| j in s.log.Keys && j in s.log && d in s.log[j];
        StillUnder(s.log, k, j, d);
        assert d in EntriesUnder(s.log, c.keys);
        KeptMore(c.manifest.Values, now, d);
      }
    }
    DominatesTrans(now, Visible(s, s.top), s.ever);
  }

  lemma DeleteKeeps(s: State, k: LogKey)
    requires Inv(s) && Enabled(s, CompactDelete(k))
    ensures Inv(Next(s, CompactDelete(k)))
  {
    DeleteMerge(s, k);
    var t := s.(log := s.log - {k});
    assert EntriesUnder(t.log, s.compactor.keys) <= EntriesUnder(s.log, s.compactor.keys);
  }

  lemma DropOldKeeps(s: State)
    requires Inv(s) && Enabled(s, CompactDropOld)
    ensures Inv(Next(s, CompactDropOld))
  {
    var t := Next(s, CompactDropOld);
    assert s.top in t.snaps && t.snaps[s.top] == s.snaps[s.top];
    assert Visible(t, s.top) == Visible(s, s.top);
  }

  // ----- Runs -----

  lemma ClaimKeeps(s: State, d: Device)
    requires Inv(s) && Enabled(s, Claim(d))
    ensures Inv(Next(s, Claim(d)))
  {
    assert DeviceInv(d, s.devices[d], s.top, s.ever, s.keys);
    DeviceStep(s, d, Claimed(s, d).devices[d]);
  }

  lemma ScanKeeps(s: State, d: Device, entry: LocalEntry)
    requires Inv(s) && Enabled(s, Scan(d, entry))
    ensures Inv(Next(s, Scan(d, entry)))
  {
    assert DeviceInv(d, s.devices[d], s.top, s.ever, s.keys);
    RowsKeep(s, d, RecordScanned(s.devices[d].baseline, entry));
  }

  lemma ResidencyKeeps(s: State, d: Device, p: Path, r: Residency)
    requires Inv(s) && Enabled(s, Event.Residency(d, p, r))
    ensures Inv(Next(s, Event.Residency(d, p, r)))
  {
    assert DeviceInv(d, s.devices[d], s.top, s.ever, s.keys);
    RowsKeep(s, d, SetResidency(s.devices[d].baseline, p, r));
  }

  /** A pass over, finished or cut off. */
  lemma PassOverKeeps(s: State, d: Device)
    requires Inv(s) && InPass(s, d)
    ensures Inv(Next(s, EndPass(d))) && Inv(Next(s, Crash(d)))
  {
    assert DeviceInv(d, s.devices[d], s.top, s.ever, s.keys);
    DeviceStep(s, d, Ended(s, d).devices[d]);
    DeviceStep(s, d, s.devices[d].(pass := None));
  }

  lemma CompactEndKeeps(s: State)
    requires Inv(s) && Enabled(s, CompactEnd)
    ensures Inv(Next(s, CompactEnd))
  {
    assert Visible(Next(s, CompactEnd), s.top) == Visible(s, s.top);
  }

  predicate OfCompactor(e: Event)
  {
    e.CompactRead? || e.CompactPut? || e.CompactVerify? || e.CompactDelete? || e.CompactDropOld? || e.CompactEnd?
  }

  lemma DeviceEventKeeps(s: State, e: Event)
    requires Inv(s) && Enabled(s, e) && !OfCompactor(e)
    ensures Inv(Next(s, e))
  {
    match e
    case Join(d) => DeviceStep(s, d, DeviceState(0, map[], 0, None));
    case BeginPass(d, gen, m, n) => BegunKeeps(s, d, gen, m, n);
    case Log(d, deltas) => LoggedKeeps(s, d, deltas);
    case Claim(d) => ClaimKeeps(s, d);
    case Record(d, op, now) => RecordKeeps(s, d, op, now);
    case Scan(d, entry) => ScanKeeps(s, d, entry);
    case Residency(d, p, r) => ResidencyKeeps(s, d, p, r);
    case EndPass(d) => PassOverKeeps(s, d);
    case Crash(d) => PassOverKeeps(s, d);
  }

  lemma CompactorEventKeeps(s: State, e: Event)
    requires Inv(s) && Enabled(s, e) && OfCompactor(e)
    ensures Inv(Next(s, e))
  {
    match e
    case CompactRead(d, gen, m) => CompactReadKeeps(s, d, gen, m);
    case CompactPut(gen) => PutKeeps(s, gen);
    case CompactVerify(gen) => VerifyKeeps(s, gen);
    case CompactDelete(k) => DeleteKeeps(s, k);
    case CompactDropOld => DropOldKeeps(s);
    case CompactEnd => CompactEndKeeps(s);
  }

  lemma NextKeepsInv(s: State, e: Event)
    requires Inv(s) && Enabled(s, e)
    ensures Inv(Next(s, e))
  {
    if OfCompactor(e) { CompactorEventKeeps(s, e); } else { DeviceEventKeeps(s, e); }
  }

  lemma VerifyKeeps(s: State, gen: nat)
    requires Inv(s) && Enabled(s, CompactVerify(gen))
    ensures Inv(Verified(s, gen))
  {
    VerifyPasses(s, gen);
    assert Visible(Verified(s, gen), s.top) == Visible(s, s.top);
  }

  ghost predicate ValidRun(s: State, es: seq<Event>)
    decreases es
  {
    es != [] ==> Enabled(s, es[0]) && ValidRun(Next(s, es[0]), es[1..])
  }

  ghost function After(s: State, es: seq<Event>): State
    requires ValidRun(s, es)
    decreases es
  {
    if es == [] then s else After(Next(s, es[0]), es[1..])
  }

  /** A listing whose newest snapshot is older than one this device has seen is refused: neither
      a pass nor a compaction starts from it. */
  lemma RollbackIsRefused(s: State, d: Device, gen: nat, m: Entries, n: nat)
    requires d in s.devices && s.snaps != map[] && gen < s.devices[d].seen
    ensures !Enabled(s, BeginPass(d, gen, m, n)) && !Enabled(s, CompactRead(d, gen, m))
  {
  }

  /** A compactor that reads back anything but what it stored stops, with nothing deleted, and
      one that deletes has read back exactly that. */
  lemma MismatchDeletesNothing(s: State, gen: nat)
    requires Enabled(s, CompactVerify(gen))
    ensures var t := Next(s, CompactVerify(gen));
            && t.log == s.log && t.snaps == s.snaps
            && (t.compactor.Pruning? <==> (if gen in s.snaps then s.snaps[gen] else map[]) == s.compactor.manifest)
            && (!t.compactor.Pruning? ==> t.compactor.Idle?)
  {
  }

  lemma {:induction false} RunKeepsInv(s: State, es: seq<Event>)
    requires Inv(s) && ValidRun(s, es)
    ensures Inv(After(s, es))
    decreases es
  {
    if es != [] {
      NextKeepsInv(s, es[0]);
      RunKeepsInv(Next(s, es[0]), es[1..]);
    }
  }

  /** In every run, whatever compaction has put, deleted or left half done, reading the newest
      snapshot and the log gives the manifest and the clock that merging everything ever
      logged would. */
  lemma {:induction false} CompactionIsInvisible(s0: State, es: seq<Event>, gen: nat, m: Entries, n: nat)
    requires Init(s0) && ValidRun(s0, es)
    requires var s := After(s0, es);
             IsLatest(s.snaps, gen) && IsMerge(m, Visible(s, gen)) && IsMaxLamport(n, Visible(s, gen))
    ensures IsMerge(m, After(s0, es).ever) && IsMaxLamport(n, After(s0, es).ever)
  {
    var s := After(s0, es);
    RunKeepsInv(s0, es);
    LatestIsTop(s, gen);
    DominatedMerge(m, Visible(s, gen), s.ever);
    DominatedMax(n, Visible(s, gen), s.ever);
  }

  lemma BaselineIsMerged(s: State, d: Device, gen: nat, m: Entries, p: Path)
    requires Inv(s) && d in s.devices && IsLatest(s.snaps, gen) && IsMerge(m, Visible(s, gen))
             && BaseOf(s.devices[d].baseline, p).Some?
    ensures p in m && m[p] in s.ever
  {
    LatestIsTop(s, gen);
    DominatedMerge(m, Visible(s, gen), s.ever);
    assert DeviceInv(d, s.devices[d], s.top, s.ever, s.keys);
    var e :| e in s.ever && e.path == p;
  }

  /** In every run, a device's row has an agreed version only if the merged manifest has an
      entry for its path. */
  lemma {:induction false} BaselineIsLogged(s0: State, es: seq<Event>, d: Device, gen: nat, m: Entries, p: Path)
    requires Init(s0) && ValidRun(s0, es)
    requires var s := After(s0, es);
             d in s.devices && IsLatest(s.snaps, gen) && IsMerge(m, Visible(s, gen))
                 && BaseOf(s.devices[d].baseline, p).Some?
    ensures p in m
  {
    RunKeepsInv(s0, es);
    BaselineIsMerged(After(s0, es), d, gen, m, p);
  }

  lemma PlannedDelete(actions: seq<Action>, local: Files, b: Baseline, m: Entries, view: ResidencyView, a: Action)
    requires Plans(actions, AllPaths(local, b, m, view), local, b, m, view) && a in actions && a.kind == DeleteLocal
    ensures BaseOf(b, a.path).Some? && ThereOf(m, a.path).None?
  {
    DeleteLocalIsBacked(a.path, local, b, m, view);
  }

  /** So in every run, on whatever files and placeholders the scan finds, a pass plans to
      delete a local file only where the log holds a tombstone. Preserving conflict losers
      may drop rows between the read and the plan. */
  lemma {:induction false} DeleteLocalHasTombstone(s0: State, es: seq<Event>, d: Device, gen: nat, m: Entries,
                                                   b: Baseline,
                                local: Files, view: ResidencyView, plan: Plan, a: Action)
    requires Init(s0) && ValidRun(s0, es)
    requires var s := After(s0, es);
             && d in s.devices && IsLatest(s.snaps, gen) && IsMerge(m, Visible(s, gen))
             && (forall p :: p in b ==> p in s.devices[d].baseline && b[p] == s.devices[d].baseline[p])
    requires Plans(plan.actions, AllPaths(local, b, m, view), local, b, m, view)
    requires a in plan.actions && a.kind == DeleteLocal
    ensures a.path in m && m[a.path].deleted && m[a.path] in After(s0, es).ever
  {
    PlannedDelete(plan.actions, local, b, m, view, a);
    RunKeepsInv(s0, es);
    BaselineIsMerged(After(s0, es), d, gen, m, a.path);
  }

  /** In every run, including crashes between writing a delta and recording the clock, a
      delta goes under a key never used before, and beats everything its pass had read. */
  lemma {:induction false} DeltasAreNewAndWin(s0: State, es: seq<Event>, d: Device, deltas: seq<DeltaEntry>,
                                              e: DeltaEntry, r: DeltaEntry)
    requires Init(s0) && ValidRun(s0, es) && Enabled(After(s0, es), Log(d, deltas))
    requires e in deltas && r in PassOf(After(s0, es), d).read
    ensures var s := After(s0, es); var p := PassOf(s, d);
            LogKey(p.lamport, d, p.next) !in s.keys && LogKey(p.lamport, d, p.next) in Next(s, Log(d, deltas)).log
    ensures Beats(e, r)
  {
    var s := After(s0, es);
    RunKeepsInv(s0, es);
    NextKeyIsNew(s, d);
    assert DeviceInv(d, s.devices[d], s.top, s.ever, s.keys);
    LaterBeats(e, r);
  }

  /** In every run the rollback check passes for every device: the newest snapshot is never
      older than one the device has seen. */
  lemma {:induction false} NoFalseRollback(s0: State, es: seq<Event>, d: Device, gen: nat)
    requires Init(s0) && ValidRun(s0, es)
    requires d in After(s0, es).devices && IsLatest(After(s0, es).snaps, gen)
    ensures NoRollback(After(s0, es), d, gen)
  {
    var s := After(s0, es);
    RunKeepsInv(s0, es);
    LatestIsTop(s, gen);
    assert DeviceInv(d, s.devices[d], s.top, s.ever, s.keys);
  }
}
