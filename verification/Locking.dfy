/** Put-then-list locks in the bucket: an exclusive holder is always alone. */
module Locking {
  // Repository locks kept in the bucket: a process writes its lock object, lists every
  // lock, inspects the fresh ones, and either withdraws or holds. The module models each
  // store request as one step, with any number of processes, crashes anywhere, and the
  // bucket's own clock, and proves that an exclusive holder is always alone.
  //
  // Hypothesis of every run (`Timely`): the object of a process that is still acquiring
  // or holding is never STALE_AFTER or more behind the bucket's clock.

  import opened Options

  /** Seconds without a refresh after which a lock is ignored. */
  const STALE_AFTER: nat := 30 * 60

  type LockId = nat
  type Proc = nat

  datatype LockObject = LockObject(exclusive: bool, modified: nat)

  /** Where a process is in `acquire`, or in its time as a holder. */
  datatype Phase =
    | Idle
      /** Its object is written; it has not listed the others yet. */
    | Announced(id: LockId, exclusive: bool)
      /** It listed `seen` as fresh, and has still to inspect `todo`. */
    | Checking(id: LockId, exclusive: bool, acquiredAt: nat, seen: set<LockId>, todo: set<LockId>)
      /** It met a conflicting lock and is about to delete its own object. */
    | Refused(id: LockId)
    | Holding(id: LockId, exclusive: bool, acquiredAt: nat, seen: set<LockId>,
              stale: set<LockId>, refreshing: bool, lost: bool)

  /** `drawn` remembers every lock ID ever used, with its kind: IDs are random and never
      reused. `refused` remembers the IDs whose acquisition failed. */
  datatype State = State(clock: nat,
                         locks: map<LockId, LockObject>,
                         procs: map<Proc, Phase>,
                         drawn: map<LockId, bool>,
                         refused: set<LockId>)

  datatype Event =
    | Tick(to: nat)
    | Announce(p: Proc, id: LockId, exclusive: bool)
    | List(p: Proc, localNow: nat)
    | Inspect(p: Proc, other: LockId, readable: bool)
    | Withdraw(p: Proc, deleted: bool)
    | Enter(p: Proc)
    | RefreshHead(p: Proc)
    | RefreshPut(p: Proc, stored: bool)
    | ListStale(p: Proc)
    | DeleteStale(p: Proc, other: LockId)
    | Release(p: Proc, deleted: bool)
    | Crash(p: Proc)

  /** Whether a lock written at `modified` still counts at `now`. An unknown time counts
      as fresh, and so does one from the future. */
  predicate IsFresh(modified: Option<nat>, now: nat)
  {
    match modified
    case None => true
    case Some(at) => at > now || now - at < STALE_AFTER
  }

  function PhaseOf(s: State, p: Proc): Phase
  {
    if p in s.procs then s.procs[p] else Idle
  }

  /** The process still needs its object: it is acquiring or holding. */
  predicate Live(ph: Phase)
  {
    ph.Announced? || ph.Checking? || ph.Holding?
  }

  predicate Listed(ph: Phase)
  {
    ph.Checking? || ph.Holding?
  }

  predicate Holds(s: State, p: Proc)
  {
    PhaseOf(s, p).Holding?
  }

  predicate HoldsExclusive(s: State, p: Proc)
  {
    PhaseOf(s, p).Holding? && PhaseOf(s, p).exclusive
  }

  function FreshOthers(s: State, id: LockId, now: nat): set<LockId>
  {
    set o | o in s.locks && o != id && IsFresh(Some(s.locks[o].modified), now)
  }

  function StaleOthers(s: State, id: LockId, now: nat): set<LockId>
  {
    set o | o in s.locks && o != id && !IsFresh(Some(s.locks[o].modified), now)
  }

  predicate Enabled(s: State, e: Event)
  {
    match e
    case Tick(to) => to >= s.clock
    case Announce(p, id, _) => PhaseOf(s, p).Idle? && id !in s.drawn
    case List(p, _) => PhaseOf(s, p).Announced?
    case Inspect(p, other, _) => PhaseOf(s, p).Checking? && other in PhaseOf(s, p).todo
    case Withdraw(p, _) => PhaseOf(s, p).Refused?
    case Enter(p) => PhaseOf(s, p).Checking? && PhaseOf(s, p).todo == {}
    case RefreshHead(p) => PhaseOf(s, p).Holding? && !PhaseOf(s, p).lost
    case RefreshPut(p, _) => PhaseOf(s, p).Holding? && PhaseOf(s, p).refreshing
    case ListStale(p) => HoldsExclusive(s, p)
    case DeleteStale(p, other) => HoldsExclusive(s, p) && other in PhaseOf(s, p).stale
    case Release(p, _) => PhaseOf(s, p).Holding?
    case Crash(p) => true
  }

  function Next(s: State, e: Event): State
    requires Enabled(s, e)
  {
    match e
    case Tick(to) => s.(clock := to)
    case Announce(p, id, exclusive) =>
      s.(locks := s.locks[id := LockObject(exclusive, s.clock)],
      drawn := s.drawn[id := exclusive],
      procs := s.procs[p := Announced(id, exclusive)])
    case List(p, localNow) =>
      var ph := PhaseOf(s, p);
      var at := if ph.id in s.locks then s.locks[ph.id].modified else localNow;
      var others := FreshOthers(s, ph.id, at);
      s.(procs := s.procs[p := Checking(ph.id, ph.exclusive, at, others, others)])
    case Inspect(p, other, readable) =>
      var ph := PhaseOf(s, p);
      // a lock that cannot be read counts as exclusive
      var otherExclusive := !(readable && other in s.locks) || s.locks[other].exclusive;
      if ph.exclusive || otherExclusive then
        s.(procs := s.procs[p := Refused(ph.id)], refused := s.refused + {ph.id})
      else
        s.(procs := s.procs[p := ph.(todo := ph.todo - {other})])
    case Withdraw(p, deleted) =>
      var ph := PhaseOf(s, p);
      s.(procs := s.procs[p := Idle], locks := if deleted then s.locks - {ph.id} else s.locks)
    case Enter(p) =>
      var ph := PhaseOf(s, p);
      s.(procs := s.procs[p := Holding(ph.id, ph.exclusive, ph.acquiredAt, ph.seen, {}, false, false)])
    case RefreshHead(p) =>
      var ph := PhaseOf(s, p);
      if ph.id in s.locks
      then s.(procs := s.procs[p := ph.(refreshing := true)])
      else s.(procs := s.procs[p := ph.(lost := true)])
    case RefreshPut(p, stored) =>
      var ph := PhaseOf(s, p);
      s.(procs := s.procs[p := ph.(refreshing := false)],
      locks := if stored then s.locks[ph.id := LockObject(ph.exclusive, s.clock)] else s.locks)
    case ListStale(p) =>
      var ph := PhaseOf(s, p);
      s.(procs := s.procs[p := ph.(stale := StaleOthers(s, ph.id, ph.acquiredAt))])
    case DeleteStale(p, other) =>
      var ph := PhaseOf(s, p);
      s.(procs := s.procs[p := ph.(stale := ph.stale - {other})], locks := s.locks - {other})
    case Release(p, deleted) =>
      var ph := PhaseOf(s, p);
      s.(procs := s.procs[p := Idle], locks := if deleted then s.locks - {ph.id} else s.locks)
    case Crash(p) =>
      s.(procs := s.procs[p := Idle])
  }

  function Init(clock: nat): State
  {
    State(clock, map[], map[], map[], {})
  }

  /** The run's hypothesis: no live lock falls STALE_AFTER behind the bucket's clock. */
  ghost predicate Timely(s: State)
  {
    forall p :: Live(PhaseOf(s, p)) && PhaseOf(s, p).id in s.locks ==>
                  s.clock < s.locks[PhaseOf(s, p).id].modified + STALE_AFTER
  }

  // ----- The invariant, in four parts -----

  /** IDs are drawn before use, never shared, and objects are dated in the past. */
  ghost predicate IdsInv(s: State)
  {
    && (forall o :: o in s.locks ==> o in s.drawn && s.locks[o].exclusive == s.drawn[o]
                                     && s.locks[o].modified <= s.clock)
    && (forall o :: o in s.refused ==> o in s.drawn)
    && (forall p :: !PhaseOf(s, p).Idle? ==> PhaseOf(s, p).id in s.drawn)
    && (forall p, q :: !PhaseOf(s, p).Idle? && !PhaseOf(s, q).Idle? && p != q ==>
                         PhaseOf(s, p).id != PhaseOf(s, q).id)
  }

  /** A live process's own object is in the bucket and says what it is. */
  ghost predicate LiveInv(s: State)
  {
    forall p :: Live(PhaseOf(s, p)) ==>
                  && PhaseOf(s, p).id in s.locks
                  && s.locks[PhaseOf(s, p).id].exclusive == PhaseOf(s, p).exclusive
                  && PhaseOf(s, p).id !in s.refused
  }

  ghost predicate ListedOk(s: State, ph: Phase)
    requires Listed(ph)
  {
    && ph.acquiredAt <= s.clock
    && (forall o :: o in ph.seen ==> o in s.drawn)
    && (ph.Checking? ==> ph.todo <= ph.seen)
       // whatever has been inspected did not conflict
    && (forall o :: o in ph.seen && !(ph.Checking? && o in ph.todo) ==> !ph.exclusive && o in s.drawn && !s.drawn[o])
    && (ph.Holding? ==> !ph.lost && forall o :: o in ph.stale ==> o in s.drawn)
  }

  ghost predicate SeenInv(s: State)
  {
    && (forall p :: Listed(PhaseOf(s, p)) ==> ListedOk(s, PhaseOf(s, p)))
       // of two processes that have both listed, the later one saw the earlier one
    && (forall p, q :: p != q && Listed(PhaseOf(s, p)) && Listed(PhaseOf(s, q)) ==>
                         PhaseOf(s, q).id in PhaseOf(s, p).seen || PhaseOf(s, p).id in PhaseOf(s, q).seen)
  }

  /** No live lock is on anybody's list of stale ones. */
  ghost predicate StaleInv(s: State)
  {
    forall p, q :: PhaseOf(s, p).Holding? && Live(PhaseOf(s, q)) ==> PhaseOf(s, q).id !in PhaseOf(s, p).stale
  }

  ghost predicate Inv(s: State)
  {
    IdsInv(s) && LiveInv(s) && SeenInv(s) && StaleInv(s)
  }

  lemma InitInv(clock: nat)
    ensures Inv(Init(clock)) && Timely(Init(clock))
  {
  }

  /** A live lock is fresh to everyone whose own lock is no newer than the clock. */
  lemma LiveIsFresh(s: State, q: Proc, at: nat)
    requires LiveInv(s) && Timely(s) && Live(PhaseOf(s, q)) && at <= s.clock
    ensures IsFresh(Some(s.locks[PhaseOf(s, q).id].modified), at)
  {
  }

  /** A step moves at most one process. */
  lemma NextFrame(s: State, e: Event)
    requires Enabled(s, e)
    ensures forall p :: e.Tick? || p != e.p ==> PhaseOf(Next(s, e), p) == PhaseOf(s, p)
  {
  }

  /** Lock objects stay drawn, with the kind and the time they had. */
  lemma NextKeepsObjects(s: State, e: Event)
    requires IdsInv(s) && LiveInv(s) && Enabled(s, e)
    ensures var t := Next(s, e);
            && (forall o :: o in t.locks ==>
                  o in t.drawn && t.locks[o].exclusive == t.drawn[o] && t.locks[o].modified <= t.clock)
            && (forall o :: o in t.refused ==> o in t.drawn)
  {
    if !e.Tick? {
      assert !PhaseOf(s, e.p).Idle? ==> PhaseOf(s, e.p).id in s.drawn;
    }
  }

  lemma NextKeepsOwners(s: State, e: Event)
    requires IdsInv(s) && Enabled(s, e)
    ensures var t := Next(s, e);
            && (forall p :: !PhaseOf(t, p).Idle? ==> PhaseOf(t, p).id in t.drawn)
            && (forall p, q :: !PhaseOf(t, p).Idle? && !PhaseOf(t, q).Idle? && p != q ==>
                  PhaseOf(t, p).id != PhaseOf(t, q).id)
  {
    NextFrame(s, e);
    if !e.Tick? {
      assert !PhaseOf(s, e.p).Idle? ==> PhaseOf(s, e.p).id in s.drawn;
    }
  }

  lemma NextKeepsIds(s: State, e: Event)
    requires Inv(s) && Enabled(s, e)
    ensures IdsInv(Next(s, e))
  {
    NextKeepsObjects(s, e);
    NextKeepsOwners(s, e);
  }

  lemma NextKeepsLive(s: State, e: Event)
    requires Inv(s) && Enabled(s, e)
    ensures LiveInv(Next(s, e))
  {
    NextFrame(s, e);
    var t := Next(s, e);
    forall p | Live(PhaseOf(t, p))
      ensures && PhaseOf(t, p).id in t.locks
              && t.locks[PhaseOf(t, p).id].exclusive == PhaseOf(t, p).exclusive
              && PhaseOf(t, p).id !in t.refused
    {
      assert Live(PhaseOf(s, p)) || e.Announce?;
    }
  }

  lemma NextKeepsListed(s: State, e: Event, p: Proc)
    requires Inv(s) && Enabled(s, e) && Listed(PhaseOf(Next(s, e), p))
    ensures ListedOk(Next(s, e), PhaseOf(Next(s, e), p))
  {
    NextFrame(s, e);
    if Listed(PhaseOf(s, p)) {
      assert ListedOk(s, PhaseOf(s, p));
    }
  }

  /** Whoever lists sees every live lock, for they are all fresh to it. */
  lemma ListSeesTheLiving(s: State, p: Proc, localNow: nat, q: Proc)
    requires Inv(s) && Timely(s) && Enabled(s, List(p, localNow)) && q != p && Live(PhaseOf(s, q))
    ensures var mine := PhaseOf(Next(s, List(p, localNow)), p); mine.Checking? && PhaseOf(s, q).id in mine.seen
  {
    LiveIsFresh(s, q, s.locks[PhaseOf(s, p).id].modified);
  }

  lemma NextKeepsSeen(s: State, e: Event)
    requires Inv(s) && Timely(s) && Enabled(s, e)
    ensures SeenInv(Next(s, e))
  {
    NextFrame(s, e);
    var t := Next(s, e);
    forall p | Listed(PhaseOf(t, p)) ensures ListedOk(t, PhaseOf(t, p)) {
      NextKeepsListed(s, e, p);
    }
    if e.List? {
      forall q | q != e.p && Listed(PhaseOf(t, q)) ensures PhaseOf(t, q).id in PhaseOf(t, e.p).seen {
        ListSeesTheLiving(s, e.p, e.localNow, q);
      }
    }
  }

  lemma NextKeepsStale(s: State, e: Event)
    requires Inv(s) && Timely(s) && Enabled(s, e)
    ensures StaleInv(Next(s, e))
  {
    NextFrame(s, e);
    var t := Next(s, e);
    if e.ListStale? {
      forall q | Live(PhaseOf(t, q)) ensures PhaseOf(t, q).id !in PhaseOf(t, e.p).stale {
        assert ListedOk(s, PhaseOf(s, e.p));
        LiveIsFresh(s, q, PhaseOf(s, e.p).acquiredAt);
      }
    } else if e.Announce? {
      forall p | PhaseOf(t, p).Holding? ensures e.id !in PhaseOf(t, p).stale {
        assert ListedOk(s, PhaseOf(s, p));
      }
    }
  }

  lemma NextKeepsInv(s: State, e: Event)
    requires Inv(s) && Timely(s) && Enabled(s, e)
    ensures Inv(Next(s, e))
  {
    NextKeepsIds(s, e);
    NextKeepsLive(s, e);
    NextKeepsSeen(s, e);
    NextKeepsStale(s, e);
  }

  // ----- Whole runs -----

  /** `states` is a run: it starts empty, every step is one event, and every state is timely. */
  ghost predicate Run(states: seq<State>, events: seq<Event>)
  {
    && |states| == |events| + 1
    && states[0] == Init(states[0].clock)
    && (forall i :: 0 <= i < |states| ==> Timely(states[i]))
    && (forall i :: 0 <= i < |events| ==> Enabled(states[i], events[i]) && states[i + 1] == Next(states[i], events[i]))
  }

  lemma {:induction false} RunKeepsInv(states: seq<State>, events: seq<Event>, i: nat)
    requires Run(states, events) && i < |states|
    ensures Inv(states[i])
    decreases i
  {
    if i == 0 {
      InitInv(states[0].clock);
    } else {
      RunKeepsInv(states, events, i - 1);
      NextKeepsInv(states[i - 1], events[i - 1]);
    }
  }

  lemma ExclusiveIsAlone(s: State, p: Proc, q: Proc)
    requires Inv(s) && HoldsExclusive(s, p) && Holds(s, q)
    ensures p == q
  {
    assert ListedOk(s, PhaseOf(s, p)) && ListedOk(s, PhaseOf(s, q));
  }

  /** Put-then-list locking: in every state of every timely run an exclusive holder is the
      only holder, no holder has lost its object, and no failed acquirer holds. */
  lemma MutualExclusion(states: seq<State>, events: seq<Event>, i: nat)
    requires Run(states, events) && i < |states|
    ensures forall p, q :: HoldsExclusive(states[i], p) && Holds(states[i], q) ==> p == q
    ensures forall p :: Holds(states[i], p) ==>
                          && PhaseOf(states[i], p).id in states[i].locks
                          && !PhaseOf(states[i], p).lost
                          && PhaseOf(states[i], p).id !in states[i].refused
  {
    RunKeepsInv(states, events, i);
    var s := states[i];
    forall p, q | HoldsExclusive(s, p) && Holds(s, q) ensures p == q {
      ExclusiveIsAlone(s, p, q);
    }
    forall p | Holds(s, p) ensures !PhaseOf(s, p).lost {
      assert ListedOk(s, PhaseOf(s, p));
    }
  }

  /** `remove_stale` deletes only locks nobody is using any more: in every run, each step it
      takes leaves the object of every live process in place. */
  lemma RemoveStaleSparesTheLiving(states: seq<State>, events: seq<Event>, i: nat)
    requires Run(states, events) && i < |events| && events[i].DeleteStale?
    ensures forall q :: Live(PhaseOf(states[i], q)) ==>
                          && PhaseOf(states[i], q).id != events[i].other
                          && PhaseOf(states[i], q).id in states[i + 1].locks
  {
    RunKeepsInv(states, events, i);
  }

  // ----- What refuses a lock, and what does not -----

  /** Inspecting another lock refuses exactly if either of the two is exclusive, or the other one
      cannot be read; two shared locks live side by side. */
  lemma InspectRefusesIff(s: State, p: Proc, other: LockId, readable: bool)
    requires Enabled(s, Inspect(p, other, readable))
    ensures var was, ph := PhaseOf(s, p), PhaseOf(Next(s, Inspect(p, other, readable)), p);
            && (ph.Refused? <==>
                 was.exclusive || !readable || other !in s.locks || s.locks[other].exclusive)
            && (!ph.Refused? ==> ph == was.(todo := was.todo - {other}))
  {
  }

  /** Whatever was listed may be inspected, and a process that has inspected all of it enters. */
  lemma ListedIsInspected(s: State, p: Proc, other: LockId, readable: bool)
    requires PhaseOf(s, p).Checking?
    ensures other in PhaseOf(s, p).todo ==> Enabled(s, Inspect(p, other, readable))
    ensures PhaseOf(s, p).todo == {} ==>
              && Enabled(s, Enter(p)) && Holds(Next(s, Enter(p)), p)
              && !PhaseOf(Next(s, Enter(p)), p).refreshing && !PhaseOf(Next(s, Enter(p)), p).lost
  {
  }

  /** A refresh writes the object again, dated now, only after seeing that it is still there; if
      it is not, the holder knows from then on. */
  lemma RefreshNotices(s: State, p: Proc, stored: bool)
    requires PhaseOf(s, p).Holding? && !PhaseOf(s, p).lost && !PhaseOf(s, p).refreshing
    ensures var id, exclusive := PhaseOf(s, p).id, PhaseOf(s, p).exclusive;
            var t := Next(s, RefreshHead(p));
            && t.locks == s.locks && (PhaseOf(t, p).lost <==> id !in s.locks)
            && (PhaseOf(t, p).refreshing <==> id in s.locks)
            && (id in s.locks ==>
                 var u := Next(t, RefreshPut(p, stored));
                 && u.locks == (if stored then s.locks[id := LockObject(exclusive, s.clock)] else s.locks)
                 && !PhaseOf(u, p).refreshing && !PhaseOf(u, p).lost)
  {
  }

  /** Giving up and letting go take the process's own object away, if the delete goes through, and
      no other. */
  lemma OnlyOwnObjectGoes(s: State, p: Proc, deleted: bool)
    ensures PhaseOf(s, p).Refused? ==>
              var t := Next(s, Withdraw(p, deleted));
              PhaseOf(t, p).Idle? && t.locks == if deleted then s.locks - {PhaseOf(s, p).id} else s.locks
    ensures PhaseOf(s, p).Holding? ==>
              var t := Next(s, Release(p, deleted));
              PhaseOf(t, p).Idle? && t.locks == if deleted then s.locks - {PhaseOf(s, p).id} else s.locks
  {
  }

  // ----- A lock nobody refreshes -----

  /** An object whose time the bucket does not tell counts as fresh. */
  lemma UndatedIsFresh(now: nat)
    ensures IsFresh(None, now)
  {
  }

  /** Listing sees exactly the other objects written less than 1800 seconds before its own, or
      after it; older ones are as good as gone. */
  lemma ListSeesTheRecent(s: State, p: Proc, localNow: nat, o: LockId)
    requires Enabled(s, List(p, localNow)) && PhaseOf(s, p).id in s.locks
    ensures var ph := PhaseOf(Next(s, List(p, localNow)), p);
            && ph.Checking? && ph.seen == ph.todo
            && (o in ph.seen <==>
                 o in s.locks && o != ph.id && s.locks[ph.id].modified < s.locks[o].modified + 1800)
  {
  }

  /** A prune collects exactly the other objects written 1800 seconds or more before it locked. */
  lemma StaleAreCollected(s: State, p: Proc, o: LockId)
    requires Enabled(s, ListStale(p))
    ensures var ph := PhaseOf(Next(s, ListStale(p)), p);
            && ph.Holding?
            && (o in ph.stale <==> o in s.locks && o != ph.id && s.locks[o].modified + 1800 <= ph.acquiredAt)
  {
  }

  /** A process may crash at any time, and leaves its object behind. */
  lemma CrashLeavesObject(s: State, p: Proc)
    ensures Enabled(s, Crash(p))
    ensures var t := Next(s, Crash(p)); t.locks == s.locks && PhaseOf(t, p).Idle?
  {
  }

  /** However many processes have crashed with locks of any kind, once half an hour has passed
      over all of them anybody may take either lock, in three steps nothing can refuse. */
  lemma AbandonedDoNotBlock(s: State, p: Proc, id: LockId, exclusive: bool, localNow: nat)
    requires PhaseOf(s, p).Idle? && id !in s.drawn && s.locks.Keys <= s.drawn.Keys
    requires forall o :: o in s.locks ==> s.locks[o].modified + 1800 <= s.clock
    ensures Enabled(s, Announce(p, id, exclusive))
    ensures var t := Next(s, Announce(p, id, exclusive));
            && Enabled(t, List(p, localNow)) && Enabled(Next(t, List(p, localNow)), Enter(p))
            && var u := Next(Next(t, List(p, localNow)), Enter(p));
               Holds(u, p) && PhaseOf(u, p).id == id && PhaseOf(u, p).exclusive == exclusive
  {
    var t := Next(s, Announce(p, id, exclusive));
    assert t.locks[id].modified == s.clock;
    forall o | o in t.locks && o != id ensures o !in PhaseOf(Next(t, List(p, localNow)), p).seen {
      ListSeesTheRecent(t, p, localNow, o);
    }
  }
}
