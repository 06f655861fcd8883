/** `resume_uploads`, before `apply`. */
module Resume {
  // Multipart uploads an interrupted pass left behind are finished, logged in one object under
  // the pass's clock, and only then confirmed. In between the clock is recorded, so that
  // `apply` writes its own objects under the next one.

  import opened Options
  import opened Manifest
  import opened Commits
  import opened Apply
  import opened ApplySafety
  import opened Sync
  import opened MirrorProtocol
  import C = LogContents

  /** How one upload on record ended. `Stale`: the file changed or vanished, or the remote side
      is gone, and it is forgotten; `Broken`: an error, which ends the pass. */
  datatype Ending = Finished(result: Uploaded) | Stale | Broken

  datatype Pending = Pending(path: Path, ending: Ending)

  /** An upload that was finished: its delta and what was sent. */
  datatype Done = Done(entry: DeltaEntry, result: Uploaded)

  function Finishes(c: Context, m: Entries, uploads: seq<Pending>): (r: seq<Done>)
  {
    if uploads == [] then []
    else
      var u := uploads[|uploads| - 1];
      Finishes(c, m, uploads[..|uploads| - 1])
      + if u.ending.Finished? then [Done(NewDelta(c, m, u.path, u.ending.result), u.ending.result)] else []
  }

  function DoneDeltas(done: seq<Done>): seq<DeltaEntry>
  {
    seq(|done|, i requires 0 <= i < |done| => done[i].entry)
  }

  function Confirmed(d: Device, x: Done, now: int): Event
  {
    Record(d, Confirm(x.entry.path, x.result.size, x.result.mtime, x.result.hash), now)
  }

  function Confirms(d: Device, done: seq<Done>, now: int): seq<Event>
  {
    seq(|done|, i requires 0 <= i < |done| => Confirmed(d, done[i], now))
  }

  /** What becomes durable, in order: the object, the clock, the rows. */
  function ResumeEvents(d: Device, done: seq<Done>, now: int): seq<Event>
  {
    if done == [] then [] else [Log(d, DoneDeltas(done)), Claim(d)] + Confirms(d, done, now)
  }

  function WithDone(m: Entries, done: seq<Done>): Entries
  {
    if done == [] then m
    else
      var x := done[|done| - 1].entry;
      WithDone(m, done[..|done| - 1])[x.path := x]
  }

  function DonePaths(done: seq<Done>): seq<Path>
  {
    seq(|done|, i requires 0 <= i < |done| => done[i].entry.path)
  }

  lemma OneMoreDone(d: Device, m: Entries, done: seq<Done>, i: nat, now: int)
    requires i < |done|
    ensures Confirms(d, done[..i + 1], now) == Confirms(d, done[..i], now) + [Confirmed(d, done[i], now)]
    ensures DonePaths(done[..i + 1]) == DonePaths(done[..i]) + [done[i].entry.path]
    ensures WithDone(m, done[..i + 1]) == WithDone(m, done[..i])[done[i].entry.path := done[i].entry]
  {
    assert done[..i + 1][..i] == done[..i];
  }

  /** Every finished upload has an entry, and only those do. */
  ghost predicate AllAnnounced(c: Context, m: Entries, uploads: seq<Pending>, deltas: seq<DeltaEntry>)
  {
    && (forall u :: u in uploads && u.ending.Finished? ==> HasEntry(c, m, u, deltas))
    && (forall d :: d in deltas ==> IsEntry(c, m, uploads, d))
  }

  ghost predicate HasEntry(c: Context, m: Entries, u: Pending, deltas: seq<DeltaEntry>)
    requires u.ending.Finished?
  {
    exists d :: d in deltas && AnnouncedBy(c, m, u, d)
  }

  ghost predicate IsEntry(c: Context, m: Entries, uploads: seq<Pending>, d: DeltaEntry)
  {
    exists u :: u in uploads && u.ending.Finished? && AnnouncedBy(c, m, u, d)
  }

  /** The entry has the object that was stored, its content, and what it replaces. */
  predicate AnnouncedBy(c: Context, m: Entries, u: Pending, d: DeltaEntry)
    requires u.ending.Finished?
  {
    C.Announces(c, d, u.path, u.ending.result, if u.path in m then Some(m[u.path].hash) else None)
  }

  lemma {:induction false} OneMoreAnnounced(c: Context, m: Entries, init: seq<Pending>, last: Pending,
                                            before: seq<DeltaEntry>, d: DeltaEntry)
    requires AllAnnounced(c, m, init, before) && last.ending.Finished? && AnnouncedBy(c, m, last, d)
    ensures AllAnnounced(c, m, init + [last], before + [d])
  {
    var uploads, deltas := init + [last], before + [d];
    forall u | u in uploads && u.ending.Finished? ensures HasEntry(c, m, u, deltas) {
      if u in init { MoreEntries(c, m, u, before, d); } else { assert d in deltas; }
    }
    forall x | x in deltas ensures IsEntry(c, m, uploads, x) {
      if x in before { MoreUploads(c, m, init, last, x); } else { assert last in uploads; }
    }
  }

  lemma MoreEntries(c: Context, m: Entries, u: Pending, before: seq<DeltaEntry>, d: DeltaEntry)
    requires u.ending.Finished? && HasEntry(c, m, u, before)
    ensures HasEntry(c, m, u, before + [d])
  {
    var x :| x in before && AnnouncedBy(c, m, u, x);
    assert x in before + [d];
  }

  lemma MoreUploads(c: Context, m: Entries, init: seq<Pending>, last: Pending, d: DeltaEntry)
    requires IsEntry(c, m, init, d)
    ensures IsEntry(c, m, init + [last], d)
  {
    var u :| u in init && u.ending.Finished? && AnnouncedBy(c, m, u, d);
    assert u in init + [last];
  }

  lemma {:induction false} OneMorePassed(c: Context, m: Entries, init: seq<Pending>, last: Pending,
                                         before: seq<DeltaEntry>)
    requires AllAnnounced(c, m, init, before) && !last.ending.Finished?
    ensures AllAnnounced(c, m, init + [last], before)
  {
    forall d | d in before ensures IsEntry(c, m, init + [last], d) { MoreUploads(c, m, init, last, d); }
  }

  lemma {:induction false} FinishedAreAnnounced(c: Context, m: Entries, uploads: seq<Pending>)
    ensures AllAnnounced(c, m, uploads, DoneDeltas(Finishes(c, m, uploads)))
  {
    if uploads != [] {
      var init, last := uploads[..|uploads| - 1], uploads[|uploads| - 1];
      var before := DoneDeltas(Finishes(c, m, init));
      FinishedAreAnnounced(c, m, init);
      assert uploads == init + [last];
      if last.ending.Finished? {
        var d := NewDelta(c, m, last.path, last.ending.result);
        assert DoneDeltas(Finishes(c, m, uploads)) == before + [d];
        OneMoreAnnounced(c, m, init, last, before, d);
      } else {
        assert DoneDeltas(Finishes(c, m, uploads)) == before;
        OneMorePassed(c, m, init, last, before);
      }
    }
  }

  /** Nothing is durable if any upload breaks; otherwise exactly the finished ones are logged
      and confirmed, and known to the rest of the pass. */
  method ResumeUploads(c: Context, m: Entries, uploads: seq<Pending>, now: int)
    returns (resumed: Option<seq<Path>>, events: seq<Event>, manifest: Entries)
    ensures resumed.None? <==> exists u :: u in uploads && u.ending.Broken?
    ensures resumed.None? ==> events == [] && manifest == m
    ensures resumed.Some? ==>
              var done := Finishes(c, m, uploads);
              && events == ResumeEvents(c.device, done, now)
              && manifest == WithDone(m, done) && resumed == Some(DonePaths(done))
    ensures resumed.Some? ==>
              if events == [] then forall u :: u in uploads ==> u.ending.Stale?
              else events[0].Log? && events[0].device == c.device && AllAnnounced(c, m, uploads, events[0].deltas)
  {
    var completed: seq<Done> := [];
    events, manifest := [], m;
    for i := 0 to |uploads|
      invariant completed == Finishes(c, m, uploads[..i])
      invariant events == [] && manifest == m
      invariant forall u :: u in uploads[..i] ==> !u.ending.Broken?
    {
      var u := uploads[i];
      assert uploads[..i + 1][..i] == uploads[..i];
      match u.ending {
        case Finished(result) => completed := completed + [Done(NewDelta(c, m, u.path, result), result)];
        case Stale =>
        case Broken => return None, events, manifest;
      }
    }
    assert uploads[..|uploads|] == uploads;
    FinishedAreAnnounced(c, m, uploads);
    if completed == [] {
      assert DoneDeltas(completed) == [];
      assert DonePaths(completed) == [];
      return Some([]), events, manifest;
    }
    events := [Log(c.device, DoneDeltas(completed)), Claim(c.device)];
    ghost var start := events;
    assert start[0].deltas == DoneDeltas(completed);
    var paths: seq<Path> := [];
    for i := 0 to |completed|
      invariant events == start + Confirms(c.device, completed[..i], now)
      invariant manifest == WithDone(m, completed[..i])
      invariant paths == DonePaths(completed[..i])
    {
      var x := completed[i];
      OneMoreDone(c.device, m, completed, i, now);
      events := events + [Record(c.device, Confirm(x.entry.path, x.result.size, x.result.mtime, x.result.hash), now)];
      paths := paths + [x.entry.path];
      manifest := manifest[x.entry.path := x.entry];
    }
    assert completed[..|completed|] == completed;
    resumed := Some(paths);
  }

  // ----- As a run of the device -----

  lemma {:induction false} FinishedAreSigned(c: Context, m: Entries, uploads: seq<Pending>)
    ensures forall x :: x in Finishes(c, m, uploads) ==> x.entry.lamport == c.lamport && x.entry.device == c.device
  {
    if uploads != [] { FinishedAreSigned(c, m, uploads[..|uploads| - 1]); }
  }

  lemma {:induction false} DoneKeys(m: Entries, done: seq<Done>)
    ensures WithDone(m, done).Keys == m.Keys + PathsOf(Elems(DoneDeltas(done)))
  {
    if done != [] {
      var init, x := done[..|done| - 1], done[|done| - 1];
      DoneKeys(m, init);
      assert DoneDeltas(done) == DoneDeltas(init) + [x.entry];
      ConcatPaths(DoneDeltas(init), [x.entry]);
      assert PathsOf(Elems([x.entry])) == {x.entry.path};
    } else {
      assert Elems(DoneDeltas(done)) == {};
    }
  }

  lemma {:induction false} RunConcat(s: State, a: seq<Event>, b: seq<Event>)
    requires ValidRun(s, a) && ValidRun(After(s, a), b)
    ensures ValidRun(s, a + b) && After(s, a + b) == After(After(s, a), b)
    decreases a
  {
    if a == [] {
      assert a + b == b;
    } else {
      assert (a + b)[1..] == a[1..] + b;
      RunConcat(Next(s, a[0]), a[1..], b);
    }
  }

  /** The rows of finished uploads may be confirmed once their deltas are logged. */
  lemma {:induction false} ConfirmsRun(s: State, d: Device, done: seq<Done>, k: nat, now: int)
    requires InPass(s, d) && k <= |done|
    requires forall x :: x in done ==> x.entry.path in PassOf(s, d).known
    ensures var es := Confirms(d, done[..k], now);
            && ValidRun(s, es) && InPass(After(s, es), d)
            && PassOf(After(s, es), d) == PassOf(s, d) && After(s, es).devices[d].clock == s.devices[d].clock
    decreases k
  {
    var es := Confirms(d, done[..k], now);
    if k > 0 {
      ConfirmsRun(s, d, done, k - 1, now);
      var before := Confirms(d, done[..k - 1], now);
      assert es == before + [Confirmed(d, done[k - 1], now)];
      assert done[k - 1] in done;
      RunAppend(s, before, Confirmed(d, done[k - 1], now));
    }
  }

  /** Where a pass stands once uploads are resumed: past its first clock if any was finished,
      with no object of its own under the next. */
  ghost predicate Resumed(s: State, t: State, d: Device, done: seq<Done>)
    requires InPass(s, d)
  {
    && InPass(t, d) && PassOf(t, d).next == 0
    && PassOf(t, d).known == PassOf(s, d).known + PathsOf(Elems(DoneDeltas(done)))
    && PassOf(t, d).lamport == PassOf(s, d).lamport + (if done == [] then 0 else 1)
    && t.devices[d].clock == (if done == [] then s.devices[d].clock else PassOf(s, d).lamport)
  }

  ghost predicate Signed(s: State, d: Device, done: seq<Done>)
    requires InPass(s, d)
  {
    forall x :: x in done ==> x.entry.lamport == PassOf(s, d).lamport && x.entry.device == d
  }

  lemma {:induction false} TwoSteps(s: State, x: Event, y: Event)
    requires Enabled(s, x) && Enabled(Next(s, x), y)
    ensures ValidRun(s, [x]) && ValidRun(s, [x, y]) && After(s, [x, y]) == Next(Next(s, x), y)
  {
    RunAppend(s, [], x);
    assert [] + [x] == [x];
    RunAppend(s, [x], y);
    assert [x] + [y] == [x, y];
    assert After(s, [x]) == Next(s, x);
  }

  lemma {:induction false} LogThenClaim(s: State, d: Device, done: seq<Done>)
    requires InPass(s, d) && !PassOf(s, d).claimed && done != [] && Signed(s, d, done)
    ensures var es := [Log(d, DoneDeltas(done)), Claim(d)];
            && ValidRun(s, es) && ValidRun(s, [es[0]]) && Resumed(s, After(s, es), d, done)
  {
    var deltas := DoneDeltas(done);
    forall e | e in deltas ensures e.device == d && e.lamport == PassOf(s, d).lamport {
      var i :| 0 <= i < |deltas| && deltas[i] == e;
      assert done[i] in done;
    }
    assert Enabled(s, Log(d, deltas));
    TwoSteps(s, Log(d, deltas), Claim(d));
  }

  /** Every crash point of `resume_uploads` is reached by a run of the protocol, and so is its end. */
  lemma {:induction false} ResumeIsARun(s: State, d: Device, done: seq<Done>, n: nat, now: int)
    requires InPass(s, d) && !PassOf(s, d).claimed && PassOf(s, d).next == 0 && Signed(s, d, done)
    requires n <= |ResumeEvents(d, done, now)|
    ensures ValidRun(s, ResumeEvents(d, done, now)[..n])
    ensures n == |ResumeEvents(d, done, now)| ==>
              Resumed(s, After(s, ResumeEvents(d, done, now)[..n]), d, done)
  {
    var all := ResumeEvents(d, done, now);
    if done == [] {
      assert all[..n] == [] && Elems(DoneDeltas(done)) == {};
    } else {
      var es := [Log(d, DoneDeltas(done)), Claim(d)];
      LogThenClaim(s, d, done);
      if n <= 2 {
        assert all[..n] == es[..n];
        assert es[..2] == es && es[..1] == [es[0]] && es[..0] == [];
      } else {
        assert all[..n] == es + Confirms(d, done[..n - 2], now);
        DoneIsKnown(After(s, es), d, done);
        ConfirmsRun(After(s, es), d, done, n - 2, now);
        RunConcat(s, es, Confirms(d, done[..n - 2], now));
      }
    }
  }

  lemma DoneIsKnown(t: State, d: Device, done: seq<Done>)
    requires InPass(t, d) && PathsOf(Elems(DoneDeltas(done))) <= PassOf(t, d).known
    ensures forall x :: x in done ==> x.entry.path in PassOf(t, d).known
  {
    forall x | x in done ensures x.entry.path in PassOf(t, d).known {
      var i :| 0 <= i < |done| && done[i] == x;
      assert DoneDeltas(done)[i] == x.entry;
    }
  }

  /** A pass that has just read the log may resume uploads: it has claimed nothing, logged
      nothing, and its clock is past all it read and its own. */
  lemma PassBegins(s: State, d: Device, gen: nat, m: Entries, remote: nat)
    requires Enabled(s, BeginPass(d, gen, m, remote))
    ensures var t := Next(s, BeginPass(d, gen, m, remote));
            && InPass(t, d) && !PassOf(t, d).claimed && PassOf(t, d).next == 0 && PassOf(t, d).known == m.Keys
            && t.devices[d].clock == s.devices[d].clock
            && PassOf(t, d).lamport == 1 + if remote < s.devices[d].clock then s.devices[d].clock else remote
  {
  }

  /** One pass, resumed uploads and `apply` together: every crash point of the second is reached
      by a run through the whole of the first. `apply` computes its clock anew, from the same
      reading and the clock just recorded, and starts counting its objects at zero again. */
  lemma {:induction false} PassIsARun(s: State, c: Context, m: Entries, remote: nat, uploads: seq<Pending>,
                                      a: Context, joined: seq<Joined>, n: nat, now: int)
    requires InPass(s, c.device) && !PassOf(s, c.device).claimed && PassOf(s, c.device).next == 0
    requires PassOf(s, c.device).known == m.Keys
    requires c.lamport == PassOf(s, c.device).lamport == Max(remote, s.devices[c.device].clock) + 1
    requires var done := Finishes(c, m, uploads);
             && a.device == c.device && AllAnswer(a, WithDone(m, done), joined)
             && a.lamport == Max(remote, if done == [] then s.devices[c.device].clock else c.lamport) + 1
             && n <= |TraceOf(ApplySafety.Ended(a, WithDone(m, done), joined))|
    ensures var done := Finishes(c, m, uploads);
            var first := ResumeEvents(c.device, done, now);
            var trace := TraceOf(ApplySafety.Ended(a, WithDone(m, done), joined));
            && ValidRun(s, first) && Resumed(s, After(s, first), c.device, done)
            && ValidRun(s, first + Events(c.device, trace[..n], now))
  {
    var done := Finishes(c, m, uploads);
    var first := ResumeEvents(c.device, done, now);
    var trace := TraceOf(ApplySafety.Ended(a, WithDone(m, done), joined));
    FinishedAreSigned(c, m, uploads);
    ResumeIsARun(s, c.device, done, |first|, now);
    assert first[..|first|] == first;
    DoneKeys(m, done);
    ApplyIsOrderly(a, WithDone(m, done), joined);
    ApplyIsARun(After(s, first), c.device, trace, n, now);
    RunConcat(s, first, Events(c.device, trace[..n], now));
  }
}
