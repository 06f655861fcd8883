/**
 Restoring whole files. Every chunk a file needs is looked up and filed under its pack once,
 with every place it goes; packs are read in any order; the files come out as the
 concatenation of their chunks.

 `Whole` is a file put together chunk by chunk, `Restorable` when that can be done. Writes are
 shown to settle chunks one at a time (`Advances`), and packs to leave nothing of theirs
 unsettled (`Done`), whatever order they finish in.
 */
module RestoreFiles {
  import opened Blobs
  import opened Options
  import opened Stream
  import opened Restore

  type Locations = map<Id, Where>

  /** One occurrence of a chunk in a file. */
  datatype Want = Want(id: Id, dest: Dest)

  function PlainSum(content: seq<Id>, index: Locations): nat
    requires forall c :: c in content ==> c in index
  {
    if content == [] then 0
    else PlainSum(content[..|content| - 1], index) + index[content[|content| - 1]].place.plainLength
  }

  /** Every chunk is listed, and their lengths add up to the recorded size. */
  predicate FileFits(f: FileNode, index: Locations)
  {
    (forall c :: c in f.content ==> c in index) && PlainSum(f.content, index) == f.size
  }

  function FileWants(i: nat, content: seq<Id>, index: Locations): seq<Want>
    requires forall c :: c in content ==> c in index
  {
    if content == [] then []
    else
      var init := content[..|content| - 1];
      FileWants(i, init, index) + [Want(content[|content| - 1], Dest(i, PlainSum(init, index)))]
  }

  predicate AllFit(files: seq<FileNode>, index: Locations)
  {
    forall i :: 0 <= i < |files| ==> FileFits(files[i], index)
  }

  function AllWants(files: seq<FileNode>, index: Locations): seq<Want>
    requires AllFit(files, index)
  {
    if files == [] then []
    else
      AllWants(files[..|files| - 1], index) + FileWants(|files| - 1, files[|files| - 1].content, index)
  }

  // ----- Filing chunks under their packs -----

  type Plan = map<Id, map<Id, BlobRead>>

  function DestsFor(id: Id, wants: seq<Want>): seq<Dest>
  {
    if wants == [] then []
    else DestsFor(id, wants[..|wants| - 1]) + if wants[|wants| - 1].id == id then [wants[|wants| - 1].dest] else []
  }

  predicate Wanted(id: Id, wants: seq<Want>)
  {
    exists w :: w in wants && w.id == id
  }

  /** Exactly the chunks wanted, each under the one pack the index gives for it, with exactly
      the places it is wanted, in order. So each distinct chunk is read once. */
  ghost predicate Planned(plan: Plan, wants: seq<Want>, index: Locations)
  {
    && (forall pk, id :: pk in plan && id in plan[pk] <==> Wanted(id, wants) && id in index && index[id].packId == pk)
    && (forall pk, id :: pk in plan && id in plan[pk] ==>
          plan[pk][id] == BlobRead(id, index[id].place, DestsFor(id, wants)))
  }

  function AddWant(plan: Plan, index: Locations, w: Want): Plan
    requires w.id in index
  {
    var at := index[w.id];
    var pack := if at.packId in plan then plan[at.packId] else map[];
    var read := if w.id in pack then pack[w.id] else BlobRead(w.id, at.place, []);
    plan[at.packId := pack[w.id := read.(dests := read.dests + [w.dest])]]
  }

  lemma {:induction false} UnwantedHasNoDests(id: Id, wants: seq<Want>)
    requires !Wanted(id, wants)
    ensures DestsFor(id, wants) == []
  {
    if wants != [] {
      var last := wants[|wants| - 1];
      assert last in wants;
      assert forall w :: w in wants[..|wants| - 1] ==> w in wants;
      UnwantedHasNoDests(id, wants[..|wants| - 1]);
    }
  }

  lemma {:induction false} WantedMore(id: Id, wants: seq<Want>, w: Want)
    ensures Wanted(id, wants + [w]) <==> Wanted(id, wants) || w.id == id
    ensures DestsFor(id, wants + [w]) == DestsFor(id, wants) + if w.id == id then [w.dest] else []
  {
    var all := wants + [w];
    assert all[..|all| - 1] == wants;
    assert forall x :: x in all <==> x in wants || x == w;
  }

  lemma AddWantKeeps(plan: Plan, wants: seq<Want>, index: Locations, w: Want)
    requires Planned(plan, wants, index) && w.id in index
    ensures Planned(AddWant(plan, index, w), wants + [w], index)
  {
    var plan' := AddWant(plan, index, w);
    forall pk, id
      ensures pk in plan' && id in plan'[pk] <==> Wanted(id, wants + [w]) && id in index && index[id].packId == pk
      ensures pk in plan' && id in plan'[pk] ==>
                plan'[pk][id] == BlobRead(id, index[id].place, DestsFor(id, wants + [w]))
    {
      WantedMore(id, wants, w);
      if !Wanted(id, wants) {
        UnwantedHasNoDests(id, wants);
      }
    }
  }

  lemma {:induction false} OneChunkMore(i: nat, content: seq<Id>, k: nat, index: Locations, wants: seq<Want>)
    requires k < |content| && forall c :: c in content[..k + 1] ==> c in index
    ensures var before, at := content[..k], PlainSum(content[..k], index);
            && (forall c :: c in content[..k + 1] <==> c in before || c == content[k])
            && PlainSum(content[..k + 1], index) == at + index[content[k]].place.plainLength
            && wants + FileWants(i, content[..k + 1], index)
               == wants + FileWants(i, before, index) + [Want(content[k], Dest(i, at))]
  {
    assert content[..k + 1] == content[..k] + [content[k]];
    assert content[..k + 1][..k] == content[..k];
  }

  /** One file's chunks, or nothing if one is not listed or the lengths do not add up. */
  method PlanFile(plan: Plan, i: nat, f: FileNode, index: Locations, ghost wants: seq<Want>) returns (r: Option<Plan>)
    requires Planned(plan, wants, index)
    ensures r.Some? <==> FileFits(f, index)
    ensures r.Some? ==> Planned(r.value, wants + FileWants(i, f.content, index), index)
  {
    var filed, offset := plan, 0;
    assert wants + [] == wants;
    for k := 0 to |f.content|
      invariant forall c :: c in f.content[..k] ==> c in index
      invariant offset == PlainSum(f.content[..k], index)
      invariant Planned(filed, wants + FileWants(i, f.content[..k], index), index)
    {
      var c := f.content[k];
      if c !in index { return None; }
      OneChunkMore(i, f.content, k, index, wants);
      AddWantKeeps(filed, wants + FileWants(i, f.content[..k], index), index, Want(c, Dest(i, offset)));
      filed := AddWant(filed, index, Want(c, Dest(i, offset)));
      offset := offset + index[c].place.plainLength;
    }
    assert f.content[..|f.content|] == f.content;
    r := if offset == f.size then Some(filed) else None;
  }

  lemma {:induction false} OneFileMore(files: seq<FileNode>, i: nat, index: Locations)
    requires i < |files| && AllFit(files[..i], index)
    ensures AllFit(files[..i + 1], index) <==> FileFits(files[i], index)
    ensures FileFits(files[i], index) ==>
              AllWants(files[..i + 1], index) == AllWants(files[..i], index) + FileWants(i, files[i].content, index)
  {
    var more := files[..i + 1];
    assert more == files[..i] + [files[i]];
    assert more[..i] == files[..i] && more[i] == files[i];
  }

  method PlanReads(files: seq<FileNode>, index: Locations) returns (r: Option<Plan>)
    ensures r.Some? <==> AllFit(files, index)
    ensures r.Some? ==> Planned(r.value, AllWants(files, index), index)
  {
    var plan: Plan := map[];
    for i := 0 to |files|
      invariant AllFit(files[..i], index)
      invariant Planned(plan, AllWants(files[..i], index), index)
    {
      OneFileMore(files, i, index);
      var more := PlanFile(plan, i, files[i], index, AllWants(files[..i], index));
      if more.None? {
        assert files[i] in files;
        return None;
      }
      plan := more.value;
    }
    assert files[..|files|] == files;
    r := Some(plan);
  }

  // ----- What the files must come out as -----

  /** Everything restoring reads. */
  datatype Source = Source(index: Locations, packs: map<Id, Bytes>, decode: Decode)

  function Chunk(s: Source, id: Id): Option<Bytes>
    requires id in s.index
  {
    if s.index[id].packId !in s.packs then None
    else FetchOne(s.packs[s.index[id].packId], id, s.index[id].place, s.decode)
  }

  /** A chunk's bytes, or zeros if it cannot be had. */
  function Plain(s: Source, id: Id): Bytes
    requires id in s.index
  {
    if Chunk(s, id).Some? then Chunk(s, id).value else seq(s.index[id].place.plainLength, _ => 0)
  }

  /** A file put together chunk by chunk. */
  function Whole(s: Source, content: seq<Id>): Bytes
    requires forall c :: c in content ==> c in s.index
  {
    if content == [] then [] else Whole(s, content[..|content| - 1]) + Plain(s, content[|content| - 1])
  }

  lemma {:induction false} WholeLen(s: Source, content: seq<Id>)
    requires (forall c :: c in content ==> c in s.index) && ChecksLength(s.decode)
    ensures |Whole(s, content)| == PlainSum(content, s.index)
  {
    if content != [] {
      WholeLen(s, content[..|content| - 1]);
    }
  }

  /** A chunk's place in a file holds the chunk. */
  lemma {:induction false} WantIsInPlace(s: Source, i: nat, content: seq<Id>, w: Want)
    requires (forall c :: c in content ==> c in s.index) && ChecksLength(s.decode)
              && w in FileWants(i, content, s.index)
    ensures w.dest.file == i && w.id in s.index
    ensures w.dest.offset + |Plain(s, w.id)| <= |Whole(s, content)|
    ensures Whole(s, content)[w.dest.offset..w.dest.offset + |Plain(s, w.id)|] == Plain(s, w.id)
    decreases |content|
  {
    var init, c := content[..|content| - 1], content[|content| - 1];
    WholeLen(s, init);
    if w in FileWants(i, init, s.index) {
      WantIsInPlace(s, i, init, w);
    }
  }

  predicate Agrees(a: Bytes, b: Bytes, from: nat, len: nat)
  {
    from + len <= |a| && from + len <= |b| && a[from..from + len] == b[from..from + len]
  }

  /** A file that holds every wanted chunk in its place is the whole file: the places tile it. */
  lemma {:induction false} PlacesTile(s: Source, i: nat, content: seq<Id>, a: Bytes)
    requires (forall c :: c in content ==> c in s.index) && ChecksLength(s.decode)
    requires |a| >= |Whole(s, content)|
    requires forall w :: w in FileWants(i, content, s.index) ==>
               w.id in s.index && Agrees(a, Whole(s, content), w.dest.offset, |Plain(s, w.id)|)
    ensures a[..|Whole(s, content)|] == Whole(s, content)
    decreases |content|
  {
    if content != [] {
      var init, c := content[..|content| - 1], content[|content| - 1];
      var before, whole := Whole(s, init), Whole(s, content);
      WholeLen(s, init);
      forall w | w in FileWants(i, init, s.index)
        ensures w.id in s.index && Agrees(a, before, w.dest.offset, |Plain(s, w.id)|) {
        WantIsInPlace(s, i, init, w);
        assert w in FileWants(i, content, s.index);
        Narrow(a, before, Plain(s, c), w.dest.offset, |Plain(s, w.id)|);
      }
      PlacesTile(s, i, init, a);
      var last := Want(c, Dest(i, |before|));
      assert last in FileWants(i, content, s.index);
      Extend(a, before, Plain(s, c));
    }
  }

  lemma Narrow(a: Bytes, before: Bytes, more: Bytes, from: nat, len: nat)
    requires Agrees(a, before + more, from, len) && from + len <= |before|
    ensures Agrees(a, before, from, len)
  {
    assert (before + more)[from..from + len] == before[from..from + len];
  }

  lemma Extend(a: Bytes, before: Bytes, more: Bytes)
    requires |a| >= |before + more| && a[..|before|] == before && Agrees(a, before + more, |before|, |more|)
    ensures a[..|before + more|] == before + more
  {
    assert (before + more)[|before|..|before| + |more|] == more;
    assert a[..|before + more|] == a[..|before|] + a[|before|..|before| + |more|];
  }

  // ----- Writing -----

  /** `write_at`. */
  function WriteAt(f: Bytes, offset: nat, data: Bytes): Bytes
    requires offset + |data| <= |f|
  {
    f[..offset] + data + f[offset + |data|..]
  }

  /** Writing what belongs there disturbs nothing that is already right. */
  lemma WriteKeeps(f: Bytes, t: Bytes, offset: nat, data: Bytes, from: nat, len: nat)
    requires |f| == |t| && offset + |data| <= |f| && t[offset..offset + |data|] == data
    ensures |WriteAt(f, offset, data)| == |f| && Agrees(WriteAt(f, offset, data), t, offset, |data|)
    ensures Agrees(f, t, from, len) ==> Agrees(WriteAt(f, offset, data), t, from, len)
  {
    var g := WriteAt(f, offset, data);
    assert g[offset..offset + |data|] == data;
    if Agrees(f, t, from, len) {
      forall p | from <= p < from + len ensures g[p] == t[p] {
        if p < offset || p >= offset + |data| {
          assert g[p] == f[p];
          assert f[p] == f[from..from + len][p - from] && t[p] == t[from..from + len][p - from];
        } else {
          assert g[p] == data[p - offset] && t[p] == t[offset..offset + |data|][p - offset];
        }
      }
    }
  }

  // ----- All files -----

  lemma {:induction false} WantOfAll(files: seq<FileNode>, index: Locations, w: Want)
    requires AllFit(files, index)
    ensures w in AllWants(files, index) <==>
            w.dest.file < |files| && FileFits(files[w.dest.file], index)
                && w in FileWants(w.dest.file, files[w.dest.file].content, index)
  {
    if files != [] {
      var n := |files| - 1;
      assert FileFits(files[n], index);
      WantOfAll(files[..n], index, w);
      FileOfWant(n, files[n].content, index, w);
      if w.dest.file < n {
        assert FileFits(files[w.dest.file], index);
        assert files[..n][w.dest.file] == files[w.dest.file];
      }
    }
  }

  lemma {:induction false} FileOfWant(i: nat, content: seq<Id>, index: Locations, w: Want)
    requires forall c :: c in content ==> c in index
    ensures w in FileWants(i, content, index) ==> w.dest.file == i && w.id in content
    decreases |content|
  {
    if content != [] {
      FileOfWant(i, content[..|content| - 1], index, w);
    }
  }

  lemma {:induction false} ContentIsWanted(i: nat, content: seq<Id>, index: Locations, c: Id) returns (w: Want)
    requires (forall x :: x in content ==> x in index) && c in content
    ensures w in FileWants(i, content, index) && w.id == c
    decreases |content|
  {
    var init := content[..|content| - 1];
    if c in init {
      w := ContentIsWanted(i, init, index, c);
    } else {
      w := Want(c, Dest(i, PlainSum(init, index)));
    }
  }

  lemma {:induction false} DestIsWanted(id: Id, wants: seq<Want>, d: Dest)
    ensures d in DestsFor(id, wants) <==> Want(id, d) in wants
  {
    if wants != [] {
      DestIsWanted(id, wants[..|wants| - 1], d);
      assert wants == wants[..|wants| - 1] + [wants[|wants| - 1]];
    }
  }

  /** The write is what one of the wanted chunks needs. */
  ghost predicate Right(s: Source, wants: seq<Want>, x: Write)
  {
    exists w :: w in wants && w.id in s.index && x.dest == w.dest && x.bytes == Plain(s, w.id)
  }

  ghost predicate Have(ws: seq<Write>, dests: seq<Dest>, bytes: Bytes)
  {
    forall d :: d in dests ==> Write(d, bytes) in ws
  }

  /** What chunk-by-chunk reading of one pack's plan writes: nothing but wanted chunks, and all of them. */
  lemma {:induction false} PackWrites(s: Source, pk: Id, blobs: seq<BlobRead>, wants: seq<Want>)
    requires pk in s.packs
    requires forall b :: b in blobs ==>
               b.id in s.index && s.index[b.id] == Where(pk, b.place) && b.dests == DestsFor(b.id, wants)
    ensures var r := OneByOne(s.packs[pk], blobs, s.decode);
            && (r.Some? <==> forall b :: b in blobs ==> Chunk(s, b.id).Some?)
            && (r.Some? ==> forall x :: x in r.value ==> Right(s, wants, x))
            && (r.Some? ==> forall b :: b in blobs ==> Have(r.value, b.dests, Plain(s, b.id)))
    decreases |blobs|
  {
    if blobs != [] {
      var init, b := blobs[..|blobs| - 1], blobs[|blobs| - 1];
      assert blobs == init + [b] && b in blobs;
      PackWrites(s, pk, init, wants);
      var r := OneByOne(s.packs[pk], blobs, s.decode);
      if r.Some? {
        var before := OneByOne(s.packs[pk], init, s.decode).value;
        LastWrites(s, wants, before, b);
        forall x | x in blobs ensures Have(r.value, x.dests, Plain(s, x.id)) {
          if x in init {
            HaveMore(before, WritesOf(b.dests, Plain(s, b.id)), x.dests, Plain(s, x.id));
          }
        }
      }
    }
  }

  lemma HaveMore(ws: seq<Write>, more: seq<Write>, dests: seq<Dest>, bytes: Bytes)
    requires Have(ws, dests, bytes)
    ensures Have(ws + more, dests, bytes)
  {
  }

  lemma {:induction false} LastWrites(s: Source, wants: seq<Want>, before: seq<Write>, b: BlobRead)
    requires b.id in s.index && b.dests == DestsFor(b.id, wants)
    ensures Have(before + WritesOf(b.dests, Plain(s, b.id)), b.dests, Plain(s, b.id))
    ensures forall x :: x in WritesOf(b.dests, Plain(s, b.id)) ==> Right(s, wants, x)
  {
    var more := WritesOf(b.dests, Plain(s, b.id));
    forall d | d in b.dests ensures Write(d, Plain(s, b.id)) in before + more {
      var i :| 0 <= i < |b.dests| && b.dests[i] == d;
      assert more[i] == Write(d, Plain(s, b.id));
      assert more[i] in more;
    }
    forall x | x in more ensures Right(s, wants, x) {
      var i :| 0 <= i < |more| && more[i] == x;
      DestIsWanted(b.id, wants, b.dests[i]);
      assert Want(b.id, b.dests[i]) in wants;
    }
  }

  /** The files as they stand: as long as they must be. */
  ghost predicate Sized(contents: seq<Bytes>, files: seq<FileNode>)
  {
    |contents| == |files| && forall i :: 0 <= i < |files| ==> |contents[i]| == files[i].size
  }

  /** The chunk is in its place. */
  ghost predicate Settled(s: Source, files: seq<FileNode>, contents: seq<Bytes>, w: Want)
    requires AllFit(files, s.index)
  {
    && w.id in s.index && w.dest.file < |files| && w.dest.file < |contents|
    && Agrees(contents[w.dest.file], Whole(s, files[w.dest.file].content), w.dest.offset, |Plain(s, w.id)|)
  }

  lemma {:induction false} RightIsInPlace(s: Source, files: seq<FileNode>, x: Write)
    requires AllFit(files, s.index) && ChecksLength(s.decode) && Right(s, AllWants(files, s.index), x)
    ensures x.dest.file < |files|
    ensures var t := Whole(s, files[x.dest.file].content);
            |t| == files[x.dest.file].size && x.dest.offset + |x.bytes| <= |t|
                && t[x.dest.offset..x.dest.offset + |x.bytes|] == x.bytes
  {
    var w :| w in AllWants(files, s.index) && w.id in s.index && x.dest == w.dest && x.bytes == Plain(s, w.id);
    WantOfAll(files, s.index, w);
    var f := files[x.dest.file];
    assert FileFits(f, s.index);
    WantIsInPlace(s, x.dest.file, f.content, w);
    WholeLen(s, f.content);
  }

  function Written(contents: seq<Bytes>, x: Write): seq<Bytes>
    requires x.dest.file < |contents| && x.dest.offset + |x.bytes| <= |contents[x.dest.file]|
  {
    contents[x.dest.file := WriteAt(contents[x.dest.file], x.dest.offset, x.bytes)]
  }

  lemma {:induction false} WrittenSized(s: Source, files: seq<FileNode>, contents: seq<Bytes>, x: Write)
    requires AllFit(files, s.index) && ChecksLength(s.decode) && Right(s, AllWants(files, s.index), x)
             && Sized(contents, files)
    ensures x.dest.file < |files| && x.dest.offset + |x.bytes| <= |contents[x.dest.file]|
            && Sized(Written(contents, x), files)
  {
    RightIsInPlace(s, files, x);
    WriteKeeps(contents[x.dest.file], Whole(s, files[x.dest.file].content), x.dest.offset, x.bytes, 0, 0);
  }

  lemma OtherFile(s: Source, files: seq<FileNode>, contents: seq<Bytes>, x: Write, w: Want)
    requires AllFit(files, s.index) && x.dest.file < |contents| && x.dest.offset + |x.bytes| <= |contents[x.dest.file]|
    requires x.dest.file != w.dest.file
    ensures Settled(s, files, contents, w) ==> Settled(s, files, Written(contents, x), w)
  {
  }

  lemma {:induction false} SameFile(s: Source, files: seq<FileNode>, contents: seq<Bytes>, x: Write, w: Want)
    requires AllFit(files, s.index) && ChecksLength(s.decode) && Right(s, AllWants(files, s.index), x)
             && Sized(contents, files)
    requires x.dest.file < |contents| && x.dest.offset + |x.bytes| <= |contents[x.dest.file]|
    requires x.dest.file == w.dest.file && w.id in s.index
    ensures Settled(s, files, contents, w) ==> Settled(s, files, Written(contents, x), w)
    ensures x == Write(w.dest, Plain(s, w.id)) ==> Settled(s, files, Written(contents, x), w)
  {
    RightIsInPlace(s, files, x);
    var i := x.dest.file;
    WriteKeeps(contents[i], Whole(s, files[i].content), x.dest.offset, x.bytes, w.dest.offset, |Plain(s, w.id)|);
    assert Written(contents, x)[i] == WriteAt(contents[i], x.dest.offset, x.bytes);
  }

  /** One write settles its chunk and unsettles none. */
  lemma {:induction false} OneWrite(s: Source, files: seq<FileNode>, contents: seq<Bytes>, x: Write, w: Want)
    requires AllFit(files, s.index) && ChecksLength(s.decode) && Right(s, AllWants(files, s.index), x)
             && Sized(contents, files)
    requires x.dest.file < |contents| && x.dest.offset + |x.bytes| <= |contents[x.dest.file]|
    ensures Settled(s, files, contents, w) ==> Settled(s, files, Written(contents, x), w)
    ensures w.id in s.index && x == Write(w.dest, Plain(s, w.id)) ==> Settled(s, files, Written(contents, x), w)
  {
    if x.dest.file != w.dest.file {
      OtherFile(s, files, contents, x, w);
    } else if w.id in s.index {
      SameFile(s, files, contents, x, w);
    }
  }

  /** `after` has everything `before` had in place, and the writes `ws` too. */
  ghost predicate Advances(s: Source, files: seq<FileNode>, before: seq<Bytes>, after: seq<Bytes>, ws: seq<Write>)
    requires AllFit(files, s.index)
  {
    && (forall w: Want :: Settled(s, files, before, w) ==> Settled(s, files, after, w))
    && (forall w: Want :: w.id in s.index && Write(w.dest, Plain(s, w.id)) in ws ==> Settled(s, files, after, w))
  }

  lemma AdvanceOne(s: Source, files: seq<FileNode>, start: seq<Bytes>, contents: seq<Bytes>, ws: seq<Write>, x: Write)
    requires AllFit(files, s.index) && ChecksLength(s.decode) && Right(s, AllWants(files, s.index), x)
             && Sized(contents, files)
    requires x.dest.file < |contents| && x.dest.offset + |x.bytes| <= |contents[x.dest.file]|
    requires Advances(s, files, start, contents, ws)
    ensures Advances(s, files, start, Written(contents, x), ws + [x])
  {
    forall w: Want ensures Settled(s, files, contents, w) ==> Settled(s, files, Written(contents, x), w)
      ensures w.id in s.index && x == Write(w.dest, Plain(s, w.id)) ==> Settled(s, files, Written(contents, x), w)
    {
      OneWrite(s, files, contents, x, w);
    }
  }

  /** All writes of a pack, in any order, settle its chunks and unsettle none. */
  method WriteAll(ghost s: Source, ghost files: seq<FileNode>, contents: seq<Bytes>, ws: seq<Write>)
    returns (after: seq<Bytes>)
    requires AllFit(files, s.index) && ChecksLength(s.decode) && Sized(contents, files)
    requires forall x :: x in ws ==> Right(s, AllWants(files, s.index), x)
    ensures Sized(after, files) && Advances(s, files, contents, after, ws)
  {
    after := contents;
    for n := 0 to |ws|
      invariant Sized(after, files) && Advances(s, files, contents, after, ws[..n])
    {
      var x := ws[n];
      assert x in ws && ws[..n + 1] == ws[..n] + [x];
      WrittenSized(s, files, after, x);
      AdvanceOne(s, files, contents, after, ws[..n], x);
      after := after[x.dest.file := WriteAt(after[x.dest.file], x.dest.offset, x.bytes)];
    }
    assert ws[..|ws|] == ws;
  }

  method InsertByOffset(blobs: seq<BlobRead>, b: BlobRead) returns (r: seq<BlobRead>)
    requires ByOffset(blobs)
    ensures ByOffset(r) && |r| == |blobs| + 1 && forall x :: x in r <==> x in blobs || x == b
  {
    var i := 0;
    while i < |blobs| && blobs[i].place.offset <= b.place.offset
      invariant i <= |blobs|
      invariant forall j :: 0 <= j < i ==> blobs[j].place.offset <= b.place.offset
    {
      i := i + 1;
    }
    InsertedByOffset(blobs, i, b);
    InsertedIsAll(blobs, i, b);
    r := blobs[..i] + [b] + blobs[i..];
  }

  lemma InsertedByOffset(blobs: seq<BlobRead>, i: nat, b: BlobRead)
    requires ByOffset(blobs) && i <= |blobs| && (i < |blobs| ==> b.place.offset <= blobs[i].place.offset)
    requires forall j :: 0 <= j < i ==> blobs[j].place.offset <= b.place.offset
    ensures ByOffset(blobs[..i] + [b] + blobs[i..])
  {
    var r := blobs[..i] + [b] + blobs[i..];
    forall j, k | 0 <= j < k < |r| ensures r[j].place.offset <= r[k].place.offset {
      assert r[j] == if j < i then blobs[j] else if j == i then b else blobs[j - 1];
      assert r[k] == if k < i then blobs[k] else if k == i then b else blobs[k - 1];
    }
  }

  lemma InsertedIsAll(blobs: seq<BlobRead>, i: nat, b: BlobRead)
    requires i <= |blobs|
    ensures forall x :: x in blobs[..i] + [b] + blobs[i..] <==> x in blobs || x == b
  {
    assert blobs == blobs[..i] + blobs[i..];
    assert forall x :: x in blobs <==> x in blobs[..i] || x in blobs[i..];
  }

  /** Every planned read once, by offset. */
  method SortedBlobs(pack: map<Id, BlobRead>) returns (r: seq<BlobRead>)
    ensures ByOffset(r) && |r| == |pack| && forall b :: b in r <==> exists id :: id in pack && pack[id] == b
  {
    r := [];
    var rest := pack.Keys;
    while rest != {}
      invariant rest <= pack.Keys && ByOffset(r) && |r| + |rest| == |pack|
      invariant forall b :: b in r <==> exists id :: id in pack && id !in rest && pack[id] == b
    {
      var id :| id in rest;
      r := InsertByOffset(r, pack[id]);
      rest := rest - {id};
    }
  }

  ghost predicate Met(s: Source, files: seq<FileNode>, contents: seq<Bytes>, rest: set<Id>, w: Want)
    requires AllFit(files, s.index)
  {
    && w.id in s.index
    && (s.index[w.id].packId !in rest ==> Chunk(s, w.id).Some? && Settled(s, files, contents, w))
  }

  /** Every chunk filed under a pack that is done is in its place, and could be had. */
  ghost predicate Done(s: Source, files: seq<FileNode>, contents: seq<Bytes>, rest: set<Id>)
    requires AllFit(files, s.index)
  {
    forall w :: w in AllWants(files, s.index) ==> Met(s, files, contents, rest, w)
  }

  lemma {:induction false} PlannedAt(plan: Plan, wants: seq<Want>, index: Locations, pk: Id, id: Id)
    requires Planned(plan, wants, index) && pk in plan && id in plan[pk]
    ensures Wanted(id, wants) && id in index && index[id].packId == pk
    ensures plan[pk][id] == BlobRead(id, index[id].place, DestsFor(id, wants))
  {
  }

  lemma {:induction false} PlanOfPack(s: Source, plan: Plan, wants: seq<Want>, pk: Id, blobs: seq<BlobRead>)
    requires Planned(plan, wants, s.index) && pk in plan
    requires forall b :: b in blobs <==> exists id :: id in plan[pk] && plan[pk][id] == b
    ensures forall b :: b in blobs ==>
              b.id in s.index && s.index[b.id] == Where(pk, b.place) && b.dests == DestsFor(b.id, wants)
    ensures forall b :: b in blobs ==> Wanted(b.id, wants)
    ensures forall w :: (w in wants && w.id in s.index && s.index[w.id].packId == pk)
                        ==> BlobRead(w.id, s.index[w.id].place, DestsFor(w.id, wants)) in blobs
  {
    forall b | b in blobs
      ensures b.id in s.index && s.index[b.id] == Where(pk, b.place) && b.dests == DestsFor(b.id, wants)
              && Wanted(b.id, wants)
    {
      var id :| id in plan[pk] && plan[pk][id] == b;
      PlannedAt(plan, wants, s.index, pk, id);
    }
    forall w | w in wants && w.id in s.index && s.index[w.id].packId == pk
      ensures BlobRead(w.id, s.index[w.id].place, DestsFor(w.id, wants)) in blobs
    {
      assert Wanted(w.id, wants);
      assert pk in plan && w.id in plan[pk];
    }
  }

  lemma {:induction false} PackDone(s: Source, files: seq<FileNode>, contents: seq<Bytes>, after: seq<Bytes>,
                                    wants: seq<Want>, pk: Id,
                                    blobs: seq<BlobRead>, ws: seq<Write>, rest: set<Id>)
    requires AllFit(files, s.index) && wants == AllWants(files, s.index) && Done(s, files, contents, rest)
    requires Advances(s, files, contents, after, ws)
    requires forall w :: w in wants && w.id in s.index && s.index[w.id].packId == pk
                         ==> BlobRead(w.id, s.index[w.id].place, DestsFor(w.id, wants)) in blobs
    requires forall b :: b in blobs ==> b.id in s.index && Chunk(s, b.id).Some? && Have(ws, b.dests, Plain(s, b.id))
    ensures Done(s, files, after, rest - {pk})
  {
    forall w | w in wants ensures Met(s, files, after, rest - {pk}, w) {
      assert Met(s, files, contents, rest, w);
      if s.index[w.id].packId == pk {
        var b := BlobRead(w.id, s.index[w.id].place, DestsFor(w.id, wants));
        assert b in blobs;
        DestIsWanted(w.id, wants, w.dest);
        assert Write(w.dest, Plain(s, w.id)) in ws;
      }
    }
  }

  /** Reading a pack to the end settles all its wanted chunks; a failure is a chunk that cannot be had. */
  method RestorePack(s: Source, ghost files: seq<FileNode>, plan: Plan, pk: Id, contents: seq<Bytes>,
                     ghost rest: set<Id>)
    returns (r: Option<seq<Bytes>>)
    requires AllFit(files, s.index) && ChecksLength(s.decode) && Sized(contents, files) && pk in plan && pk in rest
    requires Planned(plan, AllWants(files, s.index), s.index) && Done(s, files, contents, rest)
    ensures r.Some? ==> Sized(r.value, files) && Done(s, files, r.value, rest - {pk})
    ensures r.None? ==> exists w :: w in AllWants(files, s.index) && w.id in s.index && Chunk(s, w.id).None?
  {
    ghost var wants := AllWants(files, s.index);
    var blobs := SortedBlobs(plan[pk]);
    PlanOfPack(s, plan, wants, pk, blobs);
    if pk !in s.packs {
      if plan[pk] == map[] {
        EmptyPack(s, files, contents, plan, wants, pk, rest);
        return Some(contents);
      }
      ghost var id :| id in plan[pk];
      assert Wanted(id, wants);
      return None;
    }
    PackWrites(s, pk, blobs, wants);
    var ws, _, _ := ReadPack(s.packs[pk], blobs, s.decode);
    if ws.None? {
      ghost var b :| b in blobs && Chunk(s, b.id).None?;
      assert Wanted(b.id, wants);
      return None;
    }
    var after := WriteAll(s, files, contents, ws.value);
    PackDone(s, files, contents, after, wants, pk, blobs, ws.value, rest);
    r := Some(after);
  }

  lemma {:induction false} EmptyPack(s: Source, files: seq<FileNode>, contents: seq<Bytes>, plan: Plan,
                                     wants: seq<Want>, pk: Id, rest: set<Id>)
    requires AllFit(files, s.index) && wants == AllWants(files, s.index) && Planned(plan, wants, s.index)
    requires pk in plan && plan[pk] == map[] && Done(s, files, contents, rest)
    ensures Done(s, files, contents, rest - {pk})
  {
    forall w | w in wants ensures Met(s, files, contents, rest - {pk}, w) {
      assert Met(s, files, contents, rest, w);
      assert Wanted(w.id, wants);
      assert !(pk in plan && w.id in plan[pk]);
    }
  }

  /** A file comes out right if each of its chunks can be had on its own. */
  ghost predicate Restorable(s: Source, f: FileNode)
  {
    FileFits(f, s.index) && forall c :: c in f.content ==> Chunk(s, c).Some?
  }

  /** `restore_files`: it succeeds exactly if restoring every file chunk by chunk would, and
      gives the same bytes. */
  method RestoreAll(s: Source, files: seq<FileNode>) returns (r: Option<seq<Bytes>>)
    requires ChecksLength(s.decode)
    ensures r.Some? <==> forall f :: f in files ==> Restorable(s, f)
    ensures r.Some? ==> |r.value| == |files| && forall i :: 0 <= i < |files| ==>
                                                  Restorable(s, files[i]) && r.value[i] == Whole(s, files[i].content)
  {
    var plan := PlanReads(files, s.index);
    if plan.None? {
      ghost var i :| 0 <= i < |files| && !FileFits(files[i], s.index);
      assert !Restorable(s, files[i]) && files[i] in files;
      return None;
    }
    var contents := seq(|files|, i requires 0 <= i < |files| => seq(files[i].size, _ => 0 as Byte));
    assert Sized(contents, files);
    var rest := plan.value.Keys;
    PlanCoversAll(s, files, plan.value, contents);
    while rest != {}
      invariant rest <= plan.value.Keys && Sized(contents, files) && Done(s, files, contents, rest)
    {
      var pk :| pk in rest;
      var more := RestorePack(s, files, plan.value, pk, contents, rest);
      if more.None? {
        MissingChunk(s, files);
        return None;
      }
      contents, rest := more.value, rest - {pk};
    }
    forall i | 0 <= i < |files| ensures Restorable(s, files[i]) && contents[i] == Whole(s, files[i].content) {
      FileDone(s, files, contents, i);
    }
    r := Some(contents);
  }

  lemma {:induction false} PlanCoversAll(s: Source, files: seq<FileNode>, plan: Plan, contents: seq<Bytes>)
    requires AllFit(files, s.index) && Planned(plan, AllWants(files, s.index), s.index)
    ensures Done(s, files, contents, plan.Keys)
  {
    var wants := AllWants(files, s.index);
    forall w | w in wants ensures w.id in s.index && s.index[w.id].packId in plan {
      WantOfAll(files, s.index, w);
      FileOfWant(w.dest.file, files[w.dest.file].content, s.index, w);
      assert Wanted(w.id, wants);
      assert w.id in plan[s.index[w.id].packId];
    }
  }

  lemma {:induction false} MissingChunk(s: Source, files: seq<FileNode>)
    requires AllFit(files, s.index)
    requires exists w :: w in AllWants(files, s.index) && w.id in s.index && Chunk(s, w.id).None?
    ensures exists f :: f in files && !Restorable(s, f)
  {
    var w :| w in AllWants(files, s.index) && w.id in s.index && Chunk(s, w.id).None?;
    WantOfAll(files, s.index, w);
    var f := files[w.dest.file];
    FileOfWant(w.dest.file, f.content, s.index, w);
    assert f in files && !Restorable(s, f);
  }

  lemma {:induction false} FileDone(s: Source, files: seq<FileNode>, contents: seq<Bytes>, i: nat)
    requires AllFit(files, s.index) && ChecksLength(s.decode) && Sized(contents, files)
             && Done(s, files, contents, {}) && i < |files|
    ensures Restorable(s, files[i]) && contents[i] == Whole(s, files[i].content)
  {
    var f := files[i];
    assert FileFits(f, s.index);
    WholeLen(s, f.content);
    forall c | c in f.content ensures Chunk(s, c).Some? {
      var w := ContentIsWanted(i, f.content, s.index, c);
      FileOfWant(i, f.content, s.index, w);
      WantOfAll(files, s.index, w);
      assert Met(s, files, contents, {}, w);
    }
    forall w | w in FileWants(i, f.content, s.index)
      ensures w.id in s.index && Agrees(contents[i], Whole(s, f.content), w.dest.offset, |Plain(s, w.id)|) {
      FileOfWant(i, f.content, s.index, w);
      WantOfAll(files, s.index, w);
      assert Met(s, files, contents, {}, w);
    }
    PlacesTile(s, i, f.content, contents[i]);
    assert contents[i][..|Whole(s, f.content)|] == contents[i];
  }
}
