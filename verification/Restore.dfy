/**
 Restoring files: every chunk needed is found in the index, the reads of a pack are merged
 where they lie close together, and each chunk's bytes are written wherever a file has it.
 The result is what fetching the chunks one by one would give.
 */
module Restore {
  import opened Blobs
  import opened Options
  import opened Stream

  /** Chunks closer than this are fetched in one request. */
  const MERGE_GAP: nat := 65536

  datatype Place = Place(offset: nat, length: nat, plainLength: nat)

  datatype Where = Where(packId: Id, place: Place)

  datatype FileNode = FileNode(size: nat, content: seq<Id>)

  datatype Dest = Dest(file: nat, offset: nat)

  /** One blob to fetch and everywhere it goes. */
  datatype BlobRead = BlobRead(id: Id, place: Place, dests: seq<Dest>)

  function EndOf(p: Place): nat
  {
    p.offset + p.length
  }

  // ----- Merging reads -----

  function Flat(groups: seq<seq<BlobRead>>): seq<BlobRead>
  {
    if groups == [] then [] else Flat(groups[..|groups| - 1]) + groups[|groups| - 1]
  }

  function MaxEnd(group: seq<BlobRead>): nat
  {
    if group == [] then 0
    else
      var m := MaxEnd(group[..|group| - 1]);
      if EndOf(group[|group| - 1].place) > m then EndOf(group[|group| - 1].place) else m
  }

  function SumLengths(group: seq<BlobRead>): nat
  {
    if group == [] then 0 else SumLengths(group[..|group| - 1]) + group[|group| - 1].place.length
  }

  ghost predicate ByOffset(blobs: seq<BlobRead>)
  {
    forall i, j :: 0 <= i < j < |blobs| ==> blobs[i].place.offset <= blobs[j].place.offset
  }

  /** Each read of a group starts within the gap of what comes before it. */
  ghost predicate Close(group: seq<BlobRead>)
  {
    group != [] && forall i :: 0 < i < |group| ==> group[i].place.offset <= MaxEnd(group[..i]) + MERGE_GAP
  }

  /** Each group starts past the gap after the one before it. */
  ghost predicate Apart(groups: seq<seq<BlobRead>>)
  {
    && (forall g :: g in groups ==> Close(g))
    && (forall i :: 0 < i < |groups| ==>
          groups[i] != [] && groups[i][0].place.offset > MaxEnd(groups[i - 1]) + MERGE_GAP)
  }

  lemma {:induction false} CloseMore(group: seq<BlobRead>, r: BlobRead)
    requires Close(group) && r.place.offset <= MaxEnd(group) + MERGE_GAP
    ensures Close(group + [r])
  {
    var all := group + [r];
    forall i | 0 < i < |all| ensures all[i].place.offset <= MaxEnd(all[..i]) + MERGE_GAP {
      assert all[..i] == group[..i];
      if i == |group| {
        assert group[..i] == group;
      }
    }
  }

  lemma EndMore(group: seq<BlobRead>, r: BlobRead)
    ensures MaxEnd(group + [r]) == if EndOf(r.place) > MaxEnd(group) then EndOf(r.place) else MaxEnd(group)
  {
    assert (group + [r])[..|group|] == group;
  }

  /** `group_reads`. */
  method GroupReads(blobs: seq<BlobRead>) returns (groups: seq<seq<BlobRead>>)
    ensures Flat(groups) == blobs && Apart(groups)
    ensures forall g: seq<BlobRead>, i :: g in groups && 0 < i < |g| ==> g[i].place.offset <= MaxEnd(g[..i]) + 65536
    ensures forall i :: 0 < i < |groups| ==>
              groups[i] != [] && groups[i][0].place.offset > MaxEnd(groups[i - 1]) + 65536
  {
    groups := [];
    var end := 0;
    for i := 0 to |blobs|
      invariant Flat(groups) == blobs[..i] && Apart(groups)
      invariant groups != [] ==> end == MaxEnd(groups[|groups| - 1])
    {
      var read := blobs[i];
      OneReadMore(blobs, i);
      if groups != [] && read.place.offset <= end + MERGE_GAP {
        var last := groups[|groups| - 1];
        GrowLast(groups, read);
        end := if EndOf(read.place) > end then EndOf(read.place) else end;
        groups := groups[..|groups| - 1] + [last + [read]];
      } else {
        StartGroup(groups, read);
        end := EndOf(read.place);
        groups := groups + [[read]];
      }
    }
    assert blobs[..|blobs|] == blobs;
  }

  lemma OneReadMore(blobs: seq<BlobRead>, i: nat)
    requires i < |blobs|
    ensures blobs[..i + 1] == blobs[..i] + [blobs[i]]
  {
  }

  lemma {:induction false} GrowLast(groups: seq<seq<BlobRead>>, r: BlobRead)
    requires groups != [] && Apart(groups) && r.place.offset <= MaxEnd(groups[|groups| - 1]) + MERGE_GAP
    ensures var last := groups[|groups| - 1];
            var g := groups[..|groups| - 1] + [last + [r]];
            && Flat(g) == Flat(groups) + [r] && Apart(g)
            && MaxEnd(g[|g| - 1]) == if EndOf(r.place) > MaxEnd(last) then EndOf(r.place) else MaxEnd(last)
  {
    var init := groups[..|groups| - 1];
    var last := groups[|groups| - 1];
    var g := init + [last + [r]];
    assert last in groups;
    CloseMore(last, r);
    EndMore(last, r);
    assert g[..|g| - 1] == init;
    forall x | x in g ensures Close(x) {
      if x in init { assert x in groups; }
    }
    forall i | 0 < i < |g| ensures g[i] != [] && g[i][0].place.offset > MaxEnd(g[i - 1]) + MERGE_GAP {
      assert groups[i] != [] && g[i][0] == groups[i][0] && g[i - 1] == groups[i - 1];
    }
  }

  lemma {:induction false} StartGroup(groups: seq<seq<BlobRead>>, r: BlobRead)
    requires Apart(groups)
    requires groups != [] ==> r.place.offset > MaxEnd(groups[|groups| - 1]) + MERGE_GAP
    ensures Flat(groups + [[r]]) == Flat(groups) + [r] && Apart(groups + [[r]]) && MaxEnd([r]) == EndOf(r.place)
  {
    EndMore([], r);
    assert [] + [r] == [r];
    var g := groups + [[r]];
    assert g[..|g| - 1] == groups;
    forall x | x in g ensures Close(x) {
    }
  }

  lemma {:induction false} EndsAreMax(group: seq<BlobRead>, i: nat)
    requires i < |group|
    ensures EndOf(group[i].place) <= MaxEnd(group)
    decreases |group|
  {
    if i < |group| - 1 {
      EndsAreMax(group[..|group| - 1], i);
    }
  }

  lemma {:induction false} MaxIsAnEnd(group: seq<BlobRead>) returns (i: nat)
    requires group != []
    ensures i < |group| && EndOf(group[i].place) == MaxEnd(group)
  {
    var init := group[..|group| - 1];
    i := |group| - 1;
    if init != [] && EndOf(group[i].place) <= MaxEnd(init) {
      i := MaxIsAnEnd(init);
    }
  }

  /** A group of n reads spans at most their lengths and n - 1 gaps. */
  lemma {:induction false} SpanIsBounded(group: seq<BlobRead>)
    requires Close(group)
    ensures MaxEnd(group) <= group[0].place.offset + SumLengths(group) + (|group| - 1) * MERGE_GAP
  {
    var init, r := group[..|group| - 1], group[|group| - 1];
    if init == [] {
      assert MaxEnd(init) == 0 && SumLengths(init) == 0;
    } else {
      forall i | 0 < i < |init| ensures init[i].place.offset <= MaxEnd(init[..i]) + MERGE_GAP {
        assert init[..i] == group[..i] && init[i] == group[i];
      }
      SpanIsBounded(init);
      assert r.place.offset <= MaxEnd(init) + MERGE_GAP;
    }
  }

  // ----- One pack -----

  /** One chunk written at one place. */
  datatype Write = Write(dest: Dest, bytes: Bytes)

  /** Opening, decompressing and checking a blob; `None` if it is not what the entry says. */
  type Decode = (Id, Place, Bytes) -> Option<Bytes>

  /** A decoded blob has the length its entry says: decompression checks it. */
  ghost predicate ChecksLength(decode: Decode)
  {
    forall id, p, b :: decode(id, p, b).Some? ==> |decode(id, p, b).value| == p.plainLength
  }

  /** Fetching and decoding one chunk on its own. */
  function FetchOne(pack: Bytes, id: Id, p: Place, decode: Decode): Option<Bytes>
  {
    if EndOf(p) > |pack| then None else decode(id, p, pack[p.offset..EndOf(p)])
  }

  function WritesOf(dests: seq<Dest>, bytes: Bytes): seq<Write>
  {
    seq(|dests|, i requires 0 <= i < |dests| => Write(dests[i], bytes))
  }

  /** The writes of chunk-by-chunk restoring of these blobs. */
  function OneByOne(pack: Bytes, blobs: seq<BlobRead>, decode: Decode): Option<seq<Write>>
  {
    if blobs == [] then Some([])
    else
      var b := blobs[|blobs| - 1];
      match (OneByOne(pack, blobs[..|blobs| - 1], decode), FetchOne(pack, b.id, b.place, decode))
      case (Some(ws), Some(bytes)) => Some(ws + WritesOf(b.dests, bytes))
      case _ => None
  }

  lemma {:induction false} OneByOneFails(pack: Bytes, blobs: seq<BlobRead>, decode: Decode, n: nat)
    requires n <= |blobs| && OneByOne(pack, blobs[..n], decode).None?
    ensures OneByOne(pack, blobs, decode).None?
    decreases |blobs|
  {
    if n < |blobs| {
      assert blobs[..|blobs| - 1][..n] == blobs[..n];
      OneByOneFails(pack, blobs[..|blobs| - 1], decode, n);
    } else {
      assert blobs[..n] == blobs;
    }
  }

  lemma {:induction false} OneByOneConcat(pack: Bytes, a: seq<BlobRead>, b: seq<BlobRead>, decode: Decode)
    ensures OneByOne(pack, a + b, decode) == Both(OneByOne(pack, a, decode), OneByOne(pack, b, decode))
    decreases |b|
  {
    if b == [] {
      assert a + b == a;
      if OneByOne(pack, a, decode).Some? {
        assert OneByOne(pack, a, decode).value + [] == OneByOne(pack, a, decode).value;
      }
    } else {
      var init, x := b[..|b| - 1], b[|b| - 1];
      OneByOneConcat(pack, a, init, decode);
      assert (a + b)[..|a + b| - 1] == a + init;
      BothAssoc(OneByOne(pack, a, decode), OneByOne(pack, init, decode), FetchOne(pack, x.id, x.place, decode),
              x.dests);
    }
  }

  function Both(a: Option<seq<Write>>, b: Option<seq<Write>>): Option<seq<Write>>
  {
    if a.None? || b.None? then None else Some(a.value + b.value)
  }

  lemma BothAssoc(a: Option<seq<Write>>, b: Option<seq<Write>>, bytes: Option<Bytes>, dests: seq<Dest>)
    ensures a.Some? && b.Some? && bytes.Some? ==>
              a.value + b.value + WritesOf(dests, bytes.value) == a.value + (b.value + WritesOf(dests, bytes.value))
  {
  }

  method GroupEnd(group: seq<BlobRead>) returns (end: nat)
    ensures end == MaxEnd(group)
  {
    end := 0;
    for i := 0 to |group|
      invariant end == MaxEnd(group[..i])
    {
      assert group[..i + 1][..i] == group[..i];
      if EndOf(group[i].place) > end { end := EndOf(group[i].place); }
    }
    assert group[..|group|] == group;
  }

  lemma SliceOfSlice(pack: Bytes, start: nat, end: nat, p: Place)
    requires start <= p.offset && EndOf(p) <= end <= |pack|
    ensures pack[start..end][p.offset - start..p.offset - start + p.length] == pack[p.offset..EndOf(p)]
  {
    var cut, whole := pack[start..end][p.offset - start..p.offset - start + p.length], pack[p.offset..EndOf(p)];
    assert |cut| == |whole| && forall k :: 0 <= k < |cut| ==> cut[k] == pack[p.offset + k] == whole[k];
  }

  /** Every chunk is cut out of the fetched range, in bounds, and is what a read of its own
      would have returned. */
  method DecodeGroup(pack: Bytes, data: Bytes, start: nat, group: seq<BlobRead>, decode: Decode)
    returns (r: Option<seq<Write>>)
    requires start + |data| <= |pack| && data == pack[start..start + |data|]
    requires forall i :: 0 <= i < |group| ==> start <= group[i].place.offset && EndOf(group[i].place) <= start + |data|
    ensures r == OneByOne(pack, group, decode)
  {
    var ws: seq<Write> := [];
    for i := 0 to |group|
      invariant OneByOne(pack, group[..i], decode) == Some(ws)
    {
      var p := group[i].place;
      var at := p.offset - start;
      var sealed := data[at..at + p.length];
      SliceOfSlice(pack, start, start + |data|, p);
      assert group[..i + 1][..i] == group[..i];
      var plain := decode(group[i].id, p, sealed);
      if plain.None? {
        OneByOneFails(pack, group, decode, i + 1);
        return None;
      }
      ws := ws + WritesOf(group[i].dests, plain.value);
    }
    assert group[..|group|] == group;
    r := Some(ws);
  }

  /** One merged read, failing exactly when some chunk's own read would. */
  method ReadGroup(pack: Bytes, group: seq<BlobRead>, decode: Decode) returns (r: Option<seq<Write>>, fetched: nat)
    requires Close(group) && ByOffset(group)
    ensures r == OneByOne(pack, group, decode)
    ensures fetched <= SumLengths(group) + (|group| - 1) * MERGE_GAP
  {
    var start := group[0].place.offset;
    var end := GroupEnd(group);
    EndsAreMax(group, 0);
    SpanIsBounded(group);
    fetched := end - start;
    if end > |pack| {
      ghost var i := MaxIsAnEnd(group);
      assert group[..i + 1][..i] == group[..i];
      OneByOneFails(pack, group, decode, i + 1);
      return None, fetched;
    }
    forall i | 0 <= i < |group| ensures EndOf(group[i].place) <= end {
      EndsAreMax(group, i);
    }
    r := DecodeGroup(pack, pack[start..end], start, group, decode);
  }

  lemma {:induction false} GroupIsByOffset(groups: seq<seq<BlobRead>>, i: nat)
    requires ByOffset(Flat(groups)) && i < |groups|
    ensures ByOffset(groups[i])
    decreases |groups|
  {
    var init, last := groups[..|groups| - 1], groups[|groups| - 1];
    var all := Flat(groups);
    assert all == Flat(init) + last;
    if i < |init| {
      assert forall j :: 0 <= j < |Flat(init)| ==> Flat(init)[j] == all[j];
      GroupIsByOffset(init, i);
    } else {
      assert forall j :: 0 <= j < |last| ==> last[j] == all[|Flat(init)| + j];
    }
  }

  lemma GroupFails(pack: Bytes, groups: seq<seq<BlobRead>>, decode: Decode, i: nat)
    requires i < |groups| && OneByOne(pack, Flat(groups[..i + 1]), decode).None?
    ensures OneByOne(pack, Flat(groups), decode).None?
  {
    FlatPrefix(groups, i + 1);
    OneByOneFails(pack, Flat(groups), decode, |Flat(groups[..i + 1])|);
  }

  lemma {:induction false} SumConcat(a: seq<BlobRead>, b: seq<BlobRead>)
    ensures SumLengths(a + b) == SumLengths(a) + SumLengths(b)
    decreases |b|
  {
    if b == [] {
      assert a + b == a;
    } else {
      assert (a + b)[..|a + b| - 1] == a + b[..|b| - 1];
      SumConcat(a, b[..|b| - 1]);
    }
  }

  /** What reading the first `n` groups may fetch: `n` groups have that many gaps fewer. */
  function Allowed(groups: seq<seq<BlobRead>>, n: nat): int
    requires n <= |groups|
  {
    SumLengths(Flat(groups[..n])) + (|Flat(groups[..n])| - n) * MERGE_GAP
  }

  lemma {:induction false} AllowedMore(groups: seq<seq<BlobRead>>, n: nat)
    requires n < |groups|
    ensures Allowed(groups, n + 1) == Allowed(groups, n) + SumLengths(groups[n]) + (|groups[n]| - 1) * MERGE_GAP
  {
    assert groups[..n + 1][..n] == groups[..n];
    SumConcat(Flat(groups[..n]), groups[n]);
  }

  lemma {:induction false} AllowedGrows(groups: seq<seq<BlobRead>>, n: nat)
    requires n <= |groups| && forall g :: g in groups ==> g != []
    ensures Allowed(groups, n) <= Allowed(groups, |groups|)
    decreases |groups| - n
  {
    if n < |groups| {
      assert groups[n] in groups;
      AllowedMore(groups, n);
      AllowedGrows(groups, n + 1);
    }
  }

  /** `read_pack`: the merged reads give exactly the writes of reading chunk by chunk, or fail
      exactly when that would; what is fetched is bounded by the chunks and the gaps between
      those read together. */
  method ReadPack(pack: Bytes, blobs: seq<BlobRead>, decode: Decode)
    returns (r: Option<seq<Write>>, fetched: nat, ghost groups: seq<seq<BlobRead>>)
    requires ByOffset(blobs)
    ensures r == OneByOne(pack, blobs, decode)
    ensures Flat(groups) == blobs && Apart(groups) && fetched <= SumLengths(blobs) + (|blobs| - |groups|) * MERGE_GAP
  {
    var together := GroupReads(blobs);
    groups := together;
    var ws: seq<Write> := [];
    fetched := 0;
    assert forall g :: g in groups ==> g != [];
    for i := 0 to |together|
      invariant OneByOne(pack, Flat(groups[..i]), decode) == Some(ws)
      invariant fetched <= Allowed(groups, i)
    {
      assert groups[..i + 1][..i] == groups[..i];
      GroupIsByOffset(groups, i);
      assert groups[i] in groups;
      var more, bytes := ReadGroup(pack, together[i], decode);
      fetched := fetched + bytes;
      AllowedMore(groups, i);
      OneByOneConcat(pack, Flat(groups[..i]), groups[i], decode);
      if more.None? {
        GroupFails(pack, groups, decode, i);
        AllowedGrows(groups, i + 1);
        assert groups[..|groups|] == groups;
        return None, fetched, groups;
      }
      ws := ws + more.value;
    }
    assert groups[..|groups|] == groups;
    r := Some(ws);
  }

  lemma {:induction false} FlatPrefix(groups: seq<seq<BlobRead>>, n: nat)
    requires n <= |groups|
    ensures |Flat(groups[..n])| <= |Flat(groups)| && Flat(groups)[..|Flat(groups[..n])|] == Flat(groups[..n])
    decreases |groups|
  {
    if n < |groups| {
      assert groups[..|groups| - 1][..n] == groups[..n];
      FlatPrefix(groups[..|groups| - 1], n);
    } else {
      assert groups[..n] == groups;
    }
  }
}
