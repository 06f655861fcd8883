/**
 The pack and index formats, byte for byte. Both are canonical: decoding what was encoded
 gives it back, and any bytes accepted are the encoding of what they decode to.
 */
module Codec {
  import opened Options
  import opened Stream
  import RepositoryWriter

  const U32: nat := 0x1_0000_0000
  const ID_SIZE: nat := 32
  const ENTRY_SIZE: nat := 46
  const FOOTER_SIZE: nat := 12
  const MAX_HEADER_SIZE: nat := 64 * 1024 * 1024
  const TAIL_READ_SIZE: nat := 4096
  const PACK_VERSION: nat := 1
  const INDEX_VERSION: nat := 1
  const MAGIC: Bytes := [0x52, 0x46, 0x4D, 0x42]

  // ----- Numbers -----

  /** Little-endian, `k` bytes. */
  function LeBytes(n: nat, k: nat): (b: Bytes)
    ensures |b| == k
    decreases n, k
  {
    if k == 0 then [] else [(n % 256) as Byte] + LeBytes(n / 256, k - 1)
  }

  function NumOf(b: Bytes): nat
  {
    if b == [] then 0 else b[0] as nat + 256 * NumOf(b[1..])
  }

  ghost function Pow256(k: nat): nat
  {
    if k == 0 then 1 else 256 * Pow256(k - 1)
  }

  lemma {:induction false} NumOfLe(n: nat, k: nat)
    requires n < Pow256(k)
    ensures NumOf(LeBytes(n, k)) == n
    decreases k
  {
    if k > 0 {
      NumOfLe(n / 256, k - 1);
      assert LeBytes(n, k)[1..] == LeBytes(n / 256, k - 1);
    }
  }

  lemma DivMod256(a: nat, m: nat)
    requires a < 256
    ensures (a + 256 * m) % 256 == a && (a + 256 * m) / 256 == m
  {
  }

  lemma {:induction false} LeStep(first: nat, more: nat, k: nat)
    requires first < 256
    ensures LeBytes(first + 256 * more, k + 1) == [first as Byte] + LeBytes(more, k)
  {
    DivMod256(first, more);
  }

  lemma {:induction false} LeOfNum(b: Bytes)
    ensures NumOf(b) < Pow256(|b|) && LeBytes(NumOf(b), |b|) == b
    decreases |b|
  {
    if b != [] {
      LeOfNum(b[1..]);
      LeStep(b[0] as nat, NumOf(b[1..]), |b| - 1);
      assert b == [b[0]] + b[1..];
    }
  }

  lemma Pow256Of4()
    ensures Pow256(4) == U32
  {
    assert Pow256(1) == 256 && Pow256(2) == 65536 && Pow256(3) == 16777216;
  }

  function Le32(n: nat): (b: Bytes)
    ensures |b| == 4
  {
    LeBytes(n, |MAGIC|)
  }

  function Num32(b: Bytes): nat
    requires |b| == 4
  {
    NumOf(b)
  }

  lemma Num32Inverts(n: nat)
    requires n < U32
    ensures Num32(Le32(n)) == n
  {
    Pow256Of4();
    NumOfLe(n, |MAGIC|);
  }

  lemma Le32Inverts(b: Bytes)
    requires |b| == 4
    ensures Num32(b) < U32 && Le32(Num32(b)) == b
  {
    Pow256Of4();
    LeOfNum(b);
  }

  // ----- Counted lists -----

  /** What is parsed off the front of some bytes, and what follows. */
  datatype Parsed<T> = Bad | Parsed(value: T, rest: Bytes)

  /** How one item is written and read. */
  datatype Coding<!T> = Coding(enc: T -> Bytes, dec: Bytes -> Parsed<T>)

  /** Reading gives back what was written and accepts nothing else; an item takes at least `unit` bytes. */
  ghost predicate Lawful<T(!new)>(c: Coding<T>, ok: T -> bool, unit: nat)
  {
    && (forall x, rest :: ok(x) ==> c.dec(c.enc(x) + rest) == Parsed(x, rest))
    && (forall d :: c.dec(d).Parsed? ==> ok(c.dec(d).value) && d == c.enc(c.dec(d).value) + c.dec(d).rest)
    && (forall x :: ok(x) ==> |c.enc(x)| >= unit)
  }

  function EncodeAll<T>(c: Coding<T>, xs: seq<T>): Bytes
    decreases |xs|
  {
    if xs == [] then [] else c.enc(xs[0]) + EncodeAll(c, xs[1..])
  }

  function DecodeAll<T>(c: Coding<T>, data: Bytes, count: nat): Parsed<seq<T>>
    decreases count
  {
    if count == 0 then Parsed([], data)
    else
      match c.dec(data)
      case Bad => Bad
      case Parsed(x, rest) => Before([x], DecodeAll(c, rest, count - 1))
  }

  function Before<T>(xs: seq<T>, p: Parsed<seq<T>>): Parsed<seq<T>>
  {
    match p
    case Bad => Bad
    case Parsed(more, rest) => Parsed(xs + more, rest)
  }

  /** A 32-bit count, then the items. The count is cast, so it is only right for lists that short. */
  function EncodeCounted<T>(c: Coding<T>, xs: seq<T>): Bytes
  {
    Le32(|xs| % U32) + EncodeAll(c, xs)
  }

  /** A declared count there is no room for is refused before any item is read. */
  function DecodeCounted<T>(c: Coding<T>, unit: nat, data: Bytes): Parsed<seq<T>>
  {
    if |data| < 4 then Bad
    else if unit * Num32(data[..4]) > |data| - 4 then Bad
    else DecodeAll(c, data[4..], Num32(data[..4]))
  }

  lemma Assoc(a: Bytes, b: Bytes, c: Bytes)
    ensures a + b + c == a + (b + c)
  {
  }

  lemma CutFront(a: Bytes, b: Bytes)
    ensures (a + b)[..|a|] == a && (a + b)[|a|..] == b
  {
  }

  lemma {:induction false} FirstRoundTrip<T(!new)>(c: Coding<T>, x: T, xs: seq<T>, tail: Bytes, rest: Bytes)
    requires c.dec(c.enc(x) + (tail + rest)) == Parsed(x, tail + rest)
    requires DecodeAll(c, tail + rest, |xs|) == Parsed(xs, rest)
    ensures DecodeAll(c, c.enc(x) + tail + rest, |xs| + 1) == Parsed([x] + xs, rest)
  {
    Assoc(c.enc(x), tail, rest);
  }

  lemma {:induction false} AllAtLeast<T(!new)>(c: Coding<T>, ok: T -> bool, unit: nat, xs: seq<T>)
    requires Lawful(c, ok, unit) && forall x :: x in xs ==> ok(x)
    ensures |EncodeAll(c, xs)| >= unit * |xs|
    decreases |xs|
  {
    if xs != [] {
      AllAtLeast(c, ok, unit, xs[1..]);
    }
  }

  lemma {:induction false} AllRoundTrip<T(!new)>(c: Coding<T>, ok: T -> bool, unit: nat, xs: seq<T>, rest: Bytes)
    requires Lawful(c, ok, unit) && forall x :: x in xs ==> ok(x)
    ensures DecodeAll(c, EncodeAll(c, xs) + rest, |xs|) == Parsed(xs, rest)
    decreases |xs|
  {
    if xs == [] {
      assert [] + rest == rest;
    } else {
      var tail := EncodeAll(c, xs[1..]);
      AllRoundTrip(c, ok, unit, xs[1..], rest);
      assert ok(xs[0]) && c.dec(c.enc(xs[0]) + (tail + rest)) == Parsed(xs[0], tail + rest);
      FirstRoundTrip(c, xs[0], xs[1..], tail, rest);
      assert [xs[0]] + xs[1..] == xs;
    }
  }

  lemma {:induction false} EncodeFirst<T(!new)>(c: Coding<T>, x: T, xs: seq<T>)
    ensures EncodeAll(c, [x] + xs) == c.enc(x) + EncodeAll(c, xs)
  {
    var all := [x] + xs;
    assert all[0] == x && all[1..] == xs;
  }

  lemma {:induction false} FirstCanonical<T(!new)>(c: Coding<T>, ok: T -> bool, unit: nat, x: T, p: Parsed<seq<T>>,
                                                   count: nat, data: Bytes, tail: Bytes)
    requires Lawful(c, ok, unit) && ok(x) && data == c.enc(x) + tail && p.Parsed?
             && tail == EncodeAll(c, p.value) + p.rest
    requires |p.value| == count && (forall y :: y in p.value ==> ok(y)) && |EncodeAll(c, p.value)| >= unit * count
    ensures data == EncodeAll(c, [x] + p.value) + p.rest && |EncodeAll(c, [x] + p.value)| >= unit * (count + 1)
    ensures forall y :: y in [x] + p.value ==> ok(y)
  {
    EncodeFirst(c, x, p.value);
    Assoc(c.enc(x), EncodeAll(c, p.value), p.rest);
  }

  lemma {:induction false} AllCanonical<T(!new)>(c: Coding<T>, ok: T -> bool, unit: nat, data: Bytes, count: nat)
    requires Lawful(c, ok, unit) && DecodeAll(c, data, count).Parsed?
    ensures var p := DecodeAll(c, data, count);
            |p.value| == count && (forall x :: x in p.value ==> ok(x)) && data == EncodeAll(c, p.value) + p.rest
            && |EncodeAll(c, p.value)| >= unit * count
    decreases count
  {
    if count == 0 {
      assert [] + data == data;
    } else {
      var first := c.dec(data);
      AllCanonical(c, ok, unit, first.rest, count - 1);
      FirstCanonical(c, ok, unit, first.value, DecodeAll(c, first.rest, count - 1), count - 1, data, first.rest);
    }
  }

  /** Whatever was written is read back; in particular the count check never refuses it. */
  lemma CountedRoundTrip<T(!new)>(c: Coding<T>, ok: T -> bool, unit: nat, xs: seq<T>, rest: Bytes)
    requires Lawful(c, ok, unit) && |xs| < U32 && forall x :: x in xs ==> ok(x)
    ensures DecodeCounted(c, unit, EncodeCounted(c, xs) + rest) == Parsed(xs, rest)
    ensures |EncodeCounted(c, xs)| >= 4 + unit * |xs|
  {
    AllRoundTrip(c, ok, unit, xs, rest);
    AllAtLeast(c, ok, unit, xs);
    HeadRoundTrip(c, unit, |xs|, EncodeAll(c, xs), rest);
  }

  lemma {:induction false} HeadRoundTrip<T(!new)>(c: Coding<T>, unit: nat, count: nat, body: Bytes, rest: Bytes)
    requires count < U32 && |body| >= unit * count
    ensures DecodeCounted(c, unit, Le32(count % U32) + body + rest) == DecodeAll(c, body + rest, count)
  {
    var head := Le32(count);
    Num32Inverts(count);
    assert count % U32 == count;
    HeadDecodes(c, unit, head, body + rest, count, unit * count);
    Assoc(head, body, rest);
  }

  lemma {:induction false} HeadDecodes<T(!new)>(c: Coding<T>, unit: nat, head: Bytes, body: Bytes, count: nat,
                                                need: nat)
    requires |head| == 4 && Num32(head) == count && need == unit * count && |body| >= need
    ensures DecodeCounted(c, unit, head + body) == DecodeAll(c, body, count)
  {
    CutFront(head, body);
    HeadRead(c, unit, head + body, count, need);
  }

  lemma {:induction false} HeadRead<T(!new)>(c: Coding<T>, unit: nat, data: Bytes, count: nat, need: nat)
    requires |data| >= 4 && Num32(data[..4]) == count && need == unit * count && |data| - 4 >= need
    ensures DecodeCounted(c, unit, data) == DecodeAll(c, data[4..], count)
  {
  }

  lemma {:induction false} HeadAndItems<T(!new)>(c: Coding<T>, head: Bytes, count: nat, xs: seq<T>, items: Bytes,
                                                 rest: Bytes)
    requires count < U32 && head == Le32(count) && |xs| == count && items == EncodeAll(c, xs)
    ensures head + (items + rest) == EncodeCounted(c, xs) + rest
  {
    Assoc(head, items, rest);
  }

  /** Whatever is accepted is what writing its items gives. */
  lemma {:induction false} CountedCanonical<T(!new)>(c: Coding<T>, ok: T -> bool, unit: nat, data: Bytes)
    requires Lawful(c, ok, unit) && DecodeCounted(c, unit, data).Parsed?
    ensures var p := DecodeCounted(c, unit, data);
            |p.value| < U32 && (forall x :: x in p.value ==> ok(x)) && data == EncodeCounted(c, p.value) + p.rest
  {
    var head, body := data[..4], data[4..];
    assert data == head + body;
    Le32Inverts(head);
    CountedTail(c, ok, unit, data, head, body, Num32(head));
  }

  lemma {:induction false} CountedTail<T(!new)>(c: Coding<T>, ok: T -> bool, unit: nat, data: Bytes, head: Bytes,
                                                body: Bytes, count: nat)
    requires Lawful(c, ok, unit) && DecodeAll(c, body, count).Parsed?
    requires count < U32 && head == Le32(count) && data == head + body
    ensures var p := DecodeAll(c, body, count);
            |p.value| < U32 && (forall x :: x in p.value ==> ok(x)) && data == EncodeCounted(c, p.value) + p.rest
  {
    AllCanonical(c, ok, unit, body, count);
    var p := DecodeAll(c, body, count);
    HeadAndItems(c, head, count, p.value, EncodeAll(c, p.value), p.rest);
  }

  /** The count check refuses only what reading on would have refused anyway. */
  lemma {:induction false} CountCheckOnlyHastens<T(!new)>(c: Coding<T>, ok: T -> bool, unit: nat, data: Bytes,
                                                          count: nat)
    requires Lawful(c, ok, unit) && unit * count > |data|
    ensures DecodeAll(c, data, count).Bad?
  {
    if DecodeAll(c, data, count).Parsed? {
      AllCanonical(c, ok, unit, data, count);
    }
  }

  /** The decoding loop, over a shrinking rest. */
  method ReadAll<T>(c: Coding<T>, data: Bytes, count: nat) returns (r: Parsed<seq<T>>)
    ensures r == DecodeAll(c, data, count)
  {
    var rest, xs: seq<T> := data, [];
    BeforeNothing(DecodeAll(c, data, count));
    for i := 0 to count
      invariant DecodeAll(c, data, count) == Before(xs, DecodeAll(c, rest, count - i))
    {
      var p := c.dec(rest);
      if p.Bad? { return Bad; }
      BeforeStep(xs, p.value, DecodeAll(c, p.rest, count - i - 1));
      xs, rest := xs + [p.value], p.rest;
    }
    assert xs + [] == xs;
    return Parsed(xs, rest);
  }

  lemma BeforeNothing<T>(p: Parsed<seq<T>>)
    ensures Before([], p) == p
  {
    if p.Parsed? {
      assert [] + p.value == p.value;
    }
  }

  lemma BeforeStep<T>(xs: seq<T>, x: T, p: Parsed<seq<T>>)
    ensures Before(xs, Before([x], p)) == Before(xs + [x], p)
  {
    if p.Parsed? {
      assert xs + ([x] + p.value) == xs + [x] + p.value;
    }
  }

  method ReadCounted<T>(c: Coding<T>, unit: nat, data: Bytes) returns (r: Parsed<seq<T>>)
    ensures r == DecodeCounted(c, unit, data)
  {
    if |data| < 4 { return Bad; }
    var count := Num32(data[..4]);
    if unit * count > |data| - 4 { return Bad; }
    r := ReadAll(c, data[4..], count);
  }

  /** The encoding loop, onto the end of a buffer. */
  method Append<T>(c: Coding<T>, xs: seq<T>, out: Bytes) returns (r: Bytes)
    ensures r == out + EncodeCounted(c, xs)
  {
    r := out + Le32(|xs| % U32);
    assert xs[0..] == xs;
    Assoc(out, Le32(|xs| % U32), EncodeAll(c, xs));
    for i := 0 to |xs|
      invariant r + EncodeAll(c, xs[i..]) == out + EncodeCounted(c, xs)
    {
      assert xs[i..][1..] == xs[i + 1..];
      Assoc(r, c.enc(xs[i]), EncodeAll(c, xs[i + 1..]));
      r := r + c.enc(xs[i]);
    }
    assert r + [] == r;
  }

  // ----- Entries -----

  datatype BlobType = DataBlob | TreeBlob

  datatype Compression = Plain | Zstd

  datatype PackEntry = PackEntry(kind: BlobType, compression: Compression, id: Bytes, offset: nat, length: nat,
          plainLength: nat)

  /** What the fields' widths allow. */
  predicate Fits(e: PackEntry)
  {
    |e.id| == ID_SIZE && e.offset < U32 && e.length < U32 && e.plainLength < U32
  }

  function KindByte(k: BlobType): Byte
  {
    if k.DataBlob? then 1 else 2
  }

  function CompressionByte(c: Compression): Byte
  {
    if c.Plain? then 0 else 1
  }

  function EncodeEntry(e: PackEntry): Bytes
  {
    [KindByte(e.kind), CompressionByte(e.compression)] + e.id + Le32(e.offset) + Le32(e.length) + Le32(e.plainLength)
  }

  /** An unknown blob type or compression is refused. */
  function DecodeRaw(raw: Bytes): Option<PackEntry>
    requires |raw| == ENTRY_SIZE
  {
    if raw[0] != 1 && raw[0] != 2 then None
    else if raw[1] != 0 && raw[1] != 1 then None
    else
      Some(PackEntry(if raw[0] == 1 then DataBlob else TreeBlob, if raw[1] == 0 then Plain else Zstd,
                     raw[2..34], Num32(raw[34..38]), Num32(raw[38..42]), Num32(raw[42..46])))
  }

  function DecodeEntry(data: Bytes): Parsed<PackEntry>
  {
    if |data| < ENTRY_SIZE then Bad
    else
      match DecodeRaw(data[..ENTRY_SIZE])
      case None => Bad
      case Some(e) => Parsed(e, data[ENTRY_SIZE..])
  }

  lemma EntryRoundTrip(e: PackEntry)
    requires Fits(e)
    ensures |EncodeEntry(e)| == ENTRY_SIZE && DecodeRaw(EncodeEntry(e)) == Some(e)
  {
    var raw := EncodeEntry(e);
    Num32Inverts(e.offset);
    Num32Inverts(e.length);
    Num32Inverts(e.plainLength);
    assert raw[2..34] == e.id && raw[34..38] == Le32(e.offset) && raw[38..42] == Le32(e.length)
           && raw[42..46] == Le32(e.plainLength);
  }

  lemma EntryCanonical(raw: Bytes)
    requires |raw| == ENTRY_SIZE && DecodeRaw(raw).Some?
    ensures Fits(DecodeRaw(raw).value) && EncodeEntry(DecodeRaw(raw).value) == raw
  {
    Le32Inverts(raw[34..38]);
    Le32Inverts(raw[38..42]);
    Le32Inverts(raw[42..46]);
    EntryPieces(raw);
  }

  lemma EntryPieces(raw: Bytes)
    requires |raw| == ENTRY_SIZE
    ensures raw == [raw[0], raw[1]] + raw[2..34] + raw[34..38] + raw[38..42] + raw[42..46]
  {
  }

  /** The four bytes of a number, least significant first. */
  predicate HasNum(b: Bytes, at: nat, n: nat)
    requires at + 4 <= |b|
  {
    && b[at] as nat == n % 256 && b[at + 1] as nat == n / 256 % 256
    && b[at + 2] as nat == n / 65536 % 256 && b[at + 3] as nat == n / 16777216 % 256
  }

  lemma Le32Bytes(n: nat)
    ensures HasNum(Le32(n), 0, n)
  {
    var b := Le32(n);
    assert b == [(n % 256) as Byte] + LeBytes(n / 256, 3);
    assert LeBytes(n / 256, 3) == [(n / 256 % 256) as Byte] + LeBytes(n / 256 / 256, 2);
    assert LeBytes(n / 256 / 256, 2) == [(n / 256 / 256 % 256) as Byte] + LeBytes(n / 256 / 256 / 256, 1);
    var top := n / 256 / 256 / 256;
    assert LeBytes(top, 1) == [(top % 256) as Byte] + LeBytes(top / 256, 0);
  }

  lemma NumAt(b: Bytes, at: nat, n: nat)
    requires at + 4 <= |b| && b[at..at + 4] == Le32(n)
    ensures HasNum(b, at, n)
  {
    Le32Bytes(n);
    assert b[at] == b[at..at + 4][0] && b[at + 1] == b[at..at + 4][1];
    assert b[at + 2] == b[at..at + 4][2] && b[at + 3] == b[at..at + 4][3];
  }

  /** The 46 bytes of an entry, by position. */
  lemma EntryLayout(e: PackEntry)
    requires Fits(e)
    ensures var b := EncodeEntry(e);
            && |b| == 46
            && (b[0] == if e.kind.DataBlob? then 1 else 2) && (b[1] == if e.compression.Plain? then 0 else 1)
            && b[2..34] == e.id
            && HasNum(b, 34, e.offset) && HasNum(b, 38, e.length) && HasNum(b, 42, e.plainLength)
  {
    var b := EncodeEntry(e);
    assert b[2..34] == e.id && b[34..38] == Le32(e.offset) && b[38..42] == Le32(e.length)
           && b[42..46] == Le32(e.plainLength);
    NumAt(b, 34, e.offset);
    NumAt(b, 38, e.length);
    NumAt(b, 42, e.plainLength);
  }

  function EntryC(): Coding<PackEntry>
  {
    Coding(EncodeEntry, DecodeEntry)
  }

  lemma EntryLaws()
    ensures Lawful(EntryC(), Fits, ENTRY_SIZE)
  {
    var c := EntryC();
    forall e: PackEntry, rest: Bytes | Fits(e) ensures c.dec(c.enc(e) + rest) == Parsed(e, rest) {
      EntryRoundTrip(e);
      CutFront(EncodeEntry(e), rest);
    }
    forall d: Bytes | c.dec(d).Parsed? ensures Fits(c.dec(d).value) && d == c.enc(c.dec(d).value) + c.dec(d).rest {
      EntryCanonical(d[..ENTRY_SIZE]);
      assert d == d[..ENTRY_SIZE] + d[ENTRY_SIZE..];
    }
    forall e: PackEntry | Fits(e) ensures |c.enc(e)| >= ENTRY_SIZE {
      EntryRoundTrip(e);
    }
  }

  /** `encode_entries`. */
  function EncodeEntries(es: seq<PackEntry>): Bytes
  {
    EncodeCounted(EntryC(), es)
  }

  /** `decode_entries`. */
  function DecodeEntries(data: Bytes): Parsed<seq<PackEntry>>
  {
    DecodeCounted(EntryC(), ENTRY_SIZE, data)
  }

  predicate ListFits(es: seq<PackEntry>)
  {
    |es| < U32 && forall e :: e in es ==> Fits(e)
  }

  lemma EntriesRoundTrip(es: seq<PackEntry>, rest: Bytes)
    requires ListFits(es)
    ensures DecodeEntries(EncodeEntries(es) + rest) == Parsed(es, rest)
    ensures |EncodeEntries(es)| >= 4
  {
    EntryLaws();
    CountedRoundTrip(EntryC(), Fits, ENTRY_SIZE, es, rest);
  }

  lemma EntriesCanonical(data: Bytes)
    requires DecodeEntries(data).Parsed?
    ensures var p := DecodeEntries(data); ListFits(p.value) && data == EncodeEntries(p.value) + p.rest
  {
    EntryLaws();
    CountedCanonical(EntryC(), Fits, ENTRY_SIZE, data);
  }

  lemma {:induction false} EntriesLen(es: seq<PackEntry>)
    requires forall e :: e in es ==> Fits(e)
    ensures |EncodeAll(EntryC(), es)| == ENTRY_SIZE * |es|
    decreases |es|
  {
    if es != [] {
      EntryRoundTrip(es[0]);
      EntriesLen(es[1..]);
    }
  }

  // ----- Index objects -----

  datatype Listing = Listing(packId: Bytes, entries: seq<PackEntry>)

  predicate ListingFits(l: Listing)
  {
    |l.packId| == ID_SIZE && ListFits(l.entries)
  }

  function EncodeListing(l: Listing): Bytes
  {
    l.packId + EncodeEntries(l.entries)
  }

  function DecodeListing(data: Bytes): Parsed<Listing>
  {
    if |data| < ID_SIZE then Bad
    else
      match DecodeEntries(data[ID_SIZE..])
      case Bad => Bad
      case Parsed(es, rest) => Parsed(Listing(data[..ID_SIZE], es), rest)
  }

  function ListingC(): Coding<Listing>
  {
    Coding(EncodeListing, DecodeListing)
  }

  lemma ListingRoundTrip(l: Listing, rest: Bytes)
    requires ListingFits(l)
    ensures DecodeListing(EncodeListing(l) + rest) == Parsed(l, rest)
    ensures |EncodeListing(l)| >= ID_SIZE + 4
  {
    EntriesRoundTrip(l.entries, rest);
    Assoc(l.packId, EncodeEntries(l.entries), rest);
    CutFront(l.packId, EncodeEntries(l.entries) + rest);
  }

  lemma ListingCanonical(data: Bytes)
    requires DecodeListing(data).Parsed?
    ensures var p := DecodeListing(data); ListingFits(p.value) && data == EncodeListing(p.value) + p.rest
  {
    EntriesCanonical(data[ID_SIZE..]);
    var p := DecodeEntries(data[ID_SIZE..]);
    Assoc(data[..ID_SIZE], EncodeEntries(p.value), p.rest);
    assert data == data[..ID_SIZE] + data[ID_SIZE..];
  }

  lemma ListingLaws()
    ensures Lawful(ListingC(), ListingFits, ID_SIZE + 4)
  {
    var c := ListingC();
    forall l: Listing, rest: Bytes | ListingFits(l) ensures c.dec(c.enc(l) + rest) == Parsed(l, rest) {
      ListingRoundTrip(l, rest);
    }
    forall d: Bytes | c.dec(d).Parsed?
      ensures ListingFits(c.dec(d).value) && d == c.enc(c.dec(d).value) + c.dec(d).rest {
      ListingCanonical(d);
    }
    forall l: Listing | ListingFits(l) ensures |c.enc(l)| >= ID_SIZE + 4 {
      ListingRoundTrip(l, []);
    }
  }

  /** `index::encode`: version, pack count, then each pack's ID and entry list. */
  function EncodeIndex(ls: seq<Listing>): Bytes
  {
    Le32(INDEX_VERSION) + EncodeCounted(ListingC(), ls)
  }

  /** `index::decode`. */
  function DecodeIndex(data: Bytes): Option<seq<Listing>>
  {
    if |data| < 4 || Num32(data[..4]) != INDEX_VERSION then None
    else
      match DecodeCounted(ListingC(), ID_SIZE + 4, data[4..])
      case Bad => None
      case Parsed(ls, rest) => if rest == [] then Some(ls) else None
  }

  ghost predicate IndexFits(ls: seq<Listing>)
  {
    |ls| < U32 && forall l :: l in ls ==> ListingFits(l)
  }

  lemma IndexRoundTrip(ls: seq<Listing>)
    requires IndexFits(ls)
    ensures DecodeIndex(EncodeIndex(ls)) == Some(ls)
  {
    ListingLaws();
    CountedRoundTrip(ListingC(), ListingFits, ID_SIZE + 4, ls, []);
    Num32Inverts(INDEX_VERSION);
    CutFront(Le32(INDEX_VERSION), EncodeCounted(ListingC(), ls));
    assert EncodeCounted(ListingC(), ls) + [] == EncodeCounted(ListingC(), ls);
  }

  lemma IndexCanonical(data: Bytes)
    requires DecodeIndex(data).Some?
    ensures IndexFits(DecodeIndex(data).value) && EncodeIndex(DecodeIndex(data).value) == data
  {
    ListingLaws();
    CountedCanonical(ListingC(), ListingFits, ID_SIZE + 4, data[4..]);
    Le32Inverts(data[..4]);
    var ls := DecodeIndex(data).value;
    assert EncodeCounted(ListingC(), ls) + [] == EncodeCounted(ListingC(), ls);
    assert data == data[..4] + data[4..];
  }

  /** An index object starts with version 1 and the number of packs; each pack is its ID, the
      number of its entries, and the entries. */
  lemma IndexLayout(ls: seq<Listing>)
    requires IndexFits(ls)
    ensures var b := EncodeIndex(ls);
            && |b| >= 8 && b[..4] == [1, 0, 0, 0] && HasNum(b, 4, |ls|)
            && (ls == [] ==> b == [1, 0, 0, 0, 0, 0, 0, 0])
            && (ls != [] ==> |b| >= 44 && b[8..40] == ls[0].packId && HasNum(b, 40, |ls[0].entries|))
  {
    IndexHead(ls);
    if ls != [] {
      var b, items := EncodeIndex(ls), EncodeAll(ListingC(), ls);
      assert ls[0] in ls;
      FirstListing(ls);
      FrontOf(b, 8, items, 0, 32);
      FrontOf(b, 8, items, 32, 4);
      NumAt(b, 40, |ls[0].entries|);
    }
  }

  lemma VersionBytes()
    ensures Le32(INDEX_VERSION) == [1, 0, 0, 0] && Le32(0) == [0, 0, 0, 0]
  {
    Le32Bytes(1);
    Le32Bytes(0);
  }

  lemma {:induction false} IndexHead(ls: seq<Listing>)
    requires |ls| < U32
    ensures var b, items := EncodeIndex(ls), EncodeAll(ListingC(), ls);
            |b| == 8 + |items| && b[..4] == [1, 0, 0, 0] && HasNum(b, 4, |ls|) && b[8..] == items
    ensures ls == [] ==> EncodeIndex(ls) == [1, 0, 0, 0, 0, 0, 0, 0]
  {
    IndexPieces(ls);
    TwoHeads([1, 0, 0, 0], Le32(|ls|), EncodeAll(ListingC(), ls), |ls|);
    VersionBytes();
  }

  lemma {:induction false} IndexPieces(ls: seq<Listing>)
    requires |ls| < U32
    ensures EncodeIndex(ls) == [1, 0, 0, 0] + (Le32(|ls|) + EncodeAll(ListingC(), ls))
    ensures ls == [] ==> EncodeAll(ListingC(), ls) == []
  {
    VersionBytes();
    assert |ls| % U32 == |ls|;
  }

  lemma {:induction false} TwoHeads(x: Bytes, y: Bytes, z: Bytes, n: nat)
    requires |x| == 4 && y == Le32(n)
    ensures var b := x + (y + z); |b| == 8 + |z| && b[..4] == x && HasNum(b, 4, n) && b[8..] == z
    ensures z == [] ==> x + (y + z) == x + y
  {
    var b := x + (y + z);
    assert b[4..8] == y;
    NumAt(b, 4, n);
  }

  lemma FrontOf(b: Bytes, at: nat, items: Bytes, i: nat, n: nat)
    requires |b| == at + |items| && b[at..] == items && i + n <= |items|
    ensures b[at + i..at + i + n] == items[i..i + n]
  {
    var front := b[at + i..at + i + n];
    forall k | 0 <= k < n ensures front[k] == items[i..i + n][k] {
      assert b[at..][i + k] == items[i + k];
    }
    assert front == items[i..i + n];
  }

  lemma {:induction false} FirstListing(ls: seq<Listing>)
    requires ls != [] && ListingFits(ls[0])
    ensures var items := EncodeAll(ListingC(), ls);
            |items| >= 36 && items[0..32] == ls[0].packId && items[32..36] == Le32(|ls[0].entries|)
  {
    ListingHead(ls[0]);
    FrontStays(EncodeListing(ls[0]), EncodeAll(ListingC(), ls[1..]));
  }

  lemma {:induction false} ListingHead(l: Listing)
    requires ListingFits(l)
    ensures var b := EncodeListing(l);
            |b| >= 36 && b[0..32] == l.packId && b[32..36] == Le32(|l.entries|)
  {
    TwoPieces(l.packId, Le32(|l.entries|), EncodeAll(EntryC(), l.entries));
  }

  lemma TwoPieces(id: Bytes, head: Bytes, all: Bytes)
    requires |id| == 32 && |head| == 4
    ensures var b := id + (head + all); |b| >= 36 && b[0..32] == id && b[32..36] == head
  {
  }

  lemma FrontStays(first: Bytes, tail: Bytes)
    requires |first| >= 36
    ensures (first + tail)[0..32] == first[0..32] && (first + tail)[32..36] == first[32..36]
  {
  }

  method ReadIndex(data: Bytes) returns (r: Option<seq<Listing>>)
    ensures r == DecodeIndex(data)
  {
    if |data| < 4 || Num32(data[..4]) != INDEX_VERSION { return None; }
    var p := ReadCounted(ListingC(), ID_SIZE + 4, data[4..]);
    r := if p.Bad? || p.rest != [] then None else Some(p.value);
  }

  method WriteIndex(ls: seq<Listing>) returns (out: Bytes)
    ensures out == EncodeIndex(ls)
  {
    out := Append(ListingC(), ls, Le32(INDEX_VERSION));
  }

  // ----- Packs -----

  /** A finished pack's last twelve bytes: header length, magic, version. */
  function EncodeFooter(headerLen: nat): Bytes
  {
    Le32(headerLen) + MAGIC + Le32(PACK_VERSION)
  }

  /** The sealed header's length, if these twelve bytes are a footer that claims a sane one. */
  function DecodeFooter(footer: Bytes): Option<nat>
  {
    if |footer| != FOOTER_SIZE || footer[4..8] != MAGIC || Num32(footer[8..12]) != PACK_VERSION then None
    else if Num32(footer[..4]) > MAX_HEADER_SIZE then None
    else Some(Num32(footer[..4]))
  }

  /** The last twelve bytes of a pack, by position: the header's length, "RFMB", version 1. */
  lemma FooterLayout(n: nat)
    ensures var b := EncodeFooter(n);
            |b| == 12 && HasNum(b, 0, n) && b[4..] == [0x52, 0x46, 0x4D, 0x42, 1, 0, 0, 0]
  {
    var b := EncodeFooter(n);
    assert b[0..4] == Le32(n) && b[4..8] == MAGIC && b[8..12] == Le32(PACK_VERSION);
    NumAt(b, 0, n);
    Le32Bytes(PACK_VERSION);
  }

  /** Whatever is accepted as a footer claims 64 MiB at most, with the right magic and version. */
  lemma FooterIsSane(footer: Bytes)
    ensures DecodeFooter(footer).Some? ==>
              && |footer| == 12 && footer[4..8] == [0x52, 0x46, 0x4D, 0x42] && HasNum(footer, 8, 1)
              && HasNum(footer, 0, DecodeFooter(footer).value) && DecodeFooter(footer).value <= 67_108_864
  {
    if DecodeFooter(footer).Some? {
      Le32Inverts(footer[0..4]);
      Le32Inverts(footer[8..12]);
      NumAt(footer, 0, Num32(footer[0..4]));
      NumAt(footer, 8, PACK_VERSION);
    }
  }

  lemma FooterRoundTrip(n: nat)
    requires n <= MAX_HEADER_SIZE
    ensures |EncodeFooter(n)| == FOOTER_SIZE && DecodeFooter(EncodeFooter(n)) == Some(n)
  {
    Num32Inverts(n);
    Num32Inverts(PACK_VERSION);
    var f := EncodeFooter(n);
    assert f[..4] == Le32(n) && f[4..8] == MAGIC && f[8..12] == Le32(PACK_VERSION);
  }

  lemma FooterCanonical(footer: Bytes)
    requires DecodeFooter(footer).Some?
    ensures EncodeFooter(DecodeFooter(footer).value) == footer
  {
    Le32Inverts(footer[..4]);
    Le32Inverts(footer[8..12]);
    assert footer == footer[..4] + footer[4..8] + footer[8..12];
  }

  /** The header's seal under the pack's own ID. */
  datatype Seal = Seal(seal: Bytes -> Bytes, open: Bytes -> Option<Bytes>)

  ghost predicate IsSeal(k: Seal)
  {
    && (forall x :: k.open(k.seal(x)) == Some(x))
    && (forall x :: |k.seal(x)| == CiphertextLen(|x|))
  }

  function EndOf(e: PackEntry): nat
  {
    e.offset + e.length
  }

  /** `decode_header`: opened, parsed to the last byte, every entry inside the blob region. */
  function DecodeHeader(k: Seal, sealed: Bytes, dataLen: nat): Option<seq<PackEntry>>
  {
    match k.open(sealed)
    case None => None
    case Some(plain) =>
      match DecodeEntries(plain)
      case Bad => None
      case Parsed(es, rest) =>
        if rest != [] || exists e :: e in es && EndOf(e) > dataLen then None else Some(es)
  }

  /** Where the sealed header starts in a pack of `size` bytes, and how long it is. */
  function HeaderRange(footer: Bytes, size: nat): Option<(nat, nat)>
  {
    match DecodeFooter(footer)
    case None => None
    case Some(n) => if size < FOOTER_SIZE + n then None else Some((size - FOOTER_SIZE - n, n))
  }

  /** `parse_header`, on the whole object. */
  function ParseHeader(k: Seal, data: Bytes): Option<seq<PackEntry>>
  {
    if |data| < FOOTER_SIZE then None
    else
      match HeaderRange(data[|data| - FOOTER_SIZE..], |data|)
      case None => None
      case Some((start, n)) => DecodeHeader(k, data[start..start + n], start)
  }

  /** Every blob an accepted header lists lies in front of it, whatever the header says. */
  lemma ParsedIsInside(k: Seal, data: Bytes)
    ensures ParseHeader(k, data).Some? ==>
              && |data| >= 12
              && var headerLen := Num32(data[|data| - 12..|data| - 8]);
                 headerLen + 12 <= |data|
                 && forall e :: e in ParseHeader(k, data).value ==> e.offset + e.length <= |data| - 12 - headerLen
  {
    if ParseHeader(k, data).Some? {
      var footer := data[|data| - FOOTER_SIZE..];
      assert data[|data| - 12..|data| - 8] == footer[..4];
      assert forall e :: e in ParseHeader(k, data).value ==> EndOf(e) <= HeaderRange(footer, |data|).value.0;
    }
  }

  /** A ranged read of an object that is there. */
  function GetRange(data: Bytes, start: nat, len: nat): Bytes
    requires start + len <= |data|
  {
    data[start..start + len]
  }

  lemma RangeOfRange(data: Bytes, from: nat, len: nat, start: nat, n: nat)
    requires from <= start && start + n <= from + len <= |data|
    ensures data[from..from + len][start - from..start - from + n] == data[start..start + n]
  {
    var a, b := data[from..from + len][start - from..start - from + n], data[start..start + n];
    assert |a| == n && |b| == n;
    forall i | 0 <= i < n ensures a[i] == b[i] {
      assert a[i] == data[from..from + len][start - from + i];
      assert b[i] == data[start + i];
    }
  }

  /** `load_header_sized`: one small read of the tail, and an exact one only if the header does
      not fit in it. It finds what parsing the whole object finds. */
  method LoadHeaderSized(k: Seal, data: Bytes, size: nat) returns (r: Option<seq<PackEntry>>, fetches: nat)
    requires size == |data|
    ensures r == ParseHeader(k, data)
    ensures fetches <= 2 && (r.Some? && |data| <= 4096 ==> fetches == 1)
  {
    if size < FOOTER_SIZE { return None, 0; }
    var readLen := Min(TAIL_READ_SIZE, size);
    var tail := GetRange(data, size - readLen, readLen);
    fetches := 1;
    RangeOfRange(data, size - readLen, readLen, size - FOOTER_SIZE, FOOTER_SIZE);
    assert tail[|tail| - FOOTER_SIZE..] == tail[|tail| - FOOTER_SIZE..|tail|]
           && data[size - FOOTER_SIZE..] == data[size - FOOTER_SIZE..size];
    var range := HeaderRange(tail[|tail| - FOOTER_SIZE..], size);
    if range.None? { return None, fetches; }
    var start, n := range.value.0, range.value.1;
    var sealed;
    if start >= size - readLen {
      var at := start - (size - readLen);
      sealed := tail[at..at + n];
      RangeOfRange(data, size - readLen, readLen, start, n);
    } else {
      sealed := GetRange(data, start, n);
      fetches := 2;
    }
    r := DecodeHeader(k, sealed, start);
  }

  /** The entries lie end to end from `from` and fill the blob region. */
  ghost predicate Tile(es: seq<PackEntry>, size: nat)
  {
    && (es == [] ==> size == 0)
    && (es != [] ==> es[0].offset == 0 && EndOf(es[|es| - 1]) == size)
    && (forall i :: 0 < i < |es| ==> EndOf(es[i - 1]) == es[i].offset)
  }

  lemma {:induction false} TilesAreInside(es: seq<PackEntry>, size: nat, i: nat)
    requires Tile(es, size) && i < |es|
    ensures EndOf(es[i]) <= size
    decreases |es| - i
  {
    if i + 1 < |es| {
      TilesAreInside(es, size, i + 1);
    }
  }

  lemma TileMore(es: seq<PackEntry>, size: nat, e: PackEntry)
    requires Tile(es, size) && e.offset == size
    ensures Tile(es + [e], size + e.length)
  {
    var all := es + [e];
    forall i | 0 < i < |all| ensures EndOf(all[i - 1]) == all[i].offset {
      if i == |es| { assert all[i - 1] == es[|es| - 1]; }
    }
  }

  /** A blob sealed and not yet placed. */
  datatype SealedBlob = SealedBlob(kind: BlobType, compression: Compression, id: Bytes, plainLength: nat, sealed: Bytes)

  predicate BlobFits(b: SealedBlob)
  {
    |b.id| == ID_SIZE && b.plainLength < U32 && |b.sealed| < U32
  }

  datatype Pushed = Duplicate | Stored | TooFar

  function IdsOf(es: seq<PackEntry>): set<Bytes>
  {
    set e | e in es :: e.id
  }

  class Writer {
    var buf: Bytes
    var entries: seq<PackEntry>
    var seen: set<Bytes>

    /** Every entry is where it says, in order, with nothing between. */
    ghost predicate Valid()
      reads this
    {
      Tile(entries, |buf|) && |buf| < U32 && (forall e :: e in entries ==> Fits(e) && e.length > 0)
                                              && seen == IdsOf(entries)
    }

    constructor ()
      ensures Valid() && buf == [] && entries == []
    {
      buf, entries, seen := [], [], {};
    }

    /** `push`: refused if the pack has it, or if it could not be addressed. */
    method Push(b: SealedBlob) returns (r: Pushed)
      requires Valid() && BlobFits(b) && b.sealed != []
      modifies this
      ensures Valid()
      ensures r == Duplicate <==> b.id in IdsOf(old(entries))
      ensures r == TooFar ==> |old(buf)| + |b.sealed| >= U32
      ensures r != Stored ==> buf == old(buf) && entries == old(entries)
      ensures r == Stored ==>
                && buf == old(buf) + b.sealed
                && entries
                   == old(entries) + [PackEntry(b.kind, b.compression, b.id, |old(buf)|, |b.sealed|, b.plainLength)]
                && buf[|old(buf)|..|old(buf)| + |b.sealed|] == b.sealed
    {
      if b.id in seen { return Duplicate; }
      var offset := |buf|;
      if offset + |b.sealed| >= U32 { return TooFar; }
      var e := PackEntry(b.kind, b.compression, b.id, offset, |b.sealed|, b.plainLength);
      TileMore(entries, |buf|, e);
      ghost var before := entries;
      buf := buf + b.sealed;
      entries := entries + [e];
      seen := seen + {b.id};
      assert forall x :: x in entries <==> x in before || x == e;
      r := Stored;
    }

    /** `finish`: the sealed header and the footer after the blobs. What it makes parses back to
        exactly its entries. */
    method Finish(k: Seal) returns (data: Option<Bytes>)
      requires Valid() && IsSeal(k)
      ensures data.None? <==> entries == [] || CiphertextLen(|EncodeEntries(entries)|) > MAX_HEADER_SIZE
      ensures data.Some? ==> buf <= data.value && ParseHeader(k, data.value) == Some(entries)
    {
      if entries == [] { return None; }
      var header := Append(EntryC(), entries, []);
      assert header == EncodeEntries(entries);
      var sealed := k.seal(header);
      if |sealed| > MAX_HEADER_SIZE { return None; }
      var whole := buf + sealed + EncodeFooter(|sealed|);
      SmallHeaderFewEntries(entries);
      FinishedParses(k, buf, entries);
      return Some(whole);
    }
  }

  /** A header within the limit counts its entries in 32 bits. */
  lemma SmallHeaderFewEntries(es: seq<PackEntry>)
    requires (forall e :: e in es ==> Fits(e)) && CiphertextLen(|EncodeEntries(es)|) <= MAX_HEADER_SIZE
    ensures ListFits(es)
  {
    EntriesLen(es);
  }

  lemma FinishedParses(k: Seal, buf: Bytes, es: seq<PackEntry>)
    requires IsSeal(k) && Tile(es, |buf|) && ListFits(es) && |k.seal(EncodeEntries(es))| <= MAX_HEADER_SIZE
    ensures ParseHeader(k, buf + k.seal(EncodeEntries(es)) + EncodeFooter(|k.seal(EncodeEntries(es))|)) == Some(es)
  {
    var sealed := k.seal(EncodeEntries(es));
    var data := buf + sealed + EncodeFooter(|sealed|);
    FooterRoundTrip(|sealed|);
    CutThree(buf, sealed, EncodeFooter(|sealed|));
    EntriesRoundTrip(es, []);
    assert EncodeEntries(es) + [] == EncodeEntries(es);
    forall e | e in es ensures EndOf(e) <= |buf| {
      var i :| 0 <= i < |es| && es[i] == e;
      TilesAreInside(es, |buf|, i);
    }
  }

  lemma CutThree(a: Bytes, b: Bytes, c: Bytes)
    ensures var d := a + b + c; d[|d| - |c|..] == c && d[|a|..|a| + |b|] == b && |d| == |a| + |b| + |c|
  {
  }

  /** The header size `RepositoryWriter` bounds is the sealed length of the real encoding, so a
      pack filled under a target of 16 MiB never makes `finish` fail. */
  lemma HeaderSizeIsReal(es: seq<PackEntry>)
    requires forall e :: e in es ==> Fits(e)
    ensures CiphertextLen(|EncodeEntries(es)|) == RepositoryWriter.HeaderSize(|es|)
  {
    EntriesLen(es);
  }

  /** What `parse_header` accepts is a pack: blobs, a seal over the entries' one encoding, and
      the one footer for it; every entry lies among the blobs. */
  lemma PackCanonical(k: Seal, data: Bytes) returns (start: nat, n: nat)
    requires ParseHeader(k, data).Some?
    ensures start + n + FOOTER_SIZE == |data| && data == data[..start] + data[start..start + n] + EncodeFooter(n)
    ensures k.open(data[start..start + n]) == Some(EncodeEntries(ParseHeader(k, data).value))
    ensures forall e :: e in ParseHeader(k, data).value ==> EndOf(e) <= start
  {
    var footer := data[|data| - FOOTER_SIZE..];
    FooterCanonical(footer);
    start, n := HeaderRange(footer, |data|).value.0, HeaderRange(footer, |data|).value.1;
    var es := ParseHeader(k, data).value;
    EntriesCanonical(k.open(data[start..start + n]).value);
    assert EncodeEntries(es) + [] == EncodeEntries(es);
    CutEnd(data, start, n);
  }

  lemma CutEnd(data: Bytes, start: nat, n: nat)
    requires start + n + FOOTER_SIZE == |data|
    ensures data == data[..start] + data[start..start + n] + data[|data| - FOOTER_SIZE..]
  {
  }
}
