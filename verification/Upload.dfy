/**
 Uploads: in one request up to 8 MiB, in parts beyond. A multipart upload cut off between any
 two of its durable steps is resumed by encrypting the file again under the same nonce and
 sending what is missing.
 */
module Upload {
  import opened Options
  import opened Stream

  const MAX_SINGLE_SHOT: nat := 8 * 1024 * 1024

  // ----- Parts -----

  function Measure(e: Encryptor): nat
  {
    |e.rest| + if e.done then 0 else 1
  }

  /** The ciphertexts of all parts still to come. */
  function PartList(a: Aead, e: Encryptor, size: nat): seq<Bytes>
    decreases Measure(e)
  {
    if e.done then []
    else [NextPart(a, e, size, 0).ciphertext] + PartList(a, NextPart(a, e, size, 0).after, size)
  }

  lemma {:induction false} PartListIsLeft(a: Aead, e: Encryptor, size: nat)
    ensures Concat(PartList(a, e, size)) == Left(a, e)
    decreases Measure(e)
  {
    if !e.done {
      PartIsNext(a, e, size, 0);
      var p := NextPart(a, e, size, 0);
      PartListIsLeft(a, p.after, size);
      assert ([p.ciphertext] + PartList(a, p.after, size))[1..] == PartList(a, p.after, size);
    }
  }

  /** The parts as sent: the first carries the nonce. */
  function Wire(nonce: Bytes, list: seq<Bytes>): seq<Bytes>
  {
    if list == [] then [] else [nonce + list[0]] + list[1..]
  }

  function WireParts(a: Aead, nonce: Bytes, data: Bytes, size: nat): seq<Bytes>
  {
    Wire(nonce, PartList(a, Encryptor(data, 0, false), size))
  }

  /** In order, the parts are the object, with the nonce once, at the front. */
  lemma WirePartsMakeTheObject(a: Aead, nonce: Bytes, data: Bytes, size: nat)
    ensures Concat(WireParts(a, nonce, data, size)) == EncryptBytes(a, nonce, data)
  {
    var e := Encryptor(data, 0, false);
    var list := PartList(a, e, size);
    PartListIsLeft(a, e, size);
    assert Wire(nonce, list)[1..] == list[1..];
    assert nonce + list[0] + Concat(list[1..]) == nonce + (list[0] + Concat(list[1..]));
  }

  /** A file takes one part per `PartFrames(size)` chunks, rounded up. */
  function PartCount(len: nat, k: nat): nat
    requires k > 0
  {
    if len == 0 then 1 else (len + CHUNK * k - 1) / (CHUNK * k)
  }

  lemma CountStep(len: nat, k: nat)
    requires k > 0
    ensures len <= CHUNK * k ==> PartCount(len, k) == 1
    ensures len > CHUNK * k ==> PartCount(len, k) == 1 + PartCount(len - CHUNK * k, k)
  {
    var d := CHUNK * k;
    if 0 < len <= d {
      DivIs(len + d - 1, d, 1);
    } else if len > d {
      var q := (len - d + d - 1) / d;
      DivBounds(len - 1, d);
      DivIs(len + d - 1, d, q + 1);
    }
  }

  lemma DivBounds(x: nat, d: nat)
    requires d > 0
    ensures d * (x / d) <= x < d * (x / d) + d
  {
  }

  lemma DivIs(x: nat, d: nat, q: nat)
    requires d > 0 && d * q <= x < d * q + d
    ensures x / d == q
  {
    DivBounds(x, d);
    MulStep(d, x / d, q);
    MulStep(d, q, x / d);
  }

  lemma MulStep(d: nat, x: nat, y: nat)
    ensures x < y ==> d * x + d <= d * y
  {
    if x < y {
      var more := y - x - 1;
      assert y == x + 1 + more;
      assert d * (x + 1 + more) == d * x + d + d * more;
    }
  }

  lemma {:induction false} PartListCount(a: Aead, e: Encryptor, size: nat)
    requires IsAead(a) && !e.done
    ensures |PartList(a, e, size)| == PartCount(|e.rest|, PartFrames(size))
    ensures forall i :: 0 <= i < |PartList(a, e, size)| - 1 ==> |PartList(a, e, size)[i]| == FRAME * PartFrames(size)
    decreases |e.rest|
  {
    var k := PartFrames(size);
    var p := NextPart(a, e, size, 0);
    PartIsFull(a, e, size, 0);
    CountStep(|e.rest|, k);
    if CHUNK * k < |e.rest| {
      PartListCount(a, p.after, size);
    }
  }

  // ----- Sizes -----

  const MIN_PART: nat := 5 * 1024 * 1024
  const MAX_PARTS: nat := 10000
  const TARGET_PART: nat := 8 * 1024 * 1024

  function Max(x: nat, y: nat): nat
  {
    if x < y then y else x
  }

  /** `get_chunk_size`. */
  function ChunkSize(len: nat): nat
  {
    if len <= MIN_PART then MIN_PART else Max(TARGET_PART, Max(MIN_PART, len / MAX_PARTS + 1))
  }

  function PartsFor(len: nat): nat
  {
    PartCount(len, PartFrames(ChunkSize(len)))
  }

  lemma CountAtMost(len: nat, k: nat, n: nat)
    requires k > 0 && n > 0 && len <= CHUNK * k * n
    ensures PartCount(len, k) <= n
  {
    var d := CHUNK * k;
    if len > 0 {
      var q := (len + d - 1) / d;
      DivBounds(len + d - 1, d);
      if q > n {
        assert d * (n + 1) <= d * q;
      }
    }
  }

  lemma CountAbove(len: nat, k: nat, n: nat)
    requires k > 0 && len > CHUNK * k * n
    ensures PartCount(len, k) > n
  {
    var d := CHUNK * k;
    DivBounds(len + d - 1, d);
    var q := (len + d - 1) / d;
    assert q <= n ==> d * q <= d * n;
  }

  /** `PartFrames` is the least number of frames that reaches the size. */
  lemma FramesAreLeast(size: nat, k: nat)
    requires k > 0
    ensures PartFrames(size) <= k <==> size <= FRAME * k
  {
  }

  /** Frames enough for a part of any file: reaching the target, and `n` over 10,000. */
  lemma FramesFor(len: nat, k: nat)
    requires len > MIN_PART && k > 0
    ensures PartFrames(ChunkSize(len)) <= k <==> 128 <= k && len < MAX_PARTS * (FRAME * k)
  {
    var q := len / MAX_PARTS;
    DivBounds(len, MAX_PARTS);
    FramesAreLeast(ChunkSize(len), k);
    assert q + 1 <= FRAME * k <==> len < MAX_PARTS * (FRAME * k) by {
      if q + 1 <= FRAME * k { assert MAX_PARTS * (q + 1) <= MAX_PARTS * (FRAME * k); }
    }
    assert TARGET_PART <= FRAME * k <==> 128 <= k;
  }

  /** 10,000 parts of `k` frames hold less plaintext than the file has, but are longer than it. */
  predicate InWindow(len: nat, k: nat)
  {
    k >= 128 && 655_360_000 * k < len < 655_520_000 * k
  }

  lemma CeilingByFrames(len: nat)
    ensures PartsFor(len) > MAX_PARTS <==> len > MAX_PARTS * (CHUNK * PartFrames(ChunkSize(len)))
  {
    var k := PartFrames(ChunkSize(len));
    if len > MAX_PARTS * (CHUNK * k) {
      assert CHUNK * k * MAX_PARTS == MAX_PARTS * (CHUNK * k);
      CountAbove(len, k, MAX_PARTS);
    } else {
      assert len <= CHUNK * k * MAX_PARTS;
      CountAtMost(len, k, MAX_PARTS);
    }
  }

  /** The ceiling of 10,000 parts is computed without the frames' tags. It is exceeded exactly
      when the length falls in one of these windows. */
  lemma CeilingExceededIff(len: nat)
    ensures PartsFor(len) > MAX_PARTS <==> exists k: nat :: InWindow(len, k)
  {
    var k := PartFrames(ChunkSize(len));
    CeilingByFrames(len);
    if len <= MIN_PART {
      assert !(len > MAX_PARTS * (CHUNK * k));
      forall j: nat ensures !InWindow(len, j) {
      }
    } else {
      FramesFor(len, k);
      if len > MAX_PARTS * (CHUNK * k) {
        assert InWindow(len, k);
      }
      forall j: nat | InWindow(len, j) ensures len > MAX_PARTS * (CHUNK * k) {
        FramesFor(len, j);
      }
    }
  }

  /** Only one window can hold a length, so there is nothing to search for. */
  lemma CeilingExceededAt(len: nat)
    ensures PartsFor(len) > MAX_PARTS <==> InWindow(len, len / 655_520_000 + 1)
  {
    CeilingExceededIff(len);
    var first := len / 655_520_000 + 1;
    DivBounds(len, 655_520_000);
    forall k: nat | InWindow(len, k) ensures InWindow(len, first) {
      assert first <= k && 83_886_080_000 <= 655_360_000 * k < len < 655_520_000 * first;
    }
  }

  /** So a multipart file takes at most 10,000 parts up to 83,886,080,000 bytes, and never
      more than 10,003. */
  lemma PartsAreBounded(len: nat)
    requires len > MAX_SINGLE_SHOT
    ensures len <= 83_886_080_000 ==> PartsFor(len) <= 10_000
    ensures PartsFor(len) <= 10_003
  {
    var c := ChunkSize(len);
    var k := PartFrames(c);
    DivBounds(len, MAX_PARTS);
    assert FRAME * k >= c;
    if len <= 83_886_080_000 {
      assert k >= 128;
      CountAtMost(len, k, 10_000);
    } else {
      assert MAX_PARTS * (FRAME * k) >= len;
      assert CHUNK * k * 10_003 >= len;
      CountAtMost(len, k, 10_003);
    }
  }

  /** Both bounds are met: one byte more than the first takes a part too many, and one length
      takes all 10,003; yet a longer file than the shortest to exceed the ceiling may keep it. */
  lemma CeilingIsExceeded()
    ensures PartsFor(83_886_080_001) == 10_001
    ensures PartsFor(131_103_999_999) == 10_003
    ensures PartsFor(84_000_000_000) == 9_936
  {
    DivIs(83_886_080_001, MAX_PARTS, 8_388_608);
    assert PartFrames(8_388_609) == 128;
    DivIs(83_886_080_001 + CHUNK * 128 - 1, CHUNK * 128, 10_001);
    DivIs(131_103_999_999, MAX_PARTS, 13_110_399);
    assert PartFrames(13_110_400) == 200;
    DivIs(131_103_999_999 + CHUNK * 200 - 1, CHUNK * 200, 10_003);
    DivIs(84_000_000_000, MAX_PARTS, 8_400_000);
    assert PartFrames(8_400_001) == 129;
    DivIs(84_000_000_000 + CHUNK * 129 - 1, CHUNK * 129, 9_936);
  }

  /** Every part but the last is over the 5 MiB the store insists on. */
  lemma {:induction false} PartsAreLargeEnough(a: Aead, data: Bytes)
    requires IsAead(a)
    ensures var list := PartList(a, Encryptor(data, 0, false), ChunkSize(|data|));
            |list| == PartsFor(|data|) && forall i :: 0 <= i < |list| - 1 ==> |list[i]| >= 5 * 1024 * 1024
  {
    PartListCount(a, Encryptor(data, 0, false), ChunkSize(|data|));
  }

  // ----- One request -----

  /** `check_object_len`. */
  predicate LengthFits(hashedLen: nat, objectLen: nat)
  {
    objectLen == CiphertextLen(hashedLen)
  }

  /** It accepts a complete object exactly if the file still has the length that was hashed. */
  lemma CheckAcceptsIff(a: Aead, nonce: Bytes, data: Bytes, hashedLen: nat)
    requires IsAead(a) && |nonce| == NONCE
    ensures LengthFits(hashedLen, |EncryptBytes(a, nonce, data)|) <==> hashedLen == |data|
  {
    SealedLen(a, 0, data);
    CiphertextLenInjective(hashedLen, |data|);
  }

  /** `upload_file` for a small file: still a loop, since tags make a part end before the file. */
  method UploadSingle(a: Aead, nonce: Bytes, data: Bytes, hashedLen: nat) returns (sent: Option<Bytes>)
    requires IsAead(a) && |nonce| == NONCE
    ensures sent == if hashedLen == |data| then Some(EncryptBytes(a, nonce, data)) else None
  {
    var encryptor := new StreamingEncryptor(a, data);
    var payload := nonce;
    while true
      invariant encryptor.a == a
      invariant payload + Left(a, encryptor.Now()) == EncryptBytes(a, nonce, data)
      decreases Measure(encryptor.Now())
    {
      ghost var e := encryptor.Now();
      var part, plain := encryptor.EncryptNextPart(hashedLen);
      if part.None? { break; }
      PartIsNext(a, e, hashedLen, 0);
      ThreeParts(payload, part.value, Left(a, encryptor.Now()));
      payload := payload + part.value;
    }
    assert payload + [] == payload;
    CheckAcceptsIff(a, nonce, data, hashedLen);
    sent := if LengthFits(hashedLen, |payload|) then Some(payload) else None;
  }

  // ----- Many parts -----

  /** A multipart upload as it survives a crash: the parts at the store, and the part numbers
      recorded on this device. */
  datatype Multipart = Multipart(remote: map<nat, Bytes>, recorded: seq<nat>)

  /** The first parts of `wire` are recorded and at the store; one more may be there unrecorded. */
  ghost predicate Sent(m: Multipart, wire: seq<Bytes>)
  {
    && |m.recorded| <= |wire|
    && (forall i :: 0 <= i < |m.recorded| ==> m.recorded[i] == i + 1)
    && (forall n :: 1 <= n <= |m.recorded| ==> n in m.remote)
    && (forall n :: n in m.remote ==> 1 <= n <= |m.recorded| + 1 && n <= |wire| && m.remote[n] == wire[n - 1])
  }

  /** What completing the upload with these part numbers assembles. */
  function Assembled(remote: map<nat, Bytes>, numbers: seq<nat>): Bytes
  {
    if numbers == [] then []
    else (if numbers[0] in remote then remote[numbers[0]] else []) + Assembled(remote, numbers[1..])
  }

  lemma {:induction false} AssembledIsConcat(remote: map<nat, Bytes>, numbers: seq<nat>, wire: seq<Bytes>)
    requires |numbers| == |wire|
    requires forall i :: 0 <= i < |wire| ==> numbers[i] in remote && remote[numbers[i]] == wire[i]
    ensures Assembled(remote, numbers) == Concat(wire)
    decreases |wire|
  {
    if wire != [] {
      AssembledIsConcat(remote, numbers[1..], wire[1..]);
    }
  }

  /** How a call ended: cut off, refused by the length check and aborted, or assembled. */
  datatype Outcome = Crashed | Refused | Complete(whole: Bytes)

  method MaxOf(numbers: seq<nat>) returns (n: nat)
    ensures numbers == [] ==> n == 0
    ensures numbers != [] ==> n in numbers && forall x :: x in numbers ==> x <= n
  {
    n := 0;
    for i := 0 to |numbers|
      invariant forall x :: x in numbers[..i] ==> x <= n
      invariant i == 0 ==> n == 0
      invariant i > 0 ==> n in numbers[..i]
    {
      assert numbers[..i + 1] == numbers[..i] + [numbers[i]];
      if numbers[i] > n || i == 0 { n := numbers[i]; }
    }
    assert numbers[..|numbers|] == numbers;
  }

  /** One part sent, then recorded; `steps` more of these may happen before the crash. */
  method SendOne(start: Multipart, number: nat, body: Bytes, steps: nat, ghost wire: seq<Bytes>)
    returns (m: Multipart, crashed: bool)
    requires Sent(start, wire) && number == |start.recorded| + 1 <= |wire| && body == wire[number - 1]
    ensures Sent(m, wire) && crashed == (steps < 2)
    ensures m.recorded == if crashed then start.recorded else start.recorded + [number]
  {
    m := start;
    if steps == 0 { return m, true; }
    m := m.(remote := m.remote[number := body]);
    if steps == 1 { return m, true; }
    m := m.(recorded := m.recorded + [number]);
    crashed := false;
  }

  /** The next part on the wire, with the nonce in front of it if it is the first. */
  method SendNext(start: Multipart, number: nat, part: Bytes, prefix: Option<Bytes>, steps: nat, ghost nonce: Bytes,
                  ghost list: seq<Bytes>)
    returns (m: Multipart, crashed: bool)
    requires Sent(start, Wire(nonce, list)) && number == |start.recorded| + 1 <= |list| && part == list[number - 1]
    requires prefix == if number == 1 then Some(nonce) else None
    ensures Sent(m, Wire(nonce, list)) && crashed == (steps < 2)
    ensures m.recorded == if crashed then start.recorded else start.recorded + [number]
  {
    WireAt(nonce, list, number);
    var body := if prefix.Some? then prefix.value + part else part;
    m, crashed := SendOne(start, number, body, steps, Wire(nonce, list));
  }

  /** Where the loop stands: the parts before `number` are behind, those below `next` were
      recorded already. */
  ghost predicate Sending(a: Aead, e: Encryptor, list: seq<Bytes>, size: nat, number: nat, next: nat, m: Multipart,
                          start: Multipart)
  {
    && 1 <= number <= |list| + 1 && PartList(a, e, size) == list[number - 1..]
    && start.recorded <= m.recorded && |start.recorded| == next - 1
    && |m.recorded| == if number < next then next - 1 else number - 1
  }

  /**
   `upload_file` in parts, and `resume_upload`: with nothing recorded the two do the same. The
   file is encrypted from the start; parts already recorded are only counted. Each part is
   sent and then recorded, and `steps` says after how many of those the call is cut off.
   */
  method SendParts(a: Aead, nonce: Bytes, data: Bytes, size: nat, hashedLen: nat, start: Multipart, steps: nat)
    returns (m: Multipart, outcome: Outcome)
    requires IsAead(a) && |nonce| == NONCE && Sent(start, WireParts(a, nonce, data, size))
    ensures Sent(m, WireParts(a, nonce, data, size)) && start.recorded <= m.recorded
    ensures outcome.Complete? ==> hashedLen == |data| && outcome.whole == EncryptBytes(a, nonce, data)
    ensures outcome.Refused? ==> hashedLen != |data|
    ensures outcome.Crashed? ==> steps < 2 * (|WireParts(a, nonce, data, size)| - |start.recorded|)
  {
    ghost var wire := WireParts(a, nonce, data, size);
    ghost var list := PartList(a, Encryptor(data, 0, false), size);
    WireKeepsCount(nonce, list);
    var last := MaxOf(start.recorded);
    NextIsOnePast(start.recorded, last);
    var next := last + 1;
    m := start;
    var prefix := if next == 1 then Some(nonce) else None;
    var encryptor := new StreamingEncryptor(a, data);
    var number, objectLen, left := 1, NONCE, steps;
    while true
      invariant encryptor.a == a && Sending(a, encryptor.Now(), list, size, number, next, m, start)
      invariant objectLen + |Left(a, encryptor.Now())| == |EncryptBytes(a, nonce, data)|
      invariant Sent(m, wire) && prefix == if next == 1 && number == 1 then Some(nonce) else None
      invariant left == steps - if number < next then 0 else 2 * (number - next)
      decreases Measure(encryptor.Now())
    {
      ghost var e := encryptor.Now();
      var part, plain := encryptor.EncryptNextPart(size);
      if part.None? { break; }
      OneTurn(a, e, part.value, encryptor.Now(), list, size, number);
      objectLen := objectLen + |part.value|;
      if number >= next {
        var crashed;
        m, crashed := SendNext(m, number, part.value, prefix, left, nonce, list);
        prefix := None;
        if crashed { return m, Crashed; }
        left := left - 2;
      }
      number := number + 1;
    }
    outcome := Conclude(a, nonce, data, size, hashedLen, m, objectLen);
  }

  /** All parts are sent: the upload is completed if the object has the right length. */
  method Conclude(ghost a: Aead, ghost nonce: Bytes, ghost data: Bytes, ghost size: nat, hashedLen: nat, m: Multipart,
                  objectLen: nat)
    returns (outcome: Outcome)
    requires IsAead(a) && |nonce| == NONCE && objectLen == |EncryptBytes(a, nonce, data)|
    requires Sent(m, WireParts(a, nonce, data, size)) && |m.recorded| == |WireParts(a, nonce, data, size)|
    ensures !outcome.Crashed?
    ensures outcome.Complete? ==> hashedLen == |data| && outcome.whole == EncryptBytes(a, nonce, data)
    ensures outcome.Refused? ==> hashedLen != |data|
  {
    CheckAcceptsIff(a, nonce, data, hashedLen);
    if LengthFits(hashedLen, objectLen) {
      AssembledIsConcat(m.remote, m.recorded, WireParts(a, nonce, data, size));
      WirePartsMakeTheObject(a, nonce, data, size);
      outcome := Complete(Assembled(m.remote, m.recorded));
    } else {
      outcome := Refused;
    }
  }

  lemma WireKeepsCount(nonce: Bytes, list: seq<Bytes>)
    ensures |Wire(nonce, list)| == |list|
  {
  }

  lemma WireCount(a: Aead, nonce: Bytes, data: Bytes)
    requires IsAead(a)
    ensures |WireParts(a, nonce, data, ChunkSize(|data|))| == PartsFor(|data|)
  {
    PartListCount(a, Encryptor(data, 0, false), ChunkSize(|data|));
  }

  lemma WireAt(nonce: Bytes, list: seq<Bytes>, number: nat)
    requires 1 <= number <= |list|
    ensures |Wire(nonce, list)| == |list|
    ensures Wire(nonce, list)[number - 1] == if number == 1 then nonce + list[0] else list[number - 1]
  {
  }

  /** What one turn of the loop takes off what is left. */
  lemma {:induction false} OneTurn(a: Aead, e: Encryptor, part: Bytes, after: Encryptor, list: seq<Bytes>, size: nat,
                                   number: nat)
    requires !e.done && part == NextPart(a, e, size, 0).ciphertext && after == NextPart(a, e, size, 0).after
    requires 1 <= number <= |list| + 1 && PartList(a, e, size) == list[number - 1..]
    ensures number <= |list| && part == list[number - 1] && PartList(a, after, size) == list[number..]
    ensures |Left(a, e)| == |part| + |Left(a, after)| && Measure(after) < Measure(e)
  {
    PartIsNext(a, e, size, 0);
    ListStep(a, e, list, size, number);
  }

  lemma {:induction false} ListStep(a: Aead, e: Encryptor, list: seq<Bytes>, size: nat, number: nat)
    requires !e.done && 1 <= number <= |list| + 1 && PartList(a, e, size) == list[number - 1..]
    ensures number <= |list| && list[number - 1] == NextPart(a, e, size, 0).ciphertext
    ensures PartList(a, NextPart(a, e, size, 0).after, size) == list[number..]
  {
    var tail := PartList(a, NextPart(a, e, size, 0).after, size);
    assert list[number - 1..] == [NextPart(a, e, size, 0).ciphertext] + tail;
    assert list[number..] == list[number - 1..][1..] == tail;
  }

  lemma NextIsOnePast(recorded: seq<nat>, last: nat)
    requires forall i :: 0 <= i < |recorded| ==> recorded[i] == i + 1
    requires recorded == [] ==> last == 0
    requires recorded != [] ==> last in recorded && forall x :: x in recorded ==> x <= last
    ensures last == |recorded|
  {
    if recorded != [] {
      assert recorded[|recorded| - 1] in recorded;
    }
  }

  /** Cut off after any number of steps and resumed, any number of times: the object assembled
      in the end is the one an upload without interruption assembles. */
  method UploadWithCrashes(a: Aead, nonce: Bytes, data: Bytes, cuts: seq<nat>) returns (outcome: Outcome)
    requires IsAead(a) && |nonce| == NONCE
    ensures outcome.Crashed? || outcome == Complete(EncryptBytes(a, nonce, data))
    ensures cuts != [] && cuts[|cuts| - 1] >= 2 * PartsFor(|data|) ==> outcome == Complete(EncryptBytes(a, nonce, data))
  {
    outcome := Crashed;
    var m := Multipart(map[], []);
    var size := ChunkSize(|data|);
    WireCount(a, nonce, data);
    for i := 0 to |cuts|
      invariant Sent(m, WireParts(a, nonce, data, size))
      invariant outcome.Crashed?
      invariant i > 0 ==> cuts[i - 1] < 2 * PartsFor(|data|)
    {
      m, outcome := SendParts(a, nonce, data, size, |data|, m, cuts[i]);
      if !outcome.Crashed? { return; }
    }
  }

  // ----- The life of a pending upload -----

  /** `row`: this device remembers the upload. `open`: the store still has it as a multipart
      upload. `atKey`: what stands at the key. */
  datatype Life = Life(row: bool, open: bool, m: Multipart, atKey: Option<Bytes>)

  /** How an attempt fares: after `steps` sends and records it is cut off, and then it `errs`
      or has crashed. `aborted`: an abort reaches the store. `stored` and `replied`: completing
      assembles the object, and the caller hears of it. `cleared`: no crash comes before the row
      is cleared. */
  datatype Fate = Fate(steps: nat, errs: bool, aborted: bool, stored: bool, replied: bool, cleared: bool)

  datatype Ending = CutOff | Failed | Uploaded

  /** What stands at the key is a whole ciphertext of the file, or was there before; as long as
      the upload is open the parts are right, and remembering one that is closed harms nothing. */
  ghost predicate LifeInv(a: Aead, nonce: Bytes, data: Bytes, before: Option<Bytes>, l: Life)
  {
    && (l.atKey == before || l.atKey == Some(EncryptBytes(a, nonce, data)))
    && Sent(l.m, WireParts(a, nonce, data, ChunkSize(|data|)))
  }

  /** An attempt that has gone wrong: the upload is aborted as far as it can be, the row cleared. */
  function GivenUp(l: Life, f: Fate): Life
  {
    l.(open := l.open && !f.aborted, row := !f.cleared)
  }

  /**
   One call of `upload_file` or `resume_upload` on an upload this device remembers, for an
   unchanged file. The store refuses parts and completion of an upload it no longer has, as
   after a crash between completing and clearing the row.
   */
  method Attempt(a: Aead, nonce: Bytes, data: Bytes, ghost before: Option<Bytes>, start: Life, f: Fate)
    returns (end: Life, ending: Ending)
    requires IsAead(a) && |nonce| == NONCE && LifeInv(a, nonce, data, before, start) && start.row
    ensures LifeInv(a, nonce, data, before, end)
    // success is only ever claimed for the whole object, and a call that ends clears the row
    ensures ending.Uploaded? ==> end.atKey == Some(EncryptBytes(a, nonce, data)) && !end.row && !end.open
    ensures ending.CutOff? <==> end.row
    ensures ending.CutOff? ==> !f.cleared || (!f.errs && f.steps < 2 * PartsFor(|data|))
    // an upload the store has closed is given up, and what stands at the key is left alone
    ensures !start.open ==> end == GivenUp(start, f) && !ending.Uploaded?
    // left alone to finish, an open one succeeds
    ensures start.open && f.steps >= 2 * PartsFor(|data|) && f.stored && f.replied && f.cleared ==> ending.Uploaded?
    // and one that is cut off without anything reaching the store's end of it stays open
    ensures ending.CutOff? && !f.aborted && !f.stored ==> end.open == start.open
    // a step that changes the object is the completion, and it closes the upload
    ensures end.atKey != start.atKey ==> end.atKey == Some(EncryptBytes(a, nonce, data)) && !end.open
  {
    if !start.open {
      end := GivenUp(start, f);
      return end, if f.cleared then Failed else CutOff;
    }
    WireCount(a, nonce, data);
    var m, outcome := SendParts(a, nonce, data, ChunkSize(|data|), |data|, start.m, f.steps);
    var sent := start.(m := m);
    match outcome
    case Crashed =>
      if !f.errs { return sent, CutOff; }
      end := GivenUp(sent, f);
      ending := if f.cleared then Failed else CutOff;
    case Refused =>
      end := GivenUp(sent, f);
      ending := if f.cleared then Failed else CutOff;
    case Complete(whole) =>
      end := if f.stored then sent.(atKey := Some(whole), open := false) else sent;
      end := end.(row := !f.cleared);
      ending := if !f.cleared then CutOff else if f.stored && f.replied then Uploaded else Failed;
  }

  /** Nothing goes wrong in the attempt. */
  predicate LeftAlone(f: Fate, len: nat)
  {
    f.steps >= 2 * PartsFor(len) && f.stored && f.replied && f.cleared
  }

  /** The first `n` attempts have neither aborted nor completed the upload. */
  ghost predicate StillOpen(fates: seq<Fate>, n: nat)
    requires n <= |fates|
  {
    forall j :: 0 <= j < n ==> !fates[j].aborted && !fates[j].stored
  }

  /** Any number of attempts, for as long as the row is there: whatever befalls them, what
      stands at the key is whole, the row goes with the first call that ends, and once the
      store has closed the upload the next call that is not cut off forgets it. */
  method Lifetime(a: Aead, nonce: Bytes, data: Bytes, before: Option<Bytes>, fates: seq<Fate>)
    returns (end: Life, endings: seq<Ending>)
    requires IsAead(a) && |nonce| == NONCE
    ensures LifeInv(a, nonce, data, before, end) && |endings| <= |fates|
    ensures forall i :: 0 <= i < |endings| - 1 ==> endings[i].CutOff?
    ensures |endings| < |fates| ==> endings != [] && !endings[|endings| - 1].CutOff?
    ensures endings != [] && endings[|endings| - 1].Uploaded? ==> end.atKey == Some(EncryptBytes(a, nonce, data))
    ensures endings != [] && !endings[|endings| - 1].CutOff? ==> !end.row
    // however often it was cut off before, the first call that is left alone uploads the file
    ensures forall n :: 0 <= n < |endings| && LeftAlone(fates[n], |data|) && StillOpen(fates, n) ==>
              endings[n].Uploaded?
  {
    end, endings := Life(true, true, Multipart(map[], []), before), [];
    for i := 0 to |fates|
      invariant LifeInv(a, nonce, data, before, end) && end.row && |endings| == i
      invariant forall j :: 0 <= j < i ==> endings[j].CutOff?
      invariant StillOpen(fates, i) ==> end.open
      invariant forall n :: 0 <= n < i && LeftAlone(fates[n], |data|) && StillOpen(fates, n) ==> endings[n].Uploaded?
    {
      var ending;
      end, ending := Attempt(a, nonce, data, before, end, fates[i]);
      endings := endings + [ending];
      if !ending.CutOff? { return; }
    }
  }
}
