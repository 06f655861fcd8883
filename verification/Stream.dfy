/**
 STREAM framing: a nonce, then frames of up to 64 KiB each sealed with its counter and a
 flag for the last. The encryptor hands the ciphertext out in parts; the decryptor takes it
 in whatever pieces arrive and always holds the last frame back.
 */
module Stream {
  import opened Options

  newtype Byte = x: int | 0 <= x < 256

  type Bytes = seq<Byte>

  const CHUNK: nat := 65536
  const TAG: nat := 16
  const FRAME: nat := CHUNK + TAG
  const NONCE: nat := 19

  /** The per-frame cipher under one key, nonce and associated data: counter, last flag, bytes. */
  datatype Aead = Aead(seal: (nat, bool, Bytes) -> Bytes, open: (nat, bool, Bytes) -> Option<Bytes>)

  /** A seal adds the 16-byte tag of section 2.8 of RFC 8439, and opens to what was sealed. */
  ghost predicate IsAead(a: Aead)
  {
    && (forall i, last, x :: |a.seal(i, last, x)| == |x| + TAG)
    && (forall i, last, x :: a.open(i, last, a.seal(i, last, x)) == Some(x))
  }

  function Min(x: nat, y: nat): nat
  {
    if x < y then x else y
  }

  /** The frames of `data` from counter `i` on; the last one is flagged, and may be empty. */
  function Sealed(a: Aead, i: nat, data: Bytes): Bytes
    decreases |data|
  {
    if |data| <= CHUNK then a.seal(i, true, data)
    else a.seal(i, false, data[..CHUNK]) + Sealed(a, i + 1, data[CHUNK..])
  }

  function Frames(n: nat): nat
  {
    if n == 0 then 1 else (n + CHUNK - 1) / CHUNK
  }

  /** `ciphertext_len`. */
  function CiphertextLen(n: nat): nat
  {
    NONCE + n + Frames(n) * TAG
  }

  lemma {:induction false} SealedLen(a: Aead, i: nat, data: Bytes)
    requires IsAead(a)
    ensures |Sealed(a, i, data)| + NONCE == CiphertextLen(|data|)
    decreases |data|
  {
    if |data| > CHUNK {
      SealedLen(a, i + 1, data[CHUNK..]);
      assert Frames(|data|) == Frames(|data| - CHUNK) + 1;
    }
  }

  /** The stored length determines the plaintext's, so a size check is a length check. */
  /** A 19-byte nonce, the file, and a 16-byte tag for every 64 KiB begun, or for an empty file one. */
  lemma ObjectLen(a: Aead, nonce: Bytes, data: Bytes)
    requires IsAead(a) && |nonce| == 19
    ensures |EncryptBytes(a, nonce, data)|
            == 19 + |data| + 16 * if |data| == 0 then 1 else (|data| + 65535) / 65536
  {
    SealedLen(a, 0, data);
  }

  lemma CiphertextLenInjective(n: nat, m: nat)
    ensures CiphertextLen(n) == CiphertextLen(m) <==> n == m
    ensures n < m ==> CiphertextLen(n) < CiphertextLen(m)
  {
    if n <= m {
      assert Frames(n) <= Frames(m);
    } else {
      assert Frames(m) <= Frames(n);
    }
  }

  /** One frame holds no more than a chunk. */
  lemma LongerLen(n: nat)
    ensures CiphertextLen(n) <= NONCE + FRAME <==> n <= CHUNK
  {
  }

  lemma OneMoreOf(unit: nat, k: nat)
    requires k > 0
    ensures unit * k == unit + unit * (k - 1)
  {
  }

  /** `n` bytes into a ciphertext, `m` bytes into its plaintext, the frames go on from `j`. */
  ghost predicate Drops(a: Aead, i: nat, data: Bytes, j: nat, m: nat, n: nat)
  {
    m <= |data| && n < |Sealed(a, i, data)| && Sealed(a, i, data)[n..] == Sealed(a, j, data[m..])
  }

  /** One frame more in front. */
  lemma {:induction false} DropsAfterOne(a: Aead, i: nat, data: Bytes, j: nat, m: nat, n: nat)
    requires IsAead(a) && |data| > CHUNK && Drops(a, i + 1, data[CHUNK..], j, m, n)
    ensures Drops(a, i, data, j, CHUNK + m, FRAME + n)
  {
    var first, tail := a.seal(i, false, data[..CHUNK]), Sealed(a, i + 1, data[CHUNK..]);
    assert |first| == FRAME && Sealed(a, i, data) == first + tail;
    DropMore(first, tail, n);
    CutTwice(data, CHUNK, m);
  }

  lemma {:induction false} DropsNothing(a: Aead, i: nat, data: Bytes)
    requires IsAead(a)
    ensures Drops(a, i, data, i, 0, 0)
  {
    SealedLen(a, i, data);
    assert data[0..] == data && Sealed(a, i, data)[0..] == Sealed(a, i, data);
  }

  /** Whole frames can be cut off the front. */
  lemma {:induction false} SealedDrop(a: Aead, i: nat, data: Bytes, k: nat, m: nat, n: nat)
    requires IsAead(a) && m == CHUNK * k && n == FRAME * k && (k == 0 || m < |data|)
    ensures Drops(a, i, data, i + k, m, n)
    decreases k
  {
    if k == 0 {
      DropsNothing(a, i, data);
    } else {
      OneMoreOf(CHUNK, k);
      OneMoreOf(FRAME, k);
      SealedDrop(a, i + 1, data[CHUNK..], k - 1, m - CHUNK, n - FRAME);
      DropsAfterOne(a, i, data, i + k, m - CHUNK, n - FRAME);
    }
  }

  lemma CutTwice(data: Bytes, m: nat, n: nat)
    requires m + n <= |data|
    ensures data[m..][n..] == data[m + n..]
  {
  }

  lemma DropMore(first: Bytes, rest: Bytes, n: nat)
    requires n <= |rest|
    ensures (first + rest)[|first| + n..] == rest[n..]
  {
  }

  // ----- The encryptor -----

  /** What is left to read, the next counter, and whether the last frame is out. */
  datatype Encryptor = Encryptor(rest: Bytes, counter: nat, done: bool)

  datatype Part = Part(ciphertext: Bytes, plain: nat, after: Encryptor)

  /** One call of `encrypt_next_part`, `sofar` bytes of the part being there already: frames
      until the ciphertext reaches `size` or the input ends. */
  function NextPart(a: Aead, e: Encryptor, size: nat, sofar: nat): (p: Part)
    requires !e.done
    ensures |p.after.rest| <= |e.rest| && (!p.after.done ==> |p.after.rest| < |e.rest|)
    decreases |e.rest|
  {
    var n := Min(CHUNK, |e.rest|);
    var chunk, rest := e.rest[..n], e.rest[n..];
    if rest == [] then Part(a.seal(e.counter, true, chunk), n, Encryptor([], e.counter, true))
    else
      var frame := a.seal(e.counter, false, chunk);
      var after := Encryptor(rest, e.counter + 1, false);
      if sofar + |frame| >= size then Part(frame, n, after)
      else
        var tail := NextPart(a, after, size, sofar + |frame|);
        Part(frame + tail.ciphertext, n + tail.plain, tail.after)
  }

  /** All the ciphertext an encryptor has still to give. */
  function Left(a: Aead, e: Encryptor): Bytes
  {
    if e.done then [] else Sealed(a, e.counter, e.rest)
  }

  /** A part is the next piece of what is left, for whatever plaintext it took. */
  lemma {:induction false} PartIsNext(a: Aead, e: Encryptor, size: nat, sofar: nat)
    requires !e.done
    ensures var p := NextPart(a, e, size, sofar);
            && Left(a, e) == p.ciphertext + Left(a, p.after)
            && p.plain + |p.after.rest| == |e.rest| && |p.after.rest| < |e.rest| + 1
            && (p.after.done ==> p.after.rest == [])
               && (!p.after.done ==> p.after.rest != [] && |p.after.rest| < |e.rest|)
    decreases |e.rest|
  {
    var n := Min(CHUNK, |e.rest|);
    if e.rest[n..] == [] {
      assert e.rest[..n] == e.rest;
    } else {
      var frame := a.seal(e.counter, false, e.rest[..n]);
      if sofar + |frame| < size {
        PartIsNext(a, Encryptor(e.rest[n..], e.counter + 1, false), size, sofar + |frame|);
      }
    }
  }

  /** How many frames fill a part of `size`: at least one, and no more than it takes. */
  function PartFrames(size: nat): nat
  {
    if size == 0 then 1 else (size + FRAME - 1) / FRAME
  }

  /** A part of `k + 1` frames is big enough exactly from `PartFrames` on. */
  lemma FramesFill(size: nat, k: nat)
    ensures FRAME * k + FRAME >= size <==> k + 1 >= PartFrames(size)
  {
  }

  /** Every part but the last has exactly `PartFrames(size)` whole frames. */
  lemma {:induction false} PartIsFull(a: Aead, e: Encryptor, size: nat, k: nat)
    requires IsAead(a) && !e.done && k < PartFrames(size)
    ensures PartFits(NextPart(a, e, size, FRAME * k), e, PartFrames(size) - k)
    decreases |e.rest|
  {
    var n := Min(CHUNK, |e.rest|);
    FramesFill(size, k);
    if |e.rest| > CHUNK {
      var after := Encryptor(e.rest[n..], e.counter + 1, false);
      assert |a.seal(e.counter, false, e.rest[..n])| == FRAME;
      if k + 1 < PartFrames(size) {
        PartIsFull(a, after, size, k + 1);
        OneFrameMore(e, PartFrames(size) - k);
      }
    }
  }

  /** The part takes `want` chunks if there is more than that, and all there is otherwise. */
  ghost predicate PartFits(p: Part, e: Encryptor, want: nat)
  {
    if CHUNK * want < |e.rest| then
      !p.after.done && |p.ciphertext| == FRAME * want && p.plain == CHUNK * want
          && p.after.rest == e.rest[CHUNK * want..]
    else p.after.done && p.plain == |e.rest|
  }

  lemma OneFrameMore(e: Encryptor, want: nat)
    requires want > 0 && |e.rest| > CHUNK
    ensures CHUNK * want < |e.rest| ==> e.rest[CHUNK..][CHUNK * (want - 1)..] == e.rest[CHUNK * want..]
  {
  }

  /** The parts for a sequence of requested sizes, up to the end of the input. */
  function Parts(a: Aead, e: Encryptor, sizes: seq<nat>): (Bytes, Encryptor)
    decreases |sizes|
  {
    if sizes == [] || e.done then ([], e)
    else
      var p := NextPart(a, e, sizes[0], 0);
      var tail := Parts(a, p.after, sizes[1..]);
      (p.ciphertext + tail.0, tail.1)
  }

  /** `encrypt_bytes` under a given nonce. */
  function EncryptBytes(a: Aead, nonce: Bytes, data: Bytes): Bytes
  {
    nonce + Sealed(a, 0, data)
  }

  lemma {:induction false} PartsAreNext(a: Aead, e: Encryptor, sizes: seq<nat>)
    ensures Left(a, e) == Parts(a, e, sizes).0 + Left(a, Parts(a, e, sizes).1)
    decreases |sizes|
  {
    if sizes != [] && !e.done {
      var p := NextPart(a, e, sizes[0], 0);
      PartIsNext(a, e, sizes[0], 0);
      PartsAreNext(a, p.after, sizes[1..]);
    } else {
      assert [] + Left(a, e) == Left(a, e);
    }
  }

  /** Whatever sizes are asked for, nonce and parts together are `encrypt_bytes` of the whole
      file, and exactly as long as `ciphertext_len` says. */
  lemma {:induction false} PartsMakeTheObject(a: Aead, nonce: Bytes, data: Bytes, sizes: seq<nat>)
    requires IsAead(a) && |nonce| == NONCE
    requires Parts(a, Encryptor(data, 0, false), sizes).1.done
    ensures nonce + Parts(a, Encryptor(data, 0, false), sizes).0 == EncryptBytes(a, nonce, data)
    ensures |EncryptBytes(a, nonce, data)| == CiphertextLen(|data|)
  {
    PartsAreNext(a, Encryptor(data, 0, false), sizes);
    SealedLen(a, 0, data);
    assert Parts(a, Encryptor(data, 0, false), sizes).0 + [] == Parts(a, Encryptor(data, 0, false), sizes).0;
  }

  /** `StreamingEncryptor` over a file. */
  class StreamingEncryptor {
    const a: Aead
    var rest: Bytes
    var counter: nat
    var done: bool

    constructor (a: Aead, data: Bytes)
      ensures this.a == a && Now() == Encryptor(data, 0, false)
    {
      this.a, rest, counter, done := a, data, 0, false;
    }

    function Now(): Encryptor
      reads this
    {
      Encryptor(rest, counter, done)
    }

    method EncryptNextPart(size: nat) returns (part: Option<Bytes>, plain: nat)
      modifies this
      ensures old(done) ==> part == None && plain == 0 && Now() == old(Now())
      ensures !old(done) ==> var p := NextPart(a, old(Now()), size, 0);
                             part == Some(p.ciphertext) && plain == p.plain && Now() == p.after
    {
      if done { return None, 0; }
      var ciphertext: Bytes := [];
      plain := 0;
      ghost var whole := NextPart(a, Now(), size, 0);
      while true
        invariant !done && Completes(a, Now(), size, ciphertext, plain, whole)
        decreases |rest|
      {
        PartGoesOn(a, Now(), size, ciphertext, plain, whole);
        var n := Min(CHUNK, |rest|);
        var chunk := rest[..n];
        rest := rest[n..];
        plain := plain + n;
        if n == 0 || rest == [] {
          ciphertext := ciphertext + a.seal(counter, true, chunk);
          done := true;
          break;
        }
        ciphertext := ciphertext + a.seal(counter, false, chunk);
        counter := counter + 1;
        if |ciphertext| >= size { break; }
      }
      part := Some(ciphertext);
    }
  }

  /** With `ciphertext` done, for `plain` bytes, what comes next makes the part `whole`. */
  ghost predicate Completes(a: Aead, e: Encryptor, size: nat, ciphertext: Bytes, plain: nat, whole: Part)
    requires !e.done
  {
    var p := NextPart(a, e, size, |ciphertext|);
    whole == Part(ciphertext + p.ciphertext, plain + p.plain, p.after)
  }

  lemma {:induction false} PartGoesOn(a: Aead, e: Encryptor, size: nat, was: Bytes, plain: nat, whole: Part)
    requires !e.done && Completes(a, e, size, was, plain, whole)
    ensures var n := Min(CHUNK, |e.rest|);
            var chunk, rest := e.rest[..n], e.rest[n..];
            if rest == [] then whole
                          == Part(was + a.seal(e.counter, true, chunk), plain + n, Encryptor([], e.counter, true))
            else
              var now, after := was + a.seal(e.counter, false, chunk), Encryptor(rest, e.counter + 1, false);
              if |now| >= size then whole
                               == Part(now, plain + n, after) else Completes(a, after, size, now, plain + n, whole)
  {
    var n := Min(CHUNK, |e.rest|);
    var chunk, rest := e.rest[..n], e.rest[n..];
    var frame, after := a.seal(e.counter, false, chunk), Encryptor(rest, e.counter + 1, false);
    if rest != [] && |was + frame| < size {
      assert |was + frame| == |was| + |frame|;
      ThreeParts(was, frame, NextPart(a, after, size, |was + frame|).ciphertext);
    }
  }

  lemma ThreeParts(x: Bytes, y: Bytes, z: Bytes)
    ensures x + y + z == x + (y + z)
  {
  }

  /** `encrypt_bytes`: all but the last frame in a loop, then the last, which may be empty. */
  method EncryptAll(a: Aead, nonce: Bytes, data: Bytes) returns (output: Bytes)
    ensures output == EncryptBytes(a, nonce, data)
  {
    output := nonce;
    var lastStart := (if |data| == 0 then 0 else |data| - 1) / CHUNK * CHUNK;
    var at, i := 0, 0;
    while at < lastStart
      invariant at <= lastStart && at == CHUNK * i && lastStart % CHUNK == 0
      invariant output + Sealed(a, i, data[at..]) == EncryptBytes(a, nonce, data)
    {
      var frame := a.seal(i, false, data[at..at + CHUNK]);
      assert data[at..][..CHUNK] == data[at..at + CHUNK] && data[at..][CHUNK..] == data[at + CHUNK..];
      assert output + (frame + Sealed(a, i + 1, data[at + CHUNK..]))
             == output + frame + Sealed(a, i + 1, data[at + CHUNK..]);
      output := output + frame;
      at, i := at + CHUNK, i + 1;
    }
    output := output + a.seal(i, true, data[lastStart..]);
  }

  // ----- The decryptor -----

  /** What has arrived and not been opened, and the next counter. */
  datatype Decryptor = Decryptor(buffer: Bytes, counter: nat)

  datatype Fed = Fed(plain: Option<Bytes>, after: Decryptor)

  /** The loop of `feed`: whole frames are opened as long as more than one frame is buffered. */
  function Drain(a: Aead, d: Decryptor): Fed
    decreases |d.buffer|
  {
    if |d.buffer| <= FRAME then Fed(Some([]), d)
    else
      var after := Decryptor(d.buffer[FRAME..], d.counter + 1);
      match a.open(d.counter, false, d.buffer[..FRAME])
      case None => Fed(None, after)
      case Some(x) =>
        var tail := Drain(a, after);
        Fed(if tail.plain.None? then None else Some(x + tail.plain.value), tail.after)
  }

  function Feed(a: Aead, d: Decryptor, bytes: Bytes): Fed
  {
    Drain(a, d.(buffer := d.buffer + bytes))
  }

  /** `feed` once per piece, then `finish`. */
  function FeedAll(a: Aead, d: Decryptor, pieces: seq<Bytes>): Fed
    decreases |pieces|
  {
    if pieces == [] then Fed(Some([]), d)
    else
      var f := Feed(a, d, pieces[0]);
      if f.plain.None? then f
      else
        var tail := FeedAll(a, f.after, pieces[1..]);
        Fed(if tail.plain.None? then None else Some(f.plain.value + tail.plain.value), tail.after)
  }

  function Concat(pieces: seq<Bytes>): Bytes
  {
    if pieces == [] then [] else pieces[0] + Concat(pieces[1..])
  }

  /** The decryptor has opened exactly the first `counter` frames of `data` and holds what
      arrived after them, out of `n` bytes fed so far. */
  ghost predicate Follows(a: Aead, d: Decryptor, data: Bytes, n: nat)
  {
    && n <= |Sealed(a, 0, data)|
    && (d.counter == 0 || CHUNK * d.counter < |data|)
    && FRAME * d.counter <= n && d.buffer == Sealed(a, 0, data)[FRAME * d.counter..n]
  }

  lemma CutSlice(all: Bytes, x: nat, n: nat, k: nat)
    requires x + k <= n <= |all|
    ensures all[x..n][..k] == all[x..x + k] && all[x..n][k..] == all[x + k..n]
  {
  }

  /** More than a frame of ciphertext starts with a frame that is not the last. */
  lemma {:induction false} WholeFrame(a: Aead, i: nat, rest: Bytes)
    requires IsAead(a) && |Sealed(a, i, rest)| > FRAME
    ensures |rest| > CHUNK && Sealed(a, i, rest)[..FRAME] == a.seal(i, false, rest[..CHUNK])
  {
  }

  lemma {:induction false} FrameFrom(a: Aead, data: Bytes, j: nat, m: nat, n: nat)
    requires IsAead(a) && Drops(a, 0, data, j, m, n) && n + FRAME < |Sealed(a, 0, data)|
    ensures m + CHUNK < |data|
    ensures Sealed(a, 0, data)[n..n + FRAME] == a.seal(j, false, data[m..m + CHUNK])
  {
    var tail, rest := Sealed(a, 0, data)[n..], data[m..];
    WholeFrame(a, j, rest);
    assert tail[..FRAME] == Sealed(a, 0, data)[n..n + FRAME];
    assert rest[..CHUNK] == data[m..m + CHUNK];
  }

  lemma {:induction false} FrameAt(a: Aead, data: Bytes, k: nat)
    requires IsAead(a) && (k == 0 || CHUNK * k < |data|) && FRAME * k + FRAME < |Sealed(a, 0, data)|
    ensures CHUNK * k + CHUNK < |data|
    ensures Sealed(a, 0, data)[FRAME * k..FRAME * k + FRAME] == a.seal(k, false, data[CHUNK * k..CHUNK * k + CHUNK])
  {
    SealedDrop(a, 0, data, k, CHUNK * k, FRAME * k);
    FrameFrom(a, data, k, CHUNK * k, FRAME * k);
  }

  /** While more than a frame is buffered the next frame is not the last one. */
  lemma {:induction false} FrameIsWhole(a: Aead, d: Decryptor, data: Bytes, n: nat)
    requires IsAead(a) && Follows(a, d, data, n) && |d.buffer| > FRAME
    ensures CHUNK * (d.counter + 1) < |data|
    ensures a.open(d.counter, false, d.buffer[..FRAME]) == Some(data[CHUNK * d.counter..CHUNK * (d.counter + 1)])
    ensures Follows(a, Decryptor(d.buffer[FRAME..], d.counter + 1), data, n)
  {
    FrameAt(a, data, d.counter);
    CutSlice(Sealed(a, 0, data), FRAME * d.counter, n, FRAME);
  }

  /** `feed` emits the next stretch of the plaintext, and never runs past its last frame. */
  lemma {:induction false} DrainEmits(a: Aead, d: Decryptor, data: Bytes, n: nat)
    requires IsAead(a) && Follows(a, d, data, n)
    ensures var f := Drain(a, d);
            && Follows(a, f.after, data, n) && d.counter <= f.after.counter && |f.after.buffer| <= FRAME
            && CHUNK * f.after.counter <= |data|
            && f.plain == Some(data[CHUNK * d.counter..CHUNK * f.after.counter])
    decreases |d.buffer|
  {
    if |d.buffer| > FRAME {
      FrameIsWhole(a, d, data, n);
      var after := Decryptor(d.buffer[FRAME..], d.counter + 1);
      DrainEmits(a, after, data, n);
      var f := Drain(a, after);
      assert data[CHUNK * d.counter..CHUNK * (d.counter + 1)] + data[CHUNK * (d.counter + 1)..CHUNK * f.after.counter]
             == data[CHUNK * d.counter..CHUNK * f.after.counter];
    } else {
      assert data[CHUNK * d.counter..CHUNK * d.counter] == [];
    }
  }

  lemma {:induction false} FeedFollows(a: Aead, d: Decryptor, data: Bytes, n: nat, bytes: Bytes)
    requires Follows(a, d, data, n) && Piece(Sealed(a, 0, data), n, bytes)
    ensures Follows(a, d.(buffer := d.buffer + bytes), data, n + |bytes|)
  {
    var all := Sealed(a, 0, data);
    assert all[FRAME * d.counter..n] + all[n..n + |bytes|] == all[FRAME * d.counter..n + |bytes|];
  }

  lemma Stretch(data: Bytes, i: nat, j: nat, k: nat)
    requires i <= j <= k <= |data|
    ensures data[i..j] + data[j..k] == data[i..k]
  {
  }

  /** `bytes` is what `all` has from `n` on. */
  predicate Piece(all: Bytes, n: nat, bytes: Bytes)
  {
    n + |bytes| <= |all| && bytes == all[n..n + |bytes|]
  }

  lemma NextPiece(all: Bytes, n: nat, bytes: Bytes, tail: Bytes)
    requires Piece(all, n, bytes + tail)
    ensures Piece(all, n, bytes) && Piece(all, n + |bytes|, tail)
  {
    assert bytes == (bytes + tail)[..|bytes|] && tail == (bytes + tail)[|bytes|..];
  }

  /** `f` is what feeding the first `n` bytes, and no more, makes of `d`. */
  ghost predicate Emits(a: Aead, d: Decryptor, data: Bytes, f: Fed, n: nat)
  {
    && Follows(a, f.after, data, n) && d.counter <= f.after.counter && |f.after.buffer| <= FRAME
    && CHUNK * f.after.counter <= |data|
    && f.plain == Some(data[CHUNK * d.counter..CHUNK * f.after.counter])
  }

  lemma {:induction false} FeedEmits(a: Aead, d: Decryptor, data: Bytes, n: nat, bytes: Bytes)
    requires IsAead(a) && Follows(a, d, data, n) && Piece(Sealed(a, 0, data), n, bytes)
    ensures Emits(a, d, data, Feed(a, d, bytes), n + |bytes|)
  {
    FeedFollows(a, d, data, n, bytes);
    DrainEmits(a, d.(buffer := d.buffer + bytes), data, n + |bytes|);
  }

  /** Two feeds in a row emit one stretch. */
  lemma EmitsOn(a: Aead, d: Decryptor, data: Bytes, f: Fed, n: nat, g: Fed, k: nat)
    requires Emits(a, d, data, f, n) && Emits(a, f.after, data, g, k)
    ensures Emits(a, d, data, Fed(Some(f.plain.value + g.plain.value), g.after), k)
  {
    Stretch(data, CHUNK * d.counter, CHUNK * f.after.counter, CHUNK * g.after.counter);
  }

  /** Any pieces, fed in order, as far as they go. */
  lemma {:induction false} FeedAllEmits(a: Aead, d: Decryptor, data: Bytes, n: nat, pieces: seq<Bytes>)
    requires IsAead(a) && Follows(a, d, data, n) && |d.buffer| <= FRAME && CHUNK * d.counter <= |data|
    requires Piece(Sealed(a, 0, data), n, Concat(pieces))
    ensures Emits(a, d, data, FeedAll(a, d, pieces), n + |Concat(pieces)|)
    decreases |pieces|
  {
    if pieces == [] {
      assert data[CHUNK * d.counter..CHUNK * d.counter] == [];
    } else {
      var bytes, tail := pieces[0], Concat(pieces[1..]);
      NextPiece(Sealed(a, 0, data), n, bytes, tail);
      FeedEmits(a, d, data, n, bytes);
      var f := Feed(a, d, bytes);
      FeedAllEmits(a, f.after, data, n + |bytes|, pieces[1..]);
      EmitsOn(a, d, data, f, n + |bytes|, FeedAll(a, f.after, pieces[1..]), n + |bytes| + |tail|);
    }
  }

  /** What is held back when everything has been fed is exactly the last frame. */
  lemma {:induction false} HeldBackIsLast(a: Aead, d: Decryptor, data: Bytes)
    requires IsAead(a) && Follows(a, d, data, |Sealed(a, 0, data)|) && |d.buffer| <= FRAME
             && CHUNK * d.counter <= |data|
    ensures a.open(d.counter, true, d.buffer) == Some(data[CHUNK * d.counter..])
  {
    var k, all := d.counter, Sealed(a, 0, data);
    SealedDrop(a, 0, data, k, CHUNK * k, FRAME * k);
    var rest := data[CHUNK * k..];
    assert d.buffer == all[FRAME * k..] == Sealed(a, k, rest);
    SealedLen(a, k, rest);
    LongerLen(|rest|);
  }

  /** However the ciphertext is cut into pieces, feeding them emits a prefix of the plaintext
      and `finish` returns the rest of it. */
  lemma {:induction false} DecryptionInverts(a: Aead, data: Bytes, pieces: seq<Bytes>)
    requires IsAead(a) && Concat(pieces) == Sealed(a, 0, data)
    ensures var f := FeedAll(a, Decryptor([], 0), pieces);
            && f.plain.Some? && f.plain.value <= data
            && a.open(f.after.counter, true, f.after.buffer) == Some(data[|f.plain.value|..])
  {
    FeedEmitsPrefixes(a, data, pieces);
    HeldBackIsLast(a, FeedAll(a, Decryptor([], 0), pieces).after, data);
  }

  /** Wherever a download is cut off, and however what arrived was cut into pieces, what has
      been emitted is a prefix of the plaintext, whole frames of it, and nothing was refused. */
  lemma {:induction false} FeedEmitsPrefixes(a: Aead, data: Bytes, pieces: seq<Bytes>)
    requires IsAead(a) && Concat(pieces) <= Sealed(a, 0, data)
    ensures var f := FeedAll(a, Decryptor([], 0), pieces);
            && f.plain.Some? && f.plain.value <= data && |f.plain.value| == CHUNK * f.after.counter
            && Follows(a, f.after, data, |Concat(pieces)|) && |f.after.buffer| <= FRAME
  {
    var d, all := Decryptor([], 0), Sealed(a, 0, data);
    assert all[0..|Concat(pieces)|] == Concat(pieces);
    FeedAllEmits(a, d, data, 0, pieces);
    var f := FeedAll(a, d, pieces);
    assert data[0..CHUNK * f.after.counter] == data[..CHUNK * f.after.counter];
  }

  /** `StreamingDecryptor`. */
  class StreamingDecryptor {
    const a: Aead
    var buffer: Bytes
    var counter: nat

    constructor (a: Aead)
      ensures this.a == a && Now() == Decryptor([], 0)
    {
      this.a, buffer, counter := a, [], 0;
    }

    function Now(): Decryptor
      reads this
    {
      Decryptor(buffer, counter)
    }

    method FeedBytes(bytes: Bytes) returns (plain: Option<Bytes>)
      modifies this
      ensures var f := Feed(a, old(Now()), bytes); plain == f.plain && Now() == f.after
    {
      ghost var whole := Feed(a, Now(), bytes);
      buffer := buffer + bytes;
      var out: Bytes := [];
      assert whole.plain.Some? ==> out + whole.plain.value == whole.plain.value;
      while |buffer| > FRAME
        invariant var f := Drain(a, Now());
                  whole == Fed(if f.plain.None? then None else Some(out + f.plain.value), f.after)
        decreases |buffer|
      {
        ghost var f := Drain(a, Now());
        var frame := buffer[..FRAME];
        buffer := buffer[FRAME..];
        var unsealed := a.open(counter, false, frame);
        counter := counter + 1;
        if unsealed.None? { return None; }
        ghost var g := Drain(a, Now());
        assert g.plain.Some? ==> out + (unsealed.value + g.plain.value) == out + unsealed.value + g.plain.value;
        out := out + unsealed.value;
      }
      assert out + [] == out;
      plain := Some(out);
    }

    /** Once a whole ciphertext has been fed, the rest of its plaintext; whatever was fed, what
        is held back counts as the last frame or nothing does. */
    method Finish() returns (plain: Option<Bytes>)
      modifies this
      ensures plain == a.open(old(counter), true, old(buffer))
      ensures forall data :: IsAead(a) && Follows(a, old(Now()), data, |Sealed(a, 0, data)|)
                             && |old(buffer)| <= FRAME && CHUNK * old(counter) <= |data|
                             ==> plain == Some(data[CHUNK * old(counter)..])
    {
      ghost var was := Now();
      var frame := buffer;
      buffer := [];
      plain := a.open(counter, true, frame);
      forall data | IsAead(a) && Follows(a, was, data, |Sealed(a, 0, data)|) && |was.buffer| <= FRAME
          && CHUNK * was.counter <= |data|
        ensures plain == Some(data[CHUNK * was.counter..])
      {
        HeldBackIsLast(a, was, data);
      }
    }
  }

  // ----- What is refused -----

  /** `feed` of everything at once, then `finish`. */
  function Decrypts(a: Aead, body: Bytes): Option<Bytes>
  {
    var f := Feed(a, Decryptor([], 0), body);
    var last := a.open(f.after.counter, true, f.after.buffer);
    if f.plain.None? || last.None? then None else Some(f.plain.value + last.value)
  }

  function FrameText(data: Bytes, i: nat, last: bool): Bytes
    requires CHUNK * i <= |data| && (!last ==> CHUNK * i + CHUNK <= |data|)
  {
    if last then data[CHUNK * i..] else data[CHUNK * i..CHUNK * i + CHUNK]
  }

  /** `c` is frame `i` of the file's ciphertext, with the flag it has there. */
  predicate IsFrameOf(a: Aead, data: Bytes, i: nat, last: bool, c: Bytes)
  {
    && (i == 0 || CHUNK * i < |data|) && (last <==> |data| <= CHUNK * i + CHUNK)
    && c == a.seal(i, last, FrameText(data, i, last))
  }

  /** The cipher of one object, as its reader sees it: nobody else has the key and the nonce was
      used once, so exactly this file's frames open, each in its place and to its own text. */
  ghost predicate OnlyOf(a: Aead, data: Bytes)
  {
    && (forall i, last, x :: |a.seal(i, last, x)| == |x| + TAG)
    && (forall i, last, c :: if IsFrameOf(a, data, i, last, c) then a.open(i, last, c) == Some(FrameText(data, i, last))
                             else a.open(i, last, c).None?)
  }

  /** Whatever drains and then closes is the rest of the ciphertext. */
  lemma {:induction false} DrainsOnly(a: Aead, d: Decryptor, data: Bytes)
    requires OnlyOf(a, data) && (d.counter == 0 || CHUNK * d.counter < |data|)
    requires var f := Drain(a, d); f.plain.Some? && a.open(f.after.counter, true, f.after.buffer).Some?
    ensures d.buffer == Sealed(a, d.counter, data[CHUNK * d.counter..])
    decreases |d.buffer|
  {
    var k, rest := d.counter, data[CHUNK * d.counter..];
    if |d.buffer| <= FRAME {
      assert IsFrameOf(a, data, k, true, d.buffer);
    } else {
      assert IsFrameOf(a, data, k, false, d.buffer[..FRAME]);
      assert rest[..CHUNK] == data[CHUNK * k..CHUNK * k + CHUNK];
      assert rest[CHUNK..] == data[CHUNK * (k + 1)..];
      DrainsOnly(a, Decryptor(d.buffer[FRAME..], k + 1), data);
    }
  }

  lemma {:induction false} DrainsFirst(a: Aead, k: nat, frame: Bytes, x: Bytes, tail: Bytes)
    requires |frame| == FRAME && tail != [] && a.open(k, false, frame) == Some(x)
    ensures var f, g := Drain(a, Decryptor(frame + tail, k)), Drain(a, Decryptor(tail, k + 1));
            f.after == g.after && f.plain == if g.plain.None? then None else Some(x + g.plain.value)
  {
    assert (frame + tail)[..FRAME] == frame && (frame + tail)[FRAME..] == tail;
  }

  /** All of `rest` comes out of draining and closing. */
  ghost predicate GivesBack(a: Aead, k: nat, body: Bytes, rest: Bytes)
  {
    var f := Drain(a, Decryptor(body, k));
    var last := a.open(f.after.counter, true, f.after.buffer);
    f.plain.Some? && last.Some? && f.plain.value + last.value == rest
  }

  lemma {:induction false} GivesMore(a: Aead, k: nat, frame: Bytes, x: Bytes, tail: Bytes, rest: Bytes)
    requires |frame| == FRAME && tail != [] && a.open(k, false, frame) == Some(x)
    requires GivesBack(a, k + 1, tail, rest)
    ensures GivesBack(a, k, frame + tail, x + rest)
  {
    DrainsFirst(a, k, frame, x, tail);
    var g := Drain(a, Decryptor(tail, k + 1));
    var y, z := g.plain.value, a.open(g.after.counter, true, g.after.buffer).value;
    assert x + y + z == x + (y + z);
  }

  /** And the rest of the ciphertext drains and closes. */
  lemma {:induction false} DrainsWhole(a: Aead, k: nat, data: Bytes)
    requires OnlyOf(a, data) && (k == 0 || CHUNK * k < |data|)
    ensures GivesBack(a, k, Sealed(a, k, data[CHUNK * k..]), data[CHUNK * k..])
    ensures Sealed(a, k, data[CHUNK * k..]) != []
    decreases |data| - CHUNK * k
  {
    var rest := data[CHUNK * k..];
    var body := Sealed(a, k, rest);
    if |rest| <= CHUNK {
      assert IsFrameOf(a, data, k, true, body);
      assert |body| <= FRAME;
      assert [] + rest == rest;
    } else {
      var frame := a.seal(k, false, rest[..CHUNK]);
      assert rest[..CHUNK] == data[CHUNK * k..CHUNK * k + CHUNK] && rest[CHUNK..] == data[CHUNK * (k + 1)..];
      DrainsWhole(a, k + 1, data);
      assert IsFrameOf(a, data, k, false, frame);
      GivesMore(a, k, frame, rest[..CHUNK], Sealed(a, k + 1, rest[CHUNK..]), rest[CHUNK..]);
      assert rest[..CHUNK] + rest[CHUNK..] == rest;
    }
  }

  /** A ciphertext is accepted exactly if it is the whole genuine one, and gives its plaintext. */
  lemma {:induction false} AcceptsIffGenuine(a: Aead, data: Bytes, body: Bytes)
    requires OnlyOf(a, data)
    ensures Decrypts(a, body).Some? <==> body == Sealed(a, 0, data)
    ensures body == Sealed(a, 0, data) ==> Decrypts(a, body) == Some(data)
  {
    assert data[0..] == data && [] + body == body;
    if Decrypts(a, body).Some? {
      DrainsOnly(a, Decryptor(body, 0), data);
    }
    DrainsWhole(a, 0, data);
  }

  lemma {:induction false} WholeDecrypts(a: Aead, data: Bytes)
    requires IsAead(a)
    ensures Decrypts(a, Sealed(a, 0, data)) == Some(data)
  {
    var body := Sealed(a, 0, data);
    assert Concat([body]) == body && [body][1..] == [];
    DecryptionInverts(a, data, [body]);
    var f := Feed(a, Decryptor([], 0), body);
    assert FeedAll(a, Decryptor([], 0), [body])
           == if f.plain.None? then f else Fed(Some(f.plain.value + []), f.after);
    assert f.plain.value + [] == f.plain.value;
    assert f.plain.value + data[|f.plain.value|..] == data;
  }

  /** In particular a ciphertext cut short, at a frame's end or anywhere else, is refused. */
  lemma {:induction false} TruncatedIsRefused(a: Aead, data: Bytes, n: nat)
    requires OnlyOf(a, data) && n < |Sealed(a, 0, data)|
    ensures Decrypts(a, Sealed(a, 0, data)[..n]).None?
  {
    AcceptsIffGenuine(a, data, Sealed(a, 0, data)[..n]);
  }

  /** A cipher that opens what it sealed and nothing else. */
  ghost predicate OpensOnlySealed(a: Aead)
  {
    forall i, last, c :: a.open(i, last, c).Some? ==> c == a.seal(i, last, a.open(i, last, c).value)
  }

  /** Whole frames throughout, none of them flagged, and an empty last one. */
  function Overlong(a: Aead, i: nat, data: Bytes): Bytes
    requires |data| % CHUNK == 0
    decreases |data|
  {
    if data == [] then a.seal(i, true, [])
    else a.seal(i, false, data[..CHUNK]) + Overlong(a, i + 1, data[CHUNK..])
  }

  /** The two framings of some data the decryptor takes. */
  ghost predicate Framing(a: Aead, i: nat, data: Bytes, body: Bytes)
  {
    body == Sealed(a, i, data) || (data != [] && |data| % CHUNK == 0 && body == Overlong(a, i, data))
  }

  lemma {:induction false} DrainsFraming(a: Aead, d: Decryptor, data: Bytes)
    requires IsAead(a) && OpensOnlySealed(a)
    requires var f := Drain(a, d); var last := a.open(f.after.counter, true, f.after.buffer);
             f.plain.Some? && last.Some? && data == f.plain.value + last.value
    ensures Framing(a, d.counter, data, d.buffer)
    decreases |d.buffer|
  {
    var f := Drain(a, d);
    if |d.buffer| <= FRAME {
      assert f.plain.value == [] && data == a.open(d.counter, true, d.buffer).value;
      assert |d.buffer| == |data| + TAG;
    } else {
      var frame, after := d.buffer[..FRAME], Decryptor(d.buffer[FRAME..], d.counter + 1);
      var x := a.open(d.counter, false, frame).value;
      var g := Drain(a, after);
      var rest := g.plain.value + a.open(g.after.counter, true, g.after.buffer).value;
      assert frame == a.seal(d.counter, false, x) && |frame| == |x| + TAG;
      assert data == x + rest && |x| == CHUNK;
      DrainsFraming(a, after, rest);
      FramingGrows(a, d.counter, x, rest, frame, after.buffer);
      assert d.buffer == frame + after.buffer;
    }
  }

  lemma {:induction false} FramingGrows(a: Aead, i: nat, x: Bytes, rest: Bytes, frame: Bytes, body: Bytes)
    requires |x| == CHUNK && frame == a.seal(i, false, x) && Framing(a, i + 1, rest, body)
    ensures Framing(a, i, x + rest, frame + body)
  {
    var data := x + rest;
    assert data[..CHUNK] == x && data[CHUNK..] == rest;
    if rest == [] {
      assert Overlong(a, i + 1, []) == body;
    }
  }

  lemma {:induction false} OverlongDrains(a: Aead, i: nat, data: Bytes)
    requires IsAead(a) && |data| % CHUNK == 0
    ensures var f := Drain(a, Decryptor(Overlong(a, i, data), i));
            && f.plain == Some(data) && a.open(f.after.counter, true, f.after.buffer) == Some([])
    ensures |Overlong(a, i, data)| > 0 && (data != [] ==> |Overlong(a, i, data)| > FRAME)
    decreases |data|
  {
    if data != [] {
      var tail := Overlong(a, i + 1, data[CHUNK..]);
      var frame := a.seal(i, false, data[..CHUNK]);
      OverlongDrains(a, i + 1, data[CHUNK..]);
      var body := Overlong(a, i, data);
      assert body[..FRAME] == frame && body[FRAME..] == tail;
      assert data[..CHUNK] + data[CHUNK..] == data;
    }
  }

  /** Sealed by hand, one ciphertext more is taken for some files: a whole number of chunks, each
      in a frame of its own that is not flagged, and an empty last frame. Nothing else is. */
  lemma {:induction false} AcceptsIffFraming(a: Aead, data: Bytes, body: Bytes)
    requires IsAead(a) && OpensOnlySealed(a)
    ensures Decrypts(a, body) == Some(data) <==> Framing(a, 0, data, body)
  {
    assert [] + body == body;
    if Decrypts(a, body) == Some(data) { DrainsFraming(a, Decryptor(body, 0), data); }
    if body == Sealed(a, 0, data) {
      WholeDecrypts(a, data);
    } else if Framing(a, 0, data, body) {
      OverlongDrains(a, 0, data);
      assert data + [] == data;
    }
  }

  /** `decrypt_bytes`: the nonce is cut off the front and picks the cipher. */
  method DecryptAll(cipher: Bytes -> Aead, ciphertext: Bytes) returns (plain: Option<Bytes>)
    ensures |ciphertext| < NONCE ==> plain == None
    ensures |ciphertext| >= NONCE ==> plain == Decrypts(cipher(ciphertext[..NONCE]), ciphertext[NONCE..])
    ensures forall data ::
              (|ciphertext| >= NONCE && IsAead(cipher(ciphertext[..NONCE]))
               && ciphertext == EncryptBytes(cipher(ciphertext[..NONCE]), ciphertext[..NONCE], data)) ==>
                    plain == Some(data)
    ensures forall data ::
              |ciphertext| >= NONCE && OnlyOf(cipher(ciphertext[..NONCE]), data) ==>
                (plain == Some(data) <==>
                  ciphertext == EncryptBytes(cipher(ciphertext[..NONCE]), ciphertext[..NONCE], data))
                && (plain.Some? ==> plain == Some(data))
  {
    if |ciphertext| < NONCE { return None; }
    var nonce, body := ciphertext[..NONCE], ciphertext[NONCE..];
    var a := cipher(nonce);
    var d := new StreamingDecryptor(a);
    var first := d.FeedBytes(body);
    if first.None? {
      plain := None;
    } else {
      var last := d.Finish();
      plain := if last.None? then None else Some(first.value + last.value);
    }
    forall data | IsAead(a) && ciphertext == EncryptBytes(a, nonce, data) ensures plain == Some(data) {
      assert body == Sealed(a, 0, data);
      WholeDecrypts(a, data);
    }
    forall data | OnlyOf(a, data)
      ensures plain == Some(data) <==> ciphertext == EncryptBytes(a, nonce, data)
      ensures plain.Some? ==> plain == Some(data) {
      assert ciphertext == nonce + body;
      AcceptsIffGenuine(a, data, body);
    }
  }
}
