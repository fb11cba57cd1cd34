/** The bytes a chunk is hashed over, and how much of the chunk they determine. */
module Canonical {
  import opened Core

  /** The low `width` bytes of `n`, big-endian: `to_be_bytes` after a cast to that width. */
  function BigEndian(n: nat, width: nat): (b: Bytes)
    ensures |b| == width
  {
    if width == 0 then [] else BigEndian(n / 256, width - 1) + [n % 256]
  }

  function Pow256(width: nat): (p: nat)
    ensures p > 0
  {
    if width == 0 then 1 else 256 * Pow256(width - 1)
  }

  lemma {:induction false} BigEndianInjective(a: nat, b: nat, width: nat)
    requires a < Pow256(width) && b < Pow256(width)
    requires BigEndian(a, width) == BigEndian(b, width)
    ensures a == b
  {
    if width > 0 {
      var x, y := BigEndian(a / 256, width - 1), BigEndian(b / 256, width - 1);
      assert (x + [a % 256])[width - 1] == a % 256 && (y + [b % 256])[width - 1] == b % 256;
      assert (x + [a % 256])[..width - 1] == x && (y + [b % 256])[..width - 1] == y;
      assert a == 256 * (a / 256) + a % 256 && b == 256 * (b / 256) + b % 256;
      BigEndianInjective(a / 256, b / 256, width - 1);
    }
  }

  function FromBigEndian(b: Bytes): (n: nat)
    ensures n < Pow256(|b|)
  {
    if b == [] then 0 else 256 * FromBigEndian(b[..|b| - 1]) + b[|b| - 1]
  }

  lemma {:induction false} BigEndianRoundTrip(n: nat, width: nat)
    requires n < Pow256(width)
    ensures FromBigEndian(BigEndian(n, width)) == n
  {
    if width > 0 {
      BigEndianRoundTrip(n / 256, width - 1);
      FromBigEndianSnoc(BigEndian(n / 256, width - 1), n % 256);
    }
  }

  lemma FromBigEndianSnoc(b: Bytes, x: byte)
    ensures FromBigEndian(b + [x]) == 256 * FromBigEndian(b) + x
  {
    assert (b + [x])[..|b|] == b;
  }

  /** The first byte weighs most. */
  lemma {:induction false} FirstByteWeighsMost(x: byte, b: Bytes)
    ensures FromBigEndian([x] + b) == x * Pow256(|b|) + FromBigEndian(b)
  {
    if b == [] {
      assert [x] + b == [] + [x];
      FromBigEndianSnoc([], x);
    } else {
      var front, last := b[..|b| - 1], b[|b| - 1];
      assert [x] + b == ([x] + front) + [last] && b == front + [last];
      FromBigEndianSnoc([x] + front, last);
      FromBigEndianSnoc(front, last);
      FirstByteWeighsMost(x, front);
      Weighs(x, Pow256(|front|));
    }
  }

  lemma Weighs(x: nat, p: nat)
    ensures 256 * (x * p) == x * (256 * p)
  {
  }

  lemma Widths4And8()
    ensures Pow256(4) == U32_LIMIT && Pow256(8) == U64_LIMIT
  {
    assert Pow256(1) == 256 && Pow256(2) == 0x1_0000;
    assert Pow256(4) == 256 * (256 * Pow256(2));
    assert Pow256(6) == 256 * (256 * Pow256(4));
    assert Pow256(8) == 256 * (256 * Pow256(6));
  }

  /** `timestamp_millis`, rounding down. */
  function Millis(t: Instant): int {
    t / 1_000_000
  }

  /** An `i64` as its unsigned two's complement. */
  function TwosComplement(i: int): nat {
    i % U64_LIMIT
  }

  function PushStr(s: Text): Bytes {
    BigEndian(|s|, 4) + s
  }

  function SaltBytes(salt: Option<Salt>): Bytes {
    match salt
    case None => []
    case Some(s) => [0x01] + s
  }

  /** The 72 bytes between the two strings and the salt. */
  function FixedBytes(h: ChunkHeader): (b: Bytes)
    ensures |b| == 72
  {
    BigEndian(h.sequence, 8) + h.prevHash + h.nonce +
    BigEndian(TwosComplement(Millis(h.createdAt)), 8) +
    BigEndian(h.recordCount, 4) + BigEndian(h.uncompressedLen, 8)
  }

  function CanonicalBytes(h: ChunkHeader): Bytes {
    PushStr(h.service) + PushStr(h.timeWindow) + FixedBytes(h) + SaltBytes(h.keySalt)
  }

  function HashInput(c: Chunk): Bytes {
    CanonicalBytes(c.header) + c.ciphertext
  }

  /** `hash` is `compute_chunk_hash` over the digest `sha`. */
  ghost predicate HashesWith(hash: Chunk -> Hash, sha: Bytes -> Hash) {
    forall c :: hash(c) == sha(HashInput(c))
  }

  /** `canonical_bytes`, appending field by field to one buffer. */
  method WriteCanonicalBytes(h: ChunkHeader) returns (out: Bytes)
    ensures out == CanonicalBytes(h)
  {
    out := [];
    out := out + BigEndian(|h.service|, 4);
    out := out + h.service;
    assert out == PushStr(h.service);
    out := out + BigEndian(|h.timeWindow|, 4);
    out := out + h.timeWindow;
    var strings := PushStr(h.service) + PushStr(h.timeWindow);
    assert out == strings;
    out := out + BigEndian(h.sequence, 8);
    out := out + h.prevHash;
    out := out + h.nonce;
    out := out + BigEndian(TwosComplement(Millis(h.createdAt)), 8);
    out := out + BigEndian(h.recordCount, 4);
    out := out + BigEndian(h.uncompressedLen, 8);
    assert out == strings + FixedBytes(h);
    if h.keySalt.Some? {
      out := out + [0x01];
      out := out + h.keySalt.value;
      assert out == strings + FixedBytes(h) + SaltBytes(h.keySalt);
    }
  }

  /** `compute_chunk_hash`. */
  method ComputeChunkHash(sha: Bytes -> Hash, c: Chunk) returns (h: Hash)
    ensures forall hash :: HashesWith(hash, sha) ==> h == hash(c)
  {
    var input := WriteHashInput(c);
    h := sha(input);
  }

  method WriteHashInput(c: Chunk) returns (out: Bytes)
    ensures out == HashInput(c)
  {
    out := WriteCanonicalBytes(c.header);
    out := out + c.ciphertext;
  }

  /** Every field fits the machine width it is stored in. */
  predicate FitsWidths(h: ChunkHeader) {
    && |h.service| < U32_LIMIT
    && |h.timeWindow| < U32_LIMIT
    && h.sequence < U64_LIMIT
    && h.recordCount < U32_LIMIT
    && h.uncompressedLen < U64_LIMIT
    && -0x8000_0000_0000_0000 <= h.createdAt / 1_000_000 < 0x8000_0000_0000_0000
  }

  /** The header fields the hash covers: the creation time only to the millisecond, and not the salt. */
  predicate SameHashedFields(a: ChunkHeader, b: ChunkHeader) {
    && a.service == b.service
    && a.timeWindow == b.timeWindow
    && a.sequence == b.sequence
    && a.prevHash == b.prevHash
    && a.nonce == b.nonce
    && Millis(a.createdAt) == Millis(b.createdAt)
    && a.recordCount == b.recordCount
    && a.uncompressedLen == b.uncompressedLen
  }

  /** `plain` has no salt, and its ciphertext is what `salted` appends to its header and more. */
  predicate SaltReadAsCiphertext(plain: Chunk, salted: Chunk) {
    && plain.header.keySalt.None?
    && salted.header.keySalt.Some?
    && plain.ciphertext == [0x01] + salted.header.keySalt.value + salted.ciphertext
  }

  predicate SameSaltAndCiphertext(a: Chunk, b: Chunk) {
    a.header.keySalt == b.header.keySalt && a.ciphertext == b.ciphertext
  }

  lemma PeelPrefix(p: Bytes, q: Bytes, x: Bytes, y: Bytes)
    requires |p| == |q| && p + x == q + y
    ensures p == q && x == y
  {
    assert (p + x)[..|p|] == p && (q + y)[..|q|] == q;
    assert (p + x)[|p|..] == x && (q + y)[|q|..] == y;
  }

  lemma PeelStr(s: Text, t: Text, x: Bytes, y: Bytes)
    requires |s| < U32_LIMIT && |t| < U32_LIMIT
    requires PushStr(s) + x == PushStr(t) + y
    ensures s == t && x == y
  {
    assert PushStr(s) + x == BigEndian(|s|, 4) + (s + x);
    assert PushStr(t) + y == BigEndian(|t|, 4) + (t + y);
    PeelPrefix(BigEndian(|s|, 4), BigEndian(|t|, 4), s + x, t + y);
    Widths4And8();
    BigEndianInjective(|s|, |t|, 4);
    PeelPrefix(s, t, x, y);
  }

  lemma PeelSuffix(p: Bytes, q: Bytes, x: Bytes, y: Bytes)
    requires p + x == q + y && |x| == |y|
    ensures p == q && x == y
  {
    assert |p + x| == |q + y|;
    PeelPrefix(p, q, x, y);
  }

  lemma FixedBytesDecode(a: ChunkHeader, b: ChunkHeader)
    requires FitsWidths(a) && FitsWidths(b)
    requires FixedBytes(a) == FixedBytes(b)
    requires a.service == b.service && a.timeWindow == b.timeWindow
    ensures SameHashedFields(a, b)
  {
    hide BigEndian, Pow256;
    Widths4And8();
    var ma, mb := TwosComplement(Millis(a.createdAt)), TwosComplement(Millis(b.createdAt));
    var a1, b1 := BigEndian(a.sequence, 8), BigEndian(b.sequence, 8);
    var a3, b3 := a1 + a.prevHash + a.nonce, b1 + b.prevHash + b.nonce;
    var a5, b5 := a3 + BigEndian(ma, 8) + BigEndian(a.recordCount, 4), b3 + BigEndian(mb, 8) + BigEndian(b.recordCount, 4);
    PeelSuffix(a5, b5, BigEndian(a.uncompressedLen, 8), BigEndian(b.uncompressedLen, 8));
    PeelSuffix(a3 + BigEndian(ma, 8), b3 + BigEndian(mb, 8), BigEndian(a.recordCount, 4), BigEndian(b.recordCount, 4));
    PeelSuffix(a3, b3, BigEndian(ma, 8), BigEndian(mb, 8));
    PeelSuffix(a1 + a.prevHash, b1 + b.prevHash, a.nonce, b.nonce);
    PeelSuffix(a1, b1, a.prevHash, b.prevHash);
    BigEndianInjective(a.sequence, b.sequence, 8);
    BigEndianInjective(ma, mb, 8);
    BigEndianInjective(a.recordCount, b.recordCount, 4);
    BigEndianInjective(a.uncompressedLen, b.uncompressedLen, 8);
  }

  lemma HashInputSplits(c: Chunk)
    ensures HashInput(c) ==
      PushStr(c.header.service) + (PushStr(c.header.timeWindow) +
        (FixedBytes(c.header) + (SaltBytes(c.header.keySalt) + c.ciphertext)))
  {
  }

  lemma TailDecode(a: Chunk, b: Chunk)
    ensures SaltBytes(a.header.keySalt) + a.ciphertext == SaltBytes(b.header.keySalt) + b.ciphertext
      <==> SameSaltAndCiphertext(a, b) || SaltReadAsCiphertext(a, b) || SaltReadAsCiphertext(b, a)
  {
    var x, y := SaltBytes(a.header.keySalt), SaltBytes(b.header.keySalt);
    if a.header.keySalt.Some? == b.header.keySalt.Some? {
      if x + a.ciphertext == y + b.ciphertext {
        PeelPrefix(x, y, a.ciphertext, b.ciphertext);
        if a.header.keySalt.Some? {
          assert x[1..] == a.header.keySalt.value && y[1..] == b.header.keySalt.value;
        }
      }
    } else {
      assert a.header.keySalt.None? ==> x + a.ciphertext == a.ciphertext;
      assert b.header.keySalt.None? ==> y + b.ciphertext == b.ciphertext;
    }
  }

  /** Two chunks have the same hashed bytes exactly when they agree on every hashed field and on
      salt and ciphertext, or one of them is saltless and holds the other's salt in its ciphertext. */
  lemma UniqueDecoding(a: Chunk, b: Chunk)
    requires FitsWidths(a.header) && FitsWidths(b.header)
    ensures HashInput(a) == HashInput(b) <==>
      && SameHashedFields(a.header, b.header)
      && (SameSaltAndCiphertext(a, b) || SaltReadAsCiphertext(a, b) || SaltReadAsCiphertext(b, a))
  {
    var ta, tb := SaltBytes(a.header.keySalt) + a.ciphertext, SaltBytes(b.header.keySalt) + b.ciphertext;
    HashInputSplits(a);
    HashInputSplits(b);
    TailDecode(a, b);
    if HashInput(a) == HashInput(b) {
      var fa, fb := FixedBytes(a.header) + ta, FixedBytes(b.header) + tb;
      PeelStr(a.header.service, b.header.service, PushStr(a.header.timeWindow) + fa, PushStr(b.header.timeWindow) + fb);
      PeelStr(a.header.timeWindow, b.header.timeWindow, fa, fb);
      PeelPrefix(FixedBytes(a.header), FixedBytes(b.header), ta, tb);
      FixedBytesDecode(a.header, b.header);
    }
  }

  predicate WholeMillis(c: Chunk) {
    c.header.createdAt % 1_000_000 == 0
  }

  /** Between chunks with the same salt presence and whole-millisecond times, hashing is injective. */
  lemma HashInputInjective(a: Chunk, b: Chunk)
    requires FitsWidths(a.header) && FitsWidths(b.header)
    requires a.header.keySalt.Some? == b.header.keySalt.Some?
    requires WholeMillis(a) && WholeMillis(b)
    requires HashInput(a) == HashInput(b)
    ensures a == b
  {
    UniqueDecoding(a, b);
    assert a.header.createdAt == 1_000_000 * Millis(a.header.createdAt);
    assert b.header.createdAt == 1_000_000 * Millis(b.header.createdAt);
  }

  /** The saltless chunk that hashes like `c`. */
  function SaltlessTwin(c: Chunk): Chunk
    requires c.header.keySalt.Some?
  {
    Chunk(c.header.(keySalt := None), [0x01] + c.header.keySalt.value + c.ciphertext)
  }

  /** Every salted chunk has a different, saltless chunk with the same hashed bytes. */
  lemma SaltlessTwinHashesAlike(c: Chunk)
    requires c.header.keySalt.Some?
    ensures SaltlessTwin(c) != c && HashInput(SaltlessTwin(c)) == HashInput(c)
  {
    HashInputSplits(c);
    HashInputSplits(SaltlessTwin(c));
    TailDecode(SaltlessTwin(c), c);
  }

  // ---- The layout, read back byte by byte ----

  /** What stands at an offset, and what comes after it. */
  lemma Field(b: Bytes, at: nat, x: Bytes, rest: Bytes)
    requires at <= |b| && b[at..] == x + rest
    ensures at + |x| <= |b| && b[at..at + |x|] == x && b[at + |x|..] == rest
  {
    assert b[at..][..|x|] == x && b[at..][|x|..] == rest;
  }

  lemma CanonicalSplits(h: ChunkHeader)
    ensures CanonicalBytes(h) == BigEndian(|h.service|, 4) + (h.service + (BigEndian(|h.timeWindow|, 4) +
      (h.timeWindow + (FixedBytes(h) + SaltBytes(h.keySalt)))))
  {
    hide BigEndian, FixedBytes, SaltBytes;
  }

  lemma TextsAt(h: ChunkHeader)
    requires |h.service| < U32_LIMIT && |h.timeWindow| < U32_LIMIT
    ensures var b, s, w := CanonicalBytes(h), |h.service|, |h.timeWindow|;
      && |b| == 80 + s + w + |SaltBytes(h.keySalt)|
      && FromBigEndian(b[0..4]) == s && b[4..4 + s] == h.service
      && FromBigEndian(b[4 + s..8 + s]) == w && b[8 + s..8 + s + w] == h.timeWindow
      && b[8 + s + w..80 + s + w] == FixedBytes(h) && b[80 + s + w..] == SaltBytes(h.keySalt)
  {
    hide BigEndian, FromBigEndian, FixedBytes, SaltBytes;
    Widths4And8();
    BigEndianRoundTrip(|h.service|, 4);
    BigEndianRoundTrip(|h.timeWindow|, 4);
    CanonicalSplits(h);
    hide CanonicalBytes;
    var b, s, w := CanonicalBytes(h), |h.service|, |h.timeWindow|;
    var tail := FixedBytes(h) + SaltBytes(h.keySalt);
    assert b[0..] == b;
    Field(b, 0, BigEndian(s, 4), h.service + (BigEndian(w, 4) + (h.timeWindow + tail)));
    Field(b, 4, h.service, BigEndian(w, 4) + (h.timeWindow + tail));
    Field(b, 4 + s, BigEndian(w, 4), h.timeWindow + tail);
    Field(b, 8 + s, h.timeWindow, tail);
    Field(b, 8 + s + w, FixedBytes(h), SaltBytes(h.keySalt));
  }

  lemma FixedSplits(h: ChunkHeader)
    ensures FixedBytes(h) == BigEndian(h.sequence, 8) + (h.prevHash + (h.nonce +
      (BigEndian(TwosComplement(Millis(h.createdAt)), 8) + (BigEndian(h.recordCount, 4) + BigEndian(h.uncompressedLen, 8)))))
  {
    hide BigEndian;
  }

  lemma FixedAt(h: ChunkHeader)
    requires h.sequence < U64_LIMIT && h.recordCount < U32_LIMIT && h.uncompressedLen < U64_LIMIT
    ensures var f := FixedBytes(h);
      && FromBigEndian(f[0..8]) == h.sequence
      && f[8..40] == h.prevHash && f[40..52] == h.nonce
      && FromBigEndian(f[52..60]) == (h.createdAt / 1_000_000) % 0x1_0000_0000_0000_0000
      && FromBigEndian(f[60..64]) == h.recordCount && FromBigEndian(f[64..72]) == h.uncompressedLen
  {
    hide BigEndian, FromBigEndian;
    Widths4And8();
    var time := TwosComplement(Millis(h.createdAt));
    BigEndianRoundTrip(h.sequence, 8);
    BigEndianRoundTrip(time, 8);
    BigEndianRoundTrip(h.recordCount, 4);
    BigEndianRoundTrip(h.uncompressedLen, 8);
    FixedSplits(h);
    hide FixedBytes;
    var f := FixedBytes(h);
    var t, c, l := BigEndian(time, 8), BigEndian(h.recordCount, 4), BigEndian(h.uncompressedLen, 8);
    assert f[0..] == f;
    Field(f, 0, BigEndian(h.sequence, 8), h.prevHash + (h.nonce + (t + (c + l))));
    Field(f, 8, h.prevHash, h.nonce + (t + (c + l)));
    Field(f, 40, h.nonce, t + (c + l));
    Field(f, 52, t, c + l);
    Field(f, 60, c, l);
    assert f[64..72] == l;
  }

  lemma SliceOfSlice(b: Bytes, from: nat, to: nat, i: nat, j: nat)
    requires from <= to <= |b| && i <= j <= to - from
    ensures b[from..to][i..j] == b[from + i..from + j]
  {
    var x, y := b[from..to][i..j], b[from + i..from + j];
    assert forall k :: 0 <= k < j - i ==> x[k] == y[k];
  }

  /** Where the 72 fixed bytes start: after both texts and their lengths. */
  function FixedStart(h: ChunkHeader): nat {
    4 + |h.service| + 4 + |h.timeWindow|
  }

  function HeaderEnd(h: ChunkHeader): nat {
    FixedStart(h) + 72 + if h.keySalt.Some? then 33 else 0
  }

  predicate TextsStand(h: ChunkHeader, b: Bytes)
    requires |b| >= FixedStart(h)
  {
    var s, at := |h.service|, FixedStart(h);
    && FromBigEndian(b[0..4]) == s && b[4..4 + s] == h.service
    && FromBigEndian(b[4 + s..8 + s]) == |h.timeWindow| && b[8 + s..at] == h.timeWindow
  }

  predicate FieldsStand(h: ChunkHeader, b: Bytes, at: nat)
    requires |b| >= at + 72
  {
    && FromBigEndian(b[at..at + 8]) == h.sequence
    && b[at + 8..at + 40] == h.prevHash && b[at + 40..at + 52] == h.nonce
    && FromBigEndian(b[at + 52..at + 60]) == (h.createdAt / 1_000_000) % 0x1_0000_0000_0000_0000
    && FromBigEndian(b[at + 60..at + 64]) == h.recordCount
    && FromBigEndian(b[at + 64..at + 72]) == h.uncompressedLen
  }

  lemma TextsInPlace(h: ChunkHeader, b: Bytes, rest: Bytes)
    requires |h.service| < U32_LIMIT && |h.timeWindow| < U32_LIMIT && b == CanonicalBytes(h) + rest
    ensures |CanonicalBytes(h)| == HeaderEnd(h) && TextsStand(h, b)
    ensures b[FixedStart(h)..FixedStart(h) + 72] == FixedBytes(h)
    ensures b[FixedStart(h) + 72..HeaderEnd(h)] == SaltBytes(h.keySalt)
  {
    hide CanonicalBytes, FixedBytes, BigEndian, FromBigEndian;
    TextsAt(h);
    var k, s, at := CanonicalBytes(h), |h.service|, FixedStart(h);
    assert b[0..|k|] == k;
    SliceOfSlice(b, 0, |k|, 0, 4);
    SliceOfSlice(b, 0, |k|, 4, 4 + s);
    SliceOfSlice(b, 0, |k|, 4 + s, 8 + s);
    SliceOfSlice(b, 0, |k|, 8 + s, at);
    SliceOfSlice(b, 0, |k|, at, at + 72);
    SliceOfSlice(b, 0, |k|, at + 72, |k|);
  }

  lemma FieldsInPlace(h: ChunkHeader, b: Bytes, at: nat)
    requires h.sequence < U64_LIMIT && h.recordCount < U32_LIMIT && h.uncompressedLen < U64_LIMIT
    requires |b| >= at + 72 && b[at..at + 72] == FixedBytes(h)
    ensures FieldsStand(h, b, at)
  {
    hide FixedBytes, FromBigEndian;
    FixedAt(h);
    SliceOfSlice(b, at, at + 72, 0, 8);
    SliceOfSlice(b, at, at + 72, 8, 40);
    SliceOfSlice(b, at, at + 72, 40, 52);
    SliceOfSlice(b, at, at + 72, 52, 60);
    SliceOfSlice(b, at, at + 72, 60, 64);
    SliceOfSlice(b, at, at + 72, 64, 72);
  }

  /** The documented layout: every field stands at its own offset, integers big-endian, the creation time in
      whole milliseconds as a 64-bit two's complement; the salt only if there is one, after a byte 0x01; then
      the ciphertext. */
  lemma CanonicalLayout(c: Chunk)
    requires |c.header.service| < U32_LIMIT && |c.header.timeWindow| < U32_LIMIT
    requires c.header.sequence < U64_LIMIT && c.header.recordCount < U32_LIMIT && c.header.uncompressedLen < U64_LIMIT
    ensures var h, b := c.header, HashInput(c);
      && |b| == HeaderEnd(h) + |c.ciphertext| && b[HeaderEnd(h)..] == c.ciphertext
      && TextsStand(h, b) && FieldsStand(h, b, FixedStart(h))
      && (h.keySalt.Some? ==> b[FixedStart(h) + 72..HeaderEnd(h)] == [0x01] + h.keySalt.value)
  {
    hide CanonicalBytes, FixedBytes, TextsStand, FieldsStand;
    TextsInPlace(c.header, HashInput(c), c.ciphertext);
    FieldsInPlace(c.header, HashInput(c), FixedStart(c.header));
  }

  function CreatedAt(c: Chunk, t: Instant): Chunk {
    c.(header := c.header.(createdAt := t))
  }

  /** Two chunks that differ only in their creation time hash alike exactly when it falls in one millisecond. */
  lemma HashedToTheMillisecond(c: Chunk, t: Instant, u: Instant)
    requires FitsWidths(CreatedAt(c, t).header) && FitsWidths(CreatedAt(c, u).header)
    ensures HashInput(CreatedAt(c, t)) == HashInput(CreatedAt(c, u)) <==> t / 1_000_000 == u / 1_000_000
  {
    UniqueDecoding(CreatedAt(c, t), CreatedAt(c, u));
  }

  /** The nonce: four bytes of service id, eight of sequence. */
  function DeriveNonce(serviceId: nat, sequence: nat): (n: Nonce) {
    BigEndian(serviceId, 4) + BigEndian(sequence, 8)
  }

  /** `derive_nonce`, filling its array in place. */
  method FillNonce(serviceId: nat, sequence: nat) returns (nonce: array<byte>)
    ensures fresh(nonce) && nonce[..] == DeriveNonce(serviceId, sequence)
  {
    nonce := new byte[12](_ => 0);
    var id, seqBytes := BigEndian(serviceId, 4), BigEndian(sequence, 8);
    forall i | 0 <= i < 4 {
      nonce[i] := id[i];
    }
    forall i | 4 <= i < 12 {
      nonce[i] := seqBytes[i - 4];
    }
  }

  lemma NonceInjective(id1: nat, seq1: nat, id2: nat, seq2: nat)
    requires id1 < U32_LIMIT && id2 < U32_LIMIT && seq1 < U64_LIMIT && seq2 < U64_LIMIT
    requires DeriveNonce(id1, seq1) == DeriveNonce(id2, seq2)
    ensures id1 == id2 && seq1 == seq2
  {
    Widths4And8();
    PeelPrefix(BigEndian(id1, 4), BigEndian(id2, 4), BigEndian(seq1, 8), BigEndian(seq2, 8));
    BigEndianInjective(id1, id2, 4);
    BigEndianInjective(seq1, seq2, 8);
  }

  /** The service id stands first, the sequence after it. */
  lemma NonceLayout(serviceId: nat, sequence: nat)
    requires serviceId < U32_LIMIT && sequence < U64_LIMIT
    ensures var n := DeriveNonce(serviceId, sequence);
      |n| == 12 && FromBigEndian(n[..4]) == serviceId && FromBigEndian(n[4..]) == sequence
  {
    hide BigEndian, FromBigEndian;
    Widths4And8();
    BigEndianRoundTrip(serviceId, 4);
    BigEndianRoundTrip(sequence, 8);
    var n := DeriveNonce(serviceId, sequence);
    assert n[..4] == BigEndian(serviceId, 4) && n[4..] == BigEndian(sequence, 8);
  }
}
