/** Turning buckets into linked, encrypted chunks, and reading records back. */
module Sealing {
  import opened Core
  import opened Canonical
  import opened Chain
  import opened Builder
  import opened Index

  function ChunkKey(libs: Libs, salt: Option<Salt>): Bytes {
    match salt
    case None => libs.masterKey
    case Some(s) => libs.deriveKey(s)
  }

  /** The decrypting part of `read_records`: saltless chunks were sealed under the master key. */
  function OpenChunk(libs: Libs, c: Chunk): Result<seq<LogRecord>, Error> {
    match libs.decrypt(ChunkKey(libs, c.header.keySalt), c.header.nonce, c.ciphertext)
    case None => Err(Crypto)
    case Some(compressed) =>
      match libs.decompress(compressed)
      case None => Err(Io)
      case Some(plaintext) =>
        match libs.fromJson(plaintext)
        case None => Err(Serialization)
        case Some(records) => Ok(records)
  }

  function MakeChunk(libs: Libs, serviceId: nat, head: Head, bucket: Bucket, salt: Salt): Chunk
    requires bucket.records != []
  {
    var plaintext := libs.toJson(bucket.records);
    var nonce := DeriveNonce(serviceId, head.next);
    Chunk(
      ChunkHeader(bucket.service, bucket.window, head.next, head.hash, nonce, Some(salt),
        MaxTime(bucket.records), |bucket.records| % U32_LIMIT, |plaintext|),
      libs.encrypt(libs.deriveKey(salt), nonce, libs.compress(plaintext)))
  }

  lemma OpenMadeChunk(libs: Libs, serviceId: nat, head: Head, bucket: Bucket, salt: Salt)
    requires libs.Lawful() && bucket.records != []
    ensures OpenChunk(libs, MakeChunk(libs, serviceId, head, bucket, salt)) == Ok(bucket.records)
  {
    hide DeriveNonce;
  }

  /** A chunk without a salt, as old ones are, is read under the master key. */
  lemma SaltlessOpens(libs: Libs, c: Chunk, records: seq<LogRecord>)
    requires libs.Lawful() && c.header.keySalt.None?
    requires c.ciphertext == libs.encrypt(libs.masterKey, c.header.nonce, libs.compress(libs.toJson(records)))
    ensures OpenChunk(libs, c) == Ok(records)
  {
  }

  /** A chunk with a salt is read under the key derived from it, whoever sealed it. */
  lemma SaltedOpens(libs: Libs, c: Chunk, records: seq<LogRecord>)
    requires libs.Lawful() && c.header.keySalt.Some?
    requires c.ciphertext ==
      libs.encrypt(libs.deriveKey(c.header.keySalt.value), c.header.nonce, libs.compress(libs.toJson(records)))
    ensures OpenChunk(libs, c) == Ok(records)
  {
  }

  /** Both keys, and where each failure comes from: a wrong key or a changed ciphertext, bytes that do not
      decompress, text that is not records. */
  lemma OpeningFails(libs: Libs, c: Chunk)
    ensures var plain := if c.header.keySalt.None? then libs.decrypt(libs.masterKey, c.header.nonce, c.ciphertext)
        else libs.decrypt(libs.deriveKey(c.header.keySalt.value), c.header.nonce, c.ciphertext);
      && (OpenChunk(libs, c) == Err(Crypto) <==> plain.None?)
      && (OpenChunk(libs, c) == Err(Io) <==> plain.Some? && libs.decompress(plain.value).None?)
      && (OpenChunk(libs, c) == Err(Serialization) <==>
            (plain.Some? && libs.decompress(plain.value).Some? && libs.fromJson(libs.decompress(plain.value).value).None?))
  {
  }

  /** The header tells of the records, and they are sealed under the chunk's own key. */
  ghost predicate Describes(libs: Libs, records: seq<LogRecord>, c: Chunk) {
    var h := c.header;
    && (exists r :: r in records && r.timestamp == h.createdAt)
    && (forall r :: r in records ==> r.timestamp <= h.createdAt)
    && h.recordCount == |records| % 0x1_0000_0000
    && h.uncompressedLen == |libs.toJson(records)|
    && h.keySalt.Some?
    && c.ciphertext == libs.encrypt(libs.deriveKey(h.keySalt.value), h.nonce, libs.compress(libs.toJson(records)))
  }

  lemma MadeDescribes(libs: Libs, serviceId: nat, head: Head, bucket: Bucket, salt: Salt)
    requires bucket.records != []
    ensures var c := MakeChunk(libs, serviceId, head, bucket, salt);
      && Describes(libs, bucket.records, c) && c.header.keySalt == Some(salt)
      && c.header.nonce[..4] == BigEndian(serviceId, 4) && c.header.nonce[4..] == BigEndian(head.next, 8)
  {
    hide BigEndian, MaxTime;
    TimesSpan(bucket.records);
    TimesAttained(bucket.records);
  }

  // ---- The batch's chunks ----

  /** The local state of the building loop: running heads, new refs per service, and the archives. */
  datatype Built = Built(
    heads: Heads,
    refs: map<Text, seq<ChunkRef>>,
    chunks: seq<Chunk>,
    indexes: seq<ServiceWindowIndex>)

  const NOTHING_BUILT := Built(map[], map[], [], [])

  function SeedHeads(seed: Manifest): Heads {
    map s | s in seed.services :: Head(seed.services[s].headHash, seed.services[s].nextSequence)
  }

  function CurrentHead(seed: Manifest, built: Built, service: Text): Head {
    if service in built.heads then built.heads[service] else HeadOf(SeedHeads(seed), service)
  }

  function NewRefs(built: Built, service: Text): seq<ChunkRef> {
    if service in built.refs then built.refs[service] else []
  }

  predicate Buildable(seed: Manifest, bucket: Bucket) {
    bucket.records != [] && bucket.service in seed.services
  }

  /** One round of the building loop. */
  ghost function BuildOne(libs: Libs, seed: Manifest, built: Built, bucket: Bucket, salt: Salt): Built
    requires Buildable(seed, bucket)
  {
    var s := bucket.service;
    var head := CurrentHead(seed, built, s);
    var c := MakeChunk(libs, seed.services[s].serviceId, head, bucket, salt);
    Built(
      built.heads[s := Head(libs.chunkHash(c), head.next + 1)],
      built.refs[s := NewRefs(built, s) + [c.Ref()]],
      built.chunks + [c],
      built.indexes + [IndexOf(libs, c.Ref(), bucket.records)])
  }

  ghost predicate AllBuildable(seed: Manifest, buckets: seq<Bucket>) {
    forall b :: b in buckets ==> Buildable(seed, b)
  }

  /** The building loop over all buckets, with the salt drawn for each. */
  ghost function BuildAll(libs: Libs, seed: Manifest, buckets: seq<Bucket>, salts: seq<Salt>): Built
    requires |salts| == |buckets| && AllBuildable(seed, buckets)
  {
    if buckets == [] then NOTHING_BUILT
    else
      var n := |buckets| - 1;
      BuildOne(libs, seed, BuildAll(libs, seed, buckets[..n], salts[..n]), buckets[n], salts[n])
  }

  // ---- What is built ----

  function ServicesIn(buckets: seq<Bucket>): set<Text> {
    set b | b in buckets :: b.service
  }

  ghost function Refs(cs: seq<Chunk>): (refs: seq<ChunkRef>)
    ensures |refs| == |cs|
  {
    seq(|cs|, i requires 0 <= i < |cs| => cs[i].Ref())
  }

  /** `c` and `ix` archive exactly `bucket` under service id `id`. */
  ghost predicate Archives(libs: Libs, id: nat, bucket: Bucket, c: Chunk, ix: ServiceWindowIndex) {
    && c.header.service == bucket.service
    && c.header.timeWindow == bucket.window
    && c.header.nonce == DeriveNonce(id, c.header.sequence)
    && OpenChunk(libs, c) == Ok(bucket.records)
    && Describes(libs, bucket.records, c)
    && ix == IndexOf(libs, c.Ref(), bucket.records)
  }

  ghost predicate ArchivesAt(libs: Libs, seed: Manifest, buckets: seq<Bucket>, built: Built, i: nat)
    requires i < |buckets| && i < |built.chunks| && i < |built.indexes|
  {
    && buckets[i].service in seed.services
    && Archives(libs, seed.services[buckets[i].service].serviceId, buckets[i], built.chunks[i], built.indexes[i])
  }

  /** The new chunks of `service` continue its seeded chain, and the recorded head and refs are theirs. */
  ghost predicate ContinuesChain(libs: Libs, seed: Manifest, built: Built, service: Text) {
    var own, head := Own(built.chunks, service), HeadOf(SeedHeads(seed), service);
    && Linked(libs.chunkHash, head.hash, head.next, own)
    && CurrentHead(seed, built, service) == Head(HeadAfter(libs.chunkHash, head.hash, own), head.next + |own|)
    && NewRefs(built, service) == Refs(own)
  }

  ghost predicate SequencesRise(seed: Manifest, built: Built) {
    && (forall c :: c in built.chunks ==>
          HeadOf(SeedHeads(seed), c.header.service).next <= c.header.sequence
            < CurrentHead(seed, built, c.header.service).next)
    && (forall i, j :: 0 <= i < j < |built.chunks| ==> built.chunks[i].Ref() != built.chunks[j].Ref())
  }

  ghost predicate BuiltOk(libs: Libs, seed: Manifest, buckets: seq<Bucket>, built: Built) {
    && |built.chunks| == |built.indexes| == |buckets|
    && built.heads.Keys == built.refs.Keys == ServicesIn(buckets)
    && (forall i :: 0 <= i < |buckets| ==> ArchivesAt(libs, seed, buckets, built, i))
    && (forall s :: ContinuesChain(libs, seed, built, s))
    && SequencesRise(seed, built)
  }

  lemma RefsSnoc(cs: seq<Chunk>, c: Chunk)
    ensures Refs(cs + [c]) == Refs(cs) + [c.Ref()]
  {
  }

  lemma BuildOneContinues(libs: Libs, seed: Manifest, built: Built, bucket: Bucket, salt: Salt, service: Text)
    requires Buildable(seed, bucket)
    requires ContinuesChain(libs, seed, built, service)
    ensures ContinuesChain(libs, seed, BuildOne(libs, seed, built, bucket, salt), service)
  {
    hide Own, OpenChunk;
    var after := BuildOne(libs, seed, built, bucket, salt);
    var c := after.chunks[|built.chunks|];
    var own, head := Own(built.chunks, service), HeadOf(SeedHeads(seed), service);
    OwnSnoc(built.chunks, c, service);
    if service == bucket.service {
      LinkedAppend(libs.chunkHash, head.hash, head.next, own, c);
      RefsSnoc(own, c);
    } else {
      assert own + Mine(c, service) == own;
    }
  }

  lemma BuildOneRises(libs: Libs, seed: Manifest, built: Built, bucket: Bucket, salt: Salt)
    requires Buildable(seed, bucket)
    requires SequencesRise(seed, built)
    requires CurrentHead(seed, built, bucket.service).next >= HeadOf(SeedHeads(seed), bucket.service).next
    ensures SequencesRise(seed, BuildOne(libs, seed, built, bucket, salt))
  {
    hide OpenChunk, SeedHeads, IndexOf, DeriveNonce;
    var after := BuildOne(libs, seed, built, bucket, salt);
    var c := after.chunks[|built.chunks|];
    forall d | d in after.chunks
      ensures HeadOf(SeedHeads(seed), d.header.service).next <= d.header.sequence
        < CurrentHead(seed, after, d.header.service).next
    {
      if d != c { assert d in built.chunks; }
    }
    forall i, j | 0 <= i < j < |after.chunks| ensures after.chunks[i].Ref() != after.chunks[j].Ref() {
      if j == |built.chunks| { assert after.chunks[i] in built.chunks; }
    }
  }

  lemma BuildOneArchives(libs: Libs, seed: Manifest, buckets: seq<Bucket>, built: Built, bucket: Bucket, salt: Salt)
    requires libs.Lawful() && Buildable(seed, bucket)
    requires |built.chunks| == |built.indexes| == |buckets|
    requires forall i :: 0 <= i < |buckets| ==> ArchivesAt(libs, seed, buckets, built, i)
    ensures var after := BuildOne(libs, seed, built, bucket, salt);
      forall i :: 0 <= i < |buckets| + 1 ==> ArchivesAt(libs, seed, buckets + [bucket], after, i)
  {
    hide OpenChunk, IndexOf, DeriveNonce, SeedHeads, Describes;
    var after := BuildOne(libs, seed, built, bucket, salt);
    var head := CurrentHead(seed, built, bucket.service);
    OpenMadeChunk(libs, seed.services[bucket.service].serviceId, head, bucket, salt);
    MadeDescribes(libs, seed.services[bucket.service].serviceId, head, bucket, salt);
    forall i | 0 <= i < |buckets| + 1 ensures ArchivesAt(libs, seed, buckets + [bucket], after, i) {
      if i < |buckets| { assert ArchivesAt(libs, seed, buckets, built, i); }
    }
  }

  /** Starting from any seed, what the loop builds archives each bucket and continues each chain. */
  lemma {:induction false} BuildAllOk(libs: Libs, seed: Manifest, buckets: seq<Bucket>, salts: seq<Salt>)
    requires libs.Lawful()
    requires |salts| == |buckets| && AllBuildable(seed, buckets)
    ensures BuiltOk(libs, seed, buckets, BuildAll(libs, seed, buckets, salts))
  {
    if buckets == [] {
      NothingBuiltOk(libs, seed);
    } else {
      var n := |buckets| - 1;
      var before := BuildAll(libs, seed, buckets[..n], salts[..n]);
      Unsnoc(buckets);
      BuildAllOk(libs, seed, buckets[..n], salts[..n]);
      BuildOneOk(libs, seed, buckets[..n], before, buckets[n], salts[n]);
    }
  }

  lemma NothingBuiltOk(libs: Libs, seed: Manifest)
    ensures BuiltOk(libs, seed, [], NOTHING_BUILT)
  {
  }

  lemma BuildOneOk(libs: Libs, seed: Manifest, buckets: seq<Bucket>, built: Built, bucket: Bucket, salt: Salt)
    requires libs.Lawful() && Buildable(seed, bucket)
    requires BuiltOk(libs, seed, buckets, built)
    ensures BuiltOk(libs, seed, buckets + [bucket], BuildOne(libs, seed, built, bucket, salt))
  {
    hide ArchivesAt, ContinuesChain, SequencesRise;
    BuildOneArchives(libs, seed, buckets, built, bucket, salt);
    forall s ensures ContinuesChain(libs, seed, BuildOne(libs, seed, built, bucket, salt), s) {
      assert ContinuesChain(libs, seed, built, s);
      BuildOneContinues(libs, seed, built, bucket, salt, s);
    }
    HeadNeverBack(libs, seed, built, bucket.service);
    BuildOneRises(libs, seed, built, bucket, salt);
    ServicesInSnoc(buckets, bucket);
  }

  lemma HeadNeverBack(libs: Libs, seed: Manifest, built: Built, service: Text)
    requires forall s :: ContinuesChain(libs, seed, built, s)
    ensures CurrentHead(seed, built, service).next >= HeadOf(SeedHeads(seed), service).next
  {
    assert ContinuesChain(libs, seed, built, service);
  }

  lemma ServicesInSnoc(buckets: seq<Bucket>, bucket: Bucket)
    ensures ServicesIn(buckets + [bucket]) == ServicesIn(buckets) + {bucket.service}
  {
    var all := buckets + [bucket];
    assert bucket in all && forall b :: b in buckets ==> b in all;
  }

  // ---- Reading back ----

  /** What one chunk holds, as the bucket it was made from. */
  function Decode(libs: Libs, c: Chunk): Bucket {
    Bucket(c.header.service, c.header.timeWindow,
      match OpenChunk(libs, c) case Ok(records) => records case Err(_) => [])
  }

  ghost function DecodeAll(libs: Libs, cs: seq<Chunk>): (buckets: seq<Bucket>)
    ensures |buckets| == |cs|
  {
    seq(|cs|, i requires 0 <= i < |cs| => Decode(libs, cs[i]))
  }

  function OfService(b: Bucket, service: Text): seq<Bucket> {
    if b.service == service then [b] else []
  }

  /** The buckets of one service, in order. */
  function BucketsOf(buckets: seq<Bucket>, service: Text): seq<Bucket> {
    if buckets == [] then []
    else BucketsOf(buckets[..|buckets| - 1], service) + OfService(buckets[|buckets| - 1], service)
  }

  lemma BucketsOfSnoc(buckets: seq<Bucket>, b: Bucket, service: Text)
    ensures BucketsOf(buckets + [b], service) == BucketsOf(buckets, service) + OfService(b, service)
  {
    assert (buckets + [b])[..|buckets|] == buckets;
  }

  lemma DecodeAllConcat(libs: Libs, a: seq<Chunk>, b: seq<Chunk>)
    ensures DecodeAll(libs, a + b) == DecodeAll(libs, a) + DecodeAll(libs, b)
  {
    hide Decode;
  }

  /** Decoding a service's chunks in a list gives that service's buckets of the decoded list. */
  lemma {:induction false} DecodeOwn(libs: Libs, cs: seq<Chunk>, service: Text)
    ensures DecodeAll(libs, Own(cs, service)) == BucketsOf(DecodeAll(libs, cs), service)
  {
    if cs != [] {
      var cs', c := cs[..|cs| - 1], cs[|cs| - 1];
      Unsnoc(cs);
      DecodeOwn(libs, cs', service);
      DecodeOwnStep(libs, cs', c, service);
    }
  }

  lemma DecodeOwnStep(libs: Libs, cs: seq<Chunk>, c: Chunk, service: Text)
    requires DecodeAll(libs, Own(cs, service)) == BucketsOf(DecodeAll(libs, cs), service)
    ensures DecodeAll(libs, Own(cs + [c], service)) == BucketsOf(DecodeAll(libs, cs + [c]), service)
  {
    hide OpenChunk, Own, BucketsOf;
    OwnSnoc(cs, c, service);
    DecodeAllConcat(libs, Own(cs, service), Mine(c, service));
    DecodeAllConcat(libs, cs, [c]);
    assert DecodeAll(libs, [c]) == [Decode(libs, c)];
    BucketsOfSnoc(DecodeAll(libs, cs), Decode(libs, c), service);
  }

  /** The chunks built for a service decode to exactly its buckets, in order. */
  lemma BuiltDecodes(libs: Libs, seed: Manifest, buckets: seq<Bucket>, built: Built, service: Text)
    requires BuiltOk(libs, seed, buckets, built)
    ensures DecodeAll(libs, Own(built.chunks, service)) == BucketsOf(buckets, service)
  {
    hide OpenChunk, ContinuesChain, SequencesRise, Own, BucketsOf;
    DecodeOwn(libs, built.chunks, service);
    forall i | 0 <= i < |buckets| ensures Decode(libs, built.chunks[i]) == buckets[i] {
      assert ArchivesAt(libs, seed, buckets, built, i);
    }
    assert DecodeAll(libs, built.chunks) == buckets;
  }

  // ---- The engine's inline chaining is ChainBuilder's ----

  lemma {:induction false} BuildIsChainBuilder(libs: Libs, seed: Manifest, buckets: seq<Bucket>, salts: seq<Salt>)
    requires |salts| == |buckets| && AllBuildable(seed, buckets)
    ensures var built := BuildAll(libs, seed, buckets, salts);
      var chained := AppendAll(libs.chunkHash, SeedHeads(seed), built.chunks);
      && chained.chunks == built.chunks
      && (forall s :: HeadOf(chained.heads, s) == CurrentHead(seed, built, s))
  {
    if buckets != [] {
      var n := |buckets| - 1;
      var before := BuildAll(libs, seed, buckets[..n], salts[..n]);
      BuildIsChainBuilder(libs, seed, buckets[..n], salts[..n]);
      BuildOneIsAppend(libs, seed, before, buckets[n], salts[n]);
    }
  }

  lemma BuildOneIsAppend(libs: Libs, seed: Manifest, built: Built, bucket: Bucket, salt: Salt)
    requires Buildable(seed, bucket)
    requires var chained := AppendAll(libs.chunkHash, SeedHeads(seed), built.chunks);
      chained.chunks == built.chunks && forall s :: HeadOf(chained.heads, s) == CurrentHead(seed, built, s)
    ensures var after := BuildOne(libs, seed, built, bucket, salt);
      var chained := AppendAll(libs.chunkHash, SeedHeads(seed), after.chunks);
      chained.chunks == after.chunks && forall s :: HeadOf(chained.heads, s) == CurrentHead(seed, after, s)
  {
    hide OpenChunk, AppendAll, DeriveNonce, IndexOf, SeedHeads;
    var after := BuildOne(libs, seed, built, bucket, salt);
    var c := after.chunks[|built.chunks|];
    AppendAllSnoc(libs.chunkHash, SeedHeads(seed), built.chunks, c);
    assert Link(CurrentHead(seed, built, bucket.service), c) == c;
    var before := AppendAll(libs.chunkHash, SeedHeads(seed), built.chunks);
    forall s ensures HeadOf(AppendOne(libs.chunkHash, before, c).heads, s) == CurrentHead(seed, after, s) {
      assert HeadOf(before.heads, s) == CurrentHead(seed, built, s);
    }
  }
}
