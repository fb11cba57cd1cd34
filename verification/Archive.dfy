/** A consistent archive: a manifest together with the chunks and indexes it refers to. */
module Archive {
  import opened Core
  import opened Ordering
  import opened Canonical
  import opened Chain
  import opened Builder
  import opened Windows
  import opened Chunking
  import opened Index
  import opened Sealing

  const NO_CHUNK := Chunk(ChunkHeader([], [], 0, GENESIS, ZERO12, None, 0, 0, 0), [])

  function Fetch(chunks: Chunks, r: ChunkRef): Chunk {
    if r in chunks then chunks[r] else NO_CHUNK
  }

  ghost function Fetched(chunks: Chunks, refs: seq<ChunkRef>): (cs: seq<Chunk>)
    ensures |cs| == |refs|
  {
    seq(|refs|, i requires 0 <= i < |refs| => Fetch(chunks, refs[i]))
  }

  /** Every record carries the service and the window its chunk is stored under. */
  ghost predicate GoodRecords(cfg: Config, service: Text, window: Text, records: seq<LogRecord>) {
    && records != []
    && (forall x :: x in records ==> KeyOf(cfg, x) == BucketKey(service, window) && Dated(cfg.libs, x.timestamp))
  }

  ghost predicate GoodArchive(cfg: Config, id: nat, r: ChunkRef, c: Chunk, ix: ServiceWindowIndex) {
    && c.Ref() == r
    && c.header.nonce == DeriveNonce(id, r.sequence)
    && OpenChunk(cfg.libs, c).Ok?
    && GoodRecords(cfg, r.service, r.window, OpenChunk(cfg.libs, c).value)
    && ix == IndexOf(cfg.libs, r, OpenChunk(cfg.libs, c).value)
  }

  ghost predicate RefOk(cfg: Config, e: ServiceChain, chunks: Chunks, indexes: Indexes, i: nat)
    requires i < |e.chunks|
  {
    var r := e.chunks[i];
    && r.service == e.service
    && r.sequence == i
    && r in chunks && r in indexes
    && GoodArchive(cfg, e.serviceId, r, chunks[r], indexes[r])
  }

  ghost predicate ChainRecorded(cfg: Config, e: ServiceChain, chunks: Chunks) {
    var cs := Fetched(chunks, e.chunks);
    && Linked(cfg.libs.chunkHash, GENESIS, 0, cs)
    && e.headHash == HeadAfter(cfg.libs.chunkHash, GENESIS, cs)
    && e.nextSequence == |e.chunks|
  }

  /** One manifest entry and its stored chain agree. */
  ghost predicate EntryOk(cfg: Config, service: Text, e: ServiceChain, chunks: Chunks, indexes: Indexes) {
    && e.service == service
    && (forall i :: 0 <= i < |e.chunks| ==> RefOk(cfg, e, chunks, indexes, i))
    && ChainRecorded(cfg, e, chunks)
  }

  ghost predicate EntriesOk(cfg: Config, m: Manifest, chunks: Chunks, indexes: Indexes) {
    forall s :: s in m.services ==> EntryOk(cfg, s, m.services[s], chunks, indexes)
  }

  /** Service ids are distinct and below the counter, which still fits 32 bits. */
  ghost predicate IdsOk(m: Manifest) {
    && m.nextServiceId < U32_LIMIT
    && (forall s :: s in m.services ==> m.services[s].serviceId < m.nextServiceId)
    && (forall s, t :: s in m.services && t in m.services && s != t ==>
          m.services[s].serviceId != m.services[t].serviceId)
  }

  /** Nothing is stored for a service the manifest does not know. */
  ghost predicate Registered(m: Manifest, chunks: Chunks, indexes: Indexes) {
    && (forall r :: r in chunks ==> r.service in m.services)
    && (forall r :: r in indexes ==> r.service in m.services)
  }

  ghost predicate StoreOk(cfg: Config, m: Manifest, chunks: Chunks, indexes: Indexes) {
    && EntriesOk(cfg, m, chunks, indexes)
    && IdsOk(m)
    && Registered(m, chunks, indexes)
  }

  lemma EmptyStoreOk(cfg: Config)
    ensures StoreOk(cfg, FreshManifest(cfg.bucket), map[], map[])
  {
  }

  // ---- Storing an archive nobody refers to yet ----

  lemma EntryFrame(cfg: Config, s: Text, e: ServiceChain,
    chunks: Chunks, indexes: Indexes, chunks': Chunks, indexes': Indexes)
    requires EntryOk(cfg, s, e, chunks, indexes)
    requires forall r :: r in e.chunks ==>
      r in chunks' && chunks'[r] == Fetch(chunks, r) && r in indexes' && r in indexes && indexes'[r] == indexes[r]
    ensures EntryOk(cfg, s, e, chunks', indexes')
    ensures Fetched(chunks', e.chunks) == Fetched(chunks, e.chunks)
  {
    hide GoodArchive;
    forall i | 0 <= i < |e.chunks| ensures RefOk(cfg, e, chunks', indexes', i) {
      assert RefOk(cfg, e, chunks, indexes, i);
    }
    assert Fetched(chunks', e.chunks) == Fetched(chunks, e.chunks);
  }

  /** A reference the entry does not hold: another service's, or one not numbered yet. */
  predicate Unreferenced(m: Manifest, r: ChunkRef) {
    r.service in m.services ==> r.sequence >= m.services[r.service].nextSequence
  }

  lemma ReferencedAreNumbered(cfg: Config, m: Manifest, chunks: Chunks, indexes: Indexes, s: Text, r: ChunkRef)
    requires EntriesOk(cfg, m, chunks, indexes)
    requires s in m.services && r in m.services[s].chunks
    ensures r.service == s && r.sequence < m.services[s].nextSequence
    ensures r in chunks && r in indexes
    ensures !Unreferenced(m, r)
  {
    hide GoodArchive;
    var e := m.services[s];
    var i :| 0 <= i < |e.chunks| && e.chunks[i] == r;
    assert RefOk(cfg, e, chunks, indexes, i);
  }

  /** `chunks'` and `indexes'` differ from the old maps only at one unreferenced key. */
  ghost predicate OnlyAt(r: ChunkRef, chunks: Chunks, indexes: Indexes, chunks': Chunks, indexes': Indexes) {
    && chunks - {r} == chunks' - {r}
    && indexes - {r} == indexes' - {r}
  }

  lemma StoringUnreferenced(cfg: Config, m: Manifest, r: ChunkRef,
    chunks: Chunks, indexes: Indexes, chunks': Chunks, indexes': Indexes)
    requires StoreOk(cfg, m, chunks, indexes)
    requires r.service in m.services && Unreferenced(m, r)
    requires OnlyAt(r, chunks, indexes, chunks', indexes')
    ensures StoreOk(cfg, m, chunks', indexes')
    ensures forall s :: s in m.services ==> Fetched(chunks', m.services[s].chunks) == Fetched(chunks, m.services[s].chunks)
  {
    hide EntryOk;
    forall s | s in m.services
      ensures EntryOk(cfg, s, m.services[s], chunks', indexes')
      ensures Fetched(chunks', m.services[s].chunks) == Fetched(chunks, m.services[s].chunks)
    {
      forall q | q in m.services[s].chunks
        ensures q in chunks' && chunks'[q] == Fetch(chunks, q) && q in indexes' && q in indexes && indexes'[q] == indexes[q]
      {
        ReferencedAreNumbered(cfg, m, chunks, indexes, s, q);
        assert q in chunks - {r} && q in indexes - {r};
        assert (chunks' - {r})[q] == chunks[q] && (indexes' - {r})[q] == indexes[q];
      }
      EntryFrame(cfg, s, m.services[s], chunks, indexes, chunks', indexes');
    }
    forall q | q in chunks' ensures q.service in m.services {
      if q != r { assert q in chunks' - {r}; }
    }
    forall q | q in indexes' ensures q.service in m.services {
      if q != r { assert q in indexes' - {r}; }
    }
  }

  // ---- Registering services ----

  function RegisterOne(m: Manifest, s: Text): Manifest {
    if s in m.services then m
    else m.(services := m.services[s := FreshChain(s, m.nextServiceId)], nextServiceId := m.nextServiceId + 1)
  }

  /** `m'` keeps every entry of `m` and adds only fresh, empty ones. */
  ghost predicate OnlyAddsFresh(m: Manifest, m': Manifest) {
    && m.services.Keys <= m'.services.Keys
    && m.nextServiceId <= m'.nextServiceId
    && (forall s :: s in m.services ==> m'.services[s] == m.services[s])
    && (forall s :: s in m'.services && s !in m.services ==>
          m'.services[s] == FreshChain(s, m'.services[s].serviceId) && m'.services[s].serviceId >= m.nextServiceId)
  }

  lemma FreshEntryOk(cfg: Config, s: Text, id: nat, chunks: Chunks, indexes: Indexes)
    ensures EntryOk(cfg, s, FreshChain(s, id), chunks, indexes)
  {
  }

  lemma RegisteringKeepsIds(m: Manifest, s: Text)
    requires IdsOk(m)
    requires s !in m.services ==> m.nextServiceId + 1 < U32_LIMIT
    ensures IdsOk(RegisterOne(m, s))
  {
  }

  lemma RegisteringAddsFresh(m: Manifest, draft: Manifest, s: Text)
    requires OnlyAddsFresh(m, draft)
    ensures OnlyAddsFresh(m, RegisterOne(draft, s))
  {
  }

  lemma RegisteringKeepsStore(cfg: Config, m: Manifest, s: Text, chunks: Chunks, indexes: Indexes)
    requires StoreOk(cfg, m, chunks, indexes)
    requires s !in m.services ==> m.nextServiceId + 1 < U32_LIMIT
    ensures StoreOk(cfg, RegisterOne(m, s), chunks, indexes)
  {
    hide EntryOk, IdsOk;
    RegisteringKeepsIds(m, s);
    FreshEntryOk(cfg, s, m.nextServiceId, chunks, indexes);
  }

  // ---- Committing a batch ----

  function Advance(e: ServiceChain, head: Head, refs: seq<ChunkRef>): ServiceChain {
    e.(headHash := head.hash, nextSequence := head.next, chunks := e.chunks + refs)
  }

  /** The manifest with the batch's per-service deltas laid over it. */
  function Overlay(m: Manifest, seed: Manifest, built: Built): Manifest
    requires built.heads.Keys <= seed.services.Keys
  {
    m.(services := map s | s in m.services.Keys + built.heads.Keys ::
      var e := if s in m.services then m.services[s] else FreshChain(s, seed.services[s].serviceId);
      if s in built.heads then Advance(e, built.heads[s], NewRefs(built, s)) else e)
  }

  lemma FetchedConcat(chunks: Chunks, a: seq<ChunkRef>, b: seq<ChunkRef>)
    ensures Fetched(chunks, a + b) == Fetched(chunks, a) + Fetched(chunks, b)
  {
  }

  /** Every chunk of `own` is stored, good, and of the entry's service. */
  ghost predicate OwnStored(cfg: Config, e: ServiceChain, own: seq<Chunk>, chunks: Chunks, indexes: Indexes) {
    forall c :: c in own ==>
      && c.header.service == e.service
      && c.Ref() in chunks && chunks[c.Ref()] == c
      && c.Ref() in indexes
      && GoodArchive(cfg, e.serviceId, c.Ref(), c, indexes[c.Ref()])
  }

  lemma FetchedOwn(cfg: Config, e: ServiceChain, own: seq<Chunk>, chunks: Chunks, indexes: Indexes)
    requires OwnStored(cfg, e, own, chunks, indexes)
    ensures Fetched(chunks, Refs(own)) == own
  {
    hide GoodArchive;
  }

  lemma EntryAdvances(cfg: Config, s: Text, e: ServiceChain, own: seq<Chunk>, chunks: Chunks, indexes: Indexes)
    requires EntryOk(cfg, s, e, chunks, indexes)
    requires OwnStored(cfg, e, own, chunks, indexes)
    requires Linked(cfg.libs.chunkHash, e.headHash, e.nextSequence, own)
    ensures var head := Head(HeadAfter(cfg.libs.chunkHash, e.headHash, own), e.nextSequence + |own|);
      EntryOk(cfg, s, Advance(e, head, Refs(own)), chunks, indexes)
    ensures Fetched(chunks, e.chunks + Refs(own)) == Fetched(chunks, e.chunks) + own
  {
    hide GoodArchive;
    var hash := cfg.libs.chunkHash;
    var e' := Advance(e, Head(HeadAfter(hash, e.headHash, own), e.nextSequence + |own|), Refs(own));
    FetchedConcat(chunks, e.chunks, Refs(own));
    FetchedOwn(cfg, e, own, chunks, indexes);
    LinkedConcat(hash, GENESIS, 0, Fetched(chunks, e.chunks), own);
    forall i | 0 <= i < |e'.chunks| ensures RefOk(cfg, e', chunks, indexes, i) {
      if i < |e.chunks| {
        assert RefOk(cfg, e, chunks, indexes, i);
      } else {
        var c := own[i - |e.chunks|];
        assert e'.chunks[i] == c.Ref();
      }
    }
  }

  /** All the batch's archives are stored. */
  ghost predicate AllStored(built: Built, chunks: Chunks, indexes: Indexes)
    requires |built.indexes| == |built.chunks|
  {
    forall i :: 0 <= i < |built.chunks| ==> IsStored(built, chunks, indexes, i)
  }

  ghost predicate IsStored(built: Built, chunks: Chunks, indexes: Indexes, i: nat)
    requires |built.indexes| == |built.chunks| && i < |built.chunks|
  {
    var r := built.chunks[i].Ref();
    r in chunks && chunks[r] == built.chunks[i] && r in indexes && indexes[r] == built.indexes[i]
  }

  ghost predicate GoodBuckets(cfg: Config, buckets: seq<Bucket>) {
    forall b :: b in buckets ==> GoodRecords(cfg, b.service, b.window, b.records)
  }

  lemma BuiltIsOwnStored(cfg: Config, seed: Manifest, e: ServiceChain, buckets: seq<Bucket>, built: Built,
    chunks: Chunks, indexes: Indexes)
    requires BuiltOk(cfg.libs, seed, buckets, built) && GoodBuckets(cfg, buckets)
    requires AllStored(built, chunks, indexes)
    requires e.service in seed.services && seed.services[e.service].serviceId == e.serviceId
    ensures OwnStored(cfg, e, Own(built.chunks, e.service), chunks, indexes)
  {
    hide OpenChunk, IndexOf, DeriveNonce, GoodRecords, SequencesRise, ContinuesChain, Own;
    forall c | c in Own(built.chunks, e.service)
      ensures c.Ref() in chunks && chunks[c.Ref()] == c && c.Ref() in indexes
      ensures c.header.service == e.service
      ensures GoodArchive(cfg, e.serviceId, c.Ref(), c, indexes[c.Ref()])
    {
      var i :| 0 <= i < |built.chunks| && built.chunks[i] == c;
      assert IsStored(built, chunks, indexes, i);
      assert ArchivesAt(cfg.libs, seed, buckets, built, i);
      assert buckets[i] in buckets;
    }
  }

  /** What decoding a service's recorded chain yields, or nothing for an unknown service. */
  ghost function History(libs: Libs, m: Manifest, chunks: Chunks, service: Text): seq<Bucket> {
    if service in m.services then DecodeAll(libs, Fetched(chunks, m.services[service].chunks)) else []
  }

  /** A service's history after one more batch: its buckets of that batch are appended, in key order. */
  ghost function AfterIngest(cfg: Config, history: seq<Bucket>, records: seq<LogRecord>, service: Text): seq<Bucket> {
    history + BucketsOf(ChunkBatch(cfg, records), service)
  }

  /** The batch's services stand in the manifest exactly as in the seed it was built from. */
  ghost predicate SeedCurrent(m: Manifest, seed: Manifest, services: set<Text>) {
    forall s :: s in services ==> s in m.services && s in seed.services && m.services[s] == seed.services[s]
  }

  lemma CommitEntry(cfg: Config, m: Manifest, seed: Manifest, buckets: seq<Bucket>, built: Built,
    chunks: Chunks, indexes: Indexes, s: Text)
    requires EntriesOk(cfg, m, chunks, indexes)
    requires BuiltOk(cfg.libs, seed, buckets, built) && GoodBuckets(cfg, buckets)
    requires SeedCurrent(m, seed, ServicesIn(buckets)) && AllStored(built, chunks, indexes)
    requires s in ServicesIn(buckets)
    ensures EntryOk(cfg, s, Advance(m.services[s], built.heads[s], NewRefs(built, s)), chunks, indexes)
    ensures DecodeAll(cfg.libs, Fetched(chunks, m.services[s].chunks + NewRefs(built, s))) ==
      DecodeAll(cfg.libs, Fetched(chunks, m.services[s].chunks)) + BucketsOf(buckets, s)
  {
    hide OpenChunk, IndexOf, DeriveNonce, GoodRecords, SequencesRise, Own, BucketsOf, ArchivesAt, RefOk, Linked,
      HeadAfter, IsStored;
    var e := m.services[s];
    assert EntryOk(cfg, s, e, chunks, indexes);
    assert ContinuesChain(cfg.libs, seed, built, s);
    BuiltIsOwnStored(cfg, seed, e, buckets, built, chunks, indexes);
    var own := Own(built.chunks, s);
    EntryAdvances(cfg, s, e, own, chunks, indexes);
    DecodeAllConcat(cfg.libs, Fetched(chunks, e.chunks), own);
    BuiltDecodes(cfg.libs, seed, buckets, built, s);
  }

  /** From `m` to `m'`, the history of `s` grows by exactly the batch's buckets for it. */
  ghost predicate Appends(libs: Libs, m: Manifest, m': Manifest, chunks: Chunks, buckets: seq<Bucket>, s: Text) {
    History(libs, m', chunks, s) == History(libs, m, chunks, s) + BucketsOf(buckets, s)
  }

  /** Committing a fully stored batch keeps the archive consistent and appends to each service's
      history exactly the batch's buckets for it. */
  lemma CommitKeepsStore(cfg: Config, m: Manifest, seed: Manifest, buckets: seq<Bucket>, built: Built,
    chunks: Chunks, indexes: Indexes)
    requires StoreOk(cfg, m, chunks, indexes)
    requires BuiltOk(cfg.libs, seed, buckets, built) && GoodBuckets(cfg, buckets)
    requires SeedCurrent(m, seed, ServicesIn(buckets)) && AllStored(built, chunks, indexes)
    ensures built.heads.Keys <= seed.services.Keys
    ensures StoreOk(cfg, Overlay(m, seed, built), chunks, indexes)
    ensures forall s :: Appends(cfg.libs, m, Overlay(m, seed, built), chunks, buckets, s)
  {
    hide EntryOk, OpenChunk, ArchivesAt, SequencesRise, ContinuesChain, IsStored, Own, BucketsOf, DecodeAll, Fetched;
    var m' := Overlay(m, seed, built);
    forall s
      ensures s in m'.services ==> EntryOk(cfg, s, m'.services[s], chunks, indexes)
      ensures Appends(cfg.libs, m, m', chunks, buckets, s)
    {
      if s in ServicesIn(buckets) {
        CommitEntry(cfg, m, seed, buckets, built, chunks, indexes, s);
      } else {
        NoBucketsOf(buckets, s);
        assert s in m.services ==> EntryOk(cfg, s, m.services[s], chunks, indexes);
      }
    }
    OverlayKeepsIds(m, seed, built);
  }

  lemma OverlayKeepsIds(m: Manifest, seed: Manifest, built: Built)
    requires built.heads.Keys <= seed.services.Keys && built.heads.Keys <= m.services.Keys
    ensures var m' := Overlay(m, seed, built);
      && m'.services.Keys == m.services.Keys
      && m'.nextServiceId == m.nextServiceId
      && (forall s :: s in m.services ==> m'.services[s].serviceId == m.services[s].serviceId)
      && (IdsOk(m) ==> IdsOk(m'))
  {
  }

  lemma {:induction false} NoBucketsOf(buckets: seq<Bucket>, s: Text)
    requires s !in ServicesIn(buckets)
    ensures BucketsOf(buckets, s) == []
  {
    if buckets != [] {
      var n := |buckets| - 1;
      assert buckets[n] in buckets && forall b :: b in buckets[..n] ==> b in buckets;
      NoBucketsOf(buckets[..n], s);
    }
  }

  // ---- Nonces ----

  /** No two chunks the manifest refers to, of one service or of two, share a nonce. */
  lemma NoncesAreDistinct(cfg: Config, m: Manifest, chunks: Chunks, indexes: Indexes,
    s: Text, i: nat, t: Text, j: nat)
    requires StoreOk(cfg, m, chunks, indexes)
    requires s in m.services && i < |m.services[s].chunks| < U64_LIMIT
    requires t in m.services && j < |m.services[t].chunks| < U64_LIMIT
    requires s != t || i != j
    ensures Fetch(chunks, m.services[s].chunks[i]).header.nonce != Fetch(chunks, m.services[t].chunks[j]).header.nonce
  {
    hide OpenChunk, IndexOf, DeriveNonce, GoodRecords;
    assert RefOk(cfg, m.services[s], chunks, indexes, i);
    assert RefOk(cfg, m.services[t], chunks, indexes, j);
    if Fetch(chunks, m.services[s].chunks[i]).header.nonce == Fetch(chunks, m.services[t].chunks[j]).header.nonce {
      NonceInjective(m.services[s].serviceId, i, m.services[t].serviceId, j);
    }
  }
}
