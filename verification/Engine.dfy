/** One `ingest_batch` at a time over mutable storage, with every backend call free to fail. */
module Engine {
  import opened Core
  import opened Ordering
  import opened Chain
  import opened Builder
  import opened Chunking
  import opened Index
  import opened Sealing
  import opened Archive
  import opened Protocol
  import opened Safety
  import opened Guard

  // ---- Specifications of the loops ----

  /** The registration loop over a list of services. */
  function RegisterAll(m: Manifest, services: seq<Text>): Manifest {
    if services == [] then m else RegisterOne(RegisterAll(m, services[..|services| - 1]), services[|services| - 1])
  }

  lemma RegisterAllSnoc(m: Manifest, services: seq<Text>, n: nat)
    requires n < |services|
    ensures RegisterAll(m, services[..n + 1]) == RegisterOne(RegisterAll(m, services[..n]), services[n])
  {
    assert services[..n + 1][..n] == services[..n];
  }

  lemma RegisterAllNone(m: Manifest, services: seq<Text>)
    ensures RegisterAll(m, services[..0]) == m
  {
  }

  /** After registration every listed service has an entry, known ones are as they were, and nothing
      else was added. */
  lemma {:induction false} RegisterAllCovers(m: Manifest, services: seq<Text>)
    ensures var m' := RegisterAll(m, services);
      && OnlyAddsFresh(m, m')
      && (forall t :: t in m'.services <==> t in m.services || t in services)
  {
    if services != [] {
      var n := |services| - 1;
      Unsnoc(services);
      RegisterAllCovers(m, services[..n]);
      RegisteringAddsFresh(m, RegisterAll(m, services[..n]), services[n]);
    }
  }

  lemma {:induction false} RegisterAllIdle(m: Manifest, services: seq<Text>)
    requires forall t :: t in services ==> t in m.services
    ensures RegisterAll(m, services) == m
  {
    if services != [] {
      Unsnoc(services);
      RegisterAllIdle(m, services[..|services| - 1]);
    }
  }

  /** Listing finds chunks for a service without an entry. */
  ghost predicate IsLost(cfg: Config, m: Manifest, indexes: Indexes, t: Text) {
    t !in m.services && IsListed(cfg, indexes, t)
  }

  ghost predicate IsListed(cfg: Config, indexes: Indexes, t: Text) {
    exists q :: q in indexes && Lists(cfg.listing, t, q.service)
  }

  /** No registration round runs out of ids. */
  predicate IdsLast(m: Manifest, services: seq<Text>) {
    RegisterAll(m, services).nextServiceId < U32_LIMIT
  }

  /** Registration cannot succeed: some service is listed without an entry or rejected, or the ids run out. */
  ghost predicate Unregistrable(cfg: Config, m: Manifest, indexes: Indexes, services: seq<Text>) {
    || (exists t :: t in services && (IsLost(cfg, m, indexes, t) || IsRejected(cfg, m, t)))
    || !IdsLast(m, services)
  }

  lemma {:induction false} IdsOnlyGrow(m: Manifest, services: seq<Text>, n: nat)
    requires n <= |services|
    ensures RegisterAll(m, services[..n]).nextServiceId <= RegisterAll(m, services).nextServiceId
    decreases |services| - n
  {
    if n == |services| {
      assert services[..n] == services;
    } else {
      RegisterAllSnoc(m, services, n);
      IdsOnlyGrow(m, services, n + 1);
    }
  }

  predicate Distinct(services: seq<Text>) {
    forall i, j :: 0 <= i < j < |services| ==> services[i] != services[j]
  }

  ghost function Unknown(m: Manifest, services: seq<Text>): set<Text> {
    set t | t in services && t !in m.services
  }

  lemma UnknownSnoc(m: Manifest, services: seq<Text>, t: Text)
    requires t !in services
    ensures |Unknown(m, services + [t])| == |Unknown(m, services)| + if t in m.services then 0 else 1
  {
    assert Unknown(m, services + [t]) == Unknown(m, services) + if t in m.services then {} else {t};
  }

  /** New services get consecutive ids from the counter on, in the order they are listed, and it moves past
      them. */
  lemma {:induction false} RegisterAllNumbers(m: Manifest, services: seq<Text>)
    requires Distinct(services)
    ensures RegisterAll(m, services).nextServiceId == m.nextServiceId + |Unknown(m, services)|
    ensures forall i :: 0 <= i < |services| && services[i] !in m.services ==> NumberedAt(m, services, i)
  {
    hide RegisterAll, Unknown;
    if services == [] {
      RegisterAllNone(m, services);
      assert services[..0] == services;
      assert Unknown(m, services) == {} by { NothingUnknown(m); }
    } else {
      var n := |services| - 1;
      var front, last := services[..n], services[n];
      Unsnoc(services);
      RegisterAllNumbers(m, front);
      RegisterAllCovers(m, front);
      RegisterAllSnoc(m, services, n);
      UnknownSnoc(m, front, last);
      assert services[..n + 1] == services;
      forall i | 0 <= i < |services| && services[i] !in m.services ensures NumberedAt(m, services, i) {
        if i < n {
          assert NumberedAt(m, front, i) && services[..i] == front[..i];
        }
      }
    }
  }

  lemma NothingUnknown(m: Manifest)
    ensures Unknown(m, []) == {}
  {
  }

  /** The `i`-th service, new, got the id that follows those of the new ones listed before it. */
  ghost predicate NumberedAt(m: Manifest, services: seq<Text>, i: nat)
    requires i < |services|
  {
    var m' := RegisterAll(m, services);
    services[i] in m'.services &&
    m'.services[services[i]] == FreshChain(services[i], m.nextServiceId + |Unknown(m, services[..i])|)
  }

  /** For example, the first service of an empty backend has id 0, the hash of 32 zero bytes for its head, and
      its first chunk will be number 0. */
  lemma FirstRegistration(bucket: Text, t: Text)
    ensures RegisterAll(FreshManifest(bucket), [t]) ==
      Manifest(bucket, map[t := ServiceChain(t, 0, seq(32, _ => 0), 0, [])], 1, 2)
  {
    GenesisIsZeros();
    RegisterAllNone(FreshManifest(bucket), [t]);
    RegisterAllSnoc(FreshManifest(bucket), [t], 0);
    assert [t][..0 + 1] == [t];
  }

  /** The commit loop when it has laid the deltas of `done` over `m`. */
  function OverlayPart(m: Manifest, seed: Manifest, built: Built, done: set<Text>): Manifest
    requires built.heads.Keys <= seed.services.Keys
  {
    m.(services := map s | s in m.services.Keys + (done * built.heads.Keys) ::
      var e := if s in m.services then m.services[s] else FreshChain(s, seed.services[s].serviceId);
      if s in done * built.heads.Keys then Advance(e, built.heads[s], NewRefs(built, s)) else e)
  }

  lemma OverlayStarts(m: Manifest, seed: Manifest, built: Built)
    requires built.heads.Keys <= seed.services.Keys
    ensures OverlayPart(m, seed, built, {}) == m
  {
    assert OverlayPart(m, seed, built, {}).services == m.services;
  }

  lemma OverlayEnds(m: Manifest, seed: Manifest, built: Built)
    requires built.heads.Keys <= seed.services.Keys
    ensures OverlayPart(m, seed, built, built.heads.Keys) == Overlay(m, seed, built)
  {
    assert OverlayPart(m, seed, built, built.heads.Keys).services == Overlay(m, seed, built).services;
  }

  lemma OverlayGrows(m: Manifest, seed: Manifest, built: Built, done: set<Text>, s: Text)
    requires built.heads.Keys <= seed.services.Keys
    requires s in built.heads && s !in done
    ensures var part := OverlayPart(m, seed, built, done);
      var e := if s in part.services then part.services[s] else FreshChain(s, seed.services[s].serviceId);
      OverlayPart(m, seed, built, done + {s}) ==
        part.(services := part.services[s := Advance(e, built.heads[s], NewRefs(built, s))])
  {
    var part, more := OverlayPart(m, seed, built, done), OverlayPart(m, seed, built, done + {s});
    var e := if s in part.services then part.services[s] else FreshChain(s, seed.services[s].serviceId);
    assert more.services == part.services[s := Advance(e, built.heads[s], NewRefs(built, s))];
  }

  /** The backend accepts the names of the archives outside `pending`. */
  ghost predicate AdmittedBut(cfg: Config, built: Built, pending: set<nat>) {
    forall i :: 0 <= i < |built.chunks| && i !in pending ==> AdmitsRef(cfg, built.chunks[i].Ref())
  }

  /** Some service has no entry, and the backend rejects its name. */
  ghost predicate IsRejected(cfg: Config, m: Manifest, t: Text) {
    t !in m.services && !Admits(cfg.listing, t)
  }

  /** The archives outside `pending` are stored. */
  ghost predicate StoredBut(built: Built, pending: set<nat>, chunks: Chunks, indexes: Indexes)
    requires |built.indexes| == |built.chunks|
  {
    forall i :: 0 <= i < |built.chunks| && i !in pending ==> IsStored(built, chunks, indexes, i)
  }

  ghost predicate SameHistories(cfg: Config, m: Manifest, chunks: Chunks, m': Manifest, chunks': Chunks) {
    forall t :: History(cfg.libs, m', chunks', t) == History(cfg.libs, m, chunks, t)
  }

  /** Every service's history has grown by exactly its buckets of the batch. */
  ghost predicate Ingested(cfg: Config, m: Manifest, chunks: Chunks, m': Manifest, chunks': Chunks,
    records: seq<LogRecord>) {
    forall t :: History(cfg.libs, m', chunks', t) == AfterIngest(cfg, History(cfg.libs, m, chunks, t), records, t)
  }

  /** A service of the batch has no entry, and the prefix listing finds chunks of one nested in it. */
  ghost predicate NestedInBatch(cfg: Config, m: Manifest, indexes: Indexes, records: seq<LogRecord>) {
    exists t :: t in ServicesIn(ChunkBatch(cfg, records)) && t !in m.services && NestedStored(cfg, indexes, t)
  }

  /** A record of the batch belongs to a service whose name the backend rejects. */
  ghost predicate RejectedInBatch(cfg: Config, records: seq<LogRecord>) {
    exists x :: x in records && !Admits(cfg.listing, x.service)
  }

  /** The counter would leave 32 bits before every new service of the batch has an id. */
  ghost predicate TooFewIds(cfg: Config, m: Manifest, records: seq<LogRecord>) {
    m.nextServiceId + |ServicesIn(ChunkBatch(cfg, records)) - m.services.Keys| >= U32_LIMIT
  }

  /** One manifest write for a whole batch, one more before it when some service is new, none for nothing. */
  ghost function ManifestWrites(m: Manifest, records: seq<LogRecord>): nat {
    if records == [] then 0 else if forall x :: x in records ==> x.service in m.services then 1 else 2
  }

  lemma EmptyBatchIngested(cfg: Config, m: Manifest, chunks: Chunks, records: seq<LogRecord>)
    requires ChunkBatch(cfg, records) == []
    ensures Ingested(cfg, m, chunks, m, chunks, records)
  {
    hide ChunkBatch, History;
  }

  lemma OneMoreStored(libs: Libs, seed: Manifest, buckets: seq<Bucket>, built: Built, pending: set<nat>, i: nat,
    chunks: Chunks, indexes: Indexes, chunks': Chunks, indexes': Indexes)
    requires BuiltOk(libs, seed, buckets, built)
    requires i in pending && i < |built.chunks|
    requires StoredBut(built, pending, chunks, indexes)
    requires OnlyAt(built.chunks[i].Ref(), chunks, indexes, chunks', indexes')
    requires IsStored(built, chunks', indexes', i)
    ensures StoredBut(built, pending - {i}, chunks', indexes')
  {
    hide ContinuesChain, ArchivesAt, OnlyAt, IsStored;
    forall j | 0 <= j < |built.chunks| && j !in pending - {i} ensures IsStored(built, chunks', indexes', j) {
      if j != i {
        assert built.chunks[j].Ref() != built.chunks[i].Ref();
        OtherKeysStored(built, chunks, indexes, built.chunks[i].Ref(), chunks', indexes', j);
      }
    }
  }

  lemma BuiltUnreferenced(libs: Libs, m: Manifest, seed: Manifest, buckets: seq<Bucket>, built: Built, i: nat)
    requires BuiltOk(libs, seed, buckets, built)
    requires SeedCurrent(m, seed, ServicesIn(buckets))
    requires i < |built.chunks|
    ensures built.chunks[i].header.service in m.services && Unreferenced(m, built.chunks[i].Ref())
  {
    hide ContinuesChain, OpenChunk, IndexOf;
    assert ArchivesAt(libs, seed, buckets, built, i);
    assert buckets[i] in buckets;
    assert built.chunks[i] in built.chunks;
  }

  lemma StoringKeepsHistories(cfg: Config, m: Manifest, r: ChunkRef, chunks: Chunks, indexes: Indexes,
    chunks': Chunks, indexes': Indexes)
    requires StoreOk(cfg, m, chunks, indexes)
    requires r.service in m.services && Unreferenced(m, r)
    requires OnlyAt(r, chunks, indexes, chunks', indexes')
    ensures StoreOk(cfg, m, chunks', indexes')
    ensures SameHistories(cfg, m, chunks, m, chunks')
  {
    hide StoreOk, OnlyAt, Unreferenced, DecodeAll, Fetched;
    StoringUnreferenced(cfg, m, r, chunks, indexes, chunks', indexes');
  }

  lemma {:induction false} RegisteringAllKeepsStore(cfg: Config, m: Manifest, services: seq<Text>, chunks: Chunks,
    indexes: Indexes)
    requires StoreOk(cfg, m, chunks, indexes) && IdsLast(m, services)
    ensures StoreOk(cfg, RegisterAll(m, services), chunks, indexes)
  {
    hide StoreOk;
    if services != [] {
      var n := |services| - 1;
      RegisteringAllKeepsStore(cfg, m, services[..n], chunks, indexes);
      RegisteringKeepsStore(cfg, RegisterAll(m, services[..n]), services[n], chunks, indexes);
    }
  }

  lemma RegisteringAllKeepsHistories(cfg: Config, m: Manifest, services: seq<Text>, chunks: Chunks)
    ensures SameHistories(cfg, m, chunks, RegisterAll(m, services), chunks)
  {
    hide RegisterAll;
    RegisterAllCovers(m, services);
  }

  lemma NothingPending(built: Built, chunks: Chunks, indexes: Indexes)
    requires |built.indexes| == |built.chunks| && StoredBut(built, {}, chunks, indexes)
    ensures AllStored(built, chunks, indexes)
  {
    hide IsStored;
  }

  lemma AppendedIsIngested(cfg: Config, m: Manifest, m': Manifest, chunks: Chunks, records: seq<LogRecord>)
    requires forall t :: Appends(cfg.libs, m, m', chunks, ChunkBatch(cfg, records), t)
    ensures Ingested(cfg, m, chunks, m', chunks, records)
  {
    hide ChunkBatch, History, BucketsOf;
    forall t ensures History(cfg.libs, m', chunks, t) == AfterIngest(cfg, History(cfg.libs, m, chunks, t), records, t) {
      assert Appends(cfg.libs, m, m', chunks, ChunkBatch(cfg, records), t);
    }
  }

  function Below(n: nat): (s: set<nat>)
    ensures forall i: nat :: i in s <==> i < n
  {
    if n == 0 then {} else Below(n - 1) + {n - 1}
  }

  lemma NothingBuilt(libs: Libs, seed: Manifest, buckets: seq<Bucket>)
    ensures BuildAll(libs, seed, buckets[..0], []) == NOTHING_BUILT
  {
  }

  lemma BuildAllSnoc(libs: Libs, seed: Manifest, buckets: seq<Bucket>, n: nat, salts: seq<Salt>, salt: Salt)
    requires AllBuildable(seed, buckets) && n < |buckets| && |salts| == n
    ensures BuildAll(libs, seed, buckets[..n + 1], salts + [salt]) ==
      BuildOne(libs, seed, BuildAll(libs, seed, buckets[..n], salts), buckets[n], salt)
  {
    hide BuildOne;
    assert buckets[..n + 1][..n] == buckets[..n] && (salts + [salt])[..n] == salts;
  }

  class ArchiveEngine {
    const cfg: Config
    // The backend.
    var stored: Option<Manifest>
    var chunks: Chunks
    var indexes: Indexes
    // How many calls of the backend and of the libraries have failed so far, other than for a rejected name.
    ghost var faults: nat
    // How many manifest writes were tried so far.
    ghost var writes: nat

    constructor (cfg: Config, stored: Option<Manifest>, chunks: Chunks, indexes: Indexes)
      ensures this.cfg == cfg && this.stored == stored && this.chunks == chunks && this.indexes == indexes
    {
      this.cfg, this.stored, this.chunks, this.indexes := cfg, stored, chunks, indexes;
      faults, writes := 0, 0;
    }

    function Current(): Manifest
      reads this
    {
      match stored case Some(m) => m case None => FreshManifest(cfg.bucket)
    }

    ghost predicate Valid()
      reads this
    {
      cfg.libs.Lawful() && StoreOk(cfg, Current(), chunks, indexes)
    }

    // ---- The backend, each call free to fail ----

    method ReadManifestOrDefault() returns (r: Result<Manifest, Failure>)
      modifies this`faults
      ensures r.Ok? ==> r.value == Current()
      ensures r.Err? ==> r.error == Faulted
      ensures faults == old(faults) + if r.Err? then 1 else 0
    {
      if * {
        faults := faults + 1;
        return Err(Faulted);
      }
      return Ok(Current());
    }

    method WriteManifest(m: Manifest) returns (ok: bool)
      modifies this`stored, this`faults, this`writes
      ensures writes == old(writes) + 1
      ensures ok ==> stored == Some(m)
      ensures !ok ==> stored == old(stored) || stored == Some(m)
      ensures faults == old(faults) + if ok then 0 else 1
    {
      writes := writes + 1;
      if * {
        faults := faults + 1;
        return false;
      }
      stored := Some(m);
      if * {
        faults := faults + 1;
        return false;
      }
      return true;
    }

    method PutArchive(c: Chunk, ix: ServiceWindowIndex) returns (ok: bool)
      modifies this`chunks, this`indexes, this`faults
      ensures chunks == old(chunks) || chunks == old(chunks)[c.Ref() := c]
      ensures indexes == old(indexes) || indexes == old(indexes)[c.Ref() := ix]
      ensures OnlyAt(c.Ref(), old(chunks), old(indexes), chunks, indexes)
      ensures ok ==> chunks == old(chunks)[c.Ref() := c] && indexes == old(indexes)[c.Ref() := ix]
      ensures !AdmitsRef(cfg, c.Ref()) ==> !ok && chunks == old(chunks) && indexes == old(indexes)
      ensures faults == old(faults) + if ok || !AdmitsRef(cfg, c.Ref()) then 0 else 1
    {
      ok := false;
      if !AdmitsRef(cfg, c.Ref()) { return; }
      ghost var failed := faults + 1;
      if * {
        faults := failed;
        return;
      }
      chunks := chunks[c.Ref() := c];
      if * {
        faults := failed;
        return;
      }
      indexes := indexes[c.Ref() := ix];
      if * {
        faults := failed;
        return;
      }
      ok := true;
    }

    method ListChunks(service: Text) returns (r: Result<bool, Failure>)
      modifies this`faults
      ensures r.Ok? ==> (r.value <==> IsListed(cfg, indexes, service))
      ensures r.Err? ==> r.error == Faulted
      ensures !Admits(cfg.listing, service) ==> r.Err?
      ensures faults == old(faults) + if r.Ok? || !Admits(cfg.listing, service) then 0 else 1
    {
      if !Admits(cfg.listing, service) { return Err(Faulted); }
      if * {
        faults := faults + 1;
        return Err(Faulted);
      }
      return Ok(exists q | q in indexes :: Lists(cfg.listing, service, q.service));
    }

    // ---- ensure_service_ids ----

    /** The loop that gives unknown services their ids, refusing one that has stored chunks. */
    method AssignIds(m: Manifest, services: seq<Text>) returns (r: Result<Manifest, Failure>)
      modifies this`faults
      ensures r.Ok? ==> r.value == RegisterAll(m, services)
      ensures r.Ok? && m.nextServiceId < U32_LIMIT ==> IdsLast(m, services)
      ensures r.Ok? ==> forall t :: t in services ==> !IsLost(cfg, m, indexes, t) && !IsRejected(cfg, m, t)
      ensures r == Err(Refused) ==> exists t :: t in services && IsLost(cfg, m, indexes, t)
      ensures r.Ok? ==> faults == old(faults)
      ensures r.Err? ==> faults > old(faults) || Unregistrable(cfg, m, indexes, services)
      ensures faults >= old(faults)
    {
      hide RegisterAll, IsListed, Safe;
      var manifest := m;
      RegisterAllNone(m, services);
      for n := 0 to |services|
        invariant faults == old(faults)
        invariant manifest == RegisterAll(m, services[..n])
        invariant m.nextServiceId < U32_LIMIT ==> IdsLast(m, services[..n])
        invariant forall i :: 0 <= i < n ==> !IsLost(cfg, m, indexes, services[i]) && !IsRejected(cfg, m, services[i])
      {
        var service := services[n];
        RegisterAllSnoc(m, services, n);
        RegisterAllCovers(m, services[..n]);
        if service !in manifest.services {
          var listed := this.ListChunks(service);
          if listed.Err? {
            assert faults > old(faults) || IsRejected(cfg, m, service);
            return Err(listed.error);
          }
          if listed.value {
            assert IsLost(cfg, m, indexes, service);
            return Err(Refused);
          }
          var id := manifest.nextServiceId;
          if id + 1 >= U32_LIMIT {
            IdsOnlyGrow(m, services, n + 1);
            return Err(IdsExhausted);
          }
          manifest := manifest.(services := manifest.services[service := FreshChain(service, id)], nextServiceId := id + 1);
        }
      }
      assert services[..|services|] == services;
      return Ok(manifest);
    }

    /** `ensure_service_ids`. On success every service has a durable entry and the manifest returned is
        the durable one; a service with stored chunks but no entry is refused, one without an entry whose
        name the backend rejects is an error, and either way nothing is written. */
    method EnsureServiceIds(services: seq<Text>) returns (r: Result<Manifest, Failure>)
      modifies this`stored, this`faults, this`writes
      ensures (forall t :: t in services ==> t in old(Current()).services) ==> stored == old(stored) && writes == old(writes)
      ensures r.Ok? && (exists t :: t in services && t !in old(Current()).services) ==> writes == old(writes) + 1
      ensures Current() == old(Current()) || Current() == RegisterAll(old(Current()), services)
      ensures r.Ok? ==> r.value == Current() == RegisterAll(old(Current()), services)
      ensures Current() != old(Current()) && old(Current()).nextServiceId < U32_LIMIT ==> IdsLast(old(Current()), services)
      ensures (exists t :: t in services && IsLost(cfg, old(Current()), indexes, t)) ==> r.Err? && stored == old(stored)
      ensures (exists t :: t in services && IsRejected(cfg, old(Current()), t)) ==> r.Err? && stored == old(stored)
      ensures r == Err(Refused) ==> exists t :: t in services && IsLost(cfg, old(Current()), indexes, t)
      ensures r.Ok? ==> faults == old(faults)
      ensures r.Ok? && old(Current()).nextServiceId < U32_LIMIT ==> IdsLast(old(Current()), services)
      ensures r.Err? ==> faults > old(faults) || Unregistrable(cfg, old(Current()), indexes, services)
      ensures faults >= old(faults)
    {
      hide RegisterAll;
      var unlocked := ReadManifestOrDefault();
      if unlocked.Err? { return Err(unlocked.error); }
      if forall t | t in services :: t in unlocked.value.services {
        RegisterAllIdle(Current(), services);
        return Ok(unlocked.value);
      }
      var manifest := ReadManifestOrDefault();
      if manifest.Err? { return Err(manifest.error); }
      var registered := AssignIds(manifest.value, services);
      if registered.Err? { return Err(registered.error); }
      var ok := WriteManifest(registered.value);
      if !ok { return Err(Faulted); }
      return Ok(registered.value);
    }

    // ---- ingest_batch ----

    /** The building loop: seal, chain and index each bucket in turn. */
    method BuildArchives(seed: Manifest, buckets: seq<Bucket>) returns (r: Result<Built, Failure>, ghost salts: seq<Salt>)
      requires AllBuildable(seed, buckets)
      modifies this`faults
      ensures r.Ok? ==> |salts| == |buckets| && r.value == BuildAll(cfg.libs, seed, buckets, salts)
      ensures r.Err? ==> r.error == Faulted
      ensures faults == old(faults) + if r.Err? then 1 else 0
    {
      hide IndexOf, MakeChunk, BuildAll;
      var heads: Heads, newRefs: map<Text, seq<ChunkRef>> := map[], map[];
      var archives: seq<Chunk>, built: seq<ServiceWindowIndex> := [], [];
      salts := [];
      NothingBuilt(cfg.libs, seed, buckets);
      for n := 0 to |buckets|
        invariant |salts| == n && faults == old(faults)
        invariant Built(heads, newRefs, archives, built) == BuildAll(cfg.libs, seed, buckets[..n], salts)
      {
        var bucket := buckets[n];
        assert bucket in buckets && Buildable(seed, bucket);
        if * {
          faults := faults + 1;
          return Err(Faulted), salts;
        }
        var serviceId := seed.services[bucket.service].serviceId;
        var head :=
          if bucket.service in heads then heads[bucket.service]
          else Head(seed.services[bucket.service].headHash, seed.services[bucket.service].nextSequence);
        var salt: Salt :| true;
        var chunk := MakeChunk(cfg.libs, serviceId, head, bucket, salt);
        var index := BuildIndex(cfg.libs, chunk.Ref(), bucket.records);
        heads := heads[bucket.service := Head(cfg.libs.chunkHash(chunk), head.next + 1)];
        var refs := if bucket.service in newRefs then newRefs[bucket.service] else [];
        newRefs := newRefs[bucket.service := refs + [chunk.Ref()]];
        archives, built := archives + [chunk], built + [index];
        BuildAllSnoc(cfg.libs, seed, buckets, n, salts, salt);
        salts := salts + [salt];
      }
      assert buckets[..|buckets|] == buckets;
      return Ok(Built(heads, newRefs, archives, built)), salts;
    }

    /** The uploads finish in any order, and all of them finish before the first error is returned. */
    method UploadAll(seed: Manifest, ghost buckets: seq<Bucket>, built: Built) returns (ok: bool)
      requires Valid()
      requires BuiltOk(cfg.libs, seed, buckets, built) && SeedCurrent(Current(), seed, ServicesIn(buckets))
      modifies this`chunks, this`indexes, this`faults
      ensures Valid()
      ensures SameHistories(cfg, Current(), old(chunks), Current(), chunks)
      ensures ok ==> |built.indexes| == |built.chunks| && StoredBut(built, {}, chunks, indexes)
      ensures ok ==> AdmittedBut(cfg, built, {})
      ensures ok ==> faults == old(faults)
      ensures !ok ==> faults > old(faults) || !AdmittedBut(cfg, built, {})
      ensures faults >= old(faults)
    {
      hide AdmitsRef, StoreOk, SeedCurrent, Unreferenced, History, IsStored, OnlyAt, ChunkBatch, Libs.Lawful;
      BuiltLengths(cfg, seed, buckets, built);
      hide BuiltOk;
      var pending := Below(|built.chunks|);
      ok := true;
      while pending != {}
        invariant Valid()
        invariant forall i :: i in pending ==> 0 <= i < |built.chunks|
        invariant SameHistories(cfg, Current(), old(chunks), Current(), chunks)
        invariant ok ==> StoredBut(built, pending, chunks, indexes) && AdmittedBut(cfg, built, pending)
        invariant ok ==> faults == old(faults)
        invariant !ok ==> faults > old(faults) || !AdmittedBut(cfg, built, {})
        invariant faults >= old(faults)
        decreases pending
      {
        var i: nat :| i in pending;
        ghost var chunks0, indexes0 := chunks, indexes;
        var done := PutArchive(built.chunks[i], built.indexes[i]);
        BuiltUnreferenced(cfg.libs, Current(), seed, buckets, built, i);
        StoringKeepsHistories(cfg, Current(), built.chunks[i].Ref(), chunks0, indexes0, chunks, indexes);
        if ok && done {
          NowStored(built, i, chunks0, indexes0, chunks, indexes);
          OneMoreStored(cfg.libs, seed, buckets, built, pending, i, chunks0, indexes0, chunks, indexes);
        }
        ok := ok && done;
        pending := pending - {i};
      }
    }

    lemma NowStored(built: Built, i: nat, chunks: Chunks, indexes: Indexes, chunks': Chunks, indexes': Indexes)
      requires i < |built.chunks| == |built.indexes|
      requires chunks' == chunks[built.chunks[i].Ref() := built.chunks[i]]
      requires indexes' == indexes[built.chunks[i].Ref() := built.indexes[i]]
      ensures IsStored(built, chunks', indexes', i)
    {
    }

    /** The commit: re-read, lay this batch's deltas over, write once. */
    method Commit(seed: Manifest, built: Built) returns (ok: bool)
      requires built.heads.Keys <= seed.services.Keys
      modifies this`stored, this`faults, this`writes
      ensures ok ==> writes == old(writes) + 1
      ensures ok ==> stored == Some(Overlay(old(Current()), seed, built))
      ensures faults == old(faults) + if ok then 0 else 1
      ensures !ok ==> stored == old(stored) || stored == Some(Overlay(old(Current()), seed, built))
    {
      hide OverlayPart, Overlay;
      var read := ReadManifestOrDefault();
      if read.Err? { return false; }
      var manifest := read.value;
      var rest := built.heads.Keys;
      ghost var m := Current();
      OverlayStarts(m, seed, built);
      assert built.heads.Keys - rest == {};
      while rest != {}
        invariant rest <= built.heads.Keys
        invariant manifest == OverlayPart(m, seed, built, built.heads.Keys - rest)
        invariant stored == old(stored) && faults == old(faults) && writes == old(writes)
        decreases rest
      {
        var service :| service in rest;
        OverlayGrows(m, seed, built, built.heads.Keys - rest, service);
        assert built.heads.Keys - (rest - {service}) == built.heads.Keys - rest + {service};
        var e :=
          if service in manifest.services then manifest.services[service]
          else FreshChain(service, seed.services[service].serviceId);
        var refs := if service in built.refs then built.refs[service] else [];
        e := e.(headHash := built.heads[service].hash, nextSequence := built.heads[service].next, chunks := e.chunks + refs);
        manifest := manifest.(services := manifest.services[service := e]);
        rest := rest - {service};
      }
      assert built.heads.Keys - rest == built.heads.Keys;
      OverlayEnds(m, seed, built);
      ok := WriteManifest(manifest);
    }

    /** `ingest_batch`, alone. It keeps the archive consistent whatever fails; acknowledged, it has
        appended exactly the batch's buckets to each service's history; failed, it has appended either
        nothing or all of them. It fails exactly when a call to the backend or a library failed, a new
        service's prefix listing finds a nested one's chunks, the backend rejects the name of some record's
        service, or there are too few ids for the new services. It writes the manifest once, and once more
        before that if some service is new. */
    method IngestBatch(records: seq<LogRecord>) returns (r: Result<(), Failure>)
      requires Valid() && ValidRecords(cfg, records)
      modifies this
      ensures Valid()
      ensures r.Ok? ==> Ingested(cfg, old(Current()), old(chunks), Current(), chunks, records)
      ensures r.Err? ==>
        || SameHistories(cfg, old(Current()), old(chunks), Current(), chunks)
        || Ingested(cfg, old(Current()), old(chunks), Current(), chunks, records)
      ensures r == Err(Refused) ==> NestedInBatch(cfg, old(Current()), old(indexes), records)
      ensures NestedInBatch(cfg, old(Current()), old(indexes), records) ==> r.Err? && stored == old(stored)
      ensures RejectedInBatch(cfg, records) ==>
        r.Err? && SameHistories(cfg, old(Current()), old(chunks), Current(), chunks)
      ensures r.Err? <==>
        || faults > old(faults)
        || NestedInBatch(cfg, old(Current()), old(indexes), records)
        || RejectedInBatch(cfg, records)
        || TooFewIds(cfg, old(Current()), records)
      ensures r.Ok? ==> writes == old(writes) + ManifestWrites(old(Current()), records)
      ensures records == [] ==> r.Ok? && stored == old(stored) && chunks == old(chunks) && indexes == old(indexes)
    {
      hide ManifestWrites, Unregistrable, IsRejected, Enumerates, ServicesIn, NestedInBatch, IdsLast, Ingested,
        SameHistories, SeedCurrent, IsLost, TooFewIds, RejectedInBatch, AdmittedBut, StoreOk, History, AfterIngest,
        ChunkBatch, BuildAll, BuiltOk, RegisterAll, Overlay, StoredBut, GoodBuckets, Libs.Lawful;
      var buckets := GroupIntoBuckets(cfg, records);
      BatchShape(cfg, records);
      if buckets == [] {
        NothingRejected(cfg);
        NothingToRegister(cfg, Current(), chunks, indexes);
        assert ManifestWrites(Current(), records) == 0 by { NothingWritten(Current()); }
        EmptyBatchIngested(cfg, Current(), chunks, records);
        return Ok(());
      }
      var services := ServicesSorted(buckets);
      ghost var m0 := Current();
      UnknownHasNothing(cfg, m0, chunks, indexes);
      LostInBatch(cfg, m0, indexes, records, services);
      UnregistrableBatch(cfg, m0, indexes, records, services);
      KnownBatch(cfg, m0, records, services);
      var seed := EnsureServiceIds(services);
      if Current() != m0 {
        RegisteringAllKeepsStore(cfg, m0, services, chunks, indexes);
      }
      RegisteringAllKeepsHistories(cfg, m0, services, chunks);
      SameAsBefore(cfg, m0, chunks);
      if seed.Err? { return Err(seed.error); }
      RegisterAllCovers(m0, services);
      SeedIsFit(cfg, seed.value, buckets, services);
      var built, salts := BuildArchives(seed.value, buckets);
      if built.Err? { return Err(built.error); }
      BuildAllOk(cfg.libs, seed.value, buckets, salts);
      var uploaded := UploadAll(seed.value, buckets, built.value);
      HistoriesTransitive(cfg, m0, old(chunks), seed.value, old(chunks), seed.value, chunks);
      if !uploaded {
        if !AdmittedBut(cfg, built.value, {}) { UploadRejects(cfg, seed.value, records, built.value); }
        return Err(Faulted);
      }
      UploadedAdmits(cfg, seed.value, records, built.value);
      NothingPending(built.value, chunks, indexes);
      CommitKeepsStore(cfg, Current(), seed.value, buckets, built.value, chunks, indexes);
      AppendedIsIngested(cfg, Current(), Overlay(Current(), seed.value, built.value), chunks, records);
      IngestedAfterSame(cfg, m0, old(chunks), Current(), chunks, Overlay(Current(), seed.value, built.value), chunks,
        records);
      var ok := Commit(seed.value, built.value);
      if !ok { return Err(Faulted); }
      return Ok(());
    }
  }

  /** The services of the buckets, as a sorted set. */
  method ServicesSorted(buckets: seq<Bucket>) returns (services: seq<Text>)
    ensures Enumerates(services, ServicesIn(buckets), TextLt)
  {
    hide TextLt, ServicesIn;
    var all := ServicesIn(buckets);
    var rest := all;
    services := [];
    assert all - rest == {};
    assert Drained(services, all, rest, TextLt);
    while rest != {}
      invariant Drained(services, all, rest, TextLt)
      decreases rest
    {
      var service := LeastText(rest);
      DrainStep(services, all, rest, service, TextLt);
      services := services + [service];
      rest := rest - {service};
    }
    assert all - {} == all;
  }

  lemma NothingRejected(cfg: Config)
    ensures !RejectedInBatch(cfg, [])
  {
  }

  lemma RecordHasBucket(cfg: Config, records: seq<LogRecord>, x: LogRecord)
    requires x in records
    ensures x.service in ServicesIn(ChunkBatch(cfg, records))
  {
    var keys, buckets := SortedKeys(cfg, records), ChunkBatch(cfg, records);
    assert KeyOf(cfg, x) in Keys(cfg, records);
    assert KeyOf(cfg, x) in keys;
    var i :| 0 <= i < |keys| && keys[i] == KeyOf(cfg, x);
    assert buckets[i] in buckets;
  }

  /** When all archives of a batch are uploaded, the backend accepts the names of all its records. */
  lemma UploadedAdmits(cfg: Config, seed: Manifest, records: seq<LogRecord>, built: Built)
    requires BuiltOk(cfg.libs, seed, ChunkBatch(cfg, records), built) && AdmittedBut(cfg, built, {})
    ensures !RejectedInBatch(cfg, records)
  {
    hide SequencesRise, ContinuesChain, OpenChunk, IndexOf, ChunkBatch, Admits;
    var buckets := ChunkBatch(cfg, records);
    forall x | x in records ensures Admits(cfg.listing, x.service) {
      RecordHasBucket(cfg, records, x);
      var b :| b in buckets && b.service == x.service;
      var i :| 0 <= i < |buckets| && buckets[i] == b;
      assert ArchivesAt(cfg.libs, seed, buckets, built, i);
    }
  }

  lemma NothingToRegister(cfg: Config, m: Manifest, chunks: Chunks, indexes: Indexes)
    requires StoreOk(cfg, m, chunks, indexes)
    ensures !TooFewIds(cfg, m, []) && !NestedInBatch(cfg, m, indexes, [])
  {
    hide EntriesOk, Registered, ChunkBatch;
    BucketsAreWellFormed(cfg, []);
    assert ServicesIn(ChunkBatch(cfg, [])) - m.services.Keys == {};
  }

  lemma ServiceHasRecord(cfg: Config, records: seq<LogRecord>, t: Text)
    requires t in ServicesIn(ChunkBatch(cfg, records))
    ensures exists x :: x in records && x.service == t
  {
    hide KeyOf, ChunkBatch;
    var buckets := ChunkBatch(cfg, records);
    BucketsAreWellFormed(cfg, records);
    var b :| b in buckets && b.service == t;
    var i :| 0 <= i < |buckets| && buckets[i] == b;
    var x := buckets[i].records[0];
    assert x in buckets[i].records && x in records && InBucket(cfg, x, buckets[i]);
    BucketedOwn(cfg, b.records[0], b);
  }

  /** What keeps a batch from being registered, seen from its records. */
  lemma UnregistrableBatch(cfg: Config, m: Manifest, indexes: Indexes, records: seq<LogRecord>, services: seq<Text>)
    requires Enumerates(services, ServicesIn(ChunkBatch(cfg, records)), TextLt)
    requires NestedInBatch(cfg, m, indexes, records) <==> exists t :: t in services && IsLost(cfg, m, indexes, t)
    ensures IdsLast(m, services) <==> !TooFewIds(cfg, m, records)
    ensures Unregistrable(cfg, m, indexes, services) ==>
      NestedInBatch(cfg, m, indexes, records) || RejectedInBatch(cfg, records) || TooFewIds(cfg, m, records)
  {
    hide ChunkBatch, IsLost, NestedInBatch, RegisterAll, Admits;
    TextLtStrictTotal();
    RegisterAllNumbers(m, services);
    assert Unknown(m, services) == ServicesIn(ChunkBatch(cfg, records)) - m.services.Keys;
    if t :| t in services && IsRejected(cfg, m, t) { ServiceHasRecord(cfg, records, t); }
  }

  lemma KnownBatch(cfg: Config, m: Manifest, records: seq<LogRecord>, services: seq<Text>)
    requires Enumerates(services, ServicesIn(ChunkBatch(cfg, records)), TextLt) && records != []
    ensures ManifestWrites(m, records) == if forall t :: t in services ==> t in m.services then 1 else 2
  {
    hide ChunkBatch, TextLt;
    forall x | x in records ensures x.service in services { RecordHasBucket(cfg, records, x); }
    forall t | t in services ensures exists x :: x in records && x.service == t { ServiceHasRecord(cfg, records, t); }
  }

  lemma UploadRejects(cfg: Config, seed: Manifest, records: seq<LogRecord>, built: Built)
    requires cfg.libs.Lawful()
    requires BuiltOk(cfg.libs, seed, ChunkBatch(cfg, records), built) && !AdmittedBut(cfg, built, {})
    ensures RejectedInBatch(cfg, records)
  {
    hide SequencesRise, ContinuesChain, OpenChunk, IndexOf, ChunkBatch, Safe, Libs.Lawful, Describes;
    var buckets := ChunkBatch(cfg, records);
    var i :| 0 <= i < |built.chunks| && !AdmitsRef(cfg, built.chunks[i].Ref());
    assert ArchivesAt(cfg.libs, seed, buckets, built, i);
    assert buckets[i] in buckets;
    BucketWindowsAreSafe(cfg, records);
    ServiceHasRecord(cfg, records, buckets[i].service);
  }

  lemma UnknownHasNothing(cfg: Config, m: Manifest, chunks: Chunks, indexes: Indexes)
    requires StoreOk(cfg, m, chunks, indexes)
    ensures m.nextServiceId < U32_LIMIT
    ensures forall t :: IsLost(cfg, m, indexes, t) <==> t !in m.services && NestedStored(cfg, indexes, t)
  {
    hide EntriesOk, Nested;
    forall t ensures IsLost(cfg, m, indexes, t) <==> t !in m.services && NestedStored(cfg, indexes, t) {
      if q :| t !in m.services && q in indexes && Lists(cfg.listing, t, q.service) { assert q.service != t; }
      if cfg.listing.ByPrefix? {
        if q :| q in indexes && Nested(t, q.service) { assert Lists(cfg.listing, t, q.service); }
      }
    }
  }

  lemma LostInBatch(cfg: Config, m: Manifest, indexes: Indexes, records: seq<LogRecord>, services: seq<Text>)
    requires forall t :: IsLost(cfg, m, indexes, t) <==> t !in m.services && NestedStored(cfg, indexes, t)
    requires Enumerates(services, ServicesIn(ChunkBatch(cfg, records)), TextLt)
    ensures NestedInBatch(cfg, m, indexes, records) <==> exists t :: t in services && IsLost(cfg, m, indexes, t)
  {
    hide ChunkBatch, IsLost, NestedStored;
  }

  lemma SeedIsFit(cfg: Config, seed: Manifest, buckets: seq<Bucket>, services: seq<Text>)
    requires GoodBuckets(cfg, buckets)
    requires Enumerates(services, ServicesIn(buckets), TextLt)
    requires forall t :: t in services ==> t in seed.services
    ensures AllBuildable(seed, buckets)
    ensures SeedCurrent(seed, seed, ServicesIn(buckets))
  {
    hide KeyOf;
    forall b | b in buckets ensures Buildable(seed, b) {
      assert b.service in ServicesIn(buckets);
      assert GoodRecords(cfg, b.service, b.window, b.records);
    }
  }

  lemma NothingWritten(m: Manifest)
    ensures ManifestWrites(m, []) == 0
  {
  }

  lemma SameAsBefore(cfg: Config, m: Manifest, chunks: Chunks)
    ensures SameHistories(cfg, m, chunks, m, chunks)
  {
  }

  lemma HistoriesTransitive(cfg: Config, m: Manifest, chunks: Chunks, m': Manifest, chunks': Chunks, m'': Manifest,
    chunks'': Chunks)
    requires SameHistories(cfg, m, chunks, m', chunks') && SameHistories(cfg, m', chunks', m'', chunks'')
    ensures SameHistories(cfg, m, chunks, m'', chunks'')
  {
    hide History;
  }

  lemma IngestedAfterSame(cfg: Config, m: Manifest, chunks: Chunks, m': Manifest, chunks': Chunks, m'': Manifest,
    chunks'': Chunks, records: seq<LogRecord>)
    requires SameHistories(cfg, m, chunks, m', chunks') && Ingested(cfg, m', chunks', m'', chunks'', records)
    ensures Ingested(cfg, m, chunks, m'', chunks'', records)
  {
    hide History, ChunkBatch;
  }
}
