/** The invariant of concurrent ingestion, kept by every step. */
module Safety {
  import opened Core
  import opened Ordering
  import opened Chunking
  import opened Index
  import opened Sealing
  import opened Archive
  import opened Protocol

  // ---- The invariant ----

  /** The lock tables name exactly the calls whose phase says they hold the lock. */
  ghost predicate LocksOk(serviceLocks: map<Text, nat>, manifestLock: Option<nat>, batches: seq<Batch>) {
    && (forall t :: t in serviceLocks ==>
          serviceLocks[t] < |batches| && HoldsService(batches[serviceLocks[t]], t))
    && (forall b, t :: 0 <= b < |batches| && HoldsService(batches[b], t) ==>
          t in serviceLocks && serviceLocks[t] == b)
    && (manifestLock.Some? ==> manifestLock.value < |batches| && HoldsManifest(batches[manifestLock.value].phase))
    && (forall b :: 0 <= b < |batches| && HoldsManifest(batches[b].phase) ==> manifestLock == Some(b))
  }

  ghost predicate ShapeOk(cfg: Config, batch: Batch) {
    && batch.buckets == ChunkBatch(cfg, batch.records)
    && GoodBuckets(cfg, batch.buckets)
    && Enumerates(batch.services, ServicesIn(batch.buckets), TextLt)
    && (!Finished(batch.phase) ==> batch.services != [])
  }

  ghost predicate DraftOk(cfg: Config, m: Manifest, draft: Manifest, chunks: Chunks, indexes: Indexes) {
    OnlyAddsFresh(m, draft) && StoreOk(cfg, draft, chunks, indexes)
  }

  /** The draft adds only the call's own services, and spends one id on each. */
  ghost predicate AddsOnly(m: Manifest, draft: Manifest, services: seq<Text>) {
    && (forall t :: t in draft.services ==> t in m.services || t in services)
    && draft.nextServiceId - |draft.services| == m.nextServiceId - |m.services|
  }

  ghost predicate SeededOk(cfg: Config, m: Manifest, batch: Batch, seed: Manifest, built: Built) {
    && SeedCurrent(m, seed, ServicesIn(batch.buckets))
    && BuiltOk(cfg.libs, seed, batch.buckets, built)
  }

  ghost predicate UploadsOk(built: Built, started: nat, inFlight: set<nat>, failed: bool, chunks: Chunks, indexes: Indexes)
    requires |built.indexes| == |built.chunks|
  {
    && started <= |built.chunks|
    && |inFlight| <= MAX_CONCURRENT_UPLOADS
    && (forall i :: i in inFlight ==> i < started)
    && (!failed ==> forall i :: 0 <= i < started && i !in inFlight ==> IsStored(built, chunks, indexes, i))
  }

  /** What a call's private variables promise about the durable state it has not yet changed. */
  ghost predicate PhaseOk(cfg: Config, m: Manifest, chunks: Chunks, indexes: Indexes, batch: Batch) {
    match batch.phase
    case Locking(held) => held < |batch.services|
    case Registering(next, draft) =>
      && DraftOk(cfg, m, draft, chunks, indexes) && AddsOnly(m, draft, batch.services)
      && next < |batch.services|
      && (forall i :: 0 <= i < next ==> batch.services[i] in draft.services)
    case RegisterWriting(draft) =>
      && DraftOk(cfg, m, draft, chunks, indexes) && AddsOnly(m, draft, batch.services)
      && (forall t :: t in batch.services ==> t in draft.services)
    case Building(seed) => SeedCurrent(m, seed, ServicesIn(batch.buckets))
    case Uploading(seed, built, started, inFlight, failed) =>
      SeededOk(cfg, m, batch, seed, built) && UploadsOk(built, started, inFlight, failed, chunks, indexes)
    case WaitingToCommit(seed, built) => SeededOk(cfg, m, batch, seed, built) && AllStored(built, chunks, indexes)
    case CommitReading(seed, built) => SeededOk(cfg, m, batch, seed, built) && AllStored(built, chunks, indexes)
    case CommitWriting(seed, built, draft) =>
      && SeededOk(cfg, m, batch, seed, built) && AllStored(built, chunks, indexes)
      && built.heads.Keys <= seed.services.Keys
      && draft == Overlay(m, seed, built)
    case _ => true
  }

  ghost predicate BatchOk(cfg: Config, m: Manifest, chunks: Chunks, indexes: Indexes, batch: Batch) {
    ShapeOk(cfg, batch) && PhaseOk(cfg, m, chunks, indexes, batch)
  }

  ghost predicate BatchesOk(cfg: Config, m: Manifest, chunks: Chunks, indexes: Indexes, batches: seq<Batch>) {
    forall b :: 0 <= b < |batches| ==> BatchOk(cfg, m, chunks, indexes, batches[b])
  }

  ghost predicate Inv(cfg: Config, s: State) {
    && LocksOk(s.serviceLocks, s.manifestLock, s.batches)
    && StoreOk(cfg, Durable(cfg, s), s.chunks, s.indexes)
    && BatchesOk(cfg, Durable(cfg, s), s.chunks, s.indexes, s.batches)
  }

  lemma AtRestInv(cfg: Config, s: State)
    requires AtRest(cfg, s)
    ensures Inv(cfg, s)
  {
  }

  // ---- Locks ----

  lemma LocksAfterPhase(locks: map<Text, nat>, mlock: Option<nat>, batches: seq<Batch>, b: nat, batch: Batch)
    requires LocksOk(locks, mlock, batches) && b < |batches|
    requires forall t :: HoldsService(batch, t) == HoldsService(batches[b], t)
    requires HoldsManifest(batch.phase) == HoldsManifest(batches[b].phase)
    ensures LocksOk(locks, mlock, batches[b := batch])
  {
    hide HoldsService, HoldsManifest;
  }

  lemma LocksAfterManifestChange(locks: map<Text, nat>, mlock: Option<nat>, batches: seq<Batch>, b: nat, batch: Batch)
    requires LocksOk(locks, mlock, batches) && b < |batches|
    requires forall t :: HoldsService(batch, t) == HoldsService(batches[b], t)
    requires HoldsManifest(batch.phase) ==> mlock.None?
    requires !HoldsManifest(batch.phase) ==> HoldsManifest(batches[b].phase)
    ensures LocksOk(locks, if HoldsManifest(batch.phase) then Some(b) else None, batches[b := batch])
  {
    hide HoldsService, HoldsManifest;
  }

  lemma LocksAfterBegin(locks: map<Text, nat>, mlock: Option<nat>, batches: seq<Batch>, batch: Batch)
    requires LocksOk(locks, mlock, batches)
    requires forall t :: !HoldsService(batch, t)
    requires !HoldsManifest(batch.phase)
    ensures LocksOk(locks, mlock, batches + [batch])
  {
    hide HoldsService, HoldsManifest;
  }

  lemma LocksAfterTaking(locks: map<Text, nat>, mlock: Option<nat>, batches: seq<Batch>, b: nat, batch: Batch, t: Text)
    requires LocksOk(locks, mlock, batches) && b < |batches|
    requires t !in locks
    requires forall u :: HoldsService(batch, u) <==> HoldsService(batches[b], u) || u == t
    requires !HoldsManifest(batch.phase) && !HoldsManifest(batches[b].phase)
    ensures LocksOk(locks[t := b], mlock, batches[b := batch])
  {
    hide HoldsService, HoldsManifest;
  }

  lemma LocksAfterFinish(s: State, b: nat, p: Phase)
    requires LocksOk(s.serviceLocks, s.manifestLock, s.batches) && b < |s.batches| && Finished(p)
    ensures var s' := Finish(s, b, p);
      LocksOk(s'.serviceLocks, s'.manifestLock, s'.batches)
  {
    var s' := Finish(s, b, p);
    assert forall t :: !HoldsService(s'.batches[b], t);
    assert !HoldsManifest(p);
    hide HoldsService, HoldsManifest;
  }

  lemma LocksAreExclusive(s: State, b: nat, c: nat, t: Text)
    requires LocksOk(s.serviceLocks, s.manifestLock, s.batches)
    requires b < |s.batches| && c < |s.batches| && b != c
    ensures !(HoldsService(s.batches[b], t) && HoldsService(s.batches[c], t))
    ensures !(HoldsManifest(s.batches[b].phase) && HoldsManifest(s.batches[c].phase))
  {
    hide HoldsService, HoldsManifest;
    assert HoldsService(s.batches[b], t) ==> t in s.serviceLocks && s.serviceLocks[t] == b;
    assert HoldsService(s.batches[c], t) ==> t in s.serviceLocks && s.serviceLocks[t] == c;
  }

  // ---- What other calls do not notice ----

  /** The manifest changed only in services this call has not locked. */
  lemma ManifestChangeUnnoticed(cfg: Config, m: Manifest, m': Manifest, chunks: Chunks, indexes: Indexes, batch: Batch)
    requires BatchOk(cfg, m, chunks, indexes, batch)
    requires !HoldsManifest(batch.phase)
    requires m.services.Keys <= m'.services.Keys
    requires forall t :: HoldsService(batch, t) && t in m.services ==> m'.services[t] == m.services[t]
    ensures BatchOk(cfg, m', chunks, indexes, batch)
  {
    hide ShapeOk, BuiltOk, UploadsOk, AllStored;
    if !Finished(batch.phase) && !batch.phase.Locking? {
      assert forall t :: t in ServicesIn(batch.buckets) ==> HoldsService(batch, t) by {
        ShapeServices(cfg, batch);
      }
    }
  }

  lemma ShapeServices(cfg: Config, batch: Batch)
    requires ShapeOk(cfg, batch)
    ensures forall t :: t in ServicesIn(batch.buckets) <==> t in batch.services
  {
  }

  lemma OtherKeysStored(built: Built, chunks: Chunks, indexes: Indexes, r: ChunkRef, chunks': Chunks,
    indexes': Indexes, i: nat)
    requires |built.indexes| == |built.chunks| && i < |built.chunks|
    requires IsStored(built, chunks, indexes, i)
    requires built.chunks[i].Ref() != r
    requires OnlyAt(r, chunks, indexes, chunks', indexes')
    ensures IsStored(built, chunks', indexes', i)
  {
    var q := built.chunks[i].Ref();
    assert q in chunks - {r} && q in indexes - {r};
    assert (chunks' - {r})[q] == chunks[q] && (indexes' - {r})[q] == indexes[q];
  }

  lemma BuiltServices(cfg: Config, m: Manifest, batch: Batch, seed: Manifest, built: Built, i: nat)
    requires SeededOk(cfg, m, batch, seed, built) && i < |built.chunks|
    ensures built.chunks[i].header.service in ServicesIn(batch.buckets)
  {
    hide SequencesRise, ContinuesChain, OpenChunk, IndexOf;
    assert ArchivesAt(cfg.libs, seed, batch.buckets, built, i);
    assert batch.buckets[i] in batch.buckets;
  }

  /** An archive was stored under an unreferenced key of a service this call has not locked. */
  lemma UploadUnnoticed(cfg: Config, m: Manifest, chunks: Chunks, indexes: Indexes, r: ChunkRef,
    chunks': Chunks, indexes': Indexes, batch: Batch)
    requires BatchOk(cfg, m, chunks, indexes, batch)
    requires !HoldsService(batch, r.service)
    requires r.service in m.services && Unreferenced(m, r)
    requires OnlyAt(r, chunks, indexes, chunks', indexes')
    ensures BatchOk(cfg, m, chunks', indexes', batch)
  {
    hide BuiltOk, IsStored, StoreOk, OnlyAt, ShapeOk, SeedCurrent, Unreferenced;
    ShapeServices(cfg, batch);
    match batch.phase {
      case Registering(_, draft) => DraftUnnoticed(cfg, m, draft, r, chunks, indexes, chunks', indexes');
      case RegisterWriting(draft) => DraftUnnoticed(cfg, m, draft, r, chunks, indexes, chunks', indexes');
      case Uploading(seed, built, started, inFlight, failed) =>
        BuiltLengths(cfg, seed, batch.buckets, built);
        forall i | 0 <= i < started && i !in inFlight && !failed ensures IsStored(built, chunks', indexes', i) {
          BuiltServices(cfg, m, batch, seed, built, i);
          OtherKeysStored(built, chunks, indexes, r, chunks', indexes', i);
        }
      case WaitingToCommit(seed, built) => StoredUnnoticed(cfg, m, chunks, indexes, r, chunks', indexes', batch,
        seed, built);
      case CommitReading(seed, built) => StoredUnnoticed(cfg, m, chunks, indexes, r, chunks', indexes', batch, seed, built);
      case CommitWriting(seed, built, _) => StoredUnnoticed(cfg, m, chunks, indexes, r, chunks', indexes', batch,
        seed, built);
      case _ =>
    }
  }

  lemma DraftUnnoticed(cfg: Config, m: Manifest, draft: Manifest, r: ChunkRef,
    chunks: Chunks, indexes: Indexes, chunks': Chunks, indexes': Indexes)
    requires DraftOk(cfg, m, draft, chunks, indexes)
    requires r.service in m.services && Unreferenced(m, r)
    requires OnlyAt(r, chunks, indexes, chunks', indexes')
    ensures DraftOk(cfg, m, draft, chunks', indexes')
  {
    hide StoreOk, OnlyAt;
    StoringUnreferenced(cfg, draft, r, chunks, indexes, chunks', indexes');
  }

  lemma BuiltLengths(cfg: Config, seed: Manifest, buckets: seq<Bucket>, built: Built)
    requires BuiltOk(cfg.libs, seed, buckets, built)
    ensures |built.indexes| == |built.chunks| == |buckets|
    ensures built.heads.Keys == ServicesIn(buckets)
  {
  }

  lemma StoredUnnoticed(cfg: Config, m: Manifest, chunks: Chunks, indexes: Indexes, r: ChunkRef,
    chunks': Chunks, indexes': Indexes, batch: Batch, seed: Manifest, built: Built)
    requires SeededOk(cfg, m, batch, seed, built)
    requires AllStored(built, chunks, indexes)
    requires forall c :: c in batch.services <==> c in ServicesIn(batch.buckets)
    requires r.service !in batch.services
    requires OnlyAt(r, chunks, indexes, chunks', indexes')
    ensures AllStored(built, chunks', indexes')
  {
    hide IsStored, OnlyAt;
    BuiltLengths(cfg, seed, batch.buckets, built);
    hide SeededOk;
    forall i | 0 <= i < |built.chunks| ensures IsStored(built, chunks', indexes', i) {
      BuiltServices(cfg, m, batch, seed, built, i);
      OtherKeysStored(built, chunks, indexes, r, chunks', indexes', i);
    }
  }

  // ---- Each step ----

  /** A step of call `b` that leaves the backend alone. */
  lemma PrivateStep(cfg: Config, s: State, s': State, b: nat, batch: Batch)
    requires Inv(cfg, s) && b < |s.batches|
    requires s'.manifest == s.manifest && s'.chunks == s.chunks && s'.indexes == s.indexes
    requires s'.batches == s.batches[b := batch]
    requires LocksOk(s'.serviceLocks, s'.manifestLock, s'.batches)
    requires BatchOk(cfg, Durable(cfg, s), s.chunks, s.indexes, batch)
    ensures Inv(cfg, s')
  {
    hide BatchOk, StoreOk, LocksOk;
  }

  lemma FinishStep(cfg: Config, s: State, b: nat, p: Phase)
    requires Inv(cfg, s) && b < |s.batches|
    requires Finished(p)
    ensures Inv(cfg, Finish(s, b, p))
  {
    hide StoreOk, LocksOk, ChunkBatch, GoodBuckets, Enumerates;
    LocksAfterFinish(s, b, p);
    assert BatchOk(cfg, Durable(cfg, s), s.chunks, s.indexes, s.batches[b]);
    PrivateStep(cfg, s, Finish(s, b, p), b, s.batches[b].(phase := p));
  }

  lemma BeginStep(cfg: Config, s: State, records: seq<LogRecord>)
    requires Inv(cfg, s) && ValidRecords(cfg, records)
    ensures Inv(cfg, s.(batches := s.batches + [NewBatch(cfg, records)]))
  {
    hide StoreOk, BatchOk, LocksOk, ChunkBatch, ServiceList;
    var batch := NewBatch(cfg, records);
    NewBatchOk(cfg, records, Durable(cfg, s), s.chunks, s.indexes);
    LocksAfterBegin(s.serviceLocks, s.manifestLock, s.batches, batch);
  }

  lemma NewBatchOk(cfg: Config, records: seq<LogRecord>, m: Manifest, chunks: Chunks, indexes: Indexes)
    requires ValidRecords(cfg, records)
    ensures BatchOk(cfg, m, chunks, indexes, NewBatch(cfg, records))
  {
    hide GoodBuckets, ChunkBatch;
    var buckets := ChunkBatch(cfg, records);
    BatchShape(cfg, records);
    if buckets != [] {
      assert buckets[0] in buckets;
      assert buckets[0].service in ServicesIn(buckets);
    }
  }

  lemma TakeServiceLockKeeps(cfg: Config, s: State, b: nat)
    requires Inv(cfg, s)
    requires b < |s.batches| && s.batches[b].phase.Locking?
    requires s.batches[b].phase.held < |s.batches[b].services|
    requires s.batches[b].services[s.batches[b].phase.held] !in s.serviceLocks
    ensures Inv(cfg, TakeServiceLockStep(s, b))
  {
    hide StoreOk, ChunkBatch, GoodBuckets, Enumerates, LocksOk;
    var s' := TakeServiceLockStep(s, b);
    var services, held := s.batches[b].services, s.batches[b].phase.held;
    assert BatchOk(cfg, Durable(cfg, s), s.chunks, s.indexes, s.batches[b]);
    assert services[..held + 1] == services[..held] + [services[held]];
    assert held + 1 == |services| ==> services[..held + 1] == services;
    LocksAfterTaking(s.serviceLocks, s.manifestLock, s.batches, b, s'.batches[b], services[held]);
    PrivateStep(cfg, s, s', b, s'.batches[b]);
  }

  lemma ReadSeedKeeps(cfg: Config, s: State, b: nat)
    requires Inv(cfg, s)
    requires b < |s.batches| && s.batches[b].phase.SeedReading?
    ensures Inv(cfg, ReadSeedStep(cfg, s, b))
  {
    hide StoreOk, LocksOk, ChunkBatch, GoodBuckets;
    var s' := ReadSeedStep(cfg, s, b);
    assert BatchOk(cfg, Durable(cfg, s), s.chunks, s.indexes, s.batches[b]);
    ShapeServices(cfg, s.batches[b]);
    LocksAfterPhase(s.serviceLocks, s.manifestLock, s.batches, b, s'.batches[b]);
    PrivateStep(cfg, s, s', b, s'.batches[b]);
  }

  lemma LockToRegisterKeeps(cfg: Config, s: State, b: nat)
    requires Inv(cfg, s)
    requires b < |s.batches| && s.batches[b].phase.WaitingToRegister? && s.manifestLock.None?
    ensures Inv(cfg, SetPhase(s, b, RegisterReading).(manifestLock := Some(b)))
  {
    hide StoreOk, LocksOk, ChunkBatch, GoodBuckets, Enumerates;
    var s' := SetPhase(s, b, RegisterReading).(manifestLock := Some(b));
    assert BatchOk(cfg, Durable(cfg, s), s.chunks, s.indexes, s.batches[b]);
    LocksAfterManifestChange(s.serviceLocks, s.manifestLock, s.batches, b, s'.batches[b]);
    PrivateStep(cfg, s, s', b, s'.batches[b]);
  }

  lemma ReadToRegisterKeeps(cfg: Config, s: State, b: nat)
    requires Inv(cfg, s)
    requires b < |s.batches| && s.batches[b].phase.RegisterReading?
    ensures Inv(cfg, SetPhase(s, b, Registering(0, Durable(cfg, s))))
  {
    hide StoreOk, LocksOk, ChunkBatch, GoodBuckets, Enumerates, AddsOnly;
    var s' := SetPhase(s, b, Registering(0, Durable(cfg, s)));
    assert BatchOk(cfg, Durable(cfg, s), s.chunks, s.indexes, s.batches[b]);
    LocksAfterPhase(s.serviceLocks, s.manifestLock, s.batches, b, s'.batches[b]);
    NothingAdded(Durable(cfg, s), s.batches[b].services);
    PrivateStep(cfg, s, s', b, s'.batches[b]);
  }

  lemma LockToCommitKeeps(cfg: Config, s: State, b: nat, seed: Manifest, built: Built)
    requires Inv(cfg, s)
    requires b < |s.batches| && s.batches[b].phase == WaitingToCommit(seed, built) && s.manifestLock.None?
    ensures Inv(cfg, SetPhase(s, b, CommitReading(seed, built)).(manifestLock := Some(b)))
  {
    hide StoreOk, LocksOk, ChunkBatch, GoodBuckets, Enumerates, SeedCurrent, IsStored;
    var s' := SetPhase(s, b, CommitReading(seed, built)).(manifestLock := Some(b));
    assert BatchOk(cfg, Durable(cfg, s), s.chunks, s.indexes, s.batches[b]);
    BuiltLengths(cfg, seed, s.batches[b].buckets, built);
    hide BuiltOk;
    LocksAfterManifestChange(s.serviceLocks, s.manifestLock, s.batches, b, s'.batches[b]);
    PrivateStep(cfg, s, s', b, s'.batches[b]);
  }

  lemma ReadToCommitKeeps(cfg: Config, s: State, b: nat, seed: Manifest, built: Built)
    requires Inv(cfg, s)
    requires b < |s.batches| && s.batches[b].phase == CommitReading(seed, built)
    requires built.heads.Keys <= seed.services.Keys
    ensures Inv(cfg, SetPhase(s, b, CommitWriting(seed, built, Overlay(Durable(cfg, s), seed, built))))
  {
    hide StoreOk, LocksOk, ChunkBatch, GoodBuckets, Enumerates, SeedCurrent, IsStored, Overlay;
    var s' := SetPhase(s, b, CommitWriting(seed, built, Overlay(Durable(cfg, s), seed, built)));
    assert BatchOk(cfg, Durable(cfg, s), s.chunks, s.indexes, s.batches[b]);
    BuiltLengths(cfg, seed, s.batches[b].buckets, built);
    hide BuiltOk;
    LocksAfterPhase(s.serviceLocks, s.manifestLock, s.batches, b, s'.batches[b]);
    PrivateStep(cfg, s, s', b, s'.batches[b]);
  }

  lemma RegisterServiceKeeps(cfg: Config, s: State, b: nat)
    requires Inv(cfg, s)
    requires b < |s.batches| && s.batches[b].phase.Registering?
    requires s.batches[b].phase.next < |s.batches[b].services|
    ensures Inv(cfg, RegisterServiceStep(cfg, s, b))
  {
    hide StoreOk, LocksOk, ChunkBatch, GoodBuckets, Enumerates, AddsOnly;
    var Registering(next, draft) := s.batches[b].phase;
    var services := s.batches[b].services;
    var t, m := services[next], Durable(cfg, s);
    assert BatchOk(cfg, m, s.chunks, s.indexes, s.batches[b]);
    if t !in draft.services && Listed(cfg, s, t) {
      FinishStep(cfg, s, b, Failed(Refused));
    } else if t !in draft.services && draft.nextServiceId + 1 >= U32_LIMIT {
      FinishStep(cfg, s, b, Failed(IdsExhausted));
    } else {
      var s' := RegisterServiceStep(cfg, s, b);
      RoundKeepsBatch(cfg, m, s.chunks, s.indexes, s.batches[b]);
      hide BatchOk, RegisterOne;
      LocksAfterPhase(s.serviceLocks, s.manifestLock, s.batches, b, s'.batches[b]);
      PrivateStep(cfg, s, s', b, s'.batches[b]);
    }
  }

  /** One successful round of the registration loop. */
  lemma RoundKeepsBatch(cfg: Config, m: Manifest, chunks: Chunks, indexes: Indexes, batch: Batch)
    requires BatchOk(cfg, m, chunks, indexes, batch) && batch.phase.Registering?
    requires batch.phase.next < |batch.services|
    requires batch.services[batch.phase.next] !in batch.phase.draft.services ==>
      batch.phase.draft.nextServiceId + 1 < U32_LIMIT
    ensures var draft' := RegisterOne(batch.phase.draft, batch.services[batch.phase.next]);
      BatchOk(cfg, m, chunks, indexes, batch.(phase :=
        if batch.phase.next + 1 == |batch.services| then RegisterWriting(draft')
        else Registering(batch.phase.next + 1, draft')))
  {
    hide StoreOk, ChunkBatch, GoodBuckets, Enumerates, AddsOnly, OnlyAddsFresh;
    var Registering(next, draft) := batch.phase;
    var t := batch.services[next];
    RegisteringKeepsStore(cfg, draft, t, chunks, indexes);
    RegisteringAddsFresh(m, draft, t);
    RegisteringAddsOnly(m, draft, batch.services, t);
  }

  lemma RegisteringAddsOnly(m: Manifest, draft: Manifest, services: seq<Text>, t: Text)
    requires AddsOnly(m, draft, services) && t in services
    ensures AddsOnly(m, RegisterOne(draft, t), services)
  {
  }

  lemma NothingAdded(m: Manifest, services: seq<Text>)
    ensures AddsOnly(m, m, services)
  {
  }

  /** Call `b` replaces the manifest, which it alone has locked, changing only services it holds. */
  lemma ManifestStep(cfg: Config, s: State, s': State, b: nat, batch: Batch, m': Manifest)
    requires Inv(cfg, s) && b < |s.batches|
    requires HoldsManifest(s.batches[b].phase)
    requires s'.manifest == Some(m') && s'.chunks == s.chunks && s'.indexes == s.indexes
    requires s'.batches == s.batches[b := batch]
    requires LocksOk(s'.serviceLocks, s'.manifestLock, s'.batches)
    requires StoreOk(cfg, m', s.chunks, s.indexes)
    requires Durable(cfg, s).services.Keys <= m'.services.Keys
    requires forall t :: t in Durable(cfg, s).services && !HoldsService(s.batches[b], t) ==>
      m'.services[t] == Durable(cfg, s).services[t]
    requires BatchOk(cfg, m', s.chunks, s.indexes, batch)
    ensures Inv(cfg, s')
  {
    hide StoreOk, BatchOk, HoldsService, HoldsManifest;
    var m := Durable(cfg, s);
    forall c | 0 <= c < |s.batches| ensures BatchOk(cfg, m', s.chunks, s.indexes, s'.batches[c]) {
      if c != b {
        assert BatchOk(cfg, m, s.chunks, s.indexes, s.batches[c]);
        forall t | HoldsService(s.batches[c], t) && t in m.services ensures m'.services[t] == m.services[t] {
          LocksAreExclusive(s, b, c, t);
        }
        LocksAreExclusive(s, b, c, []);
        ManifestChangeUnnoticed(cfg, m, m', s.chunks, s.indexes, s.batches[c]);
      }
    }
  }

  lemma WriteRegistrationKeeps(cfg: Config, s: State, b: nat, written: WriteOutcome)
    requires Inv(cfg, s)
    requires b < |s.batches| && s.batches[b].phase.RegisterWriting?
    ensures Inv(cfg, WriteRegistrationStep(s, b, written))
  {
    hide StoreOk, LocksOk, ChunkBatch, GoodBuckets, AddsOnly;
    var s', draft := WriteRegistrationStep(s, b, written), s.batches[b].phase.draft;
    assert BatchOk(cfg, Durable(cfg, s), s.chunks, s.indexes, s.batches[b]);
    if written.WriteDone? {
      LocksAfterManifestChange(s.serviceLocks, s.manifestLock, s.batches, b, s'.batches[b]);
      ManifestStep(cfg, s, s', b, s'.batches[b], draft);
    } else {
      LocksAfterFinish(s, b, Failed(Faulted));
      if written.landed {
        ManifestStep(cfg, s, s', b, s'.batches[b], draft);
      } else {
        FinishStep(cfg, s, b, Failed(Faulted));
      }
    }
  }

  lemma SeedBuildable(cfg: Config, m: Manifest, batch: Batch, seed: Manifest)
    requires ShapeOk(cfg, batch) && SeedCurrent(m, seed, ServicesIn(batch.buckets))
    ensures AllBuildable(seed, batch.buckets)
  {
    hide ChunkBatch, Enumerates, KeyOf;
    forall b | b in batch.buckets ensures Buildable(seed, b) {
      assert b.service in ServicesIn(batch.buckets);
      assert GoodRecords(cfg, b.service, b.window, b.records);
    }
  }

  lemma BuildKeeps(cfg: Config, s: State, b: nat, salts: seq<Salt>)
    requires cfg.libs.Lawful()
    requires Inv(cfg, s)
    requires b < |s.batches| && s.batches[b].phase.Building?
    requires |salts| == |s.batches[b].buckets| && AllBuildable(s.batches[b].phase.seed, s.batches[b].buckets)
    ensures Inv(cfg, BuildStep(cfg, s, b, salts))
  {
    hide StoreOk, LocksOk, ChunkBatch, GoodBuckets, Enumerates, BuildAll, BuiltOk, SeedCurrent, Libs.Lawful;
    var s' := BuildStep(cfg, s, b, salts);
    assert BatchOk(cfg, Durable(cfg, s), s.chunks, s.indexes, s.batches[b]);
    BuildAllOk(cfg.libs, s.batches[b].phase.seed, s.batches[b].buckets, salts);
    BuiltLengths(cfg, s.batches[b].phase.seed, s.batches[b].buckets, s'.batches[b].phase.built);
    LocksAfterPhase(s.serviceLocks, s.manifestLock, s.batches, b, s'.batches[b]);
    PrivateStep(cfg, s, s', b, s'.batches[b]);
  }

  lemma StartUploadKeeps(cfg: Config, s: State, b: nat)
    requires Inv(cfg, s)
    requires b < |s.batches| && s.batches[b].phase.Uploading?
    requires s.batches[b].phase.started < |s.batches[b].phase.built.chunks|
    requires |s.batches[b].phase.inFlight| < MAX_CONCURRENT_UPLOADS
    ensures Inv(cfg, StartUploadStep(s, b))
  {
    hide StoreOk, LocksOk, ChunkBatch, GoodBuckets, Enumerates, BuiltOk, SeedCurrent, IsStored;
    var s' := StartUploadStep(s, b);
    assert BatchOk(cfg, Durable(cfg, s), s.chunks, s.indexes, s.batches[b]);
    LocksAfterPhase(s.serviceLocks, s.manifestLock, s.batches, b, s'.batches[b]);
    PrivateStep(cfg, s, s', b, s'.batches[b]);
  }

  /** An upload targets a key its service's manifest entry has not reached. */
  lemma UploadIsUnreferenced(cfg: Config, m: Manifest, batch: Batch, seed: Manifest, built: Built, i: nat)
    requires SeededOk(cfg, m, batch, seed, built) && i < |built.chunks|
    ensures built.chunks[i].header.service in ServicesIn(batch.buckets)
    ensures built.chunks[i].header.service in m.services
    ensures Unreferenced(m, built.chunks[i].Ref())
  {
    hide ContinuesChain, OpenChunk, IndexOf, ArchivesAt;
    BuiltServices(cfg, m, batch, seed, built, i);
    assert built.chunks[i] in built.chunks;
  }

  lemma OwnUploadStored(cfg: Config, seed: Manifest, buckets: seq<Bucket>, p: Phase, i: nat, put: PutOutcome,
    chunks: Chunks, indexes: Indexes, chunks': Chunks, indexes': Indexes)
    requires p.Uploading? && BuiltOk(cfg.libs, seed, buckets, p.built)
    requires UploadsOk(p.built, p.started, p.inFlight, p.failed, chunks, indexes)
    requires i in p.inFlight && i < |p.built.chunks|
    requires OnlyAt(p.built.chunks[i].Ref(), chunks, indexes, chunks', indexes')
    requires put.PutDone? ==> IsStored(p.built, chunks', indexes', i)
    ensures UploadsOk(p.built, p.started, p.inFlight - {i}, p.failed || put.PutFailed?, chunks', indexes')
  {
    hide ContinuesChain, ArchivesAt, OnlyAt, IsStored;
    if !p.failed && put.PutDone? {
      forall j | 0 <= j < p.started && j !in p.inFlight - {i} ensures IsStored(p.built, chunks', indexes', j) {
        if j != i {
          assert p.built.chunks[j].Ref() != p.built.chunks[i].Ref();
          OtherKeysStored(p.built, chunks, indexes, p.built.chunks[i].Ref(), chunks', indexes', j);
        }
      }
    }
  }

  lemma FinishUploadKeeps(cfg: Config, s: State, b: nat, i: nat, put: PutOutcome)
    requires Inv(cfg, s)
    requires b < |s.batches| && s.batches[b].phase.Uploading? && i in s.batches[b].phase.inFlight
    requires i < |s.batches[b].phase.built.chunks| && i < |s.batches[b].phase.built.indexes|
    ensures Inv(cfg, FinishUploadStep(s, b, i, put))
  {
    hide StoreOk, LocksOk, ChunkBatch, GoodBuckets, Enumerates, BuiltOk, SeedCurrent, OnlyAt, UploadsOk, Unreferenced;
    var s', m, p := FinishUploadStep(s, b, i, put), Durable(cfg, s), s.batches[b].phase;
    var r := p.built.chunks[i].Ref();
    assert BatchOk(cfg, m, s.chunks, s.indexes, s.batches[b]);
    BuiltLengths(cfg, p.seed, s.batches[b].buckets, p.built);
    UploadIsUnreferenced(cfg, m, s.batches[b], p.seed, p.built, i);
    LandsOnlyAt(s, b, i, put);
    StoringUnreferenced(cfg, m, r, s.chunks, s.indexes, s'.chunks, s'.indexes);
    OwnUploadStored(cfg, p.seed, s.batches[b].buckets, p, i, put, s.chunks, s.indexes, s'.chunks, s'.indexes);
    LocksAfterPhase(s.serviceLocks, s.manifestLock, s.batches, b, s'.batches[b]);
    ShapeServicesHeld(cfg, s.batches[b], r.service);
    UploadStep(cfg, s, s', b, s'.batches[b], r);
  }

  lemma ShapeServicesHeld(cfg: Config, batch: Batch, t: Text)
    requires ShapeOk(cfg, batch) && batch.phase.Uploading? && t in ServicesIn(batch.buckets)
    ensures HoldsService(batch, t)
  {
  }

  lemma LandsOnlyAt(s: State, b: nat, i: nat, put: PutOutcome)
    requires b < |s.batches| && s.batches[b].phase.Uploading?
    requires i < |s.batches[b].phase.built.chunks| == |s.batches[b].phase.built.indexes|
    ensures var s' := FinishUploadStep(s, b, i, put);
      && OnlyAt(s.batches[b].phase.built.chunks[i].Ref(), s.chunks, s.indexes, s'.chunks, s'.indexes)
      && (put.PutDone? ==> IsStored(s.batches[b].phase.built, s'.chunks, s'.indexes, i))
  {
  }

  lemma UploadStep(cfg: Config, s: State, s': State, b: nat, batch: Batch, r: ChunkRef)
    requires Inv(cfg, s) && b < |s.batches|
    requires HoldsService(s.batches[b], r.service)
    requires r.service in Durable(cfg, s).services && Unreferenced(Durable(cfg, s), r)
    requires OnlyAt(r, s.chunks, s.indexes, s'.chunks, s'.indexes)
    requires s'.manifest == s.manifest
    requires s'.batches == s.batches[b := batch]
    requires LocksOk(s'.serviceLocks, s'.manifestLock, s'.batches)
    requires StoreOk(cfg, Durable(cfg, s), s'.chunks, s'.indexes)
    requires BatchOk(cfg, Durable(cfg, s), s'.chunks, s'.indexes, batch)
    ensures Inv(cfg, s')
  {
    hide StoreOk, BatchOk, HoldsService, HoldsManifest, OnlyAt, Unreferenced;
    var m := Durable(cfg, s);
    forall c | 0 <= c < |s.batches| ensures BatchOk(cfg, m, s'.chunks, s'.indexes, s'.batches[c]) {
      if c != b {
        assert BatchOk(cfg, m, s.chunks, s.indexes, s.batches[c]);
        LocksAreExclusive(s, b, c, r.service);
        UploadUnnoticed(cfg, m, s.chunks, s.indexes, r, s'.chunks, s'.indexes, s.batches[c]);
      }
    }
  }

  lemma CollectUploadsKeeps(cfg: Config, s: State, b: nat)
    requires Inv(cfg, s)
    requires b < |s.batches| && s.batches[b].phase.Uploading?
    requires s.batches[b].phase.started == |s.batches[b].phase.built.chunks| && s.batches[b].phase.inFlight == {}
    ensures Inv(cfg, CollectUploadsStep(s, b))
  {
    hide StoreOk, LocksOk, ChunkBatch, GoodBuckets, Enumerates, BuiltOk, SeedCurrent, IsStored;
    var s' := CollectUploadsStep(s, b);
    assert BatchOk(cfg, Durable(cfg, s), s.chunks, s.indexes, s.batches[b]);
    if s.batches[b].phase.failed {
      FinishStep(cfg, s, b, Failed(Faulted));
    } else {
      LocksAfterPhase(s.serviceLocks, s.manifestLock, s.batches, b, s'.batches[b]);
      PrivateStep(cfg, s, s', b, s'.batches[b]);
    }
  }

  /** What a call is about to write: its services advanced by its buckets, all else as it stands. */
  lemma CommitDraft(cfg: Config, m: Manifest, chunks: Chunks, indexes: Indexes, batch: Batch)
    requires StoreOk(cfg, m, chunks, indexes)
    requires BatchOk(cfg, m, chunks, indexes, batch) && batch.phase.CommitWriting?
    ensures StoreOk(cfg, batch.phase.draft, chunks, indexes)
    ensures batch.phase.draft.services.Keys == m.services.Keys
    ensures forall t :: t in m.services && t !in batch.services ==> batch.phase.draft.services[t] == m.services[t]
    ensures forall t :: Appends(cfg.libs, m, batch.phase.draft, chunks, batch.buckets, t)
  {
    hide StoreOk, ChunkBatch, BuiltOk, AllStored, GoodBuckets, Enumerates;
    var p := batch.phase;
    BuiltLengths(cfg, p.seed, batch.buckets, p.built);
    CommitKeepsStore(cfg, m, p.seed, batch.buckets, p.built, chunks, indexes);
    OverlayKeepsIds(m, p.seed, p.built);
    ShapeServices(cfg, batch);
  }

  lemma WriteCommitKeeps(cfg: Config, s: State, b: nat, written: WriteOutcome)
    requires Inv(cfg, s)
    requires b < |s.batches| && s.batches[b].phase.CommitWriting?
    ensures Inv(cfg, WriteCommitStep(s, b, written))
  {
    hide StoreOk, LocksOk, ChunkBatch, PhaseOk, Enumerates, GoodBuckets, Appends;
    var s', m, p := WriteCommitStep(s, b, written), Durable(cfg, s), s.batches[b].phase;
    assert BatchOk(cfg, m, s.chunks, s.indexes, s.batches[b]);
    if written.WriteFailed? && !written.landed {
      FinishStep(cfg, s, b, Failed(Faulted));
    } else {
      var q := if written.WriteDone? then Acked(p.seed, p.built) else Failed(Faulted);
      CommitDraft(cfg, m, s.chunks, s.indexes, s.batches[b]);
      LocksAfterFinish(s, b, q);
      FinishedOk(cfg, p.draft, s.chunks, s.indexes, s.batches[b], q);
      ManifestStep(cfg, s, s', b, s'.batches[b], p.draft);
    }
  }

  lemma FinishedOk(cfg: Config, m: Manifest, chunks: Chunks, indexes: Indexes, batch: Batch, p: Phase)
    requires ShapeOk(cfg, batch) && Finished(p)
    ensures BatchOk(cfg, m, chunks, indexes, batch.(phase := p))
  {
    hide ChunkBatch, Enumerates, GoodBuckets;
  }

  /** Every step of every call keeps the invariant. */
  lemma StepKeepsInv(cfg: Config, s: State, step: Step)
    requires cfg.libs.Lawful()
    requires Inv(cfg, s) && Enabled(cfg, s, step)
    ensures Inv(cfg, Apply(cfg, s, step))
  {
    hide Inv, Libs.Lawful;
    match step {
      case Begin(records) => BeginStep(cfg, s, records);
      case TakeServiceLock(b) => TakeServiceLockKeeps(cfg, s, b);
      case ReadSeed(b) => ReadSeedKeeps(cfg, s, b);
      case LockToRegister(b) => LockToRegisterKeeps(cfg, s, b);
      case ReadToRegister(b) => ReadToRegisterKeeps(cfg, s, b);
      case RegisterService(b) => RegisterServiceKeeps(cfg, s, b);
      case WriteRegistration(b, written) => WriteRegistrationKeeps(cfg, s, b, written);
      case Build(b, salts) => BuildKeeps(cfg, s, b, salts);
      case StartUpload(b) => StartUploadKeeps(cfg, s, b);
      case FinishUpload(b, i, put) => FinishUploadKeeps(cfg, s, b, i, put);
      case CollectUploads(b) => CollectUploadsKeeps(cfg, s, b);
      case LockToCommit(b) => LockToCommitKeeps(cfg, s, b, s.batches[b].phase.seed, s.batches[b].phase.built);
      case ReadToCommit(b) => ReadToCommitKeeps(cfg, s, b, s.batches[b].phase.seed, s.batches[b].phase.built);
      case WriteCommit(b, written) => WriteCommitKeeps(cfg, s, b, written);
      case Fault(b) => FinishStep(cfg, s, b, Failed(Faulted));
      case Abandon(b) => FinishStep(cfg, s, b, Abandoned);
    }
  }
}
