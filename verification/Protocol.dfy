/** Concurrent ingestion as a state machine: any number of `ingest_batch` runs, each cut at its awaits,
    with failure or abandonment possible at every one of them. */
module Protocol {
  import opened Core
  import opened Ordering
  import opened Windows
  import opened Chunking
  import opened Sealing
  import opened Archive

  const MAX_CONCURRENT_UPLOADS := 8

  datatype Failure =
    | Refused        // listing finds chunks for a service without a manifest entry
    | IdsExhausted   // `next_service_id` would leave 32 bits
    | Faulted        // a library or the backend returned an error

  /** Where one `ingest_batch` call stands, with its private variables. */
  datatype Phase =
    | Locking(held: nat)
    | SeedReading
    | WaitingToRegister
    | RegisterReading
    | Registering(next: nat, draft: Manifest)
    | RegisterWriting(draft: Manifest)
    | Building(seed: Manifest)
    | Uploading(seed: Manifest, built: Built, started: nat, inFlight: set<nat>, failed: bool)
    | WaitingToCommit(seed: Manifest, built: Built)
    | CommitReading(seed: Manifest, built: Built)
    | CommitWriting(seed: Manifest, built: Built, draft: Manifest)
    | Acked(seed: Manifest, built: Built)
    | Failed(reason: Failure)
    | Abandoned

  datatype Batch = Batch(records: seq<LogRecord>, buckets: seq<Bucket>, services: seq<Text>, phase: Phase)

  datatype State = State(
    // Durable: the backend.
    manifest: Option<Manifest>,
    chunks: Chunks,
    indexes: Indexes,
    // In memory: the locks and who holds them, and the calls so far.
    serviceLocks: map<Text, nat>,
    manifestLock: Option<nat>,
    batches: seq<Batch>,
    // Auxiliary: the calls whose final manifest write became durable, in that order.
    commits: seq<nat>)

  datatype Step =
    | Begin(records: seq<LogRecord>)
    | TakeServiceLock(b: nat)
    | ReadSeed(b: nat)
    | LockToRegister(b: nat)
    | ReadToRegister(b: nat)
    | RegisterService(b: nat)
    | WriteRegistration(b: nat, written: WriteOutcome)
    | Build(b: nat, salts: seq<Salt>)
    | StartUpload(b: nat)
    | FinishUpload(b: nat, i: nat, put: PutOutcome)
    | CollectUploads(b: nat)
    | LockToCommit(b: nat)
    | ReadToCommit(b: nat)
    | WriteCommit(b: nat, written: WriteOutcome)
    | Fault(b: nat)
    | Abandon(b: nat)

  /** `read_manifest_or_default`. */
  function Durable(cfg: Config, s: State): Manifest {
    match s.manifest
    case Some(m) => m
    case None => FreshManifest(cfg.bucket)
  }

  predicate Finished(p: Phase) {
    p.Acked? || p.Failed? || p.Abandoned?
  }

  predicate HoldsService(batch: Batch, t: Text) {
    if Finished(batch.phase) then false
    else if batch.phase.Locking? then
      if batch.phase.held <= |batch.services| then t in batch.services[..batch.phase.held] else false
    else t in batch.services
  }

  predicate HoldsManifest(p: Phase) {
    p.RegisterReading? || p.Registering? || p.RegisterWriting? || p.CommitReading? || p.CommitWriting?
  }

  ghost function ServiceList(buckets: seq<Bucket>): (services: seq<Text>)
    ensures Enumerates(services, ServicesIn(buckets), TextLt)
  {
    TextLtStrictTotal();
    Sorted(ServicesIn(buckets), TextLt)
  }

  /** A call enters: an empty batch returns at once, any other starts taking locks. */
  ghost function NewBatch(cfg: Config, records: seq<LogRecord>): Batch {
    var buckets := ChunkBatch(cfg, records);
    Batch(records, buckets, ServiceList(buckets),
      if buckets == [] then Acked(FreshManifest(cfg.bucket), NOTHING_BUILT) else Locking(0))
  }

  /** The clock hands out instants that are dates. */
  ghost predicate ValidRecords(cfg: Config, records: seq<LogRecord>) {
    forall r :: r in records ==> Dated(cfg.libs, r.timestamp)
  }

  lemma BatchShape(cfg: Config, records: seq<LogRecord>)
    requires ValidRecords(cfg, records)
    ensures GoodBuckets(cfg, ChunkBatch(cfg, records))
    ensures ChunkBatch(cfg, records) == [] <==> records == []
  {
    hide KeyOf, ChunkBatch;
    var buckets := ChunkBatch(cfg, records);
    BucketsAreWellFormed(cfg, records);
    forall b | b in buckets ensures GoodRecords(cfg, b.service, b.window, b.records) {
      var i :| 0 <= i < |buckets| && buckets[i] == b;
      assert forall r :: r in b.records ==> r in records && InBucket(cfg, r, b);
    }
  }

  function SetPhase(s: State, b: nat, p: Phase): State
    requires b < |s.batches|
  {
    s.(batches := s.batches[b := s.batches[b].(phase := p)])
  }

  /** The call returns or is dropped: its guards are dropped with it. */
  function Finish(s: State, b: nat, p: Phase): State
    requires b < |s.batches|
  {
    SetPhase(s, b, p).(
      serviceLocks := map t | t in s.serviceLocks && s.serviceLocks[t] != b :: s.serviceLocks[t],
      manifestLock := if s.manifestLock == Some(b) then None else s.manifestLock)
  }

  lemma MovesTo(s: State, b: nat)
    requires b < |s.batches|
    ensures forall p :: SetPhase(s, b, p).batches == s.batches[b := s.batches[b].(phase := p)]
    ensures forall p :: Finish(s, b, p).batches == s.batches[b := s.batches[b].(phase := p)]
  {
  }

  function ReleaseManifest(s: State): State {
    s.(manifestLock := None)
  }

  /** `list_chunks` finds something. */
  ghost predicate Listed(cfg: Config, s: State, t: Text) {
    exists r :: r in s.indexes && Lists(cfg.listing, t, r.service)
  }

  /** A registration round asks `list_chunks` about an unknown service, and gets an answer only for a name the
      backend accepts; for any other the round can only fault. */
  predicate CanList(cfg: Config, draft: Manifest, t: Text) {
    t !in draft.services ==> Admits(cfg.listing, t)
  }

  predicate AdmitsRef(cfg: Config, r: ChunkRef) {
    Admits(cfg.listing, r.service) && (cfg.listing.ByDirectory? ==> Safe(r.window))
  }

  /** An archive under a name the backend does not accept is never stored. */
  predicate CanPut(cfg: Config, r: ChunkRef, put: PutOutcome) {
    AdmitsRef(cfg, r) || put == PutFailed(false, false)
  }

  ghost predicate CanFault(p: Phase) {
    p.SeedReading? || p.RegisterReading? || p.Registering? || p.Building? || p.CommitReading?
  }

  ghost predicate Enabled(cfg: Config, s: State, step: Step) {
    match step
    case Begin(records) => ValidRecords(cfg, records)
    case TakeServiceLock(b) =>
      && b < |s.batches| && s.batches[b].phase.Locking?
      && s.batches[b].phase.held < |s.batches[b].services|
      && s.batches[b].services[s.batches[b].phase.held] !in s.serviceLocks
    case ReadSeed(b) => b < |s.batches| && s.batches[b].phase.SeedReading?
    case LockToRegister(b) => b < |s.batches| && s.batches[b].phase.WaitingToRegister? && s.manifestLock.None?
    case ReadToRegister(b) => b < |s.batches| && s.batches[b].phase.RegisterReading?
    case RegisterService(b) =>
      && b < |s.batches| && s.batches[b].phase.Registering?
      && s.batches[b].phase.next < |s.batches[b].services|
      && CanList(cfg, s.batches[b].phase.draft, s.batches[b].services[s.batches[b].phase.next])
    case WriteRegistration(b, _) => b < |s.batches| && s.batches[b].phase.RegisterWriting?
    case Build(b, salts) =>
      && b < |s.batches| && s.batches[b].phase.Building?
      && |salts| == |s.batches[b].buckets|
      && AllBuildable(s.batches[b].phase.seed, s.batches[b].buckets)
    case StartUpload(b) =>
      && b < |s.batches| && s.batches[b].phase.Uploading?
      && s.batches[b].phase.started < |s.batches[b].phase.built.chunks|
      && |s.batches[b].phase.inFlight| < MAX_CONCURRENT_UPLOADS
    case FinishUpload(b, i, put) =>
      && b < |s.batches| && s.batches[b].phase.Uploading?
      && i in s.batches[b].phase.inFlight
      && i < |s.batches[b].phase.built.chunks| && i < |s.batches[b].phase.built.indexes|
      && CanPut(cfg, s.batches[b].phase.built.chunks[i].Ref(), put)
    case CollectUploads(b) =>
      && b < |s.batches| && s.batches[b].phase.Uploading?
      && s.batches[b].phase.started == |s.batches[b].phase.built.chunks|
      && s.batches[b].phase.inFlight == {}
    case LockToCommit(b) => b < |s.batches| && s.batches[b].phase.WaitingToCommit? && s.manifestLock.None?
    case ReadToCommit(b) =>
      && b < |s.batches| && s.batches[b].phase.CommitReading?
      && s.batches[b].phase.built.heads.Keys <= s.batches[b].phase.seed.services.Keys
    case WriteCommit(b, _) => b < |s.batches| && s.batches[b].phase.CommitWriting?
    case Fault(b) => b < |s.batches| && CanFault(s.batches[b].phase)
    case Abandon(b) => b < |s.batches| && !Finished(s.batches[b].phase)
  }

  function TakeServiceLockStep(s: State, b: nat): State
    requires b < |s.batches| && s.batches[b].phase.Locking?
    requires s.batches[b].phase.held < |s.batches[b].services|
  {
    var held, services := s.batches[b].phase.held, s.batches[b].services;
    SetPhase(s, b, if held + 1 == |services| then SeedReading else Locking(held + 1)).(
      serviceLocks := s.serviceLocks[services[held] := b])
  }

  function ReadSeedStep(cfg: Config, s: State, b: nat): State
    requires b < |s.batches|
  {
    var m := Durable(cfg, s);
    SetPhase(s, b,
      if forall t :: t in s.batches[b].services ==> t in m.services then Building(m) else WaitingToRegister)
  }

  /** One round of the registration loop. */
  ghost function RegisterServiceStep(cfg: Config, s: State, b: nat): State
    requires b < |s.batches| && s.batches[b].phase.Registering?
    requires s.batches[b].phase.next < |s.batches[b].services|
  {
    var Registering(next, draft) := s.batches[b].phase;
    var t := s.batches[b].services[next];
    if t !in draft.services && Listed(cfg, s, t) then Finish(s, b, Failed(Refused))
    else if t !in draft.services && draft.nextServiceId + 1 >= U32_LIMIT then Finish(s, b, Failed(IdsExhausted))
    else
      var draft' := RegisterOne(draft, t);
      SetPhase(s, b,
        if next + 1 == |s.batches[b].services| then RegisterWriting(draft') else Registering(next + 1, draft'))
  }

  function WriteRegistrationStep(s: State, b: nat, written: WriteOutcome): State
    requires b < |s.batches| && s.batches[b].phase.RegisterWriting?
  {
    var draft := s.batches[b].phase.draft;
    match written
    case WriteDone => ReleaseManifest(SetPhase(s, b, Building(draft))).(manifest := Some(draft))
    case WriteFailed(landed) =>
      Finish(s, b, Failed(Faulted)).(manifest := if landed then Some(draft) else s.manifest)
  }

  ghost function BuildStep(cfg: Config, s: State, b: nat, salts: seq<Salt>): State
    requires b < |s.batches| && s.batches[b].phase.Building?
    requires |salts| == |s.batches[b].buckets| && AllBuildable(s.batches[b].phase.seed, s.batches[b].buckets)
  {
    var seed := s.batches[b].phase.seed;
    SetPhase(s, b, Uploading(seed, BuildAll(cfg.libs, seed, s.batches[b].buckets, salts), 0, {}, false))
  }

  function StartUploadStep(s: State, b: nat): State
    requires b < |s.batches| && s.batches[b].phase.Uploading?
  {
    var p := s.batches[b].phase;
    SetPhase(s, b, p.(started := p.started + 1, inFlight := p.inFlight + {p.started}))
  }

  function FinishUploadStep(s: State, b: nat, i: nat, put: PutOutcome): State
    requires b < |s.batches| && s.batches[b].phase.Uploading?
    requires i < |s.batches[b].phase.built.chunks| && i < |s.batches[b].phase.built.indexes|
  {
    var p := s.batches[b].phase;
    var c, ix := p.built.chunks[i], p.built.indexes[i];
    SetPhase(s, b, p.(inFlight := p.inFlight - {i}, failed := p.failed || put.PutFailed?)).(
      chunks := if put.PutDone? || put.chunkLanded then s.chunks[c.Ref() := c] else s.chunks,
      indexes := if put.PutDone? || put.indexLanded then s.indexes[c.Ref() := ix] else s.indexes)
  }

  /** All results are in; the first error is returned only now. */
  function CollectUploadsStep(s: State, b: nat): State
    requires b < |s.batches| && s.batches[b].phase.Uploading?
  {
    var p := s.batches[b].phase;
    if p.failed then Finish(s, b, Failed(Faulted)) else SetPhase(s, b, WaitingToCommit(p.seed, p.built))
  }

  function WriteCommitStep(s: State, b: nat, written: WriteOutcome): State
    requires b < |s.batches| && s.batches[b].phase.CommitWriting?
  {
    var p := s.batches[b].phase;
    match written
    case WriteDone =>
      Finish(s, b, Acked(p.seed, p.built)).(manifest := Some(p.draft), commits := s.commits + [b])
    case WriteFailed(landed) =>
      Finish(s, b, Failed(Faulted)).(
        manifest := if landed then Some(p.draft) else s.manifest,
        commits := if landed then s.commits + [b] else s.commits)
  }

  ghost function Apply(cfg: Config, s: State, step: Step): State
    requires Enabled(cfg, s, step)
  {
    match step
    case Begin(records) => s.(batches := s.batches + [NewBatch(cfg, records)])
    case TakeServiceLock(b) => TakeServiceLockStep(s, b)
    case ReadSeed(b) => ReadSeedStep(cfg, s, b)
    case LockToRegister(b) => SetPhase(s, b, RegisterReading).(manifestLock := Some(b))
    case ReadToRegister(b) => SetPhase(s, b, Registering(0, Durable(cfg, s)))
    case RegisterService(b) => RegisterServiceStep(cfg, s, b)
    case WriteRegistration(b, written) => WriteRegistrationStep(s, b, written)
    case Build(b, salts) => BuildStep(cfg, s, b, salts)
    case StartUpload(b) => StartUploadStep(s, b)
    case FinishUpload(b, i, put) => FinishUploadStep(s, b, i, put)
    case CollectUploads(b) => CollectUploadsStep(s, b)
    case LockToCommit(b) =>
      SetPhase(s, b, CommitReading(s.batches[b].phase.seed, s.batches[b].phase.built)).(manifestLock := Some(b))
    case ReadToCommit(b) =>
      var p := s.batches[b].phase;
      SetPhase(s, b, CommitWriting(p.seed, p.built, Overlay(Durable(cfg, s), p.seed, p.built)))
    case WriteCommit(b, written) => WriteCommitStep(s, b, written)
    case Fault(b) => Finish(s, b, Failed(Faulted))
    case Abandon(b) => Finish(s, b, Abandoned)
  }

  ghost predicate Next(cfg: Config, s: State, s': State) {
    exists step :: Enabled(cfg, s, step) && s' == Apply(cfg, s, step)
  }

  /** A process that has just opened a consistent archive: no calls, no locks. */
  ghost predicate AtRest(cfg: Config, s: State) {
    && StoreOk(cfg, Durable(cfg, s), s.chunks, s.indexes)
    && s.serviceLocks == map[] && s.manifestLock.None?
    && s.batches == [] && s.commits == []
  }

  ghost predicate IsRun(cfg: Config, run: seq<State>) {
    run != [] && forall i :: 0 <= i < |run| - 1 ==> Next(cfg, run[i], run[i + 1])
  }

  /** Some run leads from an archive at rest to `s`. */
  ghost predicate Reachable(cfg: Config, s: State) {
    exists run :: IsRun(cfg, run) && AtRest(cfg, run[0]) && run[|run| - 1] == s
  }
}
