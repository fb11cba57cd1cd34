/** An archive over many connections that serve manifest reads from the copy last written, each ended by a
    crash or a stop at any moment, also one that leaves a stored manifest whose archives were overwritten. */
module Connections {
  import opened Core
  import opened KeyedStore
  import opened Ordering
  import opened Builder
  import opened Chunking
  import opened Sealing
  import opened Archive
  import opened Protocol
  import opened Safety
  import opened Reading
  import opened Runs
  import opened Serial
  import opened ReadBack
  import opened Progress
  import opened CachedManifest
  import opened Pruning
  import opened Index
  import Lifetimes

  // ---- The same steps over other archives ----

  /** The two differ only in what is stored under the same keys. No step depends on that. */
  ghost predicate Twins(s: State, s': State) {
    s' == s.(chunks := s'.chunks, indexes := s'.indexes) && s'.indexes.Keys == s.indexes.Keys
  }

  ghost predicate Agree(s: State, s': State, r: ChunkRef) {
    SameStored(r, s.chunks, s.indexes, s'.chunks, s'.indexes)
  }

  lemma TwinsList(cfg: Config, s: State, s': State, t: Text)
    requires Twins(s, s')
    ensures Listed(cfg, s, t) == Listed(cfg, s', t)
  {
  }

  lemma TwinsUpload(s: State, s': State, b: nat, i: nat, put: PutOutcome)
    requires Twins(s, s')
    requires b < |s.batches| && s.batches[b].phase.Uploading?
    requires i < |s.batches[b].phase.built.chunks| && i < |s.batches[b].phase.built.indexes|
    ensures Twins(FinishUploadStep(s, b, i, put), FinishUploadStep(s', b, i, put))
    ensures forall r :: Agree(s, s', r) ==> Agree(FinishUploadStep(s, b, i, put), FinishUploadStep(s', b, i, put), r)
    ensures put.PutDone? ==>
      Agree(FinishUploadStep(s, b, i, put), FinishUploadStep(s', b, i, put), s.batches[b].phase.built.chunks[i].Ref())
  {
  }

  lemma TwinsStep(cfg: Config, s: State, s': State, step: Step)
    requires Twins(s, s') && Enabled(cfg, s, step)
    ensures Enabled(cfg, s', step) && Twins(Apply(cfg, s, step), Apply(cfg, s', step))
    ensures forall r :: Agree(s, s', r) ==> Agree(Apply(cfg, s, step), Apply(cfg, s', step), r)
  {
    hide Apply, Twins, Agree, FinishUploadStep;
    TwinsEnabled(cfg, s, s', step);
    if step.FinishUpload? {
      UploadIsStep(cfg, s, step);
      UploadIsStep(cfg, s', step);
      TwinsUpload(s, s', step.b, step.i, step.put);
    } else {
      hide Enabled;
      if IsEarly(step) { TwinsEarly(cfg, s, s', step); } else { TwinsLate(cfg, s, s', step); }
      KeptAgree(cfg, s, s', step);
    }
  }

  lemma TwinsEnabled(cfg: Config, s: State, s': State, step: Step)
    requires Twins(s, s') && Enabled(cfg, s, step)
    ensures Enabled(cfg, s', step)
  {
    hide AllBuildable, CanPut, CanList;
  }

  lemma UploadIsStep(cfg: Config, s: State, step: Step)
    requires Enabled(cfg, s, step) && step.FinishUpload?
    ensures Apply(cfg, s, step) == FinishUploadStep(s, step.b, step.i, step.put)
  {
    hide FinishUploadStep, CanPut;
  }

  lemma KeptAgree(cfg: Config, s: State, s': State, step: Step)
    requires Enabled(cfg, s, step) && Enabled(cfg, s', step) && !step.FinishUpload?
    ensures forall r :: Agree(s, s', r) ==> Agree(Apply(cfg, s, step), Apply(cfg, s', step), r)
  {
    hide Enabled, Apply, SameStored;
    if IsWrite(step) {
      WritesKeepArchives(cfg, s, step);
      WritesKeepArchives(cfg, s', step);
    } else {
      OtherStepsKeepBackend(cfg, s, step);
      OtherStepsKeepBackend(cfg, s', step);
    }
  }

  lemma TwinsMove(s: State, s': State, b: nat)
    requires Twins(s, s') && b < |s.batches|
    ensures b < |s'.batches|
    ensures forall p :: Twins(SetPhase(s, b, p), SetPhase(s', b, p)) && Twins(Finish(s, b, p), Finish(s', b, p))
  {
  }

  lemma TwinsEarly(cfg: Config, s: State, s': State, step: Step)
    requires Twins(s, s') && Enabled(cfg, s, step) && Enabled(cfg, s', step) && IsEarly(step)
    ensures Twins(Apply(cfg, s, step), Apply(cfg, s', step))
  {
    hide RegisterOne, Listed, CanList, SetPhase, Finish;
    TwinsMove(s, s', step.b);
    if step.RegisterService? {
      TwinsList(cfg, s, s', s.batches[step.b].services[s.batches[step.b].phase.next]);
    }
  }

  lemma TwinsLate(cfg: Config, s: State, s': State, step: Step)
    requires Twins(s, s') && Enabled(cfg, s, step) && Enabled(cfg, s', step) && !IsEarly(step) && !step.FinishUpload?
    ensures Twins(Apply(cfg, s, step), Apply(cfg, s', step))
  {
    hide NewBatch, Overlay, BuildAll, AllBuildable, SetPhase, Finish;
    if !step.Begin? { TwinsMove(s, s', step.b); }
  }

  // ---- Connections that follow each other ----

  ghost predicate Starts(cfg: Config, hs: seq<seq<Connection>>, k: nat)
    requires k < |hs|
  {
    && hs[k] != []
    && if k == 0 then Connected(cfg, hs[0][0]) else hs[k - 1] != [] && hs[k][0] == Reconnected(hs[k - 1][|hs[k - 1]| - 1])
  }

  /** The first connection finds a consistent archive; every later one finds whatever is stored. */
  ghost predicate IsSuccession(cfg: Config, hs: seq<seq<Connection>>) {
    && (forall k :: 0 <= k < |hs| ==> IsHistory(cfg, hs[k]))
    && (forall k :: 0 <= k < |hs| ==> Starts(cfg, hs, k))
  }

  // ---- What the archive would hold had nothing been overwritten ----

  /** A new connection to an archive in which everything stored when the newest manifest landed is put back. */
  function Healed(q: Connection): Connection {
    var s := Restarted(q.live).(manifest := q.view.newest,
      chunks := q.live.chunks + q.landedChunks, indexes := q.live.indexes + q.landedIndexes);
    Connection(s, ManifestView(None, q.view.newest), s.chunks, s.indexes, true)
  }

  lemma HealedUnchanged(m: Manifest, chunks: Chunks, indexes: Indexes, landed: Chunks, landedIndexes: Indexes)
    requires forall t, r :: t in m.services && r in m.services[t].chunks ==> r in landed && r in landedIndexes
    ensures Unchanged(m, landed, landedIndexes, chunks + landed, indexes + landedIndexes)
  {
  }

  lemma HealedIsConnected(cfg: Config, q: Connection)
    requires cfg.libs.Lawful() && Occurs(cfg, q)
    ensures Connected(cfg, Healed(q))
  {
    hide Occurs, Libs.Lawful, Reachable, EntriesOk, IdsOk, Unchanged, Durable, Extends;
    ServedIsReachable(cfg, q);
    ReachableStore(cfg, q.live);
    var m := Newest(cfg, q);
    forall t, r | t in m.services && r in m.services[t].chunks ensures r in q.landedChunks && r in q.landedIndexes {
      ReferencedAreNumbered(cfg, m, q.landedChunks, q.landedIndexes, t, r);
    }
    HealedUnchanged(m, q.live.chunks, q.live.indexes, q.landedChunks, q.landedIndexes);
    var s := Healed(q).live;
    assert Durable(cfg, s) == m by { NewestIsRead(cfg, q); }
    assert Registered(m, s.chunks, s.indexes) by { ExtendsKeys(Durable(cfg, q.live), m); }
    UnchangedIsOk(cfg, m, q.landedChunks, q.landedIndexes, s.chunks, s.indexes);
  }

  lemma NewestIsRead(cfg: Config, q: Connection)
    ensures Durable(cfg, Healed(q).live) == Newest(cfg, q) == Durable(cfg, Reconnected(q).live)
  {
  }

  lemma ExtendsKeys(m: Manifest, m': Manifest)
    requires Extends(m, m')
    ensures m.services.Keys <= m'.services.Keys
  {
  }

  // ---- Following a connection ----

  /** What the call uploaded in this connection is the same in both archives. */
  ghost predicate BatchAgrees(s: State, s': State, batch: Batch) {
    match batch.phase
    case Uploading(_, built, started, inFlight, failed) => failed || StartedAgree(s, s', built, started, inFlight)
    case WaitingToCommit(_, built) => BuiltAgrees(s, s', built)
    case CommitReading(_, built) => BuiltAgrees(s, s', built)
    case CommitWriting(_, built, _) => BuiltAgrees(s, s', built)
    case Acked(_, built) => RefsAgree(s, s', built, batch.buckets)
    case _ => true
  }

  ghost predicate StartedAgree(s: State, s': State, built: Built, started: nat, inFlight: set<nat>) {
    forall i :: 0 <= i < started && i < |built.chunks| && i !in inFlight ==> Agree(s, s', built.chunks[i].Ref())
  }

  ghost predicate BuiltAgrees(s: State, s': State, built: Built) {
    forall i :: 0 <= i < |built.chunks| ==> Agree(s, s', built.chunks[i].Ref())
  }

  ghost predicate RefsAgree(s: State, s': State, built: Built, buckets: seq<Bucket>) {
    forall t, r :: t in ServicesIn(buckets) && r in NewRefs(built, t) ==> Agree(s, s', r)
  }

  ghost predicate UploadsAgree(s: State, s': State) {
    forall b :: 0 <= b < |s.batches| ==> BatchAgrees(s, s', s.batches[b])
  }

  ghost predicate AgreementStays(s: State, s': State, z: State, z': State) {
    forall r :: Agree(s, s', r) ==> Agree(z, z', r)
  }

  lemma StillAgrees(s: State, s': State, z: State, z': State, batch: Batch)
    requires AgreementStays(s, s', z, z') && BatchAgrees(s, s', batch)
    ensures BatchAgrees(z, z', batch)
  {
    hide Agree;
  }

  lemma RefsAreBuilt(libs: Libs, seed: Manifest, buckets: seq<Bucket>, built: Built, t: Text, r: ChunkRef)
    requires BuiltOk(libs, seed, buckets, built) && r in NewRefs(built, t)
    ensures exists i :: 0 <= i < |built.chunks| && built.chunks[i].Ref() == r
  {
    hide ArchivesAt, SequencesRise;
    assert ContinuesChain(libs, seed, built, t);
    var own := Own(built.chunks, t);
    var k :| 0 <= k < |own| && own[k].Ref() == r;
    assert own[k] in built.chunks;
  }

  lemma CommitAgrees(cfg: Config, s: State, s': State, b: nat)
    requires Inv(cfg, s') && b < |s'.batches| && s'.batches[b].phase.CommitWriting?
    requires BuiltAgrees(s, s', s'.batches[b].phase.built)
    ensures RefsAgree(s, s', s'.batches[b].phase.built, s'.batches[b].buckets)
  {
    hide LocksOk, StoreOk, ShapeOk, BuiltOk, SeedCurrent, AllStored, Agree;
    var batch := s'.batches[b];
    assert BatchOk(cfg, Durable(cfg, s'), s'.chunks, s'.indexes, batch);
    forall t, r | t in ServicesIn(batch.buckets) && r in NewRefs(batch.phase.built, t) ensures Agree(s, s', r) {
      RefsAreBuilt(cfg.libs, batch.phase.seed, batch.buckets, batch.phase.built, t, r);
    }
  }

  lemma UploadAgrees(s: State, s': State, b: nat, i: nat, put: PutOutcome)
    requires Twins(s, s') && b < |s.batches| && s.batches[b].phase.Uploading? && BatchAgrees(s, s', s.batches[b])
    requires i < |s.batches[b].phase.built.chunks| && i < |s.batches[b].phase.built.indexes|
    ensures var z, z' := FinishUploadStep(s, b, i, put), FinishUploadStep(s', b, i, put);
      b < |z.batches| && BatchAgrees(z, z', z.batches[b])
  {
    TwinsUpload(s, s', b, i, put);
    hide Agree, Twins;
  }

  /** The call's own step, when it is not the end of an upload. */
  lemma NextAgrees(cfg: Config, s: State, s': State, step: Step, b: nat)
    requires Inv(cfg, s') && Twins(s, s')
    requires Enabled(cfg, s, step) && CallOf(step) == Some(b) && !step.FinishUpload?
    requires b < |s.batches| && BatchAgrees(s, s', s.batches[b])
    ensures b < |Apply(cfg, s, step).batches| && BatchAgrees(s, s', Apply(cfg, s, step).batches[b])
  {
    if IsEarly(step) {
      hide *;
      EarlyAgrees(cfg, s, s', step, b);
    } else {
      hide *;
      LateAgrees(cfg, s, s', step, b);
    }
  }

  lemma EarlyAgrees(cfg: Config, s: State, s': State, step: Step, b: nat)
    requires Enabled(cfg, s, step) && CallOf(step) == Some(b) && IsEarly(step) && b < |s.batches|
    ensures b < |Apply(cfg, s, step).batches| && BatchAgrees(s, s', Apply(cfg, s, step).batches[b])
  {
    hide SetPhase, Finish, Listed, RegisterOne, Durable, CanList, Agree, RefsAgree;
    MovesTo(s, b);
  }

  lemma LateAgrees(cfg: Config, s: State, s': State, step: Step, b: nat)
    requires Inv(cfg, s') && Twins(s, s')
    requires Enabled(cfg, s, step) && CallOf(step) == Some(b) && !IsEarly(step) && !step.FinishUpload?
    requires b < |s.batches| && BatchAgrees(s, s', s.batches[b])
    ensures b < |Apply(cfg, s, step).batches| && BatchAgrees(s, s', Apply(cfg, s, step).batches[b])
  {
    hide Inv, SetPhase, Finish, BuildAll, Overlay, Durable, AllBuildable, Agree, RefsAgree;
    MovesTo(s, b);
    if step.WriteCommit? { CommitAgrees(cfg, s, s', b); }
  }

  lemma MoverAgrees(cfg: Config, s: State, s': State, step: Step, b: nat)
    requires Inv(cfg, s') && Twins(s, s') && Enabled(cfg, s, step) && Enabled(cfg, s', step)
    requires CallOf(step) == Some(b) && b < |s.batches| && BatchAgrees(s, s', s.batches[b])
    requires AgreementStays(s, s', Apply(cfg, s, step), Apply(cfg, s', step))
    ensures var z, z' := Apply(cfg, s, step), Apply(cfg, s', step);
      b < |z.batches| && BatchAgrees(z, z', z.batches[b])
  {
    hide Inv, Twins, BatchAgrees, FinishUploadStep, AgreementStays, AllBuildable, CanPut;
    if step.FinishUpload? {
      UploadAgrees(s, s', b, step.i, step.put);
    } else {
      hide Enabled, Apply;
      NextAgrees(cfg, s, s', step, b);
      StillAgrees(s, s', Apply(cfg, s, step), Apply(cfg, s', step), Apply(cfg, s, step).batches[b]);
    }
  }

  lemma NewAgrees(cfg: Config, s: State, s': State, records: seq<LogRecord>)
    ensures BatchAgrees(s, s', NewBatch(cfg, records))
  {
    hide ChunkBatch, Agree;
  }

  lemma StepAgrees(cfg: Config, s: State, s': State, step: Step)
    requires Inv(cfg, s') && Twins(s, s') && UploadsAgree(s, s') && Enabled(cfg, s, step)
    ensures Enabled(cfg, s', step) && Twins(Apply(cfg, s, step), Apply(cfg, s', step))
    ensures AgreementStays(s, s', Apply(cfg, s, step), Apply(cfg, s', step))
    ensures UploadsAgree(Apply(cfg, s, step), Apply(cfg, s', step))
  {
    hide Inv, Twins, Enabled, Apply, BatchAgrees, NewBatch, Agree;
    TwinsStep(cfg, s, s', step);
    var z, z' := Apply(cfg, s, step), Apply(cfg, s', step);
    assert AgreementStays(s, s', z, z');
    hide AgreementStays;
    StepFrame(cfg, s, step);
    forall b: nat | b < |z.batches| ensures BatchAgrees(z, z', z.batches[b]) {
      if CallOf(step) == Some(b) {
        MoverAgrees(cfg, s, s', step, b);
      } else if b < |s.batches| {
        FinishedStays(cfg, s, step, b);
        StillAgrees(s, s', z, z', s.batches[b]);
      } else {
        NewAgrees(cfg, z, z', step.records);
      }
    }
  }

  /** `q` has made the steps `p` has, over archives in which nothing the stored manifest ever referred to was
      overwritten. */
  ghost predicate Follows(cfg: Config, p: Connection, q: Connection) {
    Occurs(cfg, q) && Twins(p.live, q.live) && q.view == p.view && UploadsAgree(p.live, q.live)
  }

  /** The acknowledged `batch` is in place in the followed archive, and its chunks are the same here. */
  ghost predicate Placed(cfg: Config, s: State, s': State, batch: Batch) {
    && batch.phase.Acked? && ShapeOk(cfg, batch)
    && AckedOk(cfg.libs, Durable(cfg, s'), s'.chunks, batch)
    && RefsAgree(s, s', batch.phase.built, batch.buckets)
  }

  lemma FollowStep(cfg: Config, p: Connection, q: Connection, step: Step)
    requires cfg.libs.Lawful() && Follows(cfg, p, q) && Enabled(cfg, p.live, step)
    ensures Enabled(cfg, q.live, step) && Follows(cfg, Advanced(cfg, p, step), Advanced(cfg, q, step))
    ensures forall batch :: Placed(cfg, p.live, q.live, batch) ==>
      Placed(cfg, Advanced(cfg, p, step).live, Advanced(cfg, q, step).live, batch)
  {
    hide Libs.Lawful, Occurs, Reachable, Inv, Twins, UploadsAgree, ViewOk, Enabled, Apply, AgreementStays,
      AckedOk, ShapeOk, RefsAgree, Preserved, Durable;
    var seen := SeenStep(p.view, step);
    ServedIsReachable(cfg, q);
    ReachableInv(cfg, q.live);
    SeenIsEnabled(cfg, p.live, p.view, step);
    StepAgrees(cfg, p.live, q.live, step);
    StepAgrees(cfg, p.live, q.live, seen);
    AdvancedOccurs(cfg, q, step);
    SameCallsInTwins(p.live, q.live);
    SeenIsEnabled(cfg, q.live, q.view, step);
    forall batch | Placed(cfg, p.live, q.live, batch)
      ensures Placed(cfg, Advanced(cfg, p, step).live, Advanced(cfg, q, step).live, batch)
    {
      StepPreserves(cfg, q.live, seen);
      Lifetimes.PlacedStays(cfg, q.live, Apply(cfg, q.live, seen), batch);
      RefsStayAgreed(p.live, q.live, Apply(cfg, p.live, seen), Apply(cfg, q.live, seen), batch.phase.built, batch.buckets);
    }
  }

  lemma SameCallsInTwins(s: State, s': State)
    requires Twins(s, s')
    ensures s.batches == s'.batches
  {
  }

  lemma RefsStayAgreed(s: State, s': State, z: State, z': State, built: Built, buckets: seq<Bucket>)
    requires AgreementStays(s, s', z, z') && RefsAgree(s, s', built, buckets)
    ensures RefsAgree(z, z', built, buckets)
  {
    hide Agree;
  }

  // ---- Reconnecting ----

  lemma HealedKeeps(cfg: Config, q: Connection)
    requires cfg.libs.Lawful() && Occurs(cfg, q)
    ensures Lifetimes.Kept(cfg, q.live, Healed(q).live)
    ensures Healed(q).live.indexes.Keys == q.live.indexes.Keys
  {
    hide Occurs, Libs.Lawful, Reachable, StoreOk, Durable;
    ServedIsReachable(cfg, q);
    NewestIsRead(cfg, q);
    var m, m', s, s' := Durable(cfg, q.live), Newest(cfg, q), q.live, Healed(q).live;
    forall t | t in m.services ensures ServicePreserved(m.services[t], s.chunks, s.indexes, t, m', s'.chunks, s'.indexes) {
      assert EntryExtends(m.services[t], t, m');
      forall r | r in m.services[t].chunks ensures SameStored(r, s.chunks, s.indexes, s'.chunks, s'.indexes) {
        assert SameStored(r, q.landedChunks, q.landedIndexes, s.chunks, s.indexes);
      }
    }
  }

  lemma SameArchivesAgree(s: State, s': State, z: State, z': State, r: ChunkRef)
    requires Agree(s, s', r) && Agree(s', z', r) && z.chunks == s.chunks && z.indexes == s.indexes
    ensures Agree(z, z', r)
  {
  }

  lemma PlacedRefKept(cfg: Config, s: State, s': State, batch: Batch, t: Text, r: ChunkRef)
    requires batch.phase.Acked? && AckedOk(cfg.libs, Durable(cfg, s), s.chunks, batch) && Lifetimes.Kept(cfg, s, s')
    requires t in ServicesIn(batch.buckets) && r in NewRefs(batch.phase.built, t)
    ensures Agree(s, s', r)
  {
    hide Durable, DecodeAll, Fetched, Agree, NewRefs;
    var m, p := Durable(cfg, s), batch.phase;
    assert InPlace(cfg.libs, m, s.chunks, p.seed, p.built, batch.buckets, t);
    assert r in p.seed.services[t].chunks + NewRefs(p.built, t);
    assert r in m.services[t].chunks;
    assert ServicePreserved(m.services[t], s.chunks, s.indexes, t, Durable(cfg, s'), s'.chunks, s'.indexes);
    SameIsAgreement(s, s', r);
  }

  lemma SameIsAgreement(s: State, s': State, r: ChunkRef)
    requires SameStored(r, s.chunks, s.indexes, s'.chunks, s'.indexes)
    ensures Agree(s, s', r)
  {
  }

  lemma FollowReconnect(cfg: Config, p: Connection, q: Connection)
    requires cfg.libs.Lawful() && Follows(cfg, p, q)
    ensures Follows(cfg, Reconnected(p), Healed(q))
    ensures forall batch :: Placed(cfg, p.live, q.live, batch) ==> Placed(cfg, Reconnected(p).live, Healed(q).live, batch)
  {
    hide Occurs, Libs.Lawful, Lifetimes.Kept, Connected, AckedOk, ShapeOk, Durable, Agree;
    HealedIsConnected(cfg, q);
    ConnectedOccurs(cfg, Healed(q));
    HealedKeeps(cfg, q);
    forall batch | Placed(cfg, p.live, q.live, batch) ensures Placed(cfg, Reconnected(p).live, Healed(q).live, batch) {
      Lifetimes.PlacedStays(cfg, q.live, Healed(q).live, batch);
      forall t, r | t in ServicesIn(batch.buckets) && r in NewRefs(batch.phase.built, t)
        ensures Agree(Reconnected(p).live, Healed(q).live, r)
      {
        PlacedRefKept(cfg, q.live, Healed(q).live, batch, t, r);
        SameArchivesAgree(p.live, q.live, Reconnected(p).live, Healed(q).live, r);
      }
    }
  }

  // ---- Acknowledged over all connections ----

  ghost predicate AckedAt(p: Connection, batch: Batch) {
    exists b :: 0 <= b < |p.live.batches| && p.live.batches[b] == batch && batch.phase.Acked?
  }

  /** `batch` was acknowledged at that moment or before it, in that connection or an earlier one. */
  ghost predicate AckedBy(hs: seq<seq<Connection>>, l: nat, j: nat, batch: Batch)
    requires l < |hs| && j < |hs[l]|
  {
    exists k, i :: 0 <= k <= l && 0 <= i < |hs[k]| && (k == l ==> i <= j) && AckedAt(hs[k][i], batch)
  }

  lemma AckedIsPlaced(cfg: Config, p: Connection, q: Connection, batch: Batch)
    requires cfg.libs.Lawful() && Follows(cfg, p, q) && AckedAt(p, batch)
    ensures Placed(cfg, p.live, q.live, batch)
  {
    hide Occurs, Libs.Lawful, Reachable, ViewOk, LocksOk, StoreOk, PhaseOk, ShapeOk, AckedOk, RefsAgree;
    ServedIsReachable(cfg, q);
    ReachableInv(cfg, q.live);
    ReachableAcked(cfg, q.live);
    var b :| 0 <= b < |p.live.batches| && p.live.batches[b] == batch;
    assert BatchOk(cfg, Durable(cfg, q.live), q.live.chunks, q.live.indexes, batch) by {
      assert q.live.batches[b] == batch;
    }
    assert BatchAgrees(p.live, q.live, batch);
  }

  /** Any succession of connections is followed, and all it acknowledged stays in place. */
  lemma {:induction false} Follow(cfg: Config, hs: seq<seq<Connection>>, l: nat, j: nat) returns (q: Connection)
    requires cfg.libs.Lawful()
    requires IsSuccession(cfg, hs) && l < |hs| && j < |hs[l]|
    ensures Follows(cfg, hs[l][j], q)
    ensures forall batch :: AckedBy(hs, l, j, batch) ==> Placed(cfg, hs[l][j].live, q.live, batch)
    decreases l, j
  {
    hide IsHistory, Libs.Lawful, Follows, Placed, Connected, Enabled, Advanced, AckedAt;
    assert Starts(cfg, hs, l) && IsHistory(cfg, hs[l]);
    if j > 0 {
      var q' := Follow(cfg, hs, l, j - 1);
      var step := StepOf(cfg, hs[l], j);
      FollowStep(cfg, hs[l][j - 1], q', step);
      q := Advanced(cfg, q', step);
    } else if l > 0 {
      var q' := Follow(cfg, hs, l - 1, |hs[l - 1]| - 1);
      FollowReconnect(cfg, hs[l - 1][|hs[l - 1]| - 1], q');
      q := Healed(q');
    } else {
      q := hs[0][0];
      FollowsItself(cfg, q);
    }
    forall batch | AckedAt(hs[l][j], batch) ensures Placed(cfg, hs[l][j].live, q.live, batch) {
      AckedIsPlaced(cfg, hs[l][j], q, batch);
    }
  }

  lemma StepOf(cfg: Config, ps: seq<Connection>, j: nat) returns (step: Step)
    requires IsHistory(cfg, ps) && 0 < j < |ps|
    ensures Enabled(cfg, ps[j - 1].live, step) && ps[j] == Advanced(cfg, ps[j - 1], step)
  {
    hide Enabled, Advanced;
    assert Steps(cfg, ps[j - 1], ps[j - 1 + 1]);
    step :| Enabled(cfg, ps[j - 1].live, step) && ps[j] == Advanced(cfg, ps[j - 1], step);
  }

  lemma FollowsItself(cfg: Config, p: Connection)
    requires Connected(cfg, p)
    ensures Follows(cfg, p, p)
  {
    hide Occurs, StoreOk;
    ConnectedOccurs(cfg, p);
  }

  lemma PlacedIsRead(cfg: Config, p: Connection, q: Connection, batch: Batch, get: ChunkReads)
    requires cfg.libs.Lawful() && Follows(cfg, p, q) && Placed(cfg, p.live, q.live, batch)
    requires forall n, r :: get(n, r) == GetChunk(p.live.chunks, r)
    ensures ReadsBackIn(cfg, batch, p.live, get)
  {
    hide Occurs, Libs.Lawful, Reachable, ViewOk, StoreOk, AckedOk, UploadsAgree, ReadRecords, DecodeAll, ChunkBatch, NewRefs,
      GoodBuckets, Enumerates;
    ServedIsReachable(cfg, q);
    ReachableStore(cfg, q.live);
    var built, services := batch.phase.built, batch.services;
    ShapeServices(cfg, batch);
    forall t, r | t in services && r in NewRefs(built, t) ensures GetChunk(p.live.chunks, r) == GetChunk(q.live.chunks, r) {
      assert Agree(p.live, q.live, r);
    }
    forall r | r in AllNewRefs(built, services) ensures GetChunk(p.live.chunks, r) == GetChunk(q.live.chunks, r) {
      RefOfSome(built, services, r);
    }
    ConsistentOpens(cfg, Durable(cfg, q.live), q.live.chunks, q.live.indexes);
    PlacedReadsBack(cfg, q.live, batch, get);
    forall t | t in services ensures Fetched(p.live.chunks, NewRefs(built, t)) == Fetched(q.live.chunks, NewRefs(built, t)) {
      SameFetched(p.live.chunks, q.live.chunks, NewRefs(built, t));
    }
  }

  lemma {:induction false} RefOfSome(built: Built, services: seq<Text>, r: ChunkRef)
    requires r in AllNewRefs(built, services)
    ensures exists t :: t in services && r in NewRefs(built, t)
  {
    var n := |services| - 1;
    Unsnoc(services);
    if r !in NewRefs(built, services[n]) { RefOfSome(built, services[..n], r); }
  }

  lemma SameFetched(chunks: Chunks, chunks': Chunks, refs: seq<ChunkRef>)
    requires forall r :: r in refs ==> GetChunk(chunks, r) == GetChunk(chunks', r)
    ensures Fetched(chunks, refs) == Fetched(chunks', refs)
  {
    forall i | 0 <= i < |refs| ensures Fetch(chunks, refs[i]) == Fetch(chunks', refs[i]) {
      assert GetChunk(chunks, refs[i]) == GetChunk(chunks', refs[i]);
    }
  }

  /** Through any succession of connections to an archive that was consistent at first, and whatever fails,
      lands unseen or is overwritten, what was acknowledged in any of them is in place at any later moment of
      the same or a later one, in the manifest it is served and in the newest one stored, and reads back. */
  lemma AcknowledgedForGood(cfg: Config, hs: seq<seq<Connection>>, k: nat, i: nat, b: nat, l: nat, j: nat, get: ChunkReads)
    requires cfg.libs.Lawful()
    requires IsSuccession(cfg, hs) && k <= l < |hs|
    requires i < |hs[k]| && j < |hs[l]| && (k == l ==> i <= j)
    requires b < |hs[k][i].live.batches| && hs[k][i].live.batches[b].phase.Acked?
    requires forall n, r :: get(n, r) == GetChunk(hs[l][j].live.chunks, r)
    ensures ReadsBackIn(cfg, hs[k][i].live.batches[b], hs[l][j].live, get)
    ensures ReadsBackIn(cfg, hs[k][i].live.batches[b], Reconnected(hs[l][j]).live, get)
  {
    hide IsSuccession, Libs.Lawful, Follows, Placed, ReadsBackIn;
    var p, batch := hs[l][j], hs[k][i].live.batches[b];
    var q := Follow(cfg, hs, l, j);
    assert AckedAt(hs[k][i], batch);
    assert AckedBy(hs, l, j, batch);
    PlacedIsRead(cfg, p, q, batch, get);
    FollowReconnect(cfg, p, q);
    PlacedIsRead(cfg, Reconnected(p), Healed(q), batch, get);
  }

  // ---- Reading while others write ----

  lemma FollowedStays(cfg: Config, p: Connection, q: Connection, step: Step)
    requires cfg.libs.Lawful() && Follows(cfg, p, q) && Enabled(cfg, p.live, step)
    ensures StaysIn(cfg, p.live, Advanced(cfg, p, step).live)
  {
    hide Libs.Lawful, Occurs, Reachable, Inv, UploadsAgree, ViewOk, Enabled, Apply, Twins, ServicePreserved;
    var seen := SeenStep(p.view, step);
    ServedIsReachable(cfg, q);
    SeenIsEnabled(cfg, p.live, p.view, step);
    TwinsStep(cfg, p.live, q.live, seen);
    ReachableInv(cfg, q.live);
    StepPreserves(cfg, q.live, seen);
    var s, s', z, z' := p.live, Apply(cfg, p.live, seen), q.live, Apply(cfg, q.live, seen);
    TwinsServe(cfg, s, z);
    TwinsServe(cfg, s', z');
    forall t | t in Durable(cfg, s).services
      ensures ServicePreserved(Durable(cfg, s).services[t], s.chunks, s.indexes, t, Durable(cfg, s'), s'.chunks, s'.indexes)
    {
      assert ServicePreserved(Durable(cfg, z).services[t], z.chunks, z.indexes, t, Durable(cfg, z'), z'.chunks, z'.indexes);
      forall r | r in Durable(cfg, s).services[t].chunks ensures SameStored(r, s.chunks, s.indexes, s'.chunks, s'.indexes) {
        NeverOverwritten(cfg, s, z, seen, t, r);
      }
      StillPreserved(Durable(cfg, s).services[t], z, z', t, Durable(cfg, s'), s, s');
    }
  }

  lemma StillPreserved(e: ServiceChain, z: State, z': State, t: Text, m': Manifest, s: State, s': State)
    requires ServicePreserved(e, z.chunks, z.indexes, t, m', z'.chunks, z'.indexes)
    requires forall r :: r in e.chunks ==> SameStored(r, s.chunks, s.indexes, s'.chunks, s'.indexes)
    ensures ServicePreserved(e, s.chunks, s.indexes, t, m', s'.chunks, s'.indexes)
  {
  }

  lemma TwinsServe(cfg: Config, s: State, s': State)
    requires Twins(s, s')
    ensures Durable(cfg, s) == Durable(cfg, s') && s.batches == s'.batches
  {
  }

  /** No step stores anything under a reference of the served manifest, whatever is stored there. */
  lemma NeverOverwritten(cfg: Config, s: State, z: State, step: Step, t: Text, r: ChunkRef)
    requires cfg.libs.Lawful() && Reachable(cfg, z) && Twins(s, z) && Enabled(cfg, s, step)
    requires t in Durable(cfg, s).services && r in Durable(cfg, s).services[t].chunks
    ensures SameStored(r, s.chunks, s.indexes, Apply(cfg, s, step).chunks, Apply(cfg, s, step).indexes)
  {
    hide Libs.Lawful, Reachable, Enabled, Apply, Durable;
    if step.FinishUpload? {
      TwinsServe(cfg, s, z);
      UploadIsStep(cfg, s, step);
      IsUploading(cfg, s, step);
      UploadsNeverOverwriteReferenced(cfg, z, step.b, step.i, t);
    } else if IsWrite(step) {
      WritesKeepArchives(cfg, s, step);
    } else {
      OtherStepsKeepBackend(cfg, s, step);
    }
  }

  lemma IsUploading(cfg: Config, s: State, step: Step)
    requires Enabled(cfg, s, step) && step.FinishUpload?
    ensures step.b < |s.batches| && s.batches[step.b].phase.Uploading? && step.i < |s.batches[step.b].phase.built.chunks|
    ensures step.i < |s.batches[step.b].phase.built.indexes|
  {
    hide CanPut;
  }

  /** The states of one connection from its `i`-th moment on. */
  function LivesFrom(ps: seq<Connection>, i: nat): (lives: seq<State>)
    requires i < |ps|
    ensures |lives| == |ps| - i
  {
    seq(|ps| - i, j requires 0 <= j < |ps| - i => ps[i + j].live)
  }

  lemma {:induction false} StaysInConnection(cfg: Config, hs: seq<seq<Connection>>, l: nat, i: nat, j: nat)
    requires cfg.libs.Lawful()
    requires IsSuccession(cfg, hs) && l < |hs| && i <= j < |hs[l]|
    ensures StaysIn(cfg, hs[l][i].live, hs[l][j].live)
    decreases j - i
  {
    hide Libs.Lawful, IsHistory, Starts, Follows, Placed, Enabled, Advanced, Preserved, Durable;
    if i == j {
      OneStateStays(cfg, hs[l][i].live);
      assert StaysIn(cfg, [hs[l][i].live][0], [hs[l][i].live][0]);
    } else {
      StaysInConnection(cfg, hs, l, i, j - 1);
      var q := Follow(cfg, hs, l, j - 1);
      var step := StepOf(cfg, hs[l], j);
      FollowedStays(cfg, hs[l][j - 1], q, step);
      var s, s', s'' := hs[l][i].live, hs[l][j - 1].live, hs[l][j].live;
      PreservedTransitive(Durable(cfg, s), s.chunks, s.indexes, Durable(cfg, s'), s'.chunks, s'.indexes,
        Durable(cfg, s''), s''.chunks, s''.indexes);
    }
  }

  lemma ConnectionStays(cfg: Config, hs: seq<seq<Connection>>, l: nat, i: nat)
    requires cfg.libs.Lawful()
    requires IsSuccession(cfg, hs) && l < |hs| && i < |hs[l]|
    ensures StaysAlong(cfg, LivesFrom(hs[l], i))
  {
    hide Libs.Lawful, IsSuccession, StaysIn;
    var lives := LivesFrom(hs[l], i);
    forall j | 0 <= j < |lives| ensures StaysIn(cfg, lives[0], lives[j]) {
      StaysInConnection(cfg, hs, l, i, i + j);
    }
  }

  /** In any connection of any succession, a query whose reads are spread over later moments returns what it
      would return run atomically when the manifest was served; and the full scan of that moment, if the
      window reaches and the served entries are consistent, as they are at every moment of a connection that
      found them so. */
  lemma ServedQueryIsSnapshot(cfg: Config, hs: seq<seq<Connection>>, l: nat, i: nat, asked: nat, q: IndexQuery,
    chunkWhen: nat -> nat, indexWhen: nat -> nat)
    requires cfg.libs.Lawful()
    requires IsSuccession(cfg, hs) && l < |hs| && i < |hs[l]|
    ensures var lives := LivesFrom(hs[l], i);
      && QueriesAsAtFirst(cfg, asked, lives, q, chunkWhen, indexWhen)
      && (LosesNothing(cfg.windowSecs, asked, q) && EntriesStand(cfg, lives[0]) ==>
            QueryResult(Queried(cfg, asked), Durable(cfg, lives[0]), q, IndexesDuring(lives, indexWhen),
              ChunksDuring(lives, chunkWhen)) ==
            FullScan(cfg, Durable(cfg, lives[0]), q, ChunksDuring([lives[0]], n => 0)))
    ensures Connected(cfg, hs[l][0]) ==> EntriesStand(cfg, hs[l][i].live)
  {
    hide Libs.Lawful, StaysAlong, QueriesAsAtFirst, LosesNothing, QueryResult, FullScan, Durable, IsHistory, Connected,
      EntriesOk;
    ConnectionStays(cfg, hs, l, i);
    StayingQuery(cfg, asked, LivesFrom(hs[l], i), q, chunkWhen, indexWhen);
    if Connected(cfg, hs[l][0]) { FirstStands(cfg, hs[l], i); }
  }

  lemma FirstStands(cfg: Config, ps: seq<Connection>, i: nat)
    requires cfg.libs.Lawful()
    requires IsHistory(cfg, ps) && Connected(cfg, ps[0]) && i < |ps|
    ensures EntriesStand(cfg, ps[i].live)
  {
    hide Libs.Lawful, IsHistory, Connected, Reachable, ViewOk, EntriesOk, IdsOk, Registered;
    HistoryOk(cfg, ps, i);
    ReachableStore(cfg, ps[i].live);
  }

  /** And verification of a service returns what it would return run atomically then. */
  lemma ServedVerifyIsSnapshot(cfg: Config, hs: seq<seq<Connection>>, l: nat, i: nat, service: Text, when: nat -> nat,
    r: Result<nat, Error>)
    requires cfg.libs.Lawful()
    requires IsSuccession(cfg, hs) && l < |hs| && i < |hs[l]|
    requires service in Durable(cfg, hs[l][i].live).services
    ensures var lives, e := LivesFrom(hs[l], i), Durable(cfg, hs[l][i].live).services[service];
      VerifyReports(cfg.libs, service, e, ChunksDuring(lives, when), r) <==>
        VerifyReports(cfg.libs, service, e, ChunksDuring([lives[0]], n => 0), r)
  {
    hide Libs.Lawful, StaysAlong, VerifyReports, Durable, IsSuccession, Located;
    var lives := LivesFrom(hs[l], i);
    var e := Durable(cfg, lives[0]).services[service];
    ConnectionStays(cfg, hs, l, i);
    OneStateStays(cfg, lives[0]);
    StayingReads(cfg, lives, when, when);
    StayingReads(cfg, [lives[0]], n => 0, n => 0);
    ServedIsLocated(cfg, hs, l, i, service);
    if VerifyReports(cfg.libs, service, e, ChunksDuring(lives, when), r) {
      VerifyDependsOnReferenced(cfg.libs, service, e, ChunksDuring(lives, when), ChunksDuring([lives[0]], n => 0), r);
    }
    if VerifyReports(cfg.libs, service, e, ChunksDuring([lives[0]], n => 0), r) {
      VerifyDependsOnReferenced(cfg.libs, service, e, ChunksDuring([lives[0]], n => 0), ChunksDuring(lives, when), r);
    }
  }

  /** Served entries refer to chunks of their own service only. */
  lemma ServedIsLocated(cfg: Config, hs: seq<seq<Connection>>, l: nat, i: nat, t: Text)
    requires cfg.libs.Lawful()
    requires IsSuccession(cfg, hs) && l < |hs| && i < |hs[l]|
    requires t in Durable(cfg, hs[l][i].live).services
    ensures var refs := Durable(cfg, hs[l][i].live).services[t].chunks; Located(t, refs) == refs
  {
    hide Libs.Lawful, IsSuccession, Occurs, UploadsAgree, Placed, Reachable, Durable, EntriesOk, IdsOk, Registered, ViewOk;
    var q := Follow(cfg, hs, l, i);
    ServedIsReachable(cfg, q);
    ReachableStore(cfg, q.live);
    TwinsServe(cfg, hs[l][i].live, q.live);
    var refs := Durable(cfg, q.live).services[t].chunks;
    forall n | 0 <= n < |refs| ensures refs[n].service == t {
      ReferencedAreNumbered(cfg, Durable(cfg, q.live), q.live.chunks, q.live.indexes, t, refs[n]);
    }
  }
}
