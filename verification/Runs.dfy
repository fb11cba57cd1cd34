/** What every run of concurrent ingestion keeps, from an archive at rest to any later state. */
module Runs {
  import opened Core
  import opened Pruning
  import opened Index
  import opened Sealing
  import opened Archive
  import opened Protocol
  import opened Safety
  import opened Reading

  // ---- The invariant along a run ----

  /** The step that led to the `i`-th state. */
  lemma StepAt(cfg: Config, run: seq<State>, i: nat) returns (step: Step)
    requires IsRun(cfg, run) && 0 < i < |run|
    ensures Enabled(cfg, run[i - 1], step) && run[i] == Apply(cfg, run[i - 1], step)
  {
    hide Enabled, Apply;
    assert Next(cfg, run[i - 1], run[i - 1 + 1]);
    step :| Enabled(cfg, run[i - 1], step) && run[i] == Apply(cfg, run[i - 1], step);
  }

  lemma {:induction false} InvAlongRun(cfg: Config, run: seq<State>, i: nat)
    requires cfg.libs.Lawful()
    requires IsRun(cfg, run) && i < |run|
    requires Inv(cfg, run[0])
    ensures Inv(cfg, run[i])
  {
    hide Inv, Libs.Lawful, Enabled, Apply;
    if i > 0 {
      InvAlongRun(cfg, run, i - 1);
      var step := StepAt(cfg, run, i);
      StepKeepsInv(cfg, run[i - 1], step);
    }
  }

  lemma ReachableInv(cfg: Config, s: State)
    requires cfg.libs.Lawful() && Reachable(cfg, s)
    ensures Inv(cfg, s)
  {
    hide Inv, AtRest, Libs.Lawful, Next;
    var run :| IsRun(cfg, run) && AtRest(cfg, run[0]) && run[|run| - 1] == s;
    AtRestInv(cfg, run[0]);
    InvAlongRun(cfg, run, |run| - 1);
  }

  lemma NonEmptyRun(cfg: Config, run: seq<State>)
    requires IsRun(cfg, run)
    ensures |run| > 0
  {
  }

  lemma ReachableStep(cfg: Config, s: State, step: Step)
    requires Reachable(cfg, s) && Enabled(cfg, s, step)
    ensures Reachable(cfg, Apply(cfg, s, step))
  {
    hide AtRest, Enabled, Apply;
    var run :| IsRun(cfg, run) && AtRest(cfg, run[0]) && run[|run| - 1] == s;
    var longer := run + [Apply(cfg, s, step)];
    forall i | 0 <= i < |longer| - 1 ensures Next(cfg, longer[i], longer[i + 1]) {
      if i < |run| - 1 { assert Next(cfg, run[i], run[i + 1]); }
    }
    assert IsRun(cfg, longer) && AtRest(cfg, longer[0]) && longer[|longer| - 1] == Apply(cfg, s, step);
  }

  lemma ReachableStore(cfg: Config, s: State)
    requires cfg.libs.Lawful() && Reachable(cfg, s)
    ensures StoreOk(cfg, Durable(cfg, s), s.chunks, s.indexes)
  {
    hide LocksOk, BatchesOk, StoreOk, Reachable;
    ReachableInv(cfg, s);
  }

  /** A new process over the same backend: every call, lock and guard is gone. */
  function Restarted(s: State): State {
    s.(serviceLocks := map[], manifestLock := None, batches := [], commits := [])
  }

  /** A crash at any moment of any run leaves an archive at rest, from which new runs start. */
  lemma RestartIsAtRest(cfg: Config, s: State)
    requires cfg.libs.Lawful() && Reachable(cfg, s)
    ensures AtRest(cfg, Restarted(s))
    ensures Reachable(cfg, Restarted(s))
  {
    hide StoreOk, Reachable;
    ReachableStore(cfg, s);
    RestReachable(cfg, Restarted(s));
  }

  /** Runs start, for one, from a backend with nothing stored. */
  lemma EmptyBackendIsAtRest(cfg: Config)
    ensures AtRest(cfg, State(None, map[], map[], map[], None, [], []))
    ensures Reachable(cfg, State(None, map[], map[], map[], None, [], []))
  {
    var empty := State(None, map[], map[], map[], None, [], []);
    assert AtRest(cfg, empty) by { EmptyStoreOk(cfg); }
    hide AtRest;
    RestReachable(cfg, empty);
  }

  lemma RestReachable(cfg: Config, s: State)
    requires AtRest(cfg, s)
    ensures Reachable(cfg, s)
  {
    hide AtRest;
    assert IsRun(cfg, [s]) && AtRest(cfg, [s][0]) && [s][|[s]| - 1] == s;
  }

  /** In every reachable state, every service in the durable manifest verifies to its full length. */
  lemma ReachableServicesVerify(cfg: Config, s: State, service: Text, get: ChunkReads)
    requires cfg.libs.Lawful() && Reachable(cfg, s)
    requires service in Durable(cfg, s).services
    requires ReadsStored(get, s.chunks, Durable(cfg, s).services[service].chunks)
    ensures var e := Durable(cfg, s).services[service];
      VerifyReports(cfg.libs, service, e, get, Ok(|e.chunks|)) && e.nextSequence == |e.chunks|
  {
    hide Reachable, IdsOk, Registered, VerifyReports, RefOk, Libs.Lawful;
    ReachableStore(cfg, s);
    ConsistentEntryVerifies(cfg, service, Durable(cfg, s).services[service], s.chunks, s.indexes, get);
  }

  lemma ReachableNoncesDistinct(cfg: Config, s: State, t: Text, i: nat, u: Text, j: nat)
    requires cfg.libs.Lawful() && Reachable(cfg, s)
    requires t in Durable(cfg, s).services && i < |Durable(cfg, s).services[t].chunks| < U64_LIMIT
    requires u in Durable(cfg, s).services && j < |Durable(cfg, s).services[u].chunks| < U64_LIMIT
    requires t != u || i != j
    ensures Fetch(s.chunks, Durable(cfg, s).services[t].chunks[i]).header.nonce
      != Fetch(s.chunks, Durable(cfg, s).services[u].chunks[j]).header.nonce
  {
    hide StoreOk, Reachable;
    ReachableStore(cfg, s);
    NoncesAreDistinct(cfg, Durable(cfg, s), s.chunks, s.indexes, t, i, u, j);
  }

  // ---- What is referenced stays ----

  /** Every service of `m` keeps its id and its refs, in place, and all they refer to. */
  ghost predicate Preserved(m: Manifest, chunks: Chunks, indexes: Indexes, m': Manifest, chunks': Chunks,
    indexes': Indexes) {
    forall t :: t in m.services ==> ServicePreserved(m.services[t], chunks, indexes, t, m', chunks', indexes')
  }

  ghost predicate ServicePreserved(e: ServiceChain, chunks: Chunks, indexes: Indexes, t: Text, m': Manifest,
    chunks': Chunks, indexes': Indexes) {
    && t in m'.services
    && m'.services[t].serviceId == e.serviceId
    && e.chunks <= m'.services[t].chunks
    && (forall r :: r in e.chunks ==> SameStored(r, chunks, indexes, chunks', indexes'))
  }

  ghost predicate SameStored(r: ChunkRef, chunks: Chunks, indexes: Indexes, chunks': Chunks, indexes': Indexes) {
    GetChunk(chunks', r) == GetChunk(chunks, r) && GetIndex(indexes', r) == GetIndex(indexes, r)
  }

  lemma PreservedReflexive(m: Manifest, chunks: Chunks, indexes: Indexes)
    ensures Preserved(m, chunks, indexes, m, chunks, indexes)
  {
  }

  lemma PreservedTransitive(m: Manifest, chunks: Chunks, indexes: Indexes, m1: Manifest, chunks1: Chunks, indexes1: Indexes,
    m2: Manifest, chunks2: Chunks, indexes2: Indexes)
    requires Preserved(m, chunks, indexes, m1, chunks1, indexes1)
    requires Preserved(m1, chunks1, indexes1, m2, chunks2, indexes2)
    ensures Preserved(m, chunks, indexes, m2, chunks2, indexes2)
  {
    forall t | t in m.services ensures ServicePreserved(m.services[t], chunks, indexes, t, m2, chunks2, indexes2) {
      assert ServicePreserved(m.services[t], chunks, indexes, t, m1, chunks1, indexes1);
      assert ServicePreserved(m1.services[t], chunks1, indexes1, t, m2, chunks2, indexes2);
      PrefixTransitive(m.services[t].chunks, m1.services[t].chunks, m2.services[t].chunks);
    }
  }

  lemma PrefixTransitive(a: seq<ChunkRef>, b: seq<ChunkRef>, c: seq<ChunkRef>)
    requires a <= b <= c
    ensures a <= c
    ensures forall r :: r in a ==> r in b
  {
  }

  lemma UploadTargetIsFree(cfg: Config, s: State, b: nat, i: nat, t: Text)
    requires Inv(cfg, s)
    requires b < |s.batches| && s.batches[b].phase.Uploading?
    requires i < |s.batches[b].phase.built.chunks|
    requires t in Durable(cfg, s).services
    ensures s.batches[b].phase.built.chunks[i].Ref() !in Durable(cfg, s).services[t].chunks
  {
    hide LocksOk, IdsOk, Registered, EntryOk, ShapeOk, BuiltOk, SeedCurrent, UploadsOk, Unreferenced;
    var m, p := Durable(cfg, s), s.batches[b].phase;
    assert BatchOk(cfg, m, s.chunks, s.indexes, s.batches[b]);
    UploadIsUnreferenced(cfg, m, s.batches[b], p.seed, p.built, i);
    if p.built.chunks[i].Ref() in m.services[t].chunks {
      ReferencedAreNumbered(cfg, m, s.chunks, s.indexes, t, p.built.chunks[i].Ref());
    }
  }

  /** In no reachable state does a call upload, or retry, over a key the durable manifest refers to. */
  lemma UploadsNeverOverwriteReferenced(cfg: Config, s: State, b: nat, i: nat, t: Text)
    requires cfg.libs.Lawful() && Reachable(cfg, s)
    requires b < |s.batches| && s.batches[b].phase.Uploading?
    requires i < |s.batches[b].phase.built.chunks|
    requires t in Durable(cfg, s).services
    ensures s.batches[b].phase.built.chunks[i].Ref() !in Durable(cfg, s).services[t].chunks
  {
    hide Inv, Reachable;
    ReachableInv(cfg, s);
    UploadTargetIsFree(cfg, s, b, i, t);
  }

  lemma FinishUploadPreserves(cfg: Config, s: State, b: nat, i: nat, put: PutOutcome)
    requires Inv(cfg, s)
    requires b < |s.batches| && s.batches[b].phase.Uploading?
    requires i < |s.batches[b].phase.built.chunks| && i < |s.batches[b].phase.built.indexes|
    ensures var s' := FinishUploadStep(s, b, i, put);
      Preserved(Durable(cfg, s), s.chunks, s.indexes, Durable(cfg, s'), s'.chunks, s'.indexes)
  {
    hide Inv;
    var m, s' := Durable(cfg, s), FinishUploadStep(s, b, i, put);
    forall t | t in m.services ensures ServicePreserved(m.services[t], s.chunks, s.indexes, t, m, s'.chunks, s'.indexes) {
      UploadTargetIsFree(cfg, s, b, i, t);
    }
  }

  lemma ManifestChangePreserves(m: Manifest, chunks: Chunks, indexes: Indexes, m': Manifest)
    requires forall t :: t in m.services ==>
      t in m'.services && m'.services[t].serviceId == m.services[t].serviceId &&
      m.services[t].chunks <= m'.services[t].chunks
    ensures Preserved(m, chunks, indexes, m', chunks, indexes)
  {
  }

  lemma RegistrationPreserves(cfg: Config, s: State, b: nat)
    requires Inv(cfg, s) && b < |s.batches| && s.batches[b].phase.RegisterWriting?
    ensures Preserved(Durable(cfg, s), s.chunks, s.indexes, s.batches[b].phase.draft, s.chunks, s.indexes)
  {
    hide LocksOk, StoreOk, ShapeOk;
    assert BatchOk(cfg, Durable(cfg, s), s.chunks, s.indexes, s.batches[b]);
    ManifestChangePreserves(Durable(cfg, s), s.chunks, s.indexes, s.batches[b].phase.draft);
  }

  lemma CommitPreserves(cfg: Config, s: State, b: nat)
    requires Inv(cfg, s) && b < |s.batches| && s.batches[b].phase.CommitWriting?
    ensures Preserved(Durable(cfg, s), s.chunks, s.indexes, s.batches[b].phase.draft, s.chunks, s.indexes)
  {
    hide LocksOk, StoreOk, ShapeOk, BuiltOk, AllStored, SeedCurrent;
    assert BatchOk(cfg, Durable(cfg, s), s.chunks, s.indexes, s.batches[b]);
    BuiltLengths(cfg, s.batches[b].phase.seed, s.batches[b].buckets, s.batches[b].phase.built);
    ManifestChangePreserves(Durable(cfg, s), s.chunks, s.indexes, s.batches[b].phase.draft);
  }

  /** Only finished uploads and manifest writes touch the backend. */
  lemma OtherStepsKeepBackend(cfg: Config, s: State, step: Step)
    requires Enabled(cfg, s, step)
    requires !step.FinishUpload? && !step.WriteRegistration? && !step.WriteCommit?
    ensures var s' := Apply(cfg, s, step);
      s'.manifest == s.manifest && s'.chunks == s.chunks && s'.indexes == s.indexes
  {
    hide NewBatch, RegisterOne, Overlay, BuildAll, Listed, Durable, AllBuildable, SetPhase, Finish, CanList;
    if !step.Begin? && step.b < |s.batches| { MovesKeepBackend(s, step.b); }
  }

  lemma MovesKeepBackend(s: State, b: nat)
    requires b < |s.batches|
    ensures forall p :: var s' := SetPhase(s, b, p);
      s'.manifest == s.manifest && s'.chunks == s.chunks && s'.indexes == s.indexes
    ensures forall p :: var s' := Finish(s, b, p);
      s'.manifest == s.manifest && s'.chunks == s.chunks && s'.indexes == s.indexes
  {
  }

  /** An index once stored is only ever replaced. */
  lemma IndexesStay(cfg: Config, s: State, step: Step)
    requires Enabled(cfg, s, step)
    ensures s.indexes.Keys <= Apply(cfg, s, step).indexes.Keys
  {
    hide NewBatch, RegisterOne, Overlay, BuildAll, Listed, Durable, AllBuildable;
    if !step.FinishUpload? && !step.WriteRegistration? && !step.WriteCommit? {
      hide Enabled, Apply;
      OtherStepsKeepBackend(cfg, s, step);
    }
  }

  lemma StepPreserves(cfg: Config, s: State, step: Step)
    requires Inv(cfg, s) && Enabled(cfg, s, step)
    ensures var s' := Apply(cfg, s, step);
      Preserved(Durable(cfg, s), s.chunks, s.indexes, Durable(cfg, s'), s'.chunks, s'.indexes)
  {
    hide Inv, Preserved;
    PreservedReflexive(Durable(cfg, s), s.chunks, s.indexes);
    match step {
      case FinishUpload(b, i, put) => FinishUploadPreserves(cfg, s, b, i, put);
      case WriteRegistration(b, _) => RegistrationPreserves(cfg, s, b);
      case WriteCommit(b, _) => CommitPreserves(cfg, s, b);
      case _ =>
        hide Apply;
        OtherStepsKeepBackend(cfg, s, step);
    }
  }

  /** From any state of a run to any later one, referenced chunks and indexes never change, refs keep
      their places, and service ids are permanent. */
  lemma {:induction false} RunPreserves(cfg: Config, run: seq<State>, i: nat, j: nat)
    requires cfg.libs.Lawful()
    requires IsRun(cfg, run) && i <= j < |run|
    requires Reachable(cfg, run[0])
    ensures Preserved(Durable(cfg, run[i]), run[i].chunks, run[i].indexes, Durable(cfg, run[j]), run[j].chunks,
      run[j].indexes)
    decreases j - i
  {
    hide Inv, Reachable, IsRun, Preserved, Libs.Lawful, Enabled, Apply, Durable;
    if i == j {
      PreservedReflexive(Durable(cfg, run[i]), run[i].chunks, run[i].indexes);
    } else {
      RunPreserves(cfg, run, i, j - 1);
      ReachableInv(cfg, run[0]);
      InvAlongRun(cfg, run, j - 1);
      var step := StepAt(cfg, run, j);
      StepPreserves(cfg, run[j - 1], step);
      PreservedTransitive(Durable(cfg, run[i]), run[i].chunks, run[i].indexes,
        Durable(cfg, run[j - 1]), run[j - 1].chunks, run[j - 1].indexes,
        Durable(cfg, run[j]), run[j].chunks, run[j].indexes);
    }
  }

  // ---- Snapshot reads ----

  /** The `n`-th read happens in the state `when(n)` steps into the run. */
  ghost function ChunksDuring(run: seq<State>, when: nat -> nat): ChunkReads
    requires run != []
  {
    (n: nat, r: ChunkRef) => GetChunk(run[Within(run, when(n))].chunks, r)
  }

  ghost function IndexesDuring(run: seq<State>, when: nat -> nat): IndexReads
    requires run != []
  {
    (n: nat, r: ChunkRef) => GetIndex(run[Within(run, when(n))].indexes, r)
  }

  function Within(run: seq<State>, n: nat): (i: nat)
    requires run != []
    ensures i < |run|
  {
    if n < |run| then n else |run| - 1
  }

  /** What the first manifest refers to stays as it is. */
  ghost predicate StaysAlong(cfg: Config, run: seq<State>) {
    run != [] && forall j :: 0 <= j < |run| ==> StaysIn(cfg, run[0], run[j])
  }

  ghost predicate StaysIn(cfg: Config, s: State, s': State) {
    Preserved(Durable(cfg, s), s.chunks, s.indexes, Durable(cfg, s'), s'.chunks, s'.indexes)
  }

  lemma StayingReads(cfg: Config, run: seq<State>, chunkWhen: nat -> nat, indexWhen: nat -> nat)
    requires StaysAlong(cfg, run)
    ensures ReadsOf(Durable(cfg, run[0]), run[0].chunks, run[0].indexes, IndexesDuring(run, indexWhen),
      ChunksDuring(run, chunkWhen))
  {
    hide Durable;
    var m := Durable(cfg, run[0]);
    forall n: nat, t, r | t in m.services && r in m.services[t].chunks
      ensures ChunksDuring(run, chunkWhen)(n, r) == GetChunk(run[0].chunks, r)
      ensures IndexesDuring(run, indexWhen)(n, r) == GetIndex(run[0].indexes, r)
    {
      StaysAt(cfg, run[0], run[Within(run, chunkWhen(n))], t, r);
      StaysAt(cfg, run[0], run[Within(run, indexWhen(n))], t, r);
    }
  }

  lemma StaysAt(cfg: Config, s: State, s': State, t: Text, r: ChunkRef)
    requires StaysIn(cfg, s, s') && t in Durable(cfg, s).services && r in Durable(cfg, s).services[t].chunks
    ensures GetChunk(s'.chunks, r) == GetChunk(s.chunks, r) && GetIndex(s'.indexes, r) == GetIndex(s.indexes, r)
  {
    hide Durable;
    assert ServicePreserved(Durable(cfg, s).services[t], s.chunks, s.indexes, t, Durable(cfg, s'), s'.chunks, s'.indexes);
    assert SameStored(r, s.chunks, s.indexes, s'.chunks, s'.indexes);
  }

  lemma RunStays(cfg: Config, run: seq<State>)
    requires cfg.libs.Lawful()
    requires IsRun(cfg, run) && Reachable(cfg, run[0])
    ensures StaysAlong(cfg, run)
  {
    hide Reachable, IsRun, Libs.Lawful, Preserved;
    NonEmptyRun(cfg, run);
    forall j | 0 <= j < |run| ensures StaysIn(cfg, run[0], run[j]) { RunPreserves(cfg, run, 0, j); }
  }

  lemma OneStateStays(cfg: Config, s: State)
    ensures StaysAlong(cfg, [s])
  {
    hide Preserved;
    PreservedReflexive(Durable(cfg, s), s.chunks, s.indexes);
  }

  /** Reads spread over a run agree with the state in which the manifest was read. */
  lemma ReadsAreSnapshot(cfg: Config, run: seq<State>, chunkWhen: nat -> nat, indexWhen: nat -> nat)
    requires cfg.libs.Lawful()
    requires IsRun(cfg, run) && Reachable(cfg, run[0])
    ensures ReadsOf(Durable(cfg, run[0]), run[0].chunks, run[0].indexes, IndexesDuring(run, indexWhen),
      ChunksDuring(run, chunkWhen))
  {
    hide Reachable, IsRun, Libs.Lawful, StaysIn;
    RunStays(cfg, run);
    StayingReads(cfg, run, chunkWhen, indexWhen);
  }

  /** The query with its reads spread over `run` returns what it returns with all of them in its first state. */
  ghost predicate QueriesAsAtFirst(cfg: Config, asked: nat, run: seq<State>, q: IndexQuery, chunkWhen: nat -> nat,
    indexWhen: nat -> nat)
    requires run != []
  {
    QueryResult(Queried(cfg, asked), Durable(cfg, run[0]), q, IndexesDuring(run, indexWhen), ChunksDuring(run, chunkWhen))
    == QueryResult(Queried(cfg, asked), Durable(cfg, run[0]), q, IndexesDuring([run[0]], n => 0),
      ChunksDuring([run[0]], n => 0))
  }

  /** All entries of the manifest are consistent with what is stored. */
  ghost predicate EntriesStand(cfg: Config, s: State) {
    EntriesOk(cfg, Durable(cfg, s), s.chunks, s.indexes)
  }

  lemma StayingQuery(cfg: Config, asked: nat, run: seq<State>, q: IndexQuery, chunkWhen: nat -> nat, indexWhen: nat -> nat)
    requires StaysAlong(cfg, run)
    ensures QueriesAsAtFirst(cfg, asked, run, q, chunkWhen, indexWhen)
    ensures cfg.libs.Lawful() && LosesNothing(cfg.windowSecs, asked, q) && EntriesStand(cfg, run[0]) ==>
      QueryResult(Queried(cfg, asked), Durable(cfg, run[0]), q, IndexesDuring(run, indexWhen),
        ChunksDuring(run, chunkWhen)) ==
      FullScan(cfg, Durable(cfg, run[0]), q, ChunksDuring([run[0]], n => 0))
  {
    hide EntriesOk, QueryResult, FullScan, ReadsOf, LosesNothing, Libs.Lawful, StaysIn;
    var m, still := Durable(cfg, run[0]), [run[0]];
    StayingReads(cfg, run, chunkWhen, indexWhen);
    OneStateStays(cfg, run[0]);
    StayingReads(cfg, still, n => 0, n => 0);
    QueryDependsOnReferenced(Queried(cfg, asked), m, q, run[0].chunks, run[0].indexes, IndexesDuring(run, indexWhen),
      ChunksDuring(run, chunkWhen), IndexesDuring(still, n => 0), ChunksDuring(still, n => 0));
    if cfg.libs.Lawful() && LosesNothing(cfg.windowSecs, asked, q) && EntriesStand(cfg, run[0]) {
      QueryIsFullScan(cfg, asked, m, run[0].chunks, run[0].indexes, q, IndexesDuring(still, n => 0),
        ChunksDuring(still, n => 0));
    }
  }

  /** A query whose reads interleave with running ingests returns, for any window asked with, what it would
      return run atomically when it read the manifest; when pruning can lose nothing, that is the full scan
      of that moment. */
  lemma QueryIsSnapshot(cfg: Config, asked: nat, run: seq<State>, q: IndexQuery, chunkWhen: nat -> nat,
    indexWhen: nat -> nat)
    requires cfg.libs.Lawful()
    requires IsRun(cfg, run) && Reachable(cfg, run[0])
    ensures QueryResult(Queried(cfg, asked), Durable(cfg, run[0]), q, IndexesDuring(run, indexWhen),
      ChunksDuring(run, chunkWhen)) ==
      QueryResult(Queried(cfg, asked), Durable(cfg, run[0]), q, IndexesDuring([run[0]], n => 0),
        ChunksDuring([run[0]], n => 0))
    ensures LosesNothing(cfg.windowSecs, asked, q) ==>
      QueryResult(Queried(cfg, asked), Durable(cfg, run[0]), q, IndexesDuring(run, indexWhen),
        ChunksDuring(run, chunkWhen)) ==
      FullScan(cfg, Durable(cfg, run[0]), q, ChunksDuring([run[0]], n => 0))
  {
    hide Reachable, IsRun, QueryResult, FullScan, LosesNothing, Libs.Lawful, StaysAlong, EntriesOk, IdsOk, Registered;
    NonEmptyRun(cfg, run);
    RunStays(cfg, run);
    ReachableStore(cfg, run[0]);
    StayingQuery(cfg, asked, run, q, chunkWhen, indexWhen);
  }

  /** `verify_service` interleaved with running ingests verifies the chain as it stood when the
      manifest was read. */
  lemma VerifyIsSnapshot(cfg: Config, run: seq<State>, service: Text, when: nat -> nat)
    requires cfg.libs.Lawful()
    requires IsRun(cfg, run) && Reachable(cfg, run[0])
    requires service in Durable(cfg, run[0]).services
    ensures var e := Durable(cfg, run[0]).services[service];
      VerifyReports(cfg.libs, service, e, ChunksDuring(run, when), Ok(|e.chunks|))
  {
    hide LocksOk, BatchesOk, IdsOk, Registered, EntryOk, Reachable, IsRun, VerifyReports, Libs.Lawful;
    NonEmptyRun(cfg, run);
    ReachableInv(cfg, run[0]);
    ReadsAreSnapshot(cfg, run, when, when);
    ConsistentEntryVerifies(cfg, service, Durable(cfg, run[0]).services[service], run[0].chunks, run[0].indexes,
      ChunksDuring(run, when));
  }
}
