/** A failed commit that landed, and the next batch over the cached manifest: the stored manifest comes to
    refer to a chunk that has been replaced. */
module StaleManifest {
  import opened Core
  import opened KeyedStore
  import opened Ordering
  import opened Canonical
  import opened Chain
  import opened Builder
  import opened Windows
  import opened Chunking
  import opened Index
  import opened Sealing
  import opened Archive
  import opened Protocol
  import opened Safety
  import opened Runs
  import opened Serial
  import opened Progress
  import opened Completion
  import opened OneRecord
  import opened CachedManifest

  // ---- A call that nothing stops reaches its commit ----

  lemma {:induction false} FirstAcked(cfg: Config, run: seq<State>, b: nat, n: nat) returns (j: nat)
    requires IsSmooth(cfg, run) && n < |run|
    requires b < |run[0].batches| && !run[0].batches[b].phase.Acked?
    requires b < |run[n].batches| && run[n].batches[b].phase.Acked?
    ensures j < n && b < |run[j].batches| && run[j].batches[b].phase.CommitWriting?
  {
    hide IsSmooth, Enabled, Apply, Smooth;
    if n == 0 {
      assert false;
    } else {
      var step := SmoothStepAt(cfg, run, n);
      CallsRemain(cfg, run, n - 1);
      if run[n - 1].batches[b].phase.Acked? {
        j := FirstAcked(cfg, run, b, n - 1);
      } else {
        NewlyAcked(cfg, run[n - 1], step, b);
        NoArrival(cfg, run[n - 1], step);
        LandedIsFinished(cfg, run[n - 1], step, b);
        j := n - 1;
      }
    }
  }

  lemma {:induction false} CallsRemain(cfg: Config, run: seq<State>, i: nat)
    requires IsSmooth(cfg, run) && i < |run|
    ensures |run[0].batches| <= |run[i].batches|
  {
    hide IsSmooth, Enabled, Apply, Smooth, SameCall;
    if i > 0 {
      CallsRemain(cfg, run, i - 1);
      var step := SmoothStepAt(cfg, run, i);
      SameCallsAfter(cfg, run[i - 1], step);
    }
  }

  lemma PrefixIsSmooth(cfg: Config, run: seq<State>, n: nat)
    requires IsSmooth(cfg, run) && 0 < n <= |run|
    ensures IsSmooth(cfg, run[..n])
  {
    hide SmoothNext;
    forall i | 0 <= i < n - 1 ensures SmoothNext(cfg, run[..n][i], run[..n][i + 1]) {
      assert SmoothNext(cfg, run[i], run[i + 1]);
    }
  }

  /** From `s` some run in which nothing fails brings call `b` to its final write. */
  lemma ReachesCommit(cfg: Config, s: State, b: nat) returns (run: seq<State>)
    requires cfg.libs.Lawful() && Reachable(cfg, s)
    requires IdsSuffice(cfg, s) && NothingNested(cfg, s) && AllAdmitted(cfg, s)
    requires b < |s.batches| && OnTrack(s.batches[b])
    ensures run != [] && IsSmooth(cfg, run) && run[0] == s && Reachable(cfg, run[|run| - 1])
    ensures b < |run[|run| - 1].batches| && run[|run| - 1].batches[b].phase.CommitWriting?
    ensures SameCall(s.batches[b], run[|run| - 1].batches[b])
  {
    hide Reachable, Libs.Lawful, IdsSuffice, NothingNested, AllAdmitted, Admits, TotalWork, SmoothNext, SameCall, Grows;
    assert IsSmooth(cfg, [s]);
    var full := SmoothRunContinues(cfg, [s]);
    assert full[0] == s;
    var j := FirstAcked(cfg, full, b, |full| - 1);
    PrefixIsSmooth(cfg, full, j + 1);
    run := full[..j + 1];
    assert run[0] == s && run[|run| - 1] == full[j];
    hide IsSmooth;
    SmoothRunRegisters(cfg, run, |run| - 1);
  }

  // ---- A connection follows such a run ----

  lemma {:induction false} FollowsSmooth(cfg: Config, p: Connection, run: seq<State>, i: nat) returns (q: Connection)
    requires cfg.libs.Lawful() && Occurs(cfg, p)
    requires IsSmooth(cfg, run) && run[0] == p.live && i < |run|
    ensures Occurs(cfg, q) && q.live == run[i]
    ensures p.view.cached.Some? ==> q.view.cached.Some?
    ensures q.view.cached.None? ==> q.live.manifest == p.live.manifest
  {
    hide Occurs, IsSmooth, Enabled, Apply, Smooth, Libs.Lawful;
    if i == 0 {
      q := p;
    } else {
      var before := FollowsSmooth(cfg, p, run, i - 1);
      var step := SmoothStepAt(cfg, run, i);
      AdvancedOccurs(cfg, before, step);
      q := Advanced(cfg, before, step);
      SmoothIsSeen(cfg, before, step);
    }
  }

  /** A step that succeeds is seen as it is. */
  lemma SmoothIsSeen(cfg: Config, p: Connection, step: Step)
    requires Enabled(cfg, p.live, step) && Smooth(cfg, p.live, step)
    ensures SeenStep(p.view, step) == step
    ensures Advanced(cfg, p, step).live == Apply(cfg, p.live, step)
    ensures p.view.cached.Some? ==> Advanced(cfg, p, step).view.cached.Some?
    ensures Advanced(cfg, p, step).view.cached.None? ==> Apply(cfg, p.live, step).manifest == p.live.manifest
    ensures !IsWrite(step) ==> Advanced(cfg, p, step) == p.(live := Apply(cfg, p.live, step))
  {
    hide Enabled, Apply;
    SeenIsEnabled(cfg, p.live, p.view, step);
    ManifestAfter(cfg, p.live, step);
  }

  // ---- A call whose services are known writes nothing before its commit ----

  predicate BeforeCommit(p: Phase) {
    p.Locking? || p.SeedReading? || p.Building? || (p.Uploading? && !p.failed) ||
    p.WaitingToCommit? || p.CommitReading? || p.CommitWriting?
  }

  /** Call `b` alone is running, has its services registered, and has not written. */
  ghost predicate AloneBeforeCommit(cfg: Config, s: State, b: nat) {
    && b < |s.batches|
    && (forall c :: 0 <= c < |s.batches| && c != b ==> Finished(s.batches[c].phase))
    && (forall t :: t in s.batches[b].services ==> t in Durable(cfg, s).services)
    && BeforeCommit(s.batches[b].phase)
  }

  lemma StaysBeforeCommit(cfg: Config, s: State, step: Step, b: nat)
    requires AloneBeforeCommit(cfg, s, b)
    requires Enabled(cfg, s, step) && Smooth(cfg, s, step) && !step.WriteCommit?
    ensures CallOf(step) == Some(b) && !IsWrite(step)
    ensures b < |Apply(cfg, s, step).batches| && BeforeCommit(Apply(cfg, s, step).batches[b].phase)
    ensures Apply(cfg, s, step).manifest == s.manifest
  {
    hide NewBatch, RegisterOne, Overlay, BuildAll, Listed, AllBuildable, SetPhase, Finish;
    CallIsRunning(cfg, s, step, CallOf(step).value);
    MovesTo(s, b);
    assert CallOf(step) == Some(b);
    ManifestAfter(cfg, s, step);
    if s.batches[b].phase.SeedReading? {
      SeedIsRead(cfg, s, b);
    }
    hide Durable;
  }

  lemma SeedIsRead(cfg: Config, s: State, b: nat)
    requires b < |s.batches| && (forall t :: t in s.batches[b].services ==> t in Durable(cfg, s).services)
    ensures b < |ReadSeedStep(cfg, s, b).batches| && ReadSeedStep(cfg, s, b).batches[b].phase.Building?
  {
  }

  /** Until its commit such a call changes neither the served manifest nor the stored one. */
  lemma {:induction false} FollowsToCommit(cfg: Config, p: Connection, run: seq<State>, b: nat,
    i: nat) returns (q: Connection)
    requires cfg.libs.Lawful() && Occurs(cfg, p)
    requires IsSmooth(cfg, run) && run[0] == p.live && i < |run|
    requires AloneBeforeCommit(cfg, p.live, b)
    requires b < |run[i].batches| && !Finished(run[i].batches[b].phase)
    ensures Occurs(cfg, q) && q == p.(live := run[i])
    ensures AloneBeforeCommit(cfg, run[i], b) && run[i].manifest == p.live.manifest
  {
    hide Occurs, IsSmooth, Enabled, Apply, Smooth, Advanced, Libs.Lawful, Durable, SameCall, BeforeCommit;
    if i == 0 {
      q := p;
      assert p == p.(live := run[0]);
    } else {
      var step := SmoothStepAt(cfg, run, i);
      var s := run[i - 1];
      CallsRemain(cfg, run, i - 1);
      FinishedStays(cfg, s, step, b);
      var before := FollowsToCommit(cfg, p, run, b, i - 1);
      NoCommitYet(cfg, s, step, b);
      StaysBeforeCommit(cfg, s, step, b);
      CallMoves(cfg, s, step, b);
      AdvancedOccurs(cfg, before, step);
      SmoothIsSeen(cfg, before, step);
      q := Advanced(cfg, before, step);
      StillRegistered(cfg, s, run[i], b);
    }
  }

  lemma StillRegistered(cfg: Config, s: State, s': State, b: nat)
    requires b < |s.batches| && b < |s'.batches| && SameCall(s.batches[b], s'.batches[b])
    requires s'.manifest == s.manifest
    requires forall t :: t in s.batches[b].services ==> t in Durable(cfg, s).services
    ensures forall t :: t in s'.batches[b].services ==> t in Durable(cfg, s').services
  {
  }

  lemma NoCommitYet(cfg: Config, s: State, step: Step, b: nat)
    requires AloneBeforeCommit(cfg, s, b) && Enabled(cfg, s, step) && Smooth(cfg, s, step)
    requires b < |Apply(cfg, s, step).batches| && !Finished(Apply(cfg, s, step).batches[b].phase)
    ensures !step.WriteCommit?
  {
    hide Apply, Enabled, BeforeCommit, Durable;
    if step.WriteCommit? {
      CommitFinishes(cfg, s, step, b);
    }
  }

  lemma CommitFinishes(cfg: Config, s: State, step: Step, b: nat)
    requires AloneBeforeCommit(cfg, s, b) && Enabled(cfg, s, step) && step.WriteCommit?
    ensures b < |Apply(cfg, s, step).batches| && Finished(Apply(cfg, s, step).batches[b].phase)
  {
    hide BeforeCommit, Durable;
    assert step.b == b;
  }

  // ---- Batches of one record ----

  lemma OneRecordBatch(cfg: Config, x: LogRecord)
    ensures ChunkBatch(cfg, [x]) == [BucketOf(cfg, x)]
    ensures NewBatch(cfg, [x]).services == [x.service]
    ensures NewBatch(cfg, [x]).phase == Locking(0) && NewBatch(cfg, [x]).records == [x]
    ensures NewBatch(cfg, [x]).buckets == [BucketOf(cfg, x)]
  {
    OneRecordBuckets(cfg, x);
    hide ChunkBatch;
    OneService(ChunkBatch(cfg, [x]), BucketOf(cfg, x));
  }

  lemma OneService(buckets: seq<Bucket>, b: Bucket)
    requires buckets == [b]
    ensures ServiceList(buckets) == [b.service]
  {
    hide TextLt;
    TextLtStrictTotal();
    assert buckets[0] in buckets && ServicesIn(buckets) == {b.service};
    assert Enumerates([b.service], {b.service}, TextLt);
    EnumerationUnique([b.service], ServiceList(buckets), {b.service}, TextLt);
  }

  lemma OneRecordBuckets(cfg: Config, x: LogRecord)
    ensures ChunkBatch(cfg, [x]) == [BucketOf(cfg, x)]
  {
    hide TextLt, WindowOf;
    var key := KeyOf(cfg, x);
    KeyLtStrictTotal();
    assert Keys(cfg, [x]) == {key};
    assert Enumerates([key], {key}, KeyLt);
    EnumerationUnique([key], SortedKeys(cfg, [x]), {key}, KeyLt);
    assert [x][..0] == [] && [] + [x] == [x];
    assert RecordsOf(cfg, [x], key) == [x];
    KeyIsWindow(cfg, x);
    assert BucketsFor(cfg, [x], [key]) == [BucketOf(cfg, x)];
  }

  lemma KeyIsWindow(cfg: Config, x: LogRecord)
    ensures KeyOf(cfg, x) == BucketKey(x.service, WindowOf(cfg, x))
  {
  }

  lemma BeginOne(cfg: Config, p: Connection, x: LogRecord) returns (q: Connection)
    requires Occurs(cfg, p) && Dated(cfg.libs, x.timestamp)
    ensures Occurs(cfg, q) && q == p.(live := p.live.(batches := p.live.batches + [NewBatch(cfg, [x])]))
  {
    hide Occurs, NewBatch;
    AdvancedOccurs(cfg, p, Begin([x]));
    q := Advanced(cfg, p, Begin([x]));
  }

  /** At its final write, a batch of one record has one chunk stored, under the next sequence of its service
      in the served manifest; its draft refers to it, and it opens to the record. */
  lemma AtCommit(cfg: Config, s: State, b: nat, x: LogRecord)
    requires cfg.libs.Lawful() && Inv(cfg, s)
    requires b < |s.batches| && s.batches[b].phase.CommitWriting? && s.batches[b].records == [x]
    ensures x.service in Durable(cfg, s).services
    ensures var r := ChunkRef(x.service, WindowOf(cfg, x), Durable(cfg, s).services[x.service].nextSequence);
      && r in s.chunks && OpenChunk(cfg.libs, s.chunks[r]) == Ok([x])
      && x.service in s.batches[b].phase.draft.services
      && r in s.batches[b].phase.draft.services[x.service].chunks
  {
    hide LocksOk, StoreOk, OpenChunk, IndexOf, WindowOf, ChunkBatch, GoodBuckets, Enumerates, Libs.Lawful,
      SequencesRise, BuildAll, DeriveNonce;
    var m, batch := Durable(cfg, s), s.batches[b];
    assert BatchOk(cfg, m, s.chunks, s.indexes, batch);
    OneRecordBatch(cfg, x);
    OneBuilt(cfg, m, batch, s.chunks, s.indexes, x);
  }

  lemma OneBuilt(cfg: Config, m: Manifest, batch: Batch, chunks: Chunks, indexes: Indexes, x: LogRecord)
    requires batch.phase.CommitWriting? && batch.buckets == [BucketOf(cfg, x)]
    requires SeededOk(cfg, m, batch, batch.phase.seed, batch.phase.built)
    requires AllStored(batch.phase.built, chunks, indexes)
    requires batch.phase.built.heads.Keys <= batch.phase.seed.services.Keys
    requires batch.phase.draft == Overlay(m, batch.phase.seed, batch.phase.built)
    ensures x.service in m.services
    ensures var r := ChunkRef(x.service, WindowOf(cfg, x), m.services[x.service].nextSequence);
      && r in chunks && OpenChunk(cfg.libs, chunks[r]) == Ok([x])
      && x.service in batch.phase.draft.services && r in batch.phase.draft.services[x.service].chunks
  {
    hide OpenChunk, IndexOf, WindowOf, SequencesRise, DeriveNonce, HeadAfter;
    var seed, built, t := batch.phase.seed, batch.phase.built, x.service;
    assert batch.buckets[0] in batch.buckets && t in ServicesIn(batch.buckets);
    assert ArchivesAt(cfg.libs, seed, batch.buckets, built, 0);
    assert IsStored(built, chunks, indexes, 0);
    assert ContinuesChain(cfg.libs, seed, built, t);
    var c := built.chunks[0];
    assert built.chunks == [c] && built.chunks[..0] == [];
    assert Own(built.chunks, t) == [c];
    assert c.header.sequence == m.services[t].nextSequence;
    assert Refs([c])[0] == c.Ref();
    assert NewRefs(built, t)[0] == c.Ref();
  }

  // ---- The run ----

  /** The served manifest is older than the stored one, which refers to a chunk that has been replaced. */
  ghost predicate StaleAndOverwritten(cfg: Config, p: Connection) {
    && !p.reported && p.view.newest != p.live.manifest
    && !Intact(cfg, p)
    && (StoredOk(cfg, p) ==> ReplacedByTwin(cfg.libs, Newest(cfg, p), p.landedChunks, p.live.chunks))
  }

  const EMPTY: State := State(None, map[], map[], map[], None, [], [])

  const FRESH: Connection := Connection(EMPTY, ManifestView(None, None), map[], map[], true)

  lemma FreshIsConnected(cfg: Config)
    ensures Connected(cfg, FRESH)
  {
    EmptyBackendIsAtRest(cfg);
  }

  /** One batch of a new service brought to its commit. */
  lemma FirstBatch(cfg: Config, x: LogRecord) returns (p: Connection)
    requires cfg.libs.Lawful() && Dated(cfg.libs, x.timestamp) && Admits(cfg.listing, x.service)
    ensures Occurs(cfg, p) && p.view.cached.Some?
    ensures |p.live.batches| == 1 && p.live.batches[0].phase.CommitWriting? && p.live.batches[0].records == [x]
  {
    hide Occurs, Reachable, Libs.Lawful, NewBatch, OnTrack, IsSmooth, Connected, Inv, ViewOk, IdsSuffice, NothingNested,
      AllAdmitted, Admits;
    FreshIsConnected(cfg);
    ConnectedOccurs(cfg, FRESH);
    var begun := BeginOne(cfg, FRESH, x);
    OneRecordBatch(cfg, x);
    hide ChunkBatch, ServiceList;
    ServedIsReachable(cfg, begun);
    FirstHasRoom(cfg, begun.live, x);
    var run := ReachesCommit(cfg, begun.live, 0);
    p := FollowsSmooth(cfg, begun, run, |run| - 1);
    OneCallStays(cfg, run, |run| - 1);
    ReachableInv(cfg, p.live);
    CommitterHoldsManifest(cfg, p.live);
  }

  lemma FirstHasRoom(cfg: Config, s: State, x: LogRecord)
    requires s.batches == [NewBatch(cfg, [x])] && s.manifest == None
    requires NewBatch(cfg, [x]).services == [x.service] && NewBatch(cfg, [x]).phase == Locking(0)
    requires s.indexes == map[] && Admits(cfg.listing, x.service)
    ensures OnTrack(s.batches[0])
    ensures IdsSuffice(cfg, s) && NothingNested(cfg, s) && AllAdmitted(cfg, s)
  {
    hide NewBatch;
    assert Unregistered(cfg, s) <= {x.service};
    SubsetIsNoLarger(Unregistered(cfg, s), {x.service});
    assert !Nested(x.service, x.service);
  }

  lemma {:induction false} OneCallStays(cfg: Config, run: seq<State>, i: nat)
    requires IsSmooth(cfg, run) && i < |run|
    ensures |run[i].batches| == |run[0].batches|
  {
    hide IsSmooth, Enabled, Apply, Smooth, SameCall;
    if i > 0 {
      OneCallStays(cfg, run, i - 1);
      var step := SmoothStepAt(cfg, run, i);
      NoArrival(cfg, run[i - 1], step);
      CallMoves(cfg, run[i - 1], step, CallOf(step).value);
    }
  }

  /** A call at its final write has its services in the manifest, so there is one. */
  lemma CommitterHoldsManifest(cfg: Config, s: State)
    requires Inv(cfg, s) && |s.batches| == 1 && s.batches[0].phase.CommitWriting?
    ensures s.manifest != None
  {
    hide LocksOk, StoreOk, BuiltOk, AllStored, Overlay, ChunkBatch, GoodBuckets;
    var batch := s.batches[0];
    assert BatchOk(cfg, Durable(cfg, s), s.chunks, s.indexes, batch);
    ShapeServices(cfg, batch);
    assert batch.services[0] in batch.services;
  }

  /** Its commit fails and lands. */
  lemma UnseenCommit(cfg: Config, p: Connection) returns (q: Connection)
    requires Occurs(cfg, p) && p.view.cached.Some?
    requires |p.live.batches| == 1 && p.live.batches[0].phase.CommitWriting?
    ensures Occurs(cfg, q) && !q.reported && q.view.cached.Some?
    ensures q.view.newest == Some(p.live.batches[0].phase.draft)
    ensures q.live.manifest == p.live.manifest && q.landedChunks == p.live.chunks
    ensures |q.live.batches| == 1 && Finished(q.live.batches[0].phase)
    ensures q.landedChunks == q.live.chunks
  {
    hide Occurs;
    AdvancedOccurs(cfg, p, WriteCommit(0, WriteFailed(true)));
    q := Advanced(cfg, p, WriteCommit(0, WriteFailed(true)));
  }

  /** A second batch brought to its commit by the same connection: its chunk is stored under the next
      sequence of the served manifest. */
  lemma SecondBatch(cfg: Config, p: Connection, y: LogRecord) returns (q: Connection)
    requires cfg.libs.Lawful() && Occurs(cfg, p) && Dated(cfg.libs, y.timestamp)
    requires |p.live.batches| == 1 && Finished(p.live.batches[0].phase)
    requires y.service in Durable(cfg, p.live).services && Admits(cfg.listing, y.service)
    ensures Occurs(cfg, q) && q == p.(live := q.live) && q.live.manifest == p.live.manifest
    ensures var r := ChunkRef(y.service, WindowOf(cfg, y), Durable(cfg, p.live).services[y.service].nextSequence);
      r in q.live.chunks && OpenChunk(cfg.libs, q.live.chunks[r]) == Ok([y])
  {
    hide Occurs, Reachable, Libs.Lawful, NewBatch, IsSmooth, OnTrack, Inv, ViewOk, OpenChunk, WindowOf,
      IdsSuffice, NothingNested, AllAdmitted, Admits, AloneBeforeCommit;
    var begun := BeginOne(cfg, p, y);
    OneRecordBatch(cfg, y);
    hide ChunkBatch, ServiceList;
    ServedIsReachable(cfg, begun);
    ReachableInv(cfg, begun.live);
    SecondHasRoom(cfg, begun.live, y);
    var run := ReachesCommit(cfg, begun.live, 1);
    SecondIsAlone(cfg, begun.live, y);
    q := FollowsToCommit(cfg, begun, run, 1, |run| - 1);
    ReachableInv(cfg, q.live);
    AtCommit(cfg, q.live, 1, y);
  }

  /** Any two different records of one service and window give a run that ends so: the commit of the first
      fails and lands, and the second is archived over the cached manifest. */
  lemma StaleCacheOverwrites(cfg: Config, x: LogRecord, y: LogRecord) returns (p: Connection)
    requires cfg.libs.Lawful() && Dated(cfg.libs, x.timestamp) && Dated(cfg.libs, y.timestamp)
    requires x != y && KeyOf(cfg, x) == KeyOf(cfg, y) && Admits(cfg.listing, x.service)
    ensures Occurs(cfg, p) && StaleAndOverwritten(cfg, p)
  {
    hide Occurs, Reachable, Libs.Lawful, Inv, KeyOf, StaleAndOverwritten, ViewOk, OpenChunk, WindowOf, StoreOk;
    var p1 := FirstBatch(cfg, x);
    ServedIsReachable(cfg, p1);
    ReachableInv(cfg, p1.live);
    ReachableStore(cfg, p1.live);
    AtCommit(cfg, p1.live, 0, x);
    var p2 := UnseenCommit(cfg, p1);
    SameKey(cfg, x, y);
    p := SecondBatch(cfg, p2, y);
    Overwritten(cfg, p1.live, p, x, y);
  }

  lemma SameKey(cfg: Config, x: LogRecord, y: LogRecord)
    requires KeyOf(cfg, x) == KeyOf(cfg, y)
    ensures x.service == y.service && WindowOf(cfg, x) == WindowOf(cfg, y)
  {
  }

  lemma SecondHasRoom(cfg: Config, s: State, y: LogRecord)
    requires Inv(cfg, s) && y.service in Durable(cfg, s).services && Admits(cfg.listing, y.service)
    requires |s.batches| == 2 && Finished(s.batches[0].phase)
    requires s.batches[1].services == [y.service] && s.batches[1].phase == Locking(0)
    ensures OnTrack(s.batches[1])
    ensures IdsSuffice(cfg, s) && NothingNested(cfg, s) && AllAdmitted(cfg, s)
  {
    hide LocksOk, BatchesOk, EntriesOk, Registered, Nested, Durable;
    assert Unregistered(cfg, s) == {};
  }

  lemma SecondIsAlone(cfg: Config, s: State, y: LogRecord)
    requires y.service in Durable(cfg, s).services
    requires |s.batches| == 2 && Finished(s.batches[0].phase)
    requires s.batches[1].services == [y.service] && s.batches[1].phase == Locking(0)
    ensures AloneBeforeCommit(cfg, s, 1)
  {
    hide Durable;
  }

  lemma Overwritten(cfg: Config, s1: State, p: Connection, x: LogRecord, y: LogRecord)
    requires cfg.libs.Lawful() && Occurs(cfg, p) && x != y
    requires x.service == y.service && WindowOf(cfg, x) == WindowOf(cfg, y)
    requires |s1.batches| == 1 && s1.batches[0].phase.CommitWriting?
    requires p.live.manifest == s1.manifest && p.landedChunks == s1.chunks && !p.reported
    requires p.view.newest == Some(s1.batches[0].phase.draft)
    requires x.service in Durable(cfg, s1).services
    requires var r := ChunkRef(x.service, WindowOf(cfg, x), Durable(cfg, s1).services[x.service].nextSequence);
      && r in s1.chunks && OpenChunk(cfg.libs, s1.chunks[r]) == Ok([x])
      && x.service in s1.batches[0].phase.draft.services && r in s1.batches[0].phase.draft.services[x.service].chunks
    requires var r := ChunkRef(y.service, WindowOf(cfg, y), Durable(cfg, p.live).services[y.service].nextSequence);
      r in p.live.chunks && OpenChunk(cfg.libs, p.live.chunks[r]) == Ok([y])
    requires x.service in Durable(cfg, s1).services && StoreOk(cfg, Durable(cfg, s1), s1.chunks, s1.indexes)
    ensures StaleAndOverwritten(cfg, p)
  {
    hide Occurs, OpenChunk, WindowOf, StoredOk, EntriesOk, ReplacedByTwin;
    var m := Durable(cfg, s1);
    var r := ChunkRef(x.service, WindowOf(cfg, x), m.services[x.service].nextSequence);
    assert Durable(cfg, p.live) == m;
    assert !SameStored(r, p.landedChunks, p.landedIndexes, p.live.chunks, p.live.indexes);
    assert !Intact(cfg, p);
    if p.view.newest == p.live.manifest {
      ReferencedAreNumbered(cfg, m, s1.chunks, s1.indexes, x.service, r);
      assert false;
    }
    hide Intact;
    if !ReplacedByTwin(cfg.libs, Newest(cfg, p), p.landedChunks, p.live.chunks) {
      StoredOkIffIntact(cfg, p);
    }
  }
}
