/** Concurrent ingestion over a connection that serves manifest reads from the copy it last wrote. A write
    that fails but lands changes the stored manifest and not what is served. */
module CachedManifest {
  import opened Core
  import opened KeyedStore
  import opened Canonical
  import opened Chain
  import opened Index
  import opened Sealing
  import opened Archive
  import opened Protocol
  import opened Safety
  import opened Runs

  /** `live` is the machine as the connection sees it: its manifest is the one served. */
  datatype Connection = Connection(
    live: State,
    view: ManifestView,
    // Auxiliary: the archives as they were when the newest manifest landed, and whether the write that
    // landed it was reported as done.
    landedChunks: Chunks,
    landedIndexes: Indexes,
    reported: bool)

  /** The newest stored manifest: what a new connection reads. */
  function Newest(cfg: Config, p: Connection): Manifest {
    match p.view.newest
    case Some(m) => m
    case None => FreshManifest(cfg.bucket)
  }

  // ---- Steps ----

  /** The outcome as far as later reads can tell. */
  function Seen(view: ManifestView, written: WriteOutcome): WriteOutcome {
    if written == WriteFailed(true) && view.cached.Some? then WriteFailed(false) else written
  }

  function SeenStep(view: ManifestView, step: Step): Step {
    match step
    case WriteRegistration(b, written) => WriteRegistration(b, Seen(view, written))
    case WriteCommit(b, written) => WriteCommit(b, Seen(view, written))
    case _ => step
  }

  predicate IsWrite(step: Step) {
    step.WriteRegistration? || step.WriteCommit?
  }

  predicate Lands(written: WriteOutcome) {
    written.WriteDone? || written.landed
  }

  lemma SeenIsEnabled(cfg: Config, s: State, view: ManifestView, step: Step)
    requires Enabled(cfg, s, step)
    ensures Enabled(cfg, s, SeenStep(view, step))
    ensures IsWrite(step) ==> step.b < |s.batches| && DraftOf(s.batches[step.b].phase).Some?
  {
    hide AllBuildable;
  }

  function DraftOf(p: Phase): Option<Manifest> {
    match p
    case RegisterWriting(draft) => Some(draft)
    case CommitWriting(_, _, draft) => Some(draft)
    case _ => None
  }

  /** What one step does to the connection: writes go to the stored manifest, and to the served one only as
      far as they are seen. */
  ghost function Advanced(cfg: Config, p: Connection, step: Step): Connection
    requires Enabled(cfg, p.live, step)
  {
    SeenIsEnabled(cfg, p.live, p.view, step);
    var live' := Apply(cfg, p.live, SeenStep(p.view, step));
    if IsWrite(step) && Lands(step.written) then
      Connection(live', p.view.Written(DraftOf(p.live.batches[step.b].phase).value, step.written),
        p.live.chunks, p.live.indexes, step.written.WriteDone?)
    else p.(live := live')
  }

  /** A new connection to a consistent archive. */
  ghost predicate Connected(cfg: Config, p: Connection) {
    && AtRest(cfg, p.live)
    && p.view == ManifestView(None, p.live.manifest)
    && p.landedChunks == p.live.chunks && p.landedIndexes == p.live.indexes && p.reported
  }

  ghost predicate Steps(cfg: Config, p: Connection, p': Connection) {
    exists step :: Enabled(cfg, p.live, step) && p' == Advanced(cfg, p, step)
  }

  ghost predicate IsHistory(cfg: Config, ps: seq<Connection>) {
    ps != [] && forall i :: 0 <= i < |ps| - 1 ==> Steps(cfg, ps[i], ps[i + 1])
  }

  ghost predicate Occurs(cfg: Config, p: Connection) {
    exists ps :: IsHistory(cfg, ps) && Connected(cfg, ps[0]) && ps[|ps| - 1] == p
  }

  lemma ConnectedOccurs(cfg: Config, p: Connection)
    requires Connected(cfg, p)
    ensures Occurs(cfg, p)
  {
    hide Connected, Steps;
    assert IsHistory(cfg, [p]) && Connected(cfg, [p][0]) && [p][|[p]| - 1] == p;
  }

  lemma AdvancedOccurs(cfg: Config, p: Connection, step: Step)
    requires Occurs(cfg, p) && Enabled(cfg, p.live, step)
    ensures Occurs(cfg, Advanced(cfg, p, step))
  {
    hide Connected, Enabled, Advanced;
    var ps :| IsHistory(cfg, ps) && Connected(cfg, ps[0]) && ps[|ps| - 1] == p;
    var longer := ps + [Advanced(cfg, p, step)];
    forall i | 0 <= i < |longer| - 1 ensures Steps(cfg, longer[i], longer[i + 1]) {
      if i < |ps| - 1 { assert Steps(cfg, ps[i], ps[i + 1]); }
    }
    assert IsHistory(cfg, longer) && Connected(cfg, longer[0]) && longer[|longer| - 1] == Advanced(cfg, p, step);
  }

  // ---- The invariant ----

  /** Every service of `m` has the same id in `m'`, and its refs in the same places. */
  ghost predicate Extends(m: Manifest, m': Manifest) {
    forall t :: t in m.services ==> EntryExtends(m.services[t], t, m')
  }

  predicate EntryExtends(e: ServiceChain, t: Text, m': Manifest) {
    t in m'.services && m'.services[t].serviceId == e.serviceId && e.chunks <= m'.services[t].chunks
  }

  /** Everything `m` refers to is stored as it was. */
  ghost predicate Unchanged(m: Manifest, chunks: Chunks, indexes: Indexes, chunks': Chunks, indexes': Indexes) {
    forall t, r :: t in m.services && r in m.services[t].chunks ==> SameStored(r, chunks, indexes, chunks', indexes')
  }

  ghost predicate ViewOk(cfg: Config, p: Connection) {
    && p.live.manifest == p.view.Served()
    && (p.reported || p.view.cached.None? ==> p.view.newest == p.live.manifest)
    && StoreOk(cfg, Newest(cfg, p), p.landedChunks, p.landedIndexes)
    && Extends(Durable(cfg, p.live), Newest(cfg, p))
    && Unchanged(Durable(cfg, p.live), p.landedChunks, p.landedIndexes, p.live.chunks, p.live.indexes)
    && p.landedIndexes.Keys <= p.live.indexes.Keys
  }

  lemma DraftIsConsistent(cfg: Config, s: State, b: nat)
    requires Inv(cfg, s) && b < |s.batches| && DraftOf(s.batches[b].phase).Some?
    ensures var draft := DraftOf(s.batches[b].phase).value;
      StoreOk(cfg, draft, s.chunks, s.indexes)
  {
    hide LocksOk, StoreOk, BatchOk;
    var m, batch := Durable(cfg, s), s.batches[b];
    assert BatchOk(cfg, m, s.chunks, s.indexes, batch);
    if batch.phase.CommitWriting? {
      CommitDraft(cfg, m, s.chunks, s.indexes, batch);
    } else {
      RegistrationDraft(cfg, m, s.chunks, s.indexes, batch);
    }
  }

  lemma RegistrationDraft(cfg: Config, m: Manifest, chunks: Chunks, indexes: Indexes, batch: Batch)
    requires BatchOk(cfg, m, chunks, indexes, batch) && batch.phase.RegisterWriting?
    ensures StoreOk(cfg, batch.phase.draft, chunks, indexes)
  {
    hide StoreOk, ShapeOk;
  }

  lemma ManifestAfter(cfg: Config, s: State, step: Step)
    requires Enabled(cfg, s, step)
    ensures IsWrite(step) ==> step.b < |s.batches| && DraftOf(s.batches[step.b].phase).Some?
    ensures Apply(cfg, s, step).manifest ==
      if IsWrite(step) && Lands(step.written) then DraftOf(s.batches[step.b].phase) else s.manifest
  {
    if !IsWrite(step) && !step.FinishUpload? {
      hide Enabled, Apply;
      OtherStepsKeepBackend(cfg, s, step);
    } else {
      hide NewBatch, RegisterOne, Overlay, BuildAll, Listed, AllBuildable;
    }
  }

  /** The write as it would end were it reported as done. */
  function AsDone(step: Step): Step {
    match step
    case WriteRegistration(b, _) => WriteRegistration(b, WriteDone)
    case WriteCommit(b, _) => WriteCommit(b, WriteDone)
    case _ => step
  }

  lemma AsDoneIsEnabled(cfg: Config, s: State, step: Step)
    requires Enabled(cfg, s, step)
    ensures Enabled(cfg, s, AsDone(step))
  {
    hide AllBuildable;
  }

  lemma PreservedExtends(m: Manifest, chunks: Chunks, indexes: Indexes, m': Manifest, chunks': Chunks, indexes': Indexes)
    requires Preserved(m, chunks, indexes, m', chunks', indexes')
    ensures Extends(m, m') && Unchanged(m, chunks, indexes, chunks', indexes')
  {
    hide SameStored;
    assert forall t :: t in m.services ==> ServicePreserved(m.services[t], chunks, indexes, t, m', chunks', indexes');
  }

  lemma DraftExtends(cfg: Config, s: State, step: Step)
    requires Inv(cfg, s) && Enabled(cfg, s, step) && IsWrite(step)
    ensures step.b < |s.batches| && DraftOf(s.batches[step.b].phase).Some?
    ensures Extends(Durable(cfg, s), DraftOf(s.batches[step.b].phase).value)
  {
    hide Inv, Enabled, Apply, DraftOf, Extends, Preserved, Unchanged;
    AsDoneIsEnabled(cfg, s, step);
    var s' := Apply(cfg, s, AsDone(step));
    ManifestAfter(cfg, s, AsDone(step));
    StepPreserves(cfg, s, AsDone(step));
    PreservedExtends(Durable(cfg, s), s.chunks, s.indexes, Durable(cfg, s'), s'.chunks, s'.indexes);
  }

  lemma ExtendsReflexive(m: Manifest)
    ensures Extends(m, m)
  {
  }

  lemma UnchangedReflexive(m: Manifest, chunks: Chunks, indexes: Indexes)
    ensures Unchanged(m, chunks, indexes, chunks, indexes)
  {
  }

  lemma UnchangedTransitive(m: Manifest, chunks: Chunks, indexes: Indexes, chunks': Chunks, indexes': Indexes,
    chunks'': Chunks, indexes'': Indexes)
    requires Unchanged(m, chunks, indexes, chunks', indexes') && Unchanged(m, chunks', indexes', chunks'', indexes'')
    ensures Unchanged(m, chunks, indexes, chunks'', indexes'')
  {
    forall t, r | t in m.services && r in m.services[t].chunks
      ensures SameStored(r, chunks, indexes, chunks'', indexes'')
    {
      assert SameStored(r, chunks, indexes, chunks', indexes') && SameStored(r, chunks', indexes', chunks'', indexes'');
    }
  }

  lemma WritesKeepArchives(cfg: Config, s: State, step: Step)
    requires Enabled(cfg, s, step) && IsWrite(step)
    ensures Apply(cfg, s, step).chunks == s.chunks && Apply(cfg, s, step).indexes == s.indexes
  {
    hide Listed;
  }

  lemma LandingKeepsViewOk(cfg: Config, p: Connection, step: Step)
    requires Inv(cfg, p.live) && ViewOk(cfg, p) && Enabled(cfg, p.live, step)
    requires IsWrite(step) && Lands(step.written)
    ensures ViewOk(cfg, Advanced(cfg, p, step))
  {
    hide Inv, StoreOk, Enabled, Apply, DraftOf, Extends, Unchanged;
    SeenIsEnabled(cfg, p.live, p.view, step);
    ManifestAfter(cfg, p.live, SeenStep(p.view, step));
    WritesKeepArchives(cfg, p.live, SeenStep(p.view, step));
    DraftIsConsistent(cfg, p.live, step.b);
    DraftExtends(cfg, p.live, step);
    var p' := Advanced(cfg, p, step);
    ExtendsReflexive(Durable(cfg, p'.live));
    UnchangedReflexive(Durable(cfg, p'.live), p'.live.chunks, p'.live.indexes);
  }

  lemma OtherKeepsViewOk(cfg: Config, p: Connection, step: Step)
    requires Inv(cfg, p.live) && ViewOk(cfg, p) && Enabled(cfg, p.live, step)
    requires !IsWrite(step) || !Lands(step.written)
    ensures ViewOk(cfg, Advanced(cfg, p, step))
  {
    hide Inv, StoreOk, Enabled, Apply, DraftOf, Extends, Unchanged, Preserved;
    var seen := SeenStep(p.view, step);
    SeenIsEnabled(cfg, p.live, p.view, step);
    ManifestAfter(cfg, p.live, seen);
    StepPreserves(cfg, p.live, seen);
    IndexesStay(cfg, p.live, seen);
    var m, s, s' := Durable(cfg, p.live), p.live, Apply(cfg, p.live, seen);
    PreservedExtends(m, s.chunks, s.indexes, Durable(cfg, s'), s'.chunks, s'.indexes);
    UnchangedTransitive(m, p.landedChunks, p.landedIndexes, s.chunks, s.indexes, s'.chunks, s'.indexes);
  }

  lemma StepKeepsViewOk(cfg: Config, p: Connection, step: Step)
    requires Inv(cfg, p.live) && ViewOk(cfg, p) && Enabled(cfg, p.live, step)
    ensures ViewOk(cfg, Advanced(cfg, p, step))
  {
    hide Inv, ViewOk, Enabled, Advanced;
    if IsWrite(step) && Lands(step.written) {
      LandingKeepsViewOk(cfg, p, step);
    } else {
      OtherKeepsViewOk(cfg, p, step);
    }
  }

  lemma ConnectedIsOk(cfg: Config, p: Connection)
    requires Connected(cfg, p)
    ensures Reachable(cfg, p.live) && ViewOk(cfg, p)
  {
    hide StoreOk, Reachable;
    RestReachable(cfg, p.live);
  }

  lemma AdvancedReachable(cfg: Config, p: Connection, step: Step)
    requires Reachable(cfg, p.live) && Enabled(cfg, p.live, step)
    ensures Reachable(cfg, Advanced(cfg, p, step).live)
  {
    hide Reachable, Enabled, Apply;
    SeenIsEnabled(cfg, p.live, p.view, step);
    ReachableStep(cfg, p.live, SeenStep(p.view, step));
  }

  lemma {:induction false} HistoryOk(cfg: Config, ps: seq<Connection>, i: nat)
    requires cfg.libs.Lawful()
    requires IsHistory(cfg, ps) && Connected(cfg, ps[0]) && i < |ps|
    ensures Reachable(cfg, ps[i].live) && ViewOk(cfg, ps[i])
  {
    hide Reachable, Connected, ViewOk, Inv, Enabled, Advanced, Libs.Lawful;
    if i == 0 {
      ConnectedIsOk(cfg, ps[0]);
    } else {
      HistoryOk(cfg, ps, i - 1);
      assert Steps(cfg, ps[i - 1], ps[i - 1 + 1]);
      var step :| Enabled(cfg, ps[i - 1].live, step) && ps[i] == Advanced(cfg, ps[i - 1], step);
      ReachableInv(cfg, ps[i - 1].live);
      StepKeepsViewOk(cfg, ps[i - 1], step);
      AdvancedReachable(cfg, ps[i - 1], step);
    }
  }

  /** Whatever lands unseen, what the connection serves is a state of the plain protocol, so all its theorems
      hold of the served manifest; and unless the last write that landed was reported as failed, it is the
      stored one. */
  lemma ServedIsReachable(cfg: Config, p: Connection)
    requires cfg.libs.Lawful() && Occurs(cfg, p)
    ensures Reachable(cfg, p.live) && p.live.manifest == p.view.Served()
    ensures p.reported || p.view.cached.None? ==> p.view.newest == p.live.manifest
    ensures ViewOk(cfg, p)
  {
    hide Reachable, Connected, Libs.Lawful, Steps, StoreOk;
    var ps :| IsHistory(cfg, ps) && Connected(cfg, ps[0]) && ps[|ps| - 1] == p;
    HistoryOk(cfg, ps, |ps| - 1);
  }

  // ---- When the stored manifest is still good ----

  predicate HashCollision(hash: Chunk -> Hash, c: Chunk, d: Chunk) {
    c != d && hash(c) == hash(d)
  }

  /** Some referenced chunk was replaced by another of the same hash. */
  ghost predicate ReplacedByTwin(libs: Libs, m: Manifest, chunks: Chunks, chunks': Chunks) {
    exists t, r :: t in m.services && r in m.services[t].chunks &&
      HashCollision(libs.chunkHash, Fetch(chunks, r), Fetch(chunks', r))
  }

  ghost predicate TwinAt(hash: Chunk -> Hash, a: seq<Chunk>, b: seq<Chunk>, i: nat) {
    i < |a| && i < |b| && HashCollision(hash, a[i], b[i])
  }

  /** Two chains of one length with one head are equal, or collide at some position. */
  lemma {:induction false} SameHeadSameChain(hash: Chunk -> Hash, a: seq<Chunk>, b: seq<Chunk>)
    requires |a| == |b| && LinksFrom(hash, GENESIS, a) && LinksFrom(hash, GENESIS, b)
    requires HeadAfter(hash, GENESIS, a) == HeadAfter(hash, GENESIS, b)
    ensures a == b || exists i: nat :: TwinAt(hash, a, b, i)
  {
    if a != [] {
      var n := |a| - 1;
      if a[n] != b[n] {
        assert TwinAt(hash, a, b, n);
      } else {
        assert LinkOk(hash, GENESIS, a, n) && LinkOk(hash, GENESIS, b, n);
        LinksPrefix(hash, a, n);
        LinksPrefix(hash, b, n);
        SameHeadSameChain(hash, a[..n], b[..n]);
        if i: nat :| TwinAt(hash, a[..n], b[..n], i) {
          assert TwinAt(hash, a, b, i);
        } else {
          assert a == a[..n] + [a[n]] && b == b[..n] + [b[n]];
        }
      }
    }
  }

  lemma EntryChunksSame(cfg: Config, t: Text, e: ServiceChain, chunks: Chunks, indexes: Indexes, chunks': Chunks,
    indexes': Indexes)
    requires EntryOk(cfg, t, e, chunks, indexes) && EntryOk(cfg, t, e, chunks', indexes')
    ensures Fetched(chunks', e.chunks) == Fetched(chunks, e.chunks) ||
      exists i: nat :: TwinAt(cfg.libs.chunkHash, Fetched(chunks, e.chunks), Fetched(chunks', e.chunks), i)
  {
    hide GoodArchive, LinksFrom;
    SameHeadSameChain(cfg.libs.chunkHash, Fetched(chunks, e.chunks), Fetched(chunks', e.chunks));
  }

  lemma EntryRefSame(cfg: Config, t: Text, e: ServiceChain, chunks: Chunks, indexes: Indexes, chunks': Chunks,
    indexes': Indexes, i: nat)
    requires EntryOk(cfg, t, e, chunks, indexes) && EntryOk(cfg, t, e, chunks', indexes')
    requires i < |e.chunks| && Fetch(chunks', e.chunks[i]) == Fetch(chunks, e.chunks[i])
    ensures SameStored(e.chunks[i], chunks, indexes, chunks', indexes')
  {
    hide OpenChunk, IndexOf, DeriveNonce, GoodRecords, ChainRecorded;
    assert RefOk(cfg, e, chunks, indexes, i) && RefOk(cfg, e, chunks', indexes', i);
  }

  lemma EntryUnchanged(cfg: Config, m: Manifest, t: Text, chunks: Chunks, indexes: Indexes, chunks': Chunks,
    indexes': Indexes, r: ChunkRef)
    requires EntriesOk(cfg, m, chunks, indexes) && EntriesOk(cfg, m, chunks', indexes')
    requires t in m.services && r in m.services[t].chunks
    ensures SameStored(r, chunks, indexes, chunks', indexes') || ReplacedByTwin(cfg.libs, m, chunks, chunks')
  {
    hide EntryOk, SameStored;
    var e := m.services[t];
    var a, b := Fetched(chunks, e.chunks), Fetched(chunks', e.chunks);
    EntryChunksSame(cfg, t, e, chunks, indexes, chunks', indexes');
    if i: nat :| TwinAt(cfg.libs.chunkHash, a, b, i) {
      assert e.chunks[i] in e.chunks;
      assert HashCollision(cfg.libs.chunkHash, Fetch(chunks, e.chunks[i]), Fetch(chunks', e.chunks[i]));
    } else {
      var i: nat :| i < |e.chunks| && e.chunks[i] == r;
      assert a[i] == b[i];
      EntryRefSame(cfg, t, e, chunks, indexes, chunks', indexes', i);
    }
  }

  lemma UnchangedIsOk(cfg: Config, m: Manifest, chunks: Chunks, indexes: Indexes, chunks': Chunks, indexes': Indexes)
    requires StoreOk(cfg, m, chunks, indexes) && Registered(m, chunks', indexes')
    requires Unchanged(m, chunks, indexes, chunks', indexes')
    ensures StoreOk(cfg, m, chunks', indexes')
  {
    hide EntryOk, IdsOk, Registered;
    forall t | t in m.services ensures EntryOk(cfg, t, m.services[t], chunks', indexes') {
      forall r | r in m.services[t].chunks
        ensures r in chunks' && chunks'[r] == Fetch(chunks, r) && r in indexes' && r in indexes && indexes'[r] == indexes[r]
      {
        ReferencedAreNumbered(cfg, m, chunks, indexes, t, r);
        assert SameStored(r, chunks, indexes, chunks', indexes');
      }
      EntryFrame(cfg, t, m.services[t], chunks, indexes, chunks', indexes');
    }
  }

  lemma OkIsUnchanged(cfg: Config, m: Manifest, chunks: Chunks, indexes: Indexes, chunks': Chunks, indexes': Indexes)
    requires EntriesOk(cfg, m, chunks, indexes) && EntriesOk(cfg, m, chunks', indexes')
    ensures Unchanged(m, chunks, indexes, chunks', indexes') || ReplacedByTwin(cfg.libs, m, chunks, chunks')
  {
    hide EntriesOk, SameStored, ReplacedByTwin;
    if !ReplacedByTwin(cfg.libs, m, chunks, chunks') {
      forall t, r | t in m.services && r in m.services[t].chunks
        ensures SameStored(r, chunks, indexes, chunks', indexes')
      {
        EntryUnchanged(cfg, m, t, chunks, indexes, chunks', indexes', r);
      }
    }
  }

  /** No upload since the newest manifest landed has changed anything it refers to. */
  ghost predicate Intact(cfg: Config, p: Connection) {
    Unchanged(Newest(cfg, p), p.landedChunks, p.landedIndexes, p.live.chunks, p.live.indexes)
  }

  /** The stored manifest and the archives are consistent. */
  ghost predicate StoredOk(cfg: Config, p: Connection) {
    StoreOk(cfg, Newest(cfg, p), p.live.chunks, p.live.indexes)
  }

  /** The stored manifest is consistent exactly while no upload since it landed has changed a chunk or an
      index it refers to, short of a hash collision between a chunk and its replacement. */
  lemma StoredOkIffIntact(cfg: Config, p: Connection)
    requires cfg.libs.Lawful() && Occurs(cfg, p)
    ensures Intact(cfg, p) ==> StoredOk(cfg, p)
    ensures StoredOk(cfg, p) ==> Intact(cfg, p) || ReplacedByTwin(cfg.libs, Newest(cfg, p), p.landedChunks, p.live.chunks)
  {
    hide Occurs, Libs.Lawful, Reachable, EntriesOk, IdsOk, Unchanged, ReplacedByTwin, Durable;
    ServedIsReachable(cfg, p);
    ReachableStore(cfg, p.live);
    var m := Newest(cfg, p);
    assert Registered(m, p.live.chunks, p.live.indexes);
    if Intact(cfg, p) {
      UnchangedIsOk(cfg, m, p.landedChunks, p.landedIndexes, p.live.chunks, p.live.indexes);
    }
    if StoredOk(cfg, p) {
      OkIsUnchanged(cfg, m, p.landedChunks, p.landedIndexes, p.live.chunks, p.live.indexes);
    }
  }

  /** A new process with a new connection to the same backend. */
  function Reconnected(p: Connection): Connection {
    Connection(Restarted(p.live).(manifest := p.view.newest), ManifestView(None, p.view.newest),
      p.live.chunks, p.live.indexes, true)
  }

  /** A crash and a new connection lead back to a consistent archive exactly when the stored manifest is
      intact, short of such a collision; in particular always when the last write that landed was reported as done. */
  lemma ReconnectedIffIntact(cfg: Config, p: Connection)
    requires cfg.libs.Lawful() && Occurs(cfg, p)
    ensures Intact(cfg, p) ==> Connected(cfg, Reconnected(p))
    ensures Connected(cfg, Reconnected(p)) ==>
      Intact(cfg, p) || ReplacedByTwin(cfg.libs, Newest(cfg, p), p.landedChunks, p.live.chunks)
    ensures p.reported ==> Connected(cfg, Reconnected(p))
  {
    hide Occurs, Libs.Lawful, Reachable, StoreOk, Intact, ReplacedByTwin;
    StoredOkIffIntact(cfg, p);
    ServedIsReachable(cfg, p);
    ReachableStore(cfg, p.live);
  }
}
