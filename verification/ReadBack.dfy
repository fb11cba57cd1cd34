/** What an acknowledged batch is owed: its references stay, and reading them gives its records back. */
module ReadBack {
  import opened Core
  import opened Ordering
  import opened Canonical
  import opened Builder
  import opened Chunking
  import opened Index
  import opened Sealing
  import opened Archive
  import opened Protocol
  import opened Safety
  import opened Reading
  import opened Runs
  import opened Serial

  // ---- Acknowledged references stay in place ----

  /** Right after the refs its seed had, service `t` holds the batch's new refs, and they decode to the
      batch's buckets for it, in order, each with its service and window. */
  ghost predicate InPlace(libs: Libs, m: Manifest, chunks: Chunks, seed: Manifest, built: Built,
    buckets: seq<Bucket>, t: Text) {
    && t in m.services && t in seed.services
    && seed.services[t].chunks + NewRefs(built, t) <= m.services[t].chunks
    && DecodeAll(libs, Fetched(chunks, NewRefs(built, t))) == BucketsOf(buckets, t)
  }

  ghost predicate AckedOk(libs: Libs, m: Manifest, chunks: Chunks, batch: Batch) {
    batch.phase.Acked? ==> forall t :: t in ServicesIn(batch.buckets) ==>
      InPlace(libs, m, chunks, batch.phase.seed, batch.phase.built, batch.buckets, t)
  }

  ghost predicate AllAckedOk(cfg: Config, s: State) {
    forall b :: 0 <= b < |s.batches| ==> AckedOk(cfg.libs, Durable(cfg, s), s.chunks, s.batches[b])
  }

  lemma SecondHalf(a: seq<Bucket>, b: seq<Bucket>, c: seq<Bucket>)
    requires a + b == a + c
    ensures b == c
  {
    assert (a + b)[|a|..] == b && (a + c)[|a|..] == c;
  }

  lemma CommitPlaces(cfg: Config, m: Manifest, chunks: Chunks, indexes: Indexes, batch: Batch, t: Text)
    requires StoreOk(cfg, m, chunks, indexes)
    requires BatchOk(cfg, m, chunks, indexes, batch) && batch.phase.CommitWriting?
    requires t in ServicesIn(batch.buckets)
    ensures InPlace(cfg.libs, batch.phase.draft, chunks, batch.phase.seed, batch.phase.built, batch.buckets, t)
  {
    hide EntriesOk, ChunkBatch, AllStored, GoodBuckets, Enumerates, EntryOk, DecodeAll, Fetched, IdsOk, Registered,
      ContinuesChain, SequencesRise, ArchivesAt, BucketsOf;
    var p := batch.phase;
    BuiltLengths(cfg, p.seed, batch.buckets, p.built);
    CommitEntry(cfg, m, p.seed, batch.buckets, p.built, chunks, indexes, t);
    var refs, more := m.services[t].chunks, NewRefs(p.built, t);
    FetchedConcat(chunks, refs, more);
    DecodeAllConcat(cfg.libs, Fetched(chunks, refs), Fetched(chunks, more));
    SecondHalf(DecodeAll(cfg.libs, Fetched(chunks, refs)), DecodeAll(cfg.libs, Fetched(chunks, more)),
      BucketsOf(batch.buckets, t));
  }

  lemma StaysInPlace(libs: Libs, m: Manifest, chunks: Chunks, indexes: Indexes, m': Manifest, chunks': Chunks,
    indexes': Indexes,
    seed: Manifest, built: Built, buckets: seq<Bucket>, t: Text)
    requires InPlace(libs, m, chunks, seed, built, buckets, t)
    requires Preserved(m, chunks, indexes, m', chunks', indexes')
    ensures InPlace(libs, m', chunks', seed, built, buckets, t)
  {
    hide DecodeAll;
    assert ServicePreserved(m.services[t], chunks, indexes, t, m', chunks', indexes');
    var refs, all, all' := NewRefs(built, t), m.services[t].chunks, m'.services[t].chunks;
    var n := |seed.services[t].chunks|;
    assert seed.services[t].chunks + refs <= all';
    forall i | 0 <= i < |refs| ensures Fetch(chunks', refs[i]) == Fetch(chunks, refs[i]) {
      assert all[n + i] == refs[i];
      assert SameStored(refs[i], chunks, indexes, chunks', indexes');
    }
    assert Fetched(chunks', refs) == Fetched(chunks, refs);
  }

  lemma CommittedIsOk(cfg: Config, s: State, b: nat)
    requires Inv(cfg, s)
    requires b < |s.batches| && s.batches[b].phase.CommitWriting?
    ensures var s' := WriteCommitStep(s, b, WriteDone);
      AckedOk(cfg.libs, Durable(cfg, s'), s'.chunks, s'.batches[b])
  {
    hide LocksOk, StoreOk, BatchOk, InPlace;
    var m, batch := Durable(cfg, s), s.batches[b];
    assert BatchOk(cfg, m, s.chunks, s.indexes, batch);
    forall t | t in ServicesIn(batch.buckets)
      ensures InPlace(cfg.libs, batch.phase.draft, s.chunks, batch.phase.seed, batch.phase.built, batch.buckets, t)
    {
      CommitPlaces(cfg, m, s.chunks, s.indexes, batch, t);
    }
  }

  lemma StepKeepsAcked(cfg: Config, s: State, step: Step)
    requires Inv(cfg, s) && Enabled(cfg, s, step) && AllAckedOk(cfg, s)
    ensures AllAckedOk(cfg, Apply(cfg, s, step))
  {
    hide Inv, InPlace, Preserved, Durable;
    var s' := Apply(cfg, s, step);
    forall c: nat | c < |s'.batches| ensures AckedOk(cfg.libs, Durable(cfg, s'), s'.chunks, s'.batches[c]) {
      if s'.batches[c].phase.Acked? {
        StepKeepsAckedCall(cfg, s, step, c);
      }
    }
  }

  lemma StepKeepsAckedCall(cfg: Config, s: State, step: Step, c: nat)
    requires Inv(cfg, s) && Enabled(cfg, s, step) && AllAckedOk(cfg, s)
    requires c < |Apply(cfg, s, step).batches| && Apply(cfg, s, step).batches[c].phase.Acked?
    ensures var s' := Apply(cfg, s, step); AckedOk(cfg.libs, Durable(cfg, s'), s'.chunks, s'.batches[c])
  {
    hide Inv, InPlace, Preserved, Enabled, Durable;
    var s' := Apply(cfg, s, step);
    if c < |s.batches| && s.batches[c].phase.Acked? {
      hide Apply;
      FinishedStays(cfg, s, step, c);
      assert AckedOk(cfg.libs, Durable(cfg, s), s.chunks, s.batches[c]);
      StepPreserves(cfg, s, step);
      var p := s.batches[c].phase;
      forall t | t in ServicesIn(s.batches[c].buckets)
        ensures InPlace(cfg.libs, Durable(cfg, s'), s'.chunks, p.seed, p.built, s.batches[c].buckets, t)
      {
        StaysInPlace(cfg.libs, Durable(cfg, s), s.chunks, s.indexes, Durable(cfg, s'), s'.chunks, s'.indexes,
          p.seed, p.built, s.batches[c].buckets, t);
      }
    } else {
      NewlyAcked(cfg, s, step, c);
      if step.WriteCommit? {
        LandedIsFinished(cfg, s, step, c);
        hide AckedOk;
        CommittedIsOk(cfg, s, c);
      }
    }
  }

  lemma NothingAcked(cfg: Config, s: State)
    requires AtRest(cfg, s)
    ensures AllAckedOk(cfg, s)
  {
  }

  lemma {:induction false} AckedAlongRun(cfg: Config, run: seq<State>, i: nat)
    requires cfg.libs.Lawful()
    requires IsRun(cfg, run) && AtRest(cfg, run[0]) && i < |run|
    ensures AllAckedOk(cfg, run[i])
  {
    hide IsRun, Inv, Libs.Lawful, Enabled, Apply, AllAckedOk;
    if i == 0 {
      NothingAcked(cfg, run[0]);
    } else {
      AckedAlongRun(cfg, run, i - 1);
      AtRestInv(cfg, run[0]);
      InvAlongRun(cfg, run, i - 1);
      var step := StepAt(cfg, run, i);
      StepKeepsAcked(cfg, run[i - 1], step);
    }
  }

  lemma ReachableAcked(cfg: Config, s: State)
    requires cfg.libs.Lawful() && Reachable(cfg, s)
    ensures AllAckedOk(cfg, s)
  {
    hide AtRest, AllAckedOk, Libs.Lawful, Next;
    var run :| IsRun(cfg, run) && AtRest(cfg, run[0]) && run[|run| - 1] == s;
    AckedAlongRun(cfg, run, |run| - 1);
  }

  // ---- Reading them back ----

  lemma FlattenConcat(a: seq<Bucket>, b: seq<Bucket>)
    ensures Flatten(a + b) == Flatten(a) + Flatten(b)
    decreases |b|
  {
    if b == [] {
      assert a + b == a;
    } else {
      var n := |b| - 1;
      assert (a + b)[..|a + b| - 1] == a + b[..n];
      FlattenConcat(a, b[..n]);
    }
  }

  ghost predicate AllOpen(libs: Libs, chunks: Chunks, refs: seq<ChunkRef>) {
    forall r :: r in refs ==> r in chunks && OpenChunk(libs, chunks[r]).Ok?
  }

  /** Reading a list of references returns the records of what they decode to, in order. */
  lemma {:induction false} ReadRecordsDecodes(libs: Libs, chunks: Chunks, refs: seq<ChunkRef>, get: ChunkReads)
    requires AllOpen(libs, chunks, refs)
    requires ReadsStored(get, chunks, refs)
    ensures ReadRecords(libs, refs, get) == Ok(Flatten(DecodeAll(libs, Fetched(chunks, refs))))
  {
    hide OpenChunk;
    if refs != [] {
      var n := |refs| - 1;
      Unsnoc(refs);
      ReadRecordsDecodes(libs, chunks, refs[..n], get);
      var buckets := DecodeAll(libs, Fetched(chunks, refs));
      assert buckets[..n] == DecodeAll(libs, Fetched(chunks, refs[..n]));
    }
  }

  ghost function AllNewRefs(built: Built, services: seq<Text>): seq<ChunkRef> {
    if services == [] then []
    else AllNewRefs(built, services[..|services| - 1]) + NewRefs(built, services[|services| - 1])
  }

  /** The buckets of the listed services, service by service. */
  function Regrouped(buckets: seq<Bucket>, services: seq<Text>): seq<Bucket> {
    if services == [] then []
    else Regrouped(buckets, services[..|services| - 1]) + BucketsOf(buckets, services[|services| - 1])
  }

  predicate OwnRecords(buckets: seq<Bucket>) {
    forall b, r :: b in buckets && r in b.records ==> r.service == b.service
  }

  lemma {:induction false} CountOfService(buckets: seq<Bucket>, s: Text, r: LogRecord)
    requires OwnRecords(buckets)
    ensures multiset(Flatten(BucketsOf(buckets, s)))[r] == if r.service == s then multiset(Flatten(buckets))[r] else 0
  {
    if buckets != [] {
      var n := |buckets| - 1;
      Unsnoc(buckets);
      CountOfService(buckets[..n], s, r);
      FlattenConcat(BucketsOf(buckets[..n], s), OfService(buckets[n], s));
      FlattenOne(buckets[n]);
    }
  }

  lemma FlattenOne(b: Bucket)
    ensures Flatten([b]) == b.records
  {
    assert [b][..0] == [];
  }

  lemma {:induction false} CountRegrouped(buckets: seq<Bucket>, services: seq<Text>, r: LogRecord)
    requires OwnRecords(buckets)
    requires StrictlySorted(services, TextLt)
    ensures multiset(Flatten(Regrouped(buckets, services)))[r] ==
      if r.service in services then multiset(Flatten(buckets))[r] else 0
  {
    hide BucketsOf;
    TextLtStrictTotal();
    if services != [] {
      var n := |services| - 1;
      Unsnoc(services);
      CountRegrouped(buckets, services[..n], r);
      CountOfService(buckets, services[n], r);
      FlattenConcat(Regrouped(buckets, services[..n]), BucketsOf(buckets, services[n]));
      assert services[n] !in services[..n];
    }
  }

  lemma {:induction false} FlattenMember(buckets: seq<Bucket>, r: LogRecord)
    requires r in Flatten(buckets)
    ensures exists b :: b in buckets && r in b.records
  {
    if buckets != [] {
      var n := |buckets| - 1;
      Unsnoc(buckets);
      if r !in buckets[n].records { FlattenMember(buckets[..n], r); }
    }
  }

  lemma RegroupingKeepsRecords(buckets: seq<Bucket>, services: seq<Text>)
    requires OwnRecords(buckets)
    requires Enumerates(services, ServicesIn(buckets), TextLt)
    ensures multiset(Flatten(Regrouped(buckets, services))) == multiset(Flatten(buckets))
  {
    hide Regrouped;
    forall r ensures multiset(Flatten(Regrouped(buckets, services)))[r] == multiset(Flatten(buckets))[r] {
      CountRegrouped(buckets, services, r);
      if r in multiset(Flatten(buckets)) {
        FlattenMember(buckets, r);
      }
    }
  }

  /** The new refs of all the batch's services decode to its buckets, regrouped by service. */
  lemma {:induction false} NewRefsDecode(libs: Libs, m: Manifest, chunks: Chunks, seed: Manifest, built: Built,
    buckets: seq<Bucket>, services: seq<Text>)
    requires forall t :: t in services ==> InPlace(libs, m, chunks, seed, built, buckets, t)
    ensures DecodeAll(libs, Fetched(chunks, AllNewRefs(built, services))) == Regrouped(buckets, services)
    ensures forall r :: r in AllNewRefs(built, services) ==> exists t :: t in m.services && r in m.services[t].chunks
  {
    hide Fetched, DecodeAll, BucketsOf;
    if services == [] {
      NothingDecoded(libs, chunks);
    } else {
      var n := |services| - 1;
      Unsnoc(services);
      var front, last := AllNewRefs(built, services[..n]), NewRefs(built, services[n]);
      NewRefsDecode(libs, m, chunks, seed, built, buckets, services[..n]);
      FetchedConcat(chunks, front, last);
      DecodeAllConcat(libs, Fetched(chunks, front), Fetched(chunks, last));
      assert InPlace(libs, m, chunks, seed, built, buckets, services[n]);
      forall r | r in last ensures r in m.services[services[n]].chunks {
        assert r in seed.services[services[n]].chunks + last;
      }
    }
  }

  lemma NothingDecoded(libs: Libs, chunks: Chunks)
    ensures DecodeAll(libs, Fetched(chunks, [])) == []
  {
  }

  /** Everything `m` refers to is stored and can be opened. */
  ghost predicate ReferencedOpen(libs: Libs, m: Manifest, chunks: Chunks) {
    forall t, r :: t in m.services && r in m.services[t].chunks ==> r in chunks && OpenChunk(libs, chunks[r]).Ok?
  }

  lemma ConsistentOpens(cfg: Config, m: Manifest, chunks: Chunks, indexes: Indexes)
    requires StoreOk(cfg, m, chunks, indexes)
    ensures ReferencedOpen(cfg.libs, m, chunks)
  {
    hide OpenChunk, IndexOf, DeriveNonce, GoodRecords, ChainRecorded, IdsOk, Registered;
    forall t, r | t in m.services && r in m.services[t].chunks ensures r in chunks && OpenChunk(cfg.libs, chunks[r]).Ok? {
      var e := m.services[t];
      assert EntryOk(cfg, t, e, chunks, indexes);
      var i :| 0 <= i < |e.chunks| && e.chunks[i] == r;
      assert RefOk(cfg, e, chunks, indexes, i);
    }
  }

  /** In state `s` the refs of the acknowledged `batch` are in place, decode per service to its buckets in
      order, and read all together to its records, as a multiset. */
  ghost predicate ReadsBackIn(cfg: Config, batch: Batch, s: State, get: ChunkReads)
    requires batch.phase.Acked?
  {
    var Acked(seed, built) := batch.phase;
    && (forall t :: t in batch.services ==>
          InPlace(cfg.libs, Durable(cfg, s), s.chunks, seed, built, ChunkBatch(cfg, batch.records), t))
    && ReadRecords(cfg.libs, AllNewRefs(built, batch.services), get).Ok?
    && multiset(ReadRecords(cfg.libs, AllNewRefs(built, batch.services), get).value) == multiset(batch.records)
  }

  /** Refs in place in a consistent archive read back, whichever state the call was acknowledged in. */
  lemma PlacedReadsBack(cfg: Config, s: State, batch: Batch, get: ChunkReads)
    requires ReferencedOpen(cfg.libs, Durable(cfg, s), s.chunks)
    requires ShapeOk(cfg, batch) && batch.phase.Acked?
    requires AckedOk(cfg.libs, Durable(cfg, s), s.chunks, batch)
    requires ReadsStored(get, s.chunks, AllNewRefs(batch.phase.built, batch.services))
    ensures ReadsBackIn(cfg, batch, s, get)
  {
    hide InPlace, EntriesOk, IdsOk, Registered, PhaseOk, ChunkBatch, Flatten, Regrouped, AllNewRefs, ReadRecords, OpenChunk;
    var m := Durable(cfg, s);
    ShapeServices(cfg, batch);
    var refs := AllNewRefs(batch.phase.built, batch.services);
    NewRefsDecode(cfg.libs, m, s.chunks, batch.phase.seed, batch.phase.built, batch.buckets, batch.services);
    forall r | r in refs ensures r in s.chunks && OpenChunk(cfg.libs, s.chunks[r]).Ok? {
      var t :| t in m.services && r in m.services[t].chunks;
      assert r in m.services[t].chunks;
    }
    ReadRecordsDecodes(cfg.libs, s.chunks, refs, get);
    BucketsOwnRecords(cfg, batch);
    RegroupingKeepsRecords(batch.buckets, batch.services);
    BucketsConserveRecords(cfg, batch.records);
  }

  /** Once acknowledged, a batch can be read back in full at any later moment of its process. */
  lemma AckedBatchReadsBack(cfg: Config, s: State, b: nat, get: ChunkReads)
    requires cfg.libs.Lawful() && Reachable(cfg, s)
    requires b < |s.batches| && s.batches[b].phase.Acked?
    requires forall n, r :: get(n, r) == GetChunk(s.chunks, r)
    ensures ReadsBackIn(cfg, s.batches[b], s, get)
  {
    hide Reachable, LocksOk, StoreOk, ShapeOk, PhaseOk, AckedOk, ReadsBackIn, Libs.Lawful;
    ReachableInv(cfg, s);
    ReachableAcked(cfg, s);
    assert BatchOk(cfg, Durable(cfg, s), s.chunks, s.indexes, s.batches[b]);
    ConsistentOpens(cfg, Durable(cfg, s), s.chunks, s.indexes);
    PlacedReadsBack(cfg, s, s.batches[b], get);
  }

  lemma BucketsOwnRecords(cfg: Config, batch: Batch)
    requires ShapeOk(cfg, batch)
    ensures OwnRecords(batch.buckets)
  {
    hide ChunkBatch, Enumerates;
    forall b, r | b in batch.buckets && r in b.records ensures r.service == b.service {
      assert GoodRecords(cfg, b.service, b.window, b.records);
      assert KeyOf(cfg, r) == BucketKey(b.service, b.window);
    }
  }
}
