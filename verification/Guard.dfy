/** When the guard against a lost manifest refuses a service of an archive that has lost nothing. */
module Guard {
  import opened Core
  import opened Ordering
  import opened Windows
  import opened Chunking
  import opened Sealing
  import opened Archive
  import opened Protocol
  import opened Safety
  import opened Runs
  import opened Serial
  import opened OneRecord

  /** Chunks are listed by prefix, and an index is stored for a service whose name extends `t`. */
  ghost predicate NestedStored(cfg: Config, indexes: Indexes, t: Text) {
    cfg.listing.ByPrefix? && exists r :: r in indexes && Nested(t, r.service)
  }

  /** A service without an entry is listed, in a consistent archive, only through another's chunks. */
  lemma ListedIffNested(cfg: Config, s: State, t: Text)
    requires StoreOk(cfg, Durable(cfg, s), s.chunks, s.indexes)
    requires t !in Durable(cfg, s).services
    ensures Listed(cfg, s, t) <==> NestedStored(cfg, s.indexes, t)
  {
    hide EntriesOk, IdsOk, Nested;
    if Listed(cfg, s, t) {
      var r :| r in s.indexes && Lists(cfg.listing, t, r.service);
      assert Nested(t, r.service);
    }
    if NestedStored(cfg, s.indexes, t) {
      var r :| r in s.indexes && Nested(t, r.service);
      assert Lists(cfg.listing, t, r.service);
    }
  }

  lemma DraftCovers(cfg: Config, s: State, b: nat)
    requires Inv(cfg, s)
    requires b < |s.batches| && s.batches[b].phase.Registering?
    ensures Durable(cfg, s).services.Keys <= s.batches[b].phase.draft.services.Keys
    ensures s.batches[b].phase.next < |s.batches[b].services|
    ensures b < |s.batches| && StoreOk(cfg, Durable(cfg, s), s.chunks, s.indexes)
  {
    hide LocksOk, StoreOk, ShapeOk;
    assert BatchOk(cfg, Durable(cfg, s), s.chunks, s.indexes, s.batches[b]);
  }

  /** The round of registration that meets `t` refuses the batch exactly when `t` is still without an
      entry and the prefix listing finds the chunks of a service nested in it. */
  lemma RefusesIffNested(cfg: Config, s: State, b: nat)
    requires cfg.libs.Lawful() && Reachable(cfg, s)
    requires Enabled(cfg, s, RegisterService(b))
    ensures var t := s.batches[b].services[s.batches[b].phase.next];
      Apply(cfg, s, RegisterService(b)).batches[b].phase == Failed(Refused) <==>
        t !in s.batches[b].phase.draft.services && NestedStored(cfg, s.indexes, t)
  {
    hide Reachable, Libs.Lawful, Inv, Listed, NestedStored, Durable, SetPhase, Finish, StoreOk;
    ReachableInv(cfg, s);
    DraftCovers(cfg, s, b);
    MovesTo(s, b);
    var t := s.batches[b].services[s.batches[b].phase.next];
    if t !in s.batches[b].phase.draft.services {
      ListedIffNested(cfg, s, t);
    }
  }

  ghost predicate RefusedOk(cfg: Config, indexes: Indexes, batch: Batch) {
    batch.phase == Failed(Refused) ==> exists t :: t in batch.services && NestedStored(cfg, indexes, t)
  }

  ghost predicate AllRefusedOk(cfg: Config, s: State) {
    forall b :: 0 <= b < |s.batches| ==> RefusedOk(cfg, s.indexes, s.batches[b])
  }

  lemma RefusedStays(cfg: Config, indexes: Indexes, indexes': Indexes, batch: Batch)
    requires RefusedOk(cfg, indexes, batch) && indexes.Keys <= indexes'.Keys
    ensures RefusedOk(cfg, indexes', batch)
  {
    if batch.phase == Failed(Refused) {
      var t :| t in batch.services && NestedStored(cfg, indexes, t);
      var r :| r in indexes && Nested(t, r.service);
      assert r in indexes';
      assert NestedStored(cfg, indexes', t);
    }
  }

  /** Only a registration round refuses. */
  lemma OnlyRegisteringRefuses(cfg: Config, s: State, step: Step, b: nat)
    requires Enabled(cfg, s, step) && CallOf(step) == Some(b) && !step.RegisterService?
    ensures b < |Apply(cfg, s, step).batches| && Apply(cfg, s, step).batches[b].phase != Failed(Refused)
  {
    hide NewBatch, RegisterOne, Overlay, BuildAll, Listed, Durable, AllBuildable, SetPhase, Finish;
    CallIsRunning(cfg, s, step, b);
    MovesTo(s, b);
    hide Enabled;
  }

  lemma NewBatchNotRefused(cfg: Config, records: seq<LogRecord>)
    ensures NewBatch(cfg, records).phase != Failed(Refused)
  {
  }

  lemma StepKeepsRefusedOk(cfg: Config, s: State, step: Step)
    requires cfg.libs.Lawful() && Reachable(cfg, s)
    requires Enabled(cfg, s, step) && AllRefusedOk(cfg, s)
    ensures AllRefusedOk(cfg, Apply(cfg, s, step))
  {
    hide Reachable, Libs.Lawful, Enabled, Apply, RefusedOk, NewBatch;
    var s' := Apply(cfg, s, step);
    IndexesStay(cfg, s, step);
    StepFrame(cfg, s, step);
    forall c: nat | c < |s'.batches| ensures RefusedOk(cfg, s'.indexes, s'.batches[c]) {
      if c < |s.batches| && CallOf(step) != Some(c) {
        FinishedStays(cfg, s, step, c);
        RefusedStays(cfg, s.indexes, s'.indexes, s.batches[c]);
      } else {
        MoverRefusedOk(cfg, s, step, c);
      }
    }
  }

  lemma MoverRefusedOk(cfg: Config, s: State, step: Step, c: nat)
    requires cfg.libs.Lawful() && Reachable(cfg, s) && Enabled(cfg, s, step)
    requires c < |Apply(cfg, s, step).batches|
    requires c < |s.batches| ==> CallOf(step) == Some(c)
    ensures RefusedOk(cfg, Apply(cfg, s, step).indexes, Apply(cfg, s, step).batches[c])
  {
    hide Reachable, Libs.Lawful, Enabled, Apply, NewBatch, NestedStored;
    var s' := Apply(cfg, s, step);
    StepFrame(cfg, s, step);
    if CallOf(step).None? {
      NewBatchNotRefused(cfg, step.records);
    } else if !step.RegisterService? {
      OnlyRegisteringRefuses(cfg, s, step, c);
    } else if s'.batches[c].phase == Failed(Refused) {
      RegisteringNow(cfg, s, c);
      RefusesIffNested(cfg, s, c);
      FinishedStays(cfg, s, step, c);
      IndexesStay(cfg, s, step);
      var t := s.batches[c].services[s.batches[c].phase.next];
      StoredStaysNested(cfg, s.indexes, s'.indexes, t);
    }
  }

  lemma RegisteringNow(cfg: Config, s: State, b: nat)
    requires Enabled(cfg, s, RegisterService(b))
    ensures b < |s.batches| && s.batches[b].phase.Registering? && s.batches[b].phase.next < |s.batches[b].services|
  {
  }

  lemma StoredStaysNested(cfg: Config, indexes: Indexes, indexes': Indexes, t: Text)
    requires NestedStored(cfg, indexes, t) && indexes.Keys <= indexes'.Keys
    ensures NestedStored(cfg, indexes', t)
  {
    var r :| r in indexes && Nested(t, r.service);
    assert r in indexes';
  }

  lemma {:induction false} RefusedAlongRun(cfg: Config, run: seq<State>, i: nat)
    requires cfg.libs.Lawful()
    requires IsRun(cfg, run) && i < |run| && Reachable(cfg, run[0]) && AllRefusedOk(cfg, run[0])
    ensures AllRefusedOk(cfg, run[i]) && Reachable(cfg, run[i])
  {
    hide IsRun, Reachable, Libs.Lawful, Enabled, Apply, AllRefusedOk;
    if i > 0 {
      RefusedAlongRun(cfg, run, i - 1);
      var step := StepAt(cfg, run, i);
      StepKeepsRefusedOk(cfg, run[i - 1], step);
      ReachableStep(cfg, run[i - 1], step);
    }
  }

  /** In no run, whatever fails, is a call refused unless chunks are listed by prefix and a service nested
      in one of its own is stored. In particular a directory listing never refuses, and neither does any
      listing when no stored service name holds a slash. */
  lemma RefusedMeansNested(cfg: Config, s: State, b: nat)
    requires cfg.libs.Lawful() && Reachable(cfg, s)
    requires b < |s.batches| && s.batches[b].phase == Failed(Refused)
    ensures cfg.listing.ByPrefix?
    ensures exists t, r :: t in s.batches[b].services && r in s.indexes && Nested(t, r.service)
    ensures exists r :: r in s.indexes && SLASH in r.service
  {
    hide AtRest, Libs.Lawful, Next, RefusedOk, Nested;
    var run :| IsRun(cfg, run) && AtRest(cfg, run[0]) && run[|run| - 1] == s;
    RestReachable(cfg, run[0]);
    assert AllRefusedOk(cfg, run[0]) by { RestRefusedOk(cfg, run[0]); }
    RefusedAlongRun(cfg, run, |run| - 1);
    NestedWitness(cfg, s.indexes, s.batches[b]);
  }

  lemma RestRefusedOk(cfg: Config, s: State)
    requires AtRest(cfg, s)
    ensures AllRefusedOk(cfg, s)
  {
  }

  lemma NestedWitness(cfg: Config, indexes: Indexes, batch: Batch)
    requires RefusedOk(cfg, indexes, batch) && batch.phase == Failed(Refused)
    ensures cfg.listing.ByPrefix?
    ensures exists t, r :: t in batch.services && r in indexes && Nested(t, r.service)
    ensures exists r :: r in indexes && SLASH in r.service
  {
    var t :| t in batch.services && NestedStored(cfg, indexes, t);
    var r :| r in indexes && Nested(t, r.service);
    assert r.service[|t|] == SLASH;
  }

  // ---- The guard does misfire ----

  ghost predicate AllOfService(records: seq<LogRecord>, t: Text) {
    records != [] && forall x :: x in records ==> x.service == t
  }

  lemma OnlyServiceListed(cfg: Config, records: seq<LogRecord>, t: Text)
    requires AllOfService(records, t)
    ensures NewBatch(cfg, records).services == [t] && NewBatch(cfg, records).phase == Locking(0)
  {
    hide KeyOf, TextLt, ChunkBatch, InBucket;
    var buckets := ChunkBatch(cfg, records);
    BucketsAreWellFormed(cfg, records);
    forall b | b in buckets ensures b.service == t {
      var i :| 0 <= i < |buckets| && buckets[i] == b;
      assert b.records[0] in b.records && forall x :: x in b.records ==> x in records && InBucket(cfg, x, b);
      BucketedOwn(cfg, b.records[0], b);
    }
    assert buckets[0] in buckets && ServicesIn(buckets) == {t};
    TextLtStrictTotal();
    assert Enumerates([t], {t}, TextLt);
    EnumerationUnique([t], ServiceList(buckets), {t}, TextLt);
  }

  lemma BucketedOwn(cfg: Config, x: LogRecord, b: Bucket)
    requires InBucket(cfg, x, b)
    ensures x.service == b.service
  {
  }

  /** The states a batch goes through, alone on an archive at rest, that ends while registering. */
  ghost function Ending(cfg: Config, s: State, nb: Batch, t: Text, reason: Failure): (run: seq<State>)
    ensures |run| == 7
  {
    var seeding := s.(batches := [nb.(phase := SeedReading)], serviceLocks := map[t := 0]);
    var locked := seeding.(batches := [nb.(phase := RegisterReading)], manifestLock := Some(0));
    [s,
     s.(batches := [nb]),
     seeding,
     seeding.(batches := [nb.(phase := WaitingToRegister)]),
     locked,
     locked.(batches := [nb.(phase := Registering(0, Durable(cfg, s)))]),
     s.(batches := [nb.(phase := Failed(reason))])]
  }

  lemma EndingLocks(cfg: Config, s: State, records: seq<LogRecord>, t: Text, reason: Failure)
    requires AtRest(cfg, s) && ValidRecords(cfg, records) && t !in Durable(cfg, s).services
    requires NewBatch(cfg, records).services == [t] && NewBatch(cfg, records).phase == Locking(0)
    ensures var run := Ending(cfg, s, NewBatch(cfg, records), t, reason);
      Next(cfg, run[0], run[1]) && Next(cfg, run[1], run[2]) && Next(cfg, run[2], run[3])
  {
    hide NewBatch, StoreOk, Next;
    var run := Ending(cfg, s, NewBatch(cfg, records), t, reason);
    NextBy(cfg, run[0], Begin(records), run[1]);
    NextBy(cfg, run[1], TakeServiceLock(0), run[2]);
    NextBy(cfg, run[2], ReadSeed(0), run[3]);
  }

  lemma RefusalRegisters(cfg: Config, s: State, nb: Batch, t: Text)
    requires AtRest(cfg, s) && nb.services == [t]
    requires t !in Durable(cfg, s).services && Listed(cfg, s, t) && cfg.listing.ByPrefix?
    ensures var run := Ending(cfg, s, nb, t, Refused);
      Next(cfg, run[3], run[4]) && Next(cfg, run[4], run[5]) && Next(cfg, run[5], run[6])
  {
    hide NewBatch, StoreOk, Next, Lists;
    var run := Ending(cfg, s, nb, t, Refused);
    NextBy(cfg, run[3], LockToRegister(0), run[4]);
    NextBy(cfg, run[4], ReadToRegister(0), run[5]);
    assert Listed(cfg, run[5], t) && run[6].serviceLocks == map[];
    NextBy(cfg, run[5], RegisterService(0), run[6]);
  }

  /** From an archive at rest, a first batch of a service that has a stored service nested in it is refused
      although nothing failed and nothing was lost. */
  lemma NestedServiceIsRefused(cfg: Config, s: State, records: seq<LogRecord>, t: Text) returns (run: seq<State>)
    requires AtRest(cfg, s)
    requires ValidRecords(cfg, records) && AllOfService(records, t)
    requires t !in Durable(cfg, s).services && NestedStored(cfg, s.indexes, t)
    ensures IsRun(cfg, run) && run[0] == s
    ensures run[|run| - 1].batches == [NewBatch(cfg, records).(phase := Failed(Refused))]
    ensures run[|run| - 1].manifest == s.manifest
  {
    hide NewBatch, NestedStored, Listed, Durable, StoreOk, Next;
    OnlyServiceListed(cfg, records, t);
    ListedIffNested(cfg, s, t);
    NestedNeedsPrefix(cfg, s.indexes, t);
    EndingLocks(cfg, s, records, t, Refused);
    RefusalRegisters(cfg, s, NewBatch(cfg, records), t);
    run := Ending(cfg, s, NewBatch(cfg, records), t, Refused);
    SevenStates(cfg, run);
  }

  lemma NestedNeedsPrefix(cfg: Config, indexes: Indexes, t: Text)
    requires NestedStored(cfg, indexes, t)
    ensures cfg.listing.ByPrefix?
  {
  }

  lemma SevenStates(cfg: Config, run: seq<State>)
    requires |run| == 7
    requires Next(cfg, run[0], run[1]) && Next(cfg, run[1], run[2]) && Next(cfg, run[2], run[3])
    requires Next(cfg, run[3], run[4]) && Next(cfg, run[4], run[5]) && Next(cfg, run[5], run[6])
    ensures IsRun(cfg, run)
  {
    hide Next;
  }

  lemma NextBy(cfg: Config, s: State, step: Step, s': State)
    requires Enabled(cfg, s, step) && Apply(cfg, s, step) == s'
    ensures Next(cfg, s, s')
  {
    hide Enabled, Apply;
  }

  const A: Text := [97]
  const A_SLASH_B: Text := [97, SLASH, 98]

  /** For example, once "a/b" has an archived record, a first batch of "a". */
  lemma NestedExampleIsRefused(cfg: Config, t: Instant) returns (run: seq<State>)
    requires cfg.libs.Lawful() && cfg.listing.ByPrefix? && Dated(cfg.libs, t)
    ensures IsRun(cfg, run) && AtRest(cfg, run[0])
    ensures Durable(cfg, run[0]).services.Keys == {A_SLASH_B}
    ensures ManifestOf(cfg, LogRecord(Null, t, A_SLASH_B, None, None, None)) == Durable(cfg, run[0])
    ensures |run[|run| - 1].batches| == 1 && run[|run| - 1].batches[0].phase == Failed(Refused)
    ensures run[|run| - 1].batches[0].records == [LogRecord(Null, t, A, None, None, None)]
  {
    hide StoreOk, ManifestOf, ChunksOf, IndexesOf, Libs.Lawful, WindowOf;
    var x, y := LogRecord(Null, t, A_SLASH_B, None, None, None), LogRecord(Null, t, A, None, None, None);
    ArchiveIsConsistent(cfg, x);
    var s := State(Some(ManifestOf(cfg, x)), ChunksOf(cfg, x), IndexesOf(cfg, x), map[], None, [], []);
    assert RefOf(cfg, x) in IndexesOf(cfg, x) by { RefIsIndexed(cfg, x); }
    assert A + [SLASH] == A_SLASH_B[..2];
    assert A !in {A_SLASH_B} by { assert |A| != |A_SLASH_B|; }
    assert NestedStored(cfg, s.indexes, A);
    run := NestedServiceIsRefused(cfg, s, [y], A);
    NewBatchRecords(cfg, [y]);
  }

  lemma RefIsIndexed(cfg: Config, x: LogRecord)
    ensures RefOf(cfg, x) in IndexesOf(cfg, x)
  {
  }

  lemma NewBatchRecords(cfg: Config, records: seq<LogRecord>)
    ensures NewBatch(cfg, records).records == records
  {
  }
}
