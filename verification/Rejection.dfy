/** Services whose names the backend rejects. */
module Rejection {
  import opened Core
  import opened Windows
  import opened Chunking
  import opened Index
  import opened Sealing
  import opened Archive
  import opened Protocol
  import opened Safety
  import opened Runs
  import opened Serial
  import opened Progress
  import opened ManifestLoss
  import opened Guard

  // ---- A rejected name is never archived ----

  ghost predicate StartedAdmitted(cfg: Config, built: Built, started: nat, inFlight: set<nat>) {
    forall i :: 0 <= i < started && i < |built.chunks| && i !in inFlight ==>
      Admits(cfg.listing, built.chunks[i].header.service)
  }

  /** A call gets past its uploads only if every name in it was accepted. */
  ghost predicate NamesOk(cfg: Config, batch: Batch) {
    match batch.phase
    case Uploading(_, built, started, inFlight, failed) => !failed ==> StartedAdmitted(cfg, built, started, inFlight)
    case WaitingToCommit(_, _) => AdmittedCall(cfg, batch)
    case CommitReading(_, _) => AdmittedCall(cfg, batch)
    case CommitWriting(_, _, _) => AdmittedCall(cfg, batch)
    case Acked(_, _) => AdmittedCall(cfg, batch)
    case _ => true
  }

  ghost predicate AllNamesOk(cfg: Config, s: State) {
    && (forall b :: 0 <= b < |s.batches| ==> NamesOk(cfg, s.batches[b]))
    && (forall c :: c in s.commits ==> c < |s.batches| && AdmittedCall(cfg, s.batches[c]))
  }

  /** Each service of a call has a chunk among those built. */
  lemma UploadedAreAdmitted(cfg: Config, m: Manifest, batch: Batch, seed: Manifest, built: Built)
    requires ShapeOk(cfg, batch) && SeededOk(cfg, m, batch, seed, built)
    requires StartedAdmitted(cfg, built, |built.chunks|, {})
    ensures AdmittedCall(cfg, batch)
  {
    hide SequencesRise, ContinuesChain, OpenChunk, IndexOf, ChunkBatch, Admits, GoodBuckets;
    ShapeServices(cfg, batch);
    forall t | t in batch.services ensures Admits(cfg.listing, t) {
      var bucket :| bucket in batch.buckets && bucket.service == t;
      var i :| 0 <= i < |batch.buckets| && batch.buckets[i] == bucket;
      assert ArchivesAt(cfg.libs, seed, batch.buckets, built, i);
    }
  }

  lemma FinishKeepsNames(cfg: Config, s: State, b: nat, i: nat, put: PutOutcome)
    requires b < |s.batches| && s.batches[b].phase.Uploading? && NamesOk(cfg, s.batches[b])
    requires i < |s.batches[b].phase.built.chunks| && i < |s.batches[b].phase.built.indexes|
    requires CanPut(cfg, s.batches[b].phase.built.chunks[i].Ref(), put)
    ensures b < |FinishUploadStep(s, b, i, put).batches| && NamesOk(cfg, FinishUploadStep(s, b, i, put).batches[b])
  {
    hide Admits;
  }

  lemma StartKeepsNames(cfg: Config, s: State, b: nat)
    requires b < |s.batches| && s.batches[b].phase.Uploading? && NamesOk(cfg, s.batches[b])
    ensures b < |StartUploadStep(s, b).batches| && NamesOk(cfg, StartUploadStep(s, b).batches[b])
  {
    hide Admits;
  }

  lemma CollectKeepsNames(cfg: Config, s: State, b: nat)
    requires Inv(cfg, s) && b < |s.batches| && s.batches[b].phase.Uploading? && NamesOk(cfg, s.batches[b])
    requires s.batches[b].phase.started == |s.batches[b].phase.built.chunks| && s.batches[b].phase.inFlight == {}
    ensures b < |CollectUploadsStep(s, b).batches| && NamesOk(cfg, CollectUploadsStep(s, b).batches[b])
  {
    hide LocksOk, StoreOk, ShapeOk, SeededOk, UploadsOk, StartedAdmitted, SetPhase, Finish;
    var m, batch := Durable(cfg, s), s.batches[b];
    assert BatchOk(cfg, m, s.chunks, s.indexes, batch);
    MovesTo(s, b);
    if !batch.phase.failed {
      UploadedAreAdmitted(cfg, m, batch, batch.phase.seed, batch.phase.built);
    }
  }

  lemma CallKeepsNames(cfg: Config, s: State, step: Step, b: nat)
    requires Inv(cfg, s) && Enabled(cfg, s, step) && CallOf(step) == Some(b)
    requires b < |s.batches| && NamesOk(cfg, s.batches[b])
    ensures b < |Apply(cfg, s, step).batches| && NamesOk(cfg, Apply(cfg, s, step).batches[b])
  {
    hide Inv, SetPhase, Finish, BuildAll, Overlay, AllBuildable, CanPut, Admits, StartUploadStep, FinishUploadStep,
      CollectUploadsStep;
    match step {
      case StartUpload(_) => StartKeepsNames(cfg, s, b);
      case FinishUpload(_, i, put) => FinishKeepsNames(cfg, s, b, i, put);
      case CollectUploads(_) => CollectKeepsNames(cfg, s, b);
      case _ =>
        hide Enabled, Apply, NamesOk;
        if IsEarly(step) { EarlyKeepsNames(cfg, s, step, b); } else { LateKeepsNames(cfg, s, step, b); }
    }
  }

  lemma EarlyKeepsNames(cfg: Config, s: State, step: Step, b: nat)
    requires Enabled(cfg, s, step) && CallOf(step) == Some(b) && IsEarly(step) && b < |s.batches|
    ensures b < |Apply(cfg, s, step).batches| && NamesOk(cfg, Apply(cfg, s, step).batches[b])
  {
    hide SetPhase, Finish, Listed, RegisterOne, Durable, CanList, Admits;
    MovesTo(s, b);
  }

  lemma LateKeepsNames(cfg: Config, s: State, step: Step, b: nat)
    requires Enabled(cfg, s, step) && CallOf(step) == Some(b) && !IsEarly(step) && !IsUpload(step)
    requires b < |s.batches| && NamesOk(cfg, s.batches[b])
    ensures b < |Apply(cfg, s, step).batches| && NamesOk(cfg, Apply(cfg, s, step).batches[b])
  {
    hide SetPhase, Finish, BuildAll, Overlay, Durable, AllBuildable, Admits;
    MovesTo(s, b);
  }

  lemma NewBatchNames(cfg: Config, records: seq<LogRecord>)
    ensures NamesOk(cfg, NewBatch(cfg, records))
  {
    hide ChunkBatch, Admits;
    var services := ServiceList(ChunkBatch(cfg, records));
    assert forall t :: t in services ==> t in ServicesIn(ChunkBatch(cfg, records));
  }

  lemma StepKeepsNames(cfg: Config, s: State, step: Step)
    requires Inv(cfg, s) && Enabled(cfg, s, step) && AllNamesOk(cfg, s)
    ensures AllNamesOk(cfg, Apply(cfg, s, step))
  {
    hide Inv, Enabled, Apply, NamesOk, NewBatch, AdmittedCall;
    var s' := Apply(cfg, s, step);
    StepFrame(cfg, s, step);
    StepCommits(cfg, s, step);
    forall b: nat | b < |s'.batches| ensures NamesOk(cfg, s'.batches[b]) {
      match CallOf(step)
      case None => NewBatchNames(cfg, step.records);
      case Some(c) => if b == c { CallKeepsNames(cfg, s, step, b); }
    }
    forall c | c in s'.commits ensures c < |s'.batches| && AdmittedCall(cfg, s'.batches[c]) {
      if c !in s.commits {
        LandedIsAdmitted(cfg, s, step, c);
      }
      FinishedStays(cfg, s, step, c);
      SameNames(cfg, s.batches[c], s'.batches[c]);
    }
  }

  lemma SameNames(cfg: Config, x: Batch, y: Batch)
    requires SameCall(x, y)
    ensures AdmittedCall(cfg, x) == AdmittedCall(cfg, y)
  {
  }

  lemma LandedIsAdmitted(cfg: Config, s: State, step: Step, c: nat)
    requires Enabled(cfg, s, step) && AllNamesOk(cfg, s) && c in Landed(step)
    ensures c < |s.batches| && AdmittedCall(cfg, s.batches[c])
  {
    hide Enabled, Apply, AdmittedCall;
    LandedIsFinished(cfg, s, step, c);
    assert NamesOk(cfg, s.batches[c]);
  }

  lemma {:induction false} NamesAlongRun(cfg: Config, run: seq<State>, i: nat)
    requires cfg.libs.Lawful()
    requires IsRun(cfg, run) && AtRest(cfg, run[0]) && i < |run|
    ensures AllNamesOk(cfg, run[i])
  {
    hide IsRun, Inv, Libs.Lawful, Enabled, Apply, NamesOk;
    if i > 0 {
      hide AllNamesOk;
      NamesAlongRun(cfg, run, i - 1);
      AtRestInv(cfg, run[0]);
      InvAlongRun(cfg, run, i - 1);
      var step := StepAt(cfg, run, i);
      StepKeepsNames(cfg, run[i - 1], step);
    }
  }

  lemma ReachableNames(cfg: Config, s: State)
    requires cfg.libs.Lawful() && Reachable(cfg, s)
    ensures AllNamesOk(cfg, s)
  {
    hide AtRest, AllNamesOk, Libs.Lawful, Next;
    var run :| IsRun(cfg, run) && AtRest(cfg, run[0]) && run[|run| - 1] == s;
    NamesAlongRun(cfg, run, |run| - 1);
  }

  /** In no run, from any consistent archive, is a call acknowledged or committed that touches a service whose
      name the backend rejects, however many acceptable services its records belong to besides. */
  lemma RejectedNeverAcknowledged(cfg: Config, s: State, b: nat, t: Text)
    requires cfg.libs.Lawful() && Reachable(cfg, s)
    requires b < |s.batches| && t in s.batches[b].services && !Admits(cfg.listing, t)
    ensures !s.batches[b].phase.Acked? && b !in s.commits
  {
    hide Reachable, Libs.Lawful, Admits;
    ReachableNames(cfg, s);
    assert NamesOk(cfg, s.batches[b]);
  }

  /** If such a service has no entry when the process starts, it never gets one, and a call that touches it
      changes neither the manifest nor any archive, of any service. */
  lemma RejectedChangesNothing(cfg: Config, run: seq<State>, i: nat, b: nat, t: Text)
    requires cfg.libs.Lawful()
    requires IsRun(cfg, run) && i + 1 < |run| && run[0].batches == []
    requires t !in Durable(cfg, run[0]).services && !Admits(cfg.listing, t)
    requires b < |run[i].batches| && t in run[i].batches[b].services
    requires b < |run[i + 1].batches| && run[i + 1].batches[b] != run[i].batches[b]
    ensures run[i + 1].manifest == run[i].manifest
    ensures run[i + 1].chunks == run[i].chunks && run[i + 1].indexes == run[i].indexes
    ensures t !in Durable(cfg, run[i + 1]).services
  {
    hide IsRun, Enabled, Apply, Libs.Lawful, Admits, LostBatch, Listed;
    assert Lost(cfg, run[0], t);
    LossIsContained(cfg, run, i, t);
    LossIsContained(cfg, run, i + 1, t);
    var step := StepAt(cfg, run, i + 1);
    FinishedStays(cfg, run[i], step, b);
    TouchingLostChangesNothing(cfg, run[i], step, b, t);
  }

  // ---- For example ----

  lemma FaultRegisters(cfg: Config, s: State, nb: Batch, t: Text)
    requires AtRest(cfg, s) && nb.services == [t] && t !in Durable(cfg, s).services
    ensures var run := Ending(cfg, s, nb, t, Faulted);
      Next(cfg, run[3], run[4]) && Next(cfg, run[4], run[5]) && Next(cfg, run[5], run[6])
  {
    hide NewBatch, StoreOk, Next, Listed;
    var run := Ending(cfg, s, nb, t, Faulted);
    NextBy(cfg, run[3], LockToRegister(0), run[4]);
    NextBy(cfg, run[4], ReadToRegister(0), run[5]);
    assert run[6].serviceLocks == map[];
    NextBy(cfg, run[5], Fault(0), run[6]);
  }

  /** With directories, a batch of the service "a/b" ends in an error that leaves the empty backend empty, and
      there is no other way for it to end but to be abandoned. */
  lemma SlashIsRejected(cfg: Config, t: Instant) returns (run: seq<State>)
    requires cfg.libs.Lawful() && cfg.listing.ByDirectory? && Dated(cfg.libs, t)
    ensures IsRun(cfg, run) && AtRest(cfg, run[0])
    ensures run[|run| - 1] == run[0].(batches := [NewBatch(cfg, [Example(t)]).(phase := Failed(Faulted))])
    ensures forall s, b :: Reachable(cfg, s) && 0 <= b < |s.batches| && A_SLASH_B in s.batches[b].services ==>
      !s.batches[b].phase.Acked?
  {
    hide NewBatch, StoreOk, Next, Reachable, Libs.Lawful, IsRun, AtRest;
    var s := State(None, map[], map[], map[], None, [], []);
    EmptyBackendIsAtRest(cfg);
    OnlyServiceListed(cfg, [Example(t)], A_SLASH_B);
    EndingLocks(cfg, s, [Example(t)], A_SLASH_B, Faulted);
    FaultRegisters(cfg, s, NewBatch(cfg, [Example(t)]), A_SLASH_B);
    run := Ending(cfg, s, NewBatch(cfg, [Example(t)]), A_SLASH_B, Faulted);
    SevenStates(cfg, run);
    assert SLASH in A_SLASH_B && !Admits(cfg.listing, A_SLASH_B) by { assert A_SLASH_B[1] == SLASH; }
    forall s, b | Reachable(cfg, s) && 0 <= b < |s.batches| && A_SLASH_B in s.batches[b].services
      ensures !s.batches[b].phase.Acked?
    {
      RejectedNeverAcknowledged(cfg, s, b, A_SLASH_B);
    }
  }

  function Example(t: Instant): LogRecord {
    LogRecord(Null, t, A_SLASH_B, None, None, None)
  }
}
