/** What the locks buy: while a call holds a service nobody else changes anything of it. */
module Isolation {
  import opened Core
  import opened Sealing
  import opened Archive
  import opened Protocol
  import opened Safety
  import opened Runs
  import opened Serial

  function EntryOf(m: Manifest, t: Text): Option<ServiceChain> {
    if t in m.services then Some(m.services[t]) else None
  }

  /** Nothing durable about service `t` differs. */
  ghost predicate ServiceUntouched(cfg: Config, s: State, s': State, t: Text) {
    && EntryOf(Durable(cfg, s'), t) == EntryOf(Durable(cfg, s), t)
    && (forall r: ChunkRef :: r.service == t ==> SameStored(r, s.chunks, s.indexes, s'.chunks, s'.indexes))
  }

  lemma RunningCallHolds(cfg: Config, batch: Batch, t: Text)
    requires ShapeOk(cfg, batch)
    requires !Finished(batch.phase) && !batch.phase.Locking?
    ensures HoldsService(batch, t) <==> t in batch.services
    ensures t in batch.services <==> t in ServicesIn(batch.buckets)
  {
    ShapeServices(cfg, batch);
  }

  lemma UploadIsolated(cfg: Config, s: State, b: nat, i: nat, put: PutOutcome, t: Text)
    requires Inv(cfg, s)
    requires b < |s.batches| && s.batches[b].phase.Uploading?
    requires i < |s.batches[b].phase.built.chunks| && i < |s.batches[b].phase.built.indexes|
    requires !HoldsService(s.batches[b], t)
    ensures ServiceUntouched(cfg, s, FinishUploadStep(s, b, i, put), t)
  {
    hide LocksOk, StoreOk, ShapeOk, BuiltOk, SeedCurrent, UploadsOk, Unreferenced;
    var m, p := Durable(cfg, s), s.batches[b].phase;
    assert BatchOk(cfg, m, s.chunks, s.indexes, s.batches[b]);
    UploadIsUnreferenced(cfg, m, s.batches[b], p.seed, p.built, i);
    RunningCallHolds(cfg, s.batches[b], p.built.chunks[i].header.service);
  }

  lemma RegistrationIsolated(cfg: Config, s: State, b: nat, t: Text)
    requires Inv(cfg, s) && b < |s.batches| && s.batches[b].phase.RegisterWriting?
    requires !HoldsService(s.batches[b], t)
    ensures EntryOf(s.batches[b].phase.draft, t) == EntryOf(Durable(cfg, s), t)
  {
    hide LocksOk, StoreOk, ShapeOk;
    assert BatchOk(cfg, Durable(cfg, s), s.chunks, s.indexes, s.batches[b]);
  }

  lemma CommitIsolated(cfg: Config, s: State, b: nat, t: Text)
    requires Inv(cfg, s) && b < |s.batches| && s.batches[b].phase.CommitWriting?
    requires !HoldsService(s.batches[b], t)
    ensures EntryOf(s.batches[b].phase.draft, t) == EntryOf(Durable(cfg, s), t)
  {
    hide LocksOk, StoreOk, BatchOk, Appends;
    var m := Durable(cfg, s);
    assert BatchOk(cfg, m, s.chunks, s.indexes, s.batches[b]);
    CommitDraft(cfg, m, s.chunks, s.indexes, s.batches[b]);
  }

  lemma SelfUntouched(cfg: Config, s: State, s': State, t: Text)
    requires s'.chunks == s.chunks && s'.indexes == s.indexes
    requires EntryOf(Durable(cfg, s'), t) == EntryOf(Durable(cfg, s), t)
    ensures ServiceUntouched(cfg, s, s', t)
  {
  }

  /** From the moment a call has locked a service until it returns, no step of any other call changes
      that service's manifest entry, or any chunk or index of it. */
  lemma NonInterference(cfg: Config, s: State, step: Step, c: nat, t: Text)
    requires cfg.libs.Lawful() && Reachable(cfg, s) && Enabled(cfg, s, step)
    requires c < |s.batches| && HoldsService(s.batches[c], t)
    requires CallOf(step) != Some(c)
    ensures ServiceUntouched(cfg, s, Apply(cfg, s, step), t)
  {
    hide Reachable, Libs.Lawful, HoldsService, StoreOk, BatchesOk, LocksOk, ServiceUntouched, EntryOf, NewBatch,
      RegisterOne, Overlay, BuildAll, Listed, AllBuildable, CanFault;
    ReachableInv(cfg, s);
    if CallOf(step).Some? {
      CallIsRunning(cfg, s, step, CallOf(step).value);
      LocksAreExclusive(s, CallOf(step).value, c, t);
    }
    match step {
      case FinishUpload(b, i, put) => UploadIsolated(cfg, s, b, i, put, t);
      case WriteRegistration(b, _) =>
        RegistrationIsolated(cfg, s, b, t);
        SelfUntouched(cfg, s, Apply(cfg, s, step), t);
      case WriteCommit(b, _) =>
        CommitIsolated(cfg, s, b, t);
        SelfUntouched(cfg, s, Apply(cfg, s, step), t);
      case _ =>
        hide Apply;
        OtherStepsKeepBackend(cfg, s, step);
        SelfUntouched(cfg, s, Apply(cfg, s, step), t);
    }
  }

  function SeedOf(p: Phase): Option<Manifest> {
    match p
    case Building(seed) => Some(seed)
    case Uploading(seed, _, _, _, _) => Some(seed)
    case WaitingToCommit(seed, _) => Some(seed)
    case CommitReading(seed, _) => Some(seed)
    case CommitWriting(seed, _, _) => Some(seed)
    case _ => None
  }

  /** However long ago a call read its seed without a lock, its services still stand in the durable
      manifest exactly as it read them, until it commits. */
  lemma SeedStaysCurrent(cfg: Config, s: State, b: nat, t: Text)
    requires cfg.libs.Lawful() && Reachable(cfg, s)
    requires b < |s.batches| && SeedOf(s.batches[b].phase).Some?
    requires t in s.batches[b].services
    ensures EntryOf(Durable(cfg, s), t).Some?
    ensures EntryOf(Durable(cfg, s), t) == EntryOf(SeedOf(s.batches[b].phase).value, t)
  {
    hide LocksOk, StoreOk, Reachable, ShapeOk, BuiltOk, AllStored, UploadsOk;
    ReachableInv(cfg, s);
    var batch := s.batches[b];
    assert BatchOk(cfg, Durable(cfg, s), s.chunks, s.indexes, batch);
    ShapeServices(cfg, batch);
  }

  /** A call that returns an upload error has started every upload and has none in flight. */
  lemma UploadErrorLeavesNothingInFlight(cfg: Config, s: State, step: Step, b: nat)
    requires Enabled(cfg, s, step)
    requires b < |s.batches| && s.batches[b].phase.Uploading?
    requires b < |Apply(cfg, s, step).batches| && Apply(cfg, s, step).batches[b].phase.Failed?
    ensures s.batches[b].phase.failed && s.batches[b].phase.inFlight == {}
    ensures s.batches[b].phase.started == |s.batches[b].phase.built.chunks|
  {
    hide SetPhase, Finish, NewBatch;
    FinishedStays(cfg, s, step, b);
    if step.CollectUploads? {
      MovesTo(s, b);
    } else {
      hide Apply;
      OnlyCollectingFails(cfg, s, step, b);
    }
  }

  lemma OnlyCollectingFails(cfg: Config, s: State, step: Step, b: nat)
    requires Enabled(cfg, s, step)
    requires b < |s.batches| && s.batches[b].phase.Uploading?
    requires CallOf(step) == Some(b) && !step.CollectUploads?
    ensures b < |Apply(cfg, s, step).batches| && !Apply(cfg, s, step).batches[b].phase.Failed?
  {
    hide SetPhase, Finish;
    MovesTo(s, b);
  }

  lemma {:induction false} FinishedForGood(cfg: Config, run: seq<State>, i: nat, j: nat, b: nat)
    requires IsRun(cfg, run) && i <= j < |run|
    requires b < |run[i].batches| && Finished(run[i].batches[b].phase)
    ensures b < |run[j].batches| && run[j].batches[b] == run[i].batches[b]
    decreases j - i
  {
    hide IsRun, Enabled, Apply, Finished;
    if i < j {
      FinishedForGood(cfg, run, i, j - 1, b);
      var step := StepAt(cfg, run, j);
      FinishedStays(cfg, run[j - 1], step, b);
    }
  }

  /** A call that returns an upload error has started every upload and has none in flight, and from then on it
      takes no step, so nothing of it reaches the backend after the caller was told. */
  lemma UploadErrorIsFinal(cfg: Config, run: seq<State>, i: nat, j: nat, b: nat, step: Step)
    requires IsRun(cfg, run) && i < j < |run|
    requires b < |run[i].batches| && run[i].batches[b].phase.Uploading?
    requires b < |run[i + 1].batches| && run[i + 1].batches[b].phase.Failed?
    requires Enabled(cfg, run[j], step)
    ensures run[i].batches[b].phase.failed && run[i].batches[b].phase.inFlight == {}
    ensures run[i].batches[b].phase.started == |run[i].batches[b].phase.built.chunks|
    ensures CallOf(step) != Some(b)
  {
    hide IsRun, Enabled, Apply;
    var error := StepAt(cfg, run, i + 1);
    UploadErrorLeavesNothingInFlight(cfg, run[i], error, b);
    FinishedForGood(cfg, run, i + 1, j, b);
    if CallOf(step) == Some(b) { CallIsRunning(cfg, run[j], step, b); }
  }

  /** A call never has more than eight uploads in flight, and with fewer it can start its next one. */
  lemma EightUploadsAtOnce(cfg: Config, s: State, b: nat)
    requires cfg.libs.Lawful() && Reachable(cfg, s)
    requires b < |s.batches| && s.batches[b].phase.Uploading?
    ensures |s.batches[b].phase.inFlight| <= 8
    ensures s.batches[b].phase.started < |s.batches[b].phase.built.chunks| && |s.batches[b].phase.inFlight| < 8 ==>
      Enabled(cfg, s, StartUpload(b))
  {
    hide Libs.Lawful, Reachable, LocksOk, StoreOk, ShapeOk, SeedCurrent, BuiltOk;
    ReachableInv(cfg, s);
    var p := s.batches[b].phase;
    assert BatchOk(cfg, Durable(cfg, s), s.chunks, s.indexes, s.batches[b]);
    BuiltLengths(cfg, p.seed, s.batches[b].buckets, p.built);
  }

  // ---- No needless registration ----

  predicate ToRegister(p: Phase) {
    p.WaitingToRegister? || p.RegisterReading? || p.Registering? || p.RegisterWriting?
  }

  /** A call on its way to registering still has a service without an entry. */
  ghost predicate NeedsOne(cfg: Config, s: State, b: nat)
    requires b < |s.batches|
  {
    ToRegister(s.batches[b].phase) ==> exists t :: t in s.batches[b].services && t !in Durable(cfg, s).services
  }

  ghost predicate AllNeedOne(cfg: Config, s: State) {
    forall b: nat :: b < |s.batches| ==> NeedsOne(cfg, s, b)
  }

  lemma OwnStepNeeds(cfg: Config, s: State, step: Step, b: nat)
    requires Enabled(cfg, s, step) && CallOf(step) == Some(b) && b < |s.batches| && b < |Apply(cfg, s, step).batches|
    requires NeedsOne(cfg, s, b)
    ensures NeedsOne(cfg, Apply(cfg, s, step), b)
  {
    hide NewBatch, RegisterOne, Overlay, BuildAll, Listed, AllBuildable, SetPhase, Finish, CanPut, CanList;
    MovesTo(s, b);
    MovesKeepBackend(s, b);
    CallMoves(cfg, s, step, b);
  }

  lemma OtherStepNeeds(cfg: Config, s: State, step: Step, b: nat)
    requires cfg.libs.Lawful() && Reachable(cfg, s) && Enabled(cfg, s, step)
    requires b < |s.batches| && CallOf(step) != Some(b) && NeedsOne(cfg, s, b)
    ensures b < |Apply(cfg, s, step).batches| && NeedsOne(cfg, Apply(cfg, s, step), b)
  {
    hide Libs.Lawful, Reachable, Enabled, Apply, Durable;
    var s' := Apply(cfg, s, step);
    FinishedStays(cfg, s, step, b);
    if ToRegister(s.batches[b].phase) {
      var t :| t in s.batches[b].services && t !in Durable(cfg, s).services;
      NonInterference(cfg, s, step, b, t);
      assert EntryOf(Durable(cfg, s'), t) == EntryOf(Durable(cfg, s), t);
    }
  }

  lemma {:induction false} NeedsAlongRun(cfg: Config, run: seq<State>, i: nat)
    requires cfg.libs.Lawful()
    requires IsRun(cfg, run) && AtRest(cfg, run[0]) && i < |run|
    ensures Reachable(cfg, run[i]) && AllNeedOne(cfg, run[i])
  {
    hide IsRun, Reachable, Libs.Lawful, Enabled, Apply, NeedsOne, NewBatch;
    if i == 0 {
      RestReachable(cfg, run[0]);
    } else {
      NeedsAlongRun(cfg, run, i - 1);
      var s := run[i - 1];
      var step := StepAt(cfg, run, i);
      ReachableStep(cfg, s, step);
      StepFrame(cfg, s, step);
      forall b: nat | b < |run[i].batches| ensures NeedsOne(cfg, run[i], b) {
        if CallOf(step) == Some(b) {
          OwnStepNeeds(cfg, s, step, b);
        } else if b < |s.batches| {
          OtherStepNeeds(cfg, s, step, b);
        } else {
          NewNeedsNothing(cfg, run[i], b, step.records);
        }
      }
    }
  }

  lemma NewNeedsNothing(cfg: Config, s: State, b: nat, records: seq<LogRecord>)
    requires b < |s.batches| && s.batches[b] == NewBatch(cfg, records)
    ensures NeedsOne(cfg, s, b)
  {
  }

  /** A call takes the manifest lock to register, and writes the manifest for it, only while one of its services
      has no entry: when all are known it goes straight on to build. */
  lemma RegistrationIsNeeded(cfg: Config, s: State, b: nat)
    requires cfg.libs.Lawful() && Reachable(cfg, s)
    requires b < |s.batches| && ToRegister(s.batches[b].phase)
    ensures exists t :: t in s.batches[b].services && t !in Durable(cfg, s).services
  {
    hide AtRest, Libs.Lawful, Next, Durable;
    var run :| IsRun(cfg, run) && AtRest(cfg, run[0]) && run[|run| - 1] == s;
    NeedsAlongRun(cfg, run, |run| - 1);
    assert NeedsOne(cfg, s, b);
  }
}
