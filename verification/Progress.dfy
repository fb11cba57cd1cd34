/** Concurrent ingestion never deadlocks and always comes to an end. */
module Progress {
  import opened Core
  import opened Ordering
  import opened Chunking
  import opened Index
  import opened Sealing
  import opened Archive
  import opened Protocol
  import opened Safety
  import opened Runs
  import opened Serial

  // ---- No deadlock ----

  /** Waiting for a lock somebody has. */
  predicate Blocked(s: State, b: nat)
    requires b < |s.batches|
  {
    var batch := s.batches[b];
    match batch.phase
    case Locking(held) => held < |batch.services| && batch.services[held] in s.serviceLocks
    case WaitingToRegister => s.manifestLock.Some?
    case WaitingToCommit(_, _) => s.manifestLock.Some?
    case _ => false
  }

  predicate Running(s: State, b: nat) {
    b < |s.batches| && !Finished(s.batches[b].phase)
  }

  ghost predicate AllFinished(s: State) {
    forall b :: 0 <= b < |s.batches| ==> Finished(s.batches[b].phase)
  }

  /** A step of a call already under way in which nothing goes wrong. */
  predicate Succeeds(step: Step) {
    match step
    case Begin(_) => false
    case Fault(_) => false
    case Abandon(_) => false
    case WriteRegistration(_, written) => written.WriteDone?
    case WriteCommit(_, written) => written.WriteDone?
    case FinishUpload(_, _, put) => put.PutDone?
    case _ => true
  }

  /** Under way, with no failed upload to report. */
  predicate OnTrack(batch: Batch) {
    !Finished(batch.phase) && (batch.phase.Uploading? ==> !batch.phase.failed)
  }

  /** The backend accepts the names of all the call's services. */
  ghost predicate AdmittedCall(cfg: Config, batch: Batch) {
    forall t :: t in batch.services ==> Admits(cfg.listing, t)
  }

  /** The upload of a name the backend rejects, in a call that has failed already. */
  predicate MustFail(cfg: Config, s: State, step: Step) {
    && step.FinishUpload? && step.put == PutFailed(false, false)
    && step.b < |s.batches| && s.batches[step.b].phase.Uploading? && s.batches[step.b].phase.failed
    && step.i < |s.batches[step.b].phase.built.chunks|
    && !AdmitsRef(cfg, s.batches[step.b].phase.built.chunks[step.i].Ref())
  }

  /** A step of a call under way in which nothing fails, but what has to in a call that has failed. */
  predicate Smooth(cfg: Config, s: State, step: Step) {
    Succeeds(step) || MustFail(cfg, s, step)
  }

  ghost function ZeroSalts(n: nat): (salts: seq<Salt>)
    ensures |salts| == n
  {
    if n == 0 then [] else ZeroSalts(n - 1) + [ZERO32]
  }

  lemma SeedCovers(cfg: Config, m: Manifest, batch: Batch, seed: Manifest, built: Built)
    requires SeededOk(cfg, m, batch, seed, built)
    ensures built.heads.Keys <= seed.services.Keys
  {
    hide ArchivesAt, ContinuesChain, SequencesRise;
    BuiltLengths(cfg, seed, batch.buckets, built);
  }

  lemma UploadNames(cfg: Config, m: Manifest, batch: Batch, seed: Manifest, built: Built, i: nat)
    requires cfg.libs.Lawful() && ShapeOk(cfg, batch)
    requires SeededOk(cfg, m, batch, seed, built) && i < |built.chunks|
    ensures built.chunks[i].header.service in batch.services
    ensures Safe(built.chunks[i].header.timeWindow)
  {
    hide SequencesRise, ContinuesChain, OpenChunk, IndexOf, ChunkBatch, Safe, Libs.Lawful, GoodBuckets;
    BuiltServices(cfg, m, batch, seed, built, i);
    ShapeServices(cfg, batch);
    BucketWindowsAreSafe(cfg, batch.records);
    assert ArchivesAt(cfg.libs, seed, batch.buckets, built, i);
    assert batch.buckets[i] in batch.buckets;
  }

  /** How an upload in flight can end. */
  lemma UploadEnds(cfg: Config, s: State, b: nat, i: nat) returns (step: Step)
    requires cfg.libs.Lawful() && Inv(cfg, s)
    requires b < |s.batches| && s.batches[b].phase.Uploading? && i in s.batches[b].phase.inFlight
    ensures Enabled(cfg, s, step) && step.FinishUpload? && step.b == b
    ensures (OnTrack(s.batches[b]) ==> AdmittedCall(cfg, s.batches[b])) ==> Smooth(cfg, s, step)
  {
    hide LocksOk, StoreOk, ShapeOk, BuiltOk, SeedCurrent, IsStored, Safe, Libs.Lawful;
    var m, batch := Durable(cfg, s), s.batches[b];
    var p := batch.phase;
    assert BatchOk(cfg, m, s.chunks, s.indexes, batch);
    BuiltLengths(cfg, p.seed, batch.buckets, p.built);
    UploadNames(cfg, m, batch, p.seed, p.built, i);
    step := FinishUpload(b, i, if AdmitsRef(cfg, p.built.chunks[i].Ref()) then PutDone else PutFailed(false, false));
  }

  /** The next step of a call that waits for no lock. Unless the call is on track and the backend rejects one
      of its names, nothing fails in it that has not failed before. */
  lemma RunnableStep(cfg: Config, s: State, b: nat) returns (step: Step)
    requires cfg.libs.Lawful() && Inv(cfg, s)
    requires Running(s, b) && !Blocked(s, b)
    ensures Enabled(cfg, s, step) && CallOf(step) == Some(b) && !step.Abandon?
    ensures (OnTrack(s.batches[b]) ==> AdmittedCall(cfg, s.batches[b])) ==> Smooth(cfg, s, step)
  {
    hide LocksOk, StoreOk, ShapeOk, BuiltOk, AllStored, SeedCurrent, IsStored, DraftOk, AddsOnly, Safe, MustFail,
      Libs.Lawful;
    var batch, m := s.batches[b], Durable(cfg, s);
    assert BatchOk(cfg, m, s.chunks, s.indexes, batch);
    match batch.phase {
      case Locking(_) => step := TakeServiceLock(b);
      case SeedReading => step := ReadSeed(b);
      case WaitingToRegister => step := LockToRegister(b);
      case RegisterReading => step := ReadToRegister(b);
      case Registering(next, draft) =>
        step := if CanList(cfg, draft, batch.services[next]) then RegisterService(b) else Fault(b);
      case RegisterWriting(_) => step := WriteRegistration(b, WriteDone);
      case Building(seed) =>
        SeedBuildable(cfg, m, batch, seed);
        step := Build(b, ZeroSalts(|batch.buckets|));
      case Uploading(seed, built, started, inFlight, _) =>
        BuiltLengths(cfg, seed, batch.buckets, built);
        if inFlight != {} {
          var i :| i in inFlight;
          step := UploadEnds(cfg, s, b, i);
        } else if started < |built.chunks| {
          step := StartUpload(b);
        } else {
          step := CollectUploads(b);
        }
      case WaitingToCommit(_, _) => step := LockToCommit(b);
      case CommitReading(seed, built) =>
        SeedCovers(cfg, m, batch, seed, built);
        step := ReadToCommit(b);
      case CommitWriting(_, _, _) => step := WriteCommit(b, WriteDone);
    }
  }

  function Wanted(batch: Batch): Text
    requires batch.phase.Locking? && batch.phase.held < |batch.services|
  {
    batch.services[batch.phase.held]
  }

  ghost function LockedAbove(s: State, t: Text): set<Text> {
    set u | u in s.serviceLocks && TextLt(t, u)
  }

  /** Locks are taken in sorted order, so whoever holds the wanted service wants a larger one, or none. */
  lemma OwnerWantsMore(cfg: Config, s: State, b: nat)
    requires Inv(cfg, s)
    requires Running(s, b) && s.batches[b].phase.Locking? && Blocked(s, b)
    ensures var t := Wanted(s.batches[b]); var c := s.serviceLocks[t];
      && Running(s, c)
      && (s.batches[c].phase.Locking? ==>
            s.batches[c].phase.held < |s.batches[c].services| && TextLt(t, Wanted(s.batches[c])))
  {
    hide StoreOk, ChunkBatch, GoodBuckets, ServicesIn;
    var t := Wanted(s.batches[b]);
    var c := s.serviceLocks[t];
    assert HoldsService(s.batches[c], t);
    assert BatchOk(cfg, Durable(cfg, s), s.chunks, s.indexes, s.batches[c]);
  }

  /** Following lock owners from any running call reaches one that waits for no lock. */
  lemma {:induction false} SomebodyRuns(cfg: Config, s: State, b: nat) returns (c: nat)
    requires Inv(cfg, s)
    requires Running(s, b)
    requires s.manifestLock.None?
    ensures Running(s, c) && !Blocked(s, c)
    decreases if s.batches[b].phase.Locking? && Blocked(s, b) then |LockedAbove(s, Wanted(s.batches[b]))| + 1 else 0
  {
    if s.batches[b].phase.Locking? && Blocked(s, b) {
      OwnerWantsMore(cfg, s, b);
      var t := Wanted(s.batches[b]);
      var owner := s.serviceLocks[t];
      if s.batches[owner].phase.Locking? && Blocked(s, owner) {
        LockedAboveShrinks(s, t, Wanted(s.batches[owner]));
      }
      c := SomebodyRuns(cfg, s, owner);
    } else {
      c := b;
    }
  }

  lemma LockedAboveShrinks(s: State, t: Text, u: Text)
    requires TextLt(t, u) && u in s.serviceLocks
    ensures |LockedAbove(s, u)| < |LockedAbove(s, t)|
  {
    hide TextLt;
    TextLtStrictTotal();
    assert u in LockedAbove(s, t) && u !in LockedAbove(s, u);
    ProperSubsetIsSmaller(LockedAbove(s, u), LockedAbove(s, t));
  }

  lemma {:induction false} ProperSubsetIsSmaller(a: set<Text>, b: set<Text>)
    requires a < b
    ensures |a| < |b|
  {
    if a != {} {
      var x :| x in a;
      ProperSubsetIsSmaller(a - {x}, b - {x});
    }
  }

  lemma HolderRuns(cfg: Config, s: State)
    requires Inv(cfg, s) && s.manifestLock.Some?
    ensures Running(s, s.manifestLock.value) && !Blocked(s, s.manifestLock.value)
  {
    hide StoreOk, BatchesOk, HoldsService;
  }

  /** While any call is running, some call can take a step other than being abandoned. Nothing fails in it
      that has not failed before, unless the call meets a name the backend rejects. */
  lemma NeverStuck(cfg: Config, s: State, b: nat) returns (step: Step)
    requires cfg.libs.Lawful() && Reachable(cfg, s)
    requires Running(s, b)
    ensures Enabled(cfg, s, step) && CallOf(step).Some? && !step.Abandon?
    ensures CallOf(step).value < |s.batches|
    ensures Smooth(cfg, s, step) ||
      (OnTrack(s.batches[CallOf(step).value]) && !AdmittedCall(cfg, s.batches[CallOf(step).value]))
  {
    hide Reachable, Libs.Lawful, Inv, Enabled, Running, Blocked, Smooth, AdmittedCall, OnTrack;
    ReachableInv(cfg, s);
    var c := b;
    if s.manifestLock.Some? {
      HolderRuns(cfg, s);
      c := s.manifestLock.value;
    } else {
      c := SomebodyRuns(cfg, s, b);
    }
    step := RunnableStep(cfg, s, c);
    assert c < |s.batches| by { RunningIsCall(s, c); }
  }

  lemma RunningIsCall(s: State, b: nat)
    requires Running(s, b)
    ensures b < |s.batches|
  {
  }

  // ---- Termination ----

  /** Steps a call can still take. */
  function Work(batch: Batch): nat {
    var n, k := |batch.services|, |batch.buckets|;
    match batch.phase
    case Locking(held) => 2 * k + n + 9 + if held < n then n - held else 0
    case SeedReading => 2 * k + n + 9
    case WaitingToRegister => 2 * k + n + 8
    case RegisterReading => 2 * k + n + 7
    case Registering(next, _) => 2 * k + 6 + if next < n then n - next else 0
    case RegisterWriting(_) => 2 * k + 6
    case Building(_) => 2 * k + 5
    case Uploading(_, built, started, inFlight, _) =>
      4 + |inFlight| + if started < |built.chunks| then 2 * (|built.chunks| - started) else 0
    case WaitingToCommit(_, _) => 3
    case CommitReading(_, _) => 2
    case CommitWriting(_, _, _) => 1
    case _ => 0
  }

  function TotalWork(batches: seq<Batch>): nat {
    if batches == [] then 0 else TotalWork(batches[..|batches| - 1]) + Work(batches[|batches| - 1])
  }

  /** Taking locks and registering services. */
  predicate IsEarly(step: Step) {
    step.TakeServiceLock? || step.ReadSeed? || step.LockToRegister? || step.ReadToRegister? ||
    step.RegisterService? || step.WriteRegistration?
  }

  lemma EarlyStepLowersWork(cfg: Config, s: State, step: Step, b: nat)
    requires Inv(cfg, s) && Enabled(cfg, s, step) && CallOf(step) == Some(b) && IsEarly(step)
    ensures b < |s.batches| && b < |Apply(cfg, s, step).batches|
    ensures Work(Apply(cfg, s, step).batches[b]) < Work(s.batches[b])
  {
    hide Inv, SetPhase, Finish, RegisterOne, Listed, Durable;
    CallIsRunning(cfg, s, step, b);
    MovesTo(s, b);
    StepBounds(cfg, s, b);
  }

  lemma BuildLowersWork(cfg: Config, s: State, step: Step, b: nat)
    requires cfg.libs.Lawful()
    requires Enabled(cfg, s, step) && CallOf(step) == Some(b) && step.Build?
    ensures b < |s.batches| && b < |Apply(cfg, s, step).batches|
    ensures Work(Apply(cfg, s, step).batches[b]) < Work(s.batches[b])
  {
    hide SetPhase, BuildAll, BuiltOk, Libs.Lawful;
    MovesTo(s, b);
    BuildAllOk(cfg.libs, s.batches[b].phase.seed, s.batches[b].buckets, step.salts);
    var built := BuildAll(cfg.libs, s.batches[b].phase.seed, s.batches[b].buckets, step.salts);
    BuiltLengths(cfg, s.batches[b].phase.seed, s.batches[b].buckets, built);
  }

  predicate IsUpload(step: Step) {
    step.StartUpload? || step.FinishUpload? || step.CollectUploads?
  }

  lemma StartLowersWork(s: State, b: nat)
    requires b < |s.batches| && s.batches[b].phase.Uploading?
    requires s.batches[b].phase.started < |s.batches[b].phase.built.chunks|
    ensures b < |StartUploadStep(s, b).batches|
    ensures Work(StartUploadStep(s, b).batches[b]) < Work(s.batches[b])
  {
  }

  lemma FinishLowersWork(s: State, b: nat, i: nat, put: PutOutcome)
    requires b < |s.batches| && s.batches[b].phase.Uploading? && i in s.batches[b].phase.inFlight
    requires i < |s.batches[b].phase.built.chunks| && i < |s.batches[b].phase.built.indexes|
    ensures b < |FinishUploadStep(s, b, i, put).batches|
    ensures Work(FinishUploadStep(s, b, i, put).batches[b]) < Work(s.batches[b])
  {
  }

  lemma CollectLowersWork(s: State, b: nat)
    requires b < |s.batches| && s.batches[b].phase.Uploading?
    ensures b < |CollectUploadsStep(s, b).batches|
    ensures Work(CollectUploadsStep(s, b).batches[b]) < Work(s.batches[b])
  {
  }

  lemma UploadLowersWork(cfg: Config, s: State, step: Step, b: nat)
    requires Enabled(cfg, s, step) && CallOf(step) == Some(b) && IsUpload(step)
    ensures b < |s.batches| && b < |Apply(cfg, s, step).batches|
    ensures Work(Apply(cfg, s, step).batches[b]) < Work(s.batches[b])
  {
    hide StartUploadStep, FinishUploadStep, CollectUploadsStep, Work;
    match step {
      case StartUpload(_) => StartLowersWork(s, b);
      case FinishUpload(_, i, put) => FinishLowersWork(s, b, i, put);
      case CollectUploads(_) => CollectLowersWork(s, b);
    }
  }

  lemma CommitLowersWork(cfg: Config, s: State, step: Step, b: nat)
    requires Enabled(cfg, s, step) && CallOf(step) == Some(b)
    requires !IsEarly(step) && !step.Build? && !IsUpload(step)
    ensures b < |s.batches| && b < |Apply(cfg, s, step).batches|
    ensures Work(Apply(cfg, s, step).batches[b]) < Work(s.batches[b])
  {
    hide SetPhase, Finish, Overlay, Durable;
    CallIsRunning(cfg, s, step, b);
    MovesTo(s, b);
  }

  lemma StepBounds(cfg: Config, s: State, b: nat)
    requires Inv(cfg, s) && b < |s.batches|
    ensures s.batches[b].phase.Locking? ==> s.batches[b].phase.held < |s.batches[b].services|
    ensures s.batches[b].phase.Registering? ==> s.batches[b].phase.next < |s.batches[b].services|
  {
    hide LocksOk, StoreOk, ShapeOk, SeededOk, AllStored, DraftOk;
    assert BatchOk(cfg, Durable(cfg, s), s.chunks, s.indexes, s.batches[b]);
  }

  lemma {:induction false} TotalWorkFalls(b: nat, before: seq<Batch>, after: seq<Batch>)
    requires |after| == |before| && b < |before|
    requires forall c :: 0 <= c < |before| && c != b ==> after[c] == before[c]
    requires Work(after[b]) < Work(before[b])
    ensures TotalWork(after) < TotalWork(before)
  {
    hide Work;
    var n := |before| - 1;
    if b == n {
      assert after[..n] == before[..n];
    } else {
      TotalWorkFalls(b, before[..n], after[..n]);
    }
  }

  /** Every step but the arrival of a new batch uses up work. */
  lemma StepLowersWork(cfg: Config, s: State, step: Step)
    requires cfg.libs.Lawful()
    requires Inv(cfg, s) && Enabled(cfg, s, step) && !step.Begin?
    ensures TotalWork(Apply(cfg, s, step).batches) < TotalWork(s.batches)
  {
    hide Inv, Enabled, Apply, Work, TotalWork, Libs.Lawful;
    var b := CallOf(step).value;
    CallMoves(cfg, s, step, b);
    if IsEarly(step) {
      EarlyStepLowersWork(cfg, s, step, b);
    } else if step.Build? {
      BuildLowersWork(cfg, s, step, b);
    } else if IsUpload(step) {
      UploadLowersWork(cfg, s, step, b);
    } else {
      CommitLowersWork(cfg, s, step, b);
    }
    TotalWorkFalls(b, s.batches, Apply(cfg, s, step).batches);
  }

  /** No batch arrives from state `i` to state `j`. */
  ghost predicate Quiet(run: seq<State>, i: nat, j: nat)
    requires i <= j < |run|
  {
    |run[j].batches| == |run[i].batches|
  }

  lemma {:induction false} BatchesOnlyArrive(cfg: Config, run: seq<State>, i: nat, j: nat)
    requires IsRun(cfg, run) && i <= j < |run|
    ensures |run[i].batches| <= |run[j].batches|
    decreases j - i
  {
    hide IsRun, Enabled, Apply, SameCall;
    if i < j {
      BatchesOnlyArrive(cfg, run, i, j - 1);
      var step := StepAt(cfg, run, j);
      SameCallsAfter(cfg, run[j - 1], step);
    }
  }

  lemma QuietStep(cfg: Config, s: State, step: Step)
    requires Enabled(cfg, s, step) && |Apply(cfg, s, step).batches| == |s.batches|
    ensures !step.Begin?
  {
    hide Enabled, NewBatch;
  }

  /** Whatever fails and however calls interleave, the calls under way take at most `TotalWork` steps. */
  lemma {:induction false} RunsAreBounded(cfg: Config, run: seq<State>, i: nat, j: nat)
    requires cfg.libs.Lawful()
    requires IsRun(cfg, run) && i <= j < |run|
    requires Reachable(cfg, run[0])
    requires Quiet(run, i, j)
    ensures j - i + TotalWork(run[j].batches) <= TotalWork(run[i].batches)
    decreases j - i
  {
    hide IsRun, Reachable, Inv, Enabled, Apply, Libs.Lawful, TotalWork;
    if i < j {
      BatchesOnlyArrive(cfg, run, i, j - 1);
      BatchesOnlyArrive(cfg, run, j - 1, j);
      RunsAreBounded(cfg, run, i, j - 1);
      ReachableInv(cfg, run[0]);
      InvAlongRun(cfg, run, j - 1);
      var step := StepAt(cfg, run, j);
      QuietStep(cfg, run[j - 1], step);
      StepLowersWork(cfg, run[j - 1], step);
    }
  }
}
