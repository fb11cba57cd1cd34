/** Exactly when all calls under way can be acknowledged, prefix listings included: when their registrations
    and their ends can be put in an order that respects the locks and what the listing must not find. */
module Scheduling {
  import opened Core
  import opened Ordering
  import opened Chunking
  import opened Sealing
  import opened Archive
  import opened Protocol
  import opened Safety
  import opened Runs
  import opened Serial
  import opened Progress
  import opened Guard
  import opened Completion

  // ---- Schedules ----

  /** For each call the moment it starts to register, and the moment it returns. */
  datatype Schedule = Schedule(registers: seq<nat>, finishes: seq<nat>)

  /** The call has not begun to register yet. */
  predicate Waiting(p: Phase) {
    p.Locking? || p.SeedReading? || p.WaitingToRegister?
  }

  /** The upload of built chunk `i` is still to end. */
  predicate Pending(p: Phase, i: nat) {
    p.Uploading? && i < |p.built.chunks| && (i >= p.started || i in p.inFlight)
  }

  /** The call may yet store chunks of `u`: one on track stores all it has, one that has failed ends its uploads. */
  ghost predicate MayStore(batch: Batch, u: Text) {
    && !Finished(batch.phase) && u in batch.services
    && (OnTrack(batch) || exists i: nat :: Pending(batch.phase, i) && batch.phase.built.chunks[i].header.service == u)
  }

  /** The listing is still to be asked about `t`. */
  ghost predicate Asked(cfg: Config, s: State, t: Text) {
    exists b :: StillLists(cfg, s, b, t)
  }

  predicate Share(s: State, b: nat, c: nat, t: Text) {
    b != c && Running(s, b) && Running(s, c) && t in s.batches[b].services && t in s.batches[c].services
  }

  /** Of two calls that share service `t`, one returns before the other registers: the one that holds it now. */
  predicate InTurn(s: State, z: Schedule, b: nat, c: nat, t: Text)
    requires b < |s.batches| && c < |s.batches| && |z.registers| == |z.finishes| == |s.batches|
  {
    && (z.finishes[b] < z.registers[c] || z.finishes[c] < z.registers[b])
    && (HoldsService(s.batches[b], t) ==> z.finishes[b] < z.registers[c])
  }

  /** Some call registers `t` before call `c` returns. */
  ghost predicate AsksFirst(s: State, z: Schedule, c: nat, t: Text)
    requires c < |s.batches| && |z.registers| == |z.finishes| == |s.batches|
  {
    exists b :: 0 <= b < |s.batches| && OnTrack(s.batches[b]) && t in s.batches[b].services &&
      z.registers[b] < z.finishes[c]
  }

  ghost predicate Fits(s: State, z: Schedule) {
    && |z.registers| == |z.finishes| == |s.batches|
    && (forall b: nat :: Running(s, b) ==> z.registers[b] < z.finishes[b])
    && (forall b, c, t :: Share(s, b, c, t) ==> InTurn(s, z, b, c, t))
  }

  /** No call stores a service nested in one the listing is still to be asked about, before that is asked. */
  ghost predicate AsksInTime(cfg: Config, s: State, z: Schedule)
    requires |z.registers| == |z.finishes| == |s.batches|
  {
    cfg.listing.ByPrefix? ==>
      forall c, t, u :: Asked(cfg, s, t) && 0 <= c < |s.batches| && MayStore(s.batches[c], u) && Nested(t, u) ==>
        AsksFirst(s, z, c, t)
  }

  ghost predicate Feasible(cfg: Config, s: State, z: Schedule) {
    Fits(s, z) && AsksInTime(cfg, s, z)
  }

  // ---- Following a schedule ----

  /** The next moment of call `b`. */
  function When(s: State, z: Schedule, b: nat): nat
    requires b < |s.batches| && |z.registers| == |z.finishes| == |s.batches|
  {
    if Waiting(s.batches[b].phase) then z.registers[b] else z.finishes[b]
  }

  ghost predicate Earliest(s: State, z: Schedule, b: nat)
    requires |z.registers| == |z.finishes| == |s.batches|
  {
    Running(s, b) && forall d: nat :: Running(s, d) ==> When(s, z, b) <= When(s, z, d)
  }

  /** Whose step it is: the holder of the manifest lock, or, if it is free, the call with the next moment. */
  ghost predicate Turn(s: State, z: Schedule, b: nat)
    requires |z.registers| == |z.finishes| == |s.batches|
  {
    if s.manifestLock.Some? then s.manifestLock == Some(b) else Earliest(s, z, b)
  }

  lemma {:induction false} EarliestExists(s: State, z: Schedule, n: nat) returns (b: nat)
    requires |z.registers| == |z.finishes| == |s.batches| && n <= |s.batches|
    requires exists d: nat :: d < n && Running(s, d)
    ensures b < n && Running(s, b) && forall d: nat :: d < n && Running(s, d) ==> When(s, z, b) <= When(s, z, d)
  {
    hide When;
    if exists d: nat :: d < n - 1 && Running(s, d) {
      b := EarliestExists(s, z, n - 1);
      if Running(s, n - 1) && When(s, z, n - 1) < When(s, z, b) { b := n - 1; }
    } else {
      b := n - 1;
    }
  }

  lemma HolderGoesFirst(s: State, z: Schedule, b: nat, c: nat, t: Text)
    requires Fits(s, z) && Share(s, b, c, t) && HoldsService(s.batches[b], t)
    ensures When(s, z, b) < z.registers[c] && z.finishes[b] < z.registers[c]
  {
    hide HoldsService;
    assert InTurn(s, z, b, c, t);
  }

  lemma EarliestIsFree(cfg: Config, s: State, z: Schedule, b: nat)
    requires Inv(cfg, s) && Fits(s, z) && s.manifestLock.None? && Earliest(s, z, b)
    ensures !Blocked(s, b)
  {
    hide Inv, HoldsService, Fits;
    if s.batches[b].phase.Locking? && Blocked(s, b) {
      OwnerHolds(cfg, s, b);
      HolderGoesFirst(s, z, s.serviceLocks[Wanted(s.batches[b])], b, Wanted(s.batches[b]));
      assert false;
    }
  }

  lemma OwnerHolds(cfg: Config, s: State, b: nat)
    requires Inv(cfg, s)
    requires b < |s.batches| && s.batches[b].phase.Locking? && Blocked(s, b)
    ensures var t := Wanted(s.batches[b]); var c := s.serviceLocks[t];
      && c != b && c < |s.batches| && Running(s, c) && HoldsService(s.batches[c], t) && t in s.batches[c].services
  {
    hide StoreOk, ChunkBatch, GoodBuckets, PhaseOk;
    assert BatchOk(cfg, Durable(cfg, s), s.chunks, s.indexes, s.batches[b]);
    TextLtStrictTotal();
  }

  /** The next step of a schedule. */
  lemma NextStep(cfg: Config, s: State, z: Schedule) returns (step: Step, b: nat)
    requires cfg.libs.Lawful() && Reachable(cfg, s)
    requires Fits(s, z) && AllAdmitted(cfg, s) && !AllFinished(s)
    ensures Enabled(cfg, s, step) && Smooth(cfg, s, step) && CallOf(step) == Some(b) && b < |s.batches| && Turn(s, z, b)
  {
    hide Libs.Lawful, Reachable, Inv, Enabled, Smooth, AdmittedCall, OnTrack, Fits, Blocked, Earliest;
    assert |z.registers| == |z.finishes| == |s.batches| by { ScheduleSize(s, z); }
    ReachableInv(cfg, s);
    if s.manifestLock.Some? {
      HolderRuns(cfg, s);
      b := s.manifestLock.value;
    } else {
      var d: nat :| d < |s.batches| && !Finished(s.batches[d].phase);
      assert Running(s, d);
      b := EarliestExists(s, z, |s.batches|);
      assert Earliest(s, z, b) by { IsEarliest(s, z, b); }
      EarliestIsFree(cfg, s, z, b);
    }
    step := RunnableStep(cfg, s, b);
  }

  lemma ScheduleSize(s: State, z: Schedule)
    requires Fits(s, z)
    ensures |z.registers| == |z.finishes| == |s.batches|
  {
  }

  lemma IsEarliest(s: State, z: Schedule, b: nat)
    requires |z.registers| == |z.finishes| == |s.batches| && Running(s, b)
    requires forall d: nat :: d < |s.batches| && Running(s, d) ==> When(s, z, b) <= When(s, z, d)
    ensures Earliest(s, z, b)
  {
  }

  // ---- A step in its turn keeps the schedule feasible ----

  /** The steps that take a lock, upload, or wait for the manifest lock are made with that lock free. */
  lemma TurnIsEarliest(cfg: Config, s: State, z: Schedule, b: nat)
    requires Inv(cfg, s) && |z.registers| == |z.finishes| == |s.batches| && Turn(s, z, b)
    requires b < |s.batches| && !HoldsManifest(s.batches[b].phase)
    ensures s.manifestLock.None? && Earliest(s, z, b)
  {
    hide StoreOk, BatchesOk, HoldsService, Earliest;
  }

  lemma PastWaiting(cfg: Config, s: State, b: nat, t: Text)
    requires Inv(cfg, s) && s.manifestLock.None?
    requires Running(s, b) && !Waiting(s.batches[b].phase) && t in s.batches[b].services
    ensures t in Durable(cfg, s).services
  {
    hide StoreOk, ShapeOk, BuiltOk, AllStored, UploadsOk, Durable;
    var batch := s.batches[b];
    assert !HoldsManifest(batch.phase);
    assert BatchOk(cfg, Durable(cfg, s), s.chunks, s.indexes, batch);
    ShapeServices(cfg, batch);
  }

  /** When call `b` uploads in its turn, what must be asked first has been. */
  lemma AskedInTime(cfg: Config, s: State, z: Schedule, b: nat, t: Text)
    requires Inv(cfg, s) && Feasible(cfg, s, z) && Turn(s, z, b)
    requires b < |s.batches| && s.batches[b].phase.Uploading? && AsksFirst(s, z, b, t)
    ensures t in Durable(cfg, s).services
  {
    hide Inv, AsksInTime, Durable;
    TurnIsEarliest(cfg, s, z, b);
    var d :| 0 <= d < |s.batches| && OnTrack(s.batches[d]) && t in s.batches[d].services &&
      z.registers[d] < z.finishes[b];
    assert When(s, z, b) <= When(s, z, d);
    PastWaiting(cfg, s, d, t);
  }

  lemma UploadsPending(cfg: Config, s: State, step: Step, r: ChunkRef)
    requires Inv(cfg, s) && Enabled(cfg, s, step)
    requires r in Apply(cfg, s, step).indexes && r !in s.indexes
    ensures step.FinishUpload? && step.b < |s.batches| && s.batches[step.b].phase.Uploading?
    ensures MayStore(s.batches[step.b], r.service)
  {
    StoresOwn(cfg, s, step, r);
    hide Inv, CanPut;
    assert Pending(s.batches[step.b].phase, step.i);
  }

  lemma TurnStoresNothing(cfg: Config, s: State, z: Schedule, step: Step, b: nat)
    requires Inv(cfg, s) && IdsSuffice(cfg, s) && NoneStored(cfg, s) && Feasible(cfg, s, z)
    requires Enabled(cfg, s, step) && Smooth(cfg, s, step) && CallOf(step) == Some(b) && Turn(s, z, b)
    ensures NoneStored(cfg, Apply(cfg, s, step))
  {
    hide Inv, Enabled, Apply, Smooth, IdsSuffice, StillLists, Turn, Fits, MayStore, AsksFirst, Nested, Durable;
    assert |z.registers| == |z.finishes| == |s.batches| by { ScheduleSize(s, z); }
    var s' := Apply(cfg, s, step);
    forall d, t | StillLists(cfg, s', d, t) ensures !NestedStored(cfg, s'.indexes, t) {
      CallsAreNat(cfg, s');
      StillToList(cfg, s, step, d, t);
      if NestedStored(cfg, s'.indexes, t) {
        var r :| r in s'.indexes && Nested(t, r.service);
        assert !NestedStored(cfg, s.indexes, t);
        UploadsPending(cfg, s, step, r);
        assert Asked(cfg, s, t) && AsksFirst(s, z, b, t);
        AskedInTime(cfg, s, z, b, t);
        ListsUnregistered(cfg, s, d, t);
        assert false;
      }
    }
  }

  lemma ListsUnregistered(cfg: Config, s: State, b: int, t: Text)
    requires StillLists(cfg, s, b, t)
    ensures t !in Durable(cfg, s).services
  {
  }

  /** A step takes no lock but the one its call waits for, and ends no other call. */
  lemma HoldsAfter(cfg: Config, s: State, step: Step, b: nat, t: Text)
    requires Enabled(cfg, s, step) && CallOf(step) == Some(b)
    requires b < |s.batches| && b < |Apply(cfg, s, step).batches|
    ensures HoldsService(Apply(cfg, s, step).batches[b], t) ==>
      HoldsService(s.batches[b], t) || (s.batches[b].phase.Locking? && t in s.batches[b].services)
  {
    hide NewBatch, RegisterOne, Overlay, BuildAll, Listed, Durable, AllBuildable, SetPhase, Finish, CanPut, CanList;
    CallIsRunning(cfg, s, step, b);
    MovesTo(s, b);
  }

  lemma TurnKeepsFits(cfg: Config, s: State, z: Schedule, step: Step, b: nat)
    requires Inv(cfg, s) && Fits(s, z)
    requires Enabled(cfg, s, step) && CallOf(step) == Some(b) && |z.registers| == |z.finishes| == |s.batches|
    requires Turn(s, z, b)
    ensures Fits(Apply(cfg, s, step), z)
  {
    hide Inv, Enabled, Apply, HoldsService, Turn, SameCall;
    var s' := Apply(cfg, s, step);
    CallMoves(cfg, s, step, b);
    SameServices(s.batches[b], s'.batches[b]);
    forall c, d, t | Share(s', c, d, t) ensures InTurn(s', z, c, d, t) {
      assert Share(s, c, d, t) && InTurn(s, z, c, d, t);
      if c == b && HoldsService(s'.batches[b], t) && !HoldsService(s.batches[b], t) {
        HoldsAfter(cfg, s, step, b, t);
        TurnIsEarliest(cfg, s, z, b);
        assert When(s, z, b) <= When(s, z, d);
      }
    }
  }

  /** Off track only uploads are left. */
  lemma OffTrackUploads(cfg: Config, s: State, step: Step, b: nat)
    requires Enabled(cfg, s, step) && Smooth(cfg, s, step) && CallOf(step) == Some(b)
    requires b < |s.batches| && !OnTrack(s.batches[b])
    ensures IsUpload(step) && s.batches[b].phase.Uploading? && s.batches[b].phase.failed
  {
    hide AllBuildable, CanPut, CanList, AdmitsRef;
  }

  /** An upload stays pending until it ends. */
  lemma PendingUntilEnd(cfg: Config, s: State, step: Step, b: nat, i: nat)
    requires Enabled(cfg, s, step) && IsUpload(step) && CallOf(step) == Some(b)
    requires b < |s.batches| && b < |Apply(cfg, s, step).batches|
    ensures var p, p' := s.batches[b].phase, Apply(cfg, s, step).batches[b].phase;
      && p.Uploading?
      && (p'.Uploading? ==> p'.built == p.built && (p.failed ==> p'.failed))
      && (Pending(p', i) ==> Pending(p, i))
      && (Pending(p, i) && !Pending(p', i) ==> step.FinishUpload? && step.i == i)
  {
    hide SetPhase, Finish, CanPut;
    MovesTo(s, b);
  }

  lemma MayStoreShrinks(cfg: Config, s: State, step: Step, b: nat, u: Text)
    requires Enabled(cfg, s, step) && Smooth(cfg, s, step) && CallOf(step) == Some(b)
    requires b < |s.batches| && b < |Apply(cfg, s, step).batches| && MayStore(Apply(cfg, s, step).batches[b], u)
    ensures MayStore(s.batches[b], u)
  {
    hide Enabled, Apply, Smooth, IsUpload;
    CallMoves(cfg, s, step, b);
    if !OnTrack(s.batches[b]) {
      OffTrackUploads(cfg, s, step, b);
      TrackOnlyEnds(cfg, s, step, b);
      var i: nat :| Pending(Apply(cfg, s, step).batches[b].phase, i) &&
        Apply(cfg, s, step).batches[b].phase.built.chunks[i].header.service == u;
      PendingUntilEnd(cfg, s, step, b, i);
      assert Pending(s.batches[b].phase, i);
    }
  }

  lemma TurnKeepsAsking(cfg: Config, s: State, z: Schedule, step: Step, b: nat)
    requires cfg.libs.Lawful() && Reachable(cfg, s)
    requires IdsSuffice(cfg, s) && NoneStored(cfg, s) && Fits(s, z) && AsksInTime(cfg, s, z)
    requires Enabled(cfg, s, step) && Smooth(cfg, s, step) && CallOf(step) == Some(b)
    requires |Apply(cfg, s, step).batches| == |s.batches|
    ensures AsksInTime(cfg, Apply(cfg, s, step), z)
  {
    hide Libs.Lawful, Reachable, Inv, Enabled, Apply, Smooth, IdsSuffice, NoneStored, StillLists, Fits, MayStore, Nested,
      Durable, OnTrack, SameCall;
    var s' := Apply(cfg, s, step);
    assert |z.registers| == |z.finishes| == |s.batches| by { ScheduleSize(s, z); }
    ReachableInv(cfg, s);
    ReachableStep(cfg, s, step);
    CallMoves(cfg, s, step, b);
    SmoothStepKeepsTrack(cfg, s, step);
    if cfg.listing.ByPrefix? {
      forall c, t, u | Asked(cfg, s', t) && 0 <= c < |s'.batches| && MayStore(s'.batches[c], u) && Nested(t, u)
        ensures AsksFirst(s', z, c, t)
      {
        var e :| StillLists(cfg, s', e, t);
        CallsAreNat(cfg, s');
        StillToList(cfg, s, step, e, t);
        if c == b { MayStoreShrinks(cfg, s, step, b, u); }
        assert Asked(cfg, s, t) && AsksFirst(s, z, c, t);
        var d :| 0 <= d < |s.batches| && OnTrack(s.batches[d]) && t in s.batches[d].services &&
          z.registers[d] < z.finishes[c];
        if d == b { SameServices(s.batches[b], s'.batches[b]); }
        if s'.batches[d].phase.Acked? {
          AckedIsRegistered(cfg, s', d, t);
          ListsUnregistered(cfg, s', e, t);
          assert false;
        }
      }
    }
  }

  // ---- A feasible schedule completes ----

  /** What a run that follows the schedule keeps. */
  ghost predicate OnSchedule(cfg: Config, s: State, z: Schedule) {
    IdsSuffice(cfg, s) && AllAdmitted(cfg, s) && NoneStored(cfg, s) && Feasible(cfg, s, z)
  }

  lemma TurnKeepsSchedule(cfg: Config, s: State, z: Schedule, step: Step, b: nat)
    requires cfg.libs.Lawful() && Reachable(cfg, s) && OnSchedule(cfg, s, z)
    requires Enabled(cfg, s, step) && Smooth(cfg, s, step) && CallOf(step) == Some(b) && Turn(s, z, b)
    ensures var s' := Apply(cfg, s, step);
      && Reachable(cfg, s') && OnSchedule(cfg, s', z) && KeepsTrack(s, s')
      && TotalWork(s'.batches) < TotalWork(s.batches)
  {
    hide Libs.Lawful, Reachable, Inv, Enabled, Apply, Smooth, IdsSuffice, AllAdmitted, NoneStored, Fits, AsksInTime, Turn,
      TotalWork, KeepsTrack;
    assert |z.registers| == |z.finishes| == |s.batches| by { ScheduleSize(s, z); }
    ReachableInv(cfg, s);
    ReachableStep(cfg, s, step);
    CallMoves(cfg, s, step, b);
    SmoothStepKeepsRoom(cfg, s, step);
    SmoothStepAdmits(cfg, s, step);
    TurnStoresNothing(cfg, s, z, step, b);
    TurnKeepsFits(cfg, s, z, step, b);
    TurnKeepsAsking(cfg, s, z, step, b);
    SmoothStepKeepsTrack(cfg, s, step);
    StepLowersWork(cfg, s, step);
  }

  lemma {:induction false} ScheduleCompletes(cfg: Config, run: seq<State>, z: Schedule) returns (full: seq<State>)
    requires cfg.libs.Lawful() && IsSmooth(cfg, run)
    requires var last := run[|run| - 1];
      && Reachable(cfg, last) && OnSchedule(cfg, last, z) && KeepsTrack(run[0], last)
      && |run| + TotalWork(last.batches) <= TotalWork(run[0].batches) + 1
    ensures run <= full && Completes(cfg, run[0], full)
    decreases TotalWork(run[|run| - 1].batches)
  {
    hide Reachable, Libs.Lawful, TotalWork, Enabled, Apply, Smooth, IsSmooth, KeepsTrack, OnSchedule, Turn;
    assert run != [] by { SmoothIsNonEmpty(cfg, run); }
    var last := run[|run| - 1];
    if AllFinished(last) {
      full := run;
      FinishedIsAcked(run[0], last);
    } else {
      ScheduleMeans(cfg, last, z);
      var step, b := NextStep(cfg, last, z);
      SmoothExtends(cfg, run, step);
      TurnKeepsSchedule(cfg, last, z, step, b);
      KeepsTrackTransitive(run[0], last, Apply(cfg, last, step));
      full := ScheduleCompletes(cfg, run + [Apply(cfg, last, step)], z);
    }
  }

  lemma ScheduleMeans(cfg: Config, s: State, z: Schedule)
    requires OnSchedule(cfg, s, z)
    ensures Fits(s, z) && AllAdmitted(cfg, s) && |z.registers| == |z.finishes| == |s.batches|
  {
  }

  lemma ScheduledCallsComplete(cfg: Config, s: State, z: Schedule) returns (run: seq<State>)
    requires cfg.libs.Lawful() && Reachable(cfg, s) && OnSchedule(cfg, s, z)
    ensures Completes(cfg, s, run)
  {
    hide Reachable, Libs.Lawful, OnSchedule, Completes;
    assert IsSmooth(cfg, [s]) && [s][|[s]| - 1] == s;
    run := ScheduleCompletes(cfg, [s], z);
  }

  // ---- Every completing run follows a schedule ----

  predicate Passed(p: Phase, finished: bool) {
    if finished then Finished(p) else !Waiting(p)
  }

  /** The first state of the run in which call `b` has returned, or has at least begun to register. */
  ghost function FirstPassed(run: seq<State>, b: nat, finished: bool): (i: nat)
    ensures i <= |run|
  {
    if run == [] || (b < |run[0].batches| && Passed(run[0].batches[b].phase, finished)) then 0
    else 1 + FirstPassed(run[1..], b, finished)
  }

  lemma {:induction false} FirstPassedIs(run: seq<State>, b: nat, finished: bool)
    ensures var i := FirstPassed(run, b, finished);
      && (forall k :: 0 <= k < i && b < |run[k].batches| ==> !Passed(run[k].batches[b].phase, finished))
      && (i < |run| ==> b < |run[i].batches| && Passed(run[i].batches[b].phase, finished))
  {
    hide Passed;
    if run != [] && !(b < |run[0].batches| && Passed(run[0].batches[b].phase, finished)) {
      FirstPassedIs(run[1..], b, finished);
      var i := FirstPassed(run[1..], b, finished);
      forall k | 0 <= k < i + 1 && b < |run[k].batches| ensures !Passed(run[k].batches[b].phase, finished) {
        if k > 0 { assert run[k] == run[1..][k - 1]; }
      }
    }
  }

  lemma CallStays(cfg: Config, s: State, step: Step, b: nat, t: Text)
    requires Enabled(cfg, s, step) && CallOf(step) == Some(b)
    requires b < |s.batches| && b < |Apply(cfg, s, step).batches|
    ensures var p, p' := s.batches[b].phase, Apply(cfg, s, step).batches[b].phase;
      && (!Waiting(p) ==> !Waiting(p'))
      && (HoldsService(s.batches[b], t) && !Finished(p') ==> HoldsService(Apply(cfg, s, step).batches[b], t))
  {
    hide NewBatch, RegisterOne, Overlay, BuildAll, Listed, Durable, AllBuildable, SetPhase, Finish, CanPut, CanList;
    CallIsRunning(cfg, s, step, b);
    MovesTo(s, b);
  }

  lemma ReturnsFromPast(cfg: Config, s: State, step: Step, b: nat)
    requires Enabled(cfg, s, step) && Smooth(cfg, s, step) && CallOf(step) == Some(b)
    requires b < |s.batches| && b < |Apply(cfg, s, step).batches|
    requires !Finished(s.batches[b].phase) && Finished(Apply(cfg, s, step).batches[b].phase)
    ensures !Waiting(s.batches[b].phase)
  {
    hide NewBatch, RegisterOne, Overlay, BuildAll, Listed, Durable, AllBuildable, SetPhase, Finish, CanPut, CanList;
    MovesTo(s, b);
  }

  /** Once past a point, or holding a lock, a call stays so until it returns. */
  lemma {:induction false} CallStaysAlong(cfg: Config, run: seq<State>, i: nat, j: nat, b: nat, t: Text)
    requires IsSmooth(cfg, run) && i <= j < |run|
    requires b < |run[i].batches|
    ensures |run[j].batches| == |run[i].batches| && SameCall(run[i].batches[b], run[j].batches[b])
    ensures Finished(run[i].batches[b].phase) ==> run[j].batches[b] == run[i].batches[b]
    ensures !Waiting(run[i].batches[b].phase) ==> !Waiting(run[j].batches[b].phase)
    ensures HoldsService(run[i].batches[b], t) && !Finished(run[j].batches[b].phase) ==>
      HoldsService(run[j].batches[b], t)
    decreases j - i
  {
    hide IsSmooth, Enabled, Apply, Smooth, Finished, Waiting, HoldsService;
    if i < j {
      CallStaysAlong(cfg, run, i, j - 1, b, t);
      var step := SmoothStepAt(cfg, run, j);
      NoArrival(cfg, run[j - 1], step);
      StepFrame(cfg, run[j - 1], step);
      FinishedStays(cfg, run[j - 1], step, b);
      if CallOf(step) == Some(b) { CallStays(cfg, run[j - 1], step, b, t); }
    }
  }

  /** The schedule a run follows: registrations and returns in the order of its states. */
  ghost function ScheduleOf(run: seq<State>): (z: Schedule)
    requires run != []
    ensures |z.registers| == |z.finishes| == |run[0].batches|
  {
    var n := |run[0].batches|;
    Schedule(seq(n, b requires 0 <= b < n => 2 * FirstPassed(run, b, false) + 1),
      seq(n, b requires 0 <= b < n => 2 * FirstPassed(run, b, true)))
  }

  lemma ReturnsInRun(cfg: Config, run: seq<State>, b: nat) returns (step: Step)
    requires IsSmooth(cfg, run) && AllFinished(run[|run| - 1]) && Running(run[0], b)
    ensures var i := FirstPassed(run, b, true);
      && 0 < i < |run| && FirstPassed(run, b, false) < i
      && Enabled(cfg, run[i - 1], step) && Smooth(cfg, run[i - 1], step) && run[i] == Apply(cfg, run[i - 1], step)
      && CallOf(step) == Some(b)
      && b < |run[i - 1].batches| && !Finished(run[i - 1].batches[b].phase)
      && b < |run[i].batches| && Finished(run[i].batches[b].phase)
  {
    hide Enabled, Apply, Smooth, IsSmooth, Finished, Waiting;
    assert run != [] by { SmoothIsNonEmpty(cfg, run); }
    FirstPassedIs(run, b, true);
    FirstPassedIs(run, b, false);
    var i := FirstPassed(run, b, true);
    CallStaysAlong(cfg, run, 0, |run| - 1, b, []);
    assert Passed(run[|run| - 1].batches[b].phase, true);
    assert i <= |run| - 1;
    CallStaysAlong(cfg, run, 0, i - 1, b, []);
    step := SmoothStepAt(cfg, run, i);
    assert !Passed(run[i - 1].batches[b].phase, true);
    FinishedStays(cfg, run[i - 1], step, b);
    ReturnsFromPast(cfg, run[i - 1], step, b);
    assert Passed(run[i - 1].batches[b].phase, false);
  }

  /** From its first registration step until it returns, a call holds all its services. */
  lemma HoldsBetween(cfg: Config, run: seq<State>, b: nat, k: nat, t: Text)
    requires IsSmooth(cfg, run) && Running(run[0], b) && k < |run|
    requires FirstPassed(run, b, false) <= k < FirstPassed(run, b, true)
    requires t in run[0].batches[b].services
    ensures b < |run[k].batches| && HoldsService(run[k].batches[b], t)
  {
    hide IsSmooth;
    FirstPassedIs(run, b, true);
    FirstPassedIs(run, b, false);
    var j := FirstPassed(run, b, false);
    CallStaysAlong(cfg, run, 0, k, b, t);
    CallStaysAlong(cfg, run, j, k, b, t);
  }

  lemma SharesInTurn(cfg: Config, run: seq<State>, b: nat, c: nat, t: Text)
    requires cfg.libs.Lawful()
    requires IsSmooth(cfg, run) && Reachable(cfg, run[0]) && AllFinished(run[|run| - 1])
    requires Share(run[0], b, c, t)
    ensures InTurn(run[0], ScheduleOf(run), b, c, t)
  {
    hide Libs.Lawful, Reachable, IsSmooth, HoldsService, Enabled, Apply, Smooth;
    assert run != [] by { SmoothIsNonEmpty(cfg, run); }
    var _ := ReturnsInRun(cfg, run, b);
    var _ := ReturnsInRun(cfg, run, c);
    var ib, jb := FirstPassed(run, b, true), FirstPassed(run, b, false);
    var ic, jc := FirstPassed(run, c, true), FirstPassed(run, c, false);
    if ib > jc && ic > jb {
      var k := if jb < jc then jc else jb;
      HoldsBetween(cfg, run, b, k, t);
      HoldsBetween(cfg, run, c, k, t);
      HeldByOne(cfg, run, k, b, c, t);
      assert false;
    }
    if HoldsService(run[0].batches[b], t) && ib > jc {
      FirstPassedIs(run, b, true);
      CallStaysAlong(cfg, run, 0, jc, b, t);
      HoldsBetween(cfg, run, c, jc, t);
      HeldByOne(cfg, run, jc, b, c, t);
      assert false;
    }
  }

  lemma HeldByOne(cfg: Config, run: seq<State>, k: nat, b: nat, c: nat, t: Text)
    requires cfg.libs.Lawful()
    requires IsSmooth(cfg, run) && Reachable(cfg, run[0]) && k < |run| && b != c
    requires b < |run[k].batches| && c < |run[k].batches|
    ensures !(HoldsService(run[k].batches[b], t) && HoldsService(run[k].batches[c], t))
  {
    hide Libs.Lawful, Reachable, IsSmooth, HoldsService, StoreOk, BatchesOk;
    SmoothRunRegisters(cfg, run, k);
    ReachableInv(cfg, run[k]);
    LocksAreExclusive(run[k], b, c, t);
  }

  // ---- What a returning call has stored ----

  ghost predicate StoredFor(s: State, u: Text) {
    exists r :: r in s.indexes && r.service == u
  }

  lemma CommitterStored(cfg: Config, s: State, b: nat, u: Text)
    requires Inv(cfg, s) && b < |s.batches| && s.batches[b].phase.CommitWriting? && u in s.batches[b].services
    ensures StoredFor(s, u)
  {
    hide LocksOk, StoreOk, ChunkBatch, GoodBuckets, Enumerates, ContinuesChain, SequencesRise, OpenChunk, Durable;
    var batch := s.batches[b];
    assert BatchOk(cfg, Durable(cfg, s), s.chunks, s.indexes, batch);
    ShapeServices(cfg, batch);
    var bucket :| bucket in batch.buckets && bucket.service == u;
    var i :| 0 <= i < |batch.buckets| && batch.buckets[i] == bucket;
    assert ArchivesAt(cfg.libs, batch.phase.seed, batch.buckets, batch.phase.built, i);
    assert IsStored(batch.phase.built, s.chunks, s.indexes, i);
  }

  lemma EndStores(cfg: Config, s: State, step: Step, b: nat)
    requires Enabled(cfg, s, step) && Smooth(cfg, s, step) && step.FinishUpload? && step.b == b
    requires cfg.listing.ByPrefix?
    ensures b < |s.batches| && s.batches[b].phase.Uploading? && step.i < |s.batches[b].phase.built.chunks|
    ensures s.batches[b].phase.built.chunks[step.i].Ref() in Apply(cfg, s, step).indexes
  {
    hide SetPhase;
  }

  /** Off track a call only uploads, and each upload ends stored. */
  lemma {:induction false} OffTrackAlong(cfg: Config, run: seq<State>, k: nat, b: nat, i: nat)
    requires IsSmooth(cfg, run) && k < |run| && cfg.listing.ByPrefix?
    requires Running(run[0], b) && !OnTrack(run[0].batches[b]) && Pending(run[0].batches[b].phase, i)
    requires b < |run[k].batches| && !Finished(run[k].batches[b].phase)
    ensures var p := run[k].batches[b].phase;
      && p.Uploading? && p.failed && p.built == run[0].batches[b].phase.built
      && (Pending(p, i) || p.built.chunks[i].Ref() in run[k].indexes)
  {
    hide IsSmooth, Enabled, Apply, Smooth, IsUpload;
    if k > 0 {
      CallStaysAlong(cfg, run, 0, k - 1, b, []);
      var step := SmoothStepAt(cfg, run, k);
      FinishedStays(cfg, run[k - 1], step, b);
      OffTrackAlong(cfg, run, k - 1, b, i);
      IndexesStay(cfg, run[k - 1], step);
      if CallOf(step) == Some(b) {
        OffTrackUploads(cfg, run[k - 1], step, b);
        PendingUntilEnd(cfg, run[k - 1], step, b, i);
        TrackOnlyEnds(cfg, run[k - 1], step, b);
        if step.FinishUpload? { EndStores(cfg, run[k - 1], step, b); }
        StillUploading(cfg, run[k - 1], step, b);
      }
    }
  }

  lemma StillUploading(cfg: Config, s: State, step: Step, b: nat)
    requires Enabled(cfg, s, step) && IsUpload(step) && CallOf(step) == Some(b)
    requires b < |s.batches| && s.batches[b].phase.Uploading? && s.batches[b].phase.failed
    ensures b < |Apply(cfg, s, step).batches|
    ensures Apply(cfg, s, step).batches[b].phase.Uploading? || Finished(Apply(cfg, s, step).batches[b].phase)
    ensures Finished(Apply(cfg, s, step).batches[b].phase) ==> forall i: nat :: !Pending(s.batches[b].phase, i)
  {
    hide SetPhase, Finish, CanPut;
    MovesTo(s, b);
  }

  /** What a call on track leaves behind, going back. */
  lemma TrackBefore(cfg: Config, s: State, step: Step, b: nat)
    requires Enabled(cfg, s, step) && Smooth(cfg, s, step)
    requires b < |s.batches| && b < |Apply(cfg, s, step).batches|
    ensures var x, x' := s.batches[b], Apply(cfg, s, step).batches[b];
      && (OnTrack(x') ==> OnTrack(x))
      && (x'.phase.Acked? ==> OnTrack(x) || x.phase.Acked?)
      && (x'.phase.Acked? && OnTrack(x) ==> step == WriteCommit(b, WriteDone) && x.phase.CommitWriting?)
  {
    hide Enabled, Apply, Smooth;
    NoArrival(cfg, s, step);
    FinishedStays(cfg, s, step, b);
    if CallOf(step) == Some(b) {
      TrackOnlyEnds(cfg, s, step, b);
      if Apply(cfg, s, step).batches[b].phase.Acked? {
        if !s.batches[b].phase.Acked? {
          NewlyAcked(cfg, s, step, b);
          LandedIsFinished(cfg, s, step, b);
        }
      }
    }
  }

  lemma {:induction false} TrackBeforeAlong(cfg: Config, run: seq<State>, i: nat, j: nat, b: nat)
    requires IsSmooth(cfg, run) && i <= j < |run|
    requires b < |run[i].batches| && b < |run[j].batches|
    ensures OnTrack(run[j].batches[b]) ==> OnTrack(run[i].batches[b])
    ensures run[j].batches[b].phase.Acked? ==> OnTrack(run[i].batches[b]) || run[i].batches[b].phase.Acked?
    decreases j - i
  {
    hide IsSmooth, Enabled, Apply, Smooth, OnTrack;
    if i < j {
      CallStaysAlong(cfg, run, i, j - 1, b, []);
      var step := SmoothStepAt(cfg, run, j);
      TrackBefore(cfg, run[j - 1], step, b);
      TrackBeforeAlong(cfg, run, i, j - 1, b);
    }
  }

  lemma AckedStored(cfg: Config, run: seq<State>, c: nat, u: Text)
    requires cfg.libs.Lawful()
    requires run != [] && Reachable(cfg, run[0]) && Completes(cfg, run[0], run)
    requires Running(run[0], c) && OnTrack(run[0].batches[c]) && u in run[0].batches[c].services
    ensures var i := FirstPassed(run, c, true); 0 < i < |run| && StoredFor(run[i - 1], u)
  {
    hide Libs.Lawful, Reachable, Inv, IsSmooth, Enabled, Apply, Smooth, TotalWork, OnTrack, StoredFor, Grows;
    var step := ReturnsInRun(cfg, run, c);
    var i := FirstPassed(run, c, true);
    CallStaysAlong(cfg, run, 0, i - 1, c, u);
    CallStaysAlong(cfg, run, i, |run| - 1, c, u);
    TrackBeforeAlong(cfg, run, 0, i - 1, c);
    TrackBefore(cfg, run[i - 1], step, c);
    SmoothRunRegisters(cfg, run, i - 1);
    ReachableInv(cfg, run[i - 1]);
    CommitterStored(cfg, run[i - 1], c, u);
  }

  lemma FailedStored(cfg: Config, run: seq<State>, c: nat, n: nat)
    requires cfg.listing.ByPrefix? && run != [] && Completes(cfg, run[0], run)
    requires Running(run[0], c) && !OnTrack(run[0].batches[c]) && Pending(run[0].batches[c].phase, n)
    ensures var i := FirstPassed(run, c, true);
      0 < i < |run| && StoredFor(run[i - 1], run[0].batches[c].phase.built.chunks[n].header.service)
  {
    hide IsSmooth, Enabled, Apply, Smooth, TotalWork, IsUpload;
    var step := ReturnsInRun(cfg, run, c);
    var i := FirstPassed(run, c, true);
    OffTrackAlong(cfg, run, i - 1, c, n);
    OffTrackUploads(cfg, run[i - 1], step, c);
    StillUploading(cfg, run[i - 1], step, c);
    assert run[0].batches[c].phase.built.chunks[n].Ref() in run[i - 1].indexes;
  }

  /** A call that returns has stored what it could. */
  lemma ReturningStored(cfg: Config, run: seq<State>, c: nat, u: Text)
    requires cfg.libs.Lawful() && cfg.listing.ByPrefix?
    requires run != [] && Reachable(cfg, run[0]) && Completes(cfg, run[0], run)
    requires c < |run[0].batches| && MayStore(run[0].batches[c], u)
    ensures var i := FirstPassed(run, c, true); 0 < i < |run| && StoredFor(run[i - 1], u)
  {
    hide Libs.Lawful, Reachable, Completes, StoredFor, FirstPassed;
    if OnTrack(run[0].batches[c]) {
      AckedStored(cfg, run, c, u);
    } else {
      var n: nat :| Pending(run[0].batches[c].phase, n) && run[0].batches[c].phase.built.chunks[n].header.service == u;
      FailedStored(cfg, run, c, n);
    }
  }

  // ---- Who registered a service ----

  /** Call `d` was to register `t`, and had begun to by state `k`. */
  ghost predicate Began(run: seq<State>, d: nat, t: Text, k: nat)
    requires run != []
  {
    d < |run[0].batches| && OnTrack(run[0].batches[d]) && t in run[0].batches[d].services &&
    FirstPassed(run, d, false) <= k
  }

  lemma DrafterBegan(cfg: Config, run: seq<State>, k: nat, d: nat, t: Text)
    requires cfg.libs.Lawful()
    requires IsSmooth(cfg, run) && k < |run| && Reachable(cfg, run[0])
    requires d < |run[k].batches| && Drafts(run[k].batches[d], t) && t !in Durable(cfg, run[k]).services
    ensures run != [] && Began(run, d, t, k)
  {
    hide Libs.Lawful, Reachable, IsSmooth, Durable, LocksOk, StoreOk, ShapeOk, OnlyAddsFresh;
    SmoothRunRegisters(cfg, run, k);
    ReachableInv(cfg, run[k]);
    assert BatchOk(cfg, Durable(cfg, run[k]), run[k].chunks, run[k].indexes, run[k].batches[d]);
    SmoothIsNonEmpty(cfg, run);
    SameSize(cfg, run, k);
    CallStaysAlong(cfg, run, 0, k, d, t);
    TrackBeforeAlong(cfg, run, 0, k, d);
    FirstPassedIs(run, d, false);
  }

  lemma {:induction false} SameSize(cfg: Config, run: seq<State>, k: nat)
    requires IsSmooth(cfg, run) && k < |run|
    ensures |run[k].batches| == |run[0].batches|
  {
    hide IsSmooth, Enabled, Apply, Smooth;
    if k > 0 {
      SameSize(cfg, run, k - 1);
      var step := SmoothStepAt(cfg, run, k);
      NoArrival(cfg, run[k - 1], step);
      StepFrame(cfg, run[k - 1], step);
    }
  }

  lemma {:induction false} RegistrarBegan(cfg: Config, run: seq<State>, k: nat, t: Text) returns (d: nat)
    requires cfg.libs.Lawful()
    requires IsSmooth(cfg, run) && k < |run| && Reachable(cfg, run[0])
    requires t !in Durable(cfg, run[0]).services && t in Durable(cfg, run[k]).services
    ensures run != [] && Began(run, d, t, k)
  {
    hide Libs.Lawful, Reachable, Inv, IsSmooth, Enabled, Apply, Smooth, Durable, Drafts;
    if t in Durable(cfg, run[k - 1]).services {
      d := RegistrarBegan(cfg, run, k - 1, t);
    } else {
      var step := SmoothStepAt(cfg, run, k);
      SmoothRunRegisters(cfg, run, k - 1);
      ReachableInv(cfg, run[k - 1]);
      d := NewEntryDrafted(cfg, run[k - 1], step, t);
      DrafterBegan(cfg, run, k - 1, d, t);
    }
  }

  lemma NewEntryDrafted(cfg: Config, s: State, step: Step, t: Text) returns (d: nat)
    requires Inv(cfg, s) && Enabled(cfg, s, step) && Smooth(cfg, s, step)
    requires t !in Durable(cfg, s).services && t in Durable(cfg, Apply(cfg, s, step)).services
    ensures d < |s.batches| && Drafts(s.batches[d], t)
  {
    hide Inv, Enabled, Apply, Durable;
    if step.WriteRegistration? {
      d := step.b;
      WritesDraft(cfg, s, step, d);
    } else if step.WriteCommit? {
      WritesDraft(cfg, s, step, step.b);
      CommitKeepsKeys(cfg, s, step.b);
      assert false;
    } else {
      OtherStepsOrUpload(cfg, s, step);
      SameManifestSame(cfg, s, Apply(cfg, s, step));
      assert false;
    }
  }

  lemma SameManifestSame(cfg: Config, s: State, s': State)
    requires s'.manifest == s.manifest
    ensures Durable(cfg, s') == Durable(cfg, s)
  {
  }

  lemma SuffixIsRun(cfg: Config, run: seq<State>, k: nat)
    requires IsRun(cfg, run) && k < |run|
    ensures IsRun(cfg, run[k..])
  {
    hide Next;
    forall i | 0 <= i < |run[k..]| - 1 ensures Next(cfg, run[k..][i], run[k..][i + 1]) {
      assert Next(cfg, run[k + i], run[k + i + 1]);
    }
  }

  /** When a call returns that has stored something nested in `t`, somebody has begun to register `t`. */
  lemma AskedBeforeReturn(cfg: Config, run: seq<State>, c: nat, t: Text, u: Text) returns (d: nat)
    requires cfg.libs.Lawful() && cfg.listing.ByPrefix?
    requires run != [] && Reachable(cfg, run[0]) && Completes(cfg, run[0], run)
    requires Asked(cfg, run[0], t)
    requires c < |run[0].batches| && MayStore(run[0].batches[c], u) && Nested(t, u)
    ensures FirstPassed(run, c, true) > 0 && Began(run, d, t, FirstPassed(run, c, true) - 1)
  {
    hide Libs.Lawful, Reachable, IsSmooth, TotalWork, MayStore, Nested, Durable, Drafts, OnTrack, IsRun, SameCall, Grows;
    ReturningStored(cfg, run, c, u);
    var k, n := FirstPassed(run, c, true) - 1, |run| - 1;
    var b :| StillLists(cfg, run[0], b, t);
    SameSize(cfg, run, k);
    if t in Durable(cfg, run[k]).services {
      d := RegistrarBegan(cfg, run, k, t);
    } else if e: nat :| e < |run[k].batches| && Drafts(run[k].batches[e], t) {
      DrafterBegan(cfg, run, k, e, t);
      d := e;
    } else {
      SmoothRunRegisters(cfg, run, k);
      CallStaysAlong(cfg, run, 0, k, b, t);
      CallStaysAlong(cfg, run, k, n, b, t);
      SameServices(run[0].batches[b], run[k].batches[b]);
      SameServices(run[k].batches[b], run[n].batches[b]);
      TrackBeforeAlong(cfg, run, k, n, b);
      if run[k].batches[b].phase.Acked? { AckedIsRegistered(cfg, run[k], b, t); }
      SmoothIsRun(cfg, run);
      SuffixIsRun(cfg, run, k);
      assert StillLists(cfg, run[k], b, t) && NestedStored(cfg, run[k].indexes, t);
      StoredIsFinal(cfg, run[k..], n - k, b, t);
      assert false;
    }
  }

  /** Whatever completes has followed a schedule. */
  lemma CompletingIsScheduled(cfg: Config, s: State, run: seq<State>)
    requires cfg.libs.Lawful() && Reachable(cfg, s)
    requires Completes(cfg, s, run)
    ensures run != [] && Feasible(cfg, s, ScheduleOf(run))
  {
    hide Libs.Lawful, Reachable, IsSmooth, TotalWork, MayStore, Nested, Asked, InTurn;
    SmoothIsNonEmpty(cfg, run);
    var z := ScheduleOf(run);
    forall b: nat | Running(s, b) ensures z.registers[b] < z.finishes[b] {
      var _ := ReturnsInRun(cfg, run, b);
    }
    forall b, c, t | Share(s, b, c, t) ensures InTurn(s, z, b, c, t) {
      SharesInTurn(cfg, run, b, c, t);
    }
    if cfg.listing.ByPrefix? {
      forall c, t, u | Asked(cfg, s, t) && 0 <= c < |s.batches| && MayStore(s.batches[c], u) && Nested(t, u)
        ensures AsksFirst(s, z, c, t)
      {
        var d := AskedBeforeReturn(cfg, run, c, t, u);
        assert z.registers[d] < z.finishes[c];
      }
    }
  }

  /** From every reachable state, all calls without a failed upload can be acknowledged, and the rest ended,
      in a run where nothing fails but what has to, exactly when the backend accepts the names of their
      services, there are ids for those still to register, the listing finds no other's chunks for those it is
      still to be asked about, and the registrations and returns of the calls can be scheduled: calls that
      share a service one after the other, and none that stores a service nested in one still to be asked
      about returning before that is registered. */
  lemma AllCanCompleteIff(cfg: Config, s: State)
    requires cfg.libs.Lawful() && Reachable(cfg, s)
    ensures (exists run :: Completes(cfg, s, run)) <==>
      IdsSuffice(cfg, s) && AllAdmitted(cfg, s) && NoneStored(cfg, s) && exists z :: Feasible(cfg, s, z)
  {
    hide Reachable, Libs.Lawful, NoneStored, IdsSuffice, AllAdmitted, Completes, Feasible;
    if z :| Feasible(cfg, s, z) {
      if IdsSuffice(cfg, s) && AllAdmitted(cfg, s) && NoneStored(cfg, s) {
        var run := ScheduledCallsComplete(cfg, s, z);
      }
    }
    if run :| Completes(cfg, s, run) {
      CompletingNeeds(cfg, s, run);
      CompletingIsScheduled(cfg, s, run);
    }
  }

  lemma OnlyAsker(cfg: Config, s: State, z: Schedule, b: nat, c: nat, t: Text, u: Text)
    requires cfg.listing.ByPrefix? && Feasible(cfg, s, z)
    requires StillLists(cfg, s, b, t) && forall d :: 0 <= d < |s.batches| && t in s.batches[d].services ==> d == b
    requires c < |s.batches| && MayStore(s.batches[c], u) && Nested(t, u)
    ensures b < |s.batches| && z.registers[b] < z.finishes[c]
  {
    hide MayStore, Nested, OnTrack, Fits, Durable;
    ScheduleSize(s, z);
    assert Asked(cfg, s, t) && AsksFirst(s, z, c, t);
  }

  /** For example, there is none when a call holds a service that another needs to register `t`, which no third
      call has, and the holder stores something nested in `t`: both cannot be acknowledged any more. */
  lemma NestedHolderBlocks(cfg: Config, s: State, b: nat, c: nat, x: Text, t: Text, u: Text)
    requires cfg.libs.Lawful() && Reachable(cfg, s) && cfg.listing.ByPrefix?
    requires Share(s, c, b, x) && HoldsService(s.batches[c], x)
    requires StillLists(cfg, s, b, t) && forall d :: 0 <= d < |s.batches| && t in s.batches[d].services ==> d == b
    requires MayStore(s.batches[c], u) && Nested(t, u)
    ensures forall z :: !Feasible(cfg, s, z)
    ensures forall run :: !Completes(cfg, s, run)
  {
    hide Libs.Lawful, Reachable, HoldsService, MayStore, Nested, StillLists, Completes, OnTrack;
    forall z ensures !Feasible(cfg, s, z) {
      if Feasible(cfg, s, z) {
        HolderGoesFirst(s, z, c, b, x);
        OnlyAsker(cfg, s, z, b, c, t, u);
        assert false;
      }
    }
    forall run ensures !Completes(cfg, s, run) {
      if Completes(cfg, s, run) { CompletingIsScheduled(cfg, s, run); }
    }
  }
}
