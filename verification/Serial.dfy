/** Concurrent ingestion is serializable: every service's decrypted contents are those of the committed
    batches run one at a time, in the order of their final manifest writes. */
module Serial {
  import opened Core
  import opened Ordering
  import opened Chunking
  import opened Sealing
  import opened Archive
  import opened Protocol
  import opened Safety
  import opened Runs

  // ---- Whose step it is, and what it leaves alone ----

  function CallOf(step: Step): Option<nat> {
    match step
    case Begin(_) => None
    case TakeServiceLock(b) => Some(b)
    case ReadSeed(b) => Some(b)
    case LockToRegister(b) => Some(b)
    case ReadToRegister(b) => Some(b)
    case RegisterService(b) => Some(b)
    case WriteRegistration(b, _) => Some(b)
    case Build(b, _) => Some(b)
    case StartUpload(b) => Some(b)
    case FinishUpload(b, _, _) => Some(b)
    case CollectUploads(b) => Some(b)
    case LockToCommit(b) => Some(b)
    case ReadToCommit(b) => Some(b)
    case WriteCommit(b, _) => Some(b)
    case Fault(b) => Some(b)
    case Abandon(b) => Some(b)
  }

  /** The calls whose final manifest write this step makes durable. */
  function Landed(step: Step): seq<nat> {
    match step
    case WriteCommit(b, WriteDone) => [b]
    case WriteCommit(b, WriteFailed(true)) => [b]
    case _ => []
  }

  predicate SameCall(x: Batch, y: Batch) {
    x.records == y.records && x.buckets == y.buckets && x.services == y.services
  }

  /** `after` has the calls of `before`, in place, with all but call `b` exactly as they were. */
  ghost predicate OnlyCall(b: nat, before: seq<Batch>, after: seq<Batch>) {
    && |after| == |before|
    && b < |before|
    && (forall c :: 0 <= c < |before| && c != b ==> after[c] == before[c])
    && SameCall(before[b], after[b])
  }

  lemma CallIsRunning(cfg: Config, s: State, step: Step, b: nat)
    requires Enabled(cfg, s, step) && CallOf(step) == Some(b)
    ensures b < |s.batches| && !Finished(s.batches[b].phase)
  {
    hide AllBuildable;
  }

  lemma CallFrame(cfg: Config, s: State, step: Step, b: nat)
    requires Enabled(cfg, s, step) && CallOf(step) == Some(b) && b < |s.batches|
    ensures OnlyCall(b, s.batches, Apply(cfg, s, step).batches)
  {
    hide NewBatch, RegisterOne, Overlay, BuildAll, Listed, Durable, AllBuildable, SetPhase, Finish;
    MovesTo(s, b);
  }

  lemma StepFrame(cfg: Config, s: State, step: Step)
    requires Enabled(cfg, s, step)
    ensures var s' := Apply(cfg, s, step);
      match CallOf(step)
      case None => s'.batches == s.batches + [NewBatch(cfg, step.records)]
      case Some(b) => OnlyCall(b, s.batches, s'.batches) && !Finished(s.batches[b].phase)
  {
    hide Enabled, OnlyCall, NewBatch;
    if CallOf(step).Some? {
      CallMoves(cfg, s, step, CallOf(step).value);
    }
  }

  lemma CallMoves(cfg: Config, s: State, step: Step, b: nat)
    requires Enabled(cfg, s, step) && CallOf(step) == Some(b)
    ensures OnlyCall(b, s.batches, Apply(cfg, s, step).batches) && !Finished(s.batches[b].phase)
  {
    hide Enabled, Apply;
    CallIsRunning(cfg, s, step, b);
    CallFrame(cfg, s, step, b);
  }

  lemma StepCommits(cfg: Config, s: State, step: Step)
    requires Enabled(cfg, s, step)
    ensures Apply(cfg, s, step).commits == s.commits + Landed(step)
  {
    hide Enabled, NewBatch, RegisterOne, Overlay, BuildAll, Listed, Durable, AllBuildable;
  }

  /** A call that has returned is never touched again. */
  lemma FinishedStays(cfg: Config, s: State, step: Step, c: nat)
    requires Enabled(cfg, s, step) && c < |s.batches|
    ensures var s' := Apply(cfg, s, step);
      c < |s'.batches| && SameCall(s.batches[c], s'.batches[c]) &&
      (Finished(s.batches[c].phase) || CallOf(step) != Some(c) ==> s'.batches[c] == s.batches[c])
  {
    hide Enabled, Apply, NewBatch;
    StepFrame(cfg, s, step);
  }

  lemma OnlyCommitAcks(cfg: Config, s: State, step: Step, b: nat)
    requires Enabled(cfg, s, step) && CallOf(step) == Some(b)
    requires step != WriteCommit(b, WriteDone)
    ensures b < |Apply(cfg, s, step).batches| && !Apply(cfg, s, step).batches[b].phase.Acked?
  {
    hide NewBatch, RegisterOne, Overlay, BuildAll, Listed, Durable, AllBuildable, SetPhase, Finish, WriteCommitStep,
      CanList, CanPut;
    CallIsRunning(cfg, s, step, b);
    MovesTo(s, b);
    if step.WriteCommit? {
      FailedCommit(s, b, step.written);
    }
  }

  lemma FailedCommit(s: State, b: nat, written: WriteOutcome)
    requires b < |s.batches| && s.batches[b].phase.CommitWriting? && written.WriteFailed?
    ensures b < |WriteCommitStep(s, b, written).batches| && WriteCommitStep(s, b, written).batches[b].phase.Failed?
  {
  }

  /** A call becomes acknowledged only by its final manifest write, or at once when it is empty. */
  lemma NewlyAcked(cfg: Config, s: State, step: Step, c: nat)
    requires Enabled(cfg, s, step)
    requires var s' := Apply(cfg, s, step); c < |s'.batches| && s'.batches[c].phase.Acked?
    requires c < |s.batches| ==> !s.batches[c].phase.Acked?
    ensures step == WriteCommit(c, WriteDone) || (step.Begin? && Apply(cfg, s, step).batches[c].buckets == [])
  {
    hide Enabled, Apply, ChunkBatch, ServiceList;
    StepFrame(cfg, s, step);
    if CallOf(step).Some? && step != WriteCommit(c, WriteDone) {
      OnlyCommitAcks(cfg, s, step, CallOf(step).value);
    }
  }

  // ---- Commits are exact ----

  ghost predicate InRange(batches: seq<Batch>, commits: seq<nat>) {
    forall i :: 0 <= i < |commits| ==> commits[i] < |batches|
  }

  /** Each call commits at most once; those that commit have returned, not been abandoned before; and
      every acknowledged call with records has committed. */
  ghost predicate CommitsOk(batches: seq<Batch>, commits: seq<nat>) {
    && (forall i, j :: 0 <= i < j < |commits| ==> commits[i] != commits[j])
    && InRange(batches, commits)
    && (forall c :: c in commits ==> batches[c].phase.Acked? || batches[c].phase.Failed?)
    && (forall c :: 0 <= c < |batches| && batches[c].phase.Acked? && batches[c].buckets != [] ==> c in commits)
  }

  lemma LandedIsFinished(cfg: Config, s: State, step: Step, b: nat)
    requires Enabled(cfg, s, step) && Landed(step) == [b]
    ensures b < |s.batches| && s.batches[b].phase.CommitWriting?
    ensures var q := Apply(cfg, s, step).batches[b].phase; q.Acked? || q.Failed?
  {
  }

  lemma StepKeepsCommitsOk(cfg: Config, s: State, step: Step)
    requires Enabled(cfg, s, step) && CommitsOk(s.batches, s.commits)
    ensures var s' := Apply(cfg, s, step); CommitsOk(s'.batches, s'.commits)
  {
    hide Enabled, Apply;
    var s' := Apply(cfg, s, step);
    StepCommits(cfg, s, step);
    SameCallsAfter(cfg, s, step);
    if Landed(step) != [] {
      LandedIsFinished(cfg, s, step, step.b);
    }
    forall i | 0 <= i < |s'.commits|
      ensures s'.commits[i] < |s'.batches|
      ensures s'.batches[s'.commits[i]].phase.Acked? || s'.batches[s'.commits[i]].phase.Failed?
      ensures forall j :: i < j < |s'.commits| ==> s'.commits[i] != s'.commits[j]
    {
      if i < |s.commits| {
        assert s.commits[i] in s.commits;
        FinishedStays(cfg, s, step, s.commits[i]);
      }
    }
    forall c: nat | c < |s'.batches| && s'.batches[c].phase.Acked? && s'.batches[c].buckets != [] ensures c in s'.commits {
      if c < |s.batches| && s.batches[c].phase.Acked? {
        FinishedStays(cfg, s, step, c);
      } else {
        NewlyAcked(cfg, s, step, c);
      }
    }
  }

  // ---- One step of history ----

  ghost function HistoryIn(cfg: Config, s: State, t: Text): seq<Bucket> {
    History(cfg.libs, Durable(cfg, s), s.chunks, t)
  }

  /** The histories after the listed calls have run one at a time, in that order. */
  ghost function Replay(cfg: Config, start: seq<Bucket>, batches: seq<Batch>, commits: seq<nat>, t: Text): seq<Bucket>
    requires InRange(batches, commits)
  {
    if commits == [] then start
    else
      var n := |commits| - 1;
      AfterIngest(cfg, Replay(cfg, start, batches, commits[..n], t), batches[commits[n]].records, t)
  }

  lemma UploadKeepsHistory(cfg: Config, s: State, b: nat, i: nat, put: PutOutcome, t: Text)
    requires Inv(cfg, s)
    requires b < |s.batches| && s.batches[b].phase.Uploading?
    requires i < |s.batches[b].phase.built.chunks| && i < |s.batches[b].phase.built.indexes|
    ensures HistoryIn(cfg, FinishUploadStep(s, b, i, put), t) == HistoryIn(cfg, s, t)
  {
    hide LocksOk, StoreOk, ShapeOk, BuiltOk, SeedCurrent, UploadsOk, OnlyAt, Unreferenced, DecodeAll;
    var m, p, s' := Durable(cfg, s), s.batches[b].phase, FinishUploadStep(s, b, i, put);
    assert BatchOk(cfg, m, s.chunks, s.indexes, s.batches[b]);
    BuiltLengths(cfg, p.seed, s.batches[b].buckets, p.built);
    UploadIsUnreferenced(cfg, m, s.batches[b], p.seed, p.built, i);
    LandsOnlyAt(s, b, i, put);
    StoringUnreferenced(cfg, m, p.built.chunks[i].Ref(), s.chunks, s.indexes, s'.chunks, s'.indexes);
  }

  lemma RegistrationKeepsHistory(cfg: Config, s: State, b: nat, t: Text)
    requires Inv(cfg, s) && b < |s.batches| && s.batches[b].phase.RegisterWriting?
    ensures History(cfg.libs, s.batches[b].phase.draft, s.chunks, t) == HistoryIn(cfg, s, t)
  {
    hide LocksOk, StoreOk, ShapeOk;
    assert BatchOk(cfg, Durable(cfg, s), s.chunks, s.indexes, s.batches[b]);
  }

  lemma CommitAppends(cfg: Config, s: State, b: nat, t: Text)
    requires Inv(cfg, s) && b < |s.batches| && s.batches[b].phase.CommitWriting?
    ensures History(cfg.libs, s.batches[b].phase.draft, s.chunks, t) ==
      AfterIngest(cfg, HistoryIn(cfg, s, t), s.batches[b].records, t)
  {
    hide LocksOk, StoreOk, PhaseOk, ChunkBatch, GoodBuckets, Enumerates, BucketsOf, History;
    var m := Durable(cfg, s);
    assert BatchOk(cfg, m, s.chunks, s.indexes, s.batches[b]);
    CommitDraft(cfg, m, s.chunks, s.indexes, s.batches[b]);
    assert Appends(cfg.libs, m, s.batches[b].phase.draft, s.chunks, s.batches[b].buckets, t);
  }

  /** A step changes a service's history only when it makes a batch's final write durable, and then
      appends that batch. */
  lemma StepHistory(cfg: Config, s: State, step: Step, t: Text)
    requires Inv(cfg, s) && Enabled(cfg, s, step)
    ensures Landed(step) == [] ==> HistoryIn(cfg, Apply(cfg, s, step), t) == HistoryIn(cfg, s, t)
    ensures Landed(step) != [] ==> step.b < |s.batches|
    ensures Landed(step) != [] ==>
      HistoryIn(cfg, Apply(cfg, s, step), t) == AfterIngest(cfg, HistoryIn(cfg, s, t), s.batches[step.b].records, t)
  {
    hide Inv, History, AfterIngest;
    match step {
      case FinishUpload(b, i, put) =>
        hide HistoryIn;
        UploadKeepsHistory(cfg, s, b, i, put, t);
      case WriteRegistration(b, _) => RegistrationKeepsHistory(cfg, s, b, t);
      case WriteCommit(b, _) => CommitAppends(cfg, s, b, t);
      case _ =>
        hide Apply;
        OtherStepsKeepBackend(cfg, s, step);
    }
  }

  lemma {:induction false} ReplayFrame(cfg: Config, start: seq<Bucket>, batches: seq<Batch>, after: seq<Batch>,
    commits: seq<nat>, t: Text)
    requires |batches| <= |after|
    requires forall c :: 0 <= c < |batches| ==> SameCall(batches[c], after[c])
    requires InRange(batches, commits)
    ensures Replay(cfg, start, after, commits, t) == Replay(cfg, start, batches, commits, t)
  {
    hide AfterIngest;
    if commits != [] {
      var n := |commits| - 1;
      ReplayFrame(cfg, start, batches, after, commits[..n], t);
    }
  }

  lemma ReplaySnoc(cfg: Config, start: seq<Bucket>, batches: seq<Batch>, commits: seq<nat>, b: nat, t: Text)
    requires InRange(batches, commits)
    requires b < |batches|
    ensures Replay(cfg, start, batches, commits + [b], t) ==
      AfterIngest(cfg, Replay(cfg, start, batches, commits, t), batches[b].records, t)
  {
    hide AfterIngest;
    assert (commits + [b])[..|commits|] == commits;
  }

  // ---- The theorem ----

  /** Every service holds its starting history followed by the committed calls', in commit order. */
  ghost predicate Serialized(cfg: Config, start: State, s: State) {
    && CommitsOk(s.batches, s.commits)
    && (forall t :: IsReplay(cfg, start, s, t))
  }

  ghost predicate IsReplay(cfg: Config, start: State, s: State, t: Text)
    requires CommitsOk(s.batches, s.commits)
  {
    HistoryIn(cfg, s, t) == Replay(cfg, HistoryIn(cfg, start, t), s.batches, s.commits, t)
  }

  lemma StepSerialized(cfg: Config, start: State, s: State, step: Step)
    requires Inv(cfg, s) && Enabled(cfg, s, step)
    requires Serialized(cfg, start, s)
    ensures Serialized(cfg, start, Apply(cfg, s, step))
  {
    hide Inv, Enabled, Apply, HistoryIn, Replay, CommitsOk, SameCall, AfterIngest;
    var s' := Apply(cfg, s, step);
    StepKeepsCommitsOk(cfg, s, step);
    StepCommits(cfg, s, step);
    CommitsInRange(s.batches, s.commits);
    CommitsInRange(s'.batches, s'.commits);
    SameCallsAfter(cfg, s, step);
    forall t ensures IsReplay(cfg, start, s', t) {
      assert IsReplay(cfg, start, s, t);
      StepHistory(cfg, s, step, t);
      ReplayFrame(cfg, HistoryIn(cfg, start, t), s.batches, s'.batches, s.commits, t);
      if Landed(step) != [] {
        var b := Landed(step)[0];
        ReplaySnoc(cfg, HistoryIn(cfg, start, t), s'.batches, s.commits, b, t);
        SameRecords(cfg, s, step, b);
      } else {
        assert s'.commits == s.commits;
      }
    }
  }

  lemma CommitsInRange(batches: seq<Batch>, commits: seq<nat>)
    requires CommitsOk(batches, commits)
    ensures InRange(batches, commits)
  {
  }

  lemma SameCallsAfter(cfg: Config, s: State, step: Step)
    requires Enabled(cfg, s, step)
    ensures var s' := Apply(cfg, s, step);
      && |s.batches| <= |s'.batches|
      && (forall c :: 0 <= c < |s.batches| ==> SameCall(s.batches[c], s'.batches[c]))
  {
    hide Enabled, Apply, NewBatch;
    StepFrame(cfg, s, step);
  }

  lemma SameRecords(cfg: Config, s: State, step: Step, b: nat)
    requires Enabled(cfg, s, step) && b < |s.batches|
    ensures b < |Apply(cfg, s, step).batches| && Apply(cfg, s, step).batches[b].records == s.batches[b].records
  {
    hide Enabled, Apply;
    SameCallsAfter(cfg, s, step);
  }

  /** No lost update and no duplicate, in any interleaving with any failures: at every point of every
      run each service's decrypted history is what it was at the start followed by the batches whose
      final write landed, as if they had run alone one after the other; each landed once, and every
      acknowledged batch is among them. */
  lemma {:induction false} RunsAreSerial(cfg: Config, run: seq<State>, i: nat)
    requires cfg.libs.Lawful()
    requires IsRun(cfg, run) && AtRest(cfg, run[0]) && i < |run|
    ensures Serialized(cfg, run[0], run[i])
  {
    hide Inv, Libs.Lawful, Enabled, Apply, HistoryIn;
    if i == 0 {
    } else {
      hide AtRest, Serialized;
      RunsAreSerial(cfg, run, i - 1);
      AtRestInv(cfg, run[0]);
      InvAlongRun(cfg, run, i - 1);
      var step := StepAt(cfg, run, i);
      StepSerialized(cfg, run[0], run[i - 1], step);
    }
  }
}
