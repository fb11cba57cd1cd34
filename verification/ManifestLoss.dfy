/** Services that can get no manifest entry: those whose chunks outlived a manifest lost or rolled back
    outside, and those whose names the backend rejects. */
module ManifestLoss {
  import opened Core
  import opened Chunking
  import opened Index
  import opened Sealing
  import opened Archive
  import opened Protocol
  import opened Safety
  import opened Runs
  import opened Serial
  import opened Isolation
  import opened Progress

  /** The manifest has no entry for `t`, and `list_chunks` finds chunks under that name or rejects the name.
      Nothing else is assumed of the archive. */
  ghost predicate Lost(cfg: Config, s: State, t: Text) {
    t !in Durable(cfg, s).services && (Listed(cfg, s, t) || !Admits(cfg.listing, t))
  }

  /** A call that touches `t` has not got past registration, and no private manifest lists `t`. */
  ghost predicate LostPhase(cfg: Config, batch: Batch, t: Text) {
    match batch.phase
    case Registering(next, draft) =>
      && t !in draft.services
      && next < |batch.services|
      && (forall i :: 0 <= i < next ==> batch.services[i] in draft.services)
    case RegisterWriting(draft) => t !in draft.services && t !in batch.services
    case Building(_) => t !in batch.services
    case Uploading(seed, built, _, _, _) => t !in batch.services && BuiltOk(cfg.libs, seed, batch.buckets, built)
    case WaitingToCommit(seed, built) => t !in batch.services && BuiltOk(cfg.libs, seed, batch.buckets, built)
    case CommitReading(seed, built) => t !in batch.services && BuiltOk(cfg.libs, seed, batch.buckets, built)
    case CommitWriting(_, _, draft) => t !in batch.services && t !in draft.services
    case Acked(_, _) => t !in batch.services
    case _ => true
  }

  ghost predicate LostBatch(cfg: Config, batch: Batch, t: Text) {
    && (forall u :: u in batch.services <==> u in ServicesIn(batch.buckets))
    && (!Finished(batch.phase) ==> batch.services != [])
    && LostPhase(cfg, batch, t)
  }

  ghost predicate Contained(cfg: Config, s: State, t: Text) {
    && Lost(cfg, s, t)
    && (forall b :: 0 <= b < |s.batches| ==> LostBatch(cfg, s.batches[b], t))
  }

  lemma NewBatchLost(cfg: Config, records: seq<LogRecord>, t: Text)
    ensures LostBatch(cfg, NewBatch(cfg, records), t)
  {
    hide ChunkBatch;
    var buckets := ChunkBatch(cfg, records);
    if buckets != [] {
      assert buckets[0] in buckets;
      assert buckets[0].service in ServicesIn(buckets);
    }
  }

  lemma RegistrationRefuses(cfg: Config, s: State, b: nat, t: Text)
    requires Lost(cfg, s, t)
    requires b < |s.batches| && LostBatch(cfg, s.batches[b], t) && s.batches[b].phase.Registering?
    requires CanList(cfg, s.batches[b].phase.draft, s.batches[b].services[s.batches[b].phase.next])
    ensures var s' := RegisterServiceStep(cfg, s, b); b < |s'.batches| && LostBatch(cfg, s'.batches[b], t)
    ensures s.batches[b].services[s.batches[b].phase.next] == t ==>
      RegisterServiceStep(cfg, s, b).batches[b].phase == Failed(Refused)
  {
    hide ServicesIn, Listed, SetPhase, Finish, Durable;
    MovesTo(s, b);
  }

  lemma BuildKeepsLost(cfg: Config, s: State, b: nat, salts: seq<Salt>, t: Text)
    requires cfg.libs.Lawful()
    requires b < |s.batches| && LostBatch(cfg, s.batches[b], t) && s.batches[b].phase.Building?
    requires |salts| == |s.batches[b].buckets| && AllBuildable(s.batches[b].phase.seed, s.batches[b].buckets)
    ensures b < |BuildStep(cfg, s, b, salts).batches| && LostBatch(cfg, BuildStep(cfg, s, b, salts).batches[b], t)
  {
    hide ServicesIn, BuiltOk, BuildAll, Libs.Lawful;
    BuildAllOk(cfg.libs, s.batches[b].phase.seed, s.batches[b].buckets, salts);
  }

  lemma ReadToCommitKeepsLost(cfg: Config, s: State, b: nat, t: Text)
    requires Lost(cfg, s, t)
    requires b < |s.batches| && LostBatch(cfg, s.batches[b], t) && s.batches[b].phase.CommitReading?
    requires s.batches[b].phase.built.heads.Keys <= s.batches[b].phase.seed.services.Keys
    ensures var p := s.batches[b].phase;
      LostBatch(cfg, s.batches[b].(phase := CommitWriting(p.seed, p.built, Overlay(Durable(cfg, s), p.seed, p.built))), t)
  {
    hide ArchivesAt, ContinuesChain, SequencesRise, Listed;
    BuiltLengths(cfg, s.batches[b].phase.seed, s.batches[b].buckets, s.batches[b].phase.built);
  }

  lemma LockingStaysContained(cfg: Config, s: State, step: Step, b: nat, t: Text)
    requires Lost(cfg, s, t) && Enabled(cfg, s, step) && CallOf(step) == Some(b)
    requires IsEarly(step) && !step.RegisterService?
    requires b < |s.batches| && LostBatch(cfg, s.batches[b], t)
    ensures b < |Apply(cfg, s, step).batches| && LostBatch(cfg, Apply(cfg, s, step).batches[b], t)
  {
    hide SetPhase, Finish, ServicesIn, Listed, Durable;
    MovesTo(s, b);
  }

  lemma UploadingStaysContained(cfg: Config, s: State, step: Step, b: nat, t: Text)
    requires Lost(cfg, s, t) && Enabled(cfg, s, step) && CallOf(step) == Some(b)
    requires !IsEarly(step) && !step.Build? && !step.ReadToCommit?
    requires b < |s.batches| && LostBatch(cfg, s.batches[b], t)
    ensures b < |Apply(cfg, s, step).batches| && LostBatch(cfg, Apply(cfg, s, step).batches[b], t)
  {
    hide SetPhase, Finish, ServicesIn, Listed, BuiltOk, Durable;
    MovesTo(s, b);
  }

  /** The call that takes a step stays contained. */
  lemma CallStaysContained(cfg: Config, s: State, step: Step, b: nat, t: Text)
    requires cfg.libs.Lawful()
    requires Lost(cfg, s, t) && Enabled(cfg, s, step) && CallOf(step) == Some(b)
    requires b < |s.batches| && LostBatch(cfg, s.batches[b], t)
    ensures b < |Apply(cfg, s, step).batches| && LostBatch(cfg, Apply(cfg, s, step).batches[b], t)
  {
    hide LostBatch, Lost, Libs.Lawful, RegisterServiceStep, BuildStep, SetPhase, Overlay, Durable;
    match step {
      case RegisterService(_) => RegistrationRefuses(cfg, s, b, t);
      case Build(_, salts) => BuildKeepsLost(cfg, s, b, salts, t);
      case ReadToCommit(_) =>
        ReadToCommitKeepsLost(cfg, s, b, t);
        MovesTo(s, b);
      case _ =>
        hide Enabled, Apply;
        if IsEarly(step) {
          LockingStaysContained(cfg, s, step, b, t);
        } else {
          UploadingStaysContained(cfg, s, step, b, t);
        }
    }
  }

  lemma UploadsElsewhere(cfg: Config, batch: Batch, i: nat, t: Text)
    requires LostBatch(cfg, batch, t) && batch.phase.Uploading?
    requires i < |batch.phase.built.chunks|
    ensures batch.phase.built.chunks[i].header.service != t
  {
    hide SequencesRise, ContinuesChain, OpenChunk, IndexOf;
    var p := batch.phase;
    assert ArchivesAt(cfg.libs, p.seed, batch.buckets, p.built, i);
    assert batch.buckets[i] in batch.buckets;
  }

  /** No step of any call gives `t` an entry or touches its chunks or indexes. */
  lemma StepLeavesLost(cfg: Config, s: State, step: Step, t: Text)
    requires Contained(cfg, s, t) && Enabled(cfg, s, step)
    ensures ServiceUntouched(cfg, s, Apply(cfg, s, step), t)
    ensures Lost(cfg, Apply(cfg, s, step), t)
  {
    hide Contained, Enabled, Apply, Durable, Listed, EntryOf, ServiceUntouched;
    var s' := Apply(cfg, s, step);
    if step.FinishUpload? {
      UploadElsewhere(cfg, s, step, t);
    } else if step.WriteRegistration? || step.WriteCommit? {
      WriteElsewhere(cfg, s, step, t);
      SelfUntouched(cfg, s, s', t);
    } else {
      OtherStepsKeepBackend(cfg, s, step);
      SameManifest(cfg, s, s', t);
      SelfUntouched(cfg, s, s', t);
    }
    IndexesStay(cfg, s, step);
    StaysLost(cfg, s, s', t);
  }

  lemma SameManifest(cfg: Config, s: State, s': State, t: Text)
    requires s'.manifest == s.manifest
    ensures EntryOf(Durable(cfg, s'), t) == EntryOf(Durable(cfg, s), t)
  {
  }

  lemma StaysLost(cfg: Config, s: State, s': State, t: Text)
    requires Contained(cfg, s, t) && ServiceUntouched(cfg, s, s', t) && s.indexes.Keys <= s'.indexes.Keys
    ensures Lost(cfg, s', t)
  {
    hide LostBatch, Listed;
    if Listed(cfg, s, t) { StillListed(cfg, s, s', t); }
  }

  lemma WriteElsewhere(cfg: Config, s: State, step: Step, t: Text)
    requires Contained(cfg, s, t) && Enabled(cfg, s, step)
    requires step.WriteRegistration? || step.WriteCommit?
    ensures var s' := Apply(cfg, s, step); s'.chunks == s.chunks && s'.indexes == s.indexes
    ensures EntryOf(Durable(cfg, Apply(cfg, s, step)), t) == EntryOf(Durable(cfg, s), t)
  {
    hide ServicesIn, Listed;
    assert LostBatch(cfg, s.batches[step.b], t);
  }

  lemma UploadElsewhere(cfg: Config, s: State, step: Step, t: Text)
    requires Contained(cfg, s, t) && Enabled(cfg, s, step) && step.FinishUpload?
    ensures ServiceUntouched(cfg, s, Apply(cfg, s, step), t)
  {
    hide LostBatch, Listed, CanPut;
    assert LostBatch(cfg, s.batches[step.b], t);
    UploadsElsewhere(cfg, s.batches[step.b], step.i, t);
  }

  lemma StillListed(cfg: Config, s: State, s': State, t: Text)
    requires Listed(cfg, s, t) && s.indexes.Keys <= s'.indexes.Keys
    ensures Listed(cfg, s', t)
  {
    var r :| r in s.indexes && Lists(cfg.listing, t, r.service);
    assert r in s'.indexes;
  }

  lemma StepKeepsContained(cfg: Config, s: State, step: Step, t: Text)
    requires cfg.libs.Lawful()
    requires Contained(cfg, s, t) && Enabled(cfg, s, step)
    ensures Contained(cfg, Apply(cfg, s, step), t)
  {
    hide Enabled, Apply, LostBatch, Lost, NewBatch, ServiceUntouched, Libs.Lawful;
    var s' := Apply(cfg, s, step);
    StepLeavesLost(cfg, s, step, t);
    StepFrame(cfg, s, step);
    match CallOf(step)
    case None => NewBatchLost(cfg, step.records, t);
    case Some(b) => CallStaysContained(cfg, s, step, b, t);
  }

  lemma {:induction false} ContainedAlongRun(cfg: Config, run: seq<State>, i: nat, t: Text)
    requires cfg.libs.Lawful()
    requires IsRun(cfg, run) && i < |run|
    requires Contained(cfg, run[0], t)
    ensures Contained(cfg, run[i], t)
    ensures ServiceUntouched(cfg, run[0], run[i], t)
  {
    hide IsRun, Enabled, Apply, Lost, LostBatch, Libs.Lawful;
    if i > 0 {
      ContainedAlongRun(cfg, run, i - 1, t);
      var step := StepAt(cfg, run, i);
      StepLeavesLost(cfg, run[i - 1], step, t);
      StepKeepsContained(cfg, run[i - 1], step, t);
      UntouchedTransitive(cfg, run[0], run[i - 1], run[i], t);
    }
  }

  /** However many calls run after the loss, and whatever fails, `t` keeps its chunks and indexes and
      gets no entry, and no call that touches `t` gets past registration. */
  lemma LossIsContained(cfg: Config, run: seq<State>, i: nat, t: Text)
    requires cfg.libs.Lawful()
    requires IsRun(cfg, run) && i < |run|
    requires Lost(cfg, run[0], t) && run[0].batches == []
    ensures Contained(cfg, run[i], t)
    ensures ServiceUntouched(cfg, run[0], run[i], t)
  {
    hide IsRun, Lost, Libs.Lawful, ServiceUntouched;
    ContainedAlongRun(cfg, run, i, t);
  }

  lemma UntouchedTransitive(cfg: Config, s: State, s': State, s'': State, t: Text)
    requires ServiceUntouched(cfg, s, s', t) && ServiceUntouched(cfg, s', s'', t)
    ensures ServiceUntouched(cfg, s, s'', t)
  {
    hide Durable, EntryOf;
    forall r: ChunkRef | r.service == t ensures SameStored(r, s.chunks, s.indexes, s''.chunks, s''.indexes) {
      assert SameStored(r, s.chunks, s.indexes, s'.chunks, s'.indexes);
      assert SameStored(r, s'.chunks, s'.indexes, s''.chunks, s''.indexes);
    }
  }

  /** A batch that touches a lost service, perhaps among others, changes neither the manifest nor any
      archive, of any service; and it never succeeds. */
  lemma TouchingLostChangesNothing(cfg: Config, s: State, step: Step, b: nat, t: Text)
    requires Contained(cfg, s, t) && Enabled(cfg, s, step)
    requires CallOf(step) == Some(b) && b < |s.batches| && t in s.batches[b].services
    ensures var s' := Apply(cfg, s, step);
      s'.manifest == s.manifest && s'.chunks == s.chunks && s'.indexes == s.indexes
    ensures !s.batches[b].phase.Acked?
  {
    hide Apply, Lost, Listed;
    assert LostBatch(cfg, s.batches[b], t);
    OtherStepsKeepBackend(cfg, s, step);
  }
}
