/** Calls that meet no failure are acknowledged. */
module Completion {
  import opened Core
  import opened Chunking
  import opened Sealing
  import opened Archive
  import opened Protocol
  import opened Safety
  import opened Runs
  import opened Serial
  import opened ReadBack
  import opened Progress
  import opened Guard
  import opened Rejection
  import opened ManifestLoss

  // ---- What can still stop a call when nothing fails ----

  /** Call `b` is on track and has `t` to register. */
  ghost predicate StillRegisters(cfg: Config, s: State, b: int, t: Text) {
    0 <= b < |s.batches| && OnTrack(s.batches[b]) && t in s.batches[b].services && t !in Durable(cfg, s).services
  }

  /** The services that calls on track still have to register. */
  ghost function Unregistered(cfg: Config, s: State): set<Text> {
    set b, t | 0 <= b < |s.batches| && t in s.batches[b].services && StillRegisters(cfg, s, b, t) :: t
  }

  /** There are ids left for all of them. */
  ghost predicate IdsSuffice(cfg: Config, s: State) {
    Durable(cfg, s).nextServiceId + |Unregistered(cfg, s)| < U32_LIMIT
  }

  /** The backend accepts every name in them. */
  ghost predicate AllAdmitted(cfg: Config, s: State) {
    forall b :: 0 <= b < |s.batches| && OnTrack(s.batches[b]) ==> AdmittedCall(cfg, s.batches[b])
  }

  /** The call's private manifest already has an entry for `t`, so the listing has been asked. */
  predicate Drafts(batch: Batch, t: Text) {
    match batch.phase
    case Registering(_, draft) => t in draft.services
    case RegisterWriting(draft) => t in draft.services
    case _ => false
  }

  /** Call `b` has `t` to register, and the listing is still to be asked about it. */
  ghost predicate StillLists(cfg: Config, s: State, b: int, t: Text) {
    StillRegisters(cfg, s, b, t) && forall c :: 0 <= c < |s.batches| ==> !Drafts(s.batches[c], t)
  }

  /** No such service has another stored that is nested in it. */
  ghost predicate NoneStored(cfg: Config, s: State) {
    forall b, t :: StillLists(cfg, s, b, t) ==> !NestedStored(cfg, s.indexes, t)
  }

  /** No call under way but `b` touches a service nested in `t`. */
  ghost predicate NestedInNoOther(s: State, b: nat, t: Text) {
    forall c, u :: 0 <= c < |s.batches| && c != b && !Finished(s.batches[c].phase) && u in s.batches[c].services ==>
      !Nested(t, u)
  }

  /** No such service has one nested in it that another call may store meanwhile. */
  ghost predicate NoneElsewhere(cfg: Config, s: State) {
    cfg.listing.ByPrefix? ==> forall b, t :: StillLists(cfg, s, b, t) ==> NestedInNoOther(s, b, t)
  }

  ghost predicate NothingNested(cfg: Config, s: State) {
    NoneStored(cfg, s) && NoneElsewhere(cfg, s)
  }

  // ---- One step in which nothing fails ----

  lemma RegisteringSeeds(cfg: Config, s: State, b: nat)
    requires Inv(cfg, s) && b < |s.batches|
    requires s.batches[b].phase.Registering? || s.batches[b].phase.RegisterWriting?
    ensures Registers(Durable(cfg, s), s.batches[b].phase.draft, Unregistered(cfg, s))
  {
    hide LocksOk, StoreOk, ShapeOk, Durable, AddsOnly, OnlyAddsFresh;
    var m, draft := Durable(cfg, s), s.batches[b].phase.draft;
    assert BatchOk(cfg, m, s.chunks, s.indexes, s.batches[b]);
    DraftRegisters(m, draft, s.batches[b].services);
    forall t | t in draft.services.Keys - m.services.Keys ensures t in Unregistered(cfg, s) {
      assert OnTrack(s.batches[b]) && t in s.batches[b].services;
    }
  }

  lemma DraftRegisters(m: Manifest, draft: Manifest, services: seq<Text>)
    requires OnlyAddsFresh(m, draft) && AddsOnly(m, draft, services)
    ensures m.services.Keys <= draft.services.Keys
    ensures draft.nextServiceId == m.nextServiceId + |draft.services.Keys - m.services.Keys|
    ensures forall t :: t in draft.services.Keys - m.services.Keys ==> t in services
  {
    SplitKeys(m.services.Keys, draft.services.Keys);
    assert |m.services| == |m.services.Keys| && |draft.services| == |draft.services.Keys|;
  }

  lemma SplitKeys(a: set<Text>, b: set<Text>)
    requires a <= b
    ensures |b| == |a| + |b - a|
  {
    assert b == a + (b - a);
  }

  lemma SubsetIsNoLarger(a: set<Text>, b: set<Text>)
    requires a <= b
    ensures |a| <= |b|
  {
    SplitKeys(a, b);
  }

  /** With ids left and nothing nested, no registration round whose listing is answered fails, and the backend
      answers for every name it accepts. */
  lemma RegistrationStaysOnTrack(cfg: Config, s: State, b: nat)
    requires Inv(cfg, s) && IdsSuffice(cfg, s) && NoneStored(cfg, s)
    requires b < |s.batches| && s.batches[b].phase.Registering?
    requires s.batches[b].phase.next < |s.batches[b].services|
    ensures var s' := RegisterServiceStep(cfg, s, b);
      b < |s'.batches| && (s'.batches[b].phase.Registering? || s'.batches[b].phase.RegisterWriting?)
    ensures AdmittedCall(cfg, s.batches[b]) ==> Enabled(cfg, s, RegisterService(b))
  {
    hide Inv, Unregistered, Durable, SetPhase, Finish, Listed, Nested;
    var m, draft := Durable(cfg, s), s.batches[b].phase.draft;
    var t := s.batches[b].services[s.batches[b].phase.next];
    RegisteringSeeds(cfg, s, b);
    MovesTo(s, b);
    if t !in draft.services {
      NotYetRegistered(cfg, s, b, t);
      var added := draft.services.Keys - m.services.Keys;
      SplitKeys(added + {t}, Unregistered(cfg, s));
      assert |added + {t}| == |added| + 1;
      NotListed(cfg, s, b, t);
    }
  }

  lemma NotYetRegistered(cfg: Config, s: State, b: nat, t: Text)
    requires b < |s.batches| && s.batches[b].phase.Registering?
    requires t in s.batches[b].services && t !in Durable(cfg, s).services
    ensures t in Unregistered(cfg, s)
  {
    assert OnTrack(s.batches[b]);
  }

  lemma NotListed(cfg: Config, s: State, b: nat, t: Text)
    requires Inv(cfg, s) && NoneStored(cfg, s)
    requires b < |s.batches| && s.batches[b].phase.Registering? && t !in s.batches[b].phase.draft.services
    requires t in s.batches[b].services && t !in Durable(cfg, s).services
    ensures !Listed(cfg, s, t)
  {
    hide StoreOk, BatchesOk, Durable, NestedStored, Listed, HoldsService;
    assert StillLists(cfg, s, b, t) by {
      assert StillRegisters(cfg, s, b, t);
      assert HoldsManifest(s.batches[b].phase);
      assert forall c :: 0 <= c < |s.batches| && Drafts(s.batches[c], t) ==> HoldsManifest(s.batches[c].phase);
    }
    ListedIffNested(cfg, s, t);
  }

  lemma SmoothStepStaysOnTrack(cfg: Config, s: State, step: Step, b: nat)
    requires Inv(cfg, s) && IdsSuffice(cfg, s) && NoneStored(cfg, s)
    requires Enabled(cfg, s, step) && Smooth(cfg, s, step) && CallOf(step) == Some(b)
    requires b < |s.batches| && OnTrack(s.batches[b])
    ensures var s' := Apply(cfg, s, step);
      b < |s'.batches| && (OnTrack(s'.batches[b]) || s'.batches[b].phase.Acked?)
  {
    hide Inv, IdsSuffice, NoneStored, NewBatch, RegisterOne, Overlay, BuildAll, Listed, Durable, AllBuildable,
      SetPhase, Finish;
    MovesTo(s, b);
    if step.RegisterService? {
      RegistrationStaysOnTrack(cfg, s, b);
      hide Enabled, RegisterServiceStep;
    } else {
      hide RegisterServiceStep;
    }
  }

  /** `m'` adds to `m` only services still to register, and spends one id on each. */
  ghost predicate Registers(m: Manifest, m': Manifest, unregistered: set<Text>) {
    && m.services.Keys <= m'.services.Keys
    && m'.services.Keys - m.services.Keys <= unregistered
    && m'.nextServiceId == m.nextServiceId + |m'.services.Keys - m.services.Keys|
  }

  lemma RegistersNothing(m: Manifest, m': Manifest, unregistered: set<Text>)
    requires m'.services.Keys == m.services.Keys && m'.nextServiceId == m.nextServiceId
    ensures Registers(m, m', unregistered)
  {
    assert m'.services.Keys - m.services.Keys == {};
  }

  lemma SmoothStepRegisters(cfg: Config, s: State, step: Step)
    requires Inv(cfg, s) && Enabled(cfg, s, step) && Smooth(cfg, s, step)
    ensures Registers(Durable(cfg, s), Durable(cfg, Apply(cfg, s, step)), Unregistered(cfg, s))
  {
    hide Inv, Unregistered, Registers, Enabled, Apply;
    match step {
      case WriteRegistration(b, _) =>
        WritesDraft(cfg, s, step, b);
        RegisteringSeeds(cfg, s, b);
      case WriteCommit(b, _) =>
        WritesDraft(cfg, s, step, b);
        CommitKeepsKeys(cfg, s, b);
        RegistersNothing(Durable(cfg, s), s.batches[b].phase.draft, Unregistered(cfg, s));
      case _ =>
        OtherStepsOrUpload(cfg, s, step);
        RegistersNothing(Durable(cfg, s), Durable(cfg, s), Unregistered(cfg, s));
    }
  }

  lemma WritesDraft(cfg: Config, s: State, step: Step, b: nat)
    requires Enabled(cfg, s, step) && CallOf(step) == Some(b)
    requires step == WriteRegistration(b, WriteDone) || step == WriteCommit(b, WriteDone)
    ensures b < |s.batches|
    ensures if step.WriteCommit? then s.batches[b].phase.CommitWriting? else s.batches[b].phase.RegisterWriting?
    ensures Durable(cfg, Apply(cfg, s, step)) == s.batches[b].phase.draft
  {
    hide SetPhase, Listed;
  }

  lemma OtherStepsOrUpload(cfg: Config, s: State, step: Step)
    requires Enabled(cfg, s, step) && !step.WriteRegistration? && !step.WriteCommit?
    ensures Apply(cfg, s, step).manifest == s.manifest
  {
    if step.FinishUpload? {
    } else {
      hide Enabled, Apply;
      OtherStepsKeepBackend(cfg, s, step);
    }
  }

  lemma CommitKeepsKeys(cfg: Config, s: State, b: nat)
    requires Inv(cfg, s) && b < |s.batches| && s.batches[b].phase.CommitWriting?
    ensures s.batches[b].phase.draft.services.Keys == Durable(cfg, s).services.Keys
    ensures s.batches[b].phase.draft.nextServiceId == Durable(cfg, s).nextServiceId
  {
    hide LocksOk, StoreOk, ShapeOk, BuiltOk, AllStored, SeedCurrent;
    assert BatchOk(cfg, Durable(cfg, s), s.chunks, s.indexes, s.batches[b]);
    BuiltLengths(cfg, s.batches[b].phase.seed, s.batches[b].buckets, s.batches[b].phase.built);
    SeedKeys(Durable(cfg, s), s.batches[b].phase.seed, ServicesIn(s.batches[b].buckets));
    OverlayKeepsIds(Durable(cfg, s), s.batches[b].phase.seed, s.batches[b].phase.built);
  }

  lemma SeedKeys(m: Manifest, seed: Manifest, services: set<Text>)
    requires SeedCurrent(m, seed, services)
    ensures services <= m.services.Keys && services <= seed.services.Keys
  {
  }

  lemma UnregisteredShrinks(cfg: Config, s: State, step: Step)
    requires Inv(cfg, s) && Enabled(cfg, s, step) && Smooth(cfg, s, step)
    ensures var s' := Apply(cfg, s, step);
      Unregistered(cfg, s') <= Unregistered(cfg, s) - (Durable(cfg, s').services.Keys - Durable(cfg, s).services.Keys)
  {
    hide Inv, Durable, Apply, OnTrack, SameCall;
    var s' := Apply(cfg, s, step);
    SmoothStepRegisters(cfg, s, step);
    var b := CallOf(step).value;
    CallMoves(cfg, s, step, b);
    hide Enabled;
    TrackOnlyEnds(cfg, s, step, b);
    forall t | t in Unregistered(cfg, s') ensures t in Unregistered(cfg, s) {
      var c :| 0 <= c < |s'.batches| && OnTrack(s'.batches[c]) && t in s'.batches[c].services;
      assert OnTrack(s.batches[c]) && t in s.batches[c].services by {
        SameServices(s.batches[b], s'.batches[b]);
      }
    }
  }

  lemma SameServices(x: Batch, y: Batch)
    requires SameCall(x, y)
    ensures x.services == y.services
  {
  }

  /** A call off track never gets back on it. */
  lemma TrackOnlyEnds(cfg: Config, s: State, step: Step, b: nat)
    requires Enabled(cfg, s, step) && CallOf(step) == Some(b)
    ensures b < |s.batches| && b < |Apply(cfg, s, step).batches|
    ensures OnTrack(Apply(cfg, s, step).batches[b]) ==> OnTrack(s.batches[b])
  {
    hide NewBatch, RegisterOne, Overlay, BuildAll, Listed, Durable, AllBuildable, SetPhase, Finish;
    CallIsRunning(cfg, s, step, b);
    MovesTo(s, b);
    if OnTrack(s.batches[b]) {
      hide Enabled, Apply;
      CallMoves(cfg, s, step, b);
    }
  }

  lemma SmoothStepKeepsRoom(cfg: Config, s: State, step: Step)
    requires Inv(cfg, s) && Enabled(cfg, s, step) && Smooth(cfg, s, step)
    ensures IdsSuffice(cfg, s) ==> IdsSuffice(cfg, Apply(cfg, s, step))
  {
    hide Inv, Enabled, Apply, Durable, Unregistered;
    var s' := Apply(cfg, s, step);
    SmoothStepRegisters(cfg, s, step);
    UnregisteredShrinks(cfg, s, step);
    var added := Durable(cfg, s').services.Keys - Durable(cfg, s).services.Keys;
    SubsetIsNoLarger(Unregistered(cfg, s'), Unregistered(cfg, s) - added);
    SplitKeys(added, Unregistered(cfg, s));
  }

  /** A call on track after the step was so before, with the same services, and `t` was as unregistered. */
  lemma StillToRegister(cfg: Config, s: State, step: Step, b: nat, t: Text)
    requires Inv(cfg, s) && Enabled(cfg, s, step) && Smooth(cfg, s, step)
    requires var s' := Apply(cfg, s, step); b < |s'.batches| && t in s'.batches[b].services
    ensures b < |s.batches| && t in s.batches[b].services
    ensures OnTrack(Apply(cfg, s, step).batches[b]) ==> OnTrack(s.batches[b])
    ensures !Finished(Apply(cfg, s, step).batches[b].phase) ==> !Finished(s.batches[b].phase)
    ensures t !in Durable(cfg, Apply(cfg, s, step)).services ==> t !in Durable(cfg, s).services
  {
    hide Inv, Enabled, Apply, Durable, OnTrack, Unregistered, Smooth;
    NoArrival(cfg, s, step);
    SmoothStepRegisters(cfg, s, step);
    var c := CallOf(step).value;
    CallMoves(cfg, s, step, c);
    TrackOnlyEnds(cfg, s, step, c);
  }

  /** What a call stores belongs to its services, and it has registered them. */
  lemma StoresOwn(cfg: Config, s: State, step: Step, r: ChunkRef)
    requires Inv(cfg, s) && Enabled(cfg, s, step)
    requires r in Apply(cfg, s, step).indexes && r !in s.indexes
    ensures step.FinishUpload? && step.b < |s.batches| && r.service in s.batches[step.b].services
    ensures !Finished(s.batches[step.b].phase)
    ensures forall t :: t in s.batches[step.b].services ==> t in Durable(cfg, s).services
  {
    hide LocksOk, StoreOk, ShapeOk, BuiltOk, UploadsOk, NewBatch, RegisterOne, Overlay, BuildAll, Listed, AllBuildable,
      CanPut, CanList;
    if step.FinishUpload? {
      var m, batch := Durable(cfg, s), s.batches[step.b];
      assert BatchOk(cfg, m, s.chunks, s.indexes, batch);
      BuiltServices(cfg, m, batch, batch.phase.seed, batch.phase.built, step.i);
      ShapeServices(cfg, batch);
    } else if !step.WriteRegistration? && !step.WriteCommit? {
      hide Enabled, Apply;
      OtherStepsKeepBackend(cfg, s, step);
    }
  }

  /** Nothing drafted is lost again while nothing fails. */
  lemma DraftsStay(cfg: Config, s: State, step: Step, c: nat, t: Text)
    requires Inv(cfg, s) && IdsSuffice(cfg, s) && NoneStored(cfg, s)
    requires Enabled(cfg, s, step) && Smooth(cfg, s, step)
    requires c < |s.batches| && Drafts(s.batches[c], t)
    ensures var s' := Apply(cfg, s, step);
      c < |s'.batches| && (Drafts(s'.batches[c], t) || t in Durable(cfg, s').services)
  {
    hide Inv, IdsSuffice, NoneStored, NewBatch, RegisterOne, Overlay, BuildAll, Listed, AllBuildable, SetPhase, Finish,
      CanPut, CanList;
    if CallOf(step) == Some(c) {
      MovesTo(s, c);
      if step.RegisterService? {
        RegistrationStaysOnTrack(cfg, s, c);
        RoundKeepsDraft(cfg, s, c, t);
      }
    } else {
      hide Enabled, Apply;
      CallMoves(cfg, s, step, CallOf(step).value);
    }
  }

  lemma RoundKeepsDraft(cfg: Config, s: State, c: nat, t: Text)
    requires c < |s.batches| && s.batches[c].phase.Registering? && Drafts(s.batches[c], t)
    requires s.batches[c].phase.next < |s.batches[c].services|
    requires var s' := RegisterServiceStep(cfg, s, c);
      c < |s'.batches| && (s'.batches[c].phase.Registering? || s'.batches[c].phase.RegisterWriting?)
    ensures Drafts(RegisterServiceStep(cfg, s, c).batches[c], t)
  {
    hide Listed;
  }

  lemma StillToList(cfg: Config, s: State, step: Step, b: nat, t: Text)
    requires Inv(cfg, s) && IdsSuffice(cfg, s) && NoneStored(cfg, s)
    requires Enabled(cfg, s, step) && Smooth(cfg, s, step)
    requires StillLists(cfg, Apply(cfg, s, step), b, t)
    ensures StillLists(cfg, s, b, t)
  {
    hide Inv, Enabled, Apply, Durable, OnTrack, Smooth, IdsSuffice, NoneStored, Drafts;
    StillToRegister(cfg, s, step, b, t);
    forall c: nat | c < |s.batches| ensures !Drafts(s.batches[c], t) {
      if Drafts(s.batches[c], t) { DraftsStay(cfg, s, step, c, t); }
    }
  }

  lemma SmoothStepNestsNothing(cfg: Config, s: State, step: Step)
    requires Inv(cfg, s) && IdsSuffice(cfg, s) && NothingNested(cfg, s)
    requires Enabled(cfg, s, step) && Smooth(cfg, s, step)
    ensures NothingNested(cfg, Apply(cfg, s, step))
  {
    hide Inv, Enabled, Apply, Durable, Nested, Smooth, IdsSuffice, StillLists;
    var s' := Apply(cfg, s, step);
    if cfg.listing.ByPrefix? {
      forall b: nat, t | StillLists(cfg, s', b, t)
        ensures !NestedStored(cfg, s'.indexes, t) && NestedInNoOther(s', b, t)
      {
        StillToList(cfg, s, step, b, t);
        StillNestsNothing(cfg, s, step, b, t);
      }
      assert forall b, t :: StillLists(cfg, s', b, t) ==> b >= 0 by { CallsAreNat(cfg, s'); }
    }
  }

  lemma CallsAreNat(cfg: Config, s: State)
    ensures forall b, t :: StillLists(cfg, s, b, t) ==> 0 <= b < |s.batches|
  {
  }

  lemma StillNestsNothing(cfg: Config, s: State, step: Step, b: nat, t: Text)
    requires Inv(cfg, s) && Enabled(cfg, s, step) && Smooth(cfg, s, step)
    requires StillLists(cfg, s, b, t) && StillLists(cfg, Apply(cfg, s, step), b, t)
    requires !NestedStored(cfg, s.indexes, t) && NestedInNoOther(s, b, t)
    ensures !NestedStored(cfg, Apply(cfg, s, step).indexes, t) && NestedInNoOther(Apply(cfg, s, step), b, t)
  {
    hide Inv, Enabled, Apply, Durable, Nested, OnTrack, Smooth, Drafts;
    var s' := Apply(cfg, s, step);
    if cfg.listing.ByPrefix? {
      forall r | r in s'.indexes ensures !Nested(t, r.service) {
        if r !in s.indexes { StoresOwn(cfg, s, step, r); }
      }
    }
    forall c, u | 0 <= c < |s'.batches| && c != b && !Finished(s'.batches[c].phase) && u in s'.batches[c].services
      ensures !Nested(t, u)
    {
      StillToRegister(cfg, s, step, c, u);
    }
  }

  lemma SmoothStepAdmits(cfg: Config, s: State, step: Step)
    requires Inv(cfg, s) && Enabled(cfg, s, step) && Smooth(cfg, s, step)
    requires AllAdmitted(cfg, s)
    ensures AllAdmitted(cfg, Apply(cfg, s, step))
  {
    hide Inv, Enabled, Apply, Durable, OnTrack, Admits, Smooth;
    var s' := Apply(cfg, s, step);
    forall b: nat, t | b < |s'.batches| && OnTrack(s'.batches[b]) && t in s'.batches[b].services
      ensures Admits(cfg.listing, t)
    {
      StillToRegister(cfg, s, step, b, t);
      assert AdmittedCall(cfg, s.batches[b]);
    }
  }

  // ---- Runs in which nothing fails ----

  ghost predicate SmoothNext(cfg: Config, s: State, s': State) {
    exists step :: Enabled(cfg, s, step) && Smooth(cfg, s, step) && s' == Apply(cfg, s, step)
  }

  /** Every step succeeds, and no new call arrives. */
  ghost predicate IsSmooth(cfg: Config, run: seq<State>) {
    run != [] && forall i :: 0 <= i < |run| - 1 ==> SmoothNext(cfg, run[i], run[i + 1])
  }

  lemma SmoothStepAt(cfg: Config, run: seq<State>, i: nat) returns (step: Step)
    requires IsSmooth(cfg, run) && 0 < i < |run|
    ensures Enabled(cfg, run[i - 1], step) && Smooth(cfg, run[i - 1], step) && run[i] == Apply(cfg, run[i - 1], step)
  {
    hide Enabled, Apply, Smooth;
    assert SmoothNext(cfg, run[i - 1], run[i - 1 + 1]);
    step :| Enabled(cfg, run[i - 1], step) && Smooth(cfg, run[i - 1], step) && run[i] == Apply(cfg, run[i - 1], step);
  }

  /** Every call on track in `s` is on track or acknowledged in `s'`. */
  ghost predicate KeepsTrack(s: State, s': State) {
    && |s.batches| <= |s'.batches|
    && (forall c :: 0 <= c < |s.batches| && OnTrack(s.batches[c]) ==>
          OnTrack(s'.batches[c]) || s'.batches[c].phase.Acked?)
    && (forall c :: 0 <= c < |s.batches| && s.batches[c].phase.Acked? ==> s'.batches[c].phase.Acked?)
  }

  lemma KeepsTrackTransitive(s: State, s': State, s'': State)
    requires KeepsTrack(s, s') && KeepsTrack(s', s'')
    ensures KeepsTrack(s, s'')
  {
    hide OnTrack;
  }

  lemma SmoothStepKeepsTrack(cfg: Config, s: State, step: Step)
    requires Inv(cfg, s) && IdsSuffice(cfg, s) && NoneStored(cfg, s)
    requires Enabled(cfg, s, step) && Smooth(cfg, s, step)
    ensures KeepsTrack(s, Apply(cfg, s, step))
  {
    hide Inv, IdsSuffice, NoneStored, Apply, OnTrack, SameCall;
    var s' := Apply(cfg, s, step);
    var b := CallOf(step).value;
    CallMoves(cfg, s, step, b);
    hide Enabled;
    forall c | 0 <= c < |s.batches| && OnTrack(s.batches[c])
      ensures OnTrack(s'.batches[c]) || s'.batches[c].phase.Acked?
    {
      if c == b { SmoothStepStaysOnTrack(cfg, s, step, b); }
    }
  }

  /** Whatever the order of steps, while nothing fails no call goes off track. */
  lemma {:induction false} SmoothRunKeepsTrack(cfg: Config, run: seq<State>, i: nat)
    requires cfg.libs.Lawful()
    requires IsSmooth(cfg, run) && i < |run| && Reachable(cfg, run[0])
    requires IdsSuffice(cfg, run[0]) && NothingNested(cfg, run[0])
    ensures Reachable(cfg, run[i]) && IdsSuffice(cfg, run[i]) && NothingNested(cfg, run[i])
    ensures AllAdmitted(cfg, run[0]) ==> AllAdmitted(cfg, run[i])
    ensures KeepsTrack(run[0], run[i])
    ensures i + TotalWork(run[i].batches) <= TotalWork(run[0].batches)
  {
    hide IsSmooth, Reachable, Inv, Enabled, Apply, Libs.Lawful, TotalWork, IdsSuffice, NoneStored, NoneElsewhere,
      AllAdmitted, Smooth, OnTrack;
    if i > 0 {
      SmoothRunKeepsTrack(cfg, run, i - 1);
      var step := SmoothStepAt(cfg, run, i);
      var s := run[i - 1];
      ReachableInv(cfg, s);
      ReachableStep(cfg, s, step);
      SmoothStepKeepsRoom(cfg, s, step);
      SmoothStepNestsNothing(cfg, s, step);
      if AllAdmitted(cfg, s) { SmoothStepAdmits(cfg, s, step); }
      SmoothStepKeepsTrack(cfg, s, step);
      KeepsTrackTransitive(run[0], s, run[i]);
      NoArrival(cfg, s, step);
      StepLowersWork(cfg, s, step);
    }
  }

  lemma NoArrival(cfg: Config, s: State, step: Step)
    requires Smooth(cfg, s, step)
    ensures !step.Begin?
  {
  }

  /** No step is left in which nothing fails. */
  ghost predicate Exhausted(cfg: Config, s: State) {
    forall step :: Smooth(cfg, s, step) ==> !Enabled(cfg, s, step)
  }

  /** Every run in which nothing fails is finite, and once it cannot go on every call that was under way
      without a failed upload has been acknowledged. */
  lemma SmoothRunsAcknowledge(cfg: Config, run: seq<State>)
    requires cfg.libs.Lawful()
    requires IsSmooth(cfg, run) && Reachable(cfg, run[0])
    requires IdsSuffice(cfg, run[0]) && NothingNested(cfg, run[0]) && AllAdmitted(cfg, run[0])
    ensures |run| <= TotalWork(run[0].batches) + 1
    ensures Exhausted(cfg, run[|run| - 1]) ==> Completes(cfg, run[0], run)
  {
    hide Reachable, Libs.Lawful, TotalWork, IdsSuffice, NothingNested, AllAdmitted, OnTrack, SmoothNext;
    var last := run[|run| - 1];
    SmoothRunKeepsTrack(cfg, run, |run| - 1);
    if Exhausted(cfg, last) {
      ExhaustedIsFinished(cfg, last);
      FinishedIsAcked(run[0], last);
    }
  }

  lemma ExhaustedIsFinished(cfg: Config, s: State)
    requires cfg.libs.Lawful() && Reachable(cfg, s) && AllAdmitted(cfg, s) && Exhausted(cfg, s)
    ensures AllFinished(s)
  {
    hide Reachable, Libs.Lawful, AdmittedCall, OnTrack, Enabled, Smooth;
    forall b: nat | b < |s.batches| ensures Finished(s.batches[b].phase) {
      if !Finished(s.batches[b].phase) {
        var step := NeverStuck(cfg, s, b);
        assert false;
      }
    }
  }

  /** From `s`, without a failure and within the work left, `run` acknowledges every call on track and
      ends every other. */
  ghost predicate Completes(cfg: Config, s: State, run: seq<State>) {
    && IsSmooth(cfg, run) && run[0] == s
    && |run| <= TotalWork(s.batches) + 1
    && AllFinished(run[|run| - 1])
    && AllAcked(s, run[|run| - 1])
  }

  ghost predicate AllAcked(s: State, s': State) {
    && |s.batches| <= |s'.batches|
    && (forall c :: 0 <= c < |s.batches| && OnTrack(s.batches[c]) ==> s'.batches[c].phase.Acked?)
  }

  lemma SmoothExtends(cfg: Config, run: seq<State>, step: Step)
    requires IsSmooth(cfg, run)
    requires Enabled(cfg, run[|run| - 1], step) && Smooth(cfg, run[|run| - 1], step)
    ensures IsSmooth(cfg, run + [Apply(cfg, run[|run| - 1], step)])
  {
    hide Enabled, Apply, Smooth;
    var longer := run + [Apply(cfg, run[|run| - 1], step)];
    forall i | 0 <= i < |longer| - 1 ensures SmoothNext(cfg, longer[i], longer[i + 1]) {
      if i < |run| - 1 { assert SmoothNext(cfg, run[i], run[i + 1]); }
    }
  }

  /** Any run in which nothing failed so far can be continued until every call has returned. */
  lemma {:induction false} SmoothRunContinues(cfg: Config, run: seq<State>) returns (full: seq<State>)
    requires cfg.libs.Lawful()
    requires IsSmooth(cfg, run) && Reachable(cfg, run[0])
    requires IdsSuffice(cfg, run[0]) && NothingNested(cfg, run[0]) && AllAdmitted(cfg, run[0])
    ensures run <= full && Completes(cfg, run[0], full)
    decreases TotalWork(run[0].batches) + 1 - |run|
  {
    hide Reachable, Libs.Lawful, TotalWork, IdsSuffice, NothingNested, AdmittedCall, Enabled, Apply, Smooth, IsSmooth,
      OnTrack;
    assert run != [] by { SmoothIsNonEmpty(cfg, run); }
    var last := run[|run| - 1];
    SmoothRunKeepsTrack(cfg, run, |run| - 1);
    if AllFinished(last) {
      full := run;
      FinishedIsAcked(run[0], last);
    } else {
      var b: nat :| b < |last.batches| && !Finished(last.batches[b].phase);
      var step := NeverStuck(cfg, last, b);
      SmoothExtends(cfg, run, step);
      var longer := run + [Apply(cfg, last, step)];
      SmoothRunKeepsTrack(cfg, longer, |longer| - 1);
      full := SmoothRunContinues(cfg, longer);
    }
  }

  lemma SmoothIsNonEmpty(cfg: Config, run: seq<State>)
    requires IsSmooth(cfg, run)
    ensures run != []
  {
  }

  lemma FinishedIsAcked(s: State, s': State)
    requires KeepsTrack(s, s') && AllFinished(s')
    ensures AllAcked(s, s')
  {
  }

  // ---- The ids are needed ----

  /** One id was spent on each added service. */
  ghost predicate Grows(m: Manifest, m': Manifest) {
    && m.services.Keys <= m'.services.Keys
    && m'.nextServiceId == m.nextServiceId + |m'.services.Keys - m.services.Keys|
  }

  lemma GrowsReflexive(m: Manifest)
    ensures Grows(m, m)
  {
    assert m.services.Keys - m.services.Keys == {};
  }

  lemma GrowsTransitive(m: Manifest, m': Manifest, m'': Manifest, unregistered: set<Text>)
    requires Grows(m, m') && Registers(m', m'', unregistered)
    ensures Grows(m, m'')
  {
    var a, b, c := m.services.Keys, m'.services.Keys, m''.services.Keys;
    assert c - a == (b - a) + (c - b);
  }

  lemma SameCallsReflexive(batches: seq<Batch>)
    ensures forall c :: 0 <= c < |batches| ==> SameCall(batches[c], batches[c])
  {
  }

  lemma SameCallsTransitive(x: seq<Batch>, y: seq<Batch>, z: seq<Batch>)
    requires |x| <= |y| <= |z|
    requires forall c :: 0 <= c < |x| ==> SameCall(x[c], y[c])
    requires forall c :: 0 <= c < |y| ==> SameCall(y[c], z[c])
    ensures forall c :: 0 <= c < |x| ==> SameCall(x[c], z[c])
  {
  }

  lemma {:induction false} SmoothRunRegisters(cfg: Config, run: seq<State>, i: nat)
    requires cfg.libs.Lawful()
    requires IsSmooth(cfg, run) && i < |run| && Reachable(cfg, run[0])
    ensures Reachable(cfg, run[i])
    ensures Grows(Durable(cfg, run[0]), Durable(cfg, run[i]))
    ensures |run[0].batches| <= |run[i].batches|
    ensures forall c :: 0 <= c < |run[0].batches| ==> SameCall(run[0].batches[c], run[i].batches[c])
  {
    hide IsSmooth, Reachable, Inv, Enabled, Apply, Libs.Lawful, Durable, Unregistered, Smooth, SameCall, Grows, Registers;
    if i == 0 {
      GrowsReflexive(Durable(cfg, run[0]));
      SameCallsReflexive(run[0].batches);
    } else {
      SmoothRunRegisters(cfg, run, i - 1);
      var step := SmoothStepAt(cfg, run, i);
      ReachableInv(cfg, run[i - 1]);
      ReachableStep(cfg, run[i - 1], step);
      SmoothStepRegisters(cfg, run[i - 1], step);
      SameCallsAfter(cfg, run[i - 1], step);
      SameCallsTransitive(run[0].batches, run[i - 1].batches, run[i].batches);
      GrowsTransitive(Durable(cfg, run[0]), Durable(cfg, run[i - 1]), Durable(cfg, run[i]), Unregistered(cfg, run[i - 1]));
    }
  }

  lemma IdsAreNeeded(cfg: Config, s: State, run: seq<State>)
    requires cfg.libs.Lawful() && Reachable(cfg, s)
    requires Completes(cfg, s, run)
    ensures IdsSuffice(cfg, s)
  {
    hide Reachable, Libs.Lawful, TotalWork, AllAckedOk, SmoothNext, OnTrack, Admits, SameCall, Grows;
    var last := run[|run| - 1];
    var m, m' := Durable(cfg, s), Durable(cfg, last);
    SmoothRunRegisters(cfg, run, |run| - 1);
    hide IsSmooth;
    ReachableAcked(cfg, last);
    forall t | t in Unregistered(cfg, s) ensures t in m'.services.Keys - m.services.Keys {
      var c :| 0 <= c < |s.batches| && OnTrack(s.batches[c]) && t in s.batches[c].services;
      SameServices(s.batches[c], last.batches[c]);
      AckedIsRegistered(cfg, last, c, t);
    }
    SubsetIsNoLarger(Unregistered(cfg, s), m'.services.Keys - m.services.Keys);
    ReachableStore(cfg, last);
    GrewWithinIds(m, m');
  }

  lemma GrewWithinIds(m: Manifest, m': Manifest)
    requires Grows(m, m') && IdsOk(m')
    ensures m.nextServiceId + |m'.services.Keys - m.services.Keys| < U32_LIMIT
  {
  }

  lemma AckedIsRegistered(cfg: Config, s: State, c: nat, t: Text)
    requires cfg.libs.Lawful() && Reachable(cfg, s)
    requires c < |s.batches| && s.batches[c].phase.Acked? && t in s.batches[c].services
    ensures t in Durable(cfg, s).services
  {
    hide Reachable, Libs.Lawful, LocksOk, StoreOk, PhaseOk;
    ReachableInv(cfg, s);
    ReachableAcked(cfg, s);
    assert BatchOk(cfg, Durable(cfg, s), s.chunks, s.indexes, s.batches[c]);
    ShapeServices(cfg, s.batches[c]);
    assert AckedOk(cfg.libs, Durable(cfg, s), s.chunks, s.batches[c]);
  }

  lemma NamesAreNeeded(cfg: Config, s: State, run: seq<State>)
    requires cfg.libs.Lawful() && Reachable(cfg, s)
    requires Completes(cfg, s, run)
    ensures AllAdmitted(cfg, s)
  {
    hide Reachable, Libs.Lawful, TotalWork, SmoothNext, OnTrack, Admits, SameCall, Grows;
    var last := run[|run| - 1];
    SmoothRunRegisters(cfg, run, |run| - 1);
    hide IsSmooth;
    ReachableNames(cfg, last);
    forall b | 0 <= b < |s.batches| && OnTrack(s.batches[b]) ensures AdmittedCall(cfg, s.batches[b]) {
      assert NamesOk(cfg, last.batches[b]);
      assert SameCall(s.batches[b], last.batches[b]);
      SameNames(cfg, s.batches[b], last.batches[b]);
    }
  }

  // ---- What is stored must not be in the way ----

  lemma Uncontained(cfg: Config, s: State, b: nat, t: Text)
    requires cfg.libs.Lawful() && Reachable(cfg, s)
    requires b < |s.batches| && NestedStored(cfg, s.indexes, t)
    requires t !in Durable(cfg, s).services && !Drafts(s.batches[b], t)
    ensures LostBatch(cfg, s.batches[b], t)
  {
    hide Reachable, Libs.Lawful, LocksOk, StoreOk, NestedStored, BuiltOk, ChunkBatch, GoodBuckets, AddsOnly, OnlyAddsFresh,
      AllStored, IsStored, Durable;
    ReachableInv(cfg, s);
    var batch := s.batches[b];
    assert BatchOk(cfg, Durable(cfg, s), s.chunks, s.indexes, batch);
    ShapeServices(cfg, batch);
    if batch.phase.CommitWriting? { CommitKeepsKeys(cfg, s, b); }
    if batch.phase.Acked? && t in batch.services { AckedIsRegistered(cfg, s, b, t); }
  }

  /** Once the listing finds another service's chunks before it is asked about `t`, no call that touches `t`
      is ever acknowledged. */
  lemma StoredIsFinal(cfg: Config, run: seq<State>, i: nat, b: nat, t: Text)
    requires cfg.libs.Lawful()
    requires IsRun(cfg, run) && i < |run| && Reachable(cfg, run[0])
    requires StillLists(cfg, run[0], b, t) && NestedStored(cfg, run[0].indexes, t)
    ensures b < |run[i].batches| ==> t !in run[i].batches[b].services || !run[i].batches[b].phase.Acked?
  {
    hide Reachable, Libs.Lawful, IsRun, Listed, NestedStored, Drafts, LostBatch, OnTrack;
    var s := run[0];
    forall c: nat | c < |s.batches| ensures LostBatch(cfg, s.batches[c], t) { Uncontained(cfg, s, c, t); }
    ReachableStore(cfg, s);
    ListedIffNested(cfg, s, t);
    ContainedAlongRun(cfg, run, i, t);
    if b < |run[i].batches| { LostNotAcked(cfg, run[i].batches[b], t); }
  }

  lemma LostNotAcked(cfg: Config, batch: Batch, t: Text)
    requires LostBatch(cfg, batch, t)
    ensures t in batch.services ==> !batch.phase.Acked?
  {
  }

  lemma SmoothIsRun(cfg: Config, run: seq<State>)
    requires IsSmooth(cfg, run)
    ensures IsRun(cfg, run)
  {
    hide Enabled, Apply, Smooth;
    forall i | 0 <= i < |run| - 1 ensures Next(cfg, run[i], run[i + 1]) {
      assert SmoothNext(cfg, run[i], run[i + 1]);
    }
  }

  lemma NothingStoredIsNeeded(cfg: Config, s: State, run: seq<State>)
    requires cfg.libs.Lawful() && Reachable(cfg, s)
    requires Completes(cfg, s, run)
    ensures NoneStored(cfg, s)
  {
    hide Reachable, Libs.Lawful, TotalWork, IsSmooth, OnTrack, SameCall, Grows, NestedStored, Drafts, IsRun;
    SmoothIsRun(cfg, run);
    assert |run| > 0 by { SmoothIsNonEmpty(cfg, run); }
    SmoothRunRegisters(cfg, run, |run| - 1);
    forall b, t | StillLists(cfg, s, b, t) ensures !NestedStored(cfg, s.indexes, t) {
      if NestedStored(cfg, s.indexes, t) {
        StoredIsFinal(cfg, run, |run| - 1, b, t);
        SameServices(s.batches[b], run[|run| - 1].batches[b]);
        assert false;
      }
    }
  }

  /** Whatever else is under way, nothing less will do. */
  lemma CompletingNeeds(cfg: Config, s: State, run: seq<State>)
    requires cfg.libs.Lawful() && Reachable(cfg, s)
    requires Completes(cfg, s, run)
    ensures IdsSuffice(cfg, s) && AllAdmitted(cfg, s) && NoneStored(cfg, s)
  {
    hide *;
    IdsAreNeeded(cfg, s, run);
    NamesAreNeeded(cfg, s, run);
    NothingStoredIsNeeded(cfg, s, run);
  }
}
