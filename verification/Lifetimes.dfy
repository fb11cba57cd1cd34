/** An archive over many process lifetimes, each ended by a crash or a stop at any moment. */
module Lifetimes {
  import opened Core
  import opened Sealing
  import opened Archive
  import opened Protocol
  import opened Safety
  import opened Reading
  import opened Runs
  import opened Serial
  import opened ReadBack

  /** One run per process; each starts from what the one before it left on the backend. */
  ghost predicate IsLifetime(cfg: Config, lives: seq<seq<State>>) {
    && (forall k :: 0 <= k < |lives| ==> IsRun(cfg, lives[k]))
    && (forall k :: 0 <= k < |lives| ==> Begins(cfg, lives, k))
  }

  ghost predicate Begins(cfg: Config, lives: seq<seq<State>>, k: nat)
    requires k < |lives|
  {
    && lives[k] != []
    && if k == 0 then AtRest(cfg, lives[0][0])
       else lives[k - 1] != [] && lives[k][0] == Restarted(LastOf(lives[k - 1]))
  }

  function LastOf(run: seq<State>): State
    requires run != []
  {
    run[|run| - 1]
  }

  /** Every process starts at rest: no crash, at whatever step, leaves an inconsistent archive. */
  lemma {:induction false} EveryLifeStartsAtRest(cfg: Config, lives: seq<seq<State>>, k: nat)
    requires cfg.libs.Lawful()
    requires IsLifetime(cfg, lives) && k < |lives|
    ensures lives[k] != [] && AtRest(cfg, lives[k][0])
    decreases k
  {
    hide AtRest, IsRun, Libs.Lawful, Reachable;
    assert Begins(cfg, lives, k);
    if k > 0 {
      EveryLifeStartsAtRest(cfg, lives, k - 1);
      var before := lives[k - 1];
      EndReachable(cfg, before, |before| - 1);
      RestartIsAtRest(cfg, LastOf(before));
    }
  }

  lemma EndReachable(cfg: Config, run: seq<State>, i: nat)
    requires IsRun(cfg, run) && i < |run| && AtRest(cfg, run[0])
    ensures Reachable(cfg, run[i])
  {
    hide AtRest, Next;
    var part := run[..i + 1];
    forall j | 0 <= j < |part| - 1 ensures Next(cfg, part[j], part[j + 1]) {
      assert Next(cfg, run[j], run[j + 1]);
    }
    assert IsRun(cfg, part) && AtRest(cfg, part[0]) && part[|part| - 1] == run[i];
  }

  ghost predicate Kept(cfg: Config, s: State, s': State) {
    Preserved(Durable(cfg, s), s.chunks, s.indexes, Durable(cfg, s'), s'.chunks, s'.indexes)
  }

  lemma KeptTransitive(cfg: Config, s: State, s': State, s'': State)
    requires Kept(cfg, s, s') && Kept(cfg, s', s'')
    ensures Kept(cfg, s, s'')
  {
    hide Preserved, Durable;
    PreservedTransitive(Durable(cfg, s), s.chunks, s.indexes, Durable(cfg, s'), s'.chunks, s'.indexes,
      Durable(cfg, s''), s''.chunks, s''.indexes);
  }

  lemma RestartKeeps(cfg: Config, s: State)
    ensures Kept(cfg, s, Restarted(s))
  {
    hide Preserved;
    PreservedReflexive(Durable(cfg, s), s.chunks, s.indexes);
  }

  lemma KeptInLife(cfg: Config, lives: seq<seq<State>>, k: nat, i: nat, j: nat)
    requires cfg.libs.Lawful()
    requires IsLifetime(cfg, lives) && k < |lives| && i <= j < |lives[k]|
    ensures Kept(cfg, lives[k][i], lives[k][j])
  {
    hide AtRest, IsRun, Libs.Lawful, Reachable, Preserved, Begins;
    EveryLifeStartsAtRest(cfg, lives, k);
    RestReachable(cfg, lives[k][0]);
    RunPreserves(cfg, lives[k], i, j);
  }

  /** From any moment of any life to any later moment of the same or a later one, service ids are permanent,
      refs keep their places, and what they refer to is unchanged. */
  lemma {:induction false} KeptAcrossLives(cfg: Config, lives: seq<seq<State>>, k: nat, i: nat, l: nat, j: nat)
    requires cfg.libs.Lawful()
    requires IsLifetime(cfg, lives) && k <= l < |lives|
    requires i < |lives[k]| && j < |lives[l]| && (k == l ==> i <= j)
    ensures Kept(cfg, lives[k][i], lives[l][j])
    decreases l
  {
    hide IsLifetime, Libs.Lawful, Kept, Begins;
    if k == l {
      KeptInLife(cfg, lives, k, i, j);
    } else {
      LifeFollows(cfg, lives, l);
      var last := |lives[l - 1]| - 1;
      KeptAcrossLives(cfg, lives, k, i, l - 1, last);
      RestartKeeps(cfg, lives[l - 1][last]);
      KeptTransitive(cfg, lives[k][i], lives[l - 1][last], lives[l][0]);
      KeptInLife(cfg, lives, l, 0, j);
      KeptTransitive(cfg, lives[k][i], lives[l][0], lives[l][j]);
    }
  }

  lemma LifeFollows(cfg: Config, lives: seq<seq<State>>, l: nat)
    requires IsLifetime(cfg, lives) && 0 < l < |lives|
    ensures lives[l - 1] != [] && lives[l] != [] && lives[l][0] == Restarted(lives[l - 1][|lives[l - 1]| - 1])
  {
    hide IsRun;
    assert Begins(cfg, lives, l);
  }

  // ---- Acknowledged for ever ----

  lemma PlacedStays(cfg: Config, s: State, s': State, batch: Batch)
    requires batch.phase.Acked? && AckedOk(cfg.libs, Durable(cfg, s), s.chunks, batch)
    requires Kept(cfg, s, s')
    ensures AckedOk(cfg.libs, Durable(cfg, s'), s'.chunks, batch)
  {
    hide InPlace, Preserved, Durable;
    forall t | t in ServicesIn(batch.buckets)
      ensures InPlace(cfg.libs, Durable(cfg, s'), s'.chunks, batch.phase.seed, batch.phase.built, batch.buckets, t)
    {
      StaysInPlace(cfg.libs, Durable(cfg, s), s.chunks, s.indexes, Durable(cfg, s'), s'.chunks, s'.indexes,
        batch.phase.seed, batch.phase.built, batch.buckets, t);
    }
  }

  /** A batch acknowledged in some life can be read back at any later moment of any later life, through any
      number of crashes: its refs are in place, they decode per service to its buckets in order, and reading
      them all gives its records as a multiset. */
  lemma AcknowledgedForever(cfg: Config, lives: seq<seq<State>>, k: nat, i: nat, b: nat, l: nat, j: nat, get: ChunkReads)
    requires cfg.libs.Lawful()
    requires IsLifetime(cfg, lives) && k <= l < |lives|
    requires i < |lives[k]| && j < |lives[l]| && (k == l ==> i <= j)
    requires b < |lives[k][i].batches| && lives[k][i].batches[b].phase.Acked?
    requires forall n, r :: get(n, r) == GetChunk(lives[l][j].chunks, r)
    ensures ReadsBackIn(cfg, lives[k][i].batches[b], lives[l][j], get)
  {
    hide IsLifetime, Libs.Lawful, Kept, Reachable, AtRest, AckedOk, ReadsBackIn, ShapeOk, PhaseOk, LocksOk, StoreOk;
    var s, s', batch := lives[k][i], lives[l][j], lives[k][i].batches[b];
    LifeReachable(cfg, lives, k, i);
    LifeReachable(cfg, lives, l, j);
    ReachableAcked(cfg, s);
    ReachableInv(cfg, s);
    KeptAcrossLives(cfg, lives, k, i, l, j);
    PlacedStays(cfg, s, s', batch);
    ReachableStore(cfg, s');
    assert BatchOk(cfg, Durable(cfg, s), s.chunks, s.indexes, batch);
    ConsistentOpens(cfg, Durable(cfg, s'), s'.chunks, s'.indexes);
    PlacedReadsBack(cfg, s', batch, get);
  }

  lemma LifeReachable(cfg: Config, lives: seq<seq<State>>, k: nat, i: nat)
    requires cfg.libs.Lawful()
    requires IsLifetime(cfg, lives) && k < |lives| && i < |lives[k]|
    ensures Reachable(cfg, lives[k][i])
  {
    hide AtRest, IsRun, Libs.Lawful, Reachable, Begins;
    EveryLifeStartsAtRest(cfg, lives, k);
    EndReachable(cfg, lives[k], i);
  }

  // ---- Histories over all lives ----

  ghost predicate Ends(run: seq<State>) {
    run != [] && CommitsOk(LastOf(run).batches, LastOf(run).commits)
  }

  /** A service's history after the lives: each life's committed batches, one at a time, in turn. */
  ghost function ReplayLives(cfg: Config, start: seq<Bucket>, lives: seq<seq<State>>, t: Text): seq<Bucket>
    requires forall run :: run in lives ==> Ends(run)
  {
    if lives == [] then start
    else
      var n := |lives| - 1;
      assert Ends(lives[n]);
      Replay(cfg, ReplayLives(cfg, start, lives[..n], t), LastOf(lives[n]).batches, LastOf(lives[n]).commits, t)
  }

  lemma LifeSerialized(cfg: Config, lives: seq<seq<State>>, k: nat)
    requires cfg.libs.Lawful()
    requires IsLifetime(cfg, lives) && k < |lives|
    ensures lives[k] != [] && Serialized(cfg, lives[k][0], LastOf(lives[k]))
  {
    hide AtRest, Libs.Lawful, Serialized, Begins, IsRun;
    EveryLifeStartsAtRest(cfg, lives, k);
    RunsAreSerial(cfg, lives[k], |lives[k]| - 1);
  }

  lemma LivesPrefix(cfg: Config, lives: seq<seq<State>>, n: nat)
    requires IsLifetime(cfg, lives) && n <= |lives|
    ensures IsLifetime(cfg, lives[..n])
  {
    hide IsRun, AtRest;
    forall k | 0 <= k < n ensures Begins(cfg, lives[..n], k) {
      assert Begins(cfg, lives, k);
    }
  }

  /** Through any number of crashes, each service's contents are its first history followed by the committed
      batches of all lives, run one at a time in commit order. */
  lemma {:induction false} LivesAreSerial(cfg: Config, lives: seq<seq<State>>, t: Text)
    requires cfg.libs.Lawful()
    requires IsLifetime(cfg, lives) && lives != []
    ensures forall run :: run in lives ==> Ends(run)
    ensures HistoryIn(cfg, LastOf(lives[|lives| - 1]), t) == ReplayLives(cfg, HistoryIn(cfg, lives[0][0], t), lives, t)
    decreases |lives|
  {
    hide IsLifetime, Libs.Lawful, CommitsOk, HistoryIn, Replay, Begins;
    forall run | run in lives ensures Ends(run) {
      var k :| 0 <= k < |lives| && lives[k] == run;
      LifeSerialized(cfg, lives, k);
    }
    var n := |lives| - 1;
    LifeSerialized(cfg, lives, n);
    assert IsReplay(cfg, lives[n][0], LastOf(lives[n]), t);
    if n > 0 {
      LivesPrefix(cfg, lives, n);
      LivesAreSerial(cfg, lives[..n], t);
      LifeFollows(cfg, lives, n);
      RestartKeepsHistory(cfg, LastOf(lives[n - 1]), t);
    } else {
      assert lives[..0] == [];
    }
  }

  lemma RestartKeepsHistory(cfg: Config, s: State, t: Text)
    ensures HistoryIn(cfg, Restarted(s), t) == HistoryIn(cfg, s, t)
  {
    hide History;
  }
}
