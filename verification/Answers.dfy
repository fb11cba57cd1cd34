/** What a query returns, from the archived records alone: which ones, how often, in which order, and when it
    fails. */
module Answers {
  import opened Core
  import opened Ordering
  import opened Builder
  import opened Pruning
  import opened Chunking
  import opened Windows
  import opened Index
  import opened Sealing
  import opened Archive
  import opened Protocol
  import opened Safety
  import opened Reading
  import opened Runs
  import opened ReadBack

  // ---- Which records ----

  /** Everything the archive holds: service by service, each in chain order. */
  ghost function Contents(libs: Libs, m: Manifest, chunks: Chunks, services: seq<Text>): seq<LogRecord> {
    if services == [] then []
    else
      var n := |services| - 1;
      Contents(libs, m, chunks, services[..n]) + Flatten(History(libs, m, chunks, services[n]))
  }

  lemma {:induction false} FilterPicks(libs: Libs, records: seq<LogRecord>, q: IndexQuery)
    ensures Picks(FilterRecords(libs, records, q), records, (r: LogRecord) => AskedFor(libs, r, q))
  {
    hide Picks, AskedFor, RecordMatches;
    var wanted := (r: LogRecord) => AskedFor(libs, r, q);
    if records == [] {
      PicksNothing(wanted);
    } else {
      var n := |records| - 1;
      FilterPicks(libs, records[..n], q);
      MatchesIffAskedFor(libs, records[n], q);
      PicksSnoc(FilterRecords(libs, records[..n], q), records[..n], wanted, records[n]);
      Unsnoc(records);
    }
  }

  lemma {:induction false} AllRefsDecode(cfg: Config, m: Manifest, chunks: Chunks, services: seq<Text>)
    requires forall s :: s in services ==> s in m.services
    ensures Flatten(DecodeAll(cfg.libs, Fetched(chunks, AllRefs(m, services)))) ==
      Contents(cfg.libs, m, chunks, services)
  {
    hide Fetched, DecodeAll;
    if services == [] {
      NothingDecoded(cfg.libs, chunks);
    } else {
      var n := |services| - 1;
      Unsnoc(services);
      AllRefsDecode(cfg, m, chunks, services[..n]);
      var front, last := AllRefs(m, services[..n]), m.services[services[n]].chunks;
      FetchedConcat(chunks, front, last);
      DecodeAllConcat(cfg.libs, Fetched(chunks, front), Fetched(chunks, last));
      FlattenConcat(DecodeAll(cfg.libs, Fetched(chunks, front)), DecodeAll(cfg.libs, Fetched(chunks, last)));
    }
  }

  ghost predicate ReadsArchived(get: ChunkReads, m: Manifest, chunks: Chunks) {
    forall n, s, r :: s in m.services && r in m.services[s].chunks ==> get(n, r) == GetChunk(chunks, r)
  }

  lemma AllIsRead(cfg: Config, m: Manifest, chunks: Chunks, indexes: Indexes, get: ChunkReads)
    requires StoreOk(cfg, m, chunks, indexes) && ReadsArchived(get, m, chunks)
    ensures ReadRecords(cfg.libs, AllRefs(m, SortedServices(m)), get) ==
      Ok(Contents(cfg.libs, m, chunks, SortedServices(m)))
  {
    hide StoreOk, ReadRecords, AllRefs, Contents, OpenChunk, Flatten, Fetched, DecodeAll, SortedServices;
    var services := SortedServices(m);
    assert forall s :: s in services ==> s in m.services;
    var refs := AllRefs(m, services);
    AllRefsMember(m, services);
    ConsistentOpens(cfg, m, chunks, indexes);
    AllAreRead(cfg.libs, m, chunks, refs, get);
    ReadRecordsDecodes(cfg.libs, chunks, refs, get);
    AllRefsDecode(cfg, m, chunks, services);
  }

  lemma AllAreRead(libs: Libs, m: Manifest, chunks: Chunks, refs: seq<ChunkRef>, get: ChunkReads)
    requires ReferencedOpen(libs, m, chunks) && ReadsArchived(get, m, chunks)
    requires forall r :: r in refs ==> exists s :: s in m.services && r in m.services[s].chunks
    ensures AllOpen(libs, chunks, refs) && ReadsStored(get, chunks, refs)
  {
    hide OpenChunk;
  }

  /** The full scan returns exactly the records asked for, as often as they are archived, in archive order. */
  lemma ScanPicks(cfg: Config, m: Manifest, chunks: Chunks, indexes: Indexes, q: IndexQuery, get: ChunkReads)
    requires StoreOk(cfg, m, chunks, indexes) && ReadsArchived(get, m, chunks)
    ensures FullScan(cfg, m, q, get).Ok?
    ensures Picks(FullScan(cfg, m, q, get).value, Contents(cfg.libs, m, chunks, SortedServices(m)),
      (r: LogRecord) => AskedFor(cfg.libs, r, q))
  {
    hide StoreOk, ReadsArchived, Picks, AskedFor, FilterRecords, ReadRecords, AllRefs, Contents, SortedServices;
    AllIsRead(cfg, m, chunks, indexes, get);
    FilterPicks(cfg.libs, Contents(cfg.libs, m, chunks, SortedServices(m)), q);
  }

  /** Unless pruning can lose something, a query of a consistent archive returns exactly the records asked for,
      as often as they are archived: services in increasing order, each in chain order. */
  lemma AnswerPicks(cfg: Config, asked: nat, m: Manifest, chunks: Chunks, indexes: Indexes, q: IndexQuery,
    indexReads: IndexReads, chunkReads: ChunkReads, services: seq<Text>)
    requires cfg.libs.Lawful() && LosesNothing(cfg.windowSecs, asked, q)
    requires StoreOk(cfg, m, chunks, indexes)
    requires ReadsOf(m, chunks, indexes, indexReads, chunkReads)
    requires Enumerates(services, m.services.Keys, TextLt)
    ensures QueryResult(Queried(cfg, asked), m, q, indexReads, chunkReads).Ok?
    ensures Picks(QueryResult(Queried(cfg, asked), m, q, indexReads, chunkReads).value,
      Contents(cfg.libs, m, chunks, services), (r: LogRecord) => AskedFor(cfg.libs, r, q))
  {
    hide EntriesOk, IdsOk, Registered, Picks, AskedFor, QueryResult, FullScan, Contents, LosesNothing, Libs.Lawful;
    TextLtStrictTotal();
    EnumerationUnique(services, SortedServices(m), m.services.Keys, TextLt);
    QueryIsFullScan(cfg, asked, m, chunks, indexes, q, indexReads, chunkReads);
    ScanPicks(cfg, m, chunks, indexes, q, chunkReads);
  }

  /** `x` is archived. */
  ghost predicate Archived(libs: Libs, m: Manifest, chunks: Chunks, x: LogRecord) {
    exists t :: t in m.services && x in Flatten(History(libs, m, chunks, t))
  }

  lemma {:induction false} ContentsMember(libs: Libs, m: Manifest, chunks: Chunks, services: seq<Text>, x: LogRecord)
    ensures x in Contents(libs, m, chunks, services) <==>
      exists t :: t in services && x in Flatten(History(libs, m, chunks, t))
  {
    hide History, Flatten;
    if services != [] {
      Unsnoc(services);
      ContentsMember(libs, m, chunks, services[..|services| - 1], x);
    }
  }

  /** A record is returned exactly when it is archived and asked for. */
  lemma ReturnedIffAskedFor(cfg: Config, asked: nat, m: Manifest, chunks: Chunks, indexes: Indexes, q: IndexQuery,
    indexReads: IndexReads, chunkReads: ChunkReads, x: LogRecord)
    requires cfg.libs.Lawful() && LosesNothing(cfg.windowSecs, asked, q)
    requires StoreOk(cfg, m, chunks, indexes)
    requires ReadsOf(m, chunks, indexes, indexReads, chunkReads)
    ensures QueryResult(Queried(cfg, asked), m, q, indexReads, chunkReads).Ok?
    ensures x in QueryResult(Queried(cfg, asked), m, q, indexReads, chunkReads).value <==>
      Archived(cfg.libs, m, chunks, x) && AskedFor(cfg.libs, x, q)
  {
    hide StoreOk, Picks, AskedFor, QueryResult, Contents, LosesNothing, Libs.Lawful, ReadsOf, History, Flatten;
    var services := SortedServices(m);
    AnswerPicks(cfg, asked, m, chunks, indexes, q, indexReads, chunkReads, services);
    PicksMember(QueryResult(Queried(cfg, asked), m, q, indexReads, chunkReads).value,
      Contents(cfg.libs, m, chunks, services), (r: LogRecord) => AskedFor(cfg.libs, r, q), x);
    ContentsMember(cfg.libs, m, chunks, services, x);
  }

  const NO_FILTER := IndexQuery(None, None, None, None, None, None)

  /** Which records a query returns of those archived. */
  ghost predicate Returns(cfg: Config, asked: nat, m: Manifest, q: IndexQuery, indexReads: IndexReads,
    chunkReads: ChunkReads, x: LogRecord) {
    var r := QueryResult(Queried(cfg, asked), m, q, indexReads, chunkReads);
    r.Ok? && x in r.value
  }

  /** What each filter returns by itself, of an archived record `x`. Only `since` needs a window that reaches. */
  lemma EachFilterAlone(cfg: Config, asked: nat, m: Manifest, chunks: Chunks, indexes: Indexes,
    indexReads: IndexReads, chunkReads: ChunkReads, x: LogRecord, text: Text, t: Instant)
    requires cfg.libs.Lawful() && StoreOk(cfg, m, chunks, indexes)
    requires ReadsOf(m, chunks, indexes, indexReads, chunkReads)
    requires Archived(cfg.libs, m, chunks, x)
    ensures Returns(cfg, asked, m, NO_FILTER, indexReads, chunkReads, x)
    ensures Returns(cfg, asked, m, NO_FILTER.(service := Some(text)), indexReads, chunkReads, x) <==> x.service == text
    ensures Returns(cfg, asked, m, NO_FILTER.(level := Some(text)), indexReads, chunkReads, x) <==> x.level == Some(text)
    ensures Returns(cfg, asked, m, NO_FILTER.(host := Some(text)), indexReads, chunkReads, x) <==> x.host == Some(text)
    ensures Returns(cfg, asked, m, NO_FILTER.(until := Some(t)), indexReads, chunkReads, x) <==> x.timestamp <= t
    ensures Reaches(cfg.windowSecs, asked) ==>
      (Returns(cfg, asked, m, NO_FILTER.(since := Some(t)), indexReads, chunkReads, x) <==> x.timestamp >= t)
    ensures Returns(cfg, asked, m, NO_FILTER.(keyword := Some(text)), indexReads, chunkReads, x) <==>
      forall w :: WordOf(cfg.libs, text, w) ==> WordIn(cfg.libs, x.raw, w)
  {
    hide StoreOk, QueryResult, Reaches, Libs.Lawful, ReadsOf, Archived, WordOf, WordIn;
    ReturnedIffAskedFor(cfg, asked, m, chunks, indexes, NO_FILTER, indexReads, chunkReads, x);
    ReturnedIffAskedFor(cfg, asked, m, chunks, indexes, NO_FILTER.(service := Some(text)), indexReads, chunkReads, x);
    ReturnedIffAskedFor(cfg, asked, m, chunks, indexes, NO_FILTER.(level := Some(text)), indexReads, chunkReads, x);
    ReturnedIffAskedFor(cfg, asked, m, chunks, indexes, NO_FILTER.(host := Some(text)), indexReads, chunkReads, x);
    ReturnedIffAskedFor(cfg, asked, m, chunks, indexes, NO_FILTER.(until := Some(t)), indexReads, chunkReads, x);
    ReturnedIffAskedFor(cfg, asked, m, chunks, indexes, NO_FILTER.(keyword := Some(text)), indexReads, chunkReads, x);
    if Reaches(cfg.windowSecs, asked) {
      ReturnedIffAskedFor(cfg, asked, m, chunks, indexes, NO_FILTER.(since := Some(t)), indexReads, chunkReads, x);
    }
  }

  /** For example, the line `{"msg": s}` is found by every word of `s`. */
  lemma FieldIsFound(libs: Libs, name: Text, s: Text, t: Text)
    requires WordOf(libs, s, t)
    ensures WordIn(libs, Object([(name, String(s))]), t)
  {
    hide WordOf;
    var v := Object([(name, String(s))]);
    assert [0][1..] == [];
    assert StandsIn(String(s), s, []) && StandsIn(v, s, [0]);
  }

  // ---- Acknowledged records are found ----

  lemma {:induction false} BucketsOfMember(buckets: seq<Bucket>, b: Bucket, s: Text)
    requires b in buckets && b.service == s
    ensures b in BucketsOf(buckets, s)
  {
    var n := |buckets| - 1;
    Unsnoc(buckets);
    if b != buckets[n] { BucketsOfMember(buckets[..n], b, s); }
  }

  lemma {:induction false} FlattenHas(buckets: seq<Bucket>, b: Bucket, r: LogRecord)
    requires b in buckets && r in b.records
    ensures r in Flatten(buckets)
  {
    var n := |buckets| - 1;
    Unsnoc(buckets);
    if b != buckets[n] { FlattenHas(buckets[..n], b, r); }
  }

  /** In every reachable state, what was acknowledged is archived. */
  lemma AckedIsArchived(cfg: Config, s: State, b: nat, x: LogRecord)
    requires cfg.libs.Lawful() && Reachable(cfg, s)
    requires b < |s.batches| && s.batches[b].phase.Acked? && x in s.batches[b].records
    ensures Archived(cfg.libs, Durable(cfg, s), s.chunks, x)
  {
    hide Libs.Lawful, Reachable, LocksOk, StoreOk, PhaseOk, GoodBuckets, Enumerates, ChunkBatch, BucketsOf, OpenChunk,
      Flatten, Durable;
    ReachableInv(cfg, s);
    ReachableAcked(cfg, s);
    var m, batch := Durable(cfg, s), s.batches[b];
    assert BatchOk(cfg, m, s.chunks, s.indexes, batch);
    BucketsConserveRecords(cfg, batch.records);
    assert x in multiset(Flatten(batch.buckets));
    FlattenMember(batch.buckets, x);
    var bucket :| bucket in batch.buckets && x in bucket.records;
    var t := bucket.service;
    assert AckedOk(cfg.libs, m, s.chunks, batch);
    assert InPlace(cfg.libs, m, s.chunks, batch.phase.seed, batch.phase.built, batch.buckets, t);
    BucketsOfMember(batch.buckets, bucket, t);
    PlacedInHistory(cfg.libs, m, s.chunks, batch.phase.seed, batch.phase.built, batch.buckets, t, bucket);
    FlattenHas(History(cfg.libs, m, s.chunks, t), bucket, x);
  }

  lemma PlacedInHistory(libs: Libs, m: Manifest, chunks: Chunks, seed: Manifest, built: Built, buckets: seq<Bucket>,
    t: Text, b: Bucket)
    requires InPlace(libs, m, chunks, seed, built, buckets, t) && b in BucketsOf(buckets, t)
    ensures b in History(libs, m, chunks, t)
  {
    hide Decode;
    var refs, all, n := NewRefs(built, t), m.services[t].chunks, |seed.services[t].chunks|;
    var i :| 0 <= i < |refs| && DecodeAll(libs, Fetched(chunks, refs))[i] == b;
    assert all[n + i] == (seed.services[t].chunks + refs)[n + i] == refs[i];
    assert History(libs, m, chunks, t)[n + i] == b;
  }

  /** In every reachable state, a query that asks for an acknowledged record returns it, unless pruning can
      lose something. */
  lemma AckedIsReturned(cfg: Config, asked: nat, s: State, b: nat, x: LogRecord, q: IndexQuery,
    indexReads: IndexReads, chunkReads: ChunkReads)
    requires cfg.libs.Lawful() && LosesNothing(cfg.windowSecs, asked, q) && Reachable(cfg, s)
    requires b < |s.batches| && s.batches[b].phase.Acked? && x in s.batches[b].records
    requires ReadsOf(Durable(cfg, s), s.chunks, s.indexes, indexReads, chunkReads)
    ensures Returns(cfg, asked, Durable(cfg, s), q, indexReads, chunkReads, x) <==> AskedFor(cfg.libs, x, q)
  {
    hide Libs.Lawful, Reachable, StoreOk, LosesNothing, ReadsOf, QueryResult, AskedFor, Archived, Durable;
    ReachableStore(cfg, s);
    AckedIsArchived(cfg, s, b, x);
    ReturnedIffAskedFor(cfg, asked, Durable(cfg, s), s.chunks, s.indexes, q, indexReads, chunkReads, x);
  }

  // ---- When a query fails ----

  /** The `n`-th index read is the first to fail. */
  ghost predicate FirstIndexFailure(refs: seq<ChunkRef>, get: IndexReads, n: nat) {
    n < |refs| && get(n, refs[n]).Err? && forall k: nat :: k < n ==> get(k, refs[k]).Ok?
  }

  /** The prefilter fails exactly when the index of some candidate cannot be read, with the first such error. */
  lemma {:induction false} PrefilterFailsIff(libs: Libs, refs: seq<ChunkRef>, q: IndexQuery, get: IndexReads)
    ensures Surviving(libs, refs, q, get).Ok? <==> forall k: nat :: k < |refs| ==> get(k, refs[k]).Ok?
    ensures forall n: nat :: FirstIndexFailure(refs, get, n) ==> Surviving(libs, refs, q, get) == Err(get(n, refs[n]).error)
  {
    hide MightMatch;
    if refs != [] {
      var n := |refs| - 1;
      PrefilterFailsIff(libs, refs[..n], q, get);
      forall k: nat | k < n ensures refs[..n][k] == refs[k] {
      }
      forall k: nat | FirstIndexFailure(refs, get, k) && k < n
        ensures Surviving(libs, refs, q, get) == Err(get(k, refs[k]).error)
      {
        assert FirstIndexFailure(refs[..n], get, k);
      }
    }
  }

  /** The `n`-th candidate's index was read and might match. */
  ghost predicate Survives(libs: Libs, refs: seq<ChunkRef>, q: IndexQuery, get: IndexReads, n: nat) {
    n < |refs| && get(n, refs[n]).Ok? && MightMatch(libs, get(n, refs[n]).value, q)
  }

  ghost predicate Survivors(libs: Libs, refs: seq<ChunkRef>, q: IndexQuery, get: IndexReads, kept: seq<ChunkRef>,
    at: seq<nat>) {
    && |at| == |kept|
    && (forall i, j :: 0 <= i < j < |at| ==> at[i] < at[j])
    && (forall i :: 0 <= i < |at| ==> at[i] < |refs| && kept[i] == refs[at[i]])
    && (forall n: nat :: n in at <==> Survives(libs, refs, q, get, n))
  }

  lemma SurvivesInPrefix(libs: Libs, refs: seq<ChunkRef>, q: IndexQuery, get: IndexReads, n: nat)
    requires n <= |refs|
    ensures forall k: nat :: Survives(libs, refs[..n], q, get, k) <==> k < n && Survives(libs, refs, q, get, k)
  {
    hide MightMatch;
  }

  lemma OneMoreSurvivor(libs: Libs, refs: seq<ChunkRef>, q: IndexQuery, get: IndexReads, kept: seq<ChunkRef>,
    at: seq<nat>, n: nat)
    requires |refs| == n + 1 && Survivors(libs, refs[..n], q, get, kept, at) && Survives(libs, refs, q, get, n)
    ensures Survivors(libs, refs, q, get, kept + [refs[n]], at + [n])
  {
    SurvivesInPrefix(libs, refs, q, get, n);
    hide Survives;
    var at' := at + [n];
    forall k: nat ensures k in at' <==> Survives(libs, refs, q, get, k) {
      assert k in at <==> Survives(libs, refs[..n], q, get, k);
      if k > n { BeyondEnd(libs, refs, q, get, k); }
    }
  }

  lemma NoMoreSurvivor(libs: Libs, refs: seq<ChunkRef>, q: IndexQuery, get: IndexReads, kept: seq<ChunkRef>,
    at: seq<nat>, n: nat)
    requires |refs| == n + 1 && Survivors(libs, refs[..n], q, get, kept, at) && !Survives(libs, refs, q, get, n)
    ensures Survivors(libs, refs, q, get, kept, at)
  {
    SurvivesInPrefix(libs, refs, q, get, n);
    hide Survives;
    forall k: nat ensures k in at <==> Survives(libs, refs, q, get, k) {
      assert k in at <==> Survives(libs, refs[..n], q, get, k);
      if k > n { BeyondEnd(libs, refs, q, get, k); }
    }
  }

  lemma BeyondEnd(libs: Libs, refs: seq<ChunkRef>, q: IndexQuery, get: IndexReads, k: nat)
    requires k >= |refs|
    ensures !Survives(libs, refs, q, get, k)
  {
  }

  /** It keeps the candidates whose indexes might match, in their order. */
  lemma {:induction false} PrefilterKeeps(libs: Libs, refs: seq<ChunkRef>, q: IndexQuery, get: IndexReads)
    returns (at: seq<nat>)
    requires Surviving(libs, refs, q, get).Ok?
    ensures Survivors(libs, refs, q, get, Surviving(libs, refs, q, get).value, at)
  {
    hide MightMatch, Survivors;
    if refs == [] {
      at := [];
      NoneSurvives(libs, q, get);
    } else {
      var n := |refs| - 1;
      at := PrefilterKeeps(libs, refs[..n], q, get);
      var front := Surviving(libs, refs[..n], q, get).value;
      if Survives(libs, refs, q, get, n) {
        OneMoreSurvivor(libs, refs, q, get, front, at, n);
        at := at + [n];
      } else {
        NoMoreSurvivor(libs, refs, q, get, front, at, n);
        assert front + [] == front;
      }
    }
  }

  lemma NoneSurvives(libs: Libs, q: IndexQuery, get: IndexReads)
    ensures Survivors(libs, [], q, get, [], [])
  {
  }

  ghost predicate Opens(libs: Libs, refs: seq<ChunkRef>, get: ChunkReads, n: nat)
    requires n < |refs|
  {
    get(n, refs[n]).Ok? && OpenChunk(libs, get(n, refs[n]).value).Ok?
  }

  function OpeningError(libs: Libs, refs: seq<ChunkRef>, get: ChunkReads, n: nat): Option<Error>
    requires n < |refs|
  {
    match get(n, refs[n])
    case Err(e) => Some(e)
    case Ok(c) => match OpenChunk(libs, c) case Err(e) => Some(e) case Ok(_) => None
  }

  ghost predicate FirstOpeningFailure(libs: Libs, refs: seq<ChunkRef>, get: ChunkReads, n: nat) {
    n < |refs| && !Opens(libs, refs, get, n) && forall k: nat :: k < n ==> Opens(libs, refs, get, k)
  }

  /** Fetching fails exactly when some chunk cannot be read or opened, with the first such error. */
  lemma {:induction false} FetchFailsIff(libs: Libs, refs: seq<ChunkRef>, get: ChunkReads)
    ensures ReadRecords(libs, refs, get).Ok? <==> forall k: nat :: k < |refs| ==> Opens(libs, refs, get, k)
    ensures forall n: nat :: FirstOpeningFailure(libs, refs, get, n) ==>
      OpeningError(libs, refs, get, n).Some? &&
      ReadRecords(libs, refs, get) == Err(OpeningError(libs, refs, get, n).value)
  {
    hide OpenChunk;
    if refs != [] {
      var n := |refs| - 1;
      FetchFailsIff(libs, refs[..n], get);
      forall k: nat | k < n ensures Opens(libs, refs[..n], get, k) <==> Opens(libs, refs, get, k) {
      }
      var front := ReadRecords(libs, refs[..n], get);
      if front.Err? {
        var k: nat :| k < n && !Opens(libs, refs[..n], get, k);
        assert !Opens(libs, refs, get, k);
      }
      assert ReadRecords(libs, refs, get).Ok? <==> front.Ok? && Opens(libs, refs, get, n);
      forall k: nat | FirstOpeningFailure(libs, refs, get, k) && k < n
        ensures OpeningError(libs, refs, get, k).Some?
        ensures ReadRecords(libs, refs, get) == Err(OpeningError(libs, refs, get, k).value)
      {
        assert FirstOpeningFailure(libs, refs[..n], get, k);
      }
    }
  }

  /** A query fails exactly when the index of a candidate cannot be read, or a chunk that survives cannot be
      read or opened. Nothing is ever left out in silence. */
  lemma QueryFailsIff(cfg: Config, m: Manifest, q: IndexQuery, indexReads: IndexReads, chunkReads: ChunkReads)
    ensures var refs := Candidates(cfg, m, SortedServices(m), q);
      QueryResult(cfg, m, q, indexReads, chunkReads).Ok? <==>
        && (forall n: nat :: n < |refs| ==> indexReads(n, refs[n]).Ok?)
        && Surviving(cfg.libs, refs, q, indexReads).Ok?
        && (var kept := Surviving(cfg.libs, refs, q, indexReads).value;
            forall n: nat :: n < |kept| ==> Opens(cfg.libs, kept, chunkReads, n))
  {
    hide Candidates, Surviving, ReadRecords, FilterRecords, Opens;
    var refs := Candidates(cfg, m, SortedServices(m), q);
    PrefilterFailsIff(cfg.libs, refs, q, indexReads);
    if Surviving(cfg.libs, refs, q, indexReads).Ok? {
      FetchFailsIff(cfg.libs, Surviving(cfg.libs, refs, q, indexReads).value, chunkReads);
    }
  }

  // ---- What is looked at ----

  lemma {:induction false} FilterRefsPicks(libs: Libs, windowSecs: nat, refs: seq<ChunkRef>, q: IndexQuery)
    ensures Picks(FilterRefs(libs, windowSecs, refs, q), refs,
      (r: ChunkRef) => WindowMightOverlap(libs, r.window, windowSecs, q.since, q.until))
  {
    hide Picks, WindowMightOverlap;
    var wanted := (r: ChunkRef) => WindowMightOverlap(libs, r.window, windowSecs, q.since, q.until);
    if refs == [] {
      PicksNothing(wanted);
    } else {
      var n := |refs| - 1;
      FilterRefsPicks(libs, windowSecs, refs[..n], q);
      PicksSnoc(FilterRefs(libs, windowSecs, refs[..n], q), refs[..n], wanted, refs[n]);
      Unsnoc(refs);
    }
  }

  /** A reference is a candidate exactly when its service and its window may be asked for. */
  lemma {:induction false} CandidateIff(cfg: Config, m: Manifest, services: seq<Text>, q: IndexQuery, r: ChunkRef)
    requires forall t :: t in services ==> t in m.services
    ensures r in Candidates(cfg, m, services, q) <==>
      && WindowMightOverlap(cfg.libs, r.window, cfg.windowSecs, q.since, q.until)
      && (exists t :: t in services && (q.service.Some? ==> q.service.value == t) && r in m.services[t].chunks)
  {
    hide FilterRefs, Picks, WindowMightOverlap;
    if services != [] {
      var n := |services| - 1;
      Unsnoc(services);
      CandidateIff(cfg, m, services[..n], q, r);
      var refs := m.services[services[n]].chunks;
      FilterRefsPicks(cfg.libs, cfg.windowSecs, refs, q);
      PicksMember(FilterRefs(cfg.libs, cfg.windowSecs, refs, q), refs,
        (x: ChunkRef) => WindowMightOverlap(cfg.libs, x.window, cfg.windowSecs, q.since, q.until), r);
    }
  }
}
