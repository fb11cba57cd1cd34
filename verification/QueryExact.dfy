/** Exactly when the index-first query agrees with the full scan. */
module QueryExact {
  import opened Core
  import opened Ordering
  import opened Windows
  import opened Pruning
  import opened Index
  import opened Sealing
  import opened Archive
  import opened Reading
  import opened OneRecord

  ghost function StoredChunks(chunks: Chunks): ChunkReads {
    (n, r) => GetChunk(chunks, r)
  }

  ghost function StoredIndexes(indexes: Indexes): IndexReads {
    (n, r) => GetIndex(indexes, r)
  }

  /** The query of one stored archive, all of it read in one state, with a window of `asked` seconds. */
  ghost predicate QueryAgrees(cfg: Config, asked: nat, m: Manifest, chunks: Chunks, indexes: Indexes, q: IndexQuery) {
    QueryResult(Queried(cfg, asked), m, q, StoredIndexes(indexes), StoredChunks(chunks)) ==
      FullScan(cfg, m, q, StoredChunks(chunks))
  }

  /** The query of every consistent archive is its full scan. */
  ghost predicate AlwaysAgrees(cfg: Config, asked: nat) {
    forall m, chunks, indexes, q :: StoreOk(cfg, m, chunks, indexes) ==> QueryAgrees(cfg, asked, m, chunks, indexes, q)
  }

  // ---- An archive of one record, and a query that misses it ----

  const SERVICE: Text := [97]

  function LostRecord(t: Instant): LogRecord {
    LogRecord(Null, t, SERVICE, None, None, None)
  }

  /** Everything from the record's own instant on. */
  function LostQuery(t: Instant): IndexQuery {
    IndexQuery(Some(t), None, None, None, None, None)
  }

  /** The query skips the record's window although the record matches. */
  lemma LostRecordIsMissed(cfg: Config, asked: nat, t: Instant)
    requires cfg.libs.Lawful() && Dated(cfg.libs, t)
    requires !BoundsContain(cfg.libs, t, cfg.windowSecs, asked)
    ensures var x := LostRecord(t); var chunks, indexes := ChunksOf(cfg, x), IndexesOf(cfg, x);
      && StoreOk(cfg, ManifestOf(cfg, x), chunks, indexes)
      && QueryResult(Queried(cfg, asked), ManifestOf(cfg, x), LostQuery(t), StoredIndexes(indexes),
        StoredChunks(chunks)) == Ok([])
      && FullScan(cfg, ManifestOf(cfg, x), LostQuery(t), StoredChunks(chunks)) == Ok([x])
      && !QueryAgrees(cfg, asked, ManifestOf(cfg, x), chunks, indexes, LostQuery(t))
  {
    hide StoreOk, ManifestOf, ChunksOf, IndexesOf, BoundsContain, OpenChunk, Libs.Lawful, StoredChunks,
      StoredIndexes, WindowOf;
    var x := LostRecord(t);
    ArchiveIsConsistent(cfg, x);
    var m, q, r := ManifestOf(cfg, x), LostQuery(t), RefOf(cfg, x);
    LostWindowIsPruned(cfg, asked, t);
    OneService(cfg, m);
    assert [SERVICE][..0] == [] && [r][..0] == [];
    assert FilterRefs(cfg.libs, asked, [r], q) == [];
    assert Candidates(Queried(cfg, asked), m, [SERVICE], q) == [];
    assert AllRefs(m, [SERVICE]) == [r];
    LostScan(cfg, t);
  }

  lemma OneService(cfg: Config, m: Manifest)
    requires m.services.Keys == {SERVICE}
    ensures SortedServices(m) == [SERVICE]
  {
    TextLtStrictTotal();
    assert Enumerates([SERVICE], {SERVICE}, TextLt);
    EnumerationUnique([SERVICE], SortedServices(m), {SERVICE}, TextLt);
  }

  lemma LostWindowIsPruned(cfg: Config, asked: nat, t: Instant)
    requires cfg.libs.Lawful() && Dated(cfg.libs, t)
    requires !BoundsContain(cfg.libs, t, cfg.windowSecs, asked)
    ensures !WindowMightOverlap(cfg.libs, WindowOf(cfg, LostRecord(t)), asked, Some(t), None)
  {
    hide WindowLabel;
    LabelParses(cfg.libs, t, cfg.windowSecs);
    StartsAfterItsHour(cfg, t);
  }

  lemma StartsAfterItsHour(cfg: Config, t: Instant)
    ensures 3600 * LabelHour(cfg.libs, t, cfg.windowSecs) * NANOS <= t
  {
    var secs := Seconds(t);
    assert 0 <= secs % Span(cfg.windowSecs);
  }

  lemma LostScan(cfg: Config, t: Instant)
    requires RecordsAt(cfg.libs, ChunksOf(cfg, LostRecord(t)), RefOf(cfg, LostRecord(t))) == [LostRecord(t)]
    ensures ReadRecords(cfg.libs, [RefOf(cfg, LostRecord(t))], StoredChunks(ChunksOf(cfg,
      LostRecord(t)))) == Ok([LostRecord(t)])
    ensures FilterRecords(cfg.libs, [LostRecord(t)], LostQuery(t)) == [LostRecord(t)]
  {
    hide WindowOf, BuiltOf, OpenChunk;
    var x := LostRecord(t);
    assert [RefOf(cfg, x)][..0] == [] && [x][..0] == [];
    var get := StoredChunks(ChunksOf(cfg, x));
    assert get(0, RefOf(cfg, x)) == Ok(Fetch(ChunksOf(cfg, x), RefOf(cfg, x)));
    assert ReadRecords(cfg.libs, [], get) == Ok([]);
    assert [] + [x] == [x];
  }

  // ---- The exact conditions ----

  lemma ReachesAgrees(cfg: Config, asked: nat)
    requires cfg.libs.Lawful() && Reaches(cfg.windowSecs, asked)
    ensures AlwaysAgrees(cfg, asked)
  {
    hide StoreOk, QueryResult, FullScan, Reaches, Libs.Lawful;
    forall m, chunks, indexes, q | StoreOk(cfg, m, chunks, indexes) ensures QueryAgrees(cfg, asked, m, chunks, indexes, q) {
      StoreEntriesOk(cfg, m, chunks, indexes);
      QueryIsFullScan(cfg, asked, m, chunks, indexes, q, StoredIndexes(indexes), StoredChunks(chunks));
    }
  }

  /** An archive written with windows of `w` seconds and queried with `q` returns, for every content and every
      query, what the full scan returns exactly when `q` is at least `w + 3600 - gcd(w, 3600)`. */
  lemma QueryExactIffReaches(cfg: Config, asked: nat)
    requires cfg.libs.Lawful() && CoversAllOffsets(cfg.libs, cfg.windowSecs)
    ensures AlwaysAgrees(cfg, asked) <==>
      Span(asked) >= Span(cfg.windowSecs) + 3600 - Gcd(Span(cfg.windowSecs), 3600)
  {
    hide AlwaysAgrees, Libs.Lawful, QueryAgrees, ManifestOf, ChunksOf, IndexesOf, BoundsContain, StoreOk;
    if Reaches(cfg.windowSecs, asked) {
      ReachesAgrees(cfg, asked);
    } else {
      var t := LatestWindowLoses(cfg.libs, cfg.windowSecs, asked);
      LostBreaksAgreement(cfg, asked, t);
    }
  }

  lemma LostBreaksAgreement(cfg: Config, asked: nat, t: Instant)
    requires cfg.libs.Lawful() && Dated(cfg.libs, t)
    requires !BoundsContain(cfg.libs, t, cfg.windowSecs, asked)
    ensures !AlwaysAgrees(cfg, asked)
  {
    hide Libs.Lawful, QueryAgrees, ManifestOf, ChunksOf, IndexesOf, BoundsContain, StoreOk;
    LostRecordIsMissed(cfg, asked, t);
    var x := LostRecord(t);
    assert !QueryAgrees(cfg, asked, ManifestOf(cfg, x), ChunksOf(cfg, x), IndexesOf(cfg, x), LostQuery(t));
  }

  /** Queried as it was written, an archive agrees exactly when its windows are whole hours. */
  lemma QueryExactIffWholeHours(cfg: Config)
    requires cfg.libs.Lawful() && CoversTwoWindows(cfg.libs, cfg.windowSecs)
    ensures AlwaysAgrees(cfg, cfg.windowSecs) <==> Span(cfg.windowSecs) % 3600 == 0
  {
    hide AlwaysAgrees, Libs.Lawful, BoundsContain, Reaches, LostInstant;
    ReachesItselfIffWholeHours(cfg.windowSecs);
    if Span(cfg.windowSecs) % 3600 == 0 {
      ReachesAgrees(cfg, cfg.windowSecs);
    } else {
      PartialHoursLose(cfg.libs, cfg.windowSecs);
      LostBreaksAgreement(cfg, cfg.windowSecs, LostInstant(cfg.windowSecs));
    }
  }

  lemma StoreEntriesOk(cfg: Config, m: Manifest, chunks: Chunks, indexes: Indexes)
    requires StoreOk(cfg, m, chunks, indexes)
    ensures EntriesOk(cfg, m, chunks, indexes)
  {
  }
}
