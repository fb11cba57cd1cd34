/** Queries and verification over a manifest and whatever the backend returns for each reference. */
module Reading {
  import opened Core
  import opened Ordering
  import opened Canonical
  import opened Chain
  import opened Builder
  import opened Windows
  import opened Pruning
  import opened Index
  import opened Sealing
  import opened Archive

  /** What the `n`-th read of a call returns for a reference; `n` lets reads see different states. */
  type ChunkReads = (nat, ChunkRef) -> Result<Chunk, Error>
  type IndexReads = (nat, ChunkRef) -> Result<ServiceWindowIndex, Error>

  function GetChunk(chunks: Chunks, r: ChunkRef): Result<Chunk, Error> {
    if r in chunks then Ok(chunks[r]) else Err(NotFound)
  }

  function GetIndex(indexes: Indexes, r: ChunkRef): Result<ServiceWindowIndex, Error> {
    if r in indexes then Ok(indexes[r]) else Err(NotFound)
  }

  // ---- verify_service ----

  ghost predicate FirstFailure(get: ChunkReads, refs: seq<ChunkRef>, i: nat) {
    && i < |refs|
    && get(i, refs[i]).Err?
    && (forall j :: 0 <= j < i ==> get(j, refs[j]).Ok?)
  }

  ghost predicate AllRead(get: ChunkReads, refs: seq<ChunkRef>) {
    forall i :: 0 <= i < |refs| ==> get(i, refs[i]).Ok?
  }

  ghost function ReadChunks(get: ChunkReads, refs: seq<ChunkRef>): (cs: seq<Chunk>)
    requires AllRead(get, refs)
    ensures |cs| == |refs|
  {
    seq(|refs|, i requires 0 <= i < |refs| => get(i, refs[i]).value)
  }

  /** A chunk that is not found is a missing link; any other read error is passed on. */
  function ReadFailure(position: nat, r: ChunkRef, error: Error): Error {
    if error == NotFound then ChainIntegrity(ChainBreak(position, r.sequence, Missing)) else error
  }

  /** `verify_service` reads every reference under the service it was asked about. */
  ghost function Located(service: Text, refs: seq<ChunkRef>): (located: seq<ChunkRef>)
    ensures |located| == |refs|
  {
    seq(|refs|, i requires 0 <= i < |refs| => refs[i].(service := service))
  }

  /** What `verify_service` returns for a service with a manifest entry. */
  ghost predicate VerifyReports(libs: Libs, service: Text, e: ServiceChain, get: ChunkReads, r: Result<nat, Error>) {
    var refs := Located(service, e.chunks);
    if !AllRead(get, refs) then
      exists i: nat :: FirstFailure(get, refs, i) && r == Err(ReadFailure(i, refs[i], get(i, refs[i]).error))
    else
      var cs := ReadChunks(get, refs);
      if !Accepts(libs.chunkHash, cs) then
        exists b :: Reports(libs.chunkHash, cs, Some(b)) && r == Err(ChainIntegrity(b))
      else if cs != [] && libs.chunkHash(cs[|cs| - 1]) != e.headHash then
        r == Err(ChainIntegrity(ChainBreak(|cs| - 1, cs[|cs| - 1].header.sequence, HeadMismatch)))
      else r == Ok(|cs|)
  }

  lemma VerifyReportsUnique(libs: Libs, service: Text, e: ServiceChain, get: ChunkReads, r: Result<nat, Error>,
    q: Result<nat, Error>)
    requires VerifyReports(libs, service, e, get, r) && VerifyReports(libs, service, e, get, q)
    ensures r == q
  {
    hide Reports, Accepts;
    var refs := Located(service, e.chunks);
    if !AllRead(get, refs) {
      var i: nat :| FirstFailure(get, refs, i) && r == Err(ReadFailure(i, refs[i], get(i, refs[i]).error));
      var j: nat :| FirstFailure(get, refs, j) && q == Err(ReadFailure(j, refs[j], get(j, refs[j]).error));
      assert i == j;
    } else {
      var cs := ReadChunks(get, refs);
      if !Accepts(libs.chunkHash, cs) {
        var b :| Reports(libs.chunkHash, cs, Some(b)) && r == Err(ChainIntegrity(b));
        var d :| Reports(libs.chunkHash, cs, Some(d)) && q == Err(ChainIntegrity(d));
        ReportsUnique(libs.chunkHash, cs, Some(b), Some(d));
      }
    }
  }

  /** Verification returns the same whatever reads agree on the entry's references. */
  lemma VerifyDependsOnReferenced(libs: Libs, service: Text, e: ServiceChain, get: ChunkReads, get': ChunkReads,
    r: Result<nat, Error>)
    requires forall n: nat, x | x in Located(service, e.chunks) :: get(n, x) == get'(n, x)
    requires VerifyReports(libs, service, e, get, r)
    ensures VerifyReports(libs, service, e, get', r)
  {
    hide Reports, Accepts;
    var refs := Located(service, e.chunks);
    forall i: nat | i < |refs| ensures get(i, refs[i]) == get'(i, refs[i]) { assert refs[i] in refs; }
    if AllRead(get, refs) {
      assert AllRead(get', refs) && ReadChunks(get, refs) == ReadChunks(get', refs);
    } else {
      var i: nat :| FirstFailure(get, refs, i) && r == Err(ReadFailure(i, refs[i], get(i, refs[i]).error));
      assert FirstFailure(get', refs, i);
    }
  }

  /** The reads agree with stored chunks on everything the entry refers to. */
  ghost predicate ReadsStored(get: ChunkReads, chunks: Chunks, refs: seq<ChunkRef>) {
    forall n, r :: r in refs ==> get(n, r) == GetChunk(chunks, r)
  }

  /** A consistent entry verifies, and to the full length of its chain. */
  lemma ConsistentEntryVerifies(cfg: Config, s: Text, e: ServiceChain, chunks: Chunks, indexes: Indexes, get: ChunkReads)
    requires EntryOk(cfg, s, e, chunks, indexes)
    requires ReadsStored(get, chunks, e.chunks)
    ensures VerifyReports(cfg.libs, s, e, get, Ok(|e.chunks|))
  {
    hide GoodArchive, Reports;
    forall i | 0 <= i < |e.chunks|
      ensures get(i, e.chunks[i]) == Ok(Fetch(chunks, e.chunks[i])) && e.chunks[i].service == s
    {
      assert RefOk(cfg, e, chunks, indexes, i);
    }
    assert Located(s, e.chunks) == e.chunks;
    assert ReadChunks(get, e.chunks) == Fetched(chunks, e.chunks);
    LinkedIsAccepted(cfg.libs.chunkHash, Fetched(chunks, e.chunks));
  }

  // ---- query ----

  ghost function FilterRefs(libs: Libs, windowSecs: nat, refs: seq<ChunkRef>, q: IndexQuery): seq<ChunkRef> {
    if refs == [] then []
    else
      var n := |refs| - 1;
      FilterRefs(libs, windowSecs, refs[..n], q) +
      if WindowMightOverlap(libs, refs[n].window, windowSecs, q.since, q.until) then [refs[n]] else []
  }

  predicate WantsService(q: IndexQuery, s: Text) {
    q.service.Some? ==> q.service.value == s
  }

  /** Candidates of the listed services, in that order. */
  ghost function Candidates(cfg: Config, m: Manifest, services: seq<Text>, q: IndexQuery): seq<ChunkRef>
    requires forall s :: s in services ==> s in m.services
  {
    if services == [] then []
    else
      var n := |services| - 1;
      Candidates(cfg, m, services[..n], q) +
      if WantsService(q, services[n]) then FilterRefs(cfg.libs, cfg.windowSecs, m.services[services[n]].chunks, q) else []
  }

  /** The prefilter over the candidates' indexes; the first failed read ends it. */
  ghost function Surviving(libs: Libs, refs: seq<ChunkRef>, q: IndexQuery, get: IndexReads): Result<seq<ChunkRef>, Error> {
    if refs == [] then Ok([])
    else
      var n := |refs| - 1;
      match Surviving(libs, refs[..n], q, get)
      case Err(e) => Err(e)
      case Ok(kept) =>
        match get(n, refs[n])
        case Err(e) => Err(e)
        case Ok(ix) => Ok(kept + if MightMatch(libs, ix, q) then [refs[n]] else [])
  }

  ghost function ReadRecords(libs: Libs, refs: seq<ChunkRef>, get: ChunkReads): Result<seq<LogRecord>, Error> {
    if refs == [] then Ok([])
    else
      var n := |refs| - 1;
      match ReadRecords(libs, refs[..n], get)
      case Err(e) => Err(e)
      case Ok(records) =>
        match get(n, refs[n])
        case Err(e) => Err(e)
        case Ok(c) =>
          match OpenChunk(libs, c)
          case Err(e) => Err(e)
          case Ok(more) => Ok(records + more)
  }

  ghost function FilterRecords(libs: Libs, records: seq<LogRecord>, q: IndexQuery): seq<LogRecord> {
    if records == [] then []
    else
      var n := |records| - 1;
      FilterRecords(libs, records[..n], q) + if RecordMatches(libs, records[n], q) then [records[n]] else []
  }

  ghost function SortedServices(m: Manifest): (services: seq<Text>)
    ensures Enumerates(services, m.services.Keys, TextLt)
  {
    TextLtStrictTotal();
    Sorted(m.services.Keys, TextLt)
  }

  /** The index-first query. */
  ghost function QueryResult(cfg: Config, m: Manifest, q: IndexQuery, indexReads: IndexReads,
    chunkReads: ChunkReads): Result<seq<LogRecord>, Error> {
    match Surviving(cfg.libs, Candidates(cfg, m, SortedServices(m), q), q, indexReads)
    case Err(e) => Err(e)
    case Ok(kept) =>
      match ReadRecords(cfg.libs, kept, chunkReads)
      case Err(e) => Err(e)
      case Ok(records) => Ok(FilterRecords(cfg.libs, records, q))
  }

  ghost function AllRefs(m: Manifest, services: seq<Text>): seq<ChunkRef>
    requires forall s :: s in services ==> s in m.services
  {
    if services == [] then []
    else AllRefs(m, services[..|services| - 1]) + m.services[services[|services| - 1]].chunks
  }

  /** Decrypt every chunk the manifest refers to and keep the matching records. */
  ghost function FullScan(cfg: Config, m: Manifest, q: IndexQuery, chunkReads: ChunkReads): Result<seq<LogRecord>, Error> {
    match ReadRecords(cfg.libs, AllRefs(m, SortedServices(m)), chunkReads)
    case Err(e) => Err(e)
    case Ok(records) => Ok(FilterRecords(cfg.libs, records, q))
  }

  // ---- The query agrees with the full scan ----

  lemma FilterRecordsConcat(libs: Libs, a: seq<LogRecord>, b: seq<LogRecord>, q: IndexQuery)
    ensures FilterRecords(libs, a + b, q) == FilterRecords(libs, a, q) + FilterRecords(libs, b, q)
    decreases |b|
  {
    hide RecordMatches;
    if b == [] {
      assert a + b == a;
    } else {
      var n := |b| - 1;
      assert (a + b)[..|a + b| - 1] == a + b[..n];
      FilterRecordsConcat(libs, a, b[..n], q);
    }
  }

  lemma {:induction false} NothingMatches(libs: Libs, records: seq<LogRecord>, q: IndexQuery)
    requires forall r :: r in records ==> !RecordMatches(libs, r, q)
    ensures FilterRecords(libs, records, q) == []
  {
    hide RecordMatches;
    if records != [] {
      var n := |records| - 1;
      assert records[n] in records && forall r :: r in records[..n] ==> r in records;
      NothingMatches(libs, records[..n], q);
    }
  }

  /** The records behind a stored reference. */
  function RecordsAt(libs: Libs, chunks: Chunks, r: ChunkRef): seq<LogRecord> {
    match OpenChunk(libs, Fetch(chunks, r)) case Ok(records) => records case Err(_) => []
  }

  /** The matching records behind a list of references, in order. */
  ghost function Kept(libs: Libs, chunks: Chunks, refs: seq<ChunkRef>, q: IndexQuery): seq<LogRecord> {
    if refs == [] then []
    else
      var n := |refs| - 1;
      Kept(libs, chunks, refs[..n], q) + FilterRecords(libs, RecordsAt(libs, chunks, refs[n]), q)
  }

  lemma {:induction false} KeptConcat(libs: Libs, chunks: Chunks, a: seq<ChunkRef>, b: seq<ChunkRef>, q: IndexQuery)
    ensures Kept(libs, chunks, a + b, q) == Kept(libs, chunks, a, q) + Kept(libs, chunks, b, q)
    decreases |b|
  {
    hide RecordsAt, FilterRecords;
    if b == [] {
      assert a + b == a;
    } else {
      var n := |b| - 1;
      assert (a + b)[..|a + b| - 1] == a + b[..n];
      KeptConcat(libs, chunks, a, b[..n], q);
    }
  }

  /** A reference of a consistent archive. */
  ghost predicate RefStored(cfg: Config, chunks: Chunks, indexes: Indexes, r: ChunkRef) {
    && r in chunks && r in indexes
    && exists id :: GoodArchive(cfg, id, r, chunks[r], indexes[r])
  }

  ghost predicate AllRefsStored(cfg: Config, chunks: Chunks, indexes: Indexes, refs: seq<ChunkRef>) {
    forall r :: r in refs ==> RefStored(cfg, chunks, indexes, r)
  }

  /** Pruning with the asked window can lose nothing: it reaches, or the query has no lower end of time. */
  predicate LosesNothing(writtenSecs: nat, asked: nat, q: IndexQuery) {
    q.since.None? || Reaches(writtenSecs, asked)
  }

  lemma AdmittedNotPruned(libs: Libs, writtenSecs: nat, asked: nat, q: IndexQuery, t: Instant)
    requires libs.Lawful() && LosesNothing(writtenSecs, asked, q)
    requires Dated(libs, t) && TimeMatches(t, q.since, q.until)
    ensures WindowMightOverlap(libs, WindowLabel(libs, t, writtenSecs), asked, q.since, q.until)
  {
    hide Libs.Lawful, Reaches, BoundsContain, WindowMightOverlap, WindowLabel;
    if q.since.None? {
      UntilNeverLoses(libs, t, writtenSecs, asked, q.until);
    } else {
      ReachesContains(libs, t, writtenSecs, asked);
      NeverPrunedIffContained(libs, t, writtenSecs, asked);
    }
  }

  /** A chunk pruned by its window holds no matching record. */
  lemma PrunedByWindow(cfg: Config, asked: nat, chunks: Chunks, indexes: Indexes, r: ChunkRef, q: IndexQuery)
    requires cfg.libs.Lawful() && LosesNothing(cfg.windowSecs, asked, q)
    requires RefStored(cfg, chunks, indexes, r)
    requires !WindowMightOverlap(cfg.libs, r.window, asked, q.since, q.until)
    ensures FilterRecords(cfg.libs, RecordsAt(cfg.libs, chunks, r), q) == []
  {
    hide WindowMightOverlap, WindowLabel, TextTokens, Tokens, IndexOf, DeriveNonce, OpenChunk, Reaches, Libs.Lawful;
    var id :| GoodArchive(cfg, id, r, chunks[r], indexes[r]);
    var records := RecordsAt(cfg.libs, chunks, r);
    forall x | x in records ensures !RecordMatches(cfg.libs, x, q) {
      if RecordMatches(cfg.libs, x, q) { AdmittedNotPruned(cfg.libs, cfg.windowSecs, asked, q, x.timestamp); }
    }
    NothingMatches(cfg.libs, records, q);
  }

  /** A chunk rejected by the prefilter, or of an unwanted service, holds no matching record. */
  lemma PrunedByIndex(cfg: Config, chunks: Chunks, indexes: Indexes, r: ChunkRef, q: IndexQuery)
    requires RefStored(cfg, chunks, indexes, r)
    requires !MightMatch(cfg.libs, indexes[r], q) || !WantsService(q, r.service)
    ensures FilterRecords(cfg.libs, RecordsAt(cfg.libs, chunks, r), q) == []
  {
    hide WindowLabel, TextTokens, Tokens, DeriveNonce, OpenChunk, MightMatch, IndexOf;
    var id :| GoodArchive(cfg, id, r, chunks[r], indexes[r]);
    var records := RecordsAt(cfg.libs, chunks, r);
    forall x | x in records ensures !RecordMatches(cfg.libs, x, q) {
      if RecordMatches(cfg.libs, x, q) {
        PrefilterIsConservative(cfg.libs, r, records, x, q);
      }
    }
    NothingMatches(cfg.libs, records, q);
  }

  lemma {:induction false} FilterRefsKeeps(cfg: Config, asked: nat, chunks: Chunks, indexes: Indexes,
    refs: seq<ChunkRef>, q: IndexQuery)
    requires cfg.libs.Lawful() && LosesNothing(cfg.windowSecs, asked, q)
    requires AllRefsStored(cfg, chunks, indexes, refs)
    ensures Kept(cfg.libs, chunks, FilterRefs(cfg.libs, asked, refs, q), q) == Kept(cfg.libs, chunks, refs, q)
    ensures forall r :: r in FilterRefs(cfg.libs, asked, refs, q) ==> r in refs
  {
    hide RefStored, WindowMightOverlap, FilterRecords, RecordsAt, LosesNothing, Libs.Lawful;
    if refs != [] {
      var n := |refs| - 1;
      Unsnoc(refs);
      FilterRefsKeeps(cfg, asked, chunks, indexes, refs[..n], q);
      var front := FilterRefs(cfg.libs, asked, refs[..n], q);
      if WindowMightOverlap(cfg.libs, refs[n].window, asked, q.since, q.until) {
        assert (front + [refs[n]])[..|front|] == front;
      } else {
        PrunedByWindow(cfg, asked, chunks, indexes, refs[n], q);
        assert front + [] == front;
      }
    }
  }

  lemma {:induction false} UnwantedKeepsNothing(cfg: Config, chunks: Chunks, indexes: Indexes, refs: seq<ChunkRef>,
    q: IndexQuery)
    requires AllRefsStored(cfg, chunks, indexes, refs)
    requires forall r :: r in refs ==> !WantsService(q, r.service)
    ensures Kept(cfg.libs, chunks, refs, q) == []
  {
    hide RefStored, FilterRecords, RecordsAt, WantsService;
    if refs != [] {
      Unsnoc(refs);
      UnwantedKeepsNothing(cfg, chunks, indexes, refs[..|refs| - 1], q);
      PrunedByIndex(cfg, chunks, indexes, refs[|refs| - 1], q);
    }
  }

  lemma EntryRefsStored(cfg: Config, m: Manifest, chunks: Chunks, indexes: Indexes, s: Text)
    requires EntriesOk(cfg, m, chunks, indexes) && s in m.services
    ensures AllRefsStored(cfg, chunks, indexes, m.services[s].chunks)
    ensures forall r :: r in m.services[s].chunks ==> r.service == s
  {
    hide GoodArchive;
    var e := m.services[s];
    assert EntryOk(cfg, s, e, chunks, indexes);
    forall r | r in e.chunks ensures RefStored(cfg, chunks, indexes, r) && r.service == s {
      var i :| 0 <= i < |e.chunks| && e.chunks[i] == r;
      assert RefOk(cfg, e, chunks, indexes, i);
    }
  }

  /** The engine that queries an archive with a window of its own. */
  function Queried(cfg: Config, asked: nat): Config {
    cfg.(windowSecs := asked)
  }

  lemma {:induction false} CandidatesKeep(cfg: Config, asked: nat, m: Manifest, chunks: Chunks, indexes: Indexes,
    services: seq<Text>, q: IndexQuery)
    requires cfg.libs.Lawful() && LosesNothing(cfg.windowSecs, asked, q)
    requires EntriesOk(cfg, m, chunks, indexes)
    requires forall s :: s in services ==> s in m.services
    ensures Kept(cfg.libs, chunks, Candidates(Queried(cfg, asked), m, services, q), q) == Kept(cfg.libs, chunks,
      AllRefs(m, services), q)
    ensures AllRefsStored(cfg, chunks, indexes, Candidates(Queried(cfg, asked), m, services, q))
    ensures AllRefsStored(cfg, chunks, indexes, AllRefs(m, services))
  {
    hide EntriesOk, FilterRefs, Kept, RefStored, LosesNothing, Libs.Lawful;
    if services != [] {
      var n := |services| - 1;
      Unsnoc(services);
      var refs := m.services[services[n]].chunks;
      CandidatesKeep(cfg, asked, m, chunks, indexes, services[..n], q);
      EntryRefsStored(cfg, m, chunks, indexes, services[n]);
      KeptConcat(cfg.libs, chunks, AllRefs(m, services[..n]), refs, q);
      FilterRefsKeeps(cfg, asked, chunks, indexes, refs, q);
      if WantsService(q, services[n]) {
        KeptConcat(cfg.libs, chunks, Candidates(Queried(cfg, asked), m, services[..n], q), FilterRefs(cfg.libs,
          asked, refs, q), q);
      } else {
        UnwantedKeepsNothing(cfg, chunks, indexes, refs, q);
        assert Candidates(Queried(cfg, asked), m, services[..n], q) + [] == Candidates(Queried(cfg, asked), m,
          services[..n], q);
      }
    } else {
      assert AllRefs(m, services) == Candidates(Queried(cfg, asked), m, services, q);
    }
  }

  ghost predicate IndexReadsStored(get: IndexReads, indexes: Indexes, refs: seq<ChunkRef>) {
    forall n, r :: r in refs ==> get(n, r) == GetIndex(indexes, r)
  }

  lemma {:induction false} SurvivingKeeps(cfg: Config, chunks: Chunks, indexes: Indexes, refs: seq<ChunkRef>,
    q: IndexQuery, get: IndexReads)
    requires AllRefsStored(cfg, chunks, indexes, refs)
    requires IndexReadsStored(get, indexes, refs)
    ensures Surviving(cfg.libs, refs, q, get).Ok?
    ensures var kept := Surviving(cfg.libs, refs, q, get).value;
      && Kept(cfg.libs, chunks, kept, q) == Kept(cfg.libs, chunks, refs, q)
      && (forall r :: r in kept ==> r in refs)
  {
    hide RecordsAt, FilterRecords, MightMatch, GoodArchive;
    if refs != [] {
      var n := |refs| - 1;
      Unsnoc(refs);
      SurvivingKeeps(cfg, chunks, indexes, refs[..n], q, get);
      var front := Surviving(cfg.libs, refs[..n], q, get).value;
      assert RefStored(cfg, chunks, indexes, refs[n]);
      if MightMatch(cfg.libs, indexes[refs[n]], q) {
        assert (front + [refs[n]])[..|front|] == front;
      } else {
        PrunedByIndex(cfg, chunks, indexes, refs[n], q);
        assert front + [] == front;
      }
    }
  }

  lemma {:induction false} ReadRecordsKeep(cfg: Config, chunks: Chunks, indexes: Indexes, refs: seq<ChunkRef>,
    q: IndexQuery, get: ChunkReads)
    requires AllRefsStored(cfg, chunks, indexes, refs)
    requires ReadsStored(get, chunks, refs)
    ensures ReadRecords(cfg.libs, refs, get).Ok?
    ensures FilterRecords(cfg.libs, ReadRecords(cfg.libs, refs, get).value, q) == Kept(cfg.libs, chunks, refs, q)
  {
    hide FilterRecords, OpenChunk, IndexOf, DeriveNonce, GoodRecords;
    if refs != [] {
      var n := |refs| - 1;
      Unsnoc(refs);
      ReadRecordsKeep(cfg, chunks, indexes, refs[..n], q, get);
      assert RefStored(cfg, chunks, indexes, refs[n]);
      FilterRecordsConcat(cfg.libs, ReadRecords(cfg.libs, refs[..n], get).value, RecordsAt(cfg.libs, chunks, refs[n]), q);
    } else {
      NothingMatches(cfg.libs, [], q);
    }
  }

  /** The reads of a call agree with one stored archive on everything the manifest refers to. */
  ghost predicate ReadsOf(m: Manifest, chunks: Chunks, indexes: Indexes, indexReads: IndexReads, chunkReads: ChunkReads) {
    && (forall n, s, r :: s in m.services && r in m.services[s].chunks ==> chunkReads(n, r) == GetChunk(chunks, r))
    && (forall n, s, r :: s in m.services && r in m.services[s].chunks ==> indexReads(n, r) == GetIndex(indexes, r))
  }

  lemma {:induction false} AllRefsMember(m: Manifest, services: seq<Text>)
    requires forall s :: s in services ==> s in m.services
    ensures forall r :: r in AllRefs(m, services) ==> exists s :: s in m.services && r in m.services[s].chunks
  {
    if services != [] {
      var n := |services| - 1;
      AllRefsMember(m, services[..n]);
      forall r | r in AllRefs(m, services) ensures exists s :: s in m.services && r in m.services[s].chunks {
        if r !in AllRefs(m, services[..n]) {
          assert services[n] in m.services && r in m.services[services[n]].chunks;
        }
      }
    }
  }

  lemma {:induction false} FilterRefsMember(libs: Libs, windowSecs: nat, refs: seq<ChunkRef>, q: IndexQuery)
    ensures forall r :: r in FilterRefs(libs, windowSecs, refs, q) ==> r in refs
  {
    hide WindowMightOverlap;
    if refs != [] {
      Unsnoc(refs);
      FilterRefsMember(libs, windowSecs, refs[..|refs| - 1], q);
    }
  }

  lemma {:induction false} CandidatesMember(cfg: Config, m: Manifest, services: seq<Text>, q: IndexQuery)
    requires forall s :: s in services ==> s in m.services
    ensures forall r :: r in Candidates(cfg, m, services, q) ==> exists s :: s in m.services && r in m.services[s].chunks
  {
    hide FilterRefs;
    if services != [] {
      var n := |services| - 1;
      CandidatesMember(cfg, m, services[..n], q);
      FilterRefsMember(cfg.libs, cfg.windowSecs, m.services[services[n]].chunks, q);
      forall r | r in Candidates(cfg, m, services, q) ensures exists s :: s in m.services && r in m.services[s].chunks {
        if r !in Candidates(cfg, m, services[..n], q) {
          assert services[n] in m.services && r in m.services[services[n]].chunks;
        }
      }
    }
  }

  // ---- What a query depends on ----

  /** A query reads only references of the manifest, and returns the same whatever reads agree on those. */
  lemma QueryDependsOnReferenced(cfg: Config, m: Manifest, q: IndexQuery, chunks: Chunks, indexes: Indexes,
    indexReads: IndexReads, chunkReads: ChunkReads, indexReads': IndexReads, chunkReads': ChunkReads)
    requires ReadsOf(m, chunks, indexes, indexReads, chunkReads)
    requires ReadsOf(m, chunks, indexes, indexReads', chunkReads')
    ensures QueryResult(cfg, m, q, indexReads, chunkReads) == QueryResult(cfg, m, q, indexReads', chunkReads')
  {
    hide Candidates, Surviving, ReadRecords, FilterRecords;
    var candidates := Candidates(cfg, m, SortedServices(m), q);
    CandidatesMember(cfg, m, SortedServices(m), q);
    SurvivingSame(cfg.libs, candidates, q, indexReads, indexReads');
    if Surviving(cfg.libs, candidates, q, indexReads).Ok? {
      ReadRecordsSame(cfg.libs, Surviving(cfg.libs, candidates, q, indexReads).value, chunkReads, chunkReads');
    }
  }

  lemma {:induction false} SurvivingSame(libs: Libs, refs: seq<ChunkRef>, q: IndexQuery, get: IndexReads, get': IndexReads)
    requires forall n: nat, r | r in refs :: get(n, r) == get'(n, r)
    ensures Surviving(libs, refs, q, get) == Surviving(libs, refs, q, get')
    ensures Surviving(libs, refs, q, get).Ok? ==> forall r :: r in Surviving(libs, refs, q, get).value ==> r in refs
  {
    hide MightMatch;
    if refs != [] {
      Unsnoc(refs);
      SurvivingSame(libs, refs[..|refs| - 1], q, get, get');
    }
  }

  lemma {:induction false} ReadRecordsSame(libs: Libs, refs: seq<ChunkRef>, get: ChunkReads, get': ChunkReads)
    requires forall n: nat, r | r in refs :: get(n, r) == get'(n, r)
    ensures ReadRecords(libs, refs, get) == ReadRecords(libs, refs, get')
  {
    hide OpenChunk;
    if refs != [] {
      Unsnoc(refs);
      ReadRecordsSame(libs, refs[..|refs| - 1], get, get');
    }
  }

  /** With a window that reaches past the end of every written one, or without a `since`, the index-first query
      of a consistent archive succeeds and returns the same records in the same order as the full scan. */
  lemma QueryIsFullScan(cfg: Config, asked: nat, m: Manifest, chunks: Chunks, indexes: Indexes, q: IndexQuery,
    indexReads: IndexReads, chunkReads: ChunkReads)
    requires cfg.libs.Lawful() && LosesNothing(cfg.windowSecs, asked, q)
    requires EntriesOk(cfg, m, chunks, indexes)
    requires ReadsOf(m, chunks, indexes, indexReads, chunkReads)
    ensures QueryResult(Queried(cfg, asked), m, q, indexReads, chunkReads) ==
      Ok(Kept(cfg.libs, chunks, AllRefs(m, SortedServices(m)), q))
    ensures FullScan(cfg, m, q, chunkReads) == QueryResult(Queried(cfg, asked), m, q, indexReads, chunkReads)
  {
    hide EntriesOk, Kept, FilterRecords, Surviving, ReadRecords, Candidates, AllRefs, RefStored, LosesNothing, Libs.Lawful;
    var services := SortedServices(m);
    var candidates, all := Candidates(Queried(cfg, asked), m, services, q), AllRefs(m, services);
    CandidatesMember(Queried(cfg, asked), m, services, q);
    AllRefsMember(m, services);
    CandidatesKeep(cfg, asked, m, chunks, indexes, services, q);
    SurvivingKeeps(cfg, chunks, indexes, candidates, q, indexReads);
    ReadRecordsKeep(cfg, chunks, indexes, Surviving(cfg.libs, candidates, q, indexReads).value, q, chunkReads);
    ReadRecordsKeep(cfg, chunks, indexes, all, q, chunkReads);
  }
}
