/** `query`, `verify_service` and `verify_all` as they run, over whatever each read returns. */
module Queries {
  import opened Core
  import opened Ordering
  import opened Chain
  import opened Windows
  import opened Index
  import opened Sealing
  import opened Reading

  lemma CandidatesSnoc(cfg: Config, m: Manifest, services: seq<Text>, s: Text, q: IndexQuery)
    requires s in m.services && forall t :: t in services ==> t in m.services
    ensures Candidates(cfg, m, services + [s], q) == Candidates(cfg, m, services, q) +
      if WantsService(q, s) then FilterRefs(cfg.libs, cfg.windowSecs, m.services[s].chunks, q) else []
  {
    assert (services + [s])[..|services|] == services;
  }

  lemma FilterSnoc(libs: Libs, windowSecs: nat, refs: seq<ChunkRef>, i: nat, q: IndexQuery)
    requires i < |refs|
    ensures FilterRefs(libs, windowSecs, refs[..i + 1], q) == FilterRefs(libs, windowSecs, refs[..i], q) +
      if WindowMightOverlap(libs, refs[i].window, windowSecs, q.since, q.until) then [refs[i]] else []
  {
    assert refs[..i + 1][..i] == refs[..i];
  }

  lemma FilterNone(libs: Libs, windowSecs: nat, q: IndexQuery)
    ensures FilterRefs(libs, windowSecs, [], q) == []
  {
  }

  /** Steps 1 and 2: candidate references, service by service in key order. */
  method SelectCandidates(cfg: Config, m: Manifest, q: IndexQuery) returns (candidates: seq<ChunkRef>)
    ensures candidates == Candidates(cfg, m, SortedServices(m), q)
  {
    hide Candidates, FilterRefs, TextLt, WindowMightOverlap;
    TextLtStrictTotal();
    candidates := [];
    var rest := m.services.Keys;
    ghost var listed: seq<Text> := [];
    NothingYet(cfg, m, q);
    while rest != {}
      invariant Drained(listed, m.services.Keys, rest, TextLt)
      invariant forall s :: s in listed ==> s in m.services
      invariant candidates == Candidates(cfg, m, listed, q)
      decreases rest
    {
      var service := LeastText(rest);
      DrainStep(listed, m.services.Keys, rest, service, TextLt);
      CandidatesSnoc(cfg, m, listed, service, q);
      listed := listed + [service];
      rest := rest - {service};
      if q.service.Some? && q.service.value != service {
        continue;
      }
      var refs := m.services[service].chunks;
      ghost var before := candidates;
      FilterNone(cfg.libs, cfg.windowSecs, q);
      for i := 0 to |refs|
        invariant candidates == before + FilterRefs(cfg.libs, cfg.windowSecs, refs[..i], q)
      {
        FilterSnoc(cfg.libs, cfg.windowSecs, refs, i, q);
        if WindowMightOverlap(cfg.libs, refs[i].window, cfg.windowSecs, q.since, q.until) {
          candidates := candidates + [refs[i]];
        }
      }
      assert refs[..|refs|] == refs;
    }
    DrainEnd(listed, m.services.Keys, TextLt);
  }

  lemma NothingYet(cfg: Config, m: Manifest, q: IndexQuery)
    ensures Drained([], m.services.Keys, m.services.Keys, TextLt)
    ensures Candidates(cfg, m, [], q) == []
  {
    assert m.services.Keys - m.services.Keys == {};
  }

  /** `Surviving` of a prefix that fails, or of the whole. */
  lemma {:induction false} SurvivingFails(libs: Libs, refs: seq<ChunkRef>, n: nat, q: IndexQuery, get: IndexReads)
    requires n <= |refs| && Surviving(libs, refs[..n], q, get).Err?
    ensures Surviving(libs, refs, q, get) == Surviving(libs, refs[..n], q, get)
    decreases |refs| - n
  {
    if n < |refs| {
      assert refs[..n + 1][..n] == refs[..n];
      SurvivingFails(libs, refs, n + 1, q, get);
    } else {
      assert refs[..n] == refs;
    }
  }

  /** Step 3: load the candidates' indexes and prefilter. */
  method Prefilter(libs: Libs, candidates: seq<ChunkRef>, q: IndexQuery, get: IndexReads)
    returns (r: Result<seq<ChunkRef>, Error>)
    ensures r == Surviving(libs, candidates, q, get)
  {
    var surviving: seq<ChunkRef> := [];
    for n := 0 to |candidates|
      invariant Surviving(libs, candidates[..n], q, get) == Ok(surviving)
    {
      assert candidates[..n + 1][..n] == candidates[..n];
      var index := get(n, candidates[n]);
      if index.Err? {
        SurvivingFails(libs, candidates, n + 1, q, get);
        return Err(index.error);
      }
      var might := CheckMightMatch(libs, index.value, q);
      assert surviving + [] == surviving;
      if might {
        surviving := surviving + [candidates[n]];
      }
    }
    assert candidates[..|candidates|] == candidates;
    return Ok(surviving);
  }

  lemma {:induction false} ReadRecordsFails(libs: Libs, refs: seq<ChunkRef>, n: nat, get: ChunkReads)
    requires n <= |refs| && ReadRecords(libs, refs[..n], get).Err?
    ensures ReadRecords(libs, refs, get) == ReadRecords(libs, refs[..n], get)
    decreases |refs| - n
  {
    hide OpenChunk;
    if n < |refs| {
      assert refs[..n + 1][..n] == refs[..n];
      ReadRecordsFails(libs, refs, n + 1, get);
    } else {
      assert refs[..n] == refs;
    }
  }

  /** Step 4: fetch and decrypt the surviving chunks. */
  method FetchRecords(libs: Libs, refs: seq<ChunkRef>, get: ChunkReads) returns (r: Result<seq<LogRecord>, Error>)
    ensures r == ReadRecords(libs, refs, get)
  {
    hide OpenChunk;
    var records: seq<LogRecord> := [];
    for n := 0 to |refs|
      invariant ReadRecords(libs, refs[..n], get) == Ok(records)
    {
      assert refs[..n + 1][..n] == refs[..n];
      var chunk := get(n, refs[n]);
      if chunk.Err? {
        ReadRecordsFails(libs, refs, n + 1, get);
        return Err(chunk.error);
      }
      var decoded := OpenChunk(libs, chunk.value);
      if decoded.Err? {
        ReadRecordsFails(libs, refs, n + 1, get);
        return Err(decoded.error);
      }
      records := records + decoded.value;
    }
    assert refs[..|refs|] == refs;
    return Ok(records);
  }

  /** Step 5: keep the records that match exactly. */
  method Retain(libs: Libs, records: seq<LogRecord>, q: IndexQuery) returns (kept: seq<LogRecord>)
    ensures kept == FilterRecords(libs, records, q)
  {
    hide RecordMatches;
    kept := [];
    for i := 0 to |records|
      invariant kept == FilterRecords(libs, records[..i], q)
    {
      assert records[..i + 1][..i] == records[..i];
      var matches := CheckRecordMatches(libs, records[i], q);
      if matches {
        kept := kept + [records[i]];
      }
    }
    assert records[..|records|] == records;
  }

  /** `query`, from the manifest it read. */
  method Query(cfg: Config, m: Manifest, q: IndexQuery, indexReads: IndexReads, chunkReads: ChunkReads)
    returns (r: Result<seq<LogRecord>, Error>)
    ensures r == QueryResult(cfg, m, q, indexReads, chunkReads)
  {
    hide Candidates, Surviving, ReadRecords, FilterRecords;
    var candidates := SelectCandidates(cfg, m, q);
    var surviving := Prefilter(cfg.libs, candidates, q, indexReads);
    if surviving.Err? {
      return Err(surviving.error);
    }
    var records := FetchRecords(cfg.libs, surviving.value, chunkReads);
    if records.Err? {
      return Err(records.error);
    }
    var kept := Retain(cfg.libs, records.value, q);
    return Ok(kept);
  }

  /** The entry's verdict, or nothing to verify for an unknown service. */
  ghost predicate ServiceVerdict(libs: Libs, m: Manifest, service: Text, get: ChunkReads, r: Result<nat, Error>) {
    if service in m.services then VerifyReports(libs, service, m.services[service], get, r) else r == Ok(0)
  }

  /** `verify_service`, from the manifest it read. */
  method VerifyService(libs: Libs, m: Manifest, service: Text, get: ChunkReads) returns (r: Result<nat, Error>)
    ensures ServiceVerdict(libs, m, service, get, r)
  {
    hide Reports, Accepts;
    if service !in m.services {
      return Ok(0);
    }
    var e := m.services[service];
    ghost var refs := Located(service, e.chunks);
    var chunks: seq<Chunk> := [];
    for position := 0 to |e.chunks|
      invariant |chunks| == position
      invariant forall j :: 0 <= j < position ==> get(j, refs[j]) == Ok(chunks[j])
    {
      var chunk := get(position, e.chunks[position].(service := service));
      if chunk.Err? {
        assert FirstFailure(get, refs, position);
        if chunk.error == NotFound {
          return Err(ChainIntegrity(ChainBreak(position, e.chunks[position].sequence, Missing)));
        }
        return Err(chunk.error);
      }
      chunks := chunks + [chunk.value];
    }
    assert chunks == ReadChunks(get, refs);
    var broken := VerifyChain(libs.chunkHash, chunks);
    VerdictAccepts(libs.chunkHash, chunks, broken);
    if broken.Some? {
      return Err(ChainIntegrity(broken.value));
    }
    if chunks != [] {
      var last := chunks[|chunks| - 1];
      if libs.chunkHash(last) != e.headHash {
        return Err(ChainIntegrity(ChainBreak(|chunks| - 1, last.header.sequence, HeadMismatch)));
      }
    }
    return Ok(|chunks|);
  }

  lemma VerdictAccepts(hash: Chunk -> Hash, cs: seq<Chunk>, r: Option<ChainBreak>)
    requires Reports(hash, cs, r)
    ensures r.None? <==> Accepts(hash, cs)
  {
  }

  /** `verify_all`: every listed service, in key order, each against the manifest its own call reads. */
  method VerifyAll(libs: Libs, listing: Manifest, manifests: nat -> Manifest, gets: nat -> ChunkReads)
    returns (results: seq<(Text, Result<nat, Error>)>)
    ensures |results| == |SortedServices(listing)|
    ensures forall i :: 0 <= i < |results| ==>
      && results[i].0 == SortedServices(listing)[i]
      && ServiceVerdict(libs, manifests(i), results[i].0, gets(i), results[i].1)
  {
    hide TextLt, ServiceVerdict;
    TextLtStrictTotal();
    results := [];
    var rest := listing.services.Keys;
    ghost var listed: seq<Text> := [];
    assert listing.services.Keys - rest == {};
    while rest != {}
      invariant Drained(listed, listing.services.Keys, rest, TextLt)
      invariant |results| == |listed|
      invariant forall i :: 0 <= i < |results| ==> results[i].0 == listed[i]
      invariant forall i :: 0 <= i < |results| ==>
        ServiceVerdict(libs, manifests(i), results[i].0, gets(i), results[i].1)
      decreases rest
    {
      var service := LeastText(rest);
      DrainStep(listed, listing.services.Keys, rest, service, TextLt);
      listed := listed + [service];
      rest := rest - {service};
      var verdict := VerifyService(libs, manifests(|results|), service, gets(|results|));
      results := results + [(service, verdict)];
    }
    DrainEnd(listed, listing.services.Keys, TextLt);
  }
}
