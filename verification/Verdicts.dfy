/** What the answers of `verify_service` mean, from the chunks read and the recorded head alone. */
module Verdicts {
  import opened Core
  import opened Canonical
  import opened Chain
  import opened Archive
  import opened Reading
  import opened Queries

  /** The `i`-th read of a verification: under the service asked for, and the window and sequence recorded. */
  function ReadAt(get: ChunkReads, service: Text, e: ServiceChain, i: nat): Result<Chunk, Error>
    requires i < |e.chunks|
  {
    get(i, ChunkRef(service, e.chunks[i].window, e.chunks[i].sequence))
  }

  ghost predicate AllReadOk(get: ChunkReads, service: Text, e: ServiceChain) {
    forall i: nat :: i < |e.chunks| ==> ReadAt(get, service, e, i).Ok?
  }

  /** Chunk `i` is numbered after the first, and carries its predecessor's hash, or 32 zero bytes. */
  ghost predicate LinkedAt(hash: Chunk -> Hash, get: ChunkReads, service: Text, e: ServiceChain, i: nat)
    requires AllReadOk(get, service, e) && i < |e.chunks|
  {
    var c := ReadAt(get, service, e, i).value;
    && c.header.sequence == ReadAt(get, service, e, 0).value.header.sequence + i
    && (i == 0 ==> c.header.prevHash == seq(32, _ => 0))
    && (i > 0 ==> c.header.prevHash == hash(ReadAt(get, service, e, i - 1).value))
  }

  /** Every recorded chunk can be read, they form one chain, and it ends in the recorded head. */
  ghost predicate Intact(hash: Chunk -> Hash, get: ChunkReads, service: Text, e: ServiceChain) {
    && AllReadOk(get, service, e)
    && (forall i: nat :: i < |e.chunks| ==> LinkedAt(hash, get, service, e, i))
    && (e.chunks != [] ==> hash(ReadAt(get, service, e, |e.chunks| - 1).value) == e.headHash)
  }

  lemma ReadsAreLocated(get: ChunkReads, service: Text, e: ServiceChain)
    ensures AllRead(get, Located(service, e.chunks)) <==> AllReadOk(get, service, e)
    ensures AllReadOk(get, service, e) ==> forall i: nat :: i < |e.chunks| ==>
      ReadChunks(get, Located(service, e.chunks))[i] == ReadAt(get, service, e, i).value
  {
    var refs := Located(service, e.chunks);
    forall i: nat | i < |e.chunks| ensures refs[i] == ChunkRef(service, e.chunks[i].window, e.chunks[i].sequence) {
    }
    if AllRead(get, refs) {
      forall i: nat | i < |e.chunks| ensures ReadAt(get, service, e, i).Ok? { assert get(i, refs[i]).Ok?; }
    }
    if AllReadOk(get, service, e) {
      forall i: nat | i < |e.chunks| ensures get(i, refs[i]).Ok? { assert ReadAt(get, service, e, i).Ok?; }
    }
  }

  lemma LinksAreAccepted(hash: Chunk -> Hash, get: ChunkReads, service: Text, e: ServiceChain)
    requires AllReadOk(get, service, e)
    ensures AllRead(get, Located(service, e.chunks))
    ensures Accepts(hash, ReadChunks(get, Located(service, e.chunks))) <==>
      forall i: nat :: i < |e.chunks| ==> LinkedAt(hash, get, service, e, i)
  {
    ReadsAreLocated(get, service, e);
    GenesisIsZeros();
    hide Located, ReadAt;
    var cs := ReadChunks(get, Located(service, e.chunks));
    if Accepts(hash, cs) {
      forall i: nat | i < |e.chunks| ensures LinkedAt(hash, get, service, e, i) { assert LinkOk(hash, GENESIS, cs, i); }
    }
    if forall i: nat :: i < |e.chunks| ==> LinkedAt(hash, get, service, e, i) {
      forall i: nat | i < |cs| ensures cs[i].header.sequence == cs[0].header.sequence + i && LinkOk(hash, GENESIS, cs, i) {
        assert LinkedAt(hash, get, service, e, i);
      }
    }
  }

  /** Verification returns a count exactly when the service is intact, and it is the number of its chunks; an
      unknown service counts none. */
  lemma VerifiedIffIntact(libs: Libs, m: Manifest, service: Text, get: ChunkReads, n: nat)
    ensures ServiceVerdict(libs, m, service, get, Ok(n)) <==>
      if service in m.services then
        Intact(libs.chunkHash, get, service, m.services[service]) && n == |m.services[service].chunks|
      else n == 0
  {
    hide Accepts, Reports, LinkedAt, Located;
    if service in m.services {
      var e := m.services[service];
      ReadsAreLocated(get, service, e);
      if AllReadOk(get, service, e) { LinksAreAccepted(libs.chunkHash, get, service, e); }
    }
  }

  /** The first chunk that cannot be read ends verification: not found, as a missing link at its place in the
      manifest; any other failure as it is. */
  lemma FirstFailureIsReported(libs: Libs, m: Manifest, service: Text, get: ChunkReads, k: nat, r: Result<nat, Error>)
    requires service in m.services && k < |m.services[service].chunks|
    requires ReadAt(get, service, m.services[service], k).Err?
    requires forall i: nat :: i < k ==> ReadAt(get, service, m.services[service], i).Ok?
    ensures ServiceVerdict(libs, m, service, get, r) <==>
      var e := m.services[service];
      var error := ReadAt(get, service, e, k).error;
      r == Err(if error == NotFound then ChainIntegrity(ChainBreak(k, e.chunks[k].sequence, Missing)) else error)
  {
    hide Accepts, Reports;
    var e := m.services[service];
    var refs := Located(service, e.chunks);
    assert refs[k] == ChunkRef(service, e.chunks[k].window, e.chunks[k].sequence);
    forall j: nat | j < k ensures get(j, refs[j]).Ok? { assert ReadAt(get, service, e, j).Ok?; }
    assert FirstFailure(get, refs, k);
    forall i: nat | FirstFailure(get, refs, i) ensures i == k {
    }
  }

  /** When all can be read, a break of the chain is passed on as `verify_chain` reports it. */
  lemma BreakIsReported(libs: Libs, m: Manifest, service: Text, get: ChunkReads, b: ChainBreak, r: Result<nat, Error>)
    requires service in m.services && AllReadOk(get, service, m.services[service])
    requires AllRead(get, Located(service, m.services[service].chunks)) ==>
      Reports(libs.chunkHash, ReadChunks(get, Located(service, m.services[service].chunks)), Some(b))
    ensures ServiceVerdict(libs, m, service, get, r) <==> r == Err(ChainIntegrity(b))
  {
    hide Accepts, Reports, Located;
    var e, hash := m.services[service], libs.chunkHash;
    ReadsAreLocated(get, service, e);
    var cs := ReadChunks(get, Located(service, e.chunks));
    VerdictAccepts(hash, cs, Some(b));
    forall x | Reports(hash, cs, Some(x)) ensures x == b { ReportsUnique(hash, cs, Some(x), Some(b)); }
  }

  // ---- Tampering with a consistent archive ----

  /** The reads return what is stored, but `d` for chunk `k`. */
  ghost predicate ReadsTampered(get: ChunkReads, service: Text, e: ServiceChain, chunks: Chunks, k: nat, d: Chunk)
    requires k < |e.chunks|
  {
    forall i: nat :: i < |e.chunks| ==> ReadAt(get, service, e, i) == Ok(if i == k then d else Fetch(chunks, e.chunks[i]))
  }

  lemma TamperedReads(cfg: Config, service: Text, e: ServiceChain, chunks: Chunks, indexes: Indexes, get: ChunkReads,
    k: nat, d: Chunk)
    requires EntryOk(cfg, service, e, chunks, indexes) && k < |e.chunks|
    requires ReadsTampered(get, service, e, chunks, k, d)
    ensures AllRead(get, Located(service, e.chunks))
    ensures ReadChunks(get, Located(service, e.chunks)) == Fetched(chunks, e.chunks)[k := d]
    ensures Accepts(cfg.libs.chunkHash, Fetched(chunks, e.chunks))
    ensures cfg.libs.chunkHash(Fetch(chunks, e.chunks[|e.chunks| - 1])) == e.headHash
  {
    hide RefOk, Linked;
    ReadsAreLocated(get, service, e);
    LinkedIsAccepted(cfg.libs.chunkHash, Fetched(chunks, e.chunks));
    var cs := ReadChunks(get, Located(service, e.chunks));
    forall i: nat | i < |e.chunks| ensures cs[i] == Fetched(chunks, e.chunks)[k := d][i] {
      assert ReadAt(get, service, e, i).Ok?;
    }
  }

  /** A chunk replaced by one with the same number and link and another hash is found out where it stands: the
      last one by the recorded head, any other by its successor's link. */
  lemma ReplacedChunkIsFound(cfg: Config, m: Manifest, service: Text, chunks: Chunks, indexes: Indexes, get: ChunkReads,
    k: nat, d: Chunk, r: Result<nat, Error>)
    requires service in m.services && EntryOk(cfg, service, m.services[service], chunks, indexes)
    requires k < |m.services[service].chunks|
    requires ReadsTampered(get, service, m.services[service], chunks, k, d)
    requires var c := Fetch(chunks, m.services[service].chunks[k]);
      d.header.sequence == c.header.sequence && d.header.prevHash == c.header.prevHash &&
      cfg.libs.chunkHash(d) != cfg.libs.chunkHash(c)
    ensures ServiceVerdict(cfg.libs, m, service, get, r) <==>
      r == Err(ChainIntegrity(ChainBreak(k, d.header.sequence,
        if k == |m.services[service].chunks| - 1 then HeadMismatch else Modified)))
  {
    hide EntryOk, Accepts, Reports, ReadsTampered, Located;
    var e, hash := m.services[service], cfg.libs.chunkHash;
    var cs := Fetched(chunks, e.chunks);
    TamperedReads(cfg, service, e, chunks, indexes, get, k, d);
    if k == |e.chunks| - 1 {
      AlteredLastChunk(hash, cs, d);
      VerdictAccepts(hash, cs[k := d], None);
    } else {
      AlteredChunk(hash, cs, k, d);
      var b := ChainBreak(k, d.header.sequence, Modified);
      VerdictAccepts(hash, cs[k := d], Some(b));
      forall x | Reports(hash, cs[k := d], Some(x)) ensures x == b {
        ReportsUnique(hash, cs[k := d], Some(x), Some(b));
      }
    }
  }

  /** Whatever verifies against one entry is one chain: two sets of reads that both do have the same hashed
      bytes throughout, or exhibit a break of the digest. */
  lemma VerifiedIsUnique(libs: Libs, sha: Bytes -> Hash, m: Manifest, service: Text, get: ChunkReads, get': ChunkReads,
    n: nat, n': nat)
    requires HashesWith(libs.chunkHash, sha) && service in m.services && m.services[service].chunks != []
    requires ServiceVerdict(libs, m, service, get, Ok(n)) && ServiceVerdict(libs, m, service, get', Ok(n'))
    requires AllReadOk(get, service, m.services[service]) && AllReadOk(get', service, m.services[service]) ==>
      forall i: nat :: i < |m.services[service].chunks| ==>
        FitsWidths(ReadAt(get, service, m.services[service], i).value.header) &&
        FitsWidths(ReadAt(get', service, m.services[service], i).value.header)
    ensures n == n' == |m.services[service].chunks|
    ensures AllReadOk(get, service, m.services[service]) && AllReadOk(get', service, m.services[service])
    ensures var e := m.services[service];
      || (forall i: nat :: i < n ==>
            HashInput(ReadAt(get, service, e, i).value) == HashInput(ReadAt(get', service, e, i).value))
      || BreaksHash(sha, ReadChunks(get, Located(service, e.chunks)), ReadChunks(get', Located(service, e.chunks)))
  {
    hide HashInput, FitsWidths, BreaksHash, Reports;
    var e := m.services[service];
    VerifiedIffIntact(libs, m, service, get, n);
    VerifiedIffIntact(libs, m, service, get', n');
    ReadsAreLocated(get, service, e);
    ReadsAreLocated(get', service, e);
    LinksAreAccepted(libs.chunkHash, get, service, e);
    LinksAreAccepted(libs.chunkHash, get', service, e);
    var a, b := ReadChunks(get, Located(service, e.chunks)), ReadChunks(get', Located(service, e.chunks));
    forall c | c in a || c in b ensures FitsWidths(c.header) {
      if c in a {
        var i :| 0 <= i < |a| && a[i] == c;
        assert c == ReadAt(get, service, e, i).value;
      } else {
        var i :| 0 <= i < |b| && b[i] == c;
        assert c == ReadAt(get', service, e, i).value;
      }
    }
    TamperEvidence(sha, libs.chunkHash, a, b);
  }
}
