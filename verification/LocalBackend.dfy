/** The filesystem backend: files overwritten by path implement the keyed store. */
module Local {
  import opened Core
  import opened Framing
  import opened KeyedStore
  import opened Paths

  type Files = map<Path, Bytes>

  ghost predicate ChunkFile(codec: Codec, files: Files, r: ChunkRef, c: Chunk) {
    && SafeRef(r) && Frameable(codec, c)
    && ChunkPath(r) in files && files[ChunkPath(r)] == Frame(codec.libs, c)
  }

  ghost predicate IndexFile(codec: Codec, files: Files, r: ChunkRef, ix: ServiceWindowIndex) {
    && SafeRef(r) && ix.chunk == r
    && IndexPath(r) in files && files[IndexPath(r)] == codec.indexJson(ix)
  }

  ghost predicate ManifestFile(codec: Codec, files: Files, manifest: Option<Manifest>) {
    match manifest
    case None => MANIFEST_PATH !in files
    case Some(m) => MANIFEST_PATH in files && files[MANIFEST_PATH] == codec.manifestJson(m)
  }

  ghost predicate Accounted(p: Path, chunks: Chunks, indexes: Indexes) {
    || p == MANIFEST_PATH
    || (exists r :: r in chunks && p == ChunkPath(r))
    || (exists r :: r in indexes && p == IndexPath(r))
  }

  /** The files hold exactly the keyed store. */
  ghost predicate Holds(codec: Codec, files: Files, chunks: Chunks, indexes: Indexes, manifest: Option<Manifest>) {
    && (forall r :: r in chunks ==> ChunkFile(codec, files, r, chunks[r]))
    && (forall r :: r in indexes ==> IndexFile(codec, files, r, indexes[r]))
    && ManifestFile(codec, files, manifest)
    && (forall p :: p in files ==> Accounted(p, chunks, indexes))
  }

  lemma ChunkOverwritten(codec: Codec, files: Files, chunks: Chunks, indexes: Indexes, manifest: Option<Manifest>,
    r: ChunkRef, c: Chunk)
    requires Holds(codec, files, chunks, indexes, manifest)
    requires SafeRef(r) && Frameable(codec, c)
    ensures Holds(codec, files[ChunkPath(r) := Frame(codec.libs, c)], chunks[r := c], indexes, manifest)
  {
    hide Frame, Safe, ChunkPath, IndexPath;
    var files', chunks' := files[ChunkPath(r) := Frame(codec.libs, c)], chunks[r := c];
    forall q | q in chunks' ensures ChunkFile(codec, files', q, chunks'[q]) {
      if q != r { assert ChunkFile(codec, files, q, chunks[q]); }
      LocalPathsInjective(r, q);
    }
    forall q | q in indexes ensures IndexFile(codec, files', q, indexes[q]) {
      assert IndexFile(codec, files, q, indexes[q]);
      LocalPathsInjective(r, q);
    }
    LocalPathsInjective(r, r);
    forall p | p in files' ensures Accounted(p, chunks', indexes) {
      if p == ChunkPath(r) {
        assert r in chunks';
      } else {
        assert Accounted(p, chunks, indexes);
        if q :| q in chunks && p == ChunkPath(q) { assert q in chunks'; }
      }
    }
  }

  lemma IndexOverwritten(codec: Codec, files: Files, chunks: Chunks, indexes: Indexes, manifest: Option<Manifest>,
    r: ChunkRef, ix: ServiceWindowIndex)
    requires Holds(codec, files, chunks, indexes, manifest)
    requires SafeRef(r) && ix.chunk == r
    ensures Holds(codec, files[IndexPath(r) := codec.indexJson(ix)], chunks, indexes[r := ix], manifest)
  {
    hide Frame, Safe, ChunkPath, IndexPath;
    var files', indexes' := files[IndexPath(r) := codec.indexJson(ix)], indexes[r := ix];
    forall q | q in chunks ensures ChunkFile(codec, files', q, chunks[q]) {
      assert ChunkFile(codec, files, q, chunks[q]);
      LocalPathsInjective(q, r);
    }
    forall q | q in indexes' ensures IndexFile(codec, files', q, indexes'[q]) {
      if q != r { assert IndexFile(codec, files, q, indexes[q]); }
      LocalPathsInjective(r, q);
    }
    LocalPathsInjective(r, r);
    forall p | p in files' ensures Accounted(p, chunks, indexes') {
      if p == IndexPath(r) {
        assert r in indexes';
      } else {
        assert Accounted(p, chunks, indexes);
        if q :| q in indexes && p == IndexPath(q) { assert q in indexes'; }
      }
    }
  }

  lemma ManifestOverwritten(codec: Codec, files: Files, chunks: Chunks, indexes: Indexes, manifest: Option<Manifest>,
    m: Manifest)
    requires Holds(codec, files, chunks, indexes, manifest)
    ensures Holds(codec, files[MANIFEST_PATH := codec.manifestJson(m)], chunks, indexes, Some(m))
  {
    hide Frame, Safe, ChunkPath, IndexPath;
    var files' := files[MANIFEST_PATH := codec.manifestJson(m)];
    forall q | q in chunks ensures ChunkFile(codec, files', q, chunks[q]) {
      assert ChunkFile(codec, files, q, chunks[q]);
      LocalPathsInjective(q, q);
    }
    forall q | q in indexes ensures IndexFile(codec, files', q, indexes[q]) {
      assert IndexFile(codec, files, q, indexes[q]);
      LocalPathsInjective(q, q);
    }
    forall p | p in files' ensures Accounted(p, chunks, indexes) {
      if p != MANIFEST_PATH { assert Accounted(p, chunks, indexes); }
    }
  }

  lemma AllSafe(codec: Codec, files: Files, chunks: Chunks, indexes: Indexes, manifest: Option<Manifest>)
    requires Holds(codec, files, chunks, indexes, manifest)
    ensures forall q :: q in chunks || q in indexes ==> SafeRef(q)
  {
    forall q | q in chunks || q in indexes ensures SafeRef(q) {
      if q in chunks { assert ChunkFile(codec, files, q, chunks[q]); }
      if q in indexes { assert IndexFile(codec, files, q, indexes[q]); }
    }
  }

  /** A chunk file exists exactly for the stored references. */
  lemma NoStrayChunk(codec: Codec, files: Files, chunks: Chunks, indexes: Indexes, manifest: Option<Manifest>, r: ChunkRef)
    requires Holds(codec, files, chunks, indexes, manifest) && SafeRef(r)
    ensures ChunkPath(r) in files <==> r in chunks
    ensures IndexPath(r) in files <==> r in indexes
  {
    hide Frame, Safe, ChunkPath, IndexPath;
    AllSafe(codec, files, chunks, indexes, manifest);
    LocalPathsInjective(r, r);
    if ChunkPath(r) in files {
      assert Accounted(ChunkPath(r), chunks, indexes);
      if q :| q in chunks && ChunkPath(r) == ChunkPath(q) { LocalPathsInjective(r, q); }
      if q :| q in indexes && ChunkPath(r) == IndexPath(q) { LocalPathsInjective(r, q); }
    }
    if IndexPath(r) in files {
      assert Accounted(IndexPath(r), chunks, indexes);
      if q :| q in indexes && IndexPath(r) == IndexPath(q) { LocalPathsInjective(r, q); }
      if q :| q in chunks && IndexPath(r) == ChunkPath(q) { LocalPathsInjective(q, r); }
    }
  }

  /** A file directly inside one service's index directory. */
  predicate InIndexDirectory(p: Path, service: Text) {
    Directory(INDEX, service) <= p && SLASH !in p[|Directory(INDEX, service)|..]
  }

  function IndexDirectory(files: Files, service: Text): set<Path> {
    set p | p in files && InIndexDirectory(p, service)
  }

  lemma EntryOfDirectory(r: ChunkRef, service: Text)
    requires SafeRef(r)
    ensures InIndexDirectory(IndexPath(r), service) <==> r.service == service
  {
    hide FileName;
    var d, x := Directory(INDEX, service), FileName(r.window, r.sequence, IDX);
    FileNameHasNoSlash(r.window, r.sequence, IDX);
    if InIndexDirectory(IndexPath(r), service) {
      assert Directory(INDEX, r.service) + x == d + IndexPath(r)[|d|..];
      DirectorySplits(INDEX, r.service, x, service, IndexPath(r)[|d|..]);
    }
    if r.service == service {
      assert IndexPath(r)[|d|..] == x;
    }
  }

  lemma OnlyIndexesInDirectory(r: ChunkRef, service: Text)
    requires SafeRef(r)
    ensures !InIndexDirectory(ChunkPath(r), service)
  {
    hide FileName;
    KindsDiffer(r.service, service);
    assert ChunkPath(r)[0] == CHUNKS[0];
  }

  lemma ManifestNotInDirectory(service: Text)
    ensures !InIndexDirectory(MANIFEST_PATH, service)
  {
    KindsDiffer(service, service);
    assert MANIFEST_PATH[0] == MANIFEST_JSON[0];
  }

  lemma DirectoryEntry(codec: Codec, files: Files, chunks: Chunks, indexes: Indexes, manifest: Option<Manifest>,
    service: Text, p: Path)
    returns (r: ChunkRef)
    requires Holds(codec, files, chunks, indexes, manifest)
    requires p in IndexDirectory(files, service)
    ensures r in indexes && r.service == service && p == IndexPath(r)
    ensures files[p] == codec.indexJson(indexes[r]) && indexes[r].chunk == r
  {
    hide Frame, Safe, ChunkPath, IndexPath, InIndexDirectory;
    AllSafe(codec, files, chunks, indexes, manifest);
    assert Accounted(p, chunks, indexes);
    ManifestNotInDirectory(service);
    if q :| q in chunks && p == ChunkPath(q) { OnlyIndexesInDirectory(q, service); }
    r :| r in indexes && p == IndexPath(r);
    EntryOfDirectory(r, service);
    assert IndexFile(codec, files, r, indexes[r]);
  }

  predicate EndsWith(s: Text, suffix: Text) {
    |s| >= |suffix| && s[|s| - |suffix|..] == suffix
  }

  class LocalBackend {
    const codec: Codec
    const bucket: Text
    var files: Files
    ghost var chunks: Chunks
    ghost var indexes: Indexes
    ghost var manifest: Option<Manifest>
    // How many writes the file system has failed so far.
    ghost var faults: nat

    ghost predicate Valid()
      reads this
    {
      codec.Lawful() && Holds(codec, files, chunks, indexes, manifest)
    }

    constructor (codec: Codec, bucket: Text)
      requires codec.Lawful()
      ensures Valid() && this.codec == codec && this.bucket == bucket
      ensures chunks == map[] && indexes == map[] && manifest.None?
    {
      this.codec, this.bucket, files := codec, bucket, map[];
      chunks, indexes, manifest, faults := map[], map[], None, 0;
    }

    /** The chunk file is written before the index file, so a failure leaves both old, or the new chunk
        with the old index. */
    method PutArchive(chunk: Chunk, index: ServiceWindowIndex) returns (r: Result<(), Error>)
      requires Valid() && IsArchive(chunk, index) && Frameable(codec, chunk)
      modifies this
      ensures Valid() && manifest == old(manifest)
      ensures r.Ok? ==> SafeRef(chunk.Ref())
      ensures r.Ok? ==> chunks == old(chunks)[chunk.Ref() := chunk] && indexes == old(indexes)[chunk.Ref() := index]
      ensures r.Err? ==> indexes == old(indexes) && (chunks == old(chunks) || chunks == old(chunks)[chunk.Ref() := chunk])
      ensures !SafeRef(chunk.Ref()) ==> r == Err(Backend) && files == old(files)
      ensures faults == old(faults) + if r.Ok? || !SafeRef(chunk.Ref()) then 0 else 1
    {
      hide Holds, Frame, Safe;
      if !Safe(chunk.header.service) || !Safe(chunk.header.timeWindow) {
        return Err(Backend);
      }
      var frame := EncodeChunk(codec.libs, chunk);
      if * {
        faults := faults + 1;
        return Err(Io);
      }
      ChunkOverwritten(codec, files, chunks, indexes, manifest, chunk.Ref(), chunk);
      files := files[ChunkPath(chunk.Ref()) := frame];
      chunks := chunks[chunk.Ref() := chunk];
      if * {
        faults := faults + 1;
        return Err(Io);
      }
      IndexOverwritten(codec, files, chunks, indexes, manifest, chunk.Ref(), index);
      files := files[IndexPath(ChunkRef(index.service, index.window, index.chunk.sequence)) := codec.indexJson(index)];
      indexes := indexes[chunk.Ref() := index];
      return Ok(());
    }

    method GetChunk(service: Text, window: Text, sequence: nat) returns (r: Result<Chunk, Error>)
      requires Valid()
      ensures var q := ChunkRef(service, window, sequence);
        r == if !SafeRef(q) then Err(Backend) else if q in chunks then Ok(chunks[q]) else Err(NotFound)
    {
      var q := ChunkRef(service, window, sequence);
      if !Safe(service) || !Safe(window) {
        return Err(Backend);
      }
      NoStrayChunk(codec, files, chunks, indexes, manifest, q);
      if ChunkPath(q) !in files {
        return Err(NotFound);
      }
      assert ChunkFile(codec, files, q, chunks[q]);
      FrameRoundTrip(codec.libs, chunks[q]);
      return DecodeChunk(codec.libs, files[ChunkPath(q)]);
    }

    method GetIndex(service: Text, window: Text, sequence: nat) returns (r: Result<ServiceWindowIndex, Error>)
      requires Valid()
      ensures var q := ChunkRef(service, window, sequence);
        r == if !SafeRef(q) then Err(Backend) else if q in indexes then Ok(indexes[q]) else Err(NotFound)
    {
      var q := ChunkRef(service, window, sequence);
      if !Safe(service) || !Safe(window) {
        return Err(Backend);
      }
      NoStrayChunk(codec, files, chunks, indexes, manifest, q);
      if IndexPath(q) !in files {
        return Err(NotFound);
      }
      assert IndexFile(codec, files, q, indexes[q]);
      match codec.parseIndex(files[IndexPath(q)])
      case None => return Err(Serialization);
      case Some(ix) => return Ok(ix);
    }

    /** Directory entries come in any order; the result lists each selected index of the service once,
        by sequence. */
    method ListChunks(service: Text, range: Option<TimeRange>) returns (r: Result<seq<ChunkRef>, Error>)
      requires Valid()
      ensures !Safe(service) <==> r == Err(Backend)
      ensures Safe(service) ==> r.Ok? && BySequence(r.value)
      ensures Safe(service) ==> forall q :: q in r.value <==> q in indexes && q.service == service && Selected(range,
        indexes[q])
      ensures Safe(service) ==> forall q :: multiset(r.value)[q] <= 1
    {
      hide Holds, Frame, Safe, Selected, InIndexDirectory, IndexPath;
      if !Safe(service) {
        return Err(Backend);
      }
      var entries := IndexDirectory(files, service);
      ghost var all := entries;
      AllSafe(codec, files, chunks, indexes, manifest);
      var refs: seq<ChunkRef> := [];
      while entries != {}
        invariant entries <= all
        invariant forall q :: q in refs <==>
          q in indexes && IndexPath(q) in all - entries && Selected(range, indexes[q])
        invariant forall q :: multiset(refs)[q] <= 1
        decreases entries
      {
        var p :| p in entries;
        ghost var q := DirectoryEntry(codec, files, chunks, indexes, manifest, service, p);
        forall x | SafeRef(x) ensures IndexPath(x) == p <==> x == q { LocalPathsInjective(x, q); }
        NameEnds(q);
        entries := entries - {p};
        if !EndsWith(p, IDX) {
          continue;
        }
        var parsed := codec.parseIndex(files[p]);
        if parsed.None? {
          return Err(Serialization);
        }
        if range.None? || Overlaps(parsed.value, range.value.start, range.value.end) {
          assert Selected(range, indexes[q]) by { SelectedMeans(range, indexes[q]); }
          assert multiset(refs)[q] == 0 by { assert q !in refs; }
          refs := refs + [parsed.value.chunk];
        } else {
          SelectedMeans(range, indexes[q]);
        }
      }
      var sorted := SortBySequence(refs);
      SameElements(refs, sorted);
      forall q | q in indexes ensures IndexPath(q) in all <==> q.service == service {
        NoStrayChunk(codec, files, chunks, indexes, manifest, q);
        EntryOfDirectory(q, service);
      }
      return Ok(sorted);
    }

    method ReadManifest() returns (r: Result<Manifest, Error>)
      requires Valid()
      ensures r == match manifest case Some(m) => Ok(m) case None => Err(NotFound)
    {
      if MANIFEST_PATH !in files {
        return Err(NotFound);
      }
      match codec.parseManifest(files[MANIFEST_PATH])
      case None => return Err(Serialization);
      case Some(m) => return Ok(m);
    }

    method WriteManifest(m: Manifest) returns (r: Result<(), Error>)
      requires Valid()
      modifies this
      ensures Valid() && chunks == old(chunks) && indexes == old(indexes)
      ensures r.Ok? ==> manifest == Some(m)
      ensures r.Err? ==> manifest == old(manifest)
      ensures faults == old(faults) + if r.Ok? then 0 else 1
    {
      hide Holds;
      if * {
        faults := faults + 1;
        return Err(Io);
      }
      ManifestOverwritten(codec, files, chunks, indexes, manifest, m);
      files := files[MANIFEST_PATH := codec.manifestJson(m)];
      manifest := Some(m);
      return Ok(());
    }

    /** Read, edit and write back under one lock: the edit applies to what is stored now. */
    method UpdateManifest(edit: Manifest -> Manifest) returns (r: Result<Manifest, Error>)
      requires Valid()
      modifies this
      ensures Valid() && chunks == old(chunks) && indexes == old(indexes)
      ensures var now := match old(manifest) case Some(m) => m case None => FreshManifest(bucket);
        r.Ok? ==> r.value == edit(now) && manifest == Some(edit(now))
      ensures r.Err? ==> manifest == old(manifest)
      ensures faults == old(faults) + if r.Ok? then 0 else 1
    {
      var read := ReadManifest();
      var m := FreshManifest(bucket);
      match read {
        case Ok(stored) => m := stored;
        case Err(e) => if e != NotFound { return Err(e); }
      }
      m := edit(m);
      var written := WriteManifest(m);
      if written.Err? { return Err(written.error); }
      return Ok(m);
    }
  }

  lemma SelectedMeans(range: Option<TimeRange>, ix: ServiceWindowIndex)
    ensures Selected(range, ix) <==> range.None? || Overlaps(ix, range.value.start, range.value.end)
  {
  }

  lemma NameEnds(r: ChunkRef)
    ensures EndsWith(IndexPath(r), IDX)
  {
  }
}
