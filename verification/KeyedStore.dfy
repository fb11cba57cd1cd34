/** What both backends implement: one map from references to archives, and one manifest. */
module KeyedStore {
  import opened Core
  import opened Framing

  /** serde_json for what is stored beside chunk frames. */
  datatype Codec = Codec(
    libs: Libs,
    indexJson: ServiceWindowIndex -> Bytes,
    parseIndex: Bytes -> Option<ServiceWindowIndex>,
    manifestJson: Manifest -> Bytes,
    parseManifest: Bytes -> Option<Manifest>)
  {
    ghost predicate Lawful() {
      && libs.Lawful()
      && (forall ix :: parseIndex(indexJson(ix)) == Some(ix))
      && (forall m :: parseManifest(manifestJson(m)) == Some(m))
    }
  }

  /** The header's JSON has a length that fits the frame's 32-bit field. */
  predicate Frameable(codec: Codec, c: Chunk) {
    |codec.libs.headerJson(c.header)| < U32_LIMIT
  }

  /** An archive: a chunk and its own index. */
  predicate IsArchive(c: Chunk, ix: ServiceWindowIndex) {
    ix.chunk == c.Ref() && ix.service == c.header.service && ix.window == c.header.timeWindow
  }

  /** The manifest as a connection that caches its own writes sees it: the copy it last wrote, if any, and
      the newest one stored. */
  datatype ManifestView = ManifestView(cached: Option<Manifest>, newest: Option<Manifest>) {
    /** What a read returns. */
    function Served(): Option<Manifest> {
      if cached.Some? then cached else newest
    }

    /** After a write of `m`: only a write that succeeds is cached, also when a failed one landed. */
    function Written(m: Manifest, written: WriteOutcome): ManifestView {
      match written
      case WriteDone => ManifestView(Some(m), Some(m))
      case WriteFailed(landed) => if landed then ManifestView(cached, Some(m)) else this
    }
  }

  datatype TimeRange = TimeRange(start: Instant, end: Instant)

  predicate Selected(range: Option<TimeRange>, ix: ServiceWindowIndex) {
    range.Some? ==> Overlaps(ix, range.value.start, range.value.end)
  }

  /** Without a range every index is selected; with one, those whose records' span has an instant in it, ends
      included. */
  lemma SelectedIffCommonInstant(range: Option<TimeRange>, ix: ServiceWindowIndex)
    requires ix.minTimestamp <= ix.maxTimestamp && (range.Some? ==> range.value.start <= range.value.end)
    ensures Selected(range, ix) <==>
      range.None? || exists t :: ix.minTimestamp <= t <= ix.maxTimestamp && Between(t, range.value.start, range.value.end)
  {
    if range.Some? {
      OverlapsIffCommonInstant(ix, range.value.start, range.value.end);
      if t :| Between(t, ix.minTimestamp, ix.maxTimestamp) && Between(t, range.value.start, range.value.end) {
        assert ix.minTimestamp <= t <= ix.maxTimestamp;
      }
    }
  }

  predicate BySequence(refs: seq<ChunkRef>) {
    forall i, j :: 0 <= i < j < |refs| ==> refs[i].sequence <= refs[j].sequence
  }

  lemma InsertKeepsElements(refs: seq<ChunkRef>, p: nat, r: ChunkRef)
    requires p <= |refs|
    ensures multiset(refs[..p] + [r] + refs[p..]) == multiset(refs) + multiset{r}
  {
    assert refs == refs[..p] + refs[p..];
  }

  lemma SameElements(a: seq<ChunkRef>, b: seq<ChunkRef>)
    requires multiset(a) == multiset(b)
    ensures forall r :: r in a <==> r in b
  {
    forall r ensures r in a <==> r in b {
      assert r in a <==> r in multiset(a);
      assert r in b <==> r in multiset(b);
    }
  }

  lemma InsertKeepsOrder(refs: seq<ChunkRef>, p: nat, r: ChunkRef)
    requires BySequence(refs) && p <= |refs|
    requires p > 0 ==> refs[p - 1].sequence <= r.sequence
    requires p < |refs| ==> r.sequence <= refs[p].sequence
    ensures BySequence(refs[..p] + [r] + refs[p..])
  {
    var longer := refs[..p] + [r] + refs[p..];
    forall i, j | 0 <= i < j < |longer| ensures longer[i].sequence <= longer[j].sequence {
      assert longer[i] == if i < p then refs[i] else if i == p then r else refs[i - 1];
      assert longer[j] == if j < p then refs[j] else if j == p then r else refs[j - 1];
    }
  }

  /** `sort_by_key`, by sequence. */
  method SortBySequence(refs: seq<ChunkRef>) returns (sorted: seq<ChunkRef>)
    ensures multiset(sorted) == multiset(refs)
    ensures BySequence(sorted)
  {
    hide BySequence;
    sorted := [];
    assert BySequence(sorted) by { EmptyIsOrdered(); }
    for i := 0 to |refs|
      invariant multiset(sorted) == multiset(refs[..i])
      invariant BySequence(sorted)
    {
      var p := |sorted|;
      while p > 0 && sorted[p - 1].sequence > refs[i].sequence
        invariant 0 <= p <= |sorted|
        invariant p < |sorted| ==> sorted[p].sequence > refs[i].sequence
      {
        p := p - 1;
      }
      InsertKeepsElements(sorted, p, refs[i]);
      InsertKeepsOrder(sorted, p, refs[i]);
      assert refs[..i + 1] == refs[..i] + [refs[i]];
      sorted := sorted[..p] + [refs[i]] + sorted[p..];
    }
    assert refs[..|refs|] == refs;
  }

  lemma EmptyIsOrdered()
    ensures BySequence([])
  {
  }
}
