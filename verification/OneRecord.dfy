/** The archive of a single record: the smallest consistent archive with something in it. */
module OneRecord {
  import opened Core
  import opened Builder
  import opened Windows
  import opened Index
  import opened Sealing
  import opened Archive
  import opened Reading

  function WindowOf(cfg: Config, x: LogRecord): Text {
    WindowLabel(cfg.libs, x.timestamp, cfg.windowSecs)
  }

  function BucketOf(cfg: Config, x: LogRecord): Bucket {
    Bucket(x.service, WindowOf(cfg, x), [x])
  }

  function RegisteredManifest(cfg: Config, x: LogRecord): Manifest {
    RegisterOne(FreshManifest(cfg.bucket), x.service)
  }

  ghost function BuiltOf(cfg: Config, x: LogRecord): Built {
    BuildOne(cfg.libs, RegisteredManifest(cfg, x), NOTHING_BUILT, BucketOf(cfg, x), ZERO32)
  }

  function RefOf(cfg: Config, x: LogRecord): ChunkRef {
    ChunkRef(x.service, WindowOf(cfg, x), 0)
  }

  ghost function ChunksOf(cfg: Config, x: LogRecord): Chunks {
    map[RefOf(cfg, x) := BuiltOf(cfg, x).chunks[0]]
  }

  ghost function IndexesOf(cfg: Config, x: LogRecord): Indexes {
    map[RefOf(cfg, x) := BuiltOf(cfg, x).indexes[0]]
  }

  ghost function ManifestOf(cfg: Config, x: LogRecord): Manifest {
    Overlay(RegisteredManifest(cfg, x), RegisteredManifest(cfg, x), BuiltOf(cfg, x))
  }

  lemma ArchiveIsConsistent(cfg: Config, x: LogRecord)
    requires cfg.libs.Lawful() && Dated(cfg.libs, x.timestamp)
    ensures StoreOk(cfg, ManifestOf(cfg, x), ChunksOf(cfg, x), IndexesOf(cfg, x))
    ensures ManifestOf(cfg, x).services.Keys == {x.service}
    ensures ManifestOf(cfg, x).services[x.service].chunks == [RefOf(cfg, x)]
    ensures RecordsAt(cfg.libs, ChunksOf(cfg, x), RefOf(cfg, x)) == [x]
  {
    hide WindowOf, OpenChunk, IndexOf, Own, StoreOk;
    var m, buckets, built := RegisteredManifest(cfg, x), [BucketOf(cfg, x)], BuiltOf(cfg, x);
    NothingBuiltOk(cfg.libs, m);
    BuildOneOk(cfg.libs, m, [], NOTHING_BUILT, BucketOf(cfg, x), ZERO32);
    assert [] + buckets == buckets;
    OpenMadeChunk(cfg.libs, 0, Head(GENESIS, 0), BucketOf(cfg, x), ZERO32);
    hide BuiltOk;
    assert GoodBuckets(cfg, buckets) by { BucketIsGood(cfg, x); }
    assert built.chunks[0].Ref() == RefOf(cfg, x);
    RegisteredIsConsistent(cfg, x);
    assert IsStored(built, ChunksOf(cfg, x), IndexesOf(cfg, x), 0);
    CommitKeepsStore(cfg, m, m, buckets, built, ChunksOf(cfg, x), IndexesOf(cfg, x));
  }

  lemma BucketIsGood(cfg: Config, x: LogRecord)
    requires Dated(cfg.libs, x.timestamp)
    ensures GoodBuckets(cfg, [BucketOf(cfg, x)])
  {
  }

  lemma RegisteredIsConsistent(cfg: Config, x: LogRecord)
    ensures StoreOk(cfg, RegisteredManifest(cfg, x), ChunksOf(cfg, x), IndexesOf(cfg, x))
  {
    hide EntryOk, BuiltOf;
    FreshEntryOk(cfg, x.service, 0, ChunksOf(cfg, x), IndexesOf(cfg, x));
  }
}
