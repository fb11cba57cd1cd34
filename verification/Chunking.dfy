/** Grouping a batch into `(service, window)` buckets. */
module Chunking {
  import opened Core
  import opened Ordering
  import opened Windows

  function KeyOf(cfg: Config, r: LogRecord): BucketKey {
    BucketKey(r.service, WindowLabel(cfg.libs, r.timestamp, cfg.windowSecs))
  }

  ghost function Keys(cfg: Config, records: seq<LogRecord>): set<BucketKey> {
    set r | r in records :: KeyOf(cfg, r)
  }

  /** The records of one bucket, in input order. */
  function RecordsOf(cfg: Config, records: seq<LogRecord>, key: BucketKey): seq<LogRecord> {
    if records == [] then []
    else
      var n := |records| - 1;
      RecordsOf(cfg, records[..n], key) + if KeyOf(cfg, records[n]) == key then [records[n]] else []
  }

  function BucketFor(cfg: Config, records: seq<LogRecord>, key: BucketKey): Bucket {
    Bucket(key.service, key.window, RecordsOf(cfg, records, key))
  }

  ghost function SortedKeys(cfg: Config, records: seq<LogRecord>): (keys: seq<BucketKey>)
    ensures Enumerates(keys, Keys(cfg, records), KeyLt)
  {
    KeyLtStrictTotal();
    Sorted(Keys(cfg, records), KeyLt)
  }

  ghost function BucketsFor(cfg: Config, records: seq<LogRecord>, keys: seq<BucketKey>): (b: seq<Bucket>)
    ensures |b| == |keys|
  {
    seq(|keys|, i requires 0 <= i < |keys| => BucketFor(cfg, records, keys[i]))
  }

  /** What `chunk_batch` returns: one bucket per key present, in key order. */
  ghost function ChunkBatch(cfg: Config, records: seq<LogRecord>): (buckets: seq<Bucket>) {
    BucketsFor(cfg, records, SortedKeys(cfg, records))
  }

  lemma RecordsOfSnoc(cfg: Config, records: seq<LogRecord>, r: LogRecord, key: BucketKey)
    ensures RecordsOf(cfg, records + [r], key) ==
      RecordsOf(cfg, records, key) + if KeyOf(cfg, r) == key then [r] else []
  {
    assert (records + [r])[..|records|] == records;
  }

  lemma KeysSnoc(cfg: Config, records: seq<LogRecord>, r: LogRecord)
    ensures Keys(cfg, records + [r]) == Keys(cfg, records) + {KeyOf(cfg, r)}
  {
    var all := Keys(cfg, records + [r]);
    forall k | k in Keys(cfg, records) ensures k in all {
      var x :| x in records && KeyOf(cfg, x) == k;
      assert x in records + [r];
    }
    assert r in records + [r];
  }

  /** `groups` holds the records of each key present. */
  ghost predicate Groups(cfg: Config, records: seq<LogRecord>, groups: map<BucketKey, seq<LogRecord>>) {
    && groups.Keys == Keys(cfg, records)
    && (forall k :: k in groups ==> groups[k] == RecordsOf(cfg, records, k))
  }

  lemma GroupsSnoc(cfg: Config, records: seq<LogRecord>, r: LogRecord, groups: map<BucketKey, seq<LogRecord>>)
    requires Groups(cfg, records, groups)
    ensures var key := KeyOf(cfg, r);
      Groups(cfg, records + [r], groups[key := (if key in groups then groups[key] else []) + [r]])
  {
    hide KeyOf, RecordsOf;
    var key := KeyOf(cfg, r);
    KeysSnoc(cfg, records, r);
    if key !in groups {
      AbsentKeyHasNoRecords(cfg, records, key);
    }
    forall k | k in groups || k == key
      ensures RecordsOf(cfg, records + [r], k) ==
        RecordsOf(cfg, records, k) + if key == k then [r] else []
    {
      RecordsOfSnoc(cfg, records, r, k);
    }
  }

  /** `chunk_batch`: fills a map record by record, then drains it in key order. */
  method GroupIntoBuckets(cfg: Config, records: seq<LogRecord>) returns (buckets: seq<Bucket>)
    ensures buckets == ChunkBatch(cfg, records)
  {
    var groups: map<BucketKey, seq<LogRecord>> := map[];
    for i := 0 to |records|
      invariant Groups(cfg, records[..i], groups)
    {
      var key := KeyOf(cfg, records[i]);
      GroupsSnoc(cfg, records[..i], records[i], groups);
      assert records[..i + 1] == records[..i] + [records[i]];
      groups := groups[key := (if key in groups then groups[key] else []) + [records[i]]];
    }
    assert records[..|records|] == records;
    buckets := Drain(cfg, records, groups);
  }

  lemma {:induction false} AbsentKeyHasNoRecords(cfg: Config, records: seq<LogRecord>, key: BucketKey)
    requires key !in Keys(cfg, records)
    ensures RecordsOf(cfg, records, key) == []
  {
    if records != [] {
      var n := |records| - 1;
      assert records[n] in records && forall r :: r in records[..n] ==> r in records;
      AbsentKeyHasNoRecords(cfg, records[..n], key);
    }
  }

  method Drain(cfg: Config, ghost records: seq<LogRecord>, groups: map<BucketKey, seq<LogRecord>>)
    returns (buckets: seq<Bucket>)
    requires Groups(cfg, records, groups)
    ensures buckets == ChunkBatch(cfg, records)
  {
    hide KeyLt, RecordsOf, Enumerates;
    KeyLtStrictTotal();
    buckets := [];
    var rest := groups.Keys;
    ghost var keys: seq<BucketKey> := [];
    assert Enumerates(keys, {}, KeyLt) by { NothingListed(); }
    assert groups.Keys - rest == {};
    while rest != {}
      invariant Drained(keys, groups.Keys, rest, KeyLt)
      invariant buckets == BucketsFor(cfg, records, keys)
      decreases rest
    {
      var k := LeastKey(rest);
      DrainStep(keys, groups.Keys, rest, k, KeyLt);
      keys := keys + [k];
      buckets := buckets + [Bucket(k.service, k.window, groups[k])];
      rest := rest - {k};
    }
    DrainEnd(keys, groups.Keys, KeyLt);
  }

  lemma NothingListed()
    ensures Enumerates([], {}, KeyLt)
  {
  }

  ghost predicate InBucket(cfg: Config, r: LogRecord, b: Bucket) {
    KeyOf(cfg, r) == BucketKey(b.service, b.window)
  }

  lemma {:induction false} RecordsOfKey(cfg: Config, records: seq<LogRecord>, key: BucketKey)
    ensures forall r :: r in RecordsOf(cfg, records, key) <==> r in records && KeyOf(cfg, r) == key
  {
    if records != [] {
      var n := |records| - 1;
      RecordsOfKey(cfg, records[..n], key);
      assert records == records[..n] + [records[n]];
    }
  }

  /** Buckets come in strictly increasing `(service, window)` order, none is empty, and each holds
      records of its own service and window. */
  lemma BucketsAreWellFormed(cfg: Config, records: seq<LogRecord>)
    ensures var b := ChunkBatch(cfg, records);
      && (forall i, j :: 0 <= i < j < |b| ==>
            KeyLt(BucketKey(b[i].service, b[i].window), BucketKey(b[j].service, b[j].window)))
      && (forall i :: 0 <= i < |b| ==> b[i].records != [])
      && (forall i, r :: 0 <= i < |b| && r in b[i].records ==> r in records && InBucket(cfg, r, b[i]))
      && (b == [] <==> records == [])
  {
    var keys, b := SortedKeys(cfg, records), ChunkBatch(cfg, records);
    forall i | 0 <= i < |b|
      ensures b[i].records != []
      ensures forall r :: r in b[i].records ==> r in records && InBucket(cfg, r, b[i])
    {
      assert keys[i] in keys;
      var r :| r in records && KeyOf(cfg, r) == keys[i];
      RecordsOfKey(cfg, records, keys[i]);
      assert r in b[i].records;
    }
    if records != [] {
      assert records[0] in records;
      assert KeyOf(cfg, records[0]) in keys;
    }
  }

  /** Every bucket is labelled with a printed date, so its window is a safe name and holds no slash. */
  lemma BucketWindowsAreSafe(cfg: Config, records: seq<LogRecord>)
    requires cfg.libs.Lawful()
    ensures forall b :: b in ChunkBatch(cfg, records) ==> Safe(b.window) && SLASH !in b.window
  {
    var keys, buckets := SortedKeys(cfg, records), ChunkBatch(cfg, records);
    forall b | b in buckets ensures Safe(b.window) {
      var i :| 0 <= i < |buckets| && buckets[i] == b;
      assert keys[i] in keys;
      var r :| r in records && KeyOf(cfg, r) == keys[i];
    }
  }

  function Flatten(buckets: seq<Bucket>): seq<LogRecord> {
    if buckets == [] then [] else Flatten(buckets[..|buckets| - 1]) + buckets[|buckets| - 1].records
  }

  lemma {:induction false} CountInBucket(cfg: Config, records: seq<LogRecord>, key: BucketKey, r: LogRecord)
    ensures multiset(RecordsOf(cfg, records, key))[r] == if KeyOf(cfg, r) == key then multiset(records)[r] else 0
  {
    if records != [] {
      var n := |records| - 1;
      CountInBucket(cfg, records[..n], key, r);
      assert records == records[..n] + [records[n]];
    }
  }

  lemma {:induction false} CountInBuckets(cfg: Config, records: seq<LogRecord>, keys: seq<BucketKey>, r: LogRecord)
    requires StrictlySorted(keys, KeyLt)
    ensures multiset(Flatten(BucketsFor(cfg, records, keys)))[r] ==
      if KeyOf(cfg, r) in keys then multiset(records)[r] else 0
  {
    KeyLtStrictTotal();
    if keys != [] {
      var n := |keys| - 1;
      var b := BucketsFor(cfg, records, keys);
      assert b[..n] == BucketsFor(cfg, records, keys[..n]);
      CountInBuckets(cfg, records, keys[..n], r);
      CountInBucket(cfg, records, keys[n], r);
      assert keys == keys[..n] + [keys[n]];
      assert keys[n] !in keys[..n];
    }
  }

  /** Bucketing neither drops, duplicates nor alters a record. */
  lemma BucketsConserveRecords(cfg: Config, records: seq<LogRecord>)
    ensures multiset(Flatten(ChunkBatch(cfg, records))) == multiset(records)
  {
    var keys := SortedKeys(cfg, records);
    var flat := Flatten(ChunkBatch(cfg, records));
    forall r ensures multiset(flat)[r] == multiset(records)[r] {
      CountInBuckets(cfg, records, keys, r);
      if r in multiset(records) {
        assert r in records;
        assert KeyOf(cfg, r) in Keys(cfg, records);
        assert KeyOf(cfg, r) in keys;
      }
    }
  }

  lemma {:induction false} RecordsKeepOrder(cfg: Config, records: seq<LogRecord>, key: BucketKey)
    ensures Picks(RecordsOf(cfg, records, key), records, (r: LogRecord) => KeyOf(cfg, r) == key)
  {
    hide KeyOf, Picks;
    var wanted := (r: LogRecord) => KeyOf(cfg, r) == key;
    if records == [] {
      PicksNothing(wanted);
    } else {
      var n := |records| - 1;
      RecordsKeepOrder(cfg, records[..n], key);
      PicksSnoc(RecordsOf(cfg, records[..n], key), records[..n], wanted, records[n]);
      assert records == records[..n] + [records[n]];
    }
  }

  /** Each bucket holds exactly the batch's records of its service and label, in the order they came. */
  lemma BucketsKeepOrder(cfg: Config, records: seq<LogRecord>, b: Bucket)
    requires b in ChunkBatch(cfg, records)
    ensures Picks(b.records, records,
      (r: LogRecord) => r.service == b.service && WindowLabel(cfg.libs, r.timestamp, cfg.windowSecs) == b.window)
  {
    hide RecordsOf, Picks, WindowLabel;
    var key := BucketKey(b.service, b.window);
    assert b.records == RecordsOf(cfg, records, key);
    RecordsKeepOrder(cfg, records, key);
    SamePicks(b.records, records, (r: LogRecord) => KeyOf(cfg, r) == key,
      (r: LogRecord) => r.service == b.service && WindowLabel(cfg.libs, r.timestamp, cfg.windowSecs) == b.window);
  }
}
