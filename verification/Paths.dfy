/** How a chunk reference becomes a file path or an object path, and when two of them coincide. */
module Paths {
  import opened Core

  const DASH: byte := 45

  // "chunks", "index", ".bin", ".idx", "manifest.json"
  const CHUNKS: Text := [99, 104, 117, 110, 107, 115]
  const INDEX: Text := [105, 110, 100, 101, 120]
  const BIN: Text := [46, 98, 105, 110]
  const IDX: Text := [46, 105, 100, 120]
  const MANIFEST_JSON: Text := [109, 97, 110, 105, 102, 101, 115, 116, 46, 106, 115, 111, 110]

  /** A number in decimal digits. */
  function Decimal(n: nat): (d: Text)
    ensures forall x :: x in d ==> 48 <= x <= 57
  {
    if n < 10 then [48 + n] else Decimal(n / 10) + [48 + n % 10]
  }

  function Digits(d: Text): int {
    if d == [] then 0 else 10 * Digits(d[..|d| - 1]) + d[|d| - 1] - 48
  }

  lemma {:induction false} DecimalReadsBack(n: nat)
    ensures Digits(Decimal(n)) == n
  {
    if n < 10 {
      assert Decimal(n)[..0] == [];
    } else {
      DecimalReadsBack(n / 10);
      assert Decimal(n)[..|Decimal(n)| - 1] == Decimal(n / 10);
    }
  }

  /** `{window}-{sequence}{ext}` */
  function FileName(window: Text, sequence: nat, ext: Text): Text {
    window + [DASH] + Decimal(sequence) + ext
  }

  lemma DropSuffix(a: Text, b: Text, suffix: Text)
    requires a + suffix == b + suffix
    ensures a == b
  {
    assert a == (a + suffix)[..|a|] && b == (b + suffix)[..|b|];
    assert |a + suffix| == |b + suffix|;
  }

  lemma DropPrefix(prefix: Text, a: Text, b: Text)
    requires prefix + a == prefix + b
    ensures a == b
  {
    assert a == (prefix + a)[|prefix|..] && b == (prefix + b)[|prefix|..];
  }

  lemma LaterSeparatorIsInside(sep: byte, v: Text, d: Text, w: Text, e: Text)
    requires v + [sep] + d == w + [sep] + e
    requires |v| < |w|
    ensures sep in d
  {
    var x, y := v + [sep] + d, w + [sep] + e;
    assert y[|w|] == sep;
    assert x[|w|] == d[|w| - |v| - 1];
  }

  /** A text splits in one way at its last separator. */
  lemma LastSeparator(sep: byte, v: Text, d: Text, w: Text, e: Text)
    requires v + [sep] + d == w + [sep] + e
    requires sep !in d && sep !in e
    ensures v == w && d == e
  {
    if |v| < |w| {
      LaterSeparatorIsInside(sep, v, d, w, e);
    } else if |v| > |w| {
      LaterSeparatorIsInside(sep, w, e, v, d);
    } else {
      var x, y := v + [sep] + d, w + [sep] + e;
      assert v == x[..|v|] && w == y[..|v|];
      assert d == x[|v| + 1..] && e == y[|v| + 1..];
    }
  }

  lemma FileNameInjective(v: Text, m: nat, w: Text, n: nat, ext: Text)
    requires FileName(v, m, ext) == FileName(w, n, ext)
    ensures v == w && m == n
  {
    DropSuffix(v + [DASH] + Decimal(m), w + [DASH] + Decimal(n), ext);
    LastSeparator(DASH, v, Decimal(m), w, Decimal(n));
    DecimalReadsBack(m);
    DecimalReadsBack(n);
  }

  lemma FileNameHasNoSlash(window: Text, sequence: nat, ext: Text)
    requires SLASH !in window && SLASH !in ext
    ensures SLASH !in FileName(window, sequence, ext)
  {
  }

  // ---- Local paths, below the bucket directory ----

  type Path = Text

  predicate SafeRef(r: ChunkRef) {
    Safe(r.service) && Safe(r.window)
  }

  /** `{kind}/{service}/` */
  function Directory(kind: Text, service: Text): Path {
    kind + [SLASH] + service + [SLASH]
  }

  function ChunkPath(r: ChunkRef): Path {
    Directory(CHUNKS, r.service) + FileName(r.window, r.sequence, BIN)
  }

  function IndexPath(r: ChunkRef): Path {
    Directory(INDEX, r.service) + FileName(r.window, r.sequence, IDX)
  }

  const MANIFEST_PATH: Path := MANIFEST_JSON

  /** A path is read back component by component, since no component holds a separator. */
  lemma DirectorySplits(kind: Text, s: Text, x: Text, t: Text, y: Text)
    requires Directory(kind, s) + x == Directory(kind, t) + y
    requires SLASH !in x && SLASH !in y
    ensures s == t && x == y
  {
    assert Directory(kind, s) + x == (kind + [SLASH] + s) + [SLASH] + x;
    assert Directory(kind, t) + y == (kind + [SLASH] + t) + [SLASH] + y;
    LastSeparator(SLASH, kind + [SLASH] + s, x, kind + [SLASH] + t, y);
    DropPrefix(kind + [SLASH], s, t);
  }

  /** Distinct references with safe names have distinct files, and chunks, indexes and the manifest never
      share one. */
  lemma LocalPathsInjective(r: ChunkRef, q: ChunkRef)
    requires SafeRef(r) && SafeRef(q)
    ensures ChunkPath(r) == ChunkPath(q) <==> r == q
    ensures IndexPath(r) == IndexPath(q) <==> r == q
    ensures ChunkPath(r) != IndexPath(q)
    ensures ChunkPath(r) != MANIFEST_PATH && IndexPath(r) != MANIFEST_PATH
  {
    hide FileName, Directory;
    FileNameHasNoSlash(r.window, r.sequence, BIN);
    FileNameHasNoSlash(q.window, q.sequence, BIN);
    FileNameHasNoSlash(r.window, r.sequence, IDX);
    FileNameHasNoSlash(q.window, q.sequence, IDX);
    if ChunkPath(r) == ChunkPath(q) {
      DirectorySplits(CHUNKS, r.service, FileName(r.window, r.sequence, BIN), q.service, FileName(q.window,
        q.sequence, BIN));
      FileNameInjective(r.window, r.sequence, q.window, q.sequence, BIN);
    }
    if IndexPath(r) == IndexPath(q) {
      DirectorySplits(INDEX, r.service, FileName(r.window, r.sequence, IDX), q.service, FileName(q.window, q.sequence, IDX));
      FileNameInjective(r.window, r.sequence, q.window, q.sequence, IDX);
    }
    KindsDiffer(r.service, q.service);
    assert ChunkPath(r)[0] == CHUNKS[0] && IndexPath(q)[0] == INDEX[0] && IndexPath(r)[0] == INDEX[0];
  }

  lemma KindsDiffer(s: Text, t: Text)
    ensures |Directory(CHUNKS, s)| > 0 && |Directory(INDEX, t)| > 0 && |Directory(INDEX, s)| > 0
    ensures Directory(CHUNKS, s)[0] == CHUNKS[0]
    ensures Directory(INDEX, t)[0] == INDEX[0] && Directory(INDEX, s)[0] == INDEX[0]
  {
  }

  // ---- Sia paths: one string per object ----

  /** `{bucket}/chunks/{service}/` */
  function ServicePrefix(bucket: Text, service: Text): Text {
    bucket + [SLASH] + CHUNKS + [SLASH] + (service + [SLASH])
  }

  function ObjectPath(bucket: Text, r: ChunkRef): Text {
    ServicePrefix(bucket, r.service) + FileName(r.window, r.sequence, BIN)
  }

  function ManifestObject(bucket: Text): Text {
    bucket + [SLASH] + MANIFEST_JSON
  }

  lemma ObjectPathSplits(bucket: Text, r: ChunkRef)
    ensures ObjectPath(bucket, r) ==
      (bucket + [SLASH] + CHUNKS + [SLASH]) + (r.service + [SLASH] + FileName(r.window, r.sequence, BIN))
    ensures ObjectPath(bucket, r) ==
      (bucket + [SLASH] + CHUNKS + [SLASH]) + FileName(r.service + [SLASH] + r.window, r.sequence, BIN)
  {
    assert r.service + [SLASH] + FileName(r.window, r.sequence, BIN) ==
      FileName(r.service + [SLASH] + r.window, r.sequence, BIN);
  }

  /** The service goes into the path unescaped: two references share an object path exactly when their
      sequences agree and their services and windows join to the same text. */
  lemma ObjectsCollideIffJoinedAlike(bucket: Text, r: ChunkRef, q: ChunkRef)
    ensures ObjectPath(bucket, r) == ObjectPath(bucket, q) <==>
      r.sequence == q.sequence && r.service + [SLASH] + r.window == q.service + [SLASH] + q.window
  {
    hide ObjectPath, FileName;
    ObjectPathSplits(bucket, r);
    ObjectPathSplits(bucket, q);
    var v, w := r.service + [SLASH] + r.window, q.service + [SLASH] + q.window;
    if ObjectPath(bucket, r) == ObjectPath(bucket, q) {
      DropPrefix(bucket + [SLASH] + CHUNKS + [SLASH], FileName(v, r.sequence, BIN), FileName(w, q.sequence, BIN));
      FileNameInjective(v, r.sequence, w, q.sequence, BIN);
    }
  }

  /** Window labels hold no slash, so the objects of distinct references never share a path, whatever the
      services are called. */
  lemma ObjectPathInjective(bucket: Text, r: ChunkRef, q: ChunkRef)
    requires SLASH !in r.window && SLASH !in q.window
    ensures ObjectPath(bucket, r) == ObjectPath(bucket, q) <==> r == q
  {
    ObjectsCollideIffJoinedAlike(bucket, r, q);
    if r.service + [SLASH] + r.window == q.service + [SLASH] + q.window {
      LastSeparator(SLASH, r.service, r.window, q.service, q.window);
    }
  }

  lemma ManifestIsNoChunk(bucket: Text, r: ChunkRef)
    ensures ObjectPath(bucket, r) != ManifestObject(bucket)
  {
    ObjectPathSplits(bucket, r);
    assert ObjectPath(bucket, r)[|bucket| + 1] == CHUNKS[0];
    assert ManifestObject(bucket)[|bucket| + 1] == MANIFEST_JSON[0];
  }

  lemma PrefixOfJoin(s: Text, t: Text, x: Text)
    requires SLASH !in x
    ensures s + [SLASH] <= t + [SLASH] + x <==> s == t || Nested(s, t)
  {
    var joined := t + [SLASH] + x;
    if s + [SLASH] <= joined {
      assert joined[|s|] == SLASH;
      if |s| > |t| {
        SlashInTail(s, t, x);
      } else if |s| < |t| {
        assert s + [SLASH] == joined[..|s| + 1] == t[..|s| + 1];
      } else {
        assert s == joined[..|s|] == t;
      }
    }
  }

  lemma SlashInTail(s: Text, t: Text, x: Text)
    requires s + [SLASH] <= t + [SLASH] + x && |s| > |t|
    ensures SLASH in x
  {
    var joined := t + [SLASH] + x;
    assert joined[|s|] == SLASH && joined[|s|] == x[|s| - |t| - 1];
  }

  /** The listing prefix of a service matches its own objects and those of every service nested in it. */
  lemma PrefixFindsNested(bucket: Text, service: Text, r: ChunkRef)
    requires SLASH !in r.window
    ensures ServicePrefix(bucket, service) <= ObjectPath(bucket, r) <==> Lists(ByPrefix, service, r.service)
  {
    hide FileName;
    var front, x := bucket + [SLASH] + CHUNKS + [SLASH], FileName(r.window, r.sequence, BIN);
    FileNameHasNoSlash(r.window, r.sequence, BIN);
    PrefixOfJoin(service, r.service, x);
    ObjectPathSplits(bucket, r);
    PrefixUnderFront(front, service + [SLASH], r.service + [SLASH] + x);
  }

  lemma PrefixUnderFront(front: Text, a: Text, b: Text)
    ensures front + a <= front + b <==> a <= b
  {
    if front + a <= front + b {
      assert a == (front + a)[|front|..] == (front + b)[|front|..|front| + |a|] == b[..|a|];
    }
    if a <= b {
      assert front + b == front + a + b[|a|..];
    }
  }

  // ---- The formats, spelled out ----

  function Ascii(s: string): Text
    requires forall i :: 0 <= i < |s| ==> s[i] < 128 as char
  {
    seq<byte>(|s|, i requires 0 <= i < |s| => s[i] as int)
  }

  lemma Constants()
    ensures CHUNKS == Ascii("chunks") && INDEX == Ascii("index")
    ensures BIN == Ascii(".bin") && IDX == Ascii(".idx") && MANIFEST_JSON == Ascii("manifest.json")
    ensures [SLASH] == Ascii("/") && [DASH] == Ascii("-") && [DOT] == Ascii(".") && [BACKSLASH] == Ascii("\\")
  {
  }

  /** No leading zero. */
  lemma {:induction false} DecimalIsPlain(n: nat)
    ensures n > 0 ==> Decimal(n)[0] != 48
    ensures n == 0 ==> Decimal(n) == Ascii("0")
  {
    if n >= 10 { DecimalIsPlain(n / 10); }
  }

  /** Where a chunk, its index and the manifest are kept. */
  lemma PathFormats(bucket: Text, r: ChunkRef)
    ensures ChunkPath(r) == Ascii("chunks/") + r.service + Ascii("/") + r.window + Ascii("-") + Decimal(r.sequence) +
      Ascii(".bin")
    ensures IndexPath(r) == Ascii("index/") + r.service + Ascii("/") + r.window + Ascii("-") + Decimal(r.sequence) +
      Ascii(".idx")
    ensures ObjectPath(bucket, r) == bucket + Ascii("/chunks/") + r.service + Ascii("/") + r.window + Ascii("-") +
      Decimal(r.sequence) + Ascii(".bin")
    ensures MANIFEST_PATH == Ascii("manifest.json") && ManifestObject(bucket) == bucket + Ascii("/manifest.json")
  {
    hide Ascii, Decimal;
    Constants();
    SlashedConstants();
  }

  lemma SlashedConstants()
    ensures Ascii("chunks/") == CHUNKS + [SLASH] && Ascii("index/") == INDEX + [SLASH]
    ensures Ascii("/chunks/") == [SLASH] + CHUNKS + [SLASH] && Ascii("/manifest.json") == [SLASH] + MANIFEST_JSON
  {
  }

  lemma SplitAt(c: Text, x: byte)
    ensures x in c <==> exists a, b :: c == a + [x] + b
  {
    if x in c {
      var i :| 0 <= i < |c| && c[i] == x;
      assert c == c[..i] + [x] + c[i + 1..];
    }
  }

  /** The unsafe names are the empty one, ".", ".." and all those with a slash or a backslash in them. */
  lemma UnsafeNames(c: Text)
    ensures !Safe(c) <==>
      || c == Ascii("") || c == Ascii(".") || c == Ascii("..")
      || (exists a, b :: c == a + Ascii("/") + b)
      || (exists a, b :: c == a + Ascii("\\") + b)
  {
    Constants();
    SplitAt(c, SLASH);
    SplitAt(c, BACKSLASH);
    assert Ascii("..") == [DOT, DOT] && Ascii("") == [];
  }
}
