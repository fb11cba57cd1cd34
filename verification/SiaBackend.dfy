/** The content-addressed backend: an append-only list of objects, read newest first by path, implements
    the same keyed store. */
module Sia {
  import opened Core
  import opened Framing
  import opened KeyedStore
  import opened Paths

  const EVENTS_PAGE := 500

  datatype ObjectMeta = ObjectMeta(path: Text, index: Option<ServiceWindowIndex>)

  /** `meta` is absent when the metadata blob does not parse. */
  datatype StoredObject = StoredObject(meta: Option<ObjectMeta>, body: Bytes, updatedAt: int)

  datatype Event = Event(updatedAt: int, id: nat, deleted: bool, content: Option<StoredObject>)

  datatype Cursor = Cursor(after: int, id: nat)

  predicate Past(cursor: Option<Cursor>, e: Event) {
    cursor.Some? ==>
      cursor.value.after < e.updatedAt || (cursor.value.after == e.updatedAt && cursor.value.id < e.id)
  }

  function CursorAt(e: Event): Cursor {
    Cursor(e.updatedAt, e.id)
  }

  /** The indexer lists events in strictly increasing `(updated_at, id)` order, each stamped as its object. */
  ghost predicate Ordered(events: seq<Event>) {
    && (forall i, j :: 0 <= i < j < |events| ==> Past(Some(CursorAt(events[i])), events[j]))
    && (forall e :: e in events && e.content.Some? ==> e.content.value.updatedAt == e.updatedAt)
  }

  predicate IsLive(e: Event) {
    !e.deleted && e.content.Some? && e.content.value.meta.Some?
  }

  predicate AtPath(e: Event, path: Text) {
    IsLive(e) && e.content.value.meta.value.path == path
  }

  /** The last live object at a path. */
  function Newest(events: seq<Event>, path: Text): Option<StoredObject> {
    if events == [] then None
    else if AtPath(events[|events| - 1], path) then events[|events| - 1].content
    else Newest(events[..|events| - 1], path)
  }

  lemma NewestSnoc(events: seq<Event>, e: Event, path: Text)
    ensures Newest(events + [e], path) == if AtPath(e, path) then e.content else Newest(events, path)
  {
    assert (events + [e])[..|events|] == events;
  }

  lemma {:induction false} NewestIsListed(events: seq<Event>, path: Text)
    ensures Newest(events, path).Some? <==> exists e :: e in events && AtPath(e, path)
    ensures Newest(events, path).Some? ==> exists e :: e in events && AtPath(e, path) && e.content == Newest(events, path)
  {
    if events != [] {
      var n := |events| - 1;
      assert events == events[..n] + [events[n]];
      NewestIsListed(events[..n], path);
      assert forall e :: e in events <==> e in events[..n] || e == events[n];
      if !AtPath(events[n], path) && Newest(events[..n], path).Some? {
        var e :| e in events[..n] && AtPath(e, path) && e.content == Newest(events[..n], path);
        assert e in events;
      }
    }
  }

  /** A live object whose metadata names `path`. */
  predicate ObjectAt(e: Event, path: Text, o: StoredObject) {
    !e.deleted && e.content == Some(o) && o.meta.Some? && o.meta.value.path == path
  }

  ghost predicate LastAt(events: seq<Event>, path: Text, o: StoredObject, i: nat) {
    && i < |events| && ObjectAt(events[i], path, o)
    && (forall j, x :: i < j < |events| ==> !ObjectAt(events[j], path, x))
  }

  /** What is found at a path is the last object listed there by an event that is no deletion. */
  lemma {:induction false} NewestIsLast(events: seq<Event>, path: Text, o: StoredObject)
    ensures Newest(events, path) == Some(o) <==> exists i: nat :: LastAt(events, path, o, i)
  {
    if events != [] {
      var n := |events| - 1;
      NewestIsLast(events[..n], path, o);
      if AtPath(events[n], path) {
        if Newest(events, path) == Some(o) { assert LastAt(events, path, o, n); }
        if i: nat :| LastAt(events, path, o, i) {
          assert ObjectAt(events[n], path, events[n].content.value);
        }
      } else {
        if i: nat :| LastAt(events[..n], path, o, i) { assert LastAt(events, path, o, i); }
        if i: nat :| LastAt(events, path, o, i) { assert LastAt(events[..n], path, o, i); }
      }
    }
  }

  // ---- Listing ----

  predicate ListedUnder(e: Event, prefix: Text, range: Option<TimeRange>) {
    && IsLive(e)
    && prefix <= e.content.value.meta.value.path
    && e.content.value.meta.value.index.Some?
    && Selected(range, e.content.value.meta.value.index.value)
  }

  /** The refs of the listed events, in event order: one per upload, so a re-uploaded ref repeats. */
  function Listing(events: seq<Event>, prefix: Text, range: Option<TimeRange>): seq<ChunkRef> {
    if events == [] then []
    else
      var e := events[|events| - 1];
      Listing(events[..|events| - 1], prefix, range) +
      if ListedUnder(e, prefix, range) then [e.content.value.meta.value.index.value.chunk] else []
  }

  lemma {:induction false} ListingMember(events: seq<Event>, prefix: Text, range: Option<TimeRange>, r: ChunkRef)
    ensures r in Listing(events, prefix, range) <==>
      exists e :: e in events && ListedUnder(e, prefix, range) && e.content.value.meta.value.index.value.chunk == r
  {
    hide ListedUnder;
    if events != [] {
      var n := |events| - 1;
      ListingMember(events[..n], prefix, range, r);
      assert events == events[..n] + [events[n]];
    }
  }

  // ---- What the objects hold ----

  /** An archive, kept as one object. */
  datatype Held = Held(chunk: Chunk, index: ServiceWindowIndex)

  /** The archives by object path: two references with one path share an object. */
  type Holdings = map<Text, Held>

  ghost predicate Mirrored(codec: Codec, bucket: Text, events: seq<Event>, held: Holdings, r: ChunkRef) {
    var path := ObjectPath(bucket, r);
    match Newest(events, path)
    case None => path !in held
    case Some(o) =>
      && path in held
      && Frameable(codec, held[path].chunk) && o.body == Frame(codec.libs, held[path].chunk)
      && o.meta == Some(ObjectMeta(path, Some(held[path].index)))
  }

  /** Every live archive object sits at the path of the chunk its index names. */
  ghost predicate WellPlaced(bucket: Text, e: Event) {
    IsLive(e) && e.content.value.meta.value.index.Some? ==>
      e.content.value.meta.value.path == ObjectPath(bucket, e.content.value.meta.value.index.value.chunk)
  }

  ghost predicate AllPlaced(bucket: Text, held: Holdings) {
    forall path :: path in held ==>
      path == ObjectPath(bucket, held[path].chunk.Ref()) && IsArchive(held[path].chunk, held[path].index)
  }

  ghost predicate Mirrors(codec: Codec, bucket: Text, events: seq<Event>, held: Holdings) {
    && (forall r: ChunkRef :: Mirrored(codec, bucket, events, held, r))
    && AllPlaced(bucket, held)
    && (forall e :: e in events ==> WellPlaced(bucket, e))
  }

  ghost predicate ManifestMirrored(codec: Codec, bucket: Text, events: seq<Event>, manifest: Option<Manifest>) {
    match Newest(events, ManifestObject(bucket))
    case None => manifest.None?
    case Some(o) => manifest.Some? && o.body == codec.manifestJson(manifest.value)
  }

  /** `e` is a new live object carrying `meta` and `body`. */
  predicate Carries(e: Event, meta: ObjectMeta, body: Bytes) {
    !e.deleted && e.content == Some(StoredObject(Some(meta), body, e.updatedAt))
  }

  lemma ArchiveAppended(codec: Codec, bucket: Text, events: seq<Event>, held: Holdings, manifest: Option<Manifest>,
    e: Event, c: Chunk, ix: ServiceWindowIndex)
    requires Mirrors(codec, bucket, events, held) && ManifestMirrored(codec, bucket, events, manifest)
    requires IsArchive(c, ix) && Frameable(codec, c)
    requires Carries(e, ObjectMeta(ObjectPath(bucket, c.Ref()), Some(ix)), Frame(codec.libs, c))
    ensures Mirrors(codec, bucket, events + [e], held[ObjectPath(bucket, c.Ref()) := Held(c, ix)])
    ensures ManifestMirrored(codec, bucket, events + [e], manifest)
  {
    hide Frame, ObjectPath, ManifestObject, Newest;
    var longer, held' := events + [e], held[ObjectPath(bucket, c.Ref()) := Held(c, ix)];
    forall r: ChunkRef ensures Mirrored(codec, bucket, longer, held', r) {
      NewestSnoc(events, e, ObjectPath(bucket, r));
      assert Mirrored(codec, bucket, events, held, r);
    }
    ManifestIsNoChunk(bucket, c.Ref());
    NewestSnoc(events, e, ManifestObject(bucket));
  }

  lemma ManifestAppended(codec: Codec, bucket: Text, events: seq<Event>, held: Holdings, e: Event, m: Manifest)
    requires Mirrors(codec, bucket, events, held)
    requires Carries(e, ObjectMeta(ManifestObject(bucket), None), codec.manifestJson(m))
    ensures Mirrors(codec, bucket, events + [e], held)
    ensures ManifestMirrored(codec, bucket, events + [e], Some(m))
  {
    hide Frame, ObjectPath, ManifestObject, Newest;
    var longer := events + [e];
    forall r: ChunkRef ensures Mirrored(codec, bucket, longer, held, r) {
      NewestSnoc(events, e, ObjectPath(bucket, r));
      ManifestIsNoChunk(bucket, r);
      assert Mirrored(codec, bucket, events, held, r);
    }
    NewestSnoc(events, e, ManifestObject(bucket));
  }

  predicate HeldUnder(held: Holdings, prefix: Text, range: Option<TimeRange>, path: Text) {
    path in held && prefix <= path && Selected(range, held[path].index)
  }

  /** The listing by prefix finds only references whose path holds an archive and has the prefix; and of the
      archives held under the prefix all that fall in the range. */
  lemma ListingIsHeld(codec: Codec, bucket: Text, events: seq<Event>, held: Holdings, prefix: Text,
    range: Option<TimeRange>, r: ChunkRef)
    requires Mirrors(codec, bucket, events, held)
    ensures r in Listing(events, prefix, range) ==> ObjectPath(bucket, r) in held && prefix <= ObjectPath(bucket, r)
    ensures forall path :: HeldUnder(held, prefix, range, path) && held[path].chunk.Ref() == r ==>
      r in Listing(events, prefix, range)
  {
    hide Frame, ObjectPath, Newest, Selected;
    ListingMember(events, prefix, range, r);
    NewestIsListed(events, ObjectPath(bucket, r));
    assert Mirrored(codec, bucket, events, held, r);
    if r in Listing(events, prefix, range) {
      var e :| e in events && ListedUnder(e, prefix, range) && e.content.value.meta.value.index.value.chunk == r;
      assert WellPlaced(bucket, e) && AtPath(e, ObjectPath(bucket, r));
    }
    forall path | HeldUnder(held, prefix, range, path) && held[path].chunk.Ref() == r
      ensures r in Listing(events, prefix, range)
    {
      assert path == ObjectPath(bucket, r);
      var e :| e in events && AtPath(e, path) && e.content == Newest(events, path);
      assert ListedUnder(e, prefix, range) && e.content.value.meta.value.index.value.chunk == r;
    }
  }

  // ---- With labels for windows, as every batch has them, it is the keyed store ----

  /** No archive was ever stored under a window with a slash. */
  ghost predicate Labelled(events: seq<Event>) {
    forall e :: e in events && IsLive(e) && e.content.value.meta.value.index.Some? ==>
      SLASH !in e.content.value.meta.value.index.value.chunk.window
  }

  lemma LabelledHeld(codec: Codec, bucket: Text, events: seq<Event>, held: Holdings, path: Text)
    requires Mirrors(codec, bucket, events, held) && Labelled(events) && path in held
    ensures SLASH !in held[path].chunk.header.timeWindow
  {
    hide Frame, ObjectPath, Newest;
    assert Mirrored(codec, bucket, events, held, held[path].chunk.Ref());
    NewestIsListed(events, path);
    var e :| e in events && AtPath(e, path) && e.content == Newest(events, path);
    assert e.content.value.meta.value.index.value.chunk == held[path].chunk.Ref();
  }

  lemma PathsApart(bucket: Text, held: Holdings)
    requires AllPlaced(bucket, held)
    ensures forall p, q :: p in held && q in held && held[p].chunk.Ref() == held[q].chunk.Ref() ==> p == q
  {
    hide ObjectPath;
  }

  ghost function ChunksIn(bucket: Text, held: Holdings): Chunks
    requires AllPlaced(bucket, held)
  {
    PathsApart(bucket, held);
    map path | path in held :: held[path].chunk.Ref() := held[path].chunk
  }

  ghost function IndexesIn(bucket: Text, held: Holdings): Indexes
    requires AllPlaced(bucket, held)
  {
    PathsApart(bucket, held);
    map path | path in held :: held[path].chunk.Ref() := held[path].index
  }

  /** Under a reference with a label for its window, the object at its path is its own archive, or there is none. */
  lemma KeyedByReference(codec: Codec, bucket: Text, events: seq<Event>, held: Holdings, r: ChunkRef)
    requires Mirrors(codec, bucket, events, held) && Labelled(events) && SLASH !in r.window
    ensures var path := ObjectPath(bucket, r);
      && (path in held <==> r in ChunksIn(bucket, held)) && (path in held <==> r in IndexesIn(bucket, held))
      && (path in held ==> ChunksIn(bucket, held)[r] == held[path].chunk && IndexesIn(bucket, held)[r] == held[path].index)
  {
    hide Frame, ObjectPath, Newest, Mirrored, WellPlaced;
    var path := ObjectPath(bucket, r);
    if path in held {
      LabelledHeld(codec, bucket, events, held, path);
      ObjectPathInjective(bucket, r, held[path].chunk.Ref());
    }
  }

  lemma InView(bucket: Text, held: Holdings, path: Text)
    requires AllPlaced(bucket, held) && path in held
    ensures var r := held[path].chunk.Ref();
      && r in ChunksIn(bucket, held) && ChunksIn(bucket, held)[r] == held[path].chunk
      && r in IndexesIn(bucket, held) && IndexesIn(bucket, held)[r] == held[path].index
  {
    hide ObjectPath;
  }

  lemma OfView(bucket: Text, held: Holdings, r: ChunkRef) returns (path: Text)
    requires AllPlaced(bucket, held) && (r in ChunksIn(bucket, held) || r in IndexesIn(bucket, held))
    ensures path in held && held[path].chunk.Ref() == r
  {
    hide ObjectPath;
    path :| path in held && held[path].chunk.Ref() == r;
  }

  /** Storing an archive under such a reference replaces what the keyed store has there, and nothing else. */
  lemma PutIsKeyed(codec: Codec, bucket: Text, events: seq<Event>, held: Holdings, c: Chunk, ix: ServiceWindowIndex)
    requires Mirrors(codec, bucket, events, held) && Labelled(events)
    requires IsArchive(c, ix) && SLASH !in c.header.timeWindow
    ensures var held' := held[ObjectPath(bucket, c.Ref()) := Held(c, ix)];
      && AllPlaced(bucket, held')
      && ChunksIn(bucket, held') == ChunksIn(bucket, held)[c.Ref() := c]
      && IndexesIn(bucket, held') == IndexesIn(bucket, held)[c.Ref() := ix]
  {
    hide Frame, ObjectPath, Newest, Mirrored, WellPlaced, Labelled, ChunksIn, IndexesIn;
    var path := ObjectPath(bucket, c.Ref());
    var held' := held[path := Held(c, ix)];
    assert path in held ==> held[path].chunk.Ref() == c.Ref() by {
      if path in held {
        LabelledHeld(codec, bucket, events, held, path);
        ObjectPathInjective(bucket, held[path].chunk.Ref(), c.Ref());
      }
    }
    InView(bucket, held', path);
    forall r | r != c.Ref() ensures SameView(bucket, held, held', r) {
      if r in ChunksIn(bucket, held) || r in IndexesIn(bucket, held) {
        var p := OfView(bucket, held, r);
        InView(bucket, held, p);
        InView(bucket, held', p);
      }
      if r in ChunksIn(bucket, held') || r in IndexesIn(bucket, held') {
        var p := OfView(bucket, held', r);
        InView(bucket, held, p);
        InView(bucket, held', p);
      }
    }
    ViewsUpdated(bucket, held, held', c.Ref());
  }

  ghost predicate SameView(bucket: Text, held: Holdings, held': Holdings, r: ChunkRef)
    requires AllPlaced(bucket, held) && AllPlaced(bucket, held')
  {
    && SameAt(ChunksIn(bucket, held), ChunksIn(bucket, held'), r)
    && SameAt(IndexesIn(bucket, held), IndexesIn(bucket, held'), r)
  }

  predicate SameAt<V(==)>(a: map<ChunkRef, V>, b: map<ChunkRef, V>, r: ChunkRef) {
    (r in a <==> r in b) && (r in a ==> a[r] == b[r])
  }

  lemma SameButAt<V>(a: map<ChunkRef, V>, b: map<ChunkRef, V>, q: ChunkRef)
    requires forall r :: r != q ==> SameAt(a, b, r)
    requires q in b
    ensures b == a[q := b[q]]
  {
    forall r ensures r in b <==> r in a[q := b[q]] {
      if r != q { assert SameAt(a, b, r); }
    }
    forall r | r in b ensures b[r] == a[q := b[q]][r] {
      if r != q { assert SameAt(a, b, r); }
    }
  }

  lemma ViewsUpdated(bucket: Text, held: Holdings, held': Holdings, q: ChunkRef)
    requires AllPlaced(bucket, held) && AllPlaced(bucket, held')
    requires forall r :: r != q ==> SameView(bucket, held, held', r)
    requires q in ChunksIn(bucket, held') && q in IndexesIn(bucket, held')
    ensures ChunksIn(bucket, held') == ChunksIn(bucket, held)[q := ChunksIn(bucket, held')[q]]
    ensures IndexesIn(bucket, held') == IndexesIn(bucket, held)[q := IndexesIn(bucket, held')[q]]
  {
    hide AllPlaced, ChunksIn, IndexesIn, SameAt;
    forall r | r != q
      ensures SameAt(ChunksIn(bucket, held), ChunksIn(bucket, held'), r)
      ensures SameAt(IndexesIn(bucket, held), IndexesIn(bucket, held'), r)
    {
      assert SameView(bucket, held, held', r);
    }
    SameButAt(ChunksIn(bucket, held), ChunksIn(bucket, held'), q);
    SameButAt(IndexesIn(bucket, held), IndexesIn(bucket, held'), q);
  }

  /** Listing a service finds, as a set, the stored references of the service and of those nested in it; with
      a range it finds all that fall in the range, and possibly one whose older upload did. */
  lemma ListingIsStored(codec: Codec, bucket: Text, events: seq<Event>, held: Holdings, service: Text,
    range: Option<TimeRange>, r: ChunkRef)
    requires Mirrors(codec, bucket, events, held) && Labelled(events)
    ensures r in Listing(events, ServicePrefix(bucket, service), range) ==>
      r in IndexesIn(bucket, held) && Lists(ByPrefix, service, r.service)
    ensures var ixs := IndexesIn(bucket, held);
      r in ixs && Lists(ByPrefix, service, r.service) && Selected(range, ixs[r]) ==>
        r in Listing(events, ServicePrefix(bucket, service), range)
  {
    hide Frame, ObjectPath, ServicePrefix, Newest, Selected, Lists, Mirrored, WellPlaced;
    var prefix := ServicePrefix(bucket, service);
    ListingIsHeld(codec, bucket, events, held, prefix, range, r);
    if r in Listing(events, prefix, range) {
      ListedIsLabelled(events, prefix, range, r);
      KeyedByReference(codec, bucket, events, held, r);
      PrefixFindsNested(bucket, service, r);
    }
    if r in IndexesIn(bucket, held) {
      var path :| path in held && held[path].chunk.Ref() == r;
      LabelledHeld(codec, bucket, events, held, path);
      PrefixFindsNested(bucket, service, r);
    }
  }

  lemma ListedIsLabelled(events: seq<Event>, prefix: Text, range: Option<TimeRange>, r: ChunkRef)
    requires Labelled(events) && r in Listing(events, prefix, range)
    ensures SLASH !in r.window
  {
    ListingMember(events, prefix, range, r);
  }

  /** Each upload of a reference adds one entry for it to the unranged listing. */
  lemma ReuploadIsListedAgain(bucket: Text, events: seq<Event>, e: Event, c: Chunk, ix: ServiceWindowIndex, body: Bytes)
    requires IsArchive(c, ix)
    requires Carries(e, ObjectMeta(ObjectPath(bucket, c.Ref()), Some(ix)), body)
    ensures var prefix := ServicePrefix(bucket, c.header.service);
      Listing(events + [e], prefix, None) == Listing(events, prefix, None) + [c.Ref()]
  {
    hide FileName;
    assert (events + [e])[..|events|] == events;
  }

  class SiaBackend {
    const codec: Codec
    const bucket: Text
    // The indexer's list.
    var events: seq<Event>
    var lastManifest: Option<Manifest>
    ghost var held: Holdings
    ghost var manifest: Option<Manifest>
    // How many uploads have failed so far.
    ghost var faults: nat

    ghost predicate Valid()
      reads this
    {
      && codec.Lawful()
      && Ordered(events)
      && Mirrors(codec, bucket, events, held)
      && ManifestMirrored(codec, bucket, events, manifest)
    }

    ghost function View(): ManifestView
      reads this
    {
      ManifestView(lastManifest, manifest)
    }

    /** A fresh connection: nothing cached. */
    constructor Connect(codec: Codec, bucket: Text, events: seq<Event>, ghost held: Holdings,
      ghost manifest: Option<Manifest>)
      requires codec.Lawful() && Ordered(events)
      requires Mirrors(codec, bucket, events, held) && ManifestMirrored(codec, bucket, events, manifest)
      ensures Valid() && lastManifest.None?
      ensures this.held == held && this.manifest == manifest
    {
      this.codec, this.bucket, this.events, lastManifest := codec, bucket, events, None;
      this.held, this.manifest, faults := held, manifest, 0;
    }

    /** The indexer: some events strictly after the cursor, in order, at most `limit`, and none only when
        there are no more. */
    method ObjectEvents(cursor: Option<Cursor>, limit: nat, ghost n: nat) returns (page: seq<Event>)
      requires limit > 0 && n <= |events|
      requires forall i :: 0 <= i < |events| ==> (Past(cursor, events[i]) <==> i >= n)
      ensures |page| <= limit
      ensures n + |page| <= |events| && page == events[n..n + |page|]
      ensures page == [] ==> n == |events|
    {
      var from := 0;
      while from < |events| && !Past(cursor, events[from])
        invariant from <= n
      {
        from := from + 1;
      }
      var size := if |events| - from < limit then |events| - from else limit;
      var k: nat :| k <= size && (k == 0 ==> size == 0);
      page := events[from..from + k];
    }

    /** `all_object_events`: follows the cursor until a page is empty, and has then seen every event once,
        in order. */
    method AllObjectEvents() returns (all: seq<Event>)
      requires Ordered(events)
      ensures all == events
    {
      all := [];
      while true
        invariant |all| <= |events| && all == events[..|all|]
        decreases |events| - |all|
      {
        var cursor := if all == [] then None else Some(CursorAt(all[|all| - 1]));
        PastLast(events, |all|);
        var page := ObjectEvents(cursor, EVENTS_PAGE, |all|);
        if page == [] {
          return;
        }
        all := all + page;
      }
    }

    /** `find_object`: a later event that is not older replaces the best so far. */
    method FindObject(path: Text) returns (best: Option<StoredObject>)
      requires Ordered(events)
      ensures best == Newest(events, path)
    {
      var all := AllObjectEvents();
      best := None;
      for i := 0 to |all|
        invariant best == Newest(all[..i], path)
      {
        var event := all[i];
        assert all[..i + 1][..i] == all[..i];
        NewestNotLater(all, i, path);
        if event.deleted || event.content.None? {
          continue;
        }
        var found := event.content.value;
        if found.meta.None? || found.meta.value.path != path {
          continue;
        }
        if best.None? || found.updatedAt >= best.value.updatedAt {
          best := Some(found);
        }
      }
      assert all[..|all|] == all;
    }

    /** Upload and pin. A failure may come after the object was listed. */
    method PutObject(meta: ObjectMeta, body: Bytes) returns (ok: bool, ghost e: Event)
      requires Ordered(events)
      modifies this`events, this`faults
      ensures Carries(e, meta, body)
      ensures faults == old(faults) + if ok then 0 else 1
      ensures Ordered(events)
      ensures events == old(events) + [e] || (!ok && events == old(events))
    {
      var t, id := 0, 0;
      if events != [] {
        t, id := events[|events| - 1].updatedAt, events[|events| - 1].id + 1;
        if * { t := t + 1; id := 0; }
      }
      var listed := Event(t, id, false, Some(StoredObject(Some(meta), body, t)));
      e := listed;
      if * {
        faults := faults + 1;
        return false, e;
      }
      StaysOrdered(events, listed);
      events := events + [listed];
      if * {
        faults := faults + 1;
        return false, e;
      }
      return true, e;
    }

    /** One object holds chunk and index, so a failure leaves both old or both new. It replaces whatever is
        held at the path of the chunk's reference. */
    method PutArchive(chunk: Chunk, index: ServiceWindowIndex) returns (r: Result<(), Error>)
      requires Valid() && IsArchive(chunk, index) && Frameable(codec, chunk)
      modifies this
      ensures Valid() && manifest == old(manifest) && lastManifest == old(lastManifest)
      ensures
        || held == old(held)[ObjectPath(bucket, chunk.Ref()) := Held(chunk, index)]
        || (r.Err? && held == old(held))
      ensures faults == old(faults) + if r.Ok? then 0 else 1
    {
      hide Mirrors, ManifestMirrored, Frame;
      var frame := EncodeChunk(codec.libs, chunk);
      ghost var before := events;
      var ok, e := PutObject(ObjectMeta(ObjectPath(bucket, chunk.Ref()), Some(index)), frame);
      if events != before {
        ArchiveAppended(codec, bucket, before, held, manifest, e, chunk, index);
        held := held[ObjectPath(bucket, chunk.Ref()) := Held(chunk, index)];
      }
      if !ok { return Err(Backend); }
      return Ok(());
    }

    method GetChunk(service: Text, window: Text, sequence: nat) returns (r: Result<Chunk, Error>)
      requires Valid()
      ensures var path := ObjectPath(bucket, ChunkRef(service, window, sequence));
        r == if path in held then Ok(held[path].chunk) else Err(NotFound)
    {
      hide Newest, ObjectPath, Frame;
      var q := ChunkRef(service, window, sequence);
      var found := FindObject(ObjectPath(bucket, q));
      assert Mirrored(codec, bucket, events, held, q);
      if found.None? {
        return Err(NotFound);
      }
      FrameRoundTrip(codec.libs, held[ObjectPath(bucket, q)].chunk);
      return DecodeChunk(codec.libs, found.value.body);
    }

    method GetIndex(service: Text, window: Text, sequence: nat) returns (r: Result<ServiceWindowIndex, Error>)
      requires Valid()
      ensures var path := ObjectPath(bucket, ChunkRef(service, window, sequence));
        r == if path in held then Ok(held[path].index) else Err(NotFound)
    {
      hide Newest, ObjectPath, Frame;
      var q := ChunkRef(service, window, sequence);
      var found := FindObject(ObjectPath(bucket, q));
      assert Mirrored(codec, bucket, events, held, q);
      if found.None? || found.value.meta.None? || found.value.meta.value.index.None? {
        return Err(NotFound);
      }
      return Ok(found.value.meta.value.index.value);
    }

    method ListChunks(service: Text, range: Option<TimeRange>) returns (refs: seq<ChunkRef>)
      requires Valid()
      ensures BySequence(refs)
      ensures multiset(refs) == multiset(Listing(events, ServicePrefix(bucket, service), range))
      ensures var prefix := ServicePrefix(bucket, service);
        && (forall q :: q in refs ==> ObjectPath(bucket, q) in held && prefix <= ObjectPath(bucket, q))
        && (forall path :: HeldUnder(held, prefix, range, path) ==> held[path].chunk.Ref() in refs)
    {
      hide Mirrors, ManifestMirrored, ServicePrefix, ObjectPath;
      var prefix := ServicePrefix(bucket, service);
      var all := AllObjectEvents();
      var found: seq<ChunkRef> := [];
      for i := 0 to |all|
        invariant found == Listing(all[..i], prefix, range)
      {
        var event := all[i];
        assert all[..i + 1][..i] == all[..i];
        if event.deleted || event.content.None? || event.content.value.meta.None? {
          continue;
        }
        var meta := event.content.value.meta.value;
        if !(prefix <= meta.path) || meta.index.None? {
          continue;
        }
        if range.None? || Overlaps(meta.index.value, range.value.start, range.value.end) {
          found := found + [meta.index.value.chunk];
        }
      }
      assert all[..|all|] == all;
      refs := SortBySequence(found);
      SameElements(refs, found);
      forall q ensures q in refs ==> ObjectPath(bucket, q) in held && prefix <= ObjectPath(bucket, q) {
        ListingIsHeld(codec, bucket, events, held, prefix, range, q);
      }
      forall path | HeldUnder(held, prefix, range, path)
        ensures held[path].chunk.Ref() in refs
      {
        ListingIsHeld(codec, bucket, events, held, prefix, range, held[path].chunk.Ref());
      }
    }

    /** Served from the last manifest this connection wrote, if any; else from the newest listed one. */
    method ReadManifest() returns (r: Result<Manifest, Error>)
      requires Valid()
      ensures r == match View().Served() case Some(m) => Ok(m) case None => Err(NotFound)
    {
      hide Newest;
      if lastManifest.Some? {
        return Ok(lastManifest.value);
      }
      var found := FindObject(ManifestObject(bucket));
      if found.None? {
        return Err(NotFound);
      }
      match codec.parseManifest(found.value.body)
      case None => return Err(Serialization);
      case Some(m) => return Ok(m);
    }

    /** Only a write that succeeds is cached; one that fails may have been listed all the same. */
    method WriteManifest(m: Manifest) returns (r: Result<(), Error>)
      requires Valid()
      modifies this
      ensures Valid() && held == old(held)
      ensures r.Ok? ==> View() == old(View()).Written(m, WriteDone)
      ensures r.Err? ==> exists landed :: View() == old(View()).Written(m, WriteFailed(landed))
      ensures faults == old(faults) + if r.Ok? then 0 else 1
    {
      hide Mirrors, ManifestMirrored;
      ghost var before := events;
      var ok, e := PutObject(ObjectMeta(ManifestObject(bucket), None), codec.manifestJson(m));
      if events != before {
        ManifestAppended(codec, bucket, before, held, e, m);
        manifest := Some(m);
      }
      if !ok {
        assert View() == old(View()).Written(m, WriteFailed(events != before));
        return Err(Backend);
      }
      lastManifest := Some(m);
      return Ok(());
    }
  }

  lemma PastLast(events: seq<Event>, n: nat)
    requires Ordered(events) && n <= |events|
    ensures var cursor := if n == 0 then None else Some(CursorAt(events[n - 1]));
      forall i :: 0 <= i < |events| ==> (Past(cursor, events[i]) <==> i >= n)
  {
  }

  lemma {:induction false} NewestNotLater(all: seq<Event>, i: nat, path: Text)
    requires Ordered(all) && i < |all|
    ensures Newest(all[..i], path).Some? ==> Newest(all[..i], path).value.updatedAt <= all[i].updatedAt
  {
    hide Newest;
    NewestIsListed(all[..i], path);
    if Newest(all[..i], path).Some? {
      var e :| e in all[..i] && AtPath(e, path) && e.content == Newest(all[..i], path);
      var j :| 0 <= j < i && all[j] == e;
      assert Past(Some(CursorAt(all[j])), all[i]);
      assert e in all;
    }
  }

  lemma StaysOrdered(events: seq<Event>, e: Event)
    requires Ordered(events)
    requires events != [] ==> Past(Some(CursorAt(events[|events| - 1])), e)
    requires e.content.Some? ==> e.content.value.updatedAt == e.updatedAt
    ensures Ordered(events + [e])
  {
    forall i | 0 <= i < |events| ensures Past(Some(CursorAt(events[i])), e) {
      if i < |events| - 1 { assert Past(Some(CursorAt(events[i])), events[|events| - 1]); }
    }
  }
}
