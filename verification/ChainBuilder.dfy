/** `ChainBuilder`: linking chunks onto per-service chains, in any interleaving of the services. */
module Builder {
  import opened Core
  import opened Ordering
  import opened Chain

  /** A chain's head hash and the next sequence number to assign. */
  datatype Head = Head(hash: Hash, next: nat)

  type Heads = map<Text, Head>

  function HeadOf(heads: Heads, service: Text): Head {
    if service in heads then heads[service] else Head(GENESIS, 0)
  }

  /** `c` with its link fields set to continue `head`. */
  function Link(head: Head, c: Chunk): Chunk {
    c.(header := c.header.(prevHash := head.hash, sequence := head.next))
  }

  class ChainBuilder {
    const hash: Chunk -> Hash
    var chains: Heads

    constructor (hash: Chunk -> Hash)
      ensures chains == map[] && this.hash == hash
    {
      this.hash := hash;
      chains := map[];
    }

    method Resume(service: Text, headHash: Hash, nextSequence: nat)
      modifies this`chains
      ensures chains == old(chains)[service := Head(headHash, nextSequence)]
      ensures HeadHash(service) == Some(headHash)
      ensures forall t :: t != service ==> HeadHash(t) == old(HeadHash(t))
    {
      chains := chains[service := Head(headHash, nextSequence)];
    }

    /** Links `chunk` in place and advances its service's head. */
    method Append(chunk: Chunk) returns (linked: Chunk, h: Hash)
      modifies this`chains
      ensures Chained(chains, [linked]) == AppendOne(hash, Chained(old(chains), []), chunk)
      ensures h == hash(linked) == HeadOf(chains, chunk.header.service).hash
      ensures HeadHash(chunk.header.service) == Some(h)
      ensures forall t :: t != chunk.header.service ==> HeadHash(t) == old(HeadHash(t))
    {
      var service := chunk.header.service;
      if service !in chains {
        chains := chains[service := Head(GENESIS, 0)];
      }
      var state := chains[service];
      linked := chunk.(header := chunk.header.(prevHash := state.hash, sequence := state.next));
      h := hash(linked);
      chains := chains[service := Head(h, state.next + 1)];
      assert chains == old(chains)[service := Head(h, HeadOf(old(chains), service).next + 1)];
    }

    /** `head`: none until the service was resumed or appended to. */
    function HeadHash(service: Text): Option<Hash>
      reads this`chains
    {
      if service in chains then Some(chains[service].hash) else None
    }
  }

  datatype Chained = Chained(heads: Heads, chunks: seq<Chunk>)

  function AppendOne(hash: Chunk -> Hash, done: Chained, c: Chunk): Chained {
    var head := HeadOf(done.heads, c.header.service);
    var linked := Link(head, c);
    Chained(done.heads[c.header.service := Head(hash(linked), head.next + 1)], done.chunks + [linked])
  }

  /** The chunks of all services appended one after the other. */
  function AppendAll(hash: Chunk -> Hash, heads: Heads, cs: seq<Chunk>): (r: Chained)
    ensures |r.chunks| == |cs|
  {
    if cs == [] then Chained(heads, [])
    else AppendOne(hash, AppendAll(hash, heads, cs[..|cs| - 1]), cs[|cs| - 1])
  }

  /** `[c]` if `c` belongs to `service`. */
  function Mine(c: Chunk, service: Text): seq<Chunk> {
    if c.header.service == service then [c] else []
  }

  /** The chunks of one service, in order. */
  function Own(cs: seq<Chunk>, service: Text): (own: seq<Chunk>)
    ensures forall c :: c in own ==> c in cs && c.header.service == service
  {
    if cs == [] then []
    else Own(cs[..|cs| - 1], service) + Mine(cs[|cs| - 1], service)
  }

  /** One service's chunks linked onto a single chain. */
  function LinkAll(hash: Chunk -> Hash, head: Head, cs: seq<Chunk>): (r: seq<Chunk>)
    ensures |r| == |cs|
  {
    if cs == [] then []
    else LinkOne(hash, head, LinkAll(hash, head, cs[..|cs| - 1]), cs[|cs| - 1])
  }

  function LinkOne(hash: Chunk -> Hash, head: Head, done: seq<Chunk>, c: Chunk): (r: seq<Chunk>) {
    done + [Link(Head(HeadAfter(hash, head.hash, done), head.next + |done|), c)]
  }

  function HeadAfterAll(hash: Chunk -> Hash, head: Head, cs: seq<Chunk>): Head {
    Head(HeadAfter(hash, head.hash, LinkAll(hash, head, cs)), head.next + |cs|)
  }

  lemma AppendAllSnoc(hash: Chunk -> Hash, heads: Heads, cs: seq<Chunk>, c: Chunk)
    ensures AppendAll(hash, heads, cs + [c]) == AppendOne(hash, AppendAll(hash, heads, cs), c)
  {
    assert (cs + [c])[..|cs|] == cs;
  }

  lemma OwnSnoc(cs: seq<Chunk>, c: Chunk, service: Text)
    ensures Own(cs + [c], service) == Own(cs, service) + Mine(c, service)
  {
    assert (cs + [c])[..|cs|] == cs;
  }

  lemma LinkAllSnoc(hash: Chunk -> Hash, head: Head, cs: seq<Chunk>, c: Chunk)
    ensures LinkAll(hash, head, cs + [c]) == LinkOne(hash, head, LinkAll(hash, head, cs), c)
  {
    assert (cs + [c])[..|cs|] == cs;
  }

  lemma Unsnoc<T>(s: seq<T>)
    requires s != []
    ensures s == s[..|s| - 1] + [s[|s| - 1]]
  {
  }

  /** A service's own chunks are exactly those with its name, in order. */
  lemma {:induction false} OwnPicks(cs: seq<Chunk>, service: Text)
    ensures Picks(Own(cs, service), cs, (c: Chunk) => c.header.service == service)
  {
    hide Picks;
    var wanted := (c: Chunk) => c.header.service == service;
    if cs == [] {
      PicksNothing(wanted);
    } else {
      var n := |cs| - 1;
      OwnPicks(cs[..n], service);
      PicksSnoc(Own(cs[..n], service), cs[..n], wanted, cs[n]);
      Unsnoc(cs);
    }
  }

  lemma LinkedAppend(hash: Chunk -> Hash, start: Hash, base: nat, cs: seq<Chunk>, c: Chunk)
    requires Linked(hash, start, base, cs)
    requires c.header.prevHash == HeadAfter(hash, start, cs) && c.header.sequence == base + |cs|
    ensures Linked(hash, start, base, cs + [c])
    ensures HeadAfter(hash, start, cs + [c]) == hash(c)
  {
    assert LinkOk(hash, HeadAfter(hash, start, cs), [c], 0);
    LinkedConcat(hash, start, base, cs, [c]);
  }

  /** What the builder links is a chain. */
  lemma {:induction false} LinkAllIsLinked(hash: Chunk -> Hash, head: Head, cs: seq<Chunk>)
    ensures Linked(hash, head.hash, head.next, LinkAll(hash, head, cs))
  {
    if cs != [] {
      var cs', c := cs[..|cs| - 1], cs[|cs| - 1];
      var done := LinkAll(hash, head, cs');
      LinkAllIsLinked(hash, head, cs');
      LinkedAppend(hash, head.hash, head.next, done, Link(Head(HeadAfter(hash, head.hash, done), head.next + |done|), c));
    }
  }

  /** Appending changes nothing of a chunk but its links. */
  lemma {:induction false} LinkAllKeepsContent(hash: Chunk -> Hash, head: Head, cs: seq<Chunk>, i: nat)
    requires i < |cs|
    ensures var c := LinkAll(hash, head, cs)[i];
      c == Link(Head(c.header.prevHash, head.next + i), cs[i])
  {
    var n := |cs| - 1;
    if i < n {
      LinkAllKeepsContent(hash, head, cs[..n], i);
    }
  }

  /** Splitting one service's appends anywhere and resuming from the saved head gives the same chain. */
  lemma {:induction false} LinkAllResumes(hash: Chunk -> Hash, head: Head, a: seq<Chunk>, b: seq<Chunk>)
    ensures LinkAll(hash, head, a + b) == LinkAll(hash, head, a) + LinkAll(hash, HeadAfterAll(hash, head, a), b)
  {
    if b == [] {
      assert a + b == a;
    } else {
      var b', c := b[..|b| - 1], b[|b| - 1];
      Unsnoc(b);
      assert a + b == (a + b') + [c];
      LinkAllResumes(hash, head, a, b');
      LinkAllSnoc(hash, head, a + b', c);
      LinkAllSnoc(hash, HeadAfterAll(hash, head, a), b', c);
      ResumeStep(hash, head, LinkAll(hash, head, a), LinkAll(hash, HeadAfterAll(hash, head, a), b'), c);
    }
  }

  lemma ResumeStep(hash: Chunk -> Hash, head: Head, x: seq<Chunk>, y: seq<Chunk>, c: Chunk)
    ensures LinkOne(hash, head, x + y, c) ==
      x + LinkOne(hash, Head(HeadAfter(hash, head.hash, x), head.next + |x|), y, c)
  {
    LinkedConcat(hash, head.hash, head.next, x, y);
  }

  /** Each service's part of an interleaved run is the chain of its own appends alone, whatever the
      other services append in between. */
  lemma {:induction false} ServicesAreIndependent(hash: Chunk -> Hash, heads: Heads, cs: seq<Chunk>, service: Text)
    ensures Own(AppendAll(hash, heads, cs).chunks, service) ==
      LinkAll(hash, HeadOf(heads, service), Own(cs, service))
    ensures HeadOf(AppendAll(hash, heads, cs).heads, service) ==
      HeadAfterAll(hash, HeadOf(heads, service), Own(cs, service))
  {
    if cs != [] {
      var cs', c := cs[..|cs| - 1], cs[|cs| - 1];
      Unsnoc(cs);
      ServicesAreIndependent(hash, heads, cs', service);
      AppendAllSnoc(hash, heads, cs', c);
      OwnSnoc(cs', c, service);
      AppendOneIsIndependent(hash, heads, AppendAll(hash, heads, cs'), cs', c, service);
    }
  }

  lemma AppendOneIsIndependent(hash: Chunk -> Hash, heads: Heads, done: Chained, cs: seq<Chunk>, c: Chunk, service: Text)
    requires Own(done.chunks, service) == LinkAll(hash, HeadOf(heads, service), Own(cs, service))
    requires HeadOf(done.heads, service) == HeadAfterAll(hash, HeadOf(heads, service), Own(cs, service))
    ensures var own, head := Own(cs, service) + Mine(c, service), HeadOf(heads, service);
      && Own(AppendOne(hash, done, c).chunks, service) == LinkAll(hash, head, own)
      && HeadOf(AppendOne(hash, done, c).heads, service) == HeadAfterAll(hash, head, own)
  {
    hide Own, LinkAll;
    var linked := Link(HeadOf(done.heads, c.header.service), c);
    OwnSnoc(done.chunks, linked, service);
    if c.header.service == service {
      LinkAllSnoc(hash, HeadOf(heads, service), Own(cs, service), c);
    } else {
      assert Own(cs, service) + Mine(c, service) == Own(cs, service);
    }
  }

  /** Every service's chunks from a new builder form a chain `verify_chain` accepts. */
  lemma BuilderMakesAcceptedChains(hash: Chunk -> Hash, cs: seq<Chunk>, service: Text)
    ensures Reports(hash, Own(AppendAll(hash, map[], cs).chunks, service), None)
  {
    ServicesAreIndependent(hash, map[], cs, service);
    LinkAllIsLinked(hash, Head(GENESIS, 0), Own(cs, service));
    LinkedIsAccepted(hash, Own(AppendAll(hash, map[], cs).chunks, service));
  }

  lemma {:induction false} SameHeadsSameChunks(hash: Chunk -> Hash, h1: Heads, h2: Heads, cs: seq<Chunk>)
    requires forall c :: c in cs ==> HeadOf(h1, c.header.service) == HeadOf(h2, c.header.service)
    ensures AppendAll(hash, h1, cs).chunks == AppendAll(hash, h2, cs).chunks
  {
    if cs != [] {
      var cs', c := cs[..|cs| - 1], cs[|cs| - 1];
      Unsnoc(cs);
      SameHeadsSameChunks(hash, h1, h2, cs');
      AppendAllSnoc(hash, h1, cs', c);
      AppendAllSnoc(hash, h2, cs', c);
      ServicesAreIndependent(hash, h1, cs', c.header.service);
      ServicesAreIndependent(hash, h2, cs', c.header.service);
    }
  }

  lemma {:induction false} AppendAllConcat(hash: Chunk -> Hash, heads: Heads, a: seq<Chunk>, b: seq<Chunk>)
    ensures AppendAll(hash, heads, a + b).chunks ==
      AppendAll(hash, heads, a).chunks + AppendAll(hash, AppendAll(hash, heads, a).heads, b).chunks
    ensures AppendAll(hash, heads, a + b).heads == AppendAll(hash, AppendAll(hash, heads, a).heads, b).heads
  {
    if b == [] {
      assert a + b == a;
    } else {
      var b', c := b[..|b| - 1], b[|b| - 1];
      Unsnoc(b);
      assert a + b == (a + b') + [c];
      AppendAllConcat(hash, heads, a, b');
      AppendAllSnoc(hash, heads, a + b', c);
      AppendAllSnoc(hash, AppendAll(hash, heads, a).heads, b', c);
    }
  }

  /** A run split at any point and resumed, in a builder seeded with the saved heads of the services
      still to come, gives the chunks of the unsplit run. */
  lemma ResumedRun(hash: Chunk -> Hash, heads: Heads, a: seq<Chunk>, b: seq<Chunk>, saved: Heads)
    requires forall c :: c in b ==>
      HeadOf(saved, c.header.service) == HeadOf(AppendAll(hash, heads, a).heads, c.header.service)
    ensures AppendAll(hash, heads, a + b).chunks ==
      AppendAll(hash, heads, a).chunks + AppendAll(hash, saved, b).chunks
  {
    AppendAllConcat(hash, heads, a, b);
    SameHeadsSameChunks(hash, saved, AppendAll(hash, heads, a).heads, b);
  }
}
