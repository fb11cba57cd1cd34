/** Hash chains: what `verify_chain` accepts, and exactly what it reports otherwise. */
module Chain {
  import opened Core
  import opened Canonical

  lemma GenesisIsZeros()
    ensures GENESIS == seq(32, _ => 0)
  {
    var zeros := seq<nat>(32, _ => 0);
    assert forall i :: 0 <= i < 32 ==> GENESIS[i] == 0;
  }

  /** The hash the chunk at position `k` has to carry: its predecessor's, or `start`. */
  function PrevHash(hash: Chunk -> Hash, start: Hash, cs: seq<Chunk>, k: nat): Hash
    requires k <= |cs|
  {
    if k == 0 then start else hash(cs[k - 1])
  }

  /** The head once `cs` has been appended to a chain whose head was `start`. */
  function HeadAfter(hash: Chunk -> Hash, start: Hash, cs: seq<Chunk>): Hash {
    PrevHash(hash, start, cs, |cs|)
  }

  ghost predicate LinkOk(hash: Chunk -> Hash, start: Hash, cs: seq<Chunk>, k: nat)
    requires k < |cs|
  {
    cs[k].header.prevHash == PrevHash(hash, start, cs, k)
  }

  ghost predicate LinksFrom(hash: Chunk -> Hash, start: Hash, cs: seq<Chunk>) {
    forall k :: 0 <= k < |cs| ==> LinkOk(hash, start, cs, k)
  }

  ghost predicate Numbered(base: nat, cs: seq<Chunk>) {
    forall k :: 0 <= k < |cs| ==> cs[k].header.sequence == base + k
  }

  /** `cs` continues a chain whose head is `start` and whose next sequence is `base`. */
  ghost predicate Linked(hash: Chunk -> Hash, start: Hash, base: nat, cs: seq<Chunk>) {
    Numbered(base, cs) && LinksFrom(hash, start, cs)
  }

  lemma ConcatLinkAt(hash: Chunk -> Hash, start: Hash, a: seq<Chunk>, b: seq<Chunk>, k: nat)
    requires k < |a| + |b|
    ensures LinkOk(hash, start, a + b, k) <==>
      if k < |a| then LinkOk(hash, start, a, k) else LinkOk(hash, HeadAfter(hash, start, a), b, k - |a|)
  {
  }

  lemma NumberedConcat(base: nat, a: seq<Chunk>, b: seq<Chunk>)
    ensures Numbered(base, a + b) <==> Numbered(base, a) && Numbered(base + |a|, b)
  {
    var ab := a + b;
    assert forall k :: 0 <= k < |a| ==> ab[k] == a[k];
    assert forall k :: 0 <= k < |b| ==> ab[|a| + k] == b[k];
    if Numbered(base, a) && Numbered(base + |a|, b) {
      forall k | 0 <= k < |ab| ensures ab[k].header.sequence == base + k {
        if k >= |a| { assert ab[k] == b[k - |a|]; }
      }
    }
  }

  lemma LinksConcat(hash: Chunk -> Hash, start: Hash, a: seq<Chunk>, b: seq<Chunk>)
    ensures LinksFrom(hash, start, a + b)
      <==> LinksFrom(hash, start, a) && LinksFrom(hash, HeadAfter(hash, start, a), b)
  {
    var ab, head := a + b, HeadAfter(hash, start, a);
    if LinksFrom(hash, start, ab) {
      forall k | 0 <= k < |a| ensures LinkOk(hash, start, a, k) { ConcatLinkAt(hash, start, a, b, k); }
      forall k | 0 <= k < |b| ensures LinkOk(hash, head, b, k) { ConcatLinkAt(hash, start, a, b, |a| + k); }
    }
    if LinksFrom(hash, start, a) && LinksFrom(hash, head, b) {
      forall k | 0 <= k < |ab| ensures LinkOk(hash, start, ab, k) { ConcatLinkAt(hash, start, a, b, k); }
    }
  }

  lemma LinkedConcat(hash: Chunk -> Hash, start: Hash, base: nat, a: seq<Chunk>, b: seq<Chunk>)
    ensures Linked(hash, start, base, a + b)
      <==> Linked(hash, start, base, a) && Linked(hash, HeadAfter(hash, start, a), base + |a|, b)
    ensures HeadAfter(hash, start, a + b) == HeadAfter(hash, HeadAfter(hash, start, a), b)
  {
    NumberedConcat(base, a, b);
    LinksConcat(hash, start, a, b);
    if b == [] { assert a + b == a; }
  }

  // ---- verify_chain ----

  ghost function Sequences(cs: seq<Chunk>): (s: seq<nat>)
    ensures |s| == |cs|
    ensures forall i :: 0 <= i < |cs| ==> s[i] == cs[i].header.sequence
  {
    seq(|cs|, i requires 0 <= i < |cs| => cs[i].header.sequence)
  }

  /** `base, base + 1, …`, `n` numbers long. */
  ghost function Range(base: nat, n: nat): (s: seq<nat>)
    ensures |s| == n
    ensures forall i :: 0 <= i < n ==> s[i] == base + i
  {
    seq(n, i => base + i)
  }

  ghost predicate Consecutive(cs: seq<Chunk>) {
    forall i :: 0 <= i < |cs| ==> cs[i].header.sequence == cs[0].header.sequence + i
  }

  ghost predicate Accepts(hash: Chunk -> Hash, cs: seq<Chunk>) {
    Consecutive(cs) && LinksFrom(hash, GENESIS, cs)
  }

  ghost predicate IsPermutationOfRange(cs: seq<Chunk>)
    requires cs != []
  {
    multiset(Sequences(cs)) == multiset(Range(cs[0].header.sequence, |cs|))
  }

  ghost predicate FirstSequenceBreak(cs: seq<Chunk>, i: nat) {
    && i < |cs|
    && cs[i].header.sequence != cs[0].header.sequence + i
    && (forall j :: 0 <= j < i ==> cs[j].header.sequence == cs[0].header.sequence + j)
  }

  ghost predicate FirstLinkBreak(hash: Chunk -> Hash, cs: seq<Chunk>, i: nat) {
    && i < |cs|
    && !LinkOk(hash, GENESIS, cs, i)
    && (forall j :: 0 <= j < i ==> LinkOk(hash, GENESIS, cs, j))
  }

  /** The position a bad link is blamed on: the predecessor's, or the first chunk's own. */
  function Blamed(i: nat): nat {
    if i == 0 then 0 else i - 1
  }

  ghost predicate SequenceVerdict(cs: seq<Chunk>, b: ChainBreak, i: nat) {
    && FirstSequenceBreak(cs, i)
    && b.position == i
    && b.sequence == cs[i].header.sequence
    && b.kind == if IsPermutationOfRange(cs) then Reordered else Missing
  }

  ghost predicate LinkVerdict(hash: Chunk -> Hash, cs: seq<Chunk>, b: ChainBreak, i: nat) {
    && Consecutive(cs)
    && FirstLinkBreak(hash, cs, i)
    && b == ChainBreak(Blamed(i), cs[Blamed(i)].header.sequence, Modified)
  }

  /** What `verify_chain` returns for `cs`: a sequence break if there is one, else a link break. */
  ghost predicate Reports(hash: Chunk -> Hash, cs: seq<Chunk>, r: Option<ChainBreak>) {
    match r
    case None => Accepts(hash, cs)
    case Some(b) =>
      (exists i :: SequenceVerdict(cs, b, i)) || (exists i :: LinkVerdict(hash, cs, b, i))
  }

  lemma ReportsUnique(hash: Chunk -> Hash, cs: seq<Chunk>, r: Option<ChainBreak>, s: Option<ChainBreak>)
    requires Reports(hash, cs, r) && Reports(hash, cs, s)
    ensures r == s
  {
    if r.Some? && s.Some? {
      if i, j :| SequenceVerdict(cs, r.value, i) && SequenceVerdict(cs, s.value, j) {
        assert i == j;
      } else if i, j :| LinkVerdict(hash, cs, r.value, i) && LinkVerdict(hash, cs, s.value, j) {
        assert i == j;
      }
    }
  }

  ghost predicate NonDecreasing(s: seq<nat>) {
    forall i, j :: 0 <= i < j < |s| ==> s[i] <= s[j]
  }

  lemma Insertion(r: seq<nat>, p: nat, x: nat)
    requires NonDecreasing(r) && p <= |r|
    requires forall k :: 0 <= k < p ==> r[k] < x
    requires forall k :: p <= k < |r| ==> x <= r[k]
    ensures NonDecreasing(r[..p] + [x] + r[p..])
    ensures multiset(r[..p] + [x] + r[p..]) == multiset(r) + multiset{x}
  {
    assert r == r[..p] + r[p..];
  }

  /** `sort_unstable`: some non-decreasing rearrangement. */
  method SortUnstable(s: seq<nat>) returns (r: seq<nat>)
    ensures NonDecreasing(r) && multiset(r) == multiset(s)
  {
    r := [];
    for i := 0 to |s|
      invariant NonDecreasing(r) && multiset(r) == multiset(s[..i])
    {
      var p := 0;
      while p < |r| && r[p] < s[i]
        invariant p <= |r| && forall k :: 0 <= k < p ==> r[k] < s[i]
      {
        p := p + 1;
      }
      Insertion(r, p, s[i]);
      assert s[..i + 1] == s[..i] + [s[i]];
      r := r[..p] + [s[i]] + r[p..];
    }
    assert s[..|s|] == s;
  }

  lemma TailMultiset(a: seq<nat>)
    requires a != []
    ensures multiset(a[1..]) == multiset(a) - multiset{a[0]}
  {
    assert a == [a[0]] + a[1..];
  }

  lemma {:induction false} SortedUnique(a: seq<nat>, b: seq<nat>)
    requires NonDecreasing(a) && NonDecreasing(b)
    requires multiset(a) == multiset(b)
    ensures a == b
  {
    SameLength(a, b);
    if a != [] {
      SameFirst(a, b);
      TailMultiset(a);
      TailMultiset(b);
      SortedUnique(a[1..], b[1..]);
      assert a == [a[0]] + a[1..] && b == [b[0]] + b[1..];
    }
  }

  lemma SameLength(a: seq<nat>, b: seq<nat>)
    requires multiset(a) == multiset(b)
    ensures |a| == |b|
  {
    assert |a| == |multiset(a)| && |b| == |multiset(b)|;
  }

  lemma SameFirst(a: seq<nat>, b: seq<nat>)
    requires NonDecreasing(a) && NonDecreasing(b) && a != [] && b != []
    requires multiset(a) == multiset(b)
    ensures a[0] == b[0]
  {
    assert a[0] in multiset(b) && b[0] in multiset(a);
    assert a[0] in b && b[0] in a;
  }

  method IsPermutation(cs: seq<Chunk>) returns (p: bool)
    requires cs != []
    ensures p <==> IsPermutationOfRange(cs)
  {
    var base := cs[0].header.sequence;
    var collected: seq<nat> := [];
    for i := 0 to |cs|
      invariant collected == Sequences(cs)[..i]
    {
      assert Sequences(cs)[..i + 1] == Sequences(cs)[..i] + [cs[i].header.sequence];
      collected := collected + [cs[i].header.sequence];
    }
    assert collected == Sequences(cs);
    var sorted := SortUnstable(collected);
    assert |sorted| == |multiset(sorted)| == |multiset(collected)| == |cs|;
    ghost var range := Range(base, |cs|);
    if multiset(sorted) == multiset(range) {
      SortedUnique(sorted, range);
    }
    p := true;
    for j := 0 to |sorted|
      invariant p <==> forall k :: 0 <= k < j ==> sorted[k] == base + k
    {
      if sorted[j] != base + j {
        p := false;
      }
    }
    if p {
      assert sorted == range;
    }
  }

  /** The first loop of `verify_chain`: sequence integrity. */
  method CheckSequences(cs: seq<Chunk>) returns (r: Option<ChainBreak>)
    requires cs != []
    ensures r.None? ==> Consecutive(cs)
    ensures r.Some? ==> exists i :: SequenceVerdict(cs, r.value, i)
  {
    hide IsPermutationOfRange;
    var base := cs[0].header.sequence;
    for i := 0 to |cs|
      invariant forall j :: 0 <= j < i ==> cs[j].header.sequence == base + j
    {
      if cs[i].header.sequence != base + i {
        var permuted := IsPermutation(cs);
        var kind := if permuted then Reordered else Missing;
        var b := ChainBreak(i, cs[i].header.sequence, kind);
        assert SequenceVerdict(cs, b, i);
        return Some(b);
      }
    }
    return None;
  }

  /** The second loop of `verify_chain`: hash linkage. */
  method CheckLinks(hash: Chunk -> Hash, cs: seq<Chunk>) returns (r: Option<ChainBreak>)
    requires Consecutive(cs)
    ensures r.None? ==> LinksFrom(hash, GENESIS, cs)
    ensures r.Some? ==> exists i :: LinkVerdict(hash, cs, r.value, i)
  {
    var expectedPrev := GENESIS;
    for i := 0 to |cs|
      invariant forall j :: 0 <= j < i ==> LinkOk(hash, GENESIS, cs, j)
      invariant expectedPrev == PrevHash(hash, GENESIS, cs, i)
    {
      if cs[i].header.prevHash != expectedPrev {
        var position := if i == 0 then 0 else i - 1;
        var b := ChainBreak(position, cs[position].header.sequence, Modified);
        assert LinkVerdict(hash, cs, b, i);
        return Some(b);
      }
      expectedPrev := hash(cs[i]);
    }
    return None;
  }

  method VerifyChain(hash: Chunk -> Hash, cs: seq<Chunk>) returns (r: Option<ChainBreak>)
    ensures Reports(hash, cs, r)
  {
    if cs == [] {
      return None;
    }
    r := CheckSequences(cs);
    if r.None? {
      r := CheckLinks(hash, cs);
    }
  }

  lemma LinkedIsAccepted(hash: Chunk -> Hash, cs: seq<Chunk>)
    ensures Linked(hash, GENESIS, 0, cs) <==> Accepts(hash, cs) && (cs != [] ==> cs[0].header.sequence == 0)
  {
  }

  // ---- What one tampering of a valid chain is reported as ----

  /** Altering anything but the sequence and link of a chunk that is not the last is blamed on that
      chunk, unless the alteration kept its hash, in which case it goes unseen. */
  lemma AlteredChunk(hash: Chunk -> Hash, cs: seq<Chunk>, k: nat, c: Chunk)
    requires Accepts(hash, cs) && k + 1 < |cs|
    requires c.header.sequence == cs[k].header.sequence && c.header.prevHash == cs[k].header.prevHash
    ensures Reports(hash, cs[k := c],
      if hash(c) == hash(cs[k]) then None
      else Some(ChainBreak(k, c.header.sequence, Modified)))
  {
    var t := cs[k := c];
    forall i | 0 <= i < |t| && i != k + 1 ensures LinkOk(hash, GENESIS, t, i) {
      assert LinkOk(hash, GENESIS, cs, i);
    }
    assert LinkOk(hash, GENESIS, cs, k + 1);
    if hash(c) != hash(cs[k]) {
      assert LinkVerdict(hash, t, ChainBreak(k, c.header.sequence, Modified), k + 1);
    }
  }

  /** Altering the last chunk is never seen from the chain alone. */
  lemma AlteredLastChunk(hash: Chunk -> Hash, cs: seq<Chunk>, c: Chunk)
    requires Accepts(hash, cs) && cs != []
    requires c.header.sequence == cs[|cs| - 1].header.sequence && c.header.prevHash == cs[|cs| - 1].header.prevHash
    ensures Reports(hash, cs[|cs| - 1 := c], None)
  {
    var t := cs[|cs| - 1 := c];
    forall i | 0 <= i < |t| ensures LinkOk(hash, GENESIS, t, i) {
      assert LinkOk(hash, GENESIS, cs, i);
    }
  }

  /** A rewritten link is blamed on the predecessor, whose content did not change. */
  lemma AlteredLink(hash: Chunk -> Hash, cs: seq<Chunk>, k: nat, prev: Hash)
    requires Accepts(hash, cs) && k < |cs| && prev != cs[k].header.prevHash
    ensures Reports(hash, cs[k := cs[k].(header := cs[k].header.(prevHash := prev))],
      Some(ChainBreak(Blamed(k), cs[Blamed(k)].header.sequence, Modified)))
  {
    var t := cs[k := cs[k].(header := cs[k].header.(prevHash := prev))];
    forall i | 0 <= i < k ensures LinkOk(hash, GENESIS, t, i) {
      assert LinkOk(hash, GENESIS, cs, i);
    }
    assert LinkOk(hash, GENESIS, cs, k);
    assert LinkVerdict(hash, t, ChainBreak(Blamed(k), cs[Blamed(k)].header.sequence, Modified), k);
  }

  lemma GapIsNoPermutation(cs: seq<Chunk>)
    requires cs != [] && cs[|cs| - 1].header.sequence >= cs[0].header.sequence + |cs|
    ensures !IsPermutationOfRange(cs)
  {
    var s, range := Sequences(cs), Range(cs[0].header.sequence, |cs|);
    var x := s[|cs| - 1];
    assert x in multiset(s);
    assert x !in range;
    assert x !in multiset(range);
  }

  /** A deleted interior chunk is reported missing at its place. */
  lemma DeletedInterior(hash: Chunk -> Hash, cs: seq<Chunk>, k: nat)
    requires Accepts(hash, cs) && 0 < k && k + 1 < |cs|
    ensures Reports(hash, cs[..k] + cs[k + 1..], Some(ChainBreak(k, cs[k + 1].header.sequence, Missing)))
  {
    hide IsPermutationOfRange;
    var t := cs[..k] + cs[k + 1..];
    assert t[0] == cs[0] && t[k] == cs[k + 1] && t[|t| - 1] == cs[|cs| - 1];
    GapIsNoPermutation(t);
    assert SequenceVerdict(t, ChainBreak(k, cs[k + 1].header.sequence, Missing), k);
  }

  /** A deleted first chunk shows as a bad link at the front, since what follows does not start at
      genesis; only a chunk that hashes to genesis could be dropped unseen. */
  lemma DeletedFirst(hash: Chunk -> Hash, cs: seq<Chunk>)
    requires Accepts(hash, cs) && |cs| > 1
    ensures Reports(hash, cs[1..],
      if hash(cs[0]) == GENESIS then None
      else Some(ChainBreak(0, cs[1].header.sequence, Modified)))
  {
    var t := cs[1..];
    forall i | 0 <= i < |t| ensures t[i].header.sequence == t[0].header.sequence + i {}
    assert LinkOk(hash, GENESIS, cs, 1);
    if hash(cs[0]) == GENESIS {
      forall i | 0 <= i < |t| ensures LinkOk(hash, GENESIS, t, i) {
        assert LinkOk(hash, GENESIS, cs, i + 1);
      }
    } else {
      assert LinkVerdict(hash, t, ChainBreak(0, cs[1].header.sequence, Modified), 0);
    }
  }

  /** Dropping chunks from the end is never seen from the chain alone. */
  lemma DeletedSuffix(hash: Chunk -> Hash, cs: seq<Chunk>, k: nat)
    requires Accepts(hash, cs) && k <= |cs|
    ensures Reports(hash, cs[..k], None)
  {
    var t := cs[..k];
    forall i | 0 <= i < |t| ensures LinkOk(hash, GENESIS, t, i) {
      assert LinkOk(hash, GENESIS, cs, i);
    }
  }

  ghost function Swapped(cs: seq<Chunk>, i: nat, j: nat): (t: seq<Chunk>)
    requires i < j < |cs|
    ensures |t| == |cs| && t[i] == cs[j] && t[j] == cs[i]
  {
    cs[i := cs[j]][j := cs[i]]
  }

  lemma SwapKeepsMultiset(s: seq<nat>, i: nat, j: nat)
    requires i < j < |s|
    ensures multiset(s[i := s[j]][j := s[i]]) == multiset(s)
  {
  }

  lemma SwappedIsPermutation(cs: seq<Chunk>, i: nat, j: nat)
    requires Consecutive(cs) && 0 < i < j < |cs|
    ensures IsPermutationOfRange(Swapped(cs, i, j))
  {
    var t, s := Swapped(cs, i, j), Sequences(cs);
    assert Sequences(t) == s[i := s[j]][j := s[i]];
    assert s == Range(cs[0].header.sequence, |cs|);
    SwapKeepsMultiset(s, i, j);
  }

  /** Swapping two chunks other than the first is a reorder at the earlier one. */
  lemma SwappedChunks(hash: Chunk -> Hash, cs: seq<Chunk>, i: nat, j: nat)
    requires Accepts(hash, cs) && 0 < i < j < |cs|
    ensures Reports(hash, Swapped(cs, i, j), Some(ChainBreak(i, cs[j].header.sequence, Reordered)))
  {
    var t := Swapped(cs, i, j);
    SwappedIsPermutation(cs, i, j);
    hide IsPermutationOfRange;
    assert SequenceVerdict(t, ChainBreak(i, cs[j].header.sequence, Reordered), i);
  }

  /** Swapping the first chunk away moves the base the others are measured from, so this reorder is
      reported as a missing chunk. */
  lemma SwappedWithFirst(hash: Chunk -> Hash, cs: seq<Chunk>, j: nat)
    requires Accepts(hash, cs) && 0 < j < |cs|
    ensures Reports(hash, Swapped(cs, 0, j), Some(ChainBreak(1, Swapped(cs, 0, j)[1].header.sequence, Missing)))
  {
    var t := Swapped(cs, 0, j);
    var base := cs[0].header.sequence;
    assert Sequences(t)[j] == base;
    assert base in multiset(Sequences(t));
    assert base !in Range(base + j, |t|);
    assert base !in multiset(Range(base + j, |t|));
    assert SequenceVerdict(t, ChainBreak(1, t[1].header.sequence, Missing), 1);
  }

  // ---- Tamper evidence ----

  /** The lists witness a failure of the digest: a collision, or a preimage of `GENESIS`. */
  ghost predicate BreaksHash(sha: Bytes -> Hash, a: seq<Chunk>, b: seq<Chunk>) {
    || (exists i, j :: 0 <= i < |a| && 0 <= j < |b| && Collide(sha, HashInput(a[i]), HashInput(b[j])))
    || (exists i :: 0 <= i < |a| && sha(HashInput(a[i])) == GENESIS)
    || (exists j :: 0 <= j < |b| && sha(HashInput(b[j])) == GENESIS)
  }

  ghost predicate Collide(sha: Bytes -> Hash, x: Bytes, y: Bytes) {
    x != y && sha(x) == sha(y)
  }

  ghost predicate SameHashedBytes(a: seq<Chunk>, b: seq<Chunk>) {
    |a| == |b| && forall i :: 0 <= i < |a| ==> HashInput(a[i]) == HashInput(b[i])
  }

  lemma SameBytesSameLink(a: Chunk, b: Chunk)
    requires FitsWidths(a.header) && FitsWidths(b.header)
    requires HashInput(a) == HashInput(b)
    ensures a.header.prevHash == b.header.prevHash
  {
    UniqueDecoding(a, b);
  }

  lemma LinksPrefix(hash: Chunk -> Hash, cs: seq<Chunk>, m: nat)
    requires LinksFrom(hash, GENESIS, cs) && m < |cs|
    ensures LinksFrom(hash, GENESIS, cs[..m])
    ensures HeadAfter(hash, GENESIS, cs[..m]) == cs[m].header.prevHash
  {
    forall i | 0 <= i < m ensures LinkOk(hash, GENESIS, cs[..m], i) {
      assert LinkOk(hash, GENESIS, cs, i);
    }
    assert LinkOk(hash, GENESIS, cs, m);
  }

  lemma SameHashedBytesExtend(a: seq<Chunk>, b: seq<Chunk>)
    requires a != [] && b != []
    requires SameHashedBytes(a[..|a| - 1], b[..|b| - 1])
    requires HashInput(a[|a| - 1]) == HashInput(b[|b| - 1])
    ensures SameHashedBytes(a, b)
  {
    hide HashInput;
    var a', b' := a[..|a| - 1], b[..|b| - 1];
    forall i | 0 <= i < |a| ensures HashInput(a[i]) == HashInput(b[i]) {
      if i < |a| - 1 { assert a'[i] == a[i] && b'[i] == b[i]; }
    }
  }

  lemma BreaksHashMonotone(sha: Bytes -> Hash, a: seq<Chunk>, b: seq<Chunk>, m: nat, n: nat)
    requires m <= |a| && n <= |b|
    requires BreaksHash(sha, a[..m], b[..n])
    ensures BreaksHash(sha, a, b)
  {
    hide HashInput, Collide;
    var a', b' := a[..m], b[..n];
    if i, j :| 0 <= i < m && 0 <= j < n && Collide(sha, HashInput(a'[i]), HashInput(b'[j])) {
      assert Collide(sha, HashInput(a[i]), HashInput(b[j]));
    } else if i :| 0 <= i < m && sha(HashInput(a'[i])) == GENESIS {
      assert sha(HashInput(a[i])) == GENESIS;
    } else {
      var j :| 0 <= j < n && sha(HashInput(b'[j])) == GENESIS;
      assert sha(HashInput(b[j])) == GENESIS;
    }
  }

  /** Two chains linked from genesis with the same head agree on every hashed byte, or they exhibit
      a collision or a preimage of `GENESIS`. */
  lemma {:induction false} TamperEvidence(sha: Bytes -> Hash, hash: Chunk -> Hash, a: seq<Chunk>, b: seq<Chunk>)
    requires HashesWith(hash, sha)
    requires forall c :: c in a || c in b ==> FitsWidths(c.header)
    requires LinksFrom(hash, GENESIS, a) && LinksFrom(hash, GENESIS, b)
    requires HeadAfter(hash, GENESIS, a) == HeadAfter(hash, GENESIS, b)
    ensures SameHashedBytes(a, b) || BreaksHash(sha, a, b)
    decreases |a|
  {
    hide HashInput;
    if a != [] && b != [] {
      var m, n := |a| - 1, |b| - 1;
      if HashInput(a[m]) != HashInput(b[n]) {
        assert Collide(sha, HashInput(a[m]), HashInput(b[n]));
      } else {
        SameBytesSameLink(a[m], b[n]);
        LinksPrefix(hash, a, m);
        LinksPrefix(hash, b, n);
        TamperEvidence(sha, hash, a[..m], b[..n]);
        if SameHashedBytes(a[..m], b[..n]) {
          SameHashedBytesExtend(a, b);
        } else {
          BreaksHashMonotone(sha, a, b, m, n);
        }
      }
    } else if a != [] {
      assert sha(HashInput(a[|a| - 1])) == GENESIS;
    } else if b != [] {
      assert sha(HashInput(b[|b| - 1])) == GENESIS;
    }
  }

  ghost predicate SameSaltPresence(a: seq<Chunk>, b: seq<Chunk>) {
    forall i :: 0 <= i < |a| && i < |b| ==> (a[i].header.keySalt.Some? <==> b[i].header.keySalt.Some?)
  }

  /** The same conclusion for whole chunks, where the hash leaves nothing of them out. */
  lemma TamperEvidenceForChunks(sha: Bytes -> Hash, hash: Chunk -> Hash, a: seq<Chunk>, b: seq<Chunk>)
    requires HashesWith(hash, sha)
    requires forall c :: c in a || c in b ==> FitsWidths(c.header) && WholeMillis(c)
    requires SameSaltPresence(a, b)
    requires Accepts(hash, a) && Accepts(hash, b)
    requires HeadAfter(hash, GENESIS, a) == HeadAfter(hash, GENESIS, b)
    ensures a == b || BreaksHash(sha, a, b)
  {
    hide HashInput, BreaksHash;
    TamperEvidence(sha, hash, a, b);
    if SameHashedBytes(a, b) {
      forall i | 0 <= i < |a| ensures a[i] == b[i] {
        HashInputInjective(a[i], b[i]);
      }
    }
  }
}
