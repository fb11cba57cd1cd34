/** The stored frame of a chunk: header length, header JSON, ciphertext. */
module Framing {
  import opened Core
  import opened Canonical

  function Frame(libs: Libs, c: Chunk): Bytes {
    BigEndian(|libs.headerJson(c.header)|, 4) + libs.headerJson(c.header) + c.ciphertext
  }

  /** `encode_chunk`, extending one buffer. */
  method EncodeChunk(libs: Libs, c: Chunk) returns (out: Bytes)
    ensures out == Frame(libs, c)
  {
    var header := libs.headerJson(c.header);
    out := [];
    out := out + BigEndian(|header|, 4);
    out := out + header;
    out := out + c.ciphertext;
  }

  /** `decode_chunk`. */
  function DecodeChunk(libs: Libs, bytes: Bytes): Result<Chunk, Error> {
    if |bytes| < 4 then Err(Serialization)
    else
      var headerLen := FromBigEndian(bytes[0..4]);
      if |bytes| < 4 + headerLen then Err(Serialization)
      else
        match libs.parseHeader(bytes[4..4 + headerLen])
        case None => Err(Serialization)
        case Some(header) => Ok(Chunk(header, bytes[4 + headerLen..]))
  }

  lemma SplitThree(a: Bytes, b: Bytes, c: Bytes, n: nat)
    requires |a| <= n <= |a| + |b| + |c|
    ensures (a + b + c)[..n][0..|a|] == a
    ensures n >= |a| + |b| ==> (a + b + c)[..n][|a|..|a| + |b|] == b
    ensures n >= |a| + |b| ==> (a + b + c)[..n][|a| + |b|..] == c[..n - |a| - |b|]
  {
  }

  /** Every frame cut short decodes to an error while the cut is inside the length or the header,
      and otherwise to the chunk with its ciphertext cut short; uncut, it decodes to the chunk. */
  lemma DecodeTruncatedFrame(libs: Libs, c: Chunk, n: nat)
    requires libs.Lawful()
    requires |libs.headerJson(c.header)| < U32_LIMIT
    requires n <= |Frame(libs, c)|
    ensures DecodeChunk(libs, Frame(libs, c)[..n]) ==
      var body := 4 + |libs.headerJson(c.header)|;
      if n < body then Err(Serialization) else Ok(c.(ciphertext := c.ciphertext[..n - body]))
  {
    var header := libs.headerJson(c.header);
    var len, cut := BigEndian(|header|, 4), Frame(libs, c)[..n];
    if n >= 4 {
      Widths4And8();
      BigEndianRoundTrip(|header|, 4);
      SplitThree(len, header, c.ciphertext, n);
    }
  }

  lemma FrameRoundTrip(libs: Libs, c: Chunk)
    requires libs.Lawful()
    requires |libs.headerJson(c.header)| < U32_LIMIT
    ensures DecodeChunk(libs, Frame(libs, c)) == Ok(c)
  {
    var frame := Frame(libs, c);
    DecodeTruncatedFrame(libs, c, |frame|);
    assert frame[..|frame|] == frame;
    assert c.ciphertext[..|c.ciphertext|] == c.ciphertext;
  }

  /** Whatever decodes was framed: its parts are where the length says, and nothing is left over. */
  lemma DecodedWasFramed(libs: Libs, bytes: Bytes)
    requires DecodeChunk(libs, bytes).Ok?
    ensures exists header: Bytes ::
      && |header| < U32_LIMIT
      && libs.parseHeader(header) == Some(DecodeChunk(libs, bytes).value.header)
      && FromBigEndian(bytes[..4]) == |header|
      && bytes == bytes[..4] + header + DecodeChunk(libs, bytes).value.ciphertext
  {
    Widths4And8();
    var n := FromBigEndian(bytes[0..4]);
    var header := bytes[4..4 + n];
    assert bytes == bytes[..4] + header + bytes[4 + n..];
  }

  /** The closed-range overlap test both backends list with. */
  predicate Overlaps(ix: ServiceWindowIndex, start: Instant, end: Instant) {
    !(ix.maxTimestamp < start || ix.minTimestamp > end)
  }

  predicate Between(t: Instant, low: Instant, high: Instant) {
    low <= t <= high
  }

  /** Both ends of the range count, although it is documented as half-open. */
  lemma OverlapsIffCommonInstant(ix: ServiceWindowIndex, start: Instant, end: Instant)
    requires ix.minTimestamp <= ix.maxTimestamp && start <= end
    ensures Overlaps(ix, start, end) <==>
      exists t :: Between(t, ix.minTimestamp, ix.maxTimestamp) && Between(t, start, end)
  {
    if Overlaps(ix, start, end) {
      var t := if ix.minTimestamp >= start then ix.minTimestamp else start;
      assert Between(t, ix.minTimestamp, ix.maxTimestamp) && Between(t, start, end);
    }
  }
}
