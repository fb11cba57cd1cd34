/** The data model shared by every module: records, chunks, indexes, the manifest,
    and the libraries the engine calls but whose insides are not modelled. */
module Core {

  datatype Option<+T> = None | Some(value: T)

  datatype Result<+T, +E> = Ok(value: T) | Err(error: E)

  type byte = x: int | 0 <= x < 256

  type Bytes = seq<byte>

  /** A Rust `String`, given by its UTF-8 bytes: length and order are those of the bytes. */
  type Text = Bytes

  /** An instant in nanoseconds since the Unix epoch; negative before 1970. */
  type Instant = int

  const ZERO32: Bytes := [
    0, 0, 0, 0, 0, 0, 0, 0, 0, 0, 0, 0, 0, 0, 0, 0,
    0, 0, 0, 0, 0, 0, 0, 0, 0, 0, 0, 0, 0, 0, 0, 0]
  const ZERO12: Bytes := [0, 0, 0, 0, 0, 0, 0, 0, 0, 0, 0, 0]

  type Hash = h: Bytes | |h| == 32 witness ZERO32
  type Salt = s: Bytes | |s| == 32 witness ZERO32
  type Nonce = n: Bytes | |n| == 12 witness ZERO12

  const GENESIS: Hash := ZERO32

  const DOT: byte := 46
  const SLASH: byte := 47
  const BACKSLASH: byte := 92

  /** A name that stays inside its directory when used as a path component. */
  predicate Safe(component: Text) {
    component != [] && component != [DOT, DOT] && component != [DOT] && SLASH !in component && BACKSLASH !in component
  }

  const NANOS := 1_000_000_000
  const U32_LIMIT := 0x1_0000_0000
  const U64_LIMIT := 0x1_0000_0000_0000_0000

  datatype Value =
    | Null
    | Bool(b: bool)
    | Number(digits: Text)
    | String(s: Text)
    | Array(items: seq<Value>)
    | Object(fields: seq<(Text, Value)>)

  datatype LogRecord = LogRecord(
    raw: Value,
    timestamp: Instant,
    service: Text,
    level: Option<Text>,
    host: Option<Text>,
    traceId: Option<Text>)

  /** The records routed to one `(service, window)` chunk, in input order. */
  datatype Bucket = Bucket(service: Text, window: Text, records: seq<LogRecord>)

  datatype ChunkRef = ChunkRef(service: Text, window: Text, sequence: nat)

  datatype ChunkHeader = ChunkHeader(
    service: Text,
    timeWindow: Text,
    sequence: nat,
    prevHash: Hash,
    nonce: Nonce,
    keySalt: Option<Salt>,
    createdAt: Instant,
    recordCount: nat,
    uncompressedLen: nat)

  datatype Chunk = Chunk(header: ChunkHeader, ciphertext: Bytes) {
    function Ref(): ChunkRef {
      ChunkRef(header.service, header.timeWindow, header.sequence)
    }
  }

  datatype ServiceWindowIndex = ServiceWindowIndex(
    service: Text,
    window: Text,
    minTimestamp: Instant,
    maxTimestamp: Instant,
    levels: set<Text>,
    hosts: set<Text>,
    keywords: set<Text>,
    chunk: ChunkRef)

  type Chunks = map<ChunkRef, Chunk>
  type Indexes = map<ChunkRef, ServiceWindowIndex>

  /** One service's chain as the manifest records it. */
  datatype ServiceChain = ServiceChain(
    service: Text,
    serviceId: nat,
    headHash: Hash,
    nextSequence: nat,
    chunks: seq<ChunkRef>)

  function FreshChain(service: Text, serviceId: nat): ServiceChain {
    ServiceChain(service, serviceId, GENESIS, 0, [])
  }

  datatype Manifest = Manifest(
    bucket: Text,
    services: map<Text, ServiceChain>,
    nextServiceId: nat,
    version: nat)

  const MANIFEST_VERSION := 2

  function FreshManifest(bucket: Text): Manifest {
    Manifest(bucket, map[], 0, MANIFEST_VERSION)
  }

  datatype ChainBreakKind = Modified | Reordered | Missing | HeadMismatch

  datatype ChainBreak = ChainBreak(position: nat, sequence: nat, kind: ChainBreakKind)

  datatype Error =
    | Serialization
    | Crypto
    | ChainIntegrity(broken: ChainBreak)
    | Backend
    | Io
    | NotFound

  /** The libraries below the engine. Nothing is known about them but `Lawful`. */
  datatype Libs = Libs(
    // compute_chunk_hash; Canonical.HashesWith says what it is computed from
    chunkHash: Chunk -> Hash,
    // serde_json, for a chunk's records
    toJson: seq<LogRecord> -> Bytes,
    fromJson: Bytes -> Option<seq<LogRecord>>,
    // serde_json, for a chunk's header
    headerJson: ChunkHeader -> Bytes,
    parseHeader: Bytes -> Option<ChunkHeader>,
    // zstd
    compress: Bytes -> Bytes,
    decompress: Bytes -> Option<Bytes>,
    // HKDF and AES-256-GCM: key, nonce, text
    masterKey: Bytes,
    deriveKey: Salt -> Bytes,
    encrypt: (Bytes, Nonce, Bytes) -> Bytes,
    decrypt: (Bytes, Nonce, Bytes) -> Option<Bytes>,
    // chrono: `%Y-%m-%d-%H` for an hour number, and the seconds a DateTime can hold
    printHour: int -> Text,
    parseHour: Text -> Option<int>,
    minSecs: int,
    maxSecs: int,
    // Unicode: maximal alphanumeric runs of a text, and its lower case
    pieces: Text -> seq<Text>,
    lower: Text -> Text)
  {
    /** `from_timestamp(secs, 0)` succeeds. */
    predicate Representable(secs: int) {
      minSecs <= secs <= maxSecs
    }

    /** Each library undoes itself, and dates print and parse over the representable range,
        which starts on an hour. A printed date holds digits and dashes, so it is a safe name. */
    ghost predicate Lawful() {
      && (forall records :: fromJson(toJson(records)) == Some(records))
      && (forall header :: parseHeader(headerJson(header)) == Some(header))
      && (forall b :: decompress(compress(b)) == Some(b))
      && (forall key, nonce, b :: decrypt(key, nonce, encrypt(key, nonce, b)) == Some(b))
      && minSecs % 3600 == 0
      && (forall hour :: Safe(printHour(hour)))
      && (forall hour :: Representable(3600 * hour) ==> parseHour(printHour(hour)) == Some(hour))
    }
  }

  // How a write of the manifest, and a put of a chunk and its index, can end.

  datatype WriteOutcome = WriteDone | WriteFailed(landed: bool)

  datatype PutOutcome = PutDone | PutFailed(chunkLanded: bool, indexLanded: bool)

  /** How a backend keeps a service's chunks and finds them: in a directory of its own, which the file system
      opens for some names, or under a path prefix, which the name of a second service may extend. */
  datatype ListingStyle = ByDirectory(opens: Text -> bool) | ByPrefix

  /** Listing `asked` finds the chunks of `service`. */
  predicate Lists(listing: ListingStyle, asked: Text, service: Text) {
    service == asked || (listing.ByPrefix? && Nested(asked, service))
  }

  /** `inner` is `outer` followed by a slash and more: "a/b" in "a". */
  predicate Nested(outer: Text, inner: Text) {
    outer + [SLASH] <= inner
  }

  /** A backend with directories rejects every call about a name that is not a safe path component, and fails
      for one that no directory can have, say for its length. */
  predicate Admits(listing: ListingStyle, name: Text) {
    listing.ByDirectory? ==> Safe(name) && listing.opens(name)
  }

  /** Everything fixed when the engine is created. */
  datatype Config = Config(libs: Libs, bucket: Text, windowSecs: nat, listing: ListingStyle)
}
