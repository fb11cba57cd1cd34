# ObsidianLog archive engine: a verified model

ObsidianLog archives logs as encrypted, hash-chained chunks. This project models its storage
engine and proves what it promises: that any number of concurrent `ingest_batch` calls, failing or
being dropped at any point, leave every service with one intact chain; that calls which meet no
failure, and whose names the backend accepts, are acknowledged; that an acknowledged batch can be read
back in full through any number of crashes and connections, also after a failed manifest write that
landed unseen has left the archive inconsistent; that a chain cannot be altered unseen; for which
windows the index-first query returns what a full scan returns; and that both storage backends
implement the same keyed store. Where a promise does not hold of the code, the exact condition and a
run that breaks it are given.

`dafny verify dfyconfig.toml` checks everything. The modules, bottom up:

- `Core`, `Ordering`: the data model, the libraries the engine calls, sorted iteration.
- `Canonical`, `Chain`, `Builder`, `Framing`: hashed bytes, `verify_chain`, `ChainBuilder`, chunk frames.
- `Windows`, `Pruning`, `Chunking`, `Index`: time windows, when pruning by them is sound, bucketing, the
  prefilter and the exact filter.
- `Sealing`, `Archive`: building a batch's chunks, and a consistent archive (`StoreOk`).
- `Protocol`: concurrent ingestion as a state machine. Each call is cut at its awaits; `Step` lists
  everything that can happen next, including a failed write that landed or did not, a failed put of
  which chunk or index landed, a read or library error, and abandonment.
- `Safety`, `Runs`, `Serial`, `Isolation`, `ReadBack`, `Progress`, `Completion`, `Scheduling`, `ManifestLoss`,
  `Guard`, `Rejection`: the invariant of that machine and what follows for every run.
- `Lifetimes`: many processes one after the other, each ended at any moment.
- `Reading`, `OneRecord`, `QueryExact`, `Queries`: queries and verification, as specifications and as loops.
- `Answers`, `Verdicts`: what their answers mean, in terms of the archived records and chunks alone.
- `Engine`: one sequential `ingest_batch` over mutable maps, against the same specifications.
- `Paths`, `KeyedStore`, `Local`, `Sia`: the backends.
- `CachedManifest`, `StaleManifest`, `Connections`: the machine over a connection that serves its cached
  manifest, and over any number of such connections one after the other.

## Assumptions

- JSON, zstd, AES-GCM and date printing undo themselves, and a printed date is a safe path component
  (`Libs.Lawful`); HKDF, the digest and the tokenizer's Unicode tables are arbitrary functions. The digest
  is not assumed injective: where it matters, the conclusion is "or a collision, or a preimage of the
  genesis hash, is exhibited".
- One put of a chunk, one put of an index and one manifest write are each atomic; a failed one leaves
  the old or the new value. A dropped call has no upload landing later.
- In `Protocol` a manifest read returns the stored manifest, as the local backend's does. A Sia
  connection serves the copy it last wrote. `CachedManifest` proves that what it serves still behaves
  as in `Protocol`, that the stored manifest is the same one unless the last write that landed was
  reported as failed, and exactly when it is consistent in that case; `StaleManifest` gives a run in
  which it is not. `Connections` shows that what was acknowledged survives even then.
- How a backend lists a service's chunks is a parameter (`Config.listing`): by directory, as the local
  one, or by path prefix, as the Sia one. With directories a listing or a put under a name the backend
  rejects can only fail; which safe names the file system itself can hold is an arbitrary function.
- One process writes at a time, and the first one starts from a consistent archive.
- The Sia indexer lists events in strictly increasing `(updated_at, id)` order, stamps an object as
  its event, and lists an object once it is pinned.

## Where the code decides against its own prose

- The salt is hashed only when present, so a saltless chunk can hash like a salted one
  (`SaltlessTwinHashesAlike`); the creation time is hashed only to the millisecond.
- `verify_chain` measures sequences from the first chunk's own number: swapping that chunk away is
  reported `Missing`, not `Reordered` (`SwappedWithFirst`).
- A changed `prev_hash` is blamed on the predecessor, whose content did not change (`AlteredLink`).
- `window_bounds` is documented as the inverse of `window_label`, but the label keeps only the hour:
  it is one exactly for whole-hour windows (`PruningSoundIffWholeHours`, `QueryExactIffWholeHours`), and
  `QueryExactIffReaches` says which other window an archive can be queried with.
- `TimeRange` is documented as half-open, but `overlaps` counts both ends (`OverlapsIffCommonInstant`).
- The guard against a lost manifest is meant for services whose chunks outlived it. On Sia, listing "a"
  also finds the chunks of "a/b", so once "a/b" is archived a first batch of "a" is refused although
  nothing was lost (`NestedServiceIsRefused`); this is the only way it misfires (`RefusesIffNested`). For
  calls under way at once it depends on their order whether it does (`NestedHolderBlocks`), and
  `AllCanCompleteIff` says exactly when some order avoids it.
- The local backend rejects "", ".", ".." and every name with a slash or a backslash, but ingestion takes
  service names as they come. A batch with one such record always fails as a whole, its records for other
  services included (`RejectedNeverAcknowledged`, `SlashIsRejected`); the condition under which all calls
  can be acknowledged therefore names it (`AllCanCompleteIff`).
- The Sia backend keeps its last manifest so that a sequence number is not used twice; after a commit
  that failed but landed, that copy is what makes the next batch use one twice (`StaleCacheOverwrites`).

## Model

| member | source | states |
|---|---|---|
| Canonical.WriteCanonicalBytes | crates/obsidianlog-core/src/chunk.rs:84-99 | the buffer filled field by field is the one `CanonicalLayout` reads back |
| Canonical.WriteHashInput | crates/obsidianlog-core/src/chunk.rs:118-122 | the hashed bytes are the canonical header followed by the ciphertext |
| Canonical.ComputeChunkHash | crates/obsidianlog-store/src/chain.rs:23-28 | the chunk hash is the digest of exactly those bytes |
| Canonical.CanonicalLayout | crates/obsidianlog-core/src/chunk.rs:66-99 | in the hashed bytes every field stands at its documented offset: big-endian lengths and texts, sequence, link, nonce, whole milliseconds modulo 2^64, count, length, the salt after 0x01 if present, then the ciphertext |
| Canonical.HashedToTheMillisecond | crates/obsidianlog-core/src/chunk.rs:91-91 | chunks differing only in creation time hash alike iff it falls in one millisecond |
| Canonical.FirstByteWeighsMost | crates/obsidianlog-core/src/chunk.rs:84-99 | integers are read most significant byte first |
| Canonical.BigEndianRoundTrip | crates/obsidianlog-core/src/chunk.rs:84-99 | and read back what was written, within the width |
| Canonical.UniqueDecoding | crates/obsidianlog-core/src/chunk.rs:84-122 | two chunks share hashed bytes iff every hashed field agrees and either salt and ciphertext agree, or one is saltless and its ciphertext starts with the marker and the other's salt |
| Canonical.HashInputInjective | crates/obsidianlog-core/src/chunk.rs:84-122 | with equal salt presence and whole-millisecond times, equal hashed bytes mean equal chunks |
| Canonical.SaltlessTwinHashesAlike | crates/obsidianlog-core/src/chunk.rs:94-97 | every salted chunk has a different, saltless chunk with the same hashed bytes |
| Canonical.FillNonce | crates/obsidianlog-store/src/encrypt.rs:136-141 | the array filled in place is four bytes of service id, then eight of sequence |
| Canonical.NonceInjective | crates/obsidianlog-store/src/encrypt.rs:118-141 | distinct (service id, sequence) pairs within 32 and 64 bits have distinct nonces |
| Canonical.NonceLayout | crates/obsidianlog-store/src/encrypt.rs:136-141 | the first four bytes of a nonce are the service id, the other eight the sequence |
| Chain.SortUnstable | crates/obsidianlog-store/src/chain.rs:167-168 | a non-decreasing rearrangement of the sequence numbers |
| Chain.IsPermutation | crates/obsidianlog-store/src/chain.rs:167-169 | the sort-and-compare test holds iff the sequences are, as a multiset, the range from the first chunk's sequence |
| Chain.CheckSequences | crates/obsidianlog-store/src/chain.rs:164-181 | finds the first sequence that is not base plus position, `Reordered` iff a permutation of the range, else `Missing`; none iff all are consecutive |
| Chain.CheckLinks | crates/obsidianlog-store/src/chain.rs:183-197 | on consecutive sequences, finds the first link that does not carry its predecessor's hash and blames the predecessor; none iff all links hold from genesis |
| Chain.VerifyChain | crates/obsidianlog-store/src/chain.rs:156-200 | accepts iff consecutive and linked from genesis, else reports the first sequence break, else the first link break |
| Chain.ReportsUnique | crates/obsidianlog-store/src/chain.rs:156-200 | that report is unique, so `VerifyChain` is fully determined by it |
| Chain.LinkedIsAccepted | crates/obsidianlog-store/src/chain.rs:156-200 | the chains built from genesis and sequence 0 are exactly the accepted ones whose first sequence is 0 |
| Chain.AlteredChunk | crates/obsidianlog-store/src/chain.rs:149-151 | altering anything but sequence and link of a non-last chunk k yields `Modified` at k, unless its hash is kept, and then nothing |
| Chain.AlteredLastChunk | crates/obsidianlog-store/src/chain.rs:153-155 | altering the last chunk, links kept, is never seen from the chain alone |
| Chain.AlteredLink | crates/obsidianlog-store/src/chain.rs:186-194 | a changed `prev_hash` at k is `Modified` at k-1, or at 0 for the first |
| Chain.DeletedInterior | crates/obsidianlog-store/src/chain.rs:147-147 | deleting an interior chunk k yields `Missing` at k |
| Chain.DeletedFirst | crates/obsidianlog-store/src/chain.rs:183-197 | deleting the first chunk yields `Modified` at 0, unless it hashed to genesis |
| Chain.DeletedSuffix | crates/obsidianlog-store/src/chain.rs:153-155 | dropping chunks from the end is never seen from the chain alone |
| Chain.SwappedChunks | crates/obsidianlog-store/src/chain.rs:148-148 | swapping chunks i < j other than the first yields `Reordered` at i |
| Chain.SwappedWithFirst | crates/obsidianlog-store/src/chain.rs:161-175 | swapping the first chunk away yields `Missing` at 1 |
| Chain.TamperEvidence | crates/obsidianlog-store/src/engine.rs:360-371 | two chains linked from genesis with one head have the same length and the same hashed bytes throughout, or exhibit a digest collision or genesis preimage |
| Chain.TamperEvidenceForChunks | crates/obsidianlog-store/src/engine.rs:360-371 | two accepted lists with one head, equal salt presence and whole-millisecond times, are equal, or break the digest |
| Builder.ChainBuilder.Resume | crates/obsidianlog-store/src/chain.rs:55-63 | sets one service's head and next sequence, and no other's; `head` shows it |
| Builder.ChainBuilder.Append | crates/obsidianlog-store/src/chain.rs:67-88 | links the chunk onto its own service's head and advances only that head, which `head` then returns |
| Builder.OwnPicks | crates/obsidianlog-store/src/chain.rs:67-83 | a service's own chunks are exactly those appended under its name, in order |
| Builder.ServicesAreIndependent | crates/obsidianlog-store/src/chain.rs:67-83 | in any interleaving, a service's chunks and head are those of its own appends alone |
| Builder.LinkAllIsLinked | crates/obsidianlog-store/src/chain.rs:67-83 | what is appended continues the chain it started from, consecutively and linked |
| Builder.LinkAllKeepsContent | crates/obsidianlog-store/src/chain.rs:76-77 | appending changes nothing of a chunk but sequence and `prev_hash` |
| Builder.BuilderMakesAcceptedChains | crates/obsidianlog-store/src/chain.rs:47-88 | every service's chunks from a new builder pass `verify_chain` |
| Builder.LinkAllResumes | crates/obsidianlog-store/src/chain.rs:51-63 | one service's appends split anywhere and resumed from the saved head give the same chunks |
| Builder.ResumedRun | crates/obsidianlog-store/src/chain.rs:51-83 | a run over all services split anywhere, resumed only for the services still to come, gives the chunks of the unsplit run |
| Framing.EncodeChunk | crates/obsidianlog-store/src/backend.rs:46-53 | the buffer is the frame that the decoding lemmas are about |
| Framing.DecodeTruncatedFrame | crates/obsidianlog-store/src/backend.rs:56-68 | a frame cut inside length or header is rejected; cut later it decodes with the ciphertext cut |
| Framing.FrameRoundTrip | crates/obsidianlog-store/src/backend.rs:44-68 | decoding a frame gives the chunk back, for headers under 2^32 bytes |
| Framing.DecodedWasFramed | crates/obsidianlog-store/src/backend.rs:56-68 | whatever decodes consists of a length, a header of that length that parses, and the ciphertext, with nothing left over |
| Framing.OverlapsIffCommonInstant | crates/obsidianlog-store/src/backend.rs:40-42 | index and range overlap iff some instant lies in both, ends included |
| Windows.LabelParses | crates/obsidianlog-store/src/chunking.rs:34-58 | the label of a dated instant reads back as bounds starting at the hour printed |
| Windows.WholeHoursContain | crates/obsidianlog-store/src/chunking.rs:44-58 | for whole-hour windows, before and after 1970, an instant lies in the bounds of its label |
| Windows.NeverPrunedIffContained | crates/obsidianlog-store/src/engine.rs:303-319 | no time filter that admits an instant prunes its label iff the label's bounds contain it |
| Windows.PruningSoundIffWholeHours | crates/obsidianlog-store/src/engine.rs:300-319 | pruning is sound for every dated instant iff the window is a multiple of 3600 s |
| Windows.PruningSoundIffNotShorter | crates/obsidianlog-store/src/engine.rs:303-319 | a whole-hour archive queried with another window is pruned soundly iff that window is no shorter |
| Windows.MinuteWindowLosesRecord | crates/obsidianlog-store/src/chunking.rs:34-58 | with 60 s windows a record at 15:30:10 is pruned by `since` 15:20 though it matches |
| Windows.SameLabelIffSameWindow | crates/obsidianlog-store/src/chunking.rs:28-42 | with whole-hour windows two instants share a label iff they share a window |
| Windows.LabelReads | crates/obsidianlog-store/src/chunking.rs:28-42 | a label reads back as the hour of the start of the window, counted in whole windows of at least a second from 1970, or as the instant's own hour if that start is no date |
| Windows.KeptIffCommonInstant | crates/obsidianlog-store/src/engine.rs:303-319 | a label is kept iff it is no hour, or some instant of its window, end excluded, lies in the asked range, ends included |
| Windows.UntilNeverLoses | crates/obsidianlog-store/src/engine.rs:315-317 | pruning by `until` loses nothing, whatever the two windows |
| Pruning.OffsetIsBounded | crates/obsidianlog-store/src/chunking.rs:34-38 | no window of `w` seconds starts later in its hour than 3600 - gcd(w, 3600) s |
| Pruning.LatestStart | crates/obsidianlog-store/src/chunking.rs:34-38 | some window does start there |
| Pruning.PruningSoundIffReaches | crates/obsidianlog-store/src/engine.rs:300-319 | an archive written with `w` and queried with `q` is pruned soundly for every dated instant iff `q >= w + 3600 - gcd(w, 3600)`, both clamped to 1 |
| Pruning.MinutesQueriedAsHours | crates/obsidianlog-store/src/engine.rs:300-319 | a 60 s archive is pruned soundly iff queried with at least 3600 s |
| Chunking.GroupIntoBuckets | crates/obsidianlog-store/src/chunking.rs:64-81 | the map-filling loop returns one bucket per key in key order, each with its records in input order |
| Chunking.BucketsAreWellFormed | crates/obsidianlog-store/src/chunking.rs:60-63 | buckets are non-empty, strictly increasing by (service, window), and hold only records of their own key; none iff the batch is empty |
| Chunking.BucketsConserveRecords | crates/obsidianlog-store/src/chunking.rs:64-81 | the buckets together hold the batch's records, as a multiset |
| Chunking.BucketsKeepOrder | crates/obsidianlog-store/src/chunking.rs:64-81 | each bucket holds exactly the batch's records of its service and label, in the order they came |
| Chunking.BucketWindowsAreSafe | crates/obsidianlog-store/src/chunking.rs:34-42 | every window of a batch is a printed date, which the local backend accepts and which holds no slash |
| Index.TokenizeInto | crates/obsidianlog-store/src/index.rs:174-188 | adds exactly the lower-cased pieces of 2 to 64 bytes |
| Index.CollectTokens | crates/obsidianlog-store/src/index.rs:164-172 | adds exactly the tokens that `TokensAreWords` characterises |
| Index.TokensAreWords | crates/obsidianlog-store/src/index.rs:164-188 | a token is collected from a JSON value iff it is the lower case, 2 to 64 bytes long, of an alphanumeric run of a string that stands in it at some path of array positions and object fields |
| Index.MatchesIffAskedFor | crates/obsidianlog-store/src/index.rs:124-162 | a record matches iff it has the service, the level and the host, lies in the closed time range, and each word of the keyword stands somewhere in its raw line |
| Index.IndexDescribes | crates/obsidianlog-store/src/index.rs:39-69 | an index names its chunk, and has exactly the levels, hosts and words of its records and their earliest and latest times |
| Index.PrefilterIsEachBySome | crates/obsidianlog-store/src/index.rs:77-115 | the prefilter keeps an index iff each filter by itself is met by some record of the chunk |
| Index.TimesSpan | crates/obsidianlog-store/src/index.rs:43-48 | every record lies between the recorded minimum and maximum |
| Index.BuildIndex | crates/obsidianlog-store/src/index.rs:39-69 | one pass yields the levels, hosts, tokens and time span of the records |
| Index.CheckMightMatch | crates/obsidianlog-store/src/index.rs:77-115 | the early-return cascade decides the prefilter condition |
| Index.CheckRecordMatches | crates/obsidianlog-store/src/index.rs:124-162 | the early-return cascade decides the exact condition |
| Index.PrefilterIsConservative | crates/obsidianlog-store/src/index.rs:71-76 | the prefilter never rejects the index of a chunk holding a matching record |
| Sealing.OpenMadeChunk | crates/obsidianlog-store/src/engine.rs:217-236 | reading a sealed chunk gives its bucket's records back |
| Sealing.SaltlessOpens | crates/obsidianlog-store/src/engine.rs:224-233 | a chunk without a salt, sealed under the master key, opens to its records |
| Sealing.SaltedOpens | crates/obsidianlog-store/src/engine.rs:224-233 | a chunk with a salt, sealed under the key derived from it, opens to its records |
| Sealing.OpeningFails | crates/obsidianlog-store/src/engine.rs:224-236 | opening fails as a crypto, an I/O or a serialization error iff decrypting under that key, decompressing or parsing does |
| Sealing.MadeDescribes | crates/obsidianlog-store/src/engine.rs:135-161 | a sealed chunk carries its records' latest time, their count modulo 2^32, the length of their JSON, its salt and the nonce of its id and sequence, and is sealed under the key derived from the salt |
| Sealing.BuildAllOk | crates/obsidianlog-store/src/engine.rs:117-173 | from any seed, the loop archives each bucket, with a header that describes it, under its service's id and continues each service's chain; heads, refs and keys are those of the chunks |
| Sealing.BuiltDecodes | crates/obsidianlog-store/src/engine.rs:121-173 | a service's built chunks decode to exactly its buckets, in order |
| Sealing.BuildIsChainBuilder | crates/obsidianlog-store/src/engine.rs:117-173 | the inline chaining gives the chunks and heads `ChainBuilder` would |
| Archive.RegisteringKeepsStore | crates/obsidianlog-store/src/engine.rs:435-444 | giving a new service the next id keeps the archive consistent, ids distinct and below the counter |
| Archive.StoringUnreferenced | crates/obsidianlog-store/src/engine.rs:181-187 | putting an archive under a key no entry has reached keeps the archive consistent and every recorded chain as it was |
| Archive.CommitEntry | crates/obsidianlog-store/src/engine.rs:197-210 | one service's entry advanced over its stored chunks is consistent and decodes to its old buckets followed by the batch's |
| Archive.CommitKeepsStore | crates/obsidianlog-store/src/engine.rs:192-211 | overlaying a stored batch keeps the archive consistent and appends to each service exactly its buckets |
| Archive.NoncesAreDistinct | crates/obsidianlog-store/src/encrypt.rs:118-130 | in a consistent archive no two referenced chunks, of one service or two, share a nonce |
| Safety.LocksAreExclusive | crates/obsidianlog-store/src/engine.rs:101-109 | no two calls hold one service, nor the manifest lock |
| Safety.StepKeepsInv | crates/obsidianlog-store/src/engine.rs:96-213 | every step of every call, failed ones included, keeps the invariant tying locks, private seeds and drafts, uploads and the durable archive together |
| Runs.ReachableInv | crates/obsidianlog-store/src/engine.rs:96-213 | the invariant holds in every state of every run from a consistent archive |
| Runs.EmptyBackendIsAtRest | crates/obsidianlog-core/src/manifest.rs:82-92 | an empty backend is such a starting archive |
| Runs.RestartIsAtRest | crates/obsidianlog-store/src/engine.rs:8-23 | a crash at any moment of any run leaves a consistent archive to start from |
| Runs.ReachableServicesVerify | crates/obsidianlog-store/src/engine.rs:333-374 | in every reachable state every service in the durable manifest verifies to its full length, which is its next sequence |
| Runs.ReachableNoncesDistinct | crates/obsidianlog-store/src/encrypt.rs:118-141 | in every reachable state all referenced chunks of all services have distinct nonces |
| Runs.UploadsNeverOverwriteReferenced | crates/obsidianlog-store/src/engine.rs:175-190 | no upload or retry targets a key the durable manifest refers to |
| Runs.RunPreserves | crates/obsidianlog-store/src/engine.rs:195-211 | between any two states of a run, service ids are permanent, refs keep their places, and what they refer to is unchanged |
| Runs.ReadsAreSnapshot | crates/obsidianlog-store/src/engine.rs:258-298 | reads spread over a run return, for every reference of the manifest read first, what was stored at that moment |
| Runs.QueryIsSnapshot | crates/obsidianlog-store/src/engine.rs:258-298 | a query interleaved with running ingests returns, whatever window it is asked with, what it would return run atomically when it read the manifest; with a window that reaches or without a `since`, the full scan of that moment |
| Runs.VerifyIsSnapshot | crates/obsidianlog-store/src/engine.rs:333-374 | verification interleaved with running ingests verifies the chain as it stood when the manifest was read |
| Serial.StepHistory | crates/obsidianlog-store/src/engine.rs:195-211 | a step changes decrypted histories only by making a final write durable, and then appends exactly that batch |
| Serial.NewlyAcked | crates/obsidianlog-store/src/engine.rs:96-100 | a call is acknowledged only by its final manifest write succeeding, or at once when the batch is empty |
| Serial.StepKeepsCommitsOk | crates/obsidianlog-store/src/engine.rs:211-212 | each call commits at most once and every acknowledged non-empty one has |
| Serial.FinishedStays | crates/obsidianlog-store/src/engine.rs:96-213 | a call that has returned, and any call not taking the step, is left as it is |
| Serial.RunsAreSerial | crates/obsidianlog-store/src/engine.rs:192-211 | at every point of every run each service's history is its start followed by the committed batches run one at a time in commit order: no lost update, no duplicate |
| Isolation.NonInterference | crates/obsidianlog-store/src/engine.rs:102-109 | while a call holds a service no step of another changes its manifest entry, chunks or indexes |
| Isolation.SeedStaysCurrent | crates/obsidianlog-store/src/engine.rs:111-116 | from its unlocked seed read to its final write, a call's services stand in the manifest as it read them |
| Isolation.UploadErrorIsFinal | crates/obsidianlog-store/src/engine.rs:181-190 | a call that returns an upload error has started all its uploads and has none in flight, and takes no step at any later moment |
| Isolation.RegistrationIsNeeded | crates/obsidianlog-store/src/engine.rs:400-418 | in every reachable state a call that waits to register, or does, still has a service without an entry |
| Isolation.EightUploadsAtOnce | crates/obsidianlog-store/src/engine.rs:181-187 | a call has at most eight uploads in flight, and with fewer can start its next one |
| ReadBack.ReadRecordsDecodes | crates/obsidianlog-store/src/engine.rs:217-236 | reading references returns the records of what they decode to, in order |
| ReadBack.AckedBatchReadsBack | crates/obsidianlog-store/src/engine.rs:92-95 | at any later moment of its process, an acknowledged batch's refs are in place, decode per service to its buckets in order, and together give its records as a multiset |
| Lifetimes.EveryLifeStartsAtRest | crates/obsidianlog-store/src/engine.rs:8-23 | after any number of processes, each ended at any step, the next starts from a consistent archive |
| Lifetimes.KeptAcrossLives | crates/obsidianlog-store/src/engine.rs:195-211 | from any moment to any later one of any later process, ids are permanent, refs keep their places, and what they refer to is unchanged |
| Lifetimes.AcknowledgedForever | crates/obsidianlog-store/src/engine.rs:92-95 | while no connection serves a stale manifest, a batch acknowledged by one process reads back in full at any later moment of any later one |
| Lifetimes.LivesAreSerial | crates/obsidianlog-store/src/engine.rs:192-211 | across all processes each service's history is the first one's start followed by every committed batch, one at a time in commit order |
| Progress.OwnerWantsMore | crates/obsidianlog-store/src/engine.rs:102-109 | with sorted acquisition, the holder of a wanted service waits, if at all, for a larger one |
| Progress.NeverStuck | crates/obsidianlog-store/src/engine.rs:102-109 | in every reachable state with a running call, some call can take a step other than being dropped; nothing fails in it that has not failed before, unless that call has a service name the backend rejects |
| Progress.StepLowersWork | crates/obsidianlog-store/src/engine.rs:96-213 | every step but a new arrival lowers a measure over locks, registrations, uploads and writes left |
| Progress.RunsAreBounded | crates/obsidianlog-store/src/engine.rs:96-213 | without arrivals a run takes at most that many steps, whatever fails |
| Completion.RegistrationStaysOnTrack | crates/obsidianlog-store/src/engine.rs:421-444 | with ids left and nothing nested, a registration round whose listing answers does not fail, and the listing can answer for every name the backend accepts |
| Completion.SmoothRunKeepsTrack | crates/obsidianlog-store/src/engine.rs:96-213 | while nothing fails, in any order of steps, every call under way without a failed upload stays so or is acknowledged, and the ids, names and nesting stay in order |
| Completion.SmoothRunsAcknowledge | crates/obsidianlog-store/src/engine.rs:92-95 | with accepted names, every run in which nothing fails is finite, and once it cannot go on every such call has been acknowledged |
| Completion.CompletingNeeds | crates/obsidianlog-store/src/engine.rs:422-440 | if from a reachable state all such calls can be acknowledged and the rest ended without a failure, there are ids for the services to register, the backend accepts every name in those calls, and it lists nothing for a service it is still to be asked about |
| Completion.SmoothRunContinues | crates/obsidianlog-store/src/engine.rs:92-95 | when those conditions hold and no other call under way touches a service nested in one still to be asked about, every run in which nothing has failed can be continued until all such calls are acknowledged |
| Scheduling.ScheduledCallsComplete | crates/obsidianlog-store/src/engine.rs:102-109 | with those conditions, a schedule of registrations and returns that fits the locks and asks about each service before one nested in it is left behind can be run to the end without a failure |
| Scheduling.CompletingIsScheduled | crates/obsidianlog-store/src/engine.rs:414-448 | every run that acknowledges all such calls has followed such a schedule |
| Scheduling.AllCanCompleteIff | crates/obsidianlog-store/src/engine.rs:422-440 | in every reachable state, all such calls can be acknowledged and the rest ended without a failure iff the ids suffice, the names are accepted, nothing listed is in the way, and a schedule exists |
| Scheduling.NestedHolderBlocks | crates/obsidianlog-store/src/engine.rs:422-434 | there is no schedule, and so no such run, once a call that will store something nested in `t` holds a service that the only call with `t`, still to be asked about, needs too |
| ManifestLoss.LossIsContained | crates/obsidianlog-store/src/engine.rs:408-434 | once listing finds chunks for a service without an entry, or rejects its name, in any run it gets no entry, its chunks and indexes stay as they were, and no call touching it gets past registration |
| ManifestLoss.TouchingLostChangesNothing | crates/obsidianlog-store/src/engine.rs:408-434 | no step of a batch touching such a service, even among others, changes the manifest or any archive, and it is never acknowledged |
| Guard.RefusesIffNested | crates/obsidianlog-store/src/engine.rs:422-434 | in every reachable state a registration round refuses iff its service has no entry, chunks are listed by prefix, and the index of a service nested in it is stored |
| Guard.RefusedMeansNested | crates/obsidianlog-store/src/engine.rs:408-434 | in no run is a call refused otherwise: never with a directory listing, and never while no stored service name holds a slash |
| Guard.NestedServiceIsRefused | crates/obsidianlog-store/src/backend/sia.rs:324-336 | from an archive at rest, a first batch of a service with a stored service nested in it is refused though nothing failed |
| Guard.NestedExampleIsRefused | crates/obsidianlog-store/src/backend/sia.rs:324-336 | a run that refuses a first batch of "a" on the consistent archive of one record of "a/b" |
| Rejection.RejectedNeverAcknowledged | crates/obsidianlog-store/src/backend/local.rs:234-246 | in no run from a consistent archive is a call acknowledged or committed that touches a service whose name the backend rejects |
| Rejection.RejectedChangesNothing | crates/obsidianlog-store/src/backend/local.rs:199-200 | if that service has no entry at first, no step of a batch touching it changes the manifest or any archive, and it never gets one |
| Rejection.SlashIsRejected | crates/obsidianlog-store/src/backend/local.rs:234-246 | the run of a batch of "a/b" over directories: an error that leaves the empty backend empty; and in no reachable state is a call touching "a/b" acknowledged |
| Reading.VerifyReportsUnique | crates/obsidianlog-store/src/engine.rs:333-374 | what `verify_service` returns for an entry is determined by its reads |
| Reading.ConsistentEntryVerifies | crates/obsidianlog-store/src/engine.rs:333-374 | a consistent entry verifies, to the full length of its chain |
| Reading.PrunedByWindow | crates/obsidianlog-store/src/engine.rs:269-273 | with a queried window that reaches, or without a `since`, a chunk pruned by its label holds no matching record |
| Reading.PrunedByIndex | crates/obsidianlog-store/src/engine.rs:276-286 | a chunk rejected by the prefilter, or of an unwanted service, holds no matching record |
| Reading.QueryIsFullScan | crates/obsidianlog-store/src/engine.rs:258-298 | for every query of a consistent archive with a window that reaches, and every one without a `since` with any window, the query succeeds with the records of the full scan, in its order |
| Reading.QueryDependsOnReferenced | crates/obsidianlog-store/src/engine.rs:258-298 | a query returns the same, errors included, for any reads that agree on what the manifest refers to |
| Reading.VerifyDependsOnReferenced | crates/obsidianlog-store/src/engine.rs:333-374 | so does verification for reads that agree on what the entry refers to |
| Answers.AnswerPicks | crates/obsidianlog-store/src/engine.rs:258-298 | unless pruning can lose something, a query of a consistent archive returns exactly the records asked for, as often as they are archived, services in increasing order and each in chain order |
| Answers.ReturnedIffAskedFor | crates/obsidianlog-store/src/engine.rs:258-298 | so a record is returned iff it is archived, has the service, level and host, lies in the time range, and has each word of the keyword in some string of its raw line |
| Answers.EachFilterAlone | crates/obsidianlog-store/src/index.rs:124-162 | what the service, level, host, `since`, `until` and keyword filters each return by themselves |
| Answers.FieldIsFound | crates/obsidianlog-store/src/index.rs:164-172 | every word of `s` is found in the line that holds `s` in a field |
| Answers.AckedIsReturned | crates/obsidianlog-store/src/engine.rs:92-95 | in every reachable state an acknowledged record is returned by exactly the queries that ask for it, unless pruning can lose something |
| Answers.CandidateIff | crates/obsidianlog-store/src/engine.rs:261-273 | a reference is a candidate iff its entry's service is the asked one, if any, and its window may overlap |
| Answers.PrefilterFailsIff | crates/obsidianlog-store/src/engine.rs:275-286 | loading indexes fails iff one of the candidates' cannot be read, with the first such error |
| Answers.PrefilterKeeps | crates/obsidianlog-store/src/engine.rs:275-286 | else the survivors are the candidates whose own index might match, in order |
| Answers.FetchFailsIff | crates/obsidianlog-store/src/engine.rs:288-294 | fetching fails iff some chunk cannot be read or opened, with the first such error |
| Answers.QueryFailsIff | crates/obsidianlog-store/src/engine.rs:258-298 | a query fails iff a candidate's index or a survivor's chunk cannot be read or opened: nothing is left out in silence |
| QueryExact.LostRecordIsMissed | crates/obsidianlog-store/src/engine.rs:269-273 | whenever a label's bounds miss its instant, the archive of one record there is consistent and a query that matches the record returns nothing |
| QueryExact.QueryExactIffReaches | crates/obsidianlog-store/src/engine.rs:249-319 | over all consistent archives and all queries, an archive written with `w` and queried with `q` returns its full scan iff `q >= w + 3600 - gcd(w, 3600)` |
| QueryExact.QueryExactIffWholeHours | crates/obsidianlog-store/src/engine.rs:249-319 | queried as it was written, it does iff the window is a whole number of hours |
| Queries.SelectCandidates | crates/obsidianlog-store/src/engine.rs:261-273 | candidates come service by service in key order, each service's in chain order, filtered by service and window |
| Queries.Prefilter | crates/obsidianlog-store/src/engine.rs:275-286 | keeps the candidates whose index might match; the first failed read is the result |
| Queries.FetchRecords | crates/obsidianlog-store/src/engine.rs:288-294 | concatenates the chunks' records in order; the first failed read or decryption is the result |
| Queries.Retain | crates/obsidianlog-store/src/engine.rs:297-297 | keeps exactly the matching records, in order |
| Queries.Query | crates/obsidianlog-store/src/engine.rs:258-298 | the loops together return the `QueryResult` the theorems above are about, for any reads |
| Queries.VerifyService | crates/obsidianlog-store/src/engine.rs:333-374 | returns 0 for an unknown service, `Missing` at the first chunk not found, another read error as it is, the chain break, `HeadMismatch`, or the length |
| Queries.VerifyAll | crates/obsidianlog-store/src/engine.rs:379-386 | one verdict per listed service in name order, each against the manifest its own call reads |
| Verdicts.VerifiedIffIntact | crates/obsidianlog-store/src/engine.rs:333-374 | a count is returned iff every recorded chunk can be read under the service asked for, they are numbered and linked from 32 zero bytes on, and the last one's hash is the recorded head; it is their number |
| Verdicts.FirstFailureIsReported | crates/obsidianlog-store/src/engine.rs:339-358 | the first chunk that cannot be read ends verification: not found, as `Missing` at its place in the manifest; otherwise with that error |
| Verdicts.BreakIsReported | crates/obsidianlog-store/src/engine.rs:360-360 | a break of the chain is passed on as it is |
| Verdicts.ReplacedChunkIsFound | crates/obsidianlog-store/src/engine.rs:360-371 | in a consistent archive, a chunk replaced by one of the same number and link and another hash is `HeadMismatch` if it is the last, else `Modified`, where it stands |
| Verdicts.VerifiedIsUnique | crates/obsidianlog-store/src/engine.rs:360-371 | two sets of reads that both verify against one entry have the same hashed bytes throughout, or break the digest |
| Engine.RegisterAllCovers | crates/obsidianlog-store/src/engine.rs:421-444 | registration gives every listed service an entry, leaves known ones as they are, and adds only fresh ones with new ids |
| Engine.RegisterAllNumbers | crates/obsidianlog-store/src/engine.rs:435-444 | new services get consecutive ids from the counter on, in sorted order |
| Engine.FirstRegistration | crates/obsidianlog-core/src/manifest.rs:82-92 | the manifest after the first service of an empty backend is registered: id 0, a zero head, sequence 0 |
| Engine.ServicesSorted | crates/obsidianlog-store/src/engine.rs:105-105 | the buckets' services, each once, in sorted order |
| Ordering.TextLtIsLexicographic | crates/obsidianlog-store/src/engine.rs:105-105 | names are ordered byte by byte: a prefix first, else by the first byte that differs |
| Engine.ArchiveEngine.AssignIds | crates/obsidianlog-store/src/engine.rs:421-445 | assigns ids in order; refuses only for a service without an entry under whose name chunks are listed, and succeeds only if there is none and no such name is rejected |
| Engine.ArchiveEngine.EnsureServiceIds | crates/obsidianlog-store/src/engine.rs:414-448 | on success the durable manifest covers every service and is the one returned; a service without an entry that is listed, or whose name is rejected, is an error with nothing written; and there is no other error but a failed call or too few ids |
| Engine.ArchiveEngine.BuildArchives | crates/obsidianlog-store/src/engine.rs:117-173 | the loop over mutable maps computes the build the chain theorems are about |
| Engine.ArchiveEngine.UploadAll | crates/obsidianlog-store/src/engine.rs:181-190 | in any order and with any failures the archive stays consistent and histories unchanged; without failure everything is stored, and every name was accepted; it fails only if a put did or a name is rejected |
| Engine.ArchiveEngine.Commit | crates/obsidianlog-store/src/engine.rs:195-211 | one write of the re-read manifest with this batch's services advanced; failed, it is the old or the new |
| Engine.ArchiveEngine.IngestBatch | crates/obsidianlog-store/src/engine.rs:93-213 | keeps the archive consistent whatever fails; acknowledged, each history has grown by exactly the batch's buckets; failed, by nothing or by all; it fails iff some call of the backend or a library failed, a new service's listing finds a nested one's chunks, a record's service name is rejected, or the ids run out; it writes the manifest once, and once before that if some service is new |
| Paths.FileNameInjective | crates/obsidianlog-store/src/backend/local.rs:118-137 | window and sequence can be read back from a file name, dashes in the window included |
| Paths.PathFormats | crates/obsidianlog-store/src/backend/local.rs:123-141 | the paths of a chunk, its index and the manifest, on both backends, spelled out |
| Paths.DecimalIsPlain | crates/obsidianlog-store/src/backend/local.rs:128-128 | sequence numbers are written in decimal without a leading zero |
| Paths.UnsafeNames | crates/obsidianlog-store/src/backend/local.rs:234-246 | the rejected names are "", ".", ".." and those with a slash or a backslash |
| Paths.LocalPathsInjective | crates/obsidianlog-store/src/backend/local.rs:123-141 | the joined paths of distinct references with safe names are distinct, and chunks, indexes and the manifest never share one |
| Paths.ObjectsCollideIffJoinedAlike | crates/obsidianlog-store/src/backend/sia.rs:171-180 | two references share an object path iff their sequences agree and service, slash and window join to the same text |
| Paths.ObjectPathInjective | crates/obsidianlog-store/src/backend/sia.rs:171-184 | with windows without a slash, as every label is, object paths are equal iff the references are, whatever the services are called |
| Paths.PrefixFindsNested | crates/obsidianlog-store/src/backend/sia.rs:324-336 | the listing prefix of a service matches exactly its own objects and those of services nested in it |
| KeyedStore.SortBySequence | crates/obsidianlog-store/src/backend/local.rs:219-219 | a rearrangement of the refs, by sequence |
| KeyedStore.SelectedIffCommonInstant | crates/obsidianlog-store/src/backend.rs:40-42 | without a range every index is listed; with one, those whose span shares an instant with it |
| Local.LocalBackend.PutArchive | crates/obsidianlog-store/src/backend/local.rs:169-180 | stores chunk and index in the keyed map; failed, nothing or the chunk alone; unsafe names are an error with no file touched; no other failure than a failed write |
| Local.LocalBackend.GetChunk | crates/obsidianlog-store/src/backend/local.rs:182-186 | returns the map's chunk, `NotFound`, or an error for unsafe names |
| Local.LocalBackend.GetIndex | crates/obsidianlog-store/src/backend/local.rs:188-197 | returns the map's index, `NotFound`, or an error for unsafe names |
| Local.LocalBackend.ListChunks | crates/obsidianlog-store/src/backend/local.rs:199-221 | lists each index of the service in range exactly once, by sequence, in whatever order the directory is read |
| Local.LocalBackend.ReadManifest | crates/obsidianlog-store/src/backend/local.rs:223-226 | returns the last manifest written, or `NotFound` |
| Local.LocalBackend.WriteManifest | crates/obsidianlog-store/src/backend/local.rs:228-231 | replaces the manifest, or leaves it when it fails, and nothing else; it fails only if the write does |
| Local.LocalBackend.UpdateManifest | crates/obsidianlog-store/src/backend/local.rs:143-164 | writes back the edit of the manifest now stored, or of a fresh one |
| Sia.SiaBackend.AllObjectEvents | crates/obsidianlog-store/src/backend/sia.rs:215-236 | whatever sizes the pages have, the cursor loop ends and returns every event once, in order |
| Sia.SiaBackend.FindObject | crates/obsidianlog-store/src/backend/sia.rs:238-259 | returns the last live object at the path |
| Sia.NewestIsLast | crates/obsidianlog-store/src/backend/sia.rs:238-259 | that is the last object listed there, deletions and unreadable metadata passed over |
| Sia.SiaBackend.PutObject | crates/obsidianlog-store/src/backend/sia.rs:186-200 | adds one newest object, or, failing, that or nothing; it fails only if the upload or the pinning does |
| Sia.SiaBackend.PutArchive | crates/obsidianlog-store/src/backend/sia.rs:286-299 | replaces the archive held at the path of the reference, for any service and window; failed, that or nothing |
| Sia.SiaBackend.GetChunk | crates/obsidianlog-store/src/backend/sia.rs:301-307 | newest-object lookup returns the chunk held at the path, or `NotFound`, for any service and window |
| Sia.SiaBackend.GetIndex | crates/obsidianlog-store/src/backend/sia.rs:309-322 | newest-object lookup returns the index held at the path, or `NotFound`, for any service and window |
| Sia.SiaBackend.ListChunks | crates/obsidianlog-store/src/backend/sia.rs:324-347 | by sequence, one entry per upload: only references whose path holds an archive under the service's prefix, and of the archives held there all that are in range |
| Sia.KeyedByReference | crates/obsidianlog-store/src/backend/sia.rs:171-184 | when windows are labels, the object at a reference's path is that reference's own archive, or there is none |
| Sia.PutIsKeyed | crates/obsidianlog-store/src/backend/sia.rs:286-299 | when windows are labels, a put replaces the map's entry for the reference and no other |
| Sia.ListingIsStored | crates/obsidianlog-store/src/backend/sia.rs:324-347 | when windows are labels, the listing of a service holds as a set only the map's references of the service and of those nested in it, and all of those in range |
| Sia.ReuploadIsListedAgain | crates/obsidianlog-store/src/backend/sia.rs:328-345 | each upload of a ref adds one more entry for it to the listing |
| Sia.SiaBackend.ReadManifest | crates/obsidianlog-store/src/backend/sia.rs:349-357 | returns the cached manifest, else the newest listed one, else `NotFound` |
| Sia.SiaBackend.WriteManifest | crates/obsidianlog-store/src/backend/sia.rs:359-369 | success is stored and served; a failure is stored or not, and changes what is served only if nothing was cached |
| CachedManifest.ServedIsReachable | crates/obsidianlog-store/src/backend/sia.rs:42-49 | in every history of a caching connection the served manifest and the archives are a reachable state of the plain protocol; and they are the stored ones unless the last write that landed was reported as failed |
| CachedManifest.StoredOkIffIntact | crates/obsidianlog-store/src/backend/sia.rs:42-49 | the stored manifest is consistent iff no upload since it landed changed a chunk or index it refers to, short of a hash collision |
| CachedManifest.ReconnectedIffIntact | crates/obsidianlog-store/src/backend/sia.rs:349-357 | a crash and a new connection lead back to a consistent archive iff it is so; always when the last write that landed was reported as done |
| StaleManifest.StaleCacheOverwrites | crates/obsidianlog-store/src/backend/sia.rs:349-369 | any two different records of one service and window give a history that ends with a stored manifest that is not intact: the first commit fails and lands, and the second batch is archived over the cached one |
| Connections.Follow | crates/obsidianlog-store/src/backend/sia.rs:42-49 | at every moment of any succession of connections, the same memory and manifests are reached by one whose archives were never overwritten; all that was acknowledged is in place there, and its chunks are the same here |
| Connections.AcknowledgedForGood | crates/obsidianlog-store/src/engine.rs:92-95 | through any succession of caching connections, stale and overwritten archives included, what any of them acknowledged is at any later moment in place in the served and in the newest stored manifest, and reads back in full |
| Connections.ServedQueryIsSnapshot | crates/obsidianlog-store/src/engine.rs:258-298 | in every connection of every such succession, a query interleaved with ingests returns what it would return run atomically when the manifest was served; with a window that reaches or without a `since`, the full scan of that moment if the connection found the archive consistent |
| Connections.ServedVerifyIsSnapshot | crates/obsidianlog-store/src/engine.rs:333-374 | and verification returns what it would return run atomically then, broken chains included |

## Left out

- HTTP server, CLI, rendering and the wrappers that serve, query and verify: I/O around the engine.
- `init`, configuration, keychain and environment keys: prompts and short branches.
- The insides of zstd, AES-GCM, HKDF, SHA-256, salt generation and JSON: taken as functions with round trips.
- Calendar arithmetic of date printing and parsing: a label is its hour number, printed and parsed back.
- Filesystem `fsync`, temporary files and renames, case-insensitive filesystems, OS advisory locks, Sia onboarding and network calls.
- The lag of the Sia indexer's listing: an object is listed once pinned.
- Safe names the file system refuses, by length or a NUL byte: `Protocol` treats them as rejected ones, but `Local` assumes every safe name can be opened.
- Lock fairness: which waiter gets a free lock is left open, so every order is covered, and no bound on one call's waiting is claimed.
- Overflow of 64-bit sequence numbers, window lengths of 2^63 s and more, and headers whose JSON reaches 2^32 bytes.
- Outside rollback of the manifest, except as the start of the `ManifestLoss` theorems.
- `service_chunks`, `AnyBackend` and `Display` of chain breaks: thin wrappers.
- Engine.ArchiveEngine.IngestBatch: runs alone, so locks and the limit of eight uploads at once appear only in `Protocol`.
- CachedManifest.StoredOkIffIntact: states that a chunk replaced by another of the same hash may go unseen; the digest is not assumed injective.
- Sia.SiaBackend.ListChunks: with a range it may also list a ref whose earlier upload was in range though its latest is not.
- Windows.PruningSoundIffWholeHours: one direction needs the first two windows after 1970 to be dates, as does `QueryExact.QueryExactIffWholeHours`; `Pruning.PruningSoundIffReaches` and `QueryExact.QueryExactIffReaches` need the first 3600.
