# Sillage: a verified model

Sillage records three slot-numbered message streams (transactions, accounts,
block metadata) into chunk files, uploads the chunks, downloads them on readers
and replays them to subscribers through filters. This project models that
pipeline and proves what it is for: **what arrives at a recorder in slot order
is what a subscriber is sent later, in order, each matching message once**
(`Faithful.RecordThenReplay`), but for messages that come for a range after a
tick has found it idle. The recorder seals such a range and refuses what comes
later; when none does, nothing is lost, and otherwise something is
(`Idle.RisingLosesExactly`).

A subscriber who follows one stream while it is recorded, through the bucket and
a cache that syncs with it, is never sent anything twice or out of order, and is
sent all that is listed and matches exactly if no chunk is first listed after a
higher one (`Pipeline.FollowsThroughSync`); a single failed download can cost it
a chunk for good (`Missed.LateChunkIsMissed`). Beside these stands what every
component keeps on the way.

## Layout

- Shared: `Core` (options, results, ascending sets), `Arith` (division facts),
  `Shuffle` (interleavings and subsequences),
  `Updates` (messages, sidecars, receipt timestamps), `Codecs` (the foreign
  encodings as an arbitrary lawful codec), `Instance` (one that is lawful).
- Recorder: `Frames` (length-prefixed payload), `IndexBuild` (the index
  writer), `Recorder` (state machine over runs), `Conservation` (what runs
  keep and lose), `Idle` (what idle seals cost), `Seals` (why a chunk is sealed),
  `Chunker` (the chunker objects, refining the state machine), `Recovery`
  (starting again over what is on disk).
- Index and filters: `IndexRead`, `Filters`.
- Caches: `LruCache` (one generic byte-budgeted cache, standing for both the
  chunk cache and the index cache), `CacheThreads` (interleaved callers).
- Replay: `Merge` (three-way merge as a function), `Cursor`, `Pacing`, `Drive`
  (sending, with every exit), `Causes` (why a pass ended), `Replay` (the live
  merge loop), `Plan` (catalog and `plan_replay`), `Coverage` (plans cover the
  catalog), `Growth` (catalogs that list parts of one archive), `Follow` and
  `FollowLoop` (resuming over them), `Ending` (how a connection ends and what it
  reports).
- End to end: `Archive` (the directory a stopped recorder leaves), `Fidelity`
  (any run), `Stamps` (what is said of a message), `Faithful` (arrivals in slot
  order), `Live` (what recorders have sealed so far), `Tailing` (a follower of one
  stream while it is recorded), `Pipeline` (the same through bucket and cache),
  `Objects` (the bucket's objects, from the uploader to the cache). Concrete
  recordings all the way: `Witness` (one message, two out of order, 2^32 of them),
  `Three` (three chunks), `Missed` (one of them comes late), `Smooth` (none does).
- Files: `Lifecycle` (seal, upload, evict, crash and recover, one micro-step
  per file operation), `FileOps` (those operations in place), `Sync` (the
  reader's download and sweep cycle).

Code that updates state in place is a class or a loop proved equal to a
function of the old state; the theorems are about those functions. Everything
the world decides (sends, timeouts, shutdown, clocks, crashes, failing PUTs,
downloads and unlinks, catalog snapshots, thread schedules) is an arbitrary
input, so the theorems hold for every such choice.

Foreign encodings are a `Codec` value: message, bitmap and header encoders with
decoders that invert them, an enumeration order for ordered maps, and a partial
base58 decoder. `Instance.TreeCodecIsLawful` shows that there is one. The SIDX
magic, version, offsets and lengths are the real ones.

## Results that are exact

Where a promise holds only sometimes, the condition is proved in both
directions.

- A recorder loses no timely message, but for those after an idle seal, exactly
  when its tolerance is zero, or at most one chunk with room for two open chunks
  (`ConservationExactly`).
- In slot order, under every configuration, all messages are kept exactly when
  none comes for a range after a tick more than 300 seconds past the last message
  there (`RisingLosesExactly`); ticks that seal nothing cost nothing. Slot 10, a
  longer pause with its tick, and slot 11 is lost (`PauseLosesTheNext`).
- The open cap never seals a chunk exactly when it is at least three
  (`CapExactly`).
- Index and scan agree for all filters exactly when a chunk holds fewer than
  2^32 messages, because ordinals are cast to `u32` (`IndexAgreesExactly`); a
  chunk of 2^32 messages that can be written and parsed is `TooManyMessages`.
- An index without a flag dimension answers transaction filters like a scan exactly
  when no message carries the flag (`MissingFlagAgreesExactly`).
- Frames decode to what was encoded exactly when every payload is shorter than
  2^32 bytes (`FramesRoundTrip`).
- A pass, paced or not, sends all it has exactly when no message meets a
  shutdown, a subscriber gone, a send timeout or a lag at the drop limit, the
  lag measured against the message's own due time (`GetsThroughExactly`); a
  follower goes on exactly as long as its turns do (`FollowerDrainsExactly`).
- A pass ends in each way, and the subscriber is told each thing, exactly for its
  own reason, read off what the world did to the first message not sent in time
  (`EndsExactly`, `DriveReplay`). A connection idles out exactly at the first
  quiet turn a whole idle timeout after the last one that sent something
  (`ConnectionEnds`).
- A start is refused exactly when it is below the oldest slot held for the streams
  asked for (`PlanAnswers`).
- A step of the recorder seals a range, with the reason its sidecar gives, exactly
  when that reason holds (`SealsExactly`).
- A message is late enough to warn about exactly when its lag is between the two
  thresholds and ten seconds have passed since the last warning (`WarnsExactly`).
- Over catalogs that list chunks of one archive, which may appear in any order
  and may be swept again, the passes of a follower deliver a subsequence of what
  one replay of everything listed would, and all of it exactly if no newly
  listed chunk holds a wanted message at or below one that was on offer before,
  a condition on the catalogs alone (`FollowRefinesExactly`). For one stream in
  slot order: exactly if no chunk with anything wanted is first listed after a
  higher one (`FollowsLiveRecorder`). It is met by a reader on the recorder's own
  directory (`FollowsInStep`, `SealedChunksArrive`), and when chunks reach the
  bucket in slot order and no download or unlink fails (`SmoothSyncHasNoGap`,
  `SteadyChunksArrive`). It is missed when the download of one chunk fails once:
  the follower sends 10 and 42, and never 26 (`LateChunkIsMissed`).
- Over a catalog that stays as it is, a follower sends nothing more after its
  first pass exactly when what the catalog offers ends on its highest slot
  (`ResendsExactly`); a chunk recorded out of slot order is delivered 10, 5, 10
  (`StragglerIsSentTwice`).
- A crash of a recorder with a chunk open strands the range forever exactly when
  it falls between publishing the payload and publishing the sidecar
  (`CrashStrandsExactly`, `StrandedForever`).
- After a restart that resumes at the reported slot, what a fresh recorder would
  keep of messages in slot order is recorded exactly when none is for a stranded
  range (`ResumeKeepsExactly`).
- Durability holds in every run that reopens no evicted range
  (`DurableThroughout`). From any state such a run reaches, opening a free range
  keeps it in every further run without another reopening exactly when the range
  was not evicted before (`ReopeningExactly`).
- The reader's download and eviction windows agree for a configured retention
  exactly when every remote chunk in the remote window is also within retention
  of the newest local end (`SettlesExactly`), and for every retention exactly
  when nothing local is newer than everything remote (`SettlesForAllExactly`).

## Where the code and its documentation differ

The model follows the code.

- `docs/format.md` lines 67 and 72 call `first_message_slot` and
  `recv_ns_first` those of the first message; the code keeps the minimum
  (`Chunker.BoundsAreExact`).
- `docs/format.md` lines 141-142 ask a reader to fall back to scanning for a
  dimension the index lacks; the code reads it as the empty set, for every
  dimension (`Filters.MissingDimensionReadsAsEmpty`).
- The comment on the reader's sweep (`sillage-reader/src/sync.rs:257-264`) says
  that sweep and diff can never disagree; they can when a local chunk is newer
  than every remote one (`Sync.UnsettledAtZero`).
- An idle seal is recorded with the reason `shutdown`
  (`sillage-writer/src/chunker.rs:113-115`).
- `sent` misses the last delivered message when a lag drop ends a pass
  (`sillage-reader/src/replay.rs:319-355`, `Drive.EveryExitAccounts`).

## Model

| member | source | states |
|---|---|---|
| Frames.FrameBuffer.WriteLenPrefixed | sillage-common/src/chunk.rs:44-48 | appends one frame, so a buffer of the frames of some payloads becomes that of the payloads and this one |
| Frames.FrameIter.Next | sillage-common/src/chunk.rs:68-90 | yields the parsed frames one by one, then the one error if there is one, then nothing forever |
| Frames.FramesRoundTrip | sillage-common/src/chunk.rs:44-90 | decoding inverts encoding exactly when every payload is shorter than 2^32 bytes |
| Frames.ParseSplits | sillage-common/src/chunk.rs:68-90 | any buffer is the encoding of the frames read from it plus a malformed tail: empty exactly when there was no error, of one to three bytes exactly for a truncated prefix, else with fewer bytes left than its little-endian prefix declares, as the error says |
| Frames.LongestValidPrefix | sillage-common/src/chunk.rs:68-90 | no longer list of frames starts the buffer than the one read |
| Frames.DecodeChunk | sillage-reader/src/storage.rs:272-316 | succeeds exactly when parsing has no error, and then its byte ranges slice out exactly the payloads |
| Frames.DecodeSlices | sillage-reader/src/storage.rs:281-316 | every ordinal's range is inside the buffer and holds that payload |
| Updates.InterpolateExact | sillage-reader/src/replay.rs:151-159 | for first not after last and an ordinal of the chunk, nothing wraps, the stamp is the exact quotient and stays between the two receipts |
| Updates.InterpolateMonotoneOntoEnds | sillage-reader/src/replay.rs:151-159 | stamps never run backwards, start at the first receipt and end at the last exactly when there is more than one message or the two are equal |
| Updates.StampIsRight | sillage-reader/src/replay.rs:141-160 | a message with a time from the epoch on is stamped with it in nanoseconds whatever the sidecar; any other has no stamp exactly if the sidecar has no first receipt, the first receipt if there is no last, else the exact share of the span its place in the chunk gives it |
| Updates.StampsKeepOrder | sillage-reader/src/replay.rs:146-149 | such stamps are ordered as the times are by seconds, then nanoseconds, and a second later is 10^9 later |
| IndexBuild.IndexBuilder.ForStream | sillage-writer/src/index.rs:20-67 | a new builder has exactly its stream's dimensions, all empty |
| IndexBuild.IndexBuilder.Insert | sillage-writer/src/index.rs:73-79 | files one ordinal under one value and touches nothing else |
| IndexBuild.IndexBuilder.Observe | sillage-writer/src/index.rs:81-175 | files a message under exactly the pairs it is about: flags, signature, static and loaded keys, resolved programs, account, owner, slots, ill-sized keys skipped |
| IndexBuild.FactsAreAbout | sillage-writer/src/index.rs:81-175 | the pairs a message is filed under, each dimension spelled out: signature, flags, every static and loaded key, the programs its top-level instructions address in static, writable, read-only order, account, owner, slot, parent slot; each in a dimension of its stream and of that dimension's type |
| IndexBuild.BuiltBitsAreScan | sillage-writer/src/index.rs:81-175 | over any message list, the bitmap of a pair is exactly the ordinals of the messages that are about it |
| IndexBuild.IndexBuilder.Serialize | sillage-writer/src/index.rs:177-231 | the bytes are the SIDX file of the builder's bitmaps, dimension by dimension with running offsets |
| IndexRead.ParseChunkIndex | sillage-reader/src/index.rs:28-88 | refuses a file for the first thing wrong with it (fewer than nine bytes, other magic bytes, a version other than 1, a header past the end, an undecodable header), else keeps its header and finds for each pair the entry the header lists last |
| IndexRead.ParseIsRight | sillage-reader/src/index.rs:32-80 | the same of the specification: each error exactly when it applies, with the little-endian header length, and the lookup table exactly the last entries |
| IndexRead.IndexRoundTrip | sillage-reader/src/index.rs:28-140 | parsing a serialized index gives back the stream, slots, message count and dimensions with their types, and answers every lookup as the builder would: a filed pair gives its bitmap, any other gives none |
| Filters.FilterTx | sillage-reader/src/filter.rs:43-123 | the loop with its early exits computes the conjunction of all clauses of a transaction filter |
| Filters.FilterAcct | sillage-reader/src/filter.rs:135-176 | the same for account filters |
| Filters.FilterBlock | sillage-reader/src/filter.rs:179-181 | block filters select every message |
| Filters.MatchIsAsked | sillage-reader/src/filter.rs:13-181 | matching a filter means: flags as wanted; the signature if its base58 form is of 64 bytes; some account of the include list unless no entry is the base58 form of 32 bytes; every required one; no excluded one |
| Filters.SelectedIsScanned | sillage-reader/src/filter.rs:43-181 | the ordinals read off the index are exactly those whose message is what the filter asks for |
| Filters.IndexAgreesExactly | sillage-reader/src/filter.rs:13-181 | over any written chunk that agreement holds for all filters exactly when the message count fits a `u32` |
| Filters.MissingFlagReadsAsUnset | sillage-reader/src/filter.rs:46-57 | a missing vote or failed dimension selects nothing for a filter that wants the flag set and drops the clause for one that wants it unset; nothing is scanned |
| Filters.MissingDimensionReadsAsEmpty | sillage-reader/src/filter.rs:43-181 | with any one dimension missing from a written chunk's index, every lookup in it is empty, and every filter still answers as a scan when no message has a fact under it |
| Filters.MissingFlagAgreesExactly | sillage-reader/src/filter.rs:46-57 | without a flag dimension, all transaction filters answer as scans if and only if no message carries that flag |
| Witness.TooManyMessages | sillage-reader/src/filter.rs:13-181 | 2^32 messages whose index is written and parsed under a concrete codec, and some filter selects other messages than a scan |
| LruCache.TrimIsLongestFit | sillage-reader/src/storage.rs:451-476 | what eviction keeps is the longest recent suffix that fits the budget, or the newest key alone |
| LruCache.EvictAllTrims | sillage-reader/src/storage.rs:456-476 | evicting smallest ticks until under budget leaves that suffix with exact byte accounting |
| LruCache.TouchMovesLast | sillage-reader/src/storage.rs:413-427 | a touched key becomes the most recent, and the others keep their order |
| LruCache.Cache.Lookup | sillage-reader/src/storage.rs:413-427 | a hit moves its key behind all others, which keep their order, and changes no entry; a miss changes nothing |
| LruCache.Cache.InsertOrHit | sillage-reader/src/storage.rs:435-480 | after loading, a key somebody else inserted is only touched; a new one is added, the kept keys are the longest fit, and it is never its own victim |
| LruCache.Cache.GetOrLoad | sillage-reader/src/index.rs:219-298 | whatever is cached, the caller gets what loading its key's file gives; the file is read only on a miss, a hit only refreshes recency, and after a miss the order and the surviving entries are those of eviction to the budget |
| CacheThreads.CacheIsTransparent | sillage-reader/src/storage.rs:408-476 | under every interleaving of callers every call returns the load of its key's file, keys are resident once, ticks are distinct and bytes are counted once |
| Recorder.RunKeepsNear | sillage-writer/src/chunker.rs:65-143 | in every run at most two chunks are open, the watermark's and its predecessor; no open range is on disk, and no sealed chunk ever changes |
| Recorder.AtMostTwoOpen | sillage-writer/src/chunker.rs:65-103 | neighbours of the watermark are at most two chunks |
| Seals.SealsExactly | sillage-writer/src/chunker.rs:65-125 | one step seals a range with a reason exactly when there is that reason: the lowest open ranges for the cap when a timely message opens another, ranges two or more behind the highest slot for the watermark, and with the reason shutdown the ranges idle for more than 300 seconds at a tick and all at a stop |
| Conservation.ChunksHoldAccepted | sillage-writer/src/chunker.rs:65-143 | in every run, with ticks and shutdowns, each chunk holds exactly the accepted messages of its range in arrival order |
| Conservation.AbsorbedIsKept | sillage-writer/src/chunker.rs:65-103 | whatever the ticks, when the reordering present is one the configuration absorbs, each chunk holds exactly the timely messages of its range that came before a tick found it idle |
| Conservation.ConservationExactly | sillage-writer/src/chunker.rs:65-103 | over all runs of messages and ticks, a configuration keeps every timely message that does not follow an idle tick of its range if and only if tolerance is 0, or at most a chunk with a cap of at least two |
| Conservation.CapExactly | sillage-writer/src/chunker.rs:78-86 | no run ever seals with the reason cap-reached if and only if the cap is at least three |
| Conservation.RisingIsKept | sillage-writer/src/chunker.rs:65-103 | with arrivals in slot order and ticks whenever, under every configuration, each chunk holds exactly the arrivals of its range that came before a tick found it idle |
| Idle.RisingLosesExactly | sillage-writer/src/chunker.rs:65-117 | in slot order, with ticks whenever and under every configuration, every arrival is in its chunk if and only if no arrival for a range follows a tick more than the idle threshold past the arrival before it there |
| Idle.HeardAllExactly | sillage-writer/src/chunker.rs:65-117 | what is kept is, message by message, what arrived, under the same condition |
| Idle.PauseLosesTheNext | sillage-writer/src/lane.rs:84-103 | a message, a pause beyond the threshold with its tick, and the next message of the range, in slot order, is lost, under every configuration |
| Chunker.OpenChunk.Append | sillage-writer/src/chunker.rs:275-298 | the encoder, counters, bounds and index go on describing exactly the messages written |
| Chunker.OpenChunk.Finish | sillage-writer/src/chunker.rs:206-258 | the three files are the payload, index and sidecar of exactly those messages, and every field of the sidecar says what it should |
| Chunker.SidecarDescribes | sillage-writer/src/chunker.rs:213-227 | schema 1, the stream and range, the count, the payload's length, the reason given, the stream's dimensions, and the least and greatest slot and receipt over all messages |
| Chunker.BoundsAreExact | sillage-writer/src/chunker.rs:286-295 | the two slots and two receipts a chunk keeps while it grows bound every message and each is that of some message, whatever the arrival order |
| Chunker.StampIsBetweenReceipts | sillage-reader/src/replay.rs:151-159 | a message without a time, replayed from a recorded chunk, is stamped between two receipts of that chunk |
| Chunker.Chunker.SealChunk | sillage-writer/src/chunker.rs:181-271 | one open chunk becomes its files; nothing else changes |
| Chunker.Chunker.OpenChunkAt | sillage-writer/src/chunker.rs:127-179 | opens a range unless its payload or sidecar is already there |
| Chunker.Chunker.MakeRoom | sillage-writer/src/chunker.rs:78-86 | seals oldest chunks until there is room, as the state machine does |
| Chunker.Chunker.Ingest | sillage-writer/src/chunker.rs:65-103 | the live object refines one `Arrive` step: watermark, drop, room, open, append, overdue seals |
| Chunker.Chunker.Tick | sillage-writer/src/chunker.rs:105-117 | refines one `TickAt` step: exactly the idle chunks are sealed |
| Chunker.Chunker.Stop | sillage-writer/src/chunker.rs:119-125 | refines `ShutDown`: nothing stays open |
| Recovery.LatestSealedEnd | sillage-writer/src/recovery.rs:92-119 | over whatever start and end slots the sealed names carry, the highest end, none exactly when there is no sealed chunk |
| Recovery.ResumeIsPastSealed | sillage-writer/src/recovery.rs:92-119 | no slot from the resume slot on lies in any sealed range, whatever chunk size the ranges were written with |
| Recovery.OverRun | sillage-writer/src/chunker.rs:65-143 | with arrivals for free ranges only, ticks and stops included, a run over old chunks is a fresh run beside them |
| Recovery.ResumeKeepsExactly | sillage-writer/src/chunker.rs:127-143 | resumed at the slot reported for the chunks listed, with messages in slot order and ticks, exactly what a fresh recorder would keep is recorded if and only if no message is for a range whose payload a crash stranded |
| Merge.MergeInterleaves | sillage-reader/src/replay.rs:220-258 | what the merge takes of a lane is a prefix of it, and all of it when the merge runs dry |
| Merge.MergeSorts | sillage-reader/src/replay.rs:220-258 | slot-sorted lanes merge into a sequence sorted by slot, ties by stream index |
| Merge.FloorCommutes | sillage-reader/src/replay.rs:185-258 | dropping low slots while merging is merging the lanes without them, sorted or not |
| Merge.ResumeCompletes | sillage-reader/src/replay.rs:185-258 | for lanes that gain only steps above the last slot sent, in any order, replaying from a start and then resuming above that slot is one replay of the longer lanes |
| Cursor.StreamCursor.Peek | sillage-reader/src/replay.rs:65-129 | gives the next step of the sequence the cursor stands for without consuming it: the message's own slot and time, else a stamp from its chunk's sidecar; an error consumes its step; every chunk it reads, kept or not, is one some filter wants |
| Cursor.StreamCursor.TakePeeked | sillage-reader/src/replay.rs:131-133 | consumes exactly the peeked message |
| Cursor.StreamCursor.constructor | sillage-reader/src/replay.rs:55-63 | stands for the concatenation over its plans of the wanted ordinals in ascending order |
| Pacing.TargetsTrackSource | sillage-reader/src/pacing.rs:37-56 | due times are monotone in source time and off the exact scaled time by less than a nanosecond |
| Pacing.AnchorSticks | sillage-reader/src/pacing.rs:37-56 | once set, the anchor survives every later call of the connection |
| Pacing.WarningsAreSpaced | sillage-reader/src/pacing.rs:63-85 | with a clock that never runs backwards, warnings are more than ten seconds apart |
| Pacing.WarnsExactly | sillage-reader/src/pacing.rs:63-85 | with such a clock a connection's pacer warns about a message exactly when its lag is at or above the warning threshold and below the drop limit and no warning was given in the ten seconds before |
| Pacing.Pacer.Target | sillage-reader/src/pacing.rs:37-56 | disabled or unstamped is due now; the first stamp anchors; later ones are scaled from it |
| Pacing.Pacer.ObserveEmit | sillage-reader/src/pacing.rs:63-85 | the verdict on the lag after a send and the rate limit on warnings |
| Drive.EveryExitAccounts | sillage-reader/src/replay.rs:262-367 | on every exit what was delivered is a prefix of what was offered, bytes and last slot describe exactly it, and `sent` is its length except one less on a lag drop |
| Drive.GetsThroughExactly | sillage-reader/src/replay.rs:262-367 | for every world and pacing, a pass sends everything it has if and only if each message is undisturbed: no shutdown or failed send at it, and its lag behind its own due time below the drop limit |
| Causes.EndsExactly | sillage-reader/src/replay.rs:262-367 | a pass ends in each of the six ways exactly for its reason, read off the world: all in time with or without a failed decode at the end, or the first message not in time met a shutdown, a send that timed out, a closed subscriber, or a send that went through with its lag past its own due time at the limit |
| Causes.StopsAtFirst | sillage-reader/src/replay.rs:262-355 | exactly the messages before the first disturbed one are delivered, and that one too if it only came too late |
| Causes.PeakIsReported | sillage-reader/src/replay.rs:337-355 | the lag reported is the worst one warned about among the messages that got through in time |
| Replay.PeekBest | sillage-reader/src/replay.rs:220-243 | the scan over the three cursors finds the least head by slot, then stream, or the first error |
| Replay.SendOne | sillage-reader/src/replay.rs:262-355 | one wait and send: the subscriber is told of a timeout exactly if the send timed out unless cancelled, and of falling behind exactly if it went through with its lag at the limit |
| Replay.DriveReplay | sillage-reader/src/replay.rs:178-368 | the live loop over three lazy cursors, a cache, a pacer and a channel delivers, counts and ends exactly as merging and sending the plan's sequences; the subscriber is told of a decoding error, a timeout or falling behind exactly when that is what ended the pass, and of nothing otherwise; bytes, last slot, worst lag and the drained flag describe what was delivered |
| Plan.ResolveNamed | sillage-reader/src/replay.rs:446-472 | every named filter's ordinals, and their union |
| Plan.PlanReplay | sillage-reader/src/replay.rs:402-490 | refuses a start exactly if it is below the oldest slot held for the streams asked for, and plans nothing exactly if none is held; otherwise starts where asked or at the oldest slot, with exactly the overlapping chunks of each stream asked for, in order; a bad index fails it |
| Plan.PlanAnswers | sillage-reader/src/replay.rs:402-440 | the same of the specification, for every catalog, subscription and requested slot |
| Coverage.NamesAtExactly | sillage-reader/src/replay.rs:113-122 | a planned ordinal carries exactly the names of the filters whose bitmap has it |
| Coverage.NamesAreAsked | sillage-reader/src/replay.rs:113-122 | a message of a stream goes with exactly the names of the subscription's filters for that stream that ask for it |
| Coverage.UnionIsNamed | sillage-reader/src/replay.rs:446-481 | an ordinal is planned exactly when it names at least one filter |
| Coverage.ChunkIsScanned | sillage-reader/src/replay.rs:65-133 | a planned chunk yields exactly the steps a scan of its messages would |
| Coverage.EndExcludesNothing | sillage-reader/src/storage.rs:232-238 | the newest end slot is above every chunk's start, so it excludes no chunk |
| Coverage.KeysTellApart | sillage-reader/src/replay.rs:440-446 | no two chunks of a recorded catalog share a cache key |
| Coverage.PlanIsComplete | sillage-reader/src/replay.rs:402-490 | over recorded catalogs planning succeeds exactly when something is held for a stream asked for and the start is not below the oldest of it, and the plan offers exactly the wanted messages held from that slot on |
| Archive.SealedRecords | sillage-writer/src/chunker.rs:181-271 | the reader's entry of a sealed chunk decodes, parses and bounds exactly its messages, and its sidecar and index header say whose they are, of which range and how many |
| Archive.DiskHoldsAccepted | sillage-writer/src/chunker.rs:65-143 | after shutdown the disk holds each range's accepted messages; a range without a chunk accepted none |
| Archive.StoppedIsRecorded | sillage-reader/src/storage.rs:84-200 | a stopped recorder leaves a catalog every chunk of which records what its range accepted |
| Fidelity.OpenReplayDeliversAll | sillage-reader/src/replay.rs:178-490 | over any recorded catalog a replay without a start slot offers the whole merge, of each stream exactly what its filters match among everything held |
| Fidelity.ReplayDelivers | sillage-reader/src/replay.rs:178-490 | over any recorded catalog, any start and any world: what is sent is a prefix of what the catalog offers from the start, all of it exactly when the pass drains, which is exactly when it is undisturbed; decoding never fails |
| Fidelity.RecordedIsReplayed | sillage-writer/src/chunker.rs:65-125 | after any runs of the recorders, from any available start, in any world: what is on offer is, of each stream, exactly the matching messages among those accepted from the start on, each once, with the names of the filters they match; a prefix of it is sent, and all of it exactly when undisturbed |
| Fidelity.PlannableExactly | sillage-reader/src/replay.rs:411-440 | that replay can be planned exactly when a subscribed stream has a chunk, and fails only with no chunks available |
| Stamps.OfferedTellsTheTruth | sillage-reader/src/replay.rs:106-160 | everything on offer from what recorders left carries its own slot, its own time, or without one a stamp between two receipts of its stream, and exactly the names of the filters that ask for it |
| Faithful.RecordThenReplay | sillage-writer/src/chunker.rs:65-125 | arrivals in slot order and ticks, under any configuration, replayed from any available start in any world: what is on offer is of each stream exactly the matching messages kept from the start on, in arrival order, each once, all sorted by slot and stream, with their own slots, times and names; they are all that arrived if and only if none follows an idle tick of its range; a prefix is sent, and all of it exactly when undisturbed |
| Faithful.OneStreamInOrder | sillage-reader/src/replay.rs:178-368 | with one stream subscribed, the messages sent are, one after the other, the first of the matching messages kept in arrival order, and all of them when the pass drains |
| Faithful.ReplayableExactly | sillage-reader/src/replay.rs:411-440 | and the replay can be had exactly when a subscribed stream saw a message |
| Follow.FollowRefinesExactly | sillage-reader/src/customer.rs:397-457 | over catalogs that list parts of one recorded archive, gaining and losing chunks anywhere, the drained passes together delivered a subsequence of one replay of everything listed so far, and all of it if and only if no newly listed chunk held a wanted message at or below one on offer before |
| Growth.GrownLanes | sillage-reader/src/storage.rs:84-200 | a catalog with more chunks, wherever they lie, interleaves each stream's wanted sequence with what is wanted of the new chunks |
| Growth.ResumedDelivery | sillage-reader/src/customer.rs:402-424 | whatever chunks are added: what was on offer and what a resumption above it finds are, in order and without repetition, part of what is on offer now, and all of it if and only if nothing wanted and new is at or below that slot |
| Live.LiveGrows | sillage-writer/src/chunker.rs:65-125 | as recorders in slot order go on, with ticks at times that never run backwards, what they have sealed stays as it is and new chunks start above the old ones |
| Live.LiveIsPartial | sillage-writer/src/chunker.rs:65-143 | in every run, whatever a recorder has sealed so far is, unchanged, part of what it leaves in the end |
| Tailing.FollowsLiveRecorder | sillage-reader/src/customer.rs:397-457 | whatever way sealed chunks take to the reader's catalogs, a follower of one stream is sent nothing twice and nothing out of arrival order, and has after every drained turn been sent all matching messages kept in the chunks listed by then if and only if no chunk with anything wanted was first listed after a higher one |
| Tailing.HeldIsArrivedIn | sillage-writer/src/chunker.rs:65-125 | whichever of a stream's chunks a catalog lists, they hold exactly the messages kept for their ranges, in arrival order |
| Pipeline.FollowsInStep | sillage-reader/src/customer.rs:397-457 | a reader of the recorder's own directory has no gap: its follower was sent all matching messages of what is sealed, the first part of what is kept, and all of it once the recorder stopped; that is all that arrived if and only if no message follows an idle tick of its range |
| Pipeline.ServedIsSealed | sillage-reader/src/sync.rs:345-441 | while the bucket only ever held chunks sealed by then, whatever failed, only such chunks are served |
| Pipeline.SmoothSyncHasNoGap | sillage-reader/src/sync.rs:345-441 | when chunks reach the bucket in slot order and nothing fails, no chunk is listed after a higher one, whatever retention sweeps, for followers that look after the first cycle or start from an empty cache |
| Pipeline.FollowsThroughSync | sillage-reader/src/sync.rs:345-441 | from the recorder through bucket and cache to the subscriber, from the startup scan on, with any failures of downloads and unlinks: the same subsequence and the same if and only if, and everything that matches when nothing fails |
| Objects.FetchedIsSealed | sillage-reader/src/r2.rs:66-175 | whenever an object of a chunk is fetched once all three are listed, it is of the one generation the chunk was ever sealed in |
| Objects.BucketGrows | sillage-reader/src/r2.rs:66-175 | as chunks live on, whatever fails and crashes, listings only gain chunks |
| Objects.ServedAsSealed | sillage-reader/src/sync.rs:177-212 | from disk through bucket to cache, with any crashes, lost PUTs and failed downloads and fetches at any moment after the listing: the entry a scan makes of a whole trio in the cache is the archive's entry of the chunk as it was sealed |
| Smooth.SteadyChunksArrive | sillage-reader/src/sync.rs:345-441 | slots 10, 26 and 42 with a tick in between, two chunks in the bucket in one cycle and the third in the next, nothing fails: all three are sent |
| Smooth.SealedChunksArrive | sillage-reader/src/customer.rs:397-457 | the same from the recorder's own directory, before and after its stop |
| Missed.LateChunkIsMissed | sillage-reader/src/sync.rs:390-441 | slots 10, 26 and 42 in three chunks, the second one's payload lost in one cycle and fetched in the next: the follower sends 10 and 42, one replay of its last catalog 10, 26 and 42 |
| Follow.FollowedToTheEnd | sillage-reader/src/customer.rs:377-475 | a connection followed until it idles has delivered exactly one replay of everything listed up to its last turn if and only if nothing came late; when chunks stay listed that is one replay of its last catalog |
| Follow.FollowTerminates | sillage-reader/src/customer.rs:402-457 | over a catalog that stays as it is, sorted or not, at most as many passes send anything as there are slots from the start on |
| Follow.ResendsExactly | sillage-reader/src/replay.rs:321-321 | over a recorded catalog that stays as it is, after any two or more passes the follower has been sent what the catalog offers, once, if and only if that ends on its highest slot |
| Witness.StragglerIsSentTwice | sillage-reader/src/replay.rs:321-321 | a recorder fed slots 10 then 5 leaves one chunk, and a follower of it is sent 10, 5 and 10 again |
| Follow.FollowerDrainsExactly | sillage-reader/src/customer.rs:397-457 | over a recorded catalog that stays as it is every turn can plan where it resumes, and all turns drain if and only if each is undisturbed |
| Ending.ConnectionEnds | sillage-reader/src/customer.rs:397-475 | on the clock readings of the turns: a connection goes on as long as each turn drains and sent something, or was quiet for less than the idle timeout since the last turn that did, or since the start, and slept unstopped; it idles out, is stopped, cannot plan or ends with its pass exactly when its last turn says so |
| Ending.ReportsAll | sillage-reader/src/customer.rs:438-456 | bytes, last slot and worst lag reported are those of all passes together, `sent` counts all messages delivered but one that came too late, and `drained` holds exactly for a stop or an idle end |
| Ending.PacingGoesOn | sillage-reader/src/customer.rs:383-385 | each pass is paced from the anchor and the last warning the one before left |
| FollowLoop.FollowReplay | sillage-reader/src/customer.rs:377-475 | the live loop delivers, tells and returns exactly what the turn-by-turn specification says; it ends at the first turn not to go on, for its reason; the subscriber is told that nothing can be planned, or why a pass broke off, and nothing when it idles out, is stopped or gone; the counters are those of all passes |
| FollowLoop.Settle | sillage-reader/src/customer.rs:430-474 | after a pass: totals added up; a pass that sent something pushes the deadline on; a quiet one ends the connection exactly if the clock is at the deadline, else exactly if it is stopped in its sleep |
| Lifecycle.DurableThroughout | sillage-writer/src/uploader.rs:240-359 | in every run without reopening, at every step: a sealed chunk is whole locally or remotely, a marker or a remote sidecar means a whole remote trio, a remote index means a remote payload, a local sidecar means a whole local trio until eviction |
| Lifecycle.ReopeningLosesData | sillage-writer/src/uploader.rs:303-359 | one whole run: reopening a range over the marker of an interrupted sweep deletes a chunk never uploaded |
| Lifecycle.ReopeningExactly | sillage-writer/src/uploader.rs:240-359 | from every state of every run without reopening: opening the free range leaves it durable in every further run without another reopening if and only if it was not evicted before |
| Lifecycle.StrandedForever | sillage-writer/src/chunker.rs:137-155 | a payload without a sidecar is never listed, uploaded, evicted or reopened by anything that can happen |
| Lifecycle.CrashStrandsExactly | sillage-writer/src/chunker.rs:206-266 | after any run, a crash of a recorder with a chunk open strands the range exactly between publishing payload and sidecar, and otherwise it can be opened again after the restart |
| Lifecycle.DownUntilRestart | sillage-writer/src/recovery.rs:54-87 | from a crash to the restart nothing is recorded, uploaded or evicted: files and objects stay as they are but for half-written files that recovery removes |
| FileOps.Files.SealRange | sillage-writer/src/chunker.rs:206-266 | the writes and renames of a seal end with the whole trio of this generation and no half-written file, whatever an earlier generation left |
| FileOps.Files.UploadChunk | sillage-writer/src/uploader.rs:240-266 | three PUTs, sidecar last, then the marker, is a run of lifecycle steps; it succeeds, and leaves a marker, exactly if all three files are there and their PUTs succeed; each object changes exactly if the PUTs before it succeeded and its own arrived |
| FileOps.Files.SweepRange | sillage-writer/src/uploader.rs:343-359 | eviction file by file is a run of lifecycle steps; exactly the files whose unlink fails stay |
| FileOps.Files.SweepPartials | sillage-writer/src/recovery.rs:54-87 | removes exactly the half-written files that can be removed and counts them |
| Sync.Syncer.SweepRetention | sillage-reader/src/sync.rs:273-295 | unlinks every file it can of the chunks outside the window of the newest local one, and counts these chunks |
| Sync.Syncer.RunCycle | sillage-reader/src/sync.rs:390-441 | diff, download up to the first file that fails, sweep; the served catalog is what a scan of the files finds, without chunks whose sidecar outlived a file |
| Sync.CycleLocally | sillage-reader/src/sync.rs:37-91 | seen from the sidecars the files go through the chunk-wise cycle: a lost file loses its chunk, a stuck sidecar keeps it |
| Sync.RunsServeTheWindow | sillage-reader/src/sync.rs:345-441 | in every run over a growing bucket, whatever fails, every chunk held of the remote window is whole and served, so a sidecar that outlived its payload never blocks a download the window wants; a clean round serves exactly the remote chunks within 9000 slots an hour of the newest |
| Sync.WindowIs | sillage-reader/src/sync.rs:95-108 | the window of some chunks are those that reach back, at 9000 slots an hour, from every one of them |
| Sync.CycleConverges | sillage-reader/src/sync.rs:95-124 | a cycle without failures leaves exactly the remote chunks within 9000 slots an hour of the newest, and the next diff and sweep are empty |
| Sync.CycleNeverChurns | sillage-reader/src/sync.rs:257-295 | whatever downloads and unlinks fail, nothing in the remote window is evicted |
| Sync.RunsNeverChurn | sillage-reader/src/sync.rs:345-441 | the same in every run over a growing bucket, and one clean round is enough to converge |
| Sync.SettlesExactly | sillage-reader/src/sync.rs:257-295 | for a configured retention, downloading and sweeping agree if and only if each remote chunk in the remote window is within retention of the newest local end |
| Sync.SettlesForAllExactly | sillage-reader/src/sync.rs:257-295 | they agree for every retention if and only if nothing is remote or nothing local is newer than everything remote |
| Sync.DownloadIsAtomic | sillage-reader/src/sync.rs:177-212 | interrupted anywhere, a download has published all three files, with nothing half-written left, or no sidecar |
| Witness.OneMessageGoesThrough | sillage-writer/src/chunker.rs:65-125 | one message recorded, indexed, planned and driven under a concrete codec and the shipped pacing, at any clock reading, is delivered once: the hypotheses of the end-to-end guarantee can all be met |

## Left out

- Services around the core: gRPC, TLS, authentication, admission, configuration, metrics, logging, the probe and the demo client.
- The internals of zstd (taken as the identity), protobuf, MessagePack, roaring bitmaps and base58: they are the arbitrary `Codec`, assumed to invert.
- S3 listing and pagination, and the sleeps between retries; a PUT or download is one attempt with an arbitrary outcome.
- Directory scans: unreadable directories, unparseable names, schema mismatches and unreadable sidecars, and two trios of one start slot with different ends. A catalog is the map of whole trios.
- The order of chunks within an upload or download cycle; which chunks the bucket holds at a round, in whatever order they got there, and which files of them arrive, is arbitrary.
- `f64` rounding of the speed factor and of the reported lag: the speed is a positive rational; `lag_sum` only feeds a log line.
- `u64` overflow of slots, ticks and counters; wrap-around is modelled where the code casts to `u32` or computes timestamps.
- I/O errors of the recorder in the middle of a chunk other than a crash.
- The disk of `Chunker` keeps every sealed chunk; eviction by the uploader is modelled in `Lifecycle` and `FileOps`, range by range, since ranges share no files. The age of a marker is a free choice there.
- `Chunker.Chunker.constructor`: starts over an empty directory; runs over an arbitrary directory are covered by the `Recorder` and `Conservation` lemmas, which take any started state.
- Account filter conditions on size, memory contents or transaction signatures, which the code ignores too (`sillage-reader/src/filter.rs:172-173`).
- The index dimensions of block metadata beyond being written and read back, since no filter consults them.
- The count of pending uploads reported at startup, which nothing else reads.
- `Customer::run`'s select loop and hang-up detection.
- `DecodedChunk::heap_bytes` and the index estimate are the arbitrary `size` of the cache.
- `Fidelity.ReplayDelivers`: a retention sweep that unlinks the payload of a planned chunk in the middle of a pass, after which decoding it fails and ends the pass; the files behind a listed chunk are taken to stay readable, here and in `FollowLoop.FollowReplay`.
- `Tailing.FollowsLiveRecorder`: turns that cannot plan because retention swept past the resume point, which end the connection (`Follow.FollowTurn`).
