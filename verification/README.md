# CampusRAG, modelled and proved

A Dafny model of the parts of the CampusRAG service that are decided by its own code rather than by
the services it calls, with proofs of what those parts promise. `dafny verify dfyconfig.toml` checks
everything.

## What is modelled

**The two-tier semantic cache.** `CacheIndex` is the in-memory index: five row-parallel containers
and the two mutations every operation is made of. `SemanticCache` is the cache as a class, with the
database table and the Redis keys as maps, its operations run one at a time: the loaded index is
always a view of the table, Redis only repeats what the table says and is asked first under the same
key, a lookup is a linear scan, a write stays within capacity by evicting the coldest entry.
`CacheInterleaving` is the same code as a step system: any number of coroutines that switch at every
`await`, each of which may also raise; `CacheDrift` is when its index and table part. `CacheKeys` is
the normalisation both tiers key on.

**Session memory.** `MemoryWindow` is the pairing scan and the verbatim window. `MemoryFolding` is
the rolling summary: a fold pointer derived by counting rows, over every run of turns including
cancelled ones and failed summaries, and the service's reads and writes as a class. `TokenLedger` is
the running token total under concurrent transactions and a row lock.

**The answer stream.** `EventPipeline` is the producer: every flag combination, every failure, the
retry loop, the cache replay and the write handed to the cache. What a stream may look like is one
acceptor over events (`Advance`, `Follow`), from which the shape of every stream is proved.
`SseWire` is the printer, the incremental reader over arbitrary chunks, and what the reader makes of
a stream cut at any character (a subset of section 9.2 of the WHATWG HTML Living Standard).
`TurnReducer` is the client's reducer and run loop. `AskRoute` is the endpoint: the session lock,
the memory stage, both transports and their deadline, a consumer that leaves, the whole way from the
producer to the screen, and two runs with the cache between them.

**Retrieval lists.** `Ranking` is the stable descending sort both list modules use. `Compression` is
de-duplication, the relevance floor, sentence trimming and the token budget. `RankFusion` is
reciprocal rank fusion of two retrievers and of a fan-out.

**Tokens and limits.** `TokenRotation` is the refresh-token table (rotation as in section 6 of RFC
6749), `RefreshClient` the browser's shared silent refresh against it, over page reloads at any
moment, `RateLimiter` the fixed-window counter with its expiry.

**Chunking.** `StructureChunker` is sectioning, merging forward and packing, on section objects that
later passes extend in place. `ChunkPages` is what becomes of the page ranges: which sections each
passage carries, and exactly when it spans their pages; `ChunkBlocks` takes that back to the blocks.

`Prelude` holds the shared vocabulary.

## How to read the model

- Floats are `real`. Embedding arithmetic, hashing, lower-casing, tokenising, sentence splitting,
  cross-encoder and BM25 scores, the discriminator scan and JSON are parameters with the laws a
  theorem needs stated as its premise: the hash is injective; lower-casing leaves lowered text
  alone; JSON printing gives one line that starts and ends on a brace, parses back, and has no
  parsable proper prefix; joining two texts with a space costs at most a given slack in tokens.
- A session object's token total may lag behind its row but never runs ahead
  (`TokenLedger.TotalIsSum`).
- Database transactions are atomic and `FOR UPDATE` serialises them. Creation times of the messages
  of a session are distinct and the verbatim window does not grow when the budget is crossed.
- What other services will answer is a value handed to the operation (`World`, `Fault`, `Choice`),
  so a theorem over all such values is a theorem over every failure point.
- A method that changes state ensures its whole new state as a function of the old one; what that
  function keeps is proved as lemmas.

## Where the code and its documentation part

- `backend/app/caching/store.py:92-93` says drift between index and table is impossible. It goes
  both ways: a delete that runs while the first load is between reading its rows and installing them
  leaves an entry listed whose row is gone (`CacheDrift.PhantomReachable`), and a write cancelled
  after its commit leaves a row unlisted (`CacheDrift.UnlistedReachable`). The steps that part the
  two are exactly characterised (`CacheDrift.DriftExactly`), and so is enough for a run to be free
  of it (`CacheDrift.CarefulRunsAgree`). No answer is ever served from an entry whose row is gone
  (`CacheInterleaving.HitsAreReal`).
- `backend/app/memory/service.py:238-241` says the oldest unsummarised rows are exactly the slid-out
  ones. When they are is exact (`MemoryFolding.BatchIsSlidOutExactly`). After orphan questions a
  batch can be other rows than the pairs due (`MemoryFolding.OrphanShiftsBatch`), and can even hold
  the question of a window pair; when, is exact (`MemoryFolding.WindowPairCutExactly`), and a run
  reaches it (`MemoryFolding.OrphanCutsWindow`). Answers of the window are never folded.
- `backend/app/rag/events.py:1-3` promises a terminal event. An exception outside the two guarded
  calls leaves none; `EventPipeline.PipelineEvents` says exactly when. Its `stage* -> token*` fails
  in every run whose generation ends without failing and said something, because the generating
  stage closes after its tokens, and holds in every other run, failed ones included:
  `PipelineEvents` again, and `EventPipeline.OrderBroken` is a plain answered question. (A run that
  said nothing but cites something keeps the order: its one token, the disclaimer, follows the last
  stage.) The order stages do open in (`EventPipeline.StagesInOrder`) has the cache lookup before
  rewriting, unlike `backend/app/memory/stages.py:24-27`.
- `backend/app/api/ask.py:217-219` says closing the generator always releases the session's lock. A
  response dropped before its generator is first asked never enters the block that does
  (`AskRoute.AskWithMemory`); every other ending releases it.
- `frontend/src/api/sse.ts:99-101` flushes a tail without a trailing blank line. It also delivers an
  event the server never sent when the stream stops after an event's name and before its data
  (`SseWire.GhostEventExactly`); for a token the user then reads a word nobody wrote
  (`AskRoute.UndefinedOnScreen`).
- `frontend/src/chat/useAsk.ts:10-12` says a dropped connection and a terminal error event are one
  code path. A read that throws takes another one, to a failed turn
  (`TurnReducer.DroppedConnection`).
- `frontend/src/chat/useAsk.ts:6-9` has a turn live until it settles. An aborted one never settles
  (`TurnReducer.LeftLiveExactly`): retrying another turn while an answer streams leaves that turn
  live (`TurnReducer.RetryOver`), and with it the composer disabled
  (`frontend/src/pages/Chat.tsx:114`).
- `backend/app/rag/compression.py:97-100` says an unscored chunk is never floored away. Topping up
  loses one exactly when there is one (`Compression.TopUpKeepsClearingExactly`;
  `Compression.UnscoredLost` is such a list). The reranker scores every chunk it is given
  (`backend/app/rag/rerank.py`) or is off and scores none, so a running pipeline never produces one.
- `backend/app/api/auth.py:88` says logging out kills every access token of the family. A token of
  an earlier generation revokes nothing (`TokenRotation.LogoutKillsExactly`).
- `backend/app/indexing/chunkers/structure.py:107` says the page range still spans correctly.
  Packing does keep it (`StructureChunker.JoinAllPages`); merging small sections forward before it
  does so exactly when every run of small sections starts on the page of the large section that
  takes it and a trailing run ends on the last page of the large section before it
  (`ChunkPages.MergedSpansExactly`, for passages `ChunkPages.PassagesSpanExactly`).
  `ChunkPages.CarriedPageLost` is a document it fails on.
- `frontend/src/api/client.ts:4-10` makes sharing one refresh a correctness requirement. A page
  reload while the refresh is out gives it up: when the page's token stays current is exact
  (`RefreshClient.ReloadKeepsCurrentExactly`, `RefreshClient.OrphanKeepsCurrentExactly`), and a run
  loses it (`RefreshClient.ReloadLosesToken`).

## Model

| member | source | states |
|---|---|---|
| CacheKeys.NormalizeIdempotent | backend/app/caching/keys.py:55-63 | Normalising twice is normalising once, for every string. |
| CacheKeys.FixedIffCanonical | backend/app/caching/keys.py:55-63 | A string is left alone exactly when it is lowered, has only single inner spaces as white space and no trimmed punctuation at either end. |
| CacheKeys.CollapseKeepsWords | backend/app/caching/keys.py:55-63 | Collapsing white space keeps every word, that is every maximal run without white space, and every character that is not white space, in order. |
| CacheKeys.KeyIsWords | backend/app/caching/keys.py:55-63 | The key of a question is its lowered words one space apart, less the spaces and the trimmed punctuation at the two ends, and less all of those. |
| CacheKeys.TrimIsUnique | backend/app/caching/keys.py:55-63 | Stripping takes characters of the class from the two ends only, and is the only way to take as many as there are. |
| CacheKeys.SameKeyExactly | backend/app/caching/keys.py:55-63 | Two questions share a key exactly when their lowered words, one space apart, agree once trimmed characters at the ends are gone. |
| CacheIndex.Drop | backend/app/caching/store.py:326-336 | Dropping an id removes it from all five containers and keeps every other id, once, in row-parallel form. |
| CacheIndex.MirrorsDrop | backend/app/caching/store.py:326-336 | If the index mirrors the table, dropping an id mirrors the table without its row. |
| CacheIndex.MirrorsStore | backend/app/caching/store.py:235-255 | Dropping and re-appending an id mirrors the table with the new row under it. |
| CacheIndex.MirrorsSize | backend/app/caching/store.py:208-211 | An index that mirrors the table has as many positions as the table has rows, so the capacity test on one is the capacity test on the other. |
| SemanticCache.ColderIsTotalPreorder | backend/app/caching/store.py:262-264 | The eviction order, never hit first, then hit longest ago, then oldest, is total and transitive. |
| SemanticCache.SemanticCache.EnsureLoaded | backend/app/caching/store.py:88-117 | After it the index is loaded and mirrors the table, and an index already loaded is left as it is. |
| SemanticCache.SemanticCache.ArgMax | backend/app/caching/store.py:145-149 | The position found holds a row of the table no other row is closer to the question than. |
| SemanticCache.SemanticCache.Lookup | backend/app/caching/store.py:136-183 | Equals a linear scan of the table: a best row, then threshold, then discriminators, then manifest; a stale best row is deleted, a hit is counted, anything else changes nothing. Said of the outcome alone: an answer comes from a nearest row at or above the threshold with the question's discriminators and the manifest in use, and a miss from an empty table, a zero vector, or a nearest row that fails one of the three. |
| SemanticCache.SemanticCache.Write | backend/app/caching/store.py:187-241 | The question's row is overwritten in place or inserted, an insert at capacity evicts a coldest row and nothing else, and Redis holds the answer under the question's key. |
| SemanticCache.WrittenRow | backend/app/caching/store.py:196-233 | After a write exactly one row answers the question, with what was written, and every other row is an old one unchanged. |
| SemanticCache.SemanticCache.EvictLeastRecentlyHit | backend/app/caching/store.py:257-275 | The row deleted from table, Redis and index is one that was hit only if every row was, no later than any of them, and among rows last hit at the same time none is older. |
| SemanticCache.SemanticCache.Evict | backend/app/caching/store.py:312-324 | An entry leaves table, Redis and index together; an entry without a row changes nothing. |
| SemanticCache.SemanticCache.DeleteByQuery | backend/app/caching/store.py:289-308 | Removes exactly the row and the Redis key of the normalised question, however it is spelled, and returns how many. |
| SemanticCache.SemanticCache.Flush | backend/app/caching/store.py:279-287 | Empties both tiers and the index and returns how many rows there were. |
| SemanticCache.SemanticCache.Reset | backend/app/caching/store.py:338-347 | Forgets the index and the manifest, and keeps the cache sound. |
| SemanticCache.SemanticCache.WriteThenLookup | backend/app/caching/store.py:136-241 | A question written and asked again with its vector is answered with what was written, if it is closest to itself and within the threshold. |
| SemanticCache.SemanticCache.WriteThenDelete | backend/app/caching/store.py:187-308 | Writing a new question below capacity and deleting any spelling of it restores the table. |
| SemanticCache.SemanticCache.HotGet | backend/app/rag/baseline.py:124-137 | The Redis tier hits exactly when the key of the normalised question is there, and then with the answer of the question's own row of the table, however it is spelled. |
| SemanticCache.SemanticCache.Expire | backend/app/caching/redis_hot.py:71-81 | A key lost to its time to live leaves the tiers in agreement. |
| SemanticCache.SemanticCache.TwoTierLookup | backend/app/rag/baseline.py:107-146 | Redis first, touching neither the embedding service nor the index; then a failed embedding changes nothing; then the linear scan of the table with the normalised question. |
| SemanticCache.SemanticCache.WriteThenAsk | backend/app/rag/baseline.py:107-146 | After a write every spelling of the question gets what was written, from Redis, or once the key has expired from the index if the question is closest to itself. |
| SemanticCache.SemanticCache.DeleteThenAsk | backend/app/caching/store.py:289-308 | After a delete no spelling of the question hits in Redis, and whatever the index finds for it is the answer of another question. |
| CacheInterleaving.StepInv | backend/app/caching/store.py:88-347 | Every step of every coroutine, and every raise, keeps the invariant: unique hashes, a row-parallel index each position of which describes one committed version, one lock holder, and honest program counters, among them that a write about to insert has no row to collide with. |
| CacheInterleaving.HashesStayUnique | backend/app/db/models/ops.py:56 | In every reachable state no two rows share a query hash, and a write about to commit inserts a hash no row has or updates the only row that has it: the unique constraint never fires. |
| CacheInterleaving.HitsAreReal | backend/app/caching/store.py:166-183 | Whatever the interleaving, a served answer is the payload of a row that was in the table when it was read, with the asker's discriminators and a committed version within the threshold. |
| CacheInterleaving.CarriedAnswerWasRead | backend/app/caching/store.py:173-183 | An answer in a coroutine's hands was read from the table in some earlier state. |
| CacheInterleaving.IndexAlwaysSound | backend/app/caching/store.py:75-83 | In every reachable state the five containers have one length, distinct ids, and position by position describe one committed version. |
| CacheDrift.DriftExactly | backend/app/caching/store.py:88-347 | In every run, a step from a state whose loaded index is a view of the table leaves drift exactly when it deletes a row or empties the table under a loaded index, commits a row the index has not got like that, installs rows the table has not got like that, or lists an entry that is gone or, on an index that is not loaded, not the whole table. |
| CacheDrift.StepKnows | backend/app/caching/store.py:187-336 | No step makes a coroutine drop an entry whose row is there, or list a row as other than it was committed. |
| CacheDrift.CarefulRunsAgree | backend/app/caching/store.py:90-93 | If no coroutine raises between a commit and its index step, no row a load has read or a write is about to list is deleted meanwhile, and no write lists its entry alone on an index that is not loaded, then a loaded index with no index step pending is a view of the table. |
| CacheDrift.UnlistedReachable | backend/app/caching/store.py:231-237 | A reachable idle state whose loaded index does not list a committed row. |
| CacheDrift.PhantomReachable | backend/app/caching/store.py:92-93 | A reachable state lists an entry whose row is gone with nothing pending to drop it. |
| MemoryWindow.Pairs | backend/app/memory/window.py:21-39 | The greedy scan returns every adjacent user/assistant pair, for any role sequence. |
| MemoryWindow.PairListedInOrder | backend/app/memory/window.py:21-39 | A pair stands after exactly the pairs that begin before it: none is missed or reordered. |
| MemoryWindow.EveryPairIsAdjacent | backend/app/memory/window.py:21-39 | Every pair listed is an adjacency of the transcript, at its own place. |
| MemoryWindow.PairsOfSuffix | backend/app/memory/window.py:21-39 | Pairing any suffix gives a suffix of the full pairing. |
| MemoryWindow.TailWindowExact | backend/app/memory/window.py:42-46 | Loading a tail of the rows loses nothing of the last n pairs exactly when the tail holds n pairs or all there are. |
| MemoryWindow.WindowRowsSuffice | backend/app/memory/service.py:224-235 | Under alternation the 2W+1 newest rows give the same last W pairs as the whole transcript. |
| MemoryWindow.Assemble | backend/app/memory/window.py:49-67 | The prompt context is the last whole pairs of the window in force, its token count and whether the budget was crossed. |
| MemoryFolding.PointerIsPosition | backend/app/memory/service.py:205-221 | The counts and the rows the queries return are those before and after the fold pointer's position. |
| MemoryFolding.BatchSparesWindow | backend/app/memory/service.py:238-276 | A batch never reaches into the answers of the window: at least a window of answers lies behind it. |
| MemoryFolding.FoldsArePrefix | backend/app/memory/service.py:195-276 | Over every run, cancelled turns, failed summaries and totals that lag included, the folded stretches end to end are the messages up to the pointer: each folded once, in order, none skipped, and no answer of the last window among them. |
| MemoryFolding.PointerOnlyAdvances | backend/app/memory/service.py:137-143 | The pointer never moves back and messages are only added. |
| MemoryFolding.BatchIsSlidOutExactly | backend/app/memory/service.py:238-252 | A batch is exactly the oldest pairs due, question and answer in turn, when it starts with a question and holds as many answers as pairs were due, and only then. |
| MemoryFolding.OrphanShiftsBatch | backend/app/memory/service.py:238-252 | A run with an orphan question whose next batch is other rows than the pair that is due, though it cuts no window pair. |
| MemoryFolding.WindowPairCutExactly | backend/app/memory/service.py:238-252 | A batch takes the question of a window pair exactly when it holds as many answers as pairs were due and the next row is an answer. |
| MemoryFolding.OrphanCutsWindow | backend/app/memory/service.py:238-252 | A well-timed run with orphan questions after which the next question's batch cuts a window pair. |
| MemoryFolding.StageDrains | backend/app/api/ask.py:113-128 | Over every run in which each committed turn is answered, and whatever total the next turn decides by: after its stage succeeds fewer than MEMORY_SUMMARIZE_EVERY_PAIRS pairs are pending, and none when the total shown reaches the budget. |
| MemoryFolding.DueExactly | backend/app/memory/service.py:255-276 | When a fold is due, by counts, settings and the total shown, and which rows it takes. |
| MemoryFolding.TurnAdds | backend/app/api/ask.py:141-176 | What a turn adds to rows, total and pointer for each way it can end. |
| MemoryFolding.PairsArePartitioned | backend/app/memory/service.py:255-276 | When every committed turn is answered, each completed pair is in exactly one of summary, pending stretch and window. |
| MemoryFolding.WindowIsPrompted | backend/app/memory/service.py:224-235 | With the turn's question already among the rows, the prompt holds exactly the pairs of the window in force by the total shown, in order, and the stage run before it is built folds none of them; none was folded earlier unless a lagging total hides that the budget is crossed. |
| MemoryFolding.ChatSession.LoadMemory | backend/app/memory/service.py:255-276 | Returns the newest 2W+1 rows, and a batch exactly when the completed pairs outside the window and past the pointer are at least MEMORY_SUMMARIZE_EVERY_PAIRS, or at least one once the total shown reaches the budget; then the batch is the rows from the pointer on, two for each such pair. |
| MemoryFolding.ChatSession.TakeTurn | backend/app/api/ask.py:141-176 | A turn's rows, pointer, total, prompt context and summary are those of the specification the run theorems are about, and its rows and total those of the ending: nothing, the question, or the question and the answer. |
| TokenLedger.StepBalanced | backend/app/memory/service.py:105-171 | Every step of every transaction keeps the committed total equal to the sum of the committed token counts. |
| TokenLedger.TotalIsSum | backend/app/memory/service.py:105-134 | In every committed state under any interleaving the total is the sum of the messages' token counts, and what a request's session object shows never runs ahead of the row it would commit. |
| TokenLedger.AssignmentKeepsExactly | backend/app/memory/service.py:109-114 | Assigning the attribute instead of incrementing the column would keep the total exactly when the object is not stale. |
| TokenLedger.ObjectCanBeStale | backend/app/memory/service.py:146-171 | A write-behind that commits between a request's load and its update makes the object stale. |
| EventPipeline.TerminalIsLast | backend/app/rag/baseline.py:197-198 | A stream has at most one terminal event, in last place, and has one exactly when it succeeded or failed. |
| EventPipeline.SucceededEnding | backend/app/rag/baseline.py:405-408 | A run that ends in done ends citations, meta, done, with only stages and tokens before. |
| EventPipeline.FollowedText | backend/app/rag/baseline.py:346-355 | The text of a stream is the concatenation of its token events. |
| EventPipeline.FollowedStages | backend/app/memory/stages.py:33-47 | Each stage is absent, skipped once, started and still open, or started and then finished, as its progress says. |
| EventPipeline.StagesInOrder | backend/app/memory/stages.py:24-27 | Stages open in one fixed order. |
| EventPipeline.RankIsPlace | backend/app/memory/stages.py:24-27 | That order, stage by stage. |
| EventPipeline.InTime | backend/app/rag/baseline.py:338-408 | Tokens come only while generating or after citing is closed, and no stage is open when the citations go out. |
| EventPipeline.FinalIsFirst | backend/app/rag/baseline.py:80-104 | The tokens of a run come from one attempt of at most LLM_MAX_RETRIES + 1, and every earlier one was silent, failed and retryable. |
| EventPipeline.AttemptMade | backend/app/rag/baseline.py:80-104 | An attempt within the budget is made whenever every one before it was silent, failed and retryable, and is the last made when it does not fail, fails for good, has said something, or exhausts the budget. |
| EventPipeline.SettlesOnce | backend/app/rag/baseline.py:80-104 | Exactly one attempt is reached and not retried. |
| EventPipeline.SpokenSaysAll | backend/app/rag/baseline.py:94-97 | Leaving out the empty pieces changes nothing of the text. |
| EventPipeline.StreamWithRetry | backend/app/rag/baseline.py:80-104 | Takes the one attempt that settles the stream, which is the first that does not fail, fails for good, has said something, or is number LLM_MAX_RETRIES + 1: its non-empty pieces, in order, all its text, and its failure. |
| EventPipeline.Replay | backend/app/rag/baseline.py:163-183 | A cache hit closes every remaining stage as skipped, gives the cached answer as its text, and ends like any answered run. |
| EventPipeline.WorldLeadsTo | backend/app/rag/baseline.py:186-420 | The outcome of every combination of answers from the services: uncaught failure, error message, refusal with suggestions, or answer with its disclaimer, citations and meta; and which are worth caching. |
| EventPipeline.StagesCalledFor | backend/app/rag/baseline.py:163-369 | For each stage, exactly when a completed run runs it and when it skips it. |
| EventPipeline.PipelineEvents | backend/app/rag/baseline.py:186-420 | For every flag combination and failure: an uncaught failure is the only run without a terminal event, and a failing query embedding leaves the opened cache lookup alone on the stream; a guarded failure ends in its error message after the text said so far, and generation fails exactly when the attempt that settles it does; any other run finishes and skips exactly the stages its flags call for and carries the response's text and meta; a stage event follows a token exactly when generation ended without failing and said something; a response is handed to the cache exactly when it was answered now, undegraded and cited. |
| EventPipeline.FollowedOrder | backend/app/rag/events.py:1-3 | The progress of a stream says whether a token has come, and whether a stage event came after one. |
| EventPipeline.OrderBroken | backend/app/rag/baseline.py:338-367 | An answered question whose stream has a stage event after a token. |
| SseWire.DrainConcat | frontend/src/api/sse.ts:26-34 | Draining what has arrived, then the remainder with the next text, is draining all of it, for arbitrary text. |
| SseWire.ParseFrame | frontend/src/api/sse.ts:36-49 | A frame means its last event name and its last data line, `{}` without data, nothing without a name or with broken JSON. |
| SseWire.LastLineCounts | frontend/src/api/sse.ts:36-43 | Of several name lines the last counts, and of several data lines the last one; each is taken behind its prefix. |
| SseWire.FirstLine | frontend/src/api/sse.ts:36-43 | A line break ends a line and the next one starts behind it. |
| SseWire.AskStream | frontend/src/api/sse.ts:81-101 | The read loop yields what the whole body means, however it was chunked. |
| SseWire.RoundTrip | backend/app/api/ask.py:67-69 | Every event list, encoded and cut into any chunks, is read back exactly. |
| SseWire.WireFormat | backend/app/api/ask.py:67-69 | The exact text of a frame. |
| SseWire.CutStream | frontend/src/api/sse.ts:99-101 | A connection that closes inside a frame delivers the whole frames before it and then the frame's stub, given exactly for every cut position. |
| SseWire.GhostEventExactly | frontend/src/api/sse.ts:99-101 | The reader yields something the server did not send exactly when the cut falls after the first character of the name and before the first character of the data, or, for a frame with empty data such as done, before the end of the name. |
| TurnReducer.TrailMirrors | frontend/src/chat/useAsk.ts:44-54 | Folding a stream's stages gives one entry per stage, in pipeline order, with the status the stage stands with: open exactly while it runs. |
| TurnReducer.CompletedTrailIsClosed | frontend/src/chat/useAsk.ts:44-54 | A run with nothing running leaves no entry open. |
| TurnReducer.Run | frontend/src/chat/useAsk.ts:136-234 | Whatever the events and the ending, the asked turn is replaced or appended, or is dropped with the composer locked. It shows its question, the text, the trail, the citations named last by a citations event or a non-empty meta, and the last meta; its status, error and fold follow from how the stream ended. Every other turn keeps its place and content; and a turn is left live exactly when another one was or this one was aborted before an error event. |
| TurnReducer.AbsorbedLast | frontend/src/chat/useAsk.ts:82-93 | For any events: the citations are those of the last citations event or non-empty meta, whichever came later, and none if there is neither; the meta and the error are the last ones. |
| TurnReducer.LeftLiveExactly | frontend/src/chat/useAsk.ts:196-231 | An accepted ask leaves its turn unsettled exactly when it is aborted before any error event. |
| TurnReducer.RetryOver | frontend/src/chat/useAsk.ts:145-150 | Retrying another turn while an answer streams leaves the streaming turn live, whatever becomes of the retry. |
| TurnReducer.ClosedStatus | frontend/src/chat/useAsk.ts:220-231 | For any events, a closed stream is interrupted without done or with an error event, and otherwise refused or complete as its last meta says; its citations and its meta are the last ones named. |
| TurnReducer.DroppedConnection | frontend/src/chat/useAsk.ts:196-218 | A read that throws mid-answer leaves a failed turn with its trail expanded, an early close an interrupted one. |
| AskRoute.AskWithMemory | backend/app/api/ask.py:309-317 | A busy session turns a second ask away and keeps its lock; otherwise the lock is free again however the turn ends and whenever its consumer leaves, except when the generator is never entered. |
| AskRoute.MemoryEvents | backend/app/api/ask.py:131-181 | The memory stage comes before everything else, run when a fold is due and skipped when not, a failed load says nothing and a failed commit nothing more, the lock is released on every path, a consumer that leaves has a prefix of the run's events and no response reaches transcript or cache, and otherwise the transcript receives the response exactly when the run completed. |
| AskRoute.Collect | backend/app/api/ask.py:243-277 | The JSON transport returns the stream's text and meta, and an error as soon as the stream reports one, breaks off or has no meta. |
| AskRoute.SseEvents | backend/app/api/ask.py:214-240 | A deadline that finds the producer waited for ends the stream with one error event, in last place, after the events already produced; one that finds a frame being sent only cuts the stream; and it can find the producer waited for at most where the stream is still streaming. |
| AskRoute.TurnOnScreen | frontend/src/chat/useAsk.ts:136-234 | A finished stream leaves a turn with its question, the stream's text and trail, the status and the error its phase calls for, and once succeeded the meta and its citations. |
| AskRoute.AskInBrowser | frontend/src/chat/useAsk.ts:155-232 | End to end, for every world and every chunking: a completed run shows the question, the response's text, meta and citations, a trail of exactly the stages that ran and were skipped, all closed, and the right status, the JSON transport returns the same response, and a failed run shows as failed on both, with its message. |
| AskRoute.ChatInBrowser | backend/app/api/ask.py:131-181 | The same of a turn of a conversation, with the memory stage in front on the trail and the lock free at the end; the transcript holds exactly what the JSON transport returns. |
| AskRoute.AskAgain | backend/app/rag/baseline.py:410-421 | When a run hands its response to the cache, the question asked again in any spelling streams the same text and ends with the same meta, marked as a hit, whatever else has become of the other services. |
| AskRoute.UndefinedOnScreen | frontend/src/api/sse.ts:99-101 | A token frame that stops after its name is dispatched as a token that reads undefined. |
| Compression.Jaccard | backend/app/rag/compression.py:60-63 | The shared elements over all of them: a symmetric ratio between 0 and 1, and 1 exactly for equal non-empty sets. |
| Compression.NGramsAre | backend/app/rag/compression.py:53-57 | The n-grams are every stretch of n words, and all the words of a shorter text. |
| Compression.WalkSurvivors | backend/app/rag/compression.py:74-81 | The walk keeps exactly the chunks unlike every survivor before them. |
| Compression.SurvivorsApart | backend/app/rag/compression.py:66-81 | Survivors are pairwise at or below the threshold. |
| Compression.CasualtyExplained | backend/app/rag/compression.py:76-79 | Every other chunk exceeds it against an earlier survivor. |
| Compression.Dedupe | backend/app/rag/compression.py:66-91 | Keeps all survivors in input order and at least the minimum, topped up only with the best of the rest. |
| Compression.RelevanceFloor | backend/app/rag/compression.py:96-113 | Keeps exactly the chunks that clear the floor, or the best minimum when too few do, in input order. |
| Compression.TopUpKeepsClearingExactly | backend/app/rag/compression.py:107-111 | A top-up contains every clearing chunk exactly when all chunks are scored. |
| Compression.UnscoredLost | backend/app/rag/compression.py:97-111 | A list of one unscored and two low-scored chunks of which the floor drops the one that clears it. |
| Compression.TrimChunk | backend/app/rag/compression.py:123-158 | The text becomes the greedily kept sentences in document order, and nothing else of the chunk changes; which are kept is exact. |
| Compression.GreedyTakes | backend/app/rag/compression.py:145-154 | A sentence is kept exactly when it is the most relevant one, or the more relevant ones kept are below the budget and leave room for it. |
| Compression.KeptInOrder | backend/app/rag/compression.py:156-156 | The kept sentences stand in document order. |
| Compression.GreedyFits | backend/app/rag/compression.py:145-154 | The best sentence is kept and the kept ones fit the budget unless it is alone. |
| Compression.TrimmedCost | backend/app/rag/compression.py:126-131 | A trim costs at most its target or its best sentence, plus the joins, unless the chunk has one sentence. |
| Compression.TokenBudgetFill | backend/app/rag/compression.py:161-195 | The loop keeps the chunks, and counts the dropped sentences, of the specification the next rows are about. |
| Compression.FilledKeepsFront | backend/app/rag/compression.py:171-194 | Chunks are kept from the front without a gap, whole or trimmed; all of them until the fill stops, and then at least the required ones. |
| Compression.FillSays | backend/app/rag/compression.py:161-195 | Said of the result alone: a chunk that fits what is left comes out whole, one that does not is trimmed to its even share of it, past the required chunks only the last may be cut, and the fill stops short only when its last chunk was cut or nothing is left for the next. |
| Compression.FillBound | backend/app/rag/compression.py:161-195 | With a positive budget at least min(MIN, n) chunks come out and their tokens are at most the budget plus one for each required chunk after the first, plus by how much trims missed their share. |
| Compression.ExcessBound | backend/app/rag/compression.py:184-192 | That miss is at most what the chunks actually cut miss their own share by: the tokens of a one-sentence chunk beyond it, and otherwise those of the best sentence beyond it plus the joins of the kept ones. |
| Compression.FillWithinMisses | backend/app/rag/compression.py:161-195 | Altogether the output costs at most the budget, one token for each required chunk after the first, and those misses. |
| Compression.FillMeetsTargets | backend/app/rag/compression.py:161-195 | Without join costs, and when every chunk cut has several sentences the best of which fits its share, nothing is missed. |
| Compression.EnoughClear | backend/app/rag/compression.py:201-218 | With at least the minimum of survivors at or above the floor, exactly those reach the token budget. |
| Compression.ManySurvive | backend/app/rag/compression.py:201-218 | When more than the minimum reach it, all are survivors. |
| Compression.CompressChunks | backend/app/rag/compression.py:201-253 | Chunks come out in input order, each at most once, whole or trimmed, never fewer than the minimum: past the minimum only survivors of de-duplication, with enough clearing survivors only those, kept from the front until the fill ends, within the budget up to what its trims miss; an exception returns the input. |
| Ranking.DescendingRanks | backend/app/rag/hybrid.py:175-175 | The stable descending sort orders by score and then by position. |
| RankFusion.SparseScoresRanked | backend/app/rag/hybrid.py:72-85 | Ranks count from 1, scores are positive and never rise, and a match left out scores no more than any kept. |
| RankFusion.FusionRanks | backend/app/rag/hybrid.py:141-176 | Every id that appears is fused once, by points and then by first appearance. |
| RankFusion.FirstsInOrder | backend/app/rag/hybrid.py:151-169 | Of two ids the one that appears first is listed first. |
| RankFusion.FusedPoints | backend/app/rag/hybrid.py:141-172 | An id's points are 1/(k + place) of its dense place plus 1/(k + rank) of its sparse hit if that can be shown. |
| RankFusion.PointsConserved | backend/app/rag/hybrid.py:154-169 | The candidates' points before the cap add up to the weights of all showable list positions. |
| RankFusion.Dominance | backend/app/rag/hybrid.py:147-149 | A chunk at least as high in every list, and higher or extra in one, comes first. |
| RankFusion.ScoresArePoints | backend/app/rag/hybrid.py:154-169 | The running dictionary holds exactly the ids that appeared, each with its points. |
| RankFusion.RrfFuse | backend/app/rag/hybrid.py:141-176 | The result is the fused order up to the cap, without duplicates, each candidate its card with its points. |
| RankFusion.FusedCard | backend/app/rag/hybrid.py:154-172 | A candidate is the dense chunk or else the hydrated one, with the sparse score of its hit; a hit that cannot be hydrated is not shown. |
| RankFusion.DenseChunkIsLast | backend/app/rag/hybrid.py:154-157 | Of dense chunks under one id the last is the card. |
| RankFusion.DenseDown | backend/app/rag/hybrid.py:159-176 | With an empty dense list fusion is the hydratable part of the BM25 order. |
| RankFusion.RrfMerge | backend/app/rag/rewrite.py:205-220 | Pools are united in fused order up to the cap, each id by its first whole chunk. |
| RankFusion.FirstChunkIsFirst | backend/app/rag/rewrite.py:213-217 | The chunk kept under an id is the first one seen. |
| RankFusion.LonePool | backend/app/rag/rewrite.py:205-220 | A single pool without duplicates keeps its order. |
| TokenRotation.AuthService.Authenticate | backend/app/auth/service.py:79-117 | A login of an active user inserts one live row, any other changes nothing. |
| TokenRotation.AuthService.RotateRefresh | backend/app/auth/service.py:166-205 | A live token of an active user is revoked, linked to its successor and succeeded; anything else is denied and changes nothing. |
| TokenRotation.AuthService.ResolveJwt | backend/app/auth/service.py:218-241 | An access token resolves exactly to an active user whose session row is live. |
| TokenRotation.AuthService.RevokeFamily | backend/app/auth/service.py:208-215 | Revokes the one row named and no other. |
| TokenRotation.AuthService.ResetPassword | backend/app/auth/service.py:148-163 | Revokes every row of the user and no other. |
| TokenRotation.AuthService.PruneExpired | backend/app/auth/service.py:267-277 | Deletes exactly the expired rows. |
| TokenRotation.StepChains | backend/app/auth/service.py:166-277 | Every operation keeps every chain: distinct generations, one user, only the last row unrevoked, links one generation up. |
| TokenRotation.ChainsHold | backend/app/auth/service.py:166-241 | In every reachable state each chain has at most one live token, its last; links climb, so chains are acyclic; access tokens of at most one generation of a chain resolve. |
| TokenRotation.SpentForever | backend/app/auth/service.py:178-203 | Revoked, expired or pruned, a token never becomes live again. |
| TokenRotation.ResetEndsSessions | backend/app/auth/service.py:148-163 | After a password reset no refresh token of the user is live and no access token resolves to them until they log in again, whatever else happens, and nobody else's token is touched. |
| TokenRotation.PruneUnobservable | backend/app/auth/service.py:267-277 | After pruning, every later operation of every run comes out as it would have without. |
| TokenRotation.LogoutKillsExactly | backend/app/auth/service.py:208-215 | A logout leaves its chain dead exactly when the session named was live or the chain was dead already. |
| TokenRotation.StaleLogoutKillsNothing | backend/app/api/auth.py:83-90 | A run in which logging out with an earlier access token leaves the current one resolving. |
| RefreshClient.StepKeeps | frontend/src/api/client.ts:31-100 | Every step of client, network, server and others, a page reload at any moment included, keeps the invariant behind the next rows, among it that a refresh is out exactly while some call waits for it. |
| RefreshClient.CurrentExactly | frontend/src/api/client.ts:50-62 | In every reachable world, with any number of calls, lost messages and reloads, at most one refresh of the page is out, and a token it stores or presents is its chain's last and unreplaced exactly when no successor of it is still unreceived; otherwise the server refuses it at any time. |
| RefreshClient.RefreshPresentsHead | frontend/src/api/client.ts:50-62 | As long as the page is only reloaded while no refresh is out, the token a refresh presents is its chain's last and was never replaced. |
| RefreshClient.ReloadKeepsCurrentExactly | frontend/src/api/client.ts:15-16 | A page reload at any moment leaves the unhandled refresh to the server; however the run goes on while the page keeps its token, its next refresh presents that token, and the token is current exactly when no successor of it was unreceived at the reload and no refresh of its chain, above all the orphaned one, has been accepted since. |
| RefreshClient.OrphanKeepsCurrentExactly | frontend/src/api/client.ts:15-16 | When the server later handles a refresh sent before a reload, a stored or presented token stays current exactly when it was and that refresh is refused or of another chain. |
| RefreshClient.ReloadLosesToken | frontend/src/api/client.ts:15-16 | A run of sign-in, 401, reload and an orphaned refresh after which the page presents a token the server has replaced and will always refuse. |
| RateLimiter.Limiter.Check | backend/app/core/ratelimit.py:32-50 | Allows and counts as the specification the next rows are about, a failing counter letting the request through. |
| RateLimiter.RanIsExact | backend/app/core/ratelimit.py:38-42 | With nondecreasing times a counter is never reset inside its window, whatever fails. |
| RateLimiter.WindowBound | backend/app/core/ratelimit.py:32-50 | A window lets through its limit and at most one request more per counter error. |
| RateLimiter.WindowExact | backend/app/core/ratelimit.py:32-50 | Without counter errors an aligned window lets through exactly min(requests, limit). |
| RateLimiter.BurstBound | backend/app/core/ratelimit.py:12-13 | Any closed interval of one window's length lets through at most twice the limit, plus one per error. |
| RateLimiter.BurstReached | backend/app/core/ratelimit.py:12-13 | Twice the limit does get through across a boundary. |
| StructureChunker.GroupBy | backend/app/indexing/chunkers/structure.py:36-57 | Blocks under one heading, or one anchor, become one section, as specified. |
| StructureChunker.GroupedApart | backend/app/indexing/chunkers/structure.py:41-53 | Neighbouring sections differ in heading, or in anchor: no run of blocks is split. |
| StructureChunker.JoinLinesConcat | backend/app/indexing/chunkers/structure.py:18-20 | A section's lines are joined with a line break between any two. |
| StructureChunker.GroupByClause | backend/app/indexing/chunkers/structure.py:59-72 | A section starts at every line that opens a clause, as specified. |
| StructureChunker.GroupedInk | backend/app/indexing/chunkers/structure.py:36-57 | Grouping keeps the non-white-space characters in order. |
| StructureChunker.ClausesInk | backend/app/indexing/chunkers/structure.py:59-72 | So does splitting at clauses. |
| StructureChunker.MergeForward | backend/app/indexing/chunkers/structure.py:77-96 | The section objects end as the merge specification says. |
| StructureChunker.MergeKeepsLarge | backend/app/indexing/chunkers/structure.py:80-87 | The merged sections are exactly those of at least the minimum of characters, in order, each with its own heading, anchor, pages and parts behind what was carried to it. |
| StructureChunker.MergedInk | backend/app/indexing/chunkers/structure.py:77-96 | Carrying small sections forward keeps the non-white-space characters in order. |
| StructureChunker.Pack | backend/app/indexing/chunkers/structure.py:98-120 | The section objects end as the packing specification says. |
| StructureChunker.PackedIsPacking | backend/app/indexing/chunkers/structure.py:98-120 | Packed sections are consecutive groups covering all sections; within a group each section fitted the budget with what was joined before it, and no packed section could have taken the first section of the next. |
| StructureChunker.PackedInk | backend/app/indexing/chunkers/structure.py:98-120 | Packing keeps the non-white-space characters in order. |
| StructureChunker.JoinAllPages | backend/app/indexing/chunkers/structure.py:105-117 | A packed section spans from its first section's first page to its last section's last page. |
| StructureChunker.JoinAllNames | backend/app/indexing/chunkers/structure.py:115-117 | It has the first non-empty heading of its sections, and the first non-empty anchor. |
| StructureChunker.JoinAllParts | backend/app/indexing/chunkers/structure.py:113-114 | It has the parts of all its sections, in order. |
| StructureChunker.Split | backend/app/indexing/chunkers/structure.py:27-34 | The three ways of sectioning and the two passes compose on objects as on values. |
| StructureChunker.PassagesKeepInk | backend/app/indexing/chunkers/structure.py:27-120 | From the blocks to the passages no text is lost, invented or reordered. |
| ChunkPages.MergedSpansExactly | backend/app/indexing/chunkers/structure.py:77-96 | For every section list, each merged section spans the pages of the sections whose text it carries exactly when every run of small sections before a large one starts on its page and a trailing run ends on the last large section's last page; with nothing large, when the first section starts on the last one's page. |
| ChunkPages.PassagesSpanExactly | backend/app/indexing/chunkers/structure.py:77-120 | Which sections every passage carries, and that all passages span their pages exactly when the runs in front of a passage's first section and the trailing run keep theirs; keeping every run's pages is enough. |
| ChunkBlocks.GroupedPages | backend/app/indexing/chunkers/structure.py:36-57 | The sections of a grouping are consecutive runs of the blocks, starting exactly at the first block and wherever the heading, or the anchor, changes, named after the block they start at, each from the first page of its first block to the last page of its last. |
| ChunkBlocks.ClausePages | backend/app/indexing/chunkers/structure.py:59-72 | The sections of a clause split are consecutive runs of the lines, starting exactly at the first line and at every line that opens a clause, named after that line, each from the first page of its first line's block to the last page of its last line's block. |
| ChunkBlocks.DocumentPagesExactly | backend/app/indexing/chunkers/structure.py:27-120 | For every document: where its sections start and what they are called, which stretch of its text each passage carries, when the passage's pages are those of the first and the last block of that stretch, and that all are exactly when the runs in front of a passage's first section and the trailing run keep theirs; passages are the packed groups. |
| ChunkPages.CarriedPageLost | backend/app/indexing/chunkers/structure.py:84-107 | Three blocks of pages 1 to 3 become one passage said to be on page 2. |

## Left out

- CacheInterleaving: Redis is not part of the step system, since its awaits change neither table nor index; that its payload can lag the table when writes interleave is why tier agreement is claimed only for operations run one at a time.
- SemanticCache: Redis outages other than the loss of a key, cached payloads that no longer parse, vectors of unequal dimension, and deletion by a raw question while query rewriting maps it to another key.
- CacheKeys: which tokens are discriminators; they are any function of the normalised question.
- MemoryFolding: a late assistant write, after the next turn's question; a session object loaded before the previous turn committed, whose fold pointer lags as its total may; and the text of the summary.
- TokenLedger: titles, activity times, archiving, and several sessions.
- EventPipeline: stage durations, trace details, costs, and the inside of retrieval, which succeeds or fails as a whole after its own retries.
- AskRoute: request logging; stamping the meta; ownership checks.
- AskRoute.SseEvents: how much of a frame still reaches the client when the deadline finds it being sent; that client's reading of any cut is `SseWire.CutStream`.
- TurnReducer: abort and retry controls beyond how they end a run, and stage, citations or meta frames without data, which the model ignores.
- SseWire: byte decoding, since the printer emits ASCII; carriage returns, which the server never sends.
- Compression: log lines and trace rows; whether anything in the stage raises is one flag.
- RankFusion: rounding of scores, and how chunks are hydrated.
- TokenRotation: signatures, clock leeway, password checks, lockout counting, API keys.
- RefreshClient: several tabs sharing the stored token, which breaks its premise that nobody else rotates the client's chain.
- RateLimiter: the retry-after header, and an error while reading it.
- StructureChunker: the recursive splitter behind oversized passages and the final truncation of a passage to the embedding limit.
- Document loading, ingestion status, evaluation, statistics, migrations, health checks and the command lines would only add easy members.
