# Truth-in-stream backend: a verified model

This project models the hard core of the backend and proves what it relies on. Every
statement is about all inputs, all runs or all reachable states.

1. **The embedding-job protocol** (`Jobs`, `Corpus`, `Batching`, `BatchOrder`,
   `OrderFree`, `Rows`, `Evidence`, `Environment`, `Settlement`, `BatchStages`, `Worker`,
   `Consumer`, `Crawl`, `Protocol`, `Recovery`, `WorkerSteps`). `Environment` is everything a worker
   reaches: each call may be hit by a shutdown and may fail the way the real one can, and
   its preconditions are the rules for settling a delivery (decide, then ack; nack only
   after a shutdown or a refused republish). A decision needs `Evidence`: an outcome must
   be true of the delivery and earned by what the provider, the store and the broker
   answered. `Worker` and `Consumer` are the embedding worker's code over it, down to the
   timer and the slot wait. `Protocol` is a transition system of producers, broker,
   forwarding goroutines, any number of workers, the delta sync and the corpus under
   concurrent ingest; `WorkerSteps` shows that what `Environment` permits, from receiving
   a delivery to embedding, writing and settling it, are steps of it.
2. **The keyed rate limiter** (`RateLimit`), a simulation of unbounded per-key buckets.
3. **Spherical k-means over the reals** (`Vectors`, `Lloyd`, `Seeding`, `Cluster`).
4. **The embedding cache and response reordering** (`Cache`, `Reorder`).
5. **`.env` get, set and merge** (`EnvFile`).
6. **JSON schema to Gemini schema** (`Schema`).
7. **The scheduler, keyset pagination and identifier codecs** (`Scheduler`, `Paging`,
   `Numerals`, `Identifiers`).

Where the source updates state step by step the model does too: `Worker`, `Consumer`,
`Crawler`, `RateLimiter`, `VectorCache` and `Cached` are classes, and the k-means passes,
the reordering and the seeding work in place on arrays.

## What turned out false

* The comment on `processBatch` says one poison message cannot sink the batch. A job
  whose chunk index exceeds the column width passes `validate` (only crawl jobs are
  checked for it), and then fails the whole bulk write: its batch-mates lose the write
  and one attempt. `BatchRefinesOneByOneIff` gives the exact condition and
  `OversizedIndexSinksItsNeighbour` a batch.
* Workers guard their writes by content so that a row never gets another text's vector.
  The delta sync writes rows it read earlier by key alone, so a crawl in between leaves
  the old text's vector on the new text (`DeltaSyncMislabels`); `StepHonestIff` says
  exactly when a step keeps the tables honest.
* The limiter forgets a spent bucket if fifteen minutes do not refill the burst
  (`FaithfulIffStaleWindowRefillsBurst`). The wiring in use is on the safe side.
* `ParseEvidenceID` claims to reject ids that were not composed; a sign or leading zeros
  in the chunk pass (`AcceptedRecomposes`, `UncomposedIDsAreAccepted`).
* `CacheKey` claims distinct fields cannot collide; a NUL in a model name allows it
  (`KeysCollideIff` says exactly when, `MaterialIsInjective` that names without NUL are safe).
* `orderEmbeddings` misses a repeated index if the configured dimension is 0 and an
  embedding is null.
* A translated schema loses the null type, empty enums, lists that are not typed as
  strings and an item schema of `false`: the typed schema then accepts more
  (`LoneIsExactIff`, `TranslationMeans`; `NullTypeIsLost`, `UntypedEnumIsLost`).
* A scheduled source's wait group is said to track the current run; it also counts every
  run that has cleared its flag but is not done (`WaitCounterCounts`), and those can be
  any number, although at most one body is ever active.
* With one cluster, or whenever every point is nearest to the first seed, k-means never
  moves a centroid: the initial assignment of zeros reads as convergence, and points are
  scored against the random seed, not their mean (`SeedsStayIff`).
* Setting a `.env` key can set others: a newline or leading blank in the key always does,
  a newline in the value only if what follows assigns one (`OtherKeysUnchangedIff`;
  `BlankKeyLeaks` is the plainest case).
* A `.env` merge does not always leave the credentials it was given: an address, hash or
  secret holding a newline, or an address or secret ending in a carriage return, reads
  back as something else (`MergeSaidIff`).
* The padding loop of the k-means++ seeding is dead: the loop before it ends with
  exactly k centroids.

## How to read the model

* Time, tokens, vectors and scores are reals; rounding is not modelled. `math.Sqrt` is a
  function parameter with its defining property; random draws, map iteration order and
  scheduling are nondeterministic choices; the draws of the clustering are on record.
* JSON encoding of jobs is a codec parameter; where it matters it is required to be
  lossless. Digests are function parameters, for the cache required not to collide.
* A provider whose answer depends only on the text is a function `Provider`. A calm
  environment never shuts down and fails only where that function or an index out of
  range makes it.
* A Go slice that may be nil is an option; a byte string is a sequence of characters.
* What a fragment accepts is defined on the JSON it is written as, by JSON Schema 2020-12
  (Validation, sections 6.1.1, 6.1.2, 6.5.3; Core, sections 4.3.2, 10.3.1.2, 10.3.2.1)
  and without reference to the translation: seven type names, unknown ones accepting
  nothing, malformed keywords accepting nothing. What a typed schema accepts is defined
  on its own fields, empty lists and an unspecified type constraining nothing.

## Model

| member | source | states |
|---|---|---|
| `Protocol.NoJobLost` | stack/backend/internal/embedjob/embedjob.go:365-463 | in every reachable state of producers, broker, forwarders, workers and corpus, a confirmed job has a copy ready, a copy held by a delivery on an open channel, or a recorded fate of one of its deliveries that is true of it and earned: the provider misanswered that delivery, a call for it failed under a live context, or its chunk was written with a vector given for its text; lost acks, unconfirmed publishes, shutdown and channel loss at any point included |
| `Protocol.ClosedMeansWaiting` | stack/backend/internal/queue/queue.go:256-277 | once every channel is closed, every confirmed job without a fate is ready for the next consumer |
| `Protocol.DrainedMeansDecided` | stack/backend/internal/embedjob/embedjob.go:359-364 | an empty queue means every confirmed job has such a true and earned fate |
| `Protocol.FaultlessMeansStored` | stack/backend/internal/embedjob/embedjob.go:359-364 | if in a whole run no delivery was misanswered and no call for one failed, then once the queue is empty every confirmed readable job of a known version was stored, whatever shutdowns, lost acks, unconfirmed publishes and redeliveries there were |
| `Protocol.JobsCanComplete` | stack/backend/internal/embedjob/embedjob.go:365-463 | nothing stands in the way of a good job: for any readable job of the queue's version and an index its column can hold, a run exists that publishes it, delivers it, embeds its text, writes the vector to the row the job names, records it as stored and empties the queue |
| `Recovery.CanStillBeStored` | stack/backend/internal/embedjob/embedjob.go:359-463 | nothing gets stuck: from every reachable state, whatever shutdowns, failures, lost acks and duplicates came before, a confirmed readable job without a fate whose index its column can hold can still be delivered, embedded, written to its own row and recorded as stored |
| `Recovery.OriginsAreCurrent` | stack/backend/internal/queue/queue.go:195-213 | in every run, whatever was published has the queue's own version |
| `Protocol.OutcomeHasCause` | stack/backend/internal/embedjob/embedjob.go:619-641 | over all runs: a job dropped for its shape was misanswered in some step, one whose budget is spent had a failed call in some step, one recorded as stored was in a successful write |
| `Protocol.EvidenceHasCause` | stack/backend/internal/embedjob/embedjob.go:386-449 | what counts against a delivery, or for a chunk, in any reachable state goes back to a step that ended that way |
| `Protocol.RunKeepsBooks` | stack/backend/internal/queue/queue.go:169-193 | the invariant of all runs: queued copies belong to their job's lineage (same payload and priority, strictly higher attempt below the budget), respect the priority ceiling, and are held only through open channels; records are true, earned and of a real delivery; decisions are on record or covered by a later copy |
| `Protocol.AckKeepsCover` | stack/backend/internal/embedjob/embedjob.go:507-521 | enqueue before ack: acknowledging a decided delivery never removes the last trace of a job, because its outcome is on record or a copy with a higher attempt exists |
| `Protocol.CloseKeeps` | stack/backend/internal/queue/queue.go:249-255 | closing a channel returns everything it held to the queue and keeps every invariant |
| `Protocol.EnqueueKeeps` | stack/backend/internal/embedjob/embedjob.go:507-516 | republishing keeps every invariant in all its variants: confirmed, refused, and refused although queued |
| `Protocol.PublishKeeps` | stack/backend/internal/queue/queue.go:162-193 | publishing keeps the invariant: only a message within the priority ceiling is queued, and only a queued one is confirmed |
| `Protocol.DeliverKeeps` | stack/backend/internal/queue/queue.go:262-275 | handing a ready message to an open channel keeps every invariant |
| `Protocol.NackKeeps` | stack/backend/internal/queue/queue.go:81-89 | a nack that reaches the broker makes the message ready again and loses nothing |
| `Protocol.StageKeeps` | stack/backend/cmd/embedworker/adapter.go:36-45 | hand-offs between the forwarding goroutines, and their dropping a delivery at shutdown, lose nothing |
| `Protocol.RetryIsNext` | stack/backend/internal/embedjob/embedjob.go:640-662 | a retry belongs to the same job with a strictly higher attempt |
| `Protocol.StepHonestIff` | stack/backend/queries/evidence.sql:71-76 | after any step from honest tables no vector sits on text it was not computed from, if and only if the step is not a write by key alone onto a row whose text the vector was not computed from |
| `Protocol.TablesStayHonest` | stack/backend/internal/store/postgres/evidence_embed.go:493-501 | over all runs without such a write, whatever the interleaving of worker writes, failed writes that were committed, ingest, carry-forward, deletion, swap and the delta sync, no vector ever sits on text it was not computed from |
| `Protocol.DeltaSyncMislabels` | stack/backend/internal/wiki/delta.go:293-327 | a reachable state in which a crawl between the delta sync's read and its write leaves the old text's vector on the new text |
| `Protocol.IngestHonest` | stack/backend/queries/evidence.sql:11-23 | re-ingest keeps a vector only with unchanged content; carry-forward copies one only onto identical content |
| `Protocol.IngestSays` | stack/backend/internal/store/postgres/evidence_embed.go:188-204 | what each ingest step leaves in every row: an upsert keeps the vector exactly if the text is unchanged, a deletion takes just the named rows, carry-forward copies a live vector exactly onto the same text, a swap makes staging live and leaves it empty, and the other table is untouched (upsert: `queries/evidence.sql:11-27`; swap: lines 667-702) |
| `Protocol.DuplicatesHappen` | stack/backend/internal/queue/queue.go:162-168 | delivery is at least once and no more: a reachable state has one job waiting twice |
| `WorkerSteps.StartMirrors` | stack/backend/internal/queue/queue.go:262-275 | a fresh worker knows nothing that the protocol does not |
| `WorkerSteps.ReceiveIsStep` | stack/backend/cmd/embedworker/adapter.go:36-45 | receiving a delivery from the adapter is a step, after which the worker has it |
| `WorkerSteps.DispatchIsStep` | stack/backend/internal/embedjob/embedjob.go:261-280 | dispatching collected deliveries is a step |
| `WorkerSteps.EmbedIsStep` | stack/backend/internal/embedjob/embedjob.go:386-404 | a provider call for deliveries the worker has, whatever it answers, is a step, and what the worker has seen stays within what happened |
| `WorkerSteps.AliveIsStep` | stack/backend/internal/embedjob/embedjob.go:619-630 | so is finding the context alive: the failures of its deliveries count |
| `WorkerSteps.WriteIsStep` | stack/backend/internal/store/postgres/evidence_embed.go:493-541 | whatever table a bulk write leaves, on success, failure or committed failure, is one a write step leaves, and the chunks it may write are those the protocol allows |
| `WorkerSteps.UpsertIsStep` | stack/backend/queries/evidence.sql:25-39 | the same for a whole-row upsert |
| `WorkerSteps.DecideIsStep` | stack/backend/internal/embedjob/embedjob.go:540-550 | what the environment lets a worker decide is a step of the protocol, evidence included, so the verified worker runs inside it |
| `WorkerSteps.ConfirmedEnqueueIsStep` | stack/backend/cmd/embedworker/adapter.go:52-54 | the same for a confirmed republish |
| `WorkerSteps.RefusedEnqueueIsStep` | stack/backend/cmd/embedworker/adapter.go:52-54 | the same for a failed republish, queued or not |
| `WorkerSteps.AckIsStep` | stack/backend/internal/queue/queue.go:67-76 | the same for an ack, whether or not it reaches the broker |
| `WorkerSteps.NackIsStep` | stack/backend/internal/queue/queue.go:78-89 | the same for a nack |
| `WorkerSteps.ShutdownIsStep` | stack/backend/internal/embedjob/embedjob.go:243-260 | a shutdown is a step |
| `WorkerSteps.OthersKeepMirror` | stack/backend/internal/queue/queue.go:262-275 | no step of other workers, producers, the broker or ingest changes what a worker knows of its deliveries or takes back what it has seen |
| `Rows.OneByOneSaid` | stack/backend/internal/embedjob/embedjob.go:570-602 | written out on the job's fields and the two tables: after calm one-by-one handling the table a job's staging flag chooses holds, in the row of its source, external id and chunk index, the provider's vector for the job's text whenever the row carries that text; every other row is as before; each delivery has the fate its version, body, attempt and answer give it; and just the retries were sent, in order |
| `Rows.BatchSaid` | stack/backend/internal/embedjob/embedjob.go:365-463 | the same of a batch; only if every text was answered and some job's index is beyond its column does each job that would have been stored fail instead, with staging untouched, and live untouched too if such a job is meant for it |
| `Rows.EffectIsFate` | stack/backend/internal/embedjob/embedjob.go:619-662 | a delivery's fate, message and chunk from its fields alone: version known, body a valid job, text answered, vector of 1024 components, index within 32 bits, attempts left |
| `Consumer.Consumer.Run` | stack/backend/internal/embedjob/embedjob.go:243-349 | exactly one settlement: by the time it returns, each received delivery had one Ack or Nack, an Ack only with a true and earned outcome, a Nack only after a shutdown or an unconfirmed republish; batches of 1..batchSize leave in arrival order, full ones but for one per timer fire and the tail, and what was not dispatched was nacked; without a shutdown nothing is left over; with no failures the rows and fates are, written out, those of each delivery's own job |
| `Consumer.Consumer.Await` | stack/backend/internal/embedjob/embedjob.go:306-337 | one round of the loop keeps the invariant of every wait: fewer than batchSize held, the held batch non-empty exactly when the timer is armed, at most concurrency batches in flight, dispatched and held batches concatenate to what was received; it receives one delivery, takes a fire, or ends because the stream did or after a shutdown |
| `Consumer.Consumer.Collect` | stack/backend/internal/embedjob/embedjob.go:306-337 | the loop ends, having received the whole stream unless there was a shutdown, with every delivery accounted for |
| `Consumer.Consumer.Flush` | stack/backend/internal/embedjob/embedjob.go:261-280 | dispatches just the held batch, or fails with it intact only after a shutdown |
| `Consumer.Consumer.Add` | stack/backend/internal/embedjob/embedjob.go:285-299 | takes in one delivery and restores the loop invariant, dispatching a full batch |
| `Consumer.Consumer.RequeueHeld` | stack/backend/internal/embedjob/embedjob.go:538-544 | after a shutdown every held delivery is nacked, once |
| `Consumer.Consumer.Drain` | stack/backend/internal/embedjob/embedjob.go:339-348 | embeds the tail, or nacks it after a shutdown, and waits for every handler |
| `Consumer.Consumer.FinishOne` | stack/backend/internal/embedjob/embedjob.go:272-279 | a handler finishing in any order keeps the accounting |
| `Consumer.Consumer.constructor` | stack/backend/internal/embedjob/embedjob.go:173-182 | clamps concurrency and batch size to at least one; starts idle |
| `Consumer.Timer.StopAndDrain` | stack/backend/internal/embedjob/embedjob.go:224-231 | draining only when Stop came too late is enough: afterwards nothing counts down and no fire is left unread, so the next Reset starts clean |
| `Consumer.PartitionMove` | stack/backend/internal/embedjob/embedjob.go:539-544 | a block of pending deliveries that is settled moves to the settled ones, none lost or counted twice |
| `Consumer.BatchInStep` | stack/backend/internal/embedjob/embedjob.go:365-463 | each batch keeps the world equal to one-by-one handling of the settled deliveries |
| `OrderFree.OrderIsInvisible` | stack/backend/internal/embedjob/embedjob.go:105-113 | handling the same deliveries in another order leaves the same tables and fates and sends the same messages |
| `OrderFree.SameChunksSameTable` | stack/backend/internal/store/postgres/evidence_embed.go:493-501 | writes of the same chunks in any order leave the same table |
| `Worker.Worker.ProcessBatch` | stack/backend/internal/embedjob/embedjob.go:365-463 | every delivery of the batch is settled by exactly one call, acknowledged only for a reason true of it and earned, returned only after a shutdown or an unconfirmed republish; in a calm environment the rows, fates and retries are, written out on the jobs' fields, those of BatchSaid |
| `Worker.Worker.DropUnreadable` | stack/backend/internal/embedjob/embedjob.go:366-381 | exactly the deliveries of unknown version or unreadable body are acknowledged, the others kept in order |
| `Worker.Worker.EmbedBatch` | stack/backend/internal/embedjob/embedjob.go:386-404 | one provider call; requeue at shutdown, fall back on failure, and settle each exactly once |
| `Worker.Worker.Fallback` | stack/backend/internal/embedjob/embedjob.go:401-403 | embeds each delivery alone: the rows, fates and retries are, written out, those of each delivery's own job |
| `Worker.Worker.CheckShapes` | stack/backend/internal/embedjob/embedjob.go:406-433 | drops exactly the misanswered deliveries, missing vectors included, each recorded as such, and sorts the rest by table, each chunk carrying its own job's row, text and table |
| `Worker.Worker.WriteAndSettle` | stack/backend/internal/embedjob/embedjob.go:438-462 | either every delivery is acknowledged as stored with its own chunk, or every one meets the fate of a failure; after a shutdown either all stored or all nacked |
| `Worker.Worker.WriteChunks` | stack/backend/internal/embedjob/embedjob.go:469-487 | live half first, then staging; success means both halves were written; a failed staging half leaves the live half written |
| `Worker.Worker.FailAll` | stack/backend/internal/embedjob/embedjob.go:446-448 | every delivery of a failed write is nacked or has exactly the outcome the decision on its failure says |
| `Worker.Worker.AckAll` | stack/backend/internal/embedjob/embedjob.go:460-462 | acknowledges each delivery as stored with its own chunk, which requires that the chunk was written |
| `Worker.Worker.RequeueAll` | stack/backend/internal/embedjob/embedjob.go:540-552 | nacks each delivery, once and only after a shutdown |
| `Worker.Worker.EmbedAndWriteOne` | stack/backend/internal/embedjob/embedjob.go:570-602 | the single-job path settles the delivery once; in a calm environment the job's own row gets the provider's vector and no other row changes |
| `Worker.Worker.FailOne` | stack/backend/internal/embedjob/embedjob.go:619-662 | shutdown nacks; otherwise the delivery is nacked or has exactly the outcome of the decision: spent budget, unencodable, or its retry sent |
| `Worker.Worker.Resend` | stack/backend/internal/embedjob/embedjob.go:507-516 | acknowledged only if the retry was published and confirmed, nacked otherwise |
| `Worker.Worker.Drop` | stack/backend/internal/embedjob/embedjob.go:523-527 | one ack, carrying a reason true of the delivery and earned |
| `Worker.Worker.Return` | stack/backend/internal/embedjob/embedjob.go:532-536 | one nack, allowed only after a shutdown or a refused republish |
| `Settlement.NacksHaveCause` | stack/backend/internal/embedjob/embedjob.go:532-552 | a delivery that went back did so after a shutdown or because its republish was not confirmed |
| `Evidence.PartIsGiven` | stack/backend/internal/embedjob/embedjob.go:406-433 | whatever is written to a table was answered by the provider for that very text |
| `Environment.SettlesCompose` | stack/backend/internal/embedjob/embedjob.go:365-463 | settling two groups in turn settles their disjoint union with one call each, and forgets nothing seen |
| `Environment.Env.SetChunks` | stack/backend/internal/store/postgres/evidence_embed.go:493-541 | one content-guarded statement for chunks of held deliveries with vectors the provider gave; an out-of-range index is refused before any SQL, other failures may still have committed |
| `Environment.Env.UpsertChunk` | stack/backend/queries/evidence.sql:25-39 | a whole-row upsert, content and vector together, which in a calm environment fails exactly for an out-of-range index |
| `Environment.Env.Enqueue` | stack/backend/internal/queue/queue.go:162-193 | requires a failure that counts; a priority above the ceiling never leaves the process; an error may hide a queued message |
| `Environment.Env.Ack` | stack/backend/internal/queue/queue.go:67-76 | requires a recorded decision; settles the delivery whether or not the broker answers |
| `Environment.Env.Nack` | stack/backend/internal/queue/queue.go:78-89 | requires a shutdown or a refused republish; returns the delivery |
| `Batching.BatchRefinesOneByOneIff` | stack/backend/internal/embedjob/embedjob.go:359-463 | a batch leaves tables, messages and fates as one-by-one handling would if and only if no out-of-range chunk index travels with a chunk that would fit |
| `Batching.InRangeIndicesRefine` | stack/backend/internal/crawljob/crawljob.go:49-50 | with every index within the column width, the check only crawl jobs make, batching always refines |
| `OrderFree.BadInputIsIsolated` | stack/backend/internal/embedjob/embedjob.go:396-404 | if the provider rejects one input of a batch, every other delivery ends exactly as in the batch without it, the sent messages compared too, if and only if that smaller batch does not sink |
| `Batching.OversizedIndexSinksItsNeighbour` | stack/backend/internal/embedjob/embedjob.go:53-68 | a concrete batch in which an index of 2^31 costs its valid neighbour the write and the job |
| `Batching.OneByOneIsEffects` | stack/backend/internal/embedjob/embedjob.go:570-602 | handled one by one, no delivery influences another's effect |
| `Batching.SettledAt` | stack/backend/internal/embedjob/embedjob.go:365-463 | after a batch each delivery's recorded fate is its own effect's outcome |
| `BatchOrder.SettlersFirst` | stack/backend/internal/embedjob/embedjob.go:366-381 | dropping the unprocessable deliveries before all others is invisible in the result |
| `BatchOrder.BulkThenSettle` | stack/backend/internal/embedjob/embedjob.go:438-462 | one bulk write followed by the acks equals write-and-ack one at a time |
| `BatchOrder.SunkLeavesTables` | stack/backend/internal/embedjob/embedjob.go:440-449 | after a failed write the retries touch no table |
| `Corpus.PutAllIsBulk` | stack/backend/internal/store/postgres/evidence_embed.go:524-532 | writing chunk by chunk is an outcome the bulk UPDATE may have |
| `Corpus.BulkIsPutAll` | stack/backend/internal/store/postgres/evidence_embed.go:524-532 | with vectors that depend only on the text, the bulk UPDATE has no other outcome, whichever duplicate the database picks |
| `Corpus.BulkWriteIsIdempotent` | stack/backend/internal/store/postgres/evidence_embed.go:473-483 | a redelivered batch changes nothing |
| `Corpus.BulkWriteKeepsHonest` | stack/backend/internal/store/postgres/evidence_embed.go:496-499 | the content guard keeps every vector with the text it was computed from |
| `Corpus.WriteByKeyKeepsHonestIff` | stack/backend/queries/evidence.sql:71-76 | without the guard that survives if and only if the row, if any, carries a text the vector was computed from |
| `Corpus.WrittenChunksLand` | stack/backend/internal/store/postgres/evidence_embed.go:476-480 | after the statement, a row with the chunk's text has a vector |
| `Jobs.RetriesAreBounded` | stack/backend/internal/embedjob/embedjob.go:619-641 | over any history of failures, refused republishes and shutdowns, at most max(1, maxAttempts - a) failures are counted from attempt a |
| `Jobs.BudgetIsReached` | stack/backend/internal/embedjob/embedjob.go:630-641 | the bound is attained, and the job is then dropped |
| `Jobs.AttemptCountsRepublishes` | stack/backend/internal/embedjob/embedjob.go:643-662 | attempt grows by exactly the confirmed republishes; the payload never changes |
| `Jobs.NextAttempt` | stack/backend/internal/embedjob/embedjob.go:627-644 | the incremented counter stays within the budget, so it cannot overflow |
| `Jobs.MakeSettings` | stack/backend/internal/embedjob/embedjob.go:173-195 | at least one attempt; an empty version list accepts every version |
| `Crawl.CrawlSaid` | stack/backend/internal/crawljob/crawljob.go:247-288 | after calm handling the live row a good crawl job names holds its text and the provider's vector, whether or not the row was there; of several jobs for one row the last one's; every other row, the staging table and all fates are as their fields say |
| `Crawl.Crawler.Run` | stack/backend/internal/crawljob/crawljob.go:183-204 | at most one received delivery is left unsettled, only after a shutdown while waiting for a slot, and it is still held for the closing channel to requeue; every other is settled by exactly one call, for a reason true of it and earned; in a calm environment nothing is left and each row is as CrawlSaid says for the deliveries in the order they finished |
| `Crawl.Crawler.Handle` | stack/backend/internal/crawljob/crawljob.go:209-229 | settles the delivery once, acknowledging only for a reason true of it and earned; in a calm environment the row the job names holds its text and vector, and no other row changes |
| `Crawl.Crawler.FinishOne` | stack/backend/internal/crawljob/crawljob.go:195-200 | a handler finishing in any order keeps the accounting |
| `RateLimit.FaithfulIffStaleWindowRefillsBurst` | stack/backend/internal/middleware/ratelimit.go:57-107 | the bounded map behaves like one ordinary bucket per key, for every call sequence, if and only if a stale window refills the burst |
| `RateLimit.BoundedMapRefinesBuckets` | stack/backend/internal/middleware/ratelimit.go:57-107 | under that condition, effective tokens and verdicts agree with the per-key buckets through sweeps and evictions, except that new keys may be turned away from a full map |
| `RateLimit.LoginLimiterIsFaithful` | stack/backend/cmd/server/main.go:142-144 | the login limiter's own parameters meet the condition |
| `RateLimit.SlowRefillIsUnfaithful` | stack/backend/internal/middleware/ratelimit.go:95-107 | without the condition a run exists in which the sweep forgets a spent bucket |
| `RateLimit.ThroughputBound` | stack/backend/internal/middleware/ratelimit.go:54-75 | in any window [s,t] a key is granted at most burst + limit*(t-s) attempts, even if its bucket is dropped and recreated inside it |
| `RateLimit.GrantedIff` | stack/backend/internal/middleware/ratelimit.go:54-75 | a limiter without buckets: a call that is not turned away is granted if and only if, for every earlier instant, one more grant stays within burst + limit * the time since |
| `RateLimit.TokensAreAccounted` | stack/backend/internal/middleware/ratelimit.go:54-75 | the converse of the bound: some instant exists from which the grants made and the tokens left use up all of burst plus refill, so no token is withheld |
| `RateLimit.LevelClimbs` | stack/backend/internal/middleware/ratelimit.go:70-74 | tokens return at exactly the configured rate, from whatever is left, up to the burst |
| `RateLimit.GrantsSpendTokens` | stack/backend/internal/middleware/ratelimit.go:70-74 | grants in a window plus the tokens left never exceed burst plus refill |
| `RateLimit.CapacityBound` | stack/backend/internal/middleware/ratelimit.go:62-69 | the map never exceeds its cap in any run |
| `RateLimit.IdleAreForgotten` | stack/backend/internal/middleware/ratelimit.go:97-107 | in every run, after each call, no bucket is kept that was last granted thirty minutes ago or more, and the last sweep is less than fifteen minutes old |
| `RateLimit.TurnedAwayOnlyWhenBusy` | stack/backend/internal/middleware/ratelimit.go:77-93 | a newcomer is turned away only while a full sample of clients is being throttled |
| `RateLimit.StepKeepsAgreement` | stack/backend/internal/middleware/ratelimit.go:57-75 | one call preserves agreement with the per-key buckets |
| `RateLimit.SweepKeepsAgreement` | stack/backend/internal/middleware/ratelimit.go:97-107 | dropping idle buckets is invisible |
| `RateLimit.DroppingFullIsInvisible` | stack/backend/internal/middleware/ratelimit.go:77-86 | dropping a full bucket is invisible |
| `RateLimit.RateLimiter.Allow` | stack/backend/internal/middleware/ratelimit.go:57-75 | every answer extends a run of the specification, so all results about runs hold of the object; the map stays within its cap; for parameters on the safe side a caller that is not turned away is let through if and only if one more grant keeps every window within burst plus refill |
| `RateLimit.RateLimiter.EvictRefilled` | stack/backend/internal/middleware/ratelimit.go:80-93 | evicts one full bucket, or has seen a sample of busy ones |
| `RateLimit.RateLimiter.Sweep` | stack/backend/internal/middleware/ratelimit.go:97-107 | drops exactly the idle buckets, at most once per window |
| `RateLimit.RateLimiter.Decide` | stack/backend/internal/middleware/ratelimit.go:57-75 | the verdict and the new map are one specified step |
| `Cluster.Cluster` | stack/backend/internal/cluster/cluster.go:49-87 | errors exactly on unusable input; the seeds are those the recorded draws pick; each round moves every centroid with members to the direction of their sum, leaves it if that sum is zero, gives an empty one the worst-served point, and loses no similarity; the rounds end at the cap or exactly when an assignment repeats; each point is put to its nearest final centroid and scored by its cluster's share of the largest times (cosine + 1) / 2 |
| `Cluster.SameDrawsSameClusters` | stack/backend/internal/cluster/cluster.go:49-87 | reproducible: equal vectors, settings and draws give equal assignments and importances, whatever the run |
| `Cluster.Iterate` | stack/backend/internal/cluster/cluster.go:72-84 | in every round each centroid moves to its members' direction or is reseeded, and similarity is not lost; it stops at the cap or exactly when the assignment repeats the one before |
| `Cluster.RoundsAscend` | stack/backend/internal/cluster/cluster.go:73-78 | over any stretch of rounds the total similarity does not fall |
| `Cluster.SeedsStayIff` | stack/backend/internal/cluster/cluster.go:72-76 | the centroids stay at the seeds if and only if every point is nearest to the first seed; always so for one cluster |
| `Lloyd.AssignAscends` | stack/backend/internal/cluster/cluster.go:176-193 | assigning to the nearest centroid never lowers the total similarity |
| `Lloyd.RecomputeAscends` | stack/backend/internal/cluster/cluster.go:199-220 | recomputing keeps every centroid a unit vector and never lowers the total similarity, with cancelled sums and reseeded empty clusters included |
| `Lloyd.RecomputeMoves` | stack/backend/internal/cluster/cluster.go:199-220 | each centroid with members moves to the unit vector along their sum, which no unit vector serves better, and stays exactly if the sum is zero; one without members becomes the point least similar to its centroid as the moves before it left them |
| `Lloyd.MoveOneCentroid` | stack/backend/internal/cluster/cluster.go:213-219 | moving one centroid changes the sum over points by what its members' sum gains |
| `Lloyd.NormalizedOrAscends` | stack/backend/internal/cluster/cluster.go:280-295 | moving to the normalized sum never serves the members worse than staying |
| `Lloyd.NormalizedOrIs` | stack/backend/internal/cluster/cluster.go:280-295 | a non-zero sum gives its own direction, the best unit vector for it; a zero sum the prior |
| `Lloyd.NearestIsClosest` | stack/backend/internal/cluster/cluster.go:172-175 | the highest cosine is the smallest Euclidean distance |
| `Lloyd.BestOf` | stack/backend/internal/cluster/cluster.go:179-186 | a highest-cosine centroid, the lowest index on a tie |
| `Lloyd.WorstOf` | stack/backend/internal/cluster/cluster.go:226-234 | the point least similar to its own centroid, the lowest index on a tie |
| `Lloyd.AssignToNearest` | stack/backend/internal/cluster/cluster.go:176-193 | in place: every point gets its nearest centroid, and changed says whether any assignment differs |
| `Lloyd.RecomputeCentroids` | stack/backend/internal/cluster/cluster.go:199-220 | in place: every centroid with members moves to the direction of their sum, or stays for a zero sum; every other becomes the worst-served point, each move seeing those before it |
| `Lloyd.ReseedEmptyCentroid` | stack/backend/internal/cluster/cluster.go:226-236 | copies the worst-served point and changes no other centroid |
| `Lloyd.NormalizeInto` | stack/backend/internal/cluster/cluster.go:283-295 | the direction of the sum, or the prior exactly for a zero sum |
| `Lloyd.MemberSums` | stack/backend/internal/cluster/cluster.go:201-212 | per-cluster sums and counts |
| `Vectors.CauchySchwarz` | stack/backend/internal/cluster/cluster.go:263-269 | the inequality behind the ascent |
| `Vectors.NormalizedIsBest` | stack/backend/internal/cluster/cluster.go:283-295 | no unit vector has a larger product with a vector than its own direction |
| `Vectors.CosineBounds` | stack/backend/internal/cluster/cluster.go:256-257 | cosines of unit vectors lie in [-1, 1], so the clamp never acts |
| `Seeding.Seed` | stack/backend/internal/cluster/cluster.go:125-170 | returns the k input units the recorded draws pick, the first uniformly and each other by its squared distance to those before; pairwise different whenever the input holds k different points and no draw is exactly zero |
| `Seeding.SameDrawsSameSeeds` | stack/backend/internal/cluster/cluster.go:125-170 | equal draws pick equal seeds |
| `Seeding.PickWeighted` | stack/backend/internal/cluster/cluster.go:140-150 | always finds its index in the scan: index i is picked by exactly an interval of targets of length dist2[i] |
| `Seeding.UpdateDistances` | stack/backend/internal/cluster/cluster.go:156-161 | keeps dist2 equal to the minimum squared distance to the chosen centroids |
| `Seeding.PickNext` | stack/backend/internal/cluster/cluster.go:136-154 | one draw: the first index whose cumulated distance reaches draw * total, or a uniform index if all distances are zero; a new seed unless the draw was zero or the input is covered |
| `Seeding.MinDistZero` | stack/backend/internal/cluster/cluster.go:131-134 | a distance is zero exactly for points already chosen |
| `Cluster.Normalize` | stack/backend/internal/cluster/cluster.go:92-118 | succeeds exactly when all vectors are non-zero and of one positive dimension, else names the first bad one |
| `Cluster.NormalizeOne` | stack/backend/internal/cluster/cluster.go:102-115 | a unit vector in the same direction, or none exactly for the zero vector |
| `Cluster.ScoreAll` | stack/backend/internal/cluster/cluster.go:242-261 | each point's importance is its cluster's member count over the largest one's times (cosine + 1) / 2, within [0,1], with no division by zero |
| `Cluster.ScoredIsRanked` | stack/backend/internal/cluster/cluster.go:242-261 | importance, cluster and ties from the points and centroids alone: members counted, largest cluster found, cosine not recomputed through the code |
| `Cluster.SomePointHasFullProminence` | stack/backend/internal/cluster/cluster.go:247-258 | some point scores with prominence 1 |
| `Cache.Cached.Embed` | stack/backend/internal/embed/cache.go:215-248 | every vector equals the filler's for its position, hits, misses and duplicates mixed; the cache stays consistent and gains exactly the missing keys; a failure changes nothing; a nil filler succeeds exactly when every key is present and otherwise names the first text that is not; results never alias the cache |
| `Cache.Cached.EmbedTwice` | stack/backend/internal/embed/cache.go:225-227 | an immediate repeat makes no filler call |
| `Cache.Cached.Lookup` | stack/backend/internal/embed/cache.go:220-228 | copies the hits into place and lists the misses in order |
| `Cache.Cached.Store` | stack/backend/internal/embed/cache.go:243-246 | stores each filled vector under its own key and puts it in its own slot |
| `Cache.VectorCache.Get` | stack/backend/internal/embed/cache.go:98-106 | a fresh copy, so callers cannot change the cache |
| `Cache.VectorCache.Set` | stack/backend/internal/embed/cache.go:109-114 | stores a fresh copy and marks the cache dirty |
| `Cache.FillKeepsConsistent` | stack/backend/internal/embed/cache.go:243-245 | writing one vector keeps every cached vector right for its model, input type and text |
| `Cache.MaterialIsInjective` | stack/backend/internal/embed/cache.go:32-37 | the NUL-separated key material separates models, input types and normalized texts, for models without NUL |
| `Cache.KeysCollideIff` | stack/backend/internal/embed/cache.go:32-37 | two model and input-type pairs share some key material if and only if one header goes on from the other with text in normal form |
| `Cache.NulInModelCollides` | stack/backend/internal/embed/cache.go:32-37 | which a NUL in a model name does allow, for either input type |
| `Cache.SameNormalFormIffSameWords` | stack/backend/internal/embed/cache.go:25-30 | normal forms agree exactly when the words agree; normalizing is idempotent |
| `Cache.FieldsAreRuns` | stack/backend/internal/embed/cache.go:28-30 | the words of a text are exactly its maximal runs of characters that are not white space, in order |
| `Cache.SameNormalFormIff` | stack/backend/internal/embed/cache.go:25-30 | two texts share a normal form if and only if they have the same such runs |
| `Cache.NormalIffTidy` | stack/backend/internal/embed/cache.go:25-30 | a text is its own normal form if and only if its only white space is single blanks between other characters; every normal form is such a text |
| `Cache.FieldsOfJoin` | stack/backend/internal/embed/cache.go:28-30 | splitting joined words gives the words back |
| `Reorder.AcceptsExactlyPermutations` | stack/backend/internal/embed/embed.go:190-211 | for a non-zero dimension success means the indices are a permutation, every slot is filled and holds its own entry; every well-formed permutation succeeds |
| `Reorder.EveryIndexOccurs` | stack/backend/internal/embed/embed.go:193-209 | pigeonhole: n distinct indices below n are all of them |
| `Reorder.OrderOfResponseIsIrrelevant` | stack/backend/internal/embed/embed.go:190-193 | permuting the response does not change the result |
| `Reorder.PermutationIffDimensionNotZero` | stack/backend/internal/embed/embed.go:202-207 | success implies a permutation for all responses if and only if the dimension is not zero |
| `Reorder.PlaceAllSays` | stack/backend/internal/embed/embed.go:193-211 | success means no entry is out of range, taken already or of the wrong length; otherwise the error names the first entry that is, with the first of these faults it has |
| `Reorder.OrderEmbeddings` | stack/backend/internal/embed/embed.go:193-211 | fills the slots in place; fails with a wrong count, or with the fault of the first entry that has one |
| `EnvFile.GetAfterSetIff` | stack/backend/cmd/bootstrap/main.go:211-244 | reading back gives the written value if and only if the key has no newline or leading blank and the value no newline or trailing carriage return |
| `EnvFile.OtherKeysUnchangedIff` | stack/backend/cmd/bootstrap/main.go:222-244 | every other key keeps its value in every file if and only if the key has no equals sign, newline or leading blank and no further line of the value assigns another key |
| `EnvFile.UpdatedLines` | stack/backend/cmd/bootstrap/main.go:226-244 | every other line is preserved, in the replacing case and all three appending ones |
| `EnvFile.LastWriteWins` | stack/backend/cmd/bootstrap/main.go:226-244 | of two writes only the second remains |
| `EnvFile.SetEnvValue` | stack/backend/cmd/bootstrap/main.go:226-244 | the loop computes the specified content |
| `EnvFile.Merge` | stack/backend/cmd/bootstrap/main.go:137-198 | for credentials without a newline or trailing carriage return: the address, the quoted hash, the secret and the placeholders go exactly to those of the five keys that are absent, empty or at the template's default; every other value stays; the keys are reported accordingly; a needed credential that is missing fails the merge, the first such one in order |
| `EnvFile.MergeSaidIff` | stack/backend/cmd/bootstrap/main.go:137-198 | all of that holds for every current file and template if and only if the credentials are so |
| `EnvFile.SecondMergeChangesNothing` | stack/backend/cmd/bootstrap/main.go:133-137 | a second merge, with any or no inputs, succeeds and leaves the file as it is |
| `EnvFile.AllSet` | stack/backend/cmd/bootstrap/main.go:200-205 | after a merge every managed key is set |
| `EnvFile.OthersUntouched` | stack/backend/cmd/bootstrap/main.go:133-136 | a merge leaves every other key's value alone |
| `EnvFile.SplitJoin` | stack/backend/cmd/bootstrap/main.go:229-233 | splitting joined lines gives the lines back |
| `Schema.TranslationIsExact` | stack/backend/internal/llm/gemini.go:184-226 | for every supported fragment of type, enum, required, properties and items at any nesting, the typed schema accepts exactly the values that JSON Schema lets the fragment accept |
| `Schema.LoneIsExactIff` | stack/backend/internal/llm/gemini.go:190-226 | support is as weak as it can be: a fragment without two of the keywords at one node is translated exactly if and only if it is supported |
| `Schema.TranslationMeans` | stack/backend/internal/llm/gemini.go:190-226 | for every fragment at all, the typed schema accepts exactly what JSON Schema lets the readable part of the fragment accept |
| `Schema.NullTypeIsLost` | stack/backend/internal/llm/gemini.go:231-248 | the seventh type is lost: null alone becomes anything |
| `Schema.UntypedEnumIsLost` | stack/backend/internal/llm/gemini.go:198-200 | an enum whose list is not typed as strings is lost, though it holds only strings |
| `Schema.TranslationIsLenient` | stack/backend/internal/llm/gemini.go:184-189 | with any further keywords anywhere it accepts a superset |
| `Schema.DescriptionIsKept` | stack/backend/internal/llm/gemini.go:190-226 | descriptions survive at every depth, and each property and item schema is translated in its place |
| `Schema.MaxItemsIsLost` | stack/backend/internal/claimdecomp/claimdecomp.go:176-184 | maxItems is lost in translation |
| `Schema.EmptyEnumIsLost` | stack/backend/internal/llm/gemini.go:198-200 | so is an empty enum |
| `Schema.SchemaFromJSON` | stack/backend/internal/llm/gemini.go:190-226 | fails exactly when some property at any depth is not an object; else computes the translation |
| `Schema.SchemaFromProperties` | stack/backend/internal/llm/gemini.go:173-182 | the same for the top-level object |
| `Schema.PropertiesFromJSON` | stack/backend/internal/llm/gemini.go:204-217 | translates the properties in any order with one result |
| `Scheduler.RunsNeverOverlap` | stack/backend/internal/schedule/scheduler.go:52-84 | per source at most one run body is active in every interleaving; every decided tick is one run or one skip; the wait counter never underflows |
| `Scheduler.ReturnedMeansFinished` | stack/backend/internal/schedule/scheduler.go:35-45 | once Run has returned every started run has finished and nothing can start another |
| `Scheduler.CanAlwaysReturn` | stack/backend/internal/schedule/scheduler.go:35-84 | no deadlock: from every reachable state, once cancelled, every source can finish its runs and return and Run with them |
| `Scheduler.SkipsExactlyWhileRunning` | stack/backend/internal/schedule/scheduler.go:71-75 | a tick is skipped exactly while the previous run has not cleared its flag |
| `Scheduler.WaitCounterCounts` | stack/backend/internal/schedule/scheduler.go:77-82 | in every reachable state the wait counter is the run under way plus the runs that cleared their flag but are not done, so it tracks the current run if and only if there are none |
| `Scheduler.WaitCounterIsUnbounded` | stack/backend/internal/schedule/scheduler.go:77-82 | of which there can be any number, although bodies never overlap |
| `Scheduler.MoveKeepsSound` | stack/backend/internal/schedule/scheduler.go:52-84 | each atomic step keeps the flag, the counters and the run states in balance |
| `Paging.ReadEmbedded` | stack/backend/cmd/wikicluster/main.go:135-156 | terminates and returns every row after the start cursor exactly once, in order; a bad batch size is an error |
| `Paging.StartIsBelowAllIff` | stack/backend/internal/domain/evidence_chunk.go:89-98 | paging misses no row if and only if every row has a source above the empty one, or the empty source and an external id above the empty one, or both empty and a chunk index above zero |
| `Paging.WriteClustering` | stack/backend/cmd/wikicluster/main.go:160-168 | writes every row exactly once, in order, in groups of exactly batch rows but for the last; a failure leaves the groups before it |
| `Paging.AfterPrefix` | stack/backend/internal/store/postgres/evidence_cluster.go:12-24 | in an ordered table the rows after the last key of a page are the rest |
| `Identifiers.ParseInvertsComposeIff` | stack/backend/internal/domain/evidence.go:20-54 | an id is kind:source:chunk, and parsing inverts composing if and only if the kind is claim or evidence, the source non-empty and the chunk non-negative |
| `Identifiers.ParseSays` | stack/backend/internal/domain/evidence.go:29-54 | what three parts read as, and which fault is reported first: kind, source, unreadable chunk, negative chunk |
| `Identifiers.NoPartsIff` | stack/backend/internal/domain/evidence.go:29-38 | an id has a bad shape if and only if it lacks two colons |
| `Identifiers.AcceptedRecomposes` | stack/backend/internal/domain/evidence.go:24-54 | an accepted id recomposes to one with the same reading; to itself if and only if what follows its last colon has no sign and no leading zero |
| `Identifiers.UncomposedIDsAreAccepted` | stack/backend/internal/domain/evidence.go:24-28 | ids that were never composed are accepted |
| `Identifiers.EncodeIsInjective` | stack/backend/internal/domain/datapoint.go:133-140 | the length-prefixed encoding is injective |
| `Identifiers.SeriesPageID` | stack/backend/internal/domain/datapoint.go:132-145 | feeds source, dataset and key, each as length:text, to the hash and clears the sign bit |
| `Identifiers.PeriodIndexIsFaithful` | stack/backend/internal/domain/datapoint.go:153-167 | indices are equal exactly for the same year and slot, sort by year then slot, and lie in [100, 999924] |
| `Identifiers.RenderedPeriodReads` | stack/backend/internal/domain/datapoint.go:159-193 | every published period form reads back as its year and slot |
| `Identifiers.PeriodSays` | stack/backend/internal/domain/datapoint.go:169-193 | exactly which texts are periods, and the year and slot of each: numerals in range, a month or a Q and a quarter after the first hyphen |
| `Identifiers.RenderedPeriodIndex` | stack/backend/internal/domain/datapoint.go:147-167 | a published period's index is year * 100 plus 0, the month, or 20 + the quarter |
| `Identifiers.DistinctPeriodsDistinctIndices` | stack/backend/internal/domain/datapoint.go:147-151 | distinct periods never share an index |
| `Numerals.AtoiOfItoa` | stack/backend/internal/domain/evidence.go:46-49 | a written number reads back |
| `Numerals.DigitsOfValue` | stack/backend/internal/domain/evidence.go:46-49 | a canonical numeral is what its value is written as |

## Left out

- In `Consumer` a batch runs from start to end while the loop waits; the interleaving of
  several batches' calls, other workers and ingest is covered by `Protocol`.
- `Protocol` delivers any ready message, not the highest priority first, and ignores
  prefetch: it allows more runs than the broker does.
- `Environment` changes the tables only through the worker's own writes; concurrent
  ingest is in `Protocol`, and `WorkerSteps` takes each write from the protocol's table.
- `Protocol` lets a write by key carry any vector and any index, which allows more than
  the delta sync's own checks do; its deletions and trims are `Delete` steps.
- Protocol.DrainedMeansDecided: says stored jobs had a successful write, not that the row
  still has a vector later, because a re-ingest that changes the text and changes it back
  clears the vector and publishes a fresh job.
- Consumer.Consumer.Run: compares the sent messages as a multiset, because retries are
  published in the order the handlers finish.
- Seeding.Seed: distinct seeds exclude a random draw of exactly zero, which picks index 0
  whatever its distance.
- Schema.TranslationIsExact: says nothing of a fragment one of whose keywords hides that
  another is lost; what such a fragment's translation accepts is in TranslationMeans.
- Schema.TranslationMeans: the keywords outside the five are in TranslationIsLenient.
- Paging.WriteClustering: with rows to write it takes a batch size of at least one, as the
  configuration enforces; on zero the source's loop never ends and on less it panics.
- EnvFile.Merge: keys given the placeholder are reported among the filled ones, not apart.
- Cache.Cached.Embed: assumes digests do not collide and model names hold no NUL.
- Rows of `units`, `centroids` and `sums` are values replaced as a whole, so aliasing
  between vectors is not modelled; cluster ids are naturals, not 32-bit.
- The concurrency of `Cache` and `RateLimiter` behind their mutexes; one instant per
  limiter call.
- `Client.Close` waiting for its goroutines; in `Protocol` it is the closing of every channel.
- Saving and loading the cache file, writing `.env` atomically, sorting the merge's
  printed lists, password hashing and secret generation.
- `factcheckjob`, which repeats the skeleton of `crawljob`; the columns of a crawl job
  that only travel to the row.
- Provider calls, HTTP, WebSockets, authentication, storage plumbing, logging, metrics,
  configuration and prompts; `internal/service` and `internal/workerlifecycle` are not
  part of this model.
