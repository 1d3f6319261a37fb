# ModelMux in Dafny

ModelMux is an LLM gateway: HTTP chat and streaming in front of two providers, a Redis rate
limiter, and durable jobs over Postgres and RabbitMQ. This project models the parts of it where
interleaving, incremental input or arithmetic make correctness hard to see, and proves what those
parts promise.

`dafny verify dfyconfig.toml` checks everything.

| file | what it models |
|---|---|
| `JobRows.dfy` | one row of `inference_jobs`, each SQL statement as guard and update, the retry delay |
| `JobProtocol.dfy` | table, dispatcher transactions, queue and message handlers as one transition system |
| `JobInvariant.dfy` | the inductive invariant of that system |
| `JobRuns.dfy` | properties of whole runs: fencing, bounded work, retry delays, lease exclusion |
| `JobRecovery.dfy` | from every reachable state every job can still be finished |
| `JobStore.dfy`, `JobWorker.dfy` | the store class, the worker's `execute` and dispatch loop, proved against the same statements |
| `RabbitBroker.dfy` | the broker class: deliveries, settling, graceful stop |
| `WorkerHandover.dfy` | handing the single active consumer from worker to worker |
| `CircuitBreaker.dfy` | the breaker class, and the breaker with overlapping calls |
| `Utf16.dfy`, `StreamParser.dfy`, `SseData.dfy` | the incremental readers, their whole-text references, the frames the gateway writes |
| `ProviderStreams.dfy` | the OpenAI and Ollama streaming acceptors |
| `TokenBucket.dfy` | the Redis script over exact arithmetic |
| `ConcurrencyLimiter.dfy` | the FIFO semaphore |
| `Json.dfy`, `CanonicalJson.dfy` | JSON text printed and read, the canonical form that is hashed, cache keys |
| `ChatStream.dfy` | the streaming route, the router and the consumer between them |

How the concurrent parts are modelled:

- **Job protocol.** Every SQL statement is one step on one row (batch statements are shown to be
  runs of such steps). `NOW()` is fixed when a transaction starts, and a statement may then wait for
  a row lock, so each statement carries a timestamp that may lie in the past; a claim's timestamp is
  only known not to precede its delivery. A dispatcher locks a due row, sends, and commits or rolls
  back; a message may be stored although the transaction rolls back, also long after it has rolled
  back. A delivery can return to the queue at any moment while its handler keeps running and writing
  (connection loss), a handler can stop for good at any moment (crash), and one that throws leaves
  its delivery unacknowledged. A store or broker outage is a handler or transaction that makes no
  further step.
- **Store and worker methods.** Where a method makes several statements, what everybody else does
  between them is an arbitrary function on the table (and the row locks).
- **Breaker, limiter, handover.** Each `await` splits a method; the pieces interleave freely.
- **Readers.** They work on decoded text. Lengths are JavaScript lengths (UTF-16 code units), which
  is what the code compares with the bound; the project's documentation says characters.

One expectation turned out not to hold in general: the dispatcher's query orders by due time and
id, but over a round of calls the messages need not leave in that order, because other dispatchers
release rows and others submit jobs in the meantime. `JobWorker` has the input and the exact
condition.

## Model

| member | source | states |
|---|---|---|
| `JobRows.BackoffIsCappedDoubling` | src/queue/postgres-job-store.ts:164-165 | the SQL delay with its exponent clamp equals start-at-base, double, stop-at-one-hour for every attempt, and is between 1 ms and one hour |
| `JobInvariant.StepKeepsInv` | src/queue/postgres-job-store.ts:81-193 | every step of dispatchers, broker, handlers and maintenance keeps rows, messages, handlers and transactions consistent |
| `JobInvariant.NoJobIsEverLost` | src/queue/postgres-job-store.ts:81-193 | after every run an unfinished row is active with a lease, pending publication, or has a queued or unacknowledged message for exactly its next attempt |
| `JobInvariant.ClaimFailsOnlyWhenObsolete` | src/queue/rabbitmq.ts:82-83 | in a reachable state a claim returns nothing exactly when the row is gone or has already counted that attempt, so acknowledging it drops nothing needed |
| `JobInvariant.StatementsAdvance` | src/queue/postgres-job-store.ts:109-187 | each statement keeps a row consistent, never lowers attempts, keeps the due time of a waiting row, freezes finished rows |
| `JobInvariant.LockedRowUntouched` | src/queue/postgres-job-store.ts:85-97 | while a dispatcher holds a row no other step writes it |
| `JobRuns.AttemptsAreFenced` | src/queue/postgres-job-store.ts:109-187 | over any run each attempt of each job is claimed at most once and gets exactly one effective outcome unless it is still active |
| `JobRuns.PublicationsAreCommittedOnce` | src/queue/postgres-job-store.ts:81-107 | over any run, however many dispatchers compete, a publication of each attempt is committed at most once |
| `JobRuns.FinishedRowsAreFrozen` | src/queue/postgres-job-store.ts:149-173 | a completed or failed row keeps every column until it is deleted, and a deleted job never returns |
| `JobRuns.IdentityIsKept` | src/queue/postgres-job-store.ts:109-193 | over any run a job keeps its owner, key, payload hash and request id for as long as it is stored |
| `JobRuns.OnlyRetentionRemoves` | src/queue/postgres-job-store.ts:188-192 | a row leaves the table only when it is finished and has been for more than 24 hours |
| `JobRuns.SettledAttemptsStayOver` | src/queue/rabbitmq.ts:81-110 | a claimant's delivery is acked or rejected only when its attempt can never again be active, and rejected only when the job has failed for good |
| `JobRuns.StaleReportsAreIgnored` | src/queue/postgres-job-store.ts:149-173 | once an attempt is over no later report of its outcome changes the table, at any later point of any run |
| `JobRuns.EveryOutcomeHasItsCause` | src/queue/postgres-job-store.ts:149-187 | after any run every ended attempt was ended by a step that explains its row: completed with the reported response; failed only by a permanent failure or with no attempts left; retrying exactly for the documented delay; after a lost lease queued again at once while attempts are left |
| `JobRuns.WorkIsBounded` | src/queue/postgres-job-store.ts:109-187 | a run starts at most as many executions as attempts are left, attempts count them exactly, and a job has at most 2 * max_attempts status changes |
| `JobRuns.RetryWaitsForBackoff` | src/queue/postgres-job-store.ts:159-173 | after a retryable failure the next attempt is neither dispatched nor claimed before the capped doubling delay and the circuit's retryAfterMs |
| `JobRuns.LeaseIsMutualExclusion` | src/queue/postgres-job-store.ts:175-187 | if surviving executions report within their lease, maintenance reclaims none of them and at most one execution per job runs |
| `JobRecovery.EveryJobCanStillFinish` | src/queue/rabbitmq.ts:61-79 | from every reachable state every job has a continuation that finishes it, using no handler that exists in that state |
| `JobStore.PostgresJobStore.Enqueue` | src/queue/postgres-job-store.ts:40-62 | a free key inserts one queued row with these columns, due at once; for a taken key nothing is stored and, whatever others do between the two statements, the answer is the receipt of the job that then has the key, a conflict if its payload differs, or "disappeared" exactly when no job has it |
| `JobStore.PostgresJobStore.FindByKey` | src/queue/postgres-job-store.ts:54-58 | finds a row with the owner and key exactly when there is one |
| `JobStore.PostgresJobStore.LockEarliestDue` | src/queue/postgres-job-store.ts:85-91 | locks the least due unlocked row by due time and id, or nothing exactly when none is due and unlocked |
| `JobStore.PostgresJobStore.DispatchOne` | src/queue/postgres-job-store.ts:81-107 | clears the pending flag of that row only when the publication was confirmed, otherwise leaves the table as it was, and releases the lock |
| `JobStore.PostgresJobStore.ClaimAttempt` | src/queue/postgres-job-store.ts:109-127 | claims exactly under the WHERE clause, returns the job and a non-negative queue wait |
| `JobStore.PostgresJobStore.CompleteAttempt` | src/queue/postgres-job-store.ts:149-157 | only the row of the attempt may change, and only if that attempt is running: it is then completed with the response; afterwards no report of the attempt, success or failure, changes the table |
| `JobStore.PostgresJobStore.FailAttempt` | src/queue/postgres-job-store.ts:159-173 | only the row of a running attempt changes; the returned status is the stored one, retrying exactly for a retryable failure with attempts left, then due after exactly the larger of the capped doubling delay and retryAfterMs; afterwards no report of the attempt changes the table |
| `JobStore.PostgresJobStore.Maintain` | src/queue/postgres-job-store.ts:175-193 | a row with an expired lease is queued, pending and due at once while attempts are left and failed otherwise; rows that finished more than 24 hours ago are removed; every other row stays as it was |
| `JobStore.ReclaimIsARun` | src/queue/postgres-job-store.ts:179-187 | the batch update of expired leases is a run of single-row protocol steps |
| `JobStore.RetentionIsARun` | src/queue/postgres-job-store.ts:188-192 | the batch delete is a run of single-row protocol steps |
| `JobStore.EnqueueIsAStep` | src/queue/postgres-job-store.ts:40-53 | an accepted submission is a step of the protocol |
| `JobStore.DispatchIsARun` | src/queue/postgres-job-store.ts:81-107 | a dispatch is the run lock, send, store, commit, or a rollback from wherever it stopped; table, lock and queue afterwards |
| `JobStore.OthersAreLawful` | src/queue/postgres-job-store.ts:40-193 | any run of the protocol keeps keys unique and the identity of stored jobs, which is what `SubmitTwice` asks of the others |
| `JobStore.ConflictMeansDifferentPayload` | src/queue/postgres-job-store.ts:60 | payload hashes differ exactly when the payloads differ in more than property order, key hashes agree exactly for equal keys |
| `JobStore.SubmitTwice` | src/queue/postgres-job-store.ts:40-62 | while the first job is stored, a second submission under its key stores nothing and gets the first receipt if the payload is the same up to property order, a conflict otherwise, whatever others do before and during it; once nobody has the key it is accepted anew |
| `JobWorker.Execute` | src/queue/rabbitmq.ts:81-110 | the final table and the action for every outcome of claim and processor, with arbitrary changes by others in between; dead-letter exactly when this call failed the running attempt for good, as an unexpected exception does; afterwards no report of the attempt counts |
| `JobWorker.ExecuteIsARun` | src/queue/rabbitmq.ts:81-110 | the same as a run of the protocol with any steps of others between claim and report, ending with the handler decided on the returned action |
| `JobWorker.DispatchBatch` | src/queue/rabbitmq.ts:71-74 | with others changing table and locks between the calls, a round sends at most a hundred messages, each for the first row that is due and free at its call and for its next attempt; it ends early only when stopped, nothing free is due, or a publication failed |
| `JobWorker.DueOrderIffNoneOvertakes` | src/queue/rabbitmq.ts:69-74 | a round sends in order of due time and id if and only if nothing that others release, submit or reschedule between two calls is due before the message just sent |
| `JobWorker.ReleasedRowOvertakes` | src/queue/postgres-job-store.ts:85-91 | an input for which the order breaks: another dispatcher holds the first of two due rows and rolls back |
| `JobWorker.DueRowsWaitTheirTurn` | src/queue/postgres-job-store.ts:85-91 | whatever others do, a message comes before every row that was free and due when it was sent |
| `RabbitBroker.RabbitMqBroker.OnDelivery` | src/queue/rabbitmq-broker.ts:106-123 | the handover system's receive step: a draining broker starts nothing and keeps the delivery unacknowledged |
| `RabbitBroker.RabbitMqBroker.OnSettled` | src/queue/rabbitmq-broker.ts:115-121 | the handover system's finish step: a handler that throws leaves its delivery unacknowledged and records a failure |
| `RabbitBroker.RabbitMqBroker.AwaitHandlers` | src/queue/rabbitmq-broker.ts:126-128 | the wait ends with exactly the handlers running that were active at its start and have not settled since; nothing that arrives meanwhile starts |
| `RabbitBroker.RabbitMqBroker.FinishStop` | src/queue/rabbitmq-broker.ts:129-137 | the handover system's cancel step, taken only with a known tag and nothing running; throws exactly when cancelling fails without an earlier failure |
| `RabbitBroker.RabbitMqBroker.StopConsuming` | src/queue/rabbitmq-broker.ts:126-137 | starts no handler, loses no delivery, gives the consumer up only after the last handler |
| `WorkerHandover.HandoverKeepsTheCap` | src/queue/rabbitmq-broker.ts:103-149 | with any workers joining, draining and closing in any order, at most `prefetch` executions run across all of them |
| `WorkerHandover.StepKeepsInv` | src/queue/rabbitmq-broker.ts:48-62 | only the current consumer runs handlers, and former consumers can never start a delivery still on its way |
| `CircuitBreaker.Breaker.TakeSnapshot` | src/providers/circuit-breaker.ts:103-112 | mode, count and delay: none when closed, the reset timeout when half-open, and when open exactly the time after which a call is admitted |
| `CircuitBreaker.Breaker.Begin` | src/providers/circuit-breaker.ts:59-70 | admitted exactly when closed, or open with the cooldown over; a rejection changes nothing and reports a positive delay |
| `CircuitBreaker.Breaker.Finish` | src/providers/circuit-breaker.ts:72-132 | the new fields for every outcome, unchanged for a late call |
| `CircuitBreaker.AtMostOneProbe` | src/providers/circuit-breaker.ts:54-132 | after any run: open listens to no call in flight, half-open to exactly one, whose outcome always leaves half-open; closed exactly below the threshold |
| `CircuitBreaker.CurrentMeansSinceModeChange` | src/providers/circuit-breaker.ts:70-132 | after any run the outcomes that still count are exactly those of the calls admitted since the circuit last changed its mode |
| `CircuitBreaker.LateOutcomesAreIgnored` | src/providers/circuit-breaker.ts:75-82 | an outcome from an older generation changes nothing, at any later point of any run |
| `CircuitBreaker.CircuitIsAFold` | src/providers/circuit-breaker.ts:114-132 | the count is the number of trailing transient failures among the non-ignored outcomes of calls admitted since the last change of mode, and the circuit is closed exactly while it is below the threshold |
| `CircuitBreaker.FailureStartsCooldown` | src/providers/circuit-breaker.ts:123-131 | after a failure opens the circuit nothing changes and nothing is admitted until the reset timeout has passed, and calls are admitted from exactly then on |
| `CircuitBreaker.IgnoredProbeReopensTheSlot` | src/providers/circuit-breaker.ts:82-89 | an ignored probe makes the next call the probe at once and leaves the count alone |
| `StreamParser.ReadLines` | src/providers/stream-parser.ts:19-55 | for every chunking the lines and the way of ending are those of the whole-text reference |
| `StreamParser.SplitIsExact` | src/providers/stream-parser.ts:38-45 | the reference's raw lines hold no line feed and give the text back when joined |
| `StreamParser.LongLinesFail` | src/providers/stream-parser.ts:41-47 | reading stops early exactly at the first raw line above 65,536, after yielding every line before it; otherwise it yields every line and ends as the body does |
| `StreamParser.WrittenLinesRead` | src/providers/stream-parser.ts:38-50 | lines that fit, ended by LF or CR LF in any mixture, come back as written; the unterminated last one too |
| `StreamParser.UnitsAreCodeUnits` | src/providers/stream-parser.ts:41 | the length that is compared with the bound counts UTF-16 code units |
| `SseData.ReadSseData` | src/providers/stream-parser.ts:57-76 | the loop over lines yields exactly the events of the block-wise reference |
| `SseData.ReadEvents` | src/providers/stream-parser.ts:57-76 | for every chunking the events and the way of ending depend on the whole text alone |
| `SseData.BlocksRoundTrip` | src/providers/stream-parser.ts:57-76 | events of any number of data lines, with or without a space after the colon and with any line ends, read back as their values joined by line feeds if and only if the data of each is shorter than 65,536 |
| `SseData.FramesRoundTrip` | src/routes/sse.ts:35 | frames of payloads without CR and LF read back as exactly those payloads if and only if none exceeds 65,530 |
| `SseData.ClientGetsMessages` | src/routes/sse.ts:35 | an independent client of the frames gets exactly the messages written: event name, payload and order |
| `SseData.JsonFramesRoundTrip` | src/routes/sse.ts:35 | so every list of JSON payloads that fit survives, since JSON text has no control characters |
| `ProviderStreams.OpenAiStream` | src/providers/openai.ts:33-65 | deltas and outcome depend on the text alone, for every chunking |
| `ProviderStreams.ClassifyMeans` | src/providers/openai.ts:38-63 | which events count as terminator, usage or answer, with which text (content, else refusal) and which finish reason, in terms of the JSON fields |
| `ProviderStreams.OpenAiRoundTrip` | src/providers/openai.ts:33-65 | an answer written as JSON events resolves and delivers exactly its non-empty texts in order, refusals included |
| `ProviderStreams.OpenAiSucceedsIffComplete` | src/providers/openai.ts:36-63 | success exactly when [DONE] follows exactly one valid finish reason and only usage events after it; then every non-empty content was delivered in order |
| `ProviderStreams.OpenAiFailsUnfinished` | src/providers/openai.ts:36-64 | before the finish reason: fails at the end of the body, a terminator, a malformed event or an unknown reason, after delivering every text up to there |
| `ProviderStreams.OpenAiFailsFinished` | src/providers/openai.ts:36-64 | after the finish reason: fails at the end of the body, a malformed event or a further choice, delivering nothing more |
| `ProviderStreams.OllamaStream` | src/providers/ollama.ts:34-58 | deltas and outcome depend on the text alone, for every chunking |
| `ProviderStreams.ClassifyLineMeans` | src/providers/ollama.ts:37-55 | which lines are blank and which carry text and the done marker, in terms of the JSON fields |
| `ProviderStreams.OllamaRoundTrip` | src/providers/ollama.ts:34-58 | an answer written as lines of JSON resolves and delivers exactly its non-empty contents in order |
| `ProviderStreams.OllamaSucceedsIffDone` | src/providers/ollama.ts:37-56 | success exactly when a line is marked done after acceptable lines only; then every content up to it was delivered |
| `ProviderStreams.OllamaFails` | src/providers/ollama.ts:37-57 | fails at the end of the body and at the first unacceptable line, after delivering every text before it |
| `TokenBucket.RedisKey.Eval` | src/rate-limit/redis-token-bucket.ts:10-46 | the decision, the stored hash and the deadline after one evaluation of the script |
| `TokenBucket.StoredStaysInBounds` | src/rate-limit/redis-token-bucket.ts:29-44 | after any history the stored hash of the expiring key holds between 0 and capacity tokens, with the time of the last request and the deadline it set |
| `TokenBucket.RateIsBounded` | src/rate-limit/redis-token-bucket.ts:29-46 | in any window of any history at most capacity plus the window's refill requests are allowed |
| `TokenBucket.FreshKeyAllowsCapacity` | src/rate-limit/redis-token-bucket.ts:21-40 | of any number of requests at once a fresh key allows exactly its capacity |
| `TokenBucket.RemainingIsExact` | src/rate-limit/redis-token-bucket.ts:46 | the reported remainder is the number of further requests allowed at the same instant |
| `TokenBucket.ExpiryIsInvisible` | src/rate-limit/redis-token-bucket.ts:43-44 | a key that expires makes the same decisions on every history as one that never does |
| `TokenBucket.KeyOutlivesTwoRefills` | src/rate-limit/redis-token-bucket.ts:43 | the key lives for the least whole seconds in which an empty bucket would fill twice |
| `TokenBucket.RejectionIsInvisible` | src/rate-limit/redis-token-bucket.ts:35-42 | deleting a rejected request from a history changes no other decision |
| `TokenBucket.RetryAfterIsSufficientAndTight` | src/rate-limit/redis-token-bucket.ts:38-40 | after a rejection by the expiring key reporting r seconds, a request r seconds later is allowed and one r - 1 seconds later is not, whatever rejected requests come between |
| `ConcurrencyLimiter.Limiter.Acquire` | src/concurrency/in-memory-concurrency-limiter.ts:50-105 | cancelled, admitted, refused or queued last, each exactly when the signal, the slots and the queue say so, with all counters |
| `ConcurrencyLimiter.Limiter.Remove` | src/concurrency/in-memory-concurrency-limiter.ts:81-87 | removes the waiter exactly when it is queued and keeps the others in order |
| `ConcurrencyLimiter.Limiter.Release` | src/concurrency/in-memory-concurrency-limiter.ts:131-154 | hands the slot to the oldest waiter or frees it; a second release does nothing |
| `ConcurrencyLimiter.LimiterIsSafe` | src/concurrency/in-memory-concurrency-limiter.ts:50-154 | after every run: active slots are the unreleased permits and within the limit, the queue is within its bound and non-empty only when full, every acquire call is counted once |
| `ConcurrencyLimiter.CountersTell` | src/concurrency/in-memory-concurrency-limiter.ts:50-154 | over every run each counter is the number of steps it is named after; a caller is refused exactly when every slot is taken and the queue is full |
| `ConcurrencyLimiter.HandOffsAreFifo` | src/concurrency/in-memory-concurrency-limiter.ts:142-154 | hand-offs follow arrival order, go to the oldest waiter, and newcomers never overtake a waiter |
| `ConcurrencyLimiter.WaitersSettleOnce` | src/concurrency/in-memory-concurrency-limiter.ts:81-104 | a caller queues at most once and is settled exactly once unless it still waits |
| `Json.ParseText` | src/cache/cache-key.ts:7-12 | an independent reader of JSON text reads every printed value back |
| `Json.EscapeIsShortest` | src/cache/cache-key.ts:7-12 | no shorter text in a string literal stands for the character |
| `Json.TextInjective` | src/cache/cache-key.ts:7-12 | different JSON values print differently |
| `CanonicalJson.LessIsCodeUnitOrder` | src/cache/cache-key.ts:9 | keys are compared by UTF-16 code units |
| `CanonicalJson.IndexIsArrayIndex` | src/cache/cache-key.ts:9 | the keys that a rebuilt object enumerates first are the numerals of 0 to 2^32 - 2 |
| `CanonicalJson.ShortLessIsNumeric` | src/cache/cache-key.ts:9 | and it enumerates them in numeric order |
| `CanonicalJson.SortedPropsIdentify` | src/cache/cache-key.ts:8-10 | sorting two property lists gives the same list exactly when they agree as maps |
| `CanonicalJson.CanonicalTextIdentifies` | src/cache/cache-key.ts:5-14 | two values have the same canonical text exactly when they are equal up to property order at every level |
| `CanonicalJson.CacheKeyIdentifies` | src/cache/cache-key.ts:16-19 | cache keys are equal exactly when namespace, owner and request agree |
| `ChatStream.StreamRequest.Consume` | src/providers/router.ts:45-54 | at most this delta is handed on, and a success means that it was written |
| `ChatStream.StreamRequest.Call` | src/providers/router.ts:92-146 | at most one invocation; success only when the provider resolved and all its text was written |
| `ChatStream.StreamRequest.Route` | src/providers/router.ts:61-90 | one provider's text only; the fallback is called only for a mapped model when the primary was skipped or failed transiently without emitting, and then it is tried |
| `ChatStream.StreamRequest.Recover` | src/routes/chat.ts:167-191 | a JSON error only before any output, otherwise at most one error frame, also when the client drains a stalled write late |
| `ChatStream.StreamRequest.Handle` | src/routes/chat.ts:122-198 | delta* then at most one of done and error; text is a prefix of one provider's; done only after that provider resolved with everything delivered; each target at most once; a cancelled request gets nothing; and when the client neither cancels nor stops reading, the response is exactly the serving target's text with done, an error frame after output, or its own error as JSON |

## Left out

- `RabbitMqJobWorker` as an object: `run` and `close`, which remember one promise each, and the one-second pause of the loop.
- `publish` and `connect` of the broker: a publication is confirmed or not; `isJobEnvelope`: a malformed delivery is one whose handler settles as rejected without touching a row, and none is published.
- `getJob`, `queueDepth`: read-only queries.
- The `data` column, `queue_name` (there is one queue) and the text form of identifiers: job ids are numbers, and a new id is one never used before.
- Fractions of a millisecond in `retryAfterMs` and in Postgres timestamps.
- Dead-letter queue contents and their expiry.
- Connection loss, and cancellation of a consumer by the broker, in the handover system; the job protocol covers connection loss.
- Bytes that are not UTF-8: a decoding failure rejects its whole chunk, so what is read before it depends on the chunking; the readers take the text decoded before the failure.
- Abort signals, deadlines and failing consumers inside the provider adapters; the streaming route models them.
- Texts with unpaired surrogates, blanks between JSON tokens (the adapters take `JSON.parse` as given), and numbers other than through the literal that is printed for them.
- SHA-256, idealised as a function without collisions.
- Floating-point rounding and clocks that go backward in the bucket and the breaker.
- Wait-time statistics of the limiter, metrics and logs.
- The non-streaming chat route with its response cache, authentication, configuration, HTTP error mapping: lookups and translations without state of their own.
