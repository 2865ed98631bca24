# Sluice Gate: a verified model of the ingestion pipeline

This project models the parts of the Sluice Gate telemetry pipeline that decide whether an event
survives: the gateway's bounded worker pool, the consumer's round (poll, decode, dedup, write,
flush, drain poison, commit), the batching TimescaleDB sink with its two-tier retry and background
ticker, and the Redis claim store. It proves what the pipeline keeps over whole runs, and where its
own promise of "commit-after-flush, at-least-once, made effectively-once by dedup" holds exactly.

`dafny verify dfyconfig.toml` checks everything.

## How the model is built

- **External systems are values driven by scripts.** The database, Redis, the dead-letter topic and
  the broker are plain values. A script (`nat -> Outcome`) says for each request whether it is
  carried out and acknowledged (`Done`), not carried out (`Refused`), or carried out but reported as
  an error (`Unreported`). All results quantify over every script.
- **Objects are classes, with a function beside each.** `TimescaleSink.Sink`, `Dedup.Deduper`,
  `Consumer.Consumer`, `Pool.Pool` and `Gateway.Server` have the source's fields and loops; each
  method ensures that the new state is a function of the old one, and the lemmas are about these
  functions.
- **Concurrency is a state machine.** `SinkThreads` (writers, ticker and Run on one sink), `Pool`
  and `Gateway` (workers and any number of calls) have one step per critical section, channel
  operation or database statement. A run is any sequence of actions.
- **Crashes.** A process that dies in the middle of a round makes no further request. `Delivery.Crashed`
  is a round under arbitrary replies of its own whose memory is then lost; replies that refuse every
  request from some point on are a crash at that point. `RoundDeath` and `FlushDeath` prove this for every point of a
  round, and between any two statements of the flush at its end or of a flush that a Write triggers: what such
  a round leaves durable is exactly what was there at that point.
- **Gentle flushes.** A flush is gentle when a COPY is acknowledged or, however the copy attempts failed,
  no row that could be stored runs out of its own attempts (`TimescaleSink.Gentle`); rounds are gentle when
  all their flushes are. `TimescaleSink.FlushRefinesAbsorb` shows that this is exactly when a flush does what
  the simple row-by-row form does.
- **Parameters.** Protobuf encoding (`decode`, `encode`), the outcome scripts, the Redis server
  clock and the schedule of polls, rebalances and workers are parameters.

| file | content |
|---|---|
| `Events.dfy`, `Database.dfy` | events, the table with its unique index, COPY and INSERT |
| `TimescaleSink.dfy` | the sink, one caller at a time; nothing is lost; the two tiers refine insert-or-ignore |
| `SinkThreads.dfy` | the sink under writers, ticker and Run; conservation; what is unsettled at a commit |
| `Dedup.dfy` | Seen and SeenBatch; claims over time |
| `Consumer.dfy` | the consumer's round and its collaborators |
| `Delivery.dfy` | every run with dedup off |
| `Death.dfy`, `RoundDeath.dfy`, `FlushDeath.dfy` | the crash points inside a round and inside a flush |
| `Claims.dfy` | every run with dedup on; orphaned claims as the exact loss boundary |
| `EffectivelyOnce.dfy` | accounting, first occurrences, independence of batch cuts |
| `Stages.dfy` | the stages of a round field by field: letters, counters, claims |
| `Pool.dfy`, `Gateway.dfy` | the worker pool and concurrent Push calls |
| `Report.dfy` | the marker splice of the README updater |
| `LossTest.dfy` | the work split, the keys and the expected row count |

## What turned out not to hold as documented

- **Dedup on, crash between claim and flush.** DECISIONS.md (lines 51-55, 81-91) promises that a crash only
  leads to reprocessing. With dedup on, the keys are already claimed when the process dies, so the
  refetched records are dropped as duplicates and committed. `Claims.CommittedUnlessDyingClaim` says, for every
  sink, that a record is lost only if a round newly claimed its key, that round and those after it withheld
  their commits because the flush failed, and the process then crashed with the key unsettled. A TimescaleSink
  and a sink that is no flusher never make Run withhold a commit, so there it is the crashed round itself that
  claimed the key and whose flush and poison drain were not through with it. `Claims.DyingClaimsAreLost` says
  that a round which dies after its claims and before any write loses every key it newly claimed, in every
  later state; `Claims.CrashLosesRecord` is such a run.
  `Claims.CommittedIffNotOrphaned` is the equivalence: with a store that expires nothing and fails only when
  the process dies, a committed record is settled if and only if its key is not such a lost claim. Errors or expiry
  can only help an orphan, since the record is then persisted again; `Claims.CommittedOrOrphaned` covers them.
- **The ticker beside Run.** A tick can hold a drained batch while Run flushes an empty buffer and
  commits. `SinkThreads.TickerHoldsCommittedEvent` is such a run; `SinkThreads.AtCommit` says that at a
  commit everything is settled if and only if the ticker has no batch in flight and has poisoned nothing
  since the last drain.
- **A failed flush keeps the buffer.** DECISIONS.md lines 86-88 describe that for TimescaleSink, but its
  `Flush` has emptied the buffer by then and always returns nil; failed rows become poison. The model
  follows the code: `TimescaleSink.FlushKeepsNoBatch` says that a flush keeps the buffer if and only if it was
  empty. `Delivery.FlushSinkKeeps` proves the documented behaviour for sinks that do report flush errors.
- **Negative retry limits.** With `maxRetries < 0` neither retry loop runs and events vanish.
  `TimescaleSink.SettlesIffRetries` and `Delivery.TakenIffRetries` state this as an equivalence.
- **A pool without workers.** Close then returns at once and leaves a buffered queue behind
  (`Pool.NoWorkersNoDrain`). `Pool.DrainsIff` gives the exact condition: every run that Close ends is drained
  if and only if there is a worker or the channel has no buffer.
- **Splicing text that is not a section.** Regenerating the README works for every file exactly when
  the spliced text starts with the begin marker and its first end marker ends it
  (`Report.RegenerationIffSection`).

## Model

| member | source | states |
|---|---|---|
| TimescaleSink.Sink.Write | internal/sink/timescale.go:57-67 | appends the event and flushes once the buffer has reached the batch size |
| TimescaleSink.Sink.DrainBuffer | internal/sink/timescale.go:69-75 | hands out the whole buffer and leaves it empty |
| TimescaleSink.Sink.MarkPoisoned | internal/sink/timescale.go:77-81 | appends to the poison list and changes nothing else |
| TimescaleSink.Sink.DrainPoisoned | internal/sink/timescale.go:83-89 | hands out the whole poison list and leaves it empty |
| TimescaleSink.Sink.Flush | internal/sink/timescale.go:91-118 | the nested retry loops end in the state `Flushed`, about which FlushSettles and FlushRefinesAbsorb speak |
| TimescaleSink.Sink.InsertWithRetry | internal/sink/timescale.go:106-115 | a row fails exactly when it was tried and no try was acknowledged |
| Database.CopyFacts | internal/sink/timescale.go:120-138 | a COPY is acknowledged if and only if no row is bad, the index allows the whole batch and the request is done; unless refused such a batch is appended whole, any other leaves the table alone |
| Database.InsertFacts | internal/sink/timescale.go:140-148 | acknowledged if and only if the row is not bad and the request is done; unless bad or refused its id is stored, by the row that had it or else by this one, appended |
| TimescaleSink.FlushSettles | internal/sink/timescale.go:91-118 | for every script, also with duplicates, replays and unreported successes: the index holds, no row or poisoned event is lost, and each event of the batch is stored under its id or poisoned |
| TimescaleSink.WriteKeeps | internal/sink/timescale.go:57-67 | a write loses nothing, leaves its event held, stored or poisoned, and keeps a single writer's buffer below the batch size |
| TimescaleSink.SettlesIffRetries | internal/sink/timescale.go:98-116 | an unsettled event of the batch is settled by a flush if and only if the retry limit is not negative |
| TimescaleSink.RowTierFacts | internal/sink/timescale.go:107-112 | a row is stored and acknowledged if and only if it is not bad and one of the attempts is acknowledged; a bad row never changes the table |
| TimescaleSink.RowTierTries | internal/sink/timescale.go:107-112 | the statements for a row stop with the first acknowledgement, else all attempts are made; the row is stored as soon as one was carried out |
| TimescaleSink.PoisonedIff | internal/sink/timescale.go:105-115 | a row is poisoned if and only if it is tried and none of its maxRetries + 1 statements is acknowledged |
| TimescaleSink.CopyTierTries | internal/sink/timescale.go:97-103 | the COPY attempts stop with the first acknowledgement, else all are made; one is acknowledged if and only if the batch is admissible and no earlier attempt was carried out unnoticed |
| TimescaleSink.FlushIsOneCopy | internal/sink/timescale.go:91-103 | the fast path: when the k-th COPY is the first not refused and is acknowledged, the flush is these k + 1 statements and appends the batch as it is |
| TimescaleSink.WriteBatches | internal/sink/timescale.go:57-75 | below the batch size a write only appends and makes no statement; the write that reaches it leaves nothing buffered; flushing nothing does nothing |
| TimescaleSink.StuckCopy | internal/sink/timescale.go:98-103 | a batch that was copied without acknowledgement can never be copied again |
| TimescaleSink.FlushRefinesAbsorb | internal/sink/timescale.go:91-148 | the table is the fold of insert-or-ignore over the good events and the poison list grows by exactly the bad ones, in order, whichever tier finished; this holds if and only if a COPY was acknowledged or no good row ran out of its own attempts, however the copy attempts failed |
| TimescaleSink.RowsRefineAbsorb | internal/sink/timescale.go:105-116 | the row tier alone: at least the bad rows are poisoned, and exactly these, with the table the fold, if and only if the rows are calm |
| TimescaleSink.CopyOutageIsGentle | internal/sink/timescale.go:97-116 | an outage that costs all copy attempts does no harm if the database answers afterwards |
| TimescaleSink.CalmIsGentle | internal/sink/timescale.go:97-116 | at most maxRetries failures in a row are enough for every flush |
| TimescaleSink.FlushKeepsNoBatch | internal/sink/timescale.go:91-118 | whatever happens the buffer is empty afterwards; it is kept if and only if it was empty |
| Database.InsertKeepsUnique | deploy/sql/schema.sql:16-17 | insert-or-ignore keeps (key, time) unique and adds exactly this id |
| Database.AbsorbFresh | internal/sink/timescale.go:120-148 | where the index lets a COPY through, it equals inserting row by row |
| SinkThreads.EveryRunKeepsInv | internal/sink/timescale.go:43-118 | in every interleaving of writers, ticker and Run: written = buffer + unresolved in flight + resolved + poisoned + drained; resolved rows are in the table; (key, time) is unique; buffer <= batchSize - 1 + writers that owe a flush |
| SinkThreads.AtCommit | internal/consumer/consumer.go:106-124 | at a commit only the ticker's batch and what the ticker poisoned since the last drain are unsettled, and nothing is if and only if it has neither |
| SinkThreads.AfterClose | internal/sink/timescale.go:150-155 | after Close buffer and in-flight batches are empty and all that was written is resolved, poisoned or drained |
| SinkThreads.ConsumedAddsUp | internal/consumer/consumer.go:177-187 | in every state of every interleaving: consumed = buffered + in flight + resolved + poisoned + drained, but for the one event whose Write has not returned |
| SinkThreads.SingleWriterBound | internal/sink/timescale.go:57-67 | with the consumer as only writer, and any retry limit, the buffer is below the batch size whenever Write has returned |
| SinkThreads.TickerHoldsCommittedEvent | internal/sink/timescale.go:49-50 | a run in which an event is committed while only the ticker holds it |
| SinkThreads.FlushIsARun | internal/sink/timescale.go:91-118 | the sequential Flush is the run of the state machine in which no other thread moves |
| SinkThreads.WriteIsARun | internal/sink/timescale.go:57-67 | the sequential Write is such a run too: it flushes if and only if the batch size is reached, and owes no flush afterwards |
| Dedup.Deduper.Seen | internal/dedup/redis.go:22-28 | claims the key if absent; errors are reported, whether or not the claim happened |
| Dedup.Deduper.SeenBatch | internal/dedup/redis.go:30-53 | the pipelined form has the effect and the answers of Seen key by key, an error if any command failed |
| Dedup.Deduper.Exec | internal/dedup/redis.go:35-42 | the server carries out the pipeline command by command |
| Dedup.SeenBatchMeans | internal/dedup/redis.go:30-53 | without error or expiry: seen if and only if stored before or earlier in the batch; afterwards the store is the old one plus all keys of the batch |
| Dedup.SeenEachShape | internal/dedup/redis.go:30-53 | with errors and expiry too: only keys of the batch are added, and a key is reported seen only if stored before or earlier in the batch |
| Dedup.WinsAreTtlApart | internal/dedup/redis.go:22-53 | for any interleaving of claims, refused ones included: a claim that is carried out wins if and only if every earlier win on the key is at least ttl old, never if the ttl is zero |
| Dedup.StoreIsLastWin | internal/dedup/redis.go:22-53 | the store remembers for each key the last won claim; lost claims do not extend the expiry |
| Dedup.NotSeenAreWins | internal/dedup/redis.go:30-53 | batches interleaved on the server in any way: a batch gets an answer if and only if all its commands are acknowledged, and its not-seen keys are exactly its commands that won |
| Dedup.SeenEachIsServed | internal/dedup/redis.go:30-53 | a batch alone on the server gets the answers of the key-by-key form |
| Dedup.NotSeenAreTtlApart | internal/dedup/redis.go:22-53 | two not-seen answers for one key, from any two interleaved batches or from one, are at least ttl apart, and with a ttl of zero there is only one |
| Consumer.Consumer.SendToDLQ | internal/consumer/consumer.go:221-234 | the letter is sent and counted, or its loss is logged |
| Consumer.Consumer.Persist | internal/consumer/consumer.go:177-205 | write and count for a poison-reporting sink; write with retries, else dead-letter the raw record, for any other |
| Consumer.Consumer.WriteWithRetry | internal/consumer/consumer.go:189-196 | fails exactly when it was tried and no try was acknowledged |
| Consumer.Consumer.DecodeRecord | internal/consumer/consumer.go:138-143 | an undecodable record is sent to the dead-letter topic with its own topic, partition, offset, key and value |
| Consumer.Consumer.DecodeRecords | internal/consumer/consumer.go:135-145 | yields the decodable records in order and dead-letters the others |
| Consumer.Consumer.AskDedup | internal/consumer/consumer.go:151-163 | one answer per record; on a dedup error none is seen, although keys may have been claimed |
| Consumer.Consumer.HandleBatch | internal/consumer/consumer.go:135-175 | decode, ask, persist what is not seen |
| Consumer.Consumer.PersistUnseen | internal/consumer/consumer.go:165-174 | counts what is seen as a duplicate and persists the rest, in order |
| Consumer.Consumer.FlushIfFlusher | internal/consumer/consumer.go:106-116 | flushes a Flusher and reports its failure |
| Consumer.Consumer.DrainPoison | internal/consumer/consumer.go:118-122 | sends each poisoned event, in order, and empties the list |
| Consumer.Consumer.RunRound | internal/consumer/consumer.go:91-127 | one round; the commit is withheld when the flush failed |
| Consumer.Consumer.Run | internal/consumer/consumer.go:88-128 | the loop over any sequence of polls |
| Delivery.SentKeeps | internal/dlq/dlq.go:26-40 | a letter is on the topic unless there is none or it refused, counted as sent if and only if acknowledged, and logged as dropped otherwise; nothing else changes |
| Delivery.WriteTierKeeps | internal/sink/sink.go:13-15 | any sink without poison reporting, with retries and writes that are accepted but reported as failed: nothing stored or pending is lost, and a success leaves the event pending or stored |
| Delivery.WriteTierTries | internal/consumer/consumer.go:189-196 | writes stop with the first acknowledgement, which decides the result; each write that was not refused leaves exactly one copy of the event, pending in a flusher and stored otherwise |
| Delivery.DirectFlushKeeps | internal/sink/sink.go:17-19 | a flush moves pending events into the table in order, all of them if it succeeds; table followed by pending events stays the same, so a failed one loses nothing; success is the sink's own verdict |
| Delivery.RoundKeeps | internal/consumer/consumer.go:104-122 | no round loses anything: what was stored or noted stays so, what was pending is pending, stored or dead-lettered, and when the commit is reached nothing is pending |
| Delivery.FlushSinkKeeps | internal/sink/sink.go:13-28 | both kinds of sinks meet the contract: a successful flush settles everything written so far and a failed one loses nothing |
| Delivery.TakenIffRetries | internal/consumer/consumer.go:189-201 | persist takes care of a new event if and only if the retry limit is not negative |
| Delivery.FetchedFacts | internal/consumer/consumer.go:92-104 | every record below the new position was below the old one or is in the fetched batch; committed offsets do not move |
| Delivery.FetchedSlices | internal/consumer/consumer.go:92-104 | of each partition a fetch gives exactly the log from the old position to the new one, in order, without gaps or repetitions, and all that is asked for where the log has it |
| Delivery.PolledSlices | internal/consumer/consumer.go:92-104 | the same for a poll with rebalances: a partition that was taken back starts at its committed offset |
| Delivery.RoundCommits | internal/consumer/consumer.go:106-126 | for every sink, with or without dedup: after a round the committed offsets are the fetch positions, unless the flush reported a failure or the request was refused, and then they are unchanged |
| Delivery.DurableGrows | internal/consumer/consumer.go:104-124 | a dying round removes nothing from the table, the dead-letter topic or the drop log |
| Delivery.CommittedIsSettled | internal/consumer/consumer.go:88-128 | with dedup off, in every state of every run with crashes, rewinds, refused commits and failed flushes, each record below a committed offset has its (key, time) in the table, is dead-lettered, or is a logged drop |
| Delivery.CommitCatchesUp | internal/consumer/consumer.go:106-126 | with dedup off and any sink, a round whose flush did not fail and whose commit is not refused leaves all that was fetched committed and settled |
| Stages.DecodingMails | internal/consumer/consumer.go:137-145 | one letter for each undecodable record, in order, with its own topic, partition, offset, key and value; each reaches the topic, is counted or is logged as the topic answers; sink, key store and other counters stay |
| Stages.PersistingMails | internal/consumer/consumer.go:177-205 | with poison reporting the event is counted and nothing sent; otherwise counted if and only if a write is acknowledged within the attempts or none is due, else the record itself is sent with its coordinates |
| Stages.DrainingMails | internal/consumer/consumer.go:118-122 | one letter for each poisoned event, in order, with the consumer's topic, partition and offset -1, the device as key and the encoded event; the poison list is empty afterwards |
| Stages.AskingClaims | internal/consumer/consumer.go:151-163 | one claim for each decoded record, in order, all kept; seen if and only if the claim was lost and no command failed |
| Stages.RoundClaimsBatch | internal/consumer/consumer.go:147-163 | a round claims exactly the keys of its decodable records, in order, whatever fails later |
| RoundDeath.DeathLeavesThePoint | internal/consumer/consumer.go:104-124 | wherever in a round the process dies (between two records, claims, writes or dead letters), the round in which all further requests are refused leaves exactly the table, key store and dead letters of that point |
| FlushDeath.DeathInRoundFlush | internal/consumer/consumer.go:106-116 | dying between any two statements of the flush at the end of a round: the round leaves the table of that point, and the key store and dead letters from before the flush |
| FlushDeath.DeathInWriteFlush | internal/sink/timescale.go:57-67 | the same for a flush that a Write triggers in the middle of a round |
| FlushDeath.DeathInFlushLeavesThePoint | internal/sink/timescale.go:91-118 | the same for a flush by itself |
| Claims.BatchKeysHere | internal/consumer/consumer.go:147-174 | after a batch, every key in it and every stored key has an event settled or pending, or is orphaned; dedup never drops a key's only copy |
| Claims.CommittedOrOrphaned | internal/consumer/consumer.go:104-124 | with dedup on, from an empty store, over every run and any sink: a committed decodable record has an event with its key stored, dead-lettered or logged, unless a crash orphaned the key; an undecodable one is dead-lettered or logged |
| Claims.CommittedUnlessDyingClaim | internal/consumer/consumer.go:104-124 | with dedup on, from an empty store, over every run and for every sink: a committed decodable record has an event with its key stored, dead-lettered or logged, unless some round newly claimed the key, that round and the ones after it withheld their commits, and then a round crashed with the key unsettled; unless the sink can make Run withhold a commit, the crashed round itself made the claim and its flush and poison drain were not through with it |
| Claims.OrphansAreLostClaims | internal/consumer/consumer.go:104-124 | for every sink and run: a key is orphaned if and only if it is such a lost claim; if the sink cannot make Run withhold a commit, if and only if some crashed round newly claimed it and left it unsettled |
| Claims.OneRoundLoses | internal/consumer/consumer.go:106-116 | with a sink whose flush cannot fail the round that claims and the round that crashes are the same |
| Claims.OrphansAreDyingClaims | internal/consumer/consumer.go:151-174 | for every sink that cannot make Run withhold a commit: every orphaned key of a run has a crash of that run whose dying round newly claimed it and could only log its event as dropped |
| Claims.OrphansAreNewClaims | internal/consumer/consumer.go:151-174 | one crash, for the same sinks: the keys it orphans are new claims of the dying round that it could only log as dropped |
| Claims.DeathWhileClaiming | internal/dedup/redis.go:35-42 | a process that dies inside the claim pipeline leaves the claims made so far, the letters of undecodable records and nothing else |
| Claims.DyingClaimsAreLost | internal/consumer/consumer.go:151-174 | after any run, a round that dies after m claims and before any write orphans every key it newly claimed, and no later state of any run has such a key settled |
| Claims.CommittedIffNotOrphaned | internal/dedup/redis.go:35-52 | with a store that expires nothing and fails only with the process, also inside the claim pipeline: a committed decodable record is settled if and only if its key is not orphaned, that is, not a lost claim |
| Claims.LostInRound | internal/consumer/consumer.go:157-172 | a claimed key without any event stays without one: every further record with it is dropped |
| Claims.CrashLosesRecord | internal/consumer/consumer.go:106-124 | a crash between claim and flush, then a healthy round: committed, yet never stored, dead-lettered or logged |
| EffectivelyOnce.EveryLifeIsAccounted | internal/consumer/consumer.go:137-205 | in every state of every run, crashes included, for the present life of the process: handled = undecodable + deduped + persisted; without poison reporting consumed + deduped + dlqSent + drops logged in this life = handled; with it consumed = persisted |
| EffectivelyOnce.PersistedIsNewByKey | internal/consumer/consumer.go:135-175 | over any polls and rewinds without dedup error or expiry, from any key store, persist receives exactly the first occurrence of each key that was not stored before, in fetch order |
| EffectivelyOnce.PersistedIsFirstByKey | internal/consumer/consumer.go:135-175 | from an empty key store these are the first occurrences by key of the decodable stream: every decoded key is persisted, and once |
| EffectivelyOnce.NewByKeyMeans | internal/dedup/redis.go:30-53 | what is kept are, in stream order, exactly the events at those places where no earlier event and no stored key has the same key |
| EffectivelyOnce.FirstByKeyMeans | internal/dedup/redis.go:30-53 | first occurrences: distinct keys, only events of the stream, every key of the stream |
| EffectivelyOnce.TurnsAreRounds | internal/consumer/consumer.go:91-127 | a run of polls is the run of its fetched batches |
| EffectivelyOnce.TableOutcome | internal/consumer/consumer.go:104-116 | the table after any gentle rounds is the fold of insert-or-ignore over the good new events, whatever becomes of the dead letters |
| EffectivelyOnce.RoundsOutcome | internal/consumer/consumer.go:104-122 | for gentle rounds with no refused dead letter and no dedup error or expiry, from any table, key store and mail, and with or without a dead-letter topic: table, claimed keys, counters, dead letters and drops are functions of the start and the handled stream alone |
| EffectivelyOnce.BatchCutsDoNotMatter | internal/consumer/consumer.go:104-122 | two ways of cutting the same stream into batches, both gentle, with no refused dead letter and no dedup error or expiry, from any key store, give the same table, keys, counters and multiset of dead letters |
| EffectivelyOnce.CalmRounds | internal/sink/timescale.go:97-116 | with at most maxRetries failures in a row every run is gentle, so these results apply |
| Pool.Pool.TrySubmit | internal/pool/pool.go:51-58 | on an open channel false if and only if the buffer is full and no worker waits, and then nothing changes; else the worker that waits longest holds the event, or it is the last in the queue |
| Pool.Pool.Submit | internal/pool/pool.go:42-49 | waits for room while workers move, or until the context is done; without a context that select finds done it fails only with a full buffer and no waiting worker |
| Pool.SubmitWaits | internal/pool/pool.go:42-49 | Submit succeeds if and only if select does not find the context done first and there is room at some time before it is; it then sends at the first such time, and otherwise changes nothing |
| Pool.Pool.WorkerStep | internal/pool/pool.go:33-40 | a worker waits on an empty channel, takes the head of the queue, finishes a write, or leaves a closed and empty channel |
| Pool.EveryRunKeepsInv | internal/pool/pool.go:17-71 | in every run each accepted event is queued, held by exactly one worker or finished exactly once, in FIFO order; accepted = queue + held + written + reported |
| Pool.Backpressure | internal/pool/pool.go:17-31 | queue <= capacity and queue + held <= capacity + workers |
| Pool.ReorderingIsBounded | internal/pool/pool.go:33-58 | when a write is finished at most workers - 1 earlier-accepted events are not; with one worker writes finish in order of acceptance |
| Pool.CloseDrains | internal/pool/pool.go:68-71 | with a worker, or without a buffer, when Close returns nothing is queued or held and every accepted event was written or reported |
| Pool.DrainProgress | internal/pool/pool.go:33-40 | after Close some worker can always move and each move leaves less to do |
| Pool.WorkProgress | internal/pool/pool.go:33-40 | open or closed, while something is queued or held some worker can take or finish a write, and each such move leaves less to do |
| Pool.DrainsIff | internal/pool/pool.go:17-71 | every run that Close ends is drained if and only if there is a worker or no buffer |
| Pool.NoWorkersNoDrain | internal/pool/pool.go:26-31 | for every buffered pool without workers, Close returns and leaves the queue behind |
| Pool.VerdictsAreKept | internal/pool/pool.go:33-40 | errFn is called once for each write that the sink failed and never for one that succeeded |
| Gateway.Server.Push | internal/gateway/server.go:24-71 | the loop over the events of one call, in shed and in blocking mode |
| Gateway.Server.Offer | internal/gateway/server.go:37-60 | one event: rejected only when the buffer is full and no worker waits, or in blocking mode when the context is done |
| Gateway.SubmitMeans | internal/pool/pool.go:42-49 | Submit accepts exactly its event or none, and unless select finds the context done gives up only with a full buffer and no waiting worker |
| Gateway.OfferMeans | internal/gateway/server.go:37-60 | in either mode the event is accepted as it is or not at all, and rejected only for want of room or for a done context; in shed mode accepted if and only if there is room at that moment |
| Gateway.PushKeeps | internal/gateway/server.go:24-71 | a call keeps the pool's invariant: FIFO places, conservation, capacity, bounded reordering |
| Gateway.PushAccounts | internal/gateway/server.go:24-71 | accepted + rejected = number of events, and exactly the accepted ones entered the pool, in order |
| Gateway.EveryResponseAddsUp | cmd/gateway/main.go:82-84 | for any interleaving of calls: returned responses add up, a blocking call rejects only once its context is done, accepted counts sum to what was enqueued, no call can send on a closed channel, and after shutdown the sum equals sink successes plus errFn calls |
| Gateway.OneEventMovesOn | internal/gateway/server.go:37-60 | in any interleaving an event is accepted only with room and then enters the pool, or rejected only without room (shed) or with a done context (blocking), and then the pool does not see it |
| Report.Index | internal/report/table.go:89-90 | the first occurrence, or -1 if there is none |
| Report.SpliceMeans | internal/report/table.go:88-96 | succeeds if and only if both markers occur, the first end marker not before the first begin marker; the text before and after them stays and what is between is replaced |
| Report.SpliceTwice | internal/report/table.go:88-96 | splicing a section and then any text equals splicing that text alone; with the same section regeneration is idempotent |
| Report.SpliceUndone | internal/report/table.go:88-96 | what is cut out is a section, and splicing it back restores the file, so nothing outside the markers changed |
| Report.RegenerationIffSection | internal/report/table.go:88-96 | for every file splicing again works as if for the first time, if and only if the spliced text is a section |
| LossTest.Produce | cmd/losstest/main.go:28-63 | the two loops send the events of `SentUpTo`, and the counter is their number |
| LossTest.SplitIsExact | cmd/losstest/main.go:28-39 | the split hands out exactly count events, none for a negative count |
| LossTest.SharesAreEven | cmd/losstest/main.go:28-39 | no producer sends more than one event more than another, and the first ones send the more |
| LossTest.KeyInjective | cmd/losstest/main.go:46 | the key determines producer and index |
| LossTest.ProducedReads | cmd/losstest/main.go:44-49 | device and key read back as producer and index, with their prefixes and separator |
| LossTest.DecimalRoundTrip | cmd/losstest/main.go:45-46 | a number rendered in decimal stands for that number and has no leading zero |
| LossTest.KeysAreDistinct | cmd/losstest/main.go:41-49 | all produced keys are distinct |
| LossTest.ReplaysYieldCountRows | cmd/losstest/main.go:28-63 | consuming any stream made of the produced events, each at least once, with dedup on, empty store and table and no row poisoned (none bad, none out of attempts), yields exactly count rows, with or without a dead-letter topic |

## Left out

- Kafka, Redis, Postgres and gRPC clients, and the movement of partitions between several consumers: only the effect of each request and the rewind of a partition to its committed offset are modelled.
- Protobuf bytes: `decode` and `encode` are parameters; the results on keys require that what was decoded is encoded back to the same event.
- Error values, logging, metrics and `reportLoop`: observability only; a dead letter's error header is not modelled.
- Integer width: counters and responses are unbounded, int64 nanoseconds are integers, float64 values are reals.
- `EventTime`: microseconds of TIMESTAMPTZ; no proof looks inside, so only equality of stored times matters.
- Redis expiry below one clock unit and negative ttl values.
- A crash inside the background ticker's flush: `SinkThreads` shows what is unsettled at a commit; `Delivery` and `Claims` treat runs in which the ticker does not hold a batch.
- TimescaleSink.Sink.Flush: one caller at a time; the mutex and the ticker are in `SinkThreads`.
- Pool.Pool.Submit: the wait ends with room or with the context; a context that never ends is a longer list of worker moves. That the runtime gives a freed slot to the longest-blocked sender is not modelled: any sender may take it.
- LossTest.Produce: the producers run one after the other; the row count needs only the set of what they send. A concurrency of zero or less, which divides by zero or sends nothing, is not modelled.
- internal/loadgen, internal/hdr, internal/results, internal/benchmeta, report data, charts and markdown rendering, the other commands, deployment and scripts: measurement and glue around the modelled parts.
