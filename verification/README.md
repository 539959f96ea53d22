# OrionServe-RS: verified models of the inference engine

OrionServe-RS serves language models from one engine thread. This project models the parts
of it that are plain sequential state machines and arithmetic, and proves what they are for.

| part | files |
|---|---|
| Paged KV cache: reference-counted block pool, prefix index, block tables | `Hashing`, `BlockPool`, `PoolInvariant`, `PrefixIndex`, `KvCache`, `KvCacheManager`, `KvConservation`, `PrefixSoundness`, `Collisions`, `DigestCollision`, `ReleaseOrder` |
| Continuous-batching scheduler over that cache | `Sequence`, `Queues`, `Scheduling`, `Scheduler`, `SchedulerOrder`, `SchedulerInvariant`, `SchedulerRuns`, `ArrivalOrder`, `ChunkTiling`, `NoStall`, `Drain`, `SlotDrain`, `SchedulerCacheRuns`, `SmallPasses`, `FinishedRunning`, `OldestRunning` |
| Engine step, event streams, the batch for the model | `EngineSteps`, `Engine`, `StreamProtocol`, `LastEvents`, `EngineRuns`, `EngineOrder`, `EngineDrain`, `ModelDrain`, `BatchBuilding`, `BatchAcceptance`, `DecodePlacement`, `TimeoutSteps`, `QueueStall` |
| Paged attention and the cached forward pass | `Tensor`, `KvStore`, `Attention`, `Transformer`, `TransformerModel`, `CachedExecution`, `SlotSharing` |
| Streaming text: incremental decoder and stop-string matcher | `Utf8`, `IncrementalDecoder`, `StopMatcher` |
| Quantization and sampling arithmetic | `Quantization`, `Sampling` |

`Prelude` and `Arithmetic` hold shared types and the few facts about division and row-major
layout that the rest needs.

## How the model is built

Code that changes state is modelled by classes with the source's fields: `BlockPool`,
`PrefixCache`, `KvCacheManager`, the two queues, `Scheduler`, `Engine`, `Matrix`, `KvStore`,
`TransformerModel`, `IncrementalDecoder`, `StopSequenceMatcher`. Each method is proved equal
to a function of the old state (`KvCacheManager.Allocate` to `KvCache.Allocated`,
`Scheduler.ScheduleStep` to `Scheduling.Schedule`, `Engine.Step` to `EngineSteps.Stepped`,
`TransformerModel.Forward` to `Transformer.Logits` and `Transformer.ArenaAfter`, and so on).
The lemmas are about those functions, over single calls, whole passes and whole runs.

Inputs that the source takes from outside are parameters: the rows a model returns and the
token sampled from each, whether a caller's channel takes an event, the set of requests past
their deadline, the arithmetic of f32, the tokenizer's decode function, the results of library
sort and selection, the random draw. Nothing is assumed about them beyond what the lemma says.

## Where code and documentation disagree

The model follows the code. These points are proved as stated in the table.

- `expire_timeouts` leaves finished sequences in the running set and the engine calls it just
  before `schedule`. An eviction can then put a finished sequence at the head of the queue,
  where no pass admits it or anyone behind it (`FinishedRunning.FinishedVictimStopsThePass`).
  If everything that runs has timed out or finished, the newest with its prompt through, and
  it times out, the next step drops it: one step is lost
  (`TimeoutSteps.TimedOutVictimCostsOneStep`). If the newest is in mid-prefill the step may
  fail (`TimeoutSteps.MidPrefillTimeoutFailsTheStep` says exactly when). If a sequence finished
  by itself in a step that failed before it reaped, and no request timeout is set, nothing
  drops it, and the engine serves nobody any more (`QueueStall.TheQueueBlocks`,
  `QueueStall.BlockedForGood`).
  `FinishedRunning.FinishedRunningProgress` says exactly when a pass over finished sequences
  gets on. `SchedulerRuns.QueuesAndCacheAgree`, `NoStall.WorkNeverStalls` and `Drain` start each
  pass with no finished sequence running; arrival order, the tiling of chunks, the stream
  protocol and all theorems over `SchedulerCacheRuns` and `EngineRuns` do not need that.
- The comment in `preempt_one` says that after preemption the prompt is prompt plus tokens so
  far. The code re-allocates and re-computes the original prompt only
  (`BatchBuilding.ReadmissionCoversPromptOnly`).
- A decode is placed at position `total_len`, one past the newest token, while its append
  makes room for one token more than the table backed. The position has a slot only when it
  lies in those blocks (`BatchBuilding.DecodeMayMissItsSlot`). It does not at a block boundary,
  nor, for a request re-admitted after preemption, once its output runs past the blocks of its
  prompt (`DecodePlacement.ReadmittedDecodeMissesItsSlot`); it does after a step that failed
  past scheduling. `BatchAcceptance.StepRunsExactly` says for every reachable engine state
  when the model accepts a batch, and `ModelDrain.TheModelAnswersEveryCaller` what the rejected
  steps cost when reservations fit. Because accepted decodes sit one position too far, the
  forward-pass theorem is stated for batches that continue their histories.
- A digest collision is said to degrade to a miss, never to corrupt data. The prefix index
  compares the tokens of one block only, so this fails when two histories with one digest end
  in the same block: `DigestCollision.CollisionCorrupts` gives the prompts, of 32-bit tokens,
  and the run. `Collisions.SoundExactlyWhenUnambiguous` gives the exact condition on the
  prompts, which is the hypothesis of `PrefixSoundness.AdoptedBlocksHoldTheSameHistory`; a
  collision between histories with different last blocks is harmless
  (`Collisions.DifferentEndsAreHarmless`).
- The last event is to report the completion tokens. For a request that times out while it
  waits, after tokens were sent and it was preempted, it reports zero
  (`LastEvents.EvictedTimeoutUndercounts`); a cancelled one reports zero even while it runs.
  `LastEvents.TimeoutCountIsExactIff` and `LastEvents.CancelCountIsExactIff` say exactly when
  the count is right.
- Quantization promises a small error for every group. Very large values relative to the range
  saturate the integer cast; `Quantization.QuantizationError` gives the exact condition. There
  the reconstruction also overflows (`Quantization.DifferenceFits`).

## Model

| member | source | states |
|---|---|---|
| `KvConservation.AllocationIsExact` | crates/orion-kv-cache/src/manager.rs:140-250 | `allocate` succeeds iff the sequence has no table and its blocks fit in the free ones, so the roll-back never fires; the reused blocks are a leading run of cached ones, reused plus new is ceil(len / block_size), the free list shrinks by the new and the revived blocks and by no more than the estimate; an error leaves the manager unchanged |
| `KvConservation.AppendingIsExact` | crates/orion-kv-cache/src/manager.rs:290-335 | `append_token` succeeds iff there is a table with a slot left or a free block; it adds one token, takes a block exactly at a block boundary, keeps every count right, and changes nothing when it fails |
| `KvConservation.FreeingConserves` | crates/orion-kv-cache/src/manager.rs:341-358 | freeing removes exactly the one table, no release inside it is ever refused, and every reference count stays the number of occurrences over all tables |
| `KvConservation.FreeBlocksExact` | crates/orion-kv-cache/src/manager.rs:105-107 | free blocks are the total less the distinct blocks that tables reference |
| `KvConservation.NoTablesAllFree` | crates/orion-kv-cache/src/block.rs:190-207 | once no sequence has a table every block is free |
| `KvConservation.ComputedBlocksAreExclusive` | crates/orion-kv-cache/src/manager.rs:209-236 | the blocks allocated fresh for a prompt have reference count one |
| `KvConservation.CommittingConserves` | crates/orion-kv-cache/src/manager.rs:258-283 | publishing changes no table, no count and no free block |
| `KvConservation.EvictingConserves` | crates/orion-kv-cache/src/manager.rs:395-408 | eviction changes no table and frees no block |
| `KvConservation.NewManagerConsistent` | crates/orion-kv-cache/src/manager.rs:87-95 | a new manager satisfies reference conservation |
| `PoolInvariant.TakeConserves` | crates/orion-kv-cache/src/block.rs:152-169 | taking a block keeps counts and free list in agreement with the references, which gain that block |
| `PoolInvariant.ReferencedConserves` | crates/orion-kv-cache/src/block.rs:172-187 | one more reference, with revival of a free block out of the free list |
| `PoolInvariant.ReleasedConserves` | crates/orion-kv-cache/src/block.rs:190-207 | a release of a held block succeeds and lowers its count by one; at zero it joins the free list |
| `PoolInvariant.FreeIsTotalLessReferenced` | crates/orion-kv-cache/src/block.rs:118-129 | the free list has as many blocks as are not referenced |
| `PoolInvariant.FreeListIsLeastRecentlyReleased` | crates/orion-kv-cache/src/block.rs:152-207 | over any run of pool operations the free list has no duplicates and the block recycled next is the one released longest ago |
| `Hashing.ComputeHashBlock` | crates/orion-kv-cache/src/table.rs:105-120 | the loop computes the specified digest of a block |
| `Hashing.HashBlockInjectiveInParent` | crates/orion-kv-cache/src/table.rs:105-120 | for fixed tokens the digests agree iff the parent digests lead to the same start state |
| `Hashing.MixInjective` | crates/orion-kv-cache/src/table.rs:117-120 | the mixing step, with wrapping multiplication and rotation, is injective in the state |
| `PrefixSoundness.AdoptedBlocksHoldTheSameHistory` | crates/orion-kv-cache/src/manager.rs:194-245 | over any run, every block adopted at logical index i was published under the same first (i + 1) * block_size tokens and has been neither recycled nor rewritten since, provided the index can confuse no two whole-block histories of that run: two different ones with the same chained digest and the same last block, the first found under its own digests and the second able to take that digest |
| `Collisions.SoundExactlyWhenUnambiguous` | crates/orion-kv-cache/src/prefix.rs:81-116 | that condition is exact: for any set of prompts, over all pool sizes, all runs and all prompts that are prefixes of the given ones, no prompt ever adopts a block of another history iff the index can confuse no two of their histories |
| `Collisions.ConfusablePairIsConfused` | crates/orion-kv-cache/src/prefix.rs:81-116 | for every two histories that can be confused, the run that makes a prompt adopt the block of the other: publish the shorter prefix, or publish it and then the other prompt |
| `Collisions.DifferentEndsAreHarmless` | crates/orion-kv-cache/src/prefix.rs:13-15 | where histories with one digest always differ in their last block, as the comment there supposes, the token comparison suffices |
| `DigestCollision.TokensCollide` | crates/orion-kv-cache/src/table.rs:105-120 | two different prompts of two blocks of two 32-bit tokens, with the same second block and the same chained digest |
| `DigestCollision.CollisionCorrupts` | crates/orion-kv-cache/src/prefix.rs:13-15 | so the promise that a collision degrades to a miss fails on 32-bit tokens: after publishing the first block of one prompt and then the other prompt, the first prompt adopts the block computed for the other |
| `PrefixSoundness.PublishedBlocksNeverChange` | crates/orion-kv-cache/src/manager.rs:258-335 | in any tracked state, whatever comes next, a published block that is referenced keeps its contents; an append writes only a block that is its own and unpublished |
| `PrefixSoundness.AppendWritesExclusively` | crates/orion-kv-cache/src/manager.rs:290-335 | the block an append rewrites has reference count one, no digest and no index entry, and is in no other table |
| `PrefixSoundness.StepKeepsTracked` | crates/orion-kv-cache/src/prefix.rs:81-129 | every operation keeps: index entries name full blocks that still carry that very digest, tables list their own unpublished blocks or blocks published under their prompt |
| `SchedulerCacheRuns.SchedulerRunsTheCache` | crates/orion-scheduler/src/scheduler.rs:174-560 | every scheduler run, passes over finished and timed-out sequences included, is a run of cache operations in which each sequence is published with the prompt it was allocated for; the cache of the scheduler is the state after that run |
| `SchedulerCacheRuns.OnlyRunningHoldBlocks` | crates/orion-scheduler/src/scheduler.rs:174-560 | over every scheduler run, without restriction: counts are exact, only running sequences have a table, and when nothing runs every block is free |
| `SchedulerCacheRuns.SchedulerAdoptsOwnHistory` | crates/orion-kv-cache/src/manager.rs:194-245 | prefix-cache soundness for the whole scheduler: after any run of requests, passes, tokens, preemptions, cancellations and timeouts, in any order, a prompt adopts only blocks published under its own prefix, under that same condition on the prompts of the run |
| `EngineRuns.EngineRunsTheScheduler` | crates/orion-runtime/src/engine.rs:236-425 | over every engine run, with any forward results, sampling failures, lost callers and deadlines: the scheduler inside the engine is the scheduler after the run of operations the calls stand for |
| `EngineRuns.EngineLeaksNoBlocks` | crates/orion-runtime/src/engine.rs:236-425 | over every engine run: counts are exact, only running sequences hold blocks, and when nothing runs every block is free, through every early exit of a step |
| `EngineRuns.EngineAdoptsOwnHistory` | crates/orion-runtime/src/engine.rs:236-425 | prefix-cache soundness for the whole engine, under the same condition on the prompts submitted |
| `ReleaseOrder.RecyclesLeastRecentlyReleased` | crates/orion-kv-cache/src/manager.rs:140-415 | over every run of cache operations: the free list has no duplicates, and the block that the next allocation or append recycles was released before every other free block |
| `SchedulerCacheRuns.DecodesFollow` | crates/orion-scheduler/src/scheduler.rs:262-309 | the decode loop is a sequence of appends and frees on the cache, eviction and retry included |
| `SlotSharing.TablesAreApart` | crates/orion-kv-cache/src/manager.rs:163-335 | in every reachable cache state in whose run the index can confuse no two histories, two block tables share a slot only at the same position of the same history: what the forward-pass theorem asks of its lanes |
| `SlotSharing.SharedPrefix` | crates/orion-kv-cache/src/prefix.rs:81-129 | a block listed in two places stands at the same logical index of the same prompt prefix |
| `SchedulerOrder.ScheduleKeepsOrder` | crates/orion-scheduler/src/scheduler.rs:262-467 | whatever a pass preempts and re-admits, running followed by waiting lists the same requests in the same order with the same outputs; no assumption on the state |
| `SchedulerOrder.ScheduleWithinBudgets` | crates/orion-scheduler/src/scheduler.rs:235-467 | the batch sums to the tokens used, within the token budget; every entry has a token; at most max_num_seqs run |
| `SchedulerOrder.AdmitPreemptionsBounded` | crates/orion-scheduler/src/scheduler.rs:385-467 | the admission loop preempts at most once for each budget token left and once for each resident sequence |
| `Scheduling.AdmitRoundProgress` | crates/orion-scheduler/src/scheduler.rs:385-467 | each round of the admission loop stops it, or shrinks the running set by its newest member, or spends budget: the lexicographic measure |
| `SchedulerRuns.QueuesAndCacheAgree` | crates/orion-scheduler/src/scheduler.rs:222-232 | over all runs in which a pass starts with no finished sequence running: the sequences with a table are exactly the running ones, waiting ones have no prefill progress, and when nothing runs every block is free |
| `ChunkTiling.ChunksTile` | crates/orion-scheduler/src/scheduler.rs:336-467 | over every run of requests that arrive without progress, passes over finished and timed-out sequences included: every prefill chunk starts at zero or where the last one of its sequence ended, and the chunks of each running sequence since the last that started at zero tile its progress, without gap or overlap |
| `ChunkTiling.ScheduleTiles` | crates/orion-scheduler/src/scheduler.rs:235-467 | one pass keeps the tiling, whoever runs when it starts |
| `EngineOrder.EngineChunksTile` | crates/orion-runtime/src/engine.rs:293-342 | the same over every engine run, through every early exit of a step |
| `ArrivalOrder.ArrivalOrderIsKept` | crates/orion-scheduler/src/queue.rs:41-53 | over every run, passes over finished and timed-out sequences included: running followed by waiting is the live requests in arrival order, no later arrival is resident while an earlier one waits, and at most max_num_seqs run |
| `SchedulerRuns.StepIds` | crates/orion-scheduler/src/scheduler.rs:174-560 | every scheduler operation, from any state with distinct ids, leaves running followed by waiting in its order, without the ids that leave and with the one that arrives at the end |
| `EngineOrder.EngineServesInOrder` | crates/orion-runtime/src/engine.rs:236-342 | over every engine run, whatever times out, fails, is evicted or cancelled: running followed by waiting is in increasing order of the ids, which are given out in order of submission, and at most max_num_seqs run |
| `SchedulerInvariant.ScheduleOk` | crates/orion-scheduler/src/scheduler.rs:235-260 | one pass that starts with no finished sequence running keeps queues and cache in agreement |
| `SchedulerRuns.StepStaysHealthy` | crates/orion-scheduler/src/scheduler.rs:174-560 | every other scheduler operation, and such a pass, keeps queues and cache in agreement |
| `NoStall.WorkNeverStalls` | crates/orion-scheduler/src/scheduler.rs:235-467 | with chunked prefill, decodes first, budget >= max_num_seqs >= 1, prompts that are not empty and no finished sequence running: a pass over outstanding work schedules a sequence still resident at return |
| `NoStall.CompleteHeadBlocksTheQueue` | crates/orion-scheduler/src/scheduler.rs:409-416 | a waiting head without remaining prefill ends the admission loop at once, whoever waits behind it |
| `FinishedRunning.FinishedVictimStopsThePass` | crates/orion-scheduler/src/scheduler.rs:311-324 | why no finished sequence may be running: with any number of them, the newest with its prompt through, the pass schedules nothing iff there is no free place or the head of the queue does not fit; then nothing moves, or only that newest sequence, to the head of the queue, giving up its blocks |
| `FinishedRunning.FinishedRunningProgress` | crates/orion-scheduler/src/scheduler.rs:385-467 | for a pass that starts with finished sequences only, while requests wait: the batch can be built and serves a resident sequence iff a place is free and the head of the queue fits in the free blocks |
| `FinishedRunning.StackedServes` | crates/orion-scheduler/src/scheduler.rs:390-466 | once a head has been admitted above sequences that stay, the loop never evicts below it: whatever it evicts fits again, and it ends with a served sequence on top |
| `FinishedRunning.OustedSpoils` | crates/orion-scheduler/src/scheduler.rs:311-324 | once a finished sequence has been evicted, the pass serves nobody or its batch cannot be built |
| `OldestRunning.OldestKeepsThePassGoing` | crates/orion-scheduler/src/scheduler.rs:262-467 | whatever else runs, finished or not: if the oldest sequence is unfinished, and is in its prefill or can grow by a token, the pass schedules a sequence that is resident at return |
| `TimeoutSteps.TimedOutVictimCostsOneStep` | crates/orion-runtime/src/engine.rs:293-305 | any number of running sequences that are all late or finished, the newest with its prompt through, and no place or no room beside them for the first request that still waits: that step schedules nothing, returns zero and reaps them, leaving at most the newest at the queue head; the next step drops it with the late requests, and builds a batch that serves the first request that is not late |
| `TimeoutSteps.MidPrefillTimeoutFailsTheStep` | crates/orion-runtime/src/engine.rs:293-309 | any number of running sequences that are all late or finished, the newest in mid-prefill: with a free place, the step fails with an internal error, whatever the model would do, iff the newest joins again for good, which takes the whole budget or a head that fits once its blocks are free; that is always so when it is alone; otherwise it returns zero, for a model that answers a batch without rows |
| `TimeoutSteps.MidPrefillVictimSpoilsTheBatch` | crates/orion-scheduler/src/scheduler.rs:390-466 | for the pass of such a step: the batch cannot be built iff the newest joins again for good; otherwise it is evicted twice and the batch is built without a row |
| `QueueStall.BlockedForGood` | crates/orion-runtime/src/engine.rs:293-305 | a finished sequence at the queue head with nothing running: through any calls that neither cancel it nor find it late, it stays there, every step returns zero, and no caller receives another token |
| `QueueStall.BlockedStep` | crates/orion-runtime/src/engine.rs:293-305 | one such step, in any configuration |
| `QueueStall.TheQueueBlocks` | crates/orion-runtime/src/engine.rs:313-341 | a concrete run of six calls reaches that state with all blocks free: a row from which the greedy sampler takes no token ends the step before it reaps a sequence that finished in an earlier row |
| `Drain.EveryRequestFinishes` | crates/orion-scheduler/src/scheduler.rs:721-761 | when the blocks all live requests can need, with any room to run ahead, sum to at most the pool, and no table is further ahead than that: rounds of schedule, tokens and reaping never preempt and drain everything within the sum of prompt and output lengths, whatever tokens are drawn |
| `Drain.RoundMakesProgress` | crates/orion-scheduler/src/scheduler.rs:235-517 | one such round preempts nobody, keeps the reservations and lowers remaining prefill plus remaining output |
| `Drain.AdmissionReserves` | crates/orion-scheduler/src/scheduler.rs:174-206 | a request whose own reservation fits is admitted iff the waiting queue is below its limit and prompt plus max_tokens is within the context length, and the state stays reserved |
| `Drain.NewStateReserved` | crates/orion-scheduler/src/scheduler.rs:129-137 | the empty scheduler is in a reserved state |
| `EngineDrain.EveryCallerIsAnswered` | crates/orion-runtime/src/engine.rs:293-342 | when the blocks all live requests can need sum to at most the pool: within as many engine steps as there are prompt and output tokens, with nobody late and every batch row run, sampled and taken, whatever the tokens are, the engine is idle, and every request that was active and whose channel is open has received a Stop or Length event last |
| `EngineDrain.StaysReserved` | crates/orion-runtime/src/engine.rs:236-342 | from such a state on, so the empty engine too, any mix of requests whose reservations fit and such steps keeps the reservations |
| `EngineDrain.FreshEngineIsReserved` | crates/orion-runtime/src/engine.rs:236-269 | the empty engine is in such a state, whatever room is asked for |
| `EngineDrain.StepIsRound` | crates/orion-runtime/src/engine.rs:293-342 | such a step succeeds and does to the scheduler what one round of the drain theorem does |
| `ModelDrain.TheModelAnswersEveryCaller` | crates/orion-runtime/src/engine.rs:293-342 | the same with the acceptance of the model as it is, whose forward pass fails in every step with a decode outside its table: for requests within vocabulary and context, whose reservations have room for the lags, as many steps more are enough as the tables lag behind their sequences, which is one for each new request |
| `ModelDrain.FewStepsAreRejected` | crates/orion-runtime/src/engine.rs:307-310 | in such a run the model rejects at most that many steps |
| `ModelDrain.AcceptedExactlyWhenPlaced` | crates/orion-models/src/transformer.rs:359-442 | from such a state the batch of the next pass is built, and the model accepts it iff every decode has its slot |
| `ModelDrain.NewRequestsLagByOne` | crates/orion-scheduler/src/scheduler.rs:272-304 | requests that wait and have generated nothing lag by one token each |
| `SlotDrain.PassLags` | crates/orion-scheduler/src/scheduler.rs:272-304 | a pass whose batch is not run leaves no table further behind its sequence, and one less far if some decode has no slot |
| `SlotDrain.RoundLags` | crates/orion-scheduler/src/scheduler.rs:235-517 | a round that is run leaves the tables no further behind in all |
| `StreamProtocol.StreamsAreWellFormed` | crates/orion-runtime/src/engine.rs:236-425 | over every engine run: a caller receives tokens numbered 0, 1, 2, ... and then at most one last event; Stop and Length report exactly the tokens sent, at most max_tokens; Length exactly max_tokens; Stop ends with a stop token and not before min_tokens; Cancelled reports zero; Timeout reports all tokens sent or zero |
| `LastEvents.TimeoutCountIsExactIff` | crates/orion-runtime/src/engine.rs:293-300 | in any engine state that a run reaches: the stream of an active request that is late ends in that step with a Timeout event, whose count is the number of tokens sent iff the request is running or none was sent; else it is zero |
| `LastEvents.CancelCountIsExactIff` | crates/orion-runtime/src/engine.rs:272-282 | the stream of a cancelled request ends with a Cancelled event that counts zero, running or not, which is the number of tokens sent iff none was sent |
| `LastEvents.EvictedTimeoutUndercounts` | crates/orion-runtime/src/engine.rs:395-409 | a concrete run of five calls: a request gets a token, is evicted to make room, and times out while waiting, with a count of zero |
| `StreamProtocol.EndedStreamsStayEnded` | crates/orion-runtime/src/engine.rs:272-282 | whatever follows, a caller keeps what it received, and a request that is not active receives nothing more; an ended stream is not active |
| `StreamProtocol.ActiveAreTheUnfinished` | crates/orion-runtime/src/engine.rs:345-425 | over every run the active map holds exactly the unfinished sequences, waiting or running, and their callers have received exactly their output |
| `StreamProtocol.StepKeeps` | crates/orion-runtime/src/engine.rs:293-342 | one step keeps the protocol, through timeouts, preemption, a failed batch, a failed forward pass or sampler, and lost callers, for any rows the model returns |
| `StreamProtocol.CancelKeeps` | crates/orion-runtime/src/engine.rs:272-282 | cancelling ends the one stream and keeps the protocol for all others |
| `BatchBuilding.BatchAlwaysBuilds` | crates/orion-runtime/src/engine.rs:428-487 | after a pass over a healthy scheduler the batch can always be built: no table is missing, no prompt slice is out of range, and every row carries exactly the tokens scheduled |
| `BatchAcceptance.StepRunsExactly` | crates/orion-runtime/src/engine.rs:293-310 | over every engine run and every set of late requests: the next step builds its batch iff each resident sequence it scheduled has its table, and the model accepts the batch iff the tokens are in the vocabulary, the positions within the rotary tables and each decode within the blocks of its table |
| `BatchAcceptance.PassRunsExactly` | crates/orion-runtime/src/engine.rs:428-487 | the same for one pass, from the agreement of scheduler and cache |
| `BatchAcceptance.ForwardAcceptsExactly` | crates/orion-models/src/transformer.rs:359-442 | for any rows that are not empty, laid end to end: the arrays agree, and the forward pass accepts the batch iff it accepts every row by tokens, positions and blocks |
| `BatchAcceptance.BatchBuildsExactly` | crates/orion-runtime/src/engine.rs:442-485 | for any state and any batch entries: building succeeds iff every entry whose sequence is running has a table and starts inside its prompt |
| `BatchBuilding.ScheduleFits` | crates/orion-scheduler/src/scheduler.rs:336-467 | for any pass over distinct ids, every prefill chunk of the batch lies inside the prompt of its sequence |
| `BatchBuilding.DecodeMayMissItsSlot` | crates/orion-scheduler/src/scheduler.rs:272-304 | a decode is placed at total_len: after its append the position has a slot iff total_len < ceil((n + 1) / block_size) * block_size, where n is what the table backed before, for every table |
| `BatchBuilding.SlotByKindOfTable` | crates/orion-scheduler/src/scheduler.rs:272-304 | that condition by kind of table: in step with the output, iff total_len is not a multiple of the block size; after a step that failed past scheduling, always; after re-admission, iff the output is shorter than block_size less the part of the last block that the prompt takes |
| `DecodePlacement.ReadmittedDecodeMissesItsSlot` | crates/orion-scheduler/src/scheduler.rs:272-324 | a concrete run in which a re-admitted request is scheduled at position 3 of a table of one block of two, though 3 is not a multiple of 2 |
| `DecodePlacement.EvictedDecodeMissesItsSlot` | crates/orion-scheduler/src/scheduler.rs:311-324 | a concrete run in which a decode finds its slot, its sequence is evicted and re-admitted in the same pass, and no model runs the entry |
| `BatchBuilding.ReadmissionCoversPromptOnly` | crates/orion-scheduler/src/scheduler.rs:311-324 | a re-admitted request gets a table for its original prompt only; it covers prompt and generated tokens, as the comment there promises, iff nothing had been generated |
| `KvStores.VectorsAreDisjoint` | crates/orion-models/src/attention.rs:81-104 | different in-range (layer, block, key or value, slot, head) tuples own disjoint ranges of the arena |
| `KvStores.VectorFits` | crates/orion-models/src/attention.rs:53-104 | every such range lies inside the arena |
| `KvStores.OffsetIsRank` | crates/orion-models/src/attention.rs:87-104 | the offset computed region by region is the mixed-radix rank times head_dim |
| `KvStores.ReadsLastWrite` | crates/orion-models/src/attention.rs:107-134 | after any series of writes, refused ones included, a read returns the last vector written to that tuple |
| `Attention.PagedAttention` | crates/orion-models/src/attention.rs:219-295 | fails iff the shapes do not fit or a position up to the query has no readable slot; otherwise the row is attention over the gathered keys and values, and no other row changes |
| `Attention.MixValues` | crates/orion-models/src/attention.rs:279-292 | one head of the output is the weighted sum of values, weights of zero left out |
| `Attention.ComputeScores` | crates/orion-models/src/attention.rs:262-275 | scores are the scaled dot products with every key up to the causal limit; fails iff one is unmapped |
| `CachedExecution.CachedExecutionIsRecomputation` | crates/orion-models/src/transformer.rs:359-442 | after any run of forward passes over any batches and chunks, with lanes that come, grow, share cached prefixes and go, the logits of each sequence are those of recomputing its whole history from its tokens alone |
| `CachedExecution.ForwardKeepsFaith` | crates/orion-models/src/transformer.rs:230-347 | a forward pass leaves every cached key and value of every lane, at each layer and position, equal to the recomputed one |
| `CachedExecution.PrefixDecides` | crates/orion-models/src/attention.rs:252-253 | causality: hidden states depend only on the tokens up to their position |
| `CachedExecution.LayerFaithful` | crates/orion-models/src/transformer.rs:281-326 | within a layer all rows write before any attends, so rows and cache agree with recomputation layer by layer |
| `TransformerModels.TransformerModel.Forward` | crates/orion-models/src/transformer.rs:359-442 | succeeds iff the batch arrays agree, every sequence brings a token, and every token, position and block is in range; then returns the specified logits and writes exactly the specified cache entries |
| `TransformerModels.TransformerModel.LayerForward` | crates/orion-models/src/transformer.rs:230-347 | one layer over the batch in place: hidden rows and arena become those of the layer function; fails iff some row cannot be placed or read |
| `TransformerModels.TransformerModel.WriteRows` | crates/orion-models/src/transformer.rs:283-297 | writes keys and values of all rows, head by head |
| `TransformerModels.TransformerModel.Project` | crates/orion-models/src/transformer.rs:245-279 | queries, keys and values of each row, rotated for its position; fails iff a position is beyond the rotary table |
| `TransformerModels.TransformerModel.Embed` | crates/orion-models/src/transformer.rs:208-223 | one embedding row for each token; fails iff a token is outside the vocabulary |
| `Transformer.LastRowIsOwned` | crates/orion-models/src/transformer.rs:410-420 | the row picked for a sequence is one that the sequence contributed |
| `Tensors.Linear` | crates/orion-models/src/tensor.rs:96-130 | each output row is a function of the same input row alone; fails iff shapes disagree |
| `Tensors.RmsNorm` | crates/orion-models/src/tensor.rs:143-163 | normalizes each row in place from that row alone; a shape mismatch changes nothing |
| `Tensors.SwiGlu` | crates/orion-models/src/tensor.rs:175-189 | elementwise on each row; a shape mismatch changes nothing |
| `Tensors.SoftmaxInPlace` | crates/orion-models/src/tensor.rs:192-209 | the three loops compute the specified softmax |
| `Tensors.ApplyRope` | crates/orion-models/src/tensor.rs:283-298 | rotates one head in place; fails iff the table width is not half the head |
| `Tensors.TurnedPairs` | crates/orion-models/src/tensor.rs:291-296 | dimension i is paired with dimension i + half, each pair turned by its own angle |
| `Tensors.Matrix.Set` | crates/orion-models/src/tensor.rs:80-85 | writing element (i, j) of the flat data changes row i at j and no other row |
| `IncrementalDecoders.StreamingIsBatchDecoding` | crates/orion-tokenizer/src/lib.rs:203-295 | for every window size, the concatenation of all pushes and the flush is the decoding of all tokens, no push ever cuts a character, and no chunk ends in U+FFFD, for any decode function that settles complete text |
| `IncrementalDecoders.PushEmitsSettledText` | crates/orion-tokenizer/src/lib.rs:203-260 | however the window is re-anchored, the text out after a push is the decoding of all tokens without its trailing replacement characters |
| `IncrementalDecoders.HalvesSettle` | crates/orion-tokenizer/src/lib.rs:154-182 | the hypothesis on decoding is met by a tokenizer that splits characters over tokens |
| `IncrementalDecoders.FinishCompletes` | crates/orion-tokenizer/src/lib.rs:274-294 | the flush emits exactly what was held back |
| `IncrementalDecoders.AnchorTracks` | crates/orion-tokenizer/src/lib.rs:214-227 | re-anchoring drops from the window exactly text that is already out |
| `StopMatchers.WatchingLosesNothing` | crates/orion-tokenizer/src/lib.rs:386-411 | for stop strings that are not empty and any chunks, the matcher has found nothing iff the whole text contains no stop string, and the buffer never exceeds max(2 * max_len, max_len + 3) bytes |
| `StopMatchers.PushSeesEverything` | crates/orion-tokenizer/src/lib.rs:386-411 | until the first match, push on text that is not empty returns the same stop string as a search of the whole text so far |
| `StopMatchers.BufferIsBounded` | crates/orion-tokenizer/src/lib.rs:401-409 | the retained buffer stays within its bound whatever is pushed |
| `Utf8.BoundaryIsNear` | crates/orion-tokenizer/src/lib.rs:402-408 | the search for a character boundary moves at most three bytes |
| `Quantization.PackingRoundTrip` | crates/orion-models/src/quantization.rs:200-233 | unpacking undoes packing for all in-range values, both widths and any length, and the packed length |
| `Quantization.QuantizationError` | crates/orion-models/src/quantization.rs:119-256 | every element stays in place; constant groups come back exactly; any other group within half a scale step everywhere iff min / scale >= 1/2 - 2^31 and max / scale <= 2^31 - 1/2 |
| `Quantization.SaturationBreaksTheBound` | crates/orion-models/src/quantization.rs:160-170 | the INT8 group [16777214, 16777215] violates the half-step bound because the casts saturate |
| `Quantization.SumFits` | crates/orion-models/src/quantization.rs:167-173 | adding the zero point never overflows 32 bits |
| `Quantization.DifferenceFits` | crates/orion-models/src/quantization.rs:251-252 | the subtraction of the zero point on the way back stays in 32 bits for an element of a group iff the lowest value is below 2^31 - 1/2 steps; beyond that it overflows for every element, where a build with overflow checks panics; the value the model wraps is that of a build without them |
| `Quantization.SaturationOverflows` | crates/orion-models/src/quantization.rs:251-252 | for both values of the INT8 group [16777214, 16777215] the subtraction overflows |
| `Quantization.Quantize` | crates/orion-models/src/quantization.rs:119-195 | fails iff a value is not finite; otherwise the specified tensor |
| `Quantization.Dequantize` | crates/orion-models/src/quantization.rs:236-256 | the loops restore group by group as specified |
| `Quantization.Pack` | crates/orion-models/src/quantization.rs:200-213 | the loops pack as specified, low nibble first |
| `Quantization.Unpack` | crates/orion-models/src/quantization.rs:216-233 | the loops unpack as specified, stopping at the count |
| `Sampling.SampledTokenSurvives` | crates/orion-runtime/src/sampling.rs:268-294 | with a live logit, every draw in [0, 1) yields a token that survived top-k and top-p, on a slice of the unit interval as long as its final probability |
| `Sampling.TopKKeepsTheLargest` | crates/orion-runtime/src/sampling.rs:82-98 | every token masked is below every token kept; at least k reach the threshold and fewer than k exceed it |
| `Sampling.TopPKeepsTheNucleus` | crates/orion-runtime/src/sampling.rs:111-148 | the kept set has mass >= p, mass < p without its last member, and no dropped token is more probable than a kept one |
| `Sampling.SoftmaxIsDistribution` | crates/orion-runtime/src/sampling.rs:160-190 | with a live logit: probabilities sum to one and are positive exactly on the live logits |
| `Sampling.DrawPicksItsSlice` | crates/orion-runtime/src/sampling.rs:209-224 | a draw picks the index whose cumulative interval contains it, which has positive probability |
| `Sampling.Sample` | crates/orion-runtime/src/sampling.rs:268-294 | greedy returns the lowest index of a largest logit; otherwise the token survives both filters; fails iff there are no logits |
| `Sampling.Argmax` | crates/orion-runtime/src/sampling.rs:196-206 | the lowest index of a largest logit |
| `Sampling.ApplyRepetitionPenalty` | crates/orion-runtime/src/sampling.rs:45-60 | each distinct context token once, in any order of the set |
| `Sampling.PenaltyLowers` | crates/orion-runtime/src/sampling.rs:57-58 | a penalty of at least one never raises a logit of either sign |
| `Sampling.ApplyTopK` | crates/orion-runtime/src/sampling.rs:82-98 | masks in place exactly the logits below the selected threshold |
| `Sampling.ApplyTopP` | crates/orion-runtime/src/sampling.rs:111-148 | masks in place exactly the candidates after the cutoff |
| `Sampling.ComputeSoftmax` | crates/orion-runtime/src/sampling.rs:160-190 | the loops compute the specified softmax, masked entries skipped |
| `Sampling.DrawFrom` | crates/orion-runtime/src/sampling.rs:209-224 | the cumulative loop and its fallback compute the specified draw |
| `BlockPools.BlockPool.Allocate` | crates/orion-kv-cache/src/block.rs:152-169 | the pool becomes the specified pool without its oldest free block, reported with its old digest; an empty pool fails unchanged |
| `BlockPools.BlockPool.AddRef` | crates/orion-kv-cache/src/block.rs:172-187 | one more reference, revived from the free list at zero; an unknown block fails unchanged |
| `BlockPools.BlockPool.Release` | crates/orion-kv-cache/src/block.rs:190-207 | one reference less, back to the free list at zero; a free or unknown block fails unchanged |
| `BlockPools.BlockPool.SetContents` | crates/orion-kv-cache/src/block.rs:210-233 | contents set as specified; overfilling or an unknown block fails unchanged |
| `BlockPools.BlockPool.EvictOldestCached` | crates/orion-kv-cache/src/block.rs:240-252 | forgets the oldest cached free block, which stays where it is in the free list |
| `PrefixIndex.PrefixCache.Lookup` | crates/orion-kv-cache/src/prefix.rs:81-98 | a hit only for equal tokens |
| `PrefixIndex.PrefixCache.Insert` | crates/orion-kv-cache/src/prefix.rs:112-116 | the first entry of a digest is kept |
| `PrefixIndex.PrefixCache.Remove` | crates/orion-kv-cache/src/prefix.rs:123-129 | an entry goes only if it names that very block |
| `KvCacheManagers.KvCacheManager.Allocate` | crates/orion-kv-cache/src/manager.rs:163-250 | the object and its result follow the allocation function, error paths included |
| `KvCacheManagers.KvCacheManager.CommitPrefill` | crates/orion-kv-cache/src/manager.rs:258-283 | publishes the full prompt blocks in order |
| `KvCacheManagers.KvCacheManager.AppendToken` | crates/orion-kv-cache/src/manager.rs:290-335 | grows the table by one token as specified, error paths included |
| `KvCacheManagers.KvCacheManager.Free` | crates/orion-kv-cache/src/manager.rs:341-358 | releases the table block by block |
| `KvCacheManagers.KvCacheManager.EvictCached` | crates/orion-kv-cache/src/manager.rs:395-408 | evicts up to count cached blocks and drops their entries |
| `KvCacheManagers.KvCacheManager.ClearPrefixCache` | crates/orion-kv-cache/src/manager.rs:411-415 | evicts everything evictable and empties the index |
| `Queues.WaitingQueue.Remove` | crates/orion-scheduler/src/queue.rs:68-72 | removes the first sequence with the id and keeps the order of the rest |
| `Queues.WaitingQueue.DrainWhere` | crates/orion-scheduler/src/queue.rs:75-90 | splits the queue, keeping order on both sides |
| `Queues.RunningQueue.PopNewest` | crates/orion-scheduler/src/queue.rs:143-145 | takes the last admitted |
| `Queues.RunningQueue.TakeFinished` | crates/orion-scheduler/src/queue.rs:156-169 | the index loop with in-place removal takes exactly the finished sequences, in order |
| `Schedulers.Scheduler.AddRequest` | crates/orion-scheduler/src/scheduler.rs:174-206 | the three admission checks, in order, or the request at the back of the queue |
| `Schedulers.Scheduler.Cancel` | crates/orion-scheduler/src/scheduler.rs:222-232 | removes from waiting, else from running with its blocks |
| `Schedulers.Scheduler.ScheduleStep` | crates/orion-scheduler/src/scheduler.rs:235-260 | the object and its batch follow the pass function in both priority modes |
| `Schedulers.Scheduler.ScheduleDecodes` | crates/orion-scheduler/src/scheduler.rs:262-309 | the decode loop with eviction and retry follows the decode function |
| `Schedulers.Scheduler.PreemptNewest` | crates/orion-scheduler/src/scheduler.rs:311-324 | evicts the newest to the queue front and frees its blocks |
| `Schedulers.Scheduler.SchedulePartialPrefills` | crates/orion-scheduler/src/scheduler.rs:336-383 | resumes running prefills within the budget |
| `Schedulers.Scheduler.SchedulePrefills` | crates/orion-scheduler/src/scheduler.rs:385-467 | terminates and follows the admission function |
| `Schedulers.Scheduler.AdmitNext` | crates/orion-scheduler/src/scheduler.rs:390-466 | one round of the admission loop: stop, preempt, or admit the head |
| `Schedulers.Scheduler.OnToken` | crates/orion-scheduler/src/scheduler.rs:473-504 | appends the token, and finishes on a stop token once allowed or at the length limit |
| `Schedulers.Scheduler.ReapFinished` | crates/orion-scheduler/src/scheduler.rs:510-517 | removes the finished sequences and frees their blocks |
| `Schedulers.Scheduler.ExpireTimeouts` | crates/orion-scheduler/src/scheduler.rs:524-545 | late running sequences finish in place, late waiting ones leave |
| `Schedulers.Scheduler.CommitPrefill` | crates/orion-scheduler/src/scheduler.rs:553-560 | publishes only a prefill that is through |
| `Engines.Engine.Submit` | crates/orion-runtime/src/engine.rs:236-269 | validation, admission and registration of the caller |
| `Sequences.Validate` | crates/orion-core/src/sampling.rs:85-134 | a request is refused iff a parameter is out of its range: temperature, top_p, repetition penalty, token limits, logprobs, number of stop strings, or an empty one |
| `Engines.Engine.Cancel` | crates/orion-runtime/src/engine.rs:272-282 | cancels a known request and tells its caller |
| `Engines.Engine.Step` | crates/orion-runtime/src/engine.rs:293-342 | the object follows the step function: expire, schedule, build, forward, emit, publish, reap, with every early exit |
| `Engines.Engine.SampleAndEmit` | crates/orion-runtime/src/engine.rs:313-386 | one output row: skip an unfinished prefill, else sample, append, stream, finish |
| `Engines.Engine.FinishRequest` | crates/orion-runtime/src/engine.rs:395-409 | the last event with the output length of the running sequence, and removal |
| `Engines.Engine.Reap` | crates/orion-runtime/src/engine.rs:413-425 | collects finished sequences and tells callers not told yet |
| `Engines.Engine.CollectBatch` | crates/orion-runtime/src/engine.rs:428-487 | the loop builds the batch or fails at the first bad row |
| `KvStores.KvStore.Write` | crates/orion-models/src/attention.rs:107-120 | accepts iff in range and of the right length; the arena becomes the specified one, else unchanged |
| `KvStores.KvStore.Read` | crates/orion-models/src/attention.rs:123-134 | the stored vector iff in range |
| `IncrementalDecoders.IncrementalDecoder.Push` | crates/orion-tokenizer/src/lib.rs:203-260 | emits so that all settled text is out; follows the push function |
| `IncrementalDecoders.IncrementalDecoder.Finish` | crates/orion-tokenizer/src/lib.rs:274-294 | flushes the rest; everything streamed is the text of all tokens |
| `StopMatchers.StopSequenceMatcher.Push` | crates/orion-tokenizer/src/lib.rs:386-411 | the buffer and the answer follow the push function |

## Left out

- Threads, channels, HTTP, server-sent events, metrics, tracing, the command line: input and output plumbing.
- Hugging Face tokenizer, safetensors, memory mapping, configuration parsing: library calls; `decode` is a parameter.
- `orion-cuda` and `orion-distributed`: GPU kernels, and the shares of a model that each of several devices would hold; no other crate depends on either, so nothing proved here meets them.
- Sequence and block table: values that their one owner replaces, where the source updates them through a mutable reference; nothing aliases them.
- Integer widths of ids, reference counts and token ids: unbounded naturals, except in the 64-bit hash and the 32-bit quantization casts, where wrap-around and saturation are written out.
- Hit and miss counters, `chain_tips`, utilization ratios, scheduler statistics, error messages: only the class of an error is kept.
- Wall-clock time and timings: the set of late requests is an input.
- StreamProtocol.StreamsAreWellFormed: promises no exact count for cancelled and timed-out requests, because the code reports zero for every cancelled one, and for a timed-out one that was waiting; LastEvents.TimeoutCountIsExactIff and LastEvents.CancelCountIsExactIff are exact.
- PrefixSoundness.AdoptedBlocksHoldTheSameHistory: assumes that the index can confuse no two histories of the run, because otherwise it is false; Collisions.SoundExactlyWhenUnambiguous.
- NoStall.WorkNeverStalls: for chunked prefill with decodes first; with prefill first or whole-prompt prefill the source gives no such guarantee.
- OldestRunning.OldestKeepsThePassGoing: one way. Where the oldest sequence has finished beside unfinished ones, or cannot grow, the outcome turns on how many blocks each eviction frees, which sharing decides; where all have finished, FinishedRunning.FinishedRunningProgress is exact.
- SchedulerRuns.QueuesAndCacheAgree: over runs in which a pass starts with no finished sequence running, because otherwise it is false: QueueStall.TheQueueBlocks reaches a queue whose head has progress.
- EngineDrain.EveryCallerIsAnswered: from states whose reservations fit, as Drain.EveryRequestFinishes; a request that is cancelled, late or abandoned meanwhile ends otherwise, as the stream protocol says. ModelDrain.TheModelAnswersEveryCaller counts the steps that the model rejects; what a rejected step should have computed is not computed later, so the tokens themselves are not spoken of.
- Drain.EveryRequestFinishes: under cache pressure the source does not promise completion, because the victim is re-admitted before the request it made room for.
- CachedExecution.CachedExecutionIsRecomputation: stated at the model's boundary, for batches that continue their histories, which a batch with a decode in it does not; for tables in which two histories share a slot only where they agree; a model whose query heads cannot be grouped over its kv heads fails every forward pass and is not covered.
- Tensors.RmsNorm: the reciprocal root mean square, accumulated in double precision by the source, is one open function of the row; a matrix without columns, on which the source panics, is not covered.
- Quantization.QuantizationError: over exact reals, so the rounding of f32 divisions and products is not part of the bound.
- Sampling.SampledTokenSurvives: over reals, so cumulative rounding, which the source's fallback is for, does not occur.
- Quantization.Quantize: minimum and maximum start from the first value instead of the largest and smallest f32, which is the same for finite values.
- `truncate_at_stop`, chat templates, `measure_error`, tensor sizes and compression ratios: the API layer shapes text with the first two, and the rest report numbers; no modelled function calls them, and they change no state that the theorems speak of.
- Swap preemption and quantized matrix multiplication: planned in the source, not present.
