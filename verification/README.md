# A verified model of my_vllm

This project models the inference engine of my_vllm and proves what it is for: batching, chunked prefill,
prefix sharing through a paged key/value cache, eviction and recompute preemption must not change what a
request generates.

It has four parts.

**The engine.** `Sequence`, `BlockManager`, `Scheduler` and `LLMEngine` are classes with the program's own fields
and loops (`BlockManager.dfy`, `Scheduler.dfy`, `LLMEngine.dfy`). Each method is proved to leave exactly the state
that a function on values gives (`BlockPool.dfy`, `SchedulerSpec.dfy`, `EngineSpec.dfy`); the functions carry the
invariants. A step is split into the phases schedule, run and finish, and requests may arrive between any two of
them (`Engine.dfy`, `StepProofs.dfy`). The reference a request is compared with is in `Transformer.dfy` and
`Generation.dfy`: the network recomputed from the whole text for every token, with the request's own generator,
and no cache, batch, block or scheduler in sight. The draw itself, with its top-p cut, is in `TokenSampling.dfy`.
What a plan takes in, whatever loop built it, is in `PlanProofs.dfy`, that computed prefixes are found again in
`ReuseProofs.dfy`, and what the reference's answers are like in `AnswerLaws.dfy`. Two histories are kept beside
the state: which prefix each block was hashed for, and every prefix hashed so far. The hash function is a
parameter; the theorems about contents assume that no two *different prefixes actually hashed in the run* have the
same chain hash (`PrefixCache.NoCollision`), and the structural ones assume nothing.

**The forward pass.** `PagedAttention.dfy` and `PagedRunner.dfy` run attention and the layer-by-layer batch on
flat arrays with the program's address arithmetic; `CacheLayout.dfy` says what the arrays hold, `PagedBatch.dfy`
proves that layer-by-layer evaluation equals running the rows one at a time, and `CudaStore.dfy` that the store
kernel, fed with the uploaded positions and padded tables of such a batch, stores the same in any thread order.
`AttentionLaws.dfy` says what attention computes without following its loops.

**The tokenizer.** UTF-8 codec, byte alphabet, pre-tokenizer, merges and special tokens of the Qwen3 tokenizer
(`Utf8.dfy` to `Qwen3Encoder.dfy`); its splitting and merging stated on the characters and on the tokenizer file
(`SplitterRules.dfy`, `TokenizerLaws.dfy`); and the incremental byte pair merge of the tiktoken header (`Tiktoken.dfy`).

**Two containers.** The robin-hood table (`RobinHood.dfy`, `RobinHoodMoves.dfy`, `DenseTable.dfy`) and the
caching allocator (`CachingAllocator.dfy`).

Names used below: `Inv` is the scheduler's invariant, `EngineInv` the engine's in any phase, `Right` says that
every readable slot and every text is the reference's and that no slot serves two prefixes (`SlotLabels.dfy`),
`Limits` that `max_num_seqs <= max_num_batched_tokens` and `max_model_len` is within the model's context.

## Where the code and a natural expectation differ

* `init` never compares `max_num_seqs` with `max_num_batched_tokens`. A decode plan of more sequences than
  `max_num_batched_tokens` is refused by the runner, and no other plan is (`BatchProofs.BatchVerdict`). From the
  empty engine some run ends that way exactly if `max_num_seqs` is the greater, `max_model_len` is at least 2, and
  the pool has the blocks of two tokens for each of `max_num_batched_tokens + 1` sequences: one block each, or two
  if a block holds one token (`BatchLimits.RefusedExactly`).
* Admission does not check the pool. A prompt of one token more than the pool holds is accepted, and the next step
  fails (`CapacityProofs.AcceptedThenFails`). Within the limits, and unless chain hashes collide, `generate` fails
  exactly if some request's prompt and answer, less the last token, need more blocks than there are
  (`LLMEngines.LLMEngine.Generate`); when end tokens are ignored that is known beforehand
  (`CapacityProofs.FitsIgnoringEos`). The "could not make progress" error cannot occur in any case
  (`ScheduleProofs.NeverStuck`).
* The UTF-8 decoder accepts overlong forms. Decoding an encoded text gives it back exactly if it has none
  (`Tokenizer.RoundTrip`); the two bytes C1 81 come back as the letter A (`Tokenizer.OverlongLost`).
* The pre-tokenizer's scan of white space stops behind its first run of line breaks. It ends where the greedy
  expression would exactly if all line breaks of the white space stand side by side (`Splitter.BlankEndGreedy`); a
  line break, a space and a line break show the difference (`Splitter.StopsAtFirstBreak`).
* The allocator's `release` returns early while there is no small pool yet: a buffer released then stays busy and
  is lent to nobody, whatever happens later (`CachingAllocator.ReleaseLeaks`). No buffer ever gets two owners.

## Model

| member | source | states |
|---|---|---|
| StepProofs.GenerationIsReference | engine/src/llm_engine.cpp:126-189 | from any reachable state, whatever arrives and runs afterwards, a request that has finished has exactly the tokens the uncached reference generates for it alone, unless chain hashes collided |
| StepProofs.Reachable | engine/src/scheduler.cpp:40-172 | every run of arrivals and phases keeps the block, queue and plan invariants, and unless hashes collided every readable slot and every text is the reference's |
| StepProofs.InitialOk | engine/src/llm_engine.cpp:9-27 | the invariants hold of an empty engine, whatever the cache memory contains |
| StepProofs.MoveOk | engine/src/llm_engine.cpp:126-189 | each single arrival or phase keeps them |
| Engine.ArriveOk | engine/src/llm_engine.cpp:38-70 | a request that passes the checks is numbered by arrival and goes to the end of the waiting queue; one that does not changes nothing; queues, pool and plan stay otherwise, and the invariants hold |
| StepProofs.ReachesLater | engine/src/sequence.cpp:45-48 | over any run a text only grows, keeps its request's id, prompt and parameters, and stays as it is once finished |
| StepProofs.StepOk | engine/src/llm_engine.cpp:126-189 | given the limits a step can only fail because a prompt needs more blocks than the pool has; otherwise it keeps the invariants |
| StepProofs.StepRight | engine/src/llm_engine.cpp:126-189 | a step keeps every slot and text right unless chain hashes collide |
| StepProofs.FinishPhaseOk | engine/src/scheduler.cpp:136-172 | after the model ran, postprocess meets none of its errors and advances exactly the planned sequences, each by its own token |
| StepProofs.FinishedFreesAll | engine/src/scheduler.cpp:26-29 | when no request is left, all blocks are free |
| Corollaries.BlocksConserved | engine/src/block_manager.cpp:66-159 | in every reachable state a ref count is the number of table entries naming the block, the free set is exactly the unnamed blocks, and each index entry points to a valid block with that hash |
| Corollaries.HashedBlocksMatch | engine/src/block_manager.cpp:45-64 | every computed full block of a sequence holds that sequence's own tokens and chain hash, with no assumption on the hash function |
| Corollaries.CachedSlotsRight | engine/src/block_manager.cpp:87-140 | every slot below num_cached_tokens holds, in every layer, the keys and values of that sequence's own text |
| Corollaries.PlannedSlotsExclusive | engine/src/scheduler.cpp:64-89 | every position a plan computes lies in an unhashed block of ref count 1, and its slot belongs to no other position of any sequence |
| Corollaries.PlannedSlotsCovered | engine/src/scheduler.cpp:113-122 | the block table covers every position that a plan computes |
| Corollaries.IdleShape | engine/src/scheduler.cpp:40-134 | between steps a running sequence has size minus one cached tokens with just the blocks for them, and only the waiting front may hold blocks |
| Corollaries.OnePlace | engine/src/scheduler.cpp:161-169 | each request is in exactly one of waiting, running and finished, as its status says |
| AllocationProofs.CanAllocateMeaning | engine/src/block_manager.cpp:45-64 | can_allocate reports the longest run of matching cached blocks short of the last block, and says yes exactly when the free blocks cover the rest |
| AllocationProofs.CachedRunMaximal | engine/src/block_manager.cpp:52-62 | every block of that run matches, the run stops before the last block, and it cannot be longer |
| AllocationProofs.AllocateOk | engine/src/block_manager.cpp:87-140 | after can_allocate said yes, allocate takes none of its error exits and gives the sequence a full table, counting exactly the shared run as cached |
| AllocationProofs.AllocateExact | engine/src/block_manager.cpp:87-140 | it uses exactly the blocks needed less the shared ones in use, when the chain hashes of the run are distinct |
| AllocationProofs.AllocateKv | engine/src/block_manager.cpp:98-125 | the cached positions of an allocated sequence hold its own prefixes unless chain hashes collided |
| AllocationProofs.DeallocateOk | engine/src/block_manager.cpp:150-159 | deallocate keeps the block invariants and leaves the contents of hashed blocks for later hits |
| AllocationProofs.MayAppendOk | engine/src/block_manager.cpp:161-182 | after can_append said yes, may_append succeeds and adds at most one block, held by this sequence alone |
| AllocationProofs.HashBlocksOk | engine/src/block_manager.cpp:184-224 | hash_blocks meets none of its errors on a scheduled sequence, and afterwards exactly the blocks that computed tokens fill are hashed |
| AllocationProofs.HashBlocksKv | engine/src/block_manager.cpp:184-224 | newly hashed blocks hold the prefixes they are hashed for |
| ReuseProofs.PrefixFound | engine/src/block_manager.cpp:45-64 | prefixes are shared: once a sequence that started uncached has computed its first blocks, with chain hashes that differ, can_allocate finds all of them for every text that starts alike, its last block excepted |
| ReuseProofs.HashingIndexes | engine/src/block_manager.cpp:184-224 | where the chain hashes of a text differ, hash_blocks makes every block it hashes the one that its chain hash leads to, tokens included |
| ReuseProofs.NeverCollide | engine/src/block_manager.cpp:24-43 | if the hash function tells its arguments apart and never gives the start value, no two prefixes of whole blocks collide, whatever was hashed, so that the assumption on contents holds of such a function |
| ReuseProofs.BlocksJoin | engine/src/sequence.cpp:31-43 | the blocks of a text put together are the text |
| BlockInvariants.TakeOk | engine/src/block_manager.cpp:66-85 | taking the least free block keeps the block invariants, stale index entries included |
| BlockInvariants.ReleaseOk | engine/src/block_manager.cpp:142-148 | so does giving a block back |
| ReuseProofs.TakeKeeps | engine/src/block_manager.cpp:66-85 | the block taken is the least free one, comes back unhashed with count one, and the index loses exactly the entries that pointed to it |
| ReuseProofs.ReleaseKeeps | engine/src/block_manager.cpp:142-148 | giving a block back leaves the index and all that blocks hold, so that it can be hit again |
| PrefixCache.MatchedOrigin | engine/src/block_manager.cpp:59 | unless chain hashes collided, a block that matches by hash and own tokens was hashed for this very prefix |
| SchedulerProofs.PrefillOk | engine/src/scheduler.cpp:45-90 | the prefill loop plans what the sequences have scheduled, within the token budget, and its only error is a prompt larger than the pool |
| SchedulerProofs.DecodeOk | engine/src/scheduler.cpp:99-124 | the decode loop schedules every candidate for one token or preempts it, and keeps the invariants |
| SchedulerProofs.PreemptOk | engine/src/scheduler.cpp:31-38 | a preempted sequence loses all blocks and cached counts, goes to the front of the waiting queue, and keeps its text |
| ScheduleProofs.ScheduleOk | engine/src/scheduler.cpp:40-134 | schedule keeps the invariants, its plan matches the state within the limits, and its only error is a prompt larger than the pool |
| ScheduleProofs.ScheduleKv | engine/src/scheduler.cpp:40-134 | and it keeps every cached position right |
| ScheduleProofs.NeverStuck | engine/src/scheduler.cpp:128-132 | the could-not-make-progress error is unreachable |
| ScheduleProofs.NoDeadlock | engine/src/scheduler.cpp:40-134 | if every unfinished sequence fits the pool, schedule succeeds, with an empty plan only when nothing is left |
| ScheduleProofs.RecursionDepth | engine/src/scheduler.cpp:128-131 | the self-recursion finds nothing running, and with nothing running schedule never recurses |
| ScheduleProofs.FrontFirst | engine/src/scheduler.cpp:45-89 | a waiting front that holds blocks is what the next plan starts with, from where it stopped |
| PlanProofs.SchedulePrefillMaximal | engine/src/scheduler.cpp:45-97 | a prefill plan is as large as it can be: each item takes the lesser of what its sequence lacks and the budget left before it, and if prompts are left waiting, the plan has max_num_seqs items, or ends within a prompt, or the new front holds blocks and lacks more than the budget left, or it holds none and the free blocks do not cover it |
| PlanProofs.PrefillComesFirst | engine/src/scheduler.cpp:45-97 | if the waiting front holds blocks or finds enough free ones, the plan is a prefill of the first waiting sequences in their order, and those it completes leave the queue |
| PostprocessProofs.PostOk | engine/src/scheduler.cpp:136-172 | every round of postprocess succeeds, so the missing-token and hash_blocks errors are unreachable |
| WaitingProofs.DecodeWaits | engine/src/scheduler.cpp:99-124 | a decode round plans or preempts the running sequence at index i, or moves it at least max_num_seqs places forward |
| WaitingProofs.BoundedWaiting | engine/src/scheduler.cpp:99-124 | over any run a request at index i that is neither planned nor preempted sees at most i / max_num_seqs decode batches |
| ResultProofs.StepDelivers | engine/src/llm_engine.cpp:179-188 | a step returns one result for each request that it finishes, with its whole completion, and no other |
| ResultProofs.ServedInOrder | engine/src/llm_engine.cpp:252-257 | once all have finished, the sorted results are those of the requests in order of arrival |
| ResultProofs.ExactlyOnce | engine/src/llm_engine.cpp:179-188 | over any run with any arrivals in between, a request that has finished has been answered by exactly one result, with its whole completion, and any other by none |
| ProgressProofs.StepProgress | engine/src/llm_engine.cpp:246-252 | every successful step with work left lowers the measure: tokens still allowed, then whether the waiting front holds blocks, then what it has left to compute |
| ProgressProofs.StepSucceeds | engine/src/llm_engine.cpp:126-189 | with the limits, and with every unfinished request fitting the pool alone, no step fails |
| ProgressProofs.StepFits | engine/src/llm_engine.cpp:126-189 | it is enough for a step that every unfinished text, as long as it is now, fits the pool |
| CapacityProofs.AcceptedThenFails | engine/src/llm_engine.cpp:55-64 | wherever the context is longer than the pool, a prompt of one token more than the pool holds is accepted, and the next step fails |
| CapacityProofs.TooLargeFails | engine/src/scheduler.cpp:49-62 | so does any accepted prompt that alone needs more blocks than there are |
| CapacityProofs.FailureNeedsRoom | engine/src/llm_engine.cpp:246-252 | unless chain hashes collided, a step of generate within the limits fails only if some request, with its whole answer but the last token, needs more blocks than there are |
| CapacityProofs.DoneFitted | engine/src/llm_engine.cpp:246-252 | and when all have finished without collisions, every one of them had the blocks for that at once |
| CapacityProofs.FitsIgnoringEos | engine/src/scheduler.cpp:157-163 | when end tokens are ignored, that condition is the one on prompt and max_tokens that a caller can check beforehand |
| SlotLabels.RunLabelled | model/src/qwen3_paged_batch.cpp:138-290 | running a plan keeps a labelling of the slots in which every readable slot carries one prefix, that of its own sequence |
| SlotLabels.DistinctBlocks | engine/src/block_manager.cpp:87-140 | so a sequence whose whole text is computed holds no block twice |
| BatchLimits.RefusedExactly | engine/src/llm_engine.cpp:16-21 | some run ends in a batch refused for its size exactly if max_num_seqs exceeds max_num_batched_tokens, max_model_len is at least 2 and the pool has the blocks of two tokens for each of max_num_batched_tokens + 1 sequences |
| BatchLimits.RefusedForSize | model/src/qwen3_paged_batch.cpp:49-52 | in any context a batch is refused for its size exactly if its plan has more tokens than max_num_batched_tokens |
| RunningProofs.ScheduleTables | engine/src/scheduler.cpp:40-134 | a prefill plan only adds scheduled sequences to those running and keeps the tables of the others; a decode plan is for sequences that ran, whose tables it extends |
| RunningProofs.ReachesTidy | engine/src/scheduler.cpp:40-172 | over every run the last blocks of running sequences differ, and one that is not planned has two tokens or more |
| RunningProofs.DecodeNeeds | engine/src/block_manager.cpp:161-182 | a decode plan holds at least the blocks of two tokens for each of its sequences, no two sharing them |
| BatchLimits.NeverRefused | engine/src/scheduler.cpp:99-124 | with max_num_seqs within max_num_batched_tokens, no batch of any reachable state is refused for its size |
| PlanProofs.DecodeAllExactly | engine/src/scheduler.cpp:99-124 | the next candidates are all planned exactly if there is a free block for each of them that needs one, and otherwise one of them is preempted; after preemptions too |
| BatchProofs.BatchChecked | model/src/qwen3_paged_batch.cpp:49-73 | within the limits every batch that step builds passes all structural checks of the runner |
| BatchProofs.BatchVerdict | engine/src/llm_engine.cpp:138-157 | without the first limit it passes exactly if the plan has at most max_num_batched_tokens tokens |
| EngineSpec.CheckBatchMeaning | model/src/qwen3_paged_batch.cpp:49-73 | a batch is accepted exactly if it has between one and max_num_batched_tokens rows, each within the context, with a table that covers its position, is no longer than the context needs and names blocks of the cache only, and if logits are asked of its own rows only |
| BatchProofs.RowChecked | model/src/qwen3_paged_batch.cpp:58-70 | a row of an unfinished sequence lies within the context and its table, though a finished text may be one token longer than max_model_len |
| BatchProofs.LastPlace | engine/src/llm_engine.cpp:142-157 | the row sampled for a planned sequence is the one of its last scheduled position |
| EngineProofs.RunPhaseRight | engine/src/llm_engine.cpp:159-172 | the model run computes every scheduled position right, and every token is drawn from the reference's logits for the whole text |
| RunPlanProofs.PlanRun | model/src/qwen3_paged_batch.cpp:138-290 | running a plan's batch makes every scheduled position right and ends each row with the reference's hidden state |
| RunPlanProofs.PlanRows | engine/src/llm_engine.cpp:138-157 | the rows of a plan are well-formed, and no row touches the slot that a later row writes |
| PagedBatch.BatchIsRowByRow | model/src/qwen3_paged_batch.cpp:138-290 | layer-by-layer evaluation of a batch leaves the cache and hidden states of running its rows one at a time, whenever no row touches a slot that a later row writes |
| PagedBatch.RowCorrect | model/src/qwen3_paged_batch.cpp:138-290 | a row whose earlier positions are right computes its own position right in every layer |
| Transformer.Causal | model/src/qwen3_paged_batch.cpp:224-244 | what is computed for a position depends only on the tokens up to it |
| Transformer.LayerWise | model/src/qwen3_paged_batch.cpp:138-290 | the reference's hidden states, defined position by position, are those of the network run layer by layer on the whole text, each position attending to itself and those before it |
| Transformer.LogitsLayerWise | model/src/qwen3_paged_batch.cpp:291-312 | and its logits are those of the last position behind the last layer |
| Generation.CompleteStops | engine/src/scheduler.cpp:157-163 | the reference gives at least one token and at most max_tokens, and stops at the first place where a stop condition holds |
| Generation.ArgMax | engine/src/llm_engine.cpp:80-85 | the greedy choice is the first of the greatest logits |
| AnswerLaws.AnswerDrawn | engine/src/sequence.cpp:7-16 | in the reference's answer every token is the greedy choice or the draw from the logits of the whole text before it, with a generator that starts from the request's seed, or from its id if that is zero |
| AnswerLaws.AnswerEnds | engine/src/scheduler.cpp:157-163 | an answer has between one and max_tokens tokens; unless end tokens are ignored none stands before its last, and if it is shorter than max_tokens its last is one |
| RequestProofs.AppendTrack | engine/src/scheduler.cpp:151-169 | a sequence stops exactly where the reference stops |
| RequestProofs.SampleOk | engine/src/llm_engine.cpp:166-173 | sampling draws one token for each sampled item from its own row and generator, and moves no other generator |
| BatchBuilding.RowNext | engine/src/llm_engine.cpp:141-149 | one more position of a planned sequence is one more row, with its token, position and table |
| GenerateProofs.GoingSucceeds | engine/src/llm_engine.cpp:246-252 | no step of generate fails if every request fits the pool alone, within the limits |
| GenerateProofs.MeasureFalls | engine/src/llm_engine.cpp:246-252 | each round of generate lowers a lexicographic measure of natural numbers |
| GenerateProofs.PendingAnswered | engine/src/llm_engine.cpp:253-257 | when it is done there is one result for each prompt, in order, within max_tokens, and equal to the reference's answer unless chain hashes collided |
| EngineSpec.CheckRequestMeaning | engine/src/llm_engine.cpp:45-64 | the checks pass exactly if temperature and top_p are in range, the prompt is not empty, at least one token is asked for, and prompt and answer less its last token are within max_model_len |
| BlockManagers.Sequence.constructor | engine/src/sequence.cpp:7-16 | a new sequence has its prompt, no blocks, and a generator seeded by its id unless a seed is given |
| BlockManagers.Sequence.AppendToken | engine/src/sequence.cpp:45-48 | the token goes to the end, and nothing else changes |
| BlockManagers.BlockManager.constructor | engine/src/block_manager.cpp:13-22 | all blocks are free, unhashed and unused |
| BlockManagers.BlockManager.CanAllocate | engine/src/block_manager.cpp:45-64 | the loop computes what AllocationProofs.CanAllocateMeaning describes |
| BlockManagers.BlockManager.AllocateBlock | engine/src/block_manager.cpp:66-85 | the least free block is taken, its stale index entry goes only if it still points there, and -1 means none was free |
| BlockManagers.BlockManager.Allocate | engine/src/block_manager.cpp:87-140 | status, pool and sequence are those of BlockPool.Allocate, on every error path too |
| BlockManagers.BlockManager.ReleaseBlock | engine/src/block_manager.cpp:142-148 | the count goes down by one if it was positive, and the block is freed at zero |
| BlockManagers.BlockManager.Deallocate | engine/src/block_manager.cpp:150-159 | all blocks of the table are released, last first, and the counters are cleared |
| BlockManagers.BlockManager.CanAppend | engine/src/block_manager.cpp:161-167 | says whether the table covers the last token or a block is free |
| BlockManagers.BlockManager.MayAppend | engine/src/block_manager.cpp:169-182 | status, pool and table are those of BlockPool.MayAppend |
| BlockManagers.BlockManager.HashBlocks | engine/src/block_manager.cpp:184-224 | status and pool are those of BlockPool.HashBlocks |
| BlockPool.Least | engine/src/block_manager.cpp:69 | the first element of the free set is its least |
| Schedulers.Scheduler.Add | engine/src/scheduler.cpp:12-24 | a sequence not added before goes to the end of the waiting queue, or is refused if empty or of another block size |
| Schedulers.Scheduler.IsFinished | engine/src/scheduler.cpp:26-29 | both queues are empty |
| Schedulers.Scheduler.Preempt | engine/src/scheduler.cpp:31-38 | queues, pool and sequence are those of SchedulerSpec.Preempt |
| Schedulers.Scheduler.Schedule | engine/src/scheduler.cpp:40-134 | status, plan and the whole scheduler state are those of SchedulerSpec.Schedule, recursion included |
| Schedulers.Scheduler.Remove | engine/src/scheduler.cpp:168 | all occurrences of the sequence leave the running queue, and the others keep their order |
| Schedulers.Scheduler.Postprocess | engine/src/scheduler.cpp:136-172 | status and the whole scheduler state are those of SchedulerSpec.Postprocess |
| LLMEngines.LLMEngine.Init | engine/src/llm_engine.cpp:14-27 | succeeds exactly if all capacities are positive, a block fits the context and the cache was not configured before; the engine is then ready and right |
| LLMEngines.LLMEngine.AddRequest | engine/src/llm_engine.cpp:38-70 | refuses in the program's order of checks, accepts exactly the requests of EngineSpec.CheckRequestMeaning, and then gives the next id and moves the engine as an arrival does |
| LLMEngines.LLMEngine.Step | engine/src/llm_engine.cpp:126-189 | status, results, scheduler state and cache contents are those of the three phases in a row, after a failure too |
| LLMEngines.LLMEngine.SampleOne | engine/src/llm_engine.cpp:72-124 | at a temperature of at most one millionth the token is the first of the greatest logits and the generator stays; above it the token is the generator's pick from weights that are the exponentials of (logit less greatest logit) / temperature, cut to the top_p share |
| TokenSampling.CutWeights | engine/src/llm_engine.cpp:87-119 | each weight is the exponential of (logit less greatest logit) / temperature; if top_p is below 1, only the fewest greatest weights that reach that share of their sum are kept |
| TokenSampling.NucleusKeeps | engine/src/llm_engine.cpp:96-119 | the cut keeps the fewest of the greatest weights that together reach the share topP, at least one, and zeroes exactly the others |
| TokenSampling.DrawMeaning | engine/src/llm_engine.cpp:87-122 | every draw is the pick from such weights, in terms of logits, temperature and top_p alone |
| TokenSampling.DrawScales | engine/src/llm_engine.cpp:87-94 | logits and temperature multiplied by the same positive number give the same draw |
| TokenSampling.DrawShifts | engine/src/llm_engine.cpp:87-94 | so does the same number added to all logits |
| TokenSampling.HotterIsFlatter | engine/src/llm_engine.cpp:89-94 | with an exponential that grows, a higher temperature lowers no weight against the greatest |
| LLMEngines.LLMEngine.Generate | engine/src/llm_engine.cpp:191-258 | terminates; refuses by the first check that fails; otherwise, within the limits and without collisions, succeeds exactly if every request and its answer have room in the pool; then result k is the reference's answer to the tokens of prompt k under the k-th parameters, or under the only ones if one set was given, all blocks are free and the engine is as right as before for the next call; a failure is that of a step from a state the loop can reach |
| CacheLayout.AddressInBounds | model/src/qwen3_paged_batch.cpp:187-194 | the address of a column of a slot lies inside the cache array |
| CacheLayout.AddressInjective | model/src/qwen3_paged_batch.cpp:187-194 | addresses tell layer, block, offset and column apart |
| CacheLayout.AddressOrder | model/src/qwen3_paged_batch.cpp:187-194 | the cells are in row-major order: columns of a token, tokens of a block, blocks of a layer, layers |
| CacheLayout.StoreView | model/src/qwen3_paged_batch.cpp:195-202 | copying one row's keys and values to its address changes exactly that slot of that layer |
| PagedAttention.ContextAt | kernels/src/paged_attention_cpu.cpp:31-40 | what the kernel reads at its computed address is the gathered key or value of that token |
| PagedAttention.ColumnBounds | kernels/src/paged_attention_cpu.cpp:28 | the columns a query head reads lie inside a row, for every grouping of heads |
| AttentionLaws.AttendMixes | kernels/src/paged_attention_cpu.cpp:26-71 | each output column of head h is a mixture, with positive weights of sum 1, of the value columns of group h / kv_mul, and if the exponential turns sums into products, two weights are in the ratio of the exponentials of the scaled dot products of the head's query columns with that group's key columns |
| AttentionLaws.AttendToOne | kernels/src/paged_attention_cpu.cpp:28 | over a context of one token, head h gives that token's values of group h / kv_mul |
| PagedAttention.PagedAttentionCpu | kernels/src/paged_attention_cpu.cpp:9-73 | the output row is contiguous attention over the keys and values gathered through the block table, and nothing else of the output changes |
| PagedAttention.Softmax | kernels/src/paged_attention_cpu.cpp:44-55 | the score row becomes the softmax of the scores with the maximum subtracted first, and the rest of the buffer is kept |
| Attention.Max | kernels/src/paged_attention_cpu.cpp:44 | the greatest score is one of the scores and no score exceeds it |
| PagedRunners.PagedRunner.Configure | model/src/qwen3_kv_cache.cpp:14-42 | refuses bad dimensions and a second configuration, and otherwise sets up a cache of that shape |
| PagedRunners.PagedRunner.ForwardPagedBatch | model/src/qwen3_paged_batch.cpp:41-312 | the verdict is that of the checks in order, the missing configuration first; on success the cache holds what the layer-by-layer pass gives and the logits are those of the sampled rows; on failure nothing changes |
| CudaStore.BuildTables | model/src/qwen3_paged_batch.cpp:81-91 | the uploaded table is the block tables one after the other, each filled up with -1 |
| CudaStore.FlatAt | kernels/src/paged_attention_cuda.cu:56-57 | what a thread reads at row and logical block is that entry of the row's block table |
| CudaStore.TargetsDiffer | kernels/src/paged_attention_cuda.cu:46-66 | no two threads of the store kernel write the same cell |
| CudaStore.StoreBatch | kernels/src/paged_attention_cuda.cu:39-66 | the threads, run in any order, leave in both caches what the specification of that order gives |
| CudaStore.KernelStores | kernels/src/paged_attention_cuda.cu:39-66 | for a checked batch in which no row touches a later row's slot, once every thread has run, in any order, the layer holds what the layer-by-layer pass stores and no other layer has changed |
| CudaStore.PlanStores | model/src/qwen3_paged_batch.cpp:49-73 | every batch that an engine runs meets these conditions |
| CudaStore.StoreAgrees | kernels/src/paged_attention_cuda.cu:46-66 | in whatever order the threads run, once each has run the cells are those of copying row by row |
| CudaStore.CopyIsWritten | model/src/qwen3_paged_batch.cpp:195-202 | each of those copies is the in-place write of the CPU runner |
| Utf8.CptFromUtf8 | utils/src/unicode.cpp:37-72 | decodes one form at the offset and moves past it, or refuses it |
| Utf8.CptsFromUtf8 | utils/src/unicode.cpp:730-738 | decodes the forms of a string one after the other, or refuses it |
| Utf8.DecodeEncoded | utils/src/unicode.cpp:688-715 | decoding what was encoded gives the code point back, whatever follows |
| Utf8.EncodeDecoded | utils/src/unicode.cpp:37-72 | encoding what was decoded gives the bytes back exactly if they were the shortest form, and fewer bytes otherwise |
| Utf8.CptsOfUtf8 | utils/src/unicode.cpp:688-738 | on whole strings, decoding undoes encoding |
| Utf8.Utf8OfCpts | utils/src/unicode.cpp:688-738 | and encoding undoes decoding exactly for strings of shortest forms |
| Utf8.SelfSynchronising | layers/src/encode.cpp:252-276 | a string of whole forms occurs in well-formed text at character boundaries only |
| Utf8.EncodeForm | utils/src/unicode.cpp:688-715 | what is encoded has the form of section 3 of RFC 3629, of the length that its range asks for |
| Utf8.OrderKept | utils/src/unicode.cpp:688-715 | the encoding keeps the order of code points, byte by byte |
| ByteAlphabet.ByteToUtf8Map | utils/src/unicode.cpp:155-177 | gives every byte its glyph |
| ByteAlphabet.Utf8ToByteMap | utils/src/unicode.cpp:179-201 | is the inverse of the other map, with no key besides the glyphs |
| ByteAlphabet.LettersDiffer | utils/src/unicode.cpp:155-177 | different bytes have different letters |
| ByteAlphabet.LettersAre | utils/src/unicode.cpp:155-177 | the alphabet in full: bytes up to the space are moved up by 0x100, those from 0x7F to 0xA0 by 0xA2, 0xAD becomes 0x143, and all others are their own characters |
| ByteAlphabet.UnspelledLetters | utils/src/unicode.cpp:208-224 | spelling a byte string and reading it back gives the same bytes |
| Splitter.Split | utils/src/unicode.cpp:488-605 | the pieces are those of the matcher, region by region, and tile the text |
| Splitter.NextPiece | utils/src/unicode.cpp:508-601 | one round of the loop ends where the matcher's alternatives, tried in order, end |
| Splitter.PieceGood | utils/src/unicode.cpp:508-601 | a piece is not empty, stays in its region, and a number is a piece of its own |
| Splitter.PiecesTile | utils/src/unicode.cpp:488-605 | the matcher's pieces of a text cut it up without loss |
| Splitter.LetterPiece | utils/src/unicode.cpp:533-544 | a piece of letters is a run of letters as long as it goes, with at most one character in front, which is no letter, number or line break |
| Splitter.MarksPiece | utils/src/unicode.cpp:553-569 | a piece of punctuation is an optional space, marks as far as they go, and all line breaks behind them |
| SplitterRules.PieceFollowsRules | utils/src/unicode.cpp:508-601 | each piece ends where the first rule that applies says, the rules being stated on the characters alone: contractions, letters with the character in front of them, one number, marks with the space in front of them and the line breaks behind them, white space, one other character |
| SplitterRules.RuleOnce | utils/src/unicode.cpp:508-601 | and these rules leave one end only |
| SplitterRules.PiecesFollowRules | utils/src/unicode.cpp:488-605 | so does every piece of a whole text |
| SplitterRules.FrontOfWord | utils/src/unicode.cpp:534-544 | at a character that is no letter, number or line break and starts no contraction, the piece is that character and the letters behind it exactly if a letter follows |
| SplitterRules.FrontOfMarks | utils/src/unicode.cpp:554-569 | a space is taken along with the marks behind it exactly if a mark follows |
| SplitterRules.ContractionPiece | utils/src/unicode.cpp:513-531 | each contraction is a piece of its own, of two characters or of three |
| Splitter.BlankEndGreedy | utils/src/unicode.cpp:571-597 | the scan of white space ends where the greedy alternatives would exactly if all line breaks of that white space stand side by side |
| Splitter.StopsAtFirstBreak | utils/src/unicode.cpp:571-583 | a line break, a space and a line break are cut after the first character |
| Bpe.Best | layers/src/encode.cpp:204-215 | chooses a pair of lowest rank, and the leftmost of those |
| Bpe.BestIs | layers/src/encode.cpp:204-216 | the choice is the only one the rule allows, and is missing only when no pair can be merged |
| Bpe.MergeSymbols | layers/src/encode.cpp:202-219 | the loop in place gives the symbols of naive merging |
| Bpe.MergeKeepsText | layers/src/encode.cpp:202-219 | merging goes on until no pair can be merged, and the symbols still spell the same string, none of them empty if none was |
| TokenizerLaws.MergesInFileOrder | layers/src/encode.cpp:154-219 | each round applies the earliest merge of the tokenizer file that applies anywhere, at the leftmost place |
| TokenizerLaws.MergesUntilNone | layers/src/encode.cpp:202-219 | and the rounds end when none applies |
| Tiktoken.MergePartsOk | utils/include/tiktoken.h:66-85 | after each merge every kept rank is what looking the pair up now would give, and the parts are those of the naive merge |
| Tiktoken.BytePairMerge | utils/include/tiktoken.h:17-92 | for every non-empty piece the incremental form ends with the parts of naive merging |
| TokenizerLaws.MergesByRank | utils/include/tiktoken.h:17-92 | each round of naive merging joins the neighbours that make the token of the lowest rank in the table, at the leftmost place, until no two neighbours make a token |
| Tiktoken.BytePairEncode | utils/include/tiktoken.h:94-108 | the ids are those of the naively merged symbols, and a symbol outside the table is refused |
| Segments.NextSpecialMeaning | layers/src/encode.cpp:254-264 | the earliest special token is found, and the longest of those that start there |
| Segments.CutKeepsText | layers/src/encode.cpp:251-277 | cutting a text at its special tokens loses nothing |
| Segments.CutIsOk | layers/src/encode.cpp:251-277 | no special token is left inside an ordinary segment |
| Segments.CutShortest | layers/src/encode.cpp:251-277 | well-formed text is cut into well-formed segments |
| Tokenizer.WordDecodes | layers/src/encode.cpp:193-232 | the ids of a word decode to its bytes |
| Tokenizer.RoundTrip | layers/src/encode.cpp:246-308 | whenever a text can be encoded with reversible tables, decoding succeeds, and gives the text back exactly if it is well-formed UTF-8 |
| Tokenizer.OverlongLost | utils/src/unicode.cpp:47-52 | the two-byte form of the letter A is accepted and encoded, and decodes to the letter in one byte |
| Qwen3Encoder.TablesReversible | layers/src/encode.cpp:146-176 | the tables are reversible if ids are unique, special ids are not in the vocabulary, and special tokens are non-empty and well formed |
| Qwen3Encoder.Qwen3EncodeLayer.constructor | layers/src/encode.cpp:132-191 | the tables are those of the tokenizer file, first entries kept where the program emplaces and last where it assigns, with special tokens longest first |
| TokenizerLaws.VocabularyMaps | layers/src/encode.cpp:147-153 | the vocabulary maps hold exactly its texts and ids, each with its first entry |
| TokenizerLaws.AddedMaps | layers/src/encode.cpp:166-177 | the added tokens map each text and each id by its last entry |
| TokenizerLaws.WordSymbols | layers/src/encode.cpp:193-232 | a word's ids are the vocabulary's ids of the symbols merged from the letters of its bytes, and exist exactly if all these are in it |
| Qwen3Encoder.Qwen3EncodeLayer.EncodePiece | layers/src/encode.cpp:193-232 | the ids are those of the naively merged glyphs of the word, and a symbol outside the vocabulary is refused |
| Qwen3Encoder.Qwen3EncodeLayer.SplitWords | utils/src/unicode.cpp:930-942 | the words are those the matcher cuts out, and the text is refused exactly for bad UTF-8 or a code point that cannot be written |
| Qwen3Encoder.Qwen3EncodeLayer.EncodeOrdinary | layers/src/encode.cpp:234-244 | the ids are those of these words in order, and the text is refused exactly if one of them cannot be encoded |
| Qwen3Encoder.Qwen3EncodeLayer.EncodeText | layers/src/encode.cpp:246-279 | the ids are those of the text's segments in order, behind the begin marker and before the end marker where asked for, and it is refused exactly if a segment cannot be encoded; well-formed text only for a symbol outside the vocabulary; and with reversible tables decoding gives the text back exactly if it is well formed |
| Qwen3Encoder.Qwen3EncodeLayer.Decode | layers/src/encode.cpp:286-308 | the bytes are those of the ids one after the other, special tokens first, and an id without bytes is refused |
| TokenizerLaws.DecodedParts | layers/src/encode.cpp:286-308 | the decoded bytes are put together from one part for each id: the text of a special token, or else the bytes whose letters spell the vocabulary entry |
| RobinHood.ProbeBelow | utils/include/unordered_dense.h:861-871 | on the way from its home to an entry no bucket is richer than the probe |
| RobinHood.RoomLeft | utils/include/unordered_dense.h:906-908 | with fewer values than buckets some bucket is empty |
| RobinHoodMoves.UpShape | utils/include/unordered_dense.h:873-880 | making room for an entry keeps every entry on its probe path and the distance order |
| RobinHoodMoves.UpLinked | utils/include/unordered_dense.h:1022-1034 | and keeps one bucket for each value |
| RobinHoodMoves.DownShape | utils/include/unordered_dense.h:960-970 | closing the gap of an erased entry keeps every entry on its probe path and the distance order |
| RobinHoodMoves.MoveLast | utils/include/unordered_dense.h:972-988 | the last value may fill the hole, its bucket following |
| DenseTable.Table.Find | utils/include/unordered_dense.h:1061-1098 | returns the bound value exactly when the key is present, unrolled probes included |
| DenseTable.Table.TryEmplace | utils/include/unordered_dense.h:1037-1058 | the map gains the key if it was absent and is unchanged otherwise, and the table grows exactly when it was full |
| DenseTable.Table.IncreaseSize | utils/include/unordered_dense.h:950-958 | below the greatest size the buckets double, every value is kept and there is room; at the greatest size it is refused |
| DenseTable.ScaledIs | utils/include/unordered_dense.h:928 | below 2^24 buckets the capacity is four fifths of the buckets, rounded down |
| DenseTable.Table.Erase | utils/include/unordered_dense.h:992-1009 | the map loses the key and nothing else, and the result says whether it was there |
| DenseTable.MakeChanges | utils/include/unordered_dense.h:992-1058 | over any sequence of inserts and erases that leaves one of the possible buckets empty, every call is allowed and the table stays the mathematical map; below the capacity of 2^23 buckets every distance fits its field |
| DenseTable.Table.SmallFits | utils/include/unordered_dense.h:373-379 | in a ring of fewer than 2^24 buckets every stored distance with its fingerprint fits 32 bits |
| DenseTable.BuildAndFind | utils/include/unordered_dense.h:1061-1098 | after any such sequence from an empty table, a lookup is one in the mathematical map |
| CachingAllocator.RunOk | memory/src/cuda_alloc.cpp:12-140 | over any run in which owners give back only what they have, the counter is the idle bytes of the small pool and every lent address is that of one busy buffer |
| CachingAllocator.StepOk | memory/src/cuda_alloc.cpp:12-77 | an address handed out is lent to nobody else |
| CachingAllocator.AllocateFits | memory/src/cuda_alloc.cpp:12-77 | the buffer handed out is at least as large as the request, the smallest idle one above 1 MiB and the first otherwise; the device is asked, for just that size, exactly if no idle buffer meets the program's test |
| CachingAllocator.ReleaseOk | memory/src/cuda_alloc.cpp:79-140 | a released buffer becomes idle exactly if a small request was made before, and is never freed as unknown |
| CachingAllocator.PurgeOk | memory/src/cuda_alloc.cpp:89-114 | the purge gives back idle buffers only |
| CachingAllocator.ReleasePurges | memory/src/cuda_alloc.cpp:89-114 | with more than 1 GiB idle a release keeps no idle small buffer but the released one, otherwise it keeps all; busy ones stay |
| CachingAllocator.ReleaseLeaks | memory/src/cuda_alloc.cpp:85-88 | a buffer released before the first small request stays busy, and is lent to nobody, over every later run; one released afterwards is idle at once |
| CachingAllocator.LeakingRun | memory/src/cuda_alloc.cpp:85-88 | allocating and releasing one large buffer is such a run |
| CachingAllocator.CUDADeviceAllocator.Allocate | memory/src/cuda_alloc.cpp:12-77 | pointer and pools are those of best fit above 1 MiB and first fit below |
| CachingAllocator.CUDADeviceAllocator.Release | memory/src/cuda_alloc.cpp:79-140 | pools are those of purge, then mark idle, small pool before large |

## Left out

- Floating point: attention is over the reals with any positive exponential, and the row-wise layers (norms, projections, rotary embedding, feed-forward) are functions of the model; the softmax block reduction of the CUDA kernels, launches and streams are not modelled.
- The hash arithmetic and the Mersenne Twister are parameters; so are the discrete distribution, the exponential and the order in which the sort leaves equal weights. Weights are reals.
- Integer widths: token ids, sizes, counters, hashes and distances are unbounded. `size - num_cached_tokens` cannot wrap because the invariant bounds it; a negative `max_tokens` is compared as an unsigned number.
- Block ids are indices, so the field `id` of a block is not kept; error messages are names.
- Finished sequences stay in the model's list of sequences, as history; the program drops them with the last reference.
- `last_block_tokens` and `ref_count`, which the engine itself never calls, are not modelled.
- Recovery after a failed step: `Step` and `Generate` say what state a failed call leaves, not how to go on from it.
- Liveness under an endless stream of arrivals: prefill has priority over decode.
- The text of a result (`decode` of its tokens) and `add_request` on a string: requests are tokens, and `Generate` takes the tokenizer as a parameter.
- The tokenizer file's JSON, its missing-field errors and the check for a begin token; GPT-2 and LLaMA splitters; the `std::regex` fallback, which is never reached for non-empty text; Unicode tables, which are the parameter `Classes`.
- Conformance of the splitter to its regular expression is claimed for no alternative but white space, where it fails as stated above.
- Multi-device behaviour of the allocator, and overflow of its counter.
- Copying, rehashing on request, iterators and the segmented container of the dense table.
- Qwen3Encoder.Qwen3EncodeLayer.EncodeText: requires non-empty special tokens, because an empty one would be found at the same place forever.
- LLMEngines.LLMEngine.Init: is stated for a scheduler that exists from construction, built with stand-in capacities when the given ones are not positive, since such an engine is never initialised.
- BlockManagers.BlockManager.constructor: requires positive sizes; the program would build an empty pool, which its engine never uses.
- Schedulers.Scheduler.Add: requires a sequence that was not added before and holds no blocks; the engine adds each sequence once, right after building it.
- The CUDA attention kernel: its per-thread sums are not modelled; its pages are those of `CudaStore.FlatAt` and its address formula is that of `CacheLayout`.
- DenseTable.Table.TryEmplace: requires that one of the 2^32 possible buckets stays empty.
- DenseTable.MakeChanges: has an unbounded distance field where the program's has 24 bits; below the capacity of 2^23 buckets the two agree, as it ensures, and beyond that it speaks of the unbounded field.
- DenseTable.BuildAndFind: the same beyond the capacity of 2^23 buckets.
- Tiktoken.BytePairMerge: requires a non-empty piece, because the loop bound of the program wraps for an empty one and the loop does not end.
- Tiktoken.BytePairEncode: requires a non-empty piece for the same reason.
