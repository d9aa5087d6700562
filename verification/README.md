# inferneo: the serving core, proved

inferneo serves many generation requests at once over a paged KV cache. A scheduler decides in every
step which requests advance and by how many tokens; a KV manager hands out reference-counted
physical blocks, shares them between requests with equal prefixes, and evicts cached ones lazily; a
runner mirrors each request's tokens, lays all chunks end to end in one flat batch, and runs every
layer once, scattering new keys and values into slots and gathering old ones through block tables.
This project models that machinery as one state machine and proves what it is for: **no request can
tell from its output that it was not alone.**

## The main results

- **Safety without conditions** (`EngineRun.RunsAreSafe`, and on the objects
  `EngineImpl.InferneoEngine.Step`). In every run of additions, aborts and steps, whatever ids,
  embeddings, limits, pool size, caching setting and captured graphs, no assertion of the scheduler,
  the KV manager or the runner fails, no block is freed twice and no index leaves its tensor.
- **Schedule independence** (`SoloRuns.RunsAreSolo`). For any deterministic network and sampler and
  any interleaving, every output handed back answers one addition, the last one taken in under its
  id, and stands exactly where that addition's prompt, parameters and embeddings would stand over a
  contiguous KV cache of their own, stopped at the same token for the same reason. Three things are
  asked. Every event must be legal, which is so for a whole run **if and only if** everyone live
  always runs with the embeddings his own addition brought (`SoloRuns.LawfulIff`; event by event
  `SoloRuns.LegalIff`, and for a step `EngineStep.StepHeld`: it does not raise, or no reused id's
  old embeddings are still to be forgotten). What is asked while prefix caching is on must agree:
  where two requests' tokens may coincide block by block, their input rows do, a condition on two
  finite lists (`Agreement.CompatibleIff`). And in a step that replays a captured graph token ids
  must tell the input rows. `EngineImpl` keeps this through the mutable objects.
- **And the condition is exact** (`ToldApart.AgreeExactly`). Block hashes commit to token ids only.
  Over all networks with a given embedding and all lawful runs with caching on that ask only these
  things, everyone is answered as if alone **if and only if** the asks agree. For any two that do
  not, a network and a run are built in which one gets the other's answer, through eviction and
  resumption where the prompts alone are too short to collide.
- **Batch generation, refusals included** (`LlmImpl.LLM.Generate`). With room for everybody, the
  call answers if and only if it got as many parameters as prompts, every prompt is acceptable and
  nothing was unfinished at entry; from a sound engine it then returns for each prompt, in order,
  its solo result, which is unique (`Generate.SoloFinishedUnique`). A refusal leaves exactly the
  prompts before the bad one live and waiting (`Generate.AfterRefusal`), and the next call, good in
  itself, then drains them too and raises KeyError for their ids (`Generate.SecondCallFails`).
- **The cache means what the tables say** (`Conservation`). Between events every computed position
  of every running request holds the value of exactly that token prefix at every layer, and so does
  every hashed block, free or not, although blocks are registered before their contents are written.
  The engine of this is that a block shared within a step is being filled by at most one sharer
  (`WriteLabels.PendingUnique`), that a step overwrites nothing computed before it
  (`StepWrites.WrittenNotComputed`), and that one flat forward equals each request's own
  (`ForwardCorrect.FlatForwardCorrect`).
- **Draining, exactly** (`SoloDrains.DrainsIffSolo`). From every state with the engine invariant,
  whatever ends the requests, the step loop comes to an end if and only if there is a slot for
  whoever lives and the pool holds, for each of them on its own, the tokens its solo run computes
  before it stops. For requests that end by length the same holds in every reachable state at all,
  with the length limit for the solo length (`DrainsExactly.DrainsIff`). The measure of the loop is
  (output tokens still allowed, live requests outranking the first running one, tokens that one has
  left). Without the room the loop need not even raise: `TightPool.NoRoomNoProgress` is a two-step
  cycle that produces nothing. `RaisesExactly.RaisesIff` says for every state when `schedule()`
  raises.
- **Outputs end where and why they should** (`EngineRun.RunsEndRight`). In every run at all, what is
  handed back is stopped exactly when, from the minimum length on, its last token is an eos that
  counts or a stop token, too long exactly when otherwise a length limit is reached, running exactly
  otherwise, and no earlier token of it did either.
- **Who is served, how much, and why the others wait.** Every chunk of a step is the least of three
  numbers: what its request has left, what earlier items left of the budget and, on admission, the
  threshold (`Chunks.ScheduleChunks`). Nobody live is passed over by somebody admitted who has a
  lower priority, or the same and was added later (`ArrivalOrder.FirstComeFirstServed`). Whoever
  waits does so for one of four reasons (`Queueing.HeadWaits`), and the preempted are exactly those
  who ran before the call and wait after it (`Queueing.PreemptedExactly`).
- **The cache ages from the leaves** (`FreeOrder`). Ending a request appends the blocks it alone
  held to the free queue deepest first (`FreeOrder.FreeQueue`), so whatever is allocated afterwards,
  a leading run of its prefix stays and is found by the next prompt with these tokens
  (`FreeOrder.RunFound`, `FreeOrder.LeadingHits`); every block is found from the allocation on that
  fills it (`FreeOrder.AllocationCaches`).
- **The runner forgets** (`Histories.HistoriesIff`). In every run, whoever has a token history runs
  or is about to be reported, in every state, if and only if no step kept an end or a preemption
  from the runner by raising or by serving nobody; `Histories.StepStrays` says step by step who
  strays.
- **No thrashing** (`AntiThrash.NewcomersSecure`). Between arrivals, whoever was admitted outranks
  everyone who waits, and no request is evicted for priority twice, block pressure or not.
- **Replaying a decode graph** (`GraphReplay.ForwardIsEager`, `RunnerImpl.TorchRunner.Execute`). A
  step takes the captured graph exactly when there is one, the batch is no larger than its largest
  bucket and every item is the one last token of its request (`Paths.PathTaken`). The model over the
  padded batch, read out of the graph's own index buffers, does to the real rows and to every slot
  but one in the scratch block what it does over the batch's token ids. It starts from token ids
  only, so its input rows are the eager ones exactly when no scheduled token lies inside prompt
  embeddings under another row (`CudaGraph.GraphRowsAreEager`); a prompt of one token reaches the
  other case (`GraphSteps.FirstTokenDiverges`). The engine theorems above are about engines with and
  without captured graphs.
- **Lifecycle** (`Lifecycle`). The n-th output of an id has n tokens and extends those before it,
  none follows a finished one, and a finished id reaches the runner at most once.
- **Embeddings that go astray** (`EmbeddingFaults`). For each way an event can be illegal: an id
  reused before its end was reported loses the embeddings it came with; one reused after a call that
  raised inherits the old ones; one reused before such a call inherits them through the call itself;
  a duplicate of a live id replaces them, which redirects a waiting request and strands a running
  one.

## How it is organised

Three layers, bottom up. *Values*: `Hashing`, `BlockPoolSpec`, `BlockManagerSpec`, `RequestSpec`,
`Endings`, `SchedulerSpec`, `Attention`, `GraphSpec`, `RunnerSpec` and `EngineSpec` write the
source's branches as functions on immutable states, `Assertions` what it asserts on its way; `Model`
is the contiguous-cache reference. *Invariants*: `BlockManagerInv` and `AllocationInv` (counts,
tables, hash chains), `SchedulerInv`, `Sharing`, `SchedulePhases`, `AdmissionPhase`, `ScheduleStep`,
`UpdateStep`, `AssertionsHold` (the scheduler), `LabelInv`, `ScheduleLabels`, `WriteLabels`,
`StepWrites`, `BatchReadiness` (which prefix each physical position holds), `ForwardCorrect`,
`ExecuteCorrect` (the tensors), `EngineInv`, `EngineSafe`, `EngineStep` (one step), `FreeOrder`,
`Chunks`, `Queueing`, `HandedBack`, `Paths`, `Histories` (what one call does, in numbers), `EngineRun`, `Asks`,
`Agreement`, `SoloRuns`, `ArrivalOrder` (whole runs), `Progress`, `Draining`, `Drain`,
`DrainsExactly`, `SoloDrains`, `Generate` (the loops around steps). *Objects*: `BlockPoolImpl`,
`BlockManagerImpl`, `RequestImpl`, `SchedulerImpl`, `RunnerImpl`, `EngineImpl`, `LlmImpl` are the
source's classes with mutable fields and loops; each method's new state is a function of the old
one, so the theorems about the functions are theorems about the objects. `FlashInfer` and
`CudaGraph` build their index arrays by the source's loops and are compared with `Attention`;
`GraphReplay` and `GraphSteps` run the model over them.

The runs that show a condition necessary are built in `Untouched`, `OneSlot`, `OneItem`, `Alone`,
`LoneStep` (steps that serve one request), `Telltale`, `Solitary`, `Witness` and `ToldApart` (a
network that tells whose row a cached position holds, and the run that asks it).

A *label* is the input prefix whose keys and values a physical position holds, and the *book* gives
the input rows a full-block token prefix stands for; both are ghost data that no code reads. `EBase`
is what every run keeps; `EInv` adds that the caches hold what the labels say and every live request
is on its solo stream. `SInv(cfg, s, out)` is the scheduler's invariant while the items `out` are
already granted in the current call; between steps `out` is empty. `Held(e)` is what the runner will
hold when the next batch runs: execute() first forgets the embeddings of ids reported finished.

`dafny verify dfyconfig.toml` checks everything.

## Where the code and its comments part

- `_preempt_for_priority` speaks of evicting "request(s)"; with the slot limit kept, its loop runs
  at most once per call (`SchedulePhases.EvictOnce`).
- `free` releases deepest block first so that suffixes are evicted before prefixes, but the failed
  admission path releases its hits front to back, so the free queue has no global
  child-before-parent order (`FreeOrder.FreeQueue`, `FreeOrder.FailedQueue`). A failed admission
  restores everything but that order (`BlockManagerInv.FailedAllocationRestores`).
- `schedule()` clears the list of finished ids before it can raise; ids in it are then never
  reported. Hence "at most once" in `Lifecycle.ToldOnce`, not "exactly once", and the runner keeps
  their histories (`Histories.StepStrays`).
- `hashing.py` says equal hashes mean equal prefixes; that is the model's assumption about `hash`.

## Model

| member | source | states |
|---|---|---|
| SoloRuns.RunsAreSolo | inferneo/engine/engine.py:81-141 | Over every run from an empty engine, with captured graphs or without, in which every event is legal, cached asks agree and token ids tell the rows of every replayed step: every output handed back, and every live request, is what the last addition taken in under its id asked for, on that addition's own solo stream, token for token, with the status the solo run has there |
| SoloRuns.LawfulIff | inferneo/engine/engine.py:81-141 | Over every run from an empty engine: everyone live always is what the last addition under its id asked for and runs with the embeddings that addition brought, if and only if every event was legal |
| SoloRuns.LegalIff | inferneo/executor/torch_runner.py:290-292 | From any state, an event leaves everyone live the embeddings he has, and a new request those it came with, if and only if it is legal: an addition refused by its checks, one whose id is free of other embeddings, a duplicate that changes none, any abort, and any step but one that raises while a reused id's old embeddings are still to be forgotten |
| EngineRun.RunsAreSafe | inferneo/engine/engine.py:81-141 | In every run from an empty engine at all, every event is defined and the base invariant holds in every state: running and admitted requests have tokens to compute, cache hits attach to empty tables, every release finds a reference, whoever is removed from the running list is in it, the runner is in sync, every sampled token and every index is there |
| AssertionsHold.ScheduleHolds | inferneo/engine/scheduler.py:93-158 | From the scheduler's invariant no assertion inside schedule() fails: in eviction, the inner preemption loop, both phases, the cache lookup, allocation and every release |
| AssertionsHold.UpdateHolds | inferneo/engine/scheduler.py:163-190 | update_from_output() finishes only requests in the running list, and releases each of their blocks exactly as often as it is referenced |
| EngineSafe.StepSafe | inferneo/engine/engine.py:126-141 | One step from the base invariant is defined and keeps it, whatever the embeddings are and whatever the caches hold |
| EngineRun.RunsEndRight | inferneo/engine/request.py:90-103 | In every run from an empty engine, whatever the embeddings and caches: an output handed back has status stopped iff it has min_tokens tokens and its last is the eos, unless ignored, or a stop token; too long iff not that and max_tokens or max_model_len is reached; running iff neither; and none of its earlier tokens met any of these |
| EngineSafe.StepEndsRight | inferneo/engine/scheduler.py:163-190 | The same of one step from the base invariant |
| ToldApart.AgreeExactly | inferneo/kv/hashing.py:15-26 | Over every network with this embedding and every lawful run with caching on that asks only these things, everyone is answered as if alone, if and only if the asks agree on the rows they may share |
| ToldApart.TellsApart | inferneo/kv/block_manager.py:34-53 | For any two asks that disagree there are a network and a lawful run made of them alone, in which some output is not its own request's |
| Agreement.CompatibleIff | inferneo/kv/hashing.py:15-26 | Two asks whose embeddings stay inside their prompts agree on every full-block prefix both may come to have, if and only if their rows agree through the longer prompt when one prompt begins the other, else through their common full blocks |
| EngineStep.StepKeeps | inferneo/engine/engine.py:126-141 | One step that hands back outputs hands back only solo outputs and keeps the whole engine invariant, on the eager path and, where token ids tell the rows, on the replay path; one that raises keeps it if and only if the rows live requests then run with agree with the book |
| EngineStep.StepHeld | inferneo/engine/scheduler.py:80-82 | A step leaves whoever stays live the embeddings it runs with if and only if schedule() does not raise or no reused id's old embeddings are still to be forgotten |
| EngineRun.AddKeeps | inferneo/engine/engine.py:81-118 | Adding or refusing any request keeps the engine invariant, except a duplicate that changes a live request's embeddings and, with caching on, rows that disagree with the book |
| EngineRun.AbortKeeps | inferneo/engine/engine.py:120-121 | Aborting any id keeps the engine invariant |
| EngineImpl.InferneoEngine.AddRequest | inferneo/engine/engine.py:81-118 | For every argument the object's new state and answer are the specified ones, with the length, parameter and duplicate errors; the engine invariant is kept under AddKeeps' condition |
| EngineImpl.InferneoEngine.AbortRequest | inferneo/engine/engine.py:120-121 | The object's new state is the specified one and the engine invariant is kept |
| EngineImpl.InferneoEngine.Step | inferneo/engine/engine.py:126-141 | schedule, execute (eagerly or from a captured graph), update on the objects give the specified state and outputs; nothing but the source's RuntimeError can go wrong; from a sound state outputs are solo outputs and the state stays sound, after a raise exactly when the rows still agree with the book |
| LlmImpl.LLM.Generate | inferneo/engine/llm.py:21-50 | Ends, given room for whoever is live and for each prompt alone, in every state: one result per prompt, in order, each of its own prompt and finished, if and only if the parameters match in number, every prompt is acceptable and nothing was unfinished at entry; a KeyError if only the last fails; otherwise a refusal at the first bad prompt, with exactly the prompts before it entered. From a sound engine each result is the prompt's finished solo run |
| LlmImpl.LLM.DrainAll | inferneo/engine/llm.py:41-45 | The drain loop ends with nothing unfinished and a finished output for exactly the entries and whoever else was live; from a sound engine each entry's is its solo result |
| LlmImpl.LLM.EnterAll | inferneo/engine/llm.py:36-39 | Whatever is live and whatever the pool: stops at the first prompt that is not acceptable, and leaves the prompts before it waiting, in order, behind whoever waited, each as asked, and nothing else changed; order numbers exactly their ids |
| Generate.AfterRefusal | inferneo/engine/llm.py:36-39 | After a refusal at prompt k the engine is the old one with exactly the k prompts before it waiting at the end of the queue, and something is unfinished if and only if something was before or k is positive |
| Generate.SecondCallFails | inferneo/engine/llm.py:36-50 | On an idle engine a call with a good and an empty prompt is refused at the second; a call with one good prompt, which would have been answered before, then raises KeyError |
| Generate.SoloFinishedUnique | inferneo/engine/llm.py:21-50 | A prompt's finished solo run is unique: same tokens, same reason |
| Conservation.BlocksConserved | inferneo/kv/block_pool.py:48-90 | A count is the number of running tables holding the block; free exactly when zero, listed once; the hash map and the blocks' own hashes are inverse |
| Conservation.TablesConserved | inferneo/kv/block_manager.py:55-101 | Live requests are waiting or running, never both; running tables have no repeats and exactly ceil(computed / block size) blocks; waiting requests hold none |
| Conservation.ComputedPositionsHoldTheirValue | inferneo/kv/block_manager.py:55-118 | At every layer, the slot of every computed position holds the contiguous-cache value of exactly that token prefix |
| Conservation.HashedBlocksHoldTheirPrefix | inferneo/kv/block_manager.py:103-118 | Every hashed block, also one in the free queue, holds the values that any request agreeing with the book would itself compute for the token prefix its hash commits to |
| WriteLabels.PendingUnique | inferneo/kv/block_manager.py:73-118 | Within a step, a physical position is written by one request only, at one position of it |
| StepWrites.WrittenNotComputed | inferneo/engine/scheduler.py:80-161 | A position written in a step is one another running request counts as computed only if that request was admitted in this very step on a hit to the block being filled: nothing computed before the step is overwritten |
| Sharing.NoLateSharing | inferneo/kv/block_manager.py:103-118 | Between steps no running request still has to fill a block it shares |
| Sharing.SharedPrefix | inferneo/kv/block_manager.py:103-118 | Two requests holding the same block hold it at the same index, with equal tokens up to its end |
| WriteLabels.StepSettles | inferneo/kv/block_manager.py:103-118 | Once the step's writes are done, every covered position and every hashed block carries the label it was promised at registration |
| BatchReadiness.StepBatchReady | inferneo/attention/sdpa_backend.py:48-71 | The slots written by all scheduled requests of a step are pairwise distinct and inside the cache |
| Hashing.ChainAgree | inferneo/kv/hashing.py:15-26 | Two chains agree if and only if they have the same depth and their tokens up to it agree |
| Hashing.HashPromptBlocks | inferneo/kv/hashing.py:19-26 | The loop returns one hash per full block, the i-th committing to the first i+1 blocks |
| BlockPoolImpl.BlockPool.constructor | inferneo/kv/block_pool.py:28-39 | A new pool has every block free, in id order, and nothing cached |
| BlockPoolImpl.BlockPool.Allocate | inferneo/kv/block_pool.py:48-61 | All n blocks from the LRU end with their cached content evicted, or none and no change |
| BlockPoolImpl.BlockPool.Free | inferneo/kv/block_pool.py:63-68 | Gives up one reference, queues the block at zero, and reports a double free without a change |
| BlockPoolImpl.BlockPool.GetCachedBlock | inferneo/kv/block_pool.py:70-81 | A hit takes a reference and leaves the free queue; a miss changes nothing |
| BlockPoolImpl.BlockPool.CacheBlock | inferneo/kv/block_pool.py:83-90 | First writer wins; a block is registered at most once |
| BlockPoolSpec.TakeOk | inferneo/kv/block_pool.py:48-61 | Allocation keeps the pool consistent, takes exactly the front of the queue, and touches no other block |
| BlockPoolSpec.ReleaseOk | inferneo/kv/block_pool.py:63-68 | Release keeps the pool consistent and appends the block exactly when its last reference goes |
| BlockPoolSpec.LookupOk | inferneo/kv/block_pool.py:70-81 | Revival keeps the pool consistent |
| BlockManagerInv.GetComputedKv | inferneo/kv/block_manager.py:34-53 | Exactly one reference per returned block; the hits are the leading cached run, longest but for the last block of a full hit; at least one token stays uncomputed; nothing else changes |
| BlockManagerInv.FailedAllocationRestores | inferneo/kv/block_manager.py:55-95 | Lookup and failed allocation together leave tables, chains, counts, hashes and cache map as before and the free queue a permutation of itself |
| AllocationInv.AllocateKv | inferneo/kv/block_manager.py:55-95 | A success extends the table over old blocks, hits, then fresh private ones, touches no other row, and only registers the request's own full blocks |
| AllocationInv.FreshCount | inferneo/kv/block_manager.py:73-76 | Old, hit and fresh blocks together are exactly ceil(total / block size): the minimum |
| AllocationInv.CacheFullKv | inferneo/kv/block_manager.py:103-118 | Registration makes the chain cover exactly the full blocks and changes no other hash |
| AllocationInv.FreeRequestKv | inferneo/kv/block_manager.py:97-101 | Every block of the request loses one reference; hashes and other rows stay |
| FreeOrder.FreeQueue | inferneo/kv/block_manager.py:97-101 | free appends to the unchanged free queue exactly the blocks of the request whose count falls to zero, the deeper ones first |
| FreeOrder.ShallowSurvive | inferneo/kv/block_pool.py:48-61 | After free and any number of allocations, of two blocks the request alone held: if the deeper one keeps its content, so does the other |
| FreeOrder.RunFound | inferneo/kv/block_manager.py:34-53 | Of the leading registered blocks a request alone held, allocations after its end leave exactly a leading run, all of it while older blocks last, and every block of that run is in the map under the hash of the request's own prefix |
| FreeOrder.LeadingHits | inferneo/kv/block_manager.py:34-53 | A prompt whose first m full blocks are in the map is given at least those, or all but the last if they are the whole prompt |
| FreeOrder.AllocationCaches | inferneo/kv/block_manager.py:103-118 | With caching on, every block newly full after a successful allocation is in the map, under itself or whoever was first |
| FreeOrder.FailedQueue | inferneo/kv/block_manager.py:80-84 | A failed allocation appends the hits it alone held to the unchanged free queue in table order |
| BlockManagerImpl.KVCacheManager.GetComputedBlocks | inferneo/kv/block_manager.py:34-53 | The loop over the pool object computes the specified lookup, and never frees twice |
| BlockManagerImpl.KVCacheManager.AllocateSlots | inferneo/kv/block_manager.py:55-95 | The object's new state and result are the specified ones, and the failure path never frees twice |
| BlockManagerImpl.KVCacheManager.Free | inferneo/kv/block_manager.py:97-101 | The loop gives the specified state, and the free queue is the old one followed by the blocks nobody else holds, in descending table index |
| BlockManagerImpl.KVCacheManager.CacheFullBlocks | inferneo/kv/block_manager.py:103-118 | The registration loop leaves the specified state |
| RequestImpl.EngineRequest.AppendOutputToken | inferneo/engine/request.py:87-88 | Appends the token and changes nothing else |
| RequestImpl.EngineRequest.CheckStop | inferneo/engine/request.py:90-103 | Stopped exactly when, from min_tokens on, the newest token is the eos, unless ignored, or a stop token; too long exactly when otherwise max_tokens or max_model_len is reached; else nothing |
| SchedulerImpl.Scheduler.AddRequest | inferneo/engine/scheduler.py:56-60 | Queues a request under a new id, or reports the duplicate without a change |
| SchedulerImpl.Scheduler.Abort | inferneo/engine/scheduler.py:62-71 | The specified state for running, waiting and unknown ids |
| SchedulerImpl.Scheduler.Schedule | inferneo/engine/scheduler.py:80-161 | The three phases on the objects give the specified state, output or error |
| SchedulerImpl.Scheduler.PreemptForPriority | inferneo/engine/scheduler.py:196-212 | The eviction loop gives the specified state and victims |
| SchedulerImpl.Scheduler.ServeRunning | inferneo/engine/scheduler.py:95-118 | The loop over running requests gives the specified working state; its assertion holds |
| SchedulerImpl.Scheduler.AllocateOrPreempt | inferneo/engine/scheduler.py:103-114 | The inner preemption loop ends in the specified state |
| SchedulerImpl.Scheduler.AdmitWaiting | inferneo/engine/scheduler.py:129-158 | The admission loop gives the specified state, items and error; its assertion holds |
| SchedulerImpl.Scheduler.UpdateFromOutput | inferneo/engine/scheduler.py:163-190 | The update loop gives the specified state and updated requests |
| SchedulerImpl.Scheduler.Preempt | inferneo/engine/scheduler.py:214-220 | Blocks released, status and count reset, request queued |
| SchedulerInv.MadeItem | inferneo/engine/scheduler.py:228-243 | The item names a running request and carries its next tokens from its computed count on, its block table, whether it samples, and, when new, the cached prefix and parameters |
| ScheduleStep.ScheduleInv | inferneo/engine/scheduler.py:80-161 | schedule() keeps the invariant, changes no token, stays within token budget and slots, serves the front of the running list, and with no threshold leaves at most the last item partial |
| ScheduleStep.ScheduleShape | inferneo/engine/scheduler.py:127-158 | Requests are admitted only when every surviving running request runs all its pending tokens, and they are the top of the (priority, arrival) order |
| ScheduleStep.PreemptedStayOut | inferneo/engine/scheduler.py:93-160 | Whoever is preempted in a step, by either mechanism, is neither scheduled nor re-admitted in it |
| Queueing.PreemptedExactly | inferneo/engine/scheduler.py:93-160 | The preempted of a step are exactly those who ran before the call and wait after it; each is marked so, with nothing computed |
| Queueing.FirstCome | inferneo/engine/scheduler.py:119-158 | Nobody who waits after the call, whether it waited before or was preempted in it, has a higher priority, or the same and an earlier arrival, than one admitted in it |
| ArrivalOrder.FirstComeFirstServed | inferneo/engine/scheduler.py:119-158 | In every run from an empty engine: if a schedule() admits a request, everyone live who has a higher priority, or the same and was added earlier, runs after it too |
| Queueing.HeadWaits | inferneo/engine/scheduler.py:129-150 | If anyone waits after the call, somebody was preempted for want of blocks, or the budget is used up, or every slot is taken, or the first of the queue needs more blocks than are free; after such a preemption nobody was admitted and the preempted stand behind the old queue, without one nobody who waits is ahead of the first |
| Chunks.ScheduleChunks | inferneo/engine/scheduler.py:95-158 | Every chunk is the minimum of what its request has left, the budget less the chunks before it and, for an admitted request, a positive threshold; the admitted are exactly the scheduled ones that waited before the call |
| SchedulePhases.EvictOnce | inferneo/engine/scheduler.py:196-212 | With the slot limit kept, priority eviction takes at most one victim, the lowest ranked |
| SchedulePhases.SqueezeInv | inferneo/engine/scheduler.py:103-114 | Block-pressure preemption only shortens the running list from the back, never below a served request, and ends with slots or with the request itself preempted |
| SchedulePhases.RunPhaseInv | inferneo/engine/scheduler.py:95-118 | If budget is left and nobody was preempted, every running request was served in full |
| AdmissionPhase.AdmitPhaseInv | inferneo/engine/scheduler.py:129-158 | Admissions move a prefix of the queue behind the running list and change nothing else; an error means nothing runs |
| Ranking.SortSorted | inferneo/engine/scheduler.py:127-128 | The queue comes out in rank order with every request kept |
| Ranking.TopIsGreatest | inferneo/engine/scheduler.py:202 | Nobody waiting outranks the request max() picks |
| Ranking.LowestIsLeast | inferneo/engine/scheduler.py:209 | The request min() picks outranks nobody running, and has the least priority |
| UpdateStep.UpdateInv | inferneo/engine/scheduler.py:163-190 | Consuming a step's items leads back to the between-steps invariant |
| HandedBack.UpdateHandsBack | inferneo/engine/scheduler.py:163-190 | update_from_output hands back, in order, exactly the requests whose items end at their last token, each with the token sampled for it appended |
| HandedBack.StepHandsBack | inferneo/engine/engine.py:126-141 | The same of a whole step: one output for every request the step took to its last token, in the order scheduled, and none for any other |
| RaisesExactly.RaisesIff | inferneo/engine/scheduler.py:143-149 | schedule() raises if and only if priority eviction leaves nobody running and the first of the queue, in rank order, needs more blocks for its first chunk than the pool has |
| RaisesExactly.IdleRaisesIff | inferneo/engine/scheduler.py:143-149 | The same on the state before the call when nobody runs |
| Progress.HeadServed | inferneo/engine/scheduler.py:95-118 | With room for the tokens each request has, on its own, phase 1 always serves the first running request |
| Draining.StepDrains | inferneo/engine/scheduler.py:93-190 | With that room, a step that starts with work does not raise and makes the measure strictly smaller |
| Drain.StepLoopDrains | inferneo/engine/llm.py:42-45 | From every reachable state with that room, finitely many steps, none raising, leave nothing unfinished |
| DrainsExactly.DrainsIff | inferneo/engine/llm.py:42-45 | From every reachable state whose requests end by length: the step loop comes to an end if and only if there is a slot for whoever lives and the pool holds, for each, every token it must come to compute (all but its last) |
| SoloDrains.DrainsIffSolo | inferneo/engine/llm.py:42-45 | From every state with the engine invariant, whatever ends the requests, by token or by length: the step loop comes to an end if and only if there is a slot for whoever lives and the pool holds, for each on its own, the prompt and all but the last token of its solo run |
| SoloDrains.SoloLenIs | inferneo/engine/request.py:90-103 | Every admissible request's solo run stops, and the solo length is the first place where it does |
| SoloDrains.FreeAlong | inferneo/executor/torch_runner.py:329-337 | From any reachable state: if no graph was captured, or live requests brought no rows but those of their prompts' token ids, token ids tell the rows of every step the loop will ever replay |
| AntiThrash.NewcomersSecure | inferneo/engine/scheduler.py:196-220 | In any run without arrivals, whoever was admitted in it outranks all who wait and is not evicted for priority; nobody is evicted twice |
| AntiThrash.ScheduleCalm | inferneo/engine/scheduler.py:80-161 | One schedule() keeps the admitted in rank order behind the veterans and above the queue, also under block pressure |
| Lifecycle.RunLives | inferneo/engine/engine.py:81-141 | Every run from an empty engine, with fresh ids, is one in which events only grow outputs, end lives and queue each ended id once |
| Lifecycle.OutputsGrowByOne | inferneo/engine/scheduler.py:163-190 | The n-th output of an id has n tokens and extends all before it; none follows a finished one; none exceeds min(max_tokens, max_model_len - prompt) |
| Lifecycle.ToldOnce | inferneo/engine/scheduler.py:80-82 | A finished id is handed to the runner in at most one step, once |
| Attention.BuildMetadata | inferneo/attention/sdpa_backend.py:48-78 | The loop yields, per request, the slots of all its positions, its mask, and the flat slots of its new tokens |
| Attention.ScatterInPlace | inferneo/attention/sdpa_backend.py:88-89 | The array ends as the sequential scatter of the values |
| Attention.AttendAll | inferneo/attention/sdpa_backend.py:91-111 | The output rows are each request's attention over its gathered slots |
| Attention.Forward | inferneo/attention/sdpa_backend.py:80-111 | Cache array and rows end as the layer function says, all writes before any read |
| ForwardCorrect.LayerCorrect | inferneo/attention/sdpa_backend.py:80-111 | One layer over a mixed batch leaves the cache holding every label's value and each row equal to its request's own causal row |
| ForwardCorrect.FlatForwardCorrect | inferneo/attention/sdpa_backend.py:48-111 | The whole multi-layer flat forward equals each request's own forward, even where one reads a block another fills in the same step |
| RunnerSpec.ChunkRowsAt | inferneo/executor/torch_runner.py:181-192 | Row j of a chunk is the prompt embedding inside the prompt embeddings, the token embedding elsewhere |
| RunnerSpec.InputRowsCorrect | inferneo/executor/torch_runner.py:169-194 | For any batch and chunking the input rows are those rows, request by request, also on the pure-text path |
| RunnerImpl.TorchRunner.BuildEmbeds | inferneo/executor/torch_runner.py:169-194 | The loop with its running offset builds those rows |
| RunnerImpl.TorchRunner.ForgetAll | inferneo/executor/torch_runner.py:290-296 | Histories stay exactly for ids that are neither finished nor preempted, embeddings exactly for ids that are not finished, all unchanged |
| Histories.ExecutedKeys | inferneo/executor/torch_runner.py:288-327 | After execute() there is a history exactly for whoever was served, and for whoever had one and was reported neither finished nor preempted; embeddings go exactly with finished ids; a token is sampled exactly for the items that ask for one |
| Histories.StepStrays | inferneo/engine/engine.py:126-141 | Histories of ids that neither run nor are about to be reported: a step that calls execute() adds none and takes in whom it serves; one that does not adds exactly those whose end or preemption it kept back |
| Histories.HistoriesIff | inferneo/executor/torch_runner.py:288-294 | In every run from an empty engine there is never such a history if and only if no step that skips execute() kept back the end or preemption of an id with a history |
| RunnerImpl.TorchRunner.Execute | inferneo/executor/torch_runner.py:288-367 | A pure decode batch that fits a captured graph is replayed, any other runs eagerly; on either path histories, per-layer cache arrays and sampled tokens end exactly as specified; the out-of-sync assertion holds |
| Paths.PathTaken | inferneo/executor/torch_runner.py:329-349 | Every step that serves somebody: caches and sampled tokens are those of the captured graph if one was captured, the batch is no larger than its largest bucket and every item is one token and the last of its request; those of the eager pass over the requests' own rows otherwise |
| RunnerImpl.TorchRunner.Replay | inferneo/executor/cuda_graph.py:210-243 | Padding the batch to its bucket, filling the index buffers and running the model on what they denote gives exactly the specified replay, whose meaning for the batch GraphReplay.ReplayIsModel states |
| GraphReplay.ModelPadded | inferneo/executor/cuda_graph.py:135-164 | Through all layers, the model over a batch padded with rows in one slot gives the real rows and all other slots what the batch alone gives them |
| GraphReplay.DenotedIs | inferneo/executor/cuda_graph.py:135-171 | What the captured forward reads out of the index buffers is the padded batch's metadata |
| GraphReplay.ReplayIsModel | inferneo/executor/cuda_graph.py:210-243 | For every pure decode batch a graph can take, the replayed forward returns what the model over the batch's token ids returns, and leaves the same in every slot but the scratch one |
| GraphReplay.ForwardIsEager | inferneo/executor/torch_runner.py:329-349 | Whichever path the batch takes, rows and caches are those of the eager path, on the replay path but for the scratch slot and where no scheduled token lies inside prompt embeddings under another row |
| GraphSteps.ScratchIrrelevant | inferneo/executor/cuda_graph.py:12-15 | What padding rows write behind the pool disturbs no part of the engine invariant |
| GraphSteps.FirstTokenDiverges | inferneo/executor/torch_runner.py:329-337 | A prompt of one token with its own embedding makes the engine's first step a pure decode batch on which the graph's input rows are not the eager ones |
| ExecuteCorrect.FeedAllCorrect | inferneo/executor/torch_runner.py:306-327 | "Runner out of sync" never fires, and each history ends as the request's tokens up to its chunk's end |
| ExecuteCorrect.SampledTokens | inferneo/executor/torch_runner.py:347-367 | Each sampled token is the request's own next token |
| ExecuteCorrect.ExecuteSteps | inferneo/executor/torch_runner.py:288-367 | execute() on a scheduled batch realises the new labels in the caches and samples solo tokens |
| FlashInfer.PagesDenoteSlots | inferneo/attention/flashinfer_backend.py:78-81 | The first ceil(len / block size) blocks, the last holding 1..block size positions, decode to exactly the SDPA slots |
| FlashInfer.BuildPages | inferneo/attention/flashinfer_backend.py:61-105 | For all lengths and tables, every row decodes to the SDPA slots and the (block, offset) targets are the SDPA slot mapping |
| FlashInfer.ScatterPages | inferneo/attention/flashinfer_backend.py:113-123 | The in-place paged scatter is, in flat slots, the SDPA scatter |
| CudaGraph.DefaultBuckets | inferneo/executor/cuda_graph.py:29-37 | Powers of two below the limit, then the limit, strictly increasing |
| CudaGraph.PickBucket | inferneo/executor/cuda_graph.py:107-113 | The smallest bucket that fits, below twice the batch; none exactly when the batch exceeds the limit |
| CudaGraph.Plan | inferneo/executor/cuda_graph.py:135-164 | Real rows decode to their own slots, padding rows to one position of the scratch block |
| CudaGraph.RunTargets | inferneo/executor/cuda_graph.py:223-232 | The write targets are the eager ones of the padded batch |
| CudaGraph.RealRowsAreEager | inferneo/executor/cuda_graph.py:218-239 | Real rows carry the eager path's slots, padding rows only the scratch block's first slot |
| CudaGraph.DecodeStepFits | inferneo/executor/torch_runner.py:329-337 | In every reachable pure decode step the batch fits the slots, lengths fit the model, and no table names the scratch block |
| CudaGraph.StepPlanFits | inferneo/executor/cuda_graph.py:117-153 | Planned indices of every reachable step fit b * max_blocks_per_seq |
| CudaGraph.GraphRowsAreEager | inferneo/executor/cuda_graph.py:210-243 | The graph's input rows are the eager ones if and only if no scheduled token lies inside prompt embeddings under another row |
| EmbeddingFaults.RejectedDuplicateOverwrites | inferneo/engine/engine.py:115-117 | A rejected duplicate leaves the engine unchanged if and only if its embeddings are those the live request already had |
| EmbeddingFaults.DuplicateRedirects | inferneo/engine/engine.py:115-117 | A waiting request that has generated nothing is from then on answered, soundly, from the duplicate's embeddings |
| EmbeddingFaults.DuplicateStrands | inferneo/engine/engine.py:115-117 | A running one keeps, at every position computed before, the values of the embeddings it came with, while the runner now holds the duplicate's |
| EmbeddingFaults.DroppedOnReuse | inferneo/executor/torch_runner.py:290-292 | For every prompt and embeddings: add, abort and add again before a step leaves the second request without the embeddings it brought |
| EmbeddingFaults.InheritedAfterRaise | inferneo/engine/scheduler.py:80-82 | For every pool and every first chunk it cannot hold: after the call that raises, a request added without embeddings under an id that ended before it runs with the old ones |
| EmbeddingFaults.InheritedByRaise | inferneo/engine/scheduler.py:80-82 | For every pool and every first chunk it cannot hold: add that one, add, abort and add again without embeddings, step. Every event before the step is legal, the step raises, and after it the live request runs with the aborted one's embeddings |

## Left out

- SoloRuns.RunsAreSolo: asks that a run be lawful, that asks made while caching is on agree, and that token ids tell the rows of replayed steps. Each is exact: SoloRuns.LawfulIff and, for the step that raises, EngineStep.StepHeld, with a run for each way to fail in EmbeddingFaults (EmbeddingFaults.InheritedByRaise for the raising step); ToldApart.AgreeExactly; CudaGraph.GraphRowsAreEager with GraphSteps.FirstTokenDiverges. Additions refused by the length checks are unrestricted, and EngineRun.RunsAreSafe asks nothing.
- ToldApart.AgreeExactly: quantifies over networks that share an embedding; a single network may happen to give two disagreeing asks the same answers. The runs it builds have no captured graphs.
- Lifecycle.OutputsGrowByOne: runs in which no id is given to a second request.
- DrainsExactly.DrainsIff: requests that no token ends early, but from every reachable state; SoloDrains.DrainsIffSolo is about all requests.
- SoloDrains.DrainsIffSolo: needs the engine invariant, and that token ids tell the rows of whatever the loop replays, for without them outputs need not be solo ones and no length is given in advance. SoloDrains.FreeAlong gives a condition on the state before the loop.
- Lifecycle.ToldOnce: says at most once, because ids finished before a call that raises are never reported.
- RunnerImpl.TorchRunner.Execute: capturing a graph and the kernels it replays are foreign calls; a replay is the model run on what the index buffers denote. Each request's sampler state is a map entry that is replaced where the source extends a list in place.
- LlmImpl.LLM.Generate: the ids it is given are unknown to the engine and distinct, as made from uuid4; without room the loop may run for ever (TightPool.NoRoomNoProgress) or raise (RaisesExactly.RaisesIff), and the call is not described then. One parameter object for all prompts is a list of equal ones.
- SchedulerImpl.Scheduler.Schedule: the queues list ids instead of request objects, which is the same for live requests because their ids are unique; sort(), max() and min() are calls of functions.
- FlashInfer.BuildPages: the kernels that read the layout are foreign; the layout's meaning is their documented one.
- FreeOrder.ShallowSurvive: of blocks the request alone held; a block that others hold too stays in use and joins the queue when they end.
- Hash collisions: `hash` is an injective constructor.
- Arrival times: a counter, so they are distinct.
- Sampling: one deterministic function of the hidden row and the request's parameters and history; seeded generators restart on resume and are outside the theorems, log-probabilities are left out.
- Layer arithmetic: embedding, projection and attention of a layer are uninterpreted functions of row, position and visible keys and values, so rounding is outside the model.
- Parameter checks of SamplingParams are made part of adding a request; temperature and the other sampling settings are opaque.
- Request ids made from uuid4 are parameters, assumed distinct.
- Text: tokenizing, detokenizing and stop-string truncation in llm.py.
- Cache sizing, the minimum of four blocks, device memory, and the config checks other than those assumed as preconditions.
- Timestamps, statistics, tracing, the async engine, HTTP server, CLI and vision tower: they carry no scheduling meaning.
