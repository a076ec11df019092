# A verified model of the engine

This project models, in Dafny 4.11, the three parts of the engine whose mistakes produce fluent but wrong output, and
proves what they promise, over every input and every run.

**The paged-KV engine.** Requests are admitted, scheduled in batches over a refcounted pool of KV blocks that is also a
content-addressed prefix cache, forwarded, committed, preempted, forked and drained. Every module below works on values:
`PoolModel`, `Sequences` and `SchedulerModel` hold the operations as functions, `Invariants` says what every state
satisfies, and `CoreSteps`, `CoreStart`, `CoreCommit`, `CorePublish`, `Rounds`, `Scheduling`, `Committing`, `Forking` and
`ForkSeeding` show that each operation keeps it. `Lifecycle`, `Starting`, `Conserving` and `Stops` say what the operations
do, in the terms of queues, free blocks, the index and tokens: what a start adopts, that a schedule is maximal, where
texts end. `Kv`, `Transparency` and `ForwardPass` add the cache contents: a row is a
free term over its token, its position and the rows it attends to, so a row *is* the text it was computed from. `Runs`
interleaves everything (arrivals, cancellations, stop strings and reports may fall between a batch and its commit), and
`Guarantees`, `Stops`, `Outputs`, `Progress`, `Termination`, `Endings`, `Preemptions` and `Queueing` are theorems about
whole runs.
`Shortfalls` says where the engine breaks its promises and exactly when, and `Witnesses` has a run of a tiny engine for
each. `Batches` is the batch validator. `BlockPools.BlockPool` and `Schedulers.Scheduler` are the same program as the source writes it,
classes with loops and in-place updates, proved equal to those functions, the pool down to its linked list (`FreeList`).

**The constrained-decoding machine.** `Schemas` compiles a JSON Schema document into an arena, `Machines` is the
character-level pushdown machine, `Validators.Validator` the same machine changing its stack in place, `Grammar` the
documents of a schema as a recursive grammar over RFC 8259, `Documents` and `Texts` unfold objects and arrays of it into
their members and elements and fold them again, `Accepting`, `Trimming` and `Caps` prove the converse of soundness, what
the machine accepts exactly, `SchemaTexts` says keyword by keyword which texts a schema document admits and `Compilable`
which documents compile, `Languages` joins the two ends, `Closing` constructs the text that completes a document, and
`Masking` is the token mask, of which `Drawing` says which tokens it leaves. The program compares an
enumerated value's first character with a character and its later bytes with characters; `Validators` does just that, and
is proved to be the machine of `Machines` on the arena as it is read (`Machines.Readable`), which for values of ASCII is
the arena itself.

**Fast forms.** `CacheWrites` (run-coalesced cache writes), `Sampling` (device-selected candidates), `SpillStores` (the
two-tier store of evicted blocks) and `Detokenizing` (streaming text).

`dafny verify dfyconfig.toml` checks everything.

## What came out

Holds, over every run whose forks are of live leaders with the blocks they need: prefix caching is transparent; every
token is sampled from exactly its own sequence's text; two engines with different caches, pools, budgets, neighbours and
forks give the same request the same answer; references are conserved; every batch is valid; runs without arrivals end,
whatever is cancelled, stopped or drained meanwhile, in a number of steps given in advance; a sequence is preempted at
most once per token; nobody overtakes; every schedule is maximal; a start adopts the longest cached prefix that leaves
something to compute; nothing is generated past an end of text that a commit saw. The machine accepts exactly the
documents of its schema as it is read, but for enumerated values out of reach, as far as its caps let it read them; for
enumerations of ASCII without such values these are exactly the texts the schema document's keywords describe
(`Languages.AcceptsItsTexts`). It never leaves its arena, its viability is exact, and the bucketed mask is the brute-force
mask.

Does not hold, and exactly when:

- `fork` that runs out of blocks keeps the failed child's references: conservation fails if and only if the pool runs
  short and the prompt fills a block (`Forking.ForkConservesIff`, shown by `Witnesses.ForkLeaks`).
- Such a `fork` also leaves the children it had made running with nothing to compute, so that a later schedule slices past
  their text: if and only if one guarded block was free (`Shortfalls.FailedForkStrandsIff`, `Witnesses.ForkStrands`).
- `fork` of a leader that finished with its first token reports success and makes children that count a prompt they have
  no blocks for: it covers all of them if and only if the leader is live, and none otherwise
  (`Shortfalls.ForkNeedsLiveParent`). Seeding then gives each choice blocks that were free, and it reads what their last
  owners left (`Shortfalls.FinishedForkStep`, `Witnesses.FinishedLeaderMisreads`).
- `seed_fork` never asks whether the first token ends the text, so such a choice goes on, past its end
  (`Shortfalls.SeededPastItsEndIff`, `Shortfalls.SampledPastItsEnd`, `Witnesses.ChoiceRunsOn`).
- An `enum` can produce every one of its values, wherever it stands, if and only if all are ASCII, none holds more than
  sixteen whitespace characters in a row, and none is a proper prefix of another (`Options.EveryOptionReadIff`). Of `[1, 12]` the second is
  refused, though the comment on `settle_word` says this cannot arise (`Options.TwelveIsShadowed`).
- A value beyond ASCII is read by its bytes taken as characters. The machine refuses `"\u00e9"` spelled with the character
  itself and accepts its two bytes as two characters, which is no document of the schema (`Options.AccentIsMangled`). What
  is accepted is always a document of the schema as it is read, and of the schema itself when all enumerated values are
  ASCII (`Grammar.AcceptedIsDocument`).
- Caps can strand a viable state: on an unfinished number or hexadecimal escape, on an enumerated value whose whitespace runs
  on, or on a property that requires one; the exact states are `Closing.Stranded` (`Closing.NumberCapStrands`,
  `Closing.StringCapStrands`, `Closing.SpacesStrand`).
- The whitespace that ends a number is counted twice, since the character is handed on: right after a number fifteen in a
  row are taken, elsewhere sixteen, the documented cap (`Caps.SpacesAfterNumberIff`, `Caps.SpacesTakenIff`).
- A slot mapping that names a slot twice and has more than four runs is written in no particular order
  (`CacheWrites.WriteRows`); validated batches never name one twice.
- Publishing a block that is free breaks the eviction order (`FreeList.PublishingFreeBreaksOrder`); the scheduler never
  does it.

Branches of the source that can never be taken: the preemption in `prefill_chunk`, the allocation failure in `try_start`
and, for the choices of a live leader, the allocation in `seed_fork` (`Scheduling.StartedChunkFits`, `CoreStart.TryStartCore`, `ForkSeeding.SeedForkIs`).

## Model

| member | source | states |
|---|---|---|
| Hashing.RootsAgree | crates/vapi-cache/src/hash.rs:83-123 | two namespaces have one root if and only if model, weights, precision, adapter (none and empty alike) and tenant agree: the length-prefixed fields cannot be smeared |
| Hashing.HashBlockInjective | crates/vapi-cache/src/hash.rs:146-155 | one block's address determines its parent's address and its tokens |
| Hashing.ChainInjective | crates/vapi-cache/src/hash.rs:161-169 | the address of a prefix determines namespace and every token of the prefix |
| Hashing.HashBlockChain | crates/vapi-cache/src/hash.rs:161-169 | the loop returns exactly the addresses of the full blocks, in order; a trailing partial block has none |
| Hashing.ChainsShareABlock | crates/vapi-cache/src/hash.rs:146-169 | block `j` of one chain and block `k` of another have one address if and only if `j == k`, the namespaces agree and all tokens up to the end of the block agree |
| Hashing.TenantHashCollisionFree | crates/vapi-engine/src/scheduler.rs:206-214 | the per-tenant address of a prefix never collides across tenants or prefixes |
| PoolModel.AllocateOk | crates/vapi-cache/src/pool.rs:171-188 | fails exactly when nothing is free; otherwise hands out an unreferenced block, drops its address, keeps list, index and order consistent |
| PoolModel.ReleaseOk | crates/vapi-cache/src/pool.rs:233-247 | one reference less; the last one frees the block, addresses untouched |
| PoolModel.PublishOk | crates/vapi-cache/src/pool.rs:264-284 | the returned block carries the address; the first publisher wins and gains a reference, otherwise only this block's address changes; index and addresses stay mutually inverse |
| PoolModel.ReferenceOk | crates/vapi-cache/src/pool.rs:288-295 | reviving a cached block from anywhere in the list keeps everything consistent |
| PoolModel.MatchPrefixOk | crates/vapi-cache/src/pool.rs:309-323 | the matched blocks carry the addresses asked for, in order, and the first one not matched is not in the index |
| PoolModel.MatchPrefixRefs | crates/vapi-cache/src/pool.rs:309-323 | every matched block gained exactly one reference, no block is matched twice |
| PoolModel.NewPoolIs | crates/vapi-cache/src/pool.rs:102-129 | a fresh pool is free and empty in ascending order and never reserves more blocks than there are |
| Conserving.BlocksForLeast | crates/vapi-cache/src/pool.rs:155-157 | the least number of blocks that hold so many tokens |
| FreeList.PushFrontOk | crates/vapi-cache/src/pool.rs:334-344 | the links spell out the list with the block in front, in both directions |
| FreeList.PushBackOk | crates/vapi-cache/src/pool.rs:346-356 | the links spell out the list with the block at the end |
| FreeList.UnlinkMember | crates/vapi-cache/src/pool.rs:358-373 | cutting any member out leaves the links spelling out the rest |
| FreeList.EvictsOldestCached | crates/vapi-cache/src/pool.rs:67-79 | after any proper trace, allocation takes cached content only when no empty block is free, and then the content free the longest |
| FreeList.PublishingFreeBreaksOrder | crates/vapi-cache/src/pool.rs:264-284 | the proviso that only referenced blocks are published is needed |
| BlockPools.BlockPool.constructor | crates/vapi-cache/src/pool.rs:102-129 | a fresh pool: all blocks free in ascending order |
| BlockPools.BlockPool.AllocateBlock | crates/vapi-cache/src/pool.rs:171-188 | refines the abstract allocation; evicted content is recorded exactly when tracked |
| BlockPools.BlockPool.AllocateGuardedBlock | crates/vapi-cache/src/pool.rs:191-199 | refines the abstract guarded allocation |
| BlockPools.BlockPool.Free | crates/vapi-cache/src/pool.rs:233-247 | refines the abstract release: cached blocks to the back, empty ones to the front |
| BlockPools.BlockPool.PublishBlock | crates/vapi-cache/src/pool.rs:264-284 | refines the abstract publication, the canonical block included |
| BlockPools.BlockPool.LookupBlock | crates/vapi-cache/src/pool.rs:298-302 | refines the abstract lookup |
| BlockPools.BlockPool.MatchCached | crates/vapi-cache/src/pool.rs:309-323 | the loop refines the abstract prefix match: stops at the first miss |
| BlockPools.BlockPool.FreeAll | crates/vapi-cache/src/pool.rs:326-330 | the loop refines the abstract release of a batch |
| BlockPools.BlockPool.TakeEvicted | crates/vapi-cache/src/pool.rs:216-218 | returns what was recorded and forgets it |
| CoreSteps.AdmitCore | crates/vapi-engine/src/scheduler.rs:153-179 | admission keeps the block, queue and request invariants, errors included |
| CoreSteps.FinishCore | crates/vapi-engine/src/scheduler.rs:660-675 | finishing gives every block back and keeps the invariants |
| CoreSteps.CancelTakesAll | crates/vapi-engine/src/scheduler.rs:184-191 | cancelling a request finishes every one of its sequences and touches no other |
| CoreSteps.DrainCore | crates/vapi-engine/src/scheduler.rs:678-693 | draining keeps the invariants and empties the finished list |
| CoreSteps.PreemptCore | crates/vapi-engine/src/scheduler.rs:567-577 | preemption gives every block back and requeues the sequence in front |
| Lifecycle.AdmitEffects | crates/vapi-engine/src/scheduler.rs:153-179 | the empty prompt, and one that leaves no room to generate, is refused with its own error and changes nothing; any other is queued last under a new number, as given, with nothing computed or held, and is listed under its request |
| Lifecycle.FinishEffects | crates/vapi-engine/src/scheduler.rs:660-675 | a live sequence leaves its queue with its text, gives back one reference to each block it held, and is reported once; an unknown or finished one is left alone |
| Lifecycle.CancelEffects | crates/vapi-engine/src/scheduler.rs:184-191 | every live choice of the request ends as cancelled; finished ones and other requests stay as they were |
| Lifecycle.PreemptEffects | crates/vapi-engine/src/scheduler.rs:567-577 | the text stays, all of it is to be computed again, every block goes back, and the sequence is queued first |
| CoreStart.TryStartCore | crates/vapi-engine/src/scheduler.rs:435-491 | success covers the whole text and one token more, leaves something to compute and the watermark free; failure changes no sequence; the invariants hold either way |
| CoreStart.AllocPhaseOk | crates/vapi-engine/src/scheduler.rs:464-490 | a start succeeds if and only if the blocks missing after the match fit above the watermark |
| Starting.TryStartAdopts | crates/vapi-engine/src/scheduler.rs:435-491 | with the cache on, a successful start adopts exactly the largest number of leading blocks whose addresses are all in the index and that leave something to compute, each the block the index names; with it off, none. It succeeds if and only if the free blocks, less the adopted ones nobody held, cover what is missing and the watermark |
| Starting.GiveBackKeeps | crates/vapi-engine/src/scheduler.rs:457-461 | the carve-out keeps a prefix of the match that leaves something to compute, and returns no block more than it must |
| Starting.FoundExists | crates/vapi-engine/src/scheduler.rs:441-461 | there is exactly one such run of cached blocks |
| CorePublish.PublishOneCore | crates/vapi-engine/src/scheduler.rs:615-658 | publishing full blocks and swapping identical ones keeps the invariants |
| Rounds.PushSeqOk | crates/vapi-engine/src/scheduler.rs:525-565 | adding a sequence keeps every row of the plan right: tokens, positions, slots, lengths, table and sampled row |
| Scheduling.DecodeOneOk | crates/vapi-engine/src/scheduler.rs:353-389 | one turn of the decode pass, each of its outcomes, keeps the pass's invariant |
| Scheduling.StartedChunkFits | crates/vapi-engine/src/scheduler.rs:509-522 | a prefill chunk never lacks a block, so it never preempts |
| Scheduling.StartOneOk | crates/vapi-engine/src/scheduler.rs:408-430 | one turn of the start loop keeps the invariant; failure puts the head back and stops |
| Scheduling.ScheduleOk | crates/vapi-engine/src/scheduler.rs:329-431 | from every state between rounds, the plan describes running sequences, each once, within the token budget, and the state is one between rounds again |
| Conserving.TryExtendTakes | crates/vapi-engine/src/scheduler.rs:494-507 | growing takes exactly the missing blocks, and fails if and only if the pool has fewer |
| Conserving.PreemptedIff | crates/vapi-engine/src/scheduler.rs:353-389 | a decoding sequence is preempted if and only if its next token needs a block and none is free |
| Conserving.ScheduleMaximal | crates/vapi-engine/src/scheduler.rs:329-431 | unless the token budget is spent, every running sequence was preempted, is still prefilling or is sampled; every prefilling one has a row as long as its remaining text and the chunk allow; and the queue is empty, the limit of running sequences reached, or its head would not start |
| Committing.CommitIs | crates/vapi-engine/src/scheduler.rs:581-613 | the commit, sequence by sequence: members advance by their row, exactly the sampled ones grow, each by its own token, others are untouched |
| Committing.CommitOk | crates/vapi-engine/src/scheduler.rs:581-658 | a commit brings a step in flight, with sequences finished meanwhile, back between two rounds |
| Stops.CheckIs | crates/vapi-engine/src/sequence.rs:179-202 | a generated token that is an end of text or a stop token stops; otherwise as many tokens as the request or the model allows end the text; otherwise it goes on |
| Stops.CommitEnds | crates/vapi-engine/src/scheduler.rs:581-613 | a sampled sequence gains exactly its token and ends as stopped if and only if the token is an end of text or one of its stop tokens, as full if and only if it is not and a length is reached, and otherwise stays active |
| Stops.CommitMoves | crates/vapi-engine/src/scheduler.rs:581-658 | every member advances by its row, keeps its text unless sampled, and has all its full blocks published if the cache is on; nobody else is touched |
| Batches.Validate | crates/vapi-engine/src/backend.rs:96-204 | accepts exactly the batches whose lengths frame the tokens, whose tables cover their keys inside the cache, whose positions are contiguous, whose slots are unique and in range and whose logits exist; otherwise names a fault that is there |
| Batches.CheckSlots | crates/vapi-engine/src/backend.rs:180-193 | the sorted copy finds a duplicate or an outside slot exactly when there is one |
| Batches.ScheduledBatchValid | crates/vapi-engine/src/scheduler.rs:329-431 | every batch built between rounds passes validation, holds each sequence once, keeps to the budget and samples exactly the sequences whose known text the step completes |
| ForwardPass.ForwardOk | crates/vapi-engine/src/backend.rs:311-317 | after the forward pass every sequence still reads its own text, batch members one row further |
| ForwardPass.OthersUnchanged | crates/vapi-engine/src/scheduler.rs:235-245 | no write of one sequence reaches a row another one reads |
| ForwardPass.ContextIsOwnText | crates/vapi-engine/src/sequence.rs:29-33 | what a row attends to is the sequence's own text, all of it when sampled |
| ForwardPass.CommitKvOk | crates/vapi-engine/src/scheduler.rs:581-658 | after commit, publication and swaps every sequence reads its own text and every address tells the truth |
| Transparency.ScheduleKvOk | crates/vapi-engine/src/scheduler.rs:353-491 | starting from the cache, growing and preempting leave every sequence reading its own text |
| Forking.ForkSucceedsIff | crates/vapi-engine/src/scheduler.rs:217-280 | fork of a live, just prefilled leader succeeds if and only if one guarded block per child is free; then every child shares the full blocks and owns its open one |
| Forking.ForkConservesIff | crates/vapi-engine/src/scheduler.rs:246-262 | exactly when references survive a fork, its error exit included |
| Forking.ForkRefuses | crates/vapi-engine/src/scheduler.rs:217-232 | an unknown leader and one still prefilling are refused, each with its own error and nothing changed; any other error is for want of a block |
| Shortfalls.ForkNeedsLiveParent | crates/vapi-engine/src/scheduler.rs:217-280 | a fork of a prefilled leader succeeds; it gives every child blocks for the prompt if and only if the leader has not finished, and otherwise none of them |
| ForkSeeding.CopyBlocksIs | crates/vapi-engine/src/backend.rs:363-367 | copying distinct destinations that are no sources replaces each by its source and nothing else |
| ForkSeeding.SeedForkIs | crates/vapi-engine/src/scheduler.rs:286-305 | for a fresh choice, seeding appends the token and takes no block |
| Shortfalls.SeededPastItsEndIff | crates/vapi-engine/src/scheduler.rs:286-305 | after a fork each choice is in the running queue and active, although a commit of its first token would have finished it if and only if that token stops |
| Shortfalls.SampledPastItsEnd | crates/vapi-engine/src/scheduler.rs:581-613 | the next commit that samples such a choice writes a token after its complete text |
| Shortfalls.FailedForkStrandsIff | crates/vapi-engine/src/scheduler.rs:246-262 | a fork that fails leaves a state whose running sequences can all be sliced if and only if not even one guarded block was free; otherwise the first child's turn slices past its text |
| Shortfalls.FinishedForkStep | crates/vapi-worker/src/engine.rs:464-526 | a fork of a finished leader succeeds, copies nothing and gives every choice blocks nobody held |
| Witnesses.ForkLeaks | crates/vapi-engine/src/scheduler.rs:246-262 | a legal run after which a failing fork breaks conservation |
| Witnesses.ForkStrands | crates/vapi-engine/src/scheduler.rs:525-541 | a legal run after which a failing fork leaves a sequence that cannot be scheduled |
| Witnesses.FinishedLeaderMisreads | crates/vapi-worker/src/engine.rs:994-1003 | a legal run after which the fork of a finished leader succeeds and its choice reads a row nobody computed |
| Witnesses.ChoiceRunsOn | crates/vapi-engine/src/scheduler.rs:286-305 | a legal run that generates past the end of a choice's text |
| ForkSeeding.ForkStepOk | crates/vapi-worker/src/engine.rs:464-526 | fork, copies and seeds as one step: exact success condition, all invariants again, every choice reads the prompt's own rows, nobody else touched, at block boundaries too |
| Runs.TakeOk | crates/vapi-worker/src/engine.rs:653-1040 | every event of the engine keeps the whole invariant |
| Runs.PlayOk | crates/vapi-engine/src/scheduler.rs:64-88 | the invariant holds after every run |
| Runs.LogitContextIs | crates/vapi-engine/src/scheduler.rs:552-564 | every logit is computed from the whole of its own sequence's text and nothing else |
| Guarantees.CachingIsTransparent | crates/vapi-engine/src/scheduler.rs:435-491 | in every reachable state, position `p` of a live sequence reads, through its block table, the row of exactly its first `p + 1` tokens |
| Guarantees.SampledFromOwnText | crates/vapi-engine/src/sequence.rs:29-33 | in every reachable state with a step in flight, each sampled token comes from its own sequence's rows |
| Guarantees.EveryBatchValid | crates/vapi-engine/src/backend.rs:90-95 | from every reachable state the next batch is valid |
| Guarantees.ReferencesConserved | crates/vapi-engine/src/scheduler.rs:66-71 | in every reachable state each count is the number of sequences listing the block, none lists one twice, waiting and finished ones list none, each is in the one queue of its status |
| Guarantees.AllBlocksComeBack | crates/vapi-cache/src/pool.rs:139-141 | when every sequence has finished, every block is free |
| Guarantees.SharingIsSound | crates/vapi-cache/src/hash.rs:109-114 | a block two sequences list is at one place in both, their text up to its end is the same, and with the cache on so is their tenant |
| Stops.NothingAfterTheEnd | crates/vapi-engine/src/sequence.rs:179-202 | over any run, whatever was sampled: past its prompt and the token it was born with, a text holds no end-of-text and no stop token before its last position and is within both lengths there; one that has not finished holds none at all |
| Outputs.TextIsDecodedAlone | crates/vapi-engine/src/sequence.rs:169-202 | in every reachable state, forks included, a sequence's text is what decoding alone gives from its prompt, or for a choice from its prompt and first token, and from there on no token before the last is an end of text or a stop token or reaches a length |
| Outputs.SameAnswer | crates/vapi-engine/src/scheduler.rs:10-17 | two engines that stop alike give one request comparable texts while it runs and the same text once complete, whatever their caches, pools, budgets, neighbours, forks and histories; so for two choices with one first token |
| Progress.StartsAlone | crates/vapi-engine/src/scheduler.rs:464-471 | with nothing running, a sequence that fits alone starts |
| Progress.PlanNeverEmpty | crates/vapi-engine/src/scheduler.rs:353-431 | with positive budgets and sequences that fit alone, no plan is empty while one is unfinished |
| Termination.RoundFalls | crates/vapi-engine/src/scheduler.rs:329-431 | each round lowers (generation left, decoding sequences, prefill left) lexicographically |
| Endings.LandingFalls | crates/vapi-worker/src/engine.rs:984-1003 | the measure falls over a whole step even when members finish, are cancelled or drained while it is in flight |
| Endings.EveryRunEnds | crates/vapi-worker/src/engine.rs:653-1040 | any legal run without arrivals that completes `Rank` steps, and `ForkCost` more for each choice its forks make, ends with every sequence finished, whatever was sampled, cancelled, stopped or drained |
| Preemptions.ScheduleRaises | crates/vapi-engine/src/sequence.rs:165-177 | a schedule preempts a sequence at most once, and its known prefix is then strictly longer |
| Preemptions.PreemptedAtMostOncePerToken | crates/vapi-engine/src/scheduler.rs:567-577 | over any run a sequence is preempted at most as often as it generated tokens |
| Queueing.StartsInOrder | crates/vapi-engine/src/scheduler.rs:408-430 | a schedule starts exactly a prefix of the queue, the preempted having gone back to its front |
| Queueing.QueueOrdered | crates/vapi-engine/src/scheduler.rs:169-178 | in every reachable state the queue is the preempted, then the never started in order of admission |
| Queueing.NoOvertaking | crates/vapi-engine/src/scheduler.rs:418-424 | if a launch starts a request, it starts every earlier one still waiting for its first start |
| Queueing.StartKeepsReserve | crates/vapi-cache/src/pool.rs:159-167 | a successful start leaves at least the watermark free |
| Schedulers.Scheduler.AdmitRequest | crates/vapi-engine/src/scheduler.rs:153-179 | refines admission, errors included |
| Schedulers.Scheduler.FinishSequence | crates/vapi-engine/src/scheduler.rs:660-675 | refines finishing |
| Schedulers.Scheduler.CancelRequest | crates/vapi-engine/src/scheduler.rs:184-191 | refines cancellation and reports the first sequence |
| Schedulers.Scheduler.DrainFinished | crates/vapi-engine/src/scheduler.rs:678-693 | refines draining and returns the sequences in order |
| Schedulers.DrainedIs | crates/vapi-engine/src/scheduler.rs:678-693 | what is reported is everything finished, as it was, each once |
| Schedulers.Scheduler.TryExtendSequence | crates/vapi-engine/src/scheduler.rs:494-507 | refines the extension, partial failure included |
| Schedulers.Scheduler.PushSequence | crates/vapi-engine/src/scheduler.rs:525-565 | the loop refines the row added to the batch |
| Schedulers.Scheduler.ScheduleDecodePass | crates/vapi-engine/src/scheduler.rs:353-389 | the loop refines the decode pass |
| Schedulers.Scheduler.PrefillChunkOf | crates/vapi-engine/src/scheduler.rs:509-522 | refines a prefill chunk |
| Schedulers.Scheduler.TryStartSequence | crates/vapi-engine/src/scheduler.rs:435-491 | the match, give-back and allocation loops refine the start |
| Schedulers.Scheduler.StartWaiting | crates/vapi-engine/src/scheduler.rs:408-430 | the loop refines the starts |
| Schedulers.Scheduler.ScheduleStep | crates/vapi-engine/src/scheduler.rs:329-352 | refines the whole schedule and keeps the state between rounds |
| Schedulers.Scheduler.PublishSequence | crates/vapi-engine/src/scheduler.rs:615-658 | the publish and swap loops refine publication |
| Schedulers.Scheduler.CommitStep | crates/vapi-engine/src/scheduler.rs:581-613 | the three loops refine the commit and bring the state back between rounds |
| Schedulers.Scheduler.ForkSequence | crates/vapi-engine/src/scheduler.rs:217-280 | the loop refines the fork, its leaking error exit included |
| Schedulers.Scheduler.SeedForked | crates/vapi-engine/src/scheduler.rs:286-305 | refines the seed |
| Machines.PushCharSane | crates/vapi-engine/src/structured.rs:403-430 | every accepted character leaves containers waiting under exactly the values they wait for |
| Machines.AgainSettles | crates/vapi-engine/src/structured.rs:741-756 | a character is handed on at most once |
| Machines.ReadingIs | crates/vapi-engine/src/structured.rs:759-770 | an option of ASCII is read as itself, and any other by a longer text |
| Machines.DoomPersists | crates/vapi-engine/src/structured.rs:486-537 | a state that is not viable stays so under every accepted character |
| Machines.AllowsPrefix | crates/vapi-engine/src/structured.rs:445-448 | every prefix of an allowed text is allowed |
| Machines.DepthIs | crates/vapi-engine/src/structured.rs:455-460 | the depth is the number of containers open: all frames but a value on top, and every frame below the top is a container |
| Validators.Validator.StartValue | crates/vapi-engine/src/structured.rs:565-643 | options are chosen by their first character, as the machine on the arena as read does |
| Validators.Validator.InWord | crates/vapi-engine/src/structured.rs:759-770 | comparing bytes with characters, and settling by length in bytes, is what the machine on the arena as read does |
| Validators.Validator.PushCharacter | crates/vapi-engine/src/structured.rs:403-430 | the in-place machine accepts what the function accepts on the arena as it is read, and ends in the same state |
| Validators.Validator.InNumber | crates/vapi-engine/src/structured.rs:701-757 | the number handler, the character handed on included |
| Validators.Validator.InObject | crates/vapi-engine/src/structured.rs:772-894 | the object handler |
| Validators.Validator.InArray | crates/vapi-engine/src/structured.rs:1007-1047 | the array handler, the element's first character handed on |
| Validators.Validator.PushText | crates/vapi-engine/src/structured.rs:434-441 | the loop accepts exactly the texts the function accepts on the arena as it is read |
| Validators.Validator.IsViable | crates/vapi-engine/src/structured.rs:486-491 | the loop decides viability |
| Grammar.CharactersAre | crates/vapi-engine/src/structured.rs:364-366 | the character classes of the machine and the grammar are those of the RFC |
| Grammar.PushCharTail | crates/vapi-engine/src/structured.rs:403-430 | whatever completes the state after an accepted character completes the state before it with the character in front, in the grammar of the arena the machine works on |
| Grammar.AcceptedIsDocument | crates/vapi-engine/src/structured.rs:384-441 | an accepted, complete text is a document of the schema as it is read, and of the schema itself if its enumerated values are ASCII: right types, required properties present, none repeated or undeclared where that is refused, strings and numbers well formed |
| Accepting.CharTakes | crates/vapi-engine/src/structured.rs:403-430 | the converse of `PushCharTail`: where the caps permit a character and no option ends inside another, whatever the grammar has left to read after it, the machine takes it and is left with just that |
| Accepting.ReadIff | crates/vapi-engine/src/structured.rs:384-441 | with no option inside another, a text is accepted as complete if and only if it is a document and the caps permit each of its characters |
| Trimming.LikePush | crates/vapi-engine/src/structured.rs:645-657 | a machine cannot tell an arena from one whose enumerations lack values that begin with another |
| Trimming.AcceptedIff | crates/vapi-engine/src/structured.rs:384-441 | on every well-formed arena: accepted as complete if and only if a document without a value out of reach, permitted by the caps |
| Caps.CountersAre | crates/vapi-engine/src/structured.rs:403-430 | how the caps count: whitespace in a row outside strings, twice for the one that ends a number, and the characters of a string and of a number |
| Caps.SpacesTakenIff | crates/vapi-engine/src/structured.rs:403-430 | between tokens a run of whitespace is taken if and only if it is at most sixteen long, what went before it counted |
| Caps.SpacesAfterNumberIff | crates/vapi-engine/src/structured.rs:741-756 | right after a number, if and only if it is at most fifteen long |
| Caps.ModestAcceptedIff | crates/vapi-engine/src/structured.rs:338-362 | no leading whitespace, at most fifteen whitespace and thirty-two number characters in a row and 8192 characters in all: accepted if and only if a document |
| Documents.ObjectIsItsMembers | crates/vapi-engine/src/structured.rs:947-993 | an object of the grammar is a list of members: names well formed, values of their names' nodes, no declared name twice, none undeclared where that is refused, every required name there |
| Texts.ObjectIff | crates/vapi-engine/src/structured.rs:772-894 | an object of a node is exactly a list of members it may have, written with whitespace wherever the RFC allows it |
| Texts.ArrayIff | crates/vapi-engine/src/structured.rs:1007-1047 | an array is exactly a list of elements, so written |
| Closing.IndicesInside | crates/vapi-engine/src/structured.rs:995-1005 | whatever the names and options, no reachable state holds, or opens a value at, an index outside the arena |
| Closing.ClosingTextCompletes | crates/vapi-engine/src/structured.rs:480-485 | from every viable state no cap has stranded, the constructed text completes the document |
| Closing.StrandedForever | crates/vapi-engine/src/structured.rs:664-667 | from a stranded state nothing does |
| Closing.NumberCapStrands | crates/vapi-engine/src/structured.rs:715-719 | an accepted, viable text of thirty-one digits and an `e` that nothing completes |
| Closing.StringCapStrands | crates/vapi-engine/src/structured.rs:664-667 | an accepted, viable string with `\u` two characters before the cap that nothing completes |
| Closing.SpacesStrand | crates/vapi-engine/src/structured.rs:403-430 | a schema whose only value holds seventeen spaces in a row: viable from the start, and nothing completes it |
| Closing.ViabilityIsExact | crates/vapi-engine/src/structured.rs:486-537 | a reachable state can be completed if and only if it is viable and no cap has stranded it, whatever the enumerated values |
| Schemas.CompilePreservesMeaning | crates/vapi-engine/src/structured.rs:67-99 | compilation fails exactly when, and as, the document has no meaning; otherwise node 0 is its meaning, with or without the appended node |
| Schemas.CompileMeans | crates/vapi-engine/src/structured.rs:103-248 | compiling a node appends to the arena, its own node last, and that node is the sub-schema's meaning |
| SchemaTexts.SchemaMeans | crates/vapi-engine/src/structured.rs:103-248 | a node that denotes what a schema means has exactly the values the document describes: `const`, `enum`, each type, items, declared and required properties, additional ones allowed or not |
| SchemaTexts.CompiledTexts | crates/vapi-engine/src/structured.rs:67-248 | the documents of the compiled arena are exactly the texts the schema document describes, keyword by keyword |
| Compilable.CompiledIff | crates/vapi-engine/src/structured.rs:103-248 | a document compiles if and only if its keywords are supported, it nests at most thirty-two levels, `enum` is a nonempty array, the type is known, properties are schemas, required names declared, additional properties allowed or not, and no object could only be empty |
| Languages.CompiledAcceptsIff | crates/vapi-engine/src/structured.rs:384-441 | for every schema that compiles, with names that can be written: the program accepts exactly the documents of the arena as it is read, without values out of reach, that the caps permit |
| Languages.AcceptsItsTexts | crates/vapi-engine/src/structured.rs:384-441 | with enumerated values of ASCII, none inside another, the program accepts exactly the texts the schema document describes that the caps permit: all of them, if their runs are short |
| Languages.DecimalsAccepted | crates/vapi-engine/src/structured.rs:178-180 | `3.1` is accepted for `{"type": "number"}` and refused for `{"type": "integer"}` |
| Schemas.CompiledIsLinked | crates/vapi-engine/src/structured.rs:1049-1060 | every compiled schema below the size limit is an arena whose references, of properties and of array items alike, stay inside it and fall along a rank |
| Schemas.CompiledIndicesInside | crates/vapi-engine/src/structured.rs:995-1005 | the machine of every compiled schema never steps outside its arena |
| Options.CompiledViabilityIsExact | crates/vapi-engine/src/structured.rs:486-537 | exactness for every compiled schema, on the arena as it is read |
| Options.TextReadIff | crates/vapi-engine/src/structured.rs:645-657 | at the root, below a property or in an array, an enumeration reads exactly its texts without a run of whitespace too long that no other is a proper prefix of, and nothing else |
| Options.OptionReachableIff | crates/vapi-engine/src/structured.rs:645-657 | an enumerated value is produced if and only if it is the reading of one, holds no run of blanks too long, and no reading is a proper prefix of it; among values of ASCII that part as numbers do, any other is refused |
| Options.EveryOptionReadIff | crates/vapi-engine/src/structured.rs:759-770 | every value of an enumeration is read as itself if and only if all are ASCII, none holds a run of whitespace too long, and none is a proper prefix of another |
| Options.TwelveIsShadowed | crates/vapi-engine/src/structured.rs:651-654 | the comment's claim fails for `[1, 12]`: `12` is refused |
| Options.AccentIsMangled | crates/vapi-engine/src/structured.rs:764-764 | an enumeration of one accented letter refuses it and accepts as complete its bytes as characters, which is no document of the schema |
| Masking.BuildIndex | crates/vapi-engine/src/structured.rs:1076-1084 | every token with a text is in the bucket of its first byte and nowhere else |
| Masking.FindAllowed | crates/vapi-engine/src/structured.rs:1117-1133 | the bucketed pass finds exactly the tokens brute force finds |
| Masking.Mask | crates/vapi-engine/src/structured.rs:1095-1158 | the mask is the brute-force mask; only the end of the turn survives a complete document or a dead end |
| Masking.ClosingAddsNothing | crates/vapi-engine/src/structured.rs:1134-1150 | at a dead end no token closes anything |
| Masking.MaskFinishing | crates/vapi-engine/src/structured.rs:1190-1210 | near the end of the budget only closing tokens are left, if there are any |
| Masking.FinishingWithinMask | crates/vapi-engine/src/structured.rs:1183-1210 | the finishing mask leaves nothing the mask would not |
| Masking.RunStaysViable | crates/vapi-engine/src/structured.rs:1089-1094 | any run of unmasked tokens keeps an accepted, viable document until the turn ends |
| Drawing.AllowsIff | crates/vapi-engine/src/structured.rs:445-448 | in a reached state, a text is allowed if and only if it goes on to a complete document or only the caps keep it from one |
| Drawing.DrawnIff | crates/vapi-engine/src/structured.rs:1095-1158 | the tokens left to draw: the ends of turn once the document is complete or where no token goes on; otherwise exactly the others that go on |
| Drawing.ClosesIff | crates/vapi-engine/src/structured.rs:1164-1181 | a token closes something if and only if it is allowed and leaves the document complete or fewer containers open |
| Drawing.FinishingDrawnIff | crates/vapi-engine/src/structured.rs:1190-1210 | near the end of the budget exactly the closing tokens are left, and what the mask leaves if there is none or the document is complete |
| CacheWrites.FindRuns | crates/vapi-backend-candle/src/cache.rs:243-253 | the runs cover the tokens without gap or overlap, each consecutive and as long as possible, as many as there are tokens that do not follow the one before |
| CacheWrites.WriteRows | crates/vapi-backend-candle/src/cache.rs:217-272 | distinct slots, or few runs, are left as one-by-one writing leaves them; any other mapping leaves one of the rows sent to it in each slot named, and nothing else changed; errors exactly on a length mismatch or a slot outside, and then nothing is written |
| CacheWrites.ReadsBackWhatItWrote | crates/vapi-backend-candle/src/cache.rs:280-290 | through its block table a sequence reads exactly the rows it wrote, its other rows as before |
| CacheWrites.OthersReadAsBefore | crates/vapi-backend-candle/src/cache.rs:280-290 | a sequence owning none of the slots reads what it read before |
| CacheWrites.WriteSlotFlat | crates/vapi-backend-candle/src/cache.rs:113-117 | the flat and the blocked view of a cache agree after a write |
| CacheWrites.ForwardIsWriteRows | crates/vapi-backend-candle/src/cache.rs:136-148 | a forward pass of a valid batch leaves the cache as writing its rows one by one leaves it, each the row its own token computes over what the tokens before it left |
| CacheWrites.GatherIsFlat | crates/vapi-backend-candle/src/cache.rs:280-290 | gathering from the flat cache reads what the model reads through the block table |
| Sampling.ApplyPenalties | crates/vapi-engine/src/sampler.rs:269-283 | exactly the observed tokens are penalised, whatever the order |
| Sampling.OccurrenceCosts | crates/vapi-engine/src/sampler.rs:255-267 | one more occurrence costs a token exactly the frequency penalty, the first one the presence penalty too, and no other token moves |
| Sampling.OccurrencesCost | crates/vapi-engine/src/sampler.rs:255-267 | in all, `n` occurrences cost `n` times the frequency penalty and once the presence penalty |
| Sampling.RepetitionScales | crates/vapi-engine/src/sampler.rs:255-267 | the repetition penalty divides a positive logit of an observed token and multiplies any other, and keeps its sign |
| Sampling.NeutralKeeps | crates/vapi-engine/src/sampler.rs:269-275 | neutral penalties change nothing |
| Sampling.NeededIff | crates/vapi-engine/src/sampler.rs:72-111 | the whole row is asked for exactly when a penalty could raise a logit or nothing bounds the tokens kept; otherwise one candidate per token kept and one per token observed |
| Sampling.TopComesFromRawTop | crates/vapi-engine/src/sampler.rs:65-71 | after lowering penalties the top `k` lies inside the raw top `k` plus the number of observed tokens |
| Sampling.CandidatesSuffice | crates/vapi-engine/src/sampler.rs:72-111 | candidates holding what `need` asks for have the same post-penalty top as the whole row |
| Sampling.TruncatedListAgrees | crates/vapi-engine/src/sampler.rs:242-260 | the sorted, truncated list over the device's candidates, in any order, is the list over the whole row |
| Sampling.Argmax | crates/vapi-engine/src/sampler.rs:285-295 | the first index of the largest logit |
| Sampling.GreedyOf | crates/vapi-engine/src/sampler.rs:216-226 | the greedy choice over candidates in any order: largest logit, smallest id |
| Sampling.GreedyFromCandidates | crates/vapi-engine/src/sampler.rs:182-226 | greedy over the candidates is greedy over the row |
| Sampling.TopIds | crates/vapi-engine/src/sampler.rs:127-148 | the insertion pass keeps the `k` largest in order |
| Sampling.TopIdsAreTop | crates/vapi-engine/src/sampler.rs:114-121 | what it keeps is the top `k`, no more and no less |
| SpillStores.SpillStore.constructor | crates/vapi-cache/src/spill.rs:61-95 | opened over distinct files the store holds at most them, within both caps |
| SpillStores.SpillStore.Put | crates/vapi-cache/src/spill.rs:113-127 | at most this block is added, under its own bytes; it stays in host memory if that can hold it at all, otherwise on disk if that can and the write succeeds; tiers disjoint, listed, counted and within their caps |
| SpillStores.SpillStore.Get | crates/vapi-cache/src/spill.rs:131-153 | the bytes held, or nothing; a hit goes to the end of its tier's list, an unreadable file is forgotten, and nothing else changes |
| SpillStores.SpillStore.EvictRam | crates/vapi-cache/src/spill.rs:163-184 | the oldest leave until the cap holds, no more than needed; one that leaves last is on disk if it fits and can be written |
| SpillStores.SpillStore.EvictDisk | crates/vapi-cache/src/spill.rs:186-194 | the oldest files leave until the cap holds, no more than needed |
| Detokenizing.IncrementalDetokenizer.Push | crates/vapi-engine/src/detokenize.rs:56-76 | emitted text is never retracted, is a prefix of the full decoding, and is all of it unless the tokens end inside a character |
| Detokenizing.CleanConcat | crates/vapi-tokenize/src/bytes.rs:36-42 | lossy decoding splits at a character boundary |
| Detokenizing.EncodedTextDecodes | crates/vapi-tokenize/src/bytes.rs:32-42 | encoded text decodes to itself |

## Left out

- Hashing: blake3 is a free term over its input, since no function into 32 bytes is injective; "collision-free" is that reading.
- Integers are unbounded; token ids and byte values keep their ranges, and pools have at most 2^32 - 1 blocks. Wrap-around of counters, reference counts and sequence ids is not modelled.
- Sequences are values owned by the scheduler's map, as in the source; their methods are functions from old to new value (`Sequences`).
- The forward pass is one step with the schedule that planned it: nothing can fall between the two, as in the worker's loop. What a model computes from a row's context is not modelled beyond being a function of it.
- Outputs: the first token of a choice is arbitrary, because choices drawn from one row differ by design.
- Runs: forks are of live leaders that have just prefilled, with the blocks they need; what the others do is in `Shortfalls`, and no run goes on after one.
- Endings.EveryRunEnds: counts the steps completed from a moment when none is in flight; arrivals are excluded, since an idle engine can wait for one as long as it likes.
- Statistics, metrics, log lines, `max_seqlen_q` and `max_seqlen_k`, the memo table of tenant namespaces and `admission_headroom` are not modelled.
- Promoting spilled blocks back into the pool (crates/vapi-worker/src/engine.rs:400-455) is not modelled; the store behind it is.
- Closing.ViabilityIsExact: needs property names free of quotes, backslashes and control characters, each once per object; the schema must contain an `Any` node, as `with_any_node` ensures.
- Grammar: a number is one or more digits with optional fraction and exponent, so leading zeros are accepted as the source accepts them, and names are compared by raw spelling.
- Schemas: the JSON writer that spells out `const` and `enum` values is a parameter; of its texts `SchemaTexts` and `Languages` take only that they are not empty and begin neither with whitespace nor with a closing bracket. Error messages are error kinds. Where a document repeats a name the first member counts; the source's maps hold each name once.
- Trimming.AcceptedIff: no enumerated value may begin with a closing bracket, which no JSON text does.
- Sampling: logits are reals. Softmax, the cutoff of `candidates`, `top_p`, `min_p` and the random draw are not modelled.
- CacheWrites: element types and row shapes are not modelled.
- SpillStores: file operations succeed or fail arbitrarily, a failed write leaving any file behind; what `open` finds of a write cut short by a crash is not modelled.
- Detokenizing: the decoder concatenates token bytes; tokenizers whose text for a token depends on its neighbours are not modelled.
- Schedulers.Scheduler: the guards that skip unknown or finished ids in the queues are in the functions but not in the class, because the queues never hold such ids.
- Transport, gateway, HTTP, configuration, audio, decision calibration, tensor kernels and model loading are not part of this model.
