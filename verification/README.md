# Split, tiled and packed forms that mean the plain form

The system serves one very large model over four pipeline ranks, with experts on the CPU, expert weights in packed
formats and embedding rows on disk. Most of its own logic exists to make a split, tiled or packed form behave like the
plain form. This project models that logic in Dafny and proves, for all inputs and all runs, that it does; where it
does not, the exact condition is proved together with a concrete input.

| file | component |
|---|---|
| `Common.dfy` | what several components share |
| `ShadowPlan.dfy`, `ShadowBuild.dfy`, `ShadowRun.dfy`, `ShadowReads.dfy` | pipeline cuts inside kv-sharing groups, with shadow sources |
| `SpecTokens.dfy`, `Spread.dfy` | token bookkeeping between scheduler and workers under speculative decoding; spreading decodes over stages |
| `Softmax.dfy` | online softmax, split-K partial and reduce kernels, attention sink |
| `KCache.dfy` | tiled indexer K cache |
| `Mxfp4.dfy`, `Grouping.dfy`, `CpuMoe.dfy` | CPU mixture-of-experts kernel |
| `Exl3.dfy` | EXL3 expert dispatch: sort, tiers, row tiles |
| `Pool.dfy`, `RowStore.dfy` | thread pool and row retrieval |
| `Fp8.dfy` | software FP8 encoder and decoder |
| `GraphKeys.dfy` | CUDA-graph dispatch keys |
| `Chat.dfy` | chat message preprocessing |

Main results: `ShadowRun.CutEqualsUncut` with `ShadowBuild.BuildsExactly` and `ShadowReads.CutReads`,
`SpecTokens.TokensNeverLost`, `SpecTokens.OutputsAccepted` and `SpecTokens.DraftsAreGiven`,
`Softmax.RaggedKernel` against `Softmax.SplitKernel`, `CpuMoe.LayerState.Forward`, `Exl3.FusedMoe` with
`Exl3.ReferenceIs`, `Pool.ExactlyOnce` with `Pool.RunFinishes` and `RowStore.LookupThroughPool`,
`Fp8.EncodeIsNearest`, `KCache.Cache.StoreTokens` with `KCache.Cache.GatherToken`, `GraphKeys.DispatchExact`,
`Chat.EncodeMessages`.

What both sides of such an equality share is pinned on its own: what a layer reads (`ShadowReads.UncutReads`), which
drafts a step takes (`SpecTokens.DraftsAreGiven`), what the attention value is (`Softmax.ClosedFormIsSoftmax`), what an
expert computes from its matrices (`CpuMoe.ExpertIsDense`), which assignments count (`Exl3.ReferenceIs`), where a row
lies in its file (`RowStore.RowsAreTables`).

Properties that fail on some inputs, each with its exact condition:

- A uniform step can be dispatched to another query length's graph when the request cap bites
  (`GraphKeys.CapPicksAnotherFamily`); `GraphKeys.DispatchExact` says when it is not.
- The small-batch EXL3 launch loses terms when an expert has more rows than the kernel's temporaries
  (`Exl3.RepeatedExpertIsLost`, `Exl3.SingleLaunchExact`); distinct experts per token rule that out.
- The EXL3 tiers add an expert twice when its count lies above the capacity and is at most 32 (`Exl3.TiersDouble`,
  `Exl3.TiersExact`).
- The CPU kernel writes past a thread's scratch of 2 * H floats when I > 2 * H and two slots name one expert
  (`CpuMoe.OverrunExists`); `CpuMoe.LayerState.Forward` says exactly when.
- The half scale of `e8m0_half` is zero for scale bytes 0 and 1, where half of the E8M0 value is not
  (`Mxfp4.HalfScaleExact`).
- The SHUFFLE layout leaves the block when the block tile does not divide the block (`KCache.TilesExact`,
  `KCache.PartialTileCollides`).
- A cut inside a kv-sharing group can be refused at construction although the uncut model builds, when some kv source
  is not an index source (`ShadowBuild.CutRefused`). `ShadowBuild.BuildsExactly` says when a cut builds, and
  `ShadowPlan.KCacheAtHand` gives the condition on the configuration.
- A rank that owns the candidate source and is neither first nor last declares candidate blocks that it is not sent
  (`ShadowPlan.DeclaredNotSent`, `ShadowPlan.DeclaredMatchesSent`).
- The chat encoder's drop pass keeps `direct_search_results` messages, which rendering refuses
  (`Chat.SearchResultsRefuse`); `Chat.EncodeMessages` says exactly when a conversation is refused.

Where code and comments disagree the code is followed: the header of `overlay/hybrid/pp_shadow.py` asks for cuts on
index-source boundaries, but the code replays the top-k on the receiving rank, and the theorem does not need that.

Assumptions on configuration, all of them preconditions of the members concerned: rank ranges are contiguous and not
empty; every layer with a positive ratio has a kv source and an index source at or below it; index sources are
compressed layers and the candidate source is an index source; attention scores and sinks are at least the sentinel;
scale bytes lie in 2..254; capture sizes are ascending and end at the largest size. That every kv source is an index
source is needed by no main theorem; it makes every cut of a model that builds build too
(`ShadowBuild.KvAreIndexBuilds`).

## Model

| member | source | states |
|---|---|---|
| `ShadowPlan.ShadowedIff` | overlay/hybrid/pp_shadow.py:46-54 | the collected sources are exactly those that live before the rank and are the last at or below one of its compressed layers |
| `ShadowPlan.ShadowNeedsFor` | overlay/hybrid/pp_shadow.py:38-55 | the dictionary filled layer by layer maps exactly the kv and index sources read across the cut, with top-k needed exactly for the index sources |
| `ShadowPlan.AscendingSorted` | overlay/hybrid/pp_shadow.py:58-59 | the listed ids are strictly ascending, so each shadow runs once and in layer order |
| `ShadowPlan.LaterNeedsFor` | overlay/hybrid/pp_shadow.py:82-84 | the union of what all later ranks shadow |
| `ShadowPlan.MakePlan` | overlay/hybrid/pp_shadow.py:74-97 | the plan's lists are the ascending forms of the sets the later theorems speak of, and its flags those of the candidate blocks |
| `ShadowPlan.RecvMatchesShip` | overlay/hybrid/pp_shadow.py:79-97 | for every rank after the first, what it expects equals what its predecessor ships, ids and candidates, and every id it ships it owns or was sent |
| `ShadowPlan.ShipIff` | overlay/hybrid/pp_shadow.py:81-86 | a rank ships exactly the sources up to its end that a compressed layer of some later rank reads across that rank's cut |
| `ShadowPlan.CandTravels` | overlay/hybrid/pp_shadow.py:90-97 | candidates travel from the rank of their source on, over every cut behind it and no other |
| `ShadowPlan.NeedsAreEarlier` | overlay/hybrid/pp_shadow.py:50-54 | what a rank shadows lives on an earlier rank |
| `ShadowPlan.FirstRankReceivesNothing` | overlay/hybrid/pp_shadow.py:79-97 | the first rank expects no tensors |
| `ShadowPlan.TopkShadowIsLast` | overlay/hybrid/pp_shadow.py:58-59 | when every kv source is an index source, the shadow that replays the top-k is the highest and the writer of its K cache is shadowed too, so ascending order runs the writer first |
| `ShadowPlan.KCacheAtHand` | overlay/hybrid/pp_shadow.py:46-55 | the K cache a replay reads is shadowed on the rank if and only if the shadowed index source is itself a kv source or no kv source sits after it up to the rank's first compressed layer |
| `ShadowPlan.KCacheMissing` | overlay/hybrid/pp_shadow.py:46-55 | a four-layer configuration whose last rank plans to shadow index source 1 but not writer 0 of its K cache |
| `ShadowPlan.KvAreIndexCutOk` | overlay/hybrid/pp_shadow.py:46-59 | with kv sources among the index sources every rank of every cut plans to hold the K caches it replays from |
| `ShadowPlan.OneTopkShadow` | overlay/hybrid/pp_shadow.py:46-55 | a rank replays the top-k of at most one earlier index source, and no index source lies between it and the rank |
| `ShadowPlan.DeclaredMatchesSent` | overlay/patch_pp_shadow.py:106-116 | declared candidate blocks are what the previous rank sends if and only if the rank does not own their source or is the last; what is sent is always declared |
| `ShadowPlan.DeclaredNotSent` | overlay/patch_pp_shadow.py:106-116 | three one-layer ranks with candidates from layer 1: its rank declares candidates that rank 0 does not send |
| `ShadowBuild.BuildList` | overlay/vllm/models/deepseek_v4_1/attention.py:355-491 | modules built in ascending order all find what they look up if and only if each one's source is anywhere among them, and then exactly they and the key-owning indexers' K caches are registered |
| `ShadowBuild.BuildRank` | overlay/patch_pp_shadow.py:48-64 | shadows in ascending order, then the rank's own layers: construction succeeds exactly when every module's kv source, and for an index source its K cache, is on the rank |
| `ShadowBuild.UncutBuilds` | overlay/vllm/models/deepseek_v4_1/attention.py:252-397 | the uncut model builds if and only if every layer has a ratio of at most 2, sources to read from, and, as an index source without keys of its own, a latest kv source with an indexer |
| `ShadowBuild.BuildsExactly` | overlay/vllm/models/deepseek_v4_1/attention.py:370-397 | a cut builds on all ranks if and only if the uncut model builds and every rank holds the K caches it replays from |
| `ShadowBuild.KvAreIndexBuilds` | overlay/vllm/models/deepseek_v4_1/attention.py:370-491 | with kv sources among the index sources a model that builds uncut builds under every cut |
| `ShadowBuild.CutRefused` | overlay/vllm/models/deepseek_v4_1/attention.py:386-397 | four layers that build uncut and whose last rank is refused |
| `ShadowRun.LayerStep` | overlay/patch_pp_shadow.py:29-34 | a layer run in step with the uncut model reads the same source cache, top-k rows and candidate rows and stays in step |
| `ShadowRun.ShadowsSim` | overlay/hybrid/pp_shadow.py:140-155 | running the shadows brings every shadow cache to its owner's value of this step |
| `ShadowRun.StartSim` | overlay/patch_pp_shadow.py:125-141 | after receiving and running shadows a rank stands where the uncut model stands before the rank's first layer |
| `ShadowRun.ShippedInput` | overlay/patch_pp_shadow.py:149-159 | what is shipped for a source is the owner's attention input of this step, captured here or forwarded |
| `ShadowRun.ShipOk` | overlay/patch_pp_shadow.py:149-163 | the whole message of a rank carries the uncut model's values |
| `ShadowRun.PipeSim` | overlay/patch_pp_shadow.py:125-163 | one step through any number of ranks gives the uncut model's hidden state and reads |
| `ShadowRun.CutEqualsUncut` | overlay/patch_pp_shadow.py:125-163 | for every partition that builds and every sequence of steps, all outputs and all reads equal the unpartitioned run's, and every owned and shadowed cache equals its owner's after the run |
| `ShadowRun.ModelRank.constructor` | overlay/patch_pp_shadow.py:40-64 | the object of a rank that builds starts with its plan and buffers |
| `ShadowRun.BuildModel` | overlay/vllm/models/deepseek_v4_1/nvidia/model.py:638-675 | a rank's model is constructed exactly when the rank builds; otherwise construction raises |
| `ShadowRun.ModelRank.RunShadowSources` | overlay/patch_pp_shadow.py:136-141 | the loop over shadow ids computes the shadow pass of the simulation |
| `ShadowRun.ModelRank.LocalLayers` | overlay/patch_pp_shadow.py:29-34 | the rank's layers, capturing the attention inputs a later rank needs |
| `ShadowRun.ModelRank.Ship` | overlay/patch_pp_shadow.py:149-163 | the dictionary filled key by key holds captured inputs for owned ids and received ones for the others |
| `ShadowRun.ModelRank.Forward` | overlay/patch_pp_shadow.py:125-163 | the in-place forward of a rank computes exactly the rank step and message that the theorem is about |
| `ShadowReads.UncutReads` | overlay/vllm/models/deepseek_v4_1/attention.py:370-491 | in every step each compressed layer reads the cache that the latest kv source at or below it wrote in this very step, the top-k rows that the latest index source published in this step from its own source's updated K cache, and, exactly as an index source after the candidate source, that source's rows |
| `ShadowReads.StreamAt` | overlay/patch_pp_shadow.py:29-34 | each layer attends with its own window cache of this step and exactly what it read |
| `ShadowReads.StoresAfter` | overlay/vllm/models/deepseek_v4_1/attention.py:1162-1196 | a step leaves every kv source's and every layer's own cache updated once from what it held, and every other entry as it was |
| `ShadowReads.CutReads` | overlay/patch_pp_shadow.py:125-163 | on every cut that builds, in every run, every step and every layer reads what its sources published in that step |
| `SpecTokens.Step` | overlay/patch_pp_spec_tokens.py:23-136 | admission, scheduling, delivery, output, draft, preemption, resumption beside dropped stale output, and unbatching events all keep the protocol invariants |
| `SpecTokens.RunInv` | overlay/patch_pp_spec_tokens.py:23-136 | every reachable state satisfies them |
| `SpecTokens.TokensNeverLost` | overlay/patch_pp_spec_tokens.py:23-32 | in every run the worker's tokens followed by the payloads in flight are the true tokens up to the watermark, and the CPU row starts with the worker's tokens |
| `SpecTokens.InputsAreRight` | overlay/patch_pp_spec_tokens.py:94-136 | in every run a delivered step finds at its row positions the true tokens followed by its drafts; nothing is dropped and the row index advances by the payload |
| `SpecTokens.OutputsAccepted` | overlay/vllm/v1/core/sched/scheduler.py:1905-1997 | in every run the request's tokens are its prompt and exactly the outputs that no preemption dropped, told from the events alone |
| `SpecTokens.GivenInRun` | overlay/vllm/v1/core/sched/scheduler.py:2361-2381 | in every run the drafts a request holds are the last ones given to it outside a prefill, unless a schedule used them or a preemption forgot them |
| `SpecTokens.DraftsAreGiven` | overlay/vllm/v1/core/sched/scheduler.py:767-784 | in every run a delivered step was made by an earlier event, holds the first of the drafts then given, as many as positions past the real tokens, and finds them behind the true tokens in its row |
| `SpecTokens.OneSamplingStep` | overlay/patch_pp_spec_tokens.py:57-67 | in every run, of the batches in flight whose output counts only the newest may sample, each holds a real token, and the guard blocks the request while one samples |
| `SpecTokens.OneUncomputedToken` | overlay/patch_pp_spec_tokens.py:57-67 | after a sampling step's output, whatever was rejected, nothing is in flight and exactly one token is uncomputed |
| `SpecTokens.GuardIsExact` | overlay/patch_pp_spec_tokens.py:60-67 | the guard passes if and only if the scheduled positions include a real token |
| `SpecTokens.Redelivery` | overlay/patch_pp_spec_tokens.py:98-108 | any slice given to a longer prefix leaves the longer of the two, and giving it again adds nothing |
| `SpecTokens.NothingDropped` | overlay/patch_pp_spec_tokens.py:101-108 | a payload that starts where the worker ends is appended whole |
| `SpecTokens.Sender.SendOne` | overlay/patch_pp_spec_tokens.py:28-32 | one request's payload and advanced watermark, as the protocol asks |
| `SpecTokens.Sender.NewTokenIds` | overlay/patch_pp_spec_tokens.py:23-32 | a pass sends every request its own missing tokens and moves no other watermark |
| `SpecTokens.Sender.Free` | overlay/patch_pp_spec_tokens.py:44-47 | a later request under the freed id is sent everything from its prompt on, and no other request's payloads change |
| `SpecTokens.RowState.Assign` | overlay/patch_pp_spec_tokens.py:134-136 | the slice assignment changes exactly the addressed cells |
| `SpecTokens.RowState.WriteRow` | overlay/patch_pp_spec_tokens.py:122-136 | new tokens go behind the old ones and drafts behind both |
| `SpecTokens.RowState.ReceiveBatch` | overlay/patch_pp_spec_tokens.py:94-136 | the in-place update is the worker step of the protocol |
| `Spread.SchedulePass` | overlay/patch_pp_spread.py:16-29 | the loop takes exactly the ready prefill chunks and the first cap ready decodes, in order, never more than cap decodes; a zero cap takes every ready request |
| `Spread.CapIsLeast` | overlay/patch_pp_spread.py:38-46 | the cap is the least from 1 on with which p passes can take n decodes |
| `Spread.SpreadCovers` | overlay/patch_pp_spread.py:38-46 | with no output returned, p consecutive passes take every ready decode exactly once, in the pass given by its rank, and no other decode |
| `Softmax.TileStep` | overlay/sm80-src/rocm_aiter_mla_sparse.py:1338-1352 | one tile of the running max and sum keeps the state standing for the exact sums seen so far |
| `Softmax.Scan` | overlay/sm80-src/rocm_aiter_mla_sparse.py:1300-1352 | the tile loop over any slot range, for any tile size, adds exactly that range's valid slots |
| `Softmax.Normalise` | overlay/sm80-src/rocm_aiter_mla_sparse.py:1422-1443 | the epilogue yields the closed form with or without sink |
| `Softmax.RaggedKernel` | overlay/sm80-src/rocm_aiter_mla_sparse.py:1286-1443 | the single pass over main and extra segments equals the softmax-weighted sum with sink over the keys whose index lies in the cache; without extra segment it is the prefill kernel |
| `Softmax.ClosedFormIsSoftmax` | overlay/sm80-src/rocm_aiter_mla_sparse.py:1304-1443 | the closed form is the plain softmax, sink in the denominator, over the list of keys that the indices of both segments name |
| `Softmax.OneSlot` | overlay/sm80-src/rocm_aiter_mla_sparse.py:1304-1443 | one slot gives its own value, or with a sink s the value times e(score) / (e(score) + e(s)) |
| `Softmax.MaskedSlot` | overlay/sm80-src/rocm_aiter_mla_sparse.py:1304-1308 | a slot with an index below 0 or past the cache changes nothing, wherever it stands |
| `Softmax.NormalForm` | overlay/sm80-src/rocm_aiter_mla_sparse.py:1429-1443 | the 1e-30 clamp never changes a result |
| `Softmax.AllMasked` | overlay/sm80-src/rocm_aiter_mla_sparse.py:1430-1443 | with every index outside its cache the result is zero |
| `Softmax.SplitsCover` | overlay/sm80-src/rocm_aiter_mla_sparse.py:1541-1543 | the splits' slices cover every slot exactly once, for every split count |
| `Softmax.PartialKernel` | overlay/sm80-src/rocm_aiter_mla_sparse.py:1535-1690 | a split's raw state stands for its slices of both segments |
| `Softmax.Combine` | overlay/sm80-src/rocm_aiter_mla_sparse.py:1758-1788 | both weighted sums over the splits, at the common maximum |
| `Softmax.ReduceKernel` | overlay/sm80-src/rocm_aiter_mla_sparse.py:1728-1790 | the reduction of any partial states yields the closed form of their totals |
| `Softmax.SplitKernel` | overlay/sm80-src/rocm_aiter_mla_sparse.py:1535-1790 | partial kernels followed by the reduction equal the same softmax as the single pass, for every split count and tile size |
| `KCache.AddressInBounds` | overlay/sm80-src/rocm_aiter_mla_sparse.py:65-95 | every cell of every slot, codes and scale bytes, lies inside the cache |
| `KCache.AddressInjective` | overlay/sm80-src/rocm_aiter_mla_sparse.py:52-95 | no byte belongs to two cells, of one slot or of two |
| `KCache.NormalSteps` | overlay/sm80-src/rocm_aiter_mla_sparse.py:65-95 | untiled, blocks lie a stride apart, slots follow each other and a slot's codes are consecutive |
| `KCache.TiledSteps` | overlay/sm80-src/rocm_aiter_mla_sparse.py:52-89 | tiled, a block is a row of tiles of blockTile slots by headTile codes, inside a tile slot by slot |
| `KCache.ScaleSteps` | overlay/sm80-src/rocm_aiter_mla_sparse.py:91-120 | four scale bytes per slot follow all codes of the block |
| `KCache.TilesExact` | overlay/sm80-src/rocm_aiter_mla_sparse.py:52-89 | with several head tiles, the value part of a block holds every code if and only if the block tile divides the block |
| `KCache.PartialTileCollides` | overlay/sm80-src/rocm_aiter_mla_sparse.py:52-89 | a block of 8 rows in tiles of 16: two slots share a byte |
| `KCache.SourceIsCells` | overlay/sm80-src/rocm_aiter_mla_sparse.py:191-216 | the gather kernel's own address arithmetic reads where the store kernel wrote |
| `KCache.Cache.constructor` | overlay/sm80-src/rocm_aiter_mla_sparse.py:98-120 | memory in any state models no slot |
| `KCache.Cache.StoreToken` | overlay/sm80-src/rocm_aiter_mla_sparse.py:59-95 | one store updates its own slot in the slot map and no other; a negative slot is skipped |
| `KCache.Cache.StoreTokens` | overlay/sm80-src/rocm_aiter_mla_sparse.py:59-95 | after any sequence of stores the cache agrees with the map from slot to last written vector |
| `KCache.StoredIs` | overlay/sm80-src/rocm_aiter_mla_sparse.py:59-95 | in that map a slot holds what the last store to it brought, or what it held |
| `KCache.Cache.GatherToken` | overlay/sm80-src/rocm_aiter_mla_sparse.py:161-218 | gather writes nothing exactly for foreign tokens, a zero scale for unmapped pages, and otherwise the contents last stored in the token's slot |
| `Mxfp4.LutIsTwiceE2M1` | overlay/hybrid/cpu_moe.cpp:79-80 | the byte table holds twice the E2M1 values |
| `Mxfp4.HalfScaleExact` | overlay/hybrid/cpu_moe.cpp:57-62 | the half scale is half the E8M0 value if and only if the scale byte is at least 2 |
| `Mxfp4.ScaleByte` | overlay/hybrid/cpu_moe.cpp:57-62 | scale byte 127 is 1 and each next byte doubles |
| `Mxfp4.PermuteRow` | overlay/hybrid/cpu_moe.cpp:64-70 | every element lands at its permuted place |
| `Mxfp4.SumPermuted` | overlay/hybrid/cpu_moe.cpp:65-70 | the permutation leaves every sum of 32 alone |
| `Mxfp4.UnpackPermutes` | overlay/hybrid/cpu_moe.cpp:82-96 | nibble unpacking delivers the table values in the permuted order of the activations |
| `Mxfp4.BytesHoldPairs` | overlay/hybrid/cpu_moe.cpp:82-96 | a byte holds an even element in its low half and the next one in its high half |
| `Mxfp4.DotRow` | overlay/hybrid/cpu_moe.cpp:98-116 | the packed, permuted dot product equals the plain one of the dequantised row with the unpermuted vector |
| `Mxfp4.DotIsPlain` | overlay/hybrid/cpu_moe.cpp:98-116 | the dot product by groups is the plain sum over all elements of the flat row and vector |
| `Mxfp4.DequantRow` | overlay/hybrid/cpu_moe.cpp:118-131 | the scaled lanes of every group land in the buffer and nothing else changes; the row stays inside exactly when it fits |
| `Mxfp4.DotF32` | overlay/hybrid/cpu_moe.cpp:133-140 | on a dequantised row it is the same plain dot product |
| `Grouping.GroupByExpert` | overlay/hybrid/cpu_moe.cpp:285-292 | count, prefix sum and fill place each expert's slots, in order, in the expert's own range and skip invalid ids |
| `Grouping.RangeHoldsExpert` | overlay/hybrid/cpu_moe.cpp:285-292 | each range holds only its own expert's slots |
| `Grouping.ActiveExperts` | overlay/hybrid/cpu_moe.cpp:293 | exactly the experts with slots |
| `CpuMoe.GateClamps` | overlay/hybrid/cpu_moe.cpp:185-186 | with a limit the gate enters as its nearest value up to it and the up part as its nearest value within it on both sides; without one both enter unchanged |
| `CpuMoe.ConstantGate` | overlay/hybrid/cpu_moe.cpp:183-186 | an unlimited gate that is always c leaves c times the w3 product, whatever w1 is |
| `CpuMoe.UnitUp` | overlay/hybrid/cpu_moe.cpp:183-186 | a w3 product of 1 leaves silu of the w1 product, cut off at the limit |
| `CpuMoe.LinearExpert` | overlay/hybrid/cpu_moe.cpp:183-222 | with such a constant gate an expert's output is c times the product of its down and up matrices |
| `CpuMoe.ExpertIsDense` | overlay/hybrid/cpu_moe.cpp:177-222 | an expert's blocked output is the dense one: w2 times clamped silu(w1 x) * (w3 x), element by element on flat rows |
| `CpuMoe.GateUpTask` | overlay/hybrid/cpu_moe.cpp:169-198 | a task writes its block of gated activations for exactly its expert's slots, at the permuted places, packed and dequantised path alike |
| `CpuMoe.DownTask` | overlay/hybrid/cpu_moe.cpp:200-222 | a task stays inside the scratch exactly when its expert has one slot or I <= 2 * H, and then writes its block of expert outputs for exactly its expert's slots |
| `CpuMoe.RowsDone` | overlay/hybrid/cpu_moe.cpp:177-195 | the 32 rows of a task fill distinct places of one block and touch no other |
| `CpuMoe.ReadyIsPermuted` | overlay/hybrid/cpu_moe.cpp:180-195 | completed gate/up rows are the activations exactly where permute_row would put them |
| `CpuMoe.WorkCovers` | overlay/hybrid/cpu_moe.cpp:293-296 | task numbers cover every block of every active expert |
| `CpuMoe.GateUpTasks` | overlay/hybrid/cpu_moe.cpp:317-323 | whichever pending task is next, all live slots end up with their permuted activations |
| `CpuMoe.DownTasks` | overlay/hybrid/cpu_moe.cpp:329-333 | whichever pending task is next, the scratch is left exactly when the call does not fit it, and otherwise all live slots end up with their expert outputs |
| `CpuMoe.CombineToken` | overlay/hybrid/cpu_moe.cpp:339-349 | the weighted sum over a token's valid slots |
| `CpuMoe.RowIsDense` | overlay/hybrid/cpu_moe.cpp:338-350 | a right output row is, element by element, the rounded dense sum over the token's own slots |
| `CpuMoe.LayerState.constructor` | overlay/hybrid/cpu_moe.cpp:227-239 | a new layer has empty scratch |
| `CpuMoe.LayerState.Grow` | overlay/hybrid/cpu_moe.cpp:282-285 | scratch grows to the slots and keeps what it held |
| `CpuMoe.LayerState.Forward` | overlay/hybrid/cpu_moe.cpp:276-352 | no write leaves the scratch if and only if I <= 2 * H, H is zero, or no two slots name one expert; then every output element is the rounded weighted sum of dense clamped-SwiGLU expert outputs over its token's own valid slots, whatever the scratch held, whatever the order of tasks, and whatever the other rows and the number of slots per expert |
| `CpuMoe.OverrunExists` | overlay/hybrid/cpu_moe.cpp:205-215 | H = 32, I = 96 and one token naming an expert twice leave the scratch |
| `Exl3.ExpertCounts` | overlay/exl3/dsv41_exl3.py:530-531 | the scatter-add counts each expert's assignments |
| `Exl3.ReferenceIs` | overlay/exl3/dsv41_exl3.py:440-457 | the reference adds w times expert e's output for token t once for each of the token's slots that names e with weight w, and nothing for invalid ids |
| `Exl3.RowsOfIs` | overlay/exl3/dsv41_exl3.py:520-531 | an expert's count is the number of slots that name it |
| `Exl3.ExpertRange` | overlay/exl3/dsv41_exl3.py:522-531 | in any expert-sorted buffer the counts mark out exactly each expert's terms |
| `Exl3.SingleLaunchExact` | overlay/exl3/dsv41_exl3.py:535-551 | one launch adds the reference terms if and only if no count exceeds the kernel's temporary rows |
| `Exl3.CountsWithinTokens` | overlay/exl3/dsv41_exl3.py:535-543 | with distinct experts per token no count exceeds the token count |
| `Exl3.RepeatedExpertIsLost` | overlay/exl3/dsv41_exl3.py:535-543 | one token naming an expert twice, with one temporary row, loses its terms |
| `Exl3.PythonLoop` | overlay/exl3/dsv41_exl3.py:440-457 | the per-expert loop adds each term of the chosen experts once |
| `Exl3.Tiered` | overlay/exl3/dsv41_exl3.py:560-576 | tiers and fat experts add every term once, and twice exactly for counts above the capacity and at most 32 |
| `Exl3.TiersExact` | overlay/exl3/dsv41_exl3.py:566-576 | the tiers add the reference terms if and only if no count lies above the capacity and at most 32 |
| `Exl3.TiersDouble` | overlay/exl3/dsv41_exl3.py:566-576 | two tokens on one expert with one temporary row: each term is added twice |
| `Exl3.DistinctIsRight` | overlay/exl3/dsv41_exl3.py:535-554 | distinct experts per token and, for tiers, 32 temporary rows make every branch right |
| `Exl3.OneTile` | overlay/exl3/dsv41_exl3.py:423-425 | every row of an expert lies in exactly one tile |
| `Exl3.SearchRight` | overlay/exl3/dsv41_exl3.py:429-431 | searchsorted on the running sums finds the expert that owns a buffer position |
| `Exl3.GatherTile` | overlay/exl3/dsv41_exl3.py:423-437 | each position of a tile's buffer comes from its owner's rows of the sorted buffer |
| `Exl3.TileLaunch` | overlay/exl3/dsv41_exl3.py:424-437 | a tile's launch carries every expert on by its next rows, at most tile of them |
| `Exl3.RowTiles` | overlay/exl3/dsv41_exl3.py:414-437 | all tiles together launch every row of every expert exactly once, under its own expert |
| `Exl3.FusedMoe` | overlay/exl3/dsv41_exl3.py:516-554 | the terms of the per-expert loop are added if and only if the branch taken is right: the single launch when no count exceeds the capacity, the tiers when no count lies above it and at most 32, the row tiles always |
| `Pool.StepInv` | overlay/engram_ssd/row_store.cpp:45-69 | every critical section, row step and wake-up keeps the pool's invariant |
| `Pool.ExactlyOnce` | overlay/engram_ssd/row_store.cpp:45-69 | in every interleaving, whenever the caller is outside run, each row step of each index of each run was made exactly once with its own run's function, and nothing else was |
| `Pool.NothingLive` | overlay/engram_ssd/row_store.cpp:61-69 | no job of an earlier run is live when the next run starts |
| `Pool.NoDeadlock` | overlay/engram_ssd/row_store.cpp:45-69 | during a run some thread can move without a spurious wake-up |
| `Pool.MeasureStep` | overlay/engram_ssd/row_store.cpp:45-69 | every asked-for event lowers the measure, a spurious wake-up raises it by at most one |
| `Pool.RunFinishes` | overlay/engram_ssd/row_store.cpp:61-69 | an explicit bound on the events of a run, and where only spurious wake-ups are left the caller has returned |
| `Pool.SharedPool.constructor` | overlay/engram_ssd/row_store.cpp:30-39 | a new pool is idle |
| `Pool.SharedPool.Publish` | overlay/engram_ssd/row_store.cpp:61-65 | the publishing section on the shared fields is the Start event |
| `Pool.SharedPool.AllFinished` | overlay/engram_ssd/row_store.cpp:67-68 | the caller's wait condition is the Test event, true exactly when it returns |
| `Pool.SharedPool.Claim` | overlay/engram_ssd/row_store.cpp:48-54 | a worker claims a fresh index of its own or sleeps |
| `Pool.SharedPool.End` | overlay/engram_ssd/row_store.cpp:56-59 | the caller is notified exactly by the worker that ends the last index |
| `RowStore.Open` | overlay/engram_ssd/row_store.cpp:113-125 | opens exactly when both tables lie inside the file, and owns every row |
| `RowStore.Restrict` | overlay/engram_ssd/row_store.cpp:127-130 | accepts exactly the ranges inside the table |
| `RowStore.RestrictedRow` | overlay/engram_ssd/row_store.cpp:102-130 | a restricted range changes no row inside it and makes every other row zero bytes |
| `RowStore.RowsAreTables` | overlay/engram_ssd/row_store.cpp:102-125 | an opened store's rows, in order, make up the weight table and the scale table of the file |
| `RowStore.OneOwner` | overlay/engram_ssd/row_store.cpp:102-130 | of processes that own consecutive ranges of the table exactly one has a row and the others have zeros |
| `RowStore.PreadAll` | overlay/engram_ssd/row_store.cpp:92-100 | whatever partial, interrupted or failed reads occur: the whole range, or an abort that needs a failure or the end of file |
| `RowStore.FetchOne` | overlay/engram_ssd/row_store.cpp:102-109 | the shard's bytes for an owned id, zeros for any other, abort for an owned id past the table |
| `RowStore.FetchChunk` | overlay/engram_ssd/row_store.cpp:147-151 | the job function fills the rows of its chunk and no others |
| `RowStore.LookupAlone` | overlay/engram_ssd/row_store.cpp:139-146 | a lookup of at most one job fills exactly its rows |
| `RowStore.LookupThroughPool` | overlay/engram_ssd/row_store.cpp:133-152 | for every interleaving, when run returns row i holds what its id stands for and the rest of the buffer is untouched |
| `Fp8.DecodeIsFormat` | overlay/sm80-src/fp8_sm80.py:134-147 | the decoder reads E4M3 as the format defines it |
| `Fp8.EncoderRounds` | overlay/sm80-src/fp8_sm80.py:86-109 | the encoder's kept bits and remainder place the input between two neighbouring codes, in the normal, subnormal and capped-shift ranges |
| `Fp8.EncodeIsNearest` | overlay/sm80-src/fp8_sm80.py:77-112 | for every non-NaN fp32 pattern no finite code is nearer than the encoded one, and on a tie the code is even |
| `Fp8.EncodeSaturates` | overlay/sm80-src/fp8_sm80.py:107-109 | magnitudes of 448 and above, infinities included, give 448 with the sign kept |
| `Fp8.NanIffNan` | overlay/sm80-src/fp8_sm80.py:86-112 | NaN encodes to the signed NaN code and nothing else does |
| `Fp8.EncodeMonotone` | overlay/sm80-src/fp8_sm80.py:77-112 | encoding is monotone over all non-NaN patterns |
| `Fp8.RoundTrip` | overlay/sm80-src/fp8_sm80.py:77-147 | a pattern with exactly a code's value and sign encodes to that code |
| `Fp8.EveryCodeHasPattern` | overlay/sm80-src/fp8_sm80.py:134-147 | every finite code's value is an fp32 value |
| `GraphKeys.PaddedSizes` | overlay/vllm/v1/cudagraph_dispatcher.py:73-92 | the table maps every batch size to the smallest capture size that holds it |
| `GraphKeys.UniformPadding` | overlay/patch_full_q1.py:38-59 | a uniform descriptor holds the smallest fitting multiple of the query length, and gives up exactly when there is none |
| `GraphKeys.AddFamily` | overlay/patch_full_qall.py:33-51 | one family's loop adds exactly the keys of q tokens for each of at most max_num_seqs requests |
| `GraphKeys.PiecewiseKeys` | overlay/vllm/v1/cudagraph_dispatcher.py:205-219 | one relaxed key per capture size |
| `GraphKeys.Dispatcher.constructor` | overlay/patch_full_qall.py:33-51 | the captured keys are exactly those of the families 1 to K + 1 |
| `GraphKeys.Dispatcher.Dispatch` | overlay/vllm/v1/cudagraph_dispatcher.py:313-364 | a step up to the largest capture size replays a captured graph that holds its tokens, and a uniform step gets a FULL graph of its own query length covering its requests exactly when the smallest fitting multiple is at most q * max_num_seqs |
| `GraphKeys.DispatchExact` | overlay/patch_full_q1.py:38-59 | a uniform step gets a captured FULL graph of its own query length that covers its tokens and requests if and only if the smallest fitting multiple exists and is at most q * max_num_seqs |
| `GraphKeys.UniformIffFamily` | overlay/patch_full_q1.py:143-156 | the runner's predicate recognises exactly the steps of a captured family |
| `GraphKeys.KeyQueryLen` | overlay/patch_full_q1.py:181-187 | tokens divided by requests recovers the query length of every captured key |
| `GraphKeys.CappedKey` | overlay/patch_full_q1.py:52-59 | beyond that bound a FULL key can only be one of a longer query length |
| `GraphKeys.CapPicksAnotherFamily` | overlay/patch_full_q1.py:52-59 | three one-token requests go to a graph of four two-token requests |
| `GraphKeys.AlwaysCovered` | overlay/vllm/v1/cudagraph_dispatcher.py:341-364 | every step up to the largest capture size replays a captured graph that holds its tokens |
| `Chat.MergeToolMessages` | overlay/vllm/tokenizers/deepseek_v41_encoding.py:74-135 | the merge loop computes the merged conversation |
| `Chat.MergeKeepsItems` | overlay/vllm/tokenizers/deepseek_v41_encoding.py:83-135 | all blocks and all other messages survive in order |
| `Chat.MergedIsSettled` | overlay/vllm/tokenizers/deepseek_v41_encoding.py:83-135 | no tool role is left, users are in block form, and a user follows a user only after a task |
| `Chat.MergeKeepsHeads` | overlay/vllm/tokenizers/deepseek_v41_encoding.py:83-135 | the merged messages carry the fields of exactly the messages that open them, told from the input alone; list content stays the same list as the growing blocks |
| `Chat.MergeIdempotent` | overlay/vllm/tokenizers/deepseek_v41_encoding.py:74-135 | merging twice is merging once |
| `Chat.SortBlocksMeans` | overlay/vllm/tokenizers/deepseek_v41_encoding.py:157-173 | blocks that are no tool results stay put; the tool results are a permutation, ascending by call and stable within a call |
| `Chat.CallOrderIs` | overlay/vllm/tokenizers/deepseek_v41_encoding.py:144-152 | the order maps exactly the called ids, each to where it is called last |
| `Chat.OrderIs` | overlay/vllm/tokenizers/deepseek_v41_encoding.py:144-152 | the order in force is that of the nearest earlier assistant message with calls, or none |
| `Chat.ResultsFollowCalls` | overlay/vllm/tokenizers/deepseek_v41_encoding.py:157-173 | of two results in a sorted message the one whose call comes first comes first |
| `Chat.UncalledResult` | overlay/vllm/tokenizers/deepseek_v41_encoding.py:157-173 | a result of no call counts as one of the first call |
| `Chat.SortMessageMeans` | overlay/vllm/tokenizers/deepseek_v41_encoding.py:153-173 | guard or not, a user message ends with the sorted blocks, and its content field keeps the list it held |
| `Chat.GuardSkipsNothing` | overlay/vllm/tokenizers/deepseek_v41_encoding.py:160 | the guard skips only sorts that would change nothing |
| `Chat.SortToolResults` | overlay/vllm/tokenizers/deepseek_v41_encoding.py:138-175 | every user message is sorted by the nearest earlier assistant message with calls |
| `Chat.SortedAt` | overlay/vllm/tokenizers/deepseek_v41_encoding.py:144-175 | message i is sorted by the order in force at i, and other messages stay as they are |
| `Chat.FindLastUserIndex` | overlay/vllm/tokenizers/deepseek_v41_encoding.py:304-324 | the last message that starts a turn, or -1 |
| `Chat.LastTurnMeans` | overlay/vllm/tokenizers/deepseek_v41_encoding.py:304-324 | a last turn is started by a user, a developer or a system message that is not the first; every such message behind it holds results alone |
| `Chat.DropThinking` | overlay/vllm/tokenizers/deepseek_v41_encoding.py:532-551 | what the drop pass keeps, relative to the last turn's start |
| `Chat.LastTurnAfter` | overlay/vllm/tokenizers/deepseek_v41_encoding.py:532-551 | dropping moves the last turn's start along, unless it is a system message that becomes first |
| `Chat.ReasoningShownIff` | overlay/vllm/tokenizers/deepseek_v41_encoding.py:459-471 | after the drop, reasoning is rendered if and only if the message followed the last turn's start and its predecessor carried no task |
| `Chat.Render` | overlay/vllm/tokenizers/deepseek_v41_encoding.py:327-500 | the reasoning part of every rendered message, and refusal exactly when some message has no branch, not what its branch needs, or an invalid task where tasks are read |
| `Chat.RefusedAlone` | overlay/vllm/tokenizers/deepseek_v41_encoding.py:327-500 | which messages raise on their own: roles without a branch, a developer without text, an unmerged list user, an invalid task |
| `Chat.RefusedByOne` | overlay/vllm/tokenizers/deepseek_v41_encoding.py:327-500 | a conversation raises exactly by such a message, tasks counting only on the last message and before assistant messages and reminders |
| `Chat.EncodeMessages` | overlay/vllm/tokenizers/deepseek_v41_encoding.py:554-595 | a conversation is refused exactly when a message left to render is; otherwise every assistant message of the merged and sorted conversation is rendered once, itself and in order, with its reasoning exactly when thinking is on, no task precedes it, and it follows the last turn's start or thinking is kept |
| `Chat.SearchResultsRefuse` | overlay/vllm/tokenizers/deepseek_v41_encoding.py:485-539 | a direct_search_results message survives the drop and always refuses the conversation |
| `Chat.OtherRoleRefused` | overlay/vllm/tokenizers/deepseek_v41_encoding.py:485-551 | an unknown role refuses the conversation whenever it is not dropped |

## Left out

- Text patching: anchors, counts and file writes of the patch scripts; the inserted code is what is modelled.
- CUDA streams, graph capture and replay, pinned memory, foreign-function plumbing and the opaque kernels (exllamav3 including the cooperative one, Marlin, DeepGEMM, CuTe).
- Layer arithmetic at pipeline cuts: uninterpreted functions; the residual-mixing tensors travel as one value with the hidden state.
- Shadow weight loading and the choice of attention class; a shadow computes with the owner's kernels.
- Floating-point rounding of accumulations and the reassociation of vector lanes: sums are over the reals, and the final bf16 rounding is a function parameter; only the FP8 encoder is modelled on bits.
- Half-precision routing weights in the EXL3 launches, against single precision in the per-expert loop.
- Padding heads and NaN screening in the attention kernels; scores and values enter per slot.
- Parallel execution inside a CPU task: tasks run one after another in any order.
- The flat byte layout of CPU expert weights, `cpu_moe_load`, and scale bytes 0, 1 and 255.
- The quantisation that produces codes and scale of a stored key, and races between two stores to one slot in one launch.
- Scheduler parts around the protocol: stop conditions, streaming sessions, async scheduling and token budgets beyond the rule that truncation trims drafts first.
- Steps inside the fetch of one row, which touches that row alone; pool shutdown, more than one caller at a time, 32-bit truncation of job indices and 64-bit wrap of file offsets.
- LoRA cases of the dispatch keys, modes other than FULL_AND_PIECEWISE, and compile sizes.
- A non-empty chat context, prompt template text, tool schemas and argument strings, and the transition tokens between messages.
- `overlay/sm80-src/triton_mla_sparse_kernel.py`, configuration checks, loaders, proposers, tools, benchmarks and evaluations.
- SpecTokens.Step: one request at a time, because all protocol state is per request; in-flight tokens are counted by batches.
- Exl3.FusedMoe: the equality is one of the multisets of added terms, because the launched kernel is seen only through its interface.
