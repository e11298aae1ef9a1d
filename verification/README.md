# Verified model of the mixture-of-experts runtime

A Dafny model of the parts of the runtime in which one small slip changes tokens: the continuous-batch
scheduler and the generation worker around it, the ragged batch step with one routed expert union per
layer, the decoder with its session cache (full attention and gated delta networks), the router, the
sampler, stop-sequence streaming, and the packed expert checkpoint with its converters.

Tensor rows are values of an uninterpreted type and every layer body (norms, projections, rotary
embedding, expert networks, residual addition) is an uninterpreted function of its inputs. Addition of
rows is *not* assumed to be associative or commutative: where two executions are proved equal, they
add in the same order. What an operation computes, as opposed to which executions agree, is stated
over numbers: with real addition and scaling, attention is a softmax mean, the delta network the gated
delta rule, and a routed layer the weighted sum of its experts. Router probabilities and sampling are
over exact reals with an arbitrary positive exponential (where needed, increasing, or turning sums into
products). Power's services (batch lifecycle, permits, weight
staging, weight store) appear as small contracts; their answers, like cancellations, decoded text and
lost receivers, are parameters over which every result is stated.

## How the modules build on each other

- `RealArithmetic`: products of numbers and the laws of an exponential, for the laws stated over numbers.
- `Ranking`, `Router`, `ExpertReduction`: ranking with ties, top-k routing, and the sum over the experts
  of a position in ascending order. Resident, reference and streamed execution all compute this sum.
- `Attention`, `GatedDeltaNet`, `Decoder`: each mixer, run on a chunk with its carried state, is the
  position-by-position mixer; the whole stack therefore does not see chunk boundaries.
- `RaggedBatch`: the batch step gives every row the logits, routes and cache of its own step alone.
- `Sampler`, `StopDecoder`: sampling from one row of logits; streaming text around stop sequences.
- `Generation`, `Scheduler`, `Runs`: one request alone; the scheduler as events, one per critical
  section, so that admissions, cancellations and other callers interleave with a step; and what holds
  over every run. `ContinuousBatch` is the coordinator object whose methods are these events, and
  `Worker` the loop that drives it.
- `Serving` puts the decoder and the sampler into the scheduler: over every run, the tokens handed out
  for a request are a prefix of what the request would produce alone with no cache at all.
- `PackedRecord`, `Conversion`, `PackedCheckpoint`: the record format, the two conversion loops, and the
  validator's view of the files they write.

## Results that are false as one would first state them

- *Members of the coordinator are active members.* They need not be, for two reasons. The active ids are
  read before the lock is taken, so a member may be published after it left (`Runs.MembersMayBeStale`).
  And a failing commit, which does not synchronize the members, may remove one that was admitted during
  the step (`Runs.FailedCommitLeavesStaleMember`, under the lifecycle contract used here).
  `Runs.MembersStayActiveIff` gives the exact condition for every event, and `Runs.NeverStaleIff` for
  every run. The true direction is `Runs.ActiveMembersAreHeld`.
- *Stop output does not depend on chunk boundaries.* It does for the stop sequences "abcd" and "c".
  `StopDecoder.OutputIgnoresBoundariesIffSafe` gives the exact condition on the stop sequences.
- *A batched request produces what it produces alone.* The scheduler accepts a token budget of zero and
  still hands out one token: `Runs.ZeroBudgetStillProduces` is the run. `Runs.PositiveBudgetIsNeeded`
  says that a completed member matches its lone run exactly when its budget is positive, which the
  service checks before submitting.
- *Shard names sort like their indices.* Only below 100000, where the zero padding ends
  (`PackedCheckpoint.NamesAscendIffFiveDigits`, with `PackedCheckpoint.SixDigitsBreakTheOrder` as the input).

## Model

| member | source | states |
|---|---|---|
| Runs.BatchingIsInvisible | src/continuous/scheduler.rs:117-296 | over every interleaving of admissions, cancellations, failed and successful steps, the tokens handed out for a request are a prefix of its lone run, and all of it exactly when it completed |
| Runs.PositiveBudgetIsNeeded | src/continuous/scheduler.rs:317-351 | a completed member equals its lone run if and only if its token budget is positive |
| Runs.ZeroBudgetStillProduces | src/continuous/scheduler.rs:415-426 | a run in which a request with a budget of zero completes with one token, while alone it produces none |
| Runs.ActiveMembersAreHeld | src/continuous/scheduler.rs:87-115 | at most one step is in flight; every active member is with the coordinator or with that step, never both, with its cache at Power's position |
| Runs.FreezeIsNeverRefused | src/continuous/scheduler.rs:138-214 | whenever no step is in flight, no active member is lost, no position has diverged, and the whole roster can be taken |
| Runs.MembersMayBeStale | src/continuous/scheduler.rs:257-268 | a concrete run after which the coordinator holds a member that is no longer active |
| Runs.FailedCommitLeavesStaleMember | src/continuous/scheduler.rs:250-256 | a run without any publication after which the coordinator holds a member that a failed commit removed |
| Runs.MembersStayActiveIff | src/continuous/scheduler.rs:87-364 | any event keeps the coordinator's members active exactly when it is no publication of a member that left after the ids were read and no failed commit that removes one of them |
| Runs.NeverStaleIff | src/continuous/scheduler.rs:87-364 | a whole run never has a stale member exactly when every event meets that condition |
| Runs.FlightCarriesOriginals | src/continuous/scheduler.rs:215-256 | until it commits, a step carries the frozen members unchanged and changes no log, whatever happens meanwhile |
| Runs.FailedStepIsNoOp | src/continuous/scheduler.rs:228-256 | after a failed or cancelled step every still active member of its roster is restored in all fields, no token was handed out, and a new step may begin |
| Runs.MembersAccount | src/continuous/scheduler.rs:408-445 | history is prompt plus generated tokens, position plus pending tokens is the history's length, the budget is not exceeded, and the next step fits the position limit |
| Runs.EventSpends | src/continuous/scheduler.rs:396-450 | every event other than an admission lowers the remaining budget by exactly the number of tokens it hands out |
| Runs.TokensAreConserved | src/continuous/scheduler.rs:396-450 | tokens handed out plus remaining budgets equal the admitted budgets, and no remaining total is negative |
| Runs.RequestIsAcceptable | src/continuous/scheduler.rs:317-351 | only requests that pass every check of admission are ever admitted |
| Runs.ReachableInv | src/continuous/scheduler.rs:87-364 | the invariant holds in every reachable state |
| Scheduler.EventKeepsInv | src/continuous/scheduler.rs:87-364 | every event, in every state satisfying the invariant, keeps it |
| Scheduler.AdmitKeepsInv | src/continuous/scheduler.rs:87-108 | admitting a fresh request keeps the invariant, also while a step is in flight |
| Scheduler.FreezeKeepsInv | src/continuous/scheduler.rs:182-218 | freezing moves the roster into the flight without losing or copying a member |
| Scheduler.ComputeKeepsInv | src/continuous/scheduler.rs:219-249 | the model step and sampling change only the caller's own rows |
| Scheduler.CommitKeepsInv | src/continuous/scheduler.rs:250-256 | a commit extends each sampled log along its lone run and removes completed, skipped and cancelled rows |
| Scheduler.CommittedRow | src/continuous/scheduler.rs:408-445 | a committed row either stays on the path of its lone run or completes exactly it |
| Scheduler.ReapKeepsInv | src/continuous/scheduler.rs:167-179 | members may leave the lifecycle, and stale members be dropped, without breaking the invariant |
| Scheduler.PublishKeepsInv | src/continuous/scheduler.rs:258-268 | giving members back from an earlier reading of the active ids keeps the invariant |
| ContinuousBatch.ContinuousBatch.constructor | src/continuous/scheduler.rs:56-67 | a new batch starts in the initial state |
| ContinuousBatch.ContinuousBatch.ValidateRequest | src/continuous/scheduler.rs:317-351 | accepted exactly when prompt, vocabulary, position, generated-token and context limits, end tokens and sampling settings are in order |
| ContinuousBatch.ContinuousBatch.Admit | src/continuous/scheduler.rs:78-108 | a request is admitted exactly when it is acceptable, unknown and Power agrees, and otherwise everything is as it was |
| ContinuousBatch.ContinuousBatch.Cancel | src/continuous/scheduler.rs:110-115 | cancellation succeeds exactly for active members, and otherwise leaves the coordinator untouched |
| ContinuousBatch.ContinuousBatch.SynchronizeMembers | src/continuous/scheduler.rs:452-462 | exactly the members that are still active remain |
| ContinuousBatch.ContinuousBatch.CheckRoster | src/continuous/scheduler.rs:136-164 | the roster is accepted exactly when every member is present at its snapshot's position, and the inputs are the pending tokens |
| ContinuousBatch.ContinuousBatch.TakeRoster | src/continuous/scheduler.rs:188-215 | the roster's members leave the coordinator in roster order and nothing else does |
| ContinuousBatch.ContinuousBatch.TryFreeze | src/continuous/scheduler.rs:128-181 | one attempt either freezes the roster or reaps and synchronizes |
| ContinuousBatch.ContinuousBatch.Freeze | src/continuous/scheduler.rs:121-218 | the retry loop terminates; it is refused as in flight exactly when a step is, and otherwise for lack of members exactly when none is active; when Power agrees at once it succeeds exactly when there is an active member |
| ContinuousBatch.PrepareCommit | src/continuous/scheduler.rs:396-450 | rows whose token is cancelled are skipped, all others sampled with their own sampler and history; it succeeds exactly when every such sampling does |
| ContinuousBatch.ForwardContinuousBatch | src/continuous/model.rs:51-57 | the coordinator's view of the batch step: every row makes its own step; it succeeds exactly when no row is refused and nothing interrupts |
| ContinuousBatch.ContinuousBatch.ComputeStep | src/continuous/scheduler.rs:219-249 | the unlocked part of a step changes only the caller's rows, or nothing; it says exactly when it succeeds |
| ContinuousBatch.ContinuousBatch.CommitStep | src/continuous/scheduler.rs:250-256 | handing the outcomes to Power is the commit event or its failure |
| ContinuousBatch.ContinuousBatch.Publish | src/continuous/scheduler.rs:258-268 | exactly the returned members that were read as active go back, and the in-step flag is cleared |
| ContinuousBatch.ContinuousBatch.RestoreFailedStep | src/continuous/scheduler.rs:353-364 | every active member that was active when the roster was frozen is as it was then, whoever was admitted meanwhile |
| ContinuousBatch.ContinuousBatch.Step | src/continuous/scheduler.rs:117-296 | a refused step leaves every log as it was and loses only cancelled members; a successful one appends exactly one token for exactly the active members whose token is not cancelled, its rows say exactly whether their members completed, and exactly the members with an open row go on; without interference it succeeds exactly when the model and the samplers do; the in-step flag is cleared on every exit |
| ContinuousBatch.CommitExtends | src/continuous/scheduler.rs:270-295 | the reported rows are exactly the logs that grew, each by its reported token, and a row says that its member completed exactly when it did |
| ContinuousBatch.ContinuousBatch.Finish | src/continuous/scheduler.rs:298-315 | succeeds exactly when no step is in flight and Power agrees, and then nobody is left; on failure members are synchronized |
| ContinuousBatch.Lifecycle.Commit | src/continuous/scheduler.rs:250-256 | contract of Power's commit: completed, outcome-less and cancelled rows leave, the others move to their new positions; a failed commit only reaps |
| ContinuousBatch.Lifecycle.BeginStep | src/continuous/scheduler.rs:165-180 | contract of Power's step: it freezes the given rows, or fails and may reap cancelled members |
| Generation.GenerateAlone | src/olmoe/streaming/model.rs:140-172 | the lone loop succeeds exactly when the request passes the model's checks and no step fails, with prompt and lone-run tokens |
| Generation.AloneIffRun | src/olmoe/streaming/model.rs:140-172 | a lone run is the one sequence of draws in which each token comes from the cache and the sampler that the step before left and sees the whole history, an end token can only be last, and the run stops at the budget, an end token or a failing step |
| Generation.StepStaysOnPath | src/continuous/scheduler.rs:408-445 | one sampled step keeps a member on the path of its lone run or completes it |
| Generation.PendingFits | src/qwen3_5_moe/dense.rs:216-245 | an admitted member's next step is within the position limit and the vocabulary |
| Generation.BudgetMatters | src/continuous/scheduler.rs:425-426 | with a budget of zero, and only then, the batch produces a token that the lone run does not |
| Serving.DecoderIsAnEngine | src/continuous/model.rs:34-58 | the decoder on its session cache obeys the step laws the scheduler relies on |
| Serving.ForwardRows | src/continuous/model.rs:98-125 | the batch step gives each row the logits and cache of its step alone |
| Serving.FrozenRowsAreNeverRefused | src/decoder/cache.rs:77-114 | the position, vocabulary and cache checks never refuse a row of an admitted request, in any reachable state |
| Serving.ForwardRoster | src/continuous/scheduler.rs:219-249 | in any reachable state the ragged batch step of the frozen roster, with reliable staging, succeeds exactly when the batch is within the limits, and gives each member its engine step |
| Serving.CachedRunIsUncachedRun | src/olmoe/streaming/model.rs:140-172 | generation on a cache equals generation that recomputes the whole history for every token |
| Serving.ServedTokensAreUncachedTokens | src/continuous/scheduler.rs:117-296 | over every run, tokens handed out are a prefix of lone, cache-free generation, and all of it exactly on completion |
| Serving.SampleToken | src/olmoe/sampling.rs:91-169 | the sampler object makes exactly the engine's sampling step, result and generator state included |
| Serving.SampledServingIsUncached | src/service/worker.rs:106-197 | the previous result for the modelled sampler, with no assumption left about decoder or sampler |
| Worker.Worker.Submit | src/service/worker.rs:76-99 | every queued request has a number of its own; a full queue refuses and queues nothing |
| Worker.Worker.AdmitJob | src/service/worker.rs:199-256 | a job joins exactly when its caller waits, Power agrees and its request is acceptable, with an open decoder; a caller that waits in vain is rejected, one that is gone is dropped |
| Worker.Worker.BeginWait | src/continuous/scheduler.rs:84-84 | demands that fewer members are active than there are permits, so the wait for a permit never blocks; it fails only when cancelled |
| Worker.Worker.CancelToken | src/service/worker.rs:96-99 | a caller may cancel between rounds; the worker's invariant survives |
| Worker.Worker.ReapCancelled | src/service/worker.rs:313-326 | exactly the jobs found gone are released, and exactly their members cancelled |
| Worker.Worker.StepBatch | src/service/worker.rs:183-190 | the rows of a step are the tokens just handed out, one for each member whose token is not cancelled, each with the completion of its member; exactly the open rows' members go on, and a failed step hands out nothing |
| Worker.EffectOfOpenJob | src/service/worker.rs:264-301 | a row of an open job never fails for crossed text; the done reason is "stop" for a stop sequence or end token and "length" only for an exhausted budget; text is complete when a job ends |
| Worker.EventsAreRows | src/service/worker.rs:264-301 | every row that can be decoded has exactly one event, in row order, with the row's member and token, the job's first-step mark, the text released so far completed by the event's, and the done reason |
| Worker.RowEndsIff | src/service/worker.rs:264-304 | a row ends its job exactly when it completes, the caller is gone, it cannot be decoded, or the job's text contains a stop sequence |
| Worker.JobsThatGoOn | src/service/worker.rs:258-311 | exactly the jobs without a row or with a row that does not end them go on, their texts grown by their own rows |
| Worker.Worker.ProcessRow | src/service/worker.rs:264-304 | a job ends exactly on completion, stop sequence, tokenizer error or disconnection, and exactly then its member is cancelled or already gone; the event and the decoder are the row's effect |
| Worker.Worker.ProcessStep | src/service/worker.rs:258-311 | every row is known; events are the rows' events in order; exactly the jobs that end are released, the others are updated by their rows, and the members of both follow |
| Worker.Worker.FailActive | src/service/worker.rs:328-354 | every job gets one error, each once, and no member stays active |
| Worker.Worker.SeatJobs | src/service/worker.rs:157-176 | jobs are taken in queue order until the queue is empty or the maximum is reached; exactly the admissible ones are seated, with a fresh member each, and exactly the rejected ones get an error |
| Worker.Worker.Round | src/service/worker.rs:119-191 | a round seats queued jobs in order until the queue is empty or all places are taken, gives one row to every member, old or just seated, whose token is not cancelled, streams the rows' events or fails every job once, with rows that are exactly the tokens the batch handed out and only jobs left whose rows end nothing, and keeps the invariant: active members are known jobs, at most the maximum, every admitted request active or released, never both |
| Worker.Worker.Shutdown | src/service/worker.rs:193-196 | at the end every admitted request has been released and no member is left |
| StopDecoder.EarliestStop | src/service/worker.rs:395-399 | the least position at which some stop sequence matches, or none |
| StopDecoder.HeldFrom | src/service/worker.rs:420-434 | the longest suffix that some stop sequence properly extends |
| StopDecoder.IncrementalDecoder.Push | src/service/worker.rs:391-417 | one push, against its specification, with the tokenizer's error and no-text cases |
| StopDecoder.NeverCrossed | src/service/worker.rs:409-413 | text already released is never taken back: the crossing error cannot occur |
| StopDecoder.LateMatchStartsInHeldText | src/service/worker.rs:400-408 | a match that completes later starts in withheld text |
| StopDecoder.OpenDecoderPushes | src/service/worker.rs:391-417 | a hit hands out exactly the text before the earliest match, a flush everything, any other push leaves the decoder open |
| StopDecoder.BufferingIsInvisible | src/service/worker.rs:391-434 | withholding changes nothing in the complete output of any chunk stream |
| StopDecoder.SafeStopsIgnoreBoundaries | src/service/worker.rs:391-434 | with safe stop sequences the output is the text before the first match of the whole stream |
| StopDecoder.UnsafeStopsShowBoundaries | src/service/worker.rs:391-434 | without them some chunking shows |
| StopDecoder.OutputIgnoresBoundariesIffSafe | src/service/worker.rs:391-434 | chunk boundaries never show if and only if the stop sequences are safe |
| StopDecoder.SeparateStopsAreSafe | src/service/worker.rs:391-434 | stop sequences not contained in one another are safe; "abcd" with "c" are not |
| RaggedBatch.ForwardBatch | src/olmoe/streaming/batch.rs:68-248 | each row gets the logits, routes and next cache of its step alone; any error leaves every caller's cache; failure happens only for a limit, a row that fails alone, staging or cancellation |
| RaggedBatch.RunLayers | src/qwen3_moe/batch.rs:137-235 | all layers over all rows, mixed dense and sparse, equal each row's own stack |
| RaggedBatch.ForwardLayer | src/qwen3_5_moe/batch.rs:138-220 | one layer: per-row mixers, one joined reduction cut back into rows, and the shared expert added to the routed result |
| RaggedBatch.PrepareRows | src/olmoe/streaming/batch.rs:75-134 | a batch is accepted exactly when it is within the limits and every row's step is allowed with batch dimension one |
| RaggedBatch.CutRows | src/olmoe/streaming/batch.rs:184-222 | each row gets back the outputs of its own positions |
| RaggedBatch.UnionIsUnionOfRows | src/olmoe/streaming/batch.rs:163-224 | the staged union holds exactly the experts that some row uses |
| RaggedBatch.CommitRows | src/olmoe/streaming/batch.rs:237-242 | every caller's cache is replaced by its row's next state |
| RaggedBatch.ForwardResident | src/qwen3_5_moe/model.rs:52-86 | a session's own step: transactional, and equal to the stack function |
| RaggedBatch.ForwardMixer | src/qwen3_5_moe/dense.rs:154-173 | dispatch to the layer's mixer, refused exactly when the cached state is of the other kind or does not fit |
| RaggedBatch.Session.ValidateStep | src/decoder/cache.rs:77-114 | a step is accepted exactly for matching layers and batch, non-empty input and room below the position limit |
| RaggedBatch.Session.CommitStep | src/decoder/cache.rs:116-119 | binds the batch and advances the position, nothing else |
| RaggedBatch.Session.Reset | src/qwen3_5_moe/cache.rs:113-128 | every layer is emptied by its own kind; position and batch are forgotten |
| RaggedBatch.ResetIsNew | src/qwen3_5_moe/cache.rs:113-128 | whatever steps left in a session of a model, after a reset it is that model's new session |
| Decoder.StackStreams | src/qwen3_5_moe/model.rs:60-78 | a stack adds every mixer, routed and shared output of every layer to a token's hidden state exactly once, in layer order, in whatever chunk the token comes |
| Decoder.NeutralStream | src/qwen3_5_moe/model.rs:60-78 | layers whose outputs are the neutral element leave every hidden state as it was |
| Decoder.StreamAddsUp | src/qwen3_5_moe/model.rs:60-78 | over numbers the result is the hidden state plus the sum of everything the layers gave |
| Decoder.StepStreams | src/qwen3_5_moe/model.rs:52-86 | the same for a session's whole step, from the embedding to the logits |
| Decoder.LayerFeedsAttended | src/qwen3_5_moe/model.rs:61-73 | the feed-forward part reads the normalized sum of hidden state and mixer output and is added to that sum; a routed layer adds its weighted experts, a shared one its shared expert as well |
| Decoder.FirstTokenThroughLayer | src/qwen3_5_moe/model.rs:61-73 | the first token of a session through a layer of full attention, written out over numbers |
| Decoder.PrefillEqualsChunkedDecode | src/qwen3_5_moe/model.rs:52-86 | any split into non-empty chunks gives the same outputs, routes, acceptance and final cache as one prefill |
| Decoder.StackSplits | src/qwen3_5_moe/model.rs:52-86 | a layer-by-layer pass over two chunks is two passes, through every mix of layers |
| Decoder.MixerSplits | src/qwen3_5_moe/dense.rs:154-173 | each mixer carries enough state to be split anywhere |
| Decoder.StepsKeepConsistency | src/qwen3_5_moe/cache.rs:130-167 | on a cache that steps have left, a step is refused only for empty input, an unknown token or the position limit |
| GatedDeltaNet.Forward | src/qwen3_5_moe/gated_delta_net.rs:108-223 | convolution and recurrence over a chunk, with the stored states taken and replaced, equal the chunk function |
| GatedDeltaNet.CausalConvolution | src/qwen3_5_moe/gated_delta_net.rs:225-291 | outputs are the taps over history and chunk; the new history is the window's end, nothing for a kernel of one |
| GatedDeltaNet.GdnChunkIsScan | src/qwen3_5_moe/gated_delta_net.rs:177-208 | a chunk is its positions one at a time |
| GatedDeltaNet.ChunkReadsItsWrites | src/qwen3_5_moe/gated_delta_net.rs:197-207 | a token whose query is its key reads back its own value, whatever the state: the read follows the write |
| GatedDeltaNet.ChunkIsDeltaRule | src/qwen3_5_moe/gated_delta_net.rs:177-208 | over numbers a chunk is the gated delta rule: decay by the gate, add the scaled difference to what the key recalls, read with the query |
| GatedDeltaNet.LoneInputMeetsItsTap | src/qwen3_5_moe/gated_delta_net.rs:266-282 | a lone input meets the last tap at its own position, earlier taps at later positions, and none after the kernel |
| GatedDeltaNet.CarriedConvolutionIsStreamConvolution | src/qwen3_5_moe/gated_delta_net.rs:225-291 | whatever the chunking, chunks shorter than the history included, the convolution is that of the zero-padded stream |
| Attention.CausalMask | src/decoder/attention.rs:140-175 | row q admits exactly the keys max(0, p + 1 - window) to p of its absolute position p |
| Attention.AppendCache | src/decoder/attention.rs:100-138 | succeeds exactly when the cached length is the position, and then appends |
| Attention.RowIsSeen | src/qwen3_moe/attention.rs:123-138 | masked attention, or unmasked attention of a single unwindowed token, is attention over exactly the visible keys |
| Attention.Forward | src/qwen3_moe/attention.rs:82-150 | cached, masked execution equals windowed attention over the whole sequence |
| Attention.KvChunkIsScan | src/decoder/attention.rs:100-175 | a chunk is its positions one at a time |
| Attention.MaskedAttentionSeesWindow | src/decoder/attention.rs:140-175 | keys masked with minus infinity change neither weights nor output |
| Attention.AttentionIsSoftmax | src/decoder/attention.rs:140-175 | over numbers attention is the mean of the values weighted by the exponentials of their scores |
| Attention.SequenceIsSoftmax | src/qwen3_moe/attention.rs:82-150 | position i of a sequence ends with that mean over the last window positions up to its own, every key and query at its own position |
| ExpertReduction.StreamedForward | src/olmoe/streaming/mlp.rs:103-190 | succeeds exactly when each group arrives once and cancellation is not seen, and then equals the canonical reduction for every arrival order |
| ExpertReduction.ComputeGroup | src/olmoe/streaming/mlp.rs:195-265 | fills its own slot once; a repeated, unknown or cancelled group changes nothing |
| ExpertReduction.ReduceSlots | src/olmoe/streaming/mlp.rs:168-180 | reduces in ascending expert order; fails exactly when a group is missing |
| ExpertReduction.ResidentForward | src/olmoe/cpu/experts.rs:76-148 | repeated indexed addition equals the canonical reduction |
| ExpertReduction.ReferenceForward | src/sparse/layer.rs:42-72 | row-wise accumulation equals the canonical reduction, and fails exactly on a sum that is not finite |
| ExpertReduction.CanonicalStep | src/olmoe/cpu/experts.rs:105-137 | adding one expert's contributions extends the reduction by that expert |
| ExpertReduction.ReductionIsFold | src/olmoe/cpu/experts.rs:105-137 | the reduction of a position is the fold of its selection by ascending expert, adding weight times expert output to the sum, whatever order the selection lists |
| ExpertReduction.OneRoutedExpert | src/olmoe/streaming/mlp.rs:245-256 | a single routed expert contributes its output times its route weight |
| ExpertReduction.ReductionIsWeightedSum | src/sparse/layer.rs:42-72 | over numbers the reduction is the sum of weight times expert output over the selection |
| ExpertReduction.FiniteIsFold | src/sparse/layer.rs:57-68 | the reference layer's check is that every sum on the way through that fold is finite |
| ExpertReduction.RoutedExpertBatch.ExpertsAreTheUnion | src/olmoe/streaming/mlp.rs:144-153 | the experts are the distinct union in ascending order |
| ExpertReduction.RoutedExpertBatch.AssignmentsAreInRowOrder | src/olmoe/cpu/experts.rs:105-137 | an expert's assignments are its positions in row order |
| Router.SelectRoutes | src/sparse/router.rs:69-123 | every position gets its selection; errors happen exactly for a bad configuration or shape |
| Router.RowSelectsTop | src/sparse/router.rs:84-91 | the selected experts are the top k by probability, then index, and no other list is |
| Router.RowWeights | src/sparse/router.rs:93-115 | weights are the probabilities, or sum to one when normalized |
| Router.NormalizedWeights | src/sparse/router.rs:93-115 | a normalized weight is the probability's share of the selected total |
| Router.ProbabilitiesAreSoftmax | src/sparse/router.rs:132-152 | a probability is the exponential of its logit over the sum of them all: the subtracted maximum cancels |
| Router.ProbabilitiesRankLikeLogits | src/sparse/router.rs:84-91 | ranking by probability is ranking by logit |
| Router.SoftmaxIsDistribution | src/sparse/router.rs:132-152 | the probabilities are positive and sum to one |
| Ranking.RankIsUnique | src/sparse/router.rs:85-91 | any correct sort gives the same list |
| Ranking.TopIsUnique | src/sparse/router.rs:85-91 | a list of k indices that precede all others, in order, is unique |
| Sampler.Sampler.Sample | src/olmoe/sampling.rs:91-169 | greedy takes the best adjusted logit and no draw; otherwise one draw lands among the survivors of top-k, min-p and top-p |
| Sampler.GreedyIsLowestMaximum | src/olmoe/sampling.rs:106-119 | greedy is the maximum with the lowest id |
| Sampler.ApplyPenalties | src/olmoe/sampling.rs:172-205 | in-place penalties over the counted window; an unknown token refuses and changes nothing |
| Sampler.RepeatPenaltyAlone | src/olmoe/sampling.rs:194-200 | the repeat penalty divides a positive logit and multiplies any other; one changes nothing |
| Sampler.OccurrencesAreCharged | src/olmoe/sampling.rs:201-202 | every further occurrence costs the frequency penalty, and the presence penalty is paid once |
| Sampler.PenaltiesNeverRaise | src/olmoe/sampling.rs:172-205 | a repeat penalty of at least one with non-negative terms never raises a logit, and a token outside the window keeps its own |
| Sampler.WindowIsLastTokens | src/olmoe/sampling.rs:177-181 | penalties look at the last tokens of the history: as many as configured, all there are, or none |
| Sampler.CountTokens | src/olmoe/sampling.rs:177-190 | exact occurrence counts of the window |
| Sampler.Cut | src/olmoe/sampling.rs:136-151 | min-p keeps a prefix of the ranking, top-p the shortest prefix that reaches it or all |
| Sampler.Draw | src/olmoe/sampling.rs:153-163 | the scaled draw always lands on a candidate |
| Sampler.PickIsUnique | src/olmoe/sampling.rs:136-163 | the cuts and the landing are determined: one outcome per draw |
| Sampler.SharesDescend | src/olmoe/sampling.rs:121-134 | shares are positive, follow the ranking and sum to one |
| Sampler.SharesAreTemperedSoftmax | src/olmoe/sampling.rs:121-134 | a share is the exponential of logit over temperature, divided by the sum over the candidates |
| Sampler.CandidatesAreTop | src/olmoe/sampling.rs:106-119 | the candidates are the best topK tokens, or all when it is zero or more than there are |
| Sampler.UnitDraw | src/olmoe/sampling.rs:227-236 | the draw is in [0, 1) |
| Sampler.KnownOutputs | src/olmoe/sampling.rs:227-236 | the published SplitMix64 outputs come out: two for seed zero and one for seed one |
| Sampler.StateAfterDraws | src/olmoe/sampling.rs:222-236 | the generator's state depends on the seed and the number of draws alone |
| PackedRecord.RecordsAreBijective | src/olmoe/streaming/packed.rs:90-229 | the parser accepts exactly the encoder's outputs, each for one scalar type and one triple of sections |
| PackedRecord.ParseOfEncoded | src/olmoe/streaming/packed.rs:146-229 | every encoded record parses back to its scalar type and sections |
| PackedRecord.EncodedOfParse | src/olmoe/streaming/packed.rs:146-229 | every accepted byte string is the encoding of its own sections |
| PackedRecord.RecordLayout | src/olmoe/streaming/packed.rs:90-143 | the byte at every offset of a record: magic, version, scalar code, header length, dimensions, section and payload lengths, the reserved field, and the sections in order |
| PackedRecord.LittleEndianAt | src/olmoe/streaming/packed.rs:90-143 | numbers are stored lowest byte first |
| PackedRecord.EncodeRaw | src/olmoe/streaming/packed.rs:90-143 | succeeds exactly for a valid geometry, sections of the right size with finite scalars, and lengths that do not overflow |
| PackedRecord.EncodeF32 | src/olmoe/streaming/packed.rs:58-86 | encoded values come back from the parsed record bit for bit |
| PackedRecord.DecodeF32 | src/olmoe/streaming/packed.rs:243-249 | decoding a parsed record always succeeds, with finite values |
| PackedRecord.SectionIsLossless | src/olmoe/streaming/packed.rs:291-327 | storing decoded values again gives the same bytes |
| PackedRecord.ValidateScalarBytes | src/olmoe/streaming/packed.rs:273-289 | accepted exactly when aligned and finite throughout |
| PackedRecord.DecodeScalarBytes | src/olmoe/streaming/packed.rs:291-307 | decodes every scalar in order, or refuses a misaligned section |
| PackedRecord.Bf16IsFinite | src/olmoe/streaming/packed.rs:309-328 | a BF16 scalar widened to F32 is finite by its own exponent bits |
| PackedRecord.FiniteIsBelowInfinity | src/olmoe/streaming/packed.rs:273-289 | whatever its sign, a value is finite exactly when its magnitude is below that of infinity |
| Conversion.ConvertFused | src/packing.rs:88-226 | succeeds exactly when the tensors fit together, every expert is encodable and a full shard fits the buffer; packs every layer and expert once, in the expected number of ascending files; peak buffers stay within the bound |
| Conversion.ConvertSplit | src/qwen3_moe/packed_checkpoint/convert.rs:149-271 | the same for split tensors over the sparse layers, one scalar type throughout |
| Conversion.SplitLayer | src/olmoe/packed_checkpoint/convert.rs:139-250 | one layer of split experts, in shards that tile it |
| Conversion.SplitShard | src/qwen3_moe/packed_checkpoint/convert.rs:165-271 | one shard: exact records, exact peak, and exactly when it succeeds |
| Conversion.FusedShard | src/packing.rs:143-217 | one shard of fused experts: exact records, exact peak, and exactly when it succeeds |
| Conversion.PackExpert | src/packing.rs:149-193 | buffers are bounded before anything is read, counting retained records, source and record |
| Conversion.TileCount | src/qwen3_moe/packed_checkpoint/model.rs:233-238 | the number of shards of a layer is the rounded-up quotient |
| Conversion.FusedGateAndUpAreResident | src/qwen3_moe/mlp.rs:162-206 | packed gate and up matrices hold the elements that the resident loader narrows out |
| Conversion.FusedDownIsResident | src/qwen3_moe/mlp.rs:162-206 | and so does the packed down matrix |
| Conversion.FusedRecordIsResident | src/packing.rs:143-217 | a fused expert's record, read back by the parser, holds exactly the elements that the resident loader narrows out |
| Conversion.SplitRecordIsTensors | src/qwen3_moe/packed_checkpoint/convert.rs:165-271 | a split expert's record, read back by the parser, holds the bytes of its own gate, up and down tensors |
| PackedCheckpoint.WriteRawTensorStreaming | src/packing.rs:267-296 | copies header and tensor exactly, terminates, and never buffers more than the bound |
| PackedCheckpoint.NamesAscend | src/packing.rs:211-215 | below 100000, names of ascending shards ascend |
| PackedCheckpoint.NamesAscendIffFiveDigits | src/packing.rs:211-215 | all names ascend with their files if and only if no layer or first expert reaches 100000 |
| PackedCheckpoint.SixDigitsBreakTheOrder | src/packing.rs:211-215 | layer 100000 sorts before layer 99999 |
| PackedCheckpoint.ListingIsUnique | src/qwen3_moe/packed_checkpoint/model.rs:275-288 | a set of names has one listing, so a manifest in listing order is the store's inventory |
| PackedCheckpoint.ConvertedFilesAreAccepted | src/qwen3_moe/packed_checkpoint/model.rs:213-288 | a conversion's expert files pass the validator's count, name, uniqueness and inventory checks |
| PackedCheckpoint.ConvertDense | src/packing.rs:64-86 | one file for each dense tensor, copied exactly; refused exactly when a header exceeds the buffer; the peak stays within the bound |
| PackedCheckpoint.DenseFilesAreAccepted | src/qwen3_moe/packed_checkpoint/model.rs:257-288 | the dense files' names pass the same checks, up to 100000 of them |
| PackedCheckpoint.ValidateManifestFiles | src/qwen3_moe/packed_checkpoint/model.rs:257-273 | accepted exactly when not empty, without repetition, and every name is one relative shard file name |
| PackedCheckpoint.ValidateExpertInventory | src/qwen3_moe/packed_checkpoint/model.rs:308-356 | accepted exactly when every sparse layer and expert, and nothing else, has a record of the expected length |
| PackedCheckpoint.FusedConversionIsAccepted | src/qwen3_moe/packed_checkpoint/model.rs:213-356 | whenever fused conversion succeeds, its files and records pass every check of the validator, with the record length the validator computes (indices below 100000) |
| PackedCheckpoint.SplitConversionIsAccepted | src/qwen3_moe/packed_checkpoint/model.rs:213-356 | the same for split conversion over the sparse layers |

## Left out

- Floating-point rounding, numeric ranges and non-finite intermediate values, except where the code decides by them (packed scalars, and the reference layer's finiteness check): rows are uninterpreted and scores are exact reals. In particular a masked key's weight is exactly zero and adding its zero multiple is assumed to change nothing.
- Layer bodies: RMS normalization, rotary tables, projections, activation functions, matrix products, and the several heads of attention and of the delta network (a row stands for all its heads; repeated key and value heads are inside the scoring function).
- Router logits as part of a step's output, telemetry, timing, evidence digests and route recording. Layer routes are kept per position.
- Device, data-type and rank checks, and a batch dimension above one in a session's own forward; the batch step's check for batch dimension one is modelled.
- A prompt of more tokens than a u32 counts, which the worker refuses before admission, and the derivation of member digests.
- Shard names are split at slashes as on Unix; other path separators are not modelled.
- ContinuousBatch.ForwardContinuousBatch: does not run the layers and keeps the batch-wide limits in `interrupted`; that the ragged step does exactly this for a frozen roster is Serving.ForwardRoster.
- Overflow of machine integers, except in the packed record and the conversion loops, where it is explicit.
- Power's internals: permits, fairness, staging, admission accounting and the weight store are contracts. That a dropped step changes nothing, that a failed step or commit may only remove members whose token is cancelled, and that a successful commit removes every row without an outcome are part of these contracts.
- Worker.Worker.Round: does not model the blocking receive on an empty queue, the batch window or the shutdown race; a round with nothing to do simply ends.
- ContinuousBatch.ContinuousBatch.Step: is one caller's run without others in between; other callers' events between its critical sections are covered by the runs in `Runs`.
- ContinuousBatch.Lifecycle.BeginStep: its roster digests and shapes are not modelled.
- StopDecoder.IncrementalDecoder.Push: text is a sequence of characters instead of UTF-8 bytes, so the character-boundary check, which can only repeat the crossing check, does not appear; the tokenizer's own stream decoding is an input.
- Worker.EffectOfOpenJob: prompt counts and durations of the streamed events are not modelled.
- Tensor names and prefixes as text: a name is its layer, expert and part. Shard file names are modelled as text.
- The u64 tensor header and the serialization of SafeTensors files, JSON, digests, encryption, file-system work and atomic renames.
- HTTP, command-line programs, tokenizers, backend selection, configuration parsing and validation beyond the geometry that a proof needs, benchmark and oracle tooling: they hold no further protocol or arithmetic of this kind.
