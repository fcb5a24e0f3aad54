# Verification model of AgentInfer's replay and scheduling core

This project models the parts of AgentInfer whose correctness lives in loops and state rather than in single branches,
and proves what those parts promise. `dafny verify dfyconfig.toml` checks everything.

Five components are modelled.

* **Replay analysis and planning** (`Analyzer`, `RetryMatching`, `SessionBuilder`, `SessionMeaning`, `Planner`,
  `PlanValidation`, `PlanAcceptance`, `Sampler`). Historical rows are sorted and swept once with a heap; the sweep
  infers overlaps, retries, send and context dependencies and delays. Each sweep is proved equal to a declarative
  meaning (a maximum by finish time and key, pairwise overlap, the first later success, a least closure), ties and
  zero-length rows included. End to end, no plan made from an analyzed session can be refused: planning never raises
  and the validator accepts the result.
* **Replay execution** (`Executor`, `ExecutorProgress`). One coroutine per node becomes a step system in which every
  await is a separate step and prompt building and transport may succeed or fail at will. Safety holds in every
  interleaving. Every reachable state can still be finished exactly when the edges a node really waits for have no
  cycle; where no node is bound to fail these are all send and context edges. The validator looks at send edges only,
  so it accepts a mixed cycle that never finishes; analyzed plans cannot contain one because both kinds of edge point
  backward in plan order.
* **Token-exact prompts** (`TokenPrompt`, `Conversation`, `TraceLab`, `TokenBlocks`). Trimming and padding of recorded
  filler along arbitrarily long conversations, prefix reuse with forced divergence, and the cached block renderer.
* **Program scheduler** (`ProgramRegistry`, `RequestPool`, `ProgramScheduler`, `SnapshotFold`, `SchedulerRuns`,
  `SchedulerMarks`, `SchedulerHits`, `SchedulerExamples`, `SchedulerModel`). The registry, the request pool and the scheduler are classes that update their tables in place,
  each method proved against a function of the old state; the strategy is any finite sequence of requested
  transitions. One invariant ties the tables together and is kept by every entry point, hence over every run.
* **Incremental forms** (`RollingStats`, `SseObservers`, `LifecycleObserver`). Running sums, merged intervals and
  chunked byte parsers are proved equal to their batch forms.

`Common` holds sequence, dictionary, sorting and arithmetic facts.

## Reading the model

Identifiers and keys are integers, used through equality and order only. Analyzer timestamps are microseconds and
scheduler times are clock ticks; executor times, throughput intervals and averages are real numbers. Records that the source
keeps in dictionaries are values inside map-valued class fields. The heap of the sweeps is a bag from which the earliest
finish is popped. `sorted` is an insertion sort over the stated order. Tokenizer seeds, digests, name-based identifiers and
JSON decoding are parameters; where identity matters the identifier is required to keep different names apart, and a digest
is required to have 32 bytes.

The scheduler's host contract is a precondition: completion is reported only for requests that were handed over
(`id !in requestPool.entries.at` in `OnRequestCompletion`).

Findings, each with a failing input and the exact condition:

* The executor's comment says that resolving every future means consumers cannot deadlock.
  `ExecutorProgress.MixedCycleDeadlocks` gives a plan that the validator accepts and that deadlocks, because a send edge
  and a context edge form a cycle. `ExecutorProgress.NeverDeadlocksIffOrdered`: no reachable state is stuck if and only if
  the binding edges (send and context edges, without the send edges of nodes bound to fail) have no cycle.
* A program marked for pause is expected to be reasoning. `SchedulerExamples.MarkedProgramActs` is a run that ends with one
  acting. `MarkedPrograms.StepMarked`: among all operations exactly the cancellation of such a program's only request ends
  the property.
* A waiting request is expected to belong to a paused program. `SchedulerExamples.QueuedAtActive` is a run that ends
  otherwise. `SchedulerOps.ArrivalStrandsIff` and `SchedulerOps.StepWaiting`: it happens exactly when the program was
  already active and the strategy answered that the arriving request must queue.
* A planned trim can be refused at run time. `RefusedTrim.PlannedTrimRefused` is one.
  `PlannedConversations.ReplayConversation`: with outputs of the planned lengths a conversation is built to the end if and
  only if at every turn the tokens outside recorded filler, counted from the plan alone, fit the target.
* The accounted local hit may fall below its unreferenced part (`PrefixHits.PartOutlivesLocal`). `PrefixHits.StepPartsLocal`:
  among all operations exactly a report that lowers the one and is silent about the other ends the property.

## Model

| member | source | states |
|---|---|---|
| FinishQueue.PopEarliest | agentinfer/agentbench/replay/analyzer.py:397-399 | the popped row is the earliest by finish time and key, and exactly it leaves the heap |
| ParallelSweep.ParallelMeaning | agentinfer/agentbench/replay/analyzer.py:388-408 | a row's parallel keys are exactly the other rows overlapping it, each once |
| ParallelSweep.ParallelSymmetric | agentinfer/agentbench/replay/analyzer.py:217-218 | the overlap relation that is recorded is symmetric |
| ParallelSweep.Expire | agentinfer/agentbench/replay/analyzer.py:397-399 | heap and active list drop exactly the rows that have finished by the next start |
| ParallelSweep.Record | agentinfer/agentbench/replay/analyzer.py:400-404 | one new row is recorded on both sides of every overlap and nowhere else |
| ParallelSweep.ParallelKeys | agentinfer/agentbench/replay/analyzer.py:388-408 | the active-set sweep computes the overlap table of all pairs, in sort order |
| RetryMatching.MatchIsFirst | agentinfer/agentbench/replay/analyzer.py:338-363 | the match is the first later usable success of the same actor and prompt kind, and absent only if there is none |
| RetryMatching.AssignAll | agentinfer/agentbench/replay/analyzer.py:358-360 | all pending failures of a group get the resolving success and no other key changes |
| RetryMatching.RetryMatches | agentinfer/agentbench/replay/analyzer.py:338-363 | the pending-group loop computes that match and the replayed tokens for every row |
| CompletionOrder.LatestIsMax | agentinfer/agentbench/replay/analyzer.py:432-456 | the recursive reference form is the maximum by (finish, key) over the completed chosen rows |
| CompletionOrder.LatestUnique | agentinfer/agentbench/replay/analyzer.py:432-456 | that maximum is unique because no two rows tie |
| SessionBuilder.Complete | agentinfer/agentbench/replay/analyzer.py:439-454 | one popped row replaces predecessor, attempt and usable success only where it finished later |
| SessionBuilder.CompletedOk | agentinfer/agentbench/replay/analyzer.py:436-456 | one popped row keeps predecessor, attempt and success tables at their maxima, whatever the pop order |
| SessionBuilder.Drain | agentinfer/agentbench/replay/analyzer.py:436-456 | after draining, the heap holds exactly the rows still running at the next start |
| SessionBuilder.DrainedMeans | agentinfer/agentbench/replay/analyzer.py:436-456 | the drained tables are the maxima over exactly the rows finished by this start |
| SessionBuilder.FindLead | agentinfer/agentbench/replay/analyzer.py:429 | the lead is the actor of the first lead row, or the default |
| SessionBuilder.RequestOf | agentinfer/agentbench/replay/analyzer.py:457-509 | one request is assembled from those maxima, settling its actor's parent once |
| SessionBuilder.BuildRequests | agentinfer/agentbench/replay/analyzer.py:411-512 | the single heap sweep yields the specified request for every row |
| SessionMeaning.ReferencesAreMaxima | agentinfer/agentbench/replay/analyzer.py:432-512 | send and context references name the last-finishing earlier row, or usable success of the actor, with the key as tie-break |
| SessionMeaning.DelaysAreExact | agentinfer/agentbench/replay/analyzer.py:457-509 | delays are never clamped, and a same-agent gap exists and equals the delay |
| SessionMeaning.BuiltReferences | agentinfer/agentbench/replay/analyzer.py:432-512 | both references point strictly earlier, and context names a replayable success of the same actor |
| SessionMeaning.BuiltTokens | agentinfer/agentbench/replay/analyzer.py:338-363 | every replayed request has positive token targets and its recipe key names a replayed request |
| SessionMeaning.BuiltSessionOk | agentinfer/agentbench/replay/analyzer.py:411-512 | the built session satisfies everything the planner relies on |
| SessionMeaning.BuildSession | agentinfer/agentbench/replay/analyzer.py:411-512 | from rows in any order, sorting and sweeping give a session with all these properties |
| RequiredRequests.RequiredKeys | agentinfer/agentbench/replay/schema.py:170-181 | the worklist ends with the least set that holds every replayable request and is closed under send dependencies |
| TaskPlanning.TaskPlan | agentinfer/agentbench/replay/planner.py:241-313 | the plan has one node per required request in session order, or reports the first failing request; a snapshot request without output is planned with one token |
| TaskPlanning.PruneKeepsOrder | agentinfer/agentbench/replay/planner.py:197-199 | pruning keeps backward references backward |
| AcyclicCheck.CycleNoRoot | agentinfer/agentbench/replay/planner.py:316-334 | a key on a cycle never reaches a node without predecessor |
| AcyclicCheck.Visit | agentinfer/agentbench/replay/planner.py:321-331 | a visit succeeds exactly when the key's chain reaches a root, and marks only such keys |
| AcyclicCheck.ValidateAcyclic | agentinfer/agentbench/replay/planner.py:316-334 | accepts exactly when every send chain reaches a root |
| PlanValidation.CheckNode | agentinfer/agentbench/replay/planner.py:347-386 | the ordered per-node checks accept exactly the valid nodes, whether recipes are request keys or byte offsets |
| PlanValidation.ValidateTask | agentinfer/agentbench/replay/planner.py:337-387 | accepts exactly the tasks with distinct keys and ids, valid nodes and acyclic sends |
| PlanValidation.ValidatePlan | agentinfer/agentbench/replay/planner.py:389-398 | accepts exactly the plans of valid tasks with distinct runtime sessions |
| PlanAcceptance.TargetsSurvive | agentinfer/agentbench/replay/planner.py:197-199 | send, context and recipe targets of a kept request are never pruned |
| PlanAcceptance.PrunedSessionOk | agentinfer/agentbench/replay/planner.py:197-199 | pruning keeps every property of an analyzed session |
| PlanAcceptance.NodePlanned | agentinfer/agentbench/replay/planner.py:206-238 | planning a request of an analyzed session never fails, and mode and context agree |
| PlanAcceptance.DefaultIntervalsAreDelays | agentinfer/agentbench/replay/timing.py:131-150 | with scale one and offset zero every interval is exactly the recorded delay |
| PlanAcceptance.OrderedReachesRoot | agentinfer/agentbench/replay/planner.py:316-334 | along backward references every node reaches a root |
| PlanAcceptance.OrderedIsAcyclic | agentinfer/agentbench/replay/planner.py:316-334 | backward references imply that every send chain ends |
| PlanAcceptance.AnalyzedSessionAccepted | agentinfer/agentbench/replay/planner.py:337-398 | every analyzed session plans without error into a valid task whose references all point backward |
| PlanAcceptance.PlanSession | agentinfer/agentbench/replay/planner.py:241-387 | the same from unordered rows, through all the loops |
| Sampler.CyclesFair | agentinfer/agentbench/replay/sampler.py:38-50 | every prefix of the shuffled cycles draws each session between the rounded-down and rounded-up share |
| Sampler.SampleSessions | agentinfer/agentbench/replay/sampler.py:22-69 | fails exactly when nothing is replayable, else returns the requested number of numbered, identified draws |
| Sampler.NumberDraws | agentinfer/agentbench/replay/sampler.py:52-69 | ordinals count the earlier draws of the same session |
| Sampler.SamplesBalanced | agentinfer/agentbench/replay/sampler.py:38-50 | draws of any two replayable sessions differ by at most one |
| Sampler.SamplesDistinct | agentinfer/agentbench/replay/sampler.py:52-69 | no (session, ordinal) pair is sampled twice, so runtime sessions are distinct |
| Sampler.OrdinalsContiguous | agentinfer/agentbench/replay/sampler.py:52-69 | the ordinals of a session are exactly 0 to its number of draws less one |
| ReplayPlanning.BuildPlan | agentinfer/agentbench/replay/planner.py:401-456 | a plan that is built is valid; it is refused for a missing, unexpected or wrong trace, for want of tasks or of a replayable session, and over analyzed sessions for nothing else |
| ReplayPlanning.PlanSample | agentinfer/agentbench/replay/planner.py:241-313 | each sampled session plans into a valid task |
| ExecutorSafety.StepInv | agentinfer/agentbench/replay/executor.py:207-404 | every step of every node, and the passage of time, keeps the execution invariant and never changes a resolved future |
| ExecutorSafety.RecordedOnce | agentinfer/agentbench/replay/executor.py:207-275 | in every interleaving a node is recorded exactly once if finished and never otherwise |
| ExecutorSafety.SkippedExactly | agentinfer/agentbench/replay/executor.py:302-312 | a finished request was skipped exactly when its context finished without a successful exchange |
| ExecutorSafety.SentInOrder | agentinfer/agentbench/replay/executor.py:322-366 | every send, once in flight and whatever becomes of it, comes no earlier than the predecessor's finish plus the interval and its context's success |
| ExecutorSafety.SendOutcomeIrrelevant | agentinfer/agentbench/replay/executor.py:277-296 | whether the send predecessor failed changes none of a node's moves |
| ExecutorSafety.InflightBounded | agentinfer/agentbench/replay/executor.py:354-361 | snapshot requests in flight never exceed the limit |
| ExecutorProgress.MoveLowersWork | agentinfer/agentbench/replay/executor.py:277-404 | every move lowers the remaining work |
| ExecutorProgress.RunsAreFinite | agentinfer/agentbench/replay/executor.py:277-404 | no run makes more moves than the work it starts with |
| ExecutorProgress.Unblocked | agentinfer/agentbench/replay/executor.py:295-320 | where the binding edges have no cycle, some unfinished node has everything it awaits finished |
| ExecutorProgress.Progress | agentinfer/agentbench/replay/executor.py:207-404 | in any reachable unfinished state of such a plan some node can move, full slots included |
| ExecutorProgress.Completes | agentinfer/agentbench/replay/executor.py:207-404 | such a state can be driven to completion, and from then on only nodes bound to fail do |
| ExecutorProgress.CompletionOrders | agentinfer/agentbench/replay/executor.py:277-404 | the recording order of any finished run in which only doomed nodes fail ranks all binding edges |
| ExecutorProgress.DoomedStep | agentinfer/agentbench/replay/executor.py:302-320 | a node is bound to fail exactly if its root prompt is missing, its context is no request, or its context is itself bound to fail |
| Acyclicity.RanksIffAcyclic | agentinfer/agentbench/replay/planner.py:316-334 | a finite graph can be ranked exactly when it has no cycle |
| ExecutorProgress.OrderedIffAcyclic | agentinfer/agentbench/replay/executor.py:295-320 | the binding edges of a plan can be ranked exactly when they have no cycle |
| ExecutorProgress.BenignRun | agentinfer/agentbench/replay/executor.py:207-404 | in a plan that never deadlocks a run without avoidable failures can be continued to the end without any |
| ExecutorProgress.NeverDeadlocksIffOrdered | agentinfer/agentbench/replay/executor.py:176-205 | every state that any run can reach, whatever failed, can still be finished if and only if the binding edges have no cycle |
| ExecutorProgress.SucceedsIffRanked | agentinfer/agentbench/replay/planner.py:316-334 | where no node is bound to fail: some run succeeds throughout, every reachable state can be finished, and send and context edges together have no cycle, are the same |
| ExecutorProgress.OrderRanks | agentinfer/agentbench/replay/planner.py:241-313 | plan order ranks the send and context edges of an analyzed task |
| ExecutorProgress.PlannedNeverDeadlocks | agentinfer/agentbench/replay/executor.py:176-205 | every run of an analyzed plan, whatever failed so far, extends to one that finishes every node |
| ExecutorProgress.MixedCycleDeadlocks | agentinfer/agentbench/replay/planner.py:316-334 | a plan the validator accepts of which no run finishes either node |
| TokenSource.SequencesExtend | agentinfer/agentbench/replay/prompt.py:376-393 | a longer request for a namespace's tokens extends a shorter one |
| MutableSpans.CutFixed | agentinfer/agentbench/replay/prompt.py:585-596 | cutting inside a span and shifting the later spans leaves the tokens outside all spans untouched |
| MutableSpans.CutSpan | agentinfer/agentbench/replay/prompt.py:587-594 | the in-place cut and shift loop yields exactly the cut tokens and spans |
| MutableSpans.DropEmpty | agentinfer/agentbench/replay/prompt.py:598 | dropping emptied spans keeps the fixed tokens and leaves sorted, disjoint, non-empty spans |
| MutableSpans.PadFixed | agentinfer/agentbench/replay/prompt.py:599-602 | filler becomes a new last span and leaves the fixed tokens unchanged |
| TokenPromptModel.TrimTail | agentinfer/agentbench/replay/prompt.py:584-598 | the trim loop removes exactly the deficit, keeps the fixed tokens, and the reported prefix is where exactly that many filler tokens follow |
| TokenPromptModel.TokenPrompt | agentinfer/agentbench/replay/prompt.py:545-627 | succeeds exactly when a prompt can be built; then it has the target length, correct spans, fixed tokens, a genuine common prefix, and never both trims and pads |
| ConversationChain.ChainKeepsStory | agentinfer/agentbench/replay/prompt.py:545-627 | along any chain of turns the tokens outside the spans are the root's shared segments followed by every actual output and continuation segment |
| ConversationChain.UntrimmedPromptsExtend | agentinfer/agentbench/replay/prompt.py:545-627 | while nothing is trimmed each prompt begins with every earlier prompt |
| ConversationChain.TrimPreservesMost | agentinfer/agentbench/replay/prompt.py:584-598 | no longer prefix leaves enough recorded filler behind it to cover the deficit |
| PlannedTrims.PlannedModesFit | agentinfer/agentbench/replay/planner.py:223-238 | a planned append or trim fits at run time unless a trim exceeds the recorded filler of its predecessor |
| PlannedTrims.PlannedMode | agentinfer/agentbench/replay/planner.py:223-238 | a kept context is trimmed exactly if planned predecessor, output and continuation segment exceed the target, and then by no more than the limit |
| MutableSpans.FixedWidth | agentinfer/agentbench/replay/prompt.py:576-602 | fixed tokens and recorded filler add up to the prompt |
| PlannedConversations.StoryLength | agentinfer/agentbench/replay/prompt.py:545-627 | along any chain the tokens outside recorded filler are as many as the plan alone says |
| PlannedConversations.TrimFitsIff | agentinfer/agentbench/replay/prompt.py:576-598 | after any chain a trim fits exactly if those tokens, the output and the new segment fit the target |
| PlannedConversations.TurnBuildable | agentinfer/agentbench/replay/planner.py:223-238 | a planned turn can be built exactly if its planned number of protected tokens fits its planned target |
| PlannedConversations.ChainsAsPlanned | agentinfer/agentbench/replay/planner.py:206-313 | every chain of continuations in the plan of an analyzed session has the modes these results assume |
| PlannedConversations.ReplayConversation | agentinfer/agentbench/replay/prompt.py:545-627 | a planned conversation is built up to the first turn whose protected tokens exceed the target, and to the end if there is none |
| RefusedTrim.PlannedTrimRefused | agentinfer/agentbench/replay/prompt.py:576-583 | a trim that the planner chooses after a root prompt without filler cannot be built |
| TraceLab.FillerTokenIds | agentinfer/agentbench/replay/prompt.py:395-409 | exact length, a first token other than the forbidden one, taken from the first variant and position that allow it; fails exactly when none does or an earlier seed is empty |
| TraceLab.WarmupExceeds | agentinfer/agentbench/replay/unified_trace_ir.py:382-386 | the declared warmup is longer than every root's reused prefix, so its lookup stays in bounds |
| TraceLab.FirstFree | agentinfer/agentbench/replay/prompt.py:661-665 | the first candidate neither used at this prefix nor the warmup's own token, absent only if there is none |
| TraceLab.PrepareWarmup | agentinfer/agentbench/replay/prompt.py:629-669 | every root with a suffix gets a branch token that differs from the warmup and from other roots of the same prefix; tokens run out exactly if more roots branch off at one prefix than there are candidates other than the warmup token |
| TraceLab.TraceLabPrompt | agentinfer/agentbench/replay/prompt.py:744-803 | exact target length, the reused prefix copied, divergence at the first new token, and for every refusal its exact cause |
| TraceLab.RootsShareReused | agentinfer/agentbench/replay/prompt.py:629-669 | any two root prompts share exactly the smaller of their reused prefixes |
| TraceLab.ContinuationSharesReused | agentinfer/agentbench/replay/prompt.py:744-779 | a continuation shares exactly its reused prefix with its predecessor's transcript |
| TraceLab.BuildRoots | agentinfer/agentbench/replay/prompt.py:629-803 | every pair of roots shares exactly the smaller reused prefix; it fails exactly for want of branch tokens or of a filler seed |
| HashSnapshots.ExtensionKeepsPrefix | agentinfer/agentbench/replay/hash_snapshot.py:69-95 | extending a recipe's hash list extends its rendering, even past a partial last block |
| RecencyOrder.AdmitNewest | agentinfer/agentbench/replay/hash_snapshot.py:54-66 | evicting before or after touching a key keeps the same newest entries |
| RecencyOrder.CacheHoldsMostRecent | agentinfer/agentbench/replay/hash_snapshot.py:54-66 | after any calls the cache holds exactly the most recently used keys in order of last use |
| TokenBlockModel.TokenBlockRenderer.FreshBlock | agentinfer/agentbench/replay/hash_snapshot.py:57-62 | the digest loop produces the block of the endless digest stream |
| TokenBlockModel.TokenBlockRenderer.RenderBlock | agentinfer/agentbench/replay/hash_snapshot.py:50-67 | the cached form returns the uncached block and updates the cache in least-recently-used order |
| TokenBlockModel.TokenBlockRenderer.Render | agentinfer/agentbench/replay/hash_snapshot.py:69-95 | any sequence of calls yields the uncached tokens, exactly as many as the recipe asks for |
| ProgramIndex.IndexAttach | agentinfer/scheduling/program_registry.py:213-231 | attaching one reference gives the index recomputed from the live programs |
| ProgramIndex.IndexDetach | agentinfer/scheduling/program_registry.py:217-242 | detaching one reference, with its emptied bucket, gives the recomputed index |
| RegistrySpec.ReleasedStaysDead | agentinfer/scheduling/program_registry.py:54-91 | an issued generation that is no longer live stays dead under every later materialize and release |
| RegistrySpec.ReleaseKillsOne | agentinfer/scheduling/program_registry.py:164-183 | a release ends exactly the named generation |
| RegistrySpec.OrphanedIndex | agentinfer/scheduling/program_registry.py:164-183 | clearing the children of a released parent removes exactly its bucket |
| BlockingEdges.AttachExact | agentinfer/scheduling/program_registry.py:227-251 | attaching a child edge keeps every live parent's blocking children and flag exact, child first or parent first |
| BlockingEdges.DetachExact | agentinfer/scheduling/program_registry.py:233-251 | the same for detaching |
| BlockingEdges.DepartExact | agentinfer/scheduling/program_registry.py:164-183 | a departing parent leaves every remaining relation cache exact |
| ProgramRegistryModel.ProgramRegistry.Get | agentinfer/scheduling/program_registry.py:98-101 | a record is found exactly for a live generation |
| ProgramRegistryModel.ProgramRegistry.AttachTask | agentinfer/scheduling/program_registry.py:213-215 | task membership gains exactly this reference |
| ProgramRegistryModel.ProgramRegistry.DetachTask | agentinfer/scheduling/program_registry.py:217-225 | task membership loses exactly this reference, and an emptied bucket disappears |
| ProgramRegistryModel.ProgramRegistry.RefreshParent | agentinfer/scheduling/program_registry.py:244-255 | a live parent's blocking children and flag are re-derived from the edge index |
| ProgramRegistryModel.ProgramRegistry.AttachParentEdge | agentinfer/scheduling/program_registry.py:227-231 | a blocking child is indexed under its parent and the parent refreshed |
| ProgramRegistryModel.ProgramRegistry.DetachParentEdge | agentinfer/scheduling/program_registry.py:233-242 | the edge and an emptied bucket disappear and the parent is refreshed |
| ProgramRegistryModel.ProgramRegistry.Materialize | agentinfer/scheduling/program_registry.py:54-91 | refuses a changed task, else creates or refreshes the program with all indexes equal to recomputed ones |
| ProgramRegistryModel.ProgramRegistry.ApplyMetadata | agentinfer/scheduling/program_registry.py:185-211 | moves task membership and edges in place and keeps the indexes exact |
| ProgramRegistryModel.ProgramRegistry.Relink | agentinfer/scheduling/program_registry.py:193-206 | a changed parent or blocking flag moves the edge and refreshes both parents |
| ProgramRegistryModel.ProgramRegistry.OrphanChildren | agentinfer/scheduling/program_registry.py:171-177 | exactly the live blocking children of the released parent lose their parent |
| ProgramRegistryModel.ProgramRegistry.Release | agentinfer/scheduling/program_registry.py:164-183 | removes the program, orphans its children and keeps the indexes exact |
| ProgramRegistryModel.ProgramRegistry.TaskPrograms | agentinfer/scheduling/program_registry.py:114-117 | the task index lists exactly the live members of a task |
| RequestPoolSpec.AdmitAllEffect | agentinfer/scheduling/runtime.py:541-544 | admitting a program's attempts changes its waiting attempts and nothing else |
| RequestPoolModel.RequestPool.Add | agentinfer/scheduling/request_pool.py:68-72 | an attempt is retained unless its id is already there |
| RequestPoolModel.RequestPool.WaitingRequestIds | agentinfer/scheduling/request_pool.py:56-61 | lists exactly the waiting attempts, each once |
| RequestPoolModel.RequestPool.Admit | agentinfer/scheduling/request_pool.py:83-91 | only a waiting attempt is admitted, with its one-shot decision |
| RequestPoolModel.RequestPool.ConsumeAdmitted | agentinfer/scheduling/request_pool.py:93-101 | hands over exactly the decided attempts in decision order and leaves no decision |
| RequestPoolModel.RequestPool.ConsumeAdmittedRequest | agentinfer/scheduling/request_pool.py:103-112 | hands over one decided attempt, else changes nothing |
| RequestPoolModel.RequestPool.Cancel | agentinfer/scheduling/request_pool.py:114-117 | withdraws an attempt and its decision together |
| SchedulerSpec.AppliedInv | agentinfer/scheduling/runtime.py:490-539 | every transition keeps the scheduler invariant |
| SchedulerSpec.ResultMatches | agentinfer/scheduling/transitions.py:88-122 | results always pass their constructor's and the controller's checks |
| SchedulerSpec.AppliedWaiting | agentinfer/scheduling/runtime.py:490-544 | no transition leaves a waiting attempt with a program that is not paused |
| SchedulerSpec.ActivationAdmitsAll | agentinfer/scheduling/runtime.py:496-502 | the step that activates a program admits all its waiting attempts |
| SnapshotFold.FoldAgrees | agentinfer/scheduling/runtime.py:546-574 | folding the accepted ledger never misses a key and keeps the views equal to the registry's core facts |
| SnapshotFold.AdvanceViews | agentinfer/scheduling/runtime.py:554-568 | the loop over the local dictionary computes that fold, including a missing key |
| SnapshotFold.AdvancedSnapshot | agentinfer/scheduling/runtime.py:546-574 | the advanced snapshot lists the folded views and their paused programs |
| SnapshotFold.AdvanceEqualsReread | agentinfer/scheduling/runtime.py:546-599 | for any hook, advancing equals re-reading on refs, order, core facts and waiting list, and passes the snapshot's checks |
| SnapshotFold.AdvanceEqualsRereadFrom | agentinfer/scheduling/runtime.py:250-255 | the same from a snapshot that was itself advanced |
| SchedulerOps.ImmediateGrantFindsAttempt | agentinfer/scheduling/runtime.py:215-223 | the "not committed" error is unreachable after any hook |
| SchedulerOps.PauseKeepsPeriod | agentinfer/scheduling/runtime.py:607-622 | a pause moves anchor and deadline together and keeps the freshness period |
| MarkedPrograms.CancelKeepsMark | agentinfer/scheduling/runtime.py:455-488 | cancelling a marked program's request keeps the mark, and the program acts exactly if that was its only request |
| MarkedPrograms.CompletionMarked | agentinfer/scheduling/runtime.py:350-426 | a completion that ends a marked program's reasoning consumes the mark |
| MarkedPrograms.StepMarked | agentinfer/scheduling/runtime.py:154-488 | every operation keeps marked programs reasoning, except exactly the cancellation of a marked program's only request |
| MarkedPrograms.RunMarked | agentinfer/scheduling/runtime.py:154-544 | in every run without such a cancellation marked programs are reasoning |
| SchedulerExamples.MarkedProgramActs | agentinfer/scheduling/runtime.py:455-488 | a run from the empty scheduler that ends with a marked program acting |
| SchedulerExamples.QueuedAtActive | agentinfer/scheduling/runtime.py:154-238 | a run from the empty scheduler that ends with a request waiting at an active program |
| PrefixHits.PairIsOneReport | agentinfer/scheduling/runtime.py:292-306 | the accounted whole and shared hit always come from one report, the last that gave both |
| PrefixHits.PartOfLocalIff | agentinfer/scheduling/runtime.py:307-311 | exactly which report leaves the unreferenced part larger than the local hit |
| PrefixHits.PartOutlivesLocal | agentinfer/scheduling/runtime.py:307-311 | two reports after which it is larger |
| PrefixHits.RunHits | agentinfer/scheduling/runtime.py:284-348 | in every run the accounted hits lie within the prompt and a shared hit within its whole |
| PrefixHits.StepPartsLocal | agentinfer/scheduling/runtime.py:284-348 | among all operations exactly an undercutting report leaves an unreferenced part larger than its local hit |
| PrefixHits.RunPartsLocal | agentinfer/scheduling/runtime.py:284-348 | in every run without such a report the unreferenced part stays within the local hit |
| SchedulerOps.StepInv | agentinfer/scheduling/runtime.py:154-488 | every entry point keeps the invariant |
| SchedulerOps.StepKeys | agentinfer/scheduling/runtime.py:154-488 | which attempts each entry point retains |
| SchedulerOps.StepConserves | agentinfer/scheduling/request_pool.py:68-117 | no entry point loses or duplicates an attempt |
| SchedulerOps.BusyActiveStays | agentinfer/scheduling/runtime.py:490-539 | no hook can pause or release a busy active program |
| SchedulerOps.ArrivalStrandsIff | agentinfer/scheduling/runtime.py:154-238 | exactly when an arrival strands its own attempt |
| SchedulerOps.StepWaiting | agentinfer/scheduling/runtime.py:154-488 | every other operation keeps waiting attempts with paused programs |
| SchedulerOps.RunSafety | agentinfer/scheduling/runtime.py:154-544 | over every run: consistent tables, each arrival retained, handed over or cancelled exactly once, and nothing stranded by a strategy that queues only inactive programs |
| SchedulerModel.ProgramScheduler.ApplyTransition | agentinfer/scheduling/runtime.py:490-539 | commits or rejects with the specified result and new state |
| SchedulerModel.ProgramScheduler.Commit | agentinfer/scheduling/runtime.py:496-527 | the mutation of an accepted transition and the state it reports |
| SchedulerModel.ProgramScheduler.RunStrategy | agentinfer/scheduling/runtime.py:208-213 | a hook's transitions are applied in order and the accepted ones recorded |
| SchedulerModel.ProgramScheduler.PopBinding | agentinfer/scheduling/runtime.py:647-656 | removes a binding from both tables and an emptied request set with it |
| SchedulerModel.ProgramScheduler.RestartFreshness | agentinfer/scheduling/runtime.py:607-622 | stores the paused record with anchor and deadline rebased |
| SchedulerModel.ProgramScheduler.AdmitProgramRequests | agentinfer/scheduling/runtime.py:541-544 | the loop admits exactly the program's waiting attempts |
| SchedulerModel.ProgramScheduler.OnRequestArrival | agentinfer/scheduling/runtime.py:154-238 | the whole new state of an arrival, for any hook and answer, and a decision snapshot that lists as waiting exactly the paused programs other than one just created; refused only for a duplicate id or a changed task |
| SnapshotFold.ExcludingMeans | agentinfer/scheduling/runtime.py:576-599 | the admission snapshot passes the snapshot's checks and leaves out only the candidate |
| SchedulerModel.ProgramScheduler.BindRequest | agentinfer/scheduling/runtime.py:163-195 | the new state of all tables when an attempt is bound and retained, and the program it created |
| SchedulerModel.ProgramScheduler.Grant | agentinfer/scheduling/runtime.py:216-222 | an immediate admission always finds and hands over its attempt |
| SchedulerModel.ProgramScheduler.OnRequestCompletion | agentinfer/scheduling/runtime.py:350-426 | the whole new state of a completion, pausing a marked program that went idle |
| SchedulerModel.ProgramScheduler.OnResponseCompletion | agentinfer/scheduling/runtime.py:428-453 | a terminal response releases only an idle acting program |
| SchedulerModel.ProgramScheduler.CancelRequest | agentinfer/scheduling/runtime.py:455-488 | withdraws the attempt and its binding, and releases a program that never ran |
| SchedulerModel.ProgramScheduler.Withdraw | agentinfer/scheduling/runtime.py:458-467 | a cancelled attempt is unbound and its program's status recomputed |
| SchedulerModel.ProgramScheduler.OnPrefixCacheObservation | agentinfer/scheduling/runtime.py:284-348 | accounts the hit to its attempt, and refreshes the shared-prefix estimate only when due, with its deadline from the pause anchor |
| SchedulerModel.ProgramScheduler.ConsumeAdmittedRequests | agentinfer/scheduling/runtime.py:261-268 | hands every decided attempt to the host in decision order |
| SchedulerModel.ProgramScheduler.ScheduleCycle | agentinfer/scheduling/runtime.py:240-259 | does nothing unless a cycle is needed; else runs the hooks in order on snapshots that equal re-reading the registry, the timed check exactly if the strategy's answer to the last event before it is due, and no later poll is needed before the new deadline or the next period |
| SchedulerModel.ProgramScheduler.NeedsScheduleCycle | agentinfer/scheduling/runtime.py:130-141 | a poll enters the strategy for a passed cached deadline, or after a period with anything retained, changed or registered |
| SchedulerModel.ProgramScheduler.Consult | agentinfer/scheduling/runtime.py:677 | every event replaces the cached deadline by the latest answer of the strategy and changes nothing else |
| SchedulerModel.TransitionController.Apply | agentinfer/scheduling/transitions.py:111-122 | the ledger records exactly the accepted requests |
| SchedulerModel.TransitionController.TakeAppliedRequests | agentinfer/scheduling/transitions.py:124-128 | returns the ledger and clears it |
| RequestSamples.SanitizedOk | agentinfer/scheduling/progress_ttl/rolling_stats.py:472-549 | whatever is reported, only credible non-negative values are kept, cached within prompt and growth below the context it was added to |
| RequestSamples.SplitTotals | agentinfer/scheduling/progress_ttl/rolling_stats.py:510-518 | cached and uncached totals add up to prompt totals over any window |
| CoveredTime.MergeNext | agentinfer/scheduling/progress_ttl/rolling_stats.py:240-246 | one merge step keeps the closed-off parts separated and their length equal to what they cover |
| CoveredTime.CoveredSeconds | agentinfer/scheduling/progress_ttl/rolling_stats.py:229-250 | the sort-and-merge loop computes the measure of the union of the intervals |
| CoveredTime.CoverageUnique | agentinfer/scheduling/progress_ttl/rolling_stats.py:229-250 | a union of intervals is a sequence of separated parts in one way only |
| CoveredTime.MeasureUnique | agentinfer/scheduling/progress_ttl/rolling_stats.py:229-250 | hence the measure of the union is well defined |
| RollingModel.SplitMeans | agentinfer/scheduling/progress_ttl/rolling_stats.py:595-618 | cached plus uncached average equals the prompt average |
| RollingModel.RollingFactors.UpdateRequest | agentinfer/scheduling/progress_ttl/rolling_stats.py:148-188 | the window is the last samples of the whole history, every running sum is its sum, and mature averages are its means or, unreported, unchanged |
| RollingModel.RollingFactors.Append | agentinfer/scheduling/progress_ttl/rolling_stats.py:551-569 | appending a sample keeps every running sum the sum over the window |
| RollingModel.RollingFactors.RemoveOldest | agentinfer/scheduling/progress_ttl/rolling_stats.py:571-589 | removing the oldest sample keeps them so |
| RollingModel.RollingFactors.Evict | agentinfer/scheduling/progress_ttl/rolling_stats.py:571-593 | eviction leaves the newest samples and their sums |
| RollingModel.RollingFactors.Refresh | agentinfer/scheduling/progress_ttl/rolling_stats.py:595-618 | averages become window means once mature, and unreported columns keep their value |
| RollingModel.RollingFactors.GrowthTotals | agentinfer/scheduling/progress_ttl/rolling_stats.py:610-614 | growth is added up over the samples that report it |
| RollingModel.RollingFactors.UpdateTtlPause | agentinfer/scheduling/progress_ttl/rolling_stats.py:190-198 | the pause window is the last pauses and its average their mean |
| RollingModel.RollingFactors.ObserveRequestInterval | agentinfer/scheduling/progress_ttl/rolling_stats.py:200-226 | rejects unordered intervals and retains the last ones |
| RollingModel.RollingFactors.RequestThroughput | agentinfer/scheduling/progress_ttl/rolling_stats.py:228-250 | throughput times the measure of the covered time is the number of retained completions, and zero without coverage |
| RollingModel.RollingFactors.ObserveContinuity | agentinfer/scheduling/progress_ttl/rolling_stats.py:278-300 | the window holds the last observations with their utilities, the new one included, and a complete window's utility is their sum |
| RollingModel.ReassignedSlides | agentinfer/scheduling/progress_ttl/rolling_stats.py:278-300 | a new observation pushes the same oldest entry out of the window and of the history it mirrors |
| RollingModel.RollingFactors.RecalibrateContinuity | agentinfer/scheduling/progress_ttl/rolling_stats.py:302-329 | re-estimating changes TTL and utility of every retained sample and nothing else; a ratio outside zero to one is refused once the window is complete |
| RollingModel.RollingFactors.UpdateContinuityMode | agentinfer/scheduling/progress_ttl/rolling_stats.py:331-348 | between the thresholds the mode stays, outside it follows the utility |
| SseFraming.BoundaryStable | agentinfer/agentbench/request_proxy/observers.py:47-53 | the first boundary of a part of the stream stays first when more bytes arrive, for both line endings |
| SseFraming.EarliestBoundary | agentinfer/agentbench/request_proxy/observers.py:47-52 | searching both patterns from the start finds the first boundary |
| SseFraming.FrameConcat | agentinfer/agentbench/request_proxy/observers.py:43-53 | framing a stream piecewise gives the events and remainder of the whole |
| SseFraming.RestHasNone | agentinfer/agentbench/request_proxy/observers.py:46-53 | the bytes kept in the buffer hold no complete event |
| UsageEvents.CountersAreLastReports | agentinfer/agentbench/request_proxy/observers.py:68-78 | each counter holds the value of the last event that reported it |
| UsageEvents.CompletedMeans | agentinfer/agentbench/request_proxy/observers.py:62-103 | the stream counts as completed exactly when some event says so |
| UsageEvents.ChunkingIsIrrelevant | agentinfer/agentbench/request_proxy/observers.py:43-123 | however a stream is split, both observers end as if they had parsed it once |
| UsageEvents.SplitsAgree | agentinfer/agentbench/request_proxy/observers.py:43-123 | any two ways of splitting one stream end in the same state |
| UsageEvents.ContentObservedOnce | agentinfer/agentbench/request_proxy/observers.py:43-123 | some call reports content exactly when the whole stream carries some |
| UsageObservers.SseUsageObserver.Observe | agentinfer/agentbench/request_proxy/observers.py:43-123 | the buffer loop takes off every complete event and folds it in |
| ResponseLifecycle.OfChoices | agentinfer/agentcache/core/api_adapter.py:607-624 | the choice loop continues on any tool call, else ends on any stop |
| LifecycleMeaning.LinesConcat | agentinfer/agentcache/core/api_adapter.py:501-516 | splitting a stream into lines piecewise gives the lines of the whole |
| LifecycleMeaning.MergedMeans | agentinfer/agentcache/core/api_adapter.py:539-548 | the merged outcome continues if any line does, else ends if any does, else is unknown |
| LifecycleMeaning.OverflowStays | agentinfer/agentcache/core/api_adapter.py:501-519 | a response that is too long stays too long |
| LifecycleObserverModel.LifecycleObserver.ObserveJson | agentinfer/agentcache/core/api_adapter.py:539-548 | one payload is merged, a continuation being final |
| LifecycleObserverModel.LifecycleObserver.ObserveSseLine | agentinfer/agentcache/core/api_adapter.py:532-537 | only a data line with content other than the end mark counts |
| LifecycleObserverModel.LifecycleObserver.Feed | agentinfer/agentcache/core/api_adapter.py:501-519 | the state is a function of the bytes fed, overflow included |
| LifecycleObserverModel.LifecycleObserver.FeedLines | agentinfer/agentcache/core/api_adapter.py:505-516 | consuming complete lines keeps lines, remainder and overflow those of all bytes fed |
| LifecycleObserverModel.LifecycleObserver.Finish | agentinfer/agentcache/core/api_adapter.py:521-530 | the outcome is that of parsing the whole response once |
| LifecycleObserverModel.ObserveChunks | agentinfer/agentcache/core/api_adapter.py:477-548 | for every way of chunking, the outcome is that of the concatenated response |

## Left out

- PlanAcceptance.AnalyzedSessionAccepted: does not cover the TraceLab shape, whose sessions come from a trace adapter without success evidence rather than from the analyzer; the validator itself is modelled for them.
- HashSnapshots.ExtensionKeepsPrefix: digests are a parameter and the four-byte counter's overflow after 2^32 digests is not modelled.
- UsageObservers.SseUsageObserver.Observe: the two observer classes share one loop and differ in the effect of an event; JSON errors other than an undecodable payload are not modelled.
- ExecutorSafety.StepInv: cancellation, timeouts and the concurrency limit across tasks are not modelled, prompt building and transport are arbitrary outcomes, and timers never fire early.
- RollingModel.RollingFactors.UpdateRequest: averages start from their default values and floating-point rounding is not modelled.
- RollingModel.RollingFactors.RecalibrateContinuity: the fitted interval distribution and the TTL optimum are an arbitrary estimator.
- SchedulerModel.ProgramScheduler.ScheduleCycle: the strategy's successive deadlines are an arbitrary sequence of answers; refusing an invalid one, lightweight checks and diagnostics are not modelled.
- SchedulerModel.ProgramScheduler.OnRequestArrival: empty request ids, backend-information checks and telemetry fields are not modelled.
- The concrete strategy: any finite sequence of requested transitions stands for it, so its own decisions are not described.
- AgentX plans: snapshot lookup by byte offset and pruned timing dependencies.
- Prompt-kind heuristics: prompt kinds are an arbitrary classification of rows.
- Lognormal intervals, deterministic sampling seeds and calibration of text prompts.
- The depth limit of the host language on the recursive cycle check.
- Row parsing, configuration validation, file and network handling, command line and reports.
