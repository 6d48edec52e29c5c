# Verified model of the dynamic decision engine

The engine turns a goal into an immutable, versioned plan of ranked moves and revises the plan when signals arrive.
This project models its hardest components in Dafny and proves what they keep over every input and every run.
`dafny verify dfyconfig.toml` checks all of it.

| file | component |
|---|---|
| `Calibration.dfy` | confidence calibration: binning, weighted pool-adjacent-violators, rounding, interpolation |
| `MoveGraph.dfy`, `MoveCycles.dfy` | the move dependency graph: the sanitiser, and the search that describes one cycle |
| `ReplanQueue.dfy` | the asynchronous replan queue: critical sections as methods of a class, interleavings as a state machine |
| `Versioning.dfy` | the in-memory store and any number of concurrent replans under optimistic concurrency |
| `ReplanOutcomes.dfy` | which status a replan ends with, and that its signal shows it |
| `QueuedReplans.dfy` | queue and store together: replans that run only as the queue's handlers |
| `Materiality.dfy`, `Replanner.dfy` | when a regenerated plan becomes a new version; one replan from gate to verdict |
| `JudgedReplans.dfy` | concurrent replans whose verdicts are the evaluator's, with a planner that is a function of the signal |
| `BarCache.dfy`, `MarketCache.dfy` | the market-data cache: bar ranges with their split, and all requests under concurrency with shared flights |
| `Selection.dfy` | strategy selection with hysteresis, and its offline replay |
| `Portfolio.dfy` | correlation, aggregate risk, scaling to a risk cap |
| `PlanCache.dfy` | the LRU plan cache |
| `Domain.dfy`, `Wrappers.dfy`, `Rounding.dfy`, `Products.dfy` | moves and bars, an option type, decimal rounding, named products of reals |

`float64` is modelled by `real`, so only the explicit rounding to two and four decimals loses precision.
Clock readings, planner answers, gate verdicts, utilities, hard-filter verdicts, title normalisation, the wrapped
market-data provider and the square root (characterised by its square) are parameters or free choices of a step.

How the pieces fit: code that mutates fields, maps or arrays is a class or a method with loops, and its `ensures` ties
the new state to a function or a predicate that knows nothing of the loop. The concurrent components (queue, versioning,
market-data cache) are state machines over atomic steps, one step per critical section or channel operation; their steps apply the
same functions that the class methods refine, and the main results quantify over all runs.

## Where the code and its documentation differ

- `internal/engine/evaluator.go:102-104` says the dependency comparison ignores duplicates. It is set equality only if the
  second list has none (`Materiality.SameStringSet`), which holds for every sanitised list.
- `internal/app/service.go:100-102` says re-running a replan whose version was written is immaterial. With a planner that
  makes the same raw proposal again, and while the written version is current, this holds exactly if the proposal has moves
  and, once sanitised, moves sharing a key agree in their execution structure (`Replanner.RerunOfWrittenVersion`;
  `Materiality.RerunNotIdempotent` is a plan that differs from itself). Over whole runs: exactly then a signal's job never
  writes two versions of a plan in a row (`JudgedReplans.WrittenAgainIff`), and it writes a second one only after a commit for
  another signal (`JudgedReplans.RecommitNeedsAnother`). After such a commit it can: failing to mark a signal is only logged
  (`internal/app/worker.go:137-141`), so the signal stays pending and its job is run again
  (`JudgedReplans.AlternatesIff`). In the run of `JudgedReplans.RerunAfterAnotherCommit` version 4 repeats version 2.
- `internal/domain/move_graph.go:169` promises an "a -> b -> a" description. The code follows, from the first move that leads
  to a cycle, always the first reference that does (`MoveCycles.Lasso`). The description closes on its first key exactly if
  this walk comes back to its start (`MoveCycles.DescriptionClosesIff`); `MoveCycles.LeadInReported` is reported as
  "x -> a -> b -> a".
- `internal/marketdata/cache.go:268-279` treats every error that wraps `ErrNotFound` as an empty chunk, also one joined
  with an outage. The answer is exact for every market that agrees with the replies if and only if an error is passed on, or
  no chunk that may hold a daily bar failed with such a joined fault (`BarCache.ExactForAllMarketsIff`).
  The running cache meets the same condition, in sequence (`BarCache.CachingProvider.HistoricalBars`) and with any other
  callers in between (`MarketCache.SpanningRangeExactIff`). `BarCache.JoinedFaultLosesBars` loses a bar,
  `BarCache.JoinedFaultHidesBars` reports "not found" for a bar that exists.
- `internal/marketdata/cache.go:90-94` says waiters share the leader's outcome. A fetch that panics leaves its flight behind
  (lines 106-120 have no `defer`), and a worker survives the panic (`internal/app/replan_queue.go:245-251`). A waiter can wake
  or has its flight underway if and only if no leader of that flight panicked (`MarketCache.NoWaiterOrphanedIff`); after a
  panic the key is blocked for ever (`MarketCache.DeadLeaderBlocksKey`). `MarketCache.WaiterOrphaned` is such a run.
- `internal/marketdata/cache.go:182` keys a TTL bucket by its start in whole seconds. Keys separate buckets exactly if the
  TTL is at least one second (`MarketCache.KeysSeparateBucketsIff`).
- `internal/app/replan_queue.go:175-178` promises that distinct signals are never dropped. A send still outstanding when
  the channel closes strands its plan, and nothing else does (`ReplanQueue.DeliveredIffNoSendOutstanding`);
  `ReplanQueue.SendMeetsClosedChannel` is such a run.
- `internal/strategy/select.go:244-248` re-runs a past competition, but breaks ties by stated confidence where selection
  uses raw confidence. The two agree exactly if the winner also wins its ties by stated confidence
  (`Selection.ReplayAgreesIff`); `Selection.ReplayDiffersOnTie` is a tie on which they do not.
- `internal/llm/finance_planner.go:147-150` says the stated sizes are the capped ones. A broken thesis holds no position when
  the cap is computed, but its size is still rendered. The stated sizes of the others meet the cap
  (`Portfolio.LiveSizesMeetCap`); all of them do exactly under `Portfolio.AllSizesMeetCapIff`, and
  `Portfolio.BrokenSizeExceedsCap` is an input where they do not.

## Model

| member | source | states |
|---|---|---|
| Calibration.BinSamples | internal/finance/calibrate.go:69-79 | after the loop every array cell holds exactly the count and the successes of the samples whose confidence falls in that bin; which bin that is, `Calibration.SamplesObserved` says |
| Calibration.TallyTotal | internal/finance/calibrate.go:69-79 | every sample is counted in exactly one of the five bins |
| Calibration.SamplesObserved | internal/finance/calibrate.go:69-96 | the observations of a fit are the five fifths of [0,1] that hold samples, upwards, named by their midpoints; each weighs the number of its samples, and its rate times its weight is the number of successes among them |
| Calibration.FifthIsNear | internal/finance/calibrate.go:70-74 | a sample counts in the fifth around its clamped confidence, at most 0.1 from the midpoint |
| Calibration.ClampNearest | internal/finance/scoring.go:10-20 | the clamp picks the point of [0,1] nearest to the confidence |
| Calibration.PoolTail | internal/finance/calibrate.go:97-109 | the merging loop ends with non-decreasing rates, each block the weighted mean of its observations and each prefix of a block averaging at least the block |
| Calibration.MergePrefixes | internal/finance/calibrate.go:98-106 | pooling a violating pair keeps "every prefix averages at least the block", the invariant behind optimality |
| Calibration.MomentBound | internal/finance/calibrate.go:81-110 | summation by parts: with non-negative partial deviations, a non-decreasing assignment's moment is bounded by its last value |
| Calibration.GroupOptimal | internal/finance/calibrate.go:97-106 | inside one block no non-decreasing assignment beats the block's mean, by at least the weighted squared distance |
| Calibration.PooledRatesOptimal | internal/finance/calibrate.go:81-110 | any non-decreasing assignment costs at least the pooled rates' cost plus its weighted squared distance from them |
| Calibration.FitIsUniqueOptimum | internal/finance/calibrate.go:60-110 | for every sample list the pooled rates are the unique weighted least-squares optimum among non-decreasing assignments |
| Calibration.BlocksSpaced | internal/finance/calibrate.go:91-106 | midpoints of different blocks are at least 0.2 apart before rounding |
| Calibration.FitWellFormed | internal/finance/calibrate.go:112-116 | after rounding, midpoints stay at least 0.19 apart, rates non-decreasing and within [0,1] |
| Calibration.RoundedIsNear | internal/finance/calibrate.go:112-115 | every point of the curve is within 0.005 of its block and keeps the count |
| Calibration.FitCounts | internal/finance/calibrate.go:64-117 | bin counts add up to the sample count, and only the empty list gives the empty curve |
| Calibration.FitCalibration | internal/finance/calibrate.go:64-117 | the whole fit: the unique optimum for the success rates of the fifths that hold samples, rounded to within 0.005, a well-formed curve, all samples counted |
| Calibration.Apply | internal/finance/calibrate.go:37-58 | never divides by zero on any curve; identity when empty; on a well-formed curve equals piecewise-linear interpolation of the clamped confidence |
| Calibration.InterpolateMonotone | internal/finance/calibrate.go:35-58 | a well-formed curve is monotone and stays between its end rates |
| Calibration.InterpolateHitsPoints | internal/finance/calibrate.go:35-58 | the curve passes through every fitted point |
| Calibration.InterpolateLinear | internal/finance/calibrate.go:50-55 | between two neighbouring points the curve is the straight line through them |
| Calibration.InterpolateOutside | internal/finance/calibrate.go:43-49 | outside the fitted range the curve is constant |
| Rounding.Round2Near | internal/finance/scoring.go:23 | rounding to two decimals moves a value by at most 0.005 |
| Rounding.Round2Iff | internal/finance/scoring.go:22-23 | rounding picks the nearest hundredth, halves away from zero |
| Rounding.Round4Monotone | internal/strategy/utility.go:190-192 | rounding to four decimals keeps order |
| Rounding.Round4Iff | internal/strategy/utility.go:190-192 | rounding picks the nearest ten-thousandth, halves away from zero |
| Rounding.Round4Near | internal/strategy/utility.go:190-192 | rounding moves a value by at most 0.00005 and never across zero |
| MoveGraph.BuildIndex | internal/domain/move_graph.go:30-36 | the index lists, per non-empty key, exactly the moves carrying it, ascending |
| MoveGraph.CleanReferences | internal/domain/move_graph.go:45-60 | keeps the first occurrences of the references that are not empty, not the move itself and carried by some move |
| MoveGraph.CleanProperties | internal/domain/move_graph.go:48-57 | the kept references are duplicate-free and are exactly the resolving ones |
| MoveGraph.CleanOrder | internal/domain/move_graph.go:45-60 | the kept references stand in the order of their first occurrences |
| MoveGraph.CyclicIffKeyCyclic | internal/domain/move_graph.go:81-92 | a cycle of moves exists exactly if a cycle of keys does, also when moves share keys |
| MoveGraph.CycleBreaker.Visit | internal/domain/move_graph.go:75-101 | the recursive method computes the search function of its state: colours, removals, kept references and finishing order |
| MoveGraph.CycleBreaker.ScanTargets | internal/domain/move_graph.go:81-92 | the inner loop computes the target scan, which stops at the first carrier on the stack |
| MoveGraph.VisitFacts | internal/domain/move_graph.go:75-101 | searching from a move finishes it, keeps a topological finishing order over kept references, and justifies every removal by a move on the stack or a kept walk back |
| MoveGraph.TargetsFacts | internal/domain/move_graph.go:81-92 | a back edge is reported only for a key carried by a move on the stack, and then nothing was visited; otherwise all carriers are finished |
| MoveGraph.BreakCycles | internal/domain/move_graph.go:71-106 | the outer loop yields the removals of the complete search |
| MoveGraph.AllFacts | internal/domain/move_graph.go:102-106 | the complete search leaves every move finished and every removal explained |
| MoveGraph.StripAll | internal/domain/move_graph.go:108-123 | each move loses exactly the removed references, the rest stay in order |
| MoveGraph.FinishingOrderAcyclic | internal/domain/move_graph.go:75-106 | an order of all moves in which every edge leads to an earlier move excludes cycles |
| MoveGraph.OutcomeMaximal | internal/domain/move_graph.go:93-98 | putting a reference dropped by the cycle pass back closes a cycle of surviving references, for all inputs including shared keys |
| MoveGraph.DroppedNeedsEarlierMove | internal/domain/move_graph.go:75-106 | a move loses a reference to the cycle pass only if an earlier move still leads to it, so the first move keeps all of its own |
| MoveGraph.FirstReferenceWins | internal/domain/move_graph.go:75-106 | the search goes down the first reference first: if one move carries it, that move can lose only its reference back to the first move |
| MoveGraph.SanitizeMoveGraph | internal/domain/move_graph.go:22-126 | the result is exactly the sanitised list as a function of the input: which reference of a cycle goes is determined by the search order |
| MoveGraph.SanitizeCorrect | internal/domain/move_graph.go:11-22 | for every list: same moves, same order, a subsequence of the cleaned references, a valid acyclic graph, and maximal as such |
| MoveGraph.ValidDagIsFixed | internal/domain/move_graph.go:11-22 | a graph that is already valid comes back unchanged |
| MoveGraph.SanitizeIdempotent | internal/domain/move_graph.go:11-22 | sanitising twice is sanitising once |
| MoveCycles.CycleFinder.Dfs | internal/domain/move_graph.go:187-208 | either finishes the move with the stack restored, or returns the keys along the lasso the moves determine |
| MoveCycles.BackEdgeLasso | internal/domain/move_graph.go:195-197 | a reference from the top of the stack to a move on it completes the walk of first choices from the first move that leads to a cycle |
| MoveCycles.LassoIsCycle | internal/domain/move_graph.go:194-197 | what is reported ends in a real cycle |
| MoveCycles.LassoUnique | internal/domain/move_graph.go:186-216 | the reported walk is determined by the moves |
| MoveCycles.FindCycle | internal/domain/move_graph.go:171-217 | the answer is empty exactly if the graph is acyclic, and otherwise joins the keys along the lasso: from the first move that leads to a cycle, always the first reference that does, up to the first repetition |
| MoveCycles.DescriptionClosesIff | internal/domain/move_graph.go:169-197 | the description starts and ends with the same key exactly if following first choices comes back to its start |
| MoveCycles.DescriptionClosesWhenUnavoidable | internal/domain/move_graph.go:169-197 | it does when every cycle that can be reached passes through the first key |
| MoveCycles.LeadInReported | internal/domain/move_graph.go:169-197 | x -> a, a -> b, b -> a is reported with a lead-in |
| ReplanQueue.MemoryQueue.RecordSeen | internal/app/replan_queue.go:154-162 | records the ID and evicts the oldest when over the cap |
| ReplanQueue.MemoryQueue.EnqueueLocked | internal/app/replan_queue.go:180-195 | on the fields of the queue: answers closed exactly if it is closed, a no-op exactly if it is open and the ID is in the window, else appends the job and records its ID; a push is due exactly if the plan had no token |
| ReplanQueue.MemoryQueue.DrainLocked | internal/app/replan_queue.go:210-220 | hands out the oldest pending job, or releases the plan |
| ReplanQueue.MemoryQueue.CloseLocked | internal/app/replan_queue.go:258-264 | only the first shutdown closes the channel |
| ReplanQueue.MarkSeenKeepsSet | internal/app/replan_queue.go:154-162 | the seen set stays exactly the IDs in the window, all distinct |
| ReplanQueue.StepInv | internal/app/replan_queue.go:179-275 | every step of every enqueuer, worker and shutdown keeps the token, history, window and shutdown invariants |
| ReplanQueue.RunInv | internal/app/replan_queue.go:179-275 | the invariants hold in every reachable state |
| ReplanQueue.SerialisedPerPlan | internal/app/replan_queue.go:203-227 | a queued plan has exactly one token, so no two workers run it; handed jobs followed by pending ones are the accepted ones in order |
| ReplanQueue.IdempotencyWindow | internal/app/replan_queue.go:154-190 | the seen set is the last min(k, maxSeen) accepted IDs; an ID is accepted again only after at least maxSeen others |
| ReplanQueue.EnqueueAnswered | internal/app/replan_queue.go:175-200 | in every reachable state an enqueue is answered closed exactly after a shutdown was marked, a no-op exactly if the ID is among the last maxSeen accepted, and otherwise accepted, with a push exactly if nobody holds the plan |
| ReplanQueue.NoOpWasAccepted | internal/app/replan_queue.go:175-190 | whatever was answered as a no-op has the ID of an accepted job, one of the last maxSeen accepted before it |
| ReplanQueue.NothingAcceptedAfterClose | internal/app/replan_queue.go:181-183 | after a shutdown was marked nothing is accepted any more, and every enqueue is answered so |
| ReplanQueue.DeliveredIffNoSendOutstanding | internal/app/replan_queue.go:195-275 | once all workers exited, every accepted job was handed over exactly once and nothing is pending if and only if no send was outstanding at channel close; panicking handlers included |
| ReplanQueue.SendMeetsClosedChannel | internal/app/replan_queue.go:195-199 | a run in which an accepted job is never handed over |
| QueuedReplans.RunInv | internal/app/replan_queue.go:203-254 | in every interleaving of queue and store each handler works on a plan of its own that nobody else commits to |
| QueuedReplans.QueuedReplansNeverConflict | internal/app/replan_queue.go:123-126 | replans that run only through the queue never lose a race on the version write; a handler's replan is for the plan and the signal of its job |
| Versioning.MemoryRepository.CreatePlan | internal/storage/memory.go:196-208 | adds the head or reports a conflict, leaving the store unchanged |
| Versioning.MemoryRepository.WriteRow | internal/storage/memory.go:247 | writing one plan's table in place changes no other plan's versions |
| Versioning.MemoryRepository.CreatePlanVersion | internal/storage/memory.go:232-254 | appends an unused version number and advances the current one; never overwrites |
| Versioning.MemoryRepository.GetCurrentPlanVersion | internal/storage/memory.go:270-282 | the version named by the head, or not found |
| Versioning.MemoryRepository.MarkSignalProcessed | internal/storage/memory.go:324-339 | marks the first signal with the ID and no other |
| Versioning.MarkFirstFound | internal/storage/memory.go:327-337 | only the first signal with the ID changes |
| Versioning.MemoryRepository.Snapshot | internal/storage/memory.go:61-97 | a standalone copy with the same content, every version table of it new |
| Versioning.MemoryRepository.Adopt | internal/storage/memory.go:101-109 | takes over the staged containers |
| Versioning.MemoryRepository.CreatePlanTx | internal/app/service.go:301-318 | head and version 1 are both stored or neither is; the staged writes reach no table of the original |
| Versioning.StoreAllowsGaps | internal/storage/memory.go:243-252 | the store alone accepts a version that leaves a gap |
| Versioning.StepInv | internal/app/worker.go:22-61 | every step of every concurrent replan keeps contiguity, the commit count and each process's evidence, and only adds to the store |
| Versioning.VersionsContiguous | internal/app/worker.go:28-60 | in every reachable state a plan's versions are exactly 1 to the current one, which is one plus the material commits |
| Versioning.VersionsImmutable | internal/storage/memory.go:243-247 | a stored version is the same after every continuation of the run |
| Versioning.MarksNameStoredVersions | internal/app/worker.go:40-52 | an "applied" or "unchanged" mark names a stored version, and an "applied" one the version its own replan committed |
| Versioning.AppliedMarksDistinct | internal/app/worker.go:46-52 | no two "applied" marks of one plan name the same version |
| Versioning.ConflictNeedsThreeCommits | internal/app/worker.go:28-60 | giving up on conflicts needs three commits to that plan by others during the run |
| ReplanOutcomes.StatusIff | internal/app/worker.go:22-61 | over every run, a finished replan is unchanged exactly if its last verdict was immaterial or gated, with the version last read; applied exactly if its write was accepted, with the version written; failed, with version 0, exactly on a missing goal, a failed read, a planner error, a rejected write or the third conflict |
| ReplanOutcomes.NeverRejected | internal/app/worker.go:46-58 | no write of a replan is rejected other than by a conflict |
| ReplanOutcomes.WriteReplies | internal/storage/memory.go:232-254 | a write is not found exactly if the plan is missing, a conflict exactly if the number is taken, and otherwise adds that one version and raises the head to it |
| ReplanOutcomes.GenerateReplies | internal/app/service.go:296-318 | generating changes nothing if the plan exists, and otherwise files head and version 1 together |
| ReplanOutcomes.SignalShowsOutcome | internal/app/worker.go:137-141 | whatever status and version a processed signal shows, a finished replan of that signal ended with them, for the reasons of `ReplanOutcomes.StatusIff` |
| ReplanOutcomes.MarkShowsOutcome | internal/app/worker.go:137-141 | marking puts the outcome of the replan on the first signal with the ID and on no other |
| Materiality.SameStringSet | internal/engine/evaluator.go:105-120 | true exactly if both lists have the same elements and the second has no duplicates |
| Materiality.SameOrder | internal/engine/evaluator.go:65-75 | true exactly if the lists have the same keys position by position |
| Materiality.IndexByKey | internal/engine/evaluator.go:83-86 | the map names the last candidate of every key |
| Materiality.StructureChange | internal/engine/evaluator.go:82-100 | nothing is reported exactly if every current move agrees with the last candidate of its key; each reason has a witness |
| Materiality.IsMaterial | internal/engine/evaluator.go:28-54 | immaterial exactly under the stated agreement, and which reason is given when |
| Materiality.ImmaterialIff | internal/engine/evaluator.go:28-120 | on sanitised lists with distinct keys: immaterial exactly if keys, dependency sets and groups agree move by move and the top confidence moved less than the threshold |
| Materiality.ConfidenceTest | internal/engine/evaluator.go:43-61 | with the same moves and structure, immaterial exactly if the top confidence moved by less than the configured threshold, or than 0.1 if none is configured, in either direction |
| Materiality.SameMoveIff | internal/engine/evaluator.go:122-131 | moves are compared by their keys, and by the normalised title where a key is missing |
| Materiality.ImmaterialSymmetric | internal/engine/evaluator.go:28-54 | on lists with distinct keys it does not matter which plan is the old one |
| Materiality.RerunCreatesNoVersionIff | internal/app/service.go:100-102 | the same moves again are immaterial exactly if there are moves and moves sharing a key agree in structure |
| Materiality.DistinctKeysSelfConsistent | internal/engine/evaluator.go:83-98 | distinct keys suffice for that |
| Materiality.RerunNotIdempotent | internal/engine/evaluator.go:83-98 | two moves sharing a key in different groups make a valid plan differ from itself |
| Replanner.Replan | internal/engine/replanner.go:28-54 | gated and failed outcomes; otherwise the candidate is version N+1 over the sanitised proposal and is judged against the current moves |
| Replanner.RerunOfWrittenVersion | internal/app/service.go:100-102 | the same raw proposal against the version it wrote, while that one is current, is immaterial exactly if it has moves and, sanitised, moves sharing a key agree in structure |
| Replanner.EchoOfCurrentVersion | internal/engine/replanner.go:28-54 | a planner that echoes the current moves, whichever sanitised version is current, makes no version exactly if there are moves and moves sharing a key agree in structure |
| JudgedReplans.RunInv | internal/app/worker.go:22-61 | in every interleaving each replanned version holds its signal's sanitised proposal and differs materially from the version before it |
| JudgedReplans.VersionsDiffer | internal/app/worker.go:40-46 | no version of a plan is immaterial to the one before it |
| JudgedReplans.UnchangedIff | internal/app/worker.go:40-52 | a replan ends as it was told; unchanged and not gated means that the evaluator found the sanitised proposal immaterial to the version read, applied that the version written is that proposal and differs materially from the one before |
| JudgedReplans.RecommitNeedsAnother | internal/app/service.go:100-102 | a signal whose proposal has moves and agrees with itself is committed to a plan twice only with a commit for another signal in between |
| JudgedReplans.WrittenAgainIff | internal/app/service.go:100-102 | some run writes two versions in a row for a signal if and only if its sanitised proposal is empty or has moves that share a key and differ in structure |
| JudgedReplans.AlternatesIff | internal/app/service.go:100-102 | some run writes a signal's version, another signal's and the first one's again if and only if the two proposals differ materially in both directions |
| JudgedReplans.AlternationRepeats | internal/app/worker.go:40-46 | then the third version has the moves of the first |
| JudgedReplans.RerunAfterAnotherCommit | internal/app/service.go:86-102 | two one-move proposals with different keys: a run whose version 4 repeats version 2 |
| BarCache.RangeSplit | internal/marketdata/cache.go:266-276 | a range is its part before any instant followed by its part from that instant on |
| BarCache.RangeDay | internal/marketdata/cache.go:304 | for midnight-dated bars, all range ends of one day select the same bars |
| BarCache.InRangeKeeps | internal/marketdata/cache.go:286-293 | a range holds each bar within the bounds as often as the series does, and no other |
| BarCache.StableIsYesterday | internal/marketdata/cache.go:259-262 | immutable history ends at the midnight that starts yesterday |
| BarCache.ReplyFaithful | internal/marketdata/cache.go:304-324 | an honest reply may be cached under its day-granular key: it answers every range with that key |
| BarCache.SplitExactIff | internal/marketdata/cache.go:266-297 | the answer to a spanning range is exact exactly if each chunk reported as not found has no bars within the caller's bounds |
| BarCache.CombinedAnswer | internal/marketdata/cache.go:266-297 | the answer is the first outage, or else the bars of both chunks within the caller's bounds, or else "not found" when there are none |
| BarCache.ExactForAllMarketsIff | internal/marketdata/cache.go:266-297 | the answer is exact for every market that agrees with the chunk replies if and only if an error is passed on or no chunk that may hold a daily bar failed with a joined fault |
| BarCache.JoinedFaultLosesBars | internal/marketdata/cache.go:268-279 | a not-found joined with an outage loses past bars silently |
| BarCache.JoinedFaultHidesBars | internal/marketdata/cache.go:268-296 | with nothing recent, it reports "not found" although past bars exist |
| BarCache.CachingProvider.Lookup | internal/marketdata/cache.go:136-148 | a live entry, or none and the expired one is dropped |
| BarCache.CachingProvider.Store | internal/marketdata/cache.go:150-175 | the entry is stored; a live one is evicted only from a full cache with no expired one left; capacity is kept |
| BarCache.CachingProvider.FetchRange | internal/marketdata/cache.go:311-324 | returns what the provider says, and stores it exactly if it is bars, for ever when they are history and else for the TTL, or an unjoined "not found", for the TTL |
| BarCache.CachingProvider.BarsRange | internal/marketdata/cache.go:303-329 | a live entry is returned and nothing changes, otherwise the provider is asked and its reply stored as above; with a provider whose errors may join "not found" with an outage, the bars are exactly those in range, and an unjoined "not found" means there are none |
| BarCache.CachingProvider.SpanningRange | internal/marketdata/cache.go:266-279 | the result combines a plausible past chunk with a plausible recent stub, honest ones if the provider is honest; an error that is not "not found" is passed on |
| BarCache.CachingProvider.HistoricalBars | internal/marketdata/cache.go:252-298 | after any calls, expiries and evictions, with any clock readings, the answer combines the two chunk replies and is exact for every market that agrees with them if and only if the guard holds; outside the split it is exact or a joined fault; with an honest provider it is always exact |
| BarCache.SharedAppendsAgree | internal/marketdata/cache.go:276 | two callers appending into the spare capacity of one cached slice, over a fixed market, write prefixes of one stub, so the later write leaves the earlier caller's bars as they were |
| BarCache.CachingProvider.FilterBars | internal/marketdata/cache.go:286-297 | the loop keeps exactly the bars between the caller's bounds, in order |
| MarketCache.KeysSeparateBucketsIff | internal/marketdata/cache.go:182 | one key never covers two TTL buckets exactly if the TTL is at least one second |
| MarketCache.RunInv | internal/marketdata/cache.go:95-329 | in every interleaving of callers, joined faults, panicking fetches, expiries and evictions each stored or shared reply was given for its key, and each unfinished flight has one carrier, alive or dead |
| MarketCache.ReturnedFromBucket | internal/marketdata/cache.go:178-247 | with a TTL of at least a second, a returned quote or report is never newer than the request, and every reply is what the provider gave to a request of the same bucket |
| MarketCache.SameBucketIsClose | internal/marketdata/cache.go:178-190 | requests of one bucket are less than the TTL apart |
| MarketCache.EntriesExpire | internal/marketdata/cache.go:125-175 | in every reachable state an entry is an answer or a stable negative one, never an outage; it expires within a TTL, or never if it holds the bars of an immutable range |
| MarketCache.AskedOnlyWhenMissing | internal/marketdata/cache.go:95-148 | a lookup returns exactly a live entry that is not newer than asked for, a leader's second lookup exactly a live entry, and otherwise they go on; while a leader asks the provider its key has no entry |
| MarketCache.NeverCachedWithoutTtl | internal/marketdata/cache.go:178-181 | a kind of request without a positive TTL is never looked up, shared or stored |
| MarketCache.RangeServedPlausibly | internal/marketdata/cache.go:303-329 | a bar range served from another caller's flight, or from any entry, is what a chain of vendors may say of the caller's own range, and honest unless it is a joined fault |
| MarketCache.SpanningRangeExactIff | internal/marketdata/cache.go:266-297 | the two chunks of a spanning range, served with any other callers in between, combine to an answer that is exact for every agreeing market if and only if the guard holds |
| MarketCache.SpanningRangeExact | internal/marketdata/cache.go:266-297 | with a provider that was honest so far the combined answer is exact |
| MarketCache.NoWaiterOrphanedIff | internal/marketdata/cache.go:90-121 | a waiter can wake, or its flight is underway with one carrier that can go on, if and only if no leader of that flight panicked in its fetch |
| MarketCache.DeadLeaderBlocksKey | internal/marketdata/cache.go:95-121 | after a panic, in every continuation the flight is never done, its waiters never wake, and whoever asks for the key and misses waits too |
| MarketCache.WaiterOrphaned | internal/marketdata/cache.go:106-120 | a run in which caller 0 leads and panics and caller 1 waits on its flight |
| MarketCache.SingleFlight | internal/marketdata/cache.go:95-121 | at most one caller leads a flight for a key |
| Selection.ApplyWeightMonotone | internal/strategy/select.go:132-141 | a higher weight never lowers the weighted utility, whatever its sign |
| Selection.ApplyWeightNear | internal/strategy/select.go:132-141 | the weight multiplies a gain and divides a loss, up to 0.00005, and never changes the sign |
| Selection.ApplyWeightKeepsOrder | internal/strategy/select.go:132-141 | at one weight a higher utility is never weighted lower |
| Selection.WeightPrecedence | internal/strategy/select.go:143-167 | a positive weight for the regime goes first, then a positive pooled one, then 1 |
| Selection.FirstMoveCounts | internal/strategy/select.go:86-88 | only the first move's confidence counts, raw where it has a raw one |
| Selection.Pick | internal/strategy/select.go:175-192 | the first of the best admissible (or non-failed) candidates, with the stated fallbacks |
| Selection.PickedUnique | internal/strategy/select.go:169-192 | that description names one index |
| Selection.IncumbentIndex | internal/strategy/select.go:222-232 | the first admissible candidate with the incumbent's ID, or -1 |
| Selection.Select | internal/strategy/select.go:68-130 | scores every candidate and returns the winner of the hysteresis rule; errs exactly on no candidates |
| Selection.WinnerAdmissible | internal/strategy/select.go:99-107 | a filtered or failed candidate wins only when no admissible one exists |
| Selection.WinnerHasBestUtility | internal/strategy/select.go:169-192 | without weights and incumbent no admissible candidate has a utility more than 0.0001 above the winner's; equal utilities are decided by the raw confidence of the first move, then by order |
| Selection.LossBeatsNoGain | internal/strategy/select.go:132-192 | under any weights, when a loss wins no admissible candidate is weighed a gain |
| Selection.EqualWeightsKeepOrder | internal/strategy/select.go:132-192 | an admissible candidate with the winner's weight and at least its utility ties it |
| Selection.IncumbentKeptWithinMargin | internal/strategy/select.go:113-124 | without weights the incumbent stays if no challenger's utility is above it by the margin, and goes if one is above it by more, up to 0.0001 of rounding |
| Selection.DegradedWinner | internal/strategy/select.go:99-107 | when none is admissible the best candidate that did not fail wins, and the first one when all failed |
| Selection.WinnerStable | internal/strategy/select.go:113-124 | selecting again with the winner as incumbent keeps it |
| Selection.HigherWeightKeepsWinner | internal/strategy/select.go:132-167 | raising only the winner's weight never makes it lose |
| Selection.ReWeigh | internal/strategy/select.go:250-267 | the first of the best recorded candidates under the new weights, or -1 when all were filtered |
| Selection.ReplayHasBestUtility | internal/strategy/select.go:250-267 | without weights no recorded admissible utility is more than 0.0001 above the replayed winner's; under any weights a replayed loss leaves no gain behind |
| Selection.ReplayAgreesIff | internal/llm/selector.go:305-320 | replaying the audit under the same weights gives -1 exactly when all were filtered, and otherwise the same winner exactly when it also wins its ties by stated confidence and order |
| Selection.ReplayAgrees | internal/llm/selector.go:305-320 | in particular when no admissible candidate ties the winner |
| Selection.ReplayDiffersOnTie | internal/strategy/select.go:262-263 | on a tie selection and replay can differ |
| Portfolio.ReturnsByDate | internal/finance/portfolio.go:99-109 | the map holds the last return of every date |
| Portfolio.ReturnsIff | internal/finance/portfolio.go:101-107 | the returns are exactly the relative changes between neighbouring closes, dated by the later bar, without those from zero |
| Portfolio.ByDateIsLast | internal/finance/portfolio.go:99-109 | the map holds a date exactly if some return has it, and then the last such return |
| Portfolio.AlignedReturns | internal/finance/portfolio.go:98-123 | the paired returns are the join of both series on their dates |
| Portfolio.AlignedIff | internal/finance/portfolio.go:95-123 | against a strictly dated series the pairs are exactly those of returns with the same date |
| Portfolio.AlignedSwaps | internal/finance/portfolio.go:95-123 | for strictly dated series, swapping the series swaps the result |
| Portfolio.CauchySchwarz | internal/finance/portfolio.go:82-92 | covariance squared is at most the product of the variances |
| Portfolio.PearsonWithinOne | internal/finance/portfolio.go:67-93 | the correlation lies in [-1,1] before the clamp |
| Portfolio.PearsonTextbook | internal/finance/portfolio.go:62-93 | it is 1 if a series has no two different values; otherwise its sign is the sign of the sum of products of deviations from the means, and its square that sum squared over the two sums of squares |
| Portfolio.CorrelationOfAffine | internal/finance/portfolio.go:67-93 | it does not change when one series is scaled by a positive factor and shifted |
| Portfolio.CorrelationWithItself | internal/finance/portfolio.go:67-93 | a series has correlation 1 with itself, and -1 with its negation if it varies |
| Portfolio.CorrelationSymmetric | internal/finance/portfolio.go:67-93 | correlation is symmetric for strictly dated series |
| Portfolio.Correlation | internal/finance/portfolio.go:67-93 | the loops compute the Pearson correlation of the aligned returns, and the clamp never acts |
| Portfolio.AggregateRisk | internal/finance/portfolio.go:25-48 | the loops compute the root of the full quadratic form, although they skip zero risks |
| Portfolio.OneMorePosition | internal/finance/portfolio.go:21-48 | a further position adds its squared risk and twice its covariance with those before it |
| Portfolio.SameBarsAddUp | internal/finance/portfolio.go:21-48 | the risks of positions over the same bars add up, whether their returns are measurable or not |
| Portfolio.AggregateAtMostSum | internal/finance/portfolio.go:21-48 | for non-negative risks the aggregate is at most the plain sum |
| Portfolio.AggregateScales | internal/finance/portfolio.go:50-53 | aggregate risk scales linearly with a uniform positive scale |
| Portfolio.ScaleToRiskCap | internal/finance/portfolio.go:54-60 | scale 1 within the cap, else a scale in (0,1) that times the aggregate is the cap |
| Portfolio.ScaledAggregate | internal/finance/portfolio.go:50-60 | scaling every position scales their aggregate risk |
| Portfolio.StateSizes | internal/llm/finance_planner.go:151-170 | the positions handed to the cap leave broken theses out, and the stated sizes are the suggested ones times the scale when it is below 1 |
| Portfolio.LiveSizesMeetCap | internal/llm/finance_planner.go:147-159 | the stated sizes of the theses that are not broken have aggregate risk exactly at the cap when it binds |
| Portfolio.AllSizesMeetCapIff | internal/llm/finance_planner.go:385-392 | with broken theses the stated sizes respect the cap exactly if all suggested sizes together exceed neither the cap nor the held risk |
| Portfolio.NoBrokenSizeMeetsCap | internal/llm/finance_planner.go:385-392 | they do when no broken thesis has a size |
| Portfolio.BrokenSizeExceedsCap | internal/llm/finance_planner.go:385-392 | two theses sized as without market data (6% of equity, 5% stop), one of them broken, with a cap of 0.3%: the stated sizes exceed it |
| PlanCache.MemoryCache.constructor | internal/llm/cache.go:112-126 | starts empty with a capacity of at least one |
| PlanCache.MemoryCache.Get | internal/llm/cache.go:129-144 | list and map stay linked; the result and the new recency sequence are those of the specification |
| PlanCache.MemoryCache.Put | internal/llm/cache.go:147-170 | list and map stay linked, at most cap entries, the new recency sequence is that of the specification |
| PlanCache.StepHoldsLatest | internal/llm/cache.go:129-170 | a call leaves every entry equal to what the latest Put of its key asked for |
| PlanCache.StepByRecency | internal/llm/cache.go:129-170 | a call keeps the list ordered from the most to the least recently refreshed key |
| PlanCache.StepGoneForCause | internal/llm/cache.go:129-170 | a stored key that is gone was missed since, or at least cap keys are newer |
| PlanCache.RunInv | internal/llm/cache.go:129-170 | all of this holds after every sequence of calls under any clock |
| PlanCache.HitIsLatestPut | internal/llm/cache.go:129-144 | a hit is the value of the latest Put of that key, unexpired |
| PlanCache.HitsInTime | internal/llm/cache.go:129-170 | with a time to live: a hit comes from a Put less than that long ago with no later Put of the key, and such a key, not missed since and with fewer than cap newer ones, is a hit |
| PlanCache.ServedWhileRecent | internal/llm/cache.go:129-170 | a key put, not missed since, with fewer than cap newer keys is served until it expires |
| PlanCache.HitsIff | internal/llm/cache.go:129-170 | without a time to live: a hit exactly if the key was put and fewer than cap keys are newer |
| PlanCache.OnlyOldestEvicted | internal/llm/cache.go:163-169 | a Put removes a key only from a full cache, on an insertion, and it is the least recently refreshed one |

## Left out

- HTTP API, MCP tools, CLI, webhooks, configuration, policies, logging, metrics, notifications: plumbing and I/O.
- The Postgres store: its guarantees rest on SQL. Only the in-memory store is modelled.
- LLM clients, prompts, vendor adapters, the rate limiter, the mock planner: calls into foreign code; the planner and the provider are parameters.
- `CachingPlanner` and its hashed key: it omits the signal kind and move titles, so transparency is not claimed; only the cache below it is modelled.
- Floating-point error, NaN and infinities.
- Nil versus empty slices: the sanitiser maps nil to nil and empty reference lists to nil.
- `MoveGraphIssues`: message formatting and sorting around the cycle search.
- `InlineQueue`, worker contexts and per-job deadlines: how a handler ends is a free choice of the model.
- `replanWithRetry` backoff, `emitReplanCompleted`: a planner error stands for the exhausted retries.
- `Utility`, `HardFilter`, `DisagreementPenalty` and reason strings of the selection: utility and verdict are given per candidate.
- Sizing before the portfolio pass, and the per-trade cap, which holds only up to rounding.
- "At most one plan per goal" under concurrent generation: the store does not check the goal.
- Sample collection, paging and outcome loops of the service.
- Versioning.StepInv: replans are a state machine over values, one step per repository or planner call, because they interleave; a plan identifier is a free choice of the generating step.
- Versioning.MemoryRepository.Snapshot: the per-plan version tables are objects, but plans, signals and the versions themselves are values, so cloning inside one version is not modelled.
- BarCache.CachingProvider.BarsRange: without the shared flight and its second lookup, which are steps of `MarketCache`.
- BarCache.CachingProvider.HistoricalBars: one call of the method runs alone; calls that interleave are the runs of `MarketCache`, where each chunk is a caller. The spare capacity of the appended slice is the separate statement `BarCache.SharedAppendsAgree`.
- MarketCache.ReturnedFromBucket: waiters have no context of their own, as in the source; liveness and scheduling are not modelled.
- JudgedReplans.RunInv: the planner answers by signal alone; one that looks at the current plan is met per replan by `Replanner.Replan` and `Replanner.EchoOfCurrentVersion`.
- ReplanQueue.StepInv: the buffer is bounded, but blocking of a full channel is only the absence of the step; liveness and scheduling are not modelled.
- PlanCache.MemoryCache.Put: the linked list is a sequence of elements; its node links are not modelled. `Overwrite` and `Insert` are the two branches of one source method, as `EvictBack`, `SpanningRange`, `FetchRange`, `PoolTail`, `AddRow` and `ScanTargets` are parts of theirs.
