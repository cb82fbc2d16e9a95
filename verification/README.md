# Verified model of the GLM-5.3 serving overlay

A Dafny model of the algorithms that the overlay adds to a vLLM server for GLM-5.3-Flash,
with proofs of what each of them promises. Most of the modelled code lives in string
constants that the overlay files splice into vLLM; the model is of that code, not of the
splicing.

| part of the system | modules |
|---|---|
| fair mixed-prefill scheduler: credit ledger, grants, in-flight reservations, priority tiers | `FairCost`, `FairFit`, `FairLedger`, `FairInvariant`, `FairSelection`, `FairPolicy`, `FairRuns`, `FairTurns`, `FairProgress`, `FairService`, `FairScheduler` |
| EXL3 routed experts: five execution tiers against the naive loop | `MoeRoutes`, `GroupedTables`, `MoeTiers`, `MoeRowTiles`, `MoeGrouped`, `MoeLoop`, `MoeDispatch` |
| dense EXL3 linears: loading sharded checkpoint parts in any order | `LinearLoader` |
| KV cache: free-queue order, hybrid prefix hit, superseded Mamba state | `FreeQueue`, `PrefixHit`, `MambaState`, `MambaServing` |
| EXL3 trellis codec and the tile-streaming product | `Positional`, `TrellisCodec`, `StreamingMatmul` |
| indexer prefill chunks and their workspace | `IndexerChunks` |
| parallel writers: K-pool tail seed, draft-logit cache | `Stores`, `KpoolSeed`, `DraftLogits`, `DraftLaunch` |
| dense overlay builder: resumed reads, fused slices, concurrent writes | `DenseOverlay` |
| shared vocabulary | `Common`, `Arith` |

Code that updates objects in place is a class or a method over arrays whose `ensures` gives
the new state as a function of the old one; the promises are then proved of that function,
over whole runs where the source speaks of runs. The parallel writers (tail seed, draft-logit
cache, overlay payload) are sequences of element accesses, and their theorems hold for every
interleaving of the accesses of all instances. The grouped expert launches run row by row;
that the order of their additions does not matter is `MoeGrouped.AnyScatterOrder`.

What the model assumes of its surroundings:

- Time and weights are real numbers; the 1e-9 tolerances of the scheduler are kept.
- The scheduler is called in protocol order (a step is opened before it is capped, sealed
  with a key not in flight) and schedules prompt tokens in a fair mixed step only for granted
  requests. Completions may come at any time, in any order, repeated or never. Only the
  round-robin results of `FairService` need the clock to be monotone.
- Experts, the trellis codebook, the block transform and the sampling rule are arbitrary
  functions; `argsort` is any sorting permutation; the native expert kernel runs exactly the
  experts within its temporaries.
- A router names each expert at most once per token, and an expert map has an entry for every
  expert.
- A prefill step commits in full; a decode step is one token and at most as many drafts as
  there are speculative blocks, and only drafts are rejected.
- vLLM code that the overlay only calls (allocation, prefix-cache lookup, hash registration)
  enters by the contract the overlay states for it.

Promises that hold only under a condition are proved with the exact condition and an input
outside of it:

- With positive weights the decode launch of the routed experts is exact if and only if no
  expert has more routes than temporary rows (`MoeDispatch.DecodeExactWhen`, `RepeatedExpertIsDropped`).
  A router that names each expert once per token meets it (`RoutersAreDistinct`, `DecodeIsNaive`).
- With them the legacy overflow tier is exact if and only if no slot names an over-full expert past the
  end of the expert map (`MoeDispatch.LegacyExactWhen`, `StrayShows`). Maps with an entry for
  every expert, as assumed above, meet it (`FullMapHasNoStrays`).
- The Mamba reservation of `overlay/patch_mamba_align_state_free.py:152-159` covers every run
  if and only if one token and all drafts of a step fit in a block
  (`MambaServing.ReservationExactlyWhen`, `DraftsOverrun`).
- The fitted cost line is least squares if and only if its intercept was not clamped
  (`FairFit.LeastSquaresExactlyWhen`, `SteepSamplesAreClamped`).
- With positive weights the Python loop over all experts is exact if and only if no id lies
  past the expert map while naming a local expert by position (`MoeDispatch.LoopExactWhen`,
  `LoopAddsStrays`).
- A pass over the cache groups trims a reused prefix if and only if some target group answers
  with one shorter than its candidate (`PrefixHit.Pass`, `TrimKeepsOldVerification`). Lookups
  that share a unit of the block sizes never do, and the drafter's window is then verified at
  exactly the hit (`PrefixHit.FindHit`).
- The slices of a fused trellis cover it if and only if the blocks divide its columns
  (`DenseOverlay.SlicesCoverExactlyWhenDivisible`, `HalfTilesAreLost`). Outputs of whole
  tiles, the only ones the loader takes (`overlay/exl3.py:2583`), meet it
  (`ProbedSourcesDivide`).

## Model

| member | source | states |
|---|---|---|
| `FairCost.DenominatorPositive` | overlay/patch_scheduler_decode_floor.py:473-479 | The least-squares denominator is never negative, and positive exactly when two distinct chunk sizes were sampled, so the guarded division is taken whenever the fit is. |
| `FairCost.DeviationIsSumOfSquares` | overlay/patch_scheduler_decode_floor.py:474-478 | The expanded form of the sum of squared distances from one size is non-negative, and positive exactly when some sample has another size; the denominator grows by it sample by sample. |
| `FairCost.Fit` | overlay/patch_scheduler_decode_floor.py:470-488 | A line is fitted exactly when the pooled window holds two sizes; both coefficients are non-negative. |
| `FairFit.ClosedForm` | overlay/patch_scheduler_decode_floor.py:473-480 | In plain arithmetic: with the intercept kept the residuals cancel, and so do their moments unless the slope was clamped at zero, where they are not positive. |
| `FairFit.NormalEquations` | overlay/patch_scheduler_decode_floor.py:470-480 | The same of the fitted points: the normal equations, or residuals that stay negative when the intercept was clamped. |
| `FairFit.ClampedIsWorse` | overlay/patch_scheduler_decode_floor.py:480-480 | A clamped intercept: the lifted line has a strictly smaller squared error. |
| `FairFit.LeastSquaresExactlyWhen` | overlay/patch_scheduler_decode_floor.py:470-480 | Main result: the line minimises the squared error over all lines of non-negative slope if and only if its intercept was not clamped. |
| `FairFit.SteepSamplesAreClamped` | overlay/patch_scheduler_decode_floor.py:473-480 | An input with a clamped intercept: samples of 1 token in 1 s and 2 tokens in 10 s get the line 9n with squared error 128, while 9n - 8 has none. |
| `FairFit.ScaleCoversThreeQuarters` | overlay/patch_scheduler_decode_floor.py:481-488 | Main result: unless the scale sits at its ceiling, more than three quarters of the recent mixed samples took no longer than the scaled line says. |
| `FairCost.EstimateMonotone` | overlay/patch_scheduler_decode_floor.py:490-501 | In every fit state (none, one size, fitted) an estimate is at least 10 ms and never falls when the chunk grows. |
| `FairCost.LargerIsMoreEfficient` | overlay/patch_scheduler_decode_floor.py:490-505 | In every fit state the larger of two chunks serves at least as many tokens per estimated second. |
| `FairCost.Best` | overlay/patch_scheduler_decode_floor.py:511-513 | The rung picked fits the room, and every other fitting rung is no larger. |
| `FairCost.TargetIsMostEfficient` | overlay/patch_scheduler_decode_floor.py:503-513 | If any rung fits the room, the pick exists, fits, stays within the remaining tokens, and is at least as large and as efficient as that rung. |
| `FairCost.TargetCost` | overlay/patch_scheduler_decode_floor.py:503-513 | A pick costs between 10 ms and the room plus one tolerance. |
| `FairLedger.DropGrantSpec` | overlay/patch_scheduler_decode_floor.py:608-612 | Popping a grant removes exactly that request and lowers the granted cost by exactly its cost. |
| `FairLedger.GiveConserves` | overlay/patch_scheduler_decode_floor.py:818-821 | A grant moves its cost out of credit: credit + open grants + in-flight reservations is unchanged. |
| `FairLedger.TakeBackConserves` | overlay/patch_scheduler_decode_floor.py:608-612 | A release leaves the same balance unchanged. |
| `FairLedger.SealConserves` | overlay/patch_scheduler_decode_floor.py:843-858 | Sealing a step, including the refund of unserved estimates and of an empty schedule, leaves the balance unchanged. |
| `FairLedger.BeginConserves` | overlay/patch_scheduler_decode_floor.py:667-669 | While contention lasts, abandoning a step refunds its grants in full. |
| `FairLedger.SettleOnce` | overlay/patch_scheduler_decode_floor.py:861-864 | Settling a record removes exactly its reservation and the record, so a second callback for the same output finds nothing. |
| `FairLedger.AccruedIsShareOfTime` | overlay/patch_scheduler_decode_floor.py:893-895 | The credits accrued step by step are share x the accounted time of the completed decode-carrying steps. |
| `FairLedger.EpisodeBound` | overlay/patch_scheduler_decode_floor.py:711-726 | The ledger invariant implies the time bound of an episode: mixed time <= entry credit + share x decode time + tolerance + the last mixed step. |
| `FairInvariant.BeginKeeps` | overlay/patch_scheduler_decode_floor.py:667-723 | Opening a step (refund, leave or enter contention) keeps the ledger invariant. |
| `FairInvariant.GiveKeeps` | overlay/patch_scheduler_decode_floor.py:818-823 | A grant issued with credit >= -tolerance and nothing mixed in flight keeps it. |
| `FairInvariant.TakeBackKeeps` | overlay/patch_scheduler_decode_floor.py:600-614 | A release keeps it. |
| `FairInvariant.SealKeeps` | overlay/patch_scheduler_decode_floor.py:843-858 | Sealing keeps it; at most one in-flight record is mixed. |
| `FairInvariant.ChargedKeeps` | overlay/patch_scheduler_decode_floor.py:893-896 | One settlement with accrual and the credit ceiling keeps it: credit lost to the ceiling only lowers the balance while it is non-negative. |
| `FairInvariant.SettleKeeps` | overlay/patch_scheduler_decode_floor.py:861-896 | The whole settlement of one record keeps it. |
| `FairInvariant.ForgetKeeps` | overlay/patch_scheduler_decode_floor.py:657-665 | Swapping the scheduler object re-establishes it with nothing owned. |
| `FairInvariant.ReservationsAreExclusive` | overlay/patch_scheduler_decode_floor.py:710-726 | Of two in-flight records at most one holds a positive reservation; outside contention there is no grant and none holds one. |
| `FairSelection.RankingByTier` | overlay/patch_scheduler_decode_floor.py:567-588 | Both rankings are permutations of the candidates with lower tiers first. |
| `FairSelection.RankByAge` | overlay/patch_scheduler_decode_floor.py:567-573 | Within a tier the request with the older completed service comes first. |
| `FairSelection.PromoteSpec` | overlay/patch_scheduler_decode_floor.py:588-591 | Promotion fills up to the limit, only with untried candidates, and passes over a better-ranked one only if it was tried. |
| `FairSelection.PreselectSpec` | overlay/patch_scheduler_decode_floor.py:734-739 | Pre-selection fills up to the limit and passes over a better-ranked candidate only if it was natively refused in the previous step. |
| `FairSelection.PromoteKeeps` | overlay/patch_scheduler_decode_floor.py:575-598 | Promotion keeps the selection invariant, whose core is that no candidate is selected ahead of a strictly higher tier that is neither selected, tried nor licensed by a refusal. |
| `FairSelection.ReleaseKeeps` | overlay/patch_scheduler_decode_floor.py:613-627 | Releasing and promoting the next keeps it. |
| `FairSelection.StartTurnOk` | overlay/patch_scheduler_decode_floor.py:729-740 | A turn opens with it, and with every better-ranked candidate selected or licensed. |
| `FairPolicy.Prefills` | overlay/patch_scheduler_decode_floor.py:675-676 | One request per id. |
| `FairPolicy.PrefillsComplete` | overlay/patch_scheduler_decode_floor.py:675-676 | An id is a candidate exactly when a listed request with it still needs prefill. |
| `FairPolicy.AlignedChunkProgress` | overlay/patch_scheduler_decode_floor.py:933-944 | The aligned chunk is the request itself, zero or ends on a block boundary; it is zero exactly in the stated corner, never under a policy cap smaller than a block. |
| `FairRuns.InitOk` | overlay/patch_scheduler_decode_floor.py:286-336 | The initial state satisfies the invariant. |
| `FairRuns.DecideBounds` | overlay/patch_scheduler_decode_floor.py:773-817 | An allowed grant costs at least 10 ms and at most the gap room plus tolerance, never below -tolerance credit; a borrowed one was due and overdraws, any other fits the credit. |
| `FairRuns.RunKeepsOk` | overlay/patch_scheduler_decode_floor.py:651-911 | Every run of legal events from a good state ends in a good state. |
| `FairRuns.ContentionTimeBound` | overlay/patch_scheduler_decode_floor.py:711-895 | Main result: in every reachable state in contention, under every interleaving of dispatch and completion, the mixed time is at most entry credit + share x decode time + tolerance + one step. |
| `FairRuns.ReachableSafety` | overlay/patch_scheduler_decode_floor.py:567-824 | Main result: in every reachable state no selected candidate overtakes a higher tier unlicensed; selections and grants number at most max_chunks; grant costs sum to at most the step limit plus tolerance; at most one reservation is positive and none outside contention. |
| `FairRuns.LicenceLastsOneStep` | overlay/patch_scheduler_decode_floor.py:698-702 | Main result: a candidate licensed in the next step was selected or granted and then natively refused in the step between; no licence survives two steps without a fresh refusal. |
| `FairRuns.StepOpensRanked` | overlay/patch_scheduler_decode_floor.py:727-740 | A prefill turn opens with every better-ranked candidate selected or licensed. |
| `FairTurns.BorrowedIsAlone` | overlay/patch_scheduler_decode_floor.py:793-822 | Main result: from a step without grants, whatever calls follow before the next completion, a borrowed grant is the only grant. |
| `FairTurns.GrantIsJustified` | overlay/patch_scheduler_decode_floor.py:770-824 | A new grant fits the gap room with credit >= -tolerance; it fits the credit, or it is borrowed with no other grant, no deferred higher tier, and by a newcomer or an aged request. |
| `FairTurns.DeferralMeansUnaffordable` | overlay/patch_scheduler_decode_floor.py:796-817 | With a lower tier present a candidate is admitted whenever any rung fits both the gap room and the credit. |
| `FairTurns.StepConserves` | overlay/patch_scheduler_decode_floor.py:600-858 | Scheduling notes, refusals, sealing and unrelated callbacks leave the balance unchanged. |
| `FairTurns.CapConserves` | overlay/patch_scheduler_decode_floor.py:747-824 | So does every admission decision in an open step. |
| `FairTurns.AccountedTimeIsWallTime` | overlay/patch_scheduler_decode_floor.py:867-872 | Main result: over any run on one scheduler the accounted seconds sum to at most the advance of the accounting clock, so overlapping steps never count time twice. |
| `FairProgress.DenyInDebt` | overlay/patch_scheduler_decode_floor.py:770-817 | In debt every candidate is deferred. |
| `FairProgress.StepInDebt` | overlay/patch_scheduler_decode_floor.py:651-911 | In debt an event earns exactly the share of the decode time that it completes and leaves nothing granted, or it ends the debt. |
| `FairProgress.DebtIsRepaid` | overlay/patch_scheduler_decode_floor.py:893-896 | Main result: once the share of the decode time that a run completes covers the debt, the run has passed a state where it is repaid, with nothing granted in between. |
| `FairProgress.DebtIsLastMixedStep` | overlay/patch_scheduler_decode_floor.py:893-896 | Between mixed steps the credit is at most the accounted time of the last one below the tolerance, however it was estimated. |
| `FairProgress.FirstDueIsGranted` | overlay/patch_scheduler_decode_floor.py:773-824 | Main result: with no debt, the first candidate of a fresh prefill turn is granted a chunk if it is due and some rung fits the step limit. |
| `FairProgress.MixedStepIsPaidFor` | overlay/patch_scheduler_decode_floor.py:770-896 | Main result: after a mixed step of d accounted seconds, d / share seconds of completed decode steps pass through a state from which the first due candidate of the next turn is granted. |
| `FairService.CreditedExactly` | overlay/patch_scheduler_decode_floor.py:873-889 | A completion credits exactly the requests served in it whose id still names the same object, with its own time and a fresh turn number; every other history is unchanged, so a late completion of a replaced request earns the new one nothing. |
| `FairService.BeginHistory` | overlay/patch_scheduler_decode_floor.py:548-557 | Opening a step keeps the service history of a request or forgets it altogether. |
| `FairService.RunServiceOk` | overlay/patch_scheduler_decode_floor.py:881-886 | In every run on a monotone clock no service lies in the future of the clock and no turn number exceeds the counter. |
| `FairService.TurnGoesBehind` | overlay/patch_scheduler_decode_floor.py:618-621 | A turn puts the request behind the others: behind all after a completed service, behind those not served more recently after a turn without progress. |
| `FairService.OvertakingNeedsATurn` | overlay/patch_scheduler_decode_floor.py:567-889 | Main result: over every run on a monotone clock a request that is ahead of another stays ahead until it takes a turn itself or the other is forgotten. |
| `FairService.TurnsFollowTheOrder` | overlay/patch_scheduler_decode_floor.py:734-740 | No prefill turn opens with a candidate selected past a tier peer that is ahead of it, unless the peer was natively refused in the step before. |
| `FairService.RoundRobin` | overlay/patch_scheduler_decode_floor.py:567-889 | Main result: after its turn a request is not selected again past a tier peer that has had none since, through any run, unless the peer was natively refused just before. |
| `FairService.ReachedServiceOk` | overlay/patch_scheduler_decode_floor.py:881-886 | Main result: so it is in every state reached from the initial object on a monotone clock. |
| `FairService.ReachedOrderHolds` | overlay/patch_scheduler_decode_floor.py:567-889 | In every such state whoever is ahead stays ahead until it takes a turn or the other is forgotten. |
| `FairService.ReachedRoundRobin` | overlay/patch_scheduler_decode_floor.py:567-889 | Main result: round robin in every state reached from the initial object on a monotone clock. |
| `FairService.PrefillWorkExactly` | overlay/patch_scheduler_decode_floor.py:835-842 | A step counts for each known request the scheduled tokens, but no more than it still has to prefill. |
| `FairService.ServedExactly` | overlay/patch_scheduler_decode_floor.py:873-876 | A completion counts what the output delivered, but no more than the prompt work of the step. |
| `FairService.DecodesComeFirst` | overlay/patch_scheduler_decode_floor.py:680-682 | The reordered queue holds the same requests, no prefill ahead of a decode, and keeps the order within both groups. |
| `FairScheduler.MixedPrefill.constructor` | overlay/patch_scheduler_decode_floor.py:286-336 | The object starts as the initial policy state. |
| `FairScheduler.MixedPrefill.PromoteNext` | overlay/patch_scheduler_decode_floor.py:575-598 | Updates only the selected set, as the promotion function says. |
| `FairScheduler.MixedPrefill.Release` | overlay/patch_scheduler_decode_floor.py:600-627 | The new state is the release function of the old one. |
| `FairScheduler.MixedPrefill.NoteScheduled` | overlay/patch_scheduler_decode_floor.py:629-632 | Zero tokens release the request; anything else changes nothing. |
| `FairScheduler.MixedPrefill.NoteAllocFailed` | overlay/patch_scheduler_decode_floor.py:634-644 | A selected or granted request is recorded as refused, then released. |
| `FairScheduler.MixedPrefill.BeginStep` | overlay/patch_scheduler_decode_floor.py:651-745 | The new state is the step-opening function of the old one; in fair mode the running queue comes back decodes first. |
| `FairScheduler.MixedPrefill.Decide` | overlay/patch_scheduler_decode_floor.py:773-817 | The decision of an unchanged state. |
| `FairScheduler.MixedPrefill.CapFor` | overlay/patch_scheduler_decode_floor.py:747-824 | New state and cap are the admission function of the old state, over all modes. |
| `FairScheduler.MixedPrefill.FinishStep` | overlay/patch_scheduler_decode_floor.py:826-858 | The new state is the sealing function of the old one. |
| `FairScheduler.MixedPrefill.ObserveOutput` | overlay/patch_scheduler_decode_floor.py:860-911 | The new state is the settlement function of the old one, including service credit, samples and pruning. |
| `FairScheduler.SealLoop` | overlay/patch_scheduler_decode_floor.py:843-849 | The refund loop splits the granted cost exactly into reserved and refunded. |
| `FairScheduler.PromoteLoop` | overlay/patch_scheduler_decode_floor.py:588-591 | The selection loop computes the promotion function. |
| `FairScheduler.PreselectLoop` | overlay/patch_scheduler_decode_floor.py:734-739 | The pre-selection loop computes its function. |
| `FairScheduler.AdoptLoop` | overlay/patch_scheduler_decode_floor.py:548-557 | Re-bound ids lose their history and their refusal. |
| `FairScheduler.CreditLoop` | overlay/patch_scheduler_decode_floor.py:881-891 | Service is credited only to requests whose id still names the same object. |
| `MoeRoutes.MapLocal` | overlay/exl3.py:795-817 | A raw id becomes a local expert or the sentinel. |
| `MoeRoutes.LoopLocal` | overlay/exl3.py:842-853 | Likewise for the loop: a raw id past the map is used as it is. |
| `MoeRoutes.MappingsAgree` | overlay/exl3.py:814-848 | The two mappings agree on an id exactly when it does not lie past a short expert map while naming a local expert by position. |
| `MoeRoutes.MappingsAgreeOnFullMap` | overlay/exl3.py:814-848 | They always agree when the map covers every local expert. |
| `MoeRoutes.ShortMapDiffers` | overlay/exl3.py:814-848 | A one-entry map and id 1: the mapping gives the sentinel, the loop runs expert 1. |
| `MoeRoutes.SumIfPermuted` | overlay/exl3.py:1489-1491 | Any sorting permutation leaves every token sum unchanged. |
| `MoeRoutes.ExpertsPartition` | overlay/exl3.py:820-858 | Summing expert by expert is the sum over the routes: none skipped, none doubled. |
| `MoeRoutes.SegmentOfExpert` | overlay/exl3.py:1489-1500 | After the sort, an expert owns exactly the positions between its prefix sums. |
| `MoeRoutes.SegmentSum` | overlay/exl3.py:884-896 | Running an expert on that segment contributes exactly its naive sum. |
| `GroupedTables.Search` | overlay/exl3.py:1173-1178 | The right-sided search over the running sums finds the entry whose range holds the value. |
| `GroupedTables.BuildTables` | overlay/exl3.py:1144-1189 | The tables hold, entry by entry, the values the device expressions define. |
| `GroupedTables.SegmentCount` | overlay/exl3.py:1167-1171 | The number of tiles of a prefix of experts is at most its rows over the tile height plus the number of experts. |
| `GroupedTables.SegmentRoom` | overlay/exl3.py:1169-1171 | The live segments and rows fit the allotted tables. |
| `GroupedTables.SegmentsAdjacent` | overlay/exl3.py:1172-1176 | Each live segment ends where the next begins, the last one at the last fat row. |
| `GroupedTables.SegmentsPartitionRows` | overlay/exl3.py:1162-1176 | Main result: live segments are non-empty, at most one tile high, stay inside one over-full expert and cover the fat rows back to back from 0; padding segments have no rows. |
| `GroupedTables.LiveRowsAreFatPositions` | overlay/exl3.py:1177-1179 | A live row comes from a sorted position of its own over-full expert, at the matching rank; the clamp alters no live row. |
| `GroupedTables.SrcIncreasing` | overlay/exl3.py:1177-1179 | Distinct live rows have distinct sources, in order. |
| `GroupedTables.FatPositionsAreLiveRows` | overlay/exl3.py:1177-1179 | Every sorted position of an over-full expert is some live row: the map is a bijection. |
| `GroupedTables.SegmentRowsShareExpert` | overlay/exl3.py:1172-1178 | Every row of a live segment carries the expert of the segment. |
| `MoeTiers.Launch` | overlay/exl3.py:1355-1402 | The native kernel by its contract: exactly the experts within the temporaries are run on their slices. |
| `MoeTiers.SortedFat` | overlay/exl3.py:861-896 | Adds exactly the over-full experts on their slices of the sort. |
| `MoeTiers.BatchedFat` | overlay/exl3.py:998-1092 | The two-stage form with shared buffers adds the same. |
| `MoeTiers.SlicesAreExperts` | overlay/exl3.py:884-896 | On a sort of the routes the slices are the per-expert naive sums. |
| `MoeRowTiles.GatheredSlice` | overlay/exl3.py:1438-1442 | A gathered tile holds, for each expert, exactly its next rows of the sort. |
| `MoeRowTiles.TileExtendsHead` | overlay/exl3.py:1433-1442 | Each tile extends the processed head of each expert by what the tile holds. |
| `MoeRowTiles.TileStep` | overlay/exl3.py:1432-1457 | One tile launch adds exactly that extension for every expert. |
| `MoeRowTiles.EmptyTile` | overlay/exl3.py:1435-1437 | Skipping an empty tile changes nothing. |
| `MoeRowTiles.RowTiles` | overlay/exl3.py:1405-1457 | All tiles together add every expert on its whole slice. |
| `MoeGrouped.TablesSchedule` | overlay/exl3.py:1172-1178 | The tables schedule each live row exactly once, with its own expert. |
| `MoeGrouped.GatherStage` | overlay/exl3.py:1234-1236 | After the gather, each live row holds the input half of its own token and expert. |
| `MoeGrouped.GateUpStage` | overlay/exl3.py:1237-1250 | After gate/up, each live row holds its activation; all segments together reach all live rows. |
| `MoeGrouped.DownStage` | overlay/exl3.py:1251-1262 | The scatter adds each live row once to the token it came from. |
| `MoeGrouped.AnyScatterOrder` | overlay/exl3.py:1251-1262 | Main result: whatever the order in which the live rows are added to the output, each token ends with the same sum. |
| `MoeGrouped.LiveRowsAreFatSlices` | overlay/exl3.py:1164-1188 | Adding every live row is running every over-full expert on its slice. |
| `MoeGrouped.GroupedFat` | overlay/exl3.py:1192-1262 | Three launches, even with different tile heights for their tables, add exactly the over-full experts. |
| `MoeLoop.AddMatching` | overlay/exl3.py:856-864 | One raw id adds exactly the routes with that id. |
| `MoeLoop.PythonLoop` | overlay/exl3.py:820-858 | The unique-id loop adds exactly the routes of the wanted local experts. |
| `MoeDispatch.CountExperts` | overlay/exl3.py:1493-1500 | The scatter-add counts every bucket, sentinel included. |
| `MoeDispatch.RoutesSum` | overlay/exl3.py:1485-1491 | The flattened routes of a batch sum, per token, to the naive loop over its own slots. |
| `MoeDispatch.SameRoutes` | overlay/exl3.py:842-848 | If no id is past a short map, loop and mapping see the same routes. |
| `MoeDispatch.ThinAndOver` | overlay/exl3.py:1513-1650 | On a sort, the slices of fitting and of over-full experts are the thin and the over-full part of the naive sum, and the two parts add up to it. |
| `MoeDispatch.LegacyAddsStrays` | overlay/exl3.py:842-858 | For every batch and map, the loop over the over-full experts adds what the fused mapping would, and the strays: slots whose id lies past the map and names an over-full expert by position. |
| `MoeDispatch.FatTier` | overlay/exl3.py:1601-1649 | Whichever overflow tier is enabled, it adds exactly the over-full experts. |
| `MoeDispatch.Prefill` | overlay/exl3.py:1520-1650 | Thin launch and overflow tier, in the order of the branches, with row tiles pre-empting the others. |
| `MoeDispatch.FusedMoe` | overlay/exl3.py:1460-1650 | The dispatcher leaves in each token exactly what the outcome function says, for any sort. |
| `MoeDispatch.PrefillIsNaive` | overlay/exl3.py:1520-1650 | Main result: past the temporaries, on every tier, each token gets exactly the naive sum (on the legacy tier for batches without strays). |
| `MoeDispatch.LegacyExactWhen` | overlay/exl3.py:1635-1649 | Main result: with positive weights the legacy tier leaves the naive sum in every token, for every expert function, if and only if no slot is a stray. |
| `MoeDispatch.StrayShows` | overlay/exl3.py:842-858 | A batch with a stray: some expert function gives its token more than the naive sum. |
| `MoeDispatch.FullMapHasNoStrays` | overlay/exl3.py:783-817 | A map with an entry for every expert leaves no strays. |
| `MoeDispatch.DecodeShortfall` | overlay/exl3.py:1513-1518 | The decode launch misses exactly the routes of experts with more routes than temporaries. |
| `MoeDispatch.DecodeExactWhen` | overlay/exl3.py:1513-1518 | With positive weights the decode launch is exact for every expert function if and only if no expert has more routes than temporaries. |
| `MoeDispatch.CountAtMostTokens` | overlay/exl3.py:1513-1518 | With distinct local experts per token an expert has at most as many routes as there are tokens. |
| `MoeDispatch.DecodeIsNaive` | overlay/exl3.py:1513-1518 | Main result: then the decode path gives each token exactly the naive sum. |
| `MoeDispatch.RoutersAreDistinct` | overlay/exl3.py:795-817 | A token whose ids differ, through a map that sends no two experts to one local expert, names distinct local experts. |
| `MoeDispatch.RepeatedExpertIsDropped` | overlay/exl3.py:1513-1518 | Why distinctness is needed: one token naming one expert twice with one temporary row loses both contributions. |
| `MoeDispatch.LoopIsNaive` | overlay/exl3.py:820-858 | Where the expert map covers the batch, the loop over all experts gives the naive sum. |
| `MoeDispatch.LoopAddsStrays` | overlay/exl3.py:820-858 | For every expert map the loop adds, beside the naive sum, exactly the slots whose id lies past the map and is a local position. |
| `MoeDispatch.LoopExactWhen` | overlay/exl3.py:820-858 | Main result: with positive weights the loop gives the naive sum in every token, for every expert function, if and only if the map covers the batch. |
| `LinearLoader.DeclaredIsValid` | overlay/exl3.py:1744-1754 | A layer that passes the configuration check and the creation checks has a declared BF16 list that is exactly the ascending run of its last shards, rank < tp and 16-wide packed shards. |
| `LinearLoader.OnlyTailsAreAccepted` | overlay/exl3.py:2526-2532 | Where the divisibility checks pass, a list is accepted if and only if it is that ascending tail; negative, unsorted, gapped and short runs are refused. |
| `LinearLoader.ReplicatedTakesWhole` | overlay/exl3.py:2555-2560 | A layer whose partitions already sum to the full output takes every packed part whole on every rank. |
| `LinearLoader.SlotsDisjoint` | overlay/exl3.py:2705-2720 | Staging slots of different shards never overlap. |
| `LinearLoader.StoreReads` | overlay/exl3.py:2705-2728 | A stored part is read back unchanged. |
| `LinearLoader.StoreElsewhere` | overlay/exl3.py:2655-2728 | Storing one part leaves every other part as it was. |
| `LinearLoader.AnyOrderIsFaithful` | overlay/exl3.py:2628-2728 | Main result: whatever the order and repetition of arrivals, every loaded part is the share of this rank of the checkpoint tensor, and the record of loaded parts is exact. |
| `LinearLoader.BuiltIsShare` | overlay/exl3.py:2730-2807 | Main result: every built linear consists of the trellis, suh and svh shares of its own shard; a BF16 shard holds its own rows and is not built. |
| `LinearLoader.MissingIsReported` | overlay/exl3.py:2772-2778 | Building succeeds only if every needed part arrived, and reports missing parts only if one did not. |
| `LinearLoader.FirstBad` | overlay/exl3.py:2752-2771 | A wrong marker of a packed shard is found exactly when there is one. |
| `LinearLoader.NarrowsRecombine` | overlay/exl3.py:649-658 | If every rank can narrow, the slices concatenate to the tensor. |
| `LinearLoader.ColumnSharesRecombine` | overlay/exl3.py:661-667 | Main result, column parallel: the rank shares of trellis columns, svh and BF16 rows concatenate to the checkpoint tensor. |
| `LinearLoader.RowSharesRecombine` | overlay/exl3.py:670-676 | Main result, row parallel: the shares of each trellis column and of suh concatenate to it. |
| `LinearLoader.ForwardInOrder` | overlay/exl3.py:2384-2403 | The forward concatenation is in shard order if and only if the BF16 shards are the ascending tail. |
| `LinearLoader.AcceptedIsInOrder` | overlay/exl3.py:2384-2403 | Main result: every accepted layer returns its outputs in shard order. |
| `LinearLoader.Exl3LinearMethod.constructor` | overlay/exl3.py:2594-2618 | Staging tensors of the right sizes, markers zero, nothing loaded. |
| `LinearLoader.Exl3LinearMethod.LoadPart` | overlay/exl3.py:2628-2728 | Does what the load function says and leaves everything alone on each error. |
| `LinearLoader.Exl3LinearMethod.Build` | overlay/exl3.py:2749-2807 | Reports bad markers, then missing parts, else builds one linear per packed shard by running offsets. |
| `FreeQueue.ReleasedExactly` | overlay/patch_apc_per_group_retention.py:523-525 | A block is released exactly when the call drops its last reference and it is not the null block, and then once. |
| `FreeQueue.FreeKeeps` | overlay/patch_apc_per_group_retention.py:517-548 | Freeing keeps the pool invariant: distinct queue, exactly the unreferenced blocks in it, ordinary cached blocks last. |
| `FreeQueue.AllocateKeeps` | overlay/patch_apc_no_store.py:14-22 | Popping the front keeps it. |
| `FreeQueue.TouchKeeps` | overlay/patch_apc_per_group_retention.py:517-548 | A prefix hit keeps it. |
| `FreeQueue.RegisterKeeps` | overlay/patch_apc_per_group_retention.py:526-541 | Registering a key on a block in use keeps it. |
| `FreeQueue.OneTargetKeyProtects` | overlay/patch_apc_per_group_retention.py:530-541 | One key outside the drafter groups makes a cached block ordinary, and further keys never demote it. |
| `FreeQueue.OrdinaryEvictedLast` | overlay/patch_apc_per_group_retention.py:543-548 | Main result: if an allocation takes an ordinary cached block, it takes every unhashed and low-priority block. |
| `FreeQueue.InitialOk` | overlay/patch_apc_per_group_retention.py:488-496 | A pool of free unhashed blocks satisfies the invariant. |
| `FreeQueue.ReachableOk` | overlay/patch_apc_per_group_retention.py:517-548 | Every run of frees, allocations, hits and registrations keeps the invariant. |
| `FreeQueue.ReachableOrdered` | overlay/patch_apc_per_group_retention.py:543-548 | Main result: in every reachable queue no ordinary cached block precedes another kind. |
| `FreeQueue.FreedJoinAtEnd` | overlay/patch_apc_per_group_retention.py:539-547 | Freed ordinary blocks join behind the others in the order they were freed. |
| `FreeQueue.AllocationTakesOldest` | overlay/patch_apc_no_store.py:14-22 | Allocation takes ordinary blocks from the front of that order. |
| `FreeQueue.HitLeavesOrder` | overlay/patch_apc_per_group_retention.py:539-547 | A hit leaves the others in order. |
| `FreeQueue.FreeWaitsAhead` | overlay/patch_apc_per_group_retention.py:539-548 | Whatever a call frees, an ordinary block that was in use or queued behind another ordinary one stays behind it. |
| `FreeQueue.StepWaitsAhead` | overlay/patch_apc_per_group_retention.py:517-548 | Any event but a hit or allocation of the first of two ordinary blocks keeps the second behind it, in use or not. |
| `FreeQueue.FirstFreedFirstTaken` | overlay/patch_apc_per_group_retention.py:539-548 | Main result: ordinary cached blocks leave in the order they became free: through any run in which a free block is not hit, no ordinary block behind it or still in use is allocated before it, even if hit and freed again in between. |
| `FreeQueue.TargetUnhashedGoFirst` | overlay/patch_apc_per_group_retention.py:368-379 | Main result: after the target managers ran, whatever was queued (low-priority blocks freed earlier included) lies between their unhashed blocks in front and their cached blocks behind. |
| `FreeQueue.OrderOfManagersMatters` | overlay/patch_apc_per_group_retention.py:368-379 | Freed in the other order a low-priority block ends ahead of an unhashed one. |
| `FreeQueue.BlockPool.constructor` | overlay/patch_apc_per_group_retention.py:488-496 | Everything free and unhashed. |
| `FreeQueue.BlockPool.FreeBlocks` | overlay/patch_apc_per_group_retention.py:517-548 | Reference counts and queue become what the freeing function says. |
| `FreeQueue.BlockPool.Partition` | overlay/patch_apc_per_group_retention.py:520-541 | One pass drops the references and sorts the released blocks into the three lists, each in release order. |
| `PrefixHit.ReplaySafeIsLargest` | overlay/patch_hybrid_prefix_hit.py:102-118 | The clamp leaves enough fresh tokens or gives zero, moves by whole pages, and no shorter move would do. |
| `PrefixHit.ClampLandsOnRetainedPrior` | overlay/patch_apc_per_group_retention.py:460-474 | A hit at the last boundary that is too long is clamped onto the retained earlier checkpoint if and only if the missing tokens fit one block. |
| `PrefixHit.DraftStepGrounded` | overlay/patch_hybrid_prefix_hit.py:157-190 | A draft lookup never moves the candidate; stored windows are at least as long as the candidate they were looked up at. |
| `PrefixHit.TargetStepGrounded` | overlay/patch_hybrid_prefix_hit.py:157-190 | A shorter target answer voids earlier verifications. |
| `PrefixHit.CheckReady` | overlay/patch_hybrid_prefix_hit.py:277-315 | The readiness loop is true exactly when there is a draft group and every member of every one has its window. |
| `PrefixHit.Pass` | overlay/patch_hybrid_prefix_hit.py:439-465 | One pass moves the candidate exactly as the target groups alone would, and trims a reused prefix exactly when some target group answers with one shorter than its candidate; on aligned lookups it never does. |
| `PrefixHit.ReadyIsBacked` | overlay/patch_hybrid_prefix_hit.py:277-323 | A ready window was stored for exactly the hit, is complete and non-null, and was verified there (at a longer candidate at most if a reused prefix was trimmed). |
| `PrefixHit.TailIsWindow` | overlay/patch_hybrid_prefix_hit.py:290-293 | The tail that is inspected reaches back over all tokens the sliding window sees, and one block less would not. |
| `PrefixHit.VisibleTokensCached` | overlay/patch_hybrid_prefix_hit.py:277-315 | So in a backed window every cached token the drafter sees lies in a block that is not null, in every member. |
| `PrefixHit.NoBackUpMeansFresh` | overlay/patch_hybrid_prefix_hit.py:324-352 | If neither the clamp nor the coarse retry moves a hit, it is zero or leaves the replay tokens fresh. |
| `PrefixHit.BackUpAligned` | overlay/patch_hybrid_prefix_hit.py:102-118 | Both ways of backing up keep a candidate on the common unit of the block sizes. |
| `PrefixHit.TrimKeepsOldVerification` | overlay/patch_hybrid_prefix_hit.py:157-190 | An example of unaligned replies: in three passes the hit falls from 50 to 40, and the window counts as ready though it was last verified at 45. |
| `PrefixHit.FindHit` | overlay/patch_hybrid_prefix_hit.py:269-353 | Main result: the loop terminates; on return the target groups confirm the hit, the drafter shortened nothing, the hit is zero, window-backed or leaves the replay tokens fresh, and a nonzero hit leaves a full K-pool. If target lookups answer multiples of a common unit, no prefix is trimmed, so the window was verified at exactly the hit. |
| `MambaState.RemoveKeeps` | overlay/patch_mamba_align_state_free.py:93-114 | Release keeps the record exact (ascending; held means recorded or among the last ones) and leaves only entries still needed. |
| `MambaState.AllocateKeeps` | overlay/patch_mamba_align_state_free.py:128-139 | Recording the superseded block keeps it. |
| `MambaState.ReachableOk` | overlay/patch_mamba_align_state_free.py:64-139 | Main result: in every run with in-order settlement the stale list is strictly ascending and the record exact. |
| `MambaState.FreedIsUnread` | overlay/patch_mamba_align_state_free.py:93-114 | A block freed lies below the state block of every unsettled step. |
| `MambaState.HeldBound` | overlay/patch_mamba_align_state_free.py:152-159 | A request holds at most its stale blocks, the running state and the speculative blocks. |
| `MambaState.HeldExactly` | overlay/patch_mamba_align_state_free.py:152-159 | Once a step was scheduled it holds exactly those. |
| `MambaServing.NewEntry` | overlay/patch_mamba_align_state_free.py:128-139 | Scheduling records exactly one superseded block when the list grows past the furthest token ever scheduled, and none otherwise. |
| `MambaServing.NextOk` | overlay/patch_mamba_align_state_free.py:93-139 | Each prefill step, each decode step of at most a block and each settlement, rejections included, keeps the serving invariant. |
| `MambaServing.StepsFindTheirState` | overlay/patch_mamba_align_state_free.py:93-114 | Under the invariant each unsettled step, and the next one, finds its state block held. |
| `MambaServing.RunsFindTheirState` | overlay/patch_mamba_align_state_free.py:93-139 | Main result: so it is in every run from a new request, with or without a prefix hit, whatever its decode steps reject. |
| `MambaServing.RunsKeepReservation` | overlay/patch_mamba_align_state_free.py:152-159 | Main result: in every run with prefill steps of any size, which commit in full, and decode steps of at most a block, whatever they reject (all of their tokens included), the request never holds more than 1 + batches + speculative blocks. |
| `MambaServing.FillUp` | overlay/patch_mamba_align_state_free.py:93-139 | After a rejection just past a block boundary, any number of decode steps in flight, each of a block or one token more, leave one recorded block more than there are steps. |
| `MambaServing.DraftsOverrun` | overlay/patch_mamba_align_state_free.py:152-159 | For every block size up to the number of drafts, and any number of batches: a run of the server (one token accepted in each decode step, only drafts rejected) that holds more than is reserved. |
| `MambaServing.ReservationExactlyWhen` | overlay/patch_mamba_align_state_free.py:152-159 | Main result: no run of the server exceeds the reservation if and only if one token and all drafts of a step fit in a block. |
| `MambaState.MambaRequest.constructor` | overlay/patch_mamba_align_state_free.py:63-71 | A request with a prefix hit of whole blocks. |
| `MambaState.MambaRequest.RemoveSkipped` | overlay/patch_mamba_align_state_free.py:93-114 | The loop frees exactly the leading entries behind the processed prefix. |
| `MambaState.MambaRequest.AllocateNew` | overlay/patch_mamba_align_state_free.py:128-139 | The new lists are the allocation function of the old ones. |
| `MambaState.MambaRequest.PopForFree` | overlay/patch_mamba_align_state_free.py:145-147 | Freeing the request drops its record. |
| `Positional.NumOfDigits` | kernel_lab/exl3/reference.py:40-48 | Reading back the fixed-length notation of a number that fits gives the number. |
| `Positional.DigitsOfNum` | kernel_lab/exl3/reference.py:74-82 | Digits below the base are recovered from their number. |
| `TrellisCodec.SameRange` | kernel_lab/exl3/reference.py:40-48 | Sixteen states and one word per bit span the same numbers. |
| `TrellisCodec.UnpackPackSpan` | kernel_lab/exl3/reference.py:40-82 | One span of in-range states survives packing, and packs to 16-bit words. |
| `TrellisCodec.PackUnpackSpan` | kernel_lab/exl3/reference.py:40-82 | One span of words survives unpacking. |
| `TrellisCodec.SwapTwice` | kernel_lab/exl3/reference.py:50-71 | The word swap is its own inverse. |
| `TrellisCodec.UnpackOfPack` | kernel_lab/exl3/reference.py:21-83 | Main result: unpacking the packing of any in-range tile gives the tile, at every bitrate. |
| `TrellisCodec.PackOfUnpack` | kernel_lab/exl3/reference.py:21-83 | Main result: packing the unpacking of any word tile gives the words. |
| `TrellisCodec.Accumulate` | kernel_lab/exl3/reference.py:42-45 | The shift-or loop computes the positional value. |
| `TrellisCodec.PackOne` | kernel_lab/exl3/reference.py:40-53 | The loops with shifts and masks write the packed tile. |
| `TrellisCodec.UnpackOne` | kernel_lab/exl3/reference.py:69-83 | The loops with shifts and masks write the states. |
| `TrellisCodec.PackTrellis` | kernel_lab/exl3/reference.py:21-53 | Batch of tiles, with the errors in the order the source raises them. |
| `TrellisCodec.UnpackTrellis` | kernel_lab/exl3/reference.py:56-83 | Batch of tiles or a shape error. |
| `StreamingMatmul.Fubini` | kernel_lab/exl3/reference.py:220-228 | Exchanging the two finite summations. |
| `StreamingMatmul.PermuteInverse` | kernel_lab/exl3/reference.py:116-136 | The tensor-core permutation and its inverse, in all coordinates. |
| `StreamingMatmul.DecodeOfEncode` | kernel_lab/exl3/reference.py:21-146 | Main result: a tile decodes to what was encoded: states put in fragment order and packed give back, entry by entry, the codebook value of the state of that entry, at every bitrate. |
| `StreamingMatmul.TransformMoves` | kernel_lab/exl3/reference.py:160-177 | A block transform applied to the column or to the row gives the same product. |
| `StreamingMatmul.DenseByColumns` | kernel_lab/exl3/reference.py:189-206 | The dense product with output transform and scale pulled out. |
| `StreamingMatmul.ProductColumn` | kernel_lab/exl3/reference.py:219-228 | A column of the accumulator is the dense column sum before the output transform. |
| `StreamingMatmul.StreamedIsDense` | kernel_lab/exl3/reference.py:200-231 | Main result: the streamed value equals the dense product entry, for all dimensions divisible by the block. |
| `StreamingMatmul.AddTile` | kernel_lab/exl3/reference.py:228-228 | One decoded tile adds its partial products to its own columns and nothing elsewhere. |
| `StreamingMatmul.Accumulate` | kernel_lab/exl3/reference.py:220-228 | The tile loops leave the full inner product in every entry. |
| `StreamingMatmul.MatmulStreaming` | kernel_lab/exl3/reference.py:209-231 | Main result: the method returns, entry by entry, the dense product, or an error exactly on a width mismatch. |
| `IndexerChunks.TakeGroup` | overlay/patch_indexer_workspace.py:230-241 | The greedy loop takes the group of the specification. |
| `IndexerChunks.SplitRows` | overlay/patch_indexer_workspace.py:242-246 | The row loop lists the sub-chunks of the specification. |
| `IndexerChunks.SplitPrefillChunks` | overlay/patch_indexer_workspace.py:212-247 | The nested loops compute the chunk list of the specification. |
| `IndexerChunks.ChunksTile` | overlay/patch_indexer_workspace.py:212-247 | Main result: the chunks tile the query rows of the batch in order, without gap or overlap. |
| `IndexerChunks.EveryRowOnce` | overlay/patch_indexer_workspace.py:212-247 | Main result: each query row of each request lies in exactly one chunk, one that lists its request. |
| `IndexerChunks.ChunksBounded` | overlay/patch_indexer_workspace.py:230-246 | Main result: each chunk fits the logits budget unless it is a single row, and the workspace unless it is a single request. |
| `IndexerChunks.LegalTotal` | overlay/patch_indexer_workspace.py:191-200 | The keys of any legal batch fit the legal maximum. |
| `IndexerChunks.ChunksSame` | overlay/patch_indexer_workspace.py:228-247 | Two workspaces that both hold all keys give the same chunks. |
| `IndexerChunks.RightsizedChunksLikeStock` | overlay/patch_indexer_workspace.py:178-200 | Main result: on every legal batch the right-sized workspace, never larger, gives the chunks of the stock one. |
| `IndexerChunks.UndersizedChunksDiffer` | overlay/patch_indexer_workspace.py:228-241 | An example: a batch for which a smaller workspace gives another list. |
| `KpoolSeed.AddressesDiffer` | overlay/patch_kpool_tail_seed_stride.py:188-192 | Under roomy strides different ring entries have different addresses. |
| `KpoolSeed.LastTokensWrite` | overlay/patch_kpool_tail_seed_stride.py:172-184 | Of a contiguous request, exactly the last KPOOL tokens write. |
| `KpoolSeed.WritersDiffer` | overlay/patch_kpool_tail_seed_stride.py:172-188 | Main result: two writing instances never share a ring entry. |
| `KpoolSeed.EventsDiffer` | overlay/patch_kpool_tail_seed_stride.py:185-192 | No element is stored twice in a launch. |
| `KpoolSeed.RingHoldsLastTokens` | overlay/patch_kpool_tail_seed_stride.py:147-192 | Main result: after any interleaving of the stores each ring entry holds the key and score of its token. |
| `KpoolSeed.RestUnchanged` | overlay/patch_kpool_tail_seed_stride.py:147-192 | Main result: everything else is as before. |
| `KpoolSeed.OrderIrrelevant` | overlay/patch_kpool_tail_seed_stride.py:147-192 | Main result: all interleavings leave the same memory. |
| `KpoolSeed.DenseExactlyWhenUnpadded` | overlay/patch_kpool_tail_seed_stride.py:226-241 | The dense address is the padded one if and only if the block is 0 or the stride is unpadded. |
| `KpoolSeed.ApplySeed` | overlay/patch_kpool_tail_seed_stride.py:244-287 | Errors leave the buffer alone; otherwise both rows are written (score over key where they overlap), nothing else, and read back through the view. |
| `KpoolSeed.RunLaunch` | overlay/patch_kpool_tail_seed_stride.py:195-222 | Running the instances in turn is one of the interleavings. |
| `KpoolSeed.Instance` | overlay/patch_kpool_tail_seed_stride.py:172-192 | One instance issues exactly its own stores. |
| `DenseOverlay.ReadAttempt` | tools/dense_overlay.py:138-144 | One response is appended chunk by chunk and counted. |
| `DenseOverlay.ArrivedStays` | tools/dense_overlay.py:147-148 | Once everything arrived, later attempts would add nothing. |
| `DenseOverlay.StreamTo` | tools/dense_overlay.py:133-150 | Main result: for any pattern of short reads and failures the output is the range up to what arrived; success means exactly the range, and is reported exactly when all of it arrived. |
| `DenseOverlay.WriteHeader` | tools/dense_overlay.py:197-205 | Data offsets are the running sums of the sizes. |
| `DenseOverlay.DataStart` | tools/dense_overlay.py:206-209 | The data area starts on a multiple of eight. |
| `DenseOverlay.RangesTile` | tools/dense_overlay.py:200-205 | Main result: every payload byte belongs to exactly one tensor. |
| `DenseOverlay.SliceTrellis` | tools/dense_overlay.py:335-339 | The row-run join is the slice of the specification. |
| `DenseOverlay.SlicesRecombine` | tools/dense_overlay.py:335-339 | Main result: with divisible columns every byte of the fused trellis is a byte of exactly the slice, row and offset given. |
| `DenseOverlay.SlicesCoverExactlyWhenDivisible` | tools/dense_overlay.py:336-338 | The runs of a row cover it if and only if the number of blocks divides the columns. |
| `DenseOverlay.ProbedSourcesDivide` | tools/dense_overlay.py:245-251 | A fused source of the planned shape whose outputs are whole tiles divides, into slices of the width of one output. |
| `DenseOverlay.HalfTilesAreLost` | tools/dense_overlay.py:245-251 | Two outputs of 24: the planned shape has three columns, the slices have the planned length, and the third column is in neither. |
| `DenseOverlay.SvhSlicesRecombine` | tools/dense_overlay.py:332-334 | The output-scale slices recombine end to end. |
| `DenseOverlay.ReadPart` | tools/dense_overlay.py:125-150 | A resumed read returns exactly the bytes of its range, or nothing exactly when the attempts do not deliver it all. |
| `DenseOverlay.DownloadBytes` | tools/dense_overlay.py:319-339 | Neither the one-entry cache nor short replies change what is returned; it fails only if a read falls short in all attempts. |
| `DenseOverlay.GroupJobs` | tools/dense_overlay.py:522-526 | Every output is in exactly one job, that of its own key, once and in order. |
| `DenseOverlay.JobsDisjoint` | tools/dense_overlay.py:522-526 | Two jobs share no output. |
| `DenseOverlay.WritesDisjoint` | tools/dense_overlay.py:529-539 | No payload byte is written by two outputs. |
| `DenseOverlay.PayloadIsPlan` | tools/dense_overlay.py:512-552 | Main result: after any interleaving of all writes each payload byte is the planned byte of its tensor. |
| `DenseOverlay.HeaderUntouched` | tools/dense_overlay.py:537-537 | No write touches the header. |
| `DenseOverlay.FetchOne` | tools/dense_overlay.py:531-538 | One output is read, checked and written at its offset, or refused because its read falls short or its length differs; nothing else changes. |
| `DenseOverlay.Fetch` | tools/dense_overlay.py:529-539 | One job writes all of its outputs, keeping earlier ones, or names the output whose read fell short or whose length differs. |
| `DenseOverlay.WriteOverlay` | tools/dense_overlay.py:522-552 | Main result: over a network that cuts replies short at will, all jobs in turn leave every planned tensor in place, byte for byte; they stop only at an output whose read falls short of its range in all attempts or whose bytes do not have the planned length. |
| `DraftLogits.UpdateShows` | overlay/dflash2_speculator.py:123-140 | One update leaves a row that is -inf everywhere except at its new candidates, which hold their scores. |
| `DraftLogits.CallAt` | overlay/dflash2_speculator.py:110-140 | A call updates each active row once, from its value before the call. |
| `DraftLogits.OrderIrrelevant` | overlay/dflash2_speculator.py:110-140 | The order of whole instances within a call does not matter. |
| `DraftLogits.LastShows` | overlay/dflash2_speculator.py:110-140 | A row shows the last work for it, whatever other calls follow. |
| `DraftLogits.RowShowsLastWrite` | overlay/dflash2_speculator.py:110-140 | Main result: after any sequence of calls each updated row is -inf except at its cached candidates, where it holds the last scores. |
| `DraftLogits.Untouched` | overlay/dflash2_speculator.py:110-140 | Rows no call names are as before. |
| `DraftLogits.InitialIsOk` | overlay/dflash2_speculator.py:161-170 | All -inf with zeroed candidate ids satisfies the invariant. |
| `DraftLogits.RowsDisjoint` | overlay/dflash2_speculator.py:131-139 | Rows of different (request, step) pairs share no logit. |
| `DraftLogits.CachesDisjoint` | overlay/dflash2_speculator.py:130-140 | Nor any cached id. |
| `DraftLaunch.LoadedOld` | overlay/dflash2_speculator.py:130-136 | When a lane erases, the id it loaded is the one cached before the launch, whatever the other instances did in between. |
| `DraftLaunch.LaunchKeeps` | overlay/dflash2_speculator.py:110-140 | After any number of events of any interleaving, every active row holds exactly what its own instance has done so far, and all other memory is as before. |
| `DraftLaunch.AnyInterleavingIsCall` | overlay/dflash2_speculator.py:110-140 | Main result: whatever the interleaving of the loads and stores of all instances, lane by lane, that keeps the four statements of each instance apart, the rows are those of the call that runs whole instances in turn. |
| `DraftLaunch.InterleavingIrrelevant` | overlay/dflash2_speculator.py:110-140 | Main result: all such interleavings leave the same flat buffers, padding included. |
| `DraftLogits.DraftCache.constructor` | overlay/dflash2_speculator.py:161-170 | Allocates such a state. |
| `DraftLogits.DraftCache.Instance` | overlay/dflash2_speculator.py:123-140 | One active kernel instance on the flat buffers updates its own row and no other. |
| `DraftLogits.DraftCache.CacheDraftLogits` | overlay/dflash2_speculator.py:110-140 | One launch on the flat buffers is the abstract call. |
| `DraftLogits.SelectorWalk` | overlay/dflash2_speculator.py:50-107 | Each step records the score row its predecessor selected and the candidate chosen from it. |

## Left out

- MambaState.MambaRequest.AllocateNew: where the manager places the blocks is taken by contract (running state and speculative blocks at the end); block ids and prefix hits inside a block are not modelled.
- PrefixHit.FindHit: manager lookups are an oracle that answers for every member and never serves a target group longer than asked; when target lookups share no common unit and a reused target prefix is trimmed without a new lookup, a draft group may have been verified at a longer candidate than the hit. The fallback that flags every group for the lookahead pop when no drafter exists, the early exit of the stock loop and the final truncation of the returned blocks are not part of this model.
- FreeQueue.AllocateKeeps: allocation, prefix hits and key registration are taken by contract, with the cache group in place of the hash; resetting the cache is not modelled.
- MoeTiers.Launch: the native kernel is its contract; one coordinate of the hidden vector is followed, so rounding, the cast of routing weights to half precision and the width of the vector are not modelled.
- MoeDispatch.FusedMoe: missing pointer tables, device and contiguity checks and the growth of scratch buffers are not modelled; environment switches are fields of a settings record.
- LinearLoader.Exl3LinearMethod.LoadPart: a packed trellis tile is one value, so words per tile and element types are not checked; string shard ids, padded vocabularies, head types and broadcasting copies are not modelled.
- LinearLoader.Exl3LinearMethod.Build: retaining logical BF16 weights for large batches and registering the operator are left out.
- TrellisCodec.PackTrellis: element types are not checked; a state is the unsigned value of its 16 bits.
- StreamingMatmul.StreamedIsDense: exact arithmetic instead of single precision; the codebook and the block transform are arbitrary, so the procedural codebook and the Sylvester construction are not modelled.
- KpoolSeed.RunLaunch: lanes past the head width and the element-type assertions are left out.
- DenseOverlay.StreamTo: a response is the list of chunks it delivers before it ends or fails; waiting between attempts is left out.
- DenseOverlay.WriteOverlay: index and configuration files, building the plan from names and the final verification pass are left out.
- DraftLaunch.AnyInterleavingIsCall: the accesses of one instance happen statement by statement, as the program lists them; lanes of one statement are unordered.
- DraftLogits.SelectorWalk: the noised maximum is an arbitrary rule that picks a candidate position.
- FairScheduler.MixedPrefill.ObserveOutput: served-token totals, missed-prefill and refusal counters, the carry annotation, traces and log lines do not influence any decision and are left out; the memo of the cost fit is recomputed instead.
- FairScheduler.MixedPrefill.BeginStep: object identities are numbers, request attributes are well-typed, and the waiting queues are one list.
- FairScheduler.MixedPrefill.constructor: parsing the environment is replaced by the bounds it guarantees.
- The one-line test that keeps the base loop from preempting a decode for prompt work.
- Choosing retention intervals per cache group and validating them: short case distinctions without state.
- Text anchors, migration of earlier patch versions, hashes, file replacement, launchers, probes, receipts and documentation scripts.
