# A verified model of the gateway's money and routing core

This project models, in Dafny 4.11, the parts of the c3api gateway whose correctness does not
follow from reading one function: what a request costs, how the ledger charges it exactly once,
what the provider balance cache may answer, which proxy route counts as healthy, and how instances
count each other. `dafny verify dfyconfig.toml` checks everything.

How it is laid out:

- **Pricing.** `Cost` (saturating int64 fixed point against unbounded arithmetic), `PriceResolve`
  (first matching variant, exact multipliers), `Marker` (the `no_price` tier marker), `Reprice`
  (recovering a missing charge). `Arithmetic` and `Text` hold shared definitions.
- **Ledger.** `Fefo` (temporary balances), `Ledger` (rows, funds and the store's statements as
  functions), `LedgerRuns` (any number of instances; reading a batch and committing it are separate
  events), `LedgerCycles` (the program of a cycle, and why its runs keep the lock's discipline),
  `LedgerParallel` (buckets commute), `Drain` (progress of the cursor), `LaneMerge` (the
  bucket goroutines of one lane), `SettleCalls` (what each bucket's call meets, and how the batch size moves),
  `DrainRounds` (rounds, cycles and shutdown, and what a round without progress means for the rows), `Batching`,
  `UserBalances` and `Flusher` (the objects, in the source's imperative form), `WriteOffs` (where concurrent marks
  come from).
- **Balance cache.** `BalanceSnapshot` (the object and its critical sections), `BalanceCacheRuns`
  (concurrent `Get`s and invalidations), `CacheKey` (the key's string form).
- **Proxy route.** `ProxyRoute` (the object, one method per critical section of `mu`),
  `ProxyRuntime` (all interleavings of Apply, SetTLS, start-up probes and retry ticks), `ProxyOperations`
  (what an undisturbed Apply, re-apply, SetTLS or start-up check achieves after any run).
- **Discovery.** `Discovery` (one event per Redis command, skewed clocks).

Concurrent parts are total functions `Next(state, event)` run over arbitrary event sequences, so a
theorem about `Run(es)` covers every interleaving. Each critical section is written twice: as a
function on values, and as a method of a class proved to compute that function. I/O, clocks and
failures are inputs: parameters of an event or of a method. The order in which goroutines run is a free choice.

Where the code departs from what it promises, the code is modelled as it is and the exact condition is proved:

- *Retries never replace the route* holds exactly when the start-up proxy URL has no surrounding
  white space (`ProxyRuntime.WorkerKeepsRouteIffTrimmed`). The start-up URL is validated trimmed but
  stored untrimmed, while a retry applies the trimmed one.
- *signedMulDivBP is exact or saturates* holds exactly when the uint64 increment does not wrap
  (`Reprice.SignedMulDivBPExactIff`); it never wraps on the amounts a reprice produces (`Reprice.RecoveryArithmetic`).
- *Validator and resolver agree* holds exactly when the multiplier is in range or touches some
  component (`PriceResolve.ValidatorAgreesIff`).
- *Recovery removes the marker* fails exactly for a recorded tier that itself starts with `no_price`
  (`Marker.RecoveredStillMarkedIff`); marking an unmarked row never writes such a tier (`Marker.MarkerRoundTrip`).
- *Live members are never pruned* holds exactly when the longer of heartbeat gap and tick timeout, plus clock
  skew, is below 15 s (`Discovery.BudgetIsExact`).
- *A tick's count always contains the ticking instance, and the key dies only after everybody* holds
  exactly as long as the key does not expire between the instance's ZADD and its EXPIRE
  (`Discovery.SelfStaysCountedIff`, `Discovery.ExpiryFindsNobodyRenewed`). A newcomer can be caught by the
  deadline of a cluster that died before it, exactly if that deadline is at most a second after the newcomer
  reads its clock (`Discovery.FarDeadlineIsCounted`, `Discovery.ExpiryLosesLiveInstance`).
- *It does not matter how a user's rows are split into windows* holds exactly under the condition of
  `Ledger.ChargeTwiceIff`. A window that exhausts the global temporary balance puts its excess on the main
  balance, while the next window may draw on a group's balance (`Ledger.WindowSizeMatters`); the adaptive batch
  size decides which happens.
- *Only deterministic errors write a row off* is stated by the source's comment; the code also counts
  concurrent marks. `Flusher.LedgerStore.SettleBatch` says exactly which histories write a row off. While the
  instances keep the lock the comment is right (`WriteOffs.FleetWritesOffOnlyBadData`); without it a sound row
  can be written off (`WriteOffs.LostLockWritesOffSoundRow`).
- *AddCostParts is associative* holds exactly off the saturation boundary (`Cost.AddCostPartsAssociativeIff`),
  and every grouping rounds to the same charge (`Cost.GroupingIrrelevant`).

Assumed of the environment: a row arrives uncharged, and a row that carries a `no_price` marker arrives
with cost at most 0 and a tier that recovers to an unmarked one (`LedgerRuns.WellBorn`). Marking an
unmarked row yields such a tier (`Marker.MarkerRoundTrip`); the cost is an assumption on the writer of
usage rows. Redis commands of a tick stop with the tick's one-second context.

## Model

| member | source | states |
|---|---|---|
| `Cost.SaturatingCostMul` | internal/billing/cost.go:93-101 | the division guard computes min(a*b, limit) over unbounded integers, 0 for non-positive operands |
| `Cost.SaturatingCostAdd` | internal/billing/cost.go:215-229 | min of the sum of the non-negative parts and MaxInt64, without overflow |
| `Cost.SplitCostParts` | internal/billing/cost.go:126-131 | splitting loses nothing and is normalised |
| `Cost.AddCostParts` | internal/billing/cost.go:200-211 | exact addition below MaxInt64 units, pinned at MaxInt64 from there on |
| `Cost.CostPartsFromResolved` | internal/billing/cost.go:136-160 | the parts are exactly the sum of the four components, each price*tokens capped at segBudget, cache prices falling back to input |
| `Cost.ImageCostPartsFromResolved` | internal/billing/cost.go:175-194 | the parts are exactly the capped image total |
| `Cost.CallCostFromResolved` | internal/billing/cost.go:249-260 | per-call price times count, saturated |
| `Cost.RoundIsHalfUp` | internal/billing/cost.go:237-246 | rounding normalised parts is half-up rounding of their exact value, saturated |
| `Cost.CostFromResolvedExact` | internal/billing/cost.go:163-165 | the int64 pipeline equals half-up rounding of the exact total for every price and token count |
| `Cost.ImageCostExact` | internal/billing/cost.go:168-194 | the image cost is the half-up rounding of the exact total and never exceeds imageTotalCap |
| `Cost.CostMonotone` | internal/billing/cost.go:136-165 | raising any token count or any price never lowers the charge |
| `Cost.ImageCostMonotone` | internal/billing/cost.go:168-194 | the same for image charges |
| `Cost.FoldIsExactOrPinned` | internal/billing/cost.go:200-211 | any tree of additions is exact until the exact sum reaches MaxInt64 units and stays pinned after |
| `Cost.RoundingOnce` | internal/billing/cost.go:196-246 | folding parts in any grouping and rounding once equals min(MaxInt64, half-up of the exact sum) |
| `Cost.GroupingIrrelevant` | internal/billing/cost.go:196-246 | two trees over the same multiset of parts round to the same charge |
| `Cost.AddCostPartsAssociativeIff` | internal/billing/cost.go:200-211 | addition is associative if and only if the units do not come to one below MaxInt64, or both groupings carry alike, or the remainders fill a unit exactly |
| `Cost.AddCostPartsNotAssociative` | internal/billing/cost.go:200-211 | three parts at the boundary for which it is not |
| `Cost.CarryProduct` | internal/billing/cost.go:283-305 | carrying the scaled remainder keeps the product's quotient and remainder, or pins at MaxInt64 |
| `Cost.MultiplierFloorExact` | internal/billing/cost.go:283-305 | quotient and remainder by 10000 of the exact product, or pinned |
| `Cost.ApplyMultiplierExact` | internal/billing/cost.go:265-281 | both multiplier functions equal the saturated exact half-up of cost*m/10000 with m clamped |
| `Cost.TokensAtOwnPrice` | internal/billing/cost.go:136-166 | prompt tokens alone cost the input price, completion tokens alone the output price, half-up |
| `Cost.CacheAtOwnPrice` | internal/billing/cost.go:140-158 | cached tokens alone cost their own price, or the input price if they have none; read and write prices are not interchangeable |
| `Cost.ComponentsAddUp` | internal/billing/cost.go:136-160 | the exact total is the sum of the four components alone |
| `Cost.ImagesAtOwnPrice` | internal/billing/cost.go:168-194 | image input and output tokens alone cost their own prices; images alone the per-image price each, up to the cap |
| `Cost.MultiplierLandmarks` | internal/billing/cost.go:265-280 | times 10000 changes nothing, times 20000 doubles, zero and negative multipliers are free |
| `Marker.MarkerRoundTrip` | internal/proxy/forward.go:709-740 | recovery reads back the normalised tier and the request-time multiplier the proxy wrote, or the fallback when none was in range |
| `Marker.MultiplierReadBackIff` | internal/billing/reprice.go:40-54 | a recorded multiplier is read back iff it is at most 100000; beyond that, and beyond int64, the current one is used |
| `Marker.MarkingTwice` | internal/proxy/forward.go:709-740 | for all multipliers: marking a marked row keeps its first tier and multiplier, except that a first mark with neither takes the second multiplier; the two marks differ exactly then |
| `Marker.RecoveredStillMarkedIff` | internal/billing/reprice.go:20-35 | a recovered tier is still marked exactly when the recorded tier starts with no_price |
| `Marker.RecoveredStillMarkedExample` | internal/billing/reprice.go:20-35 | a concrete such tier |
| `Reprice.RawCostExact` | internal/billing/reprice.go:144-192 | for every format the raw cost is the half-up rounding of the exact amount, and is bounded |
| `Reprice.SignedMulDivBPExactIff` | internal/billing/reprice.go:213-244 | exact round-half-away and saturating if and only if the uint64 quotient increment does not wrap |
| `Reprice.SignedMulDivBPWraps` | internal/billing/reprice.go:213-244 | concrete operands for which it wraps to 0 |
| `Reprice.SettleIsExactMoney` | internal/billing/reprice.go:193-209 | charge, upstream cost, profit and margin are exact; margin at most 10000; charge 0 iff raw cost is 0 or the effective multiplier is not positive |
| `Reprice.RecoveryArithmetic` | internal/billing/reprice.go:126-211 | end to end for a row that is priced: charge, upstream cost, profit and margin are the exact ones of the prices looked up, nothing saturates or wraps; which price that is, is stated by OneLookup and the PricedIff rows |
| `Reprice.MappedModelDecides` | internal/billing/reprice.go:127-130 | with a non-blank mapped model the result does not depend on the requested model |
| `Reprice.RequestedModelSteppedIn` | internal/billing/reprice.go:127-130 | with a blank one the result is that of the row with the requested model as mapped model |
| `Reprice.OneLookup` | internal/billing/reprice.go:127-135 | two resolvers that agree at the trimmed model, the whole prompt (input plus cached for chat and responses) and the recovered tier give the same result |
| `Reprice.ChatPricedIff` | internal/billing/reprice.go:69-106 | a chat or messages row is priced iff the model is found and, if it has tokens, both token prices are known and non-negative |
| `Reprice.ResponsesPricedIff` | internal/billing/reprice.go:69-106 | the same for responses rows, which with image calls also need the per-image price |
| `Reprice.ImagesPricedIff` | internal/billing/reprice.go:69-106 | an images row is priced iff the model is found and the prices of what it has are known: token prices if the model has any, else the per-image price |
| `Reprice.SearchAlwaysPriced` | internal/billing/reprice.go:136-166 | a search row is always priced: count times the known per-call price, or 1000 while none is known |
| `Reprice.CacheFallbackKeepsCost` | internal/billing/reprice.go:108-121 | filling in cache prices never changes the cost |
| `Reprice.ReproducibleCharge` | internal/billing/reprice.go:144-192 | the returned price columns and the row's counters alone reproduce the raw cost |
| `PriceResolve.PriceMultiplierExact` | internal/domain/price_resolve.go:112-134 | succeeds iff operands are in range and price*mult/10000 is an int64 integer, and then is exactly it |
| `PriceResolve.JoinExact` | internal/domain/price_resolve.go:112-134 | quotient and remainder products join exactly or are refused |
| `PriceResolve.ApplyComponent` | internal/domain/price_resolve.go:58-100 | a component is overridden, exactly scaled, or unchanged |
| `PriceResolve.FirstMatch` | internal/domain/price_resolve.go:34-37 | the found variant matches and no earlier one does |
| `PriceResolve.ApplyMult` | internal/domain/price_resolve.go:45-57 | scales into a new cell, never writing the shared one |
| `PriceResolve.ApplyAll` | internal/domain/price_resolve.go:58-100 | multiplier then overrides on all eight components equals the component-wise rule, fails iff one leaves the grid |
| `PriceResolve.ResolveEntryPrices` | internal/domain/price_resolve.go:18-104 | first match on the shared cells: the entry itself without a match, otherwise override or exact scaling per component with the variant's number, refused off the grid; no cell is written and returned cells are the entry's or fresh. What matches is stated by FailedConditionExcludes and the rows after it |
| `PriceResolve.FailedConditionExcludes` | internal/domain/price_resolve.go:169-194 | a nil variant, one for another tier, one whose prompt range or weekday mask excludes the request: taking it out from anywhere changes nothing |
| `PriceResolve.OwnTierDecides` | internal/domain/price_resolve.go:34-107 | a variant for the request's tier, or for every request, decides the result when it is first: overrides win, other components are scaled exactly |
| `PriceResolve.DistinctTiersSelectOwn` | internal/domain/price_resolve.go:169-175 | of variants over distinct tiers exactly the one that names the request's tier is selected, wherever it stands |
| `PriceResolve.UnknownTierGetsBase` | internal/domain/price_resolve.go:169-175 | if none names it, the base prices apply |
| `PriceResolve.MasksSplitWeek` | internal/domain/price_resolve.go:187-192 | a mask and its complement split the week; 127 is every day, 0 none, bit 0 is Sunday and bit 6 Saturday |
| `PriceResolve.ValidateVariantPricePrecision` | internal/domain/price_resolve.go:139-166 | accepts iff every touched component stays on the grid, and reports the first that does not |
| `PriceResolve.ValidatorAgreesIff` | internal/domain/price_resolve.go:34-166 | validator and resolver agree iff the multiplier is in range or touches a component |
| `PriceResolve.ValidatorAcceptsWhatResolverRefuses` | internal/domain/price_resolve.go:41-160 | an entry and variant on which they disagree |
| `PriceResolve.NonMatchingIrrelevant` | internal/domain/price_resolve.go:34-37 | dropping all non-matching variants changes nothing |
| `PriceResolve.AppendIrrelevant` | internal/domain/price_resolve.go:34-101 | whatever follows the first match changes nothing |
| `PriceResolve.TilesSelectOne` | internal/domain/price_resolve.go:169-194 | tiling half-open context ranges, closed or open at the ends, select exactly one variant for every prompt they cover |
| `PriceResolve.OpenTilesSelectOne` | internal/domain/price_resolve.go:169-194 | with both ends open they select exactly one variant for every prompt |
| `PriceResolve.WindowsPartitionDay` | internal/domain/price_resolve.go:196-228 | [s,e) and [e,s) split every minute between them, also across midnight; equal ends always match |
| `PriceResolve.WindowIsCyclic` | internal/domain/price_resolve.go:207-218 | a two-sided window is the minutes from start to end counted round the clock |
| `Fefo.WindowIsGreedy` | internal/repository/billing_settle_sql.go:94-110 | the window-function withdrawals are those of emptying the pool front to back |
| `Fefo.PoolPays` | internal/repository/billing_settle_sql.go:111-120 | withdrawals sum to min(charge, pool) and the pool keeps the rest |
| `Fefo.RowPays` | internal/repository/billing_settle_sql.go:111-114 | no row is overdrawn and exactly its take leaves it |
| `Fefo.EarlierFirst` | internal/repository/billing_settle_sql.go:94-110 | a row is touched only when every earlier one is empty |
| `Fefo.DrainTwice` | internal/repository/billing_settle_sql.go:104-114 | one pool that is charged twice ends as if charged once |
| `Fefo.PoolsPay` | internal/repository/billing_settle_sql.go:93-120 | with one pool per group, what leaves the pools is what is drawn, and never more than the groups' charges |
| `Ledger.First` | internal/repository/billing_settle_sql.go:30-30 | ORDER BY id LIMIT n takes at most n rows that satisfy the predicate |
| `Ledger.FirstIsFirst` | internal/repository/billing_settle_sql.go:20-30 | a row left out comes after a full batch |
| `Ledger.Batch` | internal/repository/billing_settle_sql.go:20-30 | only unbilled, billable, positive-cost rows of the bucket; a row is in the temp lane iff a global or its group's temporary balance is active |
| `Ledger.OneLaneOneBucket` | internal/repository/billing_settle_sql.go:20-30 | every billable, unbilled row with a positive cost is in exactly one lane and one bucket, and no other row is in any: temp lane iff its user's global pool or its own group's pool holds something |
| `Ledger.BatchHolds` | internal/repository/billing_settle_sql.go:82-92 | a batch holds only open rows of its own lane and bucket, and what it leaves out comes after a full batch |
| `Ledger.Charge` | internal/repository/billing_settle_sql.go:79-132 | a charge takes exactly its amount from the user's funds: the global pool while it has funds, else each group's pool for that group's rows, the balance for the rest |
| `Ledger.WhoPays` | internal/repository/billing_settle_sql.go:79-132 | the balance lane touches no temporary funds; the temp lane empties the global pool first and then leaves the groups alone; without global funds each group's pool pays that group's part |
| `Ledger.OwnGroupPays` | internal/repository/billing_settle_sql.go:93-124 | without global funds a row draws on the pool of its own group only |
| `Ledger.PartsWithinTotal` | internal/repository/billing_settle_sql.go:93-93 | the per-group totals never exceed what the user owes, so the spill is never negative |
| `Ledger.ChargeTwiceIff` | internal/repository/billing_settle_sql.go:79-132 | charging a user in two windows equals charging once if and only if there are no global temporary funds, or the first window leaves some, or the second draws nothing from the groups' pools |
| `Ledger.WindowSizeMatters` | internal/repository/billing_settle_sql.go:79-132 | an account whose balance depends on how its rows are split into windows |
| `Ledger.SettleSum` | internal/repository/billing_settle_sql.go:31-51 | a settlement moves exactly the batch's cost into each known user's charged sum |
| `Ledger.MarkSum` | internal/repository/billing_cursor.go:201-207 | pure marking charges nobody |
| `Ledger.RepriceSum` | internal/repository/billing_cursor.go:155-189 | repricing charges nobody |
| `LedgerRuns.RunInv` | internal/billing/flusher.go:25-55 | after any run every row is sound, every user balanced, and every open batch still has the costs it read |
| `LedgerRuns.ExactlyOnceConservation` | internal/billing/drain.go:67-170 | over any run of any instances, with refusals, rollbacks, isolation and reprices: no row charged twice, funds are payments minus exactly the costs of billed rows with a deduction |
| `LedgerRuns.SettleTakesEffect` | internal/repository/billing_settle.go:186-245 | in any state, reading a batch and committing it bills exactly its rows, uncharged iff the user does not exist, and the lane decides which funds pay |
| `LedgerRuns.SweepTakesEffect` | internal/billing/drain.go:146-170 | a sweep takes exactly the free priced rows of its window and moves no money |
| `LedgerRuns.RepriceTakesEffect` | internal/billing/reprice.go:250-285 | a recovery writes its charges and the recovered tiers into exactly the rows it named |
| `LedgerRuns.SweepTakesOnlyFreeRows` | internal/billing/drain.go:146-170 | whatever happens between fetch and mark, the sweep marks only rows with cost <= 0 and no no_price marker |
| `LedgerRuns.BilledIsFinal` | internal/domain/types.go:894-910 | over any continuation billed rows never change and priced rows keep their price |
| `LedgerRuns.LockedRunOrderly` | internal/billing/flusher.go:230-253 | under the lock discipline open batches are disjoint and stay unbilled |
| `LedgerRuns.LockPreventsConcurrentMarks` | internal/billing/flusher.go:230-253 | under the lock the marked == batch guard never fires |
| `LedgerRuns.UnlockedBatchesOverlap` | internal/repository/billing_settle.go:48-54 | without it two instances can hold the same batch, so the guard is needed |
| `LedgerCycles.FleetIsLocked` | internal/billing/flusher.go:230-253 | every run of instances that follow the cycle (lock, recovery, lanes with parallel buckets, sweep, release) is a run under the lock discipline |
| `LedgerCycles.CourseOfCycle` | internal/billing/flusher.go:230-253 | an instance that finds the lock free gets it and goes through recovery, balance lane, temp lane and sweep, then round again |
| `LedgerCycles.LaneSettles` | internal/billing/drain.go:85-123 | in a lane every bucket's batch can be read and committed whatever the other buckets have open, and then all its rows are billed |
| `LedgerCycles.FleetNeverMarksTwice` | internal/billing/flusher.go:230-253 | in such a fleet no settlement ever meets a row somebody else has marked |
| `WriteOffs.FleetWritesOffOnlyBadData` | internal/repository/billing_settle.go:91-133 | in such a fleet only three data errors write a row off |
| `WriteOffs.LostLockWritesOffSoundRow` | internal/repository/billing_settle.go:48-133 | without the lock: a run in which another instance's commits roll an instance back three times and it then writes off a sound row |
| `LedgerParallel.PerformElsewhere` | internal/billing/drain.go:75-123 | a bucket's call, settled window or written-off head, leaves the rows and funds of other buckets alone |
| `LedgerParallel.PerformLocal` | internal/billing/drain.go:75-123 | and its effect on its own rows and users depends on nothing else |
| `LedgerParallel.JoinedStep` | internal/billing/drain.go:75-123 | whatever the others have done, a bucket's call adds exactly the part it would make of the starting ledger alone |
| `LedgerParallel.JoinedUnique` | internal/billing/drain.go:75-123 | so the ledger is determined by the start and the buckets' outcomes, not by their order |
| `LedgerParallel.BucketsCommute` | internal/billing/drain.go:75-123 | two buckets' calls, whatever their outcomes, give the same ledger in either order |
| `Drain.MeasureDrops` | internal/billing/drain.go:37-51 | (#unbilled + #unbilled no_price) drops by exactly the number of rows that got lighter |
| `Drain.SettleProgress` | internal/repository/billing_settle_sql.go:20-66 | a settlement shrinks the measure by exactly its batch and conserves every user's funds plus charges |
| `Drain.MarkProgress` | internal/repository/billing_cursor.go:201-207 | a pure mark of priced rows shrinks it by exactly their number and moves no money |
| `Drain.RepriceProgress` | internal/repository/billing_cursor.go:155-189 | a reprice shrinks it by exactly the rows repriced and moves no money |
| `Drain.SummaryTellsBalances` | internal/repository/billing_settle_sql.go:56-66 | the returned pairs are exactly the users whose balance moved, with the new balance |
| `Drain.SummaryCounts` | internal/repository/billing_settle_sql.go:32-61 | read off the ledgers before and after: BatchRows and Marked count the rows that left the cursor, DebitedUsers those whose balance dropped and stayed at or above zero, ForcedUsers those below zero, Quarantined the rows that left uncharged |
| `LaneMerge.ActIsSound` | internal/repository/billing_settle.go:91-133 | a settle call makes exactly Marked rows of progress and its summary is right about every user and names only its bucket's |
| `LaneMerge.SameSummary` | internal/billing/drain.go:85-123 | a call returns the same summary whatever other buckets have done before it |
| `LaneMerge.BucketCalls` | internal/billing/drain.go:94-100 | a bucket's call keeps the lane invariant while the others are anywhere in their work |
| `LaneMerge.BucketMerges` | internal/billing/drain.go:101-114 | so does its merge |
| `LaneMerge.BucketDropsOut` | internal/billing/drain.go:103-108 | a failed bucket contributes nothing |
| `LaneMerge.LaneEnds` | internal/billing/drain.go:117-122 | when all are merged, every bucket made one call, the ledger is the one these calls make of the start, and the total sums the answers of exactly the successful ones |
| `LaneMerge.LaneTells` | internal/billing/drain.go:117-122 | the total is right about every user's balance |
| `LaneMerge.LaneDeterministic` | internal/billing/drain.go:85-123 | same start and same calls give the same ledger and the same total in every interleaving |
| `LaneMerge.RefreshKeepsAgreement` | internal/billing/drain.go:128-131 | writing the merged pairs into an agreeing snapshot makes it agree with the new ledger |
| `Batching.BatchController.constructor` | internal/billing/batch_controller.go:48-50 | starts at 8000, in range |
| `Batching.BatchController.Observe` | internal/billing/batch_controller.go:66-81 | stays in [500, 64000], shrinks only on timeout, grows only on a fast full batch |
| `Batching.RangeAndShrink` | internal/billing/batch_controller.go:66-81 | the same for every sequence of observations |
| `Batching.TimeoutsShrink` | internal/billing/batch_controller.go:69-71 | n timeouts divide the size by 2^n or reach the floor |
| `Batching.FastFullBatchesGrow` | internal/billing/batch_controller.go:66-81 | n fast full batches multiply the size by 2^n or reach the ceiling |
| `Batching.OthersKeepSize` | internal/billing/batch_controller.go:66-81 | other errors, slow batches and batches that are not full leave the size alone |
| `Batching.SevenTimeoutsReachFloor` | internal/billing/batch_controller.go:28-37 | seven timeouts bring any size to the floor |
| `UserBalances.Balances.Reload` | internal/billing/balances.go:72-103 | all three tables are replaced or none |
| `UserBalances.Balances.ReloadMultipliers` | internal/billing/balances.go:109-126 | both multiplier tables or neither; balances untouched |
| `UserBalances.Balances.Set` | internal/billing/balances.go:132-138 | updates an existing entry and never adds one |
| `UserBalances.SetVisibleIff` | internal/billing/balances.go:63-138 | racing a Reload, a Set reaches the current snapshot iff its user is in it and no Reload came between its load and its store |
| `UserBalances.ReloadWins` | internal/billing/balances.go:63-103 | Sets under way when a Reload publishes cannot change its table, however they finish |
| `UserBalances.Balances.BalanceOf` | internal/billing/balances.go:142-149 | a missing user is missing, not zero |
| `UserBalances.Balances.EffectiveMultiplier` | internal/billing/balances.go:156-168 | the rate depends on nothing but the user's own entry in the group and the group's entry |
| `UserBalances.DefaultRate` | internal/billing/balances.go:156-168 | a user and group without entries, and everybody before the first load, get 10000 |
| `UserBalances.OwnRateIsLocal` | internal/billing/balances.go:156-168 | of the rate EffectiveMultiplier computes: an own rate changes that user-group pair and no other |
| `UserBalances.RevokedRateIsGroupRate` | internal/billing/balances.go:156-168 | revoking it brings back the rate of every user without one |
| `UserBalances.GroupRateReach` | internal/billing/balances.go:156-168 | a group's rate reaches exactly its users without an own rate |
| `UserBalances.CopyOf` | internal/billing/balances.go:94-99 | the fresh entries equal the loaded table |
| `Flusher.LedgerStore.SettleOnce` | internal/repository/billing_settle.go:186-245 | a transaction settles its whole window or leaves no trace |
| `Flusher.LedgerStore.IsolateHead` | internal/repository/billing_settle.go:120-133 | writes off only the head row of its own lane and bucket, iff there is one and probe and mark succeed; a deadline in either is reported as one |
| `Flusher.LedgerStore.Ladder` | internal/repository/billing_settle.go:105-119 | at most three attempts, only data errors and concurrent marks are retried, nothing remains of a failed one |
| `Flusher.LedgerStore.SettleBatch` | internal/repository/billing_settle.go:99-133 | errors leave the ledger alone; a head row is written off iff all three attempts met data errors or concurrent marks, a head exists, and probe and mark succeed |
| `SettleCalls.ConcurrentMarksWriteOff` | internal/repository/billing_settle.go:91-132 | three concurrent marks write off a head row whose data are sound |
| `SettleCalls.WritesOffIff` | internal/repository/billing_settle.go:99-133 | a call writes a head row off iff every attempt met a data error or a concurrent mark, a head exists, and probe and mark succeed |
| `SettleCalls.ErrorsIff` | internal/repository/billing_settle.go:99-133 | exactly when a call reports a deadline and when no error: by its first reply that is not retried, else by probe, head row and mark in this order |
| `SettleCalls.SettledAsOnStart` | internal/billing/drain.go:94-100 | a bucket's call ends as it would have on the ledger the lane started from, whatever the others did meanwhile |
| `SettleCalls.SizeShrinksOnTimeout` | internal/billing/batch_controller.go:66-81 | over a whole lane the batch size shrinks only if one of its calls timed out |
| `Flusher.LedgerStore.MarkBilledBulk` | internal/repository/billing_cursor.go:201-207 | marks all or nothing, moves no money |
| `Flusher.LedgerStore.ApplyRepricedBatch` | internal/repository/billing_cursor.go:155-189 | changes and counts only rows still unbilled and unpriced |
| `Flusher.CollectFree` | internal/billing/drain.go:154-159 | keeps exactly the free rows that are not waiting for a price |
| `Flusher.CollectPriced` | internal/billing/reprice.go:264-273 | keeps exactly the rows that can be priced now |
| `DrainRounds.RecoveredAsRepriced` | internal/billing/reprice.go:250-285 | recovery writes exactly the tier and charge RepriceUsage computes under the user's multiplier, and leaves every other row alone |
| `Flusher.Flusher.RepriceWindow` | internal/billing/reprice.go:254-284 | if fetch and write succeed, writes back exactly the rows of the window that have a price and returns their number; otherwise changes nothing |
| `Flusher.Flusher.ApplySettlement` | internal/billing/drain.go:128-139 | refreshes exactly the told entries that exist and adds the quarantine count |
| `Flusher.Flusher.StepBucket` | internal/billing/drain.go:94-115 | every atomic step of a bucket goroutine keeps the lane invariant, records at most its own call, and brings the lane nearer its end |
| `Flusher.Flusher.RunBuckets` | internal/billing/drain.go:92-117 | for every interleaving and failing subset: each bucket makes the call its inputs decide, with a size the controller had, and reports once; the ledger is each bucket's call on the start, the merged summary the sum of the successful ones, the size moved report by report |
| `Flusher.Flusher.SettleLaneParallel` | internal/billing/drain.go:85-123 | the same, and returns exactly the rows marked, refreshes the snapshot with exactly the merged pairs and keeps it in agreement with the ledger, adds the quarantined rows, conserves money |
| `Flusher.Flusher.SweepZeroCost` | internal/billing/drain.go:146-170 | if fetch and mark succeed, marks exactly the sweepable rows of its window and returns their number; otherwise changes nothing |
| `Flusher.Flusher.RepriceNoPrice` | internal/billing/reprice.go:250-285 | wired and reachable: reprices exactly the recoverable rows of its window, each under the snapshots in force when it is priced; otherwise changes nothing |
| `Flusher.Flusher.ConsumeBatch` | internal/billing/drain.go:67-73 | the balance lane on its controller, then the temp lane on its own from the ledger that left, then the sweep; the count is the sum of the three and exactly the progress. 0 means the ledger did not move, and if every call came back that no row is left to charge: every batch of both lanes and all buckets is empty |
| `Flusher.Flusher.DrainLoop` | internal/billing/drain.go:37-51 | a chain of such rounds from the first ledger to the last; it ends exactly on cancellation, on a round without progress or when late, also without its clock; the count is the sum. If it ran dry, every row that was open at the start is billed |
| `Flusher.Flusher.ConsumeCycle` | internal/billing/flusher.go:230-253 | without the session lock nothing at all changes; with it recovery runs first and the drain loop on what it left, and the count is the sum of both |
| `Flusher.Flusher.CloseDrain` | internal/billing/flusher.go:349-370 | a chain of cycles that ends exactly on an expired budget or a cycle without progress, also without its budget; the count is the sum |
| `DrainRounds.FetchSkipsNothing` | internal/repository/billing_cursor.go:107-150 | neither fetch window skips a row: what it leaves out comes after a full window |
| `DrainRounds.ZeroRoundIsStill` | internal/billing/drain.go:40-44 | a round that reports 0 left the ledger exactly as it was |
| `DrainRounds.ZeroRoundMeansDone` | internal/billing/drain.go:40-44 | if moreover every call came back, nothing waits to be charged in either lane and any bucket |
| `DrainRounds.ZeroRoundLeavesUnpriced` | internal/billing/drain.go:141-170 | and if the sweep got through and its window is not full, every unbilled billable row waits for a price |
| `DrainRounds.RoundKeepsRows` | internal/billing/drain.go:67-73 | a round never changes a row's user, group, cost, tier or billable flag, and never unbills |
| `DrainRounds.DryDrainChargesAll` | internal/billing/drain.go:34-51 | a drain loop that stops for lack of progress, with every call of its last round answered, has billed every row that was open |
| `DrainRounds.FairDrainRunsDry` | internal/billing/drain.go:34-51 | if nobody cancels it, it is never late and first attempts commit, it always stops that way |
| `DrainRounds.DryCycleCollects` | internal/billing/flusher.go:230-253 | a locked cycle that ran dry billed every open row, and every row of its recovery window at the positive charge RepriceUsage gives it |
| `DrainRounds.IdleFairCycle` | internal/billing/flusher.go:230-253 | a locked fair cycle that reports 0 found every row charged and nothing it could price |
| `DrainRounds.FairCloseChargesAll` | internal/billing/flusher.go:349-370 | a shutdown within its budget, with the lock and in fair weather, leaves nothing to charge |
| `BalanceSnapshot.BalanceCache.constructor` | internal/billing/provider_balance.go:229-238 | starts empty |
| `BalanceSnapshot.BalanceCache.EvictOneLocked` | internal/billing/provider_balance.go:383-402 | the scan removes a least recently used non-fetching entry, or reports that there is none |
| `BalanceSnapshot.BalanceCache.AdmitLocked` | internal/billing/provider_balance.go:262-270 | finds or creates the entry within the bound |
| `BalanceSnapshot.BalanceCache.Touch` | internal/billing/provider_balance.go:271-311 | case by case: a fresh value is served; else a fetch in flight is waited for; else a cooling entry answers with its last state, a stale value only within its deadline; else unconfigured is answered as such; a fetch starts iff none of these holds |
| `BalanceSnapshot.BalanceCache.LookupLocked` | internal/billing/provider_balance.go:261-311 | the whole first critical section |
| `BalanceSnapshot.BalanceCache.SettleLocked` | internal/billing/provider_balance.go:315-346 | the second critical section: a cancelled fetch keeps the previous value, a fresh answer is this fetch's, a stale one is the previous value before its own deadline, and no failure moves that deadline |
| `BalanceSnapshot.BalanceCache.InvalidateAccount` | internal/billing/provider_balance.go:370-381 | the loop removes exactly the account's entries |
| `BalanceSnapshot.BalanceCache.Invalidate` | internal/billing/provider_balance.go:353-367 | the loop removes exactly the entries of the trimmed provider and account |
| `BalanceCacheRuns.RunInv` | internal/billing/provider_balance.go:259-346 | the cache invariant holds after every run |
| `BalanceCacheRuns.ProvenanceAndDeadline` | internal/billing/provider_balance.go:271-346 | a returned value is that of one validated fetch for the same key; fresh before CheckedAt+TTL, stale before CheckedAt+TTL+staleFor, however many refreshes failed; other answers carry no amount |
| `BalanceCacheRuns.InvalidationSafety` | internal/billing/provider_balance.go:259-381 | a Get that begins after an invalidation of its account, or of its provider and account, returns no value of a fetch started before it, even if that fetch finishes later |
| `BalanceCacheRuns.BoundAndSingleFlight` | internal/billing/provider_balance.go:261-317 | resident entries never exceed maxEntries, one fetch per entry, a waiter's channel is closed or has a live owner |
| `BalanceCacheRuns.FinishReleasesWaiters` | internal/billing/provider_balance.go:315-317 | the owner's finish lets every waiter go on |
| `BalanceCacheRuns.EvictionIsLru` | internal/billing/provider_balance.go:383-402 | only a lookup in a full cache or an invalidation drops an entry, and a lookup drops the least recently used non-fetching one |
| `BalanceCacheRuns.SuccessIsServed` | internal/billing/provider_balance.go:272-276 | after any run: a valid amount fetched at t is what a lookup of the same resident key before t + ttl returns |
| `BalanceCacheRuns.FailureCoolsDown` | internal/billing/provider_balance.go:287-297 | after any run: a fetch that failed at t lets no lookup before t + failureFor start another |
| `BalanceCacheRuns.IdleIsFetched` | internal/billing/provider_balance.go:298-313 | a resident entry that is neither fresh, fetching nor cooling is fetched by the next configured lookup |
| `BalanceCacheRuns.MissIsFetched` | internal/billing/provider_balance.go:262-313 | so is a missing key, unless every resident entry is fetching |
| `CacheKey.KeysInjective` | internal/billing/provider_balance.go:464-474 | two requests share a key string iff provider, account, URL, identity and digest agree, for NUL-free provider and URL |
| `CacheKey.SharedIffDirtyUrl` | internal/billing/provider_balance.go:464-474 | the NUL-free URL is exactly what is needed |
| `CacheKey.IdentityInjective` | internal/billing/provider_balance.go:559-561 | adapters with NUL-free fields share an identity iff all fields agree |
| `CacheKey.IdentityUniqueIff` | internal/billing/provider_balance.go:559-561 | no other adapter at all shares an adapter's identity iff its fields hold no NUL |
| `ProxyRoute.ProxyTransportRuntime.constructor` | cmd/server/proxy_runtime.go:77-103 | nothing is ready and no probe token is current before the first check |
| `ProxyRoute.ProxyTransportRuntime.MarkDirectHealthy` | cmd/server/proxy_runtime.go:173-183 | ready afterwards; the route and the standing of every probe in flight are untouched |
| `ProxyRoute.ProxyTransportRuntime.MarkTransportsMissing` | cmd/server/proxy_runtime.go:191-200 | not ready and not checking afterwards; route and probe tokens untouched |
| `ProxyRoute.ProxyTransportRuntime.StartProbe` | cmd/server/proxy_runtime.go:204-211 | hands out a new current token and supersedes every earlier one |
| `ProxyRoute.ProxyTransportRuntime.FinishReprobe` | cmd/server/proxy_runtime.go:217-234 | a superseded result changes nothing; a current one ends checking and is ready iff it passed; the route is untouched |
| `ProxyRoute.ProxyTransportRuntime.StartStartupProbe` | cmd/server/proxy_runtime.go:549-588 | starts at most a current background probe |
| `ProxyRoute.ProxyTransportRuntime.FinishStartupProbe` | cmd/server/proxy_runtime.go:605-630 | readiness is newly reached only by a current passing probe; checking remains only for a newer probe of the same generation |
| `ProxyRoute.ProxyTransportRuntime.PublishRoute` | cmd/server/proxy_runtime.go:315-341 | publishes exactly the given address with the given gateway and Codex transports, each in its place, under the next generation; older probes no longer count; ready iff validated or direct; returns the replaced pair |
| `ProxyRoute.ProxyTransportRuntime.PublishTlsRoute` | cmd/server/proxy_runtime.go:406-440 | publishes the given Codex transport and TLS flag under the next generation and keeps address and gateway; ready iff validated and it was ready before |
| `ProxyRuntime.RunInv` | cmd/server/proxy_runtime.go:129-634 | the invariant holds in every interleaving |
| `ProxyRuntime.HealthSoundness` | cmd/server/proxy_runtime.go:655-662 | after any run, what Ready reports means direct mode or that both published transports have passed a probe |
| `ProxyRuntime.StaleResultsCannotHeal` | cmd/server/proxy_runtime.go:605-630 | a verdict turns healthy only in direct mode or by a complete probe of exactly the current generation and id |
| `ProxyRuntime.NeverStuckChecking` | cmd/server/proxy_runtime.go:577-634 | checking implies an in-flight probe that is current or an older-generation start-up probe |
| `ProxyRuntime.OnlyPublishingChangesRoute` | cmd/server/proxy_runtime.go:315-341 | only the two publications change URL, TLS flag, pair or generation |
| `ProxyRuntime.FailureLeavesRoute` | cmd/server/proxy_runtime.go:261-345 | an Apply or SetTLS that gives up leaves the route as found; at rest every built transport is published or idle-closed |
| `ProxyRuntime.TlsNeverWithProxy` | cmd/server/proxy_runtime.go:374-446 | TLS convergence is never on while a proxy is selected, given the start-up rule of internal/config/config.go:383-389 |
| `ProxyRuntime.RetryKeepsRoute` | cmd/server/proxy_runtime.go:449-496 | with a trimmed start-up URL no step of a retry changes the route, whatever operators do |
| `ProxyRuntime.WorkerAloneKeepsRoute` | cmd/server/proxy_runtime.go:483-496 | the worker alone never changes a trimmed start-up route |
| `ProxyRuntime.WorkerReplacesUntrimmedRoute` | cmd/server/proxy_runtime.go:449-496 | an untrimmed start-up URL is replaced by a successful retry |
| `ProxyRuntime.WorkerKeepsRouteIffTrimmed` | cmd/server/proxy_runtime.go:449-496 | so the promise holds exactly for trimmed start-up URLs |
| `ProxyRuntime.PublishesCandidate` | cmd/server/proxy_runtime.go:315-341 | over runs: publishing a candidate ends with its address, its gateway and its Codex transport published |
| `ProxyRuntime.PublishesTls` | cmd/server/proxy_runtime.go:406-440 | over runs: publishing a TLS change ends with the new Codex transport and flag, address and gateway unchanged |
| `ProxyOperations.ApplyRefusedIff` | cmd/server/proxy_runtime.go:247-267 | applying a new address is refused iff wiring is missing or a proxy is asked for while TLS convergence is on |
| `ProxyOperations.ApplySucceeds` | cmd/server/proxy_runtime.go:247-345 | after any run: an Apply that is not refused, builds and passes ends with exactly that address and pair, the old pair closed, ready iff probed or direct |
| `ProxyOperations.ReapplyDecides` | cmd/server/proxy_runtime.go:202-239 | after any run: applying the published proxy address again makes it ready iff gateway and Codex both pass, in this order |
| `ProxyOperations.TlsStartsIff` | cmd/server/proxy_runtime.go:364-380 | SetTLS starts iff the flag changes, wiring is there, and TLS is not asked for on a proxy route |
| `ProxyOperations.TlsSucceeds` | cmd/server/proxy_runtime.go:381-447 | after any run: a TLS change that builds and passes publishes exactly the new Codex transport, closes the old pair, and carries readiness over |
| `ProxyOperations.StartupDecides` | cmd/server/proxy_runtime.go:542-637 | after any run: an undisturbed start-up check makes an unchecked proxy route ready iff both transports pass |
| `Discovery.ToInt32` | internal/discovery/discovery.go:204-204 | the int32 conversion keeps counts in range |
| `Discovery.Discovery.OnTickOk` | internal/discovery/discovery.go:201-209 | a count below 2^31 is reported as it is, never below 1 |
| `Discovery.Discovery.OnTickError` | internal/discovery/discovery.go:214-216 | the reported number stays, the failure is recorded |
| `Discovery.Discovery.ClusterInstances` | internal/discovery/discovery.go:168-173 | never below 1 |
| `Discovery.RunInv` | internal/discovery/discovery.go:188-210 | the membership invariant holds in every interleaving of pipelines |
| `Discovery.LiveNeverLost` | internal/discovery/discovery.go:47-63 | within the budget no live instance with a completed tick is ever pruned: it is missing iff the key expired since its last ZADD |
| `Discovery.ExpiryFindsNobodyRenewed` | internal/discovery/discovery.go:61-63 | the key expires only under live instances that have not renewed it since they came into the set |
| `Discovery.CompletedTickRenews` | internal/discovery/discovery.go:188-205 | a completed tick the key did not expire under has renewed it |
| `Discovery.RenewedStays` | internal/discovery/discovery.go:61-63 | from then on the instance stays in the set as long as it lives |
| `Discovery.FarDeadlineIsCounted` | internal/discovery/discovery.go:186-203 | a tick whose ZADD finds no deadline within one second of its clock reading stays in the set and in its own count to its end, whatever anybody does |
| `Discovery.ExpiryLosesLiveInstance` | internal/discovery/discovery.go:186-203 | for every environment and every margin up to that second: a run in which a live instance's successful tick counts nobody, itself included, and leaves it out of the set |
| `Discovery.TickCountsLiveAndRecent` | internal/discovery/discovery.go:188-203 | a tick counts exactly the live members the key has not expired under plus only others within 15 s of its own clock; itself iff the key did not expire since its ZADD |
| `Discovery.TickReportsCount` | internal/discovery/discovery.go:201-204 | the reported number is the counted one, or 1 if nobody was counted, iff the count fits an int32 |
| `Discovery.CountFrozenOnError` | internal/discovery/discovery.go:214-216 | nothing but a completed tick changes the reported number |
| `Discovery.ClosingLeaves` | internal/discovery/discovery.go:156-160 | a closing instance's ZREM takes exactly its own entry out; an emptied key loses its deadline |
| `Discovery.ShutdownLeaves` | internal/discovery/discovery.go:142-163 | closing takes an instance out of the set whatever it was doing |
| `Discovery.ClosedStaysOut` | internal/discovery/discovery.go:142-163 | without a tick in flight it never comes back, in any continuation |
| `Discovery.TickInFlightReturns` | internal/discovery/discovery.go:147-160 | a tick still in flight when the wait for the loop timed out can put the entry back |
| `Discovery.SelfStaysCountedIff` | internal/discovery/discovery.go:186-196 | after its ZADD a live instance leaves the set iff the whole key expires |
| `Discovery.OverBudgetPrunes` | internal/discovery/discovery.go:52-66 | outside the budget, by a long gap or a slow tick, a live instance is pruned in some run with the key intact |
| `Discovery.BudgetIsExact` | internal/discovery/discovery.go:52-66 | live members are never pruned, in any run, iff the longer of heartbeat gap and tick timeout, plus skew, is below 15 s |

## Left out

- HTTP, JSON and URL handling of balance adapters, bearer-key normalisation and error classification: a fetch is a free outcome, an amount is its exact rational value if it parses.
- Probing and transport internals: a transport is an opaque identity, a probe passes or fails.
- Diagnostics: probe error texts beyond empty or not, attempt timestamps, logs, lag warnings, statistics.
- uint64 wrap-around of generation and probeSeq, which needs 2^64 switches.
- Parsing of HH:MM times and of amounts; lower-casing outside ASCII.
- The expiry clock of temporary balances: pools are in expiry order, and expiry is an event. The overdraft flag of a row is not kept.
- Wall-clock budgets and contexts: whether a loop is late or cancelled after a round is an input. Late server-side execution of a cancelled Redis command, and a commit whose acknowledgement is lost, are not modelled.
- Panics caught in a bucket goroutine.
- Complete draining of free rows: the sweep sees only the first 2000 unbilled rows, which may all wait for a price (see DrainRounds.ZeroRoundLeavesUnpriced for the case that they do not fill the window).
- Flusher.Flusher.ConsumeCycle: models one instance that nobody disturbs; overlapping instances are in LedgerRuns and LedgerCycles.
- UserBalances.Balances.Set: one step in the class and its callers; the race with Reload is in SetVisibleIff and ReloadWins only.
- Generated ORM code, wiring, authentication, settings and the request path.
