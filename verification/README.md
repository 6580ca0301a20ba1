# Launch auditor: a verified model of its core

The launch auditor watches a chain for new token pools, publishes signed probability forecasts
about them, commits the forecasts in Merkle batches, resolves the outcomes, and scores every
forecaster. This project models the parts of it that decide whether a published number can be
trusted, and proves what they keep over all inputs and all runs:

* **Scores.** AUROC by midranks and the fast DeLong test equal their pairwise definitions, ties
  included, and the claim gate lets a claim through exactly when the evidence is there
  (`Ranking.dfy`, `DeLong.dfy`, `ClaimGate.dfy`); what the test's standard error and p-value mean is
  in `DeLongMeaning.dfy`. Which forecasts may count, that every pair looked at is counted once, what
  entitles a row, and that no row that is due is missing, is in `Eligibility.dfy`, `Grouping.dfy`,
  `Collect.dfy`, `References.dfy`, `Entitlement.dfy` and `Completeness.dfy`; what this means for
  claims is in `BenchmarkCells.dfy` and `RepeatedRows.dfy`.
* **Commitments.** The batch tree, its proofs and both verifiers (`Merkle.dfy`,
  `MerkleSoundness.dfy`); the commit job
  with its held, finalized and dropped transactions (`CommitProtocol.dfy`, `CommitSafety.dfy`);
  the signed lifecycle chain and its concurrent writers (`LifecycleChain.dfy`,
  `LifecycleWriters.dfy`).
* **Chain access.** The RPC scheduler with its queue and token bucket (`Scheduler.dfy`,
  `SchedulerRate.dfy`, `PriorityQueue.dfy`, `TokenBucket.dfy`), the watcher's cursor (`Watcher.dfy`), chunked log
  fetching and the insider-exit replay built on it (`ChainLogs.dfy`, `InsiderReplay.dfy`, `HiddenTransfers.dfy`), and the
  bounded searches over history (`Bisection.dfy`).
* **Metabolism.** The key lifecycle decision and what a tick does with it (`Metabolism.dfy`), and
  epoch reconciliation of the spend ledger (`SpendLedger.dfy`, `EpochHistory.dfy`).

Objects the program updates in place are classes with `modifies` clauses; each of their methods is
tied to a function on values, and the properties of whole runs are lemmas about sequences of states.
`Common.dfy` holds the shared datatypes and a stable sort standing for `Array.prototype.sort`.

Abstractions. Scores and probabilities are `real`; square root and the normal distribution function
are arbitrary functions; where a result needs `sqrt(0) == 0`, a true square root, or a distribution
function with `cdf(-x) == 1 - cdf(x)`, it asks for it. Keccak over a pair and the hash of
a canonical lifecycle body (section 3.2 of RFC 8785, then keccak) are arbitrary functions. Where a
result needs collision resistance, it asks only that the finitely many inputs involved do not
collide, so no claim rests on an injective hash into a finite space. The chain, the database, clocks, receipts and
failures are parameters, quantified over. Money is integer micro-dollars.

## Where the code promises less than its comments

* `packages/rpc-budget/src/scheduler.ts:7` documents a default burst of `max(ceil(rpm/10), 10)`;
  line 58 computes `max(ceil(rpm/30), 3)`. The model follows line 58.
* A second unconfirmed batch overwrites the first hold (`apps/worker/src/commit/job.ts:312`). While a
  batch waits, its reports become eligible again exactly when the tick sends another batch that gets
  no receipt either (`CommitSafety.HoldLostIff`), although the first transaction may still succeed;
  `CommitSafety.ResentWhileStillPending` is such a run. `ResendOnlyAfterRelease` therefore lists this
  release too.
* A spend row is stamped only by an epoch that reads it in time. The row's date is the database's, the
  epoch's the runner's, so a row inserted after an epoch that had already reached its date, by an
  insert in flight or a slower clock, is in no window: it is stamped exactly if it appeared before any
  epoch had reached its time (`EpochHistory.StampedIffOnTime`), and otherwise never
  (`EpochHistory.RowFate`, with a run in `EpochHistory.LateRowNeverStamped`). A row that slips in
  between reading and stamping is stamped without having been graded; `EpochHistory.EpochCostsMatchDelta`
  says by how much this shifts the epoch's costs.
* The lag count that should excuse a late charge is taken over rows that are already stamped, so it
  never sees an on-time row of the window before: `EpochHistory.LagGuardNeverHelps`, with a three-event
  run in `EpochHistory.LateChargeIsPhantom`.
* A revoke whose tick completes halts the process, also the housekeeping one whose row says it will
  remint. A revoke tick that is cut short halts it exactly when it got as far as setting the flag
  (`Metabolism.RevokeHaltsIff`); stopped between revoking and that point, by an append that throws,
  the process mints again two ticks later, even after phantom spend
  (`Metabolism.CutShortRevokeMintsAgain`). From that point on it never acts on a key again
  (`Metabolism.RevokeEndsKeyActs`).
* The last row of a completed revoke is marked as a mismatch whatever the cause, so a restart directly
  after it stays halted, against the comment in
  `apps/worker/src/metabolism/lifecycle-runner.ts:855-857`; but after one further tick a restart is
  halted only if that tick's own reading still shows a mismatch or phantom billing:
  `Metabolism.RestartForgetsHaltIff`.
* The lifecycle log stays one chain under concurrent writers as long as stored timestamps increase.
  The head is the row with the greatest timestamp, so after a row stored by a slower clock, or with
  the same reading, an accepted append may fork the chain: `LifecycleWriters.NextAppendLinkedIff`,
  `SkewedClockForks`.
* A span setting of zero means no limit for the range but puts the abandon mark on the cursor itself,
  so one failing pool stalls the watcher as long as it fails: `Watcher.NoSpanStallsForever`.
* A remembered block-at-time answer taken while the target was not before the head is that head for
  good, and stays right exactly as long as no block at or before the target is mined:
  `Bisection.RememberedHeadIff`.
* Every row of a forecaster is paired with the other side's last row for the observation, and nothing
  keeps a forecaster to one row per observation. With one row per shared observation no two forecasters
  can both claim a gain over the other (`ClaimGate.NoMutualClaims`); with repeated rows a forecaster can
  claim one over itself (`RepeatedRows.RepeatsBeatThemselves`).
* Transfers inside the cluster never change the insider verdict exactly when the cluster does not
  contain both a pool address and another wallet: `InsiderReplay.InternalNeverMattersIff`.
* The insider replay finds transfers by zero-padded topics. It misses none, for any amounts, exactly when
  every transfer that touches the cluster and escapes the filter is between two cluster wallets and off
  the pool: `HiddenTransfers.NeverMissesIff`.

## Model

| member | source | states |
|---|---|---|
| `Ranking.Midranks` | packages/scoring/src/metrics.ts:9-21 | every position gets (values strictly below) + (values equal + 1)/2, whatever the ties |
| `Ranking.TieGroupRank` | packages/scoring/src/metrics.ts:14-17 | the mean of a tie group's first and last position in sorted order is the midrank of its value |
| `Ranking.MidrankIsPlacement` | packages/scoring/src/metrics.ts:9-21 | a midrank is the pairwise comparison count against the list plus one half |
| `Ranking.Split` | packages/scoring/src/metrics.ts:23-28 | the two classes' scores, in order |
| `Ranking.SelectIs` | packages/scoring/src/metrics.ts:23-28 | the scores of a class are those at exactly the positions with its label, each once and in order |
| `Ranking.RankSumIdentity` | packages/scoring/src/metrics.ts:36-38 | the rank-sum expression equals the sum over positive-negative pairs of 1, 1/2 or 0 |
| `Ranking.Auroc` | packages/scoring/src/metrics.ts:31-39 | an AUROC exists exactly for equally long inputs with both classes, and is then the pairwise average |
| `Ranking.ConstantPredictor` | packages/scoring/src/metrics.ts:31-39 | any constant predictor scores exactly one half |
| `Ranking.AucComplement` | packages/scoring/src/metrics.ts:31-39 | exchanging the classes complements the AUROC, which lies between 0 and 1 |
| `Ranking.PerfectIff` | packages/scoring/src/metrics.ts:31-39 | the AUROC is one exactly when every positive scores above every negative, and zero exactly when every one scores below |
| `DeLong.CovMatrix` | packages/scoring/src/delong.ts:21-36 | filling a triangle and mirroring it gives all sample covariances |
| `DeLong.RankDifferencePos` | packages/scoring/src/delong.ts:93 | joint rank minus own-class rank of a positive is its placement among the negatives |
| `DeLong.RankDifferenceNeg` | packages/scoring/src/delong.ts:94 | joint rank minus own-class rank of a negative is the positives not placed above it |
| `DeLong.AucFromRanks` | packages/scoring/src/delong.ts:91 | the rank expression is the pairwise AUROC |
| `DeLong.ForecasterPlacements` | packages/scoring/src/delong.ts:81-95 | AUROC is pairwise and every v01/v10 entry is that item's placement value against the other class |
| `DeLong.PlacementsAverageToAuc` | packages/scoring/src/delong.ts:91-94 | both lists of placement values average to the AUROC |
| `DeLong.CovOfMinus` | packages/scoring/src/delong.ts:101 | the matrix combination is the variance of the paired placement differences |
| `DeLong.VarDiffNonNegative` | packages/scoring/src/delong.ts:101-102 | the variance of the difference is never negative |
| `DeLong.VarianceOfDifference` | packages/scoring/src/delong.ts:97-101 | the loop computes that variance from both covariance matrices |
| `DeLong.FastDeLong` | packages/scoring/src/delong.ts:63-108 | the whole fast test equals the test by pairwise definition, null cases included; what that definition's numbers mean is the next three rows |
| `DeLongMeaning.DefinedIff` | packages/scoring/src/delong.ts:68-74 | there is a result exactly for equally long lists with at least two items of each class |
| `DeLongMeaning.VarianceFromPairs` | packages/scoring/src/delong.ts:21-36 | the sample variance is half the mean squared distance of all pairs of different entries, no mean involved |
| `DeLongMeaning.WhatTheTestMeans` | packages/scoring/src/delong.ts:97-107 | for a true square root and a symmetric distribution function: the difference is that of the pairwise AUROCs, the standard error squares to the pair variances of the placement differences over the class sizes, z times it is the difference, p is cdf(-abs z) + (1 - cdf(abs z)), below 0.05 exactly when cdf(abs z) exceeds 0.975, and one for no difference or no error |
| `DeLong.DeLongAntisymmetric` | packages/scoring/src/delong.ts:63-108 | swapping forecasters negates difference and z and keeps standard error and p |
| `DeLong.OrderEquivalentForecasters` | packages/scoring/src/delong.ts:97-107 | forecasters that order every pair alike give difference 0, standard error 0 and p = 1 |
| `ClaimGate.AlignByObs` | packages/scoring/src/scorer.ts:99-112 | pairs each row with the other forecaster's last row for the same observation |
| `ClaimGate.AlignMembers` | packages/scoring/src/scorer.ts:104-110 | exactly the observations both forecasters have are paired |
| `ClaimGate.ByObsLast` | packages/scoring/src/scorer.ts:100 | an observation is looked up under the last row that has it |
| `ClaimGate.AlignSymmetric` | packages/scoring/src/scorer.ts:99-112 | aligning in the other direction gives the same pairs, swapped, if each side has one row per shared observation |
| `ClaimGate.DeLongAucIsAuroc` | packages/scoring/src/delong.ts:91 | the test's AUROCs are the plain AUROCs on the paired sample |
| `ClaimGate.Compare` | packages/scoring/src/scorer.ts:180-213 | a claim is allowed if and only if 200 paired rows, 30 positives, an own AUROC above one half, a pairwise gain and p < 0.05 all justify it; any other note names the first of these that is missing |
| `ClaimGate.OthersAre` | packages/scoring/src/scorer.ts:150-180 | each known baseline other than the forecaster is compared as often as it is listed, and nothing else is |
| `ClaimGate.CellComparisons` | packages/scoring/src/scorer.ts:150-214 | no comparison below 100 rows, otherwise exactly one for each known other baseline in the order given, each reporting its paired sample and claiming only what is justified |
| `ClaimGate.NoClaimWithoutReordering` | packages/scoring/src/scorer.ts:188-192 | a forecaster that ranks like its baseline can never claim a gain |
| `ClaimGate.NoMutualClaims` | packages/scoring/src/scorer.ts:180-192 | no two forecasters with one row per shared observation may both claim to beat the other |
| `RepeatedRows.RepeatsBeatThemselves` | packages/scoring/src/scorer.ts:99-112 | with repeated rows the gate allows a forecaster a claim over itself: a concrete sample, for any square root and any distribution function above 97.5% from two deviations on |
| `BenchmarkCells.CellsShareTruth` | packages/scoring/src/scorer.ts:246-253 | the collected rows give all forecasters of a cell the same label for an observation |
| `BenchmarkCells.CollectedClaimsNotMutual` | packages/scoring/src/scorer.ts:237-259 | over collected rows, two forecasters with one row per shared observation never both claim a gain |
| `Merkle.CanonicalLeaves` | apps/worker/src/commit/merkle.ts:24 | the leaves are lower-case, strictly sorted and the same set |
| `Merkle.SweepLevel` | apps/worker/src/commit/merkle.ts:33-49 | one level: groups still partition the leaves and every proof folds to its group's node |
| `Merkle.PairInOrder` | apps/worker/src/commit/merkle.ts:7-11 | a pair is hashed with the string first that, both lowered, is a prefix of the other or smaller at the first difference |
| `Merkle.RootIsTree` | apps/worker/src/commit/merkle.ts:32-52 | the root is what is left when each level hashes neighbours two by two and carries an odd last node over, from the leaves up |
| `Merkle.BuildMerkleTree` | apps/worker/src/commit/merkle.ts:22-55 | fails exactly on no leaves; otherwise root, leaf count, and one proof per leaf that folds to the root within ceil(log2 n) steps |
| `Merkle.CeilLog2Least` | apps/worker/src/commit/merkle.ts:32-52 | the bound used is the least exponent whose power of two reaches n |
| `Merkle.VerifyProof` | apps/worker/src/commit/merkle.ts:58-62 | accepts exactly the proofs whose fold is the root, ignoring case |
| `ApiMerkle.ApiVerifyProof` | apps/api/src/merkle.ts:10-20 | the independent copy accepts exactly the same proofs |
| `Merkle.EveryLeafVerifies` | apps/worker/src/commit/merkle.ts:22-62 | the recorded proof of every committed leaf verifies |
| `Merkle.RootDependsOnSet` | apps/worker/src/commit/merkle.ts:24 | order and duplicates of the leaves do not change the root |
| `MerkleSoundness.ProofShowsMembership` | apps/worker/src/commit/merkle.ts:22-62 | for 32-byte leaves, siblings of whole bytes, and without a collision among the bytes hashed, any proof of any length and letter case that verifies shows the leaf was committed |
| `MerkleSoundness.RootBindsLeaves` | apps/worker/src/commit/merkle.ts:22-55 | for 32-byte leaves and without a collision, equal roots mean equal leaf sets |
| `LifecycleChain.VerifyLifecycleRows` | packages/db/src/lifecycle-chain.ts:75-106 | reports the least broken row, exactly the forks in order, full linkage and the genesis start |
| `LifecycleChain.IntactIff` | packages/db/src/lifecycle-chain.ts:80-100 | intact if and only if every body rehashes and every later row's parent is an earlier row |
| `LifecycleChain.LinkedIffIntactWithoutForks` | packages/db/src/lifecycle-chain.ts:42-54 | linked if and only if intact with no forks |
| `LifecycleChain.BuildEntry` | apps/worker/src/metabolism/lifecycle.ts:35-56 | the entry keeps every input field, fills in a missing time, and carries its parent and the hash of its own body |
| `LifecycleChain.VerifyLifecycleChain` | apps/worker/src/metabolism/lifecycle.ts:63-72 | accepts exactly the chains linked from genesis |
| `LifecycleChain.LinkedFromGenesisIff` | packages/db/src/lifecycle-chain.ts:98-102 | both verifiers agree: linked plus starting at genesis |
| `LifecycleChain.SameLastHashSameBodies` | packages/db/src/lifecycle-chain.ts:75-106 | linked windows of one length with the same last hash carry the same signed bodies |
| `LifecycleChain.SameHeadSameChain` | packages/db/src/lifecycle-chain.ts:75-106 | for chains from genesis the last hash alone fixes length and bodies |
| `LifecycleChain.SameHeadSameEntries` | apps/worker/src/metabolism/lifecycle.ts:35-72 | two chains of entries from genesis that end in the same hash are as long and agree in every recorded field of every entry |
| `LifecycleWriters.LogStore.Persist` | apps/worker/src/metabolism/lifecycle-runner.ts:333-344 | inserts only onto the head, otherwise reports the head and stores nothing |
| `LifecycleWriters.LifecycleLogWriter.AppendOnce` | apps/worker/src/metabolism/lifecycle-runner.ts:385-425 | one attempt with the remembered head; the head advances only on success |
| `LifecycleWriters.LifecycleLogWriter.Append` | apps/worker/src/metabolism/lifecycle-runner.ts:374-383 | an attempt, and after a moved head one more onto the reported head, whatever others stored in between: the same steps the interleaving takes |
| `LifecycleWriters.InterleavedAppendsStayLinked` | apps/worker/src/metabolism/lifecycle-runner.ts:333-425 | with any number of writers in any interleaving, the stored log is always one linked chain from genesis while timestamps increase |
| `LifecycleWriters.NextAppendLinkedIff` | apps/worker/src/metabolism/lifecycle-runner.ts:336-338 | appends onto every head the store may report keep the chain linked exactly when the last stored row alone has the greatest timestamp |
| `LifecycleWriters.SkewedClockForks` | apps/worker/src/metabolism/lifecycle-runner.ts:336-338 | a concrete log and append that fork with one slow clock |
| `PriorityQueues.PriorityQueue.Push` | packages/rpc-budget/src/priority-queue.ts:16-26 | the entry goes behind every entry of no greater priority number |
| `PriorityQueues.PriorityQueue.Shift` | packages/rpc-budget/src/priority-queue.ts:28-30 | the earliest entry of the lowest priority number leaves |
| `PriorityQueues.ArriveOrdered` | packages/rpc-budget/src/priority-queue.ts:16-26 | an arrival keeps the queue ordered by priority, then arrival |
| `PriorityQueues.ArriveAdds` | packages/rpc-budget/src/priority-queue.ts:16-26 | an arrival adds itself and loses nothing |
| `TokenBuckets.NewTokenBucket` | packages/rpc-budget/src/token-bucket.ts:19-25 | rejects exactly non-positive capacity or rate |
| `TokenBuckets.TokenBucket.RefillAt` | packages/rpc-budget/src/token-bucket.ts:27-33 | refills by elapsed time up to the capacity, ignoring a clock that did not advance |
| `TokenBuckets.TokenBucket.Take` | packages/rpc-budget/src/token-bucket.ts:36-43 | takes the tokens or leaves them |
| `TokenBuckets.TokenBucket.WaitFor` | packages/rpc-budget/src/token-bucket.ts:46-50 | the advised wait |
| `TokenBuckets.RateBound` | packages/rpc-budget/src/token-bucket.ts:27-43 | from any state and for any clock, uses within an interval take at most capacity + seconds x rate + 1e-9 tokens |
| `TokenBuckets.IdleGain` | packages/rpc-budget/src/token-bucket.ts:27-43 | left alone, a bucket gains exactly seconds x rate up to its capacity, and a take then succeeds exactly if that covers the demand up to 1e-9 |
| `TokenBuckets.WaitSufficesIff` | packages/rpc-budget/src/token-bucket.ts:46-50 | after the advised wait a take succeeds if and only if the capacity can hold the demand |
| `TokenBuckets.WaitIsTight` | packages/rpc-budget/src/token-bucket.ts:46-50 | a millisecond before the advised wait the tokens are still short |
| `Scheduling.NewRequestScheduler` | packages/rpc-budget/src/scheduler.ts:57-66 | fails exactly for a rate or burst that is not positive; otherwise starts idle with a full bucket of the configured or default burst |
| `Scheduling.RequestScheduler.Enqueue` | packages/rpc-budget/src/scheduler.ts:68-101 | queues the job and arranges a pump |
| `Scheduling.RequestScheduler.RunLoop` | packages/rpc-budget/src/scheduler.ts:103-122 | starts jobs while queue, slots and tokens last; a stall leaves a timer |
| `Scheduling.RequestScheduler.OnSettled` | packages/rpc-budget/src/scheduler.ts:124-136 | counts the outcome, frees the slot and runs the loop |
| `Scheduling.SchedulerInvariant` | packages/rpc-budget/src/scheduler.ts:68-136 | in every reachable state: cap respected, enqueued = queued + started, started = in flight + completed + failed, no job lost or started twice, every start fair, and no lost wake-up |
| `SchedulerRate.StartRateBound` | packages/rpc-budget/src/scheduler.ts:103-122 | over every run and any stretch of bucket uses, inside one event or across many, the jobs started are at most burst + seconds x rate + 1e-9 |
| `SchedulerRate.RequestsPerMinute` | packages/rpc-budget/src/scheduler.ts:57-63 | for a scheduler set to rpm requests a minute that is burst + milliseconds x rpm / 60000 + 1e-9 |
| `SchedulerRate.StartsByState` | packages/rpc-budget/src/scheduler.ts:115-120 | the starts counted up to a state's bucket uses are the jobs that state has started, so the bound holds between any two states too |
| `Scheduling.TimerStartsJob` | packages/rpc-budget/src/scheduler.ts:105-113 | a timer that fires after its delay starts at least one job when the capacity is at least one |
| `Scheduling.StallDelay` | packages/rpc-budget/src/scheduler.ts:105-112 | a stalled loop waits the advised time, and five milliseconds at least |
| `CommitProtocol.CommitJob.CheckHeld` | apps/worker/src/commit/job.ts:249-273 | a held batch is finalized, kept or dropped as its receipt and age say |
| `CommitProtocol.CommitJob.Record` | apps/worker/src/commit/job.ts:323-372 | one commit row with root, leaves and proofs, and every report of the batch linked to it |
| `CommitProtocol.CommitJob.Send` | apps/worker/src/commit/job.ts:299-320 | recorded on success, forgotten on revert, held without a receipt |
| `CommitProtocol.CommitJob.RunCommitBatch` | apps/worker/src/commit/job.ts:241-321 | one tick, with the tree built over exactly the batch chosen |
| `CommitSafety.CommitInvariant` | apps/worker/src/commit/job.ts:229-372 | what every run of ticks and arriving reports keeps about holds, transactions, commit rows and links |
| `CommitSafety.HeldBatchFate` | apps/worker/src/commit/job.ts:229-297 | over every run, a tick with a held batch records it and links its reports exactly if the lookup is a success, ends the hold as reverted exactly if it is a revert, as expired exactly if there is no receipt 1,800,000 ms after sending, and otherwise keeps it unless it sends another |
| `CommitSafety.TickSendsIff` | apps/worker/src/commit/job.ts:275-299 | unless it records a late success, a tick sends exactly if reports are pending, it is forced, full or the oldest is old enough, and the call does not throw; then the oldest pending reports, as many as allowed |
| `CommitSafety.SentBatchFate` | apps/worker/src/commit/job.ts:299-320 | over every run, a batch sent is recorded and linked on a success, forgotten on a revert, and held without a receipt |
| `CommitSafety.LinkedReportsAreCommitted` | apps/worker/src/commit/job.ts:323-372 | over every run with the trees the builder returns, a linked report's commit has the Merkle root of exactly its batch, was sent in a successful transaction, and stores a proof that verifies |
| `CommitSafety.OneCommitPerReport` | apps/worker/src/commit/job.ts:241-372 | no two commit rows share a report |
| `CommitSafety.ResendOnlyAfterRelease` | apps/worker/src/commit/job.ts:229-237 | a report enters a second transaction only after each earlier one reverted, waited half an hour without a receipt, or lost its hold to a newer batch without a receipt |
| `CommitSafety.HoldLostIff` | apps/worker/src/commit/job.ts:261-316 | while its batch waits, a held report becomes eligible again in a tick if and only if the tick sends a further batch without a receipt |
| `CommitSafety.ResentWhileStillPending` | apps/worker/src/commit/job.ts:311-316 | a run in which a report enters a second transaction while its first neither reverted nor expired |
| `Watcher.PoolWatcher.PollOnce` | apps/worker/src/watcher/poller.ts:40-102 | the cursor only moves forward, every pool up to it was ingested or given up, and counts, pools and the next cursor are those of the range read |
| `Watcher.PoolWatcher.IngestAll` | apps/worker/src/watcher/poller.ts:67-89 | every detected pool is tried; the earliest failure not given up is found |
| `Watcher.TalliesAre` | apps/worker/src/watcher/poller.ts:67-89 | the counts reported are how many pools were ingested as new launches and how many failed |
| `Watcher.CursorStopsAtFailure` | apps/worker/src/watcher/poller.ts:91 | the next cursor passes no held failure and stops short only directly before one |
| `Watcher.PoolWatcher.Turn` | apps/worker/src/watcher/poller.ts:127-163 | the cursor and stall count after a turn, with the abandon mark after six stalls |
| `Watcher.TurnAdvancesOrStalls` | apps/worker/src/watcher/poller.ts:153-163 | a turn behind the head advances the cursor and clears the count, or counts one stall; otherwise nothing changes |
| `Watcher.TurnReach` | apps/worker/src/watcher/poller.ts:47-91 | a turn that moves stays the head lag behind the head and within its span; short of both it stops only before a pool that failed; a failing pool is passed only after six stalls and within one span |
| `Watcher.NoEarlyGiveUp` | apps/worker/src/watcher/poller.ts:125-138 | over every run from a fresh start, a failing pool is passed over only after six turns behind the head at one cursor |
| `Watcher.CursorNeverBacks` | apps/worker/src/watcher/poller.ts:91-100 | over every run the cursor never moves back |
| `Watcher.NeverSevenStalls` | apps/worker/src/watcher/poller.ts:125-163 | with a span of at least one, seven turns behind the settled head always advance the cursor, whatever fails or throws |
| `Watcher.NoSpanStallsForever` | apps/worker/src/watcher/poller.ts:60-63 | with span zero, over every run the cursor stays before a pool for as long as that pool cannot be ingested |
| `Metabolism.LifecycleRunner.RunTick` | apps/worker/src/metabolism/lifecycle-runner.ts:771-906 | the tick performs the decision's actions in order; what each decision is and when it is taken is in the next four rows |
| `Metabolism.KeyActsIff` | apps/worker/src/metabolism/lifecycle-runner.ts:118-243 | from every starting state, a completed tick mints and revokes exactly under the stated comparisons of balance, reserve, key and age |
| `Metabolism.RotatesIff` | apps/worker/src/metabolism/lifecycle-runner.ts:190-199 | a key is rotated exactly in calm service at an age of at least the configured days |
| `Metabolism.EndsInIff` | apps/worker/src/metabolism/lifecycle-runner.ts:118-243 | a completed tick ends starved, draining, active or without a key exactly under the stated comparisons |
| `Metabolism.ObserveEndsIn` | apps/worker/src/metabolism/lifecycle-runner.ts:245-265 | the same in observe mode, where no key is touched |
| `Metabolism.RowsAgreeIff` | apps/worker/src/metabolism/lifecycle-runner.ts:118-243 | every logged transition follows the reference machine, except exactly when an active key is missing at the provider |
| `Metabolism.ObserveNeverTouchesKeys` | apps/worker/src/metabolism/lifecycle-runner.ts:254-265 | in observe mode no run ever mints, rotates or revokes |
| `Metabolism.RevokeHaltsIff` | apps/worker/src/metabolism/lifecycle-runner.ts:854-906 | a revoke tick, cut short anywhere, leaves an unhalted process halted exactly when it performed five of its six actions |
| `Metabolism.CompletedRevokeHalts` | apps/worker/src/metabolism/lifecycle-runner.ts:854-906 | every completed revoke ends halted without a key, on a row marked as a mismatch |
| `Metabolism.CutShortRevokeMintsAgain` | apps/worker/src/metabolism/lifecycle-runner.ts:868-895 | a run in which a revoke after phantom spend is cut short and the process mints again two ticks later |
| `Metabolism.RevokeEndsKeyActs` | apps/worker/src/metabolism/lifecycle-runner.ts:136-139 | over every run from a revoke tick that performed five of its actions on, the process stays halted without a key and never mints or revokes again |
| `Metabolism.HaltedForever` | apps/worker/src/metabolism/lifecycle-runner.ts:136-139 | once halted without a key the process stays so and never acts on a key again |
| `Metabolism.RestartAfterRevokeHalted` | apps/worker/src/metabolism/lifecycle-runner.ts:472-479 | a restart directly after a completed revoke stays halted |
| `Metabolism.RestartForgetsHaltIff` | apps/worker/src/metabolism/lifecycle-runner.ts:472-479 | after one further tick a restart stays halted if and only if that tick's reading shows a mismatch or phantom billing |
| `SpendLedger.ReconcileEpoch` | apps/worker/src/metabolism/reconcile.ts:77-153 | exactly when a window is phantom, unavailable, graded, an anomaly, or gets a factor, and what the factor is |
| `SpendLedger.DiscrepancyIs` | apps/worker/src/metabolism/reconcile.ts:139-140 | the discrepancy is the relative excess in percent, to the nearest millionth |
| `SpendLedger.Ledger.Record` | apps/worker/src/metabolism/spend-ledger.ts:128-155 | one unstamped row appended, a known generation found instead, a negative cost or empty model refused; no generation is ever in the ledger twice |
| `SpendLedger.Ledger.WindowEstimate` | apps/worker/src/metabolism/spend-ledger.ts:88-95 | sum and count of the unstamped rows of the window |
| `SpendLedger.Ledger.ApplyReconciliation` | apps/worker/src/metabolism/spend-ledger.ts:96-124 | stamps exactly the window's rows, rescaling those with an estimate |
| `SpendLedger.ReconciledCostsMatchDelta` | apps/worker/src/metabolism/reconcile.ts:137-139 | reconciled costs differ from the provider's delta by at most n/2 + estimate/(2*10^6) micro-dollars |
| `EpochHistory.StampedCostIs` | apps/worker/src/metabolism/spend-ledger.ts:109-121 | the rows an epoch stamps cost exactly their reconciled costs |
| `EpochHistory.EpochCostsMatchDelta` | apps/worker/src/metabolism/lifecycle-runner.ts:659-700 | in every run the rows stamped by an epoch with a factor cost the provider's delta to within n/2 + estimate/(2*10^6) micro-dollars, beyond rows that slipped in after the window was read |
| `SpendLedger.EpochRunner.RunTick` | apps/worker/src/metabolism/lifecycle-runner.ts:645-700 | one epoch: window, grade, epoch row, stamping, with whatever other writers insert between reading and stamping |
| `EpochHistory.WindowsTile` | apps/worker/src/metabolism/lifecycle-runner.ts:657-658 | in every run with ticks in order of time the windows tile time |
| `EpochHistory.RowFate` | apps/worker/src/metabolism/spend-ledger.ts:92-97 | whatever its date, a row that appears before any epoch has reached its time carries, in every later state, exactly the epoch whose window contains it, and any other row carries none for good |
| `EpochHistory.RowKept` | apps/worker/src/metabolism/spend-ledger.ts:96-124 | in every later state a row has its time, generation and estimate, and its own cost, unless its epoch has a factor and it an estimate: then that estimate scaled by the factor, to the nearest micro-dollar |
| `EpochHistory.StampedIffOnTime` | apps/worker/src/metabolism/lifecycle-runner.ts:657-700 | a row dated after the first window's start and up to the last epoch is stamped, by exactly the one epoch containing it, if and only if no epoch had reached its time when it appeared |
| `EpochHistory.LateRowNeverStamped` | apps/worker/src/metabolism/spend-ledger.ts:96-97 | a run in which a row dated inside a completed window appears after its epoch and stays unstamped |
| `EpochHistory.DeltasSumToRise` | apps/worker/src/metabolism/lifecycle-runner.ts:651-652 | with a counter that never falls the deltas add up to its rise since the first tick's baseline |
| `EpochHistory.FirstEpochIs` | apps/worker/src/metabolism/lifecycle-runner.ts:647-658 | the first epoch of a run is measured from the key's baseline, and is empty without one |
| `EpochHistory.EpochAnomalyIff` | apps/worker/src/metabolism/reconcile.ts:121-150 | in every run an epoch is an anomaly exactly when its window had priced requests, the estimate or the rise reached the grading minimum, and the two differ by more than the allowed percentage, to the nearest millionth |
| `EpochHistory.LagGuardNeverHelps` | apps/worker/src/metabolism/lifecycle-runner.ts:665-667 | after the first epoch a window is phantom exactly when it is idle, above the tolerance, and no row dated in the range the lag count looks at came late or predates the very first window; on-time rows of the window before never count |
| `EpochHistory.LateChargeIsPhantom` | apps/worker/src/metabolism/lifecycle-runner.ts:660-670 | a run with a busy window whose charge lands in the idle next one and is graded phantom |
| `ChainLogs.GetLogsChunked` | packages/chain/src/logs.ts:28-53 | fails exactly for a range below one; otherwise the logs of one unrestricted query, in order, for any number of addresses |
| `ChainLogs.QuerySplit` | packages/chain/src/logs.ts:37-51 | adjacent windows concatenate to the query of their union |
| `ChainLogs.GetLogsByTopicValues` | packages/chain/src/logs.ts:63-113 | batched, de-duplicated and sorted fetching returns exactly the logs of one query with all values, once each, in order |
| `InsiderReplay.ReconstructBalances` | apps/worker/src/watcher/holders.ts:35-65 | the balance map is every address's net flow, the zero address excepted; none above the log cap |
| `InsiderReplay.ReplayTracksBalances` | apps/worker/src/outcomes/resolve-insider.ts:98-117 | the running total is the cluster's summed balance, and the peak the maximum of 0 and that sum over all prefixes |
| `InsiderReplay.ReplayTracksTrade` | apps/worker/src/outcomes/resolve-insider.ts:103-117 | what counts as sold is the amounts from cluster wallets to sinks, what counts as bought those from sinks to cluster wallets |
| `InsiderReplay.HoldingsAreFlows` | apps/worker/src/outcomes/resolve-insider.ts:98-117 | the cluster's summed balance is all that came in less all that went out |
| `InsiderReplay.BalancesAddUp` | apps/worker/src/watcher/holders.ts:51-64 | the balance map sums over the cluster to those holdings, up to the zero address |
| `InsiderReplay.ReplayOnlyNeedsCluster` | apps/worker/src/outcomes/resolve-insider.ts:103-117 | transfers that touch no cluster wallet change no total |
| `InsiderReplay.ReplayFetched` | apps/worker/src/outcomes/resolve-insider.ts:75-117 | the two merged fetches are the token's logs naming a cluster wallet, each once and in order; if only inward transfers hide from the filter, their replay equals replaying every transfer of the token |
| `InsiderReplay.ResolveInsiderExit` | apps/worker/src/outcomes/resolve-insider.ts:18-139 | on any chain: unresolvable exactly without wallets or at 30,000 logs; otherwise exit exactly when the net sales to sinks are at least half of the cluster's peak holdings over the logs found, and so over all transfers if only inward ones hide |
| `InsiderReplay.PaddedTopics` | apps/worker/src/outcomes/resolve-insider.ts:82-83 | zero-padded address topics of the token's own transfers hide nothing |
| `InsiderReplay.InwardHidesNothing` | apps/worker/src/outcomes/resolve-insider.ts:98-117 | if every hidden transfer is between two cluster wallets and off the pool, replaying the logs found is replaying them all |
| `HiddenTransfers.NeverMissesIff` | apps/worker/src/outcomes/resolve-insider.ts:27-117 | for every assignment of amounts the replay of the logs found equals the replay of all transfers, if and only if only such transfers hide |
| `HiddenTransfers.HiddenIsMissed` | apps/worker/src/outcomes/resolve-insider.ts:27-117 | a single token in a hidden log that is not inward changes the totals, whatever the other logs are |
| `HiddenTransfers.UnpaddedTopicHides` | apps/worker/src/outcomes/resolve-insider.ts:27-58 | a log with an address topic that is not zero-padded is such a log |
| `InsiderReplay.InternalNeverMattersIff` | apps/worker/src/outcomes/resolve-insider.ts:103-129 | intra-cluster transfers never change the verdict if and only if the cluster does not hold a pool address beside another wallet |
| `Bisection.HalveIsQuotient` | apps/worker/src/outcomes/block-time.ts:47-56 | k halvings divide the window by 2^k, rounding down |
| `Bisection.SearchByTime` | apps/worker/src/outcomes/block-time.ts:46-56 | never after the target time, and at most range/2^maxIters before the true last block |
| `Bisection.BlockClock.BlockAtTime` | apps/worker/src/outcomes/block-time.ts:21-59 | every remembered answer is one its own lookup could give; it is returned unchanged, and a fresh one is remembered |
| `Bisection.RememberedStaysClose` | apps/worker/src/outcomes/block-time.ts:28-29 | an answer from a head past the target stays within its error however long the chain grows |
| `Bisection.RememberedHeadIff` | apps/worker/src/outcomes/block-time.ts:36-39 | an answer from a head not past the target stays right if and only if no block at or before the target is mined since, and otherwise falls short by exactly those blocks |
| `Bisection.FirstTxBlock` | apps/worker/src/watcher/creator.ts:23-46 | none exactly for an unused account; otherwise an upper bound on the first transaction's block within range/2^maxIters |
| `Bisection.ComputeTokenAgeAtPool` | apps/worker/src/watcher/freshness.ts:74-112 | an upper bound on the first block with code within the halving error, none for tokens older than the window; the age is the blocks since it times the block time, to the nearest second |
| `Bisection.AgeNeverOverstated` | apps/worker/src/watcher/freshness.ts:101-104 | the reported age never exceeds the true age |
| `Eligibility.CountExclusion` | apps/worker/src/scorer/eligibility.ts:15-19 | one cell of the nested record grows by one and no other changes |
| `Eligibility.Collector.Note` | apps/worker/src/scorer/collect.ts:204-213 | rows, counts and inherited classes keep accounting for exactly the pairs examined |
| `Collect.CollectScoreRows` | apps/worker/src/scorer/collect.ts:103-294 | the rows are the eligible pairs; per outcome and forecaster there are as many rows as the eligible count, and the classes add up to the pairs examined |
| `Grouping.FoundIff` | apps/worker/src/scorer/collect.ts:113-129 | grouping finds an observation if and only if some outcome row is about it |
| `Grouping.LabelIff` | apps/worker/src/scorer/collect.ts:113-129 | its label for an outcome is the value of the last such row |
| `Entitlement.AnchorIff` | apps/worker/src/scorer/collect.ts:186-193 | a launch's scanner rows belong to the observation of its first launch or qualified report with a resolved outcome |
| `Entitlement.EveryRowEntitled` | apps/worker/src/scorer/collect.ts:186-291 | every row is of a scored outcome, carries what it resolved to, and comes from a report committed before its horizon end and within 1,800,000 ms, or inherits from a first reference report committed so and is a base rate or its own launch's timely scan |
| `Entitlement.RowsAgreeOnTruth` | apps/worker/src/scorer/collect.ts:197-213 | rows of one observation and outcome carry the same label |
| `References.ReportPairsClassed` | packages/scoring/src/eligibility.ts:52-58 | every report pair carries its report's forecast, and its class is the one the commit time, the horizon in hours and the half hour name |
| `References.ScoredIff` | packages/scoring/src/types.ts:19-31 | the outcomes scored and the horizons of each |
| `References.InheritedIs` | apps/worker/src/scorer/collect.ts:211 | what the computed forecasters inherit is the class of the first reference report for the observation and outcome, or uncommitted |
| `Completeness.TimelyForecastHasRow` | apps/worker/src/scorer/collect.ts:187-215 | conversely, every forecast committed in time for an outcome resolved in the database becomes a row |
| `Completeness.ReportPairsComplete` | packages/scoring/src/eligibility.ts:52-58 | a pair committed so is classed eligible |
| `Completeness.BaseRatesHaveRows` | apps/worker/src/scorer/collect.ts:229-258 | where the first reference forecast of a resolved outcome was committed in time, both base rates become rows |
| `Completeness.TimelyScanHasRow` | apps/worker/src/scorer/collect.ts:261-291 | there too, a scan fetched within 1,800,000 ms for the launch anchored at the observation becomes a row |

## Left out

- Keccak, EIP-712 signing and recovery, canonical JSON and AES-GCM: hashes are arbitrary functions; signatures are not modelled.
- Floating-point rounding: scores, tokens and times are exact reals, money is integer micro-dollars; `round2`/`round4` only format displayed values.
- `normalCdf`, the other metrics (AUPRC, log loss, Brier, ECE, precision and recall), `isInvertedRanking` and feature standardization: numeric approximations without a law to prove.
- The values of the two base rates: they are arbitrary functions of outcome and time in the collector.
- Trigger, source and scope of a score row: labels carried along unchanged; the scope filter on outcomes is applied before the modelled input.
- HTTP retries and backoff inside one scheduler slot: they spend no token, so the rate bound is on started slots, not on HTTP calls.
- Scheduling.SchedulerInvariant: does not model a job whose `run` throws before it returns a promise and so re-enters the loop, because the only caller (packages/rpc-budget/src/transport.ts:49) passes an async function, which never does.
- Crashes and database failures between two writes of one step, and restarts of the commit job, which forget the hold; a lifecycle tick, by contrast, may stop after any of its actions.
- A contract write that throws after the transaction went out: treated as not sent, as the code does.
- Artifact commits and the on-chain batch number read from the receipt's events.
- `pollOnce` with `startAtHeadIfEmpty` false, which the poller never uses, and chain reorganisations below the settled head.
- The block-time cache for more than one chain: the key is the target second alone.
- Historical reads are assumed monotone: block times never fall, nonces never fall, code does not disappear.
- Credit activation rows, the IDS baseline, and the counting of consecutive anomalies that pauses inference: they do not feed the key decision.
- ChainLogs.GetLogsByTopicValues: does not model logs without a block number or log index, because settled logs always carry both; it asks for a cap of at least one value per request, because the batching loop advances by the cap.
- ClaimGate.NoMutualClaims: asks for one row per shared observation, because without it the claim is false (`RepeatedRows.RepeatsBeatThemselves`); the collector does not enforce it, since two reports of one forecaster for one token and time both become rows.
- InsiderReplay.ResolveInsiderExit: does not find transfers a token emits with address topics that are not zero-padded, because the code filters on padded topics; `HiddenTransfers.NeverMissesIff` says exactly when this matters.
- MerkleSoundness.ProofShowsMembership: asks for 32-byte leaves, which report hashes are, and for siblings with an even number of hex digits, because an odd one is padded before hashing and no longer splits the bytes in one place.
- EpochHistory.WindowsTile: asks for ticks in order of time, because one process stamps them from one clock; two overlapping processes or a clock set back are not modelled.
- Prisma, BullMQ, viem, Telegram, OAuth, the API routes, the dashboard and the deep-dive agent: plumbing and user interface.
