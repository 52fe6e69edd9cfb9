# DecQueue: a verified model

DecQueue is a job queue kept in program accounts. A queue has a counter record, a head record and a
linked list of index pages that each list up to 256 ids of pending jobs; every job has a record of its
own. Nine instructions create queues, add and drop pages, and move jobs through their life: pending,
processing under a worker's lock, then completed, failed, cancelled, or pending again after a delay.
Anybody may submit any instruction at any time, so the queue is a concurrent protocol whose atomic
steps are transactions. The client side adds a fee bid, a retry loop for sending transactions and the
order in which a worker goes through ready jobs.

The model is a stack, each layer proved against the one below:

| layer | files | what it is |
|---|---|---|
| accounts in memory | `Program.dfy` | mutable records and a 256-slot array page with search and in-place swap-removal; one method per instruction that writes the records field by field and may stop half-way |
| the ledger | `Execution.dfy`, `Ledger.dfy` | runs a handler on copies of the accounts; checks the account constraints first and writes the copies back only on success |
| transactions as functions | `Handlers.dfy`, `LedgerState.dfy` | the effect of each instruction, of each transaction, and of every sequence of transactions on any number of queues |
| one queue | `QueueMachine.dfy`, `QueueInvariants.dfy`, `QueueTheorems.dfy`, `QueueHistory.dfy`, `Drain.dfy`, `Walk.dfy`, `HiddenRetry.dfy`, `Counterexamples.dfy` | a single queue as a state machine, its invariant, and what follows for states and for whole runs |
| the abstract queue | `AbstractQueue.dfy`, `Refinement.dfy` | a table of jobs in phases, with no counters, no links and no order inside a page |
| shared definitions | `Types.dfy`, `Arithmetic.dfy`, `Accounts.dfy`, `Tallies.dfy` | machine integers and errors, fixed-width operations, account records and page operations, sums over jobs and pages |
| harness and client | `FuzzHarness.dfy`, `Sorting.dfy`, `FeeStrategy.dfy`, `WorkerOrder.dfy` | the two checks of the fuzz harness, the fee bid, the send loop and the worker's order |

`LedgerIsolation.QueuesRunIndependently` joins the layers: after any transactions whatever, each queue
on the ledger is a reachable state of the one-queue machine, so all theorems about `Reachable` states
hold of all queues at once. `Ledger.Ledger` runs the imperative handlers and its `Valid()` says that
its accounts are exactly those of `LedgerState.Run` on the transactions submitted so far.

## What the proofs found

- `cancel_job` accepts processing jobs in its guard, but then needs the id to be on the given page. No
  page ever lists a processing job, so the call fails with `JobNotInIndex`: only pending jobs are ever
  cancelled (`CancelOnlyPending`).
- `fail_job` lets the retry go to any page of the queue, also to one behind the head. Such a job is
  pending but never met by a walk from the head: `HiddenJobExists` constructs the run,
  `RetryIsVisibleIff` gives the condition for one retry, `WalkEqualsScanIff` the condition for a state,
  and `LiveRetriesKeepWalkComplete` the runs in which the walk always finds everything. The harness's
  index check does not notice this: it passes on every reachable state (`IndexCheckNeverFires`).
- `clock + backoff` in `fail_job` is a plain addition, and `retry_after_secs` may be negative. No Cargo
  profile in the repository turns overflow checks on, so the sum is modelled as wrapping. `RetryDelay`
  says for every clock and every delay when the due time is the exact sum and when it is not in the past: on
  a clock that is not negative, just when the delay is not negative and the sum fits.
  `WrappedRetryIsDueAtOnce` and `NegativeRetryIsDueAtOnce` are runs in which a failed job can be claimed
  again at the same clock value. `RetryTimeline` bounds the time of the k-th reclaim for any delays, if the
  first k due times do not wrap and the clock never goes back.
- The harness's worker check takes the expected worker as a parameter. It passes exactly when the job is
  neither processing nor completed, or that worker is the latest claimer (`WorkerCheckPassesIff`). The
  harness remembers claimers under a fuzz input reduced modulo 16, not under the job's id
  (`trident-tests/fuzz_0/test_fuzz.rs:633`), so it can pass another worker, and the check then raises a false
  alarm on a reachable queue (`WorkerCheckFalseAlarm`).
- Where documentation and code differ, the model follows the code: the head record's `authority` is
  documented as the queue but holds the wallet (`program/src/state.rs:80-81`, `program/src/lib.rs:115`);
  `grow_index` is documented as open to anyone but requires the authority (`program/src/lib.rs:149-163`);
  the fee strategy says jobs below high priority always take the standard path, but the code skips the
  bundle for them only from the second attempt on (`client/fee-strategy.ts:515-525`).
- A percentile outside 0 to 100 can select a position outside the fee array, so that the bid is not a
  number; `BidIsNumberIff` says exactly when. The compute-budget instructions are built from the bid outside
  the retry loop's error handling, so a bid they refuse ends `send` at once instead of being retried.

## Modelling choices

- Addresses are injective keys: a queue is addressed by (authority, name), its head by the queue, a page by
  (queue, number), a job by (queue, id). `init` means that the key is not yet present.
- `u8`, `u64` and `i64` are bounded integers; checked, saturating and wrapping operations are written out in
  `Arithmetic.dfy`. Strings are byte sequences and their lengths are in bytes.
- The clock value is an argument of each transaction and may be anything.
- When several account constraints fail at once, the model reports them in one fixed order.
- Client numbers are reals. The network's answers and the random draws are parameters.

## Model

| member | source | states |
|---|---|---|
| Accounts.RemoveJobBag | program/src/state.rs:300-308 | Swap-removal takes out exactly one occurrence of the id, whatever it does to the order, and fails exactly when there is none. |
| Accounts.RemoveJobExact | program/src/state.rs:300-308 | The exact list that is left: the last entry stands where the first occurrence of the id stood, everything else where it was. |
| Accounts.RemoveUndoesPush | program/src/state.rs:291-308 | Pushing a fresh id and removing it gives back the very same page. |
| Arithmetic.BackoffExact | program/src/lib.rs:421-424 | For attempts 1 to 63 the shift multiplier is the true power of two, at most 256 up to attempt 9, and any base delay is doubled per attempt, up to the ends of the i64 range. |
| Arithmetic.RetryTimeExact | program/src/lib.rs:429 | For all i64 values: the due time is the exact sum if and only if it fits, and is not in the past if and only if the delay is not negative and the sum does not exceed the range, or the sum falls below it. |
| Arithmetic.WrapsModulo | program/src/lib.rs:429 | The sum is taken modulo 2^64: the value outside the range is moved by exactly 2^64. |
| Arithmetic.MultiplierEverywhere | program/src/lib.rs:421-423 | The multiplier for every attempt count, also those no retry reaches: 1 at 0, the sign bit at 64, the fallback beyond. |
| Arithmetic.SaturationPoints | program/src/lib.rs:340-381 | Counting down stops at 0 and attempts stop at 255. |
| Handlers.AdvanceHeadExact | program/src/lib.rs:208-224 | On any accounts: which of the two errors, by both halves of the guard, or a head record that differs in the head number only. |
| Handlers.EnqueueLimits | program/src/lib.rs:261-299 | With all other checks passed: QueueFull exactly when one of the two queue counters is at its limit, Overflow exactly when only total_jobs is. |
| Handlers.ClosingLimits | program/src/lib.rs:381-449 | complete_job and a last fail_job report Overflow exactly when their counter is at its limit. |
| Handlers.GrowLimits | program/src/lib.rs:165-171 | For the authority, Overflow exactly when the number given is not the next one. |
| Program.JobIndex.PushJob | program/src/state.rs:292-296 | Appends in place, or fails on a full page and leaves it alone. |
| Program.JobIndex.RemoveJob | program/src/state.rs:300-308 | The search loop finds the first occurrence and overwrites it with the last entry in place; a missing id changes nothing. |
| Program.InitializeQueue | program/src/lib.rs:78-141 | Checks name length and retry limit, then writes the fields of all three new accounts. |
| Program.GrowIndex | program/src/lib.rs:159-194 | Authority, next number and full tail page, in this order, then links old tail, new tail and head record. |
| Program.AdvanceHead | program/src/lib.rs:208-224 | An empty page with a successor moves the head to it; else one of two errors. |
| Program.EnqueueJob | program/src/lib.rs:236-311 | All guards and overflow branches, and on success the queue, the head record, the tail page and every field of the job. |
| Program.ClaimJob | program/src/lib.rs:325-354 | Status and due-time guards, then the lock and the removal from the given page; the job may be half-written when removal fails. |
| Program.CompleteJob | program/src/lib.rs:359-395 | Status, worker and length guards, then the job's result and the two counters. |
| Program.FailJob | program/src/lib.rs:400-461 | Either pending again with a backoff and an entry on the given page, or failed with two counters moved. |
| Program.CancelJob | program/src/lib.rs:466-497 | Authority and status guards, removal from the given page, then the terminal fields and the counter. |
| Program.SetQueuePaused | program/src/lib.rs:502-519 | Only the authority changes the flag. |
| Execution.EnqueueJob | program/src/lib.rs:236-311 | Run on copies, the handler writing in place gives the instruction's effect or its error. |
| Execution.ClaimJob | program/src/lib.rs:325-354 | The same for claiming. |
| Execution.FailJob | program/src/lib.rs:400-461 | The same for failing. |
| Execution.CancelJob | program/src/lib.rs:466-497 | The same for cancelling. |
| Ledger.PagesFit | program/src/state.rs:248-264 | No sequence of transactions ever stores more than 256 ids on a page. |
| Ledger.Ledger.InitializeQueue | program/src/lib.rs:526-566 | As a transaction: three new addresses, all accounts written or none. |
| Ledger.Ledger.GrowIndex | program/src/lib.rs:570-606 | As a transaction: derived addresses of head, tail and new tail checked, both pages and the head written or none. |
| Ledger.Ledger.AdvanceHead | program/src/lib.rs:609-625 | As a transaction: the page must be the head page of the queue it names. |
| Ledger.Ledger.EnqueueJob | program/src/lib.rs:628-664 | As a transaction: job, head and tail addresses checked, four accounts written or none, also when an overflow is found after the first writes. |
| Ledger.Ledger.ClaimJob | program/src/lib.rs:671-686 | As a transaction: job and page of one queue; when the page does not list the id the lock already written is rolled back. |
| Ledger.Ledger.CompleteJob | program/src/lib.rs:690-699 | As a transaction: the job must belong to the queue given. |
| Ledger.Ledger.FailJob | program/src/lib.rs:702-720 | As a transaction: the job must belong to the queue and the page to the job's queue; when the page is full the release already written is rolled back. |
| Ledger.Ledger.CancelJob | program/src/lib.rs:723-740 | As a transaction: the job must belong to the queue and the page to the job's queue. |
| Ledger.Ledger.SetQueuePaused | program/src/lib.rs:743-749 | As a transaction: the queue must exist. |
| LedgerIsolation.GrowConstraints | program/src/lib.rs:570-606 | Missing account, wrong derived address and occupied new page: each error exactly when it applies. |
| LedgerIsolation.AdvanceConstraints | program/src/lib.rs:609-625 | Missing account, or a page that is not the head page of the queue it names: each error exactly when it applies. |
| LedgerIsolation.EnqueueConstraints | program/src/lib.rs:628-664 | Missing account, wrong derived address and occupied job address: each error exactly when it applies. |
| LedgerIsolation.ClaimConstraints | program/src/lib.rs:671-686 | QueueMismatch exactly when job and page exist and belong to different queues. |
| LedgerIsolation.CompleteConstraints | program/src/lib.rs:690-699 | The has_one error exactly when queue and job exist and the job belongs to another queue. |
| LedgerIsolation.FailConstraints | program/src/lib.rs:702-720 | The has_one error exactly for a job of another queue, QueueMismatch exactly for a job of the queue and a page of another. |
| LedgerIsolation.CancelConstraints | program/src/lib.rs:723-740 | The same for cancelling. |
| LedgerIsolation.SetPausedConstraints | program/src/lib.rs:743-749 | Only a missing queue fails a constraint. |
| LedgerIsolation.MixedAccountsRejected | program/src/lib.rs:570-740 | No transaction whose accounts do not belong to one queue, or whose derived addresses are wrong, gets past the constraints. |
| LedgerIsolation.TransactionActs | program/src/lib.rs:570-740 | A well-addressed transaction acts on its queue as one call of the one-queue machine, with the same outcome and error, and touches no account of any other queue. |
| LedgerIsolation.InitializeExact | program/src/lib.rs:78-141 | Every field of the queue, head and page that creation stores, for the name, retry limit and clock given; AccountInUse, NameTooLong and InvalidRetries each exactly when it applies. |
| LedgerIsolation.InitializeActs | program/src/lib.rs:526-566 | Creation makes a fresh queue under an address that was free, and touches nothing else. |
| LedgerIsolation.EveryRunIsGood | program/src/lib.rs:526-740 | After any transactions, accounts belong to existing queues and carry the identity of their address, and every queue follows its own calls. |
| LedgerIsolation.QueuesRunIndependently | program/src/lib.rs:526-740 | After any transactions, every queue is exactly where the calls committed on it lead from its own creation. |
| QueueInvariants.StepInv | program/src/lib.rs:159-519 | Every committed call keeps list shape, lifecycle fields, index exactness, exact counters and the growth bound together. |
| QueueInvariants.ReachableInv | program/src/lib.rs:78-519 | The invariant holds after every run from creation. |
| QueueInvariants.MovedInv | program/src/lib.rs:325-497 | Moving one job and rewriting one page keeps the whole invariant if page, job and counters change by matching amounts. |
| QueueInvariants.OnPage | program/src/state.rs:263-264 | An id on a page is a pending job's, once on that page and on no other. |
| QueueTheorems.IndexIsExact | program/src/lib.rs:236-497 | In every reachable state the union of all pages, with multiplicity, is the set of pending jobs, and no page exceeds 256. |
| QueueTheorems.CountersAreCounts | program/src/lib.rs:261-299 | Each counter equals the number of jobs it stands for; job_count is total_jobs, the number of job accounts, and the sum over all five statuses. |
| QueueTheorems.PendingCountNeverSaturates | program/src/lib.rs:381-487 | Each closing call takes exactly one from pending_count; no saturating subtraction saturates. |
| QueueTheorems.TailBound | program/src/lib.rs:165-171 | 256 times the tail number is at most the pushes so far, which are at most job_count times the attempts allowed; so the tail number never reaches the end of its range. |
| QueueTheorems.GrowCommitsIff | program/src/lib.rs:159-194 | grow_index commits exactly for the authority, the next number and a full tail: the page never exists already and the addition never overflows. |
| QueueTheorems.AdvanceCommitsIff | program/src/lib.rs:208-224 | The two halves of the guard are equivalent; advance_head commits exactly on a drained page that is not the tail, and moves the head by one. |
| QueueTheorems.MoveEffect | program/src/lib.rs:325-497 | A committed claim, completion, failure or cancellation rewrites exactly the job it names, field by field as listed, and cancellation only a pending one. |
| QueueTheorems.OtherEffect | program/src/lib.rs:159-311 | Every other committed call leaves existing jobs alone; enqueue adds one pending job under the next id. |
| QueueTheorems.CancelOnlyPending | program/src/lib.rs:466-497 | cancel_job commits exactly for the authority on a pending job with its page; on a processing job it fails with JobNotInIndex on every page. |
| QueueTheorems.ClaimFromOnePage | program/src/lib.rs:325-354 | A due pending job can be claimed from exactly one page. |
| QueueTheorems.LockIsExclusive | program/src/lib.rs:359-497 | A processing job changes only through complete_job or fail_job by the worker it records, whoever submits what. |
| QueueTheorems.TerminalForever | program/src/lib.rs:359-497 | A completed, failed or cancelled job is never written again in any continuation of the run. |
| QueueTheorems.LifecycleFields | program/src/state.rs:149-162 | Worker and start time are absent while pending and present while processing, the completion time is present exactly in terminal jobs, and a job fails only with all its attempts used. |
| QueueTheorems.RetryDelay | program/src/lib.rs:419-429 | Every reachable retry, whatever its clock and delay, has 1 to 9 attempts behind it and the exact multiplier 2^(attempts-1) <= 256; its due time is clock + delay (the doubled delay, clipped to i64) if and only if that fits, and when it is not in the past is characterised exactly. |
| QueueHistory.AmortisedGrowth | program/src/lib.rs:159-194 | In every run 256 * tail number <= ids pushed <= enqueues * attempts allowed. |
| QueueHistory.LifecycleCallsBounded | program/src/lib.rs:325-497 | A run with n enqueues has at most 2 M n claims, completions, failures and cancellations, M being the attempts allowed. |
| QueueHistory.ClaimsBounded | program/src/lib.rs:335-340 | The attempts field is the number of claims in the run, and no job is claimed more than M <= 10 times. |
| QueueHistory.WorkerIsLatestClaimer | program/src/lib.rs:337-343 | The worker and start time a job records are those of its latest claim in the whole run. |
| QueueHistory.FailureFollowsClaim | program/src/lib.rs:325-461 | With a clock that never goes back, claims and failures of a job alternate: the k-th failure comes between the k-th claim and the next one. |
| QueueHistory.RetryTimeline | program/src/lib.rs:329-429 | Reclaim k comes no sooner after the first claim than the sum of the first k waits, for any delays and over all interleavings, if these k due times do not wrap. |
| QueueHistory.BackoffTimeline | program/src/lib.rs:329-429 | If the first k failures ask for the same r >= 0, reclaim k comes at least r * (2^k - 1) after the first claim. |
| Counterexamples.WrappedRetryIsDueAtOnce | program/src/lib.rs:429 | A run in which the longest delay wraps and the failed job is claimed again at the same clock value. |
| Counterexamples.NegativeRetryIsDueAtOnce | program/src/lib.rs:403-429 | A run in which a negative delay does the same. |
| Drain.CanDrain | program/src/lib.rs:208-395 | From every reachable state, with the clock past all due times, a schedule of at most two calls per live job and one per page empties the queue, every call committing. |
| Walk.WalkIsLivePath | program/src/lib.rs:208-224 | Following successor links from the head ends at the tail, in exactly one way, visiting each live page once in order. |
| Walk.WalkEqualsScanIff | program/src/lib.rs:293-432 | The walk reads exactly the pending jobs, each once, if and only if the pages behind the head are empty. |
| Walk.RetryIsVisibleIff | program/src/lib.rs:712-719 | A retried job can be met by the walk if and only if the page named for the retry is not behind the head. |
| Walk.LiveRetriesKeepWalkComplete | program/src/lib.rs:431-432 | In runs whose retries name pages not behind the head, pages behind the head stay empty and the walk always equals the scan. |
| HiddenRetry.HiddenJobExists | program/src/lib.rs:712-719 | There is a run after which a pending job is on no page of the walk. |
| Refinement.StepSimulates | program/src/lib.rs:159-519 | Every call in every state satisfying the invariant does what the abstract queue says: same success, same error, corresponding state. |
| Refinement.RunSimulates | program/src/lib.rs:78-519 | Whole runs correspond, and fail at the same call with the same error. |
| Refinement.OrderIsUnobservable | program/src/state.rs:241-308 | States that agree up to the order of ids within pages answer every call alike and still agree afterwards. |
| Refinement.OnlyPageOrderIsLost | program/src/state.rs:16-268 | The abstraction forgets nothing else: counters, links, records and page contents are determined by it. |
| Refinement.ClaimsCommute | program/src/lib.rs:325-354 | Claims of two different jobs commit in either order with results that differ at most in the order within pages. |
| Refinement.ArithmeticErrors | program/src/lib.rs:165-171 | On reachable states Overflow only means a wrong page number, QueueFull only that ids have run out, and an existing account can only be named by grow_index. |
| FuzzHarness.WalkList | trident-tests/fuzz_0/test_fuzz.rs:226-255 | The first loop terminates on any accounts, finds the complete chain of pages and counts its ids, or reports the page at which the links return to a visited page or end early, and then there is no such chain. |
| FuzzHarness.AddPage | trident-tests/fuzz_0/test_fuzz.rs:278-286 | The inner loop reports an id, one that stands twice, exactly when the ids seen and those of the page are not all different. |
| FuzzHarness.FindDuplicate | trident-tests/fuzz_0/test_fuzz.rs:271-289 | The second loop passes exactly when no id occurs twice along the chain, and otherwise reports one that does. |
| FuzzHarness.CheckIndex | trident-tests/fuzz_0/test_fuzz.rs:220-290 | The whole check passes exactly on consistent accounts (a chain without repetition, at most total_jobs ids, none twice); it reports a broken list exactly when there is no chain, too many ids with their exact number, and a repeated id only when it stands twice. |
| FuzzHarness.IndexCheckNeverFires | trident-tests/fuzz_0/test_fuzz.rs:220-290 | Every reachable queue is consistent, wherever its retries went. |
| FuzzHarness.CheckWorkerExact | trident-tests/fuzz_0/test_fuzz.rs:311-351 | What the worker check decides on any record or none, status by status. |
| FuzzHarness.WorkerCheckPassesIff | trident-tests/fuzz_0/test_fuzz.rs:305-352 | The check passes exactly when the job is neither processing nor completed, or the expected worker is its latest claimer. |
| Counterexamples.WorkerCheckFalseAlarm | trident-tests/fuzz_0/test_fuzz.rs:305-352 | On a reachable queue the check fires when it is given a worker who is not the latest claimer. |
| FeeStrategy.BidIsNumberIff | client/fee-strategy.ts:238-244 | The bid is a number exactly when there are no positive samples or 0 <= p (n - 1) < 100 n. |
| FeeStrategy.PercentagesAlwaysBid | client/fee-strategy.ts:97-103 | Every percentile from 0 to 100 yields a bid, also when fees cannot be fetched. |
| FeeStrategy.BidWithoutSamples | client/fee-strategy.ts:233-240 | When fees cannot be fetched, or none is positive, the bid is the floor. |
| FeeStrategy.ChosenFeeIsStatistic | client/fee-strategy.ts:229-244 | The fee at position k has at least k + 1 positive samples at or below it and at least n - k at or above it. |
| FeeStrategy.BidIsClampedStatistic | client/fee-strategy.ts:229-250 | For the k with k <= p (n - 1) / 100 < k + 1 and any x that is order statistic k of the positive samples: the bid is x between floor and cap, the cap above it, the floor below it or when the floor exceeds the cap. |
| FeeStrategy.BidHasStatistic | client/fee-strategy.ts:229-250 | Whenever there are samples and the bid is a number, such a k and such a sample x exist. |
| FeeStrategy.BidInRange | client/fee-strategy.ts:246-250 | A bid is never below the floor, and never above the cap unless floor exceeds cap. |
| FeeStrategy.SampleOrderIsIrrelevant | client/fee-strategy.ts:229-232 | Rearranging the samples does not change the bid. |
| FeeStrategy.BidMonotoneInPercentile | client/fee-strategy.ts:242-250 | A higher percentile never bids less. |
| FeeStrategy.BidMonotoneInSamples | client/fee-strategy.ts:229-250 | When fees rise and the same slots stay idle, the bid does not fall. |
| FeeStrategy.DelaysGrowGeometrically | client/fee-strategy.ts:448 | The delay before jitter is the base after the first failure and is multiplied by m on each further one. |
| FeeStrategy.NominalClosed | client/fee-strategy.ts:448 | The sum S of n such delays satisfies S (m - 1) = base (m^n - 1). |
| FeeStrategy.BackoffDelayExact | client/fee-strategy.ts:444-451 | For every configuration and draw: base m^(a-1) (1 + j (2 draw - 1)) rounded to the nearest millisecond, halves up, or 0 if that is negative. |
| FeeStrategy.TotalDelayWithin | client/fee-strategy.ts:444-451 | For base and multiplier not negative and jitter j in 0 to 1, the sum of n delays is within j S + n / 2 of the geometric sum S. |
| FeeStrategy.BundleCount | client/fee-strategy.ts:517-526 | Standard mode sends no bundle, automatic mode only on the first attempt, Jito mode on all, or on one if limited to it for lower priorities. |
| FeeStrategy.HybridFeeStrategy.Send | client/fee-strategy.ts:492-604 | Stops at the first attempt that lands, fails exactly when none of maxAttempts does, is rejected at the first bid for which no instructions can be built; reports path and bid of that attempt; sleeps the backoff delay of attempt a after its failure, but not after the last, in total within j S + n / 2 of the geometric sum S over its n sleeps; never rejected for a percentage if every number can be built. |
| Sorting.SortIsCanonical | client/worker.ts:136-144 | For a total preorder without ties, sorting gives the one sorted rearrangement there is. |
| WorkerOrder.CompareIsTotalOrder | client/worker.ts:136-144 | The comparator is total, transitive and antisymmetric, and calls only jobs with the same id equal. |
| WorkerOrder.ReadyJobsAreCanonical | client/worker.ts:133-145 | The result is the one list that holds exactly the pending jobs whose time has come, by priority down, due time up, id up. |
| WorkerOrder.FetchOrderIsIrrelevant | client/worker.ts:133-145 | The order in which jobs were fetched does not matter. |

## Left out

- The compressed-account handlers and their record type: switched off by a feature, and their correctness rests on a system program that is not part of this model.
- Address derivation, bump seeds, rent, account sizes and account serialisation.
- Emitted events, and everything about payloads, job types, results and error messages except their lengths.
- The scenarios of the fuzz harness that drive the program, and the 64-bit overflow of its id counter, which pages of 256 ids cannot reach.
- Sending bundles and confirming them, RPC calls, blockhashes and signatures: an attempt lands or does not.
- Which bids the compute-budget builder refuses (a parameter of the send loop), and IEEE rounding of client numbers.
- The rest of the worker (polling, executing, reporting), the client library, the dashboard and the scripts.
- FeeStrategy.TotalDelayWithin: says nothing for a negative base or multiplier or a jitter factor outside 0 to 1, which the configuration documents as excluded.
- QueueHistory.RetryTimeline: assumes a clock that never goes back and due times that do not wrap, because the program guards neither; `Counterexamples.WrappedRetryIsDueAtOnce` shows that wrapping breaks the bound.
- Drain.CanDrain: shows that a schedule exists; that workers actually follow one is not modelled.
