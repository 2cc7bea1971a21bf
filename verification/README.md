# Credit ledger and task scheduler: a verified model

This project models the backend of an image generation service in Dafny and proves what its code
relies on. Users hold a wallet with credits and with entitlements to a number of pictures. A create
request takes one unit, or the price in credits, from the balance and queues a task; workers claim
queued tasks, call at most two upstream providers, and either charge the task or give the units back.
Payment callbacks and licence redemptions put money in. The database has no check constraint on a
balance, so that no balance turns negative and no credit is lost or doubled rests on the code alone.

Two views of the same code are kept side by side.

* `Backend.Store` is the program's own form: a class whose fields are the tables, with one method per
  request, worker round or transaction, loops and branches as in the source, each proved against a
  function of the old rows.
* State machines (`Accounting`, `Scheduler`, `Timing`, `Redemption`) split the same operations into
  the statements that other processes can come between: row locks held from `FOR UPDATE` to commit,
  READ COMMITTED visibility, a transaction without effect when it aborts, crashes between statements.
  Their theorems are about every run from the empty database.

| module | about |
|---|---|
| `Text`, `Clock`, `Totals`, `Runs` | string functions and durations of the Go library; counts and sums over tables; runs of a machine |
| `Rows`, `Routing` | rows of the billing tables, single statements, billing and bucket selection |
| `Profiles`, `Rotation`, `Cooldown` | provider selection, fairness, cooldown |
| `Recovery`, `Refunds` | batch recovery of stale tasks and its two accumulation maps |
| `Accounting`, `LedgerShape`, `LedgerMoney`, `LedgerCaps`, `Extremes` | the ledger machine, its invariant, conservation, concurrency caps, runs that attain the bounds |
| `Claims`, `Scheduler`, `SchedulerSafety`, `ProviderLoads`, `Overload` | claiming, fallback, limits, tier, progress; exactly when a provider exceeds its cap, and two runs in which it does |
| `Timing` | recovery by any replica against live workers, with a clock |
| `Signing`, `Payments` | callback signature, order state machine |
| `Redemption` | concurrent licence redemption |
| `Migrations` | crash-restartable schema migrations |
| `AspectRatio` | gcd, presets, reduced ratio |
| `Backend` | the operations statement by statement |

Five naive claims are false of the code. Each has a lemma with a run or an input that refutes it, next
to the exact form that is proved:

* "a wallet and service never have more active tasks than the cap": `Extremes.CapIsExceededByOne`
  reaches one more. `LedgerCaps.CapIsKeptIff` says exactly when the cap is kept, counting places
  promised to admitted requests: if and only if no request is admitted to the last free place while
  another one, paid from the other balance row, was already promised a place.
  `LedgerCaps.ExcessShowsIff` says when the excess shows in the tasks themselves, and
  `LedgerCaps.ConcurrencyIsCapped` that it is never more than one;
* "a crash loses no credit": `Extremes.CrashCanLoseCredit`; `LedgerMoney.NothingLostIffNothingCut`
  says exactly when credit is lost and `LedgerMoney.OnlyCutTasksLoseCredit` how much;
* "a provider never runs more tasks than its cap": `Overload.FallbackOverloads` reaches one more by a
  fallback, and `Overload.ClaimOverloads` by the commit of a claim although every fallback found room.
  `ProviderLoads.ProviderCapKeptIff` says exactly when the cap is kept: if and only if no fallback and
  no commit of a claim puts a task on the provider while it has no room.
  `ProviderLoads.ClaimOverfillsAfterFallback` says when the second can happen, and
  `SchedulerSafety.ProviderCapHolds` bounds the excess;
* "a paid order is credited once": `Payments.PaidTwiceAfterExpiry` on the order, and
  `Backend.PayTwice` through the callback handler with signed payloads; `Payments.CreditedOnce` gives
  the exact condition on the sequence of callbacks;
* "a recovery never disturbs a live worker": `Timing.UnwrittenBumpBreaksSafety` and
  `Timing.UnwrittenBumpRefundsTwice`, by a fallback whose timestamp is not written.
  `Timing.RecoveryDisturbsIff` says exactly when it happens, and `Timing.RecoveryIsSafe` and
  `Timing.RefundedOnce` that it never does with every timestamp written.

The runs behind the first three read true data: in `Extremes` every request reads the balances as they
stand, in `Overload` every selection reads the providers as they stand and writes its bookkeeping.

## Model

| member | source | states |
|---|---|---|
| LedgerCaps.ConcurrencyIsCapped | internal/httpapi/tasks.go:370-456 | In every interleaving of creators, workers, recoveries and redemptions, committed plus inserted-but-uncommitted active tasks of a wallet and service are at most max(6, max_concurrent) + 1; with credits as the only source they are at most 6, with the entitlement as the only source at most its effective max_concurrent |
| LedgerCaps.JointCapHolds | internal/httpapi/tasks.go:370-456 | The same bound with the places already promised to admitted creators counted in |
| LedgerCaps.SourceCapHolds | internal/httpapi/tasks.go:374-425 | With a single billing source the cap its creators read is never exceeded, also while redemptions raise it |
| LedgerCaps.CapIsKeptIff | internal/httpapi/tasks.go:415-425 | Over a run, active tasks and places promised to admitted requests stay within max(6, max_concurrent) if and only if no admission takes the last free place while the other balance row's holder was already promised one |
| LedgerCaps.AdmissionKeepsCapIff | internal/httpapi/tasks.go:415-425 | The same for a single admission, by what can be seen before it |
| LedgerCaps.ExcessShowsIff | internal/httpapi/tasks.go:426-456 | Committed plus inserted active tasks exceed the cap exactly when the load does and every admitted request has inserted its task |
| LedgerCaps.StepLoad | internal/httpapi/tasks.go:415-456 | What a step may add to the load: nothing but an admission raises it, and an admission only below the cap |
| LedgerCaps.StepKeepsCaps | internal/httpapi/wallet_api.go:184-194 | No step removes an entitlement or lowers its concurrency |
| Extremes.CapIsExceededByOne | internal/httpapi/tasks.go:370-456 | A run in which every request reads the balances as they stand reaches exactly one active task more than max(6, max_concurrent): two creators on different balance rows do not see each other, though the second insert waits for the wallet row |
| LedgerShape.StepKeepsShape | internal/httpapi/tasks.go:370-456 | Every step keeps the structural invariant: lock ownership, what a lock holder knows, and how status, flags, worker stage and refund count of a task fit together |
| Accounting.ActiveTasksCounts | internal/httpapi/tasks.go:413-417 | The count against the cap is that of the queued and running tasks of this wallet and service |
| Accounting.InflowArrives | internal/httpapi/wallet_api.go:184-194 | A top-up or redemption raises one balance, and what is booked as its inflow, by the same amount |
| LedgerMoney.CreditIsConserved | internal/httpapi/tasks.go:370-456 | No balance is ever negative, with any crashes; in crash-free runs, whenever no worker is mid-refund, balance plus reserved units equals everything that came into the account |
| LedgerMoney.StepKeepsBalanced | internal/httpapi/tasks.go:1176-1204 | Every step keeps, per account, balance plus debits not yet given back equal to the inflows |
| LedgerMoney.RefundedAtMostOnce | internal/httpapi/tasks.go:1176-1204 | Over any crashes and restarts no task is refunded twice, a refund returns exactly what was debited, and none is both refunded and charged |
| LedgerMoney.MissingIsUnrefunded | internal/httpapi/tasks.go:1176-1204 | In every state of every run, also with workers mid-refund, what an account misses equals what its failed tasks without a refund are owed |
| LedgerMoney.OnlyCutTasksLoseCredit | internal/httpapi/tasks.go:1176-1204 | Whenever no worker is mid-refund, over any crashes and restarts, the credit lost on an account equals exactly the units of its tasks cut between the status update and the refund |
| LedgerMoney.NothingLostIffNothingCut | internal/httpapi/tasks.go:1176-1204 | An account lost nothing if and only if none of its tasks was cut there |
| Extremes.CrashCanLoseCredit | internal/httpapi/tasks.go:1178-1182 | A run with one crash after the status update reaches a state that has lost a credit |
| Backend.FailureUndoesCreation | internal/httpapi/tasks.go:426-447 | Creating, claiming and failing a task leaves every balance and every other row as it was |
| Routing.QueuedRowIsFresh | internal/httpapi/tasks.go:1285-1299 | Every row a billing choice leads to is for at least one unit, which is why a refund can undo the debit |
| Backend.CreationIsUninterrupted | internal/httpapi/tasks.go:370-456 | The lock, count, write and commit steps of the machine, taken without interruption, are the creation transaction with the same outcome and rows |
| Backend.FailureIsUninterrupted | internal/httpapi/tasks.go:1176-1204 | The machine's steps of a failing worker, taken without interruption, are the failure, and book its refund once |
| Backend.BillMeans | internal/httpapi/tasks.go:1243-1309 | What is stored as service, source, key and units of a created task |
| Backend.Store.CreateTask | internal/httpapi/tasks.go:314-456 | Refused for billing exactly when no billing is found, else for the provider exactly when none is found, else as the transaction decides; a refusal changes no balance or task. A created task is queued, reserved and uncharged; billed to an entitlement it took one unit of it, else the wallet lost exactly the enabled price of image-2-hd/HD or image-2-sd/1K, raised to at least one |
| Backend.Store.Insert | internal/httpapi/tasks.go:370-456 | The transaction: too little balance when the locked row is missing or short, too many when the active tasks of wallet and service reach 6 or the entitlement's own positive max_concurrent, else exactly the debit and the insert |
| Backend.Store.ClaimNext | internal/httpapi/tasks.go:576-621 | Nothing is claimed exactly when the global limit is reached or on the provider of every queued task as many run as its own max_concurrent, where positive, or else the default; otherwise an oldest queued task with room by that cap turns running and nothing else changes |
| Backend.Store.FailTaskAndRefund | internal/httpapi/tasks.go:1176-1204 | The three statements of a failure applied to the rows, refunding by the worker's copy |
| Backend.FailureMeans | internal/httpapi/tasks.go:1178-1202 | A failure turns only a running task failed; for a copy that is reserved, uncharged and names wallet and service it gives the units, at least one, to the wallet or one to the entitlement and clears the reservation |
| Backend.Store.CallProviders | internal/httpapi/tasks.go:725-748 | One call, or a second to a different provider exactly when the first failed and a provider is left; with a second call the stored row, if there is one, has exactly its provider and timestamp changed, and otherwise no row is |
| Backend.SecondChoiceMeans | internal/httpapi/tasks.go:740-746 | The second provider is another one that is active, has a key, is not cooling down and serves the stored tier; there is none only when no such one is left or the service does not cover the tier |
| Backend.CallsRecorded | internal/httpapi/tasks.go:1129-1173 | What one or two calls write to the provider rows: counts, selection stamp, and from the second failure on a cooldown of five minutes |
| Backend.Store.ExecuteTask | internal/httpapi/tasks.go:708-785 | A claimed task ends done and charged exactly when payload, provider, last call and uploads were good, and failed with its refund otherwise; either way the row is stored under the provider called last |
| Backend.ExecutionSettles | internal/httpapi/tasks.go:753-785 | Done means charged with all balances unchanged; failed means uncharged, unreserved and exactly its units back on its own account; no other task is touched |
| Backend.Store.ProcessNext | internal/httpapi/tasks.go:266-284 | A worker round does nothing exactly when a claim is refused; otherwise one oldest takeable task ends done or failed and no other task changes |
| Backend.Store.SelectProfile | internal/httpapi/tasks.go:1095-1145 | Returns the best provider not excluded, which is active, has a key, is not cooling down and serves one of the buckets; stamps only that one, and finds none only when all eligible ones are excluded |
| Backend.Store.RecoverStale | internal/httpapi/tasks.go:186-264 | The cutoff is the given age before now, or twelve minutes for none, and for timeout plus two minutes it is the cutoff of the timed machine and finds the same rows; exactly the stale rows are failed and released and each balance gains what they are owed, or nothing changes, exactly when a balance row is missing |
| Refunds.Accumulate | internal/httpapi/tasks.go:213-233 | In whatever order rows arrive, the two maps hold the per-wallet and per-entitlement sums and name no account that is owed nothing |
| Refunds.PayEntitlements | internal/httpapi/tasks.go:235-248 | In every map order each entitlement gains the sum of its keys; it fails exactly when one of them is missing |
| Refunds.PayWallets | internal/httpapi/tasks.go:249-262 | The same for wallets |
| Refunds.RunRecovery | internal/httpapi/tasks.go:186-264 | Marking, accumulating and paying out is the recovery of the whole state, for every iteration order |
| Recovery.BatchEqualsOneByOne | internal/httpapi/tasks.go:186-264 | The batch equals refunding the stale tasks one by one in any order, and a missing balance row leaves the whole state unchanged |
| Recovery.SecondRecoveryIsIdle | internal/httpapi/tasks.go:186-204 | A second recovery with the same cutoff changes nothing |
| Recovery.RecoverEffects | internal/httpapi/tasks.go:186-264 | Exactly the stale rows are failed and released, and each balance gains exactly the sum of their refunds |
| Recovery.RefundSumCounts | internal/httpapi/tasks.go:213-233 | An account is owed the sum over the rows: the units of credit-billed tasks, at least one each, for the wallet, one per other task for its entitlement |
| Claims.NextExists | internal/httpapi/tasks.go:588-612 | The claim query finds a row exactly when fewer tasks run on some queued task's provider than its own positive max_concurrent, or else the default; it is such a row and none of them is older |
| Claims.RunningOnCounts | internal/httpapi/tasks.go:599-603 | The load of a provider is the number of running tasks stored under it |
| Claims.RunningTotalCounts | internal/httpapi/tasks.go:672-675 | The global load is the number of running tasks |
| SchedulerSafety.StepIsSafe | internal/httpapi/tasks.go:576-621 | Every step of claimers, workers and provider changes keeps the scheduler's invariant |
| SchedulerSafety.GlobalLimitHolds | internal/httpapi/tasks.go:670-694 | Over every run of concurrent claimers running tasks never exceed the largest global limit any of them read |
| SchedulerSafety.ProviderCapHolds | internal/httpapi/tasks.go:597-606 | Running tasks still on the provider they were claimed for stay within its own positive max_concurrent, or else the default; all running on it exceed that by at most those that fell back into it |
| SchedulerSafety.NativeAndFallen | internal/httpapi/tasks.go:725-746 | The two parts of the load: running on the provider called first, or on one called later |
| ProviderLoads.ProviderCapKeptIff | internal/httpapi/tasks.go:588-612 | Over a run the tasks running on a provider stay within its own positive max_concurrent, or else the default, if and only if no written fallback into it and no commit of a claim on it happens while that many run there |
| ProviderLoads.StepCounts | internal/httpapi/tasks.go:678-694 | A step raises a provider's load only by a written fallback into it or a committed claim on it, and then by one |
| ProviderLoads.ClaimOverfillsAfterFallback | internal/httpapi/tasks.go:597-612 | The commit of a claim overfills its provider only if a task fell back into it after the claim had picked its own |
| SchedulerSafety.FallbackMayExceedCap | internal/httpapi/tasks.go:740-746 | For a fallback alone: right after it the new provider is within its own positive max_concurrent, or else the default, if and only if it had room before |
| Overload.ClaimOverloads | internal/httpapi/tasks.go:588-617 | In a run whose fallbacks all find room, a claim that picked its task before one of them commits after it and leaves the provider one over its cap |
| Overload.FallbackOverloads | internal/httpapi/tasks.go:740-746 | With two providers capped at one task each, rotation and one failed call lead to two tasks running on one of them; every selection reads the provider table of its moment |
| SchedulerSafety.HdTaskStaysHd | internal/httpapi/tasks.go:1338-1350 | A task created as 2K or 4K is, at every later time, billed to the HD service and on hd-bucket providers only |
| SchedulerSafety.StandardTaskPrefersOneK | internal/httpapi/tasks.go:1107-1108 | A task of standard tier goes to an hd provider only when no eligible 1k provider is left |
| SchedulerSafety.StepMeasure | internal/httpapi/tasks.go:678-694 | Without new tasks 2*queued + running falls by one at every claim and completion and at no other step |
| SchedulerSafety.ProgressIsCounted | internal/httpapi/tasks.go:678-694 | Over a whole stretch of a run the measure falls by exactly the number of claims and completions |
| SchedulerSafety.ClaimedTasksMoveOn | internal/httpapi/tasks.go:725-748 | A claimed task never returns to queued and has called one provider or two different ones |
| Timing.RecoveryIsSafe | internal/httpapi/tasks.go:186-204 | With several replicas and a shared clock, recovery never picks a task a live worker executes, and no recovered task is ever charged |
| Timing.RecoveryDisturbsIff | internal/httpapi/tasks.go:186-204 | In every run, whatever timestamps are written, a recovery picks a live worker's task if and only if its refund is still open and the time the worker has used since the row's last timestamp exceeds timeout plus grace as the recovery reads the clock |
| Timing.StepIsAged | internal/httpapi/tasks.go:740-746 | Every step keeps the age of a live worker's row equal to the time the worker has used, until a recovery takes the row |
| Timing.StepIsTimely | internal/httpapi/tasks.go:740-746 | Every step whose fallback timestamp is written keeps that time within timeout and grace, and no row is taken |
| Timing.RefundedOnce | internal/httpapi/tasks.go:1176-1204 | With several replicas no task is given back twice, by its worker and by a recovery in either order, and none is both given back and charged |
| Timing.UnwrittenBumpRefundsTwice | internal/httpapi/tasks.go:745 | For every positive timeout a run with one unwritten fallback timestamp gives a task back twice |
| Timing.UnwrittenBumpBreaksSafety | internal/httpapi/tasks.go:745 | For every positive timeout a run with one unwritten fallback timestamp recovers a task that is then charged |
| Rotation.RotationIsFair | internal/httpapi/tasks.go:1095-1145 | Among k providers tied on bucket and priority any k consecutive serial selections pick each exactly once |
| Rotation.AllBetweenRepeats | internal/httpapi/tasks.go:1107-1113 | Between two selections of one provider every other one of the group is selected |
| Profiles.SelectReturnsBest | internal/httpapi/tasks.go:1096-1145 | Despite the limit of fifty rows a selection with fewer exclusions returns the first in order of the providers that are active, have a key, are not cooling down, serve a bucket and are not excluded, and fails exactly when there is none |
| Profiles.BeforeIsTotalOrder | internal/httpapi/tasks.go:1107-1112 | The ORDER BY clause is a total order, so the selected provider is unique |
| Profiles.BeforeComparesInTurn | internal/httpapi/tasks.go:1105-1110 | It compares the first place of the bucket in the list, then priority, then the last selection with never first, then the number of selections, then the ids character by character |
| Cooldown.CooldownFollowsHistory | internal/httpapi/tasks.go:1147-1174 | After any serial history the failure count is the length of the trailing failure run, and the cooldown is last failure plus five minutes exactly when that run is at least two |
| Cooldown.CooldownIsRespected | internal/httpapi/tasks.go:1101-1104 | Selection never returns a provider still in cooldown |
| Cooldown.StaleCountIsBounded | internal/httpapi/tasks.go:1159-1174 | When outcomes are recorded from stale readings the failure count never exceeds the failures recorded |
| Routing.NormalizeIsStable | internal/httpapi/tasks.go:1210-1224 | Normalising the parameters written back gives the size and tier the request was priced with |
| Routing.StoredTierAgrees | internal/httpapi/tasks.go:316-322 | The tier read back at a fallback is HD exactly when the priced tier was |
| Routing.StoredRequest | internal/httpapi/tasks.go:1210-1224 | The size is the trimmed one, or 1024x1824 for blank or auto; the tier is 1K, 2K or 4K in any case, or 1K for the default size, or none; what is written back to the parameters |
| Routing.BillingChoice | internal/httpapi/tasks.go:1243-1283 | An entitlement with something left pays one unit, the standard service first unless the trimmed upper-case tier is 2K or 4K; else credits pay the enabled price of the tier's service and key, raised to one, exactly when they cover it |
| Routing.BillingIsRoutable | internal/httpapi/tasks.go:1338-1350 | The routing function accepts every service billing selects; HD tiers go to the hd bucket alone and others to 1k before hd; it refuses exactly HD tiers of another service |
| Payments.OncePerBlock | internal/httpapi/payments.go:230-322 | Over every sequence of callbacks the wallet gains the order's credits once per maximal block of consecutive accepted paid ones |
| Payments.CreditedOnce | internal/httpapi/payments.go:230-322 | The order is credited exactly once if and only if the paid callbacks form a single block |
| Payments.CreditedOnceWhenPaidLast | internal/httpapi/payments.go:230-322 | In particular when no other accepted callback follows the first paid one |
| Payments.PaidTwiceAfterExpiry | internal/httpapi/payments.go:267-284 | Signed reports for the order that pass the handler's checks, paid, expired and paid again, credit it twice |
| Backend.PayTwice | internal/httpapi/payments.go:198-323 | The handler answers all three of them with success and the wallet has gained twice the order's credits |
| Payments.PaidAtIsFirst | internal/httpapi/payments.go:302-310 | The payment time keeps its first value |
| Payments.OnlyPaidIsPaid | internal/httpapi/payments.go:838-849 | No status but 2 is named paid |
| Payments.AcceptedMeans | internal/httpapi/payments.go:745-822 | When a callback is accepted, field by field: the amount in the first of two fields that is not blank, and what must agree where both sides name it |
| Payments.NetworksAgree | internal/httpapi/payments.go:824-836 | Two networks agree when they are the same without case, dashes and underscores, or are both names of TRON or both names of Ethereum |
| Payments.AcceptedDoes | internal/httpapi/payments.go:268-317 | An accepted callback names the status, keeps a trade id unless it brings one, sets the payment time once, and credits the wallet only for a payment of an order not marked paid |
| Backend.Store.HandleCallback | internal/httpapi/payments.go:198-323 | Unavailable without a secret, refused unsigned, wrongly signed, without or with an unknown order; else accepted exactly when it reports no payment, or an amount that is not blank reads as the order's number and merchant, currency, token, network and trade id agree wherever both sides name one; a refusal changes no wallet and no order |
| Backend.Store.ApplyCallback | internal/httpapi/payments.go:265-322 | The transaction on the locked order row and the wallet; a callback it does not accept changes neither |
| Signing.ComputeSignature | internal/httpapi/payments.go:714-729 | Every iteration order of the parameters yields the same signature: the digest of the sorted bag of non-blank trimmed pairs |
| Signing.SignatureMeans | internal/httpapi/payments.go:714-729 | The signature is the digest of the sorted pairs of the entries that are neither blank nor the signature, joined by ampersands, followed by the secret |
| Signing.PairBagMore | internal/httpapi/payments.go:724 | Each entry contributes its key, an equals sign and its value |
| Signing.FieldReads | internal/httpapi/payments.go:933-980 | What a field reads as: texts and printed numbers trimmed, nothing when absent, and as an integer the number it is or spells |
| Signing.SignatureIgnoresItself | internal/httpapi/payments.go:716-719 | Adding, changing or removing the signature entry leaves the signed text |
| Signing.SignatureIgnoresBlanks | internal/httpapi/payments.go:720-723 | So does adding, changing or removing a blank entry |
| Signing.SignedPayloadVerifies | internal/httpapi/payments.go:210-219 | A payload to which its signature was added passes the callback check |
| Redemption.StepIsSound | internal/httpapi/wallet_api.go:148-215 | Every step of concurrent redeemers keeps locks, marks, added credit and maxima consistent |
| Redemption.LicenceRedeemedOnce | internal/httpapi/wallet_api.go:148-215 | Over any interleaving a licence is credited at most once, and is marked redeemed exactly when one redemption row names it |
| Redemption.EntitlementFollowsRedemptions | internal/httpapi/wallet_api.go:184-194 | What is left of an entitlement is the sum of its redemption rows less what was spent, and max_concurrent is the largest among its redeemed licences with non-positive values read as 6 |
| Redemption.CommitAddsCredit | internal/httpapi/wallet_api.go:184-212 | A commit adds the licence's positive credit to the one entitlement it names |
| Backend.Store.RedeemLicence | internal/httpapi/wallet_api.go:148-294 | Wallet unknown, licence unknown or inactive, expired, used or worthless, in that order and each leaving all rows alone; otherwise the licence is marked, the entitlement gains its credits and keeps the greater concurrency, and one redemption row is added |
| Migrations.MigrationsCommitOnce | internal/db/migrate.go:24-65 | From any applied prefix and through runs that crash or fail anywhere, the applied set stays a prefix of the sorted files and each migration commits exactly once, in order |
| Migrations.CompletedRunIsCleanRun | internal/db/migrate.go:24-65 | Once a run completes, database, applied set and commit order equal those of a single clean run |
| Migrations.Database.ApplyMigrations | internal/db/migrate.go:13-65 | The loop is the run over the sorted files, whatever interrupts it; it executes and records in order only files found and not recorded before, and all are recorded when it succeeds |
| Text.LexLeqMeans | internal/db/migrate.go:24 | Sorting is by the first character that differs, a prefix first |
| Text.TrimSpaceCuts | internal/httpapi/tasks.go:1211 | Trimming removes white space from both ends and nothing else |
| Text.AtoiOfItoa | internal/httpapi/tasks.go:1368-1369 | A printed integer is read back exactly when it fits 64 bits |
| AspectRatio.AspectRatioFromSize | internal/httpapi/tasks.go:1363-1398 | Empty for anything but two positive numbers; otherwise the preset within three percent, or the ratio divided by its gcd |
| AspectRatio.ComputeRatio | internal/httpapi/tasks.go:1373-1397 | The preset loop finds the close preset if there is one, else the reduced ratio is printed |
| AspectRatio.RatioMeans | internal/httpapi/tasks.go:1373-1397 | 9:16, 16:9, 3:4, 4:3 and 1:1 are the results strictly within three percent of these ratios; otherwise both sides are divided by their greatest common divisor |
| AspectRatio.ClosePresetIsUnique | internal/httpapi/tasks.go:1373-1396 | No ratio is within three percent of two presets |
| AspectRatio.RatioScales | internal/httpapi/tasks.go:1363-1398 | Scaling width and height by any k >= 1 leaves the result unchanged |
| AspectRatio.RatioIsUnique | internal/httpapi/tasks.go:1373-1397 | Width and height determine the result |
| AspectRatio.ScaledResultIsSame | internal/httpapi/tasks.go:1363-1398 | Whatever is returned for the scaled size is what is returned for the size |
| AspectRatio.ReadTwoFields | internal/httpapi/tasks.go:1364-1372 | Two texts around any of the three separators are a size exactly when both, trimmed, are positive numbers of 64 bits |
| AspectRatio.ReadPrintedSize | internal/httpapi/tasks.go:1364-1372 | A printed size is read back with any of the three separators |
| AspectRatio.ComputeGcd | internal/httpapi/tasks.go:1578-1583 | The loop ends and computes the Euclidean function |
| AspectRatio.GcdIsGreatest | internal/httpapi/tasks.go:1578-1583 | The result divides both numbers and every common divisor divides it |
| AspectRatio.GcdReduces | internal/httpapi/tasks.go:1396-1397 | Dividing by it keeps the ratio and leaves no common factor |

## Left out

- HTTP handling, JSON encoding, response shaping, request validation before the wallet lookup, and the administration interface; `Backend.Store.CreateTask` starts from a known wallet and a snapshot read earlier without a lock.
- The upstream call, image download, object storage and order creation: outcomes are parameters (`upstream`, `payloadOk`, `uploadsOk`) and durations are budgets in `Timing`.
- The Postgres engine: row locks, the advisory lock, unique keys and READ COMMITTED visibility are assumptions of the machines. The key-share lock that the foreign key from tasks takes on the wallet row is modelled: the insert of an entitlement-billed task waits for a locked wallet row, and FOR UPDATE on the wallet waits for such an insert to commit.
- Deadlocks: no freedom from them is claimed; a deadlock victim is an aborted request.
- Isolated statement failures inside the refund sequence with a later statement still succeeding: the ledger machine lets a process die between any two statements, but does not skip one.
- Replicas in the ledger machine: `Accounting` runs one instance, whose recovery runs before its workers; `Timing` treats recovery by other replicas, with the status and flag of a failed task written in one step.
- Clock details: one reading of the clock stands for the two or three of a statement group, so the cooldown starts exactly at the recorded failure time. In `Timing` the delay between reading the clock and the write taking effect counts against the two-minute grace.
- Balances changed by the administration interface, wallet deletion, and deletion of licence rows.
- Integer width: balances, prices and counters are unbounded.
- Floating point: `AspectRatio` uses exact rationals for the preset comparison, so a ratio within rounding error of the three percent border may be decided differently by the program.
- Text: case mapping is ASCII, where the program folds Unicode letters too; the digest and the reading of decimals are parameters.
- Claiming a task by its id, which repeats the claim transaction for one row.
- The number of recovered units that the recovery returns, and all log and error texts.
- Signing.ComputeSignature: sorts the collected pairs with a function on sequences; the in-place update of the slice is not modelled.
