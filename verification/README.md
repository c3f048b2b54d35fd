# Cashback ledger, settlement job, flags and refresh tokens: a verified model

This project models the money-moving core of the ClickNBack back end in Dafny 4.11 and proves what it keeps.

- **Ledger** (`Ledger`, `LedgerLaws`, `LedgerRuns`, `Operations`, `Wallets`, `WalletHistory`, `Sums`): the `purchases`,
  `cashback_transactions` and `wallets` tables, and the four operations that move cashback across them: ingest,
  confirm, reject, reverse. Money is in integer cents. Tables are maps carrying the unique keys that the
  migrations declare. The laws are sums over unbounded maps and hold in every reachable state.
- **Store and services** (`Store`, `Services`): the same operations as code. A session flushes statements to a
  working copy and commits once; its connection carries an arbitrary number of statements, so every contract
  covers losing the connection before every statement. A subscriber of the event may raise after the commit.
- **Verification job** (`Job`, `Protocol`, `ProtocolLaws`, `SafeRuns`, `Publication`, `Refinement`): the tracker, a
  dispatcher tick and the retry loop as code, and the whole job as a machine of steps cut at the awaits, with
  ingestions, admin operations, flag writes and exceptions in between. `Refinement` ties the two together.
- **Scheduler** (`Scheduler`, `Overlap`): the loops it starts, and the job when several of them run its one task.
- **Cashback calculator** (`Cashback`): half-even rounding (roundTiesToEven, section 4.3.1 of IEEE 754-2008) of
  percentages kept as a coefficient over a power of ten, in a 28-digit decimal context.
- **Feature flags** (`Flags`, `Eligibility`): single lookups, the batch evaluator over the query as written and
  as documented, flag writes, and the job's eligibility filter.
- **Refresh tokens** (`Tokens`): login and single-use rotation (section 10.4 of RFC 6749).

## Where the code and its documentation differ

The model follows the code; each difference is a proved statement with its exact condition.

- `app/purchases/exceptions.py:92` lists pending and confirmed as the reversible statuses, but
  `app/purchases/policies.py:62-65` refuses only `reversed`. Reversing a rejected purchase debits the available
  balance (`app/purchases/services.py:259-263`). The ledger law therefore carries the set `clawed` of purchases
  reversed while rejected. `LedgerRuns.OperationKeepsIntendedLawIff` says that the intended law survives an operation
  exactly when it is not such a reversal of a purchase with cashback; `LedgerRuns.ReversingRejectedOverdraws`
  gives the input.
- `app/feature_flags/repositories.py:168` compares a column with `is None`, which is always false, so the batch
  query never returns the global row that its docstring promises. `Flags.WrittenBatchAgreesIff` says exactly when
  this shows; `Flags.DisabledEverywhereIsMissed` gives the write after which it does.
- `app/purchases/repositories.py:95-99` calls the unlocked status update safe. A runner commits its settlement without
  reading the status again, after awaiting the verifier (`app/purchases/jobs/verify_purchases/_runner.py:82-116`).
  `SafeRuns.SettlementKeepsLawsIff` says that such a commit keeps the laws exactly when the purchase is still
  pending, and `SafeRuns.RunKeepsLedgerIff` the same of whole runs; `SafeRuns.RaceIsReachable` gives a run in which an
  admin's confirmation comes in between.
- `app/purchases/jobs/verify_purchases/_processor.py:8-10` has the event published immediately after the commit, but
  both are awaited, and a reversal that sees the committed status can be published first.
  `Publication.PublishedAgreesIff` says exactly when the published events agree with the stored status;
  `Publication.OvertakingIsReachable` gives a run in which they do not.
- `app/core/scheduler.py:109-114` starts a second loop of a task, and forgets the first, when `start` is called while
  one is alive: `Scheduler.StartKeepsOneLoopIff`, and `Scheduler.StartingAgainAddsLoops` from a new scheduler.
  `app/purchases/jobs/verify_purchases/_dispatcher.py:40-42` counts on the tracker to skip purchases in flight;
  `Overlap.KeepsTrackerIff` and `Overlap.KeepsLedgerIff` say that this, and the ledger law, need at most one loop.
- `app/cashback/calculator.py:36-38` multiplies in a 28-digit context. A percentage that prints with 17 digits can make
  a 29-digit product, which is then rounded twice. `Cashback.PercentageCashbackIsNearestIff` says exactly when the
  result is still the nearest cent; `Cashback.PercentageCashbackCanMissNearest` gives an input for which it is not.

## How to read the job's runs

Steps of `Protocol` are cut at the awaits that other tasks can observe: the snapshot query, the filter, the flag
query, the spawning; a runner's read, verdict, commit, sleep and publication. The flushed writes of one
transaction and its commit are one step, because nobody else sees them earlier. An admin operation is one step
from its read to its commit, and its publication is another. `ledger.log` lists the events of all commits in commit
order; `published` lists the events whose publication has completed, in the order in which it did; `outbox` holds
those in between. A publication that raises (`Fail` of a runner, `Mute` of an admin operation) is lost.

In an arbitrary run an admin operation may come between a runner's status check and its commit. A run is *clean* when
every runner that commits finds its purchase still pending, and exactly then the laws of the ledger hold at its end
(`SafeRuns.RunKeepsLedgerIff`). It is *safe* when no admin operation comes in between, and then it is clean; every run
of the job without admin operations is safe (`SafeRuns.JobOnlyRunIsSafe`). The tracker, drain, bound,
disabled-purchase and publication-order results hold for arbitrary runs; sequential order, single settlement and the
agreement of published events with statuses for clean ones.

## Model

| member | source | states |
|---|---|---|
| Cashback.RoundHalfEvenIsNearest | app/cashback/calculator.py:36-38 | the rounding used returns `q` if and only if `q` is an integer nearest to the quotient, the even one on a tie |
| Cashback.RoundHalfEvenMonotoneRational | app/cashback/calculator.py:36-38 | rounding is monotone in the rational value, for any two denominators |
| Cashback.ExactProduct | app/cashback/calculator.py:36 | `Numeric(12, 2)` amounts with percentages of at most 16 digits are in the exact domain: the 28-digit context does not round the product |
| Cashback.ContextRoundMonotone | app/cashback/calculator.py:36 | rounding to 28 significant digits keeps the order of any two products, whatever their lengths |
| Cashback.ContextRoundShifts | app/cashback/calculator.py:36 | the context rounds significant digits: scaling by a power of ten commutes with it |
| Cashback.PercentageCashbackIsNearest | app/cashback/calculator.py:36-38 | when the product has at most 28 digits the percentage cashback is the cent nearest to amount times percentage over 100, ties to even, and no other |
| Cashback.PercentageCashbackIsNearestIff | app/cashback/calculator.py:36-38 | for every percentage up to 100, of any number of digits, it is that cent if and only if the context did not turn the product into a half-cent whose even side is the wrong one |
| Cashback.PercentageCashbackCanMissNearest | app/cashback/calculator.py:36-38 | 16.115727272727273 percent of 9999999999.89 pays a cent more than the nearest |
| Cashback.PercentageErrorIsBounded | app/cashback/calculator.py:36-38 | for every percentage and amount the cashback is within half a cent, plus half a unit of the last digit the context keeps, of the exact value |
| Cashback.FixedCashbackIsNearest | app/cashback/calculator.py:27-29 | a fixed offer pays the cent nearest to its amount, whatever the purchase |
| Cashback.CashbackIsMonotone | app/cashback/calculator.py:36-38 | a larger amount or a higher percentage never pays less, for all amounts and percentages |
| Cashback.CashbackIsWithinAmount | app/offers/policies.py:17-26 | at up to 100 percent, of any number of digits, the cashback never exceeds the purchase amount |
| Cashback.SplittingError | app/cashback/calculator.py:36-38 | when the product for the total has at most 28 digits, splitting a purchase into n parts moves its cashback by at most (n + 1) / 2 cents, with equality only if n leaves remainder 3 modulo 4 |
| Cashback.SplittingErrorIsBounded | app/cashback/calculator.py:36-38 | for every percentage and amount it moves by at most (n + 1) / 2 times a cent plus one unit of the last digit the context keeps |
| Cashback.SplittingErrorIsAttained | app/cashback/calculator.py:36-38 | for every such n the bound is reached, by n purchases of one cent at 50 percent |
| Wallets.ApplyMovesBalance | app/wallets/repositories.py:65-120 | each statement moves its own user's columns by its delta; an UPDATE of a missing row does nothing; only a credit creates a row |
| Wallets.RunCountsFromFirstCredit | app/wallets/repositories.py:65-120 | after any sequence of statements a balance is the sum of the deltas from the user's first credit on |
| Wallets.BalanceIsDeltaSumIff | app/wallets/repositories.py:86-120 | the balance is the sum of all deltas exactly when those before the first credit cancel out |
| Wallets.CommitOrderIsIrrelevant | app/wallets/repositories.py:65-120 | two orders of the same statements that both start each user with a credit leave the same table |
| WalletHistory.WalletsFollowHistory | app/purchases/services.py:127-133 | the wallets of every run are those of its wallet statements alone, and these start each user with a credit |
| WalletHistory.CommitOrderOfRunsIsIrrelevant | app/wallets/repositories.py:86-120 | runs that commit the same wallet statements in any orders leave the same wallets |
| LedgerLaws.IngestKeepsBalance | app/purchases/services.py:127-133 | ingestion keeps every user's balance equal to what the purchases say |
| LedgerLaws.RowChangeBalance | app/purchases/services.py:252-267 | changing one purchase and its transaction keeps a user's balance if and only if each wallet column moves by the change of the row's own amounts |
| LedgerLaws.SettlementBalance | app/purchases/_helpers.py:47-55 | a confirmation or rejection, which does not look at the status again, keeps the balance exactly when the purchase is pending, has no cashback, or is another user's |
| LedgerLaws.ReversalKeepsBalance | app/purchases/services.py:252-265 | reversing a pending, confirmed or rejected purchase keeps the law with the claw-back term |
| LedgerLaws.WellFormedAppend | app/purchases/policies.py:62-71 | a well-formed history extended by an event stays well formed exactly when the event's operation passes its status policy: not reversed for a reversal, pending for a settlement |
| LedgerLaws.CommitKeepsThreeBooks | app/cashback/repositories.py:34-54 | every guarded commit keeps one transaction per purchase, with the same user, the amount until reversal, the expected status, and a wallet for the user |
| LedgerLaws.CommitKeepsExternalIds | app/purchases/services.py:80-89 | no two purchases ever share an external id |
| LedgerLaws.CommitKeepsOwnLog | app/purchases/services.py:269-279 | after each commit with its event, the purchase's events are well formed and fold to its stored status |
| LedgerLaws.CommitKeepsOtherLog | app/purchases/jobs/verify_purchases/_processor.py:49-59 | a commit leaves the history of every other purchase as it was |
| LedgerLaws.CommitKeepsSound | app/purchases/_helpers.py:28-57 | every operation that passes its guard keeps the ledger, three-books and external-id laws, whatever has become of earlier events |
| LedgerLaws.CommitKeepsConsistent | app/purchases/_helpers.py:28-57 | and, with its event, the event-log law |
| LedgerLaws.InitialIsConsistent | app/wallets/services.py:28-34 | the laws hold of empty tables, where a user without a row is shown zeros |
| LedgerLaws.RunKeepsConsistent | app/purchases/services.py:67-331 | all the laws hold after every run of ingestions, confirmations, rejections and reversals |
| LedgerLaws.RunKeepsSound | app/purchases/services.py:67-331 | the laws of the tables hold after every run even when events were lost before it |
| LedgerRuns.IntendedLawIff | app/purchases/services.py:255-263 | a user's wallet is exactly what the purchases say if and only if reversals of rejected purchases took nothing from it |
| LedgerRuns.IntendedLaw | app/purchases/exceptions.py:85-92 | with no purchase reversed while rejected the intended law holds, no balance is negative and the paid balance is zero |
| LedgerRuns.OperationKeepsIntendedLawIff | app/purchases/policies.py:62-65 | an operation keeps the intended law exactly when it does not reverse a rejected purchase that carries cashback |
| LedgerRuns.ReversingRejectedOverdraws | app/purchases/services.py:259-263 | ingest, reject, reverse leaves an available balance of minus the cashback |
| LedgerRuns.TransactionTotals | app/cashback/repositories.py:34-54 | per user, pending and available transaction amounts add up to the cashback of pending and confirmed purchases |
| WalletHistory.SettledOnce | app/purchases/jobs/verify_purchases/_processor.py:80-87 | over any run the wallet statements on a purchase take exactly its cashback from the pending balance, once, if the run settles it and it has any, and otherwise nothing |
| LedgerRuns.StatusesMoveForward | app/purchases/policies.py:62-71 | over any run nothing returns to pending and reversed is final |
| LedgerRuns.RepeatsChangeNothing | app/purchases/services.py:80-89 | inserting repeats of accepted external ids anywhere in a run leaves the final state identical |
| LedgerRuns.AcceptedAtMostOnce | app/purchases/services.py:80-89 | a run accepts an external id at most once, and once exactly when it becomes taken |
| LedgerRuns.TakenAfter | app/purchases/services.py:116-133 | an external id becomes taken exactly by accepting its ingestion |
| Operations.EuroInAnyCase | app/purchases/policies.py:46-49 | a currency is supported exactly when it is EUR in upper case |
| Operations.IngestionIsAcceptedIff | app/purchases/services.py:67-105 | an ingestion is accepted exactly when the caller is the user, the external id and keys are free, the currency is the euro, user and merchant are active and there is an offer |
| Operations.IngestionIsRefused | app/purchases/services.py:77-105 | every refusal of an ingestion has the error of its first failing check, in the service's order |
| Operations.ReversalIsAcceptedIff | app/purchases/policies.py:62-65 | a reversal is accepted exactly when the purchase exists and is not reversed, and each refusal has its error |
| Operations.SettlementIsAcceptedIff | app/purchases/policies.py:68-71 | a settlement is accepted exactly when the purchase exists and is pending, and each refusal has its error and status |
| Operations.RefusedChangesNothing | app/purchases/services.py:77-105 | a refused operation leaves the state as it was |
| Operations.IngestionStores | app/purchases/services.py:107-133 | an accepted ingestion stores the request's data, and one number, which is what the offer pays to the cent, as the purchase's cashback, the transaction's amount and the rise of the pending balance; nothing else changes |
| Operations.ConfirmationStores | app/purchases/_helpers.py:47-55 | a confirmation sets the status, and with cashback makes the transaction available and moves the amount from pending to available; nothing else changes |
| Operations.RejectionStores | app/purchases/jobs/verify_purchases/_processor.py:80-99 | a rejection sets the status, and with cashback reverses the transaction and takes the amount out of pending; nothing else changes |
| Operations.ReversalStores | app/purchases/services.py:249-279 | a reversal zeroes the purchase, reverses its transaction, takes the cashback out of pending for a pending purchase and out of available otherwise, and reports the prior status; nothing else changes |
| Store.Session.Execute | app/purchases/repositories.py:71-73 | a statement goes through while the connection lasts, and otherwise raises and changes nothing |
| Store.Session.Publish | app/core/broker.py:77-80 | subscribers handle the event in order up to the first that raises, whose exception comes back to the publisher; the event counts as published when none raises |
| Store.Session.Commit | app/core/unit_of_work.py:45-47 | all flushed changes become visible together, or none does |
| Store.GetById | app/purchases/repositories.py:71-73 | the row with that id in the session's view, or none |
| Store.GetByExternalId | app/purchases/repositories.py:63-69 | a row if and only if the external id is taken |
| Store.AddPurchase | app/purchases/repositories.py:75-82 | inserts and flushes the row; a taken primary key or external id raises and changes nothing |
| Store.UpdateStatus | app/purchases/repositories.py:92-116 | sets the status and returns the row as it is afterwards; nothing for a missing row |
| Store.ReversePurchaseRow | app/purchases/repositories.py:151-162 | sets the status to reversed and the cashback to zero |
| Store.CreateTransaction | app/cashback/repositories.py:34-44 | inserts a pending transaction; a second one for the purchase raises and changes nothing |
| Store.UpdateTransactionStatus | app/cashback/repositories.py:46-54 | sets the status of the purchase's transaction, if it has one |
| Store.CreditPending | app/wallets/repositories.py:65-84 | creates the wallet row or adds to its pending balance |
| Store.ConfirmPending | app/wallets/repositories.py:86-98 | moves the amount from pending to available, if the row exists |
| Store.ReversePending | app/wallets/repositories.py:100-109 | takes the amount from pending, if the row exists |
| Store.ReverseAvailable | app/wallets/repositories.py:111-120 | takes the amount from available, if the row exists |
| Services.CommitAndPublish | app/purchases/jobs/verify_purchases/_processor.py:47-59 | commits all of the operation and publishes its event, or commits nothing, or commits and raises because a subscriber did |
| Services.LookUpOffer | app/purchases/services.py:91-105 | the currency, user, merchant and offer policies in order, each raising its own error |
| Services.IngestPurchase | app/purchases/services.py:67-139 | takes effect whole with its guard passed, or raises its guard's error or a lost connection and leaves everything committed unchanged; keeps the laws either way |
| Services.ReversePurchase | app/purchases/services.py:238-286 | the same for a reversal, whose event carries the prior status; when a subscriber raises, the reversal stays committed, the event is missing and the tables are still sound |
| Services.ApplyPurchaseConfirmation | app/purchases/_helpers.py:28-57 | flushes the confirmation's three writes, or only the status without cashback; commits nothing |
| Services.ConfirmPurchaseManually | app/purchases/services.py:288-331 | the same contract for an admin's confirmation |
| Services.ConfirmPurchase | app/purchases/jobs/verify_purchases/_processor.py:28-64 | writes over whatever status the row has and publishes, or loses its connection and commits nothing, or commits and raises because a subscriber did |
| Services.RejectPurchase | app/purchases/jobs/verify_purchases/_processor.py:67-104 | the same for a rejection |
| Flags.GetIsTheRow | app/feature_flags/repositories.py:69-82 | a lookup finds a row exactly when there is one, and under the unique index it is that row |
| Flags.LookupDecides | app/feature_flags/services.py:54-81 | a single lookup gives the value of the user's or merchant's own row, else of the global row without an id, else enabled |
| Flags.GetMultiple | app/feature_flags/repositories.py:140-178 | the query returns exactly the selected rows, as written or as documented |
| Flags.EvaluateScopes | app/feature_flags/services.py:95-148 | the two loops give every requested scope, and no other, its resolution over the fetched rows |
| Flags.BatchResolves | app/feature_flags/services.py:130-146 | for specific scopes the batch result is the scope's own row, else the global row if the query fetched it, else enabled |
| Flags.DocumentedBatchAgrees | app/feature_flags/repositories.py:52-64 | over the documented query the batch evaluator equals the single lookup at every scope |
| Flags.WrittenBatchAgreesIff | app/feature_flags/repositories.py:164-170 | over the query as written they agree on all scopes exactly when there is no global row, or it is enabled, or every scope has its own row |
| Flags.DisabledEverywhereIsMissed | app/feature_flags/repositories.py:164-170 | after one write that disables a flag globally, single lookups say disabled and the batch evaluator says enabled for every user and merchant |
| Flags.FlagStore.SetFlag | app/feature_flags/services.py:17-52 | refuses a missing scope id and changes nothing; otherwise updates or adds the one row and keeps rows unique |
| Flags.SetKeepsUnique | app/feature_flags/models.py:31-43 | a write never makes two rows with the same key, scope type and scope id |
| Flags.SetGets | app/feature_flags/services.py:28-45 | a write changes its own row, keeping the description when none is given, and no other |
| Flags.WriteStores | app/feature_flags/services.py:28-45 | after a write the table holds the named row with the value given, and the description given or else the old one, and every other row as before |
| Flags.WriteFrames | app/feature_flags/services.py:54-81 | a write changes resolution only at its own scope or, for the global row without id, where no own row decides |
| Flags.WritesCommute | app/feature_flags/services.py:17-52 | writes to different rows give the same rows and resolutions in either order |
| Flags.LastWriteWins | app/feature_flags/services.py:32-45 | over any sequence of writes rows stay unique and each holds the last value written to it |
| Eligibility.EvaluateAll | app/purchases/clients/feature_flags.py:62-72 | one batch evaluation has every key that the filter will look up, with the value of the scope's own row |
| Eligibility.EligibleUnlessSwitchedOff | app/purchases/clients/feature_flags.py:62-83 | a purchase is eligible exactly when no row for `purchase_auto_confirm` of its own user or of its own merchant is disabled |
| Eligibility.EligibleInOrder | app/purchases/clients/feature_flags.py:75-88 | the eligible list consists of exactly those purchases, in the order given |
| Eligibility.FilterEligiblePurchases | app/purchases/clients/feature_flags.py:52-100 | the filter returns that list, and the counts add up |
| Eligibility.EligibleDespiteLookupsIff | app/purchases/clients/feature_flags.py:68-86 | an eligible purchase is disabled by single lookups exactly when the global row is disabled and an own row is missing |
| ProtocolLaws.StepKeepsTrackerLaw | app/purchases/jobs/verify_purchases/_dispatcher.py:64-80 | each step keeps the tracker a bijection between live runners and their purchases |
| ProtocolLaws.RunKeepsTrackerLaw | app/purchases/jobs/verify_purchases/_in_flight_tracker.py:37-58 | in every interleaving the tracked purchases are exactly those with a live runner, although the snapshot may be stale |
| ProtocolLaws.OneRunnerPerPurchase | app/purchases/jobs/verify_purchases/_dispatcher.py:40-42 | no purchase has two live runners |
| ProtocolLaws.StepKeepsTickLaw | app/purchases/jobs/verify_purchases/_dispatcher.py:50-80 | what a tick holds after filtering stays untracked until it spawns |
| ProtocolLaws.RunKeepsJobLaw | app/purchases/jobs/verify_purchases/_runner.py:77-151 | every task ever spawned is live, died of an exception, or has left its purchase settled, in every interleaving |
| ProtocolLaws.EveryRunKeepsJobLaw | app/purchases/jobs/verify_purchases/_task.py:56-83 | from startup on, all the laws of the job hold in every interleaving |
| ProtocolLaws.TickCovers | app/purchases/jobs/verify_purchases/_dispatcher.py:50-80 | by the end of a tick every purchase of its snapshot that is not found disabled has a task, from before or from this tick |
| ProtocolLaws.Drain | app/purchases/jobs/verify_purchases/_dispatcher.py:64-80 | every purchase of a tick's snapshot that is not found disabled, skipped as in flight or not, is not pending once its own tasks, live during the tick or spawned by it, have ended without an exception |
| ProtocolLaws.StepsSpendPotential | app/purchases/jobs/verify_purchases/_runner.py:78-149 | every own step of a runner lowers its measure and no other step raises it |
| ProtocolLaws.TaskStepsAreBounded | app/purchases/jobs/verify_purchases/_runner.py:78-149 | in any run a runner takes at most three steps per attempt plus three |
| SafeRuns.JobOnlyRunIsSafe | app/purchases/jobs/verify_purchases/_runner.py:79-116 | runs without admin operations are safe |
| SafeRuns.SafeRunIsClean | app/purchases/jobs/verify_purchases/_runner.py:82-116 | in a safe run every runner that commits finds its purchase still pending: the run is clean |
| SafeRuns.RunKeepsLedgerIff | app/purchases/jobs/verify_purchases/_runner.py:82-116 | in every interleaving, with admin operations at any point, all the laws of the ledger hold at the end if and only if the run was clean |
| SafeRuns.SafeRunKeepsLedger | app/purchases/jobs/verify_purchases/_runner.py:82-116 | every safe interleaving keeps all the laws of the ledger at every point, the log being that of the commits |
| SafeRuns.CleanRunIsSequential | app/purchases/jobs/verify_purchases/_runner.py:82-116 | every clean interleaving leaves the ledger that its operations leave when each is run whole, in commit order |
| SafeRuns.CleanRunSettlesOnce | app/purchases/jobs/verify_purchases/_runner.py:92-116 | over every clean run from startup the wallet statements on a purchase take exactly its cashback from the pending balance, once, if it is settled and has any, and otherwise nothing |
| SafeRuns.SettlementKeepsLawsIff | app/purchases/jobs/verify_purchases/_runner.py:82-116 | a runner's commit keeps the ledger law exactly when the purchase is still pending or has no cashback, and all laws exactly when it is still pending |
| SafeRuns.RaceBreaksLedgerLaw | app/purchases/repositories.py:95-106 | an admin's confirmation between a runner's check and its commit breaks the ledger law for every purchase with cashback |
| SafeRuns.RaceIsReachable | app/purchases/jobs/verify_purchases/_runner.py:90-101 | a concrete run from startup reaches that race |
| Publication.StepMovesEvents | app/purchases/jobs/verify_purchases/_processor.py:47-59 | each step commits an event, completes a publication, loses one, or touches no list of events |
| Publication.RunKeepsOrderIff | app/purchases/jobs/verify_purchases/_processor.py:47-59 | in every interleaving a purchase's events are published in commit order with none lost if and only if each publication is of its oldest unpublished event and none raises; after any other step they stay garbled |
| Publication.PublishedAgreesIff | app/purchases/services.py:267-279 | after every clean run that leaves nothing of a purchase's to publish, the published events are well formed and fold to the stored status if and only if every publication was in commit order and none was lost |
| Publication.PromptRunIsOrderly | app/purchases/services.py:311-324 | it suffices that nothing commits on the purchase while one of its events is being published, and that none raises |
| Publication.OvertakingIsReachable | app/purchases/jobs/verify_purchases/_processor.py:47-59 | in a concrete safe run a reversal is published before the confirmation it reverses, and the published events fold to confirmed |
| ProtocolLaws.DisabledIsLeftAlone | app/purchases/jobs/verify_purchases/_dispatcher.py:73-80 | a purchase not yet picked up, that a disabled `purchase_auto_confirm` row of its user or of its merchant switches off for good, never gets a runner and is never settled by the job, in any interleaving |
| Job.InFlightTracker.Add | app/purchases/jobs/verify_purchases/_in_flight_tracker.py:48-49 | tracks the purchase under the task given |
| Job.InFlightTracker.Discard | app/purchases/jobs/verify_purchases/_in_flight_tracker.py:51-52 | stops tracking the purchase; no effect when it is not tracked |
| Job.GetPendingPurchases | app/purchases/repositories.py:84-90 | lists every pending purchase exactly once, oldest first |
| Protocol.UntrackedInOrder | app/purchases/jobs/verify_purchases/_dispatcher.py:64 | the purchases kept are exactly the untracked ones, in the order given |
| Job.FilterUntracked | app/purchases/jobs/verify_purchases/_dispatcher.py:64 | keeps the untracked purchases, in order |
| Job.SpawnTasks | app/purchases/jobs/verify_purchases/_dispatcher.py:79-80 | every eligible purchase is tracked under its own new task and nothing else changes |
| Job.TickTracks | app/purchases/jobs/verify_purchases/_dispatcher.py:50-80 | what a tick adds to the tracker are exactly the pending purchases that neither their user nor their merchant has switched off |
| Job.DispatchPendingPurchases | app/purchases/jobs/verify_purchases/_dispatcher.py:30-99 | a tick tracks a new task for exactly the pending, untracked, not switched off purchases, or loses a connection and leaves the tracker unchanged |
| Job.StopIsFirstDecision | app/purchases/jobs/verify_purchases/_runner.py:78-116 | the read at which a runner stops is the only one that everything before leads on to and that does not itself lead on |
| Job.QuietRunner | app/purchases/jobs/verify_purchases/_runner.py:78-149 | undisturbed, a runner of n attempts settles by the first decisive verdict, number j, with j + 1 calls and j sleeps; after n soft failures it rejects with n calls and n - 1 sleeps; a purchase that is not pending it leaves alone |
| Job.RunnerIsBounded | app/purchases/jobs/verify_purchases/_runner.py:118-128 | at most `max_attempts` verifier calls and one sleep fewer, none when there are no attempts |
| Job.Attempts | app/purchases/jobs/verify_purchases/_runner.py:78-149 | whatever others commit before each read and between a read and the commit, the loop ends in the state, calls and sleeps of the first decision; or its connection or verifier raises and it has committed nothing of its own; or a subscriber raises after its settlement |
| Job.RunVerificationWithRetry | app/purchases/jobs/verify_purchases/_runner.py:48-151 | the same, always discarding the purchase from the tracker; undisturbed it settles by the first decisive verdict; a run that returns leaves all the laws exactly when nobody settled the purchase between its last read and its commit; it never raises when connections, verifier and subscribers do not |
| Job.OutcomeIsConsistentIff | app/purchases/jobs/verify_purchases/_runner.py:82-116 | what a runner that stops leaves satisfies all the laws if and only if it was not overtaken between its read and its commit |
| Job.OutcomeIsSound | app/purchases/jobs/verify_purchases/_runner.py:130-151 | unless it was overtaken a runner leaves sound tables, even when its own event was lost |
| Job.DeadRunnerKeepsLaws | app/purchases/jobs/verify_purchases/_runner.py:150-151 | a runner that dies before its commit leaves what the others did, and all their laws |
| Refinement.RunnerRefinesCode | app/purchases/jobs/verify_purchases/_task.py:58-74 | a spawned runner of the machine, with whole transactions of others before its reads and before its commit, can run to exactly the outcome of the retry loop, with every event published, leaving the tracker |
| Refinement.TickRefinesCode | app/purchases/jobs/verify_purchases/_task.py:76-83 | an uninterrupted tick of the machine leaves the tracker that the dispatcher's code leaves |
| Scheduler.ScheduleCancelStopKeepOneLoop | app/core/scheduler.py:94-119 | scheduling, cancelling, stopping and a loop's death keep at most one live loop per name; stopping leaves none |
| Scheduler.ScheduleRegisters | app/core/scheduler.py:94-100 | the name is registered with the task and interval; nothing else changes |
| Scheduler.CancelUnregisters | app/core/scheduler.py:102-107 | the name is no longer registered and its remembered loop has ended; nothing else changes |
| Scheduler.CancelledIsNotStarted | app/core/scheduler.py:102-114 | a cancelled task is run by no later start |
| Scheduler.StopEndsLoops | app/core/scheduler.py:116-119 | exactly the remembered loops end; the tasks stay registered |
| Scheduler.StartAddsLoops | app/core/scheduler.py:109-114 | exactly one new loop per registered name; none ends |
| Scheduler.StartRemembers | app/core/scheduler.py:110-114 | the new loop of each name is the one remembered |
| Scheduler.OneLoopEachHasNoTwo | app/core/scheduler.py:90-92 | a scheduler that remembers every live loop has at most one per name |
| Scheduler.StartKeepsOneLoopIff | app/core/scheduler.py:109-114 | starting leaves at most one live loop per name exactly when no registered name has one already |
| Scheduler.StartingAgainAddsLoops | app/core/scheduler.py:109-114 | a new scheduler with one task has exactly as many live loops of it as `start` was called |
| Scheduler.InMemoryTaskScheduler.Schedule | app/core/scheduler.py:94-100 | registers or replaces the named task and starts nothing |
| Scheduler.InMemoryTaskScheduler.Cancel | app/core/scheduler.py:102-107 | unregisters the name and ends its remembered loop; an unknown name raises and changes nothing |
| Scheduler.InMemoryTaskScheduler.Start | app/core/scheduler.py:109-114 | starts one new loop per registered name |
| Scheduler.InMemoryTaskScheduler.Stop | app/core/scheduler.py:116-119 | ends every remembered loop and forgets them |
| Overlap.OneLoopIsTheMachine | app/core/scheduler.py:121-128 | with one loop, which awaits a tick before the next, the job is the single-dispatcher machine |
| Overlap.TwoLoopsBreakLedgerLaw | app/purchases/jobs/verify_purchases/_task.py:56-83 | with two loops over one tracker some run settles a purchase twice and breaks the ledger law, without any admin operation |
| Overlap.KeepsTrackerIff | app/purchases/jobs/verify_purchases/_dispatcher.py:40-42 | no run without admin operations gives a purchase two runners exactly when at most one loop runs the task, whatever the number of attempts |
| Overlap.KeepsLedgerIff | app/purchases/jobs/verify_purchases/_dispatcher.py:40-42 | no run without admin operations breaks the ledger law exactly when at most one loop runs the task |
| Overlap.StartingTheJobAgain | app/main.py:24-37 | a job whose scheduler was started any number of times keeps either law exactly when that number is at most one |
| Tokens.ApplyKeepsLaw | app/auth/services.py:79-115 | each login or refresh keeps the records, places, chains and acceptance laws |
| Tokens.RefreshKeepsChains | app/auth/services.py:96-113 | rotation extends the token's own chain, of one user, whose last token alone is unused |
| Tokens.RefreshKeepsAccepted | app/auth/policies.py:84-99 | a token is used exactly when it was accepted, and none is accepted twice |
| Tokens.RefreshKeepsRecords | app/auth/repositories.py:73-83 | the rotation count is one exactly for used tokens |
| Tokens.RunKeepsLaws | app/auth/services.py:31-132 | after every sequence of logins and refreshes the token laws hold, each user has one unused token per login and one used token per successful refresh |
| Tokens.EveryRunKeepsLaws | app/auth/services.py:31-132 | in particular from the empty table on |
| Tokens.AcceptedIsRefused | app/auth/policies.py:84-99 | an accepted token is refused after any further run, as already used while neither expiry has passed, and changes nothing |
| Tokens.OnlyLastOfChainIsExchangeable | app/auth/services.py:91-113 | of a login's chain exactly the last token can be exchanged, until its signed or stored expiry, while its user exists and the new token is new, and doing so extends that chain |
| Tokens.LoginStores | app/auth/services.py:31-60 | a login stores one token exactly when the user exists, the password is right and the token is new; otherwise it raises UserNotFound, WrongPassword or a collision, in that order, and changes nothing |
| Tokens.RefreshStores | app/auth/services.py:79-132 | a refresh marks the token and stores one more exactly when the token is signed, stored, unexpired and unused, its user exists and the new token is new; a used one is refused as such, anything else as invalid, and nothing changes |
| Tokens.RunCountsCorrect | app/auth/services.py:31-132 | over any run the logins and acceptances of a user on record number exactly the correct logins and refreshes |
| Tokens.TokensAreEarned | app/auth/services.py:31-132 | from the empty table a user has one unused token per correct login and one used token per correct refresh |
| Tokens.StoredExpiryDecides | app/auth/services.py:152-162 | when the clock does not run backwards within an operation, a token that its stored expiry still admits is never refused as expired when decoded |
| Tokens.AuthService.CreateRefreshTokenRecord | app/auth/services.py:134-164 | adds an unused record under the new token to the working copy, unless its hash is stored already |
| Tokens.AuthService.LogIn | app/auth/services.py:31-60 | returns the new token with the chain it heads, or raises and commits nothing |
| Tokens.AuthService.Exchange | app/auth/services.py:62-132 | rotates the token, or raises the first failing policy's error and commits nothing although the mark was flushed |

## Left out

- Routers, schemas, error builders, logging, configuration, health checks and composition roots.
- SQLAlchemy and PostgreSQL: tables are maps, a session is a working copy; row locks, isolation anomalies inside one transaction, foreign keys and `Numeric(12, 2)` overflow are not modelled.
- Purchase columns that no operation reads back (`offer_id`, `currency`).
- Store.Session.Execute: stands for any statement awaited on a session; a failed session's working copy is dropped, and the unit of work's own rollback, which nothing calls, is not modelled.
- Event fields other than the purchase and a reversal's prior status; what subscribers do with an event: they handle it, or raise, and then it counts as lost even if earlier ones have handled it.
- The bank verifier: an arbitrary verdict, or exception, per attempt. An exception in a runner or a tick is the step `Fail` or `FailTick` of the machine.
- Cancellation of tasks at shutdown, and wall-clock time of sleeps.
- The calculator's exception for results of more than 28 digits, which `Numeric(12, 2)` amounts cannot reach.
- JWT encoding, SHA-256 and password hashing: a presented token is either one that the service signed or forged, and hashes are injective. Two requests refreshing the same token at once are not modelled.
- Access tokens, users, merchants and offer management; listing and pagination.
- The scheduler's endless `_run_loop`: a loop is an entry among the live loops; that it awaits one tick before the next is built into each dispatcher of the machine.
