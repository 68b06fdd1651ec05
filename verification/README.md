# Nodeva: a verified model of the marketplace core

Nodeva is a marketplace for GPU time. Every node owns its slots in a local ledger, and the platform
owns the money in its database. This project models the code in which the two must agree, or in
which the platform must agree with itself, and proves what that code keeps.

| files | what they model |
|---|---|
| `NodeLedger` | the node's reservation store: lock, commit, release, lazy expiry |
| `Machine`, `Receipts` | the platform's row lifecycle and the admission of signed receipts |
| `Protocol`, `ProtocolSafety`, `ProtocolQuiet`, `ProtocolRows`, `ProtocolExamples` | reservation as a step system: booking, commit-then-capture, expiry sweep and reconciler against one node, over a lossy FIFO connection with crashes, timeouts and late replies |
| `Settle`, `Books` | quote, split and metered charge; capture and settlement in the double-entry ledger |
| `Verification`, `Disputes`, `DisputeExamples` | duplicate execution, disputes, tiebreaks, and the reputation counters they move |
| `Refunds`, `RefundTasks`, `RefundExamples` | refund retries: whole sweeps, and handlers that interleave at every await |
| `Availability`, `Catalogue`, `Ranking`, `Storefront` | free time, search and catalogue over it, the ranking, and what search may offer of a node in the protocol |
| `HubCalls`, `HubPresence` | request correlation with timers; presence and the heartbeat sweep |
| `ClusterRelay`, `ClusterRelayExamples` | presence across backend instances, over publish/subscribe |
| `CanonicalText`, `Canonical` | the bytes that signatures are over, in JavaScript and in Python |
| `RateLimit` | the fixed-window limiter and its sweep |

Code that updates state in place (`reservations.py`, the ledger transactions, `hub.js`,
`clusterRelay.js`, `refunds.js`, `rateLimit.js`, dispute settlement) is a class in a module named
`...Impl`, beside a module that gives each operation as a function on values. Every method of the
class is proved to compute its function; the properties of whole runs are proved of the functions.
A loop of the source is a loop here (`Availability.FreePieces`, the grouping loops of `Catalogue`).
Randomness, clocks, the verdict of a signature check, the answers of the payment gateway and the
order in which things happen are parameters of the steps, so a theorem about all runs covers every
choice of them.

## Hypotheses that the code leaves to timing

The protocol theorems name conditions that the code does not check.

- *Matched*: a reply resolves a call that expects its type. The Hub matches replies by id alone.
- *Timely*: a confirm sends no commit after the reconciler has asked about its reservation or has
  closed it, does not expire a row that is captured, and does not capture for an expired row that the
  reconciler has set out to reclaim. No UPDATE of `commitNodeAndCapture` rechecks the status.
- *Guarded*: a confirm finds its row still held both when it sends its commit and when it writes. The
  platform can check this by itself, and where replies match it implies *Timely*
  (`ProtocolSafety.GuardedRunIsTimely`).
- *Quiet*: at most one conversation for each reservation id. It implies *Matched*
  (`ProtocolQuiet.QuietImpliesMatched`).

*Matched* and *Timely* are exact: a step keeps platform and node in agreement if and only if it meets
both (`ProtocolSafety.StepKeepsAgreementExactly`). `ProtocolExamples` has a run from the start that goes
wrong for *Matched* and for each of the three parts of *Timely*.

For the cluster relay the hypotheses are: a node connects to an instance only when no other instance
holds it or still has news of it to publish, and no publish is lost. The first is exact
(`ClusterRelay.ConnectsExactly`). `ClusterRelayExamples` breaks each part of them, in runs from an
empty cluster.

Refunds need more: `RefundTasks.Clean` says step by step what keeps a payment from being refunded
twice, `StepKeepsOnceExactly` proves it necessary and sufficient, and `RefundExamples` has, for each
of its parts, a run from the start that breaks only that part and pays twice.

## What the proofs found

- With a replied-to confirm overtaken by the expiry sweep and the reconciler, money can be captured
  for a slot that the node has released and granted again (`UnguardedCaptureLosesTheSlot`).
- Of two confirms of one held row, one that fails can expire the row that the other has captured; the
  reconciler then makes the node release the paid slot (`FailedConfirmExpiresACapturedRow`).
- A confirm that sends its commit after the reconciler has found a mere hold and stamped the row
  leaves the node confirmed for a row that nobody looks at again (`LateCommitSquatsAStampedSlot`).
- A late COMMITTED can answer the reconciler's status query and make it stamp a row whose slot the
  node keeps confirmed (`LateAckStampsASquattedSlot`).
- A metered charge of one paisa cannot be settled: the provider's share is a zero entry, which the
  database's CHECK rejects (`SettlementGoesThrough`).
- A payment can be refunded twice without being issued twice: when the mark on it fails, when the
  gateway's reply is lost, when the process stops in between, or when a sweep starts before the last
  one has ended; and also when its refund is issued again while a retry is pending (`RefundExamples`).
- A result that arrives after a dispute overwrites the hash it was disputed for. If it repeats the
  opponent's hash, a tiebreaker that would have decided is recorded as inconclusive
  (`LateResultHidesTheMajority`); no other delivery can do this (`StandsExactly`).
- Two backend instances that start together can miss each other's nodes for good: the snapshot
  request of one is published before the other has subscribed (`ConcurrentStartIsMissed`).
- Two calls outstanding under one id can lose a reply that did arrive (`ReusedIdLosesTheReply`).
- The two canonical encoders differ on index-like keys and beyond the Basic Multilingual Plane;
  `EncodersAgreeExactly` gives the exact condition.
- The sliding-window bound of the limiter is 2*max - 1, and is reached. Its sweep shows if and only if
  a request reads a time before the end of a bucket of its key that a sweep has removed
  (`SweepIsInvisibleExactly`), which takes a clock that goes back.
- To the millisecond, booking a window in two parts can be cheaper than booking it whole, exactly
  when the parts are billed fewer minutes (`SplittingIsNeverCheaper`).
- The catalogue also lists nodes for time that has already passed; `ListingIsRight` says exactly when.

Where code and documentation differ the model follows the code: `docs/reservation-protocol.md:27-30`
draws the capture before RESERVE_COMMIT, while the code commits on the node first and captures
after; the comment on the catalogue query speaks of windows that have not ended, while the query
also keeps the one that ends now.

## Model

| member | source | states |
|---|---|---|
| `NodeLedger.RunKeepsValid` | worker/nodeva_worker/reservations.py:92-197 | over every sequence of calls, whatever the clock reads, the windows of live reservations are pairwise disjoint |
| `NodeLedger.RunMovesForward` | worker/nodeva_worker/reservations.py:92-197 | no entry is lost or changes window or price, and statuses only move held to confirmed to released, or held to released |
| `NodeLedger.TryLockExact` | worker/nodeva_worker/reservations.py:100-151 | a lock is granted if and only if the window is positive, the id is new and no live, unlapsed entry overlaps; every refusal leaves the table as it was |
| `NodeLedger.CommittedIsKept` | worker/nodeva_worker/reservations.py:92-181 | a committed entry survives every run without an explicit release of it |
| `NodeLedger.CommittedSlotIsExclusive` | worker/nodeva_worker/reservations.py:100-181 | a window overlapping a committed one is granted again only after an explicit release |
| `NodeLedger.HoldIsHonoured` | worker/nodeva_worker/reservations.py:153-176 | a hold survives every run before its expiry that does not release it, and a commit made in time succeeds |
| `NodeLedger.ConfirmedOnlyInTime` | worker/nodeva_worker/reservations.py:153-176 | whatever the clock reads, a hold is confirmed only by a commit made before its end; a later one answers false, and a released entry is never confirmed again |
| `NodeLedger.ConfirmedWithinTheHold` | worker/nodeva_worker/reservations.py:100-176 | every confirmed entry was granted, and then committed before the end of the hold that the grant gave it |
| `ReservationStoreImpl.ReservationStore.ExpireStaleInPlace` | worker/nodeva_worker/reservations.py:92-98 | the lazy sweep releases exactly the lapsed holds |
| `ReservationStoreImpl.ReservationStore.TryLock` | worker/nodeva_worker/reservations.py:100-151 | the transaction computes the specified table and outcome, with rollback on every refusal |
| `ReservationStoreImpl.ReservationStore.Commit` | worker/nodeva_worker/reservations.py:153-176 | commit confirms a live hold, or answers false; repeated commits agree |
| `ReservationStoreImpl.ReservationStore.Release` | worker/nodeva_worker/reservations.py:178-181 | release frees the entry and touches no other |
| `ReservationStoreImpl.ReservationStore.StatusOf` | worker/nodeva_worker/reservations.py:183-187 | reports the stored status and changes nothing |
| `ReservationStoreImpl.ReservationStore.LiveCount` | worker/nodeva_worker/reservations.py:189-197 | sweeps lapsed holds and counts exactly the live entries |
| `Machine.MoneyOnlyThroughConfirmed` | backend/src/reservations/machine.js:34-82 | a settlement is laid down for exactly the terminal states, in full for completed only, metered for a user's failure only, by policy for a cancellation only, and a full refund otherwise; captured states are reached only through confirmed, entered only from held |
| `Machine.ExcludedExactly` | backend/migrations/001_init.sql:129-132 | the exclusion constraint guards exactly the rows on hold and those whose money is captured and not settled, or settled in full |
| `Receipts.AdmittedReceiptIsHonoured` | backend/src/lib/verify.js:28-49 | an admitted receipt is worth the booking: while the granting node's clock is before the end of the hold and nobody releases it, a commit leaves the very window the platform asked for confirmed, at no more than the agreed price |
| `Receipts.GrantedReceiptAdmitted` | backend/src/lib/verify.js:28-49 | the receipt a node grants for the request it was sent is admitted exactly if the price was not raised and the hold has not run out |
| `ProtocolSafety.CapturedWasCommitted` | backend/src/api/server.js:1619-1662 | in every run with matching replies, a row with captured money has a node entry of the same window whose commit returned true, still confirmed unless explicitly released |
| `ProtocolSafety.StepKeepsAgreementExactly` | backend/src/api/server.js:1619-1662 | in a state in which platform and node agree, a step keeps them in agreement if and only if the reply it delivers matches its await and the confirm it moves is timely |
| `ProtocolSafety.CapturedIsReserved` | backend/src/api/server.js:1619-1662 | with timely confirms too, captured rows are exactly those whose status says so, and each is confirmed on the node for its window |
| `ProtocolSafety.GuardedRunIsTimely` | backend/src/api/server.js:1619-1662 | in every run with matching replies, confirms that find their row held whenever they send or write are timely |
| `ProtocolSafety.CapturedNeverOverlap` | worker/nodeva_worker/link.py:253-305 | two captured rows of one node never overlap, by the node's ledger alone |
| `ProtocolSafety.StampedSlotIsFree` | backend/src/reservations/reconciler.js:61-99 | once the reconciler stamps a row its id is never confirmed on the node again, and after its hold it blocks no fresh lock |
| `ProtocolRows.RowsNeverOverlap` | backend/migrations/001_init.sql:129-132 | over every run at all, no two rows of a node whose time is in use overlap |
| `ProtocolRows.RequestIsAnsweredExactly` | worker/nodeva_worker/link.py:253-305 | a request is answered with a receipt for a free window under a new id, refused for any other window, and ends the connection for a free window under a used id |
| `ProtocolRows.SweptIsLapsed` | backend/src/reservations/reconciler.js:22-39 | while the platform's clock is at most half a second ahead, it expires only holds that the node would not honour either |
| `Storefront.OfferedIsNotPaidFor` | backend/src/marketplace/nodeStore.js:108-178 | with matching replies and timely confirms, a window that search offers overlaps no slot that the node has confirmed for money the platform keeps |
| `ProtocolQuiet.QuietImpliesMatched` | backend/src/ws/hub.js:188-195 | one conversation for each id makes every reply resolve a call of its own type, although the Hub checks ids only |
| `ProtocolQuiet.QuietCapturedIsReserved` | backend/src/api/server.js:1619-1662 | captured implies confirmed on the node, from one conversation per id and timely confirms |
| `ProtocolQuiet.PlatformCanEnforceIt` | backend/src/api/server.js:1619-1662 | an idle id before each send and a held row before each act of a confirm, which the platform can check by itself, give matching replies and timely confirms in every run |
| `ProtocolExamples.UnguardedCaptureLosesTheSlot` | backend/src/api/server.js:1651-1653 | a run with unguarded writes ends with money captured for a slot the node has granted to somebody else |
| `ProtocolExamples.FailedConfirmExpiresACapturedRow` | backend/src/api/server.js:1627-1632 | a run in which a second, failing confirm expires a captured row, and the reconciler then frees the paid slot |
| `ProtocolExamples.LateCommitSquatsAStampedSlot` | backend/src/api/server.js:1619-1621 | a run in which a commit sent after the stamp confirms the slot of an expired, reconciled row |
| `ProtocolExamples.LateAckStampsASquattedSlot` | backend/src/ws/hub.js:188-195 | a run in which a late acknowledgment answers a status query and a confirmed slot is stamped as reconciled |
| `Settle.SplitIsExact` | backend/src/payments/settle.js:11-21 | the split loses nothing and the provider's share is the floor of its exact fraction |
| `Settle.SecondsAreNearest` | backend/src/payments/settle.js:23-30 | milliseconds round to the nearest second, half a second up |
| `Settle.QuoteExactly` | backend/src/payments/settle.js:23-30 | a window has a quote exactly if it rounds to a second or more: begun minutes, at a sixtieth of the hourly price, rounded up to the paisa |
| `Settle.QuoteMonotone` | backend/src/payments/settle.js:23-30 | a longer window never costs less, to the millisecond |
| `Settle.SplittingIsNeverCheaper` | backend/src/payments/settle.js:23-30 | a split is never cheaper, whatever the price, if and only if its parts are billed at least the minutes of the whole |
| `Settle.WholeSecondCutsAreNeverCheaper` | backend/src/payments/settle.js:23-30 | quotes are subadditive at whole-second cuts |
| `Settle.MillisecondSplitCanBeCheaper` | backend/src/payments/settle.js:23-30 | a millisecond cut that breaks it, and is cheaper |
| `Settle.MeteredChargeBounds` | backend/src/payments/settle.js:36-45 | the metered charge is monotone in compute time, at least the minimum, at most the quote, and equal to it once compute reaches the booked seconds |
| `Settle.MeteredIsTheQuoteOfWhatRan` | backend/src/payments/settle.js:36-45 | it is the quote of a window as long as the compute, of at least five minutes, capped by the original quote |
| `Settle.SearchAgreesOnWholeMinutes` | backend/src/marketplace/scheduler.js:113-122 | search shows exactly the booking quote on whole-minute windows |
| `Settle.SearchGapOnWholeSeconds` | backend/src/marketplace/scheduler.js:113-122 | on whole-second windows search never shows more, and less by under price*59/3600 + 1 paise |
| `Books.RunSound` | backend/src/api/server.js:1636-1733 | over every run, orderly or not, each transaction sums to zero, each reservation has at most one capture and one settlement, and a settlement splits the whole quote into provider, platform and refund with 0 <= refund <= quote |
| `Books.StepKeepsBooksExactly` | backend/src/api/server.js:1636-1733 | a step keeps statuses truthful and escrow equal to open quotes if and only if it is orderly |
| `Books.RunKeepsBooks` | backend/src/api/server.js:1636-1733 | over every orderly run each user's escrow equals the quotes of the user's confirmed or running rows |
| `Books.OutcomePays` | backend/src/api/server.js:1668-1733 | over every orderly run each new settlement answers one reported outcome, the final status of its row: completed pays provider and platform the whole quote, failed by the user what the reported seconds cost, failed by the provider or disputed nothing, the rest going back |
| `Books.CapturesOnce` | backend/src/api/server.js:1636-1656 | the first capture of a row moves its quote from the gateway to escrow and says so, any other changes nothing |
| `Books.SettleNets` | backend/src/api/server.js:1688-1713 | the entries of a settlement, account by account: escrow loses the quote, provider, platform and refunds get exactly it |
| `Books.SettlementGoesThrough` | backend/src/api/server.js:1668-1733 | a job outcome settles a running row if and only if the charge is not one paisa |
| `Books.OnlyOnePaisaIsRejected` | backend/migrations/001_init.sql:200 | the non-zero CHECK accepts all entries of a settlement unless the charge is one paisa |
| `Books.SettleTwice` | backend/src/api/server.js:1668-1686 | repeating a settlement changes nothing |
| `Books.OffBookSettleBreaks` | backend/src/api/server.js:1668-1733 | settling as expired or cancelled records a settlement that the status does not tell |
| `Books.StepKeepsReputation` | backend/src/providers/reputation.js:25-38 | an orderly step of the ledger moves a provider's counters exactly as its rows move |
| `LedgerDbImpl.LedgerDb.Capture` | backend/src/api/server.js:1636-1656 | captures once and confirms the row, or changes nothing if the key exists |
| `LedgerDbImpl.LedgerDb.SettleReservation` | backend/src/api/server.js:1668-1733 | the transaction computes the specified ledger and answer, rolling back when the database rejects an entry |
| `LedgerDbImpl.LedgerDb.BumpReputation` | backend/src/api/server.js:1455-1462 | moves exactly the counters the outcome calls for |
| `LedgerDbImpl.LedgerDb.InsertEntries` | backend/src/api/server.js:1709-1713 | inserts all entries or stops at the first that violates the CHECK |
| `Verification.VocabulariesAgree` | backend/src/api/server.js:1393-1449 | going through the jobs table gives the same settlement as going straight from the executor's status |
| `Verification.SoloResultSettles` | backend/src/api/server.js:190-221 | a result of an ordinary job ends its running reservation as completed, failed by the user or failed by the provider, as the executor's word says, with the payment for that, unless the charge is one paisa |
| `Verification.PairResultSettles` | backend/src/api/server.js:1501-1542 | the result that completes a pair settles both reservations: each by its own word when the hashes agree, both as disputed and refunded when they do not |
| `Verification.HalfAPairWaits` | backend/src/api/server.js:1501-1519 | until both have reported a pair settles nothing |
| `Verification.TiebreakerIsSettled` | backend/src/api/server.js:1544-1600 | the tiebreaker's own reservation is settled by its word, whatever verdict it leads to |
| `Verification.MatchingPairSettlesAsSolo` | backend/src/api/server.js:1501-1542 | a matching pair settles each reservation exactly as an unverified job with the same status |
| `Verification.MismatchChargesNothing` | backend/src/api/server.js:1501-1542 | a mismatch pays nobody, moves no reputation, and refunds the whole quote of each running reservation |
| `Verification.DisputePaysNobody` | backend/src/api/server.js:1668-1733 | settling one reservation as disputed pays neither provider nor platform |
| `Verification.SettleIsLocal` | backend/src/api/server.js:1668-1733 | settling one reservation changes nothing about another |
| `Disputes.RecordedVerdictIsMajority` | backend/src/jobs/verification.js:102-117 | in every proper run in which no result reconciles two opponents, a resolution is recorded on a mismatch that still stands, never on a tiebreaker that agrees with both, and blames exactly the side it disagrees with |
| `Disputes.StandsExactly` | backend/src/api/server.js:190-232 | every disputed mismatch keeps standing through a step if and only if the step is not a result that gives a disputed job its opponent's hash |
| `Disputes.RepeatNeverReconciles` | backend/src/api/server.js:190-201 | a redelivery that repeats its content never does that |
| `DisputeExamples.LateResultHidesTheMajority` | backend/src/api/server.js:197-201 | a run from an empty database in which a late result does, and a deciding tiebreaker is recorded as inconclusive |
| `Verification.RunResolvesOnce` | backend/src/api/server.js:1569-1598 | under repeated delivery a group's resolution is final |
| `Verification.RunKeepsReputation` | backend/src/api/server.js:1455-1598 | over every run of deliveries, submissions and orderly ledger steps, a provider's counters are the numbers of its rows that ran and failed plus, in both, the number of recorded resolutions that blame one of its rows; so a group adds at most one fault |
| `Verification.ReputationIsExact` | backend/src/api/server.js:1455-1598 | from an empty database with new providers, every such run leaves every provider's counters exact |
| `Verification.SettledRowsAreFinal` | backend/src/api/server.js:190-245 | no sequence of results and submissions moves a settled reservation again |
| `VerificationImpl.DisputeDesk.SettleVerificationGroup` | backend/src/api/server.js:1501-1542 | the loop over the group settles every member under one verdict |
| `VerificationImpl.DisputeDesk.ResolveDisputeTiebreaker` | backend/src/api/server.js:1544-1610 | settles the third job, then records resolution and fault together, once |
| `VerificationImpl.DisputeDesk.OnJobResult` | backend/src/api/server.js:190-245 | dispatches a result to solo settlement, pair settlement or tiebreak |
| `Refunds.BackoffBounds` | backend/src/payments/refunds.js:15-21 | delays never shrink and stay between one minute and one hour |
| `Refunds.BackoffDoubles` | backend/src/payments/refunds.js:15-21 | the delay starts at one minute and doubles after every failure until it is an hour |
| `Refunds.NineAttemptsDecide` | backend/src/payments/refunds.js:56-91 | in any run that does not issue it again, a pending refund is selected at most 10 - attempts times, each selection counts, and once they are used up it has succeeded or is exhausted |
| `Refunds.QueuedRefundIsDecided` | backend/src/payments/refunds.js:56-91 | if sweeps keep coming, every queued refund is decided, whatever else is queued meanwhile |
| `Refunds.ProcessEach` | backend/src/payments/refunds.js:56-91 | an uninterrupted sweep attempts each selected row once, with its own fate, and touches no other |
| `Refunds.ProcessPays` | backend/src/payments/refunds.js:56-91 | in it the gateway refunds each selected row at most once, and the marks are those of the fates, failed marks included |
| `Refunds.SelectionIsExact` | backend/src/payments/refunds.js:61-64 | the sweep's query always has an answer: the oldest due rows, all of them up to twenty and twenty if there are more |
| `Refunds.AttemptsAreFailures` | backend/src/payments/refunds.js:29-105 | over every run the attempts on record are the attempts that failed, and a payment is in the queue exactly if one did |
| `Refunds.NoRefundIsForgotten` | backend/src/payments/refunds.js:29-53 | an issued refund is marked on its payment or has a row in the queue |
| `Refunds.DueRefundIsAttempted` | backend/src/payments/refunds.js:56-66 | the batch limit starves nobody: a due refund with k rows ahead is attempted within k/20 + 1 sweeps |
| `RefundTasks.RefundedOnlyIfPaid` | backend/src/payments/refunds.js:29-91 | over every interleaving of handlers, a payment is marked refunded only after a gateway call for it that refunded it and returned successfully |
| `RefundTasks.StepKeepsOnceExactly` | backend/src/payments/refunds.js:29-91 | a step of any handler, or a crash, leaves a payment its single chance of a refund if and only if the step is clean for it |
| `RefundTasks.SweepUninterrupted` | backend/src/payments/refunds.js:56-91 | a sweep that nothing interrupts computes the sweep of `Refunds`, failing writes included |
| `RefundTasks.IssueUninterrupted` | backend/src/payments/refunds.js:29-53 | an issued refund that nothing interrupts does what the whole-handler model says, however its call and its writes end |
| `RefundTasks.RolledBackRow` | backend/src/payments/refunds.js:66-105 | the two marks of a sweep are one transaction: a rejected and rolled back row update counts as an attempt whose mark failed |
| `RefundTasks.UnacknowledgedRow` | backend/src/payments/refunds.js:66-105 | if they are committed and the answer is lost, the payment stays marked and its row is not pending again |
| `RefundTasks.PaidIsWhatWasExecuted` | backend/src/payments/refunds.js:29-105 | what has been refunded is what the gateway has carried out, with or without a process left to hear of it |
| `RefundTasks.RefundedAtMostOnce` | backend/src/payments/refunds.js:29-91 | however handlers interleave, the gateway refunds a payment at most once if every step is clean for it |
| `RefundExamples.FailedMarkPaysTwice` | backend/src/payments/refunds.js:30-52 | a run that pays twice because the mark on the payment fails |
| `RefundExamples.LostReplyPaysTwice` | backend/src/payments/razorpay.js:66-75 | one because the gateway refunds and the call throws |
| `RefundExamples.StoppedSweepPaysTwice` | backend/src/payments/refunds.js:65-71 | one because the process stops between the refund and its record |
| `RefundExamples.OverlappingSweepsPayTwice` | backend/src/index.js:43-45 | one because a sweep starts while the last still awaits the gateway |
| `RefundExamples.ReissueCanPayTwice` | backend/src/payments/refunds.js:29-54 | one because the refund is issued again while its retry is pending |
| `RefundsImpl.RefundDesk.IssueRefund` | backend/src/payments/refunds.js:29-54 | pays and marks, or queues a retry when the call or the mark fails |
| `RefundsImpl.RefundDesk.ProcessRefundRetries` | backend/src/payments/refunds.js:56-91 | the loop over the due rows, catch included, computes the specified desk |
| `RefundTasksImpl.RefundWorker.IssueRefund` | backend/src/payments/refunds.js:29-31 | starts a call to the gateway |
| `RefundTasksImpl.RefundWorker.ProcessRefundRetries` | backend/src/payments/refunds.js:56-64 | reads the due rows with their attempts and starts with the first |
| `RefundTasksImpl.RefundWorker.OnReply` | backend/src/payments/refunds.js:31-66 | goes on to the marks, or to the catch |
| `RefundTasksImpl.RefundWorker.OnPaymentWrite` | backend/src/payments/refunds.js:32-68 | marks the payment, or goes to the catch |
| `RefundTasksImpl.RefundWorker.OnRowWrite` | backend/src/payments/refunds.js:69-73 | marks the retry row and goes on to the next, or rolls back |
| `RefundTasksImpl.RefundWorker.OnCatchWrite` | backend/src/payments/refunds.js:37-88 | queues the retry, or writes the attempts it read and goes on |
| `Availability.FreePieces` | backend/src/marketplace/scheduler.js:62-77 | the cursor loop with its early exit computes the specified pieces |
| `Availability.SubtractBusyExact` | backend/src/marketplace/scheduler.js:59-80 | an instant is advertised if and only if it is in a declared window and in no booking, for any bookings |
| `Availability.PiecesInOrderAndMaximal` | backend/src/marketplace/scheduler.js:59-80 | pieces of a window are ordered and disjoint, and maximal for bookings of positive length |
| `Availability.EmptyBookingSplits` | backend/src/marketplace/scheduler.js:59-80 | positive length is needed there: an empty booking, which cannot be stored, would split a window |
| `Availability.CoversExact` | backend/src/marketplace/scheduler.js:38-80 | a request fits what is left if and only if one declared window contains it and no booking clashes |
| `Catalogue.GroupWindows` | backend/src/marketplace/nodeStore.js:124-140 | the grouping loop gives each node exactly its windows, in order |
| `Catalogue.GroupBusy` | backend/src/marketplace/nodeStore.js:18-35 | the grouping loop gives each node exactly its busy slots, in order |
| `Catalogue.SearchAvailability` | backend/src/marketplace/nodeStore.js:108-178 | search attaches to each candidate the prefiltered windows less the prefiltered bookings |
| `Catalogue.BrowseAvailability` | backend/src/marketplace/nodeStore.js:51-106 | the catalogue attaches what is left, and drops a node with nothing left |
| `Catalogue.SearchIsExact` | backend/src/marketplace/nodeStore.js:108-178 | a node passes the window test if and only if a declared window contains the request and no guarded row overlaps it: both SQL prefilters are invisible |
| `Catalogue.SearchSellsWhatIsFree` | backend/src/marketplace/nodeStore.js:108-178 | search passes a node exactly if a declared window contains the request and no booking overlaps it that is on hold, or paid for and confirmed, running or completed |
| `Catalogue.ShownExactly` | backend/src/marketplace/nodeStore.js:18-178 | what is shown of a node, instant by instant: in a window that is read, and in no booking in use that is read |
| `Catalogue.AdvertisedIsBookable` | backend/src/marketplace/nodeStore.js:18-35 | any request inside an advertised piece avoids every row that the exclusion constraint guards |
| `Catalogue.ListedExactly` | backend/src/marketplace/nodeStore.js:51-106 | a node is listed if and only if some instant of a window that is read is in none of the bookings that are read |
| `Catalogue.ListingIsRight` | backend/src/marketplace/nodeStore.js:51-106 | a node is listed if and only if it has time to sell from now on, or a window that has begun was not filled up to now by bookings still read; so the listing is right exactly in the first case or when the past is filled |
| `Catalogue.UnsoldIsListed` | backend/src/marketplace/nodeStore.js:51-106 | an unsold instant from now on is advertised |
| `Catalogue.PastTimeIsListed` | backend/src/marketplace/nodeStore.js:51-106 | a node whose remaining time is all sold is still listed for time that has passed |
| `Ranking.RankIsExact` | backend/src/marketplace/scheduler.js:106-139 | the ranking is a permutation of the feasible nodes with their scores, non-increasing, each score in [0,1] |
| `Ranking.SortIsStable` | backend/src/marketplace/scheduler.js:138 | equal scores keep the order of the candidates |
| `Ranking.ScoreInUnit` | backend/src/marketplace/scheduler.js:97-130 | every score is in [0,1], in every mode |
| `Ranking.DominatingNeverScoresLower` | backend/src/marketplace/scheduler.js:87-130 | a node no worse on price, performance, reliability and latency never scores lower |
| `Ranking.TiesOnlyWhenEqual` | backend/src/marketplace/scheduler.js:87-130 | it ties only if it is equal on all four columns: every criterion counts in every mode |
| `Ranking.ModesDecideExactly` | backend/src/marketplace/scheduler.js:17-23 | in 'cheapest' the lowest expected cost beats the highest whatever else the nodes are like, in 'fastest' the same holds of performance, in 'best value' of any two of cost, performance and reliability; and no other set of criteria decides |
| `Ranking.SplitLeadsScore` | backend/src/marketplace/scheduler.js:97-130 | a node that is best on some criteria and worst on the others scores exactly what those criteria are worth in percent |
| `Ranking.AlikeScoreHalf` | backend/src/marketplace/scheduler.js:97-104 | candidates that are all alike, or a single one, score one half |
| `Ranking.RankedIfItMeetsAll` | backend/src/marketplace/scheduler.js:25-41 | a node is ranked exactly if it is online, large enough, within budget and free in one window for the whole time |
| `Ranking.ScoreIgnoresDuration` | backend/src/marketplace/scheduler.js:84-130 | scores do not depend on how long the booking is |
| `Ranking.ReliabilityOffsetsPrice` | backend/src/marketplace/scheduler.js:84-92 | one node is cheaper per finished run than another if and only if its price times the other's reliability is lower |
| `Ranking.RankIgnoresMoneyUnit` | backend/src/marketplace/scheduler.js:106-139 | scaling prices and budget by k > 0 leaves every score and the order unchanged |
| `HubCalls.SettlesExactlyOnce` | backend/src/ws/hub.js:304-313 | over every run, ids reused or not, a promise is settled once or still waits, and a settled one is never settled again |
| `HubCalls.TimerSettles` | backend/src/ws/hub.js:304-313 | once its own timer has come due a promise is settled |
| `HubCalls.OrphanOnlyTimesOut` | backend/src/ws/hub.js:188-195 | a call that lost its map entry can only be settled by its own timer |
| `HubCalls.ReplySettlesTheOwner` | backend/src/ws/hub.js:188-195 | whatever ids are reused, a reply settles exactly the call that owns the map entry of its id, and changes no other |
| `HubCalls.ReplyIsLostExactlyByOrphans` | backend/src/ws/hub.js:188-195 | a waiting call misses a reply under its own id if and only if it has lost its entry |
| `HubCalls.ReplyReachesItsCall` | backend/src/ws/hub.js:188-195 | with distinct outstanding ids a reply settles a call if and only if that call waits under its id |
| `HubCalls.ReusedIdLosesTheReply` | backend/src/ws/hub.js:304-313 | a run with a reused id in which the first timer drops the second entry and its reply is lost |
| `HubCallsImpl.Correlator.Await` | backend/src/ws/hub.js:304-313 | registers the call under its id, overwriting what was there |
| `HubCallsImpl.Correlator.OnReply` | backend/src/ws/hub.js:188-195 | settles the registered call, or ignores a late reply |
| `HubCallsImpl.Correlator.OnTimer` | backend/src/ws/hub.js:304-309 | rejects its own promise and deletes whatever entry its id has |
| `HubPresence.PresenceIsExact` | backend/src/ws/hub.js:135-186 | after every step, with sockets closing at once or later, the last presence event for a node is true if and only if it is in the map |
| `HubPresence.NewConnectionComesOnline` | backend/src/ws/hub.js:79-174 | a node that connects and proves who it is comes online in place of any connection it had, with no sweep held against it |
| `HubPresence.EmittedExactly` | backend/src/ws/hub.js:162-186 | which presence events each step emits for each node |
| `HubPresence.OfflineHasOneCause` | backend/src/ws/hub.js:180-186 | an offline event is the departure of the connection that stood for the node |
| `HubPresence.AtMostOneOffline` | backend/src/ws/hub.js:180-186 | each connection causes at most one offline event, even if its close event repeats |
| `HubPresence.BeatingIsNeverClosed` | backend/src/ws/hub.js:335-342 | a node that beats at least once every three sweeps is never closed by the sweep |
| `HubPresence.ClosedExactlyWhenSilent` | backend/src/ws/hub.js:335-342 | an undisturbed connection is closed by the sweep if and only if it falls silent for more than three sweeps |
| `HubPresence.SilentIsClosedOnTheFourth` | backend/src/ws/hub.js:335-342 | a fresh silent connection is closed on the fourth sweep and not before |
| `HubPresence.SweptStep` | backend/src/ws/hub.js:335-342 | the visits of the sweep's loop do not disturb each other, even when sockets close at once |
| `HubPresenceImpl.Hub.HandleConnection` | backend/src/ws/hub.js:79-93 | adds an unauthenticated connection |
| `HubPresenceImpl.Hub.HandleClose` | backend/src/ws/hub.js:180-186 | removes the node only if the map still leads to this connection |
| `HubPresenceImpl.Hub.Welcome` | backend/src/ws/hub.js:162-174 | supersedes the prior connection, which may close at once |
| `HubPresenceImpl.Hub.HandleHeartbeat` | backend/src/ws/hub.js:107-110 | resets the count of this connection |
| `HubPresenceImpl.Hub.SweepStale` | backend/src/ws/hub.js:335-342 | the sweep computes its specification whatever order it meets the nodes in |
| `ClusterRelay.UndeliveredMessagesSettleIt` | backend/src/ws/clusterRelay.js:120-143 | in every run that obeys the hypotheses, folding everything still under way over an owner map, in any order the broker may take it, leaves only true owners, and exactly the owner map of the others once all have taught it |
| `ClusterRelay.ConnectsExactly` | backend/src/ws/clusterRelay.js:192-196 | a step that loses nothing keeps the relay's invariant if and only if it obeys the hypothesis on where a node connects |
| `ClusterRelay.CaughtUpIsSound` | backend/src/ws/clusterRelay.js:192-224 | with nothing under way an instance is wrong about no node it takes to be online, and relays to the instance that holds the socket |
| `ClusterRelay.CaughtUpIsExact` | backend/src/ws/clusterRelay.js:192-224 | once all others have taught it, it knows exactly who holds what and `isOnline` is exact |
| `ClusterRelay.AskerKnowsAll` | backend/src/ws/clusterRelay.js:120-143 | an instance that asks around while all others are subscribed knows, once everything is delivered, exactly who holds what, whoever starts later included |
| `ClusterRelayImpl.Relay.OnMessage` | backend/src/ws/clusterRelay.js:120-143 | the handler computes the specified owner map and answer, with a loop over the snapshot |
| `ClusterRelayImpl.Relay.OnPresence` | backend/src/ws/clusterRelay.js:192-196 | a presence change is published once |
| `ClusterRelayImpl.Relay.Find` | backend/src/ws/clusterRelay.js:214-224 | a method is refused as offline exactly if `isOnline` is false |
| `ClusterRelayExamples.ConcurrentStartIsMissed` | backend/src/ws/clusterRelay.js:208-212 | two instances that start together, all hypotheses met, and one never learns of a node of the other |
| `ClusterRelayExamples.LostPublishLeavesAStaleOwner` | backend/src/ws/clusterRelay.js:110-118 | a lost disconnect leaves a node online for ever |
| `ClusterRelayExamples.HastyMoveIsForgotten` | backend/src/ws/clusterRelay.js:124-129 | a node that moves before its publishes are out ends up unknown |
| `CanonicalText.ReadsValue` | backend/src/lib/canonical.js:40-43 | an independent reader after the RFC 8259 grammar reads every printed value back and stops exactly where it ends, through nested arrays, objects, escaped strings and integers |
| `CanonicalText.ReadsCharacter` | backend/src/lib/canonical.js:40-43 | every character, escaped or not, is read back from the way it is printed |
| `CanonicalText.ReadsUtf8` | backend/src/lib/canonical.js:42 | a decoder after the RFC 3629 table reads the UTF-8 bytes of every text back |
| `CanonicalText.DecodesPrinted` | backend/src/lib/canonical.js:40-43 | decoding the bytes of an accepted value gives the value, so no two values share bytes |
| `CanonicalText.PrintedIsShortest` | backend/src/lib/canonical.js:40-43 | no other bytes that the reader takes for the value are shorter: no escape that is not needed and one spelling for a number |
| `CanonicalText.AcceptedExactly` | backend/src/lib/canonical.js:8-29 | a value is accepted exactly if every number in it is an integer of absolute value below 2^53 and nothing in it is of another type |
| `Canonical.DecodeUndoesEncode` | backend/src/lib/canonical.js:40-43 | the bytes of an accepted body decode to a body of the same meaning, in both languages |
| `Canonical.SameBytesIffSameMeaning` | backend/src/lib/canonical.js:8-43 | for both encoders: same bytes if and only if same meaning, for any insertion order at every level; acceptance does not depend on order |
| `Canonical.KeysComeOutInOrder` | backend/src/lib/canonical.js:31-43 | in the signed bytes the keys of every object appear in the order of the language |
| `Canonical.NoCrossLanguageCollision` | worker/nodeva_worker/canonical.py:26-60 | bytes of one encoder never equal the other's bytes for another body |
| `Canonical.EncodersAgreeExactly` | worker/nodeva_worker/canonical.py:55-60 | the encoders agree on a body if and only if they order the keys of each of its objects alike |
| `Canonical.PlainBodiesVerify` | worker/nodeva_worker/canonical.py:55-60 | they agree on all bodies whose keys are in the Basic Multilingual Plane and not index-like |
| `Canonical.IndexOrderIsNumeric` | backend/src/lib/canonical.js:31-38 | index-like keys come out in numeric order |
| `Canonical.IsIndexExactly` | backend/src/lib/canonical.js:31-38 | the keys an object enumerates first are the decimal texts of the integers below 2^32 - 1 |
| `Canonical.ReadsUnits` | backend/src/lib/canonical.js:31-38 | the code units that keys are compared by are UTF-16: a reader after section 2.2 of RFC 2781 recovers the key |
| `Canonical.IndexKeysDisagree` | backend/src/lib/canonical.js:31-38 | two index-like keys that the encoders order differently |
| `Canonical.AstralKeysDisagree` | backend/src/lib/canonical.js:31-38 | two keys that differ between code units and code points |
| `RateLimit.SweepIsInvisible` | backend/src/auth/rateLimit.js:22-34 | whatever the clock does, sweeps change no answer if no request reads a time before the end of a bucket of its key that a sweep has removed |
| `RateLimit.SweepIsInvisibleExactly` | backend/src/auth/rateLimit.js:22-45 | counts and waiting times are those of a limiter that never sweeps if and only if that holds |
| `RateLimit.SweepShowsExactly` | backend/src/auth/rateLimit.js:22-45 | one sweep shows in the next request of a key if and only if it removed a bucket that is live when the request comes |
| `RateLimit.MonotoneIsNeverEarly` | backend/src/auth/rateLimit.js:22-45 | a clock that never goes back meets the condition |
| `RateLimit.SweepShowsIfClockGoesBack` | backend/src/auth/rateLimit.js:22-34 | a run with a clock that goes back, in which a sweep lets a refused request through |
| `RateLimit.SlidingWindowBound` | backend/src/auth/rateLimit.js:36-64 | at most 2*max - 1 requests of a key pass in any half-open interval of the window's length |
| `RateLimit.BoundIsTight` | backend/src/auth/rateLimit.js:36-64 | for every maximum and every window of at least two milliseconds that many do pass |
| `RateLimitImpl.RateLimiter.Hit` | backend/src/auth/rateLimit.js:36-45 | counts in the live bucket or starts a new one |
| `RateLimitImpl.RateLimiter.Limit` | backend/src/auth/rateLimit.js:53-66 | answers as specified; a request without a key passes |
| `RateLimitImpl.RateLimiter.Sweep` | backend/src/auth/rateLimit.js:28-33 | deletes exactly the elapsed buckets |

## Left out

- HTTP routing, authentication of users, email, metrics, logging, Docker execution, hardware detection, peer introduction, the frontend and the simulation: wrappers around libraries, or glue.
- Ed25519, SHA-256 and HMAC: a signature check is a verdict, a result hash is an abstract value.
- PostgreSQL, SQLite, Redis and WebSocket internals: a transaction is one step, a unique key is a lookup, a connection is a pair of FIFO queues that a reconnect empties.
- Manual settlement as 'expired' or 'cancelled' is not a step of the orderly runs; `Books.OffBookSettleBreaks` says why.
- The protocol model has one node, since no state of it is shared between nodes; handlers that await (booking, confirm, reconciler) are values with a phase, because other steps run between their awaits.
- Refunds.DueRefundIsAttempted: speaks of sweeps that run one at a time to their end, and so do `NineAttemptsDecide` and `QueuedRefundIsDecided`; overlapping sweeps may select the same rows again, and a sweep that stops early attempts none of the rest.
- ProtocolSafety.StepKeepsAgreementExactly: is exact for the agreement of platform and node, messages in flight included; that a step which breaks it can end in a loss is shown by one run for *Matched* and one for each part of *Timely*.
- RefundTasks.Clean: is exact for keeping the single chance; that every unclean step can lead to a second refund is shown by one run for each kind of fault.
- Job submission is one step with respect to JOB_RESULT, and its acknowledgment is not a conversation of the protocol model.
- The exclusion constraint on captured rows is a guard of the protocol model and is not repeated in `Books`.
- Floating point: scores, hours and quotes in search are exact reals or rationals, and the minutes and seconds of a quote exact integers.
- An unknown optimization mode, which throws, and the verification advice attached to ranked candidates.
- Relayed requests and their replies between instances: they correlate by fresh random ids with one timer each, the case `HubCalls` covers.
- A crash of an instance is a lost publish for each of its nodes; the model has the latter only.
- Strings with lone surrogates, and JavaScript objects other than plain ones.
- Insertion order of the `_nodes` map: presence events of different nodes are not ordered among each other.
