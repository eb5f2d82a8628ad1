# Order and Credit: a verified model

Order lets a requester post an errand with a reward, a courier take it, and the two of them see it through to
delivery. Credit holds the reward in the requester's account and settles it when the order ends. The two services
talk over calls that can be lost, delayed or repeated, and over outcome events that are delivered at least once. This
project models both services and their composition in Dafny, and proves that they agree about every hold, that no
credit is created, lost or stranded, and that the satellites which share an order's lock (delivery receipts, evidence
clean-up, the outbox with the chat copy, the timers, the retry keys) keep their promises.

## How it is built

Each operation is written twice. A function on values says what it does to the rows; a method of a class does it in
place, with the guards, loops, early returns and rollbacks of the original, and is proved equal to the function. The
properties over all runs are lemmas about the functions.

- **Credit.** `Credit` holds the functions: a `Book` is every row of one order (the reservation, its revision history,
  its assignments, its operation records) and a `Bank` is the accounts and the append-only ledger. `CreditStore.Store`
  updates the tables in place. `CreditBooks`, `CreditLedger` and `CreditSafety` carry the invariant through every
  call, outcome and run; `CreditFences` and `CreditReplay` prove permanence, replay and commutation; `Lateness` is the
  payout arithmetic.
- **Order.** `Orders` is the lifecycle table, field ownership and facts. `OrderRecords` holds the operations on one
  order's rows: the aggregate, its offers, the creation workflow, assignment attempts, withdrawals and emitted facts.
  `OrderInvariants`, `OrderSteps` and `CancellationSteps` prove what each keeps. `OrderTx.Tx` is one transaction under
  the order's lock with its compare-and-set and one-way guards, `OfferChanges` its offer policy, and
  `OrderStore.Store` runs every operation through it.
- **The two together.** In `Saga`, workers of any number of Order instances claim a leased step, call Credit, read it
  back and apply what they learnt. Claims, replies and reads stay in the network for ever, so that any message may be
  lost, late, repeated or used by a worker that was thought dead, and outcomes are delivered any number of times in any
  order. `SagaInvariants` states one inductive invariant over the rows, the reservation and the network;
  `SagaCredit`, `SagaOrder`, `SagaSteps` and `SagaSafety` prove it; `SagaTheorems`, `SagaHistory` and `SagaDelivery`
  draw the conclusions. No clock is assumed to be monotone there.
- **Under the same lock.** `Receipts`, `ReceiptSafety`, `DeliveryClock` and `ProofStore` cover delivery receipts
  against the timeout and the clean-up of evidence; `Encoding`, `Outbox`, `OutboxFeed`, `OutboxSafety` and
  `ChatProjection` take facts to the chat copy; `Timers` is the paged scanner; `RetryKeys` and `RetryKeySafety` are
  the retained keys of Create, MakeOffer and Cancel.
- **Step by step.** What a single operation answers and stores is also written out on its own, as a theorem over its
  inputs: `Lifecycle` is the table of moves, amendments and field owners; `CreditEffects` the money; `CreationEffects`,
  `AdmissionEffects`, `AssignmentEffects`, `CancellationEffects` and `ProgressEffects` the order's operations;
  `OfferPolicy` the offer changes an attempt may make; `ReceiptEffects`, `UploadEffects`, `RetryKeyEffects` and
  `OutboxEffects` the rest. Their conditions and results name rows, amounts and instants rather than the functions
  that decide, so that a decision which changed would contradict them. `SagaSettlement` carries them to the end: from
  how an order ended to whose balance moved.

Identifiers are opaque numbers, rows that belong to one order are named by their position, and a request payload
stands for its hash. Each transaction is one atomic step under the order's lock.

## Three findings

- A delivery's outcome can fail to encode, and then block its order's outbox and settlement for good. It happens
  exactly when the receipt was dated before the pickup: pickup is stamped by the process clock, the receipt by the
  database clock, and the operations compare the receipt only with the deadline. `DeliveryClock.SkewBlocksOutcome`
  runs it on every order that is being delivered: a receipt that the database clock dates one second before the pickup
  is admitted and accepted, the requester completes the order, and the outcome never encodes.
  `Encoding.CompletionEncodesExactly`, `SagaTheorems.OutcomeMissingExactly` and `DeliveryClock.CompletedEncodesExactly`
  give the exact condition, and `DeliveryClock.ForwardClockNeverBlocks` rules it out under one clock that never runs
  backwards.
- One Drain can attempt a fact twice. A batch freezes its instant so that what it defers stays out of it, but the
  leases are measured from later readings: a claim read at least 30 seconds, or a deferral read at least 2 seconds,
  before the batch's instant leaves its fact eligible again. `OutboxSafety.EligibleAgainExactly` shows that these bounds
  are exact, `OutboxSafety.SetBackAttemptsTwice` shows an input, and `OutboxSafety.DrainAttemptsOnce` rules it out above
  them. The order of first publications does not depend on any clock.
- The branch of RevertAdjustment for an applied offer that is not the active one is reached only on a released
  reservation, and several guards of settlement (a missing or unapplied assignment, a payout outside the hold) cannot
  fire under the lateness rule (`CreditFences.InactiveOnlyWhenReleased`, `CreditFences.OutcomesAreAcceptedExactly`).

## Model

| member | source | states |
|---|---|---|
| `SagaTheorems.ServicesAgree` | order-service/internal/order/assignmentrecovery.go:65-118 | In every reachable state, under lost, late and repeated messages and dead workers: an order awaiting pickup with no pending withdrawal, delivering or delivered has its hold assigned at Credit to its latest succeeded attempt, with the same courier and amount; an order awaiting a courier with no unresolved attempt has its original reward Held and no applied offer |
| `SagaTheorems.NoStrandedSettlement` | credit-service/internal/reservation/outcome.go:17-81 | Every outcome an order stored is accepted by Credit in every reachable state, and is applied exactly if the reservation has not ended yet |
| `SagaDelivery.FirstDeliveryApplies` | credit-service/internal/reservation/outcome.go:17-81 | In every reachable state Credit accepts an order's outcome and applies it exactly if no delivery of it has happened before: its first delivery settles, whatever else was lost, late or repeated |
| `SagaSettlement.SettlesAsItEnded` | credit-service/internal/reservation/outcome.go:86-158 | In every reachable state the first delivery of an order's outcome moves exactly what its end means: a completed order pays its own courier by lateness out of its own price and returns the rest, a cancellation by the requester after pickup pays the whole price, every other end returns the whole hold, and no other account moves |
| `SagaTheorems.OutcomeMissingExactly` | order-service/internal/outbox/encode.go:89-111 | An ended order's outcome fails to encode exactly when its delivery is dated before its pickup |
| `SagaTheorems.SystemConservesCredits` | credit-service/internal/account/ledger.go:27-82 | In the whole system all balances add up to 100 credits per open account, and each account's reserved credits are exactly the sum of its reservations |
| `SagaTheorems.FactsNeverBlock` | order-service/internal/outbox/encode.go:15-87 | Every row that an order's changes stored encodes, under the revision, order and actor its change wrote beside it, except one stamped with the zero instant or the outcome of a delivery dated before its pickup |
| `SagaSafety.RunKeepsWorld` | order-service/internal/order/assignmentrecovery.go:17-126 | The invariant that ties orders, reservations and the network survives every run of the system |
| `SagaCredit.CallKeepsTies` | credit-service/internal/reservation/operations.go:13-253 | Whatever call a worker sends under whatever claim, however stale, Credit's answer leaves the order's rows and its reservation tied as before |
| `SagaHistory.RunLater` | order-service/internal/order/postgresassignment.go:228-252 | No run takes back a resolved workflow or attempt, a phase of no return, a fact, a retained key, a terminal reservation or a fence |
| `SagaHistory.OutcomeCountsOnce` | credit-service/internal/reservation/outcome.go:17-81 | After one delivery of an outcome, every later delivery of it is accepted and reported as not applied |
| `SagaHistory.RejectedHoldsNothing` | order-service/internal/order/creationrecovery.go:82-128 | After a creation was rejected its order never holds a credit again, and a Reserve that still arrives is refused and changes nothing |
| `SagaHistory.OpenedIsNeverReleased` | order-service/internal/order/creationrecovery.go:90-112 | No worker ever holds a claim to release the hold of an opened order for expiry |
| `SagaHistory.OpeningRestsOnHold` | order-service/internal/order/creationrecovery.go:97-112 | At the moment an order opens it has not expired, and Credit holds exactly its amount for its requester, however old the read that opened it |
| `SagaHistory.OneAttemptAtATime` | order-service/internal/order/assignment.go:195-207 | At most one attempt of an order is unresolved in any reachable state |
| `SagaHistory.StaleResultsChangeNothing` | order-service/internal/order/assignmentrecovery.go:71-74 | A result obtained under another generation or phase changes nothing, in creation, assignment and withdrawal |
| `SagaHistory.RevertedNeverSucceeds` | order-service/internal/order/assignmentrecovery.go:76-96 | Once a worker may have sent the Revert of an attempt that had not succeeded, the attempt never succeeds |
| `SagaHistory.RejectedStaysFenced` | order-service/internal/order/assignmentrecovery.go:76-87 | An attempt that owned an offer and ended rejected is reverted at Credit for ever: no Adjust of it succeeds or moves a credit |
| `SagaHistory.KeyNamesOneAttempt` | order-service/internal/order/assignment.go:234-318 | A courier's AcceptOrder key names at most one attempt of one order, the same one in every later state |
| `CreditSafety.HandleKeepsState` | credit-service/internal/reservation/service.go:57-126 | Every call keeps accounts, ledger, reservations, history, assignments and operation records in agreement |
| `CreditSafety.OutcomeKeepsState` | credit-service/internal/reservation/outcome.go:17-81 | Every outcome keeps the same agreement, whatever the payout rule answers |
| `CreditSafety.CreditsConserved` | credit-service/internal/account/ledger.go:27-82 | Over all runs of Credit the balances add up to the grants, reserved credits equal the reservations, and no account is overdrawn |
| `CreditSafety.LedgerRefinesAccounts` | credit-service/internal/account/ledger.go:22-60 | Folding a user's ledger entries gives the account and every prefix is sound; an order's balance deltas sum to zero and its reserved deltas to its current hold |
| `CreditLedger.PostKeepsBank` | credit-service/internal/account/ledger.go:27-60 | Posting moves every per-user and per-order sum by exactly what the entries add, and keeps every prefix of the ledger sound |
| `CreditLedger.TallyKeepsState` | credit-service/internal/reservation/operations.go:303-309 | Entries that account for one reservation's change keep accounts, ledger and all reservations in agreement |
| `CreditBooks.ServeKeepsBook` | credit-service/internal/reservation/operations.go:13-253 | Every call keeps the reservation, its history, its assignments and its operation records consistent, and takes back no terminal state, fence, record or revision |
| `CreditBooks.EndKeepsBook` | credit-service/internal/reservation/outcome.go:17-158 | Every accepted outcome does the same and leaves the reservation terminal |
| `CreditFences.RunGrows` | credit-service/internal/reservation/postgresrepository.go:158-193 | No run takes back a terminal reservation, a reverted offer, an operation record or a revision |
| `CreditFences.RevertFencesForever` | credit-service/internal/reservation/operations.go:108-117 | After RevertAdjustment of an attempt succeeded, no Adjust of it, first or repeated, ever succeeds or changes anything |
| `CreditFences.StaleRevertMovesNothing` | credit-service/internal/reservation/operations.go:184-226 | Reverting an attempt that is not the active one leaves the reservation, every account and the ledger alone |
| `CreditFences.NoHoldForever` | credit-service/internal/reservation/operations.go:27-47 | After a release, or a stored INSUFFICIENT_CREDITS, no Reserve of that order ever creates a hold |
| `CreditFences.AssignmentTable` | credit-service/internal/reservation/operations.go:128-150 | In every reachable state a Held reservation has no applied offer, an Assigned one exactly the recorded one at the reserved amount, and a Settled one's offer stays applied |
| `CreditFences.InactiveOnlyWhenReleased` | credit-service/internal/reservation/operations.go:202-208 | Past the refusal of settled reservations, an applied offer is not the active one exactly when the reservation is released |
| `CreditFences.CallsNeverBreak` | credit-service/internal/reservation/service.go:100-126 | No call reaches a schema violation, a missing assignment or a lost revision compare-and-set |
| `CreditFences.OutcomesAreAcceptedExactly` | credit-service/internal/reservation/outcome.go:17-110 | An outcome is accepted exactly when it is well formed and the reservation may end that way or already did; it applies exactly when the reservation was open |
| `CreditFences.SettlementSplitsHold` | credit-service/internal/reservation/outcome.go:105-121 | Settlement splits the hold exactly into the courier's payout and the requester's refund |
| `CreditFences.OutcomeAppliesOnce` | credit-service/internal/reservation/outcome.go:32-81 | A repeated outcome is accepted, reported as not applied and changes nothing, whatever happened in between |
| `CreditEffects.ReserveExactly` | credit-service/internal/reservation/operations.go:13-71 | A first Reserve is granted exactly if the requester's balance less their reserved credits covers it, 100 for a new user; it then holds exactly the amount, and otherwise stores INSUFFICIENT_CREDITS; no other account or order moves |
| `CreditEffects.AdjustExactly` | credit-service/internal/reservation/operations.go:77-159 | A first Adjust of a held order is granted exactly if the available credits cover what the offer adds to the hold; the hold becomes the offer, assigned to its courier |
| `CreditEffects.AdjustRefusedExactly` | credit-service/internal/reservation/operations.go:77-117 | In every other state a first Adjust is refused for the reason that the state names, and changes nothing |
| `CreditEffects.RevertExactly` | credit-service/internal/reservation/operations.go:165-227 | A first Revert fences its attempt; the active one's hold goes back to the original amount, and otherwise no reservation and no credit moves |
| `CreditEffects.ReleaseExactly` | credit-service/internal/reservation/operations.go:232-310 | A first Release returns exactly the whole hold to its requester, or leaves a tombstone, or refuses a settled order |
| `CreditEffects.SettlementExactly` | credit-service/internal/reservation/outcome.go:86-158 | A settlement raises the courier's balance by exactly the share that lateness gives (all of the hold for a cancellation after pickup), lowers the requester's by it, frees the whole hold, moves no other account, and stores the same share; the courier may be anybody |
| `CreditEffects.ReleaseOutcomeExactly` | credit-service/internal/reservation/outcome.go:17-81 | A release outcome returns exactly the whole hold under its own reason |
| `CreditEffects.OutcomeAppliesExactly` | credit-service/internal/reservation/outcome.go:17-131 | Which outcomes apply, from the event and the reservation alone; every other one changes nothing |
| `CreditReplay.DuplicatesDoNotMatter` | credit-service/internal/reservation/service.go:57-98 | A run with any duplicates of recorded calls ends in the state of the run without them |
| `CreditReplay.RepeatAnswersAlike` | credit-service/internal/reservation/service.go:79-155 | A repeated call answers as the first did, in every later state, unless a release or a revert has fenced it since |
| `CreditReplay.ConflictExactlyWhenPayloadDiffers` | credit-service/internal/reservation/service.go:79-88 | A recorded key answers a conflict exactly when the payload differs |
| `CreditReplay.RevertAndReleaseCommute` | credit-service/internal/reservation/operations.go:172-310 | Reverting an offer and releasing the order leave, in either order, the same accounts, reservation status and assignments |
| `CreditStore.Store.Reserve` | credit-service/internal/reservation/operations.go:13-71 | The transaction leaves the state and returns the reply of the call on values |
| `CreditStore.Store.AdjustReservation` | credit-service/internal/reservation/operations.go:77-159 | As Reserve, for adjusting the hold to an offer |
| `CreditStore.Store.RevertAdjustment` | credit-service/internal/reservation/operations.go:165-227 | As Reserve, for taking an offer back or fencing it before it came |
| `CreditStore.Store.ReleaseReservation` | credit-service/internal/reservation/operations.go:232-253 | As Reserve, for releasing a hold or leaving a tombstone |
| `CreditStore.Store.Mutate` | credit-service/internal/reservation/service.go:57-126 | Runs a call at most once per operation key: replays, commits insufficiency, rolls every other refusal back |
| `CreditStore.Store.TryRelease` | credit-service/internal/reservation/operations.go:257-310 | Releases once, reporting whether anything changed, or refuses a settled reservation |
| `CreditStore.Store.ApplyOrderOutcome` | credit-service/internal/reservation/outcome.go:17-81 | Ends a reservation by release or settlement, recognizes a repeat, rejects a mismatch, all or nothing |
| `CreditStore.Store.SettleAssigned` | credit-service/internal/reservation/outcome.go:86-158 | Pays the courier, refunds the rest and records the settlement under the revision compare-and-set |
| `CreditStore.Store.UpdateReservation` | credit-service/internal/reservation/postgresrepository.go:158-191 | Stores the next revision exactly when the expected one is current and not terminal |
| `CreditStore.Store.LockAccounts` | credit-service/internal/reservation/postgresrepository.go:254-272 | Opens and locks each account once, in ascending order, granting the starting credits to new ones |
| `CreditStore.Store.PostEntries` | credit-service/internal/account/ledger.go:27-60 | Applies each non-empty entry to its account and appends it, or fails when a balance constraint would break |
| `CreditStore.Store.OpenAccount` | credit-service/internal/account/ledger.go:65-82 | Opens an account with its grant exactly once |
| `Credit.LocksAreOrdered` | credit-service/internal/reservation/postgresrepository.go:254-272 | The lock order is strictly ascending and locks exactly the accounts asked for |
| `Lateness.PayableBounds` | credit-service/internal/reservation/lateness.go:30-39 | The payout is never negative and never above the reward |
| `Lateness.PayableAntitone` | credit-service/internal/reservation/lateness.go:30-39 | A later delivery never pays more |
| `Lateness.PayableMonotone` | credit-service/internal/reservation/lateness.go:30-39 | A larger offer never pays less |
| `Lateness.PayableIsExactFloor` | credit-service/internal/reservation/lateness.go:30-39 | Between T and 2T, borders included, the payout is the exact floor of R * (2T - elapsed) / T |
| `Lifecycle.GoesByTheTable` | order-service/internal/order/transitions.go:7-97 | Transition moves an order exactly along a table of status, action and the actor's relation to the order, to the destination the table names, and holds a pickup back while a withdrawal is pending |
| `Lifecycle.RepeatsItsOwn` | order-service/internal/order/transitions.go:26-38 | It answers a repeat exactly to the participant whose own success the order shows |
| `Lifecycle.RefusesTheRest` | order-service/internal/order/transitions.go:14-76 | Every other answer is a refusal, and blames the actor exactly for a missing name, for a requester who would carry their own order, or when the table has the move for somebody else |
| `Lifecycle.FieldsAreOwned` | order-service/internal/order/changefields.go:8-59 | Each action leaves every field alone that it does not own |
| `Lifecycle.AcceptedExactly` | order-service/internal/order/events.go:51-158 | A change is accepted exactly if it takes the next revision, touches only its action's fields, and is a move of the table or one of five amendments in the right hands |
| `Lifecycle.BornExactly` | order-service/internal/order/events.go:51-90 | An order is born exactly as its requester's own first revision |
| `Lifecycle.WhoMayDoWhat` | order-service/internal/order/transitions.go:79-97 | Every accepted change was made by the participant it belongs to: receipts by the requester, pickups and deliveries by the assigned courier, and so on |
| `Lifecycle.WarnedExactly` | order-service/internal/order/events.go:186-194 | A courier is warned exactly when a delivery under way fails |
| `Orders.LifeKeeps` | order-service/internal/order/changefields.go:8-59 | Over any life creation data never change, terminal statuses are final, and from pickup on the courier and the amounts are fixed |
| `Orders.Revisions` | order-service/internal/order/events.go:59-73 | The n-th accepted change of an order stores revision n |
| `Orders.OneOutcomePerEnd` | order-service/internal/order/events.go:186-194 | An order that ended other than Rejected emitted exactly one outcome fact; any other order none |
| `Orders.StatusFactsTellTheLife` | order-service/internal/order/events.go:160-194 | The status facts form a chain in strictly rising revisions that ends at the order's present status and courier |
| `OrderRecords.RetryDelayBounded` | order-service/internal/order/creationrecovery.go:218-222 | Retry delays stay between one and thirty seconds with any jitter, and do not shrink on later attempts |
| `OrderRecords.RetryDelayExactly` | order-service/internal/order/creationrecovery.go:218-222 | Retry delays are 1, 2, 4, 8, 16 and then 30 seconds, with up to a quarter more before the limit |
| `OrderSteps.ApplyCreationOk` | order-service/internal/order/creationrecovery.go:61-166 | Applying a creation result keeps the invariant of the order's rows and takes nothing durable back |
| `OrderSteps.AcceptOrderOk` | order-service/internal/order/assignment.go:217-318 | Admitting an attempt, or a retained contention rejection, keeps the invariant of the rows |
| `OrderSteps.AcceptOfferOk` | order-service/internal/order/assignment.go:325-382 | Accepting a counteroffer keeps the invariant of the rows |
| `OrderSteps.ApplyAssignmentOk` | order-service/internal/order/assignmentrecovery.go:65-118 | Applying an assignment result keeps the invariant: one active attempt, and the order names the courier, price and instant of its latest succeeded one |
| `OrderSteps.ExpireOk` | order-service/internal/order/expirytimers.go:56-112 | Expiry keeps the invariant of the rows |
| `OrderSteps.MakeOfferOk` | order-service/internal/order/assignment.go:99-193 | A proposal keeps the invariant of the rows |
| `CancellationSteps.CancelOk` | order-service/internal/order/cancellation.go:186-303 | Cancelling, joining or beginning a withdrawal keeps the invariant: at most one pending withdrawal, naming the current assignment |
| `CancellationSteps.ApplyCancellationOk` | order-service/internal/order/cancellationrecovery.go:59-92 | Applying a withdrawal keeps the invariant of the rows |
| `CreationEffects.AdmittedExactly` | order-service/internal/order/creation.go:110-215 | A creation is admitted exactly for a positive reward, 5 minutes to a day to deliver and an expiry still to come, as a pending order that holds nothing |
| `CreationEffects.ClaimedExactly` | order-service/internal/order/creationrecovery.go:21-54 | A creation step is leased exactly if it is unresolved, unleased and due; an expired reserve becomes an abort in the same commit |
| `CreationEffects.DecidedExactly` | order-service/internal/order/creationrecovery.go:61-128 | A creation opens exactly on a matching hold read before its expiry, is rejected under the reason each observation names, and is aborted exactly if it was not refused by its expiry |
| `CreationEffects.StoredExactly` | order-service/internal/order/creationrecovery.go:97-166 | What the decision stores of the order, its facts, its lease and its next try |
| `AdmissionEffects.ProposedExactly` | order-service/internal/order/assignment.go:99-193 | A proposal is admitted exactly from another user above the reward while the order is free; it voids the courier's own open one, adds itself and touches nothing else |
| `AdmissionEffects.AcceptedFirstExactly` | order-service/internal/order/assignment.go:217-318 | An acceptance under a new key is admitted exactly from another user while the order takes couriers: as an attempt at the reward with its own offer, or retained as rejected, once, beside an unresolved attempt |
| `AdmissionEffects.AcceptedAgainExactly` | order-service/internal/order/assignment.go:240-256 | A used key admits nothing: it answers its one attempt, and is refused for another order |
| `AdmissionEffects.AcceptedOfferExactly` | order-service/internal/order/assignment.go:325-382 | Accepting a counteroffer answers with the attempt that already does, or begins one exactly on an open offer above the reward while the order is free |
| `AssignmentEffects.ClaimedExactly` | order-service/internal/order/assignmentrecovery.go:28-61 | An attempt's step is leased exactly if it is unresolved, unleased and due; one whose order has closed is due at once, as a revert |
| `AssignmentEffects.DecidedExactly` | order-service/internal/order/assignmentrecovery.go:65-170 | An attempt wins exactly on a read of its own applied offer while the order takes couriers, is rejected exactly once a read shows it undone, and is fenced exactly when the order has closed or Credit refused it |
| `AssignmentEffects.StoredExactly` | order-service/internal/order/assignmentrecovery.go:172-247 | A winner takes the order at its own price, a rejected attempt's offer is void or open again, and any other decision leaves the order and its offers alone |
| `AssignmentEffects.RetriedExactly` | order-service/internal/order/assignmentrecovery.go:97-118 | When an attempt is tried again, and that nothing else of it changes |
| `AssignmentEffects.WinnerClosesOffers` | order-service/internal/order/assignmentrecovery.go:201-247 | The winner's offer is the one newly accepted, and no offer stays open beside it |
| `CancellationEffects.StaleIsRefused` | order-service/internal/order/cancellation.go:121-192 | A cancellation that confirmed another revision is exactly a conflict, a stranger's is forbidden, and nothing is cancelled past what was confirmed |
| `CancellationEffects.CancelledExactly` | order-service/internal/order/cancellation.go:186-303 | A withdrawing courier joins their own withdrawal or begins it; whoever else may close the order closes it at once, leaving no offer open or being accepted, its attempt fenced and its withdrawal superseded; every other status refuses |
| `CancellationEffects.ClaimedExactly` | order-service/internal/order/cancellationrecovery.go:20-44 | A withdrawal's step is leased exactly if it is pending, unleased and due |
| `CancellationEffects.WithdrawnExactly` | order-service/internal/order/cancellationrecovery.go:59-105 | A withdrawal reopens its order, at its original price, exactly on a read that shows the original hold back |
| `ProgressEffects.PickedUpExactly` | order-service/internal/order/progress.go:25-87 | A pickup is exactly the assigned courier's, of an order that awaits it and is not being withdrawn from; a repeat changes nothing |
| `ProgressEffects.ReceivedExactly` | order-service/internal/order/progress.go:31-87 | A receipt is exactly the requester's, of a delivered order |
| `ProgressEffects.ExpiredExactly` | order-service/internal/order/expirytimers.go:56-112 | An order expires exactly if it still awaits a courier at its expiry, and leaves no offer open or being accepted |
| `ProgressEffects.TimedOutExactly` | order-service/internal/order/deliverytimers.go:62-130 | A delivery fails by the clock exactly twice its allowance after pickup with no confirmation pending |
| `ProgressEffects.DeliveredExactly` | order-service/internal/order/proofs.go:355-429 | A delivery is accepted exactly from the assigned courier before twice the allowance after pickup, at the instant it was received |
| `ProgressEffects.LocatedExactly` | order-service/internal/order/disposition.go:27-77 | Where an undelivered item is left is exactly its last courier's to say, of an order closed after pickup |
| `Encoding.StoredFactsEncodeExactly` | order-service/internal/outbox/encode.go:15-111 | A stored row, with its own revision, order and actor columns, encodes exactly if its fact is not stamped with the zero instant and, as an outcome, does not date the delivery before the pickup |
| `Encoding.CompletionEncodesExactly` | order-service/internal/order/proofs.go:394-403 | A delivery's outcome will encode exactly if the confirmation was received no earlier than pickup |
| `Encoding.MessagesTellTheRows` | order-service/internal/outbox/encode.go:26-111 | A status event repeats its fact and its actor, an outcome describes the order as it ended, and a warning names the courier and why |
| `DeliveryClock.ForwardClockNeverBlocks` | order-service/internal/outbox/encode.go:89-111 | Under one clock that never runs backwards from pickup on, and whatever identities were fenced before it, every fact of the order encodes in every reachable state |
| `DeliveryClock.CompletedEncodesExactly` | order-service/internal/outbox/encode.go:91-96 | A completed order's outcome encodes exactly if its accepted receipt was not dated before its pickup |
| `DeliveryClock.SkewBlocksOutcome` | order-service/internal/outbox/encode.go:91-96 | On every order that is being delivered, a receipt dated one second before pickup is admitted and accepted, the requester completes the order, and its outcome never encodes |
| `OrderTx.Tx.Apply` | order-service/internal/order/postgres.go:118-292 | Applies exactly one change of the locked revision that NewChange itself would build, with offers in their expected status; any refusal poisons the transaction |
| `OrderTx.Tx.ApplyAssigned` | order-service/internal/order/postgresassignment.go:254-283 | As Apply, and exactly for non-empty offer changes that are allowed to the attempt which owns the first offer being accepted or resolved; it looks that attempt up itself |
| `OrderTx.Tx.SaveCreation` | order-service/internal/order/postgrescreation.go:161-192 | Saves exactly one generation of unchanged intent; AbortPending can only become Rejected; a resolution needs its change of the order |
| `OrderTx.Tx.InsertAssignment` | order-service/internal/order/postgresassignment.go:165-226 | Inserts exactly a fresh attempt of the locked order, by its requester, or by its courier under the lock on that caller's keys |
| `OrderTx.Tx.SaveAssignment` | order-service/internal/order/postgresassignment.go:228-252 | Saves exactly one generation of an unresolved attempt with unchanged intent; RevertPending can only become Rejected |
| `OrderTx.Tx.InsertCancellation` | order-service/internal/order/postgrescancellation.go:148-177 | Inserts a cancellation of the locked order only |
| `OrderTx.Tx.SaveCancellation` | order-service/internal/order/postgrescancellation.go:179-213 | Saves exactly one generation of a pending cancellation with unchanged intent |
| `OrderTx.Tx.CommitAssignment` | order-service/internal/order/postgresassignment.go:22-40 | Commits exactly when nothing failed and every attempt that needs a change of its order came with one |
| `OrderTx.Tx.CommitCancellation` | order-service/internal/order/postgrescancellation.go:20-47 | Commits exactly when nothing failed and every changed cancellation or attempt came with a change of its order |
| `OfferChanges.ValidateOffers` | order-service/internal/order/assignmentpolicy.go:6-82 | Accepts exactly the offer changes that refer to stored offers and to the actor or attempt that owns them |
| `OfferChanges.DiffReaches` | order-service/internal/order/assignment.go:170-177 | The listed offer changes turn the stored offers into exactly the intended ones |
| `OfferPolicy.BeginsExactly` | order-service/internal/order/assignmentpolicy.go:43-56 | Beginning lets exactly one change through: the attempt's own offer into acceptance, new at the reward or the requester's choice of an open one |
| `OfferPolicy.ResolvesExactly` | order-service/internal/order/assignmentpolicy.go:57-66 | Resolving lets exactly one change through: the attempt's own offer voided, or open again after a lack of credits refused a counteroffer |
| `OfferPolicy.AwardsExactly` | order-service/internal/order/assignmentpolicy.go:67-78 | Assigning lets the attempt's own offer be accepted for its courier and amount and any other open one be voided, each once |
| `OfferPolicy.ProposesExactly` | order-service/internal/order/assignmentpolicy.go:36-42 | Proposing lets another user add their own offer above the reward and void their own open ones |
| `OfferPolicy.NothingUnowned` | order-service/internal/order/assignmentpolicy.go:84-86 | Without an attempt that owns it no offer is accepted, awarded or resolved |
| `OrderStore.Store.AdmitCreation` | order-service/internal/order/creation.go:110-166 | Admits a valid creation with its workflow and facts, or refuses and changes nothing |
| `OrderStore.Store.ClaimCreation` | order-service/internal/order/creationrecovery.go:21-54 | Leases one creation step, turning an expired reserve into an abort |
| `OrderStore.Store.ApplyCreation` | order-service/internal/order/creationrecovery.go:61-166 | Applies a worker's observation under its generation and phase, in one commit, keeping the rows' invariant |
| `OrderStore.Store.Advance` | order-service/internal/order/progress.go:37-87 | Pickup and receipt: a repeat writes nothing, a move stamps its own instant |
| `OrderStore.Store.Expire` | order-service/internal/order/expirytimers.go:56-112 | Expires an overdue order and voids its open and accepting offers, and no other |
| `OrderStore.Store.Timeout` | order-service/internal/order/deliverytimers.go:62-120 | Fails a delivering order past its deadline with no receipt pending, and otherwise changes nothing |
| `OrderStore.Store.RecordLocation` | order-service/internal/order/disposition.go:27-77 | Records where the item is, for its last courier after the order failed; a repeat writes nothing |
| `OrderStore.Store.MakeOffer` | order-service/internal/order/assignment.go:122-191 | Replaces the courier's own open proposal by a higher one than the reward |
| `OrderStore.Store.AcceptOrder` | order-service/internal/order/assignment.go:234-318 | Replays a retained key, retains at most one contention rejection, or begins the attempt with its offer and key in one commit |
| `OrderStore.Store.AcceptOffer` | order-service/internal/order/assignment.go:340-382 | Answers with the live attempt of the offer, or begins a new one |
| `OrderStore.Store.ClaimAssignment` | order-service/internal/order/assignmentrecovery.go:28-61 | Leases one step of the active attempt, turning it into a revert once the order is not open |
| `OrderStore.Store.ApplyAssignment` | order-service/internal/order/assignmentrecovery.go:65-118 | Applies a worker's observation under its generation and phase: assign, fence, resolve or wait |
| `OrderStore.Store.Cancel` | order-service/internal/order/cancellation.go:186-303 | Joins or begins a withdrawal, or cancels at once, superseding a withdrawal, fencing the active attempt and voiding offers |
| `OrderStore.Store.ClaimCancellation` | order-service/internal/order/cancellationrecovery.go:20-44 | Leases one reversal of a withdrawal that still matches its order |
| `OrderStore.Store.ApplyCancellation` | order-service/internal/order/cancellationrecovery.go:59-92 | Reopens the order exactly when the read confirms the reversal |
| `ReceiptSafety.RunAllOk` | order-service/internal/order/proofreceipts.go:92-212 | Every run of uploads, abandonments, clean-ups, receipts, timeouts and other actions keeps the evidence consistent and takes no fence, acceptance or finished receipt back |
| `ReceiptSafety.TimeoutExactly` | order-service/internal/order/deliverytimers.go:62-130 | The timer fails a delivering order exactly when the deadline has passed and no receipt is pending |
| `ReceiptSafety.DeliveredByOneReceipt` | order-service/internal/order/proofs.go:355-429 | At most one receipt is pending; an order is delivered by exactly one accepted receipt, at the instant it was received, before twice the delivery duration after pickup |
| `ReceiptSafety.EvidenceIsKept` | order-service/internal/order/postgresproofs.go:164-207 | The proofs of a pending receipt stay stored and verified, and those of an accepted one stay accepted |
| `ReceiptSafety.FencedForGood` | order-service/internal/order/postgresproofs.go:99-143 | A fenced upload identity is never revived and never attached |
| `ReceiptSafety.OnlyFencesBeforePickup` | order-service/internal/order/proofs.go:182-209 | Before pickup every step leaves at most more fences: no upload, receipt or confirmation, so that the runs of the four theorems above start from every state a pickup can find |
| `ReceiptSafety.CleanOk` | order-service/internal/order/proofcleanup.go:46-87 | One clean-up keeps every needed proof, and releases bytes for deletion only of a retired one |
| `ProofStore.Tables.SaveProofUpload` | order-service/internal/order/postgresproofs.go:99-143 | Inserts or renews an upload unless its identity is fenced |
| `ProofStore.Tables.AbandonProofUpload` | order-service/internal/order/postgresproofs.go:164-207 | Fences an identity and retires its upload unless its proof is accepted or reserved by a receipt |
| `ProofStore.Tables.AbandonUpload` | order-service/internal/order/proofs.go:182-209 | The courier's request to abandon, refused once the proof is accepted |
| `ProofStore.Tables.SaveProofConfirmation` | order-service/internal/order/postgresproofs.go:222-272 | Accepts exactly the inspected proofs of the pending receipt, stores the confirmation and finishes the receipt |
| `ProofStore.Tables.ConfirmDelivery` | order-service/internal/order/proofs.go:355-429 | Delivers the order with its evidence, all or nothing; recognizes an accepted repeat |
| `ProofStore.Tables.Receive` | order-service/internal/order/proofreceipts.go:92-174 | Admits one receipt at a time, before the deadline, on verified proofs or a confirmed outage; replays and joins come first |
| `ProofStore.Tables.Refuse` | order-service/internal/order/proofreceipts.go:189-212 | Ends a pending receipt as rejected, or superseded when the order moved on |
| `ProofStore.Tables.CleanOnce` | order-service/internal/order/proofcleanup.go:39-101 | Cleans the candidates in turn and stops at the first error |
| `ProofStore.SweepIsSafe` | order-service/internal/order/proofcleanup.go:39-101 | A sweep deletes only bytes of proofs that are retired and stay retired |
| `ReceiptEffects.ReceivedExactly` | order-service/internal/order/proofreceipts.go:92-174 | A confirmation is admitted exactly from the assigned courier in time, on verified proofs of the current scope or with none in a confirmed outage; an accepted or pending one answers its own repeat and refuses any other |
| `ReceiptEffects.AcceptedExactly` | order-service/internal/order/proofs.go:355-429 | A pending confirmation is accepted exactly while its order is under way and every proof is still the one inspected; the order is delivered at the instant it was received, with its proofs attached |
| `ReceiptEffects.FinishedExactly` | order-service/internal/order/proofs.go:355-429 | An accepted receipt answers its repeat; any other finished one is refused |
| `ReceiptEffects.RefusedExactly` | order-service/internal/order/proofreceipts.go:189-212 | A receipt that cannot be accepted ends superseded exactly when its order has moved on, and rejected otherwise |
| `UploadEffects.UploadedFirstExactly` | order-service/internal/order/proofs.go:71-180 | A new upload is granted exactly while its courier may deliver, its name is not fenced and fewer than twenty are in progress, for ten minutes or until its credential ends |
| `UploadEffects.UploadedAgainExactly` | order-service/internal/order/proofs.go:71-180 | A known name keeps its one row: a live grant is answered again, an expired one renewed, another file or scope refused |
| `UploadEffects.VerifiedExactly` | order-service/internal/order/proofs.go:214-265 | An upload is verified exactly while its courier may deliver and it is still the file inspected; the first instant stays |
| `UploadEffects.AbandonedExactly` | order-service/internal/order/proofs.go:182-209 | Any name may be given up exactly unless its upload is accepted or named by the pending confirmation, and stays fenced |
| `UploadEffects.CleanedExactly` | order-service/internal/order/proofcleanup.go:46-87 | A clean-up leaves an upload alone exactly while somebody may need it; its bytes are to be deleted exactly once its quarantine is over |
| `OutboxSafety.FactsArriveInOrder` | order-service/README.md:155-157 | With any number of relays, expired leases, failures and lost acknowledgements, first publications of an order follow (revision, ordinal) |
| `OutboxSafety.NoFactIsSkipped` | order-service/internal/outbox/relay.go:43-82 | A fact is marked published only if the broker has it and every earlier fact of its order is marked |
| `OutboxSafety.DrainAttemptsOnce` | order-service/internal/outbox/relay.go:43-55 | No Drain claims one fact twice, whatever other relays do meanwhile, as long as no claim reads the clock 30 seconds, and no deferral 2 seconds, before the instant its batch was frozen at |
| `OutboxSafety.EligibleAgainExactly` | order-service/database/query/relay.sql:1-18 | Right after a claim or a deferral the fact is eligible for its batch again exactly if the reading was at least 30 seconds, or 2 seconds, behind the batch's instant |
| `OutboxSafety.SetBackAttemptsTwice` | order-service/internal/outbox/relay.go:43-70 | With the clock set back by ten seconds inside a batch, one Drain claims the fact it has just deferred again |
| `OutboxSafety.DrainDoesExactly` | order-service/internal/outbox/relay.go:43-82 | One Drain attempts no fact twice, marks exactly the facts the broker accepted under a lease that still held, defers the refused ones and goes on, logs the accepted ones in order, touches no other fact, ends early only at a fact that cannot be claimed or an attempt that is left, and returns an error exactly if a publication was refused, a lease was lost or the database or context failed |
| `OutboxSafety.Relay.Drain` | order-service/internal/outbox/relay.go:43-82 | The bounded loop leaves the box, the attempts and the joined error of the batch on values |
| `OutboxFeed.RowsCommitInOrder` | order-service/internal/order/postgres.go:270-288 | Storing an order's rows in the order its changes wrote them always meets the outbox's rule that a new row comes after every stored one of its order |
| `OutboxEffects.ClaimsExactly` | order-service/database/query/relay.sql:1-11 | A claim takes exactly the first outstanding fact of an order that is not leased at its batch's instant, for thirty seconds |
| `OutboxEffects.FinishesExactly` | order-service/database/query/relay.sql:13-18 | A fact is marked exactly under the claim's own running lease after the broker's acknowledgement, and put off by two seconds exactly under its own lease |
| `OutboxEffects.NeverStuck` | order-service/database/query/relay.sql:1-11 | While a fact of an order is outstanding one of them can be claimed, by any batch frozen once that one's lease is over |
| `ChatProjection.NewestWins` | communication-service/internal/chat/projection.go:14-18 | After any repeated and reordered delivery the copy is that of the highest revision delivered |
| `ChatProjection.CopyShowsOrder` | communication-service/internal/chat/projection.go:28-55 | Once an order's latest status fact has arrived, the copy shows the order's present status, requester and courier, whatever else was delivered about it or any other order, in whatever order and how often |
| `ChatProjection.Projection.Apply` | communication-service/internal/chat/projection.go:30-55 | Stores the participants of one status change unless the copy is as new or newer |
| `Timers.EveryOrderIsTried` | order-service/internal/order/lifecycletimers.go:78-171 | floor(n/50) + 1 scans over n overdue orders discover each one and attempt it exactly if its retry time has passed, whichever attempts fail |
| `Timers.AlwaysPaced` | order-service/internal/order/lifecycletimers.go:136-140 | Retry delays stay between one and thirty seconds |
| `Timers.PacedExactly` | order-service/internal/order/lifecycletimers.go:131-140 | A failed attempt waits a second, then twice as long each time up to thirty; a successful one is forgotten; an order not tried keeps its pace |
| `Timers.SweepForgets` | order-service/internal/order/lifecycletimers.go:155-169 | After a full sweep the retry map holds only orders found overdue in it, none marked seen |
| `Timers.Scanner.ScanOnce` | order-service/internal/order/lifecycletimers.go:78-171 | One scan moves the cursor and the retry map as the scan on values does |
| `RetryKeys.Desk.Create` | order-service/internal/order/creation.go:46-166 | A keyed creation: replay, payload conflict, forgetting an expired resolved key, or admission with its key |
| `RetryKeys.Desk.MakeOffer` | order-service/internal/order/assignment.go:122-191 | A keyed proposal: replay while live or accepting, payload conflict, or a new offer with its key |
| `RetryKeys.Desk.Cancel` | order-service/internal/order/cancellation.go:121-303 | A keyed cancellation: the payload is compared before the order is loaded, a retained operation answers before today's checks |
| `RetryKeySafety.KeysDescribe` | order-service/internal/order/idempotency.go:37-46 | In every reachable state each kept key describes its resource, and no order was created under two keys |
| `RetryKeySafety.CreateKeyNamesOneOrder` | order-service/internal/order/postgrescreation.go:44-71 | Until it expires, and while its creation is unresolved, a Create key answers its one order, admits nothing new, and refuses another payload |
| `RetryKeySafety.CreateAdmitsExactly` | order-service/internal/order/postgrescreation.go:65-70 | A retained Create key admits a new order exactly when its creation is resolved and it has expired |
| `RetryKeySafety.CancelKeyIsForever` | order-service/internal/order/cancellation.go:166-185 | A Cancel key answers its one operation in every later state and refuses another order or reason |
| `RetryKeySafety.OfferKeyNamesOneOffer` | order-service/internal/order/assignment.go:127-150 | As long as it is called before it expires or while its offer is being accepted, a MakeOffer key answers its one offer, whatever became of it, and refuses another price |
| `RetryKeyEffects.CreatedFirstExactly` | order-service/internal/order/creation.go:46-166 | A Create under a new key admits its order exactly on a sound request and keeps the key for a day |
| `RetryKeyEffects.CreatedAgainExactly` | order-service/internal/order/creation.go:217-259 | A kept Create key answers its order until it is a day old and while that creation is unresolved; only then is it forgotten |
| `RetryKeyEffects.ProposedFirstExactly` | order-service/internal/order/assignment.go:122-191 | A proposal under a new key is the proposal itself, and its key is kept for a day |
| `RetryKeyEffects.ProposedAgainExactly` | order-service/internal/order/assignment.go:127-150 | A kept MakeOffer key makes a new offer exactly once it is a day old and its offer is not being accepted |
| `RetryKeyEffects.CancelledFirstExactly` | order-service/internal/order/cancellation.go:121-303 | A cancellation under no key or a new one is the cancellation itself, and its key is kept for good |
| `RetryKeyEffects.StaleRevisionConflicts` | order-service/internal/order/cancellation.go:186-192 | A participant who confirmed another revision gets exactly Conflict, and every order and key stays as it was |

## Left out

- OutboxSafety.DrainDoesExactly: describes one batch that no other relay interrupts and in which no deferral reads the clock 2 seconds before the batch's instant; the other theorems about the outbox interleave relays freely.
- OutboxSafety.Relay.Drain: a claim takes any eligible fact rather than the oldest, because the query skips locked rows; only the order within one order's facts is promised. The joined error is a yes or no, and a cancelled context or a failing database is one broken turn of the plan.
- DeliveryClock.ForwardClockNeverBlocks: assumes one clock for pickup and receipts, where the services sample the process clock and the database clock.
- Timers.Scanner.ScanOnce: failures are settled in the order of the page, while the worker pool reports them in any order; cancellation of the scan half way and a failed discovery, which changes nothing, are not modelled.
- RetryKeySafety.CreateAdmitsExactly: the rate limit, the look-ups and the switch that disables creation may still refuse a call that this model admits; of the code only "admits only if" holds.
- RetryKeys.Desk.Create: has no rate limit, look-ups, images or switch that disables creation; each of them can only refuse a call.
- OrderStore.Store.AdmitCreation: has no retry key, which is modelled in RetryKeys, and no rate limit, images or look-ups.
- OrderStore.Store.MakeOffer: has no retry key, which is modelled in RetryKeys.
- OrderStore.Store.Cancel: has no retry key, which is modelled in RetryKeys.
- OrderTx.Tx.Apply: changes stored orders; the insertion of a new one is part of AdmitCreation, and the audit and history rows written beside the facts are not modelled.
- ChatProjection.Projection.Apply: identifiers are well formed, and the pickup's name is not part of the copy.
- Integers are unbounded: no overflow of 64-bit amounts, revisions or generations.
- Creation, update and settlement timestamps of Credit rows, timestamps of offers, and the schema checks that compare them.
- SQL text, isolation below one atomic transaction per order lock, and error mapping of the driver.
- UUID parsing, Unicode and trimming rules, JSON, SHA-256, and the details carried by audit entries.
- The rate limit on creations, item images, supplier look-ups and location snapshots, which are one opaque field of the order.
- In the composition, Create, MakeOffer and Cancel run without retry keys; the keys are modelled in front of the same operations instead.
- The administrator's Unassign, which is in the lifecycle table but which no operation performs.
- Signing and inspecting uploads, image decoding, upload grants, the hourly budget of upload identities, and how an outage is established: an outage is a given yes or no.
- Pacing and alerts of receipt retries, and confirming a delivery without stored receipts, which the production repository does not use.
- Random jitter beyond its bound, wall-clock latency, and the diagnostics of a workflow's last error.
- Malformed status events in the chat projection, which are logged and skipped.
- Kafka and RPC transports, HTTP routing, authentication, reviews, suppliers, Telegram and pagination.
