# Money engine: model and proofs

A Dafny model of the billing engine under `apps/api/src`: the double-entry ledger, the credit
balance, payment and credit refunds, chargebacks and disputes, webhook de-duplication, Solana
settlement, the two gateway adapters and the subscription lifecycle. The engine promises that
money moves exactly once although every flow mixes a gateway call, a database transaction, a
credits transaction that commits by itself inside it, and a status write at the end, any of
which can fail, be repeated or overlap with another call. The project says for each promise
whether the code keeps it over every interleaving, and where it does not, under exactly what
condition it does.

## How it is put together

Values and services:

- `Keys`: the idempotency keys as strings, and that they never collide.
- `Ledger`, `Credits`, `Gateways`, `Subscriptions`: what postings, credit rows, gateway logs and
  subscription rows mean as values, lemmas about those meanings, and the source's service as a
  class that changes its fields in place and is proved against them.
- `Tables`, `RefundsService`, `DisputesService`, `WebhookControllers`: the remaining services as
  classes over shared tables. Each method is one call that nothing overlaps, with any set of its
  statements throwing; what it leaves is given by a function in `RefundCalls`, `DisputeCalls` or
  `DeliveryCalls`, and that function is proved to be what the engine's steps arrive at, whatever
  calls there were before. Calls one after the other are therefore one run of the engine (`Calls`):
  the tables are valid when some run ends in them, every method keeps that, and so every theorem
  about runs holds of them (`Tables.TablesRefundExactlyOnce` and the two after it).
- `Receipts`: what each of those calls has written when it succeeds and when it fails, spelled out row
  by row in the accounts, keys, users and amounts that its caller and the stored row name.

The engine:

- `Engine`: a machine of small steps. A state is the committed rows, the gateways' own memory, the
  rows and unique keys that open transactions hold, and any number of calls, each with a program
  counter, the row it read and the rows it has not committed yet. A step runs one call to its next
  await; `FailCall` makes the awaited statement throw; `LoseAnswer` makes a commit that took effect
  look failed to its caller; `Crash` ends a call anywhere; `Spawn` starts a call, again if need be.
  `Run` is any sequence of these.
- `Invariant`, `Steps`, `Commits`, `Machine`: the inductive invariant and that every action keeps it.
- `Once`: when a credits key is written at most once. `Totals`, `Reconcile`: what the postings of one
  source, and of all, add up to. `Theorems`: what holds over every run.
- `Provenance`: in every reachable state every committed row says, field by field, what a started call or
  a request asked for, and every applied delivery has its effects.
- `Effects`: which rows one statement can change. `Reviews`, `Refinement`: a run of a payment refund
  refines review, pay, book, finish exactly when its reviews are in time. `Deliveries`: failed
  deliveries converge on one success. `Serial`: disputes whose calls do not overlap. `Outcomes`:
  disputes whose calls do. `Progress`: an approved refund can always be finished.
- `Overlaps`, `WonGrants`: what overlap breaks in the credits, and under what condition it does not.
  `Witnesses`: for each broken promise a run from an initial state that breaks it.

A first reading: `Engine`, then the statements in `Theorems`, `Provenance`, `Receipts`, `Refinement`,
`Outcomes`, `WonGrants` and `Witnesses`.

## What is taken for granted

- Read Committed isolation. An insert that meets a unique key an open transaction has inserted, or an
  update of a row one has updated, waits until that transaction ends; the insert then fails if the
  key was committed. A transaction is not aborted by a timeout while its inner credits call runs.
- `refundCharge` of a gateway adapter has no await inside and is one step; its memory survives every
  failure of the database.
- Ids that the code draws at random are given by the environment and are not in use yet.
- Account rows are named by their unique pair of user and type, and a posting is committed in one step
  from its entries. The database holds the balance rows of a posting until its transaction ends; the
  engine does not, which only adds interleavings to what is proved about safety. `Progress` cannot
  use that freedom: it asks that no other call be in its ledger transaction on an account the refund
  needs, and ends those that are, besides those that hold the request's row, key or credits row.
- A commit either takes effect or not, and its caller may be told that it failed although it did.
- A credits key is looked up among committed rows, then the balance row is locked, then log row and
  balance are committed together. The lookup and the lock are separate steps for grants as well.
- Credits may start from an opening balance without log rows (`apps/api/prisma/seed.ts:141-148`).

## Where the code and its documentation differ

The model follows the code.

- The repository's `README.md:86` and `docs/SOLUTION.md:281` give the credits key of a payment refund as
  `refund_deduct_{id}`; the code uses `refund_{id}`, the same form as a CREDITS refund's grant. The two
  never meet, because a request has one type (`Keys.CreditKeysSeparate`, `Theorems.RefundFacts`).
- `apps/api/src/billing/credits.service.ts:14-15` says a lookup inside the transaction prevents two
  concurrent replays from both granting. It does not: `Overlaps.CreditsRefundCanBeGrantedTwice` and
  `Overlaps.PurchaseUnderTwoEventsCanBeGrantedTwice` are runs in which both grant. The exact condition is
  that no two calls are past the lookup together (`Once.SingleKeyIsUsedOnce`,
  `Overlaps.TwoPastTheLookupBothWrite`, `Overlaps.TwoDeductionsBothWrite`). Payment refunds, chargebacks,
  confirmations and deliveries under one event id are saved by a row or key they hold around the credits
  call (`Once.PolicedKeyIsUsedOnce`). A WON outcome and a `charge.refunded` event under two ids are not:
  a WON outcome that finds its posting there holds nothing. Its grant is written once as long as no
  credits call of a WON outcome on the dispute throws (`WonGrants.WonGrantsOnce`), and
  `Witnesses.WonDisputeCanBeGrantedTwice` is a run in which one throws. A refunded charge is deducted once
  per event id (`WonGrants.RefundedChargeDeductsOnce`); under two ids it is deducted twice exactly when
  the balance covers both (`Witnesses.RefundedUnderTwoEvents`).
- The repository's `README.md:24` and `docs/architecture.md:126` call credits atomic with the refund or chargeback. They
  commit by themselves and outlive a rollback (`Overlaps.DeductionSurvivesRollback`). A call leaves its
  deduction without its refund or dispute exactly when the commit after a granted deduction throws
  (`RefundCalls.DeductionWithoutBooking`, `DeliveryCalls.DeductionWithoutDispute`), and such a state is
  reached (`Witnesses.DeductionCanBeAllThatIsLeft`). The key makes the retry safe.
- `docs/SOLUTION_DIAGRAMS.md:166` keys the chargeback's deduction by the gateway dispute id; the code
  keys it by the transaction id.
- `docs/SOLUTION.md:98` and `:300` say a refund whose final status update fails has that error recorded and
  the attempt counted. The update stands after the error handler (`refunds.service.ts:215`), so neither
  happens (`RefundCalls.FailedStatusUpdateIsNotCounted`). An attempt is counted exactly when it failed
  before that update and the count itself could be written (`RefundCalls.AttemptIsCounted`).
- The status checks of `approveRefund`, `denyRefund`, `setOutcome` and `attachEvidence` are not held until
  their writes. A request keeps to review, pay, book, finish, and a dispute keeps its status matched with
  its postings, exactly in the runs in which every such write is in time: it finds the row as its check
  wants it, or already decided the same way (`Refinement.RunRefinesAtomicRefund`,
  `Outcomes.LawfulExactlyWhenInTime`; one write at a time in `Refinement.LateReview`, `Outcomes.LateOutcome`
  and `Outcomes.LateEvidence`). A request can end DENIED with its money moved, a LOST dispute can reopen, and
  one dispute can be won and lost (`Witnesses.RefundCanBeDeniedAfterPaying`, `LostDisputeCanReopen`,
  `DisputeCanBeWonAndLost`).
- The comment at `apps/api/src/gateways/authorize-net/authorize-net-webhook.controller.ts:47` lists a grant of
  credits for `subscription.created` and `subscription.renewed`; the code grants none.
- The adapter's "already refunded" branch is commented as returning the existing refund id; it returns
  another one (`Gateways.SecondKeyOnOneCharge`).

## Model

| member | source | states |
|---|---|---|
| Keys.LedgerKeysSeparate | apps/api/src/disputes/disputes.service.ts:221-308 | As strings built from arbitrary ids, the four forms of ledger key are injective and never equal across sources |
| Keys.CreditKeysSeparate | apps/api/src/gateways/authorize-net/authorize-net-webhook.controller.ts:184-322 | The credit key forms are injective and disjoint but for the one form that a CREDITS and a PAYMENT request share |
| Keys.DisputeKeysSeparate | apps/api/src/gateways/authorize-net/authorize-net-webhook.controller.ts:260 | Two chargebacks are filed under one dispute id only if they name one charge |
| Ledger.TrialBalance | apps/api/src/billing/ledger.service.ts:17-30 | In sound books the ASSET and EXPENSE balances add up to the LIABILITY, REVENUE and EQUITY balances |
| Ledger.SumPost | apps/api/src/billing/ledger.service.ts:168-199 | Posting any entries, accounts repeated or not, parts the two sides of the trial balance by debits less credits |
| Ledger.EnsureSound | apps/api/src/billing/ledger.service.ts:41-66 | Creating an account row keeps the books sound and changes no balance |
| Ledger.AppendSound | apps/api/src/billing/ledger.service.ts:146-204 | A balanced posting under a new key keeps every balance the fold of its entries and all keys unique |
| Ledger.MirrorRestores | apps/api/src/disputes/disputes.service.ts:184-222 | Any valid entry list followed by its debit/credit mirror restores every balance |
| Ledger.LedgerService.GetOrCreateAccount | apps/api/src/billing/ledger.service.ts:41-66 | The account is there afterwards, with balance zero if it is new, and nothing else changes |
| Ledger.LedgerService.FindByKey | apps/api/src/billing/ledger.service.ts:105-114 | Finds a transaction under a key exactly when there is one |
| Ledger.LedgerService.CheckEntries | apps/api/src/billing/ledger.service.ts:116-137 | Accepts exactly the lists of at least two positive entries with equal totals, and names the first rule another one breaks |
| Ledger.LedgerService.ExecuteRecord | apps/api/src/billing/ledger.service.ts:146-204 | Posts all entries, or those before the first missing account and fails |
| Ledger.LedgerService.RecordTransaction | apps/api/src/billing/ledger.service.ts:96-144 | A known key answers from the books; otherwise a valid list is posted once and an invalid one changes nothing; alone it rolls back a failure midway |
| Credits.ApplySound | apps/api/src/billing/credits.service.ts:58-72 | A covered change keeps every balance non-negative and equal to opening plus log |
| Credits.CreditsService.GetBalance | apps/api/src/billing/credits.service.ts:27-30 | Zero for a user without a row, the row otherwise; over sound rows never negative and the opening balance plus all the user's log rows |
| Credits.CreditsService.FindByKey | apps/api/src/billing/credits.service.ts:47-51 | Finds a log row under a key exactly when there is one |
| Credits.CreditsService.Grant | apps/api/src/billing/credits.service.ts:44-75 | What adding and refunding share: one row per key, the balance up by the amount, log and balances in agreement |
| Credits.CreditsService.AddCredits | apps/api/src/billing/credits.service.ts:36-79 | Grants once per key, refuses amounts that are not positive, keeps balances and log in agreement |
| Credits.CreditsService.DeductCredits | apps/api/src/billing/credits.service.ts:85-143 | Deducts once per key and only what the balance covers; refuses and changes nothing otherwise |
| Credits.CreditsService.RefundCredits | apps/api/src/billing/credits.service.ts:149-190 | Grants a REFUND row once per key |
| Gateways.AdapterRefinesWriteOnce | apps/api/src/gateways/gateway.interface.ts:34-45 | Both adapters refine one write-once map from key to first answer, the already-refunded branch included |
| Gateways.LogIsWriteOnce | apps/api/src/gateways/solana/solana.gateway.ts:77-102 | Over any calls the refund log never loses or changes an entry |
| Gateways.RefundOncePerKey | apps/api/src/gateways/authorize-net/authorize-net.gateway.ts:82-117 | Every later use of a key returns what its first use returned, with the first amount |
| Gateways.SecondKeyOnOneCharge | apps/api/src/gateways/authorize-net/authorize-net.gateway.ts:94-104 | A second key on a refunded charge gets another id, except when the random suffix is the charge id, and is refunded in full again |
| Gateways.RegisteredThenRefundedTwice | apps/api/src/gateways/authorize-net/authorize-net.gateway.ts:82-134 | Any charge registered and then refunded under two keys: each answer with its id and its own amount, both logged, and the charge REFUNDED |
| Gateways.AuthorizeNetGateway.RefundCharge | apps/api/src/gateways/authorize-net/authorize-net.gateway.ts:82-117 | A used key is answered from the log and changes nothing; a new one is logged with its amount under a fresh id, or the charge's if that was REFUNDED, and the charge is REFUNDED |
| Gateways.AuthorizeNetGateway.RegisterCharge | apps/api/src/gateways/authorize-net/authorize-net.gateway.ts:123-134 | The charge is there with its amount and status OK, and the refund log is left alone |
| Gateways.SolanaGateway.RefundCharge | apps/api/src/gateways/solana/solana.gateway.ts:82-102 | The same with an id that is always fresh |
| Gateways.SolanaGateway.RegisterCharge | apps/api/src/gateways/solana/solana.gateway.ts:107-113 | The charge is there with its amount and status CONFIRMED, and the refund log is left alone |
| Subscriptions.LifecycleSound | apps/api/src/billing/subscriptions.service.ts:40-160 | Over any serial calls a CANCELED row is on BASIC, dated and not pending, and an ACTIVE one undated |
| Subscriptions.OnlyTheGatewayRevives | apps/api/src/billing/subscriptions.service.ts:40-160 | A canceled subscription stays so until a gateway event for its user |
| Subscriptions.LastEventDecides | apps/api/src/billing/subscriptions.service.ts:40-160 | Over any serial calls the plan, period and gateway row are those of the last gateway event for the user, and the row is ACTIVE unless canceled at once after it |
| Subscriptions.NoEventNoRow | apps/api/src/billing/subscriptions.service.ts:40-160 | A user without a gateway event has no subscription |
| Subscriptions.LateCancelWrite | apps/api/src/billing/subscriptions.service.ts:99-110 | A checked cancellation that writes late keeps the row consistent exactly when the row is not CANCELED by then |
| Subscriptions.SubscriptionsService.CreateOrUpdateFromGateway | apps/api/src/billing/subscriptions.service.ts:40-97 | The row is ACTIVE on exactly the passed plan and period, thirty days from now where the event gives none, without cancellation, and has the passed gateway row; nobody else's rows change |
| Subscriptions.SubscriptionsService.CancelAtPeriodEnd | apps/api/src/billing/subscriptions.service.ts:99-110 | Marks the row and nothing else, or is refused for a missing or canceled one |
| Subscriptions.SubscriptionsService.CancelImmediately | apps/api/src/billing/subscriptions.service.ts:119-144 | The row is CANCELED on BASIC as of now, its period kept; an unknown user changes nothing |
| Subscriptions.SubscriptionsService.Reactivate | apps/api/src/billing/subscriptions.service.ts:146-160 | Undoes a pending cancellation of an ACTIVE row only |
| Machine.AdvanceGood | apps/api/src/gateways/authorize-net/authorize-net-webhook.controller.ts:93-110 | Every single statement of every kind of call, overlapped in any way, keeps the invariant |
| Machine.ThrowGood | apps/api/src/refunds/refunds.service.ts:197-213 | So does every statement that throws, with what the handlers around it then do |
| Machine.DoGood | apps/api/src/gateways/authorize-net/authorize-net-webhook.controller.ts:93-110 | Every action of any call, failures and deaths included, keeps the invariant, and no committed row or gateway entry is lost or changed |
| Machine.Reachable | apps/api/src/refunds/refunds.service.ts:181-364 | The invariant holds at the end of every run |
| Machine.ReachableFrom | apps/api/src/refunds/refunds.service.ts:181-364 | From any sound state, every run keeps the invariant and only adds to what is committed |
| Theorems.LedgerAlwaysBalances | apps/api/src/billing/ledger.service.ts:17-30 | In every reachable state the books are sound and the trial balance is zero |
| Theorems.CreditsAlwaysReconcile | apps/api/src/billing/credits.service.ts:46-139 | In every reachable state no credit balance is negative and each is its opening balance plus its log |
| Theorems.RefundMoved | apps/api/src/refunds/refunds.service.ts:310-341 | A request has moved test-admin-1's REVENUE and its user's ASSET by its amount once if it carries a paymentRefundId, and nothing otherwise |
| Theorems.RefundFacts | apps/api/src/refunds/refunds.service.ts:233-286 | A deduction under a request's key means a PAYMENT request its gateway refunded; a grant means a CREDITS request |
| Theorems.RefundDeductsOnce | apps/api/src/refunds/refunds.service.ts:337-353 | A payment refund's deduction is written at most once over any interleaving, because the row update before it serialises the calls |
| Theorems.PaymentRefundIsExactlyOnce | apps/api/src/refunds/refunds.service.ts:255-364 | However many calls overlap, fail, die and are repeated on a PAYMENT request, its money moves once or not at all, with ledger, gateway log, id, status and deduction in agreement |
| Theorems.PaymentRefundIdIsWriteOnce | apps/api/src/refunds/refunds.service.ts:263-271 | Once set, paymentRefundId never changes and stays the id the gateway logged |
| Theorems.CreditRefundGrants | apps/api/src/refunds/refunds.service.ts:228-241 | A CREDITS request touches neither ledger nor gateway and is PROCESSED only with a grant of exactly its amount |
| Theorems.OneDisputePerCharge | apps/api/src/disputes/disputes.service.ts:54-93 | A charge has at most one dispute |
| Theorems.ChargebackIsExactlyOnce | apps/api/src/gateways/authorize-net/authorize-net-webhook.controller.ts:255-346 | Over replays, different event ids, unique-key losers and rollbacks: one dispute, one reversal of its amount that it names, none without a dispute, at most one deduction |
| Theorems.DisputeNeverCreatesMoney | apps/api/src/disputes/disputes.service.ts:161-325 | Even with WON racing LOST racing evidence, test-admin-1's REVENUE is down by the amount or unchanged, never up, and EXPENSE is zero or one fee |
| Theorems.SolanaSettlesOnce | apps/api/src/gateways/solana/solana-confirmation.controller.ts:68-149 | Credits and charge record of a hash are written at most once, exactly once if it is settled, and it stays settled |
| Theorems.ShallowConfirmationDoesNothing | apps/api/src/gateways/solana/solana-confirmation.controller.ts:59-66 | A confirmation below the required depth changes no row and ends |
| Provenance.EveryRowWasAskedFor | apps/api/src/gateways/authorize-net/authorize-net-webhook.controller.ts:115-351 | In every reachable state each refund request, dispute, credit row, ledger transaction and charge record has the user, amount, accounts, kind and key that a started call or a request asked for, and each id in the table of deliveries was delivered and has its effects |
| Provenance.LostFeeWasAskedFor | apps/api/src/disputes/disputes.service.ts:268-309 | What a lost dispute moves to EXPENSE and from its user's ASSET is the fee of a setOutcome call that asked for LOST |
| Provenance.SolanaSettlesAsConfirmed | apps/api/src/gateways/solana/solana-confirmation.controller.ts:59-149 | The credits and the charge record of a hash have the user and amount of confirmations of it that were deep enough |
| Provenance.OnlyNamedChargesAreRefunded | apps/api/src/refunds/refunds.service.ts:279-298 | A charge becomes REFUNDED at a gateway only for a payment request that names both, logged under its key for its full amount |
| Once.SettleClean | apps/api/src/billing/credits.service.ts:46-75 | The step that writes a key keeps it exactly-once if and only if no other call is past the lookup with it |
| Once.SingleKeyIsUsedOnce | apps/api/src/billing/credits.service.ts:13-15 | In any run in which no two calls are past the lookup of a key together, the key is written at most once |
| Once.PolicedKeyIsUsedOnce | apps/api/src/billing/credits.service.ts:94-139 | It is enough that all callers of a key hold one common row or key around their credits call |
| Totals.SourceMoves | apps/api/src/billing/ledger.service.ts:105-115 | A source's postings add up to its one transaction |
| Totals.WonUndoesReversal | apps/api/src/disputes/disputes.service.ts:198-222 | Chargeback and then WON restore every balance |
| Totals.LostKeepsReversal | apps/api/src/disputes/disputes.service.ts:284-309 | Chargeback and then LOST differ from before by the reversal and the fee only |
| Reconcile.BalancesAreTheSumOfRows | apps/api/src/billing/ledger.service.ts:96-204 | Conservation: in every reachable state each account balance is the sum of what the refund and dispute rows say, and nothing else moves it |
| Reconcile.OtherAccountsStayEmpty | apps/api/src/billing/ledger.service.ts:37-66 | A LIABILITY or EQUITY account, and a REVENUE or EXPENSE account of anyone but test-admin-1, stays at zero in every reachable state |
| Effects.ThrowIsSilent | apps/api/src/gateways/authorize-net/authorize-net-webhook.controller.ts:93-110 | A statement that throws leaves every committed row and gateway as it was |
| Effects.StepIsOwned | apps/api/src/refunds/refunds.service.ts:255-364 | One statement changes only rows of its own job, and never rows and a gateway together |
| Reviews.UndecidedMeansUntouched | apps/api/src/refunds/refunds.service.ts:141-189 | In any run in which the request's reviews are in time, a PENDING or DENIED request has had no effect at all and no call past its status check |
| Reviews.AtomicReviewsAreTimely | apps/api/src/refunds/refunds.service.ts:141-176 | Runs in which every review reads and writes in one action meet that condition |
| Reviews.NoApprovalNoEffect | apps/api/src/refunds/refunds.service.ts:141-189 | In any run in which nobody approves a request, however often it is processed, it stays PENDING or DENIED and nothing is done for it anywhere |
| Refinement.RunRefinesAtomicRefund | apps/api/src/refunds/refunds.service.ts:181-222 | Over every run, with any calls and reviews: at every action a PAYMENT request stays where it is or takes the one next step of review, pay, book, finish, if and only if every review that writes it is in time |
| Refinement.LateReview | apps/api/src/refunds/refunds.service.ts:141-176 | A review that writes late keeps its request inside that specification exactly when the row is still PENDING or already decided the same way |
| Refinement.RankNeverDecreases | apps/api/src/refunds/refunds.service.ts:263-301 | In a run whose reviews of the request are in time, gateway paid, refund booked, status PROCESSED are never undone, across failures and retries |
| Refinement.ProcessedIsOneAtomicRefund | apps/api/src/refunds/refunds.service.ts:243-254 | A run whose reviews of the request are in time and that leaves it PROCESSED leaves the effect of one failure-free refund; an undecided one has none |
| Deliveries.UncommittedDeliveryLeavesOnlyCredits | apps/api/src/gateways/authorize-net/authorize-net-webhook.controller.ts:85-112 | In any run, other calls between its steps included: as long as a delivery's id is not committed, each of its steps has committed nothing but credits under its own key |
| Deliveries.DeliveriesConverge | apps/api/src/gateways/authorize-net/authorize-net-webhook.controller.ts:175-214 | Any number of failed and repeated deliveries of one charge.approved event, then a success, leave the credits and charge record of one success |
| Serial.OutcomeMatchesStatus | apps/api/src/disputes/disputes.service.ts:161-325 | With calls on a dispute serialised, a resolved dispute has exactly the outcome posting of its status and an unresolved one none, across rollbacks |
| Serial.StatusOnlyMovesUp | apps/api/src/disputes/disputes.service.ts:15-28 | Serialised, WON and LOST are absorbing and the status moves only up before |
| Serial.SerialDisputeMoves | apps/api/src/disputes/disputes.service.ts:174-267 | Serialised, a WON dispute has moved no account in the end, a LOST one the reversal and one fee, an open one the reversal |
| Serial.SerialWonGrantsOnce | apps/api/src/disputes/disputes.service.ts:224-241 | Serialised, winning a dispute grants its credits at most once even if credits calls throw |
| Serial.SerialCreditsRefundGrantsOnce | apps/api/src/refunds/refunds.service.ts:228-241 | A CREDITS request whose process calls do not overlap is granted at most once, and exactly once if PROCESSED |
| Progress.OneCallProcesses | apps/api/src/refunds/refunds.service.ts:181-222 | With the rows it waits for free, account rows included, one uninterrupted call takes an approved request to PROCESSED in ten statements |
| Progress.ApprovedRefundCanFinish | apps/api/src/refunds/refunds.service.ts:181-271 | From any reachable state, after ending the calls that hold a row the refund waits for, account rows included, one processRefund call finishes an approved request, both recovery paths included |
| Overlaps.TwoPastTheLookupBothWrite | apps/api/src/billing/credits.service.ts:46-72 | Two grants past the lookup of one key are both written if they just go on |
| Overlaps.TwoDeductionsBothWrite | apps/api/src/billing/credits.service.ts:94-139 | Two deductions past the lookup of one key are both written if and only if the balance covers both |
| Overlaps.CreditsRefundCanBeGrantedTwice | apps/api/src/refunds/refunds.service.ts:228-241 | A run of twelve actions in which two overlapping calls grant one approved CREDITS request twice |
| Overlaps.PurchaseUnderTwoEventsCanBeGrantedTwice | apps/api/src/gateways/authorize-net/authorize-net-webhook.controller.ts:175-193 | A run of twelve actions in which one charge delivered under two event ids is granted twice |
| Overlaps.DeductionSurvivesRollback | apps/api/src/refunds/refunds.service.ts:298-361 | At any time in any run, a refund whose transaction fails after its credits call keeps the deduction and nothing else |
| Outcomes.LateOutcome | apps/api/src/disputes/disputes.service.ts:161-172 | A late outcome keeps status and postings matched exactly when the dispute was not resolved the other way |
| Outcomes.LateEvidence | apps/api/src/disputes/disputes.service.ts:151-156 | A late evidence update keeps them matched exactly when the dispute is not resolved by then |
| Outcomes.LawfulExactlyWhenInTime | apps/api/src/disputes/disputes.service.ts:129-325 | Over every run, a dispute's status and outcome postings match throughout and its status only moves up, if and only if every outcome and evidence write on it is in time |
| Outcomes.WonAndLostCanBothPost | apps/api/src/disputes/disputes.service.ts:161-325 | Two outcomes past their status check both post, and the dispute ends LOST with its reversal undone |
| Outcomes.TwoOutcomesCanPassTheCheck | apps/api/src/disputes/disputes.service.ts:161-165 | Any unresolved dispute nobody works on can be brought there |
| Overlaps.ClaimedHashIsFrozen | apps/api/src/gateways/solana/solana-confirmation.controller.ts:68-74 | An id in the shared dedup table settles nothing any more, whichever path claimed it |
| WonGrants.WonGrantsOnce | apps/api/src/disputes/disputes.service.ts:224-241 | In any interleaving in which no credits call of a WON outcome on the dispute throws, its credits are granted at most once, and exactly once if the outcome is posted |
| WonGrants.RefundedChargeDeductsOnce | apps/api/src/gateways/authorize-net/authorize-net-webhook.controller.ts:216-239 | In any interleaving a refunded charge's credits are taken back at most once per event id |
| Witnesses.RefundCanBeDeniedAfterPaying | apps/api/src/refunds/refunds.service.ts:158-176 | A run from any initial state that ends with the request DENIED and its money moved |
| Witnesses.LostDisputeCanReopen | apps/api/src/disputes/disputes.service.ts:129-159 | A run from any initial state that takes a LOST dispute, its fee posted, back to EVIDENCE_SUBMITTED |
| Witnesses.DisputeCanBeWonAndLost | apps/api/src/disputes/disputes.service.ts:161-325 | A run from any initial state that posts both outcomes of one dispute |
| Witnesses.WonDisputeCanBeGrantedTwice | apps/api/src/disputes/disputes.service.ts:224-241 | A run from any initial state that grants the credits of one won dispute twice |
| Witnesses.RefundedUnderTwoEvents | apps/api/src/gateways/authorize-net/authorize-net-webhook.controller.ts:216-239 | Two overlapping deliveries of one refunded charge under two event ids deduct twice if and only if the opening balance covers both |
| Witnesses.DeductionCanBeAllThatIsLeft | apps/api/src/refunds/refunds.service.ts:298-361 | For any covered payment request, a run that leaves its deduction and neither posting nor paymentRefundId |
| Calls.CompletesOneWay | apps/api/src/refunds/refunds.service.ts:181-222 | What an uninterrupted call leaves is determined by the rows, the ids it mints and where it throws |
| Calls.CompletedRowsOk | apps/api/src/refunds/refunds.service.ts:181-222 | Every completed call keeps the invariant of the rows and loses nothing committed |
| Calls.AfterIsRun | apps/api/src/refunds/refunds.service.ts:181-222 | The statements of a call, taken or thrown, are a run of the engine in which only that call acts |
| Calls.CompletedExtends | apps/api/src/gateways/authorize-net/authorize-net-webhook.controller.ts:85-112 | A completed call extends any run that ends with nothing held, finished and dead calls left behind included: calls one after the other are one run |
| Calls.CompletedReached | apps/api/src/gateways/authorize-net/authorize-net-webhook.controller.ts:85-112 | So whatever a sequence of calls leaves, wherever they throw, is reached by a run from an initial state |
| RefundCalls.ProcessRefundCompletes | apps/api/src/refunds/refunds.service.ts:181-364 | A whole processRefund call, throwing anywhere, is a run of the engine's steps |
| RefundCalls.UninterruptedRefundSucceeds | apps/api/src/refunds/refunds.service.ts:181-283 | Whatever earlier attempts left, a call in which nothing throws succeeds exactly on an approved request that is for credits, was booked before, or names a charge |
| RefundCalls.AttemptIsCounted | apps/api/src/refunds/refunds.service.ts:189-222 | Past its status check an attempt is counted, once, if and only if it failed before the final status update and the count could be written |
| RefundCalls.FailedStatusUpdateIsNotCounted | apps/api/src/refunds/refunds.service.ts:215-222 | A refund whose final status update throws stays APPROVED with its money moved and its attempts as they were |
| RefundCalls.DeductionWithoutBooking | apps/api/src/refunds/refunds.service.ts:298-361 | A call on an approved request not booked and not deducted leaves the deduction alone if and only if all up to the credits call goes through, the balance covers it and the commit throws |
| Receipts.RefundReceipt | apps/api/src/refunds/refunds.service.ts:181-364 | A processRefund call that succeeds: the grant of a CREDITS request; for a PAYMENT request its one gateway entry for the named charge, its one posting with both entries written out, its id, and its deduction if the balance covers it; and nothing else |
| Receipts.FailedRefundReceipt | apps/api/src/refunds/refunds.service.ts:181-364 | One that fails before its final update changes at most one attempt count and one credit row |
| RefundCalls.ReviewCompletes | apps/api/src/refunds/refunds.service.ts:141-176 | So is a whole approveRefund or denyRefund call |
| DisputeCalls.SetOutcomeCompletes | apps/api/src/disputes/disputes.service.ts:161-325 | So is a whole setOutcome call |
| DisputeCalls.UninterruptedOutcomeSucceeds | apps/api/src/disputes/disputes.service.ts:161-325 | A call in which nothing throws succeeds exactly on an unresolved dispute, for LOST only with a positive fee or one posted before |
| Receipts.OutcomeReceipt | apps/api/src/disputes/disputes.service.ts:161-325 | A setOutcome call that succeeds: the status, and unless it was posted before the one transaction, WON with the dispute's amount and LOST with exactly the fee passed, both entries written out; WON's credits once |
| Receipts.FailedOutcomeReceipt | apps/api/src/disputes/disputes.service.ts:161-325 | One that fails leaves nothing but, for WON, the one credit row |
| DisputeCalls.AttachEvidenceCompletes | apps/api/src/disputes/disputes.service.ts:129-159 | So is a whole attachEvidence call |
| DeliveryCalls.DeliverCompletes | apps/api/src/gateways/authorize-net/authorize-net-webhook.controller.ts:85-112 | So is a whole delivery, on the card path and on the Solana path |
| DeliveryCalls.UninterruptedDeliveryIsApplied | apps/api/src/gateways/authorize-net/authorize-net-webhook.controller.ts:85-346 | A delivery in which nothing throws is applied exactly when its id is new, it is deep enough and its amounts can be posted |
| Receipts.DeliveryReceipt | apps/api/src/gateways/authorize-net/authorize-net-webhook.controller.ts:85-346 | A delivery that is applied had a new id, which is in the table, and has written exactly its credits row, charge record, dispute and posting, spelled out by event, on the card path and the Solana path |
| Receipts.FailedDeliveryReceipt | apps/api/src/gateways/authorize-net/authorize-net-webhook.controller.ts:85-112 | One that is not applied leaves nothing but, at most, its own credit row |
| DeliveryCalls.DeductionWithoutDispute | apps/api/src/gateways/authorize-net/authorize-net-webhook.controller.ts:255-346 | The same for a chargeback delivery and its dispute |
| Tables.Database.Record | apps/api/src/disputes/disputes.service.ts:189-222 | The account upserts and the keyed posting: posted, found, or failed, and the books in each case |
| Tables.Database.RecordCharge | apps/api/src/gateways/authorize-net/authorize-net-webhook.controller.ts:195-212 | A charge is recorded once per gateway and transaction id |
| Tables.Database.RefundAt | apps/api/src/refunds/refunds.service.ts:366-375 | The refund goes to the gateway the request names and no other |
| Tables.TablesRefundExactlyOnce | apps/api/src/refunds/refunds.service.ts:255-364 | Whatever service calls were made, and wherever they threw, a payment refund moved its money once or not at all, with ledger, gateway log, id, status and deduction in agreement |
| Tables.TablesChargebackExactlyOnce | apps/api/src/gateways/authorize-net/authorize-net-webhook.controller.ts:255-346 | And a chargeback has one dispute, one reversal that it names, and at most one deduction |
| Tables.TablesBalance | apps/api/src/billing/ledger.service.ts:17-30 | And the trial balance is zero and every credit balance is its opening plus its log |
| RefundsService.RefundsService.FindLatestCharge | apps/api/src/refunds/refunds.service.ts:69-85 | Finds the last charge record of the user on the gateway, none after it matching, or none if there is none |
| RefundsService.RefundsService.CreateRefundRequest | apps/api/src/refunds/refunds.service.ts:54-98 | Which requests are stored, with exactly the passed user, kind, amount and gateway, PENDING and unattempted; a named charge is kept, and a payment request without one gets the last matching charge record; as an action of the engine |
| RefundsService.RefundsService.ApproveRefund | apps/api/src/refunds/refunds.service.ts:141-156 | Succeeds exactly on a PENDING request, which becomes APPROVED and nothing else changes; the call is a run of the engine |
| RefundsService.RefundsService.DenyRefund | apps/api/src/refunds/refunds.service.ts:158-176 | Succeeds exactly on a PENDING request with notes that are not blank, which becomes DENIED and nothing else changes; the call is a run of the engine |
| RefundsService.BlankNotes | apps/api/src/refunds/refunds.service.ts:159-161 | No notes, empty ones and white space are blank; anything with a letter or digit is not |
| RefundsService.RefundsService.ProcessCreditRefund | apps/api/src/refunds/refunds.service.ts:228-241 | One REFUND row of the request's amount under its key, once, and failure exactly when the credits call fails |
| RefundsService.RefundsService.ProcessPaymentRefund | apps/api/src/refunds/refunds.service.ts:255-364 | On success the named charge refunded, REVENUE and the user's ASSET down by the amount in one transaction, the id set and the deduction made if covered; wherever it throws, the gateway entry kept, ledger and id together or not at all |
| RefundsService.RefundsService.BookRefund | apps/api/src/refunds/refunds.service.ts:298-361 | The transaction: posting and id together or neither, the deduction kept either way |
| RefundsService.RefundsService.ProcessRefund | apps/api/src/refunds/refunds.service.ts:181-222 | Success means PROCESSED with everything its receipt lists; the call is a run of the engine and the tables stay valid |
| DisputesService.DisputesService.FindDispute | apps/api/src/disputes/disputes.service.ts:65-75 | Finds the dispute under a gateway id exactly when there is one |
| DisputesService.DisputesService.CreateDispute | apps/api/src/disputes/disputes.service.ts:54-93 | Idempotent by gateway id, keeps those ids unique |
| DisputesService.DisputesService.AttachEvidence | apps/api/src/disputes/disputes.service.ts:129-159 | Moves an OPEN dispute on, leaves any other as it is and every other row alone; the call is a run of the engine |
| DisputesService.DisputesService.HandleWon | apps/api/src/disputes/disputes.service.ts:184-260 | Reversal undone for the dispute's amount and status WON together or not at all; restored credits kept either way |
| DisputesService.DisputesService.HandleLost | apps/api/src/disputes/disputes.service.ts:268-325 | Exactly the fee passed moved from the user's ASSET to EXPENSE and status LOST, together or not at all |
| DisputesService.DisputesService.SetOutcome | apps/api/src/disputes/disputes.service.ts:161-172 | Succeeds only along the transition table, and then has posted and written what its receipt lists; a refused call changes nothing; the call is a run of the engine |
| WebhookControllers.AuthorizeNetWebhookController.ApplyApproved | apps/api/src/gateways/authorize-net/authorize-net-webhook.controller.ts:175-214 | Credits for a credit purchase, then the charge record; a refused grant ends the event |
| WebhookControllers.AuthorizeNetWebhookController.ApplyRefunded | apps/api/src/gateways/authorize-net/authorize-net-webhook.controller.ts:216-239 | Takes the purchased credits back if the balance covers them, once per charge |
| WebhookControllers.AuthorizeNetWebhookController.ApplyChargeback | apps/api/src/gateways/authorize-net/authorize-net-webhook.controller.ts:255-346 | A new dispute with its reversal posted to REVENUE and the user's ASSET and linked, credits taken if they can be; a known dispute is left alone |
| WebhookControllers.AuthorizeNetWebhookController.ChangeSubscription | apps/api/src/gateways/authorize-net/authorize-net-webhook.controller.ts:122-173 | Puts the user on exactly the plan, period and gateway row of the event, or cancels the row on BASIC, and leaves everyone else's alone |
| WebhookControllers.AuthorizeNetWebhookController.ApplyEvent | apps/api/src/gateways/authorize-net/authorize-net-webhook.controller.ts:115-351 | What each kind of event does to subscriptions, credits, charges, disputes and ledger inside the transaction, and when it throws |
| WebhookControllers.AuthorizeNetWebhookController.HandleWebhook | apps/api/src/gateways/authorize-net/authorize-net-webhook.controller.ts:80-113 | Taken: exactly what the event's receipt lists, and its subscription change; skipped exactly when the id is known; otherwise nothing but its credits and an error; the call is a run of the engine |
| WebhookControllers.SolanaConfirmationController.ApplyConfirmation | apps/api/src/gateways/solana/solana-confirmation.controller.ts:97-149 | The plan if the confirmation names one, for thirty days; exactly the confirmed amount to exactly its user, once; then the charge record; a refused grant ends the event |
| WebhookControllers.SolanaConfirmationController.HandleConfirmation | apps/api/src/gateways/solana/solana-confirmation.controller.ts:36-95 | Refused without an event id or a hash; too shallow or known is skipped and changes nothing; taken, and not granted before, it raises its user's balance by exactly the amount and nobody else's, with hash, plan and charge; otherwise only credits are left; the call is a run of the engine |

## Left out

- Signature checks, raw bodies, authentication, request validation beyond what reaches these services, and the controllers' plain routing.
- The web application and the UI package; the simulator, whose user reset deletes entries without their balances.
- Lists, paging, histories, plan lookup and plan names, logging, timestamps other than a subscription's (the clock is a parameter there), descriptions, and metadata other than the idempotency keys.
- Subscription rows in the engine: the controllers' classes write and roll them back with the rest of a delivery, but in the engine `subscription.*`, `charge.failed` and the plan of a confirmation are `Other` or record-only jobs, so what overlap does to those rows is only in `Subscriptions.LateCancelWrite`.
- A `subscription.created` or `subscription.renewed` event appears as an `Approved` job without credits, which is what it writes to the charge records.
- The credit-amount pattern in `contextRef`: a delivery carries the parsed credits or none.
- The content of evidence rows and of review notes; in the engine every review is one whose notes were accepted, and every confirmation one with an event id.
- The configured chargeback fee is an arbitrary integer of each LOST call; a non-positive one makes the posting fail, as in the code.
- Gateway customers and subscriptions, and failures injected into the mock gateways other than a throw.
- 32-bit columns and JavaScript number rounding: amounts are unbounded integers.
- Deletion of users and its cascades.
- Deadlocks and statement timeouts, other than as a failed or dead call.
- Serial.OutcomeMatchesStatus: for serialised calls on the dispute; for overlapping ones `Outcomes.LawfulExactlyWhenInTime` says in which runs it holds.
- WonGrants.WonGrantsOnce: in one direction; a credits call that throws is needed for a second grant but does not by itself cause one.
- Progress.ApprovedRefundCanFinish: ends the calls in the way by crashing them, as a restart or the database's timeout would; it does not say that they end by themselves.
- Theorems.DisputeNeverCreatesMoney: says nothing about credits; WON grants the dispute's amount even if the chargeback could not deduct it.
- Theorems.PaymentRefundIsExactlyOnce: per request; nothing in the code caps what the requests on one charge add up to.
