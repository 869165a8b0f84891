# The money machine

A Dafny model of the platform's money machine and of the three machines beside
it. Wallet balances are never stored: they are derived from a double-entry
ledger that every product flow posts to. The project models those flows as one
transition system over one database and proves that the ledger and the product
tables agree in every reachable state, whatever the order in which requests,
provider answers, provider events and administrators act. It also models the
Ajo rotation (join, lock, swap), refresh-token rotation and the copy of the
bill catalogue.

## How it is built

- `Prelude`, `Ledger`, `Tables` hold the shared vocabulary: sums, postings,
  balances, reversals, and a row type for each table money moves through.
- `Bills`, `Movements`, `AjoMoney`, `Groups`, `Food`, `Payments`, `Webhooks`,
  `Sessions` and `Catalog` give each transaction as a function from the state
  to a new state or a refusal.
- `Store` holds the database as mutable tables. `BillService`,
  `WalletService`, `AjoSettlementService`, `GroupService`, `FoodService`,
  `PaymentService`, `SettlementService`, `AuthService` and the class in
  `Catalog` run the same transactions step by step, loops and rollbacks
  included, and are proved to do exactly what the functions say.
- `Machine` collects the atomic steps. A step is one serializable
  transaction, or one read or write that the services make outside a
  transaction; the latter are free to happen at any time, so every
  interleaving is among the runs. A refused step leaves the tables alone. Time
  passes in a step of its own, so any number of steps may share one clock
  reading. `Retries.ConfirmIsAStep`, `Retries.CreateIsAStep` and
  `Retries.ReconcileIsAStep` tie the service calls that are not themselves
  steps to those that are.
- `Books` states the invariant tying ledger to tables; `Keeping` and
  `KeepingPayments` prove that every step keeps it. `Lifecycle`, `Requests`,
  `GroupMoney`, `GroupParties`, `FoodTheorems` and `Rotation` carry the further
  invariants.
- `BillTheorems`, `Custody`, `Solvency`, `PaymentTheorems`, `DepositTheorems`,
  `RefundTheorems`, `GroupTheorems`, `SwapTheorems` and `Retries` state what
  follows for every run. `FlippedVerdict`, `PaidTwice`, `LateFailure` and
  `LostRefund` are runs that show where a promise fails.
- `BillOutcomes`, `MovementTheorems`, `AjoOutcomes`, `FoodOutcomes`,
  `PaymentOutcomes`, `EventOutcomes`, `GroupOutcomes`, `SwapOutcomes` and
  `SessionOutcomes` say of each operation exactly when it is accepted and what
  it then does to every balance and every row, in the words of the request and
  of the tables rather than of the functions that carry it out. What they ask
  of a state holds in every run (`PaymentOutcomes.EveryRunIsSound`,
  `GroupTheorems.GroupInRun`, `Sessions.SessionsKept`).
- `Webhooks` runs provider events beside the machine, each delivery stage by
  stage, and shows that every such run is a run of the machine.

Automatic induction is turned off wherever Dafny would try it, so every
induction in the project is one that is written out.

Two things in `Tables` are not in the source's schema. `handlers` is what
requests in flight remember of their own transaction, which the services keep
in local variables; `stranded` is a history of what withdrawals emptied without
posting a refund, and no step looks at it.

Amounts are unbounded integers, as in the source. There is one currency, and a
member holds one wallet, so a wallet is named by its member. Row ids, session
tokens and catalogue rows are named by their position or unique key. The PIN,
the fee rule, customer validation and the bill provider's answers are inputs.

## Where the code and its promise differ

- `docs/financial-ledger.md` says a correction adds opposite entries and marks
  the original reversed. The balance reader counts POSTED transactions only,
  so a reversal moves balances by minus twice the original
  (`Ledger.ReversalMovesPostedBalanceTwice`); it restores them exactly on
  accounts the original left alone (`Ledger.ReversalRestoresPostedBalanceIff`).
- A bill can be released and settled. A late "uncertain" write re-opens a bill
  whose failure was posted, and a success is then accepted.
  `BillTheorems.OneEndingIffNoFlip` says exactly when a bill has one ending,
  and `FlippedVerdict.ProviderChangesItsMind` is a run in which it has two.
- A deposit's money can be in the wallet while its intent says FAILED or
  PROCESSING: the failure write and the charge's own write set the status
  without looking at it. `DepositTheorems.SucceededIffNotOverwritten` says
  exactly when a deposit is SUCCEEDED, `DepositTheorems.OverwriteUnsettlesIff`
  when one such write takes SUCCEEDED away, and `LateFailure.CreditedAndFailed`
  is a run of two crossing deliveries in which it happens.
- Payouts never look at the schedule version. An executed swap adds an open
  row for every cycle, paid already or not, and leaves the rows it supersedes
  open (`Solvency.SwapReopensPaidCycles`, `Solvency.UnpaidCyclesStayOpen`).
  `Solvency.PayoutInOrderIff` and `Solvency.EveryTurnOnceIff` say exactly which
  payouts pay a cycle once and under the version in force. In
  `PaidTwice.CyclePaidTwice` the swap follows a payout and in
  `PaidTwice.CyclePaidTwiceAfterEarlySwap` it precedes them all; in both a
  cycle is paid twice and another can no longer be.
- For the same reason a payout may reach the member who gave the turn up
  (`PaidTwice.WrongMemberPaid`); `GroupParties.PaysHolderInForceIff` says
  exactly when it does not.
- A refund's key is the time of the payment it returns, so of two payments of
  an enrolment within one clock reading only one is ever refunded.
  `RefundTheorems.RefundIsRealIff` says exactly when a refund is real,
  `RefundTheorems.EscrowAgreesIff` what that leaves in escrow, and
  `LostRefund.SecondRefundIsLost` is a run in which a refund is lost.
- The EXPIRED status of a swap request is written in a transaction that is
  then refused, so an expired request stays pending and blocks its slots
  (`GroupTheorems.StaleRequestStays`, `GroupTheorems.StaleForever`).
- A comment in `src/modules/webhooks/monnify-webhooks.service.ts:169-170` says
  an event whose settlement failed can be retried. Its row already exists, so
  a redelivery is ignored (`Webhooks.RedeliveryIsIgnored`).
- The provider is asked for the total and the deposit posts the amount, so no
  claim is made that the provider's leg is what the payer was charged.

## Model

| member | source | states |
|---|---|---|
| Custody.CustodyAgrees | src/modules/food-ajo/food-subscription.payment-target.ts:86-215 | in every run, for all programmes and groups at once, escrow is what its subscriptions have paid and what withdrawals stranded, and a pool is its contributions less its payouts |
| RefundTheorems.EscrowAgreesIff | src/modules/food-ajo/food-subscription.payment-target.ts:150-215 | in every run escrow is at least what its subscriptions have paid, and equal to it iff no accepted withdrawal lost its refund |
| Custody.ReservedAgreesIff | src/modules/wallets/wallet-movements.service.ts:166-195 | in every run a wallet's reserve is its undecided bills plus its withdrawals, iff no second verdict was accepted on one of its bills |
| Custody.NeverOverdrawn | src/modules/payments/payments.service.ts:245-248 | no wallet, pool or escrow balance is negative in any run, whatever the provider answers |
| Custody.MoneyIsConserved | src/modules/ledger/domain/ledger-invariants.ts:4-25 | in every run the balances of every account the ledger mentions add up to zero |
| Custody.EverythingIsBacked | src/modules/payments/payment-settlement.service.ts:85-115 | everything held outside the provider account, fees included, is the deposits posted less the bills settled and not reversed |
| KeepingPayments.BooksKept | src/modules/ledger/ledger.service.ts:17-66 | in every run every account's balance is what the rows imply, every key is accounted for by a row, postings are balanced under distinct keys |
| Ledger.PostOutcome | src/modules/ledger/ledger.service.ts:22-52 | a new key adds its entries to every balance, a known key changes nothing and returns the first posting |
| Ledger.PostAcceptedIff | src/modules/ledger/domain/ledger-invariants.ts:4-25 | a posting is accepted exactly if it has two or more positive entries that add up to zero |
| Ledger.BooksBalance | src/modules/ledger/domain/ledger-invariants.ts:12-24 | any ledger of balanced postings sums to zero over all accounts |
| Ledger.ReversalMovesPostedBalanceTwice | src/modules/ledger/ledger.service.ts:54-113 | the reader that counts POSTED moves by minus twice the original on every account |
| Ledger.ReversalUndoesInFullBalance | src/modules/ledger/ledger.service.ts:84-110 | a reader of both statuses sees every balance as if the original had never been posted |
| Ledger.ReversalRestoresPostedBalanceIff | src/modules/ledger/ledger.service.ts:54-113 | the POSTED reader is restored iff the original left that account unmoved |
| Ledger.AtMostOneReversal | src/modules/ledger/ledger.service.ts:74-82 | in every run of postings and reversals a transaction is reversed at most once |
| BillTheorems.OneEndingIffNoFlip | src/modules/bill-payments/bill-payments.service.ts:355-484 | in every run a bill's later postings are none, a settle, a release, or a settle and its reversal, iff no verdict was accepted against an opposite one already posted |
| BillTheorems.StableProviderOneEnding | src/modules/bill-payments/bill-payments.service.ts:338-553 | a provider that never contradicts itself gives every bill one of those endings on top of its own reserve, under any interleaving of answers and late uncertain writes |
| BillTheorems.FlipIsAccepted | src/modules/bill-payments/bill-payments.service.ts:367-375 | such a contradicting verdict is never refused |
| BillTheorems.EndingEffects | src/modules/bill-payments/bill-payments.service.ts:376-443 | a release, or a settle and its reversal, leave every account as before the bill; a settle pays the provider and the fee |
| BillTheorems.TwoVerdictsOverdrawReserve | src/modules/bill-payments/bill-payments.service.ts:376-443 | two verdicts spend the reserve twice |
| BillTheorems.IntentFollowsBill | src/modules/bill-payments/bill-payments.service.ts:815-833 | under a stable provider the intent is SUCCEEDED iff the settle is posted, FAILED iff the release is, PROCESSING iff neither is |
| BillTheorems.PaidIntentHasOneBill | src/modules/payments/payments.service.ts:293-306 | an intent for a bill has exactly one bill iff it has left REQUIRES_CONFIRMATION |
| BillOutcomes.EveryAnswerCounts | src/modules/bill-payments/bill-payments.service.ts:355-553 | in every run a success pays an undecided bill out of the reserve, amount to the provider and fee to revenue, and makes it SUCCESSFUL and its PROCESSING intent SUCCEEDED; a failure returns both to the wallet and fails the intent; a reversal takes a SUCCESSFUL bill back; said of a bill with its verdict, success and failure change nothing; no verdict, or no answer, leaves it awaiting reconciliation |
| BillOutcomes.InquiryCounts | src/modules/bill-payments/bill-payments.service.ts:338-353 | in every run an inquiry is refused unless the bill awaits one, a bill left uncertain does, and what the inquiry brings then counts like any answer |
| BillOutcomes.RequestReservesAmountAndFee | src/modules/bill-payments/bill-payments.service.ts:174-285 | a bill request under a new key is accepted exactly with validation, an ACTIVE wallet, an allowed amount, a known fee and the money; it sets aside amount and fee and records one PENDING bill |
| Requests.ProviderCalledOnce | src/modules/payments/payments.service.ts:214-333 | over any number of racing confirmations of an intent, and of racing requests under one bill key, the calls they make to the provider add up to at most one |
| Requests.UninterruptedPayment | src/modules/payments/payments.service.ts:293-333 | a wallet payment for a bill run to its end is its transaction, what follows the commit, and the provider's reply if it was asked |
| Requests.RequestAsksOnce | src/modules/bill-payments/bill-payments.service.ts:203-316 | a bill request run to its call asks the provider exactly once under a new key and not at all when the bill was there |
| FlippedVerdict.ProviderChangesItsMind | src/modules/bill-payments/bill-payments.service.ts:835-845 | a concrete run: failure, late uncertain write, success; both are posted and the reserve goes negative |
| PaymentTheorems.DepositedExactlyOnce | src/modules/payments/payment-settlement.service.ts:62-150 | in every run an intent is deposited at most once, SUCCEEDED implies it was, for its own entries, crediting the amount less the fee |
| PaymentTheorems.DepositIsFinal | src/modules/payments/payment-settlement.service.ts:82-87 | nothing that follows deposits the intent again or alters the posting |
| DepositTheorems.SucceededIffNotOverwritten | src/modules/payments/payment-settlement.service.ts:205-226 | in every run a deposit's posting exists iff some step deposited it, and its intent is SUCCEEDED iff no charge or failure write was accepted after its last deposit |
| DepositTheorems.OverwriteUnsettlesIff | src/modules/payments/payments.service.ts:374-383 | in every run a charge or failure write takes SUCCEEDED from an intent, its money staying in the ledger, iff the deposit had stood till then and the write's own guard, which does not look at the status, lets it by |
| LateFailure.CreditedAndFailed | src/modules/payments/payment-settlement.service.ts:205-226 | a concrete run: a failure event reads the intent, a success event settles it, the failure is written; the wallet is credited and the intent FAILED |
| PaymentTheorems.ChargedExactlyOnce | src/modules/payments/payments.service.ts:221-226 | an intent paid from a wallet has left REQUIRES_CONFIRMATION iff it was charged, and was charged once whatever keys its confirmations carried |
| PaymentTheorems.ChargedStaysCharged | src/modules/payments/payments.service.ts:293-306 | it never returns to REQUIRES_CONFIRMATION |
| PaymentOutcomes.ChargeIsWhatIsOwed | src/modules/payments/payments.service.ts:214-309 | in every run an unpaid intent is charged exactly when it is no deposit, its amount is what its target still costs, written out target by target (part of what a contribution has outstanding, package price times quantity, an amount the bill's quote allows), and the wallet has amount and fee; both then move once to the pool, the escrow or the reserve |
| PaymentOutcomes.IntentOutcome | src/modules/payments/payments.service.ts:89-156 | under a new key an intent is created exactly for an amount the target costs and a fee not below zero, for that amount, to be confirmed within fifteen minutes; a used key changes nothing |
| PaymentOutcomes.ConfirmationOutcome | src/modules/payments/payments.service.ts:164-203 | a confirmation is accepted exactly from the owner, unexpired, by a method the target takes, with details and PIN, when the payment is; a paid intent is left alone |
| PaymentOutcomes.ExternalOutcome | src/modules/payments/payments.service.ts:342-391 | a deposit is handed over exactly if it is 500 naira or more and the reference is no other intent's, and is PROCESSING under it |
| PaymentOutcomes.DepositOutcome | src/modules/payments/payment-settlement.service.ts:62-150 | a first deposit is accepted exactly if the payer has a wallet and the fee leaves something; the provider account gives the amount, the wallet gets it less the fee, the fee is earned |
| EventOutcomes.EveryEventCounts | src/modules/webhooks/monnify-webhooks.service.ts:51-181 | after any interleaving a new success event deposits the one intent its reference names, once, a new failure event fails it unless it has SUCCEEDED, and the event is marked accordingly |
| DepositTheorems.OneIntentPerReference | src/modules/payments/payments.service.ts:374-383 | in every run a provider reference names at most one intent |
| PaymentTheorems.LedgerIsAppendOnly | src/modules/ledger/ledger.service.ts:28-52 | no later step of any run alters a posting |
| RefundTheorems.RefundIsRealIff | src/modules/food-ajo/food-subscription.payment-target.ts:163-203 | in every run an accepted withdrawal of a paid enrolment moves exactly what was paid from escrow to the payer iff that is the enrolment's only payment at its clock reading, and otherwise posts nothing and empties it all the same |
| RefundTheorems.RefundMovesMoneyIff | src/modules/food-ajo/food-subscription.payment-target.ts:190-203 | in any state, a refund moves money iff its key is new |
| LostRefund.SecondRefundIsLost | src/modules/food-ajo/food-subscription.payment-target.ts:190-194 | a concrete run: enrol, pay, withdraw, enrol, pay and withdraw within one clock reading; the second withdrawal is accepted, posts nothing, and its price stays in escrow |
| FoodTheorems.EscrowIsTheActiveEnrolments | src/modules/food-ajo/domain/food-ajo-policy.ts:334-336 | in every run escrow is package price times quantity, summed over exactly the ACTIVE enrolments, and what withdrawals stranded; PENDING and ACTIVE portions never exceed capacity |
| FoodTheorems.ActiveIsPaidInFull | src/modules/food-ajo/food-subscription.payment-target.ts:86-100 | in every run an enrolment has paid package price times quantity if it is ACTIVE, and otherwise nothing |
| FoodOutcomes.EnrolmentPaymentAcceptedIff | src/modules/food-ajo/food-subscription.payment-target.ts:45-84 | an enrolment is paid exactly by its own member, PENDING, in an OPEN or ACTIVE programme, for price times quantity, with that much in the wallet |
| FoodOutcomes.EnrolmentPaymentMovesThePrice | src/modules/food-ajo/food-subscription.payment-target.ts:86-100 | exactly that product moves from the wallet into escrow, and the enrolment is ACTIVE with it paid |
| FoodOutcomes.EnrolmentOutcome | src/modules/food-ajo/food-ajo-programmes.service.ts:237-325 | enrolling is accepted exactly in an OPEN programme, for an active package the member is not enrolled for, within the capacity PENDING and ACTIVE enrolments leave; it records that quantity and posts nothing |
| FoodOutcomes.WithdrawalOutcome | src/modules/food-ajo/food-ajo-programmes.service.ts:333-376 | withdrawing is accepted exactly from the member's own PENDING or ACTIVE enrolment, the latter only while the programme is OPEN, and leaves it CANCELLED and empty |
| FoodOutcomes.TransitionOutcome | src/modules/food-ajo/food-ajo-coordinator.service.ts:114-185 | exactly which moves a coordinator may make, and that opening locks every package |
| FoodOutcomes.PriceOutcome | src/modules/food-ajo/food-ajo-coordinator.service.ts:188-221 | a price changes exactly on an unlocked package of a draft |
| FoodOutcomes.PricesStandOnceOpen | src/modules/food-ajo/domain/food-ajo-policy.ts:327-336 | whatever follows, a programme that has opened keeps its capacity and every price, and is left as it is once COMPLETED or CANCELLED |
| Solvency.SolventUntilFirstSwap | src/modules/ajo-groups/ajo-settlement.service.ts:345-381 | until a group's first executed swap a collected cycle not yet paid is covered by the pool, so the balance guard cannot fire |
| Solvency.OncePerCycleIff | src/modules/ajo-groups/ajo-settlement.service.ts:323-343 | in every run a group pays each cycle at most once iff no accepted payout found its cycle already paid under another version |
| Solvency.SolventUnlessPaidAgain | src/modules/ajo-groups/ajo-settlement.service.ts:373-381 | in every run without such a payout, swaps or not, the pool covers every collected unpaid cycle |
| Solvency.PayoutInOrderIff | src/modules/ajo-groups/ajo-settlement.service.ts:323-381 | in every run an accepted payout leaves each cycle paid at most once, and the turn in force for its own cycle paid, iff no cycle had been paid twice, its own had not been paid, and its row is of the version in force |
| Solvency.EveryTurnOnceIff | src/modules/ajo-groups/ajo-settlement.service.ts:323-343 | in every run each payout paid its cycle for the first time and the turn then in force iff none was for a cycle already paid or from a superseded row |
| Solvency.UnpaidCyclesStayOpen | src/modules/ajo-groups/ajo-settlement.service.ts:323-343 | in every run a cycle not yet paid has an open row under every version, so after an executed swap at least two |
| Solvency.SwapReopensPaidCycles | src/modules/ajo-groups/ajo-swaps.service.ts:373-391 | the version an executed swap makes has no open row for a paid cycle iff none was paid, and each unpaid cycle is then open under the old version and the new |
| PaidTwice.CyclePaidTwice | src/modules/ajo-groups/ajo-swaps.service.ts:353-427 | a concrete run: a cycle is paid before and after a swap, the pool is empty, and a collected cycle's payout is refused |
| PaidTwice.CyclePaidTwiceAfterEarlySwap | src/modules/ajo-groups/ajo-settlement.service.ts:323-343 | a concrete run: the same outcome when nothing had been paid at the time of the swap |
| PaidTwice.WrongMemberPaid | src/modules/ajo-groups/ajo-settlement.service.ts:353-381 | a concrete run: after the swap the superseded row pays the member who gave the turn up |
| GroupMoney.GroupsKept | src/modules/ajo-groups/ajo-settlement.service.ts:197-262 | in every run each schedule's paid amount is the sum of its contribution rows, and a payout schedule is paid iff a payout row exists, and only with its cycle collected |
| AjoOutcomes.ContributionPaysTheAmount | src/modules/ajo-groups/ajo-settlement.service.ts:93-183 | under a new key a contribution is accepted exactly from the holder of its slot, for a positive amount not above what is outstanding, with the money; that amount moves from wallet to pool, that schedule is credited with it and one row records it, and no other balance or schedule changes |
| AjoOutcomes.ContributionIntentPaysItsAmount | src/modules/ajo-groups/ajo-settlement.service.ts:197-262 | paid through an intent, the same with the intent's amount, which has then SUCCEEDED |
| AjoOutcomes.PayoutAcceptedIff | src/modules/ajo-groups/ajo-settlement.service.ts:317-381 | a payout not yet made is accepted exactly from the administrator, with every contribution of its cycle in to the last, a wallet for the payee and the pot in the pool; held back exactly when the cycle or the pool falls short |
| AjoOutcomes.PayoutPaysThePot | src/modules/ajo-groups/ajo-settlement.service.ts:373-450 | an accepted payout moves base amount times slots from the pool to the holder of its slot |
| GroupParties.ContributorsHoldTheirSlots | src/modules/ajo-groups/ajo-settlement.service.ts:101-121 | in every run a contribution was paid by the holder of its slot |
| GroupParties.PayoutsFollowTheirRows | src/modules/ajo-groups/ajo-settlement.service.ts:353-371 | in every run a payout went to the holder of its own row's slot for the row's amount |
| GroupParties.PaysHolderInForceIff | src/modules/ajo-groups/ajo-settlement.service.ts:353-371 | in every run an accepted payout goes to the holder of the slot the version in force gives its cycle iff that slot and the row's have one holder, as they have when the row is of that version |
| GroupParties.UntouchedTurnStands | src/modules/ajo-groups/ajo-swaps.service.ts:373-391 | a row superseded by a swap that did not touch its turn still names the slot in force |
| GroupTheorems.JoinsKeepTheRotation | src/modules/ajo-groups/ajo-groups.service.ts:305-403 | before the lock positions are 1..n with n within the limit, plans match members and slots; lock can be refused only for the caller, too few slots or the dates |
| GroupOutcomes.FoundingOutcome | src/modules/ajo-groups/ajo-groups.service.ts:49-155 | exactly which groups can be founded, and what each starts as |
| GroupOutcomes.JoinOutcome | src/modules/ajo-groups/ajo-groups.service.ts:305-403 | joining is accepted exactly before the lock, admitted, once, within the bounds; the joiner gets the next positions asked for and one plan at the group's unit, and nothing else changes |
| GroupOutcomes.LockAcceptedIff | src/modules/ajo-groups/ajo-groups.service.ts:510-557 | locking is accepted exactly from the administrator, once, with two slots or more and dates that fit |
| GroupOutcomes.LockOutcome | src/modules/ajo-groups/ajo-groups.service.ts:558-658 | a lock asks every slot for the base amount in every cycle on the cycle's date, and pays each cycle's pot to the slot at the cycle's position, the payout offset later |
| GroupOutcomes.ContributionsFollowTheCalendar | src/modules/ajo-groups/ajo-groups.service.ts:575-590 | in every run each contribution schedule is for the base amount and due on its cycle's date |
| Rotation.LockGuardsUnreachable | src/modules/ajo-groups/ajo-groups.service.ts:548-557 | lock's member-count, plan-mismatch and position guards cannot fire |
| GroupTheorems.EveryVersionIsABijection | src/modules/ajo-groups/ajo-swaps.service.ts:373-391 | in every run every schedule version pairs cycles and slots one to one, paying the whole pot on the cycle's date |
| GroupTheorems.VersionsAreSwapsApart | src/modules/ajo-groups/ajo-swaps.service.ts:392-427 | versions are numbered 1..version, executed swaps are version less one, and each version is its predecessor with one transposition, amounts and dates unmoved |
| GroupTheorems.EveryMemberIsTreatedFairly | src/modules/ajo-groups/ajo-groups.service.ts:607-642 | under every version a member's turns pay out what its contribution rows ask for, equal to the plan's total and entitlement; totals equal the snapshot's inflow and outflow |
| GroupTheorems.StaleRequestStays | src/modules/ajo-groups/ajo-swaps.service.ts:429-443 | no operation retires an expired request, and no request touching its slots is accepted |
| GroupTheorems.StaleForever | src/modules/ajo-groups/ajo-swaps.service.ts:435-440 | in every run an expired request stays pending for good |
| SwapTheorems.ExecutedWasApproved | src/modules/ajo-groups/ajo-swaps.service.ts:257-300 | in every run a swap is executed only with the approval of the holders of both its slots |
| SwapTheorems.PendingRequestsAreApart | src/modules/ajo-groups/ajo-swaps.service.ts:187-194 | in every run no slot is in two pending requests |
| SwapOutcomes.RequestOutcome | src/modules/ajo-groups/ajo-swaps.service.ts:150-242 | a swap is requested exactly by the slot's holder or the administrator of a locked group, between slots no pending request is about, whose turns are unpaid and whose holders are not overdue; it is pending for 72 hours |
| SwapOutcomes.ApprovalOutcome | src/modules/ajo-groups/ajo-swaps.service.ts:244-305 | an approval is accepted exactly from a holder of either slot before expiry, the last one only while the turns are those it was asked for; the two turns are exchanged when every holder has approved and not before |
| SwapOutcomes.RejectionOutcome | src/modules/ajo-groups/ajo-swaps.service.ts:307-351 | a rejection is accepted exactly from such a holder or the administrator, and closes the request |
| Retries.RetryMovesNothing | src/modules/wallets/wallet-movements.service.ts:42-208 | in every run a transfer, withdrawal, contribution or payout repeated under its key changes nothing, however much later |
| MovementTheorems.TransferMovesTheAmount | src/modules/wallets/wallet-movements.service.ts:42-125 | under a new key a transfer is accepted exactly for a positive amount between two ACTIVE wallets of different members, with PIN and money; the sender loses exactly the amount, the recipient gains it, and no other balance moves |
| MovementTheorems.WithdrawalReservesTheAmount | src/modules/wallets/wallet-movements.service.ts:136-208 | under a new key a withdrawal is accepted exactly for a positive amount the ACTIVE wallet has, with PIN and bank account; exactly the amount moves from available to reserved, and one row records it |
| Webhooks.DeliveriesAreRuns | src/modules/webhooks/monnify-webhooks.service.ts:51-181 | any interleaving of deliveries, stage by stage, with one another and with every other step leaves the tables of a run of the machine |
| Webhooks.DepositedOnceOnly | src/modules/webhooks/monnify-webhooks.service.ts:51-181 | any interleaving of deliveries, under equal or different event ids, leaves at most one deposit of an intent, and SUCCEEDED implies one |
| Webhooks.OneDeliveryActs | src/modules/webhooks/monnify-webhooks.service.ts:81-107 | of the deliveries of one event that race, at most one writes the row and goes on, and a success is marked only once its deposit is posted |
| Webhooks.UninterruptedIsRecord | src/modules/webhooks/monnify-webhooks.service.ts:51-134 | a delivery nothing interrupts does, stage by stage, what the whole handler says |
| Webhooks.DeliveriesKeepTheBooks | src/modules/webhooks/monnify-webhooks.service.ts:147-181 | any interleaving of deliveries keeps ledger and tables in agreement |
| Webhooks.RedeliveryIsIgnored | src/modules/webhooks/monnify-webhooks.service.ts:69-107 | once an event's row exists, a later delivery of it, or one that had not yet written the row, can only end, whatever became of the first |
| Sessions.SingleLiveToken | src/modules/auth/auth.service.ts:348-408 | in every run an ACTIVE session has exactly one token neither consumed nor revoked: its current one |
| Sessions.RotationChain | src/modules/auth/auth.service.ts:362-400 | in every run replacements point forward, the path from a session's first token ends at its current one, everything off it is revoked, and no replacement is issued later than its token's first use plus the grace |
| Sessions.RotatesIff | src/modules/auth/auth.service.ts:348-439 | exactly which tokens rotate; any other live-looking token of an ACTIVE session compromises it and revokes all it has |
| Sessions.EndedForever | src/modules/auth/auth.service.ts:568-588 | a session that has left ACTIVE is never rotated again |
| SessionOutcomes.LogOutEndsItsSession | src/modules/auth/auth.service.ts:442-444 | a log-out revokes its own session, if ACTIVE, and that session's tokens, and changes nothing else |
| SessionOutcomes.LogOutEverywhereEndsTheUsers | src/modules/auth/auth.service.ts:568-588 | logging out everywhere revokes exactly the user's ACTIVE sessions and their tokens |
| SessionOutcomes.ResetEndsTheUsers | src/modules/auth/password-reset.service.ts:148-155 | a password reset revokes the same sessions and leaves every token as it was |
| SessionOutcomes.LogOutIsFinal | src/modules/auth/auth.service.ts:386-388 | in every run and every continuation, a session so ended is not ACTIVE and no token of it rotates, whenever it is presented |
| SessionOutcomes.RotationIssues | src/modules/auth/auth.service.ts:362-408 | what a rotation changes: the token used, the one retired, the one issued and the session's current one, and no other |
| SessionOutcomes.SignInTokenLives | src/modules/auth/auth.service.ts:466-487 | the token of a sign-in rotates exactly while it is younger than the lifetime |
| SessionOutcomes.RotationTokensLive | src/modules/auth/auth.service.ts:348-408 | after a first rotation the new token rotates exactly within its lifetime, and the old one exactly within the grace and its own |
| SessionOutcomes.ReuseEndsItsSession | src/modules/auth/auth.service.ts:375-385 | reuse compromises the token's session, revokes its tokens, and touches no other |
| Sessions.FirstUseStands | src/modules/auth/auth.service.ts:394-397 | retries never move the time of a token's first use |
| Catalog.VisibleIsListed | src/modules/bill-payments/bill-catalog-sync.ts:22-125 | from any prior state the visible products are exactly the listed ones with the listed terms, other providers' rows untouched |
| Catalog.ListedRowsAreCopied | src/modules/bill-payments/bill-catalog-sync.ts:34-94 | every listed category and biller has the row the listing gives it, categories in their listed order |
| Catalog.UnlistedRowsKeepTheirTerms | src/modules/bill-payments/bill-catalog-sync.ts:96-124 | a product the listing leaves out keeps the terms it had |
| Catalog.NothingIsDeleted | src/modules/bill-payments/bill-catalog-sync.ts:96-124 | no listing deletes a row |
| Catalog.SyncIsIdempotent | src/modules/bill-payments/bill-catalog-sync.ts:22-125 | syncing a listing again, at another time and under another revision, is syncing it once at that time |
| Catalog.CatalogTables.SyncCatalog | src/modules/bill-payments/bill-catalog-sync.ts:34-124 | the three nested loops compute the specified catalogue |
| Store.AssertBalanced | src/modules/ledger/domain/ledger-invariants.ts:4-25 | the loop accepts exactly the postings of two or more positive entries whose debits equal its credits |
| Store.PostWithin | src/modules/ledger/ledger.service.ts:17-52 | appends one posting, replays a known key, or refuses and writes nothing |
| Store.ReverseWithin | src/modules/ledger/ledger.service.ts:68-113 | adds the mirror posting and marks the original, or refuses and writes nothing |
| BillService.Create | src/modules/bill-payments/bill-payments.service.ts:174-285 | commits the reserve and its bill together or changes nothing |
| BillService.ApplyProviderResult | src/modules/bill-payments/bill-payments.service.ts:355-484 | runs the answer step by step: posting, bill and intent together, a second receipt undoing all of it; what each answer does is `BillOutcomes.EveryAnswerCounts` |
| BillService.ApplyReversal | src/modules/bill-payments/bill-payments.service.ts:486-553 | reverses a SUCCESSFUL bill once, or changes nothing |
| BillService.Reconcile | src/modules/bill-payments/bill-payments.service.ts:338-353 | asks only about bills awaiting reconciliation |
| BillService.MarkUncertain | src/modules/bill-payments/bill-payments.service.ts:835-861 | overwrites whatever status the bill had |
| BillService.CompleteIntentPayment | src/modules/bill-payments/bill-payments.service.ts:770-808 | asks the provider iff the bill is PENDING and the number is known, and applies the answer, or leaves the bill for reconciliation |
| BillService.RecordIntentPayment | src/modules/bill-payments/bill-payments.service.ts:689-763 | records the bill of an intent, refused if it exists |
| BillService.SyncIntent | src/modules/bill-payments/bill-payments.service.ts:815-833 | moves an intent only out of PROCESSING |
| AjoSettlementService.PayContribution | src/modules/ajo-groups/ajo-settlement.service.ts:93-183 | runs the transaction `AjoOutcomes.ContributionPaysTheAmount` describes: posting, contribution row and schedule together or not at all |
| AjoSettlementService.RecordContributionWithin | src/modules/ajo-groups/ajo-settlement.service.ts:197-262 | the row and the schedule's new amount and status |
| AjoSettlementService.SettlePayout | src/modules/ajo-groups/ajo-settlement.service.ts:317-450 | pays a collected cycle from a sufficient pool, or refuses and changes nothing |
| AjoSettlementService.ExecutePayout | src/modules/ajo-groups/ajo-settlement.service.ts:272-290 | a payout held back is rolled back and then marked HELD; every other refusal leaves no trace |
| ScheduleOrder.RotationFollowsPositions | src/modules/ajo-groups/domain/ajo-schedule.ts:54-99 | for slots listed in any order there is a rotation iff there are 2 to 1,000 of them, the amount is positive, the positions are 1 to n and the dates fit; cycle i then pays the slot at position i + 1 |
| GroupService.SortByPosition | src/modules/ajo-groups/domain/ajo-schedule.ts:60 | the insertion sort computes the stable order of positions |
| GroupService.GenerateSchedule | src/modules/ajo-groups/domain/ajo-schedule.ts:41-99 | one cycle per slot in position order, whatever order they are listed in, or a refusal |
| GroupService.Found | src/modules/ajo-groups/ajo-groups.service.ts:49-155 | a group with its founder's slots and plan, or a refusal of bounds, capacity or dates |
| GroupService.AjoGroup.Join | src/modules/ajo-groups/ajo-groups.service.ts:305-403 | slots at the next free positions and one plan, or a refusal that changes nothing |
| GroupService.AjoGroup.Lock | src/modules/ajo-groups/ajo-groups.service.ts:510-658 | the loops over cycles, slots and plans write exactly the locked rotation |
| GroupService.AjoGroup.RequestSwap | src/modules/ajo-groups/ajo-swaps.service.ts:150-242 | a request between two active owners with no conflicting request, started payout or overdue contribution |
| GroupService.AjoGroup.Approve | src/modules/ajo-groups/ajo-swaps.service.ts:244-305 | records an owner's approval and executes when every owner has approved; a refusal leaves the swaps alone |
| GroupService.AjoGroup.Reject | src/modules/ajo-groups/ajo-swaps.service.ts:307-351 | closes a pending request for an owner or the administrator |
| GroupService.AjoGroup.Execute | src/modules/ajo-groups/ajo-swaps.service.ts:353-427 | copies the version in force with two slots exchanged as the next version |
| GroupService.AjoGroup.RequirePending | src/modules/ajo-groups/ajo-swaps.service.ts:429-443 | refuses an expired request after marking it EXPIRED; whatever else it answers it changes nothing |
| PaymentService.Create | src/modules/payments/payments.service.ts:89-156 | one intent per caller and key, for the resolved amount |
| PaymentService.Confirm | src/modules/payments/payments.service.ts:164-203 | checks expiry, method, details and PIN before money moves |
| PaymentService.SettleFromWallet | src/modules/payments/payments.service.ts:214-309 | balance, posting, target and intent in one transaction, undone whole if the target refuses |
| PaymentService.PayFromWallet | src/modules/payments/payments.service.ts:214-333 | the transaction, then the provider, which is asked only by the request whose own transaction made the payment |
| PaymentService.StartExternal | src/modules/payments/payments.service.ts:342-391 | resolves the deposit again, then PROCESSING with a reference no other intent has |
| SettlementService.SettleSuccessful | src/modules/payments/payment-settlement.service.ts:50-197 | posts the deposit unless the intent is unmatched or settled |
| SettlementService.SettleFailed | src/modules/payments/payment-settlement.service.ts:205-226 | fails an intent that has not succeeded and posts nothing |
| SettlementService.Record | src/modules/webhooks/monnify-webhooks.service.ts:51-134 | only the first delivery of an event goes on to the ledger |
| FoodService.Subscribe | src/modules/food-ajo/food-ajo-programmes.service.ts:237-325 | a new or renewed enrolment within capacity |
| FoodService.CancelSubscription | src/modules/food-ajo/food-ajo-programmes.service.ts:333-376 | refund and cancellation together or neither |
| FoodService.RefundWithin | src/modules/food-ajo/food-subscription.payment-target.ts:150-215 | one posting under the payment's key, refused once buying has begun |
| FoodService.SettleEnrolment | src/modules/food-ajo/food-subscription.payment-target.ts:86-100 | adds the amount to what was paid, and makes the enrolment ACTIVE at price times quantity, as in `FoodOutcomes.EnrolmentPaymentMovesThePrice` |
| WalletService.Send | src/modules/wallets/wallet-movements.service.ts:42-125 | runs the transaction `MovementTheorems.TransferMovesTheAmount` describes: row and posting together or neither |
| WalletService.Withdraw | src/modules/wallets/wallet-movements.service.ts:136-208 | runs the transaction `MovementTheorems.WithdrawalReservesTheAmount` describes: row and reserve together or neither |
| AuthService.AuthTables.CreateSession | src/modules/auth/auth.service.ts:466-487 | a session with one live token |
| AuthService.AuthTables.RefreshToken | src/modules/auth/auth.service.ts:348-415 | rotation, retry or reuse detection, in place |
| AuthService.AuthTables.Revoke | src/modules/auth/auth.service.ts:568-588 | ends in place exactly the sessions `SessionOutcomes.LogOutEndsItsSession` and `SessionOutcomes.LogOutEverywhereEndsTheUsers` name, with their tokens |
| AuthService.AuthTables.EndAllOf | src/modules/auth/password-reset.service.ts:148-155 | a password reset ends sessions and leaves their tokens |

## Left out

- Controllers, request validation, guards, configuration, logging, messaging, health checks, serialisation, receipts' contents, audit and outbox rows.
- The HTTP providers and notifications: the bill provider appears only through its answers.
- Hashing, PIN checks, one-time codes and invitations: an accept or refuse given as an input.
- KYC and the fee formula: the fee is any amount not below zero.
- Referrals, Akawo goals and pools and their payment targets, devices, verification challenges, coordinator applications, food procurement and distribution.
- Calendar arithmetic: a group's due dates are given as a sequence of dates, one per possible cycle.
- An intent's wallet is looked up once, at creation, and accounts exist with their wallets.
- The race handler of transfers and withdrawals (`withIdempotencyRace`): the lookup and the posting are one step here, so the lost race it answers is the retry of `Retries.RetryMovesNothing`.
- The administrative ledger reversal is modelled in `Ledger` and is not a step of `Machine`; the no-overdraft and agreement results are about runs without it.
- Catalog.VisibleIsListed: assumes the provider lists no code twice within one list.
- Catalog.SyncIsIdempotent: assumes the same of the listing it syncs.
