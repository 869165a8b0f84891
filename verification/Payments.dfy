/** Payment intents: creation, confirmation from the wallet, and external deposits. */
module Payments {
  import opened Prelude
  import opened Ledger
  import opened Tables
  import AjoMoney
  import Bills
  import Food
  import Groups

  const INTENT_TTL: int := 15 * 60 * 1000
  const MINIMUM_DEPOSIT: int := 50_000

  datatype Rail = FromWallet | ByTransfer | ByCard

  predicate AcceptsMethod(target: Target, rail: Rail) {
    if target.TopUp? then rail != FromWallet else rail == FromWallet
  }

  predicate FixedAmount(target: Target) { target.Food? }
  predicate ChargesFee(target: Target) { target.TopUp? || target.BillFor? }
  predicate HoldsFee(target: Target) { target.BillFor? }
  predicate CompletesLater(target: Target) { target.BillFor? }

  /** The amount to take of what a part-payable target still owes. */
  function PartialAmount(outstanding: int, requested: Option<int>): Result<int> {
    if outstanding <= 0 then Err(Unprocessable)
    else if requested.None? then Ok(outstanding)
    else if requested.value <= 0 || requested.value > outstanding then Err(Unprocessable)
    else Ok(requested.value)
  }

  /** A bill's validation and product, refused or with the limits its amount must meet. */
  datatype Quote = Refused(error: Error) | Quoted(minimum: Option<int>, maximum: Option<int>, fixed: Option<int>)

  predicate WithinLimits(quote: Quote, amount: int)
    requires quote.Quoted?
  {
    && amount > 0
    && (quote.minimum.Some? ==> amount >= quote.minimum.value)
    && (quote.maximum.Some? ==> amount <= quote.maximum.value)
    && (quote.fixed.Some? ==> amount == quote.fixed.value)
  }

  /** quoteForIntent: a fixed-price product is paid at its price when no amount is asked for. */
  function ResolveBill(quote: Quote, requested: Option<int>): Result<int> {
    if quote.Refused? then Err(quote.error)
    else
      var amount := if requested.Some? then requested else quote.fixed;
      if amount.None? || !WithinLimits(quote, amount.value) then Err(Unprocessable) else Ok(amount.value)
  }

  function ResolveContribution(db: Db, user: nat, group: nat, schedule: nat, requested: Option<int>): Result<int> {
    if group >= |db.groups| || schedule >= |db.groups[group].contribs| then Err(NotFound)
    else if !AjoMoney.Owes(db.groups[group], user, schedule) then Err(NotFound)
    else
      var row := db.groups[group].contribs[schedule];
      if !AjoMoney.Collectable(row) || row.status == Groups.Paid then Err(Conflict)
      else PartialAmount(row.due - row.paid, requested)
  }

  /**
   * What a target costs its payer now. quote is what the bill catalogue
   * says of a bill's validation and product.
   */
  function Resolve(db: Db, user: nat, target: Target, requested: Option<int>, quote: Quote): Result<int> {
    match target
    case TopUp =>
      if requested.None? || requested.value < MINIMUM_DEPOSIT then Err(Unprocessable) else Ok(requested.value)
    case Contribution(group, schedule) => ResolveContribution(db, user, group, schedule, requested)
    case Food(s) => Food.ResolveEnrolment(db, user, s)
    case BillFor(_) =>
      ResolveBill(quote, requested)
  }

  function FindIntent(intents: seq<Intent>, user: nat, request: nat): (found: Option<nat>)
    ensures found.Some? ==> found.value < |intents| && intents[found.value].user == user
                            && intents[found.value].request == request
    ensures found.None? ==> forall i :: 0 <= i < |intents| ==> intents[i].user != user || intents[i].request != request
  {
    FindLast(intents, (i: Intent) => i.user == user && i.request == request)
  }

  /** The insert that ends create: a raced key returns the winner's row. */
  function InsertIntent(db: Db, user: nat, target: Target, amount: int, fee: int, request: nat): Result<Db> {
    if FindIntent(db.intents, user, request).Some? then Ok(db)
    else if amount <= 0 || fee < 0 || (fee > 0 && !ChargesFee(target)) then Err(Unprocessable)
    else Ok(db.(intents := db.intents + [Intent(
      user, user in db.wallets, target, amount, fee, RequiresConfirmation,
      request, db.now + INTENT_TTL, None, None)]))
  }

  function CreateIntent(db: Db, user: nat, target: Target, requested: Option<int>, fee: int,
                        request: nat, quote: Quote): Result<Db> {
    if FindIntent(db.intents, user, request).Some? then Ok(db)
    else if requested.Some? && FixedAmount(target) then Err(Unprocessable)
    else
      var amount :- Resolve(db, user, target, requested, quote);
      InsertIntent(db, user, target, amount, if ChargesFee(target) then fee else 0, request)
  }

  function Destination(target: Target, db: Db, user: nat): Account {
    match target
    case TopUp => ProviderPayable
    case Contribution(group, _) => Pool(group)
    case Food(s) => if s < |db.subscriptions| then Escrow(db.subscriptions[s].programme) else ProviderPayable
    case BillFor(_) => Reserved(user)
  }

  function ChargeEntries(i: Intent, destination: Account): seq<Entry> {
    [Dr(Available(i.user), Total(i)),
     Cr(destination, if HoldsFee(i.target) then Total(i) else i.amount)]
    + (if HoldsFee(i.target) then [] else FeeLeg(Cr(FeeRevenue, i.fee)))
  }

  /** The target records its payment, in the same transaction as the posting. */
  function SettleTarget(db: Db, i: nat, txn: nat): Result<Db>
    requires i < |db.intents|
  {
    var row := db.intents[i];
    match row.target
    case TopUp => Ok(db)
    case Contribution(group, schedule) =>
      if group >= |db.groups| || schedule >= |db.groups[group].contribs| then Err(NotFound)
      else AjoMoney.RecordContribution(db, row.user, group, schedule, row.amount, OfIntent(i), txn)
    case Food(s) =>
      if s >= |db.subscriptions| then Err(NotFound) else Ok(Food.SettleEnrolment(db, s, row.amount))
    case BillFor(_) => Bills.RecordIntentPayment(db, row.user, i, row.amount, row.fee, txn)
  }

  function MarkPaid(i: Intent, txn: nat): Intent {
    i.(status := if CompletesLater(i.target) then Processing else Succeeded, txn := Some(txn))
  }

  /** settleFromWallet: balance, posting, target and intent in one transaction. */
  function SettleFromWallet(db: Db, user: nat, i: nat, caller: nat, quote: Quote): Result<Db> {
    if i >= |db.intents| || db.intents[i].user != user then Err(NotFound)
    else if db.intents[i].status != RequiresConfirmation then Ok(db)
    else if !AcceptsMethod(db.intents[i].target, FromWallet) then Err(Unprocessable)
    else if !db.intents[i].hasWallet then Err(Unprocessable)
    else
      var row := db.intents[i];
      var amount :- Resolve(db, user, row.target,
        if FixedAmount(row.target) then None else Some(row.amount), quote);
      if amount != row.amount then Err(Conflict)
      else if Balance(db.ledger, Available(user)) < Total(row) then Err(Unprocessable)
      else
        var posting :- Post(db.ledger, IntentKey(i, caller), ChargeEntries(row, Destination(row.target, db, user)));
        var paid :- SettleTarget(db.(ledger := posting.ledger), i, posting.id);
        Ok(paid.(intents := paid.intents[i := MarkPaid(row, posting.id)]))
  }

  /** What follows a payment's transaction: a request that settled it itself sends a bill on to the provider. */
  function Finish(paid: Db, settled: bool, user: nat, i: nat, hasReference: bool, answer: Option<Bills.Answer>): Db {
    if settled && i < |paid.intents| && CompletesLater(paid.intents[i].target)
    then Bills.CompleteIntentPayment(paid, user, i, hasReference, answer) else paid
  }

  /** A wallet payment run to its end. */
  function PayFromWallet(db: Db, user: nat, i: nat, caller: nat, quote: Quote,
                         hasReference: bool, answer: Option<Bills.Answer>): Result<Db> {
    var paid :- SettleFromWallet(db, user, i, caller, quote);
    Ok(Finish(paid, db.intents[i].status == RequiresConfirmation, user, i, hasReference, answer))
  }

  predicate ReferenceTaken(intents: seq<Intent>, i: nat, reference: nat) {
    exists j :: 0 <= j < |intents| && j != i && intents[j].reference == Some(reference)
  }

  /** startExternal: the deposit is resolved again, its status not; provider references are unique. */
  function StartExternal(db: Db, i: nat, reference: nat): Result<Db> {
    if i >= |db.intents| then Err(NotFound)
    else if AcceptsMethod(db.intents[i].target, FromWallet) then Err(Unprocessable)
    else if db.intents[i].amount < MINIMUM_DEPOSIT then Err(Unprocessable)
    else if ReferenceTaken(db.intents, i, reference) then Err(UniqueViolation)
    else Ok(db.(intents := db.intents[i := db.intents[i].(status := Processing, reference := Some(reference))]))
  }

  predicate Payable(i: Intent, now: int) { i.status == RequiresConfirmation && i.expiresAt > now }

  function Confirm(db: Db, user: nat, i: nat, rail: Rail, caller: nat, reference: nat,
                   detailsOk: bool, pinOk: bool, quote: Quote, hasReference: bool, answer: Option<Bills.Answer>):
    Result<Db>
  {
    if i >= |db.intents| || db.intents[i].user != user then Err(NotFound)
    else if db.intents[i].status != RequiresConfirmation then Ok(db)
    else if !Payable(db.intents[i], db.now) then Err(Conflict)
    else if !AcceptsMethod(db.intents[i].target, rail) then Err(Unprocessable)
    else if !detailsOk then Err(Unprocessable)
    else if !pinOk then Err(Forbidden)
    else if rail == FromWallet then PayFromWallet(db, user, i, caller, quote, hasReference, answer)
    else StartExternal(db, i, reference)
  }

  // ----- Deposits ---------------------------------------------------------

  function FindReference(intents: seq<Intent>, reference: nat): (found: Option<nat>)
    ensures found.Some? ==> found.value < |intents| && intents[found.value].reference == Some(reference)
    ensures found.None? ==> forall i :: 0 <= i < |intents| ==> intents[i].reference != Some(reference)
  {
    FindLast(intents, (i: Intent) => i.reference == Some(reference))
  }

  /** The transaction inside settleSuccessful, for an intent some event's reference matched. */
  function SettleDeposit(db: Db, i: nat): Result<Db> {
    if i >= |db.intents| || db.intents[i].reference.None? then Err(NotFound)
    else
      var row := db.intents[i];
      if row.status == Succeeded then Ok(db)
      else if row.user !in db.wallets then Err(NotFound)
      else
        var posting :- Post(db.ledger, SettlementKey(i), DepositEntries(row));
        Ok(db.(ledger := posting.ledger,
               intents := db.intents[i := row.(status := Succeeded, txn := Some(posting.id))]))
  }

  /** settleFailed's write. Its check came earlier and may no longer hold. */
  function WriteFailed(db: Db, i: nat): Result<Db> {
    if i >= |db.intents| || db.intents[i].reference.None? then Err(NotFound)
    else Ok(db.(intents := db.intents[i := db.intents[i].(status := FailedIntent)]))
  }
}
