/** Payment intents, transaction by transaction. */
module PaymentService {
  import opened Prelude
  import opened Ledger
  import opened Tables
  import opened Store
  import AjoSettlementService
  import Bills
  import BillService
  import FoodService
  import Payments

  method Create(db: Database, user: nat, target: Target, requested: Option<int>, fee: int, request: nat,
                quote: Payments.Quote)
    returns (outcome: Result<()>)
    modifies db`intents
    ensures Commits(old(db.State()), db.State(), outcome,
                    Payments.CreateIntent(old(db.State()), user, target, requested, fee, request, quote))
  {
    var existing := Payments.FindIntent(db.intents, user, request);
    if existing.Some? {
      return Ok(());
    }
    if requested.Some? && Payments.FixedAmount(target) {
      return Err(Unprocessable);
    }
    var resolved := Payments.Resolve(db.State(), user, target, requested, quote);
    if resolved.Err? {
      return Err(resolved.error);
    }
    var charged := if Payments.ChargesFee(target) then fee else 0;
    if resolved.value <= 0 || charged < 0 {
      return Err(Unprocessable);
    }
    db.intents := db.intents + [Intent(
      user, user in db.wallets, target, resolved.value, charged, RequiresConfirmation, request,
      db.now + Payments.INTENT_TTL, None, None)];
    outcome := Ok(());
  }

  /** The target's own record of the payment. */
  method SettleTarget(db: Database, i: nat, txn: nat) returns (outcome: Result<()>)
    requires i < |db.intents|
    modifies db`contributions, db`groups, db`subscriptions, db`bills
    ensures Commits(old(db.State()), db.State(), outcome, Payments.SettleTarget(old(db.State()), i, txn))
  {
    var row := db.intents[i];
    match row.target {
      case TopUp =>
        outcome := Ok(());
      case Contribution(group, schedule) =>
        if group >= |db.groups| || schedule >= |db.groups[group].contribs| {
          return Err(NotFound);
        }
        outcome := AjoSettlementService.RecordContributionWithin(
          db, row.user, group, schedule, row.amount, OfIntent(i), txn);
      case Food(s) =>
        if s >= |db.subscriptions| {
          return Err(NotFound);
        }
        FoodService.SettleEnrolment(db, s, row.amount);
        outcome := Ok(());
      case BillFor(_) =>
        outcome := BillService.RecordIntentPayment(db, row.user, i, row.amount, row.fee, txn);
    }
  }

  /**
   * Balance, posting, target and intent: one transaction, undone whole if the
   * target refuses. settled is what the request remembers of it.
   */
  method SettleFromWallet(db: Database, user: nat, i: nat, caller: nat, quote: Payments.Quote)
    returns (outcome: Result<()>, settled: bool)
    modifies db
    ensures Commits(old(db.State()), db.State(), outcome,
                    Payments.SettleFromWallet(old(db.State()), user, i, caller, quote))
    ensures outcome.Ok? ==> (settled <==> old(db.State()).intents[i].status == RequiresConfirmation)
  {
    if i >= |db.intents| || db.intents[i].user != user {
      return Err(NotFound), false;
    }
    var intent := db.intents[i];
    if intent.status != RequiresConfirmation {
      return Ok(()), false;
    }
    if !Payments.AcceptsMethod(intent.target, Payments.FromWallet) || !intent.hasWallet {
      return Err(Unprocessable), false;
    }
    var requested := if Payments.FixedAmount(intent.target) then None else Some(intent.amount);
    var resolved := Payments.Resolve(db.State(), user, intent.target, requested, quote);
    if resolved.Err? {
      return Err(resolved.error), false;
    }
    if resolved.value != intent.amount {
      return Err(Conflict), false;
    }
    var available := Balance(db.ledger, Available(user));
    if available < Total(intent) {
      return Err(Unprocessable), false;
    }
    var saved := db.State();
    var destination := Payments.Destination(intent.target, saved, user);
    var posting := PostWithin(db, IntentKey(i, caller), Payments.ChargeEntries(intent, destination));
    if posting.Err? {
      return Err(posting.error), false;
    }
    outcome := SettleTarget(db, i, posting.value);
    settled := outcome.Ok?;
    if outcome.Err? {
      db.Restore(saved);
      return;
    }
    db.intents := db.intents[i := Payments.MarkPaid(intent, posting.value)];
  }

  method Finish(db: Database, settled: bool, user: nat, i: nat, hasReference: bool, answer: Option<Bills.Answer>)
    returns (called: bool)
    modifies db
    ensures db.State() == Payments.Finish(old(db.State()), settled, user, i, hasReference, answer)
    ensures called ==> settled
  {
    called := false;
    if settled && i < |db.intents| && Payments.CompletesLater(db.intents[i].target) {
      called := BillService.CompleteIntentPayment(db, user, i, hasReference, answer);
    }
  }

  ghost predicate WasUnpaid(db: Db, i: nat) { i < |db.intents| && db.intents[i].status == RequiresConfirmation }

  /** The transaction, and then the provider if the payment was this request's own and is for a bill. */
  method PayFromWallet(db: Database, user: nat, i: nat, caller: nat, quote: Payments.Quote,
                       hasReference: bool, answer: Option<Bills.Answer>) returns (outcome: Result<()>, called: bool)
    modifies db
    ensures Commits(old(db.State()), db.State(), outcome,
                    Payments.PayFromWallet(old(db.State()), user, i, caller, quote, hasReference, answer))
    ensures called ==> outcome.Ok? && WasUnpaid(old(db.State()), i)
  {
    called := false;
    var settled;
    outcome, settled := SettleFromWallet(db, user, i, caller, quote);
    if outcome.Ok? {
      called := Finish(db, settled, user, i, hasReference, answer);
    }
  }

  method StartExternal(db: Database, i: nat, reference: nat) returns (outcome: Result<()>)
    modifies db`intents
    ensures Commits(old(db.State()), db.State(), outcome, Payments.StartExternal(old(db.State()), i, reference))
  {
    if i >= |db.intents| {
      return Err(NotFound);
    }
    if Payments.AcceptsMethod(db.intents[i].target, Payments.FromWallet) {
      return Err(Unprocessable);
    }
    if db.intents[i].amount < Payments.MINIMUM_DEPOSIT {
      return Err(Unprocessable);
    }
    if Payments.ReferenceTaken(db.intents, i, reference) {
      return Err(UniqueViolation);
    }
    db.intents := db.intents[i := db.intents[i].(status := Processing, reference := Some(reference))];
    outcome := Ok(());
  }

  method Confirm(db: Database, user: nat, i: nat, rail: Payments.Rail, caller: nat, reference: nat,
                 detailsOk: bool, pinOk: bool, quote: Payments.Quote, hasReference: bool, answer: Option<Bills.Answer>)
    returns (outcome: Result<()>)
    modifies db
    ensures Commits(old(db.State()), db.State(), outcome,
                    Payments.Confirm(old(db.State()), user, i, rail, caller, reference, detailsOk, pinOk, quote,
                                     hasReference, answer))
  {
    if i >= |db.intents| || db.intents[i].user != user {
      return Err(NotFound);
    }
    if db.intents[i].status != RequiresConfirmation {
      return Ok(());
    }
    if !Payments.Payable(db.intents[i], db.now) {
      return Err(Conflict);
    }
    if !Payments.AcceptsMethod(db.intents[i].target, rail) || !detailsOk {
      return Err(Unprocessable);
    }
    if !pinOk {
      return Err(Forbidden);
    }
    if rail == Payments.FromWallet {
      var called;
      outcome, called := PayFromWallet(db, user, i, caller, quote, hasReference, answer);
    } else {
      outcome := StartExternal(db, i, reference);
    }
  }
}
