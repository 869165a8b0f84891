/** The bill payment service, transaction by transaction. */
module BillService {
  import opened Prelude
  import opened Ledger
  import opened Tables
  import opened Store
  import Bills

  method Create(db: Database, user: nat, r: Bills.BillRequest) returns (outcome: Result<()>)
    modifies db
    ensures Commits(old(db.State()), db.State(), outcome, Bills.CreateBill(old(db.State()), user, r))
  {
    if !r.validated {
      return Err(Unprocessable);
    }
    var existing := Bills.FindBill(db.bills, user, r.caller);
    if existing.Some? {
      if db.bills[existing.value].hash != Some(r.hash) {
        return Err(Conflict);
      }
      return Ok(());
    }
    if user !in db.wallets || !db.wallets[user] {
      return Err(NotFound);
    }
    if r.amount <= 0 || !r.allowed || r.fee.None? || r.fee.value < 0 {
      return Err(Unprocessable);
    }
    var available := Balance(db.ledger, Available(user));
    if available < r.amount + r.fee.value {
      return Err(Unprocessable);
    }
    var saved, id := db.State(), |db.bills|;
    var row := Bills.NewBill(user, r.amount, r.fee.value, r.caller, Some(r.hash), None, |db.ledger|);
    db.bills := db.bills + [row];
    var reserve := PostWithin(db, BillReserve(id), ReserveEntries(row));
    if reserve.Err? {
      db.Restore(saved);
      return Err(reserve.error);
    }
    db.bills := db.bills[id := row.(reserve := reserve.value)];
    assert db.bills == saved.bills + [row.(reserve := reserve.value)];
    outcome := Ok(());
  }

  method SyncIntent(db: Database, intent: Option<nat>, status: IntentStatus)
    modifies db`intents
    ensures db.intents == Bills.SyncIntent(old(db.intents), intent, status)
  {
    if intent.Some? && intent.value < |db.intents| && db.intents[intent.value].status == Processing {
      db.intents := db.intents[intent.value := db.intents[intent.value].(status := status)];
    }
  }

  method MarkUncertain(db: Database, b: nat) returns (outcome: Result<()>)
    modifies db`bills
    ensures Commits(old(db.State()), db.State(), outcome, Bills.MarkUncertain(old(db.State()), b))
  {
    if b >= |db.bills| {
      return Err(NotFound);
    }
    db.bills := db.bills[b := db.bills[b].(status := ReconciliationRequired, reconciliation := Awaiting)];
    outcome := Ok(());
  }

  method Release(db: Database, b: nat) returns (outcome: Result<()>)
    requires b < |db.bills|
    modifies db`ledger, db`bills, db`intents
    ensures Commits(old(db.State()), db.State(), outcome, Bills.Release(old(db.State()), b))
  {
    var payment := db.bills[b];
    var release := PostWithin(db, BillRelease(b), ReleaseEntries(payment));
    if release.Err? {
      return Err(release.error);
    }
    db.bills := db.bills[b := payment.(status := BillFailed, released := Some(release.value))];
    SyncIntent(db, payment.intent, FailedIntent);
    outcome := Ok(());
  }

  /** The receipt is created after the posting and the status; a second receipt undoes both. */
  method Settle(db: Database, b: nat) returns (outcome: Result<()>)
    requires b < |db.bills|
    modifies db
    ensures Commits(old(db.State()), db.State(), outcome, Bills.Settle(old(db.State()), b))
  {
    var saved, payment := db.State(), db.bills[b];
    var posting := PostWithin(db, BillSettle(b), SettleEntries(payment));
    if posting.Err? {
      return Err(posting.error);
    }
    db.bills := db.bills[b := payment.(
      status := Successful, reconciliation := NotRequired, settled := Some(posting.value))];
    if db.bills[b].receipt {
      db.Restore(saved);
      return Err(UniqueViolation);
    }
    db.bills := db.bills[b := db.bills[b].(receipt := true)];
    SyncIntent(db, payment.intent, Succeeded);
    outcome := Ok(());
  }

  method ApplyReversal(db: Database, b: nat) returns (outcome: Result<()>)
    requires b < |db.bills|
    modifies db
    ensures Commits(old(db.State()), db.State(), outcome, Bills.ApplyReversal(old(db.State()), b))
  {
    var saved, payment := db.State(), db.bills[b];
    if payment.status == BillReversed {
      return Ok(());
    }
    if payment.status != Successful {
      return Err(Conflict);
    }
    var posting := PostWithin(db, BillReversal(b), ReversalEntries(payment));
    if posting.Err? {
      return Err(posting.error);
    }
    if payment.reversed.Some? {
      db.Restore(saved);
      return Err(UniqueViolation);
    }
    db.bills := db.bills[b := payment.(
      status := BillReversed, reconciliation := Resolved, reversed := Some(posting.value))];
    outcome := Ok(());
  }

  method ApplyProviderResult(db: Database, b: nat, answer: Bills.Answer) returns (outcome: Result<()>)
    modifies db
    ensures Commits(old(db.State()), db.State(), outcome, Bills.ApplyAnswer(old(db.State()), b, answer))
  {
    if b >= |db.bills| {
      return Err(NotFound);
    }
    if answer == Bills.SaysReversed {
      outcome := ApplyReversal(db, b);
    } else if answer == Bills.SaysPending || answer == Bills.SaysUnknown {
      outcome := MarkUncertain(db, b);
    } else if !Bills.AwaitsVerdict(db.bills[b]) {
      outcome := Ok(());
    } else if answer == Bills.SaysFailed {
      outcome := Release(db, b);
    } else {
      outcome := Settle(db, b);
    }
  }

  method Reconcile(db: Database, b: nat, answer: Option<Bills.Answer>) returns (outcome: Result<()>)
    modifies db
    ensures Commits(old(db.State()), db.State(), outcome, Bills.Reconcile(old(db.State()), b, answer))
  {
    if b >= |db.bills| {
      return Err(NotFound);
    }
    if db.bills[b].reconciliation != Awaiting {
      return Err(Conflict);
    }
    if answer.None? {
      return Err(BadGateway);
    }
    outcome := ApplyProviderResult(db, b, answer.value);
  }

  /** called says a request went to the provider; answer is what it said, None if the request failed. */
  method CompleteIntentPayment(db: Database, user: nat, intent: nat, hasReference: bool, answer: Option<Bills.Answer>)
    returns (called: bool)
    modifies db
    ensures db.State() == Bills.CompleteIntentPayment(old(db.State()), user, intent, hasReference, answer)
    ensures var found := Bills.FindBill(old(db.bills), user, OfIntent(intent));
            called <==> found.Some? && old(db.bills)[found.value].status == BillPending && hasReference
  {
    var payment := Bills.FindBill(db.bills, user, OfIntent(intent));
    if payment.None? || db.bills[payment.value].status != BillPending {
      return false;
    }
    called := hasReference;
    if !hasReference || answer.None? {
      var _ := MarkUncertain(db, payment.value);
    } else {
      var _ := ApplyProviderResult(db, payment.value, answer.value);
    }
  }

  method RecordIntentPayment(db: Database, user: nat, intent: nat, amount: int, fee: int, txn: nat)
    returns (outcome: Result<()>)
    modifies db`bills
    ensures Commits(old(db.State()), db.State(), outcome,
                    Bills.RecordIntentPayment(old(db.State()), user, intent, amount, fee, txn))
  {
    if user !in db.wallets {
      return Err(Unprocessable);
    }
    var taken := Bills.FindBill(db.bills, user, OfIntent(intent));
    if taken.Some? {
      return Err(UniqueViolation);
    }
    db.bills := db.bills + [Bills.NewBill(user, amount, fee, OfIntent(intent), None, Some(intent), txn)];
    outcome := Ok(());
  }
}
