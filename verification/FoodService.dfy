/** Food Ajo enrolments, transaction by transaction. */
module FoodService {
  import opened Prelude
  import opened Tables
  import opened Store
  import Food

  method Subscribe(db: Database, user: nat, p: nat, package: nat, quantity: int) returns (outcome: Result<()>)
    modifies db`subscriptions
    ensures Commits(old(db.State()), db.State(), outcome, Food.Subscribe(old(db.State()), user, p, package, quantity))
  {
    if p >= |db.programmes| {
      return Err(NotFound);
    }
    var programme := db.programmes[p];
    var existing := Food.FindSubscription(db.subscriptions, p, user, package);
    if programme.status != POpen {
      return Err(Unprocessable);
    }
    if package >= |programme.packages| || !programme.packages[package].active {
      return Err(Unprocessable);
    }
    if existing.Some? && Food.CanCancel(db.subscriptions[existing.value].status) {
      return Err(Conflict);
    }
    if quantity < 1 {
      return Err(Unprocessable);
    }
    var taken := Sum(db.subscriptions, Food.Portions(p));
    if taken + quantity > programme.capacity {
      return Err(Conflict);
    }
    if existing.Some? {
      var s := existing.value;
      db.subscriptions := db.subscriptions[s := db.subscriptions[s].(status := SPending, quantity := quantity)];
    } else {
      db.subscriptions := db.subscriptions + [Subscription(p, package, user, SPending, quantity, 0, None, 0)];
    }
    outcome := Ok(());
  }

  method SettleEnrolment(db: Database, s: nat, amount: int)
    requires s < |db.subscriptions|
    modifies db`subscriptions
    ensures db.State() == Food.SettleEnrolment(old(db.State()), s, amount)
  {
    var total := Food.FullPrice(db.State(), db.subscriptions[s]);
    db.subscriptions := db.subscriptions[s := db.subscriptions[s].(paid := db.subscriptions[s].paid + amount)];
    if db.subscriptions[s].paid >= total {
      db.subscriptions := db.subscriptions[s := db.subscriptions[s].(status := SActive, paidAt := Some(db.now))];
    }
  }

  method RefundWithin(db: Database, s: nat) returns (outcome: Result<()>)
    requires s < |db.subscriptions|
    modifies db`ledger
    ensures match Food.Refund(old(db.State()), s)
            case Ok(ledger) => outcome.Ok? && db.ledger == ledger
            case Err(error) => outcome == Err(error) && db.ledger == old(db.ledger)
  {
    var row := db.subscriptions[s];
    if row.paid <= 0 {
      return Ok(());
    }
    if row.programme >= |db.programmes| || !Food.CanRefund(db.programmes[row.programme].status) {
      return Err(Conflict);
    }
    if row.user !in db.wallets {
      return Err(Unprocessable);
    }
    var posting := PostWithin(db, Food.RefundKeyOf(s, row), RefundEntries(row));
    outcome := if posting.Ok? then Ok(()) else Err(posting.error);
  }

  method CancelSubscription(db: Database, user: nat, s: nat) returns (outcome: Result<()>)
    modifies db`ledger, db`subscriptions
    ensures Commits(old(db.State()), db.State(), outcome, Food.CancelSubscription(old(db.State()), user, s))
  {
    if s >= |db.subscriptions| || db.subscriptions[s].user != user {
      return Err(NotFound);
    }
    if !Food.CanCancel(db.subscriptions[s].status) {
      return Err(Conflict);
    }
    var before := db.ledger;
    outcome := RefundWithin(db, s);
    if outcome.Ok? {
      db.subscriptions := db.subscriptions[s := Food.Withdrawn(db.subscriptions[s], db.ledger != before)];
    }
  }
}
