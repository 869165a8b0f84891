/** Contributions and payouts, transaction by transaction. */
module AjoSettlementService {
  import opened Prelude
  import opened Ledger
  import opened Tables
  import opened Store
  import AjoMoney
  import Groups

  method RecordContributionWithin(db: Database, user: nat, group: nat, schedule: nat, amount: int,
                                  caller: CallerKey, txn: nat) returns (outcome: Result<()>)
    requires group < |db.groups| && schedule < |db.groups[group].contribs|
    modifies db`contributions, db`groups
    ensures Commits(old(db.State()), db.State(), outcome,
                    AjoMoney.RecordContribution(old(db.State()), user, group, schedule, amount, caller, txn))
  {
    var taken := AjoMoney.FindContribution(db.contributions, group, schedule, caller);
    if taken.Some? {
      return Err(UniqueViolation);
    }
    db.contributions := db.contributions + [ContributionRow(group, schedule, user, amount, caller, txn)];
    var g := db.groups[group];
    var row := g.contribs[schedule];
    var paid := row.paid + amount;
    var status := Groups.StatusFor(row.due, paid, row.dueAt, db.now);
    db.groups := db.groups[group := g.(contribs := g.contribs[schedule := row.(paid := paid, status := status)])];
    outcome := Ok(());
  }

  method PayContribution(db: Database, user: nat, group: nat, schedule: nat, amount: int, caller: CallerKey)
    returns (outcome: Result<()>)
    modifies db`ledger, db`contributions, db`groups
    ensures Commits(old(db.State()), db.State(), outcome,
                    AjoMoney.PayContribution(old(db.State()), user, group, schedule, amount, caller))
  {
    if group >= |db.groups| || schedule >= |db.groups[group].contribs| {
      return Err(NotFound);
    }
    if !AjoMoney.Owes(db.groups[group], user, schedule) {
      return Err(Forbidden);
    }
    var existing := AjoMoney.FindContribution(db.contributions, group, schedule, caller);
    if existing.Some? {
      return Ok(());
    }
    var row := db.groups[group].contribs[schedule];
    if !AjoMoney.Collectable(row) {
      return Err(Conflict);
    }
    if amount <= 0 || row.due - row.paid <= 0 || amount > row.due - row.paid {
      return Err(Unprocessable);
    }
    if user !in db.wallets {
      return Err(Unprocessable);
    }
    var balance := Balance(db.ledger, Available(user));
    if balance < amount {
      return Err(Unprocessable);
    }
    var posting := PostWithin(db, ContributionKey(group, schedule, caller),
      ContributionEntries(ContributionRow(group, schedule, user, amount, caller, |db.ledger|)));
    if posting.Err? {
      return Err(posting.error);
    }
    outcome := RecordContributionWithin(db, user, group, schedule, amount, caller, posting.value);
  }

  method SettlePayout(db: Database, user: nat, group: nat, r: nat) returns (outcome: Result<()>)
    modifies db`ledger, db`payouts, db`groups
    ensures Commits(old(db.State()), db.State(), outcome, AjoMoney.SettlePayout(old(db.State()), user, group, r))
  {
    if group >= |db.groups| || r >= |db.groups[group].payouts| {
      return Err(NotFound);
    }
    var g := db.groups[group];
    if !Groups.IsAdmin(g, user) {
      return Err(Forbidden);
    }
    var existing := AjoMoney.FindPayout(db.payouts, group, r);
    if existing.Some? {
      return Ok(());
    }
    if !Groups.CanExecute(g.payouts[r].status) {
      return Err(Conflict);
    }
    if !Groups.FullyCollected(g, g.payouts[r].cycle) {
      return Err(PayoutHeld);
    }
    var recipient := AjoMoney.RecipientOf(g, r);
    if recipient.None? {
      return Err(NotFound);
    }
    if recipient.value !in db.wallets {
      return Err(Unprocessable);
    }
    var pool := Balance(db.ledger, Pool(group));
    if pool < g.payouts[r].due {
      return Err(PayoutHeld);
    }
    var row := PayoutRow(group, r, recipient.value, g.payouts[r].due, |db.ledger|);
    var posting := PostWithin(db, PayoutKey(group, r), PayoutEntries(row));
    if posting.Err? {
      return Err(posting.error);
    }
    db.payouts := db.payouts + [row.(txn := posting.value)];
    db.groups := db.groups[group := Groups.RecordPayout(g, r)];
    outcome := Ok(());
  }

  /** A payout held back is marked HELD after its transaction has rolled back; every other refusal leaves no trace. */
  method ExecutePayout(db: Database, user: nat, group: nat, r: nat) returns (outcome: Result<()>)
    modifies db`ledger, db`payouts, db`groups
    ensures var before, spec := old(db.State()), AjoMoney.SettlePayout(old(db.State()), user, group, r);
            if spec == Err(PayoutHeld) then
              outcome == Err(PayoutHeld) && Ok(db.State()) == AjoMoney.WriteHold(before, group, r)
            else Commits(before, db.State(), outcome, spec)
  {
    outcome := SettlePayout(db, user, group, r);
    if outcome == Err(PayoutHeld) {
      db.groups := db.groups[group := Groups.HoldPayout(db.groups[group], r)];
    }
  }
}
