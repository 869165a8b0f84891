/** Transfers and withdrawals, transaction by transaction. */
module WalletService {
  import opened Prelude
  import opened Ledger
  import opened Tables
  import opened Store
  import Movements

  method Send(db: Database, user: nat, recipient: nat, amount: int, request: nat, pinOk: bool)
    returns (outcome: Result<()>)
    modifies db`ledger, db`transfers
    ensures Commits(old(db.State()), db.State(), outcome,
                    Movements.Send(old(db.State()), user, recipient, amount, request, pinOk))
  {
    if amount <= 0 {
      return Err(Unprocessable);
    }
    if !pinOk {
      return Err(Forbidden);
    }
    var existing := Movements.FindTransfer(db.transfers, request);
    if existing.Some? {
      return Ok(());
    }
    if user !in db.wallets || recipient !in db.wallets {
      return Err(NotFound);
    }
    if user == recipient {
      return Err(Unprocessable);
    }
    if !db.wallets[user] || !db.wallets[recipient] {
      return Err(Conflict);
    }
    var available := Balance(db.ledger, Available(user));
    if available < amount {
      return Err(Unprocessable);
    }
    var row := Transfer(user, recipient, amount, request, |db.ledger|);
    var posting := PostWithin(db, TransferKey(request), TransferEntries(row));
    if posting.Err? {
      return Err(posting.error);
    }
    db.transfers := db.transfers + [row.(txn := posting.value)];
    outcome := Ok(());
  }

  method Withdraw(db: Database, user: nat, amount: int, request: nat, pinOk: bool, bankLinked: bool)
    returns (outcome: Result<()>)
    modifies db`ledger, db`withdrawals
    ensures Commits(old(db.State()), db.State(), outcome,
                    Movements.Withdraw(old(db.State()), user, amount, request, pinOk, bankLinked))
  {
    if amount <= 0 {
      return Err(Unprocessable);
    }
    if !pinOk {
      return Err(Forbidden);
    }
    var existing := Movements.FindWithdrawal(db.withdrawals, request);
    if existing.Some? {
      return Ok(());
    }
    if user !in db.wallets {
      return Err(NotFound);
    }
    if !db.wallets[user] {
      return Err(Conflict);
    }
    if !bankLinked {
      return Err(NotFound);
    }
    var available := Balance(db.ledger, Available(user));
    if available < amount {
      return Err(Unprocessable);
    }
    var row := Withdrawal(user, amount, request, |db.ledger|);
    var posting := PostWithin(db, WithdrawalKey(request), WithdrawalEntries(row));
    if posting.Err? {
      return Err(posting.error);
    }
    db.withdrawals := db.withdrawals + [row.(txn := posting.value)];
    outcome := Ok(());
  }
}
