/** Wallet-to-wallet transfers and withdrawal requests. */
module Movements {
  import opened Prelude
  import opened Ledger
  import opened Tables

  function FindTransfer(rows: seq<Transfer>, request: nat): (found: Option<nat>)
    ensures found.Some? ==> found.value < |rows| && rows[found.value].request == request
    ensures found.None? ==> forall i :: 0 <= i < |rows| ==> rows[i].request != request
  {
    FindLast(rows, (t: Transfer) => t.request == request)
  }

  function FindWithdrawal(rows: seq<Withdrawal>, request: nat): (found: Option<nat>)
    ensures found.Some? ==> found.value < |rows| && rows[found.value].request == request
    ensures found.None? ==> forall i :: 0 <= i < |rows| ==> rows[i].request != request
  {
    FindLast(rows, (w: Withdrawal) => w.request == request)
  }

  /** A key already used returns the stored transfer, whoever asks. */
  function Send(db: Db, user: nat, recipient: nat, amount: int, request: nat, pinOk: bool): Result<Db> {
    if amount <= 0 then Err(Unprocessable)
    else if !pinOk then Err(Forbidden)
    else if FindTransfer(db.transfers, request).Some? then Ok(db)
    else if user !in db.wallets || recipient !in db.wallets then Err(NotFound)
    else if user == recipient then Err(Unprocessable)
    else if !db.wallets[user] || !db.wallets[recipient] then Err(Conflict)
    else if Balance(db.ledger, Available(user)) < amount then Err(Unprocessable)
    else
      var row := Transfer(user, recipient, amount, request, |db.ledger|);
      var posting :- Post(db.ledger, TransferKey(request), TransferEntries(row));
      Ok(db.(ledger := posting.ledger, transfers := db.transfers + [row.(txn := posting.id)]))
  }

  function Withdraw(db: Db, user: nat, amount: int, request: nat, pinOk: bool, bankLinked: bool): Result<Db> {
    if amount <= 0 then Err(Unprocessable)
    else if !pinOk then Err(Forbidden)
    else if FindWithdrawal(db.withdrawals, request).Some? then Ok(db)
    else if user !in db.wallets then Err(NotFound)
    else if !db.wallets[user] then Err(Conflict)
    else if !bankLinked then Err(NotFound)
    else if Balance(db.ledger, Available(user)) < amount then Err(Unprocessable)
    else
      var row := Withdrawal(user, amount, request, |db.ledger|);
      var posting :- Post(db.ledger, WithdrawalKey(request), WithdrawalEntries(row));
      Ok(db.(ledger := posting.ledger, withdrawals := db.withdrawals + [row.(txn := posting.id)]))
  }
}
