/** What a transfer and a withdrawal do, for every request. */
module MovementTheorems {
  import opened Ledger
  import opened Tables
  import opened Books
  import opened Machine
  import opened Outcomes
  import Movements

  predicate TransferUnused(db: Db, request: nat) {
    forall i :: 0 <= i < |db.transfers| ==> db.transfers[i].request != request
  }
  predicate WithdrawalUnused(db: Db, request: nat) {
    forall i :: 0 <= i < |db.withdrawals| ==> db.withdrawals[i].request != request
  }

  /**
   * Under a request not seen before, a transfer is accepted exactly for a
   * positive amount between two different ACTIVE wallets, with a good PIN and
   * the money there; and then it moves exactly the amount asked for from the
   * sender to the recipient, and records who sent what to whom.
   */
  lemma TransferMovesTheAmount(db: Db, user: nat, recipient: nat, amount: int, request: nat, pinOk: bool)
    requires BooksOk(db) && TransferUnused(db, request)
    ensures Movements.Send(db, user, recipient, amount, request, pinOk).Ok? <==>
              && amount > 0 && pinOk && user != recipient && user in db.wallets && recipient in db.wallets
              && db.wallets[user] && db.wallets[recipient] && Balance(db.ledger, Available(user)) >= amount
    ensures Movements.Send(db, user, recipient, amount, request, pinOk).Ok? ==>
              var db' := Movements.Send(db, user, recipient, amount, request, pinOk).value;
              && Moves(db.ledger, db'.ledger, TransferKey(request), Available(user), Available(recipient), amount)
              && db'.transfers == db.transfers + [Transfer(user, recipient, amount, request, |db.ledger|)]
              && db' == db.(ledger := db'.ledger, transfers := db'.transfers)
  {
    FreshKey(db, TransferKey(request));
    PairBalanced(Available(user), Available(recipient), amount);
    var r := Movements.Send(db, user, recipient, amount, request, pinOk);
    if r.Ok? {
      PairMoves(db.ledger, r.value.ledger, TransferKey(request), Available(user), Available(recipient), amount);
    }
  }

  /**
   * Under a request not seen before, a withdrawal is accepted exactly for a
   * positive amount from an ACTIVE wallet that has it, with a good PIN and a
   * bank account linked; and then it sets exactly that amount aside and records
   * it.
   */
  lemma WithdrawalReservesTheAmount(db: Db, user: nat, amount: int, request: nat, pinOk: bool, bankLinked: bool)
    requires BooksOk(db) && WithdrawalUnused(db, request)
    ensures Movements.Withdraw(db, user, amount, request, pinOk, bankLinked).Ok? <==>
              && amount > 0 && pinOk && bankLinked && user in db.wallets && db.wallets[user]
              && Balance(db.ledger, Available(user)) >= amount
    ensures Movements.Withdraw(db, user, amount, request, pinOk, bankLinked).Ok? ==>
              var db' := Movements.Withdraw(db, user, amount, request, pinOk, bankLinked).value;
              && Moves(db.ledger, db'.ledger, WithdrawalKey(request), Available(user), Reserved(user), amount)
              && db'.withdrawals == db.withdrawals + [Withdrawal(user, amount, request, |db.ledger|)]
              && db' == db.(ledger := db'.ledger, withdrawals := db'.withdrawals)
  {
    FreshKey(db, WithdrawalKey(request));
    PairBalanced(Available(user), Reserved(user), amount);
    var r := Movements.Withdraw(db, user, amount, request, pinOk, bankLinked);
    if r.Ok? {
      PairMoves(db.ledger, r.value.ledger, WithdrawalKey(request), Available(user), Reserved(user), amount);
    }
  }

  /** A member has one wallet, ACTIVE from the start; it is as ACTIVE as it was last set to be, and no other changes. */
  lemma WalletsAreAsSet(db: Db, owner: nat, active: bool)
    ensures Attempt(db, OpenWallet(owner)).Ok? <==> owner !in db.wallets
    ensures Attempt(db, SetWallet(owner, active)).Ok? <==> owner in db.wallets
    ensures owner !in db.wallets ==> Next(db, OpenWallet(owner)) == db.(wallets := db.wallets[owner := true])
    ensures owner in db.wallets ==> Next(db, SetWallet(owner, active)) == db.(wallets := db.wallets[owner := active])
  {
  }
}
