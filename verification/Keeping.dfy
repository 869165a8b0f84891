/** Each step of the platform keeps the books. */
module Keeping {
  import opened Prelude
  import opened Ledger
  import opened Tables
  import opened Books
  import AjoMoney
  import Bills
  import Movements

  // ----- Bills ------------------------------------------------------------

  /** Adding a row for a bill just reserved. */
  lemma NewBillSane(db: Db, row: Bill)
    requires RowsSane(db) && row.amount > 0 && row.fee >= 0
    requires row.settled.None? && row.released.None? && row.reversed.None? && !row.receipt && row.status == BillPending
    requires row.intent.Some? ==> row.intent.value < |db.intents| && db.intents[row.intent.value].target.BillFor?
    ensures RowsSane(db.(bills := db.bills + [row]))
  {
    var db' := db.(bills := db.bills + [row]);
    forall b | 0 <= b < |db'.bills| ensures BillSane(db', b) {
      if b < |db.bills| {
        assert BillSane(db, b);
      }
    }
    forall i | 0 <= i < |db'.intents| ensures IntentSane(db', i) {
      assert IntentSane(db, i);
    }
  }

  lemma CreateBillShape(db: Db, user: nat, r: Bills.BillRequest)
    requires Bills.CreateBill(db, user, r).Ok? && Bills.FindBill(db.bills, user, r.caller).None?
    requires !HasKey(db.ledger, BillReserve(|db.bills|))
    ensures var db' := Bills.CreateBill(db, user, r).value;
            && r.fee.Some? && r.amount > 0 && r.fee.value >= 0
            && Balance(db.ledger, Available(user)) >= r.amount + r.fee.value
            && var row := Bills.NewBill(user, r.amount, r.fee.value, r.caller, Some(r.hash), None, |db.ledger|);
            && Balanced(ReserveEntries(row))
            && db' == db.(ledger := db.ledger + [NewTxn(BillReserve(|db.bills|), ReserveEntries(row))],
                          bills := db.bills + [row])
  {
  }

  lemma ReserveSane(db: Db, db': Db, row: Bill, t: Txn)
    requires RowsSane(db) && row == Bills.NewBill(row.user, row.amount, row.fee, row.caller, row.hash, None, |db.ledger|)
    requires row.amount > 0 && row.fee >= 0
    requires db' == db.(ledger := db.ledger + [t], bills := db.bills + [row])
    ensures RowsSane(db') && Grows(db, db')
  {
    RowsSaneAppend(db, t);
    NewBillSane(db.(ledger := db.ledger + [t]), row);
  }

  lemma ReserveSafe(l: Book, b: Bill)
    requires NoOverdraft(l) && b.amount > 0 && b.fee >= 0 && Balance(l, Available(b.user)) >= TotalDebit(b)
    ensures SafePosting(l, ReserveEntries(b)) && Balanced(ReserveEntries(b))
  {
    PairSafe(l, Available(b.user), Reserved(b.user), TotalDebit(b));
  }

  lemma ReserveKeeps(db: Db, row: Bill)
    requires BooksOk(db) && row == Bills.NewBill(row.user, row.amount, row.fee, row.caller, row.hash, None, |db.ledger|)
    requires row.amount > 0 && row.fee >= 0 && Balance(db.ledger, Available(row.user)) >= TotalDebit(row)
    ensures BooksOk(db.(ledger := db.ledger + [NewTxn(BillReserve(|db.bills|), ReserveEntries(row))],
                        bills := db.bills + [row]))
  {
    var key, entries := BillReserve(|db.bills|), ReserveEntries(row);
    var db' := db.(ledger := db.ledger + [NewTxn(key, entries)], bills := db.bills + [row]);
    ReserveSane(db, db', row, NewTxn(key, entries));
    ReserveSafe(db.ledger, row);
    NewBillBooks(db, db', row);
    PostingStep(db, db', key, entries);
  }

  lemma NewBillBooks(db: Db, db': Db, row: Bill)
    requires row.settled.None? && row.released.None? && row.reversed.None?
    requires db'.bills == db.bills + [row] && db'.withdrawals == db.withdrawals && db'.transfers == db.transfers
    requires db'.contributions == db.contributions && db'.payouts == db.payouts
    requires db'.subscriptions == db.subscriptions && db'.intents == db.intents
    ensures BooksMoveBy(db, db', ReserveEntries(row))
  {
    assert BooksMoveBy(db, db', ReserveEntries(row)) by {
      forall a ensures BooksOf(db', a) == BooksOf(db, a) + Effect(ReserveEntries(row), a) {
        SumAppend(db.bills, row, BillNet(a));
      }
    }
  }

  lemma CreateBillKeeps(db: Db, user: nat, r: Bills.BillRequest)
    requires BooksOk(db) && Bills.CreateBill(db, user, r).Ok?
    ensures BooksOk(Bills.CreateBill(db, user, r).value)
  {
    if Bills.FindBill(db.bills, user, r.caller).None? {
      FreshKey(db, BillReserve(|db.bills|));
      CreateBillShape(db, user, r);
      ReserveKeeps(db, Bills.NewBill(user, r.amount, r.fee.value, r.caller, Some(r.hash), None, |db.ledger|));
    }
  }

  /** Syncing a bill's intent moves a status and nothing else. */
  lemma SyncSane(db: Db, intent: Option<nat>, status: IntentStatus)
    requires RowsSane(db) && (status == Succeeded || status == FailedIntent)
    requires intent.Some? ==> intent.value < |db.intents| && db.intents[intent.value].target.BillFor?
    ensures var db' := db.(intents := Bills.SyncIntent(db.intents, intent, status));
            RowsSane(db') && Grows(db, db') && SameBooks(db, db')
  {
    var db' := db.(intents := Bills.SyncIntent(db.intents, intent, status));
    forall i | 0 <= i < |db'.intents| ensures IntentSane(db', i) {
      assert IntentSane(db, i);
    }
    forall b | 0 <= b < |db'.bills| ensures BillSane(db', b) {
      assert BillSane(db, b);
    }
    assert SameBooks(db, db') by {
      forall a ensures BooksOf(db', a) == BooksOf(db, a) {
        if db'.intents != db.intents {
          SumUpdate(db.intents, intent.value, db'.intents[intent.value], DepositNet(a));
        }
      }
    }
  }

  /** Rewriting one bill so that it stays sane. */
  lemma BillUpdateSane(db: Db, b: nat, row: Bill)
    requires RowsSane(db) && b < |db.bills|
    requires BillSane(db.(bills := db.bills[b := row]), b)
    ensures RowsSane(db.(bills := db.bills[b := row]))
  {
    var db' := db.(bills := db.bills[b := row]);
    forall k | 0 <= k < |db'.bills| ensures BillSane(db', k) {
      assert BillSane(db, k);
    }
    forall i | 0 <= i < |db'.intents| ensures IntentSane(db', i) {
      assert IntentSane(db, i);
    }
  }

  /** A bill's postings are fixed by its owner, amount and fee. */
  lemma SameEntries(row: Bill, row': Bill)
    requires row'.user == row.user && row'.amount == row.amount && row'.fee == row.fee
    ensures ReserveEntries(row') == ReserveEntries(row) && SettleEntries(row') == SettleEntries(row)
    ensures ReleaseEntries(row') == ReleaseEntries(row) && ReversalEntries(row') == ReversalEntries(row)
  {
  }

  lemma SameBillNet(row: Bill, row': Bill, a: Account)
    requires row'.user == row.user && row'.amount == row.amount && row'.fee == row.fee
    requires row'.settled.Some? == row.settled.Some? && row'.released.Some? == row.released.Some?
    requires row'.reversed.Some? == row.reversed.Some?
    ensures BillNet(a)(row') == BillNet(a)(row)
  {
    SameEntries(row, row');
  }

  /** A change to a bill that no posting goes with. */
  lemma QuietBillUpdate(db: Db, b: nat, row: Bill)
    requires BooksOk(db) && b < |db.bills| && BillSane(db.(bills := db.bills[b := row]), b)
    requires row.user == db.bills[b].user && row.amount == db.bills[b].amount && row.fee == db.bills[b].fee
    requires row.settled.Some? == db.bills[b].settled.Some?
    requires row.released.Some? == db.bills[b].released.Some?
    requires row.reversed.Some? == db.bills[b].reversed.Some?
    ensures BooksOk(db.(bills := db.bills[b := row]))
  {
    var db' := db.(bills := db.bills[b := row]);
    BillUpdateSane(db, b, row);
    assert SameBooks(db, db') by {
      forall a ensures BooksOf(db', a) == BooksOf(db, a) {
        SumUpdate(db.bills, b, row, BillNet(a));
        SameBillNet(db.bills[b], row, a);
      }
    }
    QuietStep(db, db');
  }

  lemma MarkUncertainKeeps(db: Db, b: nat)
    requires BooksOk(db) && Bills.MarkUncertain(db, b).Ok?
    ensures BooksOk(Bills.MarkUncertain(db, b).value)
  {
    assert BillSane(db, b);
    QuietBillUpdate(db, b, db.bills[b].(status := ReconciliationRequired, reconciliation := Awaiting));
  }

  /** What follows a commit writes the request's own state, and at most one bill as uncertain. */
  lemma AfterCommitShape(db: Db, h: nat, hasReference: bool)
    requires Bills.AfterCommit(db, h, hasReference).Ok?
    ensures var db' := Bills.AfterCommit(db, h, hasReference).value;
            || db' == db.(handlers := db'.handlers)
            || exists b: nat :: b < |db.bills| && db' == Bills.MarkUncertain(db, b).value.(handlers := db'.handlers)
  {
    var db' := Bills.AfterCommit(db, h, hasReference).value;
    if db'.bills != db.bills {
      var handler := db.handlers[h];
      var b := Bills.FindBill(db.bills, handler.user, handler.caller).value;
      assert db' == Bills.MarkUncertain(db, b).value.(handlers := db'.handlers);
    }
  }

  lemma AfterCommitKeeps(db: Db, h: nat, hasReference: bool)
    requires BooksOk(db) && Bills.AfterCommit(db, h, hasReference).Ok?
    ensures BooksOk(Bills.AfterCommit(db, h, hasReference).value)
  {
    var db' := Bills.AfterCommit(db, h, hasReference).value;
    AfterCommitShape(db, h, hasReference);
    if db' == db.(handlers := db'.handlers) {
      OutsideTheBooks(db, db');
    } else {
      var b: nat :| b < |db.bills| && db' == Bills.MarkUncertain(db, b).value.(handlers := db'.handlers);
      MarkUncertainKeeps(db, b);
      OutsideTheBooks(Bills.MarkUncertain(db, b).value, db');
    }
  }

  ghost predicate BillMovesBy(row: Bill, row': Bill, entries: seq<Entry>) {
    forall a :: BillNet(a)(row') == BillNet(a)(row) + Effect(entries, a)
  }

  /** Recording one more posting adds its entries to what the bill moves. */
  lemma ColumnAdded(row: Bill, row': Bill)
    requires row'.user == row.user && row'.amount == row.amount && row'.fee == row.fee
    ensures row.released.None? && row'.released.Some? && row'.settled == row.settled && row'.reversed == row.reversed ==>
              BillMovesBy(row, row', ReleaseEntries(row))
    ensures row.settled.None? && row'.settled.Some? && row'.released == row.released && row'.reversed == row.reversed ==>
              BillMovesBy(row, row', SettleEntries(row))
    ensures row.reversed.None? && row'.reversed.Some? && row'.settled == row.settled && row'.released == row.released ==>
              BillMovesBy(row, row', ReversalEntries(row))
  {
    SameEntries(row, row');
  }

  /** One posting for one bill, with the column that records it and the intent kept in step. */
  lemma BillPostingKeeps(db: Db, b: nat, key: Key, entries: seq<Entry>, row: Bill, intents: seq<Intent>)
    requires BooksOk(db) && b < |db.bills| && Balanced(entries) && !Evidence(db, key) && !key.IntentKey?
    requires SafePosting(db.ledger, entries)
    requires var db1 := db.(ledger := db.ledger + [NewTxn(key, entries)], bills := db.bills[b := row]);
             BillSane(db1, b) && Evidence(db1, key) && Grows(db, db1)
    requires BillMovesBy(db.bills[b], row, entries)
    requires intents == db.intents
             || intents == Bills.SyncIntent(db.intents, row.intent, Succeeded)
             || intents == Bills.SyncIntent(db.intents, row.intent, FailedIntent)
    ensures BooksOk(db.(ledger := db.ledger + [NewTxn(key, entries)], bills := db.bills[b := row], intents := intents))
  {
    var db0 := db.(ledger := db.ledger + [NewTxn(key, entries)]);
    var db1 := db0.(bills := db.bills[b := row]);
    RowsSaneAppend(db, NewTxn(key, entries));
    BillUpdateSane(db0, b, row);
    assert BooksMoveBy(db, db1, entries) by {
      forall a ensures BooksOf(db1, a) == BooksOf(db, a) + Effect(entries, a) {
        SumUpdate(db.bills, b, row, BillNet(a));
      }
    }
    PostingStep(db, db1, key, entries);
    if intents != db.intents {
      var status := if intents == Bills.SyncIntent(db.intents, row.intent, Succeeded) then Succeeded else FailedIntent;
      SyncSane(db1, row.intent, status);
      QuietStep(db1, db1.(intents := intents));
    }
  }

  function Released(db: Db, b: nat, id: nat): Bill
    requires b < |db.bills|
  {
    db.bills[b].(status := BillFailed, released := Some(id))
  }

  /** A verdict applied for the first time is one posting and one row. */
  lemma ReleaseShape(db: Db, b: nat)
    requires b < |db.bills| && Bills.Release(db, b).Ok?
    ensures Balanced(ReleaseEntries(db.bills[b]))
    ensures !HasKey(db.ledger, BillRelease(b)) ==> Bills.Release(db, b).value == db.(
              ledger := db.ledger + [NewTxn(BillRelease(b), ReleaseEntries(db.bills[b]))],
              bills := db.bills[b := Released(db, b, |db.ledger|)],
              intents := Bills.SyncIntent(db.intents, db.bills[b].intent, FailedIntent))
  {
  }

  lemma FirstReleaseKeeps(db: Db, b: nat)
    requires BooksOk(db) && b < |db.bills| && Bills.Release(db, b).Ok? && db.bills[b].released.None?
    ensures BooksOk(Bills.Release(db, b).value)
  {
    var row, entries := db.bills[b], ReleaseEntries(db.bills[b]);
    var row' := Released(db, b, |db.ledger|);
    ReleaseShape(db, b);
    FreshKey(db, BillRelease(b));
    PairSafe(db.ledger, Reserved(row.user), Available(row.user), TotalDebit(row));
    assert BillSane(db, b);
    ColumnAdded(row, row');
    SameEntries(row, row');
    BillPostingKeeps(db, b, BillRelease(b), entries, row', Bills.SyncIntent(db.intents, row.intent, FailedIntent));
  }

  /** A release posted before is found again, so only statuses change. */
  lemma RepeatedRelease(db: Db, b: nat)
    requires BooksOk(db) && b < |db.bills| && Bills.Release(db, b).Ok? && db.bills[b].released.Some?
    ensures Bills.Release(db, b).value == db.(
              bills := db.bills[b := Released(db, b, db.bills[b].released.value)],
              intents := Bills.SyncIntent(db.intents, db.bills[b].intent, FailedIntent))
  {
    assert BillSane(db, b);
    var id := db.bills[b].released.value;
    assert db.ledger[id].key == BillRelease(b);
    assert HasKey(db.ledger, BillRelease(b));
    assert Find(db.ledger, BillRelease(b)) == Some(id);
  }

  lemma RepeatedReleaseKeeps(db: Db, b: nat, intents: seq<Intent>)
    requires BooksOk(db) && b < |db.bills| && db.bills[b].released.Some?
    requires intents == Bills.SyncIntent(db.intents, db.bills[b].intent, FailedIntent)
    ensures BooksOk(db.(bills := db.bills[b := Released(db, b, db.bills[b].released.value)], intents := intents))
  {
    assert BillSane(db, b);
    var row := Released(db, b, db.bills[b].released.value);
    SameEntries(db.bills[b], row);
    QuietBillUpdate(db, b, row);
    var db1 := db.(bills := db.bills[b := row]);
    SyncSane(db1, db.bills[b].intent, FailedIntent);
    QuietStep(db1, db1.(intents := intents));
  }

  lemma ReleaseKeeps(db: Db, b: nat)
    requires BooksOk(db) && b < |db.bills| && Bills.Release(db, b).Ok?
    ensures BooksOk(Bills.Release(db, b).value)
  {
    if db.bills[b].released.None? {
      FirstReleaseKeeps(db, b);
    } else {
      RepeatedRelease(db, b);
      RepeatedReleaseKeeps(db, b, Bills.SyncIntent(db.intents, db.bills[b].intent, FailedIntent));
    }
  }

  function Settled(db: Db, b: nat): Bill
    requires b < |db.bills|
  {
    db.bills[b].(status := Successful, reconciliation := NotRequired, settled := Some(|db.ledger|), receipt := true)
  }

  lemma SettleShape(db: Db, b: nat)
    requires b < |db.bills| && Bills.Settle(db, b).Ok? && !HasKey(db.ledger, BillSettle(b))
    ensures Balanced(SettleEntries(db.bills[b])) && !db.bills[b].receipt
    ensures Bills.Settle(db, b).value == db.(
              ledger := db.ledger + [NewTxn(BillSettle(b), SettleEntries(db.bills[b]))],
              bills := db.bills[b := Settled(db, b)],
              intents := Bills.SyncIntent(db.intents, db.bills[b].intent, Succeeded))
  {
  }

  lemma SettleSafe(l: Book, b: Bill)
    requires NoOverdraft(l) && Balanced(SettleEntries(b))
    ensures SafePosting(l, SettleEntries(b))
  {
    forall e | e in SettleEntries(b) && e.direction == Debit ensures !Protected(e.account) {
    }
    NoProtectedDebitSafe(l, SettleEntries(b));
  }

  lemma SettledKeeps(db: Db, b: nat)
    requires BooksOk(db) && b < |db.bills| && db.bills[b].settled.None? && Balanced(SettleEntries(db.bills[b]))
    ensures BooksOk(db.(ledger := db.ledger + [NewTxn(BillSettle(b), SettleEntries(db.bills[b]))],
                        bills := db.bills[b := Settled(db, b)],
                        intents := Bills.SyncIntent(db.intents, db.bills[b].intent, Succeeded)))
  {
    var row, entries := db.bills[b], SettleEntries(db.bills[b]);
    var row' := Settled(db, b);
    assert BillSane(db, b);
    SettleSafe(db.ledger, row);
    ColumnAdded(row, row');
    SameEntries(row, row');
    BillPostingKeeps(db, b, BillSettle(b), entries, row', Bills.SyncIntent(db.intents, row.intent, Succeeded));
  }

  lemma SettleKeeps(db: Db, b: nat)
    requires BooksOk(db) && b < |db.bills| && Bills.Settle(db, b).Ok?
    ensures BooksOk(Bills.Settle(db, b).value)
  {
    assert BillSane(db, b);
    FreshKey(db, BillSettle(b));
    SettleShape(db, b);
    SettledKeeps(db, b);
  }

  function Reversed(db: Db, b: nat): Bill
    requires b < |db.bills|
  {
    db.bills[b].(status := BillReversed, reconciliation := Resolved, reversed := Some(|db.ledger|))
  }

  lemma ReversalShape(db: Db, b: nat)
    requires b < |db.bills| && Bills.ApplyReversal(db, b).Ok? && !HasKey(db.ledger, BillReversal(b))
    requires db.bills[b].status != BillReversed
    ensures Balanced(ReversalEntries(db.bills[b])) && db.bills[b].status == Successful
    ensures Bills.ApplyReversal(db, b).value == db.(
              ledger := db.ledger + [NewTxn(BillReversal(b), ReversalEntries(db.bills[b]))],
              bills := db.bills[b := Reversed(db, b)])
  {
  }

  lemma ReversalSafe(l: Book, b: Bill)
    requires NoOverdraft(l) && Balanced(ReversalEntries(b))
    ensures SafePosting(l, ReversalEntries(b))
  {
    forall e | e in ReversalEntries(b) && e.direction == Debit ensures !Protected(e.account) {
    }
    NoProtectedDebitSafe(l, ReversalEntries(b));
  }

  lemma FirstReversalKeeps(db: Db, b: nat)
    requires BooksOk(db) && b < |db.bills| && db.bills[b].reversed.None? && db.bills[b].settled.Some?
    requires Balanced(ReversalEntries(db.bills[b]))
    ensures BooksOk(db.(ledger := db.ledger + [NewTxn(BillReversal(b), ReversalEntries(db.bills[b]))],
                        bills := db.bills[b := Reversed(db, b)]))
  {
    var row, row', entries := db.bills[b], Reversed(db, b), ReversalEntries(db.bills[b]);
    assert BillSane(db, b);
    ReversalSafe(db.ledger, row);
    ColumnAdded(row, row');
    SameEntries(row, row');
    BillPostingKeeps(db, b, BillReversal(b), entries, row', db.intents);
  }

  lemma ReversalKeeps(db: Db, b: nat)
    requires BooksOk(db) && b < |db.bills| && Bills.ApplyReversal(db, b).Ok?
    ensures BooksOk(Bills.ApplyReversal(db, b).value)
  {
    if db.bills[b].status != BillReversed {
      assert BillSane(db, b);
      assert db.bills[b].status == Successful;
      FreshKey(db, BillReversal(b));
      ReversalShape(db, b);
      FirstReversalKeeps(db, b);
    }
  }

  lemma AnswerKeeps(db: Db, b: nat, answer: Bills.Answer)
    requires BooksOk(db) && Bills.ApplyAnswer(db, b, answer).Ok?
    ensures BooksOk(Bills.ApplyAnswer(db, b, answer).value)
  {
    match answer
    case SaysReversed => ReversalKeeps(db, b);
    case SaysPending => MarkUncertainKeeps(db, b);
    case SaysUnknown => MarkUncertainKeeps(db, b);
    case SaysFailed => if Bills.AwaitsVerdict(db.bills[b]) { ReleaseKeeps(db, b); }
    case SaysSuccessful => if Bills.AwaitsVerdict(db.bills[b]) { SettleKeeps(db, b); }
  }

  // ----- Wallet movements -------------------------------------------------

  lemma SendKeeps(db: Db, user: nat, recipient: nat, amount: int, request: nat)
    requires BooksOk(db) && Movements.Send(db, user, recipient, amount, request, true).Ok?
    ensures BooksOk(Movements.Send(db, user, recipient, amount, request, true).value)
  {
    var db' := Movements.Send(db, user, recipient, amount, request, true).value;
    if Movements.FindTransfer(db.transfers, request).None? {
      var row := db'.transfers[|db.transfers|];
      FreshKey(db, TransferKey(request));
      PostOutcome(db.ledger, TransferKey(request), TransferEntries(row), Available(user));
      RowsSaneAppend(db, NewTxn(TransferKey(request), TransferEntries(row)));
      PairSafe(db.ledger, Available(user), Available(recipient), amount);
      assert BooksMoveBy(db, db', TransferEntries(row)) by {
        forall a ensures BooksOf(db', a) == BooksOf(db, a) + Effect(TransferEntries(row), a) {
          SumAppend(db.transfers, row, TransferNet(a));
        }
      }
      assert db'.transfers[|db.transfers|].request == request;
      OtherTablesSane(db.(ledger := db'.ledger), db');
      PostingStep(db, db', TransferKey(request), TransferEntries(row));
    }
  }

  /** RowsSane looks only at the ledger, bills, intents, subscriptions and the clock. */
  lemma OtherTablesSane(db: Db, db': Db)
    requires RowsSane(db) && db'.ledger == db.ledger && db'.bills == db.bills && db'.intents == db.intents
    requires db'.subscriptions == db.subscriptions && db.now <= db'.now
    ensures RowsSane(db')
  {
    forall b | 0 <= b < |db'.bills| ensures BillSane(db', b) {
      assert BillSane(db, b);
    }
    forall i | 0 <= i < |db'.intents| ensures IntentSane(db', i) {
      assert IntentSane(db, i);
    }
  }

  lemma WithdrawKeeps(db: Db, user: nat, amount: int, request: nat)
    requires BooksOk(db) && Movements.Withdraw(db, user, amount, request, true, true).Ok?
    ensures BooksOk(Movements.Withdraw(db, user, amount, request, true, true).value)
  {
    var db' := Movements.Withdraw(db, user, amount, request, true, true).value;
    if Movements.FindWithdrawal(db.withdrawals, request).None? {
      var row := db'.withdrawals[|db.withdrawals|];
      FreshKey(db, WithdrawalKey(request));
      PostOutcome(db.ledger, WithdrawalKey(request), WithdrawalEntries(row), Available(user));
      RowsSaneAppend(db, NewTxn(WithdrawalKey(request), WithdrawalEntries(row)));
      PairSafe(db.ledger, Available(user), Reserved(user), amount);
      assert BooksMoveBy(db, db', WithdrawalEntries(row)) by {
        forall a ensures BooksOf(db', a) == BooksOf(db, a) + Effect(WithdrawalEntries(row), a) {
          SumAppend(db.withdrawals, row, WithdrawalNet(a));
        }
      }
      assert db'.withdrawals[|db.withdrawals|].request == request;
      OtherTablesSane(db.(ledger := db'.ledger), db');
      PostingStep(db, db', WithdrawalKey(request), WithdrawalEntries(row));
    }
  }

  // ----- Ajo --------------------------------------------------------------

  lemma ContributionKeeps(db: Db, user: nat, group: nat, schedule: nat, amount: int, caller: CallerKey)
    requires BooksOk(db) && AjoMoney.PayContribution(db, user, group, schedule, amount, caller).Ok?
    ensures BooksOk(AjoMoney.PayContribution(db, user, group, schedule, amount, caller).value)
  {
    var db' := AjoMoney.PayContribution(db, user, group, schedule, amount, caller).value;
    if AjoMoney.FindContribution(db.contributions, group, schedule, caller).None? {
      var key := ContributionKey(group, schedule, caller);
      var row := db'.contributions[|db.contributions|];
      FreshKey(db, key);
      PostOutcome(db.ledger, key, ContributionEntries(row), Available(user));
      RowsSaneAppend(db, NewTxn(key, ContributionEntries(row)));
      PairSafe(db.ledger, Available(user), Pool(group), amount);
      assert BooksMoveBy(db, db', ContributionEntries(row)) by {
        forall a ensures BooksOf(db', a) == BooksOf(db, a) + Effect(ContributionEntries(row), a) {
          SumAppend(db.contributions, row, ContributionNet(a));
        }
      }
      OtherTablesSane(db.(ledger := db'.ledger), db');
      PostingStep(db, db', key, ContributionEntries(row));
    }
  }

  lemma PayoutKeeps(db: Db, user: nat, group: nat, r: nat)
    requires BooksOk(db) && AjoMoney.SettlePayout(db, user, group, r).Ok?
    ensures BooksOk(AjoMoney.SettlePayout(db, user, group, r).value)
  {
    var db' := AjoMoney.SettlePayout(db, user, group, r).value;
    if AjoMoney.FindPayout(db.payouts, group, r).None? {
      var key := PayoutKey(group, r);
      var row := db'.payouts[|db.payouts|];
      FreshKey(db, key);
      PostOutcome(db.ledger, key, PayoutEntries(row), Pool(group));
      RowsSaneAppend(db, NewTxn(key, PayoutEntries(row)));
      PairBalanced(Pool(group), Available(row.recipient), row.amount);
      PairSafe(db.ledger, Pool(group), Available(row.recipient), row.amount);
      assert BooksMoveBy(db, db', PayoutEntries(row)) by {
        forall a ensures BooksOf(db', a) == BooksOf(db, a) + Effect(PayoutEntries(row), a) {
          SumAppend(db.payouts, row, PayoutNet(a));
        }
      }
      OtherTablesSane(db.(ledger := db'.ledger), db');
      PostingStep(db, db', key, PayoutEntries(row));
    }
  }

  /** A step that touches none of the tables the books are read from. */
  lemma OutsideTheBooks(db: Db, db': Db)
    requires BooksOk(db) && db.now <= db'.now
    requires db' == db.(now := db'.now, wallets := db'.wallets, groups := db'.groups,
                        programmes := db'.programmes, handlers := db'.handlers)
    ensures BooksOk(db')
  {
    OtherTablesSane(db, db');
    QuietStep(db, db');
  }
}
