/** Intents, deposits and Food Ajo keep the books; then every step does. */
module KeepingPayments {
  import opened Prelude
  import opened Ledger
  import opened Tables
  import opened Books
  import opened Keeping
  import Bills
  import Food
  import Groups
  import Machine
  import Payments

  // ----- Intents ----------------------------------------------------------

  lemma IntentUpdateSane(db: Db, i: nat, row: Intent)
    requires RowsSane(db) && i < |db.intents| && row.target == db.intents[i].target
    requires db.intents[i].reference.Some? ==> row.reference.Some?
    requires IntentSane(db.(intents := db.intents[i := row]), i)
    ensures RowsSane(db.(intents := db.intents[i := row]))
  {
    var db' := db.(intents := db.intents[i := row]);
    forall k | 0 <= k < |db'.intents| ensures IntentSane(db', k) {
      assert IntentSane(db, k);
    }
    forall b | 0 <= b < |db'.bills| ensures BillSane(db', b) {
      assert BillSane(db, b);
    }
  }

  lemma DepositNetSame(row: Intent, row': Intent, a: Account)
    requires row'.target == row.target && row'.txn.Some? == row.txn.Some?
    requires row'.user == row.user && row'.amount == row.amount && row'.fee == row.fee
    ensures DepositNet(a)(row') == DepositNet(a)(row)
  {
    assert DepositEntries(row') == DepositEntries(row);
  }

  /** A change to an intent that no posting goes with. */
  lemma QuietIntentUpdate(db: Db, i: nat, row: Intent)
    requires BooksOk(db) && i < |db.intents|
    requires IntentSane(db.(intents := db.intents[i := row]), i)
    requires row == db.intents[i].(status := row.status, reference := row.reference, txn := row.txn)
    requires row.txn.Some? == db.intents[i].txn.Some?
    requires db.intents[i].reference.Some? ==> row.reference.Some?
    ensures BooksOk(db.(intents := db.intents[i := row]))
  {
    var db' := db.(intents := db.intents[i := row]);
    IntentUpdateSane(db, i, row);
    assert SameBooks(db, db') by {
      forall a ensures BooksOf(db', a) == BooksOf(db, a) {
        SumUpdate(db.intents, i, row, DepositNet(a));
        DepositNetSame(db.intents[i], row, a);
      }
    }
    QuietStep(db, db');
  }

  lemma InsertIntentKeeps(db: Db, user: nat, target: Target, amount: int, fee: int, request: nat)
    requires BooksOk(db) && Payments.InsertIntent(db, user, target, amount, fee, request).Ok?
    ensures BooksOk(Payments.InsertIntent(db, user, target, amount, fee, request).value)
  {
    var db' := Payments.InsertIntent(db, user, target, amount, fee, request).value;
    if db'.intents != db.intents {
      var row := db'.intents[|db.intents|];
      forall k | 0 <= k < |db'.intents| ensures IntentSane(db', k) {
        if k < |db.intents| { assert IntentSane(db, k); }
      }
      forall b | 0 <= b < |db'.bills| ensures BillSane(db', b) {
        assert BillSane(db, b);
      }
      assert SameBooks(db, db') by {
        forall a ensures BooksOf(db', a) == BooksOf(db, a) {
          SumAppend(db.intents, row, DepositNet(a));
        }
      }
      QuietStep(db, db');
    }
  }

  lemma StartExternalKeeps(db: Db, i: nat, reference: nat)
    requires BooksOk(db) && Payments.StartExternal(db, i, reference).Ok?
    ensures BooksOk(Payments.StartExternal(db, i, reference).value)
  {
    assert IntentSane(db, i);
    QuietIntentUpdate(db, i, db.intents[i].(status := Processing, reference := Some(reference)));
  }

  lemma WriteFailedKeeps(db: Db, i: nat)
    requires BooksOk(db) && Payments.WriteFailed(db, i).Ok?
    ensures BooksOk(Payments.WriteFailed(db, i).value)
  {
    assert IntentSane(db, i);
    QuietIntentUpdate(db, i, db.intents[i].(status := FailedIntent));
  }

  // ----- Deposits ---------------------------------------------------------

  function Deposited(db: Db, i: nat, id: nat): Intent
    requires i < |db.intents|
  {
    db.intents[i].(status := Succeeded, txn := Some(id))
  }

  lemma DepositSafe(l: Book, i: Intent)
    requires NoOverdraft(l) && Balanced(DepositEntries(i))
    ensures SafePosting(l, DepositEntries(i))
  {
    forall e | e in DepositEntries(i) && e.direction == Debit ensures !Protected(e.account) {
    }
    NoProtectedDebitSafe(l, DepositEntries(i));
  }

  lemma DepositedSane(db: Db, db': Db, i: nat)
    requires RowsSane(db) && i < |db.intents| && db.intents[i].target.TopUp?
    requires db' == db.(ledger := db.ledger + [NewTxn(SettlementKey(i), DepositEntries(db.intents[i]))],
                        intents := db.intents[i := Deposited(db, i, |db.ledger|)])
    ensures RowsSane(db') && Grows(db, db')
  {
    var row := Deposited(db, i, |db.ledger|);
    assert DepositEntries(row) == DepositEntries(db.intents[i]);
    assert IntentSane(db, i);
    RowsSaneAppend(db, NewTxn(SettlementKey(i), DepositEntries(db.intents[i])));
    IntentUpdateSane(db.(ledger := db'.ledger), i, row);
  }

  lemma DepositedBooks(db: Db, db': Db, i: nat)
    requires i < |db.intents| && db.intents[i].target.TopUp? && db.intents[i].txn.None?
    requires db' == db.(ledger := db'.ledger, intents := db.intents[i := Deposited(db, i, |db.ledger|)])
    ensures BooksMoveBy(db, db', DepositEntries(db.intents[i]))
  {
    var row := Deposited(db, i, |db.ledger|);
    assert DepositEntries(row) == DepositEntries(db.intents[i]);
    forall a ensures BooksOf(db', a) == BooksOf(db, a) + Effect(DepositEntries(db.intents[i]), a) {
      SumUpdate(db.intents, i, row, DepositNet(a));
    }
  }

  lemma FirstDepositKeeps(db: Db, i: nat)
    requires BooksOk(db) && i < |db.intents| && db.intents[i].target.TopUp? && db.intents[i].txn.None?
    requires Balanced(DepositEntries(db.intents[i]))
    ensures BooksOk(db.(ledger := db.ledger + [NewTxn(SettlementKey(i), DepositEntries(db.intents[i]))],
                        intents := db.intents[i := Deposited(db, i, |db.ledger|)]))
  {
    var db' := db.(ledger := db.ledger + [NewTxn(SettlementKey(i), DepositEntries(db.intents[i]))],
                   intents := db.intents[i := Deposited(db, i, |db.ledger|)]);
    DepositedSane(db, db', i);
    DepositedBooks(db, db', i);
    DepositSafe(db.ledger, db.intents[i]);
    PostingStep(db, db', SettlementKey(i), DepositEntries(db.intents[i]));
  }

  /** A deposit already posted is found again: the row's status is all that changes. */
  lemma RepeatedDeposit(db: Db, i: nat)
    requires BooksOk(db) && Payments.SettleDeposit(db, i).Ok?
    requires db.intents[i].status != Succeeded && db.intents[i].txn.Some?
    ensures Payments.SettleDeposit(db, i).value
         == db.(intents := db.intents[i := Deposited(db, i, db.intents[i].txn.value)])
  {
    var row := db.intents[i];
    assert IntentSane(db, i);
    var id := Find(db.ledger, SettlementKey(i));
    assert db.ledger[row.txn.value].key == SettlementKey(i);
    assert HasKey(db.ledger, SettlementKey(i));
    assert id.value == row.txn.value;
  }

  lemma DepositKeeps(db: Db, i: nat)
    requires BooksOk(db) && Payments.SettleDeposit(db, i).Ok?
    ensures BooksOk(Payments.SettleDeposit(db, i).value)
  {
    var row := db.intents[i];
    assert IntentSane(db, i);
    if row.status != Succeeded {
      if row.txn.None? {
        FreshKey(db, SettlementKey(i));
        FirstDepositKeeps(db, i);
      } else {
        RepeatedDeposit(db, i);
        QuietIntentUpdate(db, i, Deposited(db, i, row.txn.value));
      }
    }
  }

  // ----- Food Ajo ---------------------------------------------------------

  lemma SubscriptionUpdateSane(db: Db, s: nat, row: Subscription)
    requires RowsSane(db) && s < |db.subscriptions| && SubscriptionSane(row, db.now)
    ensures RowsSane(db.(subscriptions := db.subscriptions[s := row]))
  {
    var db' := db.(subscriptions := db.subscriptions[s := row]);
    forall k | 0 <= k < |db'.intents| ensures IntentSane(db', k) {
      assert IntentSane(db, k);
    }
    forall b | 0 <= b < |db'.bills| ensures BillSane(db', b) {
      assert BillSane(db, b);
    }
  }

  lemma EnrolmentNetSame(row: Subscription, row': Subscription, a: Account)
    requires row'.user == row.user && row'.programme == row.programme
    requires row'.paid + row'.stranded == row.paid + row.stranded
    ensures SubscriptionNet(a)(row') == SubscriptionNet(a)(row)
  {
    assert HeldEntries(row') == HeldEntries(row);
  }

  /** A change to an enrolment that moves no money. */
  lemma QuietEnrolmentUpdate(db: Db, s: nat, row: Subscription)
    requires BooksOk(db) && s < |db.subscriptions| && SubscriptionSane(row, db.now)
    requires row.user == db.subscriptions[s].user && row.programme == db.subscriptions[s].programme
    requires row.paid + row.stranded == db.subscriptions[s].paid + db.subscriptions[s].stranded
    ensures BooksOk(db.(subscriptions := db.subscriptions[s := row]))
  {
    var db' := db.(subscriptions := db.subscriptions[s := row]);
    SubscriptionUpdateSane(db, s, row);
    assert SameBooks(db, db') by {
      forall a ensures BooksOf(db', a) == BooksOf(db, a) {
        SumUpdate(db.subscriptions, s, row, SubscriptionNet(a));
        EnrolmentNetSame(db.subscriptions[s], row, a);
      }
    }
    assert Grows(db, db');
    QuietStep(db, db');
  }

  lemma EnrolAgainKeeps(db: Db, s: nat, quantity: int)
    requires BooksOk(db) && s < |db.subscriptions| && db.subscriptions[s].status == SCancelled
    ensures BooksOk(db.(subscriptions :=
              db.subscriptions[s := db.subscriptions[s].(status := SPending, quantity := quantity)]))
  {
    var row := db.subscriptions[s].(status := SPending, quantity := quantity);
    assert SubscriptionSane(db.subscriptions[s], db.now);
    QuietEnrolmentUpdate(db, s, row);
  }

  lemma NewEnrolmentSane(db: Db, row: Subscription)
    requires RowsSane(db) && SubscriptionSane(row, db.now)
    ensures RowsSane(db.(subscriptions := db.subscriptions + [row]))
  {
    var db' := db.(subscriptions := db.subscriptions + [row]);
    forall k | 0 <= k < |db'.intents| ensures IntentSane(db', k) {
      assert IntentSane(db, k);
    }
    forall b | 0 <= b < |db'.bills| ensures BillSane(db', b) {
      assert BillSane(db, b);
    }
  }

  lemma NewEnrolmentKeeps(db: Db, row: Subscription)
    requires BooksOk(db) && row == Subscription(row.programme, row.package, row.user, SPending, row.quantity, 0, None, 0)
    ensures BooksOk(db.(subscriptions := db.subscriptions + [row]))
  {
    var db' := db.(subscriptions := db.subscriptions + [row]);
    NewEnrolmentSane(db, row);
    assert SameBooks(db, db') by {
      forall a ensures BooksOf(db', a) == BooksOf(db, a) {
        SumAppend(db.subscriptions, row, SubscriptionNet(a));
        PairEffect(Available(row.user), Escrow(row.programme), 0, a);
      }
    }
    QuietStep(db, db');
  }

  lemma SubscribeKeeps(db: Db, user: nat, p: nat, package: nat, quantity: int)
    requires BooksOk(db) && Food.Subscribe(db, user, p, package, quantity).Ok?
    ensures BooksOk(Food.Subscribe(db, user, p, package, quantity).value)
  {
    var existing := Food.FindSubscription(db.subscriptions, p, user, package);
    if existing.Some? {
      assert SubscriptionSane(db.subscriptions[existing.value], db.now);
      EnrolAgainKeeps(db, existing.value, quantity);
    } else {
      NewEnrolmentKeeps(db, Subscription(p, package, user, SPending, quantity, 0, None, 0));
    }
  }

  /** The refund's net is the enrolment's payment undone. */
  lemma RefundUndoesEnrolment(row: Subscription, a: Account)
    ensures SubscriptionNet(a)(Food.Withdrawn(row, true)) == SubscriptionNet(a)(row) + Effect(RefundEntries(row), a)
  {
    PairEffect(Available(row.user), Escrow(row.programme), row.paid + row.stranded, a);
    PairEffect(Available(row.user), Escrow(row.programme), row.stranded, a);
    PairEffect(Escrow(row.programme), Available(row.user), row.paid, a);
  }

  lemma RefundBooks(db: Db, db': Db, s: nat)
    requires s < |db.subscriptions|
    requires db' == db.(ledger := db'.ledger,
                        subscriptions := db.subscriptions[s := Food.Withdrawn(db.subscriptions[s], true)])
    ensures BooksMoveBy(db, db', RefundEntries(db.subscriptions[s]))
  {
    var row := db.subscriptions[s];
    forall a ensures BooksOf(db', a) == BooksOf(db, a) + Effect(RefundEntries(row), a) {
      SumUpdate(db.subscriptions, s, Food.Withdrawn(row, true), SubscriptionNet(a));
      RefundUndoesEnrolment(row, a);
    }
  }

  lemma RefundKeeps(db: Db, s: nat)
    requires BooksOk(db) && s < |db.subscriptions| && db.subscriptions[s].paid > 0
    requires !HasKey(db.ledger, Food.RefundKeyOf(s, db.subscriptions[s]))
    ensures var row := db.subscriptions[s];
            BooksOk(db.(ledger := db.ledger + [NewTxn(Food.RefundKeyOf(s, row), RefundEntries(row))],
                        subscriptions := db.subscriptions[s := Food.Withdrawn(row, true)]))
  {
    var row := db.subscriptions[s];
    assert SubscriptionSane(row, db.now);
    var key, entries := Food.RefundKeyOf(s, row), RefundEntries(row);
    var db0 := db.(ledger := db.ledger + [NewTxn(key, entries)]);
    var db' := db0.(subscriptions := db.subscriptions[s := Food.Withdrawn(row, true)]);
    RowsSaneAppend(db, NewTxn(key, entries));
    SubscriptionUpdateSane(db0, s, Food.Withdrawn(row, true));
    PairSafe(db.ledger, Escrow(row.programme), Available(row.user), row.paid);
    RefundBooks(db, db', s);
    assert Grows(db, db');
    PostingStep(db, db', key, entries);
  }

  /** A withdrawal posts its refund under a new key, or posts nothing. */
  lemma CancelShape(db: Db, user: nat, s: nat)
    requires Food.CancelSubscription(db, user, s).Ok?
    ensures s < |db.subscriptions|
    ensures var row, key := db.subscriptions[s], Food.RefundKeyOf(s, db.subscriptions[s]);
            var moved := row.paid > 0 && !HasKey(db.ledger, key);
            Food.CancelSubscription(db, user, s).value == db.(
              ledger := if moved then db.ledger + [NewTxn(key, RefundEntries(row))] else db.ledger,
              subscriptions := db.subscriptions[s := Food.Withdrawn(row, moved)])
  {
    var row := db.subscriptions[s];
    if row.paid > 0 {
      PostOutcome(db.ledger, Food.RefundKeyOf(s, row), RefundEntries(row), ProviderPayable);
    }
  }

  lemma CancelKeeps(db: Db, user: nat, s: nat)
    requires BooksOk(db) && Food.CancelSubscription(db, user, s).Ok?
    ensures BooksOk(Food.CancelSubscription(db, user, s).value)
  {
    CancelShape(db, user, s);
    var row := db.subscriptions[s];
    assert SubscriptionSane(row, db.now);
    if row.paid > 0 && !HasKey(db.ledger, Food.RefundKeyOf(s, row)) {
      RefundKeeps(db, s);
    } else {
      QuietEnrolmentUpdate(db, s, Food.Withdrawn(row, false));
    }
  }

  // ----- Paying an intent from the wallet ---------------------------------

  /** The posting a wallet payment makes moves one amount from the payer to the target's account. */
  lemma ChargeIsPair(db: Db, i: nat, destination: Account)
    requires RowsSane(db) && i < |db.intents| && !db.intents[i].target.TopUp?
    ensures Payments.ChargeEntries(db.intents[i], destination)
         == [Dr(Available(db.intents[i].user), Total(db.intents[i])), Cr(destination, Total(db.intents[i]))]
    ensures db.intents[i].target.BillFor? || Total(db.intents[i]) == db.intents[i].amount
  {
    assert IntentSane(db, i);
  }

  /** The common part of every wallet payment, once the target's own row is settled in db1. */
  lemma ChargeKeeps(db: Db, db1: Db, i: nat, caller: nat, entries: seq<Entry>)
    requires BooksOk(db) && i < |db.intents| && !db.intents[i].target.TopUp?
    requires db.intents[i].status == RequiresConfirmation
    requires Balanced(entries) && SafePosting(db.ledger, entries)
    requires db1.ledger == db.ledger + [NewTxn(IntentKey(i, caller), entries)] && db1.intents == db.intents
    requires RowsSane(db1) && Grows(db, db1)
    requires BooksMoveBy(db, db1, entries)
    ensures BooksOk(db1.(intents := db.intents[i := Payments.MarkPaid(db.intents[i], |db.ledger|)]))
  {
    var row := Payments.MarkPaid(db.intents[i], |db.ledger|);
    var db' := db1.(intents := db.intents[i := row]);
    assert IntentSane(db, i);
    IntentUpdateSane(db1, i, row);
    assert BooksMoveBy(db, db', entries) by {
      forall a ensures BooksOf(db', a) == BooksOf(db, a) + Effect(entries, a) {
        SumUpdate(db.intents, i, row, DepositNet(a));
      }
    }
    PostingStep(db, db', IntentKey(i, caller), entries);
  }

  function WithCharge(db: Db, i: nat, caller: nat, entries: seq<Entry>): Db {
    db.(ledger := db.ledger + [NewTxn(IntentKey(i, caller), entries)])
  }

  function ContributionOf(db: Db, i: nat): ContributionRow
    requires i < |db.intents| && db.intents[i].target.Contribution?
  {
    var row := db.intents[i];
    ContributionRow(row.target.group, row.target.schedule, row.user, row.amount, OfIntent(i), |db.ledger|)
  }

  lemma ChargeContributionShape(db: Db, i: nat, caller: nat, quote: Payments.Quote)
    requires RowsSane(db) && i < |db.intents| && db.intents[i].target.Contribution?
    requires db.intents[i].status == RequiresConfirmation
    requires Payments.SettleFromWallet(db, db.intents[i].user, i, caller, quote).Ok?
    requires !HasKey(db.ledger, IntentKey(i, caller))
    ensures var row, c := db.intents[i], ContributionOf(db, i);
            && Balance(db.ledger, Available(row.user)) >= row.amount > 0
            && c.group < |db.groups| && c.schedule < |db.groups[c.group].contribs|
            && Payments.SettleFromWallet(db, row.user, i, caller, quote).value
               == WithCharge(db, i, caller, ContributionEntries(c)).(
                    contributions := db.contributions + [c],
                    groups := db.groups[c.group := Groups.RecordPaid(db.groups[c.group], c.schedule, row.amount, db.now)],
                    intents := db.intents[i := Payments.MarkPaid(row, |db.ledger|)])
  {
    assert IntentSane(db, i);
    ChargeIsPair(db, i, Pool(db.intents[i].target.group));
  }

  lemma ContributionChargedKeeps(db: Db, i: nat, caller: nat, groups: seq<Groups.Group>)
    requires BooksOk(db) && i < |db.intents| && db.intents[i].target.Contribution?
    requires db.intents[i].status == RequiresConfirmation
    requires Balance(db.ledger, Available(db.intents[i].user)) >= db.intents[i].amount > 0
    ensures var c := ContributionOf(db, i);
            BooksOk(WithCharge(db, i, caller, ContributionEntries(c)).(
              contributions := db.contributions + [c], groups := groups,
              intents := db.intents[i := Payments.MarkPaid(db.intents[i], |db.ledger|)]))
  {
    var c := ContributionOf(db, i);
    var entries := ContributionEntries(c);
    var db0 := WithCharge(db, i, caller, entries);
    var db1 := db0.(contributions := db.contributions + [c], groups := groups);
    PairSafe(db.ledger, Available(c.payer), Pool(c.group), c.amount);
    RowsSaneAppend(db, NewTxn(IntentKey(i, caller), entries));
    OtherTablesSane(db0, db1);
    assert BooksMoveBy(db, db1, entries) by {
      forall a ensures BooksOf(db1, a) == BooksOf(db, a) + Effect(entries, a) {
        SumAppend(db.contributions, c, ContributionNet(a));
      }
    }
    ChargeKeeps(db, db1, i, caller, entries);
  }

  lemma ChargeContribution(db: Db, i: nat, caller: nat, quote: Payments.Quote)
    requires BooksOk(db) && i < |db.intents| && db.intents[i].target.Contribution?
    requires db.intents[i].status == RequiresConfirmation
    requires Payments.SettleFromWallet(db, db.intents[i].user, i, caller, quote).Ok?
    ensures BooksOk(Payments.SettleFromWallet(db, db.intents[i].user, i, caller, quote).value)
  {
    assert IntentSane(db, i);
    FreshKey(db, IntentKey(i, caller));
    ChargeContributionShape(db, i, caller, quote);
    var db' := Payments.SettleFromWallet(db, db.intents[i].user, i, caller, quote).value;
    ContributionChargedKeeps(db, i, caller, db'.groups);
  }

  function BillOfIntent(db: Db, i: nat): Bill
    requires i < |db.intents|
  {
    var row := db.intents[i];
    Bills.NewBill(row.user, row.amount, row.fee, OfIntent(i), None, Some(i), |db.ledger|)
  }

  lemma ChargeBillShape(db: Db, i: nat, caller: nat, quote: Payments.Quote)
    requires i < |db.intents| && db.intents[i].target.BillFor? && db.intents[i].status == RequiresConfirmation
    requires Payments.SettleFromWallet(db, db.intents[i].user, i, caller, quote).Ok?
    requires !HasKey(db.ledger, IntentKey(i, caller))
    ensures var row, entries := db.intents[i], ReserveEntries(BillOfIntent(db, i));
            && Balanced(entries) && Balance(db.ledger, Available(row.user)) >= Total(row)
            && Payments.SettleFromWallet(db, row.user, i, caller, quote).value
               == WithCharge(db, i, caller, entries).(
                    bills := db.bills + [BillOfIntent(db, i)],
                    intents := db.intents[i := Payments.MarkPaid(row, |db.ledger|)])
  {
    assert Payments.ChargeEntries(db.intents[i], Reserved(db.intents[i].user)) == ReserveEntries(BillOfIntent(db, i));
  }

  lemma BillRowKeeps(db: Db, i: nat, caller: nat)
    requires BooksOk(db) && i < |db.intents| && db.intents[i].target.BillFor?
    ensures var bill := BillOfIntent(db, i);
            var db1 := WithCharge(db, i, caller, ReserveEntries(bill)).(bills := db.bills + [bill]);
            RowsSane(db1) && Grows(db, db1) && BooksMoveBy(db, db1, ReserveEntries(bill))
  {
    var bill := BillOfIntent(db, i);
    var entries := ReserveEntries(bill);
    var db0 := WithCharge(db, i, caller, entries);
    assert IntentSane(db, i);
    RowsSaneAppend(db, NewTxn(IntentKey(i, caller), entries));
    NewBillSane(db0, bill);
    NewBillBooks(db, db0.(bills := db.bills + [bill]), bill);
  }

  lemma ChargedBillKeeps(db: Db, i: nat, caller: nat)
    requires BooksOk(db) && i < |db.intents| && db.intents[i].target.BillFor?
    requires db.intents[i].status == RequiresConfirmation
    requires Balance(db.ledger, Available(db.intents[i].user)) >= Total(db.intents[i])
    ensures var entries := ReserveEntries(BillOfIntent(db, i));
            BooksOk(WithCharge(db, i, caller, entries).(
              bills := db.bills + [BillOfIntent(db, i)],
              intents := db.intents[i := Payments.MarkPaid(db.intents[i], |db.ledger|)]))
  {
    var bill := BillOfIntent(db, i);
    var db1 := WithCharge(db, i, caller, ReserveEntries(bill)).(bills := db.bills + [bill]);
    assert IntentSane(db, i);
    Keeping.ReserveSafe(db.ledger, bill);
    BillRowKeeps(db, i, caller);
    ChargeKeeps(db, db1, i, caller, ReserveEntries(bill));
  }

  lemma ChargeBill(db: Db, i: nat, caller: nat, quote: Payments.Quote)
    requires BooksOk(db) && i < |db.intents| && db.intents[i].target.BillFor?
    requires db.intents[i].status == RequiresConfirmation
    requires Payments.SettleFromWallet(db, db.intents[i].user, i, caller, quote).Ok?
    ensures BooksOk(Payments.SettleFromWallet(db, db.intents[i].user, i, caller, quote).value)
  {
    assert IntentSane(db, i);
    FreshKey(db, IntentKey(i, caller));
    ChargeBillShape(db, i, caller, quote);
    ChargedBillKeeps(db, i, caller);
  }

  function PaidSubscription(db: Db, s: nat, amount: int): Subscription
    requires s < |db.subscriptions|
  {
    db.subscriptions[s].(paid := amount, status := SActive, paidAt := Some(db.now))
  }

  lemma ChargeFoodShape(db: Db, i: nat, caller: nat, quote: Payments.Quote)
    requires RowsSane(db) && i < |db.intents| && db.intents[i].target.Food?
    requires db.intents[i].status == RequiresConfirmation
    requires Payments.SettleFromWallet(db, db.intents[i].user, i, caller, quote).Ok?
    requires !HasKey(db.ledger, IntentKey(i, caller))
    ensures var row := db.intents[i];
            var s := row.target.subscription;
            && s < |db.subscriptions| && db.subscriptions[s].user == row.user
            && db.subscriptions[s].status == SPending && db.subscriptions[s].paid == 0
            && var sub := PaidSubscription(db, s, row.amount);
            && Balanced(EnrolmentEntries(sub)) && Balance(db.ledger, Available(row.user)) >= row.amount > 0
            && Payments.SettleFromWallet(db, row.user, i, caller, quote).value
               == WithCharge(db, i, caller, EnrolmentEntries(sub)).(
                    subscriptions := db.subscriptions[s := sub],
                    intents := db.intents[i := Payments.MarkPaid(row, |db.ledger|)])
  {
    var row := db.intents[i];
    var s := row.target.subscription;
    assert IntentSane(db, i);
    assert SubscriptionSane(db.subscriptions[s], db.now);
    ChargeIsPair(db, i, Escrow(db.subscriptions[s].programme));
    assert Payments.ChargeEntries(row, Escrow(db.subscriptions[s].programme))
        == EnrolmentEntries(PaidSubscription(db, s, row.amount));
  }

  lemma HeldGrows(row: Subscription, row': Subscription, amount: int, a: Account)
    requires row'.user == row.user && row'.programme == row.programme && row'.stranded == row.stranded
    requires row.paid == 0 && row'.paid == amount
    ensures SubscriptionNet(a)(row') == SubscriptionNet(a)(row) + Effect(EnrolmentEntries(row'), a)
  {
    PairEffect(Available(row.user), Escrow(row.programme), row.stranded, a);
    PairEffect(Available(row.user), Escrow(row.programme), amount + row.stranded, a);
    PairEffect(Available(row.user), Escrow(row.programme), amount, a);
  }

  lemma EnrolmentRowKeeps(db: Db, i: nat, caller: nat, s: nat, amount: int)
    requires BooksOk(db) && s < |db.subscriptions| && db.subscriptions[s].paid == 0 && amount > 0
    ensures var sub := PaidSubscription(db, s, amount);
            var db1 := WithCharge(db, i, caller, EnrolmentEntries(sub)).(subscriptions := db.subscriptions[s := sub]);
            RowsSane(db1) && Grows(db, db1) && BooksMoveBy(db, db1, EnrolmentEntries(sub))
  {
    var sub := PaidSubscription(db, s, amount);
    var entries := EnrolmentEntries(sub);
    var db0 := WithCharge(db, i, caller, entries);
    var db1 := db0.(subscriptions := db.subscriptions[s := sub]);
    RowsSaneAppend(db, NewTxn(IntentKey(i, caller), entries));
    SubscriptionUpdateSane(db0, s, sub);
    assert BooksMoveBy(db, db1, entries) by {
      forall a ensures BooksOf(db1, a) == BooksOf(db, a) + Effect(entries, a) {
        SumUpdate(db.subscriptions, s, sub, SubscriptionNet(a));
        HeldGrows(db.subscriptions[s], sub, amount, a);
      }
    }
  }

  lemma FoodChargedKeeps(db: Db, i: nat, caller: nat, s: nat)
    requires BooksOk(db) && i < |db.intents| && s < |db.subscriptions| && db.subscriptions[s].paid == 0
    requires !db.intents[i].target.TopUp? && db.intents[i].status == RequiresConfirmation
    requires Balance(db.ledger, Available(db.subscriptions[s].user)) >= db.intents[i].amount > 0
    ensures var sub := PaidSubscription(db, s, db.intents[i].amount);
            BooksOk(WithCharge(db, i, caller, EnrolmentEntries(sub)).(
              subscriptions := db.subscriptions[s := sub],
              intents := db.intents[i := Payments.MarkPaid(db.intents[i], |db.ledger|)]))
  {
    var sub := PaidSubscription(db, s, db.intents[i].amount);
    var entries := EnrolmentEntries(sub);
    PairSafe(db.ledger, Available(sub.user), Escrow(sub.programme), sub.paid);
    EnrolmentRowKeeps(db, i, caller, s, sub.paid);
    ChargeKeeps(db, WithCharge(db, i, caller, entries).(subscriptions := db.subscriptions[s := sub]), i, caller, entries);
  }

  lemma ChargeFood(db: Db, i: nat, caller: nat, quote: Payments.Quote)
    requires BooksOk(db) && i < |db.intents| && db.intents[i].target.Food?
    requires db.intents[i].status == RequiresConfirmation
    requires Payments.SettleFromWallet(db, db.intents[i].user, i, caller, quote).Ok?
    ensures BooksOk(Payments.SettleFromWallet(db, db.intents[i].user, i, caller, quote).value)
  {
    assert IntentSane(db, i);
    FreshKey(db, IntentKey(i, caller));
    ChargeFoodShape(db, i, caller, quote);
    FoodChargedKeeps(db, i, caller, db.intents[i].target.subscription);
  }

  lemma SettleFromWalletKeeps(db: Db, user: nat, i: nat, caller: nat, quote: Payments.Quote)
    requires BooksOk(db) && Payments.SettleFromWallet(db, user, i, caller, quote).Ok?
    ensures BooksOk(Payments.SettleFromWallet(db, user, i, caller, quote).value)
  {
    if db.intents[i].status == RequiresConfirmation {
      match db.intents[i].target
      case Contribution(_, _) => ChargeContribution(db, i, caller, quote);
      case Food(_) => ChargeFood(db, i, caller, quote);
      case BillFor(_) => ChargeBill(db, i, caller, quote);
      case TopUp =>
    }
  }

  // ----- Every step -------------------------------------------------------

  /** Steps that touch no table the books are read from. */
  predicate OffTheBooks(step: Machine.Step) {
    || step.Wait? || step.OpenWallet? || step.SetWallet? || step.FoundGroup? || step.Governed? || step.Hold?
    || step.FoundProgramme? || step.MoveProgramme? || step.PricePackage?
  }

  lemma OffTheBooksKeeps(db: Db, step: Machine.Step)
    requires BooksOk(db) && OffTheBooks(step) && Machine.Attempt(db, step).Ok?
    ensures BooksOk(Machine.Attempt(db, step).value)
  {
    OutsideTheBooks(db, Machine.Attempt(db, step).value);
  }

  /** A request that goes on remembers something; the books do not. */
  lemma RequestsKeep(db: Db, step: Machine.Step)
    requires BooksOk(db) && (step.PayFromWallet? || step.ReserveBill?) && Machine.Attempt(db, step).Ok?
    ensures BooksOk(Machine.Attempt(db, step).value)
  {
    match step
    case PayFromWallet(u, i, caller, quote) =>
      SettleFromWalletKeeps(db, u, i, caller, quote);
      OutsideTheBooks(Payments.SettleFromWallet(db, u, i, caller, quote).value, Machine.Attempt(db, step).value);
    case ReserveBill(u, r) =>
      CreateBillKeeps(db, u, r);
      OutsideTheBooks(Bills.CreateBill(db, u, r).value, Machine.Attempt(db, step).value);
  }

  predicate IntentStep(step: Machine.Step) {
    step.InsertIntent? || step.Charge? || step.Deposit? || step.FailureWrite?
  }

  lemma IntentStepKeeps(db: Db, step: Machine.Step)
    requires BooksOk(db) && IntentStep(step) && Machine.Attempt(db, step).Ok?
    ensures BooksOk(Machine.Attempt(db, step).value)
  {
    match step
    case InsertIntent(u, target, amount, fee, request) => InsertIntentKeeps(db, u, target, amount, fee, request);
    case Charge(i, reference) => StartExternalKeeps(db, i, reference);
    case Deposit(i) => DepositKeeps(db, i);
    case FailureWrite(i) => WriteFailedKeeps(db, i);
  }

  lemma AttemptKeeps(db: Db, step: Machine.Step)
    requires BooksOk(db) && Machine.Attempt(db, step).Ok?
    ensures BooksOk(Machine.Attempt(db, step).value)
  {
    if OffTheBooks(step) {
      OffTheBooksKeeps(db, step);
    } else if IntentStep(step) {
      IntentStepKeeps(db, step);
    } else if step.PayFromWallet? || step.ReserveBill? {
      RequestsKeep(db, step);
    } else {
      match step
      case AfterCommit(h, hasReference) => AfterCommitKeeps(db, h, hasReference);
      case Answered(b, answer) => AnswerKeeps(db, b, answer);
      case CallFailed(b) => MarkUncertainKeeps(db, b);
      case SendMoney(u, recipient, amount, request) => SendKeeps(db, u, recipient, amount, request);
      case WithdrawMoney(u, amount, request) => WithdrawKeeps(db, u, amount, request);
      case Contribute(u, group, schedule, amount, caller) => ContributionKeeps(db, u, group, schedule, amount, caller);
      case PayOut(u, group, schedule) => PayoutKeeps(db, u, group, schedule);
      case Enrol(u, p, package, quantity) => SubscribeKeeps(db, u, p, package, quantity);
      case CancelEnrolment(u, s) => CancelKeeps(db, u, s);
    }
  }

  lemma EmptyBooks()
    ensures BooksOk(EMPTY)
  {
  }

  /** The books are kept in every reachable state, whatever the bill provider says. */
  lemma {:induction false} BooksKept(steps: seq<Machine.Step>)
    ensures BooksOk(Machine.Run(steps))
    decreases |steps|
  {
    if steps == [] {
      EmptyBooks();
    } else {
      var last := |steps| - 1;
      var before := Machine.Run(steps[..last]);
      BooksKept(steps[..last]);
      if Machine.Attempt(before, steps[last]).Ok? {
        AttemptKeeps(before, steps[last]);
      }
    }
  }
}
