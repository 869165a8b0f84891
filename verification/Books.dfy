/**
 * The invariant that ties the ledger to the tables, and the proof that every
 * step keeps it. No assumption is made about the bill provider here.
 */
module Books {
  import opened Prelude
  import opened Ledger
  import opened Tables
  import AjoMoney
  import Movements
  import Payments

  // ----- The invariant ----------------------------------------------------

  /** Every balance is what the product rows say it should be. */
  ghost predicate Agree(db: Db) {
    forall a :: Balance(db.ledger, a) == BooksOf(db, a)
  }

  /** Accounts that must never be overdrawn. */
  predicate Protected(a: Account) { a.Available? || a.Pool? }

  ghost predicate NoOverdraft(l: Book) {
    forall a :: Protected(a) ==> Balance(l, a) >= 0
  }

  /** The row that accounts for a posting under this key. */
  ghost predicate Evidence(db: Db, key: Key) {
    match key
    case IntentKey(i, _) => i < |db.intents| && !db.intents[i].target.TopUp? && db.intents[i].txn.Some?
    case SettlementKey(i) => i < |db.intents| && db.intents[i].target.TopUp? && db.intents[i].txn.Some?
    case BillReserve(b) => b < |db.bills|
    case BillRelease(b) => b < |db.bills| && db.bills[b].released.Some?
    case BillSettle(b) => b < |db.bills| && db.bills[b].settled.Some?
    case BillReversal(b) => b < |db.bills| && db.bills[b].reversed.Some?
    case TransferKey(r) => Movements.FindTransfer(db.transfers, r).Some?
    case WithdrawalKey(r) => Movements.FindWithdrawal(db.withdrawals, r).Some?
    case ContributionKey(g, s, c) => AjoMoney.FindContribution(db.contributions, g, s, c).Some?
    case PayoutKey(g, r) => AjoMoney.FindPayout(db.payouts, g, r).Some?
    case RefundKey(s, _) => s < |db.subscriptions|
    case ManualKey(_) => false
  }

  ghost predicate KeysExplained(db: Db) {
    forall p :: 0 <= p < |db.ledger| ==> Evidence(db, db.ledger[p].key)
  }

  ghost predicate PostedAs(l: Book, column: Option<nat>, key: Key, entries: seq<Entry>) {
    column.Some? ==> column.value < |l| && l[column.value].key == key && l[column.value].entries == entries
  }

  ghost predicate BillSane(db: Db, b: nat)
    requires b < |db.bills|
  {
    var row, l := db.bills[b], db.ledger;
    && row.amount > 0 && row.fee >= 0
    && (row.receipt <==> row.settled.Some?)
    && (row.reversed.Some? ==> row.settled.Some?)
    && (row.status == Successful ==> row.settled.Some? && row.reversed.None?)
    && PostedAs(l, row.settled, BillSettle(b), SettleEntries(row))
    && PostedAs(l, row.released, BillRelease(b), ReleaseEntries(row))
    && PostedAs(l, row.reversed, BillReversal(b), ReversalEntries(row))
    && (row.intent.Some? ==>
          row.intent.value < |db.intents| && db.intents[row.intent.value].target.BillFor?)
  }

  ghost predicate IntentSane(db: Db, i: nat)
    requires i < |db.intents|
  {
    var row, l := db.intents[i], db.ledger;
    && row.amount > 0 && row.fee >= 0
    && (row.fee > 0 ==> Payments.ChargesFee(row.target))
    && (row.reference.Some? ==> row.target.TopUp?)
    && (!row.target.TopUp? ==> (row.status == RequiresConfirmation <==> row.txn.None?))
    && (row.target.TopUp? && row.status == Succeeded ==> row.txn.Some?)
    && (row.txn.Some? ==> row.txn.value < |l|)
    && (row.txn.Some? && row.target.TopUp? ==> l[row.txn.value] == NewTxn(SettlementKey(i), DepositEntries(row)))
    && (row.txn.Some? && !row.target.TopUp? ==>
          l[row.txn.value].key.IntentKey? && l[row.txn.value].key.intent == i)
  }

  ghost predicate SubscriptionSane(s: Subscription, now: int) {
    && s.paid >= 0 && s.stranded >= 0
    && (s.paid > 0 <==> s.paidAt.Some?)
    && (s.paidAt.Some? ==> s.paidAt.value <= now)
    && (s.status == SActive <==> s.paid > 0)
    && (s.status == SPending || s.status == SActive || s.status == SCancelled)
  }

  /** Whatever caller keys are used, an intent is charged to a wallet at most once. */
  ghost predicate ChargedOnce(l: Book) {
    forall p, q :: 0 <= p < q < |l| && l[p].key.IntentKey? && l[q].key.IntentKey? ==>
      l[p].key.intent != l[q].key.intent
  }

  ghost predicate RowsSane(db: Db) {
    && (forall b :: 0 <= b < |db.bills| ==> BillSane(db, b))
    && (forall i :: 0 <= i < |db.intents| ==> IntentSane(db, i))
    && (forall s :: 0 <= s < |db.subscriptions| ==> SubscriptionSane(db.subscriptions[s], db.now))
  }

  ghost predicate BooksOk(db: Db) {
    && Sound(db.ledger) && ChargedOnce(db.ledger) && KeysExplained(db) && RowsSane(db)
    && Agree(db) && NoOverdraft(db.ledger)
  }

  // ----- What tables may do between steps ---------------------------------

  ghost predicate Grows(db: Db, db': Db) {
    && db.now <= db'.now
    && |db.intents| <= |db'.intents|
    && (forall i :: 0 <= i < |db.intents| ==>
          && db'.intents[i].target == db.intents[i].target
          && (db.intents[i].txn.Some? ==> db'.intents[i].txn.Some?))
    && |db.bills| <= |db'.bills|
    && (forall b :: 0 <= b < |db.bills| ==>
          && (db.bills[b].settled.Some? ==> db'.bills[b].settled.Some?)
          && (db.bills[b].released.Some? ==> db'.bills[b].released.Some?)
          && (db.bills[b].reversed.Some? ==> db'.bills[b].reversed.Some?))
    && db.transfers <= db'.transfers && db.withdrawals <= db'.withdrawals
    && db.contributions <= db'.contributions && db.payouts <= db'.payouts
    && |db.subscriptions| <= |db'.subscriptions|
  }

  lemma EvidenceGrows(db: Db, db': Db, key: Key)
    requires Grows(db, db') && Evidence(db, key)
    ensures Evidence(db', key)
  {
    match key
    case TransferKey(r) =>
      var i := Movements.FindTransfer(db.transfers, r).value;
      assert db'.transfers[i] == db.transfers[i];
    case WithdrawalKey(r) =>
      var i := Movements.FindWithdrawal(db.withdrawals, r).value;
      assert db'.withdrawals[i] == db.withdrawals[i];
    case ContributionKey(g, s, c) =>
      var i := AjoMoney.FindContribution(db.contributions, g, s, c).value;
      assert db'.contributions[i] == db.contributions[i];
    case PayoutKey(g, r) =>
      var i := AjoMoney.FindPayout(db.payouts, g, r).value;
      assert db'.payouts[i] == db.payouts[i];
    case _ =>
  }

  // ----- Two kinds of step ------------------------------------------------

  ghost predicate SameBooks(db: Db, db': Db) {
    forall a :: BooksOf(db', a) == BooksOf(db, a)
  }

  ghost predicate BooksMoveBy(db: Db, db': Db, entries: seq<Entry>) {
    forall a :: BooksOf(db', a) == BooksOf(db, a) + Effect(entries, a)
  }

  /** A step that posts nothing and changes no net. */
  lemma QuietStep(db: Db, db': Db)
    requires BooksOk(db) && db'.ledger == db.ledger && Grows(db, db') && RowsSane(db')
    requires SameBooks(db, db')
    ensures BooksOk(db')
  {
    forall p | 0 <= p < |db'.ledger| ensures Evidence(db', db'.ledger[p].key) {
      EvidenceGrows(db, db', db.ledger[p].key);
    }
  }

  lemma FreshKey(db: Db, key: Key)
    requires KeysExplained(db) && !Evidence(db, key)
    ensures !HasKey(db.ledger, key)
  {
  }

  ghost predicate SafePosting(l: Book, entries: seq<Entry>) {
    forall a :: Protected(a) ==> Balance(l, a) + Effect(entries, a) >= 0
  }

  /** A step that posts once under a new key. */
  lemma PostingStep(db: Db, db': Db, key: Key, entries: seq<Entry>)
    requires BooksOk(db) && Balanced(entries) && !HasKey(db.ledger, key) && Evidence(db', key)
    requires db'.ledger == db.ledger + [NewTxn(key, entries)] && Grows(db, db') && RowsSane(db')
    requires BooksMoveBy(db, db', entries)
    requires SafePosting(db.ledger, entries)
    requires key.IntentKey? ==> forall c :: !Evidence(db, IntentKey(key.intent, c))
    ensures BooksOk(db')
  {
    forall a ensures Balance(db'.ledger, a) == Balance(db.ledger, a) + Effect(entries, a) {
      BalanceAppend(db.ledger, NewTxn(key, entries), a);
    }
    forall p | 0 <= p < |db'.ledger| ensures Evidence(db', db'.ledger[p].key) {
      if p < |db.ledger| {
        EvidenceGrows(db, db', db.ledger[p].key);
      }
    }
    SoundAppend(db.ledger, key, entries);
    ChargedOnceAppend(db, key, entries);
  }

  lemma SoundAppend(l: Book, key: Key, entries: seq<Entry>)
    requires Sound(l) && Balanced(entries) && !HasKey(l, key)
    ensures Sound(l + [NewTxn(key, entries)])
  {
    var l' := l + [NewTxn(key, entries)];
    forall i, j | 0 <= i < j < |l'| ensures l'[i].key != l'[j].key {
      if j == |l| {
        assert l[i].key != key;
      }
    }
  }

  lemma ChargedOnceAppend(db: Db, key: Key, entries: seq<Entry>)
    requires ChargedOnce(db.ledger) && KeysExplained(db)
    requires key.IntentKey? ==> forall c :: !Evidence(db, IntentKey(key.intent, c))
    ensures ChargedOnce(db.ledger + [NewTxn(key, entries)])
  {
    var l' := db.ledger + [NewTxn(key, entries)];
    forall p, q | 0 <= p < q < |l'| && l'[p].key.IntentKey? && l'[q].key.IntentKey?
      ensures l'[p].key.intent != l'[q].key.intent
    {
      if q == |db.ledger| {
        assert Evidence(db, db.ledger[p].key);
        assert l'[p].key == IntentKey(l'[p].key.intent, l'[p].key.caller);
      }
    }
  }

  /** Appending to the ledger disturbs no column that points into it. */
  lemma RowsSaneAppend(db: Db, t: Txn)
    requires RowsSane(db)
    ensures RowsSane(db.(ledger := db.ledger + [t]))
  {
    var db' := db.(ledger := db.ledger + [t]);
    forall b | 0 <= b < |db.bills| ensures BillSane(db', b) {
      assert BillSane(db, b);
    }
    forall i | 0 <= i < |db.intents| ensures IntentSane(db', i) {
      assert IntentSane(db, i);
    }
  }

  // ----- Which postings are safe ------------------------------------------

  lemma PairEffect(from: Account, to: Account, amount: int, a: Account)
    ensures Effect([Dr(from, amount), Cr(to, amount)], a)
         == (if a == to then amount else 0) - (if a == from then amount else 0)
  {
    EffectPair(Dr(from, amount), Cr(to, amount), a);
  }

  lemma PairSafe(l: Book, from: Account, to: Account, amount: int)
    requires NoOverdraft(l) && amount > 0 && (Protected(from) ==> Balance(l, from) >= amount)
    ensures SafePosting(l, [Dr(from, amount), Cr(to, amount)])
    ensures Balanced([Dr(from, amount), Cr(to, amount)])
  {
    PairBalanced(from, to, amount);
    forall a | Protected(a) ensures Balance(l, a) + Effect([Dr(from, amount), Cr(to, amount)], a) >= 0 {
      PairEffect(from, to, amount, a);
    }
  }

  lemma NoProtectedDebitSafe(l: Book, entries: seq<Entry>)
    requires NoOverdraft(l) && Balanced(entries)
    requires forall e :: e in entries && e.direction == Debit ==> !Protected(e.account)
    ensures SafePosting(l, entries)
  {
    forall a | Protected(a) ensures Effect(entries, a) >= 0 {
      SumNonNegative(entries, SignedOn(a));
    }
  }
}
