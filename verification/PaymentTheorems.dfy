/** Deposits and wallet payments happen exactly once. */
module PaymentTheorems {
  import opened Ledger
  import opened Tables
  import opened Books
  import opened Machine
  import Bills
  import Custody
  import KeepingPayments
  import Lifecycle
  import Payments

  // ----- The ledger is append-only ----------------------------------------

  lemma BillStepsAppend(db: Db, step: Step)
    requires Attempt(db, step).Ok? && (step.ReserveBill? || step.AfterCommit? || step.CallFailed?)
    ensures db.ledger <= Attempt(db, step).value.ledger
  {
  }

  lemma AnswersAppend(db: Db, b: nat, answer: Bills.Answer)
    requires Bills.ApplyAnswer(db, b, answer).Ok?
    ensures db.ledger <= Bills.ApplyAnswer(db, b, answer).value.ledger
  {
  }

  lemma PaymentsAppend(db: Db, user: nat, i: nat, caller: nat, quote: Payments.Quote)
    requires Payments.SettleFromWallet(db, user, i, caller, quote).Ok?
    ensures db.ledger <= Payments.SettleFromWallet(db, user, i, caller, quote).value.ledger
  {
  }

  lemma StepAppends(db: Db, step: Step)
    requires RowsSane(db)
    ensures db.ledger <= Next(db, step).ledger
  {
    if Attempt(db, step).Ok? {
      if !Lifecycle.TouchesBills(step) {
        Lifecycle.OtherStepsUntouched(db, step);
      } else if step.PayFromWallet? {
        PaymentsAppend(db, step.payer, step.intent, step.caller, step.quote);
      } else if step.Answered? {
        AnswersAppend(db, step.id, step.answer);
      } else {
        BillStepsAppend(db, step);
      }
    }
  }

  /** Whatever follows, nothing already posted is changed or removed. */
  lemma {:induction false} LedgerIsAppendOnly(steps: seq<Step>, more: seq<Step>)
    ensures Run(steps).ledger <= Run(steps + more).ledger
    decreases |more|
  {
    if more == [] {
      assert steps + more == steps;
    } else {
      var last := |more| - 1;
      LedgerIsAppendOnly(steps, more[..last]);
      var before := steps + more[..last];
      assert steps + more == before + [more[last]];
      assert (before + [more[last]])[..|before|] == before;
      KeepingPayments.BooksKept(before);
      StepAppends(Run(before), more[last]);
    }
  }

  lemma KeyStays(l: Book, l': Book, key: Key)
    requires l <= l' && HasKey(l, key)
    ensures HasKey(l', key)
  {
    var p :| 0 <= p < |l| && l[p].key == key;
    assert l'[p].key == key;
  }

  // ----- Deposits ---------------------------------------------------------

  predicate PostedAt(l: Book, p: nat, key: Key) { p < |l| && l[p].key == key }

  ghost predicate AtMostOnce(l: Book, key: Key) {
    forall p: nat, q: nat :: PostedAt(l, p, key) && PostedAt(l, q, key) ==> p == q
  }

  /**
   * However deliveries, failure events and repeated charges interleave, an
   * intent is deposited at most once; SUCCEEDED implies it was, for the
   * intent's own entries; and what was credited is the amount less the fee.
   */
  lemma {:induction false} DepositedExactlyOnce(steps: seq<Step>, i: nat)
    requires i < |Run(steps).intents| && Run(steps).intents[i].target.TopUp?
    ensures var db, row := Run(steps), Run(steps).intents[i];
            && AtMostOnce(db.ledger, SettlementKey(i))
            && (HasKey(db.ledger, SettlementKey(i)) <==> row.txn.Some?)
            && (row.status == Succeeded ==> row.txn.Some?)
            && (row.txn.Some? ==>
                  && row.txn.value < |db.ledger|
                  && db.ledger[row.txn.value] == NewTxn(SettlementKey(i), DepositEntries(row))
                  && Effect(DepositEntries(row), Available(row.user)) == row.amount - row.fee)
  {
    KeepingPayments.BooksKept(steps);
    var db := Run(steps);
    assert IntentSane(db, i);
    if HasKey(db.ledger, SettlementKey(i)) {
      assert Evidence(db, SettlementKey(i));
    }
    Custody.DepositEffect(db.intents[i], Available(db.intents[i].user));
  }

  lemma SameKeySamePlace(l: Book, p: nat, q: nat)
    requires DistinctKeys(l) && p < |l| && q < |l| && l[p].key == l[q].key
    ensures p == q
  {
  }

  /** Once deposited, an intent is never deposited again, whatever follows. */
  lemma {:induction false} DepositIsFinal(steps: seq<Step>, more: seq<Step>, i: nat, p: nat, q: nat)
    requires PostedAt(Run(steps).ledger, p, SettlementKey(i))
    requires PostedAt(Run(steps + more).ledger, q, SettlementKey(i))
    ensures q == p && Run(steps + more).ledger[q] == Run(steps).ledger[p]
  {
    LedgerIsAppendOnly(steps, more);
    KeepingPayments.BooksKept(steps + more);
    var l := Run(steps + more).ledger;
    assert l[p] == Run(steps).ledger[p];
    SameKeySamePlace(l, p, q);
  }

  // ----- Wallet payments --------------------------------------------------

  predicate ChargedAt(l: Book, p: nat, i: nat) { p < |l| && l[p].key.IntentKey? && l[p].key.intent == i }

  /**
   * An intent for a contribution, an enrolment or a bill has left
   * REQUIRES_CONFIRMATION iff it was charged to a wallet, and was charged once
   * whatever keys its confirmations carried.
   */
  lemma {:induction false} ChargedExactlyOnce(steps: seq<Step>, i: nat)
    requires i < |Run(steps).intents| && !Run(steps).intents[i].target.TopUp?
    ensures var db := Run(steps);
            && (db.intents[i].status != RequiresConfirmation <==> exists p: nat :: ChargedAt(db.ledger, p, i))
            && forall p: nat, q: nat :: ChargedAt(db.ledger, p, i) && ChargedAt(db.ledger, q, i) ==> p == q
  {
    KeepingPayments.BooksKept(steps);
    var db := Run(steps);
    assert IntentSane(db, i);
    if db.intents[i].status != RequiresConfirmation {
      assert ChargedAt(db.ledger, db.intents[i].txn.value, i);
    }
    if exists p: nat :: ChargedAt(db.ledger, p, i) {
      var p: nat :| ChargedAt(db.ledger, p, i);
      assert Evidence(db, db.ledger[p].key);
    }
    forall p: nat, q: nat | ChargedAt(db.ledger, p, i) && ChargedAt(db.ledger, q, i) ensures p == q {
      OneCharge(db.ledger, p, q, i);
    }
  }

  lemma OneCharge(l: Book, p: nat, q: nat, i: nat)
    requires ChargedOnce(l) && ChargedAt(l, p, i) && ChargedAt(l, q, i)
    ensures p == q
  {
  }

  /** It leaves once: no later step puts a charged intent back. */
  lemma {:induction false} ChargedStaysCharged(steps: seq<Step>, more: seq<Step>, i: nat)
    requires i < |Run(steps).intents| && !Run(steps).intents[i].target.TopUp?
    requires Run(steps).intents[i].status != RequiresConfirmation
    ensures i < |Run(steps + more).intents| && Run(steps + more).intents[i].status != RequiresConfirmation
  {
    ChargedExactlyOnce(steps, i);
    var p: nat :| ChargedAt(Run(steps).ledger, p, i);
    LedgerIsAppendOnly(steps, more);
    var db := Run(steps + more);
    assert ChargedAt(db.ledger, p, i);
    KeepingPayments.BooksKept(steps + more);
    assert Evidence(db, db.ledger[p].key);
    ChargedExactlyOnce(steps + more, i);
  }
}
