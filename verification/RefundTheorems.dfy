/**
 * Withdrawals from food programmes. A refund's key is the enrolment and the
 * clock reading of the payment it returns, so it is real exactly when no other
 * payment of the enrolment shares that reading.
 */
module RefundTheorems {
  import opened Prelude
  import opened Ledger
  import opened Tables
  import opened Books
  import opened Machine
  import Bills
  import Custody
  import Food
  import FoodTheorems
  import KeepingPayments
  import Lifecycle
  import Payments
  import PaymentTheorems

  // ----- One withdrawal ---------------------------------------------------

  /** What was paid went back from the programme's escrow to the payer. */
  ghost predicate Returned(db: Db, db': Db, row: Subscription) {
    && Balance(db'.ledger, Available(row.user)) == Balance(db.ledger, Available(row.user)) + row.paid
    && Balance(db'.ledger, Escrow(row.programme)) == Balance(db.ledger, Escrow(row.programme)) - row.paid
  }

  /** A refund moves money exactly when its key is new; a known key is answered with the old posting. */
  lemma RefundMovesMoneyIff(db: Db, user: nat, s: nat)
    requires Food.CancelSubscription(db, user, s).Ok? && db.subscriptions[s].paid > 0
    ensures var row, db' := db.subscriptions[s], Food.CancelSubscription(db, user, s).value;
            && (!HasKey(db.ledger, Food.RefundKeyOf(s, row)) <==> Returned(db, db', row))
            && (HasKey(db.ledger, Food.RefundKeyOf(s, row)) <==> db'.ledger == db.ledger)
            && HasKey(db'.ledger, Food.RefundKeyOf(s, row))
            && db'.subscriptions == db.subscriptions[s := Food.Withdrawn(row, db'.ledger != db.ledger)]
            && db'.programmes == db.programmes && db'.now == db.now
  {
    var row := db.subscriptions[s];
    var from, to := Escrow(row.programme), Available(row.user);
    PostOutcome(db.ledger, Food.RefundKeyOf(s, row), RefundEntries(row), to);
    PostOutcome(db.ledger, Food.RefundKeyOf(s, row), RefundEntries(row), from);
    PairEffect(from, to, row.paid, to);
    PairEffect(from, to, row.paid, from);
  }

  // ----- Refund keys and payments -----------------------------------------

  /** The step that completes a payment of enrolment s. */
  predicate Completes(db: Db, step: Step, s: nat) {
    && step.PayFromWallet? && Attempt(db, step).Ok? && step.intent < |db.intents|
    && db.intents[step.intent].status == RequiresConfirmation && db.intents[step.intent].target == Food(s)
  }

  /** How often enrolment s was paid at clock reading t. */
  function PaymentsAt(steps: seq<Step>, s: nat, t: int): nat {
    if steps == [] then 0
    else
      var before, step := steps[..|steps| - 1], steps[|steps| - 1];
      PaymentsAt(before, s, t) + if Completes(Run(before), step, s) && Run(before).now == t then 1 else 0
  }

  predicate PaidNow(db: Db, s: nat, t: int) { s < |db.subscriptions| && db.subscriptions[s].paidAt == Some(t) }

  /** n payments at t: all but the one that still stands have been refunded under the key. */
  ghost predicate RefundsMatch(db: Db, s: nat, t: int, n: nat) {
    && (PaidNow(db, s, t) ==> n >= 1)
    && (HasKey(db.ledger, RefundKey(s, t)) <==> n > if PaidNow(db, s, t) then 1 else 0)
  }

  /** The ledger grew by postings that are no refunds. */
  ghost predicate NoRefundAdded(l: Book, l': Book) {
    l <= l' && forall p :: |l| <= p < |l'| ==> !l'[p].key.RefundKey?
  }

  lemma NoRefundNoKey(l: Book, l': Book, s: nat, t: int)
    requires NoRefundAdded(l, l')
    ensures HasKey(l', RefundKey(s, t)) <==> HasKey(l, RefundKey(s, t))
  {
    if HasKey(l, RefundKey(s, t)) {
      PaymentTheorems.KeyStays(l, l', RefundKey(s, t));
    }
  }

  lemma PaymentNoRefund(db: Db, user: nat, i: nat, caller: nat, quote: Payments.Quote)
    requires Payments.SettleFromWallet(db, user, i, caller, quote).Ok?
    ensures NoRefundAdded(db.ledger, Payments.SettleFromWallet(db, user, i, caller, quote).value.ledger)
  {
  }

  lemma AnswerNoRefund(db: Db, b: nat, answer: Bills.Answer)
    requires Bills.ApplyAnswer(db, b, answer).Ok?
    ensures NoRefundAdded(db.ledger, Bills.ApplyAnswer(db, b, answer).value.ledger)
  {
  }

  lemma BillStepsNoRefund(db: Db, step: Step)
    requires Attempt(db, step).Ok? && (step.ReserveBill? || step.AfterCommit? || step.CallFailed?)
    ensures NoRefundAdded(db.ledger, Attempt(db, step).value.ledger)
  {
  }

  lemma AjoNoRefund(db: Db, step: Step)
    requires Attempt(db, step).Ok? && (step.Contribute? || step.PayOut?)
    ensures NoRefundAdded(db.ledger, Attempt(db, step).value.ledger)
  {
  }

  lemma RestNoRefund(db: Db, step: Step)
    requires Attempt(db, step).Ok? && !Lifecycle.TouchesBills(step) && !step.Contribute? && !step.PayOut?
    requires !step.CancelEnrolment?
    ensures NoRefundAdded(db.ledger, Attempt(db, step).value.ledger)
  {
  }

  lemma OthersNoRefund(db: Db, step: Step)
    requires Attempt(db, step).Ok? && !step.CancelEnrolment?
    ensures NoRefundAdded(db.ledger, Attempt(db, step).value.ledger)
  {
    if step.PayFromWallet? {
      PaymentNoRefund(db, step.payer, step.intent, step.caller, step.quote);
    } else if step.Answered? {
      AnswerNoRefund(db, step.id, step.answer);
    } else if Lifecycle.TouchesBills(step) {
      BillStepsNoRefund(db, step);
    } else if step.Contribute? || step.PayOut? {
      AjoNoRefund(db, step);
    } else {
      RestNoRefund(db, step);
    }
  }

  // ----- Who has paid when ------------------------------------------------

  /** Enrolments keep their payments, and new ones come unpaid. */
  ghost predicate SamePaid(db: Db, db': Db) {
    && |db.subscriptions| <= |db'.subscriptions|
    && (forall s :: 0 <= s < |db.subscriptions| ==>
          && db'.subscriptions[s].paidAt == db.subscriptions[s].paidAt
          && db'.subscriptions[s].programme == db.subscriptions[s].programme
          && db'.subscriptions[s].stranded == db.subscriptions[s].stranded)
    && (forall s :: |db.subscriptions| <= s < |db'.subscriptions| ==>
          db'.subscriptions[s].paidAt.None? && db'.subscriptions[s].stranded == 0)
  }

  lemma OthersSamePaid(db: Db, step: Step)
    requires Attempt(db, step).Ok? && !step.CancelEnrolment? && !step.PayFromWallet?
    ensures SamePaid(db, Attempt(db, step).value)
  {
    if !FoodTheorems.TouchesFood(step) {
      FoodTheorems.OtherStepsSameFood(db, step);
    }
  }

  /** A wallet payment changes one enrolment if it completes one's payment, and otherwise none. */
  lemma PaymentPaid(db: Db, step: Step, s: nat)
    requires BooksOk(db) && step.PayFromWallet? && Attempt(db, step).Ok?
    ensures var db' := Attempt(db, step).value;
            && |db'.subscriptions| == |db.subscriptions|
            && (Completes(db, step, s) ==> s < |db.subscriptions| && db.subscriptions[s].paidAt.None?)
            && (s < |db.subscriptions| ==>
                  && db'.subscriptions[s].paidAt
                       == (if Completes(db, step, s) then Some(db.now) else db.subscriptions[s].paidAt)
                  && db'.subscriptions[s].programme == db.subscriptions[s].programme
                  && db'.subscriptions[s].stranded == db.subscriptions[s].stranded)
  {
    assert step.intent < |db.intents|;
    var i := step.intent;
    if db.intents[i].status == RequiresConfirmation && db.intents[i].target.Food? {
      FoodPaid(db, step.payer, i, step.caller, step.quote);
    } else {
      NoFoodSameFood(db, step.payer, i, step.caller, step.quote);
    }
  }

  lemma FoodPaid(db: Db, user: nat, i: nat, caller: nat, quote: Payments.Quote)
    requires BooksOk(db) && Payments.SettleFromWallet(db, user, i, caller, quote).Ok?
    requires db.intents[i].status == RequiresConfirmation && db.intents[i].target.Food?
    ensures var s, db' := db.intents[i].target.subscription, Payments.SettleFromWallet(db, user, i, caller, quote).value;
            && s < |db.subscriptions| && db.subscriptions[s].paidAt.None?
            && db'.subscriptions == db.subscriptions[s := KeepingPayments.PaidSubscription(db, s, db.intents[i].amount)]
  {
    assert IntentSane(db, i);
    FreshKey(db, IntentKey(i, caller));
    KeepingPayments.ChargeFoodShape(db, i, caller, quote);
    assert SubscriptionSane(db.subscriptions[db.intents[i].target.subscription], db.now);
  }

  lemma NoFoodSameFood(db: Db, user: nat, i: nat, caller: nat, quote: Payments.Quote)
    requires Payments.SettleFromWallet(db, user, i, caller, quote).Ok?
    requires db.intents[i].status != RequiresConfirmation || !db.intents[i].target.Food?
    ensures Payments.SettleFromWallet(db, user, i, caller, quote).value.subscriptions == db.subscriptions
  {
  }

  // ----- Every step -------------------------------------------------------

  /** Enrolment k is emptied, and if it held anything its refund key is in the ledger, new or not. */
  ghost predicate Empties(db: Db, db': Db, k: nat) {
    && k < |db.subscriptions| == |db'.subscriptions| && db'.subscriptions[k].paidAt.None?
    && (forall j :: 0 <= j < |db.subscriptions| && j != k ==> db'.subscriptions[j] == db.subscriptions[j])
    && (db.subscriptions[k].paidAt.None? ==> db'.ledger == db.ledger)
    && (db.subscriptions[k].paidAt.Some? ==>
          var key, l, l' := Food.RefundKeyOf(k, db.subscriptions[k]), db.ledger, db'.ledger;
          HasKey(l', key) && (l' == l || (|l'| == |l| + 1 && l <= l' && l'[|l|].key == key)))
  }

  lemma WithdrawalEmpties(db: Db, user: nat, k: nat)
    requires BooksOk(db) && Food.CancelSubscription(db, user, k).Ok?
    ensures Empties(db, Food.CancelSubscription(db, user, k).value, k)
  {
    assert SubscriptionSane(db.subscriptions[k], db.now);
    if db.subscriptions[k].paid > 0 {
      RefundMovesMoneyIff(db, user, k);
      WithdrawalAppends(db, user, k);
    }
  }

  lemma EmptiedMatches(db: Db, db': Db, k: nat, s: nat, t: int, n: nat)
    requires RefundsMatch(db, s, t, n) && Empties(db, db', k)
    ensures RefundsMatch(db', s, t, n)
  {
    if db.subscriptions[k].paidAt.Some? {
      var key := Food.RefundKeyOf(k, db.subscriptions[k]);
      if RefundKey(s, t) != key {
        OtherKeyStays(db.ledger, db'.ledger, key, RefundKey(s, t));
      }
    }
  }

  lemma WithdrawalAppends(db: Db, user: nat, k: nat)
    requires Food.CancelSubscription(db, user, k).Ok? && db.subscriptions[k].paid > 0
    ensures var l, l' := db.ledger, Food.CancelSubscription(db, user, k).value.ledger;
            l' == l || l' == l + [NewTxn(Food.RefundKeyOf(k, db.subscriptions[k]), RefundEntries(db.subscriptions[k]))]
  {
  }

  lemma OtherKeyStays(l: Book, l': Book, posted: Key, key: Key)
    requires l' == l || (|l'| == |l| + 1 && l <= l' && l'[|l|].key == posted)
    requires key != posted
    ensures HasKey(l', key) <==> HasKey(l, key)
  {
    if HasKey(l, key) {
      PaymentTheorems.KeyStays(l, l', key);
    }
  }

  lemma StepMatches(db: Db, step: Step, s: nat, t: int, n: nat)
    requires BooksOk(db) && RefundsMatch(db, s, t, n)
    ensures RefundsMatch(Next(db, step), s, t, n + if Completes(db, step, s) && db.now == t then 1 else 0)
  {
    if Attempt(db, step).Ok? {
      if step.CancelEnrolment? {
        WithdrawalEmpties(db, step.member, step.subscription);
        EmptiedMatches(db, Next(db, step), step.subscription, s, t, n);
      } else {
        OthersNoRefund(db, step);
        NoRefundNoKey(db.ledger, Next(db, step).ledger, s, t);
        if step.PayFromWallet? {
          PaymentPaid(db, step, s);
        } else {
          OthersSamePaid(db, step);
        }
      }
    }
  }

  lemma {:induction false} RefundsMatchPayments(steps: seq<Step>, s: nat, t: int)
    ensures RefundsMatch(Run(steps), s, t, PaymentsAt(steps, s, t))
    decreases |steps|
  {
    if steps != [] {
      var before := steps[..|steps| - 1];
      RefundsMatchPayments(before, s, t);
      KeepingPayments.BooksKept(before);
      StepMatches(Run(before), steps[|steps| - 1], s, t, PaymentsAt(before, s, t));
    }
  }

  /**
   * In every run an accepted withdrawal of a paid enrolment returns what was
   * paid if and only if that payment is the enrolment's only one at its clock
   * reading; otherwise it posts nothing. Either way the enrolment is emptied.
   */
  lemma {:induction false} RefundIsRealIff(steps: seq<Step>, user: nat, s: nat)
    requires Food.CancelSubscription(Run(steps), user, s).Ok? && Run(steps).subscriptions[s].paid > 0
    ensures var db, db' := Run(steps), Run(steps + [CancelEnrolment(user, s)]);
            var row := db.subscriptions[s];
            && row.paidAt.Some? && row.user == user
            && (Returned(db, db', row) <==> PaymentsAt(steps, s, row.paidAt.value) == 1)
            && (!Returned(db, db', row) ==> db'.ledger == db.ledger)
            && s < |db'.subscriptions| && db'.subscriptions[s].paid == 0
  {
    PaidHasTime(steps, s);
    var t := Run(steps).subscriptions[s].paidAt.value;
    RefundsMatchPayments(steps, s, t);
    RealIfOnlyOne(Run(steps), user, s, PaymentsAt(steps, s, t));
    RunStep(steps, CancelEnrolment(user, s));
  }

  lemma OnlyOneIsReal(db: Db, db': Db, user: nat, s: nat, n: nat)
    requires Food.CancelSubscription(db, user, s) == Ok(db') && db.subscriptions[s].paid > 0
    requires db.subscriptions[s].paidAt.Some? && RefundsMatch(db, s, db.subscriptions[s].paidAt.value, n)
    ensures && db.subscriptions[s].user == user
            && (Returned(db, db', db.subscriptions[s]) <==> n == 1)
            && (!Returned(db, db', db.subscriptions[s]) ==> db'.ledger == db.ledger)
            && s < |db'.subscriptions| && db'.subscriptions[s].paid == 0
  {
    RefundMovesMoneyIff(db, user, s);
  }

  lemma RealIfOnlyOne(db: Db, user: nat, s: nat, n: nat)
    requires Food.CancelSubscription(db, user, s).Ok? && db.subscriptions[s].paid > 0
    requires db.subscriptions[s].paidAt.Some? && RefundsMatch(db, s, db.subscriptions[s].paidAt.value, n)
    ensures var db' := Next(db, CancelEnrolment(user, s));
            && db.subscriptions[s].user == user
            && (Returned(db, db', db.subscriptions[s]) <==> n == 1)
            && (!Returned(db, db', db.subscriptions[s]) ==> db'.ledger == db.ledger)
            && s < |db'.subscriptions| && db'.subscriptions[s].paid == 0
  {
    OnlyOneIsReal(db, Next(db, CancelEnrolment(user, s)), user, s, n);
  }

  lemma {:induction false} PaidHasTime(steps: seq<Step>, s: nat)
    requires s < |Run(steps).subscriptions| && Run(steps).subscriptions[s].paid > 0
    ensures Run(steps).subscriptions[s].paidAt.Some?
  {
    KeepingPayments.BooksKept(steps);
    assert SubscriptionSane(Run(steps).subscriptions[s], Run(steps).now);
  }

  // ----- What lost refunds leave in escrow --------------------------------

  /** An accepted withdrawal of a paid enrolment of programme p whose refund key is already in the ledger. */
  ghost predicate LosesRefund(db: Db, step: Step, p: nat) {
    && step.CancelEnrolment? && Attempt(db, step).Ok?
    && var row := db.subscriptions[step.subscription];
       row.programme == p && row.paid > 0 && HasKey(db.ledger, Food.RefundKeyOf(step.subscription, row))
  }

  ghost function LosesAfter(p: nat): (seq<Step>, Step) -> bool {
    (before: seq<Step>, step: Step) => LosesRefund(Run(before), step, p)
  }

  /** Some withdrawal of the run lost its refund. */
  ghost predicate EverLoses(steps: seq<Step>, p: nat) { Ever(steps, LosesAfter(p)) }

  function Stranded(db: Db, p: nat): int { Sum(db.subscriptions, Custody.StrandedIn(p)) }

  lemma {:induction false} SameStranded(rows: seq<Subscription>, rows': seq<Subscription>, p: nat)
    requires |rows| <= |rows'|
    requires forall s :: 0 <= s < |rows| ==> rows'[s].programme == rows[s].programme && rows'[s].stranded == rows[s].stranded
    requires forall s :: |rows| <= s < |rows'| ==> rows'[s].stranded == 0
    ensures Sum(rows', Custody.StrandedIn(p)) == Sum(rows, Custody.StrandedIn(p))
    decreases |rows'|
  {
    if rows' != [] {
      var last' := |rows'| - 1;
      SameStranded(if |rows'| == |rows| then rows[..last'] else rows, rows'[..last'], p);
    }
  }

  lemma WithdrawnRow(db: Db, user: nat, k: nat)
    requires Food.CancelSubscription(db, user, k).Ok?
    ensures var db' := Food.CancelSubscription(db, user, k).value;
            db'.subscriptions == db.subscriptions[k := Food.Withdrawn(db.subscriptions[k], db'.ledger != db.ledger)]
  {
  }

  lemma RowStrands(db: Db, user: nat, k: nat, p: nat)
    requires Food.CancelSubscription(db, user, k).Ok?
    ensures var row, db' := db.subscriptions[k], Food.CancelSubscription(db, user, k).value;
            Custody.StrandedIn(p)(Food.Withdrawn(row, db'.ledger != db.ledger)) == Custody.StrandedIn(p)(row)
              + if row.programme == p && row.paid > 0 && HasKey(db.ledger, Food.RefundKeyOf(k, row)) then row.paid else 0
  {
    if db.subscriptions[k].paid > 0 {
      RefundMovesMoneyIff(db, user, k);
    }
  }

  lemma WithdrawalStrands(db: Db, step: Step, p: nat)
    requires step.CancelEnrolment? && Attempt(db, step).Ok?
    ensures Stranded(Attempt(db, step).value, p)
         == Stranded(db, p) + if LosesRefund(db, step, p) then db.subscriptions[step.subscription].paid else 0
  {
    var k, db' := step.subscription, Attempt(db, step).value;
    WithdrawnRow(db, step.member, k);
    RowStrands(db, step.member, k, p);
    SumUpdate(db.subscriptions, k, db'.subscriptions[k], Custody.StrandedIn(p));
  }

  lemma OthersStrandNothing(db: Db, step: Step, p: nat)
    requires BooksOk(db) && Attempt(db, step).Ok? && !step.CancelEnrolment?
    ensures Stranded(Attempt(db, step).value, p) == Stranded(db, p)
  {
    var db' := Attempt(db, step).value;
    if step.PayFromWallet? {
      forall s | 0 <= s < |db.subscriptions|
        ensures |db'.subscriptions| == |db.subscriptions| && db'.subscriptions[s].programme == db.subscriptions[s].programme
        ensures db'.subscriptions[s].stranded == db.subscriptions[s].stranded
      {
        PaymentPaid(db, step, s);
      }
      PaymentPaid(db, step, 0);
    } else {
      OthersSamePaid(db, step);
    }
    SameStranded(db.subscriptions, db'.subscriptions, p);
  }

  lemma {:induction false} StrandedIffLost(steps: seq<Step>, p: nat)
    ensures Stranded(Run(steps), p) >= 0
    ensures Stranded(Run(steps), p) > 0 <==> EverLoses(steps, p)
    decreases |steps|
  {
    if steps != [] {
      var before, step := steps[..|steps| - 1], steps[|steps| - 1];
      StrandedIffLost(before, p);
      EverSplit(steps, LosesAfter(p));
      KeepingPayments.BooksKept(before);
      if Attempt(Run(before), step).Ok? {
        if step.CancelEnrolment? {
          WithdrawalStrands(Run(before), step, p);
        } else {
          OthersStrandNothing(Run(before), step, p);
        }
      }
    }
  }

  /**
   * In every run a programme's escrow is at least what its enrolments have
   * paid, and equal to it if and only if none of its withdrawals lost its refund.
   */
  lemma {:induction false} EscrowAgreesIff(steps: seq<Step>, p: nat)
    ensures var db := Run(steps);
            && Balance(db.ledger, Escrow(p)) >= Sum(db.subscriptions, Custody.PaidTo(p)) >= 0
            && (Balance(db.ledger, Escrow(p)) == Sum(db.subscriptions, Custody.PaidTo(p)) <==> !EverLoses(steps, p))
  {
    StrandedIffLost(steps, p);
    KeepingPayments.BooksKept(steps);
    Custody.EscrowIsWhatWasPaid(Run(steps), p);
  }
}
