/** A run in which an enrolment is paid twice within one clock reading and its second refund is lost. */
module LostRefund {
  import opened Prelude
  import opened Ledger
  import opened Tables
  import opened Books
  import opened Machine
  import Custody
  import FlippedVerdict
  import Food
  import KeepingPayments
  import Payments
  import RefundTheorems

  const PRICE: int := 10_000
  const WITHDRAWAL: Step := CancelEnrolment(0, 0)
  const NO_BILL: Payments.Quote := Payments.Refused(NotFound)

  /** A wallet is funded and a programme with one place opened. */
  function Opening(): seq<Step> {
    FlippedVerdict.Funding()[..4] + [FoundProgramme(0, 1, [PRICE]), MoveProgramme(0, 0, POpen, false)]
  }

  /** Enrolling, and paying with the nth intent. */
  function Joining(n: nat): seq<Step> {
    [Enrol(0, 0, 0, 1), InsertIntent(0, Food(0), PRICE, 0, n + 1), PayFromWallet(0, n, 0, NO_BILL)]
  }

  function Whole(): seq<Step> { Opening() + Joining(1) + [WITHDRAWAL] + Joining(2) + [WITHDRAWAL] }

  // ----- Before, between and after the payments ---------------------------

  function Place(status: SubscriptionStatus, stranded: int): Subscription {
    Subscription(0, 0, 0, status, 1, if status == SActive then PRICE else 0,
                 if status == SActive then Some(0) else None, stranded)
  }

  function Opened(): Programme { Programme(0, POpen, 1, [Package(PRICE, true, true)]) }

  ghost predicate Settled(db: Db, n: nat, balance: int) {
    && db.now == 0 && db.wallets == map[0 := true] && db.programmes == [Opened()]
    && |db.intents| == n && (forall i :: 0 <= i < n ==> db.intents[i].request == i + 1)
    && Balance(db.ledger, Available(0)) == balance
  }

  ghost predicate Outside(db: Db, n: nat, balance: int) {
    Settled(db, n, balance) && (db.subscriptions == [] || db.subscriptions == [Place(SCancelled, 0)])
  }

  ghost predicate Inside(db: Db, n: nat, balance: int) {
    Settled(db, n, balance) && db.subscriptions == [Place(SActive, 0)]
  }

  lemma ProgrammeOpens(db: Db)
    requires db.programmes == []
    ensures var db' := Next(Next(db, FoundProgramme(0, 1, [PRICE])), MoveProgramme(0, 0, POpen, false));
            db' == db.(programmes := [Opened()])
  {
    var founded := Next(db, FoundProgramme(0, 1, [PRICE]));
    assert founded.programmes[0].packages == [Package(PRICE, true, false)];
    assert founded.programmes[0].packages[0].active;
    assert Food.LockedPackages(founded.programmes[0].packages) == [Package(PRICE, true, true)];
  }

  lemma {:induction false} OpenedRun(s: seq<Step>)
    requires Run(s).programmes == []
    ensures Run(s + [FoundProgramme(0, 1, [PRICE]), MoveProgramme(0, 0, POpen, false)])
         == Run(s).(programmes := [Opened()])
  {
    var first, second := FoundProgramme(0, 1, [PRICE]), MoveProgramme(0, 0, POpen, false);
    assert s + [first, second] == s + [first] + [second];
    RunStep(s, first);
    RunStep(s + [first], second);
    ProgrammeOpens(Run(s));
  }

  lemma Started()
    ensures Outside(Run(Opening()), 1, FlippedVerdict.DEPOSIT)
  {
    FlippedVerdict.Funded();
    OpenedRun(FlippedVerdict.Funding()[..4]);
  }

  // ----- One round --------------------------------------------------------

  lemma Enrolled(db: Db, n: nat, balance: int)
    requires Outside(db, n, balance)
    ensures Next(db, Enrol(0, 0, 0, 1)) == db.(subscriptions := [Place(SPending, 0)])
  {
    SumZero(db.subscriptions, Food.Portions(0));
  }

  function NewIntent(n: nat): Intent {
    Intent(0, true, Food(0), PRICE, 0, RequiresConfirmation, n + 1, Payments.INTENT_TTL, None, None)
  }

  lemma Intended(db: Db, n: nat, balance: int)
    requires Settled(db, n, balance)
    ensures Next(db, InsertIntent(0, Food(0), PRICE, 0, n + 1)) == db.(intents := db.intents + [NewIntent(n)])
  {
  }

  lemma PaymentAccepted(db: Db, n: nat, balance: int)
    requires Settled(db, n + 1, balance) && balance >= PRICE && db.intents[n] == NewIntent(n)
    requires db.subscriptions == [Place(SPending, 0)]
    ensures Payments.SettleFromWallet(db, 0, n, 0, NO_BILL).Ok?
    ensures RefundTheorems.Completes(db, PayFromWallet(0, n, 0, NO_BILL), 0)
  {
    assert Food.FullPrice(db, db.subscriptions[0]) == PRICE;
    assert Payments.ChargeEntries(db.intents[n], Escrow(0)) == [Dr(Available(0), PRICE), Cr(Escrow(0), PRICE)];
    PairBalanced(Available(0), Escrow(0), PRICE);
  }

  lemma Paid(db: Db, n: nat, balance: int)
    requires BooksOk(db) && Settled(db, n + 1, balance) && balance >= PRICE && db.intents[n] == NewIntent(n)
    requires db.subscriptions == [Place(SPending, 0)]
    ensures Inside(Next(db, PayFromWallet(0, n, 0, NO_BILL)), n + 1, balance - PRICE)
    ensures RefundTheorems.Completes(db, PayFromWallet(0, n, 0, NO_BILL), 0)
  {
    PaymentAccepted(db, n, balance);
    PaidShape(db, n, balance);
    PaidInside(db, n, balance);
  }

  /** What the payment leaves. */
  function PaidDb(db: Db, n: nat): Db
    requires n < |db.intents|
  {
    db.(ledger := db.ledger + [NewTxn(IntentKey(n, 0), EnrolmentEntries(Place(SActive, 0)))],
        subscriptions := [Place(SActive, 0)],
        intents := db.intents[n := Payments.MarkPaid(db.intents[n], |db.ledger|)])
  }

  lemma PaidShape(db: Db, n: nat, balance: int)
    requires BooksOk(db) && Settled(db, n + 1, balance) && db.intents[n] == NewIntent(n)
    requires db.subscriptions == [Place(SPending, 0)] && Payments.SettleFromWallet(db, 0, n, 0, NO_BILL).Ok?
    ensures Payments.SettleFromWallet(db, 0, n, 0, NO_BILL) == Ok(PaidDb(db, n))
  {
    assert IntentSane(db, n);
    FreshKey(db, IntentKey(n, 0));
    KeepingPayments.ChargeFoodShape(db, n, 0, NO_BILL);
    assert KeepingPayments.PaidSubscription(db, 0, PRICE) == Place(SActive, 0);
    assert db.subscriptions[0 := Place(SActive, 0)] == [Place(SActive, 0)];
  }

  lemma PaidInside(db: Db, n: nat, balance: int)
    requires Settled(db, n + 1, balance) && Payments.SettleFromWallet(db, 0, n, 0, NO_BILL) == Ok(PaidDb(db, n))
    ensures Inside(Next(db, PayFromWallet(0, n, 0, NO_BILL)), n + 1, balance - PRICE)
  {
    assert Next(db, PayFromWallet(0, n, 0, NO_BILL)) == PaidDb(db, n).(
      handlers := Next(db, PayFromWallet(0, n, 0, NO_BILL)).handlers);
    PaidBalance(db.ledger, n);
  }

  lemma PaidBalance(l: Book, n: nat)
    ensures Balance(l + [NewTxn(IntentKey(n, 0), EnrolmentEntries(Place(SActive, 0)))], Available(0))
         == Balance(l, Available(0)) - PRICE
  {
    PairEffect(Available(0), Escrow(0), PRICE, Available(0));
    BalanceAppend(l, NewTxn(IntentKey(n, 0), EnrolmentEntries(Place(SActive, 0))), Available(0));
  }

  lemma {:induction false} NotPaid(steps: seq<Step>, step: Step)
    requires !step.PayFromWallet?
    ensures RefundTheorems.PaymentsAt(steps + [step], 0, 0) == RefundTheorems.PaymentsAt(steps, 0, 0)
  {
    assert (steps + [step])[..|steps|] == steps;
  }

  lemma {:induction false} PaidOnceMore(steps: seq<Step>, step: Step)
    requires RefundTheorems.Completes(Run(steps), step, 0) && Run(steps).now == 0
    ensures RefundTheorems.PaymentsAt(steps + [step], 0, 0) == RefundTheorems.PaymentsAt(steps, 0, 0) + 1
  {
    assert (steps + [step])[..|steps|] == steps;
  }

  lemma {:induction false} Joined(steps: seq<Step>, n: nat, balance: int)
    requires Outside(Run(steps), n, balance) && balance >= PRICE
    ensures Inside(Run(steps + Joining(n)), n + 1, balance - PRICE)
    ensures RefundTheorems.PaymentsAt(steps + Joining(n), 0, 0) == RefundTheorems.PaymentsAt(steps, 0, 0) + 1
  {
    var t := Joining(n);
    var s1, s2 := steps + [t[0]], steps + [t[0]] + [t[1]];
    assert steps + t == s2 + [t[2]];
    RunStep(steps, t[0]);
    RunStep(s1, t[1]);
    RunStep(s2, t[2]);
    Enrolled(Run(steps), n, balance);
    Intended(Run(s1), n, balance);
    KeepingPayments.BooksKept(s2);
    Paid(Run(s2), n, balance);
    NotPaid(steps, t[0]);
    NotPaid(s1, t[1]);
    PaidOnceMore(s2, t[2]);
  }

  // ----- Withdrawals ------------------------------------------------------

  lemma WithdrawalAccepted(db: Db, n: nat, balance: int)
    requires Inside(db, n, balance)
    ensures Food.CancelSubscription(db, 0, 0).Ok?
    ensures Attempt(db, WITHDRAWAL) == Food.CancelSubscription(db, 0, 0)
  {
    PairBalanced(Escrow(0), Available(0), PRICE);
  }

  lemma {:induction false} Withdrawn(steps: seq<Step>, n: nat, balance: int)
    requires Inside(Run(steps), n, balance) && RefundTheorems.PaymentsAt(steps, 0, 0) == 1
    ensures Outside(Run(steps + [WITHDRAWAL]), n, balance + PRICE)
    ensures RefundTheorems.PaymentsAt(steps + [WITHDRAWAL], 0, 0) == 1
  {
    WithdrawalAccepted(Run(steps), n, balance);
    RefundTheorems.RefundIsRealIff(steps, 0, 0);
    RefundTheorems.RefundMovesMoneyIff(Run(steps), 0, 0);
    AcceptedStep(steps, WITHDRAWAL, Food.CancelSubscription(Run(steps), 0, 0).value);
    NotPaid(steps, WITHDRAWAL);
    WithdrawnPlace(Run(steps), n, balance);
  }

  lemma WithdrawnPlace(db: Db, n: nat, balance: int)
    requires Inside(db, n, balance) && Food.CancelSubscription(db, 0, 0).Ok?
    requires Food.CancelSubscription(db, 0, 0).value.ledger != db.ledger
    ensures Food.CancelSubscription(db, 0, 0).value
         == db.(ledger := Food.CancelSubscription(db, 0, 0).value.ledger, subscriptions := [Place(SCancelled, 0)])
  {
  }

  lemma NothingPaidYet()
    ensures RefundTheorems.PaymentsAt(Opening(), 0, 0) == 0
  {
    var s := Opening();
    assert s[..0] + [s[0]] == s[..1] && s[..1] + [s[1]] == s[..2] && s[..2] + [s[2]] == s[..3];
    assert s[..3] + [s[3]] == s[..4] && s[..4] + [s[4]] == s[..5] && s[..5] + [s[5]] == s;
    NotPaid(s[..0], s[0]);
    NotPaid(s[..1], s[1]);
    NotPaid(s[..2], s[2]);
    NotPaid(s[..3], s[3]);
    NotPaid(s[..4], s[4]);
    NotPaid(s[..5], s[5]);
  }

  lemma PaidTwiceAtOnce()
    ensures var before := Opening() + Joining(1) + [WITHDRAWAL] + Joining(2);
            Inside(Run(before), 3, FlippedVerdict.DEPOSIT - PRICE) && RefundTheorems.PaymentsAt(before, 0, 0) == 2
  {
    Started();
    NothingPaidYet();
    Joined(Opening(), 1, FlippedVerdict.DEPOSIT);
    Withdrawn(Opening() + Joining(1), 2, FlippedVerdict.DEPOSIT - PRICE);
    Joined(Opening() + Joining(1) + [WITHDRAWAL], 2, FlippedVerdict.DEPOSIT);
  }

  /**
   * Enrol and pay, withdraw and be refunded, enrol and pay again, withdraw
   * again, all within one clock reading: the last withdrawal is accepted and
   * empties the enrolment, but posts nothing, and its price stays in escrow.
   */
  lemma SecondRefundIsLost()
    ensures var before, db, db' := Whole()[..|Whole()| - 1], Run(Whole()[..|Whole()| - 1]), Run(Whole());
            && Whole() == before + [WITHDRAWAL] && Attempt(db, WITHDRAWAL) == Ok(db')
            && db.subscriptions == [Place(SActive, 0)] && db'.subscriptions == [Place(SCancelled, PRICE)]
            && db'.ledger == db.ledger && Balance(db'.ledger, Available(0)) == FlippedVerdict.DEPOSIT - PRICE
            && Balance(db'.ledger, Escrow(0)) == PRICE && Sum(db'.subscriptions, Custody.PaidTo(0)) == 0
  {
    PaidTwiceAtOnce();
    var before := Opening() + Joining(1) + [WITHDRAWAL] + Joining(2);
    assert Whole() == before + [WITHDRAWAL] && Whole()[..|Whole()| - 1] == before;
    WithdrawnForNothing(before, 3, FlippedVerdict.DEPOSIT - PRICE);
    KeepingPayments.BooksKept(Whole());
    LeftInEscrow(Run(Whole()));
  }

  lemma {:induction false} WithdrawnForNothing(steps: seq<Step>, n: nat, balance: int)
    requires Inside(Run(steps), n, balance) && RefundTheorems.PaymentsAt(steps, 0, 0) == 2
    ensures var db' := Run(steps + [WITHDRAWAL]);
            && Attempt(Run(steps), WITHDRAWAL) == Ok(db') && db'.ledger == Run(steps).ledger
            && db'.subscriptions == [Place(SCancelled, PRICE)]
  {
    var db := Run(steps);
    WithdrawalAccepted(db, n, balance);
    RefundTheorems.RefundIsRealIff(steps, 0, 0);
    RefundTheorems.RefundMovesMoneyIff(db, 0, 0);
    AcceptedStep(steps, WITHDRAWAL, Food.CancelSubscription(db, 0, 0).value);
  }

  lemma LeftInEscrow(db: Db)
    requires BooksOk(db) && db.subscriptions == [Place(SCancelled, PRICE)]
    ensures Balance(db.ledger, Escrow(0)) == PRICE && Sum(db.subscriptions, Custody.PaidTo(0)) == 0
  {
    Custody.EscrowIsWhatWasPaid(db, 0);
    SumAppend([], db.subscriptions[0], Custody.PaidTo(0));
    SumAppend([], db.subscriptions[0], Custody.StrandedIn(0));
    assert [] + [db.subscriptions[0]] == db.subscriptions;
  }
}
