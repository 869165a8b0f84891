/** Enrolments: the price cannot move under a member who has enrolled, and portions never exceed capacity. */
module FoodTheorems {
  import opened Prelude
  import opened Tables
  import opened Books
  import opened Machine
  import Custody
  import Food
  import GroupMoney
  import KeepingPayments
  import Ledger
  import Lifecycle
  import Payments

  /** An enrolment is in a programme that has opened, so its package's price is locked. */
  ghost predicate EnrolmentOk(db: Db, s: nat)
    requires s < |db.subscriptions|
  {
    var row := db.subscriptions[s];
    && row.programme < |db.programmes| && row.package < |db.programmes[row.programme].packages|
    && db.programmes[row.programme].status != PDraft
    && row.quantity >= 1
    && (row.status == SActive ==>
          row.paid == db.programmes[row.programme].packages[row.package].price * row.quantity)
  }

  ghost predicate CapacityKept(db: Db, p: nat)
    requires p < |db.programmes|
  {
    Sum(db.subscriptions, Food.Portions(p)) <= db.programmes[p].capacity
  }

  /** A member has at most one enrolment for a package. */
  ghost predicate OneEach(rows: seq<Subscription>) {
    forall s, t :: 0 <= s < t < |rows| ==>
      rows[s].programme != rows[t].programme || rows[s].user != rows[t].user || rows[s].package != rows[t].package
  }

  ghost predicate FoodOk(db: Db) {
    && OneEach(db.subscriptions)
    && (forall s :: 0 <= s < |db.subscriptions| ==> EnrolmentOk(db, s))
    && (forall p :: 0 <= p < |db.programmes| ==> CapacityKept(db, p))
  }

  ghost predicate SameFood(db: Db, db': Db) {
    db'.subscriptions == db.subscriptions && db'.programmes == db.programmes
  }

  lemma SameFoodKeeps(db: Db, db': Db)
    requires FoodOk(db) && SameFood(db, db')
    ensures FoodOk(db')
  {
    forall s | 0 <= s < |db'.subscriptions| ensures EnrolmentOk(db', s) {
      assert EnrolmentOk(db, s);
    }
    forall p | 0 <= p < |db'.programmes| ensures CapacityKept(db', p) {
      assert CapacityKept(db, p);
    }
  }

  // ----- Programmes -------------------------------------------------------

  lemma CreateKeeps(db: Db, user: nat, capacity: int, prices: seq<int>)
    requires FoodOk(db) && Food.CreateProgramme(db, user, capacity, prices, true).Ok?
    ensures FoodOk(Food.CreateProgramme(db, user, capacity, prices, true).value)
  {
    var db' := Food.CreateProgramme(db, user, capacity, prices, true).value;
    forall s | 0 <= s < |db'.subscriptions|
      ensures EnrolmentOk(db', s) && db.subscriptions[s].programme < |db.programmes|
    {
      assert EnrolmentOk(db, s);
    }
    SumZero(db.subscriptions, Food.Portions(|db.programmes|));
    forall p | 0 <= p < |db'.programmes| ensures CapacityKept(db', p) {
      assert p < |db.programmes| ==> CapacityKept(db, p);
    }
  }

  /** A programme may change, but once it has opened neither its prices nor its draft status come back. */
  ghost predicate KeepsPrices(row: Programme, row': Programme) {
    && row'.capacity == row.capacity
    && (row.status != PDraft ==> row'.status != PDraft && |row'.packages| == |row.packages|)
    && (row.status != PDraft ==> forall k :: 0 <= k < |row.packages| ==> row'.packages[k].price == row.packages[k].price)
  }

  lemma ProgrammeChanged(db: Db, p: nat, row: Programme)
    requires FoodOk(db) && p < |db.programmes| && KeepsPrices(db.programmes[p], row)
    ensures FoodOk(db.(programmes := db.programmes[p := row]))
  {
    var db' := db.(programmes := db.programmes[p := row]);
    forall s | 0 <= s < |db'.subscriptions| ensures EnrolmentOk(db', s) {
      assert EnrolmentOk(db, s);
      var enrolment := db.subscriptions[s];
      assert db'.programmes[enrolment.programme].packages[enrolment.package].price
          == db.programmes[enrolment.programme].packages[enrolment.package].price;
    }
    forall k | 0 <= k < |db'.programmes| ensures CapacityKept(db', k) {
      assert CapacityKept(db, k);
    }
  }

  lemma TransitionKeeps(db: Db, user: nat, p: nat, to: ProgrammeStatus, collected: bool)
    requires FoodOk(db) && Food.TransitionProgramme(db, user, p, to, collected).Ok?
    ensures FoodOk(Food.TransitionProgramme(db, user, p, to, collected).value)
  {
    ProgrammeChanged(db, p, Food.TransitionProgramme(db, user, p, to, collected).value.programmes[p]);
  }

  lemma PriceKeeps(db: Db, user: nat, p: nat, package: nat, price: int)
    requires FoodOk(db) && Food.UpdatePackage(db, user, p, package, price).Ok?
    ensures FoodOk(Food.UpdatePackage(db, user, p, package, price).value)
  {
    ProgrammeChanged(db, p, Food.UpdatePackage(db, user, p, package, price).value.programmes[p]);
  }

  // ----- Enrolments -------------------------------------------------------

  lemma EnrolmentChanged(db: Db, l: seq<Subscription>, s: nat, row: Subscription)
    requires FoodOk(db) && s < |db.subscriptions| && l == db.subscriptions[s := row]
    requires row.programme == db.subscriptions[s].programme && row.package == db.subscriptions[s].package
    requires row.user == db.subscriptions[s].user
    requires row.quantity >= 1
    requires EnrolmentOk(db, s)
    requires row.status == SActive ==>
               row.paid == db.programmes[row.programme].packages[row.package].price * row.quantity
    requires Food.CanCancel(row.status) ==>
               || (Food.CanCancel(db.subscriptions[s].status) && row.quantity == db.subscriptions[s].quantity)
               || (!Food.CanCancel(db.subscriptions[s].status) && row.programme < |db.programmes|
                   && Sum(db.subscriptions, Food.Portions(row.programme)) + row.quantity
                        <= db.programmes[row.programme].capacity)
    ensures FoodOk(db.(subscriptions := l))
  {
    var db' := db.(subscriptions := l);
    forall k | 0 <= k < |db'.subscriptions| ensures EnrolmentOk(db', k) {
      assert EnrolmentOk(db, k);
    }
    forall p | 0 <= p < |db'.programmes| ensures CapacityKept(db', p) {
      assert CapacityKept(db, p);
      SumUpdate(db.subscriptions, s, row, Food.Portions(p));
    }
  }

  lemma EnrolmentAdded(db: Db, row: Subscription)
    requires FoodOk(db) && row.programme < |db.programmes|
    requires row.package < |db.programmes[row.programme].packages| && db.programmes[row.programme].status != PDraft
    requires row.quantity >= 1 && row.status == SPending
    requires forall s :: 0 <= s < |db.subscriptions| ==>
               || db.subscriptions[s].programme != row.programme || db.subscriptions[s].user != row.user
               || db.subscriptions[s].package != row.package
    requires Sum(db.subscriptions, Food.Portions(row.programme)) + row.quantity <= db.programmes[row.programme].capacity
    ensures FoodOk(db.(subscriptions := db.subscriptions + [row]))
  {
    var db' := db.(subscriptions := db.subscriptions + [row]);
    forall k | 0 <= k < |db'.subscriptions| ensures EnrolmentOk(db', k) {
      assert k < |db.subscriptions| ==> EnrolmentOk(db, k);
    }
    forall p | 0 <= p < |db'.programmes| ensures CapacityKept(db', p) {
      assert CapacityKept(db, p);
      SumAppend(db.subscriptions, row, Food.Portions(p));
    }
  }

  lemma SubscribeKeepsFood(db: Db, user: nat, p: nat, package: nat, quantity: int)
    requires FoodOk(db) && Food.Subscribe(db, user, p, package, quantity).Ok?
    ensures FoodOk(Food.Subscribe(db, user, p, package, quantity).value)
  {
    var existing := Food.FindSubscription(db.subscriptions, p, user, package);
    if existing.Some? {
      var s := existing.value;
      var row := db.subscriptions[s].(status := SPending, quantity := quantity);
      assert EnrolmentOk(db, s);
      EnrolmentChanged(db, db.subscriptions[s := row], s, row);
    } else {
      EnrolmentAdded(db, Subscription(p, package, user, SPending, quantity, 0, None, 0));
    }
  }

  lemma CancelKeepsFood(db: Db, user: nat, s: nat)
    requires FoodOk(db) && Food.CancelSubscription(db, user, s).Ok?
    ensures FoodOk(Food.CancelSubscription(db, user, s).value)
  {
    assert EnrolmentOk(db, s);
    var row := Food.Withdrawn(db.subscriptions[s], Food.CancelSubscription(db, user, s).value.ledger != db.ledger);
    EnrolmentChanged(db, db.subscriptions[s := row], s, row);
    SameFoodKeeps(db.(subscriptions := db.subscriptions[s := row]), Food.CancelSubscription(db, user, s).value);
  }

  // ----- Payment ----------------------------------------------------------

  lemma PaymentTouchesOneEnrolment(db: Db, user: nat, i: nat, caller: nat, quote: Payments.Quote)
    requires RowsSane(db) && FoodOk(db) && Payments.SettleFromWallet(db, user, i, caller, quote).Ok?
    ensures var db' := Payments.SettleFromWallet(db, user, i, caller, quote).value;
            || SameFood(db, db')
            || (&& db.intents[i].target.Food? && db'.programmes == db.programmes
                && var s := db.intents[i].target.subscription;
                && s < |db.subscriptions| && EnrolmentOk(db, s) && db.subscriptions[s].status == SPending
                && var row := db.subscriptions[s];
                   db'.subscriptions == db.subscriptions[s := row.(
                     paid := db.programmes[row.programme].packages[row.package].price * row.quantity,
                     status := SActive, paidAt := Some(db.now))])
  {
    if db.intents[i].status == RequiresConfirmation && db.intents[i].target.Food? {
      var s := db.intents[i].target.subscription;
      if s < |db.subscriptions| {
        assert SubscriptionSane(db.subscriptions[s], db.now) && EnrolmentOk(db, s);
      }
    }
  }

  lemma PaymentKeepsFood(db: Db, user: nat, i: nat, caller: nat, quote: Payments.Quote)
    requires RowsSane(db) && FoodOk(db) && Payments.SettleFromWallet(db, user, i, caller, quote).Ok?
    ensures FoodOk(Payments.SettleFromWallet(db, user, i, caller, quote).value)
  {
    var db' := Payments.SettleFromWallet(db, user, i, caller, quote).value;
    PaymentTouchesOneEnrolment(db, user, i, caller, quote);
    if SameFood(db, db') {
      SameFoodKeeps(db, db');
    } else {
      var s := db.intents[i].target.subscription;
      assert EnrolmentOk(db, s);
      EnrolmentChanged(db, db'.subscriptions, s, db'.subscriptions[s]);
      SameFoodKeeps(db.(subscriptions := db'.subscriptions), db');
    }
  }

  // ----- Every step -------------------------------------------------------

  predicate TouchesFood(step: Step) {
    || step.PayFromWallet? || step.FoundProgramme? || step.MoveProgramme? || step.PricePackage? || step.Enrol?
    || step.CancelEnrolment?
  }

  lemma BillStepsSameFood(db: Db, step: Step)
    requires Attempt(db, step).Ok? && Lifecycle.TouchesBills(step) && !step.PayFromWallet?
    ensures SameFood(db, Attempt(db, step).value)
  {
  }

  lemma GroupStepsSameFood(db: Db, step: Step)
    requires Attempt(db, step).Ok? && GroupMoney.TouchesGroups(step) && !step.PayFromWallet?
    ensures SameFood(db, Attempt(db, step).value)
  {
  }

  lemma OtherStepsSameFood(db: Db, step: Step)
    requires Attempt(db, step).Ok? && !TouchesFood(step)
    ensures SameFood(db, Attempt(db, step).value)
  {
    if Lifecycle.TouchesBills(step) {
      BillStepsSameFood(db, step);
    } else if GroupMoney.TouchesGroups(step) {
      GroupStepsSameFood(db, step);
    }
  }

  lemma ConfirmKeepsFood(db: Db, user: nat, i: nat, caller: nat, quote: Payments.Quote)
    requires RowsSane(db) && FoodOk(db) && ConfirmTx(db, user, i, caller, quote).Ok?
    ensures FoodOk(ConfirmTx(db, user, i, caller, quote).value)
  {
    PaymentKeepsFood(db, user, i, caller, quote);
    SameFoodKeeps(Payments.SettleFromWallet(db, user, i, caller, quote).value, ConfirmTx(db, user, i, caller, quote).value);
  }

  lemma AttemptKeepsFood(db: Db, step: Step)
    requires RowsSane(db) && FoodOk(db) && Attempt(db, step).Ok?
    ensures FoodOk(Attempt(db, step).value)
  {
    if !TouchesFood(step) {
      OtherStepsSameFood(db, step);
      SameFoodKeeps(db, Attempt(db, step).value);
    } else {
      match step
      case PayFromWallet(u, i, caller, quote) => ConfirmKeepsFood(db, u, i, caller, quote);
      case FoundProgramme(u, capacity, prices) => CreateKeeps(db, u, capacity, prices);
      case MoveProgramme(u, p, status, collected) => TransitionKeeps(db, u, p, status, collected);
      case PricePackage(u, p, package, price) => PriceKeeps(db, u, p, package, price);
      case Enrol(u, p, package, quantity) => SubscribeKeepsFood(db, u, p, package, quantity);
      case CancelEnrolment(u, s) => CancelKeepsFood(db, u, s);
    }
  }

  lemma {:induction false} FoodKept(steps: seq<Step>)
    ensures FoodOk(Run(steps))
    decreases |steps|
  {
    if steps != [] {
      var last := |steps| - 1;
      var before := Run(steps[..last]);
      FoodKept(steps[..last]);
      KeepingPayments.BooksKept(steps[..last]);
      if Attempt(before, steps[last]).Ok? {
        AttemptKeepsFood(before, steps[last]);
      }
    }
  }

  /** The portions of a PENDING or ACTIVE enrolment in the programme. */
  function Live(p: nat): Subscription -> int {
    (s: Subscription) => if s.programme == p && (s.status == SPending || s.status == SActive) then s.quantity else 0
  }

  /** Price times quantity of an ACTIVE enrolment in the programme. */
  function ActivePrice(db: Db, p: nat): Subscription -> int {
    (s: Subscription) =>
      if s.programme == p && s.status == SActive && p < |db.programmes| && s.package < |db.programmes[p].packages|
      then db.programmes[p].packages[s.package].price * s.quantity else 0
  }

  /**
   * In every run an enrolment holds the price of its package, as it stands, times
   * its quantity while it is ACTIVE, and otherwise nothing.
   */
  lemma {:induction false} ActiveIsPaidInFull(steps: seq<Step>, s: nat)
    requires s < |Run(steps).subscriptions|
    ensures var db, row := Run(steps), Run(steps).subscriptions[s];
            && row.programme < |db.programmes| && row.package < |db.programmes[row.programme].packages|
            && row.quantity >= 1
            && row.paid == if row.status == SActive
                 then db.programmes[row.programme].packages[row.package].price * row.quantity else 0
  {
    FoodKept(steps);
    KeepingPayments.BooksKept(steps);
    assert EnrolmentOk(Run(steps), s) && SubscriptionSane(Run(steps).subscriptions[s], Run(steps).now);
  }

  /**
   * In every run a programme's escrow is, over exactly its ACTIVE enrolments,
   * price times quantity, and what withdrawals stranded; live enrolments are
   * together within the programme's capacity.
   */
  lemma {:induction false} EscrowIsTheActiveEnrolments(steps: seq<Step>, p: nat)
    requires p < |Run(steps).programmes|
    ensures var db := Run(steps);
            && Ledger.Balance(db.ledger, Ledger.Escrow(p))
                 == Sum(db.subscriptions, ActivePrice(db, p)) + Sum(db.subscriptions, Custody.StrandedIn(p))
            && Sum(db.subscriptions, Live(p)) <= db.programmes[p].capacity
  {
    FoodKept(steps);
    KeepingPayments.BooksKept(steps);
    var db := Run(steps);
    assert CapacityKept(db, p);
    SumSame(db.subscriptions, Food.Portions(p), Live(p));
    forall s | s in db.subscriptions ensures Custody.PaidTo(p)(s) == ActivePrice(db, p)(s) {
      var k :| 0 <= k < |db.subscriptions| && db.subscriptions[k] == s;
      assert EnrolmentOk(db, k) && SubscriptionSane(db.subscriptions[k], db.now);
    }
    SumSame(db.subscriptions, Custody.PaidTo(p), ActivePrice(db, p));
    Custody.EscrowIsWhatWasPaid(db, p);
  }
}
