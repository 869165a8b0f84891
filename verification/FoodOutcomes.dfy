/** What each request about a programme or an enrolment does, in every state a run can reach. */
module FoodOutcomes {
  import opened Prelude
  import opened Ledger
  import opened Tables
  import opened Books
  import opened FoodTheorems
  import opened Machine
  import opened Outcomes
  import Food
  import KeepingPayments
  import Payments

  // ----- Paying -----------------------------------------------------------

  /** An intent of the user's for an enrolment, not yet paid. */
  predicate UnpaidEnrolment(db: Db, user: nat, i: nat) {
    && i < |db.intents| && db.intents[i].user == user && db.intents[i].target.Food?
    && db.intents[i].status == RequiresConfirmation
  }

  /** The enrolment is the user's and PENDING, its programme takes payments, and amount is price times quantity. */
  ghost predicate MayPay(db: Db, user: nat, s: nat, amount: int) {
    && s < |db.subscriptions| && EnrolmentOk(db, s)
    && var row := db.subscriptions[s];
       var programme := db.programmes[row.programme];
       && row.user == user && row.status == SPending && (programme.status == POpen || programme.status == PActive)
       && amount == programme.packages[row.package].price * row.quantity
  }

  lemma EnrolmentPaymentGuards(db: Db, user: nat, i: nat, caller: nat, quote: Payments.Quote)
    requires RowsSane(db) && UnpaidEnrolment(db, user, i) && !HasKey(db.ledger, IntentKey(i, caller))
    requires var s := db.intents[i].target.subscription; s < |db.subscriptions| && EnrolmentOk(db, s)
    ensures var row := db.intents[i];
            Payments.SettleFromWallet(db, user, i, caller, quote).Ok? <==>
              && MayPay(db, user, row.target.subscription, row.amount) && row.hasWallet
              && Balance(db.ledger, Available(user)) >= row.amount
  {
    var row := db.intents[i];
    var s := row.target.subscription;
    assert IntentSane(db, i) && SubscriptionSane(db.subscriptions[s], db.now);
    var escrow := Escrow(db.subscriptions[s].programme);
    KeepingPayments.ChargeIsPair(db, i, escrow);
    PairBalanced(Available(user), escrow, row.amount);
  }

  /**
   * A wallet payment for an enrolment is accepted exactly for the member's own
   * PENDING enrolment in a programme that is OPEN or ACTIVE, for its package's
   * price times its quantity, with that much in the wallet.
   */
  lemma EnrolmentPaymentAcceptedIff(db: Db, user: nat, i: nat, caller: nat, quote: Payments.Quote)
    requires BooksOk(db) && FoodOk(db) && UnpaidEnrolment(db, user, i)
    ensures var row := db.intents[i];
            Payments.SettleFromWallet(db, user, i, caller, quote).Ok? <==>
              && MayPay(db, user, row.target.subscription, row.amount) && row.hasWallet
              && Balance(db.ledger, Available(user)) >= row.amount
  {
    assert IntentSane(db, i);
    FreshKey(db, IntentKey(i, caller));
    if db.intents[i].target.subscription < |db.subscriptions| {
      assert EnrolmentOk(db, db.intents[i].target.subscription);
      EnrolmentPaymentGuards(db, user, i, caller, quote);
    }
  }

  /**
   * It moves exactly that product from the wallet into the programme's escrow;
   * the enrolment is ACTIVE and has paid it, now; and the intent has SUCCEEDED.
   */
  lemma EnrolmentPaymentMovesThePrice(db: Db, user: nat, i: nat, caller: nat, quote: Payments.Quote)
    requires BooksOk(db) && FoodOk(db) && UnpaidEnrolment(db, user, i)
    requires Payments.SettleFromWallet(db, user, i, caller, quote).Ok?
    ensures var row, db' := db.intents[i], Payments.SettleFromWallet(db, user, i, caller, quote).value;
            var s := row.target.subscription;
            && s < |db.subscriptions| && EnrolmentOk(db, s)
            && var enrolment := db.subscriptions[s];
               var price := db.programmes[enrolment.programme].packages[enrolment.package].price * enrolment.quantity;
               && Moves(db.ledger, db'.ledger, IntentKey(i, caller), Available(user), Escrow(enrolment.programme), price)
               && db'.subscriptions == db.subscriptions[s := enrolment.(
                    paid := price, status := SActive, paidAt := Some(db.now))]
               && db'.intents == db.intents[i := row.(status := Succeeded, txn := Some(|db.ledger|))]
               && db' == db.(ledger := db'.ledger, subscriptions := db'.subscriptions, intents := db'.intents)
  {
    var row := db.intents[i];
    assert IntentSane(db, i);
    EnrolmentPaymentAcceptedIff(db, user, i, caller, quote);
    FreshKey(db, IntentKey(i, caller));
    KeepingPayments.ChargeFoodShape(db, i, caller, quote);
    PairMoves(db.ledger, Payments.SettleFromWallet(db, user, i, caller, quote).value.ledger, IntentKey(i, caller),
              Available(user), Escrow(db.subscriptions[row.target.subscription].programme), row.amount);
  }

  // ----- Enrolling and withdrawing ----------------------------------------

  predicate LiveIn(row: Subscription, user: nat, p: nat, package: nat) {
    row.user == user && row.programme == p && row.package == package && (row.status == SPending || row.status == SActive)
  }

  ghost predicate MayEnrol(db: Db, user: nat, p: nat, package: nat, quantity: int) {
    && p < |db.programmes| && db.programmes[p].status == POpen
    && package < |db.programmes[p].packages| && db.programmes[p].packages[package].active && quantity >= 1
    && Sum(db.subscriptions, Live(p)) + quantity <= db.programmes[p].capacity
    && forall s :: 0 <= s < |db.subscriptions| ==> !LiveIn(db.subscriptions[s], user, p, package)
  }

  /** The member's enrolment for the package is PENDING for the quantity, new or renewed; every other is as before. */
  ghost predicate Enrolled(rows: seq<Subscription>, rows': seq<Subscription>, user: nat, p: nat, package: nat,
                           quantity: int)
  {
    || rows' == rows + [Subscription(p, package, user, SPending, quantity, 0, None, 0)]
    || exists s: nat :: s < |rows| && rows[s].user == user && rows[s].programme == p && rows[s].package == package
         && rows' == rows[s := rows[s].(status := SPending, quantity := quantity)]
  }

  /**
   * Enrolling is accepted exactly in an OPEN programme, for an active package
   * the member is not already enrolled for, for a quantity that PENDING and
   * ACTIVE enrolments leave room for; and then that quantity is what is
   * recorded, and nothing is posted.
   */
  lemma EnrolmentOutcome(db: Db, user: nat, p: nat, package: nat, quantity: int)
    requires FoodOk(db)
    ensures Food.Subscribe(db, user, p, package, quantity).Ok? <==> MayEnrol(db, user, p, package, quantity)
    ensures Food.Subscribe(db, user, p, package, quantity).Ok? ==>
              var db' := Food.Subscribe(db, user, p, package, quantity).value;
              && Enrolled(db.subscriptions, db'.subscriptions, user, p, package, quantity)
              && db' == db.(subscriptions := db'.subscriptions)
  {
    SumSame(db.subscriptions, Food.Portions(p), Live(p));
    var existing := Food.FindSubscription(db.subscriptions, p, user, package);
    if existing.Some? {
      OnlyEnrolment(db.subscriptions, existing.value, user, p, package);
    }
  }

  lemma OnlyEnrolment(rows: seq<Subscription>, s: nat, user: nat, p: nat, package: nat)
    requires OneEach(rows) && s < |rows|
    requires rows[s].user == user && rows[s].programme == p && rows[s].package == package
    ensures (forall k :: 0 <= k < |rows| ==> !LiveIn(rows[k], user, p, package))
            <==> !(rows[s].status == SPending || rows[s].status == SActive)
  {
    if !LiveIn(rows[s], user, p, package) {
      forall k | 0 <= k < |rows| ensures !LiveIn(rows[k], user, p, package) {
        assert k < s || k == s || s < k;
      }
    }
  }

  /**
   * Withdrawing is accepted exactly from the member's own PENDING or ACTIVE
   * enrolment, and once it is paid only while the programme is OPEN; and then
   * it is CANCELLED and holds nothing.
   */
  lemma WithdrawalOutcome(db: Db, user: nat, s: nat)
    requires BooksOk(db) && FoodOk(db) && s < |db.subscriptions|
    ensures var row := db.subscriptions[s];
            Food.CancelSubscription(db, user, s).Ok? <==>
              && row.user == user && (row.status == SPending || row.status == SActive)
              && (row.status == SActive ==>
                    row.programme < |db.programmes| && db.programmes[row.programme].status == POpen && user in db.wallets)
    ensures Food.CancelSubscription(db, user, s).Ok? ==>
              var row, db' := db.subscriptions[s], Food.CancelSubscription(db, user, s).value;
              && |db'.subscriptions| == |db.subscriptions|
              && db'.subscriptions[s] == row.(status := SCancelled, paid := 0, paidAt := None,
                                              stranded := db'.subscriptions[s].stranded)
              && (forall k :: 0 <= k < |db.subscriptions| && k != s ==> db'.subscriptions[k] == db.subscriptions[k])
              && db' == db.(ledger := db'.ledger, subscriptions := db'.subscriptions)
  {
    var row := db.subscriptions[s];
    assert SubscriptionSane(row, db.now);
    PairBalanced(Escrow(row.programme), Available(row.user), row.paid);
  }

  // ----- Programmes -------------------------------------------------------

  /** Where a programme may go from where it is. */
  predicate MayBecome(from: ProgrammeStatus, to: ProgrammeStatus) {
    || (from == PDraft && to in {POpen, PCancelled})
    || (from == POpen && to in {PActive, PCancelled, PSuspended})
    || (from == PActive && to in {PCompleted, PSuspended})
    || (from == PSuspended && to in {POpen, PActive, PCancelled})
  }

  /** Some package is on offer, and none on offer is free. */
  predicate HasPrices(packages: seq<Package>) {
    && (exists k :: 0 <= k < |packages| && packages[k].active)
    && (forall k :: 0 <= k < |packages| && packages[k].active ==> packages[k].price > 0)
  }

  /** Only the status changes, but that a programme that opens has its packages locked. */
  ghost predicate BecameStatus(row: Programme, row': Programme, to: ProgrammeStatus) {
    && row' == row.(status := to, packages := row'.packages)
    && |row'.packages| == |row.packages|
    && forall k :: 0 <= k < |row.packages| ==>
         row'.packages[k] == row.packages[k].(locked := row.packages[k].locked || to == POpen)
  }

  lemma TransitionOutcome(db: Db, user: nat, p: nat, to: ProgrammeStatus, collected: bool)
    requires p < |db.programmes|
    ensures var row := db.programmes[p];
            Food.TransitionProgramme(db, user, p, to, collected).Ok? <==>
              && row.coordinator == user && MayBecome(row.status, to)
              && (row.status == PDraft && to == POpen ==> HasPrices(row.packages)) && (to == PCompleted ==> collected)
    ensures Food.TransitionProgramme(db, user, p, to, collected).Ok? ==>
              var db' := Food.TransitionProgramme(db, user, p, to, collected).value;
              && |db'.programmes| == |db.programmes| && BecameStatus(db.programmes[p], db'.programmes[p], to)
              && (forall k :: 0 <= k < |db.programmes| && k != p ==> db'.programmes[k] == db.programmes[k])
              && db' == db.(programmes := db'.programmes)
  {
    assert HasPrices(db.programmes[p].packages) <==> Food.PackagesOpenable(db.programmes[p].packages);
  }

  /** A verified coordinator's programme starts as a draft with its packages on offer at the prices given. */
  lemma ProgrammeFounded(db: Db, user: nat, capacity: int, prices: seq<int>, approved: bool)
    ensures Food.CreateProgramme(db, user, capacity, prices, approved).Ok? <==> approved && capacity > 0
    ensures Food.CreateProgramme(db, user, capacity, prices, approved).Ok? ==>
              var db' := Food.CreateProgramme(db, user, capacity, prices, approved).value;
              && |db'.programmes| == |db.programmes| + 1 && db.programmes <= db'.programmes
              && db' == db.(programmes := db'.programmes)
              && var row := db'.programmes[|db.programmes|];
                 && row == Programme(user, PDraft, capacity, row.packages) && |row.packages| == |prices|
                 && forall k :: 0 <= k < |prices| ==> row.packages[k] == Package(prices[k], true, false)
  {
  }

  /** A price changes exactly when the coordinator changes an unlocked package of a draft, and only that price. */
  lemma PriceOutcome(db: Db, user: nat, p: nat, package: nat, price: int)
    requires p < |db.programmes|
    ensures var r, row := Food.UpdatePackage(db, user, p, package, price), db.programmes[p];
            && (r.Ok? <==> row.coordinator == user && package < |row.packages| && !row.packages[package].locked
                           && row.status == PDraft)
            && (r.Ok? ==> r.value == db.(programmes := db.programmes[p := row.(
                  packages := row.packages[package := row.packages[package].(price := price)])]))
  {
  }

  /** A programme once opened keeps its prices and its capacity; COMPLETED and CANCELLED are final. */
  ghost predicate Stands(rows: seq<Programme>, rows': seq<Programme>) {
    && |rows| <= |rows'|
    && forall p :: 0 <= p < |rows| ==>
         && KeepsPrices(rows[p], rows'[p])
         && (rows[p].status == PCompleted || rows[p].status == PCancelled ==> rows'[p].status == rows[p].status)
  }

  lemma ProgrammeStepStands(db: Db, step: Step)
    requires Attempt(db, step).Ok? && (step.FoundProgramme? || step.MoveProgramme? || step.PricePackage?)
    ensures Stands(db.programmes, Attempt(db, step).value.programmes)
  {
  }

  lemma EnrolmentStepStands(db: Db, step: Step)
    requires Attempt(db, step).Ok? && (step.Enrol? || step.CancelEnrolment?)
    ensures Attempt(db, step).value.programmes == db.programmes
  {
  }

  lemma StepStands(db: Db, step: Step)
    requires RowsSane(db) && FoodOk(db)
    ensures Stands(db.programmes, Next(db, step).programmes)
  {
    if Attempt(db, step).Ok? {
      if !TouchesFood(step) {
        OtherStepsSameFood(db, step);
      } else if step.PayFromWallet? {
        PaymentTouchesOneEnrolment(db, step.payer, step.intent, step.caller, step.quote);
      } else if step.Enrol? || step.CancelEnrolment? {
        EnrolmentStepStands(db, step);
      } else {
        ProgrammeStepStands(db, step);
      }
    }
  }

  /**
   * Whatever follows, a programme that has opened keeps its capacity and every
   * price, never is a draft again, and stays as it is once COMPLETED or CANCELLED.
   */
  lemma {:induction false} PricesStandOnceOpen(steps: seq<Step>, more: seq<Step>)
    ensures Stands(Run(steps).programmes, Run(steps + more).programmes)
    decreases |more|
  {
    if more == [] {
      assert steps + more == steps;
    } else {
      var last := |more| - 1;
      var before := steps + more[..last];
      PricesStandOnceOpen(steps, more[..last]);
      assert steps + more == before + [more[last]];
      RunStep(before, more[last]);
      FoodKept(before);
      KeepingPayments.BooksKept(before);
      StepStands(Run(before), more[last]);
    }
  }
}
