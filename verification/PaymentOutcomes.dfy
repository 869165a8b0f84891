/**
 * What each operation on a payment intent does, whatever is asked: how it is
 * created, what it costs, and what confirming, depositing and failing it change.
 */
module PaymentOutcomes {
  import opened Prelude
  import opened Ledger
  import opened Tables
  import opened Books
  import opened AjoOutcomes
  import opened FoodOutcomes
  import opened Outcomes
  import BillOutcomes
  import Bills
  import Custody
  import FoodTheorems
  import GroupMoney
  import KeepingPayments
  import Machine
  import Payments

  // ----- What a target costs ----------------------------------------------

  /** The amount is one the quote of a bill allows. */
  predicate QuoteAllows(quote: Payments.Quote, requested: Option<int>, amount: int) {
    && quote.Quoted?
    && (if requested.Some? then requested.value == amount else quote.fixed == Some(amount))
    && (quote.minimum.Some? ==> quote.minimum.value <= amount)
    && (quote.maximum.Some? ==> amount <= quote.maximum.value)
    && (quote.fixed.Some? ==> amount == quote.fixed.value)
  }

  /**
   * What a user pays towards a target, given what they ask to pay: a deposit of
   * at least 500 naira; part of a contribution of theirs, or all that is
   * outstanding; the full price of an enrolment of theirs, never a part; what a
   * bill's quote allows, or its fixed price.
   */
  ghost predicate Owed(db: Db, user: nat, target: Target, requested: Option<int>, quote: Payments.Quote, amount: int) {
    && amount > 0
    && match target
       case TopUp => requested == Some(amount) && amount >= 50_000
       case Contribution(group, schedule) =>
         && SchedulePlaced(db, group, schedule) && MayContribute(db, user, group, schedule, amount)
         && var row := db.groups[group].contribs[schedule];
            if requested.Some? then requested.value == amount else row.due - row.paid == amount
       case Food(s) => requested.None? && MayPay(db, user, s, amount)
       case BillFor(_) => QuoteAllows(quote, requested, amount)
  }

  ghost predicate Sound(db: Db) { BooksOk(db) && GroupMoney.GroupsOk(db) && FoodTheorems.FoodOk(db) }

  lemma {:induction false} EveryRunIsSound(steps: seq<Machine.Step>)
    ensures Sound(Machine.Run(steps))
  {
    KeepingPayments.BooksKept(steps);
    GroupMoney.GroupsKept(steps);
    FoodTheorems.FoodKept(steps);
  }

  lemma ContributionOwed(db: Db, user: nat, group: nat, schedule: nat, requested: Option<int>, quote: Payments.Quote,
                         amount: int)
    requires Sound(db)
    ensures Payments.Resolve(db, user, Contribution(group, schedule), requested, quote) == Ok(amount) <==>
              Owed(db, user, Contribution(group, schedule), requested, quote, amount)
  {
    if SchedulePlaced(db, group, schedule) {
      StillCollectable(db, group, schedule);
      OwesIffHolds(db.groups[group], user, schedule);
    }
  }

  lemma EnrolmentOwed(db: Db, user: nat, s: nat, quote: Payments.Quote, amount: int)
    requires Sound(db)
    ensures Payments.Resolve(db, user, Food(s), None, quote) == Ok(amount) <==> Owed(db, user, Food(s), None, quote, amount)
  {
    if s < |db.subscriptions| {
      assert FoodTheorems.EnrolmentOk(db, s) && SubscriptionSane(db.subscriptions[s], db.now);
    }
  }

  lemma ResolvesToOwed(db: Db, user: nat, target: Target, requested: Option<int>, quote: Payments.Quote, amount: int)
    requires Sound(db) && (target.Food? ==> requested.None?)
    ensures Payments.Resolve(db, user, target, requested, quote) == Ok(amount) <==>
              Owed(db, user, target, requested, quote, amount)
  {
    match target
    case Contribution(group, schedule) => ContributionOwed(db, user, group, schedule, requested, quote, amount);
    case Food(s) => EnrolmentOwed(db, user, s, quote, amount);
    case _ =>
  }

  // ----- Creating an intent -----------------------------------------------

  predicate IntentUnused(db: Db, user: nat, request: nat) {
    forall i :: 0 <= i < |db.intents| ==> db.intents[i].user != user || db.intents[i].request != request
  }

  /** One more intent, for that much, to be confirmed within fifteen minutes; only deposits and bills carry a fee. */
  ghost predicate IntentMade(db: Db, db': Db, user: nat, target: Target, amount: int, fee: int, request: nat) {
    db' == db.(intents := db.intents + [Intent(
      user, user in db.wallets, target, amount, if target.TopUp? || target.BillFor? then fee else 0,
      RequiresConfirmation, request, db.now + 900_000, None, None)])
  }

  /**
   * Under a key its user has not used, an intent is created exactly for an
   * amount the target costs and a fee not below zero, and carries that amount.
   * A used key changes nothing.
   */
  lemma IntentOutcome(db: Db, user: nat, target: Target, requested: Option<int>, fee: int, request: nat,
                      quote: Payments.Quote)
    requires Sound(db)
    ensures var r := Payments.CreateIntent(db, user, target, requested, fee, request, quote);
            && (!IntentUnused(db, user, request) ==> r == Ok(db))
            && (IntentUnused(db, user, request) ==>
                  && (r.Ok? ==> exists amount ::
                        Owed(db, user, target, requested, quote, amount)
                        && IntentMade(db, r.value, user, target, amount, fee, request))
                  && forall amount :: Owed(db, user, target, requested, quote, amount) ==>
                       (r.Ok? <==> (target.TopUp? || target.BillFor? ==> fee >= 0)))
  {
    if IntentUnused(db, user, request) {
      var r := Payments.CreateIntent(db, user, target, requested, fee, request, quote);
      if r.Ok? {
        var amount := Payments.Resolve(db, user, target, requested, quote).value;
        ResolvesToOwed(db, user, target, requested, quote, amount);
        assert IntentMade(db, r.value, user, target, amount, fee, request);
      }
      forall amount | Owed(db, user, target, requested, quote, amount)
        ensures r.Ok? <==> (target.TopUp? || target.BillFor? ==> fee >= 0)
      {
        ResolvesToOwed(db, user, target, requested, quote, amount);
      }
    }
  }

  // ----- Paying from the wallet -------------------------------------------

  /** An intent of the user's, not yet paid, and not a deposit. */
  predicate Unpaid(db: Db, user: nat, i: nat) {
    i < |db.intents| && db.intents[i].user == user && db.intents[i].status == RequiresConfirmation
  }

  /** The target's own table has no row yet under this intent's key. */
  ghost predicate TargetUnpaid(db: Db, user: nat, i: nat)
    requires i < |db.intents|
  {
    match db.intents[i].target
    case TopUp => false
    case Contribution(group, schedule) => ContributionUnused(db, group, schedule, OfIntent(i))
    case Food(_) => true
    case BillFor(_) => user in db.wallets && BillOutcomes.BillUnused(db, user, OfIntent(i))
  }

  ghost predicate MayCharge(db: Db, user: nat, i: nat, quote: Payments.Quote)
    requires i < |db.intents|
  {
    var row := db.intents[i];
    && TargetUnpaid(db, user, i) && row.hasWallet && Balance(db.ledger, Available(user)) >= row.amount + row.fee
    && Owed(db, user, row.target, if row.target.Food? then None else Some(row.amount), quote, row.amount)
  }

  /** Where the money goes. */
  function HeldIn(db: Db, user: nat, target: Target): Account
    requires !target.TopUp? && (target.Food? ==> target.subscription < |db.subscriptions|)
  {
    match target
    case Contribution(group, _) => Pool(group)
    case Food(s) => Escrow(db.subscriptions[s].programme)
    case BillFor(_) => Reserved(user)
  }

  /** Amount and fee have moved under the intent's key; the intent has SUCCEEDED, or waits if it is a bill's. */
  ghost predicate Charged(db: Db, db': Db, user: nat, i: nat, caller: nat)
    requires i < |db.intents|
  {
    var row := db.intents[i];
    && !row.target.TopUp? && (row.target.Food? ==> row.target.subscription < |db.subscriptions|)
    && Moves(db.ledger, db'.ledger, IntentKey(i, caller), Available(user), HeldIn(db, user, row.target),
             row.amount + row.fee)
    && db'.intents == db.intents[i := row.(
         status := if row.target.BillFor? then Processing else Succeeded, txn := Some(|db.ledger|))]
  }

  /** What a payment leaves in the tables besides: a bill to be paid by the provider, or the target's own record. */
  ghost predicate BillAdded(db: Db, db': Db, user: nat, i: nat)
    requires i < |db.intents|
  {
    && db' == db.(ledger := db'.ledger, bills := db'.bills, intents := db'.intents)
    && db'.bills == db.bills + [Bill(user, db.intents[i].amount, db.intents[i].fee, OfIntent(i), None, Some(i), BillPending,
                                     NotRequired, |db.ledger|, None, None, None, false)]
  }

  lemma BillChargeGuards(db: Db, user: nat, i: nat, caller: nat, quote: Payments.Quote)
    requires RowsSane(db) && Unpaid(db, user, i) && db.intents[i].target.BillFor?
    requires !HasKey(db.ledger, IntentKey(i, caller))
    ensures Payments.SettleFromWallet(db, user, i, caller, quote).Ok? <==> MayCharge(db, user, i, quote)
  {
    assert IntentSane(db, i);
    KeepingPayments.ChargeIsPair(db, i, Reserved(user));
    PairBalanced(Available(user), Reserved(user), Total(db.intents[i]));
  }

  lemma BillShapeCharges(db: Db, db': Db, user: nat, i: nat, caller: nat)
    requires Unpaid(db, user, i) && db.intents[i].target.BillFor?
    requires var bill := KeepingPayments.BillOfIntent(db, i);
             db' == KeepingPayments.WithCharge(db, i, caller, ReserveEntries(bill)).(
               bills := db.bills + [bill], intents := db.intents[i := Payments.MarkPaid(db.intents[i], |db.ledger|)])
    ensures Charged(db, db', user, i, caller) && BillAdded(db, db', user, i)
  {
    PairMoves(db.ledger, db'.ledger, IntentKey(i, caller), Available(user), Reserved(user), Total(db.intents[i]));
  }

  lemma BillChargeOutcome(db: Db, user: nat, i: nat, caller: nat, quote: Payments.Quote)
    requires BooksOk(db) && Unpaid(db, user, i) && db.intents[i].target.BillFor?
    ensures Payments.SettleFromWallet(db, user, i, caller, quote).Ok? <==> MayCharge(db, user, i, quote)
    ensures Payments.SettleFromWallet(db, user, i, caller, quote).Ok? ==>
              var db' := Payments.SettleFromWallet(db, user, i, caller, quote).value;
              Charged(db, db', user, i, caller) && BillAdded(db, db', user, i)
  {
    assert IntentSane(db, i);
    FreshKey(db, IntentKey(i, caller));
    BillChargeGuards(db, user, i, caller, quote);
    if Payments.SettleFromWallet(db, user, i, caller, quote).Ok? {
      KeepingPayments.ChargeBillShape(db, i, caller, quote);
      BillShapeCharges(db, Payments.SettleFromWallet(db, user, i, caller, quote).value, user, i, caller);
    }
  }

  /** A schedule that is not there, or that the intent's key has paid already, refuses it. */
  lemma NoContributionDue(db: Db, user: nat, i: nat, caller: nat, quote: Payments.Quote)
    requires Unpaid(db, user, i) && db.intents[i].target.Contribution? && !UnpaidContribution(db, user, i)
    ensures Payments.SettleFromWallet(db, user, i, caller, quote).Err?
  {
    var row := db.intents[i];
    if SchedulePlaced(db, row.target.group, row.target.schedule) {
      assert !ContributionUnused(db, row.target.group, row.target.schedule, OfIntent(i));
    }
  }

  lemma ContributionChargeAllowed(db: Db, user: nat, i: nat, quote: Payments.Quote)
    requires RowsSane(db) && Unpaid(db, user, i) && db.intents[i].target.Contribution?
    ensures var row := db.intents[i];
            MayCharge(db, user, i, quote) <==>
              && UnpaidContribution(db, user, i) && row.hasWallet && Balance(db.ledger, Available(user)) >= row.amount
              && MayContribute(db, user, row.target.group, row.target.schedule, row.amount)
  {
    assert IntentSane(db, i);
  }

  lemma ContributionChargeOutcome(db: Db, user: nat, i: nat, caller: nat, quote: Payments.Quote)
    requires Sound(db) && Unpaid(db, user, i) && db.intents[i].target.Contribution?
    ensures Payments.SettleFromWallet(db, user, i, caller, quote).Ok? <==> MayCharge(db, user, i, quote)
    ensures Payments.SettleFromWallet(db, user, i, caller, quote).Ok? ==>
              Charged(db, Payments.SettleFromWallet(db, user, i, caller, quote).value, user, i, caller)
  {
    ContributionChargeAllowed(db, user, i, quote);
    if !UnpaidContribution(db, user, i) {
      NoContributionDue(db, user, i, caller, quote);
    } else {
      ContributionIntentAccepted(db, user, i, caller, quote);
      if Payments.SettleFromWallet(db, user, i, caller, quote).Ok? {
        assert IntentSane(db, i);
        ContributionIntentPaysItsAmount(db, user, i, caller, quote);
      }
    }
  }

  lemma EnrolmentChargeAllowed(db: Db, user: nat, i: nat, quote: Payments.Quote)
    requires RowsSane(db) && Unpaid(db, user, i) && db.intents[i].target.Food?
    ensures var row := db.intents[i];
            && row.fee == 0
            && (MayCharge(db, user, i, quote) <==>
                  && MayPay(db, user, row.target.subscription, row.amount) && row.hasWallet
                  && Balance(db.ledger, Available(user)) >= row.amount)
  {
    assert IntentSane(db, i);
  }

  lemma EnrolmentCharges(db: Db, db': Db, user: nat, i: nat, caller: nat)
    requires Unpaid(db, user, i) && db.intents[i].target.Food? && db.intents[i].fee == 0
    requires db.intents[i].target.subscription < |db.subscriptions|
    requires Moves(db.ledger, db'.ledger, IntentKey(i, caller), Available(user),
                   Escrow(db.subscriptions[db.intents[i].target.subscription].programme), db.intents[i].amount)
    requires db'.intents == db.intents[i := db.intents[i].(status := Succeeded, txn := Some(|db.ledger|))]
    ensures Charged(db, db', user, i, caller)
  {
  }

  lemma EnrolmentChargeOutcome(db: Db, user: nat, i: nat, caller: nat, quote: Payments.Quote)
    requires Sound(db) && Unpaid(db, user, i) && db.intents[i].target.Food?
    ensures Payments.SettleFromWallet(db, user, i, caller, quote).Ok? <==> MayCharge(db, user, i, quote)
    ensures Payments.SettleFromWallet(db, user, i, caller, quote).Ok? ==>
              Charged(db, Payments.SettleFromWallet(db, user, i, caller, quote).value, user, i, caller)
  {
    EnrolmentChargeAllowed(db, user, i, quote);
    EnrolmentPaymentAcceptedIff(db, user, i, caller, quote);
    if Payments.SettleFromWallet(db, user, i, caller, quote).Ok? {
      EnrolmentPaymentMovesThePrice(db, user, i, caller, quote);
      EnrolmentCharges(db, Payments.SettleFromWallet(db, user, i, caller, quote).value, user, i, caller);
    }
  }

  /**
   * In every run an unpaid intent is charged exactly when it is not a deposit,
   * its amount is still what the target costs, and the wallet has amount and
   * fee; and then both move, once, from the wallet to the pool, the escrow or
   * the reserve.
   */
  lemma {:induction false} ChargeIsWhatIsOwed(steps: seq<Machine.Step>, user: nat, i: nat, caller: nat,
                                              quote: Payments.Quote)
    requires Unpaid(Machine.Run(steps), user, i)
    ensures var r := Payments.SettleFromWallet(Machine.Run(steps), user, i, caller, quote);
            && (r.Ok? <==> MayCharge(Machine.Run(steps), user, i, quote))
            && (r.Ok? ==> Charged(Machine.Run(steps), r.value, user, i, caller))
            && (r.Ok? && Machine.Run(steps).intents[i].target.BillFor? ==> BillAdded(Machine.Run(steps), r.value, user, i))
  {
    EveryRunIsSound(steps);
    var db := Machine.Run(steps);
    match db.intents[i].target
    case TopUp =>
    case Contribution(_, _) => ContributionChargeOutcome(db, user, i, caller, quote);
    case Food(_) => EnrolmentChargeOutcome(db, user, i, caller, quote);
    case BillFor(_) => BillChargeOutcome(db, user, i, caller, quote);
  }

  // ----- Confirming -------------------------------------------------------

  /**
   * A confirmation of an unpaid intent is accepted exactly from its owner,
   * before it expires, by a method its target takes (a deposit from outside,
   * anything else from the wallet), with verified details and PIN, when the
   * payment itself is; and it does what the payment does. Once paid, another
   * changes nothing.
   */
  lemma ConfirmationOutcome(db: Db, user: nat, i: nat, rail: Payments.Rail, caller: nat, reference: nat, detailsOk: bool,
                            pinOk: bool, quote: Payments.Quote, hasReference: bool, answer: Option<Bills.Answer>)
    requires i < |db.intents|
    ensures var r := Payments.Confirm(db, user, i, rail, caller, reference, detailsOk, pinOk, quote, hasReference, answer);
            var row := db.intents[i];
            var payment := if row.target.TopUp? then Payments.StartExternal(db, i, reference)
              else Payments.PayFromWallet(db, user, i, caller, quote, hasReference, answer);
            && (row.user == user && row.status != RequiresConfirmation ==> r == Ok(db))
            && (row.user != user ==> r == Err(NotFound))
            && (row.user == user && row.status == RequiresConfirmation ==>
                  && (r.Ok? <==> row.expiresAt > db.now && (row.target.TopUp? <==> rail != Payments.FromWallet)
                                 && detailsOk && pinOk && payment.Ok?)
                  && (r.Ok? ==> r == payment))
  {
  }

  /**
   * A deposit is handed to the provider exactly if it is at least 500 naira and
   * the reference is no other intent's; it is then PROCESSING under it.
   */
  lemma ExternalOutcome(db: Db, i: nat, reference: nat)
    requires i < |db.intents|
    ensures var r, row := Payments.StartExternal(db, i, reference), db.intents[i];
            && (r.Ok? <==> row.target.TopUp? && row.amount >= 50_000
                           && forall k :: 0 <= k < |db.intents| && k != i ==> db.intents[k].reference != Some(reference))
            && (r.Ok? ==> r.value == db.(
                  intents := db.intents[i := row.(status := Processing, reference := Some(reference))]))
  {
  }

  // ----- Deposits ---------------------------------------------------------

  /** The provider's money arrives: the amount less the fee in the wallet, the fee earned, the intent SUCCEEDED. */
  ghost predicate DepositMade(db: Db, db': Db, i: nat)
    requires i < |db.intents|
  {
    var row := db.intents[i];
    && Shifts(db.ledger, db'.ledger, SettlementKey(i), ProviderPayable, -row.amount, Available(row.user),
              row.amount - row.fee, FeeRevenue, row.fee)
    && db' == db.(ledger := db'.ledger, intents := db.intents[i := row.(status := Succeeded, txn := Some(|db.ledger|))])
  }

  lemma DepositShifts(l: Book, l': Book, key: Key, i: Intent)
    requires l' == l + [NewTxn(key, DepositEntries(i))] && i.fee >= 0
    ensures Shifts(l, l', key, ProviderPayable, -i.amount, Available(i.user), i.amount - i.fee, FeeRevenue, i.fee)
  {
    forall a ensures Balance(l', a) == Balance(l, a) + Effect(DepositEntries(i), a) {
      BalanceAppend(l, NewTxn(key, DepositEntries(i)), a);
    }
    forall a ensures Effect(DepositEntries(i), a) == (if a == ProviderPayable then -i.amount else 0)
      + (if a == Available(i.user) then i.amount - i.fee else 0) + (if a == FeeRevenue then i.fee else 0)
    {
      Custody.DepositEffect(i, a);
    }
  }

  /** A deposit balances exactly if the fee leaves something. */
  lemma DepositBalancedIff(i: Intent)
    requires i.amount > 0 && i.fee >= 0
    ensures Balanced(DepositEntries(i)) <==> i.amount > i.fee
  {
    var debit, credit, fee := Dr(ProviderPayable, i.amount), Cr(Available(i.user), i.amount - i.fee), Cr(FeeRevenue, i.fee);
    SumPair(debit, credit, DebitOf());
    SumPair(debit, credit, CreditOf());
    SumAppend([debit, credit], fee, DebitOf());
    SumAppend([debit, credit], fee, CreditOf());
    assert DepositEntries(i) == if i.fee > 0 then [debit, credit] + [fee] else [debit, credit];
    assert DepositEntries(i)[1] == credit;
  }

  /**
   * A deposit the provider has a reference for and that was not made before is
   * accepted exactly if its payer has a wallet and the fee leaves something; and
   * then the money moves.
   */
  lemma DepositOutcome(db: Db, i: nat)
    requires BooksOk(db) && i < |db.intents| && db.intents[i].reference.Some? && db.intents[i].txn.None?
    ensures var r, row := Payments.SettleDeposit(db, i), db.intents[i];
            && (r.Ok? <==> row.user in db.wallets && row.amount > row.fee)
            && (r.Ok? ==> DepositMade(db, r.value, i))
  {
    assert IntentSane(db, i);
    FreshKey(db, SettlementKey(i));
    DepositBalancedIff(db.intents[i]);
    if Payments.SettleDeposit(db, i).Ok? {
      DepositShifts(db.ledger, Payments.SettleDeposit(db, i).value.ledger, SettlementKey(i), db.intents[i]);
    }
  }

  /** Made before, it is found again: the intent is SUCCEEDED, whatever it was, and nothing else changes. */
  lemma DepositAgain(db: Db, i: nat)
    requires BooksOk(db) && i < |db.intents| && db.intents[i].reference.Some? && db.intents[i].txn.Some?
    ensures var r, row := Payments.SettleDeposit(db, i), db.intents[i];
            && (r.Ok? <==> row.status == Succeeded || row.user in db.wallets)
            && (r.Ok? ==> r.value == db.(intents := db.intents[i := row.(status := Succeeded)]))
  {
    var row := db.intents[i];
    assert IntentSane(db, i);
    assert db.ledger[row.txn.value].key == SettlementKey(i);
    if row.status != Succeeded && Payments.SettleDeposit(db, i).Ok? {
      KeepingPayments.RepeatedDeposit(db, i);
    }
  }

  /** A failure event marks its intent FAILED and posts nothing. */
  lemma FailureOutcome(db: Db, i: nat)
    requires i < |db.intents|
    ensures var r, row := Payments.WriteFailed(db, i), db.intents[i];
            && (r.Ok? <==> row.reference.Some?)
            && (r.Ok? ==> r.value == db.(intents := db.intents[i := row.(status := FailedIntent)]))
  {
  }
}
