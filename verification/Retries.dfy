/** A request repeated under a key that has been used moves nothing, however much later it comes. */
module Retries {
  import opened Prelude
  import opened Tables
  import opened Machine
  import AjoMoney
  import Bills
  import GroupMoney
  import Lifecycle
  import Movements
  import Payments

  ghost predicate Appends(db: Db, db': Db) {
    && db.transfers <= db'.transfers && db.withdrawals <= db'.withdrawals
    && db.contributions <= db'.contributions && db.payouts <= db'.payouts
  }

  lemma BillStepsAppend(db: Db, step: Step)
    requires Attempt(db, step).Ok? && Lifecycle.TouchesBills(step) && !step.PayFromWallet?
    ensures Appends(db, Attempt(db, step).value)
  {
  }

  lemma PaymentAppends(db: Db, user: nat, i: nat, caller: nat, quote: Payments.Quote)
    requires Payments.SettleFromWallet(db, user, i, caller, quote).Ok?
    ensures Appends(db, Payments.SettleFromWallet(db, user, i, caller, quote).value)
  {
  }

  lemma GroupStepsAppend(db: Db, step: Step)
    requires Attempt(db, step).Ok? && GroupMoney.TouchesGroups(step) && !step.PayFromWallet?
    ensures Appends(db, Attempt(db, step).value)
  {
  }

  lemma RestAppends(db: Db, step: Step)
    requires Attempt(db, step).Ok? && !GroupMoney.TouchesGroups(step) && !Lifecycle.TouchesBills(step)
    ensures Appends(db, Attempt(db, step).value)
  {
  }

  lemma StepAppends(db: Db, step: Step)
    ensures Appends(db, Next(db, step))
  {
    if Attempt(db, step).Ok? {
      if step.PayFromWallet? {
        PaymentAppends(db, step.payer, step.intent, step.caller, step.quote);
      } else if Lifecycle.TouchesBills(step) {
        BillStepsAppend(db, step);
      } else if GroupMoney.TouchesGroups(step) {
        GroupStepsAppend(db, step);
      } else {
        RestAppends(db, step);
      }
    }
  }

  lemma {:induction false} RunsAppend(steps: seq<Step>, more: seq<Step>)
    ensures Appends(Run(steps), Run(steps + more))
    decreases |more|
  {
    if more == [] {
      assert steps + more == steps;
    } else {
      var last := |more| - 1;
      var before := steps + more[..last];
      RunsAppend(steps, more[..last]);
      assert steps + more == before + [more[last]];
      RunStep(before, more[last]);
      StepAppends(Run(before), more[last]);
    }
  }

  /** A request whose key is in the tables already. */
  predicate KeyUsed(db: Db, step: Step) {
    match step
    case SendMoney(_, _, _, request) => Movements.FindTransfer(db.transfers, request).Some?
    case WithdrawMoney(_, _, request) => Movements.FindWithdrawal(db.withdrawals, request).Some?
    case Contribute(_, group, schedule, _, caller) =>
      AjoMoney.FindContribution(db.contributions, group, schedule, caller).Some?
    case PayOut(_, group, r) => AjoMoney.FindPayout(db.payouts, group, r).Some?
    case _ => false
  }

  lemma KeyStaysUsed(db: Db, db': Db, step: Step)
    requires Appends(db, db') && KeyUsed(db, step)
    ensures KeyUsed(db', step)
  {
    match step
    case SendMoney(_, _, _, request) =>
      var i := Movements.FindTransfer(db.transfers, request).value;
      assert db'.transfers[i] == db.transfers[i];
    case WithdrawMoney(_, _, request) =>
      var i := Movements.FindWithdrawal(db.withdrawals, request).value;
      assert db'.withdrawals[i] == db.withdrawals[i];
    case Contribute(_, group, schedule, _, caller) =>
      var i := AjoMoney.FindContribution(db.contributions, group, schedule, caller).value;
      assert db'.contributions[i] == db.contributions[i];
    case PayOut(_, group, r) =>
      var i := AjoMoney.FindPayout(db.payouts, group, r).value;
      assert db'.payouts[i] == db.payouts[i];
    case _ =>
  }

  lemma UsedKeyMovesNothing(db: Db, step: Step)
    requires KeyUsed(db, step)
    ensures Next(db, step) == db
  {
  }

  /**
   * Once a transfer, withdrawal, contribution or payout has gone through, no
   * later request under its key changes anything.
   */
  lemma {:induction false} RetryMovesNothing(steps: seq<Step>, more: seq<Step>, again: Step)
    requires KeyUsed(Run(steps), again)
    ensures Run(steps + more + [again]) == Run(steps + more)
  {
    RunsAppend(steps, more);
    KeyStaysUsed(Run(steps), Run(steps + more), again);
    UsedKeyMovesNothing(Run(steps + more), again);
    RunStep(steps + more, again);
  }

  // ----- The services are steps of the machine ----------------------------

  /**
   * A confirmation is a wallet payment, an external charge, or nothing; and it
   * is neither without the caller's own unexpired intent, a method its target
   * accepts, verified details and a verified PIN.
   */
  lemma ConfirmIsAStep(db: Db, user: nat, i: nat, rail: Payments.Rail, caller: nat, reference: nat, detailsOk: bool,
                       pinOk: bool, quote: Payments.Quote, hasReference: bool, answer: Option<Bills.Answer>)
    requires Payments.Confirm(db, user, i, rail, caller, reference, detailsOk, pinOk, quote, hasReference, answer).Ok?
    ensures var db' := Payments.Confirm(db, user, i, rail, caller, reference, detailsOk, pinOk, quote, hasReference, answer);
            || db' == Ok(db)
            || (&& pinOk && detailsOk && (db.intents[i].target.TopUp? <==> rail != Payments.FromWallet)
                && db.intents[i].status == RequiresConfirmation && db.intents[i].expiresAt > db.now
                && db.intents[i].user == user
                && (|| db' == Payments.PayFromWallet(db, user, i, caller, quote, hasReference, answer)
                    || db' == Attempt(db, Charge(i, reference))))
  {
  }

  /** Creating an intent is the insert of an amount the target owes, at a time the target owed it. */
  lemma CreateIsAStep(db: Db, user: nat, target: Target, requested: Option<int>, fee: int, request: nat,
                      quote: Payments.Quote)
    requires Payments.CreateIntent(db, user, target, requested, fee, request, quote).Ok?
    ensures var db' := Payments.CreateIntent(db, user, target, requested, fee, request, quote);
            || db' == Ok(db)
            || exists amount :: Payments.Resolve(db, user, target, requested, quote) == Ok(amount)
                 && db' == Attempt(db, InsertIntent(
                      user, target, amount, if Payments.ChargesFee(target) then fee else 0, request))
  {
    if Payments.FindIntent(db.intents, user, request).None? {
      var amount := Payments.Resolve(db, user, target, requested, quote).value;
      assert Payments.Resolve(db, user, target, requested, quote) == Ok(amount);
    }
  }

  /** Reconciling a bill is applying an answer to it. */
  lemma ReconcileIsAStep(db: Db, b: nat, answer: Option<Bills.Answer>)
    requires Bills.Reconcile(db, b, answer).Ok?
    ensures answer.Some? && Bills.Reconcile(db, b, answer) == Attempt(db, Answered(b, answer.value))
    ensures b < |db.bills| && db.bills[b].reconciliation == Awaiting
  {
  }
}
