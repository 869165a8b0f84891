/** How a deposit's status follows its postings: exactly when money that was credited is no longer called SUCCEEDED. */
module DepositTheorems {
  import opened Prelude
  import opened Ledger
  import opened Tables
  import opened Books
  import opened Machine
  import Bills
  import KeepingPayments
  import Lifecycle
  import Payments
  import PaymentTheorems

  /** The writes that set a deposit's status without looking at it. */
  predicate Overwrites(step: Step, i: nat) { (step.Charge? || step.FailureWrite?) && step.intent == i }

  predicate DepositAt(steps: seq<Step>, k: nat, i: nat) {
    k < |steps| && steps[k] == Deposit(i) && Attempt(Run(steps[..k]), steps[k]).Ok?
  }

  predicate OverwriteAt(steps: seq<Step>, k: nat, i: nat) {
    k < |steps| && Overwrites(steps[k], i) && Attempt(Run(steps[..k]), steps[k]).Ok?
  }

  /** The run accepted a deposit of i at k, and since then no such write. */
  ghost predicate StandsSince(steps: seq<Step>, k: nat, i: nat) {
    DepositAt(steps, k, i) && forall j: nat :: k < j < |steps| ==> !OverwriteAt(steps, j, i)
  }

  ghost predicate DepositStands(steps: seq<Step>, i: nat) { exists k: nat :: StandsSince(steps, k, i) }

  ghost predicate EverDeposited(steps: seq<Step>, i: nat) { exists k: nat :: DepositAt(steps, k, i) }

  lemma PrefixesAgree(steps: seq<Step>, k: nat, i: nat)
    requires k < |steps| - 1
    ensures DepositAt(steps[..|steps| - 1], k, i) <==> DepositAt(steps, k, i)
    ensures OverwriteAt(steps[..|steps| - 1], k, i) <==> OverwriteAt(steps, k, i)
  {
    assert steps[..|steps| - 1][..k] == steps[..k];
  }

  lemma StandsSplit(steps: seq<Step>, i: nat)
    requires steps != []
    ensures var last := |steps| - 1;
            DepositStands(steps, i) <==>
              DepositAt(steps, last, i) || (DepositStands(steps[..last], i) && !OverwriteAt(steps, last, i))
  {
    var last := |steps| - 1;
    forall k: nat | k < last
      ensures DepositAt(steps[..last], k, i) <==> DepositAt(steps, k, i)
      ensures OverwriteAt(steps[..last], k, i) <==> OverwriteAt(steps, k, i)
    {
      PrefixesAgree(steps, k, i);
    }
    if DepositAt(steps, last, i) {
      assert StandsSince(steps, last, i);
    }
    if DepositStands(steps[..last], i) && !OverwriteAt(steps, last, i) {
      var k: nat :| StandsSince(steps[..last], k, i);
      assert StandsSince(steps, k, i);
    }
    if DepositStands(steps, i) && !DepositAt(steps, last, i) {
      var k: nat :| StandsSince(steps, k, i);
      assert StandsSince(steps[..last], k, i);
    }
  }

  lemma EverDepositedSplit(steps: seq<Step>, i: nat)
    requires steps != []
    ensures EverDeposited(steps, i) <==> DepositAt(steps, |steps| - 1, i) || EverDeposited(steps[..|steps| - 1], i)
  {
    var last := |steps| - 1;
    if EverDeposited(steps[..last], i) {
      var k: nat :| DepositAt(steps[..last], k, i);
      PrefixesAgree(steps, k, i);
      assert DepositAt(steps, k, i);
    }
    if EverDeposited(steps, i) {
      var k: nat :| DepositAt(steps, k, i);
      if k < last {
        PrefixesAgree(steps, k, i);
      }
    }
  }

  // ----- One step ---------------------------------------------------------

  /** Deposits' intents stay as they are, and new intents have yet to be confirmed. */
  ghost predicate DepositsAlone(db: Db, db': Db) {
    && |db.intents| <= |db'.intents|
    && (forall i :: 0 <= i < |db.intents| ==> db'.intents[i].target == db.intents[i].target)
    && (forall i :: 0 <= i < |db.intents| && db.intents[i].target.TopUp? ==> db'.intents[i] == db.intents[i])
    && (forall i :: |db.intents| <= i < |db'.intents| ==> db'.intents[i].status == RequiresConfirmation)
    && (forall i :: |db.intents| <= i < |db'.intents| ==> db'.intents[i].txn.None? && db'.intents[i].reference.None?)
  }

  lemma PaymentAlone(db: Db, user: nat, i: nat, caller: nat, quote: Payments.Quote)
    requires Payments.SettleFromWallet(db, user, i, caller, quote).Ok?
    ensures DepositsAlone(db, Payments.SettleFromWallet(db, user, i, caller, quote).value)
  {
  }

  lemma AnswerAlone(db: Db, b: nat, answer: Bills.Answer)
    requires RowsSane(db) && Bills.ApplyAnswer(db, b, answer).Ok?
    ensures DepositsAlone(db, Bills.ApplyAnswer(db, b, answer).value)
  {
    assert BillSane(db, b);
  }

  lemma BillStepsAlone(db: Db, step: Step)
    requires Attempt(db, step).Ok? && (step.ReserveBill? || step.AfterCommit? || step.CallFailed?)
    ensures DepositsAlone(db, Attempt(db, step).value)
  {
  }

  lemma AjoAlone(db: Db, step: Step)
    requires Attempt(db, step).Ok? && (step.Contribute? || step.PayOut?)
    ensures DepositsAlone(db, Attempt(db, step).value)
  {
  }

  lemma SameIntentsAlone(db: Db, db': Db)
    requires db'.intents == db.intents
    ensures DepositsAlone(db, db')
  {
  }

  lemma MovementsAlone(db: Db, step: Step)
    requires Attempt(db, step).Ok? && (step.SendMoney? || step.WithdrawMoney? || step.Enrol? || step.CancelEnrolment?)
    ensures Attempt(db, step).value.intents == db.intents
  {
  }

  lemma OffTheBooksAlone(db: Db, step: Step)
    requires Attempt(db, step).Ok? && KeepingPayments.OffTheBooks(step)
    ensures Attempt(db, step).value.intents == db.intents
  {
  }

  lemma RestAlone(db: Db, step: Step)
    requires Attempt(db, step).Ok? && !Lifecycle.TouchesBills(step) && !step.Contribute? && !step.PayOut?
    requires !step.Deposit? && !step.Charge? && !step.FailureWrite?
    ensures DepositsAlone(db, Attempt(db, step).value)
  {
    if KeepingPayments.OffTheBooks(step) {
      OffTheBooksAlone(db, step);
      SameIntentsAlone(db, Attempt(db, step).value);
    } else if !step.InsertIntent? {
      MovementsAlone(db, step);
      SameIntentsAlone(db, Attempt(db, step).value);
    }
  }

  lemma OthersAlone(db: Db, step: Step)
    requires RowsSane(db) && Attempt(db, step).Ok? && !step.Deposit? && !step.Charge? && !step.FailureWrite?
    ensures DepositsAlone(db, Attempt(db, step).value)
  {
    if step.PayFromWallet? {
      PaymentAlone(db, step.payer, step.intent, step.caller, step.quote);
    } else if step.Answered? {
      AnswerAlone(db, step.id, step.answer);
    } else if Lifecycle.TouchesBills(step) {
      BillStepsAlone(db, step);
    } else if step.Contribute? || step.PayOut? {
      AjoAlone(db, step);
    } else {
      RestAlone(db, step);
    }
  }

  /** What such a write does look at: nothing about the status. */
  predicate WriteAccepted(db: Db, step: Step, i: nat)
    requires i < |db.intents|
  {
    if step.Charge? then
      && db.intents[i].target.TopUp? && db.intents[i].amount >= Payments.MINIMUM_DEPOSIT
      && !Payments.ReferenceTaken(db.intents, i, step.reference)
    else db.intents[i].reference.Some?
  }

  /** A step takes SUCCEEDED from an intent and leaves its posting where it is. */
  predicate Unsettles(db: Db, step: Step, i: nat)
    requires i < |db.intents|
  {
    var db' := Next(db, step);
    && db.intents[i].status == Succeeded && i < |db'.intents| && db'.intents[i].status != Succeeded
    && db'.intents[i].txn == db.intents[i].txn && db'.ledger == db.ledger
  }

  lemma OverwriteUnsettles(db: Db, step: Step, i: nat)
    requires i < |db.intents| && Overwrites(step, i)
    ensures Unsettles(db, step, i) <==> db.intents[i].status == Succeeded && WriteAccepted(db, step, i)
  {
  }

  lemma StatusStep(db: Db, step: Step, i: nat)
    requires RowsSane(db) && i < |Next(db, step).intents| && Next(db, step).intents[i].target.TopUp?
    ensures i < |db.intents| ==> db.intents[i].target.TopUp?
    ensures i >= |db.intents| ==> !(step == Deposit(i) && Attempt(db, step).Ok?)
    ensures var deposits := step == Deposit(i) && Attempt(db, step).Ok?;
            var overwrites := Overwrites(step, i) && Attempt(db, step).Ok?;
            && (Next(db, step).intents[i].status == Succeeded <==>
                  deposits || (i < |db.intents| && db.intents[i].status == Succeeded && !overwrites))
            && (Next(db, step).intents[i].txn.Some? <==> deposits || (i < |db.intents| && db.intents[i].txn.Some?))
  {
    if Attempt(db, step).Ok? {
      if step.Deposit? || step.Charge? || step.FailureWrite? {
        assert IntentSane(db, step.intent);
      } else {
        OthersAlone(db, step);
      }
    }
  }

  // ----- Every run --------------------------------------------------------

  /** Nothing was deposited or overwritten before the intent existed. */
  lemma {:induction false} NothingBeforehand(steps: seq<Step>, i: nat)
    requires i >= |Run(steps).intents|
    ensures !EverDeposited(steps, i) && !DepositStands(steps, i)
    decreases |steps|
  {
    if steps != [] {
      var before, step := steps[..|steps| - 1], steps[|steps| - 1];
      KeepingPayments.BooksKept(before);
      IntentsGrow(Run(before), step);
      NothingBeforehand(before, i);
      StandsSplit(steps, i);
      EverDepositedSplit(steps, i);
    }
  }

  lemma IntentsGrow(db: Db, step: Step)
    requires RowsSane(db)
    ensures |db.intents| <= |Next(db, step).intents|
    ensures step.Deposit? && step.intent >= |db.intents| ==> Attempt(db, step).Err?
  {
    if Attempt(db, step).Ok? && !step.Deposit? && !step.Charge? && !step.FailureWrite? {
      OthersAlone(db, step);
    }
  }

  lemma {:induction false} StatusFollows(steps: seq<Step>, i: nat)
    requires i < |Run(steps).intents| && Run(steps).intents[i].target.TopUp?
    ensures Run(steps).intents[i].status == Succeeded <==> DepositStands(steps, i)
    ensures Run(steps).intents[i].txn.Some? <==> EverDeposited(steps, i)
    decreases |steps|
  {
    if steps != [] {
      var before, step := steps[..|steps| - 1], steps[|steps| - 1];
      KeepingPayments.BooksKept(before);
      StatusStep(Run(before), step, i);
      StandsSplit(steps, i);
      EverDepositedSplit(steps, i);
      if i < |Run(before).intents| {
        StatusFollows(before, i);
      } else {
        NothingBeforehand(before, i);
      }
    }
  }

  /**
   * In every run a deposit's money is in the ledger if and only if some step
   * deposited it, and its intent is SUCCEEDED if and only if no charge or
   * failure write was accepted after that: the last deposit is the last word
   * exactly when nothing overwrote it.
   */
  lemma {:induction false} SucceededIffNotOverwritten(steps: seq<Step>, i: nat)
    requires i < |Run(steps).intents| && Run(steps).intents[i].target.TopUp?
    ensures var db := Run(steps);
            && (HasKey(db.ledger, SettlementKey(i)) <==> EverDeposited(steps, i))
            && (db.intents[i].status == Succeeded <==> DepositStands(steps, i))
  {
    StatusFollows(steps, i);
    PaymentTheorems.DepositedExactlyOnce(steps, i);
  }

  /**
   * In every run, a charge or failure write leaves a deposit's money in the
   * ledger and takes its SUCCEEDED away if and only if the deposit stood until
   * then and the write's own guard, which does not ask about that, lets it by.
   */
  lemma {:induction false} OverwriteUnsettlesIff(steps: seq<Step>, step: Step, i: nat)
    requires i < |Run(steps).intents| && Run(steps).intents[i].target.TopUp? && Overwrites(step, i)
    ensures Unsettles(Run(steps), step, i) <==> DepositStands(steps, i) && WriteAccepted(Run(steps), step, i)
    ensures Unsettles(Run(steps), step, i) ==> HasKey(Run(steps + [step]).ledger, SettlementKey(i))
  {
    SucceededIffNotOverwritten(steps, i);
    OverwriteUnsettles(Run(steps), step, i);
    RunStep(steps, step);
    KeepingPayments.BooksKept(steps);
    assert IntentSane(Run(steps), i);
  }

  // ----- Provider references ----------------------------------------------

  ghost predicate ReferencesApart(intents: seq<Intent>) {
    forall i, j :: 0 <= i < j < |intents| && intents[i].reference.Some? ==> intents[i].reference != intents[j].reference
  }

  lemma WriteKeepsReferences(db: Db, step: Step)
    requires ReferencesApart(db.intents) && Attempt(db, step).Ok? && (step.Deposit? || step.Charge? || step.FailureWrite?)
    ensures ReferencesApart(Attempt(db, step).value.intents)
  {
  }

  lemma StepKeepsReferences(db: Db, step: Step)
    requires RowsSane(db) && ReferencesApart(db.intents) && Attempt(db, step).Ok? && RowsSane(Attempt(db, step).value)
    ensures ReferencesApart(Attempt(db, step).value.intents)
  {
    if step.Deposit? || step.Charge? || step.FailureWrite? {
      WriteKeepsReferences(db, step);
    } else {
      OthersAlone(db, step);
      var intents' := Attempt(db, step).value.intents;
      forall i | 0 <= i < |intents'|
        ensures intents'[i].reference == if i < |db.intents| then db.intents[i].reference else None
      {
        assert IntentSane(Attempt(db, step).value, i);
        assert i < |db.intents| ==> IntentSane(db, i);
      }
    }
  }

  /** In every run a provider reference names at most one intent. */
  lemma {:induction false} OneIntentPerReference(steps: seq<Step>)
    ensures ReferencesApart(Run(steps).intents)
    decreases |steps|
  {
    if steps != [] {
      var before, step := steps[..|steps| - 1], steps[|steps| - 1];
      OneIntentPerReference(before);
      KeepingPayments.BooksKept(before);
      KeepingPayments.BooksKept(steps);
      if Attempt(Run(before), step).Ok? {
        StepKeepsReferences(Run(before), step);
      }
    }
  }
}
