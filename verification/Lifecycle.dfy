/**
 * Bills over whole runs: which postings a bill ends up with, and how its
 * payment intent follows. A verdict gives the provider's final word on every
 * bill, and a run is stable when no answer contradicts it; with no verdict
 * nothing is assumed of the provider.
 */
module Lifecycle {
  import opened Prelude
  import opened Ledger
  import opened Tables
  import opened Books
  import Bills
  import Keeping
  import KeepingPayments
  import Machine
  import Payments

  type Verdict = Option<nat -> bool>

  predicate MaySucceed(verdict: Verdict, b: nat) { verdict.Some? ==> verdict.value(b) }
  predicate MayFail(verdict: Verdict, b: nat) { verdict.Some? ==> !verdict.value(b) }

  predicate Stable(verdict: Verdict, step: Machine.Step) {
    step.Answered? ==>
      && (step.answer == Bills.SaysSuccessful ==> MaySucceed(verdict, step.id))
      && (step.answer == Bills.SaysFailed ==> MayFail(verdict, step.id))
  }

  // ----- The invariant ----------------------------------------------------

  function StatusOfIntent(b: Bill): IntentStatus {
    if b.settled.Some? then Succeeded else if b.released.Some? then FailedIntent else Processing
  }

  ghost predicate ReservedBy(l: Book, b: nat, row: Bill) {
    && row.reserve < |l| && l[row.reserve].entries == ReserveEntries(row)
    && (row.intent.None? ==> l[row.reserve].key == BillReserve(b))
    && (row.intent.Some? ==> l[row.reserve].key.IntentKey? && l[row.reserve].key.intent == row.intent.value)
  }

  /** An intent for a bill that has left REQUIRES_CONFIRMATION. */
  predicate PaidBillIntent(db: Db, i: nat) {
    i < |db.intents| && db.intents[i].target.BillFor? && db.intents[i].status != RequiresConfirmation
  }

  ghost predicate BillOk(db: Db, verdict: Verdict, b: nat)
    requires b < |db.bills|
  {
    var row := db.bills[b];
    && (row.settled.Some? ==> MaySucceed(verdict, b)) && (row.released.Some? ==> MayFail(verdict, b))
    && ReservedBy(db.ledger, b, row)
    && (row.intent.Some? ==>
          && PaidBillIntent(db, row.intent.value)
          && (verdict.Some? ==> db.intents[row.intent.value].status == StatusOfIntent(row)))
  }

  ghost predicate BillOfIntent(db: Db, i: nat, b: nat) {
    b < |db.bills| && db.bills[b].intent == Some(i)
  }

  ghost predicate PaidIntentsHaveBills(db: Db) {
    forall i: nat :: PaidBillIntent(db, i) ==> exists b: nat :: BillOfIntent(db, i, b)
  }

  ghost predicate OneBillPerIntent(bills: seq<Bill>) {
    forall b, c :: 0 <= b < c < |bills| && bills[b].intent.Some? ==> bills[b].intent != bills[c].intent
  }

  ghost predicate BillsOk(db: Db, verdict: Verdict) {
    && (forall b :: 0 <= b < |db.bills| ==> BillOk(db, verdict, b))
    && OneBillPerIntent(db.bills) && PaidIntentsHaveBills(db)
  }

  // ----- Steps that leave bills and their intents alone -------------------

  ghost predicate BillsUntouched(db: Db, db': Db) {
    && db'.bills == db.bills && db'.handlers == db.handlers && db.ledger <= db'.ledger
    && |db.intents| <= |db'.intents|
    && (forall i :: 0 <= i < |db.intents| ==> db'.intents[i].target == db.intents[i].target)
    && (forall i :: 0 <= i < |db.intents| && db.intents[i].target.BillFor? ==>
          db'.intents[i].status == db.intents[i].status)
    && (forall i :: |db.intents| <= i < |db'.intents| ==> db'.intents[i].status == RequiresConfirmation)
  }

  lemma UntouchedKeeps(db: Db, db': Db, verdict: Verdict)
    requires BillsOk(db, verdict) && BillsUntouched(db, db')
    ensures BillsOk(db', verdict)
  {
    forall b | 0 <= b < |db'.bills| ensures BillOk(db', verdict, b) {
      assert BillOk(db, verdict, b);
    }
    forall i: nat | PaidBillIntent(db', i) ensures exists b: nat :: BillOfIntent(db', i, b) {
      assert PaidBillIntent(db, i);
      var b: nat :| BillOfIntent(db, i, b);
      assert BillOfIntent(db', i, b);
    }
  }

  /** The rows of other intents stay put. */
  ghost predicate OnlyIntent(intents: seq<Intent>, intents': seq<Intent>, intent: Option<nat>) {
    && |intents'| == |intents|
    && (forall i :: 0 <= i < |intents| ==> intents'[i].target == intents[i].target)
    && (forall i :: 0 <= i < |intents| && intent != Some(i) ==> intents'[i] == intents[i])
  }

  /** Rewriting one bill, with its intent synced to match. */
  lemma BillRewriteKeeps(db: Db, db': Db, verdict: Verdict, b: nat, row: Bill)
    requires BillsOk(db, verdict) && b < |db.bills| && db.ledger <= db'.ledger
    requires db'.bills == db.bills[b := row] && row.intent == db.bills[b].intent
    requires OnlyIntent(db.intents, db'.intents, row.intent) && BillOk(db', verdict, b)
    ensures BillsOk(db', verdict)
  {
    forall c | 0 <= c < |db'.bills| ensures BillOk(db', verdict, c) {
      assert BillOk(db, verdict, c);
      if c != b && db.bills[c].intent.Some? {
        assert db.bills[c].intent != row.intent;
      }
    }
    forall i: nat | PaidBillIntent(db', i) ensures exists c: nat :: BillOfIntent(db', i, c) {
      if row.intent == Some(i) {
        assert BillOfIntent(db', i, b);
      } else {
        assert PaidBillIntent(db, i);
        var c: nat :| BillOfIntent(db, i, c);
        assert BillOfIntent(db', i, c);
      }
    }
  }

  /** Adding one bill, for nobody's intent or for one that had not been paid. */
  lemma BillAppendKeeps(db: Db, db': Db, verdict: Verdict, row: Bill)
    requires BillsOk(db, verdict) && db.ledger <= db'.ledger && db'.bills == db.bills + [row]
    requires OnlyIntent(db.intents, db'.intents, row.intent) && BillOk(db', verdict, |db.bills|)
    requires row.intent.Some? ==>
               row.intent.value < |db.intents| && db.intents[row.intent.value].status == RequiresConfirmation
    ensures BillsOk(db', verdict)
  {
    forall c | 0 <= c < |db'.bills|
      ensures BillOk(db', verdict, c)
      ensures c < |db.bills| && row.intent.Some? ==> db.bills[c].intent != row.intent
    {
      if c < |db.bills| {
        assert BillOk(db, verdict, c);
      }
    }
    forall i: nat | PaidBillIntent(db', i) ensures exists c: nat :: BillOfIntent(db', i, c) {
      if row.intent == Some(i) {
        assert BillOfIntent(db', i, |db.bills|);
      } else {
        assert PaidBillIntent(db, i);
        var c: nat :| BillOfIntent(db, i, c);
        assert BillOfIntent(db', i, c);
      }
    }
  }

  lemma QuietRewriteKeeps(db: Db, verdict: Verdict, b: nat, row: Bill)
    requires BillsOk(db, verdict) && b < |db.bills|
    requires row == db.bills[b].(status := row.status, reconciliation := row.reconciliation)
    ensures BillsOk(db.(bills := db.bills[b := row]), verdict)
  {
    assert BillOk(db, verdict, b);
    assert ReserveEntries(row) == ReserveEntries(db.bills[b]);
    BillRewriteKeeps(db, db.(bills := db.bills[b := row]), verdict, b, row);
  }

  // ----- Answers ----------------------------------------------------------

  lemma SettleLifecycle(db: Db, verdict: Verdict, b: nat)
    requires BooksOk(db) && BillsOk(db, verdict) && b < |db.bills| && Bills.Settle(db, b).Ok? && MaySucceed(verdict, b)
    ensures BillsOk(Bills.Settle(db, b).value, verdict)
  {
    assert BillSane(db, b) && BillOk(db, verdict, b);
    FreshKey(db, BillSettle(b));
    Keeping.SettleShape(db, b);
    var db', row := Bills.Settle(db, b).value, Keeping.Settled(db, b);
    assert ReserveEntries(row) == ReserveEntries(db.bills[b]);
    assert BillOk(db', verdict, b);
    BillRewriteKeeps(db, db', verdict, b, row);
  }

  /** Recording a release leaves the bill well recorded, whatever the ledger grew by. */
  lemma ReleasedLifecycle(db: Db, db': Db, verdict: Verdict, b: nat, id: nat)
    requires BillsOk(db, verdict) && b < |db.bills| && MayFail(verdict, b) && db.ledger <= db'.ledger
    requires db'.bills == db.bills[b := Keeping.Released(db, b, id)]
    requires db'.intents == Bills.SyncIntent(db.intents, db.bills[b].intent, FailedIntent)
    ensures BillsOk(db', verdict)
  {
    var row := Keeping.Released(db, b, id);
    assert BillOk(db, verdict, b);
    assert ReserveEntries(row) == ReserveEntries(db.bills[b]);
    assert BillOk(db', verdict, b);
    BillRewriteKeeps(db, db', verdict, b, row);
  }

  lemma ReleaseLifecycle(db: Db, verdict: Verdict, b: nat)
    requires BillsOk(db, verdict) && b < |db.bills| && Bills.Release(db, b).Ok? && MayFail(verdict, b)
    ensures BillsOk(Bills.Release(db, b).value, verdict)
  {
    Keeping.ReleaseShape(db, b);
    var db' := Bills.Release(db, b).value;
    var id := db'.bills[b].released.value;
    assert db'.bills == db.bills[b := Keeping.Released(db, b, id)];
    PostPrefix(db.ledger, BillRelease(b), ReleaseEntries(db.bills[b]));
    ReleasedLifecycle(db, db', verdict, b, id);
  }

  lemma PostPrefix(l: Book, key: Key, entries: seq<Entry>)
    requires Post(l, key, entries).Ok?
    ensures l <= Post(l, key, entries).value.ledger
  {
  }

  lemma ReversalLifecycle(db: Db, verdict: Verdict, b: nat)
    requires BooksOk(db) && BillsOk(db, verdict) && b < |db.bills| && Bills.ApplyReversal(db, b).Ok?
    ensures BillsOk(Bills.ApplyReversal(db, b).value, verdict)
  {
    assert BillSane(db, b) && BillOk(db, verdict, b);
    if db.bills[b].status != BillReversed {
      FreshKey(db, BillReversal(b));
      Keeping.ReversalShape(db, b);
      var db', row := Bills.ApplyReversal(db, b).value, Keeping.Reversed(db, b);
      assert ReserveEntries(row) == ReserveEntries(db.bills[b]);
      BillRewriteKeeps(db, db', verdict, b, row);
    }
  }

  lemma UncertainLifecycle(db: Db, verdict: Verdict, b: nat)
    requires BillsOk(db, verdict) && Bills.MarkUncertain(db, b).Ok?
    ensures BillsOk(Bills.MarkUncertain(db, b).value, verdict)
  {
    assert BillOk(db, verdict, b);
    QuietRewriteKeeps(db, verdict, b, Bills.MarkUncertain(db, b).value.bills[b]);
  }

  lemma AnswerLifecycle(db: Db, verdict: Verdict, b: nat, answer: Bills.Answer)
    requires BooksOk(db) && BillsOk(db, verdict) && Bills.ApplyAnswer(db, b, answer).Ok?
    requires Stable(verdict, Machine.Answered(b, answer))
    ensures BillsOk(Bills.ApplyAnswer(db, b, answer).value, verdict)
  {
    match answer
    case SaysReversed => ReversalLifecycle(db, verdict, b);
    case SaysPending => UncertainLifecycle(db, verdict, b);
    case SaysUnknown => UncertainLifecycle(db, verdict, b);
    case SaysFailed => if Bills.AwaitsVerdict(db.bills[b]) { ReleaseLifecycle(db, verdict, b); }
    case SaysSuccessful => if Bills.AwaitsVerdict(db.bills[b]) { SettleLifecycle(db, verdict, b); }
  }

  /** What requests remember is no part of a bill's life. */
  lemma HandlersAside(db: Db, verdict: Verdict, handlers: seq<Handler>)
    requires BillsOk(db, verdict)
    ensures BillsOk(db.(handlers := handlers), verdict)
  {
    var db' := db.(handlers := handlers);
    forall b | 0 <= b < |db'.bills| ensures BillOk(db', verdict, b) {
      assert BillOk(db, verdict, b);
    }
    forall i: nat | PaidBillIntent(db', i) ensures exists b: nat :: BillOfIntent(db', i, b) {
      assert PaidBillIntent(db, i);
      var b: nat :| BillOfIntent(db, i, b);
      assert BillOfIntent(db', i, b);
    }
  }

  lemma AfterCommitLifecycle(db: Db, verdict: Verdict, h: nat, hasReference: bool)
    requires BillsOk(db, verdict) && Bills.AfterCommit(db, h, hasReference).Ok?
    ensures BillsOk(Bills.AfterCommit(db, h, hasReference).value, verdict)
  {
    var db' := Bills.AfterCommit(db, h, hasReference).value;
    Keeping.AfterCommitShape(db, h, hasReference);
    if db' == db.(handlers := db'.handlers) {
      HandlersAside(db, verdict, db'.handlers);
    } else {
      var b: nat :| b < |db.bills| && db' == Bills.MarkUncertain(db, b).value.(handlers := db'.handlers);
      UncertainLifecycle(db, verdict, b);
      HandlersAside(Bills.MarkUncertain(db, b).value, verdict, db'.handlers);
    }
  }

  // ----- New bills --------------------------------------------------------

  lemma ReservedLifecycle(db: Db, verdict: Verdict, row: Bill)
    requires BillsOk(db, verdict)
    requires row == Bills.NewBill(row.user, row.amount, row.fee, row.caller, row.hash, None, |db.ledger|)
    ensures BillsOk(db.(ledger := db.ledger + [NewTxn(BillReserve(|db.bills|), ReserveEntries(row))],
                        bills := db.bills + [row]), verdict)
  {
    var db' := db.(ledger := db.ledger + [NewTxn(BillReserve(|db.bills|), ReserveEntries(row))],
                   bills := db.bills + [row]);
    assert BillOk(db', verdict, |db.bills|);
    BillAppendKeeps(db, db', verdict, row);
  }

  lemma CreateLifecycle(db: Db, verdict: Verdict, user: nat, r: Bills.BillRequest)
    requires BooksOk(db) && BillsOk(db, verdict) && Bills.CreateBill(db, user, r).Ok?
    ensures BillsOk(Bills.CreateBill(db, user, r).value, verdict)
  {
    if Bills.FindBill(db.bills, user, r.caller).None? {
      FreshKey(db, BillReserve(|db.bills|));
      Keeping.CreateBillShape(db, user, r);
      ReservedLifecycle(db, verdict,
        Bills.NewBill(user, r.amount, r.fee.value, r.caller, Some(r.hash), None, |db.ledger|));
    }
  }

  lemma ChargedLifecycle(db: Db, verdict: Verdict, i: nat, caller: nat)
    requires BillsOk(db, verdict) && i < |db.intents| && db.intents[i].target.BillFor?
    requires db.intents[i].status == RequiresConfirmation
    ensures var bill := KeepingPayments.BillOfIntent(db, i);
            BillsOk(KeepingPayments.WithCharge(db, i, caller, ReserveEntries(bill)).(
              bills := db.bills + [bill],
              intents := db.intents[i := Payments.MarkPaid(db.intents[i], |db.ledger|)]), verdict)
  {
    var bill := KeepingPayments.BillOfIntent(db, i);
    var db' := KeepingPayments.WithCharge(db, i, caller, ReserveEntries(bill)).(
      bills := db.bills + [bill], intents := db.intents[i := Payments.MarkPaid(db.intents[i], |db.ledger|)]);
    assert BillOk(db', verdict, |db.bills|);
    BillAppendKeeps(db, db', verdict, bill);
  }

  lemma ChargeBillLifecycle(db: Db, verdict: Verdict, i: nat, caller: nat, quote: Payments.Quote)
    requires BooksOk(db) && BillsOk(db, verdict) && i < |db.intents| && db.intents[i].target.BillFor?
    requires db.intents[i].status == RequiresConfirmation
    requires Payments.SettleFromWallet(db, db.intents[i].user, i, caller, quote).Ok?
    ensures BillsOk(Payments.SettleFromWallet(db, db.intents[i].user, i, caller, quote).value, verdict)
  {
    assert IntentSane(db, i);
    FreshKey(db, IntentKey(i, caller));
    KeepingPayments.ChargeBillShape(db, i, caller, quote);
    ChargedLifecycle(db, verdict, i, caller);
  }

  // ----- Every step -------------------------------------------------------

  lemma OtherPaymentUntouched(db: Db, user: nat, i: nat, caller: nat, quote: Payments.Quote)
    requires Payments.SettleFromWallet(db, user, i, caller, quote).Ok? && !db.intents[i].target.BillFor?
    ensures BillsUntouched(db, Payments.SettleFromWallet(db, user, i, caller, quote).value)
  {
  }

  lemma PayFromWalletLifecycle(db: Db, verdict: Verdict, user: nat, i: nat, caller: nat, quote: Payments.Quote)
    requires BooksOk(db) && BillsOk(db, verdict)
    requires Payments.SettleFromWallet(db, user, i, caller, quote).Ok?
    ensures BillsOk(Payments.SettleFromWallet(db, user, i, caller, quote).value, verdict)
  {
    if db.intents[i].status == RequiresConfirmation {
      if db.intents[i].target.BillFor? {
        ChargeBillLifecycle(db, verdict, i, caller, quote);
      } else {
        OtherPaymentUntouched(db, user, i, caller, quote);
        UntouchedKeeps(db, Payments.SettleFromWallet(db, user, i, caller, quote).value, verdict);
      }
    }
  }

  predicate TouchesBills(step: Machine.Step) {
    step.PayFromWallet? || step.ReserveBill? || step.AfterCommit? || step.Answered? || step.CallFailed?
  }

  lemma IntentStepsUntouched(db: Db, step: Machine.Step)
    requires RowsSane(db) && Machine.Attempt(db, step).Ok?
    requires step.Charge? || step.Deposit? || step.FailureWrite? || step.InsertIntent?
    ensures BillsUntouched(db, Machine.Attempt(db, step).value)
  {
    if !step.InsertIntent? {
      DepositIntent(db, step);
    }
  }

  lemma DepositIntent(db: Db, step: Machine.Step)
    requires RowsSane(db) && Machine.Attempt(db, step).Ok? && (step.Charge? || step.Deposit? || step.FailureWrite?)
    ensures step.intent < |db.intents| && db.intents[step.intent].target.TopUp?
  {
    assert IntentSane(db, step.intent);
  }

  lemma SamePlacesUntouched(db: Db, db': Db)
    requires db'.bills == db.bills && db'.intents == db.intents && db.ledger <= db'.ledger && db'.handlers == db.handlers
    ensures BillsUntouched(db, db')
  {
  }

  lemma MovementsUntouched(db: Db, step: Machine.Step)
    requires Machine.Attempt(db, step).Ok? && (step.SendMoney? || step.WithdrawMoney? || step.CancelEnrolment?)
    ensures BillsUntouched(db, Machine.Attempt(db, step).value)
  {
    SamePlacesUntouched(db, Machine.Attempt(db, step).value);
  }

  lemma AjoUntouched(db: Db, step: Machine.Step)
    requires Machine.Attempt(db, step).Ok? && (step.Contribute? || step.PayOut?)
    ensures BillsUntouched(db, Machine.Attempt(db, step).value)
  {
    SamePlacesUntouched(db, Machine.Attempt(db, step).value);
  }

  lemma RestUntouched(db: Db, step: Machine.Step)
    requires Machine.Attempt(db, step).Ok? && (KeepingPayments.OffTheBooks(step) || step.Enrol?)
    ensures BillsUntouched(db, Machine.Attempt(db, step).value)
  {
    SamePlacesUntouched(db, Machine.Attempt(db, step).value);
  }

  lemma OtherStepsUntouched(db: Db, step: Machine.Step)
    requires RowsSane(db) && Machine.Attempt(db, step).Ok? && !TouchesBills(step)
    ensures BillsUntouched(db, Machine.Attempt(db, step).value)
  {
    if KeepingPayments.OffTheBooks(step) || step.Enrol? {
      RestUntouched(db, step);
    } else if step.SendMoney? || step.WithdrawMoney? || step.CancelEnrolment? {
      MovementsUntouched(db, step);
    } else if step.Contribute? || step.PayOut? {
      AjoUntouched(db, step);
    } else {
      IntentStepsUntouched(db, step);
    }
  }

  lemma AttemptLifecycle(db: Db, verdict: Verdict, step: Machine.Step)
    requires BooksOk(db) && BillsOk(db, verdict) && Stable(verdict, step) && Machine.Attempt(db, step).Ok?
    ensures BillsOk(Machine.Attempt(db, step).value, verdict)
  {
    if !TouchesBills(step) {
      OtherStepsUntouched(db, step);
      UntouchedKeeps(db, Machine.Attempt(db, step).value, verdict);
    } else {
      match step
      case PayFromWallet(u, i, caller, quote) =>
        PayFromWalletLifecycle(db, verdict, u, i, caller, quote);
        HandlersAside(Payments.SettleFromWallet(db, u, i, caller, quote).value, verdict,
                      Machine.Attempt(db, step).value.handlers);
      case ReserveBill(u, r) =>
        CreateLifecycle(db, verdict, u, r);
        HandlersAside(Bills.CreateBill(db, u, r).value, verdict, Machine.Attempt(db, step).value.handlers);
      case AfterCommit(h, hasReference) => AfterCommitLifecycle(db, verdict, h, hasReference);
      case Answered(b, answer) => AnswerLifecycle(db, verdict, b, answer);
      case CallFailed(b) => UncertainLifecycle(db, verdict, b);
    }
  }

  ghost predicate StableRun(verdict: Verdict, steps: seq<Machine.Step>) {
    forall k :: 0 <= k < |steps| ==> Stable(verdict, steps[k])
  }

  lemma {:induction false} LifecycleKept(steps: seq<Machine.Step>, verdict: Verdict)
    requires StableRun(verdict, steps)
    ensures BillsOk(Machine.Run(steps), verdict)
    decreases |steps|
  {
    if steps != [] {
      var last := |steps| - 1;
      var before := Machine.Run(steps[..last]);
      LifecycleKept(steps[..last], verdict);
      KeepingPayments.BooksKept(steps[..last]);
      if Machine.Attempt(before, steps[last]).Ok? {
        AttemptLifecycle(before, verdict, steps[last]);
      }
    }
  }
}
