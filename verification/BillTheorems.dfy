/** What the lifecycle of bills guarantees, and exactly when a changed verdict breaks it. */
module BillTheorems {
  import opened Prelude
  import opened Ledger
  import opened Tables
  import opened Books
  import opened Lifecycle
  import Bills
  import Keeping
  import KeepingPayments
  import Machine
  import Payments

  // ----- The postings of one bill -----------------------------------------

  datatype Kind = Settling | Releasing | Reversing

  function KeyFor(kind: Kind, b: nat): Key {
    match kind
    case Settling => BillSettle(b)
    case Releasing => BillRelease(b)
    case Reversing => BillReversal(b)
  }

  /** Which postings follow a bill's reserve in the ledger. */
  ghost function PostedKinds(l: Book, b: nat): set<Kind> {
    set kind: Kind | HasKey(l, KeyFor(kind, b))
  }

  ghost predicate OneEnding(kinds: set<Kind>) {
    || kinds == {}
    || kinds == {Settling}
    || kinds == {Releasing}
    || kinds == {Settling, Reversing}
  }

  /** The posting-id columns and the ledger's keys say the same thing. */
  lemma ColumnsAreKeys(db: Db, b: nat)
    requires BooksOk(db) && b < |db.bills|
    ensures HasKey(db.ledger, BillSettle(b)) <==> db.bills[b].settled.Some?
    ensures HasKey(db.ledger, BillRelease(b)) <==> db.bills[b].released.Some?
    ensures HasKey(db.ledger, BillReversal(b)) <==> db.bills[b].reversed.Some?
  {
    assert BillSane(db, b);
    if HasKey(db.ledger, BillSettle(b)) { assert Evidence(db, BillSettle(b)); }
    if HasKey(db.ledger, BillRelease(b)) { assert Evidence(db, BillRelease(b)); }
    if HasKey(db.ledger, BillReversal(b)) { assert Evidence(db, BillReversal(b)); }
  }

  predicate BothVerdicts(row: Bill) { row.settled.Some? && row.released.Some? }

  lemma EndingsByKind(kinds: set<Kind>)
    requires Reversing in kinds ==> Settling in kinds
    ensures OneEnding(kinds) <==> !(Settling in kinds && Releasing in kinds)
  {
    if !(Settling in kinds && Releasing in kinds) {
      var all := (if Settling in kinds then {Settling} else {}) + (if Releasing in kinds then {Releasing} else {})
        + (if Reversing in kinds then {Reversing} else {});
      assert kinds == all by {
        forall kind ensures kind in kinds <==> kind in all {
          match kind
          case Settling =>
          case Releasing =>
          case Reversing =>
        }
      }
    }
  }

  lemma EndingsFromColumns(db: Db, b: nat)
    requires BooksOk(db) && b < |db.bills|
    ensures OneEnding(PostedKinds(db.ledger, b)) <==> !BothVerdicts(db.bills[b])
  {
    ColumnsAreKeys(db, b);
    ReversedWasSettled(db, b);
    var kinds := PostedKinds(db.ledger, b);
    assert Settling in kinds <==> HasKey(db.ledger, KeyFor(Settling, b));
    assert Releasing in kinds <==> HasKey(db.ledger, KeyFor(Releasing, b));
    assert Reversing in kinds <==> HasKey(db.ledger, KeyFor(Reversing, b));
    EndingsByKind(kinds);
  }

  lemma ReversedWasSettled(db: Db, b: nat)
    requires RowsSane(db) && b < |db.bills|
    ensures db.bills[b].reversed.Some? ==> db.bills[b].settled.Some?
  {
    assert BillSane(db, b);
  }

  // ----- When a second verdict lands --------------------------------------

  /**
   * The answer that does the damage: a verdict accepted for a bill that still
   * awaits one although the opposite verdict has been posted. A caller can
   * check it on the bill's row before applying the answer.
   */
  predicate Flips(db: Db, step: Machine.Step, b: nat) {
    && step.Answered? && step.id == b && b < |db.bills| && Bills.AwaitsVerdict(db.bills[b])
    && ((step.answer == Bills.SaysSuccessful && db.bills[b].released.Some?)
        || (step.answer == Bills.SaysFailed && db.bills[b].settled.Some?))
  }

  lemma SettleBalanced(b: Bill)
    requires b.amount > 0 && b.fee >= 0
    ensures Balanced(SettleEntries(b))
  {
    var debit, credit, fee := Dr(Reserved(b.user), TotalDebit(b)), Cr(ProviderPayable, b.amount), Cr(FeeRevenue, b.fee);
    SumPair(debit, credit, DebitOf());
    SumPair(debit, credit, CreditOf());
    SumAppend([debit, credit], fee, DebitOf());
    SumAppend([debit, credit], fee, CreditOf());
    if b.fee == 0 {
      assert SettleEntries(b) == [debit, credit];
    }
  }

  ghost predicate VerdictsKept(db: Db, db': Db) {
    && |db.bills| <= |db'.bills|
    && (forall b :: 0 <= b < |db.bills| ==>
          db'.bills[b].settled.Some? == db.bills[b].settled.Some?
          && db'.bills[b].released.Some? == db.bills[b].released.Some?)
    && (forall b :: |db.bills| <= b < |db'.bills| ==> !BothVerdicts(db'.bills[b]))
  }

  lemma PaymentDecidesNothing(db: Db, user: nat, i: nat, caller: nat, quote: Payments.Quote)
    requires Payments.SettleFromWallet(db, user, i, caller, quote).Ok?
    ensures VerdictsKept(db, Payments.SettleFromWallet(db, user, i, caller, quote).value)
  {
  }

  lemma ReserveDecidesNothing(db: Db, user: nat, r: Bills.BillRequest)
    requires Bills.CreateBill(db, user, r).Ok?
    ensures VerdictsKept(db, Bills.CreateBill(db, user, r).value)
  {
  }

  lemma BillStepsDecideNothing(db: Db, step: Machine.Step)
    requires Machine.Attempt(db, step).Ok? && (step.ReserveBill? || step.AfterCommit? || step.CallFailed?)
    ensures VerdictsKept(db, Machine.Attempt(db, step).value)
  {
    if step.ReserveBill? {
      ReserveDecidesNothing(db, step.payer, step.bill);
    } else if step.AfterCommit? {
      Keeping.AfterCommitShape(db, step.handler, step.hasReference);
    }
  }

  lemma OnlyAnswersDecide(db: Db, step: Machine.Step)
    requires RowsSane(db) && Machine.Attempt(db, step).Ok? && !step.Answered?
    ensures VerdictsKept(db, Machine.Attempt(db, step).value)
  {
    if !TouchesBills(step) {
      OtherStepsUntouched(db, step);
    } else if step.PayFromWallet? {
      PaymentDecidesNothing(db, step.payer, step.intent, step.caller, step.quote);
    } else {
      BillStepsDecideNothing(db, step);
    }
  }

  lemma AnswerDecides(db: Db, b: nat, answer: Bills.Answer, c: nat)
    requires BooksOk(db) && b < |db.bills| && c < |db.bills| && Bills.ApplyAnswer(db, b, answer).Ok?
    ensures var db' := Bills.ApplyAnswer(db, b, answer).value;
            && |db'.bills| == |db.bills|
            && (BothVerdicts(db'.bills[c]) <==>
                  BothVerdicts(db.bills[c]) || Flips(db, Machine.Answered(b, answer), c))
  {
    assert BillSane(db, b);
  }

  /** A verdict that flips is accepted: nothing in the code refuses it. */
  lemma FlipIsAccepted(db: Db, b: nat, answer: Bills.Answer)
    requires BooksOk(db) && Flips(db, Machine.Answered(b, answer), b) && !BothVerdicts(db.bills[b])
    ensures Bills.ApplyAnswer(db, b, answer).Ok?
    ensures BothVerdicts(Bills.ApplyAnswer(db, b, answer).value.bills[b])
  {
    assert BillSane(db, b);
    SettleBalanced(db.bills[b]);
    PairBalanced(Reserved(db.bills[b].user), Available(db.bills[b].user), TotalDebit(db.bills[b]));
  }

  lemma BothVerdictsStep(db: Db, step: Machine.Step, b: nat)
    requires BooksOk(db) && b < |Machine.Next(db, step).bills|
    ensures |db.bills| <= |Machine.Next(db, step).bills|
    ensures BothVerdicts(Machine.Next(db, step).bills[b])
       <==> b < |db.bills| && (BothVerdicts(db.bills[b]) || Flips(db, step, b))
  {
    if Machine.Attempt(db, step).Ok? {
      if step.Answered? {
        AnswerDecides(db, step.id, step.answer, b);
      } else {
        OnlyAnswersDecide(db, step);
      }
    } else if Flips(db, step, b) && !BothVerdicts(db.bills[b]) {
      FlipIsAccepted(db, b, step.answer);
    }
  }

  function FlipsAfter(b: nat): (seq<Machine.Step>, Machine.Step) -> bool {
    (before: seq<Machine.Step>, step: Machine.Step) => Flips(Machine.Run(before), step, b)
  }

  /** Some step of the run accepted a verdict on b against one already posted. */
  ghost predicate EverFlips(steps: seq<Machine.Step>, b: nat) { Ever(steps, FlipsAfter(b)) }

  lemma {:induction false} BothVerdictsIffFlipped(steps: seq<Machine.Step>, b: nat)
    requires b < |Machine.Run(steps).bills|
    ensures BothVerdicts(Machine.Run(steps).bills[b]) <==> EverFlips(steps, b)
    decreases |steps|
  {
    if steps != [] {
      var last := |steps| - 1;
      var before := Machine.Run(steps[..last]);
      KeepingPayments.BooksKept(steps[..last]);
      BothVerdictsStep(before, steps[last], b);
      EverSplit(steps, FlipsAfter(b));
      if b < |before.bills| {
        BothVerdictsIffFlipped(steps[..last], b);
      } else {
        NoFlipBeforeItExists(steps[..last], b);
      }
    }
  }

  lemma {:induction false} NoFlipBeforeItExists(steps: seq<Machine.Step>, b: nat)
    requires b >= |Machine.Run(steps).bills|
    ensures !EverFlips(steps, b)
    decreases |steps|
  {
    if steps != [] {
      var last := |steps| - 1;
      var before := Machine.Run(steps[..last]);
      KeepingPayments.BooksKept(steps[..last]);
      BillsGrow(before, steps[last]);
      NoFlipBeforeItExists(steps[..last], b);
      EverSplit(steps, FlipsAfter(b));
    }
  }

  lemma BillsGrow(db: Db, step: Machine.Step)
    requires BooksOk(db)
    ensures |db.bills| <= |Machine.Next(db, step).bills|
  {
    if Machine.Attempt(db, step).Ok? {
      if step.Answered? {
        AnswerDecides(db, step.id, step.answer, step.id);
      } else {
        OnlyAnswersDecide(db, step);
      }
    }
  }

  /**
   * In every run, a bill's postings after its reserve are exactly one of
   * none, a settle, a release, or a settle and its reversal, if and only if no
   * step of the run accepted a verdict against one already posted.
   */
  lemma {:induction false} OneEndingIffNoFlip(steps: seq<Machine.Step>, b: nat)
    requires b < |Machine.Run(steps).bills|
    ensures OneEnding(PostedKinds(Machine.Run(steps).ledger, b)) <==> !EverFlips(steps, b)
  {
    KeepingPayments.BooksKept(steps);
    EndingsFromColumns(Machine.Run(steps), b);
    BothVerdictsIffFlipped(steps, b);
  }

  /** A provider that never contradicts itself gives every bill one ending, under any interleaving. */
  lemma {:induction false} StableProviderOneEnding(steps: seq<Machine.Step>, verdict: Verdict, b: nat)
    requires verdict.Some? && StableRun(verdict, steps) && b < |Machine.Run(steps).bills|
    ensures OneEnding(PostedKinds(Machine.Run(steps).ledger, b))
    ensures var db := Machine.Run(steps);
            && db.bills[b].reserve < |db.ledger|
            && db.ledger[db.bills[b].reserve].entries == ReserveEntries(db.bills[b])
  {
    LifecycleKept(steps, verdict);
    KeepingPayments.BooksKept(steps);
    assert BillOk(Machine.Run(steps), verdict, b);
    EndingsFromColumns(Machine.Run(steps), b);
  }

  // ----- What an ending leaves on the accounts ----------------------------

  lemma SettleEffect(b: Bill, a: Account)
    requires b.fee >= 0
    ensures Effect(SettleEntries(b), a) == (if a == ProviderPayable then b.amount else 0)
          + (if a == FeeRevenue then b.fee else 0) - (if a == Reserved(b.user) then TotalDebit(b) else 0)
  {
    var debit, credit, fee := Dr(Reserved(b.user), TotalDebit(b)), Cr(ProviderPayable, b.amount), Cr(FeeRevenue, b.fee);
    if b.fee == 0 {
      EffectPair(debit, credit, a);
      assert SettleEntries(b) == [debit, credit];
    } else {
      EffectTriple(debit, credit, fee, a);
      assert SettleEntries(b) == [debit, credit, fee];
    }
  }

  lemma ReversalEffect(b: Bill, a: Account)
    requires b.fee >= 0
    ensures Effect(ReversalEntries(b), a) == (if a == Available(b.user) then TotalDebit(b) else 0)
          - (if a == FeeRevenue then b.fee else 0) - (if a == ProviderPayable then b.amount else 0)
  {
    var debit, fee, credit := Dr(ProviderPayable, b.amount), Dr(FeeRevenue, b.fee), Cr(Available(b.user), TotalDebit(b));
    if b.fee == 0 {
      EffectPair(debit, credit, a);
      assert ReversalEntries(b) == [debit, credit];
    } else {
      EffectTriple(debit, fee, credit, a);
      assert ReversalEntries(b) == [debit, fee, credit];
    }
  }

  function BillHolds(b: Bill): int {
    if b.settled.None? && b.released.None? then TotalDebit(b) else 0
  }

  /**
   * A bill with one ending moves the payer's money into reserve while it is
   * held, to the provider and the fee account once settled, and is back to
   * nothing on every account once released, or settled and reversed.
   */
  lemma EndingEffects(b: Bill, a: Account)
    requires b.amount > 0 && b.fee >= 0 && !BothVerdicts(b) && (b.reversed.Some? ==> b.settled.Some?)
    ensures b.released.Some? || b.reversed.Some? ==> BillNet(a)(b) == 0
    ensures a == Reserved(b.user) ==> BillNet(a)(b) == BillHolds(b)
    ensures b.settled.Some? && b.reversed.None? ==>
              BillNet(a)(b) == (if a == ProviderPayable then b.amount else 0)
                + (if a == FeeRevenue then b.fee else 0) - (if a == Available(b.user) then TotalDebit(b) else 0)
  {
    PairEffect(Available(b.user), Reserved(b.user), TotalDebit(b), a);
    PairEffect(Reserved(b.user), Available(b.user), TotalDebit(b), a);
    SettleEffect(b, a);
    ReversalEffect(b, a);
  }

  /** Two verdicts spend one reserve twice: the payer is repaid and the provider paid as well. */
  lemma TwoVerdictsOverdrawReserve(b: Bill)
    requires b.amount > 0 && b.fee >= 0 && BothVerdicts(b)
    ensures BillNet(Reserved(b.user))(b) == -TotalDebit(b)
  {
    var a := Reserved(b.user);
    PairEffect(Available(b.user), Reserved(b.user), TotalDebit(b), a);
    PairEffect(Reserved(b.user), Available(b.user), TotalDebit(b), a);
    SettleEffect(b, a);
    ReversalEffect(b, a);
  }

  // ----- A bill and the intent that paid it -------------------------------

  /**
   * Under a stable provider a bill's intent says where the money is: SUCCEEDED
   * iff the settle is posted, FAILED iff the release is, PROCESSING iff the
   * reserve is and neither of them.
   */
  lemma {:induction false} IntentFollowsBill(steps: seq<Machine.Step>, verdict: Verdict, i: nat, b: nat)
    requires verdict.Some? && StableRun(verdict, steps) && BillOfIntent(Machine.Run(steps), i, b)
    ensures var db := Machine.Run(steps);
            && i < |db.intents| && db.intents[i].target.BillFor?
            && (db.intents[i].status == Succeeded <==> HasKey(db.ledger, BillSettle(b)))
            && (db.intents[i].status == FailedIntent <==> HasKey(db.ledger, BillRelease(b)))
            && (db.intents[i].status == Processing <==>
                  !HasKey(db.ledger, BillSettle(b)) && !HasKey(db.ledger, BillRelease(b)))
  {
    LifecycleKept(steps, verdict);
    KeepingPayments.BooksKept(steps);
    var db := Machine.Run(steps);
    assert BillOk(db, verdict, b);
    ColumnsAreKeys(db, b);
  }

  lemma SameIntentSameBill(bills: seq<Bill>, b: nat, c: nat)
    requires OneBillPerIntent(bills) && b < |bills| && c < |bills|
    ensures bills[b].intent.Some? && bills[b].intent == bills[c].intent ==> b == c
  {
  }

  /** An intent for a bill has a bill, and only one, exactly when it has left REQUIRES_CONFIRMATION. */
  lemma {:induction false} PaidIntentHasOneBill(steps: seq<Machine.Step>, i: nat)
    requires i < |Machine.Run(steps).intents| && Machine.Run(steps).intents[i].target.BillFor?
    ensures var db := Machine.Run(steps);
            && (db.intents[i].status != RequiresConfirmation <==> exists b: nat :: BillOfIntent(db, i, b))
            && forall b: nat, c: nat :: BillOfIntent(db, i, b) && BillOfIntent(db, i, c) ==> b == c
  {
    LifecycleKept(steps, None);
    var db := Machine.Run(steps);
    if db.intents[i].status != RequiresConfirmation {
      assert PaidBillIntent(db, i);
    }
    if exists b: nat :: BillOfIntent(db, i, b) {
      var b: nat :| BillOfIntent(db, i, b);
      assert BillOk(db, None, b);
    }
    forall b: nat, c: nat | BillOfIntent(db, i, b) && BillOfIntent(db, i, c) ensures b == c {
      SameIntentSameBill(db.bills, b, c);
    }
  }
}
