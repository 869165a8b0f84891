/**
 * What each answer of the bill provider does to a bill, and what a bill request
 * sets aside, for every state the books allow and so in every run.
 */
module BillOutcomes {
  import opened Prelude
  import opened Ledger
  import opened Tables
  import opened Books
  import opened Outcomes
  import opened Machine
  import Bills
  import BillTheorems
  import Keeping
  import KeepingPayments

  // ----- What there is to say of an answer --------------------------------

  predicate Undecided(b: Bill) { b.status == BillPending || b.status == ReconciliationRequired }

  /** The bill's intent takes the status if it was PROCESSING; every other intent stays as it was. */
  ghost predicate IntentTold(intents: seq<Intent>, intents': seq<Intent>, intent: Option<nat>, status: IntentStatus) {
    && |intents'| == |intents|
    && forall i :: 0 <= i < |intents| ==>
         intents'[i] == if intent == Some(i) && intents[i].status == Processing then intents[i].(status := status)
                        else intents[i]
  }

  /** Only the ledger, this bill and the intents may differ. */
  ghost predicate OnlyBill(db: Db, db': Db, b: nat) {
    && b < |db.bills| && |db'.bills| == |db.bills|
    && db' == db.(ledger := db'.ledger, bills := db'.bills, intents := db'.intents)
    && forall k :: 0 <= k < |db.bills| && k != b ==> db'.bills[k] == db.bills[k]
  }

  /** The provider is paid out of the reserve, the fee is earned, and the bill is SUCCESSFUL with its receipt. */
  ghost predicate PaidOut(db: Db, db': Db, b: nat) {
    && OnlyBill(db, db', b)
    && var row := db.bills[b];
       && Shifts(db.ledger, db'.ledger, BillSettle(b), Reserved(row.user), -(row.amount + row.fee),
                 ProviderPayable, row.amount, FeeRevenue, row.fee)
       && db'.bills[b] == row.(status := Successful, reconciliation := NotRequired,
                               settled := Some(|db.ledger|), receipt := true)
       && IntentTold(db.intents, db'.intents, row.intent, Succeeded)
  }

  /** Amount and fee go back from reserve to wallet, unless they already had, and the bill is FAILED. */
  ghost predicate GivenBack(db: Db, db': Db, b: nat) {
    && OnlyBill(db, db', b)
    && var row := db.bills[b];
       && (row.released.None? ==>
             && Moves(db.ledger, db'.ledger, BillRelease(b), Reserved(row.user), Available(row.user), row.amount + row.fee)
             && db'.bills[b] == row.(status := BillFailed, released := Some(|db.ledger|)))
       && (row.released.Some? ==> db'.ledger == db.ledger && db'.bills[b] == row.(status := BillFailed))
       && IntentTold(db.intents, db'.intents, row.intent, FailedIntent)
  }

  /** The provider and the fee account give back what they had, straight to the wallet. */
  ghost predicate TakenBack(db: Db, db': Db, b: nat) {
    && OnlyBill(db, db', b) && db'.intents == db.intents
    && var row := db.bills[b];
       && Shifts(db.ledger, db'.ledger, BillReversal(b), Available(row.user), row.amount + row.fee,
                 ProviderPayable, -row.amount, FeeRevenue, -row.fee)
       && db'.bills[b] == row.(status := BillReversed, reconciliation := Resolved, reversed := Some(|db.ledger|))
  }

  /** Nothing is posted, and the bill waits to be asked about. */
  ghost predicate LeftOpen(db: Db, db': Db, b: nat) {
    && OnlyBill(db, db', b) && db'.ledger == db.ledger && db'.intents == db.intents
    && db'.bills[b] == db.bills[b].(status := ReconciliationRequired, reconciliation := Awaiting)
  }

  // ----- One answer -------------------------------------------------------

  lemma SettlementShifts(l: Book, l': Book, key: Key, b: Bill)
    requires l' == l + [NewTxn(key, SettleEntries(b))] && b.fee >= 0
    ensures Shifts(l, l', key, Reserved(b.user), -(b.amount + b.fee), ProviderPayable, b.amount, FeeRevenue, b.fee)
  {
    forall a ensures Balance(l', a) == Balance(l, a) + Effect(SettleEntries(b), a) {
      BalanceAppend(l, NewTxn(key, SettleEntries(b)), a);
      BillTheorems.SettleEffect(b, a);
    }
    forall a ensures Effect(SettleEntries(b), a) == (if a == Reserved(b.user) then -(b.amount + b.fee) else 0)
      + (if a == ProviderPayable then b.amount else 0) + (if a == FeeRevenue then b.fee else 0)
    {
      BillTheorems.SettleEffect(b, a);
    }
  }

  lemma ReversalShifts(l: Book, l': Book, key: Key, b: Bill)
    requires l' == l + [NewTxn(key, ReversalEntries(b))] && b.fee >= 0
    ensures Shifts(l, l', key, Available(b.user), b.amount + b.fee, ProviderPayable, -b.amount, FeeRevenue, -b.fee)
  {
    forall a ensures Balance(l', a) == Balance(l, a) + Effect(ReversalEntries(b), a) {
      BalanceAppend(l, NewTxn(key, ReversalEntries(b)), a);
    }
    forall a ensures Effect(ReversalEntries(b), a) == (if a == Available(b.user) then b.amount + b.fee else 0)
      + (if a == ProviderPayable then -b.amount else 0) + (if a == FeeRevenue then -b.fee else 0)
    {
      BillTheorems.ReversalEffect(b, a);
    }
  }

  lemma ReversalBalanced(b: Bill)
    requires b.amount > 0 && b.fee >= 0
    ensures Balanced(ReversalEntries(b))
  {
    var debit, fee, credit := Dr(ProviderPayable, b.amount), Dr(FeeRevenue, b.fee), Cr(Available(b.user), TotalDebit(b));
    SumPair(debit, credit, DebitOf());
    SumPair(debit, credit, CreditOf());
    SumPair(debit, fee, DebitOf());
    SumPair(debit, fee, CreditOf());
    SumAppend([debit, fee], credit, DebitOf());
    SumAppend([debit, fee], credit, CreditOf());
    assert ReversalEntries(b) == if b.fee > 0 then [debit, fee] + [credit] else [debit, credit];
  }

  /** A success pays an undecided bill out once; a second one fails on the receipt and changes nothing. */
  lemma SuccessPaysOut(db: Db, b: nat)
    requires BooksOk(db) && b < |db.bills| && Undecided(db.bills[b])
    ensures db.bills[b].settled.Some? ==> Bills.ApplyAnswer(db, b, Bills.SaysSuccessful) == Err(UniqueViolation)
    ensures db.bills[b].settled.None? ==>
              && Bills.ApplyAnswer(db, b, Bills.SaysSuccessful).Ok?
              && PaidOut(db, Bills.ApplyAnswer(db, b, Bills.SaysSuccessful).value, b)
  {
    assert BillSane(db, b);
    BillTheorems.SettleBalanced(db.bills[b]);
    if db.bills[b].settled.None? {
      FreshKey(db, BillSettle(b));
      Keeping.SettleShape(db, b);
      SettlementShifts(db.ledger, Bills.Settle(db, b).value.ledger, BillSettle(b), db.bills[b]);
    }
  }

  lemma FailureGivesBack(db: Db, b: nat)
    requires BooksOk(db) && b < |db.bills| && Undecided(db.bills[b])
    ensures Bills.ApplyAnswer(db, b, Bills.SaysFailed).Ok?
    ensures GivenBack(db, Bills.ApplyAnswer(db, b, Bills.SaysFailed).value, b)
  {
    var row := db.bills[b];
    assert BillSane(db, b);
    PairBalanced(Reserved(row.user), Available(row.user), TotalDebit(row));
    if row.released.None? {
      FreshKey(db, BillRelease(b));
      Keeping.ReleaseShape(db, b);
      PairMoves(db.ledger, Bills.Release(db, b).value.ledger, BillRelease(b), Reserved(row.user), Available(row.user),
                TotalDebit(row));
    } else {
      Keeping.RepeatedRelease(db, b);
    }
  }

  lemma ReversalTakesBack(db: Db, b: nat)
    requires BooksOk(db) && b < |db.bills|
    ensures var r := Bills.ApplyAnswer(db, b, Bills.SaysReversed);
            && (db.bills[b].status == BillReversed ==> r == Ok(db))
            && (db.bills[b].status == Successful ==> r.Ok? && TakenBack(db, r.value, b))
            && (db.bills[b].status != BillReversed && db.bills[b].status != Successful ==> r == Err(Conflict))
  {
    assert BillSane(db, b);
    if db.bills[b].status == Successful {
      FreshKey(db, BillReversal(b));
      ReversalBalanced(db.bills[b]);
      Keeping.ReversalShape(db, b);
      ReversalShifts(db.ledger, Bills.ApplyReversal(db, b).value.ledger, BillReversal(b), db.bills[b]);
    }
  }

  /** The answer settles nothing: pending, unknown, or none at all. Any status is overwritten. */
  lemma NoVerdictLeavesOpen(db: Db, b: nat, answer: Bills.Answer)
    requires b < |db.bills| && (answer == Bills.SaysPending || answer == Bills.SaysUnknown)
    ensures Bills.ApplyAnswer(db, b, answer).Ok? && Bills.MarkUncertain(db, b).Ok?
    ensures LeftOpen(db, Bills.ApplyAnswer(db, b, answer).value, b) && LeftOpen(db, Bills.MarkUncertain(db, b).value, b)
  {
  }

  // ----- Every run --------------------------------------------------------

  /** What an answer about bill b makes of db, whatever it is. */
  ghost predicate Answers(db: Db, db': Db, b: nat, answer: Bills.Answer)
    requires b < |db.bills|
  {
    match answer
    case SaysSuccessful =>
      if Undecided(db.bills[b]) && db.bills[b].settled.None? then PaidOut(db, db', b) else db' == db
    case SaysFailed => if Undecided(db.bills[b]) then GivenBack(db, db', b) else db' == db
    case SaysReversed => if db.bills[b].status == Successful then TakenBack(db, db', b) else db' == db
    case SaysPending => LeftOpen(db, db', b)
    case SaysUnknown => LeftOpen(db, db', b)
  }

  lemma AnswerOutcome(db: Db, b: nat, answer: Bills.Answer)
    requires BooksOk(db) && b < |db.bills|
    ensures Answers(db, Next(db, Answered(b, answer)), b, answer)
  {
    match answer
    case SaysSuccessful => if Undecided(db.bills[b]) { SuccessPaysOut(db, b); }
    case SaysFailed => if Undecided(db.bills[b]) { FailureGivesBack(db, b); }
    case SaysReversed => ReversalTakesBack(db, b);
    case _ => NoVerdictLeavesOpen(db, b, answer);
  }

  /**
   * In every run, a success pays an undecided bill out and settles its intent; a
   * failure gives amount and fee back and fails the intent; a reversal takes a
   * SUCCESSFUL bill back; anything else said of a bill that has its verdict
   * changes nothing; and an answer without a verdict leaves the bill to be
   * asked about.
   */
  lemma {:induction false} EveryAnswerCounts(steps: seq<Step>, b: nat, answer: Bills.Answer)
    requires b < |Run(steps).bills|
    ensures Answers(Run(steps), Run(steps + [Answered(b, answer)]), b, answer)
    ensures LeftOpen(Run(steps), Run(steps + [CallFailed(b)]), b)
  {
    KeepingPayments.BooksKept(steps);
    RunStep(steps, Answered(b, answer));
    RunStep(steps, CallFailed(b));
    AnswerOutcome(Run(steps), b, answer);
    NoVerdictLeavesOpen(Run(steps), b, Bills.SaysUnknown);
  }

  lemma InquiryIsAnswer(db: Db, b: nat, answer: Bills.Answer)
    requires b < |db.bills|
    ensures db.bills[b].reconciliation == Awaiting ==>
              Bills.Reconcile(db, b, Some(answer)) == Attempt(db, Answered(b, answer))
    ensures db.bills[b].reconciliation != Awaiting ==> Bills.Reconcile(db, b, Some(answer)) == Err(Conflict)
  {
  }

  /**
   * In every run an administrator's inquiry is refused for a bill that is not
   * waiting to be asked about; and a bill left open, by an answer without a
   * verdict or by none, is waiting: what the inquiry brings then counts like any
   * other answer.
   */
  lemma {:induction false} InquiryCounts(steps: seq<Step>, b: nat, answer: Bills.Answer)
    requires b < |Run(steps).bills|
    ensures Run(steps).bills[b].reconciliation != Awaiting ==>
              Bills.Reconcile(Run(steps), b, Some(answer)) == Err(Conflict)
    ensures var left := Run(steps + [CallFailed(b)]);
            var r := Bills.Reconcile(left, b, Some(answer));
            b < |left.bills| && Answers(left, if r.Ok? then r.value else left, b, answer)
  {
    EveryAnswerCounts(steps, b, answer);
    KeepingPayments.BooksKept(steps + [CallFailed(b)]);
    var left := Run(steps + [CallFailed(b)]);
    InquiryIsAnswer(Run(steps), b, answer);
    InquiryIsAnswer(left, b, answer);
    AnswerOutcome(left, b, answer);
  }

  // ----- Bill requests ----------------------------------------------------

  predicate BillUnused(db: Db, user: nat, caller: CallerKey) {
    forall b :: 0 <= b < |db.bills| ==> db.bills[b].user != user || db.bills[b].caller != caller
  }

  /**
   * A bill request under a key its user has not used is accepted exactly with a
   * current validation, an ACTIVE wallet, a positive amount within the limits, a
   * known fee and the money for both; and then it sets aside amount and fee and
   * records one PENDING bill for that user, amount and fee.
   */
  lemma RequestReservesAmountAndFee(db: Db, user: nat, r: Bills.BillRequest)
    requires BooksOk(db) && BillUnused(db, user, r.caller)
    ensures Bills.CreateBill(db, user, r).Ok? <==>
              && r.validated && user in db.wallets && db.wallets[user] && r.amount > 0 && r.allowed
              && r.fee.Some? && r.fee.value >= 0 && Balance(db.ledger, Available(user)) >= r.amount + r.fee.value
    ensures Bills.CreateBill(db, user, r).Ok? ==>
              var db', fee := Bills.CreateBill(db, user, r).value, r.fee.value;
              && Moves(db.ledger, db'.ledger, BillReserve(|db.bills|), Available(user), Reserved(user), r.amount + fee)
              && db'.bills == db.bills + [Bill(user, r.amount, fee, r.caller, Some(r.hash), None, BillPending, NotRequired,
                                               |db.ledger|, None, None, None, false)]
              && db' == db.(ledger := db'.ledger, bills := db'.bills)
  {
    FreshKey(db, BillReserve(|db.bills|));
    if r.fee.Some? {
      PairBalanced(Available(user), Reserved(user), r.amount + r.fee.value);
      var made := Bills.CreateBill(db, user, r);
      if made.Ok? {
        PairMoves(db.ledger, made.value.ledger, BillReserve(|db.bills|), Available(user), Reserved(user),
                  r.amount + r.fee.value);
      }
    }
  }

  /** A key already used answers with its bill if the request is the same one, and is refused otherwise. */
  lemma UsedBillKey(db: Db, user: nat, r: Bills.BillRequest)
    requires r.validated && !BillUnused(db, user, r.caller)
    ensures var found := Bills.FindBill(db.bills, user, r.caller);
            && found.Some?
            && Bills.CreateBill(db, user, r) == if db.bills[found.value].hash == Some(r.hash) then Ok(db) else Err(Conflict)
  {
  }
}
