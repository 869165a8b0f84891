/**
 * Requests that pay for bills. A request is a transaction and what it does
 * after it; any number of them may race, and nothing but what each remembers of
 * its own transaction keeps the provider from being asked twice.
 */
module Requests {
  import opened Prelude
  import opened Ledger
  import opened Tables
  import opened Lifecycle
  import opened Machine
  import BillOutcomes
  import Bills
  import Books
  import Keeping
  import KeepingPayments
  import Payments

  // ----- The invariant ----------------------------------------------------

  ghost predicate HandlerOk(db: Db, h: Handler) {
    && h.calls <= 1 && (h.calls > 0 ==> h.finished && Bills.GoesOn(db, h))
    && (h.intent.Some? ==> h.intent.value < |db.intents|)
    && (Bills.GoesOn(db, h) ==> Bills.FindBill(db.bills, h.user, h.caller).Some?)
    && (Bills.GoesOn(db, h) && h.intent.Some? ==> PaidBillIntent(db, h.intent.value))
  }

  /** Two requests that go on are for different bills. */
  ghost predicate Apart(g: Handler, h: Handler) {
    (g.user != h.user || g.caller != h.caller) && (g.intent.Some? ==> g.intent != h.intent)
  }

  ghost predicate Rivals(db: Db, g: Handler, h: Handler) {
    Bills.GoesOn(db, g) && Bills.GoesOn(db, h) ==> Apart(g, h)
  }

  ghost predicate HandlersOk(db: Db) {
    && (forall k :: 0 <= k < |db.handlers| ==> HandlerOk(db, db.handlers[k]))
    && (forall j, k :: 0 <= j < k < |db.handlers| ==> Rivals(db, db.handlers[j], db.handlers[k]))
  }

  /** Bills keep their keys, and intents their targets; a paid intent stays paid. */
  ghost predicate KeysKept(db: Db, db': Db) {
    && |db.bills| <= |db'.bills|
    && (forall b :: 0 <= b < |db.bills| ==>
          db'.bills[b].user == db.bills[b].user && db'.bills[b].caller == db.bills[b].caller)
    && |db.intents| <= |db'.intents|
    && (forall i :: 0 <= i < |db.intents| ==> db'.intents[i].target == db.intents[i].target)
    && (forall i: nat :: PaidBillIntent(db, i) ==> PaidBillIntent(db', i))
  }

  lemma BillStaysFound(db: Db, db': Db, user: nat, caller: CallerKey)
    requires KeysKept(db, db') && Bills.FindBill(db.bills, user, caller).Some?
    ensures Bills.FindBill(db'.bills, user, caller).Some?
  {
    var b := Bills.FindBill(db.bills, user, caller).value;
    assert db'.bills[b].user == user && db'.bills[b].caller == caller;
  }

  lemma HandlerStays(db: Db, db': Db, h: Handler)
    requires KeysKept(db, db') && HandlerOk(db, h)
    ensures HandlerOk(db', h) && (Bills.GoesOn(db', h) <==> Bills.GoesOn(db, h))
  {
    if Bills.GoesOn(db, h) {
      BillStaysFound(db, db', h.user, h.caller);
    }
  }

  lemma SameHandlersKeep(db: Db, db': Db)
    requires HandlersOk(db) && KeysKept(db, db') && db'.handlers == db.handlers
    ensures HandlersOk(db')
  {
    forall k | 0 <= k < |db'.handlers|
      ensures HandlerOk(db', db'.handlers[k]) && (Bills.GoesOn(db', db'.handlers[k]) <==> Bills.GoesOn(db, db.handlers[k]))
    {
      HandlerStays(db, db', db.handlers[k]);
    }
  }

  /** A new request joins those before it; if it goes on, the bill it goes on with did not exist before. */
  lemma HandlerJoins(db: Db, db': Db, h: Handler)
    requires HandlersOk(db) && KeysKept(db, db') && db'.handlers == db.handlers + [h] && HandlerOk(db', h)
    requires Bills.GoesOn(db', h) ==> Bills.FindBill(db.bills, h.user, h.caller).None?
    requires Bills.GoesOn(db', h) && h.intent.Some? ==> !PaidBillIntent(db, h.intent.value)
    ensures HandlersOk(db')
  {
    forall k | 0 <= k < |db.handlers|
      ensures HandlerOk(db', db.handlers[k]) && (Bills.GoesOn(db', db.handlers[k]) <==> Bills.GoesOn(db, db.handlers[k]))
    {
      HandlerStays(db, db', db.handlers[k]);
    }
    forall j | 0 <= j < |db.handlers| && Bills.GoesOn(db', db.handlers[j]) && Bills.GoesOn(db', h)
      ensures Apart(db.handlers[j], h)
    {
      assert HandlerOk(db, db.handlers[j]);
    }
  }

  // ----- Every step -------------------------------------------------------

  lemma UntouchedKeysKept(db: Db, db': Db)
    requires BillsUntouched(db, db')
    ensures KeysKept(db, db')
  {
  }

  lemma AnswerKeysKept(db: Db, b: nat, answer: Bills.Answer)
    requires Bills.ApplyAnswer(db, b, answer).Ok?
    ensures KeysKept(db, Bills.ApplyAnswer(db, b, answer).value)
    ensures Bills.ApplyAnswer(db, b, answer).value.handlers == db.handlers
  {
  }

  lemma AfterCommitHandlers(db: Db, h: nat, hasReference: bool)
    requires Bills.AfterCommit(db, h, hasReference).Ok?
    ensures var db' := Bills.AfterCommit(db, h, hasReference).value;
            && h < |db.handlers| && !db.handlers[h].finished
            && |db'.handlers| == |db.handlers|
            && db'.handlers == db.handlers[h := db.handlers[h].(finished := true, calls := db'.handlers[h].calls)]
            && (db'.handlers[h].calls == db.handlers[h].calls
                || (Bills.GoesOn(db, db.handlers[h]) && db'.handlers[h].calls == db.handlers[h].calls + 1))
  {
  }

  lemma AfterCommitHandlersOk(db: Db, h: nat, hasReference: bool)
    requires HandlersOk(db) && Bills.AfterCommit(db, h, hasReference).Ok?
    ensures HandlersOk(Bills.AfterCommit(db, h, hasReference).value)
  {
    var db' := Bills.AfterCommit(db, h, hasReference).value;
    Keeping.AfterCommitShape(db, h, hasReference);
    AfterCommitHandlers(db, h, hasReference);
    assert KeysKept(db, db');
    forall k | 0 <= k < |db'.handlers|
      ensures HandlerOk(db', db'.handlers[k]) && (Bills.GoesOn(db', db'.handlers[k]) <==> Bills.GoesOn(db, db.handlers[k]))
    {
      HandlerStays(db, db', db.handlers[k]);
    }
  }

  /** The payment of a bill's intent makes the bill, and so happens only when there was none. */
  lemma PaymentKeysKept(db: Db, user: nat, i: nat, caller: nat, quote: Payments.Quote)
    requires Payments.SettleFromWallet(db, user, i, caller, quote).Ok?
    ensures i < |db.intents|
    ensures var db' := Payments.SettleFromWallet(db, user, i, caller, quote).value;
            && KeysKept(db, db') && db'.handlers == db.handlers
            && (db.intents[i].status == RequiresConfirmation && db.intents[i].target.BillFor? ==>
                  && Bills.FindBill(db.bills, user, OfIntent(i)).None?
                  && |db'.bills| == |db.bills| + 1 && db'.bills[|db.bills|].user == user
                  && db'.bills[|db.bills|].caller == OfIntent(i) && PaidBillIntent(db', i))
  {
  }

  lemma PaymentHandlersOk(db: Db, user: nat, i: nat, caller: nat, quote: Payments.Quote)
    requires HandlersOk(db) && ConfirmTx(db, user, i, caller, quote).Ok?
    ensures HandlersOk(ConfirmTx(db, user, i, caller, quote).value)
  {
    PaymentKeysKept(db, user, i, caller, quote);
    var db' := ConfirmTx(db, user, i, caller, quote).value;
    HandlerJoins(db, db', db'.handlers[|db.handlers|]);
  }

  lemma ReserveKeysKept(db: Db, user: nat, r: Bills.BillRequest)
    requires Bills.CreateBill(db, user, r).Ok?
    ensures var db' := Bills.CreateBill(db, user, r).value;
            && KeysKept(db, db') && db'.handlers == db.handlers
            && (Bills.FindBill(db.bills, user, r.caller).None? ==>
                  && |db'.bills| == |db.bills| + 1 && db'.bills[|db.bills|].user == user
                  && db'.bills[|db.bills|].caller == r.caller)
  {
  }

  lemma ReserveHandlersOk(db: Db, user: nat, r: Bills.BillRequest)
    requires HandlersOk(db) && CreateTx(db, user, r).Ok?
    ensures HandlersOk(CreateTx(db, user, r).value)
  {
    ReserveKeysKept(db, user, r);
    var db' := CreateTx(db, user, r).value;
    HandlerJoins(db, db', db'.handlers[|db.handlers|]);
  }

  lemma AttemptHandlersOk(db: Db, step: Step)
    requires Books.RowsSane(db) && HandlersOk(db) && Attempt(db, step).Ok?
    ensures HandlersOk(Attempt(db, step).value)
  {
    if !TouchesBills(step) {
      OtherStepsUntouched(db, step);
      UntouchedKeysKept(db, Attempt(db, step).value);
      SameHandlersKeep(db, Attempt(db, step).value);
    } else {
      match step
      case PayFromWallet(u, i, caller, quote) => PaymentHandlersOk(db, u, i, caller, quote);
      case ReserveBill(u, r) => ReserveHandlersOk(db, u, r);
      case AfterCommit(h, hasReference) => AfterCommitHandlersOk(db, h, hasReference);
      case Answered(b, answer) =>
        AnswerKeysKept(db, b, answer);
        SameHandlersKeep(db, Attempt(db, step).value);
      case CallFailed(_) => SameHandlersKeep(db, Attempt(db, step).value);
    }
  }

  lemma {:induction false} HandlersKept(steps: seq<Step>)
    ensures HandlersOk(Run(steps))
    decreases |steps|
  {
    if steps != [] {
      var last := |steps| - 1;
      HandlersKept(steps[..last]);
      KeepingPayments.BooksKept(steps[..last]);
      if Attempt(Run(steps[..last]), steps[last]).Ok? {
        AttemptHandlersOk(Run(steps[..last]), steps[last]);
      }
    }
  }

  // ----- How often the provider is asked ----------------------------------

  function CallsForIntent(i: nat): Handler -> int { (h: Handler) => if h.intent == Some(i) then h.calls else 0 }
  function CallsForKey(user: nat, caller: CallerKey): Handler -> int {
    (h: Handler) => if h.user == user && h.caller == caller then h.calls else 0
  }

  /** A count that is at most one for each request, and not zero for at most one of them. */
  lemma {:induction false} OneCounts(handlers: seq<Handler>, f: Handler -> int)
    requires forall h :: h in handlers ==> 0 <= f(h) <= 1
    requires forall j, k :: 0 <= j < k < |handlers| ==> f(handlers[j]) == 0 || f(handlers[k]) == 0
    ensures 0 <= Sum(handlers, f) <= 1
    ensures (forall h :: h in handlers ==> f(h) == 0) ==> Sum(handlers, f) == 0
    decreases |handlers|
  {
    if handlers != [] {
      var last := |handlers| - 1;
      OneCounts(handlers[..last], f);
      if f(handlers[last]) != 0 {
        forall h | h in handlers[..last] ensures f(h) == 0 {
          var j :| 0 <= j < last && handlers[j] == h;
        }
      }
    }
  }

  lemma CallersApart(db: Db, j: nat, k: nat)
    requires HandlersOk(db) && j < k < |db.handlers| && db.handlers[j].calls > 0 && db.handlers[k].calls > 0
    ensures Apart(db.handlers[j], db.handlers[k])
  {
    assert HandlerOk(db, db.handlers[j]) && HandlerOk(db, db.handlers[k]);
  }

  /**
   * However many confirmations of an intent race, and however many requests
   * carry one bill's key, the provider is asked to pay at most once: a request
   * that found the payment made does not go on, and only one can have made it.
   */
  lemma {:induction false} ProviderCalledOnce(steps: seq<Step>, i: nat, user: nat, caller: CallerKey)
    ensures 0 <= Sum(Run(steps).handlers, CallsForIntent(i)) <= 1
    ensures 0 <= Sum(Run(steps).handlers, CallsForKey(user, caller)) <= 1
  {
    HandlersKept(steps);
    var db := Run(steps);
    forall h | h in db.handlers ensures 0 <= h.calls <= 1 {
      var k :| 0 <= k < |db.handlers| && db.handlers[k] == h;
      assert HandlerOk(db, db.handlers[k]);
    }
    forall j, k | 0 <= j < k < |db.handlers|
      ensures db.handlers[j].calls == 0 || db.handlers[k].calls == 0 || Apart(db.handlers[j], db.handlers[k])
    {
      if db.handlers[j].calls > 0 && db.handlers[k].calls > 0 {
        CallersApart(db, j, k);
      }
    }
    OneCounts(db.handlers, CallsForIntent(i));
    OneCounts(db.handlers, CallsForKey(user, caller));
  }

  // ----- A request that nothing interrupts --------------------------------

  /** The provider's answer, or its failure to give one, as a step. */
  function Reply(b: nat, answer: Option<Bills.Answer>): Step {
    if answer.Some? then Answered(b, answer.value) else CallFailed(b)
  }

  lemma AnswersAside(db: Db, b: nat, answer: Bills.Answer, handlers: seq<Handler>)
    ensures var r := Bills.ApplyAnswer(db, b, answer);
            Bills.ApplyAnswer(db.(handlers := handlers), b, answer)
              == if r.Ok? then Ok(r.value.(handlers := handlers)) else r
  {
  }

  lemma ReplyAside(db: Db, b: nat, answer: Option<Bills.Answer>, handlers: seq<Handler>)
    ensures Next(db.(handlers := handlers), Reply(b, answer)) == Next(db, Reply(b, answer)).(handlers := handlers)
  {
    if answer.Some? {
      AnswersAside(db, b, answer.value, handlers);
    }
  }

  /** The bill a payment has just made is the one its request goes on with. */
  lemma PaymentMakesBill(db: Db, user: nat, i: nat, caller: nat, quote: Payments.Quote)
    requires Payments.SettleFromWallet(db, user, i, caller, quote).Ok?
    requires db.intents[i].status == RequiresConfirmation && db.intents[i].target.BillFor?
    ensures var paid := Payments.SettleFromWallet(db, user, i, caller, quote).value;
            && Bills.FindBill(paid.bills, user, OfIntent(i)) == Some(|db.bills|)
            && |paid.bills| == |db.bills| + 1 && paid.bills[|db.bills|].status == BillPending
            && i < |paid.intents| && paid.intents[i].target.BillFor? && paid.handlers == db.handlers
  {
  }

  /**
   * A payment for a bill run to its end is its transaction, what follows the
   * commit, and the provider's reply if it was asked.
   */
  lemma UninterruptedPayment(db: Db, user: nat, i: nat, caller: nat, quote: Payments.Quote,
                             hasReference: bool, answer: Option<Bills.Answer>)
    requires Payments.SettleFromWallet(db, user, i, caller, quote).Ok?
    requires db.intents[i].status == RequiresConfirmation && db.intents[i].target.BillFor?
    ensures var h, b := |db.handlers|, |db.bills|;
            var sent := Next(Next(db, PayFromWallet(user, i, caller, quote)), AfterCommit(h, hasReference));
            && |sent.handlers| == h + 1 && (sent.handlers[h].calls == 1 <==> hasReference)
            && Payments.PayFromWallet(db, user, i, caller, quote, hasReference, answer).value.(handlers := sent.handlers)
               == if hasReference then Next(sent, Reply(b, answer)) else sent
  {
    PaymentMakesBill(db, user, i, caller, quote);
    var paid := Payments.SettleFromWallet(db, user, i, caller, quote).value;
    SentAndAnswered(paid, |db.bills|, user, i, hasReference, answer);
    assert Next(db, PayFromWallet(user, i, caller, quote))
        == paid.(handlers := paid.handlers + [Handler(user, OfIntent(i), Some(i), true, false, 0)]);
  }

  lemma SentAndAnswered(paid: Db, b: nat, user: nat, i: nat, hasReference: bool, answer: Option<Bills.Answer>)
    requires Bills.FindBill(paid.bills, user, OfIntent(i)) == Some(b) && paid.bills[b].status == BillPending
    requires i < |paid.intents| && paid.intents[i].target.BillFor?
    ensures var h := |paid.handlers|;
            var confirmed := paid.(handlers := paid.handlers + [Handler(user, OfIntent(i), Some(i), true, false, 0)]);
            var sent := Next(confirmed, AfterCommit(h, hasReference));
            && |sent.handlers| == h + 1 && (sent.handlers[h].calls == 1 <==> hasReference)
            && Payments.Finish(paid, true, user, i, hasReference, answer).(handlers := sent.handlers)
               == if hasReference then Next(sent, Reply(b, answer)) else sent
  {
    var h := |paid.handlers|;
    var confirmed := paid.(handlers := paid.handlers + [Handler(user, OfIntent(i), Some(i), true, false, 0)]);
    SentOn(confirmed, h, b, hasReference);
    ReplyAside(paid, b, answer, Next(confirmed, AfterCommit(h, hasReference)).handlers);
  }

  lemma SentOn(db: Db, h: nat, b: nat, hasReference: bool)
    requires h < |db.handlers| && !db.handlers[h].finished && Bills.GoesOn(db, db.handlers[h])
    requires db.handlers[h].intent.Some? && db.handlers[h].calls == 0
    requires Bills.FindBill(db.bills, db.handlers[h].user, db.handlers[h].caller) == Some(b)
    requires db.bills[b].status == BillPending
    ensures var sent := Next(db, AfterCommit(h, hasReference));
            && |sent.handlers| == |db.handlers| && sent.handlers[h].calls == (if hasReference then 1 else 0)
            && sent == (if hasReference then db else Bills.MarkUncertain(db, b).value).(handlers := sent.handlers)
  {
  }

  /**
   * A bill request of its own, run to its call, asks the provider once if its
   * key was new and not at all if the bill was there already.
   */
  lemma RequestAsksOnce(db: Db, user: nat, r: Bills.BillRequest)
    requires Bills.CreateBill(db, user, r).Ok?
    ensures var h := |db.handlers|;
            var sent := Next(Next(db, ReserveBill(user, r)), AfterCommit(h, true));
            && |sent.handlers| == h + 1 && sent.handlers[h].finished
            && (forall k :: 0 <= k < h ==> sent.handlers[k] == db.handlers[k])
            && sent.handlers[h].calls == if BillOutcomes.BillUnused(db, user, r.caller) then 1 else 0
  {
    ReserveKeysKept(db, user, r);
    var reserved := Next(db, ReserveBill(user, r));
    assert reserved.handlers == db.handlers
      + [Handler(user, r.caller, None, Bills.FindBill(db.bills, user, r.caller).None?, false, 0)];
    RequestSent(reserved, |db.handlers|);
  }

  lemma RequestSent(db: Db, h: nat)
    requires h < |db.handlers| && !db.handlers[h].finished && db.handlers[h].intent.None?
    requires db.handlers[h].settled ==> Bills.FindBill(db.bills, db.handlers[h].user, db.handlers[h].caller).Some?
    ensures var sent := Next(db, AfterCommit(h, true));
            sent.handlers == db.handlers[h := db.handlers[h].(
              finished := true, calls := db.handlers[h].calls + if db.handlers[h].settled then 1 else 0)]
  {
  }
}
