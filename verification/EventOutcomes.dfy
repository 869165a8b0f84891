/** What a provider event does to the deposit its reference names. */
module EventOutcomes {
  import opened Prelude
  import opened Tables
  import opened Books
  import opened PaymentOutcomes
  import opened Webhooks
  import DepositTheorems
  import Payments

  /** A new event that completes a transaction and names the intent. */
  predicate Names(inbox: Inbox, e: Event, i: nat) {
    && e.id !in inbox.events && !e.stale && e.completion && e.reference.Some?
    && i < |inbox.db.intents| && inbox.db.intents[i].reference == e.reference
  }

  /** The event's row, and no other, has this status. */
  ghost predicate Marked(inbox: Inbox, inbox': Inbox, e: Event, status: EventStatus) {
    inbox'.events == inbox.events[e.id := status]
  }

  lemma NamedIsFound(db: Db, reference: nat, i: nat)
    requires DepositTheorems.ReferencesApart(db.intents) && i < |db.intents|
    requires db.intents[i].reference == Some(reference)
    ensures Payments.FindReference(db.intents, reference) == Some(i)
  {
    var found := Payments.FindReference(db.intents, reference).value;
    assert found < i || found == i || i < found;
  }

  /**
   * A new success event deposits the intent it names, once: the money moves if
   * it had not before, its payer has a wallet and the fee leaves something, and
   * the event is PROCESSED; refused, the event is left PENDING and nothing moves.
   */
  lemma SuccessEventDeposits(inbox: Inbox, e: Event, i: nat)
    requires BooksOk(inbox.db) && DepositTheorems.ReferencesApart(inbox.db.intents) && Names(inbox, e, i) && !e.failed
    requires inbox.db.intents[i].txn.None?
    ensures var row, inbox' := inbox.db.intents[i], Record(inbox, e);
            if row.user in inbox.db.wallets && row.amount > row.fee
            then DepositMade(inbox.db, inbox'.db, i) && Marked(inbox, inbox', e, EventProcessed)
            else inbox'.db == inbox.db && Marked(inbox, inbox', e, EventPending)
  {
    NamedIsFound(inbox.db, e.reference.value, i);
    DepositOutcome(inbox.db, i);
  }

  /** One for an intent already deposited restores SUCCEEDED and moves nothing. */
  lemma SuccessEventRestores(inbox: Inbox, e: Event, i: nat)
    requires BooksOk(inbox.db) && DepositTheorems.ReferencesApart(inbox.db.intents) && Names(inbox, e, i) && !e.failed
    requires inbox.db.intents[i].txn.Some? && inbox.db.intents[i].user in inbox.db.wallets
    ensures var row, inbox' := inbox.db.intents[i], Record(inbox, e);
            && inbox'.db == inbox.db.(intents := inbox.db.intents[i := row.(status := Succeeded)])
            && Marked(inbox, inbox', e, EventProcessed)
  {
    NamedIsFound(inbox.db, e.reference.value, i);
    DepositAgain(inbox.db, i);
  }

  /** A new failure event marks the intent it names FAILED, unless it has SUCCEEDED, and is PROCESSED. */
  lemma FailureEventFails(inbox: Inbox, e: Event, i: nat)
    requires DepositTheorems.ReferencesApart(inbox.db.intents) && Names(inbox, e, i) && e.failed
    ensures var row, inbox' := inbox.db.intents[i], Record(inbox, e);
            && inbox'.db == inbox.db.(intents := inbox.db.intents[i := row.(
                 status := if row.status == Succeeded then Succeeded else FailedIntent)])
            && Marked(inbox, inbox', e, EventProcessed)
  {
    NamedIsFound(inbox.db, e.reference.value, i);
  }

  /** Any other new event touches no table: FAILED if it came too late, PENDING otherwise. */
  lemma OtherEventsWait(inbox: Inbox, e: Event)
    requires e.id !in inbox.events && forall i: nat :: !Names(inbox, e, i)
    ensures Record(inbox, e).db == inbox.db
    ensures Marked(inbox, Record(inbox, e), e, if e.stale then EventFailed else EventPending)
  {
    if !e.stale && e.completion && e.reference.Some? {
      var found := Payments.FindReference(inbox.db.intents, e.reference.value);
      assert found.Some? ==> Names(inbox, e, found.value);
    }
  }

  /** What a new event naming intent i makes of the tables and its row. */
  ghost predicate EventCounts(inbox: Inbox, inbox': Inbox, e: Event, i: nat)
    requires i < |inbox.db.intents|
  {
    var row := inbox.db.intents[i];
    if e.failed then
      && inbox'.db == inbox.db.(intents := inbox.db.intents[i := row.(
           status := if row.status == Succeeded then Succeeded else FailedIntent)])
      && Marked(inbox, inbox', e, EventProcessed)
    else if row.txn.None? then
      if row.user in inbox.db.wallets && row.amount > row.fee
      then DepositMade(inbox.db, inbox'.db, i) && Marked(inbox, inbox', e, EventProcessed)
      else inbox'.db == inbox.db && Marked(inbox, inbox', e, EventPending)
    else row.user in inbox.db.wallets ==>
      && inbox'.db == inbox.db.(intents := inbox.db.intents[i := row.(status := Succeeded)])
      && Marked(inbox, inbox', e, EventProcessed)
  }

  /**
   * After any interleaving of deliveries with everything else, a new success
   * event deposits the one intent its reference names, once, and a new failure
   * event fails it unless it has SUCCEEDED.
   */
  lemma {:induction false} EveryEventCounts(steps: seq<HookStep>, e: Event, i: nat)
    requires Names(HookRun(steps).inbox, e, i)
    ensures EventCounts(HookRun(steps).inbox, Record(HookRun(steps).inbox, e), e, i)
  {
    DeliveriesAreRuns(steps);
    DeliveriesKeepTheBooks(steps);
    DepositTheorems.OneIntentPerReference(Underlying(steps));
    var inbox := HookRun(steps).inbox;
    if e.failed {
      FailureEventFails(inbox, e, i);
    } else if inbox.db.intents[i].txn.None? {
      SuccessEventDeposits(inbox, e, i);
    } else if inbox.db.intents[i].user in inbox.db.wallets {
      SuccessEventRestores(inbox, e, i);
    }
  }
}
