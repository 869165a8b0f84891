/** Deposits and provider events, transaction by transaction. */
module SettlementService {
  import opened Prelude
  import opened Ledger
  import opened Tables
  import opened Store
  import Payments
  import Webhooks

  datatype Settled = Unmatched | Matched

  /** The provider's events received so far. */
  class EventTable {
    var rows: map<nat, Webhooks.EventStatus>

    constructor ()
      ensures rows == map[]
    {
      rows := map[];
    }
  }

  /** The status is read again inside the transaction, so a delivery that lost the race changes nothing. */
  method SettleSuccessful(db: Database, reference: nat) returns (outcome: Result<Settled>)
    modifies db`ledger, db`intents
    ensures match Webhooks.SettleSuccessful(old(db.State()), reference)
            case Err(error) => outcome == Err(error) && db.State() == old(db.State())
            case Ok(None) => outcome == Ok(Unmatched) && db.State() == old(db.State())
            case Ok(Some(settled)) => outcome == Ok(Matched) && db.State() == settled
  {
    var intent := Payments.FindReference(db.intents, reference);
    if intent.None? {
      return Ok(Unmatched);
    }
    var i := intent.value;
    if db.intents[i].status == Succeeded {
      return Ok(Matched);
    }
    if db.intents[i].user !in db.wallets {
      return Err(NotFound);
    }
    var posting := PostWithin(db, SettlementKey(i), DepositEntries(db.intents[i]));
    if posting.Err? {
      return Err(posting.error);
    }
    db.intents := db.intents[i := db.intents[i].(status := Succeeded, txn := Some(posting.value))];
    outcome := Ok(Matched);
  }

  method SettleFailed(db: Database, reference: nat) returns (outcome: Result<Settled>)
    modifies db`intents
    ensures match Webhooks.SettleFailed(old(db.State()), reference)
            case Err(error) => outcome == Err(error) && db.State() == old(db.State())
            case Ok(None) => outcome == Ok(Unmatched) && db.State() == old(db.State())
            case Ok(Some(written)) => outcome == Ok(Matched) && db.State() == written
  {
    var intent := Payments.FindReference(db.intents, reference);
    if intent.None? {
      return Ok(Unmatched);
    }
    var i := intent.value;
    if db.intents[i].status == Succeeded {
      return Ok(Matched);
    }
    db.intents := db.intents[i := db.intents[i].(status := FailedIntent)];
    outcome := Ok(Matched);
  }

  method ApplyToLedger(db: Database, events: EventTable, e: Webhooks.Event)
    modifies db`ledger, db`intents, events
    ensures Webhooks.Inbox(db.State(), events.rows) == Webhooks.Apply(old(Webhooks.Inbox(db.State(), events.rows)), e)
  {
    if !e.completion || e.reference.None? {
      return;
    }
    var outcome: Result<Settled>;
    if e.failed {
      outcome := SettleFailed(db, e.reference.value);
    } else {
      outcome := SettleSuccessful(db, e.reference.value);
    }
    if outcome == Ok(Matched) {
      events.rows := events.rows[e.id := Webhooks.EventProcessed];
    }
  }

  /** The event row is written first; only its first delivery goes on to the ledger. */
  method Record(db: Database, events: EventTable, e: Webhooks.Event) returns (firstDelivery: bool)
    modifies db`ledger, db`intents, events
    ensures Webhooks.Inbox(db.State(), events.rows) == Webhooks.Record(old(Webhooks.Inbox(db.State(), events.rows)), e)
    ensures firstDelivery <==> e.id !in old(events.rows)
  {
    if e.id in events.rows {
      return false;
    }
    events.rows := events.rows[e.id := if e.stale then Webhooks.EventFailed else Webhooks.EventPending];
    if !e.stale {
      ApplyToLedger(db, events, e);
    }
    firstDelivery := true;
  }
}
