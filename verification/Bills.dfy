/** Bill payments: reserve, then settle, release or reverse on the provider's answer. */
module Bills {
  import opened Prelude
  import opened Ledger
  import opened Tables

  datatype Answer = SaysSuccessful | SaysFailed | SaysPending | SaysUnknown | SaysReversed

  /** validated: a current matching customer validation exists; allowed: within the product's limits. */
  datatype BillRequest = BillRequest(
    amount: int, caller: CallerKey, hash: nat, validated: bool, allowed: bool, fee: Option<int>)

  /** The unique index on (userId, idempotencyKey). */
  function FindBill(bills: seq<Bill>, user: nat, caller: CallerKey): (found: Option<nat>)
    ensures found.Some? ==> found.value < |bills| && bills[found.value].user == user && bills[found.value].caller == caller
    ensures found.None? ==> forall i :: 0 <= i < |bills| ==> bills[i].user != user || bills[i].caller != caller
  {
    FindLast(bills, (b: Bill) => b.user == user && b.caller == caller)
  }

  function NewBill(user: nat, amount: int, fee: int, caller: CallerKey, hash: Option<nat>,
                   intent: Option<nat>, reserve: nat): Bill {
    Bill(user, amount, fee, caller, hash, intent, BillPending, NotRequired, reserve,
         None, None, None, false)
  }

  function CreateBill(db: Db, user: nat, r: BillRequest): Result<Db> {
    if !r.validated then Err(Unprocessable)
    else
      match FindBill(db.bills, user, r.caller)
      case Some(b) => if db.bills[b].hash != Some(r.hash) then Err(Conflict) else Ok(db)
      case None =>
        if user !in db.wallets || !db.wallets[user] then Err(NotFound)
        else if r.amount <= 0 || !r.allowed || r.fee.None? || r.fee.value < 0 then Err(Unprocessable)
        else if Balance(db.ledger, Available(user)) < r.amount + r.fee.value then Err(Unprocessable)
        else
          var b := |db.bills|;
          var row := NewBill(user, r.amount, r.fee.value, r.caller, Some(r.hash), None, |db.ledger|);
          var posting :- Post(db.ledger, BillReserve(b), ReserveEntries(row));
          Ok(db.(ledger := posting.ledger, bills := db.bills + [row.(reserve := posting.id)]))
  }

  /** Keeps a bill's intent in step; only an intent still PROCESSING moves. */
  function SyncIntent(intents: seq<Intent>, intent: Option<nat>, status: IntentStatus): seq<Intent> {
    if intent.Some? && intent.value < |intents| && intents[intent.value].status == Processing
    then intents[intent.value := intents[intent.value].(status := status)]
    else intents
  }

  /** Overwrites whatever status the bill had. */
  function MarkUncertain(db: Db, b: nat): Result<Db> {
    if b >= |db.bills| then Err(NotFound)
    else Ok(db.(bills := db.bills[b := db.bills[b].(
      status := ReconciliationRequired, reconciliation := Awaiting)]))
  }

  predicate AwaitsVerdict(b: Bill) { b.status == BillPending || b.status == ReconciliationRequired }

  function Release(db: Db, b: nat): Result<Db>
    requires b < |db.bills|
  {
    var row := db.bills[b];
    var posting :- Post(db.ledger, BillRelease(b), ReleaseEntries(row));
    Ok(db.(ledger := posting.ledger,
           bills := db.bills[b := row.(status := BillFailed, released := Some(posting.id))],
           intents := SyncIntent(db.intents, row.intent, FailedIntent)))
  }

  /** The receipt is unique per bill, so settling twice is refused and rolled back. */
  function Settle(db: Db, b: nat): Result<Db>
    requires b < |db.bills|
  {
    var row := db.bills[b];
    var posting :- Post(db.ledger, BillSettle(b), SettleEntries(row));
    if row.receipt then Err(UniqueViolation)
    else Ok(db.(ledger := posting.ledger,
                bills := db.bills[b := row.(status := Successful, reconciliation := NotRequired,
                                            settled := Some(posting.id), receipt := true)],
                intents := SyncIntent(db.intents, row.intent, Succeeded)))
  }

  function ApplyReversal(db: Db, b: nat): Result<Db>
    requires b < |db.bills|
  {
    var row := db.bills[b];
    if row.status == BillReversed then Ok(db)
    else if row.status != Successful then Err(Conflict)
    else
      var posting :- Post(db.ledger, BillReversal(b), ReversalEntries(row));
      if row.reversed.Some? then Err(UniqueViolation)
      else Ok(db.(ledger := posting.ledger,
                  bills := db.bills[b := row.(status := BillReversed, reconciliation := Resolved,
                                              reversed := Some(posting.id))]))
  }

  function ApplyAnswer(db: Db, b: nat, answer: Answer): Result<Db> {
    if b >= |db.bills| then Err(NotFound)
    else
      match answer
      case SaysReversed => ApplyReversal(db, b)
      case SaysPending => MarkUncertain(db, b)
      case SaysUnknown => MarkUncertain(db, b)
      case SaysFailed => if AwaitsVerdict(db.bills[b]) then Release(db, b) else Ok(db)
      case SaysSuccessful => if AwaitsVerdict(db.bills[b]) then Settle(db, b) else Ok(db)
  }

  /** An administrator's inquiry: only a bill awaiting reconciliation is asked about. */
  function Reconcile(db: Db, b: nat, answer: Option<Answer>): Result<Db> {
    if b >= |db.bills| then Err(NotFound)
    else if db.bills[b].reconciliation != Awaiting then Err(Conflict)
    else if answer.None? then Err(BadGateway)
    else ApplyAnswer(db, b, answer.value)
  }

  /** Whether a request goes on to the provider: its own transaction settled something finished later. */
  predicate GoesOn(db: Db, h: Handler) {
    && h.settled
    && (h.intent.Some? ==> h.intent.value < |db.intents| && db.intents[h.intent.value].target.BillFor?)
  }

  /**
   * What a request does after its transaction. A bill paid through an intent
   * is sent only while PENDING and only with the customer's number; without it
   * the bill is left for reconciliation.
   */
  function AfterCommit(db: Db, h: nat, hasReference: bool): Result<Db> {
    if h >= |db.handlers| || db.handlers[h].finished then Err(NotFound)
    else
      var handler := db.handlers[h].(finished := true);
      var db' := db.(handlers := db.handlers[h := handler]);
      if !GoesOn(db, handler) then Ok(db')
      else
        match FindBill(db.bills, handler.user, handler.caller)
        case None => Ok(db')
        case Some(b) =>
          if handler.intent.Some? && db.bills[b].status != BillPending then Ok(db')
          else if handler.intent.Some? && !hasReference then MarkUncertain(db', b)
          else Ok(db'.(handlers := db.handlers[h := handler.(calls := handler.calls + 1)]))
  }

  /** completeIntentPayment run to its end: answer is what the provider said, None a failed request. */
  function CompleteIntentPayment(db: Db, user: nat, intent: nat, hasReference: bool, answer: Option<Answer>): Db {
    var found := FindBill(db.bills, user, OfIntent(intent));
    if found.None? || db.bills[found.value].status != BillPending then db
    else
      var applied := if hasReference && answer.Some? then ApplyAnswer(db, found.value, answer.value)
        else MarkUncertain(db, found.value);
      if applied.Ok? then applied.value else db
  }

  /** Records a bill whose money the intent's posting has just moved into reserve. */
  function RecordIntentPayment(db: Db, user: nat, intent: nat, amount: int, fee: int, txn: nat): Result<Db> {
    if user !in db.wallets then Err(Unprocessable)
    else if FindBill(db.bills, user, OfIntent(intent)).Some? then Err(UniqueViolation)
    else Ok(db.(bills := db.bills + [NewBill(user, amount, fee, OfIntent(intent), None, Some(intent), txn)]))
  }
}
