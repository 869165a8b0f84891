/**
 * Provider events. A delivery is handled in stages with nothing held between
 * them, so any number of deliveries interleave with one another and with
 * everything else the platform does.
 */
module Webhooks {
  import opened Prelude
  import opened Ledger
  import opened Tables
  import opened Books
  import opened Machine
  import KeepingPayments
  import Payments
  import PaymentTheorems

  /** completion: a transaction-completion event, the only kind that moves money. */
  datatype Event = Event(id: nat, completion: bool, failed: bool, reference: Option<nat>, stale: bool)

  datatype EventStatus = EventPending | EventProcessed | EventFailed

  // ----- One delivery with nothing in between -----------------------------

  /** settleSuccessful: an event matching no intent is left to reconciliation. */
  function SettleSuccessful(db: Db, reference: nat): Result<Option<Db>> {
    match Payments.FindReference(db.intents, reference)
    case None => Ok(None)
    case Some(i) =>
      var settled :- Payments.SettleDeposit(db, i);
      Ok(Some(settled))
  }

  /** settleFailed, its read and its write with nothing in between. */
  function SettleFailed(db: Db, reference: nat): Result<Option<Db>> {
    match Payments.FindReference(db.intents, reference)
    case None => Ok(None)
    case Some(i) =>
      if db.intents[i].status == Succeeded then Ok(Some(db))
      else
        var written :- Payments.WriteFailed(db, i);
        Ok(Some(written))
  }

  /** The tables and the provider's events, by provider event id. */
  datatype Inbox = Inbox(db: Db, events: map<nat, EventStatus>)

  /** applyToLedger: a refused settlement leaves the event as recorded. */
  function Apply(inbox: Inbox, e: Event): Inbox {
    if !e.completion || e.reference.None? then inbox
    else
      var outcome := if e.failed then SettleFailed(inbox.db, e.reference.value)
        else SettleSuccessful(inbox.db, e.reference.value);
      if outcome.Err? || outcome.value.None? then inbox
      else Inbox(outcome.value.value, inbox.events[e.id := EventProcessed])
  }

  function Record(inbox: Inbox, e: Event): Inbox {
    if e.id in inbox.events then inbox
    else if e.stale then inbox.(events := inbox.events[e.id := EventFailed])
    else Apply(inbox.(events := inbox.events[e.id := EventPending]), e)
  }

  // ----- Deliveries in stages ---------------------------------------------

  /**
   * Where a delivery is: about to look its id up, about to write its row, about
   * to look its intent up, about to settle the intent it found, about to mark
   * its row, or at its end. first says the row was its own.
   */
  datatype Stage =
    | Arriving
    | Recording
    | Matching
    | Settling(intent: nat)
    | Marking(intent: nat)
    | Ended(first: bool)

  datatype Delivery = Delivery(event: Event, stage: Stage)

  datatype Hooks = Hooks(inbox: Inbox, deliveries: seq<Delivery>)

  /** Elsewhere is any other step of the platform; Advance takes one delivery one stage on. */
  datatype HookStep = Elsewhere(step: Step) | Arrive(event: Event) | Advance(delivery: nat)

  /** The step of the platform a delivery takes when it settles. */
  function SettlingStep(e: Event, i: nat): Step { if e.failed then FailureWrite(i) else Deposit(i) }

  /** A stage's effect on the tables and the events, and the stage that follows. */
  function Staged(inbox: Inbox, d: Delivery): (Inbox, Stage) {
    var e := d.event;
    match d.stage
    case Arriving => (inbox, if e.id in inbox.events then Ended(false) else Recording)
    case Recording =>
      if e.id in inbox.events then (inbox, Ended(false))
      else if e.stale then (inbox.(events := inbox.events[e.id := EventFailed]), Ended(true))
      else (inbox.(events := inbox.events[e.id := EventPending]), Matching)
    case Matching =>
      if !e.completion || e.reference.None? then (inbox, Ended(true))
      else
        (match Payments.FindReference(inbox.db.intents, e.reference.value)
         case None => (inbox, Ended(true))
         case Some(i) => (inbox, if inbox.db.intents[i].status == Succeeded then Marking(i) else Settling(i)))
    case Settling(i) =>
      (inbox.(db := Next(inbox.db, SettlingStep(e, i))),
       if Attempt(inbox.db, SettlingStep(e, i)).Ok? then Marking(i) else Ended(true))
    case Marking(_) => (inbox.(events := inbox.events[e.id := EventProcessed]), Ended(true))
    case Ended(_) => (inbox, d.stage)
  }

  function HookNext(h: Hooks, step: HookStep): Hooks {
    match step
    case Elsewhere(step) => h.(inbox := h.inbox.(db := Next(h.inbox.db, step)))
    case Arrive(e) => h.(deliveries := h.deliveries + [Delivery(e, Arriving)])
    case Advance(k) =>
      if k >= |h.deliveries| then h
      else
        var d := h.deliveries[k];
        var (inbox, stage) := Staged(h.inbox, d);
        Hooks(inbox, h.deliveries[k := d.(stage := stage)])
  }

  function HookRun(steps: seq<HookStep>): Hooks {
    if steps == [] then Hooks(Inbox(EMPTY, map[]), [])
    else HookNext(HookRun(steps[..|steps| - 1]), steps[|steps| - 1])
  }

  /** A delivery nothing interrupts does what Record says. */
  lemma UninterruptedIsRecord(h: Hooks, e: Event)
    ensures var k := |h.deliveries|;
            var h1 := HookNext(HookNext(HookNext(h, Arrive(e)), Advance(k)), Advance(k));
            var h2 := HookNext(HookNext(HookNext(h1, Advance(k)), Advance(k)), Advance(k));
            h2.inbox == Record(h.inbox, e) && |h2.deliveries| == k + 1 && h2.deliveries[k].stage.Ended?
  {
    var k := |h.deliveries|;
    var arrived := HookNext(h, Arrive(e));
    var h1 := HookNext(HookNext(arrived, Advance(k)), Advance(k));
    if h1.deliveries[k].stage == Matching {
      MatchedIsApply(h1, k);
    }
  }

  lemma MatchedIsApply(h: Hooks, k: nat)
    requires k < |h.deliveries| && h.deliveries[k].stage == Matching
    ensures var h' := HookNext(HookNext(HookNext(h, Advance(k)), Advance(k)), Advance(k));
            h'.inbox == Apply(h.inbox, h.deliveries[k].event) && |h'.deliveries| == |h.deliveries|
            && h'.deliveries[k].stage.Ended?
  {
    StagesApply(h.inbox, h.deliveries[k].event);
  }

  lemma StagesApply(inbox: Inbox, e: Event)
    ensures var (inbox1, stage1) := Staged(inbox, Delivery(e, Matching));
            var (inbox2, stage2) := Staged(inbox1, Delivery(e, stage1));
            var (inbox3, stage3) := Staged(inbox2, Delivery(e, stage2));
            inbox3 == Apply(inbox, e) && stage3.Ended?
  {
    if e.completion && e.reference.Some? {
      var found := Payments.FindReference(inbox.db.intents, e.reference.value);
      if found.Some? && inbox.db.intents[found.value].status != Succeeded {
        SettlingApplies(inbox, e, found.value);
      }
    }
  }

  lemma SettlingApplies(inbox: Inbox, e: Event, i: nat)
    requires e.completion && e.reference.Some? && Payments.FindReference(inbox.db.intents, e.reference.value) == Some(i)
    requires inbox.db.intents[i].status != Succeeded
    ensures var (inbox2, stage2) := Staged(inbox, Delivery(e, Settling(i)));
            var (inbox3, stage3) := Staged(inbox2, Delivery(e, stage2));
            inbox3 == Apply(inbox, e) && stage3.Ended?
  {
  }

  // ----- Deliveries add no runs -------------------------------------------

  /** The platform steps an interleaving of deliveries amounts to. */
  function Underlying(steps: seq<HookStep>): seq<Step> {
    if steps == [] then []
    else
      var before, step := steps[..|steps| - 1], steps[|steps| - 1];
      Underlying(before) + Amounts(HookRun(before), step)
  }

  function Amounts(h: Hooks, step: HookStep): seq<Step> {
    match step
    case Elsewhere(step) => [step]
    case Arrive(_) => []
    case Advance(k) =>
      if k < |h.deliveries| && h.deliveries[k].stage.Settling?
      then [SettlingStep(h.deliveries[k].event, h.deliveries[k].stage.intent)] else []
  }

  lemma AmountsDb(h: Hooks, step: HookStep)
    ensures |Amounts(h, step)| <= 1
    ensures HookNext(h, step).inbox.db
         == if Amounts(h, step) == [] then h.inbox.db else Next(h.inbox.db, Amounts(h, step)[0])
  {
  }

  lemma {:induction false} OneMoreStep(db: Db, db': Db, more: seq<Step>, run: seq<Step>)
    requires db == Run(run) && |more| <= 1 && db' == if more == [] then db else Next(db, more[0])
    ensures db' == Run(run + more)
  {
    if more == [] {
      assert run + [] == run;
    } else {
      RunStep(run, more[0]);
      assert more == [more[0]];
    }
  }

  /**
   * However deliveries interleave with one another and with everything else,
   * the tables are those of a run of the platform, so every theorem about runs
   * holds of them.
   */
  lemma {:induction false} DeliveriesAreRuns(steps: seq<HookStep>)
    ensures HookRun(steps).inbox.db == Run(Underlying(steps))
    decreases |steps|
  {
    if steps != [] {
      var before, step := steps[..|steps| - 1], steps[|steps| - 1];
      DeliveriesAreRuns(before);
      var h := HookRun(before);
      AmountsDb(h, step);
      OneMoreStep(h.inbox.db, HookNext(h, step).inbox.db, Amounts(h, step), Underlying(before));
    }
  }

  /** Any interleaving of deliveries keeps ledger and tables in agreement. */
  lemma {:induction false} DeliveriesKeepTheBooks(steps: seq<HookStep>)
    ensures BooksOk(HookRun(steps).inbox.db)
  {
    DeliveriesAreRuns(steps);
    KeepingPayments.BooksKept(Underlying(steps));
  }

  /** Events under equal or different ids, interleaved at will, deposit an intent at most once. */
  lemma {:induction false} DepositedOnceOnly(steps: seq<HookStep>, i: nat)
    requires i < |HookRun(steps).inbox.db.intents| && HookRun(steps).inbox.db.intents[i].target.TopUp?
    ensures var db := HookRun(steps).inbox.db;
            && PaymentTheorems.AtMostOnce(db.ledger, SettlementKey(i))
            && (db.intents[i].status == Succeeded ==> HasKey(db.ledger, SettlementKey(i)))
  {
    DeliveriesAreRuns(steps);
    PaymentTheorems.DepositedExactlyOnce(Underlying(steps), i);
  }

  // ----- Each event is acted on by one delivery ---------------------------

  /** The delivery that wrote its event's row. */
  predicate Owns(d: Delivery) {
    d.stage.Matching? || d.stage.Settling? || d.stage.Marking? || d.stage == Ended(true)
  }

  /** Deposited by a delivery of a success: the posting is there, and stays. */
  ghost predicate DeliveryOk(h: Hooks, k: nat)
    requires k < |h.deliveries|
  {
    var d := h.deliveries[k];
    && (Owns(d) ==> d.event.id in h.inbox.events)
    && (d.stage == Matching ==> !d.event.stale)
    && (d.stage.Marking? && !d.event.failed ==> HasKey(h.inbox.db.ledger, SettlementKey(d.stage.intent)))
  }

  ghost predicate Rivals(d: Delivery, e: Delivery) { d.event.id == e.event.id ==> !Owns(d) || !Owns(e) }

  ghost predicate HooksOk(h: Hooks) {
    && (forall k :: 0 <= k < |h.deliveries| ==> DeliveryOk(h, k))
    && (forall j, k :: 0 <= j < k < |h.deliveries| ==> Rivals(h.deliveries[j], h.deliveries[k]))
  }

  lemma DepositedHasKey(db: Db, i: nat)
    requires RowsSane(db) && Attempt(db, Deposit(i)).Ok?
    ensures HasKey(Attempt(db, Deposit(i)).value.ledger, SettlementKey(i))
  {
    assert IntentSane(db, i);
    if db.intents[i].status != Succeeded {
      PostOutcome(db.ledger, SettlementKey(i), DepositEntries(db.intents[i]), ProviderPayable);
    }
  }

  lemma SucceededHasKey(db: Db, i: nat)
    requires RowsSane(db) && i < |db.intents| && db.intents[i].reference.Some? && db.intents[i].status == Succeeded
    ensures HasKey(db.ledger, SettlementKey(i))
  {
    assert IntentSane(db, i);
  }

  /** The other deliveries are none the wiser. */
  lemma OthersStay(h: Hooks, h': Hooks, k: nat)
    requires k < |h.deliveries| <= |h'.deliveries| && h'.deliveries[k] == h.deliveries[k] && DeliveryOk(h, k)
    requires h.inbox.db.ledger <= h'.inbox.db.ledger && h.inbox.events.Keys <= h'.inbox.events.Keys
    ensures DeliveryOk(h', k)
  {
    var d := h.deliveries[k];
    if d.stage.Marking? && !d.event.failed {
      PaymentTheorems.KeyStays(h.inbox.db.ledger, h'.inbox.db.ledger, SettlementKey(d.stage.intent));
    }
  }

  lemma AdvanceShape(h: Hooks, k: nat)
    requires k < |h.deliveries| && RowsSane(h.inbox.db)
    ensures var h' := HookNext(h, Advance(k));
            && h'.deliveries == h.deliveries[k := h'.deliveries[k]] && |h'.deliveries| == |h.deliveries|
            && h'.deliveries[k].event == h.deliveries[k].event
            && h.inbox.db.ledger <= h'.inbox.db.ledger && h.inbox.events.Keys <= h'.inbox.events.Keys
            && (Owns(h'.deliveries[k]) ==> Owns(h.deliveries[k]) || h.deliveries[k].event.id !in h.inbox.events)
  {
    if h.deliveries[k].stage.Settling? {
      PaymentTheorems.StepAppends(h.inbox.db, SettlingStep(h.deliveries[k].event, h.deliveries[k].stage.intent));
    }
  }

  lemma AdvancedOk(h: Hooks, k: nat)
    requires k < |h.deliveries| && RowsSane(h.inbox.db) && DeliveryOk(h, k)
    ensures |HookNext(h, Advance(k)).deliveries| == |h.deliveries| && DeliveryOk(HookNext(h, Advance(k)), k)
  {
    var d, db := h.deliveries[k], h.inbox.db;
    AdvanceShape(h, k);
    match d.stage
    case Matching =>
      if d.event.completion && d.event.reference.Some? {
        var found := Payments.FindReference(db.intents, d.event.reference.value);
        if found.Some? && db.intents[found.value].status == Succeeded {
          SucceededHasKey(db, found.value);
        }
      }
    case Settling(i) =>
      if !d.event.failed && Attempt(db, Deposit(i)).Ok? {
        DepositedHasKey(db, i);
      }
    case _ =>
  }

  lemma AdvanceKeeps(h: Hooks, k: nat)
    requires HooksOk(h) && RowsSane(h.inbox.db) && k < |h.deliveries|
    ensures HooksOk(HookNext(h, Advance(k)))
  {
    var h' := HookNext(h, Advance(k));
    AdvanceShape(h, k);
    AdvancedOk(h, k);
    forall j | 0 <= j < |h'.deliveries|
      ensures DeliveryOk(h', j) && (j != k ==> Rivals(h'.deliveries[j], h'.deliveries[k]))
    {
      assert DeliveryOk(h, j) && DeliveryOk(h, k);
      if j != k {
        OthersStay(h, h', j);
        assert Rivals(h.deliveries[j], h.deliveries[k]) || Rivals(h.deliveries[k], h.deliveries[j]);
      }
    }
  }

  lemma {:induction false} HooksKept(steps: seq<HookStep>)
    ensures HooksOk(HookRun(steps))
    decreases |steps|
  {
    if steps != [] {
      var before, step := steps[..|steps| - 1], steps[|steps| - 1];
      var h, h' := HookRun(before), HookRun(steps);
      HooksKept(before);
      DeliveriesKeepTheBooks(before);
      if step.Advance? {
        if step.delivery < |h.deliveries| {
          AdvanceKeeps(h, step.delivery);
        }
      } else {
        if step.Elsewhere? {
          PaymentTheorems.StepAppends(h.inbox.db, step.step);
        }
        forall k | 0 <= k < |h.deliveries| ensures DeliveryOk(h', k) {
          OthersStay(h, h', k);
        }
      }
    }
  }

  /**
   * However deliveries of one event race, one of them writes its row and goes
   * on, and an event of a success is marked only once its deposit is posted.
   */
  lemma {:induction false} OneDeliveryActs(steps: seq<HookStep>, j: nat, k: nat)
    requires j < |HookRun(steps).deliveries| && k < |HookRun(steps).deliveries|
    ensures var d, e := HookRun(steps).deliveries[j], HookRun(steps).deliveries[k];
            && (Owns(d) && Owns(e) && d.event.id == e.event.id ==> j == k)
            && (d.stage.Marking? && !d.event.failed ==>
                  HasKey(HookRun(steps).inbox.db.ledger, SettlementKey(d.stage.intent)))
  {
    HooksKept(steps);
    var h := HookRun(steps);
    assert DeliveryOk(h, j);
    assert j < k ==> Rivals(h.deliveries[j], h.deliveries[k]);
    assert k < j ==> Rivals(h.deliveries[k], h.deliveries[j]);
  }

  // ----- Redelivery -------------------------------------------------------

  lemma {:induction false} EventsStay(steps: seq<HookStep>, more: seq<HookStep>, id: nat)
    requires id in HookRun(steps).inbox.events
    ensures id in HookRun(steps + more).inbox.events
    decreases |more|
  {
    if more == [] {
      assert steps + more == steps;
    } else {
      var last := |more| - 1;
      assert (steps + more)[..|steps + more| - 1] == steps + more[..last];
      EventsStay(steps, more[..last], id);
    }
  }

  /**
   * Once an event's row exists a delivery of it, early or late in its course,
   * can only end: whatever became of the first, it is not tried again.
   */
  lemma {:induction false} RedeliveryIsIgnored(steps: seq<HookStep>, more: seq<HookStep>, k: nat)
    requires k < |HookRun(steps + more).deliveries|
    requires HookRun(steps + more).deliveries[k].event.id in HookRun(steps).inbox.events
    requires HookRun(steps + more).deliveries[k].stage == Arriving || HookRun(steps + more).deliveries[k].stage == Recording
    ensures var h := HookRun(steps + more);
            HookRun(steps + more + [Advance(k)])
              == h.(deliveries := h.deliveries[k := h.deliveries[k].(stage := Ended(false))])
  {
    EventsStay(steps, more, HookRun(steps + more).deliveries[k].event.id);
    assert (steps + more + [Advance(k)])[..|steps + more|] == steps + more;
  }
}
