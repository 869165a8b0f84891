/** A run in which two deliveries cross: the money is credited and the deposit is called FAILED. */
module LateFailure {
  import opened Prelude
  import opened Ledger
  import opened Tables
  import opened Machine
  import opened Webhooks
  import FlippedVerdict

  const FAILURE: Event := Event(1, true, true, Some(7), false)
  const SUCCESS: Event := Event(2, true, false, Some(7), false)

  /** A deposit is charged. */
  function Charging(): seq<HookStep> {
    [Elsewhere(FlippedVerdict.Funding()[0]), Elsewhere(FlippedVerdict.Funding()[1]), Elsewhere(FlippedVerdict.Funding()[2])]
  }

  /** A failure event finds the intent unsettled; a success event is delivered whole; the failure is then written. */
  function Crossing(): seq<HookStep> {
    [Arrive(FAILURE), Advance(0), Advance(0), Advance(0),
     Arrive(SUCCESS), Advance(1), Advance(1), Advance(1), Advance(1), Advance(1), Advance(0)]
  }

  function Whole(): seq<HookStep> { Charging() + Crossing() }

  lemma {:induction false} HookRunStep(steps: seq<HookStep>, step: HookStep)
    ensures HookRun(steps + [step]) == HookNext(HookRun(steps), step)
  {
    assert (steps + [step])[..|steps|] == steps;
  }

  lemma ChargedHooks()
    ensures HookRun(Charging()) == Hooks(Inbox(Run(FlippedVerdict.Funding()[..3]), map[]), [])
  {
    var s, t := FlippedVerdict.Funding(), Charging();
    assert [] + [t[0]] == t[..1] && t[..1] + [t[1]] == t[..2] && t[..2] + [t[2]] == t;
    assert [] + [s[0]] == s[..1] && s[..1] + [s[1]] == s[..2] && s[..2] + [s[2]] == s[..3];
    HookRunStep([], t[0]);
    HookRunStep(t[..1], t[1]);
    HookRunStep(t[..2], t[2]);
    RunStep([], s[0]);
    RunStep(s[..1], s[1]);
    RunStep(s[..2], s[2]);
  }

  /** A deposit that has been charged under the reference both events carry. */
  ghost predicate Charged(db: Db) {
    && |db.intents| == 1 && db.intents[0].reference == Some(7) && db.intents[0].status == Processing
    && Attempt(db, Deposit(0)).Ok?
  }

  /** The failure has looked the intent up and not yet written. */
  lemma FailureFinds(h: Hooks)
    requires Charged(h.inbox.db) && h.inbox.events == map[] && h.deliveries == []
    ensures var h' := HookNext(HookNext(HookNext(HookNext(h, Arrive(FAILURE)), Advance(0)), Advance(0)), Advance(0));
            h' == Hooks(Inbox(h.inbox.db, map[1 := EventPending]), [Delivery(FAILURE, Settling(0))])
  {
  }

  /** The success runs from its arrival to its end. */
  lemma SuccessSettles(h: Hooks)
    requires Charged(h.inbox.db) && h.inbox.events == map[1 := EventPending]
    requires h.deliveries == [Delivery(FAILURE, Settling(0))]
    ensures var h1 := HookNext(HookNext(HookNext(h, Arrive(SUCCESS)), Advance(1)), Advance(1));
            var h2 := HookNext(HookNext(HookNext(h1, Advance(1)), Advance(1)), Advance(1));
            h2 == Hooks(Inbox(Next(h.inbox.db, Deposit(0)), map[1 := EventPending, 2 := EventProcessed]),
                        [Delivery(FAILURE, Settling(0)), Delivery(SUCCESS, Ended(true))])
  {
    var h1 := HookNext(HookNext(HookNext(h, Arrive(SUCCESS)), Advance(1)), Advance(1));
    assert h1 == Hooks(Inbox(h.inbox.db, map[1 := EventPending, 2 := EventPending]),
                       [Delivery(FAILURE, Settling(0)), Delivery(SUCCESS, Matching)]);
    var h2 := HookNext(h1, Advance(1));
    assert h2 == h1.(deliveries := [Delivery(FAILURE, Settling(0)), Delivery(SUCCESS, Settling(0))]);
  }

  lemma {:induction false} ElevenSteps(s: seq<HookStep>)
    ensures var t, h := Crossing(), HookRun(s);
            var h1 := HookNext(HookNext(HookNext(HookNext(h, t[0]), t[1]), t[2]), t[3]);
            var h2 := HookNext(HookNext(HookNext(HookNext(HookNext(HookNext(h1, t[4]), t[5]), t[6]), t[7]), t[8]), t[9]);
            HookRun(s + t) == HookNext(h2, t[10])
  {
    var t := Crossing();
    SplitRun(s, t, 10);
  }

  /** One step at a time, from the back. */
  lemma {:induction false} SplitRun(s: seq<HookStep>, t: seq<HookStep>, k: nat)
    requires k < |t|
    ensures forall j :: 0 <= j <= k ==> HookRun(s + t[..j + 1]) == HookNext(HookRun(s + t[..j]), t[j])
    ensures s + t[..0] == s && t[..|t|] == t
  {
    forall j | 0 <= j <= k ensures HookRun(s + t[..j + 1]) == HookNext(HookRun(s + t[..j]), t[j]) {
      assert s + t[..j + 1] == (s + t[..j]) + [t[j]];
      HookRunStep(s + t[..j], t[j]);
    }
  }

  lemma {:induction false} Crossed(s: seq<HookStep>, db: Db)
    requires HookRun(s) == Hooks(Inbox(db, map[]), []) && Charged(db)
    ensures HookRun(s + Crossing()).inbox.db == Next(Next(db, Deposit(0)), FailureWrite(0))
  {
    var h := HookRun(s);
    FailureFinds(h);
    SuccessSettles(HookNext(HookNext(HookNext(HookNext(h, Arrive(FAILURE)), Advance(0)), Advance(0)), Advance(0)));
    ElevenSteps(s);
  }

  lemma WrittenFailed(db: Db)
    requires |db.intents| == 1 && db.intents[0].reference.Some?
    ensures Next(db, FailureWrite(0)) == db.(intents := [db.intents[0].(status := FailedIntent)])
  {
  }

  lemma CreditedThenFailed(db: Db)
    requires db.ledger == [] && |db.intents| == 1 && db.intents[0].amount == FlippedVerdict.DEPOSIT
    requires db.intents[0].fee == 0 && db.intents[0].user == 0 && db.intents[0].status == Processing
    requires db.intents[0].reference == Some(7) && 0 in db.wallets
    ensures Charged(db)
    ensures var db' := Next(Next(db, Deposit(0)), FailureWrite(0));
            && |db'.intents| == 1 && db'.intents[0].status == FailedIntent && db'.intents[0].txn.Some?
            && HasKey(db'.ledger, SettlementKey(0)) && Balance(db'.ledger, Available(0)) == FlippedVerdict.DEPOSIT
  {
    FlippedVerdict.DepositPosted(db);
    WrittenFailed(Next(db, Deposit(0)));
    assert Next(db, Deposit(0)).ledger[0].key == SettlementKey(0);
  }

  /**
   * The failure event reads the intent before the success event settles it and
   * writes afterwards. The wallet keeps the money, the posting stands, and the
   * intent is FAILED.
   */
  lemma CreditedAndFailed()
    ensures var db := HookRun(Whole()).inbox.db;
            && |db.intents| == 1 && db.intents[0].status == FailedIntent && db.intents[0].txn.Some?
            && HasKey(db.ledger, SettlementKey(0))
            && Balance(db.ledger, Available(0)) == FlippedVerdict.DEPOSIT
  {
    ChargedHooks();
    FlippedVerdict.Started();
    var db := Run(FlippedVerdict.Funding()[..3]);
    CreditedThenFailed(db);
    Crossed(Charging(), db);
  }
}
