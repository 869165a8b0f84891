/** A run in which the provider changes its mind, and what it costs. */
module FlippedVerdict {
  import opened Prelude
  import opened Ledger
  import opened Tables
  import opened Machine
  import Bills
  import BillTheorems
  import Payments

  const DEPOSIT: int := 60_000
  const PRICE: int := 100

  function Request(): Bills.BillRequest { Bills.BillRequest(PRICE, Client(1), 9, true, true, Some(0)) }

  /** A wallet is funded and a bill reserved. */
  function Funding(): seq<Step> {
    [OpenWallet(0), InsertIntent(0, TopUp, DEPOSIT, 0, 1), Charge(0, 7), Deposit(0), ReserveBill(0, Request())]
  }

  /** The provider reports a failure, a late timeout handler overwrites it, and a success follows. */
  function ChangeOfMind(): seq<Step> {
    [Answered(0, Bills.SaysFailed), CallFailed(0), Answered(0, Bills.SaysSuccessful)]
  }

  lemma DepositBalance(l: Book, i: Intent)
    requires l == [NewTxn(SettlementKey(0), DepositEntries(i))] && i.fee == 0
    ensures Balance(l, Available(i.user)) == i.amount
    ensures Balanced(DepositEntries(i)) <==> i.amount > 0
  {
    var x, y := Dr(ProviderPayable, i.amount), Cr(Available(i.user), i.amount);
    assert DepositEntries(i) == [x, y];
    EffectPair(x, y, Available(i.user));
    PairBalanced(ProviderPayable, Available(i.user), i.amount);
    SumAppend([], l[0], PostedEffect(Available(i.user)));
    assert [] + [l[0]] == l;
  }

  lemma Started()
    ensures var db := Run(Funding()[..3]);
            && db.now == 0 && db.wallets == map[0 := true] && db.bills == [] && db.ledger == []
            && db.groups == [] && db.contributions == [] && db.payouts == []
            && db.programmes == [] && db.subscriptions == [] && db.transfers == []
            && db.intents == [Intent(0, true, TopUp, DEPOSIT, 0, Processing, 1, Payments.INTENT_TTL, Some(7), None)]
  {
    var s := Funding();
    RunStep([], s[0]);
    RunStep(s[..1], s[1]);
    RunStep(s[..2], s[2]);
    assert [] + [s[0]] == s[..1] && s[..1] + [s[1]] == s[..2] && s[..2] + [s[2]] == s[..3];
  }

  lemma Funded()
    ensures var db := Run(Funding()[..4]);
            && db.now == 0 && db.wallets == map[0 := true] && db.bills == []
            && db.groups == [] && db.contributions == [] && db.payouts == []
            && db.programmes == [] && db.subscriptions == [] && db.transfers == []
            && |db.intents| == 1 && db.intents[0].request == 1
            && Balance(db.ledger, Available(0)) == DEPOSIT
            && |db.ledger| == 1 && db.ledger[0].key == SettlementKey(0)
  {
    Started();
    var s := Funding();
    assert s[..3] + [Deposit(0)] == s[..4];
    DepositPosted(Run(s[..3]));
    AcceptedStep(s[..3], Deposit(0), Payments.SettleDeposit(Run(s[..3]), 0).value);
  }

  lemma DepositPosted(db: Db)
    requires db.ledger == [] && |db.intents| == 1 && db.intents[0].amount == DEPOSIT && db.intents[0].fee == 0
    requires db.intents[0].user == 0 && db.intents[0].status == Processing && db.intents[0].reference.Some?
    requires 0 in db.wallets
    ensures Payments.SettleDeposit(db, 0).Ok?
    ensures var db' := Payments.SettleDeposit(db, 0).value;
            && db' == db.(ledger := db'.ledger, intents := db'.intents)
            && |db'.intents| == 1 && db'.intents[0] == db.intents[0].(status := Succeeded, txn := Some(0))
            && |db'.ledger| == 1 && db'.ledger[0].key == SettlementKey(0)
            && Balance(db'.ledger, Available(0)) == DEPOSIT
  {
    var i := db.intents[0];
    DepositBalance([NewTxn(SettlementKey(0), DepositEntries(i))], i);
    assert [] + [NewTxn(SettlementKey(0), DepositEntries(i))] == [NewTxn(SettlementKey(0), DepositEntries(i))];
  }

  lemma Reservable(db: Db)
    requires db.wallets == map[0 := true] && db.bills == [] && Balance(db.ledger, Available(0)) == DEPOSIT
    requires |db.ledger| == 1 && db.ledger[0].key == SettlementKey(0)
    ensures Bills.CreateBill(db, 0, Request()).Ok?
    ensures var db' := Bills.CreateBill(db, 0, Request()).value;
            |db'.bills| == 1 && db'.bills[0] == Bills.NewBill(0, PRICE, 0, Client(1), Some(9), None, 1)
  {
    PairBalanced(Available(0), Reserved(0), PRICE);
    assert !HasKey(db.ledger, BillReserve(0));
  }

  lemma ReservedRow()
    ensures var db := Run(Funding());
            |db.bills| == 1 && db.bills[0] == Bills.NewBill(0, PRICE, 0, Client(1), Some(9), None, 1)
  {
    Funded();
    var s := Funding();
    assert s[..4] + [ReserveBill(0, Request())] == s;
    Reservable(Run(s[..4]));
    AcceptedStep(s[..4], ReserveBill(0, Request()), CreateTx(Run(s[..4]), 0, Request()).value);
  }

  lemma FailedRow()
    ensures var db := Run(Funding() + ChangeOfMind()[..1]);
            && |db.bills| == 1 && db.bills[0].user == 0 && db.bills[0].amount == PRICE && db.bills[0].fee == 0
            && db.bills[0].settled.None? && db.bills[0].released.Some?
  {
    ReservedRow();
    var s, t := Funding(), ChangeOfMind();
    assert s + t[..1] == s + [Answered(0, Bills.SaysFailed)];
    FailureReleases(Run(s));
    AcceptedStep(s, Answered(0, Bills.SaysFailed), Bills.ApplyAnswer(Run(s), 0, Bills.SaysFailed).value);
  }

  lemma FailureReleases(db: Db)
    requires |db.bills| == 1 && db.bills[0] == Bills.NewBill(0, PRICE, 0, Client(1), Some(9), None, 1)
    ensures Bills.ApplyAnswer(db, 0, Bills.SaysFailed).Ok?
    ensures var row := Bills.ApplyAnswer(db, 0, Bills.SaysFailed).value.bills[0];
            |Bills.ApplyAnswer(db, 0, Bills.SaysFailed).value.bills| == 1
            && row == db.bills[0].(status := BillFailed, released := row.released) && row.released.Some?
  {
    PairBalanced(Reserved(0), Available(0), PRICE);
  }

  lemma UncertainRow()
    ensures var db := Run(Funding() + ChangeOfMind()[..2]);
            && |db.bills| == 1 && db.bills[0].user == 0 && db.bills[0].amount == PRICE && db.bills[0].fee == 0
            && db.bills[0].released.Some? && Bills.AwaitsVerdict(db.bills[0])
  {
    FailedRow();
    var s, t := Funding(), ChangeOfMind();
    RunStep(s + t[..1], t[1]);
    assert s + t[..2] == s + t[..1] + [t[1]];
  }

  lemma AnswerKeepsTerms(db: Db, b: nat, answer: Bills.Answer)
    requires b < |db.bills|
    ensures var db' := Next(db, Answered(b, answer));
            && |db'.bills| == |db.bills| && db'.bills[b].user == db.bills[b].user
            && db'.bills[b].amount == db.bills[b].amount && db'.bills[b].fee == db.bills[b].fee
  {
  }

  /**
   * After the failure is posted and then overwritten as uncertain, a success
   * is posted as well: one bill, both endings, and the reserve overdrawn by
   * its price.
   */
  lemma ProviderChangesItsMind()
    ensures var steps := Funding() + ChangeOfMind();
            && BillTheorems.EverFlips(steps, 0)
            && |Run(steps).bills| == 1 && BillTheorems.BothVerdicts(Run(steps).bills[0])
            && BillNet(Reserved(0))(Run(steps).bills[0]) == -PRICE
  {
    UncertainRow();
    var s, t := Funding(), ChangeOfMind();
    var steps, before := s + t, s + t[..2];
    RunStep(before, t[2]);
    assert steps == before + [t[2]] && steps[..7] == before;
    AnswerKeepsTerms(Run(before), 0, Bills.SaysSuccessful);
    assert BillTheorems.FlipsAfter(0)(steps[..7], steps[7]);
    BillTheorems.BothVerdictsIffFlipped(steps, 0);
    BillTheorems.TwoVerdictsOverdrawReserve(Run(steps).bills[0]);
  }
}
