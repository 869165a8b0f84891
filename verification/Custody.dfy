/** What each account holds, in terms of the product rows alone. */
module Custody {
  import opened Prelude
  import opened Ledger
  import opened Tables
  import opened Books
  import BillTheorems
  import GroupMoney
  import KeepingPayments
  import Machine

  function Nothing<T>(): T -> int { (row: T) => 0 }

  // ----- Tables that leave an account alone -------------------------------

  /** Entries do nothing to an account none of them names. */
  lemma NoEntryNoEffect(entries: seq<Entry>, a: Account)
    requires forall e :: e in entries ==> e.account != a
    ensures Effect(entries, a) == 0
  {
    SumZero(entries, SignedOn(a));
  }

  lemma {:induction false} BillsOff(bills: seq<Bill>, a: Account)
    requires a.Pool? || a.Escrow?
    ensures Sum(bills, BillNet(a)) == 0
  {
    forall b | b in bills ensures BillNet(a)(b) == 0 {
      NoEntryNoEffect(ReserveEntries(b), a);
      NoEntryNoEffect(SettleEntries(b), a);
      NoEntryNoEffect(ReleaseEntries(b), a);
      NoEntryNoEffect(ReversalEntries(b), a);
    }
    SumZero(bills, BillNet(a));
  }

  lemma {:induction false} MovementsOff(db: Db, a: Account)
    requires !a.Available?
    ensures Sum(db.transfers, TransferNet(a)) == 0
    ensures !a.Reserved? ==> Sum(db.withdrawals, WithdrawalNet(a)) == 0
  {
    forall t | t in db.transfers ensures TransferNet(a)(t) == 0 {
      NoEntryNoEffect(TransferEntries(t), a);
    }
    SumZero(db.transfers, TransferNet(a));
    if !a.Reserved? {
      forall w | w in db.withdrawals ensures WithdrawalNet(a)(w) == 0 {
        NoEntryNoEffect(WithdrawalEntries(w), a);
      }
      SumZero(db.withdrawals, WithdrawalNet(a));
    }
  }

  lemma {:induction false} PoolsOff(db: Db, a: Account)
    requires !a.Available? && !a.Pool?
    ensures Sum(db.contributions, ContributionNet(a)) == 0 && Sum(db.payouts, PayoutNet(a)) == 0
  {
    forall c | c in db.contributions ensures ContributionNet(a)(c) == 0 {
      NoEntryNoEffect(ContributionEntries(c), a);
    }
    SumZero(db.contributions, ContributionNet(a));
    forall p | p in db.payouts ensures PayoutNet(a)(p) == 0 {
      NoEntryNoEffect(PayoutEntries(p), a);
    }
    SumZero(db.payouts, PayoutNet(a));
  }

  lemma {:induction false} EnrolmentsOff(subscriptions: seq<Subscription>, a: Account)
    requires !a.Available? && !a.Escrow?
    ensures Sum(subscriptions, SubscriptionNet(a)) == 0
  {
    forall s | s in subscriptions ensures SubscriptionNet(a)(s) == 0 {
      NoEntryNoEffect(HeldEntries(s), a);
    }
    SumZero(subscriptions, SubscriptionNet(a));
  }

  lemma {:induction false} DepositsOff(intents: seq<Intent>, a: Account)
    requires !a.Available? && a != ProviderPayable && a != FeeRevenue
    ensures Sum(intents, DepositNet(a)) == 0
  {
    forall i | i in intents ensures DepositNet(a)(i) == 0 {
      NoEntryNoEffect(DepositEntries(i), a);
    }
    SumZero(intents, DepositNet(a));
  }

  // ----- Pools ------------------------------------------------------------

  /** A group's pool is its contributions less its payouts. */
  lemma PoolIsContributionsLessPayouts(db: Db, group: nat)
    requires BooksOk(db)
    ensures Balance(db.ledger, Pool(group))
         == Sum(db.contributions, GroupMoney.IntoGroup(group)) - Sum(db.payouts, GroupMoney.OutOfGroup(group))
  {
    var a := Pool(group);
    BillsOff(db.bills, a);
    MovementsOff(db, a);
    EnrolmentsOff(db.subscriptions, a);
    DepositsOff(db.intents, a);
    forall c | c in db.contributions ensures ContributionNet(a)(c) == GroupMoney.IntoGroup(group)(c) {
      PairEffect(Available(c.payer), Pool(c.group), c.amount, a);
    }
    SumSame(db.contributions, ContributionNet(a), GroupMoney.IntoGroup(group));
    forall p | p in db.payouts ensures PayoutNet(a)(p) == 0 - GroupMoney.OutOfGroup(group)(p) {
      PairEffect(Pool(p.group), Available(p.recipient), p.amount, a);
    }
    SumDifference(db.payouts, PayoutNet(a), Nothing(), GroupMoney.OutOfGroup(group));
    SumZero(db.payouts, Nothing());
  }

  // ----- Reserved money ---------------------------------------------------

  function WithdrawnBy(user: nat): Withdrawal -> int {
    (w: Withdrawal) => if w.user == user then w.amount else 0
  }

  /** What a bill has in reserve: its debit, until a verdict takes it out again. */
  function HeldFor(user: nat): Bill -> int {
    (b: Bill) => if b.user == user then BillTheorems.BillHolds(b) else 0
  }

  /** What a bill met by both verdicts has taken out of reserve once too often. */
  function TakenTwice(user: nat): Bill -> int {
    (b: Bill) => if b.user == user && BillTheorems.BothVerdicts(b) then TotalDebit(b) else 0
  }

  lemma ReservedNet(b: Bill, user: nat)
    requires b.amount > 0 && b.fee >= 0 && (b.reversed.Some? ==> b.settled.Some?)
    ensures BillNet(Reserved(user))(b) == HeldFor(user)(b) - TakenTwice(user)(b)
  {
    if b.user != user {
      NoEntryNoEffect(ReserveEntries(b), Reserved(user));
      NoEntryNoEffect(SettleEntries(b), Reserved(user));
      NoEntryNoEffect(ReleaseEntries(b), Reserved(user));
      NoEntryNoEffect(ReversalEntries(b), Reserved(user));
    } else if BillTheorems.BothVerdicts(b) {
      BillTheorems.TwoVerdictsOverdrawReserve(b);
    } else {
      BillTheorems.EndingEffects(b, Reserved(user));
    }
  }

  /** A wallet's reserve is its undecided bills and its withdrawals, less what second verdicts took. */
  lemma ReservedIsHeldBillsAndWithdrawals(db: Db, user: nat)
    requires BooksOk(db)
    ensures Balance(db.ledger, Reserved(user))
         == Sum(db.bills, HeldFor(user)) + Sum(db.withdrawals, WithdrawnBy(user)) - Sum(db.bills, TakenTwice(user))
  {
    var a := Reserved(user);
    MovementsOff(db, a);
    PoolsOff(db, a);
    EnrolmentsOff(db.subscriptions, a);
    DepositsOff(db.intents, a);
    forall b | b in db.bills ensures BillNet(a)(b) == HeldFor(user)(b) - TakenTwice(user)(b) {
      var k :| 0 <= k < |db.bills| && db.bills[k] == b;
      assert BillSane(db, k);
      ReservedNet(b, user);
    }
    SumDifference(db.bills, BillNet(a), HeldFor(user), TakenTwice(user));
    forall w | w in db.withdrawals ensures WithdrawalNet(a)(w) == WithdrawnBy(user)(w) {
      PairEffect(Available(w.user), Reserved(w.user), w.amount, a);
    }
    SumSame(db.withdrawals, WithdrawalNet(a), WithdrawnBy(user));
  }

  /** None of the wallet's bills met both verdicts. */
  ghost predicate DecidedOnce(db: Db, user: nat) {
    forall b :: 0 <= b < |db.bills| && db.bills[b].user == user ==> !BillTheorems.BothVerdicts(db.bills[b])
  }

  /** Nothing is taken twice iff none of the wallet's bills met both verdicts. */
  lemma NothingTakenTwiceIff(db: Db, user: nat)
    requires RowsSane(db)
    ensures Sum(db.bills, TakenTwice(user)) == 0 <==> DecidedOnce(db, user)
  {
    forall b | b in db.bills ensures TakenTwice(user)(b) >= 0 {
      var k :| 0 <= k < |db.bills| && db.bills[k] == b;
      assert BillSane(db, k);
    }
    if DecidedOnce(db, user) {
      SumZero(db.bills, TakenTwice(user));
    } else {
      var b: nat :| b < |db.bills| && db.bills[b].user == user && BillTheorems.BothVerdicts(db.bills[b]);
      assert BillSane(db, b);
      SumZeroOnly(db.bills, TakenTwice(user), b);
    }
  }

  // ----- Escrow -----------------------------------------------------------

  function PaidTo(programme: nat): Subscription -> int {
    (s: Subscription) => if s.programme == programme then s.paid else 0
  }

  /** What withdrawals that posted nothing left behind. */
  function StrandedIn(programme: nat): Subscription -> int {
    (s: Subscription) => if s.programme == programme then s.stranded else 0
  }

  /** A programme's escrow is what its subscriptions have paid and what withdrawals stranded; neither is negative. */
  lemma EscrowIsWhatWasPaid(db: Db, programme: nat)
    requires BooksOk(db)
    ensures Balance(db.ledger, Escrow(programme))
         == Sum(db.subscriptions, PaidTo(programme)) + Sum(db.subscriptions, StrandedIn(programme))
    ensures Sum(db.subscriptions, PaidTo(programme)) >= 0 && Sum(db.subscriptions, StrandedIn(programme)) >= 0
  {
    var a := Escrow(programme);
    BillsOff(db.bills, a);
    MovementsOff(db, a);
    PoolsOff(db, a);
    DepositsOff(db.intents, a);
    EnrolmentsHold(db, programme);
  }

  lemma EnrolmentsHold(db: Db, programme: nat)
    requires RowsSane(db)
    ensures Sum(db.subscriptions, SubscriptionNet(Escrow(programme)))
         == Sum(db.subscriptions, PaidTo(programme)) + Sum(db.subscriptions, StrandedIn(programme))
    ensures Sum(db.subscriptions, PaidTo(programme)) >= 0 && Sum(db.subscriptions, StrandedIn(programme)) >= 0
  {
    var a := Escrow(programme);
    forall s | s in db.subscriptions
      ensures SubscriptionNet(a)(s) == PaidTo(programme)(s) + StrandedIn(programme)(s)
      ensures PaidTo(programme)(s) >= 0 && StrandedIn(programme)(s) >= 0
    {
      var k :| 0 <= k < |db.subscriptions| && db.subscriptions[k] == s;
      assert SubscriptionSane(db.subscriptions[k], db.now);
      PairEffect(Available(s.user), Escrow(s.programme), s.paid + s.stranded, a);
    }
    SumPlus(db.subscriptions, SubscriptionNet(a), PaidTo(programme), StrandedIn(programme));
    SumNonNegative(db.subscriptions, PaidTo(programme));
    SumNonNegative(db.subscriptions, StrandedIn(programme));
  }

  // ----- The provider and fee accounts ------------------------------------

  function DepositedBy(): Intent -> int {
    (i: Intent) => if i.target.TopUp? && i.txn.Some? then i.amount else 0
  }
  /** What the provider is owed for a bill: its amount once settled, nothing again once reversed. */
  function ProviderGets(): Bill -> int {
    (b: Bill) => (if b.settled.Some? then b.amount else 0) - (if b.reversed.Some? then b.amount else 0)
  }

  lemma ProviderNets(b: Bill)
    requires b.fee >= 0
    ensures BillNet(ProviderPayable)(b) == ProviderGets()(b)
  {
    PairEffect(Available(b.user), Reserved(b.user), TotalDebit(b), ProviderPayable);
    PairEffect(Reserved(b.user), Available(b.user), TotalDebit(b), ProviderPayable);
    BillTheorems.SettleEffect(b, ProviderPayable);
    BillTheorems.ReversalEffect(b, ProviderPayable);
  }

  lemma DepositEffect(i: Intent, a: Account)
    requires i.fee >= 0
    ensures Effect(DepositEntries(i), a) == (if a == Available(i.user) then i.amount - i.fee else 0)
          + (if a == FeeRevenue then i.fee else 0) - (if a == ProviderPayable then i.amount else 0)
  {
    var debit, credit, fee := Dr(ProviderPayable, i.amount), Cr(Available(i.user), i.amount - i.fee), Cr(FeeRevenue, i.fee);
    if i.fee == 0 {
      EffectPair(debit, credit, a);
      assert DepositEntries(i) == [debit, credit];
    } else {
      EffectTriple(debit, credit, fee, a);
      assert DepositEntries(i) == [debit, credit, fee];
    }
  }

  /** The provider account is bills settled and not reversed, less deposits. */
  lemma ProviderIsBillsLessDeposits(db: Db)
    requires BooksOk(db)
    ensures Balance(db.ledger, ProviderPayable) == Sum(db.bills, ProviderGets()) - Sum(db.intents, DepositedBy())
  {
    var a := ProviderPayable;
    MovementsOff(db, a);
    PoolsOff(db, a);
    EnrolmentsOff(db.subscriptions, a);
    forall b | b in db.bills ensures BillNet(a)(b) == ProviderGets()(b) {
      var k :| 0 <= k < |db.bills| && db.bills[k] == b;
      assert BillSane(db, k);
      ProviderNets(b);
    }
    SumSame(db.bills, BillNet(a), ProviderGets());
    forall i | i in db.intents ensures DepositNet(a)(i) == Nothing()(i) - DepositedBy()(i) {
      var k :| 0 <= k < |db.intents| && db.intents[k] == i;
      assert IntentSane(db, k);
      DepositEffect(i, a);
    }
    SumDifference(db.intents, DepositNet(a), Nothing(), DepositedBy());
    SumZero(db.intents, Nothing<Intent>());
  }

  // ----- All the accounts of a ledger -------------------------------------

  /** The accounts already known and those the entries name, once each. */
  function Named(known: seq<Account>, entries: seq<Entry>): (accounts: seq<Account>)
    ensures forall a :: a in known ==> a in accounts
    ensures Covers(accounts, entries)
    ensures Distinct(known) ==> Distinct(accounts)
  {
    if entries == [] then known
    else
      var rest, a := Named(known, entries[..|entries| - 1]), entries[|entries| - 1].account;
      if a in rest then rest else rest + [a]
  }

  /** Every account the ledger mentions, once each. */
  function AccountsOf(l: Book): (accounts: seq<Account>)
    ensures Distinct(accounts)
    ensures forall t :: 0 <= t < |l| ==> Covers(accounts, l[t].entries)
  {
    if l == [] then [] else Named(AccountsOf(l[..|l| - 1]), l[|l| - 1].entries)
  }

  lemma {:induction false} UnnamedIsEmpty(l: Book, a: Account)
    requires forall t :: 0 <= t < |l| ==> forall e :: e in l[t].entries ==> e.account != a
    ensures Balance(l, a) == 0
    decreases |l|
  {
    if l != [] {
      UnnamedIsEmpty(l[..|l| - 1], a);
      NoEntryNoEffect(l[|l| - 1].entries, a);
    }
  }

  function HeldOutsideProvider(l: Book): Account -> int {
    (a: Account) => if a == ProviderPayable then 0 else Balance(l, a)
  }
  function HeldWithProvider(l: Book): Account -> int {
    (a: Account) => if a == ProviderPayable then Balance(l, ProviderPayable) else 0
  }

  lemma {:induction false} ProviderListedOnce(l: Book, accounts: seq<Account>)
    requires Distinct(accounts)
    ensures Sum(accounts, HeldWithProvider(l)) == if ProviderPayable in accounts then Balance(l, ProviderPayable) else 0
    decreases |accounts|
  {
    if accounts != [] {
      var last := |accounts| - 1;
      ProviderListedOnce(l, accounts[..last]);
      assert ProviderPayable in accounts <==> ProviderPayable in accounts[..last] || accounts[last] == ProviderPayable;
    }
  }

  lemma {:induction false} HeldElsewhere(l: Book)
    ensures Sum(AccountsOf(l), BalanceOf(l)) == Sum(AccountsOf(l), HeldOutsideProvider(l)) + Balance(l, ProviderPayable)
  {
    var accounts := AccountsOf(l);
    SumPlus(accounts, BalanceOf(l), HeldOutsideProvider(l), HeldWithProvider(l));
    ProviderListedOnce(l, accounts);
    if ProviderPayable !in accounts {
      UnnamedIsEmpty(l, ProviderPayable);
    }
  }

  // ----- The theorems -----------------------------------------------------

  /**
   * Custody: in every reachable state, at once for every programme and group,
   * what the ledger holds is what the rows say. What withdrawals strand in
   * escrow, and when, is RefundTheorems.EscrowAgreesIff.
   */
  lemma {:induction false} CustodyAgrees(steps: seq<Machine.Step>)
    ensures var db := Machine.Run(steps);
            && (forall p: nat :: Balance(db.ledger, Escrow(p)) ==
                  Sum(db.subscriptions, PaidTo(p)) + Sum(db.subscriptions, StrandedIn(p)))
            && (forall g: nat :: Balance(db.ledger, Pool(g)) ==
                  Sum(db.contributions, GroupMoney.IntoGroup(g)) - Sum(db.payouts, GroupMoney.OutOfGroup(g)))
  {
    KeepingPayments.BooksKept(steps);
    var db := Machine.Run(steps);
    forall p: nat ensures Balance(db.ledger, Escrow(p)) ==
      Sum(db.subscriptions, PaidTo(p)) + Sum(db.subscriptions, StrandedIn(p))
    {
      EscrowIsWhatWasPaid(db, p);
    }
    forall g: nat ensures Balance(db.ledger, Pool(g)) ==
      Sum(db.contributions, GroupMoney.IntoGroup(g)) - Sum(db.payouts, GroupMoney.OutOfGroup(g))
    {
      PoolIsContributionsLessPayouts(db, g);
    }
  }

  /** No step of the run accepted a second verdict on one of the wallet's bills. */
  ghost predicate NeverFlips(steps: seq<Machine.Step>, user: nat) {
    forall b: nat :: b < |Machine.Run(steps).bills| && Machine.Run(steps).bills[b].user == user ==>
      !BillTheorems.EverFlips(steps, b)
  }

  ghost predicate ReserveIsHeld(db: Db, user: nat) {
    Balance(db.ledger, Reserved(user)) == Sum(db.bills, HeldFor(user)) + Sum(db.withdrawals, WithdrawnBy(user))
  }

  lemma ReserveIsHeldIff(db: Db, user: nat)
    requires BooksOk(db)
    ensures ReserveIsHeld(db, user) <==> DecidedOnce(db, user)
  {
    ReservedIsHeldBillsAndWithdrawals(db, user);
    NothingTakenTwiceIff(db, user);
  }

  lemma {:induction false} DecidedOnceIff(steps: seq<Machine.Step>, user: nat)
    ensures DecidedOnce(Machine.Run(steps), user) <==> NeverFlips(steps, user)
  {
    var db := Machine.Run(steps);
    forall b: nat | b < |db.bills| ensures BillTheorems.BothVerdicts(db.bills[b]) <==> BillTheorems.EverFlips(steps, b) {
      BillTheorems.BothVerdictsIffFlipped(steps, b);
    }
  }

  /**
   * In every run a wallet's reserve is the sum of its bills not yet decided and
   * its withdrawals, if and only if no step accepted a second verdict on one of
   * its bills.
   */
  lemma {:induction false} ReservedAgreesIff(steps: seq<Machine.Step>, user: nat)
    ensures ReserveIsHeld(Machine.Run(steps), user) <==> NeverFlips(steps, user)
  {
    KeepingPayments.BooksKept(steps);
    ReserveIsHeldIff(Machine.Run(steps), user);
    DecidedOnceIff(steps, user);
  }

  /** No wallet, pool or escrow is overdrawn in any run, whatever the provider answers. */
  lemma {:induction false} NeverOverdrawn(steps: seq<Machine.Step>, a: Account)
    requires a.Available? || a.Pool? || a.Escrow?
    ensures Balance(Machine.Run(steps).ledger, a) >= 0
  {
    KeepingPayments.BooksKept(steps);
    if a.Escrow? {
      EscrowIsWhatWasPaid(Machine.Run(steps), a.programme);
    }
  }

  /** Conservation: in every run the balances of all the ledger's accounts add up to zero. */
  lemma {:induction false} MoneyIsConserved(steps: seq<Machine.Step>)
    ensures Sum(AccountsOf(Machine.Run(steps).ledger), BalanceOf(Machine.Run(steps).ledger)) == 0
  {
    KeepingPayments.BooksKept(steps);
    SoundConserved(Machine.Run(steps).ledger);
  }

  lemma {:induction false} SoundConserved(l: Book)
    requires Sound(l)
    ensures Sum(AccountsOf(l), BalanceOf(l)) == 0
  {
    BooksBalance(l, AccountsOf(l));
  }

  /**
   * Backing: all the money held outside the provider account, fees included,
   * is what was deposited less the bills settled and not reversed.
   */
  lemma {:induction false} EverythingIsBacked(steps: seq<Machine.Step>)
    ensures var db := Machine.Run(steps);
            Sum(AccountsOf(db.ledger), HeldOutsideProvider(db.ledger))
              == Sum(db.intents, DepositedBy()) - Sum(db.bills, ProviderGets())
  {
    KeepingPayments.BooksKept(steps);
    var db := Machine.Run(steps);
    SoundConserved(db.ledger);
    HeldElsewhere(db.ledger);
    ProviderIsBillsLessDeposits(db);
  }
}
