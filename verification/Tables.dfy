/**
 * The rows of every table money moves through, the entries each row's postings
 * consist of, and the books the rows imply: what every account should hold,
 * read off the tables instead of the ledger.
 */
module Tables {
  import opened Prelude
  import opened Ledger
  import Groups

  // ----- Rows -------------------------------------------------------------

  datatype Target =
    | TopUp
    | Contribution(group: nat, schedule: nat)
    | Food(subscription: nat)
    | BillFor(validation: nat)

  datatype IntentStatus = RequiresConfirmation | Processing | Succeeded | FailedIntent

  datatype Intent = Intent(
    user: nat, hasWallet: bool, target: Target, amount: int, fee: int, status: IntentStatus,
    request: nat, expiresAt: int, reference: Option<nat>, txn: Option<nat>)

  datatype BillStatus = BillPending | Successful | BillFailed | BillReversed | ReconciliationRequired
  datatype Reconciliation = NotRequired | Awaiting | Resolved

  /** settled, released and reversed are the posting-id columns. */
  datatype Bill = Bill(
    user: nat, amount: int, fee: int, caller: CallerKey, hash: Option<nat>, intent: Option<nat>,
    status: BillStatus, reconciliation: Reconciliation, reserve: nat,
    settled: Option<nat>, released: Option<nat>, reversed: Option<nat>,
    receipt: bool)

  datatype Withdrawal = Withdrawal(user: nat, amount: int, request: nat, txn: nat)
  datatype Transfer = Transfer(source: nat, destination: nat, amount: int, request: nat, txn: nat)

  datatype ContributionRow = ContributionRow(
    group: nat, schedule: nat, payer: nat, amount: int, caller: CallerKey, txn: nat)
  datatype PayoutRow = PayoutRow(group: nat, schedule: nat, recipient: nat, amount: int, txn: nat)

  datatype ProgrammeStatus = PDraft | POpen | PActive | PCompleted | PSuspended | PCancelled
  datatype Package = Package(price: int, active: bool, locked: bool)
  datatype Programme = Programme(
    coordinator: nat, status: ProgrammeStatus, capacity: int, packages: seq<Package>)

  /**
   * stranded is a history the model adds and nothing reads: what withdrawals
   * emptied without a posting to return it.
   */
  datatype SubscriptionStatus = SPending | SActive | SCancelled | SCompleted | SDefaulted
  datatype Subscription = Subscription(
    programme: nat, package: nat, user: nat, status: SubscriptionStatus, quantity: int,
    paid: int, paidAt: Option<int>, stranded: int)

  /**
   * A request that has committed its transaction and may go on to the bill
   * provider. settled is what the request remembers of that transaction: that
   * it made the payment itself rather than find it made. calls counts its
   * createPayment requests, and finished says it has run to its end.
   */
  datatype Handler = Handler(
    user: nat, caller: CallerKey, intent: Option<nat>, settled: bool, finished: bool, calls: nat)

  /**
   * The database, the clock, and the requests in flight. wallets maps a member
   * to whether the wallet is ACTIVE.
   */
  datatype Db = Db(
    now: int, ledger: Book, wallets: map<nat, bool>, intents: seq<Intent>, bills: seq<Bill>,
    withdrawals: seq<Withdrawal>, transfers: seq<Transfer>, groups: seq<Groups.Group>,
    contributions: seq<ContributionRow>, payouts: seq<PayoutRow>, programmes: seq<Programme>,
    subscriptions: seq<Subscription>, handlers: seq<Handler>)

  const EMPTY: Db := Db(0, [], map[], [], [], [], [], [], [], [], [], [], [])

  function Total(i: Intent): int { i.amount + i.fee }
  function TotalDebit(b: Bill): int { b.amount + b.fee }

  // ----- The entries of each posting --------------------------------------

  function FeeLeg(e: Entry): seq<Entry> { if e.amount > 0 then [e] else [] }

  function ReserveEntries(b: Bill): seq<Entry> {
    [Dr(Available(b.user), TotalDebit(b)), Cr(Reserved(b.user), TotalDebit(b))]
  }

  function ReleaseEntries(b: Bill): seq<Entry> {
    [Dr(Reserved(b.user), TotalDebit(b)), Cr(Available(b.user), TotalDebit(b))]
  }

  function SettleEntries(b: Bill): seq<Entry> {
    [Dr(Reserved(b.user), TotalDebit(b)), Cr(ProviderPayable, b.amount)] + FeeLeg(Cr(FeeRevenue, b.fee))
  }

  function ReversalEntries(b: Bill): seq<Entry> {
    [Dr(ProviderPayable, b.amount)] + FeeLeg(Dr(FeeRevenue, b.fee)) + [Cr(Available(b.user), TotalDebit(b))]
  }

  function WithdrawalEntries(w: Withdrawal): seq<Entry> {
    [Dr(Available(w.user), w.amount), Cr(Reserved(w.user), w.amount)]
  }

  function TransferEntries(t: Transfer): seq<Entry> {
    [Dr(Available(t.source), t.amount), Cr(Available(t.destination), t.amount)]
  }

  function ContributionEntries(c: ContributionRow): seq<Entry> {
    [Dr(Available(c.payer), c.amount), Cr(Pool(c.group), c.amount)]
  }

  function PayoutEntries(p: PayoutRow): seq<Entry> {
    [Dr(Pool(p.group), p.amount), Cr(Available(p.recipient), p.amount)]
  }

  function EnrolmentEntries(s: Subscription): seq<Entry> {
    [Dr(Available(s.user), s.paid), Cr(Escrow(s.programme), s.paid)]
  }

  /** Everything an enrolment has in escrow: what it has paid, and what withdrawals left behind. */
  function HeldEntries(s: Subscription): seq<Entry> {
    [Dr(Available(s.user), s.paid + s.stranded), Cr(Escrow(s.programme), s.paid + s.stranded)]
  }

  function RefundEntries(s: Subscription): seq<Entry> {
    [Dr(Escrow(s.programme), s.paid), Cr(Available(s.user), s.paid)]
  }

  function DepositEntries(i: Intent): seq<Entry> {
    [Dr(ProviderPayable, i.amount), Cr(Available(i.user), i.amount - i.fee)] + FeeLeg(Cr(FeeRevenue, i.fee))
  }

  // ----- The books the tables imply ---------------------------------------

  function When(posted: Option<nat>, entries: seq<Entry>, a: Account): int {
    if posted.Some? then Effect(entries, a) else 0
  }

  function BillNet(a: Account): Bill -> int {
    (b: Bill) => Effect(ReserveEntries(b), a) + When(b.settled, SettleEntries(b), a)
               + When(b.released, ReleaseEntries(b), a) + When(b.reversed, ReversalEntries(b), a)
  }

  function WithdrawalNet(a: Account): Withdrawal -> int {
    (w: Withdrawal) => Effect(WithdrawalEntries(w), a)
  }

  function TransferNet(a: Account): Transfer -> int {
    (t: Transfer) => Effect(TransferEntries(t), a)
  }

  function ContributionNet(a: Account): ContributionRow -> int {
    (c: ContributionRow) => Effect(ContributionEntries(c), a)
  }

  function PayoutNet(a: Account): PayoutRow -> int {
    (p: PayoutRow) => Effect(PayoutEntries(p), a)
  }

  function SubscriptionNet(a: Account): Subscription -> int {
    (s: Subscription) => Effect(HeldEntries(s), a)
  }

  function DepositNet(a: Account): Intent -> int {
    (i: Intent) => if i.target.TopUp? then When(i.txn, DepositEntries(i), a) else 0
  }

  function BooksOf(db: Db, a: Account): int {
    Sum(db.bills, BillNet(a)) + Sum(db.withdrawals, WithdrawalNet(a)) + Sum(db.transfers, TransferNet(a))
    + Sum(db.contributions, ContributionNet(a)) + Sum(db.payouts, PayoutNet(a))
    + Sum(db.subscriptions, SubscriptionNet(a)) + Sum(db.intents, DepositNet(a))
  }
}
