/**
 * Every atomic step of the platform, and runs of them. A refused step rolls
 * back and leaves everything as it was. Time passes only in a step of its own,
 * so any number of steps may share one clock reading.
 */
module Machine {
  import opened Prelude
  import opened Tables
  import opened Ledger
  import AjoMoney
  import Bills
  import Food
  import Groups
  import Movements
  import Payments

  /**
   * Where a service reads outside its transaction and writes later, the write
   * is a step of its own, free to happen at any time: InsertIntent, PayFromWallet,
   * Charge, Deposit, FailureWrite, Answered and Hold are not tied to the check
   * that preceded them, so every interleaving is among the runs. A request that
   * pays for a bill is two steps, its transaction and AfterCommit.
   */
  datatype Step =
    | Wait(elapsed: nat)
    | OpenWallet(owner: nat)
    | SetWallet(owner: nat, active: bool)
    | InsertIntent(payer: nat, target: Target, amount: int, fee: int, request: nat)
    | PayFromWallet(payer: nat, intent: nat, caller: nat, quote: Payments.Quote)
    | Charge(intent: nat, reference: nat)
    | Deposit(intent: nat)
    | FailureWrite(intent: nat)
    | ReserveBill(payer: nat, bill: Bills.BillRequest)
    | AfterCommit(handler: nat, hasReference: bool)
    | Answered(id: nat, answer: Bills.Answer)
    | CallFailed(id: nat)
    | SendMoney(payer: nat, recipient: nat, amount: int, request: nat)
    | WithdrawMoney(payer: nat, amount: int, request: nat)
    | FoundGroup(founder: nat, dto: Groups.NewGroup)
    | Governed(group: nat, change: Groups.GroupStep)
    | Contribute(payer: nat, group: nat, schedule: nat, amount: int, contributor: CallerKey)
    | PayOut(admin: nat, group: nat, schedule: nat)
    | Hold(group: nat, schedule: nat)
    | FoundProgramme(founder: nat, capacity: int, prices: seq<int>)
    | MoveProgramme(coordinator: nat, programme: nat, status: ProgrammeStatus, collected: bool)
    | PricePackage(coordinator: nat, programme: nat, package: nat, price: int)
    | Enrol(member: nat, programme: nat, package: nat, quantity: int)
    | CancelEnrolment(member: nat, subscription: nat)

  function FoundGroupTx(db: Db, founder: nat, dto: Groups.NewGroup): Result<Db> {
    var g :- Groups.Create(founder, dto);
    Ok(db.(groups := db.groups + [g]))
  }

  function GovernTx(db: Db, group: nat, change: Groups.GroupStep): Result<Db> {
    if group >= |db.groups| then Err(NotFound)
    else
      var g :- Groups.Govern(db.groups[group], change, db.now);
      Ok(db.(groups := db.groups[group := g]))
  }

  /** A confirmation's transaction. Finding the intent already paid is a success that settles nothing. */
  function ConfirmTx(db: Db, user: nat, i: nat, caller: nat, quote: Payments.Quote): Result<Db> {
    var paid :- Payments.SettleFromWallet(db, user, i, caller, quote);
    Ok(paid.(handlers := db.handlers
      + [Handler(user, OfIntent(i), Some(i), db.intents[i].status == RequiresConfirmation, false, 0)]))
  }

  /** A bill request's transaction. Finding the bill already there is a success that settles nothing. */
  function CreateTx(db: Db, user: nat, r: Bills.BillRequest): Result<Db> {
    var reserved :- Bills.CreateBill(db, user, r);
    Ok(reserved.(handlers := db.handlers
      + [Handler(user, r.caller, None, Bills.FindBill(db.bills, user, r.caller).None?, false, 0)]))
  }

  function Attempt(db: Db, step: Step): Result<Db> {
    match step
    case Wait(elapsed) => Ok(db.(now := db.now + elapsed))
    case OpenWallet(u) => if u in db.wallets then Err(UniqueViolation) else Ok(db.(wallets := db.wallets[u := true]))
    case SetWallet(u, active) => if u !in db.wallets then Err(NotFound) else Ok(db.(wallets := db.wallets[u := active]))
    case InsertIntent(u, target, amount, fee, request) => Payments.InsertIntent(db, u, target, amount, fee, request)
    case PayFromWallet(u, i, caller, quote) => ConfirmTx(db, u, i, caller, quote)
    case Charge(i, reference) => Payments.StartExternal(db, i, reference)
    case Deposit(i) => Payments.SettleDeposit(db, i)
    case FailureWrite(i) => Payments.WriteFailed(db, i)
    case ReserveBill(u, r) => CreateTx(db, u, r)
    case AfterCommit(h, hasReference) => Bills.AfterCommit(db, h, hasReference)
    case Answered(b, answer) => Bills.ApplyAnswer(db, b, answer)
    case CallFailed(b) => Bills.MarkUncertain(db, b)
    case SendMoney(u, recipient, amount, request) => Movements.Send(db, u, recipient, amount, request, true)
    case WithdrawMoney(u, amount, request) => Movements.Withdraw(db, u, amount, request, true, true)
    case FoundGroup(u, dto) => FoundGroupTx(db, u, dto)
    case Governed(group, change) => GovernTx(db, group, change)
    case Contribute(u, group, schedule, amount, caller) => AjoMoney.PayContribution(db, u, group, schedule, amount, caller)
    case PayOut(u, group, schedule) => AjoMoney.SettlePayout(db, u, group, schedule)
    case Hold(group, schedule) => AjoMoney.WriteHold(db, group, schedule)
    case FoundProgramme(u, capacity, prices) => Food.CreateProgramme(db, u, capacity, prices, true)
    case MoveProgramme(u, p, status, collected) => Food.TransitionProgramme(db, u, p, status, collected)
    case PricePackage(u, p, package, price) => Food.UpdatePackage(db, u, p, package, price)
    case Enrol(u, p, package, quantity) => Food.Subscribe(db, u, p, package, quantity)
    case CancelEnrolment(u, s) => Food.CancelSubscription(db, u, s)
  }

  function Next(db: Db, step: Step): Db {
    var r := Attempt(db, step);
    if r.Ok? then r.value else db
  }

  function Run(steps: seq<Step>): Db {
    if steps == [] then EMPTY else Next(Run(steps[..|steps| - 1]), steps[|steps| - 1])
  }

  lemma {:induction false} RunStep(steps: seq<Step>, step: Step)
    ensures Run(steps + [step]) == Next(Run(steps), step)
  {
    assert (steps + [step])[..|steps|] == steps;
  }

  lemma {:induction false} AcceptedStep(steps: seq<Step>, step: Step, db': Db)
    requires Attempt(Run(steps), step) == Ok(db')
    ensures Run(steps + [step]) == db'
  {
    RunStep(steps, step);
  }
}
