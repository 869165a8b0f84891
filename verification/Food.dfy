/** Food Ajo programmes: enrolment, payment into escrow, withdrawal and refund. */
module Food {
  import opened Prelude
  import opened Ledger
  import opened Tables

  predicate CanTransition(from: ProgrammeStatus, to: ProgrammeStatus) {
    match from
    case PDraft => to == POpen || to == PCancelled
    case POpen => to == PActive || to == PCancelled || to == PSuspended
    case PActive => to == PCompleted || to == PSuspended
    case PSuspended => to == POpen || to == PActive || to == PCancelled
    case PCompleted => false
    case PCancelled => false
  }

  predicate AcceptsPayment(status: ProgrammeStatus) { status == POpen || status == PActive }
  predicate CanRefund(status: ProgrammeStatus) { status == POpen }
  predicate CanCancel(status: SubscriptionStatus) { status == SPending || status == SActive }

  function CreateProgramme(db: Db, user: nat, capacity: int, prices: seq<int>, approved: bool): Result<Db> {
    if !approved then Err(Forbidden)
    else if capacity <= 0 then Err(Unprocessable)
    else Ok(db.(programmes := db.programmes + [Programme(user, PDraft, capacity,
      seq(|prices|, i requires 0 <= i < |prices| => Package(prices[i], true, false)))]))
  }

  predicate PackagesOpenable(packages: seq<Package>) {
    && (exists i :: 0 <= i < |packages| && packages[i].active)
    && (forall i :: 0 <= i < |packages| && packages[i].active ==> packages[i].price > 0)
  }

  function LockedPackages(packages: seq<Package>): seq<Package> {
    seq(|packages|, i requires 0 <= i < |packages| => packages[i].(locked := true))
  }

  /** Opening a programme checks and locks its prices. collected: nobody is still owed goods. */
  function TransitionProgramme(db: Db, user: nat, p: nat, to: ProgrammeStatus, collected: bool): Result<Db> {
    if p >= |db.programmes| || db.programmes[p].coordinator != user then Err(NotFound)
    else
      var row := db.programmes[p];
      if !CanTransition(row.status, to) then Err(Conflict)
      else if row.status == PDraft && to == POpen && !PackagesOpenable(row.packages) then Err(Unprocessable)
      else if to == PCompleted && !collected then Err(Conflict)
      else
        var packages := if to == POpen then LockedPackages(row.packages) else row.packages;
        Ok(db.(programmes := db.programmes[p := row.(status := to, packages := packages)]))
  }

  function UpdatePackage(db: Db, user: nat, p: nat, package: nat, price: int): Result<Db> {
    if p >= |db.programmes| || db.programmes[p].coordinator != user then Err(NotFound)
    else
      var row := db.programmes[p];
      if package >= |row.packages| then Err(NotFound)
      else if row.packages[package].locked || row.status != PDraft then Err(Conflict)
      else Ok(db.(programmes := db.programmes[p := row.(
        packages := row.packages[package := row.packages[package].(price := price)])]))
  }

  function Portions(p: nat): Subscription -> int {
    (s: Subscription) => if s.programme == p && CanCancel(s.status) then s.quantity else 0
  }

  /** The unique index on (group, user, package). */
  function FindSubscription(rows: seq<Subscription>, p: nat, user: nat, package: nat): (found: Option<nat>)
    ensures found.Some? ==> found.value < |rows| && rows[found.value].programme == p
                            && rows[found.value].user == user && rows[found.value].package == package
    ensures found.None? ==> forall s :: 0 <= s < |rows| ==>
              rows[s].programme != p || rows[s].user != user || rows[s].package != package
  {
    FindLast(rows, (s: Subscription) => s.programme == p && s.user == user && s.package == package)
  }

  function Subscribe(db: Db, user: nat, p: nat, package: nat, quantity: int): Result<Db> {
    if p >= |db.programmes| then Err(NotFound)
    else
      var programme := db.programmes[p];
      var existing := FindSubscription(db.subscriptions, p, user, package);
      if programme.status != POpen then Err(Unprocessable)
      else if package >= |programme.packages| || !programme.packages[package].active then Err(Unprocessable)
      else if existing.Some? && CanCancel(db.subscriptions[existing.value].status) then Err(Conflict)
      else if quantity < 1 then Err(Unprocessable)
      else if Sum(db.subscriptions, Portions(p)) + quantity > programme.capacity then Err(Conflict)
      else if existing.Some? then
        var s := existing.value;
        Ok(db.(subscriptions := db.subscriptions[s := db.subscriptions[s].(status := SPending, quantity := quantity)]))
      else
        Ok(db.(subscriptions := db.subscriptions
          + [Subscription(p, package, user, SPending, quantity, 0, None, 0)]))
  }

  function PriceOf(db: Db, s: Subscription): Option<int> {
    if s.programme < |db.programmes| && s.package < |db.programmes[s.programme].packages|
    then Some(db.programmes[s.programme].packages[s.package].price) else None
  }

  function FullPrice(db: Db, s: Subscription): int {
    if PriceOf(db, s).Some? then PriceOf(db, s).value * s.quantity else 0
  }

  /** What an enrolment still owes its programme, provided it may be paid now. */
  function ResolveEnrolment(db: Db, user: nat, s: nat): Result<int> {
    if s >= |db.subscriptions| || db.subscriptions[s].user != user then Err(NotFound)
    else
      var row := db.subscriptions[s];
      if row.status != SPending then Err(Conflict)
      else if row.programme >= |db.programmes| || !AcceptsPayment(db.programmes[row.programme].status)
      then Err(Conflict)
      else if FullPrice(db, row) - row.paid <= 0 then Err(Conflict)
      else Ok(FullPrice(db, row) - row.paid)
  }

  function SettleEnrolment(db: Db, s: nat, amount: int): Db
    requires s < |db.subscriptions|
  {
    var row := db.subscriptions[s];
    var paid := row.paid + amount;
    var row' := if paid >= FullPrice(db, row)
      then row.(paid := paid, status := SActive, paidAt := Some(db.now))
      else row.(paid := paid);
    db.(subscriptions := db.subscriptions[s := row'])
  }

  function RefundKeyOf(s: nat, row: Subscription): Key {
    RefundKey(s, if row.paidAt.Some? then row.paidAt.value else 0)
  }

  /** refundWithin: nothing paid, nothing posted; refused once buying has begun. */
  function Refund(db: Db, s: nat): Result<Book>
    requires s < |db.subscriptions|
  {
    var row := db.subscriptions[s];
    if row.paid <= 0 then Ok(db.ledger)
    else if row.programme >= |db.programmes| || !CanRefund(db.programmes[row.programme].status) then Err(Conflict)
    else if row.user !in db.wallets then Err(Unprocessable)
    else
      var posting :- Post(db.ledger, RefundKeyOf(s, row), RefundEntries(row));
      Ok(posting.ledger)
  }

  /** moved: the withdrawal posted a refund. */
  function Withdrawn(row: Subscription, moved: bool): Subscription {
    row.(status := SCancelled, paid := 0, paidAt := None,
         stranded := if moved || row.paid <= 0 then row.stranded else row.stranded + row.paid)
  }

  /** s is whichever of the caller's enrolments in the programme the lookup returned. */
  function CancelSubscription(db: Db, user: nat, s: nat): Result<Db> {
    if s >= |db.subscriptions| || db.subscriptions[s].user != user then Err(NotFound)
    else if !CanCancel(db.subscriptions[s].status) then Err(Conflict)
    else
      var ledger :- Refund(db, s);
      Ok(db.(ledger := ledger, subscriptions := db.subscriptions[s := Withdrawn(db.subscriptions[s], ledger != db.ledger)]))
  }
}
