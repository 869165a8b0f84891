/**
 * Runs in which an executed swap lets a cycle be paid twice: a swap executed
 * after a payout, and a swap executed before any. Two members hold one slot
 * each, so the second run also pays a turn to the member who gave it up.
 */
module PaidTwice {
  import opened Prelude
  import opened Ledger
  import opened Tables
  import opened Books
  import opened Groups
  import opened Machine
  import AjoMoney
  import Custody
  import FlippedVerdict
  import GroupMoney
  import GroupParties
  import KeepingPayments
  import Rotation
  import ScheduleOrder
  import Solvency

  const UNIT: int := 10_000

  function Calendar(): seq<int> { seq(MAX_SLOTS, i => i) }

  /** Member 0 founds a two-slot group with one slot, and member 1 takes the other. */
  function Opening(): NewGroup {
    NewGroup(UNIT, false, 2, 2, 1, Some(1), 1, Calendar(), 1000, 0, true)
  }

  function Funding(): seq<Step> { FlippedVerdict.Funding()[..4] + [OpenWallet(1), SendMoney(0, 1, 2 * UNIT, 1)] }

  /** A swap of the two slots is requested, and approved by one of the two owners. */
  function Governing(): seq<Step> {
    [FoundGroup(0, Opening()), Governed(0, JoinGroup(1, 1, true)), Governed(0, LockGroup(0)),
     Governed(0, RequestStep(0, 0, 1)), Governed(0, ApproveStep(0, 0))]
  }

  function Contributions(): seq<Step> {
    [Contribute(0, 0, 0, UNIT, Client(0)), Contribute(1, 0, 1, UNIT, Client(1)),
     Contribute(0, 0, 2, UNIT, Client(2)), Contribute(1, 0, 3, UNIT, Client(3))]
  }

  /** Both cycles are collected, and the swap waits for the second approval. */
  function Setup(): seq<Step> { Funding() + Governing() + Contributions() }

  const SWAP_GOES_AHEAD: Step := Governed(0, ApproveStep(1, 0))

  /** The first cycle is paid, the swap goes ahead, and the first cycle is paid again. */
  function PaidThenSwapped(): seq<Step> { Setup() + [PayOut(0, 0, 0)] + [SWAP_GOES_AHEAD] + [PayOut(0, 0, 2)] }

  /** The swap goes ahead with nothing paid, and then the first cycle is paid under both versions. */
  function SwappedThenPaid(): seq<Step> { Setup() + [SWAP_GOES_AHEAD] + [PayOut(0, 0, 0)] + [PayOut(0, 0, 2)] }

  // ----- The group before any money ---------------------------------------

  function Owed(cycle: nat, slot: nat, paid: bool): ContributionSchedule {
    ContributionSchedule(cycle, slot, UNIT, if paid then UNIT else 0, cycle, if paid then Paid else Pending, 1)
  }

  function Schedules(paid: nat): seq<ContributionSchedule> {
    [Owed(0, 0, paid > 0), Owed(0, 1, paid > 1), Owed(1, 0, paid > 2), Owed(1, 1, paid > 3)]
  }

  function Row(cycle: nat, slot: nat, version: nat): PayoutSchedule {
    PayoutSchedule(cycle, slot, 2 * UNIT, 0, cycle, PayoutPending, version)
  }

  function Settled(row: PayoutSchedule): PayoutSchedule { row.(status := PaidOut, paid := row.due) }

  ghost predicate Membership(g: Group) {
    && g.members == [Member(0, true, true), Member(1, false, true)] && |g.slots| == 2
    && g.slots[0].member == 0 && g.slots[1].member == 1 && g.base == UNIT && g.status == Locked
  }

  ghost predicate Opened(g: Group) {
    && g.base == UNIT && g.status == Draft && g.calendar == Calendar() && g.payoutOffset == 0 && g.endDate == 1000
    && g.maxMembers == 2 && g.maxSlots == 2 && g.minPer == 1 && g.maxPer == 1 && Rotation.NotYetLocked(g)
  }

  lemma OpenedGroup()
    ensures Create(0, Opening()).Ok?
    ensures var g := Create(0, Opening()).value;
            Opened(g) && g.members == [Member(0, true, true)] && g.slots == [Slot(0, 1, false)]
  {
    assert ReservedSlots(0, 0, 1) == [Slot(0, 1, false)];
  }

  lemma JoinedGroup(g: Group)
    requires Opened(g) && g.members == [Member(0, true, true)] && g.slots == [Slot(0, 1, false)]
    ensures Join(g, 1, 1, true).Ok?
    ensures var g' := Join(g, 1, 1, true).value;
            && Opened(g') && g'.members == [Member(0, true, true), Member(1, false, true)]
            && g'.slots == [Slot(0, 1, false), Slot(1, 2, false)]
  {
    assert ReservedSlots(1, 1, 1) == [Slot(1, 2, false)];
    SumAppend([], g.members[0], ActiveMember());
    assert [] + [g.members[0]] == g.members;
  }

  lemma TwoCycles(g: Group)
    requires |g.slots| == 2 && g.base == UNIT && g.calendar == Calendar() && g.payoutOffset == 0
    requires |g.calendar| == MAX_SLOTS
    ensures ContributionRows([CycleAt(g, 0), CycleAt(g, 1)], 2, 1) == Schedules(0)
    ensures PayoutRows([CycleAt(g, 0), CycleAt(g, 1)], 1) == [Row(0, 0, 1), Row(1, 1, 1)]
  {
    var cycles := [CycleAt(g, 0), CycleAt(g, 1)];
    assert cycles[..1] == [CycleAt(g, 0)] && cycles[..1][..0] == [];
    assert ContributionRows(cycles[..1], 2, 1) == CycleContributions(0, cycles[0], 2, 1);
    assert CycleContributions(0, cycles[0], 2, 1) == [Owed(0, 0, false), Owed(0, 1, false)];
    assert CycleContributions(1, cycles[1], 2, 1) == [Owed(1, 0, false), Owed(1, 1, false)];
  }

  /** The first version's payout rows, and those the swap adds. */
  function FirstRows(): seq<PayoutSchedule> { [Row(0, 0, 1), Row(1, 1, 1)] }
  function SwappedRows(): seq<PayoutSchedule> { [Row(0, 1, 2), Row(1, 0, 2)] }

  ghost predicate Rotating(g: Group, paid: nat) {
    && Membership(g) && g.contribs == Schedules(paid) && g.version == 1 && g.payouts == FirstRows()
  }

  lemma TwoMembers(g: Group)
    requires g.members == [Member(0, true, true), Member(1, false, true)]
    ensures MemberOf(g, 0) == Some(0) && MemberOf(g, 1) == Some(1)
  {
    var f := (m: Member) => m.user == 0;
    assert g.members[..1] == [g.members[0]];
    assert FindLast(g.members, f) == FindLast(g.members[..1], f);
  }

  lemma LockableGroup(g: Group)
    requires Opened(g) && Rotation.GroupOk(g) && g.members == [Member(0, true, true), Member(1, false, true)]
    requires g.slots == [Slot(0, 1, false), Slot(1, 2, false)]
    ensures Lock(g, 0).Ok? && GenerateRotation(g).Ok? && GenerateRotation(g).value == [CycleAt(g, 0), CycleAt(g, 1)]
  {
    TwoMembers(g);
    Rotation.LockSucceedsIff(g, 0);
    ScheduleOrder.StoredInOrder(g);
  }

  lemma LockedRowsAre(g: Group)
    requires Opened(g) && g.members == [Member(0, true, true), Member(1, false, true)]
    requires g.slots == [Slot(0, 1, false), Slot(1, 2, false)] && Lock(g, 0).Ok?
    requires GenerateRotation(g).Ok? && GenerateRotation(g).value == [CycleAt(g, 0), CycleAt(g, 1)]
    ensures Rotating(Lock(g, 0).value, 0) && Lock(g, 0).value.swaps == []
  {
    Rotation.LockShape(g, 0);
    TwoCycles(g);
  }

  lemma LockedGroup(g: Group)
    requires Opened(g) && Rotation.GroupOk(g) && g.members == [Member(0, true, true), Member(1, false, true)]
    requires g.slots == [Slot(0, 1, false), Slot(1, 2, false)]
    ensures Lock(g, 0).Ok?
    ensures Rotating(Lock(g, 0).value, 0) && Lock(g, 0).value.swaps == []
  {
    LockableGroup(g);
    LockedRowsAre(g);
  }

  function Request(approvals: map<nat, bool>): Swap { Swap(0, 0, 1, SwapPending, 1, None, SWAP_TTL, approvals) }

  lemma SwapRequested(g: Group)
    requires Rotating(g, 0) && g.swaps == []
    ensures RequestSwap(g, 0, 0, 1, 0) == Ok(g.(swaps := [Request(map[])]))
  {
    TwoMembers(g);
    assert !HasConflict(g, 0, 1) && !HasStartedPayout(g, 0, 1) && !HasOverdue(g, 0, 1);
    assert g.swaps + [Request(map[])] == [Request(map[])];
  }

  lemma SwapHalfApproved(g: Group)
    requires Rotating(g, 0) && g.swaps == [Request(map[])]
    ensures ApproveSwap(g, 0, 0, 0) == Ok(g.(swaps := [Request(map[0 := true])]))
  {
    TwoMembers(g);
    var pending, approved := Request(map[]), Request(map[0 := true]);
    assert pending.(approvals := pending.approvals[0 := true]) == approved;
    assert 1 in {g.slots[0].member, g.slots[1].member} && !Approved(approved, 1);
    assert g.swaps[0 := approved] == [approved];
  }

  // ----- The run up to the contributions ----------------------------------

  /** The wallets are open and funded, and nothing has happened to any group. */
  ghost predicate Ready(db: Db) {
    && db.now == 0 && db.wallets == map[0 := true, 1 := true] && db.contributions == [] && db.payouts == []
    && Balance(db.ledger, Available(0)) >= 2 * UNIT && Balance(db.ledger, Available(1)) >= 2 * UNIT
  }

  lemma MoneySent(db: Db)
    requires KeysExplained(db) && db.transfers == [] && db.wallets == map[0 := true, 1 := true]
    requires Balance(db.ledger, Available(0)) == FlippedVerdict.DEPOSIT && Balance(db.ledger, Available(1)) >= 0
    ensures var db' := Next(db, SendMoney(0, 1, 2 * UNIT, 1));
            && db' == db.(ledger := db'.ledger, transfers := db'.transfers)
            && Balance(db'.ledger, Available(0)) >= 2 * UNIT && Balance(db'.ledger, Available(1)) >= 2 * UNIT
  {
    var entries := TransferEntries(Transfer(0, 1, 2 * UNIT, 1, |db.ledger|));
    FreshKey(db, TransferKey(1));
    PairBalanced(Available(0), Available(1), 2 * UNIT);
    PairEffect(Available(0), Available(1), 2 * UNIT, Available(0));
    PairEffect(Available(0), Available(1), 2 * UNIT, Available(1));
    BalanceAppend(db.ledger, NewTxn(TransferKey(1), entries), Available(0));
    BalanceAppend(db.ledger, NewTxn(TransferKey(1), entries), Available(1));
  }

  lemma Funded()
    ensures Ready(Run(Funding())) && Run(Funding()).groups == []
  {
    FlippedVerdict.Funded();
    var s := FlippedVerdict.Funding()[..4];
    var two := s + [OpenWallet(1)];
    assert Funding() == two + [SendMoney(0, 1, 2 * UNIT, 1)];
    RunStep(s, OpenWallet(1));
    RunStep(two, SendMoney(0, 1, 2 * UNIT, 1));
    KeepingPayments.BooksKept(two);
    Custody.NeverOverdrawn(two, Available(1));
    MoneySent(Run(two));
  }

  lemma GovernedDb(db: Db, change: GroupStep, g': Group)
    requires |db.groups| == 1 && Govern(db.groups[0], change, db.now) == Ok(g')
    ensures Next(db, Governed(0, change)) == db.(groups := [g'])
  {
    assert db.groups[0 := g'] == [g'];
  }

  ghost predicate Requested(db: Db) {
    && Ready(db) && |db.groups| == 1 && Rotating(db.groups[0], 0)
    && db.groups[0].swaps == [Request(map[0 := true])]
  }

  lemma Founded(db: Db)
    requires db.groups == []
    ensures Create(0, Opening()).Ok? && Next(db, FoundGroup(0, Opening())) == db.(groups := [Create(0, Opening()).value])
  {
    OpenedGroup();
    assert db.groups + [Create(0, Opening()).value] == [Create(0, Opening()).value];
  }

  lemma GroupLocks(db: Db)
    requires Ready(db) && db.groups == []
    ensures var g := Lock(Join(Create(0, Opening()).value, 1, 1, true).value, 0).value;
            && Rotating(g, 0) && g.swaps == []
            && Next(Next(Next(db, FoundGroup(0, Opening())), Governed(0, JoinGroup(1, 1, true))), Governed(0, LockGroup(0)))
               == db.(groups := [g])
  {
    Founded(db);
    OpenedGroup();
    var g := Create(0, Opening()).value;
    JoinedGroup(g);
    Rotation.CreateOk(0, Opening());
    Rotation.JoinKeeps(g, 1, 1, true);
    var joined := Join(g, 1, 1, true).value;
    LockedGroup(joined);
    GovernedDb(db.(groups := [g]), JoinGroup(1, 1, true), joined);
    GovernedDb(db.(groups := [joined]), LockGroup(0), Lock(joined, 0).value);
  }

  lemma SwapWaits(db: Db)
    requires Ready(db) && |db.groups| == 1 && Rotating(db.groups[0], 0) && db.groups[0].swaps == []
    ensures Requested(Next(Next(db, Governed(0, RequestStep(0, 0, 1))), Governed(0, ApproveStep(0, 0))))
  {
    var g := db.groups[0];
    var requested := g.(swaps := [Request(map[])]);
    SwapRequested(g);
    GovernedDb(db, RequestStep(0, 0, 1), requested);
    SwapHalfApproved(requested);
    GovernedDb(db.(groups := [requested]), ApproveStep(0, 0), requested.(swaps := [Request(map[0 := true])]));
  }

  lemma {:induction false} FiveSteps(s: seq<Step>, t: seq<Step>)
    requires |t| == 5
    ensures Run(s + t) == Next(Next(Next(Next(Next(Run(s), t[0]), t[1]), t[2]), t[3]), t[4])
  {
    assert s + t == s + [t[0]] + [t[1]] + [t[2]] + [t[3]] + [t[4]];
    RunStep(s, t[0]);
    RunStep(s + [t[0]], t[1]);
    RunStep(s + [t[0]] + [t[1]], t[2]);
    RunStep(s + [t[0]] + [t[1]] + [t[2]], t[3]);
    RunStep(s + [t[0]] + [t[1]] + [t[2]] + [t[3]], t[4]);
  }

  lemma RequestedDb()
    ensures Requested(Run(Funding() + Governing()))
  {
    Funded();
    FiveSteps(Funding(), Governing());
    var db := Run(Funding());
    GroupLocks(db);
    SwapWaits(db.(groups := [Lock(Join(Create(0, Opening()).value, 1, 1, true).value, 0).value]));
  }

  // ----- Contributions ----------------------------------------------------

  /** The first `paid` of the four schedules are paid, the even ones by member 0. */
  ghost predicate Collecting(db: Db, paid: nat)
    requires paid <= 4
  {
    && db.now == 0 && db.wallets == map[0 := true, 1 := true] && |db.groups| == 1 && Rotating(db.groups[0], paid)
    && db.groups[0].swaps == [Request(map[0 := true])] && db.payouts == []
    && |db.contributions| == paid && (forall i :: 0 <= i < paid ==> db.contributions[i].schedule == i)
    && Balance(db.ledger, Available(0)) >= (2 - (paid + 1) / 2) * UNIT
    && Balance(db.ledger, Available(1)) >= (2 - paid / 2) * UNIT
  }

  function Instalment(db: Db, k: nat): ContributionRow { ContributionRow(0, k, k % 2, UNIT, Client(k), |db.ledger|) }

  ghost predicate MayPay(db: Db, k: nat) {
    && |db.groups| == 1 && k < |db.groups[0].contribs| && AjoMoney.Owes(db.groups[0], k % 2, k)
    && AjoMoney.Collectable(db.groups[0].contribs[k])
    && db.groups[0].contribs[k].due - db.groups[0].contribs[k].paid == UNIT
    && AjoMoney.FindContribution(db.contributions, 0, k, Client(k)).None?
    && k % 2 in db.wallets && Balance(db.ledger, Available(k % 2)) >= UNIT
  }

  lemma ContributionAccepted(db: Db, k: nat)
    requires MayPay(db, k) && !HasKey(db.ledger, ContributionKey(0, k, Client(k)))
    ensures AjoMoney.PayContribution(db, k % 2, 0, k, UNIT, Client(k)) == Ok(db.(
              ledger := db.ledger + [NewTxn(ContributionKey(0, k, Client(k)), ContributionEntries(Instalment(db, k)))],
              contributions := db.contributions + [Instalment(db, k)],
              groups := db.groups[0 := RecordPaid(db.groups[0], k, UNIT, db.now)]))
  {
    PairBalanced(Available(k % 2), Pool(0), UNIT);
  }

  lemma NextMayPay(db: Db, k: nat)
    requires k < 4 && Collecting(db, k)
    ensures MayPay(db, k)
  {
    TwoMembers(db.groups[0]);
    assert db.groups[0].contribs[k] == Owed(k / 2, k % 2, false);
  }

  function AfterInstalment(db: Db, k: nat): Db
    requires |db.groups| == 1 && k < |db.groups[0].contribs|
  {
    db.(ledger := db.ledger + [NewTxn(ContributionKey(0, k, Client(k)), ContributionEntries(Instalment(db, k)))],
        contributions := db.contributions + [Instalment(db, k)],
        groups := [RecordPaid(db.groups[0], k, UNIT, db.now)])
  }

  lemma ContributedRow(db: Db, k: nat)
    requires k < 4 && MayPay(db, k) && KeysExplained(db)
    ensures Next(db, Contributions()[k]) == AfterInstalment(db, k)
  {
    FreshKey(db, ContributionKey(0, k, Client(k)));
    ContributionAccepted(db, k);
    assert db.groups[0 := RecordPaid(db.groups[0], k, UNIT, db.now)] == [RecordPaid(db.groups[0], k, UNIT, db.now)];
  }

  lemma Contributed(db: Db, k: nat)
    requires k < 4 && Collecting(db, k) && KeysExplained(db)
    ensures Collecting(Next(db, Contributions()[k]), k + 1)
  {
    NextMayPay(db, k);
    ContributedRow(db, k);
    InstalmentCollects(db, k);
  }

  lemma InstalmentCollects(db: Db, k: nat)
    requires k < 4 && Collecting(db, k)
    ensures Collecting(AfterInstalment(db, k), k + 1)
  {
    InstalmentTaken(db, k, 0);
    InstalmentTaken(db, k, 1);
    SchedulePaid(db.groups[0], k, db.now);
  }

  lemma InstalmentTaken(db: Db, k: nat, u: nat)
    ensures var t := NewTxn(ContributionKey(0, k, Client(k)), ContributionEntries(Instalment(db, k)));
            Balance(db.ledger + [t], Available(u)) == Balance(db.ledger, Available(u)) - if u == k % 2 then UNIT else 0
  {
    var entries := ContributionEntries(Instalment(db, k));
    BalanceAppend(db.ledger, NewTxn(ContributionKey(0, k, Client(k)), entries), Available(u));
    PairEffect(Available(k % 2), Pool(0), UNIT, Available(u));
  }

  lemma SchedulePaid(g: Group, k: nat, now: int)
    requires k < 4 && Rotating(g, k)
    ensures Rotating(RecordPaid(g, k, UNIT, now), k + 1) && RecordPaid(g, k, UNIT, now).swaps == g.swaps
  {
    assert RecordPaid(g, k, UNIT, now).contribs == Schedules(k + 1);
  }

  lemma {:induction false} ContributedRun(s: seq<Step>, k: nat)
    requires k < 4 && Collecting(Run(s + Contributions()[..k]), k)
    ensures Collecting(Run(s + Contributions()[..k + 1]), k + 1)
  {
    var t := Contributions();
    assert s + t[..k + 1] == (s + t[..k]) + [t[k]];
    RunStep(s + t[..k], t[k]);
    KeepingPayments.BooksKept(s + t[..k]);
    Contributed(Run(s + t[..k]), k);
  }

  lemma CollectedDb()
    ensures Collecting(Run(Setup()), 4)
  {
    RequestedDb();
    var s := Funding() + Governing();
    assert s + Contributions()[..0] == s && Contributions()[..4] == Contributions();
    ContributedRun(s, 0);
    ContributedRun(s, 1);
    ContributedRun(s, 2);
    ContributedRun(s, 3);
  }

  // ----- Payouts ----------------------------------------------------------

  /** Everything that matters once the contributions are in: the payout rows, and the rows already paid. */
  ghost predicate Paying(db: Db, payouts: seq<PayoutSchedule>, done: seq<nat>) {
    && db.now == 0 && db.wallets == map[0 := true, 1 := true] && |db.groups| == 1 && Membership(db.groups[0])
    && db.groups[0].contribs == Schedules(4) && db.groups[0].payouts == payouts
    && |db.payouts| == |done|
    && (forall i :: 0 <= i < |done| ==> db.payouts[i].group == 0 && db.payouts[i].schedule == done[i])
  }

  lemma FourPaid()
    ensures Sum(Schedules(4), GroupMoney.PaidOf()) == 4 * UNIT
  {
    var rows := Schedules(4);
    SumAppend([], rows[0], GroupMoney.PaidOf());
    SumAppend(rows[..1], rows[1], GroupMoney.PaidOf());
    SumAppend(rows[..2], rows[2], GroupMoney.PaidOf());
    SumAppend(rows[..3], rows[3], GroupMoney.PaidOf());
    assert [] + [rows[0]] == rows[..1] && rows[..1] + [rows[1]] == rows[..2];
    assert rows[..2] + [rows[2]] == rows[..3] && rows[..3] + [rows[3]] == rows;
  }

  lemma {:induction false} PoolHolds(db: Db, payouts: seq<PayoutSchedule>, done: seq<nat>)
    requires BooksOk(db) && GroupMoney.GroupsOk(db) && Paying(db, payouts, done)
    ensures Balance(db.ledger, Pool(0)) == 4 * UNIT - Sum(payouts, GroupMoney.PaidOutOf())
  {
    assert GroupMoney.GroupMoneyOk(db, 0);
    Custody.PoolIsContributionsLessPayouts(db, 0);
    FourPaid();
  }

  lemma NotYetPaid(rows: seq<Tables.PayoutRow>, r: nat)
    requires forall i :: 0 <= i < |rows| ==> rows[i].schedule != r
    ensures AjoMoney.FindPayout(rows, 0, r).None?
  {
  }

  ghost predicate OpenRow(payouts: seq<PayoutSchedule>, done: seq<nat>, r: nat) {
    && r < |payouts| && r !in done && payouts[r].slot < 2 && payouts[r].cycle < 2
    && payouts[r].status == PayoutPending && payouts[r].due == 2 * UNIT
  }

  lemma PayoutGuards(g: Group, r: nat)
    requires Membership(g) && g.contribs == Schedules(4) && r < |g.payouts| && g.payouts[r].slot < 2
    ensures IsAdmin(g, 0) && FullyCollected(g, g.payouts[r].cycle) && AjoMoney.RecipientOf(g, r) == Some(g.payouts[r].slot)
  {
    TwoMembers(g);
  }

  lemma PayoutAccepted(db: Db, payouts: seq<PayoutSchedule>, done: seq<nat>, r: nat)
    requires Paying(db, payouts, done) && OpenRow(payouts, done, r) && Balance(db.ledger, Pool(0)) >= 2 * UNIT
    ensures Solvency.PaysNew(db, PayOut(0, 0, r), 0)
    ensures var db' := Next(db, PayOut(0, 0, r));
            && Paying(db', payouts[r := Settled(payouts[r])], done + [r])
            && db'.groups[0] == RecordPayout(db.groups[0], r)
            && db'.payouts[|done|].recipient == payouts[r].slot
  {
    NotYetPaid(db.payouts, r);
    PayoutGuards(db.groups[0], r);
    PairBalanced(Pool(0), Available(payouts[r].slot), 2 * UNIT);
  }

  lemma PayoutRefused(db: Db, payouts: seq<PayoutSchedule>, done: seq<nat>, r: nat)
    requires Paying(db, payouts, done) && OpenRow(payouts, done, r) && Balance(db.ledger, Pool(0)) < 2 * UNIT
    ensures Attempt(db, PayOut(0, 0, r)) == Err(PayoutHeld) && Solvency.PayoutDue(db, 0, r)
  {
    NotYetPaid(db.payouts, r);
    PayoutGuards(db.groups[0], r);
  }

  lemma {:induction false} PoolAfter(steps: seq<Step>, payouts: seq<PayoutSchedule>, done: seq<nat>)
    requires Paying(Run(steps), payouts, done)
    ensures Balance(Run(steps).ledger, Pool(0)) == 4 * UNIT - Sum(payouts, GroupMoney.PaidOutOf())
  {
    KeepingPayments.BooksKept(steps);
    GroupMoney.GroupsKept(steps);
    PoolHolds(Run(steps), payouts, done);
  }

  lemma {:induction false} PaidOutRun(steps: seq<Step>, payouts: seq<PayoutSchedule>, done: seq<nat>, r: nat)
    requires Paying(Run(steps), payouts, done) && OpenRow(payouts, done, r)
    requires Sum(payouts, GroupMoney.PaidOutOf()) <= 2 * UNIT
    ensures Solvency.PaysNew(Run(steps), PayOut(0, 0, r), 0)
    ensures var db, db' := Run(steps), Run(steps + [PayOut(0, 0, r)]);
            && Paying(db', payouts[r := Settled(payouts[r])], done + [r])
            && db'.groups[0] == RecordPayout(db.groups[0], r) && db'.payouts[|done|].recipient == payouts[r].slot
  {
    PoolAfter(steps, payouts, done);
    RunStep(steps, PayOut(0, 0, r));
    PayoutAccepted(Run(steps), payouts, done, r);
  }

  // ----- The swap ---------------------------------------------------------

  /** The swap has still to be approved by the second owner. */
  ghost predicate Waiting(db: Db, payouts: seq<PayoutSchedule>, done: seq<nat>) {
    Paying(db, payouts, done) && db.groups[0].version == 1 && db.groups[0].swaps == [Request(map[0 := true])]
  }

  lemma SwapExecuted(g: Group)
    requires Membership(g) && |g.payouts| == 2 && g.version == 1 && g.swaps == [Request(map[0 := true])]
    requires TurnOf(g.payouts[0]) == TurnOf(Row(0, 0, 1)) && TurnOf(g.payouts[1]) == TurnOf(Row(1, 1, 1))
    requires g.payouts[0].version == 1 && g.payouts[1].version == 1
    ensures ApproveSwap(g, 1, 0, 0).Ok?
    ensures var g' := ApproveSwap(g, 1, 0, 0).value;
            && Membership(g') && g'.contribs == g.contribs && g'.payouts == g.payouts + SwappedRows() && g'.version == 2
  {
    TwoMembers(g);
    var rows := g.payouts;
    assert rows[..1] == [rows[0]] && rows[..1][..0] == [];
    assert Turns(rows[..1], 1) == [TurnOf(rows[0])];
    assert Turns(rows, 1) == [TurnOf(rows[0]), TurnOf(rows[1])];
    assert FreshRows(Transposed(Turns(rows, 1), 0, 1), 2) == SwappedRows();
  }

  lemma {:induction false} SwappedRun(steps: seq<Step>, payouts: seq<PayoutSchedule>, done: seq<nat>)
    requires Waiting(Run(steps), payouts, done) && |payouts| == 2
    requires TurnOf(payouts[0]) == TurnOf(Row(0, 0, 1)) && TurnOf(payouts[1]) == TurnOf(Row(1, 1, 1))
    requires payouts[0].version == 1 && payouts[1].version == 1
    ensures var db := Run(steps + [SWAP_GOES_AHEAD]);
            Paying(db, payouts + SwappedRows(), done) && db.groups[0].version == 2
  {
    RunStep(steps, SWAP_GOES_AHEAD);
    var g := Run(steps).groups[0];
    SwapExecuted(g);
    GovernedDb(Run(steps), ApproveStep(1, 0), ApproveSwap(g, 1, 0, 0).value);
  }

  // ----- What each run has paid -------------------------------------------

  lemma {:induction false} FourRows(rows: seq<PayoutSchedule>, f: PayoutSchedule -> int)
    requires |rows| == 4
    ensures Sum(rows, f) == f(rows[0]) + f(rows[1]) + f(rows[2]) + f(rows[3])
  {
    SumConcat(rows[..2], rows[2..], f);
    SumPair(rows[0], rows[1], f);
    SumPair(rows[2], rows[3], f);
    assert rows == rows[..2] + rows[2..] && rows[..2] == [rows[0], rows[1]] && rows[2..] == [rows[2], rows[3]];
  }

  /** Cycle 0 paid once, under the first version; and twice, under both. */
  function PaidOnce(): seq<PayoutSchedule> { [Settled(Row(0, 0, 1)), Row(1, 1, 1)] + SwappedRows() }
  function PaidUnderBoth(): seq<PayoutSchedule> {
    [Settled(Row(0, 0, 1)), Row(1, 1, 1), Settled(Row(0, 1, 2)), Row(1, 0, 2)]
  }

  lemma PaidSums()
    ensures Sum(FirstRows(), GroupMoney.PaidOutOf()) == 0
    ensures Sum(FirstRows() + SwappedRows(), GroupMoney.PaidOutOf()) == 0
    ensures forall cycle: nat :: Sum(FirstRows() + SwappedRows(), Solvency.PaidOutIn(cycle)) == 0
    ensures Sum(PaidOnce(), GroupMoney.PaidOutOf()) == 2 * UNIT
    ensures Sum(PaidOnce(), Solvency.PaidOutIn(0)) == 2 * UNIT
    ensures Sum(PaidUnderBoth(), GroupMoney.PaidOutOf()) == 4 * UNIT
    ensures Sum(PaidUnderBoth(), Solvency.PaidOutIn(0)) == 4 * UNIT
  {
    SumZero(FirstRows(), GroupMoney.PaidOutOf());
    SumZero(FirstRows() + SwappedRows(), GroupMoney.PaidOutOf());
    forall cycle: nat ensures Sum(FirstRows() + SwappedRows(), Solvency.PaidOutIn(cycle)) == 0 {
      SumZero(FirstRows() + SwappedRows(), Solvency.PaidOutIn(cycle));
    }
    FourRows(PaidOnce(), GroupMoney.PaidOutOf());
    FourRows(PaidOnce(), Solvency.PaidOutIn(0));
    FourRows(PaidUnderBoth(), GroupMoney.PaidOutOf());
    FourRows(PaidUnderBoth(), Solvency.PaidOutIn(0));
  }

  /** From one payment under the first version and the swap executed, to a second payment. */
  lemma {:induction false} SecondPayment(before: seq<Step>)
    requires Paying(Run(before), PaidOnce(), [0])
    ensures var steps, db := before + [PayOut(0, 0, 2)], Run(before + [PayOut(0, 0, 2)]);
            && Paying(db, PaidUnderBoth(), [0, 2]) && Solvency.EverPaysAgain(steps, 0)
            && Solvency.PaidFor(db.groups[0], 0) == 2 * Pot(db.groups[0])
            && Balance(db.ledger, Pool(0)) == 0
            && Solvency.PayoutDue(db, 0, 3) && Attempt(db, PayOut(0, 0, 3)) == Err(PayoutHeld)
  {
    var steps := before + [PayOut(0, 0, 2)];
    PaidSums();
    PaidOutRun(before, PaidOnce(), [0], 2);
    assert PaidOnce()[2 := Settled(PaidOnce()[2])] == PaidUnderBoth() && [0] + [2] == [0, 2];
    NotYetPaid(Run(before).payouts, 2);
    assert steps[..|before|] == before;
    assert Solvency.PaysAgainAfter(0)(steps[..|before|], steps[|before|]);
    PoolAfter(steps, PaidUnderBoth(), [0, 2]);
    PayoutRefused(Run(steps), PaidUnderBoth(), [0, 2], 3);
  }

  lemma BeforePayouts()
    ensures Waiting(Run(Setup()), FirstRows(), [])
  {
    CollectedDb();
  }

  /**
   * One cycle, collected once, is paid before and after the swap. The pool is
   * then empty, and the other cycle, collected in full, cannot be paid.
   */
  lemma CyclePaidTwice()
    ensures var db := Run(PaidThenSwapped());
            && |db.groups| == 1 && Solvency.EverPaysAgain(PaidThenSwapped(), 0)
            && Solvency.PaidFor(db.groups[0], 0) == 2 * Pot(db.groups[0])
            && Balance(db.ledger, Pool(0)) == 0
            && Solvency.PayoutDue(db, 0, 3) && Attempt(db, PayOut(0, 0, 3)) == Err(PayoutHeld)
  {
    BeforePayouts();
    PaidSums();
    PaidOutRun(Setup(), FirstRows(), [], 0);
    var payouts := FirstRows()[0 := Settled(FirstRows()[0])];
    assert payouts == [Settled(Row(0, 0, 1)), Row(1, 1, 1)] && [] + [0] == [0];
    SwappedRun(Setup() + [PayOut(0, 0, 0)], payouts, [0]);
    SecondPayment(Setup() + [PayOut(0, 0, 0)] + [SWAP_GOES_AHEAD]);
  }

  /** The swap has gone ahead with nothing paid. */
  lemma SwappedFirst()
    ensures var db := Run(Setup() + [SWAP_GOES_AHEAD]);
            Paying(db, FirstRows() + SwappedRows(), []) && db.groups[0].version == 2
  {
    BeforePayouts();
    SwappedRun(Setup(), FirstRows(), []);
  }

  lemma SupersededPayment()
    ensures var before := Setup() + [SWAP_GOES_AHEAD];
            && Solvency.PaysNew(Run(before), PayOut(0, 0, 0), 0)
            && var db := Run(before + [PayOut(0, 0, 0)]);
               Paying(db, PaidOnce(), [0]) && db.payouts[0].recipient == 0
  {
    SwappedFirst();
    PaidSums();
    PaidOutRun(Setup() + [SWAP_GOES_AHEAD], FirstRows() + SwappedRows(), [], 0);
    assert (FirstRows() + SwappedRows())[0 := Settled(Row(0, 0, 1))] == PaidOnce() && [] + [0] == [0];
  }

  /**
   * That nothing had been paid when the swap was executed is no protection: the
   * superseded row and the new one are both paid, with the same outcome.
   */
  lemma CyclePaidTwiceAfterEarlySwap()
    ensures |Run(Setup()).groups| == 1 && forall cycle: nat :: Solvency.PaidFor(Run(Setup()).groups[0], cycle) == 0
    ensures var db := Run(SwappedThenPaid());
            && |db.groups| == 1 && Solvency.EverPaysAgain(SwappedThenPaid(), 0)
            && Solvency.PaidFor(db.groups[0], 0) == 2 * Pot(db.groups[0])
            && Balance(db.ledger, Pool(0)) == 0
            && Solvency.PayoutDue(db, 0, 3) && Attempt(db, PayOut(0, 0, 3)) == Err(PayoutHeld)
  {
    BeforePayouts();
    forall cycle: nat ensures Sum(FirstRows(), Solvency.PaidOutIn(cycle)) == 0 {
      SumZero(FirstRows(), Solvency.PaidOutIn(cycle));
    }
    SupersededPayment();
    SecondPayment(Setup() + [SWAP_GOES_AHEAD] + [PayOut(0, 0, 0)]);
  }

  /**
   * With the swap executed, the turn of the first cycle is member 1's, and the
   * row of the version before still pays member 0.
   */
  lemma WrongMemberPaid()
    ensures var before := Setup() + [SWAP_GOES_AHEAD];
            var db, db' := Run(before), Run(before + [PayOut(0, 0, 0)]);
            && Solvency.PaysNew(db, PayOut(0, 0, 0), 0) && |db.groups| == 1 && |db'.payouts| == 1
            && 0 < |Turns(db.groups[0].payouts, db.groups[0].version)|
            && db.groups[0].payouts[0].cycle == 0 && db'.payouts[0].recipient == 0
            && GroupParties.HolderOf(db.groups[0], GroupParties.SlotInForce(db.groups[0], 0)) == Some(1)
  {
    SwappedFirst();
    SupersededPayment();
    var g := Run(Setup() + [SWAP_GOES_AHEAD]).groups[0];
    var rows := FirstRows() + SwappedRows();
    TurnsInForce(rows);
  }

  lemma {:induction false} TurnsInForce(rows: seq<PayoutSchedule>)
    requires rows == FirstRows() + SwappedRows()
    ensures Turns(rows, 2) == [TurnOf(Row(0, 1, 2)), TurnOf(Row(1, 0, 2))]
  {
    Rotation.TurnsConcat(FirstRows(), SwappedRows(), 2);
    Rotation.TurnsOfOneVersion(FirstRows(), 1, 2);
    Rotation.TurnsOfOneVersion(SwappedRows(), 2, 2);
  }
}
