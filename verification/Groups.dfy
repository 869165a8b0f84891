/**
 * Ajo groups: who holds which slot, the rotation fixed when a group locks, and
 * the swaps that re-assign turns afterwards. Money is in other modules.
 */
module Groups {
  import opened Prelude

  const MAX_SLOTS: nat := 1000
  const SWAP_TTL: int := 72 * 60 * 60_000

  datatype GroupStatus = Draft | Open | Locked | Active | Completed | Suspended | Closed
  datatype ContributionStatus = Pending | Due | PartiallyPaid | Paid | Overdue | Waived | Cancelled
  datatype PayoutStatus = PayoutPending | Ready | Processing | PaidOut | Held | Failed | PayoutCancelled
  datatype SwapStatus = SwapPending | Rejected | Executed | Expired

  datatype Member = Member(user: nat, admin: bool, active: bool)
  datatype Slot = Slot(member: nat, position: int, activated: bool)
  datatype Plan = Plan(member: nat, unit: int, quantity: int, perCycle: int,
                       totalExpected: int, outstanding: int, entitlement: int, locked: bool)
  datatype ContributionSchedule = ContributionSchedule(
    cycle: nat, slot: nat, due: int, paid: int, dueAt: int, status: ContributionStatus, version: nat)
  datatype PayoutSchedule = PayoutSchedule(
    cycle: nat, slot: nat, due: int, paid: int, dueAt: int, status: PayoutStatus, version: nat)
  datatype Version = Version(number: nat, previous: Option<nat>, swap: Option<nat>,
                             members: int, slots: nat, cycles: nat, inflow: int, outflow: int)
  datatype Swap = Swap(requester: nat, from: nat, to: nat, status: SwapStatus,
                       previousVersion: nat, resulting: Option<nat>, expiresAt: int,
                       approvals: map<nat, bool>)

  /**
   * calendar[i] stands for the start date advanced by i periods; every date
   * the rotation uses is one of these plus a fixed offset.
   */
  datatype Group = Group(
    status: GroupStatus, base: int, unit: Option<int>,
    maxMembers: int, maxSlots: int, minPer: int, maxPer: int,
    calendar: seq<int>, endDate: int, payoutOffset: int, version: nat,
    members: seq<Member>, slots: seq<Slot>, plans: seq<Plan>,
    contribs: seq<ContributionSchedule>, payouts: seq<PayoutSchedule>,
    versions: seq<Version>, swaps: seq<Swap>)

  // ----- Creating and joining --------------------------------------------

  /** datesValid: the group runs at most a year and ends after it starts. */
  datatype NewGroup = NewGroup(
    unit: int, flexible: bool, maxMembers: int, maxSlots: int, minPer: int, maxPer: Option<int>,
    requested: int, calendar: seq<int>, endDate: int, payoutOffset: int, datesValid: bool)

  function ResolvedMaxPer(dto: NewGroup): int {
    if dto.maxPer.Some? then dto.maxPer.value else dto.maxSlots
  }

  /** The capacity rules, those of the service and those of the table's check constraint. */
  predicate CapacityOk(dto: NewGroup) {
    && 2 <= dto.maxSlots <= MAX_SLOTS && dto.datesValid
    && dto.minPer <= ResolvedMaxPer(dto) <= dto.maxSlots
    && dto.minPer <= dto.requested <= ResolvedMaxPer(dto)
    && dto.unit > 0
    && 2 <= dto.maxMembers <= 1000 && dto.minPer >= 1 && dto.payoutOffset >= 0
  }

  function ReservedSlots(member: nat, held: nat, requested: nat): (slots: seq<Slot>)
    ensures |slots| == requested
  {
    seq(requested, i => Slot(member, held + i + 1, false))
  }

  function OpeningPlan(member: nat, unit: int, requested: int): Plan {
    Plan(member, unit, requested, unit * requested, 0, 0, unit * requested, false)
  }

  function Create(user: nat, dto: NewGroup): Result<Group> {
    if !CapacityOk(dto) || |dto.calendar| != MAX_SLOTS then Err(Unprocessable)
    else Ok(Group(
      Draft, dto.unit, if dto.flexible then Some(dto.unit) else None,
      dto.maxMembers, dto.maxSlots, dto.minPer, ResolvedMaxPer(dto),
      dto.calendar, dto.endDate, dto.payoutOffset, 0,
      [Member(user, true, true)], ReservedSlots(0, 0, dto.requested),
      [OpeningPlan(0, dto.unit, dto.requested)], [], [], [], []))
  }

  function ActiveMember(): Member -> int { (m: Member) => if m.active then 1 else 0 }

  function UnitOf(g: Group): int { if g.unit.Some? then g.unit.value else g.base }

  /** The membership row of a user, if any. */
  function MemberOf(g: Group, user: nat): (m: Option<nat>)
    ensures m.Some? ==> m.value < |g.members| && g.members[m.value].user == user
    ensures m.None? ==> forall i :: 0 <= i < |g.members| ==> g.members[i].user != user
  {
    FindLast(g.members, (m: Member) => m.user == user)
  }

  predicate TakesMembers(g: Group) { g.status == Draft || g.status == Open }

  /** admitted: the organiser is verified and the code is a live invitation or the listed public code. */
  function Join(g: Group, user: nat, requested: int, admitted: bool): Result<Group> {
    if !TakesMembers(g) then Err(Conflict)
    else if !admitted then Err(Forbidden)
    else if |g.slots| + requested > g.maxSlots then Err(Conflict)
    else if Sum(g.members, ActiveMember()) >= g.maxMembers then Err(Conflict)
    else if requested < g.minPer || requested > g.maxPer then Err(Conflict)
    else if MemberOf(g, user).Some? || requested < 1 then Err(UniqueViolation)
    else Ok(g.(
      members := g.members + [Member(user, false, true)],
      slots := g.slots + ReservedSlots(|g.members|, |g.slots|, requested),
      plans := g.plans + [OpeningPlan(|g.members|, UnitOf(g), requested)]))
  }

  // ----- Locking ----------------------------------------------------------

  datatype Cycle = Cycle(sequence: nat, dueAt: int, payoutDueAt: int, payoutSlot: nat,
                         contribution: int, payout: int)

  predicate Contiguous(slots: seq<Slot>) {
    forall i :: 0 <= i < |slots| ==> slots[i].position == i + 1
  }

  predicate DatesFit(g: Group) {
    |g.slots| <= |g.calendar| && forall i :: 0 <= i < |g.slots| ==> g.calendar[i] <= g.endDate
  }

  /** What one cycle pays out: every slot's contribution. */
  function Pot(g: Group): int { g.base * |g.slots| }

  /** Cycle i of a group whose slots are stored in position order. */
  function CycleAt(g: Group, i: nat): Cycle
    requires i < |g.calendar|
  {
    Cycle(i + 1, g.calendar[i], g.calendar[i] + g.payoutOffset, i, g.base, Pot(g))
  }

  /** Places slot i behind every slot that stands no later: one step of a stable sort. */
  function InsertByPosition(order: seq<nat>, slots: seq<Slot>, i: nat): (r: seq<nat>)
    requires i < |slots| && forall k :: 0 <= k < |order| ==> order[k] < |slots|
    ensures |r| == |order| + 1 && forall k :: 0 <= k < |r| ==> r[k] < |slots|
  {
    if order == [] || slots[order[|order| - 1]].position <= slots[i].position then order + [i]
    else InsertByPosition(order[..|order| - 1], slots, i) + [order[|order| - 1]]
  }

  /** The first n slots in order of position. */
  function ByPosition(slots: seq<Slot>, n: nat): (order: seq<nat>)
    requires n <= |slots|
    ensures |order| == n && forall k :: 0 <= k < |order| ==> order[k] < |slots|
  {
    if n == 0 then [] else InsertByPosition(ByPosition(slots, n - 1), slots, n - 1)
  }

  /** In this order the positions read 1, 2, 3 and so on. */
  predicate Numbered(slots: seq<Slot>, order: seq<nat>)
    requires forall k :: 0 <= k < |order| ==> order[k] < |slots|
  {
    forall i :: 0 <= i < |order| ==> slots[order[i]].position == i + 1
  }

  /** One cycle per slot, in position order. */
  function GenerateRotation(g: Group): (r: Result<seq<Cycle>>)
    ensures r.Ok? ==> DatesFit(g) && |r.value| == |g.slots| >= 2
                      && forall i :: 0 <= i < |r.value| ==>
                           r.value[i] == CycleAt(g, i).(payoutSlot := ByPosition(g.slots, |g.slots|)[i])
  {
    var order := ByPosition(g.slots, |g.slots|);
    if |g.slots| < 2 || |g.slots| > MAX_SLOTS || g.base <= 0 || !Numbered(g.slots, order) || !DatesFit(g)
    then Err(Unprocessable)
    else Ok(seq(|g.slots|, i requires 0 <= i < |g.slots| => CycleAt(g, i).(payoutSlot := order[i])))
  }

  function QuantityOf(): Plan -> int { (p: Plan) => p.quantity }

  predicate PlansMatch(g: Group) {
    && |g.plans| == Sum(g.members, ActiveMember())
    && Sum(g.plans, QuantityOf()) == |g.slots|
  }

  predicate IsAdmin(g: Group, user: nat) {
    && MemberOf(g, user).Some?
    && g.members[MemberOf(g, user).value].admin
    && g.members[MemberOf(g, user).value].active
  }

  function CycleContributions(cycle: nat, c: Cycle, n: nat, version: nat): seq<ContributionSchedule> {
    seq(n, s requires 0 <= s < n => ContributionSchedule(cycle, s, c.contribution, 0, c.dueAt, Pending, version))
  }

  /** The contribution rows of the first k cycles, in the order the loop writes them. */
  function ContributionRows(cycles: seq<Cycle>, n: nat, version: nat): seq<ContributionSchedule> {
    if cycles == [] then []
    else
      var last := |cycles| - 1;
      ContributionRows(cycles[..last], n, version) + CycleContributions(last, cycles[last], n, version)
  }

  function PayoutRow(cycle: nat, c: Cycle, version: nat): PayoutSchedule {
    PayoutSchedule(cycle, c.payoutSlot, c.payout, 0, c.payoutDueAt, PayoutPending, version)
  }

  function PayoutRows(cycles: seq<Cycle>, version: nat): (rows: seq<PayoutSchedule>)
    ensures |rows| == |cycles|
    ensures forall i :: 0 <= i < |cycles| ==> rows[i] == PayoutRow(i, cycles[i], version)
  {
    seq(|cycles|, i requires 0 <= i < |cycles| => PayoutRow(i, cycles[i], version))
  }

  function LockedPlan(g: Group, p: Plan, cycles: nat): Plan {
    p.(totalExpected := p.perCycle * cycles,
       outstanding := p.perCycle * cycles,
       entitlement := g.base * |g.slots| * p.quantity,
       locked := true)
  }

  function LockedPlans(g: Group, cycles: nat): (plans: seq<Plan>)
    ensures |plans| == |g.plans|
    ensures forall i :: 0 <= i < |plans| ==> plans[i] == LockedPlan(g, g.plans[i], cycles)
  {
    seq(|g.plans|, i requires 0 <= i < |g.plans| => LockedPlan(g, g.plans[i], cycles))
  }

  function PayoutOf(): Cycle -> int { (c: Cycle) => c.payout }

  function Activated(slots: seq<Slot>): (r: seq<Slot>)
    ensures |r| == |slots|
    ensures forall i :: 0 <= i < |r| ==> r[i] == slots[i].(activated := true)
  {
    seq(|slots|, i requires 0 <= i < |slots| => slots[i].(activated := true))
  }

  function Snapshot(g: Group, cycles: seq<Cycle>): Version {
    Version(g.version + 1, None, None, Sum(g.members, ActiveMember()), |g.slots|, |cycles|,
            g.base * |g.slots| * |cycles|, Sum(cycles, PayoutOf()))
  }

  /** The rows a lock leaves. */
  function LockedRows(g: Group, cycles: seq<Cycle>): Group {
    g.(status := Locked, version := g.version + 1, slots := Activated(g.slots), plans := LockedPlans(g, |cycles|),
       contribs := g.contribs + ContributionRows(cycles, |g.slots|, g.version + 1),
       payouts := g.payouts + PayoutRows(cycles, g.version + 1), versions := g.versions + [Snapshot(g, cycles)])
  }

  function Lock(g: Group, user: nat): Result<Group> {
    if !IsAdmin(g, user) then Err(Forbidden)
    else if !TakesMembers(g) then Err(Conflict)
    else
      var cycles :- GenerateRotation(g);
      if Sum(g.members, ActiveMember()) > g.maxMembers || !PlansMatch(g) then Err(Unprocessable)
      else Ok(LockedRows(g, cycles))
  }

  // ----- Swaps ------------------------------------------------------------

  /** What a payout row assigns: which slot is paid in which cycle, how much and when. */
  datatype Turn = Turn(cycle: nat, slot: nat, due: int, dueAt: int)

  function TurnOf(row: PayoutSchedule): Turn { Turn(row.cycle, row.slot, row.due, row.dueAt) }

  /** The assignment of one schedule version, in row order. */
  function Turns(rows: seq<PayoutSchedule>, version: nat): seq<Turn> {
    if rows == [] then []
    else
      var last := |rows| - 1;
      Turns(rows[..last], version) + if rows[last].version == version then [TurnOf(rows[last])] else []
  }

  function Transpose(from: nat, to: nat, slot: nat): nat {
    if slot == from then to else if slot == to then from else slot
  }

  function Transposed(turns: seq<Turn>, from: nat, to: nat): (r: seq<Turn>)
    ensures |r| == |turns|
    ensures forall i :: 0 <= i < |r| ==> r[i] == turns[i].(slot := Transpose(from, to, turns[i].slot))
  {
    seq(|turns|, i requires 0 <= i < |turns| => turns[i].(slot := Transpose(from, to, turns[i].slot)))
  }

  function FreshRow(t: Turn, version: nat): PayoutSchedule {
    PayoutSchedule(t.cycle, t.slot, t.due, 0, t.dueAt, PayoutPending, version)
  }

  function FreshRows(turns: seq<Turn>, version: nat): (rows: seq<PayoutSchedule>)
    ensures |rows| == |turns|
    ensures forall i :: 0 <= i < |rows| ==> rows[i] == FreshRow(turns[i], version)
  {
    seq(|turns|, i requires 0 <= i < |turns| => FreshRow(turns[i], version))
  }

  predicate Touches(swap: Swap, from: nat, to: nat) {
    swap.from == from || swap.from == to || swap.to == from || swap.to == to
  }

  predicate Started(status: PayoutStatus) {
    status == Processing || status == PaidOut || status == Failed || status == PayoutCancelled
  }

  predicate HasConflict(g: Group, from: nat, to: nat) {
    exists i :: 0 <= i < |g.swaps| && g.swaps[i].status == SwapPending && Touches(g.swaps[i], from, to)
  }

  predicate HasStartedPayout(g: Group, from: nat, to: nat) {
    exists i :: 0 <= i < |g.payouts| && g.payouts[i].version == g.version
      && (g.payouts[i].slot == from || g.payouts[i].slot == to) && Started(g.payouts[i].status)
  }

  predicate HasOverdue(g: Group, from: nat, to: nat) {
    exists i :: 0 <= i < |g.contribs|
      && (g.contribs[i].slot == from || g.contribs[i].slot == to) && g.contribs[i].status == Overdue
  }

  predicate ActiveOwner(g: Group, slot: nat) {
    && slot < |g.slots| && g.slots[slot].member < |g.members|
    && g.members[g.slots[slot].member].active
  }

  function RequestSwap(g: Group, user: nat, from: nat, to: nat, now: int): Result<Group> {
    if from == to then Err(Unprocessable)
    else
      var m := MemberOf(g, user);
      if m.None? || !g.members[m.value].active then Err(Forbidden)
      else if g.status != Locked && g.status != Active then Err(Conflict)
      else if !ActiveOwner(g, from) || !ActiveOwner(g, to) then Err(Conflict)
      else if !g.members[m.value].admin && g.slots[from].member != m.value then Err(Forbidden)
      else if HasConflict(g, from, to) || HasStartedPayout(g, from, to) || HasOverdue(g, from, to)
      then Err(Conflict)
      else Ok(g.(swaps := g.swaps
        + [Swap(m.value, from, to, SwapPending, g.version, None, now + SWAP_TTL, map[])]))
  }

  /**
   * requirePending: an expired request is refused. The EXPIRED status written
   * on the way is part of the refused transaction, so it does not survive.
   */
  function PendingSwap(g: Group, swap: nat, now: int): Result<Swap> {
    if swap >= |g.swaps| then Err(NotFound)
    else if g.swaps[swap].status != SwapPending then Err(Conflict)
    else if g.swaps[swap].expiresAt <= now then Err(Conflict)
    else Ok(g.swaps[swap])
  }

  predicate Approved(s: Swap, member: nat) { member in s.approvals && s.approvals[member] }

  function Execute(g: Group, i: nat): Result<Group>
    requires i < |g.swaps|
  {
    var s := g.swaps[i];
    if s.status != SwapPending || g.status == Suspended || g.version != s.previousVersion
    then Err(Conflict)
    else
      var current := Turns(g.payouts, s.previousVersion);
      if current == [] then Err(Conflict)
      else
        var next := s.previousVersion + 1;
        Ok(g.(
          payouts := g.payouts + FreshRows(Transposed(current, s.from, s.to), next),
          versions := g.versions
            + [Version(next, Some(s.previousVersion), Some(i), 0, 0, 0, 0, 0)],
          version := next,
          swaps := g.swaps[i := s.(status := Executed, resulting := Some(next))]))
  }

  function ApproveSwap(g: Group, user: nat, i: nat, now: int): Result<Group> {
    var s :- PendingSwap(g, i, now);
    var m := MemberOf(g, user);
    if m.None? || !g.members[m.value].active then Err(Forbidden)
    else if s.from >= |g.slots| || s.to >= |g.slots| then Err(NotFound)
    else
      var owners := {g.slots[s.from].member, g.slots[s.to].member};
      if m.value !in owners then Err(Forbidden)
      else
        var s' := s.(approvals := s.approvals[m.value := true]);
        var g' := g.(swaps := g.swaps[i := s']);
        if forall owner :: owner in owners ==> Approved(s', owner) then Execute(g', i) else Ok(g')
  }

  function RejectSwap(g: Group, user: nat, i: nat, now: int): Result<Group> {
    var s :- PendingSwap(g, i, now);
    var m := MemberOf(g, user);
    if m.None? then Err(Forbidden)
    else if s.from >= |g.slots| || s.to >= |g.slots| then Err(NotFound)
    else if m.value !in {g.slots[s.from].member, g.slots[s.to].member} && !g.members[m.value].admin
    then Err(Forbidden)
    else Ok(g.(swaps := g.swaps[i := s.(status := Rejected, approvals := s.approvals[m.value := false])]))
  }

  // ----- The administrative steps of one group ----------------------------

  datatype GroupStep =
    | JoinGroup(user: nat, requested: int, admitted: bool)
    | LockGroup(user: nat)
    | RequestStep(user: nat, from: nat, to: nat)
    | ApproveStep(user: nat, swap: nat)
    | RejectStep(user: nat, swap: nat)

  function Govern(g: Group, step: GroupStep, now: int): Result<Group> {
    match step
    case JoinGroup(user, requested, admitted) => Join(g, user, requested, admitted)
    case LockGroup(user) => Lock(g, user)
    case RequestStep(user, from, to) => RequestSwap(g, user, from, to, now)
    case ApproveStep(user, swap) => ApproveSwap(g, user, swap, now)
    case RejectStep(user, swap) => RejectSwap(g, user, swap, now)
  }

  // ----- Money recorded on the schedules ----------------------------------

  function StatusFor(due: int, paid: int, dueAt: int, now: int): ContributionStatus {
    if paid >= due then Paid
    else if paid > 0 then PartiallyPaid
    else if now >= dueAt then Overdue else Due
  }

  predicate Outstanding(status: ContributionStatus) {
    status == Pending || status == Due || status == PartiallyPaid || status == Overdue
  }

  /** A contribution reaches its schedule: more paid, and the status the amounts give. */
  function RecordPaid(g: Group, s: nat, amount: int, now: int): Group
    requires s < |g.contribs|
  {
    var row := g.contribs[s];
    var paid := row.paid + amount;
    g.(contribs := g.contribs[s := row.(paid := paid, status := StatusFor(row.due, paid, row.dueAt, now))])
  }

  predicate FullyCollected(g: Group, cycle: nat) {
    forall i :: 0 <= i < |g.contribs| && g.contribs[i].cycle == cycle ==> !Outstanding(g.contribs[i].status)
  }

  predicate CanExecute(status: PayoutStatus) {
    status == PayoutPending || status == Ready || status == Held
  }

  function RecordPayout(g: Group, r: nat): Group
    requires r < |g.payouts|
  {
    g.(payouts := g.payouts[r := g.payouts[r].(status := PaidOut, paid := g.payouts[r].due)])
  }

  function HoldPayout(g: Group, r: nat): Group
    requires r < |g.payouts|
  {
    g.(payouts := g.payouts[r := g.payouts[r].(status := Held)])
  }
}
