/** One Ajo group's rows, and the operations that rewrite them in place. */
module GroupService {
  import opened Prelude
  import opened Groups

  /** Moves back from the end of a sorted order to where slot i belongs. */
  method PlaceFor(order: seq<nat>, slots: seq<Slot>, i: nat) returns (j: nat)
    requires i < |slots| && forall k :: 0 <= k < |order| ==> order[k] < |slots|
    ensures j <= |order| && order[..j] + [i] + order[j..] == InsertByPosition(order, slots, i)
  {
    j := |order|;
    assert order[..j] == order && order[j..] == [];
    while j > 0 && slots[order[j - 1]].position > slots[i].position
      invariant 0 <= j <= |order|
      invariant InsertByPosition(order, slots, i) == InsertByPosition(order[..j], slots, i) + order[j..]
    {
      assert order[..j][..j - 1] == order[..j - 1] && order[j - 1..] == [order[j - 1]] + order[j..];
      j := j - 1;
    }
    assert InsertByPosition(order[..j], slots, i) == order[..j] + [i];
  }

  /** The slots' indices in order of position; the slots themselves stay as they are. */
  method SortByPosition(slots: seq<Slot>) returns (order: seq<nat>)
    ensures order == ByPosition(slots, |slots|)
  {
    order := [];
    for n := 0 to |slots|
      invariant order == ByPosition(slots, n)
    {
      var j := PlaceFor(order, slots, n);
      order := order[..j] + [n] + order[j..];
    }
  }

  /** A cycle for every slot in position order, as long as the dates last. */
  method GenerateSchedule(g: Group) returns (r: Result<seq<Cycle>>)
    ensures r == GenerateRotation(g)
  {
    var n := |g.slots|;
    if n < 2 || n > MAX_SLOTS || g.base <= 0 {
      return Err(Unprocessable);
    }
    var order := SortByPosition(g.slots);
    var pot := Pot(g);
    var cycles: seq<Cycle> := [];
    for i := 0 to n
      invariant |cycles| == i <= |g.calendar|
      invariant forall k :: 0 <= k < i ==>
                  && cycles[k] == CycleAt(g, k).(payoutSlot := order[k])
                  && g.slots[order[k]].position == k + 1 && g.calendar[k] <= g.endDate
    {
      if g.slots[order[i]].position != i + 1 || i >= |g.calendar| || g.calendar[i] > g.endDate {
        return Err(Unprocessable);
      }
      cycles := cycles + [Cycle(i + 1, g.calendar[i], g.calendar[i] + g.payoutOffset, order[i], g.base, pot)];
    }
    r := Ok(cycles);
    assert GenerateRotation(g).Ok? && cycles == GenerateRotation(g).value;
  }

  class AjoGroup {
    var status: GroupStatus
    var base: int
    var unit: Option<int>
    var maxMembers: int
    var maxSlots: int
    var minPer: int
    var maxPer: int
    var calendar: seq<int>
    var endDate: int
    var payoutOffset: int
    var version: nat
    var members: seq<Member>
    var slots: seq<Slot>
    var plans: seq<Plan>
    var contribs: seq<ContributionSchedule>
    var payouts: seq<PayoutSchedule>
    var versions: seq<Version>
    var swaps: seq<Swap>

    /** The rows of a group whose capacity rules hold, with its founder's slots and plan. */
    constructor (user: nat, dto: NewGroup)
      requires CapacityOk(dto) && |dto.calendar| == MAX_SLOTS
      ensures Create(user, dto) == Ok(Rows())
    {
      status, base, unit := Draft, dto.unit, if dto.flexible then Some(dto.unit) else None;
      maxMembers, maxSlots, minPer, maxPer := dto.maxMembers, dto.maxSlots, dto.minPer, ResolvedMaxPer(dto);
      calendar, endDate, payoutOffset, version := dto.calendar, dto.endDate, dto.payoutOffset, 0;
      members, slots := [Member(user, true, true)], ReservedSlots(0, 0, dto.requested);
      plans := [OpeningPlan(0, dto.unit, dto.requested)];
      contribs, payouts, versions, swaps := [], [], [], [];
    }

    function Rows(): Group
      reads this
    {
      Group(status, base, unit, maxMembers, maxSlots, minPer, maxPer, calendar, endDate, payoutOffset, version,
            members, slots, plans, contribs, payouts, versions, swaps)
    }

    /** The operation left the rows as its specification says, or refused and left them alone. */
    ghost predicate Becomes(before: Group, outcome: Result<()>, spec: Result<Group>)
      reads this
    {
      match spec
      case Ok(g) => outcome.Ok? && Rows() == g
      case Err(error) => outcome == Err(error) && Rows() == before
    }

    /** Slots are appended at the next free positions. */
    method Join(user: nat, requested: int, admitted: bool) returns (outcome: Result<()>)
      modifies `members, `slots, `plans
      ensures Becomes(old(Rows()), outcome, Groups.Join(old(Rows()), user, requested, admitted))
    {
      if !TakesMembers(Rows()) {
        return Err(Conflict);
      }
      if !admitted {
        return Err(Forbidden);
      }
      if |slots| + requested > maxSlots {
        return Err(Conflict);
      }
      var active := Sum(members, ActiveMember());
      if active >= maxMembers || requested < minPer || requested > maxPer {
        return Err(Conflict);
      }
      if MemberOf(Rows(), user).Some? || requested < 1 {
        return Err(UniqueViolation);
      }
      var member := |members|;
      plans := plans + [OpeningPlan(member, UnitOf(Rows()), requested)];
      members := members + [Member(user, false, true)];
      slots := slots + ReservedSlots(member, |slots|, requested);
      outcome := Ok(());
    }

    /** Cycle by cycle: the contributions due in it and the payout it ends in. */
    method WriteSchedule(cycles: seq<Cycle>, next: nat)
      modifies `contribs, `payouts
      ensures contribs == old(contribs) + ContributionRows(cycles, |slots|, next)
      ensures payouts == old(payouts) + PayoutRows(cycles, next)
    {
      for i := 0 to |cycles|
        invariant contribs == old(contribs) + ContributionRows(cycles[..i], |slots|, next)
        invariant payouts == old(payouts) + PayoutRows(cycles[..i], next)
      {
        assert cycles[..i + 1][..i] == cycles[..i];
        contribs := contribs + CycleContributions(i, cycles[i], |slots|, next);
        assert contribs == old(contribs) + ContributionRows(cycles[..i + 1], |slots|, next);
        payouts := payouts + [PayoutRow(i, cycles[i], next)];
        assert PayoutRows(cycles[..i + 1], next) == PayoutRows(cycles[..i], next) + [PayoutRow(i, cycles[i], next)];
      }
      assert cycles[..|cycles|] == cycles;
    }

    method LockPlans(cycles: nat)
      modifies `plans
      ensures plans == LockedPlans(old(Rows()), cycles)
    {
      for i := 0 to |plans|
        invariant |plans| == |old(plans)|
        invariant forall k :: 0 <= k < i ==> plans[k] == LockedPlan(old(Rows()), old(plans)[k], cycles)
        invariant forall k :: i <= k < |plans| ==> plans[k] == old(plans)[k]
      {
        var total := plans[i].perCycle * cycles;
        plans := plans[i := plans[i].(
          totalExpected := total, outstanding := total, entitlement := base * |slots| * plans[i].quantity, locked := true)];
      }
    }

    /** The checks of a lock, in order; the cycles it will write if they all pass. */
    method CheckLock(user: nat) returns (schedule: Result<seq<Cycle>>)
      ensures schedule.Err? ==> Groups.Lock(Rows(), user) == Err(schedule.error)
      ensures schedule.Ok? ==> Groups.Lock(Rows(), user) == Ok(LockedRows(Rows(), schedule.value))
    {
      if !IsAdmin(Rows(), user) {
        return Err(Forbidden);
      }
      if !TakesMembers(Rows()) {
        return Err(Conflict);
      }
      schedule := GenerateSchedule(Rows());
      if schedule.Err? {
        return;
      }
      var active := Sum(members, ActiveMember());
      var quantities := Sum(plans, QuantityOf());
      if active > maxMembers || |plans| != active || quantities != |slots| {
        schedule := Err(Unprocessable);
      }
    }

    method Lock(user: nat) returns (outcome: Result<()>)
      modifies `status, `version, `slots, `plans, `contribs, `payouts, `versions
      ensures Becomes(old(Rows()), outcome, Groups.Lock(old(Rows()), user))
    {
      var schedule := CheckLock(user);
      if schedule.Err? {
        return Err(schedule.error);
      }
      WriteLock(schedule.value);
      outcome := Ok(());
    }

    /** The version's snapshot, and the group's own row. */
    method FinishLock(cycles: seq<Cycle>)
      modifies `status, `version, `versions
      ensures status == Locked && version == old(version) + 1
      ensures versions == old(versions) + [Snapshot(old(Rows()), cycles)]
    {
      var active := Sum(members, ActiveMember());
      var outflow := Sum(cycles, PayoutOf());
      versions := versions + [Version(version + 1, None, None, active, |slots|, |cycles|,
                                      base * |slots| * |cycles|, outflow)];
      status, version := Locked, version + 1;
    }

    /** What a lock writes once every check has passed. */
    method WriteLock(cycles: seq<Cycle>)
      modifies `status, `version, `slots, `plans, `contribs, `payouts, `versions
      ensures Rows() == LockedRows(old(Rows()), cycles)
    {
      WriteRows(cycles);
      FinishLock(cycles);
    }

    method WriteRows(cycles: seq<Cycle>)
      modifies `slots, `plans, `contribs, `payouts
      ensures slots == Activated(old(slots)) && plans == LockedPlans(old(Rows()), |cycles|)
      ensures contribs == old(contribs) + ContributionRows(cycles, |old(slots)|, version + 1)
      ensures payouts == old(payouts) + PayoutRows(cycles, version + 1)
    {
      WriteSchedule(cycles, version + 1);
      LockPlans(|cycles|);
      slots := Activated(slots);
    }

    // ----- Swaps ----------------------------------------------------------

    method RequestSwap(user: nat, from: nat, to: nat, now: int) returns (outcome: Result<()>)
      modifies `swaps
      ensures Becomes(old(Rows()), outcome, Groups.RequestSwap(old(Rows()), user, from, to, now))
    {
      var g := Rows();
      if from == to {
        return Err(Unprocessable);
      }
      var m := MemberOf(g, user);
      if m.None? || !members[m.value].active {
        return Err(Forbidden);
      }
      if status != Locked && status != Active {
        return Err(Conflict);
      }
      if !ActiveOwner(g, from) || !ActiveOwner(g, to) {
        return Err(Conflict);
      }
      if !members[m.value].admin && slots[from].member != m.value {
        return Err(Forbidden);
      }
      if HasConflict(g, from, to) || HasStartedPayout(g, from, to) || HasOverdue(g, from, to) {
        return Err(Conflict);
      }
      swaps := swaps + [Swap(m.value, from, to, SwapPending, version, None, now + SWAP_TTL, map[])];
      outcome := Ok(());
    }

    /** An expired request is marked EXPIRED and refused; the caller's transaction then undoes the mark. */
    method RequirePending(i: nat, now: int) returns (outcome: Result<Swap>)
      modifies `swaps
      ensures outcome == PendingSwap(old(Rows()), i, now)
      ensures Rows() == if i < |old(swaps)| && old(swaps[i]).status == SwapPending && old(swaps[i]).expiresAt <= now
                        then old(Rows()).(swaps := old(swaps)[i := old(swaps)[i].(status := Expired)]) else old(Rows())
    {
      if i >= |swaps| {
        return Err(NotFound);
      }
      if swaps[i].status != SwapPending {
        return Err(Conflict);
      }
      if swaps[i].expiresAt <= now {
        swaps := swaps[i := swaps[i].(status := Expired)];
        return Err(Conflict);
      }
      outcome := Ok(swaps[i]);
    }

    /** Copies the turns of the version in force, exchanging two slots, as rows of the next version. */
    method CopyTurns(from: nat, to: nat, next: nat)
      requires next == version + 1
      modifies `payouts
      ensures payouts == old(payouts) + FreshRows(Transposed(Turns(old(payouts), version), from, to), next)
    {
      var before := payouts;
      for i := 0 to |before|
        invariant payouts == before + FreshRows(Transposed(Turns(before[..i], version), from, to), next)
      {
        ghost var copied := Turns(before[..i], version);
        assert before[..i + 1][..i] == before[..i];
        var row := before[i];
        if row.version == version {
          var slot := if row.slot == from then to else if row.slot == to then from else row.slot;
          payouts := payouts + [PayoutSchedule(row.cycle, slot, row.due, 0, row.dueAt, PayoutPending, next)];
          assert Turns(before[..i + 1], version) == copied + [TurnOf(row)];
          assert FreshRows(Transposed(copied + [TurnOf(row)], from, to), next)
              == FreshRows(Transposed(copied, from, to), next)
                 + [FreshRow(TurnOf(row).(slot := Transpose(from, to, row.slot)), next)];
        }
      }
      assert before[..|before|] == before;
    }

    method Execute(i: nat) returns (outcome: Result<()>)
      requires i < |swaps|
      modifies `payouts, `versions, `version, `swaps
      ensures Becomes(old(Rows()), outcome, Groups.Execute(old(Rows()), i))
    {
      var swap := swaps[i];
      if swap.status != SwapPending || status == Suspended || version != swap.previousVersion {
        return Err(Conflict);
      }
      if Turns(payouts, version) == [] {
        return Err(Conflict);
      }
      var next := version + 1;
      CopyTurns(swap.from, swap.to, next);
      versions := versions + [Version(next, Some(swap.previousVersion), Some(i), 0, 0, 0, 0, 0)];
      version := next;
      swaps := swaps[i := swap.(status := Executed, resulting := Some(next))];
      outcome := Ok(());
    }

    /** A refused approval, an expired request included, leaves the swaps as they were. */
    method Approve(user: nat, i: nat, now: int) returns (outcome: Result<()>)
      modifies `payouts, `versions, `version, `swaps
      ensures Becomes(old(Rows()), outcome, ApproveSwap(old(Rows()), user, i, now))
    {
      var saved := swaps;
      var pending := RequirePending(i, now);
      if pending.Err? {
        swaps := saved;
        return Err(pending.error);
      }
      var swap := pending.value;
      var m := MemberOf(Rows(), user);
      if m.None? || !members[m.value].active {
        return Err(Forbidden);
      }
      if swap.from >= |slots| || swap.to >= |slots| {
        return Err(NotFound);
      }
      var owners := {slots[swap.from].member, slots[swap.to].member};
      if m.value !in owners {
        return Err(Forbidden);
      }
      var approved := swap.(approvals := swap.approvals[m.value := true]);
      swaps := swaps[i := approved];
      if Approved(approved, slots[swap.from].member) && Approved(approved, slots[swap.to].member) {
        outcome := Execute(i);
        if outcome.Err? {
          swaps := saved;
        }
      } else {
        outcome := Ok(());
      }
    }

    method Reject(user: nat, i: nat, now: int) returns (outcome: Result<()>)
      modifies `swaps
      ensures Becomes(old(Rows()), outcome, RejectSwap(old(Rows()), user, i, now))
    {
      var saved := swaps;
      var pending := RequirePending(i, now);
      if pending.Err? {
        swaps := saved;
        return Err(pending.error);
      }
      var swap := pending.value;
      var m := MemberOf(Rows(), user);
      if m.None? {
        return Err(Forbidden);
      }
      if swap.from >= |slots| || swap.to >= |slots| {
        return Err(NotFound);
      }
      if m.value !in {slots[swap.from].member, slots[swap.to].member} && !members[m.value].admin {
        return Err(Forbidden);
      }
      swaps := swaps[i := swap.(status := Rejected, approvals := swap.approvals[m.value := false])];
      outcome := Ok(());
    }
  }

  /** Creates a group, or refuses bounds, capacity or dates that break the rules. */
  method Found(user: nat, dto: NewGroup) returns (outcome: Result<AjoGroup>)
    ensures match Create(user, dto)
            case Ok(g) => outcome.Ok? && fresh(outcome.value) && outcome.value.Rows() == g
            case Err(error) => outcome == Err(error)
  {
    if !CapacityOk(dto) || |dto.calendar| != MAX_SLOTS {
      return Err(Unprocessable);
    }
    var group := new AjoGroup(user, dto);
    outcome := Ok(group);
  }
}
