/** What each administrative request does to an Ajo group, for every request and every group a run can reach. */
module GroupOutcomes {
  import opened Prelude
  import opened Groups
  import opened Rotation
  import AjoOutcomes
  import GroupTheorems
  import Machine

  // ----- Founding and joining ---------------------------------------------

  /** The bounds a new group must keep. */
  predicate WithinBounds(dto: NewGroup) {
    var most := if dto.maxPer.Some? then dto.maxPer.value else dto.maxSlots;
    && dto.unit > 0 && dto.datesValid && dto.payoutOffset >= 0 && |dto.calendar| == 1000
    && 2 <= dto.maxMembers <= 1000 && 2 <= dto.maxSlots <= 1000
    && 1 <= dto.minPer <= dto.requested <= most <= dto.maxSlots
  }

  /** The next `count` slots, at the next positions, are this member's. */
  ghost predicate TakesSlots(slots: seq<Slot>, slots': seq<Slot>, m: nat, count: int) {
    && |slots'| == |slots| + count && slots <= slots'
    && forall i :: |slots| <= i < |slots'| ==> slots'[i] == Slot(m, i + 1, false)
  }

  /** One more plan: the member pays so many times the unit each cycle and is to receive nothing yet. */
  ghost predicate PlansFor(plans: seq<Plan>, plans': seq<Plan>, m: nat, unit: int, count: int) {
    plans' == plans + [Plan(m, unit, count, unit * count, 0, 0, unit * count, false)]
  }

  /** A group within its bounds, and no other, is founded; its founder administers it and holds the slots asked for. */
  lemma FoundingOutcome(user: nat, dto: NewGroup)
    ensures Create(user, dto).Ok? <==> WithinBounds(dto)
    ensures Create(user, dto).Ok? ==>
              var g := Create(user, dto).value;
              && g.status == Draft && g.base == dto.unit && g.unit == (if dto.flexible then Some(dto.unit) else None)
              && g.maxMembers == dto.maxMembers && g.maxSlots == dto.maxSlots && g.minPer == dto.minPer
              && g.maxPer == (if dto.maxPer.Some? then dto.maxPer.value else dto.maxSlots)
              && g.calendar == dto.calendar && g.endDate == dto.endDate && g.payoutOffset == dto.payoutOffset
              && g.members == [Member(user, true, true)] && NotYetLocked(g)
              && TakesSlots([], g.slots, 0, dto.requested) && PlansFor([], g.plans, 0, dto.unit, dto.requested)
  {
    if Create(user, dto).Ok? {
      var g := Create(user, dto).value;
      assert [] + [g.plans[0]] == g.plans;
    }
  }

  predicate IsMember(g: Group, user: nat) { exists m :: 0 <= m < |g.members| && g.members[m].user == user }

  /**
   * Joining is accepted exactly before the lock, with a code that admits, from
   * somebody not yet a member, for a number of slots within the bounds while
   * members and slots remain; and then the joiner has the next slots and a plan
   * for them, and nothing else changes.
   */
  lemma JoinOutcome(g: Group, user: nat, requested: int, admitted: bool)
    requires GroupOk(g)
    ensures Join(g, user, requested, admitted).Ok? <==>
              && (g.status == Draft || g.status == Open) && admitted && !IsMember(g, user)
              && g.minPer <= requested <= g.maxPer && |g.slots| + requested <= g.maxSlots && |g.members| < g.maxMembers
    ensures Join(g, user, requested, admitted).Ok? ==>
              var g' := Join(g, user, requested, admitted).value;
              && g' == g.(members := g'.members, slots := g'.slots, plans := g'.plans)
              && g'.members == g.members + [Member(user, false, true)]
              && TakesSlots(g.slots, g'.slots, |g.members|, requested)
              && PlansFor(g.plans, g'.plans, |g.members|, g.base, requested)
  {
    AllActive(g.members);
  }

  // ----- Locking ----------------------------------------------------------

  /** Every date the rotation needs lies within the group's time. */
  predicate DatesAllow(g: Group) {
    |g.slots| <= |g.calendar| && forall c :: 0 <= c < |g.slots| ==> g.calendar[c] <= g.endDate
  }

  /** Where a lock writes the row of a cycle and a slot. */
  function RowAt(n: nat, cycle: nat, slot: nat): nat { cycle * n + slot }

  /** For every cycle and slot one contribution of the base amount, due on the cycle's date. */
  ghost predicate AsksEverySlot(g: Group, contribs: seq<ContributionSchedule>) {
    && |contribs| == |g.slots| * |g.slots|
    && forall c: nat, s: nat :: c < |g.slots| && s < |g.slots| && c < |g.calendar| ==>
         RowAt(|g.slots|, c, s) < |contribs|
         && contribs[RowAt(|g.slots|, c, s)] == ContributionSchedule(c, s, g.base, 0, g.calendar[c], Pending, 1)
  }

  /** Each cycle pays the whole pot to the slot whose position is the cycle's, the offset after its date. */
  ghost predicate PaysInTurn(g: Group, payouts: seq<PayoutSchedule>) {
    && |payouts| == |g.slots|
    && forall c :: 0 <= c < |g.slots| && c < |g.calendar| ==>
         payouts[c] == PayoutSchedule(c, c, g.base * |g.slots|, 0, g.calendar[c] + g.payoutOffset, PayoutPending, 1)
         && g.slots[c].position == c + 1
  }

  lemma RowsEnd(n: nat, cycle: nat, slot: nat, cycles: nat)
    requires cycle < cycles && slot < n
    ensures RowAt(n, cycle, slot) < RowAt(n, cycles, 0)
    ensures cycle < cycles - 1 ==> RowAt(n, cycle, slot) < RowAt(n, cycles - 1, 0)
    ensures RowAt(n, cycles, 0) == RowAt(n, cycles - 1, 0) + n
  {
    assert cycles * n == (cycles - 1) * n + n;
    assert cycle * n + n <= cycles * n by {
      assert (cycle + 1) * n <= cycles * n;
    }
    if cycle < cycles - 1 {
      assert (cycle + 1) * n <= (cycles - 1) * n;
    }
  }

  lemma {:induction false} ContributionRowsPlaced(cycles: seq<Cycle>, n: nat, version: nat, cycle: nat, slot: nat)
    requires cycle < |cycles| && slot < n
    ensures |ContributionRows(cycles, n, version)| == RowAt(n, |cycles|, 0) > RowAt(n, cycle, slot)
    ensures ContributionRows(cycles, n, version)[RowAt(n, cycle, slot)]
         == ContributionSchedule(cycle, slot, cycles[cycle].contribution, 0, cycles[cycle].dueAt, Pending, version)
    decreases |cycles|
  {
    var last := |cycles| - 1;
    RowsEnd(n, cycle, slot, |cycles|);
    if cycle < last {
      ContributionRowsPlaced(cycles[..last], n, version, cycle, slot);
    } else if last > 0 {
      ContributionRowsPlaced(cycles[..last], n, version, last - 1, slot);
    }
  }

  lemma {:induction false} RotationAsksEverySlot(g: Group, cycles: seq<Cycle>, contribs: seq<ContributionSchedule>)
    requires IsRotation(g, cycles) && contribs == ContributionRows(cycles, |g.slots|, 1)
    ensures AsksEverySlot(g, contribs)
  {
    var n := |g.slots|;
    ContributionRowsPlaced(cycles, n, 1, 0, 0);
    forall c: nat, s: nat | c < n && s < n && c < |g.calendar|
      ensures RowAt(n, c, s) < |contribs|
      ensures contribs[RowAt(n, c, s)] == ContributionSchedule(c, s, g.base, 0, g.calendar[c], Pending, 1)
    {
      ContributionRowsPlaced(cycles, n, 1, c, s);
      assert cycles[c] == CycleAt(g, c);
    }
  }

  lemma {:induction false} RotationPaysInTurn(g: Group, cycles: seq<Cycle>, payouts: seq<PayoutSchedule>)
    requires IsRotation(g, cycles) && Contiguous(g.slots) && payouts == PayoutRows(cycles, 1)
    ensures PaysInTurn(g, payouts)
  {
    forall c | 0 <= c < |g.slots| && c < |g.calendar|
      ensures payouts[c] == PayoutSchedule(c, c, g.base * |g.slots|, 0, g.calendar[c] + g.payoutOffset, PayoutPending, 1)
    {
      assert payouts[c] == PayoutRow(c, CycleAt(g, c), 1);
    }
  }

  /** Every slot is in use and every plan fixed: so much over all cycles, and as many pots as it has slots. */
  ghost predicate EverythingFixed(g: Group, g': Group) {
    && |g'.slots| == |g.slots| && |g'.plans| == |g.plans|
    && (forall i :: 0 <= i < |g.slots| ==> g'.slots[i] == g.slots[i].(activated := true))
    && (forall m :: 0 <= m < |g.plans| ==>
          var total := g.plans[m].perCycle * |g.slots|;
          g'.plans[m] == g.plans[m].(totalExpected := total, outstanding := total,
                                     entitlement := g.base * |g.slots| * g.plans[m].quantity, locked := true))
  }

  lemma {:induction false} RotationFixesEverything(g: Group, cycles: seq<Cycle>)
    requires |cycles| == |g.slots|
    ensures EverythingFixed(g, LockedRows(g, cycles))
  {
  }

  /** What a lock writes, and all it writes. */
  ghost predicate FullyLocked(g: Group, g': Group) {
    && AsksEverySlot(g, g'.contribs) && PaysInTurn(g, g'.payouts) && EverythingFixed(g, g')
    && g' == g.(status := Locked, version := 1, slots := g'.slots, plans := g'.plans, contribs := g'.contribs,
                payouts := g'.payouts, versions := g'.versions)
  }

  lemma {:induction false} RotationLocks(g: Group, cycles: seq<Cycle>, g': Group)
    requires IsRotation(g, cycles) && Contiguous(g.slots) && NotYetLocked(g) && g' == LockedRows(g, cycles)
    ensures FullyLocked(g, g')
  {
    FirstRows(g, cycles);
    RotationAsksEverySlot(g, cycles, g'.contribs);
    RotationPaysInTurn(g, cycles, g'.payouts);
    RotationFixesEverything(g, cycles);
  }

  /** Locking is accepted exactly from the administrator, once, with two slots or more and dates that fit. */
  lemma LockAcceptedIff(g: Group, user: nat)
    requires GroupOk(g)
    ensures Lock(g, user).Ok? <==>
              && AjoOutcomes.Administers(g, user) && (g.status == Draft || g.status == Open)
              && |g.slots| >= 2 && DatesAllow(g)
  {
    LockSucceedsIff(g, user);
    AjoOutcomes.AdministersIff(g, user);
  }

  /**
   * Once locked, the group asks every slot for the base amount in every cycle,
   * on the cycle's date, and pays each cycle's pot to the slot whose turn it is,
   * the offset later.
   */
  lemma LockOutcome(g: Group, user: nat)
    requires GroupOk(g) && Lock(g, user).Ok?
    ensures FullyLocked(g, Lock(g, user).value)
  {
    LockWrites(g, user);
    RotationLocks(g, GenerateRotation(g).value, Lock(g, user).value);
  }

  /** In every run each contribution schedule is one slot's in one cycle, for the base amount, due on the cycle's date. */
  lemma {:induction false} ContributionsFollowTheCalendar(steps: seq<Machine.Step>, group: nat, k: nat)
    requires group < |Machine.Run(steps).groups| && k < |Machine.Run(steps).groups[group].contribs|
    ensures var g, row := Machine.Run(steps).groups[group], Machine.Run(steps).groups[group].contribs[k];
            && row.cycle < |g.slots| && row.slot < |g.slots| && row.cycle < |g.calendar|
            && row.due == g.base && row.dueAt == g.calendar[row.cycle] && 0 <= row.paid <= row.due
  {
    GroupTheorems.GroupInRun(steps, group);
    var g := Machine.Run(steps).groups[group];
    assert !TakesMembers(g) && ContributionRowOk(g, g.contribs[k]);
  }
}
