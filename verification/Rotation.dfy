/** What every operation on an Ajo group keeps, and what locking and swapping guarantee. */
module Rotation {
  import opened Prelude
  import opened Groups
  import ScheduleOrder

  // ----- The invariant ----------------------------------------------------

  function HeldBy(member: nat): Slot -> int { (s: Slot) => if s.member == member then 1 else 0 }
  function DueIn(cycle: nat): ContributionSchedule -> int {
    (r: ContributionSchedule) => if r.cycle == cycle then r.due else 0
  }
  /** What a contribution row asks of one member, and what a turn pays them. */
  function OwedBy(slots: seq<Slot>, member: nat): ContributionSchedule -> int {
    (r: ContributionSchedule) => if r.slot < |slots| && slots[r.slot].member == member then r.due else 0
  }
  function PaidTo(slots: seq<Slot>, member: nat): Turn -> int {
    (t: Turn) => if t.slot < |slots| && slots[t.slot].member == member then t.due else 0
  }
  function ExpectedOf(): Plan -> int { (p: Plan) => p.totalExpected }
  function EntitlementOf(): Plan -> int { (p: Plan) => p.entitlement }
  function ExecutedOne(): Swap -> int { (s: Swap) => if s.status == Executed then 1 else 0 }

  ghost predicate MembersOk(g: Group) {
    && g.base > 0 && (g.unit == None || g.unit == Some(g.base))
    && 1 <= |g.members| <= g.maxMembers && g.minPer >= 1
    && |g.slots| <= g.maxSlots <= MAX_SLOTS && |g.calendar| == MAX_SLOTS
    && g.members[0].admin
    && (forall i :: 0 <= i < |g.members| ==> g.members[i].active)
    && (forall i, j :: 0 <= i < j < |g.members| ==> g.members[i].user != g.members[j].user)
  }

  ghost predicate PlanOk(g: Group, m: nat)
    requires m < |g.plans|
  {
    && g.plans[m].member == m
    && g.plans[m].unit == g.base
    && g.plans[m].quantity == Sum(g.slots, HeldBy(m)) >= 1
    && g.plans[m].perCycle == g.base * g.plans[m].quantity
  }

  /** Slot positions are 1..n, one plan per active member, plan quantities are the slots held. */
  ghost predicate SlotsOk(g: Group) {
    && Contiguous(g.slots)
    && (forall i :: 0 <= i < |g.slots| ==> g.slots[i].member < |g.members|)
    && |g.plans| == |g.members|
    && (forall m :: 0 <= m < |g.plans| ==> PlanOk(g, m))
    && Sum(g.plans, QuantityOf()) == |g.slots|
  }

  /** One turn per cycle, every slot exactly once, the whole pot each time. */
  ghost predicate IsAssignment(g: Group, turns: seq<Turn>) {
    && |turns| == |g.slots|
    && (forall c :: 0 <= c < |turns| ==>
          && turns[c].cycle == c && turns[c].slot < |g.slots| && turns[c].due == Pot(g)
          && c < |g.calendar| && turns[c].dueAt == g.calendar[c] + g.payoutOffset)
    && (forall c, d :: 0 <= c < d < |turns| ==> turns[c].slot != turns[d].slot)
  }

  /** Version v is version v - 1 with the two slots of one executed swap exchanged. */
  ghost predicate FollowsBySwap(g: Group, v: nat)
    requires 2 <= v <= |g.versions|
  {
    && g.versions[v - 1].swap.Some?
    && var i := g.versions[v - 1].swap.value;
       && i < |g.swaps| && g.swaps[i].status == Executed && g.swaps[i].from != g.swaps[i].to
       && g.swaps[i].resulting == Some(v)
       && Turns(g.payouts, v) == Transposed(Turns(g.payouts, v - 1), g.swaps[i].from, g.swaps[i].to)
  }

  ghost predicate SwapOk(g: Group, s: Swap) {
    && s.from != s.to && s.from < |g.slots| && s.to < |g.slots| && 1 <= s.previousVersion <= g.version
    && s.requester < |g.members|
    && (s.status == Executed ==> s.resulting == Some(s.previousVersion + 1))
  }

  ghost predicate VersionsOk(g: Group) {
    && |g.versions| == g.version
    && (forall k :: 0 <= k < |g.versions| ==>
          && g.versions[k].number == k + 1
          && g.versions[k].previous == (if k == 0 then None else Some(k as nat)))
    && (forall v :: 1 <= v <= g.version ==> IsAssignment(g, Turns(g.payouts, v)))
    && (forall v :: 2 <= v <= g.version ==> FollowsBySwap(g, v))
    && (forall i :: 0 <= i < |g.swaps| ==> SwapOk(g, g.swaps[i]))
    && Sum(g.swaps, ExecutedOne()) == g.version - 1
  }

  ghost predicate ContributionRowOk(g: Group, r: ContributionSchedule) {
    && r.cycle < |g.slots| && r.slot < |g.slots| && r.due == g.base && r.version == 1
    && r.cycle < |g.calendar| && r.dueAt == g.calendar[r.cycle]
    && 0 <= r.paid <= r.due
    && (r.status == Paid <==> r.paid == r.due)
    && (r.status == Pending || r.status == PartiallyPaid || r.status == Paid)
  }

  ghost predicate PayoutRowOk(g: Group, r: PayoutSchedule) {
    && r.cycle < |g.slots| && r.slot < |g.slots| && r.due == Pot(g) && 1 <= r.version <= g.version
    && (r.paid == 0 || r.paid == r.due)
    && (r.status == PaidOut ==> r.paid == r.due)
    && (r.paid == 0 ==> CanExecute(r.status))
  }

  ghost predicate RowsOk(g: Group) {
    && (forall i :: 0 <= i < |g.contribs| ==> ContributionRowOk(g, g.contribs[i]))
    && (forall i :: 0 <= i < |g.payouts| ==> PayoutRowOk(g, g.payouts[i]))
    && (forall c :: 0 <= c < |g.slots| ==> Sum(g.contribs, DueIn(c)) == Pot(g))
    && (forall m :: 0 <= m < |g.plans| ==> Sum(g.contribs, OwedBy(g.slots, m)) == g.plans[m].totalExpected)
  }

  /** Every plan's expected total equals its entitlement: what a member pays in comes back out. */
  ghost predicate PlansLocked(g: Group) {
    forall m :: 0 <= m < |g.plans| ==>
      && g.plans[m].totalExpected == g.base * |g.slots| * g.plans[m].quantity
      && g.plans[m].entitlement == g.plans[m].totalExpected
  }

  ghost predicate NotYetLocked(g: Group) {
    g.version == 0 && g.contribs == [] && g.payouts == [] && g.versions == [] && g.swaps == []
  }

  ghost predicate LockedOk(g: Group) {
    && g.version >= 1 && |g.slots| >= 2 && VersionsOk(g) && RowsOk(g) && PlansLocked(g)
    && g.versions[0].inflow == g.base * |g.slots| * |g.slots| == g.versions[0].outflow
  }

  ghost predicate GroupOk(g: Group) {
    && MembersOk(g) && SlotsOk(g)
    && (TakesMembers(g) ==> NotYetLocked(g))
    && (!TakesMembers(g) ==> LockedOk(g))
  }

  // ----- Joining ----------------------------------------------------------

  lemma {:induction false} ReservedHeld(member: nat, held: nat, requested: nat, m: nat)
    ensures Sum(ReservedSlots(member, held, requested), HeldBy(m)) == if m == member then requested else 0
    decreases requested
  {
    var rows := ReservedSlots(member, held, requested);
    if requested > 0 {
      assert rows[..requested - 1] == ReservedSlots(member, held, requested - 1);
      ReservedHeld(member, held, requested - 1, m);
      assert HeldBy(m)(rows[requested - 1]) == if m == member then 1 else 0;
    }
  }

  lemma {:induction false} NobodyHolds(slots: seq<Slot>, m: nat)
    requires forall i :: 0 <= i < |slots| ==> slots[i].member != m
    ensures Sum(slots, HeldBy(m)) == 0
  {
    SumZero(slots, HeldBy(m));
  }

  lemma {:induction false} AllActive(members: seq<Member>)
    requires forall i :: 0 <= i < |members| ==> members[i].active
    ensures Sum(members, ActiveMember()) == |members|
    decreases |members|
  {
    if members != [] {
      AllActive(members[..|members| - 1]);
    }
  }

  lemma CreateOk(user: nat, dto: NewGroup)
    requires Create(user, dto).Ok?
    ensures GroupOk(Create(user, dto).value)
  {
    var g := Create(user, dto).value;
    ReservedHeld(0, 0, dto.requested, 0);
    SumAppend([], g.plans[0], QuantityOf());
    assert [] + [g.plans[0]] == g.plans;
  }

  lemma JoinKeeps(g: Group, user: nat, requested: int, admitted: bool)
    requires GroupOk(g) && Join(g, user, requested, admitted).Ok?
    ensures GroupOk(Join(g, user, requested, admitted).value)
  {
    var g' := Join(g, user, requested, admitted).value;
    var m := |g.members|;
    AllActive(g.members);
    forall p | 0 <= p < |g'.plans| ensures PlanOk(g', p) {
      SumConcat(g.slots, ReservedSlots(m, |g.slots|, requested), HeldBy(p));
      ReservedHeld(m, |g.slots|, requested, p);
      if p < m {
        assert PlanOk(g, p);
      } else {
        NobodyHolds(g.slots, m);
      }
    }
    SumAppend(g.plans, g'.plans[m], QuantityOf());
    assert Contiguous(g'.slots);
  }

  // ----- Locking ----------------------------------------------------------

  /** In every group that still takes members, lock's plan and position guards cannot fire. */
  lemma LockGuardsUnreachable(g: Group)
    requires GroupOk(g)
    ensures PlansMatch(g) && Contiguous(g.slots)
    ensures Sum(g.members, ActiveMember()) <= g.maxMembers
  {
    AllActive(g.members);
  }

  /** What remains: lock succeeds exactly for the administrator, before any lock, with two slots and fitting dates. */
  lemma LockSucceedsIff(g: Group, user: nat)
    requires GroupOk(g)
    ensures Lock(g, user).Ok? <==> IsAdmin(g, user) && TakesMembers(g) && |g.slots| >= 2 && DatesFit(g)
  {
    LockGuardsUnreachable(g);
    ScheduleOrder.StoredInOrder(g);
  }

  lemma {:induction false} CycleDue(cycle: nat, c: Cycle, n: nat, version: nat, at: nat)
    ensures Sum(CycleContributions(cycle, c, n, version), DueIn(at)) == if at == cycle then c.contribution * n else 0
    decreases n
  {
    var rows := CycleContributions(cycle, c, n, version);
    if n > 0 {
      assert rows[..n - 1] == CycleContributions(cycle, c, n - 1, version);
      CycleDue(cycle, c, n - 1, version, at);
      assert DueIn(at)(rows[n - 1]) == if at == cycle then c.contribution else 0;
      assert c.contribution * n == c.contribution * (n - 1) + c.contribution;
    }
  }

  ghost predicate FreshContribution(r: ContributionSchedule, cycles: seq<Cycle>, n: nat, version: nat, base: int) {
    && r.cycle < |cycles| && r.slot < n && r.due == base && r.paid == 0 && r.status == Pending
    && r.dueAt == cycles[r.cycle].dueAt && r.version == version
  }

  lemma {:induction false} ContributionRowsDue(cycles: seq<Cycle>, n: nat, version: nat, base: int)
    requires forall i :: 0 <= i < |cycles| ==> cycles[i].contribution == base
    ensures forall at: nat :: Sum(ContributionRows(cycles, n, version), DueIn(at)) == if at < |cycles| then base * n else 0
    ensures forall i :: 0 <= i < |ContributionRows(cycles, n, version)| ==>
              FreshContribution(ContributionRows(cycles, n, version)[i], cycles, n, version, base)
    decreases |cycles|
  {
    if cycles != [] {
      var last := |cycles| - 1;
      ContributionRowsDue(cycles[..last], n, version, base);
      var rest, more := ContributionRows(cycles[..last], n, version), CycleContributions(last, cycles[last], n, version);
      forall at: nat ensures Sum(rest + more, DueIn(at)) == if at < |cycles| then base * n else 0 {
        SumConcat(rest, more, DueIn(at));
        CycleDue(last, cycles[last], n, version, at);
      }
      forall i | 0 <= i < |rest + more| ensures FreshContribution((rest + more)[i], cycles, n, version, base) {
        if i < |rest| {
          assert FreshContribution(rest[i], cycles[..last], n, version, base);
        }
      }
    }
  }

  lemma {:induction false} CycleOwed(slots: seq<Slot>, cycle: nat, c: Cycle, n: nat, version: nat, m: nat)
    requires n <= |slots|
    ensures Sum(CycleContributions(cycle, c, n, version), OwedBy(slots, m))
         == c.contribution * Sum(slots[..n], HeldBy(m))
    decreases n
  {
    var rows := CycleContributions(cycle, c, n, version);
    if n > 0 {
      assert rows[..n - 1] == CycleContributions(cycle, c, n - 1, version);
      assert slots[..n][..n - 1] == slots[..n - 1];
      CycleOwed(slots, cycle, c, n - 1, version, m);
      var one := HeldBy(m)(slots[n - 1]);
      assert OwedBy(slots, m)(rows[n - 1]) == c.contribution * one;
      assert c.contribution * (Sum(slots[..n - 1], HeldBy(m)) + one)
          == c.contribution * Sum(slots[..n - 1], HeldBy(m)) + c.contribution * one;
    }
  }

  lemma {:induction false} CycleShare(slots: seq<Slot>, cycle: nat, c: Cycle, version: nat, share: int, m: nat)
    requires c.contribution * Sum(slots, HeldBy(m)) == share
    ensures Sum(CycleContributions(cycle, c, |slots|, version), OwedBy(slots, m)) == share
  {
    CycleOwed(slots, cycle, c, |slots|, version, m);
    assert slots[..|slots|] == slots;
  }

  lemma OneMore(share: int, k: int)
    ensures share * (k + 1) == share * k + share
  {
  }

  /** Over all cycles a member's rows ask for its share of every cycle. */
  lemma {:induction false} ContributionRowsOwed(slots: seq<Slot>, cycles: seq<Cycle>, version: nat, share: int, m: nat)
    requires forall i :: 0 <= i < |cycles| ==> cycles[i].contribution * Sum(slots, HeldBy(m)) == share
    ensures Sum(ContributionRows(cycles, |slots|, version), OwedBy(slots, m)) == share * |cycles|
    decreases |cycles|
  {
    if cycles != [] {
      var last := |cycles| - 1;
      ContributionRowsOwed(slots, cycles[..last], version, share, m);
      SumConcat(ContributionRows(cycles[..last], |slots|, version),
                CycleContributions(last, cycles[last], |slots|, version), OwedBy(slots, m));
      CycleShare(slots, last, cycles[last], version, share, m);
      OneMore(share, last);
    }
  }

  lemma {:induction false} TurnsConcat(rows: seq<PayoutSchedule>, more: seq<PayoutSchedule>, v: nat)
    ensures Turns(rows + more, v) == Turns(rows, v) + Turns(more, v)
    decreases |more|
  {
    if more == [] {
      assert rows + more == rows;
    } else {
      var last := |more| - 1;
      assert (rows + more)[..|rows + more| - 1] == rows + more[..last];
      TurnsConcat(rows, more[..last], v);
    }
  }

  lemma {:induction false} TurnsOfOneVersion(rows: seq<PayoutSchedule>, version: nat, v: nat)
    requires forall i :: 0 <= i < |rows| ==> rows[i].version == version
    ensures v != version ==> Turns(rows, v) == []
    ensures v == version ==> |Turns(rows, v)| == |rows|
    ensures v == version ==>
              forall i :: 0 <= i < |rows| && i < |Turns(rows, v)| ==> Turns(rows, v)[i] == TurnOf(rows[i])
    decreases |rows|
  {
    if rows != [] {
      TurnsOfOneVersion(rows[..|rows| - 1], version, v);
    }
  }

  lemma {:induction false} TurnsUpdate(rows: seq<PayoutSchedule>, i: nat, row: PayoutSchedule, v: nat)
    requires i < |rows| && TurnOf(row) == TurnOf(rows[i]) && row.version == rows[i].version
    ensures Turns(rows[i := row], v) == Turns(rows, v)
    decreases |rows|
  {
    var last := |rows| - 1;
    if i == last {
      assert rows[i := row][..last] == rows[..last];
    } else {
      assert rows[i := row][..last] == rows[..last][i := row];
      TurnsUpdate(rows[..last], i, row, v);
    }
  }

  lemma {:induction false} PotsAddUp(cycles: seq<Cycle>, pot: int)
    requires forall i :: 0 <= i < |cycles| ==> cycles[i].payout == pot
    ensures Sum(cycles, PayoutOf()) == pot * |cycles|
    decreases |cycles|
  {
    if cycles != [] {
      PotsAddUp(cycles[..|cycles| - 1], pot);
      assert pot * |cycles| == pot * (|cycles| - 1) + pot;
    }
  }

  lemma ProductRearranged(a: int, b: int, c: int)
    ensures a * b * c == a * c * b
  {
  }

  lemma {:induction false} HeldUnchanged(slots: seq<Slot>, m: nat)
    ensures Sum(Activated(slots), HeldBy(m)) == Sum(slots, HeldBy(m))
    decreases |slots|
  {
    if slots != [] {
      var last := |slots| - 1;
      assert Activated(slots)[..last] == Activated(slots[..last]);
      HeldUnchanged(slots[..last], m);
    }
  }

  lemma {:induction false} QuantitiesUnchanged(plans: seq<Plan>, plans': seq<Plan>)
    requires |plans| == |plans'| && forall i :: 0 <= i < |plans| ==> plans[i].quantity == plans'[i].quantity
    ensures Sum(plans', QuantityOf()) == Sum(plans, QuantityOf())
    decreases |plans|
  {
    if plans != [] {
      QuantitiesUnchanged(plans[..|plans| - 1], plans'[..|plans| - 1]);
    }
  }

  lemma LockedPlansFair(g: Group, n: nat)
    requires SlotsOk(g) && n == |g.slots|
    ensures forall m :: 0 <= m < |g.plans| ==>
              && LockedPlans(g, n)[m].totalExpected == g.base * n * g.plans[m].quantity
              && LockedPlans(g, n)[m].entitlement == LockedPlans(g, n)[m].totalExpected
  {
    forall m | 0 <= m < |g.plans|
      ensures LockedPlans(g, n)[m].totalExpected == g.base * n * g.plans[m].quantity
    {
      assert PlanOk(g, m);
      ProductRearranged(g.base, g.plans[m].quantity, n);
    }
  }

  /** The rotation of a group whose slots are stored in position order. */
  ghost predicate IsRotation(g: Group, cycles: seq<Cycle>) {
    && DatesFit(g) && |cycles| == |g.slots| >= 2 && g.base > 0
    && forall i :: 0 <= i < |cycles| ==> cycles[i] == CycleAt(g, i)
  }

  lemma LockWrites(g: Group, user: nat)
    requires SlotsOk(g) && Lock(g, user).Ok?
    ensures GenerateRotation(g).Ok? && IsRotation(g, GenerateRotation(g).value)
    ensures Lock(g, user).value == LockedRows(g, GenerateRotation(g).value)
  {
    ScheduleOrder.StoredInOrder(g);
  }

  lemma LockKeepsMembers(g: Group, cycles: seq<Cycle>)
    requires GroupOk(g) && TakesMembers(g)
    ensures MembersOk(LockedRows(g, cycles)) && SlotsOk(LockedRows(g, cycles))
  {
    var g' := LockedRows(g, cycles);
    forall m | 0 <= m < |g'.plans| ensures PlanOk(g', m) {
      assert PlanOk(g, m);
      HeldUnchanged(g.slots, m);
    }
    QuantitiesUnchanged(g.plans, g'.plans);
  }

  lemma {:induction false} FirstRows(g: Group, cycles: seq<Cycle>)
    requires NotYetLocked(g)
    ensures LockedRows(g, cycles).contribs == ContributionRows(cycles, |g.slots|, 1)
    ensures LockedRows(g, cycles).payouts == PayoutRows(cycles, 1)
  {
    assert g.contribs + ContributionRows(cycles, |g.slots|, 1) == ContributionRows(cycles, |g.slots|, 1);
    assert g.payouts + PayoutRows(cycles, 1) == PayoutRows(cycles, 1);
  }

  lemma OneVersion(g: Group, cycles: seq<Cycle>)
    requires NotYetLocked(g)
    ensures var g' := LockedRows(g, cycles);
            && g'.version == 1 && g'.swaps == [] && |g'.versions| == 1
            && g'.versions[0].number == 1 && g'.versions[0].previous == None
            && |g'.slots| == |g.slots| && g'.base == g.base && g'.calendar == g.calendar
            && g'.payoutOffset == g.payoutOffset
  {
  }

  lemma LockIs(g: Group, user: nat)
    requires Lock(g, user).Ok?
    ensures GenerateRotation(g).Ok? && Lock(g, user).value == LockedRows(g, GenerateRotation(g).value)
  {
  }

  /** The rows a first lock writes. */
  lemma LockShape(g: Group, user: nat)
    requires NotYetLocked(g) && Lock(g, user).Ok?
    ensures var g', r := Lock(g, user).value, GenerateRotation(g);
            && r.Ok? && |r.value| == |g.slots| == |g'.slots| && g'.base == g.base && g'.version == 1
            && g'.contribs == ContributionRows(r.value, |g.slots|, 1)
            && g'.payouts == PayoutRows(r.value, 1)
            && g'.versions == [Snapshot(g, r.value)] && g'.swaps == []
            && g'.calendar == g.calendar && g'.payoutOffset == g.payoutOffset
  {
    LockIs(g, user);
    FirstRows(g, GenerateRotation(g).value);
    OneVersion(g, GenerateRotation(g).value);
  }

  /** The plans' expected totals are what the contribution rows ask for. */
  lemma {:induction false} LockedPlansMatchRows(g: Group, g': Group, cycles: seq<Cycle>, m: nat)
    requires SlotsOk(g) && IsRotation(g, cycles) && m < |g.plans|
    requires g'.contribs == ContributionRows(cycles, |g.slots|, 1)
    requires g'.slots == Activated(g.slots) && g'.plans == LockedPlans(g, |cycles|)
    ensures Sum(g'.contribs, OwedBy(g'.slots, m)) == g'.plans[m].totalExpected
  {
    assert PlanOk(g, m);
    HeldUnchanged(g.slots, m);
    ContributionRowsOwed(Activated(g.slots), cycles, 1, g.plans[m].perCycle, m);
  }

  lemma {:induction false} FreshContributionsOk(g: Group, g': Group, cycles: seq<Cycle>)
    requires IsRotation(g, cycles) && |g'.slots| == |g.slots| && g'.base == g.base && g'.calendar == g.calendar
    requires g'.contribs == ContributionRows(cycles, |g.slots|, 1)
    ensures forall i :: 0 <= i < |g'.contribs| ==> ContributionRowOk(g', g'.contribs[i])
    ensures forall c :: 0 <= c < |g'.slots| ==> Sum(g'.contribs, DueIn(c)) == Pot(g')
  {
    ContributionRowsDue(cycles, |g.slots|, 1, g.base);
    forall i | 0 <= i < |g'.contribs| ensures ContributionRowOk(g', g'.contribs[i]) {
      assert FreshContribution(g'.contribs[i], cycles, |g.slots|, 1, g.base);
    }
  }

  lemma FreshPayoutsOk(g: Group, g': Group, cycles: seq<Cycle>)
    requires IsRotation(g, cycles) && |g'.slots| == |g.slots| && g'.base == g.base && g'.version == 1
    requires g'.payouts == PayoutRows(cycles, 1)
    ensures forall i :: 0 <= i < |g'.payouts| ==> PayoutRowOk(g', g'.payouts[i])
  {
    forall i | 0 <= i < |g'.payouts| ensures PayoutRowOk(g', g'.payouts[i]) {
      assert g'.payouts[i] == PayoutRow(i, CycleAt(g, i), 1);
    }
  }

  lemma {:induction false} LockKeepsRows(g: Group, g': Group, cycles: seq<Cycle>)
    requires SlotsOk(g) && IsRotation(g, cycles) && g'.version == 1 && g'.base == g.base && g'.calendar == g.calendar
    requires g'.contribs == ContributionRows(cycles, |g.slots|, 1) && g'.payouts == PayoutRows(cycles, 1)
    requires g'.slots == Activated(g.slots) && g'.plans == LockedPlans(g, |cycles|)
    ensures RowsOk(g')
  {
    FreshContributionsOk(g, g', cycles);
    FreshPayoutsOk(g, g', cycles);
    forall m | 0 <= m < |g'.plans|
      ensures Sum(g'.contribs, OwedBy(g'.slots, m)) == g'.plans[m].totalExpected
    {
      LockedPlansMatchRows(g, g', cycles, m);
    }
  }

  lemma FirstVersionOk(g: Group)
    requires g.version == 1 && g.swaps == [] && IsAssignment(g, Turns(g.payouts, 1))
    requires |g.versions| == 1 && g.versions[0].number == 1 && g.versions[0].previous == None
    ensures VersionsOk(g)
  {
  }

  lemma FirstAssignment(g: Group, g': Group, cycles: seq<Cycle>)
    requires DatesFit(g) && |cycles| == |g.slots| == |g'.slots| && g'.base == g.base
    requires g'.calendar == g.calendar && g'.payoutOffset == g.payoutOffset
    requires forall i :: 0 <= i < |cycles| ==> cycles[i] == CycleAt(g, i)
    requires g'.payouts == PayoutRows(cycles, 1)
    ensures IsAssignment(g', Turns(g'.payouts, 1))
  {
    TurnsOfOneVersion(g'.payouts, 1, 1);
    var turns := Turns(g'.payouts, 1);
    forall c | 0 <= c < |turns|
      ensures turns[c] == Turn(c, c, Pot(g), g.calendar[c] + g.payoutOffset)
    {
      assert turns[c] == TurnOf(PayoutRow(c, CycleAt(g, c), 1));
    }
  }

  lemma LockedSnapshot(g: Group, cycles: seq<Cycle>)
    requires NotYetLocked(g) && SlotsOk(g) && IsRotation(g, cycles)
    ensures var g' := LockedRows(g, cycles);
            && PlansLocked(g') && |g'.slots| >= 2 && g'.version == 1 && |g'.versions| == 1 && !TakesMembers(g')
            && g'.versions[0].inflow == g'.base * |g'.slots| * |g'.slots| == g'.versions[0].outflow
  {
    LockedPlansFair(g, |g.slots|);
    PotsAddUp(cycles, Pot(g));
  }

  lemma LockKeeps(g: Group, user: nat)
    requires GroupOk(g) && Lock(g, user).Ok?
    ensures GroupOk(Lock(g, user).value)
  {
    LockWrites(g, user);
    var cycles := GenerateRotation(g).value;
    LockKeepsMembers(g, cycles);
    var g' := Lock(g, user).value;
    FirstRows(g, cycles);
    OneVersion(g, cycles);
    LockKeepsRows(g, g', cycles);
    FirstAssignment(g, g', cycles);
    FirstVersionOk(g');
    LockedSnapshot(g, cycles);
  }

  // ----- Swapping ---------------------------------------------------------

  lemma {:induction false} NoTurnsOf(rows: seq<PayoutSchedule>, v: nat)
    requires forall i :: 0 <= i < |rows| ==> rows[i].version != v
    ensures Turns(rows, v) == []
    decreases |rows|
  {
    if rows != [] {
      NoTurnsOf(rows[..|rows| - 1], v);
    }
  }

  /** A transposed assignment is again one turn per cycle and every slot once. */
  lemma TransposedAssignment(g: Group, turns: seq<Turn>, from: nat, to: nat)
    requires IsAssignment(g, turns) && from < |g.slots| && to < |g.slots|
    ensures IsAssignment(g, Transposed(turns, from, to))
  {
    var r := Transposed(turns, from, to);
    forall c, d | 0 <= c < d < |r| ensures r[c].slot != r[d].slot {
      assert turns[c].slot != turns[d].slot;
    }
  }

  ghost predicate TurnsAfter(g: Group, g': Group, s: Swap) {
    && g'.version == g.version + 1
    && (forall v :: 1 <= v <= g.version ==> Turns(g'.payouts, v) == Turns(g.payouts, v))
    && Turns(g'.payouts, g'.version) == Transposed(Turns(g.payouts, g.version), s.from, s.to)
  }

  function SwappedRows(g: Group, i: nat): seq<PayoutSchedule>
    requires i < |g.swaps|
  {
    FreshRows(Transposed(Turns(g.payouts, g.version), g.swaps[i].from, g.swaps[i].to), g.version + 1)
  }

  lemma {:induction false} OldTurnsStay(g: Group, i: nat, v: nat)
    requires i < |g.swaps| && v <= g.version
    ensures Turns(g.payouts + SwappedRows(g, i), v) == Turns(g.payouts, v)
  {
    TurnsConcat(g.payouts, SwappedRows(g, i), v);
    TurnsOfOneVersion(SwappedRows(g, i), g.version + 1, v);
  }

  lemma NewTurnsSwapped(g: Group, i: nat)
    requires RowsOk(g) && i < |g.swaps|
    ensures Turns(g.payouts + SwappedRows(g, i), g.version + 1)
         == Transposed(Turns(g.payouts, g.version), g.swaps[i].from, g.swaps[i].to)
  {
    var moved, added := Transposed(Turns(g.payouts, g.version), g.swaps[i].from, g.swaps[i].to), SwappedRows(g, i);
    TurnsConcat(g.payouts, added, g.version + 1);
    TurnsOfOneVersion(added, g.version + 1, g.version + 1);
    forall k | 0 <= k < |g.payouts| ensures g.payouts[k].version != g.version + 1 {
      assert PayoutRowOk(g, g.payouts[k]);
    }
    NoTurnsOf(g.payouts, g.version + 1);
    assert Turns(added, g.version + 1) == moved;
  }

  /** The turns of every version after a swap: the old ones, and the newest one transposed. */
  lemma ExecuteTurns(g: Group, i: nat)
    requires RowsOk(g) && i < |g.swaps| && Execute(g, i).Ok?
    ensures TurnsAfter(g, Execute(g, i).value, g.swaps[i])
  {
    assert Execute(g, i).value.payouts == g.payouts + SwappedRows(g, i);
    forall v | 1 <= v <= g.version ensures Turns(Execute(g, i).value.payouts, v) == Turns(g.payouts, v) {
      OldTurnsStay(g, i, v);
    }
    NewTurnsSwapped(g, i);
  }

  lemma ExecuteKeepsAssignments(g: Group, i: nat)
    requires VersionsOk(g) && RowsOk(g) && g.version >= 1 && i < |g.swaps| && Execute(g, i).Ok?
    ensures var g' := Execute(g, i).value;
            forall v :: 1 <= v <= g'.version ==> IsAssignment(g', Turns(g'.payouts, v))
  {
    var g', s := Execute(g, i).value, g.swaps[i];
    ExecuteTurns(g, i);
    assert SwapOk(g, s);
    assert IsAssignment(g, Turns(g.payouts, g.version));
    TransposedAssignment(g, Turns(g.payouts, g.version), s.from, s.to);
    assert Pot(g') == Pot(g);
    forall v | 1 <= v <= g'.version ensures IsAssignment(g', Turns(g'.payouts, v)) {
      assert v <= g.version ==> IsAssignment(g, Turns(g.payouts, v));
    }
  }

  lemma OldFollows(g: Group, g': Group, i: nat, v: nat)
    requires 2 <= v <= |g.versions| <= |g'.versions| && FollowsBySwap(g, v)
    requires g'.versions[v - 1] == g.versions[v - 1]
    requires i < |g.swaps| == |g'.swaps| && g.swaps[i].status != Executed
    requires forall k :: 0 <= k < |g.swaps| && k != i ==> g'.swaps[k] == g.swaps[k]
    requires Turns(g'.payouts, v) == Turns(g.payouts, v) && Turns(g'.payouts, v - 1) == Turns(g.payouts, v - 1)
    ensures FollowsBySwap(g', v)
  {
  }

  lemma ExecuteFields(g: Group, i: nat)
    requires i < |g.swaps| && Execute(g, i).Ok?
    ensures var g', s := Execute(g, i).value, g.swaps[i];
            && s.status == SwapPending && s.previousVersion == g.version && g'.version == g.version + 1
            && g'.swaps == g.swaps[i := s.(status := Executed, resulting := Some(g'.version))]
            && |g'.versions| == |g.versions| + 1 && g'.versions[..|g.versions|] == g.versions
            && g'.versions[|g.versions|].swap == Some(i)
            && g'.versions[|g.versions|].number == g'.version
            && g'.versions[|g.versions|].previous == Some(g.version)
  {
  }

  lemma ExecuteKeepsChain(g: Group, g': Group, i: nat)
    requires |g.versions| == g.version >= 1 && i < |g.swaps| && SwapOk(g, g.swaps[i])
    requires forall v :: 2 <= v <= g.version ==> FollowsBySwap(g, v)
    requires g.swaps[i].status == SwapPending && g'.version == g.version + 1
    requires g'.swaps == g.swaps[i := g.swaps[i].(status := Executed, resulting := Some(g'.version))]
    requires |g'.versions| == g'.version && g'.versions[..g.version] == g.versions
    requires g'.versions[g.version].swap == Some(i)
    requires TurnsAfter(g, g', g.swaps[i])
    ensures forall v :: 2 <= v <= g'.version ==> FollowsBySwap(g', v)
  {
    assert FollowsBySwap(g', g'.version);
    forall v | 2 <= v <= g.version ensures FollowsBySwap(g', v) {
      assert g'.versions[v - 1] == g'.versions[..g.version][v - 1];
      OldFollows(g, g', i, v);
    }
  }

  lemma ExecuteKeepsVersions(g: Group, i: nat)
    requires VersionsOk(g) && RowsOk(g) && g.version >= 1 && i < |g.swaps| && Execute(g, i).Ok?
    ensures VersionsOk(Execute(g, i).value)
  {
    var g' := Execute(g, i).value;
    ExecuteTurns(g, i);
    ExecuteKeepsAssignments(g, i);
    ExecuteFields(g, i);
    assert SwapOk(g, g.swaps[i]);
    ExecuteKeepsChain(g, g', i);
    forall k | 0 <= k < |g'.swaps| ensures SwapOk(g', g'.swaps[k]) {
      assert SwapOk(g, g.swaps[k]);
    }
    SumUpdate(g.swaps, i, g'.swaps[i], ExecutedOne());
  }

  lemma ExecuteKeepsRows(g: Group, i: nat)
    requires VersionsOk(g) && RowsOk(g) && g.version >= 1 && i < |g.swaps| && Execute(g, i).Ok?
    ensures RowsOk(Execute(g, i).value)
  {
    var g' := Execute(g, i).value;
    assert IsAssignment(g, Turns(g.payouts, g.version));
    assert SwapOk(g, g.swaps[i]);
    forall k | 0 <= k < |g'.payouts| ensures PayoutRowOk(g', g'.payouts[k]) {
      if k < |g.payouts| {
        assert PayoutRowOk(g, g.payouts[k]);
      }
    }
    forall k | 0 <= k < |g'.contribs| ensures ContributionRowOk(g', g'.contribs[k]) {
      assert ContributionRowOk(g, g.contribs[k]);
    }
    assert Pot(g') == Pot(g);
  }

  lemma ExecuteKeeps(g: Group, i: nat)
    requires GroupOk(g) && !TakesMembers(g) && i < |g.swaps| && Execute(g, i).Ok?
    ensures GroupOk(Execute(g, i).value) && !TakesMembers(Execute(g, i).value)
  {
    ExecuteKeepsVersions(g, i);
    ExecuteKeepsRows(g, i);
    var g' := Execute(g, i).value;
    assert Pot(g') == Pot(g);
    assert g'.versions[0] == g.versions[0];
    forall m | 0 <= m < |g'.plans| ensures PlanOk(g', m) {
      assert PlanOk(g, m);
    }
  }

  /** Rewriting a swap that was not executed, or adding one, disturbs no version. */
  lemma SwapsOnly(g: Group, g': Group)
    requires GroupOk(g) && !TakesMembers(g) && g' == g.(swaps := g'.swaps) && |g.swaps| <= |g'.swaps|
    requires forall k :: 0 <= k < |g.swaps| && g.swaps[k].status == Executed ==> g'.swaps[k] == g.swaps[k]
    requires forall k :: 0 <= k < |g'.swaps| ==> SwapOk(g, g'.swaps[k])
    requires Sum(g'.swaps, ExecutedOne()) == Sum(g.swaps, ExecutedOne())
    ensures GroupOk(g') && !TakesMembers(g')
  {
    forall v | 2 <= v <= g'.version ensures FollowsBySwap(g', v) {
      assert FollowsBySwap(g, v);
    }
    assert VersionsOk(g') by {
      forall v | 1 <= v <= g'.version ensures IsAssignment(g', Turns(g'.payouts, v)) {
        assert IsAssignment(g, Turns(g.payouts, v));
      }
      forall k | 0 <= k < |g'.swaps| ensures SwapOk(g', g'.swaps[k]) {
        assert SwapOk(g, g'.swaps[k]);
      }
    }
    assert RowsOk(g') by {
      assert Pot(g') == Pot(g);
      forall k | 0 <= k < |g'.payouts| ensures PayoutRowOk(g', g'.payouts[k]) {
        assert PayoutRowOk(g, g.payouts[k]);
      }
      forall k | 0 <= k < |g'.contribs| ensures ContributionRowOk(g', g'.contribs[k]) {
        assert ContributionRowOk(g, g.contribs[k]);
      }
    }
    forall m | 0 <= m < |g'.plans| ensures PlanOk(g', m) {
      assert PlanOk(g, m);
    }
  }

  lemma ApproveKeeps(g: Group, user: nat, i: nat, now: int)
    requires GroupOk(g) && ApproveSwap(g, user, i, now).Ok?
    ensures GroupOk(ApproveSwap(g, user, i, now).value)
  {
    var s := g.swaps[i];
    var s' := s.(approvals := s.approvals[MemberOf(g, user).value := true]);
    var g1 := g.(swaps := g.swaps[i := s']);
    SumUpdate(g.swaps, i, s', ExecutedOne());
    assert SwapOk(g, s);
    SwapsOnly(g, g1);
    if ApproveSwap(g, user, i, now).value != g1 {
      ExecuteKeeps(g1, i);
    }
  }

  lemma RejectKeeps(g: Group, user: nat, i: nat, now: int)
    requires GroupOk(g) && RejectSwap(g, user, i, now).Ok?
    ensures GroupOk(RejectSwap(g, user, i, now).value)
  {
    var g' := RejectSwap(g, user, i, now).value;
    SumUpdate(g.swaps, i, g'.swaps[i], ExecutedOne());
    assert SwapOk(g, g.swaps[i]);
    SwapsOnly(g, g');
  }

  lemma RequestKeeps(g: Group, user: nat, from: nat, to: nat, now: int)
    requires GroupOk(g) && RequestSwap(g, user, from, to, now).Ok?
    ensures GroupOk(RequestSwap(g, user, from, to, now).value)
  {
    var g' := RequestSwap(g, user, from, to, now).value;
    SumAppend(g.swaps, g'.swaps[|g.swaps|], ExecutedOne());
    assert SwapOk(g, g'.swaps[|g.swaps|]);
    SwapsOnly(g, g');
  }

  // ----- Money recorded on the schedules ----------------------------------

  lemma RecordPaidKeeps(g: Group, s: nat, amount: int, now: int)
    requires GroupOk(g) && s < |g.contribs| && 0 < amount <= g.contribs[s].due - g.contribs[s].paid
    ensures GroupOk(RecordPaid(g, s, amount, now)) && !TakesMembers(g)
  {
    var g' := RecordPaid(g, s, amount, now);
    assert ContributionRowOk(g, g.contribs[s]);
    assert RowsOk(g') by {
      assert Pot(g') == Pot(g);
      forall c | 0 <= c < |g'.slots| ensures Sum(g'.contribs, DueIn(c)) == Pot(g') {
        SumUpdate(g.contribs, s, g'.contribs[s], DueIn(c));
      }
      forall m | 0 <= m < |g'.plans|
        ensures Sum(g'.contribs, OwedBy(g'.slots, m)) == g'.plans[m].totalExpected
      {
        SumUpdate(g.contribs, s, g'.contribs[s], OwedBy(g.slots, m));
      }
      forall k | 0 <= k < |g'.payouts| ensures PayoutRowOk(g', g'.payouts[k]) {
        assert PayoutRowOk(g, g.payouts[k]);
      }
      forall k | 0 <= k < |g'.contribs| ensures ContributionRowOk(g', g'.contribs[k]) {
        assert ContributionRowOk(g, g.contribs[k]);
      }
    }
    SchedulesOnly(g, g');
  }

  /** Changing only row amounts and statuses disturbs neither slots nor versions. */
  lemma SchedulesOnly(g: Group, g': Group)
    requires GroupOk(g) && !TakesMembers(g) && RowsOk(g')
    requires g' == g.(contribs := g'.contribs, payouts := g'.payouts)
    requires forall v: nat :: Turns(g'.payouts, v) == Turns(g.payouts, v)
    ensures GroupOk(g')
  {
    assert VersionsOk(g') by {
      forall v | 2 <= v <= g'.version ensures FollowsBySwap(g', v) {
        assert FollowsBySwap(g, v);
      }
      forall v | 1 <= v <= g'.version ensures IsAssignment(g', Turns(g'.payouts, v)) {
        assert IsAssignment(g, Turns(g.payouts, v));
      }
      forall k | 0 <= k < |g'.swaps| ensures SwapOk(g', g'.swaps[k]) {
        assert SwapOk(g, g.swaps[k]);
      }
    }
    forall m | 0 <= m < |g'.plans| ensures PlanOk(g', m) {
      assert PlanOk(g, m);
    }
  }

  lemma PayoutRowUpdateKeeps(g: Group, r: nat, row: PayoutSchedule)
    requires GroupOk(g) && !TakesMembers(g) && r < |g.payouts| && PayoutRowOk(g, row)
    requires TurnOf(row) == TurnOf(g.payouts[r]) && row.version == g.payouts[r].version
    ensures GroupOk(g.(payouts := g.payouts[r := row]))
  {
    var g' := g.(payouts := g.payouts[r := row]);
    forall v: nat ensures Turns(g'.payouts, v) == Turns(g.payouts, v) {
      TurnsUpdate(g.payouts, r, row, v);
    }
    assert RowsOk(g') by {
      assert Pot(g') == Pot(g);
      forall k | 0 <= k < |g'.payouts| ensures PayoutRowOk(g', g'.payouts[k]) {
        assert PayoutRowOk(g, if k == r then row else g.payouts[k]);
      }
      forall k | 0 <= k < |g'.contribs| ensures ContributionRowOk(g', g'.contribs[k]) {
        assert ContributionRowOk(g, g.contribs[k]);
      }
    }
    SchedulesOnly(g, g');
  }

  lemma RecordPayoutKeeps(g: Group, r: nat)
    requires GroupOk(g) && r < |g.payouts|
    ensures GroupOk(RecordPayout(g, r)) && GroupOk(HoldPayout(g, r)) && !TakesMembers(g)
  {
    assert PayoutRowOk(g, g.payouts[r]);
    PayoutRowUpdateKeeps(g, r, g.payouts[r].(status := PaidOut, paid := g.payouts[r].due));
    PayoutRowUpdateKeeps(g, r, g.payouts[r].(status := Held));
  }

  lemma GovernKeeps(g: Group, step: GroupStep, now: int)
    requires GroupOk(g) && Govern(g, step, now).Ok?
    ensures GroupOk(Govern(g, step, now).value)
  {
    match step
    case JoinGroup(user, requested, admitted) => JoinKeeps(g, user, requested, admitted);
    case LockGroup(user) => LockKeeps(g, user);
    case RequestStep(user, from, to) => RequestKeeps(g, user, from, to, now);
    case ApproveStep(user, swap) => ApproveKeeps(g, user, swap, now);
    case RejectStep(user, swap) => RejectKeeps(g, user, swap, now);
  }

  // ----- What a locked rotation guarantees --------------------------------

  function SlotNumbers(turns: seq<Turn>): (s: seq<nat>)
    ensures |s| == |turns| && forall i :: 0 <= i < |s| ==> s[i] == turns[i].slot
  {
    seq(|turns|, i requires 0 <= i < |turns| => turns[i].slot)
  }

  ghost predicate Injective(s: seq<nat>) {
    forall i, j :: 0 <= i < j < |s| ==> s[i] != s[j]
  }

  function Below(n: nat): (numbers: set<nat>)
    ensures |numbers| == n
    ensures forall k: nat :: k in numbers <==> k < n
  {
    if n == 0 then {} else Below(n - 1) + {n - 1}
  }

  function Elements(s: seq<nat>): (elements: set<nat>)
    requires Injective(s)
    ensures |elements| == |s|
    ensures forall k: nat :: k in elements <==> k in s
  {
    if s == [] then {} else
      var last := |s| - 1;
      assert s == s[..last] + [s[last]];
      assert s[last] !in s[..last];
      Elements(s[..last]) + {s[last]}
  }

  /** n different numbers below n are all the numbers below n. */
  lemma EveryNumberOccurs(s: seq<nat>, k: nat)
    requires Injective(s) && (forall x :: x in s ==> x < |s|) && k < |s|
    ensures k in s
  {
    var elements, numbers := Elements(s), Below(|s|);
    assert elements + (numbers - elements) == numbers;
    assert |elements + (numbers - elements)| == |elements| + |numbers - elements|;
    assert k in numbers && k !in numbers - elements;
  }

  /** In every version every slot has its turn: the rows are a bijection of cycles and slots. */
  lemma {:induction false} EverySlotIsPaid(g: Group, v: nat, slot: nat)
    requires GroupOk(g) && 1 <= v <= g.version && slot < |g.slots|
    ensures exists c :: 0 <= c < |Turns(g.payouts, v)| && Turns(g.payouts, v)[c].slot == slot
  {
    var turns := Turns(g.payouts, v);
    assert IsAssignment(g, turns);
    EveryNumberOccurs(SlotNumbers(turns), slot);
    var c :| 0 <= c < |turns| && SlotNumbers(turns)[c] == slot;
    assert turns[c].slot == slot;
  }

  function HeldAt(slots: seq<Slot>, m: nat): nat -> int {
    (k: nat) => if k < |slots| && slots[k].member == m then 1 else 0
  }

  lemma DropInjective(s: seq<nat>, p: nat)
    requires Injective(s) && p < |s|
    ensures Injective(Drop(s, p))
    ensures forall k :: k in Drop(s, p) ==> k in s && k != s[p]
  {
    var rest := Drop(s, p);
    forall i | 0 <= i < |rest| ensures rest[i] in s && rest[i] != s[p] {
      assert rest[i] == s[if i < p then i else i + 1];
    }
  }

  /** Summed over any permutation of the slots, a member's slots are counted once each. */
  lemma {:induction false} PermutationCountsSlots(slots: seq<Slot>, s: seq<nat>, n: nat, m: nat)
    requires Injective(s) && |s| == n <= |slots| && forall k :: k in s ==> k < n
    ensures Sum(s, HeldAt(slots, m)) == Sum(slots[..n], HeldBy(m))
    decreases n
  {
    if n > 0 {
      EveryNumberOccurs(s, n - 1);
      var p :| 0 <= p < |s| && s[p] == n - 1;
      var rest := Drop(s, p);
      SumDrop(s, p, HeldAt(slots, m));
      DropInjective(s, p);
      PermutationCountsSlots(slots, rest, n - 1, m);
      assert slots[..n][..n - 1] == slots[..n - 1];
      assert HeldAt(slots, m)(s[p]) == HeldBy(m)(slots[n - 1]);
    }
  }

  lemma {:induction false} TurnsPayHeldSlots(g: Group, turns: seq<Turn>, m: nat)
    requires forall i :: 0 <= i < |turns| ==> turns[i].due == Pot(g)
    ensures Sum(turns, PaidTo(g.slots, m)) == Pot(g) * Sum(SlotNumbers(turns), HeldAt(g.slots, m))
    decreases |turns|
  {
    if turns != [] {
      var last := |turns| - 1;
      assert SlotNumbers(turns)[..last] == SlotNumbers(turns[..last]);
      TurnsPayHeldSlots(g, turns[..last], m);
      var one := HeldAt(g.slots, m)(turns[last].slot);
      assert PaidTo(g.slots, m)(turns[last]) == Pot(g) * one;
      var before := Sum(SlotNumbers(turns[..last]), HeldAt(g.slots, m));
      assert Pot(g) * (before + one) == Pot(g) * before + Pot(g) * one;
    }
  }

  /**
   * The lock is fair, and stays fair through every swap: in every schedule
   * version the turns of a member's slots pay out exactly what the member's
   * contribution rows ask for over the rotation.
   */
  lemma {:induction false} MemberGetsWhatItPays(g: Group, v: nat, m: nat)
    requires GroupOk(g) && 1 <= v <= g.version && m < |g.plans|
    ensures Sum(Turns(g.payouts, v), PaidTo(g.slots, m)) == g.plans[m].entitlement
    ensures Sum(g.contribs, OwedBy(g.slots, m)) == g.plans[m].totalExpected == g.plans[m].entitlement
  {
    var turns := Turns(g.payouts, v);
    assert IsAssignment(g, turns);
    assert PlanOk(g, m);
    PermutationCountsSlots(g.slots, SlotNumbers(turns), |g.slots|, m);
    assert g.slots[..|g.slots|] == g.slots;
    TurnsPayHeldSlots(g, turns, m);
  }

  lemma {:induction false} ExpectedAddsUp(plans: seq<Plan>, pot: int)
    requires forall m :: 0 <= m < |plans| ==>
               plans[m].totalExpected == pot * plans[m].quantity == plans[m].entitlement
    ensures Sum(plans, ExpectedOf()) == pot * Sum(plans, QuantityOf()) == Sum(plans, EntitlementOf())
    decreases |plans|
  {
    if plans != [] {
      var last := |plans| - 1;
      ExpectedAddsUp(plans[..last], pot);
      var before := Sum(plans[..last], QuantityOf());
      assert pot * (before + plans[last].quantity) == pot * before + pot * plans[last].quantity;
    }
  }

  /** Summed over members, expected contributions and entitlements are the snapshot's inflow and outflow. */
  lemma LockIsFair(g: Group)
    requires GroupOk(g) && !TakesMembers(g)
    ensures Sum(g.plans, ExpectedOf()) == g.versions[0].inflow
    ensures Sum(g.plans, EntitlementOf()) == g.versions[0].outflow == g.versions[0].inflow
  {
    ExpectedAddsUp(g.plans, Pot(g));
  }
}
