/** What holds of every group in every run: before the lock, at the lock, and through swaps. */
module GroupTheorems {
  import opened Prelude
  import opened Tables
  import opened Groups
  import opened Rotation
  import AjoMoney
  import GroupMoney
  import Lifecycle
  import Machine
  import Payments

  lemma {:induction false} GroupInRun(steps: seq<Machine.Step>, group: nat)
    requires group < |Machine.Run(steps).groups|
    ensures GroupOk(Machine.Run(steps).groups[group])
  {
    GroupMoney.GroupsKept(steps);
    assert GroupMoney.GroupMoneyOk(Machine.Run(steps), group);
  }

  /**
   * Until it locks, every group holds slots 1..n with n within its limit, and
   * one plan per active member whose quantities add up to n. Locking it can
   * only be refused for who asks, too few slots, or the dates.
   */
  lemma {:induction false} JoinsKeepTheRotation(steps: seq<Machine.Step>, group: nat, user: nat)
    requires group < |Machine.Run(steps).groups| && TakesMembers(Machine.Run(steps).groups[group])
    ensures var g := Machine.Run(steps).groups[group];
            && Contiguous(g.slots) && |g.slots| <= g.maxSlots
            && |g.plans| == Sum(g.members, ActiveMember()) <= g.maxMembers
            && Sum(g.plans, QuantityOf()) == |g.slots|
            && (forall m :: 0 <= m < |g.plans| ==> g.plans[m].quantity == Sum(g.slots, HeldBy(m)))
            && (Lock(g, user).Ok? <==> IsAdmin(g, user) && |g.slots| >= 2 && DatesFit(g))
  {
    GroupInRun(steps, group);
    var g := Machine.Run(steps).groups[group];
    LockGuardsUnreachable(g);
    LockSucceedsIff(g, user);
    forall m | 0 <= m < |g.plans| ensures g.plans[m].quantity == Sum(g.slots, HeldBy(m)) {
      assert PlanOk(g, m);
    }
  }

  /** The turn in which a version pays a slot. */
  ghost predicate PaysSlot(g: Group, v: nat, cycle: nat, slot: nat) {
    cycle < |Turns(g.payouts, v)| && Turns(g.payouts, v)[cycle].slot == slot
  }

  ghost predicate IsPaid(g: Group, v: nat, slot: nat) { exists cycle: nat :: PaysSlot(g, v, cycle, slot) }

  /** Cycles and slots are in one-to-one correspondence under version v. */
  ghost predicate IsBijection(g: Group, v: nat) {
    && |Turns(g.payouts, v)| == |g.slots|
    && (forall slot: nat :: slot < |g.slots| ==> IsPaid(g, v, slot))
    && (forall c: nat, d: nat, slot: nat :: PaysSlot(g, v, c, slot) && PaysSlot(g, v, d, slot) ==> c == d)
  }

  lemma OneTurnPerSlot(g: Group, turns: seq<Turn>, c: nat, d: nat)
    requires IsAssignment(g, turns) && c < |turns| && d < |turns| && turns[c].slot == turns[d].slot
    ensures c == d
  {
  }

  lemma {:induction false} AssignmentsAreBijections(g: Group, v: nat)
    requires GroupOk(g) && 1 <= v <= g.version
    ensures IsAssignment(g, Turns(g.payouts, v)) && IsBijection(g, v)
  {
    assert IsAssignment(g, Turns(g.payouts, v));
    forall slot: nat | slot < |g.slots| ensures IsPaid(g, v, slot) {
      EverySlotIsPaid(g, v, slot);
      var c: nat :| c < |Turns(g.payouts, v)| && Turns(g.payouts, v)[c].slot == slot;
      assert PaysSlot(g, v, c, slot);
    }
    forall c: nat, d: nat, slot: nat | PaysSlot(g, v, c, slot) && PaysSlot(g, v, d, slot) ensures c == d {
      OneTurnPerSlot(g, Turns(g.payouts, v), c, d);
    }
  }

  /**
   * In every run every schedule version is a bijection of cycles and slots,
   * paying the whole pot on the cycle's own date.
   */
  lemma {:induction false} EveryVersionIsABijection(steps: seq<Machine.Step>, group: nat, v: nat)
    requires group < |Machine.Run(steps).groups| && 1 <= v <= Machine.Run(steps).groups[group].version
    ensures var g := Machine.Run(steps).groups[group];
            IsAssignment(g, Turns(g.payouts, v)) && IsBijection(g, v)
  {
    GroupInRun(steps, group);
    AssignmentsAreBijections(Machine.Run(steps).groups[group], v);
  }

  /** Version v assigns slots anew but leaves each cycle's amount and date as they were. */
  ghost predicate OnlySlotsMove(g: Group, v: nat)
    requires v >= 1
  {
    && |Turns(g.payouts, v)| == |Turns(g.payouts, v - 1)| == |g.slots|
    && forall c :: 0 <= c < |g.slots| ==>
         Turns(g.payouts, v)[c] == Turns(g.payouts, v - 1)[c].(slot := Turns(g.payouts, v)[c].slot)
  }

  lemma SwapsMoveSlotsOnly(g: Group, v: nat)
    requires GroupOk(g) && 2 <= v <= g.version
    ensures |g.versions| == g.version && FollowsBySwap(g, v) && OnlySlotsMove(g, v)
  {
    assert IsAssignment(g, Turns(g.payouts, v)) && IsAssignment(g, Turns(g.payouts, v - 1));
    assert FollowsBySwap(g, v);
  }

  /**
   * Versions are numbered 1..version, one more than the swaps executed, and
   * each is its predecessor with the two slots of one executed swap exchanged:
   * cycles, amounts and dates stay where they were.
   */
  lemma {:induction false} VersionsAreSwapsApart(steps: seq<Machine.Step>, group: nat, v: nat)
    requires group < |Machine.Run(steps).groups| && 1 <= v <= Machine.Run(steps).groups[group].version
    ensures var g := Machine.Run(steps).groups[group];
            && |g.versions| == g.version == Sum(g.swaps, ExecutedOne()) + 1
            && g.versions[v - 1].number == v
            && (v >= 2 ==> FollowsBySwap(g, v) && OnlySlotsMove(g, v))
  {
    GroupInRun(steps, group);
    var g := Machine.Run(steps).groups[group];
    if v >= 2 {
      SwapsMoveSlotsOnly(g, v);
    }
  }

  /** In every run, and under every version, each member is paid what it is asked to contribute. */
  lemma {:induction false} EveryMemberIsTreatedFairly(steps: seq<Machine.Step>, group: nat, v: nat, m: nat)
    requires group < |Machine.Run(steps).groups| && 1 <= v <= Machine.Run(steps).groups[group].version
    requires m < |Machine.Run(steps).groups[group].members|
    ensures var g := Machine.Run(steps).groups[group];
            && m < |g.plans|
            && Sum(Turns(g.payouts, v), PaidTo(g.slots, m)) == Sum(g.contribs, OwedBy(g.slots, m))
            && Sum(g.contribs, OwedBy(g.slots, m)) == g.plans[m].totalExpected == g.plans[m].entitlement
            && |g.versions| >= 1 && Sum(g.plans, ExpectedOf()) == g.versions[0].inflow == g.versions[0].outflow
  {
    GroupInRun(steps, group);
    var g := Machine.Run(steps).groups[group];
    MemberGetsWhatItPays(g, v, m);
    LockIsFair(g);
  }

  // ----- Expired requests -------------------------------------------------

  /** A swap request past its deadline whose status still says pending. */
  predicate Stale(g: Group, i: nat, now: int) {
    i < |g.swaps| && g.swaps[i].status == SwapPending && g.swaps[i].expiresAt <= now
  }

  /**
   * The EXPIRED status is written inside the transaction that is then refused,
   * so no operation ever retires a stale request, and every later request
   * touching either of its slots is refused as a conflict.
   */
  lemma StaleRequestStays(g: Group, i: nat, step: GroupStep, now: int)
    requires Stale(g, i, now) && Govern(g, step, now).Ok?
    ensures Stale(Govern(g, step, now).value, i, now)
    ensures Govern(g, step, now).value.swaps[i] == g.swaps[i]
    ensures step.RequestStep? ==> !Touches(g.swaps[i], step.from, step.to)
  {
    if step.RequestStep? {
      assert !HasConflict(g, step.from, step.to);
    }
  }

  lemma StaleStep(db: Db, step: Machine.Step, group: nat, i: nat)
    requires group < |db.groups| && Stale(db.groups[group], i, db.now)
    ensures group < |Machine.Next(db, step).groups| && db.now <= Machine.Next(db, step).now
    ensures Stale(Machine.Next(db, step).groups[group], i, db.now)
    ensures Machine.Next(db, step).groups[group].swaps[i] == db.groups[group].swaps[i]
  {
    if Machine.Attempt(db, step).Ok? {
      ClockKept(db, step);
      if !GroupMoney.TouchesGroups(step) {
        GroupMoney.OtherStepsSameGroups(db, step);
      } else if step.Governed? {
        GovernedStale(db, step.group, step.change, group, i);
      } else if step.PayFromWallet? {
        GroupMoney.PaymentTouchesOneContribution(db, step.payer, step.intent, step.caller, step.quote);
      } else {
        SwapsKept(db, step, group);
      }
    }
  }

  lemma PayoutKeepsSwaps(db: Db, user: nat, k: nat, r: nat, group: nat)
    requires AjoMoney.SettlePayout(db, user, k, r).Ok? && group < |db.groups|
    ensures group < |AjoMoney.SettlePayout(db, user, k, r).value.groups|
    ensures AjoMoney.SettlePayout(db, user, k, r).value.groups[group].swaps == db.groups[group].swaps
  {
  }

  lemma SwapsKept(db: Db, step: Machine.Step, group: nat)
    requires Machine.Attempt(db, step).Ok? && group < |db.groups|
    requires step.FoundGroup? || step.Contribute? || step.PayOut? || step.Hold?
    ensures group < |Machine.Attempt(db, step).value.groups|
    ensures Machine.Attempt(db, step).value.groups[group].swaps == db.groups[group].swaps
  {
    if step.PayOut? {
      PayoutKeepsSwaps(db, step.admin, step.group, step.schedule, group);
    }
  }

  lemma PaymentKeepsClock(db: Db, user: nat, i: nat, caller: nat, quote: Payments.Quote)
    requires Payments.SettleFromWallet(db, user, i, caller, quote).Ok?
    ensures Payments.SettleFromWallet(db, user, i, caller, quote).value.now == db.now
  {
  }

  lemma BillsKeepClock(db: Db, step: Machine.Step)
    requires Machine.Attempt(db, step).Ok? && Lifecycle.TouchesBills(step) && !step.PayFromWallet?
    ensures Machine.Attempt(db, step).value.now == db.now
  {
  }

  /** Time passes only while waiting. */
  lemma ClockKept(db: Db, step: Machine.Step)
    requires Machine.Attempt(db, step).Ok?
    ensures Machine.Attempt(db, step).value.now == db.now + if step.Wait? then step.elapsed else 0
  {
    if step.PayFromWallet? {
      PaymentKeepsClock(db, step.payer, step.intent, step.caller, step.quote);
    } else if Lifecycle.TouchesBills(step) {
      BillsKeepClock(db, step);
    }
  }

  lemma GovernedStale(db: Db, k: nat, change: GroupStep, group: nat, i: nat)
    requires Machine.GovernTx(db, k, change).Ok? && group < |db.groups| && Stale(db.groups[group], i, db.now)
    ensures |Machine.GovernTx(db, k, change).value.groups| == |db.groups|
    ensures Stale(Machine.GovernTx(db, k, change).value.groups[group], i, db.now)
    ensures Machine.GovernTx(db, k, change).value.groups[group].swaps[i] == db.groups[group].swaps[i]
  {
    if k == group {
      StaleRequestStays(db.groups[group], i, change, db.now);
    }
  }

  /** The same stale request at a later point of the run. */
  ghost predicate StillStale(db: Db, db': Db, group: nat, i: nat) {
    && db.now <= db'.now && group < |db.groups| && group < |db'.groups|
    && Stale(db.groups[group], i, db.now) && Stale(db'.groups[group], i, db'.now)
    && db'.groups[group].swaps[i] == db.groups[group].swaps[i]
  }

  lemma StaleStepStays(db: Db, step: Machine.Step, group: nat, i: nat)
    requires group < |db.groups| && Stale(db.groups[group], i, db.now)
    ensures StillStale(db, Machine.Next(db, step), group, i)
  {
    StaleStep(db, step, group, i);
  }

  lemma StillStaleThrough(db0: Db, db1: Db, db2: Db, group: nat, i: nat)
    requires StillStale(db0, db1, group, i) && StillStale(db1, db2, group, i)
    ensures StillStale(db0, db2, group, i)
  {
  }

  /** In every run, once stale a request stays pending for good. */
  lemma {:induction false} StaleForever(steps: seq<Machine.Step>, more: seq<Machine.Step>, group: nat, i: nat)
    requires group < |Machine.Run(steps).groups| && Stale(Machine.Run(steps).groups[group], i, Machine.Run(steps).now)
    ensures StillStale(Machine.Run(steps), Machine.Run(steps + more), group, i)
    decreases |more|
  {
    if more == [] {
      assert steps + more == steps;
    } else {
      var last := |more| - 1;
      var before := steps + more[..last];
      StaleForever(steps, more[..last], group, i);
      assert steps + more == before + [more[last]];
      Machine.RunStep(before, more[last]);
      StaleStepStays(Machine.Run(before), more[last], group, i);
      StillStaleThrough(Machine.Run(steps), Machine.Run(before), Machine.Run(steps + more), group, i);
    }
  }
}
