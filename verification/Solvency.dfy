/**
 * When a group's pool covers the payouts it owes. A payout needs its cycle
 * collected; the pool guard behind that one can only fire for a group in which
 * some cycle has been paid twice, and only an executed swap makes that possible.
 */
module Solvency {
  import opened Prelude
  import opened Ledger
  import opened Tables
  import opened Books
  import opened Groups
  import opened Rotation
  import opened GroupMoney
  import AjoMoney
  import Custody
  import KeepingPayments
  import Machine
  import Payments

  // ----- Sums by cycle ----------------------------------------------------

  function CollectedIn(cycle: nat): ContributionSchedule -> int {
    (c: ContributionSchedule) => if c.cycle == cycle then c.paid else 0
  }
  function PaidOutIn(cycle: nat): PayoutSchedule -> int {
    (p: PayoutSchedule) => if p.cycle == cycle then p.paid else 0
  }

  function Collected(g: Group, cycle: nat): int { Sum(g.contribs, CollectedIn(cycle)) }
  function PaidFor(g: Group, cycle: nat): int { Sum(g.payouts, PaidOutIn(cycle)) }

  /** No cycle has been paid more than its pot. */
  ghost predicate OncePerCycle(g: Group) {
    forall cycle: nat :: PaidFor(g, cycle) <= Pot(g)
  }

  /** What the first n cycles have left in the pool. */
  function LeftBy(g: Group, n: nat): int {
    if n == 0 then 0 else LeftBy(g, n - 1) + Collected(g, n - 1) - PaidFor(g, n - 1)
  }

  function CollectedUpTo(n: nat): ContributionSchedule -> int {
    (c: ContributionSchedule) => if c.cycle < n then c.paid else 0
  }
  function PaidOutUpTo(n: nat): PayoutSchedule -> int {
    (p: PayoutSchedule) => if p.cycle < n then p.paid else 0
  }

  lemma {:induction false} LeftBySums(g: Group, n: nat)
    ensures LeftBy(g, n) == Sum(g.contribs, CollectedUpTo(n)) - Sum(g.payouts, PaidOutUpTo(n))
    decreases n
  {
    if n == 0 {
      SumZero(g.contribs, CollectedUpTo(0));
      SumZero(g.payouts, PaidOutUpTo(0));
    } else {
      LeftBySums(g, n - 1);
      SumPlus(g.contribs, CollectedUpTo(n), CollectedUpTo(n - 1), CollectedIn(n - 1));
      SumPlus(g.payouts, PaidOutUpTo(n), PaidOutUpTo(n - 1), PaidOutIn(n - 1));
    }
  }

  /** The pool of a locked group is what its cycles have left. */
  lemma {:induction false} PoolByCycle(g: Group)
    requires RowsOk(g)
    ensures Sum(g.contribs, PaidOf()) - Sum(g.payouts, PaidOutOf()) == LeftBy(g, |g.slots|)
  {
    LeftBySums(g, |g.slots|);
    forall c | c in g.contribs ensures CollectedUpTo(|g.slots|)(c) == PaidOf()(c) {
      var i :| 0 <= i < |g.contribs| && g.contribs[i] == c;
      assert ContributionRowOk(g, g.contribs[i]);
    }
    forall p | p in g.payouts ensures PaidOutUpTo(|g.slots|)(p) == PaidOutOf()(p) {
      var i :| 0 <= i < |g.payouts| && g.payouts[i] == p;
      assert PayoutRowOk(g, g.payouts[i]);
    }
    SumSame(g.contribs, CollectedUpTo(|g.slots|), PaidOf());
    SumSame(g.payouts, PaidOutUpTo(|g.slots|), PaidOutOf());
  }

  lemma CollectedNonNegative(g: Group, cycle: nat)
    requires RowsOk(g)
    ensures Collected(g, cycle) >= 0
  {
    forall c | c in g.contribs ensures CollectedIn(cycle)(c) >= 0 {
      var i :| 0 <= i < |g.contribs| && g.contribs[i] == c;
      assert ContributionRowOk(g, g.contribs[i]);
    }
    SumNonNegative(g.contribs, CollectedIn(cycle));
  }

  /** A fully collected cycle holds its whole pot. */
  lemma FullCycleHoldsPot(g: Group, cycle: nat)
    requires RowsOk(g) && cycle < |g.slots| && FullyCollected(g, cycle)
    ensures Collected(g, cycle) == Pot(g)
  {
    forall c | c in g.contribs ensures CollectedIn(cycle)(c) == DueIn(cycle)(c) {
      var i :| 0 <= i < |g.contribs| && g.contribs[i] == c;
      assert ContributionRowOk(g, g.contribs[i]);
    }
    SumSame(g.contribs, CollectedIn(cycle), DueIn(cycle));
  }

  lemma {:induction false} SomethingPaid(rows: seq<PayoutSchedule>, cycle: nat) returns (r: nat)
    requires Sum(rows, PaidOutIn(cycle)) != 0
    ensures r < |rows| && rows[r].cycle == cycle && rows[r].paid != 0
    decreases |rows|
  {
    var last := |rows| - 1;
    if PaidOutIn(cycle)(rows[last]) != 0 {
      r := last;
    } else {
      r := SomethingPaid(rows[..last], cycle);
    }
  }

  ghost predicate PaidImpliesCollected(g: Group) {
    forall r :: 0 <= r < |g.payouts| && g.payouts[r].paid != 0 ==> FullyCollected(g, g.payouts[r].cycle)
  }

  /** Every cycle has left at least nothing, and a collected unpaid one its pot. */
  lemma CycleLeaves(g: Group, cycle: nat)
    requires RowsOk(g) && OncePerCycle(g) && PaidImpliesCollected(g) && cycle < |g.slots|
    ensures Collected(g, cycle) - PaidFor(g, cycle) >= 0
    ensures FullyCollected(g, cycle) && PaidFor(g, cycle) == 0 ==> Collected(g, cycle) - PaidFor(g, cycle) == Pot(g)
  {
    CollectedNonNegative(g, cycle);
    if PaidFor(g, cycle) != 0 {
      var r := SomethingPaid(g.payouts, cycle);
      FullCycleHoldsPot(g, cycle);
    } else if FullyCollected(g, cycle) {
      FullCycleHoldsPot(g, cycle);
    }
  }

  lemma {:induction false} CyclesLeave(g: Group, n: nat, cycle: nat)
    requires RowsOk(g) && OncePerCycle(g) && PaidImpliesCollected(g) && n <= |g.slots|
    ensures LeftBy(g, n) >= 0
    ensures cycle < n && FullyCollected(g, cycle) && PaidFor(g, cycle) == 0 ==> LeftBy(g, n) >= Pot(g)
    decreases n
  {
    if n > 0 {
      CyclesLeave(g, n - 1, cycle);
      CycleLeaves(g, n - 1);
    }
  }

  // ----- The pool covers what it owes -------------------------------------

  /**
   * If no cycle of a group has been paid twice, the pool covers every cycle
   * that is collected and not yet paid: the balance guard cannot fire.
   */
  lemma PoolCovers(db: Db, group: nat, cycle: nat)
    requires BooksOk(db) && GroupsOk(db) && group < |db.groups| && cycle < |db.groups[group].slots|
    requires !TakesMembers(db.groups[group]) && OncePerCycle(db.groups[group])
    requires FullyCollected(db.groups[group], cycle) && PaidFor(db.groups[group], cycle) == 0
    ensures Balance(db.ledger, Pool(group)) >= Pot(db.groups[group])
  {
    var g := db.groups[group];
    assert GroupMoneyOk(db, group);
    forall r | 0 <= r < |g.payouts| && g.payouts[r].paid != 0 ensures FullyCollected(g, g.payouts[r].cycle) {
      assert PayoutRecorded(db, group, r);
    }
    PoolByCycle(g);
    CyclesLeave(g, |g.slots|, cycle);
    Custody.PoolIsContributionsLessPayouts(db, group);
  }

  // ----- Before the first executed swap -----------------------------------

  lemma {:induction false} OneVersionTurns(rows: seq<PayoutSchedule>)
    requires forall i :: 0 <= i < |rows| ==> rows[i].version == 1
    ensures |Turns(rows, 1)| == |rows|
    ensures forall i :: 0 <= i < |rows| && i < |Turns(rows, 1)| ==> Turns(rows, 1)[i] == TurnOf(rows[i])
  {
    TurnsOfOneVersion(rows, 1, 1);
  }

  lemma {:induction false} OneRowPerCycle(rows: seq<PayoutSchedule>, cycle: nat, most: int)
    requires forall i :: 0 <= i < |rows| ==> rows[i].cycle == i && 0 <= rows[i].paid <= most
    requires most >= 0
    ensures Sum(rows, PaidOutIn(cycle)) == if cycle < |rows| then rows[cycle].paid else 0
    decreases |rows|
  {
    if rows != [] {
      OneRowPerCycle(rows[..|rows| - 1], cycle, most);
    }
  }

  /** Until a swap is executed a cycle has one payout row, so it cannot be paid twice. */
  lemma FirstVersionPaysOnce(g: Group)
    requires GroupOk(g) && g.version == 1
    ensures OncePerCycle(g)
    ensures forall r :: 0 <= r < |g.payouts| ==>
              g.payouts[r].cycle < |g.slots| && PaidFor(g, g.payouts[r].cycle) == g.payouts[r].paid
  {
    forall i | 0 <= i < |g.payouts| ensures g.payouts[i].version == 1 && 0 <= g.payouts[i].paid <= Pot(g) {
      assert PayoutRowOk(g, g.payouts[i]);
    }
    OneVersionTurns(g.payouts);
    assert IsAssignment(g, Turns(g.payouts, 1));
    forall i | 0 <= i < |g.payouts| ensures g.payouts[i].cycle == i {
      assert Turns(g.payouts, 1)[i].cycle == i;
    }
    forall cycle: nat ensures PaidFor(g, cycle) == if cycle < |g.payouts| then g.payouts[cycle].paid else 0 {
      OneRowPerCycle(g.payouts, cycle, Pot(g));
    }
  }

  /** A payout is owed: its row is open and unpaid and its cycle collected. */
  predicate PayoutDue(db: Db, group: nat, r: nat) {
    && group < |db.groups| && r < |db.groups[group].payouts|
    && AjoMoney.FindPayout(db.payouts, group, r).None?
    && FullyCollected(db.groups[group], db.groups[group].payouts[r].cycle)
  }

  /**
   * Solvency without a float: in every run, until a group's first executed
   * swap, a collected cycle whose payout has not run is covered by the pool.
   * The balance guard of settlePayout cannot fire.
   */
  lemma {:induction false} SolventUntilFirstSwap(steps: seq<Machine.Step>, group: nat, r: nat)
    requires PayoutDue(Machine.Run(steps), group, r) && Machine.Run(steps).groups[group].version == 1
    ensures var db := Machine.Run(steps);
            Balance(db.ledger, Pool(group)) >= db.groups[group].payouts[r].due == Pot(db.groups[group])
  {
    KeepingPayments.BooksKept(steps);
    GroupsKept(steps);
    var db := Machine.Run(steps);
    var g := db.groups[group];
    assert GroupMoneyOk(db, group) && PayoutRecorded(db, group, r) && PayoutRowOk(g, g.payouts[r]);
    FirstVersionPaysOnce(g);
    PoolCovers(db, group, g.payouts[r].cycle);
  }

  // ----- After swaps: exactly when a cycle is paid twice ------------------

  /** A payout row still open although its cycle has been paid under another version. */
  ghost predicate Repays(db: Db, group: nat, r: nat) {
    && group < |db.groups| && r < |db.groups[group].payouts|
    && AjoMoney.FindPayout(db.payouts, group, r).None?
    && PaidFor(db.groups[group], db.groups[group].payouts[r].cycle) != 0
  }

  /** The step that pays a cycle again: an accepted payout of such a row. */
  ghost predicate PaysAgain(db: Db, step: Machine.Step, group: nat) {
    && step.PayOut? && step.group == group && Repays(db, group, step.schedule)
    && Machine.Attempt(db, step).Ok?
  }

  /** What was paid is still recorded row by row, and rows added are unpaid. */
  ghost predicate PaymentsKept(g: Group, g': Group) {
    && |g.payouts| <= |g'.payouts|
    && (forall r :: 0 <= r < |g.payouts| ==>
          g'.payouts[r].cycle == g.payouts[r].cycle && g'.payouts[r].paid == g.payouts[r].paid)
    && (forall r :: |g.payouts| <= r < |g'.payouts| ==> g'.payouts[r].paid == 0)
  }

  lemma {:induction false} SameCyclesPaid(rows: seq<PayoutSchedule>, rows': seq<PayoutSchedule>, cycle: nat)
    requires |rows| == |rows'|
    requires forall r :: 0 <= r < |rows| ==> rows'[r].cycle == rows[r].cycle && rows'[r].paid == rows[r].paid
    ensures Sum(rows', PaidOutIn(cycle)) == Sum(rows, PaidOutIn(cycle))
    decreases |rows|
  {
    if rows != [] {
      SameCyclesPaid(rows[..|rows| - 1], rows'[..|rows| - 1], cycle);
    }
  }

  lemma PaymentsKeptSame(g: Group, g': Group, cycle: nat)
    requires PaymentsKept(g, g')
    ensures PaidFor(g', cycle) == PaidFor(g, cycle)
  {
    var old', more := g'.payouts[..|g.payouts|], g'.payouts[|g.payouts|..];
    assert g'.payouts == old' + more;
    SameCyclesPaid(g.payouts, old', cycle);
    SumConcat(old', more, PaidOutIn(cycle));
    SumZero(more, PaidOutIn(cycle));
  }

  lemma OnceKept(g: Group, g': Group)
    requires PaymentsKept(g, g') && (g.payouts != [] ==> Pot(g') == Pot(g)) && Pot(g) >= 0 && Pot(g') >= 0
    ensures OncePerCycle(g') <==> OncePerCycle(g)
  {
    forall cycle: nat ensures PaidFor(g', cycle) == PaidFor(g, cycle) {
      PaymentsKeptSame(g, g', cycle);
    }
    if g.payouts == [] {
      assert OncePerCycle(g);
    }
  }

  lemma PotPositive(g: Group)
    requires GroupOk(g)
    ensures Pot(g) >= 0
    ensures g.payouts != [] ==> Pot(g) > 0
  {
  }

  lemma PaidForNonNegative(g: Group, cycle: nat)
    requires RowsOk(g) && Pot(g) >= 0
    ensures PaidFor(g, cycle) >= 0
  {
    forall p | p in g.payouts ensures PaidOutIn(cycle)(p) >= 0 {
      var i :| 0 <= i < |g.payouts| && g.payouts[i] == p;
      assert PayoutRowOk(g, g.payouts[i]);
    }
    SumNonNegative(g.payouts, PaidOutIn(cycle));
  }

  /** Paying row r adds one pot to its cycle and nothing to the others. */
  lemma PayoutAddsPot(g: Group, r: nat, cycle: nat)
    requires r < |g.payouts| && g.payouts[r].paid == 0 && g.payouts[r].due == Pot(g)
    ensures PaidFor(RecordPayout(g, r), cycle) == PaidFor(g, cycle) + if cycle == g.payouts[r].cycle then Pot(g) else 0
    ensures Pot(RecordPayout(g, r)) == Pot(g)
  {
    SumUpdate(g.payouts, r, RecordPayout(g, r).payouts[r], PaidOutIn(cycle));
  }

  lemma PayoutOnceIff(g: Group, r: nat)
    requires RowsOk(g) && Pot(g) > 0 && r < |g.payouts| && g.payouts[r].paid == 0
    ensures OncePerCycle(RecordPayout(g, r)) <==> OncePerCycle(g) && PaidFor(g, g.payouts[r].cycle) == 0
  {
    assert PayoutRowOk(g, g.payouts[r]);
    var g', paidCycle := RecordPayout(g, r), g.payouts[r].cycle;
    forall cycle: nat
      ensures PaidFor(g', cycle) == PaidFor(g, cycle) + (if cycle == paidCycle then Pot(g) else 0)
      ensures PaidFor(g, cycle) >= 0
    {
      PayoutAddsPot(g, r, cycle);
      PaidForNonNegative(g, cycle);
    }
    PayoutAddsPot(g, r, paidCycle);
    if OncePerCycle(g') {
      assert PaidFor(g', paidCycle) <= Pot(g');
      forall cycle: nat ensures PaidFor(g, cycle) <= Pot(g) {
        assert PaidFor(g', cycle) <= Pot(g');
      }
    }
  }

  lemma GovernKeepsPot(g: Group, step: GroupStep, now: int)
    requires GroupOk(g) && Govern(g, step, now).Ok? && g.payouts != []
    ensures Pot(Govern(g, step, now).value) == Pot(g)
  {
  }

  ghost predicate PaymentsAndPotKept(g: Group, g': Group) {
    PaymentsKept(g, g') && (g.payouts != [] ==> Pot(g') == Pot(g))
  }

  lemma GovernKeepsPayments(g: Group, step: GroupStep, now: int)
    requires GroupOk(g) && Govern(g, step, now).Ok?
    ensures PaymentsAndPotKept(g, Govern(g, step, now).value)
  {
    GovernGrows(g, step, now);
    if g.payouts != [] {
      GovernKeepsPot(g, step, now);
    }
  }

  lemma PaymentKeepsPayments(db: Db, user: nat, i: nat, caller: nat, quote: Payments.Quote, group: nat)
    requires Payments.SettleFromWallet(db, user, i, caller, quote).Ok? && group < |db.groups|
    ensures group < |Payments.SettleFromWallet(db, user, i, caller, quote).value.groups|
    ensures PaymentsAndPotKept(db.groups[group], Payments.SettleFromWallet(db, user, i, caller, quote).value.groups[group])
  {
    PaymentTouchesOneContribution(db, user, i, caller, quote);
  }

  lemma MoneyStepsKeepPayments(db: Db, step: Machine.Step, group: nat)
    requires Machine.Attempt(db, step).Ok? && group < |db.groups|
    requires step.Contribute? || step.Hold? || step.FoundGroup?
    ensures group < |Machine.Attempt(db, step).value.groups|
    ensures PaymentsAndPotKept(db.groups[group], Machine.Attempt(db, step).value.groups[group])
  {
  }

  /** Every step but a payout leaves each group's payments as they were. */
  lemma OtherStepsKeepPayments(db: Db, step: Machine.Step, group: nat)
    requires Machine.Attempt(db, step).Ok? && group < |db.groups| && GroupOk(db.groups[group]) && !step.PayOut?
    ensures group < |Machine.Attempt(db, step).value.groups|
    ensures PaymentsAndPotKept(db.groups[group], Machine.Attempt(db, step).value.groups[group])
  {
    if !TouchesGroups(step) {
      OtherStepsSameGroups(db, step);
    } else if step.Governed? {
      if step.group == group {
        GovernKeepsPayments(db.groups[group], step.change, db.now);
      }
    } else if step.PayFromWallet? {
      PaymentKeepsPayments(db, step.payer, step.intent, step.caller, step.quote, group);
    } else {
      MoneyStepsKeepPayments(db, step, group);
    }
  }

  lemma PayoutsMeanLocked(g: Group, r: nat)
    requires GroupOk(g) && r < |g.payouts|
    ensures RowsOk(g) && Pot(g) > 0
  {
  }

  lemma PayoutStep(db: Db, user: nat, k: nat, r: nat, group: nat)
    requires BooksOk(db) && GroupsOk(db) && group < |db.groups| && AjoMoney.SettlePayout(db, user, k, r).Ok?
    ensures group < |AjoMoney.SettlePayout(db, user, k, r).value.groups|
    ensures OncePerCycle(AjoMoney.SettlePayout(db, user, k, r).value.groups[group])
       <==> OncePerCycle(db.groups[group]) && !(k == group && Repays(db, group, r))
  {
    if AjoMoney.FindPayout(db.payouts, k, r).None? {
      PayoutShape(db, user, k, r);
      if k == group {
        assert GroupMoneyOk(db, group) && PayoutRecorded(db, group, r);
        PayoutsMeanLocked(db.groups[group], r);
        PayoutOnceIff(db.groups[group], r);
      }
    }
  }

  lemma OtherStep(db: Db, step: Machine.Step, group: nat)
    requires GroupsOk(db) && group < |db.groups| && Machine.Attempt(db, step).Ok? && !step.PayOut?
    requires GroupsOk(Machine.Attempt(db, step).value)
    ensures group < |Machine.Attempt(db, step).value.groups|
    ensures OncePerCycle(Machine.Attempt(db, step).value.groups[group]) <==> OncePerCycle(db.groups[group])
  {
    assert GroupMoneyOk(db, group);
    OtherStepsKeepPayments(db, step, group);
    var db' := Machine.Attempt(db, step).value;
    assert GroupMoneyOk(db', group);
    PotPositive(db.groups[group]);
    PotPositive(db'.groups[group]);
    OnceKept(db.groups[group], db'.groups[group]);
  }

  lemma OnceStep(db: Db, step: Machine.Step, group: nat)
    requires BooksOk(db) && GroupsOk(db) && group < |db.groups|
    requires GroupsOk(Machine.Next(db, step))
    ensures group < |Machine.Next(db, step).groups|
    ensures OncePerCycle(Machine.Next(db, step).groups[group])
       <==> OncePerCycle(db.groups[group]) && !PaysAgain(db, step, group)
  {
    if Machine.Attempt(db, step).Ok? {
      if step.PayOut? {
        PayoutStep(db, step.admin, step.group, step.schedule, group);
      } else {
        OtherStep(db, step, group);
      }
    }
  }

  ghost function PaysAgainAfter(group: nat): (seq<Machine.Step>, Machine.Step) -> bool {
    (before: seq<Machine.Step>, step: Machine.Step) => PaysAgain(Machine.Run(before), step, group)
  }

  /** Some payout of the run paid a cycle of the group that had been paid. */
  ghost predicate EverPaysAgain(steps: seq<Machine.Step>, group: nat) { Ever(steps, PaysAgainAfter(group)) }

  /** In every run a group pays each cycle at most once if and only if no accepted payout found its cycle paid. */
  lemma {:induction false} OncePerCycleIff(steps: seq<Machine.Step>, group: nat)
    ensures group < |Machine.Run(steps).groups| ==>
              (OncePerCycle(Machine.Run(steps).groups[group]) <==> !EverPaysAgain(steps, group))
    ensures group >= |Machine.Run(steps).groups| ==> !EverPaysAgain(steps, group)
    decreases |steps|
  {
    if steps != [] {
      var last := |steps| - 1;
      var before := Machine.Run(steps[..last]);
      OncePerCycleIff(steps[..last], group);
      EverSplit(steps, PaysAgainAfter(group));
      KeepingPayments.BooksKept(steps[..last]);
      GroupsKept(steps[..last]);
      GroupsKept(steps);
      if group < |before.groups| {
        OnceStep(before, steps[last], group);
      } else if group < |Machine.Run(steps).groups| {
        NewGroupUnpaid(before, steps[last], group);
      } else {
        GroupsOnlyGrow(before, steps[last]);
      }
    }
  }

  lemma GroupsOnlyGrow(db: Db, step: Machine.Step)
    ensures |db.groups| <= |Machine.Next(db, step).groups| <= |db.groups| + 1
    ensures |Machine.Next(db, step).groups| > |db.groups| ==>
              step.FoundGroup? && Machine.Next(db, step).groups[|db.groups|].payouts == []
  {
    if Machine.Attempt(db, step).Ok? {
      if !TouchesGroups(step) {
        OtherStepsSameGroups(db, step);
      } else if step.PayFromWallet? {
        PaymentTouchesOneContribution(db, step.payer, step.intent, step.caller, step.quote);
      }
    }
  }

  lemma NewGroupUnpaid(db: Db, step: Machine.Step, group: nat)
    requires |db.groups| <= group < |Machine.Next(db, step).groups| && GroupsOk(Machine.Next(db, step))
    ensures OncePerCycle(Machine.Next(db, step).groups[group]) && !PaysAgain(db, step, group)
  {
    GroupsOnlyGrow(db, step);
    assert GroupMoneyOk(Machine.Next(db, step), group);
    PotPositive(Machine.Next(db, step).groups[group]);
  }

  /**
   * The pool covers every collected, unpaid cycle in every run that has not
   * paid a cycle of the group again, swaps or no swaps.
   */
  lemma {:induction false} SolventUnlessPaidAgain(steps: seq<Machine.Step>, group: nat, cycle: nat)
    requires group < |Machine.Run(steps).groups| && !EverPaysAgain(steps, group)
    requires var g := Machine.Run(steps).groups[group];
             cycle < |g.slots| && !TakesMembers(g) && FullyCollected(g, cycle) && PaidFor(g, cycle) == 0
    ensures Balance(Machine.Run(steps).ledger, Pool(group)) >= Pot(Machine.Run(steps).groups[group])
  {
    KeepingPayments.BooksKept(steps);
    GroupsKept(steps);
    OncePerCycleIff(steps, group);
    PoolCovers(Machine.Run(steps), group, cycle);
  }

  // ----- One payout: once per cycle, under the version in force -----------

  /** A payout that is accepted and not a repeat. */
  predicate PaysNew(db: Db, step: Machine.Step, group: nat) {
    && step.PayOut? && step.group == group && group < |db.groups| && step.schedule < |db.groups[group].payouts|
    && AjoMoney.FindPayout(db.payouts, group, step.schedule).None?
    && Machine.Attempt(db, step).Ok?
  }

  /** The turn of the version in force for this cycle has been paid. */
  ghost predicate TurnInForcePaid(g: Group, cycle: nat) {
    exists r :: 0 <= r < |g.payouts| && g.payouts[r].version == g.version && g.payouts[r].cycle == cycle
                && g.payouts[r].paid != 0
  }

  /** Nothing has been paid for the cycle yet, and the row is one of the version in force. */
  predicate InOrder(g: Group, r: nat)
    requires r < |g.payouts|
  {
    PaidFor(g, g.payouts[r].cycle) == 0 && g.payouts[r].version == g.version
  }

  lemma UnpaidCycle(g: Group, cycle: nat)
    requires RowsOk(g) && Pot(g) > 0 && PaidFor(g, cycle) == 0
    ensures forall r :: 0 <= r < |g.payouts| && g.payouts[r].cycle == cycle ==> g.payouts[r].paid == 0
  {
    forall p | p in g.payouts ensures PaidOutIn(cycle)(p) >= 0 {
      var i :| 0 <= i < |g.payouts| && g.payouts[i] == p;
      assert PayoutRowOk(g, g.payouts[i]);
    }
    forall r | 0 <= r < |g.payouts| && g.payouts[r].cycle == cycle ensures g.payouts[r].paid == 0 {
      assert PayoutRowOk(g, g.payouts[r]);
      if g.payouts[r].paid != 0 {
        SumZeroOnly(g.payouts, PaidOutIn(cycle), r);
      }
    }
  }

  /** Paying row r leaves every cycle paid at most once and its own turn in force paid exactly if r was in order. */
  lemma InOrderIff(g: Group, r: nat)
    requires RowsOk(g) && Pot(g) > 0 && r < |g.payouts| && g.payouts[r].paid == 0
    ensures var g' := RecordPayout(g, r);
            OncePerCycle(g') && TurnInForcePaid(g', g.payouts[r].cycle) <==> OncePerCycle(g) && InOrder(g, r)
  {
    var g', cycle := RecordPayout(g, r), g.payouts[r].cycle;
    PayoutOnceIff(g, r);
    assert PayoutRowOk(g, g.payouts[r]);
    assert g'.payouts[r].paid != 0 && g'.payouts[r].version == g.payouts[r].version && g'.version == g.version;
    if OncePerCycle(g') {
      UnpaidCycle(g, cycle);
    }
  }

  /**
   * In every run, an accepted payout leaves each cycle of its group paid at
   * most once, and pays the turn the version in force gives its cycle, if and
   * only if no cycle had been paid twice, its own had not been paid, and its
   * row belongs to the version in force.
   */
  lemma {:induction false} PayoutInOrderIff(steps: seq<Machine.Step>, step: Machine.Step, group: nat)
    requires PaysNew(Machine.Run(steps), step, group)
    ensures var g := Machine.Run(steps).groups[group];
            && group < |Machine.Run(steps + [step]).groups|
            && var g' := Machine.Run(steps + [step]).groups[group];
            (OncePerCycle(g') && TurnInForcePaid(g', g.payouts[step.schedule].cycle) <==>
               OncePerCycle(g) && InOrder(g, step.schedule))
  {
    KeepingPayments.BooksKept(steps);
    GroupsKept(steps);
    Machine.RunStep(steps, step);
    PayoutRow(Machine.Run(steps), step, group);
    InOrderIff(Machine.Run(steps).groups[group], step.schedule);
  }

  lemma PayoutRow(db: Db, step: Machine.Step, group: nat)
    requires BooksOk(db) && GroupsOk(db) && PaysNew(db, step, group)
    ensures var g, r := db.groups[group], step.schedule;
            && RowsOk(g) && Pot(g) > 0 && g.payouts[r].paid == 0
            && Machine.Next(db, step).groups == db.groups[group := RecordPayout(g, r)]
  {
    var g, r := db.groups[group], step.schedule;
    assert GroupMoneyOk(db, group) && PayoutRecorded(db, group, r);
    PayoutsMeanLocked(g, r);
    PayoutShape(db, step.admin, group, r);
  }

  // ----- Whole runs in order ----------------------------------------------

  /** A new payout for a cycle already paid, or from a row of a superseded version. */
  predicate Disorderly(db: Db, step: Machine.Step, group: nat) {
    PaysNew(db, step, group) && !InOrder(db.groups[group], step.schedule)
  }

  function DisorderlyAfter(group: nat): (seq<Machine.Step>, Machine.Step) -> bool {
    (before: seq<Machine.Step>, step: Machine.Step) => Disorderly(Machine.Run(before), step, group)
  }

  ghost predicate EverDisorderly(steps: seq<Machine.Step>, group: nat) { Ever(steps, DisorderlyAfter(group)) }

  /** Each new payout of the run, when made, paid its cycle for the first time and the turn then in force. */
  ghost predicate SettlesOneTurn(before: seq<Machine.Step>, step: Machine.Step, group: nat) {
    PaysNew(Machine.Run(before), step, group) ==>
      var db' := Machine.Next(Machine.Run(before), step);
      && group < |db'.groups| && OncePerCycle(db'.groups[group])
      && TurnInForcePaid(db'.groups[group], Machine.Run(before).groups[group].payouts[step.schedule].cycle)
  }

  ghost predicate EveryPayoutSettlesOneTurn(steps: seq<Machine.Step>, group: nat) {
    forall k :: 0 <= k < |steps| ==> SettlesOneTurn(steps[..k], steps[k], group)
  }

  lemma {:induction false} SettlesOneTurnIff(before: seq<Machine.Step>, step: Machine.Step, group: nat)
    requires group < |Machine.Run(before).groups| ==> OncePerCycle(Machine.Run(before).groups[group])
    ensures SettlesOneTurn(before, step, group) <==> !Disorderly(Machine.Run(before), step, group)
  {
    if PaysNew(Machine.Run(before), step, group) {
      PayoutInOrderIff(before, step, group);
      Machine.RunStep(before, step);
    }
  }

  lemma PayingAgainIsDisorderly(db: Db, step: Machine.Step, group: nat)
    ensures PaysAgain(db, step, group) ==> Disorderly(db, step, group)
  {
  }

  lemma {:induction false} OrderlyPaysOnce(steps: seq<Machine.Step>, group: nat)
    requires !EverDisorderly(steps, group)
    ensures !EverPaysAgain(steps, group)
    ensures group < |Machine.Run(steps).groups| ==> OncePerCycle(Machine.Run(steps).groups[group])
  {
    forall k | 0 <= k < |steps| ensures !PaysAgainAfter(group)(steps[..k], steps[k]) {
      PayingAgainIsDisorderly(Machine.Run(steps[..k]), steps[k], group);
      assert !DisorderlyAfter(group)(steps[..k], steps[k]);
    }
    OncePerCycleIff(steps, group);
  }

  lemma PrefixInOrder(steps: seq<Machine.Step>, k: nat, group: nat)
    requires k <= |steps|
    ensures EverDisorderly(steps[..k], group) ==> EverDisorderly(steps, group)
  {
    EverPrefix(steps, k, DisorderlyAfter(group));
  }

  /** The first payout out of order finds the group still paid once per cycle. */
  lemma {:induction false} FirstDisorder(steps: seq<Machine.Step>, group: nat) returns (k: nat)
    requires EverDisorderly(steps, group)
    ensures k < |steps| && Disorderly(Machine.Run(steps[..k]), steps[k], group) && !EverDisorderly(steps[..k], group)
    decreases |steps|
  {
    var last := |steps| - 1;
    EverSplit(steps, DisorderlyAfter(group));
    if EverDisorderly(steps[..last], group) {
      k := FirstDisorder(steps[..last], group);
      assert steps[..last][..k] == steps[..k];
    } else {
      k := last;
    }
  }

  /**
   * In every run, each payout of a group paid its cycle for the first time and
   * the turn then in force, if and only if no accepted payout was for a cycle
   * already paid or from a superseded row. A caller can check both before it pays.
   */
  lemma {:induction false} EveryTurnOnceIff(steps: seq<Machine.Step>, group: nat)
    ensures EveryPayoutSettlesOneTurn(steps, group) <==> !EverDisorderly(steps, group)
  {
    if EverDisorderly(steps, group) {
      var k := FirstDisorder(steps, group);
      OrderlyPaysOnce(steps[..k], group);
      SettlesOneTurnIff(steps[..k], steps[k], group);
    } else {
      forall k | 0 <= k < |steps| ensures SettlesOneTurn(steps[..k], steps[k], group) {
        PrefixInOrder(steps, k, group);
        OrderlyPaysOnce(steps[..k], group);
        assert !DisorderlyAfter(group)(steps[..k], steps[k]);
        SettlesOneTurnIff(steps[..k], steps[k], group);
      }
    }
  }

  // ----- What an executed swap leaves open --------------------------------

  lemma {:induction false} TurnHasRow(rows: seq<PayoutSchedule>, v: nat, k: nat) returns (r: nat)
    requires k < |Turns(rows, v)|
    ensures r < |rows| && rows[r].version == v && TurnOf(rows[r]) == Turns(rows, v)[k]
    decreases |rows|
  {
    var last := |rows| - 1;
    if k < |Turns(rows[..last], v)| {
      r := TurnHasRow(rows[..last], v, k);
    } else {
      r := last;
    }
  }

  /** Some row of version v would still be paid out for this cycle. */
  ghost predicate OpenUnder(g: Group, v: nat, cycle: nat) {
    exists r :: 0 <= r < |g.payouts| && g.payouts[r].version == v && g.payouts[r].cycle == cycle
                && g.payouts[r].paid == 0 && CanExecute(g.payouts[r].status)
  }

  lemma OpenUnderEach(g: Group, v: nat, cycle: nat)
    requires GroupOk(g) && 1 <= v <= g.version && cycle < |g.slots| && PaidFor(g, cycle) == 0
    ensures OpenUnder(g, v, cycle)
  {
    assert IsAssignment(g, Turns(g.payouts, v));
    var r := TurnHasRow(g.payouts, v, cycle);
    PayoutsMeanLocked(g, r);
    UnpaidCycle(g, cycle);
    assert PayoutRowOk(g, g.payouts[r]);
    assert g.payouts[r].cycle == TurnOf(g.payouts[r]).cycle == cycle;
  }

  /**
   * In every run a cycle that has not been paid is open once for every
   * schedule version, superseded or not: after any executed swap, at least
   * twice, whether or not anything had been paid when it was executed.
   */
  lemma {:induction false} UnpaidCyclesStayOpen(steps: seq<Machine.Step>, group: nat, v: nat, cycle: nat)
    requires group < |Machine.Run(steps).groups|
    requires var g := Machine.Run(steps).groups[group];
             1 <= v <= g.version && cycle < |g.slots| && PaidFor(g, cycle) == 0
    ensures OpenUnder(Machine.Run(steps).groups[group], v, cycle)
  {
    GroupsKept(steps);
    assert GroupMoneyOk(Machine.Run(steps), group);
    OpenUnderEach(Machine.Run(steps).groups[group], v, cycle);
  }

  /** No unpaid row of the version in force belongs to a cycle that has been paid. */
  ghost predicate NothingReopened(g: Group) {
    forall r :: 0 <= r < |g.payouts| && g.payouts[r].version == g.version && g.payouts[r].paid == 0 ==>
      PaidFor(g, g.payouts[r].cycle) == 0
  }

  /** The rows an executed swap adds: one for every cycle, open and unpaid. */
  lemma ExecuteRows(g: Group, i: nat, cycle: nat)
    requires GroupOk(g) && !TakesMembers(g) && i < |g.swaps| && Execute(g, i).Ok? && cycle < |g.slots|
    ensures var g', r := Execute(g, i).value, |g.payouts| + cycle;
            && r < |g'.payouts| && g'.payouts[r].cycle == cycle && g'.payouts[r].version == g'.version
            && g'.payouts[r].paid == 0 && CanExecute(g'.payouts[r].status)
  {
    assert IsAssignment(g, Turns(g.payouts, g.version));
    var g', s := Execute(g, i).value, g.swaps[i];
    var added := FreshRows(Transposed(Turns(g.payouts, g.version), s.from, s.to), g.version + 1);
    assert g'.payouts == g.payouts + added;
  }

  /**
   * An executed swap re-opens every cycle that has been paid, so the version
   * it makes has no open row for a paid cycle if and only if none was paid.
   * The rows it supersedes stay open besides.
   */
  lemma SwapReopensPaidCycles(g: Group, i: nat)
    requires GroupOk(g) && !TakesMembers(g) && i < |g.swaps| && Execute(g, i).Ok?
    ensures NothingReopened(Execute(g, i).value) <==> forall cycle: nat :: cycle < |g.slots| ==> PaidFor(g, cycle) == 0
    ensures forall cycle: nat :: cycle < |g.slots| && PaidFor(g, cycle) == 0 ==>
              OpenUnder(Execute(g, i).value, g.version, cycle) && OpenUnder(Execute(g, i).value, g.version + 1, cycle)
  {
    var g' := Execute(g, i).value;
    ExecuteGrows(g, i);
    ExecuteKeeps(g, i);
    forall cycle: nat ensures PaidFor(g', cycle) == PaidFor(g, cycle) {
      PaymentsKeptSame(g, g', cycle);
    }
    forall cycle: nat | cycle < |g.slots| && PaidFor(g, cycle) == 0
      ensures OpenUnder(g', g.version, cycle) && OpenUnder(g', g.version + 1, cycle)
    {
      OpenUnderEach(g', g.version, cycle);
      OpenUnderEach(g', g.version + 1, cycle);
    }
    if NothingReopened(g') {
      forall cycle: nat | cycle < |g.slots| ensures PaidFor(g, cycle) == 0 {
        ExecuteRows(g, i, cycle);
        assert g'.payouts[|g.payouts| + cycle].paid == 0;
      }
    } else {
      var r :| 0 <= r < |g'.payouts| && g'.payouts[r].paid == 0 && PaidFor(g', g'.payouts[r].cycle) != 0;
      assert PayoutRowOk(g', g'.payouts[r]);
    }
  }
}
