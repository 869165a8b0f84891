/**
 * What ties each group's schedules to the contribution and payout rows, kept
 * by every step.
 */
module GroupMoney {
  import opened Prelude
  import opened Ledger
  import opened Tables
  import opened Books
  import opened Groups
  import opened Rotation
  import AjoMoney
  import Bills
  import KeepingPayments
  import Machine
  import Payments

  // ----- The invariant ----------------------------------------------------

  function PaidOf(): ContributionSchedule -> int { (c: ContributionSchedule) => c.paid }
  function PaidOutOf(): PayoutSchedule -> int { (p: PayoutSchedule) => p.paid }

  function IntoGroup(group: nat): ContributionRow -> int {
    (c: ContributionRow) => if c.group == group then c.amount else 0
  }
  function IntoSchedule(group: nat, schedule: nat): ContributionRow -> int {
    (c: ContributionRow) => if c.group == group && c.schedule == schedule then c.amount else 0
  }
  function OutOfGroup(group: nat): Tables.PayoutRow -> int {
    (p: Tables.PayoutRow) => if p.group == group then p.amount else 0
  }

  /** Every contribution and payout row names a schedule that exists. */
  ghost predicate RowsPlaced(db: Db) {
    && (forall k :: 0 <= k < |db.contributions| ==>
          && db.contributions[k].group < |db.groups|
          && db.contributions[k].schedule < |db.groups[db.contributions[k].group].contribs|)
    && (forall k :: 0 <= k < |db.payouts| ==>
          && db.payouts[k].group < |db.groups|
          && db.payouts[k].schedule < |db.groups[db.payouts[k].group].payouts|)
  }

  /** A payout schedule is paid iff a payout row exists for it, and only once its cycle is collected. */
  ghost predicate PayoutRecorded(db: Db, group: nat, r: nat)
    requires group < |db.groups| && r < |db.groups[group].payouts|
  {
    var g := db.groups[group];
    && (g.payouts[r].paid != 0 <==> AjoMoney.FindPayout(db.payouts, group, r).Some?)
    && (g.payouts[r].paid != 0 ==> FullyCollected(g, g.payouts[r].cycle))
  }

  ghost predicate GroupMoneyOk(db: Db, group: nat)
    requires group < |db.groups|
  {
    var g := db.groups[group];
    && GroupOk(g)
    && Sum(db.contributions, IntoGroup(group)) == Sum(g.contribs, PaidOf())
    && (forall s :: 0 <= s < |g.contribs| ==> g.contribs[s].paid == Sum(db.contributions, IntoSchedule(group, s)))
    && Sum(db.payouts, OutOfGroup(group)) == Sum(g.payouts, PaidOutOf())
    && (forall r :: 0 <= r < |g.payouts| ==> PayoutRecorded(db, group, r))
  }

  ghost predicate GroupsOk(db: Db) {
    && RowsPlaced(db)
    && forall group :: 0 <= group < |db.groups| ==> GroupMoneyOk(db, group)
  }

  // ----- Steps that touch no group ----------------------------------------

  ghost predicate SameGroups(db: Db, db': Db) {
    db'.groups == db.groups && db'.contributions == db.contributions && db'.payouts == db.payouts
  }

  lemma SameGroupsKeeps(db: Db, db': Db)
    requires GroupsOk(db) && SameGroups(db, db')
    ensures GroupsOk(db')
  {
    forall group | 0 <= group < |db'.groups| ensures GroupMoneyOk(db', group) {
      assert GroupMoneyOk(db, group);
      forall r | 0 <= r < |db'.groups[group].payouts| ensures PayoutRecorded(db', group, r) {
        assert PayoutRecorded(db, group, r);
      }
    }
  }

  // ----- A new group ------------------------------------------------------

  lemma NothingFor(db: Db, group: nat)
    requires RowsPlaced(db) && group >= |db.groups|
    ensures Sum(db.contributions, IntoGroup(group)) == 0 && Sum(db.payouts, OutOfGroup(group)) == 0
  {
    SumZero(db.contributions, IntoGroup(group));
    SumZero(db.payouts, OutOfGroup(group));
  }

  lemma FoundKeeps(db: Db, founder: nat, dto: NewGroup)
    requires GroupsOk(db) && Machine.FoundGroupTx(db, founder, dto).Ok?
    ensures GroupsOk(Machine.FoundGroupTx(db, founder, dto).value)
  {
    var db' := Machine.FoundGroupTx(db, founder, dto).value;
    CreateOk(founder, dto);
    NothingFor(db, |db.groups|);
    forall group | 0 <= group < |db'.groups| ensures GroupMoneyOk(db', group) {
      if group < |db.groups| {
        assert GroupMoneyOk(db, group);
        forall r | 0 <= r < |db'.groups[group].payouts| ensures PayoutRecorded(db', group, r) {
          assert PayoutRecorded(db, group, r);
        }
      }
    }
  }

  // ----- Administrative steps ---------------------------------------------

  /** Schedules are only added, unpaid, and no contribution is added once payouts exist. */
  ghost predicate GrowsUnpaid(g: Group, g': Group) {
    && g.contribs <= g'.contribs && g.payouts <= g'.payouts
    && (forall s :: |g.contribs| <= s < |g'.contribs| ==> g'.contribs[s].paid == 0)
    && (forall r :: |g.payouts| <= r < |g'.payouts| ==> g'.payouts[r].paid == 0)
    && (g.payouts != [] ==> g'.contribs == g.contribs)
  }

  lemma LockGrows(g: Group, user: nat)
    requires GroupOk(g) && Lock(g, user).Ok?
    ensures GrowsUnpaid(g, Lock(g, user).value)
  {
    LockShape(g, user);
    ContributionRowsDue(GenerateRotation(g).value, |g.slots|, 1, g.base);
    var g' := Lock(g, user).value;
    forall s | 0 <= s < |g'.contribs| ensures g'.contribs[s].paid == 0 {
      assert FreshContribution(g'.contribs[s], GenerateRotation(g).value, |g.slots|, 1, g.base);
    }
  }

  lemma ExecuteGrows(g: Group, i: nat)
    requires i < |g.swaps| && Execute(g, i).Ok?
    ensures GrowsUnpaid(g, Execute(g, i).value)
  {
    var added := FreshRows(Transposed(Turns(g.payouts, g.version), g.swaps[i].from, g.swaps[i].to), g.version + 1);
    assert Execute(g, i).value.payouts == g.payouts + added;
  }

  lemma GovernGrows(g: Group, step: GroupStep, now: int)
    requires GroupOk(g) && Govern(g, step, now).Ok?
    ensures GrowsUnpaid(g, Govern(g, step, now).value)
  {
    match step
    case LockGroup(user) => LockGrows(g, user);
    case ApproveStep(user, i) =>
      var g' := Govern(g, step, now).value;
      if g'.payouts != g.payouts {
        var s := g.swaps[i];
        var s' := s.(approvals := s.approvals[MemberOf(g, user).value := true]);
        ExecuteGrows(g.(swaps := g.swaps[i := s']), i);
      }
    case _ =>
  }

  lemma GrowsUnpaidSums(g: Group, g': Group)
    requires GrowsUnpaid(g, g')
    ensures Sum(g'.contribs, PaidOf()) == Sum(g.contribs, PaidOf())
    ensures Sum(g'.payouts, PaidOutOf()) == Sum(g.payouts, PaidOutOf())
  {
    var contribs, payouts := g'.contribs[|g.contribs|..], g'.payouts[|g.payouts|..];
    assert g'.contribs == g.contribs + contribs && g'.payouts == g.payouts + payouts;
    SumConcat(g.contribs, contribs, PaidOf());
    SumConcat(g.payouts, payouts, PaidOutOf());
    SumZero(contribs, PaidOf());
    SumZero(payouts, PaidOutOf());
  }

  lemma NoRowsYet(db: Db, group: nat, s: nat)
    requires RowsPlaced(db) && group < |db.groups| && s >= |db.groups[group].contribs|
    ensures Sum(db.contributions, IntoSchedule(group, s)) == 0
  {
    SumZero(db.contributions, IntoSchedule(group, s));
  }

  lemma GovernedGroup(db: Db, group: nat, g': Group)
    requires GroupsOk(db) && group < |db.groups| && GroupOk(g') && GrowsUnpaid(db.groups[group], g')
    ensures GroupMoneyOk(db.(groups := db.groups[group := g']), group)
  {
    var g, db' := db.groups[group], db.(groups := db.groups[group := g']);
    assert GroupMoneyOk(db, group);
    GrowsUnpaidSums(g, g');
    forall s | 0 <= s < |g'.contribs|
      ensures g'.contribs[s].paid == Sum(db.contributions, IntoSchedule(group, s))
    {
      if s >= |g.contribs| {
        NoRowsYet(db, group, s);
      }
    }
    forall r | 0 <= r < |g'.payouts| ensures PayoutRecorded(db', group, r) {
      if r < |g.payouts| {
        assert PayoutRecorded(db, group, r);
      }
    }
  }

  /** Replacing one group leaves what is recorded for the others alone. */
  lemma OneGroupReplaced(db: Db, group: nat, g': Group)
    requires GroupsOk(db) && group < |db.groups|
    requires |g'.contribs| >= |db.groups[group].contribs| && |g'.payouts| >= |db.groups[group].payouts|
    requires GroupMoneyOk(db.(groups := db.groups[group := g']), group)
    ensures GroupsOk(db.(groups := db.groups[group := g']))
  {
    var db' := db.(groups := db.groups[group := g']);
    forall k | 0 <= k < |db'.groups| ensures GroupMoneyOk(db', k) {
      if k != group {
        assert GroupMoneyOk(db, k);
        forall r | 0 <= r < |db'.groups[k].payouts| ensures PayoutRecorded(db', k, r) {
          assert PayoutRecorded(db, k, r);
        }
      }
    }
  }

  lemma GovernedKeeps(db: Db, group: nat, change: GroupStep)
    requires GroupsOk(db) && Machine.GovernTx(db, group, change).Ok?
    ensures GroupsOk(Machine.GovernTx(db, group, change).value)
  {
    var g := db.groups[group];
    var g' := Govern(g, change, db.now).value;
    assert GroupMoneyOk(db, group);
    GovernKeeps(g, change, db.now);
    GovernGrows(g, change, db.now);
    GovernedGroup(db, group, g');
    OneGroupReplaced(db, group, g');
  }

  // ----- Contributions ----------------------------------------------------

  /** A schedule that can still be paid keeps its cycle from being collected. */
  lemma CollectedStaysCollected(g: Group, s: nat, amount: int, now: int, cycle: nat)
    requires GroupOk(g) && s < |g.contribs| && 0 < amount <= g.contribs[s].due - g.contribs[s].paid
    requires FullyCollected(g, cycle)
    ensures FullyCollected(RecordPaid(g, s, amount, now), cycle)
  {
    RecordPaidKeeps(g, s, amount, now);
    assert ContributionRowOk(g, g.contribs[s]);
    assert g.contribs[s].cycle != cycle;
    var g' := RecordPaid(g, s, amount, now);
    forall i | 0 <= i < |g'.contribs| && g'.contribs[i].cycle == cycle ensures !Outstanding(g'.contribs[i].status) {
      assert g'.contribs[i] == g.contribs[i];
    }
  }

  lemma ContributedGroup(db: Db, db': Db, group: nat, s: nat, row: ContributionRow)
    requires GroupsOk(db) && group < |db.groups| && s < |db.groups[group].contribs|
    requires 0 < row.amount <= db.groups[group].contribs[s].due - db.groups[group].contribs[s].paid
    requires row.group == group && row.schedule == s && db'.contributions == db.contributions + [row]
    requires db'.groups == db.groups[group := RecordPaid(db.groups[group], s, row.amount, db.now)]
    requires db'.payouts == db.payouts
    ensures GroupMoneyOk(db', group)
  {
    var g, g' := db.groups[group], db'.groups[group];
    assert GroupMoneyOk(db, group);
    RecordPaidKeeps(g, s, row.amount, db.now);
    SumAppend(db.contributions, row, IntoGroup(group));
    SumUpdate(g.contribs, s, g'.contribs[s], PaidOf());
    forall k | 0 <= k < |g'.contribs|
      ensures g'.contribs[k].paid == Sum(db'.contributions, IntoSchedule(group, k))
    {
      SumAppend(db.contributions, row, IntoSchedule(group, k));
    }
    forall r | 0 <= r < |g'.payouts| ensures PayoutRecorded(db', group, r) {
      assert PayoutRecorded(db, group, r);
      if g.payouts[r].paid != 0 {
        CollectedStaysCollected(g, s, row.amount, db.now, g.payouts[r].cycle);
      }
    }
  }

  lemma ContributedElsewhere(db: Db, db': Db, group: nat, row: ContributionRow)
    requires GroupsOk(db) && group < |db.groups| && row.group != group
    requires db'.contributions == db.contributions + [row] && db'.payouts == db.payouts
    requires |db'.groups| == |db.groups| && db'.groups[group] == db.groups[group]
    ensures GroupMoneyOk(db', group)
  {
    assert GroupMoneyOk(db, group);
    SumAppend(db.contributions, row, IntoGroup(group));
    forall s | 0 <= s < |db.groups[group].contribs|
      ensures db.groups[group].contribs[s].paid == Sum(db'.contributions, IntoSchedule(group, s))
    {
      SumAppend(db.contributions, row, IntoSchedule(group, s));
    }
    forall r | 0 <= r < |db'.groups[group].payouts| ensures PayoutRecorded(db', group, r) {
      assert PayoutRecorded(db, group, r);
    }
  }

  lemma ContributedKeeps(db: Db, db': Db, group: nat, s: nat, row: ContributionRow)
    requires GroupsOk(db) && group < |db.groups| && s < |db.groups[group].contribs|
    requires 0 < row.amount <= db.groups[group].contribs[s].due - db.groups[group].contribs[s].paid
    requires row.group == group && row.schedule == s && db'.contributions == db.contributions + [row]
    requires db'.groups == db.groups[group := RecordPaid(db.groups[group], s, row.amount, db.now)]
    requires db'.payouts == db.payouts
    ensures GroupsOk(db')
  {
    ContributedGroup(db, db', group, s, row);
    forall k | 0 <= k < |db'.groups| ensures GroupMoneyOk(db', k) {
      if k != group {
        ContributedElsewhere(db, db', k, row);
      }
    }
  }

  // ----- Payouts ----------------------------------------------------------

  lemma FindPayoutAppended(rows: seq<Tables.PayoutRow>, row: Tables.PayoutRow, group: nat, r: nat)
    ensures AjoMoney.FindPayout(rows + [row], group, r).Some?
       <==> AjoMoney.FindPayout(rows, group, r).Some? || (row.group == group && row.schedule == r)
  {
    assert (rows + [row])[..|rows|] == rows;
  }

  lemma PaidOutGroup(db: Db, db': Db, group: nat, r: nat, row: Tables.PayoutRow)
    requires GroupsOk(db) && group < |db.groups| && r < |db.groups[group].payouts|
    requires FullyCollected(db.groups[group], db.groups[group].payouts[r].cycle)
    requires AjoMoney.FindPayout(db.payouts, group, r).None?
    requires row.group == group && row.schedule == r && row.amount == db.groups[group].payouts[r].due > 0
    requires db'.payouts == db.payouts + [row] && db'.contributions == db.contributions
    requires db'.groups == db.groups[group := RecordPayout(db.groups[group], r)]
    ensures GroupMoneyOk(db', group)
  {
    var g, g' := db.groups[group], db'.groups[group];
    assert GroupMoneyOk(db, group) && PayoutRecorded(db, group, r);
    RecordPayoutKeeps(g, r);
    SumAppend(db.payouts, row, OutOfGroup(group));
    SumUpdate(g.payouts, r, g'.payouts[r], PaidOutOf());
    forall k | 0 <= k < |g'.payouts| ensures PayoutRecorded(db', group, k) {
      assert PayoutRecorded(db, group, k);
      FindPayoutAppended(db.payouts, row, group, k);
    }
  }

  lemma PaidOutElsewhere(db: Db, db': Db, group: nat, row: Tables.PayoutRow)
    requires GroupsOk(db) && group < |db.groups| && row.group != group
    requires db'.payouts == db.payouts + [row] && db'.contributions == db.contributions
    requires |db'.groups| == |db.groups| && db'.groups[group] == db.groups[group]
    ensures GroupMoneyOk(db', group)
  {
    assert GroupMoneyOk(db, group);
    SumAppend(db.payouts, row, OutOfGroup(group));
    forall r | 0 <= r < |db'.groups[group].payouts| ensures PayoutRecorded(db', group, r) {
      assert PayoutRecorded(db, group, r);
      FindPayoutAppended(db.payouts, row, group, r);
    }
  }

  /** A payout that goes through for the first time: which guards it passed and what it wrote. */
  lemma PayoutShape(db: Db, user: nat, group: nat, r: nat)
    requires BooksOk(db) && AjoMoney.SettlePayout(db, user, group, r).Ok?
    requires AjoMoney.FindPayout(db.payouts, group, r).None?
    ensures var db' := AjoMoney.SettlePayout(db, user, group, r).value;
            && group < |db.groups| && r < |db.groups[group].payouts|
            && FullyCollected(db.groups[group], db.groups[group].payouts[r].cycle)
            && CanExecute(db.groups[group].payouts[r].status)
            && Balance(db.ledger, Pool(group)) >= db.groups[group].payouts[r].due > 0
            && |db'.payouts| == |db.payouts| + 1 && db'.payouts == db.payouts + [db'.payouts[|db.payouts|]]
            && db'.payouts[|db.payouts|].group == group && db'.payouts[|db.payouts|].schedule == r
            && db'.payouts[|db.payouts|].amount == db.groups[group].payouts[r].due
            && AjoMoney.RecipientOf(db.groups[group], r) == Some(db'.payouts[|db.payouts|].recipient)
            && db'.groups == db.groups[group := RecordPayout(db.groups[group], r)]
            && db'.contributions == db.contributions
  {
    var recipient := AjoMoney.RecipientOf(db.groups[group], r).value;
    PairBalanced(Pool(group), Available(recipient), db.groups[group].payouts[r].due);
  }

  lemma PaidOutKeeps(db: Db, db': Db, group: nat, r: nat, row: Tables.PayoutRow)
    requires GroupsOk(db) && group < |db.groups| && r < |db.groups[group].payouts|
    requires FullyCollected(db.groups[group], db.groups[group].payouts[r].cycle)
    requires AjoMoney.FindPayout(db.payouts, group, r).None?
    requires row.group == group && row.schedule == r && row.amount == db.groups[group].payouts[r].due > 0
    requires db'.payouts == db.payouts + [row] && db'.contributions == db.contributions
    requires db'.groups == db.groups[group := RecordPayout(db.groups[group], r)]
    ensures GroupsOk(db')
  {
    PaidOutGroup(db, db', group, r, row);
    forall k | 0 <= k < |db'.groups| ensures GroupMoneyOk(db', k) {
      if k != group {
        PaidOutElsewhere(db, db', k, row);
      }
    }
  }

  lemma PayoutKeepsGroups(db: Db, user: nat, group: nat, r: nat)
    requires BooksOk(db) && GroupsOk(db) && AjoMoney.SettlePayout(db, user, group, r).Ok?
    ensures GroupsOk(AjoMoney.SettlePayout(db, user, group, r).value)
  {
    if AjoMoney.FindPayout(db.payouts, group, r).None? {
      PayoutShape(db, user, group, r);
      var db' := AjoMoney.SettlePayout(db, user, group, r).value;
      PaidOutKeeps(db, db', group, r, db'.payouts[|db.payouts|]);
    }
  }

  lemma HoldKeeps(db: Db, group: nat, r: nat)
    requires GroupsOk(db) && AjoMoney.WriteHold(db, group, r).Ok?
    ensures GroupsOk(AjoMoney.WriteHold(db, group, r).value)
  {
    var g := db.groups[group];
    var db' := AjoMoney.WriteHold(db, group, r).value;
    assert GroupMoneyOk(db, group);
    RecordPayoutKeeps(g, r);
    SumUpdate(g.payouts, r, db'.groups[group].payouts[r], PaidOutOf());
    forall k | 0 <= k < |g.payouts| ensures PayoutRecorded(db', group, k) {
      assert PayoutRecorded(db, group, k);
    }
    OneGroupReplaced(db, group, HoldPayout(g, r));
  }

  // ----- Every step -------------------------------------------------------

  predicate TouchesGroups(step: Machine.Step) {
    || step.FoundGroup? || step.Governed? || step.Contribute? || step.PayOut? || step.Hold? || step.PayFromWallet?
  }

  lemma IntentStepsSameGroups(db: Db, step: Machine.Step)
    requires Machine.Attempt(db, step).Ok? && !step.PayFromWallet?
    requires KeepingPayments.IntentStep(step) || step.OpenWallet? || step.SetWallet?
    ensures SameGroups(db, Machine.Attempt(db, step).value)
  {
  }

  lemma AnswersSameGroups(db: Db, b: nat, answer: Bills.Answer)
    requires Bills.ApplyAnswer(db, b, answer).Ok?
    ensures SameGroups(db, Bills.ApplyAnswer(db, b, answer).value)
  {
  }

  lemma BillStepsSameGroups(db: Db, step: Machine.Step)
    requires Machine.Attempt(db, step).Ok?
    requires step.ReserveBill? || step.AfterCommit? || step.Answered? || step.CallFailed?
    ensures SameGroups(db, Machine.Attempt(db, step).value)
  {
    if step.Answered? {
      AnswersSameGroups(db, step.id, step.answer);
    }
  }

  lemma OtherStepsSameGroups(db: Db, step: Machine.Step)
    requires Machine.Attempt(db, step).Ok? && !TouchesGroups(step)
    ensures SameGroups(db, Machine.Attempt(db, step).value)
  {
    if KeepingPayments.IntentStep(step) || step.OpenWallet? || step.SetWallet? {
      IntentStepsSameGroups(db, step);
    } else if step.ReserveBill? || step.AfterCommit? || step.Answered? || step.CallFailed? {
      BillStepsSameGroups(db, step);
    }
  }

  lemma ContributeKeepsGroups(db: Db, user: nat, group: nat, s: nat, amount: int, caller: CallerKey)
    requires GroupsOk(db) && AjoMoney.PayContribution(db, user, group, s, amount, caller).Ok?
    ensures GroupsOk(AjoMoney.PayContribution(db, user, group, s, amount, caller).value)
  {
    var db' := AjoMoney.PayContribution(db, user, group, s, amount, caller).value;
    if AjoMoney.FindContribution(db.contributions, group, s, caller).None? {
      ContributedKeeps(db, db', group, s, db'.contributions[|db.contributions|]);
    }
  }

  lemma PaymentTouchesOneContribution(db: Db, user: nat, i: nat, caller: nat, quote: Payments.Quote)
    requires Payments.SettleFromWallet(db, user, i, caller, quote).Ok?
    ensures var db' := Payments.SettleFromWallet(db, user, i, caller, quote).value;
            || SameGroups(db, db')
            || (&& db.intents[i].target.Contribution? && db'.payouts == db.payouts
                && var group, s := db.intents[i].target.group, db.intents[i].target.schedule;
                && group < |db.groups| && s < |db.groups[group].contribs|
                && 0 < db.intents[i].amount <= db.groups[group].contribs[s].due - db.groups[group].contribs[s].paid
                && |db'.contributions| == |db.contributions| + 1
                && db'.contributions == db.contributions + [db'.contributions[|db.contributions|]]
                && db'.contributions[|db.contributions|].group == group
                && db'.contributions[|db.contributions|].schedule == s
                && db'.contributions[|db.contributions|].amount == db.intents[i].amount
                && db'.groups == db.groups[group := RecordPaid(db.groups[group], s, db.intents[i].amount, db.now)])
  {
  }

  lemma PaymentKeepsGroups(db: Db, user: nat, i: nat, caller: nat, quote: Payments.Quote)
    requires GroupsOk(db) && Payments.SettleFromWallet(db, user, i, caller, quote).Ok?
    ensures GroupsOk(Payments.SettleFromWallet(db, user, i, caller, quote).value)
  {
    var db' := Payments.SettleFromWallet(db, user, i, caller, quote).value;
    PaymentTouchesOneContribution(db, user, i, caller, quote);
    if SameGroups(db, db') {
      SameGroupsKeeps(db, db');
    } else {
      var target := db.intents[i].target;
      ContributedKeeps(db, db', target.group, target.schedule, db'.contributions[|db.contributions|]);
    }
  }

  lemma ConfirmKeepsGroups(db: Db, user: nat, i: nat, caller: nat, quote: Payments.Quote)
    requires GroupsOk(db) && Machine.ConfirmTx(db, user, i, caller, quote).Ok?
    ensures GroupsOk(Machine.ConfirmTx(db, user, i, caller, quote).value)
  {
    PaymentKeepsGroups(db, user, i, caller, quote);
    SameGroupsKeeps(Payments.SettleFromWallet(db, user, i, caller, quote).value,
                    Machine.ConfirmTx(db, user, i, caller, quote).value);
  }

  lemma AttemptKeepsGroups(db: Db, step: Machine.Step)
    requires BooksOk(db) && GroupsOk(db) && Machine.Attempt(db, step).Ok?
    ensures GroupsOk(Machine.Attempt(db, step).value)
  {
    if !TouchesGroups(step) {
      OtherStepsSameGroups(db, step);
      SameGroupsKeeps(db, Machine.Attempt(db, step).value);
    } else {
      match step
      case FoundGroup(u, dto) => FoundKeeps(db, u, dto);
      case Governed(group, change) => GovernedKeeps(db, group, change);
      case Contribute(u, group, s, amount, caller) => ContributeKeepsGroups(db, u, group, s, amount, caller);
      case PayOut(u, group, r) => PayoutKeepsGroups(db, u, group, r);
      case Hold(group, r) => HoldKeeps(db, group, r);
      case PayFromWallet(u, i, caller, quote) => ConfirmKeepsGroups(db, u, i, caller, quote);
    }
  }

  /** The schedules and the money rows agree in every reachable state. */
  lemma {:induction false} GroupsKept(steps: seq<Machine.Step>)
    ensures GroupsOk(Machine.Run(steps))
    decreases |steps|
  {
    if steps != [] {
      var last := |steps| - 1;
      var before := Machine.Run(steps[..last]);
      GroupsKept(steps[..last]);
      KeepingPayments.BooksKept(steps[..last]);
      if Machine.Attempt(before, steps[last]).Ok? {
        AttemptKeepsGroups(before, steps[last]);
      }
    }
  }
}
