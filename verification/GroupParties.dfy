/** Who pays into a group and who is paid out of it, in every run. */
module GroupParties {
  import opened Prelude
  import opened Tables
  import opened Groups
  import opened Machine
  import opened Books
  import opened Rotation
  import AjoMoney
  import GroupMoney
  import KeepingPayments
  import Ledger
  import Payments
  import Solvency

  /** The member holding a slot. */
  function HolderOf(g: Group, slot: nat): Option<nat> {
    if slot < |g.slots| && g.slots[slot].member < |g.members| then Some(g.members[g.slots[slot].member].user) else None
  }

  /** Slots keep their holders, schedules keep their slot and amount; rows are only added. */
  ghost predicate KeepsParties(g: Group, g': Group) {
    && |g.members| <= |g'.members| && (forall m :: 0 <= m < |g.members| ==> g'.members[m].user == g.members[m].user)
    && |g.slots| <= |g'.slots| && (forall s :: 0 <= s < |g.slots| ==> g'.slots[s].member == g.slots[s].member)
    && |g.contribs| <= |g'.contribs| && (forall c :: 0 <= c < |g.contribs| ==> g'.contribs[c].slot == g.contribs[c].slot)
    && |g.payouts| <= |g'.payouts|
    && (forall p :: 0 <= p < |g.payouts| ==>
          g'.payouts[p].slot == g.payouts[p].slot && g'.payouts[p].due == g.payouts[p].due)
  }

  ghost predicate ContributionByHolder(groups: seq<Group>, c: ContributionRow) {
    && c.group < |groups| && c.schedule < |groups[c.group].contribs|
    && HolderOf(groups[c.group], groups[c.group].contribs[c.schedule].slot) == Some(c.payer)
  }

  ghost predicate PayoutToHolder(groups: seq<Group>, p: Tables.PayoutRow) {
    && p.group < |groups| && p.schedule < |groups[p.group].payouts|
    && HolderOf(groups[p.group], groups[p.group].payouts[p.schedule].slot) == Some(p.recipient)
    && p.amount == groups[p.group].payouts[p.schedule].due
  }

  ghost predicate PartiesOk(db: Db) {
    && (forall c :: c in db.contributions ==> ContributionByHolder(db.groups, c))
    && (forall p :: p in db.payouts ==> PayoutToHolder(db.groups, p))
  }

  ghost predicate GroupsKeepParties(groups: seq<Group>, groups': seq<Group>) {
    |groups| <= |groups'| && forall k :: 0 <= k < |groups| ==> KeepsParties(groups[k], groups'[k])
  }

  lemma PartiesStay(db: Db, groups: seq<Group>)
    requires PartiesOk(db) && GroupsKeepParties(db.groups, groups)
    ensures PartiesOk(db.(groups := groups))
  {
    forall c | c in db.contributions ensures ContributionByHolder(groups, c) {
      assert ContributionByHolder(db.groups, c);
      assert KeepsParties(db.groups[c.group], groups[c.group]);
    }
    forall p | p in db.payouts ensures PayoutToHolder(groups, p) {
      assert PayoutToHolder(db.groups, p);
      assert KeepsParties(db.groups[p.group], groups[p.group]);
    }
  }

  lemma GovernKeepsParties(g: Group, change: GroupStep, now: int)
    requires Govern(g, change, now).Ok?
    ensures KeepsParties(g, Govern(g, change, now).value)
  {
  }

  lemma SamePartiesKeep(db: Db, db': Db)
    requires PartiesOk(db) && db'.contributions == db.contributions && db'.payouts == db.payouts
    requires GroupsKeepParties(db.groups, db'.groups)
    ensures PartiesOk(db')
  {
    PartiesStay(db, db'.groups);
  }

  lemma ContributionKeepsParties(db: Db, db': Db, c: ContributionRow)
    requires PartiesOk(db) && db'.contributions == db.contributions + [c] && db'.payouts == db.payouts
    requires GroupsKeepParties(db.groups, db'.groups) && ContributionByHolder(db.groups, c)
    ensures PartiesOk(db')
  {
    PartiesStay(db, db'.groups);
    assert KeepsParties(db.groups[c.group], db'.groups[c.group]);
  }

  lemma PayoutKeepsParties(db: Db, db': Db, p: Tables.PayoutRow)
    requires PartiesOk(db) && db'.payouts == db.payouts + [p] && db'.contributions == db.contributions
    requires GroupsKeepParties(db.groups, db'.groups) && PayoutToHolder(db.groups, p)
    ensures PartiesOk(db')
  {
    PartiesStay(db, db'.groups);
    assert KeepsParties(db.groups[p.group], db'.groups[p.group]);
  }

  /** Whoever owes a contribution holds its slot. */
  lemma OwerHolds(g: Group, user: nat, schedule: nat)
    requires AjoMoney.Owes(g, user, schedule)
    ensures HolderOf(g, g.contribs[schedule].slot) == Some(user)
  {
  }

  lemma ContributeParties(db: Db, user: nat, group: nat, s: nat, amount: int, caller: Ledger.CallerKey)
    requires PartiesOk(db) && AjoMoney.PayContribution(db, user, group, s, amount, caller).Ok?
    ensures PartiesOk(AjoMoney.PayContribution(db, user, group, s, amount, caller).value)
  {
    var db' := AjoMoney.PayContribution(db, user, group, s, amount, caller).value;
    if AjoMoney.FindContribution(db.contributions, group, s, caller).None? {
      OwerHolds(db.groups[group], user, s);
      ContributionKeepsParties(db, db', db'.contributions[|db.contributions|]);
    }
  }

  lemma PaymentByHolder(db: Db, user: nat, i: nat, caller: nat, quote: Payments.Quote)
    requires Payments.SettleFromWallet(db, user, i, caller, quote).Ok?
    ensures var db' := Payments.SettleFromWallet(db, user, i, caller, quote).value;
            || GroupMoney.SameGroups(db, db')
            || (&& |db'.contributions| == |db.contributions| + 1
                && db'.contributions == db.contributions + [db'.contributions[|db.contributions|]]
                && ContributionByHolder(db.groups, db'.contributions[|db.contributions|])
                && db'.payouts == db.payouts && GroupsKeepParties(db.groups, db'.groups))
  {
    if db.intents[i].status == RequiresConfirmation && db.intents[i].target.Contribution? {
      var target := db.intents[i].target;
      if target.group < |db.groups| && target.schedule < |db.groups[target.group].contribs| {
        OwerHolds(db.groups[target.group], user, target.schedule);
      }
    }
  }

  lemma PaymentParties(db: Db, user: nat, i: nat, caller: nat, quote: Payments.Quote)
    requires PartiesOk(db) && Payments.SettleFromWallet(db, user, i, caller, quote).Ok?
    ensures PartiesOk(Payments.SettleFromWallet(db, user, i, caller, quote).value)
  {
    var db' := Payments.SettleFromWallet(db, user, i, caller, quote).value;
    PaymentByHolder(db, user, i, caller, quote);
    if GroupMoney.SameGroups(db, db') {
      SamePartiesKeep(db, db');
    } else {
      ContributionKeepsParties(db, db', db'.contributions[|db.contributions|]);
    }
  }

  lemma PayOutParties(db: Db, user: nat, group: nat, r: nat)
    requires PartiesOk(db) && AjoMoney.SettlePayout(db, user, group, r).Ok?
    ensures PartiesOk(AjoMoney.SettlePayout(db, user, group, r).value)
  {
    var db' := AjoMoney.SettlePayout(db, user, group, r).value;
    if AjoMoney.FindPayout(db.payouts, group, r).None? {
      PayoutKeepsParties(db, db', db'.payouts[|db.payouts|]);
    }
  }

  lemma AttemptKeepsParties(db: Db, step: Step)
    requires PartiesOk(db) && Attempt(db, step).Ok?
    ensures PartiesOk(Attempt(db, step).value)
  {
    if !GroupMoney.TouchesGroups(step) {
      GroupMoney.OtherStepsSameGroups(db, step);
      SamePartiesKeep(db, Attempt(db, step).value);
    } else {
      match step
      case FoundGroup(_, _) => SamePartiesKeep(db, Attempt(db, step).value);
      case Hold(_, _) => SamePartiesKeep(db, Attempt(db, step).value);
      case Governed(group, change) =>
        GovernKeepsParties(db.groups[group], change, db.now);
        SamePartiesKeep(db, Attempt(db, step).value);
      case Contribute(u, group, s, amount, caller) => ContributeParties(db, u, group, s, amount, caller);
      case PayOut(u, group, r) => PayOutParties(db, u, group, r);
      case PayFromWallet(u, i, caller, quote) => PaymentParties(db, u, i, caller, quote);
    }
  }

  lemma {:induction false} PartiesKept(steps: seq<Step>)
    ensures PartiesOk(Run(steps))
    decreases |steps|
  {
    if steps != [] {
      var last := |steps| - 1;
      var before := Run(steps[..last]);
      PartiesKept(steps[..last]);
      if Attempt(before, steps[last]).Ok? {
        AttemptKeepsParties(before, steps[last]);
      }
    }
  }

  /** In every run each contribution was paid by the member who holds its slot, swaps or no swaps. */
  lemma {:induction false} ContributorsHoldTheirSlots(steps: seq<Step>, k: nat)
    requires k < |Run(steps).contributions|
    ensures ContributionByHolder(Run(steps).groups, Run(steps).contributions[k])
  {
    PartiesKept(steps);
  }

  /**
   * In every run each payout went to the member who holds the slot its own row
   * names, for the row's amount: which slot that is when the row has been
   * superseded is the next theorem.
   */
  lemma {:induction false} PayoutsFollowTheirRows(steps: seq<Step>, k: nat)
    requires k < |Run(steps).payouts|
    ensures PayoutToHolder(Run(steps).groups, Run(steps).payouts[k])
  {
    PartiesKept(steps);
  }

  // ----- Payouts and the version in force ---------------------------------

  lemma {:induction false} RowHasTurn(rows: seq<PayoutSchedule>, r: nat) returns (k: nat)
    requires r < |rows|
    ensures k < |Turns(rows, rows[r].version)| && Turns(rows, rows[r].version)[k] == TurnOf(rows[r])
    decreases |rows|
  {
    var last := |rows| - 1;
    if r == last {
      k := |Turns(rows, rows[r].version)| - 1;
    } else {
      k := RowHasTurn(rows[..last], r);
      assert Turns(rows, rows[r].version)[k] == Turns(rows[..last], rows[r].version)[k];
    }
  }

  /** A row is the turn its version gives its cycle. */
  lemma RowIsItsTurn(g: Group, r: nat)
    requires GroupOk(g) && r < |g.payouts|
    ensures var cycle, v := g.payouts[r].cycle, g.payouts[r].version;
            1 <= v <= g.version && cycle < |Turns(g.payouts, v)| && Turns(g.payouts, v)[cycle] == TurnOf(g.payouts[r])
  {
    assert PayoutRowOk(g, g.payouts[r]);
    var k := RowHasTurn(g.payouts, r);
    assert IsAssignment(g, Turns(g.payouts, g.payouts[r].version));
  }

  /** The slot the version in force pays in a cycle. */
  function SlotInForce(g: Group, cycle: nat): nat
    requires cycle < |Turns(g.payouts, g.version)|
  {
    Turns(g.payouts, g.version)[cycle].slot
  }

  ghost predicate SameHolder(g: Group, slot: nat, other: nat) {
    slot < |g.slots| && other < |g.slots| && g.slots[slot].member == g.slots[other].member
  }

  lemma OneHolderIff(g: Group, slot: nat, other: nat)
    requires GroupOk(g) && slot < |g.slots| && other < |g.slots|
    ensures HolderOf(g, slot) == HolderOf(g, other) <==> SameHolder(g, slot, other)
    ensures HolderOf(g, slot).Some?
  {
    assert g.slots[slot].member < |g.members| && g.slots[other].member < |g.members|;
  }

  /** A payout row of a sound group names a slot, and so does the turn in force for its cycle. */
  lemma BothSlotsExist(g: Group, r: nat)
    requires GroupOk(g) && r < |g.payouts|
    ensures g.payouts[r].slot < |g.slots| && g.payouts[r].cycle < |Turns(g.payouts, g.version)| == |g.slots|
    ensures SlotInForce(g, g.payouts[r].cycle) < |g.slots|
    ensures g.payouts[r].version == g.version ==> SlotInForce(g, g.payouts[r].cycle) == g.payouts[r].slot
  {
    assert PayoutRowOk(g, g.payouts[r]);
    RowIsItsTurn(g, r);
    assert IsAssignment(g, Turns(g.payouts, g.version));
  }

  /** The payee of an accepted payout, and whether it is whom the version in force would pay. */
  lemma PayeeOf(db: Db, step: Step, group: nat)
    requires BooksOk(db) && GroupMoney.GroupsOk(db) && Solvency.PaysNew(db, step, group)
    ensures var g, r, db' := db.groups[group], step.schedule, Next(db, step);
            && |db'.payouts| == |db.payouts| + 1 && db'.payouts[..|db.payouts|] == db.payouts
            && HolderOf(g, g.payouts[r].slot) == Some(db'.payouts[|db.payouts|].recipient)
            && db'.payouts[|db.payouts|].amount == g.payouts[r].due
  {
    GroupMoney.PayoutShape(db, step.admin, group, step.schedule);
  }

  /**
   * In every run, an accepted payout goes to the holder of the slot the version
   * in force gives its cycle if and only if that slot and the row's own have
   * one holder. For a row of the version in force they are the same slot.
   */
  lemma {:induction false} PaysHolderInForceIff(steps: seq<Step>, step: Step, group: nat)
    requires Solvency.PaysNew(Run(steps), step, group)
    ensures var db, db' := Run(steps), Run(steps + [step]);
            var g := db.groups[group];
            var row := g.payouts[step.schedule];
            && |db'.payouts| == |db.payouts| + 1 && row.cycle < |Turns(g.payouts, g.version)|
            && (HolderOf(g, SlotInForce(g, row.cycle)) == Some(db'.payouts[|db.payouts|].recipient) <==>
                  SameHolder(g, row.slot, SlotInForce(g, row.cycle)))
            && (row.version == g.version ==> SlotInForce(g, row.cycle) == row.slot)
  {
    KeepingPayments.BooksKept(steps);
    GroupMoney.GroupsKept(steps);
    RunStep(steps, step);
    PayeeOf(Run(steps), step, group);
    var g, r := Run(steps).groups[group], step.schedule;
    assert GroupMoney.GroupMoneyOk(Run(steps), group);
    BothSlotsExist(g, r);
    OneHolderIff(g, g.payouts[r].slot, SlotInForce(g, g.payouts[r].cycle));
  }

  /**
   * Being superseded is not enough to pay the wrong slot: in a cycle the swap
   * did not touch the old row and the new name the same one.
   */
  lemma UntouchedTurnStands(g: Group, i: nat, r: nat)
    requires GroupOk(g) && !TakesMembers(g) && i < |g.swaps| && Execute(g, i).Ok?
    requires r < |g.payouts| && g.payouts[r].version == g.version
    requires g.payouts[r].slot != g.swaps[i].from && g.payouts[r].slot != g.swaps[i].to
    ensures var g', cycle := Execute(g, i).value, g.payouts[r].cycle;
            && r < |g'.payouts| && g'.payouts[r] == g.payouts[r] && g'.payouts[r].version < g'.version
            && cycle < |Turns(g'.payouts, g'.version)| && SlotInForce(g', cycle) == g'.payouts[r].slot
  {
    RowIsItsTurn(g, r);
    ExecuteTurns(g, i);
  }
}
