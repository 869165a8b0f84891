/** What a contribution and a payout do, for every request and every group a run can reach. */
module AjoOutcomes {
  import opened Prelude
  import opened Ledger
  import opened Tables
  import opened Books
  import opened Groups
  import opened Outcomes
  import opened Rotation
  import opened GroupMoney
  import AjoMoney
  import GroupParties
  import KeepingPayments
  import Payments

  predicate ContributionUnused(db: Db, group: nat, schedule: nat, caller: CallerKey) {
    forall k :: 0 <= k < |db.contributions| ==>
      db.contributions[k].group != group || db.contributions[k].schedule != schedule || db.contributions[k].caller != caller
  }

  predicate SchedulePlaced(db: Db, group: nat, schedule: nat) {
    group < |db.groups| && schedule < |db.groups[group].contribs|
  }

  /** user holds the schedule's slot, and the amount is part of what the schedule still asks for. */
  ghost predicate MayContribute(db: Db, user: nat, group: nat, schedule: nat, amount: int)
    requires SchedulePlaced(db, group, schedule)
  {
    var g, row := db.groups[group], db.groups[group].contribs[schedule];
    && GroupParties.HolderOf(g, row.slot) == Some(user) && 0 < amount <= row.due - row.paid
  }

  /** The schedule has the amount more, and is PAID once it has all it is due; every other is as before. */
  ghost predicate ScheduleCredited(groups: seq<Group>, groups': seq<Group>, group: nat, schedule: nat, amount: int)
    requires group < |groups| && schedule < |groups[group].contribs|
  {
    var g, row := groups[group], groups[group].contribs[schedule];
    groups' == groups[group := g.(contribs := g.contribs[schedule := row.(
      paid := row.paid + amount, status := if row.paid + amount == row.due then Paid else PartiallyPaid)])]
  }

  // ----- Contributions ----------------------------------------------------

  /** In a sound group the holder of a slot is its one member with that user, and is active. */
  lemma OwesIffHolds(g: Group, user: nat, schedule: nat)
    requires GroupOk(g) && schedule < |g.contribs|
    ensures AjoMoney.Owes(g, user, schedule) <==> GroupParties.HolderOf(g, g.contribs[schedule].slot) == Some(user)
  {
    assert !TakesMembers(g);
    assert ContributionRowOk(g, g.contribs[schedule]);
    var m := g.slots[g.contribs[schedule].slot].member;
    if GroupParties.HolderOf(g, g.contribs[schedule].slot) == Some(user) {
      OneMember(g, m);
    }
  }

  lemma OneMember(g: Group, m: nat)
    requires MembersOk(g) && m < |g.members|
    ensures MemberOf(g, g.members[m].user) == Some(m)
  {
    var found := MemberOf(g, g.members[m].user);
    assert found.Some?;
    assert g.members[found.value].user == g.members[m].user;
  }

  lemma StillCollectable(db: Db, group: nat, schedule: nat)
    requires GroupsOk(db) && SchedulePlaced(db, group, schedule)
    ensures GroupOk(db.groups[group]) && AjoMoney.Collectable(db.groups[group].contribs[schedule])
    ensures var row := db.groups[group].contribs[schedule]; row.paid >= 0 && (row.status == Paid <==> row.paid == row.due)
  {
    assert GroupMoneyOk(db, group);
    assert !TakesMembers(db.groups[group]);
    assert ContributionRowOk(db.groups[group], db.groups[group].contribs[schedule]);
  }

  lemma CreditedSchedule(db: Db, group: nat, schedule: nat, amount: int)
    requires SchedulePlaced(db, group, schedule) && db.groups[group].contribs[schedule].paid >= 0
    requires 0 < amount <= db.groups[group].contribs[schedule].due - db.groups[group].contribs[schedule].paid
    ensures ScheduleCredited(db.groups, db.groups[group := RecordPaid(db.groups[group], schedule, amount, db.now)],
                             group, schedule, amount)
  {
  }

  lemma ContributionShape(db: Db, user: nat, group: nat, schedule: nat, amount: int, caller: CallerKey)
    requires SchedulePlaced(db, group, schedule) && ContributionUnused(db, group, schedule, caller)
    requires !HasKey(db.ledger, ContributionKey(group, schedule, caller))
    requires AjoMoney.Collectable(db.groups[group].contribs[schedule])
    ensures var row := db.groups[group].contribs[schedule];
            AjoMoney.PayContribution(db, user, group, schedule, amount, caller).Ok? <==>
              && AjoMoney.Owes(db.groups[group], user, schedule) && 0 < amount <= row.due - row.paid && user in db.wallets
              && Balance(db.ledger, Available(user)) >= amount
    ensures AjoMoney.PayContribution(db, user, group, schedule, amount, caller).Ok? ==>
              AjoMoney.PayContribution(db, user, group, schedule, amount, caller).value == db.(
                ledger := db.ledger + [NewTxn(ContributionKey(group, schedule, caller),
                                              [Dr(Available(user), amount), Cr(Pool(group), amount)])],
                contributions := db.contributions + [ContributionRow(group, schedule, user, amount, caller, |db.ledger|)],
                groups := db.groups[group := RecordPaid(db.groups[group], schedule, amount, db.now)])
  {
    PairBalanced(Available(user), Pool(group), amount);
  }

  /**
   * Under a key not used for the schedule, a contribution is accepted exactly
   * from the holder of its slot, for a positive amount no larger than what is
   * outstanding, with the money in the wallet; and then it moves exactly that
   * amount into the pool, credits exactly that schedule with it and records it.
   */
  lemma ContributionPaysTheAmount(db: Db, user: nat, group: nat, schedule: nat, amount: int, caller: CallerKey)
    requires BooksOk(db) && GroupsOk(db) && SchedulePlaced(db, group, schedule)
    requires ContributionUnused(db, group, schedule, caller)
    ensures AjoMoney.PayContribution(db, user, group, schedule, amount, caller).Ok? <==>
              && MayContribute(db, user, group, schedule, amount) && user in db.wallets
              && Balance(db.ledger, Available(user)) >= amount
    ensures AjoMoney.PayContribution(db, user, group, schedule, amount, caller).Ok? ==>
              var db' := AjoMoney.PayContribution(db, user, group, schedule, amount, caller).value;
              && Moves(db.ledger, db'.ledger, ContributionKey(group, schedule, caller), Available(user), Pool(group),
                       amount)
              && ScheduleCredited(db.groups, db'.groups, group, schedule, amount)
              && db'.contributions
                   == db.contributions + [ContributionRow(group, schedule, user, amount, caller, |db.ledger|)]
              && db' == db.(ledger := db'.ledger, groups := db'.groups, contributions := db'.contributions)
  {
    StillCollectable(db, group, schedule);
    OwesIffHolds(db.groups[group], user, schedule);
    FreshKey(db, ContributionKey(group, schedule, caller));
    ContributionShape(db, user, group, schedule, amount, caller);
    var r := AjoMoney.PayContribution(db, user, group, schedule, amount, caller);
    if r.Ok? {
      CreditedSchedule(db, group, schedule, amount);
      PairMoves(db.ledger, r.value.ledger, ContributionKey(group, schedule, caller), Available(user), Pool(group), amount);
    }
  }

  /** An intent of the user's for a contribution, not yet paid. */
  predicate UnpaidContribution(db: Db, user: nat, i: nat) {
    && i < |db.intents| && db.intents[i].user == user && db.intents[i].target.Contribution?
    && db.intents[i].status == RequiresConfirmation
    && SchedulePlaced(db, db.intents[i].target.group, db.intents[i].target.schedule)
    && ContributionUnused(db, db.intents[i].target.group, db.intents[i].target.schedule, OfIntent(i))
  }

  lemma ContributionIntentGuards(db: Db, user: nat, i: nat, caller: nat, quote: Payments.Quote)
    requires RowsSane(db) && UnpaidContribution(db, user, i) && !HasKey(db.ledger, IntentKey(i, caller))
    requires AjoMoney.Collectable(db.groups[db.intents[i].target.group].contribs[db.intents[i].target.schedule])
    requires var row := db.groups[db.intents[i].target.group].contribs[db.intents[i].target.schedule];
             row.status == Paid <==> row.paid == row.due
    ensures var row := db.intents[i];
            var g := db.groups[row.target.group];
            Payments.SettleFromWallet(db, user, i, caller, quote).Ok? <==>
              && AjoMoney.Owes(g, user, row.target.schedule) && row.hasWallet
              && 0 < row.amount <= g.contribs[row.target.schedule].due - g.contribs[row.target.schedule].paid
              && Balance(db.ledger, Available(user)) >= row.amount
  {
    var row := db.intents[i];
    assert IntentSane(db, i);
    KeepingPayments.ChargeIsPair(db, i, Pool(row.target.group));
    PairBalanced(Available(user), Pool(row.target.group), row.amount);
  }

  lemma ContributionIntentAccepted(db: Db, user: nat, i: nat, caller: nat, quote: Payments.Quote)
    requires BooksOk(db) && GroupsOk(db) && UnpaidContribution(db, user, i)
    ensures var row := db.intents[i];
            Payments.SettleFromWallet(db, user, i, caller, quote).Ok? <==>
              && MayContribute(db, user, row.target.group, row.target.schedule, row.amount) && row.hasWallet
              && Balance(db.ledger, Available(user)) >= row.amount
  {
    var group, schedule := db.intents[i].target.group, db.intents[i].target.schedule;
    assert IntentSane(db, i);
    StillCollectable(db, group, schedule);
    OwesIffHolds(db.groups[group], user, schedule);
    FreshKey(db, IntentKey(i, caller));
    ContributionIntentGuards(db, user, i, caller, quote);
  }

  /**
   * Paid through an intent a contribution does the same with the intent's
   * amount, under the intent's key, and the intent has SUCCEEDED.
   */
  lemma ContributionIntentPaysItsAmount(db: Db, user: nat, i: nat, caller: nat, quote: Payments.Quote)
    requires BooksOk(db) && GroupsOk(db) && UnpaidContribution(db, user, i)
    requires Payments.SettleFromWallet(db, user, i, caller, quote).Ok?
    ensures var row, db' := db.intents[i], Payments.SettleFromWallet(db, user, i, caller, quote).value;
            var group, schedule := row.target.group, row.target.schedule;
            && Moves(db.ledger, db'.ledger, IntentKey(i, caller), Available(user), Pool(group), row.amount)
            && ScheduleCredited(db.groups, db'.groups, group, schedule, row.amount)
            && db'.contributions
                 == db.contributions + [ContributionRow(group, schedule, user, row.amount, OfIntent(i), |db.ledger|)]
            && db'.intents == db.intents[i := row.(status := Succeeded, txn := Some(|db.ledger|))]
            && db' == db.(ledger := db'.ledger, groups := db'.groups, contributions := db'.contributions,
                          intents := db'.intents)
  {
    var row := db.intents[i];
    assert IntentSane(db, i);
    ContributionIntentAccepted(db, user, i, caller, quote);
    StillCollectable(db, row.target.group, row.target.schedule);
    FreshKey(db, IntentKey(i, caller));
    KeepingPayments.ChargeContributionShape(db, i, caller, quote);
    CreditedSchedule(db, row.target.group, row.target.schedule, row.amount);
    PairMoves(db.ledger, Payments.SettleFromWallet(db, user, i, caller, quote).value.ledger, IntentKey(i, caller),
              Available(user), Pool(row.target.group), row.amount);
  }

  // ----- Payouts ----------------------------------------------------------

  ghost predicate Administers(g: Group, user: nat) {
    exists m: nat :: m < |g.members| && g.members[m].user == user && g.members[m].admin && g.members[m].active
  }

  /** Every contribution of the cycle is in, to the last. */
  ghost predicate CycleCollected(g: Group, cycle: nat) {
    forall c :: 0 <= c < |g.contribs| && g.contribs[c].cycle == cycle ==> g.contribs[c].paid == g.contribs[c].due
  }

  lemma AdministersIff(g: Group, user: nat)
    requires MembersOk(g)
    ensures IsAdmin(g, user) <==> Administers(g, user)
  {
    if Administers(g, user) {
      var m: nat :| m < |g.members| && g.members[m].user == user && g.members[m].admin && g.members[m].active;
      OneMember(g, m);
    }
  }

  lemma CollectedIff(g: Group, cycle: nat)
    requires RowsOk(g)
    ensures FullyCollected(g, cycle) <==> CycleCollected(g, cycle)
  {
    forall c | 0 <= c < |g.contribs| && g.contribs[c].cycle == cycle
      ensures !Outstanding(g.contribs[c].status) <==> g.contribs[c].paid == g.contribs[c].due
    {
      assert ContributionRowOk(g, g.contribs[c]);
    }
  }

  predicate PayoutUnpaid(db: Db, group: nat, r: nat) {
    && group < |db.groups| && r < |db.groups[group].payouts|
    && forall k :: 0 <= k < |db.payouts| ==> db.payouts[k].group != group || db.payouts[k].schedule != r
  }

  lemma PayoutGuards(db: Db, user: nat, group: nat, r: nat)
    requires GroupsOk(db) && PayoutUnpaid(db, group, r)
    ensures var g := db.groups[group];
            && GroupOk(g) && (IsAdmin(g, user) <==> Administers(g, user)) && CanExecute(g.payouts[r].status)
            && (FullyCollected(g, g.payouts[r].cycle) <==> CycleCollected(g, g.payouts[r].cycle))
            && g.payouts[r].due == g.base * |g.slots| > 0 && GroupParties.HolderOf(g, g.payouts[r].slot).Some?
            && AjoMoney.RecipientOf(g, r) == GroupParties.HolderOf(g, g.payouts[r].slot)
  {
    var g := db.groups[group];
    assert GroupMoneyOk(db, group) && PayoutRecorded(db, group, r);
    assert PayoutRowOk(g, g.payouts[r]);
    AdministersIff(g, user);
    CollectedIff(g, g.payouts[r].cycle);
  }

  lemma PayoutShape(db: Db, user: nat, group: nat, r: nat, payee: nat)
    requires PayoutUnpaid(db, group, r) && !HasKey(db.ledger, PayoutKey(group, r))
    requires CanExecute(db.groups[group].payouts[r].status) && db.groups[group].payouts[r].due > 0
    requires AjoMoney.RecipientOf(db.groups[group], r) == Some(payee)
    ensures var g, outcome := db.groups[group], AjoMoney.SettlePayout(db, user, group, r);
            var ready := FullyCollected(g, g.payouts[r].cycle);
            var covered := Balance(db.ledger, Pool(group)) >= g.payouts[r].due;
            && (outcome.Ok? <==> IsAdmin(g, user) && ready && payee in db.wallets && covered)
            && (outcome == Err(PayoutHeld) <==> IsAdmin(g, user) && (!ready || (payee in db.wallets && !covered)))
            && (outcome.Ok? ==> outcome.value == db.(
                  ledger := db.ledger + [NewTxn(PayoutKey(group, r),
                                                PayoutEntries(Tables.PayoutRow(group, r, payee, g.payouts[r].due, 0)))],
                  payouts := db.payouts + [Tables.PayoutRow(group, r, payee, g.payouts[r].due, |db.ledger|)],
                  groups := db.groups[group := RecordPayout(g, r)]))
  {
    PairBalanced(Pool(group), Available(payee), db.groups[group].payouts[r].due);
  }

  /**
   * A payout not made before is accepted exactly when the group's administrator
   * asks, every contribution of its cycle is in, its payee has a wallet and the
   * pool holds the pot. It is held back, and only then, when the administrator
   * asks and the cycle or the pool falls short.
   */
  lemma PayoutAcceptedIff(db: Db, user: nat, group: nat, r: nat)
    requires BooksOk(db) && GroupsOk(db) && PayoutUnpaid(db, group, r)
    ensures var g := db.groups[group];
            var payee, ready := GroupParties.HolderOf(g, g.payouts[r].slot), CycleCollected(g, g.payouts[r].cycle);
            && payee.Some?
            && (AjoMoney.SettlePayout(db, user, group, r).Ok? <==>
                  && Administers(g, user) && ready && payee.value in db.wallets
                  && Balance(db.ledger, Pool(group)) >= g.base * |g.slots|)
            && (AjoMoney.SettlePayout(db, user, group, r) == Err(PayoutHeld) <==>
                  && Administers(g, user)
                  && (!ready || (payee.value in db.wallets && Balance(db.ledger, Pool(group)) < g.base * |g.slots|)))
  {
    PayoutGuards(db, user, group, r);
    FreshKey(db, PayoutKey(group, r));
    PayoutShape(db, user, group, r, GroupParties.HolderOf(db.groups[group], db.groups[group].payouts[r].slot).value);
  }

  /** The pot has gone from the pool to the payee, the payout is recorded, and its row is paid. */
  ghost predicate PotPaid(db: Db, db': Db, group: nat, r: nat, payee: nat)
    requires group < |db.groups| && r < |db.groups[group].payouts|
  {
    var g := db.groups[group];
    var pot := g.base * |g.slots|;
    && Moves(db.ledger, db'.ledger, PayoutKey(group, r), Pool(group), Available(payee), pot)
    && db'.payouts == db.payouts + [Tables.PayoutRow(group, r, payee, pot, |db.ledger|)]
    && db'.groups == db.groups[group := g.(payouts := g.payouts[r := g.payouts[r].(status := PaidOut, paid := pot)])]
    && db' == db.(ledger := db'.ledger, groups := db'.groups, payouts := db'.payouts)
  }

  lemma ShapePaysThePot(db: Db, db': Db, group: nat, r: nat, payee: nat)
    requires group < |db.groups| && r < |db.groups[group].payouts|
    requires db.groups[group].payouts[r].due == db.groups[group].base * |db.groups[group].slots|
    requires var g := db.groups[group];
             db' == db.(
               ledger := db.ledger + [NewTxn(PayoutKey(group, r),
                                             PayoutEntries(Tables.PayoutRow(group, r, payee, g.payouts[r].due, 0)))],
               payouts := db.payouts + [Tables.PayoutRow(group, r, payee, g.payouts[r].due, |db.ledger|)],
               groups := db.groups[group := RecordPayout(g, r)])
    ensures PotPaid(db, db', group, r, payee)
  {
    PairMoves(db.ledger, db'.ledger, PayoutKey(group, r), Pool(group), Available(payee), db.groups[group].payouts[r].due);
  }

  /** An accepted payout moves the whole pot to the holder of its slot and marks its row paid. */
  lemma PayoutPaysThePot(db: Db, user: nat, group: nat, r: nat)
    requires BooksOk(db) && GroupsOk(db) && PayoutUnpaid(db, group, r)
    ensures var payee := GroupParties.HolderOf(db.groups[group], db.groups[group].payouts[r].slot);
            && payee.Some?
            && (AjoMoney.SettlePayout(db, user, group, r).Ok? ==>
                  PotPaid(db, AjoMoney.SettlePayout(db, user, group, r).value, group, r, payee.value))
  {
    PayoutGuards(db, user, group, r);
    var payee := GroupParties.HolderOf(db.groups[group], db.groups[group].payouts[r].slot).value;
    FreshKey(db, PayoutKey(group, r));
    PayoutShape(db, user, group, r, payee);
    if AjoMoney.SettlePayout(db, user, group, r).Ok? {
      ShapePaysThePot(db, AjoMoney.SettlePayout(db, user, group, r).value, group, r, payee);
    }
  }

  /** Held back, HELD is all that is written. */
  lemma HoldIsAllItWrites(db: Db, group: nat, r: nat)
    requires group < |db.groups| && r < |db.groups[group].payouts|
    ensures AjoMoney.WriteHold(db, group, r) == Ok(db.(groups := db.groups[group := db.groups[group].(
              payouts := db.groups[group].payouts[r := db.groups[group].payouts[r].(status := Held)])]))
  {
  }
}
