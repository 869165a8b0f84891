/** Money into and out of an Ajo group's pool. */
module AjoMoney {
  import opened Prelude
  import opened Ledger
  import opened Tables
  import Groups

  function FindContribution(rows: seq<ContributionRow>, group: nat, schedule: nat, caller: CallerKey): (found: Option<nat>)
    ensures found.Some? ==> found.value < |rows| && rows[found.value].group == group
                            && rows[found.value].schedule == schedule && rows[found.value].caller == caller
    ensures found.None? ==> forall i :: 0 <= i < |rows| ==>
              rows[i].group != group || rows[i].schedule != schedule || rows[i].caller != caller
  {
    FindLast(rows, (c: ContributionRow) => c.group == group && c.schedule == schedule && c.caller == caller)
  }

  function FindPayout(rows: seq<PayoutRow>, group: nat, schedule: nat): (found: Option<nat>)
    ensures found.Some? ==> found.value < |rows| && rows[found.value].group == group
                            && rows[found.value].schedule == schedule
    ensures found.None? ==> forall i :: 0 <= i < |rows| ==> rows[i].group != group || rows[i].schedule != schedule
  {
    FindLast(rows, (p: PayoutRow) => p.group == group && p.schedule == schedule)
  }

  /** The active member who holds the slot a contribution belongs to. */
  predicate Owes(g: Groups.Group, user: nat, schedule: nat) {
    && schedule < |g.contribs| && g.contribs[schedule].slot < |g.slots|
    && var m := Groups.MemberOf(g, user);
       m.Some? && g.members[m.value].active && g.slots[g.contribs[schedule].slot].member == m.value
  }

  predicate Collectable(s: Groups.ContributionSchedule) {
    s.status != Groups.Cancelled && s.status != Groups.Waived
  }

  /** recordContributionWithin: the contribution row, whose key is unique, and the schedule it pays. */
  function RecordContribution(db: Db, user: nat, group: nat, schedule: nat, amount: int,
                              caller: CallerKey, txn: nat): Result<Db>
    requires group < |db.groups| && schedule < |db.groups[group].contribs|
  {
    if FindContribution(db.contributions, group, schedule, caller).Some? then Err(UniqueViolation)
    else Ok(db.(
      contributions := db.contributions + [ContributionRow(group, schedule, user, amount, caller, txn)],
      groups := db.groups[group := Groups.RecordPaid(db.groups[group], schedule, amount, db.now)]))
  }

  function PayContribution(db: Db, user: nat, group: nat, schedule: nat, amount: int, caller: CallerKey): Result<Db> {
    if group >= |db.groups| || schedule >= |db.groups[group].contribs| then Err(NotFound)
    else if !Owes(db.groups[group], user, schedule) then Err(Forbidden)
    else if FindContribution(db.contributions, group, schedule, caller).Some? then Ok(db)
    else
      var row := db.groups[group].contribs[schedule];
      if !Collectable(row) then Err(Conflict)
      else if amount <= 0 || row.due - row.paid <= 0 || amount > row.due - row.paid then Err(Unprocessable)
      else if user !in db.wallets then Err(Unprocessable)
      else if Balance(db.ledger, Available(user)) < amount then Err(Unprocessable)
      else
        var posting :- Post(db.ledger, ContributionKey(group, schedule, caller),
          ContributionEntries(ContributionRow(group, schedule, user, amount, caller, |db.ledger|)));
        RecordContribution(db.(ledger := posting.ledger), user, group, schedule, amount, caller, posting.id)
  }

  /** The member a payout row pays: whoever holds its slot. */
  function RecipientOf(g: Groups.Group, r: nat): Option<nat>
    requires r < |g.payouts|
  {
    var slot := g.payouts[r].slot;
    if slot < |g.slots| && g.slots[slot].member < |g.members|
    then Some(g.members[g.slots[slot].member].user) else None
  }

  function SettlePayout(db: Db, user: nat, group: nat, r: nat): Result<Db> {
    if group >= |db.groups| || r >= |db.groups[group].payouts| then Err(NotFound)
    else
      var g := db.groups[group];
      if !Groups.IsAdmin(g, user) then Err(Forbidden)
      else if FindPayout(db.payouts, group, r).Some? then Ok(db)
      else if !Groups.CanExecute(g.payouts[r].status) then Err(Conflict)
      else if !Groups.FullyCollected(g, g.payouts[r].cycle) then Err(PayoutHeld)
      else
        var recipient := RecipientOf(g, r);
        if recipient.None? then Err(NotFound)
        else if recipient.value !in db.wallets then Err(Unprocessable)
        else if Balance(db.ledger, Pool(group)) < g.payouts[r].due then Err(PayoutHeld)
        else
          var row := PayoutRow(group, r, recipient.value, g.payouts[r].due, |db.ledger|);
          var posting :- Post(db.ledger, PayoutKey(group, r), PayoutEntries(row));
          Ok(db.(ledger := posting.ledger,
                 payouts := db.payouts + [row.(txn := posting.id)],
                 groups := db.groups[group := Groups.RecordPayout(g, r)]))
  }

  /** The HELD status written after a refused payout has rolled back; it overwrites any status. */
  function WriteHold(db: Db, group: nat, r: nat): Result<Db> {
    if group >= |db.groups| || r >= |db.groups[group].payouts| then Err(NotFound)
    else Ok(db.(groups := db.groups[group := Groups.HoldPayout(db.groups[group], r)]))
  }
}
