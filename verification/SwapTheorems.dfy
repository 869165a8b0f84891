/** Which swaps are ever pending together, and which are ever executed, in every run. */
module SwapTheorems {
  import opened Tables
  import opened Groups
  import opened Machine
  import AjoMoney
  import GroupMoney

  /** A swap takes effect only with the approval of both owners, who may be one member. */
  ghost predicate OwnersApproved(g: Group, s: Swap) {
    && s.from < |g.slots| && s.to < |g.slots|
    && Approved(s, g.slots[s.from].member) && Approved(s, g.slots[s.to].member)
  }

  ghost predicate PendingApart(swaps: seq<Swap>) {
    forall i, j :: 0 <= i < j < |swaps| && swaps[i].status == SwapPending && swaps[j].status == SwapPending ==>
      !Touches(swaps[i], swaps[j].from, swaps[j].to)
  }

  ghost predicate SwapsFair(g: Group) {
    && PendingApart(g.swaps)
    && (forall i :: 0 <= i < |g.swaps| && g.swaps[i].status == Executed ==> OwnersApproved(g, g.swaps[i]))
    && (TakesMembers(g) ==> g.swaps == [])
  }

  lemma RequestFair(g: Group, user: nat, from: nat, to: nat, now: int)
    requires SwapsFair(g) && RequestSwap(g, user, from, to, now).Ok?
    ensures SwapsFair(RequestSwap(g, user, from, to, now).value)
  {
    var g' := RequestSwap(g, user, from, to, now).value;
    assert !HasConflict(g, from, to);
    forall i | 0 <= i < |g'.swaps| && g'.swaps[i].status == Executed ensures OwnersApproved(g', g'.swaps[i]) {
      assert OwnersApproved(g, g.swaps[i]);
    }
  }

  lemma ApproveFair(g: Group, user: nat, i: nat, now: int)
    requires SwapsFair(g) && ApproveSwap(g, user, i, now).Ok?
    ensures SwapsFair(ApproveSwap(g, user, i, now).value)
  {
    var g' := ApproveSwap(g, user, i, now).value;
    forall k | 0 <= k < |g'.swaps| && g'.swaps[k].status == Executed ensures OwnersApproved(g', g'.swaps[k]) {
      if k != i {
        assert OwnersApproved(g, g.swaps[k]);
      }
    }
  }

  lemma RejectFair(g: Group, user: nat, i: nat, now: int)
    requires SwapsFair(g) && RejectSwap(g, user, i, now).Ok?
    ensures SwapsFair(RejectSwap(g, user, i, now).value)
  {
    var g' := RejectSwap(g, user, i, now).value;
    forall k | 0 <= k < |g'.swaps| && g'.swaps[k].status == Executed ensures OwnersApproved(g', g'.swaps[k]) {
      assert OwnersApproved(g, g.swaps[k]);
    }
  }

  lemma GovernFair(g: Group, change: GroupStep, now: int)
    requires SwapsFair(g) && Govern(g, change, now).Ok?
    ensures SwapsFair(Govern(g, change, now).value)
  {
    match change
    case RequestStep(user, from, to) => RequestFair(g, user, from, to, now);
    case ApproveStep(user, i) => ApproveFair(g, user, i, now);
    case RejectStep(user, i) => RejectFair(g, user, i, now);
    case _ =>
  }

  // ----- Every run --------------------------------------------------------

  ghost predicate AllFair(groups: seq<Group>) {
    forall k :: 0 <= k < |groups| ==> SwapsFair(groups[k])
  }

  /** Money recorded on a group's schedules changes neither its swaps nor its slots. */
  ghost predicate SwapsAlike(groups: seq<Group>, groups': seq<Group>) {
    && |groups'| == |groups|
    && forall k :: 0 <= k < |groups| ==>
         groups'[k].swaps == groups[k].swaps && groups'[k].slots == groups[k].slots && groups'[k].status == groups[k].status
  }

  lemma AlikeFair(groups: seq<Group>, groups': seq<Group>)
    requires AllFair(groups) && SwapsAlike(groups, groups')
    ensures AllFair(groups')
  {
    forall k | 0 <= k < |groups'| ensures SwapsFair(groups'[k]) {
      assert SwapsFair(groups[k]);
      forall i | 0 <= i < |groups'[k].swaps| && groups'[k].swaps[i].status == Executed
        ensures OwnersApproved(groups'[k], groups'[k].swaps[i])
      {
        assert OwnersApproved(groups[k], groups[k].swaps[i]);
      }
    }
  }

  lemma PayOutAlike(db: Db, user: nat, group: nat, r: nat)
    requires AjoMoney.SettlePayout(db, user, group, r).Ok?
    ensures SwapsAlike(db.groups, AjoMoney.SettlePayout(db, user, group, r).value.groups)
  {
  }

  lemma MoneyStepsAlike(db: Db, step: Step)
    requires Attempt(db, step).Ok? && (step.Contribute? || step.Hold? || step.PayOut? || step.PayFromWallet?)
    ensures SwapsAlike(db.groups, Attempt(db, step).value.groups)
  {
    if step.PayOut? {
      PayOutAlike(db, step.admin, step.group, step.schedule);
    } else if step.PayFromWallet? {
      GroupMoney.PaymentTouchesOneContribution(db, step.payer, step.intent, step.caller, step.quote);
    }
  }

  lemma AttemptFair(db: Db, step: Step)
    requires AllFair(db.groups) && Attempt(db, step).Ok?
    ensures AllFair(Attempt(db, step).value.groups)
  {
    if !GroupMoney.TouchesGroups(step) {
      GroupMoney.OtherStepsSameGroups(db, step);
    } else if step.Governed? {
      GovernFair(db.groups[step.group], step.change, db.now);
    } else if !step.FoundGroup? {
      MoneyStepsAlike(db, step);
      AlikeFair(db.groups, Attempt(db, step).value.groups);
    }
  }

  lemma {:induction false} FairInEveryRun(steps: seq<Step>)
    ensures AllFair(Run(steps).groups)
    decreases |steps|
  {
    if steps != [] {
      var last := |steps| - 1;
      var before := Run(steps[..last]);
      FairInEveryRun(steps[..last]);
      if Attempt(before, steps[last]).Ok? {
        AttemptFair(before, steps[last]);
      }
    }
  }

  /** In every run a swap is executed only if the holders of both its slots approved it. */
  lemma {:induction false} ExecutedWasApproved(steps: seq<Step>, group: nat, i: nat)
    requires group < |Run(steps).groups| && i < |Run(steps).groups[group].swaps|
    requires Run(steps).groups[group].swaps[i].status == Executed
    ensures OwnersApproved(Run(steps).groups[group], Run(steps).groups[group].swaps[i])
  {
    FairInEveryRun(steps);
    assert SwapsFair(Run(steps).groups[group]);
  }

  /** In every run no slot is in two pending requests. */
  lemma {:induction false} PendingRequestsAreApart(steps: seq<Step>, group: nat)
    requires group < |Run(steps).groups|
    ensures PendingApart(Run(steps).groups[group].swaps)
  {
    FairInEveryRun(steps);
    assert SwapsFair(Run(steps).groups[group]);
  }
}
