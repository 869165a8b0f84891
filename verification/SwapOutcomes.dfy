/** What requesting, approving and rejecting a swap of turns do, for every request and every group a run can reach. */
module SwapOutcomes {
  import opened Prelude
  import opened Groups
  import opened Rotation
  import AjoOutcomes

  // ----- Requests ---------------------------------------------------------

  predicate MemberAt(g: Group, m: nat, user: nat) { m < |g.members| && g.members[m].user == user }

  /** No pending request is about either slot. */
  predicate NobodyAsked(g: Group, from: nat, to: nat) {
    forall i :: 0 <= i < |g.swaps| && g.swaps[i].status == SwapPending ==>
      g.swaps[i].from != from && g.swaps[i].from != to && g.swaps[i].to != from && g.swaps[i].to != to
  }

  /** Neither slot's turn, as it stands, has been paid or is being paid. */
  predicate TurnsOpen(g: Group, from: nat, to: nat) {
    forall i :: 0 <= i < |g.payouts| && g.payouts[i].version == g.version && g.payouts[i].slot in {from, to} ==>
      g.payouts[i].status == PayoutPending || g.payouts[i].status == Ready || g.payouts[i].status == Held
  }

  predicate NobodyBehind(g: Group, from: nat, to: nat) {
    forall i :: 0 <= i < |g.contribs| && (g.contribs[i].slot == from || g.contribs[i].slot == to) ==>
      g.contribs[i].status != Overdue
  }

  predicate MayRequest(g: Group, m: nat, user: nat, from: nat, to: nat) {
    && MemberAt(g, m, user) && (g.status == Locked || g.status == Active)
    && from < |g.slots| && to < |g.slots| && from != to
    && (g.members[m].admin || g.slots[from].member == m)
    && NobodyAsked(g, from, to) && TurnsOpen(g, from, to) && NobodyBehind(g, from, to)
  }

  lemma GuardsSpelledOut(g: Group, from: nat, to: nat)
    ensures NobodyAsked(g, from, to) <==> !HasConflict(g, from, to)
    ensures TurnsOpen(g, from, to) <==> !HasStartedPayout(g, from, to)
    ensures NobodyBehind(g, from, to) <==> !HasOverdue(g, from, to)
  {
  }

  /**
   * A request is accepted exactly from the slot's own holder or the
   * administrator of a locked group, between two slots that no pending request
   * is about, whose turns are still to be paid and whose holders are not
   * overdue; and then it is pending for 72 hours, with nobody's approval yet.
   */
  lemma RequestOutcome(g: Group, user: nat, from: nat, to: nat, now: int)
    requires GroupOk(g)
    ensures RequestSwap(g, user, from, to, now).Ok? <==> exists m: nat :: MayRequest(g, m, user, from, to)
    ensures forall m: nat :: MayRequest(g, m, user, from, to) ==>
              RequestSwap(g, user, from, to, now) == Ok(g.(swaps := g.swaps
                + [Swap(m, from, to, SwapPending, g.version, None, now + 259_200_000, map[])]))
  {
    GuardsSpelledOut(g, from, to);
    if RequestSwap(g, user, from, to, now).Ok? {
      assert MayRequest(g, MemberOf(g, user).value, user, from, to);
    }
    forall m: nat | MayRequest(g, m, user, from, to)
      ensures RequestSwap(g, user, from, to, now) == Ok(g.(swaps := g.swaps
                + [Swap(m, from, to, SwapPending, g.version, None, now + 259_200_000, map[])]))
    {
      AjoOutcomes.OneMember(g, m);
    }
  }

  // ----- Decisions --------------------------------------------------------

  predicate StillOpen(g: Group, i: nat, now: int) {
    i < |g.swaps| && g.swaps[i].status == SwapPending && g.swaps[i].expiresAt > now
  }

  /** Member m holds one of the two slots. */
  predicate OwnsOne(g: Group, m: nat, i: nat)
    requires i < |g.swaps|
  {
    var s := g.swaps[i];
    s.from < |g.slots| && s.to < |g.slots| && (g.slots[s.from].member == m || g.slots[s.to].member == m)
  }

  /** Besides m, every holder of one of the two slots has approved. */
  predicate OthersApproved(g: Group, m: nat, i: nat)
    requires i < |g.swaps| && g.swaps[i].from < |g.slots| && g.swaps[i].to < |g.slots|
  {
    var s := g.swaps[i];
    var a, b := g.slots[s.from].member, g.slots[s.to].member;
    (a == m || (a in s.approvals && s.approvals[a])) && (b == m || (b in s.approvals && s.approvals[b]))
  }

  predicate MayApprove(g: Group, m: nat, user: nat, i: nat, now: int) {
    && StillOpen(g, i, now) && MemberAt(g, m, user) && OwnsOne(g, m, i)
    && (OthersApproved(g, m, i) ==> g.swaps[i].previousVersion == g.version && g.status != Suspended)
  }

  /** The next version is the one in force with the two slots exchanged, all of it to be paid; the old rows stay. */
  ghost predicate TurnsExchanged(g: Group, g': Group, from: nat, to: nat) {
    var turns, n := Turns(g.payouts, g.version), |g.payouts|;
    && g'.version == g.version + 1 && |turns| == |g.slots| && |g'.payouts| == n + |turns| && g.payouts <= g'.payouts
    && forall c :: 0 <= c < |turns| ==>
         g'.payouts[n + c] == PayoutSchedule(
           turns[c].cycle, if turns[c].slot == from then to else if turns[c].slot == to then from else turns[c].slot,
           turns[c].due, 0, turns[c].dueAt, PayoutPending, g.version + 1)
  }

  /** m's approval is recorded, and is what makes the swap happen when it was the last one missing. */
  ghost predicate ApprovedBy(g: Group, g': Group, m: nat, i: nat)
    requires i < |g.swaps| && g.swaps[i].from < |g.slots| && g.swaps[i].to < |g.slots|
  {
    var s := g.swaps[i].(approvals := g.swaps[i].approvals[m := true]);
    if OthersApproved(g, m, i) then
      && TurnsExchanged(g, g', s.from, s.to)
      && g' == g.(version := g.version + 1, payouts := g'.payouts, versions := g'.versions,
                  swaps := g.swaps[i := s.(status := Executed, resulting := Some(g.version + 1))])
    else g' == g.(swaps := g.swaps[i := s])
  }

  lemma RowsExchanged(g: Group, g': Group, from: nat, to: nat)
    requires |Turns(g.payouts, g.version)| == |g.slots| && g'.version == g.version + 1
    requires g'.payouts == g.payouts + FreshRows(Transposed(Turns(g.payouts, g.version), from, to), g.version + 1)
    ensures TurnsExchanged(g, g', from, to)
  {
    var moved := Transposed(Turns(g.payouts, g.version), from, to);
    forall c | 0 <= c < |moved| ensures g'.payouts[|g.payouts| + c] == FreshRow(moved[c], g.version + 1) {
    }
  }

  lemma ExecuteShape(g: Group, i: nat)
    requires i < |g.swaps| && Turns(g.payouts, g.version) != []
    ensures Execute(g, i).Ok? <==>
              g.swaps[i].status == SwapPending && g.status != Suspended && g.version == g.swaps[i].previousVersion
    ensures Execute(g, i).Ok? ==>
              var s, g' := g.swaps[i], Execute(g, i).value;
              && g'.payouts == g.payouts + FreshRows(Transposed(Turns(g.payouts, g.version), s.from, s.to), g.version + 1)
              && g' == g.(version := g.version + 1, payouts := g'.payouts, versions := g'.versions,
                          swaps := g.swaps[i := s.(status := Executed, resulting := Some(g.version + 1))])
  {
  }

  lemma ExecutionExchanges(g: Group, i: nat)
    requires GroupOk(g) && i < |g.swaps|
    ensures Execute(g, i).Ok? <==>
              g.swaps[i].status == SwapPending && g.status != Suspended && g.version == g.swaps[i].previousVersion
    ensures Execute(g, i).Ok? ==>
              var s, g' := g.swaps[i], Execute(g, i).value;
              && TurnsExchanged(g, g', s.from, s.to)
              && g' == g.(version := g.version + 1, payouts := g'.payouts, versions := g'.versions,
                          swaps := g.swaps[i := s.(status := Executed, resulting := Some(g.version + 1))])
  {
    assert !TakesMembers(g) && IsAssignment(g, Turns(g.payouts, g.version));
    ExecuteShape(g, i);
    if Execute(g, i).Ok? {
      RowsExchanged(g, Execute(g, i).value, g.swaps[i].from, g.swaps[i].to);
    }
  }

  lemma ApprovalRecorded(g: Group, user: nat, m: nat, i: nat, now: int)
    requires GroupOk(g) && StillOpen(g, i, now) && MemberAt(g, m, user) && OwnsOne(g, m, i)
    ensures var s := g.swaps[i].(approvals := g.swaps[i].approvals[m := true]);
            var g1 := g.(swaps := g.swaps[i := s]);
            GroupOk(g1) && ApproveSwap(g, user, i, now) == if OthersApproved(g, m, i) then Execute(g1, i) else Ok(g1)
  {
    AjoOutcomes.OneMember(g, m);
    var s := g.swaps[i].(approvals := g.swaps[i].approvals[m := true]);
    SumUpdate(g.swaps, i, s, ExecutedOne());
    assert SwapOk(g, g.swaps[i]);
    SwapsOnly(g, g.(swaps := g.swaps[i := s]));
  }

  lemma ExchangeSeesNoSwaps(g: Group, swaps: seq<Swap>, g': Group, from: nat, to: nat)
    requires TurnsExchanged(g.(swaps := swaps), g', from, to)
    ensures TurnsExchanged(g, g', from, to)
  {
  }

  lemma LastApproval(g: Group, g1: Group, s: Swap, m: nat, i: nat)
    requires i < |g.swaps| && g.swaps[i].status == SwapPending && OwnsOne(g, m, i) && OthersApproved(g, m, i)
    requires s == g.swaps[i].(approvals := g.swaps[i].approvals[m := true])
    requires g1 == g.(swaps := g.swaps[i := s]) && GroupOk(g1)
    ensures Execute(g1, i).Ok? <==> g.swaps[i].previousVersion == g.version && g.status != Suspended
    ensures Execute(g1, i).Ok? ==> ApprovedBy(g, Execute(g1, i).value, m, i)
  {
    ExecutionExchanges(g1, i);
    if Execute(g1, i).Ok? {
      ExchangeSeesNoSwaps(g, g1.swaps, Execute(g1, i).value, s.from, s.to);
      assert g1.swaps[i := s.(status := Executed, resulting := Some(g.version + 1))]
          == g.swaps[i := s.(status := Executed, resulting := Some(g.version + 1))];
    }
  }

  /**
   * An approval is accepted exactly from a holder of one of the two slots, of a
   * pending request before it expires; the one that completes it, only while
   * the turns are still those it was asked for. The swap happens when every
   * holder has approved, and not before.
   */
  lemma ApprovalOutcome(g: Group, user: nat, i: nat, now: int)
    requires GroupOk(g)
    ensures ApproveSwap(g, user, i, now).Ok? <==> exists m: nat :: MayApprove(g, m, user, i, now)
    ensures forall m: nat :: MayApprove(g, m, user, i, now) ==>
              ApproveSwap(g, user, i, now).Ok? && ApprovedBy(g, ApproveSwap(g, user, i, now).value, m, i)
  {
    forall m: nat | StillOpen(g, i, now) && MemberAt(g, m, user) && OwnsOne(g, m, i)
      ensures ApproveSwap(g, user, i, now).Ok? <==> MayApprove(g, m, user, i, now)
      ensures ApproveSwap(g, user, i, now).Ok? ==> ApprovedBy(g, ApproveSwap(g, user, i, now).value, m, i)
    {
      OneApproval(g, user, m, i, now);
    }
    if ApproveSwap(g, user, i, now).Ok? {
      var m := MemberOf(g, user).value;
      assert OwnsOne(g, m, i) && MemberAt(g, m, user);
    }
  }

  lemma OneApproval(g: Group, user: nat, m: nat, i: nat, now: int)
    requires GroupOk(g) && StillOpen(g, i, now) && MemberAt(g, m, user) && OwnsOne(g, m, i)
    ensures ApproveSwap(g, user, i, now).Ok? <==> MayApprove(g, m, user, i, now)
    ensures ApproveSwap(g, user, i, now).Ok? ==> ApprovedBy(g, ApproveSwap(g, user, i, now).value, m, i)
  {
    ApprovalRecorded(g, user, m, i, now);
    if OthersApproved(g, m, i) {
      var s := g.swaps[i].(approvals := g.swaps[i].approvals[m := true]);
      LastApproval(g, g.(swaps := g.swaps[i := s]), s, m, i);
    }
  }

  predicate MayReject(g: Group, m: nat, user: nat, i: nat, now: int) {
    && StillOpen(g, i, now) && MemberAt(g, m, user) && (OwnsOne(g, m, i) || g.members[m].admin)
  }

  /** A rejection is accepted exactly from such a holder or the administrator, and closes the request. */
  lemma RejectionOutcome(g: Group, user: nat, i: nat, now: int)
    requires GroupOk(g)
    ensures RejectSwap(g, user, i, now).Ok? <==> exists m: nat :: MayReject(g, m, user, i, now)
    ensures forall m: nat :: MayReject(g, m, user, i, now) ==>
              RejectSwap(g, user, i, now) == Ok(g.(swaps := g.swaps[i := g.swaps[i].(
                status := Rejected, approvals := g.swaps[i].approvals[m := false])]))
  {
    if i < |g.swaps| {
      assert !TakesMembers(g) && SwapOk(g, g.swaps[i]);
    }
    if RejectSwap(g, user, i, now).Ok? {
      assert MayReject(g, MemberOf(g, user).value, user, i, now);
    }
    forall m: nat | MayReject(g, m, user, i, now)
      ensures RejectSwap(g, user, i, now) == Ok(g.(swaps := g.swaps[i := g.swaps[i].(
                status := Rejected, approvals := g.swaps[i].approvals[m := false])]))
    {
      AjoOutcomes.OneMember(g, m);
    }
  }
}
