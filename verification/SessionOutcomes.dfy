/** Which sessions a log-out and a password reset end, and how long a token lives. */
module SessionOutcomes {
  import opened Prelude
  import opened Sessions

  // ----- Ending sessions --------------------------------------------------

  /** These sessions are REVOKED, and their tokens too if revoking; nothing else changes. */
  ghost predicate EndsExactly(a: Auth, a': Auth, ended: set<nat>, revoking: bool) {
    && a' == a.(sessions := a'.sessions, tokens := a'.tokens)
    && |a'.sessions| == |a.sessions| && |a'.tokens| == |a.tokens|
    && (forall s :: 0 <= s < |a.sessions| ==>
          a'.sessions[s] == if s in ended then a.sessions[s].(status := Revoked) else a.sessions[s])
    && (forall n :: 0 <= n < |a.tokens| ==>
          a'.tokens[n] == if revoking && a.tokens[n].session in ended then a.tokens[n].(revoked := true) else a.tokens[n])
  }

  /** The user's ACTIVE sessions. */
  function ActiveOf(a: Auth, user: nat): set<nat> {
    set s: nat | s < |a.sessions| && a.sessions[s].user == user && a.sessions[s].status == SessionActive
  }

  /**
   * Logging out of a session that is ACTIVE ends that session and revokes its
   * tokens, and does nothing to any other; of one that is not, it does nothing.
   */
  lemma LogOutEndsItsSession(a: Auth, k: nat)
    ensures EndsExactly(a, Perform(a, LogOut(OneSession(k))),
                        if k < |a.sessions| && a.sessions[k].status == SessionActive then {k} else {}, true)
  {
  }

  /** Logging out everywhere ends exactly the user's ACTIVE sessions, with their tokens. */
  lemma LogOutEverywhereEndsTheUsers(a: Auth, user: nat)
    ensures EndsExactly(a, Perform(a, LogOut(AllOf(user))), ActiveOf(a, user), true)
  {
  }

  /** A password reset ends the same sessions and leaves every token as it was. */
  lemma ResetEndsTheUsers(a: Auth, user: nat)
    ensures EndsExactly(a, Perform(a, DoReset(user)), ActiveOf(a, user), false)
  {
  }

  /** What ends an ACTIVE session from outside: its own log-out, its user's from everywhere, or its user's reset. */
  predicate EndsSession(a: Auth, act: Act, s: nat) {
    && s < |a.sessions| && a.sessions[s].status == SessionActive
    && (act == LogOut(OneSession(s)) || act == LogOut(AllOf(a.sessions[s].user)) || act == DoReset(a.sessions[s].user))
  }

  /** Once a session has ended, no token of its ever rotates, whenever it is presented. */
  lemma {:induction false} EndedNeverRotates(ttl: nat, grace: nat, steps: seq<Step>, more: seq<Step>, s: nat, elapsed: nat,
                                             n: nat)
    requires s < |Run(ttl, grace, steps).sessions| && Run(ttl, grace, steps).sessions[s].status != SessionActive
    requires n < |Run(ttl, grace, steps + more).tokens| && Run(ttl, grace, steps + more).tokens[n].session == s
    ensures !Refresh(Wait(Run(ttl, grace, steps + more), elapsed), n).outcome.Rotated?
  {
    EndedForever(ttl, grace, steps, more, s);
    SessionsKept(ttl, grace, steps + more);
    WaitKeeps(Run(ttl, grace, steps + more), elapsed);
    RotatesIff(Wait(Run(ttl, grace, steps + more), elapsed), n);
  }

  lemma EndsRevoke(a: Auth, elapsed: nat, act: Act, s: nat)
    requires EndsSession(a, act, s)
    ensures var a' := Next(a, Step(elapsed, act)); s < |a'.sessions| && a'.sessions[s].status == Revoked
  {
    var ready := Wait(a, elapsed);
    match act
    case LogOut(OneSession(k)) => LogOutEndsItsSession(ready, k);
    case LogOut(AllOf(user)) => LogOutEverywhereEndsTheUsers(ready, user);
    case DoReset(user) => ResetEndsTheUsers(ready, user);
    case _ =>
  }

  /**
   * In every run, a log-out or a reset that ends an ACTIVE session ends it for
   * good: in every continuation it is not ACTIVE, and no token of it rotates.
   */
  lemma {:induction false} LogOutIsFinal(ttl: nat, grace: nat, steps: seq<Step>, elapsed: nat, act: Act, more: seq<Step>,
                                         s: nat, later: nat, n: nat)
    requires EndsSession(Run(ttl, grace, steps), act, s)
    ensures var a := Run(ttl, grace, steps + [Step(elapsed, act)] + more);
            && s < |a.sessions| && a.sessions[s].status != SessionActive
            && (n < |a.tokens| && a.tokens[n].session == s ==> !Refresh(Wait(a, later), n).outcome.Rotated?)
  {
    var ending := steps + [Step(elapsed, act)];
    assert ending[..|ending| - 1] == steps;
    EndsRevoke(Run(ttl, grace, steps), elapsed, act, s);
    EndedForever(ttl, grace, ending, more, s);
    var a := Run(ttl, grace, ending + more);
    if n < |a.tokens| && a.tokens[n].session == s {
      EndedNeverRotates(ttl, grace, ending, more, s, later, n);
    }
  }

  // ----- How long a token lives -------------------------------------------

  /** One more token, live and issued now, for the session; it lives exactly the lifetime, and the session as long. */
  ghost predicate Issued(a: Auth, a': Auth, s: nat) {
    && |a'.tokens| == |a.tokens| + 1 && a'.tokens[|a.tokens|] == Token(s, a.now, a.now + a.ttl, None, false, None)
    && s < |a'.sessions| && a'.sessions[s].current == |a.tokens| && a'.sessions[s].expiresAt == a.now + a.ttl
    && a'.sessions[s].status == SessionActive
    && a' == a.(sessions := a'.sessions, tokens := a'.tokens)
  }

  /** Signing in opens one session of the user's with one token, and touches no other. */
  lemma SignInIssues(a: Auth, user: nat)
    ensures var a' := Perform(a, DoSignIn(user));
            && Issued(a, a', |a.sessions|) && a'.tokens[..|a.tokens|] == a.tokens
            && |a'.sessions| == |a.sessions| + 1 && a'.sessions[..|a.sessions|] == a.sessions
            && a'.sessions[|a.sessions|].user == user
  {
  }

  /**
   * A rotation issues one token to its session. The one presented is used, now
   * unless it was before, and points at the new one; when it was used before,
   * the one it pointed at is revoked; no other token or session changes.
   */
  lemma RotationIssues(a: Auth, n: nat)
    requires AuthOk(a) && MayRotate(a, n)
    ensures var a', s, t := Perform(a, Present(n)), a.tokens[n].session, a.tokens[n];
            && Issued(a, a', s) && |a'.sessions| == |a.sessions| && a'.sessions[s].user == a.sessions[s].user
            && a'.tokens[n] == t.(consumedAt := Some(if t.consumedAt.Some? then t.consumedAt.value else a.now),
                                  replacedBy := Some(|a.tokens|))
            && (forall k :: 0 <= k < |a.tokens| && k != n ==>
                  a'.tokens[k] == if t.consumedAt.Some? && k == a.sessions[s].current then a.tokens[k].(revoked := true)
                                  else a.tokens[k])
            && (forall k :: 0 <= k < |a.sessions| && k != s ==> a'.sessions[k] == a.sessions[k])
  {
    RotatesIff(a, n);
    assert TokenOk(a, n);
  }

  /** A token issued to an ACTIVE session can be exchanged until its lifetime is over, and no longer. */
  lemma IssuedLives(a: Auth, a': Auth, s: nat, elapsed: nat)
    requires AuthOk(a') && Issued(a, a', s)
    ensures Refresh(Wait(a', elapsed), |a.tokens|).outcome.Rotated? <==> elapsed < a.ttl
  {
    WaitKeeps(a', elapsed);
    RotatesIff(Wait(a', elapsed), |a.tokens|);
  }

  /** The token a sign-in gives out rotates, if nothing else happens, exactly while it is younger than the lifetime. */
  lemma SignInTokenLives(a: Auth, user: nat, elapsed: nat)
    requires AuthOk(a)
    ensures Refresh(Wait(Perform(a, DoSignIn(user)), elapsed), |a.tokens|).outcome.Rotated? <==> elapsed < a.ttl
  {
    SignInKeeps(a, user);
    SignInIssues(a, user);
    IssuedLives(a, Perform(a, DoSignIn(user)), |a.sessions|, elapsed);
  }

  /**
   * After a token's first rotation, if nothing else happens, the new token
   * rotates exactly while it is younger than the lifetime; and the old one can
   * be presented again exactly within the grace and its own lifetime.
   */
  lemma RotationTokensLive(a: Auth, n: nat, elapsed: nat)
    requires AuthOk(a) && MayRotate(a, n) && a.tokens[n].consumedAt.None?
    ensures var a' := Wait(Perform(a, Present(n)), elapsed);
            && (Refresh(a', |a.tokens|).outcome.Rotated? <==> elapsed < a.ttl)
            && (Refresh(a', n).outcome.Rotated? <==> elapsed <= a.grace && a.now + elapsed < a.tokens[n].expiresAt)
  {
    RefreshKeeps(a, n);
    RotationIssues(a, n);
    assert TokenOk(a, n);
    IssuedLives(a, Perform(a, Present(n)), a.tokens[n].session, elapsed);
    WaitKeeps(Perform(a, Present(n)), elapsed);
    RotatesIff(Wait(Perform(a, Present(n)), elapsed), n);
  }

  /** A token reused outside these bounds takes its session down and no other. */
  lemma ReuseEndsItsSession(a: Auth, n: nat)
    requires AuthOk(a) && n < |a.tokens| && !a.tokens[n].revoked && a.tokens[n].expiresAt > a.now && !MayRotate(a, n)
    requires a.tokens[n].session < |a.sessions| && a.sessions[a.tokens[n].session].status == SessionActive
    ensures var a', s := Perform(a, Present(n)), a.tokens[n].session;
            && |a'.tokens| == |a.tokens| && a'.sessions == a.sessions[s := a.sessions[s].(status := Compromised)]
            && forall k :: 0 <= k < |a.tokens| ==>
                 a'.tokens[k] == if a.tokens[k].session == s then a.tokens[k].(revoked := true) else a.tokens[k]
  {
    RotatesIff(a, n);
  }

  /** A token that does not exist, was revoked or has expired is refused, and nothing changes. */
  lemma DeadTokenChangesNothing(a: Auth, n: nat)
    requires AuthOk(a) && (n < |a.tokens| ==> a.tokens[n].revoked || a.tokens[n].expiresAt <= a.now)
    ensures Refresh(a, n) == Refreshed(a, Invalid)
  {
    if n < |a.tokens| {
      assert TokenOk(a, n);
    }
  }

  /** A token of a session that has ended may cost that session more of its tokens, but touches nothing else. */
  lemma EndedSessionTouchesNoOther(a: Auth, n: nat)
    requires AuthOk(a) && n < |a.tokens| && a.tokens[n].session < |a.sessions|
    requires a.sessions[a.tokens[n].session].status != SessionActive
    ensures var a', s := Perform(a, Present(n)), a.tokens[n].session;
            && |a'.tokens| == |a.tokens|
            && (a'.sessions == a.sessions || a'.sessions == a.sessions[s := a.sessions[s].(status := Compromised)])
            && forall k :: 0 <= k < |a.tokens| ==>
                 || a'.tokens[k] == a.tokens[k]
                 || (a.tokens[k].session == s && a'.tokens[k] == a.tokens[k].(revoked := true))
  {
    assert TokenOk(a, n);
  }
}
