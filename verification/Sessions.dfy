/**
 * Refresh-token rotation: one live token per session, a short grace in which a
 * rotation whose response was lost can be repeated, and reuse detection.
 */
module Sessions {
  import opened Prelude

  datatype SessionStatus = SessionActive | Revoked | Compromised

  /** A token is named by its digest; digests are fresh, so the row's index stands for it. */
  datatype Token = Token(
    session: nat, createdAt: int, expiresAt: int, consumedAt: Option<int>, revoked: bool, replacedBy: Option<nat>)
  datatype Session = Session(user: nat, status: SessionStatus, current: nat, expiresAt: int)

  /** ttl is a refresh token's lifetime, grace the window for repeating an undelivered rotation. */
  datatype Auth = Auth(now: int, ttl: nat, grace: nat, sessions: seq<Session>, tokens: seq<Token>)

  datatype Outcome = Invalid | ReuseDetected | Rotated(token: nat)
  datatype Refreshed = Refreshed(auth: Auth, outcome: Outcome)

  // ----- The operations ---------------------------------------------------

  function SignIn(a: Auth, user: nat): Auth {
    a.(sessions := a.sessions + [Session(user, SessionActive, |a.tokens|, a.now + a.ttl)],
       tokens := a.tokens + [Token(|a.sessions|, a.now, a.now + a.ttl, None, false, None)])
  }

  /**
   * For a token already used: the one issued in its place, provided its holder
   * may never have received it. It must be recent, current and itself unused.
   */
  function UndeliveredReplacement(a: Auth, n: nat, current: nat): Option<nat>
    requires n < |a.tokens|
  {
    var token := a.tokens[n];
    if token.consumedAt.None? || token.replacedBy.None? then None
    else if a.now - token.consumedAt.value > a.grace then None
    else if token.replacedBy.value >= |a.tokens| then None
    else
      var replacement := a.tokens[token.replacedBy.value];
      if replacement.consumedAt.Some? || replacement.revoked || token.replacedBy.value != current then None
      else token.replacedBy
  }

  function RevokedTokens(tokens: seq<Token>, hit: set<nat>): (r: seq<Token>)
    ensures |r| == |tokens|
    ensures forall n :: 0 <= n < |r| ==> r[n] == if tokens[n].session in hit then tokens[n].(revoked := true) else tokens[n]
  {
    seq(|tokens|, n requires 0 <= n < |tokens| =>
      if tokens[n].session in hit then tokens[n].(revoked := true) else tokens[n])
  }

  function Compromise(a: Auth, s: nat): Auth
    requires s < |a.sessions|
  {
    a.(sessions := a.sessions[s := a.sessions[s].(status := Compromised)], tokens := RevokedTokens(a.tokens, {s}))
  }

  function Rotate(a: Auth, n: nat): Auth
    requires n < |a.tokens| && a.tokens[n].session < |a.sessions|
  {
    var next, s := |a.tokens|, a.tokens[n].session;
    var consumedAt := if a.tokens[n].consumedAt.Some? then a.tokens[n].consumedAt else Some(a.now);
    a.(tokens := a.tokens[n := a.tokens[n].(consumedAt := consumedAt, replacedBy := Some(next))]
                 + [Token(s, a.now, a.now + a.ttl, None, false, None)],
       sessions := a.sessions[s := a.sessions[s].(current := next, expiresAt := a.now + a.ttl)])
  }

  /** Retiring the undelivered replacement is kept even when the rotation is then refused. */
  function Refresh(a: Auth, n: nat): Refreshed {
    if n >= |a.tokens| || a.tokens[n].session >= |a.sessions| || a.tokens[n].revoked || a.tokens[n].expiresAt <= a.now
    then Refreshed(a, Invalid)
    else
      var s := a.tokens[n].session;
      var retry := UndeliveredReplacement(a, n, a.sessions[s].current);
      if retry.None? && (a.tokens[n].consumedAt.Some? || a.sessions[s].current != n)
      then Refreshed(Compromise(a, s), ReuseDetected)
      else
        var a' := if retry.Some?
          then a.(tokens := a.tokens[retry.value := a.tokens[retry.value].(revoked := true)]) else a;
        if a.sessions[s].status != SessionActive || a.sessions[s].expiresAt <= a.now
        then Refreshed(a', Invalid)
        else Refreshed(Rotate(a', n), Rotated(|a.tokens|))
  }

  datatype Whose = OneSession(session: nat) | AllOf(user: nat)

  predicate Matches(a: Auth, whose: Whose, s: nat)
    requires s < |a.sessions|
  {
    && a.sessions[s].status == SessionActive
    && (if whose.OneSession? then s == whose.session else a.sessions[s].user == whose.user)
  }

  function Hit(a: Auth, whose: Whose): set<nat> { set s: nat | s < |a.sessions| && Matches(a, whose, s) }

  function RevokedSessions(a: Auth, hit: set<nat>): (r: seq<Session>)
    ensures |r| == |a.sessions|
    ensures forall s :: 0 <= s < |r| ==> r[s] == if s in hit then a.sessions[s].(status := Revoked) else a.sessions[s]
  {
    seq(|a.sessions|, s requires 0 <= s < |a.sessions| =>
      if s in hit then a.sessions[s].(status := Revoked) else a.sessions[s])
  }

  function RevokeSessions(a: Auth, whose: Whose): Auth {
    a.(sessions := RevokedSessions(a, Hit(a, whose)), tokens := RevokedTokens(a.tokens, Hit(a, whose)))
  }

  /** A password reset ends the sessions and leaves their tokens as they are. */
  function ResetPassword(a: Auth, user: nat): Auth {
    a.(sessions := RevokedSessions(a, Hit(a, AllOf(user))))
  }

  // ----- Runs -------------------------------------------------------------

  datatype Act = DoSignIn(user: nat) | Present(token: nat) | LogOut(whose: Whose) | DoReset(user: nat)

  /** elapsed is the time since the step before: the clock never goes back. */
  datatype Step = Step(elapsed: nat, act: Act)

  function Perform(a: Auth, act: Act): Auth {
    match act
    case DoSignIn(user) => SignIn(a, user)
    case Present(n) => Refresh(a, n).auth
    case LogOut(whose) => RevokeSessions(a, whose)
    case DoReset(user) => ResetPassword(a, user)
  }

  function Wait(a: Auth, elapsed: nat): Auth { a.(now := a.now + elapsed) }
  function Next(a: Auth, step: Step): Auth { Perform(Wait(a, step.elapsed), step.act) }

  function Run(ttl: nat, grace: nat, steps: seq<Step>): Auth {
    if steps == [] then Auth(0, ttl, grace, [], [])
    else Next(Run(ttl, grace, steps[..|steps| - 1]), steps[|steps| - 1])
  }

  // ----- The invariant ----------------------------------------------------

  ghost predicate TokenOk(a: Auth, n: nat)
    requires n < |a.tokens|
  {
    var t := a.tokens[n];
    && t.session < |a.sessions|
    && t.createdAt <= a.now && t.expiresAt <= a.sessions[t.session].expiresAt
    && (t.consumedAt.Some? <==> t.replacedBy.Some?)
    && (t.replacedBy.Some? ==>
          && n < t.replacedBy.value < |a.tokens|
          && a.tokens[t.replacedBy.value].session == t.session
          && a.tokens[t.replacedBy.value].createdAt <= t.consumedAt.value + a.grace
          && t.consumedAt.value <= a.now)
  }

  /** f is the token session s was opened with. */
  ghost predicate IsFirst(tokens: seq<Token>, s: nat, f: nat) {
    f < |tokens| && tokens[f].session == s && forall k :: 0 <= k < f ==> tokens[k].session != s
  }

  /** p follows the replacements from the session's first token to its current one; whatever is off it is revoked. */
  ghost predicate Chain(a: Auth, s: nat, p: seq<nat>)
    requires s < |a.sessions|
  {
    && |p| >= 1 && IsFirst(a.tokens, s, p[0])
    && (forall i :: 0 <= i < |p| ==> p[i] < |a.tokens| && a.tokens[p[i]].session == s)
    && (forall i :: 0 <= i < |p| - 1 ==> a.tokens[p[i]].replacedBy == Some(p[i + 1]))
    && p[|p| - 1] == a.sessions[s].current && a.tokens[p[|p| - 1]].replacedBy == None
    && (forall n :: 0 <= n < |a.tokens| && a.tokens[n].session == s && n !in p ==> a.tokens[n].revoked)
  }

  ghost predicate HasChain(a: Auth, s: nat)
    requires s < |a.sessions|
  {
    exists p :: Chain(a, s, p)
  }

  ghost predicate SessionSound(a: Auth, s: nat)
    requires s < |a.sessions|
  {
    a.sessions[s].expiresAt <= a.now + a.ttl && HasChain(a, s)
  }

  /** An ACTIVE session's current token has not been revoked. */
  ghost predicate CurrentLive(a: Auth, s: nat)
    requires s < |a.sessions|
  {
    a.sessions[s].status == SessionActive ==>
      a.sessions[s].current < |a.tokens| && !a.tokens[a.sessions[s].current].revoked
  }

  ghost predicate AllSound(a: Auth) {
    && (forall n :: 0 <= n < |a.tokens| ==> TokenOk(a, n))
    && (forall s :: 0 <= s < |a.sessions| ==> SessionSound(a, s))
  }

  ghost predicate AuthOk(a: Auth) {
    AllSound(a) && forall s :: 0 <= s < |a.sessions| ==> CurrentLive(a, s)
  }

  // ----- Every operation keeps it -----------------------------------------

  lemma SignInKeeps(a: Auth, user: nat)
    requires AuthOk(a)
    ensures AuthOk(SignIn(a, user))
  {
    var a' := SignIn(a, user);
    forall n | 0 <= n < |a'.tokens| ensures TokenOk(a', n) {
      if n < |a.tokens| {
        assert TokenOk(a, n);
      }
    }
    forall s | 0 <= s < |a'.sessions| ensures SessionSound(a', s) && CurrentLive(a', s) {
      if s < |a.sessions| {
        assert SessionSound(a, s) && CurrentLive(a, s);
        var p :| Chain(a, s, p);
        assert Chain(a', s, p);
      } else {
        forall n | 0 <= n < |a.tokens| ensures a.tokens[n].session != s {
          assert TokenOk(a, n);
        }
        assert Chain(a', s, [|a.tokens|]);
      }
    }
  }

  /** Revoking tokens of sessions that are no longer ACTIVE, or tokens off the chain, disturbs nothing. */
  lemma RevokingKeeps(a: Auth, a': Auth)
    requires AuthOk(a) && a' == a.(sessions := a'.sessions, tokens := a'.tokens)
    requires |a'.sessions| == |a.sessions| && |a'.tokens| == |a.tokens|
    requires forall s :: 0 <= s < |a.sessions| ==> a'.sessions[s] == a.sessions[s].(status := a'.sessions[s].status)
    requires forall n :: 0 <= n < |a.tokens| ==>
               && a'.tokens[n] == a.tokens[n].(revoked := a'.tokens[n].revoked)
               && (a.tokens[n].revoked ==> a'.tokens[n].revoked)
    requires forall s :: 0 <= s < |a.sessions| && a'.sessions[s].status == SessionActive ==>
               && a.sessions[s].status == SessionActive
               && forall n :: 0 <= n < |a.tokens| && a.tokens[n].session == s ==> a'.tokens[n] == a.tokens[n]
    ensures AuthOk(a')
  {
    forall n | 0 <= n < |a'.tokens| ensures TokenOk(a', n) {
      assert TokenOk(a, n);
    }
    forall s | 0 <= s < |a'.sessions| ensures SessionSound(a', s) && CurrentLive(a', s) {
      assert SessionSound(a, s) && CurrentLive(a, s);
      var p :| Chain(a, s, p);
      assert Chain(a', s, p);
      assert a.tokens[p[|p| - 1]].session == s;
    }
  }

  lemma RevokeKeeps(a: Auth, whose: Whose)
    requires AuthOk(a)
    ensures AuthOk(RevokeSessions(a, whose))
  {
    RevokingKeeps(a, RevokeSessions(a, whose));
  }

  lemma ResetKeeps(a: Auth, user: nat)
    requires AuthOk(a)
    ensures AuthOk(ResetPassword(a, user))
  {
    RevokingKeeps(a, ResetPassword(a, user));
  }

  lemma CompromiseKeeps(a: Auth, s: nat)
    requires AuthOk(a) && s < |a.sessions|
    ensures AuthOk(Compromise(a, s))
  {
    RevokingKeeps(a, Compromise(a, s));
  }

  lemma WaitKeeps(a: Auth, elapsed: nat)
    requires AuthOk(a)
    ensures AuthOk(Wait(a, elapsed))
  {
    var a' := Wait(a, elapsed);
    forall n | 0 <= n < |a'.tokens| ensures TokenOk(a', n) {
      assert TokenOk(a, n);
    }
    forall s | 0 <= s < |a'.sessions| ensures SessionSound(a', s) && CurrentLive(a', s) {
      assert SessionSound(a, s) && CurrentLive(a, s);
      var p :| Chain(a, s, p);
      assert Chain(a', s, p);
    }
  }

  // ----- Rotation ---------------------------------------------------------

  lemma {:induction false} StepwiseIncreasing(p: seq<nat>, i: nat, j: nat)
    requires forall k :: 0 < k < |p| ==> p[k - 1] < p[k]
    requires i < j < |p|
    ensures p[i] < p[j]
    decreases j
  {
    if i < j - 1 {
      StepwiseIncreasing(p, i, j - 1);
    }
  }

  lemma ChainIncreases(a: Auth, s: nat, p: seq<nat>, i: nat, j: nat)
    requires AllSound(a) && s < |a.sessions| && Chain(a, s, p) && i < j < |p|
    ensures p[i] < p[j]
  {
    forall k | 0 < k < |p| ensures p[k - 1] < p[k] {
      assert TokenOk(a, p[k - 1]);
      assert a.tokens[p[k - 1]].replacedBy == Some(p[k - 1 + 1]);
    }
    StepwiseIncreasing(p, i, j);
  }

  /** Where on its chain a rotation starts: at the end, or one before an end just retired. */
  ghost predicate RotatesFrom(a: Auth, n: nat, p: seq<nat>)
    requires n < |a.tokens| && |p| >= 1
  {
    || n == p[|p| - 1]
    || (|p| >= 2 && n == p[|p| - 2] && p[|p| - 1] < |a.tokens| && a.tokens[p[|p| - 1]].revoked)
  }

  function RotatedPath(a: Auth, n: nat, p: seq<nat>): seq<nat>
    requires |p| >= 1
  {
    (if n == p[|p| - 1] then p else p[..|p| - 1]) + [|a.tokens|]
  }

  lemma RotatedLinks(a: Auth, n: nat, s: nat, p: seq<nat>)
    requires AllSound(a) && n < |a.tokens| && s == a.tokens[n].session < |a.sessions| && Chain(a, s, p)
    requires RotatesFrom(a, n, p)
    ensures var q, tokens := RotatedPath(a, n, p), Rotate(a, n).tokens;
            forall i :: 0 <= i < |q| - 1 ==> q[i] < |tokens| && tokens[q[i]].replacedBy == Some(q[i + 1])
  {
    var q, tokens := RotatedPath(a, n, p), Rotate(a, n).tokens;
    forall i | 0 <= i < |q| - 1 ensures q[i] < |tokens| && tokens[q[i]].replacedBy == Some(q[i + 1]) {
      assert q[i] == p[i];
      if i < |q| - 2 {
        ChainIncreases(a, s, p, i, |q| - 2);
        assert q[i + 1] == p[i + 1];
      }
    }
  }

  lemma RotatedOffPath(a: Auth, n: nat, s: nat, p: seq<nat>, k: nat)
    requires n < |a.tokens| && s == a.tokens[n].session < |a.sessions| && Chain(a, s, p) && RotatesFrom(a, n, p)
    requires k < |Rotate(a, n).tokens| && Rotate(a, n).tokens[k].session == s && k !in RotatedPath(a, n, p)
    ensures Rotate(a, n).tokens[k].revoked
  {
    var q := RotatedPath(a, n, p);
    assert q[|q| - 1] == |a.tokens|;
    forall i | 0 <= i < |q| - 1 ensures p[i] in q {
      assert q[i] == p[i];
    }
  }

  lemma RotatedChain(a: Auth, n: nat, s: nat, p: seq<nat>)
    requires AllSound(a) && n < |a.tokens| && s == a.tokens[n].session < |a.sessions| && Chain(a, s, p)
    requires RotatesFrom(a, n, p)
    ensures HasChain(Rotate(a, n), s)
  {
    var a', q := Rotate(a, n), RotatedPath(a, n, p);
    RotatedLinks(a, n, s, p);
    forall k | 0 <= k < |a'.tokens| && a'.tokens[k].session == s && k !in q ensures a'.tokens[k].revoked {
      RotatedOffPath(a, n, s, p, k);
    }
    forall i | 0 <= i < |q| ensures q[i] < |a'.tokens| && a'.tokens[q[i]].session == s {
      assert i < |q| - 1 ==> q[i] == p[i];
    }
    assert q[0] == p[0] && IsFirst(a'.tokens, s, q[0]);
    assert Chain(a', s, q);
  }

  lemma OtherChains(a: Auth, n: nat, s: nat)
    requires AllSound(a) && n < |a.tokens| && s < |a.sessions| && s != a.tokens[n].session < |a.sessions|
    ensures HasChain(Rotate(a, n), s)
  {
    assert SessionSound(a, s);
    var p :| Chain(a, s, p);
    assert Chain(Rotate(a, n), s, p);
  }

  lemma RotatedTokens(a: Auth, n: nat)
    requires AllSound(a) && n < |a.tokens| && a.tokens[n].session < |a.sessions|
    requires a.tokens[n].consumedAt.Some? ==> a.now <= a.tokens[n].consumedAt.value + a.grace
    ensures forall k :: 0 <= k < |Rotate(a, n).tokens| ==> TokenOk(Rotate(a, n), k)
  {
    var a' := Rotate(a, n);
    assert TokenOk(a, n) && SessionSound(a, a.tokens[n].session);
    forall k | 0 <= k < |a'.tokens| ensures TokenOk(a', k) {
      if k < |a.tokens| {
        assert TokenOk(a, k);
      }
    }
  }

  lemma CurrentInSession(a: Auth, s: nat)
    requires AllSound(a) && s < |a.sessions|
    ensures a.sessions[s].current < |a.tokens| && a.tokens[a.sessions[s].current].session == s
  {
    assert SessionSound(a, s);
    var p :| Chain(a, s, p);
    assert a.tokens[p[|p| - 1]].session == s;
  }

  lemma RotateKeeps(a: Auth, n: nat, s: nat, p: seq<nat>)
    requires AllSound(a) && n < |a.tokens| && s == a.tokens[n].session < |a.sessions| && Chain(a, s, p)
    requires RotatesFrom(a, n, p)
    requires a.tokens[n].consumedAt.Some? ==> a.now <= a.tokens[n].consumedAt.value + a.grace
    requires forall k :: 0 <= k < |a.sessions| && k != s ==> CurrentLive(a, k)
    ensures AuthOk(Rotate(a, n))
  {
    var a' := Rotate(a, n);
    RotatedTokens(a, n);
    forall k | 0 <= k < |a'.sessions| ensures SessionSound(a', k) && CurrentLive(a', k) {
      assert SessionSound(a, k);
      if k == s {
        RotatedChain(a, n, s, p);
      } else {
        OtherChains(a, n, k);
        assert CurrentLive(a, k);
        CurrentInSession(a, k);
      }
    }
  }

  // ----- Refreshing -------------------------------------------------------

  /** A token that was not revoked is on its session's chain. */
  lemma LiveOnChain(a: Auth, n: nat, p: seq<nat>) returns (i: nat)
    requires AllSound(a) && n < |a.tokens| && a.tokens[n].session < |a.sessions|
    requires Chain(a, a.tokens[n].session, p) && !a.tokens[n].revoked
    ensures i < |p| && p[i] == n
  {
    assert n in p;
    i :| 0 <= i < |p| && p[i] == n;
  }

  function Retired(a: Auth, r: nat): Auth
    requires r < |a.tokens|
  {
    a.(tokens := a.tokens[r := a.tokens[r].(revoked := true)])
  }

  /** Retiring a session's current token leaves everything sound but that session's current token. */
  lemma RetiredSound(a: Auth, s: nat)
    requires AuthOk(a) && s < |a.sessions| && a.sessions[s].current < |a.tokens|
    ensures var a' := Retired(a, a.sessions[s].current);
            && AllSound(a')
            && (forall k :: 0 <= k < |a.sessions| && k != s ==> CurrentLive(a', k))
            && forall k, p :: 0 <= k < |a.sessions| && Chain(a, k, p) ==> Chain(a', k, p)
  {
    var r := a.sessions[s].current;
    var a' := Retired(a, r);
    CurrentInSession(a, s);
    forall n | 0 <= n < |a'.tokens| ensures TokenOk(a', n) {
      assert TokenOk(a, n);
    }
    forall k | 0 <= k < |a'.sessions| ensures SessionSound(a', k) && (k != s ==> CurrentLive(a', k)) {
      assert SessionSound(a, k) && CurrentLive(a, k);
      var p :| Chain(a, k, p);
      assert Chain(a', k, p);
      CurrentInSession(a, k);
    }
  }

  /** The retried token is the link just before the undelivered replacement. */
  lemma RetryLink(a: Auth, n: nat, p: seq<nat>)
    requires AllSound(a) && n < |a.tokens| && a.tokens[n].session < |a.sessions| && !a.tokens[n].revoked
    requires Chain(a, a.tokens[n].session, p)
    requires UndeliveredReplacement(a, n, a.sessions[a.tokens[n].session].current).Some?
    ensures |p| >= 2 && n == p[|p| - 2]
    ensures UndeliveredReplacement(a, n, a.sessions[a.tokens[n].session].current) == Some(p[|p| - 1])
  {
    var i := LiveOnChain(a, n, p);
    assert i < |p| - 1;
    assert a.tokens[p[i]].replacedBy == Some(p[i + 1]);
    if i + 1 < |p| - 1 {
      ChainIncreases(a, a.tokens[n].session, p, i + 1, |p| - 1);
    }
  }

  /** In a sound state a token that is not expired belongs to a session that is not. */
  lemma SessionOutlivesToken(a: Auth, n: nat)
    requires AllSound(a) && n < |a.tokens| && a.tokens[n].expiresAt > a.now
    ensures a.tokens[n].session < |a.sessions| && a.sessions[a.tokens[n].session].expiresAt > a.now
  {
    assert TokenOk(a, n);
  }

  lemma RetryKeeps(a: Auth, n: nat)
    requires AuthOk(a) && n < |a.tokens| && a.tokens[n].session < |a.sessions|
    requires !a.tokens[n].revoked && a.tokens[n].expiresAt > a.now
    requires UndeliveredReplacement(a, n, a.sessions[a.tokens[n].session].current).Some?
    ensures AuthOk(Refresh(a, n).auth)
  {
    var s := a.tokens[n].session;
    assert SessionSound(a, s);
    var p :| Chain(a, s, p);
    RetryLink(a, n, p);
    RetiredSound(a, s);
    SessionOutlivesToken(a, n);
    var a' := Retired(a, p[|p| - 1]);
    assert Chain(a', s, p);
    if a.sessions[s].status == SessionActive {
      RotateKeeps(a', n, s, p);
    }
  }

  lemma OrdinaryKeeps(a: Auth, n: nat)
    requires AuthOk(a) && n < |a.tokens| && a.tokens[n].session < |a.sessions| && !a.tokens[n].revoked
    requires a.tokens[n].consumedAt.None? && a.sessions[a.tokens[n].session].current == n
    ensures AuthOk(Rotate(a, n))
  {
    var s := a.tokens[n].session;
    assert SessionSound(a, s);
    var p :| Chain(a, s, p);
    RotateKeeps(a, n, s, p);
  }

  lemma RefreshKeeps(a: Auth, n: nat)
    requires AuthOk(a)
    ensures AuthOk(Refresh(a, n).auth)
  {
    if n < |a.tokens| && a.tokens[n].session < |a.sessions| && !a.tokens[n].revoked && a.tokens[n].expiresAt > a.now {
      var s := a.tokens[n].session;
      if UndeliveredReplacement(a, n, a.sessions[s].current).Some? {
        RetryKeeps(a, n);
      } else if a.tokens[n].consumedAt.Some? || a.sessions[s].current != n {
        CompromiseKeeps(a, s);
      } else {
        OrdinaryKeeps(a, n);
      }
    }
  }

  lemma NextKeeps(a: Auth, step: Step)
    requires AuthOk(a)
    ensures AuthOk(Next(a, step))
  {
    WaitKeeps(a, step.elapsed);
    var ready := Wait(a, step.elapsed);
    match step.act
    case DoSignIn(user) => SignInKeeps(ready, user);
    case Present(n) => RefreshKeeps(ready, n);
    case LogOut(whose) => RevokeKeeps(ready, whose);
    case DoReset(user) => ResetKeeps(ready, user);
  }

  lemma {:induction false} SessionsKept(ttl: nat, grace: nat, steps: seq<Step>)
    ensures AuthOk(Run(ttl, grace, steps))
    ensures Run(ttl, grace, steps).ttl == ttl && Run(ttl, grace, steps).grace == grace
    decreases |steps|
  {
    if steps != [] {
      SessionsKept(ttl, grace, steps[..|steps| - 1]);
      NextKeeps(Run(ttl, grace, steps[..|steps| - 1]), steps[|steps| - 1]);
    }
  }

  // ----- What this guarantees ---------------------------------------------

  predicate Live(a: Auth, s: nat, n: nat) {
    n < |a.tokens| && a.tokens[n].session == s && a.tokens[n].consumedAt.None? && !a.tokens[n].revoked
  }

  lemma OnlyEndUnlinked(a: Auth, s: nat, p: seq<nat>, i: nat)
    requires s < |a.sessions| && Chain(a, s, p) && i < |p|
    ensures a.tokens[p[i]].replacedBy.None? <==> i == |p| - 1
  {
    if i < |p| - 1 {
      assert a.tokens[p[i]].replacedBy == Some(p[i + 1]);
    }
  }

  lemma OneLiveToken(a: Auth, s: nat, n: nat)
    requires AuthOk(a) && s < |a.sessions| && a.sessions[s].status == SessionActive
    ensures Live(a, s, n) <==> n == a.sessions[s].current
  {
    assert SessionSound(a, s) && CurrentLive(a, s);
    var p :| Chain(a, s, p);
    assert TokenOk(a, p[|p| - 1]);
    if Live(a, s, n) {
      var i := LiveOnChain(a, n, p);
      assert TokenOk(a, n);
      OnlyEndUnlinked(a, s, p, i);
    }
  }

  /**
   * In every run an ACTIVE session has exactly one token neither consumed nor
   * revoked, and it is the session's current one.
   */
  lemma {:induction false} SingleLiveToken(ttl: nat, grace: nat, steps: seq<Step>, s: nat, n: nat)
    requires s < |Run(ttl, grace, steps).sessions| && Run(ttl, grace, steps).sessions[s].status == SessionActive
    ensures Live(Run(ttl, grace, steps), s, n) <==> n == Run(ttl, grace, steps).sessions[s].current
  {
    SessionsKept(ttl, grace, steps);
    OneLiveToken(Run(ttl, grace, steps), s, n);
  }

  /**
   * In every run the replacements form no cycle: each points at a later token
   * of the same session. The chain from a session's first token ends at its
   * current one, every token off it is revoked, and every replacement was
   * issued within the grace of its token's first use.
   */
  lemma {:induction false} RotationChain(ttl: nat, grace: nat, steps: seq<Step>, s: nat)
    requires s < |Run(ttl, grace, steps).sessions|
    ensures var a := Run(ttl, grace, steps);
            && HasChain(a, s)
            && forall n :: 0 <= n < |a.tokens| && a.tokens[n].replacedBy.Some? ==>
                 && n < a.tokens[n].replacedBy.value < |a.tokens| && a.tokens[n].consumedAt.Some?
                 && a.tokens[a.tokens[n].replacedBy.value].session == a.tokens[n].session
                 && a.tokens[a.tokens[n].replacedBy.value].createdAt <= a.tokens[n].consumedAt.value + grace
  {
    SessionsKept(ttl, grace, steps);
    var a := Run(ttl, grace, steps);
    assert SessionSound(a, s);
    forall n | 0 <= n < |a.tokens| && a.tokens[n].replacedBy.Some?
      ensures && n < a.tokens[n].replacedBy.value < |a.tokens| && a.tokens[n].consumedAt.Some?
              && a.tokens[a.tokens[n].replacedBy.value].session == a.tokens[n].session
              && a.tokens[a.tokens[n].replacedBy.value].createdAt <= a.tokens[n].consumedAt.value + grace
    {
      assert TokenOk(a, n);
    }
  }

  /** Exactly when a presented token is exchanged for a new one. */
  predicate MayRotate(a: Auth, n: nat) {
    && n < |a.tokens| && a.tokens[n].session < |a.sessions|
    && !a.tokens[n].revoked && a.tokens[n].expiresAt > a.now
    && var session := a.sessions[a.tokens[n].session];
       && session.status == SessionActive
       && (session.current == n
           || (&& a.tokens[n].consumedAt.Some? && a.now <= a.tokens[n].consumedAt.value + a.grace
               && a.tokens[n].replacedBy == Some(session.current)))
  }

  /**
   * In a reachable state a token rotates iff it is its ACTIVE session's current
   * one, or was consumed no longer ago than the grace and replaced by the
   * current one. Any other unrevoked, unexpired token of an ACTIVE session
   * compromises it and revokes every token it has.
   */
  lemma RotatesIff(a: Auth, n: nat)
    requires AuthOk(a)
    ensures Refresh(a, n).outcome.Rotated? <==> MayRotate(a, n)
    ensures MayRotate(a, n) ==>
              Refresh(a, n).outcome.token == |a.tokens| == Refresh(a, n).auth.sessions[a.tokens[n].session].current
    ensures n < |a.tokens| && !a.tokens[n].revoked && a.tokens[n].expiresAt > a.now && !MayRotate(a, n)
            && a.tokens[n].session < |a.sessions| && a.sessions[a.tokens[n].session].status == SessionActive ==>
              && Refresh(a, n).outcome == ReuseDetected
              && Refresh(a, n).auth.sessions[a.tokens[n].session].status == Compromised
              && forall k :: 0 <= k < |a.tokens| && a.tokens[k].session == a.tokens[n].session ==>
                   Refresh(a, n).auth.tokens[k].revoked
  {
    if n < |a.tokens| && a.tokens[n].session < |a.sessions| && !a.tokens[n].revoked && a.tokens[n].expiresAt > a.now {
      var s := a.tokens[n].session;
      SessionOutlivesToken(a, n);
      assert TokenOk(a, n) && CurrentLive(a, s) && SessionSound(a, s);
      CurrentInSession(a, s);
      if a.sessions[s].status == SessionActive {
        OneLiveToken(a, s, a.sessions[s].current);
      }
    }
  }

  // ----- After a session ends ---------------------------------------------

  /** The session is over, and what it had stays as it was: no token is added to it. */
  ghost predicate Ended(a: Auth, a': Auth, s: nat) {
    && s < |a.sessions| <= |a'.sessions| && |a.tokens| <= |a'.tokens|
    && a'.sessions[s].status != SessionActive && a'.sessions[s].current == a.sessions[s].current
    && (forall n :: |a.tokens| <= n < |a'.tokens| ==> a'.tokens[n].session != s)
    && (forall n :: 0 <= n < |a.tokens| ==> a'.tokens[n].session == a.tokens[n].session)
  }

  lemma EndedStep(a: Auth, step: Step, s: nat)
    requires AuthOk(a) && s < |a.sessions| && a.sessions[s].status != SessionActive
    ensures Ended(a, Next(a, step), s)
  {
    if step.act.Present? && step.act.token < |a.tokens| {
      assert TokenOk(a, step.act.token);
    }
  }

  /** In every run, a session that has left ACTIVE is never rotated again. */
  lemma {:induction false} EndedForever(ttl: nat, grace: nat, steps: seq<Step>, more: seq<Step>, s: nat)
    requires s < |Run(ttl, grace, steps).sessions| && Run(ttl, grace, steps).sessions[s].status != SessionActive
    ensures Ended(Run(ttl, grace, steps), Run(ttl, grace, steps + more), s)
    decreases |more|
  {
    if more == [] {
      assert steps + more == steps;
    } else {
      var last := |more| - 1;
      var before := steps + more[..last];
      EndedForever(ttl, grace, steps, more[..last], s);
      SessionsKept(ttl, grace, before);
      assert (steps + more)[..|steps + more| - 1] == before;
      EndedStep(Run(ttl, grace, before), more[last], s);
    }
  }

  /** The first use of a token is recorded once: later rotations and retries keep its time. */
  lemma FirstUseStands(a: Auth, step: Step, n: nat)
    requires n < |a.tokens| && a.tokens[n].consumedAt.Some?
    ensures n < |Next(a, step).tokens| && Next(a, step).tokens[n].consumedAt == a.tokens[n].consumedAt
  {
  }
}
