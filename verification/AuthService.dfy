/** Sessions and refresh tokens, rewritten in place. */
module AuthService {
  import opened Prelude
  import opened Sessions

  class AuthTables {
    var now: int
    const ttl: nat
    const grace: nat
    var sessions: seq<Session>
    var tokens: seq<Token>

    constructor (ttl: nat, grace: nat)
      ensures Rows() == Auth(0, ttl, grace, [], []) && AuthOk(Rows())
    {
      now, this.ttl, this.grace, sessions, tokens := 0, ttl, grace, [], [];
    }

    function Rows(): Auth
      reads this
    {
      Auth(now, ttl, grace, sessions, tokens)
    }

    method CreateSession(user: nat) returns (token: nat)
      modifies `sessions, `tokens
      ensures Rows() == SignIn(old(Rows()), user) && token == |old(tokens)|
    {
      token := |tokens|;
      tokens := tokens + [Token(|sessions|, now, now + ttl, None, false, None)];
      sessions := sessions + [Session(user, SessionActive, token, now + ttl)];
    }

    /** One transaction; the caller sees an error for every outcome but a rotation. */
    method RefreshToken(n: nat) returns (outcome: Outcome)
      modifies `sessions, `tokens
      ensures Rows() == Refresh(old(Rows()), n).auth && outcome == Refresh(old(Rows()), n).outcome
    {
      if n >= |tokens| || tokens[n].session >= |sessions| || tokens[n].revoked || tokens[n].expiresAt <= now {
        return Invalid;
      }
      var s := tokens[n].session;
      var retry := UndeliveredReplacement(Rows(), n, sessions[s].current);
      if retry.Some? {
        tokens := tokens[retry.value := tokens[retry.value].(revoked := true)];
      } else if tokens[n].consumedAt.Some? || sessions[s].current != n {
        sessions := sessions[s := sessions[s].(status := Compromised)];
        tokens := RevokedTokens(tokens, {s});
        return ReuseDetected;
      }
      if sessions[s].status != SessionActive || sessions[s].expiresAt <= now {
        return Invalid;
      }
      var next := |tokens|;
      tokens := tokens + [Token(s, now, now + ttl, None, false, None)];
      var consumedAt := if tokens[n].consumedAt.Some? then tokens[n].consumedAt else Some(now);
      tokens := tokens[n := tokens[n].(consumedAt := consumedAt, replacedBy := Some(next))];
      sessions := sessions[s := sessions[s].(current := next, expiresAt := now + ttl)];
      assert tokens == Refresh(old(Rows()), n).auth.tokens;
      outcome := Rotated(next);
    }

    method Revoke(whose: Whose)
      modifies `sessions, `tokens
      ensures Rows() == RevokeSessions(old(Rows()), whose)
    {
      var hit := Hit(Rows(), whose);
      sessions := RevokedSessions(Rows(), hit);
      tokens := RevokedTokens(tokens, hit);
    }

    /** The password reset's own write: sessions only. */
    method EndAllOf(user: nat)
      modifies `sessions
      ensures Rows() == ResetPassword(old(Rows()), user)
    {
      sessions := RevokedSessions(Rows(), Hit(Rows(), AllOf(user)));
    }
  }
}
