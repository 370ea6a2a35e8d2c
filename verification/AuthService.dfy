/**
 The session requests as the services run them: statement by statement against mutable tables
 and Redis keys, with loops over the rows a query returned. Each method is proved to do what
 SessionModel says; `Handle` adds the commit-or-rollback wrapper of a database session.
 */
module AuthService {
  import opened Clock
  import opened Redis
  import opened Wrappers
  import opened SessionModel

  class AuthBackend {
    var users: map<UserId, User>
    var tokens: map<Token, RefreshRow>
    var sessions: map<SessionId, SessionRow>
    var shadow: map<Token, Entry<UserId>>
    var blacklist: map<Jti, Entry<bool>>
    var lastActive: map<Jti, Entry<int>>
    var clock: int
    /** The access tokens carrying a valid signature, and every name ever drawn. */
    var issued: map<Jti, Claims>
    ghost var minted: set<Token>
    ghost var sids: set<SessionId>
    ghost var adminTokens: set<Token>

    constructor (now: int, superusers: set<UserId>)
      ensures State() == World(Db(map u | u in superusers :: User(true, true, false, false), map[], map[]),
                               Keys(map[], map[], map[]), now, {}, {}, map[], {})
    {
      users := map u | u in superusers :: User(true, true, false, false);
      tokens, sessions, shadow, blacklist, lastActive := map[], map[], map[], map[], map[];
      clock, issued := now, map[];
      minted, sids, adminTokens := {}, {}, {};
    }

    function Rows(): Db
      reads this
    {
      Db(users, tokens, sessions)
    }

    function RedisKeys(): Keys
      reads this
    {
      Keys(shadow, blacklist, lastActive)
    }

    ghost function State(): World
      reads this
    {
      World(Rows(), RedisKeys(), clock, minted, sids, issued, adminTokens)
    }

    /** The tables and keys are now what `a` describes, and `o` is its answer. */
    ghost predicate Did(a: Attempt, o: Outcome)
      reads this
    {
      Rows() == a.db && RedisKeys() == a.keys && o == a.outcome
    }

    /** DELETE FROM refresh_tokens WHERE token IN doomed, with the foreign key cascade. */
    method DeleteTokens(doomed: set<Token>)
      modifies `tokens, `sessions
      ensures Rows() == DropTokens(old(Rows()), doomed)
    {
      tokens := map t | t in tokens && t !in doomed :: tokens[t];
      sessions := map s | s in sessions && sessions[s].token !in doomed :: sessions[s];
    }

    method WriteShadowKey(token: Token, user: UserId)
      modifies `shadow
      ensures shadow == old(shadow)[token := Entry(user, clock + REFRESH_TTL)]
    {
      shadow := shadow[token := Entry(user, clock + REFRESH_TTL)];
    }

    method WriteShadowKeysBulk(spent: set<Token>, user: UserId)
      modifies `shadow
      ensures shadow == SetAll(old(shadow), spent, user, clock, REFRESH_TTL)
    {
      var rest := spent;
      while rest != {}
        invariant rest <= spent
        invariant shadow.Keys == old(shadow).Keys + (spent - rest)
        invariant forall t :: t in shadow ==>
          shadow[t] == if t in spent && t !in rest then Entry(user, clock + REFRESH_TTL) else old(shadow)[t]
        decreases rest
      {
        var t :| t in rest;
        WriteShadowKey(t, user);
        rest := rest - {t};
      }
    }

    method BlacklistJti(jti: Jti)
      modifies `blacklist
      ensures blacklist == old(blacklist)[jti := Entry(true, clock + ACCESS_TTL)]
    {
      blacklist := blacklist[jti := Entry(true, clock + ACCESS_TTL)];
    }

    /** The loop `for row in sessions: blacklist_jti(row.access_token_jti)`. */
    method BlacklistSessions(rows: set<SessionId>)
      requires rows <= sessions.Keys
      modifies `blacklist
      ensures blacklist == SetAll(old(blacklist), JtisOf(Rows(), rows), true, clock, ACCESS_TTL)
    {
      var rest := rows;
      while rest != {}
        invariant rest <= rows
        invariant blacklist == SetAll(old(blacklist), JtisOf(Rows(), rows - rest), true, clock, ACCESS_TTL)
        decreases rest
      {
        var s :| s in rest;
        assert JtisOf(Rows(), rows - (rest - {s})) == JtisOf(Rows(), rows - rest) + {sessions[s].jti};
        SetOneMore(old(blacklist), JtisOf(Rows(), rows - rest), sessions[s].jti, true, clock, ACCESS_TTL);
        BlacklistJti(sessions[s].jti);
        rest := rest - {s};
      }
      assert rows - rest == rows;
    }

    method InsertPair(f: Fresh, user: UserId)
      modifies `tokens, `sessions
      ensures Rows() == AddSession(AddToken(old(Rows()), f.token, user, clock), f, user)
    {
      tokens := tokens[f.token := RefreshRow(user, clock + REFRESH_TTL)];
      sessions := sessions[f.sid := SessionRow(f.token, user, f.jti)];
    }

    method IssueTokens(user: UserId, f: Fresh) returns (o: Outcome)
      modifies `tokens, `sessions, `shadow
      ensures Did(old(TryIssue(Rows(), RedisKeys(), clock, user, f)), o)
    {
      if user !in users {
        return InvalidCredentials;
      }
      var displaced := TokensOf(Rows(), {user});
      WriteShadowKeysBulk(displaced, user);
      DeleteTokens(displaced);
      InsertPair(f, user);
      o := NewPair(f.token, f.jti);
    }

    /** Any raised error stands for its database effects too: they last only until `Handle` rolls back. */
    method CheckReplayAndLogout(token: Token) returns (o: Outcome)
      requires token !in tokens
      modifies `tokens, `sessions
      ensures forall f :: Did(old(TryRefresh(Rows(), RedisKeys(), clock, token, f)), o)
    {
      if Live(shadow, token, clock) {
        DeleteTokens(TokensOf(Rows(), {shadow[token].value}));
        o := ReplayDetected;
      } else {
        o := InvalidToken;
      }
    }

    /** Point the spent token's session at the new token, or insert a session when there is none. */
    method RelinkSession(spent: Token, f: Fresh, user: UserId)
      modifies `sessions
      ensures Rows() == Relink(old(Rows()), spent, f, user)
    {
      var found := set s | s in sessions && sessions[s].token == spent;
      assert forall s :: s in sessions && sessions[s].token == spent ==> s in found;
      if found != {} {
        sessions := map s | s in sessions ::
          if s in found then sessions[s].(token := f.token, jti := f.jti) else sessions[s];
      } else {
        sessions := sessions[f.sid := SessionRow(f.token, user, f.jti)];
      }
    }

    method Refresh(token: Token, f: Fresh) returns (o: Outcome)
      modifies `tokens, `sessions, `shadow
      ensures Did(old(TryRefresh(Rows(), RedisKeys(), clock, token, f)), o)
    {
      if token !in tokens {
        o := CheckReplayAndLogout(token);
        return;
      }
      var row := tokens[token];
      if row.expiresAt < clock {
        DeleteTokens({token});
        return TokenExpired;
      }
      WriteShadowKey(token, row.user);
      DeleteTokens({token});
      tokens := tokens[f.token := RefreshRow(row.user, clock + REFRESH_TTL)];
      if row.user !in users {
        return InvalidToken;
      }
      RelinkSession(token, f, row.user);
      o := NewPair(f.token, f.jti);
    }

    method AdminLogin(user: UserId, passwordOk: bool, f: Fresh) returns (o: Outcome)
      modifies `tokens
      ensures Did(old(TryAdminLogin(Rows(), RedisKeys(), clock, user, passwordOk, f)), o)
    {
      if user !in users || !users[user].superuser || !passwordOk {
        return InvalidCredentials;
      }
      tokens := tokens[f.token := RefreshRow(user, clock + REFRESH_TTL)];
      o := NewPair(f.token, f.jti);
    }

    method AdminRefresh(token: Token, f: Fresh) returns (o: Outcome)
      modifies `tokens, `sessions
      ensures Did(old(TryAdminRefresh(Rows(), RedisKeys(), clock, token, f)), o)
    {
      if token !in tokens {
        return InvalidToken;
      }
      var row := tokens[token];
      DeleteTokens({token});
      if row.expiresAt < clock {
        return TokenExpired;
      }
      tokens := tokens[f.token := RefreshRow(row.user, clock + REFRESH_TTL)];
      o := NewPair(f.token, f.jti);
    }

    /** revoke_all_other_sessions; change_password runs the same statements after its password check. */
    method RevokeAllOtherSessions(user: UserId, current: Option<Jti>) returns (o: Outcome)
      modifies `tokens, `sessions, `blacklist
      ensures Did(old(TryKeepCurrent(Rows(), RedisKeys(), clock, user, current)), o)
    {
      var others := OtherSessions(Rows(), user, current);
      BlacklistSessions(others);
      var currentTokens := CurrentTokens(Rows(), user, current);
      if currentTokens != {} {
        DeleteTokens(TokensOf(Rows(), {user}) - currentTokens);
      } else {
        assert TokensOf(Rows(), {user}) - currentTokens == TokensOf(Rows(), {user});
        DeleteTokens(TokensOf(Rows(), {user}));
      }
      o := Revoked(|others|);
    }

    method RevokeSession(user: UserId, sid: SessionId, currentJti: Jti) returns (o: Outcome)
      modifies `tokens, `sessions, `blacklist
      ensures Did(old(TryRevokeSession(Rows(), RedisKeys(), clock, user, sid, currentJti)), o)
    {
      if sid !in sessions || sessions[sid].user != user {
        return NotFound;
      }
      if sessions[sid].jti == currentJti {
        return CannotRevokeCurrent;
      }
      BlacklistJti(sessions[sid].jti);
      assert blacklist == Blacklist(old(RedisKeys()), {sessions[sid].jti}, clock).blacklist;
      DeleteTokens({sessions[sid].token});
      o := Done;
    }

    /** suspend_tenant and force_password_reset: one bulk DELETE after the blacklist loop. */
    method RevokeBulk(members: set<UserId>) returns (o: Outcome)
      modifies `tokens, `sessions, `blacklist
      ensures Did(old(TryRevokeMembers(Rows(), RedisKeys(), clock, members)), o)
    {
      BlacklistSessions(SessionsOf(Rows(), members));
      DeleteTokens(TokensOf(Rows(), members));
      o := Done;
    }

    method ForcePasswordReset(user: UserId) returns (o: Outcome)
      modifies `users, `tokens, `sessions, `blacklist
      ensures Did(old(TryForceReset(Rows(), RedisKeys(), clock, user)), o)
    {
      if user !in users {
        return NotFound;
      }
      users := users[user := users[user].(resetRequired := true)];
      o := RevokeBulk({user});
    }

    method ResetPassword(user: UserId) returns (o: Outcome)
      modifies `users, `tokens, `sessions
      ensures Did(old(TryResetPassword(Rows(), RedisKeys(), user)), o)
    {
      if user !in users {
        return InvalidToken;
      }
      users := users[user := users[user].(resetRequired := false)];
      DeleteTokens(TokensOf(Rows(), {user}));
      o := Done;
    }

    method AdminLogout(token: Token, jti: Jti) returns (o: Outcome)
      modifies `tokens, `sessions, `blacklist
      ensures Did(old(Try(Rows(), RedisKeys(), clock, issued, Op.AdminLogout(token, jti))), o)
    {
      o := RequireAdmin(jti);
      if o.Welcome? {
        DeleteTokens({token});
        BlacklistJti(jti);
        assert blacklist == Blacklist(old(RedisKeys()), {jti}, clock).blacklist;
        o := Done;
      }
    }

    method SetMfa(user: UserId, enabled: bool) returns (o: Outcome)
      modifies `users
      ensures Did(old(Try(Rows(), RedisKeys(), clock, issued, Op.SetMfa(user, enabled))), o)
    {
      if user !in users {
        return NotFound;
      }
      users := users[user := users[user].(mfa := enabled)];
      o := Done;
    }

    method EnableMfaEnforcement(actor: UserId, members: set<UserId>) returns (o: Outcome)
      modifies `tokens, `sessions
      ensures Did(old(TryEnforceMfa(Rows(), RedisKeys(), actor, members)), o)
    {
      if actor !in users || !users[actor].mfa {
        return MfaRequired;
      }
      var nonMfa := set u | u in members && u in users && !users[u].mfa;
      if nonMfa != {} {
        DeleteTokens(TokensOf(Rows(), nonMfa));
      } else {
        assert TokensOf(Rows(), nonMfa) == {};
        assert DropTokens(Rows(), {}) == Rows();
      }
      o := Done;
    }

    method GetCurrentUser(jti: Jti) returns (o: Outcome)
      modifies `lastActive
      ensures Did(old(TryAuthenticate(Rows(), RedisKeys(), clock, issued, jti)), o)
    {
      if jti !in issued {
        return InvalidToken;
      }
      var claims := issued[jti];
      if claims.exp * SECOND <= clock {
        return TokenExpired;
      }
      if claims.aud != Regular || Live(blacklist, jti, clock) {
        return InvalidToken;
      }
      if claims.sub !in users || !users[claims.sub].active {
        return InvalidToken;
      }
      if users[claims.sub].resetRequired {
        return PasswordResetRequired;
      }
      lastActive := lastActive[jti := Entry(clock, clock + ACCESS_TTL)];
      o := Welcome(claims.sub);
    }

    method RequireAdmin(jti: Jti) returns (o: Outcome)
      ensures Did(TryAuthenticateAdmin(Rows(), RedisKeys(), clock, issued, jti), o)
    {
      if jti !in issued {
        return InvalidToken;
      }
      var claims := issued[jti];
      if claims.exp * SECOND <= clock {
        return TokenExpired;
      }
      if claims.aud != Admin || Live(blacklist, jti, clock) {
        return InvalidToken;
      }
      if claims.sub !in users || !users[claims.sub].active {
        return InvalidToken;
      }
      if !users[claims.sub].superuser {
        return AdminRequired;
      }
      o := Welcome(claims.sub);
    }

    predicate Grants(op: Op) {
      op.SignUp? || op.Issue? || op.Refresh? || op.AdminLogin? || op.AdminRefresh?
      || op.Authenticate? || op.AuthenticateAdmin?
    }

    method DispatchGrant(op: Op) returns (o: Outcome)
      requires Grants(op)
      modifies `users, `tokens, `sessions, `shadow, `lastActive
      ensures Did(old(Try(Rows(), RedisKeys(), clock, issued, op)), o)
    {
      match op
      case SignUp(user) =>
        if user in users {
          o := InvalidCredentials;
        } else {
          users := users[user := User(true, false, false, false)];
          o := Done;
        }
      case Issue(user, f) => o := IssueTokens(user, f);
      case Refresh(token, f) => o := Refresh(token, f);
      case AdminLogin(user, ok, f) => o := AdminLogin(user, ok, f);
      case AdminRefresh(token, f) => o := AdminRefresh(token, f);
      case Authenticate(jti) => o := GetCurrentUser(jti);
      case AuthenticateAdmin(jti) => o := RequireAdmin(jti);
    }

    method Dispatch(op: Op) returns (o: Outcome)
      modifies `users, `tokens, `sessions, `shadow, `blacklist, `lastActive
      ensures Did(old(Try(Rows(), RedisKeys(), clock, issued, op)), o)
    {
      if Grants(op) {
        o := DispatchGrant(op);
      } else {
        o := DispatchRevocation(op);
      }
    }

    method DispatchRevocation(op: Op) returns (o: Outcome)
      requires !Grants(op)
      modifies `users, `tokens, `sessions, `blacklist
      ensures Did(old(Try(Rows(), RedisKeys(), clock, issued, op)), o)
    {
      match op
      case Logout(token) =>
        DeleteTokens({token});
        o := Done;
      case AdminLogout(token, jti) => o := AdminLogout(token, jti);
      case ResetPassword(user) => o := ResetPassword(user);
      case ChangePassword(user, ok, current) =>
        if ok {
          o := RevokeAllOtherSessions(user, current);
          o := Done;
        } else {
          o := InvalidCredentials;
        }
      case RevokeSession(user, sid, currentJti) => o := RevokeSession(user, sid, currentJti);
      case RevokeOthers(user, currentJti) => o := RevokeAllOtherSessions(user, Some(currentJti));
      case RevokeMembers(members) => o := RevokeBulk(members);
      case ForcePasswordReset(user) => o := ForcePasswordReset(user);
      case SetMfa(user, enabled) => o := SetMfa(user, enabled);
      case EnforceMfa(actor, members) => o := EnableMfaEnforcement(actor, members);
    }

    /** The attempt mints names exactly when it answers with a pair, which it has just inserted. */
    static ghost predicate MintsItsPair(a: Attempt, byAdmin: bool, now: int) {
      && (a.mint.Some? <==> a.outcome.NewPair?)
      && (a.mint.Some? ==>
            var m := a.mint.value;
            && a.outcome == NewPair(m.f.token, m.f.jti)
            && m.f.token in a.db.tokens
            && m.claims == NewClaims(a.db.tokens[m.f.token].user, if byAdmin then Admin else Regular, now))
    }

    static lemma PairsAreMinted(w: World, rq: Request)
      ensures MintsItsPair(AttemptOf(w, rq), rq.op.AdminLogin? || rq.op.AdminRefresh?, w.now + rq.delay)
    {
    }

    /** Sign the new access token and remember the names drawn with it. */
    method Record(o: Outcome, byAdmin: bool, ghost a: Attempt)
      requires Did(a, o) && MintsItsPair(a, byAdmin, clock)
      modifies `issued, `minted, `sids, `adminTokens
      ensures minted == if a.mint.Some? then old(minted) + {a.mint.value.f.token} else old(minted)
      ensures sids == if a.mint.Some? then old(sids) + {a.mint.value.f.sid} else old(sids)
      ensures issued == if a.mint.Some? then old(issued)[a.mint.value.f.jti := a.mint.value.claims] else old(issued)
      ensures adminTokens == if a.mint.Some? && byAdmin
                             then old(adminTokens) + {a.mint.value.f.token} else old(adminTokens)
    {
      if o.NewPair? {
        issued := issued[o.jti := NewClaims(tokens[o.token].user, if byAdmin then Admin else Regular, clock)];
        minted := minted + {o.token};
        sids := sids + {a.mint.value.f.sid};
        adminTokens := if byAdmin then adminTokens + {o.token} else adminTokens;
      }
    }

    /** Run the request after its delay. */
    method Act(rq: Request, ghost a: Attempt) returns (o: Outcome)
      requires a == AttemptOf(State(), rq)
      modifies `users, `tokens, `sessions, `shadow, `blacklist, `lastActive, `clock
      ensures Did(a, o) && clock == old(clock) + rq.delay
    {
      clock := clock + rq.delay;
      o := Dispatch(rq.op);
    }

    /** Run the request after its delay and record the names it drew. */
    method Perform(rq: Request, ghost a: Attempt) returns (o: Outcome)
      requires a == AttemptOf(State(), rq)
      modifies this
      ensures Did(a, o) && clock == old(clock) + rq.delay
      ensures minted == if a.mint.Some? then old(minted) + {a.mint.value.f.token} else old(minted)
      ensures sids == if a.mint.Some? then old(sids) + {a.mint.value.f.sid} else old(sids)
      ensures issued == if a.mint.Some? then old(issued)[a.mint.value.f.jti := a.mint.value.claims] else old(issued)
      ensures adminTokens == if a.mint.Some? && (rq.op.AdminLogin? || rq.op.AdminRefresh?)
                             then old(adminTokens) + {a.mint.value.f.token} else old(adminTokens)
    {
      PairsAreMinted(State(), rq);
      o := Act(rq, a);
      Record(o, rq.op.AdminLogin? || rq.op.AdminRefresh?, a);
    }

    /** One request: perform it, then commit the tables or restore them. Redis is never restored. */
    method Handle(rq: Request) returns (answer: Outcome)
      modifies this
      ensures State() == Step(old(State()), rq)
      ensures answer == Answer(old(State()), rq)
    {
      var before := Rows();
      ghost var a := AttemptOf(State(), rq);
      answer := Perform(rq, a);
      if !answer.Raised() && !rq.commits {
        answer := ServerError;
      }
      if answer.Raised() {
        users, tokens, sessions := before.users, before.tokens, before.sessions;
      }
    }
  }
}
