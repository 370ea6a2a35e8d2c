/**
 What the session requests leave undone, stated exactly: deletes that a raise takes back, and the
 access tokens that outlive a bulk revocation.
 */
module SessionLimits {
  import opened Clock
  import opened Redis
  import opened Wrappers
  import opened SessionModel
  import opened SessionLedger
  import SessionRuns

  // ---- Deletes before a raise ----

  /**
   The full logout on replay is undone by the rollback of the request that detects it: time passes
   and nothing else happens, so the victim is logged out iff no token of theirs was left anyway.
   */
  lemma ReplayLogoutIsUndone(w: World, token: Token, f: Fresh, delay: nat, commits: bool)
    requires Answer(w, Request(Refresh(token, f), delay, commits)) == ReplayDetected
    ensures var rq := Request(Refresh(token, f), delay, commits);
            var victim := w.keys.shadow[token].value;
            && TokensOf(AttemptOf(w, rq).db, {victim}) == {}
            && Step(w, rq) == w.(now := w.now + delay)
            && (TokensOf(Step(w, rq).db, {victim}) == {} <==> TokensOf(w.db, {victim}) == {})
  {
  }

  /** After a rotation, replaying the spent token is detected, and its successor is still exchanged afterwards. */
  lemma ReplaySparesSuccessor(w: World, rotation: Request, k: Token, g: Fresh, f: Fresh, h: Fresh,
                              wait: nat, later: nat)
    requires Ledger(w) && Admissible(w, rotation) && rotation.op == Refresh(k, g) && Answer(w, rotation).NewPair?
    requires wait < REFRESH_TTL && wait + later <= REFRESH_TTL
    ensures var v := Step(w, rotation);
            var replay := Request(Refresh(k, f), wait, true);
            && Answer(v, replay) == ReplayDetected
            && Answer(Step(v, replay), Request(Refresh(g.token, h), later, true)) == NewPair(h.token, h.jti)
  {
    var v := Step(w, rotation);
    SessionRuns.RetiringLeavesShadow(w, rotation, k);
    SessionRuns.RetiredAnswers(v, k, w.db.tokens[k].user, v.now, f, wait, true);
    ReplayLogoutIsUndone(v, k, f, wait, true);
    RotationInserts(w, rotation, k, g);
    UnexpiredIsExchanged(v.(now := v.now + wait), g.token, h, later);
  }

  lemma RotationInserts(w: World, rotation: Request, k: Token, g: Fresh)
    requires rotation.op == Refresh(k, g) && Answer(w, rotation).NewPair?
    ensures var v := Step(w, rotation);
            && g.token in v.db.tokens && v.db.tokens[g.token].expiresAt == v.now + REFRESH_TTL
            && v.db.tokens[g.token].user in v.db.users
  {
  }

  lemma UnexpiredIsExchanged(v: World, token: Token, h: Fresh, delay: nat)
    requires token in v.db.tokens && v.db.tokens[token].user in v.db.users
    requires v.now + delay <= v.db.tokens[token].expiresAt
    ensures Answer(v, Request(Refresh(token, h), delay, true)) == NewPair(h.token, h.jti)
  {
  }

  /** An expired token is deleted and the deletion taken back: its row stays, whichever endpoint it was shown to. */
  lemma ExpiredTokenStays(w: World, rq: Request)
    requires rq.op.Refresh? || rq.op.AdminRefresh?
    requires Answer(w, rq) == TokenExpired
    ensures rq.op.token in Step(w, rq).db.tokens && rq.op.token !in AttemptOf(w, rq).db.tokens
    ensures Step(w, rq) == w.(now := w.now + rq.delay)
  {
  }

  // ---- Access tokens that survive ----

  ghost predicate OnRecord(db: Db, members: set<UserId>, jti: Jti) {
    exists s :: s in db.sessions && db.sessions[s].user in members && db.sessions[s].jti == jti
  }

  lemma OnRecordIsCondemned(db: Db, members: set<UserId>, jti: Jti)
    ensures OnRecord(db, members, jti) <==> jti in JtisOf(db, SessionsOf(db, members))
  {
    if OnRecord(db, members, jti) {
      var s :| s in db.sessions && db.sessions[s].user in members && db.sessions[s].jti == jti;
      assert s in SessionsOf(db, members);
    }
  }

  /** What a bulk revocation changes for the gate: the blacklist entry of the tokens on record. */
  lemma RevocationAtTheGate(w: World, members: set<UserId>, delay: nat, jti: Jti)
    ensures var v := Step(w, Request(RevokeMembers(members), delay, true));
            && v.db.users == w.db.users && v.issued == w.issued && v.now == w.now + delay
            && (OnRecord(w.db, members, jti) ==>
                  jti in v.keys.blacklist && v.keys.blacklist[jti].expiry == v.now + ACCESS_TTL)
            && (!OnRecord(w.db, members, jti) ==>
                  (jti in v.keys.blacklist <==> jti in w.keys.blacklist)
                  && (jti in w.keys.blacklist ==> v.keys.blacklist[jti] == w.keys.blacklist[jti]))
  {
    SessionRuns.RevokeMembersStep(w, members, delay);
    OnRecordIsCondemned(w.db, members, jti);
  }

  /**
   A bulk revocation stops exactly the access tokens it finds in the members' session rows: any
   other one is welcome afterwards iff it would have been welcome at that time without it.
   */
  lemma SurvivesRevocationIff(w: World, members: set<UserId>, delay: nat, jti: Jti, later: nat)
    requires Ledger(w)
    ensures var revoke := Request(RevokeMembers(members), delay, true);
            var without := Answer(w, Request(Authenticate(jti), delay + later, true));
            var after := Answer(Step(w, revoke), Request(Authenticate(jti), later, true));
            && (after.Welcome? <==> without.Welcome? && !OnRecord(w.db, members, jti))
            && (after.Welcome? ==> after == without)
  {
    assert jti in w.issued ==> w.issued[jti].exp * SECOND <= w.now + ACCESS_TTL;
    RevocationAtTheGate(w, members, delay, jti);
    var v := Step(w, Request(RevokeMembers(members), delay, true));
    GateCompared(w, v, delay, jti, later, OnRecord(w.db, members, jti));
  }

  lemma GateCompared(w: World, v: World, delay: nat, jti: Jti, later: nat, stopped: bool)
    requires v.db.users == w.db.users && v.issued == w.issued && v.now == w.now + delay
    requires jti in w.issued ==> w.issued[jti].exp * SECOND <= v.now + ACCESS_TTL
    requires stopped ==> jti in v.keys.blacklist && v.keys.blacklist[jti].expiry == v.now + ACCESS_TTL
    requires !stopped ==> (jti in v.keys.blacklist <==> jti in w.keys.blacklist)
    requires !stopped && jti in w.keys.blacklist ==> v.keys.blacklist[jti] == w.keys.blacklist[jti]
    ensures var without := Answer(w, Request(Authenticate(jti), delay + later, true));
            var after := Answer(v, Request(Authenticate(jti), later, true));
            (after.Welcome? <==> without.Welcome? && !stopped) && (after.Welcome? ==> after == without)
  {
  }

  lemma UnrecordedSurvives(v: World, members: set<UserId>, jti: Jti, later: nat)
    requires !OnRecord(v.db, members, jti) && Answer(v, Request(Authenticate(jti), later, true)).Welcome?
    ensures Answer(Step(v, Request(RevokeMembers(members), 0, true)), Request(Authenticate(jti), later, true)).Welcome?
  {
    RevocationAtTheGate(v, members, 0, jti);
  }

  /** Rotation takes an access token off the record, so a bulk revocation right after it does not stop the old one. */
  lemma RotatedTokenSurvivesRevocation(w: World, sid: SessionId, g: Fresh, members: set<UserId>, later: nat)
    requires Ledger(w) && IsFresh(w, g) && sid in w.db.sessions
    requires w.now <= w.db.tokens[w.db.sessions[sid].token].expiresAt
    requires Answer(w, Request(Authenticate(w.db.sessions[sid].jti), later, true)).Welcome?
    ensures var row := w.db.sessions[sid];
            var v := Step(w, Request(Refresh(row.token, g), 0, true));
            var revoked := Step(v, Request(RevokeMembers(members), 0, true));
            Answer(revoked, Request(Authenticate(row.jti), later, true)).Welcome?
  {
    var row := w.db.sessions[sid];
    var v := Step(w, Request(Refresh(row.token, g), 0, true));
    RotationForgets(w, sid, g);
    SameWelcome(w, v, row.jti, later);
    UnrecordedSurvives(v, members, row.jti, later);
  }

  /** The gate reads accounts, the blacklist and the presented token only. */
  lemma SameWelcome(w: World, v: World, jti: Jti, delay: nat)
    requires v.db.users == w.db.users && v.keys.blacklist == w.keys.blacklist && v.now == w.now
    requires jti in w.issued && jti in v.issued && v.issued[jti] == w.issued[jti]
    ensures Answer(v, Request(Authenticate(jti), delay, true)) == Answer(w, Request(Authenticate(jti), delay, true))
  {
  }

  lemma RotationForgets(w: World, sid: SessionId, g: Fresh)
    requires Ledger(w) && IsFresh(w, g) && sid in w.db.sessions
    requires w.now <= w.db.tokens[w.db.sessions[sid].token].expiresAt
    ensures var v := Step(w, Request(Refresh(w.db.sessions[sid].token, g), 0, true));
            var jti := w.db.sessions[sid].jti;
            && (forall s :: s in v.db.sessions ==> v.db.sessions[s].jti != jti)
            && v.db.users == w.db.users && v.keys.blacklist == w.keys.blacklist && v.now == w.now
            && jti in w.issued && jti in v.issued && v.issued[jti] == w.issued[jti]
  {
    var row := w.db.sessions[sid];
    var dropped := AddToken(DropTokens(w.db, {row.token}), g.token, row.user, w.now);
    assert !HasSession(dropped, row.token);
    assert Step(w, Request(Refresh(row.token, g), 0, true)).db == AddSession(dropped, g, row.user);
  }

  // ---- The admin gate ----

  /** Sessions record access tokens of the user endpoints only. */
  ghost predicate RecordsRegular(w: World) {
    forall s :: s in w.db.sessions ==>
      w.db.sessions[s].jti in w.issued && w.issued[w.db.sessions[s].jti].aud == Regular
  }

  /** A session row a request leaves was there before, or records the regular access token the request minted. */
  lemma SessionOrigin(w: World, rq: Request, s: SessionId)
    requires s in AttemptOf(w, rq).db.sessions
    ensures var a := AttemptOf(w, rq);
            || (s in w.db.sessions && a.db.sessions[s] == w.db.sessions[s])
            || (a.mint.Some? && a.mint.value.claims.aud == Regular && a.db.sessions[s].jti == a.mint.value.f.jti)
  {
    match rq.op
    case Issue(_, _) =>
    case Refresh(_, _) =>
    case AdminLogin(_, _, _) =>
    case AdminRefresh(_, _) =>
    case ChangePassword(_, _, _) =>
    case RevokeOthers(_, _) =>
    case RevokeSession(_, _, _) =>
    case _ => OthersAddNoSession(w, rq, s);
  }

  lemma OthersAddNoSession(w: World, rq: Request, s: SessionId)
    requires rq.op.SignUp? || rq.op.Logout? || rq.op.AdminLogout? || rq.op.ResetPassword? || rq.op.RevokeMembers?
          || rq.op.ForcePasswordReset? || rq.op.SetMfa? || rq.op.EnforceMfa?
          || rq.op.Authenticate? || rq.op.AuthenticateAdmin?
    requires s in AttemptOf(w, rq).db.sessions
    ensures s in w.db.sessions && AttemptOf(w, rq).db.sessions[s] == w.db.sessions[s]
  {
    match rq.op
    case RevokeMembers(_) =>
    case ForcePasswordReset(_) =>
    case ResetPassword(_) =>
    case EnforceMfa(_, _) =>
    case _ =>
  }

  lemma StepKeepsRegular(w: World, rq: Request)
    requires RecordsRegular(w) && Admissible(w, rq)
    ensures RecordsRegular(Step(w, rq))
  {
    var v := Step(w, rq);
    forall s | s in v.db.sessions
      ensures v.db.sessions[s].jti in v.issued && v.issued[v.db.sessions[s].jti].aud == Regular
    {
      if Answer(w, rq).Raised() {
        SessionRuns.IssuedTokensStay(w, rq, w.db.sessions[s].jti);
      } else {
        SessionOrigin(w, rq, s);
        if s in w.db.sessions && v.db.sessions[s] == w.db.sessions[s] {
          SessionRuns.IssuedTokensStay(w, rq, w.db.sessions[s].jti);
        }
      }
    }
  }

  lemma {:induction false} RegularInEveryRun(w: World, rqs: seq<Request>)
    requires RecordsRegular(w) && AdmissibleRun(w, rqs)
    ensures RecordsRegular(Run(w, rqs))
    decreases rqs
  {
    if rqs != [] {
      StepKeepsRegular(w, rqs[0]);
      RegularInEveryRun(Step(w, rqs[0]), rqs[1..]);
    }
  }

  /** An admin access token of an active superuser that was never blacklisted. */
  ghost predicate AdminToken(w: World, jti: Jti, user: UserId) {
    && jti in w.issued && w.issued[jti].aud == Admin && w.issued[jti].sub == user
    && user in w.db.users && w.db.users[user].active && w.db.users[user].superuser
    && jti !in w.keys.blacklist
  }

  /** The request is an admin logout that presents this token. */
  predicate LogsOut(rq: Request, jti: Jti) {
    rq.op.AdminLogout? && rq.op.jti == jti
  }

  /** Of all requests only its own logout condemns an admin token. */
  lemma AdminTokenStep(w: World, rq: Request, jti: Jti, user: UserId)
    requires RecordsRegular(w) && Admissible(w, rq) && AdminToken(w, jti, user)
    ensures jti in Step(w, rq).issued && Step(w, rq).issued[jti] == w.issued[jti]
    ensures jti in SessionRuns.Condemned(w, rq) <==> LogsOut(rq, jti) && w.now + rq.delay < w.issued[jti].exp * SECOND
    ensures jti !in SessionRuns.Condemned(w, rq) ==> AdminToken(Step(w, rq), jti, user)
  {
    SessionRuns.IssuedTokensStay(w, rq, jti);
    CondemnedAreRegular(w, rq, jti, user);
    SessionRuns.BlacklistIsExact(w, rq);
    StandingStays(w, rq, user);
  }

  lemma CondemnedAreRegular(w: World, rq: Request, jti: Jti, user: UserId)
    requires RecordsRegular(w) && AdminToken(w, jti, user)
    ensures jti in SessionRuns.Condemned(w, rq) <==> LogsOut(rq, jti) && w.now + rq.delay < w.issued[jti].exp * SECOND
  {
  }

  lemma StandingStays(w: World, rq: Request, user: UserId)
    requires user in w.db.users
    ensures var users := Step(w, rq).db.users;
            && user in users && users[user].active == w.db.users[user].active
            && users[user].superuser == w.db.users[user].superuser
  {
    match rq.op
    case SignUp(_) =>
    case SetMfa(_, _) =>
    case ForcePasswordReset(_) =>
    case ResetPassword(_) =>
    case _ => assert AttemptOf(w, rq).db.users == w.db.users;
  }

  lemma {:induction false} AdminTokenLives(w: World, rqs: seq<Request>, jti: Jti, user: UserId)
    requires RecordsRegular(w) && AdmissibleRun(w, rqs) && AdminToken(w, jti, user)
    requires forall i :: 0 <= i < |rqs| ==> !LogsOut(rqs[i], jti)
    ensures AdminToken(Run(w, rqs), jti, user) && Run(w, rqs).issued[jti] == w.issued[jti]
    decreases rqs
  {
    if rqs != [] {
      AdminTokenStep(w, rqs[0], jti, user);
      StepKeepsRegular(w, rqs[0]);
      AdminTokenLives(Step(w, rqs[0]), rqs[1..], jti, user);
    }
  }

  lemma AdminTokenIsWelcomeIff(w: World, jti: Jti, user: UserId, delay: nat)
    requires AdminToken(w, jti, user)
    ensures Answer(w, Request(AuthenticateAdmin(jti), delay, true)) == Welcome(user) <==>
      w.now + delay < w.issued[jti].exp * SECOND
  {
  }

  lemma {:induction false} LoggedOutIsRefused(w: World, rqs: seq<Request>, i: nat, jti: Jti, user: UserId, delay: nat)
    requires Ledger(w) && RecordsRegular(w) && AdmissibleRun(w, rqs) && AdminToken(w, jti, user)
    requires i < |rqs| && LogsOut(rqs[i], jti) && forall k :: 0 <= k < i ==> !LogsOut(rqs[k], jti)
    ensures !Answer(Run(w, rqs), Request(AuthenticateAdmin(jti), delay, true)).Welcome?
  {
    SessionRuns.StateBefore(w, rqs, i);
    SessionRuns.AdmittedBefore(w, rqs, i);
    AdminTokenLives(w, rqs[..i], jti, user);
    RegularInEveryRun(w, rqs[..i]);
    var before := Run(w, rqs[..i]);
    AdminTokenStep(before, rqs[i], jti, user);
    SessionRuns.Between(w, rqs, i, |rqs|);
    assert rqs[..|rqs|] == rqs;
    if jti !in SessionRuns.Condemned(before, rqs[i]) {
      ExpiredStaysRefused(Step(before, rqs[i]), rqs[i + 1..|rqs|], jti, delay);
      return;
    }
    assert before.issued[jti].exp * SECOND <= before.now + ACCESS_TTL;
    SessionRuns.OutlivedStep(before, rqs[i], jti);
    SessionRuns.OutlivedForever(Step(before, rqs[i]), rqs[i + 1..|rqs|], jti);
    OutlivedIsRefusedByAdmin(Run(w, rqs), jti, delay);
  }

  lemma {:induction false} ExpiredStaysRefused(w: World, rqs: seq<Request>, jti: Jti, delay: nat)
    requires AdmissibleRun(w, rqs) && jti in w.issued && w.issued[jti].exp * SECOND <= w.now
    ensures !Answer(Run(w, rqs), Request(AuthenticateAdmin(jti), delay, true)).Welcome?
    decreases rqs
  {
    if rqs != [] {
      SessionRuns.IssuedTokensStay(w, rqs[0], jti);
      ExpiredStaysRefused(Step(w, rqs[0]), rqs[1..], jti, delay);
    }
  }

  lemma OutlivedIsRefusedByAdmin(w: World, jti: Jti, delay: nat)
    requires SessionRuns.Outlived(w, jti)
    ensures !Answer(w, Request(AuthenticateAdmin(jti), delay, true)).Welcome?
  {
  }

  ghost predicate EverLoggedOut(rqs: seq<Request>, jti: Jti) {
    exists i :: 0 <= i < |rqs| && LogsOut(rqs[i], jti)
  }

  /**
   What stops an admin access token: in every run it is welcome at the admin gate iff it has not
   expired and no admin logout presented it. Forced resets, suspensions, payment failures,
   password changes and session revocations never do.
   */
  lemma AdminTokenStopsIff(w: World, rqs: seq<Request>, jti: Jti, user: UserId, delay: nat)
    requires Ledger(w) && RecordsRegular(w) && AdmissibleRun(w, rqs) && AdminToken(w, jti, user)
    ensures Answer(Run(w, rqs), Request(AuthenticateAdmin(jti), delay, true)) == Welcome(user) <==>
      Run(w, rqs).now + delay < w.issued[jti].exp * SECOND && !EverLoggedOut(rqs, jti)
  {
    if EverLoggedOut(rqs, jti) {
      var i := FirstLogout(rqs, jti);
      LoggedOutIsRefused(w, rqs, i, jti, user, delay);
    } else {
      AdminTokenLives(w, rqs, jti, user);
      AdminTokenIsWelcomeIff(Run(w, rqs), jti, user, delay);
    }
  }

  lemma {:induction false} FirstLogout(rqs: seq<Request>, jti: Jti) returns (i: nat)
    requires EverLoggedOut(rqs, jti)
    ensures i < |rqs| && LogsOut(rqs[i], jti) && forall k :: 0 <= k < i ==> !LogsOut(rqs[k], jti)
    decreases rqs
  {
    if LogsOut(rqs[0], jti) {
      i := 0;
    } else {
      i := FirstLogout(rqs[1..], jti);
      i := i + 1;
      assert forall k :: 1 <= k < i ==> rqs[k] == rqs[1..][k - 1];
    }
  }

  /** So a forced reset of a superuser shuts the user endpoints and leaves the admin token as it was. */
  lemma ForcedResetSparesAdminToken(w: World, jti: Jti, user: UserId, reset: nat, delay: nat)
    requires Ledger(w) && RecordsRegular(w) && AdminToken(w, jti, user)
    requires w.now + reset + delay < w.issued[jti].exp * SECOND
    ensures var v := Step(w, Request(ForcePasswordReset(user), reset, true));
            && v.db.users[user].resetRequired
            && Answer(v, Request(AuthenticateAdmin(jti), delay, true)) == Welcome(user)
  {
    var rq := Request(ForcePasswordReset(user), reset, true);
    SessionRuns.ResetFlagIff(w, rq, user);
    AdminTokenStep(w, rq, jti, user);
    AdminTokenIsWelcomeIff(Step(w, rq), jti, user, delay);
  }
}
