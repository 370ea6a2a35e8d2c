/**
 What each session request answers and does, said of rows, keys and tokens one by one: who gets in,
 whose pair a request mints, and which rows it leaves.
 */
module SessionAnswers {
  import opened Clock
  import opened Redis
  import opened Wrappers
  import opened SessionModel
  import opened SessionLedger
  import SessionRuns
  import SessionLimits

  // ---- Who passes the user gate ----

  /** An access token of the user endpoints that belongs to an active account and was never blacklisted. */
  ghost predicate RegularToken(w: World, jti: Jti, user: UserId) {
    && jti in w.issued && w.issued[jti].aud == Regular && w.issued[jti].sub == user
    && user in w.db.users && w.db.users[user].active
    && jti !in w.keys.blacklist
  }

  /** At one moment: in iff it has not expired and no forced reset is open, which has an answer of its own. */
  lemma GateIff(w: World, jti: Jti, user: UserId, delay: nat)
    requires RegularToken(w, jti, user)
    ensures var answer := Answer(w, Request(Authenticate(jti), delay, true));
            var expired := w.issued[jti].exp * SECOND <= w.now + delay;
            && (answer == Welcome(user) <==> !expired && !w.db.users[user].resetRequired)
            && (answer == TokenExpired <==> expired)
            && (answer == PasswordResetRequired <==> !expired && w.db.users[user].resetRequired)
  {
  }

  /** Whoever passes the gate holds an unexpired token of the right audience, not blacklisted, of an active account. */
  lemma GateAdmitsOnly(w: World, jti: Jti, user: UserId, delay: nat)
    requires Answer(w, Request(Authenticate(jti), delay, true)) == Welcome(user)
    ensures jti in w.issued && w.issued[jti].aud == Regular && w.issued[jti].sub == user
    ensures w.now + delay < w.issued[jti].exp * SECOND && !Live(w.keys.blacklist, jti, w.now + delay)
    ensures user in w.db.users && w.db.users[user].active && !w.db.users[user].resetRequired
  {
  }

  lemma AdminGateAdmitsOnly(w: World, jti: Jti, user: UserId, delay: nat)
    requires Answer(w, Request(AuthenticateAdmin(jti), delay, true)) == Welcome(user)
    ensures jti in w.issued && w.issued[jti].aud == Admin && w.issued[jti].sub == user
    ensures w.now + delay < w.issued[jti].exp * SECOND && !Live(w.keys.blacklist, jti, w.now + delay)
    ensures user in w.db.users && w.db.users[user].active && w.db.users[user].superuser
  {
  }

  lemma RegularTokenStep(w: World, rq: Request, jti: Jti, user: UserId)
    requires Admissible(w, rq) && RegularToken(w, jti, user)
    ensures jti in Step(w, rq).issued && Step(w, rq).issued[jti] == w.issued[jti]
    ensures jti !in SessionRuns.Condemned(w, rq) ==> RegularToken(Step(w, rq), jti, user)
  {
    SessionRuns.IssuedTokensStay(w, rq, jti);
    SessionRuns.BlacklistIsExact(w, rq);
    SessionLimits.StandingStays(w, rq, user);
  }

  /** Some request of the run handed this access token to `blacklist_jti`. */
  ghost predicate EverCondemned(w: World, rqs: seq<Request>, jti: Jti)
    decreases rqs
  {
    rqs != [] && (jti in SessionRuns.Condemned(w, rqs[0]) || EverCondemned(Step(w, rqs[0]), rqs[1..], jti))
  }

  lemma {:induction false} UsersStay(w: World, rqs: seq<Request>, user: UserId)
    requires user in w.db.users
    ensures user in Run(w, rqs).db.users
    decreases rqs
  {
    if rqs != [] {
      SessionLimits.StandingStays(w, rqs[0], user);
      UsersStay(Step(w, rqs[0]), rqs[1..], user);
    }
  }

  /**
   What keeps a user in: in every run, an access token of an active account passes the user gate
   if and only if it has not expired, no request of the run condemned it, and no forced reset of that
   account is open at that moment.
   */
  lemma {:induction false} AccessTokenWelcomeIff(w: World, rqs: seq<Request>, jti: Jti, user: UserId, delay: nat)
    requires Ledger(w) && AdmissibleRun(w, rqs) && RegularToken(w, jti, user)
    ensures user in Run(w, rqs).db.users
    ensures Answer(Run(w, rqs), Request(Authenticate(jti), delay, true)) == Welcome(user) <==>
      (Run(w, rqs).now + delay < w.issued[jti].exp * SECOND && !EverCondemned(w, rqs, jti)
       && !Run(w, rqs).db.users[user].resetRequired)
    decreases rqs
  {
    UsersStay(w, rqs, user);
    if rqs == [] {
      GateIff(w, jti, user, delay);
    } else {
      RegularTokenStep(w, rqs[0], jti, user);
      StepKeepsLedger(w, rqs[0]);
      if jti in SessionRuns.Condemned(w, rqs[0]) {
        CondemnedStaysRefused(w, rqs, jti, user, delay);
      } else {
        AccessTokenWelcomeIff(Step(w, rqs[0]), rqs[1..], jti, user, delay);
      }
    }
  }

  lemma CondemnedStaysRefused(w: World, rqs: seq<Request>, jti: Jti, user: UserId, delay: nat)
    requires Ledger(w) && AdmissibleRun(w, rqs) && rqs != [] && jti in w.issued
    requires jti in SessionRuns.Condemned(w, rqs[0])
    ensures Answer(Run(w, rqs), Request(Authenticate(jti), delay, true)) != Welcome(user)
  {
    StepKeepsLedger(w, rqs[0]);
    assert w.issued[jti].exp * SECOND <= w.now + ACCESS_TTL;
    SessionRuns.OutlivedStep(w, rqs[0], jti);
    SessionRuns.OutlivedForever(Step(w, rqs[0]), rqs[1..], jti);
    SessionRuns.OutlivedIsRefused(Run(w, rqs), jti, delay, true);
  }

  // ---- Only issued tokens are ever blacklisted ----

  ghost predicate BlacklistIssued(w: World) {
    forall j :: j in w.keys.blacklist ==> j in w.issued
  }

  lemma CondemnedAreIssued(w: World, rq: Request, jti: Jti)
    requires Ledger(w) && jti in SessionRuns.Condemned(w, rq)
    ensures jti in w.issued
  {
  }

  lemma StepKeepsBlacklistIssued(w: World, rq: Request)
    requires Ledger(w) && Admissible(w, rq) && BlacklistIssued(w)
    ensures BlacklistIssued(Step(w, rq))
  {
    SessionRuns.BlacklistIsExact(w, rq);
    forall j | j in Step(w, rq).keys.blacklist
      ensures j in Step(w, rq).issued
    {
      if j in SessionRuns.Condemned(w, rq) {
        CondemnedAreIssued(w, rq, j);
      }
      SessionRuns.IssuedTokensStay(w, rq, j);
    }
  }

  lemma {:induction false} BlacklistIssuedInEveryRun(w: World, rqs: seq<Request>)
    requires Ledger(w) && AdmissibleRun(w, rqs) && BlacklistIssued(w)
    ensures BlacklistIssued(Run(w, rqs))
    decreases rqs
  {
    if rqs != [] {
      StepKeepsLedger(w, rqs[0]);
      StepKeepsBlacklistIssued(w, rqs[0]);
      BlacklistIssuedInEveryRun(Step(w, rqs[0]), rqs[1..]);
    }
  }

  // ---- Whose pair a request mints ----

  predicate Mints(op: Op) {
    op.Issue? || op.Refresh? || op.AdminLogin? || op.AdminRefresh?
  }

  predicate ByAdmin(op: Op) {
    op.AdminLogin? || op.AdminRefresh?
  }

  /** The account a pair must belong to: the one logging in, or the one the exchanged token was handed out to. */
  ghost function Owner(w: World, op: Op): UserId
    requires Mints(op) && (op.Refresh? || op.AdminRefresh? ==> op.token in w.db.tokens)
  {
    match op
    case Issue(user, _) => user
    case AdminLogin(user, _, _) => user
    case Refresh(token, _) => w.db.tokens[token].user
    case AdminRefresh(token, _) => w.db.tokens[token].user
  }

  ghost predicate Unexpired(w: World, token: Token, now: int) {
    token in w.db.tokens && now <= w.db.tokens[token].expiresAt
  }

  /** Which requests hand out a pair: a login of a known account, a superuser's password, an unexpired token. */
  lemma NewPairIff(w: World, rq: Request)
    requires Ledger(w)
    ensures var now := w.now + rq.delay;
            var entitled := match rq.op
              case Issue(user, _) => user in w.db.users
              case AdminLogin(user, passwordOk, _) => user in w.db.users && w.db.users[user].superuser && passwordOk
              case Refresh(token, _) => Unexpired(w, token, now)
              case AdminRefresh(token, _) => Unexpired(w, token, now)
              case _ => false;
            Answer(w, rq).NewPair? <==> rq.commits && entitled
  {
  }

  /** What a refused exchange answers. */
  lemma RefusedExchange(w: World, rq: Request)
    requires Ledger(w) && (rq.op.Refresh? || rq.op.AdminRefresh?)
    ensures var now := w.now + rq.delay;
            var replayed := rq.op.Refresh? && rq.op.token !in w.db.tokens && Live(w.keys.shadow, rq.op.token, now);
            && (Answer(w, rq) == ReplayDetected <==> replayed)
            && (Answer(w, rq) == InvalidToken <==> rq.op.token !in w.db.tokens && !replayed)
            && (Answer(w, rq) == TokenExpired <==> rq.op.token in w.db.tokens && !Unexpired(w, rq.op.token, now))
  {
  }

  /**
   Both halves of a new pair belong to that account, for the lifetimes promised, and on the user path a
   session of that account records the two together.
   */
  lemma PairBelongs(w: World, rq: Request)
    requires Ledger(w) && Admissible(w, rq) && Answer(w, rq).NewPair?
    ensures Mints(rq.op) && (rq.op.Refresh? || rq.op.AdminRefresh? ==> rq.op.token in w.db.tokens)
    ensures var v := Step(w, rq);
            var pair := Answer(w, rq);
            var owner := Owner(w, rq.op);
            && pair.token !in w.db.tokens && pair.jti !in w.issued
            && pair.token in v.db.tokens && v.db.tokens[pair.token] == RefreshRow(owner, v.now + 7 * DAY)
            && pair.jti in v.issued && v.issued[pair.jti].sub == owner
            && v.issued[pair.jti].aud == (if ByAdmin(rq.op) then Admin else Regular)
            && v.now + 24 * HOUR - SECOND < v.issued[pair.jti].exp * SECOND <= v.now + 24 * HOUR
            && (!ByAdmin(rq.op) ==>
                  exists s :: s in v.db.sessions && v.db.sessions[s] == SessionRow(pair.token, owner, pair.jti))
  {
    var v := Step(w, rq);
    var pair := Answer(w, rq);
    ExpiryIsClose(v.now + ACCESS_TTL);
    if rq.op.Refresh? {
      RotationRecords(w, rq);
    } else if rq.op.Issue? {
      assert v.db.sessions[rq.op.f.sid] == SessionRow(pair.token, rq.op.user, pair.jti);
    }
  }

  lemma ExpiryIsClose(us: int)
    ensures us - SECOND < us / SECOND * SECOND <= us
  {
  }

  lemma RotationRecords(w: World, rq: Request)
    requires Ledger(w) && Admissible(w, rq) && rq.op.Refresh? && Answer(w, rq).NewPair?
    ensures rq.op.token in w.db.tokens
    ensures var v := Step(w, rq);
            var row := SessionRow(rq.op.f.token, w.db.tokens[rq.op.token].user, rq.op.f.jti);
            exists s :: s in v.db.sessions && v.db.sessions[s] == row
  {
    var user := w.db.tokens[rq.op.token].user;
    var dropped := AddToken(DropTokens(w.db, {rq.op.token}), rq.op.f.token, user, w.now + rq.delay);
    NoSessionAfterDrop(w.db, rq.op.token);
    assert !HasSession(dropped, rq.op.token);
    assert Step(w, rq).db.sessions[rq.op.f.sid] == SessionRow(rq.op.f.token, user, rq.op.f.jti);
  }

  /** A pair just handed out on the user path works at once: its access token, for a day less one second. */
  lemma NewPairWorks(w: World, rq: Request, delay: nat)
    requires Ledger(w) && BlacklistIssued(w) && Admissible(w, rq) && Answer(w, rq).NewPair? && !ByAdmin(rq.op)
    requires delay <= 24 * HOUR - SECOND
    ensures rq.op.Issue? || (rq.op.Refresh? && rq.op.token in w.db.tokens)
    ensures var v := Step(w, rq);
            var owner := Owner(w, rq.op);
            && owner in w.db.users && owner in v.db.users && v.db.users[owner] == w.db.users[owner]
            && (w.db.users[owner].active ==>
                  && RegularToken(v, Answer(w, rq).jti, owner)
                  && (Answer(v, Request(Authenticate(Answer(w, rq).jti), delay, true)) == Welcome(owner) <==>
                        !w.db.users[owner].resetRequired))
  {
    PairBelongs(w, rq);
    var v := Step(w, rq);
    var owner := Owner(w, rq.op);
    MintingTouchesNoAccount(w, rq);
    if w.db.users[owner].active {
      assert v.keys.blacklist == w.keys.blacklist;
      GateIff(v, Answer(w, rq).jti, owner, delay);
    }
  }

  lemma MintingTouchesNoAccount(w: World, rq: Request)
    requires Mints(rq.op)
    ensures Step(w, rq).db.users == w.db.users && Step(w, rq).keys.blacklist == w.keys.blacklist
    ensures Step(w, rq).keys.lastActive == w.keys.lastActive
  {
  }

  // ---- Which rows a request leaves ----

  function HeldBy(db: Db, user: UserId): set<Token> {
    set t | t in db.tokens && db.tokens[t].user == user
  }

  /** Exactly the tokens in `gone` disappeared, and exactly the sessions that pointed at them. */
  ghost predicate LosesExactly(before: Db, after: Db, gone: set<Token>) {
    && (forall t :: t in after.tokens <==> t in before.tokens && t !in gone)
    && (forall t :: t in after.tokens ==> after.tokens[t] == before.tokens[t])
    && (forall s :: s in after.sessions <==> s in before.sessions && before.sessions[s].token !in gone)
    && (forall s :: s in after.sessions ==> after.sessions[s] == before.sessions[s])
  }

  /** `after` has besides one more token, and at most one more session. */
  ghost predicate GainsOnly(before: Db, after: Db, token: Token, sid: SessionId) {
    && token in after.tokens && (forall t :: t in before.tokens && t != token ==> t in after.tokens)
    && (forall t :: t in after.tokens && t != token ==> t in before.tokens && after.tokens[t] == before.tokens[t])
    && (forall s :: s in before.sessions ==> s in after.sessions && after.sessions[s] == before.sessions[s])
    && (forall s :: s in after.sessions && s != sid ==> s in before.sessions)
  }

  /** A login displaces exactly the account's tokens, a rotation exactly the exchanged one, an admin login none. */
  lemma MintDisplaces(w: World, rq: Request)
    requires Ledger(w) && Admissible(w, rq) && Answer(w, rq).NewPair? && Mints(rq.op)
    ensures var gone := match rq.op
              case Issue(user, _) => HeldBy(w.db, user)
              case Refresh(token, _) => {token}
              case AdminRefresh(token, _) => {token}
              case _ => {};
            exists left: Db ::
              LosesExactly(w.db, left, gone) && GainsOnly(left, Step(w, rq).db, rq.op.f.token, rq.op.f.sid)
  {
    match rq.op
    case Issue(user, f) =>
      var gone := HeldBy(w.db, user);
      assert gone == TokensOf(w.db, {user});
      Displaced(w.db, gone, Step(w, rq).db, f);
    case Refresh(token, f) => RotationDisplaces(w, rq);
    case AdminRefresh(token, f) => Displaced(w.db, {token}, Step(w, rq).db, f);
    case AdminLogin(_, _, f) => Displaced(w.db, {}, Step(w, rq).db, f);
  }

  lemma RotationDisplaces(w: World, rq: Request)
    requires Ledger(w) && Admissible(w, rq) && Answer(w, rq).NewPair? && rq.op.Refresh?
    ensures exists left: Db ::
              LosesExactly(w.db, left, {rq.op.token}) && GainsOnly(left, Step(w, rq).db, rq.op.f.token, rq.op.f.sid)
  {
    var token, f := rq.op.token, rq.op.f;
    NoSessionAfterDrop(w.db, token);
    var dropped := AddToken(DropTokens(w.db, {token}), f.token, w.db.tokens[token].user, w.now + rq.delay);
    assert !HasSession(dropped, token);
    Displaced(w.db, {token}, Step(w, rq).db, f);
  }

  lemma Displaced(before: Db, gone: set<Token>, after: Db, f: Fresh)
    requires f.token !in before.tokens && f.sid !in before.sessions
    requires GainsOnly(DropTokens(before, gone), after, f.token, f.sid)
    ensures exists left: Db :: LosesExactly(before, left, gone) && GainsOnly(left, after, f.token, f.sid)
  {
    DropLosesExactly(before, gone);
  }

  lemma DropLosesExactly(db: Db, gone: set<Token>)
    ensures LosesExactly(db, DropTokens(db, gone), gone)
  {
  }

  /** Shadow keys, at any request: one for each token a login displaces or a rotation consumes, and no other. */
  lemma ShadowsAreExact(w: World, rq: Request)
    requires Ledger(w) && Answer(w, rq).NewPair?
    ensures var at := w.now + rq.delay;
            match rq.op
            case Issue(user, _) =>
              Step(w, rq).keys.shadow
                == SetAll(w.keys.shadow, HeldBy(w.db, user), user, at, 7 * DAY)
            case Refresh(token, _) =>
              token in w.db.tokens
              && Step(w, rq).keys.shadow == SetAll(w.keys.shadow, {token}, w.db.tokens[token].user, at, 7 * DAY)
            case _ => Step(w, rq).keys.shadow == w.keys.shadow
  {
    if rq.op.Issue? {
      assert TokensOf(w.db, {rq.op.user}) == HeldBy(w.db, rq.op.user);
    }
  }

  /** A session write of the gate: exactly the presented token's key, exactly when it let the user in. */
  lemma LastActiveIsExact(w: World, rq: Request)
    requires rq.commits
    ensures Step(w, rq).keys.lastActive
         == if rq.op.Authenticate? && Answer(w, rq).Welcome?
            then w.keys.lastActive[rq.op.jti := Entry(w.now + rq.delay, w.now + rq.delay + 24 * HOUR)]
            else w.keys.lastActive
  {
  }

  // ---- The remaining requests, one by one ----

  lemma LogoutIsExact(w: World, token: Token, delay: nat)
    ensures var rq := Request(Logout(token), delay, true);
            var v := Step(w, rq);
            && Answer(w, rq) == Done && LosesExactly(w.db, v.db, {token})
            && v.db.users == w.db.users && v.keys == w.keys
  {
    DropLosesExactly(w.db, {token});
  }

  lemma AdminLogoutIsExact(w: World, token: Token, jti: Jti, delay: nat)
    ensures var rq := Request(AdminLogout(token, jti), delay, true);
            var v := Step(w, rq);
            var admitted := Answer(w, Request(AuthenticateAdmin(jti), delay, true)).Welcome?;
            && (Answer(w, rq) == Done <==> admitted)
            && (admitted ==> LosesExactly(w.db, v.db, {token}) && v.db.users == w.db.users
                             && v.keys.shadow == w.keys.shadow)
            && (!admitted ==> v == w.(now := w.now + delay))
  {
    DropLosesExactly(w.db, {token});
  }

  lemma ResetPasswordIsExact(w: World, user: UserId, delay: nat)
    requires user in w.db.users
    ensures var rq := Request(ResetPassword(user), delay, true);
            var v := Step(w, rq);
            && Answer(w, rq) == Done && v.keys == w.keys
            && LosesExactly(w.db, v.db, HeldBy(w.db, user))
            && v.db.users == w.db.users[user := w.db.users[user].(resetRequired := false)]
  {
    var gone := HeldBy(w.db, user);
    assert gone == TokensOf(w.db, {user});
    DropLosesExactly(SetResetRequired(w.db, user, false), gone);
  }

  /** Only somebody's own session other than the current one can be revoked, and then exactly that one goes. */
  lemma RevokeSessionIsExact(w: World, user: UserId, sid: SessionId, currentJti: Jti, delay: nat)
    ensures var rq := Request(RevokeSession(user, sid, currentJti), delay, true);
            var v := Step(w, rq);
            var own := sid in w.db.sessions && w.db.sessions[sid].user == user;
            && (Answer(w, rq) == NotFound <==> !own)
            && (Answer(w, rq) == CannotRevokeCurrent <==> own && w.db.sessions[sid].jti == currentJti)
            && (Answer(w, rq) == Done <==> own && w.db.sessions[sid].jti != currentJti)
            && (Answer(w, rq) == Done ==>
                  && LosesExactly(w.db, v.db, {w.db.sessions[sid].token}) && v.db.users == w.db.users
                  && v.keys.blacklist
                       == SetAll(w.keys.blacklist, {w.db.sessions[sid].jti}, true, v.now, 24 * HOUR))
            && (Answer(w, rq) != Done ==> v == w.(now := w.now + delay))
  {
    if sid in w.db.sessions {
      DropLosesExactly(w.db, {w.db.sessions[sid].token});
    }
  }

  /** A password change with the wrong current password changes nothing. */
  lemma WrongPasswordChangesNothing(w: World, user: UserId, current: Option<Jti>, delay: nat, commits: bool)
    ensures var rq := Request(ChangePassword(user, false, current), delay, commits);
            Answer(w, rq) == InvalidCredentials && Step(w, rq) == w.(now := w.now + delay)
  {
  }

  lemma SignUpIsExact(w: World, user: UserId, delay: nat)
    ensures var rq := Request(SignUp(user), delay, true);
            var v := Step(w, rq);
            && (Answer(w, rq) == Done <==> user !in w.db.users)
            && (Answer(w, rq) == Done ==>
                  && v.db.users.Keys == w.db.users.Keys + {user}
                  && (forall u :: u in w.db.users ==> v.db.users[u] == w.db.users[u])
                  && v.db.users[user].active && !v.db.users[user].superuser && !v.db.users[user].resetRequired
                  && !v.db.users[user].mfa)
            && v.db.tokens == w.db.tokens && v.db.sessions == w.db.sessions && v.keys == w.keys
  {
  }

  /** When the requests that mint nothing and let nobody in are done; a forced reset and a reset need the account. */
  lemma DoneIff(w: World, rq: Request)
    requires !Mints(rq.op) && !rq.op.AdminLogout? && !rq.op.RevokeSession? && !rq.op.RevokeOthers?
    requires !rq.op.Authenticate? && !rq.op.AuthenticateAdmin?
    ensures Answer(w, rq) == Done <==>
      rq.commits
      && match rq.op
         case SignUp(user) => user !in w.db.users
         case ResetPassword(user) => user in w.db.users
         case ForcePasswordReset(user) => user in w.db.users
         case SetMfa(user, _) => user in w.db.users
         case ChangePassword(_, passwordOk, _) => passwordOk
         case EnforceMfa(actor, _) => actor in w.db.users && w.db.users[actor].mfa
         case _ => true
    ensures Answer(w, rq) != Done ==> Step(w, rq).db == w.db
  {
  }

  lemma SetMfaIsExact(w: World, user: UserId, enabled: bool, delay: nat)
    requires user in w.db.users
    ensures var v := Step(w, Request(SetMfa(user, enabled), delay, true));
            && v.db.users == w.db.users[user := w.db.users[user].(mfa := enabled)]
            && v.db.tokens == w.db.tokens && v.db.sessions == w.db.sessions && v.keys == w.keys
  {
  }
}
