/** Safety of the session protocol over whole runs, and exactness of its revocations. */
module SessionRuns {
  import opened Clock
  import opened Redis
  import opened Wrappers
  import opened SessionModel
  import opened SessionLedger

  // ---- Runs ----

  lemma {:induction false} RunSplits(w: World, a: seq<Request>, b: seq<Request>)
    ensures Run(w, a + b) == Run(Run(w, a), b)
    ensures AdmissibleRun(w, a + b) <==> AdmissibleRun(w, a) && AdmissibleRun(Run(w, a), b)
    decreases a
  {
    if a == [] {
      assert a + b == b;
    } else {
      assert (a + b)[0] == a[0] && (a + b)[1..] == a[1..] + b;
      RunSplits(Step(w, a[0]), a[1..], b);
    }
  }

  lemma AdmittedBefore(w: World, rqs: seq<Request>, i: nat)
    requires AdmissibleRun(w, rqs) && i < |rqs|
    ensures AdmissibleRun(w, rqs[..i]) && Admissible(Run(w, rqs[..i]), rqs[i])
  {
    assert rqs == rqs[..i] + rqs[i..] && rqs[i..][0] == rqs[i];
    RunSplits(w, rqs[..i], rqs[i..]);
  }

  /** The state a run is in just before request `i`, and that it is sound. */
  lemma StateBefore(w: World, rqs: seq<Request>, i: nat)
    requires Ledger(w) && AdmissibleRun(w, rqs) && i < |rqs|
    ensures var v := Run(w, rqs[..i]);
            Ledger(v) && Admissible(v, rqs[i]) && Ledger(Step(v, rqs[i]))
  {
    AdmittedBefore(w, rqs, i);
    LedgerHoldsInEveryRun(w, rqs[..i]);
    StepKeepsLedger(Run(w, rqs[..i]), rqs[i]);
  }

  /** The run from just after request `i` to just before request `j`. */
  lemma Between(w: World, rqs: seq<Request>, i: nat, j: nat)
    requires AdmissibleRun(w, rqs) && i < j <= |rqs|
    ensures var v := Step(Run(w, rqs[..i]), rqs[i]);
            Run(w, rqs[..j]) == Run(v, rqs[i + 1..j]) && AdmissibleRun(v, rqs[i + 1..j])
  {
    var rest := rqs[i..j];
    assert rqs[..j] == rqs[..i] + rest && rqs == rqs[..j] + rqs[j..];
    RunSplits(w, rqs[..j], rqs[j..]);
    RunSplits(w, rqs[..i], rest);
    assert rest[0] == rqs[i] && rest[1..] == rqs[i + 1..j];
  }

  // ---- Spent tokens ----

  /** A token string that was handed out and is no longer in the table. */
  ghost predicate Dead(w: World, k: Token) {
    k in w.minted && k !in w.db.tokens
  }

  /** Rows appear only under names drawn by the same request. */
  lemma NewRowsAreFresh(w: World, rq: Request)
    requires Admissible(w, rq)
    ensures w.minted <= Step(w, rq).minted
    ensures forall t :: t in Step(w, rq).db.tokens && t in w.minted ==> t in w.db.tokens
  {
  }

  /** Shadow keys are written only for rows that are in the table. */
  lemma ShadowsOfDeadStay(w: World, rq: Request, k: Token)
    requires k !in w.db.tokens
    ensures k in Step(w, rq).keys.shadow <==> k in w.keys.shadow
    ensures k in w.keys.shadow ==> Step(w, rq).keys.shadow[k] == w.keys.shadow[k]
  {
    match rq.op
    case Issue(user, f) =>
    case Refresh(token, f) =>
    case RevokeOthers(_, _) =>
    case ChangePassword(_, _, _) =>
    case ForcePasswordReset(_) =>
    case _ =>
  }

  /** Token `k` of `user` was consumed or displaced at time `at`. */
  ghost predicate Retired(w: World, k: Token, user: UserId, at: int) {
    Dead(w, k) && k in w.keys.shadow && w.keys.shadow[k] == Entry(user, at + REFRESH_TTL)
  }

  lemma {:induction false} DeadForever(w: World, rqs: seq<Request>, k: Token)
    requires AdmissibleRun(w, rqs) && Dead(w, k)
    ensures Dead(Run(w, rqs), k)
    ensures k in Run(w, rqs).keys.shadow <==> k in w.keys.shadow
    ensures k in w.keys.shadow ==> Run(w, rqs).keys.shadow[k] == w.keys.shadow[k]
    decreases rqs
  {
    if rqs != [] {
      NewRowsAreFresh(w, rqs[0]);
      ShadowsOfDeadStay(w, rqs[0], k);
      DeadForever(Step(w, rqs[0]), rqs[1..], k);
    }
  }

  /** Request `rq` hands out a new pair in exchange for refresh token `k`. */
  ghost predicate Exchanges(w: World, rq: Request, k: Token) {
    Answer(w, rq).NewPair? && ((rq.op.Refresh? && rq.op.token == k) || (rq.op.AdminRefresh? && rq.op.token == k))
  }

  lemma ExchangeKills(w: World, rq: Request, k: Token)
    requires Ledger(w) && Admissible(w, rq) && Exchanges(w, rq, k)
    ensures Dead(Step(w, rq), k)
  {
  }

  lemma DeadIsNotExchanged(w: World, rq: Request, k: Token)
    requires Dead(w, k)
    ensures !Exchanges(w, rq, k)
  {
  }

  /** No refresh token is exchanged twice in any run, across the user and the admin endpoint. */
  lemma NoTokenExchangedTwice(w: World, rqs: seq<Request>, i: nat, j: nat, k: Token)
    requires Ledger(w) && AdmissibleRun(w, rqs) && i < j < |rqs|
    requires Exchanges(Run(w, rqs[..i]), rqs[i], k)
    ensures !Exchanges(Run(w, rqs[..j]), rqs[j], k)
  {
    StateBefore(w, rqs, i);
    ExchangeKills(Run(w, rqs[..i]), rqs[i], k);
    Between(w, rqs, i, j);
    DeadForever(Step(Run(w, rqs[..i]), rqs[i]), rqs[i + 1..j], k);
    DeadIsNotExchanged(Run(w, rqs[..j]), rqs[j], k);
  }

  /** Request `rq` consumes `k` by rotation, or displaces it by a new login of its user. */
  ghost predicate Retires(w: World, rq: Request, k: Token) {
    && k in w.db.tokens
    && Answer(w, rq).NewPair?
    && ((rq.op.Refresh? && rq.op.token == k) || (rq.op.Issue? && rq.op.user == w.db.tokens[k].user))
  }

  lemma RetiringLeavesShadow(w: World, rq: Request, k: Token)
    requires Ledger(w) && Admissible(w, rq) && Retires(w, rq, k)
    ensures Retired(Step(w, rq), k, w.db.tokens[k].user, w.now + rq.delay)
    ensures w.db.tokens[k].expiresAt <= w.now + REFRESH_TTL
  {
  }

  lemma RetiredAnswers(w: World, k: Token, user: UserId, at: int, f: Fresh, delay: nat, commits: bool)
    requires Retired(w, k, user, at)
    ensures Answer(w, Request(Refresh(k, f), delay, commits))
         == if w.now + delay < at + REFRESH_TTL then ReplayDetected else InvalidToken
    ensures Answer(w, Request(AdminRefresh(k, f), delay, commits)) == InvalidToken
  {
  }

  /**
   A token consumed by `refresh` or displaced by a login is answered with ReplayDetected for the
   whole week after it was retired, which covers its own lifetime, and with InvalidToken from
   then on; whatever else happens in between, it never yields another pair.
   */
  lemma ReplayIsDetected(w: World, rqs: seq<Request>, i: nat, k: Token, f: Fresh, delay: nat, commits: bool)
    requires Ledger(w) && AdmissibleRun(w, rqs) && i < |rqs|
    requires Retires(Run(w, rqs[..i]), rqs[i], k)
    ensures var before := Run(w, rqs[..i]);
            var retiredAt := before.now + rqs[i].delay;
            var later := Run(w, rqs);
            var time := later.now + delay;
            var answer := Answer(later, Request(Refresh(k, f), delay, commits));
            && (time < before.db.tokens[k].expiresAt ==> answer == ReplayDetected)
            && answer == (if time < retiredAt + REFRESH_TTL then ReplayDetected else InvalidToken)
            && Answer(later, Request(AdminRefresh(k, f), delay, commits)) == InvalidToken
  {
    var before := Run(w, rqs[..i]);
    StateBefore(w, rqs, i);
    RetiringLeavesShadow(before, rqs[i], k);
    Between(w, rqs, i, |rqs|);
    assert rqs[..|rqs|] == rqs;
    DeadForever(Step(before, rqs[i]), rqs[i + 1..|rqs|], k);
    RetiredAnswers(Run(w, rqs), k, before.db.tokens[k].user, before.now + rqs[i].delay, f, delay, commits);
  }

  // ---- Blacklisted access tokens ----

  /** The access tokens a request hands to `blacklist_jti`; a request that raises has blacklisted none. */
  ghost function Condemned(w: World, rq: Request): set<Jti> {
    if AttemptOf(w, rq).outcome.Raised() then {}
    else match rq.op
      case AdminLogout(_, jti) => {jti}
      case ChangePassword(user, _, current) => JtisOf(w.db, OtherSessions(w.db, user, current))
      case RevokeSession(_, sid, _) => JtisOf(w.db, {sid})
      case RevokeOthers(user, currentJti) => JtisOf(w.db, OtherSessions(w.db, user, Some(currentJti)))
      case RevokeMembers(members) => JtisOf(w.db, SessionsOf(w.db, members))
      case ForcePasswordReset(user) => JtisOf(w.db, SessionsOf(w.db, {user}))
      case _ => {}
  }

  lemma BlacklistOfRevokeSession(w: World, rq: Request)
    requires rq.op.RevokeSession?
    ensures AttemptOf(w, rq).keys.blacklist
         == SetAll(w.keys.blacklist, Condemned(w, rq), true, w.now + rq.delay, ACCESS_TTL)
  {
    var sid := rq.op.sid;
    if !AttemptOf(w, rq).outcome.Raised() {
      assert JtisOf(w.db, {sid}) == {w.db.sessions[sid].jti};
    } else {
      SetNone(w.keys.blacklist, true, w.now + rq.delay, ACCESS_TTL);
    }
  }

  lemma BlacklistOfForceReset(w: World, rq: Request)
    requires rq.op.ForcePasswordReset?
    ensures AttemptOf(w, rq).keys.blacklist
         == SetAll(w.keys.blacklist, Condemned(w, rq), true, w.now + rq.delay, ACCESS_TTL)
  {
    var user := rq.op.user;
    if user in w.db.users {
      FlagTouchesNoRows(w.db, user, true);
    } else {
      SetNone(w.keys.blacklist, true, w.now + rq.delay, ACCESS_TTL);
    }
  }

  lemma BlacklistOfBulk(w: World, rq: Request)
    requires rq.op.RevokeOthers? || rq.op.RevokeMembers? || rq.op.AdminLogout? || rq.op.ChangePassword?
    ensures AttemptOf(w, rq).keys.blacklist
         == SetAll(w.keys.blacklist, Condemned(w, rq), true, w.now + rq.delay, ACCESS_TTL)
  {
    SetNone(w.keys.blacklist, true, w.now + rq.delay, ACCESS_TTL);
  }

  /** Requests that mint a pair, and those that only read or drop rows, never touch the blacklist. */
  lemma BlacklistUntouched(w: World, rq: Request)
    requires rq.op.SignUp? || rq.op.Issue? || rq.op.Refresh? || rq.op.AdminLogin? || rq.op.AdminRefresh?
          || rq.op.Logout? || rq.op.ResetPassword? || rq.op.SetMfa? || rq.op.EnforceMfa?
          || rq.op.Authenticate? || rq.op.AuthenticateAdmin?
    ensures AttemptOf(w, rq).keys.blacklist == w.keys.blacklist && Condemned(w, rq) == {}
  {
  }

  lemma KeysSurvive(w: World, rq: Request)
    ensures Step(w, rq).keys == AttemptOf(w, rq).keys
  {
  }

  lemma BlacklistIsExact(w: World, rq: Request)
    ensures Step(w, rq).keys.blacklist == SetAll(w.keys.blacklist, Condemned(w, rq), true, w.now + rq.delay, ACCESS_TTL)
  {
    KeysSurvive(w, rq);
    if rq.op.RevokeSession? {
      BlacklistOfRevokeSession(w, rq);
    } else if rq.op.ForcePasswordReset? {
      BlacklistOfForceReset(w, rq);
    } else if rq.op.RevokeOthers? || rq.op.RevokeMembers? || rq.op.AdminLogout? || rq.op.ChangePassword? {
      BlacklistOfBulk(w, rq);
    } else {
      BlacklistUntouched(w, rq);
      SetNone(w.keys.blacklist, true, w.now + rq.delay, ACCESS_TTL);
    }
  }

  lemma FlagTouchesNoRows(db: Db, user: UserId, flag: bool)
    requires user in db.users
    ensures var d := SetResetRequired(db, user, flag);
            && d.tokens == db.tokens && d.sessions == db.sessions
            && SessionsOf(d, {user}) == SessionsOf(db, {user})
            && TokensOf(d, {user}) == TokensOf(db, {user})
            && JtisOf(d, SessionsOf(d, {user})) == JtisOf(db, SessionsOf(db, {user}))
  {
  }

  /** The blacklist entry of an issued access token lasts at least as long as the token. */
  ghost predicate Outlived(w: World, jti: Jti) {
    && jti in w.issued && jti in w.keys.blacklist
    && w.issued[jti].exp * SECOND <= w.keys.blacklist[jti].expiry
  }

  lemma OutlivedStep(w: World, rq: Request, jti: Jti)
    requires Admissible(w, rq) && jti in w.issued && w.issued[jti].exp * SECOND <= w.now + ACCESS_TTL
    requires Outlived(w, jti) || jti in Condemned(w, rq)
    ensures Outlived(Step(w, rq), jti)
  {
    var condemned := Condemned(w, rq);
    var w' := Step(w, rq);
    BlacklistIsExact(w, rq);
    IssuedTokensStay(w, rq, jti);
    EntryOutlives(w.keys.blacklist, w'.keys.blacklist, condemned, w.now + rq.delay, jti, w.issued[jti].exp);
  }

  lemma IssuedTokensStay(w: World, rq: Request, jti: Jti)
    requires Admissible(w, rq) && jti in w.issued
    ensures jti in Step(w, rq).issued && Step(w, rq).issued[jti] == w.issued[jti]
  {
  }

  /** Rewriting a blacklist entry only postpones its end; a new one lasts a full token lifetime. */
  lemma EntryOutlives(before: map<Jti, Entry<bool>>, after: map<Jti, Entry<bool>>, condemned: set<Jti>, at: int,
                      jti: Jti, exp: int)
    requires after == SetAll(before, condemned, true, at, ACCESS_TTL) && exp * SECOND <= at + ACCESS_TTL
    requires jti in condemned || (jti in before && exp * SECOND <= before[jti].expiry)
    ensures jti in after && exp * SECOND <= after[jti].expiry
  {
  }

  lemma {:induction false} OutlivedForever(w: World, rqs: seq<Request>, jti: Jti)
    requires Ledger(w) && AdmissibleRun(w, rqs) && Outlived(w, jti)
    ensures Outlived(Run(w, rqs), jti)
    decreases rqs
  {
    if rqs != [] {
      StepKeepsLedger(w, rqs[0]);
      OutlivedStep(w, rqs[0], jti);
      OutlivedForever(Step(w, rqs[0]), rqs[1..], jti);
    }
  }

  lemma OutlivedIsRefused(w: World, jti: Jti, delay: nat, commits: bool)
    requires Outlived(w, jti)
    ensures Answer(w, Request(Authenticate(jti), delay, commits)) in {InvalidToken, TokenExpired}
  {
  }

  /**
   Once `blacklist_jti` ran for an issued access token, even in a request whose SQL was lost,
   the authentication gate refuses that token at every later instant of every run.
   */
  lemma BlacklistOutlivesToken(w: World, rqs: seq<Request>, i: nat, jti: Jti, delay: nat, commits: bool)
    requires Ledger(w) && AdmissibleRun(w, rqs) && i < |rqs|
    requires jti in Run(w, rqs[..i]).issued && jti in Condemned(Run(w, rqs[..i]), rqs[i])
    ensures Answer(Run(w, rqs), Request(Authenticate(jti), delay, commits)) in {InvalidToken, TokenExpired}
  {
    StateBefore(w, rqs, i);
    OutlivedStep(Run(w, rqs[..i]), rqs[i], jti);
    Between(w, rqs, i, |rqs|);
    assert rqs[..|rqs|] == rqs;
    OutlivedForever(Step(Run(w, rqs[..i]), rqs[i]), rqs[i + 1..|rqs|], jti);
    OutlivedIsRefused(Run(w, rqs), jti, delay, commits);
  }

  // ---- Exact revocation ----

  /** `after` has lost all and only the rows of `users`. */
  ghost predicate ExactlyRevoked(before: Db, after: Db, users: set<UserId>) {
    && (forall t :: t in after.tokens <==> t in before.tokens && before.tokens[t].user !in users)
    && (forall t :: t in after.tokens ==> after.tokens[t] == before.tokens[t])
    && (forall s :: s in after.sessions <==> s in before.sessions && before.sessions[s].user !in users)
    && (forall s :: s in after.sessions ==> after.sessions[s] == before.sessions[s])
  }

  /** The blacklist gained exactly the access tokens on record for `users`; every other entry stayed. */
  ghost predicate ExactlyBlacklisted(before: World, after: World, users: set<UserId>) {
    && (forall s :: s in before.db.sessions && before.db.sessions[s].user in users ==>
          before.db.sessions[s].jti in after.keys.blacklist
          && after.keys.blacklist[before.db.sessions[s].jti].expiry == after.now + ACCESS_TTL)
    && (forall j :: j in after.keys.blacklist ==>
          (j in before.keys.blacklist && after.keys.blacklist[j] == before.keys.blacklist[j])
          || (exists s :: s in before.db.sessions && before.db.sessions[s].user in users
                          && before.db.sessions[s].jti == j))
    && before.keys.blacklist.Keys <= after.keys.blacklist.Keys
  }

  lemma DropUsersIsExact(db: Db, users: set<UserId>)
    requires Linked(db)
    ensures ExactlyRevoked(db, DropTokens(db, TokensOf(db, users)), users)
  {
  }

  lemma BlacklistUsersIsExact(w: World, w': World, users: set<UserId>)
    requires w'.keys.blacklist
          == SetAll(w.keys.blacklist, JtisOf(w.db, SessionsOf(w.db, users)), true, w'.now, ACCESS_TTL)
    ensures ExactlyBlacklisted(w, w', users)
  {
    forall s | s in w.db.sessions && w.db.sessions[s].user in users
      ensures w.db.sessions[s].jti in JtisOf(w.db, SessionsOf(w.db, users))
    {
      assert s in SessionsOf(w.db, users);
    }
  }

  lemma RevokeMembersStep(w: World, members: set<UserId>, delay: nat)
    ensures var w' := Step(w, Request(RevokeMembers(members), delay, true));
            && w'.db == DropTokens(w.db, TokensOf(w.db, members))
            && w'.keys.blacklist
                 == SetAll(w.keys.blacklist, JtisOf(w.db, SessionsOf(w.db, members)), true, w'.now, ACCESS_TTL)
  {
  }

  /** Suspension and payment failure: all and only the members' rows, all and only their recorded tokens. */
  lemma RevokeMembersIsExact(w: World, members: set<UserId>, delay: nat)
    requires Ledger(w)
    ensures var w' := Step(w, Request(RevokeMembers(members), delay, true));
            ExactlyRevoked(w.db, w'.db, members) && ExactlyBlacklisted(w, w', members) && w'.db.users == w.db.users
  {
    var w' := Step(w, Request(RevokeMembers(members), delay, true));
    RevokeMembersStep(w, members, delay);
    DropUsersIsExact(w.db, members);
    BlacklistUsersIsExact(w, w', members);
  }

  lemma ForceResetIsExact(w: World, user: UserId, delay: nat)
    requires Ledger(w) && user in w.db.users
    ensures var w' := Step(w, Request(ForcePasswordReset(user), delay, true));
            && ExactlyRevoked(w.db, w'.db, {user}) && ExactlyBlacklisted(w, w', {user})
            && w'.db.users == w.db.users[user := w.db.users[user].(resetRequired := true)]
  {
    var rq := Request(ForcePasswordReset(user), delay, true);
    var w' := Step(w, rq);
    var d := SetResetRequired(w.db, user, true);
    FlagTouchesNoRows(w.db, user, true);
    assert w'.db == DropTokens(d, TokensOf(w.db, {user}));
    DropUsersIsExact(w.db, {user});
    assert w'.db.tokens == DropTokens(w.db, TokensOf(w.db, {user})).tokens;
    assert w'.db.sessions == DropTokens(w.db, TokensOf(w.db, {user})).sessions;
    BlacklistIsExact(w, rq);
    BlacklistUsersIsExact(w, w', {user});
  }

  /** The forced-reset flag is set by a committed forced reset, cleared by a committed reset, and by nothing else. */
  lemma ResetFlagIff(w: World, rq: Request, user: UserId)
    requires user in w.db.users
    ensures var forced := rq.op == ForcePasswordReset(user) && rq.commits;
            var cleared := rq.op == ResetPassword(user) && rq.commits;
            && user in Step(w, rq).db.users
            && (Step(w, rq).db.users[user].resetRequired <==> forced || (w.db.users[user].resetRequired && !cleared))
  {
    match rq.op
    case SignUp(_) =>
    case ForcePasswordReset(_) =>
    case ResetPassword(_) =>
    case SetMfa(_, _) =>
    case _ => assert AttemptOf(w, rq).db.users == w.db.users;
  }

  lemma {:induction false} FlagHolds(w: World, rqs: seq<Request>, user: UserId)
    requires user in w.db.users && w.db.users[user].resetRequired
    requires forall i :: 0 <= i < |rqs| ==> !(rqs[i].op == ResetPassword(user) && rqs[i].commits)
    ensures user in Run(w, rqs).db.users && Run(w, rqs).db.users[user].resetRequired
    decreases rqs
  {
    if rqs != [] {
      ResetFlagIff(w, rqs[0], user);
      FlagHolds(Step(w, rqs[0]), rqs[1..], user);
    }
  }

  lemma FlaggedIsRefused(w: World, user: UserId, jti: Jti, delay: nat, commits: bool)
    requires user in w.db.users && w.db.users[user].resetRequired
    ensures Answer(w, Request(Authenticate(jti), delay, commits)) != Welcome(user)
  {
  }

  /**
   After a committed forced reset no access token, not even one issued later, gets the user past
   `get_current_user`, in every run in which that user's password reset is not completed. The gate
   of the admin endpoints is another matter: see SessionLimits.
   */
  lemma ForcedResetShutsOut(w: World, rqs: seq<Request>, i: nat, user: UserId, jti: Jti, delay: nat, commits: bool)
    requires AdmissibleRun(w, rqs) && i < |rqs| && user in Run(w, rqs[..i]).db.users
    requires rqs[i].op == ForcePasswordReset(user) && rqs[i].commits
    requires forall j :: i < j < |rqs| ==> !(rqs[j].op == ResetPassword(user) && rqs[j].commits)
    ensures Answer(Run(w, rqs), Request(Authenticate(jti), delay, commits)) != Welcome(user)
  {
    ResetFlagIff(Run(w, rqs[..i]), rqs[i], user);
    Between(w, rqs, i, |rqs|);
    assert rqs[..|rqs|] == rqs;
    FlagHolds(Step(Run(w, rqs[..i]), rqs[i]), rqs[i + 1..|rqs|], user);
    FlaggedIsRefused(Run(w, rqs), user, jti, delay, commits);
  }

  /** MFA enforcement deletes the same rows for the non-MFA members, but blacklists nothing. */
  lemma EnforceMfaIsExact(w: World, actor: UserId, members: set<UserId>, delay: nat)
    requires Ledger(w) && actor in w.db.users && w.db.users[actor].mfa
    ensures var w' := Step(w, Request(EnforceMfa(actor, members), delay, true));
            var lockedOut := set u | u in members && u in w.db.users && !w.db.users[u].mfa;
            && ExactlyRevoked(w.db, w'.db, lockedOut) && w'.keys == w.keys && w'.db.users == w.db.users
            && forall t :: t in w'.db.tokens && w'.db.tokens[t].user in members ==> w.db.users[w'.db.tokens[t].user].mfa
  {
    var lockedOut := WithoutMfa(w.db, members);
    assert lockedOut == set u | u in members && u in w.db.users && !w.db.users[u].mfa;
    DropUsersIsExact(w.db, lockedOut);
  }

  lemma DeadDoesNotRefresh(w: World, k: Token, f: Fresh, delay: nat, commits: bool)
    requires Dead(w, k)
    ensures !Answer(w, Request(Refresh(k, f), delay, commits)).NewPair?
  {
  }

  lemma RevokedTokenIsDead(w: World, members: set<UserId>, delay: nat, sid: SessionId)
    requires Ledger(w) && sid in w.db.sessions && w.db.sessions[sid].user in members
    ensures Dead(Step(w, Request(RevokeMembers(members), delay, true)), w.db.sessions[sid].token)
    ensures w.db.sessions[sid].jti in Condemned(w, Request(RevokeMembers(members), delay, true))
    ensures w.db.sessions[sid].jti in w.issued
  {
    assert sid in SessionsOf(w.db, members);
    DropUsersIsExact(w.db, members);
  }

  /**
   After a bulk revocation neither half of a pair on record for a member works again. Access tokens
   that are on record for nobody are not covered: SessionLimits says which ones survive.
   */
  lemma RecordedPairsStayShut(w: World, rqs: seq<Request>, i: nat, sid: SessionId, f: Fresh, delay: nat, commits: bool)
    requires Ledger(w) && AdmissibleRun(w, rqs) && i < |rqs|
    requires rqs[i].op.RevokeMembers? && rqs[i].commits
    requires var v := Run(w, rqs[..i]); sid in v.db.sessions && v.db.sessions[sid].user in rqs[i].op.members
    ensures var v := Run(w, rqs[..i]);
            && Answer(Run(w, rqs), Request(Authenticate(v.db.sessions[sid].jti), delay, commits))
                 in {InvalidToken, TokenExpired}
            && !Answer(Run(w, rqs), Request(Refresh(v.db.sessions[sid].token, f), delay, commits)).NewPair?
  {
    var v := Run(w, rqs[..i]);
    var row := v.db.sessions[sid];
    StateBefore(w, rqs, i);
    RevokedTokenIsDead(v, rqs[i].op.members, rqs[i].delay, sid);
    BlacklistOutlivesToken(w, rqs, i, row.jti, delay, commits);
    Between(w, rqs, i, |rqs|);
    assert rqs[..|rqs|] == rqs;
    DeadForever(Step(v, rqs[i]), rqs[i + 1..|rqs|], row.token);
    DeadDoesNotRefresh(Run(w, rqs), row.token, f, delay, commits);
  }

  // ---- Keeping the current session ----

  /** `user` keeps exactly the sessions in `kept` and their tokens; everybody else keeps everything. */
  ghost predicate KeepsOnly(before: Db, after: Db, user: UserId, kept: set<SessionId>) {
    && SessionsOf(after, {user}) == kept
    && (forall t :: t in TokensOf(after, {user}) <==>
          exists s :: s in kept && s in before.sessions && before.sessions[s].token == t)
    && (forall t :: t in before.tokens && before.tokens[t].user != user ==> t in after.tokens)
    && (forall s :: s in before.sessions && before.sessions[s].user != user ==> s in after.sessions)
    && (forall t :: t in after.tokens ==> t in before.tokens && after.tokens[t] == before.tokens[t])
    && (forall s :: s in after.sessions ==> s in before.sessions && after.sessions[s] == before.sessions[s])
  }

  /** The current session of `user`, if its access token is on record. */
  ghost function Kept(db: Db, user: UserId, current: Option<Jti>): set<SessionId> {
    set s | s in db.sessions && db.sessions[s].user == user && Some(db.sessions[s].jti) == current
  }

  lemma KeptSessions(db: Db, user: UserId, current: Option<Jti>)
    requires Linked(db) && Distinct(db)
    ensures var after := DropTokens(db, TokensOf(db, {user}) - CurrentTokens(db, user, current));
            && SessionsOf(after, {user}) == Kept(db, user, current)
            && (forall s :: s in db.sessions && db.sessions[s].user != user ==> s in after.sessions)
  {
    var after := DropTokens(db, TokensOf(db, {user}) - CurrentTokens(db, user, current));
    forall s ensures s in SessionsOf(after, {user}) <==> s in Kept(db, user, current) {
      if s in SessionsOf(db, {user}) {
        assert db.sessions[s].token in CurrentTokens(db, user, current) <==> s in Kept(db, user, current);
      }
    }
    forall s | s in db.sessions && db.sessions[s].user != user ensures s in after.sessions {
      assert db.sessions[s].token !in TokensOf(db, {user});
    }
  }

  lemma KeptTokens(db: Db, user: UserId, current: Option<Jti>)
    requires Linked(db)
    ensures var after := DropTokens(db, TokensOf(db, {user}) - CurrentTokens(db, user, current));
            forall t :: t in TokensOf(after, {user}) <==>
              exists s :: s in Kept(db, user, current) && s in db.sessions && db.sessions[s].token == t
  {
    var after := DropTokens(db, TokensOf(db, {user}) - CurrentTokens(db, user, current));
    forall t
      ensures t in TokensOf(after, {user}) <==>
        exists s :: s in Kept(db, user, current) && s in db.sessions && db.sessions[s].token == t
    {
      assert t in TokensOf(after, {user}) <==> t in CurrentTokens(db, user, current);
    }
  }

  lemma KeptCount(db: Db, user: UserId, current: Option<Jti>)
    requires Distinct(db)
    ensures var kept := Kept(db, user, current);
            && |kept| <= 1
            && OtherSessions(db, user, current) == SessionsOf(db, {user}) - kept
            && |OtherSessions(db, user, current)| == |SessionsOf(db, {user})| - |kept|
  {
    var kept := Kept(db, user, current);
    AtMostOne(kept);
    assert OtherSessions(db, user, current) == SessionsOf(db, {user}) - kept;
    assert kept <= SessionsOf(db, {user});
  }

  lemma KeepCurrentRows(db: Db, user: UserId, current: Option<Jti>)
    requires Linked(db) && Distinct(db)
    ensures var after := DropTokens(db, TokensOf(db, {user}) - CurrentTokens(db, user, current));
            KeepsOnly(db, after, user, Kept(db, user, current))
  {
    KeptSessions(db, user, current);
    KeptTokens(db, user, current);
  }

  lemma AtMostOne(a: set<SessionId>)
    requires forall s, r :: s in a && r in a ==> s == r
    ensures |a| <= 1
  {
    if a != {} {
      var s :| s in a;
      assert a == {s};
    }
  }

  /** What both keep-current requests do to the state, read off their definition. */
  lemma KeepCurrentStep(w: World, op: Op, user: UserId, current: Option<Jti>, delay: nat)
    requires op == ChangePassword(user, true, current) || (current.Some? && op == RevokeOthers(user, current.value))
    ensures var w' := Step(w, Request(op, delay, true));
            && w'.db == DropTokens(w.db, TokensOf(w.db, {user}) - CurrentTokens(w.db, user, current))
            && w'.keys.blacklist == SetAll(w.keys.blacklist, JtisOf(w.db, OtherSessions(w.db, user, current)),
                                           true, w'.now, ACCESS_TTL)
            && (op.RevokeOthers? ==>
                  Answer(w, Request(op, delay, true)) == Revoked(|OtherSessions(w.db, user, current)|))
  {
  }

  /**
   Revoking all other sessions leaves exactly the current session and its token (nothing when the
   current access token has no session), blacklists exactly the other recorded access tokens, and
   the reported count is the number of sessions that disappeared.
   */
  lemma RevokeOthersIsExact(w: World, user: UserId, currentJti: Jti, delay: nat)
    requires Ledger(w)
    ensures var rq := Request(RevokeOthers(user, currentJti), delay, true);
            var w' := Step(w, rq);
            var kept := Kept(w.db, user, Some(currentJti));
            && KeepsOnly(w.db, w'.db, user, kept) && |kept| <= 1
            && w'.keys.blacklist == SetAll(w.keys.blacklist, JtisOf(w.db, SessionsOf(w.db, {user}) - kept),
                                           true, w'.now, ACCESS_TTL)
            && Answer(w, rq).Revoked?
            && Answer(w, rq).count == |SessionsOf(w.db, {user})| - |SessionsOf(w'.db, {user})|
  {
    KeepCurrentRows(w.db, user, Some(currentJti));
    KeptSessions(w.db, user, Some(currentJti));
    KeptCount(w.db, user, Some(currentJti));
    KeepCurrentStep(w, RevokeOthers(user, currentJti), user, Some(currentJti), delay);
  }

  lemma ChangePasswordIsExact(w: World, user: UserId, current: Option<Jti>, delay: nat)
    requires Ledger(w)
    ensures var rq := Request(ChangePassword(user, true, current), delay, true);
            var w' := Step(w, rq);
            var kept := Kept(w.db, user, current);
            && KeepsOnly(w.db, w'.db, user, kept) && |kept| <= 1
            && (current == None ==> kept == {})
            && w'.keys.blacklist == SetAll(w.keys.blacklist, JtisOf(w.db, SessionsOf(w.db, {user}) - kept),
                                           true, w'.now, ACCESS_TTL)
  {
    KeepCurrentRows(w.db, user, current);
    KeptCount(w.db, user, current);
    KeepCurrentStep(w, ChangePassword(user, true, current), user, current, delay);
  }
}
