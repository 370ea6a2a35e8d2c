/**
 The invariant of the session protocol, kept by every request whether it succeeds, raises or
 fails to commit: sessions and tokens stay linked one to one, except that tokens from the
 admin login path have no session, and an ordinary account never holds two tokens.
 */
module SessionLedger {
  import opened Clock
  import opened Redis
  import opened Wrappers
  import opened SessionModel

  /** Each session points to an existing token of the same user. */
  ghost predicate Linked(db: Db) {
    forall s :: s in db.sessions ==>
      db.sessions[s].token in db.tokens && db.tokens[db.sessions[s].token].user == db.sessions[s].user
  }

  /** No two sessions share a token or an access-token identifier. */
  ghost predicate Distinct(db: Db) {
    forall s, r :: s in db.sessions && r in db.sessions && s != r ==>
      db.sessions[s].token != db.sessions[r].token && db.sessions[s].jti != db.sessions[r].jti
  }

  /** A token has a session exactly when it was not handed out by the admin path. */
  ghost predicate Covered(db: Db, adminTokens: set<Token>) {
    forall t :: t in db.tokens ==> (HasSession(db, t) <==> t !in adminTokens)
  }

  /** An account that is not a superuser holds at most one refresh token. */
  ghost predicate Single(db: Db) {
    forall t, r ::
      (t in db.tokens && r in db.tokens && db.tokens[t].user == db.tokens[r].user
       && db.tokens[t].user in db.users && !db.users[db.tokens[t].user].superuser) ==> t == r
  }

  /** Rows refer to known accounts, minted names, and lifetimes that started no later than now. */
  ghost predicate Bounded(w: World) {
    && (forall t :: t in w.db.tokens ==>
          t in w.minted && w.db.tokens[t].user in w.db.users && w.db.tokens[t].expiresAt <= w.now + REFRESH_TTL)
    && (forall s :: s in w.db.sessions ==> s in w.sids && w.db.sessions[s].jti in w.issued)
    && (forall j :: j in w.issued ==> w.issued[j].exp * SECOND <= w.now + ACCESS_TTL)
    && w.adminTokens <= w.minted
  }

  ghost predicate Ledger(w: World) {
    Linked(w.db) && Distinct(w.db) && Covered(w.db, w.adminTokens) && Single(w.db) && Bounded(w)
  }

  function Start(now: int, superusers: set<UserId>): World {
    World(Db(map u | u in superusers :: User(true, true, false, false), map[], map[]),
          Keys(map[], map[], map[]), now, {}, {}, map[], {})
  }

  lemma StartIsSound(now: int, superusers: set<UserId>)
    ensures Ledger(Start(now, superusers))
  {
  }

  // ---- What single statements keep ----

  lemma DropKeeps(w: World, doomed: set<Token>)
    requires Ledger(w)
    ensures Ledger(w.(db := DropTokens(w.db, doomed)))
  {
    var d := DropTokens(w.db, doomed);
    forall t | t in d.tokens
      ensures HasSession(d, t) <==> t !in w.adminTokens
    {
      if HasSession(w.db, t) {
        var s :| s in w.db.sessions && w.db.sessions[s].token == t;
        assert s in d.sessions;
      }
    }
  }

  lemma WaitKeeps(w: World, delay: nat)
    requires Ledger(w)
    ensures Ledger(w.(now := w.now + delay))
  {
  }

  lemma UserUpdateKeeps(w: World, users: map<UserId, User>)
    requires Ledger(w)
    requires w.db.users.Keys <= users.Keys
    requires forall u :: u in w.db.users ==> w.db.users[u].superuser == users[u].superuser
    ensures Ledger(w.(db := w.db.(users := users)))
  {
    var d := w.db.(users := users);
    assert forall t :: HasSession(d, t) == HasSession(w.db, t);
  }

  /** A fresh token/session pair may be added for an account that holds no other token. */
  lemma PairKeeps(w: World, f: Fresh, user: UserId, claims: Claims)
    requires Ledger(w) && IsFresh(w, f) && user in w.db.users
    requires w.db.users[user].superuser || TokensOf(w.db, {user}) == {}
    requires claims.exp * SECOND <= w.now + ACCESS_TTL
    ensures Ledger(w.(db := AddSession(AddToken(w.db, f.token, user, w.now), f, user),
                      minted := w.minted + {f.token}, sids := w.sids + {f.sid},
                      issued := w.issued[f.jti := claims]))
  {
    var d := AddSession(AddToken(w.db, f.token, user, w.now), f, user);
    CoveredAfterPair(w.db, w.adminTokens, f, user, w.now);
    SingleAfterAdd(w.db, f.token, user, w.now);
    assert Single(d);
    LinksAfterPair(w.db, f, user, w.now);
    BoundedAfterPair(w, f, user, claims);
  }

  lemma LinksAfterPair(db: Db, f: Fresh, user: UserId, now: int)
    requires Linked(db) && Distinct(db) && f.token !in db.tokens
    requires forall s :: s in db.sessions ==> db.sessions[s].jti != f.jti
    ensures var d := AddSession(AddToken(db, f.token, user, now), f, user); Linked(d) && Distinct(d)
  {
  }

  lemma BoundedAfterPair(w: World, f: Fresh, user: UserId, claims: Claims)
    requires Bounded(w) && user in w.db.users && claims.exp * SECOND <= w.now + ACCESS_TTL
    ensures Bounded(w.(db := AddSession(AddToken(w.db, f.token, user, w.now), f, user),
                       minted := w.minted + {f.token}, sids := w.sids + {f.sid},
                       issued := w.issued[f.jti := claims]))
  {
  }

  lemma CoveredAfterPair(db: Db, adminTokens: set<Token>, f: Fresh, user: UserId, now: int)
    requires Linked(db) && Covered(db, adminTokens)
    requires f.token !in db.tokens && f.token !in adminTokens && f.sid !in db.sessions
    ensures Covered(AddSession(AddToken(db, f.token, user, now), f, user), adminTokens)
  {
    var d := AddSession(AddToken(db, f.token, user, now), f, user);
    forall t | t in d.tokens
      ensures HasSession(d, t) <==> t !in adminTokens
    {
      if t == f.token {
        assert f.sid in d.sessions;
      } else if HasSession(db, t) {
        var s :| s in db.sessions && db.sessions[s].token == t;
        assert s in d.sessions && d.sessions[s].token == t;
      }
    }
  }

  lemma AdminTokenKeeps(w: World, f: Fresh, user: UserId, claims: Claims)
    requires Ledger(w) && IsFresh(w, f) && user in w.db.users
    requires w.db.users[user].superuser || TokensOf(w.db, {user}) == {}
    requires claims.exp * SECOND <= w.now + ACCESS_TTL
    ensures Ledger(w.(db := AddToken(w.db, f.token, user, w.now),
                      minted := w.minted + {f.token}, sids := w.sids + {f.sid},
                      issued := w.issued[f.jti := claims], adminTokens := w.adminTokens + {f.token}))
  {
    var d := AddToken(w.db, f.token, user, w.now);
    assert forall t :: HasSession(d, t) == HasSession(w.db, t);
    SingleAfterAdd(w.db, f.token, user, w.now);
  }

  lemma SingleAfterAdd(db: Db, token: Token, user: UserId, now: int)
    requires Single(db) && user in db.users && token !in db.tokens
    requires db.users[user].superuser || TokensOf(db, {user}) == {}
    ensures Single(AddToken(db, token, user, now))
  {
    forall t | t in db.tokens && db.tokens[t].user == user
      ensures db.users[user].superuser
    {
      assert t in TokensOf(db, {user});
    }
  }

  lemma DropEmpties(db: Db, users: set<UserId>)
    ensures TokensOf(DropTokens(db, TokensOf(db, users)), users) == {}
  {
  }

  /** Dropping a token of an ordinary account leaves it without any. */
  lemma DropOnlyToken(db: Db, token: Token)
    requires Single(db) && token in db.tokens && db.tokens[token].user in db.users
    requires !db.users[db.tokens[token].user].superuser
    ensures TokensOf(DropTokens(db, {token}), {db.tokens[token].user}) == {}
  {
  }

  lemma NoSessionAfterDrop(db: Db, token: Token)
    ensures !HasSession(DropTokens(db, {token}), token)
  {
  }

  /**
   Whether or not the database cascaded, the tail of `refresh` leaves exactly one session on the
   new token, of the right user and access token, none on the spent one, and all others as they were.
   */
  lemma RelinkEitherBranch(db: Db, spent: Token, f: Fresh, user: UserId)
    requires Distinct(db) && f.sid !in db.sessions && !HasSession(db, f.token) && spent != f.token
    requires forall s :: s in db.sessions && db.sessions[s].token == spent ==> db.sessions[s].user == user
    ensures var d := Relink(db, spent, f, user);
            && !HasSession(d, spent)
            && (exists s :: s in d.sessions && d.sessions[s] == SessionRow(f.token, user, f.jti)
                  && forall r :: r in d.sessions && d.sessions[r].token == f.token ==> r == s)
            && (forall s :: s in db.sessions && db.sessions[s].token != spent ==>
                  s in d.sessions && d.sessions[s] == db.sessions[s])
            && d.tokens == db.tokens && |d.sessions| == |db.sessions| + (if HasSession(db, spent) then 0 else 1)
  {
    var d := Relink(db, spent, f, user);
    if HasSession(db, spent) {
      var s :| s in db.sessions && db.sessions[s].token == spent;
      assert d.sessions[s] == SessionRow(f.token, user, f.jti);
      assert d.sessions.Keys == db.sessions.Keys;
      SameSize(d.sessions, db.sessions);
    } else {
      assert d.sessions[f.sid] == SessionRow(f.token, user, f.jti);
    }
  }

  lemma SameSize<K, V>(a: map<K, V>, b: map<K, V>)
    requires a.Keys == b.Keys
    ensures |a| == |b|
  {
    assert |a| == |a.Keys| && |b| == |b.Keys|;
  }

  // ---- What requests keep ----

  lemma SecondsRoundDown(us: int)
    ensures us / SECOND * SECOND <= us
  {
  }

  lemma IssueKeeps(w: World, user: UserId, f: Fresh, w': World)
    requires Ledger(w) && IsFresh(w, f) && user in w.db.users
    requires w' == Step(w, Request(Issue(user, f), 0, true))
    ensures Ledger(w')
  {
    var displaced := TokensOf(w.db, {user});
    var mid := w.(db := DropTokens(w.db, displaced));
    DropKeeps(w, displaced);
    DropEmpties(w.db, {user});
    SecondsRoundDown(w.now + ACCESS_TTL);
    PairKeeps(mid, f, user, NewClaims(user, Regular, w.now));
    IssueShape(w, user, f);
    KeysAreFree(w', w);
  }

  /** Issuing displaces the account's tokens and adds a pair; besides it writes keys only. */
  lemma IssueShape(w: World, user: UserId, f: Fresh)
    requires user in w.db.users
    ensures Step(w, Request(Issue(user, f), 0, true)).(keys := w.keys) == w.(
        db := AddSession(AddToken(DropTokens(w.db, TokensOf(w.db, {user})), f.token, user, w.now), f, user),
        minted := w.minted + {f.token}, sids := w.sids + {f.sid},
        issued := w.issued[f.jti := NewClaims(user, Regular, w.now)])
  {
  }

  lemma KeysAreFree(w: World, v: World)
    ensures Ledger(w.(keys := v.keys)) <==> Ledger(w)
  {
  }

  lemma RefreshKeeps(w: World, token: Token, f: Fresh, w': World)
    requires Ledger(w) && IsFresh(w, f)
    requires token in w.db.tokens && w.now <= w.db.tokens[token].expiresAt
    requires w' == Step(w, Request(Refresh(token, f), 0, true))
    ensures Ledger(w')
  {
    var user := w.db.tokens[token].user;
    var mid := w.(db := DropTokens(w.db, {token}));
    DropKeeps(w, {token});
    if !w.db.users[user].superuser {
      DropOnlyToken(w.db, token);
    }
    NoSessionAfterDrop(w.db, token);
    assert !HasSession(AddToken(mid.db, f.token, user, w.now), token);
    SecondsRoundDown(w.now + ACCESS_TTL);
    PairKeeps(mid, f, user, NewClaims(user, Regular, w.now));
    KeysAreFree(w', w);
    assert w'.(keys := w.keys) == mid.(
        db := AddSession(AddToken(mid.db, f.token, user, w.now), f, user),
        minted := mid.minted + {f.token}, sids := mid.sids + {f.sid},
        issued := mid.issued[f.jti := NewClaims(user, Regular, w.now)]);
  }

  lemma AdminRefreshKeeps(w: World, token: Token, f: Fresh, w': World)
    requires Ledger(w) && IsFresh(w, f)
    requires token in w.db.tokens && w.now <= w.db.tokens[token].expiresAt
    requires w' == Step(w, Request(AdminRefresh(token, f), 0, true))
    ensures Ledger(w')
  {
    var user := w.db.tokens[token].user;
    DropKeeps(w, {token});
    if !w.db.users[user].superuser {
      DropOnlyToken(w.db, token);
    }
    SecondsRoundDown(w.now + ACCESS_TTL);
    AdminTokenKeeps(w.(db := DropTokens(w.db, {token})), f, user, NewClaims(user, Admin, w.now));
  }

  lemma AdminLoginKeeps(w: World, user: UserId, f: Fresh, w': World)
    requires Ledger(w) && IsFresh(w, f)
    requires user in w.db.users && w.db.users[user].superuser
    requires w' == Step(w, Request(AdminLogin(user, true, f), 0, true))
    ensures Ledger(w')
  {
    SecondsRoundDown(w.now + ACCESS_TTL);
    AdminTokenKeeps(w, f, user, NewClaims(user, Admin, w.now));
  }

  /** The rows a request that mints nothing deletes. */
  function Doomed(db: Db, op: Op): set<Token>
    requires !op.Issue? && !op.Refresh? && !op.AdminLogin? && !op.AdminRefresh?
  {
    match op
    case Logout(token) => {token}
    case AdminLogout(token, _) => {token}
    case ResetPassword(user) => TokensOf(db, {user})
    case ChangePassword(user, _, current) => TokensOf(db, {user}) - CurrentTokens(db, user, current)
    case RevokeSession(_, sid, _) => if sid in db.sessions then {db.sessions[sid].token} else {}
    case RevokeOthers(user, currentJti) => TokensOf(db, {user}) - CurrentTokens(db, user, Some(currentJti))
    case RevokeMembers(members) => TokensOf(db, members)
    case ForcePasswordReset(user) => TokensOf(db, {user})
    case EnforceMfa(_, members) => TokensOf(db, WithoutMfa(db, members))
    case _ => {}
  }

  /** Such a request deletes those rows and otherwise touches account flags and Redis keys only. */
  lemma QuietShape(w: World, op: Op, w': World)
    requires !op.Issue? && !op.Refresh? && !op.AdminLogin? && !op.AdminRefresh?
    requires w' == Step(w, Request(op, 0, true))
    requires !Answer(w, Request(op, 0, true)).Raised()
    ensures w' == w.(keys := w'.keys, db := DropTokens(w.db.(users := w'.db.users), Doomed(w.db, op)))
    ensures w.db.users.Keys <= w'.db.users.Keys
    ensures forall u :: u in w.db.users ==> w.db.users[u].superuser == w'.db.users[u].superuser
  {
    if op.SignUp? || op.SetMfa? || op.Authenticate? || op.AuthenticateAdmin? {
      assert DropTokens(w'.db, {}) == w'.db;
    }
  }

  lemma QuietKeeps(w: World, op: Op, w': World)
    requires Ledger(w)
    requires !op.Issue? && !op.Refresh? && !op.AdminLogin? && !op.AdminRefresh?
    requires w' == Step(w, Request(op, 0, true))
    requires !Answer(w, Request(op, 0, true)).Raised()
    ensures Ledger(w')
  {
    QuietShape(w, op, w');
    UserUpdateKeeps(w, w'.db.users);
    var v := w.(db := w.db.(users := w'.db.users));
    DropKeeps(v, Doomed(w.db, op));
    KeysAreFree(v.(db := DropTokens(v.db, Doomed(w.db, op))), w');
  }

  /** A request that raised or failed to commit leaves the rows; names it drew stay used up. */
  lemma RollbackKeeps(w: World, rq: Request)
    requires Ledger(w) && Admissible(w, rq) && Answer(w, rq).Raised()
    ensures Ledger(Step(w, rq))
  {
    NamesUsedUp(w, rq);
    SameRowsKeep(w, Step(w, rq));
  }

  lemma MintIsFresh(w: World, rq: Request)
    requires Admissible(w, rq)
    ensures var a := AttemptOf(w, rq);
            a.mint.Some? ==>
              IsFresh(w, a.mint.value.f) && a.mint.value.claims.exp * SECOND <= w.now + rq.delay + ACCESS_TTL
  {
    SecondsRoundDown(w.now + rq.delay + ACCESS_TTL);
  }

  lemma NamesUsedUp(w: World, rq: Request)
    requires Bounded(w) && Admissible(w, rq)
    ensures var w' := Step(w, rq);
            && w.now <= w'.now && w.minted <= w'.minted && w.sids <= w'.sids && w.issued.Keys <= w'.issued.Keys
            && (forall j :: j in w'.issued ==> w'.issued[j].exp * SECOND <= w'.now + ACCESS_TTL)
            && w'.adminTokens <= w'.minted
            && forall t :: t in w.minted ==> (t in w'.adminTokens <==> t in w.adminTokens)
  {
    MintIsFresh(w, rq);
  }

  lemma SameRowsKeep(w: World, w': World)
    requires Ledger(w) && w'.db == w.db && w.now <= w'.now
    requires w.minted <= w'.minted && w.sids <= w'.sids && w.issued.Keys <= w'.issued.Keys
    requires forall j :: j in w'.issued ==> w'.issued[j].exp * SECOND <= w'.now + ACCESS_TTL
    requires w'.adminTokens <= w'.minted
    requires forall t :: t in w.minted ==> (t in w'.adminTokens <==> t in w.adminTokens)
    ensures Ledger(w')
  {
  }

  /** Waiting first and then acting at once is the same as acting after the delay. */
  lemma WaitThenAct(w: World, rq: Request)
    ensures var v := w.(now := w.now + rq.delay);
            Step(w, rq) == Step(v, rq.(delay := 0)) && Answer(w, rq) == Answer(v, rq.(delay := 0))
  {
    assert AttemptOf(w, rq) == AttemptOf(w.(now := w.now + rq.delay), rq.(delay := 0));
  }

  lemma ActKeeps(w: World, op: Op)
    requires Ledger(w) && Admissible(w, Request(op, 0, true))
    requires !Answer(w, Request(op, 0, true)).Raised()
    ensures Ledger(Step(w, Request(op, 0, true)))
  {
    var w' := Step(w, Request(op, 0, true));
    match op
    case Issue(user, f) => IssueKeeps(w, user, f, w');
    case Refresh(token, f) => RefreshKeeps(w, token, f, w');
    case AdminLogin(user, _, f) => AdminLoginKeeps(w, user, f, w');
    case AdminRefresh(token, f) => AdminRefreshKeeps(w, token, f, w');
    case _ => QuietKeeps(w, op, w');
  }

  lemma StepKeepsLedger(w: World, rq: Request)
    requires Ledger(w) && Admissible(w, rq)
    ensures Ledger(Step(w, rq))
  {
    if Answer(w, rq).Raised() {
      RollbackKeeps(w, rq);
    } else {
      WaitThenAct(w, rq);
      WaitKeeps(w, rq.delay);
      ActKeeps(w.(now := w.now + rq.delay), rq.op);
    }
  }

  lemma {:induction false} LedgerHoldsInEveryRun(w: World, rqs: seq<Request>)
    requires Ledger(w) && AdmissibleRun(w, rqs)
    ensures Ledger(Run(w, rqs))
    decreases rqs
  {
    if rqs != [] {
      StepKeepsLedger(w, rqs[0]);
      LedgerHoldsInEveryRun(Step(w, rqs[0]), rqs[1..]);
    }
  }

  // ---- What the invariant says of a run from an empty system ----

  lemma StepKeepsSuperusers(w: World, rq: Request, superusers: set<UserId>)
    requires forall u :: u in w.db.users && w.db.users[u].superuser ==> u in superusers
    ensures forall u :: u in Step(w, rq).db.users && Step(w, rq).db.users[u].superuser ==> u in superusers
  {
    var users := AttemptOf(w, rq).db.users;
    match rq.op
    case SignUp(user) => assert user !in w.db.users ==> users == w.db.users[user := User(true, false, false, false)];
    case ForcePasswordReset(user) => FlagKeepsSuperusers(w.db, user, true);
    case ResetPassword(user) => FlagKeepsSuperusers(w.db, user, false);
    case SetMfa(user, enabled) =>
      assert user in w.db.users ==> users == w.db.users[user := w.db.users[user].(mfa := enabled)];
    case _ => assert users == w.db.users;
  }

  lemma FlagKeepsSuperusers(db: Db, user: UserId, flag: bool)
    ensures user in db.users ==>
      var d := SetResetRequired(db, user, flag);
      forall u :: u in d.users ==> u in db.users && d.users[u].superuser == db.users[u].superuser
  {
  }

  lemma {:induction false} OnlySeededSuperusers(w: World, rqs: seq<Request>, superusers: set<UserId>)
    requires forall u :: u in w.db.users && w.db.users[u].superuser ==> u in superusers
    ensures var d := Run(w, rqs).db; forall u :: u in d.users && d.users[u].superuser ==> u in superusers
    decreases rqs
  {
    if rqs != [] {
      StepKeepsSuperusers(w, rqs[0], superusers);
      OnlySeededSuperusers(Step(w, rqs[0]), rqs[1..], superusers);
    }
  }

  /**
   From the seeded start, after any requests: an ordinary account holds at most one refresh token,
   and each token not handed out by the admin path has exactly one session, of the same user.
   */
  lemma SingleSessionInEveryRun(now: int, superusers: set<UserId>, rqs: seq<Request>, user: UserId)
    requires AdmissibleRun(Start(now, superusers), rqs) && user !in superusers
    ensures var w := Run(Start(now, superusers), rqs);
            && |TokensOf(w.db, {user})| <= 1
            && (forall t :: t in w.db.tokens && t !in w.adminTokens ==>
                  exists s :: s in w.db.sessions && w.db.sessions[s].token == t
                    && w.db.sessions[s].user == w.db.tokens[t].user
                    && forall r :: r in w.db.sessions && w.db.sessions[r].token == t ==> r == s)
  {
    var w := Run(Start(now, superusers), rqs);
    StartIsSound(now, superusers);
    LedgerHoldsInEveryRun(Start(now, superusers), rqs);
    OnlySeededSuperusers(Start(now, superusers), rqs, superusers);
    var mine := TokensOf(w.db, {user});
    if mine != {} {
      var t :| t in mine;
      assert mine == {t};
    }
    forall t | t in w.db.tokens && t !in w.adminTokens
      ensures exists s :: s in w.db.sessions && w.db.sessions[s].token == t
                && w.db.sessions[s].user == w.db.tokens[t].user
                && forall r :: r in w.db.sessions && w.db.sessions[r].token == t ==> r == s
    {
      assert HasSession(w.db, t);
      var s :| s in w.db.sessions && w.db.sessions[s].token == t;
    }
  }
}
