/**
 The refresh-token and session protocol: which rows and Redis keys each request reads and
 writes, as functions from the state before to the state the request would commit.

 A refresh-token row is named by its token string: row id and string are minted together and
 both are unique, so nothing is lost by using one name for the two.
 */
module SessionModel {
  import opened Clock
  import opened Redis
  import opened Wrappers

  type UserId = nat
  type Token = nat
  type SessionId = nat
  type Jti = nat

  const ACCESS_TTL: int := 24 * HOUR
  const REFRESH_TTL: int := 7 * DAY

  datatype User = User(active: bool, superuser: bool, resetRequired: bool, mfa: bool)
  datatype RefreshRow = RefreshRow(user: UserId, expiresAt: int)
  datatype SessionRow = SessionRow(token: Token, user: UserId, jti: Jti)

  datatype Db = Db(
    users: map<UserId, User>,
    tokens: map<Token, RefreshRow>,
    sessions: map<SessionId, SessionRow>)

  datatype Keys = Keys(
    shadow: map<Token, Entry<UserId>>,
    blacklist: map<Jti, Entry<bool>>,
    lastActive: map<Jti, Entry<int>>)

  datatype Audience = Regular | Admin

  /** A signed access token. `exp` is in whole seconds, as in the JWT itself. */
  datatype Claims = Claims(sub: UserId, aud: Audience, exp: int)

  /** The random names one request may draw. */
  datatype Fresh = Fresh(token: Token, sid: SessionId, jti: Jti)
  datatype Mint = Mint(f: Fresh, claims: Claims)

  /** `minted`, `sids`, `issued` and `adminTokens` record what was ever drawn; they are never rolled back. */
  datatype World = World(
    db: Db,
    keys: Keys,
    now: int,
    minted: set<Token>,
    sids: set<SessionId>,
    issued: map<Jti, Claims>,
    adminTokens: set<Token>)

  datatype Outcome =
    | NewPair(token: Token, jti: Jti)
    | Welcome(user: UserId)
    | Revoked(count: nat)
    | Done
    | InvalidCredentials
    | InvalidToken
    | TokenExpired
    | ReplayDetected
    | NotFound
    | CannotRevokeCurrent
    | MfaRequired
    | PasswordResetRequired
    | AdminRequired
    | ServerError
  {
    predicate Raised() {
      !(NewPair? || Welcome? || Revoked? || Done?)
    }
  }

  datatype Op =
    | SignUp(user: UserId)
    | Issue(user: UserId, f: Fresh)
    | Refresh(token: Token, f: Fresh)
    | AdminLogin(user: UserId, passwordOk: bool, f: Fresh)
    | AdminRefresh(token: Token, f: Fresh)
    | Logout(token: Token)
    | AdminLogout(token: Token, jti: Jti)
    | ResetPassword(user: UserId)
    | ChangePassword(user: UserId, passwordOk: bool, current: Option<Jti>)
    | RevokeSession(user: UserId, sid: SessionId, currentJti: Jti)
    | RevokeOthers(user: UserId, currentJti: Jti)
    | RevokeMembers(members: set<UserId>)
    | ForcePasswordReset(user: UserId)
    | SetMfa(user: UserId, enabled: bool)
    | EnforceMfa(actor: UserId, members: set<UserId>)
    | Authenticate(jti: Jti)
    | AuthenticateAdmin(jti: Jti)

  /** What a request would commit, the Redis keys it leaves, its answer, and what it minted. */
  datatype Attempt = Attempt(db: Db, keys: Keys, outcome: Outcome, mint: Option<Mint>)

  // ---- SQL statements ----

  function TokensOf(db: Db, users: set<UserId>): set<Token> {
    set t | t in db.tokens && db.tokens[t].user in users
  }

  function SessionsOf(db: Db, users: set<UserId>): set<SessionId> {
    set s | s in db.sessions && db.sessions[s].user in users
  }

  function JtisOf(db: Db, sids: set<SessionId>): set<Jti> {
    set s | s in sids && s in db.sessions :: db.sessions[s].jti
  }

  /** DELETE FROM refresh_tokens; the foreign key removes the session rows that point at a deleted token. */
  function DropTokens(db: Db, doomed: set<Token>): Db {
    Db(db.users,
       map t | t in db.tokens && t !in doomed :: db.tokens[t],
       map s | s in db.sessions && db.sessions[s].token !in doomed :: db.sessions[s])
  }

  function AddToken(db: Db, token: Token, user: UserId, now: int): Db {
    db.(tokens := db.tokens[token := RefreshRow(user, now + REFRESH_TTL)])
  }

  function AddSession(db: Db, f: Fresh, user: UserId): Db {
    db.(sessions := db.sessions[f.sid := SessionRow(f.token, user, f.jti)])
  }

  predicate HasSession(db: Db, token: Token) {
    exists s :: s in db.sessions && db.sessions[s].token == token
  }

  /** The tail of `refresh`: move the old token's session to the new token, or create one. */
  function Relink(db: Db, spent: Token, f: Fresh, user: UserId): Db {
    if HasSession(db, spent) then
      db.(sessions := map s | s in db.sessions ::
        if db.sessions[s].token == spent
        then db.sessions[s].(token := f.token, jti := f.jti)
        else db.sessions[s])
    else
      AddSession(db, f, user)
  }

  // ---- Redis writes ----

  function WriteShadows(keys: Keys, tokens: set<Token>, user: UserId, now: int): Keys {
    keys.(shadow := SetAll(keys.shadow, tokens, user, now, REFRESH_TTL))
  }

  function Blacklist(keys: Keys, jtis: set<Jti>, now: int): Keys {
    keys.(blacklist := SetAll(keys.blacklist, jtis, true, now, ACCESS_TTL))
  }

  function NewClaims(user: UserId, aud: Audience, now: int): Claims {
    Claims(user, aud, (now + ACCESS_TTL) / SECOND)
  }

  // ---- Requests ----

  function Failed(db: Db, keys: Keys, o: Outcome): Attempt {
    Attempt(db, keys, o, None)
  }

  function TryIssue(db: Db, keys: Keys, now: int, user: UserId, f: Fresh): Attempt {
    if user !in db.users then Failed(db, keys, InvalidCredentials)
    else
      var displaced := TokensOf(db, {user});
      Attempt(AddSession(AddToken(DropTokens(db, displaced), f.token, user, now), f, user),
              WriteShadows(keys, displaced, user, now),
              NewPair(f.token, f.jti),
              Some(Mint(f, NewClaims(user, Regular, now))))
  }

  function TryRefresh(db: Db, keys: Keys, now: int, token: Token, f: Fresh): Attempt {
    if token !in db.tokens then
      if Live(keys.shadow, token, now)
      then Failed(DropTokens(db, TokensOf(db, {keys.shadow[token].value})), keys, ReplayDetected)
      else Failed(db, keys, InvalidToken)
    else if db.tokens[token].expiresAt < now then
      Failed(DropTokens(db, {token}), keys, TokenExpired)
    else
      var user := db.tokens[token].user;
      var keys' := WriteShadows(keys, {token}, user, now);
      var db' := AddToken(DropTokens(db, {token}), f.token, user, now);
      if user !in db.users then Failed(db', keys', InvalidToken)
      else
        Attempt(Relink(db', token, f, user), keys', NewPair(f.token, f.jti),
                Some(Mint(f, NewClaims(user, Regular, now))))
  }

  function TryAdminLogin(db: Db, keys: Keys, now: int, user: UserId, passwordOk: bool, f: Fresh): Attempt {
    if user !in db.users || !db.users[user].superuser || !passwordOk
    then Failed(db, keys, InvalidCredentials)
    else
      Attempt(AddToken(db, f.token, user, now), keys, NewPair(f.token, f.jti),
              Some(Mint(f, NewClaims(user, Admin, now))))
  }

  function TryAdminRefresh(db: Db, keys: Keys, now: int, token: Token, f: Fresh): Attempt {
    if token !in db.tokens then Failed(db, keys, InvalidToken)
    else if db.tokens[token].expiresAt < now then Failed(DropTokens(db, {token}), keys, TokenExpired)
    else
      var user := db.tokens[token].user;
      Attempt(AddToken(DropTokens(db, {token}), f.token, user, now), keys, NewPair(f.token, f.jti),
              Some(Mint(f, NewClaims(user, Admin, now))))
  }

  /** The sessions of `user` other than the current one. */
  function OtherSessions(db: Db, user: UserId, current: Option<Jti>): set<SessionId> {
    set s | s in SessionsOf(db, {user}) && Some(db.sessions[s].jti) != current
  }

  /** The refresh token the current session points at: at most one. */
  function CurrentTokens(db: Db, user: UserId, current: Option<Jti>): set<Token> {
    set s | s in SessionsOf(db, {user}) && Some(db.sessions[s].jti) == current :: db.sessions[s].token
  }

  /** Shared by change_password and revoke_all_other_sessions. */
  function TryKeepCurrent(db: Db, keys: Keys, now: int, user: UserId, current: Option<Jti>): Attempt {
    var others := OtherSessions(db, user, current);
    Attempt(DropTokens(db, TokensOf(db, {user}) - CurrentTokens(db, user, current)),
            Blacklist(keys, JtisOf(db, others), now),
            Revoked(|others|), None)
  }

  function TryRevokeSession(db: Db, keys: Keys, now: int, user: UserId, sid: SessionId, currentJti: Jti): Attempt {
    if sid !in db.sessions || db.sessions[sid].user != user then Failed(db, keys, NotFound)
    else if db.sessions[sid].jti == currentJti then Failed(db, keys, CannotRevokeCurrent)
    else
      Attempt(DropTokens(db, {db.sessions[sid].token}),
              Blacklist(keys, {db.sessions[sid].jti}, now), Done, None)
  }

  /** Blacklist every recorded JTI of these users, then delete their refresh tokens. */
  function TryRevokeMembers(db: Db, keys: Keys, now: int, members: set<UserId>): Attempt {
    Attempt(DropTokens(db, TokensOf(db, members)),
            Blacklist(keys, JtisOf(db, SessionsOf(db, members)), now), Done, None)
  }

  function SetResetRequired(db: Db, user: UserId, flag: bool): Db
    requires user in db.users
  {
    db.(users := db.users[user := db.users[user].(resetRequired := flag)])
  }

  function TryForceReset(db: Db, keys: Keys, now: int, user: UserId): Attempt {
    if user !in db.users then Failed(db, keys, NotFound)
    else TryRevokeMembers(SetResetRequired(db, user, true), keys, now, {user})
  }

  function TryResetPassword(db: Db, keys: Keys, user: UserId): Attempt {
    if user !in db.users then Failed(db, keys, InvalidToken)
    else Attempt(DropTokens(SetResetRequired(db, user, false), TokensOf(db, {user})), keys, Done, None)
  }

  function WithoutMfa(db: Db, members: set<UserId>): set<UserId> {
    set u | u in members && u in db.users && !db.users[u].mfa
  }

  function TryEnforceMfa(db: Db, keys: Keys, actor: UserId, members: set<UserId>): Attempt {
    if actor !in db.users || !db.users[actor].mfa then Failed(db, keys, MfaRequired)
    else Attempt(DropTokens(db, TokensOf(db, WithoutMfa(db, members))), keys, Done, None)
  }

  /** `get_current_user`: signature, expiry, audience, blacklist, account, forced reset, in that order. */
  function TryAuthenticate(db: Db, keys: Keys, now: int, issued: map<Jti, Claims>, jti: Jti): Attempt {
    if jti !in issued then Failed(db, keys, InvalidToken)
    else if issued[jti].exp * SECOND <= now then Failed(db, keys, TokenExpired)
    else if issued[jti].aud != Regular then Failed(db, keys, InvalidToken)
    else if Live(keys.blacklist, jti, now) then Failed(db, keys, InvalidToken)
    else
      var user := issued[jti].sub;
      if user !in db.users || !db.users[user].active then Failed(db, keys, InvalidToken)
      else if db.users[user].resetRequired then Failed(db, keys, PasswordResetRequired)
      else Attempt(db, keys.(lastActive := keys.lastActive[jti := Entry(now, now + ACCESS_TTL)]),
                   Welcome(user), None)
  }

  /** `require_admin`, the gate of the admin endpoints: it reads no forced-reset flag and writes no key. */
  function TryAuthenticateAdmin(db: Db, keys: Keys, now: int, issued: map<Jti, Claims>, jti: Jti): Attempt {
    if jti !in issued then Failed(db, keys, InvalidToken)
    else if issued[jti].exp * SECOND <= now then Failed(db, keys, TokenExpired)
    else if issued[jti].aud != Admin then Failed(db, keys, InvalidToken)
    else if Live(keys.blacklist, jti, now) then Failed(db, keys, InvalidToken)
    else
      var user := issued[jti].sub;
      if user !in db.users || !db.users[user].active then Failed(db, keys, InvalidToken)
      else if !db.users[user].superuser then Failed(db, keys, AdminRequired)
      else Attempt(db, keys, Welcome(user), None)
  }

  /** Admin logout is itself behind the admin gate, and blacklists the access token that passed it. */
  function TryAdminLogout(db: Db, keys: Keys, now: int, issued: map<Jti, Claims>, token: Token, jti: Jti): Attempt {
    var gate := TryAuthenticateAdmin(db, keys, now, issued, jti);
    if !gate.outcome.Welcome? then gate
    else Attempt(DropTokens(db, {token}), Blacklist(keys, {jti}, now), Done, None)
  }

  function Try(db: Db, keys: Keys, now: int, issued: map<Jti, Claims>, op: Op): Attempt {
    match op
    case SignUp(user) =>
      if user in db.users then Failed(db, keys, InvalidCredentials)
      else Attempt(db.(users := db.users[user := User(true, false, false, false)]), keys, Done, None)
    case Issue(user, f) => TryIssue(db, keys, now, user, f)
    case Refresh(token, f) => TryRefresh(db, keys, now, token, f)
    case AdminLogin(user, ok, f) => TryAdminLogin(db, keys, now, user, ok, f)
    case AdminRefresh(token, f) => TryAdminRefresh(db, keys, now, token, f)
    case Logout(token) => Attempt(DropTokens(db, {token}), keys, Done, None)
    case AdminLogout(token, jti) => TryAdminLogout(db, keys, now, issued, token, jti)
    case ResetPassword(user) => TryResetPassword(db, keys, user)
    case ChangePassword(user, ok, current) =>
      if !ok then Failed(db, keys, InvalidCredentials)
      else TryKeepCurrent(db, keys, now, user, current).(outcome := Done)
    case RevokeSession(user, sid, currentJti) => TryRevokeSession(db, keys, now, user, sid, currentJti)
    case RevokeOthers(user, currentJti) => TryKeepCurrent(db, keys, now, user, Some(currentJti))
    case RevokeMembers(members) => TryRevokeMembers(db, keys, now, members)
    case ForcePasswordReset(user) => TryForceReset(db, keys, now, user)
    case SetMfa(user, enabled) =>
      if user !in db.users then Failed(db, keys, NotFound)
      else Attempt(db.(users := db.users[user := db.users[user].(mfa := enabled)]), keys, Done, None)
    case EnforceMfa(actor, members) => TryEnforceMfa(db, keys, actor, members)
    case Authenticate(jti) => TryAuthenticate(db, keys, now, issued, jti)
    case AuthenticateAdmin(jti) => TryAuthenticateAdmin(db, keys, now, issued, jti)
  }

  // ---- Whole runs ----

  /** A request arrives `delay` after the last one; `commits` is false when the final COMMIT fails. */
  datatype Request = Request(op: Op, delay: nat, commits: bool)

  function AttemptOf(w: World, rq: Request): Attempt {
    Try(w.db, w.keys, w.now + rq.delay, w.issued, rq.op)
  }

  function Answer(w: World, rq: Request): Outcome {
    var o := AttemptOf(w, rq).outcome;
    if o.Raised() || rq.commits then o else ServerError
  }

  /** SQL survives only a request that neither raises nor fails to commit; Redis writes always survive. */
  function Step(w: World, rq: Request): World {
    var a := AttemptOf(w, rq);
    var admin := rq.op.AdminLogin? || rq.op.AdminRefresh?;
    World(if Answer(w, rq).Raised() then w.db else a.db,
          a.keys,
          w.now + rq.delay,
          if a.mint.Some? then w.minted + {a.mint.value.f.token} else w.minted,
          if a.mint.Some? then w.sids + {a.mint.value.f.sid} else w.sids,
          if a.mint.Some? then w.issued[a.mint.value.f.jti := a.mint.value.claims] else w.issued,
          if a.mint.Some? && admin then w.adminTokens + {a.mint.value.f.token} else w.adminTokens)
  }

  predicate IsFresh(w: World, f: Fresh) {
    f.token !in w.minted && f.sid !in w.sids && f.jti !in w.issued
  }

  /** The only assumption on a request: random names it may draw were never drawn before. */
  predicate Admissible(w: World, rq: Request) {
    match rq.op
    case Issue(_, f) => IsFresh(w, f)
    case Refresh(_, f) => IsFresh(w, f)
    case AdminLogin(_, _, f) => IsFresh(w, f)
    case AdminRefresh(_, f) => IsFresh(w, f)
    case _ => true
  }

  function Run(w: World, rqs: seq<Request>): World
    decreases rqs
  {
    if rqs == [] then w else Run(Step(w, rqs[0]), rqs[1..])
  }

  predicate AdmissibleRun(w: World, rqs: seq<Request>)
    decreases rqs
  {
    rqs == [] || (Admissible(w, rqs[0]) && AdmissibleRun(Step(w, rqs[0]), rqs[1..]))
  }
}
