/**
 Password-reset tokens carry no stored state: they are signed with a salt taken from the account's
 current password hash. Signatures are ideal (only tokens that were handed out verify) and
 hashes never repeat.
 */
module ResetModel {
  import opened Wrappers

  type UserId = nat
  type Email = nat
  type Hash = nat

  const MAX_AGE := 86400

  /** An account without a password signs with a fixed salt of its own. */
  datatype Salt = FromHash(hash: Hash) | NoPassword(user: UserId)

  /** `stamp` is the issue time in whole seconds; so is the clock of this module. */
  datatype ResetToken = ResetToken(email: Email, salt: Salt, stamp: int)
  datatype Presented = Garbage | Bearing(token: ResetToken)

  datatype User = User(email: Email, hash: Option<Hash>, verified: bool)

  /** `hashedFor` records for whom each hash was ever computed, `issued` every token handed out. */
  datatype World = World(users: map<UserId, User>, now: int, hashedFor: map<Hash, UserId>, issued: set<ResetToken>)

  datatype Outcome =
    | Done
    | Issued(token: ResetToken)
    | EmailTaken
    | EmailNotVerified
    | InvalidCredentials
    | InvalidToken
    | TokenExpired
    | ServerError

  datatype Op =
    | SignUp(user: UserId, email: Email, newHash: Hash)
    | OAuthSignUp(user: UserId, email: Email)
    | VerifyEmail(user: UserId)
    | ChangeEmail(user: UserId, email: Email)
    | ForgotPassword(email: Email)
    | ForceReset(user: UserId)
    | ResetPassword(presented: Presented, newHash: Hash)
    | ChangePassword(user: UserId, passwordOk: bool, newHash: Hash)

  datatype Request = Request(op: Op, delay: nat, commits: bool)

  function SaltOf(user: UserId, u: User): Salt {
    if u.hash.Some? then FromHash(u.hash.value) else NoPassword(user)
  }

  predicate EmailInUse(users: map<UserId, User>, email: Email) {
    exists u :: u in users && users[u].email == email
  }

  /** SELECT the user with this address; the address is unique. */
  ghost function Lookup(users: map<UserId, User>, email: Email): (r: Option<UserId>)
    ensures r.Some? ==> r.value in users && users[r.value].email == email
    ensures r.None? ==> !EmailInUse(users, email)
  {
    if EmailInUse(users, email) then
      var u :| u in users && users[u].email == email;
      Some(u)
    else None
  }

  /** Handing the user a token changes no row; `issued` is kept by Step. */
  function TokenFor(w: World, now: int, user: UserId): ResetToken
    requires user in w.users
  {
    ResetToken(w.users[user].email, SaltOf(user, w.users[user]), now)
  }

  function SetHash(users: map<UserId, User>, user: UserId, hash: Hash): map<UserId, User>
    requires user in users
  {
    users[user := users[user].(hash := Some(hash))]
  }

  datatype Attempt = Attempt(users: map<UserId, User>, outcome: Outcome)

  ghost function TryReset(w: World, now: int, presented: Presented, newHash: Hash): Attempt {
    if presented.Garbage? then Attempt(w.users, InvalidToken)
    else
      var token := presented.token;
      var found := Lookup(w.users, token.email);
      if found.None? then Attempt(w.users, InvalidToken)
      else if token !in w.issued || token.salt != SaltOf(found.value, w.users[found.value])
      then Attempt(w.users, InvalidToken)
      else if now - token.stamp > MAX_AGE then Attempt(w.users, TokenExpired)
      else Attempt(SetHash(w.users, found.value, newHash), Done)
  }

  ghost function Try(w: World, now: int, op: Op): Attempt {
    match op
    case SignUp(user, email, newHash) =>
      if user in w.users || EmailInUse(w.users, email) then Attempt(w.users, EmailTaken)
      else Attempt(w.users[user := User(email, Some(newHash), false)], Done)
    case OAuthSignUp(user, email) =>
      if user in w.users || EmailInUse(w.users, email) then Attempt(w.users, EmailTaken)
      else Attempt(w.users[user := User(email, None, false)], Done)
    case VerifyEmail(user) =>
      if user !in w.users then Attempt(w.users, InvalidToken)
      else Attempt(w.users[user := w.users[user].(verified := true)], Done)
    case ChangeEmail(user, email) =>
      if user !in w.users || !w.users[user].verified then Attempt(w.users, EmailNotVerified)
      else if w.users[user].email == email then Attempt(w.users, Done)
      else if EmailInUse(w.users, email) then Attempt(w.users, EmailTaken)
      else Attempt(w.users[user := w.users[user].(email := email, verified := false)], Done)
    case ForgotPassword(email) =>
      var found := Lookup(w.users, email);
      if found.None? then Attempt(w.users, Done)
      else Attempt(w.users, Issued(TokenFor(w, now, found.value)))
    case ForceReset(user) =>
      if user !in w.users then Attempt(w.users, InvalidToken)
      else Attempt(w.users, Issued(TokenFor(w, now, user)))
    case ResetPassword(presented, newHash) => TryReset(w, now, presented, newHash)
    case ChangePassword(user, passwordOk, newHash) =>
      if user !in w.users || !w.users[user].verified then Attempt(w.users, EmailNotVerified)
      else if w.users[user].hash.None? || !passwordOk then Attempt(w.users, InvalidCredentials)
      else Attempt(SetHash(w.users, user, newHash), Done)
  }

  ghost function Answer(w: World, rq: Request): Outcome {
    var o := Try(w, w.now + rq.delay, rq.op).outcome;
    if o == Done && !rq.commits then ServerError else o
  }

  /** The account whose password the request sets. */
  ghost function Affects(w: World, rq: Request): Option<UserId> {
    match rq.op
    case ResetPassword(presented, _) =>
      if Answer(w, rq) == Done then Lookup(w.users, presented.token.email) else None
    case ChangePassword(user, _, _) => if Answer(w, rq) == Done then Some(user) else None
    case _ => None
  }

  /** The hash a request computed is used up even when it is not stored; so is a token that was mailed. */
  ghost function Step(w: World, rq: Request): World {
    var a := Try(w, w.now + rq.delay, rq.op);
    World(if Answer(w, rq) == Done then a.users else w.users,
          w.now + rq.delay,
          if a.outcome != Done then w.hashedFor
          else match rq.op
            case SignUp(user, _, newHash) => w.hashedFor[newHash := user]
            case ResetPassword(presented, newHash) =>
              w.hashedFor[newHash := Lookup(w.users, presented.token.email).value]
            case ChangePassword(user, _, newHash) => w.hashedFor[newHash := user]
            case _ => w.hashedFor,
          if a.outcome.Issued? then w.issued + {a.outcome.token} else w.issued)
  }

  /** The only assumption on a request: the hash it would store was never computed before. */
  predicate Admissible(w: World, rq: Request) {
    match rq.op
    case SignUp(_, _, newHash) => newHash !in w.hashedFor
    case ResetPassword(_, newHash) => newHash !in w.hashedFor
    case ChangePassword(_, _, newHash) => newHash !in w.hashedFor
    case _ => true
  }

  ghost function Run(w: World, rqs: seq<Request>): World
    decreases rqs
  {
    if rqs == [] then w else Run(Step(w, rqs[0]), rqs[1..])
  }

  ghost predicate AdmissibleRun(w: World, rqs: seq<Request>)
    decreases rqs
  {
    rqs == [] || (Admissible(w, rqs[0]) && AdmissibleRun(Step(w, rqs[0]), rqs[1..]))
  }
}
